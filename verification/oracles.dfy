/** Everything outside the service's own logic, as functions the model is
    given: the file system, `file-type` sniffing, `sharp` metadata and
    encoding, `blurhash`, and the storage gateway's `put`. Each one either
    answers or fails with the error it would throw. */
module Oracles {
  import opened Outcomes
  import opened NodePath
  import opened S3

  newtype byte = x: int | 0 <= x < 256

  /** The contents of a file or an encoded image. */
  type Bytes = seq<byte>

  /** What `fileType.fromBuffer` reports for a buffer. */
  datatype DetectedType = DetectedType(mime: string, ext: string)

  datatype Env = Env(
    // `fs.readFile`
    readFile: LocalPath -> Result<Bytes, Error>,
    // `fileType.fromBuffer`; None when the type cannot be determined
    sniff: Bytes -> Option<DetectedType>,
    // `sharp(buffer).metadata()`: the width when the decoder reports one
    width: Bytes -> Result<Option<nat>, Error>,
    // `sharp(buffer).resize({width, withoutEnlargement}).toFormat('jpeg', {quality})`
    encode: (Bytes, int, int) -> Result<Bytes, Error>,
    // `fs.writeFile`
    writeFile: (LocalPath, Bytes) -> Outcome<Error>,
    // the 32x32 alpha raw resize of a file followed by `blurhash.encode`
    blurHash: LocalPath -> Result<string, Error>,
    // the S3 `PutObjectCommand` of a local file under a key
    put: PutObject,
    aws: AwsConfig
  )
}
