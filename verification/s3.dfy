/** Object keys and URLs of the storage gateway (`uploadToS3`,
    `deleteFromS3`). The SDK call itself is an oracle: `put` stores a local
    file under a key, `del` removes a key; either may fail. */
module S3 {
  import opened Outcomes
  import opened Text
  import opened NodePath

  /** Bucket name and region, read from the environment. */
  datatype AwsConfig = AwsConfig(bucket: string, region: string)

  type PutObject = (string, LocalPath) -> Outcome<Error>
  type DeleteObject = string -> Outcome<Error>

  /** The key a file is stored under: folder, slash, file name. */
  function ObjectKey(bucketFolder: string, fileName: string): string {
    bucketFolder + "/" + fileName
  }

  function UrlPrefix(cfg: AwsConfig): string {
    "https://" + cfg.bucket + ".s3." + cfg.region + ".amazonaws.com/"
  }

  /** The URL of a key in the configured bucket. */
  function ObjectUrl(cfg: AwsConfig, key: string): string {
    UrlPrefix(cfg) + key
  }

  /** Splits a key at its last slash into folder and file name. */
  function SplitKey(key: string): (r: Option<(string, string)>)
    ensures r.Some? ==> ObjectKey(r.value.0, r.value.1) == key && '/' !in r.value.1
  {
    match LastIndexOf(key, '/')
    case None => None
    case Some(i) =>
      assert key == key[..i] + "/" + key[i + 1..];
      Some((key[..i], key[i + 1..]))
  }

  /** Recovers the key from a URL of this bucket. */
  function KeyOfUrl(cfg: AwsConfig, url: string): (r: Option<string>)
    ensures r.Some? ==> url == UrlPrefix(cfg) + r.value
  {
    if StartsWith(url, UrlPrefix(cfg)) then
      assert url == url[..|UrlPrefix(cfg)|] + url[|UrlPrefix(cfg)|..];
      Some(url[|UrlPrefix(cfg)|..])
    else None
  }

  /** A key splits back into the folder and file name it was made from,
      whatever slashes the folder holds. */
  lemma {:induction false} SplitObjectKey(bucketFolder: string, fileName: string)
    requires '/' !in fileName
    ensures SplitKey(ObjectKey(bucketFolder, fileName)) == Some((bucketFolder, fileName))
  {
    var key := ObjectKey(bucketFolder, fileName);
    var i := |bucketFolder|;
    assert key[i] == '/';
    assert key[i + 1..] == fileName;
    assert LastIndexOf(key, '/').Some?;
    assert LastIndexOf(key, '/').value == i;
    assert key[..i] == bucketFolder;
  }

  /** `uploadToS3`: puts the local file under `bucketFolder/fileName`; on
      success the URL is the bucket's URL prefix followed by that key, and an
      SDK failure propagates unchanged. */
  function UploadToS3(cfg: AwsConfig, put: PutObject, file: LocalPath,
                      bucketFolder: string, fileName: string): (r: Result<string, Error>)
    ensures r.Ok? <==> put(ObjectKey(bucketFolder, fileName), file).Pass?
    ensures r.Ok? ==> r.value == ObjectUrl(cfg, ObjectKey(bucketFolder, fileName))
    ensures r.Err? ==> r.error == put(ObjectKey(bucketFolder, fileName), file).error
  {
    var key := ObjectKey(bucketFolder, fileName);
    match put(key, file)
    case Fail(e) => Err(e)
    case Pass =>
      var url := "https://" + cfg.bucket + ".s3." + cfg.region + ".amazonaws.com/" + bucketFolder + "/" + fileName;
      assert url == UrlPrefix(cfg) + key;
      assert StartsWith(url, UrlPrefix(cfg));
      Ok(url)
  }

  /** A URL of the bucket gives back exactly the key it was made from. */
  lemma KeyOfObjectUrl(cfg: AwsConfig, key: string)
    ensures KeyOfUrl(cfg, ObjectUrl(cfg, key)) == Some(key)
  {
    assert ObjectUrl(cfg, key)[..|UrlPrefix(cfg)|] == UrlPrefix(cfg);
  }

  /** The returned URL depends on the configuration, the folder and the name
      only: neither the local file nor how the store behaved beyond success
      changes it. */
  lemma UrlIgnoresContent(cfg: AwsConfig, put1: PutObject, put2: PutObject,
                          file1: LocalPath, file2: LocalPath, bucketFolder: string, fileName: string)
    requires UploadToS3(cfg, put1, file1, bucketFolder, fileName).Ok?
    requires UploadToS3(cfg, put2, file2, bucketFolder, fileName).Ok?
    ensures UploadToS3(cfg, put1, file1, bucketFolder, fileName)
         == UploadToS3(cfg, put2, file2, bucketFolder, fileName)
  {
  }

  /** `deleteFromS3`: deletes exactly the key it is given; any SDK failure is
      replaced by one naming that key. */
  function DeleteFromS3(del: DeleteObject, path: string): (r: Outcome<Error>)
    ensures r.Pass? <==> del(path).Pass?
    ensures r.Fail? ==> r.error == PlainError("Failed to delete " + path + " from S3")
  {
    match del(path)
    case Pass => Pass
    case Fail(_) => Fail(PlainError("Failed to delete " + path + " from S3"))
  }
}
