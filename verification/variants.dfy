/** `compressImage`: re-read and re-sniff the upload, then write a high, a
    medium and a low variant next to it. */
module Variants {
  import opened Outcomes
  import opened Text
  import opened NodePath
  import opened Oracles
  import opened Compression
  import opened Naming
  import opened Entities

  datatype VariantPaths = VariantPaths(high: LocalPath, medium: LocalPath, low: LocalPath)

  /** One variant file written to disk, with its contents. */
  datatype Written = Written(path: LocalPath, content: Bytes)

  /** What `compressImage` leaves behind: the variant files it managed to
      write, in order, and its outcome. The files are on disk whether or not
      the outcome is a success. */
  datatype CompressRun = CompressRun(written: seq<Written>, result: Result<VariantPaths, Error>)

  /** The three variant paths: in the upload's directory, named after the
      normalised file name with a `-high`, `-medium` or `-low` tag. */
  function PathsFor(file: LocalPath, fileName: string): VariantPaths {
    VariantPaths(
      LocalPath(file.dir, VariantName(fileName, "-high")),
      LocalPath(file.dir, VariantName(fileName, "-medium")),
      LocalPath(file.dir, VariantName(fileName, "-low")))
  }

  function PathList(v: VariantPaths): seq<LocalPath> {
    [v.high, v.medium, v.low]
  }

  function WrittenPaths(w: seq<Written>): (r: seq<LocalPath>)
    ensures |r| == |w| && forall i :: 0 <= i < |w| ==> r[i] == w[i].path
  {
    if |w| == 0 then [] else WrittenPaths(w[..|w| - 1]) + [w[|w| - 1].path]
  }

  /** The original is kept as the high variant when the decoder reports a
      (non-zero) width of at most 2000 pixels and the file is at most 3 MiB. */
  predicate KeepsOriginal(width: Option<nat>, source: Bytes) {
    width.Some? && width.value != 0 && width.value <= High.maxWidth && |source| <= High.targetSize
  }

  function EncoderOf(env: Env, source: Bytes): Encoder {
    (w, q) => env.encode(source, w, q)
  }

  /** The buffer the quality search keeps for one preset. */
  function Encoding(env: Env, source: Bytes, s: Settings): Result<Encoded, Error> {
    Search(s, EncoderOf(env, source), s.initialQuality)
  }

  /** `compressToSize` with its final write: the bytes written at `out`. */
  function CompressAndWrite(env: Env, source: Bytes, s: Settings, out: LocalPath): (r: Result<Bytes, Error>)
    ensures r.Ok? <==> Encoding(env, source, s).Ok? && env.writeFile(out, Encoding(env, source, s).value.buffer).Pass?
    ensures r.Ok? ==> r.value == Encoding(env, source, s).value.buffer
  {
    match Encoding(env, source, s)
    case Err(e) => Err(e)
    case Ok(x) =>
      match env.writeFile(out, x.buffer)
      case Fail(e) => Err(e)
      case Pass => Ok(x.buffer)
  }

  /** The high variant: the original bytes verbatim, or the high preset's
      search result. */
  function WriteHigh(env: Env, source: Bytes, width: Option<nat>, out: LocalPath): (r: Result<Bytes, Error>)
    ensures r.Ok? && KeepsOriginal(width, source) ==> r.value == source
    ensures r.Ok? && !KeepsOriginal(width, source) ==>
              Encoding(env, source, High).Ok? && r.value == Encoding(env, source, High).value.buffer
  {
    if KeepsOriginal(width, source) then
      match env.writeFile(out, source)
      case Fail(e) => Err(e)
      case Pass => Ok(source)
    else
      CompressAndWrite(env, source, High, out)
  }

  /** The three writes in order; the first failure stops the rest. */
  function WriteVariants(env: Env, source: Bytes, width: Option<nat>, v: VariantPaths): (r: CompressRun)
    ensures r.result.Ok? ==> r.result.value == v && |r.written| == 3
    ensures r.result.Err? ==> |r.written| < 3
    ensures WrittenPaths(r.written) == PathList(v)[..|r.written|]
  {
    match WriteHigh(env, source, width, v.high)
    case Err(e) => CompressRun([], Err(e))
    case Ok(h) =>
      match CompressAndWrite(env, source, Medium, v.medium)
      case Err(e) => CompressRun([Written(v.high, h)], Err(e))
      case Ok(m) =>
        match CompressAndWrite(env, source, Low, v.low)
        case Err(e) => CompressRun([Written(v.high, h), Written(v.medium, m)], Err(e))
        case Ok(l) => CompressRun([Written(v.high, h), Written(v.medium, m), Written(v.low, l)], Ok(v))
  }

  /** Every failure inside `compressImage` is rethrown as a 500 naming the
      file. */
  function CompressFailure(file: LocalPath, e: Error): Error {
    RouteError(StatusServerError, "Failed to compress image " + PathString(file) + ": " + e.message)
  }

  function CompressImage(env: Env, file: LocalPath, fileName: string): (r: CompressRun)
    ensures r.result.Ok? ==> r.result.value == PathsFor(file, fileName) && |r.written| == 3
    ensures r.result.Err? ==> |r.written| < 3
    ensures r.result.Err? ==> r.result.error.RouteError? && r.result.error.status == StatusServerError
    ensures r.result.Err? ==> StartsWith(r.result.error.message, "Failed to compress image " + PathString(file) + ": ")
    ensures WrittenPaths(r.written) == PathList(PathsFor(file, fileName))[..|r.written|]
  {
    match env.readFile(file)
    case Err(e) => CompressRun([], Err(CompressFailure(file, e)))
    case Ok(source) =>
      var t := env.sniff(source);
      if t.None? || !IsImageType(t.value.mime) then
        CompressRun([], Err(CompressFailure(file, PlainError("Unsupported file type"))))
      else
        match env.width(source)
        case Err(e) => CompressRun([], Err(CompressFailure(file, e)))
        case Ok(width) =>
          var run := WriteVariants(env, source, width, PathsFor(file, fileName));
          match run.result
          case Ok(v) => run
          case Err(e) => CompressRun(run.written, Err(CompressFailure(file, e)))
  }

  /** A successful run wrote the three variants in order: the high one is the
      original verbatim exactly when `KeepsOriginal` holds and the high
      preset's search result otherwise; medium and low always come from the
      search. */
  lemma CompressedContents(env: Env, file: LocalPath, fileName: string)
    requires CompressImage(env, file, fileName).result.Ok?
    ensures env.readFile(file).Ok?
    ensures var source := env.readFile(file).value;
      && env.sniff(source).Some? && IsImageType(env.sniff(source).value.mime)
      && env.width(source).Ok?
      && var width := env.width(source).value;
      && var w := CompressImage(env, file, fileName).written;
      && w[0].content == (if KeepsOriginal(width, source) then source
                          else Encoding(env, source, High).value.buffer)
      && w[1].content == Encoding(env, source, Medium).value.buffer
      && w[2].content == Encoding(env, source, Low).value.buffer
  {
  }

  /** Every variant that came from the search was kept at a quality between
      its preset's floor and starting quality, and fits its target or sits
      at that floor. */
  lemma SearchedVariantsWithinPreset(env: Env, source: Bytes, s: Settings)
    requires s == High || s == Medium || s == Low
    requires Encoding(env, source, s).Ok?
    ensures var x := Encoding(env, source, s).value;
      && s.minQuality <= x.quality <= s.initialQuality
      && (|x.buffer| <= s.targetSize || x.quality == s.minQuality)
  {
    PresetBounds(EncoderOf(env, source));
  }

  /** A file that is not one of the five image types never gets a variant
      written. */
  lemma NonImageWritesNothing(env: Env, file: LocalPath, fileName: string)
    requires env.readFile(file).Ok?
    requires var t := env.sniff(env.readFile(file).value); t.None? || !IsImageType(t.value.mime)
    ensures CompressImage(env, file, fileName).written == []
    ensures CompressImage(env, file, fileName).result
         == Err(CompressFailure(file, PlainError("Unsupported file type")))
  {
  }
}
