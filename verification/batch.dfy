/** `processAndUploadFiles`: the per-file pipeline (sniff, normalise, route,
    compress, upload, hash, release) and the batch loop that folds the
    per-file outcomes into `{urls, blurHash, warnings}`. */
module Batch {
  import opened Outcomes
  import opened Text
  import opened NodePath
  import opened Oracles
  import opened S3
  import opened Entities
  import opened Naming
  import opened Variants
  import opened Reaper

  /** One upload as the multipart decoder hands it over: the client's file
      name and where the bytes were stored. */
  datatype UploadedFile = UploadedFile(originalName: string, path: LocalPath)

  /** What one file contributes to the batch: the URLs of its successful
      uploads, the placeholder hash it produced, the one warning its failure
      adds, the paths released in `finally`, and the variant files that were
      written but are never released. */
  datatype FileReport = FileReport(
    urls: seq<string>,
    hash: Option<string>,
    warning: Option<string>,
    released: seq<LocalPath>,
    stranded: seq<LocalPath>)

  /** The warning a failed file adds. */
  function Warning(file: UploadedFile, e: Error): string {
    "Failed to process " + file.originalName + ": " + e.message
  }

  /** `generateBlurHash` rethrows any failure as a 500 naming the file. */
  function HashFailure(p: LocalPath, e: Error): Error {
    RouteError(StatusServerError, "Failed to generate blurHash for " + PathString(p) + ": " + e.message)
  }

  /** Which branch of the upload a sniffed file takes. */
  datatype Route = ToVariants | ToVideo | ToFolder

  /** Variants exactly for the five image types and the three variant entity
      types; otherwise a `video/` type goes to the `Video` sub-folder and
      anything else to the entity's folder. */
  function RouteOf(mime: string, entityType: string): Route {
    if IsImageType(mime) && entityType in VariantEntities then ToVariants
    else if StartsWith(mime, "video/") then ToVideo
    else ToFolder
  }

  /** The gate, both ways: a file gets variants exactly when its type is one
      of the five image types and the entity type is a variant one; an image
      for any other entity type is uploaded once into the folder itself, never
      into `Video`. */
  lemma RouteGate(mime: string, entityType: string)
    ensures RouteOf(mime, entityType) == ToVariants <==> IsImageType(mime) && entityType in VariantEntities
    ensures IsImageType(mime) && entityType !in VariantEntities ==> RouteOf(mime, entityType) == ToFolder
  {
    if IsImageType(mime) {
      ImageIsNotVideo(mime);
    }
  }

  /** The URLs of the three variants of `fileName`, in upload order. */
  function VariantUrls(cfg: AwsConfig, folder: string, fileName: string): seq<string> {
    [ObjectUrl(cfg, ObjectKey(folder + "/H", fileName)),
     ObjectUrl(cfg, ObjectKey(folder + "/M", fileName)),
     ObjectUrl(cfg, ObjectKey(folder + "/L", fileName))]
  }

  /** The uploads of a compressed image and the failure that stopped them. */
  datatype Uploads = Uploads(urls: seq<string>, hash: Option<string>, failure: Option<Error>)

  /** Upload high, hash the high variant, upload medium, upload low; the
      first failure stops the rest. */
  function UploadVariants(env: Env, folder: string, fileName: string, v: VariantPaths): (u: Uploads)
    ensures |u.urls| <= 3 && (u.failure.None? <==> |u.urls| == 3)
    ensures u.hash.Some? ==> |u.urls| >= 1 && env.blurHash(v.high) == Ok(u.hash.value)
  {
    match UploadToS3(env.aws, env.put, v.high, folder + "/H", fileName)
    case Err(e) => Uploads([], None, Some(e))
    case Ok(highUrl) =>
      match env.blurHash(v.high)
      case Err(e) => Uploads([highUrl], None, Some(HashFailure(v.high, e)))
      case Ok(h) =>
        match UploadToS3(env.aws, env.put, v.medium, folder + "/M", fileName)
        case Err(e) => Uploads([highUrl], Some(h), Some(e))
        case Ok(mediumUrl) =>
          match UploadToS3(env.aws, env.put, v.low, folder + "/L", fileName)
          case Err(e) => Uploads([highUrl, mediumUrl], Some(h), Some(e))
          case Ok(lowUrl) => Uploads([highUrl, mediumUrl, lowUrl], Some(h), None)
  }

  /** The URLs come in the order high, medium, low and stop at the first
      failure; the hash is computed after the high upload and before the
      medium one, so it exists when two URLs do and never without the high
      one. */
  lemma UploadOrder(env: Env, folder: string, fileName: string, v: VariantPaths)
    ensures var u := UploadVariants(env, folder, fileName, v);
      && |u.urls| <= 3 && u.urls == VariantUrls(env.aws, folder, fileName)[..|u.urls|]
      && (u.failure.None? <==> |u.urls| == 3)
      && (u.hash.Some? ==> |u.urls| >= 1 && u.hash == Some(env.blurHash(v.high).value))
      && (|u.urls| >= 2 ==> u.hash.Some?)
      && (|u.urls| == 1 && u.hash.None? ==> env.blurHash(v.high).Err?)
  {
  }

  /** The report of a file whose processing threw `e`. */
  function FailedReport(file: UploadedFile, e: Error): FileReport {
    FileReport([], None, Some(Warning(file, e)), [file.path], [])
  }

  /** One upload of the original bytes under `folder`. */
  function UploadOriginal(env: Env, file: UploadedFile, folder: string, fileName: string): FileReport {
    match UploadToS3(env.aws, env.put, file.path, folder, fileName)
    case Err(e) => FailedReport(file, e)
    case Ok(url) => FileReport([url], None, None, [file.path], [])
  }

  /** The image branch: compress, then upload. The variant paths are released
      only when `compressImage` returned them; a failure inside it leaves the
      variants it already wrote stranded. */
  function ProcessImage(env: Env, file: UploadedFile, folder: string, fileName: string): FileReport {
    var c := CompressImage(env, file.path, fileName);
    match c.result
    case Err(e) => FileReport([], None, Some(Warning(file, e)), [file.path], WrittenPaths(c.written))
    case Ok(v) =>
      var u := UploadVariants(env, folder, fileName, v);
      FileReport(u.urls, u.hash,
                 if u.failure.Some? then Some(Warning(file, u.failure.value)) else None,
                 [file.path] + PathList(v), [])
  }

  /** The error `fs.readFile` throws for a path that is no longer there. */
  function NoSuchFile(p: LocalPath): Error {
    PlainError("ENOENT: no such file or directory, open '" + PathString(p) + "'")
  }

  /** `fs.readFile` during the batch: a path an earlier file already released
      (unlinked, or moved to the temp directory) is gone; any other path reads
      as the file system answers. Paths are compared as directory and name,
      which for the slash-free names the service builds is the same as
      comparing the joined strings. */
  function ReadUpload(env: Env, removed: seq<LocalPath>, p: LocalPath): Result<Bytes, Error> {
    if p in removed then Err(NoSuchFile(p)) else env.readFile(p)
  }

  /** The body of the loop for one file, including its `catch` and
      `finally`; `removed` is every path the earlier files released. */
  function ProcessFile(env: Env, folder: string, entityType: string, removed: seq<LocalPath>,
                       file: UploadedFile): (r: FileReport)
    ensures file.path in removed ==> r == FailedReport(file, NoSuchFile(file.path))
  {
    match ReadUpload(env, removed, file.path)
    case Err(e) => FailedReport(file, e)
    case Ok(buffer) =>
      match env.sniff(buffer)
      case None => FailedReport(file, PlainError("Unable to determine file type"))
      case Some(t) =>
        RouteReport(env, file, folder, RouteOf(t.mime, entityType), NormalizeFileName(file.originalName, t.ext))
  }

  /** What happens to a read and sniffed file once its route and normalised
      name are known. */
  function RouteReport(env: Env, file: UploadedFile, folder: string, route: Route, fileName: string): FileReport {
    match route
    case ToVariants => ProcessImage(env, file, folder, fileName)
    case ToVideo => UploadOriginal(env, file, folder + "/Video", fileName)
    case ToFolder => UploadOriginal(env, file, folder, fileName)
  }

  /** The warning names the file it is about. */
  lemma WarningNamesFile(file: UploadedFile, e: Error)
    ensures StartsWith(Warning(file, e), "Failed to process " + file.originalName + ": ")
  {
    var prefix := "Failed to process " + file.originalName + ": ";
    assert Warning(file, e) == prefix + e.message;
    assert (prefix + e.message)[..|prefix|] == prefix;
  }

  /** A report whose only release is the original, first of all, and whose
      warning, if any, names the file. */
  predicate ReleasesFirst(file: UploadedFile, r: FileReport) {
    && |r.released| >= 1 && r.released[0] == file.path
    && (r.warning.Some? ==> StartsWith(r.warning.value, "Failed to process " + file.originalName + ": "))
  }

  lemma ImageReleasesFirst(env: Env, file: UploadedFile, folder: string, fileName: string)
    ensures ReleasesFirst(file, ProcessImage(env, file, folder, fileName))
  {
    var c := CompressImage(env, file.path, fileName);
    if c.result.Err? {
      WarningNamesFile(file, c.result.error);
    } else {
      var u := UploadVariants(env, folder, fileName, c.result.value);
      if u.failure.Some? {
        WarningNamesFile(file, u.failure.value);
      }
    }
  }

  lemma OriginalReleasesFirst(env: Env, file: UploadedFile, folder: string, fileName: string)
    ensures ReleasesFirst(file, UploadOriginal(env, file, folder, fileName))
  {
    var u := UploadToS3(env.aws, env.put, file.path, folder, fileName);
    if u.Err? {
      WarningNamesFile(file, u.error);
    }
  }

  /** Every file is released, its original first of all, whatever happened to
      it; a warning, if the file adds one, names the file. */
  lemma FileAlwaysReleased(env: Env, folder: string, entityType: string, removed: seq<LocalPath>,
                            file: UploadedFile)
    ensures ReleasesFirst(file, ProcessFile(env, folder, entityType, removed, file))
  {
    var read := ReadUpload(env, removed, file.path);
    if read.Err? {
      WarningNamesFile(file, read.error);
    } else if env.sniff(read.value).None? {
      WarningNamesFile(file, PlainError("Unable to determine file type"));
    } else {
      var t := env.sniff(read.value).value;
      RouteReleasesFirst(env, file, folder, RouteOf(t.mime, entityType), NormalizeFileName(file.originalName, t.ext));
    }
  }

  lemma RouteReleasesFirst(env: Env, file: UploadedFile, folder: string, route: Route, fileName: string)
    ensures ReleasesFirst(file, RouteReport(env, file, folder, route, fileName))
  {
    match route
    case ToVariants => ImageReleasesFirst(env, file, folder, fileName);
    case ToVideo => OriginalReleasesFirst(env, file, folder + "/Video", fileName);
    case ToFolder => OriginalReleasesFirst(env, file, folder, fileName);
  }

  /** A single upload yields its one URL, or no URL and a warning. */
  lemma OriginalOutcome(env: Env, file: UploadedFile, folder: string, fileName: string)
    ensures var r := UploadOriginal(env, file, folder, fileName);
      r.urls == (if r.warning.None? then [ObjectUrl(env.aws, ObjectKey(folder, fileName))] else [])
  {
  }

  /** A compressed image yields a prefix of its three variant URLs, and a
      warning exactly when that prefix is short. */
  lemma ImageOutcome(env: Env, file: UploadedFile, folder: string, fileName: string)
    ensures var r := ProcessImage(env, file, folder, fileName);
      && |r.urls| <= 3 && r.urls == VariantUrls(env.aws, folder, fileName)[..|r.urls|]
      && (r.warning.None? <==> |r.urls| == 3)
  {
    var c := CompressImage(env, file.path, fileName);
    if c.result.Ok? {
      UploadOrder(env, folder, fileName, c.result.value);
    }
  }

  /** What a file's URLs and warning can be once it took `route` with the
      normalised name `fileName`. */
  predicate FitsRoute(aws: AwsConfig, folder: string, route: Route, fileName: string, r: FileReport) {
    match route
    case ToVideo =>
      r.urls == (if r.warning.None? then [ObjectUrl(aws, ObjectKey(folder + "/Video", fileName))] else [])
    case ToFolder =>
      r.urls == (if r.warning.None? then [ObjectUrl(aws, ObjectKey(folder, fileName))] else [])
    case ToVariants =>
      && |r.urls| <= 3 && r.urls == VariantUrls(aws, folder, fileName)[..|r.urls|]
      && (r.warning.None? <==> |r.urls| == 3)
  }

  /** The keys a file taking `route` under the name `fileName` is stored at,
      in upload order. */
  function RouteKeys(folder: string, route: Route, fileName: string): seq<string> {
    match route
    case ToVariants =>
      [ObjectKey(folder + "/H", fileName), ObjectKey(folder + "/M", fileName), ObjectKey(folder + "/L", fileName)]
    case ToVideo => [ObjectKey(folder + "/Video", fileName)]
    case ToFolder => [ObjectKey(folder, fileName)]
  }

  /** Every URL a file reports is the URL of the key at the same place among
      its route's keys. */
  lemma UrlsFollowRouteKeys(aws: AwsConfig, folder: string, route: Route, fileName: string, r: FileReport)
    requires FitsRoute(aws, folder, route, fileName, r)
    ensures |r.urls| <= |RouteKeys(folder, route, fileName)|
    ensures forall i :: 0 <= i < |r.urls| ==> r.urls[i] == ObjectUrl(aws, RouteKeys(folder, route, fileName)[i])
  {
    if route == ToVariants {
      var n := |r.urls|;
      assert forall i :: 0 <= i < n ==> r.urls[i] == VariantUrls(aws, folder, fileName)[i];
    }
  }

  /** How a file that was read and sniffed ends, per route: a single upload
      yields its one URL or a warning; an image yields a prefix of its three
      variant URLs and a warning exactly when that prefix is short. */
  lemma FileOutcomeByRoute(env: Env, folder: string, entityType: string, removed: seq<LocalPath>,
                           file: UploadedFile)
    requires file.path !in removed
    requires env.readFile(file.path).Ok?
    requires env.sniff(env.readFile(file.path).value).Some?
    ensures var t := env.sniff(env.readFile(file.path).value).value;
      FitsRoute(env.aws, folder, RouteOf(t.mime, entityType), NormalizeFileName(file.originalName, t.ext),
                ProcessFile(env, folder, entityType, removed, file))
  {
    var t := env.sniff(env.readFile(file.path).value).value;
    RouteOutcome(env, file, folder, RouteOf(t.mime, entityType), NormalizeFileName(file.originalName, t.ext));
  }

  lemma RouteOutcome(env: Env, file: UploadedFile, folder: string, route: Route, fileName: string)
    ensures FitsRoute(env.aws, folder, route, fileName, RouteReport(env, file, folder, route, fileName))
  {
    match route
    case ToVariants => ImageOutcome(env, file, folder, fileName);
    case ToVideo => OriginalOutcome(env, file, folder + "/Video", fileName);
    case ToFolder => OriginalOutcome(env, file, folder, fileName);
  }

  /** The `finally` block releases the original and the variant paths only
      once they were assigned: when compression fails midway, the variant
      files it had written are left on disk. */
  lemma StrandedOnCompressFailure(env: Env, folder: string, file: UploadedFile, fileName: string)
    ensures var c := CompressImage(env, file.path, fileName);
      var r := ProcessImage(env, file, folder, fileName);
      && (c.result.Ok? ==> r.released == [file.path] + PathList(PathsFor(file.path, fileName)) && r.stranded == [])
      && (c.result.Err? ==> r.released == [file.path] && r.stranded == WrittenPaths(c.written)
                            && r.stranded == PathList(PathsFor(file.path, fileName))[..|c.written|])
  {
  }

  /** The aggregate of a batch. `released` is every path handed to
      `moveFileToTemp`, in order; `stranded` every variant file left behind. */
  datatype BatchResult = BatchResult(
    urls: seq<string>,
    blurHash: Option<string>,
    warnings: seq<string>,
    released: seq<LocalPath>,
    stranded: seq<LocalPath>)

  const Empty := BatchResult([], None, [], [], [])

  /** One more file's report appended to the aggregate; a new hash replaces
      the old one. */
  function Absorb(acc: BatchResult, r: FileReport): BatchResult {
    BatchResult(
      acc.urls + r.urls,
      if r.hash.Some? then r.hash else acc.blurHash,
      acc.warnings + (if r.warning.Some? then [r.warning.value] else []),
      acc.released + r.released,
      acc.stranded + r.stranded)
  }

  /** The loop over the files, as a left fold: each file is read against the
      paths the files before it released. */
  function Fold(env: Env, folder: string, entityType: string, files: seq<UploadedFile>): BatchResult
    decreases |files|
  {
    if |files| == 0 then Empty
    else
      var acc := Fold(env, folder, entityType, files[..|files| - 1]);
      Absorb(acc, ProcessFile(env, folder, entityType, acc.released, files[|files| - 1]))
  }

  /** The report of `file` when it comes right after the files `done`. */
  function Report(env: Env, folder: string, entityType: string, done: seq<UploadedFile>,
                  file: UploadedFile): FileReport {
    ProcessFile(env, folder, entityType, Fold(env, folder, entityType, done).released, file)
  }

  /** The last file of a batch is absorbed after the ones before it. */
  lemma FoldStep(env: Env, folder: string, entityType: string, files: seq<UploadedFile>)
    requires |files| > 0
    ensures Fold(env, folder, entityType, files)
         == Absorb(Fold(env, folder, entityType, files[..|files| - 1]),
                   Report(env, folder, entityType, files[..|files| - 1], files[|files| - 1]))
  {
  }

  /** Two aggregates of consecutive sub-batches combined. */
  function Combine(a: BatchResult, b: BatchResult): BatchResult {
    BatchResult(a.urls + b.urls,
                if b.blurHash.Some? then b.blurHash else a.blurHash,
                a.warnings + b.warnings,
                a.released + b.released,
                a.stranded + b.stranded)
  }

  /** Absorbing one more report commutes with combining. */
  lemma AbsorbCombine(x: BatchResult, y: BatchResult, r: FileReport)
    ensures Absorb(Combine(x, y), r) == Combine(x, Absorb(y, r))
  {
    var w := if r.warning.Some? then [r.warning.value] else [];
    assert x.urls + y.urls + r.urls == x.urls + (y.urls + r.urls);
    assert x.warnings + y.warnings + w == x.warnings + (y.warnings + w);
    assert x.released + y.released + r.released == x.released + (y.released + r.released);
    assert x.stranded + y.stranded + r.stranded == x.stranded + (y.stranded + r.stranded);
  }

  /** A file's report depends on the earlier releases only through whether
      its own path is among them. */
  lemma SameMembershipSameReport(env: Env, folder: string, entityType: string,
                                 removed1: seq<LocalPath>, removed2: seq<LocalPath>, file: UploadedFile)
    requires (file.path in removed1) == (file.path in removed2)
    ensures ProcessFile(env, folder, entityType, removed1, file) == ProcessFile(env, folder, entityType, removed2, file)
  {
    assert ReadUpload(env, removed1, file.path) == ReadUpload(env, removed2, file.path);
  }

  /** Failure isolation: when none of the later files sits at a path the
      earlier ones released, the batch is its two halves processed
      independently and put side by side. */
  lemma {:induction false} FoldSplits(env: Env, folder: string, entityType: string,
                                      a: seq<UploadedFile>, b: seq<UploadedFile>)
    requires forall j :: 0 <= j < |b| ==> b[j].path !in Fold(env, folder, entityType, a).released
    ensures Fold(env, folder, entityType, a + b)
         == Combine(Fold(env, folder, entityType, a), Fold(env, folder, entityType, b))
    decreases |b|
  {
    if |b| == 0 {
      assert a + b == a;
    } else {
      var b', last := b[..|b| - 1], b[|b| - 1];
      assert (a + b)[..|a + b| - 1] == a + b';
      assert (a + b)[|a + b| - 1] == last;
      assert forall j :: 0 <= j < |b'| ==> b'[j] == b[j];
      FoldSplits(env, folder, entityType, a, b');
      var x, y := Fold(env, folder, entityType, a), Fold(env, folder, entityType, b');
      assert last.path !in x.released;
      SameMembershipSameReport(env, folder, entityType, x.released + y.released, y.released, last);
      AbsorbCombine(x, y, ProcessFile(env, folder, entityType, y.released, last));
    }
  }

  /** What a prefix of the batch released stays released: its releases are a
      prefix of the whole batch's. */
  lemma {:induction false} ReleasedGrows(env: Env, folder: string, entityType: string,
                                         files: seq<UploadedFile>, m: nat)
    requires m <= |files|
    ensures Fold(env, folder, entityType, files[..m]).released <= Fold(env, folder, entityType, files).released
    decreases |files|
  {
    if m == |files| {
      assert files[..m] == files;
    } else {
      var init := files[..|files| - 1];
      assert init[..m] == files[..m];
      ReleasedGrows(env, folder, entityType, init, m);
    }
  }

  /** A file's own path is among the releases once it has been processed. */
  lemma ReleasedByOwnStep(env: Env, folder: string, entityType: string, files: seq<UploadedFile>, i: nat)
    requires i < |files|
    ensures files[i].path in Fold(env, folder, entityType, files[..i + 1]).released
  {
    var acc := Fold(env, folder, entityType, files[..i]);
    assert files[..i + 1][..i] == files[..i];
    assert Fold(env, folder, entityType, files[..i + 1])
        == Absorb(acc, ProcessFile(env, folder, entityType, acc.released, files[i]));
    FileAlwaysReleased(env, folder, entityType, acc.released, files[i]);
  }

  /** Two uploads at the same path (the upload middleware stores each file
      under its client name): the later one finds the path already released
      by the earlier one, and fails as a missing file. */
  lemma ReusedPathFailsLater(env: Env, folder: string, entityType: string,
                             files: seq<UploadedFile>, i: nat, j: nat)
    requires i < j < |files| && files[i].path == files[j].path
    ensures Report(env, folder, entityType, files[..j], files[j])
         == FailedReport(files[j], NoSuchFile(files[j].path))
  {
    var pre := files[..j];
    assert pre[i] == files[i];
    ReleasedByOwnStep(env, folder, entityType, pre, i);
    ReleasedGrows(env, folder, entityType, pre, i + 1);
    assert files[j].path in Fold(env, folder, entityType, pre).released;
  }

  /** The number of files whose processing failed. */
  function CountFailed(env: Env, folder: string, entityType: string, files: seq<UploadedFile>): nat
    decreases |files|
  {
    if |files| == 0 then 0
    else
      var init := files[..|files| - 1];
      CountFailed(env, folder, entityType, init)
        + (if Report(env, folder, entityType, init, files[|files| - 1]).warning.Some? then 1 else 0)
  }

  /** Exactly one warning per failed file, in file order. */
  lemma {:induction false} OneWarningPerFailure(env: Env, folder: string, entityType: string, files: seq<UploadedFile>)
    ensures |Fold(env, folder, entityType, files).warnings| == CountFailed(env, folder, entityType, files)
    decreases |files|
  {
    if |files| > 0 {
      OneWarningPerFailure(env, folder, entityType, files[..|files| - 1]);
    }
  }

  /** The reports of the files in order, each read against the releases of
      the files before it. */
  function Reports(env: Env, folder: string, entityType: string, files: seq<UploadedFile>): (rs: seq<FileReport>)
    ensures |rs| == |files|
    decreases |files|
  {
    if |files| == 0 then []
    else
      var init := files[..|files| - 1];
      Reports(env, folder, entityType, init) + [Report(env, folder, entityType, init, files[|files| - 1])]
  }

  /** The report at each place is that file's report after the files before
      it. */
  lemma {:induction false} ReportsAt(env: Env, folder: string, entityType: string,
                                     files: seq<UploadedFile>, j: nat)
    requires j < |files|
    ensures Reports(env, folder, entityType, files)[j] == Report(env, folder, entityType, files[..j], files[j])
    decreases |files|
  {
    var init := files[..|files| - 1];
    if j < |init| {
      ReportsAt(env, folder, entityType, init, j);
      assert init[..j] == files[..j];
    }
  }

  /** Any sequence of reports absorbed one after the other into the empty
      aggregate. */
  function AbsorbAll(rs: seq<FileReport>): BatchResult
    decreases |rs|
  {
    if |rs| == 0 then Empty else Absorb(AbsorbAll(rs[..|rs| - 1]), rs[|rs| - 1])
  }

  /** The batch is its reports absorbed in file order. */
  lemma {:induction false} FoldIsAbsorbAll(env: Env, folder: string, entityType: string, files: seq<UploadedFile>)
    ensures Fold(env, folder, entityType, files) == AbsorbAll(Reports(env, folder, entityType, files))
    decreases |files|
  {
    if |files| > 0 {
      var init := files[..|files| - 1];
      var rs := Reports(env, folder, entityType, files);
      FoldIsAbsorbAll(env, folder, entityType, init);
      assert rs[..|rs| - 1] == Reports(env, folder, entityType, init);
    }
  }

  /** Absorbing reports keeps the hash of the last report that has one. */
  lemma {:induction false} AbsorbAllLastHash(rs: seq<FileReport>, k: int)
    requires -1 <= k < |rs|
    requires k >= 0 ==> rs[k].hash.Some?
    requires forall j :: k < j < |rs| ==> rs[j].hash.None?
    ensures AbsorbAll(rs).blurHash == (if k >= 0 then rs[k].hash else None)
    decreases |rs|
  {
    if |rs| > 0 && k < |rs| - 1 {
      var init := rs[..|rs| - 1];
      assert forall j :: 0 <= j < |init| ==> init[j] == rs[j];
      AbsorbAllLastHash(init, k);
    }
  }

  /** Last hash wins: the batch's `blurHash` is the hash of the last file that
      produced one, and absent when none did. */
  lemma LastHashWins(env: Env, folder: string, entityType: string, files: seq<UploadedFile>, k: int)
    requires -1 <= k < |files|
    requires k >= 0 ==> Reports(env, folder, entityType, files)[k].hash.Some?
    requires forall j :: k < j < |files| ==> Reports(env, folder, entityType, files)[j].hash.None?
    ensures Fold(env, folder, entityType, files).blurHash
         == (if k >= 0 then Reports(env, folder, entityType, files)[k].hash else None)
  {
    FoldIsAbsorbAll(env, folder, entityType, files);
    AbsorbAllLastHash(Reports(env, folder, entityType, files), k);
  }

  /** Everything `processAndUploadFiles` does: the Windows sweep of the temp
      directory, then either the 400 for an unknown entity type or the
      batch. */
  datatype Run = Run(swept: seq<string>, result: Result<BatchResult, Error>)

  /** The temp-directory state the sweep sees: the platform, the listing (None
      when `readdir` fails) and the clock reading. The batch always sweeps
      with the default maximum age. */
  datatype SweepInput = SweepInput(platform: Platform, listing: Option<seq<TempEntry>>, now: int)

  /** What `processAndUploadFiles` produces, as a reference for the method
      below. */
  function Process(env: Env, sweep: SweepInput, entityType: string, files: seq<UploadedFile>): Run {
    Run(Sweep(sweep.platform, sweep.listing, sweep.now, DefaultMaxAge),
        match GetFolderPath(entityType)
        case Err(e) => Err(e)
        case Ok(folder) => Ok(Fold(env, folder, entityType, files)))
  }

  /** `processAndUploadFiles`, with its loop over the files. */
  method ProcessAndUploadFiles(env: Env, sweep: SweepInput, entityType: string, files: seq<UploadedFile>)
    returns (run: Run)
    ensures run.swept == Sweep(sweep.platform, sweep.listing, sweep.now, DefaultMaxAge)
    ensures GetFolderPath(entityType).Err? ==> run.result == Err(GetFolderPath(entityType).error)
    ensures GetFolderPath(entityType).Ok? ==>
              run.result == Ok(Fold(env, GetFolderPath(entityType).value, entityType, files))
    ensures run == Process(env, sweep, entityType, files)
  {
    var swept := CleanupTempFiles(sweep.platform, sweep.listing, sweep.now, DefaultMaxAge);
    var folderPath := GetFolderPath(entityType);
    if folderPath.Err? {
      return Run(swept, Err(folderPath.error));
    }
    var folder := folderPath.value;
    var acc := Empty;
    var i := 0;
    while i < |files|
      invariant 0 <= i <= |files|
      invariant acc == Fold(env, folder, entityType, files[..i])
    {
      assert files[..i + 1][..i] == files[..i];
      acc := Absorb(acc, ProcessFile(env, folder, entityType, acc.released, files[i]));
      i := i + 1;
    }
    assert files[..|files|] == files;
    return Run(swept, Ok(acc));
  }
}
