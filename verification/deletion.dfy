/** `deleteFiles`: the deletes a previous image or video name turns into, and
    how their failures surface. */
module Deletion {
  import opened Outcomes
  import opened Text
  import opened NodePath
  import opened S3
  import opened Entities
  import opened Naming
  import opened Batch

  /** The extensions (lower-cased, with the dot) whose names are deleted as
      images, and as videos. */
  const ImageExtensions: seq<string> := [".jpg", ".jpeg", ".png", ".webp", ".tiff", ".avif", ".bmp"]
  const VideoExtensions: seq<string> := [".mp4", ".mkv", ".mov", ".avi"]

  /** The extension the whitelists are checked against. */
  function ExtensionOf(name: string): string {
    Lower(ExtName(name))
  }

  /** One delete: the key, and the words the error it rethrows uses for what
      it was deleting. */
  datatype DeleteCall = DeleteCall(key: string, what: string, name: string)

  /** The deletes of one request, images first. */
  datatype DeletePlan = DeletePlan(images: seq<DeleteCall>, videos: seq<DeleteCall>)

  /** A previous image name: nothing unless present, non-empty and
      whitelisted; three keys under `H`, `M` and `L` for the variant entity
      types; one key in the folder otherwise. The name is used as given, and
      each key is spelled exactly as the upload's `ObjectKey` spells it. */
  function ImageDeletes(folder: string, entityType: string, imagePrev: Option<string>): (r: seq<DeleteCall>)
    ensures r != [] ==> Truthy(imagePrev) && ExtensionOf(imagePrev.value) in ImageExtensions
    ensures forall i :: 0 <= i < |r| ==> imagePrev == Some(r[i].name)
  {
    if !Truthy(imagePrev) || ExtensionOf(imagePrev.value) !in ImageExtensions then []
    else
      var name := imagePrev.value;
      if entityType in VariantEntities then VariantCalls(folder, name)
      else
        [DeleteCall(ObjectKey(folder, name), "image", name)]
  }

  /** The three deletes of a variant entity's image, started together. */
  function VariantCalls(folder: string, name: string): (r: seq<DeleteCall>)
    ensures |r| == 3 && forall i :: 0 <= i < |r| ==> r[i].name == name
  {
    [DeleteCall(ObjectKey(folder + "/H", name), "high-res image", name),
     DeleteCall(ObjectKey(folder + "/M", name), "medium-res image", name),
     DeleteCall(ObjectKey(folder + "/L", name), "low-res image", name)]
  }

  /** A previous video name: one key under `Video` when present, non-empty
      and whitelisted. */
  function VideoDeletes(folder: string, videoPrev: Option<string>): seq<DeleteCall> {
    if !Truthy(videoPrev) || ExtensionOf(videoPrev.value) !in VideoExtensions then []
    else [DeleteCall(ObjectKey(folder + "/Video", videoPrev.value), "video file", videoPrev.value)]
  }

  /** The folder is resolved first, outside the `try`, so an unknown entity
      type fails before any delete. */
  function PlanDeletion(imagePrev: Option<string>, videoPrev: Option<string>, entityType: string): (r: Result<DeletePlan, Error>)
    ensures r.Err? <==> GetFolderPath(entityType).Err?
    ensures r.Err? ==> r.error == RouteError(StatusBadRequest, "Invalid entity type")
  {
    match GetFolderPath(entityType)
    case Err(e) => Err(e)
    case Ok(folder) => Ok(DeletePlan(ImageDeletes(folder, entityType, imagePrev), VideoDeletes(folder, videoPrev)))
  }

  function Keys(calls: seq<DeleteCall>): (r: seq<string>)
    ensures |r| == |calls| && forall i :: 0 <= i < |calls| ==> r[i] == calls[i].key
  {
    seq(|calls|, i requires 0 <= i < |calls| => calls[i].key)
  }

  /** The error one failed delete is rethrown as. */
  function CallError(c: DeleteCall, e: Error): Error {
    RouteError(StatusServerError, "Error deleting " + c.what + " " + c.name + ": " + e.message)
  }

  /** A group of deletes started together: every one of them is issued, and
      the group fails with the error of the first one (in listing order) that
      fails. */
  function GroupFailure(del: DeleteObject, calls: seq<DeleteCall>): (r: Option<Error>)
    ensures r.Some? ==> r.value.RouteError? && r.value.status == StatusServerError
    decreases |calls|
  {
    if |calls| == 0 then None
    else
      match DeleteFromS3(del, calls[0].key)
      case Fail(e) => Some(CallError(calls[0], e))
      case Pass => GroupFailure(del, calls[1..])
  }

  /** A group fails exactly when one of its keys fails. */
  lemma {:induction false} GroupFailsIffSomeKeyFails(del: DeleteObject, calls: seq<DeleteCall>)
    ensures GroupFailure(del, calls).None? <==> forall i :: 0 <= i < |calls| ==> del(calls[i].key).Pass?
    decreases |calls|
  {
    if |calls| > 0 {
      var rest := calls[1..];
      assert forall i :: 0 <= i < |rest| ==> rest[i] == calls[i + 1];
      GroupFailsIffSomeKeyFails(del, rest);
    }
  }

  /** When a group fails, its error is that of its first failing key. */
  lemma {:induction false} GroupFailureIsFirst(del: DeleteObject, calls: seq<DeleteCall>, i: int)
    requires 0 <= i < |calls| && del(calls[i].key).Fail?
    requires forall j :: 0 <= j < i ==> del(calls[j].key).Pass?
    ensures GroupFailure(del, calls)
         == Some(CallError(calls[i], PlainError("Failed to delete " + calls[i].key + " from S3")))
    decreases i
  {
    if i > 0 {
      var rest := calls[1..];
      assert forall j :: 0 <= j < i - 1 ==> rest[j] == calls[j + 1];
      assert rest[i - 1] == calls[i];
      GroupFailureIsFirst(del, rest, i - 1);
    }
  }

  /** The keys `deleteFiles` asked the store to remove, and its outcome. */
  datatype DeleteRun = DeleteRun(attempted: seq<string>, outcome: Outcome<Error>)

  /** The image deletes, then, only if none of them failed, the video
      delete. */
  function RunPlan(del: DeleteObject, plan: DeletePlan): (r: DeleteRun)
    ensures r.outcome.Fail? ==> r.outcome.error.RouteError? && r.outcome.error.status == StatusServerError
  {
    match GroupFailure(del, plan.images)
    case Some(e) => DeleteRun(Keys(plan.images), Fail(e))
    case None =>
      var attempted := Keys(plan.images) + Keys(plan.videos);
      match GroupFailure(del, plan.videos)
      case Some(e) => DeleteRun(attempted, Fail(e))
      case None => DeleteRun(attempted, Pass)
  }

  /** `deleteFiles`. */
  function DeleteFiles(del: DeleteObject, imagePrev: Option<string>, videoPrev: Option<string>, entityType: string): (r: DeleteRun)
    ensures GetFolderPath(entityType).Err? ==> r == DeleteRun([], Fail(RouteError(StatusBadRequest, "Invalid entity type")))
    ensures GetFolderPath(entityType).Ok? ==> r == RunPlan(del, PlanDeletion(imagePrev, videoPrev, entityType).value)
  {
    match PlanDeletion(imagePrev, videoPrev, entityType)
    case Err(e) => DeleteRun([], Fail(e))
    case Ok(plan) => RunPlan(del, plan)
  }

  /** Every failure of `deleteFiles` is a `RouteError`: a 400 for an unknown
      entity type, a 500 for a failed delete. */
  lemma DeleteErrorsAreRouteErrors(del: DeleteObject, imagePrev: Option<string>, videoPrev: Option<string>,
                                   entityType: string)
    ensures var r := DeleteFiles(del, imagePrev, videoPrev, entityType);
      r.outcome.Fail? ==> r.outcome.error.RouteError?
                          && r.outcome.error.status == (if GetFolderPath(entityType).Ok? then StatusServerError
                                                        else StatusBadRequest)
  {
  }

  /** A plan succeeds exactly when every delete it attempted succeeded. */
  lemma PlanSucceedsIffAllKeysDo(del: DeleteObject, plan: DeletePlan)
    ensures var r := RunPlan(del, plan);
      r.outcome.Pass? <==> forall i :: 0 <= i < |r.attempted| ==> del(r.attempted[i]).Pass?
  {
    var ki, kv := Keys(plan.images), Keys(plan.videos);
    GroupFailsIffSomeKeyFails(del, plan.images);
    GroupFailsIffSomeKeyFails(del, plan.videos);
    if GroupFailure(del, plan.images).None? {
      assert forall i :: 0 <= i < |ki| ==> (ki + kv)[i] == plan.images[i].key;
      assert forall i :: 0 <= i < |kv| ==> (ki + kv)[|ki| + i] == plan.videos[i].key;
    }
  }

  /** The video is attempted exactly when every image delete succeeded. */
  lemma VideoOnlyAfterImages(del: DeleteObject, plan: DeletePlan)
    requires plan.videos != []
    ensures var r := RunPlan(del, plan);
      (r.attempted == Keys(plan.images) + Keys(plan.videos))
        <==> (forall i :: 0 <= i < |plan.images| ==> del(plan.images[i].key).Pass?)
  {
    GroupFailsIffSomeKeyFails(del, plan.images);
    var ki, kv := Keys(plan.images), Keys(plan.videos);
    assert |ki + kv| > |ki|;
  }

  /** An image name is deleted as three variants for the variant entity types
      and as one object otherwise, provided it is present and whitelisted;
      never otherwise. */
  lemma ImageDeleteCount(folder: string, entityType: string, imagePrev: Option<string>)
    ensures |ImageDeletes(folder, entityType, imagePrev)|
         == (if !Truthy(imagePrev) || ExtensionOf(imagePrev.value) !in ImageExtensions then 0
             else if entityType in VariantEntities then 3 else 1)
  {
  }

  /** Names outside both whitelists, and absent or empty names, delete
      nothing and succeed. */
  lemma UnlistedDeletesNothing(del: DeleteObject, imagePrev: Option<string>, videoPrev: Option<string>,
                               entityType: string)
    requires GetFolderPath(entityType).Ok?
    requires !Truthy(imagePrev) || ExtensionOf(imagePrev.value) !in ImageExtensions
    requires !Truthy(videoPrev) || ExtensionOf(videoPrev.value) !in VideoExtensions
    ensures DeleteFiles(del, imagePrev, videoPrev, entityType) == DeleteRun([], Pass)
  {
  }

  /** A name whose extension is already lower-case is checked against the
      whitelists with that extension, and is not empty. */
  lemma ExtensionOfLowerCase(name: string, ext: string)
    requires ExtName(name) == "." + ext && IsLowerCase(ext)
    ensures ExtensionOf(name) == "." + ext
    ensures name != ""
  {
    assert IsLowerCase("." + ext);
    LowerOfLowerCase("." + ext);
    assert ExtName("") == "";
  }

  /** A plain lower-case extension survives normalisation as the name's
      extension. */
  lemma ExtensionOfNormalized(originalName: string, ext: string)
    requires BaseName(originalName) != ""
    requires ext != "" && '.' !in ext && '/' !in ext && IsLowerCase(ext)
    ensures ExtensionOf(NormalizeFileName(originalName, ext)) == "." + ext
    ensures NormalizeFileName(originalName, ext) != ""
  {
    NormalizedExtension(originalName, ext);
    LowerOfLowerCase(ext);
    ExtensionOfLowerCase(NormalizeFileName(originalName, ext), ext);
  }

  /** A whitelisted image name of a variant entity deletes the three keys
      its variants are uploaded to. */
  lemma VariantKeysOfName(name: string, entityType: string, folder: string)
    requires name != "" && ExtensionOf(name) in ImageExtensions
    requires entityType in VariantEntities
    ensures Keys(ImageDeletes(folder, entityType, Some(name)))
         == [ObjectKey(folder + "/H", name), ObjectKey(folder + "/M", name), ObjectKey(folder + "/L", name)]
  {
    assert ImageDeletes(folder, entityType, Some(name)) == VariantCalls(folder, name);
    VariantCallKeys(folder, name);
  }

  lemma VariantCallKeys(folder: string, name: string)
    ensures Keys(VariantCalls(folder, name))
         == [ObjectKey(folder + "/H", name), ObjectKey(folder + "/M", name), ObjectKey(folder + "/L", name)]
  {
  }

  /** A whitelisted image name of any other entity deletes the one key it is
      uploaded to. */
  lemma SingleKeyOfName(name: string, entityType: string, folder: string)
    requires name != "" && ExtensionOf(name) in ImageExtensions
    requires entityType !in VariantEntities
    ensures Keys(ImageDeletes(folder, entityType, Some(name))) == [ObjectKey(folder, name)]
  {
    assert ImageDeletes(folder, entityType, Some(name)) == [DeleteCall(ObjectKey(folder, name), "image", name)];
  }

  /** Upload and delete agree for the accepted image types: the name an
      image of MIME type `mime` was stored under, given back as the previous
      name, deletes exactly the keys its upload route stored it at. */
  lemma ImageRoundTrip(originalName: string, mime: string, ext: string, entityType: string, folder: string)
    requires BaseName(originalName) != ""
    requires ext != "" && '.' !in ext && '/' !in ext && IsLowerCase(ext)
    requires IsImageType(mime) && "." + ext in ImageExtensions
    ensures var name := NormalizeFileName(originalName, ext);
      Keys(ImageDeletes(folder, entityType, Some(name))) == RouteKeys(folder, RouteOf(mime, entityType), name)
  {
    var name := NormalizeFileName(originalName, ext);
    ExtensionOfNormalized(originalName, ext);
    RouteGate(mime, entityType);
    if entityType in VariantEntities {
      VariantKeysOfName(name, entityType, folder);
    } else {
      SingleKeyOfName(name, entityType, folder);
    }
  }

  /** A whitelisted video name deletes the key it would be uploaded to. */
  lemma VideoKeysOfName(name: string, folder: string)
    requires name != "" && ExtensionOf(name) in VideoExtensions
    ensures Keys(VideoDeletes(folder, Some(name))) == [ObjectKey(folder + "/Video", name)]
  {
    assert VideoDeletes(folder, Some(name)) == [DeleteCall(ObjectKey(folder + "/Video", name), "video file", name)];
  }

  /** The same for a video: its stored name deletes the key it was uploaded
      to in the `Video` folder. */
  lemma VideoRoundTrip(originalName: string, ext: string, folder: string)
    requires BaseName(originalName) != ""
    requires ext != "" && '.' !in ext && '/' !in ext && IsLowerCase(ext)
    requires "." + ext in VideoExtensions
    ensures var name := NormalizeFileName(originalName, ext);
      Keys(VideoDeletes(folder, Some(name))) == [ObjectKey(folder + "/Video", name)]
  {
    ExtensionOfNormalized(originalName, ext);
    VideoKeysOfName(NormalizeFileName(originalName, ext), folder);
  }

  /** `.tif` is not on the image whitelist. */
  lemma TifNotListed(name: string, entityType: string, folder: string)
    requires ExtensionOf(name) == ".tif"
    ensures ImageDeletes(folder, entityType, Some(name)) == []
  {
    TifIsUnlisted(ExtensionOf(name));
  }

  /** The image whitelist holds `.tiff` but not `.tif`. */
  lemma TifIsUnlisted(ext: string)
    requires ext == ".tif"
    ensures ext !in ImageExtensions
  {
    assert |ext| == 4 && ext[2] == 'i';
  }

  /** `tif` is a plain lower-case extension. */
  lemma TifIsPlain()
    ensures "tif" != "" && '.' !in "tif" && '/' !in "tif" && IsLowerCase("tif")
    ensures "." + "tif" == ".tif"
  {
  }

  /** The whitelist spells TIFF as `.tiff`, but the stored name of a TIFF
      upload ends in the sniffed `.tif`, so such an image is never deleted. */
  lemma TifIsNeverDeleted(originalName: string, entityType: string, folder: string)
    requires BaseName(originalName) != ""
    ensures ImageDeletes(folder, entityType, Some(NormalizeFileName(originalName, "tif"))) == []
  {
    TifIsPlain();
    ExtensionOfNormalized(originalName, "tif");
    TifNotListed(NormalizeFileName(originalName, "tif"), entityType, folder);
  }

  /** Each key recovered from an uploaded variant URL is the key the delete
      of that name targets in the same position. */
  lemma VariantUrlKeys(cfg: AwsConfig, folder: string, name: string)
    ensures var urls := VariantUrls(cfg, folder, name);
      var keys := Keys(VariantCalls(folder, name));
      |keys| == 3 && forall i :: 0 <= i < 3 ==> KeyOfUrl(cfg, urls[i]) == Some(keys[i])
  {
    VariantCallKeys(folder, name);
    KeyOfObjectUrl(cfg, ObjectKey(folder + "/H", name));
    KeyOfObjectUrl(cfg, ObjectKey(folder + "/M", name));
    KeyOfObjectUrl(cfg, ObjectKey(folder + "/L", name));
  }

  /** A whitelisted name of a variant entity is deleted through the three
      variant deletes. */
  lemma VariantDeletesOfName(name: string, entityType: string, folder: string)
    requires name != "" && ExtensionOf(name) in ImageExtensions
    requires entityType in VariantEntities
    ensures ImageDeletes(folder, entityType, Some(name)) == VariantCalls(folder, name)
  {
  }

  /** The whole round trip for a file that took the variant route: the URLs
      the batch returns for it lead back to exactly the keys a later delete of
      its stored name removes, in the same order. */
  lemma UploadedUrlsAreDeletedKeys(cfg: AwsConfig, originalName: string, mime: string, ext: string,
                                   entityType: string, folder: string)
    requires BaseName(originalName) != ""
    requires ext != "" && '.' !in ext && '/' !in ext && IsLowerCase(ext)
    requires "." + ext in ImageExtensions
    requires RouteOf(mime, entityType) == ToVariants
    ensures var name := NormalizeFileName(originalName, ext);
      var urls := VariantUrls(cfg, folder, name);
      var keys := Keys(ImageDeletes(folder, entityType, Some(name)));
      |keys| == 3 && forall i :: 0 <= i < 3 ==> KeyOfUrl(cfg, urls[i]) == Some(keys[i])
  {
    var name := NormalizeFileName(originalName, ext);
    RouteGate(mime, entityType);
    ExtensionOfNormalized(originalName, ext);
    VariantDeletesOfName(name, entityType, folder);
    VariantUrlKeys(cfg, folder, name);
  }

  /** `.bmp` is on the image whitelist. */
  lemma BmpIsListed(ext: string)
    requires ext == ".bmp"
    ensures ext in ImageExtensions
  {
    assert ImageExtensions[6] == ext;
  }

  /** `bmp` is a plain lower-case extension, and `image/bmp` is not an
      accepted image type. */
  lemma BmpIsPlain()
    ensures "bmp" != "" && '.' !in "bmp" && '/' !in "bmp" && IsLowerCase("bmp")
    ensures "." + "bmp" == ".bmp"
    ensures !IsImageType("image/bmp") && !StartsWith("image/bmp", "video/")
  {
    assert "image/bmp"[6] == 'b' && "image/png"[6] == 'p';
    assert "image/bmp"[..6] != "video/" by { assert "image/bmp"[0] != "video/"[0]; }
  }

  /** The single folder key of a name is none of the three keys the delete
      of a variant entity removes. */
  lemma FolderKeyNotDeletedAsVariant(name: string, entityType: string, folder: string)
    requires name != "" && ExtensionOf(name) in ImageExtensions
    requires entityType in VariantEntities
    ensures var deleted := Keys(ImageDeletes(folder, entityType, Some(name)));
      |deleted| == 3 && ObjectKey(folder, name) !in deleted
  {
    VariantKeysOfName(name, entityType, folder);
    var k := ObjectKey(folder, name);
    assert |k| < |ObjectKey(folder + "/H", name)|;
    assert |k| < |ObjectKey(folder + "/M", name)|;
    assert |k| < |ObjectKey(folder + "/L", name)|;
  }

  /** A BMP never takes the variant route. */
  lemma BmpRoute(entityType: string)
    ensures RouteOf("image/bmp", entityType) == ToFolder
  {
    BmpIsPlain();
  }

  /** The delete whitelist admits `.bmp`, but `image/bmp` is not one of the
      image types that get variants: a BMP for a category, product or banner
      is stored once in the folder, while its later delete removes only the
      three variant keys, so the stored object is never deleted. */
  lemma BmpVariantUploadIsNeverDeleted(originalName: string, entityType: string, folder: string)
    requires BaseName(originalName) != ""
    requires entityType in VariantEntities
    ensures RouteOf("image/bmp", entityType) == ToFolder
    ensures var name := NormalizeFileName(originalName, "bmp");
      var deleted := Keys(ImageDeletes(folder, entityType, Some(name)));
      |deleted| == 3 && RouteKeys(folder, ToFolder, name) == [ObjectKey(folder, name)]
      && ObjectKey(folder, name) !in deleted
  {
    BmpIsPlain();
    BmpRoute(entityType);
    var name := NormalizeFileName(originalName, "bmp");
    ExtensionOfNormalized(originalName, "bmp");
    BmpIsListed(ExtensionOf(name));
    FolderKeyNotDeletedAsVariant(name, entityType, folder);
  }
}
