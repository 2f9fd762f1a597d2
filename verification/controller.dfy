/** `UploadController`: the upload and delete handlers, and the PATCH that
    tells the main server where an entity's new files are. */
module Controller {
  import opened Outcomes
  import opened Text
  import opened Entities
  import opened Oracles
  import opened S3
  import opened Deletion
  import opened Reaper
  import opened Batch

  /** The entity types the main server can be told about. */
  const PatchTypes: set<string> := {"restaurant", "branch", "menu", "category", "product", "banner"}

  /** The field of each patchable entity type that holds its files. */
  const PatchFields: set<(string, string)> := {
    ("restaurant", "logo"), ("branch", "image"), ("menu", "image"),
    ("category", "images"), ("product", "images"), ("banner", "images")
  }

  /** `getPatchUrl`: the main server's URL, the entity type, the id and the
      field to set; a 400 for every other entity type. */
  function PatchUrl(mainServer: string, entityType: string, entityId: string): (r: Result<string, Error>)
    ensures r.Ok? <==> entityType in PatchTypes
    ensures r.Ok? ==> StartsWith(r.value, mainServer + "/" + entityType + "/" + entityId + "/")
    ensures forall f :: (entityType, f) in PatchFields
                        <==> r == Ok(mainServer + "/" + entityType + "/" + entityId + "/" + f)
    ensures r.Err? ==> r.error == RouteError(StatusBadRequest, "Invalid entity type for PATCH URL")
  {
    var suffix :=
      if entityType == "restaurant" then Some("logo")
      else if entityType == "branch" || entityType == "menu" then Some("image")
      else if entityType == "category" || entityType == "product" || entityType == "banner" then Some("images")
      else None;
    match suffix
    case None => Err(RouteError(StatusBadRequest, "Invalid entity type for PATCH URL"))
    case Some(field) =>
      var prefix := mainServer + "/" + entityType + "/" + entityId + "/";
      assert (prefix + field)[..|prefix|] == prefix;
      Ok(prefix + field)
  }

  /** Every entity type the service stores files for can be patched, except
      `branding` and `addon`. */
  lemma PatchableTypes(e: EntityType)
    ensures Name(e) in PatchTypes <==> e != Branding && e != Addon
  {
  }

  /** The PATCH body: the three image URLs, the video and the hash for a
      product; the three image URLs and the hash for a banner or category; a
      single `image` for a branch or menu; a `logo` for a restaurant. */
  datatype Payload =
    | Images(imageHigh: string, imageMedium: string, imageLow: string, video: Option<string>, blurHash: string)
    | Image(image: string)
    | Logo(logo: string)

  /** `urls[i] || ""`. */
  function UrlAt(urls: seq<string>, i: nat): string {
    if i < |urls| then urls[i] else ""
  }

  /** `blurHash || ""`. */
  function HashOrEmpty(h: Option<string>): string {
    if h.Some? then h.value else ""
  }

  /** The payload `switch`, positional in the batch's URL list. */
  function BuildPayload(entityType: string, urls: seq<string>, hash: Option<string>): (r: Result<Payload, Error>)
    ensures r.Ok? <==> entityType in PatchTypes
    ensures r.Err? ==> r.error == RouteError(StatusBadRequest, "Invalid entity type for PATCH URL")
    ensures r.Ok? ==> (r.value.Images? <==> entityType in VariantEntities)
    ensures r.Ok? && r.value.Images? ==> (r.value.video.Some? <==> entityType == "product")
    ensures r.Ok? && r.value.Images? ==> r.value.blurHash == HashOrEmpty(hash)
    ensures r.Ok? && r.value.Images? ==>
              && r.value.imageHigh == UrlAt(urls, 0)
              && r.value.imageMedium == UrlAt(urls, 1)
              && r.value.imageLow == UrlAt(urls, 2)
    ensures r.Ok? && r.value.Images? && entityType == "product" ==> r.value.video == Some(UrlAt(urls, 3))
    ensures r.Ok? && r.value.Image? ==> r.value.image == UrlAt(urls, 0)
    ensures r.Ok? && r.value.Logo? ==> r.value.logo == UrlAt(urls, 0)
  {
    if entityType == "product" then
      Ok(Images(UrlAt(urls, 0), UrlAt(urls, 1), UrlAt(urls, 2), Some(UrlAt(urls, 3)), HashOrEmpty(hash)))
    else if entityType == "banner" || entityType == "category" then
      Ok(Images(UrlAt(urls, 0), UrlAt(urls, 1), UrlAt(urls, 2), None, HashOrEmpty(hash)))
    else if entityType == "branch" || entityType == "menu" then
      Ok(Image(UrlAt(urls, 0)))
    else if entityType == "restaurant" then
      Ok(Logo(UrlAt(urls, 0)))
    else
      Err(RouteError(StatusBadRequest, "Invalid entity type for PATCH URL"))
  }

  /** The URL and the payload switch accept exactly the same entity types,
      so the payload's own 400 is never reached once the URL is built. */
  lemma PayloadAgreesWithUrl(mainServer: string, entityType: string, entityId: string,
                             urls: seq<string>, hash: Option<string>)
    ensures BuildPayload(entityType, urls, hash).Ok? <==> PatchUrl(mainServer, entityType, entityId).Ok?
  {
  }

  datatype PatchRequest = PatchRequest(url: string, payload: Payload)

  /** `axios.patch` against the main server; it may fail. */
  type Patch = PatchRequest -> Outcome<Error>

  /** The request `updateEntityOnMainServer` would send. */
  function PatchRequestFor(mainServer: string, entityType: string, entityId: string,
                           urls: seq<string>, hash: Option<string>): Result<PatchRequest, Error> {
    match PatchUrl(mainServer, entityType, entityId)
    case Err(e) => Err(e)
    case Ok(url) =>
      match BuildPayload(entityType, urls, hash)
      case Err(e) => Err(e)
      case Ok(payload) => Ok(PatchRequest(url, payload))
  }

  /** The single error `updateEntityOnMainServer` throws, whatever went
      wrong. */
  function UpdateFailure(entityType: string): Error {
    RouteError(StatusServerError, "Failed to update " + entityType)
  }

  /** `updateEntityOnMainServer`: succeeds exactly when a request can be
      built and the main server accepts it; every failure, including an
      entity type it has no URL for, becomes the same 500. */
  function UpdateEntity(patch: Patch, mainServer: string, entityType: string, entityId: string,
                        urls: seq<string>, hash: Option<string>): (r: Outcome<Error>)
    ensures r.Pass? <==> entityType in PatchTypes
                         && patch(PatchRequestFor(mainServer, entityType, entityId, urls, hash).value).Pass?
    ensures r.Fail? ==> r.error == UpdateFailure(entityType)
  {
    PayloadAgreesWithUrl(mainServer, entityType, entityId, urls, hash);
    match PatchRequestFor(mainServer, entityType, entityId, urls, hash)
    case Err(_) => Fail(UpdateFailure(entityType))
    case Ok(req) =>
      match patch(req)
      case Fail(_) => Fail(UpdateFailure(entityType))
      case Pass => Pass
  }

  /** What a handler answers. `Forwarded` is `next(error)`, the hand-over to
      the generic error middleware for an error that is not a `RouteError`. */
  datatype Response =
    | Uploaded(urls: seq<string>, blurHash: Option<string>, warnings: seq<string>)
    | Deleted(message: string)
    | Failed(status: int, message: string)
    | Forwarded(message: string)

  /** The `catch` of both handlers. */
  function Answer(e: Error): Response {
    match e
    case RouteError(status, message) => Failed(status, message)
    case PlainError(message) => Forwarded(message)
  }

  /** The multipart request of the upload route: the decoded files (None when
      the decoder produced none) and the form fields. */
  datatype UploadRequest = UploadRequest(
    files: Option<seq<UploadedFile>>,
    entityType: Option<string>,
    entityId: Option<string>,
    imagePrevName: Option<string>,
    videoPrevName: Option<string>)

  /** The collaborators of a request: the oracles of the batch, the store's
      delete, the main server's PATCH and URL, and the temp directory as the
      sweep sees it. */
  datatype Context = Context(env: Env, del: DeleteObject, patch: Patch, mainServer: string, sweep: SweepInput)

  /** Everything one upload request does: the keys it deleted, the batch it
      ran, the PATCH it sent, and its answer. */
  datatype UploadTrace = UploadTrace(
    deleted: seq<string>,
    batch: Option<Run>,
    patched: Option<PatchRequest>,
    response: Response)

  const MissingUploadFields := "Files, entity type, or entity ID missing"

  /** An upload request carries files and non-empty `entityType` and
      `entityId`; an empty file list passes. */
  predicate HasUploadFields(req: UploadRequest) {
    req.files.Some? && Truthy(req.entityType) && Truthy(req.entityId)
  }

  /** The batch and the PATCH that follows it, once the old files are gone. */
  function UploadAfterDelete(ctx: Context, req: UploadRequest, deleted: seq<string>): (t: UploadTrace)
    requires HasUploadFields(req)
    ensures t.batch.Some? && t.deleted == deleted
    ensures t.response.Failed? || t.response.Uploaded?
    ensures t.response.Failed? ==> t.response.status == StatusBadRequest || t.response.status == StatusServerError
    ensures t.response.Uploaded? <==> t.patched.Some? && ctx.patch(t.patched.value).Pass?
  {
    var entityType := req.entityType.value;
    var run := Process(ctx.env, ctx.sweep, entityType, req.files.value);
    match run.result
    case Err(e) => UploadTrace(deleted, Some(run), None, Answer(e))
    case Ok(b) =>
      var sent := PatchRequestFor(ctx.mainServer, entityType, req.entityId.value, b.urls, b.blurHash);
      match UpdateEntity(ctx.patch, ctx.mainServer, entityType, req.entityId.value, b.urls, b.blurHash)
      case Fail(e) => UploadTrace(deleted, Some(run), if sent.Ok? then Some(sent.value) else None, Answer(e))
      case Pass => UploadTrace(deleted, Some(run), Some(sent.value), Uploaded(b.urls, b.blurHash, b.warnings))
  }

  /** `uploadFiles`: validate, delete the previous files when a previous name
      is given, run the batch, PATCH the main server, answer. */
  function UploadFiles(ctx: Context, req: UploadRequest): (t: UploadTrace)
    ensures !t.response.Forwarded?
    ensures t.response.Failed? ==> t.response.status == StatusBadRequest || t.response.status == StatusServerError
    ensures t.patched.Some? ==> t.batch.Some?
    ensures t.response.Uploaded? ==> t.patched.Some? && ctx.patch(t.patched.value).Pass?
  {
    if !HasUploadFields(req) then
      UploadTrace([], None, None, Failed(StatusBadRequest, MissingUploadFields))
    else if Truthy(req.imagePrevName) || Truthy(req.videoPrevName) then
      var d := DeleteFiles(ctx.del, req.imagePrevName, req.videoPrevName, req.entityType.value);
      match d.outcome
      case Fail(e) =>
        DeleteErrorsAreRouteErrors(ctx.del, req.imagePrevName, req.videoPrevName, req.entityType.value);
        UploadTrace(d.attempted, None, None, Answer(e))
      case Pass => UploadAfterDelete(ctx, req, d.attempted)
    else
      UploadAfterDelete(ctx, req, [])
  }

  /** A request without files, entity type or id is refused with a 400
      before anything is deleted, uploaded or patched. */
  lemma MissingFieldsRefused(ctx: Context, req: UploadRequest)
    requires !HasUploadFields(req)
    ensures UploadFiles(ctx, req) == UploadTrace([], None, None, Failed(StatusBadRequest, MissingUploadFields))
  {
  }

  /** The previous files are deleted only when a previous name is given,
      and before the batch runs: without one nothing is deleted; with one and
      a successful delete, the keys deleted are those `deleteFiles` attempts. */
  lemma DeletesOnlyWithPreviousName(ctx: Context, req: UploadRequest)
    requires HasUploadFields(req)
    ensures !Truthy(req.imagePrevName) && !Truthy(req.videoPrevName) ==> UploadFiles(ctx, req).deleted == []
    ensures (Truthy(req.imagePrevName) || Truthy(req.videoPrevName)) ==>
              UploadFiles(ctx, req).deleted
                == DeleteFiles(ctx.del, req.imagePrevName, req.videoPrevName, req.entityType.value).attempted
  {
  }

  /** A failed delete of the previous files ends the request: nothing is
      uploaded or patched, and the client gets the delete's status. */
  lemma FailedDeleteStopsUpload(ctx: Context, req: UploadRequest)
    requires HasUploadFields(req)
    requires Truthy(req.imagePrevName) || Truthy(req.videoPrevName)
    requires DeleteFiles(ctx.del, req.imagePrevName, req.videoPrevName, req.entityType.value).outcome.Fail?
    ensures var t := UploadFiles(ctx, req);
      var e := DeleteFiles(ctx.del, req.imagePrevName, req.videoPrevName, req.entityType.value).outcome.error;
      && t.batch.None? && t.patched.None?
      && t.response.Failed?
      && (t.response.status == StatusBadRequest || t.response.status == StatusServerError)
      && t.response == Answer(e)
  {
    DeleteErrorsAreRouteErrors(ctx.del, req.imagePrevName, req.videoPrevName, req.entityType.value);
  }

  /** The client hears of success only when the batch ran and the main server
      accepted the PATCH; the answer then carries the batch's own URLs, hash
      and warnings, and the PATCH carried the same URLs and hash. */
  lemma SuccessMeansPatched(ctx: Context, req: UploadRequest)
    requires UploadFiles(ctx, req).response.Uploaded?
    ensures HasUploadFields(req)
    ensures var t := UploadFiles(ctx, req);
      && t.batch.Some? && t.batch.value.result.Ok? && t.patched.Some?
      && ctx.patch(t.patched.value).Pass?
      && var b := t.batch.value.result.value;
      && t.response == Uploaded(b.urls, b.blurHash, b.warnings)
      && t.patched.value == PatchRequestFor(ctx.mainServer, req.entityType.value, req.entityId.value,
                                            b.urls, b.blurHash).value
  {
  }

  /** `branding` and `addon` have folders, so their previous files are
      deleted and their new files uploaded, but no PATCH URL: every such
      request that gets past the checks fails with a 500, from the delete or
      else from the update, leaving any uploaded objects unreferenced. */
  lemma UnpatchableTypesAlwaysFail(ctx: Context, req: UploadRequest)
    requires HasUploadFields(req)
    requires req.entityType.value == "branding" || req.entityType.value == "addon"
    ensures var t := UploadFiles(ctx, req);
      && t.patched.None?
      && t.response.Failed? && t.response.status == StatusServerError
      && (t.batch.Some? <==> (!Truthy(req.imagePrevName) && !Truthy(req.videoPrevName))
                             || DeleteFiles(ctx.del, req.imagePrevName, req.videoPrevName, req.entityType.value).outcome.Pass?)
      && (t.batch.Some? ==> t.batch == Some(Process(ctx.env, ctx.sweep, req.entityType.value, req.files.value))
                            && t.batch.value.result.Ok?
                            && t.response == Failed(StatusServerError, "Failed to update " + req.entityType.value))
  {
    var entityType := req.entityType.value;
    var d := DeleteFiles(ctx.del, req.imagePrevName, req.videoPrevName, entityType);
    if Truthy(req.imagePrevName) || Truthy(req.videoPrevName) {
      if d.outcome.Fail? {
        DeleteErrorsAreRouteErrors(ctx.del, req.imagePrevName, req.videoPrevName, entityType);
      } else {
        UnpatchableAfterDelete(ctx, req, d.attempted);
      }
    } else {
      UnpatchableAfterDelete(ctx, req, []);
    }
  }

  /** Once the old files are gone, the batch of an unpatchable type runs and
      the update fails with a 500. */
  lemma UnpatchableAfterDelete(ctx: Context, req: UploadRequest, deleted: seq<string>)
    requires HasUploadFields(req)
    requires req.entityType.value == "branding" || req.entityType.value == "addon"
    ensures var run := Process(ctx.env, ctx.sweep, req.entityType.value, req.files.value);
      && run.result.Ok?
      && UploadAfterDelete(ctx, req, deleted)
         == UploadTrace(deleted, Some(run), None, Failed(StatusServerError, "Failed to update " + req.entityType.value))
  {
    UnpatchableHasFolder(req.entityType.value);
  }

  /** `branding` and `addon` have a folder but no PATCH URL. */
  lemma UnpatchableHasFolder(entityType: string)
    requires entityType == "branding" || entityType == "addon"
    ensures entityType !in PatchTypes && GetFolderPath(entityType).Ok?
  {
    assert (entityType, if entityType == "branding" then "Bds" else "Ads") in FolderTable;
  }

  /** The payload reads the URL list by position: when the first image of a
      product lost its low variant and a video followed, the video's URL is
      sent as `imageLow` and `video` is empty (with all three variants, the
      video's URL is the fourth and lands in `video`). */
  lemma ProductPayloadIsPositional(high: string, medium: string, videoUrl: string, hash: Option<string>)
    ensures BuildPayload("product", [high, medium, videoUrl], hash)
         == Ok(Images(high, medium, videoUrl, Some(""), HashOrEmpty(hash)))
  {
  }

  /** With all three variants of the first image uploaded, a following
      video's URL is the fourth and is sent as `video`. */
  lemma ProductPayloadWithAllVariants(high: string, medium: string, low: string, videoUrl: string,
                                      hash: Option<string>)
    ensures BuildPayload("product", [high, medium, low, videoUrl], hash)
         == Ok(Images(high, medium, low, Some(videoUrl), HashOrEmpty(hash)))
  {
  }

  /** Missing URLs and a missing hash are sent as empty strings. */
  lemma EmptyBatchPayload(hash: Option<string>)
    ensures BuildPayload("product", [], None) == Ok(Images("", "", "", Some(""), ""))
    ensures BuildPayload("category", [], hash) == Ok(Images("", "", "", None, HashOrEmpty(hash)))
    ensures BuildPayload("restaurant", [], hash) == Ok(Logo(""))
  {
  }

  /** Branches, menus and restaurants take the first URL alone; the hash and
      every later URL are dropped. */
  lemma SingleFieldPayloads(urls: seq<string>, hash: Option<string>)
    requires |urls| >= 1
    ensures BuildPayload("branch", urls, hash) == Ok(Image(urls[0]))
    ensures BuildPayload("menu", urls, hash) == Ok(Image(urls[0]))
    ensures BuildPayload("restaurant", urls, hash) == Ok(Logo(urls[0]))
  {
  }

  /** Only the first file's URLs reach a banner or category, but the hash is
      the last image's: with two images, the hash sent belongs to the second
      while the URLs belong to the first. */
  lemma HashAndUrlsFromDifferentFiles(first: seq<string>, second: seq<string>, hash: string)
    requires |first| == 3
    ensures BuildPayload("banner", first + second, Some(hash))
         == Ok(Images(first[0], first[1], first[2], None, hash))
  {
  }

  /** The body of the delete route. */
  datatype DeleteRequest = DeleteRequest(entityType: Option<string>, imageName: Option<string>, videoName: Option<string>)

  const MissingDeleteFields := "Entity type or image name missing"
  const DeletedMessage := "Files deleted successfully"

  /** `deleteFiles` handler: an image name is mandatory even when only a
      video is to be removed. */
  function DeleteHandler(del: DeleteObject, req: DeleteRequest): (r: Response)
    ensures !Truthy(req.entityType) || !Truthy(req.imageName) ==> r == Failed(StatusBadRequest, MissingDeleteFields)
    ensures r.Deleted? <==> Truthy(req.entityType) && Truthy(req.imageName)
                            && DeleteFiles(del, req.imageName, req.videoName, req.entityType.value).outcome.Pass?
    ensures r.Deleted? ==> r.message == DeletedMessage
  {
    if !Truthy(req.entityType) || !Truthy(req.imageName) then
      Failed(StatusBadRequest, MissingDeleteFields)
    else
      match DeleteFiles(del, req.imageName, req.videoName, req.entityType.value).outcome
      case Fail(e) => Answer(e)
      case Pass => Deleted(DeletedMessage)
  }

  /** Every failure of the delete route is answered with a status; none is
      handed to the generic error middleware. */
  lemma DeleteNeverForwards(del: DeleteObject, req: DeleteRequest)
    ensures !DeleteHandler(del, req).Forwarded?
    ensures DeleteHandler(del, req).Failed? ==>
              DeleteHandler(del, req).status in {StatusBadRequest, StatusServerError}
  {
    if Truthy(req.entityType) && Truthy(req.imageName) {
      DeleteErrorsAreRouteErrors(del, req.imageName, req.videoName, req.entityType.value);
    }
  }
}
