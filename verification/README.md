# menu-upload-service: upload, variant and delete pipeline in Dafny

This project models the core of the menu upload service. That core has three
parts:

- **Image service.** It stores the files of one upload request in S3 and
  deletes files a request says it replaces.
  - Every file's MIME type is sniffed from its bytes.
  - Its name is normalised: the last segment of the client's name, re-extended
    with the sniffed extension, then lower-cased.
  - An image for a *category*, *product* or *banner* is compressed into three
    variants, high, medium and low. Each variant is searched down in quality
    steps of 5 until it fits its size target or reaches its floor. The three
    are uploaded under `H`, `M` and `L`, and a blurhash is made from the
    high variant.
  - A video goes to `Video`, and anything else goes to the entity's folder.
  - A file that fails becomes a warning, and the batch continues.
  - Working files are released in a `finally` block: unlinked, or moved into
    a temp directory on Windows. An age-based sweep empties that directory.
  - A previous image or video name, if it is on the extension whitelist, is
    turned into the keys to delete.
- **Upload controller.** It validates a request and deletes the previous
  files. It runs the batch, builds the entity's PATCH payload and sends it to
  the main server. Every outcome becomes a response.
- **S3 gateway.** It spells keys and URLs and puts or deletes one object.

Everything the service calls out to is a function-typed field of `Oracles.Env`
(or a parameter): the file system, `file-type`, `sharp`, `blurhash`, the S3 SDK
and the PATCH call. Each oracle either answers or fails with the error it would
throw. The per-file loop of `processAndUploadFiles` is a left fold,
`Batch.Fold`, over the uploaded files. `Batch.ProcessAndUploadFiles` is the
loop itself, and it is proved equal to that fold.

Modules, one per file:

| file | module | models |
|---|---|---|
| outcomes.dfy | Outcomes | Option, Result, Outcome, RouteError/Error, JS truthiness of an optional string |
| text.dfy | Text | ASCII `toLowerCase`, first-occurrence `replace`, decimal rendering |
| nodepath.dfy | NodePath | POSIX `path.basename`, `path.extname`, `path.join` |
| entities.dfy | Entities | entity types, `getFolderPath`, `isImageType` |
| s3.dfy | S3 | `uploadToS3`, `deleteFromS3`, key and URL spelling |
| oracles.dfy | Oracles | the environment the service runs against |
| compression.dfy | Compression | `compressToSize` and the three presets |
| naming.dfy | Naming | the normalised storage name and the variant file names |
| variants.dfy | Variants | `compressImage` |
| reaper.dfy | Reaper | `moveFileToTemp`, `cleanupTempFiles` |
| batch.dfy | Batch | `processAndUploadFiles` |
| deletion.dfy | Deletion | `deleteFiles` |
| controller.dfy | Controller | `uploadFiles`, `deleteFiles` handler, `updateEntityOnMainServer`, `getPatchUrl` |

Some behaviours of the code are stated as lemmas about the model. None of them
is claimed as a defect:

- A TIFF upload is stored under the sniffed `.tif`, but the delete whitelist
  lists only `.tiff`. So its variants are never deleted (`Deletion.TifIsNeverDeleted`).
- When `compressImage` fails after writing some variants, those variants are
  not released, because the variant paths are only set on success
  (`Batch.StrandedOnCompressFailure`).
- For a product, `video` is read from `urls[3]`. When the first image of a
  product batch lost its low variant and a video follows, the video URL lands
  in `imageLow` and `video` is empty (`Controller.ProductPayloadIsPositional`).
  With all three variants uploaded, the video URL is the fourth and lands in
  `video` (`Controller.ProductPayloadWithAllVariants`).
- The delete whitelist lists `.bmp`, but `image/bmp` is not an accepted image
  type. So a BMP for a category, product or banner is stored once in the
  entity folder, while a later delete of its name removes only the three
  variant keys. The stored object is never deleted
  (`Deletion.BmpVariantUploadIsNeverDeleted`).
- The upload middleware stores each file under its client name. When two files
  of one request share a path, the first one releases it, and the later one
  fails as a missing file (`Batch.ReusedPathFailsLater`).
- The blurhash in a payload is that of the last image that produced one. It
  can come from a different file than the URLs that go with it
  (`Batch.LastHashWins`, `Controller.HashAndUrlsFromDifferentFiles`).

## Model

| member | source | states |
|---|---|---|
| S3.UploadToS3 | src/util/s3.ts:21-40 | the upload succeeds exactly when the store accepts the key `folder/name`; the URL returned is the bucket's URL prefix followed by that key; a store failure is passed on unchanged |
| S3.KeyOfObjectUrl | src/util/s3.ts:30-38 | the URL an upload returns gives back exactly the key it stored under |
| S3.SplitObjectKey | src/util/s3.ts:30 | a key splits back into its folder and its file name, whatever slashes the folder holds |
| S3.UrlIgnoresContent | src/util/s3.ts:26-38 | the URL depends on bucket, region, folder and name only, not on the file or the store |
| S3.DeleteFromS3 | src/util/s3.ts:43-57 | a delete succeeds exactly when the store deletes the key; any failure is replaced by one naming the key |
| Entities.GetFolderPath | src/services/imageService.ts:344-365 | a known entity type yields exactly its folder from the table; every other string is a 400 "Invalid entity type" |
| Entities.FolderInjective | src/services/imageService.ts:344-361 | two entity types share a folder only if they are the same type |
| Entities.ImageIsNotVideo | src/services/imageService.ts:89-92 | every accepted image MIME starts with `image/` and never with `video/` |
| Text.Lower | src/services/imageService.ts:212 | lower-casing keeps the length and maps each character on its own; nothing upper-case remains |
| Text.LowerChar | src/services/imageService.ts:212 | the k-th capital of the alphabet becomes the k-th small letter; letters stay letters, and every other character is kept |
| Text.RemoveFirst | src/services/imageService.ts:54 | removes the first occurrence of the pattern, or nothing when it does not occur |
| Text.RemoveFirstOfLast | src/services/imageService.ts:54-56 | when a pattern first occurs at the end, removing it leaves the prefix |
| NodePath.ExtName | src/services/imageService.ts:206 | the extension is empty or a dot followed by dot-free text, and a proper suffix of the base name |
| NodePath.ExtNameOfSuffix | src/services/imageService.ts:206-210 | a non-empty stem, a dot and a dot-free extension have exactly that extension |
| NodePath.DotFileHasNoExtName | src/services/imageService.ts:206 | a name that is only a dot and an extension has no extension |
| Naming.NormalizeFileName | src/services/imageService.ts:205-212 | the storage name is always lower-case |
| Naming.NormalizedIsStemAndDetected | src/services/imageService.ts:205-212 | whichever branch is taken, the storage name is the lower-cased stem of the client's base name, a dot and the sniffed extension |
| Naming.ReExtendKeepsStem | src/services/imageService.ts:209-211 | keeping a matching extension and replacing a different one agree once lower-cased |
| Naming.NormalizedExtension | src/services/imageService.ts:205-212 | a non-empty name ends up with the lower-cased sniffed extension as its extension |
| Naming.EmptyNameLosesExtension | src/services/imageService.ts:205-212 | an empty client name becomes a dot-file such as `.jpg`, the dot and the lower-cased extension, which has no extension |
| Naming.StemAndExtension | src/services/imageService.ts:210 | a slash-free name is its stem followed by its extension, and a name with an extension has a non-empty stem |
| Naming.VariantNameOfStem | src/services/imageService.ts:52-56 | when the extension first occurs at the end of the name, a variant name is the stem, the tag and the extension |
| Naming.VariantName | src/services/imageService.ts:54-56 | a variant name ends with its tag followed by the file's extension |
| Naming.ReExtend | src/services/imageService.ts:209-211 | whichever branch is taken, a slash-free name ends, ignoring case, with the detected extension |
| Naming.VariantNamesDistinct | src/services/imageService.ts:54-56 | the high, medium and low names of a file are pairwise different |
| Compression.Search | src/services/imageService.ts:95-118 | the buffer kept is the encoder's output at the kept quality and is accepted: it fits the target or the quality is at the floor; the kept quality is the start minus 5 for each extra encode |
| Compression.SearchRejectsEarlier | src/services/imageService.ts:103-115 | every quality tried before the kept one was too large and still above the floor |
| Compression.SearchAboveStepBelowFloor | src/services/imageService.ts:110-114 | starting at or above the floor, the kept quality is less than one step below it |
| Compression.SearchStaysAboveFloor | src/services/imageService.ts:100-115 | starting on the floor's 5-grid, the kept quality lies between floor and start, and the number of encodes is bounded |
| Compression.CompressToSize | src/services/imageService.ts:95-118 | the do-while loop yields the same result as the search, accepted, at the start quality minus 5 per extra encode |
| Compression.PresetBounds | src/services/imageService.ts:61-65 | high stays in 90-100 within 3 encodes, medium in 70-85 within 4, low in 10-70 within 13 |
| Variants.CompressAndWrite | src/services/imageService.ts:104-117 | a variant is written exactly when the search succeeds and the write succeeds, with the searched buffer |
| Variants.WriteHigh | src/services/imageService.ts:67-72 | the high variant is the original bytes when the width is known, at most 2000 and the file at most 3 MiB; otherwise it is the searched high encoding |
| Variants.WriteVariants | src/services/imageService.ts:67-80 | variants are written high, medium, low; success writes all three, and a failure leaves a prefix of them written |
| Variants.CompressImage | src/services/imageService.ts:42-84 | success returns the three sibling paths and wrote all three; a failure is a 500 naming the file, and what was written is a prefix of high, medium, low |
| Variants.CompressedContents | src/services/imageService.ts:44-80 | on success the high, medium and low files hold the original or high encoding, then the medium and low encodings, of an accepted image |
| Variants.SearchedVariantsWithinPreset | src/services/imageService.ts:61-78 | every encoded variant has a quality within its preset and fits its size target unless at the floor |
| Variants.NonImageWritesNothing | src/services/imageService.ts:44-49 | an unknown or non-image type writes nothing and fails with "Unsupported file type" |
| Reaper.Release | src/services/imageService.ts:134-154 | off Windows the file is unlinked; on Windows it is moved; either way the action is on the file's own path |
| Reaper.MovedIntoTempDir | src/services/imageService.ts:144-146 | on Windows the file moves into the temp directory as stamp, dash, its own name |
| Reaper.CleanupTempFiles | src/services/imageService.ts:156-176 | the loop over the listing deletes what the sweep definition says, stopping at the first failing stat |
| Reaper.SweepOnlyOld | src/services/imageService.ts:162-171 | only entries older than the maximum age are deleted |
| Reaper.SweepAllOld | src/services/imageService.ts:162-171 | when every stat answers, every entry older than the maximum age is deleted |
| Reaper.SweepDeletesExactlyOld | src/services/imageService.ts:156-176 | with distinct names and every stat answering, an entry is deleted if and only if it is older than the maximum age |
| Reaper.Sweep | src/services/imageService.ts:156-176 | nothing is deleted off Windows or without a listing; every name deleted is that of an entry older than the maximum age |
| Reaper.PosixNeverSweeps | src/services/imageService.ts:157 | off Windows the sweep deletes nothing |
| Batch.RouteGate | src/services/imageService.ts:214-240 | a file goes to the variant pipeline exactly when it is an accepted image and the entity type is category, product or banner; other images go to the entity folder |
| Batch.UploadOrder | src/services/imageService.ts:219-233 | the URLs of an image are a prefix of its H, M, L URLs; all three exactly when nothing failed; the hash is that of the high variant and is set once M is reached |
| Batch.WarningNamesFile | src/services/imageService.ts:241-243 | every warning starts with "Failed to process", the client's file name and a colon |
| Batch.ImageReleasesFirst | src/services/imageService.ts:244-250 | an image's uploaded file is always the first path released |
| Batch.OriginalReleasesFirst | src/services/imageService.ts:244-250 | a video's or plain file's uploaded file is always the first path released |
| Batch.FileAlwaysReleased | src/services/imageService.ts:244-250 | whatever happens to a file, and whatever earlier files released, its uploaded file is released first |
| Batch.OriginalOutcome | src/services/imageService.ts:234-240 | a video or plain file yields its one URL under the route's folder exactly when it has no warning |
| Batch.ImageOutcome | src/services/imageService.ts:214-233 | an image yields a prefix of its three variant URLs, all three exactly when it has no warning |
| Batch.FileOutcomeByRoute | src/services/imageService.ts:197-240 | a file whose path no earlier file released, and which reads and sniffs, is handled by the route its type and entity select, under its normalised name |
| Batch.UrlsFollowRouteKeys | src/services/imageService.ts:214-240 | every URL a file reports is the URL of the key at the same place among its route's keys: H, M, L for variants, `Video` for a video, the folder otherwise |
| Batch.ProcessFile | src/services/imageService.ts:192-250 | a file whose path an earlier file already released fails to be read, with Node's "no such file" error |
| Batch.UploadVariants | src/services/imageService.ts:220-233 | at most three URLs, all three exactly when no upload failed; a hash is only set after the high upload and is the blurhash of the high variant |
| Batch.StrandedOnCompressFailure | src/services/imageService.ts:193-250 | after a successful compression the three variants are released after the upload; after a failed one only the upload is released and the variants already written stay behind |
| Batch.FoldSplits | src/services/imageService.ts:192-251 | when no file of the second part sits at a path the first part released, processing the batch in two parts and combining equals processing it whole |
| Batch.ReleasedGrows | src/services/imageService.ts:192-251 | the paths released by a prefix of the batch are a prefix of those released by the whole batch |
| Batch.ReusedPathFailsLater | src/services/imageService.ts:198-249 | a file at the same path as an earlier file of the batch finds it already released and fails as a missing file |
| Batch.OneWarningPerFailure | src/services/imageService.ts:241-243 | the batch has exactly one warning per failed file |
| Batch.ReportsAt | src/services/imageService.ts:192-251 | the report at each place of the batch is that file processed after the files before it |
| Batch.FoldIsAbsorbAll | src/services/imageService.ts:192-253 | the batch's URLs, hash, warnings and releases are its file reports accumulated in file order |
| Batch.AbsorbAllLastHash | src/services/imageService.ts:223 | accumulating reports keeps the hash of the last report that has one, or none |
| Batch.LastHashWins | src/services/imageService.ts:223 | the batch's blurhash is that of the last file that produced one, or none |
| Batch.ProcessAndUploadFiles | src/services/imageService.ts:178-254 | the sweep runs first, with the default 24-hour maximum age; an unknown entity type fails before any file is touched; otherwise the result is the fold over all files |
| Deletion.PlanDeletion | src/services/imageService.ts:264 | the folder is resolved first, and an unknown entity type fails with 400 before any delete |
| Deletion.GroupFailure | src/services/imageService.ts:282-301 | a failed group always fails with a 500 `RouteError` |
| Deletion.GroupFailsIffSomeKeyFails | src/services/imageService.ts:282-301 | a group of deletes fails if and only if one of its keys fails |
| Deletion.GroupFailureIsFirst | src/services/imageService.ts:283-300 | the group's error names the first failing delete and its key |
| Deletion.RunPlan | src/services/imageService.ts:269-330 | a failed plan fails with a 500 `RouteError` |
| Deletion.DeleteFiles | src/services/imageService.ts:259-339 | an unknown entity type attempts nothing and fails with 400; otherwise the plan for the folder is run |
| Deletion.DeleteErrorsAreRouteErrors | src/services/imageService.ts:259-339 | every failure is a `RouteError`, 400 for an unknown type and 500 for a failed delete |
| Deletion.PlanSucceedsIffAllKeysDo | src/services/imageService.ts:269-330 | a delete succeeds if and only if every key it attempted was deleted |
| Deletion.VideoOnlyAfterImages | src/services/imageService.ts:270-330 | the video key is attempted if and only if every image key was deleted |
| Deletion.ImageDeleteCount | src/services/imageService.ts:271-313 | a present, whitelisted image name deletes three keys for variant entities and one otherwise; anything else deletes none |
| Deletion.UnlistedDeletesNothing | src/services/imageService.ts:270-330 | absent, empty or non-whitelisted names delete nothing and succeed |
| Deletion.ImageDeletes | src/services/imageService.ts:271-313 | an image delete is planned only for a present, non-empty, whitelisted previous name, and every planned delete is of that name |
| Deletion.VariantKeysOfName | src/services/imageService.ts:276-301 | a whitelisted image name of a variant entity deletes the keys under H, M and L; whether anything was stored there depends on the upload route (see the round-trip rows) |
| Deletion.SingleKeyOfName | src/services/imageService.ts:302-311 | a whitelisted image name of any other entity deletes the one key in the folder |
| Deletion.ImageRoundTrip | src/services/imageService.ts:271-313 | for an accepted image type whose extension is whitelisted, the storage name given back as the previous name deletes exactly the keys of the route the upload took |
| Deletion.VideoKeysOfName | src/services/imageService.ts:316-330 | a whitelisted video name deletes its key in the `Video` folder |
| Deletion.VideoRoundTrip | src/services/imageService.ts:316-330 | the storage name of an uploaded video deletes exactly the key it was uploaded to |
| Deletion.TifNotListed | src/services/imageService.ts:272-275 | a name with extension `.tif` plans no image delete |
| Deletion.TifIsNeverDeleted | src/services/imageService.ts:271-275 | an image stored with the sniffed `tif` extension is never deleted as a previous image |
| Deletion.VariantUrlKeys | src/services/imageService.ts:276-301 | the key in each variant URL is the key the matching variant delete removes |
| Deletion.UploadedUrlsAreDeletedKeys | src/services/imageService.ts:276-301 | for a file that took the variant route, the URLs the batch returns lead back, in order, to exactly the keys a later delete of its storage name removes |
| Deletion.BmpVariantUploadIsNeverDeleted | src/services/imageService.ts:271-301 | a BMP for a category, product or banner is stored once in the folder, and the three variant keys its later delete removes never include that object |
| Controller.PatchUrl | src/controllers/UploadController.ts:184-204 | a PATCH URL exists exactly for the six patchable types: server, type, id and the type's field (`logo` for restaurant, `image` for branch and menu, `images` for category, product and banner); any other type is a 400 |
| Controller.BuildPayload | src/controllers/UploadController.ts:114-161 | a payload exists exactly for the patchable types, otherwise a 400; category, product and banner send `urls[0]`, `urls[1]`, `urls[2]` (or "" when missing) as `imageHigh`, `imageMedium`, `imageLow` with the hash (or ""); only product adds `video`, which is `urls[3]` or ""; branch and menu send `urls[0]` or "" as `image`, restaurant as `logo` |
| Controller.PatchableTypes | src/controllers/UploadController.ts:184-204 | of the eight entity types, all but branding and addon can be patched |
| Controller.PayloadAgreesWithUrl | src/controllers/UploadController.ts:114-161 | a payload can be built exactly when a PATCH URL exists |
| Controller.UpdateEntity | src/controllers/UploadController.ts:104-181 | the update succeeds exactly when the type is patchable and the PATCH succeeds; every failure becomes a 500 "Failed to update" the type |
| Controller.MissingFieldsRefused | src/controllers/UploadController.ts:19-24 | without files, entity type or entity id, nothing is deleted, processed or patched, and the answer is 400 |
| Controller.DeletesOnlyWithPreviousName | src/controllers/UploadController.ts:27-31 | previous files are deleted only when a previous image or video name is given, and then exactly as the delete plans |
| Controller.UploadFiles | src/controllers/UploadController.ts:10-67 | the route always answers itself, with 400 or 500 on failure; nothing is patched without a batch, and 200 only after an accepted PATCH |
| Controller.FailedDeleteStopsUpload | src/controllers/UploadController.ts:27-56 | a failed delete stops the request before any processing or patch, and its status and message are answered |
| Controller.SuccessMeansPatched | src/controllers/UploadController.ts:34-53 | a 200 answer means the batch succeeded, the entity was patched with its URLs and hash, and the answer carries them |
| Controller.UnpatchableTypesAlwaysFail | src/controllers/UploadController.ts:26-50 | every branding or addon request with its fields is answered with a 500 and never patched; the batch runs exactly when there was no previous name or its delete succeeded, and then the answer is "Failed to update" the type |
| Controller.ProductPayloadIsPositional | src/controllers/UploadController.ts:116-123 | a product payload takes image URLs and video by position, so when the image lost its low variant a following video URL lands in `imageLow` |
| Controller.ProductPayloadWithAllVariants | src/controllers/UploadController.ts:116-123 | with three variant URLs and a video URL, the video URL is sent as `video` |
| Controller.EmptyBatchPayload | src/controllers/UploadController.ts:114-155 | an empty batch still patches, with empty strings for every field |
| Controller.SingleFieldPayloads | src/controllers/UploadController.ts:141-155 | branch and menu send the first URL as `image`, restaurant as `logo` |
| Controller.HashAndUrlsFromDifferentFiles | src/controllers/UploadController.ts:125-132 | a banner payload pairs the first three URLs with whatever hash the batch kept |
| Controller.DeleteHandler | src/controllers/UploadController.ts:69-101 | a missing entity type or image name is a 400; the answer is "Files deleted successfully" exactly when the delete succeeded |
| Controller.DeleteNeverForwards | src/controllers/UploadController.ts:88-99 | the delete route always answers itself, with 400 or 500, and never hands an error on |

## Left out

- File contents, pixel work and encoders are oracles. These are the `sharp` resize and JPEG encoding, the metadata read, `blurhash` encoding and `file-type` sniffing: they are foreign libraries.
- `compressImage` reads and sniffs the file a second time. The model uses the same `readFile` and `sniff` oracles, so both reads agree.
- File-system, S3 and HTTP I/O are oracles or parameters. This covers `fs`, `PutObjectCommand`, `DeleteObjectCommand` and `axios.patch`. The JWT header and the server URL are configuration; the URL is a parameter.
- Logging (`console`, `jet-logger`) is left out. It does not change any result.
- `Date.now()` is a parameter: the stamp of a moved file and `now` of the sweep.
- `os.platform()` is a parameter, `Reaper.Platform`, and so are the temp directory and the listing of the sweep. `ensureTempDir` only creates a directory and swallows its error, so it is left out.
- Reaper.Release records the action attempted. Whether the unlink or rename then succeeds is not modelled, because every failure is logged and swallowed.
- The file system is modelled only as far as the paths earlier files of the batch released: a later read of such a path fails. Every release is treated as removing the path even though a failed unlink or rename is swallowed, and variant files left on disk by a failed compression are not seen by later reads of the same names.
- Batch.ReadUpload compares paths letter for letter, as a case-sensitive file system does. On a case-insensitive file system (Windows by default, macOS by default) two spellings that differ only in case are one file: an upload `Menu.jpg` after `menu.jpg`, or an upload `A-HIGH.JPG` after an earlier file released the variant `a-high.jpg`, would find the path gone and fail. The model reads such a file successfully.
- Reaper.IsOld compares integer milliseconds: `stats.mtimeMs` is a floating-point number, and its fraction is not modelled.
- Batch.Process always sweeps with the default 24-hour maximum age, the only one `processAndUploadFiles` uses; Reaper.Sweep keeps the age as a parameter.
- Text.Lower maps ASCII letters only. Unicode case mapping of `toLowerCase` is not modelled.
- NodePath.ExtName and `path.join` follow the POSIX flavour only. `path.join` is modelled as directory, slash, name, without normalising `.` or `..` segments.
- Deletion.GroupFailure reports the error of the first failing key in listing order. `Promise.all` rejects with whichever delete fails first in time, which depends on timing; the model keeps only that the group fails exactly when a key fails, with a 500.
- The wrapping catch of `deleteFiles` (a non-`RouteError` becomes 500 "Error deleting files") is not modelled: every delete error is already a `RouteError`.
- Express wiring, the upload middleware, the generic error middleware and the build script are outside the core. A non-`RouteError` in the upload route would be handed on with `next`; the model answers it as `Forwarded`.
- Multer's alternative `req.files` shape (an object keyed by field name) is not modelled. The files are a list or absent.
