/** The closed set of entity types an upload belongs to, the storage folder
    of each (`getFolderPath`), and the MIME whitelist of `isImageType`. */
module Entities {
  import opened Outcomes
  import opened Text

  datatype EntityType =
    | Restaurant | Branch | Menu | Category | Product | Banner | Branding | Addon

  /** The spelling of each entity type in a request. */
  function Name(e: EntityType): string {
    match e
    case Restaurant => "restaurant"
    case Branch => "branch"
    case Menu => "menu"
    case Category => "category"
    case Product => "product"
    case Banner => "banner"
    case Branding => "branding"
    case Addon => "addon"
  }

  /** Reads a request's `entityType`; any string but the eight spellings is
      unknown. */
  function Parse(s: string): (r: Option<EntityType>)
    ensures r.Some? ==> Name(r.value) == s
    ensures r.None? ==> forall e: EntityType :: Name(e) != s
  {
    if s == "restaurant" then Some(Restaurant)
    else if s == "branch" then Some(Branch)
    else if s == "menu" then Some(Menu)
    else if s == "category" then Some(Category)
    else if s == "product" then Some(Product)
    else if s == "banner" then Some(Banner)
    else if s == "branding" then Some(Branding)
    else if s == "addon" then Some(Addon)
    else None
  }

  /** The folder table, as pairs of request spelling and storage prefix. */
  const FolderTable: set<(string, string)> := {
    ("restaurant", "RPfs"), ("branch", "BPfs"), ("menu", "Mns"), ("category", "Cts"),
    ("product", "Pts"), ("banner", "Bns"), ("branding", "Bds"), ("addon", "Ads")
  }

  function Folder(e: EntityType): string {
    match e
    case Restaurant => "RPfs"
    case Branch => "BPfs"
    case Menu => "Mns"
    case Category => "Cts"
    case Product => "Pts"
    case Banner => "Bns"
    case Branding => "Bds"
    case Addon => "Ads"
  }

  /** `getFolderPath`: exactly the folder the table gives a known entity type,
      and a 400 `RouteError` for every other string. */
  function GetFolderPath(entityType: string): (r: Result<string, Error>)
    ensures forall f :: r == Ok(f) <==> (entityType, f) in FolderTable
    ensures r.Err? ==> r.error == RouteError(StatusBadRequest, "Invalid entity type")
  {
    match Parse(entityType)
    case Some(e) => Ok(Folder(e))
    case None => Err(RouteError(StatusBadRequest, "Invalid entity type"))
  }

  /** Distinct entity types never share a folder, so a folder names its
      entity type. */
  lemma FolderInjective(a: EntityType, b: EntityType)
    ensures Folder(a) == Folder(b) <==> a == b
  {
  }

  /** The entity types whose images get high/medium/low variants. */
  const VariantEntities: set<string> := {"category", "product", "banner"}

  /** `isImageType`: the five MIME types the variant pipeline accepts. */
  const ImageMimes: set<string> :=
    {"image/jpeg", "image/png", "image/webp", "image/tiff", "image/avif"}

  predicate IsImageType(mime: string) {
    mime in ImageMimes
  }

  /** An image MIME is never a `video/` MIME, so the image and video branches
      of the upload never overlap. */
  lemma ImageIsNotVideo(mime: string)
    requires IsImageType(mime)
    ensures StartsWith(mime, "image/") && !StartsWith(mime, "video/")
  {
  }
}
