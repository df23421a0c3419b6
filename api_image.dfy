/**
 * The image handlers' decisions (control_server/api/image.go): who may see
 * an image, how a new image is validated and given its defaults, when an
 * update is accepted, how an upload picks its version, and how a version in
 * a download URI is read. Request bodies are abstracted to what decoding
 * them gives (the value and whether the decoder reported an error); the new
 * UUID is a parameter. File transfers are not modelled.
 */
module ApiImage {
  import opened Wrappers
  import opened Http
  import opened ImageBase
  import Images
  import Text
  import opened ApiUtil

  type Writes = seq<Write<Images.ImageModel>>

  const IMAGE_ERROR: string := "failed to get image"
  const DEFAULT_TYPE: string := "base"

  /**
   * checkUserImage: the image named by the URI's "uuid". A missing UUID is
   * answered twice (GetTag's 400, then a 500), a failed lookup with 500; a
   * system request gets any image, anyone else only an image whose Username
   * is the session's (403 otherwise).
   */
  function CheckUserImage(req: Request, store: ImageStore): (r: (Result<Images.ImageModel, string>, Writes))
    ensures r.0.Ok? <==>
      "uuid" in req.vars && req.vars["uuid"] != "" && req.vars["uuid"] in store.images &&
      (req.typeHeader == SYSTEM_TYPE || req.sessionUsername == Some(store.images[req.vars["uuid"]].username))
    ensures r.0.Ok? ==> r.0.value == store.images[req.vars["uuid"]] && r.1 == []
    ensures r.0.Err? ==> r.0.error == IMAGE_ERROR && r.1 != []
    ensures !("uuid" in req.vars && req.vars["uuid"] != "") ==> Status(r.1) == STATUS_BAD_REQUEST
    ensures "uuid" in req.vars && req.vars["uuid"] != "" && req.vars["uuid"] !in store.images ==>
      Status(r.1) == STATUS_INTERNAL_SERVER_ERROR
    ensures r.0.Err? && "uuid" in req.vars && req.vars["uuid"] != "" && req.vars["uuid"] in store.images ==>
      Status(r.1) == STATUS_FORBIDDEN
  {
    var (tag, tagWrites) := GetTag<Images.ImageModel>("uuid", req.vars);
    if tag.Err? then
      (Err(IMAGE_ERROR), tagWrites + [HttpError(STATUS_INTERNAL_SERVER_ERROR, "uri does not include UUID")])
    else match GetImageByUuid(store, tag.value)
      case Err(_) => (Err(IMAGE_ERROR), [HttpError(STATUS_INTERNAL_SERVER_ERROR, "cannot get image")])
      case Ok(image) =>
        if req.typeHeader == SYSTEM_TYPE then (Ok(image), [])
        else if req.sessionUsername.None? || req.sessionUsername.value != image.username then
          (Err(IMAGE_ERROR), [HttpError(STATUS_FORBIDDEN, "user does not own this image")])
        else (Ok(image), [])
  }

  /** The image CreateImage stores: the new UUID, and Type "base" when none was given. */
  function NewImage(decoded: Images.ImageModel, uuid: string): (image: Images.ImageModel)
    ensures image.uuid == uuid
    ensures image.kind == if decoded.kind == "" then DEFAULT_TYPE else decoded.kind
    ensures image.(uuid := decoded.uuid, kind := decoded.kind) == decoded
  {
    decoded.(uuid := uuid, kind := if decoded.kind == "" then DEFAULT_TYPE else decoded.kind)
  }

  /**
   * CreateImage: 400 for, in this order, an empty Name, an empty Username,
   * a non-empty Versions and a decode error (the fields are checked before
   * the decoder's error); otherwise the image is stored under the new UUID
   * with its first version, version 0, and answered with 201 and its
   * encoding, that version included.
   */
  function CreateImage(decoded: Images.ImageModel, decodeErr: bool, uuid: string, store: ImageStore): (r: (Writes, ImageStore))
    ensures decoded.name == "" ==> r.0 == [HttpError(STATUS_BAD_REQUEST, "Name is not allowed to be empty")]
    ensures decoded.name != "" && decoded.username == "" ==>
      r.0 == [HttpError(STATUS_BAD_REQUEST, "Username is not allowed to be empty")]
    ensures decoded.name != "" && decoded.username != "" && decoded.versions != [] ==>
      r.0 == [HttpError(STATUS_BAD_REQUEST, "There shouldn't be a version")]
    ensures decoded.name != "" && decoded.username != "" && decoded.versions == [] && decodeErr ==>
      r.0 == [HttpError(STATUS_BAD_REQUEST, "couldn't decode image model")]
    ensures Status(r.0) == STATUS_CREATED <==> (decoded.name != "" && decoded.username != "" && decoded.versions == [] && !decodeErr)
    ensures Status(r.0) == STATUS_CREATED ==>
      var created := NewImage(decoded, uuid).(versions := [Images.Version(0, uuid)]);
      r.1.images == store.images[uuid := created] && r.0 == [WriteHeader(STATUS_CREATED), Body(created)]
    ensures Status(r.0) != STATUS_CREATED ==> r.1 == store && Status(r.0) == STATUS_BAD_REQUEST
  {
    if decoded.name == "" then ([HttpError(STATUS_BAD_REQUEST, "Name is not allowed to be empty")], store)
    else if decoded.username == "" then ([HttpError(STATUS_BAD_REQUEST, "Username is not allowed to be empty")], store)
    else if |decoded.versions| != 0 then ([HttpError(STATUS_BAD_REQUEST, "There shouldn't be a version")], store)
    else if decodeErr then ([HttpError(STATUS_BAD_REQUEST, "couldn't decode image model")], store)
    else
      var (image, stored) := StoreImage(store, NewImage(decoded, uuid));
      ([WriteHeader(STATUS_CREATED), Body(image)], stored)
  }

  /** A created image can be fetched by its UUID by its owner, with the defaults applied and version 0 as its only version. */
  lemma CreatedImageIsOwned(decoded: Images.ImageModel, uuid: string, store: ImageStore, req: Request)
    requires Status(CreateImage(decoded, false, uuid, store).0) == STATUS_CREATED
    requires req.vars == map["uuid" := uuid] && uuid != "" && req.sessionUsername == Some(decoded.username)
    ensures CheckUserImage(req, CreateImage(decoded, false, uuid, store).1).0 ==
      Ok(NewImage(decoded, uuid).(versions := [Images.Version(0, uuid)]))
  {
  }

  /**
   * UpdateImage: after checkUserImage, a decode error or a decoded UUID that
   * is not the stored image's gives 400; otherwise the decoded image replaces
   * the stored one and is sent back.
   */
  function UpdateImage(req: Request, newImage: Images.ImageModel, decodeErr: bool, store: ImageStore): (r: (Writes, ImageStore))
    ensures CheckUserImage(req, store).0.Err? ==> r == (CheckUserImage(req, store).1, store)
    ensures CheckUserImage(req, store).0.Ok? && (decodeErr || newImage.uuid != CheckUserImage(req, store).0.value.uuid) ==>
      r == ([HttpError(STATUS_BAD_REQUEST, "invalid machine given")], store)
    ensures CheckUserImage(req, store).0.Ok? && !decodeErr && newImage.uuid == CheckUserImage(req, store).0.value.uuid ==>
      r == ([Body(newImage)], ImageStore(store.images[newImage.uuid := newImage]))
    ensures Status(r.0) == STATUS_OK ==>
      !decodeErr && newImage.uuid == CheckUserImage(req, store).0.value.uuid &&
      r == ([Body(newImage)], ImageStore(store.images[newImage.uuid := newImage]))
  {
    var (stored, writes) := CheckUserImage(req, store);
    if stored.Err? then (writes, store)
    else if decodeErr || stored.value.uuid != newImage.uuid then
      ([HttpError(STATUS_BAD_REQUEST, "invalid machine given")], store)
    else ([Body(newImage)], ImageStore(store.images[newImage.uuid := newImage]))
  }

  /** The version part of a download URI: a base-10 uint64, or 404. */
  function DownloadVersion(version: string): (r: Result<Uint64, Write<Images.ImageModel>>)
    ensures r.Ok? <==> Text.ParseUint(version, 10).Ok?
    ensures r.Ok? ==> r.value == Text.ParseUint(version, 10).value
    ensures r.Err? ==> r.error == HttpError(STATUS_NOT_FOUND, "Cannot download the image")
  {
    match Text.ParseUint(version, 10)
    case Ok(v) => Ok(v)
    case Err(_) => Err(HttpError(STATUS_NOT_FOUND, "Cannot download the image"))
  }

  /** DownloadLatestImage prints the latest version in base 10, and DownloadImageFile reads back that very number. */
  lemma LatestVersionDownloads(image: Images.ImageModel)
    requires |image.versions| > 0
    ensures DownloadVersion(Text.Decimal(image.versions[|image.versions| - 1].version)) ==
      Ok(image.versions[|image.versions| - 1].version)
  {
    Text.ParseNumeral(image.versions[|image.versions| - 1].version, 10);
  }

  /** updateVersion: the image's latest version, or the store's error. */
  function UpdateVersion(uuid: string, store: ImageStore): (r: Result<Images.Version, string>)
    requires uuid in store.images ==> |store.images[uuid].versions| > 0
    ensures r.Ok? <==> uuid in store.images
    ensures r.Ok? ==> r.value == store.images[uuid].versions[|store.images[uuid].versions| - 1]
  {
    match GetImageByUuid(store, uuid)
    case Err(e) => Err(e)
    case Ok(image) => Ok(image.versions[|image.versions| - 1])
  }

  /**
   * manageVersion: the part's text in lower case; "true" makes a new
   * version, "false" takes the latest one, and anything else, or a read
   * error, gives no version together with the read error.
   */
  function ManageVersion(data: string, readErr: Option<string>, uuid: string, store: ImageStore):
    (r: (Option<Images.Version>, ImageStore, Option<string>))
    requires uuid in store.images ==> |store.images[uuid].versions| > 0
    ensures readErr.Some? || Text.ToLower(data) !in {"true", "false"} ==> r == (None, store, readErr)
    ensures readErr.None? && Text.ToLower(data) == "true" ==>
      var (v, s, err) := CreateNewVersion(uuid, store); r == (Some(v), s, err)
    ensures readErr.None? && Text.ToLower(data) == "false" ==>
      (r.1 == store &&
       match UpdateVersion(uuid, store)
       case Ok(v) => r.0 == Some(v) && r.2.None?
       case Err(e) => r.0.None? && r.2 == Some(e))
  {
    var val := Text.ToLower(data);
    if readErr.Some? || (val != "true" && val != "false") then (None, store, readErr)
    else if val == "true" then
      var (v, s, err) := CreateNewVersion(uuid, store);
      (Some(v), s, err)
    else
      match UpdateVersion(uuid, store)
      case Ok(v) => (Some(v), store, None)
      case Err(e) => (None, store, Some(e))
  }

  /**
   * An answer other than "true" or "false" with a clean read gives neither a
   * version nor an error, so a caller that only checks the error goes on
   * with a nil version.
   */
  lemma UnknownAnswerGivesNothing(uuid: string, store: ImageStore)
    requires uuid in store.images ==> |store.images[uuid].versions| > 0
    ensures ManageVersion("yes", None, uuid, store) == (None, store, None)
  {
    assert Text.ToLower("yes") == "yes";
  }

  /** In a keyed store, "True" and then "false" both give the same, newly made version. */
  lemma NewVersionThenLatest(uuid: string, store: ImageStore)
    requires Keyed(store) && uuid in store.images && |store.images[uuid].versions| > 0
    ensures var (v, s, err) := ManageVersion("True", None, uuid, store);
      v.Some? && err.None? && ManageVersion("false", None, uuid, s) == (v, s, None)
  {
    assert Text.ToLower("True") == "true";
    assert Text.ToLower("false") == "false";
    NewVersionIsLatest(uuid, store);
  }
}
