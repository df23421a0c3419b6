/**
 * The control server's handler helpers (control_server/api/util.go) and the
 * image part of its database store. The store is an interface backed by
 * gorm; here it is a value: images by UUID, each with its versions in the
 * order they were recorded. What the store's own errors say is not
 * modelled (STORE_NOT_FOUND stands for it).
 */
module ApiUtil {
  import opened Wrappers
  import opened Http
  import opened ImageBase
  import Images

  const STORE_NOT_FOUND: string := "record not found"

  datatype ImageStore = ImageStore(images: map<string, Images.ImageModel>)

  /** The store holds each image under its own UUID. */
  predicate Keyed(store: ImageStore)
  {
    forall k :: k in store.images ==> store.images[k].uuid == k
  }

  /** store.GetImageByUUID. */
  function GetImageByUuid(store: ImageStore, uuid: string): (r: Result<Images.ImageModel, string>)
    ensures r.Ok? <==> uuid in store.images
    ensures r.Ok? ==> r.value == store.images[uuid]
  {
    if uuid in store.images then Ok(store.images[uuid]) else Err(STORE_NOT_FOUND)
  }

  /** store.CreateNewImageVersion: the version row joins the versions of the image it names, if there is one. */
  function RecordVersion(store: ImageStore, v: Images.Version): (s: ImageStore)
    ensures s.images.Keys == store.images.Keys
    ensures v.imageModelUuid in store.images ==>
      s.images[v.imageModelUuid].versions == store.images[v.imageModelUuid].versions + [v]
    ensures forall k :: k in store.images && k != v.imageModelUuid ==> s.images[k] == store.images[k]
  {
    if v.imageModelUuid in store.images then
      var image := store.images[v.imageModelUuid];
      ImageStore(store.images[v.imageModelUuid := image.(versions := image.versions + [v])])
    else store
  }

  /**
   * store.CreateImage: the image's versions become the single version 0 of
   * its own UUID (on the caller's image too, which is passed by pointer),
   * and the image is stored under its UUID.
   */
  function StoreImage(store: ImageStore, image: Images.ImageModel): (r: (Images.ImageModel, ImageStore))
    ensures r.0.versions == [Images.Version(0, image.uuid)]
    ensures r.0.(versions := image.versions) == image
    ensures r.1.images.Keys == store.images.Keys + {image.uuid}
    ensures r.1.images[image.uuid] == r.0
    ensures forall k :: k in store.images && k != image.uuid ==> r.1.images[k] == store.images[k]
  {
    var first := image.(versions := [Images.Version(0, image.uuid)]);
    (first, ImageStore(store.images[image.uuid := first]))
  }

  /** Storing an image keeps the store keyed, and its next version is version 1. */
  lemma StoredImageVersions(store: ImageStore, image: Images.ImageModel)
    requires Keyed(store)
    ensures var (stored, s) := StoreImage(store, image);
      Keyed(s) && CreateNewVersion(image.uuid, s).0 == Images.Version(1, image.uuid) &&
      CreateNewVersion(image.uuid, s).1.images[image.uuid].versions ==
        [Images.Version(0, image.uuid), Images.Version(1, image.uuid)]
  {
  }

  /**
   * GetTag: the URI variable, or, when it is missing or empty, a 400 reply
   * "<tag> not found" and an error with the same text.
   */
  function GetTag<T>(tag: string, vars: map<string, string>): (r: (Result<string, string>, seq<Write<T>>))
    ensures r.0.Ok? <==> tag in vars && vars[tag] != ""
    ensures r.0.Ok? ==> r.0.value == vars[tag] && r.1 == []
    ensures r.0.Err? ==> r.0.error == tag + " not found" && r.1 == [HttpError(STATUS_BAD_REQUEST, tag + " not found")]
  {
    if tag !in vars || vars[tag] == "" then
      (Err(tag + " not found"), [HttpError(STATUS_BAD_REQUEST, tag + " not found")])
    else (Ok(vars[tag]), [])
  }

  /** GetName is GetTag on "name". */
  function GetName<T>(vars: map<string, string>): (r: (Result<string, string>, seq<Write<T>>))
    ensures r == GetTag("name", vars)
  {
    GetTag("name", vars)
  }

  /** ErrorWrite: the error is returned as it is, and a 500 reply with `msg` is written exactly when there is one. */
  function ErrorWrite<T>(err: Option<string>, msg: string): (r: (seq<Write<T>>, Option<string>))
    ensures r.1 == err
    ensures r.0 == [] <==> err.None?
    ensures err.Some? ==> Status(r.0) == STATUS_INTERNAL_SERVER_ERROR && r.0 == [HttpError(STATUS_INTERNAL_SERVER_ERROR, msg)]
  {
    if err.Some? then ([HttpError(STATUS_INTERNAL_SERVER_ERROR, msg)], err) else ([], err)
  }

  /**
   * CreateNewVersion: the image's last version plus one (a uint64, wrapping)
   * for the image's UUID, recorded in the store; when the image cannot be
   * fetched, the zero Version, an error and no change. An image without
   * versions makes the source index out of range, so it must have one.
   */
  function CreateNewVersion(uuid: string, store: ImageStore): (r: (Images.Version, ImageStore, Option<string>))
    requires uuid in store.images ==> |store.images[uuid].versions| > 0
    ensures uuid !in store.images ==>
      r == (Images.Version(0, ""), store, Some("cannot fetch image from database"))
    ensures uuid in store.images ==>
      var image := store.images[uuid];
      var last := image.versions[|image.versions| - 1].version;
      r.2.None? && r.0.imageModelUuid == image.uuid &&
      r.0.version == (if last == U64_MOD - 1 then 0 else last + 1) &&
      r.1 == RecordVersion(store, r.0)
  {
    match GetImageByUuid(store, uuid)
    case Err(_) => (Images.Version(0, ""), store, Some("cannot fetch image from database"))
    case Ok(image) =>
      var v := Images.Version((image.versions[|image.versions| - 1].version + 1) % U64_MOD, image.uuid);
      (v, RecordVersion(store, v), None)
  }

  /** In a keyed store a new version becomes the image's latest one and no other image changes. */
  lemma NewVersionIsLatest(uuid: string, store: ImageStore)
    requires Keyed(store) && uuid in store.images && |store.images[uuid].versions| > 0
    ensures var (v, s, _) := CreateNewVersion(uuid, store);
      Keyed(s) && uuid in s.images &&
      s.images[uuid].versions == store.images[uuid].versions + [v] &&
      forall k :: k in store.images && k != uuid ==> s.images[k] == store.images[k]
  {
  }
}
