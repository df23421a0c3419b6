/**
 * Image setups (pkg/images/setup.go and pkg/model/images/setup.go, written the
 * same way over their own ImageModel and Version types): a named list of
 * images, each pinned to a version and flagged for upload. The two packages'
 * image and version types are the type parameters I and V.
 */
module Setups {
  import opened Wrappers

  /** ImageFrozen: an image pinned to a version; AddImage leaves the key fields at their zero values. */
  datatype ImageFrozen<I, V> = ImageFrozen(
    image: I,
    uuidImage: string,
    version: V,
    versionKey: nat,
    setupUuid: string,
    update: bool)

  /** Entry k is the first whose image is called `name`. */
  predicate FirstNamed<I, V>(images: seq<ImageFrozen<I, V>>, name: string, nameOf: I -> string, k: nat)
  {
    k < |images| && nameOf(images[k].image) == name && forall j :: 0 <= j < k ==> nameOf(images[j].image) != name
  }

  /** The first entry whose image is called `name`, as (image, version). */
  function FindByName<I, V>(images: seq<ImageFrozen<I, V>>, name: string, nameOf: I -> string): (r: Option<(I, V)>)
    ensures r.None? <==> forall k :: 0 <= k < |images| ==> nameOf(images[k].image) != name
    ensures r.Some? ==> exists k: nat :: FirstNamed(images, name, nameOf, k) && r.value == (images[k].image, images[k].version)
  {
    if |images| == 0 then None
    else if nameOf(images[0].image) == name then Some((images[0].image, images[0].version))
    else
      var r := FindByName(images[1..], name, nameOf);
      assert r.Some? ==> exists k: nat :: FirstNamed(images, name, nameOf, k) && r.value == (images[k].image, images[k].version) by {
        if r.Some? {
          var k: nat :| FirstNamed(images[1..], name, nameOf, k) && r.value == (images[1..][k].image, images[1..][k].version);
          assert forall j :: 1 <= j < k + 1 ==> images[j] == images[1..][j - 1];
          assert FirstNamed(images, name, nameOf, k + 1);
        }
      }
      r
  }

  class ImageSetup<I, V> {
    var name: string
    var images: seq<ImageFrozen<I, V>>
    var username: string
    var uuid: string

    /** CreateImageSetup(name): the name, an empty image list and every other field zero. */
    constructor CreateImageSetup(n: string)
      ensures name == n && images == [] && username == "" && uuid == ""
    {
      name, images, username, uuid := n, [], "", "";
    }

    /** AddImage: one entry with the image, the version and the update flag is appended. */
    method AddImage(image: I, version: V, update: bool)
      modifies this
      ensures images == old(images) + [ImageFrozen(image, "", version, 0, "", update)]
      ensures name == old(name) && username == old(username) && uuid == old(uuid)
    {
      images := images + [ImageFrozen(image, "", version, 0, "", update)];
    }

    /** AddFrozenImages: the given entries are appended in argument order. */
    method AddFrozenImages(frozen: seq<ImageFrozen<I, V>>)
      modifies this
      ensures images == old(images) + frozen
      ensures name == old(name) && username == old(username) && uuid == old(uuid)
    {
      images := images + frozen;
    }

    /** GetImageFromSetup: copies of the image and version of the first entry with that name, or nil. */
    method GetImageFromSetup(n: string, nameOf: I -> string) returns (r: Option<(I, V)>)
      ensures r == FindByName(images, n, nameOf)
    {
      var k := 0;
      while k < |images|
        invariant 0 <= k <= |images|
        invariant FindByName(images, n, nameOf) == FindByName(images[k..], n, nameOf)
      {
        var frozen := images[k];
        var image := frozen.image;
        if nameOf(image) == n {
          return Some((image, frozen.version));
        }
        assert images[k..][1..] == images[k + 1..];
        k := k + 1;
      }
      return None;
    }
  }

  /** Looking up the name of an image just added finds it unless an earlier entry has that name. */
  lemma {:induction false} FindAfterAdd<I, V>(images: seq<ImageFrozen<I, V>>, f: ImageFrozen<I, V>, nameOf: I -> string)
    requires forall k :: 0 <= k < |images| ==> nameOf(images[k].image) != nameOf(f.image)
    ensures FindByName(images + [f], nameOf(f.image), nameOf) == Some((f.image, f.version))
    decreases |images|
  {
    if |images| > 0 {
      assert (images + [f])[1..] == images[1..] + [f];
      FindAfterAdd(images[1..], f, nameOf);
    }
  }

  /** Appending never changes what an earlier match finds. */
  lemma {:induction false} FindKeepsEarlier<I, V>(images: seq<ImageFrozen<I, V>>, more: seq<ImageFrozen<I, V>>, name: string, nameOf: I -> string)
    requires FindByName(images, name, nameOf).Some?
    ensures FindByName(images + more, name, nameOf) == FindByName(images, name, nameOf)
    decreases |images|
  {
    if nameOf(images[0].image) != name {
      assert (images + more)[1..] == images[1..] + more;
      FindKeepsEarlier(images[1..], more, name, nameOf);
    }
  }
}
