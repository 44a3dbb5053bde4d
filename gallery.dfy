/** The gallery page: collections fetched from the CMS, their photos
    flattened into one list, and the lightbox over that list. */
module Gallery {
  import opened Js
  import ImageModal

  datatype Photo = Photo(id: int, url: string)

  /** A collection's `Photos` property: missing (or another falsy value),
      present but not an array, or a list of photos. */
  datatype PhotosField = PhotosMissing | PhotosNotArray | PhotoList(items: seq<Photo>)

  datatype Collection = Collection(id: int, photos: PhotosField)

  /** The photos a collection contributes: its list, or none when `Photos`
      is missing or not an array. */
  function PhotosOf(c: Collection): (r: seq<Photo>)
    ensures c.photos.PhotoList? ==> r == c.photos.items
    ensures !c.photos.PhotoList? ==> r == []
  {
    if c.photos.PhotoList? then c.photos.items else []
  }

  /** All photos, collection after collection, each collection's in its own order. */
  function Flatten(collections: seq<Collection>): seq<Photo> {
    if collections == [] then []
    else Flatten(collections[..|collections| - 1]) + PhotosOf(collections[|collections| - 1])
  }

  /** The number of photos in the valid lists. */
  function PhotoCount(collections: seq<Collection>): nat {
    if collections == [] then 0 else |PhotosOf(collections[0])| + PhotoCount(collections[1..])
  }

  /** Flattening a concatenation flattens each part. */
  lemma {:induction false} FlattenAppend(a: seq<Collection>, b: seq<Collection>)
    ensures Flatten(a + b) == Flatten(a) + Flatten(b)
    decreases |b|
  {
    if b == [] {
      assert a + b == a;
    } else {
      var last := |b| - 1;
      assert (a + b)[..|a + b| - 1] == a + b[..last];
      assert (a + b)[|a + b| - 1] == b[last];
      FlattenAppend(a, b[..last]);
    }
  }

  /** The flattened list has as many photos as the valid lists hold together. */
  lemma {:induction false} FlattenLength(collections: seq<Collection>)
    ensures |Flatten(collections)| == PhotoCount(collections)
  {
    if collections != [] {
      assert collections == [collections[0]] + collections[1..];
      FlattenAppend([collections[0]], collections[1..]);
      assert Flatten([collections[0]]) == Flatten([]) + PhotosOf(collections[0]);
      FlattenLength(collections[1..]);
    }
  }

  /** A photo is in the flattened list exactly when some collection's valid list has it. */
  lemma {:induction false} FlattenMembership(collections: seq<Collection>, p: Photo)
    ensures p in Flatten(collections) <==> exists k :: 0 <= k < |collections| && p in PhotosOf(collections[k])
  {
    if collections != [] {
      var init := collections[..|collections| - 1];
      FlattenMembership(init, p);
      assert forall k :: 0 <= k < |init| ==> init[k] == collections[k];
    }
  }

  /** The `forEach` in `fetchGalleries` that pushes each valid list's photos. */
  method FlattenPhotos(collections: seq<Collection>) returns (photos: seq<Photo>)
    ensures photos == Flatten(collections)
  {
    photos := [];
    var i := 0;
    while i < |collections|
      invariant 0 <= i <= |collections|
      invariant photos == Flatten(collections[..i])
    {
      var c := collections[i];
      if c.photos.PhotoList? {
        photos := photos + c.photos.items;
      }
      assert collections[..i + 1][..i] == collections[..i];
      i := i + 1;
    }
    assert collections[..i] == collections;
  }

  /** What the page's content area shows. */
  datatype View = Skeletons | ErrorView(message: string) | EmptyState
                | Grid(photoCount: nat, collectionCount: nat, photos: seq<Photo>)

  const FetchFailed := "Failed to fetch galleries"
  const UnknownFailure := "An error occurred"

  class GalleryPage {
    var galleries: seq<Collection>
    var allPhotos: seq<Photo>
    var isLoading: bool
    var error: Option<string>
    var isModalOpen: bool
    var currentImageIndex: int

    constructor ()
      ensures galleries == [] && allPhotos == [] && isLoading && error == None
      ensures !isModalOpen && currentImageIndex == 0
    {
      galleries := [];
      allPhotos := [];
      isLoading := true;
      error := None;
      isModalOpen := false;
      currentImageIndex := 0;
    }

    /** The fetch effect: an ok answer stores its `data` list (none gives no
      collections) and the flattened photos; a failure keeps both and
      records the message. Loading ends either way. */
    method LoadGalleries(outcome: ListFetch<Collection>)
      modifies this
      ensures !isLoading
      ensures outcome.ListOk? ==>
                error == None
                && galleries == (if outcome.data.Some? then outcome.data.value else [])
                && allPhotos == Flatten(galleries)
      ensures outcome.ListNotOk? ==>
                error == Some(FetchFailed) && galleries == old(galleries) && allPhotos == old(allPhotos)
      ensures outcome.ListThrew? ==>
                error == Some(MessageOr(outcome.e, UnknownFailure))
                && galleries == old(galleries) && allPhotos == old(allPhotos)
      ensures isModalOpen == old(isModalOpen) && currentImageIndex == old(currentImageIndex)
    {
      isLoading := true;
      error := None;
      match outcome {
        case ListNotOk =>
          error := Some(FetchFailed);
        case ListThrew(e) =>
          error := Some(MessageOr(e, UnknownFailure));
        case ListOk(data) =>
          var collections := if data.Some? then data.value else [];
          galleries := collections;
          var photos := FlattenPhotos(collections);
          allPhotos := photos;
      }
      isLoading := false;
    }

    /** `handleImageClick`. */
    method ImageClick(index: int)
      modifies this
      ensures currentImageIndex == index && isModalOpen
      ensures galleries == old(galleries) && allPhotos == old(allPhotos)
      ensures isLoading == old(isLoading) && error == old(error)
    {
      currentImageIndex := index;
      isModalOpen := true;
    }

    /** `handleCloseModal`: the index is kept. */
    method CloseModal()
      modifies this
      ensures !isModalOpen && currentImageIndex == old(currentImageIndex)
      ensures galleries == old(galleries) && allPhotos == old(allPhotos)
      ensures isLoading == old(isLoading) && error == old(error)
    {
      isModalOpen := false;
    }

    /** `handleNavigate`: only the index changes. */
    method Navigate(newIndex: int)
      modifies this
      ensures currentImageIndex == newIndex && isModalOpen == old(isModalOpen)
      ensures galleries == old(galleries) && allPhotos == old(allPhotos)
      ensures isLoading == old(isLoading) && error == old(error)
    {
      currentImageIndex := newIndex;
    }

    /** A key press while the lightbox is open, routed through the modal's
      handler to `handleCloseModal` or `handleNavigate`; with the lightbox
      closed no handler is listening. A valid index stays valid. */
    method KeyPressed(key: string)
      modifies this
      ensures !old(isModalOpen) ==> unchanged(this)
      ensures old(isModalOpen) ==>
        match ImageModal.KeyPress(key, old(currentImageIndex), |allPhotos|)
        case Close => !isModalOpen && currentImageIndex == old(currentImageIndex)
        case Navigate(i) => isModalOpen && currentImageIndex == i
        case Ignore => isModalOpen && currentImageIndex == old(currentImageIndex)
      ensures 0 <= old(currentImageIndex) < |allPhotos| ==> 0 <= currentImageIndex < |allPhotos|
      ensures galleries == old(galleries) && allPhotos == old(allPhotos)
      ensures isLoading == old(isLoading) && error == old(error)
    {
      if isModalOpen {
        var action := ImageModal.KeyPress(key, currentImageIndex, |allPhotos|);
        if 0 <= currentImageIndex < |allPhotos| {
          ImageModal.KeyPressKeepsIndex(key, currentImageIndex, |allPhotos|);
        }
        match action {
          case Close => CloseModal();
          case Navigate(i) => Navigate(i);
          case Ignore =>
        }
      }
    }

    /** The content area: skeletons while loading, then the error when its
      text is truthy (an empty message is not shown), then the empty state
      when there are no photos, else the photo grid with the photo and
      collection counts. */
    function Content(): (v: View)
      reads this
      ensures v.ErrorView? <==> !isLoading && TruthyText(error)
      ensures v.ErrorView? ==> v == ErrorView(error.value)
      ensures v == EmptyState <==> !isLoading && !TruthyText(error) && |allPhotos| == 0
      ensures v.Grid? ==> v.photoCount == |allPhotos| && v.collectionCount == |galleries| && v.photos == allPhotos
      ensures v.Grid? <==> !isLoading && !TruthyText(error) && |allPhotos| > 0
    {
      if isLoading then Skeletons
      else if TruthyText(error) then ErrorView(error.value)
      else if |allPhotos| == 0 then EmptyState
      else Grid(|allPhotos|, |galleries|, allPhotos)
    }
  }
}
