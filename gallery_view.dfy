// The gallery screen: search and type filtering, multi-selection in edit mode,
// deleting the selection, and the per-artwork image loading and sharing.

module GalleryScreen {
  import opened Wrappers
  import opened Models
  import opened Storage
  import opened App

  /** `a` is `b` with some elements dropped and the rest kept in order. */
  predicate IsSubsequence<T(==)>(a: seq<T>, b: seq<T>)
    decreases |b|
  {
    if a == [] then true
    else if b == [] then false
    else if a[0] == b[0] then IsSubsequence(a[1..], b[1..])
    else IsSubsequence(a, b[1..])
  }

  /** Array.filter: the elements that satisfy `keep`, in their original order. */
  function Filter(works: seq<ArtWork>, keep: ArtWork -> bool): (r: seq<ArtWork>)
    ensures |r| <= |works|
    ensures forall w :: w in r <==> w in works && keep(w)
    ensures forall w :: multiset(r)[w] == if keep(w) then multiset(works)[w] else 0
    ensures (forall w :: w in works ==> keep(w)) ==> r == works
  {
    assert works != [] ==> works == [works[0]] + works[1..];
    if works == [] then []
    else if keep(works[0]) then [works[0]] + Filter(works[1..], keep)
    else Filter(works[1..], keep)
  }

  /** Filtering keeps the order of what it keeps. */
  lemma {:induction false} FilterIsSubsequence(works: seq<ArtWork>, keep: ArtWork -> bool)
    ensures IsSubsequence(Filter(works, keep), works)
  {
    if works != [] {
      FilterIsSubsequence(works[1..], keep);
      if !keep(works[0]) {
        SubsequenceOfTail(Filter(works[1..], keep), works);
      }
    }
  }

  /** Dropping the head of the longer sequence keeps a subsequence a subsequence. */
  lemma {:induction false} SubsequenceOfTail<T>(a: seq<T>, b: seq<T>)
    requires b != [] && IsSubsequence(a, b[1..])
    ensures IsSubsequence(a, b)
    decreases |b|, |a|
  {
    if a != [] && a[0] == b[0] {
      SubsequenceWeaken(a, b[1..]);
    }
  }

  /** A subsequence of `b` stays one after dropping its own head. */
  lemma {:induction false} SubsequenceWeaken<T>(a: seq<T>, b: seq<T>)
    requires a != [] && IsSubsequence(a, b)
    ensures IsSubsequence(a[1..], b)
    decreases |b|, |a|
  {
    if a[0] == b[0] {
      if a[1..] != [] {
        SubsequenceOfTail(a[1..], b);
      }
    } else {
      SubsequenceWeaken(a, b[1..]);
      if a[1..] != [] {
        SubsequenceOfTail(a[1..], b);
      }
    }
  }

  /** Filtering twice is filtering once by both conditions. */
  lemma {:induction false} FilterFilter(works: seq<ArtWork>, p: ArtWork -> bool, q: ArtWork -> bool)
    ensures Filter(Filter(works, p), q) == Filter(works, w => p(w) && q(w))
  {
    if works != [] {
      FilterFilter(works[1..], p, q);
    }
  }

  /** Filtering by two predicates that agree everywhere gives the same works. */
  lemma {:induction false} FilterExtensional(works: seq<ArtWork>, p: ArtWork -> bool, q: ArtWork -> bool)
    requires forall w :: p(w) == q(w)
    ensures Filter(works, p) == Filter(works, q)
  {
    if works != [] {
      FilterExtensional(works[1..], p, q);
    }
  }

  /** Whether a work passes the gallery's search and type filters. */
  predicate Shown(w: ArtWork, searchText: string, selectedFilter: Option<ArtWorkType>, contains: (string, string) -> bool)
  {
    && (searchText == "" || contains(w.title, searchText))
    && (selectedFilter.None? || w.workType == selectedFilter.value)
  }

  /** The works the gallery shows: those whose title contains the search text
      (`contains` is the platform's localised, case-insensitive containment),
      then those of the selected type. */
  function FilteredWorks(works: seq<ArtWork>, searchText: string, selectedFilter: Option<ArtWorkType>,
                         contains: (string, string) -> bool): (r: seq<ArtWork>)
    ensures IsSubsequence(r, works)
    ensures searchText == "" && selectedFilter.None? ==> r == works
    ensures selectedFilter.Some? ==> forall w :: w in r ==> w.workType == selectedFilter.value
    ensures forall w :: w in r <==> w in works && Shown(w, searchText, selectedFilter, contains)
    ensures forall w :: multiset(r)[w] == if Shown(w, searchText, selectedFilter, contains) then multiset(works)[w] else 0
  {
    var matchesSearch := (w: ArtWork) => searchText == "" || contains(w.title, searchText);
    var matchesType := (w: ArtWork) => selectedFilter.None? || w.workType == selectedFilter.value;
    var both := (w: ArtWork) => Shown(w, searchText, selectedFilter, contains);
    var searched := if searchText != "" then Filter(works, matchesSearch) else works;
    var typed := if selectedFilter.Some? then Filter(searched, matchesType) else searched;
    assert typed == Filter(works, both) by {
      if searchText != "" && selectedFilter.Some? {
        FilterFilter(works, matchesSearch, matchesType);
        FilterExtensional(works, w => matchesSearch(w) && matchesType(w), both);
      } else if searchText != "" {
        FilterExtensional(works, matchesSearch, both);
      } else if selectedFilter.Some? {
        FilterExtensional(works, matchesType, both);
      }
    }
    FilterIsSubsequence(works, both);
    typed
  }

  /** The works left after removing every work whose id is selected. */
  function Unselected(works: seq<ArtWork>, selected: set<Uuid>): (r: seq<ArtWork>)
    ensures IsSubsequence(r, works)
    ensures forall w :: w in r <==> w in works && w.id !in selected
    ensures forall i :: 0 <= i < |r| ==> r[i].id !in selected
    ensures forall w :: multiset(r)[w] == if w.id in selected then 0 else multiset(works)[w]
  {
    FilterIsSubsequence(works, (w: ArtWork) => w.id !in selected);
    Filter(works, (w: ArtWork) => w.id !in selected)
  }

  /** A selection with `id` added when absent and removed when present. */
  function Toggled(selected: set<Uuid>, id: Uuid): (r: set<Uuid>)
    ensures id in r <==> id !in selected
    ensures forall x :: x != id ==> (x in r <==> x in selected)
  {
    if id in selected then selected - {id} else selected + {id}
  }

  /** Toggling the same artwork twice restores the selection. */
  lemma ToggleTwice(selected: set<Uuid>, id: Uuid)
    ensures Toggled(Toggled(selected, id), id) == selected
  {
  }

  class GalleryView {
    const appState: AppState
    const storage: StorageService
    /** String.localizedCaseInsensitiveContains. */
    const contains: (string, string) -> bool
    var searchText: string
    var selectedFilter: Option<ArtWorkType>
    var isEditMode: bool
    var selectedWorks: set<Uuid>

    constructor (appState: AppState, storage: StorageService, contains: (string, string) -> bool)
      ensures this.appState == appState && this.storage == storage && this.contains == contains
      ensures searchText == "" && selectedFilter == None && !isEditMode && selectedWorks == {}
    {
      this.appState := appState;
      this.storage := storage;
      this.contains := contains;
      searchText := "";
      selectedFilter := None;
      isEditMode := false;
      selectedWorks := {};
    }

    /** The `filteredArtworks` computed property: `FilteredWorks` applied to
        the user's works and this view's search text and type filter. */
    function ShownWorks(): seq<ArtWork>
      reads this, appState
    {
      FilteredWorks(appState.userWorks, searchText, selectedFilter, contains)
    }

    method ToggleSelection(artwork: ArtWork)
      modifies this`selectedWorks
      ensures selectedWorks == Toggled(old(selectedWorks), artwork.id)
    {
      if artwork.id in selectedWorks {
        selectedWorks := selectedWorks - {artwork.id};
      } else {
        selectedWorks := selectedWorks + {artwork.id};
      }
    }

    /** The toolbar's edit / done button: leaving edit mode clears the selection. */
    method ToggleEditMode()
      modifies this`isEditMode, this`selectedWorks
      ensures isEditMode == !old(isEditMode)
      ensures !isEditMode ==> selectedWorks == {}
      ensures isEditMode ==> selectedWorks == old(selectedWorks)
    {
      isEditMode := !isEditMode;
      if !isEditMode {
        selectedWorks := {};
      }
    }

    /** Removes the selected works, persists the list, clears the selection and
        leaves edit mode. */
    method DeleteSelectedWorks()
      modifies appState`userWorks, storage`defaults, this`selectedWorks, this`isEditMode
      ensures appState.userWorks == Unselected(old(appState.userWorks), old(selectedWorks))
      ensures storage.defaults == old(storage.defaults)[ArtworkDefaultsKey := ArtWorksData(EncodeAll(appState.userWorks))]
      ensures selectedWorks == {} && !isEditMode
    {
      appState.userWorks := Unselected(appState.userWorks, selectedWorks);
      storage.SaveArtWorks(appState.userWorks);
      selectedWorks := {};
      isEditMode := false;
    }
  }

  /** One cell of the gallery grid. */
  class ArtworkGridItem {
    const artwork: ArtWork
    const storage: StorageService
    var image: Option<UIImage>

    constructor (artwork: ArtWork, storage: StorageService)
      ensures this.artwork == artwork && this.storage == storage && image == None
    {
      this.artwork := artwork;
      this.storage := storage;
      image := None;
    }

    /** Shows the sketch, from the sketch directory, when the artwork has one,
        and otherwise the original from the original directory. */
    method LoadImage()
      modifies this`image
      ensures artwork.sketchImageUrl.Some? ==> image == storage.LoadImage(artwork.sketchImageUrl.value, ImageDirectory.Sketch)
      ensures artwork.sketchImageUrl.None? ==> image == storage.LoadImage(artwork.imageUrl, Original)
    {
      if artwork.sketchImageUrl.Some? {
        image := storage.LoadImage(artwork.sketchImageUrl.value, ImageDirectory.Sketch);
      } else {
        image := storage.LoadImage(artwork.imageUrl, Original);
      }
    }
  }

  /** The detail page of one artwork. */
  class ArtworkDetailView {
    const artwork: ArtWork
    const storage: StorageService
    var originalImage: Option<UIImage>
    var sketchImage: Option<UIImage>
    var shareImage: Option<UIImage>
    var showingShareSheet: bool

    constructor (artwork: ArtWork, storage: StorageService)
      ensures this.artwork == artwork && this.storage == storage
      ensures originalImage == None && sketchImage == None && shareImage == None && !showingShareSheet
    {
      this.artwork := artwork;
      this.storage := storage;
      originalImage := None;
      sketchImage := None;
      shareImage := None;
      showingShareSheet := false;
    }

    /** The image URL is looked up in the original directory, the sketch URL
        (when present) in the sketch directory. */
    method LoadImages()
      modifies this`originalImage, this`sketchImage
      ensures originalImage == storage.LoadImage(artwork.imageUrl, Original)
      ensures artwork.sketchImageUrl.Some? ==> sketchImage == storage.LoadImage(artwork.sketchImageUrl.value, ImageDirectory.Sketch)
      ensures artwork.sketchImageUrl.None? ==> sketchImage == old(sketchImage)
    {
      originalImage := storage.LoadImage(artwork.imageUrl, Original);
      if artwork.sketchImageUrl.Some? {
        sketchImage := storage.LoadImage(artwork.sketchImageUrl.value, ImageDirectory.Sketch);
      }
    }

    /** Composes the share image and opens the share sheet, only once both
        images are loaded. */
    method PrepareShareImage()
      modifies this`shareImage, this`showingShareSheet
      ensures originalImage.None? || sketchImage.None? ==>
        shareImage == old(shareImage) && showingShareSheet == old(showingShareSheet)
      ensures originalImage.Some? && sketchImage.Some? ==>
        shareImage == storage.CreateShareImage(originalImage.value, sketchImage.value) && showingShareSheet
    {
      if originalImage.None? || sketchImage.None? {
        return;
      }
      shareImage := storage.CreateShareImage(originalImage.value, sketchImage.value);
      showingShareSheet := true;
    }
  }
}
