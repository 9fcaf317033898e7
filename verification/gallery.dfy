/** The gallery grid controller (`ViewController.swift`): it pages through the
    photo library 32 assets at a time, keeps the assets whose thumbnails
    loaded, resets when the screen reappears, and maps grid rows to assets.

    The platform is replaced by inputs. A fetch is the library (newest first)
    cut to the fetch limit. Every thumbnail request the loader issues is an
    outstanding `Request` until its completion arrives, with a success flag;
    completions arrive in any order. The dispatch group's notification is a
    separate event, allowed once no request of the batch is outstanding. */
module Gallery {
  import opened Optional
  import opened PhotoCells

  /** `imagesPerPage`. */
  const ImagesPerPage: nat := 32

  /** A photo-library asset, known by its local identifier. */
  datatype Asset = Asset(localIdentifier: string)

  /** A thumbnail request: the fetch index it was issued for and the asset. */
  datatype Request = Request(index: nat, asset: Asset)

  datatype AuthorizationStatus = Authorized | Limited | Denied | Restricted | NotDetermined

  function Min(a: nat, b: nat): nat { if a <= b then a else b }

  /** Fetch index `i` belongs to page `page`. */
  predicate InWindow(i: nat, page: nat) {
    ImagesPerPage * page <= i < ImagesPerPage * (page + 1)
  }

  /** `fetchOptions.fetchLimit` for a load of page `page`. */
  function FetchLimit(page: nat): nat { ImagesPerPage * (page + 1) }

  /** `PHAsset.fetchAssets` under a fetch limit: the newest `limit` assets. */
  function FetchAssets(library: seq<Asset>, limit: nat): (fetched: seq<Asset>)
    ensures fetched <= library
    ensures |fetched| == Min(limit, |library|)
  {
    library[..Min(limit, |library|)]
  }

  /** The requests for the fetch indices in [lo, hi) that `fetched` has, in
      index order. */
  function Span(fetched: seq<Asset>, lo: nat, hi: nat): (rs: seq<Request>)
    ensures |rs| == if lo < Min(hi, |fetched|) then Min(hi, |fetched|) - lo else 0
    ensures forall i :: 0 <= i < |rs| ==> lo + i < Min(hi, |fetched|) && rs[i] == Request(lo + i, fetched[lo + i])
  {
    var n := if lo < Min(hi, |fetched|) then Min(hi, |fetched|) - lo else 0;
    seq(n, i requires 0 <= i < n => Request(lo + i, fetched[lo + i]))
  }

  /** The thumbnail requests a load of page `page` issues over the fetch
      result `fetched`: exactly one for every index of the page's window that
      the fetch result has, and none for any other index. */
  function WindowRequests(fetched: seq<Asset>, page: nat): (rs: seq<Request>)
    ensures |rs| <= ImagesPerPage
    ensures forall r :: r in rs ==> InWindow(r.index, page) && r.index < |fetched| && r.asset == fetched[r.index]
    ensures forall j: nat :: InWindow(j, page) && j < |fetched| ==> Request(j, fetched[j]) in rs
    ensures forall i, j :: 0 <= i < j < |rs| ==> rs[i].index < rs[j].index
  {
    var lo := ImagesPerPage * page;
    var rs := Span(fetched, lo, ImagesPerPage * (page + 1));
    assert forall j: nat :: InWindow(j, page) && j < |fetched| ==> rs[j - lo] == Request(j, fetched[j]);
    rs
  }

  /** The `enumerateObjects` walk of `loadPhotos`: indices of earlier pages
      are skipped, the walk stops at the first index past the page, and every
      index in between gets one thumbnail request. */
  method IssueRequests(fetched: seq<Asset>, page: nat) returns (rs: seq<Request>)
    ensures rs == WindowRequests(fetched, page)
  {
    var lo, hi := ImagesPerPage * page, ImagesPerPage * (page + 1);
    rs := [];
    var index := 0;
    while index < |fetched|
      invariant index <= |fetched| && index <= hi
      invariant rs == Span(fetched, lo, Min(index, hi))
    {
      if index < lo {
        index := index + 1;
        continue;
      }
      if index >= hi {
        break;
      }
      rs := rs + [Request(index, fetched[index])];
      index := index + 1;
    }
  }

  /** Requests issued in strictly increasing index order are each issued
      once: every one of them occurs exactly once in the multiset. */
  lemma {:induction false} IncreasingIssuedOnce(rs: seq<Request>)
    requires forall i, j :: 0 <= i < j < |rs| ==> rs[i].index < rs[j].index
    ensures forall r :: r in multiset(rs) ==> multiset(rs)[r] == 1
    decreases |rs|
  {
    if rs != [] {
      IncreasingIssuedOnce(rs[1..]);
      assert rs == [rs[0]] + rs[1..];
      assert rs[0] !in rs[1..] by {
        forall k | 0 <= k < |rs[1..]| ensures rs[1..][k] != rs[0] {
          assert rs[1..][k] == rs[k + 1];
        }
      }
    }
  }

  /** What the loader keeps: the grid's assets, the next page to load, the
      single-flight flag and the thumbnail requests still outstanding. */
  datatype Loader = Loader(photos: seq<Asset>, currentPage: nat, isLoading: bool, pending: multiset<Request>)

  const Initial := Loader([], 0, false, multiset{})

  /** `loadPhotos` up to the point where all its requests are issued. While a
      load is in flight it changes nothing. Otherwise it requests exactly the
      library indices of the current page's window, and nothing else. */
  function AfterLoad(s: Loader, library: seq<Asset>): (t: Loader)
    ensures s.isLoading ==> t == s
    ensures !s.isLoading ==> t.isLoading && t.photos == s.photos && t.currentPage == s.currentPage
    ensures !s.isLoading ==> |t.pending| <= ImagesPerPage
    ensures !s.isLoading ==> forall r :: r in t.pending ==>
              InWindow(r.index, s.currentPage) && r.index < |library| && r.asset == library[r.index]
    ensures !s.isLoading ==> forall j: nat :: InWindow(j, s.currentPage) && j < |library| ==> Request(j, library[j]) in t.pending
    ensures forall r :: r in t.pending && !s.isLoading ==> t.pending[r] == 1
  {
    if s.isLoading then s
    else
      var fetched := FetchAssets(library, FetchLimit(s.currentPage));
      var rs := WindowRequests(fetched, s.currentPage);
      IncreasingIssuedOnce(rs);
      s.(isLoading := true, pending := multiset(rs))
  }

  /** The completion of one outstanding request: the asset is appended when
      an image came back, and the request is no longer outstanding. */
  function AfterThumbnail(s: Loader, r: Request, ok: bool): (t: Loader)
    requires r in s.pending
    ensures |t.pending| == |s.pending| - 1
    ensures t.photos == if ok then s.photos + [r.asset] else s.photos
    ensures t.currentPage == s.currentPage && t.isLoading == s.isLoading
  {
    s.(photos := if ok then s.photos + [r.asset] else s.photos, pending := s.pending - multiset{r})
  }

  /** The dispatch group's notification, once the batch has drained: the
      page advances and the guard reopens. */
  function AfterBatch(s: Loader): (t: Loader)
    requires s.isLoading && s.pending == multiset{}
    ensures t.currentPage == s.currentPage + 1 && !t.isLoading
    ensures t.photos == s.photos && t.pending == multiset{}
  {
    s.(currentPage := s.currentPage + 1, isLoading := false)
  }

  /** `reloadPhotos`: empty the grid, go back to page 0, then load. */
  function AfterReload(s: Loader, library: seq<Asset>): (t: Loader)
    ensures !s.isLoading ==> t.photos == [] && t.currentPage == 0 && t.isLoading
    ensures !s.isLoading ==> forall r :: r in t.pending ==> r.index < ImagesPerPage && r.index < |library| && r.asset == library[r.index]
    ensures !s.isLoading ==> forall j: nat :: j < ImagesPerPage && j < |library| ==> Request(j, library[j]) in t.pending
    ensures !s.isLoading ==> |t.pending| <= ImagesPerPage
    ensures forall r :: r in t.pending && !s.isLoading ==> t.pending[r] == 1
    ensures s.isLoading ==> t == s.(photos := [], currentPage := 0)
  {
    AfterLoad(s.(photos := [], currentPage := 0), library)
  }

  /** The photo-library authorization callback: only full or limited access
      starts a load. */
  function AfterAuthorization(s: Loader, status: AuthorizationStatus, library: seq<Asset>): (t: Loader)
    ensures status == Authorized || status == Limited ==> t == AfterLoad(s, library)
    ensures status == Denied || status == Restricted || status == NotDetermined ==> t == s
  {
    match status
    case Authorized | Limited => AfterLoad(s, library)
    case Denied | Restricted | NotDetermined => s
  }

  // ---------------------------------------------------------------------------
  // A batch of completions

  datatype Completion = Completion(request: Request, ok: bool)

  /** The requests a sequence of completions answers. */
  function Answered(evs: seq<Completion>): multiset<Request> {
    if evs == [] then multiset{} else multiset{evs[0].request} + Answered(evs[1..])
  }

  /** How many of the completions brought an image. */
  function Successes(evs: seq<Completion>): nat {
    if evs == [] then 0 else (if evs[0].ok then 1 else 0) + Successes(evs[1..])
  }

  /** The completions in `evs`, each answering a distinct outstanding request. */
  function AfterThumbnails(s: Loader, evs: seq<Completion>): Loader
    requires Answered(evs) <= s.pending
    decreases |evs|
  {
    if evs == [] then s
    else
      var s1 := AfterThumbnail(s, evs[0].request, evs[0].ok);
      assert Answered(evs[1..]) <= s1.pending;
      AfterThumbnails(s1, evs[1..])
  }

  lemma {:induction false} SuccessesBound(evs: seq<Completion>)
    ensures Successes(evs) <= |evs| == |Answered(evs)|
  {
    if evs != [] {
      SuccessesBound(evs[1..]);
    }
  }

  /** `x` is the asset of one of the requests `rs`. */
  predicate RequestedAsset(x: Asset, rs: multiset<Request>) {
    exists r :: r in rs && r.asset == x
  }

  /** Completions leave the page and the guard alone, and each one retires
      the request it answers. */
  lemma {:induction false} ThumbnailsKeepPage(s: Loader, evs: seq<Completion>)
    requires Answered(evs) <= s.pending
    ensures AfterThumbnails(s, evs).currentPage == s.currentPage
    ensures AfterThumbnails(s, evs).isLoading == s.isLoading
    ensures AfterThumbnails(s, evs).pending == s.pending - Answered(evs)
    decreases |evs|
  {
    if evs != [] {
      var e, rest := evs[0], evs[1..];
      var s1 := AfterThumbnail(s, e.request, e.ok);
      assert Answered(evs) == multiset{e.request} + Answered(rest);
      assert Answered(rest) <= s1.pending;
      ThumbnailsKeepPage(s1, rest);
    }
  }

  /** Completions only append: one asset per successful completion, each the
      asset of a request that was outstanding, and a failed request appends
      nothing. */
  lemma {:induction false} ThumbnailsAppendSuccesses(s: Loader, evs: seq<Completion>)
    requires Answered(evs) <= s.pending
    ensures s.photos <= AfterThumbnails(s, evs).photos
    ensures |AfterThumbnails(s, evs).photos| == |s.photos| + Successes(evs)
    ensures forall k :: |s.photos| <= k < |AfterThumbnails(s, evs).photos| ==>
              RequestedAsset(AfterThumbnails(s, evs).photos[k], s.pending)
    decreases |evs|
  {
    if evs != [] {
      var e, rest := evs[0], evs[1..];
      var s1 := AfterThumbnail(s, e.request, e.ok);
      assert Answered(rest) <= s1.pending by {
        assert Answered(evs) == multiset{e.request} + Answered(rest);
      }
      ThumbnailsAppendSuccesses(s1, rest);
      var t := AfterThumbnails(s1, rest);
      assert t == AfterThumbnails(s, evs);
      forall k | |s.photos| <= k < |t.photos|
        ensures RequestedAsset(t.photos[k], s.pending)
      {
        if k < |s1.photos| {
          assert t.photos[k] == s1.photos[k] == e.request.asset;
        } else {
          var r :| r in s1.pending && r.asset == t.photos[k];
          assert r in s.pending;
        }
      }
    }
  }

  /** One whole load: from an idle loader, every request of the batch
      completes and the group notifies. The page advances by exactly one and
      the guard reopens however many requests failed; the grid grows by one
      asset per success, at most a page's worth. */
  lemma LoadCycle(s: Loader, library: seq<Asset>, evs: seq<Completion>)
    requires !s.isLoading
    requires Answered(evs) == AfterLoad(s, library).pending
    ensures AfterThumbnails(AfterLoad(s, library), evs).isLoading
    ensures AfterThumbnails(AfterLoad(s, library), evs).pending == multiset{}
    ensures AfterBatch(AfterThumbnails(AfterLoad(s, library), evs)).currentPage == s.currentPage + 1
    ensures !AfterBatch(AfterThumbnails(AfterLoad(s, library), evs)).isLoading
    ensures s.photos <= AfterBatch(AfterThumbnails(AfterLoad(s, library), evs)).photos
    ensures |AfterBatch(AfterThumbnails(AfterLoad(s, library), evs)).photos| == |s.photos| + Successes(evs)
    ensures Successes(evs) <= ImagesPerPage
  {
    var t := AfterLoad(s, library);
    ThumbnailsKeepPage(t, evs);
    ThumbnailsAppendSuccesses(t, evs);
    SuccessesBound(evs);
  }

  /** Every asset a load appends is an asset of the loaded page's window of
      the library. */
  lemma LoadAppendsWindowAssets(s: Loader, library: seq<Asset>, evs: seq<Completion>)
    requires !s.isLoading
    requires Answered(evs) <= AfterLoad(s, library).pending
    ensures forall k :: |s.photos| <= k < |AfterThumbnails(AfterLoad(s, library), evs).photos| ==>
              exists i: nat :: InWindow(i, s.currentPage) && i < |library| &&
                library[i] == AfterThumbnails(AfterLoad(s, library), evs).photos[k]
  {
    var t := AfterLoad(s, library);
    ThumbnailsAppendSuccesses(t, evs);
    var u := AfterThumbnails(t, evs);
    forall k | |s.photos| <= k < |u.photos|
      ensures exists i: nat :: InWindow(i, s.currentPage) && i < |library| && library[i] == u.photos[k]
    {
      var r :| r in t.pending && r.asset == u.photos[k];
      assert InWindow(r.index, s.currentPage) && r.index < |library| && library[r.index] == u.photos[k];
    }
  }

  /** Two loads of different pages never request the same fetch index, so a
      page already loaded is never requested again by a later page's load. */
  lemma {:induction false} WindowsDisjoint(s1: Loader, lib1: seq<Asset>, s2: Loader, lib2: seq<Asset>)
    requires !s1.isLoading && !s2.isLoading && s1.currentPage < s2.currentPage
    ensures forall r1, r2 :: r1 in AfterLoad(s1, lib1).pending && r2 in AfterLoad(s2, lib2).pending ==> r1.index < r2.index
  {
    var p, q := s1.currentPage, s2.currentPage;
    assert ImagesPerPage * (p + 1) <= ImagesPerPage * q by {
      assert p + 1 <= q;
    }
  }

  /** A reload while a load is in flight: the reload's own load is dropped by
      the guard, and when the in-flight batch drains the page becomes 1, with
      the grid holding only assets of that earlier batch. */
  lemma ReloadDuringLoad(s: Loader, library: seq<Asset>, evs: seq<Completion>)
    requires s.isLoading
    requires Answered(evs) == s.pending
    ensures AfterThumbnails(AfterReload(s, library), evs).isLoading
    ensures AfterThumbnails(AfterReload(s, library), evs).pending == multiset{}
    ensures AfterBatch(AfterThumbnails(AfterReload(s, library), evs)).currentPage == 1
    ensures |AfterBatch(AfterThumbnails(AfterReload(s, library), evs)).photos| == Successes(evs)
    ensures forall k :: 0 <= k < |AfterBatch(AfterThumbnails(AfterReload(s, library), evs)).photos| ==>
              RequestedAsset(AfterBatch(AfterThumbnails(AfterReload(s, library), evs)).photos[k], s.pending)
  {
    var t := AfterReload(s, library);
    ThumbnailsKeepPage(t, evs);
    ThumbnailsAppendSuccesses(t, evs);
  }

  // ---------------------------------------------------------------------------
  // Events and the loader's invariant

  /** What can happen to the loader: the authorization callback, the screen
      appearing (`viewWillAppear` reloads), a scroll near the end of the grid
      (`scrollViewDidScroll` loads), a thumbnail completion, and the dispatch
      group's notification. */
  datatype Event =
    | AccessResolved(status: AuthorizationStatus, library: seq<Asset>)
    | Appeared(library: seq<Asset>)
    | NearEnd(library: seq<Asset>)
    | ThumbnailReturned(request: Request, ok: bool)
    | BatchNotified

  predicate Enabled(s: Loader, e: Event) {
    match e
    case ThumbnailReturned(r, _) => r in s.pending
    case BatchNotified => s.isLoading && s.pending == multiset{}
    case _ => true
  }

  function Step(s: Loader, e: Event): Loader
    requires Enabled(s, e)
  {
    match e
    case AccessResolved(status, library) => AfterAuthorization(s, status, library)
    case Appeared(library) => AfterReload(s, library)
    case NearEnd(library) => AfterLoad(s, library)
    case ThumbnailReturned(r, ok) => AfterThumbnail(s, r, ok)
    case BatchNotified => AfterBatch(s)
  }

  /** Single flight: no request is outstanding while the guard is open, so
      the requests of two batches never coexist and at most a page's worth
      is ever outstanding. */
  predicate Inv(s: Loader) {
    |s.pending| <= ImagesPerPage && (!s.isLoading ==> s.pending == multiset{})
  }

  predicate Runs(s: Loader, evs: seq<Event>)
    decreases |evs|
  {
    evs == [] || (Enabled(s, evs[0]) && Runs(Step(s, evs[0]), evs[1..]))
  }

  function Run(s: Loader, evs: seq<Event>): Loader
    requires Runs(s, evs)
    decreases |evs|
  {
    if evs == [] then s else Run(Step(s, evs[0]), evs[1..])
  }

  /** Each event keeps the invariant; the grid only grows by one asset or is
      emptied by a reload; the page only advances by one on the notification
      or returns to 0 on a reload. */
  lemma StepShape(s: Loader, e: Event)
    requires Inv(s) && Enabled(s, e)
    ensures Inv(Step(s, e))
    ensures var t := Step(s, e);
      (t.photos == s.photos || (e.ThumbnailReturned? && t.photos == s.photos + [e.request.asset])
        || (e.Appeared? && t.photos == []))
    ensures var t := Step(s, e);
      (t.currentPage == s.currentPage || (e.BatchNotified? && t.currentPage == s.currentPage + 1)
        || (e.Appeared? && t.currentPage == 0))
  {
  }

  /** The invariant holds after any run of events from the initial state. */
  lemma {:induction false} RunKeepsInv(s: Loader, evs: seq<Event>)
    requires Inv(s) && Runs(s, evs)
    ensures Inv(Run(s, evs))
    decreases |evs|
  {
    if evs != [] {
      StepShape(s, evs[0]);
      RunKeepsInv(Step(s, evs[0]), evs[1..]);
    }
  }

  // ---------------------------------------------------------------------------
  // The grid's data source and delegate

  /** What a grid row shows: the add-photo tile or an asset's thumbnail. */
  datatype GridItem = AddPhotoTile | PhotoTile(asset: Asset)

  /** What tapping a grid row does: open the camera or the fullscreen viewer. */
  datatype Selection = OpenCamera | OpenViewer(asset: Asset)

  /** `numberOfItemsInSection`: one tile per asset plus the add-photo tile. */
  function NumberOfItems(photos: seq<Asset>): nat {
    |photos| + 1
  }

  /** `cellForItemAt`'s choice of tile. */
  function ItemAt(photos: seq<Asset>, row: nat): (item: GridItem)
    requires row < NumberOfItems(photos)
    ensures item.AddPhotoTile? <==> row == 0
  {
    if row == 0 then AddPhotoTile else PhotoTile(photos[row - 1])
  }

  /** `didSelectItemAt`'s choice of screen. */
  function SelectionAt(photos: seq<Asset>, row: nat): (sel: Selection)
    requires row < NumberOfItems(photos)
    ensures sel.OpenCamera? <==> row == 0
  {
    if row == 0 then OpenCamera else OpenViewer(photos[row - 1])
  }

  /** Row 0 is always the add-photo tile; rows 1 .. |photos| show the assets
      in order, each in bounds; tapping a row opens the asset that row shows. */
  lemma GridRows(photos: seq<Asset>)
    ensures ItemAt(photos, 0) == AddPhotoTile && SelectionAt(photos, 0) == OpenCamera
    ensures forall i :: 0 <= i < |photos| ==> ItemAt(photos, i + 1) == PhotoTile(photos[i])
    ensures forall row :: 0 < row < NumberOfItems(photos) ==>
              ItemAt(photos, row).PhotoTile? && SelectionAt(photos, row) == OpenViewer(ItemAt(photos, row).asset)
  {
  }

  /** `reloadPhotos` empties the grid's assets without refreshing the
      collection view, which only happens in the batch's notification. Every
      photo row the view counted before the reload is, right after it, past
      the new item count, so `ItemAt` and `SelectionAt` exclude it; the
      source would index `photos` out of range for such a row. */
  lemma ReloadShrinksGrid(s: Loader, library: seq<Asset>, row: nat)
    requires 0 < row < NumberOfItems(s.photos)
    ensures NumberOfItems(AfterReload(s, library).photos) == 1
    ensures !(row < NumberOfItems(AfterReload(s, library).photos))
  {
  }

  // ---------------------------------------------------------------------------
  // Thumbnails of grid cells

  /** The guard of a grid cell's thumbnail completion: the cell still exists,
      an image came back, and the cell is still bound to the requested asset. */
  predicate AppliesThumbnail(cellAlive: bool, cellIdentifier: Option<string>, image: Option<Image>, requested: Asset) {
    cellAlive && image.Some? && cellIdentifier == Some(requested.localIdentifier)
  }

  /** The completion handler of a grid cell's thumbnail request. A result for
      an asset the cell is no longer bound to is discarded. */
  method ApplyThumbnail(cell: PhotoCell?, image: Option<Image>, asset: Asset)
    modifies cell
    ensures cell != null && AppliesThumbnail(true, old(cell.currentAssetIdentifier), image, asset) ==>
              cell.image == image && cell.currentAssetIdentifier == Some(asset.localIdentifier)
    ensures cell != null && !AppliesThumbnail(true, old(cell.currentAssetIdentifier), image, asset) ==>
              unchanged(cell)
  {
    if cell != null && image.Some? && cell.currentAssetIdentifier == Some(asset.localIdentifier) {
      cell.Configure(image.value, asset.localIdentifier);
    }
  }

  /** A cell bound to asset `a` and then reused for asset `b`: the late
      thumbnail of `a` is discarded, and the cell keeps showing `b`'s
      placeholder; `b`'s own thumbnail is then shown. */
  method StaleThumbnailIgnored(a: Asset, b: Asset, late: Image, own: Image)
    returns (afterLate: Option<Image>, afterOwn: Option<Image>, bound: Option<string>)
    requires a.localIdentifier != b.localIdentifier
    ensures afterLate == Some(Blank)
    ensures afterOwn == Some(own) && bound == Some(b.localIdentifier)
  {
    var cell := new PhotoCell();
    cell.Configure(Blank, a.localIdentifier);
    cell.PrepareForReuse();
    cell.Configure(Blank, b.localIdentifier);
    ApplyThumbnail(cell, Some(late), a);
    afterLate := cell.image;
    ApplyThumbnail(cell, Some(own), b);
    afterOwn, bound := cell.image, cell.currentAssetIdentifier;
  }

  // ---------------------------------------------------------------------------
  // The controller

  class GalleryController {
    var photos: seq<Asset>
    var currentPage: nat
    var isLoading: bool
    /** The outstanding thumbnail requests of the current batch. */
    var pending: multiset<Request>

    function State(): Loader
      reads this
    {
      Loader(photos, currentPage, isLoading, pending)
    }

    constructor ()
      ensures State() == Initial
    {
      photos, currentPage, isLoading, pending := [], 0, false, multiset{};
    }

    /** `loadPhotos`, up to the issuing of its thumbnail requests. */
    method BeginLoad(library: seq<Asset>)
      modifies this
      ensures State() == AfterLoad(old(State()), library)
    {
      if isLoading {
        return;
      }
      isLoading := true;
      var fetched := FetchAssets(library, FetchLimit(currentPage));
      var requests := IssueRequests(fetched, currentPage);
      pending := multiset(requests);
    }

    /** The completion of the outstanding request `request`. */
    method ThumbnailDone(request: Request, ok: bool)
      requires request in pending
      modifies this
      ensures State() == AfterThumbnail(old(State()), request, ok)
    {
      if ok {
        photos := photos + [request.asset];
      }
      pending := pending - multiset{request};
    }

    /** The dispatch group's notification. */
    method BatchFinished()
      requires isLoading && pending == multiset{}
      modifies this
      ensures State() == AfterBatch(old(State()))
    {
      currentPage := currentPage + 1;
      isLoading := false;
    }

    /** `reloadPhotos`. */
    method ReloadPhotos(library: seq<Asset>)
      modifies this
      ensures State() == AfterReload(old(State()), library)
    {
      photos := [];
      currentPage := 0;
      BeginLoad(library);
    }

    /** The `requestPhotoLibraryAccess` callback. */
    method AuthorizationResolved(status: AuthorizationStatus, library: seq<Asset>)
      modifies this
      ensures State() == AfterAuthorization(old(State()), status, library)
    {
      match status
      case Authorized | Limited =>
        BeginLoad(library);
      case Denied | Restricted | NotDetermined =>
    }

    /** `cellForItemAt`: row 0 is the add-photo tile; any other row binds the
        dequeued photo cell to its asset with a blank placeholder. */
    method CellForItemAt(row: nat, cell: PhotoCell) returns (item: GridItem)
      requires row < NumberOfItems(photos)
      modifies cell
      ensures item == ItemAt(photos, row)
      ensures row == 0 ==> unchanged(cell)
      ensures row > 0 ==> cell.image == Some(Blank) && cell.currentAssetIdentifier == Some(photos[row - 1].localIdentifier)
    {
      if row == 0 {
        item := AddPhotoTile;
      } else {
        var asset := photos[row - 1];
        cell.Configure(Blank, asset.localIdentifier);
        item := PhotoTile(asset);
      }
    }
  }
}
