# Camera app: gallery pagination, cell binding, camera control and viewer gestures

A Dafny model of the decision logic of an iOS camera and gallery app. The
app is mostly glue over the platform's camera, photo library, location and
UI frameworks. These are the parts with logic of their own:

- **Gallery loader** (`Gallery`, from `ViewController.swift`). The gallery
  pages through the photo library 32 assets at a time, guarded by a
  single-flight `isLoading` flag. Each load re-fetches the newest
  `32·(page+1)` assets and requests a thumbnail for each index of the page's
  window `[32·page, 32·(page+1))`. It appends an asset when its thumbnail
  arrives, and advances the page when the whole batch has finished.
  `reloadPhotos` empties the grid and goes back to page 0. Row 0 of the
  grid is the add-photo tile; row `r ≥ 1` shows `photos[r-1]`.
  - `GalleryController` is the controller as a class. Each method is proved
    equal to a step function over the `Loader` value (`AfterLoad`,
    `AfterThumbnail`, `AfterBatch`, `AfterReload`, `AfterAuthorization`).
    The properties are lemmas about those functions.
  - The asynchronous batch is a sequence of explicit events. Each issued
    request stays in the `pending` multiset until its completion arrives.
    Completions come in any order and carry a success flag. The dispatch
    group's notification is its own event, allowed once nothing is pending.
  - The `enumerateObjects` walk is the loop `IssueRequests`. It is proved
    against `WindowRequests`.
- **Photo cell** (`PhotoCells`, from `PhotoCell.swift`). A cell holds its
  image and the identifier of the asset it is bound to. `Configure` sets
  both and `PrepareForReuse` clears both. In the grid
  (`Gallery.ApplyThumbnail`), a thumbnail completion reaches the cell only
  if the cell still exists, an image came back and the cell is still bound
  to the requested asset.
- **Camera controller** (`CameraService`, from `CameraManager.swift`). It
  covers:
  - the front/rear switch and its failure paths;
  - zoom capped by the device maximum, with a pinch first kept in [1, 9];
  - the cached last location;
  - the QR handler's branches;
  - the compositor's branch and rectangle arithmetic.

  Device lookups, input acceptance and the configuration lock are boolean
  or optional inputs. The callbacks (`onZoomLevelChanged`,
  `onQRCodeDetected`, `onPhotoCaptured`) are logs the methods append to.
- **Fullscreen viewer** (`FullscreenViewer`, from `FullscreenPhotoVC.swift`).
  The view's transform is a full affine transform, updated with the
  platform's `scaledBy` and `translatedBy` formulas.
  - A pinch is applied only when the resulting scale stays in [1, 3].
  - A pan adds its translation, which the linear part scales, and then
    clamps each component to `±max(0, (scaled − screen)/2)`.
  - Both gestures reset the recognizer afterwards.
  - From the identity, any sequence of gestures leaves a uniform scale in
    [1, 3].

`CGFloat` is modelled as `real`. Five behaviours of the code worth noting:

- `setZoomLevel` applies no lower bound. Only the pinch path keeps the
  factor at 1 or more.
- The viewer rejects a pinch that would leave [1, 3]; it does not clamp it.
- A viewer pinch keeps the translation (`PinchKeepsScale`). After zooming
  out, the translation can exceed the smaller pan bound of the new scale:
  at scale 3 with `tx` equal to the image width, a pinch of 1/3 leaves the
  image off screen until the next pan clamps it.
- The loader appends assets in completion order, not in fetch order.
- A reload while a batch is in flight is dropped by the `isLoading` guard,
  but the grid and the page are still reset. When that batch's notification
  arrives the page becomes 1 (`ReloadDuringLoad`): the reload's own load of
  page 0 never happens. Unless the in-flight batch was page 0's, the newest
  page is missing from the grid until the next reload, and if the in-flight
  batch was page 1's, page 1 is loaded twice.

## Model

| member | source | states |
|---|---|---|
| Gallery.FetchAssets | Camera/ViewControllers/ViewController.swift:99-100 | the fetch is a prefix of the library of length min(limit, library size) |
| Gallery.WindowRequests | Camera/ViewControllers/ViewController.swift:109-118 | a load of page p requests exactly the fetched indices in [32p, 32(p+1)), each with its asset, once each and in increasing index order, at most 32 of them |
| Gallery.IncreasingIssuedOnce | Camera/ViewControllers/ViewController.swift:107-118 | requests issued in increasing index order each occur exactly once among the outstanding requests |
| Gallery.IssueRequests | Camera/ViewControllers/ViewController.swift:107-125 | the enumeration loop (skip earlier pages, stop past the page, request the rest) issues exactly the window's requests |
| Gallery.AfterLoad | Camera/ViewControllers/ViewController.swift:95-118 | while loading, a load changes nothing; otherwise it sets the guard and keeps photos and page, and it requests every library index of the current page's window exactly once and no other index, at most 32 |
| Gallery.AfterThumbnail | Camera/ViewControllers/ViewController.swift:118-124 | a completion retires one request and appends its asset exactly when an image came back; page and guard unchanged |
| Gallery.AfterBatch | Camera/ViewControllers/ViewController.swift:127-131 | the group notification advances the page by one and reopens the guard, photos unchanged |
| Gallery.AfterReload | Camera/ViewControllers/ViewController.swift:134-138 | when idle, a reload empties photos, resets the page to 0 and requests every library index of page 0 exactly once and no other, at most 32; while loading, only photos and page are reset |
| Gallery.AfterAuthorization | Camera/ViewControllers/ViewController.swift:84-88 | authorized or limited access loads; denied, restricted or not-determined leaves the state unchanged |
| Gallery.SuccessesBound | Camera/ViewControllers/ViewController.swift:118-124 | each completion answers one request and appends at most one asset |
| Gallery.ThumbnailsKeepPage | Camera/ViewControllers/ViewController.swift:118-124 | any completions leave page and guard alone and retire exactly the requests they answer |
| Gallery.ThumbnailsAppendSuccesses | Camera/ViewControllers/ViewController.swift:118-124 | completions only append to photos, one asset per success (none per failure), each the asset of an outstanding request |
| Gallery.LoadCycle | Camera/ViewControllers/ViewController.swift:95-131 | a whole load from idle advances the page by exactly 1 and reopens the guard however many requests failed; photos grow by the number of successes, at most 32 |
| Gallery.LoadAppendsWindowAssets | Camera/ViewControllers/ViewController.swift:99-124 | every asset a load appends is a library asset at an index of the loaded page's window |
| Gallery.WindowsDisjoint | Camera/ViewControllers/ViewController.swift:110-116 | loads of different pages request disjoint indices: a later page never re-requests an earlier page's index |
| Gallery.ReloadDuringLoad | Camera/ViewControllers/ViewController.swift:95-138 | a reload during a load is dropped by the guard; when the in-flight batch drains the page becomes 1 and photos hold only that batch's successes |
| Gallery.StepShape | Camera/ViewControllers/ViewController.swift:95-138 | every event keeps the single-flight invariant (nothing pending while idle, at most 32 pending); photos change only by one append or a reset to empty; the page only by +1 on notification or a reset to 0 |
| Gallery.RunKeepsInv | Camera/ViewControllers/ViewController.swift:95-131 | the single-flight invariant holds after any sequence of events |
| Gallery.ItemAt | Camera/ViewControllers/ViewController.swift:162-167 | a row shows the add-photo tile exactly when it is row 0 |
| Gallery.SelectionAt | Camera/ViewControllers/ViewController.swift:188-193 | tapping a row opens the camera exactly when it is row 0 |
| Gallery.GridRows | Camera/ViewControllers/ViewController.swift:157-193 | row 0 is the add tile; row i+1 shows photos[i] in bounds; tapping any other row opens the viewer on the asset that row shows |
| Gallery.ReloadShrinksGrid | Camera/ViewControllers/ViewController.swift:134-137 | right after a reload the grid has only the add tile, so every photo row counted before the reload is out of range |
| Gallery.ApplyThumbnail | Camera/ViewControllers/ViewController.swift:174-177 | a completion configures the cell exactly when an image came back and the cell is still bound to the requested asset; otherwise the cell is unchanged |
| Gallery.StaleThumbnailIgnored | Camera/ViewControllers/ViewController.swift:174-176 | after a cell is reused for another asset, the late thumbnail of the first asset is discarded and the new asset's thumbnail is shown |
| Gallery.GalleryController.constructor | Camera/ViewControllers/ViewController.swift:20-26 | no photos, page 0, not loading, nothing pending |
| Gallery.GalleryController.BeginLoad | Camera/ViewControllers/ViewController.swift:95-125 | the new state is AfterLoad of the old state |
| Gallery.GalleryController.ThumbnailDone | Camera/ViewControllers/ViewController.swift:119-124 | the new state is AfterThumbnail of the old state |
| Gallery.GalleryController.BatchFinished | Camera/ViewControllers/ViewController.swift:127-131 | the new state is AfterBatch of the old state |
| Gallery.GalleryController.ReloadPhotos | Camera/ViewControllers/ViewController.swift:134-138 | the new state is AfterReload of the old state |
| Gallery.GalleryController.AuthorizationResolved | Camera/ViewControllers/ViewController.swift:82-92 | the new state is AfterAuthorization of the old state |
| Gallery.GalleryController.CellForItemAt | Camera/ViewControllers/ViewController.swift:161-181 | row 0 yields the add tile and leaves the cell alone; another row binds the cell to photos[row-1] with a blank placeholder |
| PhotoCells.PhotoCell.constructor | Camera/Views/PhotoCell.swift:23-31 | a new cell has no image and no asset identifier |
| PhotoCells.PhotoCell.Configure | Camera/Views/PhotoCell.swift:49-52 | afterwards the identifier is the given one and the image the given image, whatever was bound before |
| PhotoCells.PhotoCell.PrepareForReuse | Camera/Views/PhotoCell.swift:54-58 | afterwards both image and identifier are nil |
| CameraService.ClampToDevice | Camera/CameraService/CameraManager.swift:216-217 | the applied zoom is at most the device maximum and at most the request, and equals one of them (no lower bound) |
| CameraService.PinchZoomTarget | Camera/CameraService/CameraManager.swift:230-234 | the pinch target is in [1, 9], equals zoom·scale when that is in range, else the nearer limit |
| CameraService.PinchZoomBounds | Camera/CameraService/CameraManager.swift:229-238 | the zoom a pinch stores is at most 9 and at most the device maximum, and at least 1 when the device maximum is |
| CameraService.Last | Camera/CameraService/CameraManager.swift:243-245 | the cached location is the last delivered one, nil exactly when none was delivered |
| CameraService.SwitchTarget | Camera/CameraService/CameraManager.swift:167-182 | a switch toggles the position; from rear it needs the front device and uses it, from front it needs the stored rear camera and uses it |
| CameraService.SwitchTwiceReturns | Camera/CameraService/CameraManager.swift:167-182 | with both cameras, two switches return to the rear position and the stored rear camera |
| CameraService.AddLogoAndLocation | Camera/CameraService/CameraManager.swift:121-154 | nil exactly when the logo is missing; otherwise a 120×120 logo inset 20 from the bottom-right corner, and a caption at x = 20 with its bottom 40 above the bottom edge exactly when a location is given |
| CameraService.ReadQR | Camera/CameraService/CameraManager.swift:289-295 | the handler reads only the first object: none, unreadable, or decoded with that object's string |
| CameraService.CameraManager.constructor | Camera/CameraService/CameraManager.swift:22-52 | initial position is rear and zoom 1.0, with no camera, location or input |
| CameraService.CameraManager.SetupCamera | Camera/CameraService/CameraManager.swift:56-101 | with a rear camera, the new session uses it and the QR frame view exists; without one, setup stops with the configuration open |
| CameraService.CameraManager.SwitchCamera | Camera/CameraService/CameraManager.swift:158-186 | without an input nothing but the open configuration changes; with a missing target the input is removed and position and camera stay; otherwise they toggle; the camera/position invariant is kept |
| CameraService.CameraManager.SetZoomLevel | Camera/CameraService/CameraManager.swift:208-226 | with a lockable camera the zoom becomes min(device max, factor) and is reported once; otherwise nothing changes |
| CameraService.CameraManager.HandlePinchGesture | Camera/CameraService/CameraManager.swift:228-239 | the zoom becomes the device-capped pinch target, at most 9 and the device maximum, and the gesture scale is reset to 1 |
| CameraService.CameraManager.DidUpdateLocations | Camera/CameraService/CameraManager.swift:243-245 | the cached location is Last of the delivered list |
| CameraService.CameraManager.DidFinishProcessingPhoto | Camera/CameraService/CameraManager.swift:255-278 | a decoded photo with the logo present is composited with the cached location, saved and reported once; otherwise nothing |
| CameraService.CameraManager.MetadataOutput | Camera/CameraService/CameraManager.swift:284-311 | a readable first object reports its string once and frames its bounds (zero if unmapped); an empty list or unreadable first object zeroes the frame and reports nothing |
| CameraService.CameraManager.QRHighlightExpired | Camera/CameraService/CameraManager.swift:305-307 | the delayed clear sets the highlight frame back to zero |
| FullscreenViewer.PanOffset | Camera/ViewControllers/FullscreenPhotoVC.swift:88-89 | the pan bound is non-negative, 0 when the scaled image fits the screen, else half the overhang |
| FullscreenViewer.ClampTranslation | Camera/ViewControllers/FullscreenPhotoVC.swift:95-98 | the clamped translation lies in [-o, o], equals the input when inside, else the nearer bound |
| FullscreenViewer.PinchKeepsScale | Camera/ViewControllers/FullscreenPhotoVC.swift:65-72 | from a uniform scale in [1, 3], a pinch leaves a uniform scale in [1, 3] and never moves the image; it scales by the gesture exactly when the result is in range, otherwise it keeps the transform |
| FullscreenViewer.PanWithinBounds | Camera/ViewControllers/FullscreenPhotoVC.swift:79-103 | after a pan tx ∈ [-xOffset, xOffset] and ty ∈ [-yOffset, yOffset], 0 on an axis where the scaled image fits, scale unchanged |
| FullscreenViewer.PanKeepsScreenCovered | Camera/ViewControllers/FullscreenPhotoVC.swift:84-98 | where the scaled image overhangs the screen, its edges stay beyond the screen's edges after a pan |
| FullscreenViewer.PanKeepsInBounds | Camera/ViewControllers/FullscreenPhotoVC.swift:95-98 | a translation already within bounds is kept exactly by an empty pan |
| FullscreenViewer.PanIdempotent | Camera/ViewControllers/FullscreenPhotoVC.swift:91-103 | an empty pan after any pan changes nothing |
| FullscreenViewer.GesturesKeepScale | Camera/ViewControllers/FullscreenPhotoVC.swift:62-105 | after any sequence of pinches and pans, a uniform scale in [1, 3] stays uniform and in [1, 3] |
| FullscreenViewer.FullscreenPhotoViewController.constructor | Camera/ViewControllers/FullscreenPhotoVC.swift:10-16 | the view starts at the identity transform |
| FullscreenViewer.FullscreenPhotoViewController.HandlePinch | Camera/ViewControllers/FullscreenPhotoVC.swift:62-73 | the transform becomes AfterPinch of the old one and the gesture scale is reset to 1 |
| FullscreenViewer.FullscreenPhotoViewController.HandlePan | Camera/ViewControllers/FullscreenPhotoVC.swift:76-105 | the transform becomes AfterPan of the old one, and the gesture translation is reset to zero |

## Left out

- Capture-session plumbing is not modelled: outputs, the metadata output's
  set-up, the preview layer's frame, `startRunning` on a background queue
  and `capturePhoto`. They are platform calls without decisions of their own.
  `SetupCamera` keeps only the rear-device branch and the QR frame view.
- `toggleTorch` is not modelled: device configuration whose only logic is a
  no-op guard.
- The device's own `videoZoomFactor` is not modelled separately. At the
  moment it is written it equals the stored `zoomFactor`.
- Compositing renders nothing. The caption's text formatting (`%.4f`, the
  date format), the font metrics (the text size is an input) and a nil
  image from the graphics context are not modelled.
- Vibration and writing to the photo album are not modelled. The 0.5 s
  delay of the QR highlight clear is not modelled either; the clear is the
  separate event `QRHighlightExpired`.
- Photo-library calls are replaced by inputs: the fetch is a prefix of an
  abstract asset sequence, and a thumbnail request's outcome is a flag.
  `requestFullSizeImage` and the presentation of the camera and viewer
  screens are reduced to the choice `SelectionAt` makes.
- The order of `photos` is not constrained. Appends follow completion
  order, which the code does not control.
- The single-flight guard is modelled as all events running one after
  another on the main thread. The authorization callback may in fact run
  on another queue.
- `[weak self]` and `[weak cell]` captures are not modelled, apart from the
  cell-alive flag of `AppliesThumbnail`. A completion after the controller
  is released is not modelled.
- The collection view's cached item count is not modelled. `ItemAt`,
  `SelectionAt` and `CellForItemAt` require `row < NumberOfItems(photos)`,
  so they leave out a crash the source can reach:
  - `reloadPhotos` empties `photos` but does not call `reloadData`, which
    runs only in the batch's notification.
  - Until that notification, the view still shows the old item count.
  - A cell request or a tap on any row above the current `photos.count`
    then indexes `photos[row - 1]` out of range, and the app crashes.

  `ReloadShrinksGrid` states that, right after the reload, every photo row
  counted before it is out of range.
- The fatal error for an unknown authorization status is not modelled. The
  status enumeration here is closed.
- The gesture handlers' `guard let view = gesture.view` is not modelled.
  The recognizers are always attached to the view.
- `private(set)` on `currentAssetIdentifier` has no Dafny counterpart. In
  this model only `PhotoCell`'s own methods assign the field.
- The `scrollViewDidScroll` threshold and the grid's item-size arithmetic
  are float layout geometry. Reaching the threshold is the `NearEnd` event.
- `CGFloat` NaN and rounding are not modelled.
- The location failure delegate is not modelled: it only logs.
- Other UI components are not modelled: `CameraVC.swift` (UI glue that
  delegates to the camera controller), `ZoomTransition.swift` (animation)
  and `AddPhotoCell.swift` (a static view).
