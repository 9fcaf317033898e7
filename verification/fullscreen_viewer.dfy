/** The fullscreen photo viewer (`FullscreenPhotoVC.swift`): pinch zooms the
    view's transform within [1, 3], pan moves it within bounds that keep the
    scaled image over the screen.

    The view's transform is a full `CGAffineTransform`; the gestures only ever
    scale it uniformly and translate it, and the lemmas below show that it
    stays a uniform scale within [1, 3]. */
module FullscreenViewer {
  import opened Geometry
  import opened Gestures

  /** `CGAffineTransform`: a point (x, y) goes to
      (a·x + c·y + tx, b·x + d·y + ty). */
  datatype Affine = Affine(a: real, b: real, c: real, d: real, tx: real, ty: real)

  const Identity := Affine(1.0, 0.0, 0.0, 1.0, 0.0, 0.0)

  /** The scale range a pinch may reach. */
  const MinScale: real := 1.0
  const MaxScale: real := 3.0

  /** `scaledBy(x:y:)`: the scaling is applied before the transform, so the
      translation is untouched. */
  function ScaledBy(t: Affine, sx: real, sy: real): Affine {
    Affine(t.a * sx, t.b * sx, t.c * sy, t.d * sy, t.tx, t.ty)
  }

  /** `translatedBy(x:y:)`: the translation is applied before the transform,
      so it is itself transformed by the linear part. */
  function TranslatedBy(t: Affine, x: real, y: real): Affine {
    Affine(t.a, t.b, t.c, t.d, t.tx + t.a * x + t.c * y, t.ty + t.b * x + t.d * y)
  }

  /** The transform is a uniform scale by `a` plus a translation. */
  predicate UniformScale(t: Affine) {
    t.b == 0.0 && t.c == 0.0 && t.a == t.d
  }

  /** The scale `a` lies in the pinch range. */
  predicate ScaleInRange(t: Affine) {
    MinScale <= t.a <= MaxScale
  }

  /** `handlePinch`: the pinch is applied only when the resulting scale stays
      in [1, 3]; otherwise the transform is kept. */
  function AfterPinch(t: Affine, scale: real): Affine {
    if MinScale <= t.a * scale && t.a * scale <= MaxScale then ScaledBy(t, scale, scale) else t
  }

  /** How far a pan may move the image along one axis: half of what the
      scaled image overhangs the screen, and 0 when it does not overhang. */
  function PanOffset(scaledExtent: real, screenExtent: real): (o: real)
    ensures o >= 0.0
    ensures o >= (scaledExtent - screenExtent) / 2.0
    ensures scaledExtent <= screenExtent ==> o == 0.0
    ensures scaledExtent > screenExtent ==> o == (scaledExtent - screenExtent) / 2.0
  {
    var overhang := (scaledExtent - screenExtent) / 2.0;
    if 0.0 < overhang then overhang else 0.0
  }

  /** `max(-offset, min(offset, t))`: the nearest point of [-offset, offset]. */
  function ClampTranslation(offset: real, t: real): (r: real)
    requires offset >= 0.0
    ensures -offset <= r <= offset
    ensures -offset <= t <= offset ==> r == t
    ensures t < -offset ==> r == -offset
    ensures t > offset ==> r == offset
  {
    var atMost := if t < offset then t else offset;
    if atMost < -offset then -offset else atMost
  }

  /** `handlePan`: the gesture's translation is added, then each component
      of the translation is clamped to the bounds of the current scale. */
  function AfterPan(t: Affine, dx: real, dy: real, imageSize: Size, screenSize: Size): Affine {
    var moved := TranslatedBy(t, dx, dy);
    var xOffset := PanOffset(imageSize.width * t.a, screenSize.width);
    var yOffset := PanOffset(imageSize.height * t.a, screenSize.height);
    moved.(tx := ClampTranslation(xOffset, moved.tx), ty := ClampTranslation(yOffset, moved.ty))
  }

  /** A pinch keeps a uniform scale in [1, 3] uniform and in [1, 3], and
      never moves the image. */
  lemma PinchKeepsScale(t: Affine, scale: real)
    requires UniformScale(t) && ScaleInRange(t)
    ensures UniformScale(AfterPinch(t, scale)) && ScaleInRange(AfterPinch(t, scale))
    ensures AfterPinch(t, scale).tx == t.tx && AfterPinch(t, scale).ty == t.ty
    ensures MinScale <= t.a * scale <= MaxScale ==> AfterPinch(t, scale).a == t.a * scale
    ensures !(MinScale <= t.a * scale <= MaxScale) ==> AfterPinch(t, scale) == t
  {
  }

  /** After a pan each translation lies within its bounds; along an axis on
      which the scaled image does not overhang the screen it is 0. The pan
      leaves the scale alone. */
  lemma PanWithinBounds(t: Affine, dx: real, dy: real, imageSize: Size, screenSize: Size)
    ensures var r := AfterPan(t, dx, dy, imageSize, screenSize);
      var xOffset := PanOffset(imageSize.width * t.a, screenSize.width);
      var yOffset := PanOffset(imageSize.height * t.a, screenSize.height);
      -xOffset <= r.tx <= xOffset && -yOffset <= r.ty <= yOffset
      && (imageSize.width * t.a <= screenSize.width ==> r.tx == 0.0)
      && (imageSize.height * t.a <= screenSize.height ==> r.ty == 0.0)
      && r.a == t.a && r.b == t.b && r.c == t.c && r.d == t.d
  {
  }

  /** Where the scaled image overhangs the screen, the clamped translation
      keeps both of its edges beyond the screen's edges (the view scales
      about its centre), so no background shows on that axis. */
  lemma PanKeepsScreenCovered(t: Affine, dx: real, dy: real, imageSize: Size, screenSize: Size)
    requires imageSize.width * t.a >= screenSize.width
    ensures var r := AfterPan(t, dx, dy, imageSize, screenSize);
      r.tx - imageSize.width * t.a / 2.0 <= -screenSize.width / 2.0
      && r.tx + imageSize.width * t.a / 2.0 >= screenSize.width / 2.0
  {
    var r := AfterPan(t, dx, dy, imageSize, screenSize);
    var w := imageSize.width * t.a;
    var o := PanOffset(w, screenSize.width);
    assert -o <= r.tx <= o;
    assert o == (w - screenSize.width) / 2.0;
  }

  /** Translating by nothing keeps the transform. */
  lemma TranslatedByZero(t: Affine)
    ensures TranslatedBy(t, 0.0, 0.0) == t
  {
    assert t.a * 0.0 == 0.0 && t.b * 0.0 == 0.0 && t.c * 0.0 == 0.0 && t.d * 0.0 == 0.0;
  }

  /** The clamp is idempotent: a pan that adds nothing to a translation
      already within bounds keeps the transform exactly. */
  lemma PanKeepsInBounds(t: Affine, imageSize: Size, screenSize: Size)
    requires -PanOffset(imageSize.width * t.a, screenSize.width) <= t.tx <= PanOffset(imageSize.width * t.a, screenSize.width)
    requires -PanOffset(imageSize.height * t.a, screenSize.height) <= t.ty <= PanOffset(imageSize.height * t.a, screenSize.height)
    ensures AfterPan(t, 0.0, 0.0, imageSize, screenSize) == t
  {
    TranslatedByZero(t);
  }

  /** Hence a second, empty pan after any pan changes nothing. */
  lemma PanIdempotent(t: Affine, dx: real, dy: real, imageSize: Size, screenSize: Size)
    ensures AfterPan(AfterPan(t, dx, dy, imageSize, screenSize), 0.0, 0.0, imageSize, screenSize)
            == AfterPan(t, dx, dy, imageSize, screenSize)
  {
    var r := AfterPan(t, dx, dy, imageSize, screenSize);
    PanWithinBounds(t, dx, dy, imageSize, screenSize);
    PanKeepsInBounds(r, imageSize, screenSize);
  }

  /** A gesture on the viewer. */
  datatype Gesture =
    | Pinch(scale: real)
    | Pan(dx: real, dy: real, imageSize: Size, screenSize: Size)

  function AfterGestures(t: Affine, gs: seq<Gesture>): Affine
    decreases |gs|
  {
    if gs == [] then t
    else
      var next := match gs[0]
        case Pinch(s) => AfterPinch(t, s)
        case Pan(dx, dy, imageSize, screenSize) => AfterPan(t, dx, dy, imageSize, screenSize);
      AfterGestures(next, gs[1..])
  }

  /** Whatever gestures arrive, the viewer's transform stays a uniform scale
      in [1, 3] plus a translation, starting from the identity. */
  lemma {:induction false} GesturesKeepScale(t: Affine, gs: seq<Gesture>)
    requires UniformScale(t) && ScaleInRange(t)
    ensures UniformScale(AfterGestures(t, gs)) && ScaleInRange(AfterGestures(t, gs))
    decreases |gs|
  {
    if gs != [] {
      match gs[0]
      case Pinch(s) =>
        PinchKeepsScale(t, s);
        GesturesKeepScale(AfterPinch(t, s), gs[1..]);
      case Pan(dx, dy, imageSize, screenSize) =>
        PanWithinBounds(t, dx, dy, imageSize, screenSize);
        GesturesKeepScale(AfterPan(t, dx, dy, imageSize, screenSize), gs[1..]);
    }
  }

  class FullscreenPhotoViewController {
    /** The transform of the view the gestures are attached to. */
    var transform: Affine

    constructor ()
      ensures transform == Identity && UniformScale(transform) && ScaleInRange(transform)
    {
      transform := Identity;
    }

    /** `handlePinch`: apply the pinch if the new scale stays in range, then
        reset the gesture's scale. */
    method HandlePinch(gesture: PinchRecognizer)
      modifies this, gesture
      ensures transform == AfterPinch(old(transform), old(gesture.scale))
      ensures gesture.scale == 1.0
    {
      var currentScale := transform.a;
      var newScale := currentScale * gesture.scale;
      if newScale >= MinScale && newScale <= MaxScale {
        transform := ScaledBy(transform, gesture.scale, gesture.scale);
      }
      gesture.scale := 1.0;
    }

    /** `handlePan`, given the image view's and the view's bounds: translate,
        clamp, then reset the gesture's translation. */
    method HandlePan(gesture: PanRecognizer, imageBounds: Size, viewBounds: Size)
      modifies this, gesture
      ensures transform == AfterPan(old(transform), old(gesture.translationX), old(gesture.translationY), imageBounds, viewBounds)
      ensures gesture.translationX == 0.0 && gesture.translationY == 0.0
    {
      var newTransform := TranslatedBy(transform, gesture.translationX, gesture.translationY);
      var scale := transform.a;
      var xOffset := PanOffset(imageBounds.width * scale, viewBounds.width);
      var yOffset := PanOffset(imageBounds.height * scale, viewBounds.height);
      var newXTranslation := ClampTranslation(xOffset, newTransform.tx);
      var newYTranslation := ClampTranslation(yOffset, newTransform.ty);
      newTransform := newTransform.(tx := newXTranslation, ty := newYTranslation);
      transform := newTransform;
      gesture.translationX, gesture.translationY := 0.0, 0.0;
    }
  }
}
