/** Optional values: Swift's `T?`. */
module Optional {
  datatype Option<+T> = None | Some(value: T) {
    /** The value, or `default` when there is none (Swift's `??`). */
    function GetOr(default: T): T {
      match this
      case Some(v) => v
      case None => default
    }
  }
}

/** CoreGraphics value types, with `CGFloat` read as `real`. */
module Geometry {
  datatype Point = Point(x: real, y: real)
  datatype Size = Size(width: real, height: real)
  datatype Rect = Rect(origin: Point, size: Size)

  /** `CGRect.zero`. */
  const ZeroRect := Rect(Point(0.0, 0.0), Size(0.0, 0.0))
}

/** The state a UIKit gesture recognizer exposes to its action handler and
    that the handlers in this app write back. */
module Gestures {
  /** A pinch recognizer: the scale accumulated since it was last reset. */
  class PinchRecognizer {
    var scale: real

    constructor (scale: real)
      ensures this.scale == scale
    {
      this.scale := scale;
    }
  }

  /** A pan recognizer: the translation accumulated since it was last reset. */
  class PanRecognizer {
    var translationX: real
    var translationY: real

    constructor (x: real, y: real)
      ensures translationX == x && translationY == y
    {
      translationX, translationY := x, y;
    }
  }
}
