/** The camera session controller (`CameraManager.swift`): which camera is
    active, the zoom factor, the last known location, the QR highlight and
    the compositing of a captured photo.

    The platform is replaced by inputs: whether a device was found, whether
    the session accepted an input, whether the device could be locked for
    configuration, the geometry the preview layer computes for a code, and
    the size of the rendered caption. Each callback the controller fires is
    recorded in a log field. */
module CameraService {
  import opened Optional
  import opened Geometry
  import opened Gestures

  datatype CameraPosition = Front | Rear

  /** A capture device: the side it faces and the largest zoom factor of its
      active format (`activeFormat.videoMaxZoomFactor`). */
  datatype Device = Device(position: CameraPosition, maxZoomFactor: real)

  datatype Location = Location(latitude: real, longitude: real, timestamp: int)

  /** The zoom limits `handlePinchGesture` applies before `setZoomLevel`. */
  const MinPinchZoom: real := 1.0
  const MaxPinchZoom: real := 9.0

  /** The zoom factor `setZoomLevel` applies: the requested factor, capped by
      the device maximum and by nothing else. */
  function ClampToDevice(maxZoomFactor: real, factor: real): (z: real)
    ensures z <= maxZoomFactor && z <= factor
    ensures z == maxZoomFactor || z == factor
  {
    if factor < maxZoomFactor then factor else maxZoomFactor
  }

  /** The factor a pinch asks for: the current zoom times the pinch scale,
      kept within [1, 9], and left alone when it already is. */
  function PinchZoomTarget(zoomFactor: real, scale: real): (z: real)
    ensures MinPinchZoom <= z <= MaxPinchZoom
    ensures MinPinchZoom <= zoomFactor * scale <= MaxPinchZoom ==> z == zoomFactor * scale
    ensures zoomFactor * scale < MinPinchZoom ==> z == MinPinchZoom
    ensures zoomFactor * scale > MaxPinchZoom ==> z == MaxPinchZoom
  {
    var raw := zoomFactor * scale;
    var atLeastMin := if raw < MinPinchZoom then MinPinchZoom else raw;
    if MaxPinchZoom < atLeastMin then MaxPinchZoom else atLeastMin
  }

  /** The zoom a pinch stores: never above 9 or the device maximum, and
      never below 1 unless the device maximum itself is. */
  lemma PinchZoomBounds(zoomFactor: real, scale: real, maxZoomFactor: real)
    ensures ClampToDevice(maxZoomFactor, PinchZoomTarget(zoomFactor, scale)) <= MaxPinchZoom
    ensures ClampToDevice(maxZoomFactor, PinchZoomTarget(zoomFactor, scale)) <= maxZoomFactor
    ensures MinPinchZoom <= maxZoomFactor ==> MinPinchZoom <= ClampToDevice(maxZoomFactor, PinchZoomTarget(zoomFactor, scale))
  {
  }

  /** `locations.last`. */
  function Last<T>(xs: seq<T>): (r: Option<T>)
    ensures r.None? <==> xs == []
    ensures r.Some? ==> r.value == xs[|xs| - 1]
  {
    if xs == [] then None else Some(xs[|xs| - 1])
  }

  /** The side and device `switchCamera` moves to: from the rear, the front
      device just looked up; from the front, the stored rear camera. `None`
      when that device is missing. */
  function SwitchTarget(position: CameraPosition, frontDevice: Option<Device>, rearCamera: Option<Device>): (r: Option<(CameraPosition, Device)>)
    ensures r.Some? ==> r.value.0 != position
    ensures position == Rear ==> (r.Some? <==> frontDevice.Some?) && (r.Some? ==> r.value.1 == frontDevice.value)
    ensures position == Front ==> (r.Some? <==> rearCamera.Some?) && (r.Some? ==> r.value.1 == rearCamera.value)
  {
    match position
    case Rear => if frontDevice.Some? then Some((Front, frontDevice.value)) else None
    case Front => if rearCamera.Some? then Some((Rear, rearCamera.value)) else None
  }

  /** Switching twice with both cameras present comes back to the rear camera. */
  lemma SwitchTwiceReturns(front: Device, front2: Option<Device>, rear: Device)
    ensures SwitchTarget(Rear, Some(front), Some(rear)) == Some((Front, front))
    ensures SwitchTarget(SwitchTarget(Rear, Some(front), Some(rear)).value.0, front2, Some(rear)) == Some((Rear, rear))
  {
  }

  // ---------------------------------------------------------------------------
  // The compositor

  /** The caption: the location it reports and the rectangle it is drawn in. */
  datatype Caption = Caption(location: Location, frame: Rect)

  /** What `addLogoAndLocation` draws: the photo over the whole canvas, the
      logo, and the caption when there is one. */
  datatype Composite = Composite(canvas: Size, photo: Rect, logo: Rect, caption: Option<Caption>)

  const LogoSide: real := 120.0
  const LogoInset: real := 20.0
  const CaptionLeft: real := 20.0
  const CaptionBottomInset: real := 40.0

  /** `addLogoAndLocation`, for a photo of size `image`, the cached location,
      whether the logo asset exists and the size the caption text renders at.
      Without the logo asset there is no result. Otherwise the 120×120 logo
      sits 20 points in from the bottom-right corner, and a caption, 20 points
      from the left edge and with its bottom 40 points above the bottom edge,
      is drawn exactly when a location is known. */
  function AddLogoAndLocation(image: Size, location: Option<Location>, logoAvailable: bool, textSize: Size): (r: Option<Composite>)
    ensures r.None? <==> !logoAvailable
    ensures r.Some? ==> r.value.canvas == image && r.value.photo == Rect(Point(0.0, 0.0), image)
    ensures r.Some? ==> r.value.logo.size == Size(LogoSide, LogoSide)
    ensures r.Some? ==> r.value.logo.origin.x + LogoSide + LogoInset == image.width
    ensures r.Some? ==> r.value.logo.origin.y + LogoSide + LogoInset == image.height
    ensures r.Some? ==> (r.value.caption.Some? <==> location.Some?)
    ensures r.Some? && r.value.caption.Some? ==>
              var c := r.value.caption.value;
              c.location == location.value && c.frame.origin.x == CaptionLeft && c.frame.size == textSize
              && c.frame.origin.y + textSize.height + CaptionBottomInset == image.height
  {
    if !logoAvailable then None
    else
      var logoOrigin := Point(image.width - LogoSide - LogoInset, image.height - LogoSide - LogoInset);
      var caption :=
        match location
        case None => None
        case Some(loc) =>
          Some(Caption(loc, Rect(Point(CaptionLeft, image.height - textSize.height - CaptionBottomInset), textSize)));
      Some(Composite(image, Rect(Point(0.0, 0.0), image), Rect(logoOrigin, Size(LogoSide, LogoSide)), caption))
  }

  // ---------------------------------------------------------------------------
  // QR codes

  /** A recognised metadata object: a machine-readable code, whose string
      may be unreadable, or some other kind. */
  datatype MetadataObject = MachineReadableCode(stringValue: Option<string>) | OtherMetadata

  /** How the QR handler reads a batch of metadata objects: by its first
      object only. */
  datatype QRReading = NoObject | Unreadable | Decoded(code: string)

  function ReadQR(objects: seq<MetadataObject>): (r: QRReading)
    ensures r.NoObject? <==> objects == []
    ensures r.Decoded? <==> objects != [] && objects[0].MachineReadableCode? && objects[0].stringValue.Some?
    ensures r.Decoded? ==> r.code == objects[0].stringValue.value
  {
    if objects == [] then NoObject
    else match objects[0]
      case MachineReadableCode(Some(code)) => Decoded(code)
      case _ => Unreadable
  }

  // ---------------------------------------------------------------------------
  // The controller

  class CameraManager {
    var currentCamera: Option<Device>
    var frontCamera: Option<Device>
    var rearCamera: Option<Device>
    var currentCameraPosition: CameraPosition
    var currentLocation: Option<Location>
    var zoomFactor: real
    /** The capture session's video input (`captureSession.inputs.first`). */
    var sessionInput: Option<Device>
    /** A session configuration was begun and not committed. */
    var configuring: bool
    /** The QR highlight view's frame; `None` while there is no such view. */
    var qrCodeFrame: Option<Rect>
    /** Every value passed to `onZoomLevelChanged`, oldest first. */
    var zoomReports: seq<real>
    /** Every string passed to `onQRCodeDetected`, oldest first. */
    var decodedCodes: seq<string>
    /** Every composited photo saved and passed to `onPhotoCaptured`. */
    var savedPhotos: seq<Composite>

    /** The active camera agrees with the recorded position. */
    predicate Valid()
      reads this
    {
      currentCamera.Some? ==>
        (currentCameraPosition == Rear ==> currentCamera == rearCamera) &&
        (currentCameraPosition == Front ==> currentCamera == frontCamera)
    }

    /** A new controller: rear position, zoom 1, no camera, no location. */
    constructor ()
      ensures Valid()
      ensures currentCameraPosition == Rear && zoomFactor == 1.0
      ensures currentCamera == None && frontCamera == None && rearCamera == None
      ensures currentLocation == None && sessionInput == None && !configuring && qrCodeFrame == None
      ensures zoomReports == [] && decodedCodes == [] && savedPhotos == []
    {
      currentCamera, frontCamera, rearCamera := None, None, None;
      currentCameraPosition := Rear;
      currentLocation := None;
      zoomFactor := 1.0;
      sessionInput := None;
      configuring := false;
      qrCodeFrame := None;
      zoomReports, decodedCodes, savedPhotos := [], [], [];
    }

    /** The device part of `setupCamera`: a new session is configured with
        the rear camera, if one is found, and the QR highlight view appears.
        Without a rear camera it gives up with the configuration left open. */
    method SetupCamera(rearDevice: Option<Device>, inputAdded: bool)
      modifies this
      ensures sessionInput == (if rearDevice.Some? && inputAdded then rearDevice else None)
      ensures configuring == rearDevice.None?
      ensures rearDevice.Some? ==> rearCamera == rearDevice && currentCamera == rearDevice && qrCodeFrame == Some(ZeroRect)
      ensures rearDevice.None? ==> rearCamera == old(rearCamera) && currentCamera == old(currentCamera) && qrCodeFrame == old(qrCodeFrame)
      ensures frontCamera == old(frontCamera) && currentCameraPosition == old(currentCameraPosition)
      ensures zoomFactor == old(zoomFactor) && currentLocation == old(currentLocation)
      ensures zoomReports == old(zoomReports) && decodedCodes == old(decodedCodes) && savedPhotos == old(savedPhotos)
      ensures rearDevice.Some? && currentCameraPosition == Rear ==> Valid()
      ensures rearDevice.None? ==> Valid() == old(Valid())
    {
      sessionInput := None;
      configuring := true;
      if rearDevice.None? {
        return;
      }
      rearCamera := rearDevice;
      currentCamera := rearDevice;
      if inputAdded {
        sessionInput := rearDevice;
      }
      configuring := false;
      qrCodeFrame := Some(ZeroRect);
    }

    /** `switchCamera`. Without a session input nothing changes but the open
        configuration. Otherwise the input is removed; if the target camera
        is missing the method stops there, with position and camera as they
        were; if not, position and camera toggle to the target. */
    method SwitchCamera(frontDevice: Option<Device>, inputAdded: bool)
      modifies this
      ensures configuring == (old(sessionInput).None? || SwitchTarget(old(currentCameraPosition), frontDevice, old(rearCamera)).None?)
      ensures old(sessionInput).None? ==> sessionInput == None && currentCamera == old(currentCamera) && currentCameraPosition == old(currentCameraPosition) && frontCamera == old(frontCamera)
      ensures old(sessionInput).Some? && SwitchTarget(old(currentCameraPosition), frontDevice, old(rearCamera)).None? ==>
                sessionInput == None && currentCamera == old(currentCamera) && currentCameraPosition == old(currentCameraPosition) && frontCamera == old(frontCamera)
      ensures old(sessionInput).Some? && SwitchTarget(old(currentCameraPosition), frontDevice, old(rearCamera)).Some? ==>
                var target := SwitchTarget(old(currentCameraPosition), frontDevice, old(rearCamera)).value;
                currentCameraPosition == target.0 && currentCamera == Some(target.1)
                && sessionInput == (if inputAdded then currentCamera else None)
                && frontCamera == (if old(currentCameraPosition) == Rear then frontDevice else old(frontCamera))
      ensures rearCamera == old(rearCamera)
      ensures zoomFactor == old(zoomFactor) && currentLocation == old(currentLocation) && qrCodeFrame == old(qrCodeFrame)
      ensures zoomReports == old(zoomReports) && decodedCodes == old(decodedCodes) && savedPhotos == old(savedPhotos)
      ensures old(Valid()) ==> Valid()
    {
      configuring := true;
      if sessionInput.None? {
        return;
      }
      sessionInput := None;
      if currentCameraPosition == Rear {
        if frontDevice.None? {
          return;
        }
        frontCamera := frontDevice;
        currentCamera := frontDevice;
        currentCameraPosition := Front;
      } else {
        if rearCamera.None? {
          return;
        }
        currentCamera := rearCamera;
        currentCameraPosition := Rear;
      }
      if inputAdded {
        sessionInput := currentCamera;
      }
      configuring := false;
    }

    /** `setZoomLevel`. With a camera that could be locked, the stored zoom
        becomes the factor capped by the device maximum and is reported once;
        otherwise nothing changes. */
    method SetZoomLevel(factor: real, lockSucceeds: bool)
      modifies this
      ensures currentCamera.Some? && lockSucceeds ==>
                zoomFactor == ClampToDevice(currentCamera.value.maxZoomFactor, factor)
                && zoomReports == old(zoomReports) + [zoomFactor]
      ensures !(currentCamera.Some? && lockSucceeds) ==> zoomFactor == old(zoomFactor) && zoomReports == old(zoomReports)
      ensures currentCamera == old(currentCamera) && frontCamera == old(frontCamera) && rearCamera == old(rearCamera)
      ensures currentCameraPosition == old(currentCameraPosition) && currentLocation == old(currentLocation)
      ensures sessionInput == old(sessionInput) && configuring == old(configuring) && qrCodeFrame == old(qrCodeFrame)
      ensures decodedCodes == old(decodedCodes) && savedPhotos == old(savedPhotos)
    {
      if currentCamera.None? {
        return;
      }
      if !lockSucceeds {
        return;
      }
      var clamped := ClampToDevice(currentCamera.value.maxZoomFactor, factor);
      zoomFactor := clamped;
      zoomReports := zoomReports + [clamped];
    }

    /** `handlePinchGesture`: asks for the pinch target and resets the
        gesture's scale. The stored zoom stays within 9 and the device
        maximum. */
    method HandlePinchGesture(gesture: PinchRecognizer, lockSucceeds: bool)
      modifies this, gesture
      ensures gesture.scale == 1.0
      ensures currentCamera.Some? && lockSucceeds ==>
                zoomFactor == ClampToDevice(currentCamera.value.maxZoomFactor, PinchZoomTarget(old(zoomFactor), old(gesture.scale)))
                && zoomFactor <= MaxPinchZoom && zoomFactor <= currentCamera.value.maxZoomFactor
                && zoomReports == old(zoomReports) + [zoomFactor]
      ensures !(currentCamera.Some? && lockSucceeds) ==> zoomFactor == old(zoomFactor) && zoomReports == old(zoomReports)
      ensures currentCamera == old(currentCamera) && frontCamera == old(frontCamera) && rearCamera == old(rearCamera)
      ensures currentCameraPosition == old(currentCameraPosition) && currentLocation == old(currentLocation)
      ensures sessionInput == old(sessionInput) && configuring == old(configuring) && qrCodeFrame == old(qrCodeFrame)
      ensures decodedCodes == old(decodedCodes) && savedPhotos == old(savedPhotos)
    {
      var target := PinchZoomTarget(zoomFactor, gesture.scale);
      SetZoomLevel(target, lockSucceeds);
      gesture.scale := 1.0;
    }

    /** The location delegate: the last delivered location is cached, or
        nothing when none was delivered. */
    method DidUpdateLocations(locations: seq<Location>)
      modifies this`currentLocation
      ensures currentLocation == Last(locations)
    {
      if |locations| == 0 {
        currentLocation := None;
      } else {
        currentLocation := Some(locations[|locations| - 1]);
      }
    }

    /** The photo-capture delegate: a photo whose data decodes is composited
        with the cached location; a composite is saved and reported. */
    method DidFinishProcessingPhoto(photo: Option<Size>, logoAvailable: bool, textSize: Size)
      modifies this`savedPhotos
      ensures photo.Some? && logoAvailable ==>
                savedPhotos == old(savedPhotos) + [AddLogoAndLocation(photo.value, currentLocation, logoAvailable, textSize).value]
      ensures !(photo.Some? && logoAvailable) ==> savedPhotos == old(savedPhotos)
    {
      if photo.None? {
        return;
      }
      var finalImage := AddLogoAndLocation(photo.value, currentLocation, logoAvailable, textSize);
      if finalImage.Some? {
        savedPhotos := savedPhotos + [finalImage.value];
      }
    }

    /** The metadata delegate. A readable first object reports its string
        once and moves the highlight to the code's bounds in the preview
        (`transformedBounds`, zero when the layer cannot map it). An empty
        batch or an unreadable first object resets the highlight to zero and
        reports nothing. */
    method MetadataOutput(objects: seq<MetadataObject>, transformedBounds: Option<Rect>)
      modifies this`decodedCodes, this`qrCodeFrame
      ensures ReadQR(objects).Decoded? ==> decodedCodes == old(decodedCodes) + [ReadQR(objects).code]
      ensures !ReadQR(objects).Decoded? ==> decodedCodes == old(decodedCodes)
      ensures qrCodeFrame.Some? <==> old(qrCodeFrame).Some?
      ensures qrCodeFrame.Some? ==>
                qrCodeFrame.value == if ReadQR(objects).Decoded? then transformedBounds.GetOr(ZeroRect) else ZeroRect
    {
      if |objects| > 0 {
        var first := objects[0];
        if !(first.MachineReadableCode? && first.stringValue.Some?) {
          if qrCodeFrame.Some? {
            qrCodeFrame := Some(ZeroRect);
          }
          return;
        }
        decodedCodes := decodedCodes + [first.stringValue.value];
        if qrCodeFrame.Some? {
          qrCodeFrame := Some(transformedBounds.GetOr(ZeroRect));
        }
      } else {
        if qrCodeFrame.Some? {
          qrCodeFrame := Some(ZeroRect);
        }
      }
    }

    /** The delayed block the metadata delegate schedules: the highlight
        goes back to zero. */
    method QRHighlightExpired()
      modifies this`qrCodeFrame
      ensures qrCodeFrame == if old(qrCodeFrame).Some? then Some(ZeroRect) else None
    {
      if qrCodeFrame.Some? {
        qrCodeFrame := Some(ZeroRect);
      }
    }
  }
}
