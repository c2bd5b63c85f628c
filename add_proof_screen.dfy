/** The add-proof screen: capture a (mock) photo or video, retake it, submit it or cancel. */
module AddProofScreen {
  import opened Wrappers
  import opened Json

  datatype MediaKind = Photo | Video

  /** The `mediaType` a capture records. */
  function TypeName(kind: MediaKind): string {
    match kind
    case Photo => "photo"
    case Video => "video"
  }

  /** The placeholder a capture stores as `capturedMedia`. */
  function CapturedName(kind: MediaKind): (r: string)
    ensures r == TypeName(kind) + "_captured"
  {
    match kind
    case Photo => "photo_captured"
    case Video => "video_captured"
  }

  /** Submit and Retake are disabled exactly when no media is held. */
  function ActionsDisabled(capturedMedia: Option<string>): (disabled: bool)
    ensures disabled <==> capturedMedia.None? || capturedMedia.value == ""
  {
    !IsPresent(capturedMedia)
  }

  /** `handleSubmit`: no media is rejected (an error toast, no navigation); with media the
      app goes back to the SOS-active screen. */
  function SubmitRoute(capturedMedia: Option<string>): (route: Option<string>)
    ensures route.None? <==> ActionsDisabled(capturedMedia)
    ensures route.Some? ==> route.value == "/sos-active"
  {
    if IsPresent(capturedMedia) then Some("/sos-active") else None
  }

  class Screen {
    var capturedMedia: Option<string>
    var mediaType: Option<string>

    /** The type is set exactly when media is held, and then both name the same capture. */
    predicate Valid()
      reads this
    {
      (capturedMedia.None? <==> mediaType.None?)
      && (capturedMedia.Some? ==> exists kind :: capturedMedia.value == CapturedName(kind) && mediaType.value == TypeName(kind))
    }

    constructor ()
      ensures Valid() && capturedMedia.None? && mediaType.None?
    {
      capturedMedia := None;
      mediaType := None;
    }

    /** `handleCapturePhoto` / `handleCaptureVideo`: the new capture replaces any earlier
        one. */
    method Capture(kind: MediaKind)
      modifies this
      ensures Valid()
      ensures capturedMedia == Some(CapturedName(kind)) && mediaType == Some(TypeName(kind))
      ensures !ActionsDisabled(capturedMedia)
    {
      mediaType := Some(TypeName(kind));
      capturedMedia := Some(CapturedName(kind));
    }

    /** `handleRetake`: both fields are cleared. */
    method Retake()
      modifies this
      ensures Valid() && capturedMedia.None? && mediaType.None?
      ensures ActionsDisabled(capturedMedia)
    {
      capturedMedia := None;
      mediaType := None;
    }

    method Submit() returns (route: Option<string>)
      requires Valid()
      ensures route == SubmitRoute(capturedMedia)
      ensures route.Some? <==> capturedMedia.Some?
    {
      route := SubmitRoute(capturedMedia);
    }

    /** `handleCancel`: back to the SOS-active screen, whatever was captured. */
    method Cancel() returns (route: string)
      ensures route == "/sos-active"
    {
      route := "/sos-active";
    }
  }
}
