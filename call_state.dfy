/**
 * The flags of a call (`ConferenceViewController.CallState`) and the images
 * the four control buttons show for them.
 */
module CallStates {

  /** The six flags of `CallState`. */
  datatype CallState = CallState(
    hasDevicesSelected: bool,
    cameraMuted: bool,
    micMuted: bool,
    speakerMuted: bool,
    connected: bool,
    disconnectingWithQuit: bool)

  /** `CallState()`: devices selected, nothing muted, not connected, not quitting. */
  const InitialCallState := CallState(true, false, false, false, false, false)

  /** The image assets the buttons are drawn with. */
  datatype Image =
    | CameraOff | CameraOn
    | CallEnd | CallStart
    | MicrophoneOff | MicrophoneOn
    | SpeakerOff | SpeakerOn

  datatype Button = CameraButton | CallButton | MicrophoneButton | SpeakerButton

  /** The images currently set on the camera, call, microphone and speaker buttons. */
  datatype Buttons = Buttons(camera: Image, call: Image, microphone: Image, speaker: Image)

  /**
   * How a user reads an image: the button it belongs to, and whether it shows
   * the flag set (camera off, call in progress, microphone off, speaker off).
   */
  function ImageMeaning(image: Image): (Button, bool)
  {
    match image
    case CameraOff => (CameraButton, true)
    case CameraOn => (CameraButton, false)
    case CallEnd => (CallButton, true)
    case CallStart => (CallButton, false)
    case MicrophoneOff => (MicrophoneButton, true)
    case MicrophoneOn => (MicrophoneButton, false)
    case SpeakerOff => (SpeakerButton, true)
    case SpeakerOn => (SpeakerButton, false)
  }

  /** The icon choice of `updateCallState`: each button shows its own flag. */
  function ButtonsFor(cs: CallState): (b: Buttons)
    ensures ImageMeaning(b.camera) == (CameraButton, cs.cameraMuted)
    ensures ImageMeaning(b.call) == (CallButton, cs.connected)
    ensures ImageMeaning(b.microphone) == (MicrophoneButton, cs.micMuted)
    ensures ImageMeaning(b.speaker) == (SpeakerButton, cs.speakerMuted)
  {
    Buttons(
      if cs.cameraMuted then CameraOff else CameraOn,
      if cs.connected then CallEnd else CallStart,
      if cs.micMuted then MicrophoneOff else MicrophoneOn,
      if cs.speakerMuted then SpeakerOff else SpeakerOn)
  }

  /** The buttons agree with the flags. */
  predicate ButtonsShow(b: Buttons, cs: CallState)
  {
    b == ButtonsFor(cs)
  }

  /**
   * The buttons show exactly the four flags camera-muted, connected,
   * microphone-muted and speaker-muted: two call states get the same images
   * if and only if they agree on those four.
   */
  lemma ButtonsDetermineShownFlags(a: CallState, b: CallState)
    ensures ButtonsFor(a) == ButtonsFor(b) <==>
      a.cameraMuted == b.cameraMuted && a.connected == b.connected &&
      a.micMuted == b.micMuted && a.speakerMuted == b.speakerMuted
  {
  }
}
