/**
 * The call-session state machine of `ConferenceViewController`, as pure
 * functions over a snapshot of the controller. Each handler of the Swift
 * class has one function here that gives the controller's next snapshot; the
 * class in module Conference is proved to compute exactly these.
 *
 * Asynchronous blocks (`DispatchQueue.main.async`) are taken to run at once
 * and in order, and every `connector?.…` call reaches the SDK only when the
 * connector exists.
 */
module Session {

  import opened Wrappers
  import opened Connector
  import opened CallStates

  /** What the controller holds, plus what is attached to the remote view and what it has asked of the SDK. */
  datatype ControllerState = ControllerState(
    connectorPresent: bool,
    connectParams: Option<ConnectParams>,
    callState: CallState,
    lastSelectedLocalCamera: Option<LocalCamera>,
    participants: map<ParticipantId, RemoteCamera>,
    loudest: Option<ParticipantId>,
    buttons: Buttons,
    remoteShown: Option<RemoteCamera>,
    effects: seq<Effect>)

  /** The controller once its view has loaded: the buttons still show their storyboard images. */
  function Initial(connectorPresent: bool, connectParams: Option<ConnectParams>, storyboard: Buttons): ControllerState
  {
    ControllerState(connectorPresent, connectParams, InitialCallState, None, map[], None, storyboard, None, [])
  }

  /** A set loudest id is a key of the registry. */
  predicate RegistryConsistent(s: ControllerState)
  {
    s.loudest.Some? ==> s.loudest.value in s.participants
  }

  /** While a loudest participant is marked, the remote view shows that participant's camera. */
  predicate ShowsLoudest(s: ControllerState)
  {
    s.connectorPresent && s.loudest.Some? && s.loudest.value in s.participants ==>
      s.remoteShown == Some(s.participants[s.loudest.value])
  }

  predicate Valid(s: ControllerState)
  {
    RegistryConsistent(s) && ShowsLoudest(s)
  }

  /**
   * `isInCallingState`: the SDK is neither idle nor ready. Without a
   * connector the screen is never calling.
   */
  function IsInCallingState(connectorPresent: bool, state: ConnectorState): (calling: bool)
    ensures calling <==> connectorPresent && (state == Connecting || state == Connected || state == Disconnecting)
  {
    if connectorPresent then state != Idle && state != Ready else false
  }

  // ---------------------------------------------------------------------
  // Effects on the outside world

  /** `connector?.c` for each command `c` of `commands`, in order. */
  function Send(s: ControllerState, commands: seq<Effect>): ControllerState
  {
    if s.connectorPresent then s.(effects := s.effects + commands) else s
  }

  /** `dismiss(animated:completion:)`, which does not go through the connector. */
  function DismissScreen(s: ControllerState): ControllerState
  {
    s.(effects := s.effects + [Dismiss])
  }

  /** `updateCallState`: every button gets the image of its flag. */
  function UpdateCallState(s: ControllerState): ControllerState
  {
    s.(buttons := ButtonsFor(s.callState))
  }

  /** `hideView(view: &removeView)`: the renderer is removed from the remote view. */
  function HideRemoteView(s: ControllerState): ControllerState
  {
    if s.connectorPresent then s.(effects := s.effects + [HideView(RemoteSurface)], remoteShown := None) else s
  }

  /** `assignRemoteCamera(remoteCamera:view:)` on the remote view. */
  function AssignRemoteCamera(s: ControllerState, camera: RemoteCamera): ControllerState
  {
    if s.connectorPresent then s.(effects := s.effects + [AssignRemoteView(camera)], remoteShown := Some(camera)) else s
  }

  /** `refreshView(view: &removeView)`. */
  function RefreshRemoteView(s: ControllerState): ControllerState
  {
    Send(s, [ShowView(RemoteSurface)])
  }

  // ---------------------------------------------------------------------
  // Application lifecycle

  /**
   * `onForeground`: back to foreground mode; devices released in the
   * background are selected again (the last local camera, else the default
   * one); the camera privacy is reapplied.
   */
  function OnForeground(s: ControllerState): ControllerState
  {
    if !s.connectorPresent then s
    else
      var s1 := Send(s, [SetMode(Foreground)]);
      var s2 :=
        if s1.callState.hasDevicesSelected then s1
        else
          var camera := match s1.lastSelectedLocalCamera
            case Some(c) => SelectCamera(c)
            case None => SelectDefaultCamera;
          Send(s1, [camera, SelectDefaultMicrophone, SelectDefaultSpeaker])
            .(callState := s1.callState.(hasDevicesSelected := true));
      Send(s2, [SetCameraPrivacy(s2.callState.cameraMuted)])
  }

  /**
   * `onBackground`: during a call only the camera goes private; otherwise
   * every device is released. Then background mode.
   */
  function OnBackground(s: ControllerState, sdk: ConnectorState): ControllerState
  {
    if !s.connectorPresent then s
    else
      var s1 :=
        if IsInCallingState(s.connectorPresent, sdk) then Send(s, [SetCameraPrivacy(true)])
        else
          Send(s.(callState := s.callState.(hasDevicesSelected := false)),
               [SelectNoCamera, SelectNoMicrophone, SelectNoSpeaker]);
      Send(s1, [SetMode(Background)])
  }

  /** `onOrientationChanged`: both surfaces are laid out again. */
  function OnOrientationChanged(s: ControllerState): ControllerState
  {
    Send(s, [ShowView(LocalSurface), ShowView(RemoteSurface)])
  }

  // ---------------------------------------------------------------------
  // User actions

  /** `connectConference`: optimistically connected, then the connect request. */
  function ConnectConference(s: ControllerState): ControllerState
  {
    var s1 := UpdateCallState(s.(callState := s.callState.(connected := true)));
    Send(s1, [ConnectToRoom(s.connectParams)])
  }

  /** `disconnectConference`: only the request; `connected` is cleared by the callback. */
  function DisconnectConference(s: ControllerState): ControllerState
  {
    Send(s, [Disconnect])
  }

  /** `onConferenceCall`: the call button connects or disconnects. */
  function OnConferenceCall(s: ControllerState): ControllerState
  {
    if s.callState.connected then DisconnectConference(s) else ConnectConference(s)
  }

  /** `onCameraStateChanged`. */
  function OnCameraStateChanged(s: ControllerState): ControllerState
  {
    var s1 := UpdateCallState(s.(callState := s.callState.(cameraMuted := !s.callState.cameraMuted)));
    Send(s1, [ShowPreview(s1.callState.cameraMuted), SetCameraPrivacy(s1.callState.cameraMuted)])
  }

  /** `onMicStateChanged`. */
  function OnMicStateChanged(s: ControllerState): ControllerState
  {
    var s1 := UpdateCallState(s.(callState := s.callState.(micMuted := !s.callState.micMuted)));
    Send(s1, [SetMicrophonePrivacy(s1.callState.micMuted)])
  }

  /** `onSpeakerStateChanged`. */
  function OnSpeakerStateChanged(s: ControllerState): ControllerState
  {
    var s1 := UpdateCallState(s.(callState := s.callState.(speakerMuted := !s.callState.speakerMuted)));
    Send(s1, [SetSpeakerPrivacy(s1.callState.speakerMuted)])
  }

  /** `onCycleCamera`. */
  function OnCycleCamera(s: ControllerState): ControllerState
  {
    Send(s, [CycleCamera])
  }

  /**
   * `closeConference`: while calling, remember to quit and disconnect first;
   * otherwise leave the screen at once.
   */
  function CloseConference(s: ControllerState, sdk: ConnectorState): ControllerState
  {
    if IsInCallingState(s.connectorPresent, sdk) then
      DisconnectConference(s.(callState := s.callState.(disconnectingWithQuit := true)))
    else
      DismissScreen(s)
  }

  // ---------------------------------------------------------------------
  // Connection callbacks

  /** `onSuccess`: only the buttons are redrawn. */
  function OnSuccess(s: ControllerState): ControllerState
  {
    UpdateCallState(s)
  }

  /** `onFailure`. */
  function OnFailure(s: ControllerState): ControllerState
  {
    UpdateCallState(s.(callState := s.callState.(connected := false)))
  }

  /** `onDisconnected`: and leave the screen if the user asked to quit. */
  function OnDisconnected(s: ControllerState): ControllerState
  {
    var s1 := UpdateCallState(s.(callState := s.callState.(connected := false)));
    if s1.callState.disconnectingWithQuit then DismissScreen(s1) else s1
  }

  // ---------------------------------------------------------------------
  // Camera and participant callbacks

  /** `onLocalCameraSelected`: a nil camera is ignored. */
  function OnLocalCameraSelected(s: ControllerState, camera: Option<LocalCamera>): ControllerState
  {
    match camera
    case None => s
    case Some(c) =>
      Send(s.(lastSelectedLocalCamera := camera), [AssignLocalView(c), ShowView(LocalSurface)])
  }

  /** `onRemoteCameraAdded`: registered; shown unless another participant is the loudest. */
  function OnRemoteCameraAdded(s: ControllerState, id: ParticipantId, camera: RemoteCamera): ControllerState
  {
    var s1 := s.(participants := s.participants[id := camera]);
    if s.loudest == None || s.loudest == Some(id) then
      RefreshRemoteView(AssignRemoteCamera(HideRemoteView(s1), camera))
    else
      s1
  }

  /**
   * The first participant a `for … in participantsMap` loop visits when the
   * dictionary iterates in `order`. Swift leaves the order unspecified, so it
   * is a parameter; ids listed in it that are not keys are skipped.
   */
  function FirstListed(order: seq<ParticipantId>, m: map<ParticipantId, RemoteCamera>): (first: Option<ParticipantId>)
    ensures first.Some? ==> first.value in m && first.value in order
    ensures first.None? <==> forall k :: k in order ==> k !in m
    ensures first.Some? ==>
      exists i :: 0 <= i < |order| && order[i] == first.value && forall j :: 0 <= j < i ==> order[j] !in m
  {
    if order == [] then None
    else if order[0] in m then Some(order[0])
    else FirstListed(order[1..], m)
  }

  /** `order` is a possible iteration order of the dictionary `m`: it lists exactly its keys. */
  ghost predicate IsIterationOrder(order: seq<ParticipantId>, m: map<ParticipantId, RemoteCamera>)
  {
    forall k :: k in order <==> k in m
  }

  /** `takeDefaultCameraBeforeLoudestDetected`: show the first registered camera, if any. */
  function TakeDefaultCamera(s: ControllerState, order: seq<ParticipantId>): ControllerState
  {
    match FirstListed(order, s.participants)
    case None => s
    case Some(id) => RefreshRemoteView(AssignRemoteCamera(s, s.participants[id]))
  }

  /**
   * `onRemoteCameraRemoved`: unregistered; if it was the loudest, the mark is
   * cleared and some remaining camera is shown.
   */
  function OnRemoteCameraRemoved(s: ControllerState, id: ParticipantId, order: seq<ParticipantId>): ControllerState
  {
    var s1 := s.(participants := s.participants - {id});
    if s.loudest == Some(id) then
      TakeDefaultCamera(HideRemoteView(s1).(loudest := None), order)
    else
      s1
  }

  /**
   * `onLoudestParticipantChanged`: an audio-only or unregistered participant
   * is ignored; otherwise its camera is shown and it becomes the loudest.
   */
  function OnLoudestParticipantChanged(s: ControllerState, id: ParticipantId, audioOnly: bool): ControllerState
  {
    if audioOnly || id !in s.participants then s
    else
      RefreshRemoteView(AssignRemoteCamera(HideRemoteView(s), s.participants[id])).(loudest := Some(id))
  }

  // ---------------------------------------------------------------------
  // Everything that can happen to the screen, one handler at a time

  datatype Event =
    | AppForeground
    | AppBackground(sdk: ConnectorState)
    | OrientationChanged
    | CallTapped
    | CameraTapped
    | MicrophoneTapped
    | SpeakerTapped
    | CycleCameraTapped
    | CloseTapped(sdk: ConnectorState)
    | ConnectSucceeded
    | ConnectFailed
    | CallDisconnected
    | LocalCameraSelected(localCamera: Option<LocalCamera>)
    | RemoteCameraAdded(addedId: ParticipantId, remoteCamera: RemoteCamera)
    | RemoteCameraRemoved(removedId: ParticipantId, order: seq<ParticipantId>)
    | LoudestParticipantChanged(loudestId: ParticipantId, audioOnly: bool)

  function Step(s: ControllerState, e: Event): ControllerState
  {
    match e
    case AppForeground => OnForeground(s)
    case AppBackground(sdk) => OnBackground(s, sdk)
    case OrientationChanged => OnOrientationChanged(s)
    case CallTapped => OnConferenceCall(s)
    case CameraTapped => OnCameraStateChanged(s)
    case MicrophoneTapped => OnMicStateChanged(s)
    case SpeakerTapped => OnSpeakerStateChanged(s)
    case CycleCameraTapped => OnCycleCamera(s)
    case CloseTapped(sdk) => CloseConference(s, sdk)
    case ConnectSucceeded => OnSuccess(s)
    case ConnectFailed => OnFailure(s)
    case CallDisconnected => OnDisconnected(s)
    case LocalCameraSelected(c) => OnLocalCameraSelected(s, c)
    case RemoteCameraAdded(id, c) => OnRemoteCameraAdded(s, id, c)
    case RemoteCameraRemoved(id, order) => OnRemoteCameraRemoved(s, id, order)
    case LoudestParticipantChanged(id, audioOnly) => OnLoudestParticipantChanged(s, id, audioOnly)
  }

  /** The handlers run one after another, in the order the events arrive. */
  function Run(s: ControllerState, events: seq<Event>): ControllerState
    decreases |events|
  {
    if events == [] then s else Step(Run(s, events[..|events| - 1]), events[|events| - 1])
  }
}
