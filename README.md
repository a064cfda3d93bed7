# Conference screen call-session model

A Dafny model of the call-session state machine of `ConferenceViewController`,
the one screen of the VidyoConnector iOS sample: the six call flags, the images
on the four control buttons, the participant registry with its loudest-speaker
mark, and the commands the screen sends to the Vidyo SDK in reply to user
taps, SDK callbacks and application lifecycle notifications.

- `wrappers.dfy` — `Option`, for Swift's optionals.
- `connector.dfy` — the SDK as the screen sees it: opaque camera handles,
  participant ids, the connector state, and `Effect`, one constructor per
  SDK command (plus the UIKit `dismiss`).
- `call_state.dfy` — `CallState` and the icon choice of `updateCallState`.
- `session.dfy` — the specification: a snapshot `ControllerState` of the
  controller and one function per handler giving the next snapshot; `Step`
  dispatches an `Event` to its handler and `Run` applies a sequence of them.
- `session_properties.dfy` — the lemmas: what each handler promises, and
  invariants over any sequence of handlers.
- `conference.dfy` — the class `ConferenceViewController`, whose methods
  update its fields in place as the Swift handlers do and are proved to reach
  the snapshot the specification gives, keeping the registry invariant.

Commands sent through `connector?.` are recorded only when the connector
exists; the ghost field `remoteShown` records which remote camera the SDK
renders on the remote view (`hideView` clears it, `assignView` sets it).
Blocks posted with `DispatchQueue.main.async` are taken to run at once and in
order, so each handler is one atomic step. The camera toggle passes the new
muted flag itself to `showPreview`, as the Swift controller does.

With no loudest participant set, the remote view does not keep the first
registered camera: every added camera replaces it, so after camera A and then
camera B are added, B is shown (VidyoConnector/Controller/ConferenceViewController.swift:265,
`SessionProperties.LastAddedIsShownWithoutLoudest`).

## Model

| member | source | states |
|---|---|---|
| CallStates.ButtonsFor | VidyoConnector/Controller/ConferenceViewController.swift:358-363 | each button's image belongs to that button and shows exactly its flag: camera muted, connected, microphone muted, speaker muted |
| CallStates.ButtonsDetermineShownFlags | VidyoConnector/Controller/ConferenceViewController.swift:358-363 | two call states get the same images if and only if they agree on the four shown flags |
| Session.IsInCallingState | VidyoConnector/Controller/ConferenceViewController.swift:444-451 | calling holds iff a connector exists and its state is connecting, connected or disconnecting (neither idle nor ready) |
| Session.FirstListed | VidyoConnector/Controller/ConferenceViewController.swift:435-440 | the result is the registered id that comes first in the iteration order (every id listed before it is unregistered), and there is none iff no listed id is registered |
| SessionProperties.StepExtendsEffects | VidyoConnector/Controller/ConferenceViewController.swift:94-306 | no handler changes the connector or the connection parameters, and every handler only appends commands |
| SessionProperties.RunExtendsEffects | VidyoConnector/Controller/ConferenceViewController.swift:94-306 | after any sequence of handlers the connector presence and the connection parameters are unchanged and the earlier commands are a prefix of the new ones |
| SessionProperties.RunAppend | VidyoConnector/Controller/ConferenceViewController.swift:94-306 | handling two event sequences one after the other is handling their concatenation |
| SessionProperties.CameraToggleFlipsOnlyCamera | VidyoConnector/Controller/ConferenceViewController.swift:149-157 | the camera toggle flips cameraMuted and no other flag, touches no registry state, redraws the buttons to agree, and sends showPreview and setCameraPrivacy with the new flag |
| SessionProperties.MicrophoneToggleFlipsOnlyMicrophone | VidyoConnector/Controller/ConferenceViewController.swift:159-164 | the microphone toggle flips micMuted only, redraws the buttons and sends setMicrophonePrivacy with the new flag |
| SessionProperties.SpeakerToggleFlipsOnlySpeaker | VidyoConnector/Controller/ConferenceViewController.swift:166-171 | the speaker toggle flips speakerMuted only, redraws the buttons and sends setSpeakerPrivacy with the new flag |
| SessionProperties.TogglingTwiceRestoresFlags | VidyoConnector/Controller/ConferenceViewController.swift:149-171 | toggling any mute button twice restores every flag and the registry, and the buttons then show the original flags |
| SessionProperties.StepKeepsButtonsInAgreement | VidyoConnector/Controller/ConferenceViewController.swift:141-240 | a handler that calls updateCallState leaves the images agreeing with the flags; any other handler leaves the images alone and keeps agreement |
| SessionProperties.RunKeepsButtonsInAgreement | VidyoConnector/Controller/ConferenceViewController.swift:141-240 | once the images agree with the flags they agree after any sequence of handlers |
| SessionProperties.ButtonsAgreeAfterFirstRedraw | VidyoConnector/Controller/ConferenceViewController.swift:358-363 | whatever the storyboard images were, after the first redraw the images agree with the flags for good |
| SessionProperties.CallButtonConnectsOrDisconnects | VidyoConnector/Controller/ConferenceViewController.swift:141-147 | not connected: sets connected and sends one connect request; connected: sends only a disconnect and changes no flag and no image |
| SessionProperties.CallbacksSettleConnected | VidyoConnector/Controller/ConferenceViewController.swift:193-240 | onSuccess changes no flag; onFailure and onDisconnected clear connected and no other flag; none touches the registry |
| SessionProperties.StepConnected | VidyoConnector/Controller/ConferenceViewController.swift:141-147 | a failure or disconnect callback clears connected, the call button sets or keeps it, every other handler keeps it |
| SessionProperties.ConnectedUntilDropped | VidyoConnector/Controller/ConferenceViewController.swift:339-350 | after any sequence, connected holds iff a call button tap (or the initial connected flag) has not been followed by a failure or disconnect callback |
| SessionProperties.CloseConferenceQuitsAfterDisconnect | VidyoConnector/Controller/ConferenceViewController.swift:177-186 | closing while calling sets disconnectingWithQuit and sends only a disconnect, without dismissing; closing otherwise dismisses at once and changes no flag |
| SessionProperties.DisconnectDismissesIffQuitting | VidyoConnector/Controller/ConferenceViewController.swift:238 | onDisconnected dismisses the screen iff disconnectingWithQuit is set, and sends nothing else |
| SessionProperties.StepDismissesOnlyToLeave | VidyoConnector/Controller/ConferenceViewController.swift:177-240 | a handler dismisses the screen iff it is a close while not calling or a disconnect callback after a quit |
| SessionProperties.QuitWaitsForDisconnect | VidyoConnector/Controller/ConferenceViewController.swift:177-240 | while no disconnect callback arrives and every close happens during a call, the screen is never dismissed |
| SessionProperties.BackgroundReleasesOrMutes | VidyoConnector/Controller/ConferenceViewController.swift:118-134 | without a connector nothing happens; during a call only camera privacy is set; otherwise hasDevicesSelected is cleared and camera, microphone and speaker are deselected; then background mode |
| SessionProperties.ForegroundReacquires | VidyoConnector/Controller/ConferenceViewController.swift:94-116 | without a connector nothing happens; otherwise hasDevicesSelected ends true, released devices are selected again (the last local camera, else the default) and the camera privacy is reapplied |
| SessionProperties.BackgroundThenForegroundReacquires | VidyoConnector/Controller/ConferenceViewController.swift:94-134 | devices released by going to the background while idle are selected again on coming back, with the user's camera privacy |
| SessionProperties.NilLocalCameraIgnored | VidyoConnector/Controller/ConferenceViewController.swift:249-250 | a nil selected local camera changes nothing |
| SessionProperties.SelectedCameraComesBack | VidyoConnector/Controller/ConferenceViewController.swift:249-256 | the selected local camera is remembered and attached to the local view, and after an idle background and a foreground that same camera is selected again |
| SessionProperties.InitialValid | VidyoConnector/Controller/ConferenceViewController.swift:38-43 | the fresh controller satisfies the registry invariant |
| SessionProperties.StepPreservesValid | VidyoConnector/Controller/ConferenceViewController.swift:262-306 | every handler keeps a set loudest id a key of participantsMap, and keeps the remote view showing its camera |
| SessionProperties.RunPreservesValid | VidyoConnector/Controller/ConferenceViewController.swift:262-306 | the registry invariant holds after any sequence of handlers |
| SessionProperties.RemoteCameraAddedShowsUnlessOtherIsLoudest | VidyoConnector/Controller/ConferenceViewController.swift:262-270 | the camera is inserted or overwritten under its id; it is shown iff no loudest id is set or it is this id, otherwise the view is unchanged |
| SessionProperties.LoudestIgnoredWhenAudioOnlyOrUnknown | VidyoConnector/Controller/ConferenceViewController.swift:290-299 | an audio-only or unregistered loudest participant changes nothing |
| SessionProperties.LoudestWithVideoIsShown | VidyoConnector/Controller/ConferenceViewController.swift:296-305 | a registered loudest participant with video is shown and marked loudest |
| SessionProperties.FirstListedOfNonEmpty | VidyoConnector/Controller/ConferenceViewController.swift:435-440 | iterating the dictionary visits a first entry iff it is not empty |
| SessionProperties.RemovingLoudestFallsBack | VidyoConnector/Controller/ConferenceViewController.swift:272-281 | removing the loudest participant unregisters it, clears the mark, and shows some remaining camera, or nothing iff no participant remains |
| SessionProperties.RemovingOtherOnlyUnregisters | VidyoConnector/Controller/ConferenceViewController.swift:272-281 | removing any other participant only unregisters it |
| SessionProperties.LastAddedIsShownWithoutLoudest | VidyoConnector/Controller/ConferenceViewController.swift:262-270 | with no loudest set, of two cameras added in turn the second is shown |
| SessionProperties.RemainingParticipantShownAfterLoudestLeaves | VidyoConnector/Controller/ConferenceViewController.swift:272-281 | A loudest and shown with B registered; A leaves: the mark is cleared and B is shown |
| SessionProperties.ConnectThenFailure | VidyoConnector/Controller/ConferenceViewController.swift:207-221 | connect then failure: disconnected, exactly one connect request sent, buttons agree |
| Conference.ConferenceViewController.constructor | VidyoConnector/Controller/ConferenceViewController.swift:28-43 | the controller starts with the initial CallState, an empty registry, no loudest id and nothing shown |
| Conference.ConferenceViewController.UpdateCallState | VidyoConnector/Controller/ConferenceViewController.swift:358-363 | the buttons get the images of the current flags |
| Conference.ConferenceViewController.IsInCallingState | VidyoConnector/Controller/ConferenceViewController.swift:444-451 | calling iff a connector exists and is connecting, connected or disconnecting |
| Conference.ConferenceViewController.HideRemoteView | VidyoConnector/Controller/ConferenceViewController.swift:420-428 | the renderer is removed from the remote view when a connector exists |
| Conference.ConferenceViewController.AssignRemoteCamera | VidyoConnector/Controller/ConferenceViewController.swift:385-397 | the camera is attached to the remote view when a connector exists |
| Conference.ConferenceViewController.OnForeground | VidyoConnector/Controller/ConferenceViewController.swift:94-116 | without a connector nothing changes; otherwise hasDevicesSelected ends true, released devices are selected again (last local camera, else the default) and cameraMuted is reapplied as camera privacy; keeps the registry invariant |
| Conference.ConferenceViewController.OnBackground | VidyoConnector/Controller/ConferenceViewController.swift:118-134 | during a call only camera privacy is set; otherwise hasDevicesSelected is cleared and camera, microphone and speaker are deselected; then background mode; nothing without a connector |
| Conference.ConferenceViewController.OnOrientationChanged | VidyoConnector/Controller/ConferenceViewController.swift:136-139 | both views are laid out again; no field changes |
| Conference.ConferenceViewController.OnConferenceCall | VidyoConnector/Controller/ConferenceViewController.swift:141-147 | not connected: connected is set, buttons redrawn, one connect request sent; connected: only a disconnect is sent and connected stays set |
| Conference.ConferenceViewController.ConnectConference | VidyoConnector/Controller/ConferenceViewController.swift:339-350 | sets connected, redraws the buttons, sends the connect request |
| Conference.ConferenceViewController.DisconnectConference | VidyoConnector/Controller/ConferenceViewController.swift:352-356 | sends only the disconnect request |
| Conference.ConferenceViewController.OnCameraStateChanged | VidyoConnector/Controller/ConferenceViewController.swift:149-157 | cameraMuted is flipped and no other flag, the buttons are redrawn, showPreview and setCameraPrivacy get the new flag |
| Conference.ConferenceViewController.OnMicStateChanged | VidyoConnector/Controller/ConferenceViewController.swift:159-164 | micMuted is flipped and no other flag, the buttons are redrawn, setMicrophonePrivacy gets the new flag |
| Conference.ConferenceViewController.OnSpeakerStateChanged | VidyoConnector/Controller/ConferenceViewController.swift:166-171 | speakerMuted is flipped and no other flag, the buttons are redrawn, setSpeakerPrivacy gets the new flag |
| Conference.ConferenceViewController.OnCycleCamera | VidyoConnector/Controller/ConferenceViewController.swift:173-175 | sends cycleCamera; no field changes |
| Conference.ConferenceViewController.CloseConference | VidyoConnector/Controller/ConferenceViewController.swift:177-186 | while calling: disconnectingWithQuit is set and only a disconnect is sent; otherwise the screen is dismissed at once |
| Conference.ConferenceViewController.OnSuccess | VidyoConnector/Controller/ConferenceViewController.swift:193-205 | only the buttons are redrawn; no flag changes |
| Conference.ConferenceViewController.OnFailure | VidyoConnector/Controller/ConferenceViewController.swift:207-221 | connected is cleared and the buttons are redrawn |
| Conference.ConferenceViewController.OnDisconnected | VidyoConnector/Controller/ConferenceViewController.swift:223-240 | connected is cleared, the buttons are redrawn, and the screen is dismissed iff disconnectingWithQuit is set |
| Conference.ConferenceViewController.OnLocalCameraSelected | VidyoConnector/Controller/ConferenceViewController.swift:249-256 | a nil camera is ignored; otherwise it is remembered as the last selected camera and attached to the local view |
| Conference.ConferenceViewController.OnRemoteCameraAdded | VidyoConnector/Controller/ConferenceViewController.swift:262-270 | the camera is stored under the participant id; it replaces the remote view iff no loudest id is set or it is this id; keeps the loudest id a key shown on the remote view |
| Conference.ConferenceViewController.OnRemoteCameraRemoved | VidyoConnector/Controller/ConferenceViewController.swift:272-281 | the id is removed; if it was the loudest, the mark is cleared and the first camera of the iteration order is shown; keeps the registry invariant |
| Conference.ConferenceViewController.OnLoudestParticipantChanged | VidyoConnector/Controller/ConferenceViewController.swift:290-306 | audio-only or unregistered participants change nothing; otherwise its camera replaces the remote view and it becomes the loudest; keeps the registry invariant |
| Conference.ConferenceViewController.TakeDefaultCameraBeforeLoudestDetected | VidyoConnector/Controller/ConferenceViewController.swift:430-442 | the loop attaches the first camera the iteration visits and stops, as Session.TakeDefaultCamera gives |

## Left out

- UIKit: the outlets, `progress.isHidden`, the `libVersion` label text (the version string and the status texts "Connected.", "Error: …", "Disconnected: …"), `localView.isHidden`, image loading, the NotificationCenter observers and `print` logging. They are presentation only; the button images are kept, as the `Buttons` value.
- `viewDidLoad` and `viewDidDisappear`: lifecycle plumbing. The constructor stands for the state after `viewDidLoad`; whether the connector exists is fixed at construction, so the model never sees the connector set to nil by `viewDidDisappear`.
- The bodies of the SDK calls (`VCConnector` construction, `connectToRoom`, `assignView`, `showView`, `hideView`, `cycleCamera`, `showPreview`, `getVersion`, `getState`): closed-source library code. Each call is an `Effect` appended to a ghost log; the connector state that `getState` returns is a parameter of the handlers that ask for it.
- The failure and disconnect reasons of `onFailure` and `onDisconnected`: they only feed the status text. The removed camera handle passed to `onRemoteCameraRemoved` is not used by the controller and is not a parameter.
- `DispatchQueue.main.async` scheduling and the weak-self and `fatalError` guards: every handler runs atomically, in order.
- The order of dictionary iteration in `takeDefaultCameraBeforeLoudestDetected`: Swift leaves it unspecified, so it is a parameter `order`. The class method requires it to list exactly the remaining keys, and `RemovingLoudestFallsBack` is proved for every such order. The `RemoteCameraRemoved` event of `Step` and `Run` accepts any list, so traces also include fallbacks the controller cannot take (an order that leaves out a remaining key shows nothing); the trace lemmas hold for those too, that is, for a superset of the real behaviours.
- The frame sizes passed to `showView` by `refreshView`: floating-point geometry.
- The empty listener stubs (local camera added/removed/state, remote camera state, participant joined/left, dynamic participants, speaker and microphone events): they do nothing.
- The view outlets are taken to be loaded, so the `guard var view = view` checks in the view helpers always pass.
- The connection parameters are passed to the connect request as one optional value rather than as four separately unwrapped optional fields.
- What the local view renders is recorded only in the effects, not as a separate ghost field.
- The remote view is not cleared when a participant that is shown but is not the loudest leaves (`SessionProperties.RemovingOtherOnlyUnregisters`): the model keeps that camera as shown, as the Swift controller does.
