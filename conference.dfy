/**
 * `ConferenceViewController` as a class: the handlers change its fields in
 * place, and each is proved to leave the controller in the state the
 * matching function of module Session gives, keeping `Valid()`.
 *
 * The SDK and UIKit calls are not executed; each one is appended to the
 * ghost `effects`, and the ghost `remoteShown` records which remote camera
 * the SDK renders on the remote view.
 */
module Conference {

  import opened Wrappers
  import opened Connector
  import opened CallStates
  import Session

  class ConferenceViewController {

    var connectParams: Option<ConnectParams>
    /** Whether `connector` is non-nil; it is created with the view and never replaced here. */
    const connectorPresent: bool

    var callState: CallState
    var lastSelectedLocalCamera: Option<LocalCamera>
    var participantsMap: map<ParticipantId, RemoteCamera>
    var loudestParticipantId: Option<ParticipantId>

    /** The images on the camera, call, microphone and speaker buttons. */
    var buttons: Buttons

    ghost var remoteShown: Option<RemoteCamera>
    ghost var effects: seq<Effect>

    ghost function State(): Session.ControllerState
      reads this
    {
      Session.ControllerState(connectorPresent, connectParams, callState, lastSelectedLocalCamera,
        participantsMap, loudestParticipantId, buttons, remoteShown, effects)
    }

    ghost predicate Valid()
      reads this
    {
      Session.Valid(State())
    }

    /** The controller after `viewDidLoad`, with the storyboard's button images. */
    constructor (connectorPresent: bool, connectParams: Option<ConnectParams>, storyboard: Buttons)
      ensures State() == Session.Initial(connectorPresent, connectParams, storyboard)
      ensures Valid()
    {
      this.connectorPresent := connectorPresent;
      this.connectParams := connectParams;
      callState := InitialCallState;
      lastSelectedLocalCamera := None;
      participantsMap := map[];
      loudestParticipantId := None;
      buttons := storyboard;
      remoteShown := None;
      effects := [];
    }

    // -------------------------------------------------------------------
    // Calls to the SDK and to UIKit

    /** `connector?.command`. */
    method Send(command: Effect)
      modifies this`effects
      ensures effects == old(effects) + (if connectorPresent then [command] else [])
    {
      if connectorPresent {
        effects := effects + [command];
      }
    }

    method Dismiss()
      modifies this`effects
      ensures effects == old(effects) + [Effect.Dismiss]
    {
      effects := effects + [Effect.Dismiss];
    }

    method HideRemoteView()
      modifies this`effects, this`remoteShown
      ensures State() == Session.HideRemoteView(old(State()))
    {
      if connectorPresent {
        effects := effects + [HideView(RemoteSurface)];
        remoteShown := None;
      }
    }

    method AssignRemoteCamera(remoteCamera: RemoteCamera)
      modifies this`effects, this`remoteShown
      ensures State() == Session.AssignRemoteCamera(old(State()), remoteCamera)
    {
      if connectorPresent {
        effects := effects + [AssignRemoteView(remoteCamera)];
        remoteShown := Some(remoteCamera);
      }
    }

    method UpdateCallState()
      modifies this`buttons
      ensures buttons == ButtonsFor(callState)
    {
      buttons := ButtonsFor(callState);
    }

    method IsInCallingState(sdk: ConnectorState) returns (calling: bool)
      ensures calling <==> connectorPresent && (sdk == Connecting || sdk == Connected || sdk == Disconnecting)
    {
      calling := Session.IsInCallingState(connectorPresent, sdk);
    }

    // -------------------------------------------------------------------
    // Application lifecycle

    method OnForeground()
      requires Valid()
      modifies this
      ensures State() == Session.OnForeground(old(State()))
      ensures Valid()
    {
      if !connectorPresent {
        return;
      }
      Send(SetMode(Foreground));
      if !callState.hasDevicesSelected {
        match lastSelectedLocalCamera {
          case Some(camera) => Send(SelectCamera(camera));
          case None => Send(SelectDefaultCamera);
        }
        Send(SelectDefaultMicrophone);
        Send(SelectDefaultSpeaker);
        callState := callState.(hasDevicesSelected := true);
      }
      Send(SetCameraPrivacy(callState.cameraMuted));
    }

    method OnBackground(sdk: ConnectorState)
      requires Valid()
      modifies this
      ensures State() == Session.OnBackground(old(State()), sdk)
      ensures Valid()
    {
      if !connectorPresent {
        return;
      }
      var calling := IsInCallingState(sdk);
      if calling {
        Send(SetCameraPrivacy(true));
      } else {
        callState := callState.(hasDevicesSelected := false);
        Send(SelectNoCamera);
        Send(SelectNoMicrophone);
        Send(SelectNoSpeaker);
      }
      Send(SetMode(Background));
    }

    method OnOrientationChanged()
      requires Valid()
      modifies this
      ensures State() == Session.OnOrientationChanged(old(State()))
      ensures Valid()
    {
      Send(ShowView(LocalSurface));
      Send(ShowView(RemoteSurface));
    }

    // -------------------------------------------------------------------
    // User actions

    method OnConferenceCall()
      requires Valid()
      modifies this
      ensures State() == Session.OnConferenceCall(old(State()))
      ensures Valid()
    {
      if callState.connected {
        DisconnectConference();
      } else {
        ConnectConference();
      }
    }

    method ConnectConference()
      requires Valid()
      modifies this
      ensures State() == Session.ConnectConference(old(State()))
      ensures Valid()
    {
      callState := callState.(connected := true);
      UpdateCallState();
      Send(ConnectToRoom(connectParams));
    }

    method DisconnectConference()
      requires Valid()
      modifies this
      ensures State() == Session.DisconnectConference(old(State()))
      ensures Valid()
    {
      Send(Disconnect);
    }

    method OnCameraStateChanged()
      requires Valid()
      modifies this
      ensures State() == Session.OnCameraStateChanged(old(State()))
      ensures Valid()
    {
      callState := callState.(cameraMuted := !callState.cameraMuted);
      UpdateCallState();
      Send(ShowPreview(callState.cameraMuted));
      Send(SetCameraPrivacy(callState.cameraMuted));
    }

    method OnMicStateChanged()
      requires Valid()
      modifies this
      ensures State() == Session.OnMicStateChanged(old(State()))
      ensures Valid()
    {
      callState := callState.(micMuted := !callState.micMuted);
      UpdateCallState();
      Send(SetMicrophonePrivacy(callState.micMuted));
    }

    method OnSpeakerStateChanged()
      requires Valid()
      modifies this
      ensures State() == Session.OnSpeakerStateChanged(old(State()))
      ensures Valid()
    {
      callState := callState.(speakerMuted := !callState.speakerMuted);
      UpdateCallState();
      Send(SetSpeakerPrivacy(callState.speakerMuted));
    }

    method OnCycleCamera()
      requires Valid()
      modifies this
      ensures State() == Session.OnCycleCamera(old(State()))
      ensures Valid()
    {
      Send(CycleCamera);
    }

    method CloseConference(sdk: ConnectorState)
      requires Valid()
      modifies this
      ensures State() == Session.CloseConference(old(State()), sdk)
      ensures Valid()
    {
      var calling := IsInCallingState(sdk);
      if calling {
        callState := callState.(disconnectingWithQuit := true);
        DisconnectConference();
        return;
      }
      Dismiss();
    }

    // -------------------------------------------------------------------
    // Connection callbacks

    method OnSuccess()
      requires Valid()
      modifies this
      ensures State() == Session.OnSuccess(old(State()))
      ensures Valid()
    {
      UpdateCallState();
    }

    method OnFailure()
      requires Valid()
      modifies this
      ensures State() == Session.OnFailure(old(State()))
      ensures Valid()
    {
      callState := callState.(connected := false);
      UpdateCallState();
    }

    method OnDisconnected()
      requires Valid()
      modifies this
      ensures State() == Session.OnDisconnected(old(State()))
      ensures Valid()
    {
      callState := callState.(connected := false);
      UpdateCallState();
      if callState.disconnectingWithQuit {
        Dismiss();
      }
    }

    // -------------------------------------------------------------------
    // Camera and participant callbacks

    method OnLocalCameraSelected(localCamera: Option<LocalCamera>)
      requires Valid()
      modifies this
      ensures State() == Session.OnLocalCameraSelected(old(State()), localCamera)
      ensures Valid()
    {
      if localCamera == None {
        return;
      }
      lastSelectedLocalCamera := localCamera;
      Send(AssignLocalView(localCamera.value));
      Send(ShowView(LocalSurface));
    }

    method OnRemoteCameraAdded(remoteCamera: RemoteCamera, participant: ParticipantId)
      requires Valid()
      modifies this
      ensures State() == Session.OnRemoteCameraAdded(old(State()), participant, remoteCamera)
      ensures Valid()
    {
      participantsMap := participantsMap[participant := remoteCamera];
      if loudestParticipantId == None || loudestParticipantId == Some(participant) {
        HideRemoteView();
        AssignRemoteCamera(remoteCamera);
        Send(ShowView(RemoteSurface));
      }
    }

    /** `order` is the order in which the dictionary would be iterated once `participant` is removed. */
    method OnRemoteCameraRemoved(participant: ParticipantId, order: seq<ParticipantId>)
      requires Valid()
      requires Session.IsIterationOrder(order, participantsMap - {participant})
      modifies this
      ensures State() == Session.OnRemoteCameraRemoved(old(State()), participant, order)
      ensures Valid()
    {
      participantsMap := participantsMap - {participant};
      if loudestParticipantId == Some(participant) {
        HideRemoteView();
        loudestParticipantId := None;
        TakeDefaultCameraBeforeLoudestDetected(order);
      }
    }

    method OnLoudestParticipantChanged(participant: ParticipantId, audioOnly: bool)
      requires Valid()
      modifies this
      ensures State() == Session.OnLoudestParticipantChanged(old(State()), participant, audioOnly)
      ensures Valid()
    {
      if audioOnly {
        return;
      }
      if participant !in participantsMap {
        return;
      }
      var remoteCamera := participantsMap[participant];
      HideRemoteView();
      AssignRemoteCamera(remoteCamera);
      Send(ShowView(RemoteSurface));
      loudestParticipantId := Some(participant);
    }

    /** Show the first camera the dictionary's iteration visits, and stop there. */
    method TakeDefaultCameraBeforeLoudestDetected(order: seq<ParticipantId>)
      requires Session.IsIterationOrder(order, participantsMap)
      modifies this
      ensures State() == Session.TakeDefaultCamera(old(State()), order)
    {
      for i := 0 to |order|
        invariant i == 0
        invariant State() == old(State())
      {
        var remoteCamera := participantsMap[order[i]];
        AssignRemoteCamera(remoteCamera);
        Send(ShowView(RemoteSurface));
        break;
      }
    }
  }
}
