/**
 * What the handlers of the conference screen promise, stated and proved
 * about the functions of module Session: each handler alone, and any
 * sequence of them.
 */
module SessionProperties {

  import opened Wrappers
  import opened Connector
  import opened CallStates
  import opened Session

  /** The commands `connector?.…` actually delivers. */
  function Delivered(s: ControllerState, commands: seq<Effect>): seq<Effect>
  {
    if s.connectorPresent then commands else []
  }

  /** The two snapshots agree on everything but the call flags, the buttons and the effects. */
  predicate SameSession(a: ControllerState, b: ControllerState)
  {
    && a.connectorPresent == b.connectorPresent
    && a.connectParams == b.connectParams
    && a.lastSelectedLocalCamera == b.lastSelectedLocalCamera
    && a.participants == b.participants
    && a.loudest == b.loudest
    && a.remoteShown == b.remoteShown
  }

  // ---------------------------------------------------------------------
  // Every handler only appends to the effects and never changes the connector

  lemma StepExtendsEffects(s: ControllerState, e: Event)
    ensures Step(s, e).connectorPresent == s.connectorPresent
    ensures Step(s, e).connectParams == s.connectParams
    ensures s.effects <= Step(s, e).effects
  {
  }

  lemma {:induction false} RunExtendsEffects(s: ControllerState, events: seq<Event>)
    ensures Run(s, events).connectorPresent == s.connectorPresent
    ensures Run(s, events).connectParams == s.connectParams
    ensures s.effects <= Run(s, events).effects
    decreases |events|
  {
    if events != [] {
      var prefix := events[..|events| - 1];
      RunExtendsEffects(s, prefix);
      StepExtendsEffects(Run(s, prefix), events[|events| - 1]);
    }
  }

  /** Running two sequences of events is running their concatenation. */
  lemma {:induction false} RunAppend(s: ControllerState, first: seq<Event>, second: seq<Event>)
    ensures Run(s, first + second) == Run(Run(s, first), second)
    decreases |second|
  {
    if second == [] {
      assert first + second == first;
    } else {
      var last := second[|second| - 1];
      var init := second[..|second| - 1];
      assert (first + second)[..|first + second| - 1] == first + init;
      RunAppend(s, first, init);
    }
  }

  // ---------------------------------------------------------------------
  // Mute toggles

  lemma CameraToggleFlipsOnlyCamera(s: ControllerState)
    ensures var r := OnCameraStateChanged(s);
      && r.callState == s.callState.(cameraMuted := !s.callState.cameraMuted)
      && SameSession(s, r)
      && ButtonsShow(r.buttons, r.callState)
      && r.effects == s.effects + Delivered(s, [ShowPreview(r.callState.cameraMuted), SetCameraPrivacy(r.callState.cameraMuted)])
  {
  }

  lemma MicrophoneToggleFlipsOnlyMicrophone(s: ControllerState)
    ensures var r := OnMicStateChanged(s);
      && r.callState == s.callState.(micMuted := !s.callState.micMuted)
      && SameSession(s, r)
      && ButtonsShow(r.buttons, r.callState)
      && r.effects == s.effects + Delivered(s, [SetMicrophonePrivacy(r.callState.micMuted)])
  {
  }

  lemma SpeakerToggleFlipsOnlySpeaker(s: ControllerState)
    ensures var r := OnSpeakerStateChanged(s);
      && r.callState == s.callState.(speakerMuted := !s.callState.speakerMuted)
      && SameSession(s, r)
      && ButtonsShow(r.buttons, r.callState)
      && r.effects == s.effects + Delivered(s, [SetSpeakerPrivacy(r.callState.speakerMuted)])
  {
  }

  /** Tapping a mute button twice gives back the flags, and the buttons show them. */
  lemma TogglingTwiceRestoresFlags(s: ControllerState)
    ensures var r := OnCameraStateChanged(OnCameraStateChanged(s));
      r.callState == s.callState && SameSession(s, r) && ButtonsShow(r.buttons, s.callState)
    ensures var r := OnMicStateChanged(OnMicStateChanged(s));
      r.callState == s.callState && SameSession(s, r) && ButtonsShow(r.buttons, s.callState)
    ensures var r := OnSpeakerStateChanged(OnSpeakerStateChanged(s));
      r.callState == s.callState && SameSession(s, r) && ButtonsShow(r.buttons, s.callState)
  {
  }

  // ---------------------------------------------------------------------
  // Button images

  /** The events whose handler calls `updateCallState`. */
  predicate RedrawsButtons(s: ControllerState, e: Event)
  {
    || e.CameraTapped? || e.MicrophoneTapped? || e.SpeakerTapped?
    || e.ConnectSucceeded? || e.ConnectFailed? || e.CallDisconnected?
    || (e.CallTapped? && !s.callState.connected)
  }

  /**
   * A handler that redraws the buttons leaves them agreeing with the flags;
   * one that does not leaves the images alone, and then changes none of the
   * four flags they show, so agreement once reached is never lost.
   */
  lemma StepKeepsButtonsInAgreement(s: ControllerState, e: Event)
    ensures RedrawsButtons(s, e) ==> ButtonsShow(Step(s, e).buttons, Step(s, e).callState)
    ensures !RedrawsButtons(s, e) ==> Step(s, e).buttons == s.buttons
    ensures ButtonsShow(s.buttons, s.callState) ==> ButtonsShow(Step(s, e).buttons, Step(s, e).callState)
  {
  }

  lemma {:induction false} RunKeepsButtonsInAgreement(s: ControllerState, events: seq<Event>)
    requires ButtonsShow(s.buttons, s.callState)
    ensures ButtonsShow(Run(s, events).buttons, Run(s, events).callState)
    decreases |events|
  {
    if events != [] {
      var prefix := events[..|events| - 1];
      RunKeepsButtonsInAgreement(s, prefix);
      StepKeepsButtonsInAgreement(Run(s, prefix), events[|events| - 1]);
    }
  }

  /** Whatever the storyboard showed, once any redrawing handler has run the buttons show the flags for good. */
  lemma ButtonsAgreeAfterFirstRedraw(s: ControllerState, events: seq<Event>, i: nat)
    requires i < |events| && RedrawsButtons(Run(s, events[..i]), events[i])
    ensures ButtonsShow(Run(s, events).buttons, Run(s, events).callState)
  {
    var upTo := events[..i + 1];
    assert upTo[..i] == events[..i];
    StepKeepsButtonsInAgreement(Run(s, events[..i]), events[i]);
    RunKeepsButtonsInAgreement(Run(s, upTo), events[i + 1..]);
    RunAppend(s, upTo, events[i + 1..]);
    assert upTo + events[i + 1..] == events;
  }

  // ---------------------------------------------------------------------
  // Connecting and disconnecting

  /**
   * The call button connects when not connected (optimistically setting
   * `connected`), and otherwise only asks the SDK to disconnect.
   */
  lemma CallButtonConnectsOrDisconnects(s: ControllerState)
    ensures var r := OnConferenceCall(s);
      !s.callState.connected ==>
        && r.callState == s.callState.(connected := true)
        && r.effects == s.effects + Delivered(s, [ConnectToRoom(s.connectParams)])
    ensures var r := OnConferenceCall(s);
      s.callState.connected ==>
        && r.callState == s.callState
        && r.buttons == s.buttons
        && r.effects == s.effects + Delivered(s, [Disconnect])
    ensures SameSession(s, OnConferenceCall(s))
  {
  }

  /** `onFailure` and `onDisconnected` clear `connected` and nothing else; `onSuccess` changes no flag. */
  lemma CallbacksSettleConnected(s: ControllerState)
    ensures OnSuccess(s).callState == s.callState && OnSuccess(s).effects == s.effects
    ensures OnFailure(s).callState == s.callState.(connected := false) && OnFailure(s).effects == s.effects
    ensures OnDisconnected(s).callState == s.callState.(connected := false)
    ensures !OnFailure(s).callState.connected && !OnDisconnected(s).callState.connected
    ensures SameSession(s, OnSuccess(s)) && SameSession(s, OnFailure(s)) && SameSession(s, OnDisconnected(s))
  {
  }

  predicate Drops(e: Event)
  {
    e.ConnectFailed? || e.CallDisconnected?
  }

  predicate NoDrop(events: seq<Event>)
  {
    forall j :: 0 <= j < |events| ==> !Drops(events[j])
  }

  /** Some call button tap has not been followed by a failure or disconnect callback. */
  predicate TappedSinceLastDrop(events: seq<Event>)
  {
    exists i :: 0 <= i < |events| && events[i].CallTapped? && NoDrop(events[i + 1..])
  }

  /** A drop callback clears `connected`, a call button tap sets or keeps it, nothing else touches it. */
  lemma StepConnected(s: ControllerState, e: Event)
    ensures Step(s, e).callState.connected ==
      if Drops(e) then false else if e.CallTapped? then true else s.callState.connected
  {
  }

  lemma NoDropAppend(prefix: seq<Event>, e: Event)
    ensures NoDrop(prefix + [e]) <==> NoDrop(prefix) && !Drops(e)
  {
    if NoDrop(prefix) && !Drops(e) {
      forall j | 0 <= j < |prefix + [e]| ensures !Drops((prefix + [e])[j]) {
        if j < |prefix| { assert (prefix + [e])[j] == prefix[j]; }
      }
    }
    if NoDrop(prefix + [e]) {
      forall j | 0 <= j < |prefix| ensures !Drops(prefix[j]) {
        assert (prefix + [e])[j] == prefix[j];
      }
      assert (prefix + [e])[|prefix|] == e;
    }
  }

  lemma TappedSinceLastDropAppend(prefix: seq<Event>, e: Event)
    ensures TappedSinceLastDrop(prefix + [e]) ==
      if Drops(e) then false else if e.CallTapped? then true else TappedSinceLastDrop(prefix)
  {
    var events := prefix + [e];
    var n := |prefix|;
    assert events[n] == e;
    if Drops(e) {
      forall i | 0 <= i < |events| && events[i].CallTapped?
        ensures !NoDrop(events[i + 1..])
      {
        assert events[i + 1..][n - i - 1] == e;
      }
    } else if e.CallTapped? {
      assert NoDrop(events[n + 1..]);
    } else {
      forall i | 0 <= i < n
        ensures events[i] == prefix[i]
        ensures NoDrop(events[i + 1..]) <==> NoDrop(prefix[i + 1..])
      {
        assert events[i + 1..] == prefix[i + 1..] + [e];
        NoDropAppend(prefix[i + 1..], e);
      }
      if TappedSinceLastDrop(events) {
        var i :| 0 <= i < |events| && events[i].CallTapped? && NoDrop(events[i + 1..]);
        assert i < n;
      }
    }
  }

  /**
   * `connected` holds exactly when a call button tap (which connects, or
   * keeps a connection while the disconnect is pending) or the start state
   * has not yet been followed by a failure or disconnect callback.
   */
  lemma {:induction false} ConnectedUntilDropped(s: ControllerState, events: seq<Event>)
    ensures Run(s, events).callState.connected <==>
      TappedSinceLastDrop(events) || (s.callState.connected && NoDrop(events))
    decreases |events|
  {
    if events != [] {
      var n := |events| - 1;
      var prefix, e := events[..n], events[n];
      assert events == prefix + [e];
      ConnectedUntilDropped(s, prefix);
      StepConnected(Run(s, prefix), e);
      NoDropAppend(prefix, e);
      TappedSinceLastDropAppend(prefix, e);
    }
  }

  // ---------------------------------------------------------------------
  // Quitting

  /**
   * Closing while calling marks the quit and only asks for a disconnect;
   * closing otherwise leaves the screen at once and changes nothing else.
   */
  lemma CloseConferenceQuitsAfterDisconnect(s: ControllerState, sdk: ConnectorState)
    ensures var r := CloseConference(s, sdk);
      IsInCallingState(s.connectorPresent, sdk) ==>
        && r.callState == s.callState.(disconnectingWithQuit := true)
        && r.effects == s.effects + [Disconnect]
    ensures var r := CloseConference(s, sdk);
      !IsInCallingState(s.connectorPresent, sdk) ==>
        && r.callState == s.callState
        && r.effects == s.effects + [Dismiss]
    ensures SameSession(s, CloseConference(s, sdk)) && CloseConference(s, sdk).buttons == s.buttons
  {
  }

  /** `onDisconnected` leaves the screen if and only if the user asked to quit. */
  lemma DisconnectDismissesIffQuitting(s: ControllerState)
    ensures OnDisconnected(s).effects == s.effects + (if s.callState.disconnectingWithQuit then [Dismiss] else [])
  {
  }

  /** The events that leave the screen. */
  predicate Leaves(s: ControllerState, e: Event)
  {
    || (e.CloseTapped? && !IsInCallingState(s.connectorPresent, e.sdk))
    || (e.CallDisconnected? && s.callState.disconnectingWithQuit)
  }

  /** The commands a handler adds to the effects. */
  function Added(s: ControllerState, e: Event): seq<Effect>
  {
    var r := Step(s, e);
    if |s.effects| <= |r.effects| then r.effects[|s.effects|..] else []
  }

  lemma LifecycleDoesNotDismiss(s: ControllerState, e: Event)
    requires e.AppForeground? || e.AppBackground? || e.OrientationChanged? || e.CycleCameraTapped?
    ensures Dismiss !in Added(s, e)
  {
    StepExtendsEffects(s, e);
    assert Step(s, e).effects == s.effects + Added(s, e);
  }

  lemma ButtonsDoNotDismiss(s: ControllerState, e: Event)
    requires e.CallTapped? || e.CameraTapped? || e.MicrophoneTapped? || e.SpeakerTapped?
    ensures Dismiss !in Added(s, e)
  {
    StepExtendsEffects(s, e);
    assert Step(s, e).effects == s.effects + Added(s, e);
  }

  lemma CamerasDoNotDismiss(s: ControllerState, e: Event)
    requires e.ConnectSucceeded? || e.ConnectFailed? || e.LocalCameraSelected? || e.RemoteCameraAdded?
      || e.RemoteCameraRemoved? || e.LoudestParticipantChanged?
    ensures Dismiss !in Added(s, e)
  {
    StepExtendsEffects(s, e);
    assert Step(s, e).effects == s.effects + Added(s, e);
  }

  /** No handler other than an idle close or the disconnect after a quit dismisses the screen. */
  lemma StepDismissesOnlyToLeave(s: ControllerState, e: Event)
    ensures var r := Step(s, e);
      s.effects <= r.effects && r.effects == s.effects + Added(s, e) && (Dismiss in Added(s, e) <==> Leaves(s, e))
  {
    StepExtendsEffects(s, e);
    match e
    case CloseTapped(sdk) =>
    case CallDisconnected =>
    case AppForeground => LifecycleDoesNotDismiss(s, e);
    case AppBackground(_) => LifecycleDoesNotDismiss(s, e);
    case OrientationChanged => LifecycleDoesNotDismiss(s, e);
    case CycleCameraTapped => LifecycleDoesNotDismiss(s, e);
    case CallTapped => ButtonsDoNotDismiss(s, e);
    case CameraTapped => ButtonsDoNotDismiss(s, e);
    case MicrophoneTapped => ButtonsDoNotDismiss(s, e);
    case SpeakerTapped => ButtonsDoNotDismiss(s, e);
    case _ => CamerasDoNotDismiss(s, e);
  }

  /**
   * As long as no disconnect callback arrives and every close happens while
   * calling, the screen stays: closing during a call waits for `onDisconnected`.
   */
  lemma {:induction false} QuitWaitsForDisconnect(s: ControllerState, events: seq<Event>)
    requires Dismiss !in s.effects
    requires forall i :: 0 <= i < |events| ==>
      !events[i].CallDisconnected? &&
      (events[i].CloseTapped? ==> IsInCallingState(s.connectorPresent, events[i].sdk))
    ensures Dismiss !in Run(s, events).effects
    decreases |events|
  {
    if events != [] {
      var n := |events| - 1;
      var prefix := events[..n];
      QuitWaitsForDisconnect(s, prefix);
      var before := Run(s, prefix);
      RunExtendsEffects(s, prefix);
      StepDismissesOnlyToLeave(before, events[n]);
    }
  }

  // ---------------------------------------------------------------------
  // Background and foreground

  lemma BackgroundReleasesOrMutes(s: ControllerState, sdk: ConnectorState)
    ensures !s.connectorPresent ==> OnBackground(s, sdk) == s
    ensures var r := OnBackground(s, sdk);
      s.connectorPresent && !IsInCallingState(s.connectorPresent, sdk) ==>
        && r.callState == s.callState.(hasDevicesSelected := false)
        && r.effects == s.effects + [SelectNoCamera, SelectNoMicrophone, SelectNoSpeaker, SetMode(Background)]
    ensures var r := OnBackground(s, sdk);
      IsInCallingState(s.connectorPresent, sdk) ==>
        && r.callState == s.callState
        && r.effects == s.effects + [SetCameraPrivacy(true), SetMode(Background)]
    ensures SameSession(s, OnBackground(s, sdk)) && OnBackground(s, sdk).buttons == s.buttons
  {
  }

  /** The camera `onForeground` selects again: the last one selected, else the default. */
  function Reselect(last: Option<LocalCamera>): Effect
  {
    match last
    case Some(c) => SelectCamera(c)
    case None => SelectDefaultCamera
  }

  lemma ForegroundReacquires(s: ControllerState)
    ensures !s.connectorPresent ==> OnForeground(s) == s
    ensures var r := OnForeground(s);
      s.connectorPresent ==>
        && r.callState == s.callState.(hasDevicesSelected := true)
        && r.effects == s.effects + [SetMode(Foreground)]
             + (if s.callState.hasDevicesSelected then []
                else [Reselect(s.lastSelectedLocalCamera), SelectDefaultMicrophone, SelectDefaultSpeaker])
             + [SetCameraPrivacy(s.callState.cameraMuted)]
    ensures SameSession(s, OnForeground(s)) && OnForeground(s).buttons == s.buttons
  {
  }

  /** A nil local camera is ignored. */
  lemma NilLocalCameraIgnored(s: ControllerState)
    ensures OnLocalCameraSelected(s, None) == s
  {
  }

  /**
   * The local camera the SDK reports as selected is remembered and attached
   * to the local view; after devices are released in the background, the
   * foreground selects that same camera again.
   */
  lemma SelectedCameraComesBack(s: ControllerState, c: LocalCamera, sdk: ConnectorState)
    requires s.connectorPresent && !IsInCallingState(true, sdk)
    ensures var selected := OnLocalCameraSelected(s, Some(c));
      && selected.lastSelectedLocalCamera == Some(c)
      && selected.effects == s.effects + [AssignLocalView(c), ShowView(LocalSurface)]
    ensures SelectCamera(c) in OnForeground(OnBackground(OnLocalCameraSelected(s, Some(c)), sdk)).effects[|s.effects|..]
  {
    var selected := OnLocalCameraSelected(s, Some(c));
    BackgroundThenForegroundReacquires(selected, sdk);
    var r := OnForeground(OnBackground(selected, sdk));
    assert Reselect(selected.lastSelectedLocalCamera) == SelectCamera(c);
    assert r.effects[|s.effects|..][7] == SelectCamera(c);
  }

  /**
   * Devices released in the background come back in the foreground: the same
   * camera, the default microphone and speaker, and the camera privacy the
   * user chose.
   */
  lemma BackgroundThenForegroundReacquires(s: ControllerState, sdk: ConnectorState)
    requires s.connectorPresent && !IsInCallingState(s.connectorPresent, sdk)
    ensures var r := OnForeground(OnBackground(s, sdk));
      && r.callState == s.callState.(hasDevicesSelected := true)
      && r.effects == s.effects
           + [SelectNoCamera, SelectNoMicrophone, SelectNoSpeaker, SetMode(Background)]
           + [SetMode(Foreground), Reselect(s.lastSelectedLocalCamera), SelectDefaultMicrophone, SelectDefaultSpeaker]
           + [SetCameraPrivacy(s.callState.cameraMuted)]
  {
  }

  // ---------------------------------------------------------------------
  // The participant registry

  lemma InitialValid(connectorPresent: bool, params: Option<ConnectParams>, storyboard: Buttons)
    ensures Valid(Initial(connectorPresent, params, storyboard))
  {
  }

  /** Every handler keeps the loudest id a registered key, shown on the remote view. */
  lemma StepPreservesValid(s: ControllerState, e: Event)
    requires Valid(s)
    ensures Valid(Step(s, e))
  {
  }

  lemma {:induction false} RunPreservesValid(s: ControllerState, events: seq<Event>)
    requires Valid(s)
    ensures Valid(Run(s, events))
    decreases |events|
  {
    if events != [] {
      var prefix := events[..|events| - 1];
      RunPreservesValid(s, prefix);
      StepPreservesValid(Run(s, prefix), events[|events| - 1]);
    }
  }

  /**
   * `onRemoteCameraAdded` registers (or replaces) the camera and shows it
   * exactly when no participant, or this one, is the loudest.
   */
  lemma RemoteCameraAddedShowsUnlessOtherIsLoudest(s: ControllerState, id: ParticipantId, camera: RemoteCamera)
    requires s.connectorPresent
    ensures var r := OnRemoteCameraAdded(s, id, camera);
      && r.participants == s.participants[id := camera]
      && r.loudest == s.loudest
      && r.remoteShown == (if s.loudest == None || s.loudest == Some(id) then Some(camera) else s.remoteShown)
      && r.callState == s.callState
  {
  }

  /** An audio-only or unknown loudest participant changes nothing at all. */
  lemma LoudestIgnoredWhenAudioOnlyOrUnknown(s: ControllerState, id: ParticipantId, audioOnly: bool)
    requires audioOnly || id !in s.participants
    ensures OnLoudestParticipantChanged(s, id, audioOnly) == s
  {
  }

  /** A registered participant with video becomes the loudest and is shown. */
  lemma LoudestWithVideoIsShown(s: ControllerState, id: ParticipantId)
    requires s.connectorPresent && id in s.participants
    ensures var r := OnLoudestParticipantChanged(s, id, false);
      && r.loudest == Some(id)
      && r.remoteShown == Some(s.participants[id])
      && r.participants == s.participants
      && r.callState == s.callState
  {
  }

  /** Iterating a dictionary visits a first entry exactly when it is not empty. */
  lemma FirstListedOfNonEmpty(order: seq<ParticipantId>, m: map<ParticipantId, RemoteCamera>)
    requires IsIterationOrder(order, m)
    ensures FirstListed(order, m).None? <==> m == map[]
  {
  }

  /**
   * When the loudest participant leaves, the mark is cleared and the remote
   * view shows some remaining participant's camera, or nothing once no one is left.
   */
  lemma RemovingLoudestFallsBack(s: ControllerState, id: ParticipantId, order: seq<ParticipantId>)
    requires s.connectorPresent && s.loudest == Some(id)
    requires IsIterationOrder(order, s.participants - {id})
    ensures var r := OnRemoteCameraRemoved(s, id, order);
      && r.participants == s.participants - {id}
      && r.loudest == None
      && (r.remoteShown.None? <==> r.participants == map[])
      && (r.remoteShown.Some? ==> r.remoteShown.value in r.participants.Values)
  {
    FirstListedOfNonEmpty(order, s.participants - {id});
  }

  /** Removing a participant that is not the loudest only unregisters it. */
  lemma RemovingOtherOnlyUnregisters(s: ControllerState, id: ParticipantId, order: seq<ParticipantId>)
    requires s.loudest != Some(id)
    ensures OnRemoteCameraRemoved(s, id, order) == s.(participants := s.participants - {id})
  {
  }

  // ---------------------------------------------------------------------
  // Scenarios

  /**
   * With no loudest participant, each new camera replaces the one shown: of
   * two cameras added one after the other, the second is on screen.
   */
  lemma LastAddedIsShownWithoutLoudest(s: ControllerState, a: ParticipantId, ca: RemoteCamera, b: ParticipantId, cb: RemoteCamera)
    requires s.connectorPresent && s.loudest == None
    ensures var r := Run(s, [RemoteCameraAdded(a, ca), RemoteCameraAdded(b, cb)]);
      r.remoteShown == Some(cb) && r.participants == s.participants[a := ca][b := cb]
  {
    var evs := [RemoteCameraAdded(a, ca), RemoteCameraAdded(b, cb)];
    assert evs[..1] == [RemoteCameraAdded(a, ca)] && evs[..1][..0] == [];
    var first := OnRemoteCameraAdded(s, a, ca);
    assert Run(s, evs[..1]) == first;
    assert first.loudest == None;
    assert Run(s, evs) == OnRemoteCameraAdded(first, b, cb);
  }

  /** A loudest and shown, B registered too; A leaves: the mark is cleared and B is shown. */
  lemma RemainingParticipantShownAfterLoudestLeaves(s: ControllerState, a: ParticipantId, ca: RemoteCamera, b: ParticipantId, cb: RemoteCamera)
    requires s.connectorPresent && a != b
    requires s.participants == map[a := ca, b := cb] && s.loudest == Some(a)
    ensures var r := OnRemoteCameraRemoved(s, a, [b]);
      r.loudest == None && r.remoteShown == Some(cb) && r.participants == map[b := cb]
  {
  }

  /** Connect, then the SDK reports a failure: disconnected again, after exactly one connect request. */
  lemma ConnectThenFailure(params: Option<ConnectParams>, storyboard: Buttons)
    ensures var r := Run(Initial(true, params, storyboard), [CallTapped, ConnectFailed]);
      && !r.callState.connected
      && r.effects == [ConnectToRoom(params)]
      && ButtonsShow(r.buttons, r.callState)
  {
  }
}
