/**
 * The parts of the conferencing SDK (VidyoClient's `VCConnector`) that the
 * conference screen touches. The SDK itself is closed source: its handles are
 * opaque values here, and each command the screen sends to it is recorded as
 * an `Effect` instead of being executed.
 */
module Connector {

  import opened Wrappers

  /** `VCParticipant.getId()`. */
  type ParticipantId = string

  /** A local camera handle (`VCLocalCamera`), compared by identity. */
  datatype LocalCamera = LocalCamera(handle: nat)

  /** A remote camera handle (`VCRemoteCamera`), compared by identity. */
  datatype RemoteCamera = RemoteCamera(handle: nat)

  /** The room the screen was opened for (filled in by the previous screen). */
  datatype ConnectParams = ConnectParams(portal: string, displayName: string, roomKey: string, pin: string)

  /**
   * `VCConnector.getState()`. The SDK's own enumeration is not part of this
   * model; what matters to the screen is whether a state is one of the two
   * resting states (idle, ready) or one of the calling states.
   */
  datatype ConnectorState = Idle | Ready | Connecting | Connected | Disconnecting

  /** The application modes passed to `setMode`. */
  datatype AppMode = Foreground | Background

  /** The two rendering surfaces: `localView` and the remote view. */
  datatype Surface = LocalSurface | RemoteSurface

  /**
   * Everything the screen asks of the outside world, in the order it asks:
   * the SDK commands, and (last constructor) the UIKit dismissal of the screen.
   */
  datatype Effect =
    | SetMode(mode: AppMode)
    | SelectCamera(camera: LocalCamera)
    | SelectNoCamera
    | SelectNoMicrophone
    | SelectNoSpeaker
    | SelectDefaultCamera
    | SelectDefaultMicrophone
    | SelectDefaultSpeaker
    | SetCameraPrivacy(cameraPrivacy: bool)
    | SetMicrophonePrivacy(microphonePrivacy: bool)
    | SetSpeakerPrivacy(speakerPrivacy: bool)
    | ShowPreview(preview: bool)
    | CycleCamera
    | ConnectToRoom(params: Option<ConnectParams>)
    | Disconnect
    | AssignLocalView(localCamera: LocalCamera)
    | AssignRemoteView(remoteCamera: RemoteCamera)
    | ShowView(shown: Surface)
    | HideView(hidden: Surface)
    | Dismiss
}
