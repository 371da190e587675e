/**
 * The earliest self-managed connection: the same construction and terminal
 * transitions as the current one, without any audio or ringing handling.
 */
module ExampleConnections {
  import opened Wrappers
  import opened Telecom

  class VoipConnection {
    const callId: Option<string>
    const callerId: Option<string>

    var selfManaged: bool
    var audioModeIsVoip: bool
    var callerDisplayName: Option<string>
    var state: ConnectionState
    var destroyed: bool

    /** A new connection is self-managed and Initializing; a caller name is shown only when non-empty. */
    constructor (sdk: int, callId: Option<string>, callerId: Option<string>)
      ensures this.callId == callId && this.callerId == callerId
      ensures selfManaged && state == Initializing && !destroyed
      ensures audioModeIsVoip == (sdk >= SdkO)
      ensures callerDisplayName == DisplayedCaller(callerId)
    {
      this.callId := callId;
      this.callerId := callerId;
      selfManaged := true;
      audioModeIsVoip := sdk >= SdkO;
      callerDisplayName := DisplayedCaller(callerId);
      state := Initializing;
      destroyed := false;
    }

    /** `onAnswer`: Active. */
    method OnAnswer()
      modifies this
      ensures state == Active && destroyed == old(destroyed)
      ensures selfManaged == old(selfManaged) && callerDisplayName == old(callerDisplayName)
      ensures audioModeIsVoip == old(audioModeIsVoip)
    {
      state := Active;
    }

    /** `onReject`: Disconnected with REJECTED, then destroyed. */
    method OnReject()
      modifies this
      ensures state == Disconnected(Rejected) && destroyed
      ensures selfManaged == old(selfManaged) && callerDisplayName == old(callerDisplayName)
      ensures audioModeIsVoip == old(audioModeIsVoip)
    {
      state := Disconnected(Rejected);
      destroyed := true;
    }

    /** `onDisconnect`: Disconnected with LOCAL, then destroyed. */
    method OnDisconnect()
      modifies this
      ensures state == Disconnected(Local) && destroyed
      ensures selfManaged == old(selfManaged) && callerDisplayName == old(callerDisplayName)
      ensures audioModeIsVoip == old(audioModeIsVoip)
    {
      state := Disconnected(Local);
      destroyed := true;
    }

    /** `onAbort`: Disconnected with CANCELED, then destroyed. */
    method OnAbort()
      modifies this
      ensures state == Disconnected(Canceled) && destroyed
      ensures selfManaged == old(selfManaged) && callerDisplayName == old(callerDisplayName)
      ensures audioModeIsVoip == old(audioModeIsVoip)
    {
      state := Disconnected(Canceled);
      destroyed := true;
    }

    /** `markRinging`. */
    method MarkRinging()
      modifies this
      ensures state == Ringing && destroyed == old(destroyed)
      ensures selfManaged == old(selfManaged) && callerDisplayName == old(callerDisplayName)
      ensures audioModeIsVoip == old(audioModeIsVoip)
    {
      state := Ringing;
    }

    /** `markDialing`. */
    method MarkDialing()
      modifies this
      ensures state == Dialing && destroyed == old(destroyed)
      ensures selfManaged == old(selfManaged) && callerDisplayName == old(callerDisplayName)
      ensures audioModeIsVoip == old(audioModeIsVoip)
    {
      state := Dialing;
    }
  }
}
