/**
 * The self-managed ConnectionService of the current revision: it gates
 * connection creation on the platform version and the phone-account handle,
 * keeps the `callId -> connection` registry, relays Telecom callbacks to the
 * SIP engine, and registers the phone account / reports incoming calls to
 * Telecom with one re-register-and-retry on a permission failure.
 */
module ConnectionRegistry {
  import opened Wrappers
  import opened Audio
  import opened Telecom
  import opened VoipConnections
  import Pjsip

  /** Requests the service sends to the SIP engine (`PjsipEngine`). */
  datatype EngineRequest = AcceptCall(callId: string) | HangupCall(callId: string) | RefreshAudio

  /** What `onCreateIncomingConnection` / `onCreateOutgoingConnection` hand back to Telecom. */
  datatype Created = FailedConnection(cause: DisconnectCause) | Managed(connection: VoipConnection)

  /** `isSupportedSdk() && isOurAccount(request.accountHandle)`. */
  predicate CreationAllowed(sdk: int, accountHandleId: Option<string>) {
    sdk >= SdkQ && accountHandleId == Some(PhoneAccountId)
  }

  /** `registerConnection`: a null id leaves the registry as it was. */
  function Registered(m: map<string, VoipConnection>, callId: Option<string>, c: VoipConnection): map<string, VoipConnection> {
    if callId.Some? then m[callId.value := c] else m
  }

  /** `unregisterConnection`: a null id leaves the registry as it was. */
  function Unregistered(m: map<string, VoipConnection>, callId: Option<string>): map<string, VoipConnection> {
    if callId.Some? then m - {callId.value} else m
  }

  /** Registering under an id and unregistering it again leaves every other entry as it was. */
  lemma RegisterThenUnregister(m: map<string, VoipConnection>, id: string, c: VoipConnection)
    ensures Unregistered(Registered(m, Some(id), c), Some(id)) == m - {id}
    ensures Registered(m, Some(id), c)[id] == c
  {
  }

  /** Unregistering removes only the given id. */
  lemma UnregisterRemovesOnlyThatId(m: map<string, VoipConnection>, id: string, other: string)
    requires other != id && other in m
    ensures other in Unregistered(m, Some(id)) && Unregistered(m, Some(id))[other] == m[other]
    ensures id !in Unregistered(m, Some(id))
  {
  }

  /** The outcome of a Telecom manager call that may throw `SecurityException`. */
  datatype PlatformResult = Completed | SecurityDenied

  /** The Telecom manager calls the registration paths make, in order. */
  datatype TelecomCall = RegisterPhoneAccount | AddNewIncomingCall(callId: string, callerId: Option<string>)

  /** A result together with the Telecom calls made to get it. */
  datatype Attempt = Attempt(ok: bool, calls: seq<TelecomCall>)

  /**
   * `registerSelfManaged`: refused below Android 10 or without the self-managed
   * calls role; otherwise the phone account is registered, and a
   * `SecurityException` from that call turns into `false`.
   */
  function RegisterSelfManaged(sdk: int, roleHeld: bool, registration: PlatformResult): Attempt {
    if sdk < SdkQ then Attempt(false, [])
    else if !roleHeld then Attempt(false, [])
    else Attempt(registration == Completed, [RegisterPhoneAccount])
  }

  /** `registerSelfManaged` is true exactly when the version, the role and the registration all allow it. */
  lemma RegisterSelfManagedOutcome(sdk: int, roleHeld: bool, registration: PlatformResult)
    ensures RegisterSelfManaged(sdk, roleHeld, registration).ok
        <==> sdk >= SdkQ && roleHeld && registration == Completed
    ensures RegisterSelfManaged(sdk, roleHeld, registration).calls != [] <==> sdk >= SdkQ && roleHeld
  {
  }

  /**
   * `startIncomingCall`: refused below Android 10 or without the role; otherwise
   * `addNewIncomingCall`, and on a `SecurityException` one re-registration of the
   * phone account followed, only if that succeeded, by a second attempt.
   */
  function StartIncomingCall(sdk: int, roleHeld: bool, callId: string, callerId: Option<string>,
                             firstAdd: PlatformResult, reRegistration: PlatformResult,
                             secondAdd: PlatformResult): Attempt
  {
    var add := AddNewIncomingCall(callId, callerId);
    if sdk < SdkQ then Attempt(false, [])
    else if !roleHeld then Attempt(false, [])
    else if firstAdd == Completed then Attempt(true, [add])
    else
      var again := RegisterSelfManaged(sdk, roleHeld, reRegistration);
      if !again.ok then Attempt(false, [add] + again.calls)
      else Attempt(secondAdd == Completed, [add] + again.calls + [add])
  }

  /** Number of `addNewIncomingCall` calls in a trace. */
  function AddCount(calls: seq<TelecomCall>): nat {
    if calls == [] then 0
    else AddCount(calls[..|calls| - 1]) + (if calls[|calls| - 1].AddNewIncomingCall? then 1 else 0)
  }

  /** Extending a trace by one call adds one to the count exactly when that call is an `addNewIncomingCall`. */
  lemma AddCountSnoc(calls: seq<TelecomCall>, c: TelecomCall)
    ensures AddCount(calls + [c]) == AddCount(calls) + (if c.AddNewIncomingCall? then 1 else 0)
  {
    assert (calls + [c])[..|calls|] == calls;
  }

  /** Without Android 10 or the role, nothing is asked of Telecom and the answer is false. */
  lemma StartIncomingCallGated(sdk: int, roleHeld: bool, callId: string, callerId: Option<string>,
                               a: PlatformResult, b: PlatformResult, c: PlatformResult)
    requires sdk < SdkQ || !roleHeld
    ensures StartIncomingCall(sdk, roleHeld, callId, callerId, a, b, c) == Attempt(false, [])
  {
  }

  /**
   * The call is reported at most twice; a second report happens only after the
   * first was refused and a re-registration succeeded; and the answer is true
   * exactly when one of the reports went through.
   */
  lemma StartIncomingCallRetriesOnce(sdk: int, roleHeld: bool, callId: string, callerId: Option<string>,
                                     firstAdd: PlatformResult, reRegistration: PlatformResult,
                                     secondAdd: PlatformResult)
    requires sdk >= SdkQ && roleHeld
    ensures var r := StartIncomingCall(sdk, roleHeld, callId, callerId, firstAdd, reRegistration, secondAdd);
      && 1 <= AddCount(r.calls) <= 2
      && (AddCount(r.calls) == 2 <==> firstAdd == SecurityDenied && reRegistration == Completed)
      && (AddCount(r.calls) == 2 ==> r.calls[1] == RegisterPhoneAccount)
      && (r.ok <==> firstAdd == Completed || (reRegistration == Completed && secondAdd == Completed))
  {
    var add := AddNewIncomingCall(callId, callerId);
    AddCountSnoc([], add);
    AddCountSnoc([add], RegisterPhoneAccount);
    AddCountSnoc([add, RegisterPhoneAccount], add);
  }


  /** The companion object's registry and the requests it has sent to the engine. */
  class VoipConnectionService {
    const sdk: int
    const audio: AudioManager
    var connections: map<string, VoipConnection>
    var engineRequests: seq<EngineRequest>

    constructor (sdk: int, audio: AudioManager)
      ensures this.sdk == sdk && this.audio == audio
      ensures connections == map[] && engineRequests == []
    {
      this.sdk := sdk;
      this.audio := audio;
      connections := map[];
      engineRequests := [];
    }

    /**
     * `onCreateIncomingConnection`: a failed ERROR connection unless the version
     * and the handle allow it; otherwise a fresh connection, marked Ringing and
     * registered under the request's call id.
     */
    method OnCreateIncomingConnection(accountHandleId: Option<string>, callId: Option<string>,
                                      callerId: Option<string>, ringtoneFound: bool, vibratorFound: bool)
      returns (r: Created)
      modifies this
      ensures engineRequests == old(engineRequests)
      ensures !CreationAllowed(sdk, accountHandleId) ==> r == FailedConnection(Error) && connections == old(connections)
      ensures CreationAllowed(sdk, accountHandleId) ==>
        && r.Managed? && fresh(r.connection)
        && r.connection.callId == callId && r.connection.callerId == callerId && r.connection.audio == audio
        && r.connection.state == Ringing && !r.connection.destroyed
        && r.connection.RingResources() == RingingStarted(Silent, audio.ringerMode, ringtoneFound, vibratorFound)
        && connections == Registered(old(connections), callId, r.connection)
    {
      if !(sdk >= SdkQ) {
        return FailedConnection(Error);
      }
      if accountHandleId != Some(PhoneAccountId) {
        return FailedConnection(Error);
      }
      var c := new VoipConnection(audio, sdk, callId, callerId);
      c.MarkRinging(ringtoneFound, vibratorFound);
      RegisterConnection(callId, c);
      r := Managed(c);
    }

    /** `onCreateOutgoingConnection`: as for incoming, but marked Dialing and without a caller id. */
    method OnCreateOutgoingConnection(accountHandleId: Option<string>, callId: Option<string>)
      returns (r: Created)
      modifies this
      ensures engineRequests == old(engineRequests)
      ensures !CreationAllowed(sdk, accountHandleId) ==> r == FailedConnection(Error) && connections == old(connections)
      ensures CreationAllowed(sdk, accountHandleId) ==>
        && r.Managed? && fresh(r.connection)
        && r.connection.callId == callId && r.connection.callerId == None && r.connection.audio == audio
        && r.connection.state == Dialing && !r.connection.destroyed && r.connection.RingResources() == Silent
        && connections == Registered(old(connections), callId, r.connection)
    {
      if !(sdk >= SdkQ) {
        return FailedConnection(Error);
      }
      if accountHandleId != Some(PhoneAccountId) {
        return FailedConnection(Error);
      }
      var c := new VoipConnection(audio, sdk, callId, None);
      c.MarkDialing();
      RegisterConnection(callId, c);
      r := Managed(c);
    }

    /** Managed `onAnswer`: accept the engine call (id `""` when null), then answer the connection; the entry stays. */
    method ManagedAnswer(c: VoipConnection)
      modifies this, c, c.audio
      ensures engineRequests == old(engineRequests) + [AcceptCall(c.callId.GetOr(""))]
      ensures connections == old(connections)
      ensures c.state == Active && c.RingResources() == Silent
      ensures c.Session() == AudioStarted(old(c.Session()))
    {
      engineRequests := engineRequests + [AcceptCall(c.callId.GetOr(""))];
      c.OnAnswer();
    }

    /** Managed `onReject`: hang up the engine call, reject the connection, drop its entry. */
    method ManagedReject(c: VoipConnection)
      modifies this, c, c.audio
      ensures engineRequests == old(engineRequests) + [HangupCall(c.callId.GetOr(""))]
      ensures connections == Unregistered(old(connections), c.callId)
      ensures c.state == Disconnected(Rejected) && c.destroyed && c.RingResources() == Silent
      ensures c.Session() == AudioStopped(old(c.Session()))
    {
      engineRequests := engineRequests + [HangupCall(c.callId.GetOr(""))];
      c.OnReject();
      UnregisterConnection(c.callId);
    }

    /** Managed `onDisconnect`: as reject, with cause LOCAL. */
    method ManagedDisconnect(c: VoipConnection)
      modifies this, c, c.audio
      ensures engineRequests == old(engineRequests) + [HangupCall(c.callId.GetOr(""))]
      ensures connections == Unregistered(old(connections), c.callId)
      ensures c.state == Disconnected(Local) && c.destroyed && c.RingResources() == Silent
      ensures c.Session() == AudioStopped(old(c.Session()))
    {
      engineRequests := engineRequests + [HangupCall(c.callId.GetOr(""))];
      c.OnDisconnect();
      UnregisterConnection(c.callId);
    }

    /** Managed `onAbort`: as reject, with cause CANCELED. */
    method ManagedAbort(c: VoipConnection)
      modifies this, c, c.audio
      ensures engineRequests == old(engineRequests) + [HangupCall(c.callId.GetOr(""))]
      ensures connections == Unregistered(old(connections), c.callId)
      ensures c.state == Disconnected(Canceled) && c.destroyed && c.RingResources() == Silent
      ensures c.Session() == AudioStopped(old(c.Session()))
    {
      engineRequests := engineRequests + [HangupCall(c.callId.GetOr(""))];
      c.OnAbort();
      UnregisterConnection(c.callId);
    }

    /**
     * `markCallActive`: a registered connection is told the call connected and
     * set Active; the engine is then asked to refresh audio in every case.
     * `refresh` is what `PjsipEngine.refreshAudio` does: nothing catches a
     * throw from it, so `escaped` says the `Error` leaves `markCallActive`,
     * with the connection already Active.
     */
    method MarkCallActive(callId: string, refresh: Pjsip.NativeOutcome) returns (escaped: bool)
      modifies this
      modifies if callId in connections then {connections[callId]} else {}
      modifies if callId in connections then {connections[callId].audio} else {}
      ensures escaped <==> refresh.Threw?
      ensures connections == old(connections)
      ensures engineRequests == old(engineRequests) + [RefreshAudio]
      ensures callId in connections ==>
        var c := connections[callId];
        && c.state == Active && c.RingResources() == Silent
        && c.Session() == AudioStarted(old(c.Session()))
    {
      if callId in connections {
        var c := connections[callId];
        c.OnCallConnected();
        c.SetActive();
      }
      engineRequests := engineRequests + [RefreshAudio];
      escaped := refresh.Threw?;
    }

    /**
     * `markCallEnded`: a registered connection is disconnected (LOCAL) and
     * destroyed and its entry removed; an unknown id changes nothing.
     */
    method MarkCallEnded(callId: string)
      modifies this
      modifies if callId in connections then {connections[callId]} else {}
      ensures connections == old(connections) - {callId}
      ensures engineRequests == old(engineRequests)
      ensures callId in old(connections) ==>
        var c := old(connections)[callId];
        c.state == Disconnected(Local) && c.destroyed
        && c.RingResources() == old(c.RingResources()) && c.Session() == old(c.Session())
    {
      if callId in connections {
        var c := connections[callId];
        c.DisconnectAndDestroy(Local);
      }
      connections := connections - {callId};
    }

    /** `registerConnection`. */
    method RegisterConnection(callId: Option<string>, c: VoipConnection)
      modifies this
      ensures connections == Registered(old(connections), callId, c)
      ensures engineRequests == old(engineRequests)
    {
      if callId.Some? {
        connections := connections[callId.value := c];
      }
    }

    /** `unregisterConnection`. */
    method UnregisterConnection(callId: Option<string>)
      modifies this
      ensures connections == Unregistered(old(connections), callId)
      ensures engineRequests == old(engineRequests)
    {
      if callId.Some? {
        connections := connections - {callId.value};
      }
    }
  }
}
