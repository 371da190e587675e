/**
 * The FCM push entry point: a data push of type `incoming_call` starts the
 * foreground service, hands the call to Telecom, shows the call activity and
 * starts a SIP registration from the provisioned credentials; a new token is
 * saved before it is broadcast.
 */
module Push {
  import opened Wrappers
  import opened Text
  import opened Pjsip
  import MethodChannel

  /** The steps a push causes, in the order they are started. */
  datatype PushAction =
    | StartForegroundService(callId: string, callerId: string)
    | RegisterSelfManaged
    | StartIncomingCall(callId: string, callerId: string)
    | LaunchCallActivity(callId: string, callerId: string)
    | StartSipRegistration

  /** The fields read from a push, with their defaults. */
  datatype PushFields = PushFields(pushType: string, callId: string, callerId: string)

  function Lookup(data: map<string, string>, key: string, default: string): string {
    if key in data then data[key] else default
  }

  /** The type defaults to `"unknown"`, the ids to `""`. */
  function Fields(data: map<string, string>): (f: PushFields)
    ensures "type" !in data ==> f.pushType == "unknown"
    ensures "callId" !in data ==> f.callId == ""
    ensures "callerId" !in data ==> f.callerId == ""
    ensures "type" in data ==> f.pushType == data["type"]
    ensures "callId" in data ==> f.callId == data["callId"]
    ensures "callerId" in data ==> f.callerId == data["callerId"]
  {
    PushFields(Lookup(data, "type", "unknown"), Lookup(data, "callId", ""), Lookup(data, "callerId", ""))
  }

  /**
   * `handleIncomingCallPush`: foreground service, then Telecom registration
   * and the incoming call (the latter skipped when the registration throws;
   * either throw is caught), then the activity, then the registration thread.
   */
  function IncomingCallActions(callId: string, callerId: string, registrationThrows: bool): seq<PushAction> {
    [StartForegroundService(callId, callerId), RegisterSelfManaged]
    + (if registrationThrows then [] else [StartIncomingCall(callId, callerId)])
    + [LaunchCallActivity(callId, callerId), StartSipRegistration]
  }

  /** `onMessageReceived`. */
  function OnMessageReceived(data: map<string, string>, registrationThrows: bool): seq<PushAction> {
    if data == map[] then []
    else
      var f := Fields(data);
      if f.pushType == "incoming_call" then IncomingCallActions(f.callId, f.callerId, registrationThrows) else []
  }

  /** A push does something only when it has data and its type is `incoming_call`. */
  lemma OnlyIncomingCallActs(data: map<string, string>, registrationThrows: bool)
    ensures OnMessageReceived(data, registrationThrows) != [] <==> "type" in data && data["type"] == "incoming_call"
  {
  }

  /** `a` is started before `b`. */
  predicate Before(actions: seq<PushAction>, a: PushAction, b: PushAction) {
    exists i, j :: 0 <= i < j < |actions| && actions[i] == a && actions[j] == b
  }

  /**
   * An incoming call starts the foreground service first, the Telecom steps
   * next, then the call activity (whatever Telecom did), and the SIP
   * registration last.
   */
  lemma IncomingCallOrder(callId: string, callerId: string, registrationThrows: bool)
    ensures var acts := IncomingCallActions(callId, callerId, registrationThrows);
      && acts[0] == StartForegroundService(callId, callerId)
      && acts[|acts| - 1] == StartSipRegistration
      && Before(acts, RegisterSelfManaged, LaunchCallActivity(callId, callerId))
      && Before(acts, LaunchCallActivity(callId, callerId), StartSipRegistration)
      && (StartIncomingCall(callId, callerId) in acts <==> !registrationThrows)
      && (!registrationThrows ==> Before(acts, StartIncomingCall(callId, callerId), LaunchCallActivity(callId, callerId)))
  {
    var acts := IncomingCallActions(callId, callerId, registrationThrows);
    var launch := LaunchCallActivity(callId, callerId);
    var k := if registrationThrows then 2 else 3;
    assert acts[1] == RegisterSelfManaged && acts[k] == launch && acts[k + 1] == StartSipRegistration;
    assert Before(acts, RegisterSelfManaged, launch);
    assert Before(acts, launch, StartSipRegistration);
    if !registrationThrows {
      assert acts[2] == StartIncomingCall(callId, callerId);
    } else {
      assert acts == [StartForegroundService(callId, callerId), RegisterSelfManaged, launch, StartSipRegistration];
    }
  }

  /** A push of type `incoming_call` yields that order, with the defaulted ids. */
  lemma IncomingCallPushOrder(data: map<string, string>, registrationThrows: bool)
    requires "type" in data && data["type"] == "incoming_call"
    ensures OnMessageReceived(data, registrationThrows)
      == IncomingCallActions(Lookup(data, "callId", ""), Lookup(data, "callerId", ""), registrationThrows)
  {
    assert data != map[] by {
      assert "type" in data;
    }
  }

  /**
   * `registerSipInBackground`: blank username, password or domain skips the
   * registration; otherwise the engine registers them with the proxy
   * defaulting to `""`. The thread's `catch (e: Exception)` does not take the
   * `Error` a native throw is (the `UnsatisfiedLinkError` of a missing
   * library): `escaped` says the thread ends with it uncaught.
   */
  method RegisterSipInBackground(engine: PjsipEngine, p: MethodChannel.Provisioned, nativeInit: NativeOutcome, native: NativeOutcome)
    returns (attempted: bool, escaped: bool)
    requires engine.Valid()
    modifies engine
    ensures engine.Valid()
    ensures attempted <==> !IsNullOrBlank(p.username) && !IsNullOrBlank(p.password) && !IsNullOrBlank(p.domain)
    ensures !attempted ==> engine.nativeCalls == old(engine.nativeCalls) && engine.initialized == old(engine.initialized)
    ensures attempted ==>
      && engine.nativeCalls != []
      && engine.nativeCalls[|engine.nativeCalls| - 1]
           == NativeRegister(p.username.value, p.password.value, p.domain.value, p.proxy.GetOr(""))
    ensures escaped <==> attempted && Reach(engine.libraryLoaded, native).Threw?
    ensures attempted && !engine.libraryLoaded ==> escaped
  {
    if IsNullOrBlank(p.username) || IsNullOrBlank(p.password) || IsNullOrBlank(p.domain) {
      return false, false;
    }
    var r := engine.Register(p.username.value, p.password.value, p.domain.value, p.proxy.GetOr(""), nativeInit, native);
    attempted := true;
    escaped := r.Threw?;
  }

  /** The side effects of a token refresh. */
  datatype TokenEffect = SaveToken(token: string, atMs: int) | BroadcastToken(token: string)

  /** Every broadcast token had already been saved. */
  predicate SavedBeforeBroadcast(effects: seq<TokenEffect>) {
    forall i :: 0 <= i < |effects| && effects[i].BroadcastToken? ==>
      exists j :: 0 <= j < i && effects[j].SaveToken? && effects[j].token == effects[i].token
  }

  class TokenRefresh {
    /** The token store's `fcm_token` and `fcm_token_updated_at`. */
    var storedToken: Option<string>
    var storedAtMs: int
    var effects: seq<TokenEffect>

    constructor ()
      ensures storedToken == None && storedAtMs == 0 && effects == []
    {
      storedToken := None;
      storedAtMs := 0;
      effects := [];
    }

    /** `onNewToken`: save the token and its time, then broadcast it. */
    method OnNewToken(token: string, nowMs: int)
      requires SavedBeforeBroadcast(effects)
      modifies this
      ensures storedToken == Some(token) && storedAtMs == nowMs
      ensures effects == old(effects) + [SaveToken(token, nowMs), BroadcastToken(token)]
      ensures SavedBeforeBroadcast(effects)
    {
      storedToken := Some(token);
      storedAtMs := nowMs;
      ghost var before := effects;
      effects := effects + [SaveToken(token, nowMs), BroadcastToken(token)];
      forall i | 0 <= i < |effects| && effects[i].BroadcastToken?
        ensures exists j :: 0 <= j < i && effects[j].SaveToken? && effects[j].token == effects[i].token
      {
        if i < |before| {
          var j :| 0 <= j < i && before[j].SaveToken? && before[j].token == before[i].token;
          assert effects[j] == before[j];
        } else {
          assert effects[i - 1] == SaveToken(token, nowMs);
        }
      }
    }
  }
}
