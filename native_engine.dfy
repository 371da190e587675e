/**
 * The native side of the SIP engine: the endpoint and account lifecycle kept
 * in two globals (`g_initialized`, `g_acc_id`), the SIP URIs it builds, and the
 * mapping of pjsua callbacks to `(type, message)` events for the Kotlin side.
 * The pjsua library itself is foreign: each of its calls is recorded in a log,
 * and its outcomes are parameters.
 */
module NativeEngine {
  import opened Wrappers
  import opened Text

  /** The UDP port of the SIP transport. */
  const SipPort: int := 5060

  /** SIP status code the endpoint answers an incoming call with (180 Ringing). */
  const Ringing180: int := 180

  /** What `nativeRegister` hands to `pjsua_acc_add`. */
  datatype AccountConfig = AccountConfig(
    id: string,
    regUri: string,
    realm: string,
    scheme: string,
    username: string,
    password: string,
    proxy: Option<string>)

  /** The pjsua calls the endpoint makes, in order. */
  datatype PjsuaCall =
    | PjCreate
    | PjInit
    | PjTransportCreate(port: int)
    | PjStart
    | PjDestroy
    | AccDel(accId: nat)
    | AccAdd(config: AccountConfig)
    | CallMake(accId: nat, destination: string)
    | CallAnswer(callId: int, code: int)

  /** Outcomes of the four setup calls on one `ensure_endpoint` attempt. */
  datatype Setup = Setup(create: bool, init: bool, transport: bool, start: bool)

  /** An event sent up to `PjsipEngine.handleNativeEvent`. */
  datatype Event = Event(eventType: string, message: string)

  /** The invite-session states pjsua reports. */
  datatype InvState = StateNull | Calling | Incoming | Early | Connecting | Confirmed | Disconnected

  /** `"sip:" + user + "@" + domain`, the account id. */
  function AccountId(user: string, domain: string): string {
    "sip:" + user + "@" + domain
  }

  /** `"sip:" + domain`, the registrar. */
  function RegistrarUri(domain: string): string {
    "sip:" + domain
  }

  /** `"sip:" + number`, the call destination. */
  function CallDestination(number: string): string {
    "sip:" + number
  }

  /** The account configuration `nativeRegister` builds; a proxy only when non-empty. */
  function AccountFor(user: string, password: string, domain: string, proxy: string): AccountConfig {
    AccountConfig(AccountId(user, domain), RegistrarUri(domain), "*", "digest", user, password,
                  if |proxy| > 0 then Some(proxy) else None)
  }

  /** The position of the last `c` in `s`, if any: a helper of `ParseAccountId`, which the C++ does not have. */
  function LastIndexOf(s: string, c: char): (r: Option<nat>)
    ensures r.Some? ==> r.value < |s| && s[r.value] == c && forall k :: r.value < k < |s| ==> s[k] != c
    ensures r.None? ==> forall k :: 0 <= k < |s| ==> s[k] != c
  {
    if s == [] then None
    else if s[|s| - 1] == c then Some(|s| - 1)
    else LastIndexOf(s[..|s| - 1], c)
  }

  /** Reads an account id back: `sip:`, then user and domain split at the last `@`; the inverse that states `AccountIdRoundTrip`. */
  function ParseAccountId(id: string): Option<(string, string)> {
    if |id| < 4 || id[..4] != "sip:" then None
    else
      var rest := id[4..];
      match LastIndexOf(rest, '@')
      case None => None
      case Some(i) => Some((rest[..i], rest[i + 1..]))
  }

  /** The account id names its user and domain, and the registrar is the same domain. */
  lemma AccountIdRoundTrip(user: string, domain: string)
    requires forall k :: 0 <= k < |domain| ==> domain[k] != '@'
    ensures ParseAccountId(AccountId(user, domain)) == Some((user, domain))
    ensures RegistrarUri(domain)[4..] == domain
  {
    var id := AccountId(user, domain);
    var rest := id[4..];
    assert rest == user + "@" + domain;
    assert rest[|user|] == '@';
    var r := LastIndexOf(rest, '@');
    assert r == Some(|user|);
    assert rest[..|user|] == user;
    assert rest[|user| + 1..] == domain;
  }

  /** The pjsua calls one endpoint setup makes when nothing is set up yet. */
  function SetupCalls(s: Setup): seq<PjsuaCall> {
    if !s.create then [PjCreate]
    else if !s.init then [PjCreate, PjInit, PjDestroy]
    else if !s.transport then [PjCreate, PjInit, PjTransportCreate(SipPort), PjDestroy]
    else if !s.start then [PjCreate, PjInit, PjTransportCreate(SipPort), PjStart, PjDestroy]
    else [PjCreate, PjInit, PjTransportCreate(SipPort), PjStart]
  }

  predicate SetupSucceeds(s: Setup) {
    s.create && s.init && s.transport && s.start
  }

  /**
   * A setup that fails after `pjsua_create` ends by destroying the endpoint; a
   * failing create, and a setup that succeeds, destroy nothing.
   */
  lemma SetupCleansUp(s: Setup)
    ensures !SetupSucceeds(s) && s.create ==> SetupCalls(s)[|SetupCalls(s)| - 1] == PjDestroy
    ensures !s.create ==> SetupCalls(s) == [PjCreate]
    ensures SetupSucceeds(s) <==> PjStart in SetupCalls(s) && PjDestroy !in SetupCalls(s)
  {
  }

  /** `on_call_state`: CONFIRMED and DISCONNECTED become events carrying the decimal call id. */
  function CallStateEvent(callId: int, info: Option<InvState>): Option<Event> {
    match info
    case None => None
    case Some(Confirmed) => Some(Event("call_connected", IntToDecimal(callId)))
    case Some(Disconnected) => Some(Event("call_ended", IntToDecimal(callId)))
    case Some(_) => None
  }

  /** Only a readable CONFIRMED or DISCONNECTED state yields an event, and its message reads back as the call id. */
  lemma CallStateEventShape(callId: int, info: Option<InvState>)
    requires Int32Min <= callId <= Int32Max
    ensures CallStateEvent(callId, info).Some? <==> info == Some(Confirmed) || info == Some(Disconnected)
    ensures CallStateEvent(callId, info).Some? ==>
      && CallStateEvent(callId, info).value.eventType == (if info == Some(Confirmed) then "call_connected" else "call_ended")
      && ParseInt(CallStateEvent(callId, info).value.message, Int32Min, Int32Max) == Some(callId)
  {
    if info == Some(Confirmed) || info == Some(Disconnected) {
      DecimalRoundTrip(callId, Int32Min, Int32Max);
    }
  }

  /** `on_incoming_call`: the event announcing a new inbound call. */
  function IncomingCallEvent(callId: int): Event {
    Event("incoming_call", IntToDecimal(callId))
  }

  /** `on_reg_state`: the status text (or `""`) of a readable account. */
  function RegStateEvent(info: Option<Option<string>>): Option<Event> {
    match info
    case None => None
    case Some(statusText) => Some(Event("registration", statusText.GetOr("")))
  }

  /** The native globals and what has been asked of pjsua and sent up to Kotlin. */
  class Endpoint {
    /** `g_initialized`. */
    var initialized: bool
    /** `g_acc_id`, `None` standing for `PJSUA_INVALID_ID`. */
    var account: Option<nat>
    /** `g_engineClass`: events can only be sent once `nativeInit` has bound it. */
    var engineClassBound: bool
    var pjsuaCalls: seq<PjsuaCall>
    var emitted: seq<Event>

    /** An account exists only on a ready endpoint. */
    predicate Valid()
      reads this
    {
      account.Some? ==> initialized
    }

    constructor ()
      ensures Valid() && !initialized && account == None && !engineClassBound
      ensures pjsuaCalls == [] && emitted == []
    {
      initialized := false;
      account := None;
      engineClassBound := false;
      pjsuaCalls := [];
      emitted := [];
    }

    /**
     * `ensure_endpoint`: true at once when ready; otherwise create, init,
     * transport and start, and `g_initialized` only after all four succeed.
     */
    method EnsureEndpoint(s: Setup) returns (ok: bool)
      requires Valid()
      modifies this
      ensures Valid() && account == old(account)
      ensures old(initialized) ==> ok && initialized && pjsuaCalls == old(pjsuaCalls)
      ensures !old(initialized) ==>
        ok == SetupSucceeds(s) && initialized == ok && pjsuaCalls == old(pjsuaCalls) + SetupCalls(s)
      ensures engineClassBound == old(engineClassBound) && emitted == old(emitted)
    {
      if initialized {
        return true;
      }
      pjsuaCalls := pjsuaCalls + [PjCreate];
      if !s.create {
        return false;
      }
      pjsuaCalls := pjsuaCalls + [PjInit];
      if !s.init {
        pjsuaCalls := pjsuaCalls + [PjDestroy];
        return false;
      }
      pjsuaCalls := pjsuaCalls + [PjTransportCreate(SipPort)];
      if !s.transport {
        pjsuaCalls := pjsuaCalls + [PjDestroy];
        return false;
      }
      pjsuaCalls := pjsuaCalls + [PjStart];
      if !s.start {
        pjsuaCalls := pjsuaCalls + [PjDestroy];
        return false;
      }
      initialized := true;
      ok := true;
    }

    /** `nativeInit`: binds the engine class for events, then sets the endpoint up. */
    method NativeInit(s: Setup) returns (ok: bool)
      requires Valid()
      modifies this
      ensures Valid() && engineClassBound && account == old(account)
      ensures ok == (old(initialized) || SetupSucceeds(s)) && initialized == ok
      ensures pjsuaCalls == old(pjsuaCalls) + (if old(initialized) then [] else SetupCalls(s))
      ensures emitted == old(emitted)
    {
      engineClassBound := true;
      ok := EnsureEndpoint(s);
    }

    /**
     * `nativeRegister`: false when the endpoint cannot be made ready; otherwise
     * any existing account is deleted and reset, then the new one is added, and
     * its id is kept only when the add succeeds.
     */
    method NativeRegister(user: string, password: string, domain: string, proxy: string,
                          s: Setup, added: Option<nat>) returns (ok: bool)
      requires Valid()
      modifies this
      ensures Valid() && engineClassBound == old(engineClassBound) && emitted == old(emitted)
      ensures var ready := old(initialized) || SetupSucceeds(s);
        var setupCalls := if old(initialized) then [] else SetupCalls(s);
        && initialized == ready
        && (!ready ==> !ok && account == old(account) && pjsuaCalls == old(pjsuaCalls) + setupCalls)
        && (ready ==>
              && ok == added.Some? && account == added
              && pjsuaCalls == old(pjsuaCalls) + setupCalls
                 + (if old(account).Some? then [AccDel(old(account).value)] else [])
                 + [AccAdd(AccountFor(user, password, domain, proxy))])
    {
      var ready := EnsureEndpoint(s);
      if !ready {
        return false;
      }
      if account.Some? {
        pjsuaCalls := pjsuaCalls + [AccDel(account.value)];
        account := None;
      }
      pjsuaCalls := pjsuaCalls + [AccAdd(AccountFor(user, password, domain, proxy))];
      account := added;
      ok := added.Some?;
    }

    /** `nativeUnregister`: deletes the account and resets the id; without one it does nothing. */
    method NativeUnregister()
      requires Valid()
      modifies this
      ensures Valid() && account == None && initialized == old(initialized)
      ensures pjsuaCalls == old(pjsuaCalls) + (if old(account).Some? then [AccDel(old(account).value)] else [])
      ensures engineClassBound == old(engineClassBound) && emitted == old(emitted)
    {
      if account.Some? {
        pjsuaCalls := pjsuaCalls + [AccDel(account.value)];
        account := None;
      }
    }

    /**
     * `nativeMakeCall`: false when the endpoint cannot be made ready or no
     * account exists; otherwise a call to `sip:<number>` on the account.
     */
    method NativeMakeCall(number: string, s: Setup, placed: bool) returns (ok: bool)
      requires Valid()
      modifies this
      ensures Valid() && account == old(account)
      ensures engineClassBound == old(engineClassBound) && emitted == old(emitted)
      ensures var ready := old(initialized) || SetupSucceeds(s);
        var setupCalls := if old(initialized) then [] else SetupCalls(s);
        && initialized == ready
        && (ready && account.Some? ==>
              ok == placed && pjsuaCalls == old(pjsuaCalls) + setupCalls + [CallMake(account.value, CallDestination(number))])
        && (!(ready && account.Some?) ==> !ok && pjsuaCalls == old(pjsuaCalls) + setupCalls)
    {
      var ready := EnsureEndpoint(s);
      if !ready || account.None? {
        return false;
      }
      pjsuaCalls := pjsuaCalls + [CallMake(account.value, CallDestination(number))];
      ok := placed;
    }

    /** `emit_event`: dropped until the engine class is bound. */
    method Emit(e: Event)
      modifies this
      ensures emitted == old(emitted) + (if engineClassBound then [e] else [])
      ensures initialized == old(initialized) && account == old(account)
      ensures engineClassBound == old(engineClassBound) && pjsuaCalls == old(pjsuaCalls)
    {
      if engineClassBound {
        emitted := emitted + [e];
      }
    }

    /** `on_incoming_call`: announce the call, then answer it with 180 Ringing. */
    method OnIncomingCall(callId: int)
      modifies this
      ensures emitted == old(emitted) + (if engineClassBound then [IncomingCallEvent(callId)] else [])
      ensures pjsuaCalls == old(pjsuaCalls) + [CallAnswer(callId, Ringing180)]
      ensures initialized == old(initialized) && account == old(account) && engineClassBound == old(engineClassBound)
    {
      Emit(IncomingCallEvent(callId));
      pjsuaCalls := pjsuaCalls + [CallAnswer(callId, Ringing180)];
    }

    /** `on_call_state`: emits the mapped event, if any. */
    method OnCallState(callId: int, info: Option<InvState>)
      modifies this
      ensures var e := CallStateEvent(callId, info);
        emitted == old(emitted) + (if engineClassBound && e.Some? then [e.value] else [])
      ensures initialized == old(initialized) && account == old(account)
      ensures engineClassBound == old(engineClassBound) && pjsuaCalls == old(pjsuaCalls)
    {
      var e := CallStateEvent(callId, info);
      if e.Some? {
        Emit(e.value);
      }
    }

    /** `on_reg_state`: emits the registration status text, if the account is readable. */
    method OnRegState(info: Option<Option<string>>)
      modifies this
      ensures var e := RegStateEvent(info);
        emitted == old(emitted) + (if engineClassBound && e.Some? then [e.value] else [])
      ensures initialized == old(initialized) && account == old(account)
      ensures engineClassBound == old(engineClassBound) && pjsuaCalls == old(pjsuaCalls)
    {
      var e := RegStateEvent(info);
      if e.Some? {
        Emit(e.value);
      }
    }
  }
}
