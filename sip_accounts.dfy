/**
 * Current-account bookkeeping over the SIP engine: the account last
 * registered successfully, and the notifications sent to an optional listener.
 */
module SipAccounts {
  import opened Wrappers
  import opened Text
  import opened Pjsip

  /** A SIP account as supplied at runtime. */
  datatype SipAccount = SipAccount(
    username: string,
    password: string,
    domain: string,
    proxy: string,
    displayName: string,
    transport: string,
    registrationTimeout: int)

  /** Listener callbacks. */
  datatype Notice = OnRegistered | OnRegistrationFailed(reason: string) | OnUnregistered

  /** A callback delivered to the listener with the given id. */
  datatype Notified = Notified(listener: nat, notice: Notice)

  /** The reason reported when the native register returns false. */
  const NativeRegisterFailed: string := "native register failed"

  /** `listener?.…`: nothing is delivered without a listener. */
  function Notify(listener: Option<nat>, n: Notice): seq<Notified> {
    if listener.Some? then [Notified(listener.value, n)] else []
  }

  /** The listener callback a native `(type, message)` event causes, if any. */
  function RegistrationNotice(eventType: string, message: string): Option<Notice> {
    if eventType == "registration" then
      if Contains(message, "200") then Some(OnRegistered) else Some(OnRegistrationFailed(message))
    else None
  }

  /**
   * Only `registration` events cause a callback; a message containing `200`
   * means registered, any other means failure with that message as reason.
   */
  lemma RegistrationNoticeCases(eventType: string, message: string)
    ensures RegistrationNotice(eventType, message).Some? <==> eventType == "registration"
    ensures RegistrationNotice(eventType, message) == Some(OnRegistered)
        <==> eventType == "registration" && Contains(message, "200")
    ensures RegistrationNotice(eventType, message).Some? && RegistrationNotice(eventType, message).value.OnRegistrationFailed?
        ==> RegistrationNotice(eventType, message).value.reason == message
  {
  }

  class SipAccountManager {
    const engine: PjsipEngine
    var currentAccount: Option<SipAccount>
    var listener: Option<nat>
    var notices: seq<Notified>

    constructor (engine: PjsipEngine, listener: Option<nat>)
      ensures this.engine == engine && this.listener == listener
      ensures currentAccount == None && notices == []
    {
      this.engine := engine;
      this.listener := listener;
      currentAccount := None;
      notices := [];
    }

    /**
     * `register`: returns the engine's register outcome unchanged; on `true`
     * the account is kept and the listener told, on `false` only the failure
     * is reported, and a throw propagates before either.
     */
    method Register(account: SipAccount, nativeInit: NativeOutcome, native: NativeOutcome) returns (r: NativeOutcome)
      requires engine.Valid()
      modifies this, engine
      ensures engine.Valid()
      ensures r == Reach(engine.libraryLoaded, native)
      ensures engine.nativeCalls != [] && engine.nativeCalls[|engine.nativeCalls| - 1]
        == NativeRegister(account.username, account.password, account.domain, account.proxy)
      ensures listener == old(listener)
      ensures r == Returned(true) ==> currentAccount == Some(account) && notices == old(notices) + Notify(listener, OnRegistered)
      ensures r == Returned(false) ==>
        currentAccount == old(currentAccount) && notices == old(notices) + Notify(listener, OnRegistrationFailed(NativeRegisterFailed))
      ensures r == Threw ==> currentAccount == old(currentAccount) && notices == old(notices)
    {
      r := engine.Register(account.username, account.password, account.domain, account.proxy, nativeInit, native);
      if r.Returned? {
        if r.value {
          currentAccount := Some(account);
          notices := notices + Notify(listener, OnRegistered);
        } else {
          notices := notices + Notify(listener, OnRegistrationFailed(NativeRegisterFailed));
        }
      }
    }

    /** `unregister`: the engine unregisters, the account is forgotten, the listener told. */
    method Unregister()
      requires engine.Valid()
      modifies this, engine
      ensures engine.Valid() && engine.initialized == old(engine.initialized)
      ensures engine.nativeCalls == old(engine.nativeCalls) + (if engine.initialized then [NativeUnregister] else [])
      ensures currentAccount == None && listener == old(listener)
      ensures notices == old(notices) + Notify(listener, OnUnregistered)
    {
      engine.Unregister();
      currentAccount := None;
      notices := notices + Notify(listener, OnUnregistered);
    }

    /** `reRegister`: false with nothing done when no account is kept; otherwise `register` of that account. */
    method ReRegister(nativeInit: NativeOutcome, native: NativeOutcome) returns (r: NativeOutcome)
      requires engine.Valid()
      modifies this, engine
      ensures engine.Valid() && listener == old(listener)
      ensures old(currentAccount).None? ==>
        r == Returned(false) && currentAccount == None && notices == old(notices)
        && engine.nativeCalls == old(engine.nativeCalls)
      ensures old(currentAccount).Some? ==>
        var a := old(currentAccount).value;
        && r == Reach(engine.libraryLoaded, native)
        && engine.nativeCalls != [] && engine.nativeCalls[|engine.nativeCalls| - 1] == NativeRegister(a.username, a.password, a.domain, a.proxy)
        && currentAccount == old(currentAccount)
    {
      if currentAccount.None? {
        return Returned(false);
      }
      r := Register(currentAccount.value, nativeInit, native);
    }

    /** `handleNativeEvent`: forwards registration results to the listener. */
    method HandleNativeEvent(eventType: string, message: string)
      modifies this
      ensures currentAccount == old(currentAccount) && listener == old(listener)
      ensures var n := RegistrationNotice(eventType, message);
        notices == old(notices) + (if n.Some? then Notify(listener, n.value) else [])
    {
      if eventType == "registration" {
        if Contains(message, "200") {
          notices := notices + Notify(listener, OnRegistered);
        } else {
          notices := notices + Notify(listener, OnRegistrationFailed(message));
        }
      }
    }
  }
}
