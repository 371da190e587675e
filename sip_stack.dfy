/**
 * The provisioning side's SIP stack wrapper: initialise the stack once, then
 * hand account configurations to the adapter. The adapter only checks that
 * the PJSIP classes are present, refuses both calls when they are not, and
 * creates no account yet.
 */
module SipStack {

  /** What `configureAccount` hands to the adapter. */
  datatype SipAccountConfig = SipAccountConfig(username: string, password: string, domain: string, wssPort: int)

  /** How a call into the stack ended: normally, or with `IllegalStateException`. */
  datatype Completion = Completed | IllegalState

  class SipAccountManager {
    /** Whether `org.pjsip.pjsua2.Account` can be loaded. */
    const pjsipAvailable: bool
    var initialized: bool
    /** Configurations the adapter's `createAccount` accepted, oldest first (a log; no account is created). */
    var accountRequests: seq<SipAccountConfig>

    /** The flag is only ever set once the adapter has initialised. */
    predicate Valid()
      reads this
    {
      initialized ==> pjsipAvailable
    }

    constructor (pjsipAvailable: bool)
      ensures this.pjsipAvailable == pjsipAvailable && Valid()
      ensures !initialized && accountRequests == []
    {
      this.pjsipAvailable := pjsipAvailable;
      initialized := false;
      accountRequests := [];
    }

    /**
     * `initializePjsip`: nothing once it has succeeded; otherwise the adapter
     * initialises, and the flag is set only after it returns.
     */
    method InitializePjsip() returns (c: Completion)
      requires Valid()
      modifies this
      ensures Valid() && accountRequests == old(accountRequests)
      ensures old(initialized) ==> c == Completed && initialized
      ensures !old(initialized) ==> (c == Completed <==> pjsipAvailable) && initialized == pjsipAvailable
    {
      if initialized {
        return Completed;
      }
      if !pjsipAvailable {
        return IllegalState;
      }
      initialized := true;
      c := Completed;
    }

    /** `configureAccount`: initialise first, then hand `createAccount` the four fields unchanged. */
    method ConfigureAccount(username: string, password: string, domain: string, wssPort: int) returns (c: Completion)
      requires Valid()
      modifies this
      ensures Valid()
      ensures c == Completed <==> pjsipAvailable
      ensures c == Completed ==> initialized && accountRequests == old(accountRequests) + [SipAccountConfig(username, password, domain, wssPort)]
      ensures c == IllegalState ==> initialized == old(initialized) && accountRequests == old(accountRequests)
    {
      c := InitializePjsip();
      if c == IllegalState {
        return;
      }
      c := CreateAccount(SipAccountConfig(username, password, domain, wssPort));
    }

    /** The adapter's `createAccount`: throws without PJSIP, otherwise accepts the configuration and does nothing more. */
    method CreateAccount(config: SipAccountConfig) returns (c: Completion)
      modifies this
      ensures initialized == old(initialized)
      ensures c == Completed <==> pjsipAvailable
      ensures accountRequests == old(accountRequests) + (if pjsipAvailable then [config] else [])
    {
      if !pjsipAvailable {
        return IllegalState;
      }
      accountRequests := accountRequests + [config];
      c := Completed;
    }
  }
}
