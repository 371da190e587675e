/**
 * The Android provisioning manager: download a provisioning document, parse
 * it, put the credentials in encrypted storage and the account names and a
 * dump of the non-sensitive entries in plain preferences, configure the SIP
 * stack, and only then mark the device provisioned.
 */
module AndroidProvisioning {
  import opened Wrappers
  import opened Text
  import opened ProvisioningConfig
  import PullParser
  import SipStack

  /** Plain preference keys of `provisioning_state`. */
  const KeySipUsername: string := "sip_username"
  const KeySipDomain: string := "sip_domain"
  const KeySipProxy: string := "sip_proxy"

  /** Encrypted storage keys. */
  const SecureSipPassword: string := "sip_password"
  const SecureApiKey: string := "api_key"
  const SecureLdapPassword: string := "ldap_password"

  /** Entries kept out of the plain-preferences dump. */
  const SensitiveKeys: set<string> := {"sip_password", "SipPassword", "api_key", "ldap_password"}

  /** The alias lists `getAny` is given. */
  const PasswordAliases: seq<string> := ["sip_password", "SipPassword"]
  const UsernameAliases: seq<string> := ["sip_username", "SipUsername"]
  const DomainAliases: seq<string> := ["sip_domain", "SipDomaine", "SipDomain"]
  const ProxyAliases: seq<string> := ["sip_proxy", "SipProxy"]

  /** The port used when `sip_wss_port` is absent or not a Kotlin `Int`. */
  const DefaultWssPort: int := 443

  /**
   * What the manager keeps: the plain preferences holding strings, the dump
   * (the map its JSON encodes, if one is stored), the `is_provisioned` flag,
   * and the encrypted storage.
   */
  datatype Stores = Stores(
    prefs: map<string, string>,
    dump: Option<map<string, string>>,
    provisioned: bool,
    secure: map<string, string>)
  {
    /** `getProvisioningDump`: the stored dump with the encrypted values laid over it. */
    function ProvisioningDump(): (r: map<string, string>)
      ensures forall k :: k in r <==> (dump.Some? && k in dump.value) || (k in secure && k in {SecureSipPassword, SecureApiKey, SecureLdapPassword})
      ensures forall k :: k in secure && k in {SecureSipPassword, SecureApiKey, SecureLdapPassword} ==> r[k] == secure[k]
      ensures forall k :: k in r && k !in {SecureSipPassword, SecureApiKey, SecureLdapPassword} ==> r[k] == dump.value[k]
    {
      var base := if dump.Some? then dump.value else map[];
      Overlay(Overlay(Overlay(base, secure, SecureSipPassword), secure, SecureApiKey), secure, SecureLdapPassword)
    }
  }

  /** `m` with `key` set to its value in `from`, when `from` has one. */
  function Overlay(m: map<string, string>, from: map<string, string>, key: string): map<string, string> {
    if key in from then m[key := from[key]] else m
  }

  /** The value `config.get(key)` when it is non-null and not blank. */
  function NonBlank(config: Config, key: string): Option<string> {
    var v := config.Get(key);
    if IsNullOrBlank(v) then None else v
  }

  /** The first of `keys` whose value is non-blank, in order. */
  function FirstNonBlank(config: Config, keys: seq<string>): Option<string>
    decreases |keys|
  {
    if keys == [] then None
    else if NonBlank(config, keys[0]).Some? then NonBlank(config, keys[0])
    else FirstNonBlank(config, keys[1..])
  }

  /** `keys[i]` has a non-blank value and no alias before it has one. */
  predicate FirstAt(config: Config, keys: seq<string>, i: int) {
    && 0 <= i < |keys|
    && keys[i] in config.entries
    && !IsBlank(config.entries[keys[i]])
    && forall j :: 0 <= j < i ==> NonBlank(config, keys[j]) == None
  }

  /**
   * `getAny` finds a value exactly when some alias has a non-blank one, and
   * then it is the value of the first such alias: every alias before it is
   * missing or blank.
   */
  lemma {:induction false} FirstNonBlankIsFirst(config: Config, keys: seq<string>)
    ensures FirstNonBlank(config, keys).Some? <==> exists i :: 0 <= i < |keys| && NonBlank(config, keys[i]).Some?
    ensures FirstNonBlank(config, keys).Some? ==>
      exists i :: FirstAt(config, keys, i) && FirstNonBlank(config, keys).value == config.entries[keys[i]]
    decreases |keys|
  {
    if keys != [] {
      FirstNonBlankIsFirst(config, keys[1..]);
      if NonBlank(config, keys[0]).Some? {
        assert 0 <= 0 < |keys| && NonBlank(config, keys[0]).Some?;
      } else {
        if exists i :: 0 <= i < |keys| && NonBlank(config, keys[i]).Some? {
          var i :| 0 <= i < |keys| && NonBlank(config, keys[i]).Some?;
          assert keys[1..][i - 1] == keys[i];
        }
        if FirstNonBlank(config, keys).Some? {
          var i :| FirstAt(config, keys[1..], i) && FirstNonBlank(config, keys[1..]).value == config.entries[keys[1..][i]];
          forall j | 0 <= j < i + 1 ensures NonBlank(config, keys[j]) == None {
            if j > 0 {
              assert keys[j] == keys[1..][j - 1];
            }
          }
          assert keys[i + 1] == keys[1..][i];
        }
      }
    }
  }

  /** `getAny`: the aliases are tried in order and the first non-blank value is returned. */
  method GetAny(config: Config, keys: seq<string>) returns (r: Option<string>)
    ensures r == FirstNonBlank(config, keys)
  {
    var i := 0;
    while i < |keys|
      invariant 0 <= i <= |keys|
      invariant FirstNonBlank(config, keys) == FirstNonBlank(config, keys[i..])
      decreases |keys| - i
    {
      var value := config.Get(keys[i]);
      if !IsNullOrBlank(value) {
        return value;
      }
      assert keys[i..][1..] == keys[i + 1..];
      i := i + 1;
    }
    return None;
  }

  /** The dump's content: every entry except the sensitive ones. */
  function NonSensitive(config: Config): (r: map<string, string>)
    ensures forall k :: k in r <==> k in config.entries && k !in SensitiveKeys
    ensures forall k :: k in r ==> r[k] == config.entries[k]
  {
    map k | k in config.entries && k !in SensitiveKeys :: config.entries[k]
  }

  /** `v?.let { put(key, it) }`: `m` with `key` set to `v`, when there is a `v`. */
  function PutIf(m: map<string, string>, key: string, v: Option<string>): map<string, string> {
    if v.Some? then m[key := v.value] else m
  }

  /** The stores after `store(config)`. */
  function AfterStore(s: Stores, config: Config): Stores {
    var secure := PutIf(PutIf(PutIf(s.secure,
      SecureSipPassword, FirstNonBlank(config, PasswordAliases)),
      SecureApiKey, config.Get("api_key")),
      SecureLdapPassword, config.Get("ldap_password"));
    var prefs := PutIf(PutIf(PutIf(s.prefs,
      KeySipUsername, FirstNonBlank(config, UsernameAliases)),
      KeySipDomain, FirstNonBlank(config, DomainAliases)),
      KeySipProxy, FirstNonBlank(config, ProxyAliases));
    Stores(prefs, Some(NonSensitive(config)), s.provisioned, secure)
  }

  /**
   * `store` puts the credentials only in encrypted storage, under their own
   * keys; the plain preferences gain only the username, domain and proxy
   * (each the first non-blank alias); the dump holds no sensitive entry; and
   * the flag is untouched.
   */
  lemma StoreSeparatesSecrets(s: Stores, config: Config)
    ensures var t := AfterStore(s, config);
      && t.provisioned == s.provisioned
      && (forall k :: k in t.secure && k !in {SecureSipPassword, SecureApiKey, SecureLdapPassword} ==> k in s.secure && t.secure[k] == s.secure[k])
      && (forall k :: k in t.prefs && k !in {KeySipUsername, KeySipDomain, KeySipProxy} ==> k in s.prefs && t.prefs[k] == s.prefs[k])
      && (forall k :: k in SensitiveKeys ==> k !in t.dump.value)
      && t.secure.Keys >= s.secure.Keys && t.prefs.Keys >= s.prefs.Keys
  {
  }

  /** What `store` writes, key by key, when the document has it. */
  lemma StoreWrites(s: Stores, config: Config)
    ensures var t := AfterStore(s, config);
      && (FirstNonBlank(config, PasswordAliases).Some? ==> t.secure[SecureSipPassword] == FirstNonBlank(config, PasswordAliases).value)
      && ("api_key" in config.entries ==> t.secure[SecureApiKey] == config.entries["api_key"])
      && ("ldap_password" in config.entries ==> t.secure[SecureLdapPassword] == config.entries["ldap_password"])
      && (FirstNonBlank(config, UsernameAliases).Some? ==> t.prefs[KeySipUsername] == FirstNonBlank(config, UsernameAliases).value)
      && (FirstNonBlank(config, DomainAliases).Some? ==> t.prefs[KeySipDomain] == FirstNonBlank(config, DomainAliases).value)
      && (FirstNonBlank(config, ProxyAliases).Some? ==> t.prefs[KeySipProxy] == FirstNonBlank(config, ProxyAliases).value)
      && (FirstNonBlank(config, PasswordAliases).None? ==> (SecureSipPassword in t.secure <==> SecureSipPassword in s.secure))
  {
  }

  /**
   * Reading the dump back after `store` gives every non-sensitive entry of
   * the document unchanged, and the `api_key` and `ldap_password` entries
   * from encrypted storage; the `SipPassword` alias never appears.
   */
  lemma DumpAfterStore(s: Stores, config: Config)
    requires "SipPassword" !in s.secure
    ensures var d := AfterStore(s, config).ProvisioningDump();
      && (forall k :: k in config.entries && k !in SensitiveKeys ==> k in d && d[k] == config.entries[k])
      && (forall k :: k in config.entries && k in {"api_key", "ldap_password"} ==> d[k] == config.entries[k])
      && (FirstNonBlank(config, PasswordAliases).Some? ==> d["sip_password"] == FirstNonBlank(config, PasswordAliases).value)
      && "SipPassword" !in d
  {
  }

  /** The port `configureSip` uses: `sip_wss_port` when it is a Kotlin `Int`, else 443. */
  function WssPort(config: Config): (port: int)
    ensures Int32Min <= port <= Int32Max
  {
    var v := config.Get("sip_wss_port");
    if v.Some? && ParseInt(v.value, Int32Min, Int32Max).Some? then ParseInt(v.value, Int32Min, Int32Max).value
    else DefaultWssPort
  }

  /** The port is 443 when the entry is absent or malformed, and the rendered port read back otherwise. */
  lemma WssPortCases(config: Config, port: int)
    requires Int32Min <= port <= Int32Max
    ensures "sip_wss_port" !in config.entries ==> WssPort(config) == DefaultWssPort
    ensures "sip_wss_port" in config.entries && ParseInt(config.entries["sip_wss_port"], Int32Min, Int32Max).None?
      ==> WssPort(config) == DefaultWssPort
    ensures "sip_wss_port" in config.entries && config.entries["sip_wss_port"] == IntToDecimal(port)
      ==> WssPort(config) == port
  {
    if "sip_wss_port" in config.entries && config.entries["sip_wss_port"] == IntToDecimal(port) {
      DecimalRoundTrip(port, Int32Min, Int32Max);
    }
  }

  /** How `configureSip` ended. */
  datatype SipSetup = MissingCredentials | Configured | StackUnavailable

  /** Why `start` threw. */
  datatype StartFailure = TransportFailed | HttpStatus(code: int) | MalformedDocument

  /** How `start` ended: it returned, with how `configureSip` went, or it threw. */
  datatype StartOutcome = Provisioned(setup: SipSetup) | Threw(failure: StartFailure)

  /** What the HTTP download produced: a response with its status and parsed events, or an I/O failure. */
  datatype Download = Response(code: int, events: seq<PullParser.PullEvent>) | Unreachable

  /** The stores after `resetProvisioning`. */
  function AfterReset(s: Stores): Stores {
    Stores(s.prefs - {KeySipUsername, KeySipDomain, KeySipProxy}, None, false, map[])
  }

  /** After a reset the device is not provisioned, and no account name or credential is left. */
  lemma ResetForgets(s: Stores)
    ensures var t := AfterReset(s);
      && !t.provisioned
      && KeySipUsername !in t.prefs && KeySipDomain !in t.prefs && KeySipProxy !in t.prefs
      && t.ProvisioningDump() == map[]
      && (forall k :: k in t.prefs ==> k in s.prefs && t.prefs[k] == s.prefs[k])
  {
    var t := AfterReset(s);
    assert t.ProvisioningDump().Keys == {};
  }

  class ProvisioningManager {
    const sip: SipStack.SipAccountManager
    var prefs: map<string, string>
    var dump: Option<map<string, string>>
    var provisioned: bool
    var secure: map<string, string>

    function State(): Stores
      reads this
    {
      Stores(prefs, dump, provisioned, secure)
    }

    constructor (sip: SipStack.SipAccountManager, initial: Stores)
      ensures this.sip == sip && State() == initial
    {
      this.sip := sip;
      prefs := initial.prefs;
      dump := initial.dump;
      provisioned := initial.provisioned;
      secure := initial.secure;
    }

    /** `isProvisioned`: the `is_provisioned` preference, false when unset. */
    function IsProvisioned(): bool
      reads this
    {
      provisioned
    }

    /** `store`. */
    method Store(config: Config)
      modifies this
      ensures State() == AfterStore(old(State()), config)
    {
      var password := GetAny(config, PasswordAliases);
      secure := PutIf(secure, SecureSipPassword, password);
      secure := PutIf(secure, SecureApiKey, config.Get("api_key"));
      secure := PutIf(secure, SecureLdapPassword, config.Get("ldap_password"));
      var username := GetAny(config, UsernameAliases);
      prefs := PutIf(prefs, KeySipUsername, username);
      var domain := GetAny(config, DomainAliases);
      prefs := PutIf(prefs, KeySipDomain, domain);
      var proxy := GetAny(config, ProxyAliases);
      prefs := PutIf(prefs, KeySipProxy, proxy);
      dump := Some(NonSensitive(config));
    }

    /**
     * `configureSip`: nothing without a non-blank username, password and
     * domain; otherwise the stack configures the account with the port from
     * `sip_wss_port` or 443, and its `IllegalStateException` is swallowed.
     */
    method ConfigureSip(config: Config) returns (r: SipSetup)
      requires sip.Valid()
      modifies sip
      ensures sip.Valid()
      ensures r == MissingCredentials <==>
        FirstNonBlank(config, UsernameAliases).None? || FirstNonBlank(config, PasswordAliases).None? || FirstNonBlank(config, DomainAliases).None?
      ensures r == MissingCredentials ==> sip.accountRequests == old(sip.accountRequests) && sip.initialized == old(sip.initialized)
      ensures r == Configured <==> r != MissingCredentials && sip.pjsipAvailable
      ensures r == Configured ==> sip.accountRequests == old(sip.accountRequests) + [SipStack.SipAccountConfig(
        FirstNonBlank(config, UsernameAliases).value, FirstNonBlank(config, PasswordAliases).value,
        FirstNonBlank(config, DomainAliases).value, WssPort(config))]
      ensures r == StackUnavailable ==> sip.accountRequests == old(sip.accountRequests)
    {
      var username := GetAny(config, UsernameAliases);
      if username.None? {
        return MissingCredentials;
      }
      var password := GetAny(config, PasswordAliases);
      if password.None? {
        return MissingCredentials;
      }
      var domain := GetAny(config, DomainAliases);
      if domain.None? {
        return MissingCredentials;
      }
      var portText := config.Get("sip_wss_port");
      var parsed := if portText.Some? then ParseInt(portText.value, Int32Min, Int32Max) else None;
      var port := parsed.GetOr(DefaultWssPort);
      var c := sip.ConfigureAccount(username.value, password.value, domain.value, port);
      r := if c == SipStack.Completed then Configured else StackUnavailable;
    }

    /**
     * `start`: download, parse, store, configure, and set `is_provisioned`
     * last. A failed download or a malformed document throws before anything
     * is stored; the flag is set exactly when every step completed.
     */
    method Start(download: Download) returns (r: StartOutcome)
      requires sip.Valid()
      modifies this, sip
      ensures sip.Valid()
      ensures r.Threw? ==> State() == old(State()) && sip.accountRequests == old(sip.accountRequests)
      ensures r.Threw? <==> download.Unreachable? || !(200 <= download.code <= 299) || PullParser.Parse(download.events).None?
      ensures r.Provisioned? ==> State() == AfterStore(old(State()), PullParser.Parse(download.events).value).(provisioned := true)
      ensures provisioned <==> old(provisioned) || r.Provisioned?
    {
      if download.Unreachable? {
        return Threw(TransportFailed);
      }
      if !(200 <= download.code <= 299) {
        return Threw(HttpStatus(download.code));
      }
      var config := PullParser.ParseEvents(download.events);
      if config.None? {
        return Threw(MalformedDocument);
      }
      Store(config.value);
      var setup := ConfigureSip(config.value);
      provisioned := true;
      r := Provisioned(setup);
    }

    /** `resetProvisioning`. */
    method ResetProvisioning()
      modifies this
      ensures State() == AfterReset(old(State()))
      ensures !IsProvisioned()
    {
      prefs := prefs - {KeySipUsername, KeySipDomain, KeySipProxy};
      dump := None;
      provisioned := false;
      secure := map[];
    }
  }
}
