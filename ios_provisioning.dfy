/**
 * The iOS provisioning manager: on the download's completion, parse the
 * document with the event-driven parser, save the credentials present in the
 * keychain, configure the SIP account from the exact keys, and only then set
 * the `is_provisioned` default and report success; any error is reported as
 * the failure and leaves the default alone.
 */
module IosProvisioning {
  import opened Wrappers
  import opened Text
  import opened ProvisioningConfig
  import SaxParser
  import AndroidProvisioning

  /** The keychain entries `store` writes, in order. */
  const StoredKeys: seq<string> := ["sip_password", "api_key", "ldap_password"]

  /** The port used when `sip_wss_port` is absent or not a Swift `Int`. */
  const DefaultWssPort: int := 443

  /** What `configureAccount` is handed. */
  datatype SipAccountConfig = SipAccountConfig(username: string, password: string, domain: string, wssPort: int)

  /** The errors the completion can be given. */
  datatype ProvisioningError =
    | Transport                  // the session's own error, passed on
    | EmptyResponse              // `Provisioning` code -1
    | KeychainRefused(key: string)  // the keychain's status error for that item
    | MissingCredentials         // `Provisioning` code -2
    | PjsipUnavailable           // `SipAccountManager` code -1

  /** What the completion handler receives. */
  datatype Completion = Success(config: Config) | Failure(error: ProvisioningError)

  /** What the data task delivers: an error, the body, or neither. */
  datatype Response = Response(error: bool, data: Option<seq<SaxParser.SaxEvent>>)

  /** `keychain` after saving, in order, each of `keys` the document has. */
  function Saved(keychain: map<string, string>, config: Config, keys: seq<string>): map<string, string>
    decreases |keys|
  {
    if keys == [] then keychain
    else
      var last := keys[|keys| - 1];
      var before := Saved(keychain, config, keys[..|keys| - 1]);
      if last in config.entries then before[last := config.entries[last]] else before
  }

  /**
   * Saving keeps every earlier item and adds exactly the listed keys the
   * document has, each with the document's value.
   */
  lemma {:induction false} SavedEntries(keychain: map<string, string>, config: Config, keys: seq<string>)
    ensures forall k :: k in Saved(keychain, config, keys) <==> k in keychain || (k in keys && k in config.entries)
    ensures forall k :: k in keys && k in config.entries ==> Saved(keychain, config, keys)[k] == config.entries[k]
    ensures forall k :: k in keychain && k !in keys ==> Saved(keychain, config, keys)[k] == keychain[k]
    decreases |keys|
  {
    if keys != [] {
      var init := keys[..|keys| - 1];
      SavedEntries(keychain, config, init);
      forall k ensures k in keys <==> k in init || k == keys[|keys| - 1] {
        assert keys == init + [keys[|keys| - 1]];
      }
    }
  }

  /** The first key that is present and whose save the keychain refuses, if any. */
  function FirstRefused(config: Config, refused: set<string>, keys: seq<string>): (r: Option<nat>)
    ensures r.Some? ==> r.value < |keys| && keys[r.value] in config.entries && keys[r.value] in refused
    ensures r.Some? ==> forall j :: 0 <= j < r.value ==> keys[j] !in config.entries || keys[j] !in refused
    ensures r.None? ==> forall j :: 0 <= j < |keys| ==> keys[j] !in config.entries || keys[j] !in refused
    decreases |keys|
  {
    if keys == [] then None
    else if keys[0] in config.entries && keys[0] in refused then Some(0)
    else
      var rest := FirstRefused(config, refused, keys[1..]);
      if rest.Some? then Some(rest.value + 1) else None
  }

  /** The port: `Int(config.get("sip_wss_port") ?? "") ?? 443`. */
  function WssPort(config: Config): (port: int)
    ensures Int64Min <= port <= Int64Max
  {
    var text := config.Get("sip_wss_port").GetOr("");
    ParseInt(text, Int64Min, Int64Max).GetOr(DefaultWssPort)
  }

  /** The port is 443 when the entry is absent or not an `Int`, and the rendered port read back otherwise. */
  lemma WssPortCases(config: Config, port: int)
    requires Int64Min <= port <= Int64Max
    ensures "sip_wss_port" !in config.entries ==> WssPort(config) == DefaultWssPort
    ensures "sip_wss_port" in config.entries && ParseInt(config.entries["sip_wss_port"], Int64Min, Int64Max).None?
      ==> WssPort(config) == DefaultWssPort
    ensures "sip_wss_port" in config.entries && config.entries["sip_wss_port"] == IntToDecimal(port)
      ==> WssPort(config) == port
  {
    if "sip_wss_port" in config.entries && config.entries["sip_wss_port"] == IntToDecimal(port) {
      DecimalRoundTrip(port, Int64Min, Int64Max);
    }
  }

  /**
   * The credentials the account is configured with: the exact keys, any
   * value (an empty one included), or nothing when one of them is absent.
   */
  function Credentials(config: Config): (r: Option<SipAccountConfig>)
    ensures r.Some? <==> "sip_username" in config.entries && "sip_password" in config.entries && "sip_domain" in config.entries
    ensures r.Some? ==> r.value == SipAccountConfig(
      config.entries["sip_username"], config.entries["sip_password"], config.entries["sip_domain"], WssPort(config))
  {
    match (config.Get("sip_username"), config.Get("sip_password"), config.Get("sip_domain"))
    case (Some(u), Some(p), Some(d)) => Some(SipAccountConfig(u, p, d, WssPort(config)))
    case _ => None
  }

  class ProvisioningManager {
    const parser: SaxParser.ProvisioningXmlParser
    /** Whether the app was built with PJSIP; without it `configureAccount` throws. */
    const pjsipAvailable: bool
    /** Keychain items whose save the keychain refuses. */
    const refused: set<string>
    var keychain: map<string, string>
    /** The `is_provisioned` user default. */
    var provisioned: bool
    /** The accounts handed to `configureAccount` without a throw. */
    var accounts: seq<SipAccountConfig>

    constructor (parser: SaxParser.ProvisioningXmlParser, pjsipAvailable: bool, refused: set<string>)
      ensures this.parser == parser && this.pjsipAvailable == pjsipAvailable && this.refused == refused
      ensures keychain == map[] && !provisioned && accounts == []
    {
      this.parser := parser;
      this.pjsipAvailable := pjsipAvailable;
      this.refused := refused;
      keychain := map[];
      provisioned := false;
      accounts := [];
    }

    /** `isProvisioned`: the stored default, false when unset. */
    function IsProvisioned(): bool
      reads this
    {
      provisioned
    }

    /**
     * `store`: each of `sip_password`, `api_key` and `ldap_password` is saved
     * only when the document has it, in that order. Each save deletes the
     * item before adding it, so the first refused add throws with that item
     * gone, and the saves before it stay.
     */
    method Store(config: Config) returns (err: Option<ProvisioningError>)
      modifies this
      ensures provisioned == old(provisioned) && accounts == old(accounts)
      ensures var stop := FirstRefused(config, refused, StoredKeys);
        && (err.Some? <==> stop.Some?)
        && (stop.Some? ==> err == Some(KeychainRefused(StoredKeys[stop.value]))
                           && keychain == Saved(old(keychain), config, StoredKeys[..stop.value]) - {StoredKeys[stop.value]})
        && (stop.None? ==> keychain == Saved(old(keychain), config, StoredKeys))
    {
      StoredKeysOrder(config, refused);
      var sipPassword := config.Get("sip_password");
      if sipPassword.Some? {
        if "sip_password" in refused {
          keychain := keychain - {"sip_password"};
          return Some(KeychainRefused("sip_password"));
        }
        keychain := keychain["sip_password" := sipPassword.value];
      }
      assert keychain == Saved(old(keychain), config, StoredKeys[..1]);
      var apiKey := config.Get("api_key");
      if apiKey.Some? {
        if "api_key" in refused {
          keychain := keychain - {"api_key"};
          return Some(KeychainRefused("api_key"));
        }
        keychain := keychain["api_key" := apiKey.value];
      }
      assert keychain == Saved(old(keychain), config, StoredKeys[..2]);
      var ldapPassword := config.Get("ldap_password");
      if ldapPassword.Some? {
        if "ldap_password" in refused {
          keychain := keychain - {"ldap_password"};
          return Some(KeychainRefused("ldap_password"));
        }
        keychain := keychain["ldap_password" := ldapPassword.value];
      }
      assert keychain == Saved(old(keychain), config, StoredKeys[..3]);
      err := None;
    }

    /**
     * `configureSip`: code -2 when a credential key is absent; otherwise
     * `configureAccount` with the port, which throws when PJSIP is absent.
     */
    method ConfigureSip(config: Config) returns (err: Option<ProvisioningError>)
      modifies this
      ensures keychain == old(keychain) && provisioned == old(provisioned)
      ensures Credentials(config).None? ==> err == Some(MissingCredentials) && accounts == old(accounts)
      ensures Credentials(config).Some? && !pjsipAvailable ==> err == Some(PjsipUnavailable) && accounts == old(accounts)
      ensures Credentials(config).Some? && pjsipAvailable ==> err.None? && accounts == old(accounts) + [Credentials(config).value]
    {
      var username := config.Get("sip_username");
      var password := config.Get("sip_password");
      var domain := config.Get("sip_domain");
      if username.None? || password.None? || domain.None? {
        return Some(MissingCredentials);
      }
      var port := ParseInt(config.Get("sip_wss_port").GetOr(""), Int64Min, Int64Max).GetOr(DefaultWssPort);
      if !pjsipAvailable {
        return Some(PjsipUnavailable);
      }
      accounts := accounts + [SipAccountConfig(username.value, password.value, domain.value, port)];
      err := None;
    }

    /**
     * The data task's completion in `start`: a transport error or an empty
     * body fails before anything is parsed; otherwise the document is parsed,
     * stored and configured, and the default is set just before success is
     * reported. Any throw is reported as the failure.
     */
    method Complete(response: Response) returns (c: Completion)
      modifies this, parser
      ensures response.error ==> c == Failure(Transport)
      ensures !response.error && response.data.None? ==> c == Failure(EmptyResponse)
      ensures response.error || response.data.None? ==>
        keychain == old(keychain) && accounts == old(accounts) && parser.State() == old(parser.State())
      ensures !response.error && response.data.Some? ==>
        parser.entries == SaxParser.Run(SaxParser.SaxState(map[], old(parser.currentKey), old(parser.currentValue)), response.data.value).entries
      ensures c.Success? ==> c.config == Config(parser.entries)
      ensures provisioned <==> old(provisioned) || c.Success?
      ensures c.Success? <==>
        && !response.error && response.data.Some?
        && FirstRefused(Config(parser.entries), refused, StoredKeys).None?
        && Credentials(Config(parser.entries)).Some? && pjsipAvailable
    {
      if response.error {
        return Failure(Transport);
      }
      if response.data.None? {
        return Failure(EmptyResponse);
      }
      var config := parser.Parse(response.data.value);
      var stored := Store(config);
      if stored.Some? {
        return Failure(stored.value);
      }
      var configured := ConfigureSip(config);
      if configured.Some? {
        return Failure(configured.value);
      }
      provisioned := true;
      c := Success(config);
    }
  }

  /** `FirstRefused` and `PresentAmong` worked out on the three keychain items. */
  lemma StoredKeysOrder(config: Config, refused: set<string>)
    ensures var inP := "sip_password" in config.entries && "sip_password" in refused;
      var inA := "api_key" in config.entries && "api_key" in refused;
      var inL := "ldap_password" in config.entries && "ldap_password" in refused;
      FirstRefused(config, refused, StoredKeys)
        == if inP then Some(0) else if inA then Some(1) else if inL then Some(2) else None
    ensures StoredKeys[..0] == [] && StoredKeys[..1] == ["sip_password"] && StoredKeys[..2] == ["sip_password", "api_key"]
    ensures StoredKeys[..3] == StoredKeys && StoredKeys[..1][..0] == [] && StoredKeys[..2][..1] == StoredKeys[..1] && StoredKeys[..3][..2] == StoredKeys[..2]
  {
    assert StoredKeys[1..] == ["api_key", "ldap_password"];
    assert StoredKeys[1..][1..] == ["ldap_password"];
    assert StoredKeys[1..][1..][1..] == [];
  }

  /**
   * Blank credentials pass the iOS check but not the Android one: a document
   * with an empty username is configured on iOS and skipped on Android.
   */
  lemma EmptyUsernameAccepted(password: string, domain: string)
    ensures var config := Config(map["sip_username" := "", "sip_password" := password, "sip_domain" := domain]);
      && Credentials(config) == Some(SipAccountConfig("", password, domain, DefaultWssPort))
      && AndroidProvisioning.FirstNonBlank(config, AndroidProvisioning.UsernameAliases).None?
  {
    var config := Config(map["sip_username" := "", "sip_password" := password, "sip_domain" := domain]);
    assert IsBlank("");
    assert "SipUsername" !in config.entries;
  }
}
