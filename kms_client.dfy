/**
 * `org.apache.ranger.services.kms.client.KMSClient`: the client object, its
 * key-listing call `getKeyList` with its loop over the provider endpoints,
 * and the static helpers `getKmsClient`, `getKmsKey` and `testConnection`.
 */
module KmsClient {
  import opened Wrappers
  import opened JavaLang
  import opened KmsEndpoints
  import opened KmsRequest
  import opened KmsKeys
  import opened KmsFailover

  const ERR_MESSAGE: string := " You can still save the repository and start creating "
    + "policies, but you would not be able to use autocomplete for "
    + "resource names. Check ranger_admin.log for more info."

  /**
   * The code the client calls and that this model does not contain, as
   * functions of their inputs: URI unnesting and parsing, `new URI` on a
   * composed mirror URL, `HadoopKerberosName.getShortName`, and what the
   * `i`-th endpoint's authenticated GET of a URL delivers (login, the HTTP
   * exchange and JSON parsing included).
   */
  datatype Env = Env(
    unnest: string -> Option<UnnestedUrl>,
    uriValid: string -> bool,
    shortName: Option<string> -> string,
    call: (nat, string) -> Attempt)

  /** The client's fields at one moment. */
  datatype KmsSettings = KmsSettings(
    provider: Option<string>, username: Option<string>, password: Option<string>,
    rangerPrincipal: Option<string>, rangerKeytab: Option<string>, nameRules: Option<string>,
    authType: Option<string>)

  /** The request URL of every provider, in provider order. */
  function Targets(s: KmsSettings, env: Env, providers: seq<string>): (r: seq<string>)
    ensures |r| == |providers|
  {
    seq(|providers|, j requires 0 <= j < |providers| =>
      RequestTarget(providers[j], s.authType, s.username, s.rangerPrincipal, s.rangerKeytab, env.shortName))
  }

  /** Provider `i`'s URL extends the URLs of the first `i` providers, and its call is the `i`-th attempt. */
  lemma TargetsExtend(s: KmsSettings, env: Env, providers: seq<string>, i: nat, uri: string)
    requires i < |providers|
    requires uri == RequestTarget(providers[i], s.authType, s.username, s.rangerPrincipal, s.rangerKeytab, env.shortName)
    ensures Targets(s, env, providers)[..i + 1] == Targets(s, env, providers)[..i] + [uri]
    ensures Attempts(s, env, providers)[i] == env.call(i, uri)
  {
  }

  /** What each provider's call delivers. */
  function Attempts(s: KmsSettings, env: Env, providers: seq<string>): (r: seq<Attempt>)
    ensures |r| == |providers|
  {
    var targets := Targets(s, env, providers);
    seq(|providers|, j requires 0 <= j < |providers| => env.call(j, targets[j]))
  }

  /**
   * What `getKeyList` returns or throws: a null provider makes `new URI`
   * throw; a provider that does not resolve gives null before any call;
   * otherwise the failover loop over the resolved endpoints decides.
   */
  function KeyList(s: KmsSettings, env: Env, keyNameMatching: Option<string>, existingKeyList: Option<seq<string>>)
    : (r: Completion<Option<seq<string>>>)
    ensures r == Abrupt(NullPointerException) <==> s.provider.None?
    ensures r.Abrupt? && r.exception.HadoopException? ==>
      r.exception.cause.AccessDenied? || r.exception.cause == NullResponse || r.exception.cause == CallException
  {
    if s.provider.None? then Abrupt(NullPointerException)
    else
      match ResolvedProviders(s.provider.value, env.unnest, env.uriValid)
      case Failure(_) => Normal(None)
      case Success(ps) => Failover(Attempts(s, env, ps), keyNameMatching, existingKeyList)
  }

  /** The URLs `getKeyList` requests, in order: those of the endpoints it enters. */
  function RequestedTargets(s: KmsSettings, env: Env): (r: seq<string>)
    ensures s.provider.Some? && ResolvedProviders(s.provider.value, env.unnest, env.uriValid).Success? ==>
      |r| <= |ResolvedProviders(s.provider.value, env.unnest, env.uriValid).value|
    ensures s.provider.None? || ResolvedProviders(s.provider.value, env.unnest, env.uriValid).Failure? ==> r == []
  {
    if s.provider.None? then []
    else
      match ResolvedProviders(s.provider.value, env.unnest, env.uriValid)
      case Failure(_) => []
      case Success(ps) => Targets(s, env, ps)[..Tried(Attempts(s, env, ps))]
  }

  /** The `nameRules` field after `getKeyList`: defaulted as soon as one endpoint is entered. */
  function NameRulesAfter(s: KmsSettings, env: Env): (r: Option<string>)
    ensures r != s.nameRules ==>
      r == Some("DEFAULT") && IsEmpty(s.nameRules) && SelectStrategy(s.authType, s.rangerPrincipal, s.rangerKeytab) == Keytab
  {
    if s.provider.None? then s.nameRules
    else
      match ResolvedProviders(s.provider.value, env.unnest, env.uriValid)
      case Failure(_) => s.nameRules
      case Success(ps) =>
        if |ps| == 0 then s.nameRules
        else NameRulesAfterLogin(SelectStrategy(s.authType, s.rangerPrincipal, s.rangerKeytab), s.nameRules)
  }

  /** Once the provider resolves to `ps`, the three results are those of the loop over `ps`. */
  lemma ResolvedKeyList(s: KmsSettings, env: Env, keyNameMatching: Option<string>,
                        existingKeyList: Option<seq<string>>, ps: seq<string>)
    requires s.provider.Some? && ResolvedProviders(s.provider.value, env.unnest, env.uriValid) == Success(ps)
    ensures KeyList(s, env, keyNameMatching, existingKeyList) == Failover(Attempts(s, env, ps), keyNameMatching, existingKeyList)
    ensures RequestedTargets(s, env) == Targets(s, env, ps)[..Tried(Attempts(s, env, ps))]
    ensures NameRulesAfter(s, env)
         == if |ps| == 0 then s.nameRules
            else NameRulesAfterLogin(SelectStrategy(s.authType, s.rangerPrincipal, s.rangerKeytab), s.nameRules)
  {
  }

  /** A resolution error or a missing provider means no endpoint is requested. */
  lemma UnresolvedProviderRequestsNothing(s: KmsSettings, env: Env, keyNameMatching: Option<string>,
                                          existingKeyList: Option<seq<string>>)
    requires s.provider.Some? && ResolvedProviders(s.provider.value, env.unnest, env.uriValid).Failure?
    ensures KeyList(s, env, keyNameMatching, existingKeyList) == Normal(None)
    ensures RequestedTargets(s, env) == [] && NameRulesAfter(s, env) == s.nameRules
  {
  }

  /** The first requested URL is the listing URL of the first provider, with the strategy's suffix. */
  lemma RequestsStartAtFirstProvider(s: KmsSettings, env: Env, ps: seq<string>)
    requires s.provider.Some? && ResolvedProviders(s.provider.value, env.unnest, env.uriValid) == Success(ps)
    requires |ps| > 0
    ensures |RequestedTargets(s, env)| >= 1
    ensures RequestedTargets(s, env)[0]
         == RequestTarget(ps[0], s.authType, s.username, s.rangerPrincipal, s.rangerKeytab, env.shortName)
  {
    var atts := Attempts(s, env, ps);
    var targets := Targets(s, env, ps);
    assert RequestedTargets(s, env) == targets[..Tried(atts)];
    assert Tried(atts) >= 1 by {
      if FirstDelivering(atts, 0).Some? {
      }
    }
    assert targets[..Tried(atts)][0] == targets[0];
  }

  /** `configs.get(key)`. */
  function ConfigValue(configs: map<string, string>, key: string): (r: Option<string>)
    ensures r.Some? <==> key in configs
    ensures r.Some? ==> r.value == configs[key]
  {
    if key in configs then Some(configs[key]) else None
  }

  /** The constructor arguments `getKmsClient` reads from the configuration map. */
  function SettingsFrom(configs: map<string, string>): KmsSettings {
    KmsSettings(ConfigValue(configs, "provider"), ConfigValue(configs, "username"),
                ConfigValue(configs, "password"), ConfigValue(configs, "rangerprincipal"),
                ConfigValue(configs, "rangerkeytab"), ConfigValue(configs, "namerules"),
                ConfigValue(configs, "authtype"))
  }

  /** `configs == null || configs.isEmpty()`. */
  predicate ConfigsEmpty(configs: Option<map<string, string>>) {
    configs.None? || |configs.value| == 0
  }

  /** `getKmsKey` rethrows a `HadoopException` and wraps any other exception into one. */
  function Rethrow(c: Completion<Option<seq<string>>>): (r: Completion<Option<seq<string>>>)
    ensures r.Abrupt? <==> c.Abrupt?
    ensures r.Abrupt? ==> r.exception.HadoopException?
    ensures c.Normal? || c.exception.HadoopException? ==> r == c
  {
    if c.Abrupt? && c.exception.NullPointerException? then Abrupt(HadoopException(ProviderFailure)) else c
  }

  /** The response map of `testConnection`: success flag, message and description. */
  datatype ConnectionReport = ConnectionReport(connectivityStatus: bool, message: string, description: string)

  /** Lines 317-328: success exactly when a list (possibly empty) came back. */
  function Report(strList: Option<seq<string>>): (r: ConnectionReport)
    ensures r.connectivityStatus <==> strList.Some?
    ensures r.connectivityStatus ==> r.message == r.description == "TestConnection Successful"
    ensures !r.connectivityStatus ==> r.description == r.message + ERR_MESSAGE
  {
    if strList.Some? then ConnectionReport(true, "TestConnection Successful", "TestConnection Successful")
    else
      var failureMsg := "Unable to retrieve any Kms Key using given URL.";
      ConnectionReport(false, failureMsg, failureMsg + ERR_MESSAGE)
  }

  /**
   * The `try` block of one iteration of `getKeyList`, lines 197-288, given
   * what the call delivered: the list it returns, the value `lret` keeps
   * otherwise, and the exception pending when the `finally` block runs.
   */
  method TryEndpoint(attempt: Attempt, keyNameMatching: Option<string>, existingKeyList: Option<seq<string>>)
    returns (lret: Option<seq<string>>, pending: Option<JavaException>, delivered: bool)
    ensures delivered <==> Delivers(attempt)
    ensures Leaves(Classify(attempt, keyNameMatching, existingKeyList), lret, pending)
  {
    lret := Some([]);
    pending := None;
    delivered := false;
    match attempt
    case CallFailed =>
      lret := None;
      pending := Some(HadoopException(CallException));
    case NoResponse =>
      lret := None;
      pending := Some(HadoopException(NullResponse));
    case Responded(status, entity, json) =>
      if status == 200 {
        match json
        case JsonStrings(keys) =>
          var kept := CollectKeys(keys, keyNameMatching, existingKeyList);
          lret := Some(kept);
          delivered := true;
        case JsonNull =>
        case JsonInvalid =>
          lret := None;
          pending := Some(HadoopException(CallException));
      } else if status == 401 || status == 403 {
        lret := None;
        pending := Some(HadoopException(AccessDenied(status, entity)));
      } else {
        lret := None;
      }
  }

  class KMSClient {
    var provider: Option<string>
    var username: Option<string>
    var password: Option<string>
    var rangerPrincipal: Option<string>
    var rangerKeytab: Option<string>
    var nameRules: Option<string>
    var authType: Option<string>

    constructor (provider: Option<string>, username: Option<string>, password: Option<string>,
                 rangerPrincipal: Option<string>, rangerKeytab: Option<string>, nameRules: Option<string>,
                 authType: Option<string>)
      ensures Settings() == KmsSettings(provider, username, password, rangerPrincipal, rangerKeytab, nameRules, authType)
    {
      this.provider := provider;
      this.username := username;
      this.password := password;
      this.rangerPrincipal := rangerPrincipal;
      this.rangerKeytab := rangerKeytab;
      this.nameRules := nameRules;
      this.authType := authType;
    }

    function Settings(): KmsSettings
      reads this
    {
      KmsSettings(provider, username, password, rangerPrincipal, rangerKeytab, nameRules, authType)
    }

    /**
     * `getKeyList`, lines 143-305. `requested` is the sequence of URLs the
     * iterations request. Only `nameRules` changes.
     */
    method GetKeyList(keyNameMatching: Option<string>, existingKeyList: Option<seq<string>>, env: Env)
      returns (r: Completion<Option<seq<string>>>, ghost requested: seq<string>)
      modifies this`nameRules
      ensures r == KeyList(old(Settings()), env, keyNameMatching, existingKeyList)
      ensures requested == RequestedTargets(old(Settings()), env)
      ensures nameRules == NameRulesAfter(old(Settings()), env)
    {
      ghost var s0 := Settings();
      requested := [];
      if provider.None? {
        // `new URI(null)` at line 93 throws, and line 149 does not catch a NullPointerException
        return Abrupt(NullPointerException), requested;
      }
      var resolved := CreateProvider(provider.value, env.unnest, env.uriValid);
      if resolved.Failure? {
        return Normal(None), requested;
      }
      var providers := resolved.value;
      ResolvedKeyList(s0, env, keyNameMatching, existingKeyList, providers[..]);
      r, requested := RequestEach(providers, keyNameMatching, existingKeyList, env);
    }

    /**
     * The loop of `getKeyList` over the resolved endpoints, lines 154-303:
     * every iteration requests one endpoint; a delivered list returns at
     * once and the `finally` block decides whether a failure moves on.
     */
    method RequestEach(providers: array<string>, keyNameMatching: Option<string>,
                       existingKeyList: Option<seq<string>>, env: Env)
      returns (r: Completion<Option<seq<string>>>, ghost requested: seq<string>)
      modifies this`nameRules
      ensures var atts := Attempts(old(Settings()), env, providers[..]);
        && r == Failover(atts, keyNameMatching, existingKeyList)
        && requested == Targets(old(Settings()), env, providers[..])[..Tried(atts)]
      ensures nameRules == if providers.Length == 0 then old(nameRules)
        else NameRulesAfterLogin(SelectStrategy(authType, rangerPrincipal, rangerKeytab), old(nameRules))
    {
      ghost var s0 := Settings();
      requested := [];
      ghost var ps := providers[..];
      ghost var targets := Targets(s0, env, ps);
      ghost var atts := Attempts(s0, env, ps);
      ghost var strategy := SelectStrategy(s0.authType, s0.rangerPrincipal, s0.rangerKeytab);
      var lret: Option<seq<string>> := None;
      var i := 0;
      while i < providers.Length
        invariant 0 <= i <= providers.Length && providers[..] == ps
        invariant Failover(atts, keyNameMatching, existingKeyList) == Run(atts, keyNameMatching, existingKeyList, i, lret)
        invariant FirstDelivering(atts, 0) == FirstDelivering(atts, i)
        invariant requested == targets[..i]
        invariant nameRules == if i == 0 then s0.nameRules else NameRulesAfterLogin(strategy, s0.nameRules)
      {
        ghost var old_lret := lret;
        var uri, pending, delivered;
        uri, lret, pending, delivered := Visit(providers, i, keyNameMatching, existingKeyList, env, s0, targets, atts);
        NameRulesDefaultingIdempotent(strategy, s0.nameRules);
        RunPassesOn(atts, keyNameMatching, existingKeyList, i, old_lret, lret, pending);
        TriedFrom(atts, i);
        requested := requested + [uri];
        if delivered {
          return Normal(lret), requested;
        }
        // the `finally` block, lines 289-301: on any endpoint but the last,
        // `continue` discards a pending exception
        if lret.None? && i != providers.Length - 1 {
          i := i + 1;
          continue;
        }
        if pending.Some? {
          return Abrupt(pending.value), requested;
        }
        i := i + 1;
      }
      assert Tried(atts) == i;
      return Normal(lret), requested;
    }

    /**
     * The `try` block of iteration `i`, lines 155-288: a fresh empty list,
     * the request URL, the call, and what it leaves for the `finally` block.
     */
    method Visit(providers: array<string>, i: nat, keyNameMatching: Option<string>,
                 existingKeyList: Option<seq<string>>, env: Env, ghost s0: KmsSettings,
                 ghost targets: seq<string>, ghost atts: seq<Attempt>)
      returns (uri: string, lret: Option<seq<string>>, pending: Option<JavaException>, delivered: bool)
      requires i < providers.Length
      requires authType == s0.authType && username == s0.username
      requires rangerPrincipal == s0.rangerPrincipal && rangerKeytab == s0.rangerKeytab
      modifies this`nameRules
      requires targets == Targets(s0, env, providers[..]) && atts == Attempts(s0, env, providers[..])
      ensures i < |targets| == |atts| && targets[..i + 1] == targets[..i] + [uri]
      ensures delivered <==> Delivers(atts[i])
      ensures Leaves(Classify(atts[i], keyNameMatching, existingKeyList), lret, pending)
      ensures nameRules == NameRulesAfterLogin(SelectStrategy(s0.authType, s0.rangerPrincipal, s0.rangerKeytab), old(nameRules))
    {
      lret := Some([]);
      uri := PrepareRequest(providers[i], env);
      TargetsExtend(s0, env, providers[..], i, uri);
      var attempt := env.call(i, uri);
      lret, pending, delivered := TryEndpoint(attempt, keyNameMatching, existingKeyList);
    }

    /**
     * Lines 159-196 of one iteration: the listing URL of `base` with the
     * strategy's query suffix; the keytab branch defaults an empty
     * `nameRules` to "DEFAULT" before it logs in.
     */
    method PrepareRequest(base: string, env: Env) returns (uri: string)
      modifies this`nameRules
      ensures uri == RequestTarget(base, authType, username, rangerPrincipal, rangerKeytab, env.shortName)
      ensures nameRules == NameRulesAfterLogin(SelectStrategy(authType, rangerPrincipal, rangerKeytab), old(nameRules))
    {
      uri := RequestUrl(base);
      var isKerberos := IsKerberos(authType);
      if !isKerberos {
        uri := uri + "?user.name=" + Str(username);
      } else if !IsEmpty(rangerPrincipal) && !IsEmpty(rangerKeytab) {
        if IsEmpty(nameRules) {
          nameRules := Some("DEFAULT");
        }
        uri := uri + "?doAs=" + env.shortName(rangerPrincipal);
      } else {
        uri := uri + "?doAs=" + env.shortName(username);
      }
    }

    /** `getKmsClient`, lines 333-361: refuses a null or empty configuration before constructing anything. */
    static method GetKmsClient(serviceName: Option<string>, configs: Option<map<string, string>>)
      returns (r: Completion<KMSClient>)
      ensures ConfigsEmpty(configs) ==> r == Abrupt(HadoopException(ConfigMapEmpty))
      ensures !ConfigsEmpty(configs) ==> r.Normal? && fresh(r.value) && r.value.Settings() == SettingsFrom(configs.value)
    {
      if ConfigsEmpty(configs) {
        return Abrupt(HadoopException(ConfigMapEmpty));
      }
      var m := configs.value;
      var client := new KMSClient(ConfigValue(m, "provider"), ConfigValue(m, "username"),
                                  ConfigValue(m, "password"), ConfigValue(m, "rangerprincipal"),
                                  ConfigValue(m, "rangerkeytab"), ConfigValue(m, "namerules"),
                                  ConfigValue(m, "authtype"));
      return Normal(client);
    }

    /**
     * `getKmsKey`, lines 363-403: a null client throws; a null key name gives
     * an empty list without a call; otherwise the trimmed name is passed on.
     */
    static method GetKmsKey(kmsClient: KMSClient?, keyName: Option<string>, existingKeyName: Option<seq<string>>,
                            env: Env)
      returns (r: Completion<Option<seq<string>>>, ghost requested: seq<string>)
      modifies kmsClient
      ensures kmsClient == null ==> r == Abrupt(HadoopException(KmsClientNull)) && requested == []
      ensures kmsClient != null && keyName.None? ==>
        r == Normal(Some([])) && requested == [] && kmsClient.Settings() == old(kmsClient.Settings())
      ensures kmsClient != null && keyName.Some? ==>
        && r == Rethrow(KeyList(old(kmsClient.Settings()), env, Some(Trim(keyName.value)), existingKeyName))
        && requested == RequestedTargets(old(kmsClient.Settings()), env)
        && kmsClient.Settings() == old(kmsClient.Settings()).(nameRules := NameRulesAfter(old(kmsClient.Settings()), env))
    {
      requested := [];
      if kmsClient == null {
        return Abrupt(HadoopException(KmsClientNull)), requested;
      }
      r := Normal(Some([]));
      if keyName.Some? {
        var finalKmsKeyName := Trim(keyName.value);
        var listed;
        listed, requested := kmsClient.GetKeyList(Some(finalKmsKeyName), existingKeyName, env);
        r := Rethrow(listed);
      }
    }

    /**
     * `testConnection`, lines 307-331: lists every key with prefix "" and no
     * exclusion list, and reports success exactly when a list came back.
     */
    static method TestConnection(serviceName: Option<string>, configs: Option<map<string, string>>, env: Env)
      returns (r: Completion<ConnectionReport>, ghost requested: seq<string>)
      ensures ConfigsEmpty(configs) ==> r == Abrupt(HadoopException(ConfigMapEmpty))
      ensures !ConfigsEmpty(configs) ==>
        var listed := Rethrow(KeyList(SettingsFrom(configs.value), env, Some(""), None));
        && (r.Abrupt? <==> listed.Abrupt?)
        && (r.Abrupt? ==> r.exception == listed.exception)
        && (r.Normal? ==> r.value == Report(listed.value))
      ensures requested == if ConfigsEmpty(configs) then [] else RequestedTargets(SettingsFrom(configs.value), env)
    {
      requested := [];
      var created := GetKmsClient(serviceName, configs);
      if created.Abrupt? {
        return Abrupt(created.exception), requested;
      }
      var strList;
      strList, requested := GetKmsKey(created.value, Some(""), None, env);
      if strList.Abrupt? {
        return Abrupt(strList.exception), requested;
      }
      r := Normal(Report(strList.value));
    }
  }
}
