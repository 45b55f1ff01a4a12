/**
 * The request URL of one key-listing call of the KMS client: the path join
 * of `KMSClient.getKeyList` line 159 and the query suffix that the chosen
 * credential strategy appends (lines 168-196).
 */
module KmsRequest {
  import opened Wrappers
  import opened JavaLang

  const KMS_LIST_API_ENDPOINT: string := "v1/keys/names"

  /** The listing URL of a provider, line 159: inserts '/' only when the base lacks one. */
  function RequestUrl(base: string): string {
    base + (if EndsWith(base, "/") then KMS_LIST_API_ENDPOINT else "/" + KMS_LIST_API_ENDPOINT)
  }

  /**
   * The listing URL extends the base and ends with exactly one '/' before
   * the API path, whether or not the base ended with one.
   */
  lemma RequestUrlJoinsPath(base: string)
    ensures StartsWith(RequestUrl(base), base)
    ensures EndsWith(RequestUrl(base), "/" + KMS_LIST_API_ENDPOINT)
    ensures RequestUrl(base) == (if EndsWith(base, "/") then base[..|base| - 1] else base) + "/" + KMS_LIST_API_ENDPOINT
  {
    var r := RequestUrl(base);
    assert r[..|base|] == base;
    assert EndsWith(base, "/") ==> base == base[..|base| - 1] + "/";
  }

  /**
   * `Character.toUpperCase`/`toLowerCase` comparison of `c` with the
   * lower-case ASCII letter `l`, as `equalsIgnoreCase` does it: besides the
   * two ASCII cases, KELVIN SIGN lower-cases to 'k' and LATIN SMALL LETTER
   * LONG S upper-cases to 'S'; no other character matches a letter of
   * "kerberos".
   */
  predicate MatchesIgnoringCase(c: char, l: char)
    requires 'a' <= l <= 'z'
  {
    c == l || c as int == l as int - 32 || (l == 'k' && c == '\U{212A}') || (l == 's' && c == '\U{017F}')
  }

  /** `authType != null && authType.equalsIgnoreCase("kerberos")`. */
  predicate IsKerberos(authType: Option<string>) {
    var k := "kerberos";
    authType.Some? && |authType.value| == |k| &&
    forall i :: 0 <= i < |k| ==> MatchesIgnoringCase(authType.value[i], k[i])
  }

  /** The three credential strategies of lines 168-196, in their order of precedence. */
  datatype AuthStrategy =
    | Simple     // not Kerberos: `SecureClientLogin.login(username)`
    | Keytab     // Kerberos with principal and keytab: `loginUserFromKeytab`
    | Password   // Kerberos otherwise: `loginUserWithPassword`

  function SelectStrategy(authType: Option<string>, rangerPrincipal: Option<string>, rangerKeytab: Option<string>)
    : (r: AuthStrategy)
    ensures r == Simple <==> !IsKerberos(authType)
    ensures r == Keytab <==> IsKerberos(authType) && !IsEmpty(rangerPrincipal) && !IsEmpty(rangerKeytab)
  {
    if !IsKerberos(authType) then Simple
    else if !IsEmpty(rangerPrincipal) && !IsEmpty(rangerKeytab) then Keytab
    else Password
  }

  /** The proxy-user query of a Kerberos login. */
  function DoAs(shortName: string): (r: string)
    ensures StartsWith(r, "?doAs=") && !StartsWith(r, "?user.name=")
  {
    var q := "?doAs=" + shortName;
    assert q[1] == 'd' && "?user.name="[1] == 'u';
    q
  }

  /** The query suffix each strategy appends to the listing URL. */
  function QuerySuffix(strategy: AuthStrategy, username: Option<string>, rangerPrincipal: Option<string>,
                       shortName: Option<string> -> string): (r: string)
    ensures StartsWith(r, "?user.name=") <==> strategy == Simple
    ensures strategy != Simple ==> StartsWith(r, "?doAs=")
  {
    match strategy
    case Simple => "?user.name=" + Str(username)
    case Keytab => DoAs(shortName(rangerPrincipal))
    case Password => DoAs(shortName(username))
  }

  /** The whole request URL for one provider. */
  function RequestTarget(base: string, authType: Option<string>, username: Option<string>,
                         rangerPrincipal: Option<string>, rangerKeytab: Option<string>,
                         shortName: Option<string> -> string): string
  {
    RequestUrl(base) + QuerySuffix(SelectStrategy(authType, rangerPrincipal, rangerKeytab), username, rangerPrincipal, shortName)
  }

  /** Without Kerberos the request names the user: it ends with "/v1/keys/names?user.name=" and the user name. */
  lemma SimpleTargetNamesUser(base: string, authType: Option<string>, username: string,
                              rangerPrincipal: Option<string>, rangerKeytab: Option<string>,
                              shortName: Option<string> -> string)
    requires !IsKerberos(authType)
    ensures var t := RequestTarget(base, authType, Some(username), rangerPrincipal, rangerKeytab, shortName);
      EndsWith(t, "/" + KMS_LIST_API_ENDPOINT + "?user.name=" + username) && StartsWith(t, base)
    ensures RequestTarget(base, authType, Some(username), rangerPrincipal, rangerKeytab, shortName)
         == RequestUrl(base) + "?user.name=" + username
  {
    var url := RequestUrl(base);
    EndsWithAppend(url, "/" + KMS_LIST_API_ENDPOINT, "?user.name=" + username);
    StartsWithAppend(url, base, "?user.name=" + username);
    assert "/" + KMS_LIST_API_ENDPOINT + ("?user.name=" + username) == "/" + KMS_LIST_API_ENDPOINT + "?user.name=" + username;
    assert url + ("?user.name=" + username) == RequestTarget(base, authType, Some(username), rangerPrincipal, rangerKeytab, shortName);
  }

  /**
   * With Kerberos, a principal and a keytab, the request impersonates the
   * principal's short name, whatever the configured user name and password.
   */
  lemma KeytabTargetIgnoresUsername(base: string, authType: Option<string>, username1: Option<string>,
                                    username2: Option<string>, rangerPrincipal: Option<string>,
                                    rangerKeytab: Option<string>, shortName: Option<string> -> string)
    requires IsKerberos(authType) && !IsEmpty(rangerPrincipal) && !IsEmpty(rangerKeytab)
    ensures RequestTarget(base, authType, username1, rangerPrincipal, rangerKeytab, shortName)
         == RequestTarget(base, authType, username2, rangerPrincipal, rangerKeytab, shortName)
         == RequestUrl(base) + "?doAs=" + shortName(rangerPrincipal)
  {
  }

  /** With Kerberos but no principal or no keytab, the request impersonates the user's short name. */
  lemma PasswordTargetUsesUsername(base: string, authType: Option<string>, username: Option<string>,
                                   rangerPrincipal: Option<string>, rangerKeytab: Option<string>,
                                   shortName: Option<string> -> string)
    requires IsKerberos(authType) && (IsEmpty(rangerPrincipal) || IsEmpty(rangerKeytab))
    ensures RequestTarget(base, authType, username, rangerPrincipal, rangerKeytab, shortName)
         == RequestUrl(base) + "?doAs=" + shortName(username)
  {
  }

  /** "kerberos" in any letter case selects Kerberos; a missing or other auth type does not. */
  lemma KerberosSpellings()
    ensures IsKerberos(Some("kerberos")) && IsKerberos(Some("KERBEROS")) && IsKerberos(Some("Kerberos"))
    ensures !IsKerberos(None) && !IsKerberos(Some("simple")) && !IsKerberos(Some("kerberos "))
    ensures IsKerberos(Some("\U{212A}erberos")) && IsKerberos(Some("kerbero\U{017F}"))
  {
    assert !MatchesIgnoringCase('i', "kerberos"[1]);
  }

  /** Defaulting `nameRules` once more changes nothing. */
  lemma NameRulesDefaultingIdempotent(strategy: AuthStrategy, nameRules: Option<string>)
    ensures NameRulesAfterLogin(strategy, NameRulesAfterLogin(strategy, nameRules)) == NameRulesAfterLogin(strategy, nameRules)
  {
  }

  /**
   * The `nameRules` field after an iteration of the keytab branch: an empty
   * value becomes "DEFAULT" (lines 182-184); other strategies leave it alone.
   */
  function NameRulesAfterLogin(strategy: AuthStrategy, nameRules: Option<string>): (r: Option<string>)
    ensures strategy == Keytab ==> !IsEmpty(r)
    ensures strategy == Keytab && IsEmpty(nameRules) ==> r == Some("DEFAULT")
    ensures strategy != Keytab || !IsEmpty(nameRules) ==> r == nameRules
  {
    if strategy == Keytab && IsEmpty(nameRules) then Some("DEFAULT") else nameRules
  }
}
