# Ranger KMS client, access result and HTTP error bodies in Dafny

This project models three pieces of Apache Ranger and proves properties of them.

- **The Ranger plugin's KMS client** (`KMSClient`). It covers:
  - resolving the provider URL into a list of endpoint URLs, including the `host1;host2:port` mirror syntax;
  - composing the key-listing URL with its authentication query suffix;
  - defaulting the Kerberos `nameRules`;
  - filtering the returned key names;
  - the endpoint failover loop, whose `finally` block ends in `continue`;
  - the static helpers `getKmsClient`, `getKmsKey` and `testConnection`.
- **The policy engine's access result** (`RangerAccessResult`). This is a mutable object: its constructor, setters, partial copies, the evaluated-policies counter, `getServiceType`, and the `toString` rendering.
- **Hadoop's `HttpExceptionUtils`**. It covers the one-line message of an exception, the `{"RemoteException": {...}}` JSON body in `LinkedHashMap` insertion order, and the order of calls made on a servlet response.

Modules and files:

| file | module | contents |
|---|---|---|
| `wrappers.dfy` | `Wrappers` | `Option`, `Result` |
| `java_lang.dfy` | `JavaLang` | Java semantics the core relies on: `String.split` (trailing empty pieces dropped), `trim`, `indexOf`, `Integer.parseInt` over 32-bit ints, `Long.intValue`, long wrap-around, `StringBuilder` |
| `kms_endpoints.dfy` | `KmsEndpoints` | both `createProvider` overloads |
| `kms_request.dfy` | `KmsRequest` | the request URL, the authentication strategy and suffix, `nameRules` defaulting |
| `kms_keys.dfy` | `KmsKeys` | the key-name filter and the loop that applies it |
| `kms_failover.dfy` | `KmsFailover` | per-endpoint outcome, the failover loop as a function, a reference definition, and lemmas |
| `kms_client.dfy` | `KmsClient` | the `KMSClient` class and its static helpers |
| `ranger_access_result.dfy` | `PolicyEngine` | the `RangerAccessResult` class |
| `http_exception_utils.dfy` | `HttpExceptions` | message cutting, JSON bodies, both response builders |

The environment is a parameter, `KmsClient.Env`. It holds:

- URL parsing and validity (`unnest`, `uriValid`);
- Kerberos short-name mapping (`shortName`);
- one oracle `call(i, url)`. It says what the HTTP call to endpoint `i` with that URL delivered: a failure, no response, or a status with its entity and parsed JSON body.

The loop is then proved against the pure functions `KeyList`, `RequestedTargets` and `NameRulesAfter` of its inputs.

A Java exception is a value of `KmsFailover.Completion`. `Normal(v)` is a return. `Abrupt(e)` is a thrown exception.

## Behaviour followed from the code

At these points a plain reading of the component's documented behaviour differs from what the code does. The model follows the code.

- **A 401 or 403 from an earlier endpoint does not abort the call.** The `HadoopException` thrown at lines 238-257 is pending when the `finally` block at lines 289-301 runs. That block ends in `continue` for any endpoint but the last, which discards the exception. The next endpoint is still requested. See `KmsFailover.EarlierAccessDeniedIsDiscarded` and `KmsFailover.FailureOnEarlierEndpointTriesNext`. Only on the last endpoint does the exception escape (`KmsFailover.AbruptOnlyFromLastEndpoint`).
- **The prefix filter keeps every name that starts with the prefix** (lines 226-233). With prefix `k` and excluded list `[key1]`, the body `[key1, key2, k9]` gives `[key2, k9]`, not only `k9` (`KmsKeys.FilterExample`).
- **`testConnection` can throw.** With a null or empty configuration, the `HadoopException` thrown by `getKmsClient` (lines 341-347) escapes `testConnection` at line 315, which has no catch. See `KmsClient.KMSClient.TestConnection`.
- **One unparsable mirror URL aborts the whole resolution.** In `createProvider(URL, …)` (lines 133-137), one mirror URL that does not parse makes the resolution fail, and no endpoint is requested (`KmsClient.UnresolvedProviderRequestsNothing`).
- **Null response versus other statuses.** A `null` response throws (lines 266-276), while a status other than 200, 401 and 403 only sets the list to null (lines 258-265). Both are modelled as written (`KmsFailover.Classify`, `KmsFailover.AllOtherStatusesGiveNull`).

## Model

Source paths are relative to the repository root. Abbreviations:

- K = `plugin-kms/src/main/java/org/apache/ranger/services/kms/client/KMSClient.java`
- R = `agents-common/src/main/java/org/apache/ranger/plugin/policyengine/RangerAccessResult.java`
- H = `security-admin/src/main/java/org/apache/hadoop/util/HttpExceptionUtils.java`

The table cites the full paths.

| member | source | states |
|---|---|---|
| JavaLang.IntValue | agents-common/src/main/java/org/apache/ranger/plugin/policyengine/RangerAccessResult.java:178 | `Long.intValue`: the result is a 32-bit int congruent to the long modulo 2^32, and equal to it when it fits |
| JavaLang.WrapLong | agents-common/src/main/java/org/apache/ranger/plugin/policyengine/RangerAccessResult.java:172 | long arithmetic wraps into the 64-bit range modulo 2^64, and is the identity inside it |
| JavaLang.IndexOf | security-admin/src/main/java/org/apache/hadoop/util/HttpExceptionUtils.java:36 | `indexOf` gives the first position where the separator occurs, and -1 exactly when it does not occur |
| JavaLang.SplitAllJoin | plugin-kms/src/main/java/org/apache/ranger/services/kms/client/KMSClient.java:106 | joining the separator-free pieces of a split with the separator gives back the string |
| JavaLang.Split | plugin-kms/src/main/java/org/apache/ranger/services/kms/client/KMSClient.java:106 | Java `split` on one character: no piece holds the separator; without a separator the result is the whole string; the pieces are the full split with exactly its trailing empty pieces removed: the last piece kept is non-empty and every piece dropped is empty |
| JavaLang.SplitFirstPiece | plugin-kms/src/main/java/org/apache/ranger/services/kms/client/KMSClient.java:113 | the first piece of a split, followed by the separator, is a prefix of a string that holds the separator |
| JavaLang.Trim | plugin-kms/src/main/java/org/apache/ranger/services/kms/client/KMSClient.java:380 | `trim`: the result is the name less only characters up to U+0020 at its start and end, and begins and ends above U+0020 when non-empty; an all-blank name gives ""; a name already without blank ends is unchanged |
| JavaLang.TrimIdempotent | plugin-kms/src/main/java/org/apache/ranger/services/kms/client/KMSClient.java:380 | trimming a trimmed name changes nothing |
| JavaLang.ParseInt | plugin-kms/src/main/java/org/apache/ranger/services/kms/client/KMSClient.java:108 | `Integer.parseInt`: a value exactly when the text is an optional '-' or '+' followed by at least one ASCII digit and the signed decimal value fits 32 bits, and then that value; `None` where Java throws `NumberFormatException` |
| JavaLang.NatToString | plugin-kms/src/main/java/org/apache/ranger/services/kms/client/KMSClient.java:132-133 | the decimal text of a port is non-empty, all digits, and begins with '0' only for the number 0 |
| JavaLang.DigitsValueOfNatToString | plugin-kms/src/main/java/org/apache/ranger/services/kms/client/KMSClient.java:132-133 | the digits written for a number read back as that number |
| JavaLang.ParseIntToString | plugin-kms/src/main/java/org/apache/ranger/services/kms/client/KMSClient.java:108-133 | `parseInt` of the decimal text of a 32-bit int gives back the int |
| JavaLang.IntToString | plugin-kms/src/main/java/org/apache/ranger/services/kms/client/KMSClient.java:132-133 | the decimal text of an int begins with '-' exactly for a negative number and is otherwise all digits (after the sign when there is one) |
| JavaLang.Str | plugin-kms/src/main/java/org/apache/ranger/services/kms/client/KMSClient.java:174 | string concatenation renders null as "null" and a non-null string as itself |
| JavaLang.IsEmpty | plugin-kms/src/main/java/org/apache/ranger/services/kms/client/KMSClient.java:180 | `StringUtils.isEmpty`: null or ""; characterized through `SelectStrategy` and `NameRulesAfterLogin` |
| JavaLang.BoolToString | agents-common/src/main/java/org/apache/ranger/plugin/policyengine/RangerAccessResult.java:196-203 | `String.valueOf(boolean)`: "true" exactly for true and "false" exactly for false |
| JavaLang.StringBuilder.Append | agents-common/src/main/java/org/apache/ranger/plugin/policyengine/RangerAccessResult.java:193-208 | `append` extends the builder's contents by exactly the appended text |
| KmsEndpoints.PortAndHosts | plugin-kms/src/main/java/org/apache/ranger/services/kms/client/KMSClient.java:103-114 | no ':' in the authority gives port -1 and the whole authority as hosts; with ':' it succeeds exactly when a second piece exists and parses, giving that port and a ':'-free host part that prefixes the authority |
| KmsEndpoints.Providers | plugin-kms/src/main/java/org/apache/ranger/services/kms/client/KMSClient.java:123-141 | a single host gives the original URL; several hosts succeed exactly when every composed mirror URL is valid, with one URL per host; a failure is always a bad mirror URL |
| KmsEndpoints.MirrorsShareSchemePortPath | plugin-kms/src/main/java/org/apache/ranger/services/kms/client/KMSClient.java:130-134 | the i-th mirror URL is protocol, "://", the i-th host, ":", the shared port and the path |
| KmsEndpoints.MirrorPortReparses | plugin-kms/src/main/java/org/apache/ranger/services/kms/client/KMSClient.java:108-133 | the port written into every mirror URL parses back to the port read from the authority |
| KmsEndpoints.MirrorUrl | plugin-kms/src/main/java/org/apache/ranger/services/kms/client/KMSClient.java:132-133 | protocol, "://", the host, ":", the port and the path; `MirrorUrlParts` and `MirrorsShareSchemePortPath` prove each part is where the URL puts it |
| KmsEndpoints.ResolvedProviders | plugin-kms/src/main/java/org/apache/ranger/services/kms/client/KMSClient.java:91-116 | a location that does not parse and a null or empty authority are errors, so a success always comes from a parsed location with an authority; otherwise the result is the port-and-hosts error or `Providers` of the unnested URL with that port and those hosts |
| KmsEndpoints.UnparsablePortFails | plugin-kms/src/main/java/org/apache/ranger/services/kms/client/KMSClient.java:105-112 | a ':' with no parsable port after it ("host:", "host:abc") is an error |
| KmsEndpoints.CreateProviderFromHosts | plugin-kms/src/main/java/org/apache/ranger/services/kms/client/KMSClient.java:123-141 | the array built has exactly the resolved URLs, or the method reports the bad mirror URL |
| KmsEndpoints.ComposeMirrors | plugin-kms/src/main/java/org/apache/ranger/services/kms/client/KMSClient.java:130-138 | the loop fills entry i with the composed URL of host i, and succeeds exactly when `new URI` accepts every composed URL |
| KmsEndpoints.CreateProvider | plugin-kms/src/main/java/org/apache/ranger/services/kms/client/KMSClient.java:91-116 | the array built has exactly the resolved URLs, or the method returns the resolution error |
| KmsRequest.RequestUrl | plugin-kms/src/main/java/org/apache/ranger/services/kms/client/KMSClient.java:159 | the listing URL of one provider; `RequestUrlJoinsPath` proves its shape |
| KmsRequest.RequestUrlJoinsPath | plugin-kms/src/main/java/org/apache/ranger/services/kms/client/KMSClient.java:159 | the listing URL starts with the provider URL and ends with "/v1/keys/names", with at most one '/' at the join |
| KmsRequest.SelectStrategy | plugin-kms/src/main/java/org/apache/ranger/services/kms/client/KMSClient.java:168-196 | Kerberos is chosen exactly when the auth type equals "kerberos" ignoring case; then keytab login is chosen exactly when principal and keytab are both non-empty, else password login |
| KmsRequest.IsKerberos | plugin-kms/src/main/java/org/apache/ranger/services/kms/client/KMSClient.java:168 | `equalsIgnoreCase("kerberos")` on a non-null auth type, letter by letter over `MatchesIgnoringCase`; `KerberosSpellings` fixes its value on the spellings that matter |
| KmsRequest.KerberosSpellings | plugin-kms/src/main/java/org/apache/ranger/services/kms/client/KMSClient.java:168 | "kerberos", "KERBEROS", "Kerberos" and the spellings with the Kelvin sign for 'k' and the long s for 's' select Kerberos; null, "simple" and "kerberos " do not |
| KmsRequest.SimpleTargetNamesUser | plugin-kms/src/main/java/org/apache/ranger/services/kms/client/KMSClient.java:173-178 | without Kerberos the request URL is the listing URL followed by "?user.name=" and the configured user, so it ends with "/v1/keys/names?user.name=" and the user |
| KmsRequest.KeytabTargetIgnoresUsername | plugin-kms/src/main/java/org/apache/ranger/services/kms/client/KMSClient.java:180-187 | with keytab login the URL ends with "?doAs=" and the short name of the Ranger principal, whatever the configured user |
| KmsRequest.PasswordTargetUsesUsername | plugin-kms/src/main/java/org/apache/ranger/services/kms/client/KMSClient.java:189-195 | with Kerberos password login the URL ends with "?doAs=" and the short name of the configured user |
| KmsRequest.QuerySuffix | plugin-kms/src/main/java/org/apache/ranger/services/kms/client/KMSClient.java:173-195 | the suffix begins with "?user.name=" exactly for simple login, and with "?doAs=" for both Kerberos logins |
| KmsRequest.RequestTarget | plugin-kms/src/main/java/org/apache/ranger/services/kms/client/KMSClient.java:159-196 | the listing URL followed by the strategy's suffix; `SimpleTargetNamesUser`, `KeytabTargetIgnoresUsername` and `PasswordTargetUsesUsername` give it for each strategy |
| KmsRequest.NameRulesAfterLogin | plugin-kms/src/main/java/org/apache/ranger/services/kms/client/KMSClient.java:182-184 | keytab login sets empty or null name rules to "DEFAULT" and keeps non-empty ones; other strategies keep them unchanged |
| KmsRequest.NameRulesDefaultingIdempotent | plugin-kms/src/main/java/org/apache/ranger/services/kms/client/KMSClient.java:182-184 | defaulting the name rules twice is the same as once, so a second endpoint changes nothing more |
| KmsKeys.FilterKeys | plugin-kms/src/main/java/org/apache/ranger/services/kms/client/KMSClient.java:215-235 | the filtered list is no longer than the body, and every name in it is in the body and passes the filter |
| KmsKeys.FilterMembership | plugin-kms/src/main/java/org/apache/ranger/services/kms/client/KMSClient.java:221-235 | a name is in the filtered list exactly when it is in the body, matches the prefix (if any) and is not in the existing list (if any) |
| KmsKeys.FilterMultiplicity | plugin-kms/src/main/java/org/apache/ranger/services/kms/client/KMSClient.java:221-235 | a kept name occurs as often as in the body, a dropped one never |
| KmsKeys.FilterIsSubsequence | plugin-kms/src/main/java/org/apache/ranger/services/kms/client/KMSClient.java:221-235 | the filtered list keeps the body's order (it is a subsequence) |
| KmsKeys.NoCriteriaKeepsAll | plugin-kms/src/main/java/org/apache/ranger/services/kms/client/KMSClient.java:226-233 | with an empty or null prefix and no existing list every name is kept |
| KmsKeys.FilterExample | plugin-kms/src/main/java/org/apache/ranger/services/kms/client/KMSClient.java:221-235 | body [key1, key2, k9] with prefix "k" and existing list [key1] gives [key2, k9] |
| KmsKeys.CollectKeys | plugin-kms/src/main/java/org/apache/ranger/services/kms/client/KMSClient.java:220-236 | the loop over the body yields exactly the filtered list |
| KmsFailover.Classify | plugin-kms/src/main/java/org/apache/ranger/services/kms/client/KMSClient.java:208-288 | an endpoint returns at once exactly when it answers 200 with a list of strings |
| KmsFailover.FirstDelivering | plugin-kms/src/main/java/org/apache/ranger/services/kms/client/KMSClient.java:154-303 | the first endpoint at or after i that delivers a list, with no earlier one delivering; none when no endpoint delivers |
| KmsFailover.Run | plugin-kms/src/main/java/org/apache/ranger/services/kms/client/KMSClient.java:154-304 | from endpoint i on, an exception escapes only as the exception the last endpoint's classification raises |
| KmsFailover.Failover | plugin-kms/src/main/java/org/apache/ranger/services/kms/client/KMSClient.java:154-304 | the loop from the first endpoint, with the list still null: an exception escapes only when the list of endpoints is non-empty and the last one raised it |
| KmsFailover.Reference | plugin-kms/src/main/java/org/apache/ranger/services/kms/client/KMSClient.java:154-304 | the failover policy stated without the loop (the first list-delivering endpoint's filtered list, else the last endpoint's outcome): a list comes back whenever some endpoint delivers one; `FailoverMatchesReference` proves the loop equals it |
| KmsFailover.RunPassesOn | plugin-kms/src/main/java/org/apache/ranger/services/kms/client/KMSClient.java:289-301 | a delivering endpoint returns its list; a non-delivering one passes the loop to the next endpoint with its new list value, unless it is the last and an exception is pending, which then escapes |
| KmsFailover.RunFromMatchesReference | plugin-kms/src/main/java/org/apache/ranger/services/kms/client/KMSClient.java:154-304 | from endpoint i on, the loop equals the first delivering endpoint's list or else the last endpoint's outcome |
| KmsFailover.FailoverMatchesReference | plugin-kms/src/main/java/org/apache/ranger/services/kms/client/KMSClient.java:154-304 | the loop with `continue` in `finally` equals the reference policy: the first list-delivering endpoint wins; otherwise the last endpoint's outcome decides |
| KmsFailover.DeliveryEndsFailover | plugin-kms/src/main/java/org/apache/ranger/services/kms/client/KMSClient.java:213-237 | the first endpoint answering 200 with a list ends the call with its filtered list, and no later endpoint is requested |
| KmsFailover.RunShift | plugin-kms/src/main/java/org/apache/ranger/services/kms/client/KMSClient.java:289-301 | running from endpoint i+1 of a list is running from i of its tail |
| KmsFailover.FailureOnEarlierEndpointTriesNext | plugin-kms/src/main/java/org/apache/ranger/services/kms/client/KMSClient.java:289-301 | an earlier endpoint that does not deliver is forgotten: the result is that of the remaining endpoints |
| KmsFailover.AbruptOnlyFromLastEndpoint | plugin-kms/src/main/java/org/apache/ranger/services/kms/client/KMSClient.java:277-301 | an exception escapes only when no endpoint delivered and the last one raised that exception |
| KmsFailover.ExhaustedEndpoints | plugin-kms/src/main/java/org/apache/ranger/services/kms/client/KMSClient.java:238-304 | when no endpoint delivers, the last one decides: an empty list for a null 200 body, a `HadoopException` for a 200 body that does not parse as a list, null for other statuses, its exception otherwise; every endpoint is requested |
| KmsFailover.AllOtherStatusesGiveNull | plugin-kms/src/main/java/org/apache/ranger/services/kms/client/KMSClient.java:258-265 | endpoints that all answer with a status other than 200, 401 and 403 give null, with no exception |
| KmsFailover.EarlierAccessDeniedIsDiscarded | plugin-kms/src/main/java/org/apache/ranger/services/kms/client/KMSClient.java:238-301 | a 401 from the first of two endpoints is discarded and the second endpoint's list is returned |
| KmsClient.TargetsExtend | plugin-kms/src/main/java/org/apache/ranger/services/kms/client/KMSClient.java:159-196 | the URLs of the first i+1 endpoints extend those of the first i by endpoint i's URL, and endpoint i is called with it |
| KmsClient.KeyList | plugin-kms/src/main/java/org/apache/ranger/services/kms/client/KMSClient.java:143-305 | `getKeyList` throws `NullPointerException` exactly when the provider is null, and any `HadoopException` it throws is an access denial, a null response or a failed call |
| KmsClient.RequestedTargets | plugin-kms/src/main/java/org/apache/ranger/services/kms/client/KMSClient.java:143-305 | no more URLs are requested than there are resolved endpoints, and none when the provider is null or does not resolve |
| KmsClient.NameRulesAfter | plugin-kms/src/main/java/org/apache/ranger/services/kms/client/KMSClient.java:180-184 | the name rules change only to "DEFAULT", only when they were empty and the keytab login is chosen |
| KmsClient.ResolvedKeyList | plugin-kms/src/main/java/org/apache/ranger/services/kms/client/KMSClient.java:146-304 | once the provider resolves, the result, the URLs requested and the name rules are the failover loop's over the resolved endpoints |
| KmsClient.UnresolvedProviderRequestsNothing | plugin-kms/src/main/java/org/apache/ranger/services/kms/client/KMSClient.java:146-151 | a provider that does not resolve gives null, requests nothing and leaves the name rules alone |
| KmsClient.RequestsStartAtFirstProvider | plugin-kms/src/main/java/org/apache/ranger/services/kms/client/KMSClient.java:154-196 | the first URL requested is the first endpoint's listing URL with the strategy's suffix |
| KmsClient.Rethrow | plugin-kms/src/main/java/org/apache/ranger/services/kms/client/KMSClient.java:390-400 | `getKmsKey` lets a `HadoopException` through unchanged, wraps any other exception into one, and keeps normal results |
| KmsClient.Report | plugin-kms/src/main/java/org/apache/ranger/services/kms/client/KMSClient.java:316-328 | the connection is reported successful exactly when a list came back; a failure's description is its message followed by the fixed advice text |
| KmsClient.TryEndpoint | plugin-kms/src/main/java/org/apache/ranger/services/kms/client/KMSClient.java:197-288 | one iteration's `try` block returns at once exactly when the call delivers a list, and leaves the list value and pending exception that the classification prescribes |
| KmsClient.KMSClient.constructor | plugin-kms/src/main/java/org/apache/ranger/services/kms/client/KMSClient.java:76-89 | the new client holds exactly the seven given settings |
| KmsClient.KMSClient.GetKeyList | plugin-kms/src/main/java/org/apache/ranger/services/kms/client/KMSClient.java:143-305 | the result is `KeyList` of the settings before the call, the URLs requested are `RequestedTargets`, and the name rules become `NameRulesAfter` |
| KmsClient.KMSClient.RequestEach | plugin-kms/src/main/java/org/apache/ranger/services/kms/client/KMSClient.java:152-304 | the loop over the resolved endpoints yields the failover function's result, requests the URLs of the endpoints it enters, in order, and defaults the name rules once any endpoint is entered |
| KmsClient.KMSClient.Visit | plugin-kms/src/main/java/org/apache/ranger/services/kms/client/KMSClient.java:155-288 | one iteration requests the next listing URL, returns at once exactly when the endpoint delivers a list, and leaves the list value and pending exception its classification prescribes |
| KmsClient.KMSClient.PrepareRequest | plugin-kms/src/main/java/org/apache/ranger/services/kms/client/KMSClient.java:159-196 | the URL is the listing URL with the strategy's suffix, and keytab login defaults the name rules |
| KmsClient.ConfigValue | plugin-kms/src/main/java/org/apache/ranger/services/kms/client/KMSClient.java:348-356 | `configs.get(key)`: a value exactly when the key is present, and then the one stored under it |
| KmsClient.SettingsFrom | plugin-kms/src/main/java/org/apache/ranger/services/kms/client/KMSClient.java:348-357 | the seven constructor arguments read from the configuration under "provider", "username", "password", "rangerprincipal", "rangerkeytab", "namerules" and "authtype"; `GetKmsClient` creates its client from them |
| KmsClient.ConfigsEmpty | plugin-kms/src/main/java/org/apache/ranger/services/kms/client/KMSClient.java:341 | the configuration map is null or has no entry; `GetKmsClient` and `TestConnection` throw exactly when it holds |
| KmsClient.KMSClient.GetKmsClient | plugin-kms/src/main/java/org/apache/ranger/services/kms/client/KMSClient.java:333-361 | a null or empty configuration throws `HadoopException`; otherwise a fresh client holds the seven configured values |
| KmsClient.KMSClient.GetKmsKey | plugin-kms/src/main/java/org/apache/ranger/services/kms/client/KMSClient.java:363-403 | a null client throws; a null key name gives an empty list and changes nothing; otherwise the trimmed name filters the key list, with exceptions passed through `Rethrow` |
| KmsClient.KMSClient.TestConnection | plugin-kms/src/main/java/org/apache/ranger/services/kms/client/KMSClient.java:307-331 | an empty configuration throws; otherwise the report is that of listing all keys of the configured client, with exceptions passed through `Rethrow` |
| PolicyEngine.WithAccessResultFrom | agents-common/src/main/java/org/apache/ranger/plugin/policyengine/RangerAccessResult.java:51-57 | copies the access-determined flag, the allowed flag, the policy id, the evaluated-policies count and the reason, and keeps the audit fields |
| PolicyEngine.WithAuditResultFrom | agents-common/src/main/java/org/apache/ranger/plugin/policyengine/RangerAccessResult.java:59-63 | copies the audit-determined flag, the audited flag and the audit policy id, and keeps everything else |
| PolicyEngine.PartialCopiesPartitionFields | agents-common/src/main/java/org/apache/ranger/plugin/policyengine/RangerAccessResult.java:51-63 | the two partial copies commute, and together they copy the whole decision |
| PolicyEngine.PartialCopiesIdempotent | agents-common/src/main/java/org/apache/ranger/plugin/policyengine/RangerAccessResult.java:51-63 | repeating a partial copy from the same result changes nothing |
| PolicyEngine.WithIsAllowed | agents-common/src/main/java/org/apache/ranger/plugin/policyengine/RangerAccessResult.java:100-106 | sets the allowed flag; a denial also marks access as determined; everything else stays |
| PolicyEngine.WithIsAudited | agents-common/src/main/java/org/apache/ranger/plugin/policyengine/RangerAccessResult.java:131-134 | sets the audited flag and marks auditing as determined; everything else stays |
| PolicyEngine.DenialKeepsAccessDetermined | agents-common/src/main/java/org/apache/ranger/plugin/policyengine/RangerAccessResult.java:100-106 | after a denial access stays determined, whatever is allowed later |
| PolicyEngine.AppendField | agents-common/src/main/java/org/apache/ranger/plugin/policyengine/RangerAccessResult.java:196-203 | appends one `name={value} ` field to the builder |
| PolicyEngine.RangerAccessResult.constructor | agents-common/src/main/java/org/apache/ranger/plugin/policyengine/RangerAccessResult.java:37-49 | a new result is undetermined and unaudited, with policy ids -1, a zero count and a null reason |
| PolicyEngine.RangerAccessResult.SetAccessResultFrom | agents-common/src/main/java/org/apache/ranger/plugin/policyengine/RangerAccessResult.java:51-57 | the state becomes `WithAccessResultFrom` of the old state and the other result |
| PolicyEngine.RangerAccessResult.SetAuditResultFrom | agents-common/src/main/java/org/apache/ranger/plugin/policyengine/RangerAccessResult.java:59-63 | the state becomes `WithAuditResultFrom` of the old state and the other result |
| PolicyEngine.RangerAccessResult.SetIsAccessDetermined | agents-common/src/main/java/org/apache/ranger/plugin/policyengine/RangerAccessResult.java:88 | only the access-determined flag changes |
| PolicyEngine.RangerAccessResult.SetIsAllowed | agents-common/src/main/java/org/apache/ranger/plugin/policyengine/RangerAccessResult.java:100-106 | the state becomes `WithIsAllowed` of the old state |
| PolicyEngine.RangerAccessResult.SetReason | agents-common/src/main/java/org/apache/ranger/plugin/policyengine/RangerAccessResult.java:111-113 | only the reason changes |
| PolicyEngine.RangerAccessResult.SetIsAuditedDetermined | agents-common/src/main/java/org/apache/ranger/plugin/policyengine/RangerAccessResult.java:117 | only the audit-determined flag changes |
| PolicyEngine.RangerAccessResult.SetIsAudited | agents-common/src/main/java/org/apache/ranger/plugin/policyengine/RangerAccessResult.java:131-134 | the state becomes `WithIsAudited` of the old state |
| PolicyEngine.RangerAccessResult.SetPolicyId | agents-common/src/main/java/org/apache/ranger/plugin/policyengine/RangerAccessResult.java:161-163 | only the policy id changes |
| PolicyEngine.RangerAccessResult.SetAuditPolicyId | agents-common/src/main/java/org/apache/ranger/plugin/policyengine/RangerAccessResult.java:168-170 | only the audit policy id changes |
| PolicyEngine.RangerAccessResult.IncrementEvaluatedPoliciesCount | agents-common/src/main/java/org/apache/ranger/plugin/policyengine/RangerAccessResult.java:172 | the count grows by one with long wrap-around; below the long maximum it grows by exactly one; nothing else changes |
| PolicyEngine.RangerAccessResult.GetServiceType | agents-common/src/main/java/org/apache/ranger/plugin/policyengine/RangerAccessResult.java:174-182 | -1 when there is no service definition or it has no id; otherwise the id's `intValue` (the id itself when it fits in 32 bits) |
| PolicyEngine.Describe | agents-common/src/main/java/org/apache/ranger/plugin/policyengine/RangerAccessResult.java:193-207 | the text `toString` produces: "RangerAccessResult={", the eight fields as `name={value} ` in source order, then "}"; `AppendTo` and `ToString` are proved to produce exactly it |
| PolicyEngine.RangerAccessResult.AppendTo | agents-common/src/main/java/org/apache/ranger/plugin/policyengine/RangerAccessResult.java:193-208 | appends exactly `Describe` of the state (eight fields in order) to the given builder and returns that builder |
| PolicyEngine.RangerAccessResult.ToString | agents-common/src/main/java/org/apache/ranger/plugin/policyengine/RangerAccessResult.java:185-191 | returns exactly `Describe` of the state |
| HttpExceptions.GetOneLineMessage | security-admin/src/main/java/org/apache/hadoop/util/HttpExceptionUtils.java:33-43 | null exactly for a null message; otherwise a prefix of it, which is the whole message when the separator does not occur, and otherwise ends right before the separator's first occurrence |
| HttpExceptions.OneLineHasNoSeparator | security-admin/src/main/java/org/apache/hadoop/util/HttpExceptionUtils.java:33-43 | a non-empty separator never occurs in the one-line message |
| HttpExceptions.OneLineIdempotent | security-admin/src/main/java/org/apache/hadoop/util/HttpExceptionUtils.java:33-43 | the one-line message of a one-line message is itself |
| HttpExceptions.Keys | security-admin/src/main/java/org/apache/hadoop/util/HttpExceptionUtils.java:46-51 | the keys of a member list, in order |
| HttpExceptions.PutEntry | security-admin/src/main/java/org/apache/hadoop/util/HttpExceptionUtils.java:46-51 | `LinkedHashMap.put` keeps a present key's position and appends a new key last |
| HttpExceptions.PutThenGet | security-admin/src/main/java/org/apache/hadoop/util/HttpExceptionUtils.java:46-51 | after a put, the key maps to the new value and every other key keeps its value |
| HttpExceptions.PutNewKeyAppends | security-admin/src/main/java/org/apache/hadoop/util/HttpExceptionUtils.java:46-51 | putting a new key appends exactly that entry |
| HttpExceptions.PutKeepsKeysDistinct | security-admin/src/main/java/org/apache/hadoop/util/HttpExceptionUtils.java:46-51 | a put keeps the keys distinct |
| HttpExceptions.LinkedHashMap.constructor | security-admin/src/main/java/org/apache/hadoop/util/HttpExceptionUtils.java:46 | a new map is empty |
| HttpExceptions.LinkedHashMap.Put | security-admin/src/main/java/org/apache/hadoop/util/HttpExceptionUtils.java:47-51 | the entries become `PutEntry` of the old entries |
| HttpExceptions.ErrorBody | security-admin/src/main/java/org/apache/hadoop/util/HttpExceptionUtils.java:46-63 | the body both builders send is an object with the single key "RemoteException" |
| HttpExceptions.ErrorBodyMessage | security-admin/src/main/java/org/apache/hadoop/util/HttpExceptionUtils.java:46-51 | the body has the single key "RemoteException"; inside are "message", "exception", "javaClassName" in that order, "exception" holding the simple class name and "javaClassName" the full one; the message is null exactly when the exception has none, and otherwise a prefix of it without the (non-empty) separator |
| HttpExceptions.BuildErrorBody | security-admin/src/main/java/org/apache/hadoop/util/HttpExceptionUtils.java:46-51 | the three inner puts and the outer put build exactly `ErrorBody` |
| HttpExceptions.CreateJerseyExceptionResponse | security-admin/src/main/java/org/apache/hadoop/util/HttpExceptionUtils.java:45-53 | the response has the given status, type "application/json" and the error body |
| HttpExceptions.HttpServletResponse.SetStatusCode | security-admin/src/main/java/org/apache/hadoop/util/HttpExceptionUtils.java:56 | records the status being set |
| HttpExceptions.HttpServletResponse.SetResponseContentType | security-admin/src/main/java/org/apache/hadoop/util/HttpExceptionUtils.java:57 | records the content type being set |
| HttpExceptions.HttpServletResponse.WriteJson | security-admin/src/main/java/org/apache/hadoop/util/HttpExceptionUtils.java:64-65 | records the body being written |
| HttpExceptions.HttpServletResponse.FlushWriter | security-admin/src/main/java/org/apache/hadoop/util/HttpExceptionUtils.java:66 | records the flush |
| HttpExceptions.CreateServletExceptionResponse | security-admin/src/main/java/org/apache/hadoop/util/HttpExceptionUtils.java:55-67 | the response is told, in order: the status, "application/json", the error body, then a flush |

## Left out

- HTTP, Kerberos login, password decryption and URL parsing are not modelled. They are the parameters of `KmsClient.Env`: the call oracle, `shortName`, `unnest` and `uriValid`.
- A failure of the client builder, of the login or of `getShortName` is folded into a failed call (`CallFailed`). So in the model the URL is still recorded as requested, and keytab login still defaults the name rules, before such a failure.
- The probe `GET` at lines 175-176 of `KMSClient.java` is not modelled. Its response is overwritten at line 198 without being read.
- Closing the response and the client in the `finally` block is left out, because the model has no handles.
- Logging and the `generateResponseDataMap` details are left out. `BaseClient` is not part of this model, so `KmsClient.Report` keeps only the status, message and description.
- JSON bodies are a list of strings, `null`, or invalid. `null` elements inside the array are not modelled.
- `KmsFailover.Attempt` carries the HTTP status as an integer, not as a `Response.Status` object.
- JavaLang.ParseInt: accepts ASCII digits only, while Java's `parseInt` also accepts other Unicode decimal digits.
- `HttpExceptionUtils.ENTER` (the platform line separator) is a non-null parameter `enter` instead of a system property.
- An `IOException` from the servlet writer is not modelled.
- The getters of `RangerAccessResult` are not modelled as methods. The model reads the fields directly, through `State()`.
- The contents of the access request are not modelled; `PolicyEngine.AccessRequest` only carries an identity.
- PolicyEngine.RangerAccessResult.AppendTo: it reads a snapshot of the state once, where Java reads each field as it appends. Nothing changes the state in between, so the result is the same.
- `toString()` of a `StringBuilder` is the builder's `contents` field.
