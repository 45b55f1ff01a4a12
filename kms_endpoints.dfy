/**
 * Endpoint resolution of the KMS client: one configured provider location
 * becomes the ordered array of base URLs of its mirror hosts
 * (`KMSClient.createProvider`, both overloads).
 */
module KmsEndpoints {
  import opened Wrappers
  import opened JavaLang

  /**
   * What `ProviderUtils.unnestUri` and `new URL(...)` make of the configured
   * location: the URL's text (`toString()`), protocol, authority (null when
   * the URL has none) and path.
   */
  datatype UnnestedUrl = UnnestedUrl(text: string, protocol: string, authority: Option<string>, path: string)

  /** Why resolution threw an `IOException` or a `URISyntaxException`. */
  datatype ResolveError =
    | Unparsable      // `new URI`, `unnestUri` or `new URL` threw
    | NoAuthority     // the authority is null or empty
    | BadPort         // a ':' without a parsable second component
    | BadMirrorUrl    // `new URI` rejected a composed mirror URL

  /**
   * The shared port and the ';'-separated host part of an authority:
   * port -1 and the whole authority without a ':'; otherwise the first two
   * pieces of `authority.split(":")`, where a missing or unparsable second
   * piece is an error.
   */
  function PortAndHosts(authority: string): (r: Result<(Int32, string), ResolveError>)
    ensures ':' !in authority ==> r == Success((-1, authority))
    ensures ':' in authority ==>
      (r.Success? <==> |Split(authority, ':')| >= 2 && ParseInt(Split(authority, ':')[1]).Some?)
    ensures r.Success? && ':' in authority ==>
      r.value.0 == ParseInt(Split(authority, ':')[1]).value && StartsWith(authority, r.value.1 + ":")
    ensures r.Success? ==> ':' !in r.value.1
  {
    if ':' !in authority then Success((-1, authority))
    else
      var t := Split(authority, ':');
      if |t| < 2 then Failure(BadPort)
      else
        match ParseInt(t[1])
        case None => Failure(BadPort)
        case Some(port) =>
          SplitFirstPiece(authority, ':');
          Success((port, t[0]))
  }

  /** The URL composed for one mirror host: protocol, host, shared port, path. */
  function MirrorUrl(u: UnnestedUrl, host: string, port: int): string {
    (u.protocol + "://") + host + (":" + IntToString(port) + u.path)
  }

  /** The composed URL of every host, in host order. */
  function Mirrors(u: UnnestedUrl, hosts: seq<string>, port: int): (r: seq<string>)
    ensures |r| == |hosts|
    ensures forall j :: 0 <= j < |hosts| ==> r[j] == MirrorUrl(u, hosts[j], port)
  {
    seq(|hosts|, j requires 0 <= j < |hosts| => MirrorUrl(u, hosts[j], port))
  }

  /** `new URI` accepts the composed URL of every host. */
  predicate MirrorsValid(u: UnnestedUrl, hosts: seq<string>, port: int, uriValid: string -> bool) {
    forall j :: 0 <= j < |hosts| ==> uriValid(MirrorUrl(u, hosts[j], port))
  }

  /**
   * The provider array for the hosts of `hostsPart`: the original URL when
   * there is exactly one host; otherwise one composed URL per host, in host
   * order, unless `new URI` rejects one of them.
   */
  function Providers(u: UnnestedUrl, port: int, hostsPart: string, uriValid: string -> bool)
    : (r: Result<seq<string>, ResolveError>)
    ensures r.Success? ==> |r.value| == |Split(hostsPart, ';')|
    ensures |Split(hostsPart, ';')| == 1 ==> r == Success([u.text])
    ensures |Split(hostsPart, ';')| != 1 ==>
      (r.Success? <==> forall i :: 0 <= i < |Split(hostsPart, ';')| ==>
                         uriValid(MirrorUrl(u, Split(hostsPart, ';')[i], port)))
    ensures r.Failure? ==> r.error == BadMirrorUrl
  {
    var hosts := Split(hostsPart, ';');
    if |hosts| == 1 then Success([u.text])
    else if !MirrorsValid(u, hosts, port, uriValid) then Failure(BadMirrorUrl)
    else Success(Mirrors(u, hosts, port))
  }

  /**
   * With several hosts, entry `i` is exactly "protocol://hosts[i]:port path":
   * all entries share scheme, port and path and keep the hosts' order.
   */
  lemma MirrorsShareSchemePortPath(u: UnnestedUrl, port: int, hostsPart: string, uriValid: string -> bool, i: int)
    requires Providers(u, port, hostsPart, uriValid).Success?
    requires |Split(hostsPart, ';')| != 1 && 0 <= i < |Split(hostsPart, ';')|
    ensures var entry := Providers(u, port, hostsPart, uriValid).value[i];
      var head := u.protocol + "://";
      var tail := ":" + IntToString(port) + u.path;
      && StartsWith(entry, head)
      && EndsWith(entry, tail)
      && entry[|head|..|entry| - |tail|] == Split(hostsPart, ';')[i]
  {
    var hosts := Split(hostsPart, ';');
    assert Providers(u, port, hostsPart, uriValid).value[i] == MirrorUrl(u, hosts[i], port);
    MirrorUrlParts(u, hosts[i], port);
  }

  lemma MirrorUrlParts(u: UnnestedUrl, host: string, port: int)
    ensures var entry := MirrorUrl(u, host, port);
      var head := u.protocol + "://";
      var tail := ":" + IntToString(port) + u.path;
      && StartsWith(entry, head)
      && EndsWith(entry, tail)
      && entry[|head|..|entry| - |tail|] == host
  {
    PieceBetween(u.protocol + "://", host, ":" + IntToString(port) + u.path);
  }

  lemma PieceBetween(head: string, middle: string, tail: string)
    ensures var s := head + middle + tail;
      s[..|head|] == head && s[|s| - |tail|..] == tail && s[|head|..|s| - |tail|] == middle
  {
  }

  /** The port written into a mirror URL reads back as the port that was parsed. */
  lemma MirrorPortReparses(authority: string)
    requires PortAndHosts(authority).Success? && ':' in authority
    ensures ParseInt(IntToString(PortAndHosts(authority).value.0)) == ParseInt(Split(authority, ':')[1])
  {
    ParseIntToString(PortAndHosts(authority).value.0);
  }

  /**
   * `createProvider(String)` followed by `createProvider(URL, int, String)`:
   * what `getKeyList` gets back from resolving `location`.
   */
  function ResolvedProviders(location: string, unnest: string -> Option<UnnestedUrl>, uriValid: string -> bool)
    : (r: Result<seq<string>, ResolveError>)
    ensures unnest(location).None? ==> r == Failure(Unparsable)
    ensures unnest(location).Some? && IsEmpty(unnest(location).value.authority) ==> r == Failure(NoAuthority)
    ensures r.Success? ==> unnest(location).Some? && !IsEmpty(unnest(location).value.authority)
    ensures unnest(location).Some? && !IsEmpty(unnest(location).value.authority) ==>
      var u := unnest(location).value;
      var split := PortAndHosts(u.authority.value);
      && (split.Failure? ==> r == Failure(split.error))
      && (split.Success? ==> r == Providers(u, split.value.0, split.value.1, uriValid))
  {
    match unnest(location)
    case None => Failure(Unparsable)
    case Some(u) =>
      if IsEmpty(u.authority) then Failure(NoAuthority)
      else
        match PortAndHosts(u.authority.value)
        case Failure(e) => Failure(e)
        case Success((port, hostsPart)) => Providers(u, port, hostsPart, uriValid)
  }

  /** A ':' followed by nothing parsable (as in "host:" or "host:abc") is an error. */
  lemma UnparsablePortFails(location: string, unnest: string -> Option<UnnestedUrl>, uriValid: string -> bool)
    requires unnest(location).Some? && unnest(location).value.authority.Some?
    requires var a := unnest(location).value.authority.value;
      ':' in a && (|Split(a, ':')| < 2 || ParseInt(Split(a, ':')[1]).None?)
    ensures ResolvedProviders(location, unnest, uriValid) == Failure(BadPort)
  {
  }

  /** `createProvider(URL, int, String)`, lines 123-141: fills the provider array in a loop. */
  method CreateProviderFromHosts(u: UnnestedUrl, port: int, hostsPart: string, uriValid: string -> bool)
    returns (r: Result<array<string>, ResolveError>)
    ensures r.Success? <==> Providers(u, port, hostsPart, uriValid).Success?
    ensures r.Success? ==> r.value[..] == Providers(u, port, hostsPart, uriValid).value
    ensures r.Failure? ==> r.error == BadMirrorUrl
  {
    var hosts := Split(hostsPart, ';');
    var providers := new string[|hosts|];
    if |hosts| == 1 {
      providers[0] := u.text;
      assert providers[..] == [u.text];
    } else {
      var valid := ComposeMirrors(providers, u, hosts, port, uriValid);
      if !valid {
        return Failure(BadMirrorUrl);
      }
    }
    return Success(providers);
  }

  /** The loop of lines 130-138: entry `i` is the composed URL of host `i`, unless `new URI` rejects one. */
  method ComposeMirrors(providers: array<string>, u: UnnestedUrl, hosts: seq<string>, port: int,
                        uriValid: string -> bool) returns (valid: bool)
    requires providers.Length == |hosts|
    modifies providers
    ensures valid <==> MirrorsValid(u, hosts, port, uriValid)
    ensures valid ==> providers[..] == Mirrors(u, hosts, port)
  {
    for i := 0 to |hosts|
      invariant forall j :: 0 <= j < i ==> uriValid(MirrorUrl(u, hosts[j], port))
      invariant forall j :: 0 <= j < i ==> providers[j] == MirrorUrl(u, hosts[j], port)
    {
      var url := MirrorUrl(u, hosts[i], port);
      if !uriValid(url) {
        return false;
      }
      providers[i] := url;
    }
    assert providers[..] == Mirrors(u, hosts, port);
    return true;
  }

  /** `createProvider(String)`, lines 91-116. */
  method CreateProvider(location: string, unnest: string -> Option<UnnestedUrl>, uriValid: string -> bool)
    returns (r: Result<array<string>, ResolveError>)
    ensures r.Success? <==> ResolvedProviders(location, unnest, uriValid).Success?
    ensures r.Success? ==> r.value[..] == ResolvedProviders(location, unnest, uriValid).value
    ensures r.Failure? ==> r.error == ResolvedProviders(location, unnest, uriValid).error
  {
    var origUrl := unnest(location);
    if origUrl.None? {
      return Failure(Unparsable);
    }
    var authority := origUrl.value.authority;
    if IsEmpty(authority) {
      return Failure(NoAuthority);
    }
    var port: Int32 := -1;
    var hostsPart := authority.value;
    if ':' in authority.value {
      var t := Split(authority.value, ':');
      if |t| < 2 {
        return Failure(BadPort);
      }
      var parsed := ParseInt(t[1]);
      if parsed.None? {
        return Failure(BadPort);
      }
      port := parsed.value;
      hostsPart := t[0];
    }
    r := CreateProviderFromHosts(origUrl.value, port, hostsPart, uriValid);
  }
}
