/**
 * The decision logic of the settings downloader, free of state: the entries
 * of settings.xml, the conversion of a proxy entry into a java.net.Proxy,
 * the proxy selector's choice, and the authenticator's credential lookup.
 */
module SettingsModel {

  import opened Wrappers

  type byte = bv8

  /** What a successful host-name lookup yields. */
  type IpAddress = seq<byte>

  /** A `<proxy>` entry; a None field is a null. */
  datatype Proxy = Proxy(protocol: Option<string>, host: Option<string>, port: int,
                         username: Option<string>, password: Option<string>)

  /** A `<server>` entry; a None field is a null. */
  datatype Server = Server(id: Option<string>, username: Option<string>, password: Option<string>)

  /** The two lists of the effective settings this code reads. */
  datatype Settings = Settings(proxies: seq<Proxy>, servers: seq<Server>)

  // ---------------------------------------------------------------------------
  // toJavaProxy
  // ---------------------------------------------------------------------------

  /** The constants of java.net.Proxy.Type. */
  datatype ProxyType = DIRECT | HTTP | SOCKS

  function TypeName(t: ProxyType): string {
    match t
    case DIRECT => "DIRECT"
    case HTTP => "HTTP"
    case SOCKS => "SOCKS"
  }

  /** A java.net.Proxy: its type and its socket address. */
  datatype JavaProxy = JavaProxy(proxyType: ProxyType, address: IpAddress, port: int)

  /** The exceptions a conversion can raise; only UnknownHost is a checked one. */
  datatype ProxyError = IllegalArgument | NullPointer | UnknownHost

  /** Proxy.Type.valueOf: the exact, case-sensitive constant name. */
  function ProxyTypeValueOf(name: Option<string>): (r: Result<ProxyType, ProxyError>)
    ensures r.Success? <==> name.Some? && name.value in {"DIRECT", "HTTP", "SOCKS"}
    ensures r.Success? ==> name == Some(TypeName(r.value))
    ensures name.None? ==> r == Failure(NullPointer)
    ensures name.Some? && name.value !in {"DIRECT", "HTTP", "SOCKS"} ==> r == Failure(IllegalArgument)
  {
    match name
    case None => Failure(NullPointer)
    case Some(n) =>
      if n == "DIRECT" then Success(DIRECT)
      else if n == "HTTP" then Success(HTTP)
      else if n == "SOCKS" then Success(SOCKS)
      else Failure(IllegalArgument)
  }

  lemma ProxyTypeNamesRoundTrip(t: ProxyType)
    ensures ProxyTypeValueOf(Some(TypeName(t))) == Success(t)
  {
  }

  /** The largest port InetSocketAddress accepts. */
  const MAX_PORT := 65535

  /**
   * toJavaProxy: Proxy.Type.valueOf(protocol), then the host lookup
   * (`resolve`, None being an UnknownHostException), then
   * `new InetSocketAddress(address, port)`, which rejects a port outside
   * 0..65535, then `new java.net.Proxy(type, address)`, which rejects DIRECT.
   */
  function ToJavaProxy(proxy: Proxy, resolve: Option<string> -> Option<IpAddress>): (r: Result<JavaProxy, ProxyError>)
    ensures r.Success? <==> (proxy.protocol == Some("HTTP") || proxy.protocol == Some("SOCKS"))
                            && resolve(proxy.host).Some? && 0 <= proxy.port <= MAX_PORT
    ensures r.Success? ==> Some(TypeName(r.value.proxyType)) == proxy.protocol
                           && r.value.address == resolve(proxy.host).value && r.value.port == proxy.port
    ensures r == Failure(UnknownHost) <==> ProxyTypeValueOf(proxy.protocol).Success? && resolve(proxy.host).None?
    ensures r.Failure? && r.error != UnknownHost ==> r.error == if proxy.protocol.None? then NullPointer else IllegalArgument
  {
    match ProxyTypeValueOf(proxy.protocol)
    case Failure(e) => Failure(e)
    case Success(t) =>
      match resolve(proxy.host)
      case None => Failure(UnknownHost)
      case Some(address) =>
        if !(0 <= proxy.port <= MAX_PORT) then Failure(IllegalArgument)
        else if t == DIRECT then Failure(IllegalArgument)
        else Success(JavaProxy(t, address, proxy.port))
  }

  // ---------------------------------------------------------------------------
  // The proxy selector's select(uri)
  // ---------------------------------------------------------------------------

  /** `uri.getScheme().equals(proxy.getProtocol())`: exact and case-sensitive. */
  predicate ForScheme(proxy: Proxy, scheme: string) {
    proxy.protocol == Some(scheme)
  }

  /** What select does: return a list, or let an unchecked exception escape. */
  datatype SelectOutcome = Selected(proxies: seq<JavaProxy>) | SelectThrew(error: ProxyError)

  /** The outcome once `acc` has already been added to the list. */
  function Prefixed(acc: seq<JavaProxy>, outcome: SelectOutcome): SelectOutcome {
    match outcome
    case Selected(rest) => Selected(acc + rest)
    case SelectThrew(_) => outcome
  }

  /**
   * The loop of select over the proxies of the settings: a matching proxy is
   * converted and added; an UnknownHostException is caught and ends the loop
   * with the list built so far; any other exception escapes.
   */
  function SelectFrom(proxies: seq<Proxy>, scheme: string, resolve: Option<string> -> Option<IpAddress>): SelectOutcome {
    if proxies == [] then Selected([])
    else if !ForScheme(proxies[0], scheme) then SelectFrom(proxies[1..], scheme, resolve)
    else match ToJavaProxy(proxies[0], resolve)
      case Success(j) => Prefixed([j], SelectFrom(proxies[1..], scheme, resolve))
      case Failure(UnknownHost) => Selected([])
      case Failure(e) => SelectThrew(e)
  }

  /** select(uri): `settings` is what getSettings() yields, None for a SettingsBuildingException (caught). */
  function Select(settings: Option<Settings>, scheme: string, resolve: Option<string> -> Option<IpAddress>): (r: SelectOutcome)
    ensures settings.None? ==> r == Selected([])
  {
    match settings
    case None => Selected([])
    case Some(s) => SelectFrom(s.proxies, scheme, resolve)
  }

  /** Reference: the proxies whose protocol equals the scheme, in settings order. */
  function MatchingProxies(proxies: seq<Proxy>, scheme: string): (r: seq<Proxy>)
    ensures forall p :: p in r <==> p in proxies && ForScheme(p, scheme)
  {
    if proxies == [] then []
    else (if ForScheme(proxies[0], scheme) then [proxies[0]] else []) + MatchingProxies(proxies[1..], scheme)
  }

  /** Reference: every proxy converted, in order, or None if some conversion fails. */
  function ConvertAll(proxies: seq<Proxy>, resolve: Option<string> -> Option<IpAddress>): (r: Option<seq<JavaProxy>>)
    ensures r.Some? <==> forall i :: 0 <= i < |proxies| ==> ToJavaProxy(proxies[i], resolve).Success?
    ensures r.Some? ==> |r.value| == |proxies|
                        && forall i :: 0 <= i < |proxies| ==> r.value[i] == ToJavaProxy(proxies[i], resolve).value
  {
    if proxies == [] then Some([])
    else match ToJavaProxy(proxies[0], resolve)
      case Failure(_) => None
      case Success(j) =>
        match ConvertAll(proxies[1..], resolve)
        case None => None
        case Some(rest) => Some([j] + rest)
  }

  /** When every matching proxy converts, select is an order-preserving filter-and-convert. */
  lemma {:induction false} SelectFromFilters(proxies: seq<Proxy>, scheme: string, resolve: Option<string> -> Option<IpAddress>)
    requires ConvertAll(MatchingProxies(proxies, scheme), resolve).Some?
    ensures SelectFrom(proxies, scheme, resolve) == Selected(ConvertAll(MatchingProxies(proxies, scheme), resolve).value)
  {
    if proxies != [] {
      var m := MatchingProxies(proxies, scheme);
      var rest := MatchingProxies(proxies[1..], scheme);
      if ForScheme(proxies[0], scheme) {
        assert m == [proxies[0]] + rest;
        assert m[1..] == rest;
        assert ToJavaProxy(m[0], resolve).Success?;
      } else {
        assert m == rest;
      }
      SelectFromFilters(proxies[1..], scheme, resolve);
    }
  }

  /**
   * The first matching proxy whose conversion fails decides: an unknown host
   * ends select with the conversions of the matching proxies before it; any
   * other error escapes and no list is returned.
   */
  lemma {:induction false} SelectFromStopsAtFailure(before: seq<Proxy>, proxy: Proxy, after: seq<Proxy>, scheme: string,
                                                    resolve: Option<string> -> Option<IpAddress>)
    requires ForScheme(proxy, scheme) && ToJavaProxy(proxy, resolve).Failure?
    requires ConvertAll(MatchingProxies(before, scheme), resolve).Some?
    ensures SelectFrom(before + [proxy] + after, scheme, resolve)
            == if ToJavaProxy(proxy, resolve).error == UnknownHost
               then Selected(ConvertAll(MatchingProxies(before, scheme), resolve).value)
               else SelectThrew(ToJavaProxy(proxy, resolve).error)
  {
    var all := before + [proxy] + after;
    if before == [] {
      assert all[0] == proxy;
    } else {
      assert all[0] == before[0];
      assert all[1..] == before[1..] + [proxy] + after;
      var m := MatchingProxies(before, scheme);
      var rest := MatchingProxies(before[1..], scheme);
      if ForScheme(before[0], scheme) {
        assert m == [before[0]] + rest;
        assert m[1..] == rest;
        assert ToJavaProxy(m[0], resolve).Success?;
      } else {
        assert m == rest;
      }
      SelectFromStopsAtFailure(before[1..], proxy, after, scheme, resolve);
    }
  }

  /**
   * Settings written the usual way, with a lower-case protocol "http", and a
   * URI whose scheme is "http": the proxy matches, Proxy.Type.valueOf("http")
   * fails, and select raises IllegalArgumentException instead of returning it.
   */
  lemma LowerCaseProtocolRaises(resolve: Option<string> -> Option<IpAddress>)
    ensures SelectFrom([Proxy(Some("http"), Some("proxy1"), 8080, None, None),
                        Proxy(Some("https"), Some("proxy2"), 8443, None, None)], "http", resolve)
            == SelectThrew(IllegalArgument)
  {
    var p := Proxy(Some("http"), Some("proxy1"), 8080, None, None);
    var q := Proxy(Some("https"), Some("proxy2"), 8443, None, None);
    assert ToJavaProxy(p, resolve) == Failure(IllegalArgument);
    SelectFromStopsAtFailure([], p, [q], "http", resolve);
    assert [] + [p] + [q] == [p, q];
  }

  /**
   * A proxy is selected only when its protocol equals the scheme, and it
   * converts only when its protocol is "HTTP" or "SOCKS": for every other
   * scheme, the lower-case "http" and "socks" included, select yields no
   * proxy at all.
   */
  lemma {:induction false} OnlyUpperCaseSchemesYieldProxies(proxies: seq<Proxy>, scheme: string,
                                                            resolve: Option<string> -> Option<IpAddress>)
    requires scheme != "HTTP" && scheme != "SOCKS"
    ensures SelectFrom(proxies, scheme, resolve) == Selected([]) || SelectFrom(proxies, scheme, resolve).SelectThrew?
  {
    if proxies != [] {
      if ForScheme(proxies[0], scheme) {
        assert ToJavaProxy(proxies[0], resolve).Failure?;
      } else {
        OnlyUpperCaseSchemesYieldProxies(proxies[1..], scheme, resolve);
      }
    }
  }

  /** The letters a..z upper-cased, every other character kept. */
  function UpperAscii(s: string): (r: string)
    ensures |r| == |s|
    ensures forall i :: 0 <= i < |s| ==>
              r[i] as int == if 'a' <= s[i] <= 'z' then s[i] as int - 32 else s[i] as int
  {
    if s == [] then []
    else [if 'a' <= s[0] <= 'z' then (s[0] as int - 32) as char else s[0]] + UpperAscii(s[1..])
  }

  /**
   * The conversion the selector evidently intends: the protocol, which must
   * equal a (lower-case) URI scheme to be selected, upper-cased before
   * Proxy.Type.valueOf; the rest as toJavaProxy.
   */
  function ToJavaProxyIntended(proxy: Proxy, resolve: Option<string> -> Option<IpAddress>): (r: Result<JavaProxy, ProxyError>)
    ensures r.Success? <==> proxy.protocol.Some? && UpperAscii(proxy.protocol.value) in {"HTTP", "SOCKS"}
                            && resolve(proxy.host).Some? && 0 <= proxy.port <= MAX_PORT
    ensures r.Success? ==> TypeName(r.value.proxyType) == UpperAscii(proxy.protocol.value)
                           && r.value.address == resolve(proxy.host).value && r.value.port == proxy.port
  {
    var upper := match proxy.protocol
      case None => None
      case Some(p) => Some(UpperAscii(p));
    ToJavaProxy(proxy.(protocol := upper), resolve)
  }

  /** With the intended conversion, the usual `<protocol>http</protocol>` entry becomes an HTTP proxy. */
  lemma IntendedConvertsLowerCase(host: string, port: int, resolve: Option<string> -> Option<IpAddress>)
    requires resolve(Some(host)).Some? && 0 <= port <= MAX_PORT
    ensures ToJavaProxyIntended(Proxy(Some("http"), Some(host), port, None, None), resolve)
            == Success(JavaProxy(HTTP, resolve(Some(host)).value, port))
    ensures ToJavaProxyIntended(Proxy(Some("socks"), Some(host), port, None, None), resolve)
            == Success(JavaProxy(SOCKS, resolve(Some(host)).value, port))
  {
    assert UpperAscii("http") == "HTTP";
    assert UpperAscii("socks") == "SOCKS";
  }

  /** The loop of select with the intended conversion; everything else as `SelectFrom`. */
  function SelectFromIntended(proxies: seq<Proxy>, scheme: string, resolve: Option<string> -> Option<IpAddress>): SelectOutcome {
    if proxies == [] then Selected([])
    else if !ForScheme(proxies[0], scheme) then SelectFromIntended(proxies[1..], scheme, resolve)
    else match ToJavaProxyIntended(proxies[0], resolve)
      case Success(j) => Prefixed([j], SelectFromIntended(proxies[1..], scheme, resolve))
      case Failure(UnknownHost) => Selected([])
      case Failure(e) => SelectThrew(e)
  }

  /** The intended selector returns the lower-case "http" entry that select as written rejects. */
  lemma IntendedSelectsLowerCase(resolve: Option<string> -> Option<IpAddress>)
    requires resolve(Some("proxy1")).Some?
    ensures SelectFromIntended([Proxy(Some("http"), Some("proxy1"), 8080, None, None),
                                Proxy(Some("https"), Some("proxy2"), 8443, None, None)], "http", resolve)
            == Selected([JavaProxy(HTTP, resolve(Some("proxy1")).value, 8080)])
  {
    var p := Proxy(Some("http"), Some("proxy1"), 8080, None, None);
    var q := Proxy(Some("https"), Some("proxy2"), 8443, None, None);
    IntendedConvertsLowerCase("proxy1", 8080, resolve);
    assert [p, q][1..] == [q];
    assert [q][1..] == [];
    assert !ForScheme(q, "http");
  }

  /** A proxy whose protocol is upper-case already is converted alike by both versions. */
  lemma IntendedAgreesOnUpperCaseProxy(p: Proxy, resolve: Option<string> -> Option<IpAddress>)
    requires p.protocol.Some? ==> UpperAscii(p.protocol.value) == p.protocol.value
    ensures ToJavaProxyIntended(p, resolve) == ToJavaProxy(p, resolve)
  {
    if p.protocol.Some? {
      assert p.(protocol := Some(UpperAscii(p.protocol.value))) == p;
    } else {
      assert p.(protocol := None) == p;
    }
  }

  /** Settings whose protocols are all upper-case already are selected alike by both versions. */
  lemma {:induction false} IntendedAgreesOnUpperCase(proxies: seq<Proxy>, scheme: string,
                                                     resolve: Option<string> -> Option<IpAddress>)
    requires forall i :: 0 <= i < |proxies| && proxies[i].protocol.Some? ==>
               UpperAscii(proxies[i].protocol.value) == proxies[i].protocol.value
    ensures SelectFromIntended(proxies, scheme, resolve) == SelectFrom(proxies, scheme, resolve)
  {
    if proxies != [] {
      IntendedAgreesOnUpperCaseProxy(proxies[0], resolve);
      IntendedAgreesOnUpperCase(proxies[1..], scheme, resolve);
    }
  }

  /** One step of the loop of select: the first proxy of a suffix, then the rest of it. */
  lemma SelectFromStep(proxies: seq<Proxy>, i: nat, scheme: string, resolve: Option<string> -> Option<IpAddress>)
    requires i < |proxies|
    ensures SelectFrom(proxies[i..], scheme, resolve)
            == if !ForScheme(proxies[i], scheme) then SelectFrom(proxies[i + 1..], scheme, resolve)
               else match ToJavaProxy(proxies[i], resolve)
                 case Success(j) => Prefixed([j], SelectFrom(proxies[i + 1..], scheme, resolve))
                 case Failure(UnknownHost) => Selected([])
                 case Failure(e) => SelectThrew(e)
  {
    assert proxies[i..][0] == proxies[i] && proxies[i..][1..] == proxies[i + 1..];
  }

  /**
   * The loop of select as the source writes it: walks the proxies, adds the
   * conversion of each matching proxy, stops at the first failure.
   */
  method CollectProxies(proxies: seq<Proxy>, scheme: string, resolve: Option<string> -> Option<IpAddress>)
    returns (r: SelectOutcome)
    ensures r == SelectFrom(proxies, scheme, resolve)
  {
    var selected: seq<JavaProxy> := [];
    var i := 0;
    while i < |proxies|
      invariant 0 <= i <= |proxies|
      invariant SelectFrom(proxies, scheme, resolve) == Prefixed(selected, SelectFrom(proxies[i..], scheme, resolve))
    {
      var proxy := proxies[i];
      SelectFromStep(proxies, i, scheme, resolve);
      if ForScheme(proxy, scheme) {
        var converted := ToJavaProxy(proxy, resolve);
        if converted.Failure? {
          if converted.error == UnknownHost {
            assert selected + [] == selected;
            return Selected(selected);
          }
          return SelectThrew(converted.error);
        }
        var rest := SelectFrom(proxies[i + 1..], scheme, resolve);
        assert Prefixed(selected, Prefixed([converted.value], rest)) == Prefixed(selected + [converted.value], rest);
        selected := selected + [converted.value];
      }
      i := i + 1;
    }
    assert proxies[i..] == [];
    assert selected + [] == selected;
    r := Selected(selected);
  }

  // ---------------------------------------------------------------------------
  // The authenticator's getPasswordAuthentication()
  // ---------------------------------------------------------------------------

  /** Authenticator.RequestorType: the only two kinds of request. */
  datatype RequestorType = PROXY | SERVER

  /** What the platform tells the authenticator about a challenge. */
  datatype AuthRequest = AuthRequest(requestorType: RequestorType, protocol: string, host: string, port: int)

  datatype PasswordAuthentication = PasswordAuthentication(userName: string, password: string)

  /** What getPasswordAuthentication does: return a value (None being null) or throw an AssertionError. */
  datatype AuthOutcome = Returned(credentials: Option<PasswordAuthentication>) | ThrewAssertionError(requestorType: RequestorType)

  /** A proxy entry matches a challenge on protocol, host and port. */
  predicate ProxyMatches(proxy: Proxy, request: AuthRequest) {
    Some(request.protocol) == proxy.protocol && Some(request.host) == proxy.host && request.port == proxy.port
  }

  /** `serverId.equals(server.getId())`. */
  predicate ServerMatches(server: Server, serverId: string) {
    Some(serverId) == server.id
  }

  /** Credentials exist only when both the password and the user name are non-null. */
  function CredentialsOf(username: Option<string>, password: Option<string>): (r: Option<PasswordAuthentication>)
    ensures r.Some? <==> username.Some? && password.Some?
    ensures r.Some? ==> r.value.userName == username.value && r.value.password == password.value
  {
    if password.Some? && username.Some? then Some(PasswordAuthentication(username.value, password.value)) else None
  }

  /** The index of the first proxy matching the challenge, |proxies| if none does. */
  function FirstMatchingProxy(proxies: seq<Proxy>, request: AuthRequest): (i: nat)
    ensures i <= |proxies|
    ensures i < |proxies| ==> ProxyMatches(proxies[i], request)
    ensures forall j :: 0 <= j < i ==> !ProxyMatches(proxies[j], request)
  {
    if proxies == [] then 0
    else if ProxyMatches(proxies[0], request) then 0
    else 1 + FirstMatchingProxy(proxies[1..], request)
  }

  /** The index of the first server with the given id, |servers| if none has it. */
  function FirstMatchingServer(servers: seq<Server>, serverId: string): (i: nat)
    ensures i <= |servers|
    ensures i < |servers| ==> ServerMatches(servers[i], serverId)
    ensures forall j :: 0 <= j < i ==> !ServerMatches(servers[j], serverId)
  {
    if servers == [] then 0
    else if ServerMatches(servers[0], serverId) then 0
    else 1 + FirstMatchingServer(servers[1..], serverId)
  }

  /** The credentials of the first matching proxy; the first match ends the search. */
  function ProxyCredentials(proxies: seq<Proxy>, request: AuthRequest): Option<PasswordAuthentication> {
    var i := FirstMatchingProxy(proxies, request);
    if i < |proxies| then CredentialsOf(proxies[i].username, proxies[i].password) else None
  }

  /** The credentials of the first server with the id; the first match ends the search. */
  function ServerCredentials(servers: seq<Server>, serverId: string): Option<PasswordAuthentication> {
    var i := FirstMatchingServer(servers, serverId);
    if i < |servers| then CredentialsOf(servers[i].username, servers[i].password) else None
  }

  /** A matching proxy without full credentials hides every later matching proxy, credentials or not. */
  lemma FirstProxyMatchDecides(proxies: seq<Proxy>, request: AuthRequest, i: nat)
    requires i < |proxies| && ProxyMatches(proxies[i], request)
    requires forall j :: 0 <= j < i ==> !ProxyMatches(proxies[j], request)
    ensures ProxyCredentials(proxies, request) == CredentialsOf(proxies[i].username, proxies[i].password)
  {
    var k := FirstMatchingProxy(proxies, request);
    assert !(k < i) && !(i < k);
  }

  /** The same for servers. */
  lemma FirstServerMatchDecides(servers: seq<Server>, serverId: string, i: nat)
    requires i < |servers| && ServerMatches(servers[i], serverId)
    requires forall j :: 0 <= j < i ==> !ServerMatches(servers[j], serverId)
    ensures ServerCredentials(servers, serverId) == CredentialsOf(servers[i].username, servers[i].password)
  {
    var k := FirstMatchingServer(servers, serverId);
    assert !(k < i) && !(i < k);
  }

  /** The proxy loop of getPasswordAuthentication, with its `break` at the first match. */
  method ScanProxies(proxies: seq<Proxy>, request: AuthRequest) returns (credentials: Option<PasswordAuthentication>)
    ensures credentials == ProxyCredentials(proxies, request)
  {
    credentials := None;
    var i := 0;
    while i < |proxies|
      invariant 0 <= i <= |proxies|
      invariant forall j :: 0 <= j < i ==> !ProxyMatches(proxies[j], request)
    {
      var proxy := proxies[i];
      if ProxyMatches(proxy, request) {
        if proxy.password.Some? && proxy.username.Some? {
          credentials := Some(PasswordAuthentication(proxy.username.value, proxy.password.value));
        }
        FirstProxyMatchDecides(proxies, request, i);
        return;
      }
      i := i + 1;
    }
  }

  /** The server loop of getPasswordAuthentication: credentials found, or None to keep the old value. */
  method ScanServers(servers: seq<Server>, serverId: string) returns (credentials: Option<PasswordAuthentication>)
    ensures credentials == ServerCredentials(servers, serverId)
  {
    credentials := None;
    var i := 0;
    while i < |servers|
      invariant 0 <= i <= |servers|
      invariant forall j :: 0 <= j < i ==> !ServerMatches(servers[j], serverId)
    {
      var server := servers[i];
      if ServerMatches(server, serverId) {
        if server.password.Some? && server.username.Some? {
          credentials := Some(PasswordAuthentication(server.username.value, server.password.value));
        }
        FirstServerMatchDecides(servers, serverId, i);
        return;
      }
      i := i + 1;
    }
  }

  /**
   * getPasswordAuthentication as written: neither case ends in `break`, so
   * PROXY falls into SERVER and SERVER into `default`, which throws. `settings`
   * is what getSettings() yields (None for a caught SettingsBuildingException);
   * `serverId` is the "maven-server-id" system property.
   */
  function AuthenticateAsWritten(request: AuthRequest, settings: Option<Settings>, serverId: Option<string>): (r: AuthOutcome)
    ensures r.Returned? ==> r.credentials.None?
    ensures r.Returned? <==> settings.None? && (request.requestorType == PROXY || serverId.Some?)
    ensures r.ThrewAssertionError? ==> r.requestorType == request.requestorType
  {
    match request.requestorType
    case PROXY => if settings.None? then Returned(None) else ThrewAssertionError(PROXY)
    case SERVER => if serverId.Some? && settings.None? then Returned(None) else ThrewAssertionError(SERVER)
  }

  /**
   * getPasswordAuthentication with a `break` closing each case: the first
   * matching entry's credentials, or null.
   */
  function Authenticate(request: AuthRequest, settings: Option<Settings>, serverId: Option<string>): (r: AuthOutcome)
    ensures r.Returned?
    ensures settings.None? ==> r == Returned(None)
    ensures request.requestorType == PROXY && settings.Some? ==>
              r == Returned(ProxyCredentials(settings.value.proxies, request))
    ensures request.requestorType == SERVER && settings.Some? ==>
              r == Returned(if serverId.None? then None else ServerCredentials(settings.value.servers, serverId.value))
  {
    match request.requestorType
    case PROXY =>
      if settings.None? then Returned(None) else Returned(ProxyCredentials(settings.value.proxies, request))
    case SERVER =>
      if serverId.None? || settings.None? then Returned(None)
      else Returned(ServerCredentials(settings.value.servers, serverId.value))
  }

  /**
   * The fall-through loses credentials: a proxy challenge matched by an entry
   * with a user name and a password throws instead of answering.
   */
  lemma FallThroughLosesCredentials()
    ensures var request := AuthRequest(PROXY, "http", "proxy1", 8080);
            var settings := Some(Settings([Proxy(Some("http"), Some("proxy1"), 8080, Some("alice"), Some("secret"))], []));
            && AuthenticateAsWritten(request, settings, None) == ThrewAssertionError(PROXY)
            && Authenticate(request, settings, None) == Returned(Some(PasswordAuthentication("alice", "secret")))
  {
    var request := AuthRequest(PROXY, "http", "proxy1", 8080);
    var proxies := [Proxy(Some("http"), Some("proxy1"), 8080, Some("alice"), Some("secret"))];
    FirstProxyMatchDecides(proxies, request, 0);
  }

  /** Wherever the switch as written returns, it agrees with the corrected one; everywhere else it throws. */
  lemma AsWrittenAgreesOnlyWhenItReturns(request: AuthRequest, settings: Option<Settings>, serverId: Option<string>)
    ensures AuthenticateAsWritten(request, settings, serverId).Returned? ==>
              AuthenticateAsWritten(request, settings, serverId) == Authenticate(request, settings, serverId)
    ensures AuthenticateAsWritten(request, settings, serverId) != Authenticate(request, settings, serverId) ==>
              AuthenticateAsWritten(request, settings, serverId) == ThrewAssertionError(request.requestorType)
  {
  }
}
