/** How the C client derives the control-channel URL and the signed Host value from its endpoint option, and how
    the websocket code takes that URL apart again. */
module Endpoint {
  import opened Prelude
  import opened CStrings

  /** `snprintf(buf, size, "%s", s)` */
  function Fit(s: string, size: nat): string
    requires size >= 1
  {
    if |s| < size then s else s[..size - 1]
  }

  /** The text behind the first `://`, or everything. */
  function AfterScheme(endpoint: string): string {
    match Find(endpoint, "://") case None => endpoint case Some(i) => endpoint[i + 3..]
  }

  /** `ws_url_from_endpoint`, into its 512-byte buffer. */
  function WsUrl(endpoint: string): string {
    var scheme := if Contains(endpoint, "://") && "https://" <= endpoint then "wss" else "ws";
    Fit(scheme + ("://" + (AfterScheme(endpoint) + "/rdma-ctrl")), 512)
  }

  /** Text up to a separator, or all of it (`strchr`). */
  function Before(s: string, sep: string): string {
    match Find(s, sep) case None => s case Some(i) => s[..i]
  }

  /** `host_from_endpoint`, into its 256-byte buffer: the Host value that is signed and sent. */
  function SignedHost(endpoint: string): string {
    Fit(Before(AfterScheme(endpoint), "/"), 256)
  }

  datatype Target = Target(host: string, port: int, path: string)

  /** `ws_parse_url`, with the buffers of `ws_dial`. */
  function ParseUrl(url: string): Option<Target> {
    match Find(url, "://")
    case None => None
    case Some(i) =>
      var p := url[i + 3..];
      var hostport := Before(p, "/");
      if |hostport| >= 300 then None
      else
        var path := Fit(if Find(p, "/").Some? then p[|hostport|..] else "/", 256);
        match Find(hostport, ":")
        case None => Some(Target(Fit(hostport, 256), 80, path))
        case Some(c) => Some(Target(Fit(hostport[..c], 256), Atoi(hostport[c + 1..]), path))
  }

  /** The port as `ws_dial` passes it to name resolution, out of its 8-byte buffer. */
  function Service(port: int): string { Fit(DecInt(port), 8) }

  predicate HostName(h: string) { ':' !in h && '/' !in h }

  function HostPort(host: string, port: nat): string { host + (":" + Dec(port)) }

  lemma SchemeSplit(scheme: string, rest: string)
    requires ':' !in scheme
    ensures Find(scheme + ("://" + rest), "://") == Some(|scheme|)
    ensures (scheme + ("://" + rest))[|scheme| + 3..] == rest
  {
    hide Find;
    SkipFree(scheme, "://" + rest, "://");
    FindHere("://", rest);
  }

  lemma {:induction false} BeforeSlash(a: string, b: string)
    requires '/' !in a
    ensures Before(a, "/") == a && Find(a, "/").None?
    ensures Before(a + ("/" + b), "/") == a && Find(a + ("/" + b), "/").Some? && (a + ("/" + b))[|a|..] == "/" + b
  {
    hide Find;
    SkipFree(a, "/" + b, "/");
    FindHere("/", b);
    SkipFree(a, "", "/");
    assert a + "" == a;
    NothingFound("/");
  }

  lemma NothingFound(pat: string)
    requires pat != ""
    ensures Find("", pat).None?
  {
  }

  lemma HostPortParts(host: string, port: nat)
    requires HostName(host)
    ensures '/' !in HostPort(host, port)
    ensures Find(HostPort(host, port), ":") == Some(|host|)
    ensures HostPort(host, port)[..|host|] == host && HostPort(host, port)[|host| + 1..] == Dec(port)
  {
    hide Find, Dec;
    DecPlain(port);
    SkipFree(host, ":" + Dec(port), ":");
    FindHere(":", Dec(port));
  }

  lemma DecPlain(n: nat)
    ensures '/' !in Dec(n)
  {
  }

  /** Whatever the derived URL's scheme, taking it apart gives back host, port and control path. */
  lemma ParseControlUrl(scheme: string, host: string, port: nat)
    requires (scheme == "ws" || scheme == "wss") && HostName(host) && port < TWO_TO_31
    requires |HostPort(host, port)| < 300
    ensures var url := scheme + ("://" + (HostPort(host, port) + "/rdma-ctrl"));
            |url| < 512 && ParseUrl(url) == Some(Target(Fit(host, 256), port, "/rdma-ctrl"))
  {
    hide Find, Before, HostPort, Atoi, Dec, DecInt;
    var hp := HostPort(host, port);
    HostPortParts(host, port);
    SchemeSplit(scheme, hp + "/rdma-ctrl");
    assert "/rdma-ctrl" == "/" + "rdma-ctrl";
    BeforeSlash(hp, "rdma-ctrl");
    PortReads(port);
  }

  lemma PortReads(port: nat)
    requires port < TWO_TO_31
    ensures Atoi(Dec(port)) == port
  {
    AtoiDecInt(port);
  }

  lemma EndpointText(https: bool, hp: string)
    requires '/' !in hp
    ensures var scheme := if https then "https" else "http";
            var e := scheme + ("://" + hp);
            AfterScheme(e) == hp && Contains(e, "://") && ("https://" <= e <==> https)
            && SignedHost(e) == Fit(hp, 256)
  {
    hide Find, Before;
    var scheme := if https then "https" else "http";
    SchemeSplit(scheme, hp);
    BeforeSlash(hp, "");
    var e := scheme + ("://" + hp);
    if https {
      assert e[..8] == "https://";
    } else {
      assert e[4] == ':' && "https://"[4] == 's';
    }
  }

  lemma {:induction false} DecLong(n: nat, digits: nat)
    requires n >= Pow10(digits)
    ensures |Dec(n)| > digits
    decreases digits
  {
    if digits > 0 {
      assert n / 10 >= Pow10(digits - 1);
      DecLong(n / 10, digits - 1);
    }
  }

  /** The port survives its buffer exactly up to seven digits. */
  lemma ServiceFits(port: nat)
    ensures Service(port) == Dec(port) <==> port < 10_000_000
  {
    assert Pow10(7) == 10_000_000 by { assert Pow10(4) == 10_000; }
    if port < 10_000_000 { DecLength(port, 10_000_000, 7); } else { DecLong(port, 7); }
  }

  /** Endpoint agreement, with its exact condition: the control URL comes apart into the endpoint's host and port and
      the control path, the port is looked up as given, and the signed Host value is the same `host:port`, if and
      only if `host:port` fits the 256-byte Host buffer and the port has at most seven digits. */
  lemma EndpointAgreement(https: bool, host: string, port: nat)
    requires HostName(host) && port < TWO_TO_31
    ensures var e := (if https then "https" else "http") + ("://" + HostPort(host, port));
            (ParseUrl(WsUrl(e)) == Some(Target(host, port, "/rdma-ctrl")) && Service(port) == Dec(port)
             && SignedHost(e) == HostPort(host, port))
            <==> |HostPort(host, port)| < 256 && port < 10_000_000
  {
    hide Find, Before, Dec, ParseUrl, AfterScheme, SignedHost, Contains, Service;
    ServiceFits(port);
    var hp := HostPort(host, port);
    var e := (if https then "https" else "http") + ("://" + hp);
    HostPortParts(host, port);
    EndpointText(https, hp);
    if |hp| < 256 {
      ParseControlUrl(if https then "wss" else "ws", host, port);
    }
  }

  /** An endpoint with a path keeps it in the control URL, and the signed Host value leaves it out. */
  lemma EndpointWithPath(https: bool, host: string, port: nat, path: string)
    requires HostName(host) && port < TWO_TO_31 && |HostPort(host, port)| < 256 && |path| < 240
    ensures var e := (if https then "https" else "http") + ("://" + (HostPort(host, port) + ("/" + path)));
            && SignedHost(e) == HostPort(host, port)
            && ParseUrl(WsUrl(e)) == Some(Target(host, port, "/" + path + "/rdma-ctrl"))
  {
    hide Find, Before, HostPort, Atoi, Dec, DecInt, Contains;
    var hp := HostPort(host, port);
    var scheme := if https then "https" else "http";
    HostPortParts(host, port);
    HostPortLength(host, port);
    SchemeSplit(scheme, hp + ("/" + path));
    SchemeKnown(https, hp + ("/" + path));
    BeforeSlash(hp, path);
    var ws := if https then "wss" else "ws";
    var tail := path + "/rdma-ctrl";
    assert hp + ("/" + path) + "/rdma-ctrl" == hp + ("/" + tail);
    SchemeSplit(ws, hp + ("/" + tail));
    BeforeSlash(hp, tail);
    PortReads(port);
    assert "/" + tail == "/" + path + "/rdma-ctrl";
  }

  lemma HostPortLength(host: string, port: nat)
    ensures |HostPort(host, port)| > |host|
  {
  }

  lemma SchemeKnown(https: bool, rest: string)
    ensures var e := (if https then "https" else "http") + ("://" + rest);
            && Contains(e, "://") && ("https://" <= e <==> https) && AfterScheme(e) == rest
  {
    hide Find;
    var scheme := if https then "https" else "http";
    SchemeSplit(scheme, rest);
    var e := scheme + ("://" + rest);
    if https {
      assert e[..8] == "https://";
    } else {
      assert e[4] == ':' && "https://"[4] == 's';
    }
  }

  /** The control URL, character by character: secure exactly for https, and everything behind the scheme kept. */
  lemma ControlUrl(https: bool, rest: string)
    requires |rest| < 490
    ensures WsUrl((if https then "https" else "http") + ("://" + rest))
         == (if https then "wss" else "ws") + ("://" + (rest + "/rdma-ctrl"))
    ensures !Contains(rest, "://") ==> WsUrl(rest) == "ws" + ("://" + (rest + "/rdma-ctrl"))
  {
    hide Find, AfterScheme, Contains;
    SchemeKnown(https, rest);
    if !Contains(rest, "://") { NoScheme(rest); }
  }

  lemma NoScheme(s: string)
    requires !Contains(s, "://")
    ensures AfterScheme(s) == s
  {
    hide Find;
  }

  /** An endpoint without a port: the websocket goes to port 80, under https, too. */
  lemma EndpointWithoutPort(https: bool, host: string)
    requires HostName(host) && |host| < 256
    ensures var e := (if https then "https" else "http") + ("://" + host);
            SignedHost(e) == host && ParseUrl(WsUrl(e)) == Some(Target(host, 80, "/rdma-ctrl"))
  {
    hide Find, Before, Atoi, Contains;
    SchemeKnown(https, host);
    BeforeSlash(host, "");
    var ws := if https then "wss" else "ws";
    assert host + "/rdma-ctrl" == host + ("/" + "rdma-ctrl");
    SchemeSplit(ws, host + "/rdma-ctrl");
    BeforeSlash(host, "rdma-ctrl");
    NoColon(host);
  }

  /** A URL is rejected exactly if what stands between scheme and path has 300 characters or more. */
  lemma LongHostRejected(scheme: string, hp: string, path: string)
    requires ':' !in scheme && '/' !in hp
    ensures ParseUrl(scheme + ("://" + (hp + ("/" + path)))) == None <==> |hp| >= 300
  {
    hide Find, Before, Atoi;
    SchemeSplit(scheme, hp + ("/" + path));
    BeforeSlash(hp, path);
  }

  lemma NoColon(host: string)
    requires ':' !in host
    ensures Find(host, ":").None?
  {
    SkipFree(host, "", ":");
    assert host + "" == host;
  }

  /** An endpoint without a scheme is dialed like one with http. */
  lemma EndpointWithoutScheme(host: string, port: nat)
    requires HostName(host) && port < TWO_TO_31 && |HostPort(host, port)| < 256
    ensures var e := HostPort(host, port);
            SignedHost(e) == e && ParseUrl(WsUrl(e)) == Some(Target(host, port, "/rdma-ctrl"))
  {
    hide Find, Before, HostPort, Dec, ParseUrl;
    var hp := HostPort(host, port);
    HostPortParts(host, port);
    HostPortLength(host, port);
    NoSlash(hp);
    BeforeSlash(hp, "");
    ParseControlUrl("ws", host, port);
  }

  lemma NoSlash(s: string)
    requires '/' !in s
    ensures Find(s, "://").None?
  {
    forall i | 0 <= i <= |s| ensures !("://" <= s[i..]) {
      if i + 1 < |s| { assert s[i..][1] == s[i + 1] && "://"[1] == '/'; }
    }
    FindIsFirst(s, "://");
  }
}
