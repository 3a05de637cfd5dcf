/**
The gateway's two routing schemes (pkg/gateway/route.go).  Each renders public URLs and
resolves requests, and the two directions have to be inverse.
*/
module Gateway {
  import opened Options
  import opened Decimal

  const DATA_PLANE_PORT := 8080
  const DEFAULT_PREFIX := "/s"
  const PORT_SEGMENT := "p"

  datatype Route = Route(
    sandboxId: string,
    port: int,
    userPort: bool,
    rest: string,
    rawRest: string,
    prefix: string)

  predicate ValidPort(n: int) {
    0 < n <= 65535
  }

  predicate Lacks(s: string, c: char) {
    forall i :: 0 <= i < |s| ==> s[i] != c
  }

  /** Where `c` first occurs, or the length of `s`. */
  function IndexByte(s: string, c: char): (k: nat)
    ensures k <= |s| && (k < |s| ==> s[k] == c) && forall j :: 0 <= j < k ==> s[j] != c
  {
    if s == "" || s[0] == c then 0 else 1 + IndexByte(s[1..], c)
  }

  /** Where `c` last occurs, or -1. */
  function LastIndexByte(s: string, c: char): (k: int)
    ensures -1 <= k < |s| && (k >= 0 ==> s[k] == c) && forall j :: k < j < |s| ==> s[j] != c
  {
    if s == "" then -1
    else if s[|s| - 1] == c then |s| - 1
    else LastIndexByte(s[..|s| - 1], c)
  }

  lemma FirstAt(a: string, c: char, b: string)
    requires Lacks(a, c)
    ensures IndexByte(a + [c] + b, c) == |a|
  {
    assert (a + [c] + b)[|a|] == c;
  }

  lemma AbsentAt(a: string, c: char)
    requires Lacks(a, c)
    ensures IndexByte(a, c) == |a| && LastIndexByte(a, c) == -1
  {
  }

  lemma LastAt(a: string, c: char, b: string)
    requires Lacks(b, c)
    ensures LastIndexByte(a + [c] + b, c) == |a|
  {
    var s := a + [c] + b;
    hide LastIndexByte;
    assert s[|a|] == c;
    forall j | |a| < j < |s|
      ensures s[j] != c
    {
      Behind(a + [c], b, j);
    }
  }

  lemma Behind(a: string, b: string, j: nat)
    requires |a| <= j < |a| + |b|
    ensures (a + b)[j] == b[j - |a|]
  {
  }

  // --------------------------------------------------------------- path routing

  datatype PathRouter = PathRouter(prefix: string, base: string)

  function TrimLeft(s: string): string {
    if s != "" && s[0] == '/' then TrimLeft(s[1..]) else s
  }

  function TrimRight(s: string): string {
    if s != "" && s[|s| - 1] == '/' then TrimRight(s[..|s| - 1]) else s
  }

  function Prefix(r: PathRouter): string {
    if r.prefix == "" then DEFAULT_PREFIX else "/" + TrimRight(TrimLeft(r.prefix))
  }

  function CutSegment(p: string): (string, string) {
    if p == "" || p[0] != '/' then ("", p)
    else
      var q := p[1..];
      var i := IndexByte(q, '/');
      (q[..i], q[i..])
  }

  predicate IsHex(c: char) {
    '0' <= c <= '9' || 'a' <= c <= 'f' || 'A' <= c <= 'F'
  }

  function HexValue(c: char): int
    requires IsHex(c)
  {
    if c <= '9' then c as int - '0' as int
    else if c <= 'F' then c as int - 'A' as int + 10
    else c as int - 'a' as int + 10
  }

  /** url.PathUnescape, which fails on a malformed escape. */
  function PathUnescape(s: string): Option<string> {
    if s == "" then Some("")
    else if s[0] == '%' then
      if |s| < 3 || !IsHex(s[1]) || !IsHex(s[2]) then None
      else
        var rest := PathUnescape(s[3..]);
        if rest.None? then None
        else Some([(16 * HexValue(s[1]) + HexValue(s[2])) as char] + rest.value)
    else
      var rest := PathUnescape(s[1..]);
      if rest.None? then None else Some([s[0]] + rest.value)
  }

  /** The part of an escaped request path after the routing prefix, if the prefix is there. */
  function AfterPrefix(r: PathRouter, esc: string): Option<string> {
    if esc == Prefix(r) || Prefix(r) + "/" <= esc then Some(esc[|Prefix(r)|..]) else None
  }

  /** What is left once the sandbox is known: a port it opened, or the data plane. */
  function RouteRest(stripped: string, id: string, rest: string): Option<Route> {
    var (head, after) := CutSegment(rest);
    if head == PORT_SEGMENT then
      var (portSeg, tail) := CutSegment(after);
      var port := Atoi(portSeg);
      var dec := PathUnescape(tail);
      if port.None? || !ValidPort(port.value) || dec.None? then None
      else Some(Route(id, port.value, true, dec.value, tail, stripped + "/" + PORT_SEGMENT + "/" + portSeg))
    else
      var dec := PathUnescape(rest);
      if dec.None? then None else Some(Route(id, DATA_PLANE_PORT, false, dec.value, rest, stripped))
  }

  function RoutePath(r: PathRouter, esc: string): Option<Route> {
    var s := AfterPrefix(r, esc);
    if s.None? then None
    else
      var (id, rest) := CutSegment(s.value);
      if id == "" then None else RouteRest(Prefix(r) + "/" + id, id, rest)
  }

  /** The public origin URLs are rendered against. */
  function Origin(r: PathRouter): string {
    if r.base != "" && r.base[|r.base| - 1] == '/' then r.base[..|r.base| - 1] else r.base
  }

  function EndpointURL(r: PathRouter, id: string): string {
    Origin(r) + Prefix(r) + "/" + id
  }

  function PortURL(r: PathRouter, id: string, port: int): string {
    EndpointURL(r, id) + "/" + PORT_SEGMENT + "/" + Text(port) + "/"
  }

  /** A cut path is a slash, the segment, and the rest, which is empty or goes on with a slash. */
  lemma CutPastes(p: string)
    requires p != "" && p[0] == '/'
    ensures var (seg, rest) := CutSegment(p);
            p == "/" + seg + rest && Lacks(seg, '/') && (rest == "" || rest[0] == '/')
  {
  }

  lemma CutOfJoined(seg: string, rest: string)
    requires Lacks(seg, '/') && (rest == "" || rest[0] == '/')
    ensures CutSegment("/" + seg + rest) == (seg, rest)
  {
    var p := "/" + seg + rest;
    assert p[1..] == seg + rest;
    if rest == "" {
      assert seg + rest == seg;
      AbsentAt(seg, '/');
    } else {
      assert seg + rest == seg + ['/'] + rest[1..];
      FirstAt(seg, '/', rest[1..]);
    }
  }

  lemma RestSplits(stripped: string, id: string, rest: string)
    requires RouteRest(stripped, id, rest).Some?
    ensures var rt := RouteRest(stripped, id, rest).value;
            rt.prefix + rt.rawRest == stripped + rest && PathUnescape(rt.rawRest) == Some(rt.rest)
  {
    hide Atoi, PathUnescape, CutSegment;
    var (head, after) := CutSegment(rest);
    if head == PORT_SEGMENT {
      CutPastesHead(rest);
      NoSegmentNoPort(after);
      CutPastes(after);
      var (portSeg, tail) := CutSegment(after);
      PortPastes(stripped, PORT_SEGMENT, portSeg, tail);
    }
  }

  lemma CutPastesHead(p: string)
    requires CutSegment(p).0 != ""
    ensures p == "/" + CutSegment(p).0 + CutSegment(p).1
  {
  }

  lemma PortPastes(a: string, b: string, c: string, d: string)
    ensures (a + "/" + b + "/" + c) + d == a + ("/" + b + ("/" + c + d))
  {
  }

  /** Nothing is lost or invented: what was stripped and what is handed on make up the request path. */
  lemma RouteSplitsPath(r: PathRouter, esc: string)
    requires RoutePath(r, esc).Some?
    ensures var rt := RoutePath(r, esc).value;
            rt.prefix + rt.rawRest == esc && PathUnescape(rt.rawRest) == Some(rt.rest)
  {
    hide RouteRest, PathUnescape, Prefix, IndexByte;
    var s := AfterPrefix(r, esc).value;
    assert esc == Prefix(r) + s;
    CutPastes(s);
    var (id, rest) := CutSegment(s);
    RestSplits(Prefix(r) + "/" + id, id, rest);
    DataPastes(Prefix(r), id, rest);
  }

  /** PathRouter.Route, on the escaped path. */
  method RouteRequest(r: PathRouter, esc: string) returns (out: Option<Route>)
    ensures out == RoutePath(r, esc)
    ensures out.Some? ==> out.value.prefix + out.value.rawRest == esc
  {
    hide Atoi, PathUnescape, CutSegment, Prefix;
    var prefix := Prefix(r);
    if esc != prefix && !(prefix + "/" <= esc) {
      return None;
    }
    var (id, rest) := CutSegment(esc[|prefix|..]);
    if id == "" {
      return None;
    }
    var rt := Route(id, DATA_PLANE_PORT, false, "", "", prefix + "/" + id);
    var (head, after) := CutSegment(rest);
    if head == PORT_SEGMENT {
      var (portSeg, tail) := CutSegment(after);
      var port := Atoi(portSeg);
      if port.None? || port.value <= 0 || port.value > 65535 {
        return None;
      }
      rt := rt.(port := port.value, userPort := true, prefix := rt.prefix + "/" + PORT_SEGMENT + "/" + portSeg);
      rest := tail;
    }
    var dec := PathUnescape(rest);
    if dec.None? {
      return None;
    }
    rt := rt.(rest := dec.value, rawRest := rest);
    out := Some(rt);
    RouteSplitsPath(r, esc);
  }

  lemma DataPastes(a: string, b: string, c: string)
    ensures (a + "/" + b) + c == a + ("/" + b + c)
  {
  }

  lemma NoSegmentNoPort(after: string)
    ensures Atoi(CutSegment(after).0).Some? ==> after != "" && after[0] == '/'
  {
  }

  ghost predicate SingleSegment(id: string) {
    id != "" && Lacks(id, '/')
  }

  /** What can follow a segment: nothing, or a slash and more. */
  predicate Continues(rest: string) {
    rest == "" || rest[0] == '/'
  }

  lemma AfterPrefixOf(r: PathRouter, s: string)
    requires s != "" && s[0] == '/'
    ensures AfterPrefix(r, Prefix(r) + s) == Some(s)
  {
  }

  /** A path under a rendered endpoint names its sandbox, and is routed by what follows. */
  lemma EndpointPath(r: PathRouter, id: string, rest: string)
    requires SingleSegment(id) && Continues(rest)
    ensures RoutePath(r, EndpointURL(r, id)[|Origin(r)|..] + rest) == RouteRest(Prefix(r) + "/" + id, id, rest)
  {
    hide Prefix, RouteRest, CutSegment, AfterPrefix;
    var path := EndpointURL(r, id)[|Origin(r)|..] + rest;
    assert EndpointURL(r, id) == Origin(r) + (Prefix(r) + "/" + id);
    assert EndpointURL(r, id)[|Origin(r)|..] == Prefix(r) + "/" + id;
    assert path == Prefix(r) + ("/" + id + rest);
    AfterPrefixOf(r, "/" + id + rest);
    CutOfJoined(id, rest);
  }

  /** A data-plane call on a rendered endpoint comes back to that sandbox's data plane. */
  lemma EndpointRoutesBack(r: PathRouter, id: string, tail: string)
    requires SingleSegment(id) && PathUnescape("/v1/" + tail).Some?
    ensures var path := EndpointURL(r, id)[|Origin(r)|..] + ("/v1/" + tail);
            var rt := RoutePath(r, path);
            && rt.Some? && rt.value.sandboxId == id
            && rt.value.port == DATA_PLANE_PORT && !rt.value.userPort && rt.value.rawRest == "/v1/" + tail
  {
    hide Prefix, PathUnescape, RoutePath, CutSegment, EndpointURL, Origin;
    var rest := "/v1/" + tail;
    EndpointPath(r, id, rest);
    assert rest == "/" + "v1" + ("/" + tail);
    CutOfJoined("v1", "/" + tail);
  }

  // ---- the grammar of routed paths

  /** The rest of a path that asks for a port the sandbox opened. */
  predicate AsksForPort(rest: string) {
    rest == "/p" || "/p/" <= rest
  }

  /** A rest on the data plane, handed on as it is. */
  ghost predicate DataRest(rest: string, rt: Route) {
    && Continues(rest) && !AsksForPort(rest) && PathUnescape(rest) == Some(rt.rest)
    && rt.rawRest == rest && rt.port == 8080 && !rt.userPort
  }

  /** A rest on an opened port: the port's number, and what follows it. */
  ghost predicate PortRest(rest: string, portSeg: string, rt: Route) {
    && rest == "/p/" + portSeg + rt.rawRest && Lacks(portSeg, '/') && Continues(rt.rawRest)
    && Atoi(portSeg) == Some(rt.port) && 0 < rt.port <= 65535
    && PathUnescape(rt.rawRest) == Some(rt.rest) && rt.userPort
  }

  lemma CutOfPort(rest: string)
    requires Continues(rest)
    ensures CutSegment(rest).0 == PORT_SEGMENT <==> AsksForPort(rest)
    ensures AsksForPort(rest) ==> CutSegment(rest).1 == rest[2..]
  {
    if rest == "/p" {
      CutOfJoined("p", "");
      assert "/" + "p" + "" == "/p";
    } else if "/p/" <= rest {
      CutOfJoined("p", rest[2..]);
      assert rest == "/" + "p" + rest[2..];
    } else if rest != "" {
      CutPastes(rest);
      assert CutSegment(rest).0 == "p" ==> rest == "/p" + CutSegment(rest).1;
    }
  }

  lemma PortRestAsks(rest: string, portSeg: string, rt: Route)
    ensures PortRest(rest, portSeg, rt) ==> AsksForPort(rest)
  {
    assert "/p/" <= "/p/" + portSeg + rt.rawRest;
  }

  lemma DataRestIff(stripped: string, id: string, rest: string, rt: Route)
    requires Continues(rest) && !AsksForPort(rest)
    ensures RouteRest(stripped, id, rest) == Some(rt)
       <==> DataRest(rest, rt) && rt.sandboxId == id && rt.prefix == stripped
  {
    hide CutSegment, PathUnescape, Atoi;
    CutOfPort(rest);
  }

  lemma PortRestIff(stripped: string, id: string, rest: string, rt: Route)
    requires Continues(rest) && AsksForPort(rest)
    ensures RouteRest(stripped, id, rest) == Some(rt)
       <==> exists portSeg :: && PortRest(rest, portSeg, rt) && rt.sandboxId == id
                              && rt.prefix == stripped + "/" + "p" + "/" + portSeg
  {
    hide CutSegment, PathUnescape, Atoi;
    CutOfPort(rest);
    var after := rest[2..];
    var (seg, tail) := CutSegment(after);
    if RouteRest(stripped, id, rest) == Some(rt) {
      NoSegmentNoPort(after);
      CutPastes(after);
      assert rest == "/p" + after;
      assert PortRest(rest, seg, rt);
    }
    forall portSeg | PortRest(rest, portSeg, rt)
      ensures seg == portSeg && tail == rt.rawRest
    {
      assert after == "/" + portSeg + rt.rawRest;
      CutOfJoined(portSeg, rt.rawRest);
    }
  }

  /** A path is routed so: the prefix, one segment for the sandbox, and a rest of one of the two kinds. */
  ghost predicate Routed(r: PathRouter, esc: string, rest: string, rt: Route) {
    && SingleSegment(rt.sandboxId) && Continues(rest) && esc == Prefix(r) + "/" + rt.sandboxId + rest
    && (|| (DataRest(rest, rt) && rt.prefix == Prefix(r) + "/" + rt.sandboxId)
        || exists portSeg :: PortRest(rest, portSeg, rt) && rt.prefix == Prefix(r) + "/" + rt.sandboxId + "/" + "p" + "/" + portSeg)
  }

  lemma RoutedIsRouted(r: PathRouter, esc: string, rest: string, rt: Route)
    requires Routed(r, esc, rest, rt)
    ensures RoutePath(r, esc) == Some(rt)
  {
    hide Prefix, RouteRest, CutSegment, AfterPrefix, PathUnescape, Atoi;
    var id := rt.sandboxId;
    var stripped := Prefix(r) + "/" + id;
    assert esc == Prefix(r) + ("/" + id + rest);
    AfterPrefixOf(r, "/" + id + rest);
    CutOfJoined(id, rest);
    if AsksForPort(rest) {
      PortRestIff(stripped, id, rest, rt);
    } else {
      forall portSeg ensures !PortRest(rest, portSeg, rt) {
        PortRestAsks(rest, portSeg, rt);
      }
      DataRestIff(stripped, id, rest, rt);
    }
  }

  lemma RouteIsRouted(r: PathRouter, esc: string, rt: Route) returns (rest: string)
    requires RoutePath(r, esc) == Some(rt)
    ensures Routed(r, esc, rest, rt)
  {
    hide Prefix, CutSegment, PathUnescape, Atoi;
    var s := AfterPrefix(r, esc).value;
    var id := CutSegment(s).0;
    rest := CutSegment(s).1;
    assert esc == Prefix(r) + s;
    CutPastesHead(s);
    HeadIsSegment(s);
    assert esc == Prefix(r) + "/" + id + rest;
    var stripped := Prefix(r) + "/" + id;
    assert RouteRest(stripped, id, rest) == Some(rt);
    hide RouteRest, AfterPrefix, RoutePath;
    if AsksForPort(rest) {
      PortRestIff(stripped, id, rest, rt);
    } else {
      DataRestIff(stripped, id, rest, rt);
    }
  }

  lemma HeadIsSegment(p: string)
    requires CutSegment(p).0 != ""
    ensures SingleSegment(CutSegment(p).0) && Continues(CutSegment(p).1)
  {
    CutPastes(p);
  }

  /** PathRouter.Route accepts exactly the paths of this grammar, each in one way. */
  lemma RoutesIff(r: PathRouter, esc: string, rt: Route)
    ensures RoutePath(r, esc) == Some(rt) <==> exists rest :: Routed(r, esc, rest, rt)
  {
    hide RoutePath, Routed;
    if RoutePath(r, esc) == Some(rt) {
      var rest := RouteIsRouted(r, esc, rt);
    }
    if rest :| Routed(r, esc, rest, rt) {
      RoutedIsRouted(r, esc, rest, rt);
    }
  }

  // ---- prefixes and escapes

  predicate OnlySlashes(s: string) {
    forall i :: 0 <= i < |s| ==> s[i] == '/'
  }

  lemma {:induction false} TrimLeftSplits(s: string) returns (a: string)
    ensures OnlySlashes(a) && s == a + TrimLeft(s) && (TrimLeft(s) == "" || TrimLeft(s)[0] != '/')
  {
    if s != "" && s[0] == '/' {
      var b := TrimLeftSplits(s[1..]);
      a := "/" + b;
    } else {
      a := "";
    }
  }

  lemma {:induction false} TrimRightSplits(s: string) returns (b: string)
    ensures OnlySlashes(b) && s == TrimRight(s) + b && (TrimRight(s) == "" || TrimRight(s)[|TrimRight(s)| - 1] != '/')
    ensures TrimRight(s) <= s
  {
    if s != "" && s[|s| - 1] == '/' {
      var c := TrimRightSplits(s[..|s| - 1]);
      b := c + "/";
    } else {
      b := "";
    }
  }

  /** The routing prefix is the configured one with one slash in front and none behind; "/s" by default. */
  lemma PrefixIsTrimmed(r: PathRouter) returns (a: string, core: string, b: string)
    ensures r.prefix == "" ==> Prefix(r) == "/s"
    ensures r.prefix != "" ==>
              && r.prefix == a + core + b && OnlySlashes(a) && OnlySlashes(b) && Prefix(r) == "/" + core
              && (core == "" || (core[0] != '/' && core[|core| - 1] != '/'))
  {
    a := TrimLeftSplits(r.prefix);
    b := TrimRightSplits(TrimLeft(r.prefix));
    core := TrimRight(TrimLeft(r.prefix));
    assert a + (core + b) == a + core + b;
  }

  function HexDigit(d: nat): char
    requires d < 16
  {
    if d < 10 then '0' + d as char else 'A' + (d - 10) as char
  }

  /** A byte string with some bytes percent-escaped: the per cent sign, and whatever is not in `plain`. */
  function Escaped(s: string, plain: set<char>): string
    requires forall i :: 0 <= i < |s| ==> s[i] as int < 256
  {
    if s == "" then ""
    else if s[0] in plain && s[0] != '%' then [s[0]] + Escaped(s[1..], plain)
    else ['%', HexDigit(s[0] as int / 16), HexDigit(s[0] as int % 16)] + Escaped(s[1..], plain)
  }

  /** Unescaping undoes the escaping of any byte string, whichever bytes were escaped. */
  lemma {:induction false} UnescapeUndoes(s: string, plain: set<char>)
    requires forall i :: 0 <= i < |s| ==> s[i] as int < 256
    ensures PathUnescape(Escaped(s, plain)) == Some(s)
  {
    if s != "" {
      UnescapeUndoes(s[1..], plain);
      var e, rest := Escaped(s, plain), Escaped(s[1..], plain);
      assert s == [s[0]] + s[1..];
      if s[0] in plain && s[0] != '%' {
        assert e[1..] == rest;
      } else {
        var v := s[0] as int;
        assert e[3..] == rest;
        HexRoundTrips(v / 16);
        HexRoundTrips(v % 16);
        assert e[1] == HexDigit(v / 16) && e[2] == HexDigit(v % 16) && 16 * (v / 16) + v % 16 == v;
      }
    }
  }

  lemma HexRoundTrips(d: nat)
    requires d < 16
    ensures IsHex(HexDigit(d)) && HexValue(HexDigit(d)) == d
  {
  }

  /** A per cent sign without two hexadecimal digits after it is refused. */
  lemma {:induction false} MalformedIsRefused(front: string, back: string)
    requires Lacks(front, '%') && (|back| < 2 || !IsHex(back[0]) || !IsHex(back[1]))
    ensures PathUnescape(front + "%" + back).None?
  {
    var s := front + "%" + back;
    if front == "" {
      assert s == ['%'] + back;
    } else {
      assert s[0] == front[0] && s[1..] == front[1..] + "%" + back;
      MalformedIsRefused(front[1..], back);
    }
  }

  /** A rendered port URL comes back to that port of that sandbox. */
  lemma PortRoutesBack(r: PathRouter, id: string, port: int)
    requires SingleSegment(id) && ValidPort(port)
    ensures var path := PortURL(r, id, port)[|Origin(r)|..];
            var rt := RoutePath(r, path);
            && rt.Some? && rt.value.sandboxId == id
            && rt.value.port == port && rt.value.userPort && rt.value.rawRest == "/"
  {
    hide Prefix, Text, Atoi, RoutePath, CutSegment, PathUnescape, SingleSegment;
    var after := "/" + Text(port) + "/";
    var rest := "/" + PORT_SEGMENT + after;
    assert PortURL(r, id, port) == EndpointURL(r, id) + rest;
    assert |Origin(r)| <= |EndpointURL(r, id)|;
    assert PortURL(r, id, port)[|Origin(r)|..] == EndpointURL(r, id)[|Origin(r)|..] + rest;
    EndpointPath(r, id, rest);
    CutOfJoined(PORT_SEGMENT, after);
    TextIsPlain(port);
    CutOfJoined(Text(port), "/");
    AtoiOfText(port);
    SlashUnescapes();
  }

  lemma SlashUnescapes()
    ensures PathUnescape("/") == Some("/")
  {
    assert "/"[1..] == "";
    assert ['/'] + "" == "/";
  }

  /** The decimal text of a port is digits only. */
  lemma TextIsPlain(port: int)
    requires ValidPort(port)
    ensures Text(port) != "" && AllDigits(Text(port))
    ensures Lacks(Text(port), '/') && Lacks(Text(port), '-') && Lacks(Text(port), '.') && Lacks(Text(port), ':')
    ensures Lower(Text(port)) == Text(port)
  {
    hide Digits, Value;
    ValueOfDigits(port);
    LowerKeeps(Text(port));
  }

  // --------------------------------------------------------------- host routing

  datatype HostRouter = HostRouter(suffix: string, scheme: string)

  function LowerChar(c: char): char {
    if 'A' <= c <= 'Z' then (c as int + 32) as char else c
  }

  /** strings.ToLower on ASCII. */
  function Lower(s: string): string {
    seq(|s|, i requires 0 <= i < |s| => LowerChar(s[i]))
  }

  predicate IsUpper(c: char) {
    'A' <= c <= 'Z'
  }

  lemma LowerKeeps(s: string)
    ensures (forall i :: 0 <= i < |s| ==> !IsUpper(s[i])) ==> Lower(s) == s
  {
  }

  function TrimPrefixDot(s: string): string {
    if s != "" && s[0] == '.' then s[1..] else s
  }

  function TrimSuffixDot(s: string): string {
    if s != "" && s[|s| - 1] == '.' then s[..|s| - 1] else s
  }

  predicate HasSuffix(s: string, t: string) {
    |t| <= |s| && s[|s| - |t|..] == t
  }

  function EndpointHost(h: HostRouter, id: string): string {
    id + "." + TrimPrefixDot(h.suffix)
  }

  function PortHost(h: HostRouter, id: string, port: int): string {
    id + "-" + Text(port) + "." + TrimPrefixDot(h.suffix)
  }

  /** Whether a sandbox is known; without a resolver every reading is taken at face value. */
  predicate Known(known: Option<set<string>>, id: string) {
    known.None? || id in known.value
  }

  function HostRoute(id: string, port: int, userPort: bool): Route {
    Route(id, port, userPort, "", "", "")
  }

  /** The single label in front of the suffix. */
  function LabelOf(host: string, suffix: string): Option<string> {
    var bare := Lower(TrimSuffixDot(host[..IndexByte(host, ':')]));
    var dotted := "." + Lower(TrimPrefixDot(suffix));
    if !HasSuffix(bare, dotted) then None
    else
      var front := bare[..|bare| - |dotted|];
      if front == "" || !Lacks(front, '.') then None else Some(front)
  }

  /** Which sandbox a label names: a port of one, if it reads so and that one exists, else itself. */
  function RouteLabel(front: string, known: Option<set<string>>): Option<Route> {
    var i := LastIndexByte(front, '-');
    var port := if i > 0 then Atoi(front[i + 1..]) else None;
    if i > 0 && port.Some? && ValidPort(port.value) && Known(known, front[..i])
    then Some(HostRoute(front[..i], port.value, true))
    else if Known(known, front) then Some(HostRoute(front, DATA_PLANE_PORT, false))
    else None
  }

  function ParseHost(host: string, suffix: string, known: Option<set<string>>): Option<Route> {
    var front := LabelOf(host, suffix);
    if front.None? then None else RouteLabel(front.value, known)
  }

  /** It leads to a sandbox that exists, by one label, on the data plane or on a valid port it opened. */
  ghost predicate HostRouteIsSound(rt: Route, known: Option<set<string>>) {
    && Known(known, rt.sandboxId) && rt.sandboxId != "" && Lacks(rt.sandboxId, '.')
    && (if rt.userPort then ValidPort(rt.port) else rt.port == DATA_PLANE_PORT)
  }

  /** ParseHost. */
  method ReadHost(hostport: string, domain: string, known: Option<set<string>>) returns (out: Option<Route>)
    ensures out == ParseHost(hostport, domain, known)
    ensures out.Some? ==> HostRouteIsSound(out.value, known)
  {
    hide Atoi, Lower, TrimSuffixDot, TrimPrefixDot, IndexByte, LastIndexByte;
    var host := Lower(TrimSuffixDot(hostport[..IndexByte(hostport, ':')]));
    var suffix := Lower(TrimPrefixDot(domain));
    if !HasSuffix(host, "." + suffix) {
      return None;
    }
    var front := host[..|host| - |"." + suffix|];
    if front == "" || IndexByte(front, '.') < |front| {
      return None;
    }
    var i := LastIndexByte(front, '-');
    if i > 0 {
      var port := Atoi(front[i + 1..]);
      if port.Some? && port.value > 0 && port.value < 65536 {
        var id := front[..i];
        if known.None? || id in known.value {
          return Some(HostRoute(id, port.value, true));
        }
      }
    }
    if known.Some? && front !in known.value {
      return None;
    }
    return Some(HostRoute(front, DATA_PLANE_PORT, false));
  }

  // ---- what a hostname may be written like

  lemma LowerKeepsIndex(s: string, c: char)
    requires c == ':' || c == '.'
    ensures IndexByte(Lower(s), c) == IndexByte(s, c)
  {
    hide IndexByte;
    assert forall i :: 0 <= i < |s| ==> (Lower(s)[i] == c <==> s[i] == c);
  }

  lemma LowerOfLower(s: string)
    ensures Lower(Lower(s)) == Lower(s)
  {
  }

  lemma BareOfLower(h: string)
    ensures Lower(TrimSuffixDot(Lower(h)[..IndexByte(Lower(h), ':')])) == Lower(TrimSuffixDot(h[..IndexByte(h, ':')]))
  {
    LowerKeepsIndex(h, ':');
    var k := IndexByte(h, ':');
    hide IndexByte;
    assert Lower(h)[..k] == Lower(h[..k]);
    var g := h[..k];
    assert g != "" ==> (Lower(g)[|g| - 1] == '.' <==> g[|g| - 1] == '.');
    assert TrimSuffixDot(Lower(g)) == Lower(TrimSuffixDot(g));
    LowerOfLower(TrimSuffixDot(g));
  }

  /** The two differ in the case of letters at most. */
  predicate SameButCase(a: string, b: string) {
    |a| == |b| && forall i :: 0 <= i < |a| ==>
      || a[i] == b[i]
      || ('A' <= a[i] <= 'Z' && b[i] as int == a[i] as int + 32)
      || ('A' <= b[i] <= 'Z' && a[i] as int == b[i] as int + 32)
  }

  lemma CaseFolds(a: string, b: string)
    requires SameButCase(a, b)
    ensures Lower(a) == Lower(b)
  {
  }

  lemma LowerIsIdle(h: string, suffix: string, known: Option<set<string>>)
    ensures ParseHost(Lower(h), Lower(suffix), known) == ParseHost(h, suffix, known)
  {
    BareOfLower(h);
    LowerOfLower(TrimPrefixDot(suffix));
    assert TrimPrefixDot(Lower(suffix)) == Lower(TrimPrefixDot(suffix));
    hide RouteLabel, HasSuffix, IndexByte, TrimSuffixDot, Lower;
  }

  /** Neither the case of the header nor that of the configured domain matters. */
  lemma CaseIsIgnored(h: string, g: string, suffix: string, domain: string, known: Option<set<string>>)
    requires SameButCase(h, g) && SameButCase(suffix, domain)
    ensures ParseHost(h, suffix, known) == ParseHost(g, domain, known)
  {
    CaseFolds(h, g);
    CaseFolds(suffix, domain);
    hide ParseHost, Lower;
    LowerIsIdle(h, suffix, known);
    LowerIsIdle(g, domain, known);
  }

  /** Nor does a dot in front of the configured domain. */
  lemma LeadingDotIsIgnored(h: string, suffix: string, known: Option<set<string>>)
    requires suffix == "" || suffix[0] != '.'
    ensures ParseHost(h, "." + suffix, known) == ParseHost(h, suffix, known)
  {
    assert ("." + suffix)[1..] == suffix;
    hide RouteLabel, HasSuffix, IndexByte, TrimSuffixDot, Lower;
  }

  /** The name in a header without its port and its last dot. */
  function Bare(host: string): string {
    TrimSuffixDot(host[..IndexByte(host, ':')])
  }

  lemma SameBareSameRoute(h: string, g: string, suffix: string, known: Option<set<string>>)
    requires Bare(h) == Bare(g)
    ensures ParseHost(h, suffix, known) == ParseHost(g, suffix, known)
  {
    hide RouteLabel, HasSuffix, IndexByte, Lower, TrimSuffixDot, TrimPrefixDot;
  }

  lemma BareOfPort(h: string, x: string)
    requires Lacks(h, ':')
    ensures Bare(h + ":" + x) == Bare(h)
  {
    FirstAt(h, ':', x);
    AbsentAt(h, ':');
    hide IndexByte, TrimSuffixDot;
    assert (h + ":" + x)[..|h|] == h && h[..|h|] == h;
  }

  lemma BareOfDot(h: string)
    requires Lacks(h, ':') && (h == "" || h[|h| - 1] != '.')
    ensures Bare(h + ".") == Bare(h)
  {
    AbsentAt(h, ':');
    AbsentAt(h + ".", ':');
    hide IndexByte;
    assert h[..|h|] == h && (h + ".")[..|h + "."|] == h + "." && (h + ".")[..|h|] == h;
  }

  /** A port in the header and a dot at the end of its name do not matter either. */
  lemma PortAndDotAreIgnored(h: string, x: string, suffix: string, known: Option<set<string>>)
    requires Lacks(h, ':')
    ensures ParseHost(h + ":" + x, suffix, known) == ParseHost(h, suffix, known)
    ensures h == "" || h[|h| - 1] != '.' ==> ParseHost(h + ".", suffix, known) == ParseHost(h, suffix, known)
  {
    hide ParseHost, Bare;
    BareOfPort(h, x);
    SameBareSameRoute(h + ":" + x, h, suffix, known);
    if h == "" || h[|h| - 1] != '.' {
      BareOfDot(h);
      SameBareSameRoute(h + ".", h, suffix, known);
    }
  }

  /** A sandbox id that is fit to be a host label. */
  ghost predicate HostLabel(s: string) {
    s != "" && Lacks(s, '.') && Lacks(s, ':') && forall i :: 0 <= i < |s| ==> !IsUpper(s[i])
  }

  /** A domain that can follow a label: not empty, no port in it, no trailing dot. */
  ghost predicate DomainOk(suffix: string) {
    var s := TrimPrefixDot(suffix);
    s != "" && Lacks(s, ':') && s[|s| - 1] != '.'
  }

  lemma NotASuffix(s: string, t: string, k: nat)
    requires k < |t| && (|t| <= |s| ==> s[|s| - |t| + k] != t[k])
    ensures !HasSuffix(s, t)
  {
  }

  lemma ProperDomain(front: string, s: string)
    requires HostLabel(front) && s != "" && Lacks(s, ':') && s[|s| - 1] != '.'
    ensures var host := front + "." + s;
            Lower(TrimSuffixDot(host[..IndexByte(host, ':')])) == front + ("." + Lower(s))
  {
  }

  /** Cut at the colon, the host no longer ends in a suffix that has one. */
  lemma DomainWithColon(front: string, s: string)
    requires HostLabel(front) && !Lacks(s, ':')
    ensures var host := front + "." + s;
            !HasSuffix(Lower(TrimSuffixDot(host[..IndexByte(host, ':')])), "." + Lower(s))
  {
    var host := front + "." + s;
    var cut := host[..IndexByte(host, ':')];
    var bare := Lower(TrimSuffixDot(cut));
    assert forall j :: 0 <= j < |bare| ==> bare[j] == LowerChar(cut[j]) && cut[j] == host[j] && host[j] != ':';
    var k :| 0 <= k < |s| && s[k] == ':';
    var dotted := "." + Lower(s);
    assert dotted[k + 1] == ':';
    NotASuffix(bare, dotted, k + 1);
  }

  /** Without its last dot, the host is one short of a suffix that ends in one. */
  lemma DomainWithTrailingDot(front: string, s: string)
    requires HostLabel(front) && Lacks(s, ':') && (s == "" || s[|s| - 1] == '.')
    ensures var host := front + "." + s;
            !HasSuffix(Lower(TrimSuffixDot(host[..IndexByte(host, ':')])), "." + Lower(s))
  {
    var host := front + "." + s;
    AbsentAt(host, ':');
    assert host[..|host|] == host;
    assert host[|host| - 1] == '.';
    var bare := Lower(TrimSuffixDot(host));
    var dotted := "." + Lower(s);
    assert |bare| - |dotted| == |front| - 1;
    assert bare[|front| - 1] == LowerChar(front[|front| - 1]) && front[|front| - 1] != '.';
    NotASuffix(bare, dotted, 0);
  }

  /** The label of a rendered hostname is found again exactly when the configured domain is a domain. */
  lemma LabelComesBack(suffix: string, front: string)
    requires HostLabel(front)
    ensures LabelOf(front + "." + TrimPrefixDot(suffix), suffix)
         == if DomainOk(suffix) then Some(front) else None
  {
    hide Lower, IndexByte, TrimSuffixDot, TrimPrefixDot;
    var s := TrimPrefixDot(suffix);
    if DomainOk(suffix) {
      ProperDomain(front, s);
      var dotted := "." + Lower(s);
      assert (front + dotted)[|front|..] == dotted && (front + dotted)[..|front|] == front;
    } else if Lacks(s, ':') {
      DomainWithTrailingDot(front, s);
    } else {
      DomainWithColon(front, s);
    }
  }

  /** A rendered port hostname comes back to that sandbox and port, given a proper domain. */
  lemma PortHostRoutesBack(h: HostRouter, id: string, port: int, known: Option<set<string>>)
    requires HostLabel(id) && ValidPort(port) && Known(known, id)
    ensures ParseHost(PortHost(h, id, port), h.suffix, known)
         == if DomainOk(h.suffix) then Some(HostRoute(id, port, true)) else None
  {
    hide Text, Atoi, LabelOf, DomainOk;
    var t := Text(port);
    TextIsPlain(port);
    var front := id + "-" + t;
    assert HostLabel(front) by {
      forall i | 0 <= i < |t|
        ensures !IsUpper(t[i])
      {
        assert IsDigit(t[i]);
      }
    }
    assert PortHost(h, id, port) == front + "." + TrimPrefixDot(h.suffix);
    LabelComesBack(h.suffix, front);
    assert front == id + ['-'] + t;
    LastAt(id, '-', t);
    assert front[|id| + 1..] == t && front[..|id|] == id;
    AtoiOfText(port);
  }

  /** The id could as well be read as a port of another existing sandbox. */
  ghost predicate SplitsAsPort(id: string, known: Option<set<string>>) {
    exists x, t :: SplitsAt(id, x, t) && Known(known, x)
  }

  ghost predicate SplitsAt(id: string, x: string, t: string) {
    id == x + "-" + t && x != "" && Atoi(t).Some? && ValidPort(Atoi(t).value)
  }

  /** The text of a valid port has no hyphen. */
  lemma PortTextHasNoHyphen(t: string)
    requires Atoi(t).Some? && ValidPort(Atoi(t).value)
    ensures Lacks(t, '-')
  {
  }

  /**
  A rendered endpoint hostname comes back to the data plane of its sandbox exactly when the domain
  is proper and the id does not split as an existing id, a hyphen and a valid port.
  */
  lemma EndpointHostRoutesBack(h: HostRouter, id: string, known: Option<set<string>>)
    requires HostLabel(id) && Known(known, id)
    ensures ParseHost(EndpointHost(h, id), h.suffix, known) == Some(HostRoute(id, DATA_PLANE_PORT, false))
       <==> DomainOk(h.suffix) && !SplitsAsPort(id, known)
  {
    hide Atoi, LabelOf, DomainOk;
    LabelComesBack(h.suffix, id);
    var i := LastIndexByte(id, '-');
    if i > 0 {
      assert id == id[..i] + "-" + id[i + 1..];
      if Atoi(id[i + 1..]).Some? && ValidPort(Atoi(id[i + 1..]).value) && Known(known, id[..i]) {
        assert SplitsAt(id, id[..i], id[i + 1..]);
      }
    }
    forall x, t | SplitsAt(id, x, t) && Known(known, x)
      ensures i == |x| && id[..i] == x && id[i + 1..] == t
    {
      PortTextHasNoHyphen(t);
      assert id == x + ['-'] + t;
      LastAt(x, '-', t);
    }
  }
}
