/** Whose address a request counts for (bff/ratelimit.go) and which address the proxy tells
    Socrate (bff/attribution.go).  net.SplitHostPort, net.ParseIP and IP.IsLoopback are
    parameters; all that is assumed of them is that an IP address has no comma and no space. */
module ClientAddress {
  import opened Options
  import opened RateLimiter
  import opened RateTraces
  import JsStrings

  const XFF := "X-Forwarded-For"

  datatype Net = Net(splitHost: string -> Option<string>, isIP: string -> bool, isLoopback: string -> bool)

  // ---- strings ----------------------------------------------------------------------------

  /** unicode.IsSpace: unlike JavaScript's trim it takes U+0085 for a space, and not U+FEFF. */
  predicate IsGoSpace(c: char) {
    || '\t' <= c <= '\r' || c == ' ' || c == '\U{85}' || c == '\U{A0}'
    || c == '\U{1680}' || '\U{2000}' <= c <= '\U{200A}'
    || c == '\U{2028}' || c == '\U{2029}' || c == '\U{202F}' || c == '\U{205F}' || c == '\U{3000}'
  }

  /** The two tables of white space differ in exactly those two characters. */
  lemma GoAndJavaScriptSpaces(c: char)
    ensures IsGoSpace(c) != JsStrings.IsSpace(c) <==> c == '\U{85}' || c == '\U{FEFF}'
  {
  }

  function TrimLeft(s: string): (t: string)
    ensures |t| <= |s|
    ensures t == s <==> s == "" || !IsGoSpace(s[0])
  {
    if s != "" && IsGoSpace(s[0]) then TrimLeft(s[1..]) else s
  }

  function TrimRight(s: string): (t: string)
    ensures |t| <= |s|
    ensures t == s <==> s == "" || !IsGoSpace(s[|s| - 1])
  {
    if s != "" && IsGoSpace(s[|s| - 1]) then TrimRight(s[..|s| - 1]) else s
  }

  /** strings.TrimSpace */
  function Trim(s: string): (t: string)
    ensures |t| <= |s|
  {
    TrimRight(TrimLeft(s))
  }

  /** Everything before the first comma. */
  function BeforeComma(s: string): (t: string)
    ensures t <= s && ',' !in t && (|t| < |s| ==> s[|t|] == ',')
  {
    if s == "" || s[0] == ',' then "" else [s[0]] + BeforeComma(s[1..])
  }

  /** The address a server reads that trusts the leftmost X-Forwarded-For entry. */
  function Leftmost(header: string): string {
    Trim(BeforeComma(header))
  }

  predicate IsClean(address: string) {
    ',' !in address && Trim(address) == address
  }

  ghost predicate IPsAreClean(net: Net) {
    && (forall s | net.isIP(s) :: ',' !in s && forall c | c in s :: !IsGoSpace(c))
    && (forall s | net.isLoopback(s) :: net.isIP(s))
  }

  // ---- clientIP ---------------------------------------------------------------------------

  function Host(net: Net, remoteAddr: string): string {
    var h := net.splitHost(remoteAddr);
    if h.Some? then h.value else remoteAddr
  }

  function ClientIP(net: Net, remoteAddr: string, forwarded: string): string {
    var host := Host(net, remoteAddr);
    var first := Leftmost(forwarded);
    if net.isLoopback(host) && forwarded != "" && first != "" && net.isIP(first) then first else host
  }

  /** The TCP peer's address: the host part, or all of it when there is no port. */
  predicate IsPeer(net: Net, remoteAddr: string, host: string) {
    match net.splitHost(remoteAddr)
    case Some(h) => host == h
    case None => host == remoteAddr
  }

  lemma TrimOfNoSpaces(s: string)
    requires forall c | c in s :: !IsGoSpace(c)
    ensures Trim(s) == s
  {
  }

  lemma CleanIP(net: Net, s: string)
    requires IPsAreClean(net) && net.isIP(s)
    ensures IsClean(s)
  {
    TrimOfNoSpaces(s);
  }

  // ---- the proxied request ----------------------------------------------------------------

  function FirstOf(values: seq<string>): string {
    if values == [] then "" else values[0]
  }

  function JoinComma(values: seq<string>): string {
    if values == [] then "" else if |values| == 1 then values[0] else values[0] + ", " + JoinComma(values[1..])
  }

  /** What ReverseProxy leaves in the header when it held values before. */
  function Appended(net: Net, remoteAddr: string, values: seq<string>): seq<string> {
    var peer := net.splitHost(remoteAddr);
    if peer.None? then values
    else [if values == [] then peer.value else JoinComma(values) + ", " + peer.value]
  }

  /** An http.Request on its way through withClientAttribution and attributedProxy. */
  class Request {
    const remoteAddr: string
    var headers: map<string, seq<string>>
    var attributed: Option<string>   // the request context

    constructor (remoteAddr: string, headers: map<string, seq<string>>)
      ensures this.remoteAddr == remoteAddr && this.headers == headers && attributed == None
    {
      this.remoteAddr := remoteAddr;
      this.headers := headers;
      attributed := None;
    }

    function Values(key: string): seq<string>
      reads this
    {
      if key in headers then headers[key] else []
    }

    function Get(key: string): string
      reads this
    {
      FirstOf(Values(key))
    }

    /** withClientAttribution: only a loopback peer can speak for another address. */
    method Attribute(net: Net)
      modifies this`attributed
      ensures attributed == Some(ClientIP(net, remoteAddr, old(Get(XFF))))
      ensures forall host | IsPeer(net, remoteAddr, host) && !net.isLoopback(host) :: attributed == Some(host)
    {
      var host := Host(net, remoteAddr);
      var client := host;
      if net.isLoopback(host) {
        var forwarded := Get(XFF);
        if forwarded != "" {
          var first := Leftmost(forwarded);
          if first != "" && net.isIP(first) {
            client := first;
          }
        }
      }
      attributed := Some(client);
    }

    /** attributedProxy's Director, after the one it wraps. */
    method Direct()
      modifies this`headers
      ensures Values(XFF) == if attributed.Some? then [attributed.value] else []
      ensures headers - {XFF} == old(headers) - {XFF}
    {
      headers := headers - {XFF};
      if attributed.Some? {
        headers := headers[XFF := [attributed.value]];
      }
    }

    /** ReverseProxy, which appends the BFF's own peer. */
    method Forward(net: Net)
      modifies this`headers
      ensures Values(XFF) == Appended(net, remoteAddr, old(Values(XFF)))
      ensures headers - {XFF} == old(headers) - {XFF}
    {
      var peer := net.splitHost(remoteAddr);
      if peer.Some? {
        var prior := Values(XFF);
        headers := headers[XFF := [if prior == [] then peer.value else JoinComma(prior) + ", " + peer.value]];
      }
    }

    /** The whole way: what Socrate receives is one header that begins with the client. */
    method Proxy(net: Net)
      modifies this
      ensures Values(XFF) == [Outgoing(net, remoteAddr, old(Get(XFF)))]
    {
      Attribute(net);
      Direct();
      Forward(net);
    }
  }

  /** The X-Forwarded-For value Socrate receives. */
  function Outgoing(net: Net, remoteAddr: string, forwarded: string): string {
    var client := ClientIP(net, remoteAddr, forwarded);
    var peer := net.splitHost(remoteAddr);
    if peer.None? then client else client + ", " + peer.value
  }

  // ---- agreement --------------------------------------------------------------------------

  lemma {:induction false} BeforeFirstComma(s: string, rest: string)
    requires ',' !in s && (rest == "" || rest[0] == ',')
    ensures BeforeComma(s + rest) == s
  {
    if s != "" {
      assert (s + rest)[1..] == s[1..] + rest;
      BeforeFirstComma(s[1..], rest);
    } else {
      assert s + rest == rest;
    }
  }

  lemma {:induction false} CommaCuts(s: string, rest: string)
    requires ',' in s
    ensures |BeforeComma(s + rest)| < |s|
  {
    if s[0] != ',' {
      assert (s + rest)[1..] == s[1..] + rest;
      CommaCuts(s[1..], rest);
    }
  }

  lemma {:induction false} TrimLeftIs(s: string)
    ensures var t := TrimLeft(s); t == s[|s| - |t|..] && (t == "" || !IsGoSpace(t[0]))
  {
    if s != "" && IsGoSpace(s[0]) { TrimLeftIs(s[1..]); }
  }

  lemma {:induction false} TrimRightIs(s: string)
    ensures var t := TrimRight(s); t == s[..|t|] && (t == "" || !IsGoSpace(t[|t| - 1]))
  {
    if s != "" && IsGoSpace(s[|s| - 1]) { TrimRightIs(s[..|s| - 1]); }
  }

  /** What is read from a header never has a comma or an outer space. */
  lemma LeftmostIsClean(header: string)
    ensures IsClean(Leftmost(header))
  {
    var field := BeforeComma(header);
    TrimLeftIs(field);
    TrimRightIs(TrimLeft(field));
    var t := Leftmost(header);
    assert forall i | 0 <= i < |t| :: t[i] in field;
    assert TrimLeft(t) == t && TrimRight(t) == t;
  }

  predicate IsPadding(pad: string) {
    forall c | c in pad :: IsGoSpace(c)
  }

  predicate IsTrimmed(s: string) {
    s != "" ==> !IsGoSpace(s[0]) && !IsGoSpace(s[|s| - 1])
  }

  predicate StandsFirst(header: string, pad: string, entry: string, end: string, rest: string) {
    && header == pad + entry + end + rest && IsPadding(pad) && IsPadding(end) && (rest == "" || rest[0] == ',')
    && ',' !in entry && IsTrimmed(entry)
  }

  /** entry stands in front of the first comma of the header, between white space. */
  ghost predicate IsFirstEntry(header: string, entry: string) {
    exists pad, end, rest :: StandsFirst(header, pad, entry, end, rest)
  }

  lemma {:induction false} TrimPadded(pad: string, s: string, end: string)
    requires IsPadding(pad) && IsPadding(end) && IsTrimmed(s)
    ensures Trim(pad + s + end) == s
  {
    var all := pad + s + end;
    if pad == "" {
      assert all == s + end;
      if s == "" {
        assert all == end;
        TrimPadding(end);
      } else {
        assert TrimLeft(all) == all;
        TrimEnd(s, end);
      }
    } else {
      assert all[1..] == pad[1..] + s + end;
      TrimPadded(pad[1..], s, end);
    }
  }

  lemma {:induction false} TrimPadding(pad: string)
    requires IsPadding(pad)
    ensures TrimLeft(pad) == ""
  {
    if pad != "" { TrimPadding(pad[1..]); }
  }

  lemma {:induction false} TrimEnd(s: string, end: string)
    requires IsPadding(end) && IsTrimmed(s)
    ensures TrimRight(s + end) == s
  {
    if end == "" {
      assert s + end == s;
    } else {
      var last := |end| - 1;
      assert (s + end)[..|s + end| - 1] == s + end[..last];
      TrimEnd(s, end[..last]);
    }
  }

  lemma BeforeCommaSplits(header: string, field: string) returns (rest: string)
    requires field == BeforeComma(header)
    ensures header == field + rest && ',' !in field && (rest == "" || rest[0] == ',')
  {
    rest := header[|field|..];
  }

  lemma LeftmostStandsFirst(header: string)
    ensures IsFirstEntry(header, Leftmost(header))
  {
    var field := BeforeComma(header);
    var tail := TrimLeft(field);
    var rest := BeforeCommaSplits(header, field);
    var pad := TrimmedLeft(field);
    var end := TrimmedRight(tail);
    TrimLeftIs(field);
    TrimRightIs(tail);
    Assembles(pad, tail, TrimRight(tail), end, rest);
  }

  lemma Assembles(pad: string, tail: string, entry: string, end: string, rest: string)
    requires tail == entry + end && ',' !in tail && (tail == "" || !IsGoSpace(tail[0]))
    requires entry == "" || !IsGoSpace(entry[|entry| - 1])
    requires IsPadding(pad) && IsPadding(end) && (rest == "" || rest[0] == ',')
    ensures IsFirstEntry(pad + tail + rest, entry)
  {
    assert pad + tail + rest == pad + entry + end + rest;
    assert StandsFirst(pad + tail + rest, pad, entry, end, rest);
  }

  /** Every header has exactly one first entry. */
  lemma LeftmostIsTheFirstEntry(header: string, entry: string)
    ensures IsFirstEntry(header, entry) <==> entry == Leftmost(header)
  {
    if IsFirstEntry(header, entry) {
      var pad, end, rest :| StandsFirst(header, pad, entry, end, rest);
      BeforeFirstComma(pad + entry + end, rest);
      TrimPadded(pad, entry, end);
    }
    LeftmostStandsFirst(header);
  }

  lemma {:induction false} TrimmedLeft(s: string) returns (pad: string)
    ensures IsPadding(pad) && s == pad + TrimLeft(s)
  {
    pad := "";
    if s != "" && IsGoSpace(s[0]) {
      var inner := TrimmedLeft(s[1..]);
      pad := [s[0]] + inner;
    }
  }

  lemma {:induction false} TrimmedRight(s: string) returns (pad: string)
    ensures IsPadding(pad) && s == TrimRight(s) + pad
  {
    pad := "";
    if s != "" && IsGoSpace(s[|s| - 1]) {
      var inner := TrimmedRight(s[..|s| - 1]);
      pad := inner + [s[|s| - 1]];
    }
  }

  /** Whose address a request counts for: for every peer, with a port or without, and every
      header, the first entry when the peer is loopback and that entry is an address, and the peer's
      own in every other case. */
  lemma ClientIsTheEntryOrThePeer(net: Net, remoteAddr: string, host: string, forwarded: string, entry: string)
    requires IsPeer(net, remoteAddr, host) && IsFirstEntry(forwarded, entry)
    ensures ClientIP(net, remoteAddr, forwarded) ==
            if net.isLoopback(host) && entry != "" && net.isIP(entry) then entry else host
  {
    LeftmostIsTheFirstEntry(forwarded, entry);
  }

  /** The peer is loopback and the header's first entry is an address. */
  predicate UsesEntry(net: Net, host: string, forwarded: string) {
    net.isLoopback(host) && Leftmost(forwarded) != "" && net.isIP(Leftmost(forwarded))
  }

  /** For every inbound header and peer, Socrate reads back exactly the address clientIP
      resolved, if and only if that came from the header or the peer's host has no comma and no
      outer space. */
  lemma SocrateReadsTheClient(net: Net, remoteAddr: string, host: string, forwarded: string)
    requires IsPeer(net, remoteAddr, host)
    ensures Leftmost(Outgoing(net, remoteAddr, forwarded)) == ClientIP(net, remoteAddr, forwarded)
            <==> UsesEntry(net, host, forwarded) || IsClean(host)
  {
    var client := ClientIP(net, remoteAddr, forwarded);
    LeftmostIsClean(forwarded);
    assert client == if UsesEntry(net, host, forwarded) then Leftmost(forwarded) else host;
    ReadBackIfClean(client, Outgoing(net, remoteAddr, forwarded)[|client|..]);
    assert Outgoing(net, remoteAddr, forwarded) == client + Outgoing(net, remoteAddr, forwarded)[|client|..];
  }

  lemma ReadBackIfClean(client: string, rest: string)
    requires rest == "" || rest[0] == ','
    ensures Leftmost(client + rest) == client <==> IsClean(client)
  {
    if ',' in client {
      CommaCuts(client, rest);
    } else {
      BeforeFirstComma(client, rest);
    }
  }

  /** A peer address with a comma, which only a transport without ports can bring, is cut. */
  lemma CommaInThePeerIsCut(net: Net, remoteAddr: string)
    requires remoteAddr == "a,b" && net.splitHost(remoteAddr).None? && !net.isLoopback(remoteAddr)
    ensures ClientIP(net, remoteAddr, "") == "a,b" && Leftmost(Outgoing(net, remoteAddr, "")) == "a"
  {
    assert "a,b" == "a" + ",b";
    BeforeFirstComma("a", ",b");
    assert Outgoing(net, remoteAddr, "") == "a" + ",b";
    TrimOfNoSpaces("a");
  }

  /** So it always does when the peer is an IP address, whatever headers came in. */
  lemma SocrateReadsTheClientOfAnIPPeer(net: Net, remoteAddr: string, host: string, forwarded: string)
    requires IPsAreClean(net) && IsPeer(net, remoteAddr, host) && net.isIP(host)
    ensures Leftmost(Outgoing(net, remoteAddr, forwarded)) == ClientIP(net, remoteAddr, forwarded)
    ensures net.isIP(ClientIP(net, remoteAddr, forwarded))
  {
    SocrateReadsTheClient(net, remoteAddr, host, forwarded);
    CleanIP(net, ClientIP(net, remoteAddr, forwarded));
  }

  /** Behind the local proxy every browser counts for itself: the first entry of the header it
      writes is the client, whatever follows and however it is padded on either side. */
  lemma LoopbackClientIsTheFirstEntry(net: Net, remoteAddr: string, host: string, pad: string, client: string,
                                      end: string, rest: string)
    requires IsPeer(net, remoteAddr, host) && net.isLoopback(host)
    requires IPsAreClean(net) && net.isIP(client) && client != ""
    requires IsPadding(pad) && IsPadding(end) && (rest == "" || rest[0] == ',')
    ensures ClientIP(net, remoteAddr, pad + client + end + rest) == client
  {
    BeforeFirstComma(pad + client + end, rest);
    TrimPadded(pad, client, end);
  }

  // ---- the limiter cannot be dodged ---------------------------------------------------------

  datatype Hit = Http(remoteAddr: string, forwarded: string, at: int) | Tick(at: int)

  function ToEvent(net: Net, h: Hit): Event {
    match h
    case Http(addr, forwarded, at) => Event.Request(ClientIP(net, addr, forwarded), at)
    case Tick(at) => Sweep(at)
  }

  function ToTrace(net: Net, hits: seq<Hit>): (trace: seq<Event>)
    ensures |trace| == |hits| && forall i | 0 <= i < |hits| :: trace[i] == ToEvent(net, hits[i])
  {
    seq(|hits|, i requires 0 <= i < |hits| => ToEvent(net, hits[i]))
  }

  predicate IsFrom(net: Net, h: Hit, host: string, from: int, to: int) {
    h.Http? && IsPeer(net, h.remoteAddr, host) && from <= h.at < to
  }

  /** Requests on connections from host that the limiter admits in [from, to). */
  function PeerAdmissions(b: Budget, net: Net, hits: seq<Hit>, host: string, from: int, to: int): nat {
    if hits == [] then 0
    else
      var last := |hits| - 1;
      var h := hits[last];
      PeerAdmissions(b, net, hits[..last], host, from, to)
      + if IsFrom(net, h, host, from, to) && VerdictAt(b, ToTrace(net, hits), last).ok then 1 else 0
  }

  lemma {:induction false} PeerCountsAsItself(b: Budget, net: Net, hits: seq<Hit>, host: string, from: int, to: int)
    requires !net.isLoopback(host)
    ensures PeerAdmissions(b, net, hits, host, from, to) <= MapAdmissions(b, ToTrace(net, hits), host, from, to)
  {
    if hits != [] {
      var last := |hits| - 1;
      PeerCountsAsItself(b, net, hits[..last], host, from, to);
      assert ToTrace(net, hits)[..last] == ToTrace(net, hits[..last]);
    }
  }

  /** A peer that is not loopback gets at most 2*limit - 1 requests through per window, whatever
      ports its connections use, whatever X-Forwarded-For it sends on each of them and whatever
      anyone else does. */
  lemma HeadersCannotDodgeTheBudget(b: Budget, net: Net, hits: seq<Hit>, host: string, from: int)
    requires b.limit >= 1 && b.window > 0 && !net.isLoopback(host)
    requires forall i, j | 0 <= i < j < |hits| :: hits[i].at <= hits[j].at
    ensures PeerAdmissions(b, net, hits, host, from, from + b.window) <= 2 * b.limit - 1
  {
    var trace := ToTrace(net, hits);
    forall i, j | 0 <= i < j < |trace| ensures trace[i].at <= trace[j].at {
      assert hits[i].at <= hits[j].at;
    }
    PeerCountsAsItself(b, net, hits, host, from, from + b.window);
    SlidingWindowBound(b, trace, host, from, 1);
  }
}
