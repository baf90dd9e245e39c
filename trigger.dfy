/**
 * The HTTP-trigger header protocol.  Inbound, the caller's headers are
 * renamed into the function's synthetic namespace; outbound, the function's
 * synthetic headers are turned back into real ones when the response commits.
 */
module Trigger {
  import opened Base
  import opened Http
  import Decimal

  const HeaderPrefix := "Fn-Http-H-"
  const ContentType := "Content-Type"
  const CallIdHeader := "Fn-Call-Id"
  const StatusHeader := "Fn-Http-Status"
  const MethodHeader := "Fn-Http-Method"
  const RequestUrlHeader := "Fn-Http-Request-Url"
  const IntentHeader := "Fn-Intent"
  const IntentHttpRequest := "httprequest"

  // ---------------------------------------------------------------------------
  // Inbound: ServeHTTPTrigger
  // ---------------------------------------------------------------------------

  /** The caller's name of a synthetic key (the inverse of Prefixed). */
  function OriginalName(n: string): string {
    if n == ContentType || |n| < |HeaderPrefix| then n else n[|HeaderPrefix|..]
  }

  /** Every header but Content-Type is renamed Fn-Http-H-<name>. */
  function Prefixed(k: string): (n: string)
    ensures OriginalName(n) == k
    ensures n == ContentType || HeaderPrefix <= n
  {
    if k == ContentType then k
    else
      assert (HeaderPrefix + k)[|HeaderPrefix|..] == k;
      assert (HeaderPrefix + k)[0] != ContentType[0];
      HeaderPrefix + k
  }

  /** The header map ServeHTTPTrigger's loop builds from the request's headers. */
  function Transposed(h: Header): Header {
    map k | k in h :: Prefixed(k) := h[k]
  }

  /** The request headers left after the hop-by-hop names are removed. */
  function StripHop(h: Header, hop: set<string>): Header {
    map k | k in h && k !in hop :: h[k]
  }

  /**
   * The function's request headers: the transposed headers, then the method,
   * the URL and the fixed intent, each Set over any key of the same name.
   */
  function Inbound(h: Header, hop: set<string>, httpMethod: string, url: string): Header {
    Transposed(StripHop(h, hop))[MethodHeader := [httpMethod]][RequestUrlHeader := [url]][IntentHeader := [IntentHttpRequest]]
  }

  /** What Transposed holds, key by key: each header under its new name, and nothing else. */
  lemma TransposedAt(h: Header)
    ensures forall k :: k in h ==> Prefixed(k) in Transposed(h) && Transposed(h)[Prefixed(k)] == h[k]
    ensures forall n :: n in Transposed(h) ==> OriginalName(n) in h && Prefixed(OriginalName(n)) == n
  {
    forall n | n in Transposed(h)
      ensures OriginalName(n) in h && Prefixed(OriginalName(n)) == n
    {
      var o :| o in h && Prefixed(o) == n;
    }
  }

  /** The transposing loop of ServeHTTPTrigger, one header at a time. */
  method TransposeHeaders(h: Header) returns (headers: Header)
    ensures headers == Transposed(h)
  {
    headers := map[];
    var todo := h.Keys;
    while todo != {}
      invariant todo <= h.Keys
      invariant forall k :: k in h && k !in todo ==> Prefixed(k) in headers && headers[Prefixed(k)] == h[k]
      invariant forall n :: n in headers ==> OriginalName(n) in h && OriginalName(n) !in todo && Prefixed(OriginalName(n)) == n
      decreases todo
    {
      var k :| k in todo;
      var name := if k == ContentType then k else HeaderPrefix + k;
      assert name == Prefixed(k);
      headers := headers[name := h[k]];
      todo := todo - {k};
    }
    TransposedAt(h);
    assert headers.Keys == Transposed(h).Keys;
  }

  // ---------------------------------------------------------------------------
  // Outbound: triggerResponseWriter.WriteHeader
  // ---------------------------------------------------------------------------

  /** Whether a synthetic key survives the commit: Fn-Http-H-<non-empty>, Content-Type or Fn-Call-Id. */
  predicate Kept(k: string) {
    (HeaderPrefix <= k && |k| > |HeaderPrefix|) || k == ContentType || k == CallIdHeader
  }

  /** The real name a kept key is copied to. */
  function RealName(k: string): string {
    if HeaderPrefix <= k then k[|HeaderPrefix|..] else k
  }

  /** Synthetic key k is copied to real key n on commit. */
  predicate Feeds(k: string, n: string) {
    Kept(k) && n == RealName(k)
  }

  /** The keys of the committed header map. */
  function OutKeys(h: Header): set<string> {
    set k | k in h && Kept(k) :: RealName(k)
  }

  /**
   * Two synthetic keys feed the same real key: Content-Type and
   * Fn-Http-H-Content-Type, or Fn-Call-Id and Fn-Http-H-Fn-Call-Id.  Go's map
   * order then decides which value is kept.
   */
  predicate Clash(h: Header) {
    (ContentType in h && HeaderPrefix + ContentType in h) || (CallIdHeader in h && HeaderPrefix + CallIdHeader in h)
  }

  /** The committed header map when nothing clashes. */
  function Outbound(h: Header): Header {
    map n | n in OutKeys(h) :: if HeaderPrefix + n in h then h[HeaderPrefix + n] else if n in h then h[n] else []
  }

  /** g is a possible commit of h: exactly the kept keys, each with the values of a key that feeds it. */
  ghost predicate Rewritten(h: Header, g: Header) {
    && g.Keys == OutKeys(h)
    && forall n :: n in g ==> exists k :: k in h && Feeds(k, n) && g[n] == h[k]
  }

  /** The status the function asked for: the first Fn-Http-Status value if Atoi accepts it, else 0. */
  function UserStatus(h: Header): int {
    if StatusHeader in h && |h[StatusHeader]| > 0 && Decimal.Atoi(h[StatusHeader][0]).Some?
    then Decimal.Atoi(h[StatusHeader][0]).value
    else 0
  }

  /**
   * The committed status: a service status of 400 or more wins outright, then a
   * positive user status, then 200.
   */
  function FinalStatus(serviceStatus: int, userStatus: int): (r: int)
    ensures r > 0
    ensures serviceStatus >= 400 ==> r == serviceStatus
    ensures serviceStatus < 400 && userStatus > 0 ==> r == userStatus
    ensures serviceStatus < 400 && userStatus <= 0 ==> r == 200
    ensures r >= 400 <==> serviceStatus >= 400 || userStatus >= 400
  {
    if serviceStatus >= 400 then serviceStatus
    else if userStatus > 0 then userStatus
    else 200
  }

  /** None of the fixed names starts with the prefix, and the pass-through names differ. */
  lemma FixedNames()
    ensures !(HeaderPrefix <= ContentType) && !(HeaderPrefix <= CallIdHeader) && !(HeaderPrefix <= StatusHeader)
    ensures !(HeaderPrefix <= MethodHeader) && !(HeaderPrefix <= RequestUrlHeader) && !(HeaderPrefix <= IntentHeader)
    ensures ContentType != CallIdHeader && ContentType != StatusHeader && CallIdHeader != StatusHeader
  {
    assert ContentType[0] != HeaderPrefix[0];
    assert CallIdHeader[3] != HeaderPrefix[3];
    assert StatusHeader[8] != HeaderPrefix[8];
    assert MethodHeader[8] != HeaderPrefix[8];
    assert RequestUrlHeader[8] != HeaderPrefix[8];
    assert IntentHeader[3] != HeaderPrefix[3];
    assert ContentType[0] != CallIdHeader[0] && ContentType[0] != StatusHeader[0] && CallIdHeader[3] != StatusHeader[3];
  }

  lemma PrefixSplit(k: string)
    requires HeaderPrefix <= k
    ensures k == HeaderPrefix + k[|HeaderPrefix|..]
  {
  }

  /** Without a clash, every possible commit is the one Outbound describes. */
  lemma {:induction false} RewrittenIsOutbound(h: Header, g: Header)
    requires Rewritten(h, g) && !Clash(h)
    ensures g == Outbound(h)
  {
    forall n | n in g
      ensures g[n] == Outbound(h)[n]
    {
      var k :| k in h && Feeds(k, n) && g[n] == h[k];
      if HeaderPrefix <= k {
        PrefixSplit(k);
      } else {
        assert k == ContentType || k == CallIdHeader;
        assert n == k;
        assert HeaderPrefix + n !in h;
      }
    }
  }

  /**
   * The first loop of WriteHeader: collect the real headers and the user
   * status from the synthetic ones, visiting keys in an arbitrary order.
   */
  method RewriteHeaders(h: Header) returns (gw: Header, userStatus: int)
    ensures Rewritten(h, gw)
    ensures !Clash(h) ==> gw == Outbound(h)
    ensures userStatus == UserStatus(h)
  {
    FixedNames();
    gw, userStatus := map[], 0;
    ghost var src: map<string, string> := map[];
    var todo := h.Keys;
    while todo != {}
      invariant todo <= h.Keys
      invariant forall k :: k in h && k !in todo && Kept(k) ==> RealName(k) in gw
      invariant src.Keys == gw.Keys
      invariant forall n :: n in gw ==> src[n] in h && src[n] !in todo && Feeds(src[n], n) && gw[n] == h[src[n]]
      invariant userStatus == if StatusHeader in h && StatusHeader !in todo then UserStatus(h) else 0
      decreases todo
    {
      var k :| k in todo;
      if HeaderPrefix <= k {
        var name := k[|HeaderPrefix|..];
        if name != "" {
          gw := gw[name := h[k]];
          src := src[name := k];
        }
      } else if k == StatusHeader {
        if |h[k]| > 0 {
          var parsed := Decimal.Atoi(h[k][0]);
          if parsed.Some? {
            userStatus := parsed.value;
          }
        }
      } else if k == ContentType || k == CallIdHeader {
        gw := gw[k := h[k]];
        src := src[k := k];
      }
      todo := todo - {k};
    }
    forall n | n in gw
      ensures n in OutKeys(h) && exists k :: k in h && Feeds(k, n) && gw[n] == h[k]
    {
      assert src[n] in h && Feeds(src[n], n);
    }
    assert gw.Keys == OutKeys(h);
    if !Clash(h) {
      RewrittenIsOutbound(h, gw);
    }
  }

  /**
   * The writer that the trigger path hands to fnInvoke.  Its first WriteHeader
   * or Write commits: the live header map is rewritten in place and the
   * status is decided; later commits do nothing.
   */
  class TriggerResponseWriter {
    const inner: Transport
    var committed: bool

    constructor(inner: Transport)
      ensures this.inner == inner && !committed
    {
      this.inner := inner;
      committed := false;
    }

    function Header(): HeaderMap {
      inner.header
    }

    method WriteHeader(serviceStatus: int)
      modifies this, inner, inner.header
      ensures committed
      ensures old(committed) ==> inner.header.m == old(inner.header.m) && inner.status == old(inner.status)
      ensures !old(committed) ==> Rewritten(old(inner.header.m), inner.header.m)
      ensures !old(committed) && !Clash(old(inner.header.m)) ==> inner.header.m == Outbound(old(inner.header.m))
      ensures !old(committed) ==>
                inner.status == if old(inner.written) then old(inner.status)
                                else FinalStatus(serviceStatus, UserStatus(old(inner.header.m)))
      ensures inner.written == old(inner.written) && inner.body == old(inner.body)
    {
      if committed {
        return;
      }
      committed := true;
      var gw, userStatus := RewriteHeaders(inner.header.m);
      // delete every key, then add the rewritten ones
      inner.header.m := map[];
      inner.header.m := gw;
      var finalStatus := FinalStatus(serviceStatus, userStatus);
      inner.WriteHeader(finalStatus);
    }

    /** A body write before any commit commits with status 200. */
    method Write(b: string)
      modifies this, inner, inner.header
      ensures committed && inner.written && inner.body == old(inner.body) + b
      ensures old(committed) ==> inner.header.m == old(inner.header.m) && inner.status == old(inner.status)
      ensures !old(committed) ==> Rewritten(old(inner.header.m), inner.header.m)
      ensures !old(committed) && !Clash(old(inner.header.m)) ==> inner.header.m == Outbound(old(inner.header.m))
      ensures !old(committed) ==>
                inner.status == if old(inner.written) then old(inner.status)
                                else FinalStatus(200, UserStatus(old(inner.header.m)))
    {
      if !committed {
        WriteHeader(200);
      }
      inner.Write(b);
    }
  }

  // ---------------------------------------------------------------------------
  // Properties of the protocol
  // ---------------------------------------------------------------------------

  /** The keys a function can receive: Content-Type, Fn-Http-H-*, and the three synthetic ones. */
  lemma {:induction false} InboundKeys(h: Header, hop: set<string>, httpMethod: string, url: string, k: string)
    requires k in Inbound(h, hop, httpMethod, url)
    ensures k == ContentType || HeaderPrefix <= k || k == MethodHeader || k == RequestUrlHeader || k == IntentHeader
  {
    if k != MethodHeader && k != RequestUrlHeader && k != IntentHeader {
      var o :| o in StripHop(h, hop) && Prefixed(o) == k;
    }
  }

  /**
   * A caller cannot ask for a detached call through a trigger: its
   * Fn-Invoke-Type header reaches the function as Fn-Http-H-Fn-Invoke-Type.
   */
  lemma {:induction false} InboundNeverDetached(h: Header, hop: set<string>, httpMethod: string, url: string)
    ensures "Fn-Invoke-Type" !in Inbound(h, hop, httpMethod, url)
  {
    assert "Fn-Invoke-Type"[3] != HeaderPrefix[3];
    if "Fn-Invoke-Type" in Inbound(h, hop, httpMethod, url) {
      InboundKeys(h, hop, httpMethod, url, "Fn-Invoke-Type");
    }
  }

  /** What Inbound holds, key by key: each kept caller header under its new name, and the three fixed keys. */
  lemma {:induction false} InboundAt(h: Header, hop: set<string>, httpMethod: string, url: string)
    ensures forall o :: o in h && o !in hop ==>
              Prefixed(o) in Inbound(h, hop, httpMethod, url) && Inbound(h, hop, httpMethod, url)[Prefixed(o)] == h[o]
    ensures forall k :: k in Inbound(h, hop, httpMethod, url) && k != MethodHeader && k != RequestUrlHeader && k != IntentHeader ==>
              OriginalName(k) in h && OriginalName(k) !in hop && Prefixed(OriginalName(k)) == k
  {
    FixedNames();
    TransposedAt(StripHop(h, hop));
  }

  /**
   * The inbound headers never clash on commit and carry no user status: the
   * fixed names are not prefixed, and a prefixed Content-Type or Fn-Call-Id
   * can only come from a caller header that would have been renamed itself.
   */
  lemma {:induction false} InboundNoClash(h: Header, hop: set<string>, httpMethod: string, url: string)
    ensures !Clash(Inbound(h, hop, httpMethod, url))
    ensures UserStatus(Inbound(h, hop, httpMethod, url)) == 0
  {
    FixedNames();
    InboundAt(h, hop, httpMethod, url);
    assert (HeaderPrefix + ContentType)[|HeaderPrefix|..] == ContentType;
    assert HeaderPrefix + ContentType != MethodHeader && HeaderPrefix + ContentType != RequestUrlHeader;
    assert HeaderPrefix + ContentType != IntentHeader;
    assert CallIdHeader !in Inbound(h, hop, httpMethod, url);
    assert HeaderPrefix + ContentType !in Inbound(h, hop, httpMethod, url);
    assert StatusHeader !in Inbound(h, hop, httpMethod, url);
  }

  /** The caller's headers without hop-by-hop ones and without a header whose name is empty. */
  function Restored(h: Header, hop: set<string>): Header {
    map k | k in h && k !in hop && k != "" :: h[k]
  }

  /** Two header maps with the same keys and the same values at each key are equal. */
  lemma SameEntries(a: Header, b: Header)
    requires a.Keys == b.Keys && forall k :: k in a ==> a[k] == b[k]
    ensures a == b
  {
  }

  /** A caller header with a non-empty name comes back under its own name with its own values. */
  lemma {:induction false} RoundTripKeeps(h: Header, hop: set<string>, httpMethod: string, url: string, n: string)
    requires n in h && n !in hop && n != ""
    ensures n in OutKeys(Inbound(h, hop, httpMethod, url))
    ensures Outbound(Inbound(h, hop, httpMethod, url))[n] == h[n]
  {
    InboundNoClash(h, hop, httpMethod, url);
    InboundAt(h, hop, httpMethod, url);
    FixedNames();
    var inb := Inbound(h, hop, httpMethod, url);
    var k := Prefixed(n);
    if n != ContentType {
      assert k == HeaderPrefix + n && k[|HeaderPrefix|..] == n;
    }
    assert k in inb && Kept(k) && RealName(k) == n;
  }

  /** Every committed name is a caller header with a non-empty name that was not hop-by-hop. */
  lemma {:induction false} RoundTripOnly(h: Header, hop: set<string>, httpMethod: string, url: string, n: string)
    requires n in OutKeys(Inbound(h, hop, httpMethod, url))
    ensures n in h && n !in hop && n != ""
  {
    InboundAt(h, hop, httpMethod, url);
    FixedNames();
    var k :| k in Inbound(h, hop, httpMethod, url) && Kept(k) && RealName(k) == n;
    if HeaderPrefix <= k {
      PrefixSplit(k);
    }
  }

  /**
   * Round trip: if the function returns the headers it was given, the commit
   * restores the caller's headers (without hop-by-hop ones), drops only a
   * header whose name is empty, and asks for no user status.
   */
  lemma {:induction false} InboundOutboundRoundTrip(h: Header, hop: set<string>, httpMethod: string, url: string)
    ensures !Clash(Inbound(h, hop, httpMethod, url))
    ensures UserStatus(Inbound(h, hop, httpMethod, url)) == 0
    ensures Outbound(Inbound(h, hop, httpMethod, url)) == Restored(h, hop)
  {
    InboundNoClash(h, hop, httpMethod, url);
    var inb := Inbound(h, hop, httpMethod, url);
    var out := Outbound(inb);
    var want := Restored(h, hop);
    forall n | n in want
      ensures n in out && out[n] == want[n]
    {
      RoundTripKeeps(h, hop, httpMethod, url, n);
    }
    forall n | n in out
      ensures n in want
    {
      RoundTripOnly(h, hop, httpMethod, url, n);
    }
    assert out.Keys == want.Keys;
    SameEntries(out, want);
  }

  /** The commit reads only the kept keys: two maps that agree on them commit alike. */
  lemma {:induction false} OutboundKeptOnly(a: Header, b: Header)
    requires forall k :: Kept(k) ==> (k in a <==> k in b)
    requires forall k :: k in a && Kept(k) ==> a[k] == b[k]
    ensures Outbound(a) == Outbound(b)
  {
    forall n | n in OutKeys(a)
      ensures n in OutKeys(b)
    {
      var k :| k in a && Kept(k) && RealName(k) == n;
      assert k in b;
    }
    forall n | n in OutKeys(b)
      ensures n in OutKeys(a)
    {
      var k :| k in b && Kept(k) && RealName(k) == n;
      assert k in a;
    }
    assert OutKeys(a) == OutKeys(b);
    forall n | n in OutKeys(a)
      ensures Outbound(a)[n] == Outbound(b)[n]
    {
      var k :| k in a && Kept(k) && RealName(k) == n;
      if HeaderPrefix <= k {
        PrefixSplit(k);
      }
      assert Kept(HeaderPrefix + n);
    }
    SameEntries(Outbound(a), Outbound(b));
  }

  /** Setting Fn-Call-Id adds it to the commit under its own name when no Fn-Http-H-Fn-Call-Id competes. */
  lemma {:induction false} OutboundCallId(h: Header, id: string)
    requires HeaderPrefix + CallIdHeader !in h
    ensures Outbound(h[CallIdHeader := [id]]) == Outbound(h)[CallIdHeader := [id]]
  {
    FixedNames();
    var g := h[CallIdHeader := [id]];
    forall n | n in OutKeys(g)
      ensures n in OutKeys(h) || n == CallIdHeader
    {
      var k :| k in g && Kept(k) && RealName(k) == n;
      if k != CallIdHeader {
        assert k in h;
      }
    }
    assert CallIdHeader in g && Kept(CallIdHeader) && RealName(CallIdHeader) == CallIdHeader;
    forall n | n in OutKeys(h)
      ensures n in OutKeys(g)
    {
      var k :| k in h && Kept(k) && RealName(k) == n;
      assert k in g;
    }
    assert OutKeys(g) == OutKeys(h) + {CallIdHeader};
    SameEntries(Outbound(g), Outbound(h)[CallIdHeader := [id]]);
  }

  /**
   * The Content-Length that fnInvoke sets does not survive a trigger commit:
   * a real Content-Length appears only if the function set Fn-Http-H-Content-Length.
   */
  lemma {:induction false} ContentLengthOnlyFromFunction(h: Header)
    ensures "Content-Length" in OutKeys(h) <==> HeaderPrefix + "Content-Length" in h
  {
    if "Content-Length" in OutKeys(h) {
      var k :| k in h && Kept(k) && RealName(k) == "Content-Length";
      FixedNames();
      assert HeaderPrefix <= k;
      PrefixSplit(k);
    }
    if HeaderPrefix + "Content-Length" in h {
      var k := HeaderPrefix + "Content-Length";
      assert k[|HeaderPrefix|..] == "Content-Length";
      assert Kept(k) && RealName(k) == "Content-Length";
    }
  }
}
