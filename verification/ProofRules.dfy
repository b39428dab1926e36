/**
  The rules of an acceptable transcript in one place, with the numbers of RFC 8446: they are exactly what the parser
  asks for.
*/
module ProofRules {
  import opened Outcomes
  import opened Wire
  import opened TlsExtensions
  import opened ClientHello
  import opened ServerMessages
  import opened ProofFormat

  // -----------------------------------------------------------------
  // Numbers
  // -----------------------------------------------------------------

  /** The number that bytes stand for, the most significant one first. */
  function Number(b: Bytes): int {
    if b == [] then 0 else Number(b[..|b| - 1]) * 256 + b[|b| - 1]
  }

  lemma NumberMore(b: Bytes, x: Byte)
    ensures Number(b + [x]) == Number(b) * 256 + x
  {
    assert (b + [x])[..|b|] == b;
  }

  /** Theorem: two- and three-byte numbers stand for themselves. */
  lemma NumbersStand(n: int)
    ensures 0 <= n < 0x1_0000 ==> Number(U16(n)) == n
    ensures 0 <= n < 0x100_0000 ==> Number(U24(n)) == n
  {
    var a: Bytes, b: Bytes := [U16(n)[0]], [U24(n)[0]];
    NumberMore([], U16(n)[0]);
    NumberMore(a, U16(n)[1]);
    NumberMore([], U24(n)[0]);
    NumberMore(b, U24(n)[1]);
    NumberMore(b + [U24(n)[1]], U24(n)[2]);
    assert [] + a == a && [] + b == b;
    assert U16(n) == a + [U16(n)[1]] && U24(n) == b + [U24(n)[1]] + [U24(n)[2]];
  }

  // -----------------------------------------------------------------
  // Rules
  // -----------------------------------------------------------------

  /** The number of a kind of extension (section 4.2 of RFC 8446). */
  function KindOf(t: HelloExtension): int {
    match t
    case ServerName => 0
    case Signatures(_) => 13
    case Versions(_) => 43
    case KeyShares(_) => 51
    case Other(kind, _) => kind
  }

  /** A number that two bytes hold. */
  predicate Short(n: int) {
    0 <= n < 65536
  }

  /** A key of x25519 or of secp256r1 (section 4.2.8 of RFC 8446). */
  predicate KeyRule(share: Extension) {
    (share.kind == 29 && |share.data| == 32) || (share.kind == 23 && |share.data| == 65 && share.data[0] == 4)
  }

  predicate ExtensionRule(t: HelloExtension, domain: Bytes) {
    match t
    case ServerName => |domain| + 3 < 65536
    case Versions(versions) => (forall v :: v in versions ==> Short(v)) && 1 <= |versions| <= 127 && 0x0304 in versions
    case Signatures(schemes) => (forall v :: v in schemes ==> Short(v)) && 1 <= |schemes| <= 32767
    case KeyShares(shares) =>
      1 <= |shares| && (forall i :: 0 <= i < |shares| ==> KeyRule(shares[i])) &&
      forall i, k :: 0 <= i < k < |shares| ==> shares[i].kind != shares[k].kind
    case Other(kind, data) => kind !in {0, 13, 43, 51} && Short(kind)
  }

  predicate Has(extensions: seq<HelloExtension>, kind: int) {
    exists i :: 0 <= i < |extensions| && KindOf(extensions[i]) == kind
  }

  /**
    A ClientHello names the server, TLS 1.3, signature schemes and key shares, each once; it offers no resumption, no
    early data, no cookie, no compressed certificates and no encrypted hello.
  */
  predicate HelloRules(h: ClientHello, ctx: Context) {
    |h.head.sessionId| <= 32 && (forall v :: v in h.head.suites ==> Short(v)) && 1 <= |h.head.suites| <= 32767 &&
    (forall i :: 0 <= i < |h.extensions| ==> ExtensionRule(h.extensions[i], ctx.domain)) &&
    (forall i, k :: 0 <= i < k < |h.extensions| ==> KindOf(h.extensions[i]) != KindOf(h.extensions[k])) &&
    Has(h.extensions, 0) && Has(h.extensions, 13) && Has(h.extensions, 43) && Has(h.extensions, 51) &&
    !Has(h.extensions, 27) && !Has(h.extensions, 41) && !Has(h.extensions, 42) && !Has(h.extensions, 44) &&
    !Has(h.extensions, 45) && !Has(h.extensions, 0xfe0d) &&
    (forall i :: 0 <= i < |h.extensions| ==> |Raw(h.extensions[i], ctx.domain).data| < 65536) &&
    |PrintExtensions(RawAll(h.extensions, ctx.domain))| < 65536
  }

  /** The server takes one of two suites, and a group, that the client has offered, and does not ask to try again. */
  predicate ServerRules(s: ServerHello, client: Client) {
    |s.random| == 32 && s.random != HELLO_RETRY_REQUEST && |client.sessionId| <= 32 &&
    s.suite in {0x1301, 0x1303} && s.suite in client.suites && KeyRule(s.share) && s.share.kind in client.groups
  }

  predicate CertificateRules(entries: seq<Entry>) {
    1 <= |entries| <= 8 &&
    forall i :: 0 <= i < |entries| ==> 1 <= |entries[i].certificate| <= 16384 && |entries[i].extensions| < 65536
  }

  predicate VerifyRules(v: Verify, client: Client) {
    v.scheme in {0x0403, 0x0804, 0x0809} && v.scheme in client.schemes && 1 <= |v.signature| < 65536
  }

  predicate SizeRules(m: Bodies) {
    |m.hello| <= 4092 && |m.server| <= 2044 && |m.encrypted| <= 4092 && |m.certificates| <= 49148 &&
    |m.verify| <= 8188 &&
    |m.hello| + |m.server| + |m.encrypted| + |m.certificates| + |m.verify| + 21 <= 65536
  }

  predicate Rules(t: Transcript, ctx: Context) {
    HelloRules(t.hello, ctx) && ServerRules(t.server, ClientOf(t.hello)) &&
    BlockFits(t.encrypted) && (forall i :: 0 <= i < |t.encrypted| ==> t.encrypted[i].kind != 42) &&
    CertificateRules(t.entries) && VerifyRules(t.verify, ClientOf(t.hello)) && SizeRules(BodiesOf(t, ctx))
  }

  /**
    The fixed parts of the two hellos: both call themselves TLS 1.2, the client offers no compression, and the server
    confirms TLS 1.3 and sends its key (sections 4.1.2, 4.1.3 and 4.2.1 of RFC 8446).
  */
  lemma FixedParts(h: ClientHello, ctx: Context, s: ServerHello, client: Client)
    requires |ctx.challenge| == 32 && |s.random| == 32
    ensures var b := PrintHello(h, ctx); |b| >= 34 && b[0] == 3 && b[1] == 3 && b[2..34] == ctx.challenge
    ensures var b := PrintServer(s, client); |b| >= 34 && b[0] == 3 && b[1] == 3 && b[2..34] == s.random
    ensures Extension(43, [3, 4]) in ServerExtensions(s) && |ServerExtensions(s)| == 2
    ensures Extension(51, PrintExtension(s.share)) in ServerExtensions(s)
    ensures Vec8([0]) == [1, 0]
  {
    hide PrintBlock;
    hide Vec8;
    hide Vec16;
    assert U16(TLS_1_2) == [3, 3] && U16(TLS_1_3) == [3, 4];
    assert ServerExtensions(s)[0] in ServerExtensions(s) && ServerExtensions(s)[1] in ServerExtensions(s);
    assert Vec8([0]) == [1, 0] by { OneZero(); }
  }

  lemma OneZero()
    ensures Vec8([0]) == [1, 0]
  {
  }

  // -----------------------------------------------------------------
  // They are what is asked for
  // -----------------------------------------------------------------

  lemma RangeRule(list: seq<int>)
    ensures InRange(list) <==> forall v :: v in list ==> Short(v)
  {
    if InRange(list) { forall v | v in list ensures Short(v) { var i :| 0 <= i < |list| && list[i] == v; } }
    else { var i :| 0 <= i < |list| && !Short(list[i]); assert list[i] in list; }
  }

  lemma TypedRule(t: HelloExtension, domain: Bytes)
    requires t.Other? ==> Short(t.kind)
    ensures TypedOk(t, domain) <==> ExtensionRule(t, domain)
  {
    match t
    case Versions(versions) => RangeRule(versions);
    case Signatures(schemes) => RangeRule(schemes);
    case _ =>
  }

  lemma RawKind(t: HelloExtension, domain: Bytes)
    ensures Raw(t, domain).kind == KindOf(t)
  {
  }

  lemma RawHas(extensions: seq<HelloExtension>, domain: Bytes, kind: int)
    ensures HasKind(RawAll(extensions, domain), kind) <==> Has(extensions, kind)
  {
    var raws := RawAll(extensions, domain);
    forall i | 0 <= i < |raws| ensures raws[i].kind == KindOf(extensions[i]) { RawKind(extensions[i], domain); }
    if Has(extensions, kind) {
      var i :| 0 <= i < |extensions| && KindOf(extensions[i]) == kind;
      assert raws[i].kind == kind;
    }
  }

  /** The kinds that are needed are there, and the forbidden ones are not. */
  lemma KindRules(extensions: seq<HelloExtension>, domain: Bytes)
    ensures KindsOk(RawAll(extensions, domain)) <==>
            Has(extensions, 0) && Has(extensions, 13) && Has(extensions, 43) && Has(extensions, 51) &&
            !Has(extensions, 27) && !Has(extensions, 41) && !Has(extensions, 42) && !Has(extensions, 44) &&
            !Has(extensions, 45) && !Has(extensions, 0xfe0d)
  {
    hide Has;
    hide HasKind;
    var raws := RawAll(extensions, domain);
    forall kind ensures HasKind(raws, kind) <==> Has(extensions, kind) { RawHas(extensions, domain, kind); }
    hide RawAll;
    assert forall kind :: kind in REQUIRED <==> kind == 0 || kind == 13 || kind == 43 || kind == 51;
    assert FORBIDDEN[0] == 27 && FORBIDDEN[1] == 41 && FORBIDDEN[2] == 42 && FORBIDDEN[3] == 44 && FORBIDDEN[4] == 45 &&
           FORBIDDEN[5] == 0xfe0d;
    assert forall kind :: kind in FORBIDDEN <==>
      kind == 27 || kind == 41 || kind == 42 || kind == 44 || kind == 45 || kind == 0xfe0d;
  }

  lemma BlockRules(extensions: seq<HelloExtension>, domain: Bytes)
    requires forall i :: 0 <= i < |extensions| && extensions[i].Other? ==> Short(extensions[i].kind)
    ensures BlockFits(RawAll(extensions, domain)) <==>
            (forall i, k :: 0 <= i < k < |extensions| ==> KindOf(extensions[i]) != KindOf(extensions[k])) &&
            (forall i :: 0 <= i < |extensions| ==> |Raw(extensions[i], domain).data| < 65536) &&
            |PrintExtensions(RawAll(extensions, domain))| < 65536
  {
    hide Raw;
    hide PrintExtensions;
    var raws := RawAll(extensions, domain);
    forall i | 0 <= i < |raws| ensures raws[i].kind == KindOf(extensions[i]) && raws[i] == Raw(extensions[i], domain) {
      RawKind(extensions[i], domain);
    }
    if BlockFits(raws) {
      forall i, k | 0 <= i < k < |extensions| ensures KindOf(extensions[i]) != KindOf(extensions[k]) {
        assert raws[i].kind != raws[k].kind;
      }
      forall i | 0 <= i < |extensions| ensures |Raw(extensions[i], domain).data| < 65536 { assert Fits(raws[i]); }
    }
  }

  lemma HelloRulesIff(h: ClientHello, ctx: Context)
    ensures HelloOk(h, ctx) <==> HelloRules(h, ctx)
  {
    hide Raw;
    hide PrintExtensions;
    hide KindsOk;
    hide BlockFits;
    hide TypedOk;
    hide ExtensionRule;
    hide Has;
    hide KindOf;
    RangeRule(h.head.suites);
    KindRules(h.extensions, ctx.domain);
    if HelloOk(h, ctx) {
      OthersShort(h.extensions, ctx.domain);
    } else if HelloRules(h, ctx) {
      RulesShort(h.extensions, ctx.domain);
    }
    if HelloOk(h, ctx) || HelloRules(h, ctx) {
      BlockRules(h.extensions, ctx.domain);
      forall i | 0 <= i < |h.extensions|
        ensures TypedOk(h.extensions[i], ctx.domain) <==> ExtensionRule(h.extensions[i], ctx.domain)
      {
        TypedRule(h.extensions[i], ctx.domain);
      }
    }
  }

  lemma OthersShort(extensions: seq<HelloExtension>, domain: Bytes)
    requires BlockFits(RawAll(extensions, domain))
    ensures forall i :: 0 <= i < |extensions| && extensions[i].Other? ==> Short(extensions[i].kind)
  {
    forall i | 0 <= i < |extensions| && extensions[i].Other? ensures Short(extensions[i].kind) {
      assert Fits(RawAll(extensions, domain)[i]);
    }
  }

  lemma RulesShort(extensions: seq<HelloExtension>, domain: Bytes)
    requires forall i :: 0 <= i < |extensions| ==> ExtensionRule(extensions[i], domain)
    ensures forall i :: 0 <= i < |extensions| && extensions[i].Other? ==> Short(extensions[i].kind)
  {
  }

  lemma CertificateRulesIff(entries: seq<Entry>)
    ensures CertificatesOk(entries) <==> CertificateRules(entries)
  {
    if CertificateRules(entries) { EntriesLength(entries); }
  }

  /** Eight entries always fit a three-byte length. */
  lemma {:induction false} EntriesLength(entries: seq<Entry>)
    requires forall i :: 0 <= i < |entries| ==>
      1 <= |entries[i].certificate| <= 16384 && |entries[i].extensions| < 65536
    ensures |PrintEntries(entries)| <= |entries| * 81925
  {
    if entries != [] { EntriesLength(entries[1..]); }
  }

  lemma SizeRulesIff(m: Bodies)
    ensures BodiesFit(m) && |Tiled(m)| <= 65536 <==> SizeRules(m)
  {
  }

  /**
    Theorem: a proof is accepted as a transcript exactly if the transcript keeps the rules and the proof is its print.
  */
  lemma AcceptedByRules(b: Bytes, t: Transcript, ctx: Context)
    requires |ctx.challenge| == 32
    ensures Parse(b, ctx) == Some(t) <==> Rules(t, ctx) && b == Print(t, ctx)
  {
    hide Parse;
    hide HelloOk;
    hide HelloRules;
    hide CertificatesOk;
    hide CertificateRules;
    hide BodiesOf;
    hide BodiesFit;
    hide SizeRules;
    hide Tiled;
    hide BlockFits;
    ParseIff(b, t, ctx);
    HelloRulesIff(t.hello, ctx);
    CertificateRulesIff(t.entries);
    SizeRulesIff(BodiesOf(t, ctx));
  }
}
