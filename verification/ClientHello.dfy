/** The ClientHello of a claim (section 4.1.2 of RFC 8446): what is accepted is exactly what is printed. */
module ClientHello {
  import opened Outcomes
  import opened Wire
  import opened TlsExtensions

  const SERVER_NAME: int := 0
  const SIGNATURE_ALGORITHMS: int := 13
  const COMPRESS_CERTIFICATE: int := 27
  const PRE_SHARED_KEY: int := 41
  const EARLY_DATA: int := 42
  const SUPPORTED_VERSIONS: int := 43
  const COOKIE: int := 44
  const PSK_KEY_EXCHANGE_MODES: int := 45
  const KEY_SHARE: int := 51
  const ENCRYPTED_CLIENT_HELLO: int := 0xfe0d

  const TLS_1_2: int := 0x0303
  const TLS_1_3: int := 0x0304
  const SECP256R1: int := 0x0017
  const X25519: int := 0x001d

  /** What a proof is checked against. */
  datatype Context = Context(domain: Bytes, challenge: Bytes)

  predicate ContextOk(ctx: Context) {
    |ctx.challenge| == 32
  }

  // -----------------------------------------------------------------
  // Key shares
  // -----------------------------------------------------------------

  /** A key share is shaped like an extension: a group, and a key that fits it. */
  predicate ShareOk(share: Extension) {
    (share.kind == X25519 && |share.data| == 32) ||
    (share.kind == SECP256R1 && |share.data| == 65 && share.data[0] == 4)
  }

  predicate SharesOk(shares: seq<Extension>) {
    shares != [] && DistinctKinds(shares) && forall i :: 0 <= i < |shares| ==> ShareOk(shares[i])
  }

  /** Shares are so few and so short that they always fit. */
  lemma SharesFit(shares: seq<Extension>)
    requires SharesOk(shares)
    ensures AllFit(shares) && 0 < |PrintExtensions(shares)| < 0x1_0000
  {
    TwoGroups(shares);
    PrintLength(shares);
    PrintLength(shares[1..]);
    if |shares| == 2 { PrintLength(shares[1..][1..]); }
  }

  lemma PrintLength(extensions: seq<Extension>)
    ensures |PrintExtensions(extensions)| ==
            if extensions == [] then 0 else 4 + |extensions[0].data| + |PrintExtensions(extensions[1..])|
  {
  }

  lemma TwoGroups(shares: seq<Extension>)
    requires SharesOk(shares)
    ensures |shares| <= 2
  {
    assert |shares| > 2 ==> ShareOk(shares[0]) && ShareOk(shares[1]) && ShareOk(shares[2]);
  }

  // -----------------------------------------------------------------
  // Extensions with a meaning
  // -----------------------------------------------------------------

  datatype HelloExtension =
    | ServerName
    | Versions(versions: seq<int>)
    | Signatures(schemes: seq<int>)
    | KeyShares(shares: seq<Extension>)
    | Other(kind: int, data: Bytes)

  function Raw(t: HelloExtension, domain: Bytes): Extension {
    match t
    case ServerName => Extension(SERVER_NAME, Vec16([0] + Vec16(domain)))
    case Versions(versions) => Extension(SUPPORTED_VERSIONS, Vec8(Print16s(versions)))
    case Signatures(schemes) => Extension(SIGNATURE_ALGORITHMS, Vec16(Print16s(schemes)))
    case KeyShares(shares) => Extension(KEY_SHARE, Vec16(PrintExtensions(shares)))
    case Other(kind, data) => Extension(kind, data)
  }

  const REQUIRED: set<int> := {SERVER_NAME, SUPPORTED_VERSIONS, SIGNATURE_ALGORITHMS, KEY_SHARE}

  const FORBIDDEN: seq<int> :=
    [COMPRESS_CERTIFICATE, PRE_SHARED_KEY, EARLY_DATA, COOKIE, PSK_KEY_EXCHANGE_MODES, ENCRYPTED_CLIENT_HELLO]

  /** What an extension may say. */
  predicate TypedOk(t: HelloExtension, domain: Bytes) {
    match t
    case ServerName => |domain| + 3 < 0x1_0000
    case Versions(versions) => InRange(versions) && 0 < 2 * |versions| < 0x100 && TLS_1_3 in versions
    case Signatures(schemes) => InRange(schemes) && 0 < 2 * |schemes| < 0x1_0000
    case KeyShares(shares) => SharesOk(shares)
    case Other(kind, _) => kind !in REQUIRED
  }

  /** Data that is one list of numbers behind a one-byte length. */
  function List8(data: Bytes): Option<seq<int>> {
    var list :- ReadVec8(data);
    if list.rest != [] || list.value == [] || |list.value| % 2 != 0 then None else Some(Pairs(list.value))
  }

  /** Data that is one list of numbers behind a two-byte length. */
  function List16(data: Bytes): Option<seq<int>> {
    var list :- ReadVec16(data);
    if list.rest != [] || list.value == [] || |list.value| % 2 != 0 then None else Some(Pairs(list.value))
  }

  function Name(data: Bytes): Option<Bytes> {
    var list :- ReadVec16(data);
    var kind :- Read8(list.value);
    var name :- ReadVec16(kind.rest);
    if list.rest != [] || kind.value != 0 || name.rest != [] then None else Some(name.value)
  }

  function Shares(data: Bytes): Option<seq<Extension>> {
    var list :- ReadVec16(data);
    var shares :- ExtensionsFrom(list.value, []);
    if list.rest != [] || !SharesOk(shares) then None else Some(shares)
  }

  /** The meaning of an extension; none if it has not the right form. */
  function Typed(e: Extension, domain: Bytes): Option<HelloExtension> {
    if e.kind == SERVER_NAME then if Name(e.data) == Some(domain) then Some(ServerName) else None
    else if e.kind == SUPPORTED_VERSIONS then
      var versions :- List8(e.data);
      if TLS_1_3 in versions then Some(Versions(versions)) else None
    else if e.kind == SIGNATURE_ALGORITHMS then
      var schemes :- List16(e.data);
      Some(Signatures(schemes))
    else if e.kind == KEY_SHARE then
      var shares :- Shares(e.data);
      Some(KeyShares(shares))
    else Some(Other(e.kind, e.data))
  }

  lemma List8Iff(data: Bytes, list: seq<int>)
    ensures List8(data) == Some(list) <==> InRange(list) && 0 < 2 * |list| < 0x100 && data == Vec8(Print16s(list))
  {
    hide ReadVec8;
    hide Vec8;
    var inner := Print16s(list);
    assert Vec8(inner) + [] == Vec8(inner);
    Vec8Iff(data, inner, []);
    PairsIff(inner, list);
    if ReadVec8(data).Some? {
      var r := ReadVec8(data).value;
      Vec8Iff(data, r.value, r.rest);
      if |r.value| % 2 == 0 { PairsIff(r.value, list); }
    }
  }

  lemma List16Iff(data: Bytes, list: seq<int>)
    ensures List16(data) == Some(list) <==> InRange(list) && 0 < 2 * |list| < 0x1_0000 && data == Vec16(Print16s(list))
  {
    hide ReadVec16;
    hide Vec16;
    var inner := Print16s(list);
    assert Vec16(inner) + [] == Vec16(inner);
    Vec16Iff(data, inner, []);
    PairsIff(inner, list);
    if ReadVec16(data).Some? {
      var r := ReadVec16(data).value;
      Vec16Iff(data, r.value, r.rest);
      if |r.value| % 2 == 0 { PairsIff(r.value, list); }
    }
  }

  lemma NameIff(data: Bytes, domain: Bytes)
    ensures Name(data) == Some(domain) <==> |domain| + 3 < 0x1_0000 && data == Vec16([0] + Vec16(domain))
  {
    hide ReadVec16;
    var inner := [0] + Vec16(domain);
    assert Vec16(inner) + [] == Vec16(inner) && Vec16(domain) + [] == Vec16(domain);
    Vec16Iff(data, inner, []);
    Vec16Iff(Vec16(domain), domain, []);
    assert inner[1..] == Vec16(domain);
    if ReadVec16(data).Some? {
      var list := ReadVec16(data).value;
      Vec16Iff(data, list.value, list.rest);
      if list.value != [] {
        Vec16Iff(list.value[1..], domain, []);
        assert list.value == [list.value[0]] + list.value[1..];
      }
    }
  }

  lemma SharesIff(data: Bytes, shares: seq<Extension>)
    ensures Shares(data) == Some(shares) <==> SharesOk(shares) && data == Vec16(PrintExtensions(shares))
  {
    hide ReadVec16;
    hide Vec16;
    hide ShareOk;
    var inner := PrintExtensions(shares);
    assert Vec16(inner) + [] == Vec16(inner) && shares[0..] == shares;
    Vec16Iff(data, inner, []);
    ExtensionsFromIff(inner, [], shares);
    if SharesOk(shares) { SharesFit(shares); }
    if ReadVec16(data).Some? {
      var list := ReadVec16(data).value;
      Vec16Iff(data, list.value, list.rest);
      ExtensionsFromIff(list.value, [], shares);
    }
  }

  lemma TypedIff(e: Extension, t: HelloExtension, domain: Bytes)
    ensures Typed(e, domain) == Some(t) <==> TypedOk(t, domain) && e == Raw(t, domain)
  {
    hide Name;
    hide List8;
    hide List16;
    hide Shares;
    hide Vec8;
    hide Vec16;
    hide Print16s;
    hide PrintExtensions;
    hide SharesOk;
    NameIff(e.data, domain);
    match t {
      case ServerName =>
      case Versions(versions) => List8Iff(e.data, versions);
      case Signatures(schemes) => List16Iff(e.data, schemes);
      case KeyShares(shares) => SharesIff(e.data, shares);
      case Other(_, _) =>
    }
  }

  // -----------------------------------------------------------------
  // The message
  // -----------------------------------------------------------------

  /** What stands before the extensions, besides the challenge. */
  datatype Head = Head(sessionId: Bytes, suites: seq<int>)

  datatype ClientHello = ClientHello(head: Head, extensions: seq<HelloExtension>)

  predicate HeadOk(h: Head) {
    |h.sessionId| <= 32 && InRange(h.suites) && 0 < 2 * |h.suites| < 0x1_0000
  }

  function PrintHead(h: Head, ctx: Context): Bytes {
    U16(TLS_1_2) + (ctx.challenge + (Vec8(h.sessionId) + (Vec16(Print16s(h.suites)) + Vec8([0]))))
  }

  function ReadSuites(b: Bytes): Option<Read<seq<int>>> {
    var suites :- ReadVec16(b);
    var compression :- ReadVec8(suites.rest);
    if suites.value == [] || |suites.value| % 2 != 0 || compression.value != [0] then None
    else Some(Read(Pairs(suites.value), compression.rest))
  }

  function ReadHead(b: Bytes, ctx: Context): Option<Read<Head>> {
    var version :- Read16(b);
    var random :- ReadBytes(version.rest, 32);
    var session :- ReadVec8(random.rest);
    var suites :- ReadSuites(session.rest);
    if version.value != TLS_1_2 || random.value != ctx.challenge || |session.value| > 32 then None
    else Some(Read(Head(session.value, suites.value), suites.rest))
  }

  function RawAll(extensions: seq<HelloExtension>, domain: Bytes): (raws: seq<Extension>)
    ensures |raws| == |extensions| && forall i :: 0 <= i < |raws| ==> raws[i] == Raw(extensions[i], domain)
  {
    seq(|extensions|, i requires 0 <= i < |extensions| => Raw(extensions[i], domain))
  }

  function TypedAll(raws: seq<Extension>, domain: Bytes): Option<seq<HelloExtension>> {
    if forall i :: 0 <= i < |raws| ==> Typed(raws[i], domain).Some?
    then Some(seq(|raws|, i requires 0 <= i < |raws| && Typed(raws[i], domain).Some? => Typed(raws[i], domain).value))
    else None
  }

  /** Every kind that is needed is there, and none that is forbidden. */
  predicate KindsOk(raws: seq<Extension>) {
    (forall kind | kind in REQUIRED :: HasKind(raws, kind)) && forall kind | kind in FORBIDDEN :: !HasKind(raws, kind)
  }

  predicate HelloOk(h: ClientHello, ctx: Context) {
    HeadOk(h.head) && BlockFits(RawAll(h.extensions, ctx.domain)) && KindsOk(RawAll(h.extensions, ctx.domain)) &&
    forall i :: 0 <= i < |h.extensions| ==> TypedOk(h.extensions[i], ctx.domain)
  }

  function PrintHello(h: ClientHello, ctx: Context): Bytes {
    PrintHead(h.head, ctx) + PrintBlock(RawAll(h.extensions, ctx.domain))
  }

  /** The message that bytes hold; none if they are no acceptable ClientHello. */
  function Hello(b: Bytes, ctx: Context): Option<ClientHello> {
    var head :- ReadHead(b, ctx);
    var raws :- Extensions(head.rest);
    var extensions :- TypedAll(raws, ctx.domain);
    if KindsOk(raws) then Some(ClientHello(head.value, extensions)) else None
  }

  lemma HeadIff(b: Bytes, h: Head, ctx: Context, rest: Bytes)
    requires ContextOk(ctx)
    ensures ReadHead(b, ctx) == Some(Read(h, rest)) <==> HeadOk(h) && b == PrintHead(h, ctx) + rest
  {
    if HeadOk(h) && b == PrintHead(h, ctx) + rest { HeadReads(h, ctx, rest); }
    if ReadHead(b, ctx).Some? { HeadPrints(b, ctx); }
  }

  lemma HeadReads(h: Head, ctx: Context, rest: Bytes)
    requires ContextOk(ctx) && HeadOk(h)
    ensures ReadHead(PrintHead(h, ctx) + rest, ctx) == Some(Read(h, rest))
  {
    hide Read16;
    hide ReadBytes;
    hide ReadVec8;
    hide ReadVec16;
    hide U16;
    hide Vec8;
    hide Vec16;
    var b4 := Vec8([0]) + rest;
    var b3 := Vec16(Print16s(h.suites)) + b4;
    var b2 := Vec8(h.sessionId) + b3;
    var b1 := ctx.challenge + b2;
    var b0 := U16(TLS_1_2) + b1;
    assert PrintHead(h, ctx) + rest == b0;
    Read16Iff(b0, TLS_1_2, b1);
    BytesIff(b1, 32, ctx.challenge, b2);
    Vec8Iff(b2, h.sessionId, b3);
    Vec16Iff(b3, Print16s(h.suites), b4);
    Vec8Iff(b4, [0], rest);
    PairsIff(Print16s(h.suites), h.suites);
  }

  lemma HeadPrints(b: Bytes, ctx: Context)
    requires ContextOk(ctx) && ReadHead(b, ctx).Some?
    ensures HeadOk(ReadHead(b, ctx).value.value)
    ensures b == PrintHead(ReadHead(b, ctx).value.value, ctx) + ReadHead(b, ctx).value.rest
  {
    hide Read16;
    hide ReadBytes;
    hide ReadVec8;
    hide ReadVec16;
    hide U16;
    hide Vec8;
    hide Vec16;
    var h, rest := ReadHead(b, ctx).value.value, ReadHead(b, ctx).value.rest;
    var version := Read16(b).value;
    var random := ReadBytes(version.rest, 32).value;
    var session := ReadVec8(random.rest).value;
    var suites := ReadVec16(session.rest).value;
    Read16Iff(b, version.value, version.rest);
    BytesIff(version.rest, 32, random.value, random.rest);
    Vec8Iff(random.rest, session.value, session.rest);
    Vec16Iff(session.rest, suites.value, suites.rest);
    Vec8Iff(suites.rest, [0], rest);
    PairsIff(suites.value, h.suites);
    assert PrintHead(h, ctx) + rest ==
           U16(TLS_1_2) + (ctx.challenge + (Vec8(h.sessionId) + (Vec16(suites.value) + (Vec8([0]) + rest))));
  }

  lemma TypedAllIff(raws: seq<Extension>, extensions: seq<HelloExtension>, domain: Bytes)
    ensures TypedAll(raws, domain) == Some(extensions) <==>
            raws == RawAll(extensions, domain) && forall i :: 0 <= i < |extensions| ==> TypedOk(extensions[i], domain)
  {
    hide Typed;
    hide TypedOk;
    hide Raw;
    if |raws| == |extensions| {
      forall i | 0 <= i < |raws|
        ensures Typed(raws[i], domain) == Some(extensions[i]) <==>
          TypedOk(extensions[i], domain) && raws[i] == Raw(extensions[i], domain)
      {
        TypedIff(raws[i], extensions[i], domain);
      }
      if TypedAll(raws, domain) == Some(extensions) {
        forall i | 0 <= i < |raws| ensures Typed(raws[i], domain) == Some(extensions[i]) {
          assert extensions[i] == TypedAll(raws, domain).value[i];
        }
      } else if raws == RawAll(extensions, domain) &&
                forall i :: 0 <= i < |extensions| ==> TypedOk(extensions[i], domain)
      {
        assert forall i :: 0 <= i < |raws| ==> Typed(raws[i], domain) == Some(extensions[i]);
        assert TypedAll(raws, domain).value == extensions;
      }
    }
  }

  /**
    Theorem: a ClientHello is accepted exactly if it is the print of an acceptable message, which is then what was read.
  */
  lemma HelloIff(b: Bytes, h: ClientHello, ctx: Context)
    requires ContextOk(ctx)
    ensures Hello(b, ctx) == Some(h) <==> HelloOk(h, ctx) && b == PrintHello(h, ctx)
  {
    hide ReadHead;
    hide HeadOk;
    hide PrintHead;
    hide Extensions;
    hide BlockFits;
    hide PrintBlock;
    hide TypedAll;
    hide TypedOk;
    hide KindsOk;
    hide RawAll;
    var raws := RawAll(h.extensions, ctx.domain);
    HeadIff(b, h.head, ctx, PrintBlock(raws));
    ExtensionsIff(PrintBlock(raws), raws);
    TypedAllIff(raws, h.extensions, ctx.domain);
    if ReadHead(b, ctx).Some? {
      var head := ReadHead(b, ctx).value;
      HeadIff(b, head.value, ctx, head.rest);
      if Extensions(head.rest).Some? {
        var found := Extensions(head.rest).value;
        ExtensionsIff(head.rest, found);
        TypedAllIff(found, h.extensions, ctx.domain);
      }
    }
  }
}
