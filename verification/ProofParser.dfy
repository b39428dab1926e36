/**
  The proof parser as the program runs it: a reader that moves on, loops and lists, against the functions of the format.
*/
module ProofParser {
  import opened Outcomes
  import opened Wire
  import opened TlsExtensions
  import opened ClientHello
  import opened ServerMessages
  import opened ProofFormat

  // -----------------------------------------------------------------
  // ClientHello
  // -----------------------------------------------------------------

  /** The numbers that pairs of bytes stand for, one after the other. */
  method Numbers(b: Bytes) returns (list: seq<int>)
    requires |b| % 2 == 0
    ensures list == Pairs(b)
  {
    hide Value16;
    list := [];
    var i := 0;
    while i < |b|
      invariant 0 <= i <= |b| && i % 2 == 0 && list == Pairs(b[..i])
    {
      PairsMore(b, i);
      list := list + [Value16(b[i..])];
      i := i + 2;
    }
    assert b[..i] == b;
  }

  method ParseServerName(data: Bytes, domain: Bytes) returns (ok: bool)
    ensures ok <==> Name(data) == Some(domain)
  {
    hide Read16;
    hide Read8;
    var reader := new ByteReader(data);
    var listSize := reader.TakeU16();
    if listSize == None { return false; }
    if listSize.value != reader.Remaining() {
      assert ReadVec16(data).Some? ==> |ReadVec16(data).value.rest| > 0;
      return false;
    }
    assert ReadVec16(data) == Some(Read(reader.Rest(), [])) by {
      assert reader.Rest()[..listSize.value] == reader.Rest();
    }
    var kind := reader.TakeU8();
    if kind == None || kind.value != 0 { return false; }
    var nameSize := reader.TakeU16();
    if nameSize == None { return false; }
    var name := reader.TakeBytes(nameSize.value);
    if name == None { return false; }
    assert reader.Remaining() == 0 <==> reader.Rest() == [];
    return reader.Remaining() == 0 && name.value == domain;
  }

  /** The versions that are offered include the one wanted. */
  method ParseVersions(data: Bytes) returns (ok: bool)
    ensures ok <==> List8(data).Some? && TLS_1_3 in List8(data).value
  {
    hide Read8;
    hide Value16;
    var reader := new ByteReader(data);
    var size := reader.TakeU8();
    if size == None || size.value < 2 || size.value % 2 != 0 { return false; }
    var list := reader.TakeBytes(size.value);
    if list == None { return false; }
    assert reader.Remaining() == 0 <==> reader.Rest() == [];
    if reader.Remaining() != 0 { return false; }
    ok := Offers(list.value, TLS_1_3);
  }

  method Offers(b: Bytes, number: int) returns (ok: bool)
    requires |b| % 2 == 0
    ensures ok <==> number in Pairs(b)
  {
    hide Value16;
    hide Pairs;
    ok := false;
    var i := 0;
    NoPairs();
    assert b[..0] == [];
    while i < |b|
      invariant 0 <= i <= |b| && i % 2 == 0 && (ok <==> number in Pairs(b[..i]))
    {
      PairsMore(b, i);
      ok := ok || Value16(b[i..]) == number;
      i := i + 2;
    }
    assert b[..i] == b;
  }

  lemma NoPairs()
    ensures Pairs([]) == []
  {
  }

  method ParseSchemes(data: Bytes) returns (r: Option<seq<int>>)
    ensures r == List16(data)
  {
    hide Read16;
    var reader := new ByteReader(data);
    var size := reader.TakeU16();
    if size == None || size.value < 2 || size.value % 2 != 0 { return None; }
    var list := reader.TakeBytes(size.value);
    if list == None { return None; }
    assert reader.Remaining() == 0 <==> reader.Rest() == [];
    if reader.Remaining() != 0 { return None; }
    var schemes := Numbers(list.value);
    return Some(schemes);
  }

  /** The groups of key shares that all fit and differ. */
  method ParseShares(data: Bytes) returns (r: Option<seq<int>>)
    ensures r == match Shares(data) case None => None case Some(shares) => Some(Kinds(shares))
  {
    hide Read16;
    hide ReadExtension;
    hide ShareOk;
    var reader := new ByteReader(data);
    var size := reader.TakeU16();
    if size == None || size.value == 0 { return None; }
    var list := reader.TakeBytes(size.value);
    if list == None { return None; }
    assert reader.Remaining() == 0 <==> reader.Rest() == [];
    if reader.Remaining() != 0 { return None; }
    r := SharesIn(list.value);
  }

  lemma {:induction false} SharesGrow(b: Bytes, read: seq<Extension>)
    ensures ExtensionsFrom(b, read).Some? ==> read <= ExtensionsFrom(b, read).value
    decreases |b|
  {
    if b != [] && ReadExtension(b).Some? {
      var next := ReadExtension(b).value;
      SharesGrow(next.rest, read + [next.value]);
    }
  }

  method SharesIn(b: Bytes) returns (r: Option<seq<int>>)
    requires b != []
    ensures r == match ExtensionsFrom(b, [])
                 case None => None
                 case Some(shares) => if SharesOk(shares) then Some(Kinds(shares)) else None
  {
    hide ReadExtension;
    hide ShareOk;
    var reader := new ByteReader(b);
    ghost var read: seq<Extension> := [];
    var groups: seq<int> := [];
    while reader.Remaining() > 0
      invariant reader.Valid() && fresh(reader) && ExtensionsFrom(reader.Rest(), read) == ExtensionsFrom(b, [])
      invariant groups == Kinds(read) && DistinctKinds(read) && (forall i :: 0 <= i < |read| ==> ShareOk(read[i]))
      invariant reader.Rest() == b || read != []
      decreases reader.Remaining()
    {
      ghost var rest := reader.Rest();
      var share := TakeExtension(reader);
      if share == None { return None; }
      assert share.value.kind in groups <==> HasKind(read, share.value.kind);
      if share.value.kind in groups { return None; }
      SharesGrow(reader.Rest(), read + [share.value]);
      if !ShareOk(share.value) {
        assert ExtensionsFrom(b, []).Some? ==> ExtensionsFrom(b, []).value[|read|] == share.value;
        return None;
      }
      groups := groups + [share.value.kind];
      read := read + [share.value];
    }
    return Some(groups);
  }

  /** With every needed kind there once, the extensions have a meaning if those four have. */
  lemma TypedWhen(raws: seq<Extension>, domain: Bytes)
    requires DistinctKinds(raws) && forall kind | kind in REQUIRED :: HasKind(raws, kind)
    ensures TypedAll(raws, domain).Some? <==>
      forall kind | kind in REQUIRED :: Typed(Find(raws, kind).value, domain).Some?
  {
    hide Typed;
    hide REQUIRED;
    forall i | 0 <= i < |raws| ensures raws[i].kind !in REQUIRED ==> Typed(raws[i], domain).Some? {
      OthersTyped(raws[i], domain);
    }
    forall i | 0 <= i < |raws| ensures Find(raws, raws[i].kind) == Some(raws[i]) { FindAt(raws, i); }
  }

  lemma OthersTyped(e: Extension, domain: Bytes)
    ensures e.kind !in REQUIRED ==> Typed(e, domain).Some?
  {
  }

  /** What the client offers, read off its typed extensions. */
  lemma {:induction false} SchemesFound(raws: seq<Extension>, domain: Bytes, typed: seq<HelloExtension>)
    requires TypedAll(raws, domain) == Some(typed) && HasKind(raws, SIGNATURE_ALGORITHMS)
    ensures Some(SchemesOf(typed)) == List16(Find(raws, SIGNATURE_ALGORITHMS).value.data)
    decreases |raws|
  {
    hide List8;
    hide List16;
    hide Name;
    hide Shares;
    assert typed[0] == Typed(raws[0], domain).value;
    if raws[0].kind != SIGNATURE_ALGORITHMS {
      RestTyped(raws, domain, typed);
      assert HasKind(raws[1..], SIGNATURE_ALGORITHMS) by { RestHasKind(raws, SIGNATURE_ALGORITHMS); }
      SchemesFound(raws[1..], domain, typed[1..]);
    }
  }

  lemma {:induction false} GroupsFound(raws: seq<Extension>, domain: Bytes, typed: seq<HelloExtension>)
    requires TypedAll(raws, domain) == Some(typed) && HasKind(raws, KEY_SHARE)
    ensures Shares(Find(raws, KEY_SHARE).value.data).Some?
    ensures GroupsOf(typed) == Kinds(Shares(Find(raws, KEY_SHARE).value.data).value)
    decreases |raws|
  {
    hide List8;
    hide List16;
    hide Name;
    hide Shares;
    assert typed[0] == Typed(raws[0], domain).value;
    if raws[0].kind != KEY_SHARE {
      RestTyped(raws, domain, typed);
      assert HasKind(raws[1..], KEY_SHARE) by { RestHasKind(raws, KEY_SHARE); }
      GroupsFound(raws[1..], domain, typed[1..]);
    }
  }

  lemma RestTyped(raws: seq<Extension>, domain: Bytes, typed: seq<HelloExtension>)
    requires TypedAll(raws, domain) == Some(typed) && raws != []
    ensures TypedAll(raws[1..], domain) == Some(typed[1..])
  {
    hide Typed;
    assert forall i :: 0 <= i < |raws| ==> typed[i] == Typed(raws[i], domain).value;
    assert TypedAll(raws[1..], domain).value == typed[1..];
  }

  lemma RestHasKind(raws: seq<Extension>, kind: int)
    requires HasKind(raws, kind) && raws != [] && raws[0].kind != kind
    ensures HasKind(raws[1..], kind)
  {
    var i :| 0 <= i < |raws| && raws[i].kind == kind;
    assert raws[1..][i - 1] == raws[i];
  }

  /** The cipher suites, and the one compression method there may be. */
  method ParseSuites(reader: ByteReader) returns (r: Option<seq<int>>)
    requires reader.Valid()
    modifies reader
    ensures reader.Valid()
    ensures r == None <==> ReadSuites(old(reader.Rest())) == None
    ensures r.Some? ==> ReadSuites(old(reader.Rest())) == Some(Read(r.value, reader.Rest()))
  {
    hide Read16;
    hide Read8;
    var suitesSize := reader.TakeU16();
    if suitesSize == None || suitesSize.value < 2 || suitesSize.value % 2 != 0 { return None; }
    var suites := reader.TakeBytes(suitesSize.value);
    if suites == None { return None; }
    var compressionSize := reader.TakeU8();
    if compressionSize == None || compressionSize.value != 1 { return None; }
    var compression := reader.TakeBytes(compressionSize.value);
    if compression == None || compression.value[0] != 0 { return None; }
    assert compression.value == [0];
    var list := Numbers(suites.value);
    return Some(list);
  }

  /** What stands before the extensions. */
  method ParseHead(reader: ByteReader, ctx: Context) returns (r: Option<Head>)
    requires reader.Valid() && ContextOk(ctx)
    modifies reader
    ensures reader.Valid()
    ensures r == None <==> ReadHead(old(reader.Rest()), ctx) == None
    ensures r.Some? ==> ReadHead(old(reader.Rest()), ctx) == Some(Read(r.value, reader.Rest()))
  {
    hide Read16;
    hide Read8;
    hide ReadSuites;
    var version := reader.TakeU16();
    if version == None || version.value != TLS_1_2 { return None; }
    var random := reader.TakeBytes(32);
    if random == None { return None; }
    var sessionSize := reader.TakeU8();
    if sessionSize == None || sessionSize.value > 32 { return None; }
    var session := reader.TakeBytes(sessionSize.value);
    if session == None { return None; }
    var suites := ParseSuites(reader);
    if suites == None || random.value != ctx.challenge { return None; }
    return Some(Head(session.value, suites.value));
  }

  /** What the extensions of an acceptable ClientHello offer: signature schemes and groups. */
  method ParseOffer(raws: seq<Extension>, domain: Bytes) returns (r: Option<(seq<int>, seq<int>)>)
    requires DistinctKinds(raws)
    ensures r == match TypedAll(raws, domain)
                 case None => None
                 case Some(typed) => if KindsOk(raws) then Some((SchemesOf(typed), GroupsOf(typed))) else None
  {
    hide TypedAll;
    hide HasKind;
    hide SchemesOf;
    hide GroupsOf;
    hide Name;
    hide List8;
    hide List16;
    hide Shares;
    hide Kinds;
    hide DistinctKinds;
    var serverName, versions := Find(raws, SERVER_NAME), Find(raws, SUPPORTED_VERSIONS);
    var signatures, keyShare := Find(raws, SIGNATURE_ALGORITHMS), Find(raws, KEY_SHARE);
    if serverName == None || versions == None || signatures == None || keyShare == None { return None; }
    TypedWhen(raws, domain);
    var nameOk := ParseServerName(serverName.value.data, domain);
    if !nameOk { return None; }
    var barred := HoldsForbidden(raws);
    if barred { return None; }
    var versionsOk := ParseVersions(versions.value.data);
    if !versionsOk { return None; }
    var schemes := ParseSchemes(signatures.value.data);
    if schemes == None { return None; }
    var groups := ParseShares(keyShare.value.data);
    if groups == None { return None; }
    SchemesFound(raws, domain, TypedAll(raws, domain).value);
    GroupsFound(raws, domain, TypedAll(raws, domain).value);
    return Some((schemes.value, groups.value));
  }

  /** What an acceptable ClientHello offers. */
  method ParseClientHello(body: Bytes, ctx: Context) returns (r: Option<Client>)
    requires ContextOk(ctx)
    ensures r == match Hello(body, ctx) case None => None case Some(h) => Some(ClientOf(h))
  {
    hide ReadHead;
    hide Extensions;
    hide TypedAll;
    hide KindsOk;
    hide SchemesOf;
    hide GroupsOf;
    var reader := new ByteReader(body);
    var head := ParseHead(reader, ctx);
    if head == None { return None; }
    ghost var rest := reader.Rest();
    var raws := TakeExtensions(reader);
    if raws == None { return None; }
    assert DistinctKinds(raws.value) by { ReadDistinct(rest, raws.value); }
    var offer := ParseOffer(raws.value, ctx.domain);
    if offer == None { return None; }
    return Some(Client(head.value.sessionId, head.value.suites, offer.value.0, offer.value.1));
  }

  lemma ReadDistinct(b: Bytes, raws: seq<Extension>)
    requires Extensions(b) == Some(raws)
    ensures DistinctKinds(raws)
  {
    hide Extensions;
    ExtensionsIff(b, raws);
  }

  method HoldsForbidden(raws: seq<Extension>) returns (found: bool)
    ensures found <==> exists kind | kind in FORBIDDEN :: HasKind(raws, kind)
  {
    hide HasKind;
    var i := 0;
    while i < |FORBIDDEN|
      invariant 0 <= i <= |FORBIDDEN| && forall k :: 0 <= k < i ==> !HasKind(raws, FORBIDDEN[k])
    {
      if Find(raws, FORBIDDEN[i]).Some? {
        assert FORBIDDEN[i] in FORBIDDEN;
        return true;
      }
      i := i + 1;
    }
    return false;
  }

  // -----------------------------------------------------------------
  // The messages of the server
  // -----------------------------------------------------------------

  method ParseServerHead(reader: ByteReader, client: Client) returns (ok: bool)
    requires reader.Valid()
    modifies reader
    ensures reader.Valid()
    ensures match ReadServerHead(old(reader.Rest()), client)
            case None => !ok
            case Some(head) => ok && reader.Rest() == head.rest
  {
    hide Read16;
    hide Read8;
    hide SuiteOk;
    var version := reader.TakeU16();
    if version == None || version.value != TLS_1_2 { return false; }
    var random := reader.TakeBytes(32);
    if random == None { return false; }
    var sessionSize := reader.TakeU8();
    if sessionSize == None || sessionSize.value > 32 { return false; }
    var session := reader.TakeBytes(sessionSize.value);
    if session == None { return false; }
    var suite := reader.TakeU16();
    if suite == None { return false; }
    var compression := reader.TakeU8();
    if compression == None || compression.value != 0 { return false; }
    return random.value != HELLO_RETRY_REQUEST && session.value == client.sessionId && SuiteOk(suite.value, client);
  }

  /** Whether the two extensions of a ServerHello are the right ones. */
  method ParseChosen(raws: seq<Extension>, client: Client) returns (ok: bool)
    ensures ok <==> Chosen(raws, client).Some?
  {
    hide ReadExtension;
    hide ShareOk;
    if |raws| != 2 { return false; }
    var versions, keyShare := Find(raws, SUPPORTED_VERSIONS), Find(raws, KEY_SHARE);
    if versions == None || keyShare == None { return false; }
    assert |versions.value.data| == 2 ==>
      (versions.value.data == U16(TLS_1_3) <==> Value16(versions.value.data) == TLS_1_3);
    if |versions.value.data| != 2 || Value16(versions.value.data) != TLS_1_3 { return false; }
    var reader := new ByteReader(keyShare.value.data);
    var share := TakeExtension(reader);
    if share == None { return false; }
    assert reader.Remaining() == 0 <==> reader.Rest() == [];
    return reader.Remaining() == 0 && ShareOk(share.value) && share.value.kind in client.groups;
  }

  method ParseServerHello(body: Bytes, client: Client) returns (ok: bool)
    ensures ok <==> Server(body, client).Some?
  {
    hide ReadServerHead;
    hide Extensions;
    hide Chosen;
    var reader := new ByteReader(body);
    var headOk := ParseServerHead(reader, client);
    if !headOk { return false; }
    var raws := TakeExtensions(reader);
    if raws == None { return false; }
    ok := ParseChosen(raws.value, client);
  }

  method ParseEncryptedExtensions(body: Bytes) returns (ok: bool)
    ensures ok <==> Encrypted(body).Some?
  {
    hide Extensions;
    var reader := new ByteReader(body);
    var raws := TakeExtensions(reader);
    return raws.Some? && Find(raws.value, EARLY_DATA) == None;
  }

  method TakeEntry(reader: ByteReader) returns (r: Option<Entry>)
    requires reader.Valid()
    modifies reader
    ensures reader.Valid()
    ensures r == None <==> ReadEntry(old(reader.Rest())) == None
    ensures r.Some? ==> ReadEntry(old(reader.Rest())) == Some(Read(r.value, reader.Rest()))
  {
    hide Read24;
    hide Read16;
    var size := reader.TakeU24();
    if size == None || size.value == 0 || size.value > MAX_CERTIFICATE_SIZE { return None; }
    var certificate := reader.TakeBytes(size.value);
    if certificate == None { return None; }
    var extensionsSize := reader.TakeU16();
    if extensionsSize == None { return None; }
    var extensions := reader.TakeBytes(extensionsSize.value);
    if extensions == None { return None; }
    return Some(Entry(certificate.value, extensions.value));
  }

  function ChainOf(entries: seq<Entry>): (chain: seq<Bytes>)
    ensures |chain| == |entries| && forall i :: 0 <= i < |chain| ==> chain[i] == entries[i].certificate
  {
    seq(|entries|, i requires 0 <= i < |entries| => entries[i].certificate)
  }

  /** The certificates of a list. */
  method EntriesIn(b: Bytes) returns (r: Option<seq<Bytes>>)
    ensures r == match EntriesFrom(b, []) case None => None case Some(entries) => Some(ChainOf(entries))
  {
    hide ReadEntry;
    var reader := new ByteReader(b);
    ghost var read: seq<Entry> := [];
    var chain: seq<Bytes> := [];
    while reader.Remaining() > 0
      invariant reader.Valid() && fresh(reader) && EntriesFrom(reader.Rest(), read) == EntriesFrom(b, [])
      invariant chain == ChainOf(read)
      decreases reader.Remaining()
    {
      var entry := TakeEntry(reader);
      if entry == None { return None; }
      chain := chain + [entry.value.certificate];
      if |chain| > MAX_CERTIFICATES { return None; }
      read := read + [entry.value];
    }
    return Some(chain);
  }

  method ParseCertificate(body: Bytes) returns (r: Option<seq<Bytes>>)
    ensures r == match Certificates(body) case None => None case Some(entries) => Some(ChainOf(entries))
  {
    hide Read24;
    hide Read8;
    hide EntriesFrom;
    var reader := new ByteReader(body);
    var contextSize := reader.TakeU8();
    if contextSize == None || contextSize.value != 0 { return None; }
    var context := reader.TakeBytes(contextSize.value);
    if context == None { return None; }
    var listSize := reader.TakeU24();
    if listSize == None || listSize.value == 0 { return None; }
    ghost var rest := reader.Rest();
    if listSize.value != reader.Remaining() {
      assert |rest| > listSize.value ==> rest[listSize.value..] != [];
      return None;
    }
    var list := reader.TakeBytes(listSize.value);
    if list == None { return None; }
    assert reader.Rest() == [];
    r := EntriesIn(list.value);
  }

  method ParseCertificateVerify(body: Bytes, client: Client) returns (r: Option<Verify>)
    ensures r == Verification(body, client)
  {
    hide Read16;
    var reader := new ByteReader(body);
    var scheme := reader.TakeU16();
    if scheme == None { return None; }
    var size := reader.TakeU16();
    if size == None || size.value == 0 { return None; }
    var signature := reader.TakeBytes(size.value);
    if signature == None { return None; }
    assert reader.Remaining() == 0 <==> reader.Rest() == [];
    if reader.Remaining() != 0 { return None; }
    var supported := scheme.value == ECDSA_SECP256R1_SHA256 || scheme.value == RSA_PSS_RSAE_SHA256 ||
                     scheme.value == RSA_PSS_PSS_SHA256;
    if !supported { return None; }
    if scheme.value !in client.schemes { return None; }
    return Some(Verify(scheme.value, signature.value));
  }

  // -----------------------------------------------------------------
  // The proof
  // -----------------------------------------------------------------

  /** A message with its header, and its body. */
  datatype Message = Message(full: Bytes, body: Bytes)

  /** The next message, which must be of a kind and within a size; its span is where the reader went. */
  method TakeHandshake(proof: ByteReader, kind: Byte, maximum: nat) returns (r: Option<Message>)
    requires proof.Valid() && maximum <= MAX_PROOF_SIZE
    modifies proof
    ensures proof.Valid()
    ensures r == None <==> ReadHandshake(old(proof.Rest()), kind, maximum) == None
    ensures r.Some? ==> ReadHandshake(old(proof.Rest()), kind, maximum) == Some(Read(r.value.body, proof.Rest()))
    ensures r.Some? ==> r.value.full == Handshake(kind, r.value.body)
  {
    hide Read24;
    hide Vec24;
    var start := proof.pos;
    ghost var rest := proof.Rest();
    var found := proof.TakeU8();
    if found == None { return None; }
    var size := proof.TakeU24();
    if size == None || found.value != kind || size.value + 4 > maximum { return None; }
    var body := proof.TakeBytes(size.value);
    if body == None { return None; }
    HandshakeIff(rest, kind, maximum, body.value, proof.Rest());
    assert rest == Handshake(kind, body.value) + proof.Rest();
    assert |Handshake(kind, body.value)| == proof.pos - start;
    assert rest[..proof.pos - start] == proof.bytes[start..proof.pos];
    return Some(Message(proof.bytes[start..proof.pos], body.value));
  }

  datatype Messages = Messages(hello: Message, server: Message, encrypted: Message, certificates: Message,
                               verify: Message)

  function BodiesIn(m: Messages): Bodies {
    Bodies(m.hello.body, m.server.body, m.encrypted.body, m.certificates.body, m.verify.body)
  }

  /** The spans of the five messages behind the version byte are all there is. */
  predicate Spans(b: Bytes, m: Messages) {
    b == [2] + m.hello.full + m.server.full + m.encrypted.full + m.certificates.full + m.verify.full
  }

  /** The messages of a proof. */
  method SplitProof(encoded: Bytes) returns (r: Option<Messages>)
    ensures r == None <==> Split(encoded) == None
    ensures r.Some? ==> Split(encoded) == Some(BodiesIn(r.value)) && Spans(encoded, r.value)
  {
    hide ReadHandshake;
    hide Handshake;
    if encoded == [] || |encoded| > MAX_PROOF_SIZE { return None; }
    var proof := new ByteReader(encoded);
    var version := proof.TakeU8();
    if version == None || version.value != 2 { return None; }
    var hello := TakeHandshake(proof, 1, MAX_CLIENT_HELLO_SIZE);
    if hello == None { return None; }
    var server := TakeHandshake(proof, 2, MAX_SERVER_HELLO_SIZE);
    if server == None { return None; }
    var encrypted := TakeHandshake(proof, 8, MAX_ENCRYPTED_EXTENSIONS_SIZE);
    if encrypted == None { return None; }
    var certificates := TakeHandshake(proof, 11, MAX_CERTIFICATE_MESSAGE_SIZE);
    if certificates == None { return None; }
    var verify := TakeHandshake(proof, 15, MAX_CERTIFICATE_VERIFY_SIZE);
    if verify == None { return None; }
    assert proof.Remaining() == 0 <==> proof.Rest() == [];
    if proof.Remaining() != 0 { return None; }
    var m := Messages(hello.value, server.value, encrypted.value, certificates.value, verify.value);
    SpansTile(encoded, m);
    return Some(m);
  }

  lemma SpansTile(b: Bytes, m: Messages)
    requires Split(b) == Some(BodiesIn(m))
    requires m.hello.full == Handshake(1, m.hello.body) && m.server.full == Handshake(2, m.server.body)
    requires m.encrypted.full == Handshake(8, m.encrypted.body) &&
             m.certificates.full == Handshake(11, m.certificates.body)
    requires m.verify.full == Handshake(15, m.verify.body)
    ensures Spans(b, m)
  {
    hide Handshake;
    hide Split;
    SplitIff(b, BodiesIn(m));
  }

  datatype ParsedProof = ParsedProof(messages: Messages, chain: seq<Bytes>, verify: Verify)

  /**
    Parse a proof. It is accepted exactly if it is the print of an acceptable transcript;
    the spans that are hashed tile it, and the chain and the signature are the transcript's.
  */
  method ParsePreparedProof(encoded: Bytes, ctx: Context) returns (r: Option<ParsedProof>)
    requires ContextOk(ctx)
    ensures r == None <==> Parse(encoded, ctx) == None
    ensures r.Some? ==> Spans(encoded, r.value.messages)
    ensures r.Some? ==> r.value.chain == ChainOf(Parse(encoded, ctx).value.entries)
    ensures r.Some? ==> r.value.verify == Parse(encoded, ctx).value.verify
  {
    hide Split;
    hide Hello;
    hide Server;
    hide Encrypted;
    hide Certificates;
    hide Verification;
    hide ClientOf;
    hide Spans;
    var messages := SplitProof(encoded);
    if messages == None { return None; }
    var m := messages.value;
    var client := ParseClientHello(m.hello.body, ctx);
    if client == None { return None; }
    var serverOk := ParseServerHello(m.server.body, client.value);
    if !serverOk { return None; }
    var encryptedOk := ParseEncryptedExtensions(m.encrypted.body);
    if !encryptedOk { return None; }
    var chain := ParseCertificate(m.certificates.body);
    if chain == None { return None; }
    var verify := ParseCertificateVerify(m.verify.body, client.value);
    if verify == None { return None; }
    return Some(ParsedProof(m, chain.value, verify.value));
  }
}
