/** What the server says (sections 4.1.3, 4.3.1, 4.4.2 and 4.4.3 of RFC 8446), read and printed. */
module ServerMessages {
  import opened Outcomes
  import opened Wire
  import opened TlsExtensions
  import opened ClientHello

  const AES_128_GCM_SHA256: int := 0x1301
  const CHACHA20_POLY1305_SHA256: int := 0x1303
  const ECDSA_SECP256R1_SHA256: int := 0x0403
  const RSA_PSS_RSAE_SHA256: int := 0x0804
  const RSA_PSS_PSS_SHA256: int := 0x0809

  const MAX_CERTIFICATE_SIZE: nat := 16384
  const MAX_CERTIFICATES: nat := 8

  const HELLO_RETRY_REQUEST: Bytes := [
    0xcf, 0x21, 0xad, 0x74, 0xe5, 0x9a, 0x61, 0x11, 0xbe, 0x1d, 0x8c, 0x02, 0x1e, 0x65, 0xb8, 0x91,
    0xc2, 0xa2, 0x11, 0x16, 0x7a, 0xbb, 0x8c, 0x5e, 0x07, 0x9e, 0x09, 0xe2, 0xc8, 0xa8, 0x33, 0x9c
  ]

  /** What the client has offered. */
  datatype Client = Client(sessionId: Bytes, suites: seq<int>, schemes: seq<int>, groups: seq<int>)

  function SchemesOf(extensions: seq<HelloExtension>): seq<int> {
    if extensions == [] then []
    else if extensions[0].Signatures? then extensions[0].schemes
    else SchemesOf(extensions[1..])
  }

  function Kinds(extensions: seq<Extension>): (kinds: seq<int>)
    ensures |kinds| == |extensions| && forall i :: 0 <= i < |kinds| ==> kinds[i] == extensions[i].kind
  {
    seq(|extensions|, i requires 0 <= i < |extensions| => extensions[i].kind)
  }

  function GroupsOf(extensions: seq<HelloExtension>): seq<int> {
    if extensions == [] then []
    else if extensions[0].KeyShares? then Kinds(extensions[0].shares)
    else GroupsOf(extensions[1..])
  }

  function ClientOf(h: ClientHello): Client {
    Client(h.head.sessionId, h.head.suites, SchemesOf(h.extensions), GroupsOf(h.extensions))
  }

  // -----------------------------------------------------------------
  // ServerHello
  // -----------------------------------------------------------------

  datatype ServerHello = ServerHello(random: Bytes, suite: int, versionFirst: bool, share: Extension)

  predicate SuiteOk(suite: int, client: Client) {
    (suite == AES_128_GCM_SHA256 || suite == CHACHA20_POLY1305_SHA256) && suite in client.suites
  }

  predicate ServerOk(s: ServerHello, client: Client) {
    |s.random| == 32 && s.random != HELLO_RETRY_REQUEST && |client.sessionId| <= 32 && SuiteOk(s.suite, client) &&
    ShareOk(s.share) && s.share.kind in client.groups
  }

  function ServerExtensions(s: ServerHello): seq<Extension> {
    var version, share := Extension(SUPPORTED_VERSIONS, U16(TLS_1_3)), Extension(KEY_SHARE, PrintExtension(s.share));
    if s.versionFirst then [version, share] else [share, version]
  }

  function PrintServer(s: ServerHello, client: Client): Bytes {
    U16(TLS_1_2) + (s.random + (Vec8(client.sessionId) + (U16(s.suite) + ([0] + PrintBlock(ServerExtensions(s))))))
  }

  /** The two extensions of a ServerHello; none if they are not the right ones. */
  function Chosen(raws: seq<Extension>, client: Client): Option<(bool, Extension)> {
    if |raws| != 2 then None
    else
      var version :- Find(raws, SUPPORTED_VERSIONS);
      var keyShare :- Find(raws, KEY_SHARE);
      var share :- ReadExtension(keyShare.data);
      if version.data != U16(TLS_1_3) || share.rest != [] || !ShareOk(share.value) ||
      share.value.kind !in client.groups then None
      else Some((raws[0].kind == SUPPORTED_VERSIONS, share.value))
  }

  function ReadServerHead(b: Bytes, client: Client): Option<Read<(Bytes, int)>> {
    var version :- Read16(b);
    var random :- ReadBytes(version.rest, 32);
    var session :- ReadVec8(random.rest);
    var suite :- Read16(session.rest);
    var compression :- Read8(suite.rest);
    if version.value != TLS_1_2 || |session.value| > 32 || compression.value != 0 ||
    random.value == HELLO_RETRY_REQUEST ||
       session.value != client.sessionId || !SuiteOk(suite.value, client)
    then None
    else Some(Read((random.value, suite.value), compression.rest))
  }

  function Server(b: Bytes, client: Client): Option<ServerHello> {
    var head :- ReadServerHead(b, client);
    var raws :- Extensions(head.rest);
    var chosen :- Chosen(raws, client);
    Some(ServerHello(head.value.0, head.value.1, chosen.0, chosen.1))
  }

  predicate ServerHeadOk(random: Bytes, suite: int, client: Client) {
    |random| == 32 && random != HELLO_RETRY_REQUEST && |client.sessionId| <= 32 && SuiteOk(suite, client)
  }

  function PrintServerHead(random: Bytes, suite: int, client: Client): Bytes {
    U16(TLS_1_2) + (random + (Vec8(client.sessionId) + (U16(suite) + [0])))
  }

  lemma ServerHeadIff(b: Bytes, random: Bytes, suite: int, client: Client, rest: Bytes)
    ensures ReadServerHead(b, client) == Some(Read((random, suite), rest)) <==>
            ServerHeadOk(random, suite, client) && b == PrintServerHead(random, suite, client) + rest
  {
    if ServerHeadOk(random, suite, client) && b == PrintServerHead(random, suite, client) + rest {
      ServerHeadReads(random, suite, client, rest);
    }
    if ReadServerHead(b, client).Some? { ServerHeadPrints(b, client); }
  }

  lemma ServerHeadReads(random: Bytes, suite: int, client: Client, rest: Bytes)
    requires ServerHeadOk(random, suite, client)
    ensures ReadServerHead(PrintServerHead(random, suite, client) + rest, client) == Some(Read((random, suite), rest))
  {
    hide Read16;
    hide ReadBytes;
    hide ReadVec8;
    hide U16;
    hide Vec8;
    var b4 := [0] + rest;
    var b3 := U16(suite) + b4;
    var b2 := Vec8(client.sessionId) + b3;
    var b1 := random + b2;
    var b0 := U16(TLS_1_2) + b1;
    assert PrintServerHead(random, suite, client) + rest == b0;
    Read16Iff(b0, TLS_1_2, b1);
    BytesIff(b1, 32, random, b2);
    Vec8Iff(b2, client.sessionId, b3);
    Read16Iff(b3, suite, b4);
    assert b4[1..] == rest;
  }

  lemma ServerHeadPrints(b: Bytes, client: Client)
    requires ReadServerHead(b, client).Some?
    ensures var r := ReadServerHead(b, client).value;
            ServerHeadOk(r.value.0, r.value.1, client) && b == PrintServerHead(r.value.0, r.value.1, client) + r.rest
  {
    hide Read16;
    hide ReadBytes;
    hide ReadVec8;
    hide U16;
    hide Vec8;
    var r := ReadServerHead(b, client).value;
    var version := Read16(b).value;
    var random := ReadBytes(version.rest, 32).value;
    var session := ReadVec8(random.rest).value;
    var suite := Read16(session.rest).value;
    Read16Iff(b, version.value, version.rest);
    BytesIff(version.rest, 32, random.value, random.rest);
    Vec8Iff(random.rest, session.value, session.rest);
    Read16Iff(session.rest, suite.value, suite.rest);
    assert suite.rest == [0] + r.rest;
    assert PrintServerHead(r.value.0, r.value.1, client) + r.rest ==
           U16(TLS_1_2) + (random.value + (Vec8(session.value) + (U16(suite.value) + ([0] + r.rest))));
  }

  lemma ChosenIff(raws: seq<Extension>, client: Client, s: ServerHello)
    requires DistinctKinds(raws)
    ensures Chosen(raws, client) == Some((s.versionFirst, s.share)) <==>
            raws == ServerExtensions(s) && ShareOk(s.share) && s.share.kind in client.groups
  {
    hide ReadExtension;
    hide PrintExtension;
    hide ShareOk;
    hide U16;
    hide Find;
    assert PrintExtension(s.share) + [] == PrintExtension(s.share);
    ExtensionIff(PrintExtension(s.share), s.share, []);
    assert ShareOk(s.share) ==> Fits(s.share) by { ShareFits(s.share); }
    if |raws| == 2 {
      FindAt(raws, 0);
      FindAt(raws, 1);
      if Chosen(raws, client).Some? {
        var keyShare := Find(raws, KEY_SHARE).value;
        var share := ReadExtension(keyShare.data).value;
        ExtensionIff(keyShare.data, share.value, share.rest);
        assert raws == [raws[0], raws[1]];
      }
    }
  }

  lemma ShareFits(share: Extension)
    ensures ShareOk(share) ==> Fits(share) && |PrintExtension(share)| < 0x100
  {
  }

  /** Theorem: a ServerHello is accepted exactly if it is the print of an acceptable message. */
  lemma ServerIff(b: Bytes, s: ServerHello, client: Client)
    ensures Server(b, client) == Some(s) <==> ServerOk(s, client) && b == PrintServer(s, client)
  {
    hide ReadServerHead;
    hide Extensions;
    hide PrintBlock;
    hide BlockFits;
    hide Chosen;
    hide ServerExtensions;
    hide ShareOk;
    hide SuiteOk;
    var raws := ServerExtensions(s);
    assert PrintServer(s, client) == PrintServerHead(s.random, s.suite, client) + PrintBlock(raws);
    ServerHeadIff(b, s.random, s.suite, client, PrintBlock(raws));
    ExtensionsIff(PrintBlock(raws), raws);
    assert DistinctKinds(raws) && (ShareOk(s.share) ==> BlockFits(raws)) by { ServerExtensionsFit(s); }
    ChosenIff(raws, client, s);
    if ReadServerHead(b, client).Some? {
      var head := ReadServerHead(b, client).value;
      ServerHeadIff(b, head.value.0, head.value.1, client, head.rest);
      if Extensions(head.rest).Some? {
        var found := Extensions(head.rest).value;
        ExtensionsIff(head.rest, found);
        assert DistinctKinds(found) by { BlockDistinct(found); }
        ChosenIff(found, client, s);
      }
    }
  }

  lemma BlockDistinct(extensions: seq<Extension>)
    requires BlockFits(extensions)
    ensures DistinctKinds(extensions)
  {
  }

  lemma ServerExtensionsFit(s: ServerHello)
    ensures DistinctKinds(ServerExtensions(s)) && (ShareOk(s.share) ==> BlockFits(ServerExtensions(s)))
  {
    hide PrintExtension;
    hide ShareOk;
    var raws := ServerExtensions(s);
    ShareFits(s.share);
    PrintLength(raws);
    PrintLength(raws[1..]);
    PrintLength(raws[1..][1..]);
  }

  // -----------------------------------------------------------------
  // EncryptedExtensions
  // -----------------------------------------------------------------

  function Encrypted(b: Bytes): Option<seq<Extension>> {
    var raws :- Extensions(b);
    if HasKind(raws, EARLY_DATA) then None else Some(raws)
  }

  predicate EncryptedOk(raws: seq<Extension>) {
    BlockFits(raws) && !HasKind(raws, EARLY_DATA)
  }

  lemma EncryptedIff(b: Bytes, raws: seq<Extension>)
    ensures Encrypted(b) == Some(raws) <==> EncryptedOk(raws) && b == PrintBlock(raws)
  {
    hide Extensions;
    hide PrintBlock;
    hide BlockFits;
    ExtensionsIff(b, raws);
  }

  // -----------------------------------------------------------------
  // Certificate
  // -----------------------------------------------------------------

  datatype Entry = Entry(certificate: Bytes, extensions: Bytes)

  predicate EntryOk(e: Entry) {
    0 < |e.certificate| <= MAX_CERTIFICATE_SIZE && |e.extensions| < 0x1_0000
  }

  predicate EntriesOk(entries: seq<Entry>) {
    |entries| <= MAX_CERTIFICATES && forall i :: 0 <= i < |entries| ==> EntryOk(entries[i])
  }

  function PrintEntry(e: Entry): Bytes {
    Vec24(e.certificate) + Vec16(e.extensions)
  }

  function PrintEntries(entries: seq<Entry>): Bytes {
    if entries == [] then [] else PrintEntry(entries[0]) + PrintEntries(entries[1..])
  }

  function ReadEntry(b: Bytes): (r: Option<Read<Entry>>)
    ensures r.Some? ==> |r.value.rest| < |b|
  {
    var certificate :- ReadVec24(b);
    var extensions :- ReadVec16(certificate.rest);
    if certificate.value == [] || |certificate.value| > MAX_CERTIFICATE_SIZE then None
    else Some(Read(Entry(certificate.value, extensions.value), extensions.rest))
  }

  function EntriesFrom(b: Bytes, read: seq<Entry>): Option<seq<Entry>>
    decreases |b|
  {
    if b == [] then Some(read)
    else
      var next :- ReadEntry(b);
      if |read| + 1 > MAX_CERTIFICATES then None else EntriesFrom(next.rest, read + [next.value])
  }

  lemma EntryIff(b: Bytes, e: Entry, rest: Bytes)
    ensures ReadEntry(b) == Some(Read(e, rest)) <==> EntryOk(e) && b == PrintEntry(e) + rest
  {
    hide ReadVec24;
    hide ReadVec16;
    hide Vec24;
    hide Vec16;
    assert PrintEntry(e) + rest == Vec24(e.certificate) + (Vec16(e.extensions) + rest);
    Vec24Iff(b, e.certificate, Vec16(e.extensions) + rest);
    Vec16Iff(Vec16(e.extensions) + rest, e.extensions, rest);
    if ReadVec24(b).Some? {
      var certificate := ReadVec24(b).value;
      Vec24Iff(b, certificate.value, certificate.rest);
      Vec16Iff(certificate.rest, e.extensions, rest);
    }
  }

  lemma {:induction false} EntriesFromIff(b: Bytes, read: seq<Entry>, all: seq<Entry>)
    requires EntriesOk(read)
    ensures EntriesFrom(b, read) == Some(all) <==> read <= all && b == PrintEntries(all[|read|..]) && EntriesOk(all)
    decreases |b|
  {
    hide ReadEntry;
    hide PrintEntry;
    hide EntryOk;
    if b == [] {
      if read <= all {
        EntriesPrint(all[|read|..]);
        assert all == read + all[|read|..];
        assert read == all ==> all[|read|..] == [];
      }
    } else {
      if ReadEntry(b).Some? {
        var next := ReadEntry(b).value;
        EntryIff(b, next.value, next.rest);
        if |read| + 1 <= MAX_CERTIFICATES {
          EntriesFromIff(next.rest, read + [next.value], all);
          NextEntry(b, read, all, next);
        }
      }
      if read < all && b == PrintEntries(all[|read|..]) {
        EntryIff(b, all[|read|], PrintEntries(all[|read|..][1..]));
      }
    }
  }

  lemma EntriesPrint(entries: seq<Entry>)
    ensures PrintEntries(entries) == [] ==> entries == []
  {
  }

  lemma NextEntry(b: Bytes, read: seq<Entry>, all: seq<Entry>, next: Read<Entry>)
    requires EntryOk(next.value) && b == PrintEntry(next.value) + next.rest
    ensures read + [next.value] <= all && next.rest == PrintEntries(all[|read| + 1..]) ==>
      b == PrintEntries(all[|read|..])
    ensures read < all && all[|read|] == next.value ==> read + [next.value] <= all
    ensures read < all && EntriesOk(all) && b == PrintEntries(all[|read|..]) ==>
              all[|read|] == next.value && next.rest == PrintEntries(all[|read| + 1..])
  {
    hide PrintEntry;
    hide EntryOk;
    if read < all {
      assert all[|read|..][1..] == all[|read| + 1..];
      assert all[..|read| + 1] == read + [all[|read|]];
      EntryIff(b, next.value, next.rest);
      if EntriesOk(all) && b == PrintEntries(all[|read|..]) {
        EntryIff(b, all[|read|], PrintEntries(all[|read| + 1..]));
      }
    }
  }

  predicate CertificatesOk(entries: seq<Entry>) {
    entries != [] && EntriesOk(entries) && |PrintEntries(entries)| < 0x100_0000
  }

  function PrintCertificates(entries: seq<Entry>): Bytes {
    Vec8([]) + Vec24(PrintEntries(entries))
  }

  /** The certificate entries of a message with an empty context; none if it is malformed. */
  function Certificates(b: Bytes): Option<seq<Entry>> {
    var context :- ReadVec8(b);
    var list :- ReadVec24(context.rest);
    if context.value != [] || list.value == [] || list.rest != [] then None else EntriesFrom(list.value, [])
  }

  lemma CertificatesIff(b: Bytes, entries: seq<Entry>)
    ensures Certificates(b) == Some(entries) <==> CertificatesOk(entries) && b == PrintCertificates(entries)
  {
    hide ReadVec8;
    hide ReadVec24;
    hide Vec8;
    hide Vec24;
    hide EntriesFrom;
    hide PrintEntries;
    var inner := PrintEntries(entries);
    assert Vec24(inner) + [] == Vec24(inner) && entries[0..] == entries;
    Vec8Iff(b, [], Vec24(inner));
    Vec24Iff(Vec24(inner), inner, []);
    EntriesFromIff(inner, [], entries);
    EntriesPrint(entries);
    EntriesPrintNothing();
    if ReadVec8(b).Some? {
      var context := ReadVec8(b).value;
      Vec8Iff(b, context.value, context.rest);
      if ReadVec24(context.rest).Some? {
        var list := ReadVec24(context.rest).value;
        Vec24Iff(context.rest, list.value, list.rest);
        EntriesFromIff(list.value, [], entries);
      }
    }
  }

  lemma EntriesPrintNothing()
    ensures PrintEntries([]) == []
  {
  }

  // -----------------------------------------------------------------
  // CertificateVerify
  // -----------------------------------------------------------------

  datatype Verify = Verify(scheme: int, signature: Bytes)

  predicate VerifyOk(v: Verify, client: Client) {
    v.scheme in {ECDSA_SECP256R1_SHA256, RSA_PSS_RSAE_SHA256, RSA_PSS_PSS_SHA256} && v.scheme in client.schemes &&
    0 < |v.signature| < 0x1_0000
  }

  function PrintVerify(v: Verify): Bytes {
    U16(v.scheme) + Vec16(v.signature)
  }

  function Verification(b: Bytes, client: Client): Option<Verify> {
    var scheme :- Read16(b);
    var signature :- ReadVec16(scheme.rest);
    if signature.rest == [] && VerifyOk(Verify(scheme.value, signature.value), client)
    then Some(Verify(scheme.value, signature.value)) else None
  }

  lemma VerificationIff(b: Bytes, v: Verify, client: Client)
    ensures Verification(b, client) == Some(v) <==> VerifyOk(v, client) && b == PrintVerify(v)
  {
    hide Read16;
    hide ReadVec16;
    hide U16;
    hide Vec16;
    assert Vec16(v.signature) + [] == Vec16(v.signature);
    Read16Iff(b, v.scheme, Vec16(v.signature));
    Vec16Iff(Vec16(v.signature), v.signature, []);
    if Read16(b).Some? {
      var scheme := Read16(b).value;
      Read16Iff(b, scheme.value, scheme.rest);
      Vec16Iff(scheme.rest, v.signature, []);
      if ReadVec16(scheme.rest).Some? {
        var signature := ReadVec16(scheme.rest).value;
        Vec16Iff(scheme.rest, signature.value, signature.rest);
      }
    }
  }
}
