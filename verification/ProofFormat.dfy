/**
  A proof: a version byte and five handshake messages. What is accepted is exactly
  what an acceptable transcript prints, and it is read back as that transcript.
*/
module ProofFormat {
  import opened Outcomes
  import opened Wire
  import opened TlsExtensions
  import opened ClientHello
  import opened ServerMessages

  const MAX_PROOF_SIZE: nat := 65536
  const MAX_CLIENT_HELLO_SIZE: nat := 4096
  const MAX_SERVER_HELLO_SIZE: nat := 2048
  const MAX_ENCRYPTED_EXTENSIONS_SIZE: nat := 4096
  const MAX_CERTIFICATE_MESSAGE_SIZE: nat := 49152
  const MAX_CERTIFICATE_VERIFY_SIZE: nat := 8192

  datatype Transcript = Transcript(
    hello: ClientHello, server: ServerHello, encrypted: seq<Extension>, entries: seq<Entry>, verify: Verify)

  // -----------------------------------------------------------------
  // Handshake messages
  // -----------------------------------------------------------------

  function Handshake(kind: Byte, body: Bytes): Bytes {
    [kind] + Vec24(body)
  }

  function ReadHandshake(b: Bytes, kind: Byte, maximum: nat): Option<Read<Bytes>> {
    var found :- Read8(b);
    var body :- ReadVec24(found.rest);
    if found.value != kind || |body.value| + 4 > maximum then None else Some(body)
  }

  lemma HandshakeIff(b: Bytes, kind: Byte, maximum: nat, body: Bytes, rest: Bytes)
    requires maximum <= MAX_PROOF_SIZE
    ensures ReadHandshake(b, kind, maximum) == Some(Read(body, rest)) <==>
            |body| + 4 <= maximum && b == Handshake(kind, body) + rest
  {
    hide ReadVec24;
    hide Vec24;
    if b != [] {
      Vec24Iff(b[1..], body, rest);
      assert b == [b[0]] + b[1..];
      if ReadHandshake(b, kind, maximum) == Some(Read(body, rest)) {
        assert b == Handshake(kind, body) + rest;
      }
    }
    if b == Handshake(kind, body) + rest { assert b[1..] == Vec24(body) + rest; }
  }

  /** The bodies of the five messages. */
  datatype Bodies = Bodies(hello: Bytes, server: Bytes, encrypted: Bytes, certificates: Bytes, verify: Bytes)

  predicate BodiesFit(m: Bodies) {
    |m.hello| + 4 <= MAX_CLIENT_HELLO_SIZE && |m.server| + 4 <= MAX_SERVER_HELLO_SIZE &&
    |m.encrypted| + 4 <= MAX_ENCRYPTED_EXTENSIONS_SIZE && |m.certificates| + 4 <= MAX_CERTIFICATE_MESSAGE_SIZE &&
    |m.verify| + 4 <= MAX_CERTIFICATE_VERIFY_SIZE
  }

  /** The version byte and the five messages, one behind the other. */
  function Tiled(m: Bodies): Bytes {
    [2] + (Handshake(1, m.hello) + (Handshake(2, m.server) + (Handshake(8, m.encrypted) +
      (Handshake(11, m.certificates) + Handshake(15, m.verify)))))
  }

  /** Split a proof into its messages; none if it is not five messages of the right kinds and sizes and nothing else. */
  function Split(b: Bytes): Option<Bodies> {
    var version :- Read8(b);
    var hello :- ReadHandshake(version.rest, 1, MAX_CLIENT_HELLO_SIZE);
    var server :- ReadHandshake(hello.rest, 2, MAX_SERVER_HELLO_SIZE);
    var encrypted :- ReadHandshake(server.rest, 8, MAX_ENCRYPTED_EXTENSIONS_SIZE);
    var certificates :- ReadHandshake(encrypted.rest, 11, MAX_CERTIFICATE_MESSAGE_SIZE);
    var verify :- ReadHandshake(certificates.rest, 15, MAX_CERTIFICATE_VERIFY_SIZE);
    if |b| > MAX_PROOF_SIZE || version.value != 2 || verify.rest != [] then None
    else Some(Bodies(hello.value, server.value, encrypted.value, certificates.value, verify.value))
  }

  /** The messages tile the proof. */
  lemma SplitIff(b: Bytes, m: Bodies)
    ensures Split(b) == Some(m) <==> |b| <= MAX_PROOF_SIZE && BodiesFit(m) && b == Tiled(m)
  {
    if |b| <= MAX_PROOF_SIZE && BodiesFit(m) && b == Tiled(m) { SplitReads(b, m); }
    if Split(b).Some? { SplitTiles(b); }
  }

  lemma SplitReads(b: Bytes, m: Bodies)
    requires |b| <= MAX_PROOF_SIZE && BodiesFit(m) && b == Tiled(m)
    ensures Split(b) == Some(m)
  {
    hide ReadHandshake;
    hide Handshake;
    var b5 := Handshake(15, m.verify);
    var b4 := Handshake(11, m.certificates) + b5;
    var b3 := Handshake(8, m.encrypted) + b4;
    var b2 := Handshake(2, m.server) + b3;
    var b1 := Handshake(1, m.hello) + b2;
    assert b == [2] + b1 && b[1..] == b1 && b5 + [] == b5;
    HandshakeIff(b1, 1, MAX_CLIENT_HELLO_SIZE, m.hello, b2);
    HandshakeIff(b2, 2, MAX_SERVER_HELLO_SIZE, m.server, b3);
    HandshakeIff(b3, 8, MAX_ENCRYPTED_EXTENSIONS_SIZE, m.encrypted, b4);
    HandshakeIff(b4, 11, MAX_CERTIFICATE_MESSAGE_SIZE, m.certificates, b5);
    HandshakeIff(b5, 15, MAX_CERTIFICATE_VERIFY_SIZE, m.verify, []);
  }

  lemma SplitTiles(b: Bytes)
    requires Split(b).Some?
    ensures |b| <= MAX_PROOF_SIZE && BodiesFit(Split(b).value) && b == Tiled(Split(b).value)
  {
    hide ReadHandshake;
    hide Handshake;
    var m := Split(b).value;
    var b1 := b[1..];
    var hello := ReadHandshake(b1, 1, MAX_CLIENT_HELLO_SIZE).value;
    var server := ReadHandshake(hello.rest, 2, MAX_SERVER_HELLO_SIZE).value;
    var encrypted := ReadHandshake(server.rest, 8, MAX_ENCRYPTED_EXTENSIONS_SIZE).value;
    var certificates := ReadHandshake(encrypted.rest, 11, MAX_CERTIFICATE_MESSAGE_SIZE).value;
    HandshakeIff(b1, 1, MAX_CLIENT_HELLO_SIZE, m.hello, hello.rest);
    HandshakeIff(hello.rest, 2, MAX_SERVER_HELLO_SIZE, m.server, server.rest);
    HandshakeIff(server.rest, 8, MAX_ENCRYPTED_EXTENSIONS_SIZE, m.encrypted, encrypted.rest);
    HandshakeIff(encrypted.rest, 11, MAX_CERTIFICATE_MESSAGE_SIZE, m.certificates, certificates.rest);
    HandshakeIff(certificates.rest, 15, MAX_CERTIFICATE_VERIFY_SIZE, m.verify, []);
    assert b == [2] + b1 && Handshake(15, m.verify) + [] == Handshake(15, m.verify);
  }

  // -----------------------------------------------------------------
  // Proofs
  // -----------------------------------------------------------------

  function BodiesOf(t: Transcript, ctx: Context): Bodies {
    Bodies(PrintHello(t.hello, ctx), PrintServer(t.server, ClientOf(t.hello)), PrintBlock(t.encrypted),
           PrintCertificates(t.entries), PrintVerify(t.verify))
  }

  function Print(t: Transcript, ctx: Context): Bytes {
    Tiled(BodiesOf(t, ctx))
  }

  /** A transcript that a proof may hold: every message is acceptable and within its limit. */
  predicate TranscriptOk(t: Transcript, ctx: Context) {
    HelloOk(t.hello, ctx) && ServerOk(t.server, ClientOf(t.hello)) && EncryptedOk(t.encrypted) &&
    CertificatesOk(t.entries) && VerifyOk(t.verify, ClientOf(t.hello)) &&
    BodiesFit(BodiesOf(t, ctx)) && |Print(t, ctx)| <= MAX_PROOF_SIZE
  }

  function ParseBodies(m: Bodies, ctx: Context): Option<Transcript> {
    var hello :- Hello(m.hello, ctx);
    var server :- Server(m.server, ClientOf(hello));
    var encrypted :- Encrypted(m.encrypted);
    var entries :- Certificates(m.certificates);
    var verify :- Verification(m.verify, ClientOf(hello));
    Some(Transcript(hello, server, encrypted, entries, verify))
  }

  /** The transcript that a proof holds; none if it is not acceptable. */
  function Parse(b: Bytes, ctx: Context): Option<Transcript> {
    var bodies :- Split(b);
    ParseBodies(bodies, ctx)
  }

  lemma ParseBodiesIff(m: Bodies, t: Transcript, ctx: Context)
    requires ContextOk(ctx)
    ensures ParseBodies(m, ctx) == Some(t) <==>
            HelloOk(t.hello, ctx) && ServerOk(t.server, ClientOf(t.hello)) && EncryptedOk(t.encrypted) &&
            CertificatesOk(t.entries) && VerifyOk(t.verify, ClientOf(t.hello)) && m == BodiesOf(t, ctx)
  {
    hide Hello;
    hide HelloOk;
    hide PrintHello;
    hide Server;
    hide ServerOk;
    hide PrintServer;
    hide Encrypted;
    hide EncryptedOk;
    hide PrintBlock;
    hide Certificates;
    hide CertificatesOk;
    hide PrintCertificates;
    hide Verification;
    hide VerifyOk;
    hide PrintVerify;
    hide ClientOf;
    HelloIff(m.hello, t.hello, ctx);
    ServerIff(m.server, t.server, ClientOf(t.hello));
    EncryptedIff(m.encrypted, t.encrypted);
    CertificatesIff(m.certificates, t.entries);
    VerificationIff(m.verify, t.verify, ClientOf(t.hello));
  }

  /**
    Theorem: parsing and printing undo each other. A proof is accepted as a transcript
    exactly if the transcript is acceptable and the proof is its print, byte for byte.
  */
  lemma ParseIff(b: Bytes, t: Transcript, ctx: Context)
    requires ContextOk(ctx)
    ensures Parse(b, ctx) == Some(t) <==> TranscriptOk(t, ctx) && b == Print(t, ctx)
  {
    hide Split;
    hide ParseBodies;
    hide BodiesOf;
    hide BodiesFit;
    hide Tiled;
    hide HelloOk;
    hide ServerOk;
    hide EncryptedOk;
    hide CertificatesOk;
    hide VerifyOk;
    SplitIff(b, BodiesOf(t, ctx));
    ParseBodiesIff(BodiesOf(t, ctx), t, ctx);
    if Split(b).Some? {
      SplitIff(b, Split(b).value);
      ParseBodiesIff(Split(b).value, t, ctx);
    }
  }

  /** Corollary: an accepted proof prints back to itself. */
  lemma ParsedPrintsBack(b: Bytes, ctx: Context)
    requires ContextOk(ctx) && Parse(b, ctx).Some?
    ensures TranscriptOk(Parse(b, ctx).value, ctx) && Print(Parse(b, ctx).value, ctx) == b
  {
    ParseIff(b, Parse(b, ctx).value, ctx);
  }

  /** Corollary: what an acceptable transcript prints is accepted and read back as it. */
  lemma PrintedParsesBack(t: Transcript, ctx: Context)
    requires ContextOk(ctx) && TranscriptOk(t, ctx)
    ensures Parse(Print(t, ctx), ctx) == Some(t)
  {
    ParseIff(Print(t, ctx), t, ctx);
  }

  /** Corollary: no proof has two readings, and no two proofs the same one. */
  lemma OneReading(a: Transcript, b: Transcript, ctx: Context)
    requires ContextOk(ctx) && TranscriptOk(a, ctx) && TranscriptOk(b, ctx)
    ensures Print(a, ctx) == Print(b, ctx) <==> a == b
  {
    ParseIff(Print(a, ctx), a, ctx);
    ParseIff(Print(b, ctx), b, ctx);
  }
}
