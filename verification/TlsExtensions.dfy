/** Extension lists (section 4.2 of RFC 8446): kinds are two bytes, and none comes twice. */
module TlsExtensions {
  import opened Outcomes
  import opened Wire

  datatype Extension = Extension(kind: int, data: Bytes)

  predicate HasKind(extensions: seq<Extension>, kind: int) {
    exists i :: 0 <= i < |extensions| && extensions[i].kind == kind
  }

  predicate DistinctKinds(extensions: seq<Extension>) {
    forall i, k :: 0 <= i < k < |extensions| ==> extensions[i].kind != extensions[k].kind
  }

  /** What fits on the wire. */
  predicate Fits(e: Extension) {
    0 <= e.kind < 0x1_0000 && |e.data| < 0x1_0000
  }

  predicate AllFit(extensions: seq<Extension>) {
    forall i :: 0 <= i < |extensions| ==> Fits(extensions[i])
  }

  function PrintExtension(e: Extension): Bytes {
    U16(e.kind) + Vec16(e.data)
  }

  function PrintExtensions(extensions: seq<Extension>): Bytes {
    if extensions == [] then [] else PrintExtension(extensions[0]) + PrintExtensions(extensions[1..])
  }

  function ReadExtension(b: Bytes): (r: Option<Read<Extension>>)
    ensures r.Some? ==> |r.value.rest| < |b|
  {
    var kind :- Read16(b);
    var data :- ReadVec16(kind.rest);
    Some(Read(Extension(kind.value, data.value), data.rest))
  }

  lemma ExtensionIff(b: Bytes, e: Extension, rest: Bytes)
    ensures ReadExtension(b) == Some(Read(e, rest)) <==> Fits(e) && b == PrintExtension(e) + rest
  {
    hide Read16;
    hide ReadVec16;
    hide U16;
    hide Vec16;
    assert PrintExtension(e) + rest == U16(e.kind) + (Vec16(e.data) + rest);
    Read16Iff(b, e.kind, Vec16(e.data) + rest);
    Vec16Iff(Vec16(e.data) + rest, e.data, rest);
    if Read16(b).Some? {
      var kind := Read16(b).value;
      Read16Iff(b, kind.value, kind.rest);
      Vec16Iff(kind.rest, e.data, rest);
    }
  }

  /** The extensions that bytes hold, after those already read; none if they are cut short or repeat a kind. */
  function ExtensionsFrom(b: Bytes, read: seq<Extension>): Option<seq<Extension>>
    decreases |b|
  {
    if b == [] then Some(read)
    else
      var next :- ReadExtension(b);
      if HasKind(read, next.value.kind) then None else ExtensionsFrom(next.rest, read + [next.value])
  }

  lemma {:induction false} ExtensionsFromIff(b: Bytes, read: seq<Extension>, all: seq<Extension>)
    requires DistinctKinds(read) && AllFit(read)
    ensures ExtensionsFrom(b, read) == Some(all) <==>
            read <= all && b == PrintExtensions(all[|read|..]) && DistinctKinds(all) && AllFit(all)
    decreases |b|
  {
    hide ReadExtension;
    hide PrintExtension;
    hide Fits;
    if b == [] {
      if read <= all {
        PrintsSomething(all[|read|..]);
        assert all == read + all[|read|..];
        assert read == all ==> all[|read|..] == [];
      }
    } else {
      if ReadExtension(b).Some? {
        var next := ReadExtension(b).value;
        ExtensionIff(b, next.value, next.rest);
        if !HasKind(read, next.value.kind) {
          ExtensionsFromIff(next.rest, read + [next.value], all);
          NextOf(b, read, all, next);
        }
      }
      if read < all && b == PrintExtensions(all[|read|..]) {
        ExtensionIff(b, all[|read|], PrintExtensions(all[|read|..][1..]));
      }
    }
  }

  lemma PrintsSomething(extensions: seq<Extension>)
    ensures PrintExtensions(extensions) == [] ==> extensions == []
  {
  }

  /** What follows the first extension. */
  lemma NextOf(b: Bytes, read: seq<Extension>, all: seq<Extension>, next: Read<Extension>)
    requires Fits(next.value) && b == PrintExtension(next.value) + next.rest
    ensures read + [next.value] <= all && next.rest == PrintExtensions(all[|read| + 1..]) ==>
      b == PrintExtensions(all[|read|..])
    ensures read < all && all[|read|] == next.value ==> read + [next.value] <= all
    ensures read < all && AllFit(all) && b == PrintExtensions(all[|read|..]) ==>
              all[|read|] == next.value && next.rest == PrintExtensions(all[|read| + 1..])
  {
    hide PrintExtension;
    hide Fits;
    if read < all {
      assert all[|read|..][1..] == all[|read| + 1..];
      assert all[..|read| + 1] == read + [all[|read|]];
      ExtensionIff(b, next.value, next.rest);
      if AllFit(all) && b == PrintExtensions(all[|read|..]) {
        ExtensionIff(b, all[|read|], PrintExtensions(all[|read| + 1..]));
      }
    }
  }

  /** A whole extension block, with nothing behind it. */
  function Extensions(b: Bytes): Option<seq<Extension>> {
    var block :- ReadVec16(b);
    if block.rest != [] then None else ExtensionsFrom(block.value, [])
  }

  function PrintBlock(extensions: seq<Extension>): Bytes {
    Vec16(PrintExtensions(extensions))
  }

  predicate BlockFits(extensions: seq<Extension>) {
    DistinctKinds(extensions) && AllFit(extensions) && |PrintExtensions(extensions)| < 0x1_0000
  }

  /** Theorem: reading and printing a block undo each other. */
  lemma ExtensionsIff(b: Bytes, extensions: seq<Extension>)
    ensures Extensions(b) == Some(extensions) <==> BlockFits(extensions) && b == PrintBlock(extensions)
  {
    hide ReadVec16;
    hide Vec16;
    hide PrintExtensions;
    hide ExtensionsFrom;
    var inner := PrintExtensions(extensions);
    assert Vec16(inner) + [] == Vec16(inner);
    Vec16Iff(b, inner, []);
    ExtensionsFromIff(inner, [], extensions);
    assert extensions[0..] == extensions;
    if ReadVec16(b).Some? {
      var block := ReadVec16(b).value;
      Vec16Iff(b, block.value, block.rest);
      ExtensionsFromIff(block.value, [], extensions);
    }
  }

  /** The extension of a kind. */
  function Find(extensions: seq<Extension>, kind: int): (r: Option<Extension>)
    ensures r.Some? ==> r.value in extensions && r.value.kind == kind
    ensures r.None? <==> !HasKind(extensions, kind)
  {
    if extensions == [] then None
    else if extensions[0].kind == kind then Some(extensions[0])
    else
      assert extensions == [extensions[0]] + extensions[1..];
      Find(extensions[1..], kind)
  }

  lemma FindAt(extensions: seq<Extension>, i: nat)
    requires DistinctKinds(extensions) && i < |extensions|
    ensures Find(extensions, extensions[i].kind) == Some(extensions[i])
  {
  }

  /** Read a block with a reader. */
  method TakeExtensions(message: ByteReader) returns (r: Option<seq<Extension>>)
    requires message.Valid()
    modifies message
    ensures message.Valid() && r == Extensions(old(message.Rest()))
    ensures r.Some? ==> message.Rest() == []
  {
    hide Read16;
    hide HasKind;
    hide ReadExtension;
    ghost var start := message.Rest();
    var size := message.TakeU16();
    if size == None || message.Remaining() != size.value {
      assert ReadVec16(start).Some? ==> |ReadVec16(start).value.rest| > 0;
      return None;
    }
    var encoded := message.TakeBytes(size.value);
    if encoded == None { return None; }
    assert Extensions(start) == ExtensionsFrom(encoded.value, []);
    var reader := new ByteReader(encoded.value);
    var extensions: seq<Extension> := [];
    while reader.Remaining() > 0
      invariant reader.Valid() && fresh(reader) && ExtensionsFrom(reader.Rest(), extensions) == Extensions(start)
      invariant message.Valid() && message.Rest() == []
      decreases reader.Remaining()
    {
      var next := TakeExtension(reader);
      if next == None || HasKind(extensions, next.value.kind) { return None; }
      extensions := extensions + [next.value];
    }
    return Some(extensions);
  }

  method TakeExtension(reader: ByteReader) returns (r: Option<Extension>)
    requires reader.Valid()
    modifies reader
    ensures reader.Valid()
    ensures r == None <==> ReadExtension(old(reader.Rest())) == None
    ensures r.Some? ==> ReadExtension(old(reader.Rest())) == Some(Read(r.value, reader.Rest()))
  {
    hide Read16;
    var kind := reader.TakeU16();
    if kind == None { return None; }
    var size := reader.TakeU16();
    if size == None { return None; }
    var data := reader.TakeBytes(size.value);
    if data == None { return None; }
    return Some(Extension(kind.value, data.value));
  }
}
