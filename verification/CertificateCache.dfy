/**
  The certificate cache of a worker: four entries in an array, oldest first, within
  two bounds on bytes. Parsing is a function of the message that stays unexplained.
*/
module CertificateCache {
  import opened Outcomes
  import opened Wire

  const MAX_ENTRIES: nat := 4
  const MAX_BYTES: nat := 65536
  const MAX_ESTIMATED: nat := 262144

  /** A parsed chain: what it is, and what its certificates and its structures take. */
  datatype Chain = Chain(content: int, derBytes: nat, structuralBytes: nat)

  datatype Entry = Entry(message: Bytes, parsed: Option<Chain>, bytes: nat, estimated: nat)

  const EMPTY: Entry := Entry([], None, 0, 0)

  function BytesOf(entries: seq<Entry>): nat {
    if entries == [] then 0 else entries[0].bytes + BytesOf(entries[1..])
  }

  function EstimatedOf(entries: seq<Entry>): nat {
    if entries == [] then 0 else entries[0].estimated + EstimatedOf(entries[1..])
  }

  lemma {:induction false} SumsJoin(a: seq<Entry>, b: seq<Entry>)
    ensures BytesOf(a + b) == BytesOf(a) + BytesOf(b) && EstimatedOf(a + b) == EstimatedOf(a) + EstimatedOf(b)
  {
    if a == [] {
      assert a + b == b;
    } else {
      assert (a + b)[1..] == a[1..] + b;
      SumsJoin(a[1..], b);
    }
  }

  lemma FirstSums(entries: seq<Entry>)
    requires entries != []
    ensures BytesOf(entries) == entries[0].bytes + BytesOf(entries[1..])
    ensures EstimatedOf(entries) == entries[0].estimated + EstimatedOf(entries[1..])
  {
  }

  lemma SumsOne(e: Entry)
    ensures BytesOf([e]) == e.bytes && EstimatedOf([e]) == e.estimated
  {
  }

  // -----------------------------------------------------------------
  // The entries as a sequence
  // -----------------------------------------------------------------

  /** Whether a candidate fits beside the entries. */
  predicate Fits(entries: seq<Entry>, candidate: Entry) {
    |entries| < MAX_ENTRIES && BytesOf(entries) + candidate.bytes <= MAX_BYTES &&
    EstimatedOf(entries) + candidate.estimated <= MAX_ESTIMATED
  }

  /** Whether a candidate fits in an empty cache. */
  predicate Admissible(candidate: Entry) {
    candidate.bytes <= MAX_BYTES && candidate.estimated <= MAX_ESTIMATED
  }

  /** Oldest entries go until the candidate fits. */
  function Evicted(entries: seq<Entry>, candidate: Entry): (rest: seq<Entry>)
    ensures |rest| <= |entries| && rest == entries[|entries| - |rest|..]
  {
    if entries == [] || Fits(entries, candidate) then entries else Evicted(entries[1..], candidate)
  }

  /** Entries beside which a candidate has no room: four already, or too many bytes. */
  predicate Crowded(entries: seq<Entry>, candidate: Entry) {
    |entries| >= 4 || BytesOf(entries) + candidate.bytes > 65536 ||
    EstimatedOf(entries) + candidate.estimated > 262144
  }

  /** Theorem: after eviction an admissible candidate fits, and no more has gone than had to. */
  lemma {:induction false} EvictedFits(entries: seq<Entry>, candidate: Entry)
    requires candidate.bytes <= 65536 && candidate.estimated <= 262144
    ensures Fits(Evicted(entries, candidate), candidate)
    ensures forall k :: 0 <= k < |entries| - |Evicted(entries, candidate)| ==> Crowded(entries[k..], candidate)
  {
    if entries != [] && !Fits(entries, candidate) {
      EvictedFits(entries[1..], candidate);
      forall k | 0 <= k < |entries| - |Evicted(entries, candidate)| ensures Crowded(entries[k..], candidate) {
        if k == 0 { assert entries[0..] == entries; } else { assert entries[k..] == entries[1..][k - 1..]; }
      }
    }
  }

  function Without(entries: seq<Entry>, i: nat): seq<Entry>
    requires i < |entries|
  {
    entries[..i] + entries[i + 1..]
  }

  /** An entry that is used becomes the newest. */
  function Touched(entries: seq<Entry>, i: nat): seq<Entry>
    requires i < |entries|
  {
    Without(entries, i) + [entries[i]]
  }

  predicate DistinctMessages(entries: seq<Entry>) {
    forall i, k :: 0 <= i < k < |entries| ==> entries[i].message != entries[k].message
  }

  predicate Holds(entries: seq<Entry>, message: Bytes) {
    exists i :: 0 <= i < |entries| && entries[i].message == message
  }

  function PlaceOf(entries: seq<Entry>, message: Bytes): (i: nat)
    requires Holds(entries, message)
    ensures i < |entries| && entries[i].message == message
  {
    if entries[0].message == message then 0
    else
      assert Holds(entries[1..], message) by { HoldsRest(entries, message); }
      1 + PlaceOf(entries[1..], message)
  }

  lemma HoldsRest(entries: seq<Entry>, message: Bytes)
    requires Holds(entries, message) && entries[0].message != message
    ensures Holds(entries[1..], message)
  {
    var i :| 0 <= i < |entries| && entries[i].message == message;
    assert entries[1..][i - 1] == entries[i];
  }

  lemma {:induction false} PlaceIs(entries: seq<Entry>, message: Bytes, i: nat)
    requires i < |entries| && entries[i].message == message && forall k :: 0 <= k < i ==> entries[k].message != message
    ensures Holds(entries, message) && PlaceOf(entries, message) == i
  {
    if i > 0 {
      HoldsRest(entries, message);
      PlaceIs(entries[1..], message, i - 1);
    }
  }

  lemma EvictedHolds(entries: seq<Entry>, candidate: Entry, message: Bytes)
    ensures Holds(Evicted(entries, candidate), message) ==> Holds(entries, message)
  {
    var rest := Evicted(entries, candidate);
    if Holds(rest, message) {
      var i :| 0 <= i < |rest| && rest[i].message == message;
      assert entries[i + |entries| - |rest|] == rest[i];
    }
  }

  lemma TouchedLast(entries: seq<Entry>, i: nat)
    requires i < |entries|
    ensures |Touched(entries, i)| == |entries| && Touched(entries, i)[|entries| - 1] == entries[i]
  {
  }

  /** An entry is charged for all that it keeps: its message, the certificates and their structures. */
  predicate Charged(e: Entry) {
    e.parsed.Some? && e.bytes >= |e.message| + e.parsed.value.derBytes &&
    e.estimated >= e.bytes + e.parsed.value.structuralBytes
  }

  /** Every entry holds what parsing its message gives, and is charged for it. */
  predicate Memo(entries: seq<Entry>, parse: Bytes -> Option<Chain>) {
    forall i :: 0 <= i < |entries| ==> Charged(entries[i]) && parse(entries[i].message) == entries[i].parsed
  }

  /** Entries are in the order of their last use. */
  predicate ByRecency(entries: seq<Entry>, lastUse: map<Bytes, nat>, clock: nat) {
    (forall i :: 0 <= i < |entries| ==> entries[i].message in lastUse && lastUse[entries[i].message] < clock) &&
    forall i, k :: 0 <= i < k < |entries| && entries[i].message in lastUse && entries[k].message in lastUse ==>
      lastUse[entries[i].message] < lastUse[entries[k].message]
  }

  /** What holds of the entries at every time. */
  predicate Good(entries: seq<Entry>, parse: Bytes -> Option<Chain>, lastUse: map<Bytes, nat>, clock: nat) {
    DistinctMessages(entries) && Memo(entries, parse) && ByRecency(entries, lastUse, clock) &&
    |entries| <= MAX_ENTRIES && BytesOf(entries) <= MAX_BYTES && EstimatedOf(entries) <= MAX_ESTIMATED
  }

  /** What entries keep: the bytes of their messages and certificates, and with their structures. */
  function KeptBytes(entries: seq<Entry>): nat {
    if entries == [] then 0
    else
      |entries[0].message| + (if entries[0].parsed.Some? then entries[0].parsed.value.derBytes else 0) +
      KeptBytes(entries[1..])
  }

  function KeptWithStructures(entries: seq<Entry>): nat {
    if entries == [] then 0
    else
      |entries[0].message| +
      (if entries[0].parsed.None? then 0
       else entries[0].parsed.value.derBytes + entries[0].parsed.value.structuralBytes) +
      KeptWithStructures(entries[1..])
  }

  lemma {:induction false} KeptCharged(entries: seq<Entry>)
    requires forall i :: 0 <= i < |entries| ==> Charged(entries[i])
    ensures KeptBytes(entries) <= BytesOf(entries) && KeptWithStructures(entries) <= EstimatedOf(entries)
  {
    if entries != [] {
      assert forall i :: 0 <= i < |entries[1..]| ==> entries[1..][i] == entries[i + 1];
      assert Charged(entries[0]);
      KeptCharged(entries[1..]);
    }
  }

  /** Theorem: what the cache keeps stays within its bounds, however it has come about. */
  lemma KeptWithin(entries: seq<Entry>, parse: Bytes -> Option<Chain>, lastUse: map<Bytes, nat>, clock: nat)
    requires Good(entries, parse, lastUse, clock)
    ensures |entries| <= 4 && KeptBytes(entries) <= 65536 && KeptWithStructures(entries) <= 262144
  {
    KeptCharged(entries);
  }

  lemma TouchedSums(entries: seq<Entry>, i: nat)
    requires i < |entries|
    ensures BytesOf(Touched(entries, i)) == BytesOf(entries) && EstimatedOf(Touched(entries, i)) == EstimatedOf(entries)
  {
    hide BytesOf;
    hide EstimatedOf;
    var a, x, c := entries[..i], [entries[i]], entries[i + 1..];
    SumsJoin(a, c);
    SumsJoin(a + c, x);
    SumsJoin(a, x + c);
    SumsJoin(x, c);
    assert entries == a + (x + c);
  }

  lemma TouchedGood(entries: seq<Entry>, i: nat, parse: Bytes -> Option<Chain>, lastUse: map<Bytes, nat>, clock: nat)
    requires Good(entries, parse, lastUse, clock) && i < |entries|
    ensures Good(Touched(entries, i), parse, lastUse[entries[i].message := clock], clock + 1)
  {
    hide BytesOf;
    hide EstimatedOf;
    TouchedSums(entries, i);
    TouchedAt(entries, i);
    assert DistinctMessages(Touched(entries, i)) && Memo(Touched(entries, i), parse) by { hide ByRecency; }
    TouchedRecency(entries, i, lastUse, clock);
  }

  /** Where the entries go when one becomes the newest. */
  lemma TouchedAt(entries: seq<Entry>, i: nat)
    requires i < |entries|
    ensures |Touched(entries, i)| == |entries|
    ensures forall k :: 0 <= k < |entries| ==>
              Touched(entries, i)[k] == entries[if k == |entries| - 1 then i else if k < i then k else k + 1]
  {
  }

  lemma TouchedRecency(entries: seq<Entry>, i: nat, lastUse: map<Bytes, nat>, clock: nat)
    requires DistinctMessages(entries) && ByRecency(entries, lastUse, clock) && i < |entries|
    ensures ByRecency(Touched(entries, i), lastUse[entries[i].message := clock], clock + 1)
  {
    hide Touched;
    TouchedAt(entries, i);
  }

  lemma Remembered(entries: seq<Entry>, parse: Bytes -> Option<Chain>, lastUse: map<Bytes, nat>, clock: nat, i: nat)
    requires Good(entries, parse, lastUse, clock) && i < |entries|
    ensures entries[i].parsed.Some? && parse(entries[i].message) == entries[i].parsed
  {
  }

  lemma SuffixGood(entries: seq<Entry>, k: nat, parse: Bytes -> Option<Chain>, lastUse: map<Bytes, nat>, clock: nat)
    requires Good(entries, parse, lastUse, clock) && k <= |entries|
    ensures Good(entries[k..], parse, lastUse, clock)
  {
    assert entries == entries[..k] + entries[k..];
    SumsJoin(entries[..k], entries[k..]);
  }

  lemma AddedGood(entries: seq<Entry>, candidate: Entry, parse: Bytes -> Option<Chain>, lastUse: map<Bytes, nat>,
                  clock: nat)
    requires Good(entries, parse, lastUse, clock) && Fits(entries, candidate)
    requires Charged(candidate) && parse(candidate.message) == candidate.parsed
    requires !Holds(entries, candidate.message)
    ensures Good(entries + [candidate], parse, lastUse[candidate.message := clock], clock + 1)
  {
    SumsJoin(entries, [candidate]);
    SumsOne(candidate);
  }

  // -----------------------------------------------------------------
  // The cache
  // -----------------------------------------------------------------

  class CertificateCache {
    const entries: array<Entry>
    const parse: Bytes -> Option<Chain>
    /** What an entry takes besides its bytes and its structures. */
    const overhead: nat
    var count: nat
    var bytes: nat
    var estimated: nat
    ghost var lastUse: map<Bytes, nat>
    ghost var clock: nat

    ghost predicate Shape()
      reads this
    {
      entries.Length == MAX_ENTRIES && count <= MAX_ENTRIES
    }

    ghost function Contents(): seq<Entry>
      requires Shape()
      reads this, entries
    {
      entries[..count]
    }

    ghost predicate Valid()
      reads this, entries
    {
      Shape() && Good(Contents(), parse, lastUse, clock) && bytes == BytesOf(Contents()) &&
      estimated == EstimatedOf(Contents()) &&
      forall i :: count <= i < MAX_ENTRIES ==> entries[i] == EMPTY
    }

    constructor (parse: Bytes -> Option<Chain>, overhead: nat)
      ensures Valid() && Contents() == [] && this.parse == parse && fresh(entries)
    {
      entries := new Entry[MAX_ENTRIES](_ => EMPTY);
      this.parse, this.overhead := parse, overhead;
      count, bytes, estimated, lastUse, clock := 0, 0, 0, map[], 0;
    }

    /** The entries behind a place move down by one. */
    method Shift(i: nat)
      requires Shape() && i < count
      modifies entries
      ensures entries[..count - 1] == Without(old(Contents()), i)
      ensures forall k :: count <= k < MAX_ENTRIES ==> entries[k] == old(entries[k])
    {
      ghost var was := Contents();
      var next := i + 1;
      while next < count
        invariant i + 1 <= next <= count
        invariant forall k :: 0 <= k < i ==> entries[k] == was[k]
        invariant forall k :: i <= k < next - 1 ==> entries[k] == was[k + 1]
        invariant forall k :: next - 1 <= k < count ==> entries[k] == was[k]
        invariant forall k :: count <= k < MAX_ENTRIES ==> entries[k] == old(entries[k])
      {
        entries[next - 1] := entries[next];
        next := next + 1;
      }
    }

    /** The entry at a place becomes the newest. */
    method Touch(i: nat)
      requires Valid() && i < count
      modifies this`lastUse, this`clock, entries
      ensures Valid() && Contents() == Touched(old(Contents()), i)
    {
      hide Good;
      hide BytesOf;
      hide EstimatedOf;
      ghost var was := Contents();
      TouchedGood(was, i, parse, lastUse, clock);
      TouchedSums(was, i);
      var hit := entries[i];
      Shift(i);
      entries[count - 1] := hit;
      lastUse, clock := lastUse[hit.message := clock], clock + 1;
      assert Contents() == Touched(was, i);
    }

    /** The chain of a message that is cached; it becomes the newest. */
    method Find(message: Bytes) returns (r: Option<Chain>)
      requires Valid()
      modifies this`lastUse, this`clock, entries
      ensures Valid() && (r.Some? ==> parse(message) == r)
      ensures r.Some? <==> Holds(old(Contents()), message)
      ensures Contents() ==
              if r.Some? then Touched(old(Contents()), PlaceOf(old(Contents()), message)) else old(Contents())
    {
      hide Good;
      hide BytesOf;
      hide EstimatedOf;
      hide Touched;
      ghost var was := Contents();
      var i := 0;
      while i < count
        invariant 0 <= i <= count && forall k :: 0 <= k < i ==> was[k].message != message
        invariant Contents() == was && Valid()
      {
        if entries[i].message == message {
          PlaceIs(was, message, i);
          TouchedLast(was, i);
          Remembered(was, parse, lastUse, clock, i);
          Touch(i);
          assert Contents()[count - 1] == was[i];
          return entries[count - 1].parsed;
        }
        i := i + 1;
      }
      return None;
    }

    /** The oldest entry goes. */
    method EvictOldest()
      requires Valid() && count > 0
      modifies this`count, this`bytes, this`estimated, entries
      ensures Valid() && Contents() == old(Contents())[1..]
    {
      hide Good;
      hide BytesOf;
      hide EstimatedOf;
      ghost var was := Contents();
      FirstSums(was);
      SuffixGood(was, 1, parse, lastUse, clock);
      bytes, estimated := bytes - entries[0].bytes, estimated - entries[0].estimated;
      Shift(0);
      count := count - 1;
      entries[count] := EMPTY;
      assert Contents() == was[1..];
    }

    /** Room is made for a candidate that fits in an empty cache. */
    method MakeRoom(candidate: Entry)
      requires Valid() && Admissible(candidate)
      modifies this`count, this`bytes, this`estimated, entries
      ensures Valid() && Contents() == Evicted(old(Contents()), candidate)
    {
      hide Good;
      hide BytesOf;
      hide EstimatedOf;
      while count > 0 &&
      (count == MAX_ENTRIES || bytes + candidate.bytes > MAX_BYTES || estimated + candidate.estimated > MAX_ESTIMATED)
        invariant Valid() && Evicted(Contents(), candidate) == Evicted(old(Contents()), candidate)
        decreases count
      {
        EvictOldest();
      }
    }

    /** What remembering a message would store. */
    function Candidate(message: Bytes, chain: Chain, capacity: nat): Entry {
      var size := capacity + chain.derBytes;
      Entry(message, Some(chain), size, size + chain.structuralBytes + overhead)
    }

    /** Remember what a message was parsed to, if it fits and memory allows. */
    method Remember(message: Bytes, chain: Chain, capacity: nat, memory: bool)
      requires Valid() && parse(message) == Some(chain) && capacity >= |message|
      requires !Holds(Contents(), message)
      modifies this`count, this`bytes, this`estimated, this`lastUse, this`clock, entries
      ensures Valid()
      ensures var candidate := Candidate(message, chain, capacity);
              Contents() == if memory && Admissible(candidate)
                            then Evicted(old(Contents()), candidate) + [candidate] else old(Contents())
    {
      hide Good;
      hide BytesOf;
      hide EstimatedOf;
      hide Evicted;
      if |message| + chain.derBytes > MAX_BYTES || !memory { return; }
      var candidate := Candidate(message, chain, capacity);
      if candidate.bytes > MAX_BYTES || candidate.estimated > MAX_ESTIMATED { return; }
      EvictedFits(Contents(), candidate);
      EvictedHolds(Contents(), candidate, message);
      MakeRoom(candidate);
      Store(candidate);
    }

    /** A candidate that fits becomes the newest entry. */
    method Store(candidate: Entry)
      requires Valid() && Charged(candidate) && parse(candidate.message) == candidate.parsed
      requires Fits(Contents(), candidate) && !Holds(Contents(), candidate.message)
      modifies this`count, this`bytes, this`estimated, this`lastUse, this`clock, entries
      ensures Valid() && Contents() == old(Contents()) + [candidate]
    {
      hide Good;
      hide BytesOf;
      hide EstimatedOf;
      ghost var was := Contents();
      AddedGood(was, candidate, parse, lastUse, clock);
      SumsJoin(was, [candidate]);
      SumsOne(candidate);
      bytes, estimated := bytes + candidate.bytes, estimated + candidate.estimated;
      entries[count] := candidate;
      count := count + 1;
      lastUse, clock := lastUse[candidate.message := clock], clock + 1;
      assert Contents() == was + [candidate];
    }

    /** The chain of a message: with the cache it is what parsing gives without one. */
    method CachedChain(message: Bytes, capacity: nat, memory: bool) returns (r: Option<Chain>)
      requires Valid() && capacity >= |message|
      modifies this`count, this`bytes, this`estimated, this`lastUse, this`clock, entries
      ensures Valid() && r == parse(message)
      ensures r.Some? && memory && capacity + r.value.derBytes <= 65536 &&
              capacity + r.value.derBytes + r.value.structuralBytes + overhead <= 262144 ==>
        Contents() != [] && Contents()[|Contents()| - 1].message == message
      ensures r.None? ==> Contents() == old(Contents())
    {
      var hit := Find(message);
      if hit.Some? { return hit; }
      r := parse(message);
      if r.Some? { Remember(message, r.value, capacity, memory); }
    }
  }
}
