/**
  The window of the last 600 block hashes, rebuilt from a short reply and a cached
  window. Blocks run from the tip downwards; hashes are hexadecimal strings.
*/
module RecentWindow {
  import opened Outcomes

  const GENESIS: string := "30a3a7543f593b6343873a16aeb61005dce0fe3f4169ab34039316b2a9bb373e"
  const WINDOW: nat := 600
  const MAX_HEIGHT: int := 9_007_199_254_740_991
  const MAX_TIME: int := 253_402_300_799
  const MAX_COUNT: int := 10_000

  datatype Tip = Tip(hash: string, height: int, medianTime: int)

  datatype Block = Block(height: int, hash: string)

  datatype Window = Window(tip: Tip, blocks: seq<Block>, counts: map<string, int>)

  predicate TipOk(tip: Tip) {
    0 <= tip.height <= MAX_HEIGHT && 1 <= tip.medianTime <= MAX_TIME && (tip.height == 0 ==> tip.hash == GENESIS)
  }

  function Min(a: int, b: int): int {
    if a <= b then a else b
  }

  function Take(blocks: seq<Block>, n: nat): seq<Block> {
    if n <= |blocks| then blocks[..n] else blocks
  }

  /** How many blocks a complete window of a tip has. */
  function Size(tip: Tip): int {
    Min(WINDOW, tip.height + 1)
  }

  /** Two tips of the same hash that say different things about it. */
  predicate Clash(a: Tip, b: Tip) {
    a.hash == b.hash && a != b
  }

  // -----------------------------------------------------------------
  // Windows
  // -----------------------------------------------------------------

  predicate DistinctHashes(blocks: seq<Block>) {
    forall i, k :: 0 <= i < k < |blocks| ==> blocks[i].hash != blocks[k].hash
  }

  /** Blocks from a height downwards, without gaps. */
  predicate Contiguous(blocks: seq<Block>, height: int) {
    forall i :: 0 <= i < |blocks| ==> blocks[i].height == height - i
  }

  predicate GenesisOk(blocks: seq<Block>) {
    forall i :: 0 <= i < |blocks| && blocks[i].height == 0 ==> blocks[i].hash == GENESIS
  }

  /** Blocks that can be the last ones up to a tip. */
  predicate EndsAt(blocks: seq<Block>, tip: Tip) {
    blocks != [] && |blocks| <= Size(tip) && blocks[0].hash == tip.hash &&
    Contiguous(blocks, tip.height) && DistinctHashes(blocks) && GenesisOk(blocks)
  }

  function Hashes(blocks: seq<Block>): set<string> {
    set b | b in blocks :: b.hash
  }

  /** What every window has that comes out of a reply. */
  predicate Sound(w: Window) {
    TipOk(w.tip) && EndsAt(w.blocks, w.tip) && w.counts.Keys <= Hashes(w.blocks)
  }

  /** A window that can be kept: all the last blocks up to its tip. */
  predicate Complete(w: Window) {
    Sound(w) && |w.blocks| == Size(w.tip)
  }

  /** The dictionary from hashes to heights; it exists because no hash comes twice. */
  function HeightsOf(blocks: seq<Block>): (m: map<string, int>)
    requires DistinctHashes(blocks)
    ensures m.Keys == Hashes(blocks)
    ensures forall b :: b in blocks ==> b.hash in m && m[b.hash] == b.height
  {
    map b | b in blocks :: b.hash := b.height
  }

  /** The dictionary from heights to hashes; it exists because no height comes twice. */
  function HashesOf(blocks: seq<Block>, height: int): (m: map<int, string>)
    requires Contiguous(blocks, height)
    ensures forall b :: b in blocks ==> b.height in m && m[b.height] == b.hash
    ensures forall h :: h in m ==> height - |blocks| < h <= height
  {
    if blocks == [] then map[]
    else
      assert forall b :: b in blocks ==> b == blocks[0] || b in blocks[1..];
      HashesOf(blocks[1..], height - 1)[height := blocks[0].hash]
  }

  // -----------------------------------------------------------------
  // Replies
  // -----------------------------------------------------------------

  datatype Row = Row(height: int, hash: string, count: Option<int>)

  datatype Reply = Reply(window: int, tip: Tip, bountyCounts: Option<int>, rows: seq<Row>)

  predicate CountOk(row: Row, counted: bool) {
    if counted then row.count.Some? && 0 <= row.count.value <= MAX_COUNT else row.count == None
  }

  function BlocksOf(rows: seq<Row>): (blocks: seq<Block>)
    ensures |blocks| == |rows|
    ensures forall i :: 0 <= i < |rows| ==> blocks[i] == Block(rows[i].height, rows[i].hash)
  {
    seq(|rows|, i requires 0 <= i < |rows| => Block(rows[i].height, rows[i].hash))
  }

  /** The counts that rows report. */
  function CountsOf(rows: seq<Row>): map<string, int> {
    if rows == [] then map[]
    else
      var last := rows[|rows| - 1];
      var counts := CountsOf(rows[..|rows| - 1]);
      if last.count.Some? then counts[last.hash := last.count.value] else counts
  }

  lemma {:induction false} CountsKeys(rows: seq<Row>)
    ensures CountsOf(rows).Keys <= Hashes(BlocksOf(rows))
  {
    if rows != [] {
      var n := |rows| - 1;
      CountsKeys(rows[..n]);
      assert BlocksOf(rows) == BlocksOf(rows[..n]) + [Block(rows[n].height, rows[n].hash)];
      assert Block(rows[n].height, rows[n].hash) in BlocksOf(rows);
    }
  }

  /** A reply to a request for a number of blocks that is accepted. */
  predicate ReplyOk(reply: Reply, count: int) {
    1 <= count <= WINDOW && TipOk(reply.tip) && reply.window == WINDOW &&
    (|reply.rows| == Min(count, reply.tip.height + 1) || |reply.rows| == Size(reply.tip)) &&
    (reply.bountyCounts.Some? ==> reply.bountyCounts.value == 1) &&
    EndsAt(BlocksOf(reply.rows), reply.tip) &&
    forall i :: 0 <= i < |reply.rows| ==> CountOk(reply.rows[i], reply.bountyCounts.Some?)
  }

  /**
    Theorem: a reply to a request for some blocks is accepted exactly if it is a line of blocks down from its tip, as
    long as was asked for or as a whole window of 600, with the block of height 0 the genesis block, and either counts
    every block or none; numbers are those that a double holds exactly, times end with the year 9999, and a block counts
    at most 10000.
  */
  lemma ReplyRules(reply: Reply, count: int)
    ensures ReplyOk(reply, count) <==>
            1 <= count <= 600 && reply.window == 600 && 0 <= reply.tip.height <= 9007199254740991 &&
            1 <= reply.tip.medianTime <= 253402300799 && reply.rows != [] && reply.rows[0].hash == reply.tip.hash &&
            (|reply.rows| == Lesser(count, reply.tip.height + 1) ||
             |reply.rows| == Lesser(600, reply.tip.height + 1)) &&
            (forall i :: 0 <= i < |reply.rows| ==> reply.rows[i].height == reply.tip.height - i) &&
            (forall i, k :: 0 <= i < k < |reply.rows| ==> reply.rows[i].hash != reply.rows[k].hash) &&
            (forall i :: 0 <= i < |reply.rows| && reply.rows[i].height == 0 ==> reply.rows[i].hash == GENESIS) &&
            (reply.tip.height == 0 ==> reply.tip.hash == GENESIS) &&
            match reply.bountyCounts
            case None => forall i :: 0 <= i < |reply.rows| ==> reply.rows[i].count == None
            case Some(flag) =>
              flag == 1 && forall i :: 0 <= i < |reply.rows| ==>
                reply.rows[i].count.Some? && 0 <= reply.rows[i].count.value <= 10000
  {
    var blocks := BlocksOf(reply.rows);
    assert DistinctHashes(blocks) <==>
      forall i, k :: 0 <= i < k < |reply.rows| ==>
        reply.rows[i].hash != reply.rows[k].hash by { SameHashes(reply.rows); }
    hide DistinctHashes;
  }

  function Lesser(a: int, b: int): int {
    if a < b then a else b
  }

  lemma SameHashes(rows: seq<Row>)
    ensures DistinctHashes(BlocksOf(rows)) <==> forall i, k :: 0 <= i < k < |rows| ==> rows[i].hash != rows[k].hash
  {
    var blocks := BlocksOf(rows);
    forall i | 0 <= i < |rows| ensures blocks[i].hash == rows[i].hash {}
    if DistinctHashes(blocks) {
      forall i, k | 0 <= i < k < |rows|
        ensures rows[i].hash != rows[k].hash
      {
        assert blocks[i].hash != blocks[k].hash;
      }
    }
  }

  function ReplyWindow(reply: Reply): Window {
    Window(reply.tip, BlocksOf(reply.rows), CountsOf(reply.rows))
  }

  /** An accepted reply is a sound window, and a complete one when 600 blocks were asked for. */
  lemma ReplySound(reply: Reply, count: int)
    requires ReplyOk(reply, count)
    ensures Sound(ReplyWindow(reply)) && (count == WINDOW ==> Complete(ReplyWindow(reply)))
  {
    CountsKeys(reply.rows);
  }

  /** The i-th row counts a block. */
  predicate CountsAt(rows: seq<Row>, i: int, hash: string, n: int) {
    0 <= i < |rows| && rows[i].hash == hash && rows[i].count == Some(n)
  }

  /** Every row of an accepted reply that counts is counted, with its own number, and nothing else is. */
  lemma ReplyCounts(reply: Reply, count: int)
    requires ReplyOk(reply, count)
    ensures forall i :: 0 <= i < |reply.rows| && reply.rows[i].count.Some? ==>
              reply.rows[i].hash in ReplyWindow(reply).counts &&
              ReplyWindow(reply).counts[reply.rows[i].hash] == reply.rows[i].count.value
    ensures forall h :: h in ReplyWindow(reply).counts ==>
              exists i :: CountsAt(reply.rows, i, h, ReplyWindow(reply).counts[h])
  {
    var blocks := BlocksOf(reply.rows);
    forall i, k | 0 <= i < k < |reply.rows| ensures reply.rows[i].hash != reply.rows[k].hash {
      assert blocks[i].hash != blocks[k].hash;
    }
    RowCounts(reply.rows);
  }

  lemma {:induction false} RowCounts(rows: seq<Row>)
    requires forall i, k :: 0 <= i < k < |rows| ==> rows[i].hash != rows[k].hash
    ensures forall i :: 0 <= i < |rows| && rows[i].count.Some? ==>
              rows[i].hash in CountsOf(rows) && CountsOf(rows)[rows[i].hash] == rows[i].count.value
    ensures forall h :: h in CountsOf(rows) ==> exists i :: CountsAt(rows, i, h, CountsOf(rows)[h])
  {
    if rows != [] {
      var n, before, counts := |rows| - 1, CountsOf(rows[..|rows| - 1]), CountsOf(rows);
      RowCounts(rows[..n]);
      assert counts == if rows[n].count.Some? then before[rows[n].hash := rows[n].count.value] else before;
      hide CountsOf;
      forall h | h in counts ensures exists i :: CountsAt(rows, i, h, counts[h]) {
        if rows[n].count.Some? && h == rows[n].hash {
          assert CountsAt(rows, n, h, counts[h]);
        } else {
          var i :| CountsAt(rows[..n], i, h, before[h]);
          assert CountsAt(rows, i, h, counts[h]);
        }
      }
      forall i | 0 <= i < |rows| && rows[i].count.Some?
        ensures rows[i].hash in counts && counts[rows[i].hash] == rows[i].count.value
      {
        if i < n { assert rows[..n][i] == rows[i]; }
      }
    }
  }

  // -----------------------------------------------------------------
  // Joining a reply and a known window
  // -----------------------------------------------------------------

  /** The first block that is known already. */
  function Anchor(blocks: seq<Block>, known: map<string, int>): (a: nat)
    ensures a <= |blocks| && (a < |blocks| ==> blocks[a].hash in known)
    ensures forall i :: 0 <= i < a ==> blocks[i].hash !in known
  {
    if blocks == [] || blocks[0].hash in known then 0 else 1 + Anchor(blocks[1..], known)
  }

  function AnchorOf(p: Window, k: Window): nat
    requires DistinctHashes(k.blocks)
  {
    Anchor(p.blocks, HeightsOf(k.blocks))
  }

  /** A block that contradicts the known window: another height, or below the anchor another hash. */
  predicate BlockClash(p: Window, k: Window, i: nat)
    requires i < |p.blocks| && DistinctHashes(k.blocks) && Contiguous(k.blocks, k.tip.height)
  {
    var b, heights, hashes := p.blocks[i], HeightsOf(k.blocks), HashesOf(k.blocks, k.tip.height);
    (b.hash in heights && heights[b.hash] != b.height) ||
    (i >= AnchorOf(p, k) && b.height in hashes && hashes[b.height] != b.hash)
  }

  predicate CountClash(a: map<string, int>, b: map<string, int>, hash: string) {
    hash in a && hash in b && a[hash] != b[hash]
  }

  /** The two windows cannot both be true. */
  ghost predicate Conflict(p: Window, k: Window)
    requires DistinctHashes(k.blocks) && Contiguous(k.blocks, k.tip.height)
  {
    Clash(k.tip, p.tip) || (exists i :: 0 <= i < |p.blocks| && BlockClash(p, k, i)) ||
    exists hash :: hash in p.counts && CountClash(p.counts, k.counts, hash)
  }

  /** The blocks up to a height. */
  function Below(blocks: seq<Block>, height: int): seq<Block> {
    if blocks == [] then []
    else if blocks[0].height <= height then [blocks[0]] + Below(blocks[1..], height)
    else Below(blocks[1..], height)
  }

  /** The window that the reply completes, if it does. */
  function Splice(p: Window, k: Window): Option<seq<Block>>
    requires DistinctHashes(k.blocks) && Size(p.tip) >= 0
  {
    var size, a := Size(p.tip), AnchorOf(p, k);
    if |p.blocks| == size then Some(p.blocks)
    else if a == |p.blocks| then None
    else
      var combined := Take(p.blocks[..a] + Below(k.blocks, p.blocks[a].height), size);
      if |combined| == size then Some(combined) else None
  }

  /** New counts over old ones, for the blocks of a window. */
  function Merged(news: map<string, int>, kept: map<string, int>, blocks: seq<Block>): map<string, int> {
    map hash | hash in news.Keys + kept.Keys &&
    hash in Hashes(blocks) :: if hash in news then news[hash] else kept[hash]
  }

  function Joined(p: Window, k: Window): Option<Window>
    requires DistinctHashes(k.blocks) && Size(p.tip) >= 0
  {
    match Splice(p, k)
    case None => None
    case Some(blocks) => Some(Window(p.tip, blocks, Merged(p.counts, k.counts, blocks)))
  }

  /** In a window without gaps the blocks up to a height are its tail. */
  lemma {:induction false} BelowIsTail(blocks: seq<Block>, top: int, f: nat)
    requires Contiguous(blocks, top) && f <= |blocks|
    ensures Below(blocks, top - f) == blocks[f..]
    decreases |blocks|
  {
    if blocks != [] {
      assert blocks[0].height == top;
      assert Contiguous(blocks[1..], top - 1);
      if f == 0 {
        BelowAll(blocks, top);
      } else {
        BelowIsTail(blocks[1..], top - 1, f - 1);
      }
    }
  }

  lemma {:induction false} BelowAll(blocks: seq<Block>, height: int)
    requires forall i :: 0 <= i < |blocks| ==> blocks[i].height <= height
    ensures Below(blocks, height) == blocks
  {
    if blocks != [] { BelowAll(blocks[1..], height); }
  }

  /** Without a conflict, a known block has its known height, and a known height below the anchor its known block. */
  lemma NoClash(p: Window, k: Window, i: nat, j: nat)
    requires Sound(p) && Sound(k) && !Conflict(p, k) && i < |p.blocks| && j < |k.blocks|
    ensures p.blocks[i].hash == k.blocks[j].hash ==> p.blocks[i].height == k.blocks[j].height
    ensures i >= AnchorOf(p, k) && p.blocks[i].height == k.blocks[j].height ==> p.blocks[i] == k.blocks[j]
  {
    hide HeightsOf;
    hide HashesOf;
    hide Anchor;
    assert !BlockClash(p, k, i);
    assert k.blocks[j] in k.blocks;
  }

  lemma KnownPlace(blocks: seq<Block>, hash: string) returns (f: nat)
    requires DistinctHashes(blocks) && hash in HeightsOf(blocks)
    ensures f < |blocks| && blocks[f].hash == hash
  {
    var b :| b in blocks && b.hash == hash;
    f :| 0 <= f < |blocks| && blocks[f] == b;
  }

  /** Where the anchor is in the known window. */
  lemma AnchorPlace(p: Window, k: Window) returns (f: nat)
    requires Sound(p) && Sound(k) && !Conflict(p, k) && AnchorOf(p, k) < |p.blocks|
    ensures f < |k.blocks| && k.blocks[f] == p.blocks[AnchorOf(p, k)] &&
            k.tip.height - f == p.tip.height - AnchorOf(p, k)
    ensures Below(k.blocks, p.blocks[AnchorOf(p, k)].height) == k.blocks[f..]
  {
    hide Conflict;
    hide HeightsOf;
    var a := AnchorOf(p, k);
    f := KnownPlace(k.blocks, p.blocks[a].hash);
    NoClash(p, k, a, f);
    BelowIsTail(k.blocks, k.tip.height, f);
  }

  /** The blocks that are spliced: the reply down to the anchor, then the known window. */
  function Spliced(p: Window, k: Window, f: nat): seq<Block>
    requires DistinctHashes(k.blocks) && f <= |k.blocks|
  {
    p.blocks[..AnchorOf(p, k)] + k.blocks[f..]
  }

  /** Up to its end the splice is the reply. */
  lemma SplicedExtends(p: Window, k: Window, f: nat, i: nat)
    requires Sound(p) && Sound(k) && !Conflict(p, k) && AnchorOf(p, k) < |p.blocks|
    requires f < |k.blocks| && k.tip.height - f == p.tip.height - AnchorOf(p, k)
    requires i < |Spliced(p, k, f)|
    ensures Spliced(p, k, f)[i].height == p.tip.height - i
    ensures i < |p.blocks| ==> Spliced(p, k, f)[i] == p.blocks[i]
  {
    hide Conflict;
    hide HeightsOf;
    hide Anchor;
    var a := AnchorOf(p, k);
    if i >= a {
      var j := f + (i - a);
      assert Spliced(p, k, f)[i] == k.blocks[j];
      if i < |p.blocks| { NoClash(p, k, i, j); }
    }
  }

  lemma SplicedDistinct(p: Window, k: Window, f: nat)
    requires Sound(p) && Sound(k) && f < |k.blocks|
    ensures DistinctHashes(Spliced(p, k, f))
  {
    hide HeightsOf;
    var a, s := AnchorOf(p, k), Spliced(p, k, f);
    forall i, j | 0 <= i < j < |s| ensures s[i].hash != s[j].hash {
      if i < a <= j { assert s[j] == k.blocks[f + (j - a)] && s[j] in k.blocks; }
    }
  }

  /** Theorem: a joined window is complete, it continues the reply, and all else in it was known. */
  lemma JoinedComplete(p: Window, k: Window)
    requires Sound(p) && Complete(k) && !Conflict(p, k) && Joined(p, k).Some?
    ensures var w := Joined(p, k).value;
            Complete(w) && w.tip == p.tip && p.blocks <= w.blocks && forall b :: b in w.blocks ==>
              b in p.blocks || b in k.blocks
  {
    hide Conflict;
    hide HeightsOf;
    hide Anchor;
    hide Below;
    var w, a, size := Joined(p, k).value, AnchorOf(p, k), Size(p.tip);
    if |p.blocks| < size {
      var f := AnchorPlace(p, k);
      var s := Spliced(p, k, f);
      assert w.blocks == s[..size] && a < |p.blocks|;
      SplicedDistinct(p, k, f);
      forall i | 0 <= i < |s| ensures s[i].height == p.tip.height - i && (i < |p.blocks| ==> s[i] == p.blocks[i]) {
        SplicedExtends(p, k, f, i);
      }
      forall i | 0 <= i < |s| ensures s[i] in p.blocks || s[i] in k.blocks {
        assert i >= a ==> s[i] == k.blocks[f + (i - a)];
      }
      hide Splice;
      hide Spliced;
      LineComplete(p, k, w, s);
    }
  }

  /** The head of a line down from the tip, made of sound blocks, is a complete window. */
  lemma LineComplete(p: Window, k: Window, w: Window, line: seq<Block>)
    requires Sound(p) && Sound(k) && |line| >= Size(p.tip) && |p.blocks| <= Size(p.tip) && DistinctHashes(line)
    requires forall i :: 0 <= i < |line| ==>
      line[i].height == p.tip.height - i && (i < |p.blocks| ==> line[i] == p.blocks[i])
    requires forall i :: 0 <= i < |line| ==> line[i] in p.blocks || line[i] in k.blocks
    requires w.blocks == line[..Size(p.tip)] && w.tip == p.tip && w.counts.Keys <= Hashes(w.blocks)
    ensures Complete(w) && p.blocks <= w.blocks && forall b :: b in w.blocks ==> b in p.blocks || b in k.blocks
  {
    forall i | 0 <= i < |w.blocks| ensures w.blocks[i].height == 0 ==> w.blocks[i].hash == GENESIS {
      assert line[i] in p.blocks || line[i] in k.blocks;
    }
  }

  /**
    Theorem: a block of a joined window is counted exactly if the reply or the known window counts it, and with the
    number that each of them gives it.
  */
  lemma JoinedCounts(p: Window, k: Window)
    requires Sound(p) && Complete(k) && !Conflict(p, k) && Joined(p, k).Some?
    ensures var w := Joined(p, k).value;
            (forall b :: b in w.blocks ==> (b.hash in w.counts <==> b.hash in p.counts || b.hash in k.counts)) &&
            (forall h :: h in w.counts ==> exists b :: b in w.blocks && b.hash == h) &&
            (forall h :: h in w.counts && h in p.counts ==> w.counts[h] == p.counts[h]) &&
            (forall h :: h in w.counts && h in k.counts ==> w.counts[h] == k.counts[h])
    ensures p.tip.hash == k.tip.hash ==> p.tip == k.tip
  {
    hide Splice;
    var w := Joined(p, k).value;
    forall b | b in w.blocks ensures b.hash in Hashes(w.blocks) {}
    forall h | h in w.counts && h in p.counts && h in k.counts ensures p.counts[h] == k.counts[h] {
      assert !CountClash(p.counts, k.counts, h);
    }
  }

  /**
    Theorem: a reply does not complete a window exactly if it is short and the known window does not reach down from it
    far enough.
  */
  lemma JoinedWhen(p: Window, k: Window)
    requires Sound(p) && Complete(k) && !Conflict(p, k)
    ensures Joined(p, k) == None <==>
            |p.blocks| < Size(p.tip) &&
            (Hashes(p.blocks) !! Hashes(k.blocks) || k.tip.height - |k.blocks| > p.tip.height - Size(p.tip))
  {
    hide Conflict;
    hide HeightsOf;
    hide Below;
    hide DistinctHashes;
    hide GenesisOk;
    var a := AnchorOf(p, k);
    if a < |p.blocks| {
      var f := AnchorPlace(p, k);
      assert p.blocks[a] in p.blocks && p.blocks[a].hash in Hashes(p.blocks) && p.blocks[a].hash in Hashes(k.blocks);
      assert |Spliced(p, k, f)| == a + |k.blocks| - f;
    } else {
      forall hash | hash in Hashes(p.blocks) ensures hash !in Hashes(k.blocks) {
        var b :| b in p.blocks && b.hash == hash;
      }
    }
  }
}
