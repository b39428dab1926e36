/** Extending a known window by the few blocks that a catalogue page announces. */
module RecentDelta {
  import opened Outcomes
  import opened RecentWindow
  import opened RecentChain

  /** What a page says under its delta field. */
  datatype DeltaField = Missing | Null | Delta(baseHeight: int, baseHash: string, blocks: seq<Row>)

  datatype Page = Page(blockDeltas: Option<int>, bountyDeltas: int, tip: Tip, delta: DeltaField)

  const MAX_ADDITIONS: nat := 5

  /** The added blocks, newest first. */
  function Added(rows: seq<Row>): (blocks: seq<Block>)
    ensures |blocks| == |rows|
    ensures forall i :: 0 <= i < |rows| ==> blocks[i] == Block(rows[|rows| - 1 - i].height, rows[|rows| - 1 - i].hash)
  {
    seq(|rows|, i requires 0 <= i < |rows| => Block(rows[|rows| - 1 - i].height, rows[|rows| - 1 - i].hash))
  }

  predicate RowsFollow(rows: seq<Row>, height: int) {
    forall i :: 0 <= i < |rows| ==> rows[i].height == height + i + 1 && CountOk(rows[i], true)
  }

  /** What a delta must say about its base and its tip. */
  predicate Bound(w: Window, page: Page) {
    page.blockDeltas == Some(1) && page.bountyDeltas == 1 && TipOk(page.tip) && page.delta.Delta? &&
    page.delta.baseHeight == w.tip.height && page.delta.baseHash == w.tip.hash &&
    |page.delta.blocks| <= MAX_ADDITIONS && |page.delta.blocks| == page.tip.height - w.tip.height &&
    !Clash(w.tip, page.tip)
  }

  predicate StartsAt(blocks: seq<Block>, hash: string) {
    blocks != [] && blocks[0].hash == hash
  }

  /** A delta that is accepted. */
  predicate DeltaOk(w: Window, page: Page) {
    Bound(w, page) && RowsFollow(page.delta.blocks, w.tip.height) &&
    DistinctHashes(Added(page.delta.blocks) + w.blocks) && StartsAt(Added(page.delta.blocks) + w.blocks, page.tip.hash)
  }

  function ExtendedBlocks(w: Window, page: Page): seq<Block>
    requires page.delta.Delta? && Size(page.tip) >= 0
  {
    Take(Added(page.delta.blocks) + w.blocks, Size(page.tip))
  }

  function Extended(w: Window, page: Page): Window
    requires page.delta.Delta? && Size(page.tip) >= 0
  {
    var blocks := ExtendedBlocks(w, page);
    Window(page.tip, blocks, Merged(CountsOf(page.delta.blocks), w.counts, blocks))
  }

  /**
    Theorem: a delta is accepted exactly if it names the tip of the window as its base, adds at most five blocks, one
    above the other, whose hashes are new, up to the new tip, and counts each of them.
  */
  lemma DeltaRules(w: Window, page: Page)
    requires Complete(w)
    ensures DeltaOk(w, page) <==>
            page.blockDeltas == Some(1) && page.bountyDeltas == 1 && TipOk(page.tip) && page.delta.Delta? &&
            page.delta.baseHeight == w.tip.height && page.delta.baseHash == w.tip.hash &&
            (w.tip.hash == page.tip.hash ==> w.tip == page.tip) &&
            var rows := page.delta.blocks;
            |rows| <= 5 && |rows| == page.tip.height - w.tip.height &&
            (if rows == [] then w.tip.hash == page.tip.hash else rows[|rows| - 1].hash == page.tip.hash) &&
            (forall i :: 0 <= i < |rows| ==>
               rows[i].height == w.tip.height + 1 + i && rows[i].count.Some? && 0 <= rows[i].count.value <= 10000) &&
            (forall i, k :: 0 <= i < k < |rows| ==> rows[i].hash != rows[k].hash) &&
            forall i, b :: 0 <= i < |rows| && b in w.blocks ==> rows[i].hash != b.hash
  {
    if DeltaOk(w, page) { DeltaHashes(w, page); }
    if page.delta.Delta? {
      var rows := page.delta.blocks;
      var all := Added(rows) + w.blocks;
      assert all != [] && all[0].hash == if rows == [] then w.tip.hash else rows[|rows| - 1].hash;
      if (forall i, k :: 0 <= i < k < |rows| ==> rows[i].hash != rows[k].hash) &&
         forall i, b :: 0 <= i < |rows| && b in w.blocks ==> rows[i].hash != b.hash
      {
        NewDistinct(w, rows);
      }
    }
  }

  lemma NewDistinct(w: Window, rows: seq<Row>)
    requires DistinctHashes(w.blocks) && forall i, k :: 0 <= i < k < |rows| ==> rows[i].hash != rows[k].hash
    requires forall i, b :: 0 <= i < |rows| && b in w.blocks ==> rows[i].hash != b.hash
    ensures DistinctHashes(Added(rows) + w.blocks)
  {
    var all, n := Added(rows) + w.blocks, |rows|;
    forall i, k | 0 <= i < k < |all| ensures all[i].hash != all[k].hash {
      if k < n {
        assert rows[n - 1 - k].hash != rows[n - 1 - i].hash;
      } else if i < n {
        assert all[k] in w.blocks && all[i].hash == rows[n - 1 - i].hash;
      }
    }
  }

  /** Theorem: an extended window is complete. */
  lemma ExtendedComplete(w: Window, page: Page)
    requires Complete(w) && DeltaOk(w, page)
    ensures Complete(Extended(w, page))
  {
    var n, all := |page.delta.blocks|, Added(page.delta.blocks) + w.blocks;
    forall i | 0 <= i < |all|
      ensures all[i].height == page.tip.height - i && (all[i].height == 0 ==> all[i].hash == GENESIS)
    {
      if i < n {
        assert all[i] == Added(page.delta.blocks)[i];
      } else {
        assert all[i] == w.blocks[i - n];
      }
    }
  }

  /**
    Theorem: the blocks of an accepted delta are counted with the delta's own numbers, and an old block
    is counted exactly if it was, with the number it had.
  */
  lemma ExtendedCounts(w: Window, page: Page)
    requires Complete(w) && DeltaOk(w, page)
    ensures var x, rows := Extended(w, page), page.delta.blocks;
            (forall i :: 0 <= i < |rows| && Block(rows[i].height, rows[i].hash) in x.blocks ==>
               rows[i].count.Some? && rows[i].hash in x.counts && x.counts[rows[i].hash] == rows[i].count.value) &&
            (forall b :: b in x.blocks && b in w.blocks ==>
               (b.hash in x.counts <==> b.hash in w.counts) &&
               (b.hash in x.counts ==> x.counts[b.hash] == w.counts[b.hash])) &&
            (forall b :: b in x.blocks ==> b in w.blocks || b in Added(rows)) &&
            forall h :: h in x.counts ==> exists b :: b in x.blocks && b.hash == h
  {
    var rows := page.delta.blocks;
    DeltaHashes(w, page);
    RowCounts(rows);
    hide DistinctHashes;
    hide CountsOf;
    hide EndsAt;
    var x, all := Extended(w, page), Added(rows) + w.blocks;
    forall b | b in x.blocks ensures b in all && b.hash in Hashes(x.blocks) {}
    forall b | b in w.blocks ensures b.hash !in CountsOf(rows) {}
  }

  /** The hashes of a delta are distinct, and new. */
  lemma DeltaHashes(w: Window, page: Page)
    requires DeltaOk(w, page)
    ensures var rows := page.delta.blocks;
            (forall i, k :: 0 <= i < k < |rows| ==> rows[i].hash != rows[k].hash) &&
            forall i, b :: 0 <= i < |rows| && b in w.blocks ==> rows[i].hash != b.hash
  {
    var rows, all := page.delta.blocks, Added(page.delta.blocks) + w.blocks;
    var n := |rows|;
    forall i | 0 <= i < n ensures all[n - 1 - i].hash == rows[i].hash {}
    forall i, k | 0 <= i < k < n ensures rows[i].hash != rows[k].hash {
      assert all[n - 1 - k].hash != all[n - 1 - i].hash;
    }
    forall i, b | 0 <= i < n && b in w.blocks ensures rows[i].hash != b.hash {
      var k :| 0 <= k < |w.blocks| && w.blocks[k] == b;
      assert all[n - 1 - i].hash != all[n + k].hash;
    }
  }

  /** A delta that tells the truth: the blocks from the new tip down to the base. */
  predicate HonestDelta(t: Tree, w: Window, page: Page)
    requires Rooted(t)
  {
    page.delta.Delta? && page.tip.hash in t && page.tip == TipOf(t, page.tip.hash) &&
    |page.delta.blocks| <= t[page.tip.hash].height &&
    Added(page.delta.blocks) == Ancestry(t, page.tip.hash, |page.delta.blocks|) &&
    Ancestor(t, page.tip.hash, |page.delta.blocks|) == w.tip.hash &&
    forall i :: 0 <= i < |page.delta.blocks| ==>
      page.delta.blocks[i].hash in t && page.delta.blocks[i].count == Some(t[page.delta.blocks[i].hash].count)
  }

  /** The old window is the new tip's line of ancestors from the base on. */
  lemma HonestLine(t: Tree, w: Window, page: Page, i: nat)
    requires Rooted(t) && Honest(t, w) && HonestDelta(t, w, page) && i < |page.delta.blocks| + |w.blocks|
    ensures i <= t[page.tip.hash].height && (Added(page.delta.blocks) + w.blocks)[i] == Line(t, page.tip.hash, i)
  {
    hide Rooted;
    hide Ancestor;
    var n := |page.delta.blocks|;
    if i >= n {
      InTree(t, w, i - n);
      AncestorsAdd(t, page.tip.hash, n, i - n);
    }
  }

  lemma {:induction false} CountsRows(t: Tree, rows: seq<Row>)
    requires forall i :: 0 <= i < |rows| ==> rows[i].hash in t && rows[i].count == Some(t[rows[i].hash].count)
    ensures CountsTrue(t, CountsOf(rows))
  {
    if rows != [] { CountsRows(t, rows[..|rows| - 1]); }
  }

  lemma ExtendedAllCounted(w: Window, page: Page)
    requires Complete(w) && DeltaOk(w, page) && Counted(w)
    ensures Counted(Extended(w, page))
  {
    ExtendedCounts(w, page);
    hide DeltaOk;
    hide Complete;
    hide Extended;
    var rows, x := page.delta.blocks, Extended(w, page);
    forall b | b in x.blocks ensures b.hash in x.counts {
      if b !in w.blocks {
        var k :| 0 <= k < |rows| && Added(rows)[k] == b;
        var i := |rows| - 1 - k;
        assert Block(rows[i].height, rows[i].hash) == b;
      }
    }
  }

  /**
    Theorem: a true delta extends a true window to the last 600 ancestors of the new tip; if all old
    blocks were counted, so are all of the new window, each with its true number.
  */
  lemma ExtendedHonest(t: Tree, w: Window, page: Page)
    requires Rooted(t) && Complete(w) && Honest(t, w) && HonestDelta(t, w, page) && DeltaOk(w, page)
    ensures Honest(t, Extended(w, page)) && Extended(w, page).blocks == Ancestry(t, page.tip.hash, Size(page.tip))
    ensures Counted(w) ==> Counted(Extended(w, page))
  {
    if Counted(w) { ExtendedAllCounted(w, page); }
    ExtendedComplete(w, page);
    forall i | 0 <= i < Size(page.tip) ensures Extended(w, page).blocks[i] == Line(t, page.tip.hash, i) {
      HonestLine(t, w, page, i);
    }
    CountsRows(t, page.delta.blocks);
    MergedTrue(t, CountsOf(page.delta.blocks), w.counts, Extended(w, page).blocks);
  }

  /** Theorem: a true delta that fits its base is never refused. */
  lemma HonestAccepted(t: Tree, w: Window, page: Page)
    requires Rooted(t) && Complete(w) && Honest(t, w) && Bound(w, page) && HonestDelta(t, w, page)
    requires forall i :: 0 <= i < |page.delta.blocks| ==> CountOk(page.delta.blocks[i], true)
    ensures DeltaOk(w, page)
  {
    hide Rooted;
    hide Ancestor;
    var rows, all := page.delta.blocks, Added(page.delta.blocks) + w.blocks;
    forall i | 0 <= i < |all|
      ensures all[i].hash in t && t[all[i].hash].height == page.tip.height - i && all[i].height == page.tip.height - i
    {
      HonestLine(t, w, page, i);
    }
    forall i | 0 <= i < |rows| ensures rows[i].height == w.tip.height + i + 1 {
      assert Added(rows)[|rows| - 1 - i] == all[|rows| - 1 - i];
    }
    HonestLine(t, w, page, 0);
    NoStep(t, page.tip.hash);
  }
}
