/** Reading replies, joining, applying deltas and refreshing, as the client does them. */
module RecentRefresh {
  import opened Outcomes
  import opened RecentWindow
  import opened RecentChain
  import opened RecentDelta

  const RPC_DATA: string := "CLAIMS_RPC_DATA"
  const INVALID_PARAMS: string := "-32602"

  /** Whether the i-th row fits its place in a reply. */
  predicate RowOk(reply: Reply, seen: set<string>, i: nat)
    requires i < |reply.rows|
  {
    var row := reply.rows[i];
    row.height == reply.tip.height - i && row.hash !in seen && (i == 0 ==> row.hash == reply.tip.hash) &&
    (row.height == 0 ==> row.hash == GENESIS) && CountOk(row, reply.bountyCounts.Some?)
  }

  lemma HashesMore(rows: seq<Row>, i: nat)
    requires i < |rows|
    ensures Hashes(BlocksOf(rows[..i + 1])) == Hashes(BlocksOf(rows[..i])) + {rows[i].hash}
    ensures BlocksOf(rows[..i + 1]) == BlocksOf(rows[..i]) + [Block(rows[i].height, rows[i].hash)]
  {
    var before, after := BlocksOf(rows[..i]), BlocksOf(rows[..i + 1]);
    assert after == before + [Block(rows[i].height, rows[i].hash)];
    assert forall b :: b in after <==> b in before || b == Block(rows[i].height, rows[i].hash);
    forall h | h in Hashes(after) ensures h in Hashes(before) + {rows[i].hash} {
      var b :| b in after && b.hash == h;
    }
    forall h | h in Hashes(before) + {rows[i].hash} ensures h in Hashes(after) {
      if h == rows[i].hash { assert Block(rows[i].height, rows[i].hash) in after; } else {
        var b :| b in before && b.hash == h;
        assert b in after;
      }
    }
  }

  /** The rows read so far fit, and hold distinct hashes. */
  ghost predicate RowsOk(reply: Reply, n: nat)
    requires n <= |reply.rows|
  {
    Contiguous(BlocksOf(reply.rows[..n]), reply.tip.height) && DistinctHashes(BlocksOf(reply.rows[..n])) &&
    GenesisOk(BlocksOf(reply.rows[..n])) && (n > 0 ==> reply.rows[0].hash == reply.tip.hash) &&
    forall i :: 0 <= i < n ==> CountOk(reply.rows[i], reply.bountyCounts.Some?)
  }

  lemma RowsMore(reply: Reply, n: nat)
    requires n < |reply.rows| && RowsOk(reply, n)
    ensures RowsOk(reply, n + 1) <==> RowOk(reply, Hashes(BlocksOf(reply.rows[..n])), n)
  {
    HashesMore(reply.rows, n);
    var before, after := BlocksOf(reply.rows[..n]), BlocksOf(reply.rows[..n + 1]);
    assert after[n] == Block(reply.rows[n].height, reply.rows[n].hash);
    if reply.rows[n].hash in Hashes(before) {
      var b :| b in before && b.hash == reply.rows[n].hash;
      var i :| 0 <= i < n && before[i] == b;
      assert after[i] == b;
    }
    forall i | 0 <= i < n ensures after[i] == before[i] && before[i] in before {}
  }

  /** What is wrong with the first rows is wrong with all. */
  lemma RowsAll(reply: Reply, n: nat)
    requires n <= |reply.rows| && RowsOk(reply, |reply.rows|)
    ensures RowsOk(reply, n)
  {
    assert reply.rows[..|reply.rows|] == reply.rows;
    var all := BlocksOf(reply.rows);
    forall i | 0 <= i < n ensures BlocksOf(reply.rows[..n])[i] == all[i] {}
  }

  method Response(reply: Reply, count: int) returns (r: Result<Window>)
    ensures r == if ReplyOk(reply, count) then Ok(ReplyWindow(reply)) else Err(RPC_DATA)
  {
    hide RowsOk;
    hide RowOk;
    if !(1 <= count <= WINDOW) || !TipOk(reply.tip) { return Err(RPC_DATA); }
    var size := Size(reply.tip);
    if !(reply.window == WINDOW && (|reply.rows| == Min(count, reply.tip.height + 1) || |reply.rows| == size)) {
      return Err(RPC_DATA);
    }
    if reply.bountyCounts.Some? && reply.bountyCounts.value != 1 { return Err(RPC_DATA); }
    AllRows(reply, count);
    var blocks: seq<Block>, seen: set<string>, counts: map<string, int> := [], {}, map[];
    NoRows(reply);
    var index := 0;
    while index < |reply.rows|
      invariant 0 <= index <= |reply.rows| && RowsOk(reply, index)
      invariant blocks == BlocksOf(reply.rows[..index]) && seen == Hashes(blocks) &&
                counts == CountsOf(reply.rows[..index])
    {
      var row := reply.rows[index];
      RowsMore(reply, index);
      HashesMore(reply.rows, index);
      if !RowOk(reply, seen, index) {
        if RowsOk(reply, |reply.rows|) { RowsAll(reply, index + 1); }
        return Err(RPC_DATA);
      }
      assert reply.rows[..index + 1][..index] == reply.rows[..index];
      blocks, seen := blocks + [Block(row.height, row.hash)], seen + {row.hash};
      if row.count.Some? { counts := counts[row.hash := row.count.value]; }
      index := index + 1;
    }
    assert reply.rows[..|reply.rows|] == reply.rows;
    return Ok(Window(reply.tip, blocks, counts));
  }

  lemma NoRows(reply: Reply)
    ensures RowsOk(reply, 0) && BlocksOf(reply.rows[..0]) == [] && Hashes([]) == {}
  {
  }

  lemma AllRows(reply: Reply, count: int)
    requires 1 <= count <= WINDOW && TipOk(reply.tip) && reply.window == WINDOW
    requires |reply.rows| == Min(count, reply.tip.height + 1) || |reply.rows| == Size(reply.tip)
    requires reply.bountyCounts.Some? ==> reply.bountyCounts.value == 1
    ensures ReplyOk(reply, count) <==> RowsOk(reply, |reply.rows|)
  {
    assert reply.rows[..|reply.rows|] == reply.rows;
  }

  // -----------------------------------------------------------------
  // Joining
  // -----------------------------------------------------------------

  /** The blocks looked at so far neither clash nor hide the anchor. */
  ghost predicate Walked(p: Window, k: Window, n: nat, anchor: Option<nat>)
    requires Sound(p) && Sound(k) && n <= |p.blocks|
  {
    (forall i :: 0 <= i < n ==> !BlockClash(p, k, i)) &&
    (anchor == None ==> AnchorOf(p, k) >= n) && (anchor.Some? ==> anchor.value == AnchorOf(p, k) < n)
  }

  /** How the walk meets the next block. */
  lemma WalkOn(p: Window, k: Window, n: nat, anchor: Option<nat>)
    requires Sound(p) && Sound(k) && n < |p.blocks| && Walked(p, k, n, anchor)
    ensures anchor == None ==> (AnchorOf(p, k) == n <==> p.blocks[n].hash in HeightsOf(k.blocks))
    ensures anchor.Some? ==> AnchorOf(p, k) < n
  {
    hide BlockClash;
    hide HeightsOf;
    hide HashesOf;
  }

  /** The walk finds a block that contradicts the known window, or the anchor. */
  method Walk(p: Window, k: Window) returns (clash: bool, anchor: Option<nat>)
    requires Sound(p) && Complete(k)
    ensures clash <==> exists i :: 0 <= i < |p.blocks| && BlockClash(p, k, i)
    ensures !clash ==> anchor == if AnchorOf(p, k) < |p.blocks| then Some(AnchorOf(p, k)) else None
  {
    hide Anchor;
    hide HeightsOf;
    hide HashesOf;
    hide DistinctHashes;
    hide GenesisOk;
    var knownHeights, knownHashes := HeightsOf(k.blocks), HashesOf(k.blocks, k.tip.height);
    var index := 0;
    clash, anchor := false, None;
    while index < |p.blocks|
      invariant 0 <= index <= |p.blocks| && !clash && Walked(p, k, index, anchor)
    {
      var block := p.blocks[index];
      WalkOn(p, k, index, anchor);
      if block.hash in knownHeights {
        if knownHeights[block.hash] != block.height {
          assert BlockClash(p, k, index);
          return true, anchor;
        }
        if anchor == None { anchor := Some(index); }
      }
      if anchor.Some? && block.height in knownHashes && knownHashes[block.height] != block.hash {
        assert BlockClash(p, k, index);
        return true, anchor;
      }
      assert !BlockClash(p, k, index);
      index := index + 1;
    }
  }

  /** Whether the two windows count some block differently. */
  method CountsDiffer(a: map<string, int>, b: map<string, int>) returns (differ: bool)
    ensures differ <==> exists hash :: hash in a && CountClash(a, b, hash)
  {
    var left := a.Keys;
    while left != {}
      invariant left <= a.Keys && forall hash :: hash in a.Keys - left ==> !CountClash(a, b, hash)
      decreases |left|
    {
      var hash :| hash in left;
      if hash in b && b[hash] != a[hash] {
        assert CountClash(a, b, hash);
        return true;
      }
      left := left - {hash};
    }
    return false;
  }

  /** The rows of blocks without counts. */
  function Plain(blocks: seq<Block>): (rows: seq<Row>)
    ensures |rows| == |blocks| && BlocksOf(rows) == blocks
    ensures forall i :: 0 <= i < |rows| ==> rows[i].count == None
  {
    var rows := seq(|blocks|, i requires 0 <= i < |blocks| => Row(blocks[i].height, blocks[i].hash, None));
    assert BlocksOf(rows) == blocks;
    rows
  }

  lemma {:induction false} NoCounts(rows: seq<Row>)
    requires forall i :: 0 <= i < |rows| ==> rows[i].count == None
    ensures CountsOf(rows) == map[]
  {
    if rows != [] { NoCounts(rows[..|rows| - 1]); }
  }

  /** A complete window passes the check that is made of what is put together. */
  lemma CheckPasses(tip: Tip, blocks: seq<Block>)
    requires TipOk(tip) && EndsAt(blocks, tip) && |blocks| == Size(tip)
    ensures ReplyOk(Reply(WINDOW, tip, None, Plain(blocks)), WINDOW)
  {
  }

  /** Join a reply to the known window: the window it completes, none, or an error if they contradict each other. */
  method Joining(p: Window, k: Window) returns (r: Result<Option<Window>>)
    requires Sound(p) && Complete(k)
    ensures r.Err? <==> Conflict(p, k)
    ensures r.Err? ==> r.code == RPC_DATA
    ensures r.Ok? ==> r.value == Joined(p, k)
  {
    hide BlockClash;
    hide CountClash;
    hide Merged;
    hide Below;
    hide Anchor;
    hide HeightsOf;
    hide EndsAt;
    assert DistinctHashes(k.blocks) && Contiguous(k.blocks, k.tip.height) && Size(p.tip) >= 0 by {
      CompleteParts(p, k);
    }
    if Clash(k.tip, p.tip) { return Err(RPC_DATA); }
    var clash, anchor := Walk(p, k);
    if clash { return Err(RPC_DATA); }
    var size := Size(p.tip);
    var differ := CountsDiffer(p.counts, k.counts);
    if differ { return Err(RPC_DATA); }
    if |p.blocks| == size { return Ok(Some(Window(p.tip, p.blocks, Merged(p.counts, k.counts, p.blocks)))); }
    if anchor == None { return Ok(None); }
    var combined := Take(p.blocks[..anchor.value] + Below(k.blocks, p.blocks[anchor.value].height), size);
    if |combined| != size { return Ok(None); }
    JoinedComplete(p, k);
    CheckPasses(p.tip, combined);
    NoCounts(Plain(combined));
    var validated := Response(Reply(WINDOW, p.tip, None, Plain(combined)), WINDOW);
    var counts := Merged(p.counts, k.counts, validated.value.blocks);
    return Ok(Some(Window(validated.value.tip, validated.value.blocks, counts)));
  }

  lemma CompleteParts(p: Window, k: Window)
    requires Sound(p) && Complete(k)
    ensures DistinctHashes(k.blocks) && Contiguous(k.blocks, k.tip.height) && Size(p.tip) >= 0
  {
  }

  // -----------------------------------------------------------------
  // Deltas
  // -----------------------------------------------------------------

  /** The first additions fit, and so far no hash comes twice. */
  ghost predicate Following(w: Window, rows: seq<Row>, n: nat)
    requires n <= |rows|
  {
    RowsFollow(rows[..n], w.tip.height) && DistinctHashes(Added(rows[..n]) + w.blocks)
  }

  lemma AddedMore(rows: seq<Row>, n: nat)
    requires n < |rows|
    ensures Added(rows[..n + 1]) == [Block(rows[n].height, rows[n].hash)] + Added(rows[..n])
  {
  }

  lemma HashesJoin(a: seq<Block>, b: seq<Block>)
    ensures Hashes(a + b) == Hashes(a) + Hashes(b)
  {
    forall h | h in Hashes(a + b) ensures h in Hashes(a) + Hashes(b) {
      var x :| x in a + b && x.hash == h;
    }
    forall h | h in Hashes(a) + Hashes(b) ensures h in Hashes(a + b) {
      var x :| (x in a || x in b) && x.hash == h;
      assert x in a + b;
    }
  }

  lemma FollowMore(rows: seq<Row>, height: int, n: nat)
    requires n < |rows|
    ensures RowsFollow(rows[..n + 1], height) <==>
            RowsFollow(rows[..n], height) && rows[n].height == height + n + 1 && CountOk(rows[n], true)
  {
    hide CountOk;
    var before, after := rows[..n], rows[..n + 1];
    assert after[n] == rows[n] && forall i :: 0 <= i < n ==> after[i] == before[i];
  }

  lemma FollowingMore(w: Window, rows: seq<Row>, n: nat)
    requires n < |rows| && Following(w, rows, n)
    ensures Following(w, rows, n + 1) <==>
            rows[n].height == w.tip.height + n + 1 && rows[n].hash !in Hashes(Added(rows[..n]) + w.blocks) &&
            CountOk(rows[n], true)
    ensures Hashes(Added(rows[..n + 1]) + w.blocks) == Hashes(Added(rows[..n]) + w.blocks) + {rows[n].hash}
  {
    AddedMore(rows, n);
    FollowMore(rows, w.tip.height, n);
    hide RowsFollow;
    hide CountOk;
    var x, rest := Block(rows[n].height, rows[n].hash), Added(rows[..n]) + w.blocks;
    assert Added(rows[..n + 1]) + w.blocks == [x] + rest;
    HashesJoin([x], rest);
    assert Hashes([x]) == {x.hash} by { assert x in [x]; }
    DistinctMore(x, rest);
  }

  lemma DistinctMore(x: Block, rest: seq<Block>)
    requires DistinctHashes(rest)
    ensures DistinctHashes([x] + rest) <==> x.hash !in Hashes(rest)
  {
    var all := [x] + rest;
    if x.hash in Hashes(rest) {
      var b :| b in rest && b.hash == x.hash;
      var i :| 0 <= i < |rest| && rest[i] == b;
      assert all[0] == x && all[i + 1] == b;
    } else {
      forall i | 1 <= i < |all| ensures all[i].hash != x.hash { assert all[i] == rest[i - 1] && all[i] in rest; }
    }
  }

  lemma FollowingAll(w: Window, rows: seq<Row>, n: nat)
    requires n <= |rows| && Following(w, rows, |rows|)
    ensures Following(w, rows, n)
  {
    assert rows[..|rows|] == rows;
    var all, some := Added(rows) + w.blocks, Added(rows[..n]) + w.blocks;
    forall i | 0 <= i < |some| ensures some[i] == all[i + |rows| - n] {}
  }

  /** Extend a window by what a page announces: none if it announces nothing, an error if it cannot be right. */
  method Applying(w: Window, page: Page) returns (r: Result<Option<Window>>)
    requires Complete(w)
    ensures r.Ok? && r.value == None <==>
            (page.blockDeltas == None && page.delta == Missing) ||
            (page.blockDeltas == Some(1) && page.bountyDeltas == 1 && TipOk(page.tip) && page.delta == Null &&
             w.tip.hash != page.tip.hash)
    ensures r.Ok? && r.value.Some? <==> DeltaOk(w, page)
    ensures DeltaOk(w, page) ==> r == Ok(Some(Extended(w, page)))
    ensures r.Err? ==> r.code == RPC_DATA
  {
    hide Following;
    hide DistinctHashes;
    hide Merged;
    hide EndsAt;
    if page.blockDeltas == None {
      if !page.delta.Missing? { return Err(RPC_DATA); }
      return Ok(None);
    }
    if page.blockDeltas.value != 1 || page.bountyDeltas != 1 || !TipOk(page.tip) { return Err(RPC_DATA); }
    if page.delta.Null? {
      if w.tip.hash == page.tip.hash { return Err(RPC_DATA); }
      return Ok(None);
    }
    if page.delta.Missing? { return Err(RPC_DATA); }
    var rows := page.delta.blocks;
    if page.delta.baseHeight != w.tip.height || page.delta.baseHash != w.tip.hash || |rows| > MAX_ADDITIONS ||
       |rows| != page.tip.height - w.tip.height || Clash(w.tip, page.tip)
    {
      return Err(RPC_DATA);
    }
    BoundSplit(w, page);
    var fit := Additions(w, rows);
    if !fit { return Err(RPC_DATA); }
    var combined := Take(Added(rows) + w.blocks, Size(page.tip));
    HeadOfTake(w, page);
    var checked := Response(Reply(WINDOW, page.tip, None, Plain(combined)), WINDOW);
    NoCounts(Plain(combined));
    if checked.Err? { return Err(RPC_DATA); }
    return Ok(Some(Window(page.tip, checked.value.blocks, Merged(CountsOf(rows), w.counts, checked.value.blocks))));
  }

  /** A delta that is bound to its base is accepted if its rows follow and it ends in the new tip. */
  lemma BoundSplit(w: Window, page: Page)
    requires Bound(w, page)
    ensures DeltaOk(w, page) <==>
            Following(w, page.delta.blocks, |page.delta.blocks|) &&
            StartsAt(Added(page.delta.blocks) + w.blocks, page.tip.hash)
  {
    assert page.delta.blocks[..|page.delta.blocks|] == page.delta.blocks;
  }

  /** The final check finds out whether the head of what is put together is the new tip. */
  lemma HeadOfTake(w: Window, page: Page)
    requires Complete(w) && Bound(w, page) && Following(w, page.delta.blocks, |page.delta.blocks|)
    ensures ReplyOk(Reply(WINDOW, page.tip, None, Plain(ExtendedBlocks(w, page))), WINDOW) <==> DeltaOk(w, page)
  {
    BoundSplit(w, page);
    assert page.delta.blocks[..|page.delta.blocks|] == page.delta.blocks;
    if DeltaOk(w, page) {
      ExtendedComplete(w, page);
    } else {
      assert ExtendedBlocks(w, page)[0] == (Added(page.delta.blocks) + w.blocks)[0];
    }
  }

  /** Whether the added rows follow the window. */
  method Additions(w: Window, rows: seq<Row>) returns (fit: bool)
    requires Complete(w)
    ensures fit <==> Following(w, rows, |rows|)
  {
    hide Following;
    hide CountOk;
    hide DistinctHashes;
    NothingAdded(w, rows);
    var seen, index := Hashes(w.blocks), 0;
    while index < |rows|
      invariant 0 <= index <= |rows| && Following(w, rows, index) && seen == Hashes(Added(rows[..index]) + w.blocks)
    {
      FollowingMore(w, rows, index);
      if !(CountOk(rows[index], true) && rows[index].height == w.tip.height + index + 1 && rows[index].hash !in seen) {
        if Following(w, rows, |rows|) { FollowingAll(w, rows, index + 1); }
        return false;
      }
      seen := seen + {rows[index].hash};
      index := index + 1;
    }
    return true;
  }

  lemma NothingAdded(w: Window, rows: seq<Row>)
    requires Complete(w)
    ensures Following(w, rows, 0) && Hashes(Added(rows[..0]) + w.blocks) == Hashes(w.blocks)
  {
    assert Added(rows[..0]) + w.blocks == w.blocks;
  }

  // -----------------------------------------------------------------
  // Refreshing
  // -----------------------------------------------------------------

  /** How many blocks are asked for, one request after the other. */
  function Requests(known: Option<Window>, force: bool): (counts: seq<int>)
    ensures counts != [] && counts[|counts| - 1] == WINDOW
    ensures forall i :: 0 <= i < |counts| ==> 1 <= counts[i] <= WINDOW
  {
    if known == None || force then [600] else [5, 100, 600]
  }

  /** Whether a server does not know a short request. */
  predicate Refused(query: (nat, int) -> Result<Reply>, call: nat, count: int) {
    count != 600 && query(call, count) == Err("-32602")
  }

  /** What comes of a request: a refused one is made again for a whole window. */
  function Answer(query: (nat, int) -> Result<Reply>, call: nat, count: int): Result<Reply> {
    if Refused(query, call, count) then Whole(query(call + 1, 600)) else query(call, count)
  }

  /** How many calls come before the i-th request for a few blocks more. */
  function CallOf(query: (nat, int) -> Result<Reply>, i: nat): nat
    requires i < 3
  {
    if i == 0 then 0
    else CallOf(query, i - 1) + if Refused(query, CallOf(query, i - 1), [5, 100, 600][i - 1]) then 2 else 1
  }

  /** The answer to the i-th of the requests for 5, 100 and 600 blocks. */
  function StepAnswer(query: (nat, int) -> Result<Reply>, i: nat): Result<Reply>
    requires i < 3
  {
    Answer(query, CallOf(query, i), [5, 100, 600][i])
  }

  /** An answer that can be used: an allowed reply that contradicts neither the expected tip nor the known window. */
  ghost predicate Usable(expected: Tip, known: Window, answer: Result<Reply>, count: int)
    requires Complete(known)
  {
    answer.Ok? && ReplyOk(answer.value, count) && !Clash(expected, answer.value.tip) &&
    !Conflict(ReplyWindow(answer.value), known)
  }

  /** The i-th answer can be used, and completes the known window to the result, or does not reach it. */
  ghost predicate Yields(expected: Tip, known: Window, query: (nat, int) -> Result<Reply>, i: nat, w: Option<Window>)
    requires Complete(known) && i < 3
  {
    var answer := StepAnswer(query, i);
    Usable(expected, known, answer, [5, 100, 600][i]) &&
    Size(answer.value.tip) >= 0 && Joined(ReplyWindow(answer.value), known) == w
  }

  /**
    A server that always answers with true blocks of some tip, or does not know short requests: it may refuse them, and
    then answers a whole one.
  */
  ghost predicate TrueServer(t: Tree, query: (nat, int) -> Result<Reply>)
    requires Rooted(t)
  {
    forall call, count :: 1 <= count <= WINDOW ==>
      TrueAnswer(t, query(call, count), count) || (count != WINDOW && query(call, count) == Err(INVALID_PARAMS))
  }

  ghost predicate TrueAnswer(t: Tree, answer: Result<Reply>, count: int)
    requires Rooted(t)
  {
    answer.Ok? && ReplyOk(answer.value, count) && Honest(t, ReplyWindow(answer.value))
  }

  ghost predicate TrueKnown(t: Tree, expected: Tip, known: Option<Window>)
    requires Rooted(t)
  {
    expected.hash in t && expected == TipOf(t, expected.hash) && (known.Some? ==> Honest(t, known.value))
  }

  /** True tips never clash. */
  lemma TipsAgree(t: Tree, expected: Tip, w: Window)
    requires Rooted(t) && expected.hash in t && expected == TipOf(t, expected.hash) && Honest(t, w)
    ensures !Clash(expected, w.tip) && !Clash(w.tip, expected)
  {
  }

  /** What is left of an answer that has to be whole. */
  function Whole(answer: Result<Reply>): Result<Reply> {
    if answer.Ok? && !ReplyOk(answer.value, WINDOW) then Err(RPC_DATA) else answer
  }

  /** A whole reply answers any request. */
  lemma WholeAnswers(t: Tree, answer: Result<Reply>, count: int)
    requires Rooted(t) && 1 <= count <= WINDOW && TrueAnswer(t, answer, WINDOW)
    ensures TrueAnswer(t, answer, count) && Whole(answer) == answer
  {
  }

  /** Ask for a reply; a server that does not know short requests is asked for a whole window. */
  method Ask(query: (nat, int) -> Result<Reply>, call: nat, count: int, ghost t: Tree)
    returns (r: Result<Reply>, calls: nat)
    requires 1 <= count <= WINDOW && Rooted(t)
    ensures r == Answer(query, call, count) && calls == call + if Refused(query, call, count) then 2 else 1
    ensures if count != 600 && query(call, count) == Err("-32602")
            then calls == call + 2 && (r.Ok? ==> r == query(call + 1, 600) && ReplyOk(r.value, 600))
            else calls == call + 1 && r == query(call, count)
    ensures TrueServer(t, query) ==> TrueAnswer(t, r, count)
  {
    hide Rooted;
    hide ReplyOk;
    hide TrueAnswer;
    r, calls := query(call, count), call + 1;
    if r.Err? && count != WINDOW && r.code == INVALID_PARAMS {
      r, calls := query(calls, WINDOW), calls + 1;
      if TrueServer(t, query) { WholeAnswers(t, r, count); }
      if r.Ok? {
        var whole := Response(r.value, WINDOW);
        if whole.Err? { r := Err(whole.code); }
      }
    }
  }

  /**
    Bring the known window to the present. A forced refresh, or one without a known window, returns just what the server
    says to a request for a whole window, its counts included. Any other is asked for 5, 100 and 600 blocks in turn,
    until an answer cannot be used or completes the known window. What is returned is always complete, and with a true
    server, be it one that refuses short requests, it is returned and true: the requests never run out, as a whole
    window always ends them.
  */
  method Refresh(expected: Tip, known: Option<Window>, force: bool, query: (nat, int) -> Result<Reply>, ghost t: Tree)
    returns (r: Result<Window>)
    requires (known.Some? ==> Complete(known.value)) && Rooted(t)
    ensures r.Ok? ==> Complete(r.value) && !Clash(expected, r.value.tip)
    ensures TrueServer(t, query) && TrueKnown(t, expected, known) ==> r.Ok? && Honest(t, r.value)
    ensures known.Some? && Clash(known.value.tip, expected) ==> r.Err?
    ensures known.Some? && known.value.tip == expected && !force ==> r == Ok(known.value)
    ensures known == None ==>
            (r.Ok? <==> query(0, 600).Ok? && ReplyOk(query(0, 600).value, 600) &&
                        !Clash(expected, query(0, 600).value.tip)) &&
            (r.Ok? ==> r.value == ReplyWindow(query(0, 600).value))
    ensures known.Some? && !Clash(known.value.tip, expected) && force ==>
            (r.Ok? <==> Usable(expected, known.value, query(0, 600), 600)) &&
            (r.Ok? ==> r.value == ReplyWindow(query(0, 600).value))
    ensures known.Some? && known.value.tip.hash != expected.hash && !force ==>
            exists i :: 0 <= i < 3 && (forall j :: 0 <= j < i ==> Yields(expected, known.value, query, j, None)) &&
                        if r.Ok? then Yields(expected, known.value, query, i, Some(r.value))
                        else !Usable(expected, known.value, StepAnswer(query, i), [5, 100, 600][i])
  {
    hide Complete;
    hide Sound;
    hide Honest;
    hide Rooted;
    hide ReplyOk;
    hide Conflict;
    hide Joined;
    ghost var trusted := TrueServer(t, query) && TrueKnown(t, expected, known);
    if known.Some? {
      if trusted { TipsAgree(t, expected, known.value); }
      if Clash(known.value.tip, expected) { return Err(RPC_DATA); }
      if known.value.tip.hash == expected.hash && !force { return Ok(known.value); }
    }
    var counts, calls, i := Requests(known, force), 0, 0;
    while true
      invariant 0 <= i < |counts|
      invariant i == 0 ==> calls == 0
      invariant known.Some? && !force ==> calls == CallOf(query, i)
      invariant known.Some? && !force ==> forall j :: 0 <= j < i ==> Yields(expected, known.value, query, j, None)
      decreases |counts| - i
    {
      var count, answer := counts[i], Err(RPC_DATA);
      answer, calls := Ask(query, calls, count, t);
      if answer.Err? { return Err(answer.code); }
      var prefix := Response(answer.value, count);
      if prefix.Err? { return Err(RPC_DATA); }
      ReplySound(answer.value, count);
      if trusted { TipsAgree(t, expected, prefix.value); }
      if Clash(expected, prefix.value.tip) { return Err(RPC_DATA); }
      if known == None { return Ok(prefix.value); }
      if trusted { JoinedTrue(t, prefix.value, known.value); }
      Parts(prefix.value, known.value);
      var full := Joining(prefix.value, known.value);
      if full.Err? { return Err(full.code); }
      if force { return Ok(prefix.value); }
      JoinedWhole(prefix.value, known.value);
      assert Yields(expected, known.value, query, i, full.value);
      if full.value.Some? { return Ok(full.value.value); }
      assert count != WINDOW;
      i := i + 1;
    }
  }

  lemma Parts(p: Window, k: Window)
    requires Complete(k) && Sound(p)
    ensures DistinctHashes(k.blocks) && Contiguous(k.blocks, k.tip.height) && Size(p.tip) >= 0
  {
  }

  /** What true windows join to is true. */
  lemma JoinedTrue(t: Tree, p: Window, k: Window)
    requires Rooted(t) && Sound(p) && Complete(k) && Honest(t, p) && Honest(t, k)
    ensures DistinctHashes(k.blocks) && Contiguous(k.blocks, k.tip.height) && Size(p.tip) >= 0
    ensures !Conflict(p, k) && (Joined(p, k).Some? ==> Honest(t, Joined(p, k).value))
  {
    JoinedHonest(t, p, k);
  }

  /** What windows join to is complete, and a complete one is always joined. */
  lemma JoinedWhole(p: Window, k: Window)
    requires Sound(p) && Complete(k) && DistinctHashes(k.blocks) && Contiguous(k.blocks, k.tip.height) &&
             Size(p.tip) >= 0
    requires !Conflict(p, k)
    ensures Joined(p, k).Some? ==> Complete(Joined(p, k).value) && Joined(p, k).value.tip == p.tip
    ensures Complete(p) ==> Joined(p, k).Some?
  {
    if Joined(p, k).Some? { JoinedComplete(p, k); }
    JoinedWhen(p, k);
  }
}
