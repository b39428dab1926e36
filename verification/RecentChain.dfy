/**
  Windows and the chain: blocks form a tree in which a hash fixes the parent and
  the height. A window is true if it is the line of ancestors of its tip.
*/
module RecentChain {
  import opened RecentWindow

  datatype Node = Node(parent: string, height: nat, medianTime: int, count: int)

  type Tree = map<string, Node>

  predicate RootedAt(t: Tree, h: string)
    requires h in t
  {
    (t[h].height == 0 ==>
       h == GENESIS) && (t[h].height > 0 ==> t[h].parent in t && t[t[h].parent].height == t[h].height - 1)
  }

  /** Every block but the first one has its parent below it. */
  predicate Rooted(t: Tree) {
    forall h :: h in t ==> RootedAt(t, h)
  }

  function TipOf(t: Tree, hash: string): Tip
    requires hash in t
  {
    Tip(hash, t[hash].height, t[hash].medianTime)
  }

  /** The ancestor of a block so many steps up. */
  function Ancestor(t: Tree, hash: string, n: nat): (up: string)
    requires Rooted(t) && hash in t && n <= t[hash].height
    ensures up in t && t[up].height == t[hash].height - n
    decreases n
  {
    assert RootedAt(t, hash);
    if n == 0 then hash else Ancestor(t, t[hash].parent, n - 1)
  }

  lemma FirstStep(t: Tree, hash: string, n: nat)
    requires Rooted(t) && hash in t && 0 < n <= t[hash].height
    ensures t[hash].parent in t && t[t[hash].parent].height == t[hash].height - 1
    ensures Ancestor(t, hash, n) == Ancestor(t, t[hash].parent, n - 1)
  {
    assert RootedAt(t, hash);
  }

  lemma {:induction false} AncestorsAdd(t: Tree, hash: string, n: nat, m: nat)
    requires Rooted(t) && hash in t && n + m <= t[hash].height
    ensures Ancestor(t, hash, n + m) == Ancestor(t, Ancestor(t, hash, n), m)
    decreases n
  {
    hide Rooted;
    hide Ancestor;
    if n == 0 {
      NoStep(t, hash);
    } else {
      FirstStep(t, hash, n + m);
      FirstStep(t, hash, n);
      AncestorsAdd(t, t[hash].parent, n - 1, m);
    }
  }

  lemma NoStep(t: Tree, hash: string)
    requires Rooted(t) && hash in t
    ensures Ancestor(t, hash, 0) == hash
  {
    assert RootedAt(t, hash);
  }

  function Line(t: Tree, hash: string, i: nat): Block
    requires Rooted(t) && hash in t && i <= t[hash].height
  {
    Block(t[hash].height - i, Ancestor(t, hash, i))
  }

  /** A block and its ancestors, so many in all. */
  function Ancestry(t: Tree, hash: string, n: nat): (blocks: seq<Block>)
    requires Rooted(t) && hash in t && n <= t[hash].height + 1
    ensures |blocks| == n && forall i :: 0 <= i < n ==> blocks[i] == Line(t, hash, i)
  {
    seq(n, i requires 0 <= i < n => Line(t, hash, i))
  }

  /** A window that tells the truth. */
  predicate Honest(t: Tree, w: Window)
    requires Rooted(t)
  {
    w.tip.hash in t && w.tip == TipOf(t, w.tip.hash) && |w.blocks| <= t[w.tip.hash].height + 1 &&
    w.blocks == Ancestry(t, w.tip.hash, |w.blocks|) && CountsTrue(t, w.counts)
  }

  /** A block of a true window is in the tree, at its height. */
  lemma InTree(t: Tree, w: Window, i: nat)
    requires Rooted(t) && Honest(t, w) && i < |w.blocks|
    ensures w.blocks[i].hash in t && w.blocks[i].height == t[w.blocks[i].hash].height == w.tip.height - i
    ensures w.blocks[i] == Line(t, w.tip.hash, i)
  {
  }

  /** Where two lines of ancestors share a block, they share everything below it. */
  lemma LinesMeet(t: Tree, p: Window, k: Window, a: nat, f: nat, i: nat, j: nat)
    requires Rooted(t) && Honest(t, p) && Honest(t, k) && a <= i < |p.blocks| && f < |k.blocks| && j < |k.blocks|
    requires p.blocks[a].hash == k.blocks[f].hash && p.blocks[i].height == k.blocks[j].height
    ensures p.blocks[i] == k.blocks[j]
  {
    hide Rooted;
    hide Ancestor;
    hide Ancestry;
    InTree(t, p, a);
    InTree(t, p, i);
    InTree(t, k, f);
    InTree(t, k, j);
    AncestorsAdd(t, p.tip.hash, a, i - a);
    AncestorsAdd(t, k.tip.hash, f, j - f);
  }

  /** Theorem: true windows never conflict. */
  lemma HonestAgree(t: Tree, p: Window, k: Window)
    requires Rooted(t) && Sound(p) && Sound(k) && Honest(t, p) && Honest(t, k)
    ensures !Conflict(p, k)
  {
    forall i | 0 <= i < |p.blocks| ensures !BlockClash(p, k, i) { HonestBlock(t, p, k, i); }
  }

  lemma HonestBlock(t: Tree, p: Window, k: Window, i: nat)
    requires Rooted(t) && Sound(p) && Sound(k) && Honest(t, p) && Honest(t, k) && i < |p.blocks|
    ensures !BlockClash(p, k, i)
  {
    hide Honest;
    hide HeightsOf;
    hide HashesOf;
    hide Rooted;
    hide Anchor;
    hide DistinctHashes;
    hide GenesisOk;
    var b := p.blocks[i];
    InTree(t, p, i);
    var heights, hashes := HeightsOf(k.blocks), HashesOf(k.blocks, k.tip.height);
    if b.hash in heights {
      var f := KnownPlace(k.blocks, b.hash);
      InTree(t, k, f);
      assert k.blocks[f] in k.blocks;
    }
    var a := AnchorOf(p, k);
    if i >= a && b.height in hashes {
      var f := KnownPlace(k.blocks, p.blocks[a].hash);
      var j := k.tip.height - b.height;
      LinesMeet(t, p, k, a, f, i, j);
      assert k.blocks[j] in k.blocks;
    }
  }

  /**
    Theorem: a true reply and a true window join to nothing or to the last 600 ancestors of the new tip, all of them;
    and if both count all their blocks, so does the joined window, each with its true number.
  */
  lemma JoinedHonest(t: Tree, p: Window, k: Window)
    requires Rooted(t) && Sound(p) && Complete(k) && Honest(t, p) && Honest(t, k)
    ensures !Conflict(p, k)
    ensures Joined(p, k).Some? ==>
              Honest(t, Joined(p, k).value) && Joined(p, k).value.blocks == Ancestry(t, p.tip.hash, Size(p.tip))
    ensures Joined(p, k).Some? && Counted(p) && Counted(k) ==> Counted(Joined(p, k).value)
  {
    HonestAgree(t, p, k);
    if Joined(p, k).Some? {
      JoinedComplete(p, k);
      JoinedCounts(p, k);
      JoinedLine(t, p, k);
      MergedTrue(t, p.counts, k.counts, Joined(p, k).value.blocks);
    }
  }

  /** Every block of a window is counted. */
  predicate Counted(w: Window) {
    forall b :: b in w.blocks ==> b.hash in w.counts
  }

  predicate CountsTrue(t: Tree, counts: map<string, int>) {
    forall h :: h in counts ==> h in t && counts[h] == t[h].count
  }

  lemma MergedTrue(t: Tree, p: map<string, int>, k: map<string, int>, blocks: seq<Block>)
    requires CountsTrue(t, p) && CountsTrue(t, k)
    ensures CountsTrue(t, Merged(p, k, blocks))
  {
  }

  lemma JoinedLine(t: Tree, p: Window, k: Window)
    requires Rooted(t) && Sound(p) && Complete(k) && Honest(t, p) && Honest(t, k) && !Conflict(p, k) &&
             Joined(p, k).Some?
    ensures Joined(p, k).value.blocks == Ancestry(t, p.tip.hash, Size(p.tip))
  {
    hide Conflict;
    hide Honest;
    hide HeightsOf;
    hide Anchor;
    hide Below;
    hide DistinctHashes;
    hide GenesisOk;
    hide Rooted;
    var w, size := Joined(p, k).value, Size(p.tip);
    assert TipTrue(t, p) by { HonestTip(t, p); }
    assert |w.blocks| == size;
    forall i | 0 <= i < size ensures w.blocks[i] == Line(t, p.tip.hash, i) {
      if |p.blocks| == size { InTree(t, p, i); } else { SplicedTrue(t, p, k, i); }
    }
  }

  predicate TipTrue(t: Tree, w: Window) {
    w.tip.hash in t && w.tip.height == t[w.tip.hash].height
  }

  lemma HonestTip(t: Tree, w: Window)
    requires Rooted(t) && Honest(t, w)
    ensures TipTrue(t, w)
  {
  }

  lemma SplicedTrue(t: Tree, p: Window, k: Window, i: nat)
    requires Rooted(t) && Sound(p) && Complete(k) && Honest(t, p) && Honest(t, k) && !Conflict(p, k) &&
             Joined(p, k).Some?
    requires |p.blocks| < Size(p.tip) && i < Size(p.tip)
    ensures TipTrue(t, p) && Joined(p, k).value.blocks[i] == Line(t, p.tip.hash, i)
  {
    hide Conflict;
    hide Honest;
    hide HeightsOf;
    hide Anchor;
    hide Below;
    hide Rooted;
    hide Ancestor;
    hide DistinctHashes;
    hide GenesisOk;
    var a := AnchorOf(p, k);
    var f := AnchorPlace(p, k);
    HonestTip(t, p);
    HonestTip(t, k);
    assert Joined(p, k).value.blocks[i] == Spliced(p, k, f)[i];
    if i < a {
      InTree(t, p, i);
    } else {
      var j := f + (i - a);
      InTree(t, p, a);
      InTree(t, k, f);
      InTree(t, k, j);
      AncestorsAdd(t, p.tip.hash, a, i - a);
      AncestorsAdd(t, k.tip.hash, f, j - f);
    }
  }
}
