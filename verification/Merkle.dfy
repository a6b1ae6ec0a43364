/** src/merkle.rs: the Merkle root of a list of ids, and partial trees that prove some of the ids.
    Nodes are of any type `H`; `pair` hashes two of them into one. */
module Merkle {
  import opened Common

  // Shape of the tree over `n` leaves.

  function Pow2(h: nat): (p: nat)
    ensures p >= 1
  {
    if h == 0 then 1 else 2 * Pow2(h - 1)
  }

  function Shr(n: nat, h: nat): nat
    decreases h
  {
    if h == 0 then n else Shr(n / 2, h - 1)
  }

  function Shl(n: nat, h: nat): nat {
    if h == 0 then n else 2 * Shl(n, h - 1)
  }

  function Up(n: nat): nat {
    (n + 1) / 2
  }

  /** Number of nodes at height `h`. */
  function Width(n: nat, h: nat): nat
    decreases h
  {
    if h == 0 then n else Width(Up(n), h - 1)
  }

  /** The height a tree over `n` leaves needs, by repeated halving. */
  function Height(n: nat): nat {
    if n <= 1 then 0 else 1 + Height(Up(n))
  }

  /** The closed form the source computes the width by. */
  lemma {:induction false} WidthByShift(n: nat, h: nat)
    ensures Shr(n + Pow2(h) - 1, h) == Width(n, h)
    decreases h
  {
    if h > 0 {
      assert (n + Pow2(h) - 1) / 2 == Up(n) + Pow2(h - 1) - 1;
      WidthByShift(Up(n), h - 1);
    }
  }

  lemma {:induction false} WidthStep(n: nat, h: nat)
    ensures Width(n, h + 1) == Up(Width(n, h))
    decreases h
  {
    if h > 0 {
      WidthStep(Up(n), h - 1);
    }
  }

  /** A position lies past the last node of a level exactly when its first leaf lies past the last leaf. */
  lemma {:induction false} BeyondWidth(n: nat, h: nat, q: nat)
    ensures q >= Width(n, h) <==> Shl(q, h) >= n
    decreases h
  {
    if h > 0 {
      BeyondWidth(Up(n), h - 1, q);
    }
  }

  lemma {:induction false} ShlDouble(q: nat, h: nat)
    ensures Shl(q, h + 1) == Shl(2 * q, h)
  {
    if h > 0 {
      ShlDouble(q, h - 1);
    }
  }

  lemma {:induction false} ShlOrder(a: nat, b: nat, h: nat)
    ensures a <= b ==> Shl(a, h) <= Shl(b, h)
    ensures a < b ==> Shl(a, h) < Shl(b, h)
  {
    if h > 0 {
      ShlOrder(a, b, h - 1);
    }
  }

  lemma {:induction false} ShlOne(h: nat)
    ensures Shl(1, h) == Pow2(h) && Shl(0, h) == 0
  {
    if h > 0 {
      ShlOne(h - 1);
    }
  }

  /** A level holds at most one node exactly when 2^h leaves fit under it. */
  lemma WidthIsCeiling(n: nat, h: nat)
    ensures Width(n, h) <= 1 <==> n <= Pow2(h)
  {
    BeyondWidth(n, h, 1);
    ShlOne(h);
  }

  /** `Height(n)` is the least height whose level holds at most one node. */
  lemma {:induction false} HeightLeast(n: nat, h: nat)
    ensures Width(n, h) <= 1 <==> h >= Height(n)
    decreases h
  {
    if h > 0 {
      HeightLeast(Up(n), h - 1);
      if n <= 1 {
        assert Up(n) == n;
      }
    }
  }

  lemma RootInRange(n: nat)
    requires n > 0
    ensures Width(n, Height(n)) == 1
  {
    HeightLeast(n, Height(n));
    BeyondWidth(n, Height(n), 0);
    ShlOne(Height(n));
  }

  lemma Children(n: nat, h: nat, p: nat)
    requires h > 0 && p < Width(n, h)
    ensures 2 * p < Width(n, h - 1)
  {
    WidthStep(n, h - 1);
  }

  // What the nodes of a full tree are, and what a partial tree records.

  /** The hash at height `h`, position `p`; a node without a right sibling is paired with itself. */
  function Node<H>(pair: (H, H) -> H, ids: seq<H>, h: nat, p: nat): H
    requires p < Width(|ids|, h)
  {
    if h == 0 then ids[p]
    else
      Children(|ids|, h, p);
      var left := Node(pair, ids, h - 1, 2 * p);
      var right := if 2 * p + 1 < Width(|ids|, h - 1) then Node(pair, ids, h - 1, 2 * p + 1) else left;
      pair(left, right)
  }

  /** One level of the textbook construction: neighbours are paired, a trailing odd one with itself. */
  function LevelUp<H>(pair: (H, H) -> H, ids: seq<H>): (r: seq<H>)
    ensures |r| == Up(|ids|)
  {
    seq(Up(|ids|), i requires 0 <= i < Up(|ids|) =>
      pair(ids[2 * i], if 2 * i + 1 < |ids| then ids[2 * i + 1] else ids[2 * i]))
  }

  /** The textbook root: level after level until one node is left. */
  function Reduce<H>(pair: (H, H) -> H, ids: seq<H>): H
    requires |ids| > 0
    decreases |ids|
  {
    if |ids| == 1 then ids[0] else Reduce(pair, LevelUp(pair, ids))
  }

  lemma {:induction false} NodeOfLevel<H>(pair: (H, H) -> H, ids: seq<H>, h: nat, p: nat)
    requires p < Width(|ids|, h + 1)
    ensures p < Width(|LevelUp(pair, ids)|, h)
    ensures Node(pair, ids, h + 1, p) == Node(pair, LevelUp(pair, ids), h, p)
    decreases h
  {
    Children(|ids|, h + 1, p);
    if h > 0 {
      NodeOfLevel(pair, ids, h - 1, 2 * p);
      if 2 * p + 1 < Width(|ids|, h) {
        NodeOfLevel(pair, ids, h - 1, 2 * p + 1);
      }
    }
  }

  /** The recursive root is the textbook root. */
  lemma {:induction false} RootIsReduce<H>(pair: (H, H) -> H, ids: seq<H>)
    requires |ids| > 0
    ensures Width(|ids|, Height(|ids|)) == 1
    ensures Node(pair, ids, Height(|ids|), 0) == Reduce(pair, ids)
    decreases |ids|
  {
    RootInRange(|ids|);
    if |ids| > 1 {
      var up := LevelUp(pair, ids);
      var h := Height(|up|);
      assert Height(|ids|) == h + 1;
      assert Reduce(pair, ids) == Reduce(pair, up);
      RootIsReduce(pair, up);
      NodeOfLevel(pair, ids, h, 0);
    }
  }

  /** The partner of the i-th pair's first node: the one after it, or a trailing odd one itself. */
  function Mate<H>(ids: seq<H>, i: nat): H
    requires i < Up(|ids|)
  {
    if 2 * i + 1 < |ids| then ids[2 * i + 1] else ids[2 * i]
  }

  /** Nowhere on the way up do different pairs of the two lists hash alike. */
  predicate Unmerged<H(==)>(pair: (H, H) -> H, xs: seq<H>, ys: seq<H>)
    requires |xs| == |ys|
    decreases |xs|
  {
    |xs| <= 1 ||
    ((forall i :: 0 <= i < Up(|xs|) && pair(xs[2 * i], Mate(xs, i)) == pair(ys[2 * i], Mate(ys, i)) ==>
        xs[2 * i] == ys[2 * i] && Mate(xs, i) == Mate(ys, i))
     && Unmerged(pair, LevelUp(pair, xs), LevelUp(pair, ys)))
  }

  /** A root commits to the list it was made of: equally long lists with one root are equal. */
  lemma {:induction false} RootCommits<H>(pair: (H, H) -> H, xs: seq<H>, ys: seq<H>)
    requires |xs| == |ys| > 0 && Unmerged(pair, xs, ys) && Reduce(pair, xs) == Reduce(pair, ys)
    ensures xs == ys
    decreases |xs|
  {
    if |xs| > 1 {
      var us, vs := LevelUp(pair, xs), LevelUp(pair, ys);
      RootCommits(pair, us, vs);
      forall k | 0 <= k < |xs| ensures xs[k] == ys[k] {
        var i := k / 2;
        assert us[i] == pair(xs[2 * i], Mate(xs, i)) && vs[i] == pair(ys[2 * i], Mate(ys, i));
        assert k == 2 * i || k == 2 * i + 1;
      }
    }
  }

  /** The root depends on the pair hash only through its values. */
  lemma {:induction false} SameReduce<H(!new)>(p: (H, H) -> H, q: (H, H) -> H, ids: seq<H>)
    requires |ids| > 0 && forall l, r :: p(l, r) == q(l, r)
    ensures Reduce(p, ids) == Reduce(q, ids)
    decreases |ids|
  {
    if |ids| > 1 {
      assert LevelUp(p, ids) == LevelUp(q, ids);
      SameReduce(p, q, LevelUp(p, ids));
    }
  }

  /** Whether a match lies under the node. */
  predicate Hit(vb: seq<bool>, h: nat, p: nat)
    decreases h
  {
    if h == 0 then p < |vb| && vb[p] else Hit(vb, h - 1, 2 * p) || Hit(vb, h - 1, 2 * p + 1)
  }

  /** The leaves under a node are a contiguous range, the one `build` scans. */
  lemma {:induction false} HitRange(vb: seq<bool>, h: nat, p: nat)
    ensures Hit(vb, h, p) <==> exists q :: Shl(p, h) <= q < Shl(p + 1, h) && q < |vb| && vb[q]
    decreases h
  {
    if h > 0 {
      ShlDouble(p, h - 1);
      ShlDouble(p + 1, h - 1);
      ShlOrder(2 * p, 2 * p + 1, h - 1);
      ShlOrder(2 * p + 1, 2 * p + 2, h - 1);
      HitRange(vb, h - 1, 2 * p);
      HitRange(vb, h - 1, 2 * p + 1);
    }
  }

  /** The matched positions among `lo .. hi`, ascending. */
  function Selected(vb: seq<bool>, lo: nat, hi: nat): seq<nat>
    requires hi <= |vb|
    decreases hi
  {
    if lo >= hi then []
    else Selected(vb, lo, hi - 1) + if vb[hi - 1] then [hi - 1] else []
  }

  predicate Below(positions: seq<nat>, n: nat) {
    forall i :: 0 <= i < |positions| ==> positions[i] < n
  }

  function Pick<H>(ids: seq<H>, positions: seq<nat>): seq<H>
    requires Below(positions, |ids|)
  {
    seq(|positions|, i requires 0 <= i < |positions| && Below(positions, |ids|) => ids[positions[i]])
  }

  /** The matched positions under a node. */
  function Under(vb: seq<bool>, h: nat, p: nat): (r: seq<nat>)
    ensures Below(r, |vb|)
  {
    SelectedRange(vb, Shl(p, h), Min(|vb|, Shl(p + 1, h)));
    Selected(vb, Shl(p, h), Min(|vb|, Shl(p + 1, h)))
  }

  /** What a node contributes to a partial tree: its hash, the flag bits and hashes of its subtree, parents before
      children, the matched ids and positions under it, and whether an opened node has two equal children. */
  datatype Part<H> = Part(root: H, flags: seq<bool>, hashes: seq<H>, ids: seq<H>, idx: seq<nat>, twins: bool)

  function Closed<H>(root: H, h: nat, p: nat, flag: bool): Part<H> {
    Part(root, [flag], [root], if h == 0 && flag then [root] else [], if h == 0 && flag then [p] else [], false)
  }

  function Lone<H>(pair: (H, H) -> H, l: Part<H>): Part<H> {
    l.(root := pair(l.root, l.root))
  }

  function Fork<H(==)>(pair: (H, H) -> H, l: Part<H>, r: Part<H>): Part<H> {
    Part(pair(l.root, r.root), l.flags + r.flags, l.hashes + r.hashes, l.ids + r.ids, l.idx + r.idx,
         l.twins || r.twins || l.root == r.root)
  }

  /** The partial tree under a node; only nodes with a match under them are opened. */
  function Tree<H(==)>(pair: (H, H) -> H, ids: seq<H>, vb: seq<bool>, h: nat, p: nat): Part<H>
    requires p < Width(|ids|, h)
    decreases h, 1
  {
    if h == 0 || !Hit(vb, h, p) then Closed(Node(pair, ids, h, p), h, p, Hit(vb, h, p))
    else
      var inner := Opened(pair, ids, vb, h, p);
      inner.(flags := [true] + inner.flags)
  }

  /** What the children of an opened node contribute together. */
  function Opened<H(==)>(pair: (H, H) -> H, ids: seq<H>, vb: seq<bool>, h: nat, p: nat): Part<H>
    requires h > 0 && p < Width(|ids|, h)
    decreases h, 0
  {
    Children(|ids|, h, p);
    var l := Tree(pair, ids, vb, h - 1, 2 * p);
    if 2 * p + 1 < Width(|ids|, h - 1) then Fork(pair, l, Tree(pair, ids, vb, h - 1, 2 * p + 1)) else Lone(pair, l)
  }

  /** What `extract` leaves behind: the hash it computed, the two cursors, what it found, and the failure flag. */
  datatype Extraction<H> = Extraction(root: H, nbits: nat, nhash: nat, ids: seq<H>, idx: seq<nat>, bad: bool) {
    /** The same findings added to earlier ones. */
    function After(ids0: seq<H>, idx0: seq<nat>, bad0: bool): Extraction<H> {
      Extraction(root, nbits, nhash, ids0 + ids, idx0 + idx, bad0 || bad)
    }
  }

  /** A tree as it is stored. */
  datatype Stored<!H> = Stored(trans: nat, pair: (H, H) -> H, zero: H, bits: seq<bool>, vhash: seq<H>)

  function Join<H(==)>(t: Stored<H>, l: Extraction<H>, r: Extraction<H>): Extraction<H> {
    Extraction(t.pair(l.root, r.root), r.nbits, r.nhash, l.ids + r.ids, l.idx + r.idx,
               l.bad || r.bad || l.root == r.root)
  }

  /** `extract` from given cursors, on any stored tree whatever. */
  function Extract<H(==)>(t: Stored<H>, h: nat, p: nat, nbits: nat, nhash: nat): Extraction<H>
    decreases h, 1
  {
    if nbits >= |t.bits| then Extraction(t.zero, nbits, nhash, [], [], true)
    else if h == 0 || !t.bits[nbits] then
      if nhash >= |t.vhash| then Extraction(t.zero, nbits + 1, nhash, [], [], true)
      else if h == 0 && t.bits[nbits] then
        Extraction(t.vhash[nhash], nbits + 1, nhash + 1, [t.vhash[nhash]], [p], false)
      else Extraction(t.vhash[nhash], nbits + 1, nhash + 1, [], [], false)
    else ExtractBelow(t, h, p, nbits + 1, nhash)
  }

  /** `extract` of the children of a node. */
  function ExtractBelow<H(==)>(t: Stored<H>, h: nat, p: nat, nbits: nat, nhash: nat): Extraction<H>
    requires h > 0
    decreases h, 0
  {
    var l := Extract(t, h - 1, 2 * p, nbits, nhash);
    if 2 * p + 1 < Width(t.trans, h - 1)
    then Join(t, l, Extract(t, h - 1, 2 * p + 1, l.nbits, l.nhash))
    else l.(root := t.pair(l.root, l.root))
  }

  lemma {:induction false} SelectedSplit(vb: seq<bool>, lo: nat, mid: nat, hi: nat)
    requires lo <= mid && hi <= |vb|
    ensures Selected(vb, lo, hi) == Selected(vb, lo, Min(mid, hi)) + Selected(vb, mid, hi)
    decreases hi
  {
    if mid < hi {
      SelectedSplit(vb, lo, mid, hi - 1);
    }
  }

  lemma {:induction false} SelectedNone(vb: seq<bool>, lo: nat, hi: nat)
    requires hi <= |vb| && forall q :: lo <= q < hi ==> !vb[q]
    ensures Selected(vb, lo, hi) == []
    decreases hi
  {
    if lo < hi {
      SelectedNone(vb, lo, hi - 1);
    }
  }

  /** `Selected` lists exactly the matched positions of the range, in ascending order. */
  lemma {:induction false} SelectedRange(vb: seq<bool>, lo: nat, hi: nat)
    requires hi <= |vb|
    ensures Below(Selected(vb, lo, hi), hi)
    ensures forall q :: q in Selected(vb, lo, hi) <==> lo <= q < hi && vb[q]
    ensures forall i, j :: 0 <= i < j < |Selected(vb, lo, hi)| ==> Selected(vb, lo, hi)[i] < Selected(vb, lo, hi)[j]
    decreases hi
  {
    if lo < hi {
      SelectedRange(vb, lo, hi - 1);
      var before := Selected(vb, lo, hi - 1);
      forall q ensures q in Selected(vb, lo, hi) <==> lo <= q < hi && vb[q] {
        assert q in Selected(vb, lo, hi) <==> q in before || (vb[hi - 1] && q == hi - 1);
      }
    }
  }

  lemma PickAppend<H>(ids: seq<H>, a: seq<nat>, b: seq<nat>)
    requires Below(a, |ids|) && Below(b, |ids|)
    ensures Below(a + b, |ids|)
    ensures Pick(ids, a + b) == Pick(ids, a) + Pick(ids, b)
  {
  }

  /** The positions under a node are those under its children. */
  lemma UnderSplit(vb: seq<bool>, h: nat, p: nat)
    requires h > 0 && p < Width(|vb|, h)
    ensures 2 * p + 1 < Width(|vb|, h - 1) ==> Under(vb, h, p) == Under(vb, h - 1, 2 * p) + Under(vb, h - 1, 2 * p + 1)
    ensures 2 * p + 1 >= Width(|vb|, h - 1) ==> Under(vb, h, p) == Under(vb, h - 1, 2 * p)
  {
    ShlDouble(p, h - 1);
    ShlDouble(p + 1, h - 1);
    var lo, mid, hi := Shl(2 * p, h - 1), Shl(2 * p + 1, h - 1), Shl(2 * p + 2, h - 1);
    ShlOrder(2 * p, 2 * p + 1, h - 1);
    ShlOrder(2 * p + 1, 2 * p + 2, h - 1);
    BeyondWidth(|vb|, h - 1, 2 * p + 1);
    SelectedSplit(vb, lo, mid, Min(|vb|, hi));
  }

  lemma UnderLeaf(vb: seq<bool>, p: nat)
    requires p < |vb|
    ensures Hit(vb, 0, p) == vb[p]
    ensures Under(vb, 0, p) == if vb[p] then [p] else []
  {
    assert Selected(vb, p, p) == [];
  }

  predicate Holds<T(==)>(all: seq<T>, at: nat, part: seq<T>) {
    at + |part| <= |all| && forall i :: 0 <= i < |part| ==> part[i] == all[at + i]
  }

  lemma HoldsSplit<T>(all: seq<T>, at: nat, a: seq<T>, b: seq<T>)
    requires Holds(all, at, a + b)
    ensures Holds(all, at, a) && Holds(all, at + |a|, b)
  {
    forall i | 0 <= i < |a| ensures a[i] == all[at + i] {
      assert (a + b)[i] == a[i];
    }
    forall i | 0 <= i < |b| ensures b[i] == all[at + |a| + i] {
      assert (a + b)[|a| + i] == b[i];
    }
  }

  /** A part as the extraction that finds it from given cursors. */
  function Found<H>(part: Part<H>, nbits: nat, nhash: nat): Extraction<H> {
    Extraction(part.root, nbits + |part.flags|, nhash + |part.hashes|, part.ids, part.idx, part.twins)
  }

  /** Extracting from cursors that stand on what a node contributed finds exactly that contribution. */
  lemma ExtractTree<H>(t: Stored<H>, ids: seq<H>, vb: seq<bool>, h: nat, p: nat,
                                          nbits: nat, nhash: nat)
    requires |ids| == t.trans && p < Width(|ids|, h)
    requires Holds(t.bits, nbits, Tree(t.pair, ids, vb, h, p).flags)
    requires Holds(t.vhash, nhash, Tree(t.pair, ids, vb, h, p).hashes)
    ensures Extract(t, h, p, nbits, nhash) == Found(Tree(t.pair, ids, vb, h, p), nbits, nhash)
    decreases h, 1
  {
    if h == 0 || !Hit(vb, h, p) {
      assert t.bits[nbits + 0] == [Hit(vb, h, p)][0] && t.vhash[nhash + 0] == [Node(t.pair, ids, h, p)][0];
    } else {
      HoldsSplit(t.bits, nbits, [true], Opened(t.pair, ids, vb, h, p).flags);
      assert t.bits[nbits + 0] == [true][0];
      ExtractOpened(t, ids, vb, h, p, nbits + 1, nhash);
    }
  }

  lemma ExtractOpened<H>(t: Stored<H>, ids: seq<H>, vb: seq<bool>, h: nat, p: nat,
                         nbits: nat, nhash: nat)
    requires |ids| == t.trans && p < Width(|ids|, h) && h > 0
    requires Holds(t.bits, nbits, Opened(t.pair, ids, vb, h, p).flags)
    requires Holds(t.vhash, nhash, Opened(t.pair, ids, vb, h, p).hashes)
    ensures ExtractBelow(t, h, p, nbits, nhash) == Found(Opened(t.pair, ids, vb, h, p), nbits, nhash)
    decreases h, 0
  {
    Children(|ids|, h, p);
    var l := Tree(t.pair, ids, vb, h - 1, 2 * p);
    if 2 * p + 1 < Width(|ids|, h - 1) {
      var r := Tree(t.pair, ids, vb, h - 1, 2 * p + 1);
      HoldsSplit(t.bits, nbits, l.flags, r.flags);
      HoldsSplit(t.vhash, nhash, l.hashes, r.hashes);
      hide Tree, Extract, Width, Holds;
      ExtractTree(t, ids, vb, h - 1, 2 * p, nbits, nhash);
      ExtractTree(t, ids, vb, h - 1, 2 * p + 1, nbits + |l.flags|, nhash + |l.hashes|);
    } else {
      ExtractTree(t, ids, vb, h - 1, 2 * p, nbits, nhash);
    }
  }

  lemma {:induction false} TreeRoot<H>(pair: (H, H) -> H, ids: seq<H>, vb: seq<bool>, h: nat, p: nat)
    requires p < Width(|ids|, h)
    ensures Tree(pair, ids, vb, h, p).root == Node(pair, ids, h, p)
    decreases h
  {
    if h > 0 && Hit(vb, h, p) {
      Children(|ids|, h, p);
      TreeRoot(pair, ids, vb, h - 1, 2 * p);
      if 2 * p + 1 < Width(|ids|, h - 1) {
        TreeRoot(pair, ids, vb, h - 1, 2 * p + 1);
      }
    }
  }

  /** The findings of a partial tree are the matched positions under it, in order, and the ids there. */
  lemma {:induction false} TreeMatches<H>(pair: (H, H) -> H, ids: seq<H>, vb: seq<bool>, h: nat, p: nat)
    requires |ids| == |vb| && p < Width(|ids|, h)
    ensures Tree(pair, ids, vb, h, p).idx == Under(vb, h, p)
    ensures Tree(pair, ids, vb, h, p).ids == Pick(ids, Under(vb, h, p))
    decreases h
  {
    if h == 0 {
      UnderLeaf(vb, p);
    } else if !Hit(vb, h, p) {
      HitRange(vb, h, p);
      SelectedNone(vb, Shl(p, h), Min(|vb|, Shl(p + 1, h)));
    } else {
      Children(|ids|, h, p);
      UnderSplit(vb, h, p);
      TreeMatches(pair, ids, vb, h - 1, 2 * p);
      if 2 * p + 1 < Width(|ids|, h - 1) {
        TreeMatches(pair, ids, vb, h - 1, 2 * p + 1);
        PickAppend(ids, Under(vb, h - 1, 2 * p), Under(vb, h - 1, 2 * p + 1));
      }
    }
  }

  // Distinct ids and an injective pair hash leave no twins.

  ghost predicate LeftInjective<H(!new)>(pair: (H, H) -> H) {
    forall a, b, c, d :: pair(a, b) == pair(c, d) ==> a == c
  }

  lemma {:induction false} NodesDiffer<H(!new)>(pair: (H, H) -> H, ids: seq<H>, h: nat, p: nat, q: nat)
    requires LeftInjective(pair) && Distinct(ids)
    requires p < q < Width(|ids|, h)
    ensures Node(pair, ids, h, p) != Node(pair, ids, h, q)
    decreases h
  {
    if h > 0 {
      Children(|ids|, h, p);
      Children(|ids|, h, q);
      NodesDiffer(pair, ids, h - 1, 2 * p, 2 * q);
    }
  }

  lemma {:induction false} NoTwins<H(!new)>(pair: (H, H) -> H, ids: seq<H>, vb: seq<bool>, h: nat, p: nat)
    requires LeftInjective(pair) && Distinct(ids)
    requires p < Width(|ids|, h)
    ensures !Tree(pair, ids, vb, h, p).twins
    decreases h
  {
    if h > 0 && Hit(vb, h, p) {
      Children(|ids|, h, p);
      NoTwins(pair, ids, vb, h - 1, 2 * p);
      if 2 * p + 1 < Width(|ids|, h - 1) {
        NoTwins(pair, ids, vb, h - 1, 2 * p + 1);
        TreeRoot(pair, ids, vb, h - 1, 2 * p);
        TreeRoot(pair, ids, vb, h - 1, 2 * p + 1);
        NodesDiffer(pair, ids, h - 1, 2 * p, 2 * p + 1);
      }
    }
  }

  lemma AppendFlag(bits: seq<bool>, flag: bool, flags: seq<bool>)
    ensures bits + [flag] + flags == bits + ([flag] + flags)
  {
  }

  lemma Assoc<T>(a: seq<T>, b: seq<T>, c: seq<T>)
    ensures a + b + c == a + (b + c)
  {
  }

  /** The stored form of the partial tree over `ids` proving the ids that `vb` selects. */
  function Built<H(==)>(pair: (H, H) -> H, zero: H, ids: seq<H>, vb: seq<bool>): Stored<H>
    requires |ids| == |vb| > 0
  {
    RootInRange(|ids|);
    var part := Tree(pair, ids, vb, Height(|ids|), 0);
    Stored(|ids|, pair, zero, part.flags, part.hashes)
  }

  /** The partial-tree round trip: over distinct ids, extraction from a built tree uses up every bit and every
      hash, reports no failure, returns the textbook root, and finds exactly the selected ids and positions. */
  lemma PartialTreeRoundTrip<H(!new)>(pair: (H, H) -> H, zero: H, ids: seq<H>, vb: seq<bool>)
    requires |ids| == |vb| > 0
    requires LeftInjective(pair) && Distinct(ids)
    ensures Below(Selected(vb, 0, |vb|), |ids|)
    ensures var t := Built(pair, zero, ids, vb);
            Extract(t, Height(|ids|), 0, 0, 0) ==
            Extraction(Reduce(pair, ids), |t.bits|, |t.vhash|,
                       Pick(ids, Selected(vb, 0, |vb|)), Selected(vb, 0, |vb|), false)
  {
    SelectedRange(vb, 0, |vb|);
    ExtractWhole(pair, zero, ids, vb);
    RootInRange(|ids|);
    NoTwins(pair, ids, vb, Height(|ids|), 0);
  }

  /** The same without hypotheses on the ids: extraction fails exactly when the tree opened a node with twins. */
  lemma ExtractWhole<H>(pair: (H, H) -> H, zero: H, ids: seq<H>, vb: seq<bool>)
    requires |ids| == |vb| > 0
    ensures Width(|ids|, Height(|ids|)) == 1
    ensures Below(Selected(vb, 0, |vb|), |ids|)
    ensures var t := Built(pair, zero, ids, vb);
            Extract(t, Height(|ids|), 0, 0, 0) ==
            Extraction(Reduce(pair, ids), |t.bits|, |t.vhash|, Pick(ids, Selected(vb, 0, |vb|)),
                       Selected(vb, 0, |vb|), Tree(pair, ids, vb, Height(|ids|), 0).twins)
  {
    RootInRange(|ids|);
    SelectedRange(vb, 0, |vb|);
    var t, h := Built(pair, zero, ids, vb), Height(|ids|);
    assert Holds(t.bits, 0, t.bits) && Holds(t.vhash, 0, t.vhash);
    ExtractTree(t, ids, vb, h, 0, 0, 0);
    TreeRoot(pair, ids, vb, h, 0);
    TreeMatches(pair, ids, vb, h, 0);
    RootIsReduce(pair, ids);
    RootCoversAll(vb);
  }

  lemma RootCoversAll(vb: seq<bool>)
    ensures Under(vb, Height(|vb|), 0) == Selected(vb, 0, |vb|)
  {
    HeightLeast(|vb|, Height(|vb|));
    BeyondWidth(|vb|, Height(|vb|), 1);
    ShlOne(Height(|vb|));
  }

  // Sizes of the two streams.

  lemma {:induction false} StreamSizes<H>(pair: (H, H) -> H, ids: seq<H>, vb: seq<bool>, h: nat, p: nat)
    requires p < Width(|ids|, h)
    ensures var t := Tree(pair, ids, vb, h, p);
            && 1 <= |t.hashes| <= |t.flags|
            && |t.hashes| <= Min(|ids|, Shl(p + 1, h)) - Shl(p, h)
            && (|t.flags| == 1 <==> h == 0 || !Hit(vb, h, p))
    decreases h
  {
    SpanPositive(|ids|, h, p);
    if h > 0 && Hit(vb, h, p) {
      Children(|ids|, h, p);
      SpanSplit(|ids|, h, p);
      StreamSizes(pair, ids, vb, h - 1, 2 * p);
      if 2 * p + 1 < Width(|ids|, h - 1) {
        StreamSizes(pair, ids, vb, h - 1, 2 * p + 1);
      }
    }
  }

  lemma SpanPositive(n: nat, h: nat, p: nat)
    requires p < Width(n, h)
    ensures Min(n, Shl(p + 1, h)) - Shl(p, h) >= 1
  {
    BeyondWidth(n, h, p);
    ShlOrder(p, p + 1, h);
  }

  lemma SpanSplit(n: nat, h: nat, p: nat)
    requires h > 0 && p < Width(n, h)
    ensures 2 * p + 1 < Width(n, h - 1) ==>
              Min(n, Shl(2 * p + 1, h - 1)) - Shl(2 * p, h - 1) + Min(n, Shl(2 * p + 2, h - 1)) - Shl(2 * p + 1, h - 1)
              <= Min(n, Shl(p + 1, h)) - Shl(p, h)
    ensures Min(n, Shl(2 * p + 1, h - 1)) - Shl(2 * p, h - 1) <= Min(n, Shl(p + 1, h)) - Shl(p, h)
  {
    ShlDouble(p, h - 1);
    ShlDouble(p + 1, h - 1);
    ShlOrder(2 * p + 1, 2 * p + 2, h - 1);
    BeyondWidth(n, h - 1, 2 * p + 1);
  }

  /** The checks of `extract_root` on a stored tree; the rounding of the bit count is the source's. */
  function ExtractRoot<H(==)>(t: Stored<H>): Result<H> {
    if t.trans == 0 || |t.vhash| > t.trans || |t.bits| < |t.vhash| then Err
    else
      var e := Extract(t, Height(t.trans), 0, 0, 0);
      if e.bad || (e.nbits + 7) / 8 != |t.bits| + 7 / 8 || e.nhash != |t.vhash| then Err else Ok(e.root)
  }

  /** Whatever tree it is given, `extract_root` accepts it exactly if it has ids, no more hashes than ids or flags, uses
      all its hashes, never meets twins, and holds as many flags as it uses octets of them. */
  lemma ExtractRootGuards<H>(t: Stored<H>)
    ensures ExtractRoot(t).Ok? <==>
            var e := Extract(t, Height(t.trans), 0, 0, 0);
            && t.trans >= 1 && |t.vhash| <= t.trans && |t.vhash| <= |t.bits|
            && !e.bad && e.nhash == |t.vhash|
            && 8 * |t.bits| <= e.nbits + 7 < 8 * |t.bits| + 8
    ensures ExtractRoot(t).Ok? ==> ExtractRoot(t).value == Extract(t, Height(t.trans), 0, 0, 0).root
  {
    hide Extract, Height;
  }

  /** Because of that rounding `extract_root` accepts a built tree over distinct ids only when it is a single
      bit long: no id was selected, or there is just one id. */
  lemma ExtractRootAccepts<H(!new)>(pair: (H, H) -> H, zero: H, ids: seq<H>, vb: seq<bool>)
    requires |ids| == |vb| > 0
    requires LeftInjective(pair) && Distinct(ids)
    ensures ExtractRoot(Built(pair, zero, ids, vb)) ==
            if |ids| == 1 || (forall q :: 0 <= q < |vb| ==> !vb[q]) then Ok(Reduce(pair, ids)) else Err
  {
    PartialTreeRoundTrip(pair, zero, ids, vb);
    RootInRange(|ids|);
    StreamSizes(pair, ids, vb, Height(|ids|), 0);
    RootSpan(vb);
  }

  lemma RootSpan(vb: seq<bool>)
    requires |vb| > 0
    ensures Shl(0, Height(|vb|)) == 0 && Shl(1, Height(|vb|)) >= |vb|
    ensures Hit(vb, Height(|vb|), 0) <==> exists q :: 0 <= q < |vb| && vb[q]
    ensures Height(|vb|) == 0 <==> |vb| == 1
  {
    var h := Height(|vb|);
    ShlOne(h);
    HeightLeast(|vb|, h);
    BeyondWidth(|vb|, h, 1);
    HitRange(vb, h, 0);
  }

  /** The root of a non-empty list, distinct or not, is computed and is the textbook root. */
  lemma ComputeIsReduce<H>(pair: (H, H) -> H, zero: H, ids: seq<H>)
    requires |ids| > 0
    ensures ExtractRoot(Built(pair, zero, ids, seq(|ids|, i => false))) == Ok(Reduce(pair, ids))
  {
    AcceptsRootAlone(pair, zero, ids, seq(|ids|, i => false));
  }

  lemma AcceptsRootAlone<H>(pair: (H, H) -> H, zero: H, ids: seq<H>, vb: seq<bool>)
    requires |ids| == |vb| > 0 && forall q :: 0 <= q < |vb| ==> !vb[q]
    ensures ExtractRoot(Built(pair, zero, ids, vb)) == Ok(Reduce(pair, ids))
  {
    RootSpan(vb);
    ExtractWhole(pair, zero, ids, vb);
    assert Tree(pair, ids, vb, Height(|ids|), 0).flags == [false];
  }

  class MerkleTree<H(==)> {
    const pair: (H, H) -> H
    const zero: H
    var trans: nat
    var vhash: seq<H>
    var bits: seq<bool>
    var bad: bool

    function View(): Stored<H>
      reads this
    {
      Stored(trans, pair, zero, bits, vhash)
    }

    /** A partial tree over `ids` for the selection `vb`. The source indexes `ids[0]`, so the list is not empty. */
    constructor (pair: (H, H) -> H, zero: H, ids: seq<H>, vb: seq<bool>)
      requires |ids| == |vb| > 0
      ensures View() == Built(pair, zero, ids, vb) && !bad
    {
      this.pair := pair;
      this.zero := zero;
      trans := |ids|;
      vhash := [];
      bits := [];
      bad := false;
      new;
      var height := TreeHeight();
      RootInRange(|ids|);
      Build(height, 0, ids, vb);
    }

    method TreeWidth(h: nat) returns (w: nat)
      ensures w == Width(trans, h)
    {
      WidthByShift(trans, h);
      w := Shr(trans + Pow2(h) - 1, h);
    }

    method TreeHeight() returns (height: nat)
      ensures height == Height(trans)
    {
      height := 0;
      var width := TreeWidth(height);
      while width > 1
        invariant width == Width(trans, height) && height <= Height(trans)
        decreases Height(trans) - height
      {
        HeightLeast(trans, height);
        height := height + 1;
        width := TreeWidth(height);
      }
      HeightLeast(trans, height);
    }

    /** The scan over the leaves under a node. */
    method AnyMatch(height: nat, pos: nat, vb: seq<bool>) returns (bmatch: bool)
      requires |vb| == trans
      ensures bmatch == Hit(vb, height, pos)
    {
      bmatch := false;
      var p := Shl(pos, height);
      ShlOrder(pos, pos + 1, height);
      while p < Shl(pos + 1, height) && p < trans
        invariant Shl(pos, height) <= p <= Shl(pos + 1, height)
        invariant bmatch <==> exists q :: Shl(pos, height) <= q < p && q < |vb| && vb[q]
      {
        if vb[p] {
          bmatch := true;
        }
        p := p + 1;
      }
      HitRange(vb, height, pos);
    }

    method Build(height: nat, pos: nat, ids: seq<H>, vb: seq<bool>)
      requires |ids| == |vb| == trans && pos < Width(trans, height)
      modifies this
      ensures bits == old(bits) + Tree(pair, ids, vb, height, pos).flags
      ensures vhash == old(vhash) + Tree(pair, ids, vb, height, pos).hashes
      ensures trans == old(trans) && bad == old(bad)
      decreases height, 1
    {
      var bmatch := AnyMatch(height, pos, vb);
      bits := bits + [bmatch];
      if height == 0 || !bmatch {
        vhash := vhash + [Node(pair, ids, height, pos)];
      } else {
        BuildChildren(height, pos, ids, vb);
        AppendFlag(old(bits), true, Opened(pair, ids, vb, height, pos).flags);
      }
    }

    method BuildChildren(height: nat, pos: nat, ids: seq<H>, vb: seq<bool>)
      requires |ids| == |vb| == trans && pos < Width(trans, height) && height > 0
      modifies this
      ensures bits == old(bits) + Opened(pair, ids, vb, height, pos).flags
      ensures vhash == old(vhash) + Opened(pair, ids, vb, height, pos).hashes
      ensures trans == old(trans) && bad == old(bad)
      decreases height, 0
    {
      Children(trans, height, pos);
      ghost var l := Tree(pair, ids, vb, height - 1, pos * 2);
      Build(height - 1, pos * 2, ids, vb);
      var width := TreeWidth(height - 1);
      if pos * 2 + 1 < width {
        ghost var r := Tree(pair, ids, vb, height - 1, pos * 2 + 1);
        hide Tree, Width;
        Build(height - 1, pos * 2 + 1, ids, vb);
        Assoc(old(bits), l.flags, r.flags);
        Assoc(old(vhash), l.hashes, r.hashes);
      }
    }

    method ExtractAt(ghost t: Stored<H>, height: nat, pos: nat, nbits0: nat, nhash0: nat, ids0: seq<H>, idx0: seq<nat>)
      returns (root: H, nbits: nat, nhash: nat, ids: seq<H>, idx: seq<nat>)
      requires t == View()
      modifies this`bad
      ensures Extraction(root, nbits, nhash, ids, idx, bad) ==
              Extract(t, height, pos, nbits0, nhash0).After(ids0, idx0, old(bad))
      decreases height, 1
    {
      nbits, nhash, ids, idx := nbits0, nhash0, ids0, idx0;
      assert ids + [] == ids && idx + [] == idx;
      if nbits >= |bits| {
        bad := true;
        return zero, nbits, nhash, ids, idx;
      }
      var bmatch := bits[nbits];
      nbits := nbits + 1;
      if height == 0 || !bmatch {
        if nhash >= |vhash| {
          bad := true;
          return zero, nbits, nhash, ids, idx;
        }
        root := vhash[nhash];
        nhash := nhash + 1;
        if height == 0 && bmatch {
          ids := ids + [root];
          idx := idx + [pos];
        }
        return root, nbits, nhash, ids, idx;
      }
      root, nbits, nhash, ids, idx := ExtractChildren(t, height, pos, nbits, nhash, ids, idx);
    }

    method ExtractChildren(ghost t: Stored<H>, height: nat, pos: nat, nbits0: nat, nhash0: nat,
      ids0: seq<H>, idx0: seq<nat>)
      returns (root: H, nbits: nat, nhash: nat, ids: seq<H>, idx: seq<nat>)
      requires t == View() && height > 0
      modifies this`bad
      ensures Extraction(root, nbits, nhash, ids, idx, bad) ==
              ExtractBelow(t, height, pos, nbits0, nhash0).After(ids0, idx0, old(bad))
      decreases height, 0
    {
      ghost var l := Extract(t, height - 1, 2 * pos, nbits0, nhash0);
      ghost var r := Extract(t, height - 1, 2 * pos + 1, l.nbits, l.nhash);
      var left;
      left, nbits, nhash, ids, idx := ExtractAt(t, height - 1, pos * 2, nbits0, nhash0, ids0, idx0);
      var right := left;
      var width := TreeWidth(height - 1);
      if pos * 2 + 1 < width {
        right, nbits, nhash, ids, idx := ExtractAt(t, height - 1, pos * 2 + 1, nbits, nhash, ids, idx);
        if left == right {
          bad := true;
        }
        Assoc(ids0, l.ids, r.ids);
        Assoc(idx0, l.idx, r.idx);
      }
      root := pair(left, right);
    }

    method ComputeRoot() returns (r: Result<H>)
      modifies this`bad
      ensures r == ExtractRoot(View())
    {
      bad := false;
      if trans == 0 || |vhash| > trans || |bits| < |vhash| {
        return Err;
      }
      var height := TreeHeight();
      var root, nbits, nhash, ids, idx := ExtractAt(View(), height, 0, 0, 0, [], []);
      if bad {
        return Err;
      }
      if (nbits + 7) / 8 != |bits| + 7 / 8 {
        return Err;
      }
      if nhash != |vhash| {
        return Err;
      }
      r := Ok(root);
    }
  }

  /** `MerkleTree::compute`. Without nodes, building reads one that is not there: a panic. */
  method Compute<H(==)>(pair: (H, H) -> H, zero: H, nodes: seq<H>) returns (r: Result<H>)
    ensures r == if nodes == [] then Err else Ok(Reduce(pair, nodes))
  {
    if nodes == [] {
      return Err;
    }
    var merkle := new MerkleTree(pair, zero, nodes, seq(|nodes|, i => false));
    ComputeIsReduce(pair, zero, nodes);
    r := merkle.ComputeRoot();
  }
}
