/** src/store.rs: the append-only store that holds block bodies and undo logs in files of bounded size. */
module Storage {
  import opened Common

  /** Where a record lies: file number, offset, length. */
  datatype Attr = Attr(idx: nat, off: nat, len: nat)

  /** The files' contents; only the last one is written. */
  type Files = seq<Bytes>

  /** The source cuts lengths to 32 bits and adds two of them; this limit keeps both exact. */
  const MAX_LIMIT := 0x8000_0000

  predicate Bounded(files: Files, max: nat) {
    |files| > 0 && forall i :: 0 <= i < |files| ==> |files[i]| <= max
  }

  function Pushed(files: Files, max: nat, b: Bytes): (r: (Files, Result<Attr>))
    requires |files| > 0
    ensures Bounded(files, max) ==> Bounded(r.0, max)
  {
    var last := |files| - 1;
    if |b| == 0 || |b| > max then (files, Err)
    else if |files[last]| + |b| <= max then
      (files[last := files[last] + b], Ok(Attr(last, |files[last]|, |b|)))
    else (files + [b], Ok(Attr(|files|, 0, |b|)))
  }

  function Pulled(files: Files, attr: Attr): Result<Bytes> {
    if attr.idx >= |files| then Err
    else if attr.len == 0 then Ok([])
    else if attr.off + attr.len <= |files[attr.idx]| then Ok(files[attr.idx][attr.off..attr.off + attr.len])
    else Err
  }

  /** Later contents keep every byte of earlier ones in place. */
  predicate Extends(older: Files, newer: Files) {
    |older| <= |newer| && forall i :: 0 <= i < |older| ==> older[i] <= newer[i]
  }

  lemma ExtendsTransitive(a: Files, b: Files, c: Files)
    requires Extends(a, b) && Extends(b, c)
    ensures Extends(a, c)
  {
    forall i | 0 <= i < |a| ensures a[i] <= c[i] {
      assert a[i] <= b[i] && b[i] <= c[i];
    }
  }

  /** One push: earlier bytes stay, the new record reads back, and it starts where the written file ended. */
  lemma PushedStep(files: Files, max: nat, b: Bytes)
    requires |files| > 0
    ensures var (next, r) := Pushed(files, max, b);
            && Extends(files, next)
            && (r.Ok? ==> Pulled(next, r.value) == Ok(b) && r.value.len == |b| > 0)
            && (r.Ok? ==> r.value.idx >= |files| || r.value.off == |files[r.value.idx]|)
            && (r.Ok? ==> r.value.idx == |next| - 1)
            && (r.Ok? ==> |next| == if |files[|files| - 1]| + |b| <= max then |files| else |files| + 1)
            && (r.Err? ==> next == files)
            && (r.Ok? <==> 0 < |b| <= max)
  {
    var (next, r) := Pushed(files, max, b);
    if r.Ok? {
      var f := next[r.value.idx];
      assert f[r.value.off..r.value.off + r.value.len] == b;
    }
  }

  lemma PulledLater(older: Files, newer: Files, attr: Attr)
    requires Extends(older, newer) && Pulled(older, attr).Ok?
    ensures Pulled(newer, attr) == Pulled(older, attr)
  {
    if attr.len > 0 {
      var f, g := older[attr.idx], newer[attr.idx];
      assert f == g[..|f|];
      assert f[attr.off..attr.off + attr.len] == g[attr.off..attr.off + attr.len];
    }
  }

  // Runs.

  /** The files after pushing the first `n` of `bs` onto a store that starts with one empty file. */
  function After(max: nat, bs: seq<Bytes>, n: nat): (files: Files)
    requires n <= |bs|
    ensures Bounded(files, max)
  {
    if n == 0 then [[]] else Pushed(After(max, bs, n - 1), max, bs[n - 1]).0
  }

  /** What the `i`-th push returned. */
  function Issued(max: nat, bs: seq<Bytes>, i: nat): Result<Attr>
    requires i < |bs|
  {
    Pushed(After(max, bs, i), max, bs[i]).1
  }

  lemma {:induction false} RunExtends(max: nat, bs: seq<Bytes>, i: nat, j: nat)
    requires i <= j <= |bs|
    ensures Extends(After(max, bs, i), After(max, bs, j))
    decreases j
  {
    if i < j {
      RunExtends(max, bs, i, j - 1);
      PushedStep(After(max, bs, j - 1), max, bs[j - 1]);
      ExtendsTransitive(After(max, bs, i), After(max, bs, j - 1), After(max, bs, j));
    }
  }

  /** Durability: in every later state of a run, each issued address reads back exactly what was pushed, and a
      push is refused exactly when it is empty or longer than a file. */
  lemma Durable(max: nat, bs: seq<Bytes>, i: nat, j: nat)
    requires i < j <= |bs|
    ensures Issued(max, bs, i).Ok? <==> 0 < |bs[i]| <= max
    ensures Issued(max, bs, i).Ok? ==> Pulled(After(max, bs, j), Issued(max, bs, i).value) == Ok(bs[i])
  {
    PushedStep(After(max, bs, i), max, bs[i]);
    RunExtends(max, bs, i + 1, j);
    if Issued(max, bs, i).Ok? {
      PulledLater(After(max, bs, i + 1), After(max, bs, j), Issued(max, bs, i).value);
    }
  }

  predicate NoOverlap(a: Attr, b: Attr) {
    a.idx != b.idx || a.off + a.len <= b.off || b.off + b.len <= a.off
  }

  /** Records never share a byte. */
  lemma RecordsApart(max: nat, bs: seq<Bytes>, i: nat, j: nat)
    requires i < j < |bs| && Issued(max, bs, i).Ok? && Issued(max, bs, j).Ok?
    ensures NoOverlap(Issued(max, bs, i).value, Issued(max, bs, j).value)
  {
    PushedStep(After(max, bs, i), max, bs[i]);
    RunExtends(max, bs, i + 1, j);
    var a := Issued(max, bs, i).value;
    assert After(max, bs, i + 1)[a.idx] <= After(max, bs, j)[a.idx];
    PushedStep(After(max, bs, j), max, bs[j]);
  }

  function Flatten(bs: seq<Bytes>): Bytes {
    if bs == [] then [] else Flatten(bs[..|bs| - 1]) + bs[|bs| - 1]
  }

  /** The records a run accepted, in order. */
  function Accepted(max: nat, bs: seq<Bytes>, n: nat): Bytes
    requires n <= |bs|
  {
    if n == 0 then [] else Accepted(max, bs, n - 1) + if 0 < |bs[n - 1]| <= max then bs[n - 1] else []
  }

  /** Nothing is lost or added: the files end to end are the accepted records end to end. */
  lemma {:induction false} Conserved(max: nat, bs: seq<Bytes>, n: nat)
    requires n <= |bs|
    ensures Flatten(After(max, bs, n)) == Accepted(max, bs, n)
  {
    if n == 0 {
      assert Flatten([[]]) == Flatten([]) + [];
    } else {
      Conserved(max, bs, n - 1);
      var files, b := After(max, bs, n - 1), bs[n - 1];
      var last := |files| - 1;
      if 0 < |b| <= max {
        if |files[last]| + |b| <= max {
          var next := files[last := files[last] + b];
          assert next[..last] == files[..last];
          assert Flatten(next) == Flatten(files[..last]) + (files[last] + b) == Flatten(files) + b;
        } else {
          assert (files + [b])[..|files|] == files;
        }
      } else {
        assert Accepted(max, bs, n) == Accepted(max, bs, n - 1) + [];
      }
    }
  }

  /** The store object. `files` is the disk; `cache` lists the numbers of the files held open. */
  class Store {
    const max: nat
    var idx: nat
    var files: Files
    var cache: seq<nat>

    /** Every file ever issued is still open, so reading never has to reopen one. */
    ghost predicate Valid()
      reads this
    {
      && Bounded(files, max) && max < MAX_LIMIT
      && idx == |files| - 1
      && cache == seq(|files|, i => i)
    }

    /** A store on an empty directory. */
    constructor (max: nat)
      requires max < MAX_LIMIT
      ensures Valid() && this.max == max && files == [[]]
    {
      this.max := max;
      idx := 0;
      files := [[]];
      cache := [0];
    }

    method CacheFile(i: nat) returns (found: bool)
      requires Valid()
      ensures found <==> i < |files|
    {
      var k := 0;
      while k < |cache|
        invariant 0 <= k <= |cache|
        invariant i >= k
      {
        if cache[k] == i {
          return true;
        }
        k := k + 1;
      }
      found := false;
    }

    /** Moves to a new file when the record does not fit; returns the offset the record will have. */
    method CheckNext(l: nat) returns (r: Result<nat>)
      requires Valid() && l > 0
      modifies this
      ensures Valid()
      ensures r == if l > max then Err
                   else if |old(files)[|old(files)| - 1]| + l <= max then Ok(|old(files)[|old(files)| - 1]|)
                   else Ok(0)
      ensures files == if l > max || |old(files)[|old(files)| - 1]| + l <= max then old(files) else old(files) + [[]]
    {
      if l > max {
        return Err;
      }
      var pos := |files[idx]|;
      if pos + l <= max {
        return Ok(pos);
      }
      files := files + [[]];
      idx := idx + 1;
      cache := cache + [idx];
      r := Ok(0);
    }

    /** Writes until everything is written; each write may take any part of what is left. */
    method Append(b: Bytes)
      requires Valid() && |files[idx]| + |b| <= max
      modifies this`files
      ensures Valid() && files == old(files)[idx := old(files)[idx] + b]
    {
      var p := 0;
      ghost var start := files[idx];
      assert start + b[..0] == start;
      while |b| - p > 0
        invariant 0 <= p <= |b|
        invariant Valid() && |files| == |old(files)| && files[idx] == start + b[..p]
        invariant forall i :: 0 <= i < idx ==> files[i] == old(files)[i]
      {
        var wl :| 1 <= wl <= |b| - p;
        files := files[idx := files[idx] + b[p..p + wl]];
        assert b[..p] + b[p..p + wl] == b[..p + wl];
        p := p + wl;
      }
      assert b[..p] == b;
    }

    method Push(b: Bytes) returns (r: Result<Attr>)
      requires Valid() && |b| < 0x1_0000_0000
      modifies this
      ensures Valid() && (files, r) == Pushed(old(files), max, b)
    {
      if |b| == 0 {
        return Err;
      }
      var pos :- CheckNext(|b|);
      Append(b);
      assert [] + b == b;
      assert pos == 0 && |files| > |old(files)| ==> files == old(files) + [b];
      r := Ok(Attr(idx, pos, |b|));
    }

    /** Reads until the buffer is full; a read at the end of the file returns nothing and fails. */
    method Pull(attr: Attr) returns (r: Result<Bytes>)
      requires Valid()
      ensures r == Pulled(files, attr)
    {
      var open := CacheFile(attr.idx);
      if !open {
        return Err;
      }
      var f := files[attr.idx];
      var buf: Bytes := [];
      while |buf| < attr.len
        invariant |buf| <= attr.len
        invariant |buf| > 0 ==> attr.off + |buf| <= |f| && buf == f[attr.off..attr.off + |buf|]
        decreases attr.len - |buf|
      {
        if attr.off + |buf| >= |f| {
          return Err;
        }
        var rl :| 1 <= rl <= attr.len - |buf| && rl <= |f| - (attr.off + |buf|);
        buf := buf + f[attr.off + |buf|..attr.off + |buf| + rl];
      }
      r := Ok(buf);
    }
  }
}
