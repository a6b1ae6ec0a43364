/** src/leveldb.rs: write batches that keep an undo log, the log's byte form, and replaying it. */
module Journal {
  import opened Common
  import opened Iobuf

  datatype Op<+K, +V> = Put(k: K, v: V) | Del(k: K)

  /** Batches are written front to back. */
  function Applied<K, V>(ops: seq<Op<K, V>>, db: map<K, V>): map<K, V> {
    if ops == [] then db else Once(ops[|ops| - 1], Applied(ops[..|ops| - 1], db))
  }

  function Once<K, V>(op: Op<K, V>, db: map<K, V>): map<K, V> {
    match op
    case Put(k, v) => db[k := v]
    case Del(k) => db - {k}
  }

  function Get<K, V>(db: map<K, V>, k: K): Option<V> {
    if k in db then Some(db[k]) else None
  }

  /** One request to a batch. What the caller says was there goes to the undo log. */
  datatype Edit<+K, +V> =
    | Insert(k: K, v: V)
    | Replace(k: K, v: V, was: V)
    | Remove(k: K, gone: Option<V>)

  function Forward1<K, V>(e: Edit<K, V>): Op<K, V> {
    match e
    case Insert(k, v) => Put(k, v)
    case Replace(k, v, _) => Put(k, v)
    case Remove(k, _) => Del(k)
  }

  function Reverse1<K, V>(e: Edit<K, V>): seq<Op<K, V>> {
    match e
    case Insert(k, _) => [Del(k)]
    case Replace(k, _, was) => [Put(k, was)]
    case Remove(k, Some(v)) => [Put(k, v)]
    case Remove(_, None) => []
  }

  function Forward<K, V>(es: seq<Edit<K, V>>): (r: seq<Op<K, V>>)
    ensures |r| == |es|
  {
    if es == [] then [] else Forward(es[..|es| - 1]) + [Forward1(es[|es| - 1])]
  }

  /** The undo log: in the order of the requests, not reversed. */
  function Reverse<K, V>(es: seq<Edit<K, V>>): (r: seq<Op<K, V>>)
    ensures |r| <= |es|
  {
    if es == [] then [] else Reverse(es[..|es| - 1]) + Reverse1(es[|es| - 1])
  }

  lemma {:induction false} ForwardJoin<K, V>(a: seq<Edit<K, V>>, b: seq<Edit<K, V>>)
    ensures Forward(a + b) == Forward(a) + Forward(b)
  {
    if b == [] {
      assert a + b == a;
      assert Forward(a) + [] == Forward(a);
    } else {
      assert (a + b)[..|a + b| - 1] == a + b[..|b| - 1];
      ForwardJoin(a, b[..|b| - 1]);
    }
  }

  lemma {:induction false} ReverseJoin<K, V>(a: seq<Edit<K, V>>, b: seq<Edit<K, V>>)
    ensures Reverse(a + b) == Reverse(a) + Reverse(b)
  {
    if b == [] {
      assert a + b == a;
      assert Reverse(a) + [] == Reverse(a);
    } else {
      var less, last := b[..|b| - 1], Reverse1(b[|b| - 1]);
      assert (a + b)[..|a + b| - 1] == a + less;
      ReverseJoin(a, less);
      assert Reverse(a) + Reverse(less) + last == Reverse(a) + (Reverse(less) + last);
    }
  }

  lemma OneEdit<K, V>(e: Edit<K, V>)
    ensures Forward<K, V>([]) == [] && Forward([e]) == [Forward1(e)] && Reverse([e]) == Reverse1(e)
  {
    assert [e][..0] == [];
    assert [] + Reverse1(e) == Reverse1(e);
  }

  // What replaying does, key by key.

  datatype Fate<+V> = Kept | Gone | Became(v: V)

  function Fate1<K(==), V>(op: Op<K, V>, k: K): Fate<V> {
    if op.k != k then Kept else if op.Put? then Became(op.v) else Gone
  }

  /** The last operation on `k` decides. */
  function FateOf<K(==), V>(ops: seq<Op<K, V>>, k: K): Fate<V> {
    if ops == [] then Kept
    else if ops[|ops| - 1].k == k then Fate1(ops[|ops| - 1], k)
    else FateOf(ops[..|ops| - 1], k)
  }

  function Outcome<V>(f: Fate<V>, v: Option<V>): Option<V> {
    match f
    case Kept => v
    case Gone => None
    case Became(w) => Some(w)
  }

  lemma {:induction false} AppliedAt<K, V>(ops: seq<Op<K, V>>, db: map<K, V>, k: K)
    ensures Get(Applied(ops, db), k) == Outcome(FateOf(ops, k), Get(db, k))
  {
    if ops != [] {
      AppliedAt(ops[..|ops| - 1], db, k);
    }
  }

  lemma {:induction false} FateJoin<K, V>(a: seq<Op<K, V>>, b: seq<Op<K, V>>, k: K)
    ensures FateOf(a + b, k) == if FateOf(b, k) == Kept then FateOf(a, k) else FateOf(b, k)
  {
    if b == [] {
      assert a + b == a;
    } else {
      assert (a + b)[..|a + b| - 1] == a + b[..|b| - 1];
      FateJoin(a, b[..|b| - 1], k);
    }
  }

  lemma FateOne<K, V>(op: Op<K, V>, k: K)
    ensures FateOf([op], k) == Fate1(op, k)
  {
    assert [op][..0] == [];
  }

  function Touched<K, V>(es: seq<Edit<K, V>>): set<K> {
    if es == [] then {} else Touched(es[..|es| - 1]) + {es[|es| - 1].k}
  }

  lemma {:induction false} TouchedEach<K, V>(es: seq<Edit<K, V>>, k: K)
    ensures k in Touched(es) <==> exists i :: 0 <= i < |es| && es[i].k == k
  {
    if es != [] {
      TouchedEach(es[..|es| - 1], k);
    }
  }

  lemma {:induction false} Untouched<K, V>(es: seq<Edit<K, V>>, k: K)
    requires k !in Touched(es)
    ensures FateOf(Forward(es), k) == Kept && FateOf(Reverse(es), k) == Kept
  {
    if es != [] {
      Untouched(es[..|es| - 1], k);
      LastForward(es, k);
      LastReverse(es, k);
    }
  }

  lemma LastForward<K, V>(es: seq<Edit<K, V>>, k: K)
    requires es != []
    ensures FateOf(Forward(es), k) ==
            if es[|es| - 1].k == k then Fate1(Forward1(es[|es| - 1]), k) else FateOf(Forward(es[..|es| - 1]), k)
  {
    assert Forward(es)[..|es| - 1] == Forward(es[..|es| - 1]);
  }

  lemma LastReverse<K, V>(es: seq<Edit<K, V>>, k: K)
    requires es != []
    ensures var e, before := es[|es| - 1], Reverse(es[..|es| - 1]);
            FateOf(Reverse(es), k) == if e.k == k && Reverse1(e) != [] then Fate1(Reverse1(e)[0], k)
              else FateOf(before, k)
  {
    var e, before := es[|es| - 1], Reverse(es[..|es| - 1]);
    assert Reverse(es) == before + Reverse1(e);
    hide Reverse;
    FateJoin(before, Reverse1(e), k);
    if Reverse1(e) != [] {
      assert Reverse1(e) == [Reverse1(e)[0]];
      FateOne(Reverse1(e)[0], k);
    }
  }

  /** A key with no undo record was only ever removed, without saying what was there. */
  lemma {:induction false} Unrecorded<K, V>(es: seq<Edit<K, V>>, k: K)
    requires k in Touched(es) && FateOf(Reverse(es), k) == Kept
    ensures FateOf(Forward(es), k) == Gone
  {
    LastForward(es, k);
    LastReverse(es, k);
    if es[|es| - 1].k != k {
      Unrecorded(es[..|es| - 1], k);
    }
  }

  /** The undo log tells, of every key touched, what the database held before the batch. */
  ghost predicate Tells<K(!new), V>(es: seq<Edit<K, V>>, db: map<K, V>) {
    forall k :: k in Touched(es) ==>
      match FateOf(Reverse(es), k)
      case Kept => k !in db
      case Gone => k !in db
      case Became(v) => Get(db, k) == Some(v)
  }

  /** Replaying the undo log front to back restores the database exactly when, of each key touched, its last undo
      record tells the value before the batch (and a key without a record was absent). */
  lemma UndoExact<K(!new), V>(es: seq<Edit<K, V>>, db: map<K, V>)
    ensures Applied(Reverse(es), Applied(Forward(es), db)) == db <==> Tells(es, db)
  {
    var mid := Applied(Forward(es), db);
    var end := Applied(Reverse(es), mid);
    forall k
      ensures k !in Touched(es) ==> Get(end, k) == Get(db, k)
      ensures k in Touched(es) ==>
                (Get(end, k) == Get(db, k) <==>
                 match FateOf(Reverse(es), k) case Kept => k !in db case Gone => k !in db
                                               case Became(v) => Get(db, k) == Some(v))
    {
      UndoAt(es, db, k);
    }
    hide Applied, FateOf, Touched;
    if Tells(es, db) {
      SameGets(end, db);
    }
  }

  lemma UndoAt<K, V>(es: seq<Edit<K, V>>, db: map<K, V>, k: K)
    ensures var end := Applied(Reverse(es), Applied(Forward(es), db));
            && (k !in Touched(es) ==> Get(end, k) == Get(db, k))
            && (k in Touched(es) ==>
                  (Get(end, k) == Get(db, k) <==>
                   match FateOf(Reverse(es), k)
                   case Kept => k !in db case Gone => k !in db case Became(v) => Get(db, k) == Some(v)))
  {
    hide Applied, FateOf, Touched, Forward, Reverse;
    AppliedAt(Forward(es), db, k);
    AppliedAt(Reverse(es), Applied(Forward(es), db), k);
    if k !in Touched(es) {
      Untouched(es, k);
    } else if FateOf(Reverse(es), k) == Kept {
      Unrecorded(es, k);
    }
  }

  lemma SameGets<K(!new), V>(a: map<K, V>, b: map<K, V>)
    requires forall k :: Get(a, k) == Get(b, k)
    ensures a == b
  {
    forall k ensures k in a <==> k in b {
      assert Get(a, k) == Get(b, k);
    }
    forall k | k in a ensures a[k] == b[k] {
      assert Get(a, k) == Get(b, k);
    }
  }

  /** A request that says truly what the database held. */
  predicate Truthful1<K, V(==)>(e: Edit<K, V>, db: map<K, V>) {
    match e
    case Insert(k, _) => k !in db
    case Replace(k, _, was) => Get(db, k) == Some(was)
    case Remove(k, gone) => Get(db, k) == gone
  }

  predicate Truthful<K, V(==)>(es: seq<Edit<K, V>>, db: map<K, V>) {
    forall i :: 0 <= i < |es| ==> Truthful1(es[i], db)
  }

  lemma TruthfulJoin<K, V>(a: seq<Edit<K, V>>, b: seq<Edit<K, V>>, db: map<K, V>)
    ensures Truthful(a + b, db) <==> Truthful(a, db) && Truthful(b, db)
  {
    hide Truthful1;
    if Truthful(a + b, db) {
      assert forall i :: 0 <= i < |a| ==> a[i] == (a + b)[i];
      assert forall i :: 0 <= i < |b| ==> b[i] == (a + b)[|a| + i];
    }
  }

  lemma TruthfulOne<K, V>(e: Edit<K, V>, db: map<K, V>)
    ensures Truthful([e], db) <==> Truthful1(e, db)
  {
    assert [e][0] == e;
  }

  lemma {:induction false} TruthfulTells<K, V>(es: seq<Edit<K, V>>, db: map<K, V>, k: K)
    requires Truthful(es, db) && k in Touched(es)
    ensures match FateOf(Reverse(es), k)
            case Kept => k !in db case Gone => k !in db case Became(v) => Get(db, k) == Some(v)
  {
    LastReverse(es, k);
    var e := es[|es| - 1];
    assert Truthful1(e, db);
    var before := es[..|es| - 1];
    assert Truthful(before, db) by {
      forall i | 0 <= i < |before| ensures Truthful1(before[i], db) {
        assert Truthful1(es[i], db);
      }
    }
    if e.k != k {
      TruthfulTells(before, db, k);
    } else if Reverse1(e) == [] {
      if k in Touched(before) {
        TruthfulTells(before, db, k);
      } else {
        Untouched(before, k);
      }
    }
  }

  /** Requests that are all true of the database before the batch are undone exactly. */
  lemma TruthfulUndone<K(!new), V>(es: seq<Edit<K, V>>, db: map<K, V>)
    requires Truthful(es, db)
    ensures Applied(Reverse(es), Applied(Forward(es), db)) == db
  {
    forall k | k in Touched(es)
      ensures match FateOf(Reverse(es), k)
              case Kept => k !in db case Gone => k !in db case Became(v) => Get(db, k) == Some(v)
    {
      TruthfulTells(es, db, k);
    }
    UndoExact(es, db);
    hide FateOf, Applied, Touched;
  }

  /** Requests each true of the database as the earlier ones left it. */
  predicate TruthfulInTurn<K, V(==)>(es: seq<Edit<K, V>>, db: map<K, V>) {
    forall i :: 0 <= i < |es| ==> Truthful1(es[i], Applied(Forward(es[..i]), db))
  }

  /** If no key is touched twice, being true in turn is being true of the database before the batch. */
  lemma OncePerKey<K, V>(es: seq<Edit<K, V>>, db: map<K, V>)
    requires forall i, j :: 0 <= i < j < |es| ==> es[i].k != es[j].k
    ensures TruthfulInTurn(es, db) <==> Truthful(es, db)
  {
    forall i | 0 <= i < |es|
      ensures Truthful1(es[i], Applied(Forward(es[..i]), db)) <==> Truthful1(es[i], db)
    {
      TouchedEach(es[..i], es[i].k);
      Untouched(es[..i], es[i].k);
      AppliedAt(Forward(es[..i]), db, es[i].k);
      hide Applied, FateOf, Forward, Touched;
    }
    hide Applied, FateOf, Forward, Truthful1;
  }

  /** The same log replayed back to front needs no such care. */
  lemma {:induction false} BackwardUndo<K(!new), V>(es: seq<Edit<K, V>>, db: map<K, V>)
    requires TruthfulInTurn(es, db)
    ensures Applied(Reversed(Reverse(es)), Applied(Forward(es), db)) == db
  {
    if es != [] {
      var before, e := es[..|es| - 1], es[|es| - 1];
      forall i | 0 <= i < |before| ensures Truthful1(before[i], Applied(Forward(before[..i]), db)) {
        assert before[..i] == es[..i];
        assert Truthful1(es[i], Applied(Forward(es[..i]), db));
      }
      BackwardUndo(before, db);
      var mid := Applied(Forward(before), db);
      assert Truthful1(e, mid);
      ForwardLast(es, db);
      ReversedJoin(Reverse(before), Reverse1(e));
      AppliedJoin(Reversed(Reverse1(e)), Reversed(Reverse(before)), Once(Forward1(e), mid));
      UndoneOnce(e, mid);
    }
  }

  function Reversed<T>(s: seq<T>): (r: seq<T>)
    ensures |r| == |s|
  {
    if s == [] then [] else [s[|s| - 1]] + Reversed(s[..|s| - 1])
  }

  lemma ForwardLast<K, V>(es: seq<Edit<K, V>>, db: map<K, V>)
    requires es != []
    ensures Applied(Forward(es), db) == Once(Forward1(es[|es| - 1]), Applied(Forward(es[..|es| - 1]), db))
  {
    assert Forward(es)[..|es| - 1] == Forward(es[..|es| - 1]);
  }

  lemma ReversedJoin<T>(a: seq<T>, b: seq<T>)
    requires |b| <= 1
    ensures Reversed(a + b) == Reversed(b) + Reversed(a)
  {
    if b == [] {
      assert a + b == a;
    } else {
      assert (a + b)[..|a|] == a;
      assert b[..0] == [];
      assert Reversed(b) == [b[0]];
    }
  }

  lemma {:induction false} AppliedJoin<K, V>(a: seq<Op<K, V>>, b: seq<Op<K, V>>, db: map<K, V>)
    ensures Applied(a + b, db) == Applied(b, Applied(a, db))
  {
    if b == [] {
      assert a + b == a;
    } else {
      AppliedJoin(a, b[..|b| - 1], db);
      assert (a + b)[..|a + b| - 1] == a + b[..|b| - 1];
    }
  }

  lemma UndoneOnce<K, V>(e: Edit<K, V>, db: map<K, V>)
    requires Truthful1(e, db)
    ensures Applied(Reversed(Reverse1(e)), Once(Forward1(e), db)) == db
  {
    var r := Reverse1(e);
    if r == [] {
      assert Reversed(r) == [];
    } else {
      assert r[..0] == [];
      assert Reversed(r) == r;
      assert r[..|r| - 1] == [];
      assert Applied(r, Once(Forward1(e), db)) == Once(r[0], Once(Forward1(e), db));
    }
  }

  /** Front to back, a key written twice in one batch is not restored although every request was true in turn. */
  lemma TwiceIsLost<K, V>(k: K, v: V, w: V)
    ensures var es, db := [Insert(k, v), Replace(k, w, v)], map[];
            && TruthfulInTurn(es, db)
            && Applied(Reverse(es), Applied(Forward(es), db)) == map[k := v] != db
  {
    hide Applied, Forward, Reverse;
    var first: Edit<K, V>, second: Edit<K, V> := Insert(k, v), Replace(k, w, v);
    var es, db := [first, second], map[];
    Two(first, second);
    assert Reverse(es) == [Del(k), Put(k, v)];
    AppliedTwo<K, V>(Put(k, v), Put(k, w), db);
    AppliedTwo<K, V>(Del(k), Put(k, v), map[k := w]);
    assert db[k := v] == map[k := v] && map[k := v][k := w] == map[k := w];
    assert (map[k := w] - {k})[k := v] == map[k := v];
    assert es[..0] == [] && es[..1] == [first];
    OneEdit(first);
    AppliedOne<K, V>(Put(k, v), db);
    forall i | 0 <= i < 2 ensures Truthful1(es[i], Applied(Forward(es[..i]), db)) {
      assert i == 0 || i == 1;
    }
  }

  lemma AppliedOne<K, V>(a: Op<K, V>, db: map<K, V>)
    ensures Applied([], db) == db && Applied([a], db) == Once(a, db)
  {
    assert [a][..0] == [];
  }

  lemma AppliedTwo<K, V>(a: Op<K, V>, b: Op<K, V>, db: map<K, V>)
    ensures Applied([a, b], db) == Once(b, Once(a, db))
  {
    assert [a, b][..1] == [a];
    AppliedOne(a, db);
  }

  lemma Two<K, V>(a: Edit<K, V>, b: Edit<K, V>)
    ensures Forward([a, b]) == [Forward1(a), Forward1(b)] && Reverse([a, b]) == Reverse1(a) + Reverse1(b)
  {
    assert [a, b][..1] == [a];
    OneEdit(a);
  }

  // The log as bytes.

  type RawOp = Op<Bytes, Bytes>

  const MAX_KEY_VALUE := 0xFFFF

  /** Lengths the writer can put in sixteen bits. */
  predicate Fits(op: RawOp) {
    |op.k| <= 0xFFFF && (op.Put? ==> |op.v| <= 0xFFFF)
  }

  /** Lengths a batch accepts. */
  predicate Short(op: RawOp) {
    |op.k| < MAX_KEY_VALUE && (op.Put? ==> |op.v| < MAX_KEY_VALUE)
  }

  function OpBytes(op: RawOp): (r: Bytes)
    ensures |r| > 0
  {
    match op
    case Put(k, v) => [1] + (LE(|k|, 2) + (k + (LE(|v|, 2) + v)))
    case Del(k) => [2] + (LE(|k|, 2) + k)
  }

  function OpParts(ops: seq<RawOp>): (r: seq<Bytes>)
    ensures |r| == |ops|
  {
    seq(|ops|, i requires 0 <= i < |ops| => OpBytes(ops[i]))
  }

  function LogBytes(ops: seq<RawOp>): Bytes {
    Concat(OpParts(ops))
  }

  function ReadSized(s: Bytes): (r: Result<Parsed<Bytes>>)
    ensures r.Ok? ==> |r.value.rest| <= |s|
  {
    var n :- UInt(s, 2);
    Take(n.rest, n.value)
  }

  /** One record; a record longer than a batch accepts is a panic in the source. */
  function ReadOp(s: Bytes): (r: Result<Parsed<RawOp>>)
    ensures r.Ok? ==> Short(r.value.value) && |r.value.rest| < |s|
  {
    if s == [] then Err
    else if s[0] == 1 then
      var k :- ReadSized(s[1..]);
      var v :- ReadSized(k.rest);
      if Short(Put(k.value, v.value)) then Ok(Parsed(Put(k.value, v.value), v.rest)) else Err
    else if s[0] == 2 then
      var k :- ReadSized(s[1..]);
      if Short(Del(k.value)) then Ok(Parsed(Del(k.value), k.rest)) else Err
    else Err
  }

  function ReadLog(s: Bytes): (r: Result<seq<RawOp>>)
    ensures r.Ok? ==> forall i :: 0 <= i < |r.value| ==> Short(r.value[i])
    decreases |s|
  {
    if s == [] then Ok([])
    else
      var p :- ReadOp(s);
      var t :- ReadLog(p.rest);
      Ok([p.value] + t)
  }

  lemma SizedBack(b: Bytes, t: Bytes)
    requires |b| <= 0xFFFF
    ensures ReadSized(LE(|b|, 2) + (b + t)) == Ok(Parsed(b, t))
  {
    Powers();
    ReadUInt(|b|, 2, b + t);
    ReadTake(b, t);
    hide UInt, Take, LE;
  }

  lemma OpBack(op: RawOp, t: Bytes)
    requires Short(op)
    ensures ReadOp(OpBytes(op) + t) == Ok(Parsed(op, t))
  {
    hide ReadSized, LE;
    match op
    case Put(k, v) =>
      var vt := LE(|v|, 2) + (v + t);
      PutShape(LE(|k|, 2), k, LE(|v|, 2), v, t);
      SizedBack(k, vt);
      SizedBack(v, t);
      TagRead(1, LE(|k|, 2) + (k + vt));
    case Del(k) =>
      assert ([2] + (LE(|k|, 2) + k)) + t == [2] + (LE(|k|, 2) + (k + t));
      SizedBack(k, t);
      TagRead(2, LE(|k|, 2) + (k + t));
  }

  lemma TagRead(tag: Byte, s: Bytes)
    ensures ([tag] + s)[0] == tag && ([tag] + s)[1..] == s
  {
  }

  lemma PutShape(a: Bytes, k: Bytes, b: Bytes, v: Bytes, t: Bytes)
    ensures ([1] + (a + (k + (b + v)))) + t == [1] + (a + (k + (b + (v + t))))
  {
  }

  lemma {:induction false} LogBack(ops: seq<RawOp>)
    requires forall i :: 0 <= i < |ops| ==> Short(ops[i])
    ensures ReadLog(LogBytes(ops)) == Ok(ops)
  {
    hide ReadOp, OpBytes;
    if ops != [] {
      assert OpParts(ops)[1..] == OpParts(ops[1..]);
      assert LogBytes(ops) == OpBytes(ops[0]) + LogBytes(ops[1..]);
      OpBack(ops[0], LogBytes(ops[1..]));
      LogBack(ops[1..]);
      assert [ops[0]] + ops[1..] == ops;
    }
  }

  /** A log reads back exactly when every record is one a batch accepts, one byte short of what the length field
      could hold. */
  lemma LogRoundTrip(ops: seq<RawOp>)
    requires forall i :: 0 <= i < |ops| ==> Fits(ops[i])
    ensures ReadLog(LogBytes(ops)) == Ok(ops) <==> forall i :: 0 <= i < |ops| ==> Short(ops[i])
  {
    hide ReadLog, LogBytes;
    if forall i :: 0 <= i < |ops| ==> Short(ops[i]) {
      LogBack(ops);
    }
    var r := ReadLog(LogBytes(ops));
  }

  function Raw1<K, V>(kb: K -> Bytes, vb: V -> Bytes, op: Op<K, V>): RawOp {
    match op
    case Put(k, v) => Put(kb(k), vb(v))
    case Del(k) => Del(kb(k))
  }

  function Raw<K, V>(kb: K -> Bytes, vb: V -> Bytes, ops: seq<Op<K, V>>): (r: seq<RawOp>)
    ensures |r| == |ops|
  {
    seq(|ops|, i requires 0 <= i < |ops| => Raw1(kb, vb, ops[i]))
  }

  /** The batch object, over keys and values that have a byte form. */
  class IBatch<K, V> {
    const keyBytes: K -> Bytes
    const packed: V -> Bytes
    var b: seq<Op<K, V>>
    var f: Option<seq<Op<K, V>>>

    constructor (rev: bool, keyBytes: K -> Bytes, packed: V -> Bytes)
      ensures this.keyBytes == keyBytes && this.packed == packed
      ensures b == [] && f == if rev then Some([]) else None
    {
      this.keyBytes, this.packed := keyBytes, packed;
      b := [];
      f := if rev then Some([]) else None;
    }

    method Clear()
      modifies this
      ensures b == [] && f == if old(f).None? then None else Some([])
    {
      b := [];
      if f.Some? {
        f := Some([]);
      }
    }

    /** `del`; the value, if given, is kept for the undo log. */
    method Del(k: K, v: Option<V>)
      requires |keyBytes(k)| < MAX_KEY_VALUE && (v.Some? && f.Some? ==> |packed(v.value)| < MAX_KEY_VALUE)
      modifies this
      ensures b == old(b) + [Forward1(Remove(k, v))]
      ensures f == Recorded(old(f), Reverse1(Remove(k, v)))
    {
      b := b + [Op.Del(k)];
      if v.None? || f.None? {
        assert f.Some? ==> f.value + [] == f.value;
        return;
      }
      f := Some(f.value + [Op.Put(k, v.value)]);
    }

    method Put(k: K, v: V)
      requires |keyBytes(k)| < MAX_KEY_VALUE && |packed(v)| < MAX_KEY_VALUE
      modifies this
      ensures b == old(b) + [Forward1(Insert(k, v))]
      ensures f == Recorded(old(f), Reverse1(Insert(k, v)))
    {
      b := b + [Op.Put(k, v)];
      if f.Some? {
        f := Some(f.value + [Op.Del(k)]);
      }
    }

    method Set(k: K, v: V, was: V)
      requires |keyBytes(k)| < MAX_KEY_VALUE && |packed(v)| < MAX_KEY_VALUE
      requires f.Some? ==> |packed(was)| < MAX_KEY_VALUE
      modifies this
      ensures b == old(b) + [Forward1(Replace(k, v, was))]
      ensures f == Recorded(old(f), Reverse1(Replace(k, v, was)))
    {
      b := b + [Op.Put(k, v)];
      if f.Some? {
        f := Some(f.value + [Op.Put(k, was)]);
      }
    }

    method ToBytes() returns (r: Bytes)
      requires forall i :: 0 <= i < |b| ==> Fits(Raw1(keyBytes, packed, b[i]))
      ensures r == LogBytes(Raw(keyBytes, packed, b))
    {
      r := Iterate(Raw(keyBytes, packed, b));
    }

    /** The undo log as bytes; empty when none is kept. */
    method ReverseBytes() returns (r: Bytes)
      requires f.Some? ==> forall i :: 0 <= i < |f.value| ==> Fits(Raw1(keyBytes, packed, f.value[i]))
      ensures r == if f.Some? then LogBytes(Raw(keyBytes, packed, f.value)) else []
    {
      if f.Some? {
        r := Iterate(Raw(keyBytes, packed, f.value));
      } else {
        r := [];
      }
    }

    static method Iterate(ops: seq<RawOp>) returns (r: Bytes)
      requires forall i :: 0 <= i < |ops| ==> Fits(ops[i])
      ensures r == LogBytes(ops)
    {
      hide OpBytes;
      var w := new Writer();
      ghost var parts := OpParts(ops);
      assert parts[..0] == [];
      for i := 0 to |ops|
        invariant w.inner == Concat(parts[..i])
      {
        ConcatPush(parts, i);
        WriteOp(w, ops[i]);
      }
      assert parts[..|ops|] == parts;
      r := w.inner;
    }

    static method WriteOp(w: Writer, op: RawOp)
      requires Fits(op)
      modifies w
      ensures w.inner == old(w.inner) + OpBytes(op)
    {
      hide LE;
      match op {
        case Put(k, v) =>
          w.PutBytes([1]);
          w.PutUInt(|k|, 2);
          w.PutBytes(k);
          w.PutUInt(|v|, 2);
          w.PutBytes(v);
          PutWritten(old(w.inner), LE(|k|, 2), k, LE(|v|, 2), v);
        case Del(k) =>
          w.PutBytes([2]);
          w.PutUInt(|k|, 2);
          w.PutBytes(k);
          DelWritten(old(w.inner), LE(|k|, 2), k);
      }
    }
  }

  function Recorded<T>(f: Option<seq<T>>, more: seq<T>): Option<seq<T>> {
    if f.None? then None else Some(f.value + more)
  }

  lemma PutWritten(s: Bytes, a: Bytes, k: Bytes, b: Bytes, v: Bytes)
    ensures s + [1] + a + k + b + v == s + ([1] + (a + (k + (b + v))))
  {
  }

  lemma DelWritten(s: Bytes, a: Bytes, k: Bytes)
    ensures s + [2] + a + k == s + ([2] + (a + k))
  {
  }

  function Identity(s: Bytes): Bytes {
    s
  }

  /** Rebuilds a batch from its bytes. */
  method ParseBatch(s: Bytes) returns (r: Result<IBatch<Bytes, Bytes>>)
    ensures r.Ok? == ReadLog(s).Ok?
    ensures r.Ok? ==> fresh(r.value) && r.value.b == ReadLog(s).value && r.value.f.None?
    ensures r.Ok? ==> r.value.keyBytes == Identity && r.value.packed == Identity
  {
    var reader := new Reader(s);
    var batch := new IBatch(false, Identity, Identity);
    assert ReadLog(s).Ok? ==> [] + ReadLog(s).value == ReadLog(s).value;
    while |reader.inner| > 0
      invariant batch.f.None? && batch.keyBytes == Identity && batch.packed == Identity
      invariant ReadLog(s) == After(batch.b, ReadLog(reader.inner))
      invariant fresh(batch) && fresh(reader)
      decreases |reader.inner|
    {
      hide ReadOp, ReadLog;
      AfterStep(batch.b, reader.inner);
      var op :- ParseOp(reader);
      match op {
        case Put(k, v) => batch.Put(k, v);
        case Del(k) => batch.Del(k, None);
      }
    }
    assert ReadLog(reader.inner) == Ok([]);
    assert batch.b + [] == batch.b;
    r := Ok(batch);
  }

  function After(done: seq<RawOp>, more: Result<seq<RawOp>>): Result<seq<RawOp>> {
    if more.Err? then Err else Ok(done + more.value)
  }

  lemma AfterStep(done: seq<RawOp>, s: Bytes)
    requires s != []
    ensures ReadOp(s).Err? ==> After(done, ReadLog(s)).Err?
    ensures ReadOp(s).Ok? ==>
              After(done, ReadLog(s)) == After(done + [ReadOp(s).value.value], ReadLog(ReadOp(s).value.rest))
  {
    hide ReadOp;
    if ReadOp(s).Ok? {
      var p := ReadOp(s).value;
      if ReadLog(p.rest).Ok? {
        assert done + ([p.value] + ReadLog(p.rest).value) == done + [p.value] + ReadLog(p.rest).value;
      }
    }
  }

  method ParseOp(reader: Reader) returns (r: Result<RawOp>)
    modifies reader
    ensures r.Ok? == ReadOp(old(reader.inner)).Ok?
    ensures r.Ok? ==> Parsed(r.value, reader.inner) == ReadOp(old(reader.inner)).value
  {
    FirstByte(reader.inner);
    var tag :- reader.GetUInt(1);
    if tag == 1 {
      var k :- ParseSized(reader);
      var v :- ParseSized(reader);
      if !Short(Put(k, v)) {
        return Err;
      }
      r := Ok(Put(k, v));
    } else if tag == 2 {
      var k :- ParseSized(reader);
      if !Short(Del(k)) {
        return Err;
      }
      r := Ok(Del(k));
    } else {
      r := Err;
    }
  }

  method ParseSized(reader: Reader) returns (r: Result<Bytes>)
    modifies reader
    ensures r.Ok? == ReadSized(old(reader.inner)).Ok?
    ensures r.Ok? ==> Parsed(r.value, reader.inner) == ReadSized(old(reader.inner)).value
  {
    var n :- reader.GetUInt(2);
    r := reader.GetBytes(n);
  }
}
