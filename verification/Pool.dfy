/** src/index.rs, the pool of transactions waiting for a block, by id and by fee. */
module Pool {
  import opened Common
  import opened Crypto
  import opened Blocks

  /** The transactions of one fee, oldest first. The levels of a pool are kept in ascending order of fee. */
  datatype Level = Level(fee: I64, txs: seq<Tx>)
  datatype Item = Item(fee: I64, tx: Tx)
  datatype View = View(byid: map<Hash, Tx>, byfee: seq<Level>)

  const EMPTY := View(map[], [])

  predicate Ascending(levels: seq<Level>) {
    forall i, j :: 0 <= i < j < |levels| ==> levels[i].fee < levels[j].fee
  }

  /** Adding under a fee: to its level if there is one, else as a new level in its place. */
  function Added(levels: seq<Level>, fee: I64, tx: Tx): seq<Level> {
    if levels == [] then [Level(fee, [tx])]
    else if fee == levels[0].fee then [Level(fee, levels[0].txs + [tx])] + levels[1..]
    else if fee < levels[0].fee then [Level(fee, [tx])] + levels
    else [levels[0]] + Added(levels[1..], fee, tx)
  }

  function Items(fee: I64, txs: seq<Tx>): (r: seq<Item>)
    ensures |r| == |txs| && forall i :: 0 <= i < |txs| ==> r[i] == Item(fee, txs[i])
  {
    seq(|txs|, i requires 0 <= i < |txs| => Item(fee, txs[i]))
  }

  /** All entries from the highest fee down. */
  function Flat(levels: seq<Level>): seq<Item> {
    if levels == [] then [] else Flat(levels[1..]) + Items(levels[0].fee, levels[0].txs)
  }

  function TxsOf(items: seq<Item>): (r: seq<Tx>)
    ensures |r| == |items|
  {
    seq(|items|, i requires 0 <= i < |items| => items[i].tx)
  }

  predicate Spends(tx: Tx, p: OutPoint) {
    exists i :: 0 <= i < |tx.ins| && Point(tx.ins[i]) == p
  }

  /** `is_cost_coin`. */
  predicate CostCoin(byid: map<Hash, Tx>, p: OutPoint) {
    exists id :: id in byid && Spends(byid[id], p)
  }

  /** `check_value`. */
  predicate Admissible(c: Suite, v: View, tx: Tx) {
    && |tx.ins| > 0 && |tx.outs| > 0 && !Coinbase(tx)
    && TxId(c, tx).Ok? && TxId(c, tx).value !in v.byid
    && (forall i :: 0 <= i < |tx.ins| ==> !CostCoin(v.byid, Point(tx.ins[i])))
    && ValidAmount(Total(tx.outs))
  }

  /** `push`. */
  function Pushed(c: Suite, v: View, tx: Tx, fee: I64): (View, Result<Hash>) {
    if !Admissible(c, v, tx) then (v, Err)
    else
      var id := TxId(c, tx).value;
      (View(v.byid[id := tx], Added(v.byfee, fee, tx)), Ok(id))
  }

  // What pushing keeps.

  /** The entries by fee are a permutation of those by id. */
  ghost predicate Agree(v: View) {
    multiset(TxsOf(Flat(v.byfee))) == multiset(v.byid.Values)
  }

  /** No two pooled transactions spend the same output. */
  ghost predicate NoConflict(v: View) {
    forall a, b :: a in v.byid && b in v.byid && a != b ==> forall p :: Spends(v.byid[a], p) ==> !Spends(v.byid[b], p)
  }

  predicate Keyed(c: Suite, v: View) {
    forall id :: id in v.byid ==> TxId(c, v.byid[id]) == Ok(id)
  }

  ghost predicate Sound(c: Suite, v: View) {
    Ascending(v.byfee) && Agree(v) && NoConflict(v) && Keyed(c, v)
  }

  lemma {:induction false} AddedKeepsOrder(levels: seq<Level>, fee: I64, tx: Tx)
    requires Ascending(levels)
    ensures Ascending(Added(levels, fee, tx))
    ensures forall l :: l in Added(levels, fee, tx) ==> l.fee == fee || exists m :: m in levels && m.fee == l.fee
  {
    if levels != [] && fee > levels[0].fee {
      AddedKeepsOrder(levels[1..], fee, tx);
      var r := Added(levels[1..], fee, tx);
      forall j | 0 <= j < |r| ensures levels[0].fee < r[j].fee {
        if r[j].fee != fee {
          var m :| m in levels[1..] && m.fee == r[j].fee;
        }
      }
    }
  }

  /** One entry more, behind those of the same fee. */
  lemma {:induction false} AddedFlat(levels: seq<Level>, fee: I64, tx: Tx)
    ensures multiset(Flat(Added(levels, fee, tx))) == multiset(Flat(levels)) + multiset{Item(fee, tx)}
  {
    var it := Item(fee, tx);
    if levels == [] {
      assert Added(levels, fee, tx)[1..] == [] && Items(fee, [tx]) == [it];
    } else if fee == levels[0].fee {
      var more := Added(levels, fee, tx);
      assert more[1..] == levels[1..];
      assert Items(fee, levels[0].txs + [tx]) == Items(fee, levels[0].txs) + [it];
    } else if fee < levels[0].fee {
      assert Added(levels, fee, tx)[1..] == levels && Items(fee, [tx]) == [it];
    } else {
      AddedFlat(levels[1..], fee, tx);
      assert Added(levels, fee, tx)[1..] == Added(levels[1..], fee, tx);
    }
  }

  /** The entries of one fee, in order. */
  function OfFee(items: seq<Item>, fee: I64): seq<Item> {
    if items == [] then []
    else OfFee(items[..|items| - 1], fee) + if items[|items| - 1].fee == fee then [items[|items| - 1]] else []
  }

  lemma {:induction false} OfFeeJoin(a: seq<Item>, b: seq<Item>, fee: I64)
    ensures OfFee(a + b, fee) == OfFee(a, fee) + OfFee(b, fee)
  {
    if b == [] {
      assert a + b == a;
    } else {
      assert (a + b)[..|a + b| - 1] == a + b[..|b| - 1];
      OfFeeJoin(a, b[..|b| - 1], fee);
    }
  }

  lemma {:induction false} OfFeeItems(l: I64, txs: seq<Tx>, fee: I64)
    ensures OfFee(Items(l, txs), fee) == if l == fee then Items(l, txs) else []
  {
    if txs != [] {
      var n := |txs| - 1;
      assert Items(l, txs)[..n] == Items(l, txs[..n]) && Items(l, txs) == Items(l, txs[..n]) + [Item(l, txs[n])];
      OfFeeItems(l, txs[..n], fee);
    }
  }

  lemma {:induction false} OfFeeAbove(levels: seq<Level>, fee: I64)
    requires forall i :: 0 <= i < |levels| ==> levels[i].fee != fee
    ensures OfFee(Flat(levels), fee) == []
  {
    if levels != [] {
      OfFeeAbove(levels[1..], fee);
      OfFeeJoin(Flat(levels[1..]), Items(levels[0].fee, levels[0].txs), fee);
      OfFeeItems(levels[0].fee, levels[0].txs, fee);
    }
  }

  lemma OfFeeFirst(l: Level, rest: seq<Level>, fee: I64)
    ensures OfFee(Flat([l] + rest), fee) == OfFee(Flat(rest), fee) + if l.fee == fee then Items(l.fee, l.txs) else []
  {
    assert ([l] + rest)[1..] == rest;
    OfFeeJoin(Flat(rest), Items(l.fee, l.txs), fee);
    OfFeeItems(l.fee, l.txs, fee);
  }

  /** A new entry comes behind those of its own fee; the entries of every other fee stay as they are. */
  lemma {:induction false} AddedLast(levels: seq<Level>, fee: I64, tx: Tx, f: I64)
    requires Ascending(levels)
    ensures OfFee(Flat(Added(levels, fee, tx)), f) ==
            OfFee(Flat(levels), f) + if f == fee then [Item(fee, tx)] else []
  {
    hide Flat, OfFee;
    assert Items(fee, [tx]) == [Item(fee, tx)];
    if levels == [] {
      OfFeeFirst(Level(fee, [tx]), [], f);
      assert [Level(fee, [tx])] + [] == [Level(fee, [tx])];
    } else {
      var l, rest := levels[0], levels[1..];
      assert levels == [l] + rest;
      OfFeeFirst(l, rest, f);
      if fee == l.fee {
        OfFeeFirst(Level(fee, l.txs + [tx]), rest, f);
        assert Items(fee, l.txs + [tx]) == Items(fee, l.txs) + [Item(fee, tx)];
      } else if fee < l.fee {
        OfFeeFirst(Level(fee, [tx]), levels, f);
      } else {
        AddedLast(rest, fee, tx, f);
        OfFeeFirst(l, Added(rest, fee, tx), f);
        if f == l.fee {
          OfFeeAbove(rest, f);
        }
      }
    }
  }

  lemma TxsOfItems(fee: I64, txs: seq<Tx>)
    ensures TxsOf(Items(fee, txs)) == txs
  {
  }

  lemma TxsOfJoin(a: seq<Item>, b: seq<Item>)
    ensures TxsOf(a + b) == TxsOf(a) + TxsOf(b)
  {
  }

  lemma FlatFirst(l: Level, rest: seq<Level>)
    ensures TxsOf(Flat([l] + rest)) == TxsOf(Flat(rest)) + l.txs
  {
    assert ([l] + rest)[1..] == rest;
    TxsOfJoin(Flat(rest), Items(l.fee, l.txs));
    TxsOfItems(l.fee, l.txs);
  }

  lemma {:induction false} AddedTxs(levels: seq<Level>, fee: I64, tx: Tx)
    ensures multiset(TxsOf(Flat(Added(levels, fee, tx)))) == multiset(TxsOf(Flat(levels))) + multiset{tx}
  {
    hide Flat, TxsOf;
    if levels == [] {
      FlatNone();
      FlatFirst(Level(fee, [tx]), []);
      assert [Level(fee, [tx])] + [] == [Level(fee, [tx])];
    } else {
      var l := levels[0];
      assert levels == [l] + levels[1..];
      FlatFirst(l, levels[1..]);
      if fee == l.fee {
        FlatFirst(Level(fee, l.txs + [tx]), levels[1..]);
      } else if fee < l.fee {
        FlatFirst(Level(fee, [tx]), levels);
      } else {
        AddedTxs(levels[1..], fee, tx);
        FlatFirst(l, Added(levels[1..], fee, tx));
      }
    }
  }

  lemma FlatNone()
    ensures TxsOf(Flat([])) == []
  {
  }

  /** Every push keeps the pool sound. */
  lemma PushKeeps(c: Suite, v: View, tx: Tx, fee: I64)
    requires Sound(c, v)
    ensures Sound(c, Pushed(c, v, tx, fee).0)
  {
    if Admissible(c, v, tx) {
      AddedKeepsOrder(v.byfee, fee, tx);
      AddedTxs(v.byfee, fee, tx);
      NewConflict(c, v, tx);
      NewValues(c, v, tx);
    }
    hide Added, Flat, TxId, Spends, Total, Coinbase;
  }

  lemma NewValues(c: Suite, v: View, tx: Tx)
    requires Keyed(c, v) && Admissible(c, v, tx)
    ensures multiset(v.byid[TxId(c, tx).value := tx].Values) == multiset(v.byid.Values) + multiset{tx}
  {
    hide TxId, Total, Coinbase;
    var id := TxId(c, tx).value;
    assert forall k :: k in v.byid ==> v.byid[k] != tx;
    var more := v.byid[id := tx];
    assert more.Values == v.byid.Values + {tx} by {
      forall x | x in v.byid.Values ensures x in more.Values {
        var k :| k in v.byid && v.byid[k] == x;
        assert k in more && more[k] == x;
      }
      assert id in more && more[id] == tx;
    }
  }

  lemma NewConflict(c: Suite, v: View, tx: Tx)
    requires NoConflict(v) && Admissible(c, v, tx)
    ensures NoConflict(v.(byid := v.byid[TxId(c, tx).value := tx]))
  {
    hide TxId, Total, Coinbase;
    var id, more := TxId(c, tx).value, v.byid[TxId(c, tx).value := tx];
    forall a, b, p | a in more && b in more && a != b && Spends(more[a], p) ensures !Spends(more[b], p) {
      if b == id {
        assert CostCoin(v.byid, p);
      }
    }
  }

  // Runs.

  /** A run of pushes on an empty pool. */
  function Run(c: Suite, pushes: seq<Item>): View {
    if pushes == [] then EMPTY
    else Pushed(c, Run(c, pushes[..|pushes| - 1]), pushes[|pushes| - 1].tx, pushes[|pushes| - 1].fee).0
  }

  /** After every run of pushes the two orders hold the same transactions, none of them in conflict. */
  lemma {:induction false} RunSound(c: Suite, pushes: seq<Item>)
    ensures Sound(c, Run(c, pushes))
  {
    hide Pushed;
    if pushes != [] {
      RunSound(c, pushes[..|pushes| - 1]);
      PushKeeps(c, Run(c, pushes[..|pushes| - 1]), pushes[|pushes| - 1].tx, pushes[|pushes| - 1].fee);
    }
  }

  /** What iterating after a run of pushes yields: every pooled transaction once, never rising in fee. */
  lemma RunIterates(c: Suite, pushes: seq<Item>)
    ensures var v := Run(c, pushes);
            Descending(Flat(v.byfee)) && multiset(TxsOf(Flat(v.byfee))) == multiset(v.byid.Values)
  {
    hide Run, Flat, TxsOf, NoConflict, Keyed;
    RunSound(c, pushes);
    FlatDescends(Run(c, pushes).byfee);
  }

  /** Nothing in the pool spends what the transaction spends, it is not there yet, and it is no coinbase's; by itself it
      has inputs and outputs, an id and a valid total. */
  predicate Welcome(c: Suite, v: View, tx: Tx) {
    && |tx.ins| > 0 && |tx.outs| > 0 && !CoinbaseIn(tx.ins[0]) && TxId(c, tx).Ok?
    && 0 <= Total(tx.outs) <= MAX_MONEY
    && (forall id :: id in v.byid ==> Ok(id) != TxId(c, tx))
    && (forall id, i, k :: id in v.byid && 0 <= i < |tx.ins| && 0 <= k < |v.byid[id].ins| ==>
          tx.ins[i].out != v.byid[id].ins[k].out || tx.ins[i].idx != v.byid[id].ins[k].idx)
  }

  /** A push is let in exactly if it is welcome. */
  lemma WelcomeIs(c: Suite, v: View, tx: Tx, fee: I64)
    ensures Pushed(c, v, tx, fee).1.Ok? <==> Welcome(c, v, tx)
    ensures Admissible(c, v, tx) <==> Welcome(c, v, tx)
  {
    hide TxId, Total, CoinbaseIn;
    if Admissible(c, v, tx) {
      forall id, i, k | id in v.byid && 0 <= i < |tx.ins| && 0 <= k < |v.byid[id].ins|
        ensures tx.ins[i].out != v.byid[id].ins[k].out || tx.ins[i].idx != v.byid[id].ins[k].idx
      {
        assert Spends(v.byid[id], Point(v.byid[id].ins[k]));
        assert CostCoin(v.byid, Point(v.byid[id].ins[k]));
      }
    }
    if Welcome(c, v, tx) {
      forall i | 0 <= i < |tx.ins| ensures !CostCoin(v.byid, Point(tx.ins[i])) {
        forall id | id in v.byid ensures !Spends(v.byid[id], Point(tx.ins[i])) {
          forall k | 0 <= k < |v.byid[id].ins| ensures Point(v.byid[id].ins[k]) != Point(tx.ins[i]) {
          }
        }
      }
    }
  }

  /** The pushes of a run that were let in, with one fee, in the order they came. */
  function LetIn(c: Suite, pushes: seq<Item>, fee: I64): seq<Item> {
    if pushes == [] then []
    else
      var before, last := pushes[..|pushes| - 1], pushes[|pushes| - 1];
      LetIn(c, before, fee) + if last.fee == fee && Welcome(c, Run(c, before), last.tx) then [last] else []
  }

  /** After every run of pushes, iteration yields those of equal fee in the order they came. */
  lemma {:induction false} RunInOrder(c: Suite, pushes: seq<Item>, fee: I64)
    ensures OfFee(Flat(Run(c, pushes).byfee), fee) == LetIn(c, pushes, fee)
  {
    hide Flat, OfFee, Welcome, Added, Admissible, Agree, NoConflict, Keyed;
    if pushes == [] {
      FlatEmpty(fee);
    } else {
      var before, last := pushes[..|pushes| - 1], pushes[|pushes| - 1];
      RunInOrder(c, before, fee);
      RunSound(c, before);
      WelcomeIs(c, Run(c, before), last.tx, last.fee);
      AddedLast(Run(c, before).byfee, last.fee, last.tx, fee);
    }
  }

  lemma FlatEmpty(fee: I64)
    ensures OfFee(Flat([]), fee) == []
  {
  }

  predicate Descending(items: seq<Item>) {
    forall i, j :: 0 <= i < j < |items| ==> items[i].fee >= items[j].fee
  }

  /** What iteration yields never rises in fee. */
  lemma {:induction false} FlatDescends(levels: seq<Level>)
    requires Ascending(levels)
    ensures Descending(Flat(levels))
    ensures forall it :: it in Flat(levels) ==> exists l :: l in levels && l.fee == it.fee
  {
    if levels != [] {
      FlatDescends(levels[1..]);
      forall it | it in Flat(levels[1..]) ensures it.fee > levels[0].fee && exists l :: l in levels && l.fee == it.fee {
        var l :| l in levels[1..] && l.fee == it.fee;
        assert l in levels;
      }
      assert levels[0] in levels;
    }
  }

  // Removal.

  function Only(c: Suite, txs: seq<Tx>, id: Hash): seq<Tx> {
    if txs == [] then []
    else Only(c, txs[..|txs| - 1], id) + if TxId(c, txs[|txs| - 1]) == Ok(id) then [txs[|txs| - 1]] else []
  }

  /** As written, `remove` keeps in each level what it means to drop. */
  function Retained(c: Suite, levels: seq<Level>, id: Hash): (r: seq<Level>)
    ensures |r| == |levels|
  {
    seq(|levels|, i requires 0 <= i < |levels| => Level(levels[i].fee, Only(c, levels[i].txs, id)))
  }

  function Removed(c: Suite, v: View, id: Hash): (View, Result<Tx>) {
    if id !in v.byid then (v, Err)
    else (View(v.byid - {id}, Retained(c, v.byfee, id)), Ok(v.byid[id]))
  }

  lemma {:induction false} OnlyMeans(c: Suite, txs: seq<Tx>, id: Hash)
    ensures forall x :: multiset(Only(c, txs, id))[x] == if TxId(c, x) == Ok(id) then multiset(txs)[x] else 0
  {
    hide TxId;
    if txs != [] {
      OnlyMeans(c, txs[..|txs| - 1], id);
      assert txs == txs[..|txs| - 1] + [txs[|txs| - 1]];
    }
  }

  lemma {:induction false} RetainedMeans(c: Suite, levels: seq<Level>, id: Hash, x: Tx)
    ensures multiset(TxsOf(Flat(Retained(c, levels, id))))[x] ==
            if TxId(c, x) == Ok(id) then multiset(TxsOf(Flat(levels)))[x] else 0
  {
    hide TxId, Only;
    if levels != [] {
      var l := levels[0];
      RetainedMeans(c, levels[1..], id, x);
      assert Retained(c, levels, id)[1..] == Retained(c, levels[1..], id);
      OnlyMeans(c, l.txs, id);
      TxsOfItems(l.fee, l.txs);
      TxsOfItems(l.fee, Only(c, l.txs, id));
      TxsOfJoin(Flat(levels[1..]), Items(l.fee, l.txs));
      TxsOfJoin(Flat(Retained(c, levels[1..], id)), Items(l.fee, Only(c, l.txs, id)));
    }
  }

  /** As written a successful removal leaves exactly the removed transaction in the fee order, so the two orders never
      agree afterwards. */
  lemma RemoveDisagrees(c: Suite, v: View, id: Hash)
    requires Agree(v) && Keyed(c, v) && id in v.byid
    ensures var (w, r) := Removed(c, v, id);
            r == Ok(v.byid[id]) && multiset(TxsOf(Flat(w.byfee))) == multiset{v.byid[id]} && !Agree(w)
  {
    hide TxId, Flat, TxsOf, Retained;
    var (w, r) := Removed(c, v, id);
    var tx := v.byid[id];
    forall x ensures multiset(TxsOf(Flat(w.byfee)))[x] == multiset{tx}[x] {
      RetainedMeans(c, v.byfee, id, x);
      if x in v.byid.Values && TxId(c, x) == Ok(id) {
        var k :| k in v.byid && v.byid[k] == x;
      }
      assert tx in v.byid.Values;
    }
    assert forall k :: k in w.byid ==> TxId(c, v.byid[k]) == Ok(k) && w.byid[k] != tx;
    assert tx in multiset(TxsOf(Flat(w.byfee)));
  }

  /** What `remove` is meant to do: drop the one and keep the rest. */
  function Others(c: Suite, txs: seq<Tx>, id: Hash): seq<Tx> {
    if txs == [] then []
    else Others(c, txs[..|txs| - 1], id) + if TxId(c, txs[|txs| - 1]) == Ok(id) then [] else [txs[|txs| - 1]]
  }

  function Dropped(c: Suite, levels: seq<Level>, id: Hash): (r: seq<Level>)
    ensures |r| == |levels|
  {
    seq(|levels|, i requires 0 <= i < |levels| => Level(levels[i].fee, Others(c, levels[i].txs, id)))
  }

  lemma {:induction false} OthersMeans(c: Suite, txs: seq<Tx>, id: Hash)
    ensures forall x :: multiset(Others(c, txs, id))[x] == if TxId(c, x) == Ok(id) then 0 else multiset(txs)[x]
  {
    hide TxId;
    if txs != [] {
      OthersMeans(c, txs[..|txs| - 1], id);
      assert txs == txs[..|txs| - 1] + [txs[|txs| - 1]];
    }
  }

  lemma {:induction false} DroppedMeans(c: Suite, levels: seq<Level>, id: Hash, x: Tx)
    ensures multiset(TxsOf(Flat(Dropped(c, levels, id))))[x] ==
            if TxId(c, x) == Ok(id) then 0 else multiset(TxsOf(Flat(levels)))[x]
  {
    hide TxId, Others;
    if levels != [] {
      var l := levels[0];
      DroppedMeans(c, levels[1..], id, x);
      assert Dropped(c, levels, id)[1..] == Dropped(c, levels[1..], id);
      OthersMeans(c, l.txs, id);
      TxsOfItems(l.fee, l.txs);
      TxsOfItems(l.fee, Others(c, l.txs, id));
      TxsOfJoin(Flat(levels[1..]), Items(l.fee, l.txs));
      TxsOfJoin(Flat(Dropped(c, levels[1..], id)), Items(l.fee, Others(c, l.txs, id)));
    }
  }

  /** Dropping instead of keeping would preserve agreement. */
  lemma DropAgrees(c: Suite, v: View, id: Hash)
    requires Agree(v) && Keyed(c, v) && id in v.byid
    ensures Agree(View(v.byid - {id}, Dropped(c, v.byfee, id)))
  {
    hide TxId, Flat, TxsOf, Dropped;
    var w := View(v.byid - {id}, Dropped(c, v.byfee, id));
    forall x ensures multiset(TxsOf(Flat(w.byfee)))[x] == multiset(w.byid.Values)[x] {
      DroppedMeans(c, v.byfee, id, x);
      ValuesWithout(c, v, id, x);
    }
  }

  lemma ValuesWithout(c: Suite, v: View, id: Hash, x: Tx)
    requires Keyed(c, v) && id in v.byid
    ensures x in (v.byid - {id}).Values <==> x in v.byid.Values && TxId(c, x) != Ok(id)
  {
    hide TxId;
    if x in v.byid.Values && TxId(c, x) != Ok(id) {
      var k :| k in v.byid && v.byid[k] == x;
      assert k in v.byid - {id} && (v.byid - {id})[k] == x;
    }
  }

  // The objects.

  lemma {:induction false} FlatLast(levels: seq<Level>)
    requires levels != []
    ensures var n := |levels| - 1; Flat(levels) == Items(levels[n].fee, levels[n].txs) + Flat(levels[..n])
  {
    var n := |levels| - 1;
    if n > 0 {
      FlatLast(levels[1..]);
      assert levels[1..][..n - 1] == levels[..n][1..];
    }
  }

  lemma MoveOne(a: seq<Item>, b: seq<Item>)
    ensures b != [] ==> a + [b[0]] + b[1..] == a + b
    ensures b == [] ==> a + b == a
  {
  }

  lemma FlatNil()
    ensures Flat([]) == []
  {
  }

  lemma ItemsHead(fee: I64, txs: seq<Tx>, rest: seq<Item>)
    requires txs != []
    ensures (Items(fee, txs) + rest)[0] == Item(fee, txs[0])
    ensures (Items(fee, txs) + rest)[1..] == Items(fee, txs[1..]) + rest
  {
    assert Items(fee, txs)[1..] == Items(fee, txs[1..]);
  }

  /** Walks the levels from the last to the first, each from its oldest entry. */
  class TxPoolIter {
    var levels: seq<Level>
    var iter: Option<seq<Tx>>
    var fee: I64

    /** What is still to come. */
    ghost function Left(): seq<Item>
      reads this
    {
      (if iter.Some? then Items(fee, iter.value) else []) + Flat(levels)
    }

    constructor (levels: seq<Level>)
      ensures Left() == Flat(levels)
    {
      this.levels := levels;
      iter := None;
      fee := 0;
    }

    method Next() returns (r: Option<Item>)
      modifies this
      ensures old(Left()) == [] ==> r.None? && Left() == []
      ensures old(Left()) != [] ==> r == Some(old(Left())[0]) && Left() == old(Left())[1..]
      decreases |levels|, if iter.Some? then 1 else 0
    {
      hide Items, Flat;
      FlatNil();
      match iter
      case Some(txs) =>
        if txs == [] {
          iter := None;
          r := Next();
        } else {
          iter := Some(txs[1..]);
          r := Some(Item(fee, txs[0]));
          ItemsHead(fee, txs, Flat(levels));
        }
      case None =>
        if levels == [] {
          return None;
        }
        var n := |levels| - 1;
        FlatLast(levels);
        iter := Some(levels[n].txs);
        fee := levels[n].fee;
        levels := levels[..n];
        r := Next();
    }

    /** Iterating to the end yields every entry exactly once, from the highest fee down. */
    method Drain() returns (all: seq<Item>)
      modifies this
      ensures all == old(Left()) && Left() == []
    {
      hide Items, Flat;
      all := [];
      while true
        invariant all + Left() == old(Left())
        decreases |Left()|
      {
        MoveOne(all, Left());
        var next := Next();
        if next.None? {
          return;
        }
        all := all + [next.value];
      }
    }
  }

  class TxPool {
    var byid: map<Hash, Tx>
    var byfee: seq<Level>

    function Value(): View
      reads this
    {
      View(byid, byfee)
    }

    constructor ()
      ensures Value() == EMPTY
    {
      byid, byfee := map[], [];
    }

    /** Looks through every input of every pooled transaction. */
    method IsCostCoin(p: OutPoint) returns (cost: bool)
      ensures cost <==> CostCoin(byid, p)
    {
      var left := byid.Keys;
      while left != {}
        invariant left <= byid.Keys
        invariant forall id :: id in byid && id !in left ==> !Spends(byid[id], p)
        decreases |left|
      {
        var id :| id in left;
        var tx := byid[id];
        for i := 0 to |tx.ins|
          invariant forall j :: 0 <= j < i ==> Point(tx.ins[j]) != p
        {
          if tx.ins[i].out == p.out && tx.ins[i].idx == p.idx {
            assert Spends(byid[id], p);
            return true;
          }
        }
        left := left - {id};
      }
      cost := false;
    }

    method CheckValue(c: Suite, tx: Tx) returns (ok: bool)
      ensures ok <==> Admissible(c, Value(), tx)
    {
      hide TxId, Coinbase, CostCoin;
      if |tx.ins| == 0 || |tx.outs| == 0 || Coinbase(tx) {
        return false;
      }
      var id := TxId(c, tx);
      if id.Err? || id.value in byid {
        return false;
      }
      for i := 0 to |tx.ins|
        invariant forall j :: 0 <= j < i ==> !CostCoin(byid, Point(tx.ins[j]))
      {
        var cost := IsCostCoin(Point(tx.ins[i]));
        if cost {
          return false;
        }
      }
      var ofee := 0;
      for i := 0 to |tx.outs|
        invariant ofee == Total(tx.outs[..i])
      {
        assert tx.outs[..i + 1][..i] == tx.outs[..i];
        ofee := ofee + tx.outs[i].value;
      }
      assert tx.outs[..|tx.outs|] == tx.outs;
      ok := ValidAmount(ofee);
    }

    method Push(c: Suite, tx: Tx, fee: I64) returns (r: Result<Hash>)
      modifies this
      ensures (Value(), r) == Pushed(c, old(Value()), tx, fee)
    {
      hide TxId, Added, Coinbase, Total, CostCoin;
      var ok := CheckValue(c, tx);
      if !ok {
        return Err;
      }
      var id := TxId(c, tx).value;
      byid := byid[id := tx];
      byfee := Added(byfee, fee, tx);
      r := Ok(id);
    }

    method Remove(c: Suite, id: Hash) returns (r: Result<Tx>)
      modifies this
      ensures (Value(), r) == Removed(c, old(Value()), id)
    {
      hide TxId;
      if id !in byid {
        return Err;
      }
      var tx := byid[id];
      byid := byid - {id};
      ghost var was := byfee;
      for i := 0 to |byfee|
        invariant |byfee| == |was| && byid == old(byid) - {id}
        invariant forall j :: 0 <= j < i ==> byfee[j] == Level(was[j].fee, Only(c, was[j].txs, id))
        invariant forall j :: i <= j < |was| ==> byfee[j] == was[j]
      {
        hide Only;
        byfee := byfee[i := Level(byfee[i].fee, Only(c, byfee[i].txs, id))];
      }
      assert byfee == Retained(c, was, id);
      r := Ok(tx);
    }

    method Iter() returns (it: TxPoolIter)
      ensures fresh(it) && it.Left() == Flat(byfee)
    {
      it := new TxPoolIter(byfee);
    }
  }
}
