/** What the chain index means: its coins are the unspent outputs, there are never more of them than were rewarded, and
    a coinbase coin ages before it is spent. */
module Coins {
  import opened Common
  import opened Iobuf
  import opened Crypto
  import Scripts
  import opened Blocks
  import opened Difficulty
  import opened Journal
  import Signing
  import opened Storage
  import opened Ledger
  import opened Chains

  // The unspent outputs.

  function TxsOf(es: seq<Entry>, h: nat): seq<Tx>
    requires h < |es|
  {
    es[h].block.txs
  }

  /** Each block takes away what it spends and adds what it makes. */
  function Unspent(c: Suite, es: Blocks32): Db {
    if es == [] then map[]
    else
      var n := |es| - 1;
      (Unspent(c, es[..n]) - Spends(c, TxsOf(es, n))) + Makes(c, n, TxsOf(es, n))
  }

  /** The coin records of the index are the unspent outputs of its chain. */
  lemma {:induction false} CoinsAreUnspent(conf: Conf, es: Blocks32, k: Key)
    requires Grown(conf, es) && k.CoinKey?
    ensures Get(Replay(conf.c, es), k) == Get(Unspent(conf.c, es), k)
  {
    hide Replay, Topped, Makes, Spends, TxRecords, IdOf, Grown;
    ReplayNone(conf.c);
    if es != [] {
      GrownTop(conf, es);
      CoinsAreUnspent(conf, es[..|es| - 1], k);
      CoinAtKey(conf, es, k);
      AfterCoin(conf.c, |es| - 1, TopOf(es), Get(DbBelow(conf.c, es), k), k);
    }
  }

  lemma {:induction false} UnspentKinds(c: Suite, es: Blocks32, k: Key)
    requires k in Unspent(c, es)
    ensures k.CoinKey?
  {
    hide Makes, Spends;
    var n := |es| - 1;
    CoinsOnly(c, n, TxsOf(es, n), k);
    if k !in Makes(c, n, TxsOf(es, n)) {
      UnspentKinds(c, es[..n], k);
    }
  }

  /** A record under an id stays while the chain grows. */
  lemma {:induction false} RecordStays(conf: Conf, es: Blocks32, n: nat, k: Key)
    requires Grown(conf, es) && n <= |es| && k.HashKey? && k in Replay(conf.c, es[..n])
    ensures k in Replay(conf.c, es)
  {
    hide Replay, Topped, Makes, Spends, TxRecords, IdOf, Grown, AfterBlock;
    if n < |es| {
      GrownTop(conf, es);
      assert es[..|es| - 1][..n] == es[..n];
      RecordStays(conf, es[..|es| - 1], n, k);
      PlainAt(conf.c, es, k);
      AfterRecord(conf.c, |es| - 1, TopOf(es), Get(DbBelow(conf.c, es), k), k);
    } else {
      assert es[..n] == es;
    }
  }

  /** A coin made or spent by some block has its transaction indexed once that block is linked; one made is new, one
      spent was there. */
  lemma Involved(conf: Conf, es: Blocks32, h: nat, k: Key)
    requires Grown(conf, es) && h < |es|
    ensures k in Makes(conf.c, h, TxsOf(es, h)) || k in Spends(conf.c, TxsOf(es, h)) ==>
              k.CoinKey? && HashKey(k.tx) in Replay(conf.c, es)
    ensures k in Makes(conf.c, h, TxsOf(es, h)) ==> HashKey(k.tx) !in Replay(conf.c, es[..h])
    ensures k in Spends(conf.c, TxsOf(es, h)) ==> k in Replay(conf.c, es[..h])
  {
    hide Replay, Topped, Makes, Spends, TxRecords, IdOf, Grown, EditsOfTxs, Mature, CoinBelow, AfterBlock;
    var c, upto, e := conf.c, es[..h + 1], es[h];
    GrownPrefix(conf, es, h + 1);
    GrownPrefix(conf, es, h);
    assert upto[..h] == es[..h] && TopOf(upto) == e;
    TopEdits(conf, upto);
    CoinsOnly(c, h, TxsOf(es, h), k);
    if k in Makes(c, h, TxsOf(es, h)) {
      MakesNew(c, Replay(c, es[..h]), IdOf(c, e), h, TxsOf(es, h), k);
      PlainAt(c, upto, HashKey(k.tx));
      AfterRecord(c, h, e, Get(DbBelow(c, upto), HashKey(k.tx)), HashKey(k.tx));
      RecordStays(conf, es, h + 1, HashKey(k.tx));
    }
    if k in Spends(c, TxsOf(es, h)) {
      SpendsStored(c, Replay(c, es[..h]), IdOf(c, e), h, TxsOf(es, h), k);
      CoinIndexed(conf, es[..h], k);
      RecordStays(conf, es, h, HashKey(k.tx));
    }
  }

  ghost predicate MadeAt(c: Suite, es: Blocks32, h: nat, k: Key) {
    h < |es| && k in Makes(c, h, TxsOf(es, h))
  }

  ghost predicate SpentAt(c: Suite, es: Blocks32, h: nat, k: Key) {
    h < |es| && k in Spends(c, TxsOf(es, h))
  }

  /** A coin is in the index exactly if some block made it and no block spent it, and it is then as that block made
      it; no coin is made by two blocks. */
  lemma {:induction false} UnspentMeaning(conf: Conf, es: Blocks32, k: Key)
    requires Grown(conf, es)
    ensures k in Unspent(conf.c, es) <==>
            (exists h: nat :: MadeAt(conf.c, es, h, k)) && (forall h: nat :: !SpentAt(conf.c, es, h, k))
    ensures forall h: nat :: MadeAt(conf.c, es, h, k) && k in Unspent(conf.c, es) ==>
              Unspent(conf.c, es)[k] == Makes(conf.c, h, TxsOf(es, h))[k]
    ensures forall h1: nat, h2: nat :: MadeAt(conf.c, es, h1, k) && MadeAt(conf.c, es, h2, k) ==> h1 == h2
  {
    hide Makes, Spends, Replay, Topped, Grown;
    if es != [] {
      var c, n, less := conf.c, |es| - 1, es[..|es| - 1];
      GrownTop(conf, es);
      UnspentMeaning(conf, less, k);
      Involved(conf, es, n, k);
      Separate(conf, es, k);
      forall h: nat | h < n
        ensures MadeAt(c, es, h, k) <==> MadeAt(c, less, h, k)
        ensures SpentAt(c, es, h, k) <==> SpentAt(c, less, h, k)
        ensures MadeAt(c, es, n, k) ==> !MadeAt(c, less, h, k) && !SpentAt(c, less, h, k)
      {
        assert less[h] == es[h];
        Involved(conf, less, h, k);
      }
      MeaningStep(c, es, k);
    }
  }

  lemma MeaningStep(c: Suite, es: Blocks32, k: Key)
    requires es != []
    requires var n, less := |es| - 1, es[..|es| - 1];
             && (forall h: nat :: h < n ==> (MadeAt(c, es, h, k) <==> MadeAt(c, less, h, k)))
             && (forall h: nat :: h < n ==> (SpentAt(c, es, h, k) <==> SpentAt(c, less, h, k)))
             && (forall h: nat :: h < n && MadeAt(c, es, n, k) ==> !MadeAt(c, less, h, k) && !SpentAt(c, less, h, k))
             && (k in Unspent(c, less) <==>
                 (exists h: nat :: MadeAt(c, less, h, k)) && (forall h: nat :: !SpentAt(c, less, h, k)))
             && (forall h: nat :: MadeAt(c, less, h, k) && k in Unspent(c, less) ==>
                   Unspent(c, less)[k] == Makes(c, h, TxsOf(less, h))[k])
             && (forall h1: nat, h2: nat :: MadeAt(c, less, h1, k) && MadeAt(c, less, h2, k) ==> h1 == h2)
             && (MadeAt(c, es, n, k) ==> !SpentAt(c, es, n, k))
    ensures k in Unspent(c, es) <==>
            (exists h: nat :: MadeAt(c, es, h, k)) && (forall h: nat :: !SpentAt(c, es, h, k))
    ensures forall h: nat :: MadeAt(c, es, h, k) && k in Unspent(c, es) ==>
              Unspent(c, es)[k] == Makes(c, h, TxsOf(es, h))[k]
    ensures forall h1: nat, h2: nat :: MadeAt(c, es, h1, k) && MadeAt(c, es, h2, k) ==> h1 == h2
  {
    hide Makes, Spends;
    var n, less := |es| - 1, es[..|es| - 1];
    if k in Unspent(c, es) {
      forall h: nat ensures !SpentAt(c, es, h, k) {
        assert h < n ==> (SpentAt(c, es, h, k) <==> SpentAt(c, less, h, k));
      }
      if !MadeAt(c, es, n, k) {
        var h: nat :| MadeAt(c, less, h, k);
        assert MadeAt(c, es, h, k);
      }
    }
    forall h: nat | MadeAt(c, es, h, k) && (forall j: nat :: !SpentAt(c, es, j, k)) ensures k in Unspent(c, es) {
      assert h < n ==> MadeAt(c, less, h, k);
      forall j: nat ensures !SpentAt(c, less, j, k) {
        assert !SpentAt(c, es, j, k);
      }
      assert !SpentAt(c, es, n, k);
    }
  }

  // What single coins stand for.

  /** A transaction's own coin key for an output, from the chain's point of view. */
  predicate Pays(c: Suite, tx: Tx, i: nat, k: Key) {
    && k.CoinKey? && i < |tx.outs|
    && TxId(c, tx) == Ok(k.tx) && OutAddress(tx.outs[i]) == Ok(k.cpk) && k.idx == i % 0x1_0000
  }

  lemma {:induction false} MadeByMeaning(c: Suite, tx: Tx, height: U32, n: nat, k: Key)
    requires n <= |tx.outs| && TxId(c, tx).Ok?
    ensures k in MadeBy(TxId(c, tx).value, tx, height, n) <==> exists i :: 0 <= i < n && Pays(c, tx, i, k)
  {
    hide TxId, OutAddress, MadeCoin;
    if n > 0 {
      MadeByMeaning(c, tx, height, n - 1, k);
      assert Pays(c, tx, n - 1, k) <==> MadeKey(TxId(c, tx).value, tx.outs, n - 1) == Some(k);
    }
  }

  /** The coins a block makes are its outputs. */
  lemma {:induction false} MakesMeaning(c: Suite, height: U32, txs: seq<Tx>, k: Key)
    ensures k in Makes(c, height, txs) <==> exists j, i :: 0 <= j < |txs| && 0 <= i && Pays(c, txs[j], i, k)
  {
    hide TxId, OutAddress, MadeBy, Pays;
    if txs != [] {
      var last, before := txs[|txs| - 1], txs[..|txs| - 1];
      MakesMeaning(c, height, before, k);
      if TxId(c, last).Ok? {
        MadeByMeaning(c, last, height, |last.outs|, k);
      }
      PaysNeeds(c, last, k);
      if j, i :| 0 <= j < |before| && 0 <= i && Pays(c, before[j], i, k) {
        assert Pays(c, txs[j], i, k);
      }
      if i :| 0 <= i && Pays(c, last, i, k) {
        assert Pays(c, txs[|txs| - 1], i, k);
      }
    }
  }

  lemma PaysNeeds(c: Suite, tx: Tx, k: Key)
    ensures forall i :: 0 <= i && Pays(c, tx, i, k) ==> TxId(c, tx).Ok? && i < |tx.outs|
  {
    hide TxId, OutAddress;
  }

  /** The input spends the coin under this key. */
  predicate Costs(c: Suite, inv: TxIn, k: Key) {
    k.CoinKey? && !CoinbaseIn(inv) && InAddress(c, inv) == Ok(k.cpk) && Point(inv) == OutPoint(k.tx, k.idx)
  }

  lemma {:induction false} SpentByMeaning(c: Suite, ins: seq<TxIn>, k: Key)
    ensures k in SpentBy(c, ins) <==> exists i :: 0 <= i < |ins| && Costs(c, ins[i], k)
  {
    hide InAddress, CoinbaseIn;
    if ins != [] {
      var n := |ins| - 1;
      SpentByMeaning(c, ins[..n], k);
      assert Costs(c, ins[n], k) <==> SpentKey(c, ins[n]) == Some(k);
      if i :| 0 <= i < n && Costs(c, ins[..n][i], k) {
        assert Costs(c, ins[i], k);
      }
    }
  }

  /** The coins a block takes away are those its inputs spend. */
  lemma {:induction false} SpendsMeaning(c: Suite, txs: seq<Tx>, k: Key)
    requires TxIds(c, txs).Ok?
    ensures k in Spends(c, txs) <==>
            exists j, i :: 0 <= j < |txs| && 0 <= i < |txs[j].ins| && Costs(c, txs[j].ins[i], k)
  {
    hide TxId, SpentBy, Costs;
    if txs != [] {
      var n := |txs| - 1;
      SpendsMeaning(c, txs[..n], k);
      SpentByMeaning(c, txs[n].ins, k);
      if j, i :| 0 <= j < n && 0 <= i < |txs[..n][j].ins| && Costs(c, txs[..n][j].ins[i], k) {
        assert Costs(c, txs[j].ins[i], k);
      }
      if i :| 0 <= i < |txs[n].ins| && Costs(c, txs[n].ins[i], k) {
        assert Costs(c, txs[n].ins[i], k);
      }
    }
  }

  // Maturity.

  /** A block spends a coin only after the block that made it, and one made by a coinbase transaction only a hundred
      blocks later. */
  lemma CoinsAge(conf: Conf, es: Blocks32, made: nat, spent: nat, k: Key)
    requires Grown(conf, es) && MadeAt(conf.c, es, made, k) && SpentAt(conf.c, es, spent, k)
    ensures made < spent
    ensures Makes(conf.c, made, TxsOf(es, made))[k].CoinV?
    ensures Makes(conf.c, made, TxsOf(es, made))[k].coin.flags == FLAG_COINBASE ==> spent - made >= COINBASE_MATURITY
  {
    hide Makes, Spends, Replay, Topped, Grown, EditsOfTxs, Unspent, TxRecords;
    var c, upto := conf.c, es[..spent];
    GrownPrefix(conf, es, spent);
    GrownPrefix(conf, es, spent + 1);
    Involved(conf, es, spent, k);
    Involved(conf, es, made, k);
    CoinsAreUnspent(conf, upto, k);
    UnspentMeaning(conf, upto, k);
    UnspentMeaning(conf, es, k);
    var h: nat :| MadeAt(c, upto, h, k);
    assert upto[h] == es[h];
    assert MadeAt(c, es, h, k);
    assert h == made;
    CoinMade(conf, es, made, k);
    assert es[..spent + 1][..spent] == upto && TopOf(es[..spent + 1]) == es[spent];
    TopEdits(conf, es[..spent + 1]);
    SpendsStored(c, Replay(c, upto), IdOf(c, es[spent]), spent, TxsOf(es, spent), k);
  }

  /** An output of a coinbase transaction is spent, if ever, at least a hundred blocks on, if no other transaction of
      its block has its id. */
  lemma CoinbaseMatures(conf: Conf, es: Blocks32, made: nat, j: nat, i: nat, spent: nat, k: Key)
    requires Grown(conf, es) && made < |es| && j < |TxsOf(es, made)|
    requires Coinbase(TxsOf(es, made)[j]) && Pays(conf.c, TxsOf(es, made)[j], i, k) && SpentAt(conf.c, es, spent, k)
    requires forall l :: 0 <= l < |TxsOf(es, made)| && TxId(conf.c, TxsOf(es, made)[l]) == Ok(k.tx) ==> l == j
    ensures spent - made >= 100
  {
    hide Grown, Makes, Spends, TxId, OutAddress, Coinbase;
    MakesMeaning(conf.c, made, TxsOf(es, made), k);
    var l, n := MakesOutput(conf.c, made, TxsOf(es, made), k);
    CoinsAge(conf, es, made, spent, k);
  }

  lemma CoinMade(conf: Conf, es: Blocks32, h: nat, k: Key)
    requires Grown(conf, es) && MadeAt(conf.c, es, h, k)
    ensures CoinBelow(Makes(conf.c, h, TxsOf(es, h))[k], h + 1)
    ensures Makes(conf.c, h, TxsOf(es, h))[k].coin.height == h
  {
    hide Makes, Replay, Topped, Grown, EditsOfTxs, TxRecords;
    var c, upto := conf.c, es[..h + 1];
    GrownPrefix(conf, es, h + 1);
    assert upto[..h] == es[..h] && TopOf(upto) == es[h];
    TopEdits(conf, upto);
    MakesNew(c, Replay(c, es[..h]), IdOf(c, es[h]), h, TxsOf(es, h), k);
  }

  // Which output a coin is.

  /** A block whose lists fit their counts, and whose ids are all different: its own and its transactions'. */
  predicate Regular(c: Suite, e: Entry) {
    && BlockFits(e.block) && BlockCounts(e.block)
    && TxIds(c, e.block.txs).Ok?
    && Distinct(TxIds(c, e.block.txs).value)
    && IdOf(c, e) !in TxIds(c, e.block.txs).value
  }

  lemma OneTx(c: Suite, e: Entry, i: nat, j: nat)
    requires Regular(c, e) && i < |e.block.txs| && j < |e.block.txs|
    ensures TxId(c, e.block.txs[i]).Ok? && TxId(c, e.block.txs[i]).value != IdOf(c, e)
    ensures TxId(c, e.block.txs[i]) == TxId(c, e.block.txs[j]) ==> i == j
  {
    hide TxId, IdOf;
    TxIdsEach(c, e.block.txs);
    var ids := TxIds(c, e.block.txs).value;
    assert ids[i] in ids;
  }

  lemma {:induction false} TxRecordAt(c: Suite, id: Hash, txs: seq<Tx>, j: nat, t: Hash)
    requires j < |txs| <= 0x1_0000 && TxId(c, txs[j]) == Ok(t)
    requires forall i :: 0 <= i < |txs| && TxId(c, txs[i]) == Ok(t) ==> i == j
    ensures HashKey(t) in TxRecords(c, id, txs) && TxRecords(c, id, txs)[HashKey(t)] == TxV(TxAttr(id, j))
  {
    hide TxId;
    var n := |txs| - 1;
    if j < n {
      assert forall i :: 0 <= i < n ==> txs[..n][i] == txs[i];
      TxRecordAt(c, id, txs[..n], j, t);
    }
  }

  /** A record under an id is never changed by later blocks. */
  lemma {:induction false} RecordKept(conf: Conf, es: Blocks32, n: nat, k: Key)
    requires Grown(conf, es) && n <= |es| && k.HashKey? && k in Replay(conf.c, es[..n])
    ensures Get(Replay(conf.c, es), k) == Get(Replay(conf.c, es[..n]), k)
  {
    hide Replay, Topped, Makes, Spends, TxRecords, IdOf, Grown, EditsOfTxs, Proper, Fitting, Next;
    if n < |es| {
      GrownTop(conf, es);
      var less, e := es[..|es| - 1], TopOf(es);
      assert less[..n] == es[..n];
      RecordKept(conf, less, n, k);
      RecordStays(conf, less, n, k);
      PlainAt(conf.c, es, k);
      NewId(conf, es);
      TopEdits(conf, es);
      if k in TxRecords(conf.c, IdOf(conf.c, e), e.block.txs) {
        RecordsNew(conf.c, DbBelow(conf.c, es), IdOf(conf.c, e), |es| - 1, e.block.txs, k);
      }
    } else {
      assert es[..n] == es;
    }
  }

  /** The record of a transaction leads to its block and place. */
  lemma TxRecorded(conf: Conf, es: Blocks32, h: nat, j: nat)
    requires Grown(conf, es) && h < |es| && j < |TxsOf(es, h)| <= 0xFFFF && Regular(conf.c, es[h])
    ensures TxId(conf.c, TxsOf(es, h)[j]).Ok?
    ensures Get(Replay(conf.c, es), HashKey(TxId(conf.c, TxsOf(es, h)[j]).value)) ==
            Some(TxV(TxAttr(IdOf(conf.c, es[h]), j)))
  {
    hide Replay, Topped, Makes, Spends, TxRecords, IdOf, Grown, Regular, TxId;
    var c, e, upto := conf.c, es[h], es[..h + 1];
    OneTx(c, e, j, j);
    var t := TxId(c, e.block.txs[j]).value;
    forall i | 0 <= i < |e.block.txs| && TxId(c, e.block.txs[i]) == Ok(t) ensures i == j {
      OneTx(c, e, i, j);
    }
    TxRecordAt(c, IdOf(c, e), e.block.txs, j, t);
    LastOfPrefix(es, h);
    PlainAt(c, upto, HashKey(t));
    RecordKept(conf, es, h + 1, HashKey(t));
  }

  lemma CountsOf(c: Suite, e: Entry)
    requires Regular(c, e)
    ensures BlockFits(e.block) && BlockCounts(e.block)
  {
    hide BlockFits, BlockCounts, TxIds, IdOf;
  }

  /** Where an output of the chain is looked up, it is found. */
  lemma RefFound(conf: Conf, es: Blocks32, h: nat, j: nat, i: nat, k: Key)
    requires Grown(conf, es) && h < |es| && j < |TxsOf(es, h)| && Regular(conf.c, es[h])
    requires Pays(conf.c, TxsOf(es, h)[j], i, k)
    ensures RefOut(Replay(conf.c, es), EntryBodies(conf.c, es), OutPoint(k.tx, k.idx)) == Ok(TxsOf(es, h)[j].outs[i])
  {
    hide Replay, Topped, IdOf, Grown, Regular, TxId, OutAddress, EntryBodies, Reread, BlockFits;
    var c, b := conf.c, HashKey(IdOf(conf.c, es[h]));
    CountsOf(c, es[h]);
    RereadIs(es[h].block);
    TxRecorded(conf, es, h, j);
    IdIndexed(conf, es, h);
    BodiesAre(conf, es, b);
  }

  /** A coin a transaction makes carries the value of one of its outputs. */
  lemma {:induction false} MadeByOutput(c: Suite, tx: Tx, height: U32, n: nat, k: Key) returns (i: nat)
    requires n <= |tx.outs| && TxId(c, tx).Ok? && k in MadeBy(TxId(c, tx).value, tx, height, n)
    ensures i < n && Pays(c, tx, i, k)
    ensures MadeBy(TxId(c, tx).value, tx, height, n)[k] == CoinV(MadeCoin(tx, height, i))
  {
    hide TxId, OutAddress, MadeCoin;
    i := n - 1;
    if MadeKey(TxId(c, tx).value, tx.outs, n - 1) != Some(k) {
      i := MadeByOutput(c, tx, height, n - 1, k);
    }
  }

  lemma {:induction false} MakesOutput(c: Suite, height: U32, txs: seq<Tx>, k: Key) returns (j: nat, i: nat)
    requires k in Makes(c, height, txs)
    ensures j < |txs| && Pays(c, txs[j], i, k) && Makes(c, height, txs)[k] == CoinV(MadeCoin(txs[j], height, i))
  {
    hide TxId, MadeBy, Pays, MadeCoin;
    j := |txs| - 1;
    var txid := TxId(c, txs[j]);
    if txid.Ok? && k in MadeBy(txid.value, txs[j], height, |txs[j].outs|) {
      i := MadeByOutput(c, txs[j], height, |txs[j].outs|, k);
    } else {
      j, i := MakesOutput(c, height, txs[..j], k);
    }
  }

  /** The coin invariant: every coin in the index is one output of one transaction of the chain, and has that output's
      value, its transaction's mark and its block's height; looking up the outpoint it stands for finds that output, if
      the block is regular. */
  lemma CoinMeaning(conf: Conf, es: Blocks32, k: Key) returns (h: nat, j: nat, i: nat)
    requires Grown(conf, es) && k.CoinKey? && k in Replay(conf.c, es)
    ensures h < |es| && j < |TxsOf(es, h)| && Pays(conf.c, TxsOf(es, h)[j], i, k)
    ensures Replay(conf.c, es)[k] == CoinV(Coin(TxsOf(es, h)[j].outs[i].value, FlagsOf(TxsOf(es, h)[j]), h))
    ensures Regular(conf.c, es[h]) ==>
              RefOut(Replay(conf.c, es), EntryBodies(conf.c, es), OutPoint(k.tx, k.idx)) == Ok(TxsOf(es, h)[j].outs[i])
  {
    hide Replay, Topped, IdOf, Grown, Regular, OutAddress, EntryBodies, Makes, Spends, Unspent, RefOut, TxId;
    var c := conf.c;
    CoinsAreUnspent(conf, es, k);
    UnspentMeaning(conf, es, k);
    h :| MadeAt(c, es, h, k);
    j, i := MakesOutput(c, h, TxsOf(es, h), k);
    if Regular(c, es[h]) {
      RefFound(conf, es, h, j, i, k);
    }
  }

  // Spending is authorised.

  /** What is checked of one input that spends a coin. */
  predicate Paid(c: Suite, db: Db, bodies: Bodies, height: U32, inv: TxIn) {
    var outv := RefOut(db, bodies, Point(inv));
    && outv.Ok? && InAddress(c, inv).Ok? && InAddress(c, inv) == OutAddress(outv.value)
    && var coin := CoinAt(db, CoinKey(InAddress(c, inv).value, inv.out, inv.idx));
       coin.Ok? && coin.value.value == outv.value.value && Mature(coin.value, height)
  }

  lemma {:induction false} InputPaid(c: Suite, db: Db, bodies: Bodies, height: U32, ins: seq<TxIn>, i: nat)
    requires InsWorth(c, db, bodies, height, ins).Ok? && i < |ins| && !CoinbaseIn(ins[i])
    ensures Paid(c, db, bodies, height, ins[i])
  {
    hide InAddress, OutAddress, RefOut, CoinbaseIn, Mature, CoinAt;
    if i < |ins| - 1 {
      InputPaid(c, db, bodies, height, ins[..|ins| - 1], i);
    }
  }

  lemma {:induction false} TxChecked(c: Suite, db: Db, bodies: Bodies, height: U32, txs: seq<Tx>, j: nat)
    requires BlockFees(c, db, bodies, height, txs).Ok? && j < |txs|
    ensures Signing.SignaturesPass(c, RefLookup(db, bodies), txs[j])
    ensures TxFees(c, db, bodies, height, txs[j]).Ok?
  {
    hide Signing.SignaturesPass, TxFees;
    if j < |txs| - 1 {
      TxChecked(c, db, bodies, height, txs[..|txs| - 1], j);
    }
  }

  lemma FeesOf(conf: Conf, es: Blocks32, h: nat)
    requires Grown(conf, es) && h < |es|
    ensures BlockFees(conf.c, Replay(conf.c, es[..h]), EntryBodies(conf.c, es[..h]), h, TxsOf(es, h)).Ok?
  {
    hide Grown, Replay, EntryBodies, BlockFees, Reward, LinkEdits, Follows;
    GrownPrefix(conf, es, h + 1);
    LastOfPrefix(es, h);
    assert es[..h + 1][..h] == es[..h];
    TopLinks(conf, es[..h + 1]);
  }

  /** The script of every output spent ran to its end, after that of the input, against the input's own message; the
      coin was there, at the address of both, worth what the output says, and old enough. */
  lemma SpendAuthorised(conf: Conf, es: Blocks32, h: nat, j: nat, i: nat)
    requires Grown(conf, es) && h < |es| && j < |TxsOf(es, h)| && i < |TxsOf(es, h)[j].ins|
    requires !CoinbaseIn(TxsOf(es, h)[j].ins[i])
    ensures var c, db, bodies, tx := conf.c, Replay(conf.c, es[..h]), EntryBodies(conf.c, es[..h]), TxsOf(es, h)[j];
            && Paid(c, db, bodies, h, tx.ins[i])
            && Signing.NewCache(c, tx).Ok?
            && Scripts.Run(c, Signing.LinkEnv(c, Signing.NewCache(c, tx).value, tx.ins[i],
                                           RefOut(db, bodies, Point(tx.ins[i])).value),
                           Scripts.FRESH, tx.ins[i].script + RefOut(db, bodies, Point(tx.ins[i])).value.script).Ok?
  {
    hide Grown, Replay, EntryBodies, BlockFees, Paid, InsWorth, CoinbaseIn, Total,
         RefOut, Signing.NewCache, Scripts.Run;
    hide Signing.LinkEnv;
    var c, db, bodies, tx := conf.c, Replay(conf.c, es[..h]), EntryBodies(conf.c, es[..h]), TxsOf(es, h)[j];
    FeesOf(conf, es, h);
    TxChecked(c, db, bodies, h, TxsOf(es, h), j);
    InputPaid(c, db, bodies, h, tx.ins, i);
    PaidRefs(c, db, bodies, h, tx.ins[i]);
    assert Signing.InputPasses(c, RefLookup(db, bodies), Signing.NewCache(c, tx).value, tx.ins[i]);
  }

  lemma PaidRefs(c: Suite, db: Db, bodies: Bodies, height: U32, inv: TxIn)
    requires Paid(c, db, bodies, height, inv)
    ensures RefOut(db, bodies, Point(inv)).Ok?
  {
    hide RefOut, InAddress, OutAddress, CoinAt, Mature;
  }

  lemma InputCounts(conf: Conf, es: Blocks32, h: nat, j: nat, i: nat)
    requires Grown(conf, es) && h < |es| && j < |TxsOf(es, h)| && i < |TxsOf(es, h)[j].ins|
    ensures InOk(TxsOf(es, h)[j].ins[i])
  {
    hide Grown, InOk, Replay, Fitting, EntryBodies, MerkleRoot, BlockBytes, AllIns, VerifyPow, Next, TxBytes, Coinbases;
    GrownPrefix(conf, es, h + 1);
    LastOfPrefix(es, h);
    TopFits(conf, es[..h + 1]);
    assert TxOk(TxsOf(es, h)[j]);
  }

  /** No standard output is ever spent but by an input whose script, run by itself, begins as an input script and
      leaves on top of the stack an account that hashes to the address in the output and whose signatures verify the
      input's message; whatever else the script does. */
  lemma NoForgedSpend(conf: Conf, es: Blocks32, h: nat, j: nat, i: nat, a: Hash, value: I64)
    requires Grown(conf, es) && h < |es| && j < |TxsOf(es, h)| && i < |TxsOf(es, h)[j].ins|
    requires !CoinbaseIn(TxsOf(es, h)[j].ins[i])
    requires RefOut(Replay(conf.c, es[..h]), EntryBodies(conf.c, es[..h]), Point(TxsOf(es, h)[j].ins[i])) ==
             Ok(TxOut(value, Scripts.ScriptOut(a)))
    ensures Signing.NewCache(conf.c, TxsOf(es, h)[j]).Ok?
    ensures Signing.Authorised(conf.c, Signing.NewCache(conf.c, TxsOf(es, h)[j]).value, TxsOf(es, h)[j].ins[i],
                               TxOut(value, Scripts.ScriptOut(a)), a)
  {
    hide Grown, Replay, EntryBodies, Paid, RefOut, CoinbaseIn, Signing.NewCache, Scripts.Run;
    hide Signing.Authorised, Scripts.ScriptOut, Scripts.Ops, Scripts.MaxSize;
    var c, tx := conf.c, TxsOf(es, h)[j];
    var lookup := RefLookup(Replay(c, es[..h]), EntryBodies(c, es[..h]));
    InputCounts(conf, es, h, j, i);
    SpendAuthorised(conf, es, h, j, i);
    Signing.AnyInputPasses(c, lookup, Signing.NewCache(c, tx).value, tx.ins[i], a, value);
  }

  /** In particular, an input that carries just an account spends a standard output only if that account does. */
  lemma AccountSpends(conf: Conf, es: Blocks32, h: nat, j: nat, i: nat,
                      acc: Bytes, a: Hash, value: I64)
    requires Grown(conf, es) && h < |es| && j < |TxsOf(es, h)| && i < |TxsOf(es, h)[j].ins|
    requires 0 < |acc| <= Scripts.MAX_SCRIPT_SIZE && TxsOf(es, h)[j].ins[i].script == Scripts.ScriptIn(acc)
    requires RefOut(Replay(conf.c, es[..h]), EntryBodies(conf.c, es[..h]), Point(TxsOf(es, h)[j].ins[i])) ==
             Ok(TxOut(value, Scripts.ScriptOut(a)))
    ensures Scripts.AddressOfEle(conf.c, Scripts.Data(acc)) == Ok(a)
    ensures Signing.NewCache(conf.c, TxsOf(es, h)[j]).Ok?
    ensures Signing.VerifyEle(conf.c, Signing.NewCache(conf.c, TxsOf(es, h)[j]).value, TxsOf(es, h)[j].ins[i],
                              TxOut(value, Scripts.ScriptOut(a)), Scripts.Data(acc)) == Ok(true)
  {
    hide Grown, Replay, EntryBodies, Paid, RefOut, Signing.NewCache, Scripts.Run, Signing.LinkEnv;
    hide Signing.VerifyEle, Scripts.AddressOfEle, Scripts.ScriptOut;
    var c, tx := conf.c, TxsOf(es, h)[j];
    var lookup := RefLookup(Replay(c, es[..h]), EntryBodies(c, es[..h]));
    NotCoinbase(tx.ins[i], acc);
    SpendAuthorised(conf, es, h, j, i);
    Signing.StandardInputPasses(c, lookup, Signing.NewCache(c, tx).value, tx.ins[i], acc, a, value);
  }

  lemma NotCoinbase(inv: TxIn, acc: Bytes)
    requires inv.script == Scripts.ScriptIn(acc)
    ensures !CoinbaseIn(inv)
  {
    hide Scripts.DataBytes;
    assert inv.script[1] == Scripts.TYPE_IN;
  }

  /** Every input of a chain that is not a coinbase's spends an output of an earlier block: one of the transaction it
      names, of the address the input is made out to, with the number it names as far as sixteen bits tell, and worth
      what the looked-up output is worth. If that block is regular, it is the looked-up output, under its own number. */
  lemma SpendsOutput(conf: Conf, es: Blocks32, h: nat, j: nat, i: nat)
    returns (h0: nat, j0: nat, i0: nat)
    requires Grown(conf, es)
    requires h < |es| && j < |TxsOf(es, h)| && i < |TxsOf(es, h)[j].ins| && !CoinbaseIn(TxsOf(es, h)[j].ins[i])
    ensures var c, inv, found := conf.c, TxsOf(es, h)[j].ins[i],
                RefOut(Replay(conf.c, es[..h]), EntryBodies(conf.c, es[..h]), Point(TxsOf(es, h)[j].ins[i]));
            && h0 < h && j0 < |TxsOf(es, h0)| && i0 < |TxsOf(es, h0)[j0].outs|
            && TxId(c, TxsOf(es, h0)[j0]) == Ok(inv.out) && i0 % 0x1_0000 == inv.idx
            && InAddress(c, inv).Ok? && InAddress(c, inv) == OutAddress(TxsOf(es, h0)[j0].outs[i0])
            && found.Ok? && found.value.value == TxsOf(es, h0)[j0].outs[i0].value
            && (Regular(c, es[h0]) ==> i0 == inv.idx && found == Ok(TxsOf(es, h0)[j0].outs[i0]))
  {
    hide Grown, Replay, EntryBodies, Regular, RefOut, InAddress, OutAddress, TxId,
         CoinbaseIn, Scripts.Run, Signing.NewCache;
    hide Signing.LinkEnv;
    var c, below, inv := conf.c, es[..h], TxsOf(es, h)[j].ins[i];
    SpendAuthorised(conf, es, h, j, i);
    GrownPrefix(conf, es, h);
    h0, j0, i0 := CoinMeaning(conf, below, CoinKey(InAddress(c, inv).value, inv.out, inv.idx));
    assert below[h0] == es[h0];
    if Regular(c, es[h0]) {
      CountsOf(c, es[h0]);
    }
  }

  // When the ids of a block's transactions differ.

  /** No two different signed forms in the block hash alike. */
  ghost predicate NoCollision(c: Suite, txs: seq<Tx>) {
    forall i, j :: 0 <= i < |txs| && 0 <= j < |txs| ==>
      (TxId(c, txs[i]).Ok? && TxId(c, txs[i]) == TxId(c, txs[j]) ==> TxSign(c, txs[i]) == TxSign(c, txs[j]))
  }

  lemma {:induction false} InsSignStarts(c: Suite, ins: seq<TxIn>)
    requires ins != [] && InsSign(c, ins).Ok?
    ensures |InsSign(c, ins).value| >= 34
    ensures InsSign(c, ins).value[..34] == ins[0].out + LE(ins[0].idx, 2)
  {
    hide ScriptSign, LE;
    var n := |ins| - 1;
    if n > 0 {
      InsSignStarts(c, ins[..n]);
      var t, x := InsSign(c, ins[..n]).value, InSign(c, ins[n]).value;
      assert (t + x)[..34] == t[..34];
    } else {
      assert ins[..0] == [];
      assert InsSign(c, ins[..0]) == Ok([]);
      var x := InSign(c, ins[0]).value;
      assert [] + x == x;
      assert x[..34] == ins[0].out + LE(ins[0].idx, 2);
    }
  }

  /** The signed form of a transaction shows its first outpoint. */
  lemma TxSignStarts(c: Suite, tx: Tx)
    requires tx.ins != [] && TxSign(c, tx).Ok?
    ensures |TxSign(c, tx).value| >= 40
    ensures TxSign(c, tx).value[6..40] == tx.ins[0].out + LE(tx.ins[0].idx, 2)
  {
    InsSignStarts(c, tx.ins);
    hide LE, InsSign, OutsSign;
    var s, ins := TxSign(c, tx).value, InsSign(c, tx.ins).value;
    assert s == (LE(tx.ver, 4) + LE(|tx.ins|, 2)) + ins + LE(|tx.outs|, 2) + OutsSign(c, tx.outs).value;
    assert s[6..40] == ins[..34];
  }

  /** In a block that passes its checks, transactions have different ids unless the hash collides: their signed forms
      start with different outpoints. */
  lemma TxIdsDistinct(c: Suite, now: int, b: Block)
    requires BlockOk(c, now, b) && NoCollision(c, b.txs)
    ensures TxIds(c, b.txs).Ok? && Distinct(TxIds(c, b.txs).value)
  {
    hide TxSign, AllIns, BlockBytes, TxOk, InOk, Coinbases;
    TxIdsEach(c, b.txs);
    var ids := TxIds(c, b.txs).value;
    forall i, j | 0 <= i < j < |ids| ensures ids[i] != ids[j] {
      assert TxOk(b.txs[i]) && TxOk(b.txs[j]);
      FirstPoints(c, b.txs, i, j);
    }
  }

  lemma {:induction false} FirstPoints(c: Suite, txs: seq<Tx>, i: nat, j: nat)
    requires i < j < |txs| && TxOk(txs[i]) && TxOk(txs[j]) && Distinct(Points(AllIns(txs)))
    requires TxSign(c, txs[i]).Ok?
    ensures TxSign(c, txs[i]) != TxSign(c, txs[j])
  {
    hide TxSign, AllIns, TxBytes, InOk, OutOk, Total, LE;
    AllInsAt(txs, i, 0);
    AllInsAt(txs, j, 0);
    AllInsGrow(txs, i, j);
    var ps, x, y := Points(AllIns(txs)), |AllIns(txs[..i])|, |AllIns(txs[..j])|;
    assert ps[x] == Point(txs[i].ins[0]) && ps[y] == Point(txs[j].ins[0]) && ps[x] != ps[y];
    if TxSign(c, txs[i]) == TxSign(c, txs[j]) {
      TxSignStarts(c, txs[i]);
      TxSignStarts(c, txs[j]);
      Signing.SamePoint(txs[i].ins[0], txs[j].ins[0]);
    }
  }

  lemma AllInsGrow(txs: seq<Tx>, i: nat, j: nat)
    requires i < j <= |txs| && txs[i].ins != []
    ensures |AllIns(txs[..i])| < |AllIns(txs[..j])|
  {
    assert txs[..i + 1][..i] == txs[..i];
    assert txs[..j][..i + 1] == txs[..i + 1];
    AllInsPrefix(txs[..j], i + 1);
  }

  // Over runs.

  /** In every state a run of links and pops can reach, a coin is in the database exactly if a block of the current
      chain made it and none spent it. */
  lemma CoinsOverRuns(conf: Conf, evs: seq<Event>, k: Key)
    requires k.CoinKey?
    ensures |History(conf, evs)| <= 0x1_0000_0000
    ensures var es := History(conf, evs);
            k in Run(conf, evs).db <==>
            (exists h: nat :: MadeAt(conf.c, es, h, k)) && (forall h: nat :: !SpentAt(conf.c, es, h, k))
  {
    hide *;
    IndexRefinesReplay(conf, evs);
    ConsistentParts(conf, History(conf, evs), Run(conf, evs));
    CoinsAreUnspent(conf, History(conf, evs), k);
    UnspentMeaning(conf, History(conf, evs), k);
    SameKeys(Run(conf, evs).db, Unspent(conf.c, History(conf, evs)), k);
  }

  /** In every state a run can reach, each coin is one output of the current chain, with its value, mark and height. */
  lemma CoinMeaningOverRuns(conf: Conf, evs: seq<Event>, k: Key) returns (h: nat, j: nat, i: nat)
    requires k.CoinKey? && k in Run(conf, evs).db
    ensures |History(conf, evs)| <= 0x1_0000_0000
    ensures var es := History(conf, evs);
            && h < |es| && j < |TxsOf(es, h)| && Pays(conf.c, TxsOf(es, h)[j], i, k)
            && Run(conf, evs).db[k] == CoinV(Coin(TxsOf(es, h)[j].outs[i].value, FlagsOf(TxsOf(es, h)[j]), h))
            && (Regular(conf.c, es[h]) ==>
                  RefOut(Run(conf, evs).db, BodiesOf(Run(conf, evs)), OutPoint(k.tx, k.idx)) ==
                  Ok(TxsOf(es, h)[j].outs[i]))
  {
    hide *;
    IndexRefinesReplay(conf, evs);
    ConsistentParts(conf, History(conf, evs), Run(conf, evs));
    BodiesMatch(conf, History(conf, evs), Run(conf, evs));
    h, j, i := CoinMeaning(conf, History(conf, evs), k);
  }

  lemma SameKeys(a: Db, b: Db, k: Key)
    requires Get(a, k) == Get(b, k)
    ensures k in a <==> k in b
  {
  }
}
