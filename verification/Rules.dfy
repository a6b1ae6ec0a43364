/** The rules of the chain, told on its blocks alone, and that linking enforces exactly these. */
module Rules {
  import opened Common
  import opened Iobuf
  import opened Crypto
  import Scripts
  import opened Blocks
  import opened Difficulty
  import opened Journal
  import Merkle
  import Signing
  import opened Storage
  import opened Ledger
  import opened Chains
  import opened Coins

  // What an input may spend.

  /** An output of the chain: block, transaction and number. */
  datatype Place = Place(h: nat, j: nat, i: nat)

  predicate Inside(es: Blocks32, p: Place) {
    p.h < |es| && p.j < |TxsOf(es, p.h)| && p.i < |TxsOf(es, p.h)[p.j].outs|
  }

  function TxAt(es: Blocks32, p: Place): Tx
    requires Inside(es, p)
  {
    TxsOf(es, p.h)[p.j]
  }

  function OutAt(es: Blocks32, p: Place): TxOut
    requires Inside(es, p)
  {
    TxAt(es, p).outs[p.i]
  }

  /** The input names this output by transaction id and number, and is made out to its address. */
  predicate Names(c: Suite, es: Blocks32, inv: TxIn, p: Place) {
    && !CoinbaseIn(inv) && Inside(es, p)
    && TxId(c, TxAt(es, p)) == Ok(inv.out) && p.i == inv.idx
    && InAddress(c, inv).Ok? && OutAddress(OutAt(es, p)) == InAddress(c, inv)
  }

  function CoinOf(c: Suite, inv: TxIn): Key
    requires InAddress(c, inv).Ok?
  {
    CoinKey(InAddress(c, inv).value, inv.out, inv.idx)
  }

  /** No block has spent it, and if a coinbase made it, that was a hundred blocks ago. */
  ghost predicate Free(c: Suite, es: Blocks32, inv: TxIn, p: Place)
    requires Names(c, es, inv, p)
  {
    && (forall h: nat :: !SpentAt(c, es, h, CoinOf(c, inv)))
    && (Coinbase(TxAt(es, p)) ==> |es| - p.h >= 100)
  }

  /** The coin an input names is in the index exactly if no block spent it, and is then that output. */
  lemma {:induction false} NamedCoin(conf: Conf, es: Blocks32, inv: TxIn, p: Place)
    requires Grown(conf, es) && Names(conf.c, es, inv, p) && Regular(conf.c, es[p.h])
    ensures CoinOf(conf.c, inv) in Replay(conf.c, es) <==> forall h: nat :: !SpentAt(conf.c, es, h, CoinOf(conf.c, inv))
    ensures CoinOf(conf.c, inv) in Replay(conf.c, es) ==>
              Replay(conf.c, es)[CoinOf(conf.c, inv)] ==
              CoinV(Coin(OutAt(es, p).value, FlagsOf(TxAt(es, p)), p.h))
    ensures RefOut(Replay(conf.c, es), EntryBodies(conf.c, es), Point(inv)) == Ok(OutAt(es, p))
  {
    hide Grown, Replay, Unspent, Makes, Spends, Regular, TxId, OutAddress, InAddress, EntryBodies, RefOut, FlagsOf;
    hide CoinbaseIn;
    var c, k := conf.c, CoinOf(conf.c, inv);
    assert Pays(c, TxAt(es, p), p.i, k);
    MakesMeaning(c, p.h, TxsOf(es, p.h), k);
    assert MadeAt(c, es, p.h, k);
    CoinsAreUnspent(conf, es, k);
    UnspentMeaning(conf, es, k);
    var j, i := MakesOutput(c, p.h, TxsOf(es, p.h), k);
    OneTx(c, es[p.h], j, p.j);
    CountsOf(c, es[p.h]);
    assert TxCounts(es[p.h].block.txs[j]);
    RefFound(conf, es, p.h, p.j, p.i, k);
  }

  /** What a coin may be spent for: whether it is ripe is told by its place. */
  lemma RipeCoin(es: Blocks32, p: Place, value: I64)
    requires Inside(es, p) && |es| < 0x1_0000_0000
    ensures Mature(Coin(value, FlagsOf(TxAt(es, p)), p.h), |es|) <==> (Coinbase(TxAt(es, p)) ==> |es| - p.h >= 100)
  {
    hide Coinbase;
  }

  /** The coins of named inputs, as the two passes over them see them. */
  lemma {:induction false} NamedIn(conf: Conf, es: Blocks32, inv: TxIn, p: Place)
    requires Grown(conf, es) && Names(conf.c, es, inv, p) && Regular(conf.c, es[p.h]) && |es| < 0x1_0000_0000
    ensures RefOut(Replay(conf.c, es), EntryBodies(conf.c, es), Point(inv)) == Ok(OutAt(es, p))
    ensures var coin := CoinAt(Replay(conf.c, es), CoinOf(conf.c, inv));
            && (coin.Ok? && Mature(coin.value, |es|) <==> Free(conf.c, es, inv, p))
            && (coin.Ok? ==> coin.value.value == OutAt(es, p).value)
  {
    hide Grown, Replay, SpentAt, Regular, TxId, OutAddress, InAddress, EntryBodies, RefOut, FlagsOf, Mature;
    hide CoinbaseIn, Coinbase;
    NamedCoin(conf, es, inv, p);
    RipeCoin(es, p, OutAt(es, p).value);
  }

  // What the inputs of a transaction are worth.

  ghost predicate AllName(c: Suite, es: Blocks32, ins: seq<TxIn>, at: seq<Place>) {
    |at| == |ins| && forall n :: 0 <= n < |ins| ==> Names(c, es, ins[n], at[n]) && Regular(c, es[at[n].h])
  }

  ghost predicate AllFree(c: Suite, es: Blocks32, ins: seq<TxIn>, at: seq<Place>)
    requires AllName(c, es, ins, at)
  {
    forall n :: 0 <= n < |ins| ==> Free(c, es, ins[n], at[n])
  }

  function Worth(es: Blocks32, at: seq<Place>): int
    requires forall n :: 0 <= n < |at| ==> Inside(es, at[n])
  {
    if at == [] then 0 else Worth(es, at[..|at| - 1]) + OutAt(es, at[|at| - 1]).value
  }

  /** Inputs that name outputs of the chain are worth what these are worth, exactly if all of them are free; otherwise
      they are refused. */
  lemma {:induction false} NamedWorth(conf: Conf, es: Blocks32, ins: seq<TxIn>, at: seq<Place>)
    requires Grown(conf, es) && |es| < 0x1_0000_0000 && AllName(conf.c, es, ins, at)
    ensures InsWorth(conf.c, Replay(conf.c, es), EntryBodies(conf.c, es), |es|, ins) ==
            if AllFree(conf.c, es, ins, at) then Ok(Worth(es, at)) else Err
  {
    hide Grown, Replay, EntryBodies, RefOut, InAddress, OutAddress, CoinAt, Mature, Regular, Free, TxId, CoinbaseIn;
    if ins != [] {
      var n := |ins| - 1;
      NamedWorth(conf, es, ins[..n], at[..n]);
      NamedIn(conf, es, ins[n], at[n]);
      FreeLast(conf.c, es, ins, at);
    }
  }

  lemma FreeLast(c: Suite, es: Blocks32, ins: seq<TxIn>, at: seq<Place>)
    requires ins != [] && AllName(c, es, ins, at)
    ensures AllFree(c, es, ins, at) <==>
            AllFree(c, es, ins[..|ins| - 1], at[..|ins| - 1]) && Free(c, es, ins[|ins| - 1], at[|ins| - 1])
  {
    hide Names, Free, Regular;
    var n := |ins| - 1;
    if AllFree(c, es, ins[..n], at[..n]) && Free(c, es, ins[n], at[n]) {
      forall m | 0 <= m < |ins| ensures Free(c, es, ins[m], at[m]) {
        assert m < n ==> ins[..n][m] == ins[m] && at[..n][m] == at[m];
      }
    }
  }

  /** An input that is worth anything names some output of the chain, if the chain is regular. */
  lemma {:induction false} WorthNamed(conf: Conf, es: Blocks32, ins: seq<TxIn>) returns (at: seq<Place>)
    requires Grown(conf, es) && |es| < 0x1_0000_0000 && (forall n :: 0 <= n < |es| ==> Regular(conf.c, es[n]))
    requires forall n :: 0 <= n < |ins| ==> !CoinbaseIn(ins[n])
    requires InsWorth(conf.c, Replay(conf.c, es), EntryBodies(conf.c, es), |es|, ins).Ok?
    ensures AllName(conf.c, es, ins, at)
  {
    hide Grown, Replay, EntryBodies, RefOut, InAddress, OutAddress, Mature, Regular, TxId, CoinbaseIn, CoinAt;
    at := [];
    if ins != [] {
      var n := |ins| - 1;
      var before := WorthNamed(conf, es, ins[..n]);
      var p := PaidNamed(conf, es, ins[n]);
      at := before + [p];
      forall m | 0 <= m < |ins| ensures Names(conf.c, es, ins[m], at[m]) && Regular(conf.c, es[at[m].h]) {
        assert m < n ==> ins[..n][m] == ins[m];
      }
    }
  }

  lemma PaidNamed(conf: Conf, es: Blocks32, inv: TxIn) returns (p: Place)
    requires Grown(conf, es) && |es| < 0x1_0000_0000 && (forall n :: 0 <= n < |es| ==> Regular(conf.c, es[n]))
    requires !CoinbaseIn(inv) && Paid(conf.c, Replay(conf.c, es), EntryBodies(conf.c, es), |es|, inv)
    ensures Names(conf.c, es, inv, p)
  {
    hide Grown, Replay, EntryBodies, RefOut, InAddress, OutAddress, Mature, Regular, TxId, CoinbaseIn;
    var h, j, i := CoinMeaning(conf, es, CoinOf(conf.c, inv));
    p := Place(h, j, i);
    CountsOf(conf.c, es[h]);
    assert TxCounts(es[h].block.txs[j]);
  }

  // What a transaction pays.

  /** Every output is worth something. */
  predicate Paying(outs: seq<TxOut>) {
    forall i :: 0 <= i < |outs| ==> 1 <= outs[i].value <= MAX_MONEY
  }

  /** A transaction spending named outputs is let through exactly if they are free and worth what it pays out, and the
      rest is its fee. */
  lemma NamedFees(conf: Conf, es: Blocks32, tx: Tx, at: seq<Place>)
    requires Grown(conf, es) && |es| < 0x1_0000_0000 && AllName(conf.c, es, tx.ins, at)
    ensures !Coinbase(tx)
    ensures TxFees(conf.c, Replay(conf.c, es), EntryBodies(conf.c, es), |es|, tx) ==
            if AllFree(conf.c, es, tx.ins, at) && Paying(tx.outs) && Total(tx.outs) <= Worth(es, at) <= MAX_MONEY
            then Ok(Fees(Worth(es, at) - Total(tx.outs), 0)) else Err
  {
    hide Grown, Replay, EntryBodies, Regular, InsWorth, Total, CoinbaseIn, Worth, AllFree, TxId, InAddress, OutAddress;
    NamedWorth(conf, es, tx.ins, at);
    assert tx.ins != [] ==> Names(conf.c, es, tx.ins[0], at[0]);
    if Paying(tx.outs) {
      TotalSign(tx.outs);
    }
  }

  /** A coinbase transaction is let through as far as it pays valid amounts. */
  lemma CoinbaseFees(c: Suite, db: Db, bodies: Bodies, height: U32, tx: Tx)
    requires Coinbase(tx) && |tx.ins| == 1
    ensures TxFees(c, db, bodies, height, tx) ==
            if Paying(tx.outs) && Total(tx.outs) <= MAX_MONEY then Ok(Fees(0, Total(tx.outs))) else Err
  {
    hide Total, CoinbaseIn, InAddress, RefOut;
    assert tx.ins[..0] == [];
    assert InsWorth(c, db, bodies, height, []) == Ok(0);
    assert InsWorth(c, db, bodies, height, tx.ins) == Ok(0);
    if Paying(tx.outs) {
      TotalSign(tx.outs);
    }
  }

  // What a block pays.

  /** One coinbase transaction and that first; the inputs of all others name outputs of the chain. */
  ghost predicate NamedBlock(c: Suite, es: Blocks32, txs: seq<Tx>, at: seq<seq<Place>>) {
    && |at| == |txs| > 0 && Coinbase(txs[0]) && |txs[0].ins| == 1
    && forall j :: 0 < j < |txs| ==> AllName(c, es, txs[j].ins, at[j])
  }

  ghost predicate Signed(c: Suite, es: Blocks32, tx: Tx) {
    Signing.SignaturesPass(c, RefLookup(Replay(c, es), EntryBodies(c, es)), tx)
  }

  /** What is asked of a transaction that is not the coinbase's. */
  ghost predicate Allowed(c: Suite, es: Blocks32, tx: Tx, at: seq<Place>)
    requires AllName(c, es, tx.ins, at)
  {
    && AllFree(c, es, tx.ins, at)
    && Paying(tx.outs) && Total(tx.outs) <= Worth(es, at) <= MAX_MONEY
    && Signed(c, es, tx)
  }

  /** The fees of the first n transactions. */
  ghost function FeeSum(c: Suite, es: Blocks32, txs: seq<Tx>, at: seq<seq<Place>>, n: nat): int
    requires NamedBlock(c, es, txs, at) && 1 <= n <= |txs|
  {
    if n == 1 then 0
    else FeeSum(c, es, txs, at, n - 1) + FeeOf(c, es, txs[n - 1], at[n - 1])
  }

  ghost function FeeOf(c: Suite, es: Blocks32, tx: Tx, at: seq<Place>): int
    requires AllName(c, es, tx.ins, at)
  {
    Worth(es, at) - Total(tx.outs)
  }

  ghost predicate AllAllowed(c: Suite, es: Blocks32, txs: seq<Tx>, at: seq<seq<Place>>, n: nat)
    requires NamedBlock(c, es, txs, at) && 1 <= n <= |txs|
  {
    && Paying(txs[0].outs) && Total(txs[0].outs) <= MAX_MONEY && Signed(c, es, txs[0])
    && forall j :: 0 < j < n ==> Allowed(c, es, txs[j], at[j])
  }

  lemma {:induction false} FeeSumSign(c: Suite, es: Blocks32, txs: seq<Tx>, at: seq<seq<Place>>, n: nat)
    requires NamedBlock(c, es, txs, at) && 1 <= n <= |txs| && AllAllowed(c, es, txs, at, n)
    ensures FeeSum(c, es, txs, at, n) >= 0
    ensures n > 1 ==> FeeSum(c, es, txs, at, n - 1) <= FeeSum(c, es, txs, at, n)
  {
    hide AllName, AllFree, Paying, Total, Worth, Signed;
    if n > 1 {
      FeeSumSign(c, es, txs, at, n - 1);
      assert Allowed(c, es, txs[n - 1], at[n - 1]);
    }
  }

  /** The sums over a block come out exactly if each transaction is let through and the fees are a valid amount. */
  lemma {:induction false} NamedBlockFees(conf: Conf, es: Blocks32, txs: seq<Tx>, at: seq<seq<Place>>, n: nat)
    requires Grown(conf, es) && |es| < 0x1_0000_0000 && NamedBlock(conf.c, es, txs, at) && 1 <= n <= |txs|
    ensures BlockFees(conf.c, Replay(conf.c, es), EntryBodies(conf.c, es), |es|, txs[..n]) ==
            if AllAllowed(conf.c, es, txs, at, n) && FeeSum(conf.c, es, txs, at, n) <= MAX_MONEY
            then Ok(Fees(FeeSum(conf.c, es, txs, at, n), Total(txs[0].outs))) else Err
  {
    hide Grown, Replay, EntryBodies, AllName, AllFree, Paying, Total, Worth, TxFees, CoinbaseIn, Coinbase;
    hide Signing.SignaturesPass;
    var c, db, bodies := conf.c, Replay(conf.c, es), EntryBodies(conf.c, es);
    assert txs[..n][..n - 1] == txs[..n - 1] && txs[..n][n - 1] == txs[n - 1];
    if n == 1 {
      assert txs[..0] == [];
      FeesNone(c, db, bodies, |es|);
      CoinbaseFees(c, db, bodies, |es|, txs[0]);
      CoinbaseTotal(txs[0].outs);
    } else {
      NamedBlockFees(conf, es, txs, at, n - 1);
      NamedFees(conf, es, txs[n - 1], at[n - 1]);
      if AllAllowed(c, es, txs, at, n - 1) {
        FeeSumSign(c, es, txs, at, n - 1);
        CoinbaseTotal(txs[0].outs);
      }
      if AllAllowed(c, es, txs, at, n) {
        FeeSumSign(c, es, txs, at, n);
      }
    }
  }

  lemma FeesNone(c: Suite, db: Db, bodies: Bodies, height: U32)
    ensures BlockFees(c, db, bodies, height, []) == Ok(Fees(0, 0))
  {
  }

  lemma CoinbaseTotal(outs: seq<TxOut>)
    ensures Paying(outs) ==> Total(outs) >= 0
  {
    if Paying(outs) {
      TotalSign(outs);
    }
  }

  // What a block records.

  predicate HasTx(c: Suite, txs: seq<Tx>, id: Hash) {
    exists j :: 0 <= j < |txs| && TxId(c, txs[j]) == Ok(id)
  }

  /** The digest is the id of a block of the chain, or of a transaction in one. */
  predicate KnownAt(c: Suite, es: Blocks32, h: nat, id: Hash) {
    && h < |es|
    && (id == IdOf(c, es[h]) || HasTx(c, TxsOf(es, h), id))
  }

  ghost predicate Known(c: Suite, es: Blocks32, id: Hash) {
    exists h: nat :: KnownAt(c, es, h, id)
  }

  lemma {:induction false} Recorded(c: Suite, id: Hash, txs: seq<Tx>, t: Hash)
    ensures HashKey(t) in TxRecords(c, id, txs) <==> HasTx(c, txs, t)
  {
    hide TxId;
    if txs != [] {
      var n := |txs| - 1;
      Recorded(c, id, txs[..n], t);
      if j :| 0 <= j < |txs| && TxId(c, txs[j]) == Ok(t) {
        assert j < n ==> TxId(c, txs[..n][j]) == Ok(t);
      }
      if j :| 0 <= j < n && TxId(c, txs[..n][j]) == Ok(t) {
        assert TxId(c, txs[j]) == Ok(t);
      }
    }
  }

  /** The index holds a record under a digest exactly if it is known in the chain. */
  lemma {:induction false} KnownIs(conf: Conf, es: Blocks32, id: Hash)
    requires Grown(conf, es)
    ensures HashKey(id) in Replay(conf.c, es) <==> Known(conf.c, es, id)
  {
    hide *;
    ReplayNone(conf.c);
    if es == [] {
      KnownNone(conf.c, id);
    } else {
      GrownTop(conf, es);
      KnownIs(conf, es[..|es| - 1], id);
      KnownStep(conf.c, es, id);
      RecordStep(conf, es, id);
    }
  }

  lemma {:induction false} RecordStep(conf: Conf, es: Blocks32, id: Hash)
    requires es != []
    ensures HashKey(id) in Replay(conf.c, es) <==>
            || HashKey(id) in Replay(conf.c, es[..|es| - 1]) || id == IdOf(conf.c, TopOf(es))
            || HasTx(conf.c, TopOf(es).block.txs, id)
  {
    hide Replay, TxRecords, HasTx, IdOf, AfterBlock;
    PlainAt(conf.c, es, HashKey(id));
    HashAfter(conf.c, |es| - 1, TopOf(es), Get(DbBelow(conf.c, es), HashKey(id)), id);
    Recorded(conf.c, IdOf(conf.c, TopOf(es)), TopOf(es).block.txs, id);
  }

  lemma HashAfter(c: Suite, height: U32, e: Entry, was: Option<Value>, id: Hash)
    ensures AfterBlock(c, height, e, was, HashKey(id)).Some? <==>
            id == IdOf(c, e) || HashKey(id) in TxRecords(c, IdOf(c, e), e.block.txs) || was.Some?
  {
    hide IdOf, TxRecords;
  }

  lemma KnownNone(c: Suite, id: Hash)
    ensures !Known(c, [], id)
  {
  }

  lemma {:induction false} KnownStep(c: Suite, es: Blocks32, id: Hash)
    requires es != []
    ensures Known(c, es, id) <==>
            || Known(c, es[..|es| - 1], id) || id == IdOf(c, TopOf(es))
            || HasTx(c, TopOf(es).block.txs, id)
  {
    hide HasTx, IdOf;
    var n, less := |es| - 1, es[..|es| - 1];
    forall h: nat | h < n ensures KnownAt(c, es, h, id) == KnownAt(c, less, h, id) {
      assert TxsOf(less, h) == TxsOf(es, h) && less[h] == es[h];
    }
    assert TxsOf(es, n) == TopOf(es).block.txs;
    if h: nat :| KnownAt(c, es, h, id) {
      assert h < n ==> KnownAt(c, less, h, id);
    }
    if h: nat :| KnownAt(c, less, h, id) {
      assert KnownAt(c, es, h, id);
    }
    if id == IdOf(c, TopOf(es)) || HasTx(c, TxsOf(es, n), id) {
      assert KnownAt(c, es, n, id);
    }
  }

  predicate Addressed(outs: seq<TxOut>) {
    forall i :: 0 <= i < |outs| ==> OutAddress(outs[i]).Ok?
  }

  lemma {:induction false} OutsRecorded(txid: Hash, tx: Tx, height: U32, n: nat)
    requires n <= |tx.outs|
    ensures EditsOfOuts(txid, tx, height, n).Ok? <==> forall i :: 0 <= i < n ==> OutAddress(tx.outs[i]).Ok?
  {
    hide OutAddress;
    if n > 0 {
      OutsRecorded(txid, tx, height, n - 1);
    }
  }

  lemma {:induction false} InsRecorded(conf: Conf, es: Blocks32, ins: seq<TxIn>, at: seq<Place>)
    requires Grown(conf, es) && |es| < 0x1_0000_0000 && AllName(conf.c, es, ins, at)
    ensures EditsOfIns(conf.c, Replay(conf.c, es), |es|, ins).Ok? <==> AllFree(conf.c, es, ins, at)
  {
    hide Grown, Replay, EntryBodies, RefOut, InAddress, OutAddress, CoinAt, Mature, Regular, Free, TxId, CoinbaseIn;
    if ins != [] {
      var n := |ins| - 1;
      InsRecorded(conf, es, ins[..n], at[..n]);
      NamedIn(conf, es, ins[n], at[n]);
      FreeLast(conf.c, es, ins, at);
    }
  }

  lemma CoinbaseRecorded(c: Suite, db: Db, height: U32, tx: Tx)
    requires Coinbase(tx) && |tx.ins| == 1
    ensures EditsOfIns(c, db, height, tx.ins).Ok?
  {
    hide CoinbaseIn, InAddress;
    assert tx.ins[..0] == [];
    assert EditsOfIns(c, db, height, []).Ok?;
  }

  /** New to the chain, and with an address on every output. */
  ghost predicate Recordable(c: Suite, es: Blocks32, tx: Tx) {
    TxId(c, tx).Ok? && !Known(c, es, TxId(c, tx).value) && Addressed(tx.outs)
  }

  ghost predicate Records(c: Suite, es: Blocks32, txs: seq<Tx>, at: seq<seq<Place>>, n: nat)
    requires NamedBlock(c, es, txs, at) && n <= |txs|
  {
    forall j :: 0 <= j < n ==> Recordable(c, es, txs[j]) && (j > 0 ==> AllFree(c, es, txs[j].ins, at[j]))
  }

  lemma {:induction false} TxsRecorded(conf: Conf, es: Blocks32, id: Hash, txs: seq<Tx>, at: seq<seq<Place>>, n: nat)
    requires Grown(conf, es) && |es| < 0x1_0000_0000 && NamedBlock(conf.c, es, txs, at) && n <= |txs|
    ensures EditsOfTxs(conf.c, Replay(conf.c, es), id, |es|, txs[..n]).Ok? <==> Records(conf.c, es, txs, at, n)
  {
    hide Grown, Replay, AllName, AllFree, TxId, EditsOfIns, EditsOfOuts, CoinbaseIn, Coinbase, Known, Addressed;
    if n > 0 {
      var tx := txs[n - 1];
      assert txs[..n][..n - 1] == txs[..n - 1] && txs[..n][n - 1] == tx;
      TxsRecorded(conf, es, id, txs, at, n - 1);
      if n == 1 {
        CoinbaseRecorded(conf.c, Replay(conf.c, es), |es|, tx);
      } else {
        InsRecorded(conf, es, tx.ins, at[n - 1]);
      }
      if TxId(conf.c, tx).Ok? {
        KnownIs(conf, es, TxId(conf.c, tx).value);
        OutsAddressed(TxId(conf.c, tx).value, tx, |es|);
      }
    }
  }

  lemma OutsAddressed(txid: Hash, tx: Tx, height: U32)
    ensures EditsOfOuts(txid, tx, height, |tx.outs|).Ok? <==> Addressed(tx.outs)
  {
    OutsRecorded(txid, tx, height, |tx.outs|);
    hide EditsOfOuts, OutAddress;
  }

  // The rules.

  /** Where the block comes: the first is the configured one, every other names the one before. */
  ghost predicate Comes(conf: Conf, es: Blocks32, b: Block) {
    if es == [] then BlockId(conf.c, b) == conf.genesis else b.header.prev == IdOf(conf.c, TopOf(es))
  }

  /** Mined: the id is no more than the target in its header, which is no more than the limit. */
  predicate Mined(conf: Conf, b: Block) {
    Number(BlockId(conf.c, b)) <= Decode(b.header.bits) <= Number(conf.limit)
  }

  /** It carries the difficulty required at its height. */
  ghost predicate Retargeted(conf: Conf, es: Blocks32, b: Block) {
    var tip := Next(conf, Replay(conf.c, es));
    tip.Ok? && b.header.bits == tip.value.bits
  }

  /** Every transaction is allowed, and the coinbase takes no more than the reward and the fees. */
  ghost predicate Affordable(conf: Conf, es: Blocks32, b: Block, at: seq<seq<Place>>)
    requires |es| < 0x1_0000_0000 && NamedBlock(conf.c, es, b.txs, at)
  {
    && AllAllowed(conf.c, es, b.txs, at, |b.txs|)
    && var fees := FeeSum(conf.c, es, b.txs, at, |b.txs|);
       fees <= MAX_MONEY && Total(b.txs[0].outs) <= Reward(conf, |es|) + fees
  }

  /** The rules for a block on top of a chain. */
  ghost predicate Rules(conf: Conf, now: int, es: Blocks32, b: Block, at: seq<seq<Place>>)
    requires |es| < 0x1_0000_0000 && NamedBlock(conf.c, es, b.txs, at)
  {
    && WellFormed(conf.c, now, b)
    && Comes(conf, es, b) && Mined(conf, b) && Retargeted(conf, es, b)
    && !Known(conf.c, es, BlockId(conf.c, b))
    && (forall j :: 0 <= j < |b.txs| ==> Recordable(conf.c, es, b.txs[j]))
    && Affordable(conf, es, b, at)
  }

  lemma {:induction false} RewardSmall(n: nat, k: nat)
    ensures Halved(n, k) <= n
  {
    if k > 0 {
      RewardSmall(n, k - 1);
    }
  }

  lemma RewardValid(conf: Conf, h: U32)
    ensures ValidAmount(Reward(conf, h))
  {
    RewardSmall(50 * COIN, h / conf.halving);
    hide Halved;
  }

  lemma MoneyRules(conf: Conf, es: Blocks32, b: Block, at: seq<seq<Place>>)
    requires Grown(conf, es) && |es| < 0x1_0000_0000 && NamedBlock(conf.c, es, b.txs, at)
    ensures AmountsOk(conf, Replay(conf.c, es), EntryBodies(conf.c, es), |es|, b) <==> Affordable(conf, es, b, at)
  {
    hide Grown, Replay, EntryBodies, NamedBlock, AllAllowed, FeeSum, BlockFees, Reward, Total;
    assert b.txs[..|b.txs|] == b.txs;
    BlockNotEmpty(conf.c, es, b.txs, at);
    NamedBlockFees(conf, es, b.txs, at, |b.txs|);
    RewardValid(conf, |es|);
  }

  lemma BlockNotEmpty(c: Suite, es: Blocks32, txs: seq<Tx>, at: seq<seq<Place>>)
    requires NamedBlock(c, es, txs, at)
    ensures |txs| > 0 && |at| == |txs|
  {
    hide AllName, CoinbaseIn;
  }

  lemma FollowsIs(conf: Conf, es: Blocks32, b: Block)
    requires Grown(conf, es) && (es != [] ==> Regular(conf.c, TopOf(es)))
    ensures Follows(conf, Replay(conf.c, es), EntryBodies(conf.c, es), b) <==> Comes(conf, es, b)
  {
    hide Grown, Replay, EntryBodies, Reread, BlockFits, HeaderBytes, Regular;
    TipIs(conf.c, es);
    if es != [] {
      CountsOf(conf.c, TopOf(es));
      RereadIs(TopOf(es).block);
      IdIndexed(conf, es, |es| - 1);
      BodiesAre(conf, es, HashKey(IdOf(conf.c, TopOf(es))));
    }
  }

  lemma ProperIs(conf: Conf, now: int, es: Blocks32, b: Block)
    requires Grown(conf, es)
    ensures Proper(conf, now, Replay(conf.c, es), b) <==>
            WellFormed(conf.c, now, b) && !Known(conf.c, es, BlockId(conf.c, b)) && Mined(conf, b)
  {
    hide BlockOk, WellFormed, BlockId, Replay, Known, Grown, Number, Decode;
    BlockOkMeans(conf.c, now, b);
    KnownIs(conf, es, BlockId(conf.c, b));
  }

  lemma RecordsIs(conf: Conf, es: Blocks32, b: Block, at: seq<seq<Place>>)
    requires Grown(conf, es) && |es| < 0x1_0000_0000 && NamedBlock(conf.c, es, b.txs, at)
    ensures LinkEdits(conf.c, Replay(conf.c, es), |es|, b).Ok? <==> Records(conf.c, es, b.txs, at, |b.txs|)
  {
    hide Grown, Replay, NamedBlock, Records, BlockId, EditsOfTxs;
    BlockNotEmpty(conf.c, es, b.txs, at);
    assert b.txs[..|b.txs|] == b.txs;
    TxsRecorded(conf, es, BlockId(conf.c, b), b.txs, at, |b.txs|);
  }

  lemma FittingIs(conf: Conf, es: Blocks32, b: Block, at: seq<seq<Place>>)
    requires Grown(conf, es) && |es| < 0x1_0000_0000 && NamedBlock(conf.c, es, b.txs, at)
    requires es != [] ==> Regular(conf.c, TopOf(es))
    ensures var tip := Next(conf, Replay(conf.c, es));
            Fitting(conf, Replay(conf.c, es), EntryBodies(conf.c, es), tip, b) <==>
            && Retargeted(conf, es, b) && Comes(conf, es, b) && Affordable(conf, es, b, at)
            && Records(conf.c, es, b.txs, at, |b.txs|)
  {
    hide Grown, Replay, EntryBodies, Next, Comes, Follows, AmountsOk, LinkEdits, Affordable, Records, NamedBlock;
    hide Regular;
    BlockNotEmpty(conf.c, es, b.txs, at);
    NextHeight(conf, es);
    FollowsIs(conf, es, b);
    MoneyRules(conf, es, b, at);
    RecordsIs(conf, es, b, at);
  }

  lemma RecordsFree(conf: Conf, es: Blocks32, b: Block, at: seq<seq<Place>>)
    requires |es| < 0x1_0000_0000 && NamedBlock(conf.c, es, b.txs, at) && Affordable(conf, es, b, at)
    ensures Records(conf.c, es, b.txs, at, |b.txs|) <==>
            forall j :: 0 <= j < |b.txs| ==> Recordable(conf.c, es, b.txs[j])
  {
    hide AllName, AllFree, Recordable, Paying, Total, Worth, Signed, FeeSum, CoinbaseIn;
    assert forall j :: 0 < j < |b.txs| ==> Allowed(conf.c, es, b.txs[j], at[j]);
  }

  /** A block whose inputs name outputs of the chain is accepted exactly if it keeps the rules. */
  lemma AcceptableIs(conf: Conf, now: int, es: Blocks32, b: Block, at: seq<seq<Place>>)
    requires Grown(conf, es) && |es| < 0x1_0000_0000 && NamedBlock(conf.c, es, b.txs, at)
    requires es != [] ==> Regular(conf.c, TopOf(es))
    ensures Acceptable(conf, now, Replay(conf.c, es), EntryBodies(conf.c, es), b) <==> Rules(conf, now, es, b, at)
  {
    hide Grown, Replay, EntryBodies, Next, Comes, Proper, Fitting, Affordable, Records, NamedBlock, Regular, WellFormed;
    hide Retargeted, Known, Mined, Recordable, BlockId;
    BlockNotEmpty(conf.c, es, b.txs, at);
    ProperIs(conf, now, es, b);
    FittingIs(conf, es, b, at);
    if Affordable(conf, es, b, at) {
      RecordsFree(conf, es, b, at);
    }
  }

  /** Every block of a chain is well formed: among the rest, its header holds the root over its transactions' ids. */
  lemma ChainWellFormed(conf: Conf, es: Blocks32, h: nat)
    requires Grown(conf, es) && h < |es|
    ensures WellFormed(conf.c, es[h].now, es[h].block)
  {
    hide Grown, BlockOk, WellFormed, Replay, Fitting, EntryBodies, VerifyPow, Next;
    GrownPrefix(conf, es, h + 1);
    LastOfPrefix(es, h);
    TopFits(conf, es[..h + 1]);
    BlockOkMeans(conf.c, es[h].now, es[h].block);
  }

  /** Under one header there is one list of transaction ids of each length, in whatever chains the blocks are. */
  lemma ChainBindsIds(conf: Conf, es: Blocks32, h: nat, fs: Blocks32, k: nat)
    requires Grown(conf, es) && h < |es| && Grown(conf, fs) && k < |fs|
    requires es[h].block.header == fs[k].block.header && |TxsOf(es, h)| == |TxsOf(fs, k)|
    ensures TxIds(conf.c, TxsOf(es, h)).Ok? && TxIds(conf.c, TxsOf(fs, k)).Ok?
    ensures |TxIds(conf.c, TxsOf(es, h)).value| == |TxIds(conf.c, TxsOf(fs, k)).value|
    ensures Merkle.Unmerged(Pair(conf.c), TxIds(conf.c, TxsOf(es, h)).value, TxIds(conf.c, TxsOf(fs, k)).value) ==>
              TxIds(conf.c, TxsOf(es, h)) == TxIds(conf.c, TxsOf(fs, k))
  {
    hide Grown, TxIds, TxId, Merkle.Unmerged, Rooted, WellFormed, Merkle.Reduce;
    ChainWellFormed(conf, es, h);
    ChainWellFormed(conf, fs, k);
    var a, b := es[h].block, fs[k].block;
    RootOf(conf.c, es[h].now, a);
    RootOf(conf.c, fs[k].now, b);
    TxIdsEach(conf.c, a.txs);
    TxIdsEach(conf.c, b.txs);
    if Merkle.Unmerged(Pair(conf.c), TxIds(conf.c, a.txs).value, TxIds(conf.c, b.txs).value) {
      HeaderBindsIds(conf.c, a, b);
      assert TxIds(conf.c, a.txs).value == TxIds(conf.c, b.txs).value;
    }
  }

  lemma RootOf(c: Suite, now: int, b: Block)
    requires WellFormed(c, now, b)
    ensures Rooted(c, b) && TxIds(c, b.txs).Ok?
  {
    hide Rooted, TxIds, SpentOnce, BlockBytes, BlockFits, TxFormed, Merkle.Reduce;
    RootedIs(c, b);
  }

  ghost predicate AllRegular(c: Suite, es: Blocks32) {
    forall n :: 0 <= n < |es| ==> Regular(c, es[n])
  }

  /** Which outputs the inputs of an accepted block name. */
  lemma AcceptedNamed(conf: Conf, now: int, es: Blocks32, b: Block) returns (at: seq<seq<Place>>)
    requires Grown(conf, es) && |es| < 0x1_0000_0000 && AllRegular(conf.c, es)
    ensures !Acceptable(conf, now, Replay(conf.c, es), EntryBodies(conf.c, es), b) || NamedBlock(conf.c, es, b.txs, at)
  {
    at := [];
    if Acceptable(conf, now, Replay(conf.c, es), EntryBodies(conf.c, es), b) {
      at := NamesOf(conf, now, es, b);
    }
  }

  lemma AcceptedParts(conf: Conf, now: int, es: Blocks32, b: Block)
    requires Grown(conf, es) && |es| < 0x1_0000_0000
    requires Acceptable(conf, now, Replay(conf.c, es), EntryBodies(conf.c, es), b)
    ensures WellFormed(conf.c, now, b)
    ensures BlockFees(conf.c, Replay(conf.c, es), EntryBodies(conf.c, es), |es|, b.txs).Ok?
  {
    hide BlockOk, WellFormed, Replay, EntryBodies, Next, VerifyPow, BlockFees, LinkEdits, Follows, Grown, Reward;
    BlockOkMeans(conf.c, now, b);
    NextHeight(conf, es);
  }

  lemma NamesOf(conf: Conf, now: int, es: Blocks32, b: Block) returns (at: seq<seq<Place>>)
    requires Grown(conf, es) && |es| < 0x1_0000_0000 && AllRegular(conf.c, es)
    requires Acceptable(conf, now, Replay(conf.c, es), EntryBodies(conf.c, es), b)
    ensures NamedBlock(conf.c, es, b.txs, at)
  {
    hide Acceptable, WellFormed, Grown, Replay, EntryBodies, BlockFees, AllRegular, AllName, CoinbaseIn;
    AcceptedParts(conf, now, es, b);
    Heads(conf.c, now, b);
    at := [[]];
    for j := 1 to |b.txs|
      invariant |at| == j
      invariant forall l :: 0 < l < j ==> AllName(conf.c, es, b.txs[l].ins, at[l])
    {
      var places := TxNames(conf, es, now, b, j);
      at := at + [places];
    }
  }

  lemma Heads(c: Suite, now: int, b: Block)
    requires WellFormed(c, now, b)
    ensures |b.txs| > 0 && Coinbase(b.txs[0]) && |b.txs[0].ins| == 1
    ensures forall j, i :: 0 < j < |b.txs| && 0 <= i < |b.txs[j].ins| ==> !CoinbaseIn(b.txs[j].ins[i])
  {
    hide Rooted, SpentOnce, BlockBytes, BlockFits, CoinbaseIn, InputFormed, OutputFormed, Total;
    ShapeIs(b.txs[0].ins[0]);
    forall j, i | 0 < j < |b.txs| && 0 <= i < |b.txs[j].ins| ensures !CoinbaseIn(b.txs[j].ins[i]) {
      assert TxFormed(b.txs[j], false);
      ShapeIs(b.txs[j].ins[i]);
    }
  }

  lemma TxNames(conf: Conf, es: Blocks32, now: int, b: Block, j: nat) returns (places: seq<Place>)
    requires Grown(conf, es) && |es| < 0x1_0000_0000 && AllRegular(conf.c, es)
    requires WellFormed(conf.c, now, b) && 0 < j < |b.txs|
    requires BlockFees(conf.c, Replay(conf.c, es), EntryBodies(conf.c, es), |es|, b.txs).Ok?
    ensures AllName(conf.c, es, b.txs[j].ins, places)
  {
    hide WellFormed, Grown, Replay, EntryBodies, BlockFees, AllName, CoinbaseIn, Regular, InsWorth, Total;
    hide Signing.SignaturesPass;
    Heads(conf.c, now, b);
    TxChecked(conf.c, Replay(conf.c, es), EntryBodies(conf.c, es), |es|, b.txs, j);
    places := WorthNamed(conf, es, b.txs[j].ins);
  }

  ghost predicate Lawful(conf: Conf, now: int, es: Blocks32, b: Block) {
    |es| < 0x1_0000_0000 &&
    exists at: seq<seq<Place>> :: NamedBlock(conf.c, es, b.txs, at) && Rules(conf, now, es, b, at)
  }

  /** Linking succeeds exactly if the block keeps the rules of the chain: what it may spend, pay and take, what it must
      be new to, follow, and be mined for. */
  lemma LinkIsRules(conf: Conf, now: int, es: Blocks32, s: State, b: Block)
    requires Consistent(conf, es, s) && s.blk != [] && s.rev != [] && AllRegular(conf.c, es)
    ensures Link(conf, now, s, b).1.Ok? <==> Lawful(conf, now, es, b)
  {
    hide Consistent, Link, Acceptable, Grown, NamedBlock, Rules, Regular, Replay, EntryBodies, BodiesOf;
    ConsistentParts(conf, es, s);
    BodiesMatch(conf, es, s);
    LinkAtomic(conf, now, s, b);
    if |es| == 0x1_0000_0000 {
      Full(conf, now, es, b);
    } else {
      var at := AcceptedNamed(conf, now, es, b);
      if NamedBlock(conf.c, es, b.txs, at) {
        AcceptableIs(conf, now, es, b, at);
      }
      if a: seq<seq<Place>> :| NamedBlock(conf.c, es, b.txs, a) && Rules(conf, now, es, b, a) {
        AcceptableIs(conf, now, es, b, a);
      }
    }
  }

  lemma Full(conf: Conf, now: int, es: Blocks32, b: Block)
    requires |es| == 0x1_0000_0000
    ensures !Acceptable(conf, now, Replay(conf.c, es), EntryBodies(conf.c, es), b)
  {
    hide Replay, EntryBodies, Next, Proper, Follows, AmountsOk, LinkEdits;
    NextHeight(conf, es);
  }

  /** The same in every state a run of links and pops can reach. */
  lemma RunsLinkByRules(conf: Conf, evs: seq<Event>, now: int, b: Block)
    ensures |History(conf, evs)| <= 0x1_0000_0000
    ensures AllRegular(conf.c, History(conf, evs)) ==>
              (Link(conf, now, Run(conf, evs), b).1.Ok? <==> Lawful(conf, now, History(conf, evs), b))
  {
    hide *;
    IndexRefinesReplay(conf, evs);
    ConsistentParts(conf, History(conf, evs), Run(conf, evs));
    if AllRegular(conf.c, History(conf, evs)) {
      LinkIsRules(conf, now, History(conf, evs), Run(conf, evs), b);
    }
  }
}
