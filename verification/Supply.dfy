/** Money supply: no run of the chain ever holds more in unspent outputs than the blocks were allowed to mint. */
module Supply {
  import opened Common
  import opened Crypto
  import opened Blocks
  import opened Journal
  import Signing
  import opened Ledger
  import opened Chains
  import opened Coins
  import Merkle
  import Difficulty

  // Sums over coins.

  function ValueOfCoin(v: Value): int {
    if v.CoinV? then v.coin.value else 0
  }

  ghost function Worth(db: Db): int
    decreases |db|
  {
    if db == map[] then 0
    else
      var k :| k in db;
      assert |db - {k}| < |db| by { Smaller(db, k); }
      ValueOfCoin(db[k]) + Worth(db - {k})
  }

  lemma Smaller(db: Db, k: Key)
    requires k in db
    ensures |db - {k}| < |db|
  {
    assert (db - {k}).Keys == db.Keys - {k};
    assert |(db - {k}).Keys| == |db - {k}| && |db.Keys| == |db|;
  }

  /** The sum does not depend on the order it is taken in. */
  lemma {:induction false} WorthTake(db: Db, k: Key)
    requires k in db
    ensures Worth(db) == ValueOfCoin(db[k]) + Worth(db - {k})
    decreases |db|
  {
    var j :| j in db && Worth(db) == ValueOfCoin(db[j]) + Worth(db - {j});
    Smaller(db, j);
    Smaller(db, k);
    if j != k {
      WorthTake(db - {j}, k);
      WorthTake(db - {k}, j);
      assert db - {j} - {k} == db - {k} - {j};
    }
  }

  predicate NonNegative(db: Db) {
    forall k :: k in db ==> ValueOfCoin(db[k]) >= 0
  }

  lemma {:induction false} WorthSign(db: Db)
    requires NonNegative(db)
    ensures Worth(db) >= 0
    decreases |db|
  {
    if db != map[] {
      var k :| k in db;
      Smaller(db, k);
      WorthTake(db, k);
      WorthSign(db - {k});
    }
  }

  lemma WorthPut(db: Db, k: Key, v: Value)
    requires NonNegative(db)
    ensures Worth(db[k := v]) <= Worth(db) + ValueOfCoin(v)
  {
    WorthTake(db[k := v], k);
    assert db[k := v] - {k} == db - {k};
    if k in db {
      WorthTake(db, k);
    } else {
      assert db - {k} == db;
    }
  }

  // What one transaction takes and adds.

  predicate NoNegativeOuts(tx: Tx) {
    forall i :: 0 <= i < |tx.outs| ==> tx.outs[i].value >= 0
  }

  lemma {:induction false} MadeNonNegative(txid: Hash, tx: Tx, height: U32, n: nat)
    requires n <= |tx.outs| && NoNegativeOuts(tx)
    ensures NonNegative(MadeBy(txid, tx, height, n))
  {
    hide OutAddress, FlagsOf;
    if n > 0 {
      MadeNonNegative(txid, tx, height, n - 1);
    }
  }

  lemma {:induction false} AddMade(v: Db, txid: Hash, tx: Tx, height: U32, n: nat)
    requires n <= |tx.outs| && NoNegativeOuts(tx) && NonNegative(v)
    ensures Worth(v + MadeBy(txid, tx, height, n)) <= Worth(v) + Total(tx.outs[..n])
  {
    hide OutAddress, FlagsOf, Worth;
    if n == 0 {
      assert v + map[] == v && tx.outs[..0] == [];
    } else {
      AddMade(v, txid, tx, height, n - 1);
      MadeNonNegative(txid, tx, height, n - 1);
      assert tx.outs[..n][..n - 1] == tx.outs[..n - 1];
      var w, k := v + MadeBy(txid, tx, height, n - 1), MadeKey(txid, tx.outs, n - 1);
      if k.Some? {
        WorthPut(w, k.value, CoinV(MadeCoin(tx, height, n - 1)));
        assert v + MadeBy(txid, tx, height, n) == w[k.value := CoinV(MadeCoin(tx, height, n - 1))];
      }
    }
  }

  /** The coins the inputs name are there, with the values the database gives them. */
  ghost predicate Backed(c: Suite, db: Db, v: Db, ins: seq<TxIn>) {
    forall k :: k in SpentBy(c, ins) ==> k in v && CoinAt(db, k).Ok? && v[k] == CoinV(CoinAt(db, k).value)
  }

  lemma {:induction false} SpentPoint(c: Suite, ins: seq<TxIn>, k: Key)
    requires k in SpentBy(c, ins)
    ensures k.CoinKey? && OutPoint(k.tx, k.idx) in Points(ins)
  {
    hide InAddress, CoinbaseIn;
    var n := |ins| - 1;
    assert Points(ins)[n] == Point(ins[n]);
    if k in SpentBy(c, ins[..n]) {
      SpentPoint(c, ins[..n], k);
      assert Points(ins[..n]) == Points(ins)[..n];
    }
  }

  lemma {:induction false} TakeSpent(c: Suite, db: Db, bodies: Bodies, height: U32, v: Db, ins: seq<TxIn>)
    requires InsWorth(c, db, bodies, height, ins).Ok? && Distinct(Points(ins)) && Backed(c, db, v, ins)
    ensures Worth(v - SpentBy(c, ins)) == Worth(v) - InsWorth(c, db, bodies, height, ins).value
  {
    hide InAddress, CoinbaseIn, OutAddress, RefOut, Mature, Worth, CoinAt;
    if ins == [] {
      assert v - {} == v;
    } else {
      var n := |ins| - 1;
      var inv, before := ins[n], ins[..n];
      assert Points(before) == Points(ins)[..n];
      TakeSpent(c, db, bodies, height, v, before);
      var k := SpentKey(c, inv);
      assert Points(ins)[n] == Point(inv);
      if k.Some? {
        if k.value in SpentBy(c, before) {
          SpentPoint(c, before, k.value);
          assert false;
        }
        var w := v - SpentBy(c, before);
        WorthTake(w, k.value);
        assert v - SpentBy(c, ins) == w - {k.value};
      } else {
        assert v - SpentBy(c, ins) == v - SpentBy(c, before);
      }
    }
  }

  // What a block does to the sum.

  function After(c: Suite, height: U32, u: Db, txs: seq<Tx>): Db {
    (u - Spends(c, txs)) + Makes(c, height, txs)
  }

  /** The unspent outputs agree with the database. */
  ghost predicate Mirrors(db: Db, u: Db) {
    forall k :: if k in u then k in db && u[k] == db[k] && k.CoinKey? else k.CoinKey? ==> k !in db
  }

  lemma {:induction false} SpendsPoint(c: Suite, txs: seq<Tx>, k: Key)
    requires k in Spends(c, txs)
    ensures k.CoinKey? && OutPoint(k.tx, k.idx) in Points(AllIns(txs))
  {
    hide TxId, SpentBy;
    var n := |txs| - 1;
    PointsSplit(AllIns(txs[..n]), txs[n].ins);
    if k in Spends(c, txs[..n]) {
      SpendsPoint(c, txs[..n], k);
    } else {
      SpentPoint(c, txs[n].ins, k);
    }
  }

  lemma PointsSplit(a: seq<TxIn>, b: seq<TxIn>)
    ensures Points(a + b) == Points(a) + Points(b)
  {
  }

  lemma DistinctSplit<T>(a: seq<T>, b: seq<T>)
    requires Distinct(a + b)
    ensures Distinct(a) && Distinct(b) && forall x :: x in a ==> x !in b
  {
    var s := a + b;
    assert forall i :: 0 <= i < |a| ==> s[i] == a[i];
    assert forall i :: 0 <= i < |b| ==> s[|a| + i] == b[i];
    assert forall i, j :: 0 <= i < |a| && 0 <= j < |b| ==> a[i] != b[j];
  }

  /** The last transaction's coins are there when its turn comes. */
  lemma LastBacked(c: Suite, db: Db, id: Hash, height: U32, u: Db, txs: seq<Tx>)
    requires txs != [] && EditsOfTxs(c, db, id, height, txs).Ok? && Mirrors(db, u) && CoinsIndexed(db)
    requires Distinct(Points(AllIns(txs)))
    ensures var n := |txs| - 1; Backed(c, db, After(c, height, u, txs[..n]), txs[n].ins)
    ensures var n := |txs| - 1; forall k :: k in SpentBy(c, txs[n].ins) ==> k !in Makes(c, height, txs[..n])
  {
    hide EditsOfTx, SpentBy, TxId, Mature, EditsOfIns, EditsOfOuts, CoinAt, AllIns, Makes, Spends, TxRecords;
    var n := |txs| - 1;
    var before, last := txs[..n], txs[n];
    AllInsLast(txs);
    PointsSplit(AllIns(before), last.ins);
    DistinctSplit(Points(AllIns(before)), Points(last.ins));
    forall k | k in SpentBy(c, last.ins)
      ensures k in After(c, height, u, before) && CoinAt(db, k).Ok?
      ensures After(c, height, u, before)[k] == CoinV(CoinAt(db, k).value)
      ensures k !in Makes(c, height, before)
    {
      SpentPoint(c, last.ins, k);
      LastSpends(c, db, id, height, txs, k);
      if k in Spends(c, before) {
        SpendsPoint(c, before, k);
        assert false;
      }
      if k in Makes(c, height, before) {
        EditsBefore(c, db, id, height, txs);
        MakesNew(c, db, id, height, before, k);
        assert false;
      }
    }
  }

  lemma AllInsLast(txs: seq<Tx>)
    requires txs != []
    ensures AllIns(txs) == AllIns(txs[..|txs| - 1]) + txs[|txs| - 1].ins
  {
  }

  lemma EditsBefore(c: Suite, db: Db, id: Hash, height: U32, txs: seq<Tx>)
    requires txs != [] && EditsOfTxs(c, db, id, height, txs).Ok?
    ensures EditsOfTxs(c, db, id, height, txs[..|txs| - 1]).Ok?
    ensures TxId(c, txs[|txs| - 1]).Ok?
  {
    hide TxId, EditsOfIns, EditsOfOuts;
  }

  lemma LastSpends(c: Suite, db: Db, id: Hash, height: U32, txs: seq<Tx>, k: Key)
    requires txs != [] && EditsOfTxs(c, db, id, height, txs).Ok? && k in SpentBy(c, txs[|txs| - 1].ins)
    ensures k in db && CoinAt(db, k).Ok? && db[k] == CoinV(CoinAt(db, k).value)
  {
    EditsBefore(c, db, id, height, txs);
    hide TxId, SpentBy, EditsOfTxs, Mature;
    SpendsStored(c, db, id, height, txs, k);
  }

  lemma LastWorth(c: Suite, db: Db, bodies: Bodies, height: U32, v: Db, txid: Hash, tx: Tx)
    requires InsWorth(c, db, bodies, height, tx.ins).Ok? && Distinct(Points(tx.ins)) && Backed(c, db, v, tx.ins)
    requires NonNegative(v) && NoNegativeOuts(tx)
    ensures var w := (v - SpentBy(c, tx.ins)) + MadeBy(txid, tx, height, |tx.outs|);
            NonNegative(w) && Worth(w) <= Worth(v) - InsWorth(c, db, bodies, height, tx.ins).value + Total(tx.outs)
  {
    TakeSpent(c, db, bodies, height, v, tx.ins);
    MadeNonNegative(txid, tx, height, |tx.outs|);
    AddMade(v - SpentBy(c, tx.ins), txid, tx, height, |tx.outs|);
    assert tx.outs[..|tx.outs|] == tx.outs;
    hide InsWorth, SpentBy, MadeBy, Worth, Backed, Total;
  }

  lemma LastFees(c: Suite, db: Db, bodies: Bodies, height: U32, txs: seq<Tx>)
    requires txs != [] && BlockFees(c, db, bodies, height, txs).Ok?
    ensures var n := |txs| - 1;
            && BlockFees(c, db, bodies, height, txs[..n]).Ok?
            && InsWorth(c, db, bodies, height, txs[n].ins).Ok?
            && var f, g := BlockFees(c, db, bodies, height, txs).value,
                            BlockFees(c, db, bodies, height, txs[..n]).value;
               f.minted - f.fee == g.minted - g.fee + Total(txs[n].outs) -
               InsWorth(c, db, bodies, height, txs[n].ins).value
  {
    hide Signing.SignaturesPass, InsWorth, OutsPositive, Total, RefLookup;
  }

  lemma AfterLast(c: Suite, height: U32, u: Db, txs: seq<Tx>)
    requires txs != [] && TxId(c, txs[|txs| - 1]).Ok?
    requires var n := |txs| - 1; forall k :: k in SpentBy(c, txs[n].ins) ==> k !in Makes(c, height, txs[..n])
    ensures var n := |txs| - 1;
            After(c, height, u, txs) == (After(c, height, u, txs[..n]) - SpentBy(c, txs[n].ins)) +
                                        MadeBy(TxId(c, txs[n]).value, txs[n], height, |txs[n].outs|)
  {
    hide TxId, SpentBy, MadeBy;
  }

  /** A block adds to the sum at most what it mints, less the fees it takes. */
  lemma {:induction false} BlockWorth(c: Suite, db: Db, bodies: Bodies, id: Hash, height: U32, u: Db, txs: seq<Tx>)
    requires BlockFees(c, db, bodies, height, txs).Ok? && EditsOfTxs(c, db, id, height, txs).Ok?
    requires NonNegative(u) && Mirrors(db, u) && CoinsIndexed(db)
    requires Distinct(Points(AllIns(txs))) && forall i :: 0 <= i < |txs| ==> NoNegativeOuts(txs[i])
    ensures NonNegative(After(c, height, u, txs))
    ensures var f := BlockFees(c, db, bodies, height, txs).value;
            Worth(After(c, height, u, txs)) <= Worth(u) + f.minted - f.fee
  {
    if txs == [] {
      assert After(c, height, u, txs) == u;
    }
    hide TxId, SpentBy, MadeBy, EditsOfTxs, Worth, AllIns, NoNegativeOuts, Mirrors, CoinsIndexed, InsWorth,
         Makes, Spends;
    hide BlockFees, Backed, NonNegative, After, Total;
    if txs != [] {
      var n := |txs| - 1;
      var before, last := txs[..n], txs[n];
      EditsBefore(c, db, id, height, txs);
      LastFees(c, db, bodies, height, txs);
      AllInsLast(txs);
      PointsSplit(AllIns(before), last.ins);
      DistinctSplit(Points(AllIns(before)), Points(last.ins));
      BlockWorth(c, db, bodies, id, height, u, before);
      LastBacked(c, db, id, height, u, txs);
      AfterLast(c, height, u, txs);
      LastWorth(c, db, bodies, height, After(c, height, u, before), TxId(c, last).value, last);
    } else {
      NoFees(c, db, bodies, height);
    }
  }

  lemma NoFees(c: Suite, db: Db, bodies: Bodies, height: U32)
    ensures BlockFees(c, db, bodies, height, []) == Ok(Fees(0, 0))
  {
  }

  // The chain as a whole.

  /** What the first `n` blocks may mint. */
  function Rewards(conf: Conf, n: nat): nat
    requires n <= 0x1_0000_0000
  {
    if n == 0 then 0 else Rewards(conf, n - 1) + Reward(conf, n - 1)
  }

  lemma Mirror(conf: Conf, es: Blocks32)
    requires Grown(conf, es)
    ensures Mirrors(Replay(conf.c, es), Unspent(conf.c, es)) && CoinsIndexed(Replay(conf.c, es))
  {
    hide Grown, Replay, Unspent;
    var db, u := Replay(conf.c, es), Unspent(conf.c, es);
    forall k | k in u || k.CoinKey?
      ensures if k in u then k in db && u[k] == db[k] && k.CoinKey? else k !in db
      ensures k in db ==> HashKey(k.tx) in db
    {
      if k in u {
        UnspentKinds(conf.c, es, k);
      }
      CoinsAreUnspent(conf, es, k);
      if k in db {
        CoinIndexed(conf, es, k);
      }
    }
  }

  lemma ProperTxs(conf: Conf, now: int, db: Db, b: Block)
    requires Proper(conf, now, db, b)
    ensures Distinct(Points(AllIns(b.txs))) && forall i :: 0 <= i < |b.txs| ==> NoNegativeOuts(b.txs[i])
  {
    hide AllIns, MerkleRoot, Difficulty.VerifyPow, InOk, Total, BlockBytes, TxBytes, LeadsWithCoinbase;
    forall i | 0 <= i < |b.txs| ensures NoNegativeOuts(b.txs[i]) {
      assert TxOk(b.txs[i]);
    }
  }

  lemma FeesInside(conf: Conf, db: Db, bodies: Bodies, height: U32, b: Block)
    requires AmountsOk(conf, db, bodies, height, b)
    ensures BlockFees(conf.c, db, bodies, height, b.txs).Ok?
    ensures var f := BlockFees(conf.c, db, bodies, height, b.txs).value; f.minted <= Reward(conf, height) + f.fee
  {
    hide BlockFees, Reward;
  }

  lemma UnspentLast(c: Suite, es: Blocks32)
    requires es != []
    ensures Unspent(c, es) == After(c, |es| - 1, Unspent(c, es[..|es| - 1]), TopOf(es).block.txs)
  {
    hide Makes, Spends;
  }

  /** Conservation: all unspent outputs together are worth at most the rewards of the blocks so far. */
  lemma {:induction false} SupplyBound(conf: Conf, es: Blocks32)
    requires Grown(conf, es)
    ensures NonNegative(Unspent(conf.c, es))
    ensures Worth(Unspent(conf.c, es)) <= Rewards(conf, |es|)
  {
    hide Grown, Replay, Topped, BlockFees, EditsOfTxs, Worth, NonNegative, Mirrors,
         CoinsIndexed, AllIns, NoNegativeOuts;
    hide Reward, Makes, Spends, Proper, Fitting, AmountsOk, Follows, LinkEdits, Unspent, After, IdOf, EntryBodies, Next;
    if es != [] {
      var c, n, e := conf.c, |es| - 1, TopOf(es);
      GrownTop(conf, es);
      TopFits(conf, es);
      TopLinks(conf, es);
      TopEdits(conf, es);
      SupplyBound(conf, es[..n]);
      Mirror(conf, es[..n]);
      ProperTxs(conf, e.now, DbBelow(c, es), e.block);
      FeesInside(conf, DbBelow(c, es), BodiesBelow(c, es), n, e.block);
      BlockWorth(c, DbBelow(c, es), BodiesBelow(c, es), IdOf(c, e), n, Unspent(c, es[..n]), e.block.txs);
      UnspentLast(c, es);
    } else {
      EmptyWorth(conf.c);
    }
  }

  lemma EmptyWorth(c: Suite)
    ensures Worth(Unspent(c, [])) == 0 && NonNegative(Unspent(c, []))
  {
  }

  // The rewards add up to a fixed sum.

  lemma HalvedSmaller(n: nat, k: nat)
    ensures 2 * Halved(n, k + 1) <= Halved(n, k)
  {
  }

  lemma {:induction false} HalvedFirst(n: nat, k: nat)
    ensures Halved(n, k + 1) == Halved(n / 2, k)
  {
    if k > 0 {
      HalvedFirst(n, k - 1);
    }
  }

  lemma {:induction false} HalvedOut(n: nat, k: nat)
    requires n < Merkle.Pow2(k)
    ensures Halved(n, k) == 0
    decreases k
  {
    if k > 0 {
      HalvedFirst(n, k - 1);
      HalvedOut(n / 2, k - 1);
    }
  }

  lemma {:induction false} PowOrder(j: nat, k: nat)
    requires j <= k
    ensures Merkle.Pow2(j) <= Merkle.Pow2(k)
    decreases k
  {
    if j < k {
      PowOrder(j, k - 1);
    }
  }

  lemma PowOfTwentySix()
    ensures Merkle.Pow2(26) == 67108864
  {
    assert Merkle.Pow2(4) == 16;
    assert Merkle.Pow2(8) == 256;
    assert Merkle.Pow2(12) == 4096;
    assert Merkle.Pow2(16) == 65536;
    assert Merkle.Pow2(20) == 1048576;
    assert Merkle.Pow2(24) == 16777216;
  }

  /** The halving period a height falls in, and how far into it. */
  function Period(d: nat, n: nat): nat
    requires d > 0
  {
    n / d
  }

  function Phase(d: nat, n: nat): (r: nat)
    requires d > 0
    ensures r < d
  {
    n % d
  }

  /** The cut at sixty-four halvings changes nothing. */
  lemma RewardIs(conf: Conf, h: U32)
    ensures Reward(conf, h) == Halved(50 * COIN, Period(conf.halving, h))
  {
    if h / conf.halving >= 64 {
      PowOfTwentySix();
      PowOrder(26, h / conf.halving);
      HalvedOut(50 * COIN, h / conf.halving);
    }
  }

  /** The reward starts at fifty coins and is halved, rounding down, every period for ever. */
  lemma RewardHalves(conf: Conf, h: U32)
    ensures h < conf.halving ==> Reward(conf, h) == 50 * 1000000
    ensures h >= conf.halving ==> Reward(conf, h) == Reward(conf, h - conf.halving) / 2
  {
    hide Reward;
    RewardIs(conf, h);
    if h < conf.halving {
      PeriodFirst(conf.halving, h);
    } else {
      RewardIs(conf, h - conf.halving);
      PeriodBefore(conf.halving, h);
    }
  }

  lemma PeriodFirst(d: nat, n: nat)
    requires n < d
    ensures Period(d, n) == 0
  {
  }

  lemma PeriodBefore(d: nat, n: nat)
    requires 0 < d <= n
    ensures Period(d, n) == Period(d, n - d) + 1
  {
    hide Period, Phase;
    var q, r := Period(d, n - d), Phase(d, n - d);
    Divided(d, n - d);
    Divided(d, n);
    SameQuotient(d, Period(d, n), Phase(d, n), q + 1, r);
  }

  lemma SameQuotient(d: nat, p: nat, s: nat, q: nat, r: nat)
    requires p * d + s == q * d + r && s < d && r < d
    ensures p == q
  {
    if p < q {
      NotBelow(d, p, s, q, r);
    } else if q < p {
      NotBelow(d, q, r, p, s);
    }
  }

  lemma NotBelow(d: nat, p: nat, s: nat, q: nat, r: nat)
    requires p < q && s < d
    ensures p * d + s < q * d + r
  {
    Difficulty.ProductAtMost(p + 1, d, q, d);
    Distribute(p, d);
  }

  lemma Distribute(p: nat, d: nat)
    ensures (p + 1) * d == p * d + d
  {
  }

  lemma Divided(d: nat, n: nat)
    requires d > 0
    ensures n == Period(d, n) * d + Phase(d, n)
  {
  }

  lemma DivideNext(n: nat, d: nat)
    requires d > 0
    ensures Phase(d, n) + 1 < d ==> Period(d, n + 1) == Period(d, n) && Phase(d, n + 1) == Phase(d, n) + 1
    ensures Phase(d, n) + 1 == d ==> Period(d, n + 1) == Period(d, n) + 1 && Phase(d, n + 1) == 0
  {
    hide Period, Phase;
    var q, r, a, b := Period(d, n), Phase(d, n), Period(d, n + 1), Phase(d, n + 1);
    Divided(d, n);
    Divided(d, n + 1);
    if r + 1 < d {
      OneQuotient(d, q, r + 1, a, b);
    } else {
      assert (q + 1) * d == q * d + d;
      OneQuotient(d, q + 1, 0, a, b);
    }
  }

  lemma OneQuotient(d: nat, q: nat, r: nat, a: nat, b: nat)
    requires q * d + r == a * d + b && r < d && b < d
    ensures q == a && r == b
  {
    if q < a {
      assert (a - q) * d == a * d - q * d;
      AtLeastOnce(a - q, d);
    } else if a < q {
      assert (q - a) * d == q * d - a * d;
      AtLeastOnce(q - a, d);
    }
  }

  lemma AtLeastOnce(k: nat, d: nat)
    requires k >= 1
    ensures k * d >= d
  {
  }

  /** What is set aside for the blocks to come, `r` blocks into a period that pays `x` a block. */
  function Reserve(d: nat, r: nat, x: nat): int {
    (2 * d - r) * x
  }

  lemma {:induction false} RewardsLeft(conf: Conf, n: nat)
    requires n <= 0x1_0000_0000
    ensures Rewards(conf, n) + Reserve(conf.halving, Phase(conf.halving, n), Halved(50 * COIN, Period(conf.halving, n)))
            <= 100 * COIN * conf.halving
  {
    hide Reward, Halved, Reserve, Period, Phase;
    var d := conf.halving;
    if n == 0 {
      FirstPeriod(d);
    } else {
      var m := n - 1;
      RewardsLeft(conf, m);
      RewardIs(conf, m);
      DivideNext(m, d);
      var q := Period(d, m);
      HalvedSmaller(50 * COIN, q);
      NextReserve(d, Phase(d, m), Halved(50 * COIN, q), Halved(50 * COIN, q + 1));
    }
  }

  lemma NextReserve(d: nat, r: nat, now: nat, later: nat)
    requires r < d && 2 * later <= now
    ensures r + 1 < d ==> now + Reserve(d, r + 1, now) == Reserve(d, r, now)
    ensures r + 1 == d ==> now + Reserve(d, 0, later) <= Reserve(d, r, now)
  {
    if r + 1 < d {
      assert (2 * d - (r + 1)) * now == (2 * d - r) * now - now;
    } else {
      assert (2 * d - r) * now == now + d * now;
      ScaleTwice(d, later, now);
    }
  }

  lemma FirstPeriod(d: nat)
    requires d > 0
    ensures Phase(d, 0) == 0 && Period(d, 0) == 0 && Reserve(d, 0, Halved(50 * COIN, 0)) <= 100 * COIN * d
  {
  }

  lemma ScaleTwice(d: nat, a: nat, b: nat)
    requires 2 * a <= b
    ensures (2 * d) * a <= d * b
  {
    assert d * (b - 2 * a) >= 0;
  }

  lemma ReserveSign(d: nat, r: nat, x: nat)
    requires r <= d
    ensures Reserve(d, r, x) >= 0
  {
  }

  /** However long the chain, the rewards stay within a hundred coins per block of one halving period; with the
      released halving of 210000 that is the largest valid amount. */
  lemma RewardsBound(conf: Conf, n: nat)
    requires n <= 0x1_0000_0000
    ensures Rewards(conf, n) <= 100 * COIN * conf.halving
    ensures conf.halving == 210000 ==> Rewards(conf, n) <= MAX_MONEY
  {
    hide Rewards, Halved;
    RewardsLeft(conf, n);
    ReserveSign(conf.halving, Phase(conf.halving, n), Halved(50 * COIN, Period(conf.halving, n)));
    hide Reserve, Phase, Period;
  }

  /** The supply theorem over runs: whatever blocks are linked and popped, the coins in the database are exactly the
      unspent outputs, and their sum is at most what all rewards can ever come to. */
  lemma SupplyOverRuns(conf: Conf, evs: seq<Event>)
    ensures |History(conf, evs)| <= 0x1_0000_0000
    ensures Mirrors(Run(conf, evs).db, Unspent(conf.c, History(conf, evs)))
    ensures 0 <= Worth(Unspent(conf.c, History(conf, evs))) <= 100 * COIN * conf.halving
  {
    hide *;
    IndexRefinesReplay(conf, evs);
    ConsistentParts(conf, History(conf, evs), Run(conf, evs));
    Mirror(conf, History(conf, evs));
    SupplyBound(conf, History(conf, evs));
    WorthSign(Unspent(conf.c, History(conf, evs)));
    RewardsBound(conf, |History(conf, evs)|);
  }

  /** In every block of a chain a transaction that is not the coinbase pays out no more than the coins it spends are
      worth, and no output is empty. */
  lemma TxBalanced(conf: Conf, es: Blocks32, h: nat, j: nat)
    requires Grown(conf, es) && h < |es| && j < |TxsOf(es, h)|
    ensures OutsPositive(TxsOf(es, h)[j].outs)
    ensures !Coinbase(TxsOf(es, h)[j]) ==>
              var worth := InsWorth(conf.c, Replay(conf.c, es[..h]), EntryBodies(conf.c, es[..h]), h,
                                  TxsOf(es, h)[j].ins);
              worth.Ok? && Total(TxsOf(es, h)[j].outs) <= worth.value
  {
    hide Grown, Replay, EntryBodies, BlockFees, InsWorth, Total, Coinbase;
    FeesOf(conf, es, h);
    TxChecked(conf.c, Replay(conf.c, es[..h]), EntryBodies(conf.c, es[..h]), h, TxsOf(es, h), j);
  }

  /** No sum formed while checking a transaction leaves 64 bits: what its inputs are worth, and every partial sum on
      the way, is part of the supply. */
  lemma SumsFit(conf: Conf, es: Blocks32, bodies: Bodies, height: U32, tx: Tx, n: nat)
    requires Grown(conf, es) && Distinct(Points(tx.ins)) && n <= |tx.ins|
    requires InsWorth(conf.c, Replay(conf.c, es), bodies, height, tx.ins[..n]).Ok?
    ensures 0 <= InsWorth(conf.c, Replay(conf.c, es), bodies, height, tx.ins[..n]).value <= 100 * COIN * conf.halving
            < 0x8000_0000_0000_0000
  {
    hide Grown, Replay, Unspent, InsWorth, SpentBy, Worth, NonNegative, Mirrors, CoinsIndexed, Rewards;
    var db, u, ins := Replay(conf.c, es), Unspent(conf.c, es), tx.ins[..n];
    Mirror(conf, es);
    assert Points(ins) == Points(tx.ins)[..n];
    AllBacked(conf.c, db, bodies, height, u, ins);
    TakeSpent(conf.c, db, bodies, height, u, ins);
    SupplyBound(conf, es);
    RewardsBound(conf, |es|);
    Without(u, SpentBy(conf.c, ins));
    WorthSign(u - SpentBy(conf.c, ins));
    InsWorthSign(conf.c, db, bodies, height, u, ins);
  }

  /** Nor does any sum over outputs, or over the transactions of a block up to where its check ends: the sums over
      outputs are valid amounts, and so are fees and minted amount so far and what the next transaction adds. */
  lemma BlockSumsFit(c: Suite, now: int, db: Db, bodies: Bodies, height: U32, b: Block, j: nat, n: nat)
    requires BlockOk(c, now, b) && j < |b.txs| && n <= |b.txs[j].outs|
    requires BlockFees(c, db, bodies, height, b.txs[..j]).Ok?
    ensures 0 <= Total(b.txs[j].outs[..n]) <= MAX_MONEY
    ensures var t, f := BlockFees(c, db, bodies, height, b.txs[..j]).value, TxFees(c, db, bodies, height, b.txs[j]);
            f.Ok? ==>
              && 0 <= t.fee + f.value.fee <= 2 * MAX_MONEY && 0 <= t.minted + f.value.minted <= 2 * MAX_MONEY
              && 2 * MAX_MONEY < 0x8000_0000_0000_0000
  {
    hide BlockFees, TxFees, MerkleRoot, AllIns, Coinbases, BlockBytes, BlockFits, TxBytes, TxFits, InOk, Total;
    assert TxOk(b.txs[j]);
    forall i | 0 <= i < |b.txs[j].outs| ensures b.txs[j].outs[i].value >= 0 {
      assert OutOk(b.txs[j].outs[i]);
    }
    TotalBounds(b.txs[j].outs, n);
    FeesValid(c, db, bodies, height, b.txs[..j]);
    if TxFees(c, db, bodies, height, b.txs[j]).Ok? {
      TxFeesValid(c, db, bodies, height, b.txs[j]);
    }
  }

  lemma FeesValid(c: Suite, db: Db, bodies: Bodies, height: U32, txs: seq<Tx>)
    requires BlockFees(c, db, bodies, height, txs).Ok?
    ensures var f := BlockFees(c, db, bodies, height, txs).value; ValidAmount(f.fee) && ValidAmount(f.minted)
  {
    hide Signing.SignaturesPass, TxFees;
  }

  lemma TxFeesValid(c: Suite, db: Db, bodies: Bodies, height: U32, tx: Tx)
    requires TxFees(c, db, bodies, height, tx).Ok?
    ensures var f := TxFees(c, db, bodies, height, tx).value; ValidAmount(f.fee) && ValidAmount(f.minted)
  {
    hide InsWorth, Total, OutsPositive, Coinbase;
  }

  lemma Without(u: Db, d: set<Key>)
    requires NonNegative(u)
    ensures NonNegative(u - d)
  {
  }

  lemma {:induction false} InsWorthSign(c: Suite, db: Db, bodies: Bodies, height: U32, u: Db, ins: seq<TxIn>)
    requires InsWorth(c, db, bodies, height, ins).Ok? && Mirrors(db, u) && NonNegative(u)
    ensures InsWorth(c, db, bodies, height, ins).value >= 0
  {
    hide InAddress, CoinbaseIn, OutAddress, RefOut, Mature;
    if ins != [] {
      InsWorthSign(c, db, bodies, height, u, ins[..|ins| - 1]);
    }
  }

  lemma {:induction false} AllBacked(c: Suite, db: Db, bodies: Bodies, height: U32, u: Db, ins: seq<TxIn>)
    requires InsWorth(c, db, bodies, height, ins).Ok? && Mirrors(db, u)
    ensures Backed(c, db, u, ins)
  {
    hide InAddress, CoinbaseIn, OutAddress, RefOut, Mature;
    if ins != [] {
      AllBacked(c, db, bodies, height, u, ins[..|ins| - 1]);
    }
  }
}
