/** The checks of `link` can be met: first blocks, and what becomes of one whose outputs outnumber their count. */
module Genesis {
  import opened Common
  import opened Iobuf
  import opened Crypto
  import Scripts
  import opened Blocks
  import opened Difficulty
  import opened Journal
  import Signing
  import opened Storage
  import opened Ledger
  import opened Chains
  import opened Counts

  const NOTHING: Db := map[]
  const NO_BODIES: Bodies := map[]

  /** The configuration is made for this block: it names the block's id, and the block has worked for it. */
  predicate MadeFor(conf: Conf, now: int, b: Block) {
    && conf.genesis == BlockId(conf.c, b)
    && b.header.bits == EasiestBits(conf) && Number(conf.genesis) <= Decode(EasiestBits(conf))
    && Timestamp(b.header) <= now && b.header.merkle != ZERO_HASH
  }

  lemma {:induction false} WideEdits(txid: Hash, h: Hash, n: nat, m: nat)
    requires m <= n
    ensures EditsOfOuts(txid, Wide(h, n), 0, m).Ok?
  {
    hide OutAddress;
    if m > 0 {
      WideEdits(txid, h, n, m - 1);
      Signing.OutAddressBack(1, h);
    }
  }

  lemma WideOuts(txid: Hash, h: Hash, n: nat)
    ensures EditsOfOuts(txid, Wide(h, n), 0, |Wide(h, n).outs|).Ok?
  {
    WideEdits(txid, h, n, n);
    hide EditsOfOuts;
  }

  lemma WideEdit(c: Suite, id: Hash, h: Hash, n: nat)
    ensures EditsOfTx(c, NOTHING, id, 0, 0, Wide(h, n)).Ok?
  {
    hide Wide, TxId, EditsOfOuts, CoinbaseIn;
    WideSigned(c, h, n);
    WideStarts(h, n);
    CoinbaseOk();
    WideOuts(TxId(c, Wide(h, n)).value, h, n);
    assert [COINBASE][..0] == [];
    assert EditsOfIns(c, NOTHING, 0, []).Ok?;
  }

  lemma WideLinks(c: Suite, b: Block, h: Hash, n: nat)
    requires b.txs == [Wide(h, n)]
    ensures LinkEdits(c, NOTHING, 0, b).Ok?
  {
    hide Wide, EditsOfTx, BlockId;
    WideEdit(c, BlockId(c, b), h, n);
    assert b.txs[..0] == [];
    assert EditsOfTxs(c, NOTHING, BlockId(c, b), 0, []).Ok?;
  }

  lemma WideTxFees(c: Suite, h: Hash, n: nat)
    requires 1 <= n <= 85595
    ensures TxFees(c, NOTHING, NO_BODIES, 0, Wide(h, n)) == Ok(Fees(0, n))
  {
    WideStarts(h, n);
    CoinbaseOk();
    Pennies(Wide(h, n).outs);
    assert [COINBASE][..0] == [];
    assert InsWorth(c, NOTHING, NO_BODIES, 0, []) == Ok(0);
    assert InsWorth(c, NOTHING, NO_BODIES, 0, [COINBASE]) == Ok(0);
    hide CoinbaseIn, InAddress, RefOut, InsWorth, Total;
  }

  lemma WidePasses(c: Suite, lookup: Signing.Lookup, h: Hash, n: nat)
    ensures Signing.SignaturesPass(c, lookup, Wide(h, n))
  {
    hide CoinbaseIn, Signing.NewCache, Wide;
    WideSigned(c, h, n);
    WideStarts(h, n);
    CoinbaseOk();
  }

  lemma WideFees(c: Suite, h: Hash, n: nat)
    requires 1 <= n <= 85595
    ensures BlockFees(c, NOTHING, NO_BODIES, 0, [Wide(h, n)]) == Ok(Fees(0, n))
  {
    hide Signing.SignaturesPass, TxFees, Wide;
    WideTxFees(c, h, n);
    WidePasses(c, RefLookup(NOTHING, NO_BODIES), h, n);
    assert [Wide(h, n)][..0] == [];
    assert BlockFees(c, NOTHING, NO_BODIES, 0, []) == Ok(Fees(0, 0));
  }

  lemma FirstReward(conf: Conf)
    ensures Reward(conf, 0) == 50 * COIN
  {
    assert 0 / conf.halving == 0;
  }

  lemma WideFits(conf: Conf, h: Hash, n: nat, b: Block)
    requires 1 <= n <= 85595 && b.txs == [Wide(h, n)]
    requires b.header.bits == EasiestBits(conf) && BlockId(conf.c, b) == conf.genesis
    ensures Fitting(conf, NOTHING, NO_BODIES, Next(conf, NOTHING), b)
  {
    hide Wide, BlockId, LinkEdits, BlockFees, Reward, EasiestBits;
    WideLinks(conf.c, b, h, n);
    WideFees(conf.c, h, n);
    FirstReward(conf);
  }

  lemma Easiest(conf: Conf)
    ensures Decode(EasiestBits(conf)) <= Number(conf.limit)
  {
    CompactError(Number(conf.limit));
    hide Compact, Decode, Number;
  }

  /** A configuration made for a block of this kind accepts it as its first. */
  lemma FirstAccepted(conf: Conf, now: int, header: Header, h: Hash, n: nat)
    requires 1 <= n <= 85595 && MadeFor(conf, now, WideBlock(conf.c, header, h, n))
    ensures Acceptable(conf, now, NOTHING, NO_BODIES, WideBlock(conf.c, header, h, n))
  {
    hide BlockOk, Wide, TxId, BlockId, Decode, EasiestBits, Fitting, Next, Number;
    var b := WideBlock(conf.c, header, h, n);
    assert Timestamp(b.header) == Timestamp(header);
    WideBlockOk(conf.c, now, header, h, n);
    WideFits(conf, h, n, b);
    Easiest(conf);
  }

  /** From the empty index, linking it makes a chain of one block, which is read back as it is exactly if sixteen bits
      can count its outputs. */
  lemma FirstLinks(conf: Conf, now: int, header: Header, h: Hash, n: nat)
    requires 1 <= n <= 85595 && MadeFor(conf, now, WideBlock(conf.c, header, h, n))
    ensures var b, evs := WideBlock(conf.c, header, h, n), [Linking(now, WideBlock(conf.c, header, h, n))];
            && |History(conf, evs)| == 1 && History(conf, evs)[0].block == b
            && (Reread(b) == Ok(b) <==> n <= 0xFFFF)
  {
    hide Acceptable, Link, MadeFor, WideBlock, Reread, Placed;
    var b := WideBlock(conf.c, header, h, n);
    var evs := [Linking(now, b)];
    FirstAccepted(conf, now, header, h, n);
    WideBlockOk(conf.c, now, header, h, n);
    assert BodiesOf(EMPTY) == NO_BODIES;
    LinkAtomic(conf, now, EMPTY, b);
    assert evs[..0] == [];
    assert Run(conf, []) == EMPTY && History(conf, []) == [];
    PlacedBlock(conf, now, EMPTY, b);
  }

  // Such configurations exist.

  function One(): Hash {
    [1] + seq(31, i => 0)
  }

  /** Stand-ins for the primitives. */
  function Toy(): Suite {
    Suite(s => One(), k => seq(33, i => 0), s => None, s => None, (k, m) => seq(8, i => 0), (p, m, s) => true)
  }

  function ToyConf(span: Positive, halving: Positive, retarget: Retarget): Conf {
    Conf(Toy(), One(), One(), 1, span, halving, retarget)
  }

  lemma {:induction false} Zeros(s: Bytes)
    requires forall i :: 0 <= i < |s| ==> s[i] == 0
    ensures UnLE(s) == 0
  {
    if s != [] {
      Zeros(s[1..]);
    }
  }

  lemma OneIs()
    ensures Number(One()) == 1 && One() != ZERO_HASH
  {
    assert One()[0] == 1 && One()[1..] == seq(31, i => 0);
    Zeros(One()[1..]);
    assert ZERO_HASH[0] == 0;
  }

  lemma ToyIds(header: Header, h: Hash, n: nat)
    ensures var b := WideBlock(Toy(), header, h, n);
            BlockId(Toy(), b) == One() && b.header == header.(merkle := One())
  {
    WideSigned(Toy(), h, n);
    hide TxSign, HeaderBytes, Wide, One;
  }

  /** For every number of outputs up to four megabytes there is a configuration with such a first block. */
  lemma SomeFirst(span: Positive, halving: Positive, retarget: Retarget, h: Hash, n: nat)
    ensures var conf := ToyConf(span, halving, retarget);
            MadeFor(conf, 0, WideBlock(conf.c, Header(0, ZERO_HASH, ZERO_HASH, 0, EasiestBits(conf), 0), h, n))
  {
    hide Compact, Decode, WideBlock, Number, One, BlockId, Toy;
    OneIs();
    CompactError(1);
    var conf := ToyConf(span, halving, retarget);
    ToyIds(Header(0, ZERO_HASH, ZERO_HASH, 0, EasiestBits(conf), 0), h, n);
  }
}
