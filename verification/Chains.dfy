/** src/index.rs, the chain as a state machine: linking and popping blocks, and what every run of them keeps. */
module Chains {
  import opened Common
  import opened Iobuf
  import opened Crypto
  import opened Blocks
  import opened Difficulty
  import opened Journal
  import Signing
  import opened Storage
  import opened Ledger

  type Positive = x: int | 0 < x < 0x1_0000_0000 witness 1

  /** How the block a retarget looks back to is found. As written, the record under a height key is decoded as block
      attributes although it holds a block id; intended is the lookup by height and then by id. */
  datatype Retarget = AsWritten | Intended

  datatype Conf = Conf(c: Suite, genesis: Hash, limit: Hash, time: Positive, span: Positive, halving: Positive,
                       retarget: Retarget)

  // Reading the database.

  /** Block attributes are longer than every other record, so decoding another kind fails. */
  function AttrAt(db: Db, k: Key): Result<BlkAttr> {
    if k in db && db[k].BlkV? then Ok(db[k].blk) else Err
  }

  function IdAt(db: Db, k: Key): Result<Hash> {
    if k in db && db[k].IdV? then Ok(db[k].id) else Err
  }

  /** A block id decoded as a transaction's record gives the leading bytes of the block's header. */
  function TxAttrAt(db: Db, k: Key): Result<TxAttr> {
    if k !in db then Err
    else
      match db[k]
      case TxV(t) => Ok(t)
      case BlkV(a) => ReadTxAttr(HeaderBytes(a.bhv))
      case _ => Err
  }

  /** The lookups are what decoding the stored bytes gives: a transaction's place from the start of either kind of
      record under an id, block attributes from nothing but such a record; a block id read as block attributes fails. */
  lemma LookupsDecode(db: Db, k: Key)
    requires k in db
    ensures db[k].TxV? || db[k].BlkV? ==> TxAttrAt(db, k) == ReadTxAttr(ValueBytes(db[k]))
    ensures !db[k].BlkV? ==> AttrAt(db, k).Err? && ReadBlkAttr(ValueBytes(db[k])).Err?
    ensures db[k].BlkV? && AttrFits(db[k].blk.blk) && AttrFits(db[k].blk.rev) ==>
              AttrAt(db, k) == ReadBlkAttr(ValueBytes(db[k]))
  {
    hide ReadTxAttr, ReadBlkAttr, HeaderBytes, LE, I64Bytes, AttrBytes;
    match db[k]
    case TxV(t) =>
      TxAttrBack(t);
      BlkAttrShort(ValueBytes(db[k]));
    case BlkV(a) =>
      var t := LE(a.hhv, 4) + AttrBytes(a.blk) + AttrBytes(a.rev);
      assert ValueBytes(db[k]) == HeaderBytes(a.bhv) + t;
      TxAttrPrefix(HeaderBytes(a.bhv), t);
      if AttrFits(a.blk) && AttrFits(a.rev) {
        BlkAttrBack(a);
      }
    case _ =>
      BlkAttrShort(ValueBytes(db[k]));
  }

  /** The blocks the index can read, by key of their id. */
  type Bodies = map<Key, Block>

  /** `get_txin_ref_txout`. */
  function RefOut(db: Db, bodies: Bodies, p: OutPoint): Result<TxOut> {
    var attr :- TxAttrAt(db, HashKey(p.out));
    if HashKey(attr.blk) !in bodies then Err
    else
      var txs := bodies[HashKey(attr.blk)].txs;
      if attr.idx >= |txs| || p.idx >= |txs[attr.idx].outs| then Err
      else Ok(txs[attr.idx].outs[p.idx])
  }

  function RefLookup(db: Db, bodies: Bodies): Signing.Lookup {
    p => RefOut(db, bodies, p)
  }

  // Difficulty.

  datatype Tip = Tip(bits: U32, height: U32, prev: Hash)

  function LookBack(conf: Conf, db: Db, height: U32): Result<BlkAttr> {
    match conf.retarget
    case AsWritten => AttrAt(db, HeightKey(height))
    case Intended =>
      var id :- IdAt(db, HeightKey(height));
      AttrAt(db, HashKey(id))
  }

  function EasiestBits(conf: Conf): U32 {
    Compact(Number(conf.limit))
  }

  function RetargetBits(conf: Conf, last: Header, back: Header): U32 {
    ComputeBits(Number(conf.limit), conf.time, Timestamp(last), Timestamp(back), last.bits)
  }

  /** Whether the difficulty is computed anew at a height. */
  predicate Retargets(conf: Conf, height: nat) {
    height % conf.span == 0
  }

  lemma RetargetsFrom(conf: Conf, height: nat)
    requires Retargets(conf, height) && height > 0
    ensures height >= conf.span
  {
    if height < conf.span {
      Remainder(height, conf.span);
    }
  }

  function NextBits(conf: Conf, db: Db, last: Header, next: U32): Result<U32>
    requires next > 0
  {
    if !Retargets(conf, next) then Ok(last.bits)
    else
      RetargetsFrom(conf, next);
      var back :- LookBack(conf, db, next - conf.span);
      Ok(RetargetBits(conf, last, back.bhv))
  }

  /** `next`: the difficulty and height of the block to come. A height past 32 bits is a panic. */
  function Next(conf: Conf, db: Db): Result<Tip> {
    match BestOf(db)
    case Err => Ok(Tip(EasiestBits(conf), 0, ZERO_HASH))
    case Ok(best) =>
      if best.height == 0xFFFF_FFFF then Err
      else if best.height == 0 then Ok(Tip(EasiestBits(conf), 1, best.id))
      else
        var last :- AttrAt(db, HashKey(best.id));
        var bits :- NextBits(conf, db, last.bhv, best.height + 1);
        Ok(Tip(bits, best.height + 1, best.id))
  }

  // Amounts.

  function Halved(n: nat, k: nat): nat {
    if k == 0 then n else Halved(n, k - 1) / 2
  }

  /** `compute_reward`. */
  function Reward(conf: Conf, h: U32): nat {
    if h / conf.halving >= 64 then 0 else Halved(50 * COIN, h / conf.halving)
  }

  /** What the inputs are worth: each must come from a coin of the same address and value, old enough to spend. */
  function InsWorth(c: Suite, db: Db, bodies: Bodies, height: U32, ins: seq<TxIn>): Result<int> {
    if ins == [] then Ok(0)
    else
      var t :- InsWorth(c, db, bodies, height, ins[..|ins| - 1]);
      var inv := ins[|ins| - 1];
      if CoinbaseIn(inv) then Ok(t)
      else
        var addr :- InAddress(c, inv);
        var outv :- RefOut(db, bodies, Point(inv));
        var paid :- OutAddress(outv);
        var coin :- CoinAt(db, CoinKey(addr, inv.out, inv.idx));
        if addr != paid || outv.value != coin.value || !Mature(coin, height) then Err
        else Ok(t + coin.value)
  }

  predicate OutsPositive(outs: seq<TxOut>) {
    forall i :: 0 <= i < |outs| ==> ValidAmount(outs[i].value) && outs[i].value != 0
  }

  datatype Fees = Fees(fee: int, minted: int)

  /** `check_tx_amount`: the fee left over, and what a coinbase transaction pays out. */
  function TxFees(c: Suite, db: Db, bodies: Bodies, height: U32, tx: Tx): Result<Fees> {
    var ifee :- InsWorth(c, db, bodies, height, tx.ins);
    var ofee := if Coinbase(tx) then 0 else Total(tx.outs);
    var cfee := if Coinbase(tx) then Total(tx.outs) else 0;
    if !OutsPositive(tx.outs) then Err
    else if !ValidAmount(ifee) || !ValidAmount(ofee) || ofee > ifee || !ValidAmount(cfee) then Err
    else Ok(Fees(ifee - ofee, cfee))
  }

  /** The sums over a block, each signature checked on the way. */
  function BlockFees(c: Suite, db: Db, bodies: Bodies, height: U32, txs: seq<Tx>): Result<Fees> {
    if txs == [] then Ok(Fees(0, 0))
    else
      var t :- BlockFees(c, db, bodies, height, txs[..|txs| - 1]);
      var last := txs[|txs| - 1];
      if !Signing.SignaturesPass(c, RefLookup(db, bodies), last) then Err
      else
        var f :- TxFees(c, db, bodies, height, last);
        if !ValidAmount(t.fee + f.fee) || !ValidAmount(t.minted + f.minted) then Err
        else Ok(Fees(t.fee + f.fee, t.minted + f.minted))
  }

  /** `check_block_amount`. */
  predicate AmountsOk(conf: Conf, db: Db, bodies: Bodies, height: U32, b: Block) {
    && ValidAmount(Reward(conf, height))
    && var f := BlockFees(conf.c, db, bodies, height, b.txs);
       f.Ok? && f.value.minted <= Reward(conf, height) + f.value.fee
  }

  // Linking.

  predicate Follows(conf: Conf, db: Db, bodies: Bodies, b: Block) {
    match BestOf(db)
    case Ok(top) => HashKey(top.id) in bodies && b.header.prev == BlockId(conf.c, bodies[HashKey(top.id)])
    case Err => BlockId(conf.c, b) == conf.genesis
  }

  /** The block on its own: well formed, new, and worked for. */
  predicate Proper(conf: Conf, now: int, db: Db, b: Block) {
    && BlockOk(conf.c, now, b)
    && HashKey(BlockId(conf.c, b)) !in db
    && VerifyPow(BlockId(conf.c, b), conf.limit, b.header.bits)
  }

  /** The block as the one at a height of this chain. */
  predicate Fitting(conf: Conf, db: Db, bodies: Bodies, tip: Result<Tip>, b: Block) {
    && tip.Ok? && b.header.bits == tip.value.bits
    && Follows(conf, db, bodies, b)
    && AmountsOk(conf, db, bodies, tip.value.height, b)
    && LinkEdits(conf.c, db, tip.value.height, b).Ok?
  }

  /** Everything `link` checks before it writes. */
  predicate Acceptable(conf: Conf, now: int, db: Db, bodies: Bodies, b: Block) {
    Proper(conf, now, db, b) && Fitting(conf, db, bodies, Next(conf, db), b)
  }

  datatype State = State(db: Db, blk: Files, rev: Files)

  const EMPTY := State(map[], [[]], [[]])

  /** Reading one block through its attributes. */
  function Body(s: State, k: Key): Result<Block> {
    if !k.HashKey? then Err
    else
      var attr :- AttrAt(s.db, k);
      var buf :- Pulled(s.blk, attr.blk);
      var b :- ReadBlock(buf);
      Ok(b.value)
  }

  function BodiesOf(s: State): Bodies {
    map k | k in s.db.Keys && Body(s, k).Ok? :: Body(s, k).value
  }

  function UndoLog(c: Suite, db: Db, height: U32, b: Block): Bytes
    requires LinkEdits(c, db, height, b).Ok?
  {
    LogBytes(RawLog(Reverse(LinkEdits(c, db, height, b).value)))
  }

  /** The database once the block, stored at these places, is linked. */
  function Written(c: Suite, db: Db, height: U32, e: Entry): Db
    requires LinkEdits(c, db, height, e.block).Ok?
  {
    Applied(Forward(LinkEdits(c, db, height, e.block).value + [IdEdit(c, height, e)]), db)
  }

  /** Storing and writing a block that passed; its bytes are stored before its undo log. */
  function Commit(c: Suite, now: int, s: State, height: U32, b: Block): (State, Result<Best>)
    requires BlockFits(b) && LinkEdits(c, s.db, height, b).Ok? && s.blk != [] && s.rev != []
  {
    var (blk, at) := Pushed(s.blk, MAX_FILE_SIZE, BlockBytes(b));
    if at.Err? then (s, Err)
    else
      var (rev, undo) := Pushed(s.rev, MAX_FILE_SIZE, UndoLog(c, s.db, height, b));
      if undo.Err? then (s.(blk := blk), Err)
      else
        (State(Written(c, s.db, height, Entry(b, at.value, undo.value, now)), blk, rev),
         Ok(Best(BlockId(c, b), height)))
  }

  /** `link`. */
  function Link(conf: Conf, now: int, s: State, b: Block): (State, Result<Best>)
    requires s.blk != [] && s.rev != []
  {
    if !Acceptable(conf, now, s.db, BodiesOf(s), b) then (s, Err)
    else
      AcceptableFits(conf, now, s.db, BodiesOf(s), b);
      Commit(conf.c, now, s, Next(conf, s.db).value.height, b)
  }

  lemma AcceptableFits(conf: Conf, now: int, db: Db, bodies: Bodies, b: Block)
    requires Acceptable(conf, now, db, bodies, b)
    ensures BlockFits(b) && Next(conf, db).Ok? && LinkEdits(conf.c, db, Next(conf, db).value.height, b).Ok?
  {
    hide LinkEdits, Next, AmountsOk, VerifyPow, Follows, BlockBytes, BlockFits, TxOk, AllIns, MerkleRoot;
  }

  /** `pop`. */
  function Pop(conf: Conf, s: State): (State, Result<Block>) {
    var best := BestOf(s.db);
    if best.Err? || best.value.id == conf.genesis then (s, Err)
    else
      var k := HashKey(best.value.id);
      var b := Body(s, k);
      if b.Err? then (s, Err)
      else
        var log := Pulled(s.rev, s.db[k].blk.rev);
        if log.Err? || UndoOf(log.value).Err? then (s, Err)
        else (s.(db := Applied(UndoOf(log.value).value + [Del(k)], s.db)), Ok(b.value))
  }

  // Lists of blocks that were each accepted on top of the ones before.

  /** The blocks as they can be read back. */
  function EntryBodies(c: Suite, es: seq<Entry>): Bodies {
    if es == [] then map[]
    else
      var bodies, b := EntryBodies(c, es[..|es| - 1]), Reread(es[|es| - 1].block);
      if b.Ok? then bodies[HashKey(IdOf(c, es[|es| - 1])) := b.value] else bodies
  }

  /** The last block was accepted on top of the others. */
  predicate Topped(conf: Conf, es: Blocks32)
    requires es != []
  {
    var before, last := es[..|es| - 1], es[|es| - 1];
    Acceptable(conf, last.now, Replay(conf.c, before), EntryBodies(conf.c, before), last.block)
  }

  ghost predicate Grown(conf: Conf, es: Blocks32) {
    forall n {:trigger Topped(conf, es[..n])} :: 0 < n <= |es| ==> Topped(conf, es[..n])
  }

  lemma GrownPrefix(conf: Conf, es: Blocks32, m: nat)
    requires Grown(conf, es) && m <= |es|
    ensures Grown(conf, es[..m])
  {
    hide Topped;
    forall n | 0 < n <= m ensures Topped(conf, es[..m][..n]) {
      assert es[..m][..n] == es[..n];
      assert Topped(conf, es[..n]);
    }
  }

  lemma GrownTop(conf: Conf, es: Blocks32)
    requires Grown(conf, es) && es != []
    ensures Grown(conf, es[..|es| - 1]) && Topped(conf, es)
  {
    hide Topped;
    GrownPrefix(conf, es, |es| - 1);
    assert es[..|es|] == es;
    assert Topped(conf, es[..|es|]);
  }

  lemma GrownMore(conf: Conf, es: Blocks32)
    requires es != [] && Grown(conf, es[..|es| - 1]) && Topped(conf, es)
    ensures Grown(conf, es)
  {
    hide Topped;
    forall n | 0 < n <= |es| ensures Topped(conf, es[..n]) {
      if n < |es| {
        assert es[..|es| - 1][..n] == es[..n];
        assert Topped(conf, es[..|es| - 1][..n]);
      } else {
        assert es[..n] == es;
      }
    }
  }

  /** Keys other than coins. */
  lemma PlainAt(c: Suite, es: Blocks32, k: Key)
    requires es != [] && !k.CoinKey?
    ensures Get(Replay(c, es), k) == AfterBlock(c, |es| - 1, TopOf(es), Get(DbBelow(c, es), k), k)
  {
    hide Makes, Spends, OpsOfBlock, AfterBlock, Applied;
    CoinsOnly(c, |es| - 1, es[|es| - 1].block.txs, k);
    BlockAt(c, |es| - 1, es[|es| - 1], Replay(c, es[..|es| - 1]), k);
  }

  /** The best record names the last block. */
  lemma TipIs(c: Suite, es: Blocks32)
    ensures BestOf(Replay(c, es)) == if es == [] then Err else Ok(Best(IdOf(c, es[|es| - 1]), |es| - 1))
    ensures es == [] ==> BestKey !in Replay(c, es)
  {
    if es != [] {
      PlainAt(c, es, BestKey);
    }
    hide IdOf, OpsOfBlock, TxRecords, Makes, Spends, Applied;
  }

  /** The height a new block gets is the number of blocks. */
  lemma NextHeight(conf: Conf, es: Blocks32)
    ensures Next(conf, Replay(conf.c, es)).Ok? ==> Next(conf, Replay(conf.c, es)).value.height == |es| < 0x1_0000_0000
  {
    TipIs(conf.c, es);
    hide NextBits, AttrAt, Replay, EasiestBits;
  }

  /** What the last block was checked against. */
  function DbBelow(c: Suite, es: Blocks32): Db
    requires es != []
  {
    Replay(c, es[..|es| - 1])
  }

  function BodiesBelow(c: Suite, es: Blocks32): Bodies
    requires es != []
  {
    EntryBodies(c, es[..|es| - 1])
  }

  function TopOf(es: Blocks32): Entry
    requires es != []
  {
    es[|es| - 1]
  }

  lemma TopFits(conf: Conf, es: Blocks32)
    requires es != [] && Grown(conf, es)
    ensures Fitting(conf, DbBelow(conf.c, es), BodiesBelow(conf.c, es),
            Next(conf, DbBelow(conf.c, es)), TopOf(es).block)
    ensures Proper(conf, TopOf(es).now, DbBelow(conf.c, es), TopOf(es).block)
  {
    hide Proper, Fitting, Next, Replay, EntryBodies;
    GrownTop(conf, es);
  }

  lemma FittingAt(conf: Conf, db: Db, bodies: Bodies, tip: Result<Tip>, height: U32, b: Block)
    requires Fitting(conf, db, bodies, tip, b) && (tip.Ok? ==> tip.value.height == height)
    ensures Follows(conf, db, bodies, b)
    ensures AmountsOk(conf, db, bodies, height, b)
    ensures LinkEdits(conf.c, db, height, b).Ok?
  {
    hide Follows, AmountsOk, LinkEdits;
  }

  lemma EditsInside(c: Suite, db: Db, height: U32, b: Block)
    requires LinkEdits(c, db, height, b).Ok?
    ensures EditsOfTxs(c, db, BlockId(c, b), height, b.txs).Ok?
  {
    hide EditsOfTxs;
  }

  lemma TopLinks(conf: Conf, es: Blocks32)
    requires es != [] && Grown(conf, es)
    ensures LinkEdits(conf.c, DbBelow(conf.c, es), |es| - 1, TopOf(es).block).Ok?
    ensures AmountsOk(conf, DbBelow(conf.c, es), BodiesBelow(conf.c, es), |es| - 1, TopOf(es).block)
    ensures Follows(conf, DbBelow(conf.c, es), BodiesBelow(conf.c, es), TopOf(es).block)
  {
    hide Proper, Fitting, Next, Replay, EntryBodies, LinkEdits, AmountsOk, Follows, Topped;
    TopFits(conf, es);
    NextHeight(conf, es[..|es| - 1]);
    var db, bodies := DbBelow(conf.c, es), BodiesBelow(conf.c, es);
    FittingAt(conf, db, bodies, Next(conf, db), |es| - 1, TopOf(es).block);
  }

  lemma {:induction false} TopEdits(conf: Conf, es: Blocks32)
    requires es != [] && Grown(conf, es)
    ensures EditsOfTxs(conf.c, DbBelow(conf.c, es), IdOf(conf.c, TopOf(es)), |es| - 1, TopOf(es).block.txs).Ok?
  {
    hide LinkEdits, EditsOfTxs, DbBelow, Topped;
    TopLinks(conf, es);
    EditsInside(conf.c, DbBelow(conf.c, es), |es| - 1, TopOf(es).block);
  }

  lemma {:induction false} SpentIsStored(c: Suite, db: Db, height: U32, ins: seq<TxIn>, k: Key)
    requires EditsOfIns(c, db, height, ins).Ok? && k in SpentBy(c, ins)
    ensures k in db && db[k].CoinV? && Mature(db[k].coin, height)
  {
    hide InAddress, CoinbaseIn, Mature;
    if k in SpentBy(c, ins[..|ins| - 1]) {
      SpentIsStored(c, db, height, ins[..|ins| - 1], k);
    }
  }

  /** A block spends only coins that were in the database before it, and old enough. */
  lemma {:induction false} SpendsStored(c: Suite, db: Db, id: Hash, height: U32, txs: seq<Tx>, k: Key)
    requires EditsOfTxs(c, db, id, height, txs).Ok? && k in Spends(c, txs)
    ensures k in db && db[k].CoinV? && Mature(db[k].coin, height)
  {
    hide TxId, EditsOfIns, EditsOfOuts, SpentBy, Mature;
    var before, last := txs[..|txs| - 1], txs[|txs| - 1];
    if k in Spends(c, before) {
      SpendsStored(c, db, id, height, before, k);
    } else {
      SpentIsStored(c, db, height, last.ins, k);
    }
  }

  predicate CoinBelow(v: Value, n: nat) {
    v.CoinV? && v.coin.height < n && v.coin.flags <= FLAG_COINBASE
  }

  /** A block makes coins only under transaction ids it newly records. */
  lemma {:induction false} MakesNew(c: Suite, db: Db, id: Hash, height: U32, txs: seq<Tx>, k: Key)
    requires EditsOfTxs(c, db, id, height, txs).Ok? && k in Makes(c, height, txs)
    ensures k.CoinKey? && HashKey(k.tx) !in db && HashKey(k.tx) in TxRecords(c, id, txs)
    ensures CoinBelow(Makes(c, height, txs)[k], height + 1) && Makes(c, height, txs)[k].coin.height == height
  {
    hide TxId, EditsOfIns, EditsOfOuts, MadeBy;
    var before, last := txs[..|txs| - 1], txs[|txs| - 1];
    var txid := TxId(c, last).value;
    if k in MadeBy(txid, last, height, |last.outs|) {
      MadeKinds(txid, last, height, |last.outs|, k);
    } else {
      MakesNew(c, db, id, height, before, k);
    }
  }

  lemma AfterCoin(c: Suite, height: U32, e: Entry, was: Option<Value>, k: Key)
    requires k.CoinKey?
    ensures AfterBlock(c, height, e, was, k) ==
            if k in Makes(c, height, e.block.txs) then Some(Makes(c, height, e.block.txs)[k])
            else if k in Spends(c, e.block.txs) then None
            else was
  {
    hide Makes, Spends, TxRecords, IdOf;
  }

  lemma AfterRecord(c: Suite, height: U32, e: Entry, was: Option<Value>, k: Key)
    requires k.HashKey? && (k in TxRecords(c, IdOf(c, e), e.block.txs) || was.Some?)
    ensures AfterBlock(c, height, e, was, k).Some?
  {
    hide Makes, Spends, TxRecords, IdOf;
  }

  lemma ReplayNone(c: Suite)
    ensures Replay(c, []) == map[]
  {
  }

  lemma CoinAbove(v: Value, n: nat)
    requires CoinBelow(v, n)
    ensures CoinBelow(v, n + 1)
  {
  }

  /** Every coin's transaction is indexed, and no coin is higher than the chain. */
  lemma {:induction false} CoinIndexed(conf: Conf, es: Blocks32, k: Key)
    requires Grown(conf, es) && k.CoinKey? && k in Replay(conf.c, es)
    ensures HashKey(k.tx) in Replay(conf.c, es)
    ensures CoinBelow(Replay(conf.c, es)[k], |es|)
    decreases |es|, 2
  {
    ReplayNone(conf.c);
    hide Topped, Makes, Spends, TxRecords, OpsOfBlock, EditsOfTxs, Replay, LinkEdits, AfterBlock, IdOf, CoinBelow;
    if es != [] {
      var c, e, height, txs := conf.c, TopOf(es), |es| - 1, TopOf(es).block.txs;
      var r := HashKey(k.tx);
      GrownTop(conf, es);
      CoinAtKey(conf, es, k);
      AfterCoin(c, height, e, Get(DbBelow(c, es), k), k);
      PlainAt(c, es, r);
      if k in Makes(c, height, txs) {
        TopEdits(conf, es);
        MakesNew(c, DbBelow(c, es), IdOf(c, e), height, txs, k);
      } else {
        CoinIndexed(conf, es[..|es| - 1], k);
        CoinAbove(DbBelow(c, es)[k], height);
      }
      AfterRecord(c, height, e, Get(DbBelow(c, es), r), r);
    }
  }

  /** A block never makes a coin it spends. */
  lemma {:induction false} Separate(conf: Conf, es: Blocks32, k: Key)
    requires es != [] && Grown(conf, es)
    ensures k in Makes(conf.c, |es| - 1, TopOf(es).block.txs) ==> k !in Spends(conf.c, TopOf(es).block.txs)
    decreases |es|, 0
  {
    hide Topped, Makes, Spends, TxRecords, EditsOfTxs, Replay, Mature, LinkEdits;
    var c, e, db := conf.c, TopOf(es), DbBelow(conf.c, es);
    GrownTop(conf, es);
    TopEdits(conf, es);
    if k in Makes(c, |es| - 1, e.block.txs) && k in Spends(c, e.block.txs) {
      MakesNew(c, db, IdOf(c, e), |es| - 1, e.block.txs, k);
      SpendsStored(c, db, IdOf(c, e), |es| - 1, e.block.txs, k);
      CoinIndexed(conf, es[..|es| - 1], k);
    }
  }

  lemma {:induction false} CoinAtKey(conf: Conf, es: Blocks32, k: Key)
    requires es != [] && Grown(conf, es)
    ensures Get(Replay(conf.c, es), k) == AfterBlock(conf.c, |es| - 1, TopOf(es), Get(DbBelow(conf.c, es), k), k)
    decreases |es|, 1
  {
    hide Makes, Spends, OpsOfBlock, AfterBlock, Applied, Topped;
    Separate(conf, es, k);
    BlockAt(conf.c, |es| - 1, es[|es| - 1], Replay(conf.c, es[..|es| - 1]), k);
  }

  // What the index holds under each kind of key.

  /** The height records are exactly the blocks of the chain, in order. */
  lemma {:induction false} HeightsAre(c: Suite, es: Blocks32, h: U32)
    ensures Get(Replay(c, es), HeightKey(h)) == if h < |es| then Some(IdV(IdOf(c, es[h]))) else None
  {
    ReplayNone(c);
    hide TxRecords, Makes, Spends, IdOf, Replay;
    if es != [] {
      HeightsAre(c, es[..|es| - 1], h);
      PlainAt(c, es, HeightKey(h));
    }
  }

  /** A record that says it is of a block is of the block it says. */
  lemma {:induction false} BlockRecord(c: Suite, es: Blocks32, k: Key)
    requires k.HashKey? && k in Replay(c, es) && Replay(c, es)[k].BlkV?
    ensures var a := Replay(c, es)[k].blk;
            && a.hhv < |es| && k.id == IdOf(c, es[a.hhv])
            && a == BlkAttr(es[a.hhv].block.header, a.hhv, es[a.hhv].at, es[a.hhv].undo)
  {
    ReplayNone(c);
    hide TxRecords, Makes, Spends, IdOf, Replay;
    PlainAt(c, es, k);
    var e := TopOf(es);
    if k.id != IdOf(c, e) {
      if k in TxRecords(c, IdOf(c, e), e.block.txs) {
        TxRecordIs(c, IdOf(c, e), e.block.txs, k);
      }
      BlockRecord(c, es[..|es| - 1], k);
    }
  }

  lemma {:induction false} TxRecordIs(c: Suite, id: Hash, txs: seq<Tx>, k: Key)
    requires k in TxRecords(c, id, txs)
    ensures k.HashKey? && TxRecords(c, id, txs)[k].TxV?
    ensures var t := TxRecords(c, id, txs)[k].tx;
            t.blk == id && (|txs| <= 0x1_0000 ==> t.idx < |txs| && TxId(c, txs[t.idx]) == Ok(k.id))
  {
    hide TxId;
    if k in TxRecords(c, id, txs[..|txs| - 1]) {
      TxRecordIs(c, id, txs[..|txs| - 1], k);
    }
  }

  lemma {:induction false} RecordsNew(c: Suite, db: Db, id: Hash, height: U32, txs: seq<Tx>, k: Key)
    requires EditsOfTxs(c, db, id, height, txs).Ok? && k in TxRecords(c, id, txs)
    ensures k !in db
  {
    hide TxId, EditsOfIns, EditsOfOuts;
    var before := txs[..|txs| - 1];
    if k in TxRecords(c, id, before) {
      RecordsNew(c, db, id, height, before, k);
    }
  }

  /** A block can be read under an id exactly if there is a block record there that leads to it. */
  lemma {:induction false} BodiesAre(conf: Conf, es: Blocks32, k: Key)
    requires Grown(conf, es) && k.HashKey?
    ensures k in Replay(conf.c, es) && Replay(conf.c, es)[k].BlkV? ==> Replay(conf.c, es)[k].blk.hhv < |es|
    ensures (if k in EntryBodies(conf.c, es) then Ok(EntryBodies(conf.c, es)[k]) else Err) ==
            if k in Replay(conf.c, es) && Replay(conf.c, es)[k].BlkV?
            then Reread(es[Replay(conf.c, es)[k].blk.hhv].block) else Err
  {
    ReplayNone(conf.c);
    hide TxRecords, Makes, Spends, IdOf, Replay, Topped, EditsOfTxs, Reread;
    if es != [] {
      var c, e := conf.c, TopOf(es);
      GrownTop(conf, es);
      TopEdits(conf, es);
      NewId(conf, es);
      BodiesAre(conf, es[..|es| - 1], k);
      PlainAt(c, es, k);
      if k in TxRecords(c, IdOf(c, e), e.block.txs) {
        TxRecordIs(c, IdOf(c, e), e.block.txs, k);
        RecordsNew(c, DbBelow(c, es), IdOf(c, e), |es| - 1, e.block.txs, k);
      }
    }
  }

  /** Every block of the chain has its record. */
  lemma {:induction false} IdIndexed(conf: Conf, es: Blocks32, h: nat)
    requires Grown(conf, es) && h < |es|
    ensures Get(Replay(conf.c, es), HashKey(IdOf(conf.c, es[h]))) ==
            Some(BlkV(BlkAttr(es[h].block.header, h, es[h].at, es[h].undo)))
  {
    hide TxRecords, Makes, Spends, Replay, Topped, EditsOfTxs, BlockOk, VerifyPow;
    var c, e, k := conf.c, TopOf(es), HashKey(IdOf(conf.c, es[h]));
    GrownTop(conf, es);
    TopFits(conf, es);
    TopEdits(conf, es);
    PlainAt(c, es, k);
    if h < |es| - 1 {
      IdIndexed(conf, es[..|es| - 1], h);
      if k in TxRecords(c, IdOf(c, e), e.block.txs) {
        RecordsNew(c, DbBelow(c, es), IdOf(c, e), |es| - 1, e.block.txs, k);
      }
    }
  }

  // A state against a list of blocks.

  function LogOf(c: Suite, es: Blocks32): Bytes
    requires es != []
  {
    if LinkEdits(c, DbBelow(c, es), |es| - 1, TopOf(es).block).Ok?
    then UndoLog(c, DbBelow(c, es), |es| - 1, TopOf(es).block) else []
  }

  /** The last block and its undo log are where its entry says. */
  predicate Held(c: Suite, es: Blocks32, blk: Files, rev: Files)
    requires es != []
  {
    && BlockFits(TopOf(es).block)
    && Pulled(blk, TopOf(es).at) == Ok(BlockBytes(TopOf(es).block))
    && Pulled(rev, TopOf(es).undo) == Ok(LogOf(c, es))
  }

  /** The state is that of the chain `es`: the database is its replay, and every block and log can be read. */
  ghost predicate Consistent(conf: Conf, es: Blocks32, s: State) {
    && Grown(conf, es)
    && s.db == Replay(conf.c, es)
    && s.blk != [] && s.rev != []
    && forall n {:trigger Held(conf.c, es[..n], s.blk, s.rev)} :: 0 < n <= |es| ==> Held(conf.c, es[..n], s.blk, s.rev)
  }

  lemma HeldTop(conf: Conf, es: Blocks32, s: State)
    requires Consistent(conf, es, s) && es != []
    ensures Held(conf.c, es, s.blk, s.rev)
  {
    hide Held, Replay;
    assert es[..|es|] == es;
    assert Held(conf.c, es[..|es|], s.blk, s.rev);
  }

  lemma HeldLater(c: Suite, es: Blocks32, blk: Files, rev: Files, blk1: Files, rev1: Files)
    requires es != [] && Held(c, es, blk, rev) && Extends(blk, blk1) && Extends(rev, rev1)
    ensures Held(c, es, blk1, rev1)
  {
    hide BlockFits, BlockBytes, LogOf, Pulled, Extends;
    PulledLater(blk, blk1, TopOf(es).at);
    PulledLater(rev, rev1, TopOf(es).undo);
  }

  /** Blocks come back from the store as they went in. */
  lemma BodyIs(conf: Conf, es: Blocks32, s: State, k: Key)
    requires Consistent(conf, es, s)
    ensures Body(s, k) == if k in EntryBodies(conf.c, es) then Ok(EntryBodies(conf.c, es)[k]) else Err
  {
    hide Grown, Replay, IdOf, ReadBlock, Reread, LogOf, Pulled;
    if k.HashKey? {
      BodiesAre(conf, es, k);
      if k in s.db && s.db[k].BlkV? {
        BlockRecord(conf.c, es, k);
        ReadsBack(conf, es, s, s.db[k].blk.hhv);
      }
    } else if k in EntryBodies(conf.c, es) {
      BodyKeys(conf.c, es, k);
    }
  }

  lemma {:induction false} BodyKeys(c: Suite, es: seq<Entry>, k: Key)
    requires k in EntryBodies(c, es)
    ensures k.HashKey?
  {
    hide IdOf;
    if k in EntryBodies(c, es[..|es| - 1]) {
      BodyKeys(c, es[..|es| - 1], k);
    }
  }

  lemma ReadsBack(conf: Conf, es: Blocks32, s: State, h: nat)
    requires Consistent(conf, es, s) && h < |es|
    ensures Pulled(s.blk, es[h].at).Ok?
    ensures Reread(es[h].block) ==
            var p := ReadBlock(Pulled(s.blk, es[h].at).value); if p.Ok? then Ok(p.value.value) else Err
  {
    hide *;
    HeldAt(conf, es, s, h + 1);
    LastOfPrefix(es, h);
    HeldReads(conf.c, es[..h + 1], s.blk, s.rev);
  }

  lemma ConsistentParts(conf: Conf, es: Blocks32, s: State)
    requires Consistent(conf, es, s)
    ensures Grown(conf, es) && s.db == Replay(conf.c, es) && s.blk != [] && s.rev != []
  {
    hide Grown, Replay, Held;
  }

  lemma LastOfPrefix(es: Blocks32, h: nat)
    requires h < |es|
    ensures TopOf(es[..h + 1]) == es[h]
  {
  }

  lemma HeldAt(conf: Conf, es: Blocks32, s: State, n: nat)
    requires Consistent(conf, es, s) && 0 < n <= |es|
    ensures Held(conf.c, es[..n], s.blk, s.rev)
  {
    hide Held, Replay;
  }

  lemma HeldReads(c: Suite, es: Blocks32, blk: Files, rev: Files)
    requires es != [] && Held(c, es, blk, rev)
    ensures Pulled(blk, TopOf(es).at).Ok?
    ensures Reread(TopOf(es).block) ==
            var p := ReadBlock(Pulled(blk, TopOf(es).at).value); if p.Ok? then Ok(p.value.value) else Err
  {
    hide ReadBlock, BlockBytes, BlockFits, LogOf, Pulled;
  }

  /** The blocks the index can read are those of the chain. */
  lemma BodiesMatch(conf: Conf, es: Blocks32, s: State)
    requires Consistent(conf, es, s)
    ensures BodiesOf(s) == EntryBodies(conf.c, es)
  {
    hide Consistent, Body, EntryBodies;
    forall k
      ensures Body(s, k) == if k in EntryBodies(conf.c, es) then Ok(EntryBodies(conf.c, es)[k]) else Err
      ensures k in EntryBodies(conf.c, es) ==> k in s.db
    {
      BodyIs(conf, es, s, k);
      if Body(s, k).Ok? {
        BodyStored(s, k);
      }
    }
  }

  lemma BodyStored(s: State, k: Key)
    requires Body(s, k).Ok?
    ensures k in s.db
  {
    hide ReadBlock, Pulled;
  }

  // Undoing the last block.

  lemma {:induction false} TruthfulIns(c: Suite, db: Db, height: U32, ins: seq<TxIn>)
    requires EditsOfIns(c, db, height, ins).Ok?
    ensures Truthful(EditsOfIns(c, db, height, ins).value, db)
  {
    hide InAddress, CoinbaseIn, Mature;
    if ins != [] {
      TruthfulIns(c, db, height, ins[..|ins| - 1]);
    }
  }

  lemma {:induction false} TruthfulOuts(db: Db, txid: Hash, tx: Tx, height: U32, n: nat)
    requires n <= |tx.outs| && EditsOfOuts(txid, tx, height, n).Ok?
    requires forall k: Key :: k.CoinKey? && k in db ==> k.tx != txid
    ensures Truthful(EditsOfOuts(txid, tx, height, n).value, db)
  {
    hide OutAddress;
    if n > 0 {
      TruthfulOuts(db, txid, tx, height, n - 1);
    }
  }

  /** Coins only under recorded transaction ids. */
  ghost predicate CoinsIndexed(db: Db) {
    forall k: Key :: k.CoinKey? && k in db ==> HashKey(k.tx) in db
  }

  lemma TruthfulTx(c: Suite, db: Db, id: Hash, height: U32, i: nat, tx: Tx)
    requires EditsOfTx(c, db, id, height, i, tx).Ok? && CoinsIndexed(db)
    ensures Truthful(EditsOfTx(c, db, id, height, i, tx).value, db)
  {
    hide TxId, EditsOfIns, EditsOfOuts, Truthful;
    var txid := TxId(c, tx).value;
    var e: Edit<Key, Value> := Insert(HashKey(txid), TxV(TxAttr(id, i % 0x1_0000)));
    var ins, outs := EditsOfIns(c, db, height, tx.ins).value, EditsOfOuts(txid, tx, height, |tx.outs|).value;
    TruthfulIns(c, db, height, tx.ins);
    TruthfulOuts(db, txid, tx, height, |tx.outs|);
    TruthfulOne(e, db);
    TruthfulJoin([e], ins, db);
    TruthfulJoin([e] + ins, outs, db);
  }

  lemma {:induction false} TruthfulTxs(c: Suite, db: Db, id: Hash, height: U32, txs: seq<Tx>)
    requires EditsOfTxs(c, db, id, height, txs).Ok? && CoinsIndexed(db)
    ensures Truthful(EditsOfTxs(c, db, id, height, txs).value, db)
  {
    hide EditsOfTx, Truthful1, CoinsIndexed;
    if txs != [] {
      var before, last := txs[..|txs| - 1], txs[|txs| - 1];
      TruthfulTxs(c, db, id, height, before);
      TruthfulTx(c, db, id, height, |txs| - 1, last);
      TruthfulJoin(EditsOfTxs(c, db, id, height, before).value,
                   EditsOfTx(c, db, id, height, |txs| - 1, last).value, db);
    }
  }

  /** Everything a batch says was there, was there: the tip, the coins spent, and nothing under the new keys. */
  lemma BatchTruthful(conf: Conf, es: Blocks32, e: Entry)
    requires Grown(conf, es) && |es| < 0x1_0000_0000
    requires LinkEdits(conf.c, Replay(conf.c, es), |es|, e.block).Ok?
    requires HashKey(IdOf(conf.c, e)) !in Replay(conf.c, es)
    ensures Truthful(LinkEdits(conf.c, Replay(conf.c, es), |es|, e.block).value + [IdEdit(conf.c, |es|, e)],
                     Replay(conf.c, es))
  {
    hide Replay, EditsOfTxs, Truthful, Grown;
    var c, db, id, height := conf.c, Replay(conf.c, es), IdOf(conf.c, e), |es|;
    var tip, h := TipEdit(db, Best(id, height)), Insert(HeightKey(height), IdV(id));
    var txs := EditsOfTxs(c, db, id, height, e.block.txs).value;
    forall k: Key | k.CoinKey? && k in db ensures HashKey(k.tx) in db {
      CoinIndexed(conf, es, k);
    }
    TruthfulTxs(c, db, id, height, e.block.txs);
    TipIs(c, es);
    HeightsAre(c, es, height);
    TruthfulOne(tip, db);
    TruthfulOne(h, db);
    TruthfulOne(IdEdit(c, height, e), db);
    TruthfulJoin([tip], [h], db);
    TruthfulJoin([tip] + [h], txs, db);
    TruthfulJoin([tip] + [h] + txs, [IdEdit(c, height, e)], db);
  }

  lemma ReverseInsert(k: Key, v: Value)
    ensures Reverse([Insert(k, v)]) == [Del(k)]
  {
    assert [Insert(k, v)][..0] == [];
  }

  /** Only tips and coins are ever put back. */
  predicate Undoable(es: Edits) {
    forall i :: 0 <= i < |es| ==>
      && (es[i].Replace? ==> es[i].was.BestV?)
      && (es[i].Remove? && es[i].gone.Some? ==> es[i].gone.value.CoinV?)
  }

  lemma {:induction false} UndoableLogged(es: Edits)
    requires Undoable(es)
    ensures Logged(Reverse(es))
  {
    if es != [] {
      UndoableLogged(es[..|es| - 1]);
    }
  }

  lemma {:induction false} UndoableIns(c: Suite, db: Db, height: U32, ins: seq<TxIn>)
    requires EditsOfIns(c, db, height, ins).Ok?
    ensures Undoable(EditsOfIns(c, db, height, ins).value)
  {
    hide InAddress, CoinbaseIn, Mature;
    if ins != [] {
      UndoableIns(c, db, height, ins[..|ins| - 1]);
    }
  }

  lemma {:induction false} UndoableOuts(txid: Hash, tx: Tx, height: U32, n: nat)
    requires n <= |tx.outs| && EditsOfOuts(txid, tx, height, n).Ok?
    ensures Undoable(EditsOfOuts(txid, tx, height, n).value)
  {
    hide OutAddress;
    if n > 0 {
      UndoableOuts(txid, tx, height, n - 1);
    }
  }

  lemma {:induction false} UndoableTxs(c: Suite, db: Db, id: Hash, height: U32, txs: seq<Tx>)
    requires EditsOfTxs(c, db, id, height, txs).Ok?
    ensures Undoable(EditsOfTxs(c, db, id, height, txs).value)
  {
    hide TxId, EditsOfIns, EditsOfOuts;
    if txs != [] {
      var last := txs[|txs| - 1];
      UndoableTxs(c, db, id, height, txs[..|txs| - 1]);
      UndoableIns(c, db, height, last.ins);
      UndoableOuts(TxId(c, last).value, last, height, |last.outs|);
    }
  }

  lemma UndoableBlock(c: Suite, db: Db, height: U32, b: Block)
    requires LinkEdits(c, db, height, b).Ok?
    ensures Undoable(LinkEdits(c, db, height, b).value)
  {
    UndoableTxs(c, db, BlockId(c, b), height, b.txs);
    hide EditsOfTxs, BlockId;
  }

  /** The stored log of the last block reads back as its batch's undo records. */
  lemma LogReads(c: Suite, db: Db, height: U32, b: Block)
    requires LinkEdits(c, db, height, b).Ok?
    ensures UndoOf(UndoLog(c, db, height, b)) == Ok(Reverse(LinkEdits(c, db, height, b).value))
  {
    UndoableBlock(c, db, height, b);
    UndoableLogged(LinkEdits(c, db, height, b).value);
    UndoBack(Reverse(LinkEdits(c, db, height, b).value));
    hide LinkEdits, UndoOf, Reverse, LogBytes, RawLog;
  }

  /** Exact rollback: the undo log, parsed from its stored bytes and replayed front to back together with the removal
      of the block's own record, takes the database after a link back to precisely the one before. */
  lemma ExactRollback(conf: Conf, es: Blocks32, e: Entry)
    requires Grown(conf, es) && |es| < 0x1_0000_0000
    requires LinkEdits(conf.c, Replay(conf.c, es), |es|, e.block).Ok?
    requires HashKey(IdOf(conf.c, e)) !in Replay(conf.c, es)
    ensures var db := Replay(conf.c, es);
            var undo := UndoOf(UndoLog(conf.c, db, |es|, e.block));
            undo.Ok? && Applied(undo.value + [Del(HashKey(IdOf(conf.c, e)))], Written(conf.c, db, |es|, e)) == db
  {
    hide Grown, LinkEdits, UndoLog, UndoOf, Truthful, Forward, Reverse, Applied;
    var c, db, h := conf.c, Replay(conf.c, es), |es|;
    var edits, last := LinkEdits(c, db, h, e.block).value, IdEdit(c, h, e);
    BatchTruthful(conf, es, e);
    TruthfulUndone(edits + [last], db);
    ReverseJoin(edits, [last]);
    ReverseInsert(last.k, last.v);
    LogReads(c, db, h, e.block);
  }

  // Steps.

  /** One block more. */
  lemma ReplayMore(c: Suite, es: Blocks32, e: Entry)
    requires |es| < 0x1_0000_0000 && LinkEdits(c, Replay(c, es), |es|, e.block).Ok?
    ensures Replay(c, es + [e]) == Written(c, Replay(c, es), |es|, e)
  {
    var more := es + [e];
    assert more[..|more| - 1] == es && more[|more| - 1] == e;
    ForwardBlock(c, Replay(c, es), |es|, e);
    hide LinkEdits, OpsOfBlock, Applied, Forward;
  }

  /** Acceptance does not look at where blocks are stored. */
  lemma GrownNext(conf: Conf, es: Blocks32, e: Entry)
    requires |es| < 0x1_0000_0000 && Grown(conf, es)
    ensures Grown(conf, es + [e]) || !Acceptable(conf, e.now, Replay(conf.c, es), EntryBodies(conf.c, es), e.block)
  {
    hide Acceptable, Replay, EntryBodies, Grown;
    var more := es + [e];
    assert more[..|more| - 1] == es && more[|more| - 1] == e;
    assert Topped(conf, more) == Acceptable(conf, e.now, Replay(conf.c, es), EntryBodies(conf.c, es), e.block);
    hide Topped;
    if Topped(conf, more) {
      GrownMore(conf, more);
    }
  }

  /** Putting a block on top of a consistent state. */
  lemma StackedConsistent(conf: Conf, es: Blocks32, s: State, e: Entry, blk: Files, rev: Files)
    requires Consistent(conf, es, s) && |es| < 0x1_0000_0000 && Grown(conf, es + [e])
    requires LinkEdits(conf.c, s.db, |es|, e.block).Ok? && BlockFits(e.block)
    requires Extends(s.blk, blk) && Extends(s.rev, rev)
    requires Pulled(blk, e.at) == Ok(BlockBytes(e.block))
    requires Pulled(rev, e.undo) == Ok(UndoLog(conf.c, s.db, |es|, e.block))
    ensures Consistent(conf, es + [e], State(Written(conf.c, s.db, |es|, e), blk, rev))
  {
    hide Grown, Replay, Held, LinkEdits, BlockFits, BlockBytes, UndoLog, Written, Pulled, Extends;
    var c, more := conf.c, es + [e];
    ReplayMore(c, es, e);
    StillFiles(s.blk, blk);
    StillFiles(s.rev, rev);
    HeldNew(c, es, e, blk, rev);
    forall n | 0 < n <= |more| ensures Held(c, more[..n], blk, rev) {
      if n <= |es| {
        assert more[..n] == es[..n];
        assert Held(c, es[..n], s.blk, s.rev);
        HeldLater(c, es[..n], s.blk, s.rev, blk, rev);
      } else {
        assert more[..n] == more;
      }
    }
  }

  lemma StillFiles(a: Files, b: Files)
    requires Extends(a, b) && a != []
    ensures b != []
  {
  }

  lemma HeldNew(c: Suite, es: Blocks32, e: Entry, blk: Files, rev: Files)
    requires |es| < 0x1_0000_0000 && LinkEdits(c, Replay(c, es), |es|, e.block).Ok? && BlockFits(e.block)
    requires Pulled(blk, e.at) == Ok(BlockBytes(e.block))
    requires Pulled(rev, e.undo) == Ok(UndoLog(c, Replay(c, es), |es|, e.block))
    ensures Held(c, es + [e], blk, rev)
  {
    hide LinkEdits, Replay, UndoLog, BlockFits, BlockBytes, Pulled;
    var more := es + [e];
    assert more[..|more| - 1] == es && more[|more| - 1] == e;
  }

  // Storing never fails on what was accepted.

  function Weight(txs: seq<Tx>): nat {
    if txs == [] then 0
    else Weight(txs[..|txs| - 1]) + 1 + |txs[|txs| - 1].ins| + |txs[|txs| - 1].outs|
  }

  lemma {:induction false} ConcatSize(parts: seq<Bytes>, n: nat)
    requires n <= |parts| && forall i :: 0 <= i < |parts| ==> |parts[i]| >= 8
    ensures |Concat(parts[..n])| >= 8 * n
  {
    if n > 0 {
      ConcatSize(parts, n - 1);
      ConcatPush(parts, n - 1);
    }
  }

  lemma TxSize(tx: Tx)
    requires TxFits(tx)
    ensures |TxBytes(tx)| >= 8 * (1 + |tx.ins| + |tx.outs|)
  {
    hide Concat, LE, Field, InBytes, OutBytes;
    var ins, outs := InParts(tx.ins), OutParts(tx.outs);
    forall i | 0 <= i < |ins| ensures |ins[i]| >= 8 {
      InSize(tx.ins[i]);
    }
    forall i | 0 <= i < |outs| ensures |outs[i]| >= 8 {
      OutSize(tx.outs[i]);
    }
    ConcatSize(ins, |ins|);
    ConcatSize(outs, |outs|);
    assert ins[..|ins|] == ins && outs[..|outs|] == outs;
  }

  lemma InSize(inv: TxIn)
    requires InFits(inv)
    ensures |InBytes(inv)| >= 8
  {
    hide LE, Field;
  }

  lemma OutSize(outv: TxOut)
    requires OutFits(outv)
    ensures |OutBytes(outv)| >= 8
  {
    hide LE, Field;
  }

  lemma {:induction false} TxsSize(txs: seq<Tx>, n: nat)
    requires n <= |txs| && forall i :: 0 <= i < |txs| ==> TxFits(txs[i])
    ensures |Concat(TxParts(txs)[..n])| >= 8 * Weight(txs[..n])
  {
    hide Concat, TxBytes, TxFits;
    if n > 0 {
      TxsSize(txs, n - 1);
      ConcatPush(TxParts(txs), n - 1);
      TxSize(txs[n - 1]);
      assert txs[..n][..n - 1] == txs[..n - 1];
    } else {
      assert txs[..0] == [];
    }
  }

  lemma BlockSize(b: Block)
    requires BlockFits(b)
    ensures |BlockBytes(b)| >= 82 + 8 * Weight(b.txs)
  {
    hide Concat, TxBytes, Weight, HeaderBytes, TxFits;
    TxsSize(b.txs, |b.txs|);
    assert b.txs[..|b.txs|] == b.txs && TxParts(b.txs)[..|b.txs|] == TxParts(b.txs);
  }

  lemma {:induction false} EditsCount(c: Suite, db: Db, id: Hash, height: U32, txs: seq<Tx>)
    requires EditsOfTxs(c, db, id, height, txs).Ok?
    ensures |EditsOfTxs(c, db, id, height, txs).value| <= Weight(txs)
  {
    hide TxId, EditsOfIns, EditsOfOuts;
    if txs != [] {
      var last := txs[|txs| - 1];
      EditsCount(c, db, id, height, txs[..|txs| - 1]);
      EditsOfInsCount(c, db, height, last.ins);
      EditsOfOutsCount(TxId(c, last).value, last, height, |last.outs|);
    }
  }

  lemma {:induction false} EditsOfInsCount(c: Suite, db: Db, height: U32, ins: seq<TxIn>)
    requires EditsOfIns(c, db, height, ins).Ok?
    ensures |EditsOfIns(c, db, height, ins).value| <= |ins|
  {
    hide InAddress, CoinbaseIn, Mature;
    if ins != [] {
      EditsOfInsCount(c, db, height, ins[..|ins| - 1]);
    }
  }

  lemma {:induction false} EditsOfOutsCount(txid: Hash, tx: Tx, height: U32, n: nat)
    requires n <= |tx.outs| && EditsOfOuts(txid, tx, height, n).Ok?
    ensures |EditsOfOuts(txid, tx, height, n).value| <= n
  {
    hide OutAddress;
    if n > 0 {
      EditsOfOutsCount(txid, tx, height, n - 1);
    }
  }

  lemma {:induction false} LogSize(ops: Ops, n: nat)
    requires n <= |ops|
    ensures |Concat(OpParts(RawLog(ops))[..n])| <= 179 * n
  {
    hide Concat, OpBytes, KeyBytes, ValueBytes;
    if n > 0 {
      LogSize(ops, n - 1);
      ConcatPush(OpParts(RawLog(ops)), n - 1);
      KeySize(ops[n - 1]);
    } else {
      ConcatNone([], OpParts(RawLog(ops)));
    }
  }

  /** The undo log of a block of at most four megabytes is small enough for a file, and never empty. */
  lemma UndoLogFits(c: Suite, db: Db, height: U32, b: Block)
    requires LinkEdits(c, db, height, b).Ok? && BlockFits(b) && |BlockBytes(b)| <= MAX_BLOCK_SIZE
    ensures 0 < |UndoLog(c, db, height, b)| <= MAX_FILE_SIZE
  {
    hide EditsOfTxs, Reverse, Concat, OpBytes, BlockBytes, Weight, BlockId, OpParts;
    var edits := LinkEdits(c, db, height, b).value;
    EditsInside(c, db, height, b);
    EditsCount(c, db, BlockId(c, b), height, b.txs);
    BlockSize(b);
    var ops := Reverse(edits);
    LogSize(ops, |ops|);
    assert OpParts(RawLog(ops))[..|ops|] == OpParts(RawLog(ops));
    assert |edits| <= 2 + Weight(b.txs);
    LogNotEmpty(edits);
  }

  lemma LogNotEmpty(edits: Edits)
    requires |edits| >= 1 && Reverse1(edits[0]) != []
    ensures LogBytes(RawLog(Reverse(edits))) != []
  {
    hide OpBytes, KeyBytes, ValueBytes, Reverse;
    assert edits == edits[..1] + edits[1..];
    ReverseJoin(edits[..1], edits[1..]);
    OneEdit(edits[0]);
    assert edits[..1] == [edits[0]];
    var raw := RawLog(Reverse(edits));
    assert OpParts(raw)[0] == OpBytes(raw[0]);
  }

  /** A link is all or nothing: it succeeds exactly when the checks pass, and a failed one changes neither the
      database nor the stores. */
  lemma LinkAtomic(conf: Conf, now: int, s: State, b: Block)
    requires s.blk != [] && s.rev != []
    ensures Link(conf, now, s, b).1.Ok? <==> Acceptable(conf, now, s.db, BodiesOf(s), b)
    ensures Link(conf, now, s, b).1.Err? ==> Link(conf, now, s, b).0 == s
  {
    hide Acceptable, BodiesOf, Written, UndoLog, LinkEdits, Next, BlockFits, BlockBytes;
    if Acceptable(conf, now, s.db, BodiesOf(s), b) {
      AcceptableFits(conf, now, s.db, BodiesOf(s), b);
      AcceptableSize(conf, now, s.db, BodiesOf(s), b);
      UndoLogFits(conf.c, s.db, Next(conf, s.db).value.height, b);
      BlockSize(b);
    }
  }

  lemma AcceptableSize(conf: Conf, now: int, db: Db, bodies: Bodies, b: Block)
    requires Acceptable(conf, now, db, bodies, b) && BlockFits(b)
    ensures |BlockBytes(b)| <= MAX_BLOCK_SIZE
  {
    hide LinkEdits, Next, Fitting, VerifyPow, BlockBytes, BlockFits, TxOk, AllIns, MerkleRoot;
  }

  // Steps and runs.

  /** Where a block that is linked gets stored. */
  function PlacedAt(c: Suite, now: int, s: State, height: U32, b: Block): Entry
    requires BlockFits(b) && LinkEdits(c, s.db, height, b).Ok? && s.blk != [] && s.rev != []
    requires Commit(c, now, s, height, b).1.Ok?
  {
    Entry(b, Pushed(s.blk, MAX_FILE_SIZE, BlockBytes(b)).1.value,
          Pushed(s.rev, MAX_FILE_SIZE, UndoLog(c, s.db, height, b)).1.value, now)
  }

  lemma Committed(c: Suite, now: int, s: State, height: U32, b: Block)
    requires BlockFits(b) && LinkEdits(c, s.db, height, b).Ok? && s.blk != [] && s.rev != []
    requires Commit(c, now, s, height, b).1.Ok?
    ensures var (next, r), e := Commit(c, now, s, height, b), PlacedAt(c, now, s, height, b);
            && e.block == b && e.now == now
            && next.db == Written(c, s.db, height, e) && r == Ok(Best(BlockId(c, b), height))
            && Extends(s.blk, next.blk) && Extends(s.rev, next.rev)
            && Pulled(next.blk, e.at) == Ok(BlockBytes(b))
            && Pulled(next.rev, e.undo) == Ok(UndoLog(c, s.db, height, b))
  {
    hide BlockFits, LinkEdits, BlockBytes, UndoLog, Written, Extends, Pulled, Pushed, BlockId;
    PushedStep(s.blk, MAX_FILE_SIZE, BlockBytes(b));
    PushedStep(s.rev, MAX_FILE_SIZE, UndoLog(c, s.db, height, b));
  }

  /** The entry a successful link adds to the chain. */
  function Placed(conf: Conf, now: int, s: State, b: Block): Entry
    requires s.blk != [] && s.rev != [] && Link(conf, now, s, b).1.Ok?
  {
    AcceptableFits(conf, now, s.db, BodiesOf(s), b);
    PlacedAt(conf.c, now, s, Next(conf, s.db).value.height, b)
  }

  /** Dropping the last block of a consistent state. */
  lemma UnstackedConsistent(conf: Conf, es: Blocks32, s: State, db: Db)
    requires Consistent(conf, es, s) && es != [] && db == DbBelow(conf.c, es)
    ensures Consistent(conf, es[..|es| - 1], s.(db := db))
  {
    hide Grown, Replay, Held;
    var c, less := conf.c, es[..|es| - 1];
    GrownPrefix(conf, es, |es| - 1);
    forall n | 0 < n <= |less| ensures Held(c, less[..n], s.blk, s.rev) {
      assert less[..n] == es[..n];
      assert Held(c, es[..n], s.blk, s.rev);
    }
  }

  /** The first block is the configured one, and no other block has its id. */
  lemma GenesisFirst(conf: Conf, es: Blocks32, h: nat)
    requires Grown(conf, es) && h < |es|
    ensures IdOf(conf.c, es[h]) == conf.genesis <==> h == 0
  {
    hide Grown, Replay, Topped, Fitting, Proper, Follows, AmountsOk, LinkEdits, EntryBodies;
    var first := es[..1];
    GrownPrefix(conf, es, 1);
    assert first[0] == es[0] && first[..0] == [];
    TopLinks(conf, first);
    TipIs(conf.c, []);
    FollowsNothing(conf, BodiesBelow(conf.c, first), es[0].block);
    IdIndexed(conf, es, 0);
    IdIndexed(conf, es, h);
  }

  lemma FollowsNothing(conf: Conf, bodies: Bodies, b: Block)
    requires Follows(conf, Replay(conf.c, []), bodies, b)
    ensures BlockId(conf.c, b) == conf.genesis
  {
    ReplayNone(conf.c);
    hide BlockId;
  }

  /** Popping succeeds exactly when there is more than the first block and the last one can be read; it returns what
      is read and leaves the database of the chain without that block. A failed pop changes nothing. */
  lemma PopStep(conf: Conf, es: Blocks32, s: State)
    requires Consistent(conf, es, s)
    ensures Pop(conf, s).1 == if |es| > 1 then Reread(TopOf(es).block) else Err
    ensures if Pop(conf, s).1.Ok?
            then es != [] && Pop(conf, s).0 == s.(db := DbBelow(conf.c, es))
                 && Consistent(conf, es[..|es| - 1], Pop(conf, s).0)
            else Pop(conf, s).0 == s
  {
    hide Consistent, Grown, Replay, Body, UndoOf, Applied, IdOf, Pulled, EntryBodies, Reread;
    ConsistentParts(conf, es, s);
    TipIs(conf.c, es);
    if es != [] {
      GenesisFirst(conf, es, |es| - 1);
      if |es| > 1 {
        PopReads(conf, es, s);
        UnstackedConsistent(conf, es, s, DbBelow(conf.c, es));
      }
    }
  }

  lemma PopReads(conf: Conf, es: Blocks32, s: State)
    requires Consistent(conf, es, s) && es != []
    ensures var k := HashKey(IdOf(conf.c, TopOf(es)));
            && Body(s, k) == Reread(TopOf(es).block)
            && k in s.db && s.db[k].BlkV? && Pulled(s.rev, s.db[k].blk.rev).Ok?
            && var undo := UndoOf(Pulled(s.rev, s.db[k].blk.rev).value);
               undo.Ok? && Applied(undo.value + [Del(k)], s.db) == DbBelow(conf.c, es)
  {
    hide Consistent, Grown, Replay, Body, UndoOf, Applied, IdOf, Pulled, EntryBodies,
         Held, LogOf, LinkEdits, UndoLog, Proper;
    hide Fitting, AmountsOk, Follows, Reread;
    var c, e, n := conf.c, TopOf(es), |es| - 1;
    var k := HashKey(IdOf(c, e));
    ConsistentParts(conf, es, s);
    IdIndexed(conf, es, n);
    BodyIs(conf, es, s, k);
    BodiesAre(conf, es, k);
    HeldTop(conf, es, s);
    GrownPrefix(conf, es, n);
    TopFits(conf, es);
    TopLinks(conf, es);
    NewId(conf, es);
    HeldLog(c, es, s.blk, s.rev);
    ExactRollback(conf, es[..n], e);
    assert es[..n] + [e] == es;
    ReplayMore(c, es[..n], e);
  }

  lemma NewId(conf: Conf, es: Blocks32)
    requires es != [] && Grown(conf, es)
    ensures HashKey(IdOf(conf.c, TopOf(es))) !in DbBelow(conf.c, es)
  {
    hide BlockOk, VerifyPow, Replay, Fitting, Next, EntryBodies;
    TopFits(conf, es);
  }

  lemma HeldLog(c: Suite, es: Blocks32, blk: Files, rev: Files)
    requires es != [] && Held(c, es, blk, rev) && LinkEdits(c, DbBelow(c, es), |es| - 1, TopOf(es).block).Ok?
    ensures Pulled(rev, TopOf(es).undo) == Ok(UndoLog(c, DbBelow(c, es), |es| - 1, TopOf(es).block))
  {
    hide LinkEdits, UndoLog, Replay, Pulled, BlockBytes, BlockFits;
  }

  datatype Event = Linking(now: int, b: Block) | Popping

  /** One call, successful or not. */
  function Step(conf: Conf, s: State, ev: Event): (r: State)
    requires s.blk != [] && s.rev != []
    ensures r.blk != [] && r.rev != []
  {
    match ev
    case Linking(now, b) => LinkKeepsFiles(conf, now, s, b); Link(conf, now, s, b).0
    case Popping => Pop(conf, s).0
  }

  lemma LinkKeepsFiles(conf: Conf, now: int, s: State, b: Block)
    requires s.blk != [] && s.rev != []
    ensures Link(conf, now, s, b).0.blk != [] && Link(conf, now, s, b).0.rev != []
  {
    hide Acceptable, Written, UndoLog, BlockBytes, Next;
  }

  function Run(conf: Conf, evs: seq<Event>): (r: State)
    ensures r.blk != [] && r.rev != []
  {
    if evs == [] then EMPTY else Step(conf, Run(conf, evs[..|evs| - 1]), evs[|evs| - 1])
  }

  function Grow(conf: Conf, s: State, es: seq<Entry>, ev: Event): seq<Entry>
    requires s.blk != [] && s.rev != []
  {
    match ev
    case Linking(now, b) => if Link(conf, now, s, b).1.Ok? then es + [Placed(conf, now, s, b)] else es
    case Popping => if Pop(conf, s).1.Ok? && es != [] then es[..|es| - 1] else es
  }

  /** The chain a run of calls builds: linked blocks pushed, popped blocks dropped. */
  function History(conf: Conf, evs: seq<Event>): seq<Entry> {
    if evs == [] then []
    else
      var before := evs[..|evs| - 1];
      Grow(conf, Run(conf, before), History(conf, before), evs[|evs| - 1])
  }

  /** A successful link puts one block on top of the chain; a failed one changes nothing. */
  lemma LinkStep(conf: Conf, es: Blocks32, now: int, s: State, b: Block)
    requires Consistent(conf, es, s) && s.blk != [] && s.rev != []
    ensures |Grow(conf, s, es, Linking(now, b))| <= 0x1_0000_0000
    ensures Consistent(conf, Grow(conf, s, es, Linking(now, b)), Step(conf, s, Linking(now, b)))
    ensures Link(conf, now, s, b).1 == Err ||
            Link(conf, now, s, b).1 == Ok(Best(BlockId(conf.c, b), |es| % 0x1_0000_0000))
  {
    hide Acceptable, Consistent, Grown, Written, UndoLog, LinkEdits, Next, BlockFits, BlockBytes,
         Commit, PlacedAt, Replay;
    hide EntryBodies, BodiesOf, Extends, Pulled, BlockId;
    LinkAtomic(conf, now, s, b);
    if Link(conf, now, s, b).1.Ok? {
      ConsistentParts(conf, es, s);
      BodiesMatch(conf, es, s);
      AcceptableFits(conf, now, s.db, BodiesOf(s), b);
      NextHeight(conf, es);
      Committed(conf.c, now, s, |es|, b);
      var e := Placed(conf, now, s, b);
      GrownNext(conf, es, e);
      var next := Link(conf, now, s, b).0;
      StackedConsistent(conf, es, s, e, next.blk, next.rev);
    }
  }

  /** Popping right after linking undoes it: the database is the one before, to the last record. The block itself is
      returned exactly if none of its lists is longer than its sixteen-bit count; otherwise popping may fail or return
      another block. */
  lemma LinkThenPop(conf: Conf, es: Blocks32, now: int, s: State, b: Block)
    requires Consistent(conf, es, s) && s.blk != [] && s.rev != [] && es != []
    ensures var (mid, linked) := Link(conf, now, s, b);
            var (end, popped) := Pop(conf, mid);
            || linked == Err
            || ((popped == Ok(b) <==> BlockCounts(b)) && (popped.Ok? ==> end.db == s.db))
  {
    hide Consistent, Link, Pop, Replay, Reread, BlockCounts, Placed, Grown, Acceptable, BlockFits, BodiesOf;
    LinkStep(conf, es, now, s, b);
    LinkAtomic(conf, now, s, b);
    if Link(conf, now, s, b).1.Ok? {
      var more, mid := es + [Placed(conf, now, s, b)], Link(conf, now, s, b).0;
      StepIsLink(conf, s, now, b);
      PlacedBlock(conf, now, s, b);
      assert more[..|more| - 1] == es && TopOf(more).block == b;
      AcceptableFits(conf, now, s.db, BodiesOf(s), b);
      PopStep(conf, more, mid);
      ConsistentParts(conf, es, s);
      RereadIs(b);
    }
  }

  lemma PlacedBlock(conf: Conf, now: int, s: State, b: Block)
    requires s.blk != [] && s.rev != [] && Link(conf, now, s, b).1.Ok?
    ensures Placed(conf, now, s, b).block == b
  {
    hide Acceptable, UndoLog, BlockBytes, Next, Written, LinkEdits, BlockFits;
  }

  lemma StepIsLink(conf: Conf, s: State, now: int, b: Block)
    requires s.blk != [] && s.rev != []
    ensures Step(conf, s, Linking(now, b)) == Link(conf, now, s, b).0
  {
    hide Link;
  }

  lemma StepKeeps(conf: Conf, es: Blocks32, s: State, ev: Event)
    requires Consistent(conf, es, s) && s.blk != [] && s.rev != []
    ensures |Grow(conf, s, es, ev)| <= 0x1_0000_0000
    ensures Consistent(conf, Grow(conf, s, es, ev), Step(conf, s, ev))
  {
    hide Consistent, Link, Pop, Placed;
    match ev
    case Linking(now, b) => LinkStep(conf, es, now, s, b);
    case Popping => PopStep(conf, es, s);
  }

  /** The index refines replay: after every run of links and pops, successful or failed, the database is the one that
      replaying the current blocks from nothing builds, and every block and undo log of the chain can be read. */
  lemma {:induction false} IndexRefinesReplay(conf: Conf, evs: seq<Event>)
    ensures |History(conf, evs)| <= 0x1_0000_0000
    ensures Consistent(conf, History(conf, evs), Run(conf, evs))
  {
    hide Consistent, Step, Grow;
    if evs == [] {
      EmptyConsistent(conf);
    } else {
      var before, ev := evs[..|evs| - 1], evs[|evs| - 1];
      IndexRefinesReplay(conf, before);
      StepKeeps(conf, History(conf, before), Run(conf, before), ev);
    }
  }

  lemma EmptyConsistent(conf: Conf)
    ensures Consistent(conf, [], EMPTY)
  {
    ReplayNone(conf.c);
    hide Replay, Topped, Held;
  }

  // When the last block cannot be read.

  /** No block is accepted on top of one that cannot be read back: the header to follow is looked up in its body. */
  lemma NothingFollows(conf: Conf, es: Blocks32, now: int, b: Block)
    requires Grown(conf, es) && es != [] && Reread(TopOf(es).block).Err?
    ensures !Acceptable(conf, now, Replay(conf.c, es), EntryBodies(conf.c, es), b)
  {
    hide Grown, Replay, EntryBodies, Reread, Proper, AmountsOk, LinkEdits, Next, IdOf;
    TipIs(conf.c, es);
    IdIndexed(conf, es, |es| - 1);
    BodiesAre(conf, es, HashKey(IdOf(conf.c, TopOf(es))));
  }

  /** A chain whose last block cannot be read back is stuck: no call changes anything any more. */
  lemma Stuck(conf: Conf, es: Blocks32, s: State, ev: Event)
    requires Consistent(conf, es, s) && s.blk != [] && s.rev != []
    requires es != [] && Reread(TopOf(es).block).Err?
    ensures Step(conf, s, ev) == s
  {
    hide Consistent, Grown, Replay, EntryBodies, BodiesOf, Reread, Acceptable, Link, Pop;
    ConsistentParts(conf, es, s);
    match ev
    case Linking(now, b) =>
      BodiesMatch(conf, es, s);
      NothingFollows(conf, es, now, b);
      LinkAtomic(conf, now, s, b);
    case Popping => PopStep(conf, es, s);
  }

  /** So once a run has linked such a block, it stays in that state whatever follows. */
  lemma {:induction false} StuckForGood(conf: Conf, evs: seq<Event>, more: seq<Event>)
    ensures |History(conf, evs)| <= 0x1_0000_0000
    ensures History(conf, evs) != [] && Reread(TopOf(History(conf, evs)).block).Err? ==>
              Run(conf, evs + more) == Run(conf, evs)
  {
    hide Consistent, Step, Reread, History;
    IndexRefinesReplay(conf, evs);
    if more == [] {
      assert evs + more == evs;
    } else {
      var n := |more| - 1;
      StuckForGood(conf, evs, more[..n]);
      assert (evs + more)[..|evs| + n] == evs + more[..n];
      if History(conf, evs) != [] && Reread(TopOf(History(conf, evs)).block).Err? {
        Stuck(conf, History(conf, evs), Run(conf, evs), more[n]);
      }
    }
  }
}
