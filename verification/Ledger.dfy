/** src/index.rs, the chain index as values: what is stored under which key, and what linking and popping a block do
    to the database and to the two stores. */
module Ledger {
  import opened Common
  import opened Iobuf
  import opened Crypto
  import opened Scripts
  import opened Blocks
  import Difficulty
  import opened Journal
  import Signing
  import opened Storage

  // Stored records.

  datatype Best = Best(id: Hash, height: U32)
  datatype TxAttr = TxAttr(blk: Hash, idx: U16)
  datatype BlkAttr = BlkAttr(bhv: Header, hhv: U32, blk: Attr, rev: Attr)
  /** An unspent output; flag bit 0 marks a coinbase output. */
  datatype Coin = Coin(value: I64, flags: Byte, height: U32)

  /** Block ids and transaction ids share one kind of key. */
  datatype Key = BestKey | HeightKey(h: U32) | HashKey(id: Hash) | CoinKey(cpk: Hash, tx: Hash, idx: U16)
  datatype Value = BestV(best: Best) | IdV(id: Hash) | TxV(tx: TxAttr) | BlkV(blk: BlkAttr) | CoinV(coin: Coin)
  type Db = map<Key, Value>

  const FLAG_COINBASE: Byte := 1
  const COINBASE_MATURITY := 100
  const MAX_FILE_SIZE := 1024 * 1024 * 512

  const BEST_KEY: Bytes := [95, 95, 98, 101, 115, 116, 95, 95, 107, 101, 121, 95, 95]

  function KeyBytes(k: Key): (r: Bytes)
    ensures |r| <= 66
  {
    match k
    case BestKey => BEST_KEY
    case HeightKey(h) => LE(h, 4)
    case HashKey(id) => id
    case CoinKey(cpk, tx, idx) => cpk + tx + LE(idx, 2)
  }

  function KeyOf(b: Bytes): Option<Key> {
    if b == BEST_KEY then Some(BestKey)
    else if |b| == 4 then Powers(); Some(HeightKey(UnLE(b)))
    else if |b| == 32 then Some(HashKey(b))
    else if |b| == 66 then Powers(); Some(CoinKey(b[..32], b[32..64], UnLE(b[64..])))
    else None
  }

  lemma KeyBack(k: Key)
    ensures KeyOf(KeyBytes(k)) == Some(k)
  {
    Powers();
    match k
    case HeightKey(h) => UnLEofLE(h, 4);
    case CoinKey(cpk, tx, idx) =>
      UnLEofLE(idx, 2);
      var b := cpk + tx + LE(idx, 2);
      assert b[..32] == cpk && b[32..64] == tx && b[64..] == LE(idx, 2);
    case _ =>
  }

  function AttrBytes(a: Attr): (r: Bytes)
    ensures |r| == 12
  {
    LE(a.idx, 4) + LE(a.off, 4) + LE(a.len, 4)
  }

  function ValueBytes(v: Value): (r: Bytes)
    ensures |r| <= 108
  {
    match v
    case BestV(b) => b.id + LE(b.height, 4)
    case IdV(id) => id
    case TxV(t) => t.blk + LE(t.idx, 2)
    case BlkV(a) => HeaderBytes(a.bhv) + LE(a.hhv, 4) + AttrBytes(a.blk) + AttrBytes(a.rev)
    case CoinV(c) => I64Bytes(c.value) + [c.flags] + LE(c.height, 4)
  }

  function ReadBest(s: Bytes): Result<Best> {
    var id :- ReadHash(s);
    var h :- ReadU32(id.rest);
    Ok(Best(id.value, h.value))
  }

  function ReadTxAttr(s: Bytes): Result<TxAttr> {
    var blk :- ReadHash(s);
    var idx :- ReadU16(blk.rest);
    Ok(TxAttr(blk.value, idx.value))
  }

  function ReadAttr(s: Bytes): Result<Parsed<Attr>> {
    var idx :- ReadU32(s);
    var off :- ReadU32(idx.rest);
    var len :- ReadU32(off.rest);
    Ok(Parsed(Attr(idx.value, off.value, len.value), len.rest))
  }

  function ReadBlkAttr(s: Bytes): Result<BlkAttr> {
    var bhv :- ReadHeader(s);
    var hhv :- ReadU32(bhv.rest);
    var blk :- ReadAttr(hhv.rest);
    var rev :- ReadAttr(blk.rest);
    Ok(BlkAttr(bhv.value, hhv.value, blk.value, rev.value))
  }

  function ReadCoin(s: Bytes): Result<Coin> {
    var v :- ReadAmount(s);
    if v.rest == [] then Err
    else
      var h :- ReadU32(v.rest[1..]);
      Ok(Coin(v.value, v.rest[0], h.value))
  }

  /** The kinds of value have different lengths. */
  function ValueOf(b: Bytes): Option<Value> {
    if |b| == 36 && ReadBest(b).Ok? then Some(BestV(ReadBest(b).value))
    else if |b| == 32 then Some(IdV(b))
    else if |b| == 34 && ReadTxAttr(b).Ok? then Some(TxV(ReadTxAttr(b).value))
    else if |b| == 108 && ReadBlkAttr(b).Ok? then Some(BlkV(ReadBlkAttr(b).value))
    else if |b| == 13 && ReadCoin(b).Ok? then Some(CoinV(ReadCoin(b).value))
    else None
  }

  predicate AttrFits(a: Attr) {
    a.idx < 0x1_0000_0000 && a.off < 0x1_0000_0000 && a.len < 0x1_0000_0000
  }

  /** Every record reads back whose places fit 32 bits. */
  lemma ValueBack(v: Value)
    requires v.BlkV? ==> AttrFits(v.blk.blk) && AttrFits(v.blk.rev)
    ensures ValueOf(ValueBytes(v)) == Some(v)
  {
    hide ReadBest, ReadTxAttr, ReadBlkAttr, ReadCoin, HeaderBytes, LE, I64Bytes, AttrBytes;
    match v
    case BestV(b) => BestBack(b);
    case IdV(_) =>
    case TxV(t) => TxAttrBack(t);
    case BlkV(a) => BlkAttrBack(a);
    case CoinV(c) => CoinBack(c);
  }

  lemma TxAttrBack(t: TxAttr)
    ensures ReadTxAttr(t.blk + LE(t.idx, 2)) == Ok(t)
  {
    HashBack(t.blk, LE(t.idx, 2));
    U16Back(t.idx, []);
    assert LE(t.idx, 2) + [] == LE(t.idx, 2);
    hide ReadHash, ReadU16, LE;
  }

  lemma AttrBack(a: Attr, t: Bytes)
    requires AttrFits(a)
    ensures ReadAttr(AttrBytes(a) + t) == Ok(Parsed(a, t))
  {
    var s2 := LE(a.len, 4) + t;
    var s1 := LE(a.off, 4) + s2;
    assert AttrBytes(a) + t == LE(a.idx, 4) + s1;
    U32Back(a.idx, s1);
    U32Back(a.off, s2);
    U32Back(a.len, t);
    hide ReadU32, LE, AttrBytes;
  }

  lemma BlkAttrBack(a: BlkAttr)
    requires AttrFits(a.blk) && AttrFits(a.rev)
    ensures ReadBlkAttr(HeaderBytes(a.bhv) + LE(a.hhv, 4) + AttrBytes(a.blk) + AttrBytes(a.rev)) == Ok(a)
  {
    var s3 := AttrBytes(a.rev) + [];
    var s2 := AttrBytes(a.blk) + s3;
    var s1 := LE(a.hhv, 4) + s2;
    RecordShape(HeaderBytes(a.bhv), LE(a.hhv, 4), AttrBytes(a.blk), AttrBytes(a.rev));
    HeaderBack(a.bhv, s1);
    U32Back(a.hhv, s2);
    AttrBack(a.blk, s3);
    AttrBack(a.rev, []);
    hide ReadHeader, ReadU32, ReadAttr, HeaderBytes, AttrBytes, LE;
  }

  lemma RecordShape(a: Bytes, b: Bytes, d: Bytes, e: Bytes)
    ensures a + b + d + e == a + (b + (d + (e + [])))
  {
  }

  lemma BestBack(b: Best)
    ensures ReadBest(b.id + LE(b.height, 4)) == Ok(b)
  {
    HashBack(b.id, LE(b.height, 4));
    U32Back(b.height, []);
    assert LE(b.height, 4) + [] == LE(b.height, 4);
    hide ReadHash, ReadU32, LE;
  }

  lemma CoinBack(c: Coin)
    ensures ReadCoin(I64Bytes(c.value) + [c.flags] + LE(c.height, 4)) == Ok(c)
  {
    var t := [c.flags] + LE(c.height, 4);
    assert I64Bytes(c.value) + [c.flags] + LE(c.height, 4) == I64Bytes(c.value) + t;
    Powers();
    ReadI64(c.value, t);
    assert t[1..] == LE(c.height, 4) + [];
    U32Back(c.height, []);
    hide I64Bytes, ReadU32, LE, SInt;
  }

  /** A transaction's place is read from the first 34 bytes of a record, whatever follows. */
  lemma TxAttrPrefix(s: Bytes, t: Bytes)
    requires |s| >= 34
    ensures ReadTxAttr(s + t).Ok? && ReadTxAttr(s + t) == ReadTxAttr(s)
  {
    hide UnLE;
    assert (s + t)[..32] == s[..32] && (s + t)[32..] == s[32..] + t;
    assert (s[32..] + t)[..2] == s[32..][..2];
  }

  /** Block attributes are longer than any other record, and need all their bytes. */
  lemma BlkAttrShort(s: Bytes)
    requires |s| < 108
    ensures ReadBlkAttr(s).Err?
  {
    hide UnLE;
  }

  /** The undo log as read back: raw records turned into records of the index. */
  function Typed(ops: seq<RawOp>): Result<seq<Op<Key, Value>>> {
    if ops == [] then Ok([])
    else
      var t :- Typed(ops[..|ops| - 1]);
      var op :- Typed1(ops[|ops| - 1]);
      Ok(t + [op])
  }

  function Typed1(op: RawOp): Result<Op<Key, Value>> {
    if KeyOf(op.k).None? then Err
    else
      match op
      case Put(k, v) => if ValueOf(v).None? then Err else Ok(Put(KeyOf(k).value, ValueOf(v).value))
      case Del(k) => Ok(Del(KeyOf(k).value))
  }

  function RawLog(ops: seq<Op<Key, Value>>): seq<RawOp> {
    Raw(KeyBytes, ValueBytes, ops)
  }

  predicate Logged(ops: seq<Op<Key, Value>>) {
    forall i :: 0 <= i < |ops| && ops[i].Put? ==> ops[i].v.BestV? || ops[i].v.CoinV?
  }

  lemma {:induction false} TypedBack(ops: seq<Op<Key, Value>>)
    requires Logged(ops)
    ensures Typed(RawLog(ops)) == Ok(ops)
  {
    hide KeyOf, KeyBytes, ValueOf, ValueBytes;
    if ops != [] {
      var n := |ops| - 1;
      assert RawLog(ops)[..n] == RawLog(ops[..n]);
      TypedBack(ops[..n]);
      KeyBack(ops[n].k);
      if ops[n].Put? {
        ValueBack(ops[n].v);
      }
      assert ops[..n] + [ops[n]] == ops;
    }
  }

  function UndoOf(buf: Bytes): Result<seq<Op<Key, Value>>> {
    var raw :- ReadLog(buf);
    Typed(raw)
  }

  /** A serialised undo log is read back as the records that went into it. */
  lemma UndoBack(ops: seq<Op<Key, Value>>)
    requires Logged(ops)
    ensures UndoOf(LogBytes(RawLog(ops))) == Ok(ops)
  {
    hide KeyBytes, ValueBytes, LogBytes, ReadLog, Typed;
    forall i | 0 <= i < |ops| ensures Short(RawLog(ops)[i]) {
      KeySize(ops[i]);
    }
    LogBack(RawLog(ops));
    TypedBack(ops);
  }

  lemma KeySize(op: Op<Key, Value>)
    ensures Short(Raw1(KeyBytes, ValueBytes, op))
    ensures |OpBytes(Raw1(KeyBytes, ValueBytes, op))| <= 179
  {
    hide KeyBytes, ValueBytes, LE;
  }

  // What a block writes.

  type Ops = seq<Op<Key, Value>>
  type Edits = seq<Edit<Key, Value>>

  /** The key of the coin an input spends, and that of the coin an output makes; none where the source fails. */
  function SpentKey(c: Suite, inv: TxIn): Option<Key> {
    if CoinbaseIn(inv) || InAddress(c, inv).Err? then None
    else Some(CoinKey(InAddress(c, inv).value, inv.out, inv.idx))
  }

  /** The output number is cut to sixteen bits. */
  function MadeKey(txid: Hash, outs: seq<TxOut>, i: nat): Option<Key>
    requires i < |outs|
  {
    if OutAddress(outs[i]).Err? then None else Some(CoinKey(OutAddress(outs[i]).value, txid, i % 0x1_0000))
  }

  function FlagsOf(tx: Tx): Byte {
    if Coinbase(tx) then FLAG_COINBASE else 0
  }

  function MadeCoin(tx: Tx, height: U32, i: nat): Coin
    requires i < |tx.outs|
  {
    Coin(tx.outs[i].value, FlagsOf(tx), height)
  }

  function OpsOfIns(c: Suite, ins: seq<TxIn>): Ops {
    if ins == [] then []
    else
      var k := SpentKey(c, ins[|ins| - 1]);
      OpsOfIns(c, ins[..|ins| - 1]) + if k.Some? then [Del(k.value)] else []
  }

  /** The first `n` outputs. */
  function OpsOfOuts(txid: Hash, tx: Tx, height: U32, n: nat): Ops
    requires n <= |tx.outs|
  {
    if n == 0 then []
    else
      var k := MadeKey(txid, tx.outs, n - 1);
      OpsOfOuts(txid, tx, height, n - 1) + if k.Some? then [Put(k.value, CoinV(MadeCoin(tx, height, n - 1)))] else []
  }

  function OpsOfTx(c: Suite, id: Hash, height: U32, i: nat, tx: Tx): Ops {
    if TxId(c, tx).Err? then []
    else
      [Put(HashKey(TxId(c, tx).value), TxV(TxAttr(id, i % 0x1_0000)))] + OpsOfIns(c, tx.ins) +
      OpsOfOuts(TxId(c, tx).value, tx, height, |tx.outs|)
  }

  function OpsOfTxs(c: Suite, id: Hash, height: U32, txs: seq<Tx>): Ops {
    if txs == [] then []
    else OpsOfTxs(c, id, height, txs[..|txs| - 1]) + OpsOfTx(c, id, height, |txs| - 1, txs[|txs| - 1])
  }

  /** A block of a chain, where its bytes and its undo log are stored, and the clock when it was linked. */
  datatype Entry = Entry(block: Block, at: Attr, undo: Attr, now: int)

  function IdOf(c: Suite, e: Entry): Hash {
    BlockId(c, e.block)
  }

  function OpsOfBlock(c: Suite, height: U32, e: Entry): Ops {
    var id := IdOf(c, e);
    [Put(BestKey, BestV(Best(id, height)))] + [Put(HeightKey(height), IdV(id))] +
    OpsOfTxs(c, id, height, e.block.txs) +
    [Put(HashKey(id), BlkV(BlkAttr(e.block.header, height, e.at, e.undo)))]
  }

  /** A list of blocks a 32-bit height can number. */
  type Blocks32 = es: seq<Entry> | |es| <= 0x1_0000_0000

  /** The database a list of blocks makes, replayed from nothing. */
  function Replay(c: Suite, es: Blocks32): Db {
    if es == [] then map[]
    else Applied(OpsOfBlock(c, |es| - 1, es[|es| - 1]), Replay(c, es[..|es| - 1]))
  }

  // What linking asks of its batch, given the database before it.

  function BestOf(db: Db): Result<Best> {
    if BestKey in db && db[BestKey].BestV? then Ok(db[BestKey].best) else Err
  }

  /** Coin keys only ever hold coins. */
  function CoinAt(db: Db, k: Key): Result<Coin> {
    if k in db && db[k].CoinV? then Ok(db[k].coin) else Err
  }

  /** Whether a coin may be spent at a height: not if it is marked as still pooled, and coinbase outputs have to age.
      For a coin above the spending height the source's subtraction would wrap. */
  predicate Mature(coin: Coin, spent: U32) {
    && coin.flags / 2 % 2 == 0
    && (coin.flags % 2 == 1 ==> spent - coin.height >= COINBASE_MATURITY)
  }

  function EditsOfIns(c: Suite, db: Db, height: U32, ins: seq<TxIn>): Result<Edits> {
    if ins == [] then Ok([])
    else
      var t :- EditsOfIns(c, db, height, ins[..|ins| - 1]);
      var inv := ins[|ins| - 1];
      if CoinbaseIn(inv) then Ok(t)
      else
        var addr :- InAddress(c, inv);
        var coin :- CoinAt(db, CoinKey(addr, inv.out, inv.idx));
        if !Mature(coin, height) then Err
        else Ok(t + [Remove(CoinKey(addr, inv.out, inv.idx), Some(CoinV(coin)))])
  }

  function EditsOfOuts(txid: Hash, tx: Tx, height: U32, n: nat): Result<Edits>
    requires n <= |tx.outs|
  {
    if n == 0 then Ok([])
    else
      var t :- EditsOfOuts(txid, tx, height, n - 1);
      var addr :- OutAddress(tx.outs[n - 1]);
      Ok(t + [Insert(CoinKey(addr, txid, (n - 1) % 0x1_0000), CoinV(MadeCoin(tx, height, n - 1)))])
  }

  /** `write_tx_index`, after the transaction's own record. */
  function EditsOfTx(c: Suite, db: Db, id: Hash, height: U32, i: nat, tx: Tx): Result<Edits> {
    var txid :- TxId(c, tx);
    if HashKey(txid) in db then Err
    else
      var ins :- EditsOfIns(c, db, height, tx.ins);
      var outs :- EditsOfOuts(txid, tx, height, |tx.outs|);
      Ok([Insert(HashKey(txid), TxV(TxAttr(id, i % 0x1_0000)))] + ins + outs)
  }

  function EditsOfTxs(c: Suite, db: Db, id: Hash, height: U32, txs: seq<Tx>): Result<Edits> {
    if txs == [] then Ok([])
    else
      var t :- EditsOfTxs(c, db, id, height, txs[..|txs| - 1]);
      var last :- EditsOfTx(c, db, id, height, |txs| - 1, txs[|txs| - 1]);
      Ok(t + last)
  }

  function TipEdit(db: Db, next: Best): Edit<Key, Value> {
    match BestOf(db)
    case Ok(top) => Replace(BestKey, BestV(next), BestV(top))
    case Err => Insert(BestKey, BestV(next))
  }

  /** Everything recorded for undoing. */
  function LinkEdits(c: Suite, db: Db, height: U32, b: Block): Result<Edits> {
    var id := BlockId(c, b);
    var txs :- EditsOfTxs(c, db, id, height, b.txs);
    Ok([TipEdit(db, Best(id, height))] + [Insert(HeightKey(height), IdV(id))] + txs)
  }

  // The requests, applied, are the block's operations.

  lemma {:induction false} ForwardIns(c: Suite, db: Db, height: U32, ins: seq<TxIn>)
    requires EditsOfIns(c, db, height, ins).Ok?
    ensures Forward(EditsOfIns(c, db, height, ins).value) == OpsOfIns(c, ins)
  {
    hide InAddress, CoinAt, CoinbaseIn, Forward;
    if ins == [] {
      assert Forward<Key, Value>([]) == [];
    } else {
      var inv := ins[|ins| - 1];
      ForwardIns(c, db, height, ins[..|ins| - 1]);
      if !CoinbaseIn(inv) {
        var k := CoinKey(InAddress(c, inv).value, inv.out, inv.idx);
        var e: Edit<Key, Value> := Remove(k, Some(CoinV(CoinAt(db, k).value)));
        ForwardJoin(EditsOfIns(c, db, height, ins[..|ins| - 1]).value, [e]);
        OneEdit(e);
      } else {
        assert OpsOfIns(c, ins) == OpsOfIns(c, ins[..|ins| - 1]) + [];
      }
    }
  }

  lemma {:induction false} ForwardOuts(txid: Hash, tx: Tx, height: U32, n: nat)
    requires n <= |tx.outs| && EditsOfOuts(txid, tx, height, n).Ok?
    ensures Forward(EditsOfOuts(txid, tx, height, n).value) == OpsOfOuts(txid, tx, height, n)
  {
    hide OutAddress, Forward;
    if n == 0 {
      assert Forward<Key, Value>([]) == [];
    } else {
      ForwardOuts(txid, tx, height, n - 1);
      var k := CoinKey(OutAddress(tx.outs[n - 1]).value, txid, (n - 1) % 0x1_0000);
      var e: Edit<Key, Value> := Insert(k, CoinV(MadeCoin(tx, height, n - 1)));
      ForwardJoin(EditsOfOuts(txid, tx, height, n - 1).value, [e]);
      OneEdit(e);
    }
  }

  lemma ForwardTx(c: Suite, db: Db, id: Hash, height: U32, i: nat, tx: Tx)
    requires EditsOfTx(c, db, id, height, i, tx).Ok?
    ensures Forward(EditsOfTx(c, db, id, height, i, tx).value) == OpsOfTx(c, id, height, i, tx)
  {
    hide TxId, EditsOfIns, EditsOfOuts, OpsOfIns, OpsOfOuts, Forward;
    var txid := TxId(c, tx).value;
    var e: Edit<Key, Value> := Insert(HashKey(txid), TxV(TxAttr(id, i % 0x1_0000)));
    var ins, outs := EditsOfIns(c, db, height, tx.ins).value, EditsOfOuts(txid, tx, height, |tx.outs|).value;
    OneEdit(e);
    ForwardIns(c, db, height, tx.ins);
    ForwardOuts(txid, tx, height, |tx.outs|);
    ForwardJoin([e], ins);
    ForwardJoin([e] + ins, outs);
  }

  lemma {:induction false} ForwardTxs(c: Suite, db: Db, id: Hash, height: U32, txs: seq<Tx>)
    requires EditsOfTxs(c, db, id, height, txs).Ok?
    ensures Forward(EditsOfTxs(c, db, id, height, txs).value) == OpsOfTxs(c, id, height, txs)
  {
    hide EditsOfTx, OpsOfTx, Forward;
    if txs == [] {
      assert Forward<Key, Value>([]) == [];
    } else {
      var before, last := txs[..|txs| - 1], txs[|txs| - 1];
      ForwardTxs(c, db, id, height, before);
      ForwardTx(c, db, id, height, |txs| - 1, last);
      ForwardJoin(EditsOfTxs(c, db, id, height, before).value, EditsOfTx(c, db, id, height, |txs| - 1, last).value);
    }
  }

  /** The record of the block itself, written last and not undone by the log. */
  function IdEdit(c: Suite, height: U32, e: Entry): Edit<Key, Value> {
    Insert(HashKey(IdOf(c, e)), BlkV(BlkAttr(e.block.header, height, e.at, e.undo)))
  }

  /** The requests linking makes write exactly what replay writes. */
  lemma ForwardBlock(c: Suite, db: Db, height: U32, e: Entry)
    requires LinkEdits(c, db, height, e.block).Ok?
    ensures Forward(LinkEdits(c, db, height, e.block).value + [IdEdit(c, height, e)]) == OpsOfBlock(c, height, e)
  {
    hide EditsOfTxs, OpsOfTxs, Forward, BlockId;
    var id := IdOf(c, e);
    var txs := EditsOfTxs(c, db, id, height, e.block.txs).value;
    var tip, h := TipEdit(db, Best(id, height)), Insert(HeightKey(height), IdV(id));
    ForwardTxs(c, db, id, height, e.block.txs);
    OneEdit(tip);
    OneEdit(h);
    OneEdit(IdEdit(c, height, e));
    ForwardJoin([tip], [h]);
    ForwardJoin([tip] + [h], txs);
    ForwardJoin([tip] + [h] + txs, [IdEdit(c, height, e)]);
  }

  // What a block does to each key.

  function SpentBy(c: Suite, ins: seq<TxIn>): set<Key> {
    if ins == [] then {}
    else
      var k := SpentKey(c, ins[|ins| - 1]);
      SpentBy(c, ins[..|ins| - 1]) + if k.Some? then {k.value} else {}
  }

  function MadeBy(txid: Hash, tx: Tx, height: U32, n: nat): Db
    requires n <= |tx.outs|
  {
    if n == 0 then map[]
    else
      var t, k := MadeBy(txid, tx, height, n - 1), MadeKey(txid, tx.outs, n - 1);
      if k.Some? then t[k.value := CoinV(MadeCoin(tx, height, n - 1))] else t
  }

  /** All coins a list of transactions spends, all it makes, and its records under transaction ids. */
  function Spends(c: Suite, txs: seq<Tx>): set<Key> {
    if txs == [] then {}
    else
      var last := txs[|txs| - 1];
      Spends(c, txs[..|txs| - 1]) + if TxId(c, last).Ok? then SpentBy(c, last.ins) else {}
  }

  function Makes(c: Suite, height: U32, txs: seq<Tx>): Db {
    if txs == [] then map[]
    else
      var last := txs[|txs| - 1];
      Makes(c, height, txs[..|txs| - 1]) +
      if TxId(c, last).Ok? then MadeBy(TxId(c, last).value, last, height, |last.outs|) else map[]
  }

  function TxRecords(c: Suite, id: Hash, txs: seq<Tx>): Db {
    if txs == [] then map[]
    else
      var t, last := TxRecords(c, id, txs[..|txs| - 1]), TxId(c, txs[|txs| - 1]);
      if last.Ok? then t[HashKey(last.value) := TxV(TxAttr(id, (|txs| - 1) % 0x1_0000))] else t
  }

  lemma {:induction false} SpentKinds(c: Suite, ins: seq<TxIn>, k: Key)
    requires k in SpentBy(c, ins)
    ensures k.CoinKey?
  {
    hide InAddress, CoinbaseIn;
    if k in SpentBy(c, ins[..|ins| - 1]) {
      SpentKinds(c, ins[..|ins| - 1], k);
    }
  }

  lemma {:induction false} MadeKinds(txid: Hash, tx: Tx, height: U32, n: nat, k: Key)
    requires n <= |tx.outs| && k in MadeBy(txid, tx, height, n)
    ensures k.CoinKey? && k.tx == txid && MadeBy(txid, tx, height, n)[k].CoinV?
    ensures var coin := MadeBy(txid, tx, height, n)[k].coin; coin.height == height && coin.flags == FlagsOf(tx)
  {
    hide OutAddress, FlagsOf;
    if k in MadeBy(txid, tx, height, n - 1) {
      MadeKinds(txid, tx, height, n - 1, k);
    }
  }

  function FateIn(spent: set<Key>, made: Db, k: Key): Fate<Value> {
    if k in made then Became(made[k]) else if k in spent then Gone else Kept
  }

  lemma {:induction false} FateIns(c: Suite, ins: seq<TxIn>, k: Key)
    ensures FateOf(OpsOfIns(c, ins), k) == FateIn(SpentBy(c, ins), map[], k)
  {
    hide SpentKey, FateOf;
    if ins == [] {
      FateNone(k);
    } else {
      var d := SpentKey(c, ins[|ins| - 1]);
      FateIns(c, ins[..|ins| - 1], k);
      FateJoin(OpsOfIns(c, ins[..|ins| - 1]), if d.Some? then [Del(d.value)] else [], k);
      FateNone(k);
      if d.Some? {
        FateOne<Key, Value>(Del(d.value), k);
      }
    }
  }

  lemma FateNone(k: Key)
    ensures FateOf<Key, Value>([], k) == Kept
  {
  }

  lemma {:induction false} FateOuts(txid: Hash, tx: Tx, height: U32, n: nat, k: Key)
    requires n <= |tx.outs|
    ensures FateOf(OpsOfOuts(txid, tx, height, n), k) == FateIn({}, MadeBy(txid, tx, height, n), k)
  {
    hide MadeKey, FateOf, MadeCoin;
    FateNone(k);
    if n > 0 {
      var d, coin := MadeKey(txid, tx.outs, n - 1), CoinV(MadeCoin(tx, height, n - 1));
      FateOuts(txid, tx, height, n - 1, k);
      FateJoin(OpsOfOuts(txid, tx, height, n - 1), if d.Some? then [Put(d.value, coin)] else [], k);
      if d.Some? {
        FateOne(Put(d.value, coin), k);
      }
    }
  }

  lemma FateTx(c: Suite, id: Hash, height: U32, i: nat, tx: Tx, k: Key)
    requires TxId(c, tx).Ok?
    ensures FateOf(OpsOfTx(c, id, height, i, tx), k) ==
            if k == HashKey(TxId(c, tx).value) then Became(TxV(TxAttr(id, i % 0x1_0000)))
            else FateIn(SpentBy(c, tx.ins), MadeBy(TxId(c, tx).value, tx, height, |tx.outs|), k)
  {
    hide TxId, OpsOfIns, OpsOfOuts, FateOf, SpentBy, MadeBy;
    var txid := TxId(c, tx).value;
    var r: Op<Key, Value> := Put(HashKey(txid), TxV(TxAttr(id, i % 0x1_0000)));
    var ins, outs := OpsOfIns(c, tx.ins), OpsOfOuts(txid, tx, height, |tx.outs|);
    FateOne(r, k);
    FateIns(c, tx.ins, k);
    FateOuts(txid, tx, height, |tx.outs|, k);
    FateJoin([r], ins, k);
    FateJoin([r] + ins, outs, k);
    if k in SpentBy(c, tx.ins) {
      SpentKinds(c, tx.ins, k);
    }
    if k in MadeBy(txid, tx, height, |tx.outs|) {
      MadeKinds(txid, tx, height, |tx.outs|, k);
    }
  }

  lemma {:induction false} FateTxs(c: Suite, id: Hash, height: U32, txs: seq<Tx>, k: Key)
    requires k in Makes(c, height, txs) ==> k !in Spends(c, txs)
    ensures FateOf(OpsOfTxs(c, id, height, txs), k) ==
            if k.HashKey? then FateIn({}, TxRecords(c, id, txs), k)
            else FateIn(Spends(c, txs), Makes(c, height, txs), k)
  {
    hide TxId, OpsOfTx, FateOf, SpentBy, MadeBy;
    FateNone(k);
    if txs != [] {
      var before, last := txs[..|txs| - 1], txs[|txs| - 1];
      FateTxs(c, id, height, before, k);
      FateJoin(OpsOfTxs(c, id, height, before), OpsOfTx(c, id, height, |txs| - 1, last), k);
      if TxId(c, last).Ok? {
        FateTx(c, id, height, |txs| - 1, last, k);
        TxKinds(c, last, height, k);
      } else {
        NoOps(c, id, height, |txs| - 1, last, k);
      }
    }
  }

  lemma TxKinds(c: Suite, tx: Tx, height: U32, k: Key)
    requires TxId(c, tx).Ok?
    ensures k in SpentBy(c, tx.ins) ==> k.CoinKey?
    ensures k in MadeBy(TxId(c, tx).value, tx, height, |tx.outs|) ==> k.CoinKey? && k.tx == TxId(c, tx).value
  {
    hide TxId, SpentBy, MadeBy;
    if k in SpentBy(c, tx.ins) {
      SpentKinds(c, tx.ins, k);
    }
    if k in MadeBy(TxId(c, tx).value, tx, height, |tx.outs|) {
      MadeKinds(TxId(c, tx).value, tx, height, |tx.outs|, k);
    }
  }

  lemma NoOps(c: Suite, id: Hash, height: U32, i: nat, tx: Tx, k: Key)
    requires TxId(c, tx).Err?
    ensures FateOf(OpsOfTx(c, id, height, i, tx), k) == Kept
  {
    hide TxId;
  }

  /** What a block leaves under a key. */
  function AfterBlock(c: Suite, height: U32, e: Entry, was: Option<Value>, k: Key): Option<Value> {
    var id := IdOf(c, e);
    match k
    case BestKey => Some(BestV(Best(id, height)))
    case HeightKey(h) => if h == height then Some(IdV(id)) else was
    case HashKey(t) =>
      if t == id then Some(BlkV(BlkAttr(e.block.header, height, e.at, e.undo)))
      else if k in TxRecords(c, id, e.block.txs) then Some(TxRecords(c, id, e.block.txs)[k])
      else was
    case CoinKey(_, _, _) =>
      if k in Makes(c, height, e.block.txs) then Some(Makes(c, height, e.block.txs)[k])
      else if k in Spends(c, e.block.txs) then None
      else was
  }

  lemma BlockAt(c: Suite, height: U32, e: Entry, db: Db, k: Key)
    requires k in Makes(c, height, e.block.txs) ==> k !in Spends(c, e.block.txs)
    ensures Get(Applied(OpsOfBlock(c, height, e), db), k) == AfterBlock(c, height, e, Get(db, k), k)
  {
    hide OpsOfTxs, FateOf, Applied, TxRecords, Makes, Spends, IdOf;
    var id := IdOf(c, e);
    var tip: Op<Key, Value>, h: Op<Key, Value> := Put(BestKey, BestV(Best(id, height))),
          Put(HeightKey(height), IdV(id));
    var last: Op<Key, Value> := Put(HashKey(id), BlkV(BlkAttr(e.block.header, height, e.at, e.undo)));
    var txs := OpsOfTxs(c, id, height, e.block.txs);
    FateOne(tip, k);
    FateOne(h, k);
    FateOne(last, k);
    FateTxs(c, id, height, e.block.txs, k);
    FateJoin([tip], [h], k);
    FateJoin([tip] + [h], txs, k);
    FateJoin([tip] + [h] + txs, [last], k);
    AppliedAt(OpsOfBlock(c, height, e), db, k);
    CoinsOnly(c, height, e.block.txs, k);
  }

  lemma {:induction false} CoinsOnly(c: Suite, height: U32, txs: seq<Tx>, k: Key)
    ensures k in Makes(c, height, txs) || k in Spends(c, txs) ==> k.CoinKey?
  {
    hide TxId, SpentBy, MadeBy;
    if txs != [] {
      CoinsOnly(c, height, txs[..|txs| - 1], k);
      if TxId(c, txs[|txs| - 1]).Ok? {
        TxKinds(c, txs[|txs| - 1], height, k);
      }
    }
  }
}
