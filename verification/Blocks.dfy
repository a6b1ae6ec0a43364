/** src/block.rs: transactions, blocks, their ids, byte forms and the checks that need no chain. */
module Blocks {
  import opened Common
  import opened Iobuf
  import opened Crypto
  import Accounts
  import opened Scripts
  import Merkle

  const COIN := 1000000
  const MAX_MONEY := 21000000 * COIN
  const MAX_TX_COUNT := 0xFFFF
  const MAX_BLOCK_SIZE := 1024 * 1024 * 4
  const BASE_TIME := 1577836800

  datatype TxIn = TxIn(out: Hash, idx: U16, script: Bytes, seqno: U32)
  datatype TxOut = TxOut(value: I64, script: Bytes)
  datatype Tx = Tx(ver: U32, ins: seq<TxIn>, outs: seq<TxOut>)
  datatype Header = Header(ver: U32, prev: Hash, merkle: Hash, time: U32, bits: U32, nonce: U32)
  datatype Block = Block(header: Header, txs: seq<Tx>)

  /** The output an input spends. */
  datatype OutPoint = OutPoint(out: Hash, idx: U16)

  function Point(inv: TxIn): OutPoint {
    OutPoint(inv.out, inv.idx)
  }

  predicate ValidAmount(v: int) {
    0 <= v <= MAX_MONEY
  }

  predicate CoinbaseIn(inv: TxIn) {
    inv.out == ZERO_HASH && inv.idx == 0 && GetType(inv.script) == Ok(TYPE_CB)
  }

  predicate Coinbase(tx: Tx) {
    |tx.ins| > 0 && CoinbaseIn(tx.ins[0])
  }

  // Ids and signed forms.

  /** The environment ids are computed in; in the source reaching it is a panic. */
  function Refuse(e: Ele): Result<bool> {
    Err
  }

  /** What ids and signatures commit to of a script: all of it, but only the keys of an input script. */
  function ScriptSign(c: Suite, s: Bytes): Result<Bytes> {
    var t :- GetType(s);
    if t == TYPE_CB || t == TYPE_OUT then Ok(s)
    else if t == TYPE_IN then
      var a :- ScriptAccount(c, s);
      var e :- Accounts.EncodeSign(a);
      Ok([OP_TYPE, TYPE_IN] + e)
    else Err
  }

  /** The account an input script leaves on top of the stack. */
  function ScriptAccount(c: Suite, s: Bytes): Result<Accounts.Acc> {
    var r :- Run(c, Refuse, FRESH, s);
    if |r.m.eles| < 1 || !Top(r.m, 1).Data? then Err else Accounts.FromBytes(c, Top(r.m, 1).d)
  }

  function InSign(c: Suite, inv: TxIn): Result<Bytes> {
    var s :- ScriptSign(c, inv.script);
    Ok(inv.out + LE(inv.idx, 2) + s + LE(inv.seqno, 4))
  }

  function OutSign(c: Suite, outv: TxOut): Result<Bytes> {
    var s :- ScriptSign(c, outv.script);
    Ok(I64Bytes(outv.value) + s)
  }

  function InsSign(c: Suite, ins: seq<TxIn>): Result<Bytes> {
    if ins == [] then Ok([])
    else
      var t :- InsSign(c, ins[..|ins| - 1]);
      var h :- InSign(c, ins[|ins| - 1]);
      Ok(t + h)
  }

  function OutsSign(c: Suite, outs: seq<TxOut>): Result<Bytes> {
    if outs == [] then Ok([])
    else
      var t :- OutsSign(c, outs[..|outs| - 1]);
      var h :- OutSign(c, outs[|outs| - 1]);
      Ok(t + h)
  }

  function TxSign(c: Suite, tx: Tx): Result<Bytes> {
    var ins :- InsSign(c, tx.ins);
    var outs :- OutsSign(c, tx.outs);
    Ok(LE(tx.ver, 4) + LE(|tx.ins|, 2) + ins + LE(|tx.outs|, 2) + outs)
  }

  function TxId(c: Suite, tx: Tx): Result<Hash> {
    var s :- TxSign(c, tx);
    Ok(c.hash(s))
  }

  function TxIds(c: Suite, txs: seq<Tx>): Result<seq<Hash>> {
    if txs == [] then Ok([])
    else
      var t :- TxIds(c, txs[..|txs| - 1]);
      var h :- TxId(c, txs[|txs| - 1]);
      Ok(t + [h])
  }

  lemma {:induction false} TxIdsEach(c: Suite, txs: seq<Tx>)
    ensures TxIds(c, txs).Ok? <==> forall i :: 0 <= i < |txs| ==> TxId(c, txs[i]).Ok?
    ensures TxIds(c, txs).Ok? ==>
              |TxIds(c, txs).value| == |txs| &&
              forall i :: 0 <= i < |txs| ==> TxId(c, txs[i]) == Ok(TxIds(c, txs).value[i])
  {
    hide TxId;
    if txs != [] {
      TxIdsEach(c, txs[..|txs| - 1]);
    }
  }

  function HeaderBytes(h: Header): (r: Bytes)
    ensures |r| == 80
  {
    LE(h.ver, 4) + h.prev + h.merkle + LE(h.time, 4) + LE(h.bits, 4) + LE(h.nonce, 4)
  }

  function BlockId(c: Suite, b: Block): Hash {
    c.hash(HeaderBytes(b.header))
  }

  function Pair(c: Suite): (Hash, Hash) -> Hash {
    (l: Hash, r: Hash) => c.hash(l + r)
  }

  /** `compute_merkle`; of no transactions the source's tree is rejected. */
  function MerkleRoot(c: Suite, txs: seq<Tx>): Result<Hash> {
    var ids :- TxIds(c, txs);
    if |ids| == 0 then Err else Ok(Merkle.Reduce(Pair(c), ids))
  }

  function Timestamp(h: Header): int {
    h.ver / 0x1_0000 * BASE_TIME + h.time
  }

  /** `set_timestamp`: the time as so many epochs of fifty years and a rest, cut to sixteen and 32 bits. Division is
      towards zero. */
  function Stamped(h: Header, now: int): Header {
    var r := if now >= 0 then now / BASE_TIME else -(-now / BASE_TIME);
    h.(ver := r % 0x1_0000 * 0x1_0000 + h.ver % 0x1_0000, time := (now - r * BASE_TIME) % 0x1_0000_0000)
  }

  /** A time set is the time read back exactly if sixteen bits can count its epochs; the version stays as it was. */
  lemma StampBack(h: Header, now: int)
    ensures Timestamp(Stamped(h, now)) == now <==> 0 <= now < 0x1_0000 * 1_577_836_800
    ensures Stamped(h, now).ver % 0x1_0000 == h.ver % 0x1_0000
  {
    var r := if now >= 0 then now / BASE_TIME else -(-now / BASE_TIME);
    assert Stamped(h, now).ver / 0x1_0000 == r % 0x1_0000;
  }

  // Addresses.

  /** `Hasher::with_bytes`: short input goes to the end, input over 32 bytes is a panic. */
  function WithBytes(d: Bytes): Result<Hash> {
    if |d| > 32 then Err else Ok(seq(32 - |d|, i => 0) + d)
  }

  function InAddress(c: Suite, inv: TxIn): Result<Hash> {
    var s := inv.script;
    if !Checked(s) || GetType(s) != Ok(TYPE_IN) || |s| < 3 then Err
    else
      var d :- ReadBinary(s[2], s[3..]);
      var a :- Accounts.FromBytes(c, d.value);
      Accounts.AddressOf(c, a)
  }

  function OutAddress(outv: TxOut): Result<Hash> {
    var s := outv.script;
    if !Checked(s) || GetType(s) != Ok(TYPE_OUT) || |s| < 6 then Err
    else if s[2] != OP_VERIFY_INOUT || s[3] != OP_HASHER || s[4] != OP_DATA_1 then Err
    else
      var d :- Take(s[6..], s[5]);
      WithBytes(d.value)
  }

  // Byte forms.

  predicate InFits(inv: TxIn) {
    |inv.script| <= 0x7FFF
  }

  predicate OutFits(outv: TxOut) {
    |outv.script| <= 0x7FFF
  }

  /** Scripts short enough for their length prefix; a longer one is a panic. */
  predicate TxFits(tx: Tx) {
    && (forall i :: 0 <= i < |tx.ins| ==> InFits(tx.ins[i]))
    && (forall i :: 0 <= i < |tx.outs| ==> OutFits(tx.outs[i]))
  }

  predicate BlockFits(b: Block) {
    forall i :: 0 <= i < |b.txs| ==> TxFits(b.txs[i])
  }

  function InBytes(inv: TxIn): Bytes
    requires InFits(inv)
  {
    inv.out + LE(inv.idx, 2) + Field(inv.script) + LE(inv.seqno, 4)
  }

  function OutBytes(outv: TxOut): Bytes
    requires OutFits(outv)
  {
    I64Bytes(outv.value) + Field(outv.script)
  }

  function InParts(ins: seq<TxIn>): (r: seq<Bytes>)
    requires forall i :: 0 <= i < |ins| ==> InFits(ins[i])
    ensures |r| == |ins|
  {
    seq(|ins|, i requires 0 <= i < |ins| => InBytes(ins[i]))
  }

  function OutParts(outs: seq<TxOut>): (r: seq<Bytes>)
    requires forall i :: 0 <= i < |outs| ==> OutFits(outs[i])
    ensures |r| == |outs|
  {
    seq(|outs|, i requires 0 <= i < |outs| => OutBytes(outs[i]))
  }

  /** Counts are cut to sixteen bits. */
  function TxBytes(tx: Tx): Bytes
    requires TxFits(tx)
  {
    LE(tx.ver, 4) + (LE(|tx.ins|, 2) + (Concat(InParts(tx.ins)) +
    (LE(|tx.outs|, 2) + Concat(OutParts(tx.outs)))))
  }

  function TxParts(txs: seq<Tx>): (r: seq<Bytes>)
    requires forall i :: 0 <= i < |txs| ==> TxFits(txs[i])
    ensures |r| == |txs|
  {
    seq(|txs|, i requires 0 <= i < |txs| => TxBytes(txs[i]))
  }

  function BlockBytes(b: Block): Bytes
    requires BlockFits(b)
  {
    HeaderBytes(b.header) + (LE(|b.txs|, 2) + Concat(TxParts(b.txs)))
  }

  function ReadHash(s: Bytes): Result<Parsed<Hash>> {
    var h :- Take(s, 32);
    var b: Hash := h.value;
    Ok(Parsed(b, h.rest))
  }

  function ReadU16(s: Bytes): Result<Parsed<U16>> {
    var v :- UInt(s, 2);
    Powers();
    Ok(Parsed(v.value, v.rest))
  }

  function ReadU32(s: Bytes): Result<Parsed<U32>> {
    var v :- UInt(s, 4);
    Powers();
    Ok(Parsed(v.value, v.rest))
  }

  function ReadAmount(s: Bytes): Result<Parsed<I64>> {
    var v :- SInt(s, 8);
    Powers();
    Ok(Parsed(v.value, v.rest))
  }

  function ReadIn(s: Bytes): Result<Parsed<TxIn>> {
    var out :- ReadHash(s);
    var idx :- ReadU16(out.rest);
    var script :- GetField(idx.rest);
    var seqno :- ReadU32(script.rest);
    Ok(Parsed(TxIn(out.value, idx.value, script.value, seqno.value), seqno.rest))
  }

  function ReadOut(s: Bytes): Result<Parsed<TxOut>> {
    var value :- ReadAmount(s);
    var script :- GetField(value.rest);
    Ok(Parsed(TxOut(value.value, script.value), script.rest))
  }

  /** `n` values one after the other. */
  function Many<T>(one: Bytes -> Result<Parsed<T>>, n: nat, s: Bytes): (r: Result<Parsed<seq<T>>>)
    ensures r.Ok? ==> |r.value.value| == n
  {
    if n == 0 then Ok(Parsed([], s))
    else
      var h :- one(s);
      var t :- Many(one, n - 1, h.rest);
      Ok(Parsed([h.value] + t.value, t.rest))
  }

  /** A count and that many values. */
  function Counted<T>(one: Bytes -> Result<Parsed<T>>, s: Bytes): (r: Result<Parsed<seq<T>>>)
    ensures r.Ok? ==> |r.value.value| <= 0xFFFF
  {
    var n :- ReadU16(s);
    Many(one, n.value, n.rest)
  }

  function ReadTx(s: Bytes): (r: Result<Parsed<Tx>>)
    ensures r.Ok? ==> |r.value.value.ins| <= 0xFFFF && |r.value.value.outs| <= 0xFFFF
  {
    var ver :- ReadU32(s);
    var ins :- Counted(ReadIn, ver.rest);
    var outs :- Counted(ReadOut, ins.rest);
    Ok(Parsed(Tx(ver.value, ins.value, outs.value), outs.rest))
  }

  function ReadHeader(s: Bytes): Result<Parsed<Header>> {
    var ver :- ReadU32(s);
    var prev :- ReadHash(ver.rest);
    var merkle :- ReadHash(prev.rest);
    var time :- ReadU32(merkle.rest);
    var bits :- ReadU32(time.rest);
    var nonce :- ReadU32(bits.rest);
    Ok(Parsed(Header(ver.value, prev.value, merkle.value, time.value, bits.value, nonce.value), nonce.rest))
  }

  function ReadBlock(s: Bytes): Result<Parsed<Block>> {
    var header :- ReadHeader(s);
    var txs :- Counted(ReadTx, header.rest);
    Ok(Parsed(Block(header.value, txs.value), txs.rest))
  }

  lemma HashBack(h: Hash, t: Bytes)
    ensures ReadHash(h + t) == Ok(Parsed(h, t))
  {
    ReadTake(h, t);
  }

  lemma U16Back(v: U16, t: Bytes)
    ensures ReadU16(LE(v, 2) + t) == Ok(Parsed(v, t))
  {
    Powers();
    ReadUInt(v, 2, t);
  }

  lemma U32Back(v: U32, t: Bytes)
    ensures ReadU32(LE(v, 4) + t) == Ok(Parsed(v, t))
  {
    Powers();
    ReadUInt(v, 4, t);
  }

  lemma InShape(inv: TxIn, t: Bytes)
    requires InFits(inv)
    ensures InBytes(inv) + t == inv.out + (LE(inv.idx, 2) + (Field(inv.script) + (LE(inv.seqno, 4) + t)))
  {
    hide Field, LE;
  }

  lemma InBack(inv: TxIn, t: Bytes)
    requires InFits(inv)
    ensures ReadIn(InBytes(inv) + t) == Ok(Parsed(inv, t))
  {
    var s3 := LE(inv.seqno, 4) + t;
    var s2 := Field(inv.script) + s3;
    InShape(inv, t);
    HashBack(inv.out, LE(inv.idx, 2) + s2);
    U16Back(inv.idx, s2);
    ReadField(inv.script, s3);
    U32Back(inv.seqno, t);
    hide InBytes, ReadHash, ReadU16, ReadU32, GetField, Field, LE;
  }

  lemma OutBack(outv: TxOut, t: Bytes)
    requires OutFits(outv)
    ensures ReadOut(OutBytes(outv) + t) == Ok(Parsed(outv, t))
  {
    assert OutBytes(outv) + t == I64Bytes(outv.value) + (Field(outv.script) + t) by {
      hide I64Bytes, Field;
    }
    ReadI64(outv.value, Field(outv.script) + t);
    ReadField(outv.script, t);
    hide OutBytes, SInt, GetField, Field, I64Bytes;
  }

  /** The parts of a list read back one by one. */
  ghost predicate EachBack<T(!new)>(one: Bytes -> Result<Parsed<T>>, xs: seq<T>, parts: seq<Bytes>) {
    |parts| == |xs| && forall i, t: Bytes :: 0 <= i < |xs| ==> one(parts[i] + t) == Ok(Parsed(xs[i], t))
  }

  lemma {:induction false} ManyBack<T(!new)>(one: Bytes -> Result<Parsed<T>>, xs: seq<T>, parts: seq<Bytes>, t: Bytes)
    requires EachBack(one, xs, parts)
    ensures Many(one, |xs|, Concat(parts) + t) == Ok(Parsed(xs, t))
  {
    if xs == [] {
      assert Concat(parts) + t == t;
    } else {
      var rest := Concat(parts[1..]) + t;
      assert Concat(parts) + t == parts[0] + rest;
      TailBack(one, xs, parts);
      ManyBack(one, xs[1..], parts[1..], t);
      assert one(parts[0] + rest) == Ok(Parsed(xs[0], rest));
      assert [xs[0]] + xs[1..] == xs;
    }
  }

  lemma TailBack<T(!new)>(one: Bytes -> Result<Parsed<T>>, xs: seq<T>, parts: seq<Bytes>)
    requires EachBack(one, xs, parts) && xs != []
    ensures EachBack(one, xs[1..], parts[1..])
  {
    forall i, t: Bytes | 0 <= i < |xs| - 1 ensures one(parts[1..][i] + t) == Ok(Parsed(xs[1..][i], t)) {
      assert one(parts[i + 1] + t) == Ok(Parsed(xs[i + 1], t));
    }
  }

  lemma CountedBack<T(!new)>(one: Bytes -> Result<Parsed<T>>, xs: seq<T>, parts: seq<Bytes>, t: Bytes)
    requires EachBack(one, xs, parts) && |xs| <= 0xFFFF
    ensures Counted(one, LE(|xs|, 2) + (Concat(parts) + t)) == Ok(Parsed(xs, t))
  {
    U16Back(|xs|, Concat(parts) + t);
    ManyBack(one, xs, parts, t);
    hide ReadU16, Many, LE, Concat;
  }

  predicate TxCounts(tx: Tx) {
    |tx.ins| <= 0xFFFF && |tx.outs| <= 0xFFFF
  }

  lemma TxBack(tx: Tx, t: Bytes)
    requires TxFits(tx) && TxCounts(tx)
    ensures ReadTx(TxBytes(tx) + t) == Ok(Parsed(tx, t))
  {
    hide ReadIn, ReadOut, Counted, ReadU32, InBytes, OutBytes, Concat, LE, InParts, OutParts, EachBack;
    InsEach(tx.ins);
    OutsEach(tx.outs);
    var ins, outs := Concat(InParts(tx.ins)), Concat(OutParts(tx.outs));
    TxShape(LE(tx.ver, 4), LE(|tx.ins|, 2), ins, LE(|tx.outs|, 2), outs, t);
    var s2 := LE(|tx.outs|, 2) + (outs + t);
    U32Back(tx.ver, LE(|tx.ins|, 2) + (ins + s2));
    CountedBack(ReadIn, tx.ins, InParts(tx.ins), s2);
    CountedBack(ReadOut, tx.outs, OutParts(tx.outs), t);
  }

  lemma TxShape(a: Bytes, b: Bytes, d: Bytes, e: Bytes, f: Bytes, t: Bytes)
    ensures (a + (b + (d + (e + f)))) + t == a + (b + (d + (e + (f + t))))
  {
  }

  lemma InsEach(ins: seq<TxIn>)
    requires forall i :: 0 <= i < |ins| ==> InFits(ins[i])
    ensures EachBack(ReadIn, ins, InParts(ins))
  {
    forall i, t: Bytes | 0 <= i < |ins| ensures ReadIn(InParts(ins)[i] + t) == Ok(Parsed(ins[i], t)) {
      InBack(ins[i], t);
    }
    hide ReadIn, InBytes;
  }

  lemma OutsEach(outs: seq<TxOut>)
    requires forall i :: 0 <= i < |outs| ==> OutFits(outs[i])
    ensures EachBack(ReadOut, outs, OutParts(outs))
  {
    forall i, t: Bytes | 0 <= i < |outs| ensures ReadOut(OutParts(outs)[i] + t) == Ok(Parsed(outs[i], t)) {
      OutBack(outs[i], t);
    }
    hide ReadOut, OutBytes;
  }

  lemma TxsEach(txs: seq<Tx>)
    requires forall i :: 0 <= i < |txs| ==> TxFits(txs[i]) && TxCounts(txs[i])
    ensures EachBack(ReadTx, txs, TxParts(txs))
  {
    forall i, t: Bytes | 0 <= i < |txs| ensures ReadTx(TxParts(txs)[i] + t) == Ok(Parsed(txs[i], t)) {
      TxBack(txs[i], t);
    }
    hide ReadTx, TxBytes;
  }

  lemma HeaderShape(h: Header, t: Bytes)
    ensures HeaderBytes(h) + t ==
            LE(h.ver, 4) + (h.prev + (h.merkle + (LE(h.time, 4) + (LE(h.bits, 4) + (LE(h.nonce, 4) + t)))))
  {
    hide LE;
  }

  lemma HeaderBack(h: Header, t: Bytes)
    ensures ReadHeader(HeaderBytes(h) + t) == Ok(Parsed(h, t))
  {
    var s5 := LE(h.nonce, 4) + t;
    var s4 := LE(h.bits, 4) + s5;
    var s3 := LE(h.time, 4) + s4;
    var s2 := h.merkle + s3;
    HeaderShape(h, t);
    U32Back(h.ver, h.prev + s2);
    HashBack(h.prev, s2);
    HashBack(h.merkle, s3);
    U32Back(h.time, s4);
    U32Back(h.bits, s5);
    U32Back(h.nonce, t);
    hide HeaderBytes, ReadU32, ReadHash, LE;
  }

  predicate BlockCounts(b: Block) {
    |b.txs| <= 0xFFFF && forall i :: 0 <= i < |b.txs| ==> TxCounts(b.txs[i])
  }

  /** A stored block reads back as itself exactly when no list is longer than its sixteen-bit count can say. */
  lemma BlockRoundTrip(b: Block, t: Bytes)
    requires BlockFits(b)
    ensures ReadBlock(BlockBytes(b) + t) == Ok(Parsed(b, t)) <==> BlockCounts(b)
  {
    if BlockCounts(b) {
      BlockBack(b, t);
    } else if ReadBlock(BlockBytes(b) + t) == Ok(Parsed(b, t)) {
      ReadCounts(BlockBytes(b) + t);
    }
    hide ReadBlock, BlockBytes;
  }

  lemma BlockBack(b: Block, t: Bytes)
    requires BlockFits(b) && BlockCounts(b)
    ensures ReadBlock(BlockBytes(b) + t) == Ok(Parsed(b, t))
  {
    hide ReadTx, Counted, ReadHeader, TxBytes, Concat, LE, TxParts, EachBack, HeaderBytes;
    TxsEach(b.txs);
    var txs := Concat(TxParts(b.txs));
    assert BlockBytes(b) + t == HeaderBytes(b.header) + (LE(|b.txs|, 2) + (txs + t));
    HeaderBack(b.header, LE(|b.txs|, 2) + (txs + t));
    CountedBack(ReadTx, b.txs, TxParts(b.txs), t);
  }

  /** Whatever is read obeys the counts. */
  lemma ReadCounts(s: Bytes)
    requires ReadBlock(s).Ok?
    ensures BlockCounts(ReadBlock(s).value.value)
  {
    hide ReadTx, ReadHeader;
    var h := ReadHeader(s).value;
    var n := ReadU16(h.rest).value;
    ManyCounts(n.value, n.rest);
  }

  lemma {:induction false} ManyCounts(n: nat, s: Bytes)
    requires Many(ReadTx, n, s).Ok?
    ensures forall i :: 0 <= i < n ==> TxCounts(Many(ReadTx, n, s).value.value[i])
  {
    hide ReadTx;
    if n > 0 {
      var h := ReadTx(s).value;
      ManyCounts(n - 1, h.rest);
    }
  }

  /** What the store gives back of a block that was put into it. */
  function Reread(b: Block): Result<Block> {
    if !BlockFits(b) then Err
    else
      var p :- ReadBlock(BlockBytes(b));
      Ok(p.value)
  }

  /** The block itself comes back exactly if no list is longer than its count can say; its header always does. */
  lemma RereadIs(b: Block)
    requires BlockFits(b)
    ensures Reread(b) == Ok(b) <==> BlockCounts(b)
    ensures Reread(b).Ok? ==> Reread(b).value.header == b.header
  {
    assert BlockBytes(b) + [] == BlockBytes(b);
    BlockRoundTrip(b, []);
    if Reread(b) == Ok(b) {
      ReadCounts(BlockBytes(b));
    }
    HeaderBack(b.header, LE(|b.txs|, 2) + Concat(TxParts(b.txs)));
    HeaderKept(b);
    hide ReadBlock, BlockBytes, BlockCounts;
  }

  lemma HeaderKept(b: Block)
    requires BlockFits(b) && ReadHeader(BlockBytes(b)).Ok? && ReadHeader(BlockBytes(b)).value.value == b.header
    ensures ReadBlock(BlockBytes(b)).Ok? ==> ReadBlock(BlockBytes(b)).value.value.header == b.header
  {
    hide ReadHeader, BlockBytes, Counted;
  }

  // Checks.

  predicate InOk(inv: TxIn) {
    && (CoinbaseIn(inv) || inv.out != ZERO_HASH)
    && GetType(inv.script) == Ok(if CoinbaseIn(inv) then TYPE_CB else TYPE_IN)
    && Checked(inv.script)
  }

  predicate OutOk(outv: TxOut) {
    ValidAmount(outv.value) && GetType(outv.script) == Ok(TYPE_OUT) && Checked(outv.script)
  }

  function Points(ins: seq<TxIn>): (r: seq<OutPoint>)
    ensures |r| == |ins|
  {
    seq(|ins|, i requires 0 <= i < |ins| => Point(ins[i]))
  }

  function Total(outs: seq<TxOut>): int {
    if outs == [] then 0 else Total(outs[..|outs| - 1]) + outs[|outs| - 1].value
  }

  /** `Tx::check_value`: what a transaction must satisfy whatever the chain. */
  predicate TxOk(tx: Tx) {
    && |tx.ins| > 0 && |tx.outs| > 0
    && (Coinbase(tx) ==> |tx.ins| == 1)
    && (forall i :: 0 <= i < |tx.ins| ==> InOk(tx.ins[i]))
    && Distinct(Points(tx.ins))
    && (forall i :: 0 <= i < |tx.outs| ==> OutOk(tx.outs[i]))
    && Total(tx.outs) <= MAX_MONEY
    && TxFits(tx) && |TxBytes(tx)| <= MAX_BLOCK_SIZE
  }

  /** The inputs of all transactions, in order. */
  function AllIns(txs: seq<Tx>): seq<TxIn> {
    if txs == [] then [] else AllIns(txs[..|txs| - 1]) + txs[|txs| - 1].ins
  }

  function Coinbases(txs: seq<Tx>): nat {
    if txs == [] then 0 else Coinbases(txs[..|txs| - 1]) + if Coinbase(txs[|txs| - 1]) then 1 else 0
  }

  /** `check_coinbase`. */
  predicate LeadsWithCoinbase(txs: seq<Tx>) {
    && 1 <= |txs| <= MAX_TX_COUNT
    && |txs[0].ins| == 1
    && GetType(txs[0].ins[0].script) == Ok(TYPE_CB)
  }

  /** `Block::check_value`, the clock being `now`. */
  predicate BlockOk(c: Suite, now: int, b: Block) {
    && Timestamp(b.header) <= now && b.header.merkle != ZERO_HASH
    && LeadsWithCoinbase(b.txs)
    && MerkleRoot(c, b.txs) == Ok(b.header.merkle)
    && Distinct(Points(AllIns(b.txs)))
    && (forall i :: 0 <= i < |b.txs| ==> TxOk(b.txs[i]))
    && Coinbases(b.txs) == 1
    && BlockFits(b) && |BlockBytes(b)| <= MAX_BLOCK_SIZE
  }

  // What a checked block is, position by position.

  /** Inputs by shape: a coinbase's names nothing, any other's names an outpoint; each has a script of its kind that
      counts and is short enough. */
  predicate InputFormed(inv: TxIn, coinbase: bool) {
    && (if coinbase then inv.out == ZERO_HASH && inv.idx == 0 else inv.out != ZERO_HASH)
    && |inv.script| >= 2 && inv.script[0] == 0xFF && inv.script[1] == (if coinbase then 1 else 2)
    && Checked(inv.script)
  }

  predicate OutputFormed(outv: TxOut) {
    && 0 <= outv.value <= 21_000_000_000_000
    && |outv.script| >= 2 && outv.script[0] == 0xFF && outv.script[1] == 3 && Checked(outv.script)
  }

  predicate TxFormed(tx: Tx, coinbase: bool) {
    && |tx.ins| > 0 && |tx.outs| > 0 && (coinbase ==> |tx.ins| == 1)
    && (forall i :: 0 <= i < |tx.ins| ==> InputFormed(tx.ins[i], coinbase))
    && (forall i :: 0 <= i < |tx.outs| ==> OutputFormed(tx.outs[i]))
    && Total(tx.outs) <= MAX_MONEY
  }

  /** No two places of the block spend the same output. */
  predicate SpentOnce(txs: seq<Tx>) {
    forall j, i, l, k ::
      (&& 0 <= j < |txs| && 0 <= i < |txs[j].ins| && 0 <= l < |txs| && 0 <= k < |txs[l].ins|
       && txs[j].ins[i].out == txs[l].ins[k].out && txs[j].ins[i].idx == txs[l].ins[k].idx) ==>
      j == l && i == k
  }

  /** The ids of the transactions, and a pair hash that takes left before right. */
  ghost predicate RootOver(c: Suite, b: Block, ids: seq<Hash>, pair: (Hash, Hash) -> Hash) {
    && (forall l: Hash, r: Hash :: pair(l, r) == c.hash(l + r))
    && |ids| == |b.txs| > 0 && (forall i :: 0 <= i < |ids| ==> TxId(c, b.txs[i]) == Ok(ids[i]))
    && b.header.merkle == Merkle.Reduce(pair, ids)
  }

  /** The header's field is the root over the ids of the transactions. */
  ghost predicate Rooted(c: Suite, b: Block) {
    exists ids: seq<Hash>, pair: (Hash, Hash) -> Hash :: RootOver(c, b, ids, pair)
  }

  lemma RootedIs(c: Suite, b: Block)
    ensures Rooted(c, b) <==> MerkleRoot(c, b.txs) == Ok(b.header.merkle)
  {
    hide TxId, Merkle.Reduce;
    TxIdsEach(c, b.txs);
    if ids: seq<Hash>, pair: (Hash, Hash) -> Hash :| RootOver(c, b, ids, pair) {
      assert TxIds(c, b.txs).value == ids;
      Merkle.SameReduce(pair, Pair(c), ids);
    }
    if MerkleRoot(c, b.txs) == Ok(b.header.merkle) {
      assert RootOver(c, b, TxIds(c, b.txs).value, Pair(c));
    }
  }

  /** A well-formed block: not from the future, headed by the root of its transactions, one coinbase transaction and
      that first, no output spent twice, and at most four megabytes. */
  ghost predicate WellFormed(c: Suite, now: int, b: Block) {
    && Timestamp(b.header) <= now && b.header.merkle != ZERO_HASH
    && 1 <= |b.txs| <= 0xFFFF
    && (forall j :: 0 <= j < |b.txs| ==> TxFormed(b.txs[j], j == 0))
    && SpentOnce(b.txs)
    && Rooted(c, b)
    && BlockFits(b) && |BlockBytes(b)| <= 4194304
  }

  lemma ShapeIs(inv: TxIn)
    ensures InputFormed(inv, true) <==> InOk(inv) && CoinbaseIn(inv)
    ensures InputFormed(inv, false) <==> InOk(inv) && !CoinbaseIn(inv)
  {
    hide Checked;
  }

  lemma OutShapeIs(outv: TxOut)
    ensures OutputFormed(outv) <==> OutOk(outv)
  {
    hide Checked;
  }

  /** Where an input of the block comes from. */
  lemma {:induction false} AllInsFrom(txs: seq<Tx>, n: nat) returns (j: nat, i: nat)
    requires n < |AllIns(txs)|
    ensures j < |txs| && i < |txs[j].ins| && AllIns(txs)[n] == txs[j].ins[i]
    ensures n == |AllIns(txs[..j])| + i
  {
    var before := txs[..|txs| - 1];
    if n < |AllIns(before)| {
      j, i := AllInsFrom(before, n);
      assert before[..j] == txs[..j];
    } else {
      j, i := |txs| - 1, n - |AllIns(before)|;
    }
  }

  lemma SpentOnceIs(txs: seq<Tx>)
    ensures SpentOnce(txs) <==> Distinct(Points(AllIns(txs)))
  {
    hide AllIns;
    var all := AllIns(txs);
    if SpentOnce(txs) {
      forall m, n | 0 <= m < n < |all| ensures Points(all)[m] != Points(all)[n] {
        var j, i := AllInsFrom(txs, m);
        var l, k := AllInsFrom(txs, n);
        assert Point(txs[j].ins[i]) == Point(txs[l].ins[k]) ==> j == l && i == k;
      }
    }
    if Distinct(Points(all)) {
      forall j, i, l, k | 0 <= j < |txs| && 0 <= i < |txs[j].ins| && 0 <= l < |txs| && 0 <= k < |txs[l].ins| &&
          txs[j].ins[i].out == txs[l].ins[k].out && txs[j].ins[i].idx == txs[l].ins[k].idx
        ensures j == l && i == k
      {
        AllInsAt(txs, j, i);
        AllInsAt(txs, l, k);
        var m, n := |AllIns(txs[..j])| + i, |AllIns(txs[..l])| + k;
        assert Points(all)[m] == Points(all)[n];
        assert m == n;
        if j != l {
          AllInsApart(txs, if j < l then j else l, if j < l then l else j, if j < l then i else k);
        }
      }
    }
  }

  lemma AllInsApart(txs: seq<Tx>, j: nat, l: nat, i: nat)
    requires j < l <= |txs| && i < |txs[j].ins|
    ensures |AllIns(txs[..j])| + |txs[j].ins| <= |AllIns(txs[..l])|
  {
    assert txs[..l][..j] == txs[..j] && txs[..l][j] == txs[j];
    AllInsAt(txs[..l], j, i);
  }

  /** What the checks of a transaction come to, given where it stands. */
  lemma TxOkFormed(tx: Tx, coinbase: bool)
    requires TxOk(tx) && forall i :: 0 <= i < |tx.ins| ==> (CoinbaseIn(tx.ins[i]) <==> coinbase)
    ensures TxFormed(tx, coinbase)
  {
    hide TxBytes, TxFits, Total, InOk, OutOk, CoinbaseIn, InputFormed, OutputFormed;
    forall i | 0 <= i < |tx.ins| ensures InputFormed(tx.ins[i], coinbase) {
      ShapeIs(tx.ins[i]);
    }
    forall i | 0 <= i < |tx.outs| ensures OutputFormed(tx.outs[i]) {
      OutShapeIs(tx.outs[i]);
    }
  }

  lemma TxFormedOk(tx: Tx, coinbase: bool)
    requires TxFormed(tx, coinbase) && Distinct(Points(tx.ins)) && TxFits(tx) && |TxBytes(tx)| <= MAX_BLOCK_SIZE
    ensures TxOk(tx) && forall i :: 0 <= i < |tx.ins| ==> (CoinbaseIn(tx.ins[i]) <==> coinbase)
  {
    hide TxBytes, TxFits, Total, InOk, OutOk, CoinbaseIn, InputFormed, OutputFormed;
    forall i | 0 <= i < |tx.ins| ensures InOk(tx.ins[i]) && (CoinbaseIn(tx.ins[i]) <==> coinbase) {
      ShapeIs(tx.ins[i]);
    }
    forall i | 0 <= i < |tx.outs| ensures OutOk(tx.outs[i]) {
      OutShapeIs(tx.outs[i]);
    }
  }

  lemma {:induction false} PartSize(parts: seq<Bytes>, i: nat)
    requires i < |parts|
    ensures |parts[i]| <= |Concat(parts)|
  {
    if i > 0 {
      PartSize(parts[1..], i - 1);
    }
  }

  lemma TxInBlock(b: Block, j: nat)
    requires BlockFits(b) && j < |b.txs|
    ensures TxFits(b.txs[j]) && |TxBytes(b.txs[j])| <= |BlockBytes(b)|
  {
    hide TxBytes, TxFits, Concat, HeaderBytes, LE;
    PartSize(TxParts(b.txs), j);
    assert TxParts(b.txs)[j] == TxBytes(b.txs[j]);
  }

  lemma OwnPoints(txs: seq<Tx>, j: nat)
    requires SpentOnce(txs) && j < |txs|
    ensures Distinct(Points(txs[j].ins))
  {
    var ps := Points(txs[j].ins);
    forall i, k | 0 <= i < k < |ps| ensures ps[i] != ps[k] {
      assert ps[i] == Point(txs[j].ins[i]) && ps[k] == Point(txs[j].ins[k]);
    }
  }

  /** The root commits to the transactions: blocks under one header with equally many transactions have the same ids in
      the same order, unless the hash collides on the way up. */
  lemma HeaderBindsIds(c: Suite, a: Block, b: Block)
    requires Rooted(c, a) && Rooted(c, b) && a.header.merkle == b.header.merkle && |a.txs| == |b.txs|
    requires TxIds(c, a.txs).Ok? && TxIds(c, b.txs).Ok? && |TxIds(c, a.txs).value| == |TxIds(c, b.txs).value|
    requires Merkle.Unmerged(Pair(c), TxIds(c, a.txs).value, TxIds(c, b.txs).value)
    ensures forall i :: 0 <= i < |a.txs| ==> TxId(c, a.txs[i]).Ok? && TxId(c, a.txs[i]) == TxId(c, b.txs[i])
  {
    hide TxId, Merkle.Reduce, Merkle.Unmerged, Rooted;
    RootedIs(c, a);
    RootedIs(c, b);
    TxIdsEach(c, a.txs);
    TxIdsEach(c, b.txs);
    Merkle.RootCommits(Pair(c), TxIds(c, a.txs).value, TxIds(c, b.txs).value);
  }

  /** A block's id commits to its header, unless the hash collides. */
  lemma IdBindsHeader(c: Suite, a: Block, b: Block)
    requires BlockId(c, a) == BlockId(c, b)
    requires c.hash(HeaderBytes(a.header)) == c.hash(HeaderBytes(b.header)) ==>
             HeaderBytes(a.header) == HeaderBytes(b.header)
    ensures a.header == b.header
  {
    hide HeaderBytes, ReadHeader;
    HeaderBack(a.header, []);
    HeaderBack(b.header, []);
  }

  /** A block passes its checks exactly if it is well formed. */
  lemma BlockOkMeans(c: Suite, now: int, b: Block)
    ensures BlockOk(c, now, b) <==> WellFormed(c, now, b)
  {
    hide TxFormed, TxOk, Rooted, MerkleRoot, SpentOnce, AllIns, Coinbases, BlockBytes, BlockFits, CoinbaseIn;
    RootedIs(c, b);
    SpentOnceIs(b.txs);
    if BlockOk(c, now, b) {
      forall j | 0 <= j < |b.txs| ensures TxFormed(b.txs[j], j == 0) {
        FormedAt(b.txs, j);
      }
    }
    if WellFormed(c, now, b) {
      forall j | 0 <= j < |b.txs|
        ensures TxOk(b.txs[j]) && (Coinbase(b.txs[j]) <==> j == 0)
      {
        OwnPoints(b.txs, j);
        TxInBlock(b, j);
        TxFormedOk(b.txs[j], j == 0);
        SomeIn(b.txs[j]);
      }
      Leads(b.txs);
      assert b.txs[..|b.txs|] == b.txs;
      CountOne(b.txs, |b.txs|);
    }
  }

  lemma FormedAt(txs: seq<Tx>, j: nat)
    requires LeadsWithCoinbase(txs) && Distinct(Points(AllIns(txs)))
    requires forall k :: 0 <= k < |txs| ==> TxOk(txs[k])
    requires j < |txs|
    ensures TxFormed(txs[j], j == 0)
  {
    hide TxFormed, TxOk, AllIns, CoinbaseIn;
    forall i | 0 <= i < |txs[j].ins| ensures CoinbaseIn(txs[j].ins[i]) <==> j == 0 {
      OnlyFirst(txs, j, i);
    }
    TxOkFormed(txs[j], j == 0);
  }

  lemma SomeIn(tx: Tx)
    requires TxOk(tx)
    ensures |tx.ins| > 0
  {
    hide TxBytes, TxFits, InOk, OutOk, Total;
  }

  lemma Leads(txs: seq<Tx>)
    requires 1 <= |txs| <= 0xFFFF && TxFormed(txs[0], true)
    ensures LeadsWithCoinbase(txs)
  {
    hide Checked, Total, OutputFormed;
    assert InputFormed(txs[0].ins[0], true);
  }

  lemma CheckedFits(s: Bytes)
    requires Checked(s)
    ensures |s| <= 0x7FFF
  {
  }

  lemma {:induction false} TotalBounds(outs: seq<TxOut>, n: nat)
    requires n <= |outs| && forall i :: 0 <= i < |outs| ==> outs[i].value >= 0
    ensures 0 <= Total(outs[..n]) <= Total(outs)
    decreases |outs| - n
  {
    if n < |outs| {
      assert outs[..n + 1][..n] == outs[..n];
      TotalBounds(outs, n + 1);
      TotalSign(outs[..n]);
    } else {
      assert outs[..n] == outs;
      TotalSign(outs);
    }
  }

  lemma {:induction false} TotalSign(outs: seq<TxOut>)
    requires forall i :: 0 <= i < |outs| ==> outs[i].value >= 0
    ensures Total(outs) >= 0
  {
    if outs != [] {
      TotalSign(outs[..|outs| - 1]);
    }
  }

  lemma AllInsAt(txs: seq<Tx>, i: nat, j: nat)
    requires i < |txs| && j < |txs[i].ins|
    ensures |AllIns(txs[..i])| + |txs[i].ins| <= |AllIns(txs)|
    ensures AllIns(txs)[|AllIns(txs[..i])| + j] == txs[i].ins[j]
    ensures i > 0 ==> |AllIns(txs[..i])| >= |txs[0].ins|
  {
    assert txs[..i + 1][..i] == txs[..i];
    AllInsPrefix(txs, i + 1);
    if i > 0 {
      assert txs[..i][..1] == txs[..1] && txs[..1][..0] == [];
      AllInsPrefix(txs[..i], 1);
      assert AllIns(txs[..1]) == AllIns([]) + txs[0].ins;
    }
  }

  /** In a block whose leading input is typed as coinbase, whose transactions pass and whose inputs differ, that
      input is the only coinbase input anywhere; the count the source adds to this always comes out as one. */
  lemma CoinbaseUnique(txs: seq<Tx>, i: nat, j: nat)
    requires LeadsWithCoinbase(txs) && Distinct(Points(AllIns(txs)))
    requires forall k :: 0 <= k < |txs| ==> TxOk(txs[k])
    requires i < |txs| && j < |txs[i].ins|
    ensures CoinbaseIn(txs[i].ins[j]) <==> i == 0 && j == 0
    ensures Coinbases(txs) == 1
  {
    hide AllIns, Coinbases;
    OnlyFirst(txs, i, j);
    assert forall k :: 0 <= k < |txs| ==> (Coinbase(txs[k]) <==> k == 0) by {
      forall k | 0 <= k < |txs| ensures Coinbase(txs[k]) <==> k == 0 {
        assert TxOk(txs[k]);
        OnlyFirst(txs, k, 0);
      }
    }
    assert txs[..|txs|] == txs;
    CountOne(txs, |txs|);
  }

  lemma OnlyFirst(txs: seq<Tx>, i: nat, j: nat)
    requires LeadsWithCoinbase(txs) && Distinct(Points(AllIns(txs)))
    requires forall k :: 0 <= k < |txs| ==> TxOk(txs[k])
    requires i < |txs| && j < |txs[i].ins|
    ensures CoinbaseIn(txs[i].ins[j]) <==> i == 0 && j == 0
  {
    hide AllIns, TxBytes, Total, Checked;
    AllInsAt(txs, 0, 0);
    AllInsAt(txs, i, j);
    assert txs[..0] == [];
    var first := txs[0].ins[0];
    assert TxOk(txs[0]) && InOk(first);
    if CoinbaseIn(txs[i].ins[j]) {
      var ps := Points(AllIns(txs));
      var at := |AllIns(txs[..i])| + j;
      assert ps[0 + |AllIns([])|] == Point(first) && ps[at] == Point(txs[i].ins[j]);
      EmptyIns();
    }
  }

  lemma EmptyIns()
    ensures AllIns([]) == []
  {
  }

  lemma {:induction false} CountOne(txs: seq<Tx>, n: nat)
    requires 0 < n <= |txs| && forall k :: 0 <= k < |txs| ==> (Coinbase(txs[k]) <==> k == 0)
    ensures Coinbases(txs[..n]) == 1
  {
    assert txs[..n][..n - 1] == txs[..n - 1];
    if n > 1 {
      CountOne(txs, n - 1);
    }
  }

  /** `Tx::check_value` as a run over inputs and outputs with early exits. */
  method CheckTx(tx: Tx) returns (ok: bool)
    ensures ok <==> TxOk(tx)
  {
    if Coinbase(tx) && |tx.ins| != 1 {
      return false;
    }
    if |tx.ins| == 0 || |tx.outs| == 0 {
      return false;
    }
    var insOk := CheckIns(tx);
    if !insOk {
      return false;
    }
    var outsOk := CheckOuts(tx.outs);
    if !outsOk {
      return false;
    }
    forall i | 0 <= i < |tx.ins| ensures InFits(tx.ins[i]) {
      CheckedFits(tx.ins[i].script);
    }
    forall i | 0 <= i < |tx.outs| ensures OutFits(tx.outs[i]) {
      CheckedFits(tx.outs[i].script);
    }
    hide TxBytes, InOk, OutOk, Total;
    var w := new Writer();
    EncodeTx(w, tx);
    assert [] + TxBytes(tx) == TxBytes(tx);
    ok := |w.inner| <= MAX_BLOCK_SIZE;
  }

  method CheckIns(tx: Tx) returns (ok: bool)
    ensures ok <==> (forall i :: 0 <= i < |tx.ins| ==> InOk(tx.ins[i])) && Distinct(Points(tx.ins))
  {
    hide InOk;
    var seen: set<OutPoint> := {};
    for i := 0 to |tx.ins|
      invariant forall k :: 0 <= k < i ==> InOk(tx.ins[k])
      invariant forall k :: 0 <= k < i ==> Points(tx.ins)[k] in seen
      invariant forall p :: p in seen ==> exists k :: 0 <= k < i && Points(tx.ins)[k] == p
      invariant Distinct(Points(tx.ins)[..i])
    {
      if !InOk(tx.ins[i]) {
        return false;
      }
      var key := Point(tx.ins[i]);
      assert key == Points(tx.ins)[i];
      if key in seen {
        var k :| 0 <= k < i && Points(tx.ins)[k] == key;
        return false;
      }
      seen := seen + {key};
    }
    assert Points(tx.ins)[..|tx.ins|] == Points(tx.ins);
    ok := true;
  }

  method CheckOuts(outs: seq<TxOut>) returns (ok: bool)
    ensures ok <==> (forall i :: 0 <= i < |outs| ==> OutOk(outs[i])) && Total(outs) <= MAX_MONEY
  {
    var outfee: int := 0;
    for i := 0 to |outs|
      invariant forall k :: 0 <= k < i ==> OutOk(outs[k])
      invariant outfee == Total(outs[..i]) && ValidAmount(outfee)
    {
      if !OutOk(outs[i]) {
        return false;
      }
      hide Checked, GetType;
      if !ValidAmount(outs[i].value) {
        return false;
      }
      assert outs[..i + 1][..i] == outs[..i];
      TotalSign(outs[..i + 1]);
      outfee := outfee + outs[i].value;
      if !ValidAmount(outfee) {
        TooMuch(outs, i + 1);
        return false;
      }
    }
    assert outs[..|outs|] == outs;
    ok := true;
  }

  lemma TooMuch(outs: seq<TxOut>, n: nat)
    requires n <= |outs| && Total(outs[..n]) > MAX_MONEY
    ensures !((forall i :: 0 <= i < |outs| ==> OutOk(outs[i])) && Total(outs) <= MAX_MONEY)
  {
    hide Checked, GetType;
    if forall i :: 0 <= i < |outs| ==> OutOk(outs[i]) {
      assert forall i :: 0 <= i < |outs| ==> outs[i].value >= 0;
      TotalBounds(outs, n);
    }
  }

  /** `check_rep_cost_coin`: no output is spent twice anywhere in the block. */
  method CheckRepCost(txs: seq<Tx>) returns (ok: bool)
    ensures ok <==> Distinct(Points(AllIns(txs)))
  {
    var seen: set<OutPoint> := {};
    ghost var all := Points(AllIns(txs));
    for i := 0 to |txs|
      invariant Covers(seen, Points(AllIns(txs[..i])))
      invariant Distinct(Points(AllIns(txs[..i])))
    {
      ghost var before := AllIns(txs[..i]);
      assert txs[..i + 1][..i] == txs[..i];
      assert AllIns(txs[..i + 1]) == before + txs[i].ins;
      AllInsPrefix(txs, i + 1);
      assert before + txs[i].ins[..0] == before;
      for j := 0 to |txs[i].ins|
        invariant Covers(seen, Points(before + txs[i].ins[..j]))
        invariant Distinct(Points(before + txs[i].ins[..j]))
      {
        ghost var done := before + txs[i].ins[..j];
        var key := Point(txs[i].ins[j]);
        assert before + txs[i].ins[..j + 1] == done + [txs[i].ins[j]];
        PointsPush(done, txs[i].ins[j]);
        if key in seen {
          assert done + [txs[i].ins[j]] <= before + txs[i].ins;
          Repeated(done, txs[i].ins[j], AllIns(txs));
          return false;
        }
        CoversPush(seen, Points(done), key);
        seen := seen + {key};
      }
      assert txs[i].ins[..|txs[i].ins|] == txs[i].ins;
    }
    assert txs[..|txs|] == txs;
    ok := true;
  }

  ghost predicate Covers(seen: set<OutPoint>, ps: seq<OutPoint>) {
    forall p :: p in seen <==> p in ps
  }

  lemma CoversPush(seen: set<OutPoint>, ps: seq<OutPoint>, key: OutPoint)
    requires Covers(seen, ps)
    ensures Covers(seen + {key}, ps + [key])
    ensures key !in seen && Distinct(ps) ==> Distinct(ps + [key])
  {
  }

  lemma PointsPush(ins: seq<TxIn>, inv: TxIn)
    ensures Points(ins + [inv]) == Points(ins) + [Point(inv)]
  {
  }

  lemma Repeated(done: seq<TxIn>, inv: TxIn, all: seq<TxIn>)
    requires done + [inv] <= all && Point(inv) in Points(done)
    ensures !Distinct(Points(all))
  {
    var k :| 0 <= k < |done| && Points(done)[k] == Point(inv);
    assert all[..|done| + 1] == done + [inv];
    assert all[k] == done[k] && all[|done|] == inv;
    assert Points(all)[k] == Points(all)[|done|];
  }

  lemma {:induction false} AllInsPrefix(txs: seq<Tx>, n: nat)
    requires n <= |txs|
    ensures AllIns(txs[..n]) <= AllIns(txs)
    decreases |txs| - n
  {
    if n < |txs| {
      assert txs[..n + 1][..n] == txs[..n];
      AllInsPrefix(txs, n + 1);
    } else {
      assert txs[..n] == txs;
    }
  }

  /** `Block::check_value`. */
  method CheckBlock(c: Suite, now: int, b: Block) returns (ok: bool)
    ensures ok <==> BlockOk(c, now, b)
  {
    hide TxOk, MerkleRoot, Timestamp, AllIns, TxBytes, BlockBytes;
    if Timestamp(b.header) > now || b.header.merkle == ZERO_HASH {
      return false;
    }
    if !LeadsWithCoinbase(b.txs) {
      return false;
    }
    var merkle := ComputeMerkle(c, b.txs);
    if merkle != Ok(b.header.merkle) {
      return false;
    }
    var once := CheckRepCost(b.txs);
    if !once {
      return false;
    }
    var coinnum := 0;
    for i := 0 to |b.txs|
      invariant forall k :: 0 <= k < i ==> TxOk(b.txs[k])
      invariant coinnum == Coinbases(b.txs[..i])
    {
      assert b.txs[..i + 1][..i] == b.txs[..i];
      if Coinbase(b.txs[i]) {
        coinnum := coinnum + 1;
      }
      var txOk := CheckTx(b.txs[i]);
      if !txOk {
        return false;
      }
    }
    assert b.txs[..|b.txs|] == b.txs;
    if coinnum != 1 {
      return false;
    }
    AllFit(b);
    var w := new Writer();
    EncodeBlock(w, b);
    assert [] + BlockBytes(b) == BlockBytes(b);
    ok := |w.inner| <= MAX_BLOCK_SIZE;
  }

  lemma AllFit(b: Block)
    requires forall i :: 0 <= i < |b.txs| ==> TxOk(b.txs[i])
    ensures BlockFits(b)
  {
    hide InOk, OutOk, Points, Total, TxBytes, TxFits;
  }

  /** `compute_merkle`. */
  method ComputeMerkle(c: Suite, txs: seq<Tx>) returns (r: Result<Hash>)
    ensures r == MerkleRoot(c, txs)
  {
    hide TxId, Merkle.Reduce;
    var ids: seq<Hash> := [];
    assert txs[..0] == [];
    for i := 0 to |txs|
      invariant TxIds(c, txs[..i]) == Ok(ids)
    {
      assert txs[..i + 1][..i] == txs[..i];
      var id := TxId(c, txs[i]);
      if id.Err? {
        IdMissing(c, txs, i);
        return Err;
      }
      ids := ids + [id.value];
    }
    assert txs[..|txs|] == txs;
    r := Merkle.Compute(Pair(c), ZERO_HASH, ids);
  }

  lemma IdMissing(c: Suite, txs: seq<Tx>, i: nat)
    requires i < |txs| && TxId(c, txs[i]).Err?
    ensures TxIds(c, txs).Err?
  {
    TxIdsEach(c, txs);
    hide TxId, TxIds;
  }

  // Writers.

  /** `Tx::encode_sign`; on an error the writer holds part of the form. */
  method EncodeSignTx(c: Suite, w: Writer, tx: Tx) returns (r: Result<()>)
    modifies w
    ensures r.Ok? == TxSign(c, tx).Ok?
    ensures r.Ok? ==> w.inner == old(w.inner) + TxSign(c, tx).value
  {
    hide LE, InSign, OutSign;
    ghost var was := w.inner;
    w.PutUInt(tx.ver, 4);
    w.PutUInt(|tx.ins|, 2);
    var _ :- EncodeSignIns(c, w, tx.ins);
    w.PutUInt(|tx.outs|, 2);
    var _ :- EncodeSignOuts(c, w, tx.outs);
    Regroup5(was, LE(tx.ver, 4), LE(|tx.ins|, 2), InsSign(c, tx.ins).value, LE(|tx.outs|, 2),
             OutsSign(c, tx.outs).value);
    r := Ok(());
  }

  method EncodeSignIns(c: Suite, w: Writer, ins: seq<TxIn>) returns (r: Result<()>)
    modifies w
    ensures r.Ok? == InsSign(c, ins).Ok?
    ensures r.Ok? ==> w.inner == old(w.inner) + InsSign(c, ins).value
  {
    hide InSign;
    assert ins[..0] == [];
    for i := 0 to |ins|
      invariant InsSign(c, ins[..i]).Ok? && w.inner == old(w.inner) + InsSign(c, ins[..i]).value
    {
      assert ins[..i + 1][..i] == ins[..i];
      if InSign(c, ins[i]).Err? {
        InsSignEach(c, ins);
        return Err;
      }
      Reassoc(old(w.inner), InsSign(c, ins[..i]).value, InSign(c, ins[i]).value);
      w.PutBytes(InSign(c, ins[i]).value);
    }
    assert ins[..|ins|] == ins;
    r := Ok(());
  }

  method EncodeSignOuts(c: Suite, w: Writer, outs: seq<TxOut>) returns (r: Result<()>)
    modifies w
    ensures r.Ok? == OutsSign(c, outs).Ok?
    ensures r.Ok? ==> w.inner == old(w.inner) + OutsSign(c, outs).value
  {
    hide OutSign;
    assert outs[..0] == [];
    for i := 0 to |outs|
      invariant OutsSign(c, outs[..i]).Ok? && w.inner == old(w.inner) + OutsSign(c, outs[..i]).value
    {
      assert outs[..i + 1][..i] == outs[..i];
      if OutSign(c, outs[i]).Err? {
        OutsSignEach(c, outs);
        return Err;
      }
      Reassoc(old(w.inner), OutsSign(c, outs[..i]).value, OutSign(c, outs[i]).value);
      w.PutBytes(OutSign(c, outs[i]).value);
    }
    assert outs[..|outs|] == outs;
    r := Ok(());
  }

  lemma {:induction false} InsSignEach(c: Suite, ins: seq<TxIn>)
    ensures InsSign(c, ins).Ok? <==> forall i :: 0 <= i < |ins| ==> InSign(c, ins[i]).Ok?
  {
    hide InSign;
    if ins != [] {
      InsSignEach(c, ins[..|ins| - 1]);
    }
  }

  lemma {:induction false} OutsSignEach(c: Suite, outs: seq<TxOut>)
    ensures OutsSign(c, outs).Ok? <==> forall i :: 0 <= i < |outs| ==> OutSign(c, outs[i]).Ok?
  {
    hide OutSign;
    if outs != [] {
      OutsSignEach(c, outs[..|outs| - 1]);
    }
  }

  lemma Regroup5(s: Bytes, a: Bytes, b: Bytes, d: Bytes, e: Bytes, f: Bytes)
    ensures s + a + b + d + e + f == s + (a + b + d + e + f)
  {
  }

  method EncodeTx(w: Writer, tx: Tx)
    requires TxFits(tx)
    modifies w
    ensures w.inner == old(w.inner) + TxBytes(tx)
  {
    hide LE, Concat, InBytes, OutBytes;
    ghost var was := w.inner;
    w.PutUInt(tx.ver, 4);
    w.PutUInt(|tx.ins|, 2);
    EncodeIns(w, tx.ins);
    w.PutUInt(|tx.outs|, 2);
    EncodeOuts(w, tx.outs);
    Regroup(was, LE(tx.ver, 4), LE(|tx.ins|, 2), Concat(InParts(tx.ins)), LE(|tx.outs|, 2),
            Concat(OutParts(tx.outs)));
  }

  lemma Regroup(s: Bytes, a: Bytes, b: Bytes, d: Bytes, e: Bytes, f: Bytes)
    ensures s + a + b + d + e + f == s + (a + (b + (d + (e + f))))
  {
  }

  method EncodeIns(w: Writer, ins: seq<TxIn>)
    requires forall i :: 0 <= i < |ins| ==> InFits(ins[i])
    modifies w
    ensures w.inner == old(w.inner) + Concat(InParts(ins))
  {
    ghost var parts := InParts(ins);
    hide Concat, Field;
    ConcatNone(old(w.inner), parts);
    for i := 0 to |ins|
      invariant w.inner == old(w.inner) + Concat(parts[..i])
    {
      ghost var was := w.inner;
      w.PutBytes(ins[i].out);
      w.PutUInt(ins[i].idx, 2);
      w.Put(ins[i].script);
      w.PutUInt(ins[i].seqno, 4);
      Regroup4(was, ins[i].out, LE(ins[i].idx, 2), Field(ins[i].script), LE(ins[i].seqno, 4));
      ConcatPush(parts, i);
      Reassoc(old(w.inner), Concat(parts[..i]), parts[i]);
    }
    assert parts[..|ins|] == parts;
  }

  method EncodeOuts(w: Writer, outs: seq<TxOut>)
    requires forall i :: 0 <= i < |outs| ==> OutFits(outs[i])
    modifies w
    ensures w.inner == old(w.inner) + Concat(OutParts(outs))
  {
    ghost var parts := OutParts(outs);
    hide Concat, Field, I64Bytes;
    ConcatNone(old(w.inner), parts);
    for i := 0 to |outs|
      invariant w.inner == old(w.inner) + Concat(parts[..i])
    {
      ghost var was := w.inner;
      w.PutBytes(I64Bytes(outs[i].value));
      w.Put(outs[i].script);
      Reassoc(was, I64Bytes(outs[i].value), Field(outs[i].script));
      ConcatPush(parts, i);
      Reassoc(old(w.inner), Concat(parts[..i]), parts[i]);
    }
    assert parts[..|outs|] == parts;
  }

  method EncodeBlock(w: Writer, b: Block)
    requires BlockFits(b)
    modifies w
    ensures w.inner == old(w.inner) + BlockBytes(b)
  {
    hide Concat, LE, HeaderBytes, TxBytes;
    ghost var parts := TxParts(b.txs);
    w.PutBytes(HeaderBytes(b.header));
    w.PutUInt(|b.txs|, 2);
    ghost var was := w.inner;
    ConcatNone(was, parts);
    for i := 0 to |b.txs|
      invariant w.inner == was + Concat(parts[..i])
    {
      EncodeTx(w, b.txs[i]);
      ConcatPush(parts, i);
      Reassoc(was, Concat(parts[..i]), parts[i]);
    }
    assert parts[..|b.txs|] == parts;
    Regroup3(old(w.inner), HeaderBytes(b.header), LE(|b.txs|, 2), Concat(parts));
  }

  lemma Regroup3(s: Bytes, a: Bytes, b: Bytes, d: Bytes)
    ensures s + a + b + d == s + (a + (b + d))
  {
  }

  lemma Regroup4(s: Bytes, a: Bytes, b: Bytes, d: Bytes, e: Bytes)
    ensures s + a + b + d + e == s + (a + b + d + e)
  {
  }
}
