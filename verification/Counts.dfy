/** Lists longer than their sixteen-bit counts: a block that passes all its checks and does not come back from the
    store. */
module Counts {
  import opened Common
  import opened Iobuf
  import opened Crypto
  import opened Scripts
  import opened Blocks
  import Merkle
  import Signing

  const COINBASE := TxIn(ZERO_HASH, 0, [OP_TYPE, TYPE_CB], 0)

  function Penny(h: Hash): TxOut {
    TxOut(1, ScriptOut(h))
  }

  /** A coinbase transaction that pays the smallest amount to one address `n` times. */
  function Wide(h: Hash, n: nat): Tx {
    Tx(1, [COINBASE], seq(n, i => Penny(h)))
  }

  lemma CoinbaseOk()
    ensures CoinbaseIn(COINBASE) && InOk(COINBASE) && InFits(COINBASE) && |InBytes(COINBASE)| == 41
  {
    var s := COINBASE.script;
    assert s[1..] == [TYPE_CB] && [TYPE_CB][1..] == [];
    assert SkipOp(s[0], s[1..]) == Ok([]);
    assert Field(s) == [2] + s;
    hide LE, SkipOp;
  }

  lemma PennyOk(h: Hash)
    ensures OutOk(Penny(h)) && OutFits(Penny(h)) && |OutBytes(Penny(h))| == 49
  {
    Signing.ScriptOutChecked(h);
    assert |ScriptOut(h)| == 40;
    hide ScriptOut, Checked, GetType, I64Bytes;
  }

  lemma {:induction false} Pennies(outs: seq<TxOut>)
    requires forall i :: 0 <= i < |outs| ==> outs[i].value == 1
    ensures Total(outs) == |outs|
  {
    if outs != [] {
      Pennies(outs[..|outs| - 1]);
    }
  }

  lemma {:induction false} EvenParts(parts: seq<Bytes>, size: nat)
    requires forall i :: 0 <= i < |parts| ==> |parts[i]| == size
    ensures |Concat(parts)| == size * |parts|
  {
    if parts != [] {
      EvenParts(parts[1..], size);
    }
  }

  lemma WideSize(h: Hash, n: nat)
    ensures TxFits(Wide(h, n)) && |TxBytes(Wide(h, n))| == 49 * (n + 1)
  {
    hide InBytes, OutBytes, LE, Concat;
    CoinbaseOk();
    PennyOk(h);
    EvenParts(InParts(Wide(h, n).ins), 41);
    EvenParts(OutParts(Wide(h, n).outs), 49);
  }

  /** It passes the checks of a transaction up to four megabytes, far past what its count can say. */
  lemma WideOk(h: Hash, n: nat)
    ensures TxOk(Wide(h, n)) <==> 1 <= n <= 85597
    ensures TxCounts(Wide(h, n)) <==> n <= 0xFFFF
  {
    hide InOk, OutOk, TxBytes, Total, CoinbaseIn;
    CoinbaseOk();
    PennyOk(h);
    Pennies(Wide(h, n).outs);
    WideSize(h, n);
  }

  lemma PennyStandard(h: Hash)
    ensures Signing.Standard(Penny(h))
  {
    assert Penny(h).script == ScriptOut(h);
  }

  lemma WideSigned(c: Suite, h: Hash, n: nat)
    ensures Signing.NewCache(c, Wide(h, n)).Ok? && TxId(c, Wide(h, n)).Ok?
  {
    hide OutsSign, Signing.Standard, ScriptOut;
    PennyStandard(h);
    Signing.OutsSize(c, Wide(h, n).outs);
    assert InSign(c, COINBASE).Ok?;
    assert [COINBASE][..0] == [];
    assert InsSign(c, []) == Ok([]);
    assert InsSign(c, [COINBASE]).Ok?;
  }

  lemma WideStarts(h: Hash, n: nat)
    ensures Wide(h, n).ins == [COINBASE] && Coinbase(Wide(h, n)) && LeadsWithCoinbase([Wide(h, n)])
  {
    hide OutOk;
    CoinbaseOk();
  }

  /** The block of that transaction alone. */
  function WideBlock(c: Suite, header: Header, h: Hash, n: nat): Block {
    WideSigned(c, h, n);
    Block(header.(merkle := TxId(c, Wide(h, n)).value), [Wide(h, n)])
  }

  lemma OneId(c: Suite, tx: Tx)
    requires TxId(c, tx).Ok?
    ensures TxIds(c, [tx]) == Ok([TxId(c, tx).value])
  {
    TxIdsEach(c, [tx]);
    hide TxId, TxIds;
    assert [tx][0] == tx;
    assert TxIds(c, [tx]).value == [TxId(c, tx).value];
  }

  lemma OneTx(tx: Tx)
    requires Coinbase(tx)
    ensures AllIns([tx]) == tx.ins && Coinbases([tx]) == 1
  {
    hide CoinbaseIn;
    assert [tx][..0] == [];
    assert AllIns([]) == [] && Coinbases([]) == 0;
    assert [] + tx.ins == tx.ins;
  }

  lemma WideRoot(c: Suite, header: Header, h: Hash, n: nat)
    ensures MerkleRoot(c, WideBlock(c, header, h, n).txs) == Ok(WideBlock(c, header, h, n).header.merkle)
  {
    hide TxIds, TxId, Wide;
    WideSigned(c, h, n);
    OneId(c, Wide(h, n));
  }

  lemma WideBytes(c: Suite, header: Header, h: Hash, n: nat)
    ensures BlockFits(WideBlock(c, header, h, n))
    ensures |BlockBytes(WideBlock(c, header, h, n))| == 82 + 49 * (n + 1)
  {
    hide TxBytes, TxFits, TxId, HeaderBytes, LE, Wide, Concat;
    WideSize(h, n);
    EvenParts(TxParts(WideBlock(c, header, h, n).txs), 49 * (n + 1));
  }

  /** The block passes all its checks, and comes back from the store exactly if sixteen bits can count its outputs. */
  lemma WideBlockOk(c: Suite, now: int, header: Header, h: Hash, n: nat)
    requires 1 <= n <= 85595
    ensures var b := WideBlock(c, header, h, n);
            && (BlockOk(c, now, b) <==> Timestamp(header) <= now && b.header.merkle != ZERO_HASH)
            && (Reread(b) == Ok(b) <==> n <= 0xFFFF)
  {
    hide TxOk, AllIns, Coinbases, MerkleRoot, BlockBytes, BlockFits, LeadsWithCoinbase, Reread, TxId, Wide, TxCounts;
    var b := WideBlock(c, header, h, n);
    WideRoot(c, header, h, n);
    WideBytes(c, header, h, n);
    WideStarts(h, n);
    OneTx(Wide(h, n));
    WideOk(h, n);
    RereadIs(b);
    assert BlockCounts(b) <==> TxCounts(b.txs[0]);
    assert Timestamp(b.header) == Timestamp(header);
  }
}
