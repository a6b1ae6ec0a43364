/** src/index.rs, the index object: a database, two stores and a cache of decoded blocks, changed in place. */
module Indexer {
  import opened Common
  import opened Iobuf
  import opened Crypto
  import Scripts
  import opened Blocks
  import Difficulty
  import opened Journal
  import Signing
  import opened Storage
  import opened Ledger
  import opened Chains

  /** `get`: by height through the id stored there, by id directly. */
  function Found(s: State, k: Key): Result<Block> {
    if k.HeightKey? then
      var id :- IdAt(s.db, k);
      Body(s, HashKey(id))
    else Body(s, k)
  }

  /** What `get` finds on a chain: by height the block at that height, by id the block with that id, and nothing else,
      each as far as it can be read back. */
  lemma FoundIs(conf: Conf, es: Blocks32, s: State, k: Key)
    requires Consistent(conf, es, s)
    ensures k.HeightKey? ==> Found(s, k) == if k.h < |es| then Reread(es[k.h].block) else Err
    ensures k.HashKey? ==> forall h :: 0 <= h < |es| && IdOf(conf.c, es[h]) == k.id ==>
              Found(s, k) == Reread(es[h].block)
    ensures k.HashKey? && (forall h :: 0 <= h < |es| ==> IdOf(conf.c, es[h]) != k.id) ==> Found(s, k).Err?
    ensures !k.HeightKey? && !k.HashKey? ==> Found(s, k).Err?
  {
    hide Consistent, Grown, Replay, IdOf, EntryBodies, Reread, Body;
    ConsistentParts(conf, es, s);
    if k.HeightKey? {
      HeightsAre(conf.c, es, k.h);
      if k.h < |es| {
        BodyOfBlock(conf, es, s, k.h);
      }
    } else if k.HashKey? {
      forall h | 0 <= h < |es| && IdOf(conf.c, es[h]) == k.id ensures Body(s, k) == Reread(es[h].block) {
        BodyOfBlock(conf, es, s, h);
      }
      BodyIs(conf, es, s, k);
      BodiesAre(conf, es, k);
      if k in s.db && s.db[k].BlkV? {
        BlockRecord(conf.c, es, k);
      }
    } else {
      BodyNeedsId(s, k);
    }
  }

  lemma BodyOfBlock(conf: Conf, es: Blocks32, s: State, h: nat)
    requires Consistent(conf, es, s) && h < |es|
    ensures Body(s, HashKey(IdOf(conf.c, es[h]))) == Reread(es[h].block)
  {
    hide Consistent, Grown, Replay, IdOf, EntryBodies, Reread, Body;
    ConsistentParts(conf, es, s);
    IdIndexed(conf, es, h);
    BodyIs(conf, es, s, HashKey(IdOf(conf.c, es[h])));
    BodiesAre(conf, es, HashKey(IdOf(conf.c, es[h])));
  }

  lemma BodyNeedsId(s: State, k: Key)
    requires !k.HashKey?
    ensures Body(s, k).Err?
  {
  }

  /** What popping writes: the undo log as stored, and the removal of the block's own record. */
  function UndoOps(rev: Files, attr: BlkAttr, k: Key): Result<Ops> {
    var log :- Pulled(rev, attr.rev);
    var ops :- UndoOf(log);
    Ok(ops + [Del(k)])
  }

  lemma BodiesRead(s: State, k: Key)
    ensures Body(s, k) == if k in BodiesOf(s) then Ok(BodiesOf(s)[k]) else Err
  {
    hide Body;
    if Body(s, k).Ok? {
      BodyStored(s, k);
    }
  }

  class BlkIndexer {
    const conf: Conf
    var db: Db
    var cache: map<Key, Block>
    const blk: Store
    const rev: Store
    /** The chain the index stands for. */
    ghost var chain: seq<Entry>

    ghost function View(): State
      reads `db, blk, rev
    {
      State(db, blk.files, rev.files)
    }

    /** Everything cached is what the store would give. */
    ghost predicate CacheTrue()
      reads this, blk, rev
    {
      forall k :: k in cache ==> k.HashKey? && Body(View(), k) == Ok(cache[k])
    }

    ghost predicate Valid()
      reads this, blk, rev
    {
      && blk != rev && blk.Valid() && rev.Valid() && blk.max == MAX_FILE_SIZE && rev.max == MAX_FILE_SIZE
      && |chain| <= 0x1_0000_0000 && Consistent(conf, chain, View())
      && CacheTrue()
    }

    constructor (conf: Conf)
      ensures Valid() && this.conf == conf && View() == EMPTY && chain == [] && fresh(blk) && fresh(rev)
    {
      hide Consistent;
      this.conf := conf;
      db, cache, chain := map[], map[], [];
      var b := new Store(MAX_FILE_SIZE);
      var r := new Store(MAX_FILE_SIZE);
      blk, rev := b, r;
      new;
      EmptyConsistent(conf);
    }

    /** `cache.put`: adding a block may push out any others. */
    method Remember(k: Key, b: Block)
      requires CacheTrue() && k.HashKey? && Body(View(), k) == Ok(b)
      modifies this`cache
      ensures CacheTrue()
    {
      hide Body;
      var keep: set<Key> :| keep <= cache.Keys;
      cache := (map x | x in keep :: cache[x])[k := b];
    }

    /** A block by its id, from the cache if it is there. */
    method GetById(k: Key) returns (r: Result<Block>)
      requires Valid() && k.HashKey?
      modifies this`cache
      ensures Valid() && r == Body(View(), k)
    {
      hide Consistent, ReadBlock, Pulled;
      if k in cache {
        return Ok(cache[k]);
      }
      var attr :- AttrAt(db, k);
      var buf :- blk.Pull(attr.blk);
      var b :- ReadBlock(buf);
      Remember(k, b.value);
      r := Ok(b.value);
    }

    /** Cache transparency: `get` answers from the database and the store alone, whatever the cache holds, and so with
        the block of the chain at that height. */
    method GetBlock(k: Key) returns (r: Result<Block>)
      requires Valid()
      modifies this`cache
      ensures Valid() && r == Found(View(), k)
      ensures k.HeightKey? ==> r == if k.h < |chain| then Reread(chain[k.h].block) else Err
    {
      hide Consistent, Body, Reread;
      FoundIs(conf, chain, View(), k);
      if k.HeightKey? {
        var id :- IdAt(db, k);
        r := GetById(HashKey(id));
      } else if k.HashKey? {
        r := GetById(k);
      } else {
        BodyNeedsId(View(), k);
        r := Err;
      }
    }

    /** `get_txin_ref_txout`. */
    method RefTxOut(inv: TxIn) returns (r: Result<TxOut>)
      requires Valid()
      modifies this`cache
      ensures Valid() && r == RefOut(db, BodiesOf(View()), Point(inv))
    {
      hide Consistent, Body, ReadTxAttr, BodiesOf;
      var attr :- TxAttrAt(db, HashKey(inv.out));
      BodiesRead(View(), HashKey(attr.blk));
      var b :- GetById(HashKey(attr.blk));
      if attr.idx >= |b.txs| {
        return Err;
      }
      if inv.idx >= |b.txs[attr.idx].outs| {
        return Err;
      }
      r := Ok(b.txs[attr.idx].outs[inv.idx]);
    }

    /** `check_tx_sign`. */
    method CheckTxSign(tx: Tx) returns (ok: bool)
      requires Valid()
      modifies this`cache
      ensures Valid()
      ensures ok <==> Signing.SignaturesPass(conf.c, RefLookup(db, BodiesOf(View())), tx)
    {
      hide Consistent, CacheTrue, Signing.NewCache, Scripts.Run, CoinbaseIn, Signing.LinkEnv, RefOut, BodiesOf;
      var sums := Signing.NewCache(conf.c, tx);
      if sums.Err? {
        return false;
      }
      ghost var lookup := RefLookup(db, BodiesOf(View()));
      for i := 0 to |tx.ins|
        invariant Valid()
        invariant forall k :: 0 <= k < i ==> Signing.InputPasses(conf.c, lookup, sums.value, tx.ins[k])
      {
        var inv := tx.ins[i];
        if CoinbaseIn(inv) {
          continue;
        }
        var outv := RefTxOut(inv);
        assert lookup(Point(inv)) == outv;
        if outv.Err? {
          return false;
        }
        var env := Signing.LinkEnv(conf.c, sums.value, inv, outv.value);
        var exector := new Scripts.Exector();
        var ran := exector.Exec(conf.c, env, inv.script + outv.value.script);
        if ran.Err? {
          return false;
        }
      }
      ok := true;
    }

    /** `check_tx_amount`. */
    method CheckTxAmount(height: U32, tx: Tx) returns (r: Result<Fees>)
      requires Valid()
      modifies this`cache
      ensures Valid()
      ensures r == TxFees(conf.c, db, BodiesOf(View()), height, tx)
    {
      hide Consistent, CacheTrue, BodiesOf, InsWorth, Total, RefOut;
      var ifee :- InputsWorth(height, tx.ins);
      var ofee, cfee := 0, 0;
      NoTotal(tx.outs);
      for i := 0 to |tx.outs|
        invariant Valid()
        invariant forall k :: 0 <= k < i ==> ValidAmount(tx.outs[k].value) && tx.outs[k].value != 0
        invariant ofee == if Coinbase(tx) then 0 else Total(tx.outs[..i])
        invariant cfee == if Coinbase(tx) then Total(tx.outs[..i]) else 0
        invariant Total(tx.outs[..i]) == ofee + cfee
      {
        if !ValidAmount(tx.outs[i].value) || tx.outs[i].value == 0 {
          assert !OutsPositive(tx.outs);
          return Err;
        }
        TotalNext(tx.outs, i);
        if Coinbase(tx) {
          cfee := cfee + tx.outs[i].value;
        } else {
          ofee := ofee + tx.outs[i].value;
        }
      }
      assert tx.outs[..|tx.outs|] == tx.outs;
      if !ValidAmount(ifee) || !ValidAmount(ofee) {
        return Err;
      }
      if ofee > ifee {
        return Err;
      }
      if !ValidAmount(cfee) {
        return Err;
      }
      r := Ok(Fees(ifee - ofee, cfee));
    }

    /** Its first loop: what the inputs are worth. */
    method InputsWorth(height: U32, ins: seq<TxIn>) returns (r: Result<int>)
      requires Valid()
      modifies this`cache
      ensures Valid() && r == InsWorth(conf.c, db, BodiesOf(View()), height, ins)
    {
      hide Consistent, CacheTrue, BodiesOf, RefOut, InAddress, OutAddress, CoinAt, CoinbaseIn, Mature;
      ghost var bodies := BodiesOf(View());
      var ifee := 0;
      assert ins[..0] == [];
      for i := 0 to |ins|
        invariant Valid() && BodiesOf(View()) == bodies
        invariant InsWorth(conf.c, db, bodies, height, ins[..i]) == Ok(ifee)
      {
        hide InsWorth;
        var inv := ins[i];
        WorthNext(conf.c, db, bodies, height, ins, i);
        if CoinbaseIn(inv) {
          continue;
        }
        var addr := InAddress(conf.c, inv);
        if addr.Err? {
          return Err;
        }
        var outv := RefTxOut(inv);
        if outv.Err? || OutAddress(outv.value) != addr {
          return Err;
        }
        var coin := CoinAt(db, CoinKey(addr.value, inv.out, inv.idx));
        if coin.Err? || outv.value.value != coin.value.value || !Mature(coin.value, height) {
          return Err;
        }
        ifee := ifee + coin.value.value;
      }
      assert ins[..|ins|] == ins;
      r := Ok(ifee);
    }

    /** `check_block_amount`. */
    method CheckBlockAmount(height: U32, b: Block) returns (ok: bool)
      requires Valid()
      modifies this`cache
      ensures Valid()
      ensures ok <==> AmountsOk(conf, db, BodiesOf(View()), height, b)
    {
      hide Consistent, CacheTrue, BodiesOf, Signing.SignaturesPass, TxFees, Reward;
      ghost var bodies := BodiesOf(View());
      var rfee := Reward(conf, height);
      if !ValidAmount(rfee) {
        return false;
      }
      var tfee, cfee := 0, 0;
      assert b.txs[..0] == [];
      for i := 0 to |b.txs|
        invariant Valid() && BodiesOf(View()) == bodies
        invariant BlockFees(conf.c, db, bodies, height, b.txs[..i]) == Ok(Fees(tfee, cfee))
      {
        hide BlockFees;
        FeesNext(conf.c, db, bodies, height, b.txs, i);
        var signed := CheckTxSign(b.txs[i]);
        if !signed {
          return false;
        }
        var f := CheckTxAmount(height, b.txs[i]);
        if f.Err? {
          return false;
        }
        tfee := tfee + f.value.fee;
        if !ValidAmount(tfee) {
          return false;
        }
        cfee := cfee + f.value.minted;
        if !ValidAmount(cfee) {
          return false;
        }
      }
      assert b.txs[..|b.txs|] == b.txs;
      ok := cfee <= rfee + tfee;
    }

    /** `next`. */
    method NextTip() returns (r: Result<Tip>)
      ensures r == Next(conf, db)
    {
      hide EasiestBits, RetargetBits, LookBack, AttrAt, Retargets;
      var best := BestOf(db);
      if best.Err? {
        return Ok(Tip(EasiestBits(conf), 0, ZERO_HASH));
      }
      if best.value.height == 0xFFFF_FFFF {
        return Err;
      }
      var height := best.value.height + 1;
      if best.value.height == 0 {
        return Ok(Tip(EasiestBits(conf), height, best.value.id));
      }
      var last :- AttrAt(db, HashKey(best.value.id));
      if !Retargets(conf, height) {
        return Ok(Tip(last.bhv.bits, height, best.value.id));
      }
      RetargetsFrom(conf, height);
      var back :- LookBack(conf, db, height - conf.span);
      r := Ok(Tip(RetargetBits(conf, last.bhv, back.bhv), height, best.value.id));
    }

    /** Every check of `link`. */
    method Admit(now: int, b: Block) returns (r: Result<Tip>)
      requires Valid()
      modifies this`cache
      ensures Valid()
      ensures r.Ok? <==> Proper(conf, now, db, b) && Next(conf, db).Ok? && b.header.bits == Next(conf, db).value.bits &&
                         Follows(conf, db, BodiesOf(View()), b) &&
                         AmountsOk(conf, db, BodiesOf(View()), Next(conf, db).value.height, b)
      ensures r.Ok? ==> r == Next(conf, db)
    {
      hide Consistent, CacheTrue, BodiesOf, BlockOk, Next, Difficulty.VerifyPow, AmountsOk, BlockId, Body;
      var okay := CheckBlock(conf.c, now, b);
      if !okay {
        return Err;
      }
      if HashKey(BlockId(conf.c, b)) in db {
        return Err;
      }
      if !Difficulty.VerifyPow(BlockId(conf.c, b), conf.limit, b.header.bits) {
        return Err;
      }
      var tip :- NextTip();
      if b.header.bits != tip.bits {
        return Err;
      }
      match BestOf(db) {
        case Ok(top) =>
          BodiesRead(View(), HashKey(top.id));
          var prev := GetById(HashKey(top.id));
          if prev.Err? || b.header.prev != BlockId(conf.c, prev.value) {
            return Err;
          }
        case Err =>
          if BlockId(conf.c, b) != conf.genesis {
            return Err;
          }
      }
      var paid := CheckBlockAmount(tip.height, b);
      if !paid {
        return Err;
      }
      r := Ok(tip);
    }

    /** `write_tx_index`: coins spent and made go into the batch. */
    method WriteTxIndex(batch: IBatch<Key, Value>, ghost es: Edits, best: Best, txid: Hash, tx: Tx)
      returns (r: Result<()>)
      requires Batched(batch, es) && Ok(txid) == TxId(conf.c, tx)
      modifies batch
      ensures r.Ok? <==> EditsOfIns(conf.c, db, best.height, tx.ins).Ok? &&
                         EditsOfOuts(txid, tx, best.height, |tx.outs|).Ok?
      ensures r.Ok? ==> Batched(batch, es + EditsOfIns(conf.c, db, best.height, tx.ins).value +
                                       EditsOfOuts(txid, tx, best.height, |tx.outs|).value)
    {
      hide InAddress, OutAddress, CoinAt, CoinbaseIn, Mature, Batched, TxId, EditsOfIns, EditsOfOuts;
      ghost var height := best.height;
      EditsOfNone(conf.c, db, height, txid, tx);
      assert tx.ins[..0] == [] && es + [] == es;
      ghost var done: Edits := [];
      for i := 0 to |tx.ins|
        invariant EditsOfIns(conf.c, db, height, tx.ins[..i]) == Ok(done) && Batched(batch, es + done)
      {
        var inv := tx.ins[i];
        InEditNext(conf.c, db, height, tx.ins, i);
        if CoinbaseIn(inv) {
          continue;
        }
        var addr := InAddress(conf.c, inv);
        if addr.Err? {
          return Err;
        }
        var k := CoinKey(addr.value, inv.out, inv.idx);
        var coin := CoinAt(db, k);
        if coin.Err? || !Mature(coin.value, best.height) {
          return Err;
        }
        Delete(batch, es + done, k, CoinV(coin.value));
        assert es + done + [Remove(k, Some(CoinV(coin.value)))] == es + (done + [Remove(k, Some(CoinV(coin.value)))]);
        done := done + [Remove(k, Some(CoinV(coin.value)))];
      }
      assert tx.ins[..|tx.ins|] == tx.ins;
      ghost var mid := es + done;
      assert mid + [] == mid;
      done := [];
      for i := 0 to |tx.outs|
        invariant EditsOfOuts(txid, tx, height, i) == Ok(done) && Batched(batch, mid + done)
      {
        OutEditNext(txid, tx, height, i);
        var addr := OutAddress(tx.outs[i]);
        if addr.Err? {
          return Err;
        }
        var k, v := CoinKey(addr.value, txid, i % 0x1_0000), CoinV(MadeCoin(tx, best.height, i));
        Write(batch, mid + done, k, v);
        assert mid + done + [Insert(k, v)] == mid + (done + [Insert(k, v)]);
        done := done + [Insert(k, v)];
      }
      r := Ok(());
    }

    /** The batch of `link`, up to the block's own record. */
    method FillBatch(batch: IBatch<Key, Value>, next: Best, b: Block) returns (r: Result<()>)
      requires Batched(batch, []) && next.id == BlockId(conf.c, b)
      modifies batch
      ensures r.Ok? <==> LinkEdits(conf.c, db, next.height, b).Ok?
      ensures r.Ok? ==> Batched(batch, LinkEdits(conf.c, db, next.height, b).value)
    {
      hide Batched, TxId, EditsOfIns, EditsOfOuts, BlockId, EditsOfTxs;
      match BestOf(db) {
        case Ok(top) => Swap(batch, [], BestKey, BestV(next), BestV(top));
        case Err => Write(batch, [], BestKey, BestV(next));
      }
      ghost var tip := TipEdit(db, next);
      assert [] + [tip] == [tip];
      Write(batch, [tip], HeightKey(next.height), IdV(next.id));
      ghost var head: Edits := [tip] + [Insert(HeightKey(next.height), IdV(next.id))];
      ghost var done: Edits := [];
      assert b.txs[..0] == [] && head + [] == head;
      EditsOfNoTxs(conf.c, db, next.id, next.height);
      for i := 0 to |b.txs|
        invariant EditsOfTxs(conf.c, db, next.id, next.height, b.txs[..i]) == Ok(done) && Batched(batch, head + done)
      {
        var tx := b.txs[i];
        TxEditNext(conf.c, db, next.id, next.height, b.txs, i);
        var txid := TxId(conf.c, tx);
        if txid.Err? || HashKey(txid.value) in db {
          return Err;
        }
        var attr := TxV(TxAttr(next.id, i % 0x1_0000));
        Write(batch, head + done, HashKey(txid.value), attr);
        ghost var own: Edits := [Insert(HashKey(txid.value), attr)];
        var wrote := WriteTxIndex(batch, head + done + own, next, txid.value, tx);
        if wrote.Err? {
          return Err;
        }
        ghost var ins := EditsOfIns(conf.c, db, next.height, tx.ins).value;
        ghost var outs := EditsOfOuts(txid.value, tx, next.height, |tx.outs|).value;
        Regrouped(head, done, own, ins, outs);
        done := done + (own + ins + outs);
      }
      assert b.txs[..|b.txs|] == b.txs;
      r := Ok(());
    }

    /** The writes of `link`: block bytes, undo log, then the batch with the block's own record. */
    method CommitBlock(now: int, b: Block, next: Best, batch: IBatch<Key, Value>) returns (r: Result<Best>)
      requires blk != rev && blk.Valid() && rev.Valid() && blk.max == MAX_FILE_SIZE && rev.max == MAX_FILE_SIZE
      requires BlockFits(b) && |BlockBytes(b)| <= MAX_BLOCK_SIZE && next.id == BlockId(conf.c, b)
      requires LinkEdits(conf.c, db, next.height, b).Ok? && Batched(batch, LinkEdits(conf.c, db, next.height, b).value)
      modifies `db, blk, rev, batch
      ensures blk.Valid() && rev.Valid() && View().blk != [] && View().rev != []
      ensures (View(), r) == Commit(conf.c, now, old(View()), next.height, b)
    {
      hide LinkEdits, BlockId, BlockBytes, UndoLog, Batched, Pushed, Forward, Applied, Commit, Written;
      ghost var s := View();
      UndoLogFits(conf.c, db, next.height, b);
      Committing(conf.c, now, s, next.height, b);
      var blkwb := new Writer();
      EncodeBlock(blkwb, b);
      assert [] + BlockBytes(b) == BlockBytes(b);
      var revwb := UndoBytes(batch, conf.c, db, next.height, b);
      var at := blk.Push(blkwb.inner);
      if at.Err? {
        return Err;
      }
      var undo := rev.Push(revwb);
      if undo.Err? {
        return Err;
      }
      ghost var e := Entry(b, at.value, undo.value, now);
      Write(batch, LinkEdits(conf.c, db, next.height, b).value, HashKey(next.id),
            BlkV(BlkAttr(b.header, next.height, at.value, undo.value)));
      BatchWrites(batch, conf.c, db, next.height, e);
      db := Applied(batch.b, db);
      r := Ok(next);
    }

    /** `link`. */
    method LinkBlock(now: int, b: Block) returns (r: Result<Best>)
      requires Valid()
      modifies this, blk, rev
      ensures Valid()
      ensures (View(), r) == Link(conf, now, old(View()), b)
      ensures chain == Grow(conf, old(View()), old(chain), Linking(now, b))
    {
      hide Consistent, CacheTrue, BodiesOf, Proper, Follows, AmountsOk, Next, LinkEdits,
           Body, BlockId, BlockBytes, UndoLog;
      hide Acceptable, Batched, Commit, Step, Placed;
      ghost var s, es := View(), chain;
      LinkWhen(conf, now, s, b);
      LinkAtomic(conf, now, s, b);
      LinkStep(conf, es, now, s, b);
      StepIsLink(conf, s, now, b);
      BodiesKept(conf, es, now, s, b);
      var tip := Admit(now, b);
      if tip.Err? {
        return Err;
      }
      var next := Best(BlockId(conf.c, b), tip.value.height);
      var batch := NewBatch();
      var filled := FillBatch(batch, next, b);
      if filled.Err? {
        return Err;
      }
      AcceptableFits(conf, now, s.db, BodiesOf(s), b);
      AcceptableSize(conf, now, s.db, BodiesOf(s), b);
      LinkCommits(conf, now, s, b);
      ghost var seen := cache;
      CachedBodies();
      r := CommitBlock(now, b, next, batch);
      chain := Grow(conf, s, es, Linking(now, b));
      CacheStays(seen, s);
    }

    /** The batch of `pop`: the stored undo log, and the removal of the block's own record. */
    method UndoBatch(attr: BlkAttr, k: Key) returns (r: Result<Ops>)
      requires rev.Valid()
      ensures r == UndoOps(rev.files, attr, k)
    {
      hide Typed, ReadLog, Pulled, KeyBytes;
      var log :- rev.Pull(attr.rev);
      var batch :- ParseBatch(log);
      DeleteTyped(batch.b, k);
      batch.Del(KeyBytes(k), None);
      r := Typed(batch.b);
    }

    /** `pop`; the block leaves the cache with its record. */
    method PopBlock() returns (r: Result<Block>)
      requires Valid()
      modifies this
      ensures Valid()
      ensures (View(), r) == Pop(conf, old(View()))
      ensures chain == Grow(conf, old(View()), old(chain), Popping)
    {
      hide Consistent, CacheTrue, Body, Applied, UndoOf, EntryBodies, Pulled, ReadBlock, Reread, DbBelow, AttrAt;
      ghost var s, es := View(), chain;
      PopStep(conf, es, s);
      PopBodies(conf, es, s);
      var best :- BestOf(db);
      if best.id == conf.genesis {
        return Err;
      }
      var k := HashKey(best.id);
      BodyPulls(s, k);
      var attr :- AttrAt(db, k);
      var buf :- blk.Pull(attr.blk);
      var b :- ReadBlock(buf);
      var ops :- UndoBatch(attr, k);
      ghost var seen := cache;
      CachedBodies();
      cache := cache - {k};
      db := Applied(ops, db);
      chain := Grow(conf, s, es, Popping);
      CacheLess(seen, s, k);
      r := Ok(b.value);
    }

    /** As above, for the cache without one block. */
    lemma CacheLess(seen: map<Key, Block>, s: State, gone: Key)
      requires cache == seen - {gone} && forall k :: k in seen ==> k.HashKey? && Body(s, k) == Ok(seen[k])
      requires forall k :: k != gone && Body(s, k).Ok? ==> Body(View(), k) == Body(s, k)
      ensures CacheTrue()
    {
      hide Body;
    }

    lemma CachedBodies()
      requires CacheTrue()
      ensures forall k :: k in cache ==> k.HashKey? && Body(View(), k) == Ok(cache[k])
    {
      hide Body;
    }

    /** What was cached is still true if every readable block reads the same. */
    lemma CacheStays(seen: map<Key, Block>, s: State)
      requires cache == seen && forall k :: k in seen ==> k.HashKey? && Body(s, k) == Ok(seen[k])
      requires forall k :: Body(s, k).Ok? ==> Body(View(), k) == Body(s, k)
      ensures CacheTrue()
    {
      hide Body;
    }
  }

  /** Linking never changes what can be read already. */
  lemma BodiesKept(conf: Conf, es: Blocks32, now: int, s: State, b: Block)
    requires Consistent(conf, es, s) && s.blk != [] && s.rev != []
    ensures forall k :: Body(s, k).Ok? ==> Body(Link(conf, now, s, b).0, k) == Body(s, k)
  {
    hide Consistent, Body, Link, EntryBodies, Placed;
    var more, next := Grow(conf, s, es, Linking(now, b)), Link(conf, now, s, b).0;
    LinkStep(conf, es, now, s, b);
    StepIsLink(conf, s, now, b);
    forall k | Body(s, k).Ok? ensures Body(next, k) == Body(s, k) {
      BodyIs(conf, es, s, k);
      BodyIs(conf, more, next, k);
      if Link(conf, now, s, b).1.Ok? {
        ConsistentParts(conf, more, next);
        BodiesGrow(conf, es, more, k);
      }
    }
  }

  lemma BodiesGrow(conf: Conf, es: Blocks32, more: Blocks32, k: Key)
    requires more != [] && Grown(conf, more) && es == more[..|more| - 1] && k in EntryBodies(conf.c, es)
    ensures k in EntryBodies(conf.c, more) && EntryBodies(conf.c, more)[k] == EntryBodies(conf.c, es)[k]
  {
    hide Grown, Reread, IdOf, Replay;
    NewId(conf, more);
    GrownPrefix(conf, more, |more| - 1);
    BodyKeys(conf.c, es, k);
    BodiesAre(conf, es, k);
  }

  lemma BodyPulls(s: State, k: Key)
    requires k.HashKey?
    ensures Body(s, k) ==
            var attr :- AttrAt(s.db, k);
            var buf :- Pulled(s.blk, attr.blk);
            var b :- ReadBlock(buf);
            Ok(b.value)
    ensures AttrAt(s.db, k).Ok? ==> k in s.db && s.db[k] == BlkV(AttrAt(s.db, k).value)
  {
    hide ReadBlock, Pulled;
  }

  lemma DeleteTyped(raw: seq<RawOp>, k: Key)
    ensures Typed(raw + [Del(KeyBytes(k))]) == if Typed(raw).Ok? then Ok(Typed(raw).value + [Del(k)]) else Err
  {
    KeyBack(k);
    var more := raw + [Del(KeyBytes(k))];
    assert more[..|more| - 1] == raw;
    hide KeyOf, KeyBytes;
  }

  /** Popping changes only what can be read under the popped block's id. */
  lemma PopBodies(conf: Conf, es: Blocks32, s: State)
    requires Consistent(conf, es, s)
    ensures var best := BestOf(s.db);
            best.Ok? ==> forall k :: k != HashKey(best.value.id) && Body(s, k).Ok? ==>
              Body(Pop(conf, s).0, k) == Body(s, k)
  {
    hide Consistent, Body, Pop, EntryBodies, Grown, Replay;
    PopStep(conf, es, s);
    ConsistentParts(conf, es, s);
    TipIs(conf.c, es);
    if Pop(conf, s).1.Ok? {
      var less, next := es[..|es| - 1], Pop(conf, s).0;
      forall k | k != HashKey(IdOf(conf.c, TopOf(es))) && Body(s, k).Ok? ensures Body(next, k) == Body(s, k) {
        BodyIs(conf, es, s, k);
        BodyIs(conf, less, next, k);
        BodiesShrink(conf.c, es, k);
      }
    }
  }

  lemma BodiesShrink(c: Suite, es: Blocks32, k: Key)
    requires es != [] && k != HashKey(IdOf(c, TopOf(es))) && k in EntryBodies(c, es)
    ensures k in EntryBodies(c, es[..|es| - 1]) && EntryBodies(c, es[..|es| - 1])[k] == EntryBodies(c, es)[k]
  {
    hide Reread, IdOf;
  }

  /** The pieces of a commit, as they fall out. */
  lemma Committing(c: Suite, now: int, s: State, height: U32, b: Block)
    requires BlockFits(b) && LinkEdits(c, s.db, height, b).Ok? && s.blk != [] && s.rev != []
    ensures var (blk, at) := Pushed(s.blk, MAX_FILE_SIZE, BlockBytes(b));
            var (rev, undo) := Pushed(s.rev, MAX_FILE_SIZE, UndoLog(c, s.db, height, b));
            && (at.Err? ==> blk == s.blk) && (undo.Err? ==> rev == s.rev)
            && Commit(c, now, s, height, b) ==
               if at.Err? then (s, Err)
               else if undo.Err? then (s.(blk := blk), Err)
               else (State(Written(c, s.db, height, Entry(b, at.value, undo.value, now)), blk, rev),
                      Ok(Best(BlockId(c, b), height)))
  {
    hide LinkEdits, UndoLog, BlockBytes, BlockFits, Written, BlockId;
  }

  lemma LinkCommits(conf: Conf, now: int, s: State, b: Block)
    requires s.blk != [] && s.rev != [] && BlockFits(b)
    requires Next(conf, s.db).Ok? && LinkEdits(conf.c, s.db, Next(conf, s.db).value.height, b).Ok?
    ensures Link(conf, now, s, b) == Commit(conf.c, now, s, Next(conf, s.db).value.height, b) ||
            !Acceptable(conf, now, s.db, BodiesOf(s), b)
  {
    hide Acceptable, Commit, Next, LinkEdits, BlockFits, BodiesOf;
  }

  /** A link succeeds as its checks and its batch allow. */
  lemma LinkWhen(conf: Conf, now: int, s: State, b: Block)
    requires s.blk != [] && s.rev != []
    ensures var tip := Next(conf, s.db);
            Acceptable(conf, now, s.db, BodiesOf(s), b) ==
            (Proper(conf, now, s.db, b) && tip.Ok? && b.header.bits == tip.value.bits &&
             Follows(conf, s.db, BodiesOf(s), b) && AmountsOk(conf, s.db, BodiesOf(s), tip.value.height, b) &&
             LinkEdits(conf.c, s.db, tip.value.height, b).Ok?)
  {
    hide Proper, Next, Follows, AmountsOk, LinkEdits, BodiesOf;
  }

  // The batch.

  ghost predicate Batched(batch: IBatch<Key, Value>, es: Edits)
    reads batch
  {
    && batch.keyBytes == KeyBytes && batch.packed == ValueBytes
    && batch.b == Forward(es) && batch.f == Some(Reverse(es))
  }

  lemma OneMore(es: Edits, e: Edit<Key, Value>)
    ensures Forward(es + [e]) == Forward(es) + [Forward1(e)]
    ensures Reverse(es + [e]) == Reverse(es) + Reverse1(e)
  {
    assert (es + [e])[..|es|] == es;
  }

  method NewBatch() returns (batch: IBatch<Key, Value>)
    ensures fresh(batch) && Batched(batch, [])
  {
    batch := new IBatch(true, KeyBytes, ValueBytes);
  }

  /** The undo log of a batch, as it is stored. */
  method UndoBytes(batch: IBatch<Key, Value>, ghost c: Suite, ghost db: Db, ghost height: U32, ghost b: Block)
    returns (r: Bytes)
    requires LinkEdits(c, db, height, b).Ok? && Batched(batch, LinkEdits(c, db, height, b).value)
    ensures r == UndoLog(c, db, height, b)
  {
    hide Reverse, Forward, LogBytes, KeyBytes, ValueBytes, LinkEdits;
    ghost var ops := Reverse(LinkEdits(c, db, height, b).value);
    forall i | 0 <= i < |ops| ensures Fits(Raw1(KeyBytes, ValueBytes, ops[i])) {
      KeySize(ops[i]);
    }
    r := batch.ReverseBytes();
  }

  lemma BatchWrites(batch: IBatch<Key, Value>, c: Suite, db: Db, height: U32, e: Entry)
    requires LinkEdits(c, db, height, e.block).Ok?
    requires Batched(batch, LinkEdits(c, db, height, e.block).value + [IdEdit(c, height, e)])
    ensures Applied(batch.b, db) == Written(c, db, height, e)
  {
    hide Forward, Applied, LinkEdits;
  }

  method Write(batch: IBatch<Key, Value>, ghost es: Edits, k: Key, v: Value)
    requires Batched(batch, es)
    modifies batch
    ensures Batched(batch, es + [Insert(k, v)])
  {
    OneMore(es, Insert(k, v));
    batch.Put(k, v);
  }

  method Swap(batch: IBatch<Key, Value>, ghost es: Edits, k: Key, v: Value, was: Value)
    requires Batched(batch, es)
    modifies batch
    ensures Batched(batch, es + [Replace(k, v, was)])
  {
    OneMore(es, Replace(k, v, was));
    batch.Set(k, v, was);
  }

  method Delete(batch: IBatch<Key, Value>, ghost es: Edits, k: Key, was: Value)
    requires Batched(batch, es)
    modifies batch
    ensures Batched(batch, es + [Remove(k, Some(was))])
  {
    OneMore(es, Remove(k, Some(was)));
    batch.Del(k, Some(was));
  }

  lemma Regrouped(head: Edits, done: Edits, own: Edits, ins: Edits, outs: Edits)
    ensures head + done + own + ins + outs == head + (done + (own + ins + outs))
  {
  }

  lemma EditsOfNone(c: Suite, db: Db, height: U32, txid: Hash, tx: Tx)
    ensures EditsOfIns(c, db, height, []) == Ok([]) && EditsOfOuts(txid, tx, height, 0) == Ok([])
  {
  }

  lemma EditsOfNoTxs(c: Suite, db: Db, id: Hash, height: U32)
    ensures EditsOfTxs(c, db, id, height, []) == Ok([])
  {
  }

  lemma InEditNext(c: Suite, db: Db, height: U32, ins: seq<TxIn>, i: nat)
    requires i < |ins| && EditsOfIns(c, db, height, ins[..i]).Ok?
    ensures var t, inv, next := EditsOfIns(c, db, height, ins[..i]).value, ins[i],
                EditsOfIns(c, db, height, ins[..i + 1]);
            if CoinbaseIn(inv) then next == Ok(t)
            else
              var addr := InAddress(c, inv);
              if addr.Ok? && CoinAt(db, CoinKey(addr.value, inv.out, inv.idx)).Ok? &&
                 Mature(CoinAt(db, CoinKey(addr.value, inv.out, inv.idx)).value, height)
              then next == Ok(t + [Remove(CoinKey(addr.value, inv.out, inv.idx),
                                          Some(CoinV(CoinAt(db, CoinKey(addr.value, inv.out, inv.idx)).value)))])
              else next.Err? && EditsOfIns(c, db, height, ins).Err?
  {
    hide InAddress, CoinAt, CoinbaseIn, Mature;
    assert ins[..i + 1][..i] == ins[..i];
    if EditsOfIns(c, db, height, ins[..i + 1]).Err? {
      InEditsFail(c, db, height, ins, i + 1);
    }
  }

  lemma {:induction false} InEditsFail(c: Suite, db: Db, height: U32, ins: seq<TxIn>, n: nat)
    requires n <= |ins| && EditsOfIns(c, db, height, ins[..n]).Err?
    ensures EditsOfIns(c, db, height, ins).Err?
    decreases |ins| - n
  {
    hide InAddress, CoinAt, CoinbaseIn, Mature;
    if n < |ins| {
      assert ins[..n + 1][..n] == ins[..n];
      InEditsFail(c, db, height, ins, n + 1);
    } else {
      assert ins[..n] == ins;
    }
  }

  lemma OutEditNext(txid: Hash, tx: Tx, height: U32, i: nat)
    requires i < |tx.outs| && EditsOfOuts(txid, tx, height, i).Ok?
    ensures var t, addr, next := EditsOfOuts(txid, tx, height, i).value, OutAddress(tx.outs[i]),
                EditsOfOuts(txid, tx, height, i + 1);
            if addr.Ok?
            then next == Ok(t + [Insert(CoinKey(addr.value, txid, i % 0x1_0000), CoinV(MadeCoin(tx, height, i)))])
            else EditsOfOuts(txid, tx, height, |tx.outs|).Err?
  {
    hide OutAddress;
    if EditsOfOuts(txid, tx, height, i + 1).Err? {
      OutEditsFail(txid, tx, height, i + 1);
    }
  }

  lemma {:induction false} OutEditsFail(txid: Hash, tx: Tx, height: U32, n: nat)
    requires n <= |tx.outs| && EditsOfOuts(txid, tx, height, n).Err?
    ensures EditsOfOuts(txid, tx, height, |tx.outs|).Err?
    decreases |tx.outs| - n
  {
    hide OutAddress;
    if n < |tx.outs| {
      OutEditsFail(txid, tx, height, n + 1);
    }
  }

  lemma TxEditNext(c: Suite, db: Db, id: Hash, height: U32, txs: seq<Tx>, i: nat)
    requires i < |txs| && EditsOfTxs(c, db, id, height, txs[..i]).Ok?
    ensures var t, tx, next := EditsOfTxs(c, db, id, height, txs[..i]).value, txs[i],
                EditsOfTxs(c, db, id, height, txs[..i + 1]);
            var txid, ins := TxId(c, tx), EditsOfIns(c, db, height, tx.ins);
            if txid.Ok? && HashKey(txid.value) !in db && ins.Ok? && EditsOfOuts(txid.value, tx, height, |tx.outs|).Ok?
            then next == Ok(t + ([Insert(HashKey(txid.value), TxV(TxAttr(id, i % 0x1_0000)))] + ins.value +
                                 EditsOfOuts(txid.value, tx, height, |tx.outs|).value))
            else EditsOfTxs(c, db, id, height, txs).Err?
  {
    hide TxId, EditsOfIns, EditsOfOuts;
    assert txs[..i + 1][..i] == txs[..i];
    if EditsOfTxs(c, db, id, height, txs[..i + 1]).Err? {
      TxEditsFail(c, db, id, height, txs, i + 1);
    }
  }

  lemma {:induction false} TxEditsFail(c: Suite, db: Db, id: Hash, height: U32, txs: seq<Tx>, n: nat)
    requires n <= |txs| && EditsOfTxs(c, db, id, height, txs[..n]).Err?
    ensures EditsOfTxs(c, db, id, height, txs).Err?
    decreases |txs| - n
  {
    hide EditsOfTx;
    if n < |txs| {
      assert txs[..n + 1][..n] == txs[..n];
      TxEditsFail(c, db, id, height, txs, n + 1);
    } else {
      assert txs[..n] == txs;
    }
  }

  lemma NoTotal(outs: seq<TxOut>)
    ensures Total(outs[..0]) == 0
  {
  }

  lemma TotalNext(outs: seq<TxOut>, i: nat)
    requires i < |outs|
    ensures Total(outs[..i + 1]) == Total(outs[..i]) + outs[i].value
  {
    assert outs[..i + 1][..i] == outs[..i];
  }

  /** One input more; a failure is a failure of the whole. */
  lemma WorthNext(c: Suite, db: Db, bodies: Bodies, height: U32, ins: seq<TxIn>, i: nat)
    requires i < |ins| && InsWorth(c, db, bodies, height, ins[..i]).Ok?
    ensures var w := InsWorth(c, db, bodies, height, ins[..i]).value;
            var inv, next := ins[i], InsWorth(c, db, bodies, height, ins[..i + 1]);
            if CoinbaseIn(inv) then next == Ok(w)
            else
              var addr, outv := InAddress(c, inv), RefOut(db, bodies, Point(inv));
              if addr.Ok? && outv.Ok? && OutAddress(outv.value) == addr &&
                 CoinAt(db, CoinKey(addr.value, inv.out, inv.idx)).Ok? &&
                 outv.value.value == CoinAt(db, CoinKey(addr.value, inv.out, inv.idx)).value.value &&
                 Mature(CoinAt(db, CoinKey(addr.value, inv.out, inv.idx)).value, height)
              then next == Ok(w + outv.value.value)
              else next.Err? && InsWorth(c, db, bodies, height, ins).Err?
  {
    hide RefOut, InAddress, OutAddress, CoinAt, CoinbaseIn, Mature;
    assert ins[..i + 1][..i] == ins[..i];
    if InsWorth(c, db, bodies, height, ins[..i + 1]).Err? {
      WorthFails(c, db, bodies, height, ins, i + 1);
    }
  }

  lemma {:induction false} WorthFails(c: Suite, db: Db, bodies: Bodies, height: U32, ins: seq<TxIn>, n: nat)
    requires n <= |ins| && InsWorth(c, db, bodies, height, ins[..n]).Err?
    ensures InsWorth(c, db, bodies, height, ins).Err?
    decreases |ins| - n
  {
    hide RefOut, InAddress, OutAddress, CoinAt, CoinbaseIn, Mature;
    if n < |ins| {
      assert ins[..n + 1][..n] == ins[..n];
      WorthFails(c, db, bodies, height, ins, n + 1);
    } else {
      assert ins[..n] == ins;
    }
  }

  lemma {:induction false} FeesNext(c: Suite, db: Db, bodies: Bodies, height: U32, txs: seq<Tx>, i: nat)
    requires i < |txs| && BlockFees(c, db, bodies, height, txs[..i]).Ok?
    ensures var t := BlockFees(c, db, bodies, height, txs[..i]).value;
            var f, next := TxFees(c, db, bodies, height, txs[i]), BlockFees(c, db, bodies, height, txs[..i + 1]);
            if Signing.SignaturesPass(c, RefLookup(db, bodies), txs[i]) && f.Ok? &&
               ValidAmount(t.fee + f.value.fee) && ValidAmount(t.minted + f.value.minted)
            then next == Ok(Fees(t.fee + f.value.fee, t.minted + f.value.minted))
            else next.Err? && BlockFees(c, db, bodies, height, txs).Err?
  {
    hide Signing.SignaturesPass, TxFees;
    assert txs[..i + 1][..i] == txs[..i];
    if BlockFees(c, db, bodies, height, txs[..i + 1]).Err? {
      FeesFail(c, db, bodies, height, txs, i + 1);
    }
  }

  lemma {:induction false} FeesFail(c: Suite, db: Db, bodies: Bodies, height: U32, txs: seq<Tx>, n: nat)
    requires n <= |txs| && BlockFees(c, db, bodies, height, txs[..n]).Err?
    ensures BlockFees(c, db, bodies, height, txs).Err?
    decreases |txs| - n
  {
    hide Signing.SignaturesPass, TxFees;
    if n < |txs| {
      assert txs[..n + 1][..n] == txs[..n];
      FeesFail(c, db, bodies, height, txs, n + 1);
    } else {
      assert txs[..n] == txs;
    }
  }
}
