/** The difficulty schedule over a chain, and how its blocks hang together. */
module Schedule {
  import opened Common
  import opened Iobuf
  import opened Crypto
  import opened Blocks
  import opened Difficulty
  import opened Journal
  import opened Ledger
  import opened Chains

  /** Blocks hang together: each names the id of the one before. */
  lemma Chained(conf: Conf, es: Blocks32, h: nat)
    requires Grown(conf, es) && 0 < h < |es|
    ensures es[h].block.header.prev == IdOf(conf.c, es[h - 1])
  {
    hide Grown, Replay, Topped, EntryBodies, AmountsOk, LinkEdits, Reread, BlockFits;
    var c, upto, below := conf.c, es[..h + 1], es[..h];
    GrownPrefix(conf, es, h + 1);
    GrownPrefix(conf, es, h);
    assert upto[..h] == below && TopOf(upto) == es[h] && TopOf(below) == es[h - 1];
    TopLinks(conf, upto);
    TipIs(c, below);
    IdIndexed(conf, below, h - 1);
    BodiesAre(conf, below, HashKey(IdOf(c, es[h - 1])));
    Fits(conf, es, h - 1);
    RereadIs(es[h - 1].block);
  }

  lemma Fits(conf: Conf, es: Blocks32, h: nat)
    requires Grown(conf, es) && h < |es|
    ensures BlockFits(es[h].block)
  {
    hide Grown, Replay, Topped, EntryBodies, BlockFits, BlockBytes, TxOk, AllIns, MerkleRoot, Next, Fitting;
    GrownPrefix(conf, es, h + 1);
    LastOfPrefix(es, h);
    TopFits(conf, es[..h + 1]);
  }

  /** The block after `n` others has its difficulty computed anew. */
  predicate Anew(conf: Conf, n: nat) {
    n > 1 && Retargets(conf, n)
  }

  /** The header a retarget at height `n` looks back to. */
  function BackHeader(conf: Conf, es: Blocks32): Header
    requires Anew(conf, |es|) && |es| >= conf.span
  {
    es[|es| - conf.span].block.header
  }

  lemma LastHeader(conf: Conf, es: Blocks32)
    requires Grown(conf, es) && es != []
    ensures AttrAt(Replay(conf.c, es), HashKey(IdOf(conf.c, TopOf(es)))).Ok?
    ensures AttrAt(Replay(conf.c, es), HashKey(IdOf(conf.c, TopOf(es)))).value.bhv == TopOf(es).block.header
  {
    hide Grown, Replay, IdOf;
    IdIndexed(conf, es, |es| - 1);
  }

  /** As written the look-back never finds block attributes; the intended one finds the block a period back. */
  lemma LookBackIs(conf: Conf, es: Blocks32, h: nat)
    requires Grown(conf, es) && h < |es|
    ensures conf.retarget == AsWritten ==> LookBack(conf, Replay(conf.c, es), h).Err?
    ensures conf.retarget == Intended ==>
              LookBack(conf, Replay(conf.c, es), h).Ok? &&
              LookBack(conf, Replay(conf.c, es), h).value.bhv == es[h].block.header
  {
    hide Grown, Replay, IdOf;
    HeightsAre(conf.c, es, h);
    IdIndexed(conf, es, h);
  }

  /** What `next` requires of the next block, spelled out on the chain itself. It fails when heights run out and, as
      written, at every retarget. */
  lemma {:induction false} NextIs(conf: Conf, es: Blocks32)
    requires Grown(conf, es)
    ensures var next := Next(conf, Replay(conf.c, es));
            next.Ok? <==> |es| < 0x1_0000_0000 && (Anew(conf, |es|) ==> conf.retarget == Intended)
    ensures var next := Next(conf, Replay(conf.c, es));
            next.Ok? ==>
              && next.value.height == |es|
              && (es != [] ==> next.value.prev == IdOf(conf.c, TopOf(es)))
              && (Anew(conf, |es|) ==> |es| >= conf.span)
              && next.value.bits ==
                 if |es| <= 1 then EasiestBits(conf)
                 else if Anew(conf, |es|) then RetargetBits(conf, TopOf(es).block.header, BackHeader(conf, es))
                 else TopOf(es).block.header.bits
  {
    hide Grown, Replay, IdOf, EasiestBits, RetargetBits, LookBack, AttrAt, Retargets;
    TipIs(conf.c, es);
    if es != [] {
      LastHeader(conf, es);
      if Anew(conf, |es|) {
        RetargetsFrom(conf, |es|);
        LookBackIs(conf, es, |es| - conf.span);
      }
    }
  }

  lemma NeverAnew(conf: Conf, es: Blocks32)
    requires Grown(conf, es) && es != [] && conf.retarget == AsWritten
    ensures !Anew(conf, |es| - 1)
  {
    hide Grown, Replay, IdOf, Next, Anew;
    GrownPrefix(conf, es, |es| - 1);
    NextIs(conf, es[..|es| - 1]);
    NeedsNext(conf, es);
  }

  /** As written no chain outgrows its first retarget period. */
  lemma AsWrittenStalls(conf: Conf, es: Blocks32)
    requires Grown(conf, es) && conf.retarget == AsWritten
    ensures |es| <= if conf.span > 2 then conf.span else 2
  {
    hide Grown, Anew;
    var n: nat := if conf.span > 2 then conf.span else 2;
    FirstRetarget(conf, n);
    if |es| > n {
      GrownPrefix(conf, es, n + 1);
      NeverAnew(conf, es[..n + 1]);
    }
  }

  lemma FirstRetarget(conf: Conf, n: nat)
    requires n == if conf.span > 2 then conf.span else 2
    ensures Anew(conf, n)
  {
    if conf.span == 1 {
      assert 2 % 1 == 0;
    }
  }

  lemma NeedsNext(conf: Conf, es: Blocks32)
    requires Grown(conf, es) && es != []
    ensures Next(conf, DbBelow(conf.c, es)).Ok?
    ensures TopOf(es).block.header.bits == Next(conf, DbBelow(conf.c, es)).value.bits
  {
    hide Grown, Replay, Next, Follows, AmountsOk, LinkEdits, Proper, EntryBodies;
    TopFits(conf, es);
  }

  /** Every block of a chain was mined to a target no easier than the limit. */
  lemma MinedWithin(conf: Conf, es: Blocks32)
    requires Grown(conf, es) && es != []
    ensures Decode(TopOf(es).block.header.bits) <= Number(conf.limit)
    ensures Number(IdOf(conf.c, TopOf(es))) <= Decode(TopOf(es).block.header.bits)
  {
    hide Grown, Replay, Next, Fitting, BlockOk, EntryBodies, Number, Decode;
    TopFits(conf, es);
  }

  /** Whatever `next` requires can be met: the target lies within the limit, and is at most four times the target
      before it. */
  lemma RequiredWithinLimit(conf: Conf, es: Blocks32)
    requires Grown(conf, es) && Next(conf, Replay(conf.c, es)).Ok?
    ensures var bits := Next(conf, Replay(conf.c, es)).value.bits;
            && Decode(bits) <= Number(conf.limit)
            && (|es| > 1 ==> Decode(bits) <= 4 * Decode(TopOf(es).block.header.bits))
  {
    hide Grown, Replay, Next, Number, Decode, ComputeBits, Compact, Timestamp, Retargets;
    NextIs(conf, es);
    if |es| <= 1 {
      CompactError(Number(conf.limit));
    } else {
      MinedWithin(conf, es);
      if Anew(conf, |es|) {
        var last, back := TopOf(es).block.header, BackHeader(conf, es);
        var sub, goal := RetargetSafe(conf.limit, conf.time, Timestamp(last), Timestamp(back), last.bits);
      }
    }
  }

  /** What the intended `next` requires, in terms of the chain alone: the easiest bits for the first two blocks; then
      those of the last block, but at every multiple of the span the old target times the time between the block one
      span back and the last one over the period, held and rounded. */
  lemma {:induction false} RequiredIs(conf: Conf, es: Blocks32) returns (sub: nat, goal: nat)
    requires Grown(conf, es) && conf.retarget == Intended && |es| < 0x1_0000_0000
    ensures Next(conf, Replay(conf.c, es)).Ok? && Next(conf, Replay(conf.c, es)).value.height == |es|
    ensures var bits := Next(conf, Replay(conf.c, es)).value.bits;
            && (|es| <= 1 ==> bits == Compact(Number(conf.limit)))
            && (|es| > 1 && |es| % conf.span != 0 ==> bits == TopOf(es).block.header.bits)
            && (|es| > 1 && |es| % conf.span == 0 ==>
                  && |es| >= conf.span
                  && var last, back := TopOf(es).block.header, es[|es| - conf.span].block.header;
                     && Bounded(sub, conf.time, Timestamp(last) - Timestamp(back))
                     && Aimed(goal, Number(conf.limit), conf.time, Decode(last.bits), sub)
                     && Decode(bits) <= goal
                     && (Decode(bits) == goal || (goal - Decode(bits)) * 0x8000 < Decode(bits)))
  {
    hide Grown, Replay, Next, Number, Decode, ComputeBits, Compact, Timestamp, Bounded, Aimed;
    sub, goal := 0, 0;
    NextIs(conf, es);
    if |es| > 1 && |es| % conf.span == 0 {
      MinedWithin(conf, es);
      var last, back := TopOf(es).block.header, BackHeader(conf, es);
      sub, goal := RetargetSafe(conf.limit, conf.time, Timestamp(last), Timestamp(back), last.bits);
    }
  }

  /** When the limit leaves room for four times the period, the product a retarget forms fits a digest on every chain,
      so the conversion that would fail on more never does. */
  lemma RetargetProductFits(conf: Conf, es: Blocks32, elapsed: nat)
    requires Grown(conf, es) && es != [] && Number(conf.limit) * (4 * conf.time) < Pow256(32)
    ensures Decode(TopOf(es).block.header.bits) * Clamp(elapsed, conf.time) < Pow256(32)
  {
    hide Grown, Number, Decode, Clamp, Pow256;
    MinedWithin(conf, es);
    RetargetFits(Number(conf.limit), conf.time, elapsed, Decode(TopOf(es).block.header.bits));
  }

  /** No run, however it links and pops, ever holds a chain past its first retarget period as written. */
  lemma NoRunRetargets(conf: Conf, evs: seq<Event>)
    requires conf.retarget == AsWritten
    ensures |History(conf, evs)| <= if conf.span > 2 then conf.span else 2
  {
    hide *;
    IndexRefinesReplay(conf, evs);
    ConsistentParts(conf, History(conf, evs), Run(conf, evs));
    AsWrittenStalls(conf, History(conf, evs));
  }
}
