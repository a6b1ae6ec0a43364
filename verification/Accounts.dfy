/** Keys, signatures and digests as the program uses them. The primitives are parameters of the model. */
module Crypto {
  import opened Common

  type PubKey = s: Bytes | |s| == 33 witness seq(33, i => 0)
  /** A signature in its DER form. */
  type Sig = s: Bytes | 8 <= |s| <= 72 witness seq(8, i => 0)
  type PriKey = nat

  datatype Suite = Suite(
    hash: Bytes -> Hash,
    pubOf: PriKey -> PubKey,
    parsePub: Bytes -> Option<PubKey>,
    parseSig: Bytes -> Option<Sig>,
    sign: (PriKey, Bytes) -> Sig,
    verify: (PubKey, Bytes, Sig) -> bool)

  /** Keys that belong to a private key, and signatures that were made, parse back; other bytes need not parse. */
  ghost predicate Parses(c: Suite) {
    && (forall k :: c.parsePub(c.pubOf(k)) == Some(c.pubOf(k)))
    && (forall k, m :: c.parseSig(c.sign(k, m)) == Some(c.sign(k, m)))
  }

  /** A signature verifies under the key that made it. */
  ghost predicate Signs(c: Suite) {
    forall k, m :: c.verify(c.pubOf(k), m, c.sign(k, m))
  }
}

/** src/account.rs: multi-signature accounts. */
module Accounts {
  import opened Common
  import opened Iobuf
  import opened Crypto

  const MAX_KEYS := 16

  /** The value of an account; a slot of `pris`, `pubs` or `sigs` may be empty. */
  datatype Acc = Acc(num: Byte, less: Byte, arb: Byte,
                     pris: seq<Option<PriKey>>, pubs: seq<Option<PubKey>>, sigs: seq<Option<Sig>>)

  /** The filled slots, in order. */
  function Filled<T>(s: seq<Option<T>>): (r: seq<T>)
    ensures |r| <= |s|
  {
    if s == [] then []
    else if s[0].Some? then [s[0].value] + Filled(s[1..])
    else Filled(s[1..])
  }

  /** What `Account::new` guarantees and no method changes: one slot of each kind per key, and the arbiter, if
      any, is the last key. */
  predicate WellMade(a: Acc) {
    |a.pris| == |a.pubs| == |a.sigs| == a.num && (a.arb == 0xFF || a.arb == a.num - 1)
  }

  predicate UseArb(a: Acc) {
    a.arb != 0xFF && a.arb == a.num - 1
  }

  predicate Check(a: Acc) {
    && 1 <= a.num <= MAX_KEYS
    && 1 <= a.less <= a.num
    && (UseArb(a) ==> a.num >= 2)
  }

  predicate CheckWithPubs(a: Acc) {
    Check(a) && |Filled(a.pubs)| == a.num
  }

  predicate CheckPrisPubs(c: Suite, a: Acc)
    requires |a.pris| == |a.pubs|
  {
    forall i :: 0 <= i < |a.pris| ==>
      match (a.pubs[i], a.pris[i])
      case (None, None) => true
      case (Some(pb), Some(pk)) => c.pubOf(pk) == pb
      case _ => false
  }

  function Empty(num: Byte, less: Byte, arb: bool): Acc {
    Acc(num, less, if arb then (num + 0xFF) % 0x100 else 0xFF, Slots([], num), Slots([], num), Slots([], num))
  }

  function New(num: Byte, less: Byte, arb: bool): Result<Acc> {
    if Check(Empty(num, less, arb)) then Ok(Empty(num, less, arb)) else Err
  }

  // Byte forms.

  function Fields(fs: seq<Bytes>): Bytes
    requires forall f :: f in fs ==> |f| <= 0x7FFF
  {
    if fs == [] then [] else Field(fs[0]) + Fields(fs[1..])
  }

  /** The form put into scripts; empty slots are skipped, private keys never included. */
  function IntoBytes(a: Acc): Bytes {
    [a.num, a.less, a.arb] + [|Filled(a.pubs)| % 0x100] + Fields(Filled(a.pubs)) +
    [|Filled(a.sigs)| % 0x100] + Fields(Filled(a.sigs))
  }

  /** `vs` in the first slots of `n`, the rest empty. */
  function Slots<T>(vs: seq<T>, n: nat): (r: seq<Option<T>>)
    ensures |r| == n
  {
    seq(n, i requires 0 <= i => if i < |vs| then Some(vs[i]) else None)
  }

  /** Reads `n` fields into the slots from `i` on; one field more than there are slots is a panic in the source, an
      error here. */
  function Fill<T>(slots: seq<Option<T>>, i: nat, parse: Bytes -> Option<T>, s: Bytes, n: nat)
    : Result<Parsed<seq<Option<T>>>>
    decreases n
  {
    if n == 0 then Ok(Parsed(slots, s))
    else
      var p :- GetField(s);
      var v := parse(p.value);
      if v.None? || i >= |slots| then Err else Fill(slots[i := v], i + 1, parse, p.rest, n - 1)
  }

  function FromBytes(c: Suite, bb: Bytes): Result<Acc> {
    if |bb| < 3 then Err
    else
      var a :- New(bb[0], bb[1], bb[2] != 0xFF);
      var pubs :- ReadSlots(c.parsePub, a.pubs, bb[3..]);
      var sigs :- ReadSlots(c.parseSig, a.sigs, pubs.rest);
      var a := a.(pubs := pubs.value, sigs := sigs.value);
      if CheckWithPubs(a) then Ok(a) else Err
  }

  /** A count and that many fields. */
  function ReadSlots<T>(parse: Bytes -> Option<T>, slots: seq<Option<T>>, s: Bytes): Result<Parsed<seq<Option<T>>>> {
    var n :- UInt(s, 1);
    Fill(slots, 0, parse, n.rest, n.value)
  }

  lemma SlotsStep<T>(done: seq<T>, v: T, n: nat)
    requires |done| < n
    ensures Slots(done, n)[|done| := Some(v)] == Slots(done + [v], n)
  {
  }

  function Hashes(c: Suite, pubs: seq<PubKey>): seq<Bytes> {
    seq(|pubs|, i requires 0 <= i < |pubs| => c.hash(pubs[i]))
  }

  /** What the address of an account is a digest of. */
  function AddressForm(c: Suite, a: Acc): Bytes {
    [a.num, a.less, a.arb, |Filled(a.pubs)| % 0x100] + Concat(Hashes(c, Filled(a.pubs)))
  }

  /** The address of an account: a digest of its thresholds and the digests of its keys. */
  function AddressOf(c: Suite, a: Acc): Result<Hash> {
    if !CheckWithPubs(a) then Err
    else Ok(c.hash(AddressForm(c, a)))
  }

  /** The part of an account that ids and signatures commit to. */
  function EncodeSign(a: Acc): Result<Bytes> {
    if !CheckWithPubs(a) then Err
    else Ok([a.num, a.less, a.arb, |Filled(a.pubs)| % 0x100] + Concat(Filled(a.pubs)))
  }

  lemma {:induction false} ConcatSame(xs: seq<Bytes>, ys: seq<Bytes>, n: nat)
    requires |xs| == |ys| && forall i :: 0 <= i < |xs| ==> |xs[i]| == |ys[i]| == n
    requires Concat(xs) == Concat(ys)
    ensures xs == ys
  {
    if xs != [] {
      assert Concat(xs)[..n] == xs[0] && Concat(ys)[..n] == ys[0];
      assert Concat(xs)[n..] == Concat(xs[1..]) && Concat(ys)[n..] == Concat(ys[1..]);
      ConcatSame(xs[1..], ys[1..], n);
      assert xs == [xs[0]] + xs[1..] && ys == [ys[0]] + ys[1..];
    }
  }

  /** The signed form commits to the thresholds, the arbiter and every key in order. */
  lemma SignedFormCommits(a: Acc, b: Acc)
    requires EncodeSign(a).Ok? && EncodeSign(a) == EncodeSign(b)
    ensures a.num == b.num && a.less == b.less && a.arb == b.arb && Filled(a.pubs) == Filled(b.pubs)
  {
    hide Filled, Concat;
    var x, y := EncodeSign(a).value, EncodeSign(b).value;
    assert x[0] == a.num && x[1] == a.less && x[2] == a.arb && y[0] == b.num && y[1] == b.less && y[2] == b.arb;
    assert x[4..] == Concat(Filled(a.pubs)) && y[4..] == Concat(Filled(b.pubs));
    ConcatSame(Filled(a.pubs), Filled(b.pubs), 33);
  }

  /** The hash tells these apart. */
  ghost predicate TellsApart(c: Suite, xs: seq<Bytes>, ys: seq<Bytes>) {
    forall i, j :: 0 <= i < |xs| && 0 <= j < |ys| && c.hash(xs[i]) == c.hash(ys[j]) ==> xs[i] == ys[j]
  }

  /** The address commits to the same, as far as the hash tells the two accounts apart. */
  lemma AddressCommits(c: Suite, a: Acc, b: Acc)
    requires AddressOf(c, a).Ok? && AddressOf(c, a) == AddressOf(c, b)
    requires TellsApart(c, [AddressForm(c, a)], [AddressForm(c, b)]) && TellsApart(c, Filled(a.pubs), Filled(b.pubs))
    ensures a.num == b.num && a.less == b.less && a.arb == b.arb && Filled(a.pubs) == Filled(b.pubs)
  {
    hide Filled, Concat;
    var x, y, ps, qs := AddressForm(c, a), AddressForm(c, b), Filled(a.pubs), Filled(b.pubs);
    assert [x][0] == x && [y][0] == y;
    assert x == y;
    assert x[0] == a.num && x[1] == a.less && x[2] == a.arb && y[0] == b.num && y[1] == b.less && y[2] == b.arb;
    assert x[4..] == Concat(Hashes(c, ps)) && y[4..] == Concat(Hashes(c, qs));
    ConcatSame(Hashes(c, ps), Hashes(c, qs), 32);
    forall i | 0 <= i < |ps| ensures ps[i] == qs[i] {
      assert Hashes(c, ps)[i] == Hashes(c, qs)[i];
    }
  }

  // Verification.

  /** Match each signature against the keys left, dropping keys that do not fit. */
  function Greedy(c: Suite, msg: Bytes, sigs: seq<Sig>, pubs: seq<PubKey>): bool
    decreases |pubs|
  {
    if sigs == [] then true
    else if pubs == [] then false
    else if c.verify(pubs[0], msg, sigs[0]) then Greedy(c, msg, sigs[1..], pubs[1..])
    else Greedy(c, msg, sigs, pubs[1..])
  }

  predicate Increasing(f: seq<nat>, bound: nat) {
    && (forall k :: 0 <= k < |f| ==> f[k] < bound)
    && (forall j, k :: 0 <= j < k < |f| ==> f[j] < f[k])
  }

  predicate Signed(c: Suite, msg: Bytes, sigs: seq<Sig>, pubs: seq<PubKey>, f: seq<nat>) {
    && |f| == |sigs| && Increasing(f, |pubs|)
    && (forall k :: 0 <= k < |f| ==> c.verify(pubs[f[k]], msg, sigs[k]))
  }

  /** The signatures were made by keys at strictly increasing positions. */
  ghost predicate InOrder(c: Suite, msg: Bytes, sigs: seq<Sig>, pubs: seq<PubKey>) {
    exists f: seq<nat> :: Signed(c, msg, sigs, pubs, f)
  }

  function Shift(f: seq<nat>, d: int): (r: seq<nat>)
    requires forall k :: 0 <= k < |f| ==> f[k] + d >= 0
    ensures |r| == |f| && forall k :: 0 <= k < |f| ==> r[k] == f[k] + d
  {
    seq(|f|, k requires 0 <= k < |f| => f[k] + d)
  }

  lemma {:induction false} GreedySound(c: Suite, msg: Bytes, sigs: seq<Sig>, pubs: seq<PubKey>) returns (f: seq<nat>)
    requires Greedy(c, msg, sigs, pubs)
    ensures Signed(c, msg, sigs, pubs, f)
    decreases |pubs|
  {
    if sigs == [] {
      f := [];
    } else if c.verify(pubs[0], msg, sigs[0]) {
      var g := GreedySound(c, msg, sigs[1..], pubs[1..]);
      f := [0] + Shift(g, 1);
    } else {
      var g := GreedySound(c, msg, sigs, pubs[1..]);
      f := Shift(g, 1);
    }
  }

  lemma {:induction false} GreedyComplete(c: Suite, msg: Bytes, sigs: seq<Sig>, pubs: seq<PubKey>, f: seq<nat>)
    requires Signed(c, msg, sigs, pubs, f)
    ensures Greedy(c, msg, sigs, pubs)
    decreases |pubs|
  {
    if sigs != [] {
      assert f[0] < |pubs|;
      if c.verify(pubs[0], msg, sigs[0]) {
        var g := f[1..];
        assert forall k :: 0 <= k < |g| ==> g[k] > f[0];
        var h := Shift(g, -1);
        assert forall k :: 0 <= k < |h| ==> pubs[1..][h[k]] == pubs[f[k + 1]] && sigs[1..][k] == sigs[k + 1];
        GreedyComplete(c, msg, sigs[1..], pubs[1..], h);
      } else {
        assert f[0] != 0;
        assert forall k :: 0 <= k < |f| ==> f[k] > 0;
        var h := Shift(f, -1);
        assert forall k :: 0 <= k < |h| ==> pubs[1..][h[k]] == pubs[f[k]];
        GreedyComplete(c, msg, sigs, pubs[1..], h);
      }
    }
  }

  /** The two-pointer search misses nothing: it succeeds exactly when the signatures are in key order. */
  lemma GreedyIsInOrder(c: Suite, msg: Bytes, sigs: seq<Sig>, pubs: seq<PubKey>)
    ensures Greedy(c, msg, sigs, pubs) <==> InOrder(c, msg, sigs, pubs)
  {
    if Greedy(c, msg, sigs, pubs) {
      var f := GreedySound(c, msg, sigs, pubs);
    }
    if f: seq<nat> :| Signed(c, msg, sigs, pubs, f) {
      GreedyComplete(c, msg, sigs, pubs, f);
    }
  }

  predicate AnySigns(c: Suite, msg: Bytes, sigs: seq<Sig>, pub: PubKey) {
    exists k :: 0 <= k < |sigs| && c.verify(pub, msg, sigs[k])
  }

  /** `verify_full`. With an arbiter its key alone decides, and a failure is an error; otherwise the first `less`
      signatures are matched. */
  function Verified(c: Suite, a: Acc, msg: Bytes): Result<bool> {
    if !CheckWithPubs(a) then Err
    else if !UseArb(a) && |Filled(a.sigs)| < a.less then Err
    else if UseArb(a) && |Filled(a.sigs)| < 1 then Err
    else if UseArb(a) then
      if AnySigns(c, msg, Filled(a.sigs), Filled(a.pubs)[a.arb]) then Ok(true) else Err
    else Ok(Greedy(c, msg, Filled(a.sigs)[..a.less], Filled(a.pubs)))
  }

  /** Without an arbiter and with enough signatures, verification says exactly whether the first `less` present
      signatures were made by keys at strictly increasing positions. */
  lemma MultisigMeaning(c: Suite, a: Acc, msg: Bytes)
    requires CheckWithPubs(a) && !UseArb(a) && |Filled(a.sigs)| >= a.less
    ensures Verified(c, a, msg) == Ok(true) <==> InOrder(c, msg, Filled(a.sigs)[..a.less], Filled(a.pubs))
    ensures Verified(c, a, msg).Ok?
  {
    GreedyIsInOrder(c, msg, Filled(a.sigs)[..a.less], Filled(a.pubs));
  }

  lemma {:induction false} FilledEach<T>(s: seq<Option<T>>, v: T)
    ensures v in Filled(s) <==> Some(v) in s
  {
    if s != [] {
      FilledEach(s[1..], v);
      assert s == [s[0]] + s[1..];
    }
  }

  /** Some slot holds a signature that verifies under the key. */
  predicate SlotSigns(c: Suite, a: Acc, msg: Bytes, pub: PubKey) {
    exists k :: 0 <= k < |a.sigs| && a.sigs[k].Some? && c.verify(pub, msg, a.sigs[k].value)
  }

  /** With an arbiter, verification says exactly whether some signature present was made by the last key; if not, it is
      an error, whatever else is signed. */
  lemma ArbiterMeaning(c: Suite, a: Acc, msg: Bytes)
    requires CheckWithPubs(a) && |a.pubs| == a.num && a.arb == a.num - 1
    ensures a.pubs[a.num - 1].Some?
    ensures Verified(c, a, msg) == if SlotSigns(c, a, msg, a.pubs[a.num - 1].value) then Ok(true) else Err
  {
    hide Filled;
    FilledFull(a.pubs);
    FilledAll(a.pubs);
    var pub, sigs := a.pubs[a.num - 1].value, Filled(a.sigs);
    if k :| 0 <= k < |sigs| && c.verify(pub, msg, sigs[k]) {
      FilledEach(a.sigs, sigs[k]);
      var i :| 0 <= i < |a.sigs| && a.sigs[i] == Some(sigs[k]);
    }
    if i :| 0 <= i < |a.sigs| && a.sigs[i].Some? && c.verify(pub, msg, a.sigs[i].value) {
      FilledEach(a.sigs, a.sigs[i].value);
    }
  }

  /** An account is fit to be verified exactly if it has one to sixteen keys, all there, and a threshold it can reach;
      with an arbiter at least two keys. */
  lemma AccountFit(a: Acc)
    requires |a.pubs| == a.num
    ensures CheckWithPubs(a) <==>
            && 1 <= a.num <= 16 && 1 <= a.less <= a.num
            && (a.arb == a.num - 1 ==> a.num >= 2)
            && (forall i :: 0 <= i < a.num ==> a.pubs[i].Some?)
  {
    if CheckWithPubs(a) {
      FilledFull(a.pubs);
    }
    if forall i :: 0 <= i < a.num ==> a.pubs[i].Some? {
      FilledAll(a.pubs);
    }
  }

  /** Verification answers at all exactly if the account is fit and has enough signatures, with an arbiter one of its
      own. */
  lemma VerifyAnswers(c: Suite, a: Acc, msg: Bytes)
    requires |a.pubs| == a.num
    ensures Verified(c, a, msg).Ok? <==>
            && CheckWithPubs(a)
            && (if a.arb == a.num - 1 then Verified(c, a, msg) == Ok(true) else |Filled(a.sigs)| >= a.less)
  {
    if CheckWithPubs(a) && a.arb == a.num - 1 {
      ArbiterMeaning(c, a, msg);
    }
  }

  // The round trip through bytes.

  /** What reading an account back gives: signatures move to the first slots and private keys are gone. */
  function Compacted(a: Acc): Acc {
    a.(pris := Slots([], a.num), pubs := Slots(Filled(a.pubs), a.num), sigs := Slots(Filled(a.sigs), a.num))
  }

  lemma {:induction false} FilledSlots<T>(vs: seq<T>, n: nat)
    requires |vs| <= n
    ensures Filled(Slots(vs, n)) == vs
    decreases n
  {
    if n > 0 {
      if vs == [] {
        assert Slots(vs, n)[1..] == Slots(vs, n - 1);
        FilledSlots(vs, n - 1);
      } else {
        assert Slots(vs, n)[1..] == Slots(vs[1..], n - 1);
        FilledSlots(vs[1..], n - 1);
      }
    }
  }

  /** Fields written one after the other fill consecutive slots. */
  lemma {:induction false} FillBack<T>(done: seq<T>, n: nat, parse: Bytes -> Option<T>,
            fs: seq<Bytes>, vs: seq<T>, t: Bytes)
    requires |fs| == |vs| && |done| + |vs| <= n
    requires forall i :: 0 <= i < |fs| ==> |fs[i]| <= 0x7FFF && parse(fs[i]) == Some(vs[i])
    ensures forall f :: f in fs ==> |f| <= 0x7FFF
    ensures Fill(Slots(done, n), |done|, parse, Fields(fs) + t, |fs|) == Ok(Parsed(Slots(done + vs, n), t))
    decreases |fs|
  {
    hide *;
    if fs == [] {
      FieldsNone(t);
      assert done + vs == done;
      FillNone(Slots(done, n), |done|, parse, t);
    } else {
      FillBack(done + [vs[0]], n, parse, fs[1..], vs[1..], t);
      FieldsHead(fs, t);
      FillHead(done, n, parse, Fields(fs) + t, |fs|, Parsed(fs[0], Fields(fs[1..]) + t), vs, t);
    }
  }

  lemma FieldsNone(t: Bytes)
    ensures Fields([]) + t == t
  {
  }

  lemma FillHead<T>(done: seq<T>, n: nat, parse: Bytes -> Option<T>, s: Bytes, k: nat,
            p: Parsed<Bytes>, vs: seq<T>, t: Bytes)
    requires k == |vs| > 0 && |done| + |vs| <= n
    requires GetField(s) == Ok(p) && parse(p.value) == Some(vs[0])
    requires Fill(Slots(done + [vs[0]], n), |done| + 1, parse, p.rest, k - 1) ==
             Ok(Parsed(Slots(done + [vs[0]] + vs[1..], n), t))
    ensures Fill(Slots(done, n), |done|, parse, s, k) == Ok(Parsed(Slots(done + vs, n), t))
  {
    hide Fill, GetField, Slots;
    assert done + [vs[0]] + vs[1..] == done + vs;
    SlotsStep(done, vs[0], n);
    FillOnce(Slots(done, n), |done|, parse, s, k);
  }

  lemma FieldsHead(fs: seq<Bytes>, t: Bytes)
    requires fs != [] && forall f :: f in fs ==> |f| <= 0x7FFF
    ensures forall f :: f in fs[1..] ==> |f| <= 0x7FFF
    ensures GetField(Fields(fs) + t) == Ok(Parsed(fs[0], Fields(fs[1..]) + t))
  {
    assert Fields(fs) + t == Field(fs[0]) + (Fields(fs[1..]) + t);
    ReadField(fs[0], Fields(fs[1..]) + t);
  }

  lemma FillOnce<T>(slots: seq<Option<T>>, i: nat, parse: Bytes -> Option<T>, s: Bytes, n: nat)
    requires n > 0
    ensures GetField(s).Err? ==> Fill(slots, i, parse, s, n).Err?
    ensures GetField(s).Ok? ==>
              var p := GetField(s).value;
              Fill(slots, i, parse, s, n) ==
              if parse(p.value).None? || i >= |slots| then Err
              else Fill(slots[i := parse(p.value)], i + 1, parse, p.rest, n - 1)
  {
  }

  lemma FillNone<T>(slots: seq<Option<T>>, i: nat, parse: Bytes -> Option<T>, s: Bytes)
    ensures Fill(slots, i, parse, s, 0) == Ok(Parsed(slots, s))
  {
  }

  lemma ReadCount(n: nat, t: Bytes)
    requires n < 0x100
    ensures UInt([n] + t, 1) == Ok(Parsed(n, t))
  {
    assert LE(n, 1) == [n] by {
      assert LE(n / 256, 0) == [];
    }
    Powers();
    ReadUInt(n, 1, t);
  }

  /** The keys and signatures the account holds parse back. */
  predicate Readable(c: Suite, a: Acc) {
    && (forall i :: 0 <= i < |Filled(a.pubs)| ==> c.parsePub(Filled(a.pubs)[i]) == Some(Filled(a.pubs)[i]))
    && (forall i :: 0 <= i < |Filled(a.sigs)| ==> c.parseSig(Filled(a.sigs)[i]) == Some(Filled(a.sigs)[i]))
  }

  /** Reading back what was written gives the account with its slots compacted, exactly when the arbiter mark is
      one that `new` makes. */
  lemma BytesRoundTrip(c: Suite, a: Acc)
    requires Readable(c, a) && CheckWithPubs(a) && |a.pubs| == |a.sigs| == a.num
    ensures FromBytes(c, IntoBytes(a)) == Ok(Compacted(a)) <==> a.arb == 0xFF || a.arb == a.num - 1
  {
    hide FromBytes, IntoBytes, Filled, Slots;
    BytesParsed(c, a);
  }

  lemma ReadSlotsBack<T>(n: nat, parse: Bytes -> Option<T>, fs: seq<Bytes>, vs: seq<T>, t: Bytes)
    requires |fs| == |vs| <= n && |fs| < 0x100
    requires forall i :: 0 <= i < |fs| ==> |fs[i]| <= 0x7FFF && parse(fs[i]) == Some(vs[i])
    ensures forall f :: f in fs ==> |f| <= 0x7FFF
    ensures ReadSlots(parse, Slots([], n), [|fs|] + (Fields(fs) + t)) == Ok(Parsed(Slots(vs, n), t))
  {
    FillBack([], n, parse, fs, vs, t);
    assert [] + vs == vs;
    ReadCount(|fs|, Fields(fs) + t);
    hide UInt, Fill, Slots, Fields;
  }

  lemma BytesParsed(c: Suite, a: Acc)
    requires Readable(c, a) && CheckWithPubs(a) && |a.pubs| == |a.sigs| == a.num
    ensures var e := Empty(a.num, a.less, a.arb != 0xFF);
            FromBytes(c, IntoBytes(a)) ==
            if Check(e) then Ok(e.(pubs := Slots(Filled(a.pubs), a.num), sigs := Slots(Filled(a.sigs), a.num))) else Err
  {
    var pubs, sigs := Filled(a.pubs), Filled(a.sigs);
    BytesLayout(a);
    ReadSlotsBack(a.num, c.parsePub, pubs, pubs, [|sigs|] + (Fields(sigs) + []));
    ReadSlotsBack(a.num, c.parseSig, sigs, sigs, []);
    FilledSlots(pubs, a.num);
    hide IntoBytes, Fields, Filled, ReadSlots, Slots;
  }

  lemma BytesLayout(a: Acc)
    requires |a.pubs| == |a.sigs| == a.num
    ensures var bb, pubs, sigs := IntoBytes(a), Filled(a.pubs), Filled(a.sigs);
            && |bb| >= 3 && bb[0] == a.num && bb[1] == a.less && bb[2] == a.arb
            && |pubs| < 0x100 && |sigs| < 0x100
            && bb[3..] == [|pubs|] + (Fields(pubs) + ([|sigs|] + (Fields(sigs) + [])))
  {
    hide Fields, Filled;
    var pubs, sigs := Filled(a.pubs), Filled(a.sigs);
    Regrouped([a.num, a.less, a.arb], [|pubs|], Fields(pubs), [|sigs|], Fields(sigs));
  }

  lemma Regrouped(head: Bytes, np: Bytes, ps: Bytes, ns: Bytes, ss: Bytes)
    ensures head + np + ps + ns + ss == head + (np + (ps + (ns + (ss + []))))
  {
  }

  lemma {:induction false} FillSize<T>(slots: seq<Option<T>>, i: nat, parse: Bytes -> Option<T>, s: Bytes, n: nat)
    requires Fill(slots, i, parse, s, n).Ok?
    ensures |Fill(slots, i, parse, s, n).value.value| == |slots|
    decreases n
  {
    hide GetField;
    if n > 0 {
      var p := GetField(s).value;
      FillSize(slots[i := parse(p.value)], i + 1, parse, p.rest, n - 1);
    }
  }

  /** Whatever bytes are read, the account has the numbers they start with, one slot of each kind per key, every key,
      no private key, and the last key as its arbiter if it has one. */
  lemma ParsedIs(c: Suite, bb: Bytes)
    ensures FromBytes(c, bb).Ok? ==>
              var a := FromBytes(c, bb).value;
              && |bb| >= 3 && a.num == bb[0] && a.less == bb[1]
              && a.arb == (if bb[2] == 0xFF then 0xFF else a.num - 1)
              && WellMade(a) && CheckWithPubs(a)
              && (forall i :: 0 <= i < a.num ==> a.pris[i].None?)
  {
    if FromBytes(c, bb).Ok? {
      var e := New(bb[0], bb[1], bb[2] != 0xFF).value;
      var pubs := ReadSlots(c.parsePub, e.pubs, bb[3..]).value;
      var np, ns := UInt(bb[3..], 1).value, UInt(pubs.rest, 1).value;
      FillSize(e.pubs, 0, c.parsePub, np.rest, np.value);
      FillSize(e.sigs, 0, c.parseSig, ns.rest, ns.value);
    }
    hide Fill, Filled, UInt;
  }

  /** The answer of verification, the address and the signed form survive the trip. */
  lemma CompactedSame(c: Suite, a: Acc, msg: Bytes)
    requires CheckWithPubs(a) && |a.pubs| == |a.sigs| == a.num
    ensures Verified(c, Compacted(a), msg) == Verified(c, a, msg)
    ensures AddressOf(c, Compacted(a)) == AddressOf(c, a)
    ensures EncodeSign(Compacted(a)) == EncodeSign(a)
  {
    FilledSlots(Filled(a.pubs), a.num);
    FilledSlots(Filled(a.sigs), a.num);
  }

  // Signing.

  /** All signatures made by the account's own keys. */
  function SignedFull(c: Suite, a: Acc, msg: Bytes): Result<Acc>
    requires |a.pris| == |a.sigs|
  {
    if forall i :: 0 <= i < |a.pris| ==> a.pris[i].Some?
    then Ok(a.(sigs := seq(|a.pris|, i requires 0 <= i < |a.pris| && a.pris[i].Some?
           => Some(c.sign(a.pris[i].value, msg)))))
    else Err
  }

  lemma {:induction false} FilledAll<T>(s: seq<Option<T>>)
    requires forall i :: 0 <= i < |s| ==> s[i].Some?
    ensures |Filled(s)| == |s| && forall i :: 0 <= i < |s| ==> Filled(s)[i] == s[i].value
  {
    if s != [] {
      FilledAll(s[1..]);
      assert forall i :: 0 < i < |s| ==> s[i] == s[1..][i - 1];
    }
  }

  lemma {:induction false} FilledFull<T>(s: seq<Option<T>>)
    requires |Filled(s)| == |s|
    ensures forall i :: 0 <= i < |s| ==> s[i].Some?
  {
    if s != [] {
      FilledFull(s[1..]);
      assert forall i :: 0 < i < |s| ==> s[i] == s[1..][i - 1];
    }
  }

  /** Signing with every key of an account satisfies the account. */
  lemma FullSigningVerifies(c: Suite, a: Acc, msg: Bytes)
    requires Signs(c) && WellMade(a) && CheckWithPubs(a) && CheckPrisPubs(c, a)
    ensures SignedFull(c, a, msg).Ok?
    ensures Verified(c, SignedFull(c, a, msg).value, msg) == Ok(true)
  {
    FilledFull(a.pubs);
    FilledAll(a.pubs);
    assert forall i :: 0 <= i < |a.pris| ==> a.pris[i].Some?;
    var b := SignedFull(c, a, msg).value;
    FilledAll(b.sigs);
    var sigs, pubs := Filled(b.sigs), Filled(b.pubs);
    assert forall i :: 0 <= i < |pubs| ==> c.verify(pubs[i], msg, sigs[i]) by {
      forall i | 0 <= i < |pubs| ensures c.verify(pubs[i], msg, sigs[i]) {
        assert pubs[i] == c.pubOf(a.pris[i].value) && sigs[i] == c.sign(a.pris[i].value, msg);
      }
    }
    if !UseArb(b) {
      var f: seq<nat> := seq(b.less, i => i);
      assert Signed(c, msg, sigs[..b.less], pubs, f);
      GreedyComplete(c, msg, sigs[..b.less], pubs, f);
    }
  }

  /** An account signed by its own keys holds nothing that does not parse back. */
  lemma SignedReadable(c: Suite, a: Acc, msg: Bytes)
    requires Parses(c) && WellMade(a) && CheckWithPubs(a) && CheckPrisPubs(c, a) && SignedFull(c, a, msg).Ok?
    ensures Readable(c, SignedFull(c, a, msg).value)
  {
    hide Filled;
    var b := SignedFull(c, a, msg).value;
    FilledFull(a.pubs);
    FilledAll(a.pubs);
    FilledAll(b.sigs);
    forall i | 0 <= i < |a.pris|
      ensures Filled(b.pubs)[i] == c.pubOf(a.pris[i].value)
      ensures Filled(b.sigs)[i] == c.sign(a.pris[i].value, msg)
    {
      assert a.pubs[i].Some? && a.pris[i].Some?;
    }
  }

  /** The account object. */
  class Account {
    var num: Byte
    var less: Byte
    var arb: Byte
    var pris: seq<Option<PriKey>>
    var pubs: seq<Option<PubKey>>
    var sigs: seq<Option<Sig>>

    function View(): Acc
      reads this
    {
      Acc(num, less, arb, pris, pubs, sigs)
    }

    constructor (a: Acc)
      ensures View() == a
    {
      num, less, arb := a.num, a.less, a.arb;
      pris, pubs, sigs := a.pris, a.pubs, a.sigs;
    }

    /** `from_bytes`. */
    static method Parse(c: Suite, bb: Bytes) returns (r: Result<Account>)
      ensures match FromBytes(c, bb)
              case Ok(a) => r.Ok? && fresh(r.value) && r.value.View() == a
              case Err => r.Err?
    {
      var reader := new Reader(bb);
      if |bb| < 3 {
        return Err;
      }
      reader.inner := reader.inner[3..];
      var a :- New(bb[0], bb[1], bb[2] != 0xFF);
      var acc := new Account(a);
      var ps :- FillSlots(reader, c.parsePub, acc.pubs);
      acc.pubs := ps;
      var ss :- FillSlots(reader, c.parseSig, acc.sigs);
      acc.sigs := ss;
      if !CheckWithPubs(acc.View()) {
        return Err;
      }
      r := Ok(acc);
    }

    static method FillSlots<T>(reader: Reader, parse: Bytes -> Option<T>, empty: seq<Option<T>>)
      returns (r: Result<seq<Option<T>>>)
      modifies reader
      ensures r.Ok? == ReadSlots(parse, empty, old(reader.inner)).Ok?
      ensures r.Ok? ==> Parsed(r.value, reader.inner) == ReadSlots(parse, empty, old(reader.inner)).value
    {
      var n :- reader.GetUInt(1);
      hide Fill, UInt;
      r := FillLoop(reader, parse, n, empty);
    }

    /** The loop that fills the slots of an account with the fields read. */
    static method FillLoop<T>(reader: Reader, parse: Bytes -> Option<T>, n: nat, empty: seq<Option<T>>)
      returns (r: Result<seq<Option<T>>>)
      modifies reader
      ensures r.Ok? == Fill(empty, 0, parse, old(reader.inner), n).Ok?
      ensures r.Ok? ==> Parsed(r.value, reader.inner) == Fill(empty, 0, parse, old(reader.inner), n).value
    {
      hide Fill, GetField;
      var slots := empty;
      var i := 0;
      while i < n
        invariant 0 <= i <= n
        invariant Fill(slots, i, parse, reader.inner, n - i) == Fill(empty, 0, parse, old(reader.inner), n)
      {
        FillOnce(slots, i, parse, reader.inner, n - i);
        var f :- reader.GetFieldBytes();
        var v := parse(f);
        if v.None? || i >= |slots| {
          return Err;
        }
        slots := slots[i := v];
        i := i + 1;
      }
      FillNone(slots, i, parse, reader.inner);
      r := Ok(slots);
    }

    method SignWithIndex(c: Suite, idx: nat, msg: Bytes) returns (r: Result<()>)
      requires |pris| == |sigs|
      modifies this`sigs
      ensures r.Ok? <==> idx < |pris| && pris[idx].Some?
      ensures sigs == if r.Ok? then old(sigs)[idx := Some(c.sign(pris[idx].value, msg))] else old(sigs)
    {
      if idx >= |pris| {
        return Err;
      }
      match pris[idx]
      case Some(pk) =>
        sigs := sigs[idx := Some(c.sign(pk, msg))];
        r := Ok(());
      case None =>
        r := Err;
    }

    method SignFull(c: Suite, msg: Bytes) returns (r: Result<()>)
      requires |pris| == |sigs|
      modifies this`sigs
      ensures r.Ok? <==> SignedFull(c, old(View()), msg).Ok?
      ensures r.Ok? ==> View() == SignedFull(c, old(View()), msg).value
    {
      var idx := 0;
      while idx < |pris|
        invariant 0 <= idx <= |pris| == |sigs|
        invariant forall i :: 0 <= i < idx ==> pris[i].Some? && sigs[i] == Some(c.sign(pris[i].value, msg))
      {
        var _ :- SignWithIndex(c, idx, msg);
        idx := idx + 1;
      }
      r := Ok(());
    }

    /** Tries every signature against one key; finding none is an error. */
    method VerifyWithPublic(c: Suite, ipub: nat, msg: Bytes) returns (r: Result<bool>)
      ensures r == if ipub < |pubs| && pubs[ipub].Some? && AnySigns(c, msg, Filled(sigs), pubs[ipub].value)
                   then Ok(true) else Err
    {
      if ipub >= |pubs| || pubs[ipub].None? {
        return Err;
      }
      var pb := pubs[ipub].value;
      var i := 0;
      assert sigs[0..] == sigs;
      while i < |sigs|
        invariant 0 <= i <= |sigs|
        invariant AnySigns(c, msg, Filled(sigs), pb) == AnySigns(c, msg, Filled(sigs[i..]), pb)
      {
        assert sigs[i..][1..] == sigs[i + 1..];
        if sigs[i].Some? {
          AnySignsStep(c, msg, sigs[i..], pb);
          if c.verify(pb, msg, sigs[i].value) {
            return Ok(true);
          }
        }
        i := i + 1;
      }
      r := Err;
    }

    method VerifyFull(c: Suite, msg: Bytes) returns (r: Result<bool>)
      requires WellMade(View())
      ensures r == Verified(c, View(), msg)
    {
      if !CheckWithPubs(View()) {
        return Err;
      }
      if !UseArb(View()) && |Filled(sigs)| < less {
        return Err;
      }
      if UseArb(View()) && |Filled(sigs)| < 1 {
        return Err;
      }
      FilledFull(pubs);
      FilledAll(pubs);
      if UseArb(View()) {
        r := VerifyWithPublic(c, arb, msg);
        return;
      }
      var matched := MatchSignatures(c, msg);
      r := Ok(matched);
    }

    /** Two cursors, over signature slots and keys; a key once passed is never tried again. */
    method MatchSignatures(c: Suite, msg: Bytes) returns (r: bool)
      requires |Filled(sigs)| >= less >= 1 && forall k :: 0 <= k < |pubs| ==> pubs[k].Some?
      ensures r == Greedy(c, msg, Filled(sigs)[..less], Filled(pubs))
    {
      var left: nat := less;
      var i, j := 0, 0;
      while i < |sigs| && j < |pubs|
        invariant 0 <= i <= |sigs| && 0 <= j <= |pubs|
        invariant left > 0 ==> Scan(c, msg, sigs, i, pubs, j, left) == Scan(c, msg, sigs, 0, pubs, 0, less)
        invariant left == 0 ==> Scan(c, msg, sigs, 0, pubs, 0, less)
        invariant left > 0
        decreases |sigs| - i + |pubs| - j
      {
        if sigs[i].None? {
          i := i + 1;
          continue;
        }
        if c.verify(pubs[j].value, msg, sigs[i].value) {
          left := left - 1;
          i := i + 1;
        }
        if left == 0 {
          break;
        }
        j := j + 1;
      }
      r := left == 0;
      assert sigs[0..] == sigs && pubs[0..] == pubs;
      ScanIsGreedy(c, msg, sigs, 0, pubs, 0, less);
    }
  }

  /** The two-cursor loop as a recursion. */
  function Scan(c: Suite, msg: Bytes, sigs: seq<Option<Sig>>, i: nat, pubs: seq<Option<PubKey>>,
                j: nat, left: nat): bool
    requires i <= |sigs| && j <= |pubs| && forall k :: 0 <= k < |pubs| ==> pubs[k].Some?
    decreases |sigs| - i + |pubs| - j
  {
    if i == |sigs| || j == |pubs| || left == 0 then left == 0
    else if sigs[i].None? then Scan(c, msg, sigs, i + 1, pubs, j, left)
    else if c.verify(pubs[j].value, msg, sigs[i].value) then Scan(c, msg, sigs, i + 1, pubs, j + 1, left - 1)
    else Scan(c, msg, sigs, i, pubs, j + 1, left)
  }

  lemma {:induction false} ScanIsGreedy(c: Suite, msg: Bytes, sigs: seq<Option<Sig>>, i: nat,
                                        pubs: seq<Option<PubKey>>, j: nat, left: nat)
    requires i <= |sigs| && j <= |pubs| && forall k :: 0 <= k < |pubs| ==> pubs[k].Some?
    requires left <= |Filled(sigs[i..])|
    ensures Scan(c, msg, sigs, i, pubs, j, left) == Greedy(c, msg, Filled(sigs[i..])[..left], Filled(pubs[j..]))
    decreases |sigs| - i + |pubs| - j
  {
    if i < |sigs| {
      FilledStep(sigs, i);
    }
    if j < |pubs| {
      FilledStep(pubs, j);
    }
    if i < |sigs| && j < |pubs| && left > 0 {
      if sigs[i].None? {
        ScanIsGreedy(c, msg, sigs, i + 1, pubs, j, left);
      } else {
        GreedyStep(c, msg, sigs[i].value, Filled(sigs[i + 1..]), left, pubs[j].value, Filled(pubs[j + 1..]));
        if c.verify(pubs[j].value, msg, sigs[i].value) {
          ScanIsGreedy(c, msg, sigs, i + 1, pubs, j + 1, left - 1);
        } else {
          ScanIsGreedy(c, msg, sigs, i, pubs, j + 1, left);
        }
      }
    }
  }

  lemma FilledStep<T>(s: seq<Option<T>>, i: nat)
    requires i < |s|
    ensures Filled(s[i..]) == if s[i].Some? then [s[i].value] + Filled(s[i + 1..]) else Filled(s[i + 1..])
  {
    assert s[i..][1..] == s[i + 1..];
  }

  lemma GreedyStep(c: Suite, msg: Bytes, sig: Sig, sigs: seq<Sig>, left: nat, pub: PubKey, pubs: seq<PubKey>)
    requires 0 < left <= |sigs| + 1
    ensures Greedy(c, msg, ([sig] + sigs)[..left], [pub] + pubs) ==
            if c.verify(pub, msg, sig) then Greedy(c, msg, sigs[..left - 1], pubs)
            else Greedy(c, msg, ([sig] + sigs)[..left], pubs)
  {
    assert ([sig] + sigs)[..left][1..] == sigs[..left - 1];
    assert ([pub] + pubs)[1..] == pubs;
  }

  lemma AnySignsStep(c: Suite, msg: Bytes, sigs: seq<Option<Sig>>, pub: PubKey)
    requires sigs != [] && sigs[0].Some?
    ensures AnySigns(c, msg, Filled(sigs), pub) <==>
            c.verify(pub, msg, sigs[0].value) || AnySigns(c, msg, Filled(sigs[1..]), pub)
  {
    var all, rest := Filled(sigs), Filled(sigs[1..]);
    assert all == [sigs[0].value] + rest;
    assert forall k :: 0 <= k < |rest| ==> all[k + 1] == rest[k];
    if c.verify(pub, msg, sigs[0].value) {
      assert c.verify(pub, msg, all[0]);
    } else if k :| 0 <= k < |all| && c.verify(pub, msg, all[k]) {
      assert all[k] == rest[k - 1];
    }
  }
}
