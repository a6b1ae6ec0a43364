/** src/index.rs, the signing half: signed messages, the full signer, and the signature check of a transaction. */
module Signing {
  import opened Common
  import opened Iobuf
  import opened Crypto
  import Accounts
  import opened Scripts
  import opened Blocks

  /** The account of an address, if the pool has it; and the output an outpoint refers to. */
  type Pool = Hash -> Option<Accounts.Acc>
  type Lookup = OutPoint -> Result<TxOut>

  /** What every signature of a transaction commits to. */
  datatype Cache = Cache(ver: U32, outs: Hash, refs: Hash)

  function Refs(ins: seq<TxIn>): Bytes {
    if ins == [] then [] else Refs(ins[..|ins| - 1]) + ins[|ins| - 1].out + LE(ins[|ins| - 1].idx, 2)
  }

  function NewCache(c: Suite, tx: Tx): Result<Cache> {
    var outs :- OutsSign(c, tx.outs);
    Ok(Cache(tx.ver, c.hash(outs), c.hash(Refs(tx.ins))))
  }

  /** The message signed for one input. */
  function SignBytes(c: Suite, cache: Cache, inv: TxIn, outv: TxOut): Result<Bytes> {
    var i :- InSign(c, inv);
    var o :- OutSign(c, outv);
    Ok(LE(cache.ver, 4) + cache.refs + i + o + cache.outs)
  }

  /** `get_sign_script`: sign with every key of the pool's account. */
  function SignScript(c: Suite, pool: Pool, cache: Cache, inv: TxIn, outv: TxOut): Result<Bytes> {
    var addr :- InAddress(c, inv);
    if pool(addr).None? then Err
    else
      var a := pool(addr).value;
      if |a.pris| != |a.pubs| || |a.pris| != |a.sigs| || !Accounts.CheckPrisPubs(c, a) then Err
      else
        var msg :- SignBytes(c, cache, inv, outv);
        var b :- Accounts.SignedFull(c, a, msg);
        NewScript(ScriptIn(Accounts.IntoBytes(b)))
  }

  function SignedIn(c: Suite, pool: Pool, lookup: Lookup, cache: Cache, inv: TxIn): Result<TxIn> {
    var outv :- lookup(Point(inv));
    var script :- SignScript(c, pool, cache, inv, outv);
    Ok(inv.(script := script))
  }

  /** `sign_tx`: each input's script replaced by a signed one, or nothing. */
  function SignedTx(c: Suite, pool: Pool, lookup: Lookup, tx: Tx): Result<Tx> {
    var cache :- NewCache(c, tx);
    if forall i :: 0 <= i < |tx.ins| ==> SignedIn(c, pool, lookup, cache, tx.ins[i]).Ok? then
      Ok(tx.(ins := SignedIns(c, pool, lookup, cache, tx.ins)))
    else Err
  }

  function SignedIns(c: Suite, pool: Pool, lookup: Lookup, cache: Cache, ins: seq<TxIn>): (r: seq<TxIn>)
    requires forall i :: 0 <= i < |ins| ==> SignedIn(c, pool, lookup, cache, ins[i]).Ok?
    ensures |r| == |ins| && forall i :: 0 <= i < |ins| ==> Ok(r[i]) == SignedIn(c, pool, lookup, cache, ins[i])
  {
    seq(|ins|, i requires 0 <= i < |ins| => SignedIn(c, pool, lookup, cache, ins[i]).value)
  }

  /** The account on the stack must verify the input's message. */
  function VerifyEle(c: Suite, cache: Cache, inv: TxIn, outv: TxOut, e: Ele): Result<bool> {
    if !e.Data? then Err
    else
      var a :- Accounts.FromBytes(c, e.d);
      var msg :- SignBytes(c, cache, inv, outv);
      Accounts.Verified(c, a, msg)
  }

  function LinkEnv(c: Suite, cache: Cache, inv: TxIn, outv: TxOut): Env {
    e => VerifyEle(c, cache, inv, outv, e)
  }

  /** One input passes if its script runs together with that of the output it spends. */
  predicate InputPasses(c: Suite, lookup: Lookup, cache: Cache, inv: TxIn) {
    CoinbaseIn(inv) ||
    (var outv := lookup(Point(inv));
     outv.Ok? && Run(c, LinkEnv(c, cache, inv, outv.value), FRESH, inv.script + outv.value.script).Ok?)
  }

  /** `check_tx_sign`. */
  predicate SignaturesPass(c: Suite, lookup: Lookup, tx: Tx) {
    && NewCache(c, tx).Ok?
    && forall i :: 0 <= i < |tx.ins| ==> InputPasses(c, lookup, NewCache(c, tx).value, tx.ins[i])
  }

  /** An input that carries an account and spends a standard output passes exactly when the account hashes to the
      address in the output and its signatures verify the input's message. */
  lemma StandardInputPasses(c: Suite, lookup: Lookup, cache: Cache, inv: TxIn, acc: Bytes, h: Hash, value: I64)
    requires 0 < |acc| <= MAX_SCRIPT_SIZE
    requires inv.script == ScriptIn(acc) && lookup(Point(inv)) == Ok(TxOut(value, ScriptOut(h)))
    ensures InputPasses(c, lookup, cache, inv) <==>
            && AddressOfEle(c, Data(acc)) == Ok(h)
            && VerifyEle(c, cache, inv, TxOut(value, ScriptOut(h)), Data(acc)) == Ok(true)
  {
    hide Run, VerifyEle, AddressOfEle, ScriptOut, DataBytes;
    StandardSpend(c, LinkEnv(c, cache, inv, TxOut(value, ScriptOut(h))), acc, h);
    assert inv.script[1] == TYPE_IN;
    assert !CoinbaseIn(inv);
  }

  /** The input's own script succeeds, six steps short of the limit, having begun as an input script, and leaves on top
      the bytes of an account that hashes to the address and whose signatures verify the input's message. */
  ghost predicate Authorised(c: Suite, cache: Cache, inv: TxIn, outv: TxOut, h: Hash) {
    var r := Run(c, LinkEnv(c, cache, inv, outv), FRESH, inv.script);
    && r.Ok? && r.value.steps + 6 <= 256 && r.value.m.typs == [2]
    && r.value.m.eles != [] && r.value.m.eles[|r.value.m.eles| - 1].Data?
    && exists a, msg ::
         && Accounts.FromBytes(c, r.value.m.eles[|r.value.m.eles| - 1].d) == Ok(a)
         && Accounts.AddressOf(c, a) == Ok(h)
         && SignBytes(c, cache, inv, outv) == Ok(msg)
         && Accounts.Verified(c, a, msg) == Ok(true)
  }

  lemma AuthorisedIs(c: Suite, cache: Cache, inv: TxIn, outv: TxOut, h: Hash)
    ensures var env := LinkEnv(c, cache, inv, outv);
            var r := Run(c, env, FRESH, inv.script);
            Authorised(c, cache, inv, outv, h) <==>
            r.Ok? && r.value.steps + 6 <= MAX_SCRIPT_OPS && Unlocks(c, env, r.value.m, h)
  {
    hide Run, Accounts.FromBytes, Accounts.AddressOf, Accounts.Verified, SignBytes;
    var r := Run(c, LinkEnv(c, cache, inv, outv), FRESH, inv.script);
    if r.Ok? && r.value.steps + 6 <= MAX_SCRIPT_OPS && Unlocks(c, LinkEnv(c, cache, inv, outv), r.value.m, h) {
      var e := Top(r.value.m, 1);
      var a, msg := Accounts.FromBytes(c, e.d).value, SignBytes(c, cache, inv, outv).value;
      assert Accounts.AddressOf(c, a) == Ok(h) && Accounts.Verified(c, a, msg) == Ok(true);
    }
  }

  /** Any input that counts and is not a coinbase's passes against a standard output exactly if it is authorised. */
  lemma AnyInputPasses(c: Suite, lookup: Lookup, cache: Cache, inv: TxIn, h: Hash, value: I64)
    requires !CoinbaseIn(inv) && Ops(inv.script).Ok? && lookup(Point(inv)) == Ok(TxOut(value, ScriptOut(h)))
    ensures InputPasses(c, lookup, cache, inv) <==> Authorised(c, cache, inv, TxOut(value, ScriptOut(h)), h)
  {
    hide Run, VerifyEle, AddressOfEle, ScriptOut, Unlocks, Ops, CoinbaseIn, Authorised;
    StandardOutput(c, LinkEnv(c, cache, inv, TxOut(value, ScriptOut(h))), inv.script, h);
    AuthorisedIs(c, cache, inv, TxOut(value, ScriptOut(h)), h);
  }

  // Standard scripts.

  lemma {:induction false} FieldsSize(fs: seq<Bytes>, n: nat)
    requires n <= 72 && forall i :: 0 <= i < |fs| ==> |fs[i]| <= n
    ensures forall f :: f in fs ==> |f| <= 0x7FFF
    ensures n <= 33 ==> |Accounts.Fields(fs)| <= 35 * |fs|
    ensures |Accounts.Fields(fs)| <= 74 * |fs|
  {
    hide Field;
    if fs != [] {
      FieldsSize(fs[1..], n);
    }
  }

  lemma BytesSize(a: Accounts.Acc)
    requires |a.pubs| <= Accounts.MAX_KEYS && |a.sigs| <= Accounts.MAX_KEYS
    ensures 5 <= |Accounts.IntoBytes(a)| <= 1749
  {
    hide Accounts.Fields, Accounts.Filled;
    var pubs, sigs := Accounts.Filled(a.pubs), Accounts.Filled(a.sigs);
    assert forall i :: 0 <= i < |pubs| ==> |pubs[i]| == 33;
    assert forall i :: 0 <= i < |sigs| ==> |sigs[i]| <= 72;
    FieldsSize(pubs, 33);
    FieldsSize(sigs, 72);
  }

  lemma ScriptInChecked(acc: Bytes)
    requires 0 < |acc| <= 1749
    ensures Checked(ScriptIn(acc))
  {
    hide DataBytes, SkipOp, Fetch;
    var d := DataBytes(acc);
    var s := ScriptIn(acc);
    DataSize(acc);
    FetchTyp(TYPE_IN, d);
    SkipIsFetch(s);
    assert s[0] == OP_TYPE && s[1] == TYPE_IN;
    FetchData(acc, []);
    assert d + [] == d;
    SkipIsFetch(d);
    assert CountFrom(d, 1) == Ok(2);
    assert CountFrom(s, 0) == Ok(2);
  }

  lemma ScriptOutChecked(h: Hash)
    ensures Checked(ScriptOut(h)) && GetType(ScriptOut(h)) == Ok(TYPE_OUT)
  {
    hide SkipOp, Fetch, DataBytes;
    var s4: Bytes := [OP_EQUAL_VERIFY] + [OP_CHECKSIG_VERIFY];
    var s3 := DataBytes(h) + s4;
    var s2 := [OP_HASHER] + s3;
    var s1 := [OP_VERIFY_INOUT] + s2;
    var s := [OP_TYPE, TYPE_OUT] + s1;
    assert ScriptOut(h) == s;
    DataSize(h);
    FetchTyp(TYPE_OUT, s1);
    CountStep(s, Typ(TYPE_OUT), s1, 0);
    FetchAct(OP_VERIFY_INOUT, s2);
    CountStep(s1, Act(OP_VERIFY_INOUT), s2, 1);
    FetchAct(OP_HASHER, s3);
    CountStep(s2, Act(OP_HASHER), s3, 2);
    FetchData(h, s4);
    CountStep(s3, Push(Data(h)), s4, 3);
    FetchAct(OP_EQUAL_VERIFY, [OP_CHECKSIG_VERIFY]);
    CountStep(s4, Act(OP_EQUAL_VERIFY), [OP_CHECKSIG_VERIFY], 4);
    FetchAct(OP_CHECKSIG_VERIFY, []);
    assert [OP_CHECKSIG_VERIFY] + [] == [OP_CHECKSIG_VERIFY];
    SkipIsFetch([OP_CHECKSIG_VERIFY]);
    assert CountFrom(s, 0) == Ok(6);
    assert s[0] == OP_TYPE && s[1] == TYPE_OUT;
  }

  lemma FetchAct(op: Byte, t: Bytes)
    requires OP_VERIFY <= op <= OP_VERIFY_INOUT
    ensures Fetch([op] + t) == Ok(Parsed(Act(op), t))
  {
    FetchByte(op, t);
    hide Fetch;
  }

  lemma CountStep(s: Bytes, i: Instr, t: Bytes, ops: nat)
    requires Fetch(s) == Ok(Parsed(i, t)) && t != [] && ops < MAX_SCRIPT_OPS
    ensures CountFrom(s, ops) == CountFrom(t, ops + 1)
  {
    SkipIsFetch(s);
    hide SkipOp, Fetch;
  }

  /** A standard output pays to the address it was made from. */
  lemma OutAddressBack(value: I64, h: Hash)
    ensures OutAddress(TxOut(value, ScriptOut(h))) == Ok(h)
  {
    ScriptOutChecked(h);
    hide Checked, GetType;
    var s := ScriptOut(h);
    var t: Bytes := [OP_EQUAL_VERIFY, OP_CHECKSIG_VERIFY];
    assert LE(32, 1) == [32] by {
      assert LE(32 / 256, 0) == [];
    }
    assert s == [OP_TYPE, TYPE_OUT, OP_VERIFY_INOUT, OP_HASHER, OP_DATA_1, 32] + (h + t);
    assert s[6..] == h + t;
    ReadTake(h, t);
    assert seq(0, i => 0) + h == h;
  }

  /** An input script is worth its account: the same address and the same signed form. */
  lemma InputMeaning(c: Suite, inv: TxIn, acc: Bytes)
    requires 0 < |acc| <= 1749 && inv.script == ScriptIn(acc)
    ensures InAddress(c, inv) == AddressOfEle(c, Data(acc))
    ensures ScriptAccount(c, inv.script) == Accounts.FromBytes(c, acc)
  {
    ScriptInChecked(acc);
    InputAddress(c, inv, acc);
    InputAccount(c, acc);
  }

  lemma InputAddress(c: Suite, inv: TxIn, acc: Bytes)
    requires 0 < |acc| <= 1749 && inv.script == ScriptIn(acc) && Checked(inv.script)
    ensures InAddress(c, inv) == AddressOfEle(c, Data(acc))
  {
    hide Checked, Accounts.FromBytes, Accounts.AddressOf, DataBytes, ReadBinary;
    var d := DataBytes(acc);
    FetchData(acc, []);
    DataSize(acc);
    assert d + [] == d;
    assert inv.script[2] == d[0] && inv.script[3..] == d[1..];
    BinaryFetched(d, acc);
  }

  lemma BinaryFetched(s: Bytes, v: Bytes)
    requires s != [] && Fetch(s) == Ok(Parsed(Push(Data(v)), []))
    ensures ReadBinary(s[0], s[1..]) == Ok(Parsed(v, []))
  {
    hide ReadBinary, ReadNumber;
  }

  lemma InputAccount(c: Suite, acc: Bytes)
    requires 0 < |acc| <= 1749
    ensures ScriptAccount(c, ScriptIn(acc)) == Accounts.FromBytes(c, acc)
  {
    hide RunFrom, Fetch, Apply, DataBytes, Accounts.FromBytes;
    var d := DataBytes(acc);
    DataSize(acc);
    FetchTyp(TYPE_IN, d);
    TypStep(c, Refuse, FRESH, TYPE_IN);
    assert FRESH.typs + [TYPE_IN] == [TYPE_IN];
    StepRun(c, Refuse, FRESH, ScriptIn(acc), 0, Typ(TYPE_IN), d);
    FetchData(acc, []);
    assert d + [] == d;
    var m := Machine([], [TYPE_IN]);
    PushStep(c, Refuse, m, Data(acc));
    assert [] + [Data(acc)] == [Data(acc)];
    LastRun(c, Refuse, m, d, 1, Push(Data(acc)));
  }

  // Signing what the pool owns.

  /** An account the pool can sign for. */
  predicate Owned(c: Suite, a: Accounts.Acc) {
    Accounts.WellMade(a) && Accounts.CheckWithPubs(a) && Accounts.CheckPrisPubs(c, a)
  }

  function SignedForm(a: Accounts.Acc): Result<Bytes> {
    var e :- Accounts.EncodeSign(a);
    Ok([OP_TYPE, TYPE_IN] + e)
  }

  /** The input spends a standard output of a pool account holding all its keys, and is made out to that account. */
  predicate Spendable(c: Suite, pool: Pool, lookup: Lookup, inv: TxIn) {
    && InAddress(c, inv).Ok?
    && var h := InAddress(c, inv).value;
       && pool(h).Some? && Owned(c, pool(h).value)
       && Accounts.AddressOf(c, pool(h).value) == Ok(h)
       && ScriptSign(c, inv.script) == SignedForm(pool(h).value)
       && lookup(Point(inv)).Ok? && lookup(Point(inv)).value.script == ScriptOut(h)
  }

  /** The signed account, as found in the script. */
  lemma SignedAccount(c: Suite, a: Accounts.Acc, msg: Bytes)
    requires Parses(c) && Signs(c) && Owned(c, a)
    ensures Accounts.SignedFull(c, a, msg).Ok?
    ensures var b := Accounts.SignedFull(c, a, msg).value;
            var bb := Accounts.IntoBytes(b);
            && 5 <= |bb| <= 1749
            && AddressOfEle(c, Data(bb)) == Accounts.AddressOf(c, a)
            && (Accounts.FromBytes(c, bb).Ok? && var d := Accounts.FromBytes(c, bb).value;
                Accounts.EncodeSign(d) == Accounts.EncodeSign(a) && Accounts.Verified(c, d, msg) == Ok(true))
  {
    Accounts.FullSigningVerifies(c, a, msg);
    var b := Accounts.SignedFull(c, a, msg).value;
    Accounts.SignedReadable(c, a, msg);
    Accounts.BytesRoundTrip(c, b);
    Accounts.CompactedSame(c, b, msg);
    BytesSize(b);
    SameKeys(c, a, b);
    hide Accounts.SignedFull, Accounts.IntoBytes, Accounts.FromBytes, Accounts.Verified, Accounts.Compacted;
    hide Accounts.AddressOf, Accounts.EncodeSign;
  }

  lemma SameKeys(c: Suite, a: Accounts.Acc, b: Accounts.Acc)
    requires b == a.(sigs := b.sigs)
    ensures Accounts.AddressOf(c, b) == Accounts.AddressOf(c, a)
    ensures Accounts.EncodeSign(b) == Accounts.EncodeSign(a)
  {
  }

  lemma OutSignable(c: Suite, outv: TxOut, h: Hash)
    requires outv.script == ScriptOut(h)
    ensures OutSign(c, outv).Ok?
  {
    ScriptOutChecked(h);
    hide ScriptOut, Checked, GetType, I64Bytes;
  }

  lemma InSignable(c: Suite, inv: TxIn, a: Accounts.Acc)
    requires Accounts.CheckWithPubs(a) && ScriptSign(c, inv.script) == SignedForm(a)
    ensures InSign(c, inv).Ok?
  {
    hide ScriptSign, LE;
  }

  /** Signing one input keeps its message and makes it pass. */
  lemma SignedInput(c: Suite, pool: Pool, lookup: Lookup, cache: Cache, inv: TxIn)
    requires Parses(c) && Signs(c) && Spendable(c, pool, lookup, inv)
    ensures SignedIn(c, pool, lookup, cache, inv).Ok?
    ensures var n := SignedIn(c, pool, lookup, cache, inv).value;
            && n == inv.(script := n.script)
            && InSign(c, n) == InSign(c, inv)
            && Spendable(c, pool, lookup, n)
            && InputPasses(c, lookup, cache, n)
  {
    hide InAddress, ScriptSign, ScriptOut, Owned, Accounts.AddressOf;
    var h := InAddress(c, inv).value;
    var a, outv := pool(h).value, lookup(Point(inv)).value;
    Holds(c, a);
    OutSignable(c, outv, h);
    InSignable(c, inv, a);
    var msg := SignBytes(c, cache, inv, outv).value;
    SignedAccount(c, a, msg);
    var b := Accounts.SignedFull(c, a, msg).value;
    var bb := Accounts.IntoBytes(b);
    ScriptInChecked(bb);
    var n := inv.(script := ScriptIn(bb));
    InputMeaning(c, n, bb);
    InputForm(c, bb, a);
    Sealed(c, pool, lookup, cache, inv, a, outv, h, msg, b);
    MessageKept(c, cache, inv, n, outv);
    StandardInputPasses(c, lookup, cache, n, bb, h, outv.value);
    hide AddressOfEle, InputPasses, SignBytes, InSign, Accounts.IntoBytes, Accounts.Verified, Accounts.FromBytes;
  }

  lemma Holds(c: Suite, a: Accounts.Acc)
    requires Owned(c, a)
    ensures |a.pris| == |a.pubs| == |a.sigs| && Accounts.CheckPrisPubs(c, a) && Accounts.CheckWithPubs(a)
  {
    hide Accounts.CheckPrisPubs, Accounts.CheckWithPubs;
  }

  lemma InputForm(c: Suite, bb: Bytes, a: Accounts.Acc)
    requires 0 < |bb| <= 1749
    requires ScriptAccount(c, ScriptIn(bb)) == Accounts.FromBytes(c, bb) && Accounts.FromBytes(c, bb).Ok?
    requires Accounts.EncodeSign(Accounts.FromBytes(c, bb).value) == Accounts.EncodeSign(a)
    ensures ScriptSign(c, ScriptIn(bb)) == SignedForm(a)
  {
    hide ScriptAccount, Accounts.FromBytes, Accounts.EncodeSign;
  }

  lemma Sealed(c: Suite, pool: Pool, lookup: Lookup, cache: Cache, inv: TxIn, a: Accounts.Acc, outv: TxOut,
               h: Hash, msg: Bytes, b: Accounts.Acc)
    requires InAddress(c, inv) == Ok(h) && pool(h) == Some(a) && lookup(Point(inv)) == Ok(outv)
    requires |a.pris| == |a.pubs| == |a.sigs| && Accounts.CheckPrisPubs(c, a)
    requires SignBytes(c, cache, inv, outv) == Ok(msg) && Accounts.SignedFull(c, a, msg) == Ok(b)
    requires Checked(ScriptIn(Accounts.IntoBytes(b)))
    ensures SignedIn(c, pool, lookup, cache, inv) == Ok(inv.(script := ScriptIn(Accounts.IntoBytes(b))))
  {
    hide InAddress, SignBytes, Accounts.CheckPrisPubs, Accounts.SignedFull, Accounts.IntoBytes, Checked, ScriptIn;
  }

  lemma MessageKept(c: Suite, cache: Cache, inv: TxIn, n: TxIn, outv: TxOut)
    requires n == inv.(script := n.script) && ScriptSign(c, n.script) == ScriptSign(c, inv.script)
    ensures InSign(c, n) == InSign(c, inv)
    ensures SignBytes(c, cache, n, outv) == SignBytes(c, cache, inv, outv)
  {
    hide ScriptSign, LE;
  }

  lemma {:induction false} InsSignSame(c: Suite, xs: seq<TxIn>, ys: seq<TxIn>)
    requires |xs| == |ys| && forall i :: 0 <= i < |xs| ==> InSign(c, xs[i]) == InSign(c, ys[i])
    ensures InsSign(c, xs) == InsSign(c, ys)
  {
    hide InSign;
    if xs != [] {
      InsSignSame(c, xs[..|xs| - 1], ys[..|ys| - 1]);
    }
  }

  lemma {:induction false} RefsSame(xs: seq<TxIn>, ys: seq<TxIn>)
    requires |xs| == |ys| && forall i :: 0 <= i < |xs| ==> Point(xs[i]) == Point(ys[i])
    ensures Refs(xs) == Refs(ys)
  {
    if xs != [] {
      RefsSame(xs[..|xs| - 1], ys[..|ys| - 1]);
    }
  }

  /** Signing is stable and complete: when every input spends a standard output of a pool account that holds all its
      keys, signing succeeds, changes scripts only, leaves the transaction id and every signed message as they were,
      and what comes out passes the signature check and could be signed again. */
  lemma SigningCompletes(c: Suite, pool: Pool, lookup: Lookup, tx: Tx)
    requires Parses(c) && Signs(c) && NewCache(c, tx).Ok?
    requires forall i :: 0 <= i < |tx.ins| ==> Spendable(c, pool, lookup, tx.ins[i])
    ensures SignedTx(c, pool, lookup, tx).Ok?
    ensures var n := SignedTx(c, pool, lookup, tx).value;
            && n == tx.(ins := n.ins) && |n.ins| == |tx.ins|
            && (forall i :: 0 <= i < |n.ins| ==> n.ins[i] == tx.ins[i].(script := n.ins[i].script))
            && TxId(c, n) == TxId(c, tx) && NewCache(c, n) == NewCache(c, tx)
            && (forall i, o: TxOut :: 0 <= i < |n.ins| ==>
                  SignBytes(c, NewCache(c, tx).value, n.ins[i], o) == SignBytes(c, NewCache(c, tx).value, tx.ins[i], o))
            && SignaturesPass(c, lookup, n)
            && (forall i :: 0 <= i < |n.ins| ==> Spendable(c, pool, lookup, n.ins[i]))
  {
    hide SignedIn, Spendable, InputPasses, InSign, OutSign, InsSign, OutsSign, Refs, SignBytes;
    var cache := NewCache(c, tx).value;
    forall i | 0 <= i < |tx.ins| ensures SignedIn(c, pool, lookup, cache, tx.ins[i]).Ok? {
      SignedInput(c, pool, lookup, cache, tx.ins[i]);
    }
    var n := SignedTx(c, pool, lookup, tx).value;
    forall i | 0 <= i < |n.ins|
      ensures n.ins[i] == tx.ins[i].(script := n.ins[i].script) && InSign(c, n.ins[i]) == InSign(c, tx.ins[i])
      ensures Spendable(c, pool, lookup, n.ins[i]) && InputPasses(c, lookup, cache, n.ins[i])
    {
      SignedInput(c, pool, lookup, cache, tx.ins[i]);
    }
    InsSignSame(c, n.ins, tx.ins);
    RefsSame(n.ins, tx.ins);
    forall i, o: TxOut | 0 <= i < |n.ins|
      ensures SignBytes(c, cache, n.ins[i], o) == SignBytes(c, cache, tx.ins[i], o)
    {
      SameMessage(c, cache, n.ins[i], tx.ins[i], o);
    }
  }

  lemma SameMessage(c: Suite, cache: Cache, x: TxIn, y: TxIn, o: TxOut)
    requires InSign(c, x) == InSign(c, y)
    ensures SignBytes(c, cache, x, o) == SignBytes(c, cache, y, o)
  {
    hide InSign, OutSign;
  }

  // What a signature commits to.

  lemma {:induction false} RefsSize(ins: seq<TxIn>)
    ensures |Refs(ins)| == 34 * |ins|
  {
    if ins != [] {
      RefsSize(ins[..|ins| - 1]);
    }
  }

  /** The digest of the references is taken of the outpoints and their order. */
  lemma {:induction false} RefsCommit(xs: seq<TxIn>, ys: seq<TxIn>)
    requires Refs(xs) == Refs(ys)
    ensures Points(xs) == Points(ys)
  {
    hide LE;
    RefsSize(xs);
    RefsSize(ys);
    if xs != [] {
      var n := |xs| - 1;
      var a, b := xs[n], ys[n];
      RefsLast(xs);
      RefsLast(ys);
      RefsCommit(xs[..n], ys[..n]);
      SamePoint(a, b);
      assert Points(xs) == Points(xs[..n]) + [Point(a)] && Points(ys) == Points(ys[..n]) + [Point(b)];
    }
  }

  lemma {:induction false} RefsLast(ins: seq<TxIn>)
    requires ins != []
    ensures var n := |ins| - 1;
            && |Refs(ins)| == 34 * n + 34
            && Refs(ins)[..34 * n] == Refs(ins[..n]) && Refs(ins)[34 * n..] == ins[n].out + LE(ins[n].idx, 2)
  {
    hide LE;
    RefsSize(ins[..|ins| - 1]);
  }

  lemma SamePoint(a: TxIn, b: TxIn)
    requires a.out + LE(a.idx, 2) == b.out + LE(b.idx, 2)
    ensures Point(a) == Point(b)
  {
    var x, y := a.out + LE(a.idx, 2), b.out + LE(b.idx, 2);
    assert x[..32] == a.out && y[..32] == b.out;
    assert x[32..] == LE(a.idx, 2) && y[32..] == LE(b.idx, 2);
    Powers();
    UnLEofLE(a.idx, 2);
    UnLEofLE(b.idx, 2);
  }

  /** The signed form of an input is taken of the outpoint, the keys of the script and the sequence number. */
  lemma InCommits(c: Suite, x: TxIn, y: TxIn)
    requires InSign(c, x).Ok? && InSign(c, x) == InSign(c, y)
    ensures Point(x) == Point(y) && x.seqno == y.seqno && ScriptSign(c, x.script) == ScriptSign(c, y.script)
  {
    hide ScriptSign, LE;
    var a, b := InSign(c, x).value, InSign(c, y).value;
    var n := |a| - 4;
    assert a[..34] == x.out + LE(x.idx, 2) && b[..34] == y.out + LE(y.idx, 2);
    assert a[34..n] == ScriptSign(c, x.script).value && b[34..n] == ScriptSign(c, y.script).value;
    assert a[n..] == LE(x.seqno, 4) && b[n..] == LE(y.seqno, 4);
    SamePoint(x, y);
    Powers();
    UnLEofLE(x.seqno, 4);
    UnLEofLE(y.seqno, 4);
  }

  /** A message is taken of what the transactions commit to, of the input it is for and of the output spent. Output
      scripts are signed without their lengths, so they must be equally long to be told apart from the rest. */
  lemma MessageCommits(c: Suite, k: Cache, l: Cache, x: TxIn, y: TxIn, o: TxOut, p: TxOut)
    requires SignBytes(c, k, x, o).Ok? && SignBytes(c, k, x, o) == SignBytes(c, l, y, p)
    requires OutSign(c, o).Ok? && OutSign(c, p).Ok? && |OutSign(c, o).value| == |OutSign(c, p).value|
    ensures k == l && InSign(c, x) == InSign(c, y) && OutSign(c, o) == OutSign(c, p)
  {
    hide InSign, OutSign, LE;
    var a, b := SignBytes(c, k, x, o).value, SignBytes(c, l, y, p).value;
    var n := |a| - 32;
    var m := n - |OutSign(c, o).value|;
    assert a[..4] == LE(k.ver, 4) && b[..4] == LE(l.ver, 4);
    assert a[4..36] == k.refs && b[4..36] == l.refs && a[n..] == k.outs && b[n..] == l.outs;
    assert a[36..m] == InSign(c, x).value && b[36..m] == InSign(c, y).value;
    assert a[m..n] == OutSign(c, o).value && b[m..n] == OutSign(c, p).value;
    Powers();
    UnLEofLE(k.ver, 4);
    UnLEofLE(l.ver, 4);
  }

  /** Pays to an address in the standard way. */
  ghost predicate Standard(outv: TxOut) {
    exists h: Hash :: outv.script == ScriptOut(h)
  }

  ghost predicate AllStandard(outs: seq<TxOut>) {
    forall i :: 0 <= i < |outs| ==> Standard(outs[i])
  }

  lemma StandardSign(c: Suite, outv: TxOut)
    requires Standard(outv)
    ensures OutSign(c, outv) == Ok(I64Bytes(outv.value) + outv.script) && |outv.script| == 40
  {
    hide I64Bytes, Checked;
    var h: Hash :| outv.script == ScriptOut(h);
    ScriptOutChecked(h);
    assert |DataBytes(h)| == 34;
  }

  lemma {:induction false} OutsSize(c: Suite, outs: seq<TxOut>)
    requires AllStandard(outs)
    ensures OutsSign(c, outs).Ok? && |OutsSign(c, outs).value| == 48 * |outs|
  {
    hide OutSign, Standard;
    if outs != [] {
      OutsSize(c, outs[..|outs| - 1]);
      StandardSign(c, outs[|outs| - 1]);
    }
  }

  lemma {:induction false} OutsLast(c: Suite, outs: seq<TxOut>)
    requires outs != [] && AllStandard(outs)
    ensures var n, o := |outs| - 1, outs[|outs| - 1];
            && OutsSign(c, outs).Ok? && OutsSign(c, outs[..n]).Ok? && |OutsSign(c, outs).value| == 48 * n + 48
            && OutsSign(c, outs).value[..48 * n] == OutsSign(c, outs[..n]).value
            && OutsSign(c, outs).value[48 * n..] == I64Bytes(o.value) + o.script
  {
    hide OutSign, Standard, I64Bytes;
    OutsSize(c, outs[..|outs| - 1]);
    StandardSign(c, outs[|outs| - 1]);
  }

  lemma SameOut(a: TxOut, b: TxOut)
    requires I64Bytes(a.value) + a.script == I64Bytes(b.value) + b.script
    ensures a == b
  {
    hide I64Bytes, SInt;
    ReadI64(a.value, a.script);
    ReadI64(b.value, b.script);
  }

  /** The signed form of standard outputs, though it writes no lengths, is taken of the amounts, the addresses and
      their order. */
  lemma {:induction false} OutsCommit(c: Suite, xs: seq<TxOut>, ys: seq<TxOut>)
    requires AllStandard(xs) && AllStandard(ys) && OutsSign(c, xs) == OutsSign(c, ys)
    ensures xs == ys
  {
    hide OutsSign, Standard, I64Bytes;
    OutsSize(c, xs);
    OutsSize(c, ys);
    if xs != [] {
      var n := |xs| - 1;
      OutsLast(c, xs);
      OutsLast(c, ys);
      OutsCommit(c, xs[..n], ys[..n]);
      SameOut(xs[n], ys[n]);
      assert xs == xs[..n] + [xs[n]] && ys == ys[..n] + [ys[n]];
    }
  }

  /** Whatever two messages are equal, they are for the same input, spending the same output: same outpoint, same keys,
      same sequence number, same amount and address. */
  lemma MessageBinds(c: Suite, k: Cache, l: Cache, x: TxIn, y: TxIn, o: TxOut, p: TxOut)
    requires SignBytes(c, k, x, o).Ok? && SignBytes(c, k, x, o) == SignBytes(c, l, y, p)
    requires Standard(o) && Standard(p)
    ensures k == l && Point(x) == Point(y) && x.seqno == y.seqno
    ensures ScriptSign(c, x.script) == ScriptSign(c, y.script) && o == p
  {
    hide SignBytes, InSign, ScriptSign, Standard, I64Bytes;
    StandardSign(c, o);
    StandardSign(c, p);
    Signable(c, k, x, o);
    MessageCommits(c, k, l, x, y, o, p);
    InCommits(c, x, y);
    SameOut(o, p);
  }

  lemma Signable(c: Suite, k: Cache, x: TxIn, o: TxOut)
    requires SignBytes(c, k, x, o).Ok?
    ensures InSign(c, x).Ok? && OutSign(c, o).Ok?
  {
    hide InSign, OutSign;
  }

  /** Two transactions with an equal message have the same version and spend the same outputs in the same order; if
      their outputs are standard, they pay the same amounts to the same addresses. The hash must not collide on what
      the two refer to and pay. */
  lemma SignatureBinds(c: Suite, s: Tx, t: Tx, x: TxIn, y: TxIn, o: TxOut, p: TxOut)
    requires NewCache(c, s).Ok? && NewCache(c, t).Ok?
    requires SignBytes(c, NewCache(c, s).value, x, o).Ok?
    requires SignBytes(c, NewCache(c, s).value, x, o) == SignBytes(c, NewCache(c, t).value, y, p)
    requires OutSign(c, o).Ok? && OutSign(c, p).Ok? && |OutSign(c, o).value| == |OutSign(c, p).value|
    requires c.hash(Refs(s.ins)) == c.hash(Refs(t.ins)) ==> Refs(s.ins) == Refs(t.ins)
    requires c.hash(OutsSign(c, s.outs).value) == c.hash(OutsSign(c, t.outs).value) ==>
             OutsSign(c, s.outs) == OutsSign(c, t.outs)
    ensures s.ver == t.ver && Points(s.ins) == Points(t.ins)
    ensures AllStandard(s.outs) && AllStandard(t.outs) ==> s.outs == t.outs
  {
    hide SignBytes, Refs, OutsSign, Standard, OutSign, InSign;
    MessageCommits(c, NewCache(c, s).value, NewCache(c, t).value, x, y, o, p);
    RefsCommit(s.ins, t.ins);
    if AllStandard(s.outs) && AllStandard(t.outs) {
      OutsCommit(c, s.outs, t.outs);
    }
  }

  // What an id commits to.

  /** The signed form of an account's input tells its own length. */
  lemma InLength(c: Suite, inv: TxIn)
    requires InSign(c, inv).Ok? && GetType(inv.script) == Ok(TYPE_IN)
    ensures |InSign(c, inv).value| >= 44
    ensures var keys: int := InSign(c, inv).value[36]; |InSign(c, inv).value| == 44 + 33 * keys
  {
    var a := ScriptAccount(c, inv.script).value;
    var e, s := Accounts.EncodeSign(a).value, ScriptSign(c, inv.script).value;
    KeysSize(Accounts.Filled(a.pubs));
    assert s == [OP_TYPE, TYPE_IN] + e && s[2] == a.num && |e| == 4 + 33 * a.num;
    assert InSign(c, inv).value == inv.out + LE(inv.idx, 2) + s + LE(inv.seqno, 4);
    hide ScriptSign, ScriptAccount, LE, Accounts.EncodeSign, Concat;
  }

  lemma {:induction false} KeysSize(pubs: seq<PubKey>)
    ensures |Concat(pubs)| == 33 * |pubs|
  {
    if pubs != [] {
      KeysSize(pubs[1..]);
    }
  }

  lemma {:induction false} InsFirst(c: Suite, ins: seq<TxIn>)
    requires ins != [] && InsSign(c, ins).Ok?
    ensures InSign(c, ins[0]).Ok? && InsSign(c, ins[1..]).Ok?
    ensures InsSign(c, ins).value == InSign(c, ins[0]).value + InsSign(c, ins[1..]).value
  {
    hide InSign;
    var n := |ins| - 1;
    if n > 0 {
      InsFirst(c, ins[..n]);
      assert ins[..n][1..] == ins[1..][..n - 1];
      assert ins[1..][n - 1] == ins[n];
    } else {
      assert ins[..0] == [] && ins[1..] == [];
      var x := InSign(c, ins[0]).value;
      assert [] + x == x + [];
    }
  }

  /** Two inputs whose signed forms can be told apart where they end: accounts' inputs, or equally long ones. */
  predicate Aligned(c: Suite, x: TxIn, y: TxIn) {
    || (GetType(x.script) == Ok(TYPE_IN) && GetType(y.script) == Ok(TYPE_IN))
    || (InSign(c, x).Ok? && InSign(c, y).Ok? && |InSign(c, x).value| == |InSign(c, y).value|)
  }

  lemma AlignedSplit(c: Suite, x: TxIn, y: TxIn, r: Bytes, t: Bytes)
    requires InSign(c, x).Ok? && InSign(c, y).Ok? && Aligned(c, x, y)
    requires InSign(c, x).value + r == InSign(c, y).value + t
    ensures InSign(c, x) == InSign(c, y) && r == t
  {
    hide InSign;
    var a, b := InSign(c, x).value, InSign(c, y).value;
    if GetType(x.script) == Ok(TYPE_IN) && GetType(y.script) == Ok(TYPE_IN) {
      InLength(c, x);
      InLength(c, y);
      assert a[36] == (a + r)[36] && b[36] == (b + t)[36];
    }
    assert (a + r)[..|a|] == a && (b + t)[..|b|] == b && (a + r)[|a|..] == r && (b + t)[|b|..] == t;
  }

  lemma {:induction false} InsSplit(c: Suite, xs: seq<TxIn>, ys: seq<TxIn>, r: Bytes, t: Bytes)
    requires InsSign(c, xs).Ok? && InsSign(c, ys).Ok? && |xs| == |ys|
    requires forall i :: 0 <= i < |xs| ==> Aligned(c, xs[i], ys[i])
    requires InsSign(c, xs).value + r == InsSign(c, ys).value + t
    ensures r == t && forall i :: 0 <= i < |xs| ==> InSign(c, xs[i]).Ok? && InSign(c, xs[i]) == InSign(c, ys[i])
  {
    hide InSign, Aligned, InsSign;
    if xs == [] {
      InsNone(c);
      assert xs == [] && ys == [] && [] + r == r && [] + t == t;
    } else {
      InsFirst(c, xs);
      InsFirst(c, ys);
      var a, b := InsSign(c, xs[1..]).value, InsSign(c, ys[1..]).value;
      Reassoc(InSign(c, xs[0]).value, a, r);
      Reassoc(InSign(c, ys[0]).value, b, t);
      AlignedSplit(c, xs[0], ys[0], a + r, b + t);
      forall i | 0 <= i < |xs| - 1 ensures Aligned(c, xs[1..][i], ys[1..][i]) {
        assert Aligned(c, xs[i + 1], ys[i + 1]);
      }
      InsSplit(c, xs[1..], ys[1..], r, t);
      forall i | 0 <= i < |xs| ensures InSign(c, xs[i]).Ok? && InSign(c, xs[i]) == InSign(c, ys[i]) {
        assert i > 0 ==> xs[i] == xs[1..][i - 1] && ys[i] == ys[1..][i - 1];
      }
    }
  }

  lemma InsNone(c: Suite)
    ensures InsSign(c, []) == Ok([])
  {
  }

  /** A transaction id is taken of the version, of every input in order with its outpoint, keys and sequence number, and
      of every output in order with its amount and address, unless the hash collides on the two. Coinbase scripts and
      outputs are signed without lengths, so coinbase inputs must be equally long, and outputs standard. */
  lemma IdCommits(c: Suite, s: Tx, t: Tx)
    requires TxId(c, s).Ok? && TxId(c, s) == TxId(c, t)
    requires c.hash(TxSign(c, s).value) == c.hash(TxSign(c, t).value) ==> TxSign(c, s) == TxSign(c, t)
    requires TxCounts(s) && TxCounts(t) && AllStandard(s.outs) && AllStandard(t.outs)
    requires forall i :: 0 <= i < |s.ins| && i < |t.ins| ==> Aligned(c, s.ins[i], t.ins[i])
    ensures s.ver == t.ver && |s.ins| == |t.ins| && s.outs == t.outs
    ensures forall i :: 0 <= i < |s.ins| ==>
              && Point(s.ins[i]) == Point(t.ins[i]) && s.ins[i].seqno == t.ins[i].seqno
              && ScriptSign(c, s.ins[i].script) == ScriptSign(c, t.ins[i].script)
  {
    hide InsSign, OutsSign, Aligned, ScriptSign, Standard, InSign, LE;
    var a, b := TxSign(c, s).value, TxSign(c, t).value;
    var ai, bi := InsSign(c, s.ins).value, InsSign(c, t.ins).value;
    var ao, bo := LE(|s.outs|, 2) + OutsSign(c, s.outs).value, LE(|t.outs|, 2) + OutsSign(c, t.outs).value;
    assert a == LE(s.ver, 4) + LE(|s.ins|, 2) + (ai + ao) && b == LE(t.ver, 4) + LE(|t.ins|, 2) + (bi + bo);
    assert a[..4] == LE(s.ver, 4) && b[..4] == LE(t.ver, 4);
    assert a[4..6] == LE(|s.ins|, 2) && b[4..6] == LE(|t.ins|, 2) && a[6..] == ai + ao && b[6..] == bi + bo;
    Powers();
    SameNumbers(s.ver, t.ver, 4);
    SameNumbers(|s.ins|, |t.ins|, 2);
    InsSplit(c, s.ins, t.ins, ao, bo);
    assert ao[2..] == OutsSign(c, s.outs).value && bo[2..] == OutsSign(c, t.outs).value;
    OutsCommit(c, s.outs, t.outs);
    forall i | 0 <= i < |s.ins|
      ensures Point(s.ins[i]) == Point(t.ins[i]) && s.ins[i].seqno == t.ins[i].seqno
      ensures ScriptSign(c, s.ins[i].script) == ScriptSign(c, t.ins[i].script)
    {
      InCommits(c, s.ins[i], t.ins[i]);
    }
  }

  lemma SameNumbers(a: nat, b: nat, n: nat)
    requires LE(a, n) == LE(b, n) && a < Pow256(n) && b < Pow256(n)
    ensures a == b
  {
    UnLEofLE(a, n);
    UnLEofLE(b, n);
  }

  /** The inputs up to the first that cannot be signed. */
  function SignedPart(c: Suite, pool: Pool, lookup: Lookup, cache: Cache, ins: seq<TxIn>): (r: seq<TxIn>)
    ensures |r| == |ins|
  {
    if ins == [] then []
    else
      var h := SignedIn(c, pool, lookup, cache, ins[0]);
      if h.Err? then ins else [h.value] + SignedPart(c, pool, lookup, cache, ins[1..])
  }

  /** That part is everything if all can be signed, and leaves the rest alone if one cannot. */
  lemma {:induction false} PartIs(c: Suite, pool: Pool, lookup: Lookup, cache: Cache,
                                  ins: seq<TxIn>, out: seq<TxIn>, n: nat)
    requires |out| == |ins| && n <= |ins|
    requires forall k :: 0 <= k < n ==> SignedIn(c, pool, lookup, cache, ins[k]) == Ok(out[k])
    requires forall k :: n <= k < |ins| ==> out[k] == ins[k]
    requires n < |ins| ==> SignedIn(c, pool, lookup, cache, ins[n]).Err?
    ensures out == SignedPart(c, pool, lookup, cache, ins)
  {
    hide SignedIn;
    if n > 0 {
      PartIs(c, pool, lookup, cache, ins[1..], out[1..], n - 1);
      assert out == [out[0]] + out[1..];
    }
  }

  /** `sign_tx`, on the inputs in place: when one cannot be signed, those before it have been. */
  method SignTx(c: Suite, pool: Pool, lookup: Lookup, ver: U32, ins: array<TxIn>, outs: seq<TxOut>)
    returns (r: Result<()>)
    modifies ins
    ensures var tx := Tx(ver, old(ins[..]), outs);
            && (r.Ok? <==> SignedTx(c, pool, lookup, tx).Ok?)
            && (r.Ok? ==> Tx(ver, ins[..], outs) == SignedTx(c, pool, lookup, tx).value)
            && ins[..] == if NewCache(c, tx).Ok? then SignedPart(c, pool, lookup, NewCache(c, tx).value, tx.ins)
                          else tx.ins
  {
    hide SignedIn, NewCache, SignedPart;
    ghost var was := ins[..];
    var cache :- NewCache(c, Tx(ver, ins[..], outs));
    for i := 0 to ins.Length
      invariant forall k :: i <= k < ins.Length ==> ins[k] == was[k]
      invariant forall k :: 0 <= k < i ==> SignedIn(c, pool, lookup, cache, was[k]) == Ok(ins[k])
    {
      var inv := SignInput(c, pool, lookup, cache, ins[i]);
      if inv.Err? {
        PartIs(c, pool, lookup, cache, was, ins[..], i);
        return Err;
      }
      ins[i] := inv.value;
    }
    PartIs(c, pool, lookup, cache, was, ins[..], ins.Length);
    r := Ok(());
  }

  method SignInput(c: Suite, pool: Pool, lookup: Lookup, cache: Cache, inv: TxIn) returns (r: Result<TxIn>)
    ensures r == SignedIn(c, pool, lookup, cache, inv)
  {
    hide InAddress, SignBytes, Accounts.CheckPrisPubs, Accounts.SignedFull, Accounts.IntoBytes, Checked, ScriptIn;
    var outv :- lookup(Point(inv));
    var addr :- InAddress(c, inv);
    if pool(addr).None? {
      return Err;
    }
    var a := pool(addr).value;
    if |a.pris| != |a.pubs| || |a.pris| != |a.sigs| || !Accounts.CheckPrisPubs(c, a) {
      return Err;
    }
    var msg :- SignBytes(c, cache, inv, outv);
    var acc := new Accounts.Account(a);
    var _ :- acc.SignFull(c, msg);
    var script :- NewScript(ScriptIn(Accounts.IntoBytes(acc.View())));
    r := Ok(inv.(script := script));
  }
}
