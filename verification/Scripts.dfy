/** src/script.rs: the script builder, the operation counter and the stack machine. */
module Scripts {
  import opened Common
  import opened Iobuf
  import opened Crypto
  import Accounts

  const OP_16: Byte := 0x10
  const OP_FALSE: Byte := 0x90
  const OP_TRUE: Byte := 0x91
  const OP_NUMBER_1: Byte := 0xA0
  const OP_NUMBER_2: Byte := 0xA1
  const OP_NUMBER_4: Byte := 0xA2
  const OP_NUMBER_8: Byte := 0xA3
  const OP_DATA_1: Byte := 0xB0
  const OP_DATA_2: Byte := 0xB1
  const OP_DATA_4: Byte := 0xB2
  const OP_TYPE: Byte := 0xFF
  const OP_VERIFY: Byte := 0xC0
  const OP_EQUAL: Byte := 0xC1
  const OP_NOT: Byte := 0xC2
  const OP_CHECKSIG: Byte := 0xC3
  const OP_HASHER: Byte := 0xC4
  const OP_EQUAL_VERIFY: Byte := 0xC5
  const OP_CHECKSIG_VERIFY: Byte := 0xC6
  const OP_VERIFY_INOUT: Byte := 0xC7

  const TYPE_CB: Byte := 1
  const TYPE_IN: Byte := 2
  const TYPE_OUT: Byte := 3
  const MAX_CB_SIZE := 128
  const MAX_IN_SIZE := 2048
  const MAX_OUT_SIZE := 2048
  const MAX_SCRIPT_SIZE := 4096
  const MAX_SCRIPT_OPS := 256

  datatype Ele = Bool(b: bool) | Number(n: int) | Data(d: Bytes)

  /** The signature check the caller of the machine supplies. */
  type Env = Ele -> Result<bool>

  /** The value of an `Exector`: the stack and the script types seen. */
  datatype Machine = Machine(eles: seq<Ele>, typs: seq<Byte>)

  const FRESH := Machine([], [])

  // Reading.

  /** One operation with the data that follows it. */
  datatype Instr = Typ(typ: Byte) | Push(ele: Ele) | Act(op: Byte)

  function ReadBinary(op: Byte, s: Bytes): Result<Parsed<Bytes>> {
    if op == OP_DATA_1 then var l :- UInt(s, 1); Take(l.rest, l.value)
    else if op == OP_DATA_2 then var l :- UInt(s, 2); Take(l.rest, l.value)
    else if op == OP_DATA_4 then var l :- UInt(s, 4); Take(l.rest, l.value)
    else Err
  }

  function ReadNumber(op: Byte, s: Bytes): Result<Parsed<int>> {
    if op == OP_NUMBER_1 then SInt(s, 1)
    else if op == OP_NUMBER_2 then SInt(s, 2)
    else if op == OP_NUMBER_4 then SInt(s, 4)
    else if op == OP_NUMBER_8 then SInt(s, 8)
    else Err
  }

  function Operand(op: Byte, s: Bytes): Result<Parsed<Instr>> {
    if op == OP_TYPE then
      if s == [] then Err else Ok(Parsed(Typ(s[0]), s[1..]))
    else if op == OP_TRUE || op == OP_FALSE then Ok(Parsed(Push(Bool(op == OP_TRUE)), s))
    else if op <= OP_16 then Ok(Parsed(Push(Number(op)), s))
    else if OP_NUMBER_1 <= op <= OP_NUMBER_8 then
      var v :- ReadNumber(op, s); Ok(Parsed(Push(Number(v.value)), v.rest))
    else if OP_DATA_1 <= op <= OP_DATA_4 then
      var d :- ReadBinary(op, s); Ok(Parsed(Push(Data(d.value)), d.rest))
    else Ok(Parsed(Act(op), s))
  }

  function Fetch(s: Bytes): (r: Result<Parsed<Instr>>)
    ensures r.Ok? ==> |r.value.rest| < |s|
  {
    if s == [] then Err else Operand(s[0], s[1..])
  }

  // Executing.

  function Popped(m: Machine, n: nat): Machine
    requires n <= |m.eles|
  {
    m.(eles := m.eles[..|m.eles| - n])
  }

  function Pushed(m: Machine, e: Ele): Machine {
    m.(eles := m.eles + [e])
  }

  /** `top(-n)`. */
  function Top(m: Machine, n: nat): Ele
    requires 0 < n <= |m.eles|
  {
    m.eles[|m.eles| - n]
  }

  /** The account bytes on top are hashed to an address. */
  function AddressOfEle(c: Suite, e: Ele): Result<Hash> {
    if !e.Data? then Err
    else
      var a :- Accounts.FromBytes(c, e.d);
      Accounts.AddressOf(c, a)
  }

  /** Either keep a truth value on the stack or insist on it. */
  function Settle(m: Machine, val: bool, verify: bool): Result<Machine> {
    if !verify then Ok(Pushed(m, Bool(val))) else if val then Ok(m) else Err
  }

  function Act1(c: Suite, env: Env, m: Machine, op: Byte): Result<Machine>
    requires |m.eles| >= 1
  {
    var top := Top(m, 1);
    if op == OP_VERIFY then
      if top.Bool? then Settle(Popped(m, 1), top.b, true) else Err
    else if op == OP_HASHER then
      var h :- AddressOfEle(c, top); Ok(Pushed(m, Data(h)))
    else if op == OP_NOT then
      if top.Bool? then Ok(Pushed(Popped(m, 1), Bool(!top.b))) else Err
    else if op == OP_CHECKSIG || op == OP_CHECKSIG_VERIFY then
      var val :- env(top); Settle(Popped(m, 1), val, op == OP_CHECKSIG_VERIFY)
    else Err
  }

  function Apply(c: Suite, env: Env, m: Machine, i: Instr): Result<Machine> {
    match i
    case Typ(t) => Ok(m.(typs := m.typs + [t]))
    case Push(e) => Ok(Pushed(m, e))
    case Act(op) =>
      if op == OP_EQUAL || op == OP_EQUAL_VERIFY then
        if |m.eles| < 2 then Err
        else Settle(Popped(m, 2), Top(m, 1) == Top(m, 2), op == OP_EQUAL_VERIFY)
      else if op == OP_VERIFY_INOUT then
        if m.typs == [TYPE_IN, TYPE_OUT] then Ok(m) else Err
      else if |m.eles| < 1 then Err
      else Act1(c, env, m, op)
  }

  /** What each operation does to a stack, the top last. */
  lemma ActLeaves(c: Suite, env: Env, s: seq<Ele>, t: seq<Byte>, a: Ele, e: Ele)
    ensures Apply(c, env, Machine(s + [a, e], t), Act(0xC1)) == Ok(Machine(s + [Bool(a == e)], t))
    ensures Apply(c, env, Machine(s + [a, e], t), Act(0xC5)) == if a == e then Ok(Machine(s, t)) else Err
    ensures Apply(c, env, Machine(s + [e], t), Act(0xC2)) ==
            if e.Bool? then Ok(Machine(s + [Bool(!e.b)], t)) else Err
    ensures Apply(c, env, Machine(s + [e], t), Act(0xC0)) == if e == Bool(true) then Ok(Machine(s, t)) else Err
    ensures Apply(c, env, Machine(s + [e], t), Act(0xC3)) ==
            if env(e).Ok? then Ok(Machine(s + [Bool(env(e).value)], t)) else Err
    ensures Apply(c, env, Machine(s + [e], t), Act(0xC6)) ==
            if env(e) == Ok(true) then Ok(Machine(s, t)) else Err
    ensures Apply(c, env, Machine(s + [e], t), Act(0xC4)) ==
            match AddressOfEle(c, e) case Err => Err case Ok(h) => Ok(Machine(s + [e, Data(h)], t))
    ensures Apply(c, env, Machine(s, t), Act(0xC7)) == if t == [2, 3] then Ok(Machine(s, t)) else Err
  {
    hide AddressOfEle;
    TopTwo(s, t, a, e);
    TopOne(s, t, e);
    assert (s + [e]) + [Data(ZERO_HASH)] == s + [e, Data(ZERO_HASH)];
    if AddressOfEle(c, e).Ok? {
      var h := AddressOfEle(c, e).value;
      assert (s + [e]) + [Data(h)] == s + [e, Data(h)];
    }
  }

  lemma TopOne(s: seq<Ele>, t: seq<Byte>, e: Ele)
    ensures var m := Machine(s + [e], t); Top(m, 1) == e && Popped(m, 1) == Machine(s, t)
  {
  }

  lemma TopTwo(s: seq<Ele>, t: seq<Byte>, a: Ele, e: Ele)
    ensures var m := Machine(s + [a, e], t); Top(m, 1) == e && Top(m, 2) == a && Popped(m, 2) == Machine(s, t)
  {
  }

  /** On a stack too short, and for any other byte, an operation fails. */
  lemma ActFails(c: Suite, env: Env, m: Machine, op: Byte)
    requires (|m.eles| == 0 && op != 0xC7) || (|m.eles| < 2 && (op == 0xC1 || op == 0xC5)) || !(0xC0 <= op <= 0xC7)
    ensures Apply(c, env, m, Act(op)).Err?
  {
  }

  /** The verifying forms are the plain ones followed by OP_VERIFY, and OP_NOT undoes itself. */
  lemma VerifyForms(c: Suite, env: Env, m: Machine)
    ensures Apply(c, env, m, Act(OP_EQUAL_VERIFY)) == Twice(c, env, m, OP_EQUAL, OP_VERIFY)
    ensures Apply(c, env, m, Act(OP_CHECKSIG_VERIFY)) == Twice(c, env, m, OP_CHECKSIG, OP_VERIFY)
    ensures |m.eles| > 0 && Top(m, 1).Bool? ==> Twice(c, env, m, OP_NOT, OP_NOT) == Ok(m)
  {
    if |m.eles| > 0 {
      var n := |m.eles| - 1;
      var s, e := m.eles[..n], m.eles[n];
      assert m.eles == s + [e];
      ActLeaves(c, env, s, m.typs, e, e);
      if env(e).Ok? {
        ActLeaves(c, env, s, m.typs, e, Bool(env(e).value));
      }
      if e.Bool? {
        ActLeaves(c, env, s, m.typs, e, Bool(!e.b));
      }
    }
    if |m.eles| > 1 {
      var n := |m.eles| - 2;
      var s, a, e := m.eles[..n], m.eles[n], m.eles[n + 1];
      assert m.eles == s + [a, e];
      ActLeaves(c, env, s, m.typs, a, e);
      ActLeaves(c, env, s, m.typs, a, Bool(a == e));
    }
    hide Act1;
  }

  function Twice(c: Suite, env: Env, m: Machine, first: Byte, second: Byte): Result<Machine> {
    var n :- Apply(c, env, m, Act(first));
    Apply(c, env, n, Act(second))
  }

  datatype Ran = Ran(m: Machine, steps: nat)

  function RunFrom(c: Suite, env: Env, m: Machine, s: Bytes, step: nat): Result<Ran>
    decreases |s|
  {
    var f :- Fetch(s);
    var n :- Apply(c, env, m, f.value);
    if step + 1 > MAX_SCRIPT_OPS then Err
    else if f.rest == [] then Ok(Ran(n, step + 1))
    else RunFrom(c, env, n, f.rest, step + 1)
  }

  function Run(c: Suite, env: Env, m: Machine, s: Bytes): Result<Ran> {
    if |s| > 2 * MAX_SCRIPT_SIZE || s == [] then Err else RunFrom(c, env, m, s, 0)
  }

  // Counting.

  function PowerOfTwo(p: nat): nat {
    if p == 0 then 1 else 2 * PowerOfTwo(p - 1)
  }

  /** `Reader::length`; a size of 3 reads four bytes. */
  function Length(s: Bytes, size: nat): Result<Parsed<nat>> {
    if |s| < size then Err
    else if size == 1 then UInt(s, 1)
    else if size == 2 then UInt(s, 2)
    else if size == 3 then UInt(s, 4)
    else Err
  }

  function Dropped(s: Bytes, n: nat): Result<Bytes> {
    if |s| < n then Err else Ok(s[n..])
  }

  /** What is left after one operation, as the counter sees it. */
  function SkipOp(op: Byte, s: Bytes): (r: Result<Bytes>)
    ensures r.Ok? ==> |r.value| <= |s|
  {
    if op == OP_TYPE then Dropped(s, 1)
    else if OP_NUMBER_1 <= op <= OP_NUMBER_8 then Dropped(s, PowerOfTwo(op - OP_NUMBER_1))
    else if OP_DATA_1 <= op <= OP_DATA_4 then
      var l :- Length(s, op - OP_DATA_1 + 1);
      Dropped(l.rest, l.value)
    else Ok(s)
  }

  function CountFrom(s: Bytes, ops: nat): Result<nat>
    decreases |s|
  {
    if s == [] then Err
    else
      var rest :- SkipOp(s[0], s[1..]);
      if ops + 1 > MAX_SCRIPT_OPS then Err
      else if rest == [] then Ok(ops + 1)
      else CountFrom(rest, ops + 1)
  }

  function Ops(s: Bytes): Result<nat> {
    if |s| > MAX_SCRIPT_SIZE || s == [] then Err else CountFrom(s, 0)
  }

  /** Counter and machine cut a script at the same places. */
  lemma SkipIsFetch(s: Bytes)
    requires s != []
    ensures SkipOp(s[0], s[1..]) == if Fetch(s).Ok? then Ok(Fetch(s).value.rest) else Err
  {
    assert PowerOfTwo(0) == 1 && PowerOfTwo(1) == 2 && PowerOfTwo(2) == 4 && PowerOfTwo(3) == 8;
    var op, t := s[0], s[1..];
    if OP_DATA_1 <= op <= OP_DATA_4 {
      assert op == OP_DATA_1 || op == OP_DATA_2 || op == OP_DATA_4;
    }
    hide UnLE;
  }

  lemma {:induction false} RunCounts(c: Suite, env: Env, m: Machine, s: Bytes, step: nat)
    requires RunFrom(c, env, m, s, step).Ok?
    ensures CountFrom(s, step) == Ok(RunFrom(c, env, m, s, step).value.steps)
    decreases |s|
  {
    hide SkipOp, Fetch, Apply;
    SkipIsFetch(s);
    var f := Fetch(s).value;
    if f.rest != [] {
      RunCounts(c, env, Apply(c, env, m, f.value).value, f.rest, step + 1);
    }
  }

  /** A script that runs in n steps counts n operations. */
  lemma CounterAgrees(c: Suite, env: Env, m: Machine, s: Bytes)
    requires |s| <= MAX_SCRIPT_SIZE && Run(c, env, m, s).Ok?
    ensures Ops(s) == Ok(Run(c, env, m, s).value.steps)
  {
    RunCounts(c, env, m, s, 0);
  }

  /** A script runs only up to its size limit, and in at most 256 steps. */
  lemma RunLimits(c: Suite, env: Env, m: Machine, s: Bytes)
    ensures Run(c, env, m, s).Ok? ==> 0 < |s| <= 8192 && 1 <= Run(c, env, m, s).value.steps <= 256
  {
    if Run(c, env, m, s).Ok? {
      StepsBound(c, env, m, s, 0);
    }
  }

  lemma {:induction false} StepsBound(c: Suite, env: Env, m: Machine, s: Bytes, step: nat)
    requires RunFrom(c, env, m, s, step).Ok?
    ensures step < RunFrom(c, env, m, s, step).value.steps <= 256
    decreases |s|
  {
    hide Fetch, Apply;
    var f := Fetch(s).value;
    if f.rest != [] {
      StepsBound(c, env, Apply(c, env, m, f.value).value, f.rest, step + 1);
    }
  }

  // Composition.

  lemma TakeMore(s: Bytes, t: Bytes, n: nat)
    requires n <= |s|
    ensures Take(s + t, n) == Ok(Parsed(s[..n], s[n..] + t))
    ensures UInt(s + t, n) == Ok(Parsed(UnLE(s[..n]), s[n..] + t))
  {
    assert (s + t)[..n] == s[..n];
    assert (s + t)[n..] == s[n..] + t;
  }

  /** What an operation reads does not depend on what follows it. */
  lemma FetchMore(s: Bytes, t: Bytes)
    requires Fetch(s).Ok?
    ensures Fetch(s + t) == Ok(Parsed(Fetch(s).value.value, Fetch(s).value.rest + t))
  {
    var op, r := s[0], s[1..];
    assert (s + t)[0] == op && (s + t)[1..] == r + t;
    if op == OP_TYPE {
      TakeMore(r, t, 1);
    } else if OP_NUMBER_1 <= op <= OP_NUMBER_8 {
      NumberMore(op, r, t);
    } else if OP_DATA_1 <= op <= OP_DATA_4 {
      BinaryMore(op, r, t);
    }
    hide ReadNumber, ReadBinary;
  }

  lemma NumberMore(op: Byte, s: Bytes, t: Bytes)
    requires ReadNumber(op, s).Ok?
    ensures ReadNumber(op, s + t) == Ok(Parsed(ReadNumber(op, s).value.value, ReadNumber(op, s).value.rest + t))
  {
    hide UnLE, Pow256, Signed;
    TakeMore(s, t, if op == OP_NUMBER_1 then 1 else if op == OP_NUMBER_2 then 2
                else if op == OP_NUMBER_4 then 4 else 8);
  }

  lemma BinaryMore(op: Byte, s: Bytes, t: Bytes)
    requires ReadBinary(op, s).Ok?
    ensures ReadBinary(op, s + t) == Ok(Parsed(ReadBinary(op, s).value.value, ReadBinary(op, s).value.rest + t))
  {
    hide UnLE;
    var n := if op == OP_DATA_1 then 1 else if op == OP_DATA_2 then 2 else 4;
    TakeMore(s, t, n);
    TakeMore(s[n..], t, UnLE(s[..n]));
  }

  /** Running on after a first script that took `n` steps. */
  function Then(c: Suite, env: Env, first: Result<Ran>, b: Bytes): Result<Ran> {
    if first.Err? then Err else RunFrom(c, env, first.value.m, b, first.value.steps)
  }

  lemma {:induction false} RunOn(c: Suite, env: Env, m: Machine, a: Bytes, b: Bytes, step: nat)
    requires CountFrom(a, step).Ok? && b != []
    ensures RunFrom(c, env, m, a + b, step) == Then(c, env, RunFrom(c, env, m, a, step), b)
    decreases |a|
  {
    hide SkipOp, Fetch, Apply;
    SkipIsFetch(a);
    FetchMore(a, b);
    var f := Fetch(a).value;
    var n := Apply(c, env, m, f.value);
    if n.Ok? {
      if f.rest == [] {
        assert f.rest + b == b;
      } else {
        RunOn(c, env, n.value, f.rest, b, step + 1);
      }
    }
  }

  /** Starting with `k` steps already taken only moves the step limit. */
  lemma {:induction false} StepsShift(c: Suite, env: Env, m: Machine, s: Bytes, step: nat, k: nat)
    ensures RunFrom(c, env, m, s, step + k) ==
            match RunFrom(c, env, m, s, step)
            case Err => Err
            case Ok(r) => if r.steps + k <= MAX_SCRIPT_OPS then Ok(Ran(r.m, r.steps + k)) else Err
    decreases |s|
  {
    hide Fetch, Apply;
    if Fetch(s).Ok? {
      var f := Fetch(s).value;
      var n := Apply(c, env, m, f.value);
      if n.Ok? && f.rest != [] {
        StepsShift(c, env, n.value, f.rest, step + 1, k);
      }
    }
  }

  /** Running two scripts in turn, with one step limit for both. */
  function RunBoth(c: Suite, env: Env, m: Machine, a: Bytes, b: Bytes): Result<Ran> {
    var r1 :- Run(c, env, m, a);
    var r2 :- Run(c, env, r1.m, b);
    if r1.steps + r2.steps <= MAX_SCRIPT_OPS then Ok(Ran(r2.m, r1.steps + r2.steps)) else Err
  }

  /** A concatenated script does what its parts do one after the other, errors included. */
  lemma Composition(c: Suite, env: Env, m: Machine, a: Bytes, b: Bytes)
    requires Ops(a).Ok? && b != [] && |a| + |b| <= 2 * MAX_SCRIPT_SIZE
    ensures Run(c, env, m, a + b) == RunBoth(c, env, m, a, b)
  {
    hide RunFrom, CountFrom;
    RunOn(c, env, m, a, b, 0);
    var r1 := Run(c, env, m, a);
    if r1.Ok? {
      StepsShift(c, env, r1.value.m, b, 0, r1.value.steps);
    }
  }

  /** Without the counter's consent the parts may run differently: here the first script ends before its operand,
      and takes the first byte of the second instead. */
  lemma CompositionNeedsOps(c: Suite, env: Env)
    ensures var a, b: Bytes := [OP_TYPE], [0];
            && Ops(a).Err? && RunBoth(c, env, FRESH, a, b).Err?
            && Run(c, env, FRESH, a + b) == Ok(Ran(Machine([], [0]), 1))
  {
    var s: Bytes := [OP_TYPE, 0];
    assert [OP_TYPE] + [0] == s && s[1..] == [0] && s[1..][1..] == [];
    assert Fetch(s) == Ok(Parsed(Typ(0), []));
    TypStep(c, env, FRESH, 0);
    assert FRESH.typs + [0] == [0];
    LastRun(c, env, FRESH, s, 0, Typ(0));
  }

  // Building.

  /** `data`: an operation with a length of one, two or four bytes; nothing at all for no data. */
  function DataBytes(v: Bytes): Bytes {
    if |v| == 0 then []
    else if |v| <= 0xFF then [OP_DATA_1] + LE(|v|, 1) + v
    else if |v| <= 0xFFFF then [OP_DATA_2] + LE(|v|, 2) + v
    else if |v| <= 0xFFFF_FFFF then [OP_DATA_4] + LE(|v|, 4) + v
    else v
  }

  function GetType(s: Bytes): Result<Byte> {
    if |s| < 2 || s[0] != OP_TYPE then Err else Ok(s[1])
  }

  function MaxSize(s: Bytes): Result<nat> {
    var t :- GetType(s);
    if t == TYPE_CB then Ok(MAX_CB_SIZE)
    else if t == TYPE_IN then Ok(MAX_IN_SIZE)
    else if t == TYPE_OUT then Ok(MAX_OUT_SIZE)
    else Err
  }

  /** `check`: a known type, within its size, and countable. */
  predicate Checked(s: Bytes) {
    && |s| <= MAX_SCRIPT_SIZE
    && MaxSize(s).Ok? && 0 < |s| <= MaxSize(s).value
    && Ops(s).Ok?
  }

  /** A script is checked exactly if it is typed, countable, and short enough for its type. */
  lemma CheckedIs(s: Bytes)
    ensures Checked(s) <==>
            && |s| >= 2 && s[0] == 0xFF && (s[1] == 1 || s[1] == 2 || s[1] == 3) && Ops(s).Ok?
            && |s| <= if s[1] == 1 then 128 else 2048
  {
    hide CountFrom;
  }

  /** Data put into a script comes back as one stack element. */
  lemma FetchData(v: Bytes, t: Bytes)
    requires 0 < |v| <= 0xFFFF_FFFF
    ensures Fetch(DataBytes(v) + t) == Ok(Parsed(Push(Data(v)), t))
  {
    var n := if |v| <= 0xFF then 1 else if |v| <= 0xFFFF then 2 else 4;
    var op := if |v| <= 0xFF then OP_DATA_1 else if |v| <= 0xFFFF then OP_DATA_2 else OP_DATA_4;
    DataShape(op, LE(|v|, n), v, t);
    ReadSized(op, n, v, t);
    FetchBinary(op, LE(|v|, n) + (v + t));
  }

  lemma Appended(s: Bytes, op: Byte, l: Bytes, v: Bytes)
    ensures s + [op] + l + v == s + ([op] + l + v)
  {
  }

  lemma DataShape(op: Byte, l: Bytes, v: Bytes, t: Bytes)
    ensures ([op] + l + v) + t == [op] + (l + (v + t))
  {
  }

  lemma FetchBinary(op: Byte, s: Bytes)
    requires OP_DATA_1 <= op <= OP_DATA_4 && ReadBinary(op, s).Ok?
    ensures Fetch([op] + s) == Ok(Parsed(Push(Data(ReadBinary(op, s).value.value)), ReadBinary(op, s).value.rest))
  {
    assert ([op] + s)[1..] == s;
    hide ReadBinary;
  }

  lemma ReadSized(op: Byte, n: nat, v: Bytes, t: Bytes)
    requires (op == OP_DATA_1 && n == 1 && |v| <= 0xFF) || (op == OP_DATA_2 && n == 2 && |v| <= 0xFFFF) ||
             (op == OP_DATA_4 && n == 4 && |v| <= 0xFFFF_FFFF)
    ensures ReadBinary(op, LE(|v|, n) + (v + t)) == Ok(Parsed(v, t))
  {
    Powers();
    ReadUInt(|v|, n, v + t);
    ReadTake(v, t);
    hide UInt, Take, LE;
  }

  /** A number written behind its operation comes back signed, for each of the four widths; the small numbers and the
      truth values are operations by themselves. */
  lemma FetchNumber(n: nat, v: int, t: Bytes)
    requires n == 1 || n == 2 || n == 4 || n == 8
    requires -(2 * v) <= Pow256(n) && 2 * v < Pow256(n)
    ensures var op: Byte := if n == 1 then 0xA0 else if n == 2 then 0xA1 else if n == 4 then 0xA2 else 0xA3;
            Fetch([op] + (LE(Unsigned(v, n), n) + t)) == Ok(Parsed(Push(Number(v)), t))
  {
    hide LE, Unsigned, Pow256, UnLE, Signed;
    var op: Byte := if n == 1 then 0xA0 else if n == 2 then 0xA1 else if n == 4 then 0xA2 else 0xA3;
    ReadUInt(Unsigned(v, n), n, t);
    FetchByte(op, LE(Unsigned(v, n), n) + t);
    hide UInt;
  }

  lemma FetchSmall(op: Byte, t: Bytes)
    ensures op <= 16 ==> Fetch([op] + t) == Ok(Parsed(Push(Number(op)), t))
    ensures op == 0x90 ==> Fetch([op] + t) == Ok(Parsed(Push(Bool(false)), t))
    ensures op == 0x91 ==> Fetch([op] + t) == Ok(Parsed(Push(Bool(true)), t))
  {
    FetchByte(op, t);
    hide Fetch;
  }

  /** The input script of an account, and the output script that pays to an address. */
  function ScriptIn(acc: Bytes): Bytes {
    [OP_TYPE, TYPE_IN] + DataBytes(acc)
  }

  function ScriptOut(h: Hash): Bytes {
    [OP_TYPE, TYPE_OUT, OP_VERIFY_INOUT, OP_HASHER] + DataBytes(h) + [OP_EQUAL_VERIFY, OP_CHECKSIG_VERIFY]
  }

  function NewScript(s: Bytes): Result<Bytes> {
    if Checked(s) then Ok(s) else Err
  }

  lemma FetchByte(op: Byte, t: Bytes)
    ensures Fetch([op] + t) == Operand(op, t)
  {
    assert ([op] + t)[1..] == t;
    hide Operand;
  }

  lemma FetchTyp(typ: Byte, t: Bytes)
    ensures Fetch([OP_TYPE, typ] + t) == Ok(Parsed(Typ(typ), t))
  {
    var s := [OP_TYPE, typ] + t;
    assert s[1..] == [typ] + t && s[1..][1..] == t;
  }

  lemma TypStep(c: Suite, env: Env, m: Machine, typ: Byte)
    ensures Apply(c, env, m, Typ(typ)) == Ok(Machine(m.eles, m.typs + [typ]))
  {
  }

  lemma PushStep(c: Suite, env: Env, m: Machine, e: Ele)
    ensures Apply(c, env, m, Push(e)) == Ok(Machine(m.eles + [e], m.typs))
  {
  }

  lemma StepRun(c: Suite, env: Env, m: Machine, s: Bytes, step: nat, i: Instr, t: Bytes)
    requires step < MAX_SCRIPT_OPS && Fetch(s) == Ok(Parsed(i, t)) && t != []
    ensures RunFrom(c, env, m, s, step) ==
            match Apply(c, env, m, i) case Err => Err case Ok(n) => RunFrom(c, env, n, t, step + 1)
  {
    hide Fetch, Apply;
  }

  /** An input script run before the output script it spends succeeds exactly when the account hashes to the address
      the output names and the environment accepts the account; nothing is left on the stack. */
  lemma StandardSpend(c: Suite, env: Env, acc: Bytes, h: Hash)
    requires 0 < |acc| <= MAX_SCRIPT_SIZE
    ensures Run(c, env, FRESH, ScriptIn(acc) + ScriptOut(h)) ==
            if AddressOfEle(c, Data(acc)) == Ok(h) && env(Data(acc)) == Ok(true)
            then Ok(Ran(Machine([], [TYPE_IN, TYPE_OUT]), 8)) else Err
  {
    hide RunFrom, AddressOfEle, DataBytes, Fetch;
    assert ScriptIn(acc) + ScriptOut(h) == [OP_TYPE, TYPE_IN] + (DataBytes(acc) + ScriptOut(h));
    SpendIn(c, env, acc, ScriptOut(h));
    var m := Machine([Data(acc)], [TYPE_IN]);
    OutputRuns(c, env, m, h, 2);
    assert Top(m, 1) == Data(acc) && Spent(m) == Machine([], [TYPE_IN, TYPE_OUT]);
    DataSize(acc);
    DataSize(h);
  }

  lemma DataSize(v: Bytes)
    requires |v| <= MAX_SCRIPT_SIZE
    ensures |DataBytes(v)| <= |v| + 3
    ensures v != [] ==> DataBytes(v) != []
  {
  }

  /** Whatever counts as a script, run before a standard output script, succeeds with it exactly if it succeeds by
      itself within the steps left and leaves an account on top that unlocks the output. */
  lemma StandardOutput(c: Suite, env: Env, s: Bytes, h: Hash)
    requires Ops(s).Ok?
    ensures var r := Run(c, env, FRESH, s);
            Run(c, env, FRESH, s + ScriptOut(h)) ==
            if r.Ok? && r.value.steps + 6 <= MAX_SCRIPT_OPS && Unlocks(c, env, r.value.m, h)
            then Ok(Ran(Spent(r.value.m), r.value.steps + 6)) else Err
  {
    hide RunFrom, CountFrom, Unlocks, DataBytes;
    DataSize(h);
    Composition(c, env, FRESH, s, ScriptOut(h));
    var r := Run(c, env, FRESH, s);
    if r.Ok? {
      OutputRuns(c, env, r.value.m, h, 0);
    }
  }

  lemma SpendIn(c: Suite, env: Env, acc: Bytes, t: Bytes)
    requires 0 < |acc| <= MAX_SCRIPT_SIZE && t != []
    ensures RunFrom(c, env, FRESH, [OP_TYPE, TYPE_IN] + (DataBytes(acc) + t), 0) ==
            RunFrom(c, env, Machine([Data(acc)], [TYPE_IN]), t, 2)
  {
    hide RunFrom, DataBytes, Fetch, Apply;
    var s1 := DataBytes(acc) + t;
    DataSize(acc);
    FetchTyp(TYPE_IN, s1);
    TypStep(c, env, FRESH, TYPE_IN);
    StepRun(c, env, FRESH, [OP_TYPE, TYPE_IN] + s1, 0, Typ(TYPE_IN), s1);
    FetchData(acc, t);
    PushStep(c, env, Machine([], [TYPE_IN]), Data(acc));
    StepRun(c, env, Machine([], [TYPE_IN]), s1, 1, Push(Data(acc)), t);
    assert [] + [TYPE_IN] == [TYPE_IN] && [] + [Data(acc)] == [Data(acc)];
  }

  /** A standard output script, after whatever ran before it: it succeeds exactly if one input script was begun, the
      top of the stack is an account that hashes to the address, and the environment accepts that account; it takes
      the account off the stack and leaves the rest. */
  lemma OutputRuns(c: Suite, env: Env, m: Machine, h: Hash, step: nat)
    requires step + 6 <= MAX_SCRIPT_OPS
    ensures RunFrom(c, env, m, ScriptOut(h), step) == if Unlocks(c, env, m, h) then Ok(Ran(Spent(m), step + 6)) else Err
  {
    hide RunFrom, DataBytes, AddressOfEle;
    var s5 := DataBytes(h) + ([OP_EQUAL_VERIFY] + [OP_CHECKSIG_VERIFY]);
    var s4 := [OP_HASHER] + s5;
    var s3 := [OP_VERIFY_INOUT] + s4;
    assert ScriptOut(h) == [OP_TYPE, TYPE_OUT] + s3;
    var n := Machine(m.eles, m.typs + [TYPE_OUT]);
    assert n.typs == [TYPE_IN, TYPE_OUT] <==> m.typs == [TYPE_IN] by {
      assert n.typs[..|m.typs|] == m.typs && [TYPE_IN, TYPE_OUT][..1] == [TYPE_IN];
      assert [TYPE_IN] + [TYPE_OUT] == [TYPE_IN, TYPE_OUT];
    }
    FetchTyp(TYPE_OUT, s3);
    TypStep(c, env, m, TYPE_OUT);
    StepRun(c, env, m, [OP_TYPE, TYPE_OUT] + s3, step, Typ(TYPE_OUT), s3);
    FetchByte(OP_VERIFY_INOUT, s4);
    StepRun(c, env, n, s3, step + 1, Act(OP_VERIFY_INOUT), s4);
    FetchByte(OP_HASHER, s5);
    StepRun(c, env, n, s4, step + 2, Act(OP_HASHER), s5);
    if n.eles != [] && AddressOfEle(c, Top(n, 1)).Ok? {
      OutputEnds(c, env, n, AddressOfEle(c, Top(n, 1)).value, h, step + 3);
    }
  }

  predicate Unlocks(c: Suite, env: Env, m: Machine, h: Hash) {
    && m.typs == [TYPE_IN] && m.eles != []
    && AddressOfEle(c, Top(m, 1)) == Ok(h) && env(Top(m, 1)) == Ok(true)
  }

  function Spent(m: Machine): Machine
    requires m.eles != []
  {
    Machine(Popped(m, 1).eles, m.typs + [TYPE_OUT])
  }

  /** The end of a standard output script, the account's address pushed. */
  lemma OutputEnds(c: Suite, env: Env, m: Machine, a: Hash, h: Hash, step: nat)
    requires m.eles != [] && step + 3 <= MAX_SCRIPT_OPS
    ensures RunFrom(c, env, Pushed(m, Data(a)), DataBytes(h) + ([OP_EQUAL_VERIFY] + [OP_CHECKSIG_VERIFY]), step) ==
            if a == h && env(Top(m, 1)) == Ok(true) then Ok(Ran(Popped(m, 1), step + 3)) else Err
  {
    hide RunFrom, DataBytes;
    var last: Bytes := [OP_CHECKSIG_VERIFY];
    var s6: Bytes := [OP_EQUAL_VERIFY] + last;
    var m1 := Pushed(m, Data(a));
    var m2 := Pushed(m1, Data(h));
    FetchData(h, s6);
    StepRun(c, env, m1, DataBytes(h) + s6, step, Push(Data(h)), s6);
    FetchByte(OP_EQUAL_VERIFY, last);
    assert Popped(m2, 2) == m;
    StepRun(c, env, m2, s6, step + 1, Act(OP_EQUAL_VERIFY), last);
    FetchByte(OP_CHECKSIG_VERIFY, []);
    assert last + [] == last;
    LastRun(c, env, m, last, step + 2, Act(OP_CHECKSIG_VERIFY));
  }

  lemma LastRun(c: Suite, env: Env, m: Machine, s: Bytes, step: nat, i: Instr)
    requires step < MAX_SCRIPT_OPS && Fetch(s) == Ok(Parsed(i, []))
    ensures RunFrom(c, env, m, s, step) ==
            match Apply(c, env, m, i) case Err => Err case Ok(n) => Ok(Ran(n, step + 1))
  {
    hide Fetch, Apply;
  }

  /** The machine. */
  class Exector {
    var eles: seq<Ele>
    var typs: seq<Byte>

    function View(): Machine
      reads this
    {
      Machine(eles, typs)
    }

    constructor ()
      ensures View() == FRESH
    {
      eles, typs := [], [];
    }

    /** `top`: counted from the top for negative `n`, from the bottom (and from 1) for positive. */
    function TopAt(n: int): (e: Ele)
      requires 0 < n <= |eles| || 0 < -n <= |eles|
      reads this
    {
      if n < 0 then eles[|eles| + n] else eles[n - 1]
    }

    method Pop(n: nat) returns (r: Result<()>)
      modifies this`eles
      ensures r.Ok? <==> n <= |old(eles)|
      ensures eles == if r.Ok? then old(eles)[..|old(eles)| - n] else old(eles)
    {
      if |eles| < n {
        return Err;
      }
      eles := eles[..|eles| - n];
      r := Ok(());
    }

    method Exec(c: Suite, env: Env, script: Bytes) returns (r: Result<nat>)
      modifies this
      ensures r.Ok? == Run(c, env, old(View()), script).Ok?
      ensures r.Ok? ==> Ran(View(), r.value) == Run(c, env, old(View()), script).value
    {
      if |script| > MAX_SCRIPT_SIZE * 2 {
        return Err;
      }
      var reader := new Reader(script);
      if |reader.inner| == 0 {
        return Err;
      }
      var step := 0;
      while true
        invariant step <= MAX_SCRIPT_OPS
        invariant RunFrom(c, env, View(), reader.inner, step) == RunFrom(c, env, old(View()), script, 0)
        decreases |reader.inner|
      {
        hide RunFrom, Operand, Apply;
        RunOnce(c, env, View(), reader.inner, step);
        step := step + 1;
        var op :- reader.GetUInt(1);
        var _ :- Step(c, env, reader, op);
        if step > MAX_SCRIPT_OPS {
          return Err;
        }
        if |reader.inner| == 0 {
          break;
        }
      }
      r := Ok(step);
    }

    /** One turn of the loop, the operation byte already read. */
    method Step(c: Suite, env: Env, reader: Reader, op: Byte) returns (r: Result<()>)
      modifies this, reader
      ensures r.Ok? == Stepped(c, env, old(View()), op, old(reader.inner)).Ok?
      ensures r.Ok? ==> Parsed(View(), reader.inner) == Stepped(c, env, old(View()), op, old(reader.inner)).value
    {
      if op == OP_TYPE {
        FirstByte(reader.inner);
        var typ :- reader.GetUInt(1);
        typs := typs + [typ];
      } else if op == OP_TRUE || op == OP_FALSE {
        eles := eles + [Bool(op == OP_TRUE)];
      } else if op <= OP_16 {
        eles := eles + [Number(op)];
      } else if OP_NUMBER_1 <= op <= OP_NUMBER_8 {
        var v :- NumberOf(reader, op);
        eles := eles + [Number(v)];
      } else if OP_DATA_1 <= op <= OP_DATA_4 {
        var d :- BinaryOf(reader, op);
        eles := eles + [Data(d)];
      } else {
        r := Perform(c, env, op);
        return;
      }
      r := Ok(());
    }

    /** The operations that work on the stack. */
    method Perform(c: Suite, env: Env, op: Byte) returns (r: Result<()>)
      modifies this
      ensures r.Ok? == Apply(c, env, old(View()), Act(op)).Ok?
      ensures r.Ok? ==> View() == Apply(c, env, old(View()), Act(op)).value
    {
      r := Ok(());
      if op == OP_VERIFY {
        if |eles| < 1 || !TopAt(-1).Bool? {
          return Err;
        }
        var val := TopAt(-1).b;
        var _ := Pop(1);
        if !val {
          return Err;
        }
      } else if op == OP_HASHER {
        if |eles| < 1 {
          return Err;
        }
        var hv :- AddressOfEle(c, TopAt(-1));
        eles := eles + [Data(hv)];
      } else if op == OP_EQUAL || op == OP_EQUAL_VERIFY {
        if |eles| < 2 {
          return Err;
        }
        var val := TopAt(-1) == TopAt(-2);
        var _ := Pop(2);
        if op == OP_EQUAL_VERIFY {
          if !val {
            return Err;
          }
        } else {
          eles := eles + [Bool(val)];
        }
      } else if op == OP_NOT {
        if |eles| < 1 || !TopAt(-1).Bool? {
          return Err;
        }
        var val := TopAt(-1).b;
        var _ := Pop(1);
        eles := eles + [Bool(!val)];
      } else if op == OP_CHECKSIG || op == OP_CHECKSIG_VERIFY {
        if |eles| < 1 {
          return Err;
        }
        var val :- env(TopAt(-1));
        var _ := Pop(1);
        if op == OP_CHECKSIG_VERIFY {
          if !val {
            return Err;
          }
        } else {
          eles := eles + [Bool(val)];
        }
      } else if op == OP_VERIFY_INOUT {
        if |typs| != 2 || typs != [TYPE_IN, TYPE_OUT] {
          return Err;
        }
      } else {
        return Err;
      }
    }

    static method NumberOf(reader: Reader, op: Byte) returns (r: Result<int>)
      modifies reader
      ensures r.Ok? == ReadNumber(op, old(reader.inner)).Ok?
      ensures r.Ok? ==> Parsed(r.value, reader.inner) == ReadNumber(op, old(reader.inner)).value
    {
      if op == OP_NUMBER_1 {
        r := reader.GetSInt(1);
      } else if op == OP_NUMBER_2 {
        r := reader.GetSInt(2);
      } else if op == OP_NUMBER_4 {
        r := reader.GetSInt(4);
      } else if op == OP_NUMBER_8 {
        r := reader.GetSInt(8);
      } else {
        r := Err;
      }
    }

    static method BinaryOf(reader: Reader, op: Byte) returns (r: Result<Bytes>)
      modifies reader
      ensures r.Ok? == ReadBinary(op, old(reader.inner)).Ok?
      ensures r.Ok? ==> Parsed(r.value, reader.inner) == ReadBinary(op, old(reader.inner)).value
    {
      if op == OP_DATA_1 {
        var l :- reader.GetUInt(1);
        r := reader.GetBytes(l);
      } else if op == OP_DATA_2 {
        var l :- reader.GetUInt(2);
        r := reader.GetBytes(l);
      } else if op == OP_DATA_4 {
        var l :- reader.GetUInt(4);
        r := reader.GetBytes(l);
      } else {
        r := Err;
      }
    }
  }

  function Stepped(c: Suite, env: Env, m: Machine, op: Byte, s: Bytes): Result<Parsed<Machine>> {
    var f :- Operand(op, s);
    var n :- Apply(c, env, m, f.value);
    Ok(Parsed(n, f.rest))
  }

  lemma RunOnce(c: Suite, env: Env, m: Machine, s: Bytes, step: nat)
    ensures s == [] ==> UInt(s, 1).Err? && RunFrom(c, env, m, s, step).Err?
    ensures s != [] ==>
              && UInt(s, 1) == Ok(Parsed(s[0], s[1..]))
              && var n := Stepped(c, env, m, s[0], s[1..]);
                 && (n.Ok? ==> |n.value.rest| < |s|)
                 && RunFrom(c, env, m, s, step) ==
                    if n.Err? || step + 1 > MAX_SCRIPT_OPS then Err
                    else if n.value.rest == [] then Ok(Ran(n.value.value, step + 1))
                    else RunFrom(c, env, n.value.value, n.value.rest, step + 1)
  {
    FirstByte(s);
    hide Operand, Apply, UInt;
    var f := Fetch(s);
  }

  /** The builder: each method appends, and reading never moves it. */
  class Script {
    var bytes: Bytes

    constructor ()
      ensures bytes == []
    {
      bytes := [];
    }

    method Op(op: Byte)
      modifies this
      ensures bytes == old(bytes) + [op]
    {
      bytes := bytes + [op];
    }

    method SetType(typ: Byte)
      modifies this
      ensures bytes == old(bytes) + [OP_TYPE, typ]
    {
      Op(OP_TYPE);
      Op(typ);
    }

    method Concat(other: Bytes)
      modifies this
      ensures bytes == old(bytes) + other
    {
      bytes := bytes + other;
    }

    method Data(v: Bytes)
      modifies this
      ensures bytes == old(bytes) + DataBytes(v)
    {
      hide LE;
      if |v| == 0 {
        return;
      } else if |v| <= 0xFF {
        Op(OP_DATA_1);
        bytes := bytes + LE(|v|, 1);
        Appended(old(bytes), OP_DATA_1, LE(|v|, 1), v);
      } else if |v| <= 0xFFFF {
        Op(OP_DATA_2);
        bytes := bytes + LE(|v|, 2);
        Appended(old(bytes), OP_DATA_2, LE(|v|, 2), v);
      } else if |v| <= 0xFFFF_FFFF {
        Op(OP_DATA_4);
        bytes := bytes + LE(|v|, 4);
        Appended(old(bytes), OP_DATA_4, LE(|v|, 4), v);
      }
      bytes := bytes + v;
    }

    /** `ops`. */
    method CountOps() returns (r: Result<nat>)
      ensures r == Ops(bytes)
    {
      if |bytes| > MAX_SCRIPT_SIZE {
        return Err;
      }
      var reader := new Reader(bytes);
      if |reader.inner| == 0 {
        return Err;
      }
      var ops := 0;
      while true
        invariant ops <= MAX_SCRIPT_OPS
        invariant CountFrom(reader.inner, ops) == CountFrom(bytes, 0)
        decreases |reader.inner|
      {
        hide SkipOp;
        FirstByte(reader.inner);
        ops := ops + 1;
        var op :- reader.GetUInt(1);
        var _ :- Skip(reader, op);
        if ops > MAX_SCRIPT_OPS {
          return Err;
        }
        if |reader.inner| == 0 {
          break;
        }
      }
      r := Ok(ops);
    }

    static method Skip(reader: Reader, op: Byte) returns (r: Result<()>)
      modifies reader
      ensures r.Ok? == SkipOp(op, old(reader.inner)).Ok?
      ensures r.Ok? ==> reader.inner == SkipOp(op, old(reader.inner)).value
    {
      r := Ok(());
      if op == OP_TYPE {
        r := reader.Advance(1);
      } else if OP_NUMBER_1 <= op <= OP_NUMBER_8 {
        r := reader.Advance(PowerOfTwo(op - OP_NUMBER_1));
      } else if OP_DATA_1 <= op <= OP_DATA_4 {
        var n := op - OP_DATA_1 + 1;
        if |reader.inner| < n {
          return Err;
        }
        var l :- reader.GetUInt(if n == 3 then 4 else n);
        r := reader.Advance(l);
      }
    }

    /** `check`. */
    method Check() returns (ok: bool)
      ensures ok <==> Checked(bytes)
    {
      if |bytes| > MAX_SCRIPT_SIZE {
        return false;
      }
      if MaxSize(bytes).Err? || |bytes| == 0 || |bytes| > MaxSize(bytes).value {
        return false;
      }
      var ops := CountOps();
      ok := ops.Ok? && ops.value <= MAX_SCRIPT_OPS;
      CountBound(bytes);
    }
  }

  lemma CountBound(s: Bytes)
    ensures Ops(s).Ok? ==> Ops(s).value <= MAX_SCRIPT_OPS
  {
    if Ops(s).Ok? {
      CountFromBound(s, 0);
    }
  }

  lemma {:induction false} CountFromBound(s: Bytes, ops: nat)
    requires CountFrom(s, ops).Ok?
    ensures CountFrom(s, ops).value <= MAX_SCRIPT_OPS
    decreases |s|
  {
    hide SkipOp;
    var rest := SkipOp(s[0], s[1..]).value;
    if rest != [] {
      CountFromBound(rest, ops + 1);
    }
  }
}
