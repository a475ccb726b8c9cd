/** The parameter stack as its users see it: a sequence of items. The machine keeps the top item in
    tos, and the cell pushed first holds the sentinel FORTH_TOS_INIT. */
module CachedTop {
  import opened Words
  import opened Memory
  import opened Opcodes
  import opened Machine

  /** The bottom cell holds the sentinel. */
  predicate Sealed(k: Stack) {
    k.Item? && if k.rest.Empty? then k.top == TOS_INIT else Sealed(k.rest)
  }

  /** The cells above the bottom one. */
  function Above(k: Stack): seq<nat> {
    if k.Empty? || k.rest.Empty? then [] else [k.top] + Above(k.rest)
  }

  /** Nothing has been popped from an empty stack or pushed to a full one: either stack is empty with
      the sentinel in tos, or the sentinel is at the bottom. */
  predicate Sound(s: State) {
    && s.dn == Height(s.ds) <= STACK_DEPTH && s.rn == Height(s.rs) <= STACK_DEPTH
    && (if s.ds.Empty? then s.tos == TOS_INIT else Sealed(s.ds))
  }

  /** The items on the parameter stack, the top one first. */
  function Items(s: State): seq<nat> {
    if s.ds.Empty? then [] else [s.tos] + Above(s.ds)
  }

  function Cells(k: Stack): seq<nat> {
    match k
    case Empty => []
    case Item(v, r) => [v] + Cells(r)
  }

  lemma {:induction false} AboveLength(k: Stack)
    requires k.Item?
    ensures |Above(k)| == Height(k) - 1
  {
    if k.rest.Item? { AboveLength(k.rest); }
  }

  /** DEPTH counts the items. */
  lemma ItemCount(s: State)
    requires Sound(s)
    ensures |Items(s)| == s.dn
  {
    if s.ds.Item? { AboveLength(s.ds); }
  }

  lemma {:induction false} AboveNth(k: Stack, n: nat)
    requires n + 1 < Height(k)
    ensures |Above(k)| == Height(k) - 1 && Above(k)[n] == Nth(k, n)
  {
    AboveLength(k);
    if n > 0 { AboveNth(k.rest, n - 1); }
  }

  /** The two stacks as plain sequences, tops first. */
  datatype Plain = Plain(p: seq<nat>, r: seq<nat>)

  function View(s: State): Plain {
    Plain(Items(s), Cells(s.rs))
  }

  /** The operations, on sequences. */
  datatype Act = Opcode(op: Op) | Push(v: nat)

  /** How many items an operation takes from the parameter stack, or looks at. */
  function Needs(a: Act, p: seq<nat>): nat {
    match a
    case Push(_) => 0
    case Opcode(op) =>
      match op
      case Drop => 1
      case Dup => 1
      case Swap => 2
      case Nip => 2
      case Over => 2
      case ToR => 1
      case FromR => 0
      case Pick => if p == [] then 1 else p[0] + 2
      case Depth => 0
      case EqChk => 2
      case _ => if Unary(op) then 1 else 2
  }

  /** The opcodes covered here. */
  predicate Covered(op: Op) {
    || op.Drop? || op.Dup? || op.Swap? || op.Nip? || op.Over? || op.ToR? || op.FromR? || op.Pick? || op.Depth?
    || ClassOf(op) == Arith
  }

  /** The operation has its operands and its result fits. */
  predicate Enabled(a: Act, q: Plain) {
    && Needs(a, q.p) <= |q.p|
    && match a
       case Push(_) => |q.p| < STACK_DEPTH
       case Opcode(op) =>
         && Covered(op)
         && (op.Dup? || op.Over? || op.Depth? || op.FromR? ==> |q.p| < STACK_DEPTH)
         && (op.ToR? ==> |q.r| < STACK_DEPTH)
         && (op.FromR? ==> q.r != [])
         && (op.Pick? ==> q.p[0] + 1 < |q.p|)
         && (ClassOf(op) == Arith ==> !Trap(op, q.p[0]))
  }

  /** What Forth says the operation does. */
  function Apply(a: Act, q: Plain): Plain
    requires Enabled(a, q)
  {
    if a.Push? then Plain([a.v] + q.p, q.r)
    else if a.op.Drop? then Plain(q.p[1..], q.r)
    else if a.op.Dup? then Plain([q.p[0]] + q.p, q.r)
    else if a.op.Swap? then Plain([q.p[1], q.p[0]] + q.p[2..], q.r)
    else if a.op.Nip? then Plain([q.p[0]] + q.p[2..], q.r)
    else if a.op.Over? then Plain([q.p[1]] + q.p, q.r)
    else if a.op.ToR? then Plain(q.p[1..], [q.p[0]] + q.r)
    else if a.op.FromR? then Plain([q.r[0]] + q.p, q.r[1..])
    else if a.op.Pick? then Plain([q.p[1 + q.p[0]]] + q.p[1..], q.r)
    else if a.op.Depth? then Plain([|q.p|] + q.p, q.r)
    else if Unary(a.op) then Plain([Result(a.op, 0, q.p[0])] + q.p[1..], q.r)
    else Plain([Result(a.op, q.p[1], q.p[0])] + q.p[2..], q.r)
  }

  /** The same on the machine: an opcode of forth_run, or one of those that push a value. */
  function Perform(a: Act, s: State): State {
    match a
    case Push(v) => Load(s, v)
    case Opcode(op) => ExecData(op, s)
  }

  /** s with other stacks. */
  predicate OnlyStacks(s: State, t: State) {
    t == s.(tos := t.tos, ds := t.ds, dn := t.dn, rs := t.rs, rn := t.rn)
  }

  lemma PopSound(s: State)
    requires Sound(s) && s.ds.Item?
    ensures Sound(PPop(s).(tos := PTop(s))) && Items(PPop(s).(tos := PTop(s))) == Items(s)[1..]
    ensures PPop(s) == s.(ds := s.ds.rest, dn := s.dn - 1) && PTop(s) == s.ds.top
  {
  }

  lemma LoadSound(s: State, v: nat)
    requires Sound(s) && s.dn < STACK_DEPTH
    ensures Sound(Load(s, v)) && Items(Load(s, v)) == [v] + Items(s)
    ensures OnlyStacks(s, Load(s, v)) && Load(s, v).rs == s.rs && Load(s, v).rn == s.rn
  {
  }

  /** Two items: the second is in the top cell, the rest are below. */
  lemma TwoItems(s: State)
    requires Sound(s) && 2 <= |Items(s)|
    ensures s.ds.Item? && s.ds.rest.Item? && s.dn >= 2 && Items(s)[1] == s.ds.top
    ensures Items(s)[2..] == Above(s.ds.rest)
  {
    ItemCount(s);
    assert Items(s) == [s.tos] + ([s.ds.top] + Above(s.ds.rest));
  }

  lemma SimulatesPush(s: State, v: nat)
    requires Sound(s) && Enabled(Push(v), View(s))
    ensures Sound(Load(s, v)) && View(Load(s, v)) == Apply(Push(v), View(s)) && OnlyStacks(s, Load(s, v))
  {
    ItemCount(s);
    LoadSound(s, v);
  }

  lemma SimulatesShuffle(s: State, op: Op)
    requires op.Drop? || op.Dup? || op.Swap? || op.Nip? || op.Over?
    requires Sound(s) && Enabled(Opcode(op), View(s))
    ensures var t := ExecStack(op, s);
      Sound(t) && View(t) == Apply(Opcode(op), View(s)) && OnlyStacks(s, t)
  {
    hide Sealed;
    ItemCount(s);
    if op.Drop? { PopSound(s); }
    else if op.Dup? { LoadSound(s, s.tos); }
    else { TwoItems(s); SealedRest(s.ds); if op.Over? { assert Sealed(Item(s.tos, s.ds)) by { Seals(s.tos, s.ds); } } }
  }

  lemma SealedRest(k: Stack)
    requires Sealed(k) && k.rest.Item?
    ensures Sealed(k.rest) && forall v: nat :: Sealed(Item(v, k.rest))
  {
  }

  lemma Seals(v: nat, k: Stack)
    requires Sealed(k)
    ensures Sealed(Item(v, k))
  {
  }

  lemma {:induction false} CellCount(k: Stack)
    ensures |Cells(k)| == Height(k)
  {
    if k.Item? { CellCount(k.rest); }
  }

  lemma SimulatesTransfer(s: State, op: Op)
    requires op.ToR? || op.FromR?
    requires Sound(s) && Enabled(Opcode(op), View(s))
    ensures var t := ExecStack(op, s);
      Sound(t) && View(t) == Apply(Opcode(op), View(s)) && OnlyStacks(s, t)
  {
    hide Sealed;
    ItemCount(s);
    CellCount(s.rs);
    if op.ToR? {
      PopSound(s);
      var t := ExecStack(op, s);
      assert t == PPop(s).(tos := PTop(s), rs := Item(s.tos, s.rs), rn := s.rn + 1);
      assert Items(t) == Items(PPop(s).(tos := PTop(s)));
    } else {
      LoadSound(s, s.rs.top);
      var t := ExecStack(op, s);
      assert t == Load(s, s.rs.top).(rs := s.rs.rest, rn := s.rn - 1);
      assert Items(t) == Items(Load(s, s.rs.top));
      assert Cells(s.rs)[1..] == Cells(s.rs.rest);
    }
  }

  lemma SimulatesLook(s: State, op: Op)
    requires op.Pick? || op.Depth?
    requires Sound(s) && Enabled(Opcode(op), View(s))
    ensures var t := ExecStack(op, s);
      Sound(t) && View(t) == Apply(Opcode(op), View(s)) && OnlyStacks(s, t)
  {
    ItemCount(s);
    if op.Depth? {
      LoadSound(s, s.dn);
    } else {
      AboveNth(s.ds, s.tos);
      assert ExecStack(op, s) == s.(tos := Nth(s.ds, s.tos));
    }
  }

  lemma SimulatesArith(s: State, op: Op)
    requires ClassOf(op) == Arith
    requires Sound(s) && Enabled(Opcode(op), View(s))
    ensures var t := ExecArith(op, s);
      Sound(t) && View(t) == Apply(Opcode(op), View(s)) && OnlyStacks(s, t)
  {
    hide Sealed, Result, ClassOf, Enabled, Apply, Unary, Trap;
    ArithShape(op, View(s));
    ItemCount(s);
    if !Unary(op) { TwoItems(s); SealedRest(s.ds); }
  }

  lemma ArithShape(op: Op, q: Plain)
    requires ClassOf(op) == Arith && Enabled(Opcode(op), q)
    ensures (if Unary(op) then 1 else 2) <= |q.p| && !Trap(op, q.p[0])
    ensures Apply(Opcode(op), q)
         == if Unary(op) then Plain([Result(op, 0, q.p[0])] + q.p[1..], q.r)
            else Plain([Result(op, q.p[1], q.p[0])] + q.p[2..], q.r)
  {
    hide Result;
  }

  /** Every stack and arithmetic opcode does to the cached stack what it does to a plain sequence. */
  lemma Simulates(s: State, a: Act)
    requires Sound(s) && Enabled(a, View(s))
    ensures Sound(Perform(a, s)) && View(Perform(a, s)) == Apply(a, View(s)) && OnlyStacks(s, Perform(a, s))
  {
    hide ExecStack, ExecArith, ExecMemory, ExecInterp, Sound, View, Apply, OnlyStacks, Load;
    match a {
      case Push(v) => SimulatesPush(s, v);
      case Opcode(op) =>
        if ClassOf(op) == Arith { SimulatesArith(s, op); }
        else if op.ToR? || op.FromR? { SimulatesTransfer(s, op); }
        else if op.Pick? || op.Depth? { SimulatesLook(s, op); }
        else { SimulatesShuffle(s, op); }
    }
  }

  predicate AllEnabled(acts: seq<Act>, q: Plain)
    decreases |acts|
  {
    acts == [] || (Enabled(acts[0], q) && AllEnabled(acts[1..], Apply(acts[0], q)))
  }

  function ApplyAll(acts: seq<Act>, q: Plain): Plain
    requires AllEnabled(acts, q)
    decreases |acts|
  {
    if acts == [] then q else ApplyAll(acts[1..], Apply(acts[0], q))
  }

  function PerformAll(acts: seq<Act>, s: State): State
    decreases |acts|
  {
    if acts == [] then s else PerformAll(acts[1..], Perform(acts[0], s))
  }

  /** So does every straight-line program. */
  lemma {:induction false} SimulatesAll(s: State, acts: seq<Act>)
    requires Sound(s) && AllEnabled(acts, View(s))
    ensures Sound(PerformAll(acts, s)) && View(PerformAll(acts, s)) == ApplyAll(acts, View(s))
    ensures OnlyStacks(s, PerformAll(acts, s))
    decreases |acts|
  {
    hide Sound, View, Enabled, Apply, Perform;
    if acts != [] {
      Simulates(s, acts[0]);
      SimulatesAll(Perform(acts[0], s), acts[1..]);
    }
  }

  /** PZCHK lets the machine go on exactly on the empty stack. */
  lemma PzChkPasses(s: State)
    requires Sound(s)
    ensures ExecStack(PzChk, s) == if Items(s) == [] then s else s.(pc := Halt)
  {
    ItemCount(s);
  }

  /** HALT stops the machine, and NOOP does nothing. */
  lemma Halts(h: Header, s: State)
    ensures h.op == HaltOp ==> ExecOp(h, s) == s.(pc := Halt) && Step(ExecOp(h, s)) == ExecOp(h, s)
    ensures h.op == Noop ==> ExecOp(h, s) == s
  {
    hide ExecArith, ExecMemory, ExecInterp;
  }

  /** =CHK takes two equal items, and stops the machine on two different ones. */
  lemma EqChkCompares(s: State)
    requires Sound(s) && |Items(s)| >= 2
    ensures var t := ExecStack(EqChk, s);
      if Items(s)[0] == Items(s)[1] then Sound(t) && Items(t) == Items(s)[2..] && OnlyStacks(s, t) && t.rs == s.rs
      else t.pc == Halt
  {
    ItemCount(s);
    TwoItems(s);
    var t := PPop(s).(tos := PTop(s));
    PopSound(s);
    PopSound(t);
  }

  /** DELAYUS takes the delay from the stack and waits for the timer; once that has fired, the machine goes on, with
      everything else as it was. */
  lemma Delays(s: State)
    requires Sound(s) && Items(s) != []
    ensures var t := ExecData(DelayUs, s);
      && Sound(t) && Items(t) == Items(s)[1..] && Cells(t.rs) == Cells(s.rs)
      && t.pc == WaitDelay && t.env == s.env.(done := false) && Step(t) == t
      && Step(t.(env := t.env.(done := true))) == t.(pc := Next)
  {
    hide ExecStack, ExecArith, ExecInterp, ExecLoad, ExecStore, ExecPush, Sealed;
    PopSound(s);
    var t := ExecData(DelayUs, s);
    assert Items(t) == Items(PPop(s).(tos := PTop(s)));
  }

  /** EARLY-WEMIT puts out the character on the stack. */
  lemma Emits(s: State)
    requires Sound(s) && Items(s) != []
    ensures var t := ExecData(EarlyWEmit, s);
      && Sound(t) && Items(t) == Items(s)[1..] && Cells(t.rs) == Cells(s.rs)
      && t.pc == s.pc && t.env == s.env.(out := s.env.out + [Items(s)[0] % 0x1_0000])
  {
    hide ExecStack, ExecArith, ExecInterp, ExecLoad, ExecStore, ExecPush, Sealed;
    PopSound(s);
    var t := ExecData(EarlyWEmit, s);
    assert Items(t) == Items(PPop(s).(tos := PTop(s)));
  }

  /** EARLY-WKEY waits for a key and pushes it. */
  lemma Keys(s: State)
    requires Sound(s) && s.dn < STACK_DEPTH
    ensures var t := ExecData(EarlyWKey, s);
      && t == s.(pc := WaitKey)
      && if s.env.keys == [] then Step(t) == t
         else var u := Step(t);
           && Sound(u) && Items(u) == [s.env.keys[0]] + Items(s) && Cells(u.rs) == Cells(s.rs)
           && u.pc == Next && u.env == s.env.(keys := s.env.keys[1..])
  {
    hide ExecStack, ExecArith, ExecInterp, ExecLoad, ExecStore, ExecPush, Sealed, Load;
    if s.env.keys != [] { LoadSound(s.(pc := Next, env := s.env.(keys := s.env.keys[1..])), s.env.keys[0]); }
  }

  /** A program that takes the stack back to empty restores the sentinel. */
  lemma BackToEmpty(s: State, acts: seq<Act>)
    requires Sound(s) && AllEnabled(acts, View(s)) && ApplyAll(acts, View(s)).p == []
    ensures PerformAll(acts, s).tos == 0xDEADBEEF && PerformAll(acts, s).dn == 0
    ensures ExecStack(PzChk, PerformAll(acts, s)) == PerformAll(acts, s)
  {
    SimulatesAll(s, acts);
    ItemCount(PerformAll(acts, s));
    PzChkPasses(PerformAll(acts, s));
  }

  // Underflow.

  /** The cells an opcode pops. The top item is cached, so this is one less than it takes. */
  function Pops(op: Op): nat {
    match op
    case Drop => 1
    case Swap => 1
    case Nip => 1
    case Over => 1
    case ToR => 1
    case EqChk => 2
    case _ => if ClassOf(op) == Arith && !Unary(op) then 1 else 0
  }

  predicate Popping(op: Op) {
    op.Drop? || op.Dup? || op.Swap? || op.Nip? || op.Over? || op.ToR? || op.Depth? || ClassOf(op) == Arith
  }

  /** What is noticed of an underflow: the stack-error flag goes up exactly if the opcode pops more
      cells than there are items. */
  lemma Noticed(s: State, op: Op)
    requires Sound(s) && !s.pser && Popping(op) && !ExecData(op, s).pc.Fault? && s.pc == Next
    ensures ExecData(op, s).pser <==> |Items(s)| < Pops(op)
  {
    hide ExecStack, ExecArith, ExecMemory, ExecInterp, Sound, Items, Pops;
    if ClassOf(op) == Arith { NoticedArith(s, op); } else { NoticedStack(s, op); }
  }

  lemma NoticedArith(s: State, op: Op)
    requires Sound(s) && !s.pser && ClassOf(op) == Arith && s.pc == Next && !ExecArith(op, s).pc.Fault?
    ensures ExecArith(op, s).pser <==> |Items(s)| < Pops(op)
  {
    hide Sealed, Result, Trap, Unary;
    ItemCount(s);
    ArithPops(op);
  }

  lemma ArithPops(op: Op)
    requires ClassOf(op) == Arith
    ensures Pops(op) == if Unary(op) then 0 else 1
  {
  }

  lemma NoticedStack(s: State, op: Op)
    requires Sound(s) && !s.pser && Popping(op) && ClassOf(op) != Arith && s.pc == Next && !ExecStack(op, s).pc.Fault?
    ensures ExecStack(op, s).pser <==> |Items(s)| < Pops(op)
  {
    ItemCount(s);
    assert op.Drop? || op.Dup? || op.Swap? || op.Nip? || op.Over? || op.ToR? || op.Depth?;
    assert Pops(op) == if op.Dup? || op.Depth? then 0 else 1;
    hide Sealed, ClassOf, Popping, Pops, Items;
  }

  /** PICK with a negative number, or with one above the size of the stack, leaves the bad pattern and raises the
      flag. */
  lemma PickNoticed(s: State)
    requires 128 < s.tos < TWO64
    ensures ExecData(Pick, s) == s.(tos := 0xA50FDEAD, pser := true)
  {
    hide Nth, Height;
  }

  /** So taking one item too many is not noticed: with a single item x on the stack, SWAP and + go
      through without an error, and work on the sentinel. */
  lemma Unnoticed(s: State, x: nat)
    requires Sound(s) && s.pc == Next && !s.pser && Items(s) == [x]
    ensures ExecData(Swap, s) == s.(tos := TOS_INIT, ds := Item(x, Empty))
    ensures ExecData(Plus, s) == s.(tos := Wrap(TOS_INIT + x), ds := Empty, dn := 0)
    ensures 0 < x < TWO64 ==> !Sound(ExecData(Plus, s))
  {
    hide ExecMemory, ExecInterp;
    ItemCount(s);
    assert s.tos == Items(s)[0] == x && |Above(s.ds)| == 0;
    assert s.ds == Item(TOS_INIT, Empty);
  }
}
