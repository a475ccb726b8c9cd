/** Opcodes and stack words that touch only the data stack, with their effects: what may be typed in
    a session. */
module Vocabulary {
  import opened Words
  import opened Memory
  import opened Opcodes
  import opened Machine
  import opened Library
  import opened Stepping
  import opened StackWords
  import opened Sessions

  /** The data stacks on which the opcode finds its operands and room. */
  predicate Accepts(op: Op, d: Data) {
    match op
    case Drop | Nip => d.dn > 0 && d.ds.Item?
    case Dup | Depth => d.dn < STACK_DEPTH
    case Swap => 0 < d.dn <= STACK_DEPTH && d.ds.Item?
    case Over => 0 < d.dn < STACK_DEPTH && d.ds.Item?
    case Pick => d.tos <= STACK_DEPTH && d.tos < Height(d.ds)
    case _ => Unary(op) || (Binary(op, d.tos) && d.dn > 0 && d.ds.Item?)
  }

  function Applied(op: Op, d: Data): Data
    requires Accepts(op, d)
  {
    if op.Drop? then Data(d.ds.top, d.ds.rest, d.dn - 1)
    else if op.Nip? then Data(d.tos, d.ds.rest, d.dn - 1)
    else if op.Dup? then Data(d.tos, Item(d.tos, d.ds), d.dn + 1)
    else if op.Depth? then Data(d.dn, Item(d.tos, d.ds), d.dn + 1)
    else if op.Swap? then Data(d.ds.top, Item(d.tos, d.ds.rest), d.dn)
    else if op.Over? then Data(d.ds.top, Item(d.tos, d.ds), d.dn + 1)
    else if op.Pick? then Data(Nth(d.ds, d.tos), d.ds, d.dn)
    else if Unary(op) then Data(Result(op, 0, d.tos), d.ds, d.dn)
    else Data(Result(op, d.ds.top, d.tos), d.ds.rest, d.dn - 1)
  }

  function AppliedOr(op: Op, d: Data): Data {
    if Accepts(op, d) then Applied(op, d) else d
  }

  lemma Applies(h: Header, s: State)
    requires Accepts(h.op, DataOf(s))
    ensures ExecOp(h, s) == WithData(s, Applied(h.op, DataOf(s)))
  {
    hide ExecOp, Result, Height, Nth;
    if h.op.Nip? || h.op.Depth? || h.op.Pick? {
      AppliesStack(h, s);
    } else if h.op.Drop? || h.op.Dup? || h.op.Swap? || h.op.Over? {
      ShuffleExec(h, s);
    } else if Unary(h.op) {
      UnaryExec(h, s);
    } else {
      BinaryExec(h, s);
    }
  }

  lemma AppliesStack(h: Header, s: State)
    requires (h.op.Nip? || h.op.Depth? || h.op.Pick?) && Accepts(h.op, DataOf(s))
    ensures ExecOp(h, s) == WithData(s, Applied(h.op, DataOf(s)))
  {
    hide ExecControl, ExecArith, ExecMemory, ExecInterp, Height, Nth;
    var t := s.(ip := 0);
    assert ExecData(h.op, t) == ExecStack(h.op, t);
  }

  /** Every such opcode may be typed in a session. */
  lemma OpcodeActs(m: Mem, L: Lib, op: Op)
    requires !op.Other?
    ensures DataWord(m, L, L.at(P(op)), 0, d => Accepts(op, d), d => AppliedOr(op, d))
  {
    hide Reaches, Image, Extends, ExecOp, Accepts, Applied, Unary, Loaded;
    var xt := L.at(P(op));
    forall s: State | ActsOn(s, m, L, xt, 0, d => Accepts(op, d))
      ensures Reaches(s, WithData(s, AppliedOr(op, DataOf(s))).(pc := Next))
    {
      OpcodeRuns(s, L, op);
    }
  }

  lemma OpcodeRuns(s: State, L: Lib, op: Op)
    requires Image(s.env.mem, L) && s.pc == Exec(L.at(P(op))) && !op.Other? && Accepts(op, DataOf(s))
    ensures Reaches(s, WithData(s, Applied(op, DataOf(s))).(pc := Next))
  {
    hide Reaches, Image, ExecOp, Accepts, Applied, Step, Run;
    Stepping.Known(s.env.mem, L, P(op));
    ReachesSelf(s);
    var t := ExecWord(s, s);
    Applies(s.env.mem[L.at(P(op))].h, s.(pc := Next));
  }

  predicate HasRoom(d: Data) {
    d.dn < STACK_DEPTH
  }

  function With(v: nat, d: Data): Data {
    Data(v, Item(d.tos, d.ds), d.dn + 1)
  }

  /** So may every word made by CONSTANT, such as the digits $0 to $F. */
  lemma ConstantActs(m: Mem, L: Lib, xt: Addr, v: nat)
    requires HasWord(m, xt) && m[xt].h.op == DoConst && HasCell(m, m[xt].h.body, v)
    ensures DataWord(m, L, xt, 0, HasRoom, d => With(v, d))
  {
    hide Reaches, Image;
    forall s: State | ActsOn(s, m, L, xt, 0, HasRoom)
      ensures Reaches(s, WithData(s, With(v, DataOf(s))).(pc := Next))
    {
      ReachesSelf(s);
      var t := ExecWord(s, s);
    }
  }

  /** What was a data word stays one while the dictionary grows. */
  lemma StillActs(m: Mem, n: Mem, L: Lib, xt: Addr, deep: nat, ok: Data -> bool, eff: Data -> Data)
    requires DataWord(m, L, xt, deep, ok, eff) && Extends(m, n)
    ensures DataWord(n, L, xt, deep, ok, eff)
  {
    hide Reaches, Image;
    forall s: State | ActsOn(s, n, L, xt, deep, ok)
      ensures Reaches(s, WithData(s, eff(DataOf(s))).(pc := Next))
    {
      assert ActsOn(s, m, L, xt, deep, ok);
    }
  }

  predicate Three(d: Data) {
    2 <= d.dn <= STACK_DEPTH && d.ds.Item? && d.ds.rest.Item?
  }

  /** ( a b c -- b c a ) */
  function Rotated(d: Data): Data {
    if Three(d) then Data(d.ds.rest.top, Item(d.tos, Item(d.ds.top, d.ds.rest.rest)), d.dn) else d
  }

  /** So may a threaded word: ROT. */
  lemma RotActs(m: Mem, L: Lib)
    ensures DataWord(m, L, L.at(D(ROT)), 2, Three, Rotated)
  {
    hide Reaches, Image, Extends;
    forall s: State | ActsOn(s, m, L, L.at(D(ROT)), 2, Three)
      ensures Reaches(s, WithData(s, Rotated(DataOf(s))).(pc := Next))
    {
      Rot(s, L, s.ds.top, s.ds.rest.top, s.ds.rest.rest);
    }
  }
}
