/** One-instruction rules for running the threaded code of the library. */
module Stepping {
  import opened Words
  import opened Memory
  import opened Opcodes
  import opened Machine
  import opened Library

  lemma Known(m: Mem, L: Lib, n: Name)
    requires Image(m, L) && !(n.P? && n.op.Other?)
    ensures Loaded(m, L, n)
  {
  }

  lemma CodeCell(m: Mem, L: Lib, d: Def, i: nat)
    requires Loaded(m, L, D(d)) && i < CodeLen(d)
    ensures HasCell(m, BodyOf(m, L, d) + 8 * i, CellOf(L, BodyOf(m, L, d), Code(d, i)))
  {
  }

  lemma FetchCell(s0: State, s: State, w: Addr) returns (t: State)
    requires Reaches(s0, s) && s.pc == Next && HasCell(s.env.mem, s.ip, w)
    ensures Reaches(s0, t) && t == s.(ip := s.ip + 8, pc := Exec(w))
  {
    t := Step(s);
    ReachesStep(s0, s);
  }

  lemma ExecWord(s0: State, s: State) returns (t: State)
    requires Reaches(s0, s) && s.pc.Exec? && HasWord(s.env.mem, s.pc.w)
    ensures Reaches(s0, t) && t == ExecOp(s.env.mem[s.pc.w].h, s.(pc := Next))
  {
    t := Step(s);
    ReachesStep(s0, s);
  }

  /** A control opcode w fetched at ip. */
  lemma ExecCtl(s0: State, s: State, w: Addr) returns (t: State)
    requires Reaches(s0, s) && s.pc == Next && HasCell(s.env.mem, s.ip, w)
    requires HasWord(s.env.mem, w) && ClassOf(s.env.mem[w].h.op) == Control
    ensures Reaches(s0, t)
    ensures t == ExecControl(s.env.mem[w].h.op, s.env.mem[w].h, s.(ip := s.ip + 8))
  {
    hide Reaches;
    var u := FetchCell(s0, s, w);
    t := ExecWord(s0, u);
  }

  /** LIT w at ip with v behind it. */
  lemma ExecLit(s0: State, s: State, w: Addr, v: nat) returns (t: State)
    requires Reaches(s0, s) && s.pc == Next && HasCell(s.env.mem, s.ip, w) && HasCell(s.env.mem, s.ip + 8, v)
    requires HasWord(s.env.mem, w) && s.env.mem[w].h.op == Lit && s.dn < STACK_DEPTH
    ensures Reaches(s0, t) && t == s.(ip := s.ip + 16, ds := Item(s.tos, s.ds), dn := s.dn + 1, tos := v)
  {
    hide Reaches;
    t := ExecCtl(s0, s, w);
  }

  /** BRANCH w at ip with v behind it. */
  lemma ExecBranch(s0: State, s: State, w: Addr, v: nat) returns (t: State)
    requires Reaches(s0, s) && s.pc == Next && HasCell(s.env.mem, s.ip, w) && HasCell(s.env.mem, s.ip + 8, v)
    requires HasWord(s.env.mem, w) && s.env.mem[w].h.op == Branch
    ensures Reaches(s0, t) && t == s.(ip := v)
  {
    hide Reaches;
    t := ExecCtl(s0, s, w);
  }

  /** ZBRANCH w at ip with v behind it. */
  lemma ExecZBranch(s0: State, s: State, w: Addr, v: nat) returns (t: State)
    requires Reaches(s0, s) && s.pc == Next && HasCell(s.env.mem, s.ip, w) && HasCell(s.env.mem, s.ip + 8, v)
    requires HasWord(s.env.mem, w) && s.env.mem[w].h.op == ZBranch && s.ds.Item? && s.dn > 0
    ensures Reaches(s0, t)
    ensures t == s.(ip := if s.tos == 0 then v else s.ip + 16, ds := s.ds.rest, dn := s.dn - 1, tos := s.ds.top)
  {
    hide Reaches;
    t := ExecCtl(s0, s, w);
  }

  /** Fetch cell i of d, which names the word n. */
  lemma Fetch(s0: State, s: State, L: Lib, d: Def, i: nat, n: Name) returns (t: State)
    requires Reaches(s0, s) && At(s, L, d, i)
    requires i < CodeLen(d) && Code(d, i) == W(n)
    ensures Reaches(s0, t) && t == s.(ip := s.ip + 8, pc := Exec(L.at(n)))
  {
    hide Reaches, Code, CodeLen, Image;
    CodeCell(s.env.mem, L, d, i);
    t := FetchCell(s0, s, L.at(n));
  }

  /** Fetch and execute the opcode word at cell i of d. */
  lemma Prim(s0: State, s: State, L: Lib, d: Def, i: nat, op: Op) returns (t: State, h: Header)
    requires Reaches(s0, s) && At(s, L, d, i)
    requires i < CodeLen(d) && Code(d, i) == W(P(op)) && !op.Other?
    ensures h.op == op
    ensures Reaches(s0, t) && t == ExecOp(h, s.(ip := s.ip + 8))
  {
    hide Reaches, Code, CodeLen, Image;
    Known(s.env.mem, L, P(op));
    var u := Fetch(s0, s, L, d, i, P(op));
    t := ExecWord(s0, u);
    h := s.env.mem[L.at(P(op))].h;
  }

  /** There are n cells to pop below tos. */
  predicate Has(s: State, n: nat) {
    && s.dn >= n
    && (n > 0 ==> s.ds.Item?)
    && (n > 1 ==> s.ds.rest.Item?)
  }

  /** The stack opcodes, where the stacks neither run out nor over. */
  predicate Fits(op: Op, s: State) {
    match op
    case Drop => Has(s, 1)
    case Dup => s.dn < STACK_DEPTH
    case Swap => Has(s, 1) && s.dn <= STACK_DEPTH
    case Over => Has(s, 1) && s.dn < STACK_DEPTH
    case ToR => Has(s, 1) && s.rn < STACK_DEPTH
    case FromR => s.dn < STACK_DEPTH && s.rn > 0 && s.rs.Item?
    case _ => false
  }

  function Shuffle(op: Op, s: State): State
    requires Fits(op, s)
  {
    match op
    case Drop => s.(tos := s.ds.top, ds := s.ds.rest, dn := s.dn - 1)
    case Dup => s.(ds := Item(s.tos, s.ds), dn := s.dn + 1)
    case Swap => s.(tos := s.ds.top, ds := Item(s.tos, s.ds.rest))
    case Over => s.(tos := s.ds.top, ds := Item(s.tos, s.ds), dn := s.dn + 1)
    case ToR => s.(tos := s.ds.top, ds := s.ds.rest, dn := s.dn - 1, rs := Item(s.tos, s.rs), rn := s.rn + 1)
    case FromR => s.(tos := s.rs.top, ds := Item(s.tos, s.ds), dn := s.dn + 1, rs := s.rs.rest, rn := s.rn - 1)
  }

  lemma ShuffleExec(h: Header, s: State)
    requires Fits(h.op, s)
    ensures ExecOp(h, s) == Shuffle(h.op, s)
  {
    hide ExecControl, ExecArith, ExecMemory, ExecInterp;
    var t := s.(ip := 0);
    assert ExecData(h.op, t) == ExecStack(h.op, t);
    assert ExecStack(h.op, t) == Shuffle(h.op, t);
  }

  lemma Stk(s0: State, s: State, L: Lib, d: Def, i: nat, op: Op) returns (t: State)
    requires Reaches(s0, s) && At(s, L, d, i)
    requires i < CodeLen(d) && Code(d, i) == W(P(op)) && !op.Other? && Fits(op, s.(ip := s.ip + 8))
    ensures Reaches(s0, t) && t == Shuffle(op, s.(ip := s.ip + 8))
  {
    hide Reaches, Code, CodeLen, Image, ExecOp, ClassOf, Fits, Shuffle;
    var h;
    t, h := Prim(s0, s, L, d, i, op);
    ShuffleExec(h, s.(ip := s.ip + 8));
  }

  // What the operators come to on the operands the library gives them.

  lemma Sum(x: nat, y: nat)
    ensures Result(Plus, x, y) == Wrap(x + y) && (x + y < TWO64 ==> Result(Plus, x, y) == x + y)
  {
  }

  lemma Increment(y: nat)
    requires y + 1 < TWO64
    ensures Result(OnePlus, 0, y) == y + 1
  {
  }

  lemma Decrement(y: nat)
    requires 0 < y < TWO64
    ensures Result(OneMinus, 0, y) == y - 1
  {
  }

  lemma Twice(y: nat)
    requires 2 * y < TWO64
    ensures Result(TwoMulti, 0, y) == 2 * y
  {
  }

  lemma Product(x: nat, y: nat)
    requires x * y < TWO64
    ensures Result(Multi, x, y) == x * y
  {
  }

  lemma Shifted(x: nat, y: nat)
    requires y < 64
    ensures Result(RShift, x, y) == x / Pow2(y)
  {
  }

  lemma Remainder(x: nat, y: nat)
    requires y > 0
    ensures Result(Mod, x, y) == x % y
  {
  }

  lemma Same(x: nat, y: nat)
    ensures Result(Eq, x, y) == Flag(x == y)
  {
  }

  lemma Either(x: bool, y: bool)
    requires !(x && y)
    ensures Result(OrOp, Flag(x), Flag(y)) == Flag(x || y)
  {
    assert Or(0, Flag(y)) == Flag(y) && Or(Flag(x), 0) == Flag(x);
  }

  lemma IsZero(y: nat)
    ensures Result(EqZ, 0, y) == Flag(y == 0)
    ensures Result(NeZ, 0, y) == Flag(y != 0)
  {
  }

  /** An operator that takes two operands, applied where it does not trap. */
  predicate Binary(op: Op, y: nat) {
    || op.Plus? || op.Minus? || op.Multi? || op.AndOp? || op.OrOp? || op.XorOp?
    || op.Eq? || op.Ne? || op.Lt? || op.Gt? || op.ULt? || op.UGt?
    || (op.Divid? && y != 0) || (op.Mod? && y != 0) || (op.LShift? && y < 64) || (op.RShift? && y < 64)
  }

  lemma BinaryExec(h: Header, s: State)
    requires Binary(h.op, s.tos) && Has(s, 1)
    ensures ExecOp(h, s) == s.(tos := Result(h.op, s.ds.top, s.tos), ds := s.ds.rest, dn := s.dn - 1)
  {
    hide Result, ExecControl, ExecStack, ExecMemory, ExecInterp;
    assert ClassOf(h.op) == Arith;
  }

  lemma UnaryExec(h: Header, s: State)
    requires Unary(h.op)
    ensures ExecOp(h, s) == s.(tos := Result(h.op, 0, s.tos))
  {
    hide Result, ExecControl, ExecStack, ExecMemory, ExecInterp;
    assert ClassOf(h.op) == Arith;
  }

  lemma Ari(s0: State, s: State, L: Lib, d: Def, i: nat, op: Op) returns (t: State)
    requires Reaches(s0, s) && At(s, L, d, i)
    requires i < CodeLen(d) && Code(d, i) == W(P(op)) && Binary(op, s.tos) && Has(s, 1)
    ensures Reaches(s0, t)
    ensures t == s.(ip := s.ip + 8, tos := Result(op, s.ds.top, s.tos), ds := s.ds.rest, dn := s.dn - 1)
  {
    hide Reaches, Code, CodeLen, Image, Result, ExecOp, ClassOf;
    var h;
    t, h := Prim(s0, s, L, d, i, op);
    BinaryExec(h, s.(ip := s.ip + 8));
  }

  lemma Una(s0: State, s: State, L: Lib, d: Def, i: nat, op: Op) returns (t: State)
    requires Reaches(s0, s) && At(s, L, d, i)
    requires i < CodeLen(d) && Code(d, i) == W(P(op)) && Unary(op)
    ensures Reaches(s0, t)
    ensures t == s.(ip := s.ip + 8, tos := Result(op, 0, s.tos))
  {
    hide Reaches, Code, CodeLen, Image, Result, ExecOp, ClassOf;
    var h;
    t, h := Prim(s0, s, L, d, i, op);
    UnaryExec(h, s.(ip := s.ip + 8));
  }

  lemma Modelled(op: Op)
    requires ClassOf(op) != Unmodelled
    ensures !op.Other?
  {
  }

  lemma DataExec(h: Header, s: State)
    ensures ClassOf(h.op) == Mems ==> ExecOp(h, s) == ExecMemory(h.op, s.(ip := 0)).(ip := s.ip)
    ensures ClassOf(h.op) == Interp ==> ExecOp(h, s) == ExecInterp(h.op, s.(ip := 0)).(ip := s.ip)
  {
    hide ClassOf, ExecMemory, ExecInterp;
  }

  lemma Mm(s0: State, s: State, L: Lib, d: Def, i: nat, op: Op) returns (t: State)
    requires Reaches(s0, s) && At(s, L, d, i)
    requires i < CodeLen(d) && Code(d, i) == W(P(op)) && ClassOf(op) == Mems
    ensures Reaches(s0, t) && t == ExecMemory(op, s.(ip := 0)).(ip := s.ip + 8)
  {
    hide Reaches, Code, CodeLen, Image, ExecOp, ExecMemory, ClassOf;
    Modelled(op);
    var h;
    t, h := Prim(s0, s, L, d, i, op);
    DataExec(h, s.(ip := s.ip + 8));
  }

  lemma XLoadExec(s: State)
    requires Peek(s.env, s.tos).Value?
    ensures ExecMemory(XLoad, s) == s.(tos := Peek(s.env, s.tos).v)
  {
  }

  lemma XStoreExec(s: State)
    requires Has(s, 2) && (IsVariable(s.tos) || RAM <= s.tos)
    ensures ExecMemory(XStore, s)
         == s.(tos := s.ds.rest.top, ds := s.ds.rest.rest, dn := s.dn - 2, env := Poke(s.env, s.tos, s.ds.top))
  {
    hide Poke, IsVariable;
  }

  /** X@ at cell i. */
  lemma Fetch8(s0: State, s: State, L: Lib, d: Def, i: nat) returns (t: State)
    requires Reaches(s0, s) && At(s, L, d, i)
    requires i < CodeLen(d) && Code(d, i) == W(P(XLoad)) && Peek(s.env, s.tos).Value?
    ensures Reaches(s0, t) && t == s.(ip := s.ip + 8, tos := Peek(s.env, s.tos).v)
  {
    hide Reaches, Code, CodeLen, Image, ExecMemory;
    t := Mm(s0, s, L, d, i, XLoad);
    XLoadExec(s.(ip := 0));
  }

  /** X! at cell i. */
  lemma Store8(s0: State, s: State, L: Lib, d: Def, i: nat) returns (t: State)
    requires Reaches(s0, s) && At(s, L, d, i) && Has(s, 2)
    requires i < CodeLen(d) && Code(d, i) == W(P(XStore))
    requires IsVariable(s.tos) || RAM <= s.tos
    ensures Reaches(s0, t)
    ensures t == s.(ip := s.ip + 8, tos := s.ds.rest.top, ds := s.ds.rest.rest, dn := s.dn - 2,
                    env := Poke(s.env, s.tos, s.ds.top))
  {
    hide Reaches, Code, CodeLen, Image, ExecMemory, Poke, IsVariable;
    t := Mm(s0, s, L, d, i, XStore);
    XStoreExec(s.(ip := 0));
  }

  /** Opcodes that push one value. */
  predicate Pushes(op: Op) {
    || op.DpVar? || op.StaLoad? || op.UserWEmit? || op.UserWKey? || op.UserDot?
    || op.CompSta? || op.Wib? || op.Win? || op.Depth?
  }

  lemma PushExec(h: Header, s: State)
    requires Pushes(h.op) && s.dn < STACK_DEPTH
    ensures ExecOp(h, s) == s.(tos := PushedBy(h.op, s), ds := Item(s.tos, s.ds), dn := s.dn + 1)
  {
    hide ExecControl, ExecArith;
    assert ClassOf(h.op) ==
      if h.op.Depth? then Stacks else if h.op.CompSta? || h.op.Wib? || h.op.Win? then Interp else Mems;
  }

  /** An opcode that pushes a value, at cell i. */
  lemma Psh(s0: State, s: State, L: Lib, d: Def, i: nat, op: Op) returns (t: State)
    requires Reaches(s0, s) && At(s, L, d, i) && s.dn < STACK_DEPTH
    requires i < CodeLen(d) && Code(d, i) == W(P(op)) && !op.Other? && Pushes(op)
    ensures Reaches(s0, t)
    ensures t == s.(ip := s.ip + 8, tos := PushedBy(op, s), ds := Item(s.tos, s.ds), dn := s.dn + 1)
  {
    hide Reaches, Code, CodeLen, Image, ExecOp, Pushes;
    var h;
    t, h := Prim(s0, s, L, d, i, op);
    PushExec(h, s.(ip := s.ip + 8));
  }

  /** WIN X@ at cell i. */
  lemma GetWin(s0: State, s: State, L: Lib, d: Def, i: nat) returns (t: State)
    requires Reaches(s0, s) && At(s, L, d, i) && s.dn < STACK_DEPTH
    requires i + 1 < CodeLen(d) && Code(d, i) == W(P(Win)) && Code(d, i + 1) == W(P(XLoad))
    ensures Reaches(s0, t) && t == s.(ip := s.ip + 16, tos := s.env.win, ds := Item(s.tos, s.ds), dn := s.dn + 1)
  {
    hide Reaches, Code, CodeLen, Image, Loaded;
    var u := Psh(s0, s, L, d, i, Win);
    t := Fetch8(s0, u, L, d, i + 1);
  }

  /** WIN X! at cell i. */
  lemma PutWin(s0: State, s: State, L: Lib, d: Def, i: nat) returns (t: State)
    requires Reaches(s0, s) && At(s, L, d, i) && s.dn < STACK_DEPTH && Has(s, 1)
    requires i + 1 < CodeLen(d) && Code(d, i) == W(P(Win)) && Code(d, i + 1) == W(P(XStore))
    ensures Reaches(s0, t)
    ensures t == s.(ip := s.ip + 16, tos := s.ds.top, ds := s.ds.rest, dn := s.dn - 1, env := s.env.(win := s.tos))
  {
    hide Reaches, Code, CodeLen, Image, Loaded;
    var u := Psh(s0, s, L, d, i, Win);
    t := Store8(s0, u, L, d, i + 1);
  }

  lemma WLoadExec(s: State)
    requires s.tos in s.env.mem && s.env.mem[s.tos].Wide?
    ensures ExecMemory(WLoad, s) == s.(tos := s.env.mem[s.tos].c)
  {
  }

  lemma WStoreExec(s: State)
    requires Has(s, 2) && s.ds.top < 0x1_0000 && CanWrite(s.env, s.tos, Wide(s.ds.top))
    ensures ExecMemory(WStore, s)
         == s.(tos := s.ds.rest.top, ds := s.ds.rest.rest, dn := s.dn - 2,
               env := s.env.(mem := s.env.mem[s.tos := Wide(s.ds.top)]))
  {
    hide CanWrite, StoreChunk;
    ChunkFits(PPop(s), s.tos, Wide(s.ds.top));
  }

  /** W@ at cell i. */
  lemma Fetch2(s0: State, s: State, L: Lib, d: Def, i: nat) returns (t: State)
    requires Reaches(s0, s) && At(s, L, d, i) && s.tos in s.env.mem && s.env.mem[s.tos].Wide?
    requires i < CodeLen(d) && Code(d, i) == W(P(WLoad))
    ensures Reaches(s0, t) && t == s.(ip := s.ip + 8, tos := s.env.mem[s.tos].c)
  {
    hide Reaches, Code, CodeLen, Image, ExecMemory;
    t := Mm(s0, s, L, d, i, WLoad);
    WLoadExec(s.(ip := 0));
  }

  /** W! at cell i. */
  lemma Store2(s0: State, s: State, L: Lib, d: Def, i: nat) returns (t: State)
    requires Reaches(s0, s) && At(s, L, d, i) && Has(s, 2)
    requires s.ds.top < 0x1_0000 && CanWrite(s.env, s.tos, Wide(s.ds.top))
    requires i < CodeLen(d) && Code(d, i) == W(P(WStore))
    ensures Reaches(s0, t)
    ensures t == s.(ip := s.ip + 8, tos := s.ds.rest.top, ds := s.ds.rest.rest, dn := s.dn - 2,
                    env := s.env.(mem := s.env.mem[s.tos := Wide(s.ds.top)]))
  {
    hide Reaches, Code, CodeLen, Image, ExecMemory, CanWrite;
    t := Mm(s0, s, L, d, i, WStore);
    WStoreExec(s.(ip := 0));
  }

  lemma Int(s0: State, s: State, L: Lib, d: Def, i: nat, op: Op) returns (t: State)
    requires Reaches(s0, s) && At(s, L, d, i)
    requires i < CodeLen(d) && Code(d, i) == W(P(op)) && ClassOf(op) == Interp
    ensures Reaches(s0, t) && t == ExecInterp(op, s.(ip := 0)).(ip := s.ip + 8)
  {
    hide Reaches, Code, CodeLen, Image, ExecOp, ExecInterp, ClassOf;
    Modelled(op);
    var h;
    t, h := Prim(s0, s, L, d, i, op);
    DataExec(h, s.(ip := s.ip + 8));
  }

  /** LIT at cell i with its operand at cell i + 1. */
  lemma Literal(s0: State, s: State, L: Lib, d: Def, i: nat) returns (t: State)
    requires Reaches(s0, s) && At(s, L, d, i) && s.dn < STACK_DEPTH
    requires i + 1 < CodeLen(d) && Code(d, i) == W(P(Lit))
    ensures Reaches(s0, t)
    ensures t == s.(ip := s.ip + 16, ds := Item(s.tos, s.ds), dn := s.dn + 1,
      tos := CellOf(L, s.ip - 8 * i, Code(d, i + 1)))
  {
    hide Reaches, Code, CodeLen, Image, HasCode, BodyOf, Immediate, Loaded, HasCell;
    CodeCell(s.env.mem, L, d, i + 1);
    CodeCell(s.env.mem, L, d, i);
    Known(s.env.mem, L, P(Lit));
    t := ExecLit(s0, s, L.at(P(Lit)), CellOf(L, s.ip - 8 * i, Code(d, i + 1)));
  }

  /** A word made by CONSTANT at cell i. */
  lemma Constant(s0: State, s: State, L: Lib, d: Def, i: nat, k: Konst) returns (t: State)
    requires Reaches(s0, s) && At(s, L, d, i) && s.dn < STACK_DEPTH
    requires i < CodeLen(d) && Code(d, i) == W(K(k))
    ensures Reaches(s0, t)
    ensures t == s.(ip := s.ip + 8, ds := Item(s.tos, s.ds), dn := s.dn + 1, tos := KonstValue(k))
  {
    hide Reaches, Code, CodeLen, Image;
    CodeCell(s.env.mem, L, d, i);
    Known(s.env.mem, L, K(k));
    t := ExecCtl(s0, s, L.at(K(k)));
  }

  /** ZBRANCH at cell i, jumping to cell k. */
  lemma ZJump(s0: State, s: State, L: Lib, d: Def, i: nat, k: nat) returns (t: State)
    requires Reaches(s0, s) && At(s, L, d, i) && s.ds.Item? && s.dn > 0
    requires i + 1 < CodeLen(d) && Code(d, i) == W(P(ZBranch)) && Code(d, i + 1) == To(k)
    ensures Reaches(s0, t)
    ensures t == s.(ip := s.ip + 8 * (if s.tos == 0 then k - i else 2), ds := s.ds.rest, dn := s.dn - 1,
      tos := s.ds.top)
  {
    hide Reaches, Code, CodeLen, Image, HasCode, BodyOf, Immediate, Loaded, HasCell;
    CodeCell(s.env.mem, L, d, i + 1);
    CodeCell(s.env.mem, L, d, i);
    Known(s.env.mem, L, P(ZBranch));
    t := ExecZBranch(s0, s, L.at(P(ZBranch)), s.ip - 8 * i + 8 * k);
  }

  lemma Jump(s0: State, s: State, L: Lib, d: Def, i: nat, k: nat) returns (t: State)
    requires Reaches(s0, s) && At(s, L, d, i)
    requires i + 1 < CodeLen(d) && Code(d, i) == W(P(Branch)) && Code(d, i + 1) == To(k)
    ensures Reaches(s0, t) && t == s.(ip := s.ip + 8 * (k - i))
  {
    hide Reaches, Code, CodeLen, Image, HasCode, BodyOf, Immediate, Loaded, HasCell;
    CodeCell(s.env.mem, L, d, i + 1);
    CodeCell(s.env.mem, L, d, i);
    Known(s.env.mem, L, P(Branch));
    t := ExecBranch(s0, s, L.at(P(Branch)), s.ip - 8 * i + 8 * k);
  }

  lemma Return(s0: State, s: State, L: Lib, d: Def, i: nat) returns (t: State)
    requires Reaches(s0, s) && At(s, L, d, i) && s.rs.Item? && s.rn > 0
    requires i < CodeLen(d) && Code(d, i) == W(P(Exit))
    ensures Reaches(s0, t) && t == s.(ip := s.rs.top, rs := s.rs.rest, rn := s.rn - 1)
  {
    hide Reaches, Code, CodeLen, Image;
    CodeCell(s.env.mem, L, d, i);
    Known(s.env.mem, L, P(Exit));
    t := ExecCtl(s0, s, L.at(P(Exit)));
  }

  /** EXECUTE at cell i. */
  lemma Perform(s0: State, s: State, L: Lib, d: Def, i: nat) returns (t: State)
    requires Reaches(s0, s) && At(s, L, d, i) && s.ds.Item? && s.dn > 0
    requires i < CodeLen(d) && Code(d, i) == W(P(Execute))
    ensures Reaches(s0, t)
    ensures t == s.(ip := s.ip + 8, tos := s.ds.top, ds := s.ds.rest, dn := s.dn - 1, pc := Exec(s.tos))
  {
    hide Reaches, Code, CodeLen, Image;
    CodeCell(s.env.mem, L, d, i);
    Known(s.env.mem, L, P(Execute));
    t := ExecCtl(s0, s, L.at(P(Execute)));
  }

  /** Begin a library word: CALL pushes the return address. */
  lemma Enter(s: State, L: Lib, d: Def) returns (t: State)
    requires Image(s.env.mem, L) && s.pc == Exec(L.at(D(d))) && s.rn < STACK_DEPTH
    ensures Reaches(s, t) && At(t, L, d, 0)
    ensures t == s.(pc := Next, rs := Item(s.ip, s.rs), rn := s.rn + 1, ip := BodyOf(s.env.mem, L, d))
  {
    hide Reaches, Code, CodeLen, Image;
    Known(s.env.mem, L, D(d));
    ReachesSelf(s);
    t := ExecWord(s, s);
  }

  lemma {:induction false} TerminatedWhole(cs: seq<nat>)
    requires 0 !in cs
    ensures Terminated(cs) == cs
    decreases |cs|
  {
    if cs != [] { TerminatedWhole(cs[1..]); }
  }

  lemma ReadBack(m: Mem, a: Addr, cs: seq<nat>)
    requires HasChars(m, a, cs)
    ensures CanRead(m, a, |cs|) && ReadChars(m, a, |cs|) == cs
  {
  }

  lemma FindExec(s: State, name: seq<nat>)
    requires Has(s, 1) && s.tos == |name| <= NAME_MAXLEN && 0 !in name && HasChars(s.env.mem, s.ds.top, name)
    requires !Search(s.env.mem, s.env.latest, name).Broken?
    ensures ExecInterp(Find, s)
         == s.(ds := s.ds.rest, dn := s.dn - 1,
               tos := match Search(s.env.mem, s.env.latest, name) case Found(xt) => xt case _ => 0)
  {
    hide Search;
    ReadBack(s.env.mem, s.ds.top, name);
    TerminatedWhole(name);
  }

  /** FIND at cell i, with the name's address and length on the stack. */
  lemma Finding(s0: State, s: State, L: Lib, d: Def, i: nat, name: seq<nat>) returns (t: State)
    requires Reaches(s0, s) && At(s, L, d, i)
    requires i < CodeLen(d) && Code(d, i) == W(P(Find))
    requires Has(s, 1) && s.tos == |name| <= NAME_MAXLEN && 0 !in name && HasChars(s.env.mem, s.ds.top, name)
    requires !Search(s.env.mem, s.env.latest, name).Broken?
    ensures Reaches(s0, t)
    ensures t == s.(ip := s.ip + 8, ds := s.ds.rest, dn := s.dn - 1,
                    tos := match Search(s.env.mem, s.env.latest, name) case Found(xt) => xt case _ => 0)
  {
    hide Reaches, Code, CodeLen, Image, ExecInterp, Search;
    t := Int(s0, s, L, d, i, Find);
    FindExec(s.(ip := 0), name);
  }
}
