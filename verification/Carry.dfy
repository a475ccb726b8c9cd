/** More memory does no harm: what a machine does without running into anything undefined, a machine with
    further objects in its memory does as well. */
module Carry {
  import opened Words
  import opened Memory
  import opened Opcodes
  import opened Machine
  import opened Builders
  import opened Blind
  import Context

  function WithMem(s: State, n: Mem): State {
    s.(env := s.env.(mem := n))
  }

  /** t is s with more in memory. */
  ghost predicate Richer(s: State, t: State) {
    Keeps(s.env.mem, t.env.mem) && t == WithMem(s, t.env.mem)
  }

  /** A store keeps the smaller memory inside the larger. */
  lemma PutOver(m: Mem, n: Mem, a: Addr, c: Chunk)
    requires Keeps(m, n)
    ensures Keeps(Overwrite(m, a, c), Overwrite(n, a, c))
  {
  }

  /** What the opcode does to s it does to s with the memory n. */
  ghost predicate SameDone(t: State, s: State, u: State, n: Mem) {
    t == WithMem(u, n) && u.env.mem == s.env.mem
  }

  lemma SameOver(t: State, s: State, u: State, n: Mem)
    requires SameDone(t, s, u, n) && Keeps(s.env.mem, n)
    ensures Richer(u, t)
  {
  }

  lemma LoadOver(op: Op, s: State, n: Mem)
    requires Keeps(s.env.mem, n) && ExecLoad(op, s).pc != Fault
    requires op.CLoad? || op.WLoad? || op.LLoad? || op.XLoad?
    ensures SameDone(ExecLoad(op, WithMem(s, n)), s, ExecLoad(op, s), n)
  {
    hide ExecLoad, Context.ReadBy;
    Context.LoadSpec(op, s);
    Context.LoadSpec(op, WithMem(s, n));
    ReadOver(op, s.env, n, s.tos);
  }

  lemma ReadOver(op: Op, e: Env, n: Mem, a: Addr)
    requires Keeps(e.mem, n) && Context.ReadBy(op, e, a).Value?
    ensures Context.ReadBy(op, e.(mem := n), a) == Context.ReadBy(op, e, a)
  {
  }

  lemma StoredOver(s: State, t: State)
    requires Richer(s, t)
    ensures Richer(Stored(s), Stored(t))
  {
  }

  lemma ChunkOver(s: State, t: State, a: Addr, c: Chunk)
    requires Richer(s, t)
    ensures Richer(StoreChunk(s, a, c), StoreChunk(t, a, c))
  {
    hide Overwrite;
    PutOver(s.env.mem, t.env.mem, a, c);
  }

  lemma PokeOver(e: Env, n: Mem, a: Addr, v: nat)
    requires Keeps(e.mem, n)
    ensures var f, g := Poke(e, a, v), Poke(e.(mem := n), a, v); g == f.(mem := g.mem) && Keeps(f.mem, g.mem)
  {
    hide Overwrite, Keeps;
    if IsVariable(a) {
      PokeVariable(e, n, a, v);
    } else {
      PutOver(e.mem, n, a, Cell(v));
    }
  }

  lemma PokeVariable(e: Env, n: Mem, a: Addr, v: nat)
    requires IsVariable(a)
    ensures Poke(e, a, v).mem == e.mem && Poke(e.(mem := n), a, v) == Poke(e, a, v).(mem := n)
  {
    hide Overwrite;
  }

  lemma CellOver(s: State, t: State, a: Addr, v: nat)
    requires Richer(s, t)
    ensures Richer(StoreCell(s, a, v), StoreCell(t, a, v))
  {
    hide Poke, Keeps, IsVariable;
    PokeOver(s.env, t.env.mem, a, v);
  }

  lemma PopOver(s: State, t: State)
    requires Richer(s, t)
    ensures Richer(PPop(s), PPop(t)) && PTop(s) == PTop(t) && s.tos == t.tos
  {
  }

  lemma StoreOver(op: Op, s: State, t: State)
    requires Richer(s, t) && (op.CStore? || op.WStore? || op.LStore? || op.XStore?)
    ensures Richer(ExecStore(op, s), ExecStore(op, t))
  {
    hide StoreChunk, StoreCell, Stored, PPop, PTop, Richer, Context.WrittenBy;
    PopOver(s, t);
    var a, v := s.tos, PTop(s);
    if op.XStore? {
      CellOver(PPop(s), PPop(t), a, v);
      StoredOver(StoreCell(PPop(s), a, v), StoreCell(PPop(t), a, v));
    } else {
      var c := Context.WrittenBy(op, v);
      ChunkOver(PPop(s), PPop(t), a, c);
      StoredOver(StoreChunk(PPop(s), a, c), StoreChunk(PPop(t), a, c));
      Context.StoreSpec(op, s);
      Context.StoreSpec(op, t);
    }
  }

  lemma CharsOver(m: Mem, n: Mem, a: Addr, k: nat)
    requires Keeps(m, n) && CanRead(m, a, k)
    ensures CanRead(n, a, k) && ReadChars(n, a, k) == ReadChars(m, a, k)
  {
  }

  lemma FindOver(s: State, n: Mem)
    requires Keeps(s.env.mem, n) && ExecFind(s).pc != Fault
    ensures SameDone(ExecFind(WithMem(s, n)), s, ExecFind(s), n)
  {
    hide Search, Keeps, Terminated, ReadChars, CanRead;
    if s.tos <= NAME_MAXLEN {
      CharsOver(s.env.mem, n, PTop(s), s.tos);
      SearchKept(s.env.mem, n, s.env.latest, Terminated(ReadChars(s.env.mem, PTop(s), s.tos)));
    }
  }

  lemma IsNumberOver(s: State, n: Mem)
    requires Keeps(s.env.mem, n) && ExecIsNumber(s).pc != Fault
    ensures SameDone(ExecIsNumber(WithMem(s, n)), s, ExecIsNumber(s), n)
  {
    hide Keeps, ReadChars, CanRead, IsNumberText;
    if CanRead(s.env.mem, PTop(s), s.tos) { CharsOver(s.env.mem, n, PTop(s), s.tos); }
  }

  lemma ToNumberOver(s: State, n: Mem)
    requires Keeps(s.env.mem, n) && ExecToNumber(s).pc != Fault
    ensures SameDone(ExecToNumber(WithMem(s, n)), s, ExecToNumber(s), n)
  {
    hide Keeps, CanRead, NumberOf;
    if CanRead(s.env.mem, PTop(s), s.tos) { CharsOver(s.env.mem, n, PTop(s), s.tos); }
  }

  lemma CreateOver(s: State, t: State, name: seq<nat>)
    requires Richer(s, t)
    ensures Richer(CreateWord(s, name), CreateWord(t, name))
  {
    hide Overwrite, HeaderSize;
    PutOver(s.env.mem, t.env.mem, s.env.dp, Word(NewHeader(s.env, name)));
  }

  lemma TosOver(s: State, t: State, v: nat)
    requires Richer(s, t)
    ensures Richer(s.(tos := v), t.(tos := v))
  {
  }

  lemma WordNewOver(s: State, t: State)
    requires Richer(s, t) && ExecWordNew(s).pc != Fault
    ensures Richer(ExecWordNew(s), ExecWordNew(t))
  {
    hide Keeps, ReadChars, CanRead, CreateWord, PPop, PTop, Terminated;
    PopOver(s, t);
    TosOver(PPop(s), PPop(t), 0);
    if s.tos <= NAME_MAXLEN && CanRead(s.env.mem, PTop(s), s.tos) {
      CharsOver(s.env.mem, t.env.mem, PTop(s), s.tos);
      var name := Terminated(ReadChars(s.env.mem, PTop(s), s.tos));
      CreateOver(PPop(s), PPop(t), name);
      TosOver(CreateWord(PPop(s), name), CreateWord(PPop(t), name), s.env.dp);
    }
  }

  lemma HeaderOver(op: Op, s: State, n: Mem)
    requires Keeps(s.env.mem, n) && ExecHeader(op, s).pc != Fault
    requires op.IsImmediate? || op.XtToPrev? || op.XtToBody? || op.BlenLoad?
    ensures SameDone(ExecHeader(op, WithMem(s, n)), s, ExecHeader(op, s), n)
  {
    hide Field;
    assert HasWord(s.env.mem, s.tos) ==> HasWord(n, s.tos) && n[s.tos] == s.env.mem[s.tos];
  }

  lemma BlenOver(s: State, t: State)
    requires Richer(s, t) && ExecBlenStore(s).pc != Fault
    ensures Richer(ExecBlenStore(s), ExecBlenStore(t))
  {
    hide Stored, PPop, PTop;
    if HasWord(s.env.mem, s.tos) {
      PopOver(s, t);
      var c := Word(s.env.mem[s.tos].h.(blen := PTop(s)));
      var u, v := WithMem(PPop(s), s.env.mem[s.tos := c]), WithMem(PPop(t), t.env.mem[s.tos := c]);
      PopEnv(s);
      PopEnv(t);
      assert Keeps(u.env.mem, v.env.mem);
      StoredOver(u, v);
    }
  }

  lemma InterpOver(op: Op, s: State, t: State)
    requires Richer(s, t) && ExecInterp(op, s).pc != Fault && ClassOf(op) == Interp
    ensures Richer(ExecInterp(op, s), ExecInterp(op, t))
  {
    hide ExecFind, ExecWordNew, ExecHeader, ExecBlenStore, ExecIsNumber, ExecToNumber, ExecPush, Keeps, SameDone;
    assert t == WithMem(s, t.env.mem) && Keeps(s.env.mem, t.env.mem);
    hide Richer, WithMem;
    var n := t.env.mem;
    match op {
      case Find =>
        FindOver(s, n);
        SameOver(ExecFind(t), s, ExecFind(s), n);
      case IsNumber =>
        IsNumberOver(s, n);
        SameOver(ExecIsNumber(t), s, ExecIsNumber(s), n);
      case ToNumber =>
        ToNumberOver(s, n);
        SameOver(ExecToNumber(t), s, ExecToNumber(s), n);
      case WordNew => WordNewOver(s, t);
      case IsImmediate | XtToPrev | XtToBody | BlenLoad =>
        HeaderOver(op, s, n);
        SameOver(ExecHeader(op, t), s, ExecHeader(op, s), n);
      case BlenStore => BlenOver(s, t);
      case CompSta | Wib | Win => PushOver(op, s, t);
      case CompOn | CompOff => CompOver(s, t, op.CompOn?);
    }
  }

  lemma ConsoleOver(s: State, t: State)
    requires Richer(s, t)
    ensures Richer(ExecEmit(s), ExecEmit(t)) && Richer(ExecDelay(s), ExecDelay(t))
    ensures Richer(s.(pc := WaitKey), t.(pc := WaitKey))
  {
    hide Keeps;
  }

  lemma PushOver(op: Op, s: State, t: State)
    requires Richer(s, t)
    ensures Richer(ExecPush(op, s), ExecPush(op, t))
  {
    hide ExecPush, Keeps;
    PushBlind(op, s, t.env);
  }

  lemma CompOver(s: State, t: State, on: bool)
    requires Richer(s, t)
    ensures Richer(s.(env := s.env.(comp := on)), t.(env := t.env.(comp := on)))
  {
  }

  lemma MemoryOver(op: Op, s: State, t: State)
    requires Richer(s, t) && ExecMemory(op, s).pc != Fault && ClassOf(op) == Mems
    ensures Richer(ExecMemory(op, s), ExecMemory(op, t))
  {
    hide ExecLoad, ExecStore, ExecPush, ExecEmit, ExecDelay, Keeps, SameDone;
    assert t == WithMem(s, t.env.mem) && Keeps(s.env.mem, t.env.mem);
    hide Richer, WithMem;
    var n := t.env.mem;
    match op {
      case CLoad | WLoad | LLoad | XLoad =>
        LoadOver(op, s, n);
        SameOver(ExecLoad(op, t), s, ExecLoad(op, s), n);
      case CStore | WStore | LStore | XStore => StoreOver(op, s, t);
      case DpVar | StaLoad | UserWEmit | UserWKey | UserDot => PushOver(op, s, t);
      case EarlyWEmit | EarlyWKey | DelayUs => ConsoleOver(s, t);
    }
  }

  lemma BranchOver(h: Header, s: State, t: State)
    requires Richer(s, t) && ExecControl(h.op, h, s).pc != Fault && (h.op.Branch? || h.op.ZBranch?)
    ensures Richer(ExecControl(h.op, h, s), ExecControl(h.op, h, t))
  {
  }

  lemma InlineOver(h: Header, s: State, t: State)
    requires Richer(s, t) && ExecControl(h.op, h, s).pc != Fault && (h.op.Lit? || h.op.DoConst?)
    ensures Richer(ExecControl(h.op, h, s), ExecControl(h.op, h, t))
  {
  }

  lemma TransferOver(h: Header, s: State, t: State)
    requires Richer(s, t) && (h.op.HaltOp? || h.op.Exit? || h.op.Call? || h.op.Execute?)
    ensures Richer(ExecControl(h.op, h, s), ExecControl(h.op, h, t))
  {
  }

  lemma ControlOver(h: Header, s: State, t: State)
    requires Richer(s, t) && ExecControl(h.op, h, s).pc != Fault && ClassOf(h.op) == Control
    ensures Richer(ExecControl(h.op, h, s), ExecControl(h.op, h, t))
  {
    hide ExecControl, Richer;
    match h.op {
      case Branch | ZBranch => BranchOver(h, s, t);
      case Lit | DoConst => InlineOver(h, s, t);
      case HaltOp | Exit | Call | Execute => TransferOver(h, s, t);
    }
  }

  lemma DataOver(op: Op, s: State, t: State)
    requires Richer(s, t) && ExecData(op, s).pc != Fault
    ensures Richer(ExecData(op, s), ExecData(op, t))
  {
    hide ExecStack, ExecArith, ExecMemory, ExecInterp, Keeps;
    match ClassOf(op) {
      case Stacks => StackBlind(op, s, t.env);
      case Arith => ArithBlind(op, s, t.env);
      case Mems => MemoryOver(op, s, t);
      case Interp => InterpOver(op, s, t);
      case _ =>
    }
  }

  lemma OpOver(h: Header, s: State, t: State)
    requires Richer(s, t) && ExecOp(h, s).pc != Fault
    ensures Richer(ExecOp(h, s), ExecOp(h, t))
  {
    hide ExecData, ExecControl, Keeps, ClassOf;
    if ClassOf(h.op) == Control {
      ControlOver(h, s, t);
    } else {
      DataOver(h.op, s.(ip := 0), t.(ip := 0));
    }
  }

  /** One label. */
  lemma StepOver(s: State, t: State)
    requires Richer(s, t) && Step(s).pc != Fault
    ensures Richer(Step(s), Step(t))
  {
    hide ExecOp;
    if s.pc.Exec? && HasWord(s.env.mem, s.pc.w) { OpOver(s.env.mem[s.pc.w].h, s.(pc := Next), t.(pc := Next)); }
  }

  lemma {:induction false} FaultStays(s: State, n: nat)
    requires s.pc == Fault
    ensures Run(s, n) == s
    decreases n
  {
    if n > 0 { FaultStays(s, n - 1); }
  }

  /** A run from the smaller memory that meets nothing undefined is a run from the larger one. */
  lemma {:induction false} RunOver(s: State, t: State, n: nat)
    requires Richer(s, t) && Run(s, n).pc != Fault
    ensures Richer(Run(s, n), Run(t, n))
    decreases n
  {
    hide Step, Richer;
    if n > 0 {
      if Step(s).pc == Fault { FaultStays(Step(s), n - 1); }
      StepOver(s, t);
      RunOver(Step(s), Step(t), n - 1);
    }
  }

  /** Whatever a machine reaches, a machine with more in memory reaches too, with more in memory. */
  lemma Carries(s: State, u: State, t: State) returns (v: State)
    requires Reaches(s, u) && u.pc != Fault && Richer(s, t)
    ensures Reaches(t, v) && Richer(u, v)
  {
    hide Step, Run, Richer;
    var n: nat :| Run(s, n) == u;
    RunOver(s, t, n);
    v := Run(t, n);
  }
}
