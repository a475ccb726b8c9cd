/** struct forth_context and forth_run as they are: stacks in arrays that grow down, fields updated
    opcode by opcode, and a label saved on return. Each method is proved against the step relation. */
module Context {
  import opened Words
  import opened Memory
  import opened Opcodes
  import opened Machine
  import opened WStrings
  import Numbers

  function StackOf(cells: seq<nat>): (k: Stack)
    ensures Height(k) == |cells|
  {
    if cells == [] then Empty else Item(cells[0], StackOf(cells[1..]))
  }

  lemma {:induction false} StackNth(cells: seq<nat>, n: nat)
    requires n < |cells|
    ensures Nth(StackOf(cells), n) == cells[n]
    decreases n
  {
    if n > 0 { StackNth(cells[1..], n - 1); }
  }

  /** A push on one stack leaves the top cell of the other. */
  lemma OtherTops(s: State, v: nat)
    ensures PTop(RPush(s, v)) == PTop(s) && RTop(PPush(s, v)) == RTop(s)
  {
  }

  lemma PspRstSpec(s: State)
    ensures ExecStack(PspRst, s) == s.(ds := Empty, dn := 0, tos := TOS_INIT, pser := false)
  {
  }

  lemma OverSpec(s: State)
    ensures ExecStack(Over, s) == PPush(PPush(PPop(s), PTop(s)), s.tos).(tos := PTop(s))
  {
    hide PPop, PPush, PTop;
  }

  lemma MemorySpec(op: Op, s: State)
    requires ClassOf(op) == Mems
    ensures ExecMemory(op, s)
         == if op.CLoad? || op.WLoad? || op.LLoad? || op.XLoad? then ExecLoad(op, s)
            else if op.CStore? || op.WStore? || op.LStore? || op.XStore? then ExecStore(op, s)
            else if op.EarlyWEmit? then ExecEmit(s)
            else if op.EarlyWKey? then s.(pc := WaitKey)
            else if op.DelayUs? then ExecDelay(s)
            else ExecPush(op, s)
  {
    hide ExecLoad, ExecStore, ExecPush, ExecEmit, ExecDelay;
  }

  lemma MemoryOps(op: Op)
    requires ClassOf(op) == Mems
    ensures || op.CLoad? || op.WLoad? || op.LLoad? || op.XLoad? || op.CStore? || op.WStore? || op.LStore? || op.XStore?
            || op.EarlyWEmit? || op.EarlyWKey? || op.DelayUs?
            || op.DpVar? || op.StaLoad? || op.UserWEmit? || op.UserWKey? || op.UserDot?
  {
  }

  lemma InterpSpec(op: Op, s: State)
    requires ClassOf(op) == Interp
    ensures ExecInterp(op, s)
         == if op.Find? then ExecFind(s)
            else if op.IsNumber? then ExecIsNumber(s)
            else if op.ToNumber? then ExecToNumber(s)
            else if op.WordNew? then ExecWordNew(s)
            else if op.BlenStore? then ExecBlenStore(s)
            else if Headers(op) then ExecHeader(op, s)
            else if op.CompOn? || op.CompOff? then s.(env := s.env.(comp := op.CompOn?))
            else ExecPush(op, s)
  {
    hide ExecFind, ExecIsNumber, ExecToNumber, ExecWordNew, ExecHeader, ExecBlenStore, ExecPush;
  }

  lemma InterpOps(op: Op)
    requires ClassOf(op) == Interp
    ensures || op.Find? || op.IsNumber? || op.ToNumber? || op.WordNew? || op.BlenStore? || Headers(op)
            || op.CompOn? || op.CompOff? || op.CompSta? || op.Wib? || op.Win?
  {
  }

  predicate Headers(op: Op) {
    op.IsImmediate? || op.XtToPrev? || op.XtToBody? || op.BlenLoad?
  }

  /** The opcodes of the form ( -- x ) but DEPTH. */
  predicate PushesOne(op: Op) {
    op.DpVar? || op.StaLoad? || op.UserWEmit? || op.UserWKey? || op.UserDot? || op.CompSta? || op.Wib? || op.Win?
  }

  lemma NoopStays(s: State)
    ensures ExecStack(Noop, s) == s
  {
  }

  /** What a load opcode reads at address a. */
  function ReadBy(op: Op, e: Env, a: Addr): Fetched {
    if op.XLoad? then Peek(e, a)
    else if a !in e.mem then NoCell
    else match e.mem[a]
         case Byte(b) => if op.CLoad? then Value(b) else NoCell
         case Wide(c) => if op.WLoad? then Value(c) else NoCell
         case Long(l) => if op.LLoad? then Value(l) else NoCell
         case _ => NoCell
  }

  lemma LoadSpec(op: Op, s: State)
    requires op.CLoad? || op.WLoad? || op.LLoad? || op.XLoad?
    ensures ExecLoad(op, s) == match ReadBy(op, s.env, s.tos) case Value(v) => s.(tos := v) case NoCell => Crash(s)
  {
    hide Peek;
  }

  /** What a store opcode writes for the value v. */
  function WrittenBy(op: Op, v: nat): Chunk {
    if op.CStore? then Byte(v % 0x100) else if op.WStore? then Wide(v % 0x1_0000) else Long(v % 0x1_0000_0000)
  }

  lemma StoreSpec(op: Op, s: State)
    requires op.CStore? || op.WStore? || op.LStore? || op.XStore?
    ensures ExecStore(op, s)
         == Stored(if op.XStore? then StoreCell(PPop(s), s.tos, PTop(s))
                   else StoreChunk(PPop(s), s.tos, WrittenBy(op, PTop(s))))
  {
    hide PPop, PTop, StoreCell, StoreChunk, Stored;
  }

  /** The stack primitives do not look at ip. */
  lemma Blind(s: State, a: Addr, v: nat)
    ensures PPop(s.(ip := a)) == PPop(s).(ip := a) && PTop(s.(ip := a)) == PTop(s)
    ensures RPop(s.(ip := a)) == RPop(s).(ip := a) && RTop(s.(ip := a)) == RTop(s)
    ensures PPush(s.(ip := a), v) == PPush(s, v).(ip := a) && RPush(s.(ip := a), v) == RPush(s, v).(ip := a)
    ensures Load(s.(ip := a), v) == Load(s, v).(ip := a)
  {
  }

  /** Where forth_run goes on: a label of its own, the label it saved before it returned, or nowhere. */
  datatype Label = AtNext | AtExec | AtWaitKey | AtWaitDelay | Halted | Undefined

  class ForthContext {
    var mark: Label
    var ip: nat
    var w: nat
    var x: nat
    var tos: nat
    /** Indices of the top cells; STACK_DEPTH for an empty stack. */
    var psp: nat
    var rsp: nat
    var pser: bool
    var rser: bool
    var env: Env
    const pstack: array<nat>
    const rstack: array<nat>

    ghost predicate Valid()
      reads this
    {
      && pstack.Length == STACK_DEPTH == rstack.Length && pstack != rstack
      && psp <= STACK_DEPTH && rsp <= STACK_DEPTH
      && CNames(env.mem)
    }

    ghost function Pc(): Ctl
      reads this
    {
      match mark
      case AtNext => Next
      case AtExec => Exec(w)
      case AtWaitKey => WaitKey
      case AtWaitDelay => WaitDelay
      case Halted => Halt
      case Undefined => Fault
    }

    /** The machine state this context stands for, but for ip; w and x are scratch. */
    ghost function Data(): State
      reads this, pstack, rstack
      requires Valid()
    {
      State(Pc(), 0, tos, StackOf(pstack[psp..]), STACK_DEPTH - psp, StackOf(rstack[rsp..]), STACK_DEPTH - rsp,
            pser, rser, env)
    }

    ghost function View(): State
      reads this, pstack, rstack
      requires Valid()
    {
      Data().(ip := ip)
    }

    /** forth_task_new without a parent, apart from the user variables, which come in env. */
    constructor (start: nat, e: Env)
      requires CNames(e.mem)
      ensures Valid() && fresh(pstack) && fresh(rstack)
      ensures View() == State(Next, start, TOS_INIT, Empty, 0, Empty, 0, false, false, e)
    {
      mark, ip, w, x, tos := AtNext, start, 0, 0, TOS_INIT;
      psp, rsp, pser, rser, env := STACK_DEPTH, STACK_DEPTH, false, false, e;
      pstack := new nat[STACK_DEPTH](_ => 0);
      rstack := new nat[STACK_DEPTH](_ => 0);
      new;
    }

    method Ppush(val: nat)
      requires Valid() && mark != AtExec
      modifies this, pstack
      ensures Valid() && Data() == PPush(old(Data()), val)
      ensures w == old(w) && tos == old(tos) && ip == old(ip) && (mark == old(mark) || mark == Undefined)
    {
      if psp == 0 {
        mark := Undefined;
        return;
      }
      psp := psp - 1;
      pstack[psp] := val;
      assert pstack[psp..][1..] == old(pstack[psp..]);
    }

    method Ppop() returns (ret: nat)
      requires Valid() && mark != AtExec
      modifies this
      ensures Valid() && ret == PTop(old(Data())) && Data() == PPop(old(Data()))
      ensures w == old(w) && tos == old(tos) && ip == old(ip) && mark == old(mark) && env == old(env)
    {
      if psp > STACK_DEPTH - 1 {
        pser := true;
        return BAD_PATTERN;
      }
      ret := pstack[psp];
      psp := psp + 1;
      assert pstack[psp..] == old(pstack[psp..])[1..];
    }

    method Rpush(val: nat)
      requires Valid() && mark != AtExec
      modifies this, rstack
      ensures Valid() && Data() == RPush(old(Data()), val)
      ensures w == old(w) && tos == old(tos) && ip == old(ip) && (mark == old(mark) || mark == Undefined)
    {
      if rsp == 0 {
        mark := Undefined;
        return;
      }
      rsp := rsp - 1;
      rstack[rsp] := val;
      assert rstack[rsp..][1..] == old(rstack[rsp..]);
    }

    method Rpop() returns (ret: nat)
      requires Valid() && mark != AtExec
      modifies this
      ensures Valid() && ret == RTop(old(Data())) && Data() == RPop(old(Data()))
      ensures w == old(w) && tos == old(tos) && ip == old(ip) && mark == old(mark) && env == old(env)
    {
      if rsp > STACK_DEPTH - 1 {
        rser := true;
        return BAD_PATTERN;
      }
      ret := rstack[rsp];
      rsp := rsp + 1;
      assert rstack[rsp..] == old(rstack[rsp..])[1..];
    }

    method DoDrops(op: Op)
      requires Valid() && mark == AtNext
      requires op.Drop? || op.Dup? || op.Nip?
      modifies this, pstack
      ensures Valid() && Data() == ExecStack(op, old(Data())) && ip == old(ip)
    {
      hide PPop, PPush, PTop, StackOf;
      match op {
        case Dup => Ppush(tos);
        case Drop => tos := Ppop();
        case Nip => w := Ppop();
      }
    }

    method DoSwap()
      requires Valid() && mark == AtNext
      modifies this, pstack
      ensures Valid() && Data() == ExecStack(Swap, old(Data())) && ip == old(ip)
    {
      hide PPop, PPush, PTop, StackOf;
      w := Ppop();
      Ppush(tos);
      tos := w;
    }

    method DoOver()
      requires Valid() && mark == AtNext
      modifies this, pstack
      ensures Valid() && Data() == ExecStack(Over, old(Data())) && ip == old(ip)
    {
      hide PPop, PPush, PTop, StackOf, ExecStack, CNames;
      OverSpec(Data());
      w := Ppop();
      Ppush(w);
      Ppush(tos);
      tos := w;
    }

    method DoTransfer(op: Op)
      requires Valid() && mark == AtNext
      requires op.ToR? || op.FromR?
      modifies this, pstack, rstack
      ensures Valid() && Data() == ExecStack(op, old(Data())) && ip == old(ip)
    {
      hide PPop, PPush, RPop, RPush, PTop, RTop, StackOf;
      OtherTops(Data(), tos);
      if op.ToR? {
        Rpush(tos);
        tos := Ppop();
      } else {
        Ppush(tos);
        tos := Rpop();
      }
    }

    method DoPick()
      requires Valid() && mark == AtNext
      modifies this
      ensures Valid() && Data() == ExecStack(Pick, old(Data())) && ip == old(ip)
    {
      if Signed(tos) < 0 {
        pser := true;
        tos := BAD_PATTERN;
      } else if Signed(tos) > STACK_DEPTH {
        pser := true;
        tos := BAD_PATTERN;
      } else if psp + tos < STACK_DEPTH {
        StackNth(pstack[psp..], tos);
        tos := pstack[psp + tos];
      } else {
        mark := Undefined;
      }
    }

    method DoEqChk()
      requires Valid() && mark == AtNext
      modifies this
      ensures Valid() && Data() == ExecStack(EqChk, old(Data())) && ip == old(ip)
    {
      hide PPop, PTop, StackOf, CNames;
      w := Ppop();
      if tos != w {
        mark := Halted;
        return;
      }
      tos := Ppop();
    }

    method DoPzChk()
      requires Valid() && mark == AtNext
      modifies this
      ensures Valid() && Data() == ExecStack(PzChk, old(Data())) && ip == old(ip)
    {
      hide CNames;
      if psp != STACK_DEPTH || tos != TOS_INIT { mark := Halted; }
    }

    method DoPspRst()
      requires Valid() && mark == AtNext
      modifies this
      ensures Valid() && Data() == ExecStack(PspRst, old(Data())) && ip == old(ip)
    {
      hide CNames, ExecStack;
      PspRstSpec(Data());
      psp := STACK_DEPTH;
      tos := TOS_INIT;
      pser := false;
    }

    method DoDepth()
      requires Valid() && mark == AtNext
      modifies this, pstack
      ensures Valid() && Data() == ExecStack(Depth, old(Data())) && ip == old(ip)
    {
      hide CNames, Load, StackOf;
      w := STACK_DEPTH - psp;
      Pushing(w);
    }

    method DoStack(op: Op)
      requires Valid() && mark == AtNext && ClassOf(op) == Stacks
      modifies this, pstack, rstack
      ensures Valid() && Data() == ExecStack(op, old(Data())) && ip == old(ip)
    {
      hide ExecStack, CNames, StackOf;
      match op {
        case Drop | Dup | Nip => DoDrops(op);
        case Swap => DoSwap();
        case Over => DoOver();
        case ToR | FromR => DoTransfer(op);
        case Pick => DoPick();
        case EqChk => DoEqChk();
        case PzChk => DoPzChk();
        case PspRst => DoPspRst();
        case Depth => DoDepth();
        case Noop => NoopStays(Data());
      }
    }

    method DoBinary(op: Op)
      requires Valid() && mark == AtNext && !Unary(op) && !Trap(op, tos)
      modifies this
      ensures Valid() && Data() == ExecArith(op, old(Data())) && ip == old(ip)
    {
      hide PPop, PTop, StackOf, CNames, Result, Trap, Unary;
      w := Ppop();
      x := tos;
      tos := Result(op, w, x);
    }

    method DoArith(op: Op)
      requires Valid() && mark == AtNext && ClassOf(op) == Arith
      modifies this
      ensures Valid() && Data() == ExecArith(op, old(Data())) && ip == old(ip)
    {
      hide PPop, PTop, StackOf, CNames, Result, Trap, Unary, ClassOf;
      if Trap(op, tos) {
        mark := Undefined;
      } else if Unary(op) {
        w := tos;
        tos := Result(op, 0, w);
      } else {
        hide ExecArith;
        DoBinary(op);
      }
    }

    /** The opcodes that push a value: tos goes to the stack first. */
    method Pushing(val: nat)
      requires Valid() && mark == AtNext
      modifies this, pstack
      ensures Valid() && Data() == Load(old(Data()), val) && w == old(w) && ip == old(ip)
      ensures mark == AtNext || mark == Undefined
    {
      hide PPush, StackOf, CNames;
      Ppush(tos);
      tos := val;
    }

    method DoLoad(op: Op)
      requires Valid() && mark == AtNext
      requires op.CLoad? || op.WLoad? || op.LLoad? || op.XLoad?
      modifies this
      ensures Valid() && Data() == ExecLoad(op, old(Data())) && ip == old(ip)
    {
      hide StackOf, CNames, Peek, ReadBy, ExecLoad;
      LoadSpec(op, Data());
      match ReadBy(op, env, tos) {
        case Value(v) =>
          w := v;
          tos := w;
        case NoCell =>
          mark := Undefined;
      }
    }

    /** Store the object c at tos. */
    method Storing(c: Chunk)
      requires Valid() && mark == AtNext && !c.Word?
      modifies this
      ensures Valid() && Data() == StoreChunk(old(Data()), old(tos), c)
      ensures w == old(w) && tos == old(tos) && ip == old(ip) && (mark == old(mark) || mark == Undefined)
    {
      hide StackOf;
      if RAM <= tos {
        env := env.(mem := Overwrite(env.mem, tos, c));
      } else {
        mark := Undefined;
      }
    }

    method StoringCell(v: nat)
      requires Valid() && mark == AtNext
      modifies this
      ensures Valid() && Data() == StoreCell(old(Data()), old(tos), v)
      ensures w == old(w) && tos == old(tos) && ip == old(ip) && (mark == old(mark) || mark == Undefined)
    {
      hide StackOf;
      if IsVariable(tos) || RAM <= tos {
        env := Poke(env, tos, v);
      } else {
        mark := Undefined;
      }
    }

    method DoStore(op: Op)
      requires Valid() && mark == AtNext
      requires op.CStore? || op.WStore? || op.LStore? || op.XStore?
      modifies this
      ensures Valid() && Data() == ExecStore(op, old(Data())) && ip == old(ip)
    {
      hide StackOf, CNames, PPop, PTop, StoreChunk, StoreCell;
      StoreSpec(op, Data());
      hide ExecStore, WrittenBy, Stored;
      w := Ppop();
      if op.XStore? {
        StoringCell(w);
      } else {
        Storing(WrittenBy(op, w));
      }
      StoresTail();
    }

    method StoresTail()
      requires Valid() && mark != AtExec
      modifies this
      ensures Valid() && Data() == Stored(old(Data())) && ip == old(ip)
    {
      hide StackOf, CNames, PPop, PTop;
      tos := Ppop();
    }

    /** The bits of fctx->sta. */
    function StatusBits(): (r: nat)
      reads this, pstack, rstack
      requires Valid()
      ensures r == Sta(Data())
    {
      (if pser then 2 else 0) + (if rser then 4 else 0) + (if env.comp then 32 else 0)
    }

    method DoPushes(op: Op)
      requires Valid() && mark == AtNext && PushesOne(op)
      modifies this, pstack
      ensures Valid() && Data() == ExecPush(op, old(Data())) && ip == old(ip)
    {
      hide StackOf, CNames, Load, Pushed, Sta, PushesOne, StatusBits;
      var v := Pushed(op, StatusBits(), env, STACK_DEPTH - psp);
      assert v == PushedBy(op, Data());
      Pushing(v);
    }

    /** EARLY-WEMIT. */
    method DoEmit()
      requires Valid() && mark == AtNext
      modifies this
      ensures Valid() && Data() == ExecEmit(old(Data())) && ip == old(ip)
    {
      hide StackOf, CNames, PPop, PTop;
      w := tos;
      tos := Ppop();
      env := env.(out := env.out + [w % 0x1_0000]);
    }

    /** DELAYUS up to the label forth_wait_delayus; creating and setting the timer succeed. */
    method DoDelay()
      requires Valid() && mark == AtNext
      modifies this
      ensures Valid() && Data() == ExecDelay(old(Data())) && ip == old(ip)
    {
      hide StackOf, CNames, PPop, PTop;
      tos := Ppop();
      env := env.(done := false);
      mark := AtWaitDelay;
    }

    method DoMemory(op: Op)
      requires Valid() && mark == AtNext && ClassOf(op) == Mems
      modifies this, pstack
      ensures Valid() && Data() == ExecMemory(op, old(Data())) && ip == old(ip)
    {
      hide StackOf, CNames, ExecMemory, ExecLoad, ExecStore, ExecPush, ExecEmit, ExecDelay, ClassOf;
      MemorySpec(op, Data());
      MemoryOps(op);
      if op.CLoad? || op.WLoad? || op.LLoad? || op.XLoad? {
        DoLoad(op);
      } else if op.CStore? || op.WStore? || op.LStore? || op.XStore? {
        DoStore(op);
      } else if op.EarlyWEmit? {
        DoEmit();
      } else if op.EarlyWKey? {
        mark := AtWaitKey;
      } else if op.DelayUs? {
        DoDelay();
      } else {
        DoPushes(op);
      }
    }

    /** The characters at waddr in a buffer on the C stack, with the NUL behind them. */
    method Buffer(waddr: Addr, count: nat) returns (name: seq<nat>)
      requires Valid() && CanRead(env.mem, waddr, count)
      ensures name == ReadChars(env.mem, waddr, count) + [0]
      ensures Terminated(name) == Terminated(ReadChars(env.mem, waddr, count))
    {
      name := ReadChars(env.mem, waddr, count) + [0];
      TerminatedNul(ReadChars(env.mem, waddr, count));
    }

    method DoFind()
      requires Valid() && mark == AtNext
      modifies this
      ensures Valid() && Data() == ExecFind(old(Data())) && ip == old(ip)
    {
      hide StackOf, Search, Terminated, CanRead, PPop, PTop;
      w := tos;
      x := Ppop();
      if w > NAME_MAXLEN {
        tos := 0;
      } else if !CanRead(env.mem, x, w) {
        mark := Undefined;
      } else {
        var name := Buffer(x, w);
        var r := FindWord(env.mem, env.latest, name);
        match r {
          case Found(xt) => tos := xt;
          case Absent => tos := 0;
          case Broken => mark := Undefined;
        }
      }
    }

    method DoIsNumber()
      requires Valid() && mark == AtNext
      modifies this
      ensures Valid() && Data() == ExecIsNumber(old(Data())) && ip == old(ip)
    {
      hide StackOf, CanRead, PPop, PTop, IsNumberText, CNames;
      w := tos;
      x := Ppop();
      if w < 2 {
        tos := 0;
      } else if !CanRead(env.mem, x, w) {
        mark := Undefined;
      } else {
        var flag := Numbers.IsNumberLoop(ReadChars(env.mem, x, w));
        tos := if flag then TRUE else 0;
      }
    }

    method DoToNumber()
      requires Valid() && mark == AtNext
      modifies this
      ensures Valid() && Data() == ExecToNumber(old(Data())) && ip == old(ip)
    {
      hide StackOf, CanRead, PPop, PTop, NumberOf, CNames;
      w := tos;
      x := Ppop();
      if w < 2 {
        tos := 0;
      } else if !CanRead(env.mem, x, w) {
        mark := Undefined;
      } else {
        var wp := ReadChars(env.mem, x, w);
        if wp[0] == 36 && |wp| > 17 {
          mark := Undefined;
        } else {
          tos := Numbers.ToNumberLoop(wp);
        }
      }
    }

    /** forth_word_new: the struct at the dictionary pointer, then the name and its NUL. */
    method NewWord(name: seq<nat>) returns (word: Addr)
      requires Valid() && mark == AtNext && 0 in name
      modifies this
      ensures Valid() && Data() == CreateWord(old(Data()), Terminated(name)) && word == old(env.dp)
      ensures tos == old(tos) && ip == old(ip) && mark in {AtNext, Undefined}
    {
      hide StackOf;
      word := env.dp;
      var len := Wstrlen(name);
      TerminatedPrefix(name);
      var text := name[..len];
      if word < RAM {
        mark := Undefined;
        return;
      }
      var dp := word + HEADER_BYTES;
      dp := dp + 2;
      dp := dp + 2 * len;
      var header := Header(env.latest, text, false, Call, 0, dp);
      env := env.(mem := Overwrite(env.mem, word, Word(header)), dp := dp);
    }

    method DoWordNew()
      requires Valid() && mark == AtNext
      modifies this
      ensures Valid() && Data() == ExecWordNew(old(Data())) && ip == old(ip)
    {
      hide StackOf, Terminated, CanRead, PPop, PTop, CreateWord, CNames, ReadChars, Overwrite, HeaderSize;
      w := tos;
      x := Ppop();
      if w > NAME_MAXLEN {
        tos := 0;
      } else if !CanRead(env.mem, x, w) {
        mark := Undefined;
      } else {
        var name := Buffer(x, w);
        tos := NewWord(name);
      }
    }

    /** The opcodes that read a field of the word at tos. */
    method DoHeader(op: Op)
      requires Valid() && mark == AtNext && (op.IsImmediate? || op.XtToPrev? || op.XtToBody? || op.BlenLoad?)
      modifies this
      ensures Valid() && Data() == ExecHeader(op, old(Data())) && ip == old(ip)
    {
      hide StackOf, CNames;
      if !HasWord(env.mem, tos) {
        mark := Undefined;
        return;
      }
      var word := env.mem[tos].h;
      var v := match op
        case IsImmediate => (if word.immediate then TRUE else 0)
        case XtToPrev => word.prev
        case XtToBody => word.body
        case BlenLoad => word.blen;
      tos := v;
    }

    method DoBlenStore()
      requires Valid() && mark == AtNext
      modifies this
      ensures Valid() && Data() == ExecBlenStore(old(Data())) && ip == old(ip)
    {
      hide StackOf, PPop, PTop, Stored;
      var word := tos;
      if !HasWord(env.mem, word) {
        mark := Undefined;
        return;
      }
      var v := Ppop();
      env := env.(mem := env.mem[word := Word(env.mem[word].h.(blen := v))]);
      StoresTail();
    }

    method DoCompile(on: bool)
      requires Valid() && mark == AtNext
      modifies this
      ensures Valid() && Data() == old(Data()).(env := old(env).(comp := on)) && ip == old(ip)
    {
      hide StackOf;
      env := env.(comp := on);
    }

    method DoInterp(op: Op)
      requires Valid() && mark == AtNext && ClassOf(op) == Interp
      modifies this, pstack
      ensures Valid() && Data() == ExecInterp(op, old(Data())) && ip == old(ip)
    {
      hide StackOf, CNames, ExecInterp, ExecFind, ExecIsNumber, ExecToNumber, ExecWordNew, ExecHeader, ExecBlenStore,
        ExecPush, ClassOf;
      InterpSpec(op, Data());
      InterpOps(op);
      if op.Find? {
        DoFind();
      } else if op.IsNumber? {
        DoIsNumber();
      } else if op.ToNumber? {
        DoToNumber();
      } else if op.WordNew? {
        DoWordNew();
      } else if op.BlenStore? {
        DoBlenStore();
      } else if op.CompOn? || op.CompOff? {
        DoCompile(op.CompOn?);
      } else if op.CompSta? || op.Wib? || op.Win? {
        DoPushes(op);
      } else {
        DoHeader(op);
      }
    }

    /** BRANCH and LIT, which read the cell at ip. */
    method DoInline(op: Op)
      requires Valid() && mark == AtNext && (op.Branch? || op.Lit?)
      modifies this, pstack
      ensures Valid() && forall h :: View() == ExecControl(op, h, old(View()))
    {
      hide StackOf, CNames, Load;
      if !(ip in env.mem && env.mem[ip].Cell?) {
        mark := Undefined;
      } else if op.Branch? {
        ip := env.mem[ip].v;
      } else {
        Blind(Data(), ip, env.mem[ip].v);
        Pushing(env.mem[ip].v);
        ip := ip + 8;
      }
    }

    /** The flag of ZBRANCH goes to w. */
    method PopFlag()
      requires Valid() && mark == AtNext
      modifies this
      ensures Valid() && Data() == PPop(old(Data())).(tos := PTop(old(Data())))
      ensures w == old(tos) && ip == old(ip) && mark == AtNext && env == old(env)
    {
      hide StackOf, CNames, PPop, PTop;
      w := tos;
      tos := Ppop();
    }

    method DoZBranch(h: Header)
      requires Valid() && mark == AtNext
      modifies this
      ensures Valid() && View() == ExecControl(ZBranch, h, old(View()))
    {
      hide StackOf, CNames, PPop, PTop, ExecControl;
      Blind(Data(), ip, 0);
      BranchSpec(View(), h);
      PopFlag();
      BranchOnZero();
    }

    /** With the flag in w: past the address, or to it. */
    method BranchOnZero()
      requires Valid() && mark == AtNext
      modifies this`ip, this`mark
      ensures Valid() && Data() == old(Data()).(pc := Pc())
      ensures old(ip) in env.mem && env.mem[old(ip)].Cell? ==>
        mark == AtNext && ip == if w == 0 then env.mem[old(ip)].v else old(ip) + 8
      ensures !(old(ip) in env.mem && env.mem[old(ip)].Cell?) ==>
        ip == old(ip) + 8 && mark == if w == 0 then Undefined else AtNext
    {
      ip := ip + 8;
      if w == 0 {
        if ip - 8 in env.mem && env.mem[ip - 8].Cell? {
          ip := env.mem[ip - 8].v;
        } else {
          mark := Undefined;
        }
      }
    }

    method DoCalls(op: Op, h: Header)
      requires Valid() && mark == AtNext && (op.Call? || op.Exit?)
      modifies this, rstack
      ensures Valid() && View() == ExecControl(op, h, old(View()))
    {
      hide StackOf, CNames, RPush, RPop, RTop;
      Blind(Data(), ip, ip);
      if op.Exit? {
        ip := Rpop();
      } else {
        Rpush(ip);
        ip := h.body;
      }
    }

    method DoConstant(h: Header)
      requires Valid() && mark == AtNext
      modifies this, pstack
      ensures Valid() && View() == ExecControl(DoConst, h, old(View()))
    {
      hide StackOf, CNames, Load;
      if h.body in env.mem && env.mem[h.body].Cell? {
        Blind(Data(), ip, env.mem[h.body].v);
        Pushing(env.mem[h.body].v);
      } else {
        mark := Undefined;
      }
    }

    method DoExecute()
      requires Valid() && mark == AtNext
      modifies this
      ensures Valid() && forall h :: View() == ExecControl(Execute, h, old(View()))
    {
      hide StackOf, CNames, PPop, PTop;
      Blind(Data(), ip, 0);
      var xt := tos;
      tos := Ppop();
      w := xt;
      mark := AtExec;
    }

    method DoControl(op: Op, h: Header)
      requires Valid() && mark == AtNext && ClassOf(op) == Control
      modifies this, pstack, rstack
      ensures Valid() && View() == ExecControl(op, h, old(View()))
    {
      hide StackOf, CNames, ExecControl;
      match op {
        case Branch | Lit => DoInline(op);
        case ZBranch => DoZBranch(h);
        case Call | Exit => DoCalls(op, h);
        case DoConst => DoConstant(h);
        case Execute => DoExecute();
        case HaltOp => HaltSpec(View(), h); mark := Halted;
      }
    }

    /** The switch of forth_run. */
    method Dispatch(h: Header)
      requires Valid() && mark == AtNext
      modifies this, pstack, rstack
      ensures Valid() && View() == ExecOp(h, old(View()))
    {
      hide StackOf, CNames, ExecControl, ExecStack, ExecArith, ExecMemory, ExecInterp, ClassOf;
      match ClassOf(h.op) {
        case Control => DoControl(h.op, h);
        case Stacks => DoStack(h.op);
        case Arith => DoArith(h.op);
        case Mems => DoMemory(h.op);
        case Interp => DoInterp(h.op);
        case Unmodelled => mark := Undefined;
      }
    }

    /** From one label of forth_run to the next. */
    method Go()
      requires Valid()
      modifies this, pstack, rstack
      ensures Valid() && View() == Step(old(View()))
    {
      hide StackOf, CNames, ExecOp, Load;
      match mark {
        case AtNext =>
          if ip in env.mem && env.mem[ip].Cell? {
            w := env.mem[ip].v;
            ip := ip + 8;
            mark := AtExec;
          } else {
            mark := Undefined;
          }
        case AtExec =>
          if HasWord(env.mem, w) {
            mark := AtNext;
            Dispatch(env.mem[w].h);
          } else {
            mark := Undefined;
          }
        case AtWaitKey =>
          if env.keys != [] { TakeKey(); }
        case AtWaitDelay =>
          if env.done {
            env := env.(done := false);
            mark := AtNext;
          }
        case Halted =>
        case Undefined =>
      }
    }

    /** From forth_wait_early_wkey on, with a key in the FIFO. */
    method TakeKey()
      requires Valid() && mark == AtWaitKey && env.keys != []
      modifies this, pstack
      ensures Valid() && View() == Step(old(View()))
    {
      hide StackOf, CNames, Load;
      var key := env.keys[0];
      mark := AtNext;
      env := env.(keys := env.keys[1..]);
      Blind(Data(), ip, key);
      Pushing(key);
    }

    /** forth_run, for at most n labels: it returns where it has to wait, and when it is called again it
        goes on from there. */
    method Run(n: nat)
      requires Valid()
      modifies this, pstack, rstack
      ensures Valid() && View() == Machine.Run(old(View()), n)
    {
      hide StackOf, CNames, Step;
      var i := 0;
      while i < n
        invariant i <= n && Valid()
        invariant Machine.Run(View(), n - i) == Machine.Run(old(View()), n)
      {
        if mark in {AtWaitKey, AtWaitDelay, Halted, Undefined} && !Ready() {
          Stuck(View(), n - i);
          return;
        }
        Go();
        i := i + 1;
      }
    }

    predicate Ready()
      reads this
    {
      (mark == AtWaitKey && env.keys != []) || (mark == AtWaitDelay && env.done)
    }
  }

  lemma BranchSpec(s: State, h: Header)
    ensures s.tos != 0 ==> ExecControl(ZBranch, h, s) == PPop(s).(tos := PTop(s), ip := s.ip + 8)
    ensures s.tos == 0 && s.ip in s.env.mem && s.env.mem[s.ip].Cell? ==>
      ExecControl(ZBranch, h, s) == PPop(s).(tos := PTop(s), ip := s.env.mem[s.ip].v)
    ensures s.tos == 0 && !(s.ip in s.env.mem && s.env.mem[s.ip].Cell?) ==>
      ExecControl(ZBranch, h, s) == Crash(PPop(s).(tos := PTop(s), ip := s.ip + 8))
  {
  }

  lemma HaltSpec(s: State, h: Header)
    ensures ExecControl(HaltOp, h, s) == s.(pc := Halt)
  {
  }

  /** Nothing happens at a wait label until what it waits for has come. */
  lemma {:induction false} Stuck(s: State, n: nat)
    requires (s.pc == WaitKey && s.env.keys == []) || (s.pc == WaitDelay && !s.env.done)
      || s.pc == Halt || s.pc == Fault
    ensures Machine.Run(s, n) == s
    decreases n
  {
    hide ExecOp;
    if n > 0 { Stuck(s, n - 1); }
  }
}
