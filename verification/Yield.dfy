/** Waiting is invisible: forth_run returns whenever it has to wait and is re-entered at the label it
    saved, yet what it computes depends only on the keys, not on when they arrive. */
module Yield {
  import opened Words
  import opened Memory
  import opened Opcodes
  import opened Machine
  import opened Blind

  /** Characters that early_wkey_fifo holds at most. */
  const FIFO_ROOM: nat := 127

  /** What may happen next: a keystroke arrives, the timer fires, or forth_run gets on by one label
      (after a return, by being called again). */
  datatype Event = Key(k: nat) | Timer | Go

  /** cb_ConInWaitForKey, cb_DelayUs, or forth_run. */
  function Happen(s: State, e: Event): State {
    match e
    case Key(k) =>
      if |s.env.keys| < FIFO_ROOM then s.(env := s.env.(keys := s.env.keys + [k]))
      else s.(env := s.env.(out := s.env.out + Codes("EARLY WKEY FIFO IS FULL\r\n")))
    case Timer => s.(env := s.env.(done := true))
    case Go => Step(s)
  }

  function Play(s: State, es: seq<Event>): State
    decreases |es|
  {
    if es == [] then s else Play(Happen(s, es[0]), es[1..])
  }

  function Keys(es: seq<Event>): seq<nat> {
    if es == [] then []
    else if es[0].Key? then [es[0].k] + Keys(es[1..])
    else Keys(es[1..])
  }

  /** No keystroke finds the FIFO full. */
  predicate NoOverflow(s: State, es: seq<Event>)
    decreases |es|
  {
    es == [] || ((es[0].Key? ==> |s.env.keys| < FIFO_ROOM) && NoOverflow(Happen(s, es[0]), es[1..]))
  }

  /** The machine that never waits: it has the whole list of keys from the start, and no delay takes
      any time. */
  function Straight(s: State): State {
    if s.pc == WaitDelay then s.(pc := Next) else Step(s)
  }

  function StraightRun(s: State, n: nat): State
    decreases n
  {
    if n == 0 then s else StraightRun(Straight(s), n - 1)
  }

  /** s as the machine that never waits sees it when the keys `more` are still to come. */
  function Ahead(s: State, more: seq<nat>): State {
    s.(env := s.env.(keys := s.env.keys + more, done := false))
  }

  predicate Blocked(s: State) {
    || (s.pc == WaitKey && s.env.keys == [])
    || (s.pc == WaitDelay && !s.env.done)
    || s.pc == Halt || s.pc == Fault
  }

  lemma AheadPops(s: State, more: seq<nat>)
    ensures PPop(Ahead(s, more)) == Ahead(PPop(s), more) && PTop(Ahead(s, more)) == PTop(s)
    ensures RPop(Ahead(s, more)) == Ahead(RPop(s), more) && RTop(Ahead(s, more)) == RTop(s)
  {
  }

  lemma AheadPushes(s: State, v: nat, more: seq<nat>)
    ensures PPush(Ahead(s, more), v) == Ahead(PPush(s, v), more)
    ensures RPush(Ahead(s, more), v) == Ahead(RPush(s, v), more)
  {
  }

  /** The fields that opcodes assign to. */
  lemma AheadFields(s: State, tos: nat, pc: Ctl, more: seq<nat>)
    ensures Ahead(s.(tos := tos), more) == Ahead(s, more).(tos := tos)
    ensures Ahead(s.(pc := pc), more) == Ahead(s, more).(pc := pc)
    ensures Ahead(s, more).tos == s.tos && Ahead(s, more).ds == s.ds && Ahead(s, more).dn == s.dn
    ensures Ahead(Crash(s), more) == Crash(Ahead(s, more))
  {
  }

  lemma AheadStack(op: Op, s: State, more: seq<nat>)
    requires ClassOf(op) == Stacks
    ensures ExecStack(op, Ahead(s, more)) == Ahead(ExecStack(op, s), more)
  {
    hide ExecStack, ClassOf;
    StackBlind(op, s, Ahead(s, more).env);
  }

  lemma AheadArith(op: Op, s: State, more: seq<nat>)
    ensures ExecArith(op, Ahead(s, more)) == Ahead(ExecArith(op, s), more)
  {
    hide ExecArith;
    ArithBlind(op, s, Ahead(s, more).env);
  }

  lemma AheadLoad(s: State, v: nat, more: seq<nat>)
    ensures Load(Ahead(s, more), v) == Ahead(Load(s, v), more)
  {
  }

  lemma AheadLoads(op: Op, s: State, more: seq<nat>)
    requires !op.CStore? && !op.WStore? && !op.LStore? && !op.XStore?
    ensures ExecMemory(op, Ahead(s, more)) == Ahead(ExecMemory(op, s), more)
  {
    hide ExecMemory;
    if op.CLoad? || op.WLoad? || op.LLoad? || op.XLoad? {
      AheadFetch(op, s, more);
    } else if Loads(op) {
      AheadAddress(op, s, more);
    } else {
      AheadOther(op, s, more);
    }
  }

  lemma AheadOther(op: Op, s: State, more: seq<nat>)
    requires !op.CLoad? && !op.WLoad? && !op.LLoad? && !op.XLoad? && !Loads(op)
    requires !op.CStore? && !op.WStore? && !op.LStore? && !op.XStore?
    ensures ExecMemory(op, Ahead(s, more)) == Ahead(ExecMemory(op, s), more)
  {
    hide ExecEmit, ExecDelay, Ahead;
    AheadFields(s, 0, WaitKey, more);
    AheadEmit(s, more);
  }

  lemma AheadFetch(op: Op, s: State, more: seq<nat>)
    requires op.CLoad? || op.WLoad? || op.LLoad? || op.XLoad?
    ensures ExecMemory(op, Ahead(s, more)) == Ahead(ExecMemory(op, s), more)
  {
    hide Peek, Ahead, Crash;
    AheadPeek(s, more);
    AheadEnv(s, more);
    AheadFields(s, 0, Halt, more);
    AheadTos(s, more);
  }

  lemma AheadPush(op: Op, s: State, more: seq<nat>)
    ensures ExecPush(op, Ahead(s, more)) == Ahead(ExecPush(op, s), more)
  {
    hide ExecPush;
    PushBlind(op, s, Ahead(s, more).env);
  }

  lemma AheadAddress(op: Op, s: State, more: seq<nat>)
    requires Loads(op)
    ensures ExecMemory(op, Ahead(s, more)) == Ahead(ExecMemory(op, s), more)
  {
    hide ExecPush, Ahead, ExecLoad, ExecStore, ExecEmit, ExecDelay;
    AheadPush(op, s, more);
  }

  lemma AheadEmit(s: State, more: seq<nat>)
    ensures ExecEmit(Ahead(s, more)) == Ahead(ExecEmit(s), more)
    ensures ExecDelay(Ahead(s, more)) == Ahead(ExecDelay(s), more)
  {
  }

  predicate Loads(op: Op) {
    op.DpVar? || op.StaLoad? || op.UserWEmit? || op.UserWKey? || op.UserDot?
  }

  lemma AheadPeek(s: State, more: seq<nat>)
    ensures Peek(Ahead(s, more).env, s.tos) == Peek(s.env, s.tos)
  {
  }

  lemma AheadChunk(s: State, a: Addr, c: Chunk, more: seq<nat>)
    ensures StoreChunk(Ahead(s, more), a, c) == Ahead(StoreChunk(s, a, c), more)
  {
    hide Writable;
  }

  lemma AheadCell(s: State, a: Addr, v: nat, more: seq<nat>)
    ensures StoreCell(Ahead(s, more), a, v) == Ahead(StoreCell(s, a, v), more)
  {
    hide Writable;
  }

  lemma AheadStored(s: State, more: seq<nat>)
    ensures Stored(Ahead(s, more)) == Ahead(Stored(s), more)
  {
  }

  lemma AheadStores(op: Op, s: State, more: seq<nat>)
    requires op.CStore? || op.WStore? || op.LStore? || op.XStore?
    ensures ExecMemory(op, Ahead(s, more)) == Ahead(ExecMemory(op, s), more)
  {
    hide StoreChunk, StoreCell, Stored, PPop, PTop, Ahead;
    AheadFields(s, 0, Halt, more);
    AheadPops(s, more);
    var t, v := PPop(s), PTop(s);
    match op {
      case CStore =>
        AheadChunk(t, s.tos, Byte(v % 0x100), more);
        AheadStored(StoreChunk(t, s.tos, Byte(v % 0x100)), more);
      case WStore =>
        AheadChunk(t, s.tos, Wide(v % 0x1_0000), more);
        AheadStored(StoreChunk(t, s.tos, Wide(v % 0x1_0000)), more);
      case LStore =>
        AheadChunk(t, s.tos, Long(v % 0x1_0000_0000), more);
        AheadStored(StoreChunk(t, s.tos, Long(v % 0x1_0000_0000)), more);
      case XStore => AheadCell(t, s.tos, v, more); AheadStored(StoreCell(t, s.tos, v), more);
    }
  }

  /** Opcodes that read a string. */
  predicate Reads(op: Op) {
    op.Find? || op.IsNumber? || op.ToNumber? || op.WordNew?
  }

  lemma AheadEnv(s: State, more: seq<nat>)
    ensures Ahead(s, more).env.mem == s.env.mem && Ahead(s, more).env.latest == s.env.latest
    ensures Ahead(s, more).env.dp == s.env.dp && Ahead(s, more).env.wib == s.env.wib
      && Ahead(s, more).env.comp == s.env.comp
  {
  }

  lemma AheadReads(op: Op, s: State, more: seq<nat>)
    requires Reads(op)
    ensures ExecInterp(op, Ahead(s, more)) == Ahead(ExecInterp(op, s), more)
  {
    hide Search, Terminated, IsNumberText, NumberOf, CanRead, PPop, PTop, CreateWord, Ahead, Crash, Flag;
    AheadPops(s, more);
    AheadEnv(s, more);
    AheadFields(s, 0, Halt, more);
    AheadFields(PPop(s), 0, Halt, more);
    AheadTos(PPop(s), more);
    if op.WordNew? && s.tos <= NAME_MAXLEN && CanRead(s.env.mem, PTop(s), s.tos) {
      var name := Terminated(ReadChars(s.env.mem, PTop(s), s.tos));
      AheadCreates(PPop(s), name, more);
      AheadTos(CreateWord(PPop(s), name), more);
    }
  }

  lemma AheadTos(s: State, more: seq<nat>)
    ensures forall v: nat :: Ahead(s.(tos := v), more) == Ahead(s, more).(tos := v)
  {
  }

  lemma AheadCreates(s: State, name: seq<nat>, more: seq<nat>)
    ensures CreateWord(Ahead(s, more), name) == Ahead(CreateWord(s, name), more)
  {
    hide Free, HeaderSize;
  }

  lemma AheadInterp(op: Op, s: State, more: seq<nat>)
    ensures ExecInterp(op, Ahead(s, more)) == Ahead(ExecInterp(op, s), more)
  {
    hide ExecInterp;
    if Reads(op) {
      AheadReads(op, s, more);
    } else if op.BlenStore? {
      AheadBlen(s, more);
    } else {
      AheadOthers(op, s, more);
    }
  }

  lemma AheadOthers(op: Op, s: State, more: seq<nat>)
    requires !Reads(op) && !op.BlenStore?
    ensures ExecInterp(op, Ahead(s, more)) == Ahead(ExecInterp(op, s), more)
  {
    hide ExecFind, ExecIsNumber, ExecToNumber, ExecWordNew, ExecBlenStore, ExecHeader, ExecPush, Ahead;
    AheadFields(s, 0, Halt, more);
    AheadComp(s, op.CompOn?, more);
    AheadPush(op, s, more);
    if op.IsImmediate? || op.XtToPrev? || op.XtToBody? || op.BlenLoad? { AheadHeader(op, s, more); }
  }

  lemma AheadHeader(op: Op, s: State, more: seq<nat>)
    requires op.IsImmediate? || op.XtToPrev? || op.XtToBody? || op.BlenLoad?
    ensures ExecHeader(op, Ahead(s, more)) == Ahead(ExecHeader(op, s), more)
  {
    hide Ahead, Crash;
    AheadEnv(s, more);
    AheadFields(s, 0, Halt, more);
    AheadTos(s, more);
  }

  lemma AheadComp(s: State, on: bool, more: seq<nat>)
    ensures Ahead(s.(env := s.env.(comp := on)), more) == Ahead(s, more).(env := Ahead(s, more).env.(comp := on))
  {
  }

  lemma AheadMem(t: State, s: State, m: Mem, more: seq<nat>)
    ensures Ahead(t.(env := s.env.(mem := m)), more) == Ahead(t, more).(env := Ahead(s, more).env.(mem := m))
  {
  }

  lemma AheadBlen(s: State, more: seq<nat>)
    ensures ExecInterp(BlenStore, Ahead(s, more)) == Ahead(ExecInterp(BlenStore, s), more)
  {
    hide PPop, PTop, Stored, Ahead;
    AheadPops(s, more);
    AheadEnv(s, more);
    AheadFields(s, 0, Halt, more);
    if HasWord(s.env.mem, s.tos) {
      var m := s.env.mem[s.tos := Word(s.env.mem[s.tos].h.(blen := PTop(s)))];
      AheadMem(PPop(s), s, m, more);
      AheadStored(PPop(s).(env := s.env.(mem := m)), more);
    }
  }

  lemma AheadControl(op: Op, h: Header, s: State, more: seq<nat>)
    ensures ExecControl(op, h, Ahead(s, more)) == Ahead(ExecControl(op, h, s), more)
  {
    hide ExecControl;
    if op.ZBranch? {
      AheadBranch(h, s, more);
    } else if op.Lit? || op.DoConst? {
      AheadInline(op, h, s, more);
    } else {
      AheadCalls(op, h, s, more);
    }
  }

  lemma AheadInline(op: Op, h: Header, s: State, more: seq<nat>)
    requires op.Lit? || op.DoConst?
    ensures ExecControl(op, h, Ahead(s, more)) == Ahead(ExecControl(op, h, s), more)
  {
    hide Load, Ahead;
    AheadEnv(s, more);
    AheadIp(s, 0, more);
    AheadFields(s, 0, Halt, more);
    if op.Lit? && s.ip in s.env.mem && s.env.mem[s.ip].Cell? {
      AheadLoad(s, s.env.mem[s.ip].v, more);
      AheadIp(Load(s, s.env.mem[s.ip].v), s.ip + 8, more);
    }
    if op.DoConst? && h.body in s.env.mem && s.env.mem[h.body].Cell? { AheadLoad(s, s.env.mem[h.body].v, more); }
  }

  lemma AheadCalls(op: Op, h: Header, s: State, more: seq<nat>)
    requires !op.ZBranch? && !op.Lit? && !op.DoConst?
    ensures ExecControl(op, h, Ahead(s, more)) == Ahead(ExecControl(op, h, s), more)
  {
    hide PPop, PTop, RPop, RTop, RPush, Ahead, Crash;
    AheadEnv(s, more);
    AheadPops(s, more);
    AheadPushes(s, s.ip, more);
    AheadFields(s, 0, Halt, more);
    AheadIp(s, RTop(s), more);
    if op.Branch? && s.ip in s.env.mem && s.env.mem[s.ip].Cell? { AheadIp(s, s.env.mem[s.ip].v, more); }
    if op.Call? { AheadIp(RPush(s, s.ip), h.body, more); }
    if op.Exit? { AheadIp(RPop(s), RTop(s), more); }
    if op.Execute? { AheadTos(PPop(s), more); AheadFields(PPop(s).(tos := PTop(s)), 0, Exec(s.tos), more); }
  }

  lemma AheadBranch(h: Header, s: State, more: seq<nat>)
    ensures ExecControl(ZBranch, h, Ahead(s, more)) == Ahead(ExecControl(ZBranch, h, s), more)
  {
  }

  lemma AheadIp(s: State, ip: Addr, more: seq<nat>)
    ensures Ahead(s.(ip := ip), more) == Ahead(s, more).(ip := ip) && Ahead(s, more).ip == s.ip
  {
  }

  /** No opcode looks at the pending keys or the timer flag. */
  lemma AheadOp(h: Header, s: State, more: seq<nat>)
    ensures ExecOp(h, Ahead(s, more)) == Ahead(ExecOp(h, s), more)
  {
    hide ExecData, ExecControl, Ahead, ClassOf;
    AheadFields(s, 0, Halt, more);
    if ClassOf(h.op) == Control {
      AheadControl(h.op, h, s, more);
    } else {
      AheadIp(s, 0, more);
      AheadData(h.op, s.(ip := 0), more);
      AheadIp(ExecData(h.op, s.(ip := 0)), s.ip, more);
    }
  }

  lemma AheadData(op: Op, s: State, more: seq<nat>)
    ensures ExecData(op, Ahead(s, more)) == Ahead(ExecData(op, s), more)
  {
    hide ExecStack, ExecArith, ExecMemory, ExecInterp, Ahead;
    AheadFields(s, 0, Halt, more);
    match ClassOf(op) {
      case Stacks => AheadStack(op, s, more);
      case Arith => AheadArith(op, s, more);
      case Mems =>
        if op.CStore? || op.WStore? || op.LStore? || op.XStore? {
          AheadStores(op, s, more);
        } else {
          AheadLoads(op, s, more);
        }
      case Interp => AheadInterp(op, s, more);
      case _ =>
    }
  }

  /** One label of forth_run is one label of the machine that never waits, or a wait. */
  lemma GoAhead(s: State, more: seq<nat>)
    ensures Blocked(s) ==> Step(s) == s
    ensures !Blocked(s) ==> Straight(Ahead(s, more)) == Ahead(Step(s), more)
  {
    hide ExecOp;
    if s.pc.Exec? && HasWord(s.env.mem, s.pc.w) {
      AheadOp(s.env.mem[s.pc.w].h, s.(pc := Next), more);
    } else if s.pc == WaitKey && s.env.keys != [] {
      assert (s.env.keys + more)[1..] == s.env.keys[1..] + more;
    }
  }

  /** Arrivals change nothing in what is ahead. */
  lemma ArriveAhead(s: State, e: Event, more: seq<nat>)
    requires !e.Go? && (e.Key? ==> |s.env.keys| < FIFO_ROOM)
    ensures Ahead(Happen(s, e), more) == Ahead(s, if e.Key? then [e.k] + more else more)
  {
    if e.Key? { assert s.env.keys + [e.k] + more == s.env.keys + ([e.k] + more); }
  }

  /** Yield transparency. Whatever the schedule of keystrokes, timer callbacks and calls of forth_run,
      the state it leads to is one the machine that never waits comes through, with the keys not yet
      consumed still in its list: stacks, memory and output are the same. */
  lemma {:induction false} Transparent(s: State, es: seq<Event>, more: seq<nat>) returns (n: nat)
    requires NoOverflow(s, es)
    ensures StraightRun(Ahead(s, Keys(es) + more), n) == Ahead(Play(s, es), more)
    decreases |es|
  {
    if es == [] {
      n := 0;
      assert Keys(es) + more == more;
    } else {
      var t := Happen(s, es[0]);
      var later := Keys(es[1..]) + more;
      n := Transparent(t, es[1..], more);
      match es[0] {
        case Key(k) =>
          ArriveAhead(s, es[0], later);
          assert Keys(es) + more == [k] + later;
        case Timer =>
          ArriveAhead(s, es[0], later);
        case Go =>
          GoAhead(s, later);
          if !Blocked(s) { n := n + 1; }
      }
    }
  }

  /** The same, with nothing left to arrive. */
  lemma Delivered(s: State, es: seq<Event>) returns (n: nat)
    requires NoOverflow(s, es)
    ensures StraightRun(Ahead(s, Keys(es)), n) == Ahead(Play(s, es), [])
  {
    assert Keys(es) + [] == Keys(es);
    n := Transparent(s, es, []);
  }

  /** Waiting for a key, or stopped for good. */
  predicate Settled(s: State) {
    (s.pc == WaitKey && s.env.keys == []) || s.pc == Halt || s.pc == Fault
  }

  lemma {:induction false} SettledStays(s: State, n: nat)
    requires Settled(s)
    ensures StraightRun(s, n) == s
    decreases n
  {
    if n > 0 { SettledStays(s, n - 1); }
  }

  lemma {:induction false} StraightAdd(s: State, m: nat, n: nat)
    ensures StraightRun(s, m + n) == StraightRun(StraightRun(s, m), n)
    decreases m
  {
    hide Straight;
    if m > 0 { StraightAdd(Straight(s), m - 1, n); }
  }

  /** Two schedules that deliver the same keys and run until the machine wants another key, or has
      stopped, end in the same state. */
  lemma SchedulesAgree(s: State, es: seq<Event>, fs: seq<Event>)
    requires NoOverflow(s, es) && NoOverflow(s, fs) && Keys(es) == Keys(fs)
    requires Settled(Play(s, es)) && Settled(Play(s, fs))
    ensures Ahead(Play(s, es), []) == Ahead(Play(s, fs), [])
  {
    hide Straight, Ahead, Play;
    var m := Delivered(s, es);
    var n := Delivered(s, fs);
    var a := Ahead(s, Keys(es));
    StillSettled(Play(s, es));
    StillSettled(Play(s, fs));
    if m <= n {
      StraightAdd(a, m, n - m);
      SettledStays(Ahead(Play(s, es), []), n - m);
    } else {
      StraightAdd(a, n, m - n);
      SettledStays(Ahead(Play(s, fs), []), m - n);
    }
  }

  lemma StillSettled(s: State)
    requires Settled(s)
    ensures Settled(Ahead(s, []))
  {
  }

  // The converse: what the machine that never waits reaches, a schedule reaches.

  lemma {:induction false} PlayConcat(s: State, es: seq<Event>, fs: seq<Event>)
    ensures Play(s, es + fs) == Play(Play(s, es), fs)
    decreases |es|
  {
    if es == [] {
      assert es + fs == fs;
    } else {
      assert (es + fs)[1..] == es[1..] + fs;
      PlayConcat(Happen(s, es[0]), es[1..], fs);
    }
  }

  /** With the timer firing whenever it may, no time is lost. */
  lemma {:induction false} Eager(s: State, n: nat) returns (es: seq<Event>)
    ensures Keys(es) == [] && NoOverflow(s, es)
    ensures Ahead(Play(s, es), []) == StraightRun(Ahead(s, []), n)
    decreases n
  {
    hide Step;
    if n == 0 {
      es := [];
    } else {
      var t := Step(s.(env := s.env.(done := true)));
      var later := Eager(t, n - 1);
      es := [Timer, Go] + later;
      assert es[1..][1..] == later && es[1..] == [Go] + later;
      assert Happen(Happen(s, Timer), Go) == t;
      TimerFires(s);
    }
  }

  lemma TimerFires(s: State)
    ensures Straight(Ahead(s, [])) == Ahead(Step(s.(env := s.env.(done := true))), [])
  {
    var u := s.(env := s.env.(done := true));
    GoAhead(u, []);
    assert Ahead(u, []) == Ahead(s, []);
    if Blocked(u) { BlockedAhead(u); }
  }

  lemma BlockedAhead(s: State)
    requires Blocked(s) && s.env.done
    ensures Straight(Ahead(s, [])) == Ahead(s, [])
  {
  }
}
