/** The inner interpreter forth_run as a step relation on values. */
module Machine {
  import opened Words
  import opened Memory
  import opened Opcodes

  const STACK_DEPTH: nat := 128
  const NAME_MAXLEN: nat := 127
  const TOS_INIT: nat := 0xDEADBEEF
  const BAD_PATTERN: nat := 0xA50FDEAD

  /** Addresses of the C variables that Forth code can name. Their values are fields of the
      state; nothing but their distinctness and their lying below the dictionary is used. */
  const DP_VAR: Addr := 0x10
  const LATEST_VAR: Addr := 0x18
  const WIN_VAR: Addr := 0x20
  const WEMIT_VAR: Addr := 0x28
  const WKEY_VAR: Addr := 0x30
  const DOT_VAR: Addr := 0x38
  /** The dictionary RAM starts here; C's static data lies below it. */
  const RAM: Addr := 0x10_0000

  /** Where forth_run stands: its labels forth_next, forth_exec (with w loaded),
      forth_wait_early_wkey and forth_wait_delayus, or returned for good. `Fault` is a state in
      which the C code has undefined behaviour or leaves what the machine models. */
  datatype Ctl = Next | Exec(w: Addr) | WaitKey | WaitDelay | Halt | Fault

  /** The cells of a stack, the one popped first on the outside. */
  datatype Stack = Empty | Item(top: nat, rest: Stack)

  function Height(k: Stack): nat {
    match k
    case Empty => 0
    case Item(_, r) => 1 + Height(r)
  }

  /** The n-th cell from the top. */
  function Nth(k: Stack, n: nat): nat
    requires n < Height(k)
  {
    if n == 0 then k.top else Nth(k.rest, n - 1)
  }

  /** `ds` and `rs` are the cells from psp up to ps0 and from rsp up to rs0, `dn` and `rn` their
      numbers (so dn stands for psp, rn for rsp); `tos` caches the top of the parameter stack. */
  datatype State = State(
    pc: Ctl, ip: Addr, tos: nat, ds: Stack, dn: nat, rs: Stack, rn: nat, pser: bool, rser: bool, env: Env)

  /** What stack opcodes leave alone: compile state, the dictionary with its pointers, the word
      input buffer, the user variables, pending keys, console output, the timer flag. */
  datatype Env = Env(
    comp: bool, mem: Mem, dp: Addr, latest: Addr,
    wib: Addr, win: nat, wemit: Addr, wkey: Addr, dot: Addr,
    keys: seq<nat>, out: seq<nat>, done: bool)

  function Crash(s: State): State {
    s.(pc := Fault)
  }

  /** forth_ppush. The overflow branch moves psp out of the stack, which is not modelled. */
  function PPush(s: State, v: nat): State {
    if s.dn < STACK_DEPTH then s.(ds := Item(v, s.ds), dn := s.dn + 1) else Crash(s)
  }

  function PTop(s: State): nat {
    if s.dn == 0 || s.ds.Empty? then BAD_PATTERN else s.ds.top
  }

  /** The state after forth_ppop; the value popped is PTop(s). */
  function PPop(s: State): State {
    if s.dn == 0 || s.ds.Empty? then s.(pser := true) else s.(ds := s.ds.rest, dn := s.dn - 1)
  }

  function RPush(s: State, v: nat): State {
    if s.rn < STACK_DEPTH then s.(rs := Item(v, s.rs), rn := s.rn + 1) else Crash(s)
  }

  function RTop(s: State): nat {
    if s.rn == 0 || s.rs.Empty? then BAD_PATTERN else s.rs.top
  }

  function RPop(s: State): State {
    if s.rn == 0 || s.rs.Empty? then s.(rser := true) else s.(rs := s.rs.rest, rn := s.rn - 1)
  }

  /** Push tos and load a new top of stack: the common shape of the pushing opcodes. */
  function Load(s: State, v: nat): State {
    PPush(s, s.tos).(tos := v)
  }

  /** The status register as STA@ pushes it. HALT, CSER and DUMP are never set here. */
  function Sta(s: State): nat {
    (if s.pser then 2 else 0) + (if s.rser then 4 else 0) + (if s.env.comp then 32 else 0)
  }

  datatype Fetched = Value(v: nat) | NoCell

  /** An 8-byte load from a C variable or from memory. */
  function Peek(e: Env, a: Addr): Fetched {
    if a == DP_VAR then Value(e.dp)
    else if a == LATEST_VAR then Value(e.latest)
    else if a == WIN_VAR then Value(e.win)
    else if a == WEMIT_VAR then Value(e.wemit)
    else if a == WKEY_VAR then Value(e.wkey)
    else if a == DOT_VAR then Value(e.dot)
    else if a in e.mem && e.mem[a].Cell? then Value(e.mem[a].v)
    else NoCell
  }

  predicate IsVariable(a: Addr) {
    || a == DP_VAR || a == LATEST_VAR || a == WIN_VAR
    || a == WEMIT_VAR || a == WKEY_VAR || a == DOT_VAR
  }

  /** The address takes the object, and no other object is lost. */
  predicate CanWrite(e: Env, a: Addr, c: Chunk) {
    RAM <= a && Writable(e.mem, a, c)
  }

  /** An 8-byte store to a C variable or to memory. */
  function Poke(e: Env, a: Addr, v: nat): Env {
    if a == DP_VAR then e.(dp := v)
    else if a == LATEST_VAR then e.(latest := v)
    else if a == WIN_VAR then e.(win := v)
    else if a == WEMIT_VAR then e.(wemit := v)
    else if a == WKEY_VAR then e.(wkey := v)
    else if a == DOT_VAR then e.(dot := v)
    else e.(mem := Overwrite(e.mem, a, Cell(v)))
  }

  /** Stores to the static data of the C program are not modelled, but for the variables. */
  function StoreCell(s: State, a: Addr, v: nat): State {
    if IsVariable(a) || RAM <= a then s.(env := Poke(s.env, a, v)) else Crash(s)
  }

  /** A 1, 2 or 4-byte store; the variables above are only stored to whole. */
  function StoreChunk(s: State, a: Addr, c: Chunk): State {
    if RAM <= a then s.(env := s.env.(mem := Overwrite(s.env.mem, a, c))) else Crash(s)
  }

  lemma ChunkFits(s: State, a: Addr, c: Chunk)
    requires CanWrite(s.env, a, c)
    ensures StoreChunk(s, a, c) == s.(env := s.env.(mem := s.env.mem[a := c]))
  {
    hide Writable, Overwrite;
    PutFits(s.env.mem, a, c);
  }

  /** The n characters at a, if n characters are stored there. */
  predicate CanRead(m: Mem, a: Addr, n: nat) {
    forall i :: 0 <= i < n ==> a + 2 * i in m && m[a + 2 * i].Wide?
  }

  function ReadChars(m: Mem, a: Addr, n: nat): (r: seq<nat>)
    requires CanRead(m, a, n)
    ensures |r| == n && HasChars(m, a, r)
  {
    seq(n, i requires 0 <= i < n => m[a + 2 * i].c)
  }

  datatype Lookup = Found(xt: Addr) | Absent | Broken

  /** forth_find from word w. The prev links of a real dictionary go down in memory
      (see DictionaryIndex); a chain that does not is Broken. */
  function Search(m: Mem, w: Addr, name: seq<nat>): Lookup
    decreases w
  {
    if !HasWord(m, w) then Broken
    else if m[w].h.name == name then Found(w)
    else if m[w].h.prev == 0 then Absent
    else if m[w].h.prev < w then Search(m, m[w].h.prev, name)
    else Broken
  }

  predicate IsHexDigit(c: nat) {
    48 <= c <= 57 || 65 <= c <= 70
  }

  predicate IsNumberText(t: seq<nat>) {
    |t| >= 2 && t[0] == 36 && forall i :: 1 <= i < |t| ==> IsHexDigit(t[i])
  }

  /** whex2num, with the CHAR16 arithmetic of its second branch, cast to uintptr_t. */
  function HexValue(c: nat): nat {
    if c <= 57 then Wrap(c - 48) else (c - 65 + 10) % 0x1_0000
  }

  function Digits(t: seq<nat>, acc: nat): nat
    decreases |t|
  {
    if t == [] then acc
    else Digits(t[1..], Or(acc, Wrap(HexValue(t[0]) * Pow2(4 * (|t| - 1)))))
  }

  /** What >NUMBER leaves for the text t. */
  function NumberOf(t: seq<nat>): nat {
    if |t| < 2 || t[0] != 36 then 0 else Digits(t[1..], 0)
  }

  /** The header forth_word_new writes at the dictionary pointer. */
  function NewHeader(e: Env, name: seq<nat>): Header {
    Header(e.latest, name, false, Call, 0, e.dp + HeaderSize(name))
  }

  /** forth_word_new, where nothing lies at the dictionary pointer: the header is stored and the dictionary
      pointer goes past the name. */
  function Created(e: Env, name: seq<nat>): Env {
    e.(mem := e.mem[e.dp := Word(NewHeader(e, name))], dp := e.dp + HeaderSize(name))
  }

  /** forth_word_new, whatever lies there. */
  function CreateWord(s: State, name: seq<nat>): State {
    if RAM <= s.env.dp then
      var m := Overwrite(s.env.mem, s.env.dp, Word(NewHeader(s.env, name)));
      s.(env := s.env.(mem := m, dp := s.env.dp + HeaderSize(name)))
    else Crash(s)
  }

  lemma CreateFits(s: State, name: seq<nat>)
    requires RAM <= s.env.dp && Free(s.env.mem, s.env.dp, HeaderSize(name))
    ensures CreateWord(s, name) == s.(env := Created(s.env, name))
  {
    hide Free, Overwrite, HeaderSize;
    PutFits(s.env.mem, s.env.dp, Word(NewHeader(s.env, name)));
  }

  /** Stack and control opcodes. `s.ip` is already past the cell that was fetched. */
  function ExecStack(op: Op, s: State): State {
    match op
    case Drop => PPop(s).(tos := PTop(s))
    case Dup => PPush(s, s.tos)
    case Swap => PPush(PPop(s), s.tos).(tos := PTop(s))
    case Nip => PPop(s)
    case Over => PPush(PPush(PPop(s), PTop(s)), s.tos).(tos := PTop(s))
    case ToR => PPop(RPush(s, s.tos)).(tos := PTop(s))
    case FromR => RPop(PPush(s, s.tos)).(tos := RTop(s))
    case Pick =>
      if Signed(s.tos) < 0 || Signed(s.tos) > STACK_DEPTH then s.(pser := true, tos := BAD_PATTERN)
      else if s.tos < Height(s.ds) then s.(tos := Nth(s.ds, s.tos))
      else Crash(s)
    case Depth => Load(s, s.dn)
    case Noop => s
    case PzChk => if s.dn != 0 || s.tos != TOS_INIT then s.(pc := Halt) else s
    case EqChk => var t := PPop(s); if s.tos != PTop(s) then t.(pc := Halt) else PPop(t).(tos := PTop(t))
    case PspRst => s.(ds := Empty, dn := 0, tos := TOS_INIT, pser := false)
    case _ => Crash(s)
  }

  /** Opcodes that replace tos without popping. */
  predicate Unary(op: Op) {
    || op.OnePlus? || op.OneMinus? || op.TwoMulti? || op.TwoDivid?
    || op.Invert? || op.Negate? || op.EqZ? || op.NeZ?
  }

  /** Operands on which the C operator is undefined: division by zero, a shift by 64 or more. */
  predicate Trap(op: Op, y: nat) {
    ((op == Divid || op == Mod) && y == 0) || ((op == LShift || op == RShift) && y >= 64)
  }

  /** What an arithmetic opcode leaves for ( x y -- ), or for ( y -- ) if it is unary. */
  function Result(op: Op, x: nat, y: nat): nat {
    match op
    case Plus => Wrap(x + y)
    case OnePlus => Wrap(y + 1)
    case Minus => Wrap(x - y)
    case OneMinus => Wrap(y - 1)
    case Multi => Wrap(x * y)
    case TwoMulti => Wrap(y * 2)
    case Divid => if y == 0 then 0 else x / y
    case TwoDivid => y / 2
    case LShift => Wrap(x * Pow2(y))
    case RShift => x / Pow2(y)
    case AndOp => And(x, y)
    case OrOp => Or(x, y)
    case XorOp => Xor(x, y)
    case Invert => Xor(y, TRUE)
    case Negate => Wrap(0 - y)
    case Mod => if y == 0 then 0 else x % y
    case Eq => Flag(x == y)
    case Ne => Flag(x != y)
    case EqZ => Flag(y == 0)
    case NeZ => Flag(y != 0)
    case Lt => Flag(Signed(x) < Signed(y))
    case Gt => Flag(Signed(x) > Signed(y))
    case ULt => Flag(x < y)
    case UGt => Flag(x > y)
    case _ => 0
  }

  function ExecArith(op: Op, s: State): State {
    if Trap(op, s.tos) then Crash(s)
    else if Unary(op) then s.(tos := Result(op, 0, s.tos))
    else PPop(s).(tos := Result(op, PTop(s), s.tos))
  }

  /** A store opcode: pop the value, store it at tos, pop the new tos. */
  function Stored(t: State): State {
    PPop(t).(tos := PTop(t))
  }

  /** Loads from memory; the address is tos. */
  function ExecLoad(op: Op, s: State): State {
    match op
    case CLoad => if s.tos in s.env.mem && s.env.mem[s.tos].Byte? then s.(tos := s.env.mem[s.tos].b) else Crash(s)
    case WLoad => if s.tos in s.env.mem && s.env.mem[s.tos].Wide? then s.(tos := s.env.mem[s.tos].c) else Crash(s)
    case LLoad => if s.tos in s.env.mem && s.env.mem[s.tos].Long? then s.(tos := s.env.mem[s.tos].l) else Crash(s)
    case XLoad => (match Peek(s.env, s.tos) case Value(v) => s.(tos := v) case NoCell => Crash(s))
    case _ => Crash(s)
  }

  /** Stores to memory: ( value addr -- ). */
  function ExecStore(op: Op, s: State): State {
    match op
    case CStore => Stored(StoreChunk(PPop(s), s.tos, Byte(PTop(s) % 0x100)))
    case WStore => Stored(StoreChunk(PPop(s), s.tos, Wide(PTop(s) % 0x1_0000)))
    case LStore => Stored(StoreChunk(PPop(s), s.tos, Long(PTop(s) % 0x1_0000_0000)))
    case XStore => Stored(StoreCell(PPop(s), s.tos, PTop(s)))
    case _ => Crash(s)
  }

  /** The value that an opcode of the form ( -- x ) pushes, given the status register and the depth. */
  function Pushed(op: Op, sta: nat, e: Env, depth: nat): nat {
    match op
    case DpVar => DP_VAR
    case StaLoad => sta
    case UserWEmit => WEMIT_VAR
    case UserWKey => WKEY_VAR
    case UserDot => DOT_VAR
    case CompSta => Flag(e.comp)
    case Wib => e.wib
    case Win => WIN_VAR
    case Depth => depth
    case _ => 0
  }

  function PushedBy(op: Op, s: State): nat {
    Pushed(op, Sta(s), s.env, s.dn)
  }

  function ExecPush(op: Op, s: State): State {
    Load(s, PushedBy(op, s))
  }

  function ExecEmit(s: State): State {
    PPop(s).(tos := PTop(s), env := s.env.(out := s.env.out + [s.tos % 0x1_0000]))
  }

  /** DELAYUS, with the timer event created and set. */
  function ExecDelay(s: State): State {
    PPop(s).(tos := PTop(s), env := s.env.(done := false), pc := WaitDelay)
  }

  function ExecMemory(op: Op, s: State): State {
    match op
    case CLoad | WLoad | LLoad | XLoad => ExecLoad(op, s)
    case CStore | WStore | LStore | XStore => ExecStore(op, s)
    case DpVar | StaLoad | UserWEmit | UserWKey | UserDot => ExecPush(op, s)
    case EarlyWEmit => ExecEmit(s)
    case EarlyWKey => s.(pc := WaitKey)
    case DelayUs => ExecDelay(s)
    case _ => Crash(s)
  }

  // FIND, NUMBER?, >NUMBER and WORD-NEW take ( waddr count ): count is tos, waddr is popped.

  function ExecFind(s: State): State {
    var t := PPop(s);
    if s.tos > NAME_MAXLEN then t.(tos := 0)
    else if !CanRead(s.env.mem, PTop(s), s.tos) then Crash(t)
    else (match Search(s.env.mem, s.env.latest, Terminated(ReadChars(s.env.mem, PTop(s), s.tos)))
          case Found(xt) => t.(tos := xt)
          case Absent => t.(tos := 0)
          case Broken => Crash(t))
  }

  function ExecIsNumber(s: State): State {
    if s.tos < 2 then PPop(s).(tos := 0)
    else if !CanRead(s.env.mem, PTop(s), s.tos) then Crash(PPop(s))
    else PPop(s).(tos := Flag(IsNumberText(ReadChars(s.env.mem, PTop(s), s.tos))))
  }

  function ExecToNumber(s: State): State {
    if s.tos < 2 then PPop(s).(tos := 0)
    else if !CanRead(s.env.mem, PTop(s), s.tos) then Crash(PPop(s))
    else
      var t := ReadChars(s.env.mem, PTop(s), s.tos);
      // more than sixteen digits shift by 64 or more
      if t[0] == 36 && |t| > 17 then Crash(PPop(s)) else PPop(s).(tos := NumberOf(t))
  }

  function ExecWordNew(s: State): State {
    if s.tos > NAME_MAXLEN then PPop(s).(tos := 0)
    else if !CanRead(s.env.mem, PTop(s), s.tos) then Crash(PPop(s))
    else CreateWord(PPop(s), Terminated(ReadChars(s.env.mem, PTop(s), s.tos))).(tos := s.env.dp)
  }

  /** The field of a header that an opcode reads. */
  function Field(op: Op, h: Header): nat {
    if op.IsImmediate? then Flag(h.immediate)
    else if op.XtToPrev? then h.prev
    else if op.XtToBody? then h.body
    else h.blen
  }

  /** Opcodes that read a field of the word whose address is tos. */
  function ExecHeader(op: Op, s: State): State {
    if HasWord(s.env.mem, s.tos) then s.(tos := Field(op, s.env.mem[s.tos].h)) else Crash(s)
  }

  function ExecBlenStore(s: State): State {
    if HasWord(s.env.mem, s.tos)
    then Stored(PPop(s).(env := s.env.(mem := s.env.mem[s.tos := Word(s.env.mem[s.tos].h.(blen := PTop(s)))])))
    else Crash(s)
  }

  /** Opcodes of the outer interpreter. */
  function ExecInterp(op: Op, s: State): State {
    match op
    case Find => ExecFind(s)
    case IsNumber => ExecIsNumber(s)
    case ToNumber => ExecToNumber(s)
    case WordNew => ExecWordNew(s)
    case IsImmediate | XtToPrev | XtToBody | BlenLoad => ExecHeader(op, s)
    case BlenStore => ExecBlenStore(s)
    case CompOff => s.(env := s.env.(comp := false))
    case CompOn => s.(env := s.env.(comp := true))
    case CompSta | Wib | Win => ExecPush(op, s)
    case _ => Crash(s)
  }

  function ExecControl(op: Op, h: Header, s: State): State {
    match op
    case HaltOp => s.(pc := Halt)
    case Branch => if s.ip in s.env.mem && s.env.mem[s.ip].Cell? then s.(ip := s.env.mem[s.ip].v) else Crash(s)
    case ZBranch =>
      var t := PPop(s).(tos := PTop(s), ip := s.ip + 8);
      if s.tos != 0 then t
      else if s.ip in s.env.mem && s.env.mem[s.ip].Cell? then t.(ip := s.env.mem[s.ip].v)
      else Crash(t)
    case Exit => RPop(s).(ip := RTop(s))
    case Call => RPush(s, s.ip).(ip := h.body)
    case Lit => if s.ip in s.env.mem && s.env.mem[s.ip].Cell? then Load(s, s.env.mem[s.ip].v).(ip := s.ip + 8)
      else Crash(s)
    case DoConst => if h.body in s.env.mem && s.env.mem[h.body].Cell? then Load(s, s.env.mem[h.body].v) else Crash(s)
    case Execute => PPop(s).(tos := PTop(s), pc := Exec(s.tos))
    case _ => Crash(s)
  }

  datatype Class = Control | Stacks | Arith | Mems | Interp | Unmodelled

  function ClassOf(op: Op): Class {
    match op
    case HaltOp | Branch | ZBranch | Exit | Call | Lit | DoConst | Execute => Control
    case Noop | PzChk | EqChk | Drop | Dup | Swap | Nip | Over | ToR | FromR | Pick | Depth | PspRst => Stacks
    case Plus | Minus | OnePlus | OneMinus | Multi | TwoMulti | Divid | TwoDivid
       | LShift | RShift | AndOp | OrOp | XorOp | Invert | Negate | Mod
       | Eq | Ne | EqZ | NeZ | Lt | Gt | ULt | UGt => Arith
    case DpVar | StaLoad | CLoad | WLoad | LLoad | XLoad | CStore | WStore | LStore | XStore
       | EarlyWEmit | EarlyWKey | UserWEmit | UserWKey | UserDot | DelayUs => Mems
    case Find | CompOff | CompOn | CompSta | IsImmediate | Wib | Win | IsNumber | ToNumber
       | WordNew | XtToPrev | XtToBody | BlenLoad | BlenStore => Interp
    case Other(_) => Unmodelled
  }

  /** Only control opcodes see ip. */
  function ExecData(op: Op, s: State): State {
    match ClassOf(op)
    case Stacks => ExecStack(op, s)
    case Arith => ExecArith(op, s)
    case Mems => ExecMemory(op, s)
    case Interp => ExecInterp(op, s)
    case _ => Crash(s)
  }

  function ExecOp(h: Header, s: State): State {
    if ClassOf(h.op) == Control then ExecControl(h.op, h, s)
    else ExecData(h.op, s.(ip := 0)).(ip := s.ip)
  }

  /** One move between labels of forth_run. At a wait label with nothing to wait for any more the
      machine goes on; otherwise forth_run returns, and is re-entered at the same label. */
  function Step(s: State): State {
    match s.pc
    case Next =>
      if s.ip in s.env.mem && s.env.mem[s.ip].Cell? then s.(ip := s.ip + 8, pc := Exec(s.env.mem[s.ip].v)) else Crash(s)
    case Exec(w) =>
      if HasWord(s.env.mem, w) then ExecOp(s.env.mem[w].h, s.(pc := Next)) else Crash(s)
    case WaitKey =>
      if s.env.keys == [] then s else Load(s.(pc := Next, env := s.env.(keys := s.env.keys[1..])), s.env.keys[0])
    case WaitDelay =>
      if s.env.done then s.(pc := Next, env := s.env.(done := false)) else s
    case Halt => s
    case Fault => s
  }

  function Run(s: State, n: nat): State
    decreases n
  {
    if n == 0 then s else Run(Step(s), n - 1)
  }

  ghost predicate Reaches(s: State, t: State) {
    exists n: nat :: Run(s, n) == t
  }

  lemma {:induction false} RunAdd(s: State, m: nat, n: nat)
    ensures Run(Run(s, m), n) == Run(s, m + n)
    decreases m
  {
    if m > 0 { RunAdd(Step(s), m - 1, n); }
  }

  lemma ReachesSelf(s: State)
    ensures Reaches(s, s)
  {
    assert Run(s, 0) == s;
  }

  lemma ReachesStep(s: State, t: State)
    requires Reaches(s, t)
    ensures Reaches(s, Step(t))
  {
    var n: nat :| Run(s, n) == t;
    assert Run(t, 1) == Run(Step(t), 0) == Step(t);
    RunAdd(s, n, 1);
  }

  lemma ReachesTrans(s: State, t: State, u: State)
    requires Reaches(s, t) && Reaches(t, u)
    ensures Reaches(s, u)
  {
    var m: nat :| Run(s, m) == t;
    var n: nat :| Run(t, n) == u;
    RunAdd(s, m, n);
  }
}
