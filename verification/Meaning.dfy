/** What structured programs mean. */
module Meaning {
  import opened Memory
  import opened Opcodes
  import opened Machine
  import opened Builders
  import opened Compiler

  /** A program ends past its last command, or leaves through EXIT, or the machine comes to rest inside it,
      halted or waiting for a key or a timer; or the program does something the semantics does not define, or
      is still looping or calling when the fuel is used up. */
  datatype Outcome = Done(s: State) | Left(s: State) | Rests(s: State) | Stuck | OutOfFuel

  /** The words that compiled code is made of, and the programs that lie in memory, each by the address of its
      code. */
  datatype Lexicon = Lexicon(x: Xts, code: map<Addr, Prog>)

  predicate IsOp(m: Mem, xt: Addr, op: Op) {
    HasWord(m, xt) && m[xt].h.op == op
  }

  predicate Vm(m: Mem, x: Xts) {
    IsOp(m, x.lit, Op.Lit) && IsOp(m, x.branch, Branch) && IsOp(m, x.zbranch, ZBranch) && IsOp(m, x.exit, Exit)
  }

  /** Memory holds the code of every program, and the words it is made of. */
  ghost predicate Standing(m: Mem, c: Lexicon) {
    Vm(m, c.x) && forall a :: a in c.code ==> HasCells(m, a, Cells(c.code[a], a, c.x))
  }

  function Popped(s: State): State {
    PPop(s).(tos := PTop(s))
  }

  /** Where an opcode leaves the machine. A wait for a key ends at once if there is one. */
  ghost function Landed(t: State, c: Lexicon): Outcome {
    if !Standing(t.env.mem, c) then Stuck
    else
      match t.pc
      case Next => Done(t)
      case WaitKey => if t.env.keys == [] then Rests(t) else if Step(t).pc == Next then Done(Step(t)) else Stuck
      case WaitDelay => if t.env.done then Stuck else Rests(t)
      case Halt => Rests(t)
      case _ => Stuck
  }

  /** A word that was called from in front of ret has to come back through EXIT, to there. */
  function Back(o: Outcome, ret: Addr): Outcome {
    match o
    case Left(t) => if t.rn > 0 && t.rs.Item? && t.rs.top == ret then Done(Returned(t)) else Stuck
    case Done(_) => Stuck
    case _ => o
  }

  /** What the word w means; s.ip is where the machine goes on behind it. */
  ghost function EvalWord(w: Addr, s: State, c: Lexicon, fuel: nat): Outcome
    decreases fuel, 0
  {
    if !HasWord(s.env.mem, w) then Stuck
    else
      var h := s.env.mem[w].h;
      match h.op
      case Call =>
        if s.rn >= STACK_DEPTH || h.body !in c.code then Stuck
        else if fuel == 0 then OutOfFuel
        else Back(Eval(c.code[h.body], Called(s), h.body, c, fuel - 1), s.ip)
      case Exit => Left(s)
      case Execute => if fuel == 0 then OutOfFuel else EvalWord(s.tos, Popped(s), c, fuel - 1)
      case Branch | ZBranch | Lit => Stuck
      case _ => Landed(ExecOp(h, s.(pc := Next)), c)
  }

  /** What the program p means whose code lies at base. */
  ghost function Eval(p: Prog, s: State, base: Addr, c: Lexicon, fuel: nat): Outcome
    decreases fuel, 1, p
  {
    match p
    case Nil => Done(s)
    case Seq(cmd, r) =>
      match EvalCmd(cmd, s, base, c, fuel)
      case Done(t) => Eval(r, t, base + 8 * LenCmd(cmd), c, fuel)
      case o => o
  }

  ghost function EvalCmd(cmd: Cmd, s: State, base: Addr, c: Lexicon, fuel: nat): Outcome
    decreases fuel, 1, cmd
  {
    match cmd
    case Prim(xt) => EvalWord(xt, s.(ip := base + 8), c, fuel)
    case Number(n) =>
      if s.dn < STACK_DEPTH then Done(s.(ds := Item(s.tos, s.ds), dn := s.dn + 1, tos := n)) else Stuck
    case If(q) => if s.tos == 0 then Done(Popped(s)) else Eval(q, Popped(s), base + 16, c, fuel)
    case Until(q) =>
      (match Eval(q, s, base, c, fuel)
       case Done(t) =>
         if t.tos != 0 then Done(Popped(t))
         else if fuel == 0 then OutOfFuel else EvalCmd(cmd, Popped(t), base, c, fuel - 1)
       case o => o)
    case Again(q) =>
      (match Eval(q, s, base, c, fuel)
       case Done(t) => if fuel == 0 then OutOfFuel else EvalCmd(cmd, t, base, c, fuel - 1)
       case o => o)
    case Leave => Left(s)
  }

  /** CALL pushes the address behind the call. */
  function Called(s: State): State {
    s.(rs := Item(s.ip, s.rs), rn := s.rn + 1)
  }

  /** The machine about to fetch from a. */
  function Entry(s: State, a: Addr): State {
    s.(pc := Next, ip := a)
  }

  /** After EXIT: back at the return address. */
  function Returned(s: State): State {
    RPop(s).(pc := Next, ip := RTop(s))
  }

  /** What the machine does from e for an outcome: go on at end, or return, or stay where it comes to rest. */
  ghost predicate Realises(e: State, end: Addr, o: Outcome, c: Lexicon) {
    match o
    case Done(t) => Reaches(e, Entry(t, end)) && Standing(t.env.mem, c)
    case Left(t) => Reaches(e, Returned(t)) && Standing(t.env.mem, c)
    case Rests(t) => Reaches(e, t) && Step(t) == t
    case _ => true
  }

  /** vs are cells of a program of the lexicon, at base. */
  ghost predicate Within(base: Addr, vs: seq<nat>, c: Lexicon) {
    exists a: Addr, i: nat :: PartOfCode(base, vs, c, a, i)
  }

  ghost predicate PartOfCode(base: Addr, vs: seq<nat>, c: Lexicon, a: Addr, i: nat) {
    && a in c.code && base == a + 8 * i && i + |vs| <= Len(c.code[a])
    && vs == Cells(c.code[a], a, c.x)[i..i + |vs|]
  }

  /** The code of a program of the lexicon, or of a part of one, is in memory at base. */
  ghost predicate Placed(m: Mem, base: Addr, vs: seq<nat>, c: Lexicon) {
    Standing(m, c) && Within(base, vs, c)
  }

  lemma PlacedCells(m: Mem, base: Addr, vs: seq<nat>, c: Lexicon)
    requires Placed(m, base, vs, c)
    ensures HasCells(m, base, vs) && Vm(m, c.x)
  {
    hide Vm, Cells;
    var a: Addr, i: nat :| PartOfCode(base, vs, c, a, i);
    var us := Cells(c.code[a], a, c.x);
    forall k | 0 <= k < |vs| ensures HasCell(m, base + 8 * k, vs[k]) {
      assert HasCell(m, a + 8 * (i + k), us[i + k]);
    }
  }

  lemma PlacedParts(m: Mem, base: Addr, vs: seq<nat>, ws: seq<nat>, c: Lexicon)
    requires Placed(m, base, vs + ws, c)
    ensures Placed(m, base, vs, c) && Placed(m, base + 8 * |vs|, ws, c)
  {
    hide Standing, Cells;
    var a: Addr, i: nat :| PartOfCode(base, vs + ws, c, a, i);
    var us := Cells(c.code[a], a, c.x);
    var k := i + |vs|;
    assert vs == (vs + ws)[..|vs|] == us[i..k];
    assert ws == (vs + ws)[|vs|..] == us[k..k + |ws|];
    assert PartOfCode(base, vs, c, a, i) && PartOfCode(base + 8 * |vs|, ws, c, a, k);
  }

  /** A whole program is placed. */
  lemma PlacedWhole(m: Mem, a: Addr, c: Lexicon)
    requires Standing(m, c) && a in c.code
    ensures Placed(m, a, Cells(c.code[a], a, c.x), c)
  {
    hide Standing, Cells;
    assert PartOfCode(a, Cells(c.code[a], a, c.x), c, a, 0);
  }

  lemma OneCell(m: Mem, a: Addr, v: nat)
    requires HasCells(m, a, [v])
    ensures HasCell(m, a, v)
  {
    assert HasCell(m, a + 8 * 0, [v][0]);
  }

  lemma IfMeans(q: Prog, s: State, base: Addr, c: Lexicon, fuel: nat)
    ensures EvalCmd(If(q), s, base, c, fuel)
         == if s.tos == 0 then Done(Popped(s)) else Eval(q, Popped(s), base + 16, c, fuel)
  {
  }

  lemma IfCells(q: Prog, base: Addr, x: Xts)
    ensures CellsCmd(If(q), base, x) == [x.zbranch, base + 16 + 8 * Len(q)] + Cells(q, base + 16, x)
  {
  }

  /** The branch in front of an IF body. */
  lemma IfPlaced(q: Prog, m: Mem, base: Addr, c: Lexicon)
    requires Placed(m, base, CellsCmd(If(q), base, c.x), c)
    ensures HasCell(m, base, c.x.zbranch) && HasCell(m, base + 8, base + 16 + 8 * Len(q)) && Vm(m, c.x)
    ensures Placed(m, base + 16, Cells(q, base + 16, c.x), c)
  {
    hide Placed, Cells, CellsCmd, Len, LenCmd, Vm, HasCell;
    var vs := [c.x.zbranch, base + 16 + 8 * Len(q)];
    IfCells(q, base, c.x);
    PlacedParts(m, base, vs, Cells(q, base + 16, c.x), c);
    PlacedPair(m, base, vs, c);
  }

  /** The branch back behind a loop body. */
  lemma LoopPlaced(q: Prog, m: Mem, base: Addr, xt: Addr, c: Lexicon)
    requires Placed(m, base, Cells(q, base, c.x) + [xt, base], c)
    ensures Placed(m, base, Cells(q, base, c.x), c) && Vm(m, c.x)
    ensures HasCell(m, base + 8 * Len(q), xt) && HasCell(m, base + 8 * Len(q) + 8, base)
  {
    hide Placed, Vm, HasCell;
    PlacedParts(m, base, Cells(q, base, c.x), [xt, base], c);
    PlacedPair(m, base + 8 * Len(q), [xt, base], c);
  }

  lemma UntilMeans(q: Prog, s: State, base: Addr, c: Lexicon, fuel: nat)
    ensures EvalCmd(Until(q), s, base, c, fuel)
         == match Eval(q, s, base, c, fuel)
            case Done(t) =>
              if t.tos != 0 then Done(Popped(t))
              else if fuel == 0 then OutOfFuel else EvalCmd(Until(q), Popped(t), base, c, fuel - 1)
            case o => o
  {
  }

  lemma AgainMeans(q: Prog, s: State, base: Addr, c: Lexicon, fuel: nat)
    ensures EvalCmd(Again(q), s, base, c, fuel)
         == match Eval(q, s, base, c, fuel)
            case Done(t) => if fuel == 0 then OutOfFuel else EvalCmd(Again(q), t, base, c, fuel - 1)
            case o => o
  {
  }

  lemma PlacedPair(m: Mem, base: Addr, vs: seq<nat>, c: Lexicon)
    requires Placed(m, base, vs, c) && |vs| == 2
    ensures HasCell(m, base, vs[0]) && HasCell(m, base + 8, vs[1]) && Vm(m, c.x)
  {
    hide Standing, Within, Vm;
    PlacedCells(m, base, vs, c);
    assert HasCell(m, base + 8 * 0, vs[0]) && HasCell(m, base + 8 * 1, vs[1]);
  }

  /** More fuel changes no answer: the bound decides whether there is one, not which. */
  lemma {:induction false} FuelEnough(p: Prog, s: State, base: Addr, c: Lexicon, f: nat, g: nat)
    requires f <= g && Eval(p, s, base, c, f) != OutOfFuel
    ensures Eval(p, s, base, c, g) == Eval(p, s, base, c, f)
    decreases f, 1, p, 0
  {
    hide EvalCmd, LenCmd;
    match p
    case Nil =>
    case Seq(cmd, r) =>
      FuelEnoughCmd(cmd, s, base, c, f, g);
      match EvalCmd(cmd, s, base, c, f) {
        case Done(t) => FuelEnough(r, t, base + 8 * LenCmd(cmd), c, f, g);
        case _ =>
      }
  }

  lemma {:induction false} FuelEnoughCmd(cmd: Cmd, s: State, base: Addr, c: Lexicon, f: nat, g: nat)
    requires f <= g && EvalCmd(cmd, s, base, c, f) != OutOfFuel
    ensures EvalCmd(cmd, s, base, c, g) == EvalCmd(cmd, s, base, c, f)
    decreases f, 1, cmd, 1
  {
    hide Eval, EvalWord, Popped;
    match cmd
    case Prim(xt) => FuelEnoughWord(xt, s.(ip := base + 8), c, f, g);
    case If(q) => if s.tos != 0 { FuelEnough(q, Popped(s), base + 16, c, f, g); }
    case Until(q) =>
      FuelEnough(q, s, base, c, f, g);
      UntilMeans(q, s, base, c, f);
      UntilMeans(q, s, base, c, g);
      match Eval(q, s, base, c, f) {
        case Done(t) => if t.tos == 0 { FuelEnoughCmd(cmd, Popped(t), base, c, f - 1, g - 1); }
        case _ =>
      }
    case Again(q) =>
      FuelEnough(q, s, base, c, f, g);
      AgainMeans(q, s, base, c, f);
      AgainMeans(q, s, base, c, g);
      match Eval(q, s, base, c, f) {
        case Done(t) => FuelEnoughCmd(cmd, t, base, c, f - 1, g - 1);
        case _ =>
      }
    case _ =>
  }

  lemma {:induction false} FuelEnoughWord(w: Addr, s: State, c: Lexicon, f: nat, g: nat)
    requires f <= g && EvalWord(w, s, c, f) != OutOfFuel
    ensures EvalWord(w, s, c, g) == EvalWord(w, s, c, f)
    decreases f, 0
  {
    hide Eval, Landed, ExecOp, Popped;
    if HasWord(s.env.mem, w) {
      var h := s.env.mem[w].h;
      match h.op {
        case Call =>
          if s.rn < STACK_DEPTH && h.body in c.code {
            FuelEnough(c.code[h.body], Called(s), h.body, c, f - 1, g - 1);
          }
        case Execute => FuelEnoughWord(s.tos, Popped(s), c, f - 1, g - 1);
        case _ =>
      }
    }
  }

  /** A lexicon with one more program. */
  function With(c: Lexicon, a: Addr, p: Prog): Lexicon {
    c.(code := c.code[a := p])
  }

  /** What m holds from lo to hi is still there in n. */
  ghost predicate Survives(m: Mem, n: Mem, lo: Addr, hi: Addr) {
    forall a :: a in m && lo <= a < hi ==> a in n && n[a] == m[a]
  }

  lemma CellsSurvive(m: Mem, n: Mem, a: Addr, vs: seq<nat>, lo: Addr, hi: Addr)
    requires HasCells(m, a, vs) && Survives(m, n, lo, hi) && lo <= a && a + 8 * |vs| <= hi
    ensures HasCells(n, a, vs)
  {
    forall i | 0 <= i < |vs| ensures HasCell(n, a + 8 * i, vs[i]) {
      assert HasCell(m, a + 8 * i, vs[i]);
    }
  }

  lemma StandingWith(m: Mem, c: Lexicon, a: Addr, p: Prog)
    requires Standing(m, c) && HasCells(m, a, Cells(p, a, c.x))
    ensures Standing(m, With(c, a, p))
  {
    hide Vm, HasCells;
  }

  /** Where the builders put the code of p. */
  lemma EmittedCells(b: Builder, p: Prog, x: Xts)
    requires Ready(b.env, x)
    ensures Emit(b, p, x).cstk == b.cstk && Emit(b, p, x).env.dp == b.env.dp + 8 * Len(p)
    ensures HasCells(Emit(b, p, x).env.mem, b.env.dp, Cells(p, b.env.dp, x))
  {
    hide Emit, Lay, Finds, Below;
    EmitLays(b, p, x);
    LayGets(b.env.mem, b.env.dp, Cells(p, b.env.dp, x));
  }
}
