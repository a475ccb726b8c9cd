/** What the watched machine does with the code of a program, for every outcome that the program can have. */
module Following {
  import opened Memory
  import opened Opcodes
  import opened Machine
  import opened Builders
  import opened Compiler
  import opened Meaning
  import opened Watching

  /** No branch or literal is written out by hand. */
  predicate Tidy(p: Prog, x: Xts)
    decreases p
  {
    p.Seq? ==> TidyCmd(p.c, x) && Tidy(p.rest, x)
  }

  predicate TidyCmd(cmd: Cmd, x: Xts)
    decreases cmd
  {
    match cmd
    case Prim(xt) => !Ours(xt, x)
    case If(q) => Tidy(q, x)
    case Until(q) => Tidy(q, x)
    case Again(q) => Tidy(q, x)
    case _ => true
  }

  /** The last command does not go on behind itself. */
  predicate Closed(p: Prog, x: Xts) {
    p.Seq? && if p.rest.Nil? then p.c.Leave? || p.c.Again? || p.c == Prim(x.exit) else Closed(p.rest, x)
  }

  predicate Tame(c: Lexicon) {
    forall a :: a in c.code ==> Tidy(c.code[a], c.x) && Closed(c.code[a], c.x)
  }

  lemma StandingVm(m: Mem, c: Lexicon)
    requires Standing(m, c)
    ensures Vm(m, c.x)
  {
  }

  /** Fetching a cell is fine. */
  lemma Fetches(t: State, a: Addr, xt: Addr, calls: Stack, c: Lexicon)
    requires HasCell(t.env.mem, a, xt) && Standing(t.env.mem, c)
    ensures var v := Watched(Entry(t, a), calls);
      Fine(v, c, Height(calls) - 1) && Tracked(v) == Watched(t.(pc := Exec(xt), ip := a + 8), calls)
  {
    hide Standing;
  }

  /** Where a word takes the machine, and what it does to the open calls. */
  lemma Executed(w: Addr, s: State, calls: Stack)
    requires HasWord(s.env.mem, w)
    ensures var v, h := Watched(s.(pc := Exec(w)), calls), s.env.mem[w].h;
      Tracked(v) == Watched(ExecOp(h, s.(pc := Next)), if h.op.Call? then Item(s.ip, calls)
        else if h.op.Exit? && calls.Item? then calls.rest else calls)
  {
    hide ExecOp;
  }

  lemma Controls(h: Header, s: State)
    requires ClassOf(h.op) == Control
    ensures ExecOp(h, s) == ExecControl(h.op, h, s)
  {
    hide ExecControl, ClassOf;
  }

  /** A word that is being executed has not come back; it is fine if it is defined. */
  lemma FineWord(w: Addr, s: State, calls: Stack, c: Lexicon, k: int)
    requires Standing(s.env.mem, c) && k <= Height(calls)
    requires HasWord(s.env.mem, w) ==> !Undefined(Watched(s.(pc := Exec(w)), calls), s.env.mem[w].h, c)
    ensures Fine(Watched(s.(pc := Exec(w)), calls), c, k)
  {
    hide Standing, Undefined, Height;
  }

  /** A compiled branch or literal is fine, too. */
  lemma Jumps(t: State, xt: Addr, calls: Stack, c: Lexicon, k: int)
    requires Standing(t.env.mem, c) && t.pc == Exec(xt) && Ours(xt, c.x) && k <= Height(calls)
    requires HasWord(t.env.mem, xt) && IsJump(t.env.mem[xt].h.op)
    ensures var v := Watched(t, calls);
      && Fine(v, c, k)
      && Tracked(v) == Watched(ExecControl(t.env.mem[xt].h.op, t.env.mem[xt].h, t.(pc := Next)), calls)
  {
    hide Standing, ExecControl, Height, Fine, Tracked, ExecOp, Ours;
    assert t == t.(pc := Next).(pc := Exec(xt));
    FineWord(xt, t.(pc := Next), calls, c, k);
    Executed(xt, t.(pc := Next), calls);
    Controls(t.env.mem[xt].h, t.(pc := Next));
  }

  /** Two steps in front. */
  lemma TwoSteps(u: Watched, v: Watched, w: Watched, calls: Stack, end: Addr, o: Outcome, c: Lexicon, k: int,
    f: nat, fuel: nat, tame: bool)
    requires Fine(u, c, k) && Tracked(u) == v
    requires Fine(v, c, k) && Tracked(v) == w
    requires Follows(w, calls, end, o, c, k, f, tame) && fuel <= f + 1
    ensures Follows(u, calls, end, o, c, k, fuel, tame)
  {
    hide Fine, Tracked, Follows;
    StepFollows(v, w, calls, end, o, c, k, f, fuel, tame);
    StepFollows(u, v, calls, end, o, c, k, fuel, fuel, tame);
  }

  lemma AtJump(t: State, a: Addr, xt: Addr, u: State, end: Addr, o: Outcome, c: Lexicon, calls: Stack, f: nat,
    fuel: nat, tame: bool)
    requires HasCell(t.env.mem, a, xt) && Standing(t.env.mem, c) && Ours(xt, c.x)
    requires HasWord(t.env.mem, xt) && IsJump(t.env.mem[xt].h.op)
    requires u == ExecControl(t.env.mem[xt].h.op, t.env.mem[xt].h, Entry(t, a + 8))
    requires Follows(Watched(u, calls), calls, end, o, c, Height(calls) - 1, f, tame) && fuel <= f + 1
    ensures Follows(Watched(Entry(t, a), calls), calls, end, o, c, Height(calls) - 1, fuel, tame)
  {
    hide Standing, Follows, Fine, Tracked, ExecControl, HasCell, Ours, Height;
    var k, r := Height(calls) - 1, t.(pc := Exec(xt), ip := a + 8);
    Fetches(t, a, xt, calls, c);
    Jumps(r, xt, calls, c, k);
    assert r.(pc := Next) == Entry(t, a + 8);
    TwoSteps(Watched(Entry(t, a), calls), Watched(r, calls), Watched(u, calls), calls, end, o, c, k, f, fuel, tame);
  }

  lemma ZBranchExec(t: State, a: Addr, target: Addr, h: Header)
    requires HasCell(t.env.mem, a, target)
    ensures ExecControl(ZBranch, h, Entry(t, a)) == Entry(Popped(t), if t.tos == 0 then target else a + 8)
    ensures ExecControl(Branch, h, Entry(t, a)) == Entry(t, target)
  {
  }

  lemma LitExec(s: State, n: nat, a: Addr, h: Header)
    requires HasCell(s.env.mem, a, n)
    ensures var t := ExecControl(Op.Lit, h, Entry(s, a));
      if s.dn < STACK_DEPTH then t == Entry(s.(ds := Item(s.tos, s.ds), dn := s.dn + 1, tos := n), a + 8)
      else t.pc == Fault
  {
  }

  lemma AtZBranch(t: State, a: Addr, target: Addr, end: Addr, o: Outcome, c: Lexicon, calls: Stack, f: nat, fuel: nat,
    tame: bool)
    requires HasCell(t.env.mem, a, c.x.zbranch) && HasCell(t.env.mem, a + 8, target) && Standing(t.env.mem, c)
    requires var next := if t.tos == 0 then target else a + 16;
      Follows(Watched(Entry(Popped(t), next), calls), calls, end, o, c, Height(calls) - 1, f, tame)
    requires fuel <= f + 1
    ensures Follows(Watched(Entry(t, a), calls), calls, end, o, c, Height(calls) - 1, fuel, tame)
  {
    hide Standing, Follows, ExecControl, HasCell, Entry, Popped, Height;
    StandingVm(t.env.mem, c);
    ZBranchExec(t, a + 8, target, t.env.mem[c.x.zbranch].h);
    AtJump(t, a, c.x.zbranch, Entry(Popped(t), if t.tos == 0 then target else a + 16), end, o, c, calls, f, fuel, tame);
  }

  lemma AtBranch(t: State, a: Addr, target: Addr, end: Addr, o: Outcome, c: Lexicon, calls: Stack, f: nat, fuel: nat,
    tame: bool)
    requires HasCell(t.env.mem, a, c.x.branch) && HasCell(t.env.mem, a + 8, target) && Standing(t.env.mem, c)
    requires Follows(Watched(Entry(t, target), calls), calls, end, o, c, Height(calls) - 1, f, tame) && fuel <= f + 1
    ensures Follows(Watched(Entry(t, a), calls), calls, end, o, c, Height(calls) - 1, fuel, tame)
  {
    hide Standing, Follows, ExecControl, HasCell, Entry, Height;
    StandingVm(t.env.mem, c);
    ZBranchExec(t, a + 8, target, t.env.mem[c.x.branch].h);
    AtJump(t, a, c.x.branch, Entry(t, target), end, o, c, calls, f, fuel, tame);
  }

  lemma AtLit(s: State, base: Addr, n: nat, c: Lexicon, fuel: nat, calls: Stack, tame: bool)
    requires HasCell(s.env.mem, base, c.x.lit) && HasCell(s.env.mem, base + 8, n) && Standing(s.env.mem, c)
    ensures Follows(Watched(Entry(s, base), calls), calls, base + 16, EvalCmd(Number(n), s, base, c, fuel), c,
      Height(calls) - 1, fuel, tame)
  {
    hide Standing, Follows, ExecControl, HasCell, Entry, Height, Strays, EvalCmd;
    StandingVm(s.env.mem, c);
    NumberMeans(n, s, base, c, fuel);
    LitExec(s, n, base + 8, s.env.mem[c.x.lit].h);
    var k, r := Height(calls) - 1, s.(ds := Item(s.tos, s.ds), dn := s.dn + 1, tos := n);
    var u := ExecControl(Op.Lit, s.env.mem[c.x.lit].h, Entry(s, base + 8));
    if s.dn < STACK_DEPTH {
      Ends(r, base + 16, calls, c, k, fuel, tame);
    } else {
      FaultStrays(Watched(u, calls), c);
      Astray(Watched(u, calls), calls, base + 16, c, k, fuel, tame);
    }
    AtJump(s, base, c.x.lit, u, base + 16, EvalCmd(Number(n), s, base, c, fuel), c, calls, fuel, fuel, tame);
  }

  lemma NumberMeans(n: nat, s: State, base: Addr, c: Lexicon, fuel: nat)
    ensures EvalCmd(Number(n), s, base, c, fuel)
         == if s.dn < STACK_DEPTH then Done(s.(ds := Item(s.tos, s.ds), dn := s.dn + 1, tos := n)) else Stuck
  {
  }

  lemma FaultStrays(v: Watched, c: Lexicon)
    requires v.s.pc == Fault
    ensures Strays(v, c)
  {
    hide Standing;
  }

  /** The run of a program whose code is in memory does what the program means; and a closed program does not run
      past its end. */
  lemma {:induction false} Follow(p: Prog, s: State, base: Addr, c: Lexicon, fuel: nat, calls: Stack, tame: bool)
    requires Placed(s.env.mem, base, Cells(p, base, c.x), c)
    requires tame ==> Tame(c) && Tidy(p, c.x)
    ensures Follows(Watched(Entry(s, base), calls), calls, base + 8 * Len(p), Eval(p, s, base, c, fuel), c,
      Height(calls) - 1, fuel, tame)
    ensures Closed(p, c.x) ==> !Eval(p, s, base, c, fuel).Done?
    decreases fuel, 1, p, 0
  {
    hide Within, Standing, Follows, Entry, EvalCmd, CellsCmd, LenCmd, Tame, TidyCmd, Closed, Placed, Gets, Height;
    var v, k := Watched(Entry(s, base), calls), Height(calls) - 1;
    match p
    case Nil =>
      PlacedStands(s.env.mem, base, [], c);
      Ends(s, base, calls, c, k, fuel, tame);
      NilOpen(c.x);
    case Seq(cmd, r) =>
      var mid, end := base + 8 * LenCmd(cmd), base + 8 * Len(p);
      PlacedParts(s.env.mem, base, CellsCmd(cmd, base, c.x), Cells(r, mid, c.x), c);
      FollowCmd(cmd, s, base, c, fuel, calls, tame);
      var o := EvalCmd(cmd, s, base, c, fuel);
      LastLeaves(p, s, base, c, fuel);
      Sequel(v, calls, mid, o, end, c, k, fuel, tame);
      match o {
        case Done(t) =>
          PlacedLater(s.env.mem, t.env.mem, mid, Cells(r, mid, c.x), c);
          Follow(r, t, mid, c, fuel, calls, tame);
          Continue(v, Watched(Entry(t, mid), calls), calls, end, Eval(r, t, mid, c, fuel), c, k, fuel, tame);
        case _ =>
      }
  }

  lemma NilOpen(x: Xts)
    ensures !Closed(Nil, x)
  {
  }

  lemma PlacedLater(m: Mem, n: Mem, base: Addr, vs: seq<nat>, c: Lexicon)
    requires Placed(m, base, vs, c) && Standing(n, c)
    ensures Placed(n, base, vs, c)
  {
  }

  /** A command that ends leads on to the rest; any other outcome is that of the whole. */
  lemma Sequel(v: Watched, calls: Stack, mid: Addr, o: Outcome, end: Addr, c: Lexicon, k: int, fuel: nat, tame: bool)
    requires Follows(v, calls, mid, o, c, k, fuel, tame)
    ensures match o
            case Done(t) => Gets(v, Watched(Entry(t, mid), calls), c, k) && Standing(t.env.mem, c)
            case _ => Follows(v, calls, end, o, c, k, fuel, tame)
  {
    hide Gets, Lasts, Standing, Departs, RestsAt, GoesAstray;
  }

  /** The last command of a closed program does not end, and the rest of a longer one is closed. */
  lemma LastLeaves(p: Prog, s: State, base: Addr, c: Lexicon, fuel: nat)
    requires p.Seq? && Placed(s.env.mem, base, CellsCmd(p.c, base, c.x), c)
    ensures Closed(p, c.x) ==> Closed(p.rest, c.x) || !EvalCmd(p.c, s, base, c, fuel).Done?
  {
    hide Within, Eval, CellsCmd, Landed, ExecOp;
    if p.c.Again? { AgainLoops(p.c.body, s, base, c, fuel); }
  }

  lemma {:induction false} AgainLoops(q: Prog, s: State, base: Addr, c: Lexicon, fuel: nat)
    ensures !EvalCmd(Again(q), s, base, c, fuel).Done?
    decreases fuel
  {
    hide Eval, EvalCmd;
    AgainMeans(q, s, base, c, fuel);
    match Eval(q, s, base, c, fuel) {
      case Done(t) => if fuel > 0 { AgainLoops(q, t, base, c, fuel - 1); }
      case _ =>
    }
  }

  lemma {:induction false} FollowCmd(cmd: Cmd, s: State, base: Addr, c: Lexicon, fuel: nat, calls: Stack, tame: bool)
    requires Placed(s.env.mem, base, CellsCmd(cmd, base, c.x), c)
    requires tame ==> Tame(c) && TidyCmd(cmd, c.x)
    ensures Follows(Watched(Entry(s, base), calls), calls, base + 8 * LenCmd(cmd), EvalCmd(cmd, s, base, c, fuel), c,
      Height(calls) - 1, fuel, tame)
    decreases fuel, 1, cmd, 3
  {
    hide Standing, Placed, Follows, Eval, EvalCmd, Cells, CellsCmd, Vm, Len, Tame, Tidy;
    match cmd
    case Prim(xt) => FollowPrim(xt, s, base, c, fuel, calls, tame);
    case Number(n) =>
      PairThere(n, s.env.mem, base, c);
      AtLit(s, base, n, c, fuel, calls, tame);
    case If(q) => FollowIf(q, s, base, c, fuel, calls, tame);
    case Until(q) => FollowUntil(q, s, base, c, fuel, calls, tame);
    case Again(q) => FollowAgain(q, s, base, c, fuel, calls, tame);
    case Leave => FollowLeave(s, base, c, fuel, calls, tame);
  }

  lemma PairThere(n: nat, m: Mem, base: Addr, c: Lexicon)
    requires Placed(m, base, CellsCmd(Number(n), base, c.x), c)
    ensures HasCell(m, base, c.x.lit) && HasCell(m, base + 8, n) && Standing(m, c)
  {
    hide Standing, Within, Vm;
    PlacedPair(m, base, [c.x.lit, n], c);
  }

  lemma CellThere(xt: Addr, m: Mem, base: Addr, c: Lexicon)
    requires Placed(m, base, CellsCmd(Prim(xt), base, c.x), c)
    ensures HasCell(m, base, xt) && Standing(m, c)
  {
    hide Standing, Within, HasCells;
    PlacedCells(m, base, [xt], c);
    OneCell(m, base, xt);
  }

  lemma FollowPrim(xt: Addr, s: State, base: Addr, c: Lexicon, fuel: nat, calls: Stack, tame: bool)
    requires Placed(s.env.mem, base, CellsCmd(Prim(xt), base, c.x), c)
    requires tame ==> Tame(c) && !Ours(xt, c.x)
    ensures Follows(Watched(Entry(s, base), calls), calls, base + 8, EvalCmd(Prim(xt), s, base, c, fuel), c,
      Height(calls) - 1, fuel, tame)
    decreases fuel, 1, Prim(xt), 2
  {
    hide Standing, Placed, EvalWord, Follows, HasCell, Tame, Fine, Tracked, Height, Eval, Ours;
    CellThere(xt, s.env.mem, base, c);
    Fetches(s, base, xt, calls, c);
    var k, r := Height(calls) - 1, s.(ip := base + 8);
    var w, o := Watched(r.(pc := Exec(xt)), calls), EvalWord(xt, r, c, fuel);
    FollowWord(xt, r, c, fuel, calls, tame);
    Narrow(w, calls, base + 8, o, c, k + 1, k, fuel, tame);
    StepFollows(Watched(Entry(s, base), calls), w, calls, base + 8, o, c, k, fuel, fuel, tame);
  }

  lemma FollowLeave(s: State, base: Addr, c: Lexicon, fuel: nat, calls: Stack, tame: bool)
    requires Placed(s.env.mem, base, CellsCmd(Leave, base, c.x), c)
    ensures Follows(Watched(Entry(s, base), calls), calls, base + 8 * LenCmd(Leave),
      EvalCmd(Leave, s, base, c, fuel), c, Height(calls) - 1, fuel, tame)
  {
    hide Placed, Standing, Follows, EvalCmd, CellsCmd, Entry, HasCell, Fine, Tracked;
    LeaveMeans(s, s.env.mem, base, c, fuel);
    Fetches(s, base, c.x.exit, calls, c);
    var k, u := Height(calls) - 1, s.(pc := Exec(c.x.exit), ip := base + 8);
    AtExit(u, s, base + 8, calls, c, k, fuel, tame);
    StepFollows(Watched(Entry(s, base), calls), Watched(u, calls), calls, base + 8, Left(s), c, k, fuel, fuel, tame);
  }

  lemma LeaveMeans(s: State, m: Mem, base: Addr, c: Lexicon, fuel: nat)
    requires Placed(m, base, CellsCmd(Leave, base, c.x), c)
    ensures EvalCmd(Leave, s, base, c, fuel) == Left(s)
    ensures HasCell(m, base, c.x.exit) && IsOp(m, c.x.exit, Exit) && Standing(m, c)
  {
    hide Standing, Within, HasCells, Eval, EvalWord;
    ExitThere(m, base, c);
  }

  lemma ExitThere(m: Mem, base: Addr, c: Lexicon)
    requires Placed(m, base, [c.x.exit], c)
    ensures HasCell(m, base, c.x.exit) && IsOp(m, c.x.exit, Exit) && Standing(m, c)
  {
    hide Standing, Within, HasCells;
    PlacedCells(m, base, [c.x.exit], c);
    OneCell(m, base, c.x.exit);
  }

  lemma AtExit(u: State, s: State, end: Addr, calls: Stack, c: Lexicon, k: int, fuel: nat, tame: bool)
    requires Standing(s.env.mem, c) && u == s.(pc := u.pc, ip := u.ip) && Executes(u, Exit)
    ensures Follows(Watched(u, calls), calls, end, Left(s), c, k, fuel, tame)
  {
    hide Standing, Gets;
    GetsSelf(Watched(u, calls), c, k);
    assert Departs(Watched(u, calls), calls, u, s, c, k);
  }

  /** Executing a word does what the word means. */
  lemma {:induction false} FollowWord(w: Addr, s: State, c: Lexicon, fuel: nat, calls: Stack, tame: bool)
    requires Standing(s.env.mem, c)
    requires tame ==> Tame(c) && !Ours(w, c.x)
    ensures Follows(Watched(s.(pc := Exec(w)), calls), calls, s.ip, EvalWord(w, s, c, fuel), c, Height(calls), fuel,
      tame)
    decreases fuel, 0
  {
    hide Standing, Eval, ExecOp, Landed, Back, Follows, Tame, Strays, Ours, Tracked, Fine;
    var e, k := s.(pc := Exec(w)), Height(calls);
    var v := Watched(e, calls);
    if !HasWord(s.env.mem, w) {
      NoWord(w, s, c, fuel, calls, tame);
    } else {
      var h := s.env.mem[w].h;
      match h.op {
        case Call => FollowCall(w, s, c, fuel, calls, tame);
        case Exit => AtExit(e, s, s.ip, calls, c, k, fuel, tame);
        case Execute => FollowExecute(w, s, c, fuel, calls, tame);
        case Branch | ZBranch | Lit =>
          if tame { ByHand(v, c); }
          Lost(v, calls, s.ip, c, k, fuel, tame);
        case _ => FollowOp(w, s, c, fuel, calls, tame);
      }
    }
  }

  lemma Lost(v: Watched, calls: Stack, end: Addr, c: Lexicon, k: int, fuel: nat, tame: bool)
    requires tame ==> Strays(v, c)
    ensures Follows(v, calls, end, Stuck, c, k, fuel, tame)
  {
    hide Strays, Gets;
    if tame { Astray(v, calls, end, c, k, fuel, tame); }
  }

  lemma ByHand(v: Watched, c: Lexicon)
    requires v.s.pc.Exec? && HasWord(v.s.env.mem, v.s.pc.w) && IsJump(v.s.env.mem[v.s.pc.w].h.op)
    requires !Ours(v.s.pc.w, c.x)
    ensures Strays(v, c)
  {
    hide Standing;
  }

  /** A step into the undefined. */
  lemma Crashes(v: Watched, calls: Stack, end: Addr, c: Lexicon, k: int, fuel: nat, tame: bool)
    requires Fine(v, c, k) && Tracked(v).s.pc == Fault
    ensures Follows(v, calls, end, Stuck, c, k, fuel, tame)
  {
    hide Fine, Tracked, Follows;
    Astray(Tracked(v), calls, end, c, k, fuel, tame);
    StepFollows(v, Tracked(v), calls, end, Stuck, c, k, fuel, fuel, tame);
  }

  lemma NoWord(w: Addr, s: State, c: Lexicon, fuel: nat, calls: Stack, tame: bool)
    requires Standing(s.env.mem, c) && !HasWord(s.env.mem, w)
    ensures Follows(Watched(s.(pc := Exec(w)), calls), calls, s.ip, Stuck, c, Height(calls), fuel, tame)
  {
    hide Standing, Follows;
    Crashes(Watched(s.(pc := Exec(w)), calls), calls, s.ip, c, Height(calls), fuel, tame);
  }

  lemma FollowExecute(w: Addr, s: State, c: Lexicon, fuel: nat, calls: Stack, tame: bool)
    requires Standing(s.env.mem, c) && IsOp(s.env.mem, w, Execute) && (tame ==> Tame(c))
    ensures Follows(Watched(s.(pc := Exec(w)), calls), calls, s.ip, EvalWord(w, s, c, fuel), c, Height(calls), fuel,
      tame)
    decreases fuel, 0, 0
  {
    hide Standing, Eval, ExecOp, Landed, Back, Follows, Tame, Tracked, Fine, Gets;
    var v, k := Watched(s.(pc := Exec(w)), calls), Height(calls);
    if fuel == 0 {
      StillBusy(v, calls, s.ip, c, k, tame);
    } else if HasWord(s.env.mem, s.tos) && IsJump(s.env.mem[s.tos].h.op) {
      ExecutesJump(v, c);
      Astray(v, calls, s.ip, c, k, fuel, tame);
    } else {
      var u := Popped(s);
      NotOurs(s.env.mem, s.tos, c);
      ExecuteSteps(w, s, calls, c);
      FollowWord(s.tos, u, c, fuel - 1, calls, tame);
      StepFollows(v, Watched(u.(pc := Exec(s.tos)), calls), calls, s.ip, EvalWord(s.tos, u, c, fuel - 1), c, k,
        fuel - 1, fuel, tame);
    }
  }

  lemma StillBusy(v: Watched, calls: Stack, end: Addr, c: Lexicon, k: int, tame: bool)
    requires Moving(v.s)
    ensures Follows(v, calls, end, OutOfFuel, c, k, 0, tame)
  {
    LastsNow(v, c, k);
  }

  lemma ExecutesJump(v: Watched, c: Lexicon)
    requires Executes(v.s, Execute) && HasWord(v.s.env.mem, v.s.tos) && IsJump(v.s.env.mem[v.s.tos].h.op)
    ensures Strays(v, c)
  {
    hide Standing;
  }

  lemma NotOurs(m: Mem, w: Addr, c: Lexicon)
    requires Standing(m, c) && !(HasWord(m, w) && IsJump(m[w].h.op))
    ensures !Ours(w, c.x)
  {
  }

  lemma ExecuteSteps(w: Addr, s: State, calls: Stack, c: Lexicon)
    requires Standing(s.env.mem, c) && IsOp(s.env.mem, w, Execute)
    requires !(HasWord(s.env.mem, s.tos) && IsJump(s.env.mem[s.tos].h.op))
    ensures var v := Watched(s.(pc := Exec(w)), calls);
      Fine(v, c, Height(calls)) && Tracked(v) == Watched(Popped(s).(pc := Exec(s.tos)), calls)
    ensures Popped(s).env == s.env && Popped(s).ip == s.ip
  {
    hide Standing, Height, Fine, Tracked, ExecOp;
    FineWord(w, s, calls, c, Height(calls));
    Executed(w, s, calls);
    Controls(s.env.mem[w].h, s.(pc := Next));
  }

  lemma FollowCall(w: Addr, s: State, c: Lexicon, fuel: nat, calls: Stack, tame: bool)
    requires Standing(s.env.mem, c) && IsOp(s.env.mem, w, Call) && (tame ==> Tame(c))
    ensures Follows(Watched(s.(pc := Exec(w)), calls), calls, s.ip, EvalWord(w, s, c, fuel), c, Height(calls), fuel,
      tame)
    decreases fuel, 0, 0
  {
    hide Standing, Eval, Landed, Back, Follows, Tame, Tracked, Fine, Strays, Tidy, Closed;
    var v, k, body := Watched(s.(pc := Exec(w)), calls), Height(calls), s.env.mem[w].h.body;
    if body !in c.code {
      CallsOutside(v, c);
      Astray(v, calls, s.ip, c, k, fuel, tame);
    } else if fuel == 0 && s.rn < STACK_DEPTH {
      StillBusy(v, calls, s.ip, c, k, tame);
    } else {
      CallSteps(w, s, calls, c);
      if s.rn >= STACK_DEPTH {
        Crashes(v, calls, s.ip, c, k, fuel, tame);
      } else {
        var u, p, inner := Called(s), c.code[body], Item(s.ip, calls);
        var o := Eval(p, u, body, c, fuel - 1);
        PlacedWhole(s.env.mem, body, c);
        TameBody(c, body);
        Follow(p, u, body, c, fuel - 1, inner, tame);
        ComesBack(Watched(Entry(u, body), inner), body + 8 * Len(p), o, s.ip, calls, c, fuel - 1, tame);
        StepFollows(v, Watched(Entry(u, body), inner), calls, s.ip, Back(o, s.ip), c, k, fuel - 1, fuel, tame);
      }
    }
  }

  lemma TameBody(c: Lexicon, a: Addr)
    requires a in c.code
    ensures Tame(c) ==> Tidy(c.code[a], c.x) && Closed(c.code[a], c.x)
  {
    hide Tidy, Closed;
  }

  lemma CallsOutside(v: Watched, c: Lexicon)
    requires Executes(v.s, Call) && v.s.env.mem[v.s.pc.w].h.body !in c.code
    ensures Strays(v, c)
  {
    hide Standing;
  }

  lemma CallSteps(w: Addr, s: State, calls: Stack, c: Lexicon)
    requires Standing(s.env.mem, c) && IsOp(s.env.mem, w, Call) && s.env.mem[w].h.body in c.code
    ensures var v := Watched(s.(pc := Exec(w)), calls);
      && Fine(v, c, Height(calls))
      && if s.rn >= STACK_DEPTH then Tracked(v).s.pc == Fault
         else Tracked(v) == Watched(Entry(Called(s), s.env.mem[w].h.body), Item(s.ip, calls))
  {
    hide Standing, Height, Fine, Tracked, ExecOp;
    FineWord(w, s, calls, c, Height(calls));
    Executed(w, s, calls);
    Controls(s.env.mem[w].h, s.(pc := Next));
  }

  /** The body has been followed with the call open; the word comes back if it leaves to where it was called from. */
  lemma ComesBack(v: Watched, end: Addr, o: Outcome, ret: Addr, calls: Stack, c: Lexicon, fuel: nat, tame: bool)
    requires Follows(v, Item(ret, calls), end, o, c, Height(calls), fuel, tame) && (tame ==> !o.Done?)
    ensures Follows(v, calls, ret, Back(o, ret), c, Height(calls), fuel, tame)
  {
    hide Standing, Gets, GoesAstray, RestsAt, Lasts, Departs;
    match o
    case Left(t) =>
      var u: State :| Departs(v, Item(ret, calls), u, t, c, Height(calls));
      Returns(v, u, t, ret, calls, c, fuel, tame);
    case Done(_) => Lost(v, calls, ret, c, Height(calls), fuel, tame);
    case _ =>
  }

  lemma Returns(v: Watched, u: State, t: State, ret: Addr, calls: Stack, c: Lexicon, fuel: nat, tame: bool)
    requires Departs(v, Item(ret, calls), u, t, c, Height(calls)) && Standing(t.env.mem, c)
    ensures Follows(v, calls, ret, Back(Left(t), ret), c, Height(calls), fuel, tame)
  {
    hide Standing, Gets, Follows, Strays, Tracked;
    var k, w := Height(calls), Watched(u, Item(ret, calls));
    ExitSteps(w, t, ret, calls, c);
    if t.rn > 0 && t.rs.Item? && t.rs.top == ret {
      Ends(Returned(t), ret, calls, c, k, fuel, tame);
      StepFollows(w, Watched(Entry(Returned(t), ret), calls), calls, ret, Done(Returned(t)), c, k, fuel, fuel, tame);
    } else {
      Astray(w, calls, ret, c, k, fuel, tame);
    }
    Continue(v, w, calls, ret, Back(Left(t), ret), c, k, fuel, tame);
  }

  lemma ExitSteps(w: Watched, t: State, ret: Addr, calls: Stack, c: Lexicon)
    requires Executes(w.s, Exit) && w.s == t.(pc := w.s.pc, ip := w.s.ip) && w.calls == Item(ret, calls)
    requires Standing(t.env.mem, c)
    ensures if t.rn > 0 && t.rs.Item? && t.rs.top == ret
            then Fine(w, c, Height(calls)) && Tracked(w) == Watched(Entry(Returned(t), ret), calls)
              && Returned(t).env == t.env
            else Strays(w, c)
  {
    hide Standing, Fine, Tracked, ExecOp;
    var u, x := w.s.(pc := Next), w.s.pc.w;
    assert w == Watched(u.(pc := Exec(x)), Item(ret, calls));
    if Matched(w) { FineWord(x, u, w.calls, c, Height(calls)); }
    Executed(x, u, w.calls);
    Controls(u.env.mem[x].h, u);
  }

  /** Opcodes other than the ones that go elsewhere. */
  predicate Stays(op: Op) {
    !op.Call? && !op.Exit? && !op.Execute? && !IsJump(op)
  }

  /** Where such an opcode can leave the machine. */
  predicate Lands(t: State) {
    t.pc == Next || t.pc == WaitKey || (t.pc == WaitDelay && !t.env.done) || t.pc == Halt || t.pc == Fault
  }

  lemma DataLands(op: Op, s: State)
    requires s.pc == Next
    ensures Lands(ExecData(op, s))
  {
    hide ExecStack, ExecArith, ExecMemory, ExecInterp, Lands;
    match ClassOf(op) {
      case Stacks => StacksLand(op, s);
      case Arith => ArithLands(op, s);
      case Mems => MemsLand(op, s);
      case Interp => InterpLands(op, s);
      case _ => CrashLands(s);
    }
  }

  lemma CrashLands(s: State)
    ensures Lands(Crash(s))
  {
  }

  lemma StacksLand(op: Op, s: State)
    requires s.pc == Next
    ensures Lands(ExecStack(op, s))
  {
    hide Nth, Height;
  }

  lemma ArithLands(op: Op, s: State)
    requires s.pc == Next
    ensures Lands(ExecArith(op, s))
  {
    hide Result, Trap, Unary;
  }

  lemma MemsLand(op: Op, s: State)
    requires s.pc == Next
    ensures Lands(ExecMemory(op, s))
  {
    hide ExecMemory, ExecStore, ExecLoad, ExecPush, ExecEmit, ExecDelay, Lands;
    MemoryCases(op, s);
    StoreLands(op, s);
    LoadLands(op, s);
    OtherLands(op, s);
  }

  lemma MemoryCases(op: Op, s: State)
    ensures var t := ExecMemory(op, s);
      || t == ExecLoad(op, s) || t == ExecStore(op, s) || t == ExecPush(op, s) || t == ExecEmit(s)
      || t == s.(pc := WaitKey) || t == ExecDelay(s) || t == Crash(s)
  {
    hide ExecStore, ExecLoad, ExecPush, ExecEmit, ExecDelay, Crash;
  }

  lemma OtherLands(op: Op, s: State)
    requires s.pc == Next
    ensures Lands(ExecPush(op, s)) && Lands(ExecEmit(s)) && Lands(s.(pc := WaitKey)) && Lands(ExecDelay(s))
    ensures Lands(Crash(s))
  {
    hide PushedBy;
  }

  lemma LoadLands(op: Op, s: State)
    requires s.pc == Next
    ensures Lands(ExecLoad(op, s))
  {
    hide Peek;
  }

  lemma StoreLands(op: Op, s: State)
    requires s.pc == Next
    ensures Lands(ExecStore(op, s))
  {
    hide Overwrite, Poke;
  }

  lemma InterpLands(op: Op, s: State)
    requires s.pc == Next
    ensures Lands(ExecInterp(op, s))
  {
    hide Overwrite, Search, ReadChars, CanRead, IsNumberText, NumberOf, PushedBy, NewHeader, HeaderSize;
  }

  lemma OpLands(h: Header, s: State)
    requires Stays(h.op) && s.pc == Next
    ensures Lands(ExecOp(h, s)) && ExecOp(h, s).ip == s.ip
  {
    hide ExecData;
    DataLands(h.op, s.(ip := 0));
  }

  lemma OpSteps(w: Addr, s: State, calls: Stack, c: Lexicon)
    requires Standing(s.env.mem, c) && HasWord(s.env.mem, w) && Stays(s.env.mem[w].h.op)
    ensures var v := Watched(s.(pc := Exec(w)), calls);
      Fine(v, c, Height(calls)) && Tracked(v) == Watched(ExecOp(s.env.mem[w].h, s.(pc := Next)), calls)
  {
    hide Standing, ExecOp;
  }

  lemma FollowOp(w: Addr, s: State, c: Lexicon, fuel: nat, calls: Stack, tame: bool)
    requires Standing(s.env.mem, c) && HasWord(s.env.mem, w) && Stays(s.env.mem[w].h.op)
    ensures Follows(Watched(s.(pc := Exec(w)), calls), calls, s.ip,
      Landed(ExecOp(s.env.mem[w].h, s.(pc := Next)), c), c, Height(calls), fuel, tame)
  {
    hide Standing, ExecOp, Landed, Follows, Tracked, Fine, Lands;
    var v, k, t := Watched(s.(pc := Exec(w)), calls), Height(calls), ExecOp(s.env.mem[w].h, s.(pc := Next));
    OpLands(s.env.mem[w].h, s.(pc := Next));
    OpSteps(w, s, calls, c);
    FollowLanding(t, c, fuel, calls, tame);
    StepFollows(v, Watched(t, calls), calls, s.ip, Landed(t, c), c, k, fuel, fuel, tame);
  }

  lemma FollowLanding(t: State, c: Lexicon, fuel: nat, calls: Stack, tame: bool)
    requires Lands(t)
    ensures Follows(Watched(t, calls), calls, t.ip, Landed(t, c), c, Height(calls), fuel, tame)
  {
    hide Standing, Follows, Step, Tracked;
    var v, k := Watched(t, calls), Height(calls);
    if !Standing(t.env.mem, c) || t.pc == Fault {
      Astray(v, calls, t.ip, c, k, fuel, tame);
    } else if t.pc == Next {
      Ends(t, t.ip, calls, c, k, fuel, tame);
    } else if t.pc == WaitKey && t.env.keys != [] {
      KeySteps(t, calls, c);
      if Step(t).pc == Next {
        Ends(Step(t), t.ip, calls, c, k, fuel, tame);
      } else {
        Astray(Tracked(v), calls, t.ip, c, k, fuel, tame);
      }
      StepFollows(v, Tracked(v), calls, t.ip, Landed(t, c), c, k, fuel, fuel, tame);
    } else {
      AtRestHere(t, calls, c, k, fuel, tame);
    }
  }

  lemma KeySteps(t: State, calls: Stack, c: Lexicon)
    requires Standing(t.env.mem, c) && t.pc == WaitKey && t.env.keys != []
    ensures var v := Watched(t, calls);
      && Fine(v, c, Height(calls)) && Tracked(v) == Watched(Step(t), calls)
      && Step(t).env.mem == t.env.mem && Step(t).ip == t.ip && (Step(t).pc == Next || Step(t).pc == Fault)
  {
    hide Standing;
  }

  lemma AtRestHere(t: State, calls: Stack, c: Lexicon, k: int, fuel: nat, tame: bool)
    requires Standing(t.env.mem, c)
    requires t.pc == Halt || (t.pc == WaitKey && t.env.keys == []) || (t.pc == WaitDelay && !t.env.done)
    ensures Follows(Watched(t, calls), calls, t.ip, Rests(t), c, k, fuel, tame)
  {
    hide Standing, Gets;
    GetsSelf(Watched(t, calls), c, k);
    assert RestsAt(Watched(t, calls), t, calls, c, k);
  }

  lemma PoppedEnv(s: State)
    ensures Popped(s).env == s.env
  {
  }

  lemma FollowIf(q: Prog, s: State, base: Addr, c: Lexicon, fuel: nat, calls: Stack, tame: bool)
    requires Placed(s.env.mem, base, CellsCmd(If(q), base, c.x), c)
    requires tame ==> Tame(c) && Tidy(q, c.x)
    ensures Follows(Watched(Entry(s, base), calls), calls, base + 16 + 8 * Len(q), EvalCmd(If(q), s, base, c, fuel), c,
      Height(calls) - 1, fuel, tame)
    decreases fuel, 1, q, 2
  {
    hide Placed, Eval, EvalCmd, Follows, Cells, CellsCmd, HasCell, Popped, Standing, Entry, IsOp, Tame, Tidy;
    var k, end, u := Height(calls) - 1, base + 16 + 8 * Len(q), Popped(s);
    IfPlaced(q, s.env.mem, base, c);
    IfMeans(q, s, base, c, fuel);
    PlacedStands(s.env.mem, base + 16, Cells(q, base + 16, c.x), c);
    PoppedEnv(s);
    if s.tos == 0 {
      Ends(u, end, calls, c, k, fuel, tame);
    } else {
      Follow(q, u, base + 16, c, fuel, calls, tame);
    }
    AtZBranch(s, base, end, end, EvalCmd(If(q), s, base, c, fuel), c, calls, fuel, fuel, tame);
  }

  lemma PlacedStands(m: Mem, base: Addr, vs: seq<nat>, c: Lexicon)
    requires Placed(m, base, vs, c)
    ensures Standing(m, c)
  {
  }

  lemma EntryMoves(s: State, a: Addr)
    ensures Moving(Entry(s, a))
  {
  }

  lemma FollowUntil(q: Prog, s: State, base: Addr, c: Lexicon, fuel: nat, calls: Stack, tame: bool)
    requires Placed(s.env.mem, base, CellsCmd(Until(q), base, c.x), c)
    requires tame ==> Tame(c) && Tidy(q, c.x)
    ensures Follows(Watched(Entry(s, base), calls), calls, base + 8 * LenCmd(Until(q)),
      EvalCmd(Until(q), s, base, c, fuel), c, Height(calls) - 1, fuel, tame)
    decreases fuel, 1, q, 1
  {
    hide Standing, Within, Cells, Eval, EvalCmd, Popped, Entry, HasCell, Vm, Len, Follows, Gets, Tame, Tidy;
    var v, k := Watched(Entry(s, base), calls), Height(calls) - 1;
    var back, end, all := base + 8 * Len(q), base + 8 * Len(q) + 16, EvalCmd(Until(q), s, base, c, fuel);
    LoopPlaced(q, s.env.mem, base, c.x.zbranch, c);
    Follow(q, s, base, c, fuel, calls, tame);
    UntilMeans(q, s, base, c, fuel);
    var o := Eval(q, s, base, c, fuel);
    Sequel(v, calls, back, o, end, c, k, fuel, tame);
    match o {
      case Done(t) =>
        var u := Popped(t);
        PoppedEnv(t);
        LoopLater(q, s.env.mem, t.env.mem, base, c.x.zbranch, c);
        if t.tos != 0 {
          Ends(u, end, calls, c, k, fuel, tame);
          AtZBranch(t, back, base, end, all, c, calls, fuel, fuel, tame);
        } else if fuel == 0 {
          EntryMoves(s, base);
          StillBusy(v, calls, end, c, k, tame);
        } else {
          FollowUntil(q, u, base, c, fuel - 1, calls, tame);
          AtZBranch(t, back, base, end, all, c, calls, fuel - 1, fuel, tame);
        }
        if t.tos != 0 || fuel > 0 { Continue(v, Watched(Entry(t, back), calls), calls, end, all, c, k, fuel, tame); }
      case _ =>
    }
  }

  lemma LoopLater(q: Prog, m: Mem, n: Mem, base: Addr, xt: Addr, c: Lexicon)
    requires Placed(m, base, Cells(q, base, c.x) + [xt, base], c) && Standing(n, c)
    ensures Placed(n, base, Cells(q, base, c.x) + [xt, base], c)
    ensures HasCell(n, base + 8 * Len(q), xt) && HasCell(n, base + 8 * Len(q) + 8, base)
  {
    hide Standing, Within, Cells, HasCell, Len, Vm;
    PlacedLater(m, n, base, Cells(q, base, c.x) + [xt, base], c);
    LoopPlaced(q, n, base, xt, c);
  }

  lemma FollowAgain(q: Prog, s: State, base: Addr, c: Lexicon, fuel: nat, calls: Stack, tame: bool)
    requires Placed(s.env.mem, base, CellsCmd(Again(q), base, c.x), c)
    requires tame ==> Tame(c) && Tidy(q, c.x)
    ensures Follows(Watched(Entry(s, base), calls), calls, base + 8 * LenCmd(Again(q)),
      EvalCmd(Again(q), s, base, c, fuel), c, Height(calls) - 1, fuel, tame)
    decreases fuel, 1, q, 1
  {
    hide Standing, Within, Cells, Eval, EvalCmd, Entry, HasCell, Vm, Len, Follows, Gets, Tame, Tidy;
    var v, k := Watched(Entry(s, base), calls), Height(calls) - 1;
    var back, end, all := base + 8 * Len(q), base + 8 * Len(q) + 16, EvalCmd(Again(q), s, base, c, fuel);
    LoopPlaced(q, s.env.mem, base, c.x.branch, c);
    Follow(q, s, base, c, fuel, calls, tame);
    AgainMeans(q, s, base, c, fuel);
    var o := Eval(q, s, base, c, fuel);
    Sequel(v, calls, back, o, end, c, k, fuel, tame);
    match o {
      case Done(t) =>
        if fuel == 0 {
          EntryMoves(s, base);
          StillBusy(v, calls, end, c, k, tame);
        } else {
          LoopLater(q, s.env.mem, t.env.mem, base, c.x.branch, c);
          FollowAgain(q, t, base, c, fuel - 1, calls, tame);
          AtBranch(t, back, base, end, all, c, calls, fuel - 1, fuel, tame);
          Continue(v, Watched(Entry(t, back), calls), calls, end, all, c, k, fuel, tame);
        }
      case _ =>
    }
  }
}
