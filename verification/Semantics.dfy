/** Structured programs and the machine that runs their code agree: whatever a program means, its code does, and
    whatever its code does, as long as it does not stray, the program means. */
module Semantics {
  import opened Memory
  import opened Opcodes
  import opened Machine
  import opened Builders
  import opened Compiler
  import opened Meaning
  import opened Watching
  import opened Following

  lemma GetsReaches(v: Watched, w: Watched, c: Lexicon, k: int)
    requires Gets(v, w, c, k)
    ensures Reaches(v.s, w.s)
  {
    hide AllFine, Run, Tracks;
    var n: nat :| Tracks(v, n) == w && AllFine(v, c, k, n);
    TracksRun(v, n);
  }

  lemma ExitReturns(u: State, t: State)
    requires Executes(u, Exit) && u == t.(pc := u.pc, ip := u.ip)
    ensures Step(u) == Returned(t)
  {
  }

  lemma Realised(v: Watched, calls: Stack, end: Addr, o: Outcome, c: Lexicon, k: int, fuel: nat, tame: bool)
    requires Follows(v, calls, end, o, c, k, fuel, tame)
    ensures Realises(v.s, end, o, c)
  {
    hide Gets, Standing, Lasts, GoesAstray, Reaches, Step;
    match o
    case Done(t) => GetsReaches(v, Watched(Entry(t, end), calls), c, k);
    case Left(t) =>
      var u: State :| Departs(v, calls, u, t, c, k);
      GetsReaches(v, Watched(u, calls), c, k);
      ReachesStep(v.s, u);
      ExitReturns(u, t);
    case Rests(t) =>
      var open: Stack :| RestsAt(v, t, open, c, k);
      GetsReaches(v, Watched(t, open), c, k);
    case _ =>
  }

  /** Running the code of a program does what the program means. */
  lemma Simulates(p: Prog, s: State, base: Addr, c: Lexicon, fuel: nat)
    requires Placed(s.env.mem, base, Cells(p, base, c.x), c)
    ensures Realises(Entry(s, base), base + 8 * Len(p), Eval(p, s, base, c, fuel), c)
  {
    hide Placed, Follows, Realises, Eval, Cells, Len, Entry;
    Follow(p, s, base, c, fuel, Empty, false);
    Realised(Watched(Entry(s, base), Empty), Empty, base + 8 * Len(p), Eval(p, s, base, c, fuel), c, -1, fuel, false);
  }

  /** Executing a word does what the word means. */
  lemma SimulatesWord(w: Addr, s: State, c: Lexicon, fuel: nat)
    requires Standing(s.env.mem, c)
    ensures Realises(s.(pc := Exec(w)), s.ip, EvalWord(w, s, c, fuel), c)
  {
    hide Standing, Follows, Realises, EvalWord;
    FollowWord(w, s, c, fuel, Empty, false);
    Realised(Watched(s.(pc := Exec(w)), Empty), Empty, s.ip, EvalWord(w, s, c, fuel), c, 0, fuel, false);
  }

  /** The machine has come back from the word. */
  ghost predicate Home(x: Watched, c: Lexicon) {
    x.calls == Empty && x.s.pc == Next && !Strays(x, c)
  }

  /** It has come to rest, halted or waiting. */
  ghost predicate Resting(x: Watched, c: Lexicon) {
    Step(x.s) == x.s && !Moving(x.s) && !Strays(x, c)
  }

  /** After n labels the run from v comes back, or comes to rest, or strays, and not before. */
  ghost predicate EndsAt(v: Watched, c: Lexicon, n: nat) {
    var x := Tracks(v, n);
    AllFine(v, c, 0, n) && (Home(x, c) || Resting(x, c) || Strays(x, c))
  }

  /** The end of a run that belongs to an outcome. */
  ghost predicate Final(o: Outcome, x: Watched, c: Lexicon) {
    match o
    case Done(t) => Home(x, c) && x.s == t
    case Rests(t) => Resting(x, c) && x.s == t
    case OutOfFuel => false
    case _ => Strays(x, c)
  }

  /** A run ends in one way. */
  lemma OneEnd(v: Watched, c: Lexicon, m: nat, n: nat)
    requires EndsAt(v, c, m) && EndsAt(v, c, n)
    ensures Tracks(v, m) == Tracks(v, n)
  {
    if m < n { FirstEnd(v, c, m, n); }
    if n < m { FirstEnd(v, c, n, m); }
  }

  lemma FirstEnd(v: Watched, c: Lexicon, m: nat, n: nat)
    requires EndsAt(v, c, m) && AllFine(v, c, 0, n) && m < n
    ensures Resting(Tracks(v, m), c) && Tracks(v, m) == Tracks(v, n)
  {
    hide Strays, Tracks, Step;
    assert Fine(Tracks(v, m), c, 0);
    RestTracks(Tracks(v, m), n - m);
    TracksAdd(v, m, n - m);
  }

  /** EXIT with no call open. */
  lemma NoCallOpen(u: State, c: Lexicon)
    requires Executes(u, Exit)
    ensures Strays(Watched(u, Empty), c)
  {
    hide Standing;
  }

  /** An outcome other than OutOfFuel is the end of a run. */
  lemma Ended(v: Watched, end: Addr, o: Outcome, c: Lexicon, fuel: nat) returns (n: nat)
    requires Follows(v, Empty, end, o, c, 0, fuel, true) && o != OutOfFuel
    requires o.Done? ==> o.s.pc == Next && o.s.ip == end
    ensures EndsAt(v, c, n) && Final(o, Tracks(v, n), c)
  {
    hide Strays, AllFine, Tracks, Step;
    match o
    case Done(t) =>
      n :| Tracks(v, n) == Watched(Entry(t, end), Empty) && AllFine(v, c, 0, n);
      NotStray(Watched(t, Empty), c);
    case Left(t) =>
      var u: State :| Departs(v, Empty, u, t, c, 0);
      n :| Tracks(v, n) == Watched(u, Empty) && AllFine(v, c, 0, n);
      NoCallOpen(u, c);
    case Rests(t) =>
      var open: Stack :| RestsAt(v, t, open, c, 0);
      n :| Tracks(v, n) == Watched(t, open) && AllFine(v, c, 0, n);
      NotStray(Watched(t, open), c);
    case Stuck =>
      var x: Watched :| GoesAstray(v, x, c, 0);
      n :| Tracks(v, n) == x && AllFine(v, c, 0, n);
  }

  lemma NotStray(x: Watched, c: Lexicon)
    requires x.s.pc != Fault && !x.s.pc.Exec? && Standing(x.s.env.mem, c)
    ensures !Strays(x, c)
  {
    hide Standing;
  }

  lemma {:induction false} DoneHome(w: Addr, s: State, c: Lexicon, fuel: nat)
    requires EvalWord(w, s, c, fuel).Done?
    ensures var t := EvalWord(w, s, c, fuel).s; t.pc == Next && t.ip == s.ip
    decreases fuel
  {
    hide Standing, Eval, ExecOp, Landed;
    var h := s.env.mem[w].h;
    match h.op {
      case Execute => DoneHome(s.tos, Popped(s), c, fuel - 1);
      case Call | Exit | Branch | ZBranch | Lit =>
      case _ => LandedHome(h, s, c);
    }
  }

  lemma LandedHome(h: Header, s: State, c: Lexicon)
    requires Stays(h.op) && Landed(ExecOp(h, s.(pc := Next)), c).Done?
    ensures var t := Landed(ExecOp(h, s.(pc := Next)), c).s; t.pc == Next && t.ip == s.ip
  {
    hide Standing, ExecOp, Step;
    var t := ExecOp(h, s.(pc := Next));
    OpLands(h, s.(pc := Next));
    if t.pc == WaitKey && t.env.keys != [] { KeySteps(t, Empty, c); }
  }

  /** An answer of the semantics is what the machine does: the run comes back, or rests, or strays accordingly. */
  lemma AnswerRuns(w: Addr, s: State, c: Lexicon, fuel: nat) returns (n: nat)
    requires Standing(s.env.mem, c) && Tame(c) && !Ours(w, c.x) && EvalWord(w, s, c, fuel) != OutOfFuel
    ensures var v := Watched(s.(pc := Exec(w)), Empty);
      EndsAt(v, c, n) && Final(EvalWord(w, s, c, fuel), Tracks(v, n), c)
  {
    hide Standing, Follows, EvalWord, Tame, Ours, EndsAt, Final;
    FollowWord(w, s, c, fuel, Empty, true);
    if EvalWord(w, s, c, fuel).Done? { DoneHome(w, s, c, fuel); }
    n := Ended(Watched(s.(pc := Exec(w)), Empty), s.ip, EvalWord(w, s, c, fuel), c, fuel);
  }

  lemma LastsOn(v: Watched, c: Lexicon, n: nat)
    requires EndsAt(v, c, n)
    ensures !Lasts(v, c, 0, n + 1)
  {
    hide Strays, Tracks, Step;
    if Lasts(v, c, 0, n + 1) {
      var m: nat :| n + 1 <= m && Moving(Tracks(v, m).s) && AllFine(v, c, 0, m);
      FirstEnd(v, c, n, m);
    }
  }

  /** And what the machine does is an answer of the semantics. Call a word, with its code in memory, and watch the
      machine: if it comes back without having strayed, the word means what it has come back with; if it comes to
      rest, the word means that; if it strays, the word has no meaning. So the semantics leaves out nothing but
      runs that stray. */
  lemma RunDecides(w: Addr, s: State, c: Lexicon, n: nat)
    requires Standing(s.env.mem, c) && Tame(c) && !Ours(w, c.x)
    requires EndsAt(Watched(s.(pc := Exec(w)), Empty), c, n)
    ensures Final(EvalWord(w, s, c, n + 1), Tracks(Watched(s.(pc := Exec(w)), Empty), n), c)
  {
    hide Standing, Follows, EvalWord, Tame, Ours, EndsAt, Final, Lasts;
    var v, o := Watched(s.(pc := Exec(w)), Empty), EvalWord(w, s, c, n + 1);
    FollowWord(w, s, c, n + 1, Empty, true);
    LastsOn(v, c, n);
    Answering(v, s.ip, o, c, n + 1);
    var m := AnswerRuns(w, s, c, n + 1);
    OneEnd(v, c, m, n);
  }

  lemma Answering(v: Watched, end: Addr, o: Outcome, c: Lexicon, fuel: nat)
    requires Follows(v, Empty, end, o, c, 0, fuel, true) && !Lasts(v, c, 0, fuel)
    ensures o != OutOfFuel
  {
    hide Lasts;
  }

  /** Compiler correctness: in any memory that still holds what the builders have written for p, together
      with the words and programs p calls, running from where they started does what p means; and they give
      the compile stack back. */
  lemma CompiledCodeRuns(b: Builder, p: Prog, c: Lexicon, s: State, fuel: nat)
    requires Ready(b.env, c.x) && Standing(s.env.mem, c)
    requires Survives(Emit(b, p, c.x).env.mem, s.env.mem, b.env.dp, Emit(b, p, c.x).env.dp)
    ensures Emit(b, p, c.x).cstk == b.cstk && Emit(b, p, c.x).env.dp == b.env.dp + 8 * Len(p)
    ensures var lo, d := b.env.dp, With(c, b.env.dp, p);
      Standing(s.env.mem, d) && Realises(Entry(s, lo), lo + 8 * Len(p), Eval(p, s, lo, d, fuel), d)
  {
    hide Reaches, Step, Ready, Standing, Placed, Emit, Eval, Realises, Survives, HasCells;
    var lo, vs := b.env.dp, Cells(p, b.env.dp, c.x);
    EmittedCells(b, p, c.x);
    CellsSurvive(Emit(b, p, c.x).env.mem, s.env.mem, lo, vs, lo, lo + 8 * |vs|);
    StandingWith(s.env.mem, c, lo, p);
    PlacedWhole(s.env.mem, lo, With(c, lo, p));
    Simulates(p, s, lo, With(c, lo, p), fuel);
  }
}
