/** Programs that never end: where the meaning of a program has no answer for any bound on its rounds and calls,
    the machine runs on for ever. */
module Forever {
  import opened Words
  import opened Memory
  import opened Opcodes
  import opened Machine
  import opened Builders
  import opened Compiler
  import opened Meaning
  import opened Watching
  import opened Following
  import Programs

  /** The machine has stopped, met something undefined, or waits for something that is not there. */
  predicate AtRest(s: State) {
    || s.pc == Halt || s.pc == Fault
    || (s.pc == WaitKey && s.env.keys == []) || (s.pc == WaitDelay && !s.env.done)
  }

  lemma {:induction false} RestStays(s: State, n: nat)
    requires AtRest(s)
    ensures Run(s, n) == s
    decreases n
  {
    if n > 0 { RestStays(s, n - 1); }
  }

  /** Out of fuel, the machine is still on its way. */
  lemma WordLasts(w: Addr, s: State, c: Lexicon, n: nat)
    requires Standing(s.env.mem, c) && EvalWord(w, s, c, n) == OutOfFuel
    ensures !AtRest(Run(s.(pc := Exec(w)), n))
  {
    hide Step, Standing, EvalWord, AllFine, Tracks;
    var v := Watched(s.(pc := Exec(w)), Empty);
    FollowWord(w, s, c, n, Empty, false);
    var k: nat :| n <= k && Moving(Tracks(v, k).s) && AllFine(v, c, 0, k);
    TracksRun(v, k);
    StillMoving(v.s, n, k);
  }

  lemma StillMoving(e: State, n: nat, k: nat)
    requires n <= k && Moving(Run(e, k))
    ensures !AtRest(Run(e, n))
  {
    hide Step;
    if AtRest(Run(e, n)) {
      RunAdd(e, n, k - n);
      RestStays(Run(e, n), k - n);
    }
  }

  /** A word whose meaning has no answer under any bound keeps the machine going for ever: it never halts, never
      runs into anything undefined, never waits in vain. It never comes to a HALT either, such as one that lies
      where it would return to. */
  lemma NeverEnds(w: Addr, s: State, c: Lexicon)
    requires Standing(s.env.mem, c) && forall fuel :: EvalWord(w, s, c, fuel) == OutOfFuel
    ensures forall n :: !AtRest(Run(s.(pc := Exec(w)), n))
  {
    hide EvalWord, Standing, Run, AtRest;
    forall n: nat ensures !AtRest(Run(s.(pc := Exec(w)), n)) {
      WordLasts(w, s, c, n);
    }
  }

  /** The same for a word that was compiled from p, called in any memory that has kept it: if p never comes to an
      end, the machine never does. */
  lemma CompiledNeverEnds(b: Builder, name: seq<nat>, p: Prog, c: Lexicon, s: State)
    requires Ready(b.env, c.x) && Standing(s.env.mem, c) && s.rn < STACK_DEPTH
    requires var d := Programs.Defined(b, name, p, c.x); Programs.Callable(d.env.mem, s.env.mem, b.env.dp, d.env.dp)
    requires var body := b.env.dp + HeaderSize(name);
      forall fuel :: Eval(p, Called(s), body, With(c, body, Programs.Body(p)), fuel) == OutOfFuel
    ensures forall n :: !AtRest(Run(s.(pc := Exec(b.env.dp)), n))
  {
    hide Ready, Standing, Eval, EvalWord, HeaderSize, Programs.Body, Programs.Defined, AtRest, Run, Realises, Cells,
      Search, With, Emit;
    var w, body := b.env.dp, b.env.dp + HeaderSize(name);
    var e := With(c, body, Programs.Body(p));
    forall fuel: nat ensures EvalWord(w, s, e, fuel) == OutOfFuel {
      if fuel == 0 {
        Programs.CompiledWordRuns(b, name, p, c, s, 0);
        NoFuel(w, s, e);
      } else {
        Programs.CompiledWordRuns(b, name, p, c, s, fuel - 1);
      }
    }
    Programs.CompiledWordRuns(b, name, p, c, s, 0);
    NeverEnds(w, s, e);
  }

  /** A bound that is too small stays so when it is made smaller. */
  lemma NoFuel(w: Addr, s: State, c: Lexicon)
    requires EvalWord(w, s, c, 1) == OutOfFuel
    ensures EvalWord(w, s, c, 0) == OutOfFuel
  {
    hide EvalWord;
    if EvalWord(w, s, c, 0) != OutOfFuel { FuelEnoughWord(w, s, c, 0, 1); }
  }
}
