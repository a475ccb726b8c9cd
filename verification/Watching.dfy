/** Runs of the machine, watched: the open calls are counted along, so that it can be said when a run comes back
    from a word, and when it leaves what the semantics of structured programs defines. */
module Watching {
  import opened Memory
  import opened Opcodes
  import opened Machine
  import opened Builders
  import opened Compiler
  import opened Meaning

  /** The machine and the return addresses of the calls that are open, the newest on the outside. */
  datatype Watched = Watched(s: State, calls: Stack)

  predicate Executes(s: State, op: Op) {
    s.pc.Exec? && IsOp(s.env.mem, s.pc.w, op)
  }

  /** One step; CALL opens a call and EXIT closes one. */
  function Tracked(v: Watched): Watched {
    Watched(Step(v.s),
      if Executes(v.s, Call) then Item(v.s.ip, v.calls)
      else if Executes(v.s, Exit) && v.calls.Item? then v.calls.rest
      else v.calls)
  }

  function Tracks(v: Watched, n: nat): Watched
    decreases n
  {
    if n == 0 then v else Tracks(Tracked(v), n - 1)
  }

  /** The words that compiled branches and literals are made of. */
  predicate IsJump(op: Op) {
    op.Branch? || op.ZBranch? || op.Lit?
  }

  predicate Ours(w: Addr, x: Xts) {
    w == x.lit || w == x.branch || w == x.zbranch
  }

  /** The run has left what the semantics defines: the machine is in a state that is undefined, the code of the
      lexicon has been overwritten, code outside it is called, a word returns to another address than the one it
      was called from, or a branch or literal is executed that is not compiled as such. */
  ghost predicate Strays(v: Watched, c: Lexicon) {
    || v.s.pc == Fault || !Standing(v.s.env.mem, c)
    || (v.s.pc.Exec? && HasWord(v.s.env.mem, v.s.pc.w) && Undefined(v, v.s.env.mem[v.s.pc.w].h, c))
  }

  predicate Undefined(v: Watched, h: Header, c: Lexicon) {
    match h.op
    case Call => h.body !in c.code
    case Exit => !Matched(v)
    case Execute => HasWord(v.s.env.mem, v.s.tos) && IsJump(v.s.env.mem[v.s.tos].h.op)
    case Branch | ZBranch | Lit => v.s.pc.Exec? && !Ours(v.s.pc.w, c.x)
    case _ => false
  }

  /** EXIT goes back to where the newest open call came from. */
  predicate Matched(v: Watched) {
    v.calls.Item? && v.s.rn > 0 && v.s.rs.Item? && v.s.rs.top == v.calls.top
  }

  /** More than k calls are open; or k, and the word that is being executed has not come back. */
  predicate Inside(v: Watched, k: int) {
    Height(v.calls) > k || (Height(v.calls) == k && v.s.pc != Next)
  }

  ghost predicate Fine(v: Watched, c: Lexicon, k: int) {
    Inside(v, k) && !Strays(v, c)
  }

  ghost predicate AllFine(v: Watched, c: Lexicon, k: int, n: nat) {
    forall i: nat :: i < n ==> Fine(Tracks(v, i), c, k)
  }

  /** The run comes from v to w, on a way that is fine. */
  ghost predicate Gets(v: Watched, w: Watched, c: Lexicon, k: int) {
    exists n: nat :: Tracks(v, n) == w && AllFine(v, c, k, n)
  }

  predicate Moving(s: State) {
    s.pc.Next? || s.pc.Exec?
  }

  /** For m labels or more the run is fine and the machine is still on its way. */
  ghost predicate Lasts(v: Watched, c: Lexicon, k: int, m: nat) {
    exists n: nat :: m <= n && Moving(Tracks(v, n).s) && AllFine(v, c, k, n)
  }

  lemma {:induction false} TracksAdd(v: Watched, m: nat, n: nat)
    ensures Tracks(Tracks(v, m), n) == Tracks(v, m + n)
    decreases m
  {
    hide Tracked;
    if m > 0 { TracksAdd(Tracked(v), m - 1, n); }
  }

  lemma {:induction false} TracksRun(v: Watched, n: nat)
    ensures Tracks(v, n).s == Run(v.s, n)
    decreases n
  {
    hide Step;
    if n > 0 { TracksRun(Tracked(v), n - 1); }
  }

  lemma FineJoin(v: Watched, c: Lexicon, k: int, m: nat, n: nat)
    requires AllFine(v, c, k, m) && AllFine(Tracks(v, m), c, k, n)
    ensures AllFine(v, c, k, m + n)
  {
    hide Fine, Tracks;
    forall i: nat | i < m + n ensures Fine(Tracks(v, i), c, k) {
      if i >= m {
        TracksAdd(v, m, i - m);
        assert Fine(Tracks(Tracks(v, m), i - m), c, k);
      }
    }
  }

  lemma GetsSelf(v: Watched, c: Lexicon, k: int)
    ensures Gets(v, v, c, k)
  {
    hide Fine;
    assert Tracks(v, 0) == v && AllFine(v, c, k, 0);
  }

  lemma GetsStep(v: Watched, c: Lexicon, k: int)
    requires Fine(v, c, k)
    ensures Gets(v, Tracked(v), c, k)
  {
    hide Fine, Tracked;
    assert Tracks(v, 1) == Tracks(Tracked(v), 0) == Tracked(v);
    FineOnce(v, c, k);
  }

  lemma GetsTrans(u: Watched, v: Watched, w: Watched, c: Lexicon, k: int)
    requires Gets(u, v, c, k) && Gets(v, w, c, k)
    ensures Gets(u, w, c, k)
  {
    hide Fine, Tracks, AllFine;
    var m: nat :| Tracks(u, m) == v && AllFine(u, c, k, m);
    var n: nat :| Tracks(v, n) == w && AllFine(v, c, k, n);
    TracksAdd(u, m, n);
    FineJoin(u, c, k, m, n);
  }

  lemma GetsLasts(v: Watched, w: Watched, c: Lexicon, k: int, m: nat)
    requires Gets(v, w, c, k) && Lasts(w, c, k, m)
    ensures Lasts(v, c, k, m)
  {
    hide Fine, Tracks, AllFine;
    var i: nat :| Tracks(v, i) == w && AllFine(v, c, k, i);
    var n: nat :| m <= n && Moving(Tracks(w, n).s) && AllFine(w, c, k, n);
    TracksAdd(v, i, n);
    FineJoin(v, c, k, i, n);
  }

  lemma StepLasts(v: Watched, c: Lexicon, k: int, m: nat)
    requires Fine(v, c, k) && Lasts(Tracked(v), c, k, m)
    ensures Lasts(v, c, k, m + 1)
  {
    hide Fine, Tracked, AllFine;
    var n: nat :| m <= n && Moving(Tracks(Tracked(v), n).s) && AllFine(Tracked(v), c, k, n);
    assert Tracks(v, 1) == Tracks(Tracked(v), 0) == Tracked(v);
    FineOnce(v, c, k);
    FineJoin(v, c, k, 1, n);
    assert Tracks(v, n + 1) == Tracks(Tracked(v), n);
  }

  lemma FineOnce(v: Watched, c: Lexicon, k: int)
    requires Fine(v, c, k)
    ensures AllFine(v, c, k, 1)
  {
    hide Fine, Tracked;
    assert Tracks(v, 0) == v;
  }

  lemma LastsNow(v: Watched, c: Lexicon, k: int)
    requires Moving(v.s)
    ensures Lasts(v, c, k, 0)
  {
    hide Fine;
    assert Tracks(v, 0) == v && AllFine(v, c, k, 0);
  }

  /** What is fine with more calls open is so with fewer. */
  lemma FineWiden(v: Watched, c: Lexicon, k: int, j: int, n: nat)
    requires AllFine(v, c, k, n) && j <= k
    ensures AllFine(v, c, j, n)
  {
    hide Strays, Tracks;
    forall i: nat | i < n ensures Fine(Tracks(v, i), c, j) {
      assert Fine(Tracks(v, i), c, k);
    }
  }

  /** A run that rests stays where it is. */
  lemma {:induction false} RestTracks(v: Watched, n: nat)
    requires Step(v.s) == v.s && !v.s.pc.Exec?
    ensures Tracks(v, n) == v
    decreases n
  {
    if n > 0 { RestTracks(v, n - 1); }
  }

  /** What the run from v does for an outcome: it goes on at end, with these calls open; or gets to an EXIT; or
      comes to rest; or strays; or lasts. All that on a way that is fine. */
  ghost predicate Follows(v: Watched, calls: Stack, end: Addr, o: Outcome, c: Lexicon, k: int, fuel: nat, tame: bool) {
    match o
    case Done(t) => Gets(v, Watched(Entry(t, end), calls), c, k) && Standing(t.env.mem, c)
    case Left(t) => Standing(t.env.mem, c) && exists u: State :: Departs(v, calls, u, t, c, k)
    case Rests(t) => exists open: Stack :: RestsAt(v, t, open, c, k)
    case Stuck => tame ==> exists w: Watched :: GoesAstray(v, w, c, k)
    case OutOfFuel => Lasts(v, c, k, fuel)
  }

  ghost predicate Departs(v: Watched, calls: Stack, u: State, t: State, c: Lexicon, k: int) {
    Gets(v, Watched(u, calls), c, k) && Executes(u, Exit) && u == t.(pc := u.pc, ip := u.ip)
  }

  ghost predicate RestsAt(v: Watched, t: State, open: Stack, c: Lexicon, k: int) {
    Gets(v, Watched(t, open), c, k) && Step(t) == t && !Moving(t) && t.pc != Fault && Standing(t.env.mem, c)
  }

  ghost predicate GoesAstray(v: Watched, w: Watched, c: Lexicon, k: int) {
    Gets(v, w, c, k) && Strays(w, c)
  }

  lemma Continue(v: Watched, w: Watched, calls: Stack, end: Addr, o: Outcome, c: Lexicon, k: int, fuel: nat, tame: bool)
    requires Gets(v, w, c, k) && Follows(w, calls, end, o, c, k, fuel, tame)
    ensures Follows(v, calls, end, o, c, k, fuel, tame)
  {
    hide Gets, Lasts, Standing, Step, Strays;
    match o
    case Done(t) => GetsTrans(v, w, Watched(Entry(t, end), calls), c, k);
    case Left(t) =>
      var u: State :| Departs(w, calls, u, t, c, k);
      GetsTrans(v, w, Watched(u, calls), c, k);
      assert Departs(v, calls, u, t, c, k);
    case Rests(t) =>
      var open: Stack :| RestsAt(w, t, open, c, k);
      GetsTrans(v, w, Watched(t, open), c, k);
      assert RestsAt(v, t, open, c, k);
    case Stuck =>
      if tame {
        var x: Watched :| GoesAstray(w, x, c, k);
        GetsTrans(v, w, x, c, k);
        assert GoesAstray(v, x, c, k);
      }
    case OutOfFuel => GetsLasts(v, w, c, k, fuel);
  }

  lemma FewerLabels(v: Watched, c: Lexicon, k: int, m: nat, n: nat)
    requires Lasts(v, c, k, m) && n <= m
    ensures Lasts(v, c, k, n)
  {
    hide AllFine, Tracks, Moving;
  }

  /** One step in front; it makes up for one unit of fuel. */
  lemma StepFollows(v: Watched, w: Watched, calls: Stack, end: Addr, o: Outcome, c: Lexicon, k: int, f: nat, fuel: nat,
    tame: bool)
    requires Fine(v, c, k) && Tracked(v) == w && fuel <= f + 1
    requires Follows(w, calls, end, o, c, k, f, tame)
    ensures Follows(v, calls, end, o, c, k, fuel, tame)
  {
    hide Fine, Tracked, Gets, Lasts, Standing, Departs, RestsAt, GoesAstray;
    GetsStep(v, c, k);
    if o == OutOfFuel {
      StepLasts(v, c, k, f);
      FewerLabels(v, c, k, f + 1, fuel);
    } else {
      Answers(w, calls, end, o, c, k, f, fuel, tame);
      Continue(v, w, calls, end, o, c, k, fuel, tame);
    }
  }

  lemma Answers(v: Watched, calls: Stack, end: Addr, o: Outcome, c: Lexicon, k: int, f: nat, fuel: nat, tame: bool)
    requires Follows(v, calls, end, o, c, k, f, tame) && o != OutOfFuel
    ensures Follows(v, calls, end, o, c, k, fuel, tame)
  {
    hide Gets, Standing, Departs, RestsAt, GoesAstray;
  }

  /** With fewer calls open outside. */
  lemma Narrow(v: Watched, calls: Stack, end: Addr, o: Outcome, c: Lexicon, k: int, j: int, fuel: nat, tame: bool)
    requires Follows(v, calls, end, o, c, k, fuel, tame) && j <= k
    ensures Follows(v, calls, end, o, c, j, fuel, tame)
  {
    hide AllFine, Tracks, Standing, Step, Strays, Gets, Lasts;
    match o
    case Done(t) => GetsNarrow(v, Watched(Entry(t, end), calls), c, k, j);
    case Left(t) =>
      var u: State :| Departs(v, calls, u, t, c, k);
      GetsNarrow(v, Watched(u, calls), c, k, j);
      assert Departs(v, calls, u, t, c, j);
    case Rests(t) =>
      var open: Stack :| RestsAt(v, t, open, c, k);
      GetsNarrow(v, Watched(t, open), c, k, j);
      assert RestsAt(v, t, open, c, j);
    case Stuck =>
      if tame {
        var x: Watched :| GoesAstray(v, x, c, k);
        GetsNarrow(v, x, c, k, j);
        assert GoesAstray(v, x, c, j);
      }
    case OutOfFuel => LastsNarrow(v, c, k, j, fuel);
  }

  lemma GetsNarrow(v: Watched, w: Watched, c: Lexicon, k: int, j: int)
    requires Gets(v, w, c, k) && j <= k
    ensures Gets(v, w, c, j)
  {
    hide AllFine, Tracks;
    var n: nat :| Tracks(v, n) == w && AllFine(v, c, k, n);
    FineWiden(v, c, k, j, n);
  }

  lemma LastsNarrow(v: Watched, c: Lexicon, k: int, j: int, m: nat)
    requires Lasts(v, c, k, m) && j <= k
    ensures Lasts(v, c, j, m)
  {
    hide AllFine, Tracks, Moving;
    var n: nat :| m <= n && Moving(Tracks(v, n).s) && AllFine(v, c, k, n);
    FineWiden(v, c, k, j, n);
  }

  lemma Ends(t: State, end: Addr, calls: Stack, c: Lexicon, k: int, fuel: nat, tame: bool)
    requires Standing(t.env.mem, c)
    ensures Follows(Watched(Entry(t, end), calls), calls, end, Done(t), c, k, fuel, tame)
  {
    hide Standing, Gets;
    GetsSelf(Watched(Entry(t, end), calls), c, k);
  }

  lemma Astray(v: Watched, calls: Stack, end: Addr, c: Lexicon, k: int, fuel: nat, tame: bool)
    requires Strays(v, c)
    ensures Follows(v, calls, end, Stuck, c, k, fuel, tame)
  {
    hide Strays, Gets;
    GetsSelf(v, c, k);
    assert GoesAstray(v, v, c, k);
  }
}
