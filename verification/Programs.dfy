/** Compiled words: a definition that the builders have finished means what its program means, wherever and
    whenever it is called. */
module Programs {
  import opened Words
  import opened Memory
  import opened Opcodes
  import opened Machine
  import opened Builders
  import opened Compiler
  import opened Meaning
  import opened Watching
  import opened Following
  import opened Semantics

  /** p, then q. */
  function Followed(p: Prog, q: Prog): Prog {
    match p
    case Nil => q
    case Seq(c, r) => Seq(c, Followed(r, q))
  }

  lemma {:induction false} EmitFollowed(b: Builder, p: Prog, q: Prog, x: Xts)
    ensures Emit(b, Followed(p, q), x) == Emit(Emit(b, p, x), q, x)
    decreases p
  {
    hide EmitCmd;
    if p.Seq? { EmitFollowed(EmitCmd(b, p.c, x), p.rest, q, x); }
  }

  lemma {:induction false} LenFollowed(p: Prog, q: Prog)
    ensures Len(Followed(p, q)) == Len(p) + Len(q)
  {
    if p.Seq? { LenFollowed(p.rest, q); }
  }

  lemma {:induction false} EvalFollowed(p: Prog, q: Prog, s: State, base: Addr, c: Lexicon, fuel: nat)
    ensures Eval(Followed(p, q), s, base, c, fuel)
         == match Eval(p, s, base, c, fuel)
            case Done(t) => Eval(q, t, base + 8 * Len(p), c, fuel)
            case o => o
    decreases p
  {
    hide EvalCmd, LenCmd;
    if p.Seq? {
      match EvalCmd(p.c, s, base, c, fuel) {
        case Done(t) => EvalFollowed(p.rest, q, t, base + 8 * LenCmd(p.c), c, fuel);
        case _ =>
      }
    }
  }

  /** The body of a word: its program and a compiled EXIT. */
  function Body(p: Prog): Prog {
    Followed(p, Seq(Leave, Nil))
  }

  /** Either way, the word returns. */
  function Exited(o: Outcome): Outcome {
    match o
    case Done(t) => Left(t)
    case _ => o
  }

  lemma BodyMeans(p: Prog, s: State, base: Addr, c: Lexicon, fuel: nat)
    ensures Eval(Body(p), s, base, c, fuel) == Exited(Eval(p, s, base, c, fuel))
  {
    EvalFollowed(p, Seq(Leave, Nil), s, base, c, fuel);
  }

  /** forth_colon, the builder calls for p, and a compiled EXIT. */
  function Written(b: Builder, name: seq<nat>, p: Prog, x: Xts): Builder {
    Build(Emit(Open(b, name), p, x), ACell(x.exit))
  }

  /** The same with forth_semicolon. */
  function Defined(b: Builder, name: seq<nat>, p: Prog, x: Xts): Builder {
    var d := Written(b, name, p, x);
    if HasWord(d.env.mem, CTop(d)) then Finish(d) else d
  }

  lemma OpenReady(b: Builder, name: seq<nat>, x: Xts)
    requires Ready(b.env, x)
    ensures Ready(Open(b, name).env, x)
  {
    hide Search, HeaderSize;
    var e, f := b.env, Created(b.env, name);
    NothingAt(e.mem, e.dp);
    SearchKept(e.mem, f.mem, e.latest, Codes("LIT"));
    SearchKept(e.mem, f.mem, e.latest, Codes("BRANCH"));
    SearchKept(e.mem, f.mem, e.latest, Codes("ZBRANCH"));
    assert Below(f.mem, f.dp) by { HeaderLong(name); }
  }

  lemma HeaderLong(name: seq<nat>)
    ensures HeaderSize(name) > 0
    ensures forall h: Header :: h.name == name ==> Size(Word(h)) == HeaderSize(name)
  {
  }

  /** What Written has put where. */
  lemma WrittenThere(b: Builder, name: seq<nat>, p: Prog, x: Xts)
    requires Ready(b.env, x)
    ensures var w, body, d := b.env.dp, b.env.dp + HeaderSize(name), Written(b, name, p, x);
      && d.cstk == Item(w, b.cstk) && HasWord(d.env.mem, w)
      && d.env.mem[w].h == Header(b.env.latest, name, false, Call, 0, body)
      && d.env.dp == body + 8 * Len(Body(p)) && HasCells(d.env.mem, body, Cells(Body(p), body, x))
  {
    hide Ready, Emit, Lay, Cells, HeaderSize, HasCells;
    var o := Open(b, name);
    OpenReady(b, name, x);
    EmitFollowed(o, p, Seq(Leave, Nil), x);
    assert Emit(o, Body(p), x) == Written(b, name, p, x) by { LeaveEmits(Emit(o, p, x), x); }
    EmittedCells(o, Body(p), x);
    EmitLays(o, Body(p), x);
    LayGets(o.env.mem, o.env.dp, Cells(Body(p), o.env.dp, x));
    HeaderLong(name);
  }

  lemma LeaveEmits(b: Builder, x: Xts)
    ensures Emit(b, Seq(Leave, Nil), x) == Build(b, ACell(x.exit))
  {
  }

  /** Closing the word changes its header, not its code. */
  lemma DefinedThere(b: Builder, name: seq<nat>, p: Prog, x: Xts)
    requires Ready(b.env, x)
    ensures var w, body, d := b.env.dp, b.env.dp + HeaderSize(name), Defined(b, name, p, x);
      && d.cstk == b.cstk && d.env.latest == w && IsOp(d.env.mem, w, Call) && d.env.mem[w].h.body == body
      && !d.env.mem[w].h.immediate
      && d.env.mem[w].h.name == name && d.env.mem[w].h.prev == b.env.latest
      && d.env.dp == body + 8 * Len(Body(p)) && HasCells(d.env.mem, body, Cells(Body(p), body, x))
  {
    hide Ready, Written, Cells, HeaderSize, HasCells;
    WrittenThere(b, name, p, x);
    var w, body, d := b.env.dp, b.env.dp + HeaderSize(name), Written(b, name, p, x);
    HeaderLong(name);
    CellsKept(d.env.mem, w, Defined(b, name, p, x).env.mem[w], body, Cells(Body(p), body, x));
  }

  /** The word w is still called by its address, and its code is still what it was in m. */
  ghost predicate Callable(m: Mem, n: Mem, w: Addr, end: Addr) {
    IsOp(m, w, Call) && IsOp(n, w, Call) && n[w].h.body == m[w].h.body && Survives(m, n, m[w].h.body, end)
  }

  lemma {:induction false} BodyTame(p: Prog, x: Xts)
    requires Tidy(p, x)
    ensures Tidy(Body(p), x) && Closed(Body(p), x)
    decreases p
  {
    if p.Seq? {
      BodyTame(p.rest, x);
      assert Body(p) == Seq(p.c, Body(p.rest)) && Body(p.rest).Seq?;
    }
  }

  /** The run of a call of w, whose body is p, decides what p means: it comes back with what p has done, or comes to
      rest where p does, or strays where p has no meaning. */
  ghost predicate Decided(w: Addr, s: State, body: Addr, p: Prog, e: Lexicon) {
    forall n: nat :: EndsAt(Calling(w, s), e, n) ==>
      Final(Back(Exited(Eval(p, Called(s), body, e, n)), s.ip), Tracks(Calling(w, s), n), e)
  }

  function Calling(w: Addr, s: State): Watched {
    Watched(s.(pc := Exec(w)), Empty)
  }

  lemma Decides(w: Addr, s: State, body: Addr, p: Prog, c: Lexicon)
    requires IsOp(s.env.mem, w, Call) && s.env.mem[w].h.body == body && s.rn < STACK_DEPTH
    requires Standing(s.env.mem, With(c, body, Body(p))) && Tame(c) && Tidy(p, c.x)
    ensures Decided(w, s, body, p, With(c, body, Body(p)))
  {
    hide Standing, Eval, EvalWord, Body, EndsAt, Final, Tidy, Closed, Back, Exited, Tracks;
    var e := With(c, body, Body(p));
    BodyTame(p, c.x);
    NotOurs(s.env.mem, w, e);
    forall n: nat | EndsAt(Calling(w, s), e, n)
      ensures Final(Back(Exited(Eval(p, Called(s), body, e, n)), s.ip), Tracks(Calling(w, s), n), e)
    {
      RunDecides(w, s, e, n);
      CallMeans(w, s, body, p, c, n);
    }
  }

  /** Compiler correctness for words. Open a word, let the builders write p, compile EXIT, close the word:
      the dictionary finds it under its name, and in every memory, however much later, that has kept the word
      and the words it calls, executing it does what p means and returns to where it was called from; and whatever
      the machine does then, without straying, p means. */
  lemma CompiledWordRuns(b: Builder, name: seq<nat>, p: Prog, c: Lexicon, s: State, fuel: nat)
    requires Ready(b.env, c.x) && Standing(s.env.mem, c) && s.rn < STACK_DEPTH
    requires var d := Defined(b, name, p, c.x); Callable(d.env.mem, s.env.mem, b.env.dp, d.env.dp)
    ensures var w, body, d := b.env.dp, b.env.dp + HeaderSize(name), Defined(b, name, p, c.x);
      && d.cstk == b.cstk && Search(d.env.mem, d.env.latest, name) == Found(w)
      && var e := With(c, body, Body(p));
         var o := Back(Exited(Eval(p, Called(s), body, e, fuel)), s.ip);
         && Standing(s.env.mem, e) && EvalWord(w, s, e, fuel + 1) == o && Realises(s.(pc := Exec(w)), s.ip, o, e)
         && (Tame(c) && Tidy(p, c.x) ==> Decided(w, s, body, p, e))
  {
    hide Reaches, Step, Run, Ready, Standing, Defined, Eval, EvalWord, Realises, HeaderSize, HasCells, Cells, Body,
      Search, Back, Exited, With, Decided, Tame, Tidy;
    var w, body, d := b.env.dp, b.env.dp + HeaderSize(name), Defined(b, name, p, c.x);
    DefinedThere(b, name, p, c.x);
    CellsSurvive(d.env.mem, s.env.mem, body, Cells(Body(p), body, c.x), body, d.env.dp);
    StandingWith(s.env.mem, c, body, Body(p));
    NewestFound(d.env.mem, w, name);
    CallMeans(w, s, body, p, c, fuel);
    SimulatesWord(w, s, With(c, body, Body(p)), fuel + 1);
    if Tame(c) && Tidy(p, c.x) { Decides(w, s, body, p, c); }
  }

  lemma NewestFound(m: Mem, w: Addr, name: seq<nat>)
    requires HasWord(m, w) && m[w].h.name == name
    ensures Search(m, w, name) == Found(w)
  {
  }

  lemma CallMeans(w: Addr, s: State, body: Addr, p: Prog, c: Lexicon, fuel: nat)
    requires IsOp(s.env.mem, w, Call) && s.env.mem[w].h.body == body && s.rn < STACK_DEPTH
    ensures var e := With(c, body, Body(p));
      EvalWord(w, s, e, fuel + 1) == Back(Exited(Eval(p, Called(s), body, e, fuel)), s.ip)
  {
    hide Eval, Body, Back, Landed, ExecOp;
    BodyMeans(p, Called(s), body, With(c, body, Body(p)), fuel);
  }
}
