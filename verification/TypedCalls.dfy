/** Typing the name of a word that has just been typed: what its body means, the prompt does. */
module TypedCalls {
  import opened Words
  import opened Memory
  import opened Opcodes
  import opened Machine
  import opened Builders
  import opened Compiler
  import opened Library
  import opened Stepping
  import opened StackWords
  import opened IoWords
  import opened DictWords
  import opened Tokeniser
  import opened Interpret
  import opened Sessions
  import opened Carry
  import opened Prompt
  import opened Meaning
  import ControlWords
  import Definitions
  import Following
  import Programs
  import Structured

  /** Where the typed word is, and that it is found. */
  lemma TypedThere(s: State, u: Env, f: Env, L: Lib, name: seq<nat>, p: Prog)
    requires Ready(s.env, XtsOf(L)) && RAM <= s.env.wib && s.env.wib + 2 * WIB_CHARS <= s.env.dp
    requires Alike(Programs.Defined(Structured.AtStart(s), name, p, XtsOf(L)).env, u)
    requires PartOf(u, f) && Below(u.mem, u.dp) && u.wib == s.env.wib
    ensures var w, m := s.env.dp, Kept(f);
      && HasWord(m, w) && !m[w].h.immediate && Search(m, w, name) == Found(w) && u.latest == w
      && Programs.Callable(u.mem, m, w, u.dp)
  {
    hide Ready, Programs.Defined, HeaderSize, Kept, HasCells, Cells, Lasting;
    var w, d := s.env.dp, Programs.Defined(Structured.AtStart(s), name, p, XtsOf(L)).env;
    Programs.DefinedThere(Structured.AtStart(s), name, p, XtsOf(L));
    Programs.HeaderLong(name);
    assert u.mem[w] == d.mem[w];
    PartLasts(u, w);
    Programs.NewestFound(Kept(f), w, name);
    forall a | a in u.mem && u.mem[w].h.body <= a < u.dp ensures a in Kept(f) && Kept(f)[a] == u.mem[a] {
      PartLasts(u, a);
    }
  }

  lemma PartLasts(e: Env, a: Addr)
    requires a in e.mem && Below(e.mem, e.dp) && e.wib + 2 * WIB_CHARS <= a
    ensures Lasting(e, a, e.mem[a])
  {
  }

  /** At any prompt, typing a word that is executed leads to its execution, with the rest of INTERPRET to return
      to; nothing of the dictionary is touched. */
  lemma ExecutesAtPrompt(s: State, L: Lib, name: seq<nat>, rest: seq<nat>, xt: Addr) returns (t: State)
    requires AtAnyPrompt(s, L) && s.dn + 9 <= STACK_DEPTH && Token(name) && NextWord(s.env.keys, name, rest)
    requires Search(Kept(s.env), s.env.latest, name) == Found(xt) && xt != 0 && HasWord(Kept(s.env), xt)
    requires !s.env.comp && !Kept(s.env)[xt].h.immediate
    ensures Reaches(s, t) && Keeps(Kept(s.env), t.env.mem) && At(t.(pc := Next), L, INTERPRET, 20)
    ensures t == s.(pc := Exec(xt), ip := t.ip, rs := Item(s.ip + 8, s.rs), rn := s.rn + 1, env := t.env)
    ensures t.env == s.env.(mem := t.env.mem, win := t.env.win, keys := rest)
  {
    hide Reaches, Image, Loaded, BodyOf, Step, Run, Below, WibReady, ReadEnv, Search, HasChars, Plain, Kept, Lasting,
      Extends, NextWord, BufferOnly;
    var r := Trimmed(s);
    AnyPrompt(s, L);
    TrimmedOver(s);
    ReachesSelf(r);
    var c := Fetch(r, r, L, INTERPRETLOOP, 0, D(INTERPRET));
    var u := ExecutesWord(c, L, name, rest, xt);
    ReachesTrans(r, c, u);
    ReadEffect(r.env, L, name, rest);
    t := Carries(r, u, s);
    ReadKeeps(s.env, u.env.mem, t.env.mem);
    LoadedIn(Kept(s.env), u.env.mem, L, INTERPRET, s.env.wib);
    AtStays(u.(pc := Next), t.env.mem, L, INTERPRET, 20);
  }

  lemma AtStays(s: State, n: Mem, L: Lib, d: Def, i: nat)
    requires At(s, L, d, i) && Keeps(s.env.mem, n)
    ensures At(WithMem(s, n), L, d, i)
  {
    hide Code, CodeLen, Immediate, HasCode;
    ImageGrows(s.env.mem, n, L);
    Stepping.Known(n, L, D(d));
  }

  lemma ImageGrows(m: Mem, n: Mem, L: Lib)
    requires Image(m, L) && Keeps(m, n)
    ensures Image(n, L)
  {
    hide Image, Code;
    ImageKept(m, m, n, L);
  }

  lemma ExtendsKept(m: Mem, k: Mem, n: Mem)
    requires Extends(m, k) && Keeps(k, n)
    ensures Extends(m, n)
  {
  }

  lemma StandingKept(m: Mem, n: Mem, c: Lexicon)
    requires Standing(m, c) && Extends(m, n)
    ensures Standing(n, c)
  {
    hide Cells, HasCells;
    forall a | a in c.code ensures HasCells(n, a, Cells(c.code[a], a, c.x)) {
      CellsExtend(m, n, a, Cells(c.code[a], a, c.x));
    }
  }

  lemma CellsExtend(m: Mem, n: Mem, a: Addr, vs: seq<nat>)
    requires HasCells(m, a, vs) && Extends(m, n)
    ensures HasCells(n, a, vs)
  {
    forall i | 0 <= i < |vs| ensures HasCell(n, a + 8 * i, vs[i]) { assert HasCell(m, a + 8 * i, vs[i]); }
  }

  lemma CallableKept(m: Mem, k: Mem, n: Mem, w: Addr, end: Addr)
    requires Programs.Callable(m, k, w, end) && Keeps(k, n)
    ensures Programs.Callable(m, n, w, end)
  {
  }

  /** The programs of c and the word N whose code for p lies behind its header at w. */
  function Larger(c: Lexicon, w: Addr, name: seq<nat>, p: Prog): Lexicon {
    With(c, w + HeaderSize(name), Programs.Body(p))
  }

  /** What calling the word from t means: the meaning of p, and the return. */
  ghost function CallMeans(t: State, c: Lexicon, w: Addr, name: seq<nat>, p: Prog, fuel: nat): Outcome {
    Back(Programs.Exited(Eval(p, Called(t), w + HeaderSize(name), Larger(c, w, name, p), fuel)), t.ip)
  }

  /** Typing `: N`, a body with words, numbers and nested control structures, `;` and N leads to the call of N at
      t, from inside INTERPRET, and from there the machine does what the body means, and nothing else as long as it
      does not stray. */
  lemma TypedThenCalled(s: State, L: Lib, name: seq<nat>, p: Structured.Phrases, c: Lexicon, rest: seq<nat>, fuel: nat)
    returns (t: State)
    requires AtAnyPrompt(s, L) && !s.env.comp && Definitions.BuiltIns(Kept(s.env), s.env.latest, L) && Token(name)
    requires Structured.Controls(Kept(s.env), s.env.latest, L) && Finds(Trimmed(s).env, XtsOf(L))
    requires Structured.Typable(p, Kept(s.env), s.env.latest)
    requires s.dn + ControlWords.Nesting(Structured.Meant(p)) + 11 <= STACK_DEPTH
    requires s.env.dp + HeaderSize(name) + 8 * Len(Structured.Meant(p)) + 16 < TWO64
    requires Keyed(s.env.keys, [[58]] + ([name] + (Structured.Keyboard(p) + [[59]])) + [name], rest)
    requires c.x == XtsOf(L) && Standing(Kept(s.env), c)
    ensures Reaches(s, t) && At(t.(pc := Next), L, INTERPRET, 20) && Extends(Kept(s.env), t.env.mem)
    ensures t == s.(pc := Exec(s.env.dp), ip := t.ip, rs := Item(s.ip + 8, s.rs), rn := s.rn + 1, env := t.env)
    ensures t.env == s.env.(mem := t.env.mem, dp := t.env.dp, latest := s.env.dp, win := t.env.win, keys := rest)
    ensures var w, q := s.env.dp, Structured.Meant(p);
      && Realises(t, t.ip, CallMeans(t, c, w, name, q, fuel), Larger(c, w, name, q))
      && (Following.Tame(c) && Following.Tidy(q, c.x) ==>
          Programs.Decided(w, t, w + HeaderSize(name), q, Larger(c, w, name, q)))
  {
    hide Reaches, AtAnyPrompt, AtPrompt, Kept, Lasting, Definitions.BuiltIns, Keyed, Structured.Controls, Len, At,
      Structured.Typable, Programs.Defined, BufferOnly, Finds, Standing, Eval, Realises, Search, Keeps, Extends,
      NextWord, Structured.Keyboard, ControlWords.Nesting, Programs.Callable, HeaderSize, PartOf, Alike,
      Programs.Decided, Following.Tame, Following.Tidy;
    var q, x := Structured.Meant(p), XtsOf(L);
    var mid := KeyedSplit(s.env.keys, [[58]] + ([name] + (Structured.Keyboard(p) + [[59]])), [name], rest);
    KeyedOne(mid, name, rest);
    var u, v := Prompt.TypedDefinition(s, L, name, p, mid);
    PromptFacts(s, L);
    TypedThere(Trimmed(s), u.env, v.env, L, name, q);
    t := ExecutesAtPrompt(v, L, name, rest, s.env.dp);
    ReachesTrans(s, v, t);
    ExtendsKept(Kept(s.env), Kept(v.env), t.env.mem);
    StandingKept(Kept(s.env), t.env.mem, c);
    CallableKept(u.env.mem, Kept(v.env), t.env.mem, s.env.dp, u.env.dp);
    Structured.TypedWordRuns(Trimmed(s), u, L, name, p, c, t, fuel);
  }

  lemma PromptFacts(s: State, L: Lib)
    requires AtAnyPrompt(s, L) && Finds(Trimmed(s).env, XtsOf(L))
    ensures Ready(Trimmed(s).env, XtsOf(L)) && Structured.AboveBuffer(Trimmed(s), L) && Below(Kept(s.env), s.env.dp)
    ensures RAM <= s.env.wib && s.env.wib + 2 * WIB_CHARS <= s.env.dp && 0 < s.env.dp
    ensures s.rn + 8 <= STACK_DEPTH
  {
    hide Finds, Image, Loaded, BodyOf, Kept;
    AnyPrompt(s, L);
    AnyRoom(s, L, 0);
    Structured.PromptAbove(Trimmed(s), L);
  }

  /** The word has come back in the state x, with the stacks and the library in order: the prompt is reached again,
      with what the word has left. */
  lemma CallReturns(s: State, t: State, x: State, L: Lib) returns (v: State)
    requires AtAnyPrompt(s, L) && Reaches(s, t) && At(t.(pc := Next), L, INTERPRET, 20)
    requires Extends(Kept(s.env), t.env.mem) && Reaches(t, Entry(x, t.ip)) && x.rs == Item(s.ip + 8, s.rs)
    requires x.rn == s.rn + 1 && x.dn + 2 <= STACK_DEPTH && !x.pser
    requires Extends(Kept(s.env), x.env.mem) && Image(x.env.mem, L) && DefaultIo(x.env, L)
    ensures Reaches(s, v) && v == x.(pc := Next, ip := s.ip, rs := s.rs, rn := s.rn)
  {
    hide Reaches, Kept, Lasting, Step, Run, BodyOf, Loaded, Image, Extends;
    var r := Entry(x, t.ip);
    ReachesTrans(s, t, r);
    BodyStays(Kept(s.env), t.env.mem, L, INTERPRET);
    BodyStays(Kept(s.env), x.env.mem, L, INTERPRET);
    BodyStays(Kept(s.env), x.env.mem, L, INTERPRETLOOP);
    var q := Return(s, r, L, INTERPRET, 20);
    v := LoopsBack(s, q, L);
  }
}
