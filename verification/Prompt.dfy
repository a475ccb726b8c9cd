/** Sessions at any prompt: whatever has been stored above the dictionary pointer or in the word input buffer. */
module Prompt {
  import opened Words
  import opened Memory
  import opened Opcodes
  import opened Machine
  import opened Builders
  import opened Compiler
  import opened Library
  import opened IoWords
  import opened DictWords
  import opened Tokeniser
  import opened Interpret
  import opened Sessions
  import opened Definitions
  import opened Carry
  import Programs
  import Stepping
  import ControlWords
  import Printing
  import Structured

  /** The dictionary proper: what lies in memory outside the word input buffer and below DP. */
  function Kept(e: Env): Mem {
    map a | a in e.mem && Lasting(e, a, e.mem[a]) :: e.mem[a]
  }

  predicate Lasting(e: Env, a: Addr, c: Chunk) {
    a + Size(c) <= e.wib || (e.wib + 2 * WIB_CHARS <= a && a + Size(c) <= e.dp)
  }

  function Trimmed(s: State): State {
    WithMem(s, Kept(s.env))
  }

  /** The machine is at the head of INTERPRET-LOOP, the library is part of the dictionary and the buffer lies in
      front of DP. Nothing is said about the memory above DP and in the buffer. */
  ghost predicate AtAnyPrompt(s: State, L: Lib) {
    && At(Trimmed(s), L, INTERPRETLOOP, 0) && DefaultIo(s.env, L) && !s.pser
    && s.dn <= STACK_DEPTH && s.rn + 8 <= STACK_DEPTH
    && RAM <= s.env.wib && s.env.wib + 2 * WIB_CHARS <= s.env.dp < TWO64 && L.top <= s.env.dp
  }

  lemma TrimmedOver(s: State)
    ensures Richer(Trimmed(s), s)
  {
    hide Lasting;
  }

  /** The theorems about words are stated for memories with nothing above DP and characters only in the buffer.
      The machine cut down to its dictionary is such a one, and what it reaches the whole machine reaches. */
  lemma Anywhere(s: State, u: State) returns (v: State)
    requires Reaches(Trimmed(s), u) && u.pc != Fault
    ensures Reaches(s, v) && Richer(u, v)
  {
    hide Reaches, Kept;
    TrimmedOver(s);
    v := Carries(Trimmed(s), u, s);
  }

  lemma KeptReady(e: Env)
    requires RAM <= e.wib && e.wib + 2 * WIB_CHARS <= e.dp < TWO64
    ensures WibReady(e.(mem := Kept(e))) && Below(Kept(e), e.dp)
  {
    forall i | 0 <= i < WIB_CHARS ensures Writable(Kept(e), e.wib + 2 * i, Wide(0)) {
      assert Free(Kept(e), e.wib + 2 * i, 2);
    }
  }

  /** The dictionary proper has nothing in the buffer. */
  lemma ReadKeeps(e: Env, m: Mem, n: Mem)
    requires BufferOnly(Kept(e), m, e.wib) && Keeps(m, n)
    ensures Keeps(Kept(e), n)
  {
  }

  /** Cut down to its dictionary, it is a prompt as Sessions knows it. */
  lemma AnyPrompt(s: State, L: Lib)
    requires AtAnyPrompt(s, L)
    ensures AtPrompt(Trimmed(s), L, Kept(s.env)) && Below(Kept(s.env), s.env.dp)
  {
    hide Image, Loaded, BodyOf, Kept;
    KeptReady(s.env);
  }

  lemma AnyRoom(s: State, L: Lib, n: nat)
    requires AtAnyPrompt(s, L) && s.env.dp + n < TWO64
    ensures Room(Trimmed(s).env, L, n)
  {
    hide Image, Loaded, BodyOf;
    AnyPrompt(s, L);
  }

  /** What has kept the headers and cells of the dictionary, and the strings below it, has the whole library. */
  lemma ImageKept(m: Mem, u: Mem, n: Mem, L: Lib)
    requires Image(m, L) && Image(u, L) && Extends(m, n)
    requires forall a :: a in u && a + Size(u[a]) <= RAM ==> a in n && n[a] == u[a]
    ensures Image(n, L)
  {
    hide Code, CodeLen, StrText, Immediate, KonstValue;
    forall k: Name | !(k.P? && k.op.Other?) ensures Loaded(n, L, k) {
      assert Loaded(m, L, k) && Loaded(u, L, k);
      if k.D? { CodeExtends(m, n, L, m[L.at(k)].h.body, k.d); }
    }
  }

  lemma CodeExtends(m: Mem, n: Mem, L: Lib, base: Addr, d: Def)
    requires HasCode(m, L, base, d) && Extends(m, n)
    ensures HasCode(n, L, base, d)
  {
    hide Code, CodeLen;
    forall i | 0 <= i < CodeLen(d) ensures HasCell(n, base + 8 * i, CellOf(L, base, Code(d, i))) {
      assert HasCell(m, base + 8 * i, CellOf(L, base, Code(d, i)));
    }
  }

  lemma BodyStays(m: Mem, n: Mem, L: Lib, d: Def)
    requires Image(m, L) && Image(n, L) && Extends(m, n)
    ensures Loaded(m, L, D(d)) && Loaded(n, L, D(d)) && BodyOf(n, L, d) == BodyOf(m, L, d)
  {
    hide Code, CodeLen, HasCode, Immediate;
    Stepping.Known(m, L, D(d));
    Stepping.Known(n, L, D(d));
  }

  /** The dictionary of e is part of that of f. */
  ghost predicate PartOf(e: Env, f: Env) {
    forall a :: a in e.mem && Lasting(e, a, e.mem[a]) ==> a in Kept(f) && Kept(f)[a] == e.mem[a]
  }

  /** After a word, a line or a definition, the machine is at a prompt again, and what was in the dictionary still
      is. */
  lemma BackAtPrompt(s: State, u: State, v: State, L: Lib)
    requires AtAnyPrompt(s, L) && AtPrompt(u, L, Kept(s.env)) && Richer(u, v)
    requires u.env.wib == s.env.wib && s.env.dp <= u.env.dp
    ensures AtAnyPrompt(v, L) && Extends(Kept(s.env), Kept(v.env))
    ensures PartOf(u.env, v.env)
  {
    hide Image, Loaded, BodyOf, WibReady, Code;
    var m, n := Kept(s.env), Kept(v.env);
    assert Extends(m, n);
    ImageKept(m, u.env.mem, n, L);
    BodyStays(m, n, L, INTERPRETLOOP);
    BodyStays(m, u.env.mem, L, INTERPRETLOOP);
    WibLow(u.env);
  }

  lemma PromptNext(u: State, L: Lib, m: Mem)
    requires AtPrompt(u, L, m)
    ensures u.pc == Next && Below(u.env.mem, u.env.dp)
  {
  }

  lemma DefinedUp(e: Env, w: Addr, name: seq<nat>, prev: Addr, vs: seq<nat>)
    requires Defined(e, w, name, prev, vs)
    ensures w <= e.dp
  {
  }

  /** The word that has been defined is part of the dictionary. */
  lemma DefinedKept(s: State, u: State, v: State, L: Lib, name: seq<nat>, vs: seq<nat>)
    requires AtAnyPrompt(s, L) && Richer(u, v) && u.env.wib == s.env.wib
    requires Defined(u.env, s.env.dp, name, s.env.latest, vs)
    ensures Defined(Trimmed(v).env, s.env.dp, name, s.env.latest, vs)
  {
    hide Image, Loaded, BodyOf;
    var n, base := Kept(v.env), s.env.dp + HeaderSize(name);
    forall i | 0 <= i < |vs| ensures HasCell(n, base + 8 * i, vs[i]) {
      assert HasCell(u.env.mem, base + 8 * i, vs[i]);
    }
  }

  /** Typing a list of words runs their effects in order. */
  lemma TypesAll(s: State, L: Lib, ts: seq<Tok>, rest: seq<nat>) returns (v: State)
    requires AtAnyPrompt(s, L) && !s.env.comp && Smooth(ts, DataOf(s)) && Keyed(s.env.keys, Texts(ts), rest)
    requires forall i :: 0 <= i < |ts| ==> Legal(ts[i], Kept(s.env), s.env.latest, L) && Shallow(ts[i], s.rn + 1)
    ensures Reaches(s, v) && AtAnyPrompt(v, L) && Extends(Kept(s.env), Kept(v.env))
    ensures v == WithData(s, After(ts, DataOf(s))).(env := s.env.(mem := v.env.mem, win := v.env.win, keys := rest))
  {
    hide Reaches, AtAnyPrompt, AtPrompt, Legal, Kept, Lasting, BufferOnly, Keyed;
    AnyPrompt(s, L);
    var u := Sessions.TypesAll(Trimmed(s), L, Kept(s.env), ts, rest);
    PromptNext(u, L, Kept(s.env));
    v := Anywhere(s, u);
    BackAtPrompt(s, u, v, L);
  }

  /** Typing `: N ts ;` adds the word N, and nothing that was in the dictionary is touched. */
  lemma Defines(s: State, L: Lib, name: seq<nat>, ts: seq<Tok>, rest: seq<nat>) returns (v: State)
    requires AtAnyPrompt(s, L) && !s.env.comp && BuiltIns(Kept(s.env), s.env.latest, L) && Token(name)
    requires forall i :: 0 <= i < |ts| ==> Legal(ts[i], Kept(s.env), s.env.latest, L)
    requires s.dn + 10 <= STACK_DEPTH && s.env.dp + HeaderSize(name) + 8 * |CellsOf(ts, XtsOf(L))| + 16 < TWO64
    requires Keyed(s.env.keys, [[58]] + ([name] + (Texts(ts) + [[59]])), rest)
    ensures Reaches(s, v) && AtAnyPrompt(v, L) && Extends(Kept(s.env), Kept(v.env)) && v == s.(env := v.env)
    ensures v.env == s.env.(mem := v.env.mem, dp := v.env.dp, latest := s.env.dp, win := v.env.win, keys := rest)
    ensures Defined(Trimmed(v).env, s.env.dp, name, s.env.latest, WordCells(ts, L))
  {
    hide Reaches, AtAnyPrompt, AtPrompt, Legal, Kept, Lasting, BuiltIns, Keyed, Defined, CellsOf;
    AnyPrompt(s, L);
    AnyRoom(s, L, HeaderSize(name) + 8 * |CellsOf(ts, XtsOf(L))| + 16);
    var u := Definitions.Defines(Trimmed(s), L, name, ts, rest);
    PromptNext(u, L, Kept(s.env));
    v := Anywhere(s, u);
    DefinedUp(u.env, s.env.dp, name, s.env.latest, WordCells(ts, L));
    BackAtPrompt(s, u, v, L);
    DefinedKept(s, u, v, L, name, WordCells(ts, L));
  }

  /** Define, then call: typing `: N ts ;` and N leaves the data stack that typing ts leaves, and N is the newest
      word of a dictionary that is otherwise as it was. */
  lemma DefineThenCall(s: State, L: Lib, name: seq<nat>, ts: seq<Tok>, keys: seq<nat>, rest: seq<nat>)
    returns (u: State, v: State)
    requires AtAnyPrompt(s, L) && !s.env.comp && BuiltIns(Kept(s.env), s.env.latest, L) && Token(name)
    requires forall i :: 0 <= i < |ts| ==> Legal(ts[i], Kept(s.env), s.env.latest, L) && Shallow(ts[i], s.rn + 2)
    requires Smooth(ts, DataOf(s))
    requires s.env.dp + HeaderSize(name) + 8 * |CellsOf(ts, XtsOf(L))| + 16 < TWO64
    requires Keyed(s.env.keys, [[58]] + ([name] + (Texts(ts) + [[59]])) + [name], rest) && Keyed(keys, Texts(ts), rest)
    ensures Reaches(s, u) && Reaches(s.(env := s.env.(keys := keys)), v) && AtAnyPrompt(u, L) && AtAnyPrompt(v, L)
    ensures DataOf(u) == DataOf(v) == After(ts, DataOf(s)) && u.ip == v.ip == s.ip && u.env.keys == v.env.keys == rest
    ensures u.env == s.env.(mem := u.env.mem, dp := u.env.dp, latest := s.env.dp, win := u.env.win, keys := rest)
    ensures Defined(Trimmed(u).env, s.env.dp, name, s.env.latest, WordCells(ts, L))
    ensures Extends(Kept(s.env), Kept(u.env))
  {
    hide Reaches, AtAnyPrompt, AtPrompt, Legal, Kept, Lasting, BuiltIns, Keyed, Defined, CellsOf, Smooth;
    AnyPrompt(s, L);
    AnyRoom(s, L, HeaderSize(name) + 8 * |CellsOf(ts, XtsOf(L))| + 16);
    var t, w := Definitions.DefineThenCall(Trimmed(s), L, name, ts, keys, rest);
    PromptNext(t, L, Kept(s.env));
    u := Anywhere(s, t);
    DefinedUp(t.env, s.env.dp, name, s.env.latest, WordCells(ts, L));
    BackAtPrompt(s, t, u, L);
    DefinedKept(s, t, u, L, name, WordCells(ts, L));
    OtherKeys(s, L, keys);
    v := TypesAll(s.(env := s.env.(keys := keys)), L, ts, rest);
  }

  lemma OtherKeys(s: State, L: Lib, keys: seq<nat>)
    requires AtAnyPrompt(s, L)
    ensures var t := s.(env := s.env.(keys := keys)); AtAnyPrompt(t, L) && Kept(t.env) == Kept(s.env)
  {
    hide Image, Loaded, BodyOf;
    assert Kept(s.env.(keys := keys)) == Kept(s.env);
  }

  /** The two compilers agree on what is typed: the part u of the memory v that the dictionary takes is, cell by
      cell, what the C builders leave for the same structured program. */
  lemma TypedDefinition(s: State, L: Lib, name: seq<nat>, p: Structured.Phrases, rest: seq<nat>)
    returns (u: State, v: State)
    requires AtAnyPrompt(s, L) && !s.env.comp && BuiltIns(Kept(s.env), s.env.latest, L) && Token(name)
    requires Structured.Controls(Kept(s.env), s.env.latest, L) && Finds(Trimmed(s).env, XtsOf(L))
    requires Structured.Typable(p, Kept(s.env), s.env.latest)
    requires s.dn + ControlWords.Nesting(Structured.Meant(p)) + 11 <= STACK_DEPTH
    requires s.env.dp + HeaderSize(name) + 8 * Len(Structured.Meant(p)) + 16 < TWO64
    requires Keyed(s.env.keys, [[58]] + ([name] + (Structured.Keyboard(p) + [[59]])), rest)
    ensures Reaches(s, v) && AtAnyPrompt(v, L) && Extends(Kept(s.env), Kept(v.env)) && v == s.(env := v.env)
    ensures v.env == s.env.(mem := v.env.mem, dp := v.env.dp, latest := s.env.dp, win := v.env.win, keys := rest)
    ensures Richer(u, v) && PartOf(u.env, v.env) && Below(u.env.mem, u.env.dp)
    ensures Alike(Programs.Defined(Structured.AtStart(Trimmed(s)), name, Structured.Meant(p), XtsOf(L)).env, u.env)
  {
    hide Reaches, AtAnyPrompt, AtPrompt, Kept, Lasting, BuiltIns, Keyed, Structured.Controls, Structured.Typable, Len,
      Programs.Defined, BufferOnly, Finds, ControlWords.Nesting;
    AnyPrompt(s, L);
    AnyRoom(s, L, HeaderSize(name) + 8 * Len(Structured.Meant(p)) + 16);
    u := Structured.TypedDefinition(Trimmed(s), L, name, p, rest);
    PromptNext(u, L, Kept(s.env));
    v := Anywhere(s, u);
    BackAtPrompt(s, u, v, L);
  }

  // The same for reading words and for the control structures, call by call.

  lemma {:induction false} ReadsCarried(s: State, L: Lib, ws: seq<seq<nat>>, u: State, t: State) returns (v: State)
    requires Reads(s, L, ws, u) && Richer(s, t)
    ensures Reads(t, L, ws, v) && Richer(u, v)
    decreases |ws|
  {
    hide Reaches;
    if ws == [] {
      v := t;
    } else {
      var m: State :| Reaches(s.(pc := Exec(L.at(D(WIBWORD)))), m) && m.pc == Next
        && m.env.win == |ws[0]| && HasChars(m.env.mem, m.env.wib, ws[0]) && Reads(m, L, ws[1..], u);
      var n := Carries(s.(pc := Exec(L.at(D(WIBWORD)))), m, t.(pc := Exec(L.at(D(WIBWORD)))));
      v := ReadsCarried(m, L, ws[1..], u, n);
    }
  }

  /** Repeated WIB-WORD yields the words of the key stream, in order, whatever lies in the buffer and above DP. */
  lemma ReadsAll(s: State, L: Lib) returns (v: State)
    requires s.pc == Next && Image(Kept(s.env), L) && DefaultIo(s.env, L) && s.dn + 5 <= STACK_DEPTH
    requires s.rn + 4 <= STACK_DEPTH && RAM <= s.env.wib && s.env.wib + 2 * WIB_CHARS <= s.env.dp < TWO64
    requires Printing.Characters(s.env.keys) && Short(WordsOf(s.env.keys))
    ensures Reads(s, L, WordsOf(s.env.keys), v)
    ensures v == s.(env := s.env.(mem := v.env.mem, win := v.env.win, keys := Remaining(s.env.keys)))
    ensures Extends(Kept(s.env), v.env.mem)
  {
    hide Reads, Image, Kept, WordsOf, Remaining;
    KeptReady(s.env);
    TrimmedOver(s);
    var u := Tokeniser.ReadsAll(Trimmed(s), L);
    v := ReadsCarried(Trimmed(s), L, WordsOf(s.env.keys), u, s);
  }

  lemma ExecutesCarried(s: State, L: Lib, x: Xts, a: Act, u: State, t: State) returns (v: State)
    requires ControlWords.Executes(s, L, x, a, u) && Richer(s, t)
    ensures ControlWords.Executes(t, L, x, a, v) && Richer(u, v)
  {
    hide Reaches;
    match a {
      case ACell(c) => v := CalledCarried(ControlWords.WithTop(s, c), L, XCOMMA, u, ControlWords.WithTop(t, c));
      case ALit(c) =>
        var s0 := ControlWords.WithTop(ControlWords.WithTop(s, c), x.lit);
        var t0 := ControlWords.WithTop(ControlWords.WithTop(t, c), x.lit);
        var m: State :| m.pc == Next && Reaches(s0.(pc := Exec(L.at(D(XCOMMA)))), m)
          && Reaches(m.(pc := Exec(L.at(D(XCOMMA)))), u);
        var n := CalledCarried(s0, L, XCOMMA, m, t0);
        v := CalledCarried(m, L, XCOMMA, u, n);
      case AIf => v := CalledCarried(s, L, IF, u, t);
      case AThen => v := CalledCarried(s, L, THEN, u, t);
      case ABegin => v := CalledCarried(s, L, BEGIN, u, t);
      case AAgain => v := CalledCarried(s, L, AGAIN, u, t);
      case AUntil => v := CalledCarried(s, L, UNTIL, u, t);
    }
  }

  lemma CalledCarried(s: State, L: Lib, d: Def, u: State, t: State) returns (v: State)
    requires Reaches(s.(pc := Exec(L.at(D(d)))), u) && u.pc == Next && Richer(s, t)
    ensures Reaches(t.(pc := Exec(L.at(D(d)))), v) && Richer(u, v)
  {
    hide Reaches;
    v := Carries(s.(pc := Exec(L.at(D(d)))), u, t.(pc := Exec(L.at(D(d)))));
  }

  lemma {:induction false} FeedsCarried(s: State, L: Lib, x: Xts, p: Prog, u: State, t: State) returns (v: State)
    requires ControlWords.Feeds(s, L, x, p, u) && Richer(s, t)
    ensures ControlWords.Feeds(t, L, x, p, v) && Richer(u, v)
    decreases p, 0
  {
    hide ControlWords.FeedsCmd, Richer;
    match p {
      case Nil => v := t;
      case Seq(c, r) =>
        var m :| ControlWords.FeedsCmd(s, L, x, c, m) && ControlWords.Feeds(m, L, x, r, u);
        var n := CmdCarried(s, L, x, c, m, t);
        v := FeedsCarried(m, L, x, r, u, n);
    }
  }

  lemma {:induction false} CmdCarried(s: State, L: Lib, x: Xts, c: Cmd, u: State, t: State) returns (v: State)
    requires ControlWords.FeedsCmd(s, L, x, c, u) && Richer(s, t)
    ensures ControlWords.FeedsCmd(t, L, x, c, v) && Richer(u, v)
    decreases c
  {
    hide ControlWords.Executes, Richer;
    match c {
      case Prim(xt) => v := ExecutesCarried(s, L, x, ACell(xt), u, t);
      case Number(n) => v := ExecutesCarried(s, L, x, ALit(n), u, t);
      case Leave => v := ExecutesCarried(s, L, x, ACell(x.exit), u, t);
      case If(q) => v := PartsCarried(s, L, x, q, AIf, AThen, u, t);
      case Until(q) => v := PartsCarried(s, L, x, q, ABegin, AUntil, u, t);
      case Again(q) => v := PartsCarried(s, L, x, q, ABegin, AAgain, u, t);
    }
  }

  /** A control structure: its opening word, its body, its closing word. */
  ghost predicate Parts(s: State, L: Lib, x: Xts, q: Prog, a: Act, b: Act, u: State) {
    exists m, n ::
      ControlWords.Executes(s, L, x, a, m) && ControlWords.Feeds(m, L, x, q, n) && ControlWords.Executes(n, L, x, b, u)
  }

  lemma {:induction false} PartsCarried(s: State, L: Lib, x: Xts, q: Prog, a: Act, b: Act, u: State, t: State)
    returns (v: State)
    requires Parts(s, L, x, q, a, b, u) && Richer(s, t)
    ensures Parts(t, L, x, q, a, b, v) && Richer(u, v)
    decreases q, 1
  {
    hide ControlWords.Executes, Richer, ControlWords.Feeds;
    var m, n :| ControlWords.Executes(s, L, x, a, m) && ControlWords.Feeds(m, L, x, q, n)
      && ControlWords.Executes(n, L, x, b, u);
    var m1 := ExecutesCarried(s, L, x, a, m, t);
    var n1 := FeedsCarried(m, L, x, q, n, m1);
    v := ExecutesCarried(n, L, x, b, u, n1);
  }

  /** For every program the immediate words compile the cells that the builders emit, whatever lies above DP. */
  lemma ThreadedEmits(s: State, L: Lib, x: Xts, p: Prog, n: nat, k: nat) returns (v: State)
    requires ControlWords.Fit(Trimmed(s), L, x, 8 * Len(p) + n, k) && ControlWords.Nesting(p) <= k
    ensures ControlWords.Feeds(s, L, x, p, v)
    ensures Richer(ControlWords.Compiled(Trimmed(s), p, x), v)
  {
    hide ControlWords.Fit, ControlWords.Feeds, ControlWords.Compiled, Kept;
    TrimmedOver(s);
    ControlWords.ThreadedEmits(Trimmed(s), L, x, p, n, k);
    v := FeedsCarried(Trimmed(s), L, x, p, ControlWords.Compiled(Trimmed(s), p, x), s);
  }
}
