/** Definitions with control structures, typed at the prompt: `: N ... IF ... THEN ... ;` leaves what the C
    builders leave. */
module Structured {
  import opened Words
  import opened Memory
  import opened Opcodes
  import opened Machine
  import opened Builders
  import opened Compiler
  import opened Library
  import opened Stepping
  import opened StackWords
  import opened IoWords
  import opened DictWords
  import opened Tokeniser
  import opened ControlWords
  import opened Interpret
  import opened Defining
  import opened Sessions
  import opened Definitions
  import Programs
  import Meaning
  import Following

  /** A program as it is typed: words and numbers by their text, control structures by their words. */
  datatype Phrase =
    | Name(text: seq<nat>, xt: Addr)
    | Digits(text: seq<nat>)
    | When(q: Phrases)
    | Repeat(q: Phrases)
    | Forever(q: Phrases)
  datatype Phrases = Empty | Then(c: Phrase, rest: Phrases)

  /** The structured program that is meant. */
  function Meant(p: Phrases): Prog
    decreases p
  {
    match p
    case Empty => Nil
    case Then(c, r) => Seq(MeantBy(c), Meant(r))
  }

  function MeantBy(c: Phrase): Cmd
    decreases c
  {
    match c
    case Name(_, xt) => Prim(xt)
    case Digits(text) => Number(NumberOf(text))
    case When(q) => If(Meant(q))
    case Repeat(q) => Until(Meant(q))
    case Forever(q) => Again(Meant(q))
  }

  /** The word that is typed for a builder call. */
  function Spelt(a: Act): seq<nat> {
    match a
    case AIf => Codes("IF")
    case AThen => Codes("THEN")
    case ABegin => Codes("BEGIN")
    case AAgain => Codes("AGAIN")
    case AUntil => Codes("UNTIL")
    case _ => []
  }

  function Keyboard(p: Phrases): seq<seq<nat>>
    decreases p
  {
    match p
    case Empty => []
    case Then(c, r) => KeyedBy(c) + Keyboard(r)
  }

  function KeyedBy(c: Phrase): seq<seq<nat>>
    decreases c
  {
    match c
    case Name(text, _) => [text]
    case Digits(text) => [text]
    case When(q) => [Spelt(AIf)] + Keyboard(q) + [Spelt(AThen)]
    case Repeat(q) => [Spelt(ABegin)] + Keyboard(q) + [Spelt(AUntil)]
    case Forever(q) => [Spelt(ABegin)] + Keyboard(q) + [Spelt(AAgain)]
  }

  lemma AlikeRead(e: Env, f: Env, L: Lib, tok: seq<nat>, rest: seq<nat>)
    requires Alike(e, f) && Image(f.mem, L) && WibReady(f) && Below(f.mem, f.dp) && |tok| <= WIB_CHARS
    ensures Alike(e, ReadEnv(f, tok, rest))
  {
    hide Image, WibReady, Below, BufferOnly, ReadEnv;
    ReadEffect(f, L, tok, rest);
    BufferOnlyTrans(e.mem, f.mem, ReadEnv(f, tok, rest).mem, f.wib);
  }

  lemma AlikeFinds(e: Env, f: Env, x: Xts)
    requires Alike(e, f) && Finds(f, x)
    ensures Finds(e, x)
  {
    hide Search, BufferOnly;
    SearchSame(e.mem, f.mem, f.wib, e.latest, Codes("LIT"));
    SearchSame(e.mem, f.mem, f.wib, e.latest, Codes("BRANCH"));
    SearchSame(e.mem, f.mem, f.wib, e.latest, Codes("ZBRANCH"));
  }

  lemma AlikeReady(e: Env, f: Env, x: Xts)
    requires Alike(e, f) && Finds(f, x) && Below(f.mem, f.dp)
    ensures Ready(e, x)
  {
    AlikeFinds(e, f, x);
  }

  /** A builder call keeps dictionaries alike. */
  lemma AlikeBuild(b: Builder, f: Env, k: Stack, a: Act, x: Xts)
    requires Alike(b.env, f) && b.cstk == k && Finds(f, x)
    ensures var c, d := Build(b, a), Build(Builder(f, k), a);
      Alike(c.env, d.env) && c.cstk == d.cstk
  {
    hide Search, Codes, BufferOnly;
    AlikeFinds(b.env, f, x);
    AlikeXt(b.env, f, x);
    match a {
      case ACell(v) => AlikeComma(b.env, f, v);
      case ALit(n) =>
        AlikeComma(b.env, f, x.lit);
        AlikeComma(Comma(b.env, x.lit), Comma(f, x.lit), n);
      case AIf =>
        AlikeComma(b.env, f, x.zbranch);
        AlikeComma(Comma(b.env, x.zbranch), Comma(f, x.zbranch), 0);
      case AThen => AlikeStore(b.env, f, CTop(b), Cell(b.env.dp), b.env.dp, b.env.latest);
      case ABegin =>
      case AAgain =>
        AlikeComma(b.env, f, x.branch);
        AlikeComma(Comma(b.env, x.branch), Comma(f, x.branch), CTop(b));
      case AUntil =>
        AlikeComma(b.env, f, x.zbranch);
        AlikeComma(Comma(b.env, x.zbranch), Comma(f, x.zbranch), CTop(b));
    }
  }

  lemma AlikeXt(e: Env, f: Env, x: Xts)
    requires Finds(e, x) && Finds(f, x)
    ensures Xt(e, Codes("LIT")) == Xt(f, Codes("LIT")) == x.lit
    ensures Xt(e, Codes("BRANCH")) == Xt(f, Codes("BRANCH")) == x.branch
    ensures Xt(e, Codes("ZBRANCH")) == Xt(f, Codes("ZBRANCH")) == x.zbranch
  {
    hide Search, Codes;
  }

  lemma AlikeComma(e: Env, f: Env, v: nat)
    requires Alike(e, f)
    ensures Alike(Comma(e, v), Comma(f, v))
  {
    AlikeStore(e, f, e.dp, Cell(v), e.dp + 8, e.latest);
  }

  // Every library word stays where it is.

  ghost predicate Unmoved(m: Mem, n: Mem, L: Lib) {
    forall d: Def :: Still(m, n, L, d)
  }

  ghost predicate Still(m: Mem, n: Mem, L: Lib, d: Def) {
    Loaded(m, L, D(d)) && Loaded(n, L, D(d)) && BodyOf(n, L, d) == BodyOf(m, L, d)
  }

  lemma UnmovedStore(m: Mem, L: Lib, a: Addr, c: Chunk)
    requires Image(m, L) && RAM <= a && (L.top <= a || a !in m || m[a].Wide?)
    ensures Unmoved(m, m[a := c], L)
  {
    hide Image, Loaded, BodyOf;
    var n := m[a := c];
    forall d: Def ensures Still(m, n, L, d) {
      LoadedStore(m, L, d, a, c);
    }
  }

  lemma UnmovedTrans(m: Mem, n: Mem, o: Mem, L: Lib)
    requires Unmoved(m, n, L) && Unmoved(n, o, L)
    ensures Unmoved(m, o, L)
  {
    hide Loaded, BodyOf;
    forall d: Def ensures Still(m, o, L, d) {
      assert Still(m, n, L, d) && Still(n, o, L, d);
    }
  }

  lemma UnmovedRead(e: Env, L: Lib, tok: seq<nat>, rest: seq<nat>)
    requires Image(e.mem, L) && WibReady(e) && Below(e.mem, e.dp) && |tok| <= WIB_CHARS
    ensures Unmoved(e.mem, ReadEnv(e, tok, rest).mem, L)
  {
    hide Image, WibReady, Below, Loaded, BodyOf, ReadEnv, BufferOnly;
    ReadEffect(e, L, tok, rest);
    forall d: Def ensures Still(e.mem, ReadEnv(e, tok, rest).mem, L, d) {
      LoadedIn(e.mem, ReadEnv(e, tok, rest).mem, L, d, e.wib);
    }
  }

  /** New code goes above floor: above the library, the buffer and the dictionary m. */
  ghost predicate Floor(e: Env, L: Lib, m: Mem, floor: Addr) {
    && L.top <= floor <= e.dp && RAM <= floor && e.wib + 2 * WIB_CHARS <= floor
    && forall a :: a in m && floor <= a ==> m[a].Wide?
  }

  /** The dictionary while a word is being compiled, with n bytes to go. */
  ghost predicate Growable(e: Env, L: Lib, m: Mem, x: Xts, floor: Addr, n: nat) {
    Sound(e, L, m) && Room(e, L, n) && Finds(e, x) && Floor(e, L, m, floor)
  }

  lemma OpenLess(e: Env, L: Lib, m: Mem, x: Xts, floor: Addr, n: nat, k: nat)
    requires Growable(e, L, m, x, floor, n) && k <= n
    ensures Growable(e, L, m, x, floor, k)
  {
    hide Sound, Finds, Floor;
  }

  lemma OpenComma(e: Env, L: Lib, m: Mem, x: Xts, floor: Addr, n: nat, v: nat)
    requires Growable(e, L, m, x, floor, n + 8)
    ensures Growable(Comma(e, v), L, m, x, floor, n) && Unmoved(e.mem, Comma(e, v).mem, L)
  {
    hide Image, WibReady, Search, Loaded, BodyOf, Unmoved, Extends;
    CommaSound(e, L, m, v);
    CommaRoom(e, L, v, n);
    NothingAt(e.mem, e.dp);
    FindsKeeps(e, x, e.dp, Cell(v), e.dp + 8);
    UnmovedStore(e.mem, L, e.dp, Cell(v));
  }

  lemma OpenPatch(e: Env, L: Lib, m: Mem, x: Xts, floor: Addr, n: nat, a: Addr, v: nat)
    requires Growable(e, L, m, x, floor, n) && floor <= a && a in e.mem && e.mem[a].Cell?
    ensures var f := e.(mem := e.mem[a := Cell(v)]);
      Growable(f, L, m, x, floor, n) && Unmoved(e.mem, f.mem, L)
  {
    hide Image, WibReady, Search, Loaded, BodyOf, Unmoved;
    ImageStore(e.mem, L, a, Cell(v));
    WibLow(e);
    WibStoreAbove(e, a, Cell(v), e.dp);
    assert e.(mem := e.mem[a := Cell(v)], dp := e.dp) == e.(mem := e.mem[a := Cell(v)]);
    FindsKeeps(e, x, a, Cell(v), e.dp);
    UnmovedStore(e.mem, L, a, Cell(v));
  }

  lemma OpenRead(e: Env, L: Lib, m: Mem, x: Xts, floor: Addr, n: nat, tok: seq<nat>, rest: seq<nat>)
    requires Growable(e, L, m, x, floor, n) && |tok| <= WIB_CHARS
    ensures var f := ReadEnv(e, tok, rest);
      Growable(f, L, m, x, floor, n) && Unmoved(e.mem, f.mem, L) && f == e.(mem := f.mem, win := f.win, keys := rest)
  {
    hide Image, WibReady, Below, Search, Loaded, BodyOf, Unmoved, ReadEnv, Extends, BufferOnly;
    ReadSound(e, L, m, tok, rest, n);
    ReadEffect(e, L, tok, rest);
    UnmovedRead(e, L, tok, rest);
    var f := ReadEnv(e, tok, rest);
    SearchSame(e.mem, f.mem, e.wib, e.latest, Codes("LIT"));
    SearchSame(e.mem, f.mem, e.wib, e.latest, Codes("BRANCH"));
    SearchSame(e.mem, f.mem, e.wib, e.latest, Codes("ZBRANCH"));
  }

  lemma GrowableImage(e: Env, L: Lib, m: Mem, x: Xts, floor: Addr, n: nat)
    requires Growable(e, L, m, x, floor, n)
    ensures Image(e.mem, L) && WibReady(e) && Below(e.mem, e.dp) && Finds(e, x) && Extends(m, e.mem) && floor <= e.dp
  {
    hide Image, WibReady, Below, Finds, Extends;
  }

  /** The bytes a builder call appends. */
  function Cost(a: Act): nat {
    match a
    case ACell(_) => 8
    case ABegin | AThen => 0
    case _ => 16
  }

  /** A builder call on an open word. */
  lemma OpenBuild(b: Builder, L: Lib, m: Mem, x: Xts, floor: Addr, n: nat, a: Act)
    requires Growable(b.env, L, m, x, floor, n + Cost(a))
    requires a == AThen ==> floor <= CTop(b) && CTop(b) in b.env.mem && b.env.mem[CTop(b)].Cell?
    ensures Growable(Build(b, a).env, L, m, x, floor, n) && Unmoved(b.env.mem, Build(b, a).env.mem, L)
  {
    hide Growable, Unmoved, Search, Codes;
    OpenXt(b.env, L, m, x, floor, n + Cost(a));
    match a {
      case ACell(v) => OpenComma(b.env, L, m, x, floor, n, v);
      case ALit(v) => OpenTwo(b.env, L, m, x, floor, n, x.lit, v);
      case AIf => OpenTwo(b.env, L, m, x, floor, n, x.zbranch, 0);
      case AThen => OpenPatch(b.env, L, m, x, floor, n, CTop(b), b.env.dp);
      case ABegin => OpenSame(b.env, L, m, x, floor, n);
      case AAgain => OpenTwo(b.env, L, m, x, floor, n, x.branch, CTop(b));
      case AUntil => OpenTwo(b.env, L, m, x, floor, n, x.zbranch, CTop(b));
    }
  }

  lemma OpenXt(e: Env, L: Lib, m: Mem, x: Xts, floor: Addr, n: nat)
    requires Growable(e, L, m, x, floor, n)
    ensures Xt(e, Codes("LIT")) == x.lit && Xt(e, Codes("BRANCH")) == x.branch && Xt(e, Codes("ZBRANCH")) == x.zbranch
  {
    hide Sound, Floor, Room;
    AlikeXt(e, e, x);
  }

  lemma OpenSame(e: Env, L: Lib, m: Mem, x: Xts, floor: Addr, n: nat)
    requires Growable(e, L, m, x, floor, n)
    ensures Unmoved(e.mem, e.mem, L)
  {
    hide Search, WibReady, Below, Extends, Loaded, BodyOf;
    forall d: Def ensures Still(e.mem, e.mem, L, d) {
      Stepping.Known(e.mem, L, D(d));
    }
  }

  lemma OpenTwo(e: Env, L: Lib, m: Mem, x: Xts, floor: Addr, n: nat, v: nat, w: nat)
    requires Growable(e, L, m, x, floor, n + 16)
    ensures var f := Comma(Comma(e, v), w);
      Growable(f, L, m, x, floor, n) && Unmoved(e.mem, f.mem, L)
  {
    hide Growable, Unmoved;
    OpenComma(e, L, m, x, floor, n + 8, v);
    OpenComma(Comma(e, v), L, m, x, floor, n, w);
    UnmovedTrans(e.mem, Comma(e, v).mem, Comma(Comma(e, v), w).mem, L);
  }

  // What is typed.

  function WordOf(a: Act): Def {
    match a
    case AIf => IF
    case AThen => THEN
    case AAgain => AGAIN
    case AUntil => UNTIL
    case _ => BEGIN
  }

  /** The word text, typed in a definition, asks for the builder call a. */
  ghost predicate Asks(e: Env, L: Lib, a: Act, text: seq<nat>) {
    Token(text) &&
    match a
    case ACell(xt) =>
      Search(e.mem, e.latest, text) == Found(xt) && xt != 0 && HasWord(e.mem, xt) && !e.mem[xt].h.immediate
    case ALit(v) =>
      Search(e.mem, e.latest, text) == Absent && IsNumberText(text) && |text| <= 17 && v == NumberOf(text)
    case _ => text == Spelt(a) && Search(e.mem, e.latest, text) == Found(L.at(D(WordOf(a))))
  }

  /** INTERPRET, compiling, given an ordinary word or a number. */
  lemma InterpretAppends(c: State, L: Lib, m: Mem, x: Xts, floor: Addr, n: nat, a: Act, text: seq<nat>, rest: seq<nat>)
    requires Calling(c, L, INTERPRET) && Reading(c, L, 9, 7) && c.env.comp && Growable(c.env, L, m, x, floor, n + 16)
    requires Asks(c.env, L, a, text) && NextWord(c.env.keys, text, rest) && c.ds.Item? && 0 < c.dn
    requires a.ACell? || a.ALit?
    ensures Reaches(c, Built(c.(env := ReadEnv(c.env, text, rest)), a))
  {
    hide Reaches, Image, Loaded, BodyOf, WibReady, Below, Extends, ReadEnv, Search, IsNumberText, NumberOf, StrText,
      HasChars, Plain, NextWord, Floor, Codes;
    var f := ReadEnv(c.env, text, rest);
    OpenRead(c.env, L, m, x, floor, n + 16, text, rest);
    OpenXt(f, L, m, x, floor, n + 16);
    match a {
      case ACell(xt) =>
        CompilesWord(c, L, text, rest, xt);
        assert Built(c.(env := f), a) == c.(pc := Next, env := Comma(f, xt));
      case ALit(v) =>
        LitSpelt();
        CompilesNumber(c, L, x, text, rest);
        assert Built(c.(env := f), a) == c.(pc := Next, env := Comma(Comma(f, x.lit), v));
    }
  }

  lemma LitSpelt()
    ensures StrText(SLit) == Codes("LIT")
  {
  }

  /** The immediate word for a, run from wherever it was called. */
  lemma WordBuilds(s: State, L: Lib, m: Mem, x: Xts, floor: Addr, n: nat, a: Act)
    requires Calling(s, L, WordOf(a)) && Growable(s.env, L, m, x, floor, n + 16) && !a.ACell? && !a.ALit?
    requires s.ds.Item? && 0 < s.dn && s.dn + 6 <= STACK_DEPTH && s.rn + 4 <= STACK_DEPTH
    requires a == AThen ==> floor <= s.tos && s.tos in s.env.mem && s.env.mem[s.tos].Cell?
    ensures Reaches(s, Built(s, a))
  {
    hide Reaches, Image, WibReady, Below, Extends, Search, Codes, Built;
    match a {
      case AIf => IfWord(s, L, x);
      case AThen => ThenWord(s, L, x);
      case ABegin => BeginWord(s, L, x);
      case AAgain => BackWord(s, L, x, AGAIN, SBranch, x.branch, a);
      case AUntil => BackWord(s, L, x, UNTIL, SZBranch, x.zbranch, a);
    }
  }

  /** INTERPRET, compiling, given a word of a control structure. */
  lemma InterpretControls(c: State, L: Lib, m: Mem, x: Xts, floor: Addr, n: nat, a: Act, text: seq<nat>, rest: seq<nat>)
    requires Calling(c, L, INTERPRET) && Reading(c, L, 9, 7) && c.env.comp
    requires Growable(c.env, L, m, x, floor, n + Cost(a) + 16)
    requires Asks(c.env, L, a, text) && NextWord(c.env.keys, text, rest) && c.ds.Item? && 0 < c.dn
    requires !a.ACell? && !a.ALit?
    requires a == AThen ==> floor <= c.tos && c.tos in c.env.mem && c.env.mem[c.tos].Cell?
    ensures Reaches(c, Built(c.(env := ReadEnv(c.env, text, rest)), a))
  {
    hide Reaches, Image, Loaded, BodyOf, WibReady, Below, Extends, ReadEnv, Search, HasChars, Plain, NextWord, Floor,
      Codes, Growable, Unmoved, Build, Built, Spelt, Step, Run, BufferOnly;
    var d := WordOf(a);
    WordImmediate(c.env.mem, L, a);
    var f := ReadEnv(c.env, text, rest);
    var s1 := ExecutesWord(c, L, text, rest, L.at(D(d)));
    OpenRead(c.env, L, m, x, floor, n + Cost(a) + 16, text, rest);
    OpenLess(f, L, m, x, floor, n + Cost(a) + 16, n + 16);
    CellRead(c.env, L, text, rest, c.tos);
    GrowableImage(f, L, m, x, floor, n + 16);
    Stepping.Known(c.env.mem, L, D(INTERPRET));
    WordBuilds(s1, L, m, x, floor, n, a);
    OpenBuild(AsBuilder(s1), L, m, x, floor, n + 16, a);
    BuiltLeaves(c, s1, L, m, x, floor, n + 16, a, f);
  }

  /** Back from the immediate word, INTERPRET returns. */
  lemma BuiltLeaves(c: State, s: State, L: Lib, m: Mem, x: Xts, floor: Addr, n: nat, a: Act, f: Env)
    requires Image(c.env.mem, L) && Unmoved(c.env.mem, f.mem, L) && Unmoved(f.mem, Build(AsBuilder(s), a).env.mem, L)
    requires c.ds.Item? && 0 < c.dn
    requires s == c.(pc := s.pc, ip := s.ip, rs := Item(c.ip, c.rs), rn := c.rn + 1, env := f)
    requires Reaches(c, s) && Reaches(s, Built(s, a))
    requires Loaded(c.env.mem, L, D(INTERPRET)) && s.ip == BodyOf(c.env.mem, L, INTERPRET) + 8 * 13
    requires Growable(Build(AsBuilder(s), a).env, L, m, x, floor, n)
    ensures Reaches(c, Built(c.(env := f), a))
  {
    hide Reaches, Image, Loaded, BodyOf, Build, Step, Run, WibReady, Below, Extends, Search, Floor;
    var t := Built(s, a);
    ReachesTrans(c, s, t);
    assert Still(c.env.mem, f.mem, L, INTERPRET) && Still(f.mem, t.env.mem, L, INTERPRET);
    var u := Return(c, t, L, INTERPRET, 13);
    assert u == Built(c.(env := f), a);
  }

  lemma CellRead(e: Env, L: Lib, tok: seq<nat>, rest: seq<nat>, a: Addr)
    requires Image(e.mem, L) && WibReady(e) && Below(e.mem, e.dp) && |tok| <= WIB_CHARS
    ensures var f := ReadEnv(e, tok, rest); a in e.mem && e.mem[a].Cell? ==> a in f.mem && f.mem[a] == e.mem[a]
  {
    hide Image, WibReady, Below, ReadEnv;
    ReadEffect(e, L, tok, rest);
  }

  lemma WordImmediate(m: Mem, L: Lib, a: Act)
    requires Image(m, L) && !a.ACell? && !a.ALit?
    ensures var xt := L.at(D(WordOf(a))); xt != 0 && HasWord(m, xt) && m[xt].h.immediate
  {
    hide Image, Code, CodeLen;
    Stepping.Known(m, L, D(WordOf(a)));
  }

  /** A word or number of a definition, typed at the prompt: the dictionary and the addresses on the stack are
      those that the builder call leaves. */
  lemma TypesAct(s: State, L: Lib, m: Mem, x: Xts, floor: Addr, n: nat, a: Act, text: seq<nat>, rest: seq<nat>)
    returns (u: State)
    requires AtPrompt(s, L, m) && s.env.comp && Growable(s.env, L, m, x, floor, n + Cost(a) + 16)
    requires Asks(s.env, L, a, text) && NextWord(s.env.keys, text, rest)
    requires s.ds.Item? && 0 < s.dn && s.dn + 10 <= STACK_DEPTH
    requires a == AThen ==> floor <= s.tos && s.tos in s.env.mem && s.env.mem[s.tos].Cell?
    ensures Reaches(s, u) && AtPrompt(u, L, m) && u == Built(s.(env := ReadEnv(s.env, text, rest)), a)
    ensures Growable(u.env, L, m, x, floor, n + 16)
  {
    hide Reaches, Image, Loaded, BodyOf, WibReady, Below, Extends, ReadEnv, Search, Asks, NextWord, Growable, Unmoved,
      Build, Built, Step, Run, Token;
    var c := s.(ip := s.ip + 8, pc := Exec(L.at(D(INTERPRET))));
    var f := ReadEnv(s.env, text, rest);
    TextShort(s.env, L, a, text);
    OpenRead(s.env, L, m, x, floor, n + Cost(a) + 16, text, rest);
    CellRead(s.env, L, text, rest, s.tos);
    OpenBuild(Builder(f, Item(s.tos, s.ds)), L, m, x, floor, n + 16, a);
    if a.ACell? || a.ALit? {
      OpenLess(s.env, L, m, x, floor, n + Cost(a) + 16, n + 16);
      InterpretAppends(c, L, m, x, floor, n, a, text, rest);
    } else {
      InterpretControls(c, L, m, x, floor, n, a, text, rest);
    }
    u := GoesRound(s, L, m, x, floor, n + 16, a, f);
  }

  lemma TextShort(e: Env, L: Lib, a: Act, text: seq<nat>)
    requires Asks(e, L, a, text)
    ensures |text| <= WIB_CHARS
  {
    hide Search, IsNumberText, Spelt;
  }

  /** INTERPRET-FIX finds nothing to do, and the loop starts again. */
  lemma GoesRound(s: State, L: Lib, m: Mem, x: Xts, floor: Addr, n: nat, a: Act, f: Env) returns (u: State)
    requires AtPrompt(s, L, m) && s.ds.Item? && 0 < s.dn && s.dn + 10 <= STACK_DEPTH
    requires f == s.env.(mem := f.mem, win := f.win, keys := f.keys) && Unmoved(s.env.mem, f.mem, L)
    requires var b := Builder(f, Item(s.tos, s.ds));
      Growable(Build(b, a).env, L, m, x, floor, n) && Unmoved(f.mem, Build(b, a).env.mem, L)
    requires var c := s.(ip := s.ip + 8, pc := Exec(L.at(D(INTERPRET))));
      Reaches(c, Built(c.(env := f), a))
    ensures Reaches(s, u) && AtPrompt(u, L, m) && u == Built(s.(env := f), a)
    ensures Growable(u.env, L, m, x, floor, n)
  {
    hide Reaches, Image, Loaded, BodyOf, WibReady, Below, Extends, Search, Build, Step, Run, Floor;
    var c := s.(ip := s.ip + 8, pc := Exec(L.at(D(INTERPRET))));
    var v := Built(c.(env := f), a);
    assert Still(s.env.mem, f.mem, L, INTERPRETLOOP) && Still(f.mem, v.env.mem, L, INTERPRETLOOP);
    u := OneRound(s, v, L, m);
    assert u == Built(s.(env := f), a);
  }

  /** The same, against a dictionary that the C builders keep. */
  lemma ActTyped(s: State, L: Lib, m: Mem, x: Xts, floor: Addr, n: nat, b: Builder, a: Act, text: seq<nat>,
      rest: seq<nat>)
    returns (u: State)
    requires AtPrompt(s, L, m) && s.env.comp && Growable(s.env, L, m, x, floor, n + Cost(a) + 16)
    requires Asks(s.env, L, a, text) && NextWord(s.env.keys, text, rest)
    requires s.ds.Item? && 0 < s.dn && s.dn + 10 <= STACK_DEPTH
    requires a == AThen ==> floor <= s.tos && s.tos in s.env.mem && s.env.mem[s.tos].Cell?
    requires Alike(b.env, s.env) && b.cstk == Item(s.tos, s.ds)
    ensures Reaches(s, u) && AtPrompt(u, L, m) && Growable(u.env, L, m, x, floor, n + 16)
    ensures Alike(Build(b, a).env, u.env) && Build(b, a).cstk == Item(u.tos, u.ds)
    ensures u == s.(tos := u.tos, ds := u.ds, dn := Grown(a, s.dn), env := u.env)
    ensures u.env == s.env.(mem := u.env.mem, dp := u.env.dp, win := u.env.win, keys := rest)
  {
    hide Reaches, Image, WibReady, Below, Extends, ReadEnv, Search, Asks, NextWord, Growable, Unmoved, BufferOnly,
      AtPrompt, Codes, Alike;
    var f := ReadEnv(s.env, text, rest);
    TextShort(s.env, L, a, text);
    GrowableImage(s.env, L, m, x, floor, n + Cost(a) + 16);
    OpenRead(s.env, L, m, x, floor, n + Cost(a) + 16, text, rest);
    GrowableImage(f, L, m, x, floor, n + Cost(a) + 16);
    u := TypesAct(s, L, m, x, floor, n, a, text, rest);
    AlikeRead(b.env, s.env, L, text, rest);
    AlikeBuild(b, f, b.cstk, a, x);
    PromptNext(s, L, m);
  }

  lemma PromptNext(s: State, L: Lib, m: Mem)
    requires AtPrompt(s, L, m)
    ensures s.pc == Next
  {
  }

  /** The words of p are in the dictionary m, its numbers are not. */
  ghost predicate Typable(p: Phrases, m: Mem, latest: Addr)
    decreases p
  {
    match p
    case Empty => true
    case Then(c, r) => TypableBy(c, m, latest) && Typable(r, m, latest)
  }

  ghost predicate TypableBy(c: Phrase, m: Mem, latest: Addr)
    decreases c
  {
    match c
    case Name(text, xt) =>
      Token(text) && Search(m, latest, text) == Found(xt) && xt != 0 && HasWord(m, xt) && !m[xt].h.immediate
    case Digits(text) => Token(text) && Search(m, latest, text) == Absent && IsNumberText(text) && |text| <= 17
    case When(q) => Typable(q, m, latest)
    case Repeat(q) => Typable(q, m, latest)
    case Forever(q) => Typable(q, m, latest)
  }

  /** The words of the control structures are the built-in ones. */
  ghost predicate Controls(m: Mem, latest: Addr, L: Lib) {
    forall a: Act :: !a.ACell? && !a.ALit? ==> Search(m, latest, Spelt(a)) == Found(L.at(D(WordOf(a))))
  }

  lemma SpeltTokens(a: Act)
    requires !a.ACell? && !a.ALit?
    ensures Token(Spelt(a))
  {
  }

  lemma AsksControl(e: Env, L: Lib, m: Mem, a: Act)
    requires Controls(m, e.latest, L) && Extends(m, e.mem) && !a.ACell? && !a.ALit?
    ensures Asks(e, L, a, Spelt(a))
  {
    hide Search, Extends, Spelt, Token;
    SpeltTokens(a);
    SearchFound(m, e.mem, e.latest, Spelt(a), L.at(D(WordOf(a))));
  }

  lemma AsksName(e: Env, L: Lib, m: Mem, text: seq<nat>, xt: Addr)
    requires TypableBy(Name(text, xt), m, e.latest) && Extends(m, e.mem)
    ensures Asks(e, L, ACell(xt), text)
  {
    hide Search, Extends, Token;
    SearchFound(m, e.mem, e.latest, text, xt);
    KnownStays(m, e.mem, xt);
  }

  lemma AsksDigits(e: Env, L: Lib, m: Mem, text: seq<nat>)
    requires TypableBy(Digits(text), m, e.latest) && Extends(m, e.mem)
    ensures Asks(e, L, ALit(NumberOf(text)), text)
  {
    hide Search, Extends, Token, NumberOf, IsNumberText;
    SearchAbsent(m, e.mem, e.latest, text);
  }

  /** The placeholder behind IF is still an unpatched cell when THEN comes. */
  lemma HoleThere(b: Builder, x: Xts, q: Prog, f: Env)
    requires Ready(b.env, x) && Ready(Build(b, AIf).env, x) && Alike(Emit(Build(b, AIf), q, x).env, f)
    ensures var hole := b.env.dp + 8;
      Build(b, AIf).cstk == Item(hole, b.cstk) && hole in f.mem && f.mem[hole].Cell?
  {
    hide Search, Codes, Emit;
    var c := Build(b, AIf);
    EmitLays(c, q, x);
    LayGets(c.env.mem, c.env.dp, Cells(q, c.env.dp, x));
  }

  /** The machine compiles at the prompt, and b is the dictionary that the C builders would have. */
  ghost predicate Mirrors(s: State, L: Lib, m: Mem, x: Xts, floor: Addr, n: nat, b: Builder) {
    && AtPrompt(s, L, m) && s.env.comp && Growable(s.env, L, m, x, floor, n + 16) && Controls(m, s.env.latest, L)
    && s.ds.Item? && 0 < s.dn && Alike(b.env, s.env) && b.cstk == Item(s.tos, s.ds)
  }

  /** u is s with more of the dictionary written and fewer keys. */
  predicate Further(s: State, u: State, rest: seq<nat>) {
    u == s.(env := u.env) && u.env == s.env.(mem := u.env.mem, dp := u.env.dp, win := u.env.win, keys := rest)
  }

  lemma MirrorsAct(s: State, L: Lib, m: Mem, x: Xts, floor: Addr, n: nat, b: Builder, a: Act, text: seq<nat>,
      rest: seq<nat>)
    returns (u: State)
    requires Mirrors(s, L, m, x, floor, n + Cost(a), b) && Asks(s.env, L, a, text) && NextWord(s.env.keys, text, rest)
    requires s.dn + 10 <= STACK_DEPTH && (a == AThen || a == AAgain || a == AUntil ==> s.dn > 1 && s.ds.rest.Item?)
    requires a == AThen ==> floor <= s.tos && s.tos in s.env.mem && s.env.mem[s.tos].Cell?
    ensures Reaches(s, u) && Mirrors(u, L, m, x, floor, n, Build(b, a))
    ensures u == s.(tos := u.tos, ds := u.ds, dn := Grown(a, s.dn), env := u.env)
    ensures u.env == s.env.(mem := u.env.mem, dp := u.env.dp, win := u.env.win, keys := rest)
  {
    hide Reaches, Asks, NextWord, Growable, AtPrompt, Codes, Alike, Xt, Controls, Comma;
    u := ActTyped(s, L, m, x, floor, n, b, a, text, rest);
  }

  lemma MirrorsControl(s: State, L: Lib, m: Mem, x: Xts, floor: Addr, n: nat, b: Builder, a: Act, rest: seq<nat>)
    returns (u: State)
    requires Mirrors(s, L, m, x, floor, n + Cost(a), b) && !a.ACell? && !a.ALit? && NextWord(s.env.keys, Spelt(a), rest)
    requires s.dn + 10 <= STACK_DEPTH && (a == AThen || a == AAgain || a == AUntil ==> s.dn > 1 && s.ds.rest.Item?)
    requires a == AThen ==> floor <= s.tos && s.tos in s.env.mem && s.env.mem[s.tos].Cell?
    ensures Reaches(s, u) && Mirrors(u, L, m, x, floor, n, Build(b, a))
    ensures u == s.(tos := u.tos, ds := u.ds, dn := Grown(a, s.dn), env := u.env)
    ensures u.env == s.env.(mem := u.env.mem, dp := u.env.dp, win := u.env.win, keys := rest)
  {
    hide Reaches, Asks, NextWord, Growable, AtPrompt, Codes, Alike, Controls, Build, Spelt, Extends, Image, WibReady,
      Below, Finds;
    GrowableImage(s.env, L, m, x, floor, n + Cost(a) + 16);
    AsksControl(s.env, L, m, a);
    u := MirrorsAct(s, L, m, x, floor, n, b, a, Spelt(a), rest);
  }

  /** Typing the words of p compiles what the C builders emit for p, and leaves the stack as it was. */
  lemma {:induction false} TypesPhrases(s: State, L: Lib, m: Mem, x: Xts, floor: Addr, n: nat, b: Builder, p: Phrases,
                                        rest: seq<nat>) returns (u: State)
    requires Mirrors(s, L, m, x, floor, n + 8 * Len(Meant(p)), b) && Typable(p, m, s.env.latest)
    requires Keyed(s.env.keys, Keyboard(p), rest) && s.dn + Nesting(Meant(p)) + 10 <= STACK_DEPTH
    ensures Reaches(s, u) && Mirrors(u, L, m, x, floor, n, Emit(b, Meant(p), x)) && Further(s, u, rest)
    decreases p, 1
  {
    hide Reaches, Mirrors, Keyed, EmitCmd, MeantBy, KeyedBy, LenCmd, NestingCmd, TypableBy, Further;
    match p
    case Empty =>
      NothingMore(s, rest);
      u := s;
    case Then(c, r) =>
      var mid := KeyedSplit(s.env.keys, KeyedBy(c), Keyboard(r), rest);
      var v := TypesPhrase(s, L, m, x, floor, n + 8 * Len(Meant(r)), b, c, mid);
      FurtherParts(s, v, mid);
      u := TypesPhrases(v, L, m, x, floor, n, EmitCmd(b, MeantBy(c), x), r, rest);
      ReachesTrans(s, v, u);
      FurtherTrans(s, v, u, mid, rest);
  }

  lemma NothingMore(s: State, rest: seq<nat>)
    requires Keyed(s.env.keys, [], rest)
    ensures Reaches(s, s) && Further(s, s, rest)
  {
    hide Reaches;
    ReachesSelf(s);
  }

  lemma FurtherParts(s: State, u: State, rest: seq<nat>)
    requires Further(s, u, rest)
    ensures u.env.keys == rest && u.env.latest == s.env.latest && u.dn == s.dn
  {
  }

  lemma FurtherTrans(s: State, t: State, u: State, mid: seq<nat>, rest: seq<nat>)
    requires Further(s, t, mid) && Further(t, u, rest)
    ensures Further(s, u, rest)
  {
  }

  lemma OneMeans(b: Builder, xt: Addr, n: nat, x: Xts)
    ensures LenCmd(Prim(xt)) == 1 && NestingCmd(Prim(xt)) == 0 && EmitCmd(b, Prim(xt), x) == Build(b, ACell(xt))
    ensures LenCmd(Number(n)) == 2 && NestingCmd(Number(n)) == 0 && EmitCmd(b, Number(n), x) == Build(b, ALit(n))
  {
    hide Build;
  }

  lemma PartMeans(q: Prog)
    ensures LenCmd(If(q)) == LenCmd(Until(q)) == LenCmd(Again(q)) == 2 + Len(q)
    ensures NestingCmd(If(q)) == NestingCmd(Until(q)) == NestingCmd(Again(q)) == 1 + Nesting(q)
  {
  }

  lemma TypesName(s: State, L: Lib, m: Mem, x: Xts, floor: Addr, n: nat, b: Builder, text: seq<nat>, xt: Addr,
      rest: seq<nat>)
    returns (u: State)
    requires Mirrors(s, L, m, x, floor, n + 8, b) && TypableBy(Name(text, xt), m, s.env.latest)
    requires Keyed(s.env.keys, [text], rest) && s.dn + 10 <= STACK_DEPTH
    ensures Reaches(s, u) && Mirrors(u, L, m, x, floor, n, Build(b, ACell(xt))) && Further(s, u, rest)
  {
    hide Reaches, Mirrors, Growable, Asks, Keyed, NextWord, Image, Extends, Alike, Build;
    MirrorsParts(s, L, m, x, floor, n + 8, b);
    AsksName(s.env, L, m, text, xt);
    u := TypesPlain(s, L, m, x, floor, n, b, ACell(xt), text, rest);
  }

  lemma TypesDigits(s: State, L: Lib, m: Mem, x: Xts, floor: Addr, n: nat, b: Builder, text: seq<nat>, rest: seq<nat>)
    returns (u: State)
    requires Mirrors(s, L, m, x, floor, n + 16, b) && TypableBy(Digits(text), m, s.env.latest)
    requires Keyed(s.env.keys, [text], rest) && s.dn + 10 <= STACK_DEPTH
    ensures Reaches(s, u) && Mirrors(u, L, m, x, floor, n, Build(b, ALit(NumberOf(text)))) && Further(s, u, rest)
  {
    hide Reaches, Mirrors, Growable, Asks, Keyed, NextWord, Image, Extends, Alike, Build, NumberOf;
    MirrorsParts(s, L, m, x, floor, n + 16, b);
    AsksDigits(s.env, L, m, text);
    u := TypesPlain(s, L, m, x, floor, n, b, ALit(NumberOf(text)), text, rest);
  }

  lemma {:induction false} TypesPhrase(s: State, L: Lib, m: Mem, x: Xts, floor: Addr, n: nat, b: Builder, c: Phrase,
                                       rest: seq<nat>) returns (u: State)
    requires Mirrors(s, L, m, x, floor, n + 8 * LenCmd(MeantBy(c)), b) && TypableBy(c, m, s.env.latest)
    requires Keyed(s.env.keys, KeyedBy(c), rest) && s.dn + NestingCmd(MeantBy(c)) + 10 <= STACK_DEPTH
    ensures Reaches(s, u) && Mirrors(u, L, m, x, floor, n, EmitCmd(b, MeantBy(c), x)) && Further(s, u, rest)
    decreases c, 0
  {
    hide Reaches, Mirrors, Growable, Asks, Keyed, NextWord, Image, WibReady, Below, Finds, Extends, Alike, Ready,
      NumberOf, Spelt, LenCmd, EmitCmd, NestingCmd, Build;
    match c
    case Name(text, xt) =>
      OneMeans(b, xt, 0, x);
      u := TypesName(s, L, m, x, floor, n, b, text, xt, rest);
    case Digits(text) =>
      OneMeans(b, 0, NumberOf(text), x);
      u := TypesDigits(s, L, m, x, floor, n, b, text, rest);
    case When(q) =>
      PartMeans(Meant(q));
      u := TypesWhen(s, L, m, x, floor, n, b, q, rest);
    case Repeat(q) =>
      PartMeans(Meant(q));
      u := TypesLoop(s, L, m, x, floor, n, b, q, AUntil, rest);
    case Forever(q) =>
      PartMeans(Meant(q));
      u := TypesLoop(s, L, m, x, floor, n, b, q, AAgain, rest);
  }

  /** A word or a number of its own. */
  lemma TypesPlain(s: State, L: Lib, m: Mem, x: Xts, floor: Addr, n: nat, b: Builder, a: Act, text: seq<nat>,
      rest: seq<nat>)
    returns (u: State)
    requires Mirrors(s, L, m, x, floor, n + Cost(a), b) && Asks(s.env, L, a, text) && (a.ACell? || a.ALit?)
    requires Keyed(s.env.keys, [text], rest) && s.dn + 10 <= STACK_DEPTH && b.cstk == Item(s.tos, s.ds)
    ensures Reaches(s, u) && Mirrors(u, L, m, x, floor, n, Build(b, a)) && Further(s, u, rest)
  {
    hide Reaches, Mirrors, Asks, Keyed, NextWord, Build;
    KeyedOne(s.env.keys, text, rest);
    u := MirrorsAct(s, L, m, x, floor, n, b, a, text, rest);
    SameStack(s, u, b, a, L, m, x, floor, n);
  }

  lemma MirrorsParts(s: State, L: Lib, m: Mem, x: Xts, floor: Addr, n: nat, b: Builder)
    requires Mirrors(s, L, m, x, floor, n, b)
    ensures Image(s.env.mem, L) && Extends(m, s.env.mem) && floor <= s.env.dp && Finds(s.env, x)
    ensures Ready(b.env, x) && b.cstk == Item(s.tos, s.ds) && s.ds.Item? && 0 < s.dn && Alike(b.env, s.env)
  {
    hide AtPrompt, Growable, Alike, Image, Extends, Finds, Below, WibReady, Controls;
    GrowableImage(s.env, L, m, x, floor, n + 16);
    AlikeReady(b.env, s.env, x);
  }

  /** A call that neither pushes nor pops an address leaves the stack. */
  lemma SameStack(s: State, u: State, b: Builder, a: Act, L: Lib, m: Mem, x: Xts, floor: Addr, n: nat)
    requires (a.ACell? || a.ALit?) && b.cstk == Item(s.tos, s.ds) && Mirrors(u, L, m, x, floor, n, Build(b, a))
    ensures u.tos == s.tos && u.ds == s.ds
  {
    hide AtPrompt, Growable, Alike, Controls, Xt, Codes;
  }

  lemma {:induction false} TypesWhen(s: State, L: Lib, m: Mem, x: Xts, floor: Addr, n: nat, b: Builder, q: Phrases,
                                     rest: seq<nat>) returns (u: State)
    requires Mirrors(s, L, m, x, floor, n + 16 + 8 * Len(Meant(q)), b) && Typable(q, m, s.env.latest)
    requires Keyed(s.env.keys, [Spelt(AIf)] + Keyboard(q) + [Spelt(AThen)], rest)
    requires s.dn + Nesting(Meant(q)) + 11 <= STACK_DEPTH
    ensures Reaches(s, u) && Mirrors(u, L, m, x, floor, n, EmitCmd(b, If(Meant(q)), x)) && Further(s, u, rest)
    decreases q, 2
  {
    hide Reaches, Mirrors, NextWord, Keyed, Spelt, Image, Extends, Finds, Alike, Ready, Build, Emit;
    var k2 := KeyedSplit(s.env.keys, [Spelt(AIf)] + Keyboard(q), [Spelt(AThen)], rest);
    var k1 := KeyedSplit(s.env.keys, [Spelt(AIf)], Keyboard(q), k2);
    KeyedOne(s.env.keys, Spelt(AIf), k1);
    KeyedOne(k2, Spelt(AThen), rest);
    MirrorsParts(s, L, m, x, floor, n + 16 + 8 * Len(Meant(q)), b);
    var s1 := MirrorsControl(s, L, m, x, floor, n + 8 * Len(Meant(q)), b, AIf, k1);
    MirrorsParts(s1, L, m, x, floor, n + 8 * Len(Meant(q)), Build(b, AIf));
    var s2 := TypesPhrases(s1, L, m, x, floor, n, Build(b, AIf), q, k2);
    MirrorsParts(s2, L, m, x, floor, n, Emit(Build(b, AIf), Meant(q), x));
    HoleThere(b, x, Meant(q), s2.env);
    AlikeDp(b.env, s.env);
    u := MirrorsControl(s2, L, m, x, floor, n, Emit(Build(b, AIf), Meant(q), x), AThen, rest);
    ReachesTrans(s, s1, s2);
    ReachesTrans(s, s2, u);
    ThenPops(Emit(Build(b, AIf), Meant(q), x), s, s2, u, L, m, x, floor, n);
  }

  lemma AlikeDp(e: Env, f: Env)
    requires Alike(e, f)
    ensures e.dp == f.dp
  {
  }

  /** THEN gives the stack back. */
  lemma ThenPops(b: Builder, s: State, s2: State, u: State, L: Lib, m: Mem, x: Xts, floor: Addr, n: nat)
    requires b.cstk == Item(s2.tos, s2.ds) && s2.ds == Item(s.tos, s.ds)
    requires Mirrors(u, L, m, x, floor, n, Build(b, AThen))
    ensures u.tos == s.tos && u.ds == s.ds
  {
    hide AtPrompt, Growable, Alike, Controls, Xt, Codes;
  }

  lemma {:induction false} TypesLoop(s: State, L: Lib, m: Mem, x: Xts, floor: Addr, n: nat, b: Builder, q: Phrases,
      a: Act, rest: seq<nat>)
    returns (u: State)
    requires a == AUntil || a == AAgain
    requires Mirrors(s, L, m, x, floor, n + 16 + 8 * Len(Meant(q)), b) && Typable(q, m, s.env.latest)
    requires Keyed(s.env.keys, [Spelt(ABegin)] + Keyboard(q) + [Spelt(a)], rest)
    requires s.dn + Nesting(Meant(q)) + 11 <= STACK_DEPTH
    ensures Reaches(s, u) && Further(s, u, rest)
    ensures Mirrors(u, L, m, x, floor, n, EmitCmd(b, if a == AUntil then Until(Meant(q)) else Again(Meant(q)), x))
    decreases q, 2
  {
    hide Reaches, Mirrors, NextWord, Keyed, Spelt, Image, Extends, Finds, Alike, Ready, Build, Emit;
    var k2 := KeyedSplit(s.env.keys, [Spelt(ABegin)] + Keyboard(q), [Spelt(a)], rest);
    var k1 := KeyedSplit(s.env.keys, [Spelt(ABegin)], Keyboard(q), k2);
    KeyedOne(s.env.keys, Spelt(ABegin), k1);
    KeyedOne(k2, Spelt(a), rest);
    MirrorsParts(s, L, m, x, floor, n + 16 + 8 * Len(Meant(q)), b);
    var s1 := MirrorsControl(s, L, m, x, floor, n + 16 + 8 * Len(Meant(q)), b, ABegin, k1);
    MirrorsParts(s1, L, m, x, floor, n + 16 + 8 * Len(Meant(q)), Build(b, ABegin));
    var s2 := TypesPhrases(s1, L, m, x, floor, n + 16, Build(b, ABegin), q, k2);
    MirrorsParts(s2, L, m, x, floor, n + 16, Emit(Build(b, ABegin), Meant(q), x));
    BeginPushes(b);
    u := MirrorsControl(s2, L, m, x, floor, n, Emit(Build(b, ABegin), Meant(q), x), a, rest);
    ReachesTrans(s, s1, s2);
    ReachesTrans(s, s2, u);
    BackPops(Emit(Build(b, ABegin), Meant(q), x), s, s2, u, a, L, m, x, floor, n);
  }

  lemma BeginPushes(b: Builder)
    ensures Build(b, ABegin).cstk == Item(b.env.dp, b.cstk)
  {
  }

  lemma BackPops(b: Builder, s: State, s2: State, u: State, a: Act, L: Lib, m: Mem, x: Xts, floor: Addr, n: nat)
    requires a == AUntil || a == AAgain
    requires b.cstk == Item(s2.tos, s2.ds) && s2.ds == Item(s.tos, s.ds)
    requires Mirrors(u, L, m, x, floor, n, Build(b, a))
    ensures u.tos == s.tos && u.ds == s.ds
  {
    hide AtPrompt, Growable, Alike, Controls, Xt, Codes, Comma;
  }

  /** The dictionary and the compile stack at the prompt, before anything is defined. */
  function AtStart(s: State): Builder {
    Builder(s.env, Item(s.tos, s.ds))
  }

  /** : and the name lead to where the C builders are after forth_colon. */
  lemma OpensPhrases(s: State, L: Lib, x: Xts, name: seq<nat>, more: seq<nat>, rest: seq<nat>, n: nat)
    returns (u: State)
    requires AtPrompt(s, L, s.env.mem) && !s.env.comp && BuiltIns(s.env.mem, s.env.latest, L)
    requires Controls(s.env.mem, s.env.latest, L) && Finds(s.env, x) && Token(name)
    requires NextWord(s.env.keys, [58], more) && NextWord(more, name, rest)
    requires Room(s.env, L, HeaderSize(name) + n + 16) && s.dn + 9 <= STACK_DEPTH
    ensures Reaches(s, u) && Mirrors(u, L, s.env.mem, x, s.env.dp, n, Builders.Open(AtStart(s), name))
    ensures u == s.(tos := s.env.dp, ds := Item(s.tos, s.ds), dn := s.dn + 1, env := u.env)
    ensures u.env == s.env.(comp := true, mem := u.env.mem, dp := u.env.dp, win := u.env.win, keys := rest)
  {
    hide Reaches, Image, Loaded, BodyOf, WibReady, Below, Extends, BuiltIns, Controls, NextWord, Search, Codes,
      BufferOnly;
    var m := s.env.mem;
    u := OpensAtPrompt(s, L, m, name, more, rest, n + 16);
    Programs.OpenReady(AtStart(s), name, x);
    AlikeFindsBack(Created(s.env, name), u.env, x);
    Floored(s.env, u.env, L, name, n + 16);
  }

  lemma AlikeFindsBack(e: Env, f: Env, x: Xts)
    requires Alike(e, f) && Finds(e, x)
    ensures Finds(f, x)
  {
    hide Search, BufferOnly;
    SearchSame(e.mem, f.mem, f.wib, e.latest, Codes("LIT"));
    SearchSame(e.mem, f.mem, f.wib, e.latest, Codes("BRANCH"));
    SearchSame(e.mem, f.mem, f.wib, e.latest, Codes("ZBRANCH"));
  }

  lemma Floored(e: Env, f: Env, L: Lib, name: seq<nat>, n: nat)
    requires Room(e, L, HeaderSize(name) + n) && WibReady(e) && f.wib == e.wib && f.dp == e.dp + HeaderSize(name)
    ensures Floor(f, L, e.mem, e.dp)
  {
    WibLow(e);
    EndsBelow(e.mem, e.dp);
  }

  lemma EndsBelow(m: Mem, dp: Addr)
    requires Below(m, dp)
    ensures forall a :: a in m ==> a < dp
  {
  }

  /** The dictionary pointer is above the library and the buffer. */
  predicate AboveBuffer(s: State, L: Lib) {
    L.top <= s.env.dp && RAM <= s.env.dp && s.env.wib + 2 * WIB_CHARS <= s.env.dp
  }

  /** After the body, the word is open and complete. */
  lemma BodyGrown(s: State, u: State, L: Lib, x: Xts, name: seq<nat>, p: Prog)
    requires Ready(s.env, x) && AboveBuffer(s, L)
    requires Alike(Emit(Builders.Open(AtStart(s), name), p, x).env, u.env) && u.env.wib == s.env.wib
    ensures Growing(u.env, L, s.env.mem, s.env.dp, name, Cells(p, s.env.dp + HeaderSize(name), x))
  {
    hide Search, Codes, Emit, HeaderSize, BufferOnly, Cells;
    var o := Builders.Open(AtStart(s), name);
    var w, body := s.env.dp, s.env.dp + HeaderSize(name);
    var d := Emit(o, p, x);
    Programs.OpenReady(AtStart(s), name, x);
    Meaning.EmittedCells(o, p, x);
    EmitLays(o, p, x);
    LayGets(o.env.mem, o.env.dp, Cells(p, o.env.dp, x));
    Programs.HeaderLong(name);
    NothingAt(s.env.mem, s.env.dp);
    WordAlike(d.env, u.env, w);
    CellsBuffer(d.env.mem, u.env.mem, u.env.wib, body, Cells(p, body, x));
  }

  /** ; after the body. */
  lemma ClosesPhrases(s: State, u: State, L: Lib, x: Xts, name: seq<nat>, p: Prog, floor: Addr, rest: seq<nat>)
    returns (v: State)
    requires Ready(s.env, x) && AboveBuffer(s, L) && BuiltIns(s.env.mem, s.env.latest, L) && x.exit == L.at(P(Exit))
    requires Mirrors(u, L, s.env.mem, x, floor, 0, Emit(Builders.Open(AtStart(s), name), p, x))
    requires u == s.(tos := s.env.dp, ds := Item(s.tos, s.ds), dn := s.dn + 1, env := u.env)
    requires u.env.wib == s.env.wib && u.env.latest == s.env.latest
    requires NextWord(u.env.keys, [59], rest) && s.dn + 10 <= STACK_DEPTH
    ensures Reaches(u, v) && AtPrompt(v, L, s.env.mem) && v == s.(env := v.env)
    ensures v.env == u.env.(comp := false, mem := v.env.mem, dp := v.env.dp, latest := s.env.dp, win := v.env.win,
      keys := rest)
    ensures Alike(Programs.Defined(AtStart(s), name, p, x).env, v.env)
  {
    hide Reaches, AtPrompt, Image, Loaded, WibReady, Below, Extends, BuiltIns, Controls, NextWord, Search, Codes,
      BufferOnly, Emit, Cells, Growing, Growable, HeaderSize, Ready, Definitions.Defined, Alike;
    var o := Emit(Builders.Open(AtStart(s), name), p, x);
    var vs := Cells(p, s.env.dp + HeaderSize(name), x);
    GrowableRoom(u.env, L, s.env.mem, x, floor, 16);
    BodyGrown(s, u, L, x, name, p);
    GrowingWord(u.env, L, s.env.mem, s.env.dp, name, vs);
    v := ClosesAtPrompt(u, L, s.env.mem, name, vs, rest, s.tos, s.ds);
    Programs.WrittenThere(AtStart(s), name, p, x);
    AlikeClosed(o, s, u.env, v.env, x, name, p);
  }

  lemma GrowableRoom(e: Env, L: Lib, m: Mem, x: Xts, floor: Addr, n: nat)
    requires Growable(e, L, m, x, floor, n)
    ensures Room(e, L, n)
  {
    hide Sound, Finds, Floor;
  }

  lemma AlikeClosed(o: Builder, s: State, f: Env, g: Env, x: Xts, name: seq<nat>, p: Prog)
    requires o == Emit(Builders.Open(AtStart(s), name), p, x) && Alike(o.env, f) && f.wib == g.wib
    requires var d := Programs.Written(AtStart(s), name, p, x);
      d.cstk == Item(s.env.dp, Item(s.tos, s.ds)) && HasWord(d.env.mem, s.env.dp) && s.env.dp + 8 < d.env.dp
    requires HasWord(Comma(f, x.exit).mem, s.env.dp)
    requires Alike(Finish(Builder(Comma(f, x.exit), Item(s.env.dp, Item(s.tos, s.ds)))).env, g)
    ensures Alike(Programs.Defined(AtStart(s), name, p, x).env, g)
  {
    hide Emit, BufferOnly, Search, Codes, Alike, HeaderSize;
    var w, k := s.env.dp, Item(s.tos, s.ds);
    assert Programs.Written(AtStart(s), name, p, x) == o.(env := Comma(o.env, x.exit));
    FinishAlike(o.env, f, w, k, x.exit);
    var h := Finish(Builder(Comma(f, x.exit), Item(w, k))).env;
    CompAlike(Finish(Builder(Comma(o.env, x.exit), Item(w, k))).env, h);
    AlikeTrans(Finish(Builder(Comma(o.env, x.exit), Item(w, k))).env, h, g);
  }

  lemma CompAlike(e: Env, f: Env)
    requires Alike(e, f.(comp := false))
    ensures Alike(e, f)
  {
  }

  /** The two compilers agree on what is typed: `: N`, a body of words, numbers and nested control structures,
      and `;` leave the dictionary that forth_colon, the C builders, a compiled EXIT and forth_semicolon leave,
      cell by cell, apart from the characters in the word input buffer; and nothing on the stack. */
  lemma TypedDefinition(s: State, L: Lib, name: seq<nat>, p: Phrases, rest: seq<nat>) returns (u: State)
    requires AtPrompt(s, L, s.env.mem) && !s.env.comp && BuiltIns(s.env.mem, s.env.latest, L)
    requires Controls(s.env.mem, s.env.latest, L) && Finds(s.env, XtsOf(L)) && Token(name)
    requires Typable(p, s.env.mem, s.env.latest) && s.dn + Nesting(Meant(p)) + 11 <= STACK_DEPTH
    requires Room(s.env, L, HeaderSize(name) + 8 * Len(Meant(p)) + 16)
    requires Keyed(s.env.keys, [[58]] + ([name] + (Keyboard(p) + [[59]])), rest)
    ensures Reaches(s, u) && AtPrompt(u, L, s.env.mem) && u == s.(env := u.env)
    ensures u.env == s.env.(mem := u.env.mem, dp := u.env.dp, latest := s.env.dp, win := u.env.win, keys := rest)
    ensures Alike(Programs.Defined(AtStart(s), name, Meant(p), XtsOf(L)).env, u.env) && s.env.dp <= u.env.dp
  {
    hide Reaches, AtPrompt, Image, BuiltIns, Controls, NextWord, Search, Codes, Emit, HeaderSize, Alike, Keyed,
      Mirrors, Programs.Defined, Typable, Finds, Below;
    var x := XtsOf(L);
    var k1 := KeyedSplit(s.env.keys, [[58]], [name] + (Keyboard(p) + [[59]]), rest);
    var k2 := KeyedSplit(k1, [name], Keyboard(p) + [[59]], rest);
    var k3 := KeyedSplit(k2, Keyboard(p), [[59]], rest);
    KeyedOne(s.env.keys, [58], k1);
    KeyedOne(k1, name, k2);
    KeyedOne(k3, [59], rest);
    PromptAbove(s, L);
    var s1 := OpensPhrases(s, L, x, name, k1, k2, 8 * Len(Meant(p)));
    var s2 := TypesPhrases(s1, L, s.env.mem, x, s.env.dp, 0, Builders.Open(AtStart(s), name), p, k3);
    u := ClosesPhrases(s, s2, L, x, name, Meant(p), s.env.dp, rest);
    DefinedUp(s, u, x, name, Meant(p));
    ReachesTrans(s, s1, s2);
    ReachesTrans(s, s2, u);
  }

  lemma DefinedUp(s: State, u: State, x: Xts, name: seq<nat>, p: Prog)
    requires Ready(s.env, x) && Alike(Programs.Defined(AtStart(s), name, p, x).env, u.env)
    ensures s.env.dp <= u.env.dp
  {
    hide Ready, Programs.Defined, HeaderSize, BufferOnly;
    Programs.DefinedThere(AtStart(s), name, p, x);
  }

  lemma PromptAbove(s: State, L: Lib)
    requires AtPrompt(s, L, s.env.mem) && Room(s.env, L, 0) && Finds(s.env, XtsOf(L))
    ensures AboveBuffer(s, L) && Ready(s.env, XtsOf(L))
  {
    hide Finds, Image, Loaded, BodyOf, Extends;
    WibLow(s.env);
  }

  /** And the word that was typed means its body: in every memory that has kept what was typed and the programs
      of c, executing it does what p means and returns; and what it does, without straying, p means. */
  lemma TypedWordRuns(s: State, u: State, L: Lib, name: seq<nat>, p: Phrases, c: Meaning.Lexicon, t: State, fuel: nat)
    requires Finds(s.env, XtsOf(L)) && Below(s.env.mem, s.env.dp) && AboveBuffer(s, L)
    requires u.env.wib == s.env.wib
    requires Alike(Programs.Defined(AtStart(s), name, Meant(p), XtsOf(L)).env, u.env)
    requires c.x == XtsOf(L) && Meaning.Standing(t.env.mem, c) && t.rn < STACK_DEPTH
    requires Programs.Callable(u.env.mem, t.env.mem, s.env.dp, u.env.dp)
    ensures var body := s.env.dp + HeaderSize(name);
      var e := Meaning.With(c, body, Programs.Body(Meant(p)));
      var o := Meaning.Back(Programs.Exited(Meaning.Eval(Meant(p), Meaning.Called(t), body, e, fuel)), t.ip);
      && Meaning.Realises(t.(pc := Exec(s.env.dp)), t.ip, o, e)
      && (Following.Tame(c) && Following.Tidy(Meant(p), c.x) ==> Programs.Decided(s.env.dp, t, body, Meant(p), e))
  {
    hide Finds, Search, Codes, Reaches, Emit, HeaderSize, Meaning.Standing, Meaning.Eval, Meaning.Realises,
      Programs.Defined, Programs.Body, BufferOnly, Meaning.Back, Programs.Exited, Meaning.EvalWord, Step, Run,
      Programs.Decided, Following.Tame, Following.Tidy;
    Programs.DefinedThere(AtStart(s), name, Meant(p), c.x);
    CallableBack(Programs.Defined(AtStart(s), name, Meant(p), c.x).env, u.env, t.env.mem, s.env.dp);
    Programs.CompiledWordRuns(AtStart(s), name, Meant(p), c, t, fuel);
  }

  lemma CallableBack(d: Env, e: Env, n: Mem, w: Addr)
    requires Alike(d, e) && Meaning.IsOp(d.mem, w, Call) && Programs.Callable(e.mem, n, w, e.dp)
    requires e.wib + 2 * WIB_CHARS <= d.mem[w].h.body
    ensures Programs.Callable(d.mem, n, w, d.dp)
  {
  }
}
