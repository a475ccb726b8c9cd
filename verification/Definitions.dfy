/** Defining a word at the prompt and calling it. */
module Definitions {
  import opened Words
  import opened Memory
  import opened Opcodes
  import opened Machine
  import opened Builders
  import opened Library
  import opened Stepping
  import opened StackWords
  import opened IoWords
  import opened DictWords
  import opened Tokeniser
  import opened ControlWords
  import opened Interpret
  import opened Defining
  import opened Sessions

  /** The environment of a machine at the prompt. */
  ghost predicate Sound(e: Env, L: Lib, m: Mem) {
    Image(e.mem, L) && DefaultIo(e, L) && WibReady(e) && Below(e.mem, e.dp) && Extends(m, e.mem)
  }

  /** The open word w, called name, whose body so far is the cells vs up to the dictionary pointer. */
  ghost predicate Growing(e: Env, L: Lib, m: Mem, w: Addr, name: seq<nat>, vs: seq<nat>) {
    && HasWord(e.mem, w) && e.mem[w].h == Header(e.latest, name, false, Call, 0, w + HeaderSize(name))
    && HasCells(e.mem, w + HeaderSize(name), vs) && e.dp == w + HeaderSize(name) + 8 * |vs|
    && L.top <= w && RAM <= w && (w in m ==> m[w].Wide?) && e.wib + 2 * WIB_CHARS <= w
  }

  lemma WibStoreAbove(e: Env, a: Addr, c: Chunk, dp: Addr)
    requires WibReady(e) && e.wib + 2 * WIB_CHARS <= a && e.dp <= dp < TWO64
    requires a !in e.mem || Size(e.mem[a]) == Size(c)
    ensures WibReady(e.(mem := e.mem[a := c], dp := dp))
  {
    var n := e.mem[a := c];
    forall i | 0 <= i < WIB_CHARS ensures Writable(n, e.wib + 2 * i, Wide(0)) {
      assert Writable(e.mem, e.wib + 2 * i, Wide(0));
      if !(e.wib + 2 * i in e.mem && SameKind(e.mem[e.wib + 2 * i], Wide(0))) {
        assert Free(n, e.wib + 2 * i, 2);
      }
    }
  }

  /** Appending a cell keeps the environment sound and the library where it is. */
  lemma CommaSound(e: Env, L: Lib, m: Mem, v: nat)
    requires Sound(e, L, m) && Room(e, L, 8)
    ensures Sound(Comma(e, v), L, m)
    ensures Loaded(e.mem, L, D(INTERPRETLOOP)) && Loaded(Comma(e, v).mem, L, D(INTERPRETLOOP))
    ensures BodyOf(Comma(e, v).mem, L, INTERPRETLOOP) == BodyOf(e.mem, L, INTERPRETLOOP)
  {
    hide Image, Loaded, Extends, WibReady, Below;
    CommaKeeps(e, L, v);
    NothingAt(e.mem, e.dp);
    ExtendsStore(m, e.mem, e.dp, Cell(v));
    WibLow(e);
    WibStoreAbove(e, e.dp, Cell(v), e.dp + 8);
    LoadedStore(e.mem, L, INTERPRETLOOP, e.dp, Cell(v));
  }

  lemma WibLow(e: Env)
    requires WibReady(e)
    ensures e.wib + 2 * WIB_CHARS <= e.dp < TWO64
  {
  }

  lemma CellsGrow(m: Mem, base: Addr, vs: seq<nat>, v: nat)
    requires HasCells(m, base, vs)
    ensures HasCells(m[base + 8 * |vs| := Cell(v)], base, vs + [v])
  {
    var n := m[base + 8 * |vs| := Cell(v)];
    forall i | 0 <= i < |vs + [v]| ensures HasCell(n, base + 8 * i, (vs + [v])[i]) {
      if i < |vs| { assert HasCell(m, base + 8 * i, vs[i]); }
    }
  }

  lemma CommaGrowing(e: Env, L: Lib, m: Mem, w: Addr, name: seq<nat>, vs: seq<nat>, v: nat)
    requires Growing(e, L, m, w, name, vs) && Below(e.mem, e.dp)
    ensures Growing(Comma(e, v), L, m, w, name, vs + [v])
  {
    NothingAt(e.mem, e.dp);
    CellsGrow(e.mem, w + HeaderSize(name), vs, v);
  }

  lemma CellsBuffer(m: Mem, n: Mem, wib: Addr, base: Addr, vs: seq<nat>)
    requires HasCells(m, base, vs) && BufferOnly(m, n, wib)
    ensures HasCells(n, base, vs)
  {
    forall i | 0 <= i < |vs| ensures HasCell(n, base + 8 * i, vs[i]) {
      assert HasCell(m, base + 8 * i, vs[i]);
    }
  }

  /** Reading a token leaves everything about the definition alone. */
  lemma ReadGrowing(e: Env, L: Lib, m: Mem, w: Addr, name: seq<nat>, vs: seq<nat>, tok: seq<nat>, rest: seq<nat>)
    requires Growing(e, L, m, w, name, vs) && Sound(e, L, m) && |tok| <= WIB_CHARS
    ensures Growing(ReadEnv(e, tok, rest), L, m, w, name, vs)
  {
    hide Image, WibReady, Below, ReadEnv, HasCells;
    ReadEffect(e, L, tok, rest);
    CellsBuffer(e.mem, ReadEnv(e, tok, rest).mem, e.wib, w + HeaderSize(name), vs);
  }

  /** Reading a token keeps the environment sound and the room there is. */
  lemma ReadSound(e: Env, L: Lib, m: Mem, tok: seq<nat>, rest: seq<nat>, n: nat)
    requires Sound(e, L, m) && Room(e, L, n) && |tok| <= WIB_CHARS
    ensures var f := ReadEnv(e, tok, rest);
      && Sound(f, L, m) && Room(f, L, n) && f == e.(mem := f.mem, win := f.win, keys := rest)
      && Loaded(e.mem, L, D(INTERPRETLOOP)) && Loaded(f.mem, L, D(INTERPRETLOOP))
      && BodyOf(f.mem, L, INTERPRETLOOP) == BodyOf(e.mem, L, INTERPRETLOOP)
  {
    hide Image, Loaded, WibReady, Below, Extends, BufferOnly, ReadEnv, BodyOf;
    ReadEffect(e, L, tok, rest);
    ExtendsBuffer(m, e.mem, ReadEnv(e, tok, rest).mem, e.wib);
    LoadedIn(e.mem, ReadEnv(e, tok, rest).mem, L, INTERPRETLOOP, e.wib);
  }

  /** Compiling at the prompt: the open word's address is on top of the stack. */
  ghost predicate Compiling(s: State, L: Lib, m: Mem, name: seq<nat>, vs: seq<nat>) {
    AtPrompt(s, L, m) && s.env.comp && Growing(s.env, L, m, s.tos, name, vs) && s.ds.Item? && 0 < s.dn
  }

  /** What compiling the token t does to the environment. */
  function TokEnv(e: Env, t: Tok, rest: seq<nat>, x: Xts): Env {
    var f := ReadEnv(e, t.text, rest);
    match t
    case Num(text) => Comma(Comma(f, x.lit), NumberOf(text))
    case Known(_, xt, _, _, _) => Comma(f, xt)
  }

  /** A token is typed inside a definition: INTERPRET's part. */
  lemma InterpretCompiles(c: State, L: Lib, m: Mem, x: Xts, t: Tok, rest: seq<nat>)
    requires Calling(c, L, INTERPRET) && Reading(c, L, 9, 7) && c.env.comp && Room(c.env, L, 16)
    requires Extends(m, c.env.mem) && Legal(t, m, c.env.latest, L) && NextWord(c.env.keys, t.text, rest)
    requires Search(m, c.env.latest, StrText(SLit)) == Found(x.lit)
    ensures Reaches(c, c.(pc := Next, env := TokEnv(c.env, t, rest, x)))
  {
    hide Reaches, Image, Loaded, WibReady, Below, Extends, DataWord, ReadEnv, Search, IsNumberText, NumberOf, StrText;
    match t {
      case Num(text) =>
        SearchAbsent(m, c.env.mem, c.env.latest, text);
        SearchFound(m, c.env.mem, c.env.latest, StrText(SLit), x.lit);
        CompilesNumber(c, L, x, text, rest);
      case Known(text, xt, _, _, _) =>
        SearchFound(m, c.env.mem, c.env.latest, text, xt);
        KnownStays(m, c.env.mem, xt);
        LessRoom(c.env, L);
        CompilesWord(c, L, text, rest, xt);
    }
  }

  lemma LessRoom(e: Env, L: Lib)
    requires Room(e, L, 16)
    ensures Room(e, L, 8)
  {
  }

  lemma SearchFound(m: Mem, n: Mem, w: Addr, name: seq<nat>, xt: Addr)
    requires Extends(m, n) && Search(m, w, name) == Found(xt)
    ensures Search(n, w, name) == Found(xt)
  {
    SearchExtends(m, n, w, name);
  }

  /** The same, for the dictionary: the token's cells are appended to the open word. */
  lemma CompiledGrows(e: Env, L: Lib, m: Mem, x: Xts, t: Tok, rest: seq<nat>, w: Addr, name: seq<nat>, vs: seq<nat>,
      n: nat)
    requires Sound(e, L, m) && Growing(e, L, m, w, name, vs) && Room(e, L, 8 * |TokCells(t, x)| + n)
      && |t.text| <= WIB_CHARS
    ensures var f := TokEnv(e, t, rest, x);
      && Sound(f, L, m) && Growing(f, L, m, w, name, vs + TokCells(t, x)) && Room(f, L, n)
      && f == e.(mem := f.mem, dp := f.dp, win := f.win, keys := rest)
      && Loaded(e.mem, L, D(INTERPRETLOOP)) && Loaded(f.mem, L, D(INTERPRETLOOP))
      && BodyOf(f.mem, L, INTERPRETLOOP) == BodyOf(e.mem, L, INTERPRETLOOP)
  {
    hide Image, Loaded, WibReady, Below, Extends, ReadEnv, Growing, Sound, BodyOf, NumberOf;
    var f := ReadEnv(e, t.text, rest);
    ReadSound(e, L, m, t.text, rest, 8 * |TokCells(t, x)| + n);
    ReadGrowing(e, L, m, w, name, vs, t.text, rest);
    match t {
      case Num(text) =>
        Appends(f, L, m, w, name, vs, x.lit, n + 8);
        Appends(Comma(f, x.lit), L, m, w, name, vs + [x.lit], NumberOf(text), n);
        assert vs + [x.lit] + [NumberOf(text)] == vs + TokCells(t, x);
      case Known(_, xt, _, _, _) =>
        Appends(f, L, m, w, name, vs, xt, n);
    }
  }

  lemma Appends(e: Env, L: Lib, m: Mem, w: Addr, name: seq<nat>, vs: seq<nat>, v: nat, n: nat)
    requires Sound(e, L, m) && Growing(e, L, m, w, name, vs) && Room(e, L, n + 8)
    ensures var f := Comma(e, v);
      && Sound(f, L, m) && Growing(f, L, m, w, name, vs + [v]) && Room(f, L, n)
      && Loaded(e.mem, L, D(INTERPRETLOOP)) && Loaded(f.mem, L, D(INTERPRETLOOP))
      && BodyOf(f.mem, L, INTERPRETLOOP) == BodyOf(e.mem, L, INTERPRETLOOP)
  {
    hide Image, Loaded, WibReady, Extends, Growing, BodyOf;
    CommaSound(e, L, m, v);
    CommaGrowing(e, L, m, w, name, vs, v);
    CommaRoom(e, L, v, n);
  }

  /** One token typed inside a definition. */
  lemma CompilesOne(s: State, L: Lib, m: Mem, x: Xts, t: Tok, rest: seq<nat>, name: seq<nat>, vs: seq<nat>, n: nat)
    returns (u: State)
    requires Compiling(s, L, m, name, vs) && Legal(t, m, s.env.latest, L) && NextWord(s.env.keys, t.text, rest)
    requires Room(s.env, L, 8 * |TokCells(t, x)| + n) && n >= 16 && s.dn + 9 <= STACK_DEPTH
    requires Search(m, s.env.latest, StrText(SLit)) == Found(x.lit)
    ensures Reaches(s, u) && Compiling(u, L, m, name, vs + TokCells(t, x)) && Room(u.env, L, n)
    ensures u == s.(env := s.env.(mem := u.env.mem, dp := u.env.dp, win := u.env.win, keys := rest))
  {
    hide Reaches, Image, Loaded, BodyOf, WibReady, Below, Extends, DataWord, ReadEnv, Search, Growing, TokEnv, StrText,
      IsNumberText, HasChars, Plain;
    var c := s.(ip := s.ip + 8, pc := Exec(L.at(D(INTERPRET))));
    assert Room(c.env, L, 16);
    InterpretCompiles(c, L, m, x, t, rest);
    CompiledGrows(s.env, L, m, x, t, rest, s.tos, name, vs, n);
    var v := c.(pc := Next, env := TokEnv(c.env, t, rest, x));
    u := OneRound(s, v, L, m);
  }

  lemma TokensOf(ts: seq<Tok>, x: Xts)
    ensures ts == [] ==> CellsOf(ts, x) == [] && Texts(ts) == []
    ensures ts != [] ==> CellsOf(ts, x) == TokCells(ts[0], x) + CellsOf(ts[1..], x)
    ensures ts != [] ==> Texts(ts) != [] && Texts(ts)[0] == ts[0].text && Texts(ts)[1..] == Texts(ts[1..])
  {
  }

  /** All the tokens of a definition. */
  lemma {:induction false} CompilesAll(s: State, L: Lib, m: Mem, x: Xts, ts: seq<Tok>, rest: seq<nat>, name: seq<nat>,
                                       vs: seq<nat>) returns (u: State)
    requires Compiling(s, L, m, name, vs) && Keyed(s.env.keys, Texts(ts), rest)
    requires forall i :: 0 <= i < |ts| ==> Legal(ts[i], m, s.env.latest, L)
    requires Room(s.env, L, 8 * |CellsOf(ts, x)| + 16) && s.dn + 9 <= STACK_DEPTH
    requires Search(m, s.env.latest, StrText(SLit)) == Found(x.lit)
    ensures Reaches(s, u) && Compiling(u, L, m, name, vs + CellsOf(ts, x)) && Room(u.env, L, 16)
    ensures u == s.(env := s.env.(mem := u.env.mem, dp := u.env.dp, win := u.env.win, keys := rest))
    decreases |ts|
  {
    hide Reaches, Compiling, Legal, Search, StrText, Room, Step, Run, NextWord, HeaderSize, CellsOf, TokCells, Texts;
    TokensOf(ts, x);
    if ts == [] {
      ReachesSelf(s);
      assert vs + CellsOf(ts, x) == vs;
      u := s;
    } else {
      var t := ts[0];
      var more: seq<nat> :| NextWord(s.env.keys, Texts(ts)[0], more) && Keyed(more, Texts(ts)[1..], rest);
      var v := CompilesOne(s, L, m, x, t, more, name, vs, 8 * |CellsOf(ts[1..], x)| + 16);
      u := CompilesAll(v, L, m, x, ts[1..], rest, name, vs + TokCells(t, x));
      ReachesTrans(s, v, u);
      assert vs + TokCells(t, x) + CellsOf(ts[1..], x) == vs + CellsOf(ts, x);
    }
  }

  lemma CreatedSound(e: Env, L: Lib, m: Mem, name: seq<nat>, n: nat)
    requires Sound(e, L, m) && Room(e, L, HeaderSize(name) + n)
    ensures var f := Created(e, name).(comp := true);
      && Sound(f, L, m) && Growing(f, L, m, e.dp, name, []) && Room(f, L, n)
      && Loaded(e.mem, L, D(INTERPRETLOOP)) && Loaded(f.mem, L, D(INTERPRETLOOP))
      && BodyOf(f.mem, L, INTERPRETLOOP) == BodyOf(e.mem, L, INTERPRETLOOP)
  {
    hide Image, Loaded, WibReady;
    var c := Word(NewHeader(e, name));
    CreatedKeeps(e, L, name);
    NothingAt(e.mem, e.dp);
    ExtendsStore(m, e.mem, e.dp, c);
    WibLow(e);
    WibStoreAbove(e, e.dp, c, e.dp + HeaderSize(name));
    var f := Created(e, name);
    SameWib(f, f.(comp := true));
    LoadedStore(e.mem, L, INTERPRETLOOP, e.dp, c);
  }

  /** The words that typing a definition relies on are the built-in ones. */
  ghost predicate BuiltIns(m: Mem, latest: Addr, L: Lib) {
    && Search(m, latest, [58]) == Found(L.at(D(COLON)))
    && Search(m, latest, [59]) == Found(L.at(D(SEMICOLON)))
    && Search(m, latest, StrText(SLit)) == Found(L.at(P(Op.Lit)))
    && Search(m, latest, StrText(SExit)) == Found(L.at(P(Exit)))
  }

  lemma ColonKnown(m: Mem, n: Mem, L: Lib, latest: Addr)
    requires BuiltIns(m, latest, L) && Extends(m, n) && Image(n, L)
    ensures Search(n, latest, [58]) == Found(L.at(D(COLON))) && Search(n, latest, [59]) == Found(L.at(D(SEMICOLON)))
    ensures Search(n, latest, StrText(SExit)) == Found(L.at(P(Exit)))
    ensures HasWord(n, L.at(D(COLON))) && !n[L.at(D(COLON))].h.immediate && L.at(D(COLON)) != 0
    ensures HasWord(n, L.at(D(SEMICOLON))) && n[L.at(D(SEMICOLON))].h.immediate && L.at(D(SEMICOLON)) != 0
  {
    hide Image, Extends, Search, StrText, Code, CodeLen;
    SearchFound(m, n, latest, [58], L.at(D(COLON)));
    SearchFound(m, n, latest, [59], L.at(D(SEMICOLON)));
    SearchFound(m, n, latest, StrText(SExit), L.at(P(Exit)));
    Stepping.Known(n, L, D(COLON));
    Stepping.Known(n, L, D(SEMICOLON));
  }

  /** INTERPRET, given : and a name. */
  lemma InterpretOpens(c: State, L: Lib, m: Mem, name: seq<nat>, more: seq<nat>, rest: seq<nat>, n: nat)
    returns (v: State)
    requires Calling(c, L, INTERPRET) && Sound(c.env, L, m) && c.dn + 9 <= STACK_DEPTH && c.rn + 8 <= STACK_DEPTH
    requires !c.env.comp && BuiltIns(m, c.env.latest, L) && Token(name)
    requires NextWord(c.env.keys, [58], more) && NextWord(more, name, rest) && Room(c.env, L, HeaderSize(name) + n)
    ensures Reaches(c, v)
    ensures v == c.(pc := Next, tos := c.env.dp, ds := Item(c.tos, c.ds), dn := c.dn + 1, env := v.env)
    ensures v.env == c.env.(comp := true, mem := v.env.mem, dp := v.env.dp, win := v.env.win, keys := rest)
    ensures Sound(v.env, L, m) && Growing(v.env, L, m, c.env.dp, name, []) && Room(v.env, L, n)
    ensures Loaded(c.env.mem, L, D(INTERPRETLOOP)) && Loaded(v.env.mem, L, D(INTERPRETLOOP))
    ensures BodyOf(v.env.mem, L, INTERPRETLOOP) == BodyOf(c.env.mem, L, INTERPRETLOOP)
    ensures Alike(Created(c.env, name), v.env)
  {
    hide Reaches, Image, Loaded, BodyOf, WibReady, Below, Extends, ReadEnv, Search, StrText, HasChars, BufferOnly,
      Growing, BuiltIns, Plain, Step, Run, Created;
    ColonKnown(m, c.env.mem, L, c.env.latest);
    ColonToken();
    var s1 := ExecutesWord(c, L, [58], more, L.at(D(COLON)));
    ReadSound(c.env, L, m, [58], more, HeaderSize(name) + n);
    LoadedRead(c.env, L, [58], more);
    ColonWord(s1, L, name, rest);
    var e := ReadEnv(s1.env, name, rest);
    ReadSound(s1.env, L, m, name, rest, HeaderSize(name) + n);
    LoadedRead(s1.env, L, name, rest);
    CreatedSound(e, L, m, name, n);
    LoadedStore(e.mem, L, INTERPRET, e.dp, Word(NewHeader(e, name)));
    CreatedFacts(e, name);
    var s2 := s1.(pc := Next, tos := e.dp, ds := Item(c.tos, c.ds), dn := c.dn + 1,
      env := Created(e, name).(comp := true));
    ReachesTrans(c, s1, s2);
    v := Return(c, s2, L, INTERPRET, 20);
    CreatedAlike(c.env, s1.env, e, L, name, more, rest);
  }

  /** Creating the word behind two more tokens, or without them. */
  lemma CreatedAlike(e: Env, f: Env, g: Env, L: Lib, name: seq<nat>, more: seq<nat>, rest: seq<nat>)
    requires Image(e.mem, L) && WibReady(e) && Below(e.mem, e.dp) && |name| <= WIB_CHARS
    requires f == ReadEnv(e, [58], more) && g == ReadEnv(f, name, rest)
    ensures Alike(Created(e, name), Created(g, name).(comp := true))
  {
    hide Image, WibReady, Below, ReadEnv, BufferOnly, HeaderSize;
    ReadEffect(e, L, [58], more);
    ReadEffect(f, L, name, rest);
    BufferOnlyTrans(e.mem, f.mem, g.mem, g.wib);
    AlikeStore(e, g, e.dp, Word(NewHeader(e, name)), e.dp + HeaderSize(name), e.latest);
  }

  lemma ColonToken()
    ensures Token([58]) && Token([59])
  {
  }

  lemma CreatedFacts(e: Env, name: seq<nat>)
    ensures var f := Created(e, name);
      f == e.(mem := e.mem[e.dp := Word(NewHeader(e, name))], dp := e.dp + HeaderSize(name))
  {
  }

  lemma LoadedRead(e: Env, L: Lib, tok: seq<nat>, rest: seq<nat>)
    requires Image(e.mem, L) && WibReady(e) && Below(e.mem, e.dp) && |tok| <= WIB_CHARS
    ensures Loaded(e.mem, L, D(INTERPRET)) && Loaded(ReadEnv(e, tok, rest).mem, L, D(INTERPRET))
    ensures BodyOf(ReadEnv(e, tok, rest).mem, L, INTERPRET) == BodyOf(e.mem, L, INTERPRET)
  {
    hide Image, Loaded, WibReady, Below, ReadEnv, BodyOf;
    ReadEffect(e, L, tok, rest);
    LoadedIn(e.mem, ReadEnv(e, tok, rest).mem, L, INTERPRET, e.wib);
  }

  /** : and a name, typed at the prompt. */
  lemma OpensAtPrompt(s: State, L: Lib, m: Mem, name: seq<nat>, more: seq<nat>, rest: seq<nat>, n: nat)
    returns (u: State)
    requires AtPrompt(s, L, m) && !s.env.comp && BuiltIns(m, s.env.latest, L) && Token(name)
    requires NextWord(s.env.keys, [58], more) && NextWord(more, name, rest) && Room(s.env, L, HeaderSize(name) + n)
    requires s.dn + 9 <= STACK_DEPTH
    ensures Reaches(s, u) && Compiling(u, L, m, name, []) && Room(u.env, L, n)
    ensures u == s.(tos := s.env.dp, ds := Item(s.tos, s.ds), dn := s.dn + 1, env := u.env)
    ensures u.env == s.env.(comp := true, mem := u.env.mem, dp := u.env.dp, win := u.env.win, keys := rest)
    ensures Alike(Created(s.env, name), u.env)
  {
    hide Reaches, Image, Loaded, BodyOf, WibReady, Below, Extends, BuiltIns, Growing, Plain, Room;
    var c := s.(ip := s.ip + 8, pc := Exec(L.at(D(INTERPRET))));
    var v := InterpretOpens(c, L, m, name, more, rest, n);
    u := OneRound(s, v, L, m);
  }

  /** The dictionary once w has been finished: w is the newest word, prev the one before it. */
  ghost predicate Defined(e: Env, w: Addr, name: seq<nat>, prev: Addr, vs: seq<nat>) {
    && e.latest == w && HasWord(e.mem, w)
    && e.mem[w].h == Header(prev, name, false, Call, e.mem[w].h.blen, w + HeaderSize(name))
    && e.mem[w].h.blen == Wrap(8 * |vs|)
    && HasCells(e.mem, w + HeaderSize(name), vs) && e.dp == w + HeaderSize(name) + 8 * |vs|
  }

  /** forth_semicolon on a growing word. */
  lemma FinishDefines(e: Env, L: Lib, m: Mem, w: Addr, name: seq<nat>, vs: seq<nat>, k: Stack)
    requires Sound(e, L, m) && Growing(e, L, m, w, name, vs)
    ensures var f := Finish(Builder(e, Item(w, k))).env.(comp := false);
      && Sound(f, L, m) && Defined(f, w, name, e.latest, vs)
      && f == e.(comp := false, latest := w, mem := f.mem)
      && Loaded(e.mem, L, D(INTERPRETLOOP)) && Loaded(f.mem, L, D(INTERPRETLOOP))
      && BodyOf(f.mem, L, INTERPRETLOOP) == BodyOf(e.mem, L, INTERPRETLOOP)
      && Loaded(e.mem, L, D(INTERPRET)) && Loaded(f.mem, L, D(INTERPRET))
      && BodyOf(f.mem, L, INTERPRET) == BodyOf(e.mem, L, INTERPRET)
  {
    hide Image, Loaded, BodyOf, WibReady, HasCells;
    var c := Word(e.mem[w].h.(blen := Wrap(e.dp - e.mem[w].h.body)));
    ImageStore(e.mem, L, w, c);
    WibLow(e);
    WibStoreAbove(e, w, c, e.dp);
    SameWib(e.(mem := e.mem[w := c], dp := e.dp), e.(mem := e.mem[w := c], latest := w, comp := false));
    LoadedStore(e.mem, L, INTERPRETLOOP, w, c);
    LoadedStore(e.mem, L, INTERPRET, w, c);
    CellsKept(e.mem, w, c, w + HeaderSize(name), vs);
  }

  /** INTERPRET, given ; inside a definition. */
  lemma InterpretCloses(c: State, L: Lib, m: Mem, name: seq<nat>, vs: seq<nat>, rest: seq<nat>, y: nat, r: Stack)
    returns (v: State)
    requires Calling(c, L, INTERPRET) && Sound(c.env, L, m) && c.dn + 9 <= STACK_DEPTH && c.rn + 8 <= STACK_DEPTH
    requires c.env.comp && BuiltIns(m, c.env.latest, L) && c.ds == Item(y, r) && 0 < c.dn
    requires Growing(c.env, L, m, c.tos, name, vs) && NextWord(c.env.keys, [59], rest) && Room(c.env, L, 16)
    ensures Reaches(c, v)
    ensures v == c.(pc := Next, tos := y, ds := r, dn := c.dn - 1, env := v.env)
    ensures v.env == c.env.(comp := false, mem := v.env.mem, dp := v.env.dp, latest := c.tos, win := v.env.win,
      keys := rest)
    ensures Sound(v.env, L, m) && Defined(v.env, c.tos, name, c.env.latest, vs + [L.at(P(Exit))])
    ensures Loaded(c.env.mem, L, D(INTERPRETLOOP)) && Loaded(v.env.mem, L, D(INTERPRETLOOP))
    ensures BodyOf(v.env.mem, L, INTERPRETLOOP) == BodyOf(c.env.mem, L, INTERPRETLOOP)
    ensures Alike(Ended(Builder(Comma(c.env, L.at(P(Exit))), Item(c.tos, c.ds))).env, v.env)
  {
    hide Reaches, Image, Loaded, BodyOf, WibReady, Below, Extends, ReadEnv, Search, StrText, HasChars, BufferOnly,
      Growing, BuiltIns, Plain, Step, Run, Finish, Defined, NextWord;
    ColonKnown(m, c.env.mem, L, c.env.latest);
    ColonToken();
    var w, exit := c.tos, L.at(P(Exit));
    var s1 := ExecutesWord(c, L, [59], rest, L.at(D(SEMICOLON)));
    var e := s1.env;
    ReadSound(c.env, L, m, [59], rest, 16);
    LoadedRead(c.env, L, [59], rest);
    ReadGrowing(c.env, L, m, w, name, vs, [59], rest);
    LessRoom(e, L);
    GrowingWord(e, L, m, w, name, vs);
    ColonKnown(m, e.mem, L, e.latest);
    SemicolonWord(s1, L, exit, y, r);
    Appends(e, L, m, w, name, vs, exit, 8);
    LoadedStore(e.mem, L, INTERPRET, e.dp, Cell(exit));
    FinishDefines(Comma(e, exit), L, m, w, name, vs + [exit], Item(y, r));
    GrowingWord(Comma(e, exit), L, m, w, name, vs + [exit]);
    var f := Finish(AsBuilder(s1).(env := Comma(e, exit))).env.(comp := false);
    var s2 := s1.(pc := Next, tos := y, ds := r, dn := c.dn - 1, env := f);
    ReachesTrans(c, s1, s2);
    v := Return(c, s2, L, INTERPRET, 13);
    GrowingWord(c.env, L, m, w, name, vs);
    ReadAlike(c.env, L, [59], rest);
    FinishAlike(c.env, e, w, Item(y, r), exit);
    assert v.env == f;
  }

  lemma ReadAlike(e: Env, L: Lib, tok: seq<nat>, rest: seq<nat>)
    requires Image(e.mem, L) && WibReady(e) && Below(e.mem, e.dp) && |tok| <= WIB_CHARS
    ensures Alike(e, ReadEnv(e, tok, rest))
  {
    hide Image, WibReady, Below, BufferOnly, ReadEnv;
    ReadEffect(e, L, tok, rest);
  }

  /** EXIT and forth_semicolon keep dictionaries alike. */
  lemma FinishAlike(e: Env, f: Env, w: Addr, k: Stack, exit: Addr)
    requires Alike(e, f) && HasWord(e.mem, w) && w < e.dp
    ensures HasWord(Comma(e, exit).mem, w) && HasWord(Comma(f, exit).mem, w)
    ensures Alike(Finish(Builder(Comma(e, exit), Item(w, k))).env,
                  Finish(Builder(Comma(f, exit), Item(w, k))).env.(comp := false))
  {
    hide BufferOnly;
    assert HasWord(f.mem, w) && f.mem[w] == e.mem[w] by { WordAlike(e, f, w); }
    AlikeStore(e, f, e.dp, Cell(exit), e.dp + 8, e.latest);
    var g, h := Comma(e, exit), Comma(f, exit);
    var c := Word(e.mem[w].h.(blen := Wrap(g.dp - e.mem[w].h.body)));
    AlikeStore(g, h, w, c, g.dp, w);
  }

  lemma WordAlike(e: Env, f: Env, w: Addr)
    requires Alike(e, f) && HasWord(e.mem, w)
    ensures HasWord(f.mem, w) && f.mem[w] == e.mem[w]
  {
  }

  lemma GrowingWord(e: Env, L: Lib, m: Mem, w: Addr, name: seq<nat>, vs: seq<nat>)
    requires Growing(e, L, m, w, name, vs)
    ensures HasWord(e.mem, w) && L.top <= w && RAM <= w && w < e.dp
  {
  }

  /** ; typed at the prompt. */
  lemma ClosesAtPrompt(s: State, L: Lib, m: Mem, name: seq<nat>, vs: seq<nat>, rest: seq<nat>, y: nat, r: Stack)
    returns (u: State)
    requires Compiling(s, L, m, name, vs) && BuiltIns(m, s.env.latest, L) && s.ds == Item(y, r)
    requires NextWord(s.env.keys, [59], rest) && Room(s.env, L, 16) && s.dn + 9 <= STACK_DEPTH
    ensures Reaches(s, u) && AtPrompt(u, L, m) && !u.env.comp
    ensures u == s.(tos := y, ds := r, dn := s.dn - 1, env := u.env)
    ensures u.env == s.env.(comp := false, mem := u.env.mem, dp := u.env.dp, latest := s.tos, win := u.env.win,
      keys := rest)
    ensures Defined(u.env, s.tos, name, s.env.latest, vs + [L.at(P(Exit))])
    ensures Alike(Ended(Builder(Comma(s.env, L.at(P(Exit))), Item(s.tos, s.ds))).env, u.env)
  {
    hide Reaches, Image, Loaded, BodyOf, WibReady, Below, Extends, BuiltIns, Growing, Room, Defined;
    var c := s.(ip := s.ip + 8, pc := Exec(L.at(D(INTERPRET))));
    var v := InterpretCloses(c, L, m, name, vs, rest, y, r);
    u := OneRound(s, v, L, m);
    assert u.env == v.env;
  }

  // Running the new word.

  lemma CellsParts(m: Mem, base: Addr, vs: seq<nat>, ws: seq<nat>)
    requires HasCells(m, base, vs + ws)
    ensures HasCells(m, base, vs) && HasCells(m, base + 8 * |vs|, ws)
  {
    forall i | 0 <= i < |vs| ensures HasCell(m, base + 8 * i, vs[i]) {
      assert HasCell(m, base + 8 * i, (vs + ws)[i]);
    }
    forall i | 0 <= i < |ws| ensures HasCell(m, base + 8 * |vs| + 8 * i, ws[i]) {
      assert HasCell(m, base + 8 * (|vs| + i), (vs + ws)[|vs| + i]);
    }
  }

  /** A machine running threaded code, with the dictionary m intact. */
  ghost predicate Running(s: State, L: Lib, m: Mem) {
    s.pc == Next && Image(s.env.mem, L) && Extends(m, s.env.mem)
  }

  lemma RunsLiteral(s0: State, s: State, L: Lib, m: Mem, n: nat) returns (t: State)
    requires Reaches(s0, s) && Running(s, L, m) && s.dn < STACK_DEPTH
    requires HasCells(s.env.mem, s.ip, [L.at(P(Op.Lit)), n])
    ensures Reaches(s0, t) && t == WithData(s, Data(n, Item(s.tos, s.ds), s.dn + 1)).(ip := s.ip + 16)
  {
    hide Reaches, Image, Extends;
    var vs := [L.at(P(Op.Lit)), n];
    assert HasCell(s.env.mem, s.ip + 8 * 0, vs[0]) && HasCell(s.env.mem, s.ip + 8 * 1, vs[1]);
    Stepping.Known(s.env.mem, L, P(Op.Lit));
    t := ExecCtl(s0, s, L.at(P(Op.Lit)));
  }

  /** The word t may be run with n cells on the return stack. */
  ghost predicate Runnable(t: Tok, m: Mem, L: Lib, n: nat) {
    Shallow(t, n) && (t.Known? ==> DataWord(m, L, t.xt, t.deep, t.ok, t.eff))
  }

  lemma RunsWord(s0: State, s: State, L: Lib, m: Mem, t: Tok) returns (u: State)
    requires Reaches(s0, s) && Running(s, L, m) && t.Known? && Runnable(t, m, L, s.rn) && t.ok(DataOf(s))
    requires HasCells(s.env.mem, s.ip, [t.xt])
    ensures Reaches(s0, u) && u == WithData(s, t.eff(DataOf(s))).(ip := s.ip + 8)
  {
    hide Reaches, Image, Extends, DataWord;
    assert HasCell(s.env.mem, s.ip + 8 * 0, [t.xt][0]);
    var v := FetchCell(s0, s, t.xt);
    RunsKnown(v, L, m, t);
    u := WithData(v, t.eff(DataOf(v))).(pc := Next);
    ReachesTrans(s0, v, u);
  }

  lemma RunsOne(s0: State, s: State, L: Lib, m: Mem, x: Xts, t: Tok) returns (u: State)
    requires Reaches(s0, s) && Running(s, L, m) && Smooth([t], DataOf(s)) && x.lit == L.at(P(Op.Lit))
    requires Runnable(t, m, L, s.rn) && HasCells(s.env.mem, s.ip, TokCells(t, x))
    ensures Reaches(s0, u) && Running(u, L, m)
    ensures u == WithData(s, Effect(t, DataOf(s))).(ip := s.ip + 8 * |TokCells(t, x)|)
  {
    hide Reaches, Image, Extends, DataWord, NumberOf;
    match t {
      case Num(text) => u := RunsLiteral(s0, s, L, m, NumberOf(text));
      case Known(_, _, _, _, _) => u := RunsWord(s0, s, L, m, t);
    }
  }

  /** Running the cells of a list of words runs their effects in order. */
  lemma {:induction false} RunsAll(s0: State, s: State, L: Lib, m: Mem, x: Xts, ts: seq<Tok>) returns (t: State)
    requires Reaches(s0, s) && Running(s, L, m) && Smooth(ts, DataOf(s)) && x.lit == L.at(P(Op.Lit))
    requires forall i :: 0 <= i < |ts| ==> Runnable(ts[i], m, L, s.rn)
    requires HasCells(s.env.mem, s.ip, CellsOf(ts, x))
    ensures Reaches(s0, t) && t == WithData(s, After(ts, DataOf(s))).(ip := s.ip + 8 * |CellsOf(ts, x)|)
    decreases |ts|
  {
    hide Reaches, Running, Runnable;
    if ts == [] {
      t := s;
    } else {
      SmoothHead(ts, DataOf(s));
      CellsParts(s.env.mem, s.ip, TokCells(ts[0], x), CellsOf(ts[1..], x));
      var u := RunsOne(s0, s, L, m, x, ts[0]);
      t := RunsAll(s0, u, L, m, x, ts[1..]);
    }
  }

  /** The word w has the code vs. */
  ghost predicate Coded(m: Mem, w: Addr, vs: seq<nat>) {
    HasWord(m, w) && m[w].h.op == Call && HasCells(m, m[w].h.body, vs)
  }

  lemma DefinedCoded(e: Env, w: Addr, name: seq<nat>, prev: Addr, vs: seq<nat>)
    requires Defined(e, w, name, prev, vs)
    ensures Coded(e.mem, w, vs)
  {
  }

  /** CALL of a word defined as ts: its body runs and returns. */
  lemma RunsNew(s: State, L: Lib, m: Mem, x: Xts, ts: seq<Tok>, w: Addr) returns (t: State)
    requires s.pc == Exec(w) && Image(s.env.mem, L) && Extends(m, s.env.mem) && s.rn < STACK_DEPTH
    requires Coded(s.env.mem, w, CellsOf(ts, x) + [L.at(P(Exit))])
    requires Smooth(ts, DataOf(s)) && x.lit == L.at(P(Op.Lit))
    requires forall i :: 0 <= i < |ts| ==> Runnable(ts[i], m, L, s.rn + 1)
    ensures Reaches(s, t) && t == WithData(s, After(ts, DataOf(s))).(pc := Next)
  {
    hide Reaches, Image, Extends, Runnable, HasCells;
    ReachesSelf(s);
    var s1 := ExecWord(s, s);
    CellsParts(s.env.mem, s1.ip, CellsOf(ts, x), [L.at(P(Exit))]);
    var s2 := RunsAll(s, s1, L, m, x, ts);
    t := LeavesNew(s, s2, L);
  }

  lemma LeavesNew(s0: State, s: State, L: Lib) returns (t: State)
    requires Reaches(s0, s) && s.pc == Next && Image(s.env.mem, L) && s.rs.Item? && s.rn > 0
    requires HasCells(s.env.mem, s.ip, [L.at(P(Exit))])
    ensures Reaches(s0, t) && t == s.(ip := s.rs.top, rs := s.rs.rest, rn := s.rn - 1)
  {
    hide Reaches, Image;
    assert HasCell(s.env.mem, s.ip + 8 * 0, [L.at(P(Exit))][0]);
    Stepping.Known(s.env.mem, L, P(Exit));
    t := ExecCtl(s0, s, L.at(P(Exit)));
  }

  /** A word defined from words that touch the data stack only is such a word itself, one call deeper: it may
      be typed in a session, and used in further definitions. */
  lemma DefinedActs(e: Env, L: Lib, m: Mem, x: Xts, ts: seq<Tok>, name: seq<nat>, prev: Addr, deep: nat)
    requires Defined(e, e.latest, name, prev, CellsOf(ts, x) + [L.at(P(Exit))]) && Extends(m, e.mem)
    requires x.lit == L.at(P(Op.Lit))
    requires forall i :: 0 <= i < |ts| ==> Usable(ts[i], m, L, deep)
    ensures DataWord(e.mem, L, e.latest, deep + 1, d => Smooth(ts, d), d => After(ts, d))
  {
    hide Reaches, Image, Extends, Smooth, DataWord, Defined;
    var w, vs := e.latest, CellsOf(ts, x) + [L.at(P(Exit))];
    DefinedCoded(e, w, name, prev, vs);
    assert DataWord(e.mem, L, w, deep + 1, d => Smooth(ts, d), d => After(ts, d)) by {
      forall s: State | ActsOn(s, e.mem, L, w, deep + 1, d => Smooth(ts, d))
        ensures Reaches(s, WithData(s, After(ts, DataOf(s))).(pc := Next))
      {
        CodedExtends(e.mem, s.env.mem, w, vs);
        ExtendsTrans(m, e.mem, s.env.mem);
        UsableRuns(ts, m, L, deep, s.rn + 1);
        var t := RunsNew(s, L, m, x, ts, w);
      }
      Acts(e.mem, L, w, deep + 1, ts);
    }
  }

  /** A number, or a word that touches the data stack only and needs at most deep return stack cells. */
  ghost predicate Usable(t: Tok, m: Mem, L: Lib, deep: nat) {
    t.Known? ==> t.deep <= deep && DataWord(m, L, t.xt, t.deep, t.ok, t.eff)
  }

  lemma UsableRuns(ts: seq<Tok>, m: Mem, L: Lib, deep: nat, n: nat)
    requires n + deep <= STACK_DEPTH && forall i :: 0 <= i < |ts| ==> Usable(ts[i], m, L, deep)
    ensures forall i :: 0 <= i < |ts| ==> Runnable(ts[i], m, L, n)
  {
    hide DataWord;
    forall i | 0 <= i < |ts| ensures Runnable(ts[i], m, L, n) {
      assert Usable(ts[i], m, L, deep);
    }
  }

  lemma Acts(m: Mem, L: Lib, w: Addr, deep: nat, ts: seq<Tok>)
    requires forall s: State :: ActsOn(s, m, L, w, deep, d => Smooth(ts, d))
                            ==> Reaches(s, WithData(s, After(ts, DataOf(s))).(pc := Next))
    ensures DataWord(m, L, w, deep, d => Smooth(ts, d), d => After(ts, d))
  {
    hide Reaches, Smooth, ActsOn;
  }

  lemma CodedExtends(m: Mem, n: Mem, w: Addr, vs: seq<nat>)
    requires Coded(m, w, vs) && Extends(m, n)
    ensures Coded(n, w, vs)
  {
    var body := m[w].h.body;
    forall i | 0 <= i < |vs| ensures HasCell(n, body + 8 * i, vs[i]) {
      assert HasCell(m, body + 8 * i, vs[i]);
    }
  }

  lemma ExtendsTrans(m: Mem, n: Mem, o: Mem)
    requires Extends(m, n) && Extends(n, o)
    ensures Extends(m, o)
  {
  }

  /** INTERPRET, given the name of the word defined last. */
  lemma InterpretCalls(c: State, L: Lib, m: Mem, x: Xts, ts: seq<Tok>, name: seq<nat>, prev: Addr, rest: seq<nat>)
    requires Calling(c, L, INTERPRET) && Sound(c.env, L, m) && c.dn + 9 <= STACK_DEPTH && c.rn + 8 <= STACK_DEPTH
    requires !c.env.comp && Token(name) && NextWord(c.env.keys, name, rest) && 0 < c.env.latest
    requires Defined(c.env, c.env.latest, name, prev, CellsOf(ts, x) + [L.at(P(Exit))])
    requires Smooth(ts, DataOf(c)) && x.lit == L.at(P(Op.Lit))
    requires forall i :: 0 <= i < |ts| ==> Runnable(ts[i], m, L, c.rn + 2)
    ensures Reaches(c, WithData(c, After(ts, DataOf(c))).(pc := Next, env := ReadEnv(c.env, name, rest)))
  {
    hide Reaches, Image, Loaded, BodyOf, WibReady, Below, Extends, ReadEnv, HasChars, BufferOnly, Plain, Step, Run,
      HasCells, Runnable, NextWord, Defined, Coded, Search;
    var w, vs := c.env.latest, CellsOf(ts, x) + [L.at(P(Exit))];
    NewKnown(c.env, w, name, prev, vs);
    var s1 := ExecutesWord(c, L, name, rest, w);
    ReadDefined(c.env, L, m, w, name, prev, vs, name, rest);
    LoadedRead(c.env, L, name, rest);
    var s2 := RunsAndLeaves(c, s1, L, m, x, ts, w, name, prev);
    assert s2 == WithData(c, After(ts, DataOf(c))).(pc := Next, env := ReadEnv(c.env, name, rest));
  }

  /** The new word runs, and INTERPRET returns behind its EXECUTE. */
  lemma RunsAndLeaves(s0: State, s: State, L: Lib, m: Mem, x: Xts, ts: seq<Tok>, w: Addr, name: seq<nat>, prev: Addr)
    returns (t: State)
    requires Reaches(s0, s) && s.pc == Exec(w) && Image(s.env.mem, L) && Extends(m, s.env.mem) && s.rn < STACK_DEPTH
    requires Loaded(s.env.mem, L, D(INTERPRET)) && s.ip == BodyOf(s.env.mem, L, INTERPRET) + 8 * 20
    requires Defined(s.env, w, name, prev, CellsOf(ts, x) + [L.at(P(Exit))]) && s.rs.Item? && s.rn > 0
    requires Smooth(ts, DataOf(s)) && x.lit == L.at(P(Op.Lit))
    requires forall i :: 0 <= i < |ts| ==> Runnable(ts[i], m, L, s.rn + 1)
    ensures Reaches(s0, t)
    ensures t == WithData(s, After(ts, DataOf(s))).(pc := Next, ip := s.rs.top, rs := s.rs.rest, rn := s.rn - 1)
  {
    hide Reaches, Image, Loaded, BodyOf, Extends, Step, Run, Runnable, Defined, Coded, Smooth, CellsOf;
    DefinedCoded(s.env, w, name, prev, CellsOf(ts, x) + [L.at(P(Exit))]);
    var s2 := RunsNew(s, L, m, x, ts, w);
    ReachesTrans(s0, s, s2);
    t := Return(s0, s2, L, INTERPRET, 20);
  }

  lemma NewKnown(e: Env, w: Addr, name: seq<nat>, prev: Addr, vs: seq<nat>)
    requires Defined(e, w, name, prev, vs)
    ensures HasWord(e.mem, w) && !e.mem[w].h.immediate && Search(e.mem, w, name) == Found(w)
  {
    hide HasCells;
  }

  lemma ReadDefined(e: Env, L: Lib, m: Mem, w: Addr, name: seq<nat>, prev: Addr, vs: seq<nat>, tok: seq<nat>,
      rest: seq<nat>)
    requires Sound(e, L, m) && Defined(e, w, name, prev, vs) && |tok| <= WIB_CHARS
    ensures var f := ReadEnv(e, tok, rest);
      && Sound(f, L, m) && Defined(f, w, name, prev, vs)
      && f == e.(mem := f.mem, win := f.win, keys := rest)
      && Loaded(e.mem, L, D(INTERPRETLOOP)) && Loaded(f.mem, L, D(INTERPRETLOOP))
      && BodyOf(f.mem, L, INTERPRETLOOP) == BodyOf(e.mem, L, INTERPRETLOOP)
  {
    hide Image, Loaded, BodyOf, WibReady, Below, Extends, ReadEnv, HasCells;
    var f := ReadEnv(e, tok, rest);
    ReadEffect(e, L, tok, rest);
    ExtendsBuffer(m, e.mem, f.mem, e.wib);
    CellsBuffer(e.mem, f.mem, e.wib, w + HeaderSize(name), vs);
    LoadedIn(e.mem, f.mem, L, INTERPRETLOOP, e.wib);
  }

  /** The new word's name, typed at the prompt. */
  lemma CallsAtPrompt(s: State, L: Lib, m: Mem, x: Xts, ts: seq<Tok>, name: seq<nat>, prev: Addr, rest: seq<nat>)
    returns (u: State)
    requires AtPrompt(s, L, m) && !s.env.comp && Token(name) && NextWord(s.env.keys, name, rest) && 0 < s.env.latest
    requires Defined(s.env, s.env.latest, name, prev, CellsOf(ts, x) + [L.at(P(Exit))])
    requires Smooth(ts, DataOf(s)) && x.lit == L.at(P(Op.Lit))
    requires forall i :: 0 <= i < |ts| ==> Runnable(ts[i], m, L, s.rn + 2)
    ensures Reaches(s, u) && AtPrompt(u, L, m)
    ensures u == WithData(s, After(ts, DataOf(s))).(env := u.env)
    ensures u.env == s.env.(mem := u.env.mem, win := u.env.win, keys := rest)
    ensures Defined(u.env, s.env.latest, name, prev, CellsOf(ts, x) + [L.at(P(Exit))])
  {
    hide Reaches, Image, Loaded, BodyOf, WibReady, Below, Extends, ReadEnv, Plain, Defined, Runnable, NextWord;
    var c := s.(ip := s.ip + 8, pc := Exec(L.at(D(INTERPRET))));
    assert s.dn + 14 <= STACK_DEPTH;
    SmoothEnd(ts, DataOf(s));
    ReadDefined(s.env, L, m, s.env.latest, name, prev, CellsOf(ts, x) + [L.at(P(Exit))], name, rest);
    InterpretCalls(c, L, m, x, ts, name, prev, rest);
    var v := WithData(c, After(ts, DataOf(c))).(pc := Next, env := ReadEnv(c.env, name, rest));
    u := OneRound(s, v, L, m);
  }

  lemma {:induction false} SmoothEnd(ts: seq<Tok>, d: Data)
    requires Smooth(ts, d)
    ensures After(ts, d).dn + 14 <= STACK_DEPTH
    decreases |ts|
  {
    if ts != [] { SmoothEnd(ts[1..], Effect(ts[0], d)); }
  }

  /** The cells of a definition: those of its words, and EXIT. */
  function WordCells(ts: seq<Tok>, L: Lib): seq<nat> {
    CellsOf(ts, XtsOf(L)) + [L.at(P(Exit))]
  }

  /** Typing `: N ts ;` at the prompt, with any delimiters between the words, adds exactly one word to the
      dictionary, N, with the code of ts, in front of the words that were there, all of which stay as they
      were; the data stack is as before. */
  lemma Defines(s: State, L: Lib, name: seq<nat>, ts: seq<Tok>, rest: seq<nat>) returns (u: State)
    requires AtPrompt(s, L, s.env.mem) && !s.env.comp && BuiltIns(s.env.mem, s.env.latest, L) && Token(name)
    requires forall i :: 0 <= i < |ts| ==> Legal(ts[i], s.env.mem, s.env.latest, L)
    requires s.dn + 10 <= STACK_DEPTH && Room(s.env, L, HeaderSize(name) + 8 * |CellsOf(ts, XtsOf(L))| + 16)
    requires Keyed(s.env.keys, [[58]] + ([name] + (Texts(ts) + [[59]])), rest)
    ensures Reaches(s, u) && AtPrompt(u, L, s.env.mem) && u == s.(env := u.env)
    ensures u.env == s.env.(mem := u.env.mem, dp := u.env.dp, latest := s.env.dp, win := u.env.win, keys := rest)
    ensures Defined(u.env, s.env.dp, name, s.env.latest, WordCells(ts, L)) && 0 < s.env.dp
  {
    hide Reaches, AtPrompt, Image, Extends, Search, StrText, Legal, Defined, BuiltIns, Room, Compiling, Plain, NextWord;
    var m, x := s.env.mem, XtsOf(L);
    var k1 := KeyedSplit(s.env.keys, [[58]], [name] + (Texts(ts) + [[59]]), rest);
    var k2 := KeyedSplit(k1, [name], Texts(ts) + [[59]], rest);
    var k3 := KeyedSplit(k2, Texts(ts), [[59]], rest);
    KeyedOne(s.env.keys, [58], k1);
    KeyedOne(k1, name, k2);
    KeyedOne(k3, [59], rest);
    var s1 := OpensAtPrompt(s, L, m, name, k1, k2, 8 * |CellsOf(ts, x)| + 16);
    LitKnown(m, s.env.latest, L);
    RoomInRam(s.env, L, HeaderSize(name) + 8 * |CellsOf(ts, x)| + 16);
    var s2 := CompilesAll(s1, L, m, x, ts, k3, name, []);
    assert [] + CellsOf(ts, x) == CellsOf(ts, x);
    u := ClosesAtPrompt(s2, L, m, name, CellsOf(ts, x), rest, s.tos, s.ds);
    ReachesTrans(s, s1, s2);
    ReachesTrans(s, s2, u);
  }

  /** Define, then call: typing `: N ts ;` and then N at the prompt leaves the same data stack as typing
      ts, and adds exactly one word to the dictionary, N, in front of the words that were there, all of
      which stay as they were. Any blanks and line ends may stand between the words. */
  lemma DefineThenCall(s: State, L: Lib, name: seq<nat>, ts: seq<Tok>, keys: seq<nat>, rest: seq<nat>)
    returns (u: State, v: State)
    requires AtPrompt(s, L, s.env.mem) && !s.env.comp && BuiltIns(s.env.mem, s.env.latest, L) && Token(name)
    requires forall i :: 0 <= i < |ts| ==> Legal(ts[i], s.env.mem, s.env.latest, L) && Shallow(ts[i], s.rn + 2)
    requires Smooth(ts, DataOf(s)) && Room(s.env, L, HeaderSize(name) + 8 * |CellsOf(ts, XtsOf(L))| + 16)
    requires Keyed(s.env.keys, [[58]] + ([name] + (Texts(ts) + [[59]])) + [name], rest)
    requires Keyed(keys, Texts(ts), rest)
    ensures Reaches(s, u) && Reaches(s.(env := s.env.(keys := keys)), v)
    ensures DataOf(u) == DataOf(v) == After(ts, DataOf(s)) && u.ip == v.ip == s.ip && u.env.keys == v.env.keys == rest
    ensures u.env == s.env.(mem := u.env.mem, dp := u.env.dp, latest := s.env.dp, win := u.env.win, keys := rest)
    ensures v.env == s.env.(mem := v.env.mem, win := v.env.win, keys := rest)
    ensures Defined(u.env, s.env.dp, name, s.env.latest, WordCells(ts, L))
    ensures Extends(s.env.mem, u.env.mem) && AtPrompt(u, L, s.env.mem)
  {
    hide Reaches, AtPrompt, Image, Extends, Search, StrText, Legal, Defined, BuiltIns, Room, Plain, NextWord, DataWord;
    var m := s.env.mem;
    var k := KeyedSplit(s.env.keys, [[58]] + ([name] + (Texts(ts) + [[59]])), [name], rest);
    KeyedOne(k, name, rest);
    var w := Defines(s, L, name, ts, k);
    LegalRuns(ts, m, s.env.latest, L, s.rn + 2);
    DefinedNewest(w.env, s.env.dp, name, s.env.latest, WordCells(ts, L));
    u := CallsAtPrompt(w, L, m, XtsOf(L), ts, name, s.env.latest, rest);
    PromptExtends(u, L, m);
    ReachesTrans(s, w, u);
    var t := s.(env := s.env.(keys := keys));
    PromptKeys(s, L, m, keys);
    v := TypesAll(t, L, m, ts, rest);
  }

  lemma RoomInRam(e: Env, L: Lib, n: nat)
    requires Room(e, L, n)
    ensures RAM <= e.dp
  {
  }

  lemma LitKnown(m: Mem, latest: Addr, L: Lib)
    requires BuiltIns(m, latest, L)
    ensures Search(m, latest, StrText(SLit)) == Found(L.at(P(Op.Lit)))
  {
  }

  lemma LegalRuns(ts: seq<Tok>, m: Mem, latest: Addr, L: Lib, n: nat)
    requires forall i :: 0 <= i < |ts| ==> Legal(ts[i], m, latest, L) && Shallow(ts[i], n)
    ensures forall i :: 0 <= i < |ts| ==> Runnable(ts[i], m, L, n)
  {
    hide DataWord, Search;
    forall i | 0 <= i < |ts| ensures Runnable(ts[i], m, L, n) {
      assert Legal(ts[i], m, latest, L) && Shallow(ts[i], n);
    }
  }

  lemma DefinedNewest(e: Env, w: Addr, name: seq<nat>, prev: Addr, vs: seq<nat>)
    requires Defined(e, w, name, prev, vs)
    ensures e.latest == w
  {
  }

  lemma PromptExtends(u: State, L: Lib, m: Mem)
    requires AtPrompt(u, L, m)
    ensures Extends(m, u.env.mem)
  {
  }

  lemma PromptKeys(s: State, L: Lib, m: Mem, keys: seq<nat>)
    requires AtPrompt(s, L, m)
    ensures AtPrompt(s.(env := s.env.(keys := keys)), L, m)
  {
    hide Image, Loaded, BodyOf, Below, Extends;
  }
}
