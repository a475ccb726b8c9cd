/** Sessions at the interpreter loop: typing words one by one, and typing `: N words ;` and then N,
    leave the same data stack. */
module Sessions {
  import opened Words
  import opened Memory
  import opened Opcodes
  import opened Machine
  import opened Builders
  import opened Library
  import opened Stepping
  import opened StackWords
  import opened IoWords
  import opened DictWords
  import opened Printing
  import opened Tokeniser
  import opened ControlWords
  import opened Interpret
  import opened Defining

  /** The data stack: the cached top, the cells below it, their number. */
  datatype Data = Data(tos: nat, ds: Stack, dn: nat)

  function DataOf(s: State): Data {
    Data(s.tos, s.ds, s.dn)
  }

  function WithData(s: State, d: Data): State {
    s.(tos := d.tos, ds := d.ds, dn := d.dn)
  }

  /** Everything in m but characters is still in n. */
  ghost predicate Extends(m: Mem, n: Mem) {
    forall a :: a in m && !m[a].Wide? ==> a in n && n[a] == m[a]
  }

  /** A word whose effect is eff on every data stack it accepts, given deep free cells on the return stack, and
      which touches nothing else, wherever the dictionary m is still intact. */
  ghost predicate DataWord(m: Mem, L: Lib, xt: Addr, deep: nat, ok: Data -> bool, eff: Data -> Data) {
    forall s: State :: ActsOn(s, m, L, xt, deep, ok) ==> Reaches(s, WithData(s, eff(DataOf(s))).(pc := Next))
  }

  ghost predicate ActsOn(s: State, m: Mem, L: Lib, xt: Addr, deep: nat, ok: Data -> bool) {
    s.pc == Exec(xt) && Extends(m, s.env.mem) && Image(s.env.mem, L) && ok(DataOf(s)) && s.rn + deep <= STACK_DEPTH
  }

  /** What may be typed: a hex literal, or a known word with its effect on the data stack. */
  datatype Tok =
    | Num(text: seq<nat>)
    | Known(text: seq<nat>, xt: Addr, deep: nat, ok: Data -> bool, eff: Data -> Data)

  /** There is room for the word on a return stack with n cells. */
  predicate Shallow(t: Tok, n: nat) {
    t.Known? ==> n + t.deep <= STACK_DEPTH
  }

  function Effect(t: Tok, d: Data): Data {
    match t
    case Num(text) => Data(NumberOf(text), Item(d.tos, d.ds), d.dn + 1)
    case Known(_, _, _, _, eff) => eff(d)
  }

  function After(ts: seq<Tok>, d: Data): Data
    decreases |ts|
  {
    if ts == [] then d else After(ts[1..], Effect(ts[0], d))
  }

  /** Every word accepts the stack it meets, and there is always room for the interpreter's own
      temporaries. */
  predicate Smooth(ts: seq<Tok>, d: Data)
    decreases |ts|
  {
    && d.dn + 14 <= STACK_DEPTH
    && (ts != [] ==> (ts[0].Known? ==> ts[0].ok(d)) && Smooth(ts[1..], Effect(ts[0], d)))
  }

  function Texts(ts: seq<Tok>): seq<seq<nat>> {
    if ts == [] then [] else [ts[0].text] + Texts(ts[1..])
  }

  /** A word the dictionary m knows, or a number it does not. */
  ghost predicate Legal(t: Tok, m: Mem, latest: Addr, L: Lib) {
    Token(t.text) &&
    match t
    case Num(text) => Search(m, latest, text) == Absent && IsNumberText(text) && |text| <= 17
    case Known(text, xt, deep, ok, eff) =>
      && Search(m, latest, text) == Found(xt) && xt != 0 && HasWord(m, xt) && !m[xt].h.immediate
      && DataWord(m, L, xt, deep, ok, eff)
  }

  /** The machine is at the head of INTERPRET-LOOP, with the dictionary m intact. */
  ghost predicate AtPrompt(s: State, L: Lib, m: Mem) {
    && At(s, L, INTERPRETLOOP, 0) && Reading(s, L, 0, 8) && !s.pser && Extends(m, s.env.mem)
  }

  lemma {:induction false} SearchExtends(m: Mem, n: Mem, w: Addr, name: seq<nat>)
    requires Extends(m, n) && !Search(m, w, name).Broken?
    ensures Search(n, w, name) == Search(m, w, name)
    decreases w
  {
    if HasWord(m, w) {
      assert n[w] == m[w];
      if m[w].h.name != name && 0 != m[w].h.prev < w { SearchExtends(m, n, m[w].h.prev, name); }
    }
  }

  lemma ExtendsBuffer(m: Mem, n: Mem, o: Mem, wib: Addr)
    requires Extends(m, n) && BufferOnly(n, o, wib)
    ensures Extends(m, o)
  {
  }

  lemma ExtendsStore(m: Mem, n: Mem, a: Addr, c: Chunk)
    requires Extends(m, n) && a !in n
    ensures Extends(m, n[a := c])
  {
  }

  /** The rest of the loop once INTERPRET has come back without a stack error: INTERPRET-FIX finds
      nothing to do, and the loop starts again. */
  lemma LoopsBack(s0: State, v: State, L: Lib) returns (t: State)
    requires Reaches(s0, v) && At(v, L, INTERPRETLOOP, 1) && DefaultIo(v.env, L) && !v.pser
    requires v.dn + 2 <= STACK_DEPTH && v.rn + 3 <= STACK_DEPTH
    ensures Reaches(s0, t) && t == v.(ip := v.ip - 8)
  {
    hide Reaches, Image, Loaded, BodyOf, Step, Run;
    var u := Fetch(s0, v, L, INTERPRETLOOP, 1, D(INTERPRETFIX));
    InterpretFix(u, L);
    var w := u.(pc := Next);
    ReachesTrans(s0, u, w);
    t := Jump(s0, w, L, INTERPRETLOOP, 2, 0);
  }

  /** One round of the loop, given what its call of INTERPRET leads to. */
  lemma OneRound(s: State, v: State, L: Lib, m: Mem) returns (t: State)
    requires AtPrompt(s, L, m) && s.dn + 9 <= STACK_DEPTH
    requires Reaches(s.(ip := s.ip + 8, pc := Exec(L.at(D(INTERPRET)))), v)
    requires v.pc == Next && v.ip == s.ip + 8 && v.rs == s.rs && v.rn == s.rn && !v.pser && v.dn + 2 <= STACK_DEPTH
    requires Image(v.env.mem, L) && DefaultIo(v.env, L) && WibReady(v.env) && Below(v.env.mem, v.env.dp)
    requires Extends(m, v.env.mem) && Loaded(v.env.mem, L, D(INTERPRETLOOP))
    requires BodyOf(v.env.mem, L, INTERPRETLOOP) == BodyOf(s.env.mem, L, INTERPRETLOOP)
    ensures Reaches(s, t) && t == v.(ip := s.ip) && AtPrompt(t, L, m)
  {
    hide Reaches, Image, Loaded, BodyOf, Step, Run, Below, WibReady, Extends;
    ReachesSelf(s);
    var u := Fetch(s, s, L, INTERPRETLOOP, 0, D(INTERPRET));
    ReachesTrans(s, u, v);
    t := LoopsBack(s, v, L);
  }

  /** A known word is typed while interpreting. */
  lemma InterpretsKnown(s: State, L: Lib, m: Mem, t: Tok, rest: seq<nat>)
    requires Calling(s, L, INTERPRET) && Reading(s, L, 9, 7) && !s.env.comp && Extends(m, s.env.mem)
    requires t.Known? && Legal(t, m, s.env.latest, L) && NextWord(s.env.keys, t.text, rest) && t.ok(DataOf(s))
    requires Shallow(t, s.rn + 1)
    ensures Reaches(s, WithData(s, t.eff(DataOf(s))).(pc := Next, env := ReadEnv(s.env, t.text, rest)))
  {
    hide Reaches, Image, Loaded, BodyOf, Step, Run, Below, WibReady, ReadEnv, Search, HasChars, BufferOnly, Extends,
      DataWord;
    var tok, xt := t.text, t.xt;
    SearchExtends(m, s.env.mem, s.env.latest, tok);
    KnownStays(m, s.env.mem, xt);
    ReadEffect(s.env, L, tok, rest);
    ExtendsBuffer(m, s.env.mem, ReadEnv(s.env, tok, rest).mem, s.env.wib);
    var s1 := ExecutesWord(s, L, tok, rest, xt);
    RunsKnown(s1, L, m, t);
    var s2 := WithData(s1, t.eff(DataOf(s))).(pc := Next);
    ReachesTrans(s, s1, s2);
    LoadedIn(s.env.mem, s1.env.mem, L, INTERPRET, s.env.wib);
    var s3 := Return(s, s2, L, INTERPRET, 20);
    assert s3 == WithData(s, t.eff(DataOf(s))).(pc := Next, env := ReadEnv(s.env, tok, rest));
  }

  lemma KnownStays(m: Mem, n: Mem, xt: Addr)
    requires Extends(m, n) && HasWord(m, xt)
    ensures HasWord(n, xt) && n[xt] == m[xt]
  {
  }

  lemma RunsKnown(s: State, L: Lib, m: Mem, t: Tok)
    requires t.Known? && DataWord(m, L, t.xt, t.deep, t.ok, t.eff)
    requires s.pc == Exec(t.xt) && Extends(m, s.env.mem) && Image(s.env.mem, L) && t.ok(DataOf(s)) && Shallow(t, s.rn)
    ensures Reaches(s, WithData(s, t.eff(DataOf(s))).(pc := Next))
  {
    hide Reaches, Image, Extends;
    assert ActsOn(s, m, L, t.xt, t.deep, t.ok);
  }

  /** One token typed at the prompt while interpreting. */
  lemma TypesOne(s: State, L: Lib, m: Mem, t: Tok, rest: seq<nat>) returns (u: State)
    requires AtPrompt(s, L, m) && !s.env.comp && Legal(t, m, s.env.latest, L)
    requires NextWord(s.env.keys, t.text, rest) && Smooth([t], DataOf(s)) && Shallow(t, s.rn + 1)
    ensures Reaches(s, u) && AtPrompt(u, L, m)
    ensures u == WithData(s, Effect(t, DataOf(s))).(env := ReadEnv(s.env, t.text, rest))
  {
    hide Reaches, Image, Loaded, BodyOf, Step, Run, Below, WibReady, ReadEnv, Search, HasChars, BufferOnly, Extends,
      DataWord, IsNumberText, NumberOf;
    var c := s.(ip := s.ip + 8, pc := Exec(L.at(D(INTERPRET))));
    var tok := t.text;
    var d := Effect(t, DataOf(s));
    assert Smooth([], d) by { assert [t][1..] == []; }
    ReadEffect(s.env, L, tok, rest);
    var v := WithData(c, d).(pc := Next, env := ReadEnv(s.env, tok, rest));
    match t {
      case Num(_) =>
        SearchAbsent(m, s.env.mem, s.env.latest, tok);
        PushesNumber(c, L, tok, rest);
        assert v == c.(pc := Next, env := ReadEnv(c.env, tok, rest),
                       tos := NumberOf(tok), ds := Item(c.tos, c.ds), dn := c.dn + 1);
      case Known(_, _, _, _, _) =>
        InterpretsKnown(c, L, m, t, rest);
        assert v == WithData(c, t.eff(DataOf(c))).(pc := Next, env := ReadEnv(c.env, tok, rest));
    }
    ExtendsBuffer(m, s.env.mem, v.env.mem, s.env.wib);
    LoadedIn(s.env.mem, v.env.mem, L, INTERPRETLOOP, s.env.wib);
    u := OneRound(s, v, L, m);
  }

  lemma SearchAbsent(m: Mem, n: Mem, w: Addr, name: seq<nat>)
    requires Extends(m, n) && Search(m, w, name) == Absent
    ensures Search(n, w, name) == Absent
  {
    SearchExtends(m, n, w, name);
  }

  /** Typing a list of words while interpreting runs their effects in order. */
  lemma {:induction false} TypesAll(s: State, L: Lib, m: Mem, ts: seq<Tok>, rest: seq<nat>) returns (u: State)
    requires AtPrompt(s, L, m) && !s.env.comp && Smooth(ts, DataOf(s))
    requires forall i :: 0 <= i < |ts| ==> Legal(ts[i], m, s.env.latest, L)
    requires forall i :: 0 <= i < |ts| ==> Shallow(ts[i], s.rn + 1)
    requires Keyed(s.env.keys, Texts(ts), rest)
    ensures Reaches(s, u) && AtPrompt(u, L, m)
    ensures u == WithData(s, After(ts, DataOf(s))).(env := s.env.(mem := u.env.mem, win := u.env.win, keys := rest))
    ensures BufferOnly(s.env.mem, u.env.mem, s.env.wib)
    decreases |ts|
  {
    hide Reaches, AtPrompt, Legal, ReadEnv, BufferOnly;
    if ts == [] {
      ReachesSelf(s);
      NothingTyped(s, rest);
      u := s;
    } else {
      var t := ts[0];
      var more: seq<nat> :| NextWord(s.env.keys, Texts(ts)[0], more) && Keyed(more, Texts(ts)[1..], rest);
      assert Texts(ts)[1..] == Texts(ts[1..]);
      SmoothHead(ts, DataOf(s));
      var v := TypesOne(s, L, m, t, more);
      TypedOne(s, L, m, t, more);
      u := TypesAll(v, L, m, ts[1..], rest);
      ReachesTrans(s, v, u);
      BufferOnlyTrans(s.env.mem, v.env.mem, u.env.mem, s.env.wib);
    }
  }

  lemma NothingTyped(s: State, rest: seq<nat>)
    requires Keyed(s.env.keys, [], rest)
    ensures s.env.keys == rest && BufferOnly(s.env.mem, s.env.mem, s.env.wib)
  {
  }

  lemma SmoothHead(ts: seq<Tok>, d: Data)
    requires ts != [] && Smooth(ts, d)
    ensures Smooth([ts[0]], d) && Smooth(ts[1..], Effect(ts[0], d))
  {
    assert [ts[0]][1..] == [];
    assert Smooth([], Effect(ts[0], d));
  }

  lemma TypedOne(s: State, L: Lib, m: Mem, t: Tok, rest: seq<nat>)
    requires AtPrompt(s, L, m) && Legal(t, m, s.env.latest, L)
    ensures var f := ReadEnv(s.env, t.text, rest);
      BufferOnly(s.env.mem, f.mem, s.env.wib) && f == s.env.(mem := f.mem, win := f.win, keys := rest)
  {
    hide Image, Loaded, WibReady, Below, DataWord, ReadEnv;
    ReadEffect(s.env, L, t.text, rest);
  }

  // The definition.

  /** The cells that a list of words compiles to. */
  function CellsOf(ts: seq<Tok>, x: Xts): seq<nat>
    decreases |ts|
  {
    if ts == [] then [] else TokCells(ts[0], x) + CellsOf(ts[1..], x)
  }

  function TokCells(t: Tok, x: Xts): seq<nat> {
    match t
    case Num(text) => [x.lit, NumberOf(text)]
    case Known(_, xt, _, _, _) => [xt]
  }
}
