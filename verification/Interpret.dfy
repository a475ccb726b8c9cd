/** INTERPRET: one word of input looked up and executed, compiled, or taken for a number. */
module Interpret {
  import opened Words
  import opened Memory
  import opened Opcodes
  import opened Machine
  import opened Builders
  import opened Library
  import opened Stepping
  import opened StackWords
  import opened IoWords
  import opened DictWords
  import opened Printing
  import opened Tokeniser
  import opened ControlWords

  /** A word INTERPRET can take from the keys. */
  predicate Token(tok: seq<nat>) {
    Plain(tok) && 0 < |tok| <= WIB_CHARS && 0 !in tok
  }

  function XtOr0(l: Lookup): Addr {
    match l
    case Found(xt) => xt
    case _ => 0
  }

  /** WIB-WORD at cell i of d. */
  lemma ReadsWord(s0: State, s: State, L: Lib, d: Def, i: nat, tok: seq<nat>, rest: seq<nat>) returns (t: State)
    requires Reaches(s0, s) && At(s, L, d, i) && Reading(s, L, 5, 4)
    requires i < CodeLen(d) && Code(d, i) == W(D(WIBWORD))
    requires Token(tok) && NextWord(s.env.keys, tok, rest)
    ensures Reaches(s0, t) && At(t, L, d, i + 1)
    ensures t == s.(ip := s.ip + 8, env := ReadEnv(s.env, tok, rest))
  {
    hide Reaches, Image, Loaded, BodyOf, Step, Run, Below, WibReady, ReadEnv, BufferOnly, HasChars, Plain, Code,
      CodeLen, NextWord;
    var u := Fetch(s0, s, L, d, i, D(WIBWORD));
    WibWord(u, L, tok, rest);
    var e := ReadEnv(s.env, tok, rest);
    ReadEffect(s.env, L, tok, rest);
    t := u.(pc := Next, env := e);
    ReachesTrans(s0, u, t);
    LoadedIn(s.env.mem, e.mem, L, d, s.env.wib);
  }

  /** WIB WIN X@ at cells i to i + 2. */
  lemma WordOnStack(s0: State, s: State, L: Lib, d: Def, i: nat) returns (t: State)
    requires Reaches(s0, s) && At(s, L, d, i) && s.dn + 2 <= STACK_DEPTH && i + 2 < CodeLen(d)
    requires Code(d, i) == W(P(Wib)) && Code(d, i + 1) == W(P(Win)) && Code(d, i + 2) == W(P(XLoad))
    ensures Reaches(s0, t)
    ensures t == s.(ip := s.ip + 24, tos := s.env.win, ds := Item(s.env.wib, Item(s.tos, s.ds)), dn := s.dn + 2)
  {
    hide Reaches, Image, Loaded, BodyOf, Step, Run, Code, CodeLen;
    var s2 := Psh(s0, s, L, d, i, Wib);
    t := GetWin(s0, s2, L, d, i + 1);
  }

  /** The opening of INTERPRET: WIB-WORD WIB WIN X@ FIND. */
  lemma LookAtWord(s0: State, s: State, L: Lib, tok: seq<nat>, rest: seq<nat>) returns (t: State)
    requires Reaches(s0, s) && At(s, L, INTERPRET, 0) && Reading(s, L, 9, 6)
    requires Token(tok) && NextWord(s.env.keys, tok, rest)
    requires !Search(s.env.mem, s.env.latest, tok).Broken?
    ensures Reaches(s0, t) && At(t, L, INTERPRET, 5)
    ensures t == s.(ip := s.ip + 40, tos := XtOr0(Search(s.env.mem, s.env.latest, tok)),
                    ds := Item(s.tos, s.ds), dn := s.dn + 1, env := ReadEnv(s.env, tok, rest))
  {
    hide Reaches, Image, Loaded, BodyOf, Step, Run, Below, WibReady, ReadEnv, Search, BufferOnly, HasChars, Plain;
    var s1 := ReadsWord(s0, s, L, INTERPRET, 0, tok, rest);
    var e := s1.env;
    ReadEffect(s.env, L, tok, rest);
    SearchSame(s.env.mem, e.mem, s.env.wib, s.env.latest, tok);
    var s2 := WordOnStack(s0, s1, L, INTERPRET, 1);
    t := Finding(s0, s2, L, INTERPRET, 4, tok);
  }

  /** A word was found: DUP and the test for 0 lead on. */
  lemma WordFound(s0: State, s: State, L: Lib) returns (t: State)
    requires Reaches(s0, s) && At(s, L, INTERPRET, 5) && s.tos != 0 && s.dn + 2 <= STACK_DEPTH
    requires HasWord(s.env.mem, s.tos)
    ensures Reaches(s0, t)
    ensures t == s.(ip := s.ip + 8 * (if s.env.mem[s.tos].h.immediate then 7 else 9))
  {
    hide Reaches, Image, Loaded, BodyOf, Step, Run;
    var s1 := Stk(s0, s, L, INTERPRET, 5, Dup);
    var s2 := ZJump(s0, s1, L, INTERPRET, 6, 21);
    var s3 := Stk(s0, s2, L, INTERPRET, 8, Dup);
    var s4 := ImmediateTest(s0, s3, L, INTERPRET, 9);
    t := ZJump(s0, s4, L, INTERPRET, 10, 14);
  }

  /** IMMEDIATE? at cell i. */
  lemma ImmediateTest(s0: State, s: State, L: Lib, d: Def, i: nat) returns (t: State)
    requires Reaches(s0, s) && At(s, L, d, i) && HasWord(s.env.mem, s.tos)
    requires i < CodeLen(d) && Code(d, i) == W(P(IsImmediate))
    ensures Reaches(s0, t) && t == s.(ip := s.ip + 8, tos := Flag(s.env.mem[s.tos].h.immediate))
  {
    hide Reaches, Code, CodeLen, Image, Loaded, BodyOf, Search, Terminated, ReadChars, NumberOf, IsNumberText;
    t := Int(s0, s, L, d, i, IsImmediate);
  }

  /** COMPILE? and its branch at cells i to i + 2. */
  lemma CompileTest(s0: State, s: State, L: Lib, i: nat, k: nat) returns (t: State)
    requires Reaches(s0, s) && At(s, L, INTERPRET, i) && s.dn < STACK_DEPTH
    requires i + 2 < CodeLen(INTERPRET) && Code(INTERPRET, i) == W(P(CompSta))
    requires Code(INTERPRET, i + 1) == W(P(ZBranch)) && Code(INTERPRET, i + 2) == To(k)
    ensures Reaches(s0, t) && t == s.(ip := s.ip + 8 * (if s.env.comp then 3 else k - i))
  {
    hide Reaches, Image, Loaded, BodyOf, Step, Run, Code, CodeLen;
    var s1 := Psh(s0, s, L, INTERPRET, i, CompSta);
    t := ZJump(s0, s1, L, INTERPRET, i + 1, k);
  }

  /** The word in the input is executed: either it is immediate, or the machine does not compile. The
      machine is then at the word, about to return behind the EXECUTE. */
  lemma ExecutesWord(s: State, L: Lib, tok: seq<nat>, rest: seq<nat>, xt: Addr) returns (t: State)
    requires Calling(s, L, INTERPRET) && Reading(s, L, 9, 7)
    requires Token(tok) && NextWord(s.env.keys, tok, rest)
    requires Search(s.env.mem, s.env.latest, tok) == Found(xt) && xt != 0 && HasWord(s.env.mem, xt)
    requires s.env.mem[xt].h.immediate || !s.env.comp
    ensures Reaches(s, t)
    ensures t == s.(pc := Exec(xt), ip := t.ip, rs := Item(s.ip, s.rs), rn := s.rn + 1,
                    env := ReadEnv(s.env, tok, rest))
    ensures t.ip == BodyOf(s.env.mem, L, INTERPRET) + 8 * (if s.env.mem[xt].h.immediate then 13 else 20)
  {
    hide Reaches, Image, Loaded, BodyOf, Step, Run, Below, WibReady, ReadEnv, Search, HasChars, Plain;
    var s1 := Enter(s, L, INTERPRET);
    var s2 := LookAtWord(s, s1, L, tok, rest);
    ReadEffect(s.env, L, tok, rest);
    WordStays(s.env, L, tok, rest, xt);
    var s3 := WordFound(s, s2, L);
    if s.env.mem[xt].h.immediate {
      t := Perform(s, s3, L, INTERPRET, 12);
    } else {
      var s4 := CompileTest(s, s3, L, 14, 19);
      t := Perform(s, s4, L, INTERPRET, 19);
    }
  }

  /** Reading a token leaves every word header as it was. */
  lemma WordStays(e: Env, L: Lib, tok: seq<nat>, rest: seq<nat>, xt: Addr)
    requires Image(e.mem, L) && WibReady(e) && Below(e.mem, e.dp) && |tok| <= WIB_CHARS && HasWord(e.mem, xt)
    ensures var f := ReadEnv(e, tok, rest);
      HasWord(f.mem, xt) && f.mem[xt] == e.mem[xt] && BodyOf'(f.mem, L) == BodyOf'(e.mem, L)
  {
    hide Image, Below, WibReady, Loaded, ReadEnv;
    ReadEffect(e, L, tok, rest);
    LoadedIn(e.mem, ReadEnv(e, tok, rest).mem, L, INTERPRET, e.wib);
  }

  ghost function BodyOf'(m: Mem, L: Lib): Addr {
    if Loaded(m, L, D(INTERPRET)) then BodyOf(m, L, INTERPRET) else 0
  }

  /** X, at cell i of d. */
  lemma AppendsCell(s0: State, s: State, L: Lib, d: Def, i: nat, y: nat, r: Stack) returns (t: State)
    requires Reaches(s0, s) && At(s, L, d, i) && s.ds == Item(y, r) && Room(s.env, L, 8)
    requires i < CodeLen(d) && Code(d, i) == W(D(XCOMMA))
    requires 0 < s.dn && s.dn + 3 <= STACK_DEPTH && s.rn + 3 <= STACK_DEPTH
    ensures Reaches(s0, t) && At(t, L, d, i + 1)
    ensures t == s.(ip := s.ip + 8, tos := y, ds := r, dn := s.dn - 1, env := Comma(s.env, s.tos))
    ensures BodyOf(t.env.mem, L, d) == BodyOf(s.env.mem, L, d)
  {
    hide Reaches, Image, Loaded, BodyOf, Step, Run, Below, Code, CodeLen;
    var u := Fetch(s0, s, L, d, i, D(XCOMMA));
    XComma(u, L, y, r);
    t := WithStack(u, y, r, s.dn - 1).(env := Comma(s.env, s.tos));
    ReachesTrans(s0, u, t);
    LoadedStore(s.env.mem, L, d, s.env.dp, Cell(s.tos));
    CommaKeeps(s.env, L, s.tos);
  }

  /** The word in the input is compiled. */
  lemma CompilesWord(s: State, L: Lib, tok: seq<nat>, rest: seq<nat>, xt: Addr)
    requires Calling(s, L, INTERPRET) && Reading(s, L, 9, 7)
    requires Token(tok) && NextWord(s.env.keys, tok, rest)
    requires Search(s.env.mem, s.env.latest, tok) == Found(xt) && xt != 0 && HasWord(s.env.mem, xt)
    requires !s.env.mem[xt].h.immediate && s.env.comp && Room(s.env, L, 8)
    ensures Reaches(s, s.(pc := Next, env := Comma(ReadEnv(s.env, tok, rest), xt)))
  {
    hide Reaches, Image, Loaded, BodyOf, Step, Run, Below, WibReady, ReadEnv, Search, HasChars, Plain, BufferOnly;
    var s1 := Enter(s, L, INTERPRET);
    var s2 := LookAtWord(s, s1, L, tok, rest);
    ReadEffect(s.env, L, tok, rest);
    WordStays(s.env, L, tok, rest, xt);
    var s3 := WordFound(s, s2, L);
    var s4 := CompileTest(s, s3, L, 14, 19);
    var s5 := AppendsCell(s, s4, L, INTERPRET, 17, s.tos, s.ds);
    var s6 := Return(s, s5, L, INTERPRET, 18);
    assert s6 == s.(pc := Next, env := Comma(s2.env, xt));
  }

  lemma NumberTestExec(s: State, text: seq<nat>)
    requires Has(s, 1) && s.tos == |text| && HasChars(s.env.mem, s.ds.top, text)
    ensures ExecInterp(IsNumber, s) == s.(ds := s.ds.rest, dn := s.dn - 1, tos := Flag(IsNumberText(text)))
  {
    hide Search, Terminated, NumberOf;
    ReadBack(s.env.mem, s.ds.top, text);
  }

  lemma ToNumberExec(s: State, text: seq<nat>)
    requires Has(s, 1) && s.tos == |text| <= 17 && HasChars(s.env.mem, s.ds.top, text)
    ensures ExecInterp(ToNumber, s) == s.(ds := s.ds.rest, dn := s.dn - 1, tos := NumberOf(text))
  {
    hide Search, Terminated, IsNumberText;
    ReadBack(s.env.mem, s.ds.top, text);
  }

  /** NUMBER? and its branch, cells 26 to 28 of INTERPRET, behind a second copy of the word. */
  lemma NumberTest(s0: State, s: State, L: Lib, text: seq<nat>) returns (t: State)
    requires Reaches(s0, s) && At(s, L, INTERPRET, 26) && Has(s, 2)
    requires s.tos == |text| && HasChars(s.env.mem, s.ds.top, text)
    ensures Reaches(s0, t)
    ensures t == s.(ip := s.ip + 8 * (if IsNumberText(text) then 3 else 15),
                    tos := s.ds.rest.top, ds := s.ds.rest.rest, dn := s.dn - 2)
  {
    hide Reaches, Image, Loaded, BodyOf, Step, Run, ExecInterp, IsNumberText, HasChars;
    var s1 := Int(s0, s, L, INTERPRET, 26, IsNumber);
    NumberTestExec(s.(ip := 0), text);
    t := ZJump(s0, s1, L, INTERPRET, 27, 41);
  }

  /** No word was found: DROP, the word on the stack again, and NUMBER? */
  lemma TriesNumber(s0: State, s: State, L: Lib, text: seq<nat>) returns (t: State)
    requires Reaches(s0, s) && At(s, L, INTERPRET, 5) && s.tos == 0 && Has(s, 1)
    requires s.dn + 4 <= STACK_DEPTH && s.rn < STACK_DEPTH
    requires s.env.win == |text| && HasChars(s.env.mem, s.env.wib, text)
    ensures Reaches(s0, t)
    ensures t == s.(ip := s.ip + 8 * (if IsNumberText(text) then 24 else 36),
                    tos := |text|, ds := Item(s.env.wib, s.ds), dn := s.dn + 1)
  {
    hide Reaches, Image, Loaded, BodyOf, Step, Run, IsNumberText, HasChars;
    var s3 := NoSuchWord(s0, s, L);
    var s4 := WordOnStack(s0, s3, L, INTERPRET, 22);
    var s5 := WordTwice(s0, s4, L, s.env.wib, s4.ds.rest);
    t := NumberTest(s0, s5, L, text);
  }

  lemma NoSuchWordCells()
    ensures CodeLen(INTERPRET) == 54 && Code(INTERPRET, 5) == W(P(Dup)) && Code(INTERPRET, 6) == W(P(ZBranch))
    ensures Code(INTERPRET, 7) == To(21) && Code(INTERPRET, 8) == W(P(Dup))
    ensures Code(INTERPRET, 9) == W(P(IsImmediate)) && Code(INTERPRET, 21) == W(P(Drop))
  {
  }

  /** DUP, the branch on a zero xt, and the DROP it leads to. */
  lemma NoSuchWord(s0: State, s: State, L: Lib) returns (t: State)
    requires Reaches(s0, s) && At(s, L, INTERPRET, 5) && s.tos == 0 && Has(s, 1) && s.dn < STACK_DEPTH
    ensures Reaches(s0, t) && t == s.(ip := s.ip + 136, tos := s.ds.top, ds := s.ds.rest, dn := s.dn - 1)
  {
    hide Reaches, Image, Loaded, BodyOf, Step, Run, Code, CodeLen;
    NoSuchWordCells();
    var s1 := Stk(s0, s, L, INTERPRET, 5, Dup);
    var s2 := NoXt(s0, s1, L);
    t := Stk(s0, s2, L, INTERPRET, 21, Drop);
  }

  lemma NoXt(s0: State, s: State, L: Lib) returns (t: State)
    requires Reaches(s0, s) && At(s, L, INTERPRET, 6) && s.tos == 0 && s.ds.Item? && s.dn > 0
    ensures Reaches(s0, t) && t == s.(ip := s.ip + 120, tos := s.ds.top, ds := s.ds.rest, dn := s.dn - 1)
  {
    hide Reaches, Image, Loaded, BodyOf, Step, Run;
    t := ZJump(s0, s, L, INTERPRET, 6, 21);
  }

  lemma WordTwice(s0: State, s: State, L: Lib, a: nat, r: Stack) returns (t: State)
    requires Reaches(s0, s) && At(s, L, INTERPRET, 25) && s.ds == Item(a, r) && 1 <= s.dn
    requires s.dn + 2 <= STACK_DEPTH && s.rn < STACK_DEPTH
    ensures Reaches(s0, t) && t == s.(ip := s.ip + 8, ds := Item(a, Item(s.tos, s.ds)), dn := s.dn + 2)
  {
    hide Reaches, Image, Loaded, BodyOf, Step, Run;
    var u := Fetch(s0, s, L, INTERPRET, 25, D(TWODUP));
    TwoDup(u, L, a, r);
    t := WithStack(u, s.tos, Item(a, Item(s.tos, s.ds)), s.dn + 2);
    ReachesTrans(s0, u, t);
  }

  /** INTERPRET up to cell 30, on a number: its value is on the stack. */
  lemma ReachesNumber(s: State, L: Lib, tok: seq<nat>, rest: seq<nat>) returns (t: State)
    requires Calling(s, L, INTERPRET) && Reading(s, L, 9, 7)
    requires Token(tok) && NextWord(s.env.keys, tok, rest)
    requires Search(s.env.mem, s.env.latest, tok) == Absent && IsNumberText(tok) && |tok| <= 17
    ensures Reaches(s, t) && At(t, L, INTERPRET, 30)
    ensures t == s.(pc := Next, ip := t.ip, rs := Item(s.ip, s.rs), rn := s.rn + 1, env := ReadEnv(s.env, tok, rest),
                    tos := NumberOf(tok), ds := Item(s.tos, s.ds), dn := s.dn + 1)
  {
    hide Reaches, Image, Loaded, BodyOf, Step, Run, Below, WibReady, ReadEnv, Search, HasChars, Plain, BufferOnly,
      IsNumberText, NumberOf, ExecInterp;
    var s1 := Enter(s, L, INTERPRET);
    var s2 := LookAtWord(s, s1, L, tok, rest);
    ReadEffect(s.env, L, tok, rest);
    var s3 := TriesNumber(s, s2, L, tok);
    t := Int(s, s3, L, INTERPRET, 29, ToNumber);
    ToNumberExec(s3.(ip := 0), tok);
  }

  /** A number in the input is pushed. */
  lemma PushesNumber(s: State, L: Lib, tok: seq<nat>, rest: seq<nat>)
    requires Calling(s, L, INTERPRET) && Reading(s, L, 9, 7) && !s.env.comp
    requires Token(tok) && NextWord(s.env.keys, tok, rest)
    requires Search(s.env.mem, s.env.latest, tok) == Absent && IsNumberText(tok) && |tok| <= 17
    ensures Reaches(s, s.(pc := Next, env := ReadEnv(s.env, tok, rest),
                          tos := NumberOf(tok), ds := Item(s.tos, s.ds), dn := s.dn + 1))
  {
    hide Reaches, Image, Loaded, BodyOf, Step, Run, Below, WibReady, ReadEnv, Search, HasChars, Plain, BufferOnly,
      IsNumberText, NumberOf, Token;
    TokenLength(tok);
    ReadEffect(s.env, L, tok, rest);
    var s1 := ReachesNumber(s, L, tok, rest);
    var s2 := LeavesNumber(s, s1, L);
    assert s2 == s.(pc := Next, env := ReadEnv(s.env, tok, rest),
                    tos := NumberOf(tok), ds := Item(s.tos, s.ds), dn := s.dn + 1);
  }

  /** COMPILE? and EXIT, when not compiling. */
  lemma LeavesNumber(s0: State, s: State, L: Lib) returns (t: State)
    requires Reaches(s0, s) && At(s, L, INTERPRET, 30) && !s.env.comp && s.dn < STACK_DEPTH && s.rs.Item? && s.rn > 0
    ensures Reaches(s0, t) && t == s.(ip := s.rs.top, rs := s.rs.rest, rn := s.rn - 1)
  {
    hide Reaches, Image, Loaded, BodyOf, Step, Run;
    var s1 := CompileTest(s0, s, L, 30, 40);
    t := Return(s0, s1, L, INTERPRET, 40);
  }

  lemma TokenLength(tok: seq<nat>)
    requires Token(tok)
    ensures |tok| <= WIB_CHARS
  {
  }

  /** A number in the input is compiled as a literal. */
  lemma CompilesNumber(s: State, L: Lib, x: Xts, tok: seq<nat>, rest: seq<nat>)
    requires Calling(s, L, INTERPRET) && Reading(s, L, 9, 7) && s.env.comp && Room(s.env, L, 16)
    requires Token(tok) && NextWord(s.env.keys, tok, rest)
    requires Search(s.env.mem, s.env.latest, tok) == Absent && IsNumberText(tok) && |tok| <= 17
    requires Search(s.env.mem, s.env.latest, StrText(SLit)) == Found(x.lit)
    ensures Reaches(s, s.(pc := Next, env := Comma(Comma(ReadEnv(s.env, tok, rest), x.lit), NumberOf(tok))))
  {
    hide Reaches, Image, Loaded, BodyOf, Step, Run, Below, WibReady, ReadEnv, Search, HasChars, Plain, BufferOnly,
      IsNumberText, NumberOf, Token, StrText;
    TokenLength(tok);
    ReadEffect(s.env, L, tok, rest);
    SearchSame(s.env.mem, ReadEnv(s.env, tok, rest).mem, s.env.wib, s.env.latest, StrText(SLit));
    var s1 := ReachesNumber(s, L, tok, rest);
    var s2 := CompilesLiteral(s, s1, L, x, s.tos, s.ds);
    assert s2 == s.(pc := Next, env := Comma(Comma(ReadEnv(s.env, tok, rest), x.lit), NumberOf(tok)));
  }

  /** Cells 30 to 40 of INTERPRET, when compiling: LIT and the number on the stack go into the
      dictionary. */
  lemma CompilesLiteral(s0: State, s: State, L: Lib, x: Xts, y: nat, r: Stack) returns (t: State)
    requires Reaches(s0, s) && At(s, L, INTERPRET, 30) && s.env.comp && s.ds == Item(y, r) && Room(s.env, L, 16)
    requires 0 < s.dn && s.dn + 4 <= STACK_DEPTH && s.rn + 3 <= STACK_DEPTH && s.rs.Item? && s.rn > 0
    requires Search(s.env.mem, s.env.latest, StrText(SLit)) == Found(x.lit)
    ensures Reaches(s0, t)
    ensures t == s.(ip := s.rs.top, rs := s.rs.rest, rn := s.rn - 1, tos := y, ds := r, dn := s.dn - 1,
                    env := Comma(Comma(s.env, x.lit), s.tos))
  {
    hide Reaches, Image, Loaded, BodyOf, Step, Run, Below, Search;
    NoNul();
    CompilesLit(s.env, L, x);
    LitOpens();
    var s1 := CompileTest(s0, s, L, 30, 40);
    var s2 := LookUp(s0, s1, L, INTERPRET, 33, SLit, x.lit);
    var s3 := AppendsCell(s0, s2, L, INTERPRET, 38, s.tos, s.ds);
    var s4 := AppendsCell(s0, s3, L, INTERPRET, 39, y, r);
    t := Return(s0, s4, L, INTERPRET, 40);
  }

  lemma CompilesLit(e: Env, L: Lib, x: Xts)
    requires Room(e, L, 16)
    ensures Room(e, L, 8) && Room(Comma(e, x.lit), L, 8)
  {
    CommaRoom(e, L, x.lit, 8);
  }

  lemma LitOpens()
    ensures Opens(INTERPRET, 33, SLit)
  {
    hide Code, CodeLen;
    LitCells();
    assert |StrText(SLit)| == 3;
  }

  lemma LitCells()
    ensures CodeLen(INTERPRET) == 54 && Code(INTERPRET, 33) == W(P(Lit)) && Code(INTERPRET, 34) == S(SLit)
    ensures Code(INTERPRET, 35) == W(P(Lit)) && Code(INTERPRET, 36) == N(3)
    ensures Code(INTERPRET, 37) == W(P(Find)) && Code(INTERPRET, 38) == W(D(XCOMMA))
  {
  }

  lemma NotFoundCells()
    ensures CodeLen(INTERPRET) == 54 && Code(INTERPRET, 47) == W(P(Lit)) && Code(INTERPRET, 48) == S(SNotFound)
    ensures Code(INTERPRET, 49) == W(P(Lit)) && Code(INTERPRET, 50) == N(11) && Code(INTERPRET, 51) == W(D(WTYPE))
  {
  }

  lemma PspRstExec(s0: State, s: State, L: Lib, d: Def, i: nat) returns (t: State)
    requires Reaches(s0, s) && At(s, L, d, i) && i < CodeLen(d) && Code(d, i) == W(P(PspRst))
    ensures Reaches(s0, t) && t == s.(ip := s.ip + 8, ds := Empty, dn := 0, tos := TOS_INIT, pser := false)
  {
    hide Reaches, Code, CodeLen, Image, Loaded, BodyOf;
    var h;
    t, h := Prim(s0, s, L, d, i, PspRst);
  }

  /** ] or [ at cell i of d. */
  lemma SetsCompile(s0: State, s: State, L: Lib, d: Def, i: nat, on: bool) returns (t: State)
    requires Reaches(s0, s) && At(s, L, d, i) && i < CodeLen(d) && Code(d, i) == W(P(if on then CompOn else CompOff))
    ensures Reaches(s0, t) && t == s.(ip := s.ip + 8, env := s.env.(comp := on))
  {
    hide Reaches, Code, CodeLen, Image, Loaded, BodyOf, Search, Terminated, ReadChars, NumberOf, IsNumberText;
    t := Int(s0, s, L, d, i, if on then CompOn else CompOff);
  }

  /** What INTERPRET-RST leaves: an empty stack, no error, nothing read, not compiling. */
  function Reset(s: State): State {
    s.(pc := Next, ds := Empty, dn := 0, tos := TOS_INIT, pser := false, env := s.env.(win := 0, comp := false))
  }

  lemma InterpretRst(s: State, L: Lib)
    requires Calling(s, L, INTERPRETRST) && s.rn + 2 <= STACK_DEPTH
    ensures Reaches(s, Reset(s))
  {
    hide Reaches, Image, Loaded, BodyOf, Step, Run;
    var s1 := Enter(s, L, INTERPRETRST);
    var s2 := PspRstExec(s, s1, L, INTERPRETRST, 0);
    var u := Fetch(s, s2, L, INTERPRETRST, 1, D(WIBRST));
    WibRst(u, L);
    var s3 := u.(pc := Next, env := s.env.(win := 0));
    ReachesTrans(s, u, s3);
    var s4 := SetsCompile(s, s3, L, INTERPRETRST, 2, false);
    var s5 := Return(s, s4, L, INTERPRETRST, 3);
    assert s5 == Reset(s);
  }

  lemma ErrorBit(s: State)
    ensures Result(AndOp, Sta(s), 2) == if s.pser then 2 else 0
  {
    BitOne(Sta(s));
  }

  lemma MessageLoaded(m: Mem, L: Lib, t: Str)
    requires Image(m, L) && (t == SPser || t == SNotFound)
    ensures HasChars(m, L.at(T(t)), StrText(t)) && L.at(T(t)) + 2 * |StrText(t)| <= RAM
    ensures |StrText(t)| == (if t == SPser then 21 else 11) && Characters(StrText(t))
  {
    Known(m, L, T(t));
    CodesSmall(if t == SPser then "\r\nPARAM STACK ERROR\r\n" else "NOT FOUND\r\n");
  }

  lemma CodesSmall(s: string)
    requires forall i :: 0 <= i < |s| ==> s[i] < '\U{10000}'
    ensures Characters(Codes(s))
  {
  }

  /** LIT text LIT length WTYPE at cells i to i + 4. */
  lemma Says(s0: State, s: State, L: Lib, d: Def, i: nat, t: Str) returns (u: State)
    requires Reaches(s0, s) && At(s, L, d, i) && CanPrint(s, L, 4, 2) && (t == SPser || t == SNotFound)
    requires i + 4 < CodeLen(d) && Code(d, i) == W(P(Lit)) && Code(d, i + 1) == S(t) && Code(d, i + 2) == W(P(Lit))
    requires Code(d, i + 3) == N(if t == SPser then 21 else 11) && Code(d, i + 4) == W(D(WTYPE))
    ensures Reaches(s0, u) && u == s.(ip := s.ip + 40, env := Emitted(s.env, StrText(t)))
  {
    hide Reaches, Image, Loaded, BodyOf, Step, Run, Code, CodeLen, StrText, HasChars;
    MessageLoaded(s.env.mem, L, t);
    var s1 := Literal(s0, s, L, d, i);
    var s2 := Literal(s0, s1, L, d, i + 2);
    var v := Fetch(s0, s2, L, d, i + 4, D(WTYPE));
    WType(v, L, L.at(T(t)), s.tos, s.ds, StrText(t));
    u := WithStack(v, s.tos, s.ds, s.dn).(env := Emitted(s.env, StrText(t)));
    ReachesTrans(s0, v, u);
    assert u == s.(ip := s.ip + 40, env := Emitted(s.env, StrText(t)));
  }

  /** The test of INTERPRET-FIX: STA@ FORTH-STA-PSER AND and its branch. */
  lemma FixTest(s0: State, s: State, L: Lib) returns (t: State)
    requires Reaches(s0, s) && At(s, L, INTERPRETFIX, 0) && s.dn + 2 <= STACK_DEPTH
    ensures Reaches(s0, t) && t == s.(ip := s.ip + 8 * (if s.pser then 5 else 11))
  {
    hide Reaches, Image, Loaded, BodyOf, Step, Run;
    var s1 := ErrorMask(s0, s, L);
    t := ZJump(s0, s1, L, INTERPRETFIX, 3, 11);
  }

  lemma ErrorMaskCells()
    ensures CodeLen(INTERPRETFIX) == 12 && Code(INTERPRETFIX, 0) == W(P(StaLoad))
    ensures Code(INTERPRETFIX, 1) == W(K(KPser)) && Code(INTERPRETFIX, 2) == W(P(AndOp))
    ensures Code(INTERPRETFIX, 3) == W(P(ZBranch)) && Code(INTERPRETFIX, 4) == To(11)
  {
  }

  lemma ErrorMask(s0: State, s: State, L: Lib) returns (t: State)
    requires Reaches(s0, s) && At(s, L, INTERPRETFIX, 0) && s.dn + 2 <= STACK_DEPTH
    ensures Reaches(s0, t)
    ensures t == s.(ip := s.ip + 24, tos := if s.pser then 2 else 0, ds := Item(s.tos, s.ds), dn := s.dn + 1)
  {
    hide Reaches, Image, Loaded, BodyOf, Step, Run, Result, Sta, Code, CodeLen;
    ErrorMaskCells();
    ErrorBit(s);
    var s2 := Psh(s0, s, L, INTERPRETFIX, 0, StaLoad);
    var s3 := Constant(s0, s2, L, INTERPRETFIX, 1, KPser);
    t := Ari(s0, s3, L, INTERPRETFIX, 2, AndOp);
  }

  /** What INTERPRET-FIX does to a machine whose error flag is set. */
  function Recovered(s: State): State {
    Reset(s).(env := Emitted(Reset(s).env, StrText(SPser)))
  }

  /** Stack-error recovery. With the error flag set and two free cells, INTERPRET-FIX empties the
      stack, clears the flag, stops compiling, forgets the word read and says so; with the flag clear
      it does nothing. */
  lemma InterpretFix(s: State, L: Lib)
    requires Calling(s, L, INTERPRETFIX) && DefaultIo(s.env, L)
    requires s.dn + 2 <= STACK_DEPTH && s.rn + 3 <= STACK_DEPTH
    ensures Reaches(s, if s.pser then Recovered(s) else s.(pc := Next))
  {
    hide Reaches, Image, Loaded, BodyOf, Step, Run, StrText;
    var s1 := Enter(s, L, INTERPRETFIX);
    var s2 := FixTest(s, s1, L);
    if s.pser {
      var u := Fetch(s, s2, L, INTERPRETFIX, 5, D(INTERPRETRST));
      InterpretRst(u, L);
      var s3 := Reset(u);
      ReachesTrans(s, u, s3);
      var s4 := Says(s, s3, L, INTERPRETFIX, 6, SPser);
      var s5 := Return(s, s4, L, INTERPRETFIX, 11);
      assert s5 == Recovered(s);
    } else {
      var s3 := Return(s, s2, L, INTERPRETFIX, 11);
      assert s3 == s.(pc := Next);
    }
  }

  /** What INTERPRET does to a machine given a word that is neither known nor a number. */
  function NotFound(s: State, tok: seq<nat>, rest: seq<nat>): State {
    var e := ReadEnv(s.env, tok, rest);
    Reset(s.(env := Emitted(e, tok + [32] + StrText(SNotFound))))
  }

  lemma EchoesWordCells()
    ensures CodeLen(INTERPRET) == 54 && Code(INTERPRET, 41) == W(P(Drop)) && Code(INTERPRET, 42) == W(P(Wib))
    ensures Code(INTERPRET, 43) == W(P(Win)) && Code(INTERPRET, 44) == W(P(XLoad))
    ensures Code(INTERPRET, 45) == W(D(WTYPE)) && Code(INTERPRET, 46) == W(D(SPACE))
  {
  }

  /** Cells 41 to 46 of INTERPRET: print the word and a space. */
  lemma EchoesWord(s0: State, s: State, L: Lib, text: seq<nat>) returns (t: State)
    requires Reaches(s0, s) && At(s, L, INTERPRET, 41) && CanPrint(s, L, 3, 2) && Has(s, 1)
    requires s.env.win == |text| && HasChars(s.env.mem, s.env.wib, text) && Characters(text)
    requires s.env.wib + 2 * |text| < TWO64
    ensures Reaches(s0, t)
    ensures t == s.(ip := s.ip + 48, tos := s.ds.top, ds := s.ds.rest, dn := s.dn - 1,
      env := Emitted(s.env, text + [32]))
  {
    hide Reaches, Image, Loaded, BodyOf, Step, Run, HasChars, Code, CodeLen;
    EchoesWordCells();
    var s1 := Stk(s0, s, L, INTERPRET, 41, Drop);
    var s2 := WordOnStack(s0, s1, L, INTERPRET, 42);
    var u1 := Fetch(s0, s2, L, INTERPRET, 45, D(WTYPE));
    WType(u1, L, s.env.wib, s1.tos, s1.ds, text);
    var s3 := WithStack(u1, s1.tos, s1.ds, s1.dn).(env := Emitted(s.env, text));
    ReachesTrans(s0, u1, s3);
    t := Blank(s0, s3, L);
    EmittedTwice(s.env, text, [32]);
  }

  lemma Blank(s0: State, s: State, L: Lib) returns (t: State)
    requires Reaches(s0, s) && At(s, L, INTERPRET, 46) && CanPrint(s, L, 2, 2)
    ensures Reaches(s0, t) && t == s.(ip := s.ip + 8, env := Emitted(s.env, [32]))
  {
    hide Reaches, Image, Loaded, BodyOf, Step, Run;
    var u2 := Fetch(s0, s, L, INTERPRET, 46, D(SPACE));
    Space(u2, L);
    t := u2.(pc := Next, env := Emitted(s.env, [32]));
    ReachesTrans(s0, u2, t);
  }

  /** A word that is neither in the dictionary nor a number is reported, and the interpreter reset. */
  lemma ReportsUnknown(s: State, L: Lib, tok: seq<nat>, rest: seq<nat>)
    requires Calling(s, L, INTERPRET) && Reading(s, L, 9, 7)
    requires Token(tok) && NextWord(s.env.keys, tok, rest)
    requires Search(s.env.mem, s.env.latest, tok) == Absent && !IsNumberText(tok)
    ensures Reaches(s, NotFound(s, tok, rest))
  {
    hide Reaches, Image, Loaded, BodyOf, Step, Run, Below, WibReady, ReadEnv, Search, HasChars, BufferOnly,
      IsNumberText, StrText;
    ReadEffect(s.env, L, tok, rest);
    WibBound(s.env);
    var s1 := Enter(s, L, INTERPRET);
    var s2 := LookAtWord(s, s1, L, tok, rest);
    var s3 := TriesNumber(s, s2, L, tok);
    var s4 := EchoesWord(s, s3, L, tok);
    var s5 := ReportsAndResets(s, s4, L);
    EmittedTwice(s2.env, tok + [32], StrText(SNotFound));
    assert s5 == NotFound(s, tok, rest);
  }

  lemma WibBound(e: Env)
    requires WibReady(e)
    ensures e.wib + 2 * WIB_CHARS < TWO64
  {
  }

  /** Cells 47 to 53 of INTERPRET. */
  lemma ReportsAndResets(s0: State, s: State, L: Lib) returns (t: State)
    requires Reaches(s0, s) && At(s, L, INTERPRET, 47) && CanPrint(s, L, 4, 2) && s.rs.Item? && s.rn > 0
    ensures Reaches(s0, t)
    ensures t == Reset(s.(ip := s.rs.top, rs := s.rs.rest, rn := s.rn - 1, env := Emitted(s.env, StrText(SNotFound))))
  {
    hide Reaches, Image, Loaded, BodyOf, Step, Run, StrText, Code, CodeLen;
    NotFoundCells();
    var s1 := Says(s0, s, L, INTERPRET, 47, SNotFound);
    t := ResetsAndLeaves(s0, s1, L);
  }

  lemma ResetsAndLeaves(s0: State, s: State, L: Lib) returns (t: State)
    requires Reaches(s0, s) && At(s, L, INTERPRET, 52) && s.rn + 2 <= STACK_DEPTH && s.rs.Item? && s.rn > 0
    ensures Reaches(s0, t) && t == Reset(s.(ip := s.rs.top, rs := s.rs.rest, rn := s.rn - 1))
  {
    hide Reaches, Image, Loaded, BodyOf, Step, Run;
    var u := Fetch(s0, s, L, INTERPRET, 52, D(INTERPRETRST));
    InterpretRst(u, L);
    var s2 := Reset(u);
    ReachesTrans(s0, u, s2);
    t := Return(s0, s2, L, INTERPRET, 53);
  }
}
