/** The names under which the words of the library are found, and what typing the constants among them does. */
module Spellings {
  import opened Words
  import opened Memory
  import opened Opcodes
  import opened Machine
  import opened Library
  import opened Script
  import opened Laying
  import opened Tokeniser
  import opened Sessions
  import opened Vocabulary
  import opened Prompt
  import opened Boot
  import Definitions
  import Structured

  // The names, and the places of their declarations.

  lemma Names0()
    ensures StackName(0) == "NOOP" && StackDecl(0) == Own(P(Noop))
    ensures StackName(1) == "HALT" && StackDecl(1) == Own(P(HaltOp))
    ensures StackName(2) == "BRANCH" && StackDecl(2) == Own(P(Branch))
    ensures StackName(3) == "ZBRANCH" && StackDecl(3) == Own(P(ZBranch))
    ensures StackName(4) == "EXIT" && StackDecl(4) == Own(P(Exit))
  {
  }

  lemma Names5()
    ensures StackName(5) == "CALL" && StackDecl(5) == Own(P(Call))
    ensures StackName(6) == "LIT" && StackDecl(6) == Own(P(Op.Lit))
    ensures StackName(7) == "DOCONST" && StackDecl(7) == Own(P(DoConst))
    ensures StackName(8) == "TRUE" && StackDecl(8) == Own(K(KTrue))
    ensures StackName(9) == "FALSE" && StackDecl(9) == Own(K(KFalse))
  {
  }

  lemma Names10()
    ensures StackName(10) == "=CHK" && StackDecl(10) == Own(P(EqChk))
    ensures StackName(11) == "EXECUTE" && StackDecl(11) == Own(P(Execute))
    ensures StackName(12) == "PZCHK" && StackDecl(12) == Own(P(PzChk))
    ensures StackName(15) == "$0" && StackDecl(15) == Own(K(K0))
    ensures StackName(16) == "$1" && StackDecl(16) == Own(K(K1))
  {
  }

  lemma Names17()
    ensures StackName(17) == "$2" && StackDecl(17) == Own(K(K2))
    ensures StackName(18) == "$3" && StackDecl(18) == Own(K(K3))
    ensures StackName(19) == "$4" && StackDecl(19) == Own(K(K4))
    ensures StackName(20) == "$5" && StackDecl(20) == Own(K(K5))
    ensures StackName(21) == "$6" && StackDecl(21) == Own(K(K6))
  {
  }

  lemma Names22()
    ensures StackName(22) == "$7" && StackDecl(22) == Own(K(K7))
    ensures StackName(23) == "$8" && StackDecl(23) == Own(K(K8))
    ensures StackName(24) == "$9" && StackDecl(24) == Own(K(K9))
    ensures StackName(25) == "$A" && StackDecl(25) == Own(K(KA))
    ensures StackName(26) == "$B" && StackDecl(26) == Own(K(KB))
  {
  }

  lemma Names27()
    ensures StackName(27) == "$C" && StackDecl(27) == Own(K(KC))
    ensures StackName(28) == "$D" && StackDecl(28) == Own(K(KD))
    ensures StackName(29) == "$E" && StackDecl(29) == Own(K(KE))
    ensures StackName(30) == "$F" && StackDecl(30) == Own(K(KF))
    ensures StackName(31) == "DROP" && StackDecl(31) == Own(P(Drop))
  {
  }

  lemma Names32()
    ensures StackName(32) == "DUP" && StackDecl(32) == Own(P(Dup))
    ensures StackName(33) == "SWAP" && StackDecl(33) == Own(P(Swap))
    ensures StackName(34) == "NIP" && StackDecl(34) == Own(P(Nip))
    ensures StackName(35) == "OVER" && StackDecl(35) == Own(P(Over))
    ensures StackName(36) == ">R" && StackDecl(36) == Own(P(ToR))
  {
  }

  lemma Names37()
    ensures StackName(37) == "R>" && StackDecl(37) == Own(P(FromR))
    ensures StackName(38) == "PICK" && StackDecl(38) == Own(P(Pick))
    ensures StackName(39) == "DEPTH" && StackDecl(39) == Own(P(Depth))
    ensures StackName(40) == "ROT" && StackDecl(40) == Own(D(ROT))
    ensures StackName(41) == "-ROT" && StackDecl(41) == Own(D(MROT))
  {
  }

  lemma Names42()
    ensures StackName(42) == "2DROP" && StackDecl(42) == Own(D(TWODROP))
    ensures StackName(43) == "2DUP" && StackDecl(43) == Own(D(TWODUP))
    ensures StackName(44) == "2SWAP" && StackDecl(44) == Own(D(TWOSWAP))
    ensures StackName(45) == "2OVER" && StackDecl(45) == Own(D(TWOOVER))
    ensures StackName(46) == "2ROT" && StackDecl(46) == Own(D(TWOROT))
  {
  }

  lemma Names47()
    ensures StackName(47) == "2-ROT" && StackDecl(47) == Own(D(TWOMROT))
  {
  }

  lemma Names48()
    ensures CoreName(48) == "+" && CoreDecl(48) == Own(P(Plus))
    ensures CoreName(49) == "1+" && CoreDecl(49) == Own(P(OnePlus))
    ensures CoreName(50) == "-" && CoreDecl(50) == Own(P(Minus))
    ensures CoreName(51) == "1-" && CoreDecl(51) == Own(P(OneMinus))
    ensures CoreName(52) == "*" && CoreDecl(52) == Own(P(Multi))
  {
  }

  lemma Names53()
    ensures CoreName(53) == "2*" && CoreDecl(53) == Own(P(TwoMulti))
    ensures CoreName(54) == "/" && CoreDecl(54) == Own(P(Divid))
    ensures CoreName(55) == "2/" && CoreDecl(55) == Own(P(TwoDivid))
    ensures CoreName(56) == "LSHIFT" && CoreDecl(56) == Own(P(LShift))
    ensures CoreName(57) == "RSHIFT" && CoreDecl(57) == Own(P(RShift))
  {
  }

  lemma Names58()
    ensures CoreName(58) == "AND" && CoreDecl(58) == Own(P(AndOp))
    ensures CoreName(59) == "OR" && CoreDecl(59) == Own(P(OrOp))
    ensures CoreName(60) == "XOR" && CoreDecl(60) == Own(P(XorOp))
    ensures CoreName(61) == "INVERT" && CoreDecl(61) == Own(P(Invert))
    ensures CoreName(62) == "NEGATE" && CoreDecl(62) == Own(P(Negate))
  {
  }

  lemma Names63()
    ensures CoreName(63) == "MOD" && CoreDecl(63) == Own(P(Mod)) && CoreName(64) == "=" && CoreDecl(64) == Own(P(Eq))
    ensures CoreName(65) == "<>" && CoreDecl(65) == Own(P(Ne)) && CoreName(66) == "0=" && CoreDecl(66) == Own(P(EqZ))
    ensures CoreName(67) == "0<>" && CoreDecl(67) == Own(P(NeZ))
  {
  }

  lemma Names68()
    ensures CoreName(68) == "<" && CoreDecl(68) == Own(P(Lt)) && CoreName(69) == ">" && CoreDecl(69) == Own(P(Gt))
    ensures CoreName(70) == "U<" && CoreDecl(70) == Own(P(ULt)) && CoreName(71) == "U>" && CoreDecl(71) == Own(P(UGt))
    ensures CoreName(72) == "DP" && CoreDecl(72) == Own(P(DpVar))
  {
  }

  lemma Names74()
    ensures CoreName(74) == "STA@" && CoreDecl(74) == Own(P(StaLoad))
    ensures CoreName(75) == "FORTH-STA-PSER" && CoreDecl(75) == Own(K(KPser))
    ensures CoreName(76) == "C@" && CoreDecl(76) == Own(P(CLoad))
    ensures CoreName(77) == "W@" && CoreDecl(77) == Own(P(WLoad))
    ensures CoreName(78) == "L@" && CoreDecl(78) == Own(P(LLoad))
  {
  }

  lemma Names79()
    ensures CoreName(79) == "X@" && CoreDecl(79) == Own(P(XLoad))
    ensures CoreName(80) == "HERE" && CoreDecl(80) == Own(D(HERE))
    ensures CoreName(82) == "C!" && CoreDecl(82) == Own(P(CStore))
    ensures CoreName(83) == "W!" && CoreDecl(83) == Own(P(WStore))
    ensures CoreName(84) == "L!" && CoreDecl(84) == Own(P(LStore))
  {
  }

  lemma Names85()
    ensures CoreName(85) == "X!" && CoreDecl(85) == Own(P(XStore))
    ensures CoreName(86) == "ALLOT" && CoreDecl(86) == Own(D(ALLOT))
    ensures CoreName(90) == "X," && CoreDecl(90) == Own(D(XCOMMA))
    ensures CoreName(91) == "PSP-RST" && CoreDecl(91) == Own(P(PspRst))
  {
  }

  lemma Names106()
    ensures IoName(106) == "EARLY-WEMIT" && IoDecl(106) == Own(P(EarlyWEmit))
    ensures IoName(107) == "EARLY-WKEY" && IoDecl(107) == Own(P(EarlyWKey))
    ensures IoName(108) == "USER-WEMIT" && IoDecl(108) == Own(P(UserWEmit))
    ensures IoName(109) == "USER-WKEY" && IoDecl(109) == Own(P(UserWKey))
    ensures IoName(110) == "WEMIT" && IoDecl(110) == Own(D(WEMIT))
  {
  }

  lemma Names111()
    ensures IoName(111) == "WKEY" && IoDecl(111) == Own(D(WKEY))
    ensures IoName(112) == "WTYPE" && IoDecl(112) == Own(D(WTYPE))
    ensures IoName(113) == "NUM4BIT>WHEX" && IoDecl(113) == Own(D(NIBBLE))
    ensures IoName(114) == "NHEX." && IoDecl(114) == Own(D(NHEX))
    ensures IoName(115) == "XHEX." && IoDecl(115) == Own(D(XHEX))
  {
  }

  lemma Names116()
    ensures IoName(116) == "USER-." && IoDecl(116) == Own(P(UserDot))
    ensures IoName(117) == "." && IoDecl(117) == Own(D(DOT)) && IoName(118) == "SPACE" && IoDecl(118) == Own(D(SPACE))
    ensures IoName(119) == "CR" && IoDecl(119) == Own(D(CR)) && IoName(120) == ".S" && IoDecl(120) == Own(D(DOTS))
  {
  }

  lemma Names121()
    ensures IoName(121) == "DELAYUS" && IoDecl(121) == Own(P(DelayUs))
  {
  }

  lemma Names128()
    ensures InterpretName(128) == "FIND" && InterpretDecl(128) == Own(P(Find))
    ensures InterpretName(129) == "]" && InterpretDecl(129) == Own(P(CompOn))
    ensures InterpretName(130) == "[" && InterpretDecl(130) == Own(P(CompOff))
    ensures InterpretName(131) == "COMPILE?" && InterpretDecl(131) == Own(P(CompSta))
    ensures InterpretName(132) == "IMMEDIATE?" && InterpretDecl(132) == Own(P(IsImmediate))
  {
  }

  lemma Names133()
    ensures InterpretName(133) == "WIB" && InterpretDecl(133) == Own(P(Wib))
    ensures InterpretName(134) == "WIN" && InterpretDecl(134) == Own(P(Win))
    ensures InterpretName(135) == "FORTH-NAME-MAXLEN" && InterpretDecl(135) == Own(K(KMaxlen))
    ensures InterpretName(136) == "WIB-RST" && InterpretDecl(136) == Own(D(WIBRST))
    ensures InterpretName(137) == "WIB-PUSH" && InterpretDecl(137) == Own(D(WIBPUSH))
  {
  }

  lemma Names138()
    ensures InterpretName(138) == "DELIM?" && InterpretDecl(138) == Own(D(DELIM))
    ensures InterpretName(139) == "_WIB-WORD" && InterpretDecl(139) == Own(D(INNERWORD))
    ensures InterpretName(140) == "WIB-WORD" && InterpretDecl(140) == Own(D(WIBWORD))
    ensures InterpretName(141) == "INTERPRET-RST" && InterpretDecl(141) == Own(D(INTERPRETRST))
    ensures InterpretName(142) == "INTERPRET-FIX" && InterpretDecl(142) == Own(D(INTERPRETFIX))
  {
  }

  lemma Names143()
    ensures InterpretName(143) == "NUMBER?" && InterpretDecl(143) == Own(P(IsNumber))
    ensures InterpretName(144) == ">NUMBER" && InterpretDecl(144) == Own(P(ToNumber))
    ensures InterpretName(145) == "INTERPRET" && InterpretDecl(145) == Own(D(INTERPRET))
    ensures InterpretName(146) == "INTERPRET-LOOP" && InterpretDecl(146) == Own(D(INTERPRETLOOP))
    ensures InterpretName(147) == "WORD-NEW" && InterpretDecl(147) == Own(P(WordNew))
  {
  }

  lemma Names148()
    ensures InterpretName(148) == ":" && InterpretDecl(148) == Own(D(COLON))
    ensures InterpretName(149) == "LATEST" && InterpretDecl(149) == Own(K(KLatest))
    ensures InterpretName(152) == "XT>PREV" && InterpretDecl(152) == Own(P(XtToPrev))
    ensures InterpretName(153) == "XT>BODY" && InterpretDecl(153) == Own(P(XtToBody))
    ensures InterpretName(156) == "BLEN@" && InterpretDecl(156) == Own(P(BlenLoad))
  {
  }

  lemma Names157()
    ensures InterpretName(157) == "BLEN!" && InterpretDecl(157) == Own(P(BlenStore))
    ensures InterpretName(158) == ";" && InterpretDecl(158) == Own(D(SEMICOLON))
    ensures InterpretName(160) == "BEGIN" && InterpretDecl(160) == Own(D(BEGIN))
    ensures InterpretName(161) == "AGAIN" && InterpretDecl(161) == Own(D(AGAIN))
    ensures InterpretName(162) == "UNTIL" && InterpretDecl(162) == Own(D(UNTIL))
  {
  }

  lemma Names163()
    ensures InterpretName(163) == "IF" && InterpretDecl(163) == Own(D(IF))
    ensures InterpretName(164) == "THEN" && InterpretDecl(164) == Own(D(THEN))
  {
  }

  /** After forth_init the word is found under that name. */
  lemma FoundAs(e: Env, L: Lib, i: nat, text: string, n: Name)
    requires Booted(e, L) && i < ALL && NameAt(i) == text && Declared(i) == Own(n)
    ensures Search(e.mem, e.latest, Terminated(Codes(text))) == Found(L.at(n)) && HasWord(e.mem, L.at(n))
    ensures n.P? ==> e.mem[L.at(n)].h.op == n.op
    ensures n.K? ==> e.mem[L.at(n)].h.op == DoConst && HasCell(e.mem, e.mem[L.at(n)].h.body, KonstValue(n.k))
  {
    hide Order, NameAt, Declared, IsOwn, Terminated, Search, Code, CodeLen, HasCode, Immediate, KonstValue;
    DeclaredOrder(i);
    assert Speaks(e, L, n);
    OwnNotText(n);
    assert Loaded(e.mem, L, n);
  }

  /** The names of the immediate words of the library. */
  predicate ActsNamed(text: string) {
    || text == "[" || text == ";" || text == "BEGIN" || text == "AGAIN" || text == "UNTIL" || text == "IF"
    || text == "THEN"
  }

  lemma ActsSpelled()
    ensures Spelling(P(CompOff)) == "[" && Spelling(D(SEMICOLON)) == ";" && Spelling(D(BEGIN)) == "BEGIN"
    ensures Spelling(D(AGAIN)) == "AGAIN" && Spelling(D(UNTIL)) == "UNTIL" && Spelling(D(IF)) == "IF"
    ensures Spelling(D(THEN)) == "THEN"
  {
    hide InterpretName, InterpretDecl, Spelling;
    Names128();
    Names157();
    Names163();
    SpelledAt(130, P(CompOff), "[");
    SpelledAt(158, D(SEMICOLON), ";");
    SpelledAt(160, D(BEGIN), "BEGIN");
    SpelledAt(161, D(AGAIN), "AGAIN");
    SpelledAt(162, D(UNTIL), "UNTIL");
    SpelledAt(163, D(IF), "IF");
    SpelledAt(164, D(THEN), "THEN");
  }

  lemma SpelledAt(i: nat, n: Name, text: string)
    requires IO <= i < ALL && InterpretName(i) == text && InterpretDecl(i) == Own(n)
    ensures Spelling(n) == text
  {
    hide InterpretName, InterpretDecl, Order;
    DeclaredOrder(i);
  }

  lemma SpelledApart(m: Name, n: Name)
    requires IsOwn(m) && IsOwn(n) && Spelling(m) == Spelling(n)
    ensures m == n
  {
    hide NameAt, Order, IsOwn;
    OrderOwn(m);
    OrderOwn(n);
    if Order(m) != Order(n) { NamesApart(Order(m), Order(n)); }
    OrderApart(m, n);
  }

  /** While compiling, a library word is executed if and only if it is one of these; all others are compiled. */
  lemma ImmediateNames(e: Env, L: Lib, n: Name)
    requires Booted(e, L) && IsOwn(n)
    ensures HasWord(e.mem, L.at(n)) && (e.mem[L.at(n)].h.immediate <==> ActsNamed(Spelling(n)))
  {
    hide Spelling, ActsNamed, Code, CodeLen, HasCode, KonstValue, Definitions.BuiltIns, Structured.Controls;
    OwnNotText(n);
    assert Loaded(e.mem, L, n);
    ActsBy(n);
  }

  lemma ActsBy(n: Name)
    requires IsOwn(n)
    ensures Immediate(n) <==> ActsNamed(Spelling(n))
  {
    hide Spelling, IsOwn;
    ActsSpelled();
    assert IsOwn(P(CompOff)) && IsOwn(D(SEMICOLON)) && IsOwn(D(BEGIN)) && IsOwn(D(AGAIN)) by { OwnWords(); }
    assert IsOwn(D(UNTIL)) && IsOwn(D(IF)) && IsOwn(D(THEN)) by { OwnWords(); }
    if ActsNamed(Spelling(n)) {
      if Spelling(n) == "[" { SpelledApart(n, P(CompOff)); }
      if Spelling(n) == ";" { SpelledApart(n, D(SEMICOLON)); }
      if Spelling(n) == "BEGIN" { SpelledApart(n, D(BEGIN)); }
      if Spelling(n) == "AGAIN" { SpelledApart(n, D(AGAIN)); }
      if Spelling(n) == "UNTIL" { SpelledApart(n, D(UNTIL)); }
      if Spelling(n) == "IF" { SpelledApart(n, D(IF)); }
      if Spelling(n) == "THEN" { SpelledApart(n, D(THEN)); }
    }
  }

  lemma OwnWords()
    ensures IsOwn(P(CompOff)) && forall d :: IsOwn(D(d))
  {
  }

  // The constants.

  /** The dictionary and >NUMBER agree on the name of a constant. */
  predicate Agrees(k: Konst) {
    var text := Codes(Spelling(K(k)));
    IsNumberText(text) && NumberOf(text) == KonstValue(k)
  }

  lemma Hex(k: Konst, i: nat, d: char)
    requires i < 48 && Order(K(k)) == i && StackName(i) == ['$', d]
    requires IsHexDigit(d as nat) && HexValue(d as nat) == KonstValue(k) < 16
    ensures Agrees(k)
  {
    hide StackName, Order, HexValue, KonstValue, IsHexDigit;
    var text := Codes(Spelling(K(k)));
    assert text == [36, d as nat];
    OneDigit(d as nat, KonstValue(k));
  }

  lemma OneDigit(c: nat, v: nat)
    requires HexValue(c) == v < 16
    ensures NumberOf([36, c]) == v
  {
    hide HexValue;
    assert [36, c][1..] == [c] && [c][1..] == [];
    assert Digits([c], 0) == Digits([c][1..], Or(0, Wrap(v * Pow2(0))));
  }

  lemma LowHex(k: Konst)
    requires k.K0? || k.K1? || k.K2? || k.K3? || k.K4? || k.K5? || k.K6? || k.K7? || k.K8? || k.K9?
    ensures Agrees(k)
  {
    hide StackName, StackDecl, Agrees;
    Names10();
    Names17();
    Names22();
    Hex(k, KonstOrder(k), (48 + KonstValue(k)) as char);
  }

  lemma HighHex(k: Konst)
    requires k.KA? || k.KB? || k.KC? || k.KD? || k.KE? || k.KF?
    ensures Agrees(k)
  {
    hide StackName, StackDecl, Agrees;
    Names22();
    Names27();
    Hex(k, KonstOrder(k), (55 + KonstValue(k)) as char);
  }

  lemma NoHex(k: Konst)
    requires k.KTrue? || k.KFalse? || k.KPser? || k.KMaxlen? || k.KLatest?
    ensures Spelling(K(k)) != "" && Spelling(K(k))[0] != '$'
  {
    hide StackName, CoreName, InterpretName;
    Names5();
    Names10();
    Names74();
    Names133();
    Names148();
  }

  /** A constant whose name reads like a number has that number as its value. */
  lemma DollarConstants(k: Konst)
    requires Spelling(K(k)) != "" && Spelling(K(k))[0] == '$'
    ensures IsNumberText(Codes(Spelling(K(k)))) && NumberOf(Codes(Spelling(K(k)))) == KonstValue(k)
  {
    hide Spelling, Agrees, KonstValue;
    if k.KTrue? || k.KFalse? || k.KPser? || k.KMaxlen? || k.KLatest? {
      NoHex(k);
    } else if k.KA? || k.KB? || k.KC? || k.KD? || k.KE? || k.KF? {
      HighHex(k);
    } else {
      LowHex(k);
    }
    Agreement(k);
  }

  lemma Agreement(k: Konst)
    ensures Agrees(k) ==> IsNumberText(Codes(Spelling(K(k)))) && NumberOf(Codes(Spelling(K(k)))) == KonstValue(k)
  {
  }

  /** TRUE and FALSE are what comparisons answer; the mask of INTERPRET-FIX is the stack-error bit of STA@. */
  lemma OtherConstants(s: State)
    ensures KonstValue(KTrue) == Flag(true) && KonstValue(KFalse) == Flag(false)
    ensures And(Sta(s), KonstValue(KPser)) == if s.pser then KonstValue(KPser) else 0
  {
    BitOne(Sta(s));
  }

  /** The constant as it may be typed. */
  function Typed(L: Lib, k: Konst): Tok {
    Known(Named(K(k)), L.at(K(k)), 0, HasRoom, d => With(KonstValue(k), d))
  }

  lemma ConstantLegal(e: Env, L: Lib, k: Konst)
    requires Booted(e, L)
    ensures Legal(Typed(L, k), e.mem, e.latest, L) && !e.comp
  {
    hide Named, KonstValue, Code, CodeLen, HasCode, Legal, DataWord, Structured.Controls, Definitions.BuiltIns;
    assert Loaded(e.mem, L, K(k));
    ConstantActs(e.mem, L, L.at(K(k)), KonstValue(k));
    WordLegal(e, L, K(k), 0, HasRoom, d => With(KonstValue(k), d));
  }

  lemma OneWord(t: Tok, d: Data, keys: seq<nat>, rest: seq<nat>)
    requires t.Known? && t.ok(d) && d.dn + 14 <= STACK_DEPTH && t.eff(d).dn + 14 <= STACK_DEPTH
    requires NextWord(keys, t.text, rest)
    ensures Smooth([t], d) && Keyed(keys, Texts([t]), rest) && After([t], d) == t.eff(d)
  {
    hide NextWord;
    assert [t][1..] == [];
    assert Smooth([], t.eff(d));
    assert Texts([]) == [] && Texts([t]) == [t.text] + Texts([t][1..]);
    assert Texts([t])[0] == t.text && Texts([t])[1..] == [];
    assert Keyed(rest, [], rest);
  }

  /** So typing a constant at any prompt that forth_init has made possible pushes its value; and for a name that
      reads like a number, that number. */
  lemma TypesConstant(s: State, L: Lib, k: Konst, rest: seq<nat>) returns (v: State)
    requires AtAnyPrompt(s, L) && Booted(Trimmed(s).env, L) && s.dn + 15 <= STACK_DEPTH
    requires NextWord(s.env.keys, Named(K(k)), rest)
    ensures Reaches(s, v) && AtAnyPrompt(v, L) && Extends(Kept(s.env), Kept(v.env)) && v.env.keys == rest
    ensures DataOf(v) == Data(KonstValue(k), Item(s.tos, s.ds), s.dn + 1) && v.rs == s.rs
    ensures Spelling(K(k)) != "" && Spelling(K(k))[0] == '$' ==> v.tos == NumberOf(Codes(Spelling(K(k))))
  {
    hide Reaches, AtAnyPrompt, Kept, Booted, Named, NextWord, Spelling, KonstValue, Legal, Keyed, Smooth, After;
    var t := Typed(L, k);
    ConstantLegal(Trimmed(s).env, L, k);
    OneWord(t, DataOf(s), s.env.keys, rest);
    PromptReturns(s, L);
    v := Prompt.TypesAll(s, L, [t], rest);
    if Spelling(K(k)) != "" && Spelling(K(k))[0] == '$' { DollarConstants(k); }
  }

  lemma PromptReturns(s: State, L: Lib)
    requires AtAnyPrompt(s, L)
    ensures s.rn + 8 <= STACK_DEPTH
  {
    hide Image, Loaded, BodyOf, Kept;
  }
}
