/** The threaded words as structured programs: the macro calls of forth_core.c, forth_io.c and
    forth_interpret.c that write them, and that the code of the library is what those calls come to. */
module Structure {
  import opened Words
  import opened Memory
  import opened Opcodes
  import opened Machine
  import opened Library

  /** The calls COMPILE, LIT, IF ... THEN, BEGIN ... UNTIL and BEGIN ... AGAIN. */
  datatype Draft =
    | End
    | Compile(ns: seq<Name>, rest: Draft)
    | Literal(i: Ins, rest: Draft)
    | When(q: Draft, rest: Draft)
    | Until(q: Draft, rest: Draft)
    | Again(q: Draft, rest: Draft)

  // Loops and branches of the longer words.

  function TypeLoop(): Draft {
    Compile([P(Over), P(WLoad), D(WEMIT), P(OneMinus), P(Swap), K(K2), P(Plus), P(Swap), P(Dup), P(EqZ)], End)
  }

  function HexLoop(): Draft {
    Compile([D(TWODUP), P(OneMinus), K(K4), P(Multi), P(RShift), D(NIBBLE), D(WEMIT), P(OneMinus), P(Dup), P(EqZ)],
    End)
  }

  function ItemsLoop(): Draft {
    Compile([D(SPACE), P(Dup), P(Pick), D(DOT), P(OneMinus), P(Dup), P(EqZ)], End)
  }

  function KeysLoop(): Draft {
    Compile([D(WKEY), P(Dup), D(DELIM)], When(Compile([P(Drop), P(Exit)], End), Compile([D(WIBPUSH)], End)))
  }

  /** INTERPRET, where the word is in the dictionary. */
  function KnownBranch(): Draft {
    Compile([P(Dup), P(IsImmediate)], When(Compile([P(Execute), P(Exit)], End),
    Compile([P(CompSta)], When(Compile([D(XCOMMA), P(Exit)], End), Compile([P(Execute), P(Exit)], End)))))
  }

  /** INTERPRET, where it is a number. */
  function NumberBranch(): Draft {
    Compile([P(ToNumber), P(CompSta)],
    When(Literal(S(SLit), Literal(N(3), Compile([P(Find), D(XCOMMA), D(XCOMMA)], End))), Compile([P(Exit)], End)))
  }

  /** INTERPRET, where it is neither. */
  function UnknownBranch(): Draft {
    Compile([P(Drop), P(Wib), P(Win), P(XLoad), D(WTYPE), D(SPACE)],
    Literal(S(SNotFound), Literal(N(11), Compile([D(WTYPE), D(INTERPRETRST), P(Exit)], End))))
  }

  /** INTERPRET, where the word is not in the dictionary. */
  function TriesBranch(): Draft {
    Compile([P(Drop), P(Wib), P(Win), P(XLoad), D(TWODUP), P(IsNumber)], When(NumberBranch(), UnknownBranch()))
  }

  function Source(d: Def): Draft {
    match d
    case ROT => Compile([P(ToR), P(Swap), P(FromR), P(Swap), P(Exit)], End)
    case MROT => Compile([P(Swap), P(ToR), P(Swap), P(FromR), P(Exit)], End)
    case TWODROP => Compile([P(Drop), P(Drop), P(Exit)], End)
    case TWODUP => Compile([P(Over), P(Over), P(Exit)], End)
    case TWOSWAP => Compile([P(ToR), D(MROT), P(FromR), D(MROT), P(Exit)], End)
    case TWOOVER => Compile([P(ToR), P(ToR), D(TWODUP), P(FromR), P(FromR), D(TWOSWAP), P(Exit)], End)
    case TWOROT => Compile([P(ToR), P(ToR), D(TWOSWAP), P(FromR), P(FromR), D(TWOSWAP), P(Exit)], End)
    case TWOMROT => Compile([D(TWOSWAP), P(ToR), P(ToR), D(TWOSWAP), P(FromR), P(FromR), P(Exit)], End)
    case HERE => Compile([P(DpVar), P(XLoad), P(Exit)], End)
    case ALLOT => Compile([D(HERE), P(Plus), P(DpVar), P(XStore), P(Exit)], End)
    case XCOMMA => Compile([D(HERE), K(K8), D(ALLOT), P(XStore), P(Exit)], End)
    case WEMIT => Compile([P(UserWEmit), P(XLoad), P(Execute), P(Exit)], End)
    case WKEY => Compile([P(UserWKey), P(XLoad), P(Execute), P(Exit)], End)
    case WTYPE =>
      Compile([P(Dup)], When(Until(TypeLoop(), End), Compile([D(TWODROP), P(Exit)], End)))
    case NIBBLE =>
      Compile([K(KF), P(AndOp), P(TwoMulti)], Literal(S(SLut), Compile([P(Plus), P(WLoad), P(Exit)], End)))
    case NHEX =>
      Compile([P(Dup)], When(Until(HexLoop(), End), Compile([D(TWODROP), P(Exit)], End)))
    case XHEX => Literal(N(16), Compile([D(NHEX), P(Exit)], End))
    case DOT => Compile([P(UserDot), P(XLoad), P(Execute), P(Exit)], End)
    case SPACE => Literal(N(32), Compile([D(WEMIT), P(Exit)], End))
    case CR => Literal(N(13), Literal(N(10), Compile([D(WEMIT), D(WEMIT), P(Exit)], End)))
    case DOTS =>
      Literal(N(60), Compile([D(WEMIT), P(Depth), P(Dup), D(DOT)], Literal(N(62), Compile([D(WEMIT), P(Dup)],
      When(Until(ItemsLoop(), End), Compile([D(CR), P(Drop), P(Exit)], End))))))
    case WIBRST => Compile([K(K0), P(Win), P(XStore), P(Exit)], End)
    case WIBPUSH =>
      Compile([P(Win), P(XLoad), K(KMaxlen), P(Mod), P(TwoMulti), P(Wib), P(Plus), P(WStore), P(Win), P(XLoad),
      P(OnePlus), K(KMaxlen), P(Mod), P(Win), P(XStore), P(Exit)], End)
    case DELIM =>
      Compile([P(Dup)], Literal(N(32), Compile([P(Eq), P(Over), K(KD), P(Eq), P(OrOp), P(Swap), K(KA), P(Eq),
      P(OrOp), P(Exit)], End)))
    case INNERWORD => Compile([D(WIBRST)], Again(KeysLoop(), Compile([P(Exit)], End)))
    case WIBWORD => Until(Compile([D(INNERWORD), P(Win), P(XLoad), P(NeZ)], End), Compile([P(Exit)], End))
    case INTERPRETRST => Compile([P(PspRst), D(WIBRST), P(CompOff), P(Exit)], End)
    case INTERPRETFIX =>
      Compile([P(StaLoad), K(KPser), P(AndOp)], When(Compile([D(INTERPRETRST)], Literal(S(SPser), Literal(N(21),
      Compile([D(WTYPE)], End)))), Compile([P(Exit)], End)))
    case INTERPRET =>
      Compile([D(WIBWORD), P(Wib), P(Win), P(XLoad), P(Find), P(Dup)], When(KnownBranch(), TriesBranch()))
    case INTERPRETLOOP => Again(Compile([D(INTERPRET), D(INTERPRETFIX)], End), End)
    case COLON => Compile([D(WIBWORD), P(Wib), P(Win), P(XLoad), P(WordNew), P(CompOn), P(Exit)], End)
    case SEMICOLON =>
      Literal(S(SExit), Literal(N(4), Compile([P(Find), D(XCOMMA), D(HERE), P(Over), P(XtToBody), P(Minus), P(Over),
      P(BlenStore), K(KLatest), P(XStore), P(CompOff), P(Exit)], End)))
    case BEGIN => Compile([D(HERE), P(Exit)], End)
    case AGAIN => Literal(S(SBranch), Literal(N(6), Compile([P(Find), D(XCOMMA), D(XCOMMA), P(Exit)], End)))
    case UNTIL =>
      Literal(S(SZBranch), Literal(N(7), Compile([P(Find), D(XCOMMA), D(XCOMMA), P(Exit)], End)))
    case IF =>
      Literal(S(SZBranch), Literal(N(7), Compile([P(Find), D(XCOMMA), D(HERE), K(K0), D(XCOMMA), P(Exit)], End)))
    case THEN => Compile([D(HERE), P(Swap), P(XStore), P(Exit)], End)
  }

  /** The number of cells that p comes to. */
  function Count(p: Draft): nat {
    match p
    case End => 0
    case Compile(ns, r) => |ns| + Count(r)
    case Literal(_, r) => 2 + Count(r)
    case When(q, r) => 2 + Count(q) + Count(r)
    case Until(q, r) => Count(q) + 2 + Count(r)
    case Again(q, r) => Count(q) + 2 + Count(r)
  }

  predicate Names(d: Def, i: nat, ns: seq<Name>) {
    forall k :: 0 <= k < |ns| ==> Code(d, i + k) == W(ns[k])
  }

  /** From cell i on, the code of d is what p comes to. */
  predicate Spells(d: Def, i: nat, p: Draft)
    decreases p
  {
    match p
    case End => true
    case Compile(ns, r) => Names(d, i, ns) && Spells(d, i + |ns|, r)
    case Literal(v, r) => Code(d, i) == W(P(Op.Lit)) && Code(d, i + 1) == v && (v.N? || v.S?) && Spells(d, i + 2, r)
    case When(q, r) =>
      && Code(d, i) == W(P(ZBranch)) && Code(d, i + 1) == To(i + 2 + Count(q))
      && Spells(d, i + 2, q) && Spells(d, i + 2 + Count(q), r)
    case Until(q, r) =>
      && Spells(d, i, q) && Code(d, i + Count(q)) == W(P(ZBranch)) && Code(d, i + Count(q) + 1) == To(i)
      && Spells(d, i + Count(q) + 2, r)
    case Again(q, r) =>
      && Spells(d, i, q) && Code(d, i + Count(q)) == W(P(Branch)) && Code(d, i + Count(q) + 1) == To(i)
      && Spells(d, i + Count(q) + 2, r)
  }

  predicate Whole(d: Def) {
    Spells(d, 0, Source(d)) && Count(Source(d)) == CodeLen(d)
  }

  lemma SpellsNames(d: Def, i: nat, ns: seq<Name>, r: Draft)
    requires Names(d, i, ns) && Spells(d, i + |ns|, r)
    ensures Spells(d, i, Compile(ns, r))
  {
    hide Code;
  }

  lemma SpellsLiteral(d: Def, i: nat, v: Ins, r: Draft)
    requires Code(d, i) == W(P(Op.Lit)) && Code(d, i + 1) == v && (v.N? || v.S?) && Spells(d, i + 2, r)
    ensures Spells(d, i, Literal(v, r))
  {
    hide Code;
  }

  lemma SpellsWhen(d: Def, i: nat, q: Draft, r: Draft)
    requires Code(d, i) == W(P(ZBranch)) && Code(d, i + 1) == To(i + 2 + Count(q))
    requires Spells(d, i + 2, q) && Spells(d, i + 2 + Count(q), r)
    ensures Spells(d, i, When(q, r))
  {
    hide Code;
  }

  lemma RotsWhole()
    ensures Whole(ROT) && Whole(MROT)
  {
  }

  lemma DropsWhole()
    ensures Whole(TWODROP) && Whole(TWODUP) && Whole(TWOSWAP)
  {
  }

  lemma TwoOverWhole()
    ensures Whole(TWOOVER)
  {
  }

  lemma TwoRotWhole()
    ensures Whole(TWOROT)
  {
  }

  lemma TwoMinusRotWhole()
    ensures Whole(TWOMROT)
  {
  }

  lemma AllotWhole()
    ensures Whole(HERE) && Whole(ALLOT) && Whole(XCOMMA)
  {
  }

  lemma VectorsWhole()
    ensures Whole(WEMIT) && Whole(WKEY)
  {
  }

  lemma DotWhole()
    ensures Whole(DOT)
  {
  }

  lemma TypeWhole()
    ensures Whole(WTYPE)
  {
    assert Names(WTYPE, 3, TypeLoop().ns);
    hide Names;
  }

  lemma NibbleWhole()
    ensures Whole(NIBBLE)
  {
  }

  lemma HexWhole()
    ensures Whole(NHEX)
  {
    assert Names(NHEX, 3, HexLoop().ns);
    assert Spells(NHEX, 3, HexLoop());
    hide Names, HexLoop;
  }

  lemma SpacesWhole()
    ensures Whole(XHEX) && Whole(SPACE)
  {
  }

  lemma CrWhole()
    ensures Whole(CR)
  {
  }

  lemma ItemsSpelled()
    ensures Spells(DOTS, 10, Source(DOTS).rest.rest.rest.rest)
  {
    assert Names(DOTS, 12, ItemsLoop().ns);
    hide Names;
  }

  lemma ItemsCells()
    ensures Names(DOTS, 2, [D(WEMIT), P(Depth), P(Dup), D(DOT)]) && Names(DOTS, 8, [D(WEMIT), P(Dup)])
    ensures Code(DOTS, 0) == W(P(Op.Lit)) && Code(DOTS, 1) == N(60)
    ensures Code(DOTS, 6) == W(P(Op.Lit)) && Code(DOTS, 7) == N(62)
  {
  }

  lemma ItemsWhole()
    ensures Whole(DOTS)
  {
    hide Names, ItemsLoop, Code;
    ItemsCells();
    ItemsSpelled();
    ItemsCounted();
    var tail := Source(DOTS).rest.rest.rest;
    SpellsNames(DOTS, 8, tail.ns, tail.rest);
    SpellsLiteral(DOTS, 6, N(62), tail);
    SpellsNames(DOTS, 2, Source(DOTS).rest.ns, Literal(N(62), tail));
    SpellsLiteral(DOTS, 0, N(60), Source(DOTS).rest);
  }

  lemma ItemsCounted()
    ensures Count(Source(DOTS)) == CodeLen(DOTS)
  {
  }

  lemma WibRstWhole()
    ensures Whole(WIBRST)
  {
  }

  lemma WibPushWhole()
    ensures Whole(WIBPUSH)
  {
    assert Names(WIBPUSH, 0, Source(WIBPUSH).ns);
    hide Names;
  }

  lemma DelimWhole()
    ensures Whole(DELIM)
  {
    assert Names(DELIM, 3, Source(DELIM).rest.rest.ns);
    hide Names;
  }

  lemma InnerWhole()
    ensures Whole(INNERWORD)
  {
    assert Spells(INNERWORD, 1, KeysLoop());
    hide Names, KeysLoop;
  }

  lemma WibWordWhole()
    ensures Whole(WIBWORD)
  {
  }

  lemma ResetWhole()
    ensures Whole(INTERPRETRST)
  {
  }

  lemma FixWhole()
    ensures Whole(INTERPRETFIX)
  {
    assert Spells(INTERPRETFIX, 5, Source(INTERPRETFIX).rest.q);
    assert Names(INTERPRETFIX, 0, Source(INTERPRETFIX).ns);
    hide Names;
  }

  lemma KnownSpelled()
    ensures Spells(INTERPRET, 8, KnownBranch()) && Count(KnownBranch()) == 13
  {
  }

  lemma NumberSpelled()
    ensures Spells(INTERPRET, 29, NumberBranch()) && Count(NumberBranch()) == 12
  {
  }

  lemma UnknownSpelled()
    ensures Spells(INTERPRET, 41, UnknownBranch()) && Count(UnknownBranch()) == 13
  {
  }

  lemma TriesSpelled()
    ensures Spells(INTERPRET, 21, TriesBranch())
  {
    hide Spells, KnownBranch;
    assert Names(INTERPRET, 21, [P(Drop), P(Wib), P(Win), P(XLoad), D(TWODUP), P(IsNumber)]);
    assert Code(INTERPRET, 27) == W(P(ZBranch)) && Code(INTERPRET, 28) == To(41);
    hide Names, Code;
    NumberSpelled();
    UnknownSpelled();
    hide NumberBranch, UnknownBranch;
    SpellsWhen(INTERPRET, 27, NumberBranch(), UnknownBranch());
    SpellsNames(INTERPRET, 21, [P(Drop), P(Wib), P(Win), P(XLoad), D(TWODUP), P(IsNumber)],
      When(NumberBranch(), UnknownBranch()));
  }

  lemma InterpretSpelled()
    ensures Spells(INTERPRET, 0, Source(INTERPRET))
  {
    hide Spells;
    assert Names(INTERPRET, 0, [D(WIBWORD), P(Wib), P(Win), P(XLoad), P(Find), P(Dup)]);
    assert Code(INTERPRET, 6) == W(P(ZBranch)) && Code(INTERPRET, 7) == To(21);
    hide Names, Code;
    KnownSpelled();
    TriesSpelled();
    hide KnownBranch, TriesBranch;
    SpellsWhen(INTERPRET, 6, KnownBranch(), TriesBranch());
    SpellsNames(INTERPRET, 0, [D(WIBWORD), P(Wib), P(Win), P(XLoad), P(Find), P(Dup)],
      When(KnownBranch(), TriesBranch()));
  }

  lemma InterpretCounted()
    ensures Count(Source(INTERPRET)) == CodeLen(INTERPRET)
  {
    hide Spells;
    KnownSpelled();
    NumberSpelled();
    UnknownSpelled();
    hide KnownBranch, NumberBranch, UnknownBranch;
    assert Count(TriesBranch()) == 33;
  }

  lemma LoopWhole()
    ensures Whole(INTERPRETLOOP)
  {
  }

  lemma ColonWhole()
    ensures Whole(COLON)
  {
    assert Names(COLON, 0, Source(COLON).ns);
    hide Names;
  }

  lemma SemicolonWhole()
    ensures Whole(SEMICOLON)
  {
  }

  lemma BeginWhole()
    ensures Whole(BEGIN)
  {
  }

  lemma ThenWhole()
    ensures Whole(THEN)
  {
  }

  lemma BackWhole()
    ensures Whole(AGAIN)
  {
  }

  lemma UntilWhole()
    ensures Whole(UNTIL)
  {
  }

  lemma IfWhole()
    ensures Whole(IF)
  {
  }

  /** The macro calls of the C source come to the code of the library, cell by cell. */
  lemma SourceSpells(d: Def)
    ensures Spells(d, 0, Source(d)) && Count(Source(d)) == CodeLen(d)
  {
    hide Spells, Source, Count, CodeLen, Code;
    RotsWhole();
    DropsWhole();
    TwoOverWhole();
    TwoRotWhole();
    TwoMinusRotWhole();
    AllotWhole();
    VectorsWhole();
    DotWhole();
    TypeWhole();
    NibbleWhole();
    HexWhole();
    SpacesWhole();
    CrWhole();
    ItemsWhole();
    WibRstWhole();
    WibPushWhole();
    DelimWhole();
    InnerWhole();
    WibWordWhole();
    ResetWhole();
    FixWhole();
    LoopWhole();
    ColonWhole();
    SemicolonWhole();
    BeginWhole();
    ThenWhole();
    BackWhole();
    UntilWhole();
    IfWhole();
    InterpretSpelled();
    InterpretCounted();
    assert d == INTERPRET || Whole(d);
  }
}
