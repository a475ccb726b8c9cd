/** The threaded words of forth_core.c, forth_io.c and forth_interpret.c: their code, what it
    means that memory holds them, and the rules by which proofs step through them. */
module Library {
  import opened Words
  import opened Memory
  import opened Opcodes
  import opened Machine

  /** Words made by CONSTANT. */
  datatype Konst =
    | K0 | K1 | K2 | K3 | K4 | K5 | K6 | K7 | K8 | K9 | KA | KB | KC | KD | KE | KF
    | KTrue | KFalse | KPser | KMaxlen | KLatest

  function KonstValue(k: Konst): nat {
    match k
    case K0 => 0
    case K1 => 1
    case K2 => 2
    case K3 => 3
    case K4 => 4
    case K5 => 5
    case K6 => 6
    case K7 => 7
    case K8 => 8
    case K9 => 9
    case KA => 10
    case KB => 11
    case KC => 12
    case KD => 13
    case KE => 14
    case KF => 15
    case KTrue => TRUE
    case KFalse => 0
    case KPser => 2
    case KMaxlen => NAME_MAXLEN
    case KLatest => LATEST_VAR
  }

  /** Words defined by a body of threaded code. M stands for a leading minus sign. */
  datatype Def =
    | ROT | MROT | TWODROP | TWODUP | TWOSWAP | TWOOVER | TWOROT | TWOMROT
    | HERE | ALLOT | XCOMMA
    | WEMIT | WKEY | WTYPE | NIBBLE | NHEX | XHEX | DOT | SPACE | CR | DOTS
    | WIBRST | WIBPUSH | DELIM | INNERWORD | WIBWORD
    | INTERPRETRST | INTERPRETFIX | INTERPRET | INTERPRETLOOP
    | COLON | SEMICOLON | BEGIN | AGAIN | UNTIL | IF | THEN

  /** C string constants that the bodies point at. */
  datatype Str = SLit | SExit | SBranch | SZBranch | SPser | SNotFound | SLut

  function StrText(t: Str): seq<nat> {
    match t
    case SLit => Codes("LIT")
    case SExit => Codes("EXIT")
    case SBranch => Codes("BRANCH")
    case SZBranch => Codes("ZBRANCH")
    case SPser => Codes("\r\nPARAM STACK ERROR\r\n")
    case SNotFound => Codes("NOT FOUND\r\n")
    case SLut => Codes("0123456789ABCDEF")
  }

  datatype Name = P(op: Op) | K(k: Konst) | D(d: Def) | T(t: Str)

  /** Where the words and strings are; every library word ends at or below `top`. */
  datatype Lib = Lib(at: Name -> Addr, top: Addr)

  /** A cell of threaded code: a word, a number, the address of cell k of the same body, or the
      address of a string. */
  datatype Ins = W(n: Name) | N(v: nat) | To(k: nat) | S(t: Str)

  function CellOf(L: Lib, base: Addr, i: Ins): nat {
    match i
    case W(n) => L.at(n)
    case N(v) => v
    case To(k) => base + 8 * k
    case S(t) => L.at(T(t))
  }

  /** The number of cells of a definition. */
  function CodeLen(d: Def): nat {
    match d
    case ROT => 5
    case MROT => 5
    case TWODROP => 3
    case TWODUP => 3
    case TWOSWAP => 5
    case TWOOVER => 7
    case TWOROT => 7
    case TWOMROT => 7
    case HERE => 3
    case ALLOT => 5
    case XCOMMA => 5
    case WEMIT => 4
    case WKEY => 4
    case WTYPE => 17
    case NIBBLE => 8
    case NHEX => 17
    case XHEX => 4
    case DOT => 4
    case SPACE => 4
    case CR => 7
    case DOTS => 24
    case WIBRST => 4
    case WIBPUSH => 16
    case DELIM => 13
    case INNERWORD => 12
    case WIBWORD => 7
    case INTERPRETRST => 4
    case INTERPRETFIX => 12
    case INTERPRET => 54
    case INTERPRETLOOP => 4
    case COLON => 7
    case SEMICOLON => 16
    case BEGIN => 2
    case AGAIN => 8
    case UNTIL => 8
    case IF => 10
    case THEN => 4
  }

  // INTERPRET, in two parts.

  function InterpretFront(i: nat): Ins {
    match i
    case 0 => W(D(WIBWORD)) case 1 => W(P(Wib)) case 2 => W(P(Win)) case 3 => W(P(XLoad)) case 4 => W(P(Find))
    case 5 => W(P(Dup)) case 6 => W(P(ZBranch)) case 7 => To(21) case 8 => W(P(Dup)) case 9 => W(P(IsImmediate))
    case 10 => W(P(ZBranch)) case 11 => To(14) case 12 => W(P(Execute)) case 13 => W(P(Exit))
    case 14 => W(P(CompSta)) case 15 => W(P(ZBranch)) case 16 => To(19) case 17 => W(D(XCOMMA))
    case 18 => W(P(Exit)) case 19 => W(P(Execute)) case 20 => W(P(Exit)) case 21 => W(P(Drop)) case 22 => W(P(Wib))
    case 23 => W(P(Win)) case 24 => W(P(XLoad)) case 25 => W(D(TWODUP)) case _ => W(P(IsNumber))
  }

  function InterpretBack(i: nat): Ins {
    match i
    case 27 => W(P(ZBranch)) case 28 => To(41) case 29 => W(P(ToNumber)) case 30 => W(P(CompSta))
    case 31 => W(P(ZBranch)) case 32 => To(40) case 33 => W(P(Lit)) case 34 => S(SLit) case 35 => W(P(Lit))
    case 36 => N(3) case 37 => W(P(Find)) case 38 => W(D(XCOMMA)) case 39 => W(D(XCOMMA)) case 40 => W(P(Exit))
    case 41 => W(P(Drop)) case 42 => W(P(Wib)) case 43 => W(P(Win)) case 44 => W(P(XLoad)) case 45 => W(D(WTYPE))
    case 46 => W(D(SPACE)) case 47 => W(P(Lit)) case 48 => S(SNotFound) case 49 => W(P(Lit)) case 50 => N(11)
    case 51 => W(D(WTYPE)) case 52 => W(D(INTERPRETRST)) case _ => W(P(Exit))
  }

  /** Cell i of a definition (the last cell, for any i past it), as COMPILE, LIT and the control builders
      lay it out. */
  function Code(d: Def, i: nat): Ins {
    match d
    case ROT => (match i
      case 0 => W(P(ToR)) case 1 => W(P(Swap)) case 2 => W(P(FromR)) case 3 => W(P(Swap)) case _ => W(P(Exit)))
    case MROT => (match i
      case 0 => W(P(Swap)) case 1 => W(P(ToR)) case 2 => W(P(Swap)) case 3 => W(P(FromR)) case _ => W(P(Exit)))
    case TWODROP => (match i
      case 0 => W(P(Drop)) case 1 => W(P(Drop)) case _ => W(P(Exit)))
    case TWODUP => (match i
      case 0 => W(P(Over)) case 1 => W(P(Over)) case _ => W(P(Exit)))
    case TWOSWAP => (match i
      case 0 => W(P(ToR)) case 1 => W(D(MROT)) case 2 => W(P(FromR)) case 3 => W(D(MROT)) case _ => W(P(Exit)))
    case TWOOVER => (match i
      case 0 => W(P(ToR)) case 1 => W(P(ToR)) case 2 => W(D(TWODUP)) case 3 => W(P(FromR)) case 4 => W(P(FromR))
      case 5 => W(D(TWOSWAP)) case _ => W(P(Exit)))
    case TWOROT => (match i
      case 0 => W(P(ToR)) case 1 => W(P(ToR)) case 2 => W(D(TWOSWAP)) case 3 => W(P(FromR))
      case 4 => W(P(FromR)) case 5 => W(D(TWOSWAP)) case _ => W(P(Exit)))
    case TWOMROT => (match i
      case 0 => W(D(TWOSWAP)) case 1 => W(P(ToR)) case 2 => W(P(ToR)) case 3 => W(D(TWOSWAP))
      case 4 => W(P(FromR)) case 5 => W(P(FromR)) case _ => W(P(Exit)))
    case HERE => (match i
      case 0 => W(P(DpVar)) case 1 => W(P(XLoad)) case _ => W(P(Exit)))
    case ALLOT => (match i
      case 0 => W(D(HERE)) case 1 => W(P(Plus)) case 2 => W(P(DpVar)) case 3 => W(P(XStore))
      case _ => W(P(Exit)))
    case XCOMMA => (match i
      case 0 => W(D(HERE)) case 1 => W(K(K8)) case 2 => W(D(ALLOT)) case 3 => W(P(XStore)) case _ => W(P(Exit)))
    case WEMIT => (match i
      case 0 => W(P(UserWEmit)) case 1 => W(P(XLoad)) case 2 => W(P(Execute)) case _ => W(P(Exit)))
    case WKEY => (match i
      case 0 => W(P(UserWKey)) case 1 => W(P(XLoad)) case 2 => W(P(Execute)) case _ => W(P(Exit)))
    case WTYPE => (match i
      case 0 => W(P(Dup)) case 1 => W(P(ZBranch)) case 2 => To(15) case 3 => W(P(Over)) case 4 => W(P(WLoad))
      case 5 => W(D(WEMIT)) case 6 => W(P(OneMinus)) case 7 => W(P(Swap)) case 8 => W(K(K2))
      case 9 => W(P(Plus)) case 10 => W(P(Swap)) case 11 => W(P(Dup)) case 12 => W(P(EqZ))
      case 13 => W(P(ZBranch)) case 14 => To(3) case 15 => W(D(TWODROP)) case _ => W(P(Exit)))
    case NIBBLE => (match i
      case 0 => W(K(KF)) case 1 => W(P(AndOp)) case 2 => W(P(TwoMulti)) case 3 => W(P(Lit)) case 4 => S(SLut)
      case 5 => W(P(Plus)) case 6 => W(P(WLoad)) case _ => W(P(Exit)))
    case NHEX => (match i
      case 0 => W(P(Dup)) case 1 => W(P(ZBranch)) case 2 => To(15) case 3 => W(D(TWODUP))
      case 4 => W(P(OneMinus)) case 5 => W(K(K4)) case 6 => W(P(Multi)) case 7 => W(P(RShift))
      case 8 => W(D(NIBBLE)) case 9 => W(D(WEMIT)) case 10 => W(P(OneMinus)) case 11 => W(P(Dup))
      case 12 => W(P(EqZ)) case 13 => W(P(ZBranch)) case 14 => To(3) case 15 => W(D(TWODROP))
      case _ => W(P(Exit)))
    case XHEX => (match i
      case 0 => W(P(Lit)) case 1 => N(16) case 2 => W(D(NHEX)) case _ => W(P(Exit)))
    case DOT => (match i
      case 0 => W(P(UserDot)) case 1 => W(P(XLoad)) case 2 => W(P(Execute)) case _ => W(P(Exit)))
    case SPACE => (match i
      case 0 => W(P(Lit)) case 1 => N(32) case 2 => W(D(WEMIT)) case _ => W(P(Exit)))
    case CR => (match i
      case 0 => W(P(Lit)) case 1 => N(13) case 2 => W(P(Lit)) case 3 => N(10) case 4 => W(D(WEMIT))
      case 5 => W(D(WEMIT)) case _ => W(P(Exit)))
    case DOTS => (match i
      case 0 => W(P(Lit)) case 1 => N(60) case 2 => W(D(WEMIT)) case 3 => W(P(Depth)) case 4 => W(P(Dup))
      case 5 => W(D(DOT)) case 6 => W(P(Lit)) case 7 => N(62) case 8 => W(D(WEMIT)) case 9 => W(P(Dup))
      case 10 => W(P(ZBranch)) case 11 => To(21) case 12 => W(D(SPACE)) case 13 => W(P(Dup))
      case 14 => W(P(Pick)) case 15 => W(D(DOT)) case 16 => W(P(OneMinus)) case 17 => W(P(Dup))
      case 18 => W(P(EqZ)) case 19 => W(P(ZBranch)) case 20 => To(12) case 21 => W(D(CR)) case 22 => W(P(Drop))
      case _ => W(P(Exit)))
    case WIBRST => (match i
      case 0 => W(K(K0)) case 1 => W(P(Win)) case 2 => W(P(XStore)) case _ => W(P(Exit)))
    case WIBPUSH => (match i
      case 0 => W(P(Win)) case 1 => W(P(XLoad)) case 2 => W(K(KMaxlen)) case 3 => W(P(Mod))
      case 4 => W(P(TwoMulti)) case 5 => W(P(Wib)) case 6 => W(P(Plus)) case 7 => W(P(WStore))
      case 8 => W(P(Win)) case 9 => W(P(XLoad)) case 10 => W(P(OnePlus)) case 11 => W(K(KMaxlen))
      case 12 => W(P(Mod)) case 13 => W(P(Win)) case 14 => W(P(XStore)) case _ => W(P(Exit)))
    case DELIM => (match i
      case 0 => W(P(Dup)) case 1 => W(P(Lit)) case 2 => N(32) case 3 => W(P(Eq)) case 4 => W(P(Over))
      case 5 => W(K(KD)) case 6 => W(P(Eq)) case 7 => W(P(OrOp)) case 8 => W(P(Swap)) case 9 => W(K(KA))
      case 10 => W(P(Eq)) case 11 => W(P(OrOp)) case _ => W(P(Exit)))
    case INNERWORD => (match i
      case 0 => W(D(WIBRST)) case 1 => W(D(WKEY)) case 2 => W(P(Dup)) case 3 => W(D(DELIM))
      case 4 => W(P(ZBranch)) case 5 => To(8) case 6 => W(P(Drop)) case 7 => W(P(Exit)) case 8 => W(D(WIBPUSH))
      case 9 => W(P(Branch)) case 10 => To(1) case _ => W(P(Exit)))
    case WIBWORD => (match i
      case 0 => W(D(INNERWORD)) case 1 => W(P(Win)) case 2 => W(P(XLoad)) case 3 => W(P(NeZ))
      case 4 => W(P(ZBranch)) case 5 => To(0) case _ => W(P(Exit)))
    case INTERPRETRST => (match i
      case 0 => W(P(PspRst)) case 1 => W(D(WIBRST)) case 2 => W(P(CompOff)) case _ => W(P(Exit)))
    case INTERPRETFIX => (match i
      case 0 => W(P(StaLoad)) case 1 => W(K(KPser)) case 2 => W(P(AndOp)) case 3 => W(P(ZBranch))
      case 4 => To(11) case 5 => W(D(INTERPRETRST)) case 6 => W(P(Lit)) case 7 => S(SPser) case 8 => W(P(Lit))
      case 9 => N(21) case 10 => W(D(WTYPE)) case _ => W(P(Exit)))
    case INTERPRET => if i < 27 then InterpretFront(i) else InterpretBack(i)
    case INTERPRETLOOP => (match i
      case 0 => W(D(INTERPRET)) case 1 => W(D(INTERPRETFIX)) case 2 => W(P(Branch)) case _ => To(0))
    case COLON => (match i
      case 0 => W(D(WIBWORD)) case 1 => W(P(Wib)) case 2 => W(P(Win)) case 3 => W(P(XLoad))
      case 4 => W(P(WordNew)) case 5 => W(P(CompOn)) case _ => W(P(Exit)))
    case SEMICOLON => (match i
      case 0 => W(P(Lit)) case 1 => S(SExit) case 2 => W(P(Lit)) case 3 => N(4) case 4 => W(P(Find))
      case 5 => W(D(XCOMMA)) case 6 => W(D(HERE)) case 7 => W(P(Over)) case 8 => W(P(XtToBody))
      case 9 => W(P(Minus)) case 10 => W(P(Over)) case 11 => W(P(BlenStore)) case 12 => W(K(KLatest))
      case 13 => W(P(XStore)) case 14 => W(P(CompOff)) case _ => W(P(Exit)))
    case BEGIN => (match i
      case 0 => W(D(HERE)) case _ => W(P(Exit)))
    case AGAIN => (match i
      case 0 => W(P(Lit)) case 1 => S(SBranch) case 2 => W(P(Lit)) case 3 => N(6) case 4 => W(P(Find))
      case 5 => W(D(XCOMMA)) case 6 => W(D(XCOMMA)) case _ => W(P(Exit)))
    case UNTIL => (match i
      case 0 => W(P(Lit)) case 1 => S(SZBranch) case 2 => W(P(Lit)) case 3 => N(7) case 4 => W(P(Find))
      case 5 => W(D(XCOMMA)) case 6 => W(D(XCOMMA)) case _ => W(P(Exit)))
    case IF => (match i
      case 0 => W(P(Lit)) case 1 => S(SZBranch) case 2 => W(P(Lit)) case 3 => N(7) case 4 => W(P(Find))
      case 5 => W(D(XCOMMA)) case 6 => W(D(HERE)) case 7 => W(K(K0)) case 8 => W(D(XCOMMA)) case _ => W(P(Exit)))
    case THEN => (match i
      case 0 => W(D(HERE)) case 1 => W(P(Swap)) case 2 => W(P(XStore)) case _ => W(P(Exit)))
  }

  /** The words marked by IMMEDIATE(). */
  predicate Immediate(n: Name) {
    match n
    case P(op) => op.CompOff?
    case D(d) => d.SEMICOLON? || d.BEGIN? || d.AGAIN? || d.UNTIL? || d.IF? || d.THEN?
    case _ => false
  }

  predicate HasCode(m: Mem, L: Lib, base: Addr, d: Def) {
    forall i :: 0 <= i < CodeLen(d) ==> HasCell(m, base + 8 * i, CellOf(L, base, Code(d, i)))
  }

  /** Memory holds the library word or string n where L says. */
  predicate Loaded(m: Mem, L: Lib, n: Name) {
    if n.T? then L.at(n) + 2 * |StrText(n.t)| <= RAM && HasChars(m, L.at(n), StrText(n.t))
    else
      && HasWord(m, L.at(n))
      && RAM <= L.at(n) < L.top
      && var h := m[L.at(n)].h;
         && h.immediate == Immediate(n)
         && match n
            case P(op) => h.op == op
            case K(k) => h.op == DoConst && HasCell(m, h.body, KonstValue(k)) && h.body < L.top
            case D(d) => h.op == Call && HasCode(m, L, h.body, d) && h.body + 8 * CodeLen(d) <= L.top
            case T(_) => true
  }

  ghost predicate Image(m: Mem, L: Lib) {
    forall n: Name :: (n.P? && n.op.Other?) || Loaded(m, L, n)
  }

  function BodyOf(m: Mem, L: Lib, d: Def): Addr
    requires Loaded(m, L, D(d))
  {
    m[L.at(D(d))].h.body
  }

  /** The machine is about to fetch cell i of the word d. */
  ghost predicate At(s: State, L: Lib, d: Def, i: nat) {
    && Image(s.env.mem, L)
    && s.pc == Next
    && Loaded(s.env.mem, L, D(d))
    && s.ip == BodyOf(s.env.mem, L, d) + 8 * i
  }

  /** The library survives a store into user memory, of a new object, or over a character. */
  lemma ImageStore(m: Mem, L: Lib, a: Addr, c: Chunk)
    requires Image(m, L) && RAM <= a
    requires L.top <= a || a !in m || m[a].Wide?
    ensures Image(m[a := c], L)
  {
    hide Code, CodeLen, StrText, Immediate;
    forall n: Name | !(n.P? && n.op.Other?) ensures Loaded(m[a := c], L, n) {
      assert Loaded(m, L, n);
    }
  }
}
