/** The declarations of forth_init_core, forth_init_io and forth_init_interpret in the order of the source. */
module Script {
  import opened Words
  import opened Memory
  import opened Opcodes
  import opened Library
  import Stepping

  /** How many declarations there are after each of the three functions. */
  const CORE: nat := 106
  const IO: nat := 128
  const ALL: nat := 170

  /** The name that declaration i gives to its word. */
  function NameAt(i: nat): string {
    if i < 48 then StackName(i)
    else if i < CORE then CoreName(i)
    else if i < IO then IoName(i)
    else InterpretName(i)
  }

  function StackName(i: nat): string {
    match i
    case 0 => "NOOP" case 1 => "HALT" case 2 => "BRANCH" case 3 => "ZBRANCH" case 4 => "EXIT" case 5 => "CALL"
    case 6 => "LIT" case 7 => "DOCONST" case 8 => "TRUE" case 9 => "FALSE" case 10 => "=CHK" case 11 => "EXECUTE"
    case 12 => "PZCHK" case 13 => "DBGOFF" case 14 => "DBGON" case 15 => "$0" case 16 => "$1" case 17 => "$2"
    case 18 => "$3" case 19 => "$4" case 20 => "$5" case 21 => "$6" case 22 => "$7" case 23 => "$8" case 24 => "$9"
    case 25 => "$A" case 26 => "$B" case 27 => "$C" case 28 => "$D" case 29 => "$E" case 30 => "$F"
    case 31 => "DROP" case 32 => "DUP" case 33 => "SWAP" case 34 => "NIP" case 35 => "OVER" case 36 => ">R"
    case 37 => "R>" case 38 => "PICK" case 39 => "DEPTH" case 40 => "ROT" case 41 => "-ROT" case 42 => "2DROP"
    case 43 => "2DUP" case 44 => "2SWAP" case 45 => "2OVER" case 46 => "2ROT" case 47 => "2-ROT"
    case _ => ""
  }

  function CoreName(i: nat): string {
    match i
    case 48 => "+" case 49 => "1+" case 50 => "-" case 51 => "1-" case 52 => "*" case 53 => "2*" case 54 => "/"
    case 55 => "2/" case 56 => "LSHIFT" case 57 => "RSHIFT" case 58 => "AND" case 59 => "OR" case 60 => "XOR"
    case 61 => "INVERT" case 62 => "NEGATE" case 63 => "MOD" case 64 => "=" case 65 => "<>" case 66 => "0="
    case 67 => "0<>" case 68 => "<" case 69 => ">" case 70 => "U<" case 71 => "U>" case 72 => "DP" case 73 => "UP@"
    case 74 => "STA@" case 75 => "FORTH-STA-PSER" case 76 => "C@" case 77 => "W@" case 78 => "L@" case 79 => "X@"
    case 80 => "HERE" case 81 => "PAD" case 82 => "C!" case 83 => "W!" case 84 => "L!" case 85 => "X!"
    case 86 => "ALLOT" case 87 => "C," case 88 => "W," case 89 => "L," case 90 => "X," case 91 => "PSP-RST"
    case 92 => "EARLY-ECHO-OFF" case 93 => "EARLY-ECHO-ON" case 94 => "EARLY-CLR" case 95 => "TASK-NEW"
    case 96 => "CMOVE" case 97 => "WMOVE" case 98 => "LMOVE" case 99 => "XMOVE" case 100 => "CFILL"
    case 101 => "WFILL" case 102 => "LFILL" case 103 => "XFILL" case 104 => "ALLOCATE" case 105 => "FREE"
    case _ => ""
  }

  function IoName(i: nat): string {
    match i
    case 106 => "EARLY-WEMIT" case 107 => "EARLY-WKEY" case 108 => "USER-WEMIT" case 109 => "USER-WKEY"
    case 110 => "WEMIT" case 111 => "WKEY" case 112 => "WTYPE" case 113 => "NUM4BIT>WHEX" case 114 => "NHEX."
    case 115 => "XHEX." case 116 => "USER-." case 117 => "." case 118 => "SPACE" case 119 => "CR" case 120 => ".S"
    case 121 => "DELAYUS" case 122 => "DELAYMS" case 123 => "DELAYS" case 124 => "CDUMP" case 125 => "WDUMP"
    case 126 => "LDUMP" case 127 => "XDUMP"
    case _ => ""
  }

  function InterpretName(i: nat): string {
    match i
    case 128 => "FIND" case 129 => "]" case 130 => "[" case 131 => "COMPILE?" case 132 => "IMMEDIATE?"
    case 133 => "WIB" case 134 => "WIN" case 135 => "FORTH-NAME-MAXLEN" case 136 => "WIB-RST"
    case 137 => "WIB-PUSH" case 138 => "DELIM?" case 139 => "_WIB-WORD" case 140 => "WIB-WORD"
    case 141 => "INTERPRET-RST" case 142 => "INTERPRET-FIX" case 143 => "NUMBER?" case 144 => ">NUMBER"
    case 145 => "INTERPRET" case 146 => "INTERPRET-LOOP" case 147 => "WORD-NEW" case 148 => ":"
    case 149 => "LATEST" case 150 => "XT>WNAME" case 151 => "XT>WNLEN" case 152 => "XT>PREV" case 153 => "XT>BODY"
    case 154 => "XT>WDESC" case 155 => "XT>WDLEN" case 156 => "BLEN@" case 157 => "BLEN!" case 158 => ";"
    case 159 => "WORDS" case 160 => "BEGIN" case 161 => "AGAIN" case 162 => "UNTIL" case 163 => "IF"
    case 164 => "THEN" case 165 => "'" case 166 => "(" case 167 => "\\" case 168 => "W\"" case 169 => "HELP"
    case _ => ""
  }

  /** A declaration makes a word of the library, or another one. */
  datatype Decl = Own(n: Name) | Outside

  function Declared(i: nat): Decl {
    if i < 48 then StackDecl(i)
    else if i < CORE then CoreDecl(i)
    else if i < IO then IoDecl(i)
    else InterpretDecl(i)
  }

  function StackDecl(i: nat): Decl {
    match i
    case 0 => Own(P(Noop)) case 1 => Own(P(HaltOp)) case 2 => Own(P(Branch)) case 3 => Own(P(ZBranch))
    case 4 => Own(P(Exit)) case 5 => Own(P(Call)) case 6 => Own(P(Lit)) case 7 => Own(P(DoConst))
    case 8 => Own(K(KTrue)) case 9 => Own(K(KFalse)) case 10 => Own(P(EqChk)) case 11 => Own(P(Execute))
    case 12 => Own(P(PzChk)) case 15 => Own(K(K0)) case 16 => Own(K(K1)) case 17 => Own(K(K2)) case 18 => Own(K(K3))
    case 19 => Own(K(K4)) case 20 => Own(K(K5)) case 21 => Own(K(K6)) case 22 => Own(K(K7)) case 23 => Own(K(K8))
    case 24 => Own(K(K9)) case 25 => Own(K(KA)) case 26 => Own(K(KB)) case 27 => Own(K(KC)) case 28 => Own(K(KD))
    case 29 => Own(K(KE)) case 30 => Own(K(KF)) case 31 => Own(P(Drop)) case 32 => Own(P(Dup))
    case 33 => Own(P(Swap)) case 34 => Own(P(Nip)) case 35 => Own(P(Over)) case 36 => Own(P(ToR))
    case 37 => Own(P(FromR)) case 38 => Own(P(Pick)) case 39 => Own(P(Depth)) case 40 => Own(D(ROT))
    case 41 => Own(D(MROT)) case 42 => Own(D(TWODROP)) case 43 => Own(D(TWODUP)) case 44 => Own(D(TWOSWAP))
    case 45 => Own(D(TWOOVER)) case 46 => Own(D(TWOROT)) case 47 => Own(D(TWOMROT))
    case _ => Outside
  }

  function CoreDecl(i: nat): Decl {
    match i
    case 48 => Own(P(Plus)) case 49 => Own(P(OnePlus)) case 50 => Own(P(Minus)) case 51 => Own(P(OneMinus))
    case 52 => Own(P(Multi)) case 53 => Own(P(TwoMulti)) case 54 => Own(P(Divid)) case 55 => Own(P(TwoDivid))
    case 56 => Own(P(LShift)) case 57 => Own(P(RShift)) case 58 => Own(P(AndOp)) case 59 => Own(P(OrOp))
    case 60 => Own(P(XorOp)) case 61 => Own(P(Invert)) case 62 => Own(P(Negate)) case 63 => Own(P(Mod))
    case 64 => Own(P(Eq)) case 65 => Own(P(Ne)) case 66 => Own(P(EqZ)) case 67 => Own(P(NeZ)) case 68 => Own(P(Lt))
    case 69 => Own(P(Gt)) case 70 => Own(P(ULt)) case 71 => Own(P(UGt)) case 72 => Own(P(DpVar))
    case 74 => Own(P(StaLoad)) case 75 => Own(K(KPser)) case 76 => Own(P(CLoad)) case 77 => Own(P(WLoad))
    case 78 => Own(P(LLoad)) case 79 => Own(P(XLoad)) case 80 => Own(D(HERE)) case 82 => Own(P(CStore))
    case 83 => Own(P(WStore)) case 84 => Own(P(LStore)) case 85 => Own(P(XStore)) case 86 => Own(D(ALLOT))
    case 90 => Own(D(XCOMMA)) case 91 => Own(P(PspRst))
    case _ => Outside
  }

  function IoDecl(i: nat): Decl {
    match i
    case 106 => Own(P(EarlyWEmit)) case 107 => Own(P(EarlyWKey)) case 108 => Own(P(UserWEmit))
    case 109 => Own(P(UserWKey)) case 110 => Own(D(WEMIT)) case 111 => Own(D(WKEY)) case 112 => Own(D(WTYPE))
    case 113 => Own(D(NIBBLE)) case 114 => Own(D(NHEX)) case 115 => Own(D(XHEX)) case 116 => Own(P(UserDot))
    case 117 => Own(D(DOT)) case 118 => Own(D(SPACE)) case 119 => Own(D(CR)) case 120 => Own(D(DOTS))
    case 121 => Own(P(DelayUs))
    case _ => Outside
  }

  function InterpretDecl(i: nat): Decl {
    match i
    case 128 => Own(P(Find)) case 129 => Own(P(CompOn)) case 130 => Own(P(CompOff)) case 131 => Own(P(CompSta))
    case 132 => Own(P(IsImmediate)) case 133 => Own(P(Wib)) case 134 => Own(P(Win)) case 135 => Own(K(KMaxlen))
    case 136 => Own(D(WIBRST)) case 137 => Own(D(WIBPUSH)) case 138 => Own(D(DELIM)) case 139 => Own(D(INNERWORD))
    case 140 => Own(D(WIBWORD)) case 141 => Own(D(INTERPRETRST)) case 142 => Own(D(INTERPRETFIX))
    case 143 => Own(P(IsNumber)) case 144 => Own(P(ToNumber)) case 145 => Own(D(INTERPRET))
    case 146 => Own(D(INTERPRETLOOP)) case 147 => Own(P(WordNew)) case 148 => Own(D(COLON))
    case 149 => Own(K(KLatest)) case 152 => Own(P(XtToPrev)) case 153 => Own(P(XtToBody))
    case 156 => Own(P(BlenLoad)) case 157 => Own(P(BlenStore)) case 158 => Own(D(SEMICOLON))
    case 160 => Own(D(BEGIN)) case 161 => Own(D(AGAIN)) case 162 => Own(D(UNTIL)) case 163 => Own(D(IF))
    case 164 => Own(D(THEN))
    case _ => Outside
  }

  /** Where the declaration of a library word stands. */
  function Order(n: Name): nat {
    match n
    case P(op) => OpOrder(op)
    case K(k) => KonstOrder(k)
    case D(d) => DefOrder(d)
    case T(_) => ALL
  }

  function OpOrder(op: Op): nat {
    match op
    case Noop => 0 case HaltOp => 1 case Branch => 2 case ZBranch => 3 case Exit => 4 case Call => 5 case Lit => 6
    case DoConst => 7 case EqChk => 10 case Execute => 11 case PzChk => 12 case Drop => 31 case Dup => 32
    case Swap => 33 case Nip => 34 case Over => 35 case ToR => 36 case FromR => 37 case Pick => 38 case Depth => 39
    case Plus => 48 case OnePlus => 49 case Minus => 50 case OneMinus => 51 case Multi => 52 case TwoMulti => 53
    case Divid => 54 case TwoDivid => 55 case LShift => 56 case RShift => 57 case AndOp => 58 case OrOp => 59
    case XorOp => 60 case Invert => 61 case Negate => 62 case Mod => 63 case Eq => 64 case Ne => 65 case EqZ => 66
    case NeZ => 67 case Lt => 68 case Gt => 69 case ULt => 70 case UGt => 71 case DpVar => 72 case StaLoad => 74
    case CLoad => 76 case WLoad => 77 case LLoad => 78 case XLoad => 79 case CStore => 82 case WStore => 83
    case LStore => 84 case XStore => 85 case PspRst => 91 case EarlyWEmit => 106 case EarlyWKey => 107
    case UserWEmit => 108 case UserWKey => 109 case UserDot => 116 case DelayUs => 121 case Find => 128
    case CompOn => 129 case CompOff => 130 case CompSta => 131 case IsImmediate => 132 case Wib => 133
    case Win => 134 case IsNumber => 143 case ToNumber => 144 case WordNew => 147 case XtToPrev => 152
    case XtToBody => 153 case BlenLoad => 156 case BlenStore => 157
    case Other(_) => ALL
  }

  function KonstOrder(k: Konst): nat {
    match k
    case K0 => 15 case K1 => 16 case K2 => 17 case K3 => 18 case K4 => 19 case K5 => 20 case K6 => 21 case K7 => 22
    case K8 => 23 case K9 => 24 case KA => 25 case KB => 26 case KC => 27 case KD => 28 case KE => 29 case KF => 30
    case KTrue => 8 case KFalse => 9 case KPser => 75 case KMaxlen => 135 case KLatest => 149
  }

  function DefOrder(d: Def): nat {
    match d
    case ROT => 40 case MROT => 41 case TWODROP => 42 case TWODUP => 43 case TWOSWAP => 44 case TWOOVER => 45
    case TWOROT => 46 case TWOMROT => 47 case HERE => 80 case ALLOT => 86 case XCOMMA => 90 case WEMIT => 110
    case WKEY => 111 case WTYPE => 112 case NIBBLE => 113 case NHEX => 114 case XHEX => 115 case DOT => 117
    case SPACE => 118 case CR => 119 case DOTS => 120 case WIBRST => 136 case WIBPUSH => 137 case DELIM => 138
    case INNERWORD => 139 case WIBWORD => 140 case INTERPRETRST => 141 case INTERPRETFIX => 142
    case INTERPRET => 145 case INTERPRETLOOP => 146 case COLON => 148 case SEMICOLON => 158 case BEGIN => 160
    case AGAIN => 161 case UNTIL => 162 case IF => 163 case THEN => 164
  }

  predicate IsOwn(n: Name) {
    match n
    case P(op) => !op.Other?
    case T(_) => false
    case _ => true
  }

  function Spelling(n: Name): string {
    NameAt(Order(n))
  }

  lemma Ordered0()
    ensures forall i :: 0 <= i < 24 ==> StackDecl(i).Own? ==> Order(StackDecl(i).n) == i
  {
  }

  lemma Ordered24()
    ensures forall i :: 24 <= i < 48 ==> StackDecl(i).Own? ==> Order(StackDecl(i).n) == i
  {
  }

  lemma Ordered48()
    ensures forall i :: 48 <= i < 60 ==> CoreDecl(i).Own? ==> Order(CoreDecl(i).n) == i
  {
  }

  lemma Ordered60()
    ensures forall i :: 60 <= i < 66 ==> CoreDecl(i).Own? ==> Order(CoreDecl(i).n) == i
  {
  }

  lemma Ordered66()
    ensures forall i :: 66 <= i < 72 ==> CoreDecl(i).Own? ==> Order(CoreDecl(i).n) == i
  {
  }

  lemma Ordered72()
    ensures forall i :: 72 <= i < 78 ==> CoreDecl(i).Own? ==> Order(CoreDecl(i).n) == i
  {
  }

  lemma Ordered78()
    ensures forall i :: 78 <= i < 84 ==> CoreDecl(i).Own? ==> Order(CoreDecl(i).n) == i
  {
  }

  lemma Ordered84()
    ensures forall i :: 84 <= i < 90 ==> CoreDecl(i).Own? ==> Order(CoreDecl(i).n) == i
  {
  }

  lemma Ordered90()
    ensures forall i :: 90 <= i < 106 ==> CoreDecl(i).Own? ==> Order(CoreDecl(i).n) == i
  {
  }

  lemma Ordered106()
    ensures forall i :: 106 <= i < 114 ==> IoDecl(i).Own? ==> Order(IoDecl(i).n) == i
  {
  }

  lemma Ordered114()
    ensures forall i :: 114 <= i < 128 ==> IoDecl(i).Own? ==> Order(IoDecl(i).n) == i
  {
  }

  lemma Ordered128()
    ensures forall i :: 128 <= i < 132 ==> InterpretDecl(i).Own? ==> Order(InterpretDecl(i).n) == i
  {
  }

  lemma Ordered132()
    ensures forall i :: 132 <= i < 142 ==> InterpretDecl(i).Own? ==> Order(InterpretDecl(i).n) == i
  {
  }

  lemma Ordered142()
    ensures forall i :: 142 <= i < 149 ==> InterpretDecl(i).Own? ==> Order(InterpretDecl(i).n) == i
  {
  }

  lemma Ordered149()
    ensures forall i :: 149 <= i < 154 ==> InterpretDecl(i).Own? ==> Order(InterpretDecl(i).n) == i
  {
  }

  lemma Ordered154()
    ensures forall i :: 154 <= i < 159 ==> InterpretDecl(i).Own? ==> Order(InterpretDecl(i).n) == i
  {
  }

  lemma Ordered159()
    ensures forall i :: 159 <= i < 170 ==> InterpretDecl(i).Own? ==> Order(InterpretDecl(i).n) == i
  {
  }

  // Each library word is declared once.

  lemma DeclaredOrder(i: nat)
    requires i < ALL && Declared(i).Own?
    ensures Order(Declared(i).n) == i && IsOwn(Declared(i).n)
  {
    hide StackDecl, CoreDecl, IoDecl, InterpretDecl, Order;
    Ordered0();
    Ordered24();
    Ordered48();
    Ordered60();
    Ordered66();
    Ordered72();
    Ordered78();
    Ordered84();
    Ordered90();
    Ordered106();
    Ordered114();
    Ordered128();
    Ordered132();
    Ordered142();
    Ordered149();
    Ordered154();
    Ordered159();
    OrderOwn(Declared(i).n);
  }

  lemma OrderOwn(n: Name)
    ensures Order(n) < ALL <==> IsOwn(n)
  {
  }

  lemma Ops0(op: Op)
    requires op.Noop? || op.HaltOp? || op.Branch? || op.ZBranch? || op.Exit? || op.Call?
      || op.Lit? || op.DoConst? || op.EqChk? || op.Execute? || op.PzChk? || op.Drop?
      || op.Dup? || op.Swap? || op.Nip? || op.Over?
    ensures Declared(OpOrder(op)) == Own(P(op))
  {
  }

  lemma Ops16(op: Op)
    requires op.ToR? || op.FromR? || op.Pick? || op.Depth? || op.Plus? || op.OnePlus?
      || op.Minus? || op.OneMinus? || op.Multi? || op.TwoMulti? || op.Divid? || op.TwoDivid?
    ensures Declared(OpOrder(op)) == Own(P(op))
  {
  }

  lemma Ops28(op: Op)
    requires op.LShift? || op.RShift? || op.AndOp? || op.OrOp? || op.XorOp? || op.Invert?
      || op.Negate? || op.Mod? || op.Eq?
    ensures Declared(OpOrder(op)) == Own(P(op))
  {
  }

  lemma Ops37(op: Op)
    requires op.Ne? || op.EqZ? || op.NeZ? || op.Lt? || op.Gt? || op.ULt?
    ensures Declared(OpOrder(op)) == Own(P(op))
  {
  }

  lemma Ops43(op: Op)
    requires op.UGt? || op.DpVar? || op.StaLoad? || op.CLoad? || op.WLoad?
    ensures Declared(OpOrder(op)) == Own(P(op))
  {
  }

  lemma Ops48(op: Op)
    requires op.LLoad? || op.XLoad? || op.CStore? || op.WStore? || op.LStore?
    ensures Declared(OpOrder(op)) == Own(P(op))
  {
  }

  lemma Ops53(op: Op)
    requires op.XStore? || op.PspRst? || op.EarlyWEmit? || op.EarlyWKey? || op.UserWEmit?
    ensures Declared(OpOrder(op)) == Own(P(op))
  {
  }

  lemma Ops58(op: Op)
    requires op.UserWKey? || op.UserDot? || op.DelayUs? || op.Find? || op.CompOn?
    ensures Declared(OpOrder(op)) == Own(P(op))
  {
  }

  lemma Ops63(op: Op)
    requires op.CompOff? || op.CompSta? || op.IsImmediate? || op.Wib?
    ensures Declared(OpOrder(op)) == Own(P(op))
  {
  }

  lemma Ops67(op: Op)
    requires op.Win? || op.IsNumber? || op.ToNumber? || op.WordNew?
    ensures Declared(OpOrder(op)) == Own(P(op))
  {
  }

  lemma Ops71(op: Op)
    requires op.XtToPrev? || op.XtToBody? || op.BlenLoad? || op.BlenStore?
    ensures Declared(OpOrder(op)) == Own(P(op))
  {
  }

  lemma Defs0(d: Def)
    requires d.ROT? || d.MROT? || d.TWODROP? || d.TWODUP? || d.TWOSWAP? || d.TWOOVER? || d.TWOROT? || d.TWOMROT?
    ensures Declared(DefOrder(d)) == Own(D(d))
  {
  }

  lemma Defs8(d: Def)
    requires d.HERE? || d.ALLOT? || d.XCOMMA? || d.WEMIT? || d.WKEY? || d.WTYPE? || d.NIBBLE? || d.NHEX?
    ensures Declared(DefOrder(d)) == Own(D(d))
  {
  }

  lemma Defs16(d: Def)
    requires d.XHEX? || d.DOT? || d.SPACE? || d.CR? || d.DOTS? || d.WIBRST? || d.WIBPUSH? || d.DELIM?
    ensures Declared(DefOrder(d)) == Own(D(d))
  {
  }

  lemma Defs24(d: Def)
    requires d.INNERWORD? || d.WIBWORD? || d.INTERPRETRST? || d.INTERPRETFIX? || d.INTERPRET? || d.INTERPRETLOOP?
      || d.COLON? || d.SEMICOLON?
    ensures Declared(DefOrder(d)) == Own(D(d))
  {
  }

  lemma Defs32(d: Def)
    requires d.BEGIN? || d.AGAIN? || d.UNTIL? || d.IF? || d.THEN?
    ensures Declared(DefOrder(d)) == Own(D(d))
  {
  }

  lemma Konsts(k: Konst)
    ensures Declared(KonstOrder(k)) == Own(K(k))
  {
  }

  lemma OpsDeclared(op: Op)
    requires !op.Other?
    ensures Declared(OpOrder(op)) == Own(P(op))
  {
    hide Declared, OpOrder;
    if op.Noop? || op.HaltOp? || op.Branch? || op.ZBranch? || op.Exit? || op.Call?
      || op.Lit? || op.DoConst? || op.EqChk? || op.Execute? || op.PzChk? || op.Drop?
      || op.Dup? || op.Swap? || op.Nip? || op.Over? { Ops0(op); }
    if op.ToR? || op.FromR? || op.Pick? || op.Depth? || op.Plus? || op.OnePlus?
      || op.Minus? || op.OneMinus? || op.Multi? || op.TwoMulti? || op.Divid? || op.TwoDivid? { Ops16(op); }
    if op.LShift? || op.RShift? || op.AndOp? || op.OrOp? || op.XorOp? || op.Invert?
      || op.Negate? || op.Mod? || op.Eq? { Ops28(op); }
    if op.Ne? || op.EqZ? || op.NeZ? || op.Lt? || op.Gt? || op.ULt? { Ops37(op); }
    if op.UGt? || op.DpVar? || op.StaLoad? || op.CLoad? || op.WLoad? { Ops43(op); }
    if op.LLoad? || op.XLoad? || op.CStore? || op.WStore? || op.LStore? { Ops48(op); }
    if op.XStore? || op.PspRst? || op.EarlyWEmit? || op.EarlyWKey? || op.UserWEmit? { Ops53(op); }
    if op.UserWKey? || op.UserDot? || op.DelayUs? || op.Find? || op.CompOn? { Ops58(op); }
    if op.CompOff? || op.CompSta? || op.IsImmediate? || op.Wib? { Ops63(op); }
    if op.Win? || op.IsNumber? || op.ToNumber? || op.WordNew? { Ops67(op); }
    if op.XtToPrev? || op.XtToBody? || op.BlenLoad? || op.BlenStore? { Ops71(op); }
  }

  lemma DefsDeclared(d: Def)
    ensures Declared(DefOrder(d)) == Own(D(d))
  {
    hide Declared, DefOrder;
    if d.ROT? || d.MROT? || d.TWODROP? || d.TWODUP? || d.TWOSWAP? || d.TWOOVER?
      || d.TWOROT? || d.TWOMROT? { Defs0(d); }
    if d.HERE? || d.ALLOT? || d.XCOMMA? || d.WEMIT? || d.WKEY? || d.WTYPE?
      || d.NIBBLE? || d.NHEX? { Defs8(d); }
    if d.XHEX? || d.DOT? || d.SPACE? || d.CR? || d.DOTS? || d.WIBRST?
      || d.WIBPUSH? || d.DELIM? { Defs16(d); }
    if d.INNERWORD? || d.WIBWORD? || d.INTERPRETRST? || d.INTERPRETFIX? || d.INTERPRET? || d.INTERPRETLOOP?
      || d.COLON? || d.SEMICOLON? { Defs24(d); }
    if d.BEGIN? || d.AGAIN? || d.UNTIL? || d.IF? || d.THEN?
      { Defs32(d); }
  }

  lemma OrderDeclared(n: Name)
    requires IsOwn(n)
    ensures Declared(Order(n)) == Own(n)
  {
    hide Declared, OpOrder, KonstOrder, DefOrder;
    match n {
      case P(op) => OpsDeclared(op);
      case K(k) => Konsts(k);
      case D(d) => DefsDeclared(d);
    }
  }

  /** No two library words are declared at the same place. */
  lemma OrderApart(m: Name, n: Name)
    requires IsOwn(m) && IsOwn(n) && Order(m) == Order(n)
    ensures m == n
  {
    hide Order, Declared;
    OrderDeclared(m);
    OrderDeclared(n);
  }

  lemma UsesInterpret()
    ensures forall i :: 0 <= i < CodeLen(INTERPRET) && Code(INTERPRET, i).W? ==>
      Order(Code(INTERPRET, i).n) < Order(D(INTERPRET))
  {
  }

  lemma UsesFew(d: Def)
    requires CodeLen(d) <= 4
    ensures forall i :: 0 <= i < CodeLen(d) && Code(d, i).W? ==> Order(Code(d, i).n) < Order(D(d))
  {
  }

  lemma UsesSome(d: Def)
    requires 4 < CodeLen(d) <= 10
    ensures forall i :: 0 <= i < CodeLen(d) && Code(d, i).W? ==> Order(Code(d, i).n) < Order(D(d))
  {
  }

  lemma UsesMany(d: Def)
    requires CodeLen(d) > 10 && !d.INTERPRET?
    ensures forall i :: 0 <= i < CodeLen(d) && Code(d, i).W? ==> Order(Code(d, i).n) < Order(D(d))
  {
  }

  /** The code of a word uses words declared before it. */
  lemma UsesEarlier(d: Def)
    ensures forall i :: 0 <= i < CodeLen(d) && Code(d, i).W? ==> Order(Code(d, i).n) < Order(D(d))
  {
    hide Code, CodeLen, Order;
    if d.INTERPRET? {
      UsesInterpret();
    } else if CodeLen(d) <= 4 {
      UsesFew(d);
    } else if CodeLen(d) <= 10 {
      UsesSome(d);
    } else {
      UsesMany(d);
    }
  }

  // The names are all different: four of their characters tell them apart. To show it without comparing each
  // pair, Tell takes the key of a name back to the declaration that gives it.

  /** The first, the middle, the last but one and the last character of a name, as the digits of a number to
      the base 128. No two of the 170 names agree in all four. */
  function Key(s: string): nat {
    if s == "" then 0
    else
      ((s[0] as nat * 128 + s[|s| / 2] as nat) * 128 + (if |s| > 1 then s[|s| - 2] as nat else 0)) * 128
      + s[|s| - 1] as nat
  }

  /** The declaration whose name has the key k, by binary search: the 170 keys are put in order, and each
      comparison is with the least key of the upper half of those still in question. The sixteen functions Near0 to
      Near15 finish the search among ten or eleven neighbours in this order. */
  function Tell(k: nat): nat {
    if k < 148185810 then (if k < 129115211 then (if k < 95676372 then (if k < 76567105 then Near0(k) else
    Near1(k)) else if k < 106162132 then Near2(k) else Near3(k)) else if k < 143681235 then (if k < 139584718
    then Near4(k) else Near5(k)) else if k < 145449689 then Near6(k) else Near7(k)) else if k < 179004121 then
    (if k < 164653637 then (if k < 154446292 then Near8(k) else Near9(k)) else if k < 168878539 then Near10(k)
    else Near11(k)) else if k < 183854800 then (if k < 183198423 then Near12(k) else Near13(k)) else if k <
    185836238 then Near14(k) else Near15(k)
  }

  function Near0(k: nat): nat {
    if k < 76370485 then (if k < 76321330 then (if k < 76304945 then 15 else 16) else if k < 76337715 then 17
    else if k < 76354100 then 18 else 19) else if k < 76403255 then (if k < 76386870 then 20 else 21) else if
    k < 76419640 then 22 else if k < 76436025 then 23 else 24
  }

  function Near1(k: nat): nat {
    if k < 76649030 then (if k < 76599875 then (if k < 76583490 then 25 else 26) else if k < 76616260 then 27
    else if k < 76632645 then 28 else 29) else if k < 88768554 then (if k < 82427943 then 30 else if k <
    84541480 then 165 else 166) else if k < 90882091 then 52 else if k < 95109165 then 48 else 50
  }

  function Near2(k: nat): nat {
    if k < 101668925 then (if k < 97834835 then (if k < 97222702 then 41 else 117) else if k < 99336239 then
    120 else if k < 101654078 then 54 else 67) else if k < 103504045 then (if k < 103471275 then 66 else 49)
    else if k < 105552170 then 51 else if k < 105634095 then 53 else 55
  }

  function Near3(k: nat): nat {
    if k < 106291408 then (if k < 106211284 then (if k < 106211280 then 46 else 42) else if k < 106261200 then
    47 else if k < 106275538 then 43 else 45) else if k < 126812220 then (if k < 122585146 then 44 else if k <
    124698683 then 148 else 158) else if k < 126852670 then 68 else if k < 128925757 then 65 else 64
  }

  function Near4(k: nat): nat {
    if k < 137423429 then (if k < 131293906 then (if k < 131039294 then 10 else 69) else if k < 131374930 then
    144 else if k < 137389262 then 36 else 161) else if k < 137602884 then (if k < 137570260 then 104 else 86)
    else if k < 139552545 then 58 else if k < 139552576 then 157 else 156
  }

  function Near5(k: nat): nat {
    if k < 141714111 then (if k < 141058465 then (if k < 139698632 then 160 else 2) else if k < 141238700 then
    82 else if k < 141566400 then 87 else 76) else if k < 141814597 then (if k < 141715020 then 131 else if k
    < 141764172 then 100 else 5) else if k < 141861330 then 96 else if k < 141911760 then 119 else 124
  }

  function Near6(k: nat): nat {
    if k < 143909702 then (if k < 143682771 then (if k < 143682259 then 122 else 121) else if k < 143779790
    then 123 else if k < 143812287 then 14 else 138) else if k < 143925840 then (if k < 143910864 then 13 else
    if k < 143911380 then 31 else 7) else if k < 143927880 then 72 else if k < 144009936 then 39 else 32
  }

  function Near7(k: nat): nat {
    if k < 145908948 then (if k < 145810246 then (if k < 145450196 then 107 else 106) else if k < 145812037
    then 92 else if k < 145844174 then 11 else 93) else if k < 148056517 then (if k < 146171474 then 4 else if
    k < 147940037 then 94 else 105) else if k < 148071118 then 9 else if k < 148088644 then 135 else 128
  }

  function Near8(k: nat): nat {
    if k < 154233172 then (if k < 152249940 then (if k < 152249936 then 75 else 169) else if k < 152348997
    then 1 else if k < 154232784 then 80 else 146) else if k < 154297023 then (if k < 154248390 then 61 else
    163) else if k < 154444500 then 132 else if k < 154445016 then 145 else 142
  }

  function Near9(k: nat): nat {
    if k < 160588628 then (if k < 160114220 then (if k < 159933985 then 141 else 84) else if k < 160441920
    then 89 else if k < 160524756 then 78 else 149) else if k < 160688965 then (if k < 160589012 then 56 else
    if k < 160589388 then 6 else 102) else if k < 160786128 then 98 else if k < 162785220 then 126 else 63
  }

  function Near10(k: nat): nat {
    if k < 164963032 then (if k < 164719662 then (if k < 164669759 then 62 else 143) else if k < 164783312
    then 114 else if k < 164882384 then 34 else 0) else if k < 167028690 then (if k < 166814418 then 113 else
    35) else if k < 168520148 then 59 else if k < 168845508 then 91 else 81
  }

  function Near11(k: nat): nat {
    if k < 175136960 then (if k < 172992830 then (if k < 168879179 then 38 else 12) else if k < 173171540 then
    37 else if k < 173270996 then 57 else 40) else if k < 176906967 then (if k < 175136976 then 74 else if k <
    175137221 then 33 else 118) else if k < 177300174 then 95 else if k < 177564357 then 164 else 8
  }

  function Near12(k: nat): nat {
    if k < 179643596 then (if k < 179284670 then (if k < 179251900 then 109 else 70) else if k < 179578944
    then 71 else if k < 179607214 then 73 else 116) else if k < 183004065 then (if k < 179692756 then 162 else
    108) else if k < 183020450 then 83 else if k < 183184300 then 168 else 88
  }

  function Near13(k: nat): nat {
    if k < 183657678 then (if k < 183512000 then (if k < 183200212 then 147 else 136) else if k < 183591641
    then 77 else if k < 183657666 then 111 else 133) else if k < 183757637 then (if k < 183658060 then 134
    else if k < 183723220 then 101 else 110) else if k < 183773640 then 97 else if k < 183804499 then 137 else
    159
  }

  function Near14(k: nat): nat {
    if k < 185609280 then (if k < 183920709 then (if k < 183888196 then 125 else 140) else if k < 185101345
    then 112 else if k < 185281580 then 85 else 90) else if k < 185674179 then (if k < 185639513 then 79 else
    if k < 185672398 then 153 else 155) else if k < 185691182 then 154 else if k < 185755212 then 115 else 103
  }

  function Near15(k: nat): nat {
    if k < 185951952 then (if k < 185853906 then (if k < 185837253 then 151 else 150) else if k < 185854789
    then 60 else if k < 185869014 then 99 else 152) else if k < 194445404 then (if k < 189817288 then 127 else
    if k < 192331867 then 3 else 130) else if k < 196558941 then 167 else if k < 199977284 then 129 else 139
  }

  lemma Names0()
    ensures forall i :: 0 <= i < 16 ==> Tell(Key(StackName(i))) == i
  {
  }

  lemma Names16()
    ensures forall i :: 16 <= i < 32 ==> Tell(Key(StackName(i))) == i
  {
  }

  lemma Names32()
    ensures forall i :: 32 <= i < 48 ==> Tell(Key(StackName(i))) == i
  {
  }

  lemma Names48()
    ensures forall i :: 48 <= i < 64 ==> Tell(Key(CoreName(i))) == i
  {
  }

  lemma Names64()
    ensures forall i :: 64 <= i < 76 ==> Tell(Key(CoreName(i))) == i
  {
  }

  lemma Names76()
    ensures forall i :: 76 <= i < 82 ==> Tell(Key(CoreName(i))) == i
  {
  }

  lemma Names82()
    ensures forall i :: 82 <= i < 92 ==> Tell(Key(CoreName(i))) == i
  {
  }

  lemma Names92()
    ensures forall i :: 92 <= i < 97 ==> Tell(Key(CoreName(i))) == i
  {
  }

  lemma Names97()
    ensures forall i :: 97 <= i < 106 ==> Tell(Key(CoreName(i))) == i
  {
  }

  lemma Names106()
    ensures forall i :: 106 <= i < 112 ==> Tell(Key(IoName(i))) == i
  {
  }

  lemma Names112()
    ensures forall i :: 112 <= i < 120 ==> Tell(Key(IoName(i))) == i
  {
  }

  lemma Names120()
    ensures forall i :: 120 <= i < 128 ==> Tell(Key(IoName(i))) == i
  {
  }

  lemma Names128()
    ensures forall i :: 128 <= i < 134 ==> Tell(Key(InterpretName(i))) == i
  {
  }

  lemma Names134()
    ensures forall i :: 134 <= i < 138 ==> Tell(Key(InterpretName(i))) == i
  {
  }

  lemma Names138()
    ensures forall i :: 138 <= i < 143 ==> Tell(Key(InterpretName(i))) == i
  {
  }

  lemma Names143()
    ensures forall i :: 143 <= i < 148 ==> Tell(Key(InterpretName(i))) == i
  {
  }

  lemma Names148()
    ensures forall i :: 148 <= i < 154 ==> Tell(Key(InterpretName(i))) == i
  {
  }

  lemma Names154()
    ensures forall i :: 154 <= i < 160 ==> Tell(Key(InterpretName(i))) == i
  {
  }

  lemma Names160()
    ensures forall i :: 160 <= i < 170 ==> Tell(Key(InterpretName(i))) == i
  {
  }

  /** Nothing but printable characters, and not many. */
  predicate Visible(s: string) {
    0 < |s| <= 64 && forall k :: 0 <= k < |s| ==> '!' <= s[k] <= '~'
  }

  lemma Clean0()
    ensures forall i :: 0 <= i < 24 ==> Visible(StackName(i))
  {
  }

  lemma Clean24()
    ensures forall i :: 24 <= i < 48 ==> Visible(StackName(i))
  {
  }

  lemma Clean48()
    ensures forall i :: 48 <= i < 62 ==> Visible(CoreName(i))
  {
  }

  lemma Clean62()
    ensures forall i :: 62 <= i < 76 ==> Visible(CoreName(i))
  {
  }

  lemma Clean76()
    ensures forall i :: 76 <= i < 92 ==> Visible(CoreName(i))
  {
  }

  lemma Clean92()
    ensures forall i :: 92 <= i < 106 ==> Visible(CoreName(i))
  {
  }

  lemma Clean106()
    ensures forall i :: 106 <= i < 128 ==> Visible(IoName(i))
  {
  }

  lemma Clean128()
    ensures forall i :: 128 <= i < 140 ==> Visible(InterpretName(i))
  {
  }

  lemma Clean140()
    ensures forall i :: 140 <= i < 150 ==> Visible(InterpretName(i))
  {
  }

  lemma Clean150()
    ensures forall i :: 150 <= i < 170 ==> Visible(InterpretName(i))
  {
  }

  lemma WordKeyed(i: nat)
    requires i < ALL
    ensures Tell(Key(NameAt(i))) == i && Visible(NameAt(i)) && '\0' !in NameAt(i)
  {
    hide Key, Tell, StackName, CoreName, IoName, InterpretName, Visible;
    Names0();
    Names16();
    Names32();
    Names48();
    Names64();
    Names76();
    Names82();
    Names92();
    Names97();
    Names106();
    Names112();
    Names120();
    Names128();
    Names134();
    Names138();
    Names143();
    Names148();
    Names154();
    Names160();
    Clean0();
    Clean24();
    Clean48();
    Clean62();
    Clean76();
    Clean92();
    Clean106();
    Clean128();
    Clean140();
    Clean150();
    VisibleNoNul(NameAt(i));
  }

  lemma VisibleNoNul(s: string)
    requires Visible(s)
    ensures '\0' !in s
  {
  }

  lemma CodesClean(s: string)
    requires '\0' !in s
    ensures Terminated(Codes(s)) == Codes(s)
  {
    Stepping.TerminatedWhole(Codes(s));
  }

  lemma CodesApart(s: string, t: string)
    requires Codes(s) == Codes(t)
    ensures s == t
  {
    forall i | 0 <= i < |s| ensures s[i] == t[i] {
      assert Codes(s)[i] == s[i] as nat && Codes(t)[i] == t[i] as nat;
    }
  }

  /** No two declarations give the same name. */
  lemma NamesApart(i: nat, j: nat)
    requires i < ALL && j < ALL && Terminated(Codes(NameAt(i))) == Terminated(Codes(NameAt(j)))
    ensures i == j
  {
    hide NameAt, Key, Tell, Terminated;
    WordKeyed(i);
    WordKeyed(j);
    CodesClean(NameAt(i));
    CodesClean(NameAt(j));
    CodesApart(NameAt(i), NameAt(j));
  }

  // What comes after the library.

  /** How many words forth_init_gop and forth_init_test declare. */
  const LATER: nat := 27

  function LaterName(i: nat): string {
    match i
    case 0 => "GOP-INIT" case 1 => "GOP-CNT" case 2 => "GOP-SEL" case 3 => "GOP-CUR" case 4 => "GOP-MODE-CNT"
    case 5 => "GOP-MODE-SEL" case 6 => "GOP-MODE-CUR" case 7 => "GOP-HRES" case 8 => "GOP-VRES" case 9 => "GOP-PLOT"
    case 10 => "GOP-SOLID" case 11 => "GOP-HLINE" case 12 => "GOP-VLINE" case 13 => "GOP-FRAME"
    case 14 => "PIXEL-WHITE" case 15 => "PIXEL-BLACK" case 16 => "PIXEL-RED" case 17 => "PIXEL-GREEN"
    case 18 => "PIXEL-BLUE" case 19 => "PIXEL-YELLOW" case 20 => "PIXEL-MAGENTA" case 21 => "PIXEL-CYAN"
    case 22 => "PIXEL-GRAY" case 23 => "GOP-BLANK" case 24 => ">PIXEL" case 25 => ">COLOR"
    case _ => "SELFTEST"
  }

  /** How those names begin. */
  predicate Odd(s: string) {
    && |s| > 5
    && match s[1]
       case 'O' => s[2] == 'P'
       case 'I' => s[2] == 'X'
       case 'E' => s[0] == 'S'
       case _ => s[0] == '>' && (s[1] == 'P' || s[1] == 'C')
  }

  lemma LaterOdd()
    ensures forall i :: 0 <= i < LATER ==> Odd(LaterName(i)) && '\0' !in LaterName(i)
  {
  }

  lemma Even0()
    ensures forall i :: 0 <= i < 48 ==> !Odd(StackName(i))
  {
  }

  lemma Even48()
    ensures forall i :: 48 <= i < 106 ==> !Odd(CoreName(i))
  {
  }

  lemma Even106()
    ensures forall i :: 106 <= i < 128 ==> !Odd(IoName(i))
  {
  }

  lemma Even128()
    ensures forall i :: 128 <= i < 150 ==> !Odd(InterpretName(i))
  {
  }

  lemma Even150()
    ensures forall i :: 150 <= i < 170 ==> !Odd(InterpretName(i))
  {
  }

  lemma NotOdd(i: nat)
    requires i < ALL
    ensures !Odd(NameAt(i))
  {
    hide Odd, StackName, CoreName, IoName, InterpretName;
    Even0();
    Even48();
    Even106();
    Even128();
    Even150();
  }

  /** No word declared later takes the name of a library word. */
  lemma LaterApart(n: Name, i: nat)
    requires IsOwn(n) && i < LATER
    ensures Terminated(Codes(Spelling(n))) != Terminated(Codes(LaterName(i)))
  {
    hide NameAt, LaterName, Odd, Order, Key, Tell, Terminated;
    OrderOwn(n);
    WordKeyed(Order(n));
    NotOdd(Order(n));
    LaterOdd();
    CodesClean(Spelling(n));
    CodesClean(LaterName(i));
    if Codes(Spelling(n)) == Codes(LaterName(i)) { CodesApart(Spelling(n), LaterName(i)); }
  }
}
