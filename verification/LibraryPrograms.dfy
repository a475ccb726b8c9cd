/** The words of the library as structured programs of the compiled semantics. */
module LibraryPrograms {
  import opened Words
  import opened Memory
  import opened Opcodes
  import opened Machine
  import opened Builders
  import opened Library
  import opened DictWords
  import opened Structure
  import C = Compiler
  import S = Meaning
  import Following
  import Programs
  import Semantics
  import Watching
  import Stepping

  /** Words run one after the other, then p. */
  function Run(L: Lib, ns: seq<Name>, p: C.Prog): C.Prog {
    if ns == [] then p else C.Seq(C.Prim(L.at(ns[0])), Run(L, ns[1..], p))
  }

  /** The program a draft stands for, once the words have addresses. */
  function Addressed(L: Lib, p: Draft): C.Prog
    decreases p
  {
    match p
    case End => C.Nil
    case Compile(ns, r) => Run(L, ns, Addressed(L, r))
    case Literal(i, r) => C.Seq(C.Number(CellOf(L, 0, i)), Addressed(L, r))
    case When(q, r) => C.Seq(C.If(Addressed(L, q)), Addressed(L, r))
    case Until(q, r) => C.Seq(C.Until(Addressed(L, q)), Addressed(L, r))
    case Again(q, r) => C.Seq(C.Again(Addressed(L, q)), Addressed(L, r))
  }

  lemma CellsJoin(m: Mem, a: Addr, vs: seq<nat>, ws: seq<nat>)
    requires HasCells(m, a, vs) && HasCells(m, a + 8 * |vs|, ws)
    ensures HasCells(m, a, vs + ws)
  {
    forall i | 0 <= i < |vs + ws| ensures HasCell(m, a + 8 * i, (vs + ws)[i]) {
      if i < |vs| {
        assert HasCell(m, a + 8 * i, vs[i]);
      } else {
        assert HasCell(m, a + 8 * |vs| + 8 * (i - |vs|), ws[i - |vs|]);
      }
    }
  }

  lemma CellAt(m: Mem, L: Lib, base: Addr, d: Def, i: nat)
    requires HasCode(m, L, base, d) && i < CodeLen(d)
    ensures HasCell(m, base + 8 * i, CellOf(L, base, Code(d, i)))
  {
  }

  /** Memory holds the code of p at a. */
  ghost predicate Lies(m: Mem, L: Lib, a: Addr, p: C.Prog) {
    HasCells(m, a, C.Cells(p, a, XtsOf(L)))
  }

  lemma SeqLies(m: Mem, L: Lib, a: Addr, c: C.Cmd, r: C.Prog)
    requires HasCells(m, a, C.CellsCmd(c, a, XtsOf(L))) && Lies(m, L, a + 8 * C.LenCmd(c), r)
    ensures Lies(m, L, a, C.Seq(c, r)) && C.Len(C.Seq(c, r)) == C.LenCmd(c) + C.Len(r)
  {
    hide HasCells, C.CellsCmd, C.LenCmd;
    CellsJoin(m, a, C.CellsCmd(c, a, XtsOf(L)), C.Cells(r, a + 8 * C.LenCmd(c), XtsOf(L)));
  }

  // The code of each kind of command.

  lemma PlainCells(L: Lib, a: Addr, n: Name, v: nat)
    ensures C.CellsCmd(C.Prim(L.at(n)), a, XtsOf(L)) == [L.at(n)] && C.LenCmd(C.Prim(L.at(n))) == 1
    ensures C.CellsCmd(C.Number(v), a, XtsOf(L)) == [L.at(P(Op.Lit)), v] && C.LenCmd(C.Number(v)) == 2
  {
  }

  lemma IfCells(L: Lib, a: Addr, q: C.Prog)
    ensures C.CellsCmd(C.If(q), a, XtsOf(L))
         == [L.at(P(ZBranch)), a + 16 + 8 * C.Len(q)] + C.Cells(q, a + 16, XtsOf(L))
    ensures C.LenCmd(C.If(q)) == C.Len(q) + 2
  {
    hide C.Cells, C.Len;
  }

  lemma UntilCells(L: Lib, a: Addr, q: C.Prog)
    ensures C.CellsCmd(C.Until(q), a, XtsOf(L)) == C.Cells(q, a, XtsOf(L)) + [L.at(P(ZBranch)), a]
    ensures C.LenCmd(C.Until(q)) == C.Len(q) + 2
  {
    hide C.Cells, C.Len;
  }

  lemma AgainCells(L: Lib, a: Addr, q: C.Prog)
    ensures C.CellsCmd(C.Again(q), a, XtsOf(L)) == C.Cells(q, a, XtsOf(L)) + [L.at(P(Branch)), a]
    ensures C.LenCmd(C.Again(q)) == C.Len(q) + 2
  {
    hide C.Cells, C.Len;
  }

  lemma {:induction false} NamesLaid(m: Mem, L: Lib, base: Addr, d: Def, i: nat, ns: seq<Name>, p: C.Prog)
    requires HasCode(m, L, base, d) && Names(d, i, ns) && i + |ns| + C.Len(p) <= CodeLen(d)
    requires Lies(m, L, base + 8 * (i + |ns|), p)
    ensures C.Len(Run(L, ns, p)) == |ns| + C.Len(p) && Lies(m, L, base + 8 * i, Run(L, ns, p))
    decreases |ns|
  {
    hide Code, CodeLen, HasCells, HasCode, Lies, C.Cells, C.CellsCmd;
    if ns != [] {
      var a, q := base + 8 * i, Run(L, ns[1..], p);
      assert Code(d, i + 0) == W(ns[0]);
      NamesTail(d, i, ns);
      NamesLaid(m, L, base, d, i + 1, ns[1..], p);
      CellAt(m, L, base, d, i);
      OneCell(m, a, L.at(ns[0]));
      PlainCells(L, a, ns[0], 0);
      SeqLies(m, L, a, C.Prim(L.at(ns[0])), q);
    }
  }

  lemma NamesTail(d: Def, i: nat, ns: seq<Name>)
    requires Names(d, i, ns) && ns != []
    ensures Names(d, i + 1, ns[1..])
  {
    hide Code;
    forall k | 0 <= k < |ns[1..]| ensures Code(d, i + 1 + k) == W(ns[1..][k]) {
      assert Code(d, i + (k + 1)) == W(ns[k + 1]);
    }
  }

  lemma OneCell(m: Mem, a: Addr, v: nat)
    requires HasCell(m, a, v)
    ensures HasCells(m, a, [v])
  {
  }

  /** The code of p lies at cell i. */
  ghost predicate Fits(m: Mem, L: Lib, base: Addr, i: nat, p: Draft) {
    C.Len(Addressed(L, p)) == Count(p) && Lies(m, L, base + 8 * i, Addressed(L, p))
  }

  lemma NoCells(m: Mem, L: Lib, base: Addr, i: nat)
    ensures Fits(m, L, base, i, End)
  {
  }

  lemma CompileFits(m: Mem, L: Lib, base: Addr, d: Def, i: nat, ns: seq<Name>, r: Draft)
    requires HasCode(m, L, base, d) && Names(d, i, ns) && i + |ns| + Count(r) <= CodeLen(d)
    requires Fits(m, L, base, i + |ns|, r)
    ensures Fits(m, L, base, i, Compile(ns, r))
  {
    hide Code, CodeLen, HasCode, Names, Lies, C.Len, Run;
    NamesLaid(m, L, base, d, i, ns, Addressed(L, r));
  }

  lemma LiteralFits(m: Mem, L: Lib, base: Addr, d: Def, i: nat, v: Ins, r: Draft)
    requires HasCode(m, L, base, d) && i + 1 < CodeLen(d) && (v.N? || v.S?)
    requires Code(d, i) == W(P(Op.Lit)) && Code(d, i + 1) == v && Fits(m, L, base, i + 2, r)
    ensures Fits(m, L, base, i, Literal(v, r))
  {
    hide Code, CodeLen, HasCells, HasCode, Lies, C.Cells, C.CellsCmd, C.Len, C.LenCmd;
    var a := base + 8 * i;
    CellAt(m, L, base, d, i);
    CellAt(m, L, base, d, i + 1);
    TwoCells(m, a, L.at(P(Op.Lit)), CellOf(L, 0, v));
    PlainCells(L, a, P(Op.Lit), CellOf(L, 0, v));
    SeqLies(m, L, a, C.Number(CellOf(L, 0, v)), Addressed(L, r));
  }

  lemma Stated(m: Mem, L: Lib, base: Addr, i: nat, p: Draft, g: C.Prog)
    requires Addressed(L, p) == g && C.Len(g) == Count(p) && Lies(m, L, base + 8 * i, g)
    ensures Fits(m, L, base, i, p)
  {
  }

  lemma WhenFits(m: Mem, L: Lib, base: Addr, d: Def, i: nat, q: Draft, r: Draft)
    requires HasCode(m, L, base, d) && i + 2 + Count(q) + Count(r) <= CodeLen(d)
    requires Code(d, i) == W(P(ZBranch)) && Code(d, i + 1) == To(i + 2 + Count(q))
    requires Fits(m, L, base, i + 2, q) && Fits(m, L, base, i + 2 + Count(q), r)
    ensures Fits(m, L, base, i, When(q, r))
  {
    hide Code, CodeLen, HasCode, Lies, C.Len, HasCells, Addressed, Fits, Count;
    JumpLaid(m, L, base, d, i, ZBranch, i + 2 + Count(q), base + 8 * (i + 2 + Count(q)));
    WhenLies(m, L, base, i, q, r);
    WhenAddressed(L, q, r);
    Stated(m, L, base, i, When(q, r), C.Seq(C.If(Addressed(L, q)), Addressed(L, r)));
  }

  lemma WhenLies(m: Mem, L: Lib, base: Addr, i: nat, q: Draft, r: Draft)
    requires Fits(m, L, base, i + 2, q) && Fits(m, L, base, i + 2 + Count(q), r)
    requires HasCells(m, base + 8 * i, [L.at(P(ZBranch)), base + 8 * (i + 2 + Count(q))])
    ensures var g := C.Seq(C.If(Addressed(L, q)), Addressed(L, r));
      Lies(m, L, base + 8 * i, g) && C.Len(g) == 2 + Count(q) + Count(r)
  {
    hide Lies, C.Len, HasCells, Addressed, Count;
    var a, p := base + 8 * i, Addressed(L, q);
    assert base + 8 * (i + 2) == a + 16;
    assert base + 8 * (i + 2 + Count(q)) == a + 16 + 8 * C.Len(p);
    WhenLaid(m, L, a, p, Addressed(L, r));
  }

  lemma WhenAddressed(L: Lib, q: Draft, r: Draft)
    ensures Addressed(L, When(q, r)) == C.Seq(C.If(Addressed(L, q)), Addressed(L, r))
    ensures Count(When(q, r)) == 2 + Count(q) + Count(r)
  {
  }

  lemma LoopAddressed(L: Lib, q: Draft, r: Draft)
    ensures Addressed(L, Until(q, r)) == C.Seq(C.Until(Addressed(L, q)), Addressed(L, r))
    ensures Addressed(L, Again(q, r)) == C.Seq(C.Again(Addressed(L, q)), Addressed(L, r))
    ensures Count(Until(q, r)) == Count(q) + 2 + Count(r) == Count(Again(q, r))
  {
  }

  lemma UntilFits(m: Mem, L: Lib, base: Addr, d: Def, i: nat, q: Draft, r: Draft)
    requires HasCode(m, L, base, d) && i + Count(q) + 2 + Count(r) <= CodeLen(d)
    requires Code(d, i + Count(q)) == W(P(ZBranch)) && Code(d, i + Count(q) + 1) == To(i)
    requires Fits(m, L, base, i, q) && Fits(m, L, base, i + Count(q) + 2, r)
    ensures Fits(m, L, base, i, Until(q, r))
  {
    hide Code, CodeLen, HasCode, Lies, C.Len, HasCells, Addressed, Count;
    LoopAddressed(L, q, r);
    assert base + 8 * (i + Count(q)) == base + 8 * i + 8 * C.Len(Addressed(L, q));
    JumpLaid(m, L, base, d, i + Count(q), ZBranch, i, base + 8 * i);
    UntilLaid(m, L, base + 8 * i, Addressed(L, q), Addressed(L, r));
  }

  lemma AgainFits(m: Mem, L: Lib, base: Addr, d: Def, i: nat, q: Draft, r: Draft)
    requires HasCode(m, L, base, d) && i + Count(q) + 2 + Count(r) <= CodeLen(d)
    requires Code(d, i + Count(q)) == W(P(Branch)) && Code(d, i + Count(q) + 1) == To(i)
    requires Fits(m, L, base, i, q) && Fits(m, L, base, i + Count(q) + 2, r)
    ensures Fits(m, L, base, i, Again(q, r))
  {
    hide Code, CodeLen, HasCode, Lies, C.Len, HasCells, Addressed, Count;
    LoopAddressed(L, q, r);
    assert base + 8 * (i + Count(q)) == base + 8 * i + 8 * C.Len(Addressed(L, q));
    JumpLaid(m, L, base, d, i + Count(q), Branch, i, base + 8 * i);
    AgainLaid(m, L, base + 8 * i, Addressed(L, q), Addressed(L, r));
  }

  /** Where the code of d is laid, a part of it is the code of the program it spells. */
  lemma {:induction false} DraftLaid(m: Mem, L: Lib, base: Addr, d: Def, i: nat, p: Draft)
    requires HasCode(m, L, base, d) && Spells(d, i, p) && i + Count(p) <= CodeLen(d)
    ensures Fits(m, L, base, i, p)
    decreases p, 1
  {
    hide HasCode, Fits, CodeLen, Code, Names;
    match p
    case End => NoCells(m, L, base, i);
    case Compile(ns, r) =>
      DraftLaid(m, L, base, d, i + |ns|, r);
      CompileFits(m, L, base, d, i, ns, r);
    case Literal(v, r) =>
      DraftLaid(m, L, base, d, i + 2, r);
      LiteralFits(m, L, base, d, i, v, r);
    case When(q, r) => DraftWhen(m, L, base, d, i, q, r);
    case Until(q, r) => DraftUntil(m, L, base, d, i, q, r);
    case Again(q, r) => DraftAgain(m, L, base, d, i, q, r);
  }

  lemma {:induction false} DraftWhen(m: Mem, L: Lib, base: Addr, d: Def, i: nat, q: Draft, r: Draft)
    requires HasCode(m, L, base, d) && Spells(d, i, When(q, r)) && i + Count(When(q, r)) <= CodeLen(d)
    ensures Fits(m, L, base, i, When(q, r))
    decreases When(q, r), 0
  {
    hide HasCode, Fits, CodeLen, Code, Names;
    DraftLaid(m, L, base, d, i + 2, q);
    DraftLaid(m, L, base, d, i + 2 + Count(q), r);
    WhenFits(m, L, base, d, i, q, r);
  }

  lemma {:induction false} DraftUntil(m: Mem, L: Lib, base: Addr, d: Def, i: nat, q: Draft, r: Draft)
    requires HasCode(m, L, base, d) && Spells(d, i, Until(q, r)) && i + Count(Until(q, r)) <= CodeLen(d)
    ensures Fits(m, L, base, i, Until(q, r))
    decreases Until(q, r), 0
  {
    hide HasCode, Fits, CodeLen, Code, Names, Spells, Count;
    UntilParts(d, i, q, r);
    DraftLaid(m, L, base, d, i, q);
    DraftLaid(m, L, base, d, i + Count(q) + 2, r);
    UntilFits(m, L, base, d, i, q, r);
  }

  lemma UntilParts(d: Def, i: nat, q: Draft, r: Draft)
    requires Spells(d, i, Until(q, r))
    ensures Spells(d, i, q) && Spells(d, i + Count(q) + 2, r) && Count(Until(q, r)) == Count(q) + 2 + Count(r)
    ensures Code(d, i + Count(q)) == W(P(ZBranch)) && Code(d, i + Count(q) + 1) == To(i)
  {
    hide Code;
  }

  lemma {:induction false} DraftAgain(m: Mem, L: Lib, base: Addr, d: Def, i: nat, q: Draft, r: Draft)
    requires HasCode(m, L, base, d) && Spells(d, i, Again(q, r)) && i + Count(Again(q, r)) <= CodeLen(d)
    ensures Fits(m, L, base, i, Again(q, r))
    decreases Again(q, r), 0
  {
    hide HasCode, Fits, CodeLen, Code, Names;
    DraftLaid(m, L, base, d, i, q);
    DraftLaid(m, L, base, d, i + 2 + Count(q), r);
    AgainFits(m, L, base, d, i, q, r);
  }

  lemma TwoCells(m: Mem, a: Addr, v: nat, w: nat)
    requires HasCell(m, a, v) && HasCell(m, a + 8, w)
    ensures HasCells(m, a, [v, w])
  {
  }

  lemma JumpLaid(m: Mem, L: Lib, base: Addr, d: Def, i: nat, op: Op, k: nat, target: Addr)
    requires HasCode(m, L, base, d) && i + 1 < CodeLen(d) && Code(d, i) == W(P(op)) && Code(d, i + 1) == To(k)
    requires target == base + 8 * k
    ensures HasCells(m, base + 8 * i, [L.at(P(op)), target])
  {
    hide Code, CodeLen;
    CellAt(m, L, base, d, i);
    CellAt(m, L, base, d, i + 1);
  }

  lemma WhenLaid(m: Mem, L: Lib, a: Addr, q: C.Prog, r: C.Prog)
    requires HasCells(m, a, [L.at(P(ZBranch)), a + 16 + 8 * C.Len(q)])
    requires Lies(m, L, a + 16, q) && Lies(m, L, a + 16 + 8 * C.Len(q), r)
    ensures Lies(m, L, a, C.Seq(C.If(q), r)) && C.Len(C.Seq(C.If(q), r)) == C.Len(q) + 2 + C.Len(r)
  {
    hide HasCells, C.Cells, C.CellsCmd, C.Len, C.LenCmd;
    IfCells(L, a, q);
    CellsJoin(m, a, [L.at(P(ZBranch)), a + 16 + 8 * C.Len(q)], C.Cells(q, a + 16, XtsOf(L)));
    SeqLies(m, L, a, C.If(q), r);
  }

  lemma UntilLaid(m: Mem, L: Lib, a: Addr, q: C.Prog, r: C.Prog)
    requires Lies(m, L, a, q) && HasCells(m, a + 8 * C.Len(q), [L.at(P(ZBranch)), a])
    requires Lies(m, L, a + 8 * C.Len(q) + 16, r)
    ensures Lies(m, L, a, C.Seq(C.Until(q), r)) && C.Len(C.Seq(C.Until(q), r)) == C.Len(q) + 2 + C.Len(r)
  {
    hide HasCells, C.Cells, C.CellsCmd, C.Len, C.LenCmd;
    UntilCells(L, a, q);
    CellsJoin(m, a, C.Cells(q, a, XtsOf(L)), [L.at(P(ZBranch)), a]);
    SeqLies(m, L, a, C.Until(q), r);
  }

  lemma AgainLaid(m: Mem, L: Lib, a: Addr, q: C.Prog, r: C.Prog)
    requires Lies(m, L, a, q) && HasCells(m, a + 8 * C.Len(q), [L.at(P(Branch)), a])
    requires Lies(m, L, a + 8 * C.Len(q) + 16, r)
    ensures Lies(m, L, a, C.Seq(C.Again(q), r)) && C.Len(C.Seq(C.Again(q), r)) == C.Len(q) + 2 + C.Len(r)
  {
    hide HasCells, C.Cells, C.CellsCmd, C.Len, C.LenCmd;
    AgainCells(L, a, q);
    CellsJoin(m, a, C.Cells(q, a, XtsOf(L)), [L.at(P(Branch)), a]);
    SeqLies(m, L, a, C.Again(q), r);
  }

  /** The address of a body of the library. */
  ghost predicate IsBody(m: Mem, L: Lib, a: Addr, d: Def) {
    Loaded(m, L, D(d)) && BodyOf(m, L, d) == a
  }

  ghost function BodyDef(m: Mem, L: Lib, a: Addr): Def
    requires exists d :: IsBody(m, L, a, d)
  {
    var d :| IsBody(m, L, a, d);
    d
  }

  /** All the words of the library, each with the program the C source writes for it. */
  ghost function AllWords(m: Mem, L: Lib): S.Lexicon {
    S.Lexicon(XtsOf(L), map a: Addr | a in m && exists d :: IsBody(m, L, a, d) ::
      Addressed(L, Source(BodyDef(m, L, a))))
  }

  lemma WordStands(m: Mem, L: Lib, a: Addr, d: Def)
    requires IsBody(m, L, a, d)
    ensures a in m && HasCells(m, a, C.Cells(Addressed(L, Source(d)), a, XtsOf(L)))
  {
    hide Code, CodeLen, HasCells, Spells, Source, Addressed, Immediate;
    SourceSpells(d);
    DraftLaid(m, L, a, d, 0, Source(d));
    LongEnough(d);
    CellAt(m, L, a, d, 0);
  }

  lemma LongEnough(d: Def)
    ensures CodeLen(d) > 0
  {
  }

  lemma LibraryStands(m: Mem, L: Lib)
    requires Image(m, L)
    ensures S.Standing(m, AllWords(m, L))
    ensures forall d :: BodyIn(m, L, d)
  {
    hide Loaded, HasCells, Source, Addressed, IsBody;
    var c := AllWords(m, L);
    forall a | a in c.code ensures HasCells(m, a, C.Cells(c.code[a], a, c.x)) {
      WordStands(m, L, a, BodyDef(m, L, a));
    }
    OpsStand(m, L);
    forall d: Def ensures BodyIn(m, L, d) {
      Body(m, L, d);
    }
  }

  ghost predicate BodyIn(m: Mem, L: Lib, d: Def) {
    S.IsOp(m, L.at(D(d)), Call) && m[L.at(D(d))].h.body in AllWords(m, L).code
  }

  lemma Body(m: Mem, L: Lib, d: Def)
    requires Image(m, L)
    ensures BodyIn(m, L, d)
  {
    hide Code, CodeLen, HasCells, Source, Addressed, HasCode, Immediate;
    Stepping.Known(m, L, D(d));
    assert IsBody(m, L, m[L.at(D(d))].h.body, d);
    WordStands(m, L, m[L.at(D(d))].h.body, d);
  }

  lemma OpsStand(m: Mem, L: Lib)
    requires Image(m, L)
    ensures S.Vm(m, XtsOf(L))
  {
    hide Code, CodeLen, Immediate, HasCode, StrText;
    Stepping.Known(m, L, P(Op.Lit));
    Stepping.Known(m, L, P(Branch));
    Stepping.Known(m, L, P(ZBranch));
    Stepping.Known(m, L, P(Exit));
  }

  /** The names are those of words, and none is LIT, BRANCH or ZBRANCH. */
  predicate Proper(n: Name) {
    n.K? || n.D? || (n.P? && !n.op.Other? && !Watching.IsJump(n.op))
  }

  /** The names that cells have are those of words. */
  lemma TableWords(d: Def, i: nat)
    requires i < CodeLen(d) && Code(d, i).W?
    ensures Code(d, i).n.K? || Code(d, i).n.D? || (Code(d, i).n.P? && !Code(d, i).n.op.Other?)
  {
  }

  predicate OfCore(d: Def) {
    || d.ROT? || d.MROT? || d.TWODROP? || d.TWODUP? || d.TWOSWAP? || d.TWOOVER? || d.TWOROT? || d.TWOMROT?
    || d.HERE? || d.ALLOT? || d.XCOMMA? || d.WEMIT? || d.WKEY?
  }

  predicate OfIo(d: Def) {
    || d.WTYPE? || d.NIBBLE? || d.NHEX? || d.XHEX? || d.DOT? || d.SPACE? || d.CR? || d.DOTS? || d.WIBRST?
    || d.WIBPUSH? || d.DELIM? || d.INNERWORD? || d.WIBWORD?
  }

  /** A branch or literal has its operand behind it. */
  lemma TableJumps(d: Def, i: nat, op: Op)
    requires i < CodeLen(d) && Code(d, i) == W(P(op)) && Watching.IsJump(op)
    ensures i + 1 < CodeLen(d) && !Code(d, i + 1).W?
  {
    hide Code, CodeLen, OfCore, OfIo;
    if OfCore(d) { CoreJumps(d, i, op); } else if OfIo(d) { IoJumps(d, i, op); } else { OtherJumps(d, i, op); }
  }

  lemma CoreJumps(d: Def, i: nat, op: Op)
    requires OfCore(d) && i < CodeLen(d) && Code(d, i) == W(P(op)) && Watching.IsJump(op)
    ensures i + 1 < CodeLen(d) && !Code(d, i + 1).W?
  {
  }

  lemma IoJumps(d: Def, i: nat, op: Op)
    requires OfIo(d) && i < CodeLen(d) && Code(d, i) == W(P(op)) && Watching.IsJump(op)
    ensures i + 1 < CodeLen(d) && !Code(d, i + 1).W?
  {
  }

  lemma OtherJumps(d: Def, i: nat, op: Op)
    requires !OfCore(d) && !OfIo(d) && i < CodeLen(d) && Code(d, i) == W(P(op)) && Watching.IsJump(op)
    ensures i + 1 < CodeLen(d) && !Code(d, i + 1).W?
  {
  }

  /** Branches stay inside. */
  lemma TableTargets(d: Def, i: nat)
    requires i < CodeLen(d) && Code(d, i).To?
    ensures Code(d, i).k < CodeLen(d)
  {
  }

  /** The last cell is EXIT or belongs to a branch back. */
  lemma TableLast(d: Def)
    ensures CodeLen(d) > 1
    ensures var z := CodeLen(d);
      Code(d, z - 1) == W(P(Exit)) || (Code(d, z - 1).To? && Code(d, z - 2) == W(P(Branch)))
  {
  }

  lemma ProperApart(m: Mem, L: Lib, n: Name)
    requires Image(m, L) && Proper(n)
    ensures !Watching.Ours(L.at(n), XtsOf(L))
  {
    hide Code, CodeLen, HasCode, StrText, Immediate, KonstValue;
    OpsStand(m, L);
    assert Loaded(m, L, n);
  }

  /** Cell i of d is a word, or there is none. */
  predicate AtWord(d: Def, i: nat) {
    i == CodeLen(d) || (i < CodeLen(d) && Code(d, i).W?)
  }

  /** What is compiled as a word is no branch or literal: those have operands behind them. */
  lemma NamesProper(d: Def, i: nat, ns: seq<Name>, k: nat)
    requires Names(d, i, ns) && k < |ns| && i + |ns| <= CodeLen(d) && AtWord(d, i + |ns|)
    ensures Proper(ns[k])
  {
    hide Code, CodeLen;
    assert Code(d, i + k) == W(ns[k]);
    if k + 1 < |ns| { assert Code(d, i + (k + 1)) == W(ns[k + 1]); }
    TableWords(d, i + k);
    if ns[k].P? && Watching.IsJump(ns[k].op) { TableJumps(d, i + k, ns[k].op); }
  }

  lemma {:induction false} RunTidy(m: Mem, L: Lib, ns: seq<Name>, p: C.Prog)
    requires Image(m, L) && (forall k :: 0 <= k < |ns| ==> Proper(ns[k])) && Following.Tidy(p, XtsOf(L))
    ensures Following.Tidy(Run(L, ns, p), XtsOf(L))
    decreases |ns|
  {
    hide Image, Proper;
    if ns != [] {
      ProperApart(m, L, ns[0]);
      RunTidy(m, L, ns[1..], p);
    }
  }

  lemma FirstWord(d: Def, i: nat, ns: seq<Name>)
    requires Names(d, i, ns) && i + |ns| <= CodeLen(d) && AtWord(d, i + |ns|)
    ensures AtWord(d, i)
  {
    hide Code, CodeLen;
    if ns != [] { assert Code(d, i + 0) == W(ns[0]); }
  }

  lemma ShortTidy(x: Xts, n: nat, q: C.Prog, r: C.Prog)
    requires Following.Tidy(q, x) && Following.Tidy(r, x)
    ensures Following.Tidy(C.Seq(C.Number(n), r), x) && Following.Tidy(C.Seq(C.If(q), r), x)
    ensures Following.Tidy(C.Seq(C.Until(q), r), x) && Following.Tidy(C.Seq(C.Again(q), r), x)
  {
  }

  /** No program of the library has a branch or literal written out by hand. */
  lemma {:induction false} DraftTidy(m: Mem, L: Lib, d: Def, i: nat, p: Draft)
    requires Image(m, L) && Spells(d, i, p) && i + Count(p) <= CodeLen(d) && AtWord(d, i + Count(p))
    ensures Following.Tidy(Addressed(L, p), XtsOf(L)) && AtWord(d, i)
    decreases p, 1
  {
    hide Image, Code, CodeLen, Names, Proper, Following.TidyCmd, Run, Following.Tidy, Spells, Count, Addressed, AtWord;
    match p
    case End => EndTidy(L, d, i);
    case Compile(_, _) => CompileTidy(m, L, d, i, p);
    case Literal(_, _) => LiteralTidy(m, L, d, i, p);
    case When(_, _) => WhenTidy(m, L, d, i, p);
    case _ => LoopTidy(m, L, d, i, p);
  }

  lemma EndTidy(L: Lib, d: Def, i: nat)
    ensures Following.Tidy(Addressed(L, End), XtsOf(L)) && Count(End) == 0
  {
  }

  lemma {:induction false} CompileTidy(m: Mem, L: Lib, d: Def, i: nat, p: Draft)
    requires p.Compile? && Image(m, L) && Spells(d, i, p) && i + Count(p) <= CodeLen(d) && AtWord(d, i + Count(p))
    ensures Following.Tidy(Addressed(L, p), XtsOf(L)) && AtWord(d, i)
    decreases p, 0
  {
    hide Image, Code, CodeLen, Names, Proper, Following.TidyCmd, Run, Following.Tidy, AtWord;
    var ns := p.ns;
    DraftTidy(m, L, d, i + |ns|, p.rest);
    forall k | 0 <= k < |ns| ensures Proper(ns[k]) { NamesProper(d, i, ns, k); }
    RunTidy(m, L, ns, Addressed(L, p.rest));
    FirstWord(d, i, ns);
  }

  lemma {:induction false} LiteralTidy(m: Mem, L: Lib, d: Def, i: nat, p: Draft)
    requires p.Literal? && Image(m, L) && Spells(d, i, p) && i + Count(p) <= CodeLen(d) && AtWord(d, i + Count(p))
    ensures Following.Tidy(Addressed(L, p), XtsOf(L)) && AtWord(d, i)
    decreases p, 0
  {
    hide Image, Code, CodeLen, Names, Proper, Following.TidyCmd, Run, Following.Tidy, CellOf;
    DraftTidy(m, L, d, i + 2, p.rest);
    ShortTidy(XtsOf(L), CellOf(L, 0, p.i), Addressed(L, p.rest), Addressed(L, p.rest));
  }

  lemma {:induction false} WhenTidy(m: Mem, L: Lib, d: Def, i: nat, p: Draft)
    requires p.When? && Image(m, L) && Spells(d, i, p) && i + Count(p) <= CodeLen(d) && AtWord(d, i + Count(p))
    ensures Following.Tidy(Addressed(L, p), XtsOf(L)) && AtWord(d, i)
    decreases p, 0
  {
    hide Image, Code, CodeLen, Names, Proper, Following.TidyCmd, Run, Following.Tidy;
    DraftTidy(m, L, d, i + 2 + Count(p.q), p.rest);
    DraftTidy(m, L, d, i + 2, p.q);
    ShortTidy(XtsOf(L), 0, Addressed(L, p.q), Addressed(L, p.rest));
  }

  lemma {:induction false} LoopTidy(m: Mem, L: Lib, d: Def, i: nat, p: Draft)
    requires (p.Until? || p.Again?) && Image(m, L) && Spells(d, i, p)
    requires i + Count(p) <= CodeLen(d) && AtWord(d, i + Count(p))
    ensures Following.Tidy(Addressed(L, p), XtsOf(L)) && AtWord(d, i)
    decreases p, 0
  {
    hide Image, Code, CodeLen, Names, Proper, Following.TidyCmd, Run, Following.Tidy;
    DraftTidy(m, L, d, i + Count(p.q) + 2, p.rest);
    DraftTidy(m, L, d, i, p.q);
    ShortTidy(XtsOf(L), 0, Addressed(L, p.q), Addressed(L, p.rest));
  }

  lemma {:induction false} NoCode(L: Lib, p: Draft)
    ensures Count(p) == 0 <==> Addressed(L, p) == C.Nil
    decreases p
  {
    if p.Compile? {
      NoCode(L, p.rest);
      assert p.ns != [] ==> Run(L, p.ns, Addressed(L, p.rest)).Seq?;
    }
  }

  lemma {:induction false} RunClosed(L: Lib, ns: seq<Name>, p: C.Prog)
    requires if p.Nil? then ns != [] && ns[|ns| - 1] == P(Exit) else Following.Closed(p, XtsOf(L))
    ensures Following.Closed(Run(L, ns, p), XtsOf(L))
    decreases |ns|
  {
    if ns != [] && (p.Seq? || |ns| > 1) { RunClosed(L, ns[1..], p); }
  }

  /** And every one ends with EXIT or with a loop that does not end. */
  lemma {:induction false} DraftClosed(L: Lib, d: Def, i: nat, p: Draft)
    requires Spells(d, i, p) && i + Count(p) == CodeLen(d) && Count(p) > 0
    ensures Following.Closed(Addressed(L, p), XtsOf(L))
    decreases p
  {
    hide Code, CodeLen, Names;
    var z := CodeLen(d);
    TableLast(d);
    match p
    case Compile(ns, r) =>
      NoCode(L, r);
      if Count(r) > 0 { DraftClosed(L, d, i + |ns|, r); } else { LastName(d, i, ns); }
      RunClosed(L, ns, Addressed(L, r));
    case Literal(v, r) =>
      NoCode(L, r);
      if Count(r) > 0 { DraftClosed(L, d, i + 2, r); }
    case When(q, r) =>
      NoCode(L, r);
      TableTargets(d, i + 1);
      DraftClosed(L, d, i + 2 + Count(q), r);
    case Until(q, r) =>
      NoCode(L, r);
      if Count(r) > 0 { DraftClosed(L, d, i + Count(q) + 2, r); }
    case Again(q, r) =>
      NoCode(L, r);
      if Count(r) > 0 { DraftClosed(L, d, i + Count(q) + 2, r); }
  }

  lemma LastName(d: Def, i: nat, ns: seq<Name>)
    requires Names(d, i, ns) && i + |ns| == CodeLen(d) && ns != []
    ensures ns[|ns| - 1] == P(Exit)
  {
    hide Code, CodeLen;
    TableLast(d);
    assert Code(d, i + (|ns| - 1)) == W(ns[|ns| - 1]);
  }

  lemma LibraryTame(m: Mem, L: Lib)
    requires Image(m, L)
    ensures Following.Tame(AllWords(m, L))
  {
    hide Image, Loaded, Source, Addressed, Following.Tidy, Following.Closed, Spells, Count, Code, CodeLen;
    var c := AllWords(m, L);
    forall a | a in c.code ensures Following.Tidy(c.code[a], c.x) && Following.Closed(c.code[a], c.x) {
      var d := BodyDef(m, L, a);
      SourceSpells(d);
      TableLast(d);
      DraftTidy(m, L, d, 0, Source(d));
      DraftClosed(L, d, 0, Source(d));
    }
  }

  /** Every word of the library, called from anywhere, does what its C source means as a structured program
      of opcodes and other library words; and what the machine does then, without straying, the source means. */
  lemma LibraryMeans(s: State, L: Lib, d: Def, fuel: nat)
    requires Image(s.env.mem, L)
    ensures var c, w := AllWords(s.env.mem, L), L.at(D(d));
      && S.IsOp(s.env.mem, w, Call) && s.env.mem[w].h.body in c.code
      && S.Realises(s.(pc := Exec(w)), s.ip, S.EvalWord(w, s, c, fuel), c)
    ensures var c, w := AllWords(s.env.mem, L), L.at(D(d));
      forall n: nat :: Semantics.EndsAt(Programs.Calling(w, s), c, n) ==>
        Semantics.Final(S.EvalWord(w, s, c, n + 1), Watching.Tracks(Programs.Calling(w, s), n), c)
  {
    hide Loaded, HasCells, Source, Addressed, S.Standing, S.EvalWord, S.Realises, Semantics.EndsAt,
      Semantics.Final, Watching.Tracks, Following.Tame, Image;
    var c, w := AllWords(s.env.mem, L), L.at(D(d));
    LibraryStands(s.env.mem, L);
    LibraryTame(s.env.mem, L);
    assert BodyIn(s.env.mem, L, d);
    ProperApart(s.env.mem, L, D(d));
    assert c.x == XtsOf(L);
    Semantics.SimulatesWord(w, s, c, fuel);
    forall n: nat | Semantics.EndsAt(Programs.Calling(w, s), c, n)
      ensures Semantics.Final(S.EvalWord(w, s, c, n + 1), Watching.Tracks(Programs.Calling(w, s), n), c)
    {
      Semantics.RunDecides(w, s, c, n);
    }
  }
}
