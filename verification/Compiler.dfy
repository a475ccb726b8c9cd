/** Compiling structured programs with the builders: the cells they emit, and that running those
    cells in the inner interpreter does what the program means. */
module Compiler {
  import opened Words
  import opened Memory
  import opened Opcodes
  import opened Machine
  import opened Builders

  datatype Cmd =
    | Prim(xt: Addr)
    | Number(n: nat)
    | If(body: Prog)
    | Until(body: Prog)
    | Again(body: Prog)
    | Leave
  datatype Prog = Nil | Seq(c: Cmd, rest: Prog)

  /** The sequence of builder calls that writes p. */
  function Emit(b: Builder, p: Prog, x: Xts): Builder
    decreases p
  {
    match p
    case Nil => b
    case Seq(c, r) => Emit(EmitCmd(b, c, x), r, x)
  }

  function EmitCmd(b: Builder, c: Cmd, x: Xts): Builder
    decreases c
  {
    match c
    case Prim(xt) => Build(b, ACell(xt))
    case Number(n) => Build(b, ALit(n))
    case If(q) => Build(Emit(Build(b, AIf), q, x), AThen)
    case Until(q) => Build(Emit(Build(b, ABegin), q, x), AUntil)
    case Again(q) => Build(Emit(Build(b, ABegin), q, x), AAgain)
    case Leave => Build(b, ACell(x.exit))
  }

  function Len(p: Prog): nat
    decreases p
  {
    match p
    case Nil => 0
    case Seq(c, r) => LenCmd(c) + Len(r)
  }

  function LenCmd(c: Cmd): nat
    decreases c
  {
    match c
    case Prim(_) => 1
    case Number(_) => 2
    case If(q) => Len(q) + 2
    case Until(q) => Len(q) + 2
    case Again(q) => Len(q) + 2
    case Leave => 1
  }

  /** The code of p at base, with every branch resolved. */
  function Cells(p: Prog, base: Addr, x: Xts): (r: seq<nat>)
    ensures |r| == Len(p)
    decreases p
  {
    match p
    case Nil => []
    case Seq(c, r) => CellsCmd(c, base, x) + Cells(r, base + 8 * LenCmd(c), x)
  }

  function CellsCmd(c: Cmd, base: Addr, x: Xts): (r: seq<nat>)
    ensures |r| == LenCmd(c)
    decreases c
  {
    match c
    case Prim(xt) => [xt]
    case Number(n) => [x.lit, n]
    case If(q) => [x.zbranch, base + 16 + 8 * Len(q)] + Cells(q, base + 16, x)
    case Until(q) => Cells(q, base, x) + [x.zbranch, base]
    case Again(q) => Cells(q, base, x) + [x.branch, base]
    case Leave => [x.exit]
  }

  /** m with the cells vs from a on. */
  function Lay(m: Mem, a: Addr, vs: seq<nat>): Mem
    decreases |vs|
  {
    if vs == [] then m else Lay(m[a := Cell(vs[0])], a + 8, vs[1..])
  }

  lemma {:induction false} LayConcat(m: Mem, a: Addr, vs: seq<nat>, ws: seq<nat>)
    ensures Lay(m, a, vs + ws) == Lay(Lay(m, a, vs), a + 8 * |vs|, ws)
    decreases |vs|
  {
    if vs == [] {
      assert vs + ws == ws;
    } else {
      assert (vs + ws)[1..] == vs[1..] + ws;
      LayConcat(m[a := Cell(vs[0])], a + 8, vs[1..], ws);
    }
  }

  /** Laying cells commutes with a store below them. */
  lemma {:induction false} LayBelow(m: Mem, a: Addr, vs: seq<nat>, y: Addr, c: Chunk)
    requires y < a
    ensures Lay(m[y := c], a, vs) == Lay(m, a, vs)[y := c]
    decreases |vs|
  {
    if vs != [] {
      assert m[y := c][a := Cell(vs[0])] == m[a := Cell(vs[0])][y := c];
      LayBelow(m[a := Cell(vs[0])], a + 8, vs[1..], y, c);
    }
  }

  lemma {:induction false} LayGets(m: Mem, a: Addr, vs: seq<nat>)
    ensures HasCells(Lay(m, a, vs), a, vs)
    ensures forall y :: y < a ==> (y in m <==> y in Lay(m, a, vs)) && (y in m ==> Lay(m, a, vs)[y] == m[y])
    decreases |vs|
  {
    if vs != [] {
      var m1 := m[a := Cell(vs[0])];
      LayGets(m1, a + 8, vs[1..]);
      var r := Lay(m1, a + 8, vs[1..]);
      forall i | 0 <= i < |vs| ensures HasCell(r, a + 8 * i, vs[i]) {
        if i > 0 {
          assert HasCell(r, (a + 8) + 8 * (i - 1), vs[1..][i - 1]);
        } else {
          assert a in m1 && m1[a] == Cell(vs[0]);
        }
      }
    }
  }

  /** The builder has room: everything lies below the dictionary pointer. */
  predicate Ready(e: Env, x: Xts) {
    Below(e.mem, e.dp) && Finds(e, x)
  }

  lemma CommaReady(e: Env, x: Xts, v: nat)
    requires Ready(e, x)
    ensures Ready(Comma(e, v), x)
  {
    FindsKeeps(e, x, e.dp, Cell(v), e.dp + 8);
  }

  function Laid(b: Builder, vs: seq<nat>): Builder {
    b.(env := b.env.(mem := Lay(b.env.mem, b.env.dp, vs), dp := b.env.dp + 8 * |vs|))
  }

  lemma {:induction false} LaidReady(b: Builder, x: Xts, vs: seq<nat>)
    requires Ready(b.env, x)
    ensures Ready(Laid(b, vs).env, x)
    decreases |vs|
  {
    if vs != [] {
      CommaReady(b.env, x, vs[0]);
      LaidReady(b.(env := Comma(b.env, vs[0])), x, vs[1..]);
    }
  }

  lemma LaidConcat(b: Builder, vs: seq<nat>, ws: seq<nat>)
    ensures Laid(Laid(b, vs), ws) == Laid(b, vs + ws)
  {
    LayConcat(b.env.mem, b.env.dp, vs, ws);
  }

  lemma LaidOne(b: Builder, v: nat)
    ensures Laid(b, [v]) == b.(env := Comma(b.env, v))
  {
    assert [v][1..] == [];
    assert Lay(b.env.mem[b.env.dp := Cell(v)], b.env.dp + 8, []) == b.env.mem[b.env.dp := Cell(v)];
  }

  lemma LaidTwo(b: Builder, v: nat, w: nat)
    ensures Laid(b, [v, w]) == b.(env := Comma(Comma(b.env, v), w))
  {
    LaidOne(b, v);
    LaidOne(Laid(b, [v]), w);
    LaidConcat(b, [v], [w]);
    assert [v] + [w] == [v, w];
  }

  /** The builders write exactly the resolved code, once each placeholder is patched, and give the
      compile stack back. */
  lemma {:induction false} EmitLays(b: Builder, p: Prog, x: Xts)
    requires Ready(b.env, x)
    ensures Emit(b, p, x) == Laid(b, Cells(p, b.env.dp, x)) && Ready(Emit(b, p, x).env, x)
    decreases p, 0
  {
    match p
    case Nil =>
      assert b.env.(mem := Lay(b.env.mem, b.env.dp, []), dp := b.env.dp + 8 * 0) == b.env;
    case Seq(c, r) =>
      EmitCmdLays(b, c, x);
      var b1 := EmitCmd(b, c, x);
      EmitLays(b1, r, x);
      LaidConcat(b, CellsCmd(c, b.env.dp, x), Cells(r, b1.env.dp, x));
  }

  lemma {:induction false} EmitCmdLays(b: Builder, c: Cmd, x: Xts)
    requires Ready(b.env, x)
    ensures EmitCmd(b, c, x) == Laid(b, CellsCmd(c, b.env.dp, x)) && Ready(EmitCmd(b, c, x).env, x)
    decreases c
  {
    hide Ready, Lay, Laid, Search, Codes, Comma;
    LaidReady(b, x, CellsCmd(c, b.env.dp, x));
    match c
    case Prim(xt) => LaidOne(b, xt);
    case Number(n) => BuildsLit(b, n, x);
    case If(q) =>
      IfReady(b, x);
      EmitLays(Build(b, AIf), q, x);
      Patched(b, q, x);
    case Until(q) =>
      EmitLays(Build(b, ABegin), q, x);
      Looped(b, q, x, AUntil, x.zbranch);
    case Again(q) =>
      EmitLays(Build(b, ABegin), q, x);
      Looped(b, q, x, AAgain, x.branch);
    case Leave => LaidOne(b, x.exit);
  }

  lemma BuildsLit(b: Builder, n: nat, x: Xts)
    requires Ready(b.env, x)
    ensures Build(b, ALit(n)) == Laid(b, [x.lit, n])
  {
    LaidTwo(b, x.lit, n);
  }

  lemma IfReady(b: Builder, x: Xts)
    requires Ready(b.env, x)
    ensures Ready(Build(b, AIf).env, x)
  {
    CommaReady(b.env, x, x.zbranch);
    CommaReady(Comma(b.env, x.zbranch), x, 0);
  }

  /** BEGIN, a body, and the branch back to the address BEGIN pushed. */
  lemma Looped(b: Builder, q: Prog, x: Xts, back: Act, xt: Addr)
    requires (back == AUntil && xt == x.zbranch) || (back == AAgain && xt == x.branch)
    requires var b1 := Build(b, ABegin);
      && Emit(b1, q, x) == Laid(b1, Cells(q, b.env.dp, x))
      && Ready(Emit(b1, q, x).env, x)
    ensures Build(Emit(Build(b, ABegin), q, x), back) == Laid(b, Cells(q, b.env.dp, x) + [xt, b.env.dp])
  {
    hide Lay, Search, Codes, Emit;
    var body := Cells(q, b.env.dp, x);
    LaidTwo(Laid(b, body), xt, b.env.dp);
    LaidConcat(b, body, [xt, b.env.dp]);
  }

  /** Patching the placeholder in front of laid cells is the same as having known the target beforehand. */
  lemma HolePatched(m: Mem, dp: Addr, xt: nat, target: nat, body: seq<nat>)
    ensures Lay(m[dp := Cell(xt)][dp + 8 := Cell(0)], dp + 16, body)[dp + 8 := Cell(target)]
         == Lay(m[dp := Cell(xt)][dp + 8 := Cell(target)], dp + 16, body)
  {
    hide Lay;
    var hole: Addr := dp + 8;
    var m1: Mem := m[dp := Cell(xt)];
    LayBelow(m1[hole := Cell(0)], dp + 16, body, hole, Cell(target));
    assert m1[hole := Cell(0)][hole := Cell(target)] == m1[hole := Cell(target)];
  }

  /** The builder after IF. */
  lemma AfterIf(b: Builder, x: Xts)
    requires Ready(b.env, x)
    ensures var dp := b.env.dp;
      Build(b, AIf) == Builder(b.env.(mem := b.env.mem[dp := Cell(x.zbranch)][dp + 8 := Cell(0)], dp := dp + 16),
                               Item(dp + 8, b.cstk))
  {
    hide Search, Codes, Below;
  }

  /** Two cells and a body, laid together. */
  lemma LaidBehind(b: Builder, v: nat, w: nat, body: seq<nat>)
    ensures var dp := b.env.dp;
      Laid(b, [v, w] + body)
      == b.(env := b.env.(mem := Lay(b.env.mem[dp := Cell(v)][dp + 8 := Cell(w)], dp + 16, body),
        dp := dp + 16 + 8 * |body|))
  {
    hide Lay;
    LaidTwo(b, v, w);
    LaidConcat(b, [v, w], body);
  }

  lemma ThenStep(b: Builder, hole: Addr, k: Stack)
    requires b.cstk == Item(hole, k)
    ensures Build(b, AThen) == Builder(b.env.(mem := b.env.mem[hole := Cell(b.env.dp)]), k)
  {
  }

  /** IF, a body, and THEN lay the body behind a branch to its end. */
  lemma Patched(b: Builder, q: Prog, x: Xts)
    requires Ready(b.env, x)
    requires var b1 := Build(b, AIf);
      Emit(b1, q, x) == Laid(b1, Cells(q, b1.env.dp, x))
    ensures EmitCmd(b, If(q), x) == Laid(b, CellsCmd(If(q), b.env.dp, x))
  {
    hide Lay, Ready, Emit, Cells, Comma, Build;
    var dp := b.env.dp;
    var target := dp + 16 + 8 * Len(q);
    var body := Cells(q, dp + 16, x);
    AfterIf(b, x);
    ThenStep(Laid(Build(b, AIf), body), dp + 8, b.cstk);
    HolePatched(b.env.mem, dp, x.zbranch, target, body);
    LaidBehind(b, x.zbranch, target, body);
  }

  /** The places in the code of p that hold branch targets, with the targets. */
  function Branches(p: Prog, base: Addr): set<(Addr, Addr)>
    decreases p
  {
    match p
    case Nil => {}
    case Seq(c, r) => BranchesCmd(c, base) + Branches(r, base + 8 * LenCmd(c))
  }

  function BranchesCmd(c: Cmd, base: Addr): set<(Addr, Addr)>
    decreases c
  {
    match c
    case If(q) => {(base + 8, base + 16 + 8 * Len(q))} + Branches(q, base + 16)
    case Until(q) => Branches(q, base) + {(base + 8 * Len(q) + 8, base)}
    case Again(q) => Branches(q, base) + {(base + 8 * Len(q) + 8, base)}
    case _ => {}
  }

  /** Every branch operand has its final value, a cell boundary of the emitted code or its end. */
  ghost predicate Resolved(bs: set<(Addr, Addr)>, base: Addr, vs: seq<nat>) {
    forall b :: b in bs ==>
      && base <= b.0 < base + 8 * |vs| && (b.0 - base) % 8 == 0 && vs[(b.0 - base) / 8] == b.1
      && base <= b.1 <= base + 8 * |vs| && (b.1 - base) % 8 == 0
  }

  lemma ResolvedInside(bs: set<(Addr, Addr)>, base: Addr, us: seq<nat>, vs: seq<nat>, ws: seq<nat>)
    requires Resolved(bs, base + 8 * |us|, vs)
    ensures Resolved(bs, base, us + vs + ws)
  {
    forall b | b in bs
      ensures base <= b.0 < base + 8 * |us + vs + ws| && (b.0 - base) % 8 == 0
      ensures (us + vs + ws)[(b.0 - base) / 8] == b.1
      ensures base <= b.1 <= base + 8 * |us + vs + ws| && (b.1 - base) % 8 == 0
    {
      var k := (b.0 - (base + 8 * |us|)) / 8;
      assert (b.0 - base) / 8 == |us| + k;
      assert (us + vs + ws)[|us| + k] == vs[k];
    }
  }

  lemma NoneResolvedIn(base: Addr, vs: seq<nat>)
    ensures Resolved({}, base, vs)
  {
  }

  lemma UnionResolved(bs: set<(Addr, Addr)>, cs: set<(Addr, Addr)>, base: Addr, vs: seq<nat>)
    requires Resolved(bs, base, vs) && Resolved(cs, base, vs)
    ensures Resolved(bs + cs, base, vs)
  {
  }

  lemma {:induction false} TargetsResolved(p: Prog, base: Addr, x: Xts)
    ensures Resolved(Branches(p, base), base, Cells(p, base, x))
    decreases p
  {
    hide Resolved, CellsCmd, BranchesCmd, LenCmd;
    match p
    case Nil =>
      NoneResolvedIn(base, []);
    case Seq(c, r) =>
      var vs, ws := CellsCmd(c, base, x), Cells(r, base + 8 * LenCmd(c), x);
      TargetsResolvedCmd(c, base, x);
      TargetsResolved(r, base + 8 * LenCmd(c), x);
      ResolvedInside(BranchesCmd(c, base), base, [], vs, ws);
      ResolvedInside(Branches(r, base + 8 * LenCmd(c)), base, vs, ws, []);
      assert [] + vs + ws == vs + ws && vs + ws + [] == vs + ws;
      UnionResolved(BranchesCmd(c, base), Branches(r, base + 8 * LenCmd(c)), base, vs + ws);
  }

  lemma {:induction false} TargetsResolvedCmd(c: Cmd, base: Addr, x: Xts)
    ensures Resolved(BranchesCmd(c, base), base, CellsCmd(c, base, x))
    decreases c
  {
    hide Resolved, Cells, Branches, Len;
    match c
    case If(q) =>
      TargetsResolved(q, base + 16, x);
      var vs := Cells(q, base + 16, x);
      assert |vs| == Len(q);
      IfResolved(Branches(q, base + 16), base, vs, x.zbranch);
    case Until(q) =>
      TargetsResolved(q, base, x);
      var vs := Cells(q, base, x);
      assert |vs| == Len(q);
      LoopResolved(Branches(q, base), base, vs, x.zbranch);
    case Again(q) =>
      TargetsResolved(q, base, x);
      var vs := Cells(q, base, x);
      assert |vs| == Len(q);
      LoopResolved(Branches(q, base), base, vs, x.branch);
    case _ => NoneResolvedIn(base, CellsCmd(c, base, x));
  }

  lemma IfResolved(bs: set<(Addr, Addr)>, base: Addr, vs: seq<nat>, xt: Addr)
    requires Resolved(bs, base + 16, vs)
    ensures Resolved({(base + 8, base + 16 + 8 * |vs|)} + bs, base, [xt, base + 16 + 8 * |vs|] + vs)
  {
    var us := [xt, base + 16 + 8 * |vs|];
    ResolvedInside(bs, base, us, vs, []);
    assert us + vs + [] == us + vs;
  }

  lemma LoopResolved(bs: set<(Addr, Addr)>, base: Addr, vs: seq<nat>, xt: Addr)
    requires Resolved(bs, base, vs)
    ensures Resolved(bs + {(base + 8 * |vs| + 8, base)}, base, vs + [xt, base])
  {
    ResolvedInside(bs, base, [], vs, [xt, base]);
    assert [] + vs + [xt, base] == vs + [xt, base];
  }
}
