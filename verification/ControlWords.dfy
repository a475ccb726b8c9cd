/** The immediate words BEGIN, IF, THEN, AGAIN, UNTIL and X, compile what the C builders compile,
    with the parameter stack in the role of forth_cstk. */
module ControlWords {
  import opened Words
  import opened Memory
  import opened Opcodes
  import opened Machine
  import opened Library
  import opened Stepping
  import opened StackWords
  import opened Builders
  import opened DictWords
  import opened Compiler

  /** The machine's dictionary and parameter stack, taken for the builders' dictionary and stack. */
  function AsBuilder(s: State): Builder {
    Builder(s.env, Item(s.tos, s.ds))
  }

  /** How the number of stacked cells changes. */
  function Grown(a: Act, dn: nat): nat
    requires dn > 0
  {
    match a
    case AIf | ABegin => dn + 1
    case AThen | AAgain | AUntil => dn - 1
    case _ => dn
  }

  /** s after a word has done what the builder call a does. */
  function Built(s: State, a: Act): State
    requires s.dn > 0 && s.ds.Item?
  {
    var b := Build(AsBuilder(s), a);
    s.(pc := Next, env := b.env, tos := b.cstk.top, ds := b.cstk.rest, dn := Grown(a, s.dn))
  }

  predicate StringsHaveNoNul() {
    && 0 !in StrText(SLit) && 0 !in StrText(SExit) && 0 !in StrText(SBranch) && 0 !in StrText(SZBranch)
  }

  lemma NoNul()
    ensures StringsHaveNoNul()
  {
  }

  /** Enough stack for a word that compiles, and enough dictionary for n more bytes. */
  predicate Able(s: State, L: Lib, x: Xts, n: nat) {
    && s.ds.Item? && 0 < s.dn && s.dn + 6 <= STACK_DEPTH && s.rn + 4 <= STACK_DEPTH
    && Room(s.env, L, n) && Finds(s.env, x)
  }

  lemma BeginWord(s: State, L: Lib, x: Xts)
    requires Calling(s, L, BEGIN) && Able(s, L, x, 0)
    ensures Reaches(s, Built(s, ABegin))
  {
    hide Reaches, Image, Loaded, BodyOf, Step, Run, Search, Below;
    var s1 := Enter(s, L, BEGIN);
    var u1 := Fetch(s, s1, L, BEGIN, 0, D(HERE));
    Here(u1, L);
    var s2 := WithStack(u1, s.env.dp, Item(s.tos, s.ds), s.dn + 1);
    ReachesTrans(s, u1, s2);
    var s3 := Return(s, s2, L, BEGIN, 1);
    assert s3 == Built(s, ABegin);
  }

  lemma ThenWord(s: State, L: Lib, x: Xts)
    requires Calling(s, L, THEN) && Able(s, L, x, 0)
    requires L.top <= s.tos && RAM <= s.tos && s.tos in s.env.mem && s.env.mem[s.tos].Cell?
    ensures Reaches(s, Built(s, AThen))
  {
    hide Reaches, Image, Loaded, BodyOf, Step, Run, Search, Below;
    var s1 := Enter(s, L, THEN);
    var u1 := Fetch(s, s1, L, THEN, 0, D(HERE));
    Here(u1, L);
    var s2 := WithStack(u1, s.env.dp, Item(s.tos, s.ds), s.dn + 1);
    ReachesTrans(s, u1, s2);
    var s3 := Stk(s, s2, L, THEN, 1, Swap);
    var s4 := Store8(s, s3, L, THEN, 2);
    LoadedStore(s.env.mem, L, THEN, s.tos, Cell(s.env.dp));
    ImageStore(s.env.mem, L, s.tos, Cell(s.env.dp));
    var s5 := Return(s, s4, L, THEN, 3);
    assert s5 == Built(s, AThen);
  }

  /** The opening of `;`, AGAIN, UNTIL and IF: look a word up by its name in C and compile it. */
  predicate Opens(d: Def, i: nat, t: Str) {
    && CodeLen(d) > i + 6 && Code(d, i) == W(P(Lit)) && Code(d, i + 1) == S(t)
    && Code(d, i + 2) == W(P(Lit)) && Code(d, i + 3) == N(|StrText(t)|)
    && Code(d, i + 4) == W(P(Find)) && Code(d, i + 5) == W(D(XCOMMA))
  }

  lemma LookUp(s0: State, s: State, L: Lib, d: Def, i: nat, t: Str, xt: Addr) returns (u: State)
    requires Reaches(s0, s) && At(s, L, d, i) && Opens(d, i, t)
    requires s.dn + 2 <= STACK_DEPTH && 0 !in StrText(t) && |StrText(t)| <= NAME_MAXLEN
    requires Search(s.env.mem, s.env.latest, StrText(t)) == Found(xt)
    ensures Reaches(s0, u) && u == s.(ip := s.ip + 40, tos := xt, ds := Item(s.tos, s.ds), dn := s.dn + 1)
  {
    hide Reaches, Loaded, Image, Step, Run, Search, Code, CodeLen, StrText;
    Known(s.env.mem, L, T(t));
    StringLoaded(s.env.mem, L, t);
    var s1 := Literal(s0, s, L, d, i);
    var s2 := Literal(s0, s1, L, d, i + 2);
    u := Finding(s0, s2, L, d, i + 4, StrText(t));
    assert u == s.(ip := s.ip + 40, tos := xt, ds := Item(s.tos, s.ds), dn := s.dn + 1);
  }

  lemma CompileNamed(s0: State, s: State, L: Lib, d: Def, i: nat, t: Str, xt: Addr) returns (u: State)
    requires Reaches(s0, s) && At(s, L, d, i) && Opens(d, i, t)
    requires s.ds.Item? && 0 < s.dn && s.dn + 4 <= STACK_DEPTH && s.rn + 3 <= STACK_DEPTH
    requires Room(s.env, L, 8) && 0 !in StrText(t) && |StrText(t)| <= NAME_MAXLEN
    requires Search(s.env.mem, s.env.latest, StrText(t)) == Found(xt)
    ensures Reaches(s0, u) && u == s.(ip := s.ip + 48, env := Comma(s.env, xt))
    ensures At(u, L, d, i + 6) && BodyOf(u.env.mem, L, d) == BodyOf(s.env.mem, L, d)
  {
    hide Reaches, Loaded, Image, Step, Run, Search, Code, CodeLen, StrText, Below;
    var s3 := LookUp(s0, s, L, d, i, t, xt);
    var u1 := Fetch(s0, s3, L, d, i + 5, D(XCOMMA));
    XComma(u1, L, s.tos, s.ds);
    u := WithStack(u1, s.tos, s.ds, s.dn).(env := Comma(s.env, xt));
    ReachesTrans(s0, u1, u);
    LoadedStore(s.env.mem, L, d, s.env.dp, Cell(xt));
    CommaKeeps(s.env, L, xt);
    assert u == s.(ip := s.ip + 48, env := Comma(s.env, xt));
  }

  lemma StringLoaded(m: Mem, L: Lib, t: Str)
    requires Loaded(m, L, T(t))
    ensures HasChars(m, L.at(T(t)), StrText(t))
  {
  }

  lemma BackWord(s: State, L: Lib, x: Xts, d: Def, t: Str, xt: Addr, a: Act)
    requires (d == AGAIN && t == SBranch && a == AAgain && xt == x.branch)
          || (d == UNTIL && t == SZBranch && a == AUntil && xt == x.zbranch)
    requires Calling(s, L, d) && Able(s, L, x, 16)
    ensures Reaches(s, Built(s, a))
  {
    hide Reaches, Image, Loaded, BodyOf, Step, Run, Search, Below, StrText;
    NoNul();
    StrLengths(t);
    var s1 := Enter(s, L, d);
    var s2 := CompileNamed(s, s1, L, d, 0, t, xt);
    CommaRoom(s.env, L, xt, 8);
    var s4 := CompilesBack(s, s2, L, d);
    hide Search, Codes;
    assert s4 == Built(s, a);
  }

  lemma StrLengths(t: Str)
    requires t == SBranch || t == SZBranch
    ensures |StrText(t)| <= 7
    ensures StrText(t) == if t == SBranch then Codes("BRANCH") else Codes("ZBRANCH")
  {
  }

  /** The second X, of AGAIN or UNTIL: the address on the stack. */
  lemma CompilesBack(s0: State, s: State, L: Lib, d: Def) returns (t: State)
    requires d == AGAIN || d == UNTIL
    requires Reaches(s0, s) && At(s, L, d, 6) && s.ds.Item? && 0 < s.dn && s.dn + 6 <= STACK_DEPTH
    requires s.rs.Item? && 0 < s.rn && s.rn + 3 <= STACK_DEPTH && Room(s.env, L, 8)
    ensures Reaches(s0, t)
    ensures t == s.(ip := s.rs.top, rs := s.rs.rest, rn := s.rn - 1, tos := s.ds.top, ds := s.ds.rest, dn := s.dn - 1,
                    env := Comma(s.env, s.tos))
  {
    hide Reaches, Image, Loaded, BodyOf, Step, Run, Below;
    var u1 := Fetch(s0, s, L, d, 6, D(XCOMMA));
    XComma(u1, L, s.ds.top, s.ds.rest);
    var s3 := WithStack(u1, s.ds.top, s.ds.rest, s.dn - 1).(env := Comma(s.env, s.tos));
    ReachesTrans(s0, u1, s3);
    LoadedStore(s.env.mem, L, d, s.env.dp, Cell(s.tos));
    CommaKeeps(s.env, L, s.tos);
    t := Return(s0, s3, L, d, 7);
  }

  lemma IfWord(s: State, L: Lib, x: Xts)
    requires Calling(s, L, IF) && Able(s, L, x, 16)
    ensures Reaches(s, Built(s, AIf))
  {
    hide Reaches, Image, Loaded, BodyOf, Step, Run, Search, Below;
    NoNul();
    var s1 := Enter(s, L, IF);
    var s2 := CompileNamed(s, s1, L, IF, 0, SZBranch, x.zbranch);
    var hole := s.env.dp + 8;
    var u1 := Fetch(s, s2, L, IF, 6, D(HERE));
    Here(u1, L);
    var s3 := WithStack(u1, hole, Item(s.tos, s.ds), s.dn + 1);
    ReachesTrans(s, u1, s3);
    var s4 := Constant(s, s3, L, IF, 7, K0);
    var u2 := Fetch(s, s4, L, IF, 8, D(XCOMMA));
    CommaRoom(s.env, L, x.zbranch, 8);
    XComma(u2, L, hole, Item(s.tos, s.ds));
    var s5 := WithStack(u2, hole, Item(s.tos, s.ds), s.dn + 1).(env := Comma(s2.env, 0));
    ReachesTrans(s, u2, s5);
    LoadedStore(s2.env.mem, L, IF, s2.env.dp, Cell(0));
    CommaKeeps(s2.env, L, 0);
    var s6 := Return(s, s5, L, IF, 9);
    assert s6 == Built(s, AIf);
  }

  function WithTop(s: State, v: nat): State {
    s.(tos := v, ds := Item(s.tos, s.ds), dn := s.dn + 1)
  }

  /** The machine carries out the immediate word for a from s and is then at u. A cell is compiled
      by X, with the cell on the stack; a literal by two X, with the number below LIT, as INTERPRET
      does it. */
  ghost predicate Executes(s: State, L: Lib, x: Xts, a: Act, u: State) {
    u.pc == Next &&
    match a
    case ACell(v) => Reaches(WithTop(s, v).(pc := Exec(L.at(D(XCOMMA)))), u)
    case ALit(n) =>
      (exists m: State :: && m.pc == Next
                          && Reaches(WithTop(WithTop(s, n), x.lit).(pc := Exec(L.at(D(XCOMMA)))), m)
                          && Reaches(m.(pc := Exec(L.at(D(XCOMMA)))), u))
    case AIf => Reaches(s.(pc := Exec(L.at(D(IF)))), u)
    case AThen => Reaches(s.(pc := Exec(L.at(D(THEN)))), u)
    case ABegin => Reaches(s.(pc := Exec(L.at(D(BEGIN)))), u)
    case AAgain => Reaches(s.(pc := Exec(L.at(D(AGAIN)))), u)
    case AUntil => Reaches(s.(pc := Exec(L.at(D(UNTIL)))), u)
  }

  /** Carrying out the words of p one after another leads from s to u. */
  ghost predicate Feeds(s: State, L: Lib, x: Xts, p: Prog, u: State)
    decreases p
  {
    match p
    case Nil => u == s
    case Seq(c, r) => exists m :: FeedsCmd(s, L, x, c, m) && Feeds(m, L, x, r, u)
  }

  ghost predicate FeedsCmd(s: State, L: Lib, x: Xts, c: Cmd, u: State)
    decreases c
  {
    match c
    case Prim(xt) => Executes(s, L, x, ACell(xt), u)
    case Number(n) => Executes(s, L, x, ALit(n), u)
    case If(q) => exists m, n :: Executes(s, L, x, AIf, m) && Feeds(m, L, x, q, n) && Executes(n, L, x, AThen, u)
    case Until(q) => exists m, n :: Executes(s, L, x, ABegin, m) && Feeds(m, L, x, q, n) && Executes(n, L, x, AUntil, u)
    case Again(q) => exists m, n :: Executes(s, L, x, ABegin, m) && Feeds(m, L, x, q, n) && Executes(n, L, x, AAgain, u)
    case Leave => Executes(s, L, x, ACell(x.exit), u)
  }

  /** How many addresses p keeps on the stack at once. */
  function Nesting(p: Prog): nat
    decreases p
  {
    match p
    case Nil => 0
    case Seq(c, r) => if NestingCmd(c) < Nesting(r) then Nesting(r) else NestingCmd(c)
  }

  function NestingCmd(c: Cmd): nat
    decreases c
  {
    match c
    case If(q) => 1 + Nesting(q)
    case Until(q) => 1 + Nesting(q)
    case Again(q) => 1 + Nesting(q)
    case _ => 0
  }

  /** Stack and dictionary suffice to compile n bytes of code nested k deep. */
  ghost predicate Fit(s: State, L: Lib, x: Xts, n: nat, k: nat) {
    && s.pc == Next && Image(s.env.mem, L)
    && s.ds.Item? && 0 < s.dn && s.dn + k + 7 <= STACK_DEPTH && s.rn + 4 <= STACK_DEPTH
    && Room(s.env, L, n + 16) && Finds(s.env, x)
  }

  /** The state once p has been compiled: only the dictionary has changed. */
  function Compiled(s: State, p: Prog, x: Xts): State {
    s.(env := Emit(AsBuilder(s), p, x).env)
  }

  lemma {:induction false} LayImage(m: Mem, L: Lib, a: Addr, vs: seq<nat>)
    requires Image(m, L) && RAM <= a && L.top <= a
    ensures Image(Lay(m, a, vs), L)
    decreases |vs|
  {
    hide Image;
    if vs != [] {
      ImageStore(m, L, a, Cell(vs[0]));
      LayImage(m[a := Cell(vs[0])], L, a + 8, vs[1..]);
    }
  }

  lemma LaidFit(s: State, L: Lib, x: Xts, vs: seq<nat>, n: nat, k: nat)
    requires Fit(s, L, x, 8 * |vs| + n, k)
    ensures Fit(s.(env := Laid(AsBuilder(s), vs).env), L, x, n, k)
  {
    hide Image, Search, Lay, Below, Finds;
    LaidReady(AsBuilder(s), x, vs);
    LayImage(s.env.mem, L, s.env.dp, vs);
  }

  lemma CellFed(s: State, L: Lib, x: Xts, v: nat)
    requires Fit(s, L, x, 8, 0)
    ensures Executes(s, L, x, ACell(v), s.(env := Comma(s.env, v)))
  {
    hide Reaches, Image, Loaded, Search, Below, Step, Run;
    XComma(WithTop(s, v).(pc := Exec(L.at(D(XCOMMA)))), L, s.tos, s.ds);
  }

  lemma NumberFed(s: State, L: Lib, x: Xts, n: nat)
    requires Fit(s, L, x, 16, 0)
    ensures Executes(s, L, x, ALit(n), s.(env := Build(AsBuilder(s), ALit(n)).env))
  {
    hide Reaches, Image, Loaded, Search, Below, Step, Run;
    var p := WithTop(s, n);
    XComma(WithTop(p, x.lit).(pc := Exec(L.at(D(XCOMMA)))), L, n, p.ds);
    var m := p.(env := Comma(s.env, x.lit));
    CommaKeeps(s.env, L, x.lit);
    CommaRoom(s.env, L, x.lit, 8);
    XComma(m.(pc := Exec(L.at(D(XCOMMA)))), L, s.tos, s.ds);
    assert Reaches(WithTop(p, x.lit).(pc := Exec(L.at(D(XCOMMA)))), m);
  }

  lemma IfFed(s: State, L: Lib, x: Xts)
    requires Fit(s, L, x, 16, 0)
    ensures Executes(s, L, x, AIf, Built(s, AIf))
  {
    hide Reaches, Image, Loaded, Search, Below, Step, Run;
    IfWord(s.(pc := Exec(L.at(D(IF)))), L, x);
    assert Built(s.(pc := Exec(L.at(D(IF)))), AIf) == Built(s, AIf);
  }

  lemma ThenFed(s: State, L: Lib, x: Xts)
    requires Fit(s, L, x, 0, 0)
    requires L.top <= s.tos && RAM <= s.tos && s.tos in s.env.mem && s.env.mem[s.tos].Cell?
    ensures Executes(s, L, x, AThen, Built(s, AThen))
  {
    hide Reaches, Image, Loaded, Search, Below, Step, Run;
    ThenWord(s.(pc := Exec(L.at(D(THEN)))), L, x);
    assert Built(s.(pc := Exec(L.at(D(THEN)))), AThen) == Built(s, AThen);
  }

  lemma BeginFed(s: State, L: Lib, x: Xts)
    requires Fit(s, L, x, 0, 0)
    ensures Executes(s, L, x, ABegin, Built(s, ABegin))
  {
    hide Reaches, Image, Loaded, Search, Below, Step, Run;
    BeginWord(s.(pc := Exec(L.at(D(BEGIN)))), L, x);
    assert Built(s.(pc := Exec(L.at(D(BEGIN)))), ABegin) == Built(s, ABegin);
  }

  lemma BackFed(s: State, L: Lib, x: Xts, a: Act)
    requires Fit(s, L, x, 16, 0) && (a == AUntil || a == AAgain)
    ensures Executes(s, L, x, a, Built(s, a))
  {
    hide Reaches, Image, Loaded, Search, Below, Step, Run;
    if a == AUntil {
      BackWord(s.(pc := Exec(L.at(D(UNTIL)))), L, x, UNTIL, SZBranch, x.zbranch, a);
      assert Built(s.(pc := Exec(L.at(D(UNTIL)))), a) == Built(s, a);
    } else {
      BackWord(s.(pc := Exec(L.at(D(AGAIN)))), L, x, AGAIN, SBranch, x.branch, a);
      assert Built(s.(pc := Exec(L.at(D(AGAIN)))), a) == Built(s, a);
    }
  }

  lemma FitReady(s: State, L: Lib, x: Xts, n: nat, k: nat)
    requires Fit(s, L, x, n, k)
    ensures Ready(s.env, x) && s.pc == Next && s.ds.Item? && s.dn > 0
    ensures forall i: nat, j: nat :: i <= n && j <= k ==> Fit(s, L, x, i, j)
  {
    hide Image, Search;
  }

  /** After IF the machine fits the body, one address deeper. */
  lemma IfFit(s: State, L: Lib, x: Xts, n: nat, k: nat)
    requires Fit(s, L, x, n + 16, k + 1)
    ensures Fit(Built(s, AIf), L, x, n, k) && AsBuilder(Built(s, AIf)) == Build(AsBuilder(s), AIf)
  {
    hide Image, Search, Lay, Below, Finds;
    LaidFit(s, L, x, [x.zbranch, 0], n, k + 1);
    LaidTwo(AsBuilder(s), x.zbranch, 0);
    assert Search(s.env.mem, s.env.latest, Codes("ZBRANCH")) == Found(x.zbranch) by { FindsZ(s.env, x); }
  }

  lemma FindsZ(e: Env, x: Xts)
    requires Finds(e, x)
    ensures Search(e.mem, e.latest, Codes("ZBRANCH")) == Found(x.zbranch)
    ensures Search(e.mem, e.latest, Codes("BRANCH")) == Found(x.branch)
    ensures Search(e.mem, e.latest, Codes("LIT")) == Found(x.lit)
  {
    hide Search;
  }

  lemma BeginFit(s: State, L: Lib, x: Xts, n: nat, k: nat)
    requires Fit(s, L, x, n, k + 1)
    ensures Fit(Built(s, ABegin), L, x, n, k) && AsBuilder(Built(s, ABegin)) == Build(AsBuilder(s), ABegin)
  {
    hide Image, Search, Below, Finds;
  }

  /** The two compilers agree: carrying out the words of p compiles what the builders emit for p,
      and leaves the parameter stack as it was. */
  lemma {:induction false} ThreadedEmits(s: State, L: Lib, x: Xts, p: Prog, n: nat, k: nat)
    requires Fit(s, L, x, 8 * Len(p) + n, k) && Nesting(p) <= k
    ensures Feeds(s, L, x, p, Compiled(s, p, x))
    ensures Fit(Compiled(s, p, x), L, x, n, k)
    decreases p, 0
  {
    hide Fit, Executes, Ready, Lay;
    FitReady(s, L, x, 8 * Len(p) + n, k);
    EmitLays(AsBuilder(s), p, x);
    LaidFit(s, L, x, Cells(p, s.env.dp, x), n, k);
    match p
    case Nil =>
      assert Compiled(s, p, x) == s;
    case Seq(c, r) =>
      ThreadedEmitsCmd(s, L, x, c, 8 * Len(r) + n, k);
      var m := CompiledCmd(s, c, x);
      EmitCmdLays(AsBuilder(s), c, x);
      assert AsBuilder(m) == EmitCmd(AsBuilder(s), c, x);
      ThreadedEmits(m, L, x, r, n, k);
      assert Compiled(m, r, x) == Compiled(s, p, x);
  }

  function CompiledCmd(s: State, c: Cmd, x: Xts): State {
    s.(env := EmitCmd(AsBuilder(s), c, x).env)
  }

  lemma {:induction false} ThreadedEmitsCmd(s: State, L: Lib, x: Xts, c: Cmd, n: nat, k: nat)
    requires Fit(s, L, x, 8 * LenCmd(c) + n, k) && NestingCmd(c) <= k
    ensures FeedsCmd(s, L, x, c, CompiledCmd(s, c, x))
    ensures Fit(CompiledCmd(s, c, x), L, x, n, k)
    decreases c, 1
  {
    hide Fit, Executes, Ready, Lay, Laid, Cells, Search, Codes, Comma;
    FitReady(s, L, x, 8 * LenCmd(c) + n, k);
    EmitCmdLays(AsBuilder(s), c, x);
    LaidFit(s, L, x, CellsCmd(c, s.env.dp, x), n, k);
    match c
    case Prim(xt) => CellFed(s, L, x, xt);
    case Number(v) => NumberFed(s, L, x, v);
    case Leave => CellFed(s, L, x, x.exit);
    case If(q) => ThreadedIf(s, L, x, q, n, k);
    case Until(q) => ThreadedLoop(s, L, x, q, AUntil, n, k);
    case Again(q) => ThreadedLoop(s, L, x, q, AAgain, n, k);
  }

  lemma ThreadedIf(s: State, L: Lib, x: Xts, q: Prog, n: nat, k: nat)
    requires Fit(s, L, x, 8 * Len(q) + 16 + n, k) && Nesting(q) + 1 <= k
    ensures FeedsCmd(s, L, x, If(q), CompiledCmd(s, If(q), x))
    decreases q, 1
  {
    hide Fit, Executes, Ready, Lay, Search, Codes, Comma;
    FitReady(s, L, x, 8 * Len(q) + 16 + n, k);
    IfFed(s, L, x);
    IfFit(s, L, x, 8 * Len(q) + n, k - 1);
    var m := Built(s, AIf);
    ThreadedEmits(m, L, x, q, n, k - 1);
    var u := Compiled(m, q, x);
    FitReady(m, L, x, 8 * Len(q) + n, k - 1);
    FitReady(u, L, x, n, k - 1);
    EmitLays(AsBuilder(m), q, x);
    HoleKept(s, L, x, q, n, k);
    ThenFed(u, L, x);
    assert AsBuilder(u) == Emit(AsBuilder(m), q, x);
    assert Built(u, AThen) == CompiledCmd(s, If(q), x);
  }

  /** The placeholder IF left is still there, unpatched, when THEN comes. */
  lemma HoleKept(s: State, L: Lib, x: Xts, q: Prog, n: nat, k: nat)
    requires Fit(s, L, x, n + 16, k) && Ready(Built(s, AIf).env, x)
    ensures var u := Compiled(Built(s, AIf), q, x);
      && u.tos == s.env.dp + 8 && L.top <= u.tos && RAM <= u.tos
      && HasCell(u.env.mem, u.tos, 0)
  {
    hide Image, Search, Codes;
    var m := Built(s, AIf);
    EmitLays(AsBuilder(m), q, x);
    LayGets(m.env.mem, m.env.dp, Cells(q, m.env.dp, x));
  }

  lemma ThreadedLoop(s: State, L: Lib, x: Xts, q: Prog, a: Act, n: nat, k: nat)
    requires Fit(s, L, x, 8 * Len(q) + 16 + n, k) && Nesting(q) + 1 <= k
    requires a == AUntil || a == AAgain
    ensures var c := if a == AUntil then Until(q) else Again(q);
      FeedsCmd(s, L, x, c, CompiledCmd(s, c, x))
    decreases q, 1
  {
    hide Fit, Executes, Ready, Lay, Search, Codes, Comma;
    FitReady(s, L, x, 8 * Len(q) + 16 + n, k);
    BeginFed(s, L, x);
    BeginFit(s, L, x, 8 * Len(q) + 16 + n, k - 1);
    var m := Built(s, ABegin);
    ThreadedEmits(m, L, x, q, n + 16, k - 1);
    var u := Compiled(m, q, x);
    FitReady(m, L, x, 8 * Len(q) + 16 + n, k - 1);
    FitReady(u, L, x, n + 16, k - 1);
    EmitLays(AsBuilder(m), q, x);
    BackFed(u, L, x, a);
    assert AsBuilder(u) == Emit(AsBuilder(m), q, x);
    var c := if a == AUntil then Until(q) else Again(q);
    assert Built(u, a) == CompiledCmd(s, c, x);
  }
}
