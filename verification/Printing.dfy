/** The printing loops of forth_io.c: WTYPE, NHEX. with XHEX. and . , and .S */
module Printing {
  import opened Words
  import opened Memory
  import opened Opcodes
  import opened Machine
  import opened Library
  import opened Stepping
  import opened StackWords
  import opened IoWords

  /** Everything a loop body needs: room for temporaries and the default vectors. */
  ghost predicate CanPrint(s: State, L: Lib, cells: nat, calls: nat) {
    && Image(s.env.mem, L) && DefaultIo(s.env, L)
    && s.dn + cells <= STACK_DEPTH && s.rn + calls <= STACK_DEPTH
  }

  predicate Characters(cs: seq<nat>) {
    forall i :: 0 <= i < |cs| ==> cs[i] < 0x1_0000
  }

  /** The first half of WTYPE's loop body: OVER W@ WEMIT. */
  lemma TypeOne(s0: State, s: State, L: Lib, a: nat, r: Stack, c: nat) returns (t: State)
    requires Reaches(s0, s) && At(s, L, WTYPE, 3) && CanPrint(s, L, 2, 1)
    requires s.ds == Item(a, r) && 2 <= s.dn && a in s.env.mem && s.env.mem[a] == Wide(c) && c < 0x1_0000
    ensures Reaches(s0, t) && t == s.(ip := s.ip + 24, env := Emitted(s.env, [c]))
  {
    hide Reaches, Image, Loaded, BodyOf, Step, Run;
    var s1 := Stk(s0, s, L, WTYPE, 3, Over);
    var s2 := Fetch2(s0, s1, L, WTYPE, 4);
    var u := Fetch(s0, s2, L, WTYPE, 5, D(WEMIT));
    WEmit(u, L, s.tos, s.ds);
    t := WithStack(u, s.tos, s.ds, s.dn).(env := Emitted(s.env, [c]));
    ReachesTrans(s0, u, t);
    assert t == s.(ip := s.ip + 24, env := Emitted(s.env, [c]));
  }

  /** The second half: step the count and the address. */
  lemma TypeNext(s0: State, s: State, L: Lib, a: nat, r: Stack) returns (t: State)
    requires Reaches(s0, s) && At(s, L, WTYPE, 6) && s.dn + 2 <= STACK_DEPTH
    requires s.ds == Item(a, r) && 2 <= s.dn && 0 < s.tos < TWO64 && a + 2 < TWO64
    ensures Reaches(s0, t) && t == s.(ip := s.ip + 40, tos := s.tos - 1, ds := Item(a + 2, r))
  {
    hide Reaches, Image, Loaded, BodyOf, Step, Run, Result;
    Decrement(s.tos);
    Sum(a, 2);
    var s1 := Una(s0, s, L, WTYPE, 6, OneMinus);
    var s2 := Stk(s0, s1, L, WTYPE, 7, Swap);
    var s3 := Constant(s0, s2, L, WTYPE, 8, K2);
    var s4 := Ari(s0, s3, L, WTYPE, 9, Plus);
    t := Stk(s0, s4, L, WTYPE, 10, Swap);
    assert t == s.(ip := s.ip + 40, tos := s.tos - 1, ds := Item(a + 2, r));
  }

  /** DUP 0= and the branch back to cell k, unless the count is zero. */
  lemma LoopTest(s0: State, s: State, L: Lib, d: Def, i: nat, k: nat) returns (t: State)
    requires Reaches(s0, s) && At(s, L, d, i) && 0 < s.dn < STACK_DEPTH && k <= i
    requires i + 3 < CodeLen(d) && Code(d, i) == W(P(Dup)) && Code(d, i + 1) == W(P(EqZ))
    requires Code(d, i + 2) == W(P(ZBranch)) && Code(d, i + 3) == To(k)
    ensures Reaches(s0, t)
    ensures t == s.(ip := if s.tos == 0 then s.ip + 32 else s.ip - 8 * (i - k))
  {
    hide Reaches, Image, Loaded, BodyOf, Step, Run, Result, Code, CodeLen;
    IsZero(s.tos);
    var s6 := Stk(s0, s, L, d, i, Dup);
    assert s6 == s.(ip := s.ip + 8, ds := Item(s.tos, s.ds), dn := s.dn + 1);
    var s7 := Una(s0, s6, L, d, i + 1, EqZ);
    hide Shuffle;
    t := ZJump(s0, s7, L, d, i + 2, k);
  }

  /** WTYPE's loop, from its start to its end. */
  lemma {:induction false} TypeAll(s0: State, s: State, L: Lib, a: nat, r: Stack, cs: seq<nat>) returns (t: State)
    requires Reaches(s0, s) && At(s, L, WTYPE, 3) && CanPrint(s, L, 2, 1)
    requires s.ds == Item(a, r) && 2 <= s.dn && s.tos == |cs| && 0 < |cs| && a + 2 * |cs| < TWO64
    requires Characters(cs) && HasChars(s.env.mem, a, cs)
    ensures Reaches(s0, t)
    ensures t == s.(ip := s.ip + 96, tos := 0, ds := Item(a + 2 * |cs|, r), env := Emitted(s.env, cs))
    decreases |cs|
  {
    hide Reaches, Image, Loaded, BodyOf, Step, Run;
    assert a + 2 * 0 in s.env.mem;
    var s1 := TypeOne(s0, s, L, a, r, cs[0]);
    var s2 := TypeNext(s0, s1, L, a, r);
    var s3 := LoopTest(s0, s2, L, WTYPE, 11, 3);
    if |cs| == 1 {
      assert cs == [cs[0]];
      t := s3;
    } else {
      CharsTail(s.env.mem, a, cs);
      t := TypeAll(s0, s3, L, a + 2, r, cs[1..]);
      EmittedTwice(s.env, [cs[0]], cs[1..]);
      assert [cs[0]] + cs[1..] == cs;
    }
  }

  lemma CharsTail(m: Mem, a: Addr, cs: seq<nat>)
    requires HasChars(m, a, cs) && cs != []
    ensures HasChars(m, a + 2, cs[1..]) && a in m && m[a] == Wide(cs[0])
  {
    assert a + 2 * 0 in m;
    forall i | 0 <= i < |cs| - 1 ensures a + 2 + 2 * i in m && m[a + 2 + 2 * i] == Wide(cs[1..][i]) {
      assert a + 2 * (i + 1) in m && m[a + 2 * (i + 1)] == Wide(cs[i + 1]);
    }
  }

  lemma WTypeCells()
    ensures CodeLen(WTYPE) == 17 && Code(WTYPE, 0) == W(P(Dup)) && Code(WTYPE, 1) == W(P(ZBranch))
    ensures Code(WTYPE, 2) == To(15) && Code(WTYPE, 15) == W(D(TWODROP)) && Code(WTYPE, 16) == W(P(Exit))
  {
  }

  /** WTYPE prints the string and drops its address and count. */
  lemma WType(s: State, L: Lib, a: nat, y: nat, r: Stack, cs: seq<nat>)
    requires Calling(s, L, WTYPE) && CanPrint(s, L, 2, 2)
    requires s.ds == Item(a, Item(y, r)) && 2 <= s.dn && s.tos == |cs| && a + 2 * |cs| < TWO64
    requires Characters(cs) && HasChars(s.env.mem, a, cs)
    ensures Reaches(s, WithStack(s, y, r, s.dn - 2).(env := Emitted(s.env, cs)))
  {
    hide Reaches, Image, Loaded, BodyOf, Step, Run, Code, CodeLen;
    WTypeCells();
    var s1 := Enter(s, L, WTYPE);
    var s2 := Stk(s, s1, L, WTYPE, 0, Dup);
    var s3 := ZJump(s, s2, L, WTYPE, 1, 15);
    var s4 := s3;
    if cs != [] {
      s4 := TypeAll(s, s3, L, a, Item(y, r), cs);
    } else {
      assert Emitted(s.env, cs) == s.env;
    }
    var u := Fetch(s, s4, L, WTYPE, 15, D(TWODROP));
    TwoDrop(u, L, s4.ds.top, y, r);
    var s5 := WithStack(u, y, r, s.dn - 2);
    ReachesTrans(s, u, s5);
    var s6 := Return(s, s5, L, WTYPE, 16);
    assert s6 == WithStack(s, y, r, s.dn - 2).(env := Emitted(s.env, cs));
  }

  function HexChar(d: nat): nat
    requires d < 16
  {
    if d < 10 then 48 + d else 55 + d
  }

  /** The c lowest hex digits of n, most significant first. */
  function HexText(n: nat, c: nat): (r: seq<nat>)
    ensures |r| == c
  {
    if c == 0 then [] else [HexChar(n / Pow2(4 * (c - 1)) % 16)] + HexText(n, c - 1)
  }

  lemma HexLut(d: nat)
    requires d < 16
    ensures StrText(SLut)[d] == HexChar(d)
  {
    var lut := "0123456789ABCDEF";
    assert StrText(SLut)[d] == lut[d] as nat;
    assert d == 0 || d == 1 || d == 2 || d == 3 || d == 4 || d == 5 || d == 6 || d == 7 || d == 8 || d == 9
        || d == 10 || d == 11 || d == 12 || d == 13 || d == 14 || d == 15;
  }

  lemma LutLoaded(m: Mem, L: Lib, d: nat)
    requires Image(m, L) && d < 16
    ensures L.at(T(SLut)) + 2 * d in m && m[L.at(T(SLut)) + 2 * d] == Wide(HexChar(d))
    ensures L.at(T(SLut)) + 32 <= RAM
  {
    Known(m, L, T(SLut));
    HexLut(d);
  }

  lemma Nibble(s: State, L: Lib)
    requires Calling(s, L, NIBBLE) && s.dn < STACK_DEPTH && s.rn < STACK_DEPTH
    ensures Reaches(s, s.(pc := Next, tos := HexChar(s.tos % 16)))
  {
    hide Reaches, Image, Loaded, BodyOf, Step, Run, Result, StrText;
    var d := s.tos % 16;
    var lut := L.at(T(SLut));
    LutLoaded(s.env.mem, L, d);
    MaskResult(s.tos);
    Twice(d);
    Sum(2 * d, lut);
    var s1 := Enter(s, L, NIBBLE);
    var s2 := Constant(s, s1, L, NIBBLE, 0, KF);
    var s3 := Ari(s, s2, L, NIBBLE, 1, AndOp);
    var s4 := Una(s, s3, L, NIBBLE, 2, TwoMulti);
    var s5 := Literal(s, s4, L, NIBBLE, 3);
    var s6 := Ari(s, s5, L, NIBBLE, 5, Plus);
    var s7 := Fetch2(s, s6, L, NIBBLE, 6);
    var s8 := Return(s, s7, L, NIBBLE, 7);
    assert s8 == s.(pc := Next, tos := HexChar(d));
  }

  lemma MaskResult(x: nat)
    ensures Result(AndOp, x, 15) == x % 16
  {
    LowNibble(x);
  }

  /** NHEX.'s loop body: print the digit the count selects. */
  lemma DigitOut(s0: State, s: State, L: Lib, n: nat, r: Stack) returns (t: State)
    requires Reaches(s0, s) && At(s, L, NHEX, 3) && CanPrint(s, L, 4, 2)
    requires s.ds == Item(n, r) && 2 <= s.dn && 0 < s.tos <= 16
    ensures Reaches(s0, t)
    ensures t == s.(ip := s.ip + 56, env := Emitted(s.env, [HexChar(n / Pow2(4 * (s.tos - 1)) % 16)]))
  {
    hide Reaches, Image, Loaded, BodyOf, Step, Run, Result, Pow2;
    var c := s.tos;
    Decrement(c);
    Product(c - 1, 4);
    Shifted(n, 4 * (c - 1));
    var u1 := Fetch(s0, s, L, NHEX, 3, D(TWODUP));
    TwoDup(u1, L, n, r);
    var s1 := WithStack(u1, c, Item(n, Item(c, s.ds)), s.dn + 2);
    ReachesTrans(s0, u1, s1);
    var s2 := Una(s0, s1, L, NHEX, 4, OneMinus);
    var s3 := Constant(s0, s2, L, NHEX, 5, K4);
    var s4 := Ari(s0, s3, L, NHEX, 6, Multi);
    var s5 := Ari(s0, s4, L, NHEX, 7, RShift);
    t := DigitEmit(s0, s5, L, c, s.ds);
    assert t == s.(ip := s.ip + 56, env := Emitted(s.env, [HexChar(n / Pow2(4 * (c - 1)) % 16)]));
  }

  lemma DigitEmit(s0: State, s: State, L: Lib, c: nat, r: Stack) returns (t: State)
    requires Reaches(s0, s) && At(s, L, NHEX, 8) && CanPrint(s, L, 1, 1)
    requires s.ds == Item(c, r) && 0 < s.dn
    ensures Reaches(s0, t)
    ensures t == s.(ip := s.ip + 16, tos := c, ds := r, dn := s.dn - 1, env := Emitted(s.env, [HexChar(s.tos % 16)]))
  {
    hide Reaches, Image, Loaded, BodyOf, Step, Run;
    var u1 := Fetch(s0, s, L, NHEX, 8, D(NIBBLE));
    Nibble(u1, L);
    var s1 := u1.(pc := Next, tos := HexChar(s.tos % 16));
    ReachesTrans(s0, u1, s1);
    var u2 := Fetch(s0, s1, L, NHEX, 9, D(WEMIT));
    WEmit(u2, L, c, r);
    t := WithStack(u2, c, r, s.dn - 1).(env := Emitted(s.env, [HexChar(s.tos % 16)]));
    ReachesTrans(s0, u2, t);
    assert t == s.(ip := s.ip + 16, tos := c, ds := r, dn := s.dn - 1, env := Emitted(s.env, [HexChar(s.tos % 16)]));
  }

  lemma {:induction false} DigitsOut(s0: State, s: State, L: Lib, n: nat, r: Stack) returns (t: State)
    requires Reaches(s0, s) && At(s, L, NHEX, 3) && CanPrint(s, L, 4, 2)
    requires s.ds == Item(n, r) && 2 <= s.dn && 0 < s.tos <= 16
    ensures Reaches(s0, t)
    ensures t == s.(ip := s.ip + 96, tos := 0, env := Emitted(s.env, HexText(n, s.tos)))
    decreases s.tos
  {
    hide Reaches, Image, Loaded, BodyOf, Step, Run, Result, Pow2, HexChar;
    var c := s.tos;
    Decrement(c);
    var s1 := DigitOut(s0, s, L, n, r);
    var s2 := Una(s0, s1, L, NHEX, 10, OneMinus);
    var s3 := LoopTest(s0, s2, L, NHEX, 11, 3);
    var one := [HexChar(n / Pow2(4 * (c - 1)) % 16)];
    assert HexText(n, c) == one + HexText(n, c - 1);
    if c == 1 {
      assert HexText(n, 0) == [] && one + [] == one;
      t := s3;
    } else {
      t := DigitsOut(s0, s3, L, n, r);
      EmittedTwice(s.env, one, HexText(n, c - 1));
    }
  }

  lemma NHexCells()
    ensures CodeLen(NHEX) == 17 && Code(NHEX, 0) == W(P(Dup)) && Code(NHEX, 1) == W(P(ZBranch))
    ensures Code(NHEX, 2) == To(15) && Code(NHEX, 15) == W(D(TWODROP)) && Code(NHEX, 16) == W(P(Exit))
  {
  }

  /** NHEX. prints the c lowest hex digits of n. */
  lemma NHex(s: State, L: Lib, n: nat, y: nat, r: Stack)
    requires Calling(s, L, NHEX) && CanPrint(s, L, 4, 3)
    requires s.ds == Item(n, Item(y, r)) && 2 <= s.dn && s.tos <= 16
    ensures Reaches(s, WithStack(s, y, r, s.dn - 2).(env := Emitted(s.env, HexText(n, s.tos))))
  {
    hide Reaches, Image, Loaded, BodyOf, Step, Run, Pow2, HexChar, Code, CodeLen;
    NHexCells();
    var s1 := Enter(s, L, NHEX);
    var s2 := Stk(s, s1, L, NHEX, 0, Dup);
    var s3 := ZJump(s, s2, L, NHEX, 1, 15);
    var s4 := s3;
    if s.tos != 0 {
      s4 := DigitsOut(s, s3, L, n, Item(y, r));
    } else {
      assert Emitted(s.env, HexText(n, 0)) == s.env;
    }
    var u := Fetch(s, s4, L, NHEX, 15, D(TWODROP));
    TwoDrop(u, L, n, y, r);
    var s5 := WithStack(u, y, r, s.dn - 2);
    ReachesTrans(s, u, s5);
    var s6 := Return(s, s5, L, NHEX, 16);
    assert s6 == WithStack(s, y, r, s.dn - 2).(env := Emitted(s.env, HexText(n, s.tos)));
  }

  lemma XHex(s: State, L: Lib, y: nat, r: Stack)
    requires Calling(s, L, XHEX) && CanPrint(s, L, 5, 4)
    requires s.ds == Item(y, r) && 1 <= s.dn
    ensures Reaches(s, WithStack(s, y, r, s.dn - 1).(env := Emitted(s.env, HexText(s.tos, 16))))
  {
    hide Reaches, Image, Loaded, BodyOf, Step, Run, HexText;
    var s1 := Enter(s, L, XHEX);
    var s2 := Literal(s, s1, L, XHEX, 0);
    var u := Fetch(s, s2, L, XHEX, 2, D(NHEX));
    NHex(u, L, s.tos, y, r);
    var s3 := WithStack(u, y, r, s.dn - 1).(env := Emitted(s.env, HexText(s.tos, 16)));
    ReachesTrans(s, u, s3);
    var s4 := Return(s, s3, L, XHEX, 3);
    assert s4 == WithStack(s, y, r, s.dn - 1).(env := Emitted(s.env, HexText(s.tos, 16)));
  }

  /** . with the default vector. */
  lemma DotWord(s: State, L: Lib, y: nat, r: Stack)
    requires Calling(s, L, DOT) && CanPrint(s, L, 5, 5)
    requires s.ds == Item(y, r) && 1 <= s.dn
    ensures Reaches(s, WithStack(s, y, r, s.dn - 1).(env := Emitted(s.env, HexText(s.tos, 16))))
  {
    hide Reaches, Image, Loaded, BodyOf, Step, Run, HexText;
    var s1 := Enter(s, L, DOT);
    var s2 := Psh(s, s1, L, DOT, 0, UserDot);
    var s3 := Fetch8(s, s2, L, DOT, 1);
    var s4 := Perform(s, s3, L, DOT, 2);
    XHex(s4, L, y, r);
    var s5 := WithStack(s4, y, r, s.dn - 1).(env := Emitted(s.env, HexText(s.tos, 16)));
    ReachesTrans(s, s4, s5);
    var s6 := Return(s, s5, L, DOT, 3);
    assert s6 == WithStack(s, y, r, s.dn - 1).(env := Emitted(s.env, HexText(s.tos, 16)));
  }

  /** The n topmost cells of k, deepest first, each after a space. */
  function StackText(k: Stack, n: nat): seq<nat>
    requires n <= Height(k)
  {
    if n == 0 then [] else [32] + HexText(Nth(k, n - 1), 16) + StackText(k, n - 1)
  }

  lemma PickExec(s: State)
    requires s.tos <= STACK_DEPTH && s.tos < Height(s.ds)
    ensures ExecStack(Pick, s) == s.(tos := Nth(s.ds, s.tos))
  {
  }

  /** PICK at cell i. */
  lemma Picks(s0: State, s: State, L: Lib, d: Def, i: nat) returns (t: State)
    requires Reaches(s0, s) && At(s, L, d, i) && s.tos <= STACK_DEPTH && s.tos < Height(s.ds)
    requires i < CodeLen(d) && Code(d, i) == W(P(Pick))
    ensures Reaches(s0, t) && t == s.(ip := s.ip + 8, tos := Nth(s.ds, s.tos))
  {
    hide Reaches, Code, CodeLen, Image, ExecStack;
    var h;
    t, h := Prim(s0, s, L, d, i, Pick);
    PickExec(s.(ip := 0));
  }

  lemma ItemOutCells()
    ensures CodeLen(DOTS) == 24 && Code(DOTS, 12) == W(D(SPACE)) && Code(DOTS, 13) == W(P(Dup))
    ensures Code(DOTS, 14) == W(P(Pick)) && Code(DOTS, 15) == W(D(DOT)) && Code(DOTS, 16) == W(P(OneMinus))
    ensures Code(DOTS, 17) == W(P(Dup)) && Code(DOTS, 18) == W(P(EqZ))
  {
  }

  /** .S's loop body: a space and the item k places down. */
  lemma ItemOut(s0: State, s: State, L: Lib) returns (t: State)
    requires Reaches(s0, s) && At(s, L, DOTS, 12) && CanPrint(s, L, 6, 5)
    requires 0 < s.tos <= Height(s.ds) && s.tos <= STACK_DEPTH && s.ds.Item?
    ensures Reaches(s0, t)
    ensures t == s.(ip := s.ip + 32, env := Emitted(s.env, [32] + HexText(Nth(s.ds, s.tos - 1), 16)))
  {
    hide Reaches, Image, Loaded, BodyOf, Step, Run, HexText, Code, CodeLen;
    ItemOutCells();
    var u1 := Fetch(s0, s, L, DOTS, 12, D(SPACE));
    Space(u1, L);
    var s1 := u1.(pc := Next, env := Emitted(s.env, [32]));
    ReachesTrans(s0, u1, s1);
    var s2 := Stk(s0, s1, L, DOTS, 13, Dup);
    var s3 := Picks(s0, s2, L, DOTS, 14);
    var u2 := Fetch(s0, s3, L, DOTS, 15, D(DOT));
    DotWord(u2, L, s.tos, s.ds);
    var digits := HexText(Nth(s.ds, s.tos - 1), 16);
    t := WithStack(u2, s.tos, s.ds, s.dn).(env := Emitted(Emitted(s.env, [32]), digits));
    ReachesTrans(s0, u2, t);
    EmittedTwice(s.env, [32], digits);
    assert t == s.(ip := s.ip + 32, env := Emitted(s.env, [32] + digits));
  }

  lemma {:induction false} ItemsOut(s0: State, s: State, L: Lib) returns (t: State)
    requires Reaches(s0, s) && At(s, L, DOTS, 12) && CanPrint(s, L, 6, 5) && 0 < s.dn
    requires 0 < s.tos <= Height(s.ds) && s.tos <= STACK_DEPTH && s.ds.Item?
    ensures Reaches(s0, t)
    ensures t == s.(ip := s.ip + 72, tos := 0, env := Emitted(s.env, StackText(s.ds, s.tos)))
    decreases s.tos
  {
    hide Reaches, Image, Loaded, BodyOf, Step, Run, Result, HexText, Height;
    Decrement(s.tos);
    var s1 := ItemOut(s0, s, L);
    var s2 := Una(s0, s1, L, DOTS, 16, OneMinus);
    var s3 := LoopTest(s0, s2, L, DOTS, 17, 12);
    var one := [32] + HexText(Nth(s.ds, s.tos - 1), 16);
    if s.tos == 1 {
      assert StackText(s.ds, 1) == one + StackText(s.ds, 0) == one;
      t := s3;
    } else {
      t := ItemsOut(s0, s3, L);
      EmittedTwice(s.env, one, StackText(s.ds, s.tos - 1));
    }
  }

  /** What .S prints for n items on k: the count in angle brackets, the items, a line end. */
  function DotSText(k: Stack, n: nat): seq<nat>
    requires n <= Height(k)
  {
    [60] + HexText(n, 16) + [62] + StackText(k, n) + [10, 13]
  }

  /** The opening of .S: the depth in angle brackets, left on the stack. */
  lemma DepthOut(s0: State, s: State, L: Lib) returns (t: State)
    requires Reaches(s0, s) && At(s, L, DOTS, 0) && CanPrint(s, L, 7, 5)
    ensures Reaches(s0, t)
    ensures t == s.(ip := s.ip + 72, tos := s.dn, ds := Item(s.tos, s.ds), dn := s.dn + 1,
                    env := Emitted(s.env, [60] + HexText(s.dn, 16) + [62]))
  {
    hide Reaches, Image, Loaded, BodyOf, Step, Run, HexText;
    var s1 := CharOut(s0, s, L, DOTS, 0, 60);
    var s2 := DepthShown(s0, s1, L);
    t := CharOut(s0, s2, L, DOTS, 6, 62);
    EmittedTwice(s.env, [60], HexText(s.dn, 16));
    EmittedTwice(s.env, [60] + HexText(s.dn, 16), [62]);
    assert t == s.(ip := s.ip + 72, tos := s.dn, ds := Item(s.tos, s.ds), dn := s.dn + 1,
                   env := Emitted(s.env, [60] + HexText(s.dn, 16) + [62]));
  }

  lemma DepthShownCells()
    ensures CodeLen(DOTS) == 24 && Code(DOTS, 3) == W(P(Depth)) && Code(DOTS, 4) == W(P(Dup))
    ensures Code(DOTS, 5) == W(D(DOT)) && Code(DOTS, 6) == W(P(Op.Lit)) && Code(DOTS, 7) == N(62)
  {
  }

  /** DEPTH DUP . */
  lemma DepthShown(s0: State, s: State, L: Lib) returns (t: State)
    requires Reaches(s0, s) && At(s, L, DOTS, 3) && CanPrint(s, L, 7, 5)
    ensures Reaches(s0, t)
    ensures t == s.(ip := s.ip + 24, tos := s.dn, ds := Item(s.tos, s.ds), dn := s.dn + 1,
                    env := Emitted(s.env, HexText(s.dn, 16)))
  {
    hide Reaches, Image, Loaded, BodyOf, Step, Run, HexText, Code, CodeLen;
    DepthShownCells();
    var s3 := Psh(s0, s, L, DOTS, 3, Depth);
    var s4 := Stk(s0, s3, L, DOTS, 4, Dup);
    var u2 := Fetch(s0, s4, L, DOTS, 5, D(DOT));
    DotWord(u2, L, s.dn, Item(s.tos, s.ds));
    t := WithStack(u2, s.dn, Item(s.tos, s.ds), s.dn + 1).(env := Emitted(s.env, HexText(s.dn, 16)));
    ReachesTrans(s0, u2, t);
  }

  /** LIT c WEMIT at cell i. */
  lemma CharOut(s0: State, s: State, L: Lib, d: Def, i: nat, c: nat) returns (t: State)
    requires Reaches(s0, s) && At(s, L, d, i) && CanPrint(s, L, 2, 1) && c < 0x1_0000
    requires i + 2 < CodeLen(d) && Code(d, i) == W(P(Lit)) && Code(d, i + 1) == N(c) && Code(d, i + 2) == W(D(WEMIT))
    ensures Reaches(s0, t) && t == s.(ip := s.ip + 24, env := Emitted(s.env, [c]))
  {
    hide Reaches, Image, Loaded, BodyOf, Step, Run, Code, CodeLen;
    var s6 := Literal(s0, s, L, d, i);
    var u3 := Fetch(s0, s6, L, d, i + 2, D(WEMIT));
    WEmit(u3, L, s.tos, s.ds);
    t := WithStack(u3, s.tos, s.ds, s.dn).(env := Emitted(s.env, [c]));
    ReachesTrans(s0, u3, t);
    assert t == s.(ip := s.ip + 24, env := Emitted(s.env, [c]));
  }

  lemma DotSCells()
    ensures CodeLen(DOTS) == 24 && Code(DOTS, 0) == W(P(Op.Lit)) && Code(DOTS, 9) == W(P(Dup))
    ensures Code(DOTS, 10) == W(P(ZBranch)) && Code(DOTS, 11) == To(21) && Code(DOTS, 23) == W(P(Exit))
  {
  }

  /** .S prints the depth and then the items from bottom to top, and leaves the stack alone. */
  lemma DotS(s: State, L: Lib)
    requires Calling(s, L, DOTS) && CanPrint(s, L, 7, 6) && Height(s.ds) == s.dn
    ensures Reaches(s, s.(pc := Next, env := Emitted(s.env, DotSText(Item(s.tos, s.ds), s.dn))))
  {
    hide Reaches, Image, Loaded, BodyOf, Step, Run, HexText, Code, CodeLen;
    DotSCells();
    var k := Item(s.tos, s.ds);
    var s1 := Enter(s, L, DOTS);
    var s2 := DepthOut(s, s1, L);
    var s3 := Stk(s, s2, L, DOTS, 9, Dup);
    var s4 := ZJump(s, s3, L, DOTS, 10, 21);
    var s5 := s4;
    if s.dn > 0 {
      s5 := ItemsOut(s, s4, L);
    } else {
      assert Emitted(s4.env, StackText(k, 0)) == s4.env;
    }
    assert s5 == s4.(ip := s2.ip + 96, tos := 0, env := Emitted(s4.env, StackText(k, s.dn)));
    var s6 := LineOut(s, s5, L, s.tos, s.ds);
    var head := [60] + HexText(s.dn, 16) + [62];
    EmittedTwice(s.env, head, StackText(k, s.dn));
    EmittedTwice(s.env, head + StackText(k, s.dn), [10, 13]);
    var s7 := Return(s, s6, L, DOTS, 23);
    assert s7 == s.(pc := Next, env := Emitted(s.env, DotSText(k, s.dn)));
  }

  lemma LineOutCells()
    ensures CodeLen(DOTS) == 24 && Code(DOTS, 21) == W(D(CR)) && Code(DOTS, 22) == W(P(Drop))
    ensures Code(DOTS, 23) == W(P(Exit))
  {
  }

  lemma LineOut(s0: State, s: State, L: Lib, y: nat, r: Stack) returns (t: State)
    requires Reaches(s0, s) && At(s, L, DOTS, 21) && CanPrint(s, L, 3, 2)
    requires s.ds == Item(y, r) && 0 < s.dn
    ensures Reaches(s0, t)
    ensures t == s.(ip := s.ip + 16, tos := y, ds := r, dn := s.dn - 1, env := Emitted(s.env, [10, 13]))
  {
    hide Reaches, Image, Loaded, BodyOf, Step, Run, Code, CodeLen;
    LineOutCells();
    var u := Fetch(s0, s, L, DOTS, 21, D(CR));
    Cr(u, L);
    var s1 := u.(pc := Next, env := Emitted(s.env, [10, 13]));
    ReachesTrans(s0, u, s1);
    t := Stk(s0, s1, L, DOTS, 22, Drop);
  }
}
