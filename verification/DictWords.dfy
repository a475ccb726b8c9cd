/** HERE, ALLOT and X, : the dictionary-growing words of forth_core.c. */
module DictWords {
  import opened Words
  import opened Memory
  import opened Opcodes
  import opened Machine
  import opened Builders
  import opened Library
  import opened Stepping
  import opened StackWords

  /** The words of the library that compiled code is made of. */
  function XtsOf(L: Lib): Xts {
    Xts(L.at(P(Op.Lit)), L.at(P(Branch)), L.at(P(ZBranch)), L.at(P(Exit)))
  }

  /** The dictionary pointer is inside the RAM, above the library and above everything stored. */
  predicate Room(e: Env, L: Lib, n: nat) {
    RAM <= e.dp && L.top <= e.dp && Below(e.mem, e.dp) && e.dp + n < TWO64
  }

  lemma CommaKeeps(e: Env, L: Lib, v: nat)
    requires Image(e.mem, L) && Room(e, L, 8)
    ensures Image(Comma(e, v).mem, L)
    ensures Below(Comma(e, v).mem, Comma(e, v).dp)
  {
    ImageStore(e.mem, L, e.dp, Cell(v));
  }

  lemma CommaRoom(e: Env, L: Lib, v: nat, n: nat)
    requires Room(e, L, n + 8)
    ensures Room(Comma(e, v), L, n)
  {
  }

  lemma Here(s: State, L: Lib)
    requires Calling(s, L, HERE) && s.dn < STACK_DEPTH && s.rn < STACK_DEPTH
    ensures Reaches(s, WithStack(s, s.env.dp, Item(s.tos, s.ds), s.dn + 1))
  {
    hide Reaches, Image, Loaded, BodyOf, Step, Run;
    var s1 := Enter(s, L, HERE);
    var s2 := Psh(s, s1, L, HERE, 0, DpVar);
    var s3 := Fetch8(s, s2, L, HERE, 1);
    var s4 := Return(s, s3, L, HERE, 2);
    assert s4 == WithStack(s, s.env.dp, Item(s.tos, s.ds), s.dn + 1);
  }

  lemma AllotCells()
    ensures CodeLen(ALLOT) == 5 && Code(ALLOT, 0) == W(D(HERE)) && Code(ALLOT, 1) == W(P(Plus))
    ensures Code(ALLOT, 2) == W(P(DpVar)) && Code(ALLOT, 3) == W(P(XStore)) && Code(ALLOT, 4) == W(P(Exit))
  {
  }

  /** Any number may be allotted, a negative one too. */
  lemma Allot(s: State, L: Lib, x: nat, r: Stack)
    requires Calling(s, L, ALLOT) && s.ds == Item(x, r)
    requires 0 < s.dn < STACK_DEPTH && s.rn + 2 <= STACK_DEPTH
    ensures Reaches(s, WithStack(s, x, r, s.dn - 1).(env := s.env.(dp := Wrap(s.tos + s.env.dp))))
  {
    hide Reaches, Image, Loaded, BodyOf, Step, Run, Code, CodeLen;
    AllotCells();
    hide Result, Wrap;
    Sum(s.tos, s.env.dp);
    var s1 := Enter(s, L, ALLOT);
    var u1 := Fetch(s, s1, L, ALLOT, 0, D(HERE));
    Here(u1, L);
    var s2 := WithStack(u1, s.env.dp, Item(s.tos, s.ds), s.dn + 1);
    ReachesTrans(s, u1, s2);
    var s3 := Ari(s, s2, L, ALLOT, 1, Plus);
    var s4 := Psh(s, s3, L, ALLOT, 2, DpVar);
    var s5 := Store8(s, s4, L, ALLOT, 3);
    var s6 := Return(s, s5, L, ALLOT, 4);
    assert s6 == WithStack(s, x, r, s.dn - 1).(env := s.env.(dp := Wrap(s.tos + s.env.dp)));
  }

  /** Storing at the old HERE once ALLOT has moved the pointer. */
  lemma CommaPokes(e: Env, L: Lib, v: nat)
    requires Room(e, L, 8)
    ensures CanWrite(e.(dp := e.dp + 8), e.dp, Cell(v))
    ensures Poke(e.(dp := e.dp + 8), e.dp, v) == Comma(e, v)
  {
    hide Overwrite;
    PutFits(e.mem, e.dp, Cell(v));
  }

  lemma XComma(s: State, L: Lib, x: nat, r: Stack)
    requires Calling(s, L, XCOMMA) && s.ds == Item(x, r) && Room(s.env, L, 8)
    requires 0 < s.dn && s.dn + 3 <= STACK_DEPTH && s.rn + 3 <= STACK_DEPTH
    ensures Reaches(s, WithStack(s, x, r, s.dn - 1).(env := Comma(s.env, s.tos)))
  {
    hide Reaches, Image, Loaded, BodyOf, Step, Run, CanWrite, Poke, IsVariable, Below, Free;
    CommaPokes(s.env, L, s.tos);
    LoadedStore(s.env.mem, L, XCOMMA, s.env.dp, Cell(s.tos));
    CommaKeeps(s.env, L, s.tos);
    var s1 := Enter(s, L, XCOMMA);
    var u1 := Fetch(s, s1, L, XCOMMA, 0, D(HERE));
    Here(u1, L);
    var s2 := WithStack(u1, s.env.dp, Item(s.tos, s.ds), s.dn + 1);
    ReachesTrans(s, u1, s2);
    var s3 := Constant(s, s2, L, XCOMMA, 1, K8);
    var u2 := Fetch(s, s3, L, XCOMMA, 2, D(ALLOT));
    Allot(u2, L, s.env.dp, Item(s.tos, s.ds));
    var s4 := WithStack(u2, s.env.dp, Item(s.tos, s.ds), s.dn + 1).(env := s.env.(dp := s.env.dp + 8));
    ReachesTrans(s, u2, s4);
    var s5 := Store8(s, s4, L, XCOMMA, 3);
    assert s5.env == Comma(s.env, s.tos);
    var s6 := Return(s, s5, L, XCOMMA, 4);
    assert s6 == WithStack(s, x, r, s.dn - 1).(env := Comma(s.env, s.tos));
  }

  /** The words a definition runs stay where they were. */
  lemma LoadedStore(m: Mem, L: Lib, d: Def, a: Addr, c: Chunk)
    requires Image(m, L) && RAM <= a
    requires L.top <= a || a !in m || m[a].Wide?
    ensures Loaded(m, L, D(d)) && Loaded(m[a := c], L, D(d)) && BodyOf(m[a := c], L, d) == BodyOf(m, L, d)
  {
    hide Code, CodeLen, StrText, Immediate;
    Known(m, L, D(d));
    ImageStore(m, L, a, c);
    Known(m[a := c], L, D(d));
  }
}
