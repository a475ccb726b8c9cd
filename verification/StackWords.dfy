/** The stack-shuffling words of forth_core.c, through their nested calls. */
module StackWords {
  import opened Memory
  import opened Opcodes
  import opened Machine
  import opened Library
  import opened Stepping

  /** The word d has been loaded into w by forth_exec. */
  ghost predicate Calling(s: State, L: Lib, d: Def) {
    Image(s.env.mem, L) && s.pc == Exec(L.at(D(d)))
  }

  /** The state after a word that only rearranges the data stack. */
  function WithStack(s: State, tos: nat, ds: Stack, dn: nat): State {
    s.(pc := Next, tos := tos, ds := ds, dn := dn)
  }

  lemma RotCells()
    ensures CodeLen(ROT) == 5 && Code(ROT, 0) == W(P(ToR)) && Code(ROT, 1) == W(P(Swap))
    ensures Code(ROT, 2) == W(P(FromR)) && Code(ROT, 3) == W(P(Swap)) && Code(ROT, 4) == W(P(Exit))
  {
  }

  lemma Rot(s: State, L: Lib, b: nat, a: nat, r: Stack)
    requires Calling(s, L, ROT) && s.ds == Item(b, Item(a, r))
    requires 2 <= s.dn <= STACK_DEPTH && s.rn + 2 <= STACK_DEPTH
    ensures Reaches(s, WithStack(s, a, Item(s.tos, Item(b, r)), s.dn))
  {
    hide Reaches, Image, Loaded, BodyOf, Step, Run, Code, CodeLen;
    RotCells();
    var s1 := Enter(s, L, ROT);
    var s2 := Stk(s, s1, L, ROT, 0, ToR);
    var s3 := Stk(s, s2, L, ROT, 1, Swap);
    var s4 := Stk(s, s3, L, ROT, 2, FromR);
    var s5 := Stk(s, s4, L, ROT, 3, Swap);
    var s6 := Return(s, s5, L, ROT, 4);
    assert s6 == WithStack(s, a, Item(s.tos, Item(b, r)), s.dn);
  }

  lemma MinusRotCells()
    ensures CodeLen(MROT) == 5 && Code(MROT, 0) == W(P(Swap)) && Code(MROT, 1) == W(P(ToR))
    ensures Code(MROT, 2) == W(P(Swap)) && Code(MROT, 3) == W(P(FromR)) && Code(MROT, 4) == W(P(Exit))
  {
  }

  lemma MinusRot(s: State, L: Lib, b: nat, a: nat, r: Stack)
    requires Calling(s, L, MROT) && s.ds == Item(b, Item(a, r))
    requires 2 <= s.dn <= STACK_DEPTH && s.rn + 2 <= STACK_DEPTH
    ensures Reaches(s, WithStack(s, b, Item(a, Item(s.tos, r)), s.dn))
  {
    hide Reaches, Image, Loaded, BodyOf, Step, Run, Code, CodeLen;
    MinusRotCells();
    var s1 := Enter(s, L, MROT);
    var s2 := Stk(s, s1, L, MROT, 0, Swap);
    var s3 := Stk(s, s2, L, MROT, 1, ToR);
    var s4 := Stk(s, s3, L, MROT, 2, Swap);
    var s5 := Stk(s, s4, L, MROT, 3, FromR);
    var s6 := Return(s, s5, L, MROT, 4);
    assert s6 == WithStack(s, b, Item(a, Item(s.tos, r)), s.dn);
  }

  lemma TwoDrop(s: State, L: Lib, a: nat, x: nat, r: Stack)
    requires Calling(s, L, TWODROP) && s.ds == Item(a, Item(x, r))
    requires 2 <= s.dn && s.rn + 1 <= STACK_DEPTH
    ensures Reaches(s, WithStack(s, x, r, s.dn - 2))
  {
    hide Reaches, Image, Loaded, BodyOf, Step, Run;
    var s1 := Enter(s, L, TWODROP);
    var s2 := Stk(s, s1, L, TWODROP, 0, Drop);
    var s3 := Stk(s, s2, L, TWODROP, 1, Drop);
    var s4 := Return(s, s3, L, TWODROP, 2);
    assert s4 == WithStack(s, x, r, s.dn - 2);
  }

  lemma TwoDup(s: State, L: Lib, a: nat, r: Stack)
    requires Calling(s, L, TWODUP) && s.ds == Item(a, r)
    requires 1 <= s.dn && s.dn + 2 <= STACK_DEPTH && s.rn + 1 <= STACK_DEPTH
    ensures Reaches(s, WithStack(s, s.tos, Item(a, Item(s.tos, Item(a, r))), s.dn + 2))
  {
    hide Reaches, Image, Loaded, BodyOf, Step, Run;
    var s1 := Enter(s, L, TWODUP);
    var s2 := Stk(s, s1, L, TWODUP, 0, Over);
    var s3 := Stk(s, s2, L, TWODUP, 1, Over);
    var s4 := Return(s, s3, L, TWODUP, 2);
    assert s4 == WithStack(s, s.tos, Item(a, Item(s.tos, Item(a, r))), s.dn + 2);
  }

  lemma TwoSwapCells()
    ensures CodeLen(TWOSWAP) == 5 && Code(TWOSWAP, 0) == W(P(ToR)) && Code(TWOSWAP, 1) == W(D(MROT))
    ensures Code(TWOSWAP, 2) == W(P(FromR)) && Code(TWOSWAP, 3) == W(D(MROT)) && Code(TWOSWAP, 4) == W(P(Exit))
  {
  }

  lemma TwoSwap(s: State, L: Lib, c: nat, b: nat, a: nat, r: Stack)
    requires Calling(s, L, TWOSWAP) && s.ds == Item(c, Item(b, Item(a, r)))
    requires 3 <= s.dn <= STACK_DEPTH && s.rn + 4 <= STACK_DEPTH
    ensures Reaches(s, WithStack(s, b, Item(a, Item(s.tos, Item(c, r))), s.dn))
  {
    hide Reaches, Image, Loaded, BodyOf, Step, Run, Code, CodeLen;
    TwoSwapCells();
    var s1 := Enter(s, L, TWOSWAP);
    var s2 := Stk(s, s1, L, TWOSWAP, 0, ToR);
    var u1 := Fetch(s, s2, L, TWOSWAP, 1, D(MROT));
    MinusRot(u1, L, b, a, r);
    var s3 := WithStack(u1, b, Item(a, Item(c, r)), u1.dn);
    ReachesTrans(s, u1, s3);
    var s4 := Stk(s, s3, L, TWOSWAP, 2, FromR);
    var u2 := Fetch(s, s4, L, TWOSWAP, 3, D(MROT));
    MinusRot(u2, L, b, a, Item(c, r));
    var s5 := WithStack(u2, b, Item(a, Item(s.tos, Item(c, r))), u2.dn);
    ReachesTrans(s, u2, s5);
    var s6 := Return(s, s5, L, TWOSWAP, 4);
    assert s6 == WithStack(s, b, Item(a, Item(s.tos, Item(c, r))), s.dn);
  }

  /** 2SWAP called from cell i of d. */
  lemma CallsTwoSwap(s0: State, s: State, L: Lib, d: Def, i: nat, c: nat, b: nat, a: nat, r: Stack) returns (t: State)
    requires Reaches(s0, s) && At(s, L, d, i) && i < CodeLen(d) && Code(d, i) == W(D(TWOSWAP))
    requires s.ds == Item(c, Item(b, Item(a, r))) && 3 <= s.dn <= STACK_DEPTH && s.rn + 4 <= STACK_DEPTH
    ensures Reaches(s0, t) && t == s.(ip := s.ip + 8, tos := b, ds := Item(a, Item(s.tos, Item(c, r))))
  {
    hide Reaches, Image, Loaded, BodyOf, Step, Run, Code, CodeLen;
    var u := Fetch(s0, s, L, d, i, D(TWOSWAP));
    TwoSwap(u, L, c, b, a, r);
    t := WithStack(u, b, Item(a, Item(s.tos, Item(c, r))), u.dn);
    ReachesTrans(s0, u, t);
  }

  lemma TwoOverCells()
    ensures CodeLen(TWOOVER) == 7 && Code(TWOOVER, 0) == W(P(ToR)) && Code(TWOOVER, 1) == W(P(ToR))
    ensures Code(TWOOVER, 2) == W(D(TWODUP)) && Code(TWOOVER, 3) == W(P(FromR)) && Code(TWOOVER, 4) == W(P(FromR))
    ensures Code(TWOOVER, 5) == W(D(TWOSWAP)) && Code(TWOOVER, 6) == W(P(Exit))
  {
  }

  lemma TwoOver(s: State, L: Lib, c: nat, b: nat, a: nat, r: Stack)
    requires Calling(s, L, TWOOVER) && s.ds == Item(c, Item(b, Item(a, r)))
    requires 3 <= s.dn && s.dn + 2 <= STACK_DEPTH && s.rn + 5 <= STACK_DEPTH
    ensures Reaches(s, WithStack(s, b, Item(a, Item(s.tos, Item(c, Item(b, Item(a, r))))), s.dn + 2))
  {
    hide Reaches, Image, Loaded, BodyOf, Step, Run, Code, CodeLen;
    TwoOverCells();
    var s1 := Enter(s, L, TWOOVER);
    var s2 := Stk(s, s1, L, TWOOVER, 0, ToR);
    var s3 := Stk(s, s2, L, TWOOVER, 1, ToR);
    var u1 := Fetch(s, s3, L, TWOOVER, 2, D(TWODUP));
    TwoDup(u1, L, a, r);
    var s4 := WithStack(u1, b, Item(a, Item(b, Item(a, r))), u1.dn + 2);
    ReachesTrans(s, u1, s4);
    var s5 := Stk(s, s4, L, TWOOVER, 3, FromR);
    var s6 := Stk(s, s5, L, TWOOVER, 4, FromR);
    var s7 := CallsTwoSwap(s, s6, L, TWOOVER, 5, c, b, a, Item(b, Item(a, r)));
    var s8 := Return(s, s7, L, TWOOVER, 6);
    assert s8 == WithStack(s, b, Item(a, Item(s.tos, Item(c, Item(b, Item(a, r))))), s.dn + 2);
  }

  lemma TwoRotCells()
    ensures CodeLen(TWOROT) == 7 && Code(TWOROT, 0) == W(P(ToR)) && Code(TWOROT, 1) == W(P(ToR))
    ensures Code(TWOROT, 2) == W(D(TWOSWAP)) && Code(TWOROT, 3) == W(P(FromR)) && Code(TWOROT, 4) == W(P(FromR))
    ensures Code(TWOROT, 5) == W(D(TWOSWAP)) && Code(TWOROT, 6) == W(P(Exit))
  {
  }

  lemma TwoRot(s: State, L: Lib, e: nat, d: nat, c: nat, b: nat, a: nat, r: Stack)
    requires Calling(s, L, TWOROT) && s.ds == Item(e, Item(d, Item(c, Item(b, Item(a, r)))))
    requires 5 <= s.dn <= STACK_DEPTH && s.rn + 7 <= STACK_DEPTH
    ensures Reaches(s, WithStack(s, b, Item(a, Item(s.tos, Item(e, Item(d, Item(c, r))))), s.dn))
  {
    hide Reaches, Image, Loaded, BodyOf, Step, Run, Code, CodeLen;
    TwoRotCells();
    var s1 := Enter(s, L, TWOROT);
    var s2 := Stk(s, s1, L, TWOROT, 0, ToR);
    var s3 := Stk(s, s2, L, TWOROT, 1, ToR);
    var s4 := CallsTwoSwap(s, s3, L, TWOROT, 2, c, b, a, r);
    var s5 := Stk(s, s4, L, TWOROT, 3, FromR);
    var s6 := Stk(s, s5, L, TWOROT, 4, FromR);
    var s7 := CallsTwoSwap(s, s6, L, TWOROT, 5, e, b, a, Item(d, Item(c, r)));
    var s8 := Return(s, s7, L, TWOROT, 6);
    assert s8 == WithStack(s, b, Item(a, Item(s.tos, Item(e, Item(d, Item(c, r))))), s.dn);
  }

  lemma TwoMinusRotCells()
    ensures CodeLen(TWOMROT) == 7 && Code(TWOMROT, 0) == W(D(TWOSWAP)) && Code(TWOMROT, 1) == W(P(ToR))
    ensures Code(TWOMROT, 2) == W(P(ToR)) && Code(TWOMROT, 3) == W(D(TWOSWAP)) && Code(TWOMROT, 4) == W(P(FromR))
    ensures Code(TWOMROT, 5) == W(P(FromR)) && Code(TWOMROT, 6) == W(P(Exit))
  {
  }

  lemma TwoMinusRot(s: State, L: Lib, e: nat, d: nat, c: nat, b: nat, a: nat, r: Stack)
    requires Calling(s, L, TWOMROT) && s.ds == Item(e, Item(d, Item(c, Item(b, Item(a, r)))))
    requires 5 <= s.dn <= STACK_DEPTH && s.rn + 7 <= STACK_DEPTH
    ensures Reaches(s, WithStack(s, d, Item(c, Item(b, Item(a, Item(s.tos, Item(e, r))))), s.dn))
  {
    hide Reaches, Image, Loaded, BodyOf, Step, Run, Code, CodeLen;
    TwoMinusRotCells();
    var s1 := Enter(s, L, TWOMROT);
    var s2 := CallsTwoSwap(s, s1, L, TWOMROT, 0, e, d, c, Item(b, Item(a, r)));
    var s3 := Stk(s, s2, L, TWOMROT, 1, ToR);
    var s4 := Stk(s, s3, L, TWOMROT, 2, ToR);
    var s5 := CallsTwoSwap(s, s4, L, TWOMROT, 3, e, b, a, r);
    var s6 := Stk(s, s5, L, TWOMROT, 4, FromR);
    var s7 := Stk(s, s6, L, TWOMROT, 5, FromR);
    var s8 := Return(s, s7, L, TWOMROT, 6);
    assert s8 == WithStack(s, d, Item(c, Item(b, Item(a, Item(s.tos, Item(e, r))))), s.dn);
  }

  /** 2ROT followed by 2-ROT restores the stack, whichever comes first. */
  lemma RotationsCancel(s: State, t: State, L: Lib, e: nat, d: nat, c: nat, b: nat, a: nat, r: Stack)
    requires Calling(s, L, TWOROT) && s.ds == Item(e, Item(d, Item(c, Item(b, Item(a, r)))))
    requires t == s.(pc := Exec(L.at(D(TWOMROT))))
    requires 5 <= s.dn <= STACK_DEPTH && s.rn + 7 <= STACK_DEPTH
    ensures exists u :: && Reaches(s, u) && u.pc == Next
                        && Reaches(u.(pc := t.pc), s.(pc := Next))
    ensures exists u :: && Reaches(t, u) && u.pc == Next
                        && Reaches(u.(pc := s.pc), t.(pc := Next))
  {
    hide Reaches, Image, Loaded, BodyOf, Step, Run;
    var u := WithStack(s, b, Item(a, Item(s.tos, Item(e, Item(d, Item(c, r))))), s.dn);
    TwoRot(s, L, e, d, c, b, a, r);
    TwoMinusRot(u.(pc := t.pc), L, a, s.tos, e, d, c, r);
    var v := WithStack(t, d, Item(c, Item(b, Item(a, Item(s.tos, Item(e, r))))), t.dn);
    TwoMinusRot(t, L, e, d, c, b, a, r);
    TwoRot(v.(pc := s.pc), L, c, b, a, s.tos, e, r);
  }
}
