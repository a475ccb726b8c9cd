/** The console words: WEMIT, WKEY, WTYPE, SPACE and CR, with the default I/O vectors. */
module IoWords {
  import opened Words
  import opened Memory
  import opened Opcodes
  import opened Machine
  import opened Library
  import opened Stepping
  import opened StackWords

  /** Console I/O goes to EARLY-WEMIT and EARLY-WKEY, and . prints with XHEX. */
  predicate DefaultIo(e: Env, L: Lib) {
    e.wemit == L.at(P(EarlyWEmit)) && e.wkey == L.at(P(EarlyWKey)) && e.dot == L.at(D(XHEX))
  }

  function Emitted(e: Env, cs: seq<nat>): Env {
    e.(out := e.out + cs)
  }

  lemma EmittedTwice(e: Env, a: seq<nat>, b: seq<nat>)
    ensures Emitted(Emitted(e, a), b) == Emitted(e, a + b)
  {
    assert e.out + a + b == e.out + (a + b);
  }

  /** The word whose xt is in a user vector, run through X@ EXECUTE. */
  lemma WEmit(s: State, L: Lib, x: nat, r: Stack)
    requires Calling(s, L, WEMIT) && DefaultIo(s.env, L) && s.ds == Item(x, r) && s.tos < 0x1_0000
    requires 0 < s.dn < STACK_DEPTH && s.rn < STACK_DEPTH
    ensures Reaches(s, WithStack(s, x, r, s.dn - 1).(env := Emitted(s.env, [s.tos])))
  {
    hide Reaches, Image, Loaded, BodyOf, Step, Run;
    var s1 := Enter(s, L, WEMIT);
    var s2 := Psh(s, s1, L, WEMIT, 0, UserWEmit);
    var s3 := Fetch8(s, s2, L, WEMIT, 1);
    var s4 := Perform(s, s3, L, WEMIT, 2);
    var s5 := Emits(s, s4, L);
    var s6 := Return(s, s5, L, WEMIT, 3);
    assert s6 == WithStack(s, x, r, s.dn - 1).(env := Emitted(s.env, [s.tos]));
  }

  /** EARLY-WEMIT itself. */
  lemma Emits(s0: State, s: State, L: Lib) returns (t: State)
    requires Reaches(s0, s) && CallingOp(s, L, EarlyWEmit) && Has(s, 1) && s.tos < 0x1_0000
    ensures Reaches(s0, t)
    ensures t == s.(pc := Next, tos := s.ds.top, ds := s.ds.rest, dn := s.dn - 1, env := Emitted(s.env, [s.tos]))
  {
    hide Reaches, Image, ExecOp;
    Known(s.env.mem, L, P(EarlyWEmit));
    EmitExec(s.env.mem[L.at(P(EarlyWEmit))].h, s.(pc := Next));
    t := ExecWord(s0, s);
  }

  lemma EmitExec(h: Header, s: State)
    requires h.op == EarlyWEmit && Has(s, 1) && s.tos < 0x1_0000
    ensures ExecOp(h, s) == s.(tos := s.ds.top, ds := s.ds.rest, dn := s.dn - 1, env := Emitted(s.env, [s.tos]))
  {
  }

  ghost predicate CallingOp(s: State, L: Lib, op: Op) {
    Image(s.env.mem, L) && s.pc == Exec(L.at(P(op)))
  }

  lemma Awaits(s0: State, s: State, L: Lib) returns (t: State)
    requires Reaches(s0, s) && CallingOp(s, L, EarlyWKey)
    ensures Reaches(s0, t) && t == s.(pc := WaitKey)
  {
    hide Reaches, Image;
    Known(s.env.mem, L, P(EarlyWKey));
    t := ExecWord(s0, s);
  }

  /** Running on past forth_wait_early_wkey, when a key is there. */
  lemma TakesKey(s0: State, s: State) returns (t: State)
    requires Reaches(s0, s) && s.pc == WaitKey && s.env.keys != [] && s.dn < STACK_DEPTH
    ensures Reaches(s0, t)
    ensures t == s.(pc := Next, tos := s.env.keys[0], ds := Item(s.tos, s.ds), dn := s.dn + 1,
                    env := s.env.(keys := s.env.keys[1..]))
  {
    t := Step(s);
    ReachesStep(s0, s);
  }

  lemma WKey(s: State, L: Lib)
    requires Calling(s, L, WKEY) && DefaultIo(s.env, L) && s.env.keys != []
    requires s.dn < STACK_DEPTH && s.rn < STACK_DEPTH
    ensures Reaches(s, WithStack(s, s.env.keys[0], Item(s.tos, s.ds), s.dn + 1)
                         .(env := s.env.(keys := s.env.keys[1..])))
  {
    hide Reaches, Image, Loaded, BodyOf, Step, Run;
    var s1 := Enter(s, L, WKEY);
    var s2 := Psh(s, s1, L, WKEY, 0, UserWKey);
    var s3 := Fetch8(s, s2, L, WKEY, 1);
    var s4 := Perform(s, s3, L, WKEY, 2);
    var s5 := Awaits(s, s4, L);
    var s6 := TakesKey(s, s5);
    var s7 := Return(s, s6, L, WKEY, 3);
    assert s7 == WithStack(s, s.env.keys[0], Item(s.tos, s.ds), s.dn + 1).(env := s.env.(keys := s.env.keys[1..]));
  }

  lemma Space(s: State, L: Lib)
    requires Calling(s, L, SPACE) && DefaultIo(s.env, L)
    requires s.dn + 1 < STACK_DEPTH && s.rn + 2 <= STACK_DEPTH
    ensures Reaches(s, s.(pc := Next, env := Emitted(s.env, [32])))
  {
    hide Reaches, Image, Loaded, BodyOf, Step, Run;
    var s1 := Enter(s, L, SPACE);
    var s2 := Literal(s, s1, L, SPACE, 0);
    var u1 := Fetch(s, s2, L, SPACE, 2, D(WEMIT));
    WEmit(u1, L, s.tos, s.ds);
    var s3 := WithStack(u1, s.tos, s.ds, s.dn).(env := Emitted(s.env, [32]));
    ReachesTrans(s, u1, s3);
    var s4 := Return(s, s3, L, SPACE, 3);
    assert s4 == s.(pc := Next, env := Emitted(s.env, [32]));
  }

  /** CR emits a line feed and then a carriage return: the character pushed last goes out first. */
  lemma Cr(s: State, L: Lib)
    requires Calling(s, L, CR) && DefaultIo(s.env, L)
    requires s.dn + 2 < STACK_DEPTH && s.rn + 2 <= STACK_DEPTH
    ensures Reaches(s, s.(pc := Next, env := Emitted(s.env, [10, 13])))
  {
    hide Reaches, Image, Loaded, BodyOf, Step, Run;
    var s1 := Enter(s, L, CR);
    var s2 := Literal(s, s1, L, CR, 0);
    var s3 := Literal(s, s2, L, CR, 2);
    var u1 := Fetch(s, s3, L, CR, 4, D(WEMIT));
    WEmit(u1, L, 13, Item(s.tos, s.ds));
    var s4 := WithStack(u1, 13, Item(s.tos, s.ds), s.dn + 1).(env := Emitted(s.env, [10]));
    ReachesTrans(s, u1, s4);
    var u2 := Fetch(s, s4, L, CR, 5, D(WEMIT));
    WEmit(u2, L, s.tos, s.ds);
    var s5 := WithStack(u2, s.tos, s.ds, s.dn).(env := Emitted(Emitted(s.env, [10]), [13]));
    ReachesTrans(s, u2, s5);
    var s6 := Return(s, s5, L, CR, 6);
    EmittedTwice(s.env, [10], [13]);
    assert [10] + [13] == [10, 13];
    assert s6 == s.(pc := Next, env := Emitted(s.env, [10, 13]));
  }
}
