/** : and ; and what a definition typed at the interpreter amounts to. */
module Defining {
  import opened Words
  import opened Memory
  import opened Opcodes
  import opened Machine
  import opened Builders
  import opened Library
  import opened Stepping
  import opened StackWords
  import opened IoWords
  import opened DictWords
  import opened Printing
  import opened Tokeniser
  import opened ControlWords
  import opened Interpret

  lemma WordNewExec(s: State, name: seq<nat>)
    requires Has(s, 1) && s.tos == |name| <= NAME_MAXLEN && 0 !in name && HasChars(s.env.mem, s.ds.top, name)
    requires RAM <= s.env.dp && Below(s.env.mem, s.env.dp)
    ensures ExecInterp(WordNew, s)
         == s.(tos := s.env.dp, ds := s.ds.rest, dn := s.dn - 1, env := Created(s.env, name))
  {
    hide Search, NumberOf, IsNumberText, Created, CreateWord;
    ReadBack(s.env.mem, s.ds.top, name);
    TerminatedWhole(name);
    CreateFits(PPop(s), name);
  }

  lemma CreatedKeeps(e: Env, L: Lib, name: seq<nat>)
    requires Image(e.mem, L) && Room(e, L, HeaderSize(name))
    ensures var f := Created(e, name); Image(f.mem, L) && Below(f.mem, f.dp)
  {
    ImageStore(e.mem, L, e.dp, Word(NewHeader(e, name)));
  }

  /** WORD-NEW ] EXIT, the end of : with the name on the stack. */
  lemma OpensWord(s0: State, s: State, L: Lib, name: seq<nat>) returns (t: State)
    requires Reaches(s0, s) && At(s, L, COLON, 4) && Has(s, 1) && s.rs.Item? && s.rn > 0
    requires s.tos == |name| <= NAME_MAXLEN && 0 !in name && HasChars(s.env.mem, s.ds.top, name)
    requires Room(s.env, L, HeaderSize(name))
    ensures Reaches(s0, t)
    ensures t == s.(ip := s.rs.top, rs := s.rs.rest, rn := s.rn - 1, tos := s.env.dp, ds := s.ds.rest, dn := s.dn - 1,
                    env := Created(s.env, name).(comp := true))
  {
    hide Reaches, Image, Loaded, BodyOf, Step, Run, Below, HasChars, ExecInterp;
    var s1 := CreatesWord(s0, s, L, name);
    CreatedKeeps(s.env, L, name);
    LoadedStore(s.env.mem, L, COLON, s.env.dp, Word(NewHeader(s.env, name)));
    var s2 := SetsCompile(s0, s1, L, COLON, 5, true);
    t := Return(s0, s2, L, COLON, 6);
  }

  /** WORD-NEW, with the name's address and length on the stack. */
  lemma CreatesWord(s0: State, s: State, L: Lib, name: seq<nat>) returns (t: State)
    requires Reaches(s0, s) && At(s, L, COLON, 4) && Has(s, 1)
    requires s.tos == |name| <= NAME_MAXLEN && 0 !in name && HasChars(s.env.mem, s.ds.top, name)
    requires Room(s.env, L, HeaderSize(name))
    ensures Reaches(s0, t)
    ensures t == s.(ip := s.ip + 8, tos := s.env.dp, ds := s.ds.rest, dn := s.dn - 1, env := Created(s.env, name))
  {
    hide Reaches, Image, Loaded, BodyOf, Step, Run, Below, HasChars, ExecInterp;
    t := Int(s0, s, L, COLON, 4, WordNew);
    WordNewExec(s.(ip := 0), name);
  }

  /** : reads a name and opens a definition, as forth_colon does, and turns compiling on. */
  lemma ColonWord(s: State, L: Lib, name: seq<nat>, rest: seq<nat>)
    requires Calling(s, L, COLON) && Reading(s, L, 6, 5) && Room(s.env, L, HeaderSize(name))
    requires Token(name) && NextWord(s.env.keys, name, rest)
    ensures var b := Open(AsBuilder(s.(env := ReadEnv(s.env, name, rest))), name);
      Reaches(s, s.(pc := Next, tos := b.cstk.top, ds := b.cstk.rest, dn := s.dn + 1, env := b.env.(comp := true)))
  {
    hide Reaches, Image, Loaded, BodyOf, Step, Run, Below, WibReady, ReadEnv, Search, BufferOnly, HasChars, Plain;
    ReadEffect(s.env, L, name, rest);
    var s1 := Enter(s, L, COLON);
    var s2 := ReadsWord(s, s1, L, COLON, 0, name, rest);
    var s3 := WordOnStack(s, s2, L, COLON, 1);
    var s4 := OpensWord(s, s3, L, name);
    var b := Open(AsBuilder(s.(env := ReadEnv(s.env, name, rest))), name);
    assert s4 == s.(pc := Next, tos := b.cstk.top, ds := b.cstk.rest, dn := s.dn + 1, env := b.env.(comp := true));
  }

  lemma BodyExec(s0: State, s: State, L: Lib, d: Def, i: nat) returns (t: State)
    requires Reaches(s0, s) && At(s, L, d, i) && i < CodeLen(d) && Code(d, i) == W(P(XtToBody))
    requires HasWord(s.env.mem, s.tos)
    ensures Reaches(s0, t) && t == s.(ip := s.ip + 8, tos := s.env.mem[s.tos].h.body)
  {
    hide Reaches, Code, CodeLen, Image, Loaded, BodyOf, Search, Terminated, ReadChars, NumberOf, IsNumberText;
    t := Int(s0, s, L, d, i, XtToBody);
  }

  /** BLEN! at cell i. */
  lemma BlenExec(s0: State, s: State, L: Lib, d: Def, i: nat) returns (t: State)
    requires Reaches(s0, s) && At(s, L, d, i) && i < CodeLen(d) && Code(d, i) == W(P(BlenStore))
    requires HasWord(s.env.mem, s.tos) && Has(s, 2)
    ensures Reaches(s0, t)
    ensures t == s.(ip := s.ip + 8, tos := s.ds.rest.top, ds := s.ds.rest.rest, dn := s.dn - 2,
                    env := s.env.(mem := s.env.mem[s.tos := Word(s.env.mem[s.tos].h.(blen := s.ds.top))]))
  {
    hide Reaches, Code, CodeLen, Image, Loaded, BodyOf, Search, Terminated, ReadChars, NumberOf, IsNumberText;
    t := Int(s0, s, L, d, i, BlenStore);
  }

  lemma MeasuresBodyCells()
    ensures CodeLen(SEMICOLON) == 16 && Code(SEMICOLON, 6) == W(D(HERE)) && Code(SEMICOLON, 7) == W(P(Over))
    ensures Code(SEMICOLON, 8) == W(P(XtToBody)) && Code(SEMICOLON, 9) == W(P(Minus))
    ensures Code(SEMICOLON, 10) == W(P(Over)) && Code(SEMICOLON, 11) == W(P(BlenStore))
    ensures Code(SEMICOLON, 12) == W(K(KLatest))
  {
  }

  /** Cells 6 to 9 of ; : the distance from the open word's body to HERE. */
  lemma MeasuresBody(s0: State, s: State, L: Lib) returns (t: State)
    requires Reaches(s0, s) && At(s, L, SEMICOLON, 6) && s.dn + 2 <= STACK_DEPTH && s.rn < STACK_DEPTH
    requires HasWord(s.env.mem, s.tos) && s.ds.Item?
    ensures Reaches(s0, t)
    ensures t == s.(ip := s.ip + 32, tos := Wrap(s.env.dp - s.env.mem[s.tos].h.body), ds := Item(s.tos, s.ds),
      dn := s.dn + 1)
  {
    hide Reaches, Image, Loaded, BodyOf, Step, Run, Result, Code, CodeLen;
    MeasuresBodyCells();
    var u := Fetch(s0, s, L, SEMICOLON, 6, D(HERE));
    Here(u, L);
    var s1 := WithStack(u, s.env.dp, Item(s.tos, s.ds), s.dn + 1);
    ReachesTrans(s0, u, s1);
    var s2 := Stk(s0, s1, L, SEMICOLON, 7, Over);
    var s3 := BodyExec(s0, s2, L, SEMICOLON, 8);
    t := Ari(s0, s3, L, SEMICOLON, 9, Minus);
    Difference(s.env.dp, s.env.mem[s.tos].h.body);
  }

  lemma Difference(x: nat, y: nat)
    ensures Result(Minus, x, y) == Wrap(x - y)
  {
  }

  /** Cells 10 to 13 of ; : the length goes into the header, the word into LATEST. */
  lemma ClosesWord(s0: State, s: State, L: Lib, w: Addr, y: nat, r: Stack) returns (t: State)
    requires Reaches(s0, s) && At(s, L, SEMICOLON, 10) && s.dn + 1 <= STACK_DEPTH && 2 <= s.dn
    requires s.ds == Item(w, Item(y, r)) && HasWord(s.env.mem, w) && L.top <= w && RAM <= w
    ensures Reaches(s0, t) && At(t, L, SEMICOLON, 14)
    ensures t == s.(ip := s.ip + 32, tos := y, ds := r, dn := s.dn - 2,
                    env := s.env.(mem := s.env.mem[w := Word(s.env.mem[w].h.(blen := s.tos))], latest := w))
  {
    hide Reaches, Image, Loaded, BodyOf, Step, Run;
    var c := Word(s.env.mem[w].h.(blen := s.tos));
    ImageStore(s.env.mem, L, w, c);
    LoadedStore(s.env.mem, L, SEMICOLON, w, c);
    var s1 := Stk(s0, s, L, SEMICOLON, 10, Over);
    var s2 := BlenExec(s0, s1, L, SEMICOLON, 11);
    var s3 := Constant(s0, s2, L, SEMICOLON, 12, KLatest);
    t := Store8(s0, s3, L, SEMICOLON, 13);
  }

  /** ; compiles EXIT and finishes the open word, as a compiled EXIT and forth_semicolon do, and turns
      compiling off. */
  lemma SemicolonWord(s: State, L: Lib, exit: Addr, y: nat, r: Stack)
    requires Calling(s, L, SEMICOLON) && s.ds == Item(y, r) && Room(s.env, L, 8)
    requires 0 < s.dn && s.dn + 4 <= STACK_DEPTH && s.rn + 4 <= STACK_DEPTH
    requires HasWord(s.env.mem, s.tos) && L.top <= s.tos && RAM <= s.tos && s.tos < s.env.dp
    requires Search(s.env.mem, s.env.latest, StrText(SExit)) == Found(exit)
    ensures var b := Finish(AsBuilder(s).(env := Comma(s.env, exit)));
      b.cstk == Item(y, r) &&
      Reaches(s, s.(pc := Next, tos := y, ds := r, dn := s.dn - 1, env := b.env.(comp := false)))
  {
    hide Reaches, Image, Loaded, BodyOf, Step, Run, Below, Search;
    NoNul();
    ExitOpens();
    var s1 := Enter(s, L, SEMICOLON);
    var s2 := CompileNamed(s, s1, L, SEMICOLON, 0, SExit, exit);
    var s3 := MeasuresBody(s, s2, L);
    var s4 := ClosesWord(s, s3, L, s.tos, y, r);
    var s5 := LeavesSemicolon(s, s4, L);
    var b := Finish(AsBuilder(s).(env := Comma(s.env, exit)));
    assert s5 == s.(pc := Next, tos := y, ds := r, dn := s.dn - 1, env := b.env.(comp := false));
  }

  lemma LeavesSemicolon(s0: State, s: State, L: Lib) returns (t: State)
    requires Reaches(s0, s) && At(s, L, SEMICOLON, 14) && s.rs.Item? && s.rn > 0
    ensures Reaches(s0, t) && t == s.(ip := s.rs.top, rs := s.rs.rest, rn := s.rn - 1, env := s.env.(comp := false))
  {
    hide Reaches, Image, Loaded, BodyOf, Step, Run;
    var s1 := SetsCompile(s0, s, L, SEMICOLON, 14, false);
    t := Return(s0, s1, L, SEMICOLON, 15);
  }

  lemma ExitOpens()
    ensures Opens(SEMICOLON, 0, SExit)
  {
    assert |StrText(SExit)| == 4;
  }
}
