/** WIB-WORD: reading one word from the key stream into the word input buffer. */
module Tokeniser {
  import opened Words
  import opened Memory
  import opened Opcodes
  import opened Machine
  import opened Builders
  import opened Library
  import opened Stepping
  import opened StackWords
  import opened IoWords
  import opened DictWords
  import opened Printing

  /** The buffer reserves FORTH_NAME_MAXLEN + 1 bytes, room for 64 characters of two bytes. */
  const WIB_CHARS: nat := 64

  predicate IsDelim(c: nat) {
    c == 32 || c == 13 || c == 10
  }

  predicate Plain(cs: seq<nat>) {
    forall i :: 0 <= i < |cs| ==> !IsDelim(cs[i]) && cs[i] < 0x1_0000
  }

  /** The buffer lies in the dictionary RAM below the dictionary pointer, and each of its 64 slots
      is fit to take a character. */
  predicate WibReady(e: Env) {
    && RAM <= e.wib && e.wib + 2 * WIB_CHARS <= e.dp < TWO64
    && forall i :: 0 <= i < WIB_CHARS ==> Writable(e.mem, e.wib + 2 * i, Wide(0))
  }

  /** One character pushed: what WIB-PUSH does to the environment. */
  function PutChar(e: Env, c: nat): Env {
    e.(mem := e.mem[e.wib + 2 * e.win := Wide(c)], win := e.win + 1)
  }

  /** The characters cs consumed from the keys and stored. */
  function Typed(e: Env, cs: seq<nat>): (f: Env)
    requires |cs| <= |e.keys|
    ensures f.keys == e.keys[|cs|..]
    decreases |cs|
  {
    if cs == [] then e else Typed(TakeChar(e, cs[0]), cs[1..])
  }

  function TakeChar(e: Env, c: nat): Env
    requires e.keys != []
  {
    PutChar(e.(keys := e.keys[1..]), c)
  }

  /** A memory that differs only in characters at even offsets of the buffer. */
  ghost predicate BufferOnly(m: Mem, n: Mem, wib: Addr) {
    && (forall a :: a in m ==> a in n && (n[a] == m[a] || (m[a].Wide? && n[a].Wide? && wib <= a < wib + 2 * WIB_CHARS)))
    && (forall a :: a in n && a !in m ==> n[a].Wide? && wib <= a && a + 2 <= wib + 2 * WIB_CHARS)
  }

  lemma NotFree(m: Mem, a: Addr, n: nat)
    requires a in m && n > 0
    ensures !Free(m, a, n)
  {
    assert Size(m[a]) > 0;
  }

  lemma SlotTakes(e: Env, c: nat)
    requires WibReady(e) && e.win < WIB_CHARS
    ensures CanWrite(e, e.wib + 2 * e.win, Wide(c))
    ensures e.wib + 2 * e.win in e.mem ==> e.mem[e.wib + 2 * e.win].Wide?
  {
    var a: Addr := e.wib + 2 * e.win;
    assert Writable(e.mem, a, Wide(0));
    if a in e.mem { NotFree(e.mem, a, 2); }
  }

  lemma PutCharKeeps(e: Env, L: Lib, c: nat)
    requires Image(e.mem, L) && WibReady(e) && e.win < WIB_CHARS && Below(e.mem, e.dp)
    ensures CanWrite(e, e.wib + 2 * e.win, Wide(c))
    ensures var f := PutChar(e, c);
      Image(f.mem, L) && WibReady(f) && Below(f.mem, f.dp) && BufferOnly(e.mem, f.mem, e.wib)
  {
    hide Image, Writable, CanWrite;
    var a: Addr := e.wib + 2 * e.win;
    SlotTakes(e, c);
    ImageStore(e.mem, L, a, Wide(c));
    WibStore(e, a, c);
  }

  /** A character in one slot leaves the other slots as they were. */
  lemma StillWritable(m: Mem, wib: Addr, j: nat, i: nat, c: nat)
    requires Writable(m, wib + 2 * i, Wide(0)) && Writable(m, wib + 2 * j, Wide(0))
    ensures Writable(m[wib + 2 * j := Wide(c)], wib + 2 * i, Wide(0))
  {
    var n, a := m[wib + 2 * j := Wide(c)], wib + 2 * i;
    if i != j && !(a in m && SameKind(m[a], Wide(0))) { assert Free(n, a, 2); }
  }

  lemma WibStore(e: Env, a: Addr, c: nat)
    requires WibReady(e) && e.win < WIB_CHARS && a == e.wib + 2 * e.win && (a in e.mem ==> e.mem[a].Wide?)
    ensures forall i :: 0 <= i < WIB_CHARS ==> Writable(e.mem[a := Wide(c)], e.wib + 2 * i, Wide(0))
  {
    var n: Mem := e.mem[a := Wide(c)];
    forall i | 0 <= i < WIB_CHARS ensures Writable(n, e.wib + 2 * i, Wide(0)) {
      StillWritable(e.mem, e.wib, e.win, i, c);
    }
  }

  lemma BufferOnlyTrans(m: Mem, n: Mem, o: Mem, wib: Addr)
    requires BufferOnly(m, n, wib) && BufferOnly(n, o, wib)
    ensures BufferOnly(m, o, wib)
  {
  }

  /** f is e with other characters in the word input buffer. */
  ghost predicate Alike(e: Env, f: Env) {
    f.dp == e.dp && f.latest == e.latest && BufferOnly(e.mem, f.mem, f.wib)
  }

  lemma AlikeStore(e: Env, f: Env, a: Addr, c: Chunk, dp: Addr, latest: Addr)
    requires Alike(e, f)
    ensures Alike(e.(mem := e.mem[a := c], dp := dp, latest := latest),
      f.(mem := f.mem[a := c], dp := dp, latest := latest))
  {
  }

  lemma AlikeTrans(e: Env, f: Env, g: Env)
    requires Alike(e, f) && Alike(f, g) && f.wib == g.wib
    ensures Alike(e, g)
  {
    hide BufferOnly;
    BufferOnlyTrans(e.mem, f.mem, g.mem, g.wib);
  }

  /** Reading a token changes nothing but the buffer, so the library, the room below the dictionary
      pointer and every search stay. */
  lemma {:induction false} TypedKeeps(e: Env, L: Lib, cs: seq<nat>)
    requires Image(e.mem, L) && WibReady(e) && Below(e.mem, e.dp) && e.win + |cs| <= WIB_CHARS
    requires |cs| <= |e.keys|
    ensures var f := Typed(e, cs);
      && Image(f.mem, L) && WibReady(f) && Below(f.mem, f.dp) && BufferOnly(e.mem, f.mem, e.wib)
      && f == e.(mem := f.mem, win := e.win + |cs|, keys := f.keys)
    decreases |cs|
  {
    hide Image, Below, WibReady, Loaded;
    if cs != [] {
      var e1 := e.(keys := e.keys[1..]);
      assert WibReady(e1) by { SameWib(e, e1); }
      PutCharKeeps(e1, L, cs[0]);
      TypedKeeps(PutChar(e1, cs[0]), L, cs[1..]);
      BufferOnlyTrans(e.mem, PutChar(e1, cs[0]).mem, Typed(e, cs).mem, e.wib);
    }
  }

  lemma SameWib(e: Env, f: Env)
    requires WibReady(e) && f.mem == e.mem && f.wib == e.wib && f.dp == e.dp
    ensures WibReady(f)
  {
  }

  /** The characters end up in the buffer in order, behind those already there. */
  lemma {:induction false} TypedChars(e: Env, cs: seq<nat>)
    requires |cs| <= |e.keys|
    ensures HasChars(Typed(e, cs).mem, e.wib + 2 * e.win, cs)
    ensures Before(e.mem, Typed(e, cs).mem, e.wib + 2 * e.win)
    decreases |cs|
  {
    if cs != [] {
      hide HasChars, Before;
      var e1 := TakeChar(e, cs[0]);
      TypedChars(e1, cs[1..]);
      OneMore(e.mem, e1.mem, Typed(e, cs).mem, e.wib + 2 * e.win, cs);
    } else {
      assert Typed(e, cs) == e;
    }
  }

  ghost predicate Before(m: Mem, n: Mem, a: Addr) {
    forall b :: b in m && b < a ==> b in n && n[b] == m[b]
  }

  lemma OneMore(m: Mem, m1: Mem, n: Mem, a: Addr, cs: seq<nat>)
    requires cs != [] && m1 == m[a := Wide(cs[0])]
    requires Before(m1, n, a + 2) && HasChars(n, a + 2, cs[1..])
    ensures Before(m, n, a) && HasChars(n, a, cs)
  {
    assert a in m1;
    forall i | 0 <= i < |cs| ensures a + 2 * i in n && n[a + 2 * i] == Wide(cs[i]) {
      if i > 0 {
        assert a + 2 + 2 * (i - 1) in n && n[a + 2 + 2 * (i - 1)] == Wide(cs[1..][i - 1]);
      }
    }
  }

  lemma {:induction false} SearchSame(m: Mem, n: Mem, wib: Addr, w: Addr, name: seq<nat>)
    requires BufferOnly(m, n, wib)
    ensures Search(n, w, name) == Search(m, w, name)
    decreases w
  {
    assert HasWord(m, w) <==> HasWord(n, w);
    if HasWord(m, w) && m[w].h.name != name && 0 != m[w].h.prev < w {
      SearchSame(m, n, wib, m[w].h.prev, name);
    }
  }

  lemma WibRst(s: State, L: Lib)
    requires Calling(s, L, WIBRST) && s.dn + 2 <= STACK_DEPTH && s.rn < STACK_DEPTH
    ensures Reaches(s, s.(pc := Next, env := s.env.(win := 0)))
  {
    hide Reaches, Image, Loaded, BodyOf, Step, Run;
    var s1 := Enter(s, L, WIBRST);
    var s2 := Constant(s, s1, L, WIBRST, 0, K0);
    var s4 := PutWin(s, s2, L, WIBRST, 1);
    var s5 := Return(s, s4, L, WIBRST, 3);
    assert s5 == s.(pc := Next, env := s.env.(win := 0));
  }

  /** DELIM? tells blanks, carriage returns and line feeds from other characters. */
  lemma Delim(s: State, L: Lib)
    requires Calling(s, L, DELIM) && s.dn + 3 <= STACK_DEPTH && s.rn < STACK_DEPTH
    ensures Reaches(s, s.(pc := Next, tos := Flag(IsDelim(s.tos))))
  {
    hide Reaches, Image, Loaded, BodyOf, Step, Run, Result, Flag, IsDelim;
    var s1 := Enter(s, L, DELIM);
    var s2 := DelimStart(s, s1, L);
    var s3 := DelimEnd(s, s2, L, s.tos);
    assert s3 == s.(pc := Next, tos := Flag(IsDelim(s.tos)));
  }

  lemma DelimStartCells()
    ensures CodeLen(DELIM) == 13 && Code(DELIM, 0) == W(P(Dup)) && Code(DELIM, 1) == W(P(Op.Lit))
    ensures Code(DELIM, 2) == N(32) && Code(DELIM, 3) == W(P(Eq)) && Code(DELIM, 4) == W(P(Over))
  {
  }

  lemma DelimStart(s0: State, s: State, L: Lib) returns (t: State)
    requires Reaches(s0, s) && At(s, L, DELIM, 0) && s.dn + 3 <= STACK_DEPTH
    ensures Reaches(s0, t)
    ensures t == s.(ip := s.ip + 64, tos := Flag(s.tos == 32 || s.tos == 13), ds := Item(s.tos, s.ds), dn := s.dn + 1)
  {
    hide Reaches, Image, Loaded, BodyOf, Step, Run, Result, Flag, Code, CodeLen;
    DelimStartCells();
    var c := s.tos;
    var s1 := Stk(s0, s, L, DELIM, 0, Dup);
    var s2 := DelimBlank(s0, s1, L);
    var s3 := Stk(s0, s2, L, DELIM, 4, Over);
    t := DelimMiddle(s0, s3, L, c);
  }

  lemma DelimBlank(s0: State, s: State, L: Lib) returns (t: State)
    requires Reaches(s0, s) && At(s, L, DELIM, 1) && s.dn < STACK_DEPTH
    ensures Reaches(s0, t) && t == s.(ip := s.ip + 24, tos := Flag(s.tos == 32))
  {
    hide Reaches, Image, Loaded, BodyOf, Step, Run, Result, Flag;
    Same(s.tos, 32);
    var s1 := Literal(s0, s, L, DELIM, 1);
    t := Ari(s0, s1, L, DELIM, 3, Eq);
  }

  lemma DelimMiddle(s0: State, s: State, L: Lib, c: nat) returns (t: State)
    requires Reaches(s0, s) && At(s, L, DELIM, 5) && s.dn < STACK_DEPTH
    requires Has(s, 1) && s.ds.top == Flag(c == 32) && s.tos == c && s.ds.rest.Item?
    ensures Reaches(s0, t)
    ensures t == s.(ip := s.ip + 24, tos := Flag(c == 32 || c == 13), ds := s.ds.rest, dn := s.dn - 1)
  {
    hide Reaches, Image, Loaded, BodyOf, Step, Run, Result, Flag;
    Same(c, 13);
    Either(c == 32, c == 13);
    var s1 := Constant(s0, s, L, DELIM, 5, KD);
    var s2 := Ari(s0, s1, L, DELIM, 6, Eq);
    t := Ari(s0, s2, L, DELIM, 7, OrOp);
  }

  lemma DelimEndCells()
    ensures CodeLen(DELIM) == 13 && Code(DELIM, 8) == W(P(Swap)) && Code(DELIM, 9) == W(K(KA))
    ensures Code(DELIM, 10) == W(P(Eq)) && Code(DELIM, 11) == W(P(OrOp)) && Code(DELIM, 12) == W(P(Exit))
  {
  }

  lemma DelimEnd(s0: State, s: State, L: Lib, c: nat) returns (t: State)
    requires Reaches(s0, s) && At(s, L, DELIM, 8) && s.rs.Item? && s.rn > 0
    requires s.ds.Item? && s.ds.top == c && 0 < s.dn < STACK_DEPTH && s.tos == Flag(c == 32 || c == 13)
    ensures Reaches(s0, t)
    ensures t == s.(ip := s.rs.top, rs := s.rs.rest, rn := s.rn - 1,
                    tos := Flag(IsDelim(c)), ds := s.ds.rest, dn := s.dn - 1)
  {
    hide Reaches, Image, Loaded, BodyOf, Step, Run, Result, Flag, Code, CodeLen;
    DelimEndCells();
    Same(c, 10);
    Either(c == 32 || c == 13, c == 10);
    var s1 := Stk(s0, s, L, DELIM, 8, Swap);
    var s2 := Constant(s0, s1, L, DELIM, 9, KA);
    var s3 := Ari(s0, s2, L, DELIM, 10, Eq);
    var s4 := Ari(s0, s3, L, DELIM, 11, OrOp);
    t := Return(s0, s4, L, DELIM, 12);
  }

  /** The slot that WIB-PUSH stores to: WIN modulo FORTH-NAME-MAXLEN, whatever the size of the buffer. */
  function Slot(e: Env): Addr {
    e.wib + 2 * SlotNumber(e.win)
  }

  function SlotNumber(win: nat): (r: nat)
    ensures r < NAME_MAXLEN
  {
    win % NAME_MAXLEN
  }

  lemma SlotNumbered(win: nat)
    ensures Result(Mod, win, NAME_MAXLEN) == SlotNumber(win)
    ensures win < NAME_MAXLEN ==> SlotNumber(win) == win
  {
    Remainder(win, NAME_MAXLEN);
  }

  /** WIN X@ FORTH-NAME-MAXLEN MOD 2* WIB +: the slot's address. */
  lemma SlotAddress(s0: State, s: State, L: Lib) returns (t: State)
    requires Reaches(s0, s) && At(s, L, WIBPUSH, 0) && s.dn + 2 <= STACK_DEPTH && Slot(s.env) < TWO64
    ensures Reaches(s0, t)
    ensures t == s.(ip := s.ip + 56, tos := Slot(s.env), ds := Item(s.tos, s.ds), dn := s.dn + 1)
  {
    hide Reaches, Image, Loaded, BodyOf, Step, Run, Result, SlotNumber;
    var slot := SlotNumber(s.env.win);
    SlotNumbered(s.env.win);
    var s2 := GetWin(s0, s, L, WIBPUSH, 0);
    var s3 := Constant(s0, s2, L, WIBPUSH, 2, KMaxlen);
    var s4 := Ari(s0, s3, L, WIBPUSH, 3, Mod);
    assert s4.tos == slot;
    t := SlotScaled(s0, s4, L, slot);
  }

  lemma SlotCells()
    ensures CodeLen(WIBPUSH) == 16 && Code(WIBPUSH, 4) == W(P(TwoMulti)) && Code(WIBPUSH, 5) == W(P(Wib))
    ensures Code(WIBPUSH, 6) == W(P(Plus))
  {
  }

  lemma SlotScaled(s0: State, s: State, L: Lib, slot: nat) returns (t: State)
    requires Reaches(s0, s) && At(s, L, WIBPUSH, 4) && s.dn < STACK_DEPTH && s.tos == slot
    requires s.env.wib + 2 * slot < TWO64
    ensures Reaches(s0, t) && t == s.(ip := s.ip + 24, tos := s.env.wib + 2 * slot)
  {
    hide Reaches, Image, Loaded, BodyOf, Step, Run, Result, Code, CodeLen;
    SlotCells();
    Twice(slot);
    Sum(2 * slot, s.env.wib);
    var s5 := Una(s0, s, L, WIBPUSH, 4, TwoMulti);
    var s6 := Psh(s0, s5, L, WIBPUSH, 5, Wib);
    t := Ari(s0, s6, L, WIBPUSH, 6, Plus);
  }

  /** The first half of WIB-PUSH: store the character in its slot. */
  lemma StoreChar(s0: State, s: State, L: Lib, y: nat, r: Stack) returns (t: State)
    requires Reaches(s0, s) && At(s, L, WIBPUSH, 0) && s.ds == Item(y, r) && 0 < s.dn && s.dn + 2 <= STACK_DEPTH
    requires Slot(s.env) < TWO64 && s.tos < 0x1_0000 && CanWrite(s.env, Slot(s.env), Wide(s.tos))
    ensures Reaches(s0, t)
    ensures t == s.(ip := s.ip + 64, tos := y, ds := r, dn := s.dn - 1,
                    env := s.env.(mem := s.env.mem[Slot(s.env) := Wide(s.tos)]))
  {
    hide Reaches, Image, Loaded, BodyOf, Step, Run, CanWrite, Slot;
    var s7 := SlotAddress(s0, s, L);
    t := Store2(s0, s7, L, WIBPUSH, 7);
  }

  /** The second half: count it. */
  lemma CountChar(s0: State, s: State, L: Lib) returns (t: State)
    requires Reaches(s0, s) && At(s, L, WIBPUSH, 8) && s.dn + 2 <= STACK_DEPTH && s.rs.Item? && s.rn > 0
    requires s.env.win + 1 < TWO64
    ensures Reaches(s0, t)
    ensures t == s.(ip := s.rs.top, rs := s.rs.rest, rn := s.rn - 1,
                    env := s.env.(win := SlotNumber(s.env.win + 1)))
  {
    hide Reaches, Image, Loaded, BodyOf, Step, Run, Result, SlotNumber;
    Increment(s.env.win);
    SlotNumbered(s.env.win + 1);
    var s2 := GetWin(s0, s, L, WIBPUSH, 8);
    var s3 := Una(s0, s2, L, WIBPUSH, 10, OnePlus);
    var s4 := Constant(s0, s3, L, WIBPUSH, 11, KMaxlen);
    var s5 := Ari(s0, s4, L, WIBPUSH, 12, Mod);
    var s6 := PutWin(s0, s5, L, WIBPUSH, 13);
    t := Return(s0, s6, L, WIBPUSH, 15);
  }

  /** WIB-PUSH, wherever its slot is. */
  lemma WibPushAny(s: State, L: Lib, y: nat, r: Stack)
    requires Calling(s, L, WIBPUSH) && s.ds == Item(y, r) && 0 < s.dn && s.dn + 2 <= STACK_DEPTH && s.rn < STACK_DEPTH
    requires Slot(s.env) < TWO64 && s.env.win + 1 < TWO64
    requires s.tos < 0x1_0000 && CanWrite(s.env, Slot(s.env), Wide(s.tos))
    ensures Reaches(s, WithStack(s, y, r, s.dn - 1).(env :=
      s.env.(mem := s.env.mem[Slot(s.env) := Wide(s.tos)], win := SlotNumber(s.env.win + 1))))
  {
    hide Reaches, Image, Loaded, BodyOf, Step, Run, Slot;
    CharOver(s.env, L, Slot(s.env), s.tos);
    var s1 := Enter(s, L, WIBPUSH);
    var s2 := StoreChar(s, s1, L, y, r);
    var s3 := CountChar(s, s2, L);
    assert s3 == WithStack(s, y, r, s.dn - 1).(env :=
      s.env.(mem := s.env.mem[Slot(s.env) := Wide(s.tos)], win := SlotNumber(s.env.win + 1)));
  }

  /** A character that can be written harms no word. */
  lemma CharOver(e: Env, L: Lib, a: Addr, c: nat)
    requires Image(e.mem, L) && CanWrite(e, a, Wide(c))
    ensures var n := e.mem[a := Wide(c)];
      && Image(n, L) && Loaded(e.mem, L, D(WIBPUSH)) && Loaded(n, L, D(WIBPUSH))
      && BodyOf(n, L, WIBPUSH) == BodyOf(e.mem, L, WIBPUSH)
  {
    hide Image, Loaded, BodyOf;
    if a in e.mem && Free(e.mem, a, 2) { NotFree(e.mem, a, 2); }
    ImageStore(e.mem, L, a, Wide(c));
    LoadedStore(e.mem, L, WIBPUSH, a, Wide(c));
  }

  /** WIB-PUSH, within the buffer. */
  lemma WibPush(s: State, L: Lib, y: nat, r: Stack)
    requires Calling(s, L, WIBPUSH) && s.ds == Item(y, r) && 0 < s.dn && s.dn + 2 <= STACK_DEPTH && s.rn < STACK_DEPTH
    requires WibReady(s.env) && s.env.win < WIB_CHARS && s.tos < 0x1_0000 && Below(s.env.mem, s.env.dp)
    ensures Reaches(s, WithStack(s, y, r, s.dn - 1).(env := PutChar(s.env, s.tos)))
  {
    hide Reaches, Image, CanWrite, Below, BufferOnly;
    SlotTakes(s.env, s.tos);
    SlotNumbered(s.env.win);
    SlotNumbered(s.env.win + 1);
    WibPushAny(s, L, y, r);
  }

  /** A token stays inside the buffer exactly if it has at most 64 characters. */
  lemma FitsBuffer(e: Env)
    requires e.win < NAME_MAXLEN
    ensures Slot(e) + 2 <= e.wib + NAME_MAXLEN + 1 <==> e.win < WIB_CHARS
  {
  }

  /** The library and the console vectors are in place, and there is the given room on the stacks. */
  ghost predicate Wired(s: State, L: Lib, cells: nat, calls: nat) {
    Image(s.env.mem, L) && DefaultIo(s.env, L) && s.dn + cells <= STACK_DEPTH && s.rn + calls <= STACK_DEPTH
  }

  /** The same, with a buffer that takes 64 characters. */
  ghost predicate Reading(s: State, L: Lib, cells: nat, calls: nat) {
    Wired(s, L, cells, calls) && WibReady(s.env) && Below(s.env.mem, s.env.dp)
  }

  lemma KeyAndTestCells()
    ensures CodeLen(INNERWORD) == 12 && Code(INNERWORD, 1) == W(D(WKEY)) && Code(INNERWORD, 2) == W(P(Dup))
    ensures Code(INNERWORD, 3) == W(D(DELIM)) && Code(INNERWORD, 4) == W(P(ZBranch)) && Code(INNERWORD, 5) == To(8)
  {
  }

  /** WKEY DUP DELIM? at the head of _WIB-WORD's loop. */
  lemma KeyAndTest(s0: State, s: State, L: Lib) returns (t: State)
    requires Reaches(s0, s) && At(s, L, INNERWORD, 1) && Wired(s, L, 5, 2) && s.env.keys != []
    ensures Reaches(s0, t)
    ensures var c := s.env.keys[0];
      t == s.(ip := s.ip + 24, tos := Flag(IsDelim(c)), ds := Item(c, Item(s.tos, s.ds)), dn := s.dn + 2,
              env := s.env.(keys := s.env.keys[1..]))
  {
    hide Reaches, Image, Loaded, BodyOf, Step, Run, IsDelim, Flag, WibReady, Below, Code, CodeLen;
    KeyAndTestCells();
    var c := s.env.keys[0];
    var u1 := Fetch(s0, s, L, INNERWORD, 1, D(WKEY));
    WKey(u1, L);
    var s1 := WithStack(u1, c, Item(s.tos, s.ds), s.dn + 1).(env := s.env.(keys := s.env.keys[1..]));
    ReachesTrans(s0, u1, s1);
    var s2 := Stk(s0, s1, L, INNERWORD, 2, Dup);
    var u2 := Fetch(s0, s2, L, INNERWORD, 3, D(DELIM));
    Delim(u2, L);
    t := u2.(pc := Next, tos := Flag(IsDelim(c)));
    ReachesTrans(s0, u2, t);
  }

  /** A delimiter ends the word: it is dropped and _WIB-WORD returns. */
  lemma StopAtDelim(s0: State, s: State, L: Lib) returns (t: State)
    requires Reaches(s0, s) && At(s, L, INNERWORD, 1) && Wired(s, L, 5, 2)
    requires s.env.keys != [] && IsDelim(s.env.keys[0]) && s.rs.Item? && s.rn > 0
    ensures Reaches(s0, t)
    ensures t == s.(ip := s.rs.top, rs := s.rs.rest, rn := s.rn - 1, env := s.env.(keys := s.env.keys[1..]))
  {
    hide Reaches, Image, Loaded, BodyOf, Step, Run, WibReady, Below;
    var s1 := KeyAndTest(s0, s, L);
    var s2 := ZJump(s0, s1, L, INNERWORD, 4, 8);
    var s3 := Stk(s0, s2, L, INNERWORD, 6, Drop);
    t := Return(s0, s3, L, INNERWORD, 7);
  }

  /** Any other character is stored, and the loop goes on. */
  lemma TakePlain(s0: State, s: State, L: Lib) returns (t: State)
    requires Reaches(s0, s) && At(s, L, INNERWORD, 1) && Reading(s, L, 5, 2)
    requires s.env.keys != [] && !IsDelim(s.env.keys[0]) && s.env.keys[0] < 0x1_0000 && s.env.win < WIB_CHARS
    ensures Reaches(s0, t)
    ensures t == s.(env := TakeChar(s.env, s.env.keys[0]))
    ensures Reading(t, L, 5, 2) && At(t, L, INNERWORD, 1)
  {
    hide Reaches, Image, Loaded, BodyOf, Step, Run, WibReady, Below, BufferOnly, CanWrite;
    var c := s.env.keys[0];
    var e1 := s.env.(keys := s.env.keys[1..]);
    var s1 := KeyAndTest(s0, s, L);
    var s2 := ZJump(s0, s1, L, INNERWORD, 4, 8);
    var u := Fetch(s0, s2, L, INNERWORD, 8, D(WIBPUSH));
    SameWib(s.env, e1);
    WibPush(u, L, s.tos, s.ds);
    var s3 := WithStack(u, s.tos, s.ds, s.dn).(env := TakeChar(s.env, c));
    ReachesTrans(s0, u, s3);
    PutCharKeeps(e1, L, c);
    SlotTakes(e1, c);
    LoadedStore(e1.mem, L, INNERWORD, e1.wib + 2 * e1.win, Wide(c));
    t := Jump(s0, s3, L, INNERWORD, 9, 1);
    assert t == s.(env := TakeChar(s.env, c));
  }

  lemma {:induction false} TakeRun(s0: State, s: State, L: Lib, run: seq<nat>) returns (t: State)
    requires Reaches(s0, s) && At(s, L, INNERWORD, 1) && Reading(s, L, 5, 2)
    requires run <= s.env.keys && Plain(run) && s.env.win + |run| <= WIB_CHARS
    ensures Reaches(s0, t) && t == s.(env := Typed(s.env, run))
    ensures At(t, L, INNERWORD, 1) && Reading(t, L, 5, 2)
    decreases |run|
  {
    hide Reaches, At, Reading;
    if run == [] {
      t := s;
    } else {
      var u := TakePlain(s0, s, L);
      t := TakeRun(s0, u, L, run[1..]);
    }
  }

  /** The environment once tok has been read into the buffer and rest is still to come. */
  function ReadEnv(e: Env, tok: seq<nat>, rest: seq<nat>): Env {
    Typed(e.(win := 0, keys := tok), tok).(keys := rest)
  }

  /** What keys wait behind the characters makes no difference to the buffer. */
  lemma {:induction false} TypedAnyKeys(e: Env, cs: seq<nat>, more: seq<nat>)
    ensures Typed(e.(keys := cs + more), cs) == Typed(e.(keys := cs), cs).(keys := more)
    decreases |cs|
  {
    if cs == [] {
      assert cs + more == more;
    } else {
      assert (cs + more)[1..] == cs[1..] + more;
      TypedAnyKeys(PutChar(e, cs[0]), cs[1..], more);
      assert PutChar(e.(keys := cs[1..] + more), cs[0]) == PutChar(e, cs[0]).(keys := cs[1..] + more);
      assert PutChar(e.(keys := cs[1..]), cs[0]) == PutChar(e, cs[0]).(keys := cs[1..]);
    }
  }

  predicate Delims(cs: seq<nat>) {
    forall i :: 0 <= i < |cs| ==> IsDelim(cs[i])
  }

  /** The next word of the key stream is tok, with any delimiters before it and one behind it. */
  ghost predicate NextWord(keys: seq<nat>, tok: seq<nat>, rest: seq<nat>) {
    exists skip: seq<nat>, d: nat :: Delims(skip) && IsDelim(d) && keys == skip + tok + [d] + rest
  }

  /** _WIB-WORD reads the characters up to the first delimiter, and that delimiter. */
  lemma InnerWord(s: State, L: Lib, run: seq<nat>, d: nat, rest: seq<nat>)
    requires Calling(s, L, INNERWORD) && Reading(s, L, 5, 3)
    requires s.env.keys == run + [d] + rest && Plain(run) && |run| <= WIB_CHARS && IsDelim(d)
    ensures Reaches(s, s.(pc := Next, env := ReadEnv(s.env, run, rest)))
  {
    hide Reaches, Image, Loaded, BodyOf, Step, Run, Below, WibReady, IsDelim;
    var s1 := Enter(s, L, INNERWORD);
    var u := Fetch(s, s1, L, INNERWORD, 0, D(WIBRST));
    WibRst(u, L);
    var s2 := u.(pc := Next, env := s.env.(win := 0));
    ReachesTrans(s, u, s2);
    SameWib(s.env, s2.env);
    var s3 := TakeRun(s, s2, L, run);
    assert s2.env.keys == run + ([d] + rest);
    TypedAnyKeys(s2.env, run, [d] + rest);
    assert s3.env.keys == [d] + rest;
    var s4 := StopAtDelim(s, s3, L);
    assert s4 == s.(pc := Next, env := ReadEnv(s.env, run, rest));
  }

  /** What a token leaves: its characters in the buffer, its length in WIN, and nothing else changed
      but the keys. */
  lemma ReadEffect(e: Env, L: Lib, tok: seq<nat>, rest: seq<nat>)
    requires Image(e.mem, L) && WibReady(e) && Below(e.mem, e.dp) && |tok| <= WIB_CHARS
    ensures var f := ReadEnv(e, tok, rest);
      && f == e.(mem := f.mem, win := |tok|, keys := rest)
      && HasChars(f.mem, f.wib, tok) && BufferOnly(e.mem, f.mem, e.wib)
      && Image(f.mem, L) && WibReady(f) && Below(f.mem, f.dp)
  {
    hide Image, Below, WibReady, BufferOnly, HasChars;
    var e1 := e.(win := 0, keys := tok);
    SameWib(e, e1);
    TypedKeeps(e1, L, tok);
    TypedChars(e1, tok);
    var e2 := Typed(e1, tok);
    SameWib(e2, e2.(keys := rest));
  }

  // Tokens of any length.

  /** Each of the 127 slots that WIB-PUSH uses is fit to take a character. */
  predicate Roomy(e: Env) {
    && RAM <= e.wib && e.wib + 2 * NAME_MAXLEN < TWO64 && e.win < NAME_MAXLEN
    && forall i :: 0 <= i < NAME_MAXLEN ==> Writable(e.mem, e.wib + 2 * i, Wide(0))
  }

  /** WIB-PUSH, wherever its slot is. */
  function PutAny(e: Env, c: nat): Env {
    e.(mem := e.mem[Slot(e) := Wide(c)], win := SlotNumber(e.win + 1))
  }

  function PutAll(e: Env, cs: seq<nat>): Env
    decreases |cs|
  {
    if cs == [] then e else PutAll(PutAny(e, cs[0]), cs[1..])
  }

  lemma RoomySlot(e: Env, c: nat)
    requires Roomy(e)
    ensures CanWrite(e, Slot(e), Wide(c)) && (Slot(e) in e.mem ==> e.mem[Slot(e)].Wide?)
  {
    assert SlotNumber(e.win) == e.win;
    assert Writable(e.mem, e.wib + 2 * e.win, Wide(0));
    if Slot(e) in e.mem { NotFree(e.mem, Slot(e), 2); }
  }

  lemma RoomyPut(e: Env, c: nat)
    requires Roomy(e)
    ensures Roomy(PutAny(e, c))
  {
    hide Writable;
    RoomySlot(e, c);
    var n := PutAny(e, c).mem;
    assert Writable(e.mem, e.wib + 2 * e.win, Wide(0));
    forall i | 0 <= i < NAME_MAXLEN ensures Writable(n, e.wib + 2 * i, Wide(0)) {
      StillWritable(e.mem, e.wib, e.win, i, c);
    }
  }

  /** WIB-PUSH at cell 8 of _WIB-WORD. */
  lemma PushesAny(s0: State, s: State, L: Lib, y: nat, r: Stack) returns (t: State)
    requires Reaches(s0, s) && At(s, L, INNERWORD, 8) && s.ds == Item(y, r) && 0 < s.dn
    requires s.dn + 2 <= STACK_DEPTH && s.rn < STACK_DEPTH && Roomy(s.env) && s.tos < 0x1_0000
    ensures Reaches(s0, t) && At(t, L, INNERWORD, 9)
    ensures t == s.(ip := s.ip + 8, tos := y, ds := r, dn := s.dn - 1, env := PutAny(s.env, s.tos))
    ensures BodyOf(t.env.mem, L, INNERWORD) == BodyOf(s.env.mem, L, INNERWORD)
  {
    hide Reaches, Image, Loaded, BodyOf, Step, Run, CanWrite, SlotNumber;
    RoomySlot(s.env, s.tos);
    SlotLow(s.env);
    var u := Fetch(s0, s, L, INNERWORD, 8, D(WIBPUSH));
    WibPushAny(u, L, y, r);
    t := WithStack(u, y, r, s.dn - 1).(env := PutAny(s.env, s.tos));
    ReachesTrans(s0, u, t);
    CharOver(s.env, L, Slot(s.env), s.tos);
    CharMoves(s.env, L, s.tos);
  }

  /** One character of a long token. */
  lemma TakeAny(s0: State, s: State, L: Lib) returns (t: State)
    requires Reaches(s0, s) && At(s, L, INNERWORD, 1) && Wired(s, L, 5, 2) && Roomy(s.env)
    requires s.env.keys != [] && !IsDelim(s.env.keys[0]) && s.env.keys[0] < 0x1_0000
    ensures Reaches(s0, t)
    ensures t == s.(env := PutAny(s.env, s.env.keys[0]).(keys := s.env.keys[1..]))
    ensures Wired(t, L, 5, 2) && At(t, L, INNERWORD, 1) && Roomy(t.env)
  {
    hide Reaches, Image, Loaded, BodyOf, Step, Run, CanWrite, SlotNumber, Roomy;
    RoomyPut(s.env, s.env.keys[0]);
    RoomyKeys(s.env, s.env.keys[1..]);
    RoomyKeys(PutAny(s.env, s.env.keys[0]), s.env.keys[1..]);
    var s1 := KeyAndTest(s0, s, L);
    var s2 := ZJump(s0, s1, L, INNERWORD, 4, 8);
    var s3 := PushesAny(s0, s2, L, s.tos, s.ds);
    t := Jump(s0, s3, L, INNERWORD, 9, 1);
    assert t == s.(env := PutAny(s.env, s.env.keys[0]).(keys := s.env.keys[1..]));
  }

  lemma RoomyKeys(e: Env, ks: seq<nat>)
    requires Roomy(e)
    ensures Roomy(e.(keys := ks))
  {
  }

  lemma SlotLow(e: Env)
    requires Roomy(e)
    ensures Slot(e) < TWO64 && RAM <= Slot(e) && e.win + 1 < TWO64
  {
  }

  lemma CharMoves(e: Env, L: Lib, c: nat)
    requires Image(e.mem, L) && RAM <= Slot(e) && (Slot(e) in e.mem ==> e.mem[Slot(e)].Wide?)
    ensures var n := e.mem[Slot(e) := Wide(c)];
      Loaded(e.mem, L, D(INNERWORD)) && Loaded(n, L, D(INNERWORD))
        && BodyOf(n, L, INNERWORD) == BodyOf(e.mem, L, INNERWORD)
  {
    hide Image, Loaded, BodyOf, Slot;
    LoadedStore(e.mem, L, INNERWORD, Slot(e), Wide(c));
  }

  lemma {:induction false} TakeLong(s0: State, s: State, L: Lib, run: seq<nat>) returns (t: State)
    requires Reaches(s0, s) && At(s, L, INNERWORD, 1) && Wired(s, L, 5, 2) && Roomy(s.env)
    requires run <= s.env.keys && Plain(run)
    ensures Reaches(s0, t) && t == s.(env := PutAll(s.env, run).(keys := s.env.keys[|run|..]))
    ensures At(t, L, INNERWORD, 1) && Wired(t, L, 5, 2)
    decreases |run|
  {
    hide Reaches, At, Wired, Roomy, Slot, SlotNumber;
    if run == [] {
      t := s;
    } else {
      var u := TakeAny(s0, s, L);
      t := TakeLong(s0, u, L, run[1..]);
      PutAllKeys(PutAny(s.env, run[0]), u.env.keys, run[1..]);
    }
  }

  lemma {:induction false} PutAllKeys(e: Env, ks: seq<nat>, cs: seq<nat>)
    ensures PutAll(e.(keys := ks), cs) == PutAll(e, cs).(keys := ks)
    decreases |cs|
  {
    hide SlotNumber;
    if cs != [] { PutAllKeys(PutAny(e, cs[0]), ks, cs[1..]); }
  }

  lemma CountsOn(win: nat, n: nat)
    requires win < NAME_MAXLEN && n > 0
    ensures (win + n) % NAME_MAXLEN == (SlotNumber(win + 1) + (n - 1)) % NAME_MAXLEN
  {
  }

  /** Characters put one after the other are counted modulo 127. */
  lemma {:induction false} PutAllCounts(e: Env, cs: seq<nat>)
    requires e.win < NAME_MAXLEN
    ensures var f := PutAll(e, cs);
      f == e.(mem := f.mem, win := (e.win + |cs|) % NAME_MAXLEN) && forall a :: a in e.mem ==> a in f.mem
    decreases |cs|
  {
    hide SlotNumber;
    if cs != [] {
      CountsOn(e.win, |cs|);
      PutAllCounts(PutAny(e, cs[0]), cs[1..]);
    }
  }

  /** If they are few enough, nothing is written above the buffer. */
  lemma {:induction false} PutAllInside(e: Env, cs: seq<nat>)
    requires e.win + |cs| <= WIB_CHARS
    ensures forall a :: a in PutAll(e, cs).mem && (a !in e.mem || PutAll(e, cs).mem[a] != e.mem[a]) ==>
      a + 2 <= e.wib + 2 * WIB_CHARS && PutAll(e, cs).mem[a].Wide?
    decreases |cs|
  {
    if cs != [] { PutAllInside(PutAny(e, cs[0]), cs[1..]); }
  }

  /** Otherwise there is a character right behind it. */
  lemma {:induction false} PutAllPast(e: Env, cs: seq<nat>)
    requires e.win <= WIB_CHARS < e.win + |cs|
    ensures e.wib + 2 * WIB_CHARS in PutAll(e, cs).mem
    decreases |cs|
  {
    var f := PutAny(e, cs[0]);
    if e.win == WIB_CHARS { PutAllCounts(f, cs[1..]); } else { PutAllPast(f, cs[1..]); }
  }

  /** _WIB-WORD reads a token of any length: it counts modulo 127 and stores modulo 127, although the buffer has
      room for 64 characters only. Where the dictionary begins right behind the buffer, as forth_init_task
      leaves it, everything stays below the dictionary pointer exactly if the token has at most 64 characters;
      a longer one puts characters where the next word will be. */
  lemma LongToken(s: State, L: Lib, run: seq<nat>, d: nat, rest: seq<nat>) returns (u: State)
    requires Calling(s, L, INNERWORD) && Wired(s, L, 5, 3) && Roomy(s.env.(win := 0))
    requires s.env.keys == run + [d] + rest && Plain(run) && IsDelim(d)
    requires s.env.dp == s.env.wib + NAME_MAXLEN + 1 && Below(s.env.mem, s.env.dp)
    ensures Reaches(s, u) && u == s.(pc := Next, env := u.env)
    ensures u.env == s.env.(mem := u.env.mem, win := |run| % NAME_MAXLEN, keys := rest)
    ensures Below(u.env.mem, u.env.dp) <==> |run| <= WIB_CHARS
  {
    hide Reaches, Image, Loaded, BodyOf, Step, Run, IsDelim, Roomy;
    var s1 := Enter(s, L, INNERWORD);
    var v := Fetch(s, s1, L, INNERWORD, 0, D(WIBRST));
    WibRst(v, L);
    var s2 := v.(pc := Next, env := s.env.(win := 0));
    ReachesTrans(s, v, s2);
    assert s2.env.keys == run + ([d] + rest);
    var s3 := TakeLong(s, s2, L, run);
    assert s3.env.keys == [d] + rest;
    u := StopAtDelim(s, s3, L);
    PutAllCounts(s2.env, run);
    PastBuffer(s2.env, run);
  }

  lemma PastBuffer(e: Env, cs: seq<nat>)
    requires e.win == 0 && e.dp == e.wib + NAME_MAXLEN + 1 && Below(e.mem, e.dp)
    ensures Below(PutAll(e, cs).mem, e.dp) <==> |cs| <= WIB_CHARS
  {
    var f := PutAll(e, cs);
    if |cs| > WIB_CHARS {
      PutAllPast(e, cs);
      if Below(f.mem, e.dp) { NothingAt(f.mem, e.dp); }
    } else {
      PutAllInside(e, cs);
    }
  }

  /** The test at the end of WIB-WORD's loop: go round again while the word is empty. */
  lemma EmptyTest(s0: State, s: State, L: Lib) returns (t: State)
    requires Reaches(s0, s) && At(s, L, WIBWORD, 1) && s.dn < STACK_DEPTH
    ensures Reaches(s0, t) && t == s.(ip := if s.env.win == 0 then s.ip - 8 else s.ip + 40)
  {
    hide Reaches, Image, Loaded, BodyOf, Step, Run, Result;
    IsZero(s.env.win);
    var s1 := GetWin(s0, s, L, WIBWORD, 1);
    var s2 := Una(s0, s1, L, WIBWORD, 3, NeZ);
    t := ZJump(s0, s2, L, WIBWORD, 4, 0);
  }

  /** One call of _WIB-WORD inside WIB-WORD. */
  lemma CallInner(s0: State, s: State, L: Lib, run: seq<nat>, d: nat, rest: seq<nat>) returns (t: State)
    requires Reaches(s0, s) && At(s, L, WIBWORD, 0) && Reading(s, L, 5, 3)
    requires s.env.keys == run + [d] + rest && Plain(run) && |run| <= WIB_CHARS && IsDelim(d)
    ensures Reaches(s0, t)
    ensures t == s.(ip := if run == [] then s.ip else s.ip + 48, env := ReadEnv(s.env, run, rest))
    ensures At(t, L, WIBWORD, if run == [] then 0 else 6) && Reading(t, L, 5, 3)
  {
    hide Reaches, Image, Loaded, BodyOf, Step, Run, Below, WibReady, IsDelim, ReadEnv;
    var u := Fetch(s0, s, L, WIBWORD, 0, D(INNERWORD));
    InnerWord(u, L, run, d, rest);
    ReadEffect(s.env, L, run, rest);
    var s1 := u.(pc := Next, env := ReadEnv(s.env, run, rest));
    ReachesTrans(s0, u, s1);
    LoadedIn(s.env.mem, s1.env.mem, L, WIBWORD, s.env.wib);
    t := EmptyTest(s0, s1, L);
  }

  /** Library words do not move when the buffer is written. */
  lemma LoadedIn(m: Mem, n: Mem, L: Lib, d: Def, wib: Addr)
    requires Image(m, L) && Image(n, L) && BufferOnly(m, n, wib)
    ensures Loaded(m, L, D(d)) && Loaded(n, L, D(d)) && BodyOf(n, L, d) == BodyOf(m, L, d)
  {
    hide Code, CodeLen, StrText, Immediate;
    Known(m, L, D(d));
    Known(n, L, D(d));
  }

  lemma {:induction false} WordLoop(s0: State, s: State, L: Lib, skip: seq<nat>, tok: seq<nat>, d: nat, rest: seq<nat>)
    returns (t: State)
    requires Reaches(s0, s) && At(s, L, WIBWORD, 0) && Reading(s, L, 5, 3)
    requires s.env.keys == skip + tok + [d] + rest && Delims(skip) && IsDelim(d)
    requires Plain(tok) && 0 < |tok| <= WIB_CHARS
    ensures Reaches(s0, t) && t == s.(ip := s.ip + 48, env := ReadEnv(s.env, tok, rest))
    ensures At(t, L, WIBWORD, 6)
    decreases |skip|
  {
    hide Reaches, At, Reading;
    if skip == [] {
      assert skip + tok + [d] + rest == tok + [d] + rest;
      t := CallInner(s0, s, L, tok, d, rest);
    } else {
      var more := skip[1..] + tok + [d] + rest;
      assert s.env.keys == [] + [skip[0]] + more;
      var u := CallInner(s0, s, L, [], skip[0], more);
      assert u.env == s.env.(win := 0, keys := more);
      t := WordLoop(s0, u, L, skip[1..], tok, d, rest);
    }
  }

  /** WIB-WORD skips delimiters and reads the word behind them. */
  lemma WibWord(s: State, L: Lib, tok: seq<nat>, rest: seq<nat>)
    requires Calling(s, L, WIBWORD) && Reading(s, L, 5, 4)
    requires NextWord(s.env.keys, tok, rest) && Plain(tok) && 0 < |tok| <= WIB_CHARS
    ensures Reaches(s, s.(pc := Next, env := ReadEnv(s.env, tok, rest)))
  {
    hide Reaches, Image, Loaded, BodyOf, Step, Run, Below, WibReady, IsDelim, ReadEnv, Delims, Plain;
    var skip: seq<nat>, d: nat :| Delims(skip) && IsDelim(d) && s.env.keys == skip + tok + [d] + rest;
    var s1 := Enter(s, L, WIBWORD);
    var s2 := WordLoop(s, s1, L, skip, tok, d, rest);
    var s3 := Return(s, s2, L, WIBWORD, 6);
    assert s3 == s.(pc := Next, env := ReadEnv(s.env, tok, rest));
  }

  /** The number of characters before the first delimiter. */
  function RunLength(keys: seq<nat>): (n: nat)
    ensures n <= |keys|
    ensures forall i :: 0 <= i < n ==> !IsDelim(keys[i])
    ensures n < |keys| ==> IsDelim(keys[n])
  {
    if keys == [] || IsDelim(keys[0]) then 0 else 1 + RunLength(keys[1..])
  }

  /** The words of a key stream: its maximal runs of non-delimiters that a delimiter follows. */
  function WordsOf(keys: seq<nat>): seq<seq<nat>>
    decreases |keys|
  {
    var n := RunLength(keys);
    if n == |keys| then []
    else if n == 0 then WordsOf(keys[1..])
    else [keys[..n]] + WordsOf(keys[n + 1..])
  }

  /** What is left when the words have been read: less than a word and its delimiter. */
  function Remaining(keys: seq<nat>): (r: seq<nat>)
    ensures |r| <= |keys|
    decreases |keys|
  {
    var n := RunLength(keys);
    if n == |keys| then keys
    else if n == 0 then (if WordsOf(keys[1..]) == [] then keys else Remaining(keys[1..]))
    else Remaining(keys[n + 1..])
  }

  /** The next words of the key stream are ws; rest is what follows the delimiter behind the last. */
  ghost predicate Keyed(keys: seq<nat>, ws: seq<seq<nat>>, rest: seq<nat>)
    decreases |ws|
  {
    if ws == [] then keys == rest else exists mid: seq<nat> :: NextWord(keys, ws[0], mid) && Keyed(mid, ws[1..], rest)
  }

  lemma {:induction false} KeyedSplit(keys: seq<nat>, us: seq<seq<nat>>, vs: seq<seq<nat>>, rest: seq<nat>)
    returns (mid: seq<nat>)
    requires Keyed(keys, us + vs, rest)
    ensures Keyed(keys, us, mid) && Keyed(mid, vs, rest)
    decreases |us|
  {
    hide NextWord;
    if us == [] {
      assert us + vs == vs;
      mid := keys;
    } else {
      var k: seq<nat> :| NextWord(keys, (us + vs)[0], k) && Keyed(k, (us + vs)[1..], rest);
      assert (us + vs)[1..] == us[1..] + vs;
      mid := KeyedSplit(k, us[1..], vs, rest);
    }
  }

  lemma KeyedOne(keys: seq<nat>, w: seq<nat>, rest: seq<nat>)
    requires Keyed(keys, [w], rest)
    ensures NextWord(keys, w, rest)
  {
    var mid: seq<nat> :| NextWord(keys, [w][0], mid) && Keyed(mid, [w][1..], rest);
  }

  /** Calling WIB-WORD once for each word in ws leads from s to u, each word in its turn being in the
      buffer, with its length in WIN. */
  ghost predicate Reads(s: State, L: Lib, ws: seq<seq<nat>>, u: State)
    decreases |ws|
  {
    if ws == [] then u == s
    else exists m: State ::
      && Reaches(s.(pc := Exec(L.at(D(WIBWORD)))), m) && m.pc == Next
      && m.env.win == |ws[0]| && HasChars(m.env.mem, m.env.wib, ws[0])
      && Reads(m, L, ws[1..], u)
  }

  predicate Short(ws: seq<seq<nat>>) {
    forall i :: 0 <= i < |ws| ==> |ws[i]| <= WIB_CHARS
  }

  /** A stream with words in it begins with delimiters, a word, and the delimiter behind it. */
  lemma {:induction false} FirstWord(keys: seq<nat>) returns (skip: seq<nat>, tok: seq<nat>, d: nat, rest: seq<nat>)
    requires WordsOf(keys) != []
    ensures keys == skip + tok + [d] + rest && Delims(skip) && IsDelim(d)
    ensures 0 < |tok| && forall i :: 0 <= i < |tok| ==> !IsDelim(tok[i])
    ensures WordsOf(keys) == [tok] + WordsOf(rest) && Remaining(keys) == Remaining(rest)
    decreases |keys|
  {
    hide RunLength, IsDelim, WordsOf, Remaining;
    var n := RunLength(keys);
    if n == 0 {
      SkipsDelim(keys);
      skip, tok, d, rest := FirstWord(keys[1..]);
      assert keys == [keys[0]] + (skip + tok + [d] + rest);
      skip := [keys[0]] + skip;
    } else {
      FirstHere(keys);
      skip, tok, d, rest := [], keys[..n], keys[n], keys[n + 1..];
    }
  }

  lemma FirstHere(keys: seq<nat>)
    requires WordsOf(keys) != [] && RunLength(keys) > 0
    ensures var n := RunLength(keys);
      && n < |keys| && IsDelim(keys[n]) && (forall i :: 0 <= i < n ==> !IsDelim(keys[i]))
      && WordsOf(keys) == [keys[..n]] + WordsOf(keys[n + 1..]) && Remaining(keys) == Remaining(keys[n + 1..])
  {
    hide IsDelim;
  }

  lemma SkipsDelim(keys: seq<nat>)
    requires WordsOf(keys) != [] && RunLength(keys) == 0
    ensures keys != [] && IsDelim(keys[0])
    ensures WordsOf(keys[1..]) == WordsOf(keys) && Remaining(keys[1..]) == Remaining(keys)
  {
  }

  /** Repeated WIB-WORD yields exactly the words of the key stream, in order, consumes each with one
      delimiter behind it, and changes nothing but the buffer. */
  lemma {:induction false} ReadsAll(s: State, L: Lib) returns (u: State)
    requires s.pc == Next && Reading(s, L, 5, 4)
    requires Characters(s.env.keys) && Short(WordsOf(s.env.keys))
    ensures Reads(s, L, WordsOf(s.env.keys), u)
    ensures u == s.(env := s.env.(mem := u.env.mem, win := u.env.win, keys := Remaining(s.env.keys)))
    ensures BufferOnly(s.env.mem, u.env.mem, s.env.wib)
    decreases |s.env.keys|
  {
    hide Reaches, Image, Below, WibReady, ReadEnv;
    var ws := WordsOf(s.env.keys);
    if ws == [] {
      u := s;
    } else {
      var skip, tok, d, rest := FirstWord(s.env.keys);
      assert tok == ws[0] && WordsOf(rest) == ws[1..];
      WordPlain(s.env.keys, skip, tok, d, rest);
      assert NextWord(s.env.keys, tok, rest);
      WibWord(s.(pc := Exec(L.at(D(WIBWORD)))), L, tok, rest);
      ReadEffect(s.env, L, tok, rest);
      var m := s.(env := ReadEnv(s.env, tok, rest));
      u := ReadsAll(m, L);
      BufferOnlyTrans(s.env.mem, m.env.mem, u.env.mem, s.env.wib);
    }
  }

  /** The words that WIB-WORD finds in a key stream are the words of the stream, whatever blanks, carriage
      returns and line feeds stand between them. */
  lemma {:induction false} StreamKeyed(keys: seq<nat>)
    ensures Keyed(keys, WordsOf(keys), Remaining(keys))
    decreases |keys|
  {
    hide NextWord;
    if WordsOf(keys) != [] {
      var skip, tok, d, rest := FirstWord(keys);
      assert NextWord(keys, tok, rest) by { Follows(keys, skip, tok, d, rest); }
      StreamKeyed(rest);
      assert WordsOf(keys)[1..] == WordsOf(rest);
    } else {
      NoWords(keys);
    }
  }

  lemma Follows(keys: seq<nat>, skip: seq<nat>, tok: seq<nat>, d: nat, rest: seq<nat>)
    requires keys == skip + tok + [d] + rest && Delims(skip) && IsDelim(d)
    ensures NextWord(keys, tok, rest)
  {
  }

  lemma {:induction false} NoWords(keys: seq<nat>)
    requires WordsOf(keys) == []
    ensures Remaining(keys) == keys
  {
  }

  lemma WordPlain(keys: seq<nat>, skip: seq<nat>, tok: seq<nat>, d: nat, rest: seq<nat>)
    requires keys == skip + tok + [d] + rest && Characters(keys)
    requires forall i :: 0 <= i < |tok| ==> !IsDelim(tok[i])
    ensures Plain(tok) && Characters(rest)
  {
    forall i | 0 <= i < |tok| ensures tok[i] < 0x1_0000 {
      assert tok[i] == keys[|skip| + i];
    }
    forall i | 0 <= i < |rest| ensures rest[i] < 0x1_0000 {
      assert rest[i] == keys[|skip| + |tok| + 1 + i];
    }
  }
}
