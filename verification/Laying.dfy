/** Code on its way into the dictionary: which cells of a definition have been laid, which branches are still
    open, which words can be named. */
module Laying {
  import opened Words
  import opened Memory
  import opened Opcodes
  import opened Machine
  import opened Builders
  import opened Library
  import opened Script
  import opened WStrings
  import opened Dictionary
  import DictionaryIndex

  /** What is on the compile stack above the open word: the cell a pending IF left open, or the cell a BEGIN
      stands at. */
  datatype Marks = NoMarks | Hole(k: nat, rest: Marks) | Target(k: nat, rest: Marks)

  function Stacked(marks: Marks, base: Addr, under: Stack): Stack {
    match marks
    case NoMarks => under
    case Hole(k, r) => Item(base + 8 * k, Stacked(r, base, under))
    case Target(k, r) => Item(base + 8 * k, Stacked(r, base, under))
  }

  function Pending(marks: Marks): nat {
    match marks
    case NoMarks => 0
    case Hole(_, r) => 1 + Pending(r)
    case Target(_, r) => 1 + Pending(r)
  }

  function Holes(marks: Marks): set<nat> {
    match marks
    case NoMarks => {}
    case Hole(k, r) => {k} + Holes(r)
    case Target(_, r) => Holes(r)
  }

  /** n cells of d are laid from base on, but for the holes; below base, memory is m. */
  ghost predicate Partial(b: Builder, L: Lib, d: Def, m: Mem, base: Addr, n: nat, marks: Marks, under: Stack) {
    && b.env.dp == base + 8 * n && b.cstk == Stacked(marks, base, under)
    && Below(b.env.mem, b.env.dp)
    && (forall i :: 0 <= i < n ==> base + 8 * i in b.env.mem && b.env.mem[base + 8 * i].Cell?)
    && (forall i :: 0 <= i < n && i !in Holes(marks) ==> HasCell(b.env.mem, base + 8 * i, CellOf(L, base, Code(d, i))))
    && (forall k :: k in Holes(marks) ==> k < n)
    && (forall a :: a < base ==> (a in m <==> a in b.env.mem) && (a in m ==> b.env.mem[a] == m[a]))
  }

  lemma Grows(b: Builder, L: Lib, d: Def, m: Mem, base: Addr, n: nat, marks: Marks, under: Stack, v: nat)
    requires Partial(b, L, d, m, base, n, marks, under) && v == CellOf(L, base, Code(d, n))
    ensures Partial(b.(env := Comma(b.env, v)), L, d, m, base, n + 1, marks, under)
  {
    hide Code;
  }

  lemma Opens(b: Builder, L: Lib, d: Def, m: Mem, base: Addr, n: nat, marks: Marks, under: Stack)
    requires Partial(b, L, d, m, base, n, marks, under)
    ensures Partial(CPush(b, b.env.dp).(env := Comma(b.env, 0)), L, d, m, base, n + 1, Hole(n, marks), under)
  {
    hide Code, CellOf;
    var more := Hole(n, marks);
    var c := CPush(b, b.env.dp).(env := Comma(b.env, 0));
    assert Holes(more) == {n} + Holes(marks);
    assert c.cstk == Stacked(more, base, under);
    forall i | 0 <= i < n + 1 && i !in Holes(more)
      ensures HasCell(c.env.mem, base + 8 * i, CellOf(L, base, Code(d, i)))
    {
      assert i < n && i !in Holes(marks);
      assert HasCell(b.env.mem, base + 8 * i, CellOf(L, base, Code(d, i)));
    }
  }

  lemma Patches(b: Builder, L: Lib, d: Def, m: Mem, base: Addr, n: nat, marks: Marks, under: Stack)
    requires Partial(b, L, d, m, base, n, marks, under) && marks.Hole? && Code(d, marks.k) == To(n)
    ensures Partial(Build(b, AThen), L, d, m, base, n, marks.rest, under)
    ensures !HasWord(b.env.mem, CTop(b))
  {
    hide Code;
    assert marks.k in Holes(marks);
  }

  lemma TargetOnTop(b: Builder, L: Lib, d: Def, m: Mem, base: Addr, n: nat, marks: Marks, under: Stack)
    requires Partial(b, L, d, m, base, n, marks, under) && marks.Target?
    ensures CTop(b) == base + 8 * marks.k
    ensures Partial(CPop(b), L, d, m, base, n, marks.rest, under)
  {
    hide Code;
    assert Holes(marks) == Holes(marks.rest);
    assert Stacked(marks, base, under) == Item(base + 8 * marks.k, Stacked(marks.rest, base, under));
  }

  /** The name of a word as it is stored. */
  function Named(n: Name): seq<nat> {
    Terminated(Codes(Spelling(n)))
  }

  lemma NamedAs(n: Name)
    ensures Terminated(Codes(Spelling(n)) + [0]) == Named(n)
  {
    hide Spelling, Terminated;
    TerminatedNul(Codes(Spelling(n)));
  }

  /** The names the builders use themselves. */
  lemma BuilderWords()
    ensures Named(P(Op.Lit)) == Codes("LIT") && Named(P(Branch)) == Codes("BRANCH")
      && Named(P(ZBranch)) == Codes("ZBRANCH")
  {
    hide Terminated;
    BuilderNames();
    TerminatedNul(Codes("LIT"));
    TerminatedNul(Codes("BRANCH"));
    TerminatedNul(Codes("ZBRANCH"));
  }

  /** The dictionary finds the word under its name. */
  predicate Speaks(e: Env, L: Lib, n: Name) {
    Search(e.mem, e.latest, Named(n)) == Found(L.at(n))
  }

  /** It finds all the library words among the first k declarations. */
  ghost predicate Knows(e: Env, L: Lib, k: nat) {
    forall n: Name :: Order(n) < k ==> Speaks(e, L, n)
  }

  lemma KnowsStays(e: Env, L: Lib, k: nat, a: Addr, c: Chunk, dp: Addr)
    requires Knows(e, L, k) && !HasWord(e.mem, a) && !c.Word?
    ensures Knows(e.(mem := e.mem[a := c], dp := dp), L, k)
  {
    hide Named, Search, Order;
    forall n: Name | Order(n) < k ensures Speaks(e.(mem := e.mem[a := c], dp := dp), L, n) {
      assert Speaks(e, L, n);
      SearchKeeps(e.mem, a, c, e.latest, Named(n));
    }
  }

  /** A cell at DP overwrites nothing. */
  lemma KnowsComma(e: Env, L: Lib, k: nat, v: nat)
    requires Knows(e, L, k) && Below(e.mem, e.dp)
    ensures Knows(Comma(e, v), L, k)
  {
    hide Knows;
    KnowsStays(e, L, k, e.dp, Cell(v), e.dp + 8);
  }

  lemma KnowsKept(e: Env, f: Env, L: Lib, k: nat)
    requires Knows(e, L, k) && Keeps(e.mem, f.mem) && f.latest == e.latest
    ensures Knows(f, L, k)
  {
    hide Named, Search, Keeps, Order;
    forall n: Name | Order(n) < k ensures Speaks(f, L, n) {
      assert Speaks(e, L, n);
      SearchKept(e.mem, f.mem, e.latest, Named(n));
    }
  }

  /** f has one more word than e, w, in front. */
  ghost predicate Fronted(e: Env, f: Env, w: Addr, name: seq<nat>) {
    && Keeps(e.mem, f.mem) && f.latest == w && HasWord(f.mem, w)
    && f.mem[w].h.name == name && f.mem[w].h.prev == e.latest < w
  }

  /** A word that the code of d names can be found while d is being written. */
  lemma Spoken(e: Env, L: Lib, d: Def, i: nat, name: Name)
    requires Knows(e, L, Order(D(d))) && i < CodeLen(d) && Code(d, i) == W(name)
    ensures Speaks(e, L, name)
  {
    hide Order, Code, CodeLen, Named, Search;
    UsesEarlier(d);
  }

  /** With a new word in front, other names are found as before. */
  lemma KnowsFront(e: Env, f: Env, L: Lib, k: nat, w: Addr, name: seq<nat>)
    requires Knows(e, L, k) && Fronted(e, f, w, name) && (e.latest == 0 ==> k == 0)
    requires forall n: Name :: Order(n) < k ==> Named(n) != name
    ensures Knows(f, L, k)
  {
    hide Named, Search, Keeps, Order;
    forall n: Name | Order(n) < k ensures Speaks(f, L, n) {
      assert Speaks(e, L, n);
      SearchKept(e.mem, f.mem, e.latest, Named(n));
      FrontSkipped(f.mem, w, Named(n));
    }
  }

  lemma FrontFound(m: Mem, w: Addr)
    requires HasWord(m, w)
    ensures Search(m, w, m[w].h.name) == Found(w)
  {
  }

  lemma FrontSkipped(m: Mem, w: Addr, name: seq<nat>)
    requires HasWord(m, w) && m[w].h.name != name && 0 < m[w].h.prev < w
    ensures Search(m, w, name) == Search(m, m[w].h.prev, name)
  {
  }

  /** The name of declaration k is new. */
  lemma NameNew(k: nat)
    requires k < ALL
    ensures forall n: Name :: Order(n) < k ==> Named(n) != Terminated(Codes(NameAt(k)))
  {
    hide NameAt, Order, Terminated;
    forall n: Name | Order(n) < k ensures Named(n) != Terminated(Codes(NameAt(k))) {
      if Named(n) == Terminated(Codes(NameAt(k))) { NamesApart(Order(n), k); }
    }
  }

  /** The next declaration makes the library word w, at the address L says. */
  lemma KnowsOwn(e: Env, f: Env, L: Lib, k: nat, w: Name)
    requires Knows(e, L, k) && Order(w) == k && IsOwn(w) && Fronted(e, f, L.at(w), Named(w))
      && (e.latest == 0 ==> k == 0)
    ensures Knows(f, L, k + 1)
  {
    hide Named, Search, Keeps, Order, NameAt, Terminated;
    OrderOwn(w);
    NameNew(k);
    assert Named(w) == Terminated(Codes(NameAt(k))) by { NamedAt(w); }
    KnowsFront(e, f, L, k, L.at(w), Named(w));
    FrontFound(f.mem, L.at(w));
    forall n: Name | Order(n) < k + 1 ensures Speaks(f, L, n) {
      if Order(n) == k {
        OrderOwn(n);
        OrderApart(n, w);
      }
    }
  }

  lemma NamedAt(n: Name)
    ensures Named(n) == Terminated(Codes(NameAt(Order(n))))
  {
  }

  /** The next declaration makes a word outside the library. */
  lemma KnowsOutside(e: Env, f: Env, L: Lib, k: nat, w: Addr)
    requires Knows(e, L, k) && k < ALL && Declared(k) == Outside && (e.latest == 0 ==> k == 0)
    requires Fronted(e, f, w, Terminated(Codes(NameAt(k))))
    ensures Knows(f, L, k + 1)
  {
    hide Named, Search, Keeps, Order, NameAt, Terminated, Declared;
    NameNew(k);
    KnowsFront(e, f, L, k, w, Terminated(Codes(NameAt(k))));
    forall n: Name | Order(n) < k + 1 ensures Speaks(f, L, n) {
      NotOutside(n, k);
    }
  }

  lemma NotOutside(n: Name, k: nat)
    requires k < ALL && Declared(k) == Outside
    ensures Order(n) != k
  {
    hide Order, Declared;
    OrderOwn(n);
    if IsOwn(n) { OrderDeclared(n); }
  }

  // What memory holds of the library.

  /** The library words among the first k declarations are in memory, below top. */
  ghost predicate Held(m: Mem, L: Lib, top: Addr, k: nat) {
    forall n: Name :: Order(n) < k ==> Loaded(m, L.(top := top), n)
  }

  /** So are the C string constants. */
  ghost predicate Statics(m: Mem, L: Lib) {
    forall t: Str :: Loaded(m, L, T(t))
  }

  /** What a definition has put into memory is still there when the following ones are done. */
  lemma LoadedKept(m: Mem, n: Mem, L: Lib, top: Addr, w: Name)
    requires Loaded(m, L, w) && Keeps(m, n) && L.top <= top
    ensures Loaded(n, L.(top := top), w)
  {
    hide Code, CodeLen, StrText, Immediate, KonstValue;
    if w.D? { CodeKept(m, n, L, top, m[L.at(w)].h.body, w.d); }
  }

  lemma CodeKept(m: Mem, n: Mem, L: Lib, top: Addr, base: Addr, d: Def)
    requires HasCode(m, L, base, d) && Keeps(m, n)
    ensures HasCode(n, L.(top := top), base, d)
  {
    hide Code, CodeLen;
    forall i | 0 <= i < CodeLen(d) ensures HasCell(n, base + 8 * i, CellOf(L.(top := top), base, Code(d, i))) {
      assert HasCell(m, base + 8 * i, CellOf(L, base, Code(d, i)));
    }
  }

  lemma HeldKept(m: Mem, n: Mem, L: Lib, top: Addr, up: Addr, k: nat)
    requires Held(m, L, top, k) && Keeps(m, n) && top <= up
    ensures Held(n, L, up, k)
  {
    hide Order, Loaded, Keeps;
    forall w: Name | Order(w) < k ensures Loaded(n, L.(top := up), w) {
      LoadedKept(m, n, L.(top := top), up, w);
    }
  }

  lemma StaticsKept(m: Mem, n: Mem, L: Lib)
    requires Statics(m, L) && Keeps(m, n)
    ensures Statics(n, L)
  {
    hide Loaded, Keeps;
    forall t: Str ensures Loaded(n, L, T(t)) {
      LoadedKept(m, n, L, L.top, T(t));
    }
  }

  lemma HeldOwn(m: Mem, L: Lib, top: Addr, k: nat, w: Name)
    requires Held(m, L, top, k) && Order(w) == k < ALL && Loaded(m, L.(top := top), w)
    ensures Held(m, L, top, k + 1)
  {
    hide Order, Loaded;
    forall n: Name | Order(n) < k + 1 ensures Loaded(m, L.(top := top), n) {
      if Order(n) == k {
        OrderOwn(n);
        OrderOwn(w);
        OrderApart(n, w);
      }
    }
  }

  lemma HeldOutside(m: Mem, L: Lib, top: Addr, k: nat)
    requires Held(m, L, top, k) && k < ALL && Declared(k) == Outside
    ensures Held(m, L, top, k + 1)
  {
    hide Order, Loaded, Declared;
    forall n: Name | Order(n) < k + 1 ensures Loaded(m, L.(top := top), n) {
      NotOutside(n, k);
    }
  }

  /** The address map with one more word. */
  function Added(L: Lib, w: Name, a: Addr): Lib {
    var at := L.at;
    Lib(n => if n == w then a else at(n), L.top)
  }

  lemma KnowsAdded(e: Env, L: Lib, k: nat, w: Name, a: Addr)
    requires Knows(e, L, k) && Order(w) >= k
    ensures Knows(e, Added(L, w, a), k)
  {
    hide Order, Named, Search;
    forall n: Name | Order(n) < k ensures Speaks(e, Added(L, w, a), n) {
      assert Speaks(e, L, n);
    }
  }

  lemma HeldAdded(m: Mem, L: Lib, top: Addr, k: nat, w: Name, a: Addr)
    requires Held(m, L, top, k) && Order(w) >= k && k <= ALL && IsOwn(w)
    ensures Held(m, Added(L, w, a), top, k)
  {
    hide Order, Loaded;
    forall n: Name | Order(n) < k ensures Loaded(m, Added(L, w, a).(top := top), n) {
      assert Loaded(m, L.(top := top), n);
      if n.D? { UsesEarlier(n.d); }
      LoadedAdded(m, L.(top := top), n, w, a);
      SameAdded(L, top, w, a);
    }
  }

  lemma SameAdded(L: Lib, top: Addr, w: Name, a: Addr)
    ensures Added(L.(top := top), w, a) == Added(L, w, a).(top := top)
  {
  }

  lemma LoadedAdded(m: Mem, L: Lib, n: Name, w: Name, a: Addr)
    requires Loaded(m, L, n) && n != w && IsOwn(w)
    requires n.D? ==> forall i :: 0 <= i < CodeLen(n.d) && Code(n.d, i).W? ==> Code(n.d, i).n != w
    ensures Loaded(m, Added(L, w, a), n)
  {
    hide Code, CodeLen, StrText, Immediate, KonstValue;
    if n.D? {
      var base := m[L.at(n)].h.body;
      forall i | 0 <= i < CodeLen(n.d) ensures HasCell(m, base + 8 * i, CellOf(Added(L, w, a), base, Code(n.d, i))) {
        assert HasCell(m, base + 8 * i, CellOf(L, base, Code(n.d, i)));
      }
    }
  }

  lemma StaticsAdded(m: Mem, L: Lib, w: Name, a: Addr)
    requires Statics(m, L) && IsOwn(w)
    ensures Statics(m, Added(L, w, a))
  {
    hide Loaded, Code, CodeLen;
    forall t: Str ensures Loaded(m, Added(L, w, a), T(t)) {
      LoadedAdded(m, L, T(t), w, a);
    }
  }

  lemma {:induction false} StackedHeight(marks: Marks, base: Addr, under: Stack)
    ensures Height(Stacked(marks, base, under)) == Pending(marks) + Height(under)
  {
    if marks != NoMarks { StackedHeight(marks.rest, base, under); }
  }

  lemma TwoCells(b: Builder, L: Lib, d: Def, m: Mem, base: Addr, n: nat, marks: Marks, under: Stack, v: nat, w: nat)
    requires Partial(b, L, d, m, base, n, marks, under)
    requires v == CellOf(L, base, Code(d, n)) && w == CellOf(L, base, Code(d, n + 1))
    ensures Partial(b.(env := Comma(Comma(b.env, v), w)), L, d, m, base, n + 2, marks, under)
  {
    hide Code, Partial;
    Grows(b, L, d, m, base, n, marks, under, v);
    Grows(b.(env := Comma(b.env, v)), L, d, m, base, n + 1, marks, under, w);
  }

  lemma PartialBelow(b: Builder, L: Lib, d: Def, m: Mem, base: Addr, n: nat, marks: Marks, under: Stack)
    requires Partial(b, L, d, m, base, n, marks, under)
    ensures Below(b.env.mem, b.env.dp)
  {
    hide Code;
  }

  lemma KnowsTwo(e: Env, L: Lib, k: nat, v: nat, w: nat)
    requires Knows(e, L, k) && Below(e.mem, e.dp)
    ensures Knows(Comma(Comma(e, v), w), L, k)
  {
    hide Knows;
    KnowsComma(e, L, k, v);
    KnowsComma(Comma(e, v), L, k, w);
  }

  lemma IfGrows(b: Builder, L: Lib, d: Def, m: Mem, base: Addr, n: nat, marks: Marks, under: Stack, zbranch: Addr)
    requires Partial(b, L, d, m, base, n, marks, under) && Code(d, n) == W(P(ZBranch)) && zbranch == L.at(P(ZBranch))
    requires Xt(b.env, Codes("ZBRANCH")) == zbranch
    ensures Partial(Build(b, AIf), L, d, m, base, n + 2, Hole(n + 1, marks), under)
  {
    hide Code, Partial, Xt;
    var c := b.(env := Comma(b.env, zbranch));
    Grows(b, L, d, m, base, n, marks, under, zbranch);
    Opens(c, L, d, m, base, n + 1, marks, under);
  }

  lemma BackGrows(b: Builder, L: Lib, d: Def, m: Mem, base: Addr, n: nat, marks: Marks, under: Stack, xt: Addr)
    requires Partial(b, L, d, m, base, n, marks, under) && marks.Target?
    requires xt == CellOf(L, base, Code(d, n)) && Code(d, n + 1) == To(marks.k)
    ensures Partial(CPop(b).(env := Comma(Comma(b.env, xt), CTop(b))), L, d, m, base, n + 2, marks.rest, under)
  {
    hide Code, Partial;
    TargetOnTop(b, L, d, m, base, n, marks, under);
    TwoCells(CPop(b), L, d, m, base, n, marks.rest, under, xt, CTop(b));
  }

  lemma BeginMarks(b: Builder, L: Lib, d: Def, m: Mem, base: Addr, n: nat, marks: Marks, under: Stack)
    requires Partial(b, L, d, m, base, n, marks, under)
    ensures Partial(CPush(b, b.env.dp), L, d, m, base, n, Target(n, marks), under)
  {
    hide Code, CellOf;
    var more := Target(n, marks);
    assert Holes(more) == Holes(marks);
    assert Stacked(more, base, under) == Item(base + 8 * n, Stacked(marks, base, under));
  }

  lemma StackTaken(b: Builder, L: Lib, d: Def, m: Mem, base: Addr, n: nat, marks: Marks, start: Addr)
    requires Partial(b, L, d, m, base, n, marks, Item(start, Empty))
    ensures Height(b.cstk) == Pending(marks) + 1
  {
    hide Code;
    StackedHeight(marks, base, Item(start, Empty));
    assert Height(Item(start, Empty)) == 1;
  }

  lemma NothingLaid(b: Builder, L: Lib, d: Def, under: Stack)
    requires Below(b.env.mem, b.env.dp) && b.cstk == under
    ensures Partial(b, L, d, b.env.mem, b.env.dp, 0, NoMarks, under)
  {
    hide Code;
  }

  /** A definition with nothing pending holds all its code. */
  lemma AllLaid(b: Builder, L: Lib, d: Def, m: Mem, base: Addr, start: Addr)
    requires Partial(b, L, d, m, base, CodeLen(d), NoMarks, Item(start, Empty))
    ensures HasCode(b.env.mem, L, base, d) && b.env.dp == base + 8 * CodeLen(d) && b.cstk == Item(start, Empty)
    ensures forall a :: a < base && a in m ==> a in b.env.mem && b.env.mem[a] == m[a]
  {
    hide Code, CellOf;
  }

  /** ENDW changes the word's header and nothing else in memory. */
  lemma FinishKeeps(b: Builder, L: Lib, d: Def, m: Mem, base: Addr, start: Addr, prev: Addr)
    requires HasCode(b.env.mem, L, base, d) && b.cstk == Item(start, Empty) && HasWord(m, start) && start < base
    requires m[start].h == Header(prev, Named(D(d)), false, Call, 0, base) && Below(b.env.mem, b.env.dp)
    requires forall a :: a < base && a in m ==> a in b.env.mem && b.env.mem[a] == m[a]
    ensures HasWord(b.env.mem, CTop(b))
    ensures var f := Finish(b).env;
      && HasWord(f.mem, start) && f.mem[start].h == Header(prev, Named(D(d)), false, Call, f.mem[start].h.blen, base)
      && HasCode(f.mem, L, base, d) && Below(f.mem, f.dp) && f.latest == start && f.dp == b.env.dp
      && forall a :: a < base && a != start && a in m ==> a in f.mem && f.mem[a] == m[a]
  {
    hide Code, CodeLen, CellOf, Named;
    assert b.env.mem[start] == m[start];
    var f := Finish(b).env;
    forall i | 0 <= i < CodeLen(d) ensures HasCell(f.mem, base + 8 * i, CellOf(L, base, Code(d, i))) {
      assert HasCell(b.env.mem, base + 8 * i, CellOf(L, base, Code(d, i)));
    }
  }

  lemma KeepsTrans(m: Mem, below: Mem, n: Mem, start: Addr)
    requires Keeps(m, below) && Below(m, start)
    requires forall a :: a < start && a in below ==> a in n && n[a] == below[a]
    ensures Keeps(m, n)
  {
  }

  /** Marking the newest word changes no code. */
  lemma CodeMarked(e: Env, L: Lib, d: Def, base: Addr)
    requires HasWord(e.mem, e.latest) && Below(e.mem, e.dp) && HasCode(e.mem, L, base, d)
    ensures var f := e.(mem := e.mem[e.latest := Word(e.mem[e.latest].h.(immediate := true))]);
      Below(f.mem, f.dp) && HasCode(f.mem, L, base, d)
  {
    hide Code, CodeLen, CellOf;
    var f := e.(mem := e.mem[e.latest := Word(e.mem[e.latest].h.(immediate := true))]);
    forall i | 0 <= i < CodeLen(d) ensures HasCell(f.mem, base + 8 * i, CellOf(L, base, Code(d, i))) {
      assert HasCell(e.mem, base + 8 * i, CellOf(L, base, Code(d, i)));
    }
  }

  lemma CodeTop(m: Mem, L: Lib, top: Addr, base: Addr, d: Def)
    requires HasCode(m, L, base, d)
    ensures HasCode(m, L.(top := top), base, d)
  {
    CodeKept(m, m, L, top, base, d);
  }

  /** A word just opened is on top of the compile stack. */
  lemma Opened(b: Builder, name: seq<nat>)
    requires Below(b.env.mem, b.env.dp)
    ensures var c := Open(b, name);
      c.cstk == Item(b.env.dp, b.cstk) && HasWord(c.env.mem, CTop(c)) && c.env.latest == b.env.latest
  {
  }

  /** Opening and describing a word: its body begins behind the description. */
  lemma Described(b: Builder, name: seq<nat>, text: seq<nat>)
    requires Below(b.env.mem, b.env.dp)
    ensures var c := DictionaryIndex.Do(Open(b, name), DictionaryIndex.Describe(text));
      && c.cstk == Item(b.env.dp, b.cstk) && c.env.latest == b.env.latest && b.env.dp < c.env.dp
      && HasWord(c.env.mem, b.env.dp)
      && c.env.mem[b.env.dp].h == Header(b.env.latest, name, false, Call, 0, c.env.dp)
      && Below(c.env.mem, c.env.dp) && Keeps(b.env.mem, c.env.mem)
  {
  }

  /** A word just defined. */
  lemma JustDefined(b: Builder, name: seq<nat>, op: Op)
    requires Below(b.env.mem, b.env.dp)
    ensures var c := DictionaryIndex.Do(b, DictionaryIndex.Define(name, op));
      && c.cstk == Item(b.env.dp, b.cstk) && HasWord(c.env.mem, b.env.dp) && b.env.dp < c.env.dp
      && c.env.mem[b.env.dp].h == Header(b.env.latest, name, false, op, 0, c.env.dp)
      && Below(c.env.mem, c.env.dp) && Keeps(b.env.mem, c.env.mem) && c.env.latest == b.env.latest
  {
  }

  // Words without threaded code.

  /** The word opened when the environment was e is being written, under the given name. */
  ghost predicate InWork(b: Builder, e: Env, name: seq<nat>) {
    && b.cstk == Item(e.dp, Empty) && Below(b.env.mem, b.env.dp) && e.dp < b.env.dp && Below(e.mem, e.dp)
    && HasWord(b.env.mem, e.dp) && b.env.mem[e.dp].h.name == name && b.env.mem[e.dp].h.prev == e.latest
    && b.env.latest == e.latest && Keeps(e.mem, b.env.mem)
  }

  /** n is m with more behind it and perhaps another body address for the word w, if that was end. */
  ghost predicate Onwards(m: Mem, n: Mem, w: Addr, end: Addr) {
    && (forall a :: a in m && a != w ==> a in n && n[a] == m[a])
    && HasWord(m, w) && HasWord(n, w)
    && n[w].h.op == m[w].h.op && n[w].h.immediate == m[w].h.immediate
    && (m[w].h.body < end ==> n[w].h.body == m[w].h.body)
  }

  lemma OnwardsTrans(m: Mem, n: Mem, o: Mem, w: Addr, end: Addr, up: Addr)
    requires Onwards(m, n, w, end) && Onwards(n, o, w, up) && end <= up
    ensures Onwards(m, o, w, end)
  {
  }

  lemma WorkDescribe(b: Builder, e: Env, name: seq<nat>, text: seq<nat>)
    requires InWork(b, e, name)
    ensures var c := DictionaryIndex.Do(b, DictionaryIndex.Describe(text));
      InWork(c, e, name) && Onwards(b.env.mem, c.env.mem, e.dp, b.env.dp) && b.env.dp <= c.env.dp
  {
    NothingAt(e.mem, e.dp);
  }

  lemma WorkAppend(b: Builder, e: Env, name: seq<nat>, v: nat)
    requires InWork(b, e, name)
    ensures var c := b.(env := Comma(b.env, v));
      InWork(c, e, name) && Onwards(b.env.mem, c.env.mem, e.dp, b.env.dp) && b.env.dp <= c.env.dp
  {
    NothingAt(b.env.mem, b.env.dp);
  }

  lemma WorkFinish(b: Builder, e: Env, name: seq<nat>)
    requires InWork(b, e, name) && e.latest < e.dp
    ensures HasWord(b.env.mem, CTop(b))
    ensures var c := Finish(b);
      && c.cstk == Empty && Below(c.env.mem, c.env.dp) && c.env.dp == b.env.dp && Fronted(e, c.env, e.dp, name)
      && Onwards(b.env.mem, c.env.mem, e.dp, b.env.dp)
  {
    NothingAt(e.mem, e.dp);
  }

  /** A word just opened. */
  lemma WorkOpens(b: Builder, name: seq<nat>, op: Op)
    requires Below(b.env.mem, b.env.dp) && b.cstk == Empty
    ensures var c := DictionaryIndex.Do(b, DictionaryIndex.Define(name, op));
      InWork(c, b.env, name) && c.env.mem[b.env.dp].h == Header(b.env.latest, name, false, op, 0, c.env.dp)
  {
    JustDefined(b, name, op);
  }

  /** IMMEDIATE changes no search. */
  lemma MarkedFront(b: Builder, e: Env, name: seq<nat>)
    requires Fronted(e, b.env, e.dp, name) && Below(e.mem, e.dp) && Below(b.env.mem, b.env.dp)
    ensures HasWord(b.env.mem, b.env.latest)
    ensures var c := DictionaryIndex.Do(b, DictionaryIndex.MarkImmediate);
      && Fronted(e, c.env, e.dp, name) && Below(c.env.mem, c.env.dp) && c.env.dp == b.env.dp && c.cstk == b.cstk
      && c.env.mem[e.dp].h.op == b.env.mem[e.dp].h.op && c.env.mem[e.dp].h.immediate
  {
    NothingAt(e.mem, e.dp);
  }

  lemma WorkOnTop(b: Builder, e: Env, name: seq<nat>)
    requires InWork(b, e, name)
    ensures b.cstk.Item? && HasWord(b.env.mem, CTop(b)) && CTop(b) == e.dp && e.dp < b.env.dp
  {
  }

  lemma OpLoaded(e: Env, f: Env, L: Lib, op: Op)
    requires Fronted(e, f, e.dp, Named(P(op))) && L.at(P(op)) == e.dp && RAM <= e.dp < f.dp
    requires f.mem[e.dp].h.op == op && f.mem[e.dp].h.immediate == Immediate(P(op))
    ensures Loaded(f.mem, L.(top := f.dp), P(op))
  {
  }

  lemma OnwardsHeader(m: Mem, n: Mem, w: Addr, end: Addr)
    requires Onwards(m, n, w, end)
    ensures HasWord(m, w) && HasWord(n, w) && n[w].h.op == m[w].h.op && n[w].h.immediate == m[w].h.immediate
  {
  }

  lemma KonstLoaded(e: Env, f: Env, g: Env, L: Lib, c: Konst)
    requires Fronted(e, g, e.dp, Named(K(c))) && L.at(K(c)) == e.dp && RAM <= e.dp < f.dp <= g.dp
    requires Onwards(f.mem, g.mem, e.dp, f.dp) && Konstant(f, e.dp, KonstValue(c))
    ensures Loaded(g.mem, L.(top := g.dp), K(c))
  {
    hide KonstValue;
  }

  /** The word w is a constant of value v, with its value last in memory. */
  predicate Konstant(e: Env, w: Addr, v: nat) {
    && HasWord(e.mem, w) && e.mem[w].h.op == DoConst && !e.mem[w].h.immediate
    && e.mem[w].h.body + 8 == e.dp && e.mem[w].h.body != w && HasCell(e.mem, e.mem[w].h.body, v)
  }

  /** A constant: its value lies in front of the description. */
  lemma WorkConstant(b: Builder, name: seq<nat>, v: nat)
    requires Below(b.env.mem, b.env.dp) && b.cstk == Empty
    ensures var c := DictionaryIndex.Do(DictionaryIndex.Do(b, DictionaryIndex.Define(name, DoConst)),
      DictionaryIndex.Put(v));
      InWork(c, b.env, name) && Konstant(c.env, b.env.dp, v) && b.env.dp < c.env.dp
  {
    var d := DictionaryIndex.Do(b, DictionaryIndex.Define(name, DoConst));
    WorkOpens(b, name, DoConst);
    WorkAppend(d, b.env, name, v);
    WorkOnTop(d, b.env, name);
  }
}
