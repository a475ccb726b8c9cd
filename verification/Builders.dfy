/** The C builders: forth_comma, forth_lit and the control structures that back-patch through the
    compile stack forth_cstk. */
module Builders {
  import opened Words
  import opened Memory
  import opened Opcodes
  import opened Machine

  /** The dictionary and the compile stack. */
  datatype Builder = Builder(env: Env, cstk: Stack)

  /** forth_comma: a cell appended to the dictionary. */
  function Comma(e: Env, v: nat): Env {
    e.(mem := e.mem[e.dp := Cell(v)], dp := e.dp + 8)
  }

  /** The xt that forth_find_comma appends; a missing word is compiled as NULL. */
  function Xt(e: Env, name: seq<nat>): Addr {
    match Search(e.mem, e.latest, name)
    case Found(xt) => xt
    case _ => 0
  }

  function CTop(b: Builder): nat {
    if b.cstk.Empty? then BAD_PATTERN else b.cstk.top
  }

  function CPop(b: Builder): Builder {
    if b.cstk.Empty? then b else b.(cstk := b.cstk.rest)
  }

  function CPush(b: Builder, v: nat): Builder {
    b.(cstk := Item(v, b.cstk))
  }

  /** One builder call. */
  datatype Act = ACell(x: nat) | ALit(n: nat) | AIf | AThen | ABegin | AAgain | AUntil

  function Build(b: Builder, a: Act): Builder {
    match a
    case ACell(x) => b.(env := Comma(b.env, x))
    case ALit(n) => b.(env := Comma(Comma(b.env, Xt(b.env, Codes("LIT"))), n))
    case AIf =>
      var e := Comma(b.env, Xt(b.env, Codes("ZBRANCH")));
      CPush(b, e.dp).(env := Comma(e, 0))
    case AThen => CPop(b).(env := b.env.(mem := b.env.mem[CTop(b) := Cell(b.env.dp)]))
    case ABegin => CPush(b, b.env.dp)
    case AAgain => CPop(b).(env := Comma(Comma(b.env, Xt(b.env, Codes("BRANCH"))), CTop(b)))
    case AUntil => CPop(b).(env := Comma(Comma(b.env, Xt(b.env, Codes("ZBRANCH"))), CTop(b)))
  }

  function BuildAll(b: Builder, acts: seq<Act>): Builder
    decreases |acts|
  {
    if acts == [] then b else BuildAll(Build(b, acts[0]), acts[1..])
  }

  /** Storing anything but over a word header changes no search. */
  lemma {:induction false} SearchKeeps(m: Mem, a: Addr, c: Chunk, w: Addr, name: seq<nat>)
    requires !HasWord(m, a) && !c.Word?
    ensures Search(m[a := c], w, name) == Search(m, w, name)
    decreases w
  {
    if HasWord(m, w) && m[w].h.name != name && 0 != m[w].h.prev < w {
      SearchKeeps(m, a, c, m[w].h.prev, name);
    }
  }

  /** What was there is still there. */
  ghost predicate Keeps(m: Mem, n: Mem) {
    forall a :: a in m ==> a in n && n[a] == m[a]
  }

  lemma {:induction false} SearchKept(m: Mem, n: Mem, w: Addr, name: seq<nat>)
    requires Keeps(m, n) && !Search(m, w, name).Broken?
    ensures Search(n, w, name) == Search(m, w, name)
    decreases w
  {
    if HasWord(m, w) && m[w].h.name != name && 0 != m[w].h.prev < w { SearchKept(m, n, m[w].h.prev, name); }
  }

  /** The words the builders look up are in the dictionary. */
  predicate Finds(e: Env, x: Xts) {
    && Search(e.mem, e.latest, Codes("LIT")) == Found(x.lit)
    && Search(e.mem, e.latest, Codes("BRANCH")) == Found(x.branch)
    && Search(e.mem, e.latest, Codes("ZBRANCH")) == Found(x.zbranch)
  }

  datatype Xts = Xts(lit: Addr, branch: Addr, zbranch: Addr, exit: Addr)

  lemma FindsKeeps(e: Env, x: Xts, a: Addr, c: Chunk, dp: Addr)
    requires Finds(e, x) && !HasWord(e.mem, a) && !c.Word?
    ensures Finds(e.(mem := e.mem[a := c], dp := dp), x)
  {
    SearchKeeps(e.mem, a, c, e.latest, Codes("LIT"));
    SearchKeeps(e.mem, a, c, e.latest, Codes("BRANCH"));
    SearchKeeps(e.mem, a, c, e.latest, Codes("ZBRANCH"));
  }

  /** forth_colon: the new word's header, with its address on the compile stack. */
  function Open(b: Builder, name: seq<nat>): Builder {
    CPush(b, b.env.dp).(env := Created(b.env, name))
  }

  /** forth_semicolon, if there is a word to finish. */
  function Ended(b: Builder): Builder {
    if HasWord(b.env.mem, CTop(b)) then Finish(b) else b
  }

  /** forth_semicolon: the open word gets its length and becomes the newest word. */
  function Finish(b: Builder): Builder
    requires HasWord(b.env.mem, CTop(b))
  {
    var w := CTop(b);
    var h := b.env.mem[w].h;
    CPop(b).(env := b.env.(mem := b.env.mem[w := Word(h.(blen := Wrap(b.env.dp - h.body)))], latest := w))
  }
}
