/** The dictionary as an index: words defined one after the other, found newest first. */
module DictionaryIndex {
  import opened Words
  import opened Memory
  import opened Opcodes
  import opened Machine
  import opened Builders

  /** What the C initialisation code and Forth programs do to the dictionary. */
  datatype Act =
    | Define(name: seq<nat>, op: Op)
    | Describe(text: seq<nat>)
    | Put(v: nat)
    | Patch(a: Addr, x: nat)
    | Reserve(n: nat)
    | Close
    | MarkImmediate

  /** forth_coloncode, forth_desc, forth_comma, a store into the open body (forth_then), a move of
      FORTH_DP, forth_semicolon, forth_immediate. */
  function Do(b: Builder, a: Act): Builder {
    var e := b.env;
    match a
    case Define(name, op) =>
      CPush(b, e.dp).(env := e.(mem := e.mem[e.dp := Word(NewHeader(e, name).(op := op))],
        dp := e.dp + HeaderSize(name)))
    case Describe(text) =>
      if text == [] || !HasWord(e.mem, CTop(b)) || e.mem[CTop(b)].h.blen != 0 then b
      else
        var h := e.mem[CTop(b)].h;
        var dp := e.dp + 2 + 2 * |text|;
        var body := if h.body == e.dp then dp else h.body;
        b.(env := e.(mem := e.mem[CTop(b) := Word(h.(body := body))][e.dp := Text(text)], dp := dp))
    case Put(v) => b.(env := Comma(e, v))
    case Patch(a, x) => b.(env := e.(mem := e.mem[a := Cell(x)]))
    case Reserve(n) => b.(env := e.(dp := e.dp + n))
    case Close => if HasWord(e.mem, CTop(b)) then Finish(b) else b
    case MarkImmediate =>
      if HasWord(e.mem, e.latest) then
        b.(env := e.(mem := e.mem[e.latest := Word(e.mem[e.latest].h.(immediate := true))]))
      else b
  }

  /** A word: its name and the bytes it takes, from its struct to where FORTH_DP stood when it was closed. */
  datatype Entry = Entry(name: seq<nat>, at: Addr, end: Addr)

  /** The closed words, newest first, and the word being defined, if any. */
  datatype Log = Log(words: seq<Entry>, open: seq<Entry>)

  function Note(b: Builder, l: Log, a: Act): Log {
    match a
    case Define(name, _) => l.(open := [Entry(name, b.env.dp, b.env.dp)])
    case Close => if l.open == [] then l else Log([l.open[0].(end := b.env.dp)] + l.words, [])
    case _ => l
  }

  /** One definition at a time: a word is opened only after the one before it was closed, and only an
      open word is described, patched or closed. */
  predicate Orderly(b: Builder, l: Log, a: Act) {
    match a
    case Define(_, _) => l.open == []
    case Describe(_) => l.open != []
    case Patch(a, _) => l.open != [] && l.open[0].at <= a && a in b.env.mem && b.env.mem[a].Cell?
    case Close => l.open != []
    case MarkImmediate => l.words != []
    case _ => true
  }

  /** The first address that belongs to no closed word. */
  function Top(b: Builder, l: Log): Addr {
    if l.open == [] then b.env.dp else l.open[0].at
  }

  /** Where the next older word is, or NULL. */
  function Older(ws: seq<Entry>, i: nat): Addr
    requires i < |ws|
  {
    if i + 1 < |ws| then ws[i + 1].at else 0
  }

  ghost predicate Listed(m: Mem, ws: seq<Entry>, i: nat)
    requires i < |ws|
  {
    && 0 < ws[i].at < ws[i].end && HasWord(m, ws[i].at)
    && m[ws[i].at].h.name == ws[i].name && m[ws[i].at].h.prev == Older(ws, i)
    && (i + 1 < |ws| ==> ws[i + 1].end <= ws[i].at)
  }

  ghost predicate Indexed(b: Builder, l: Log) {
    && 0 < b.env.dp && Below(b.env.mem, b.env.dp)
    && b.env.latest == (if l.words == [] then 0 else l.words[0].at)
    && (forall i :: 0 <= i < |l.words| ==> Listed(b.env.mem, l.words, i))
    && (l.words != [] ==> l.words[0].end <= Top(b, l))
    && |l.open| <= 1
    && (l.open != [] ==>
          && CTop(b) == l.open[0].at && 0 < l.open[0].at < b.env.dp
          && HasWord(b.env.mem, l.open[0].at)
          && b.env.mem[l.open[0].at].h.name == l.open[0].name && b.env.mem[l.open[0].at].h.prev == b.env.latest)
  }

  /** Closed words lie below everything newer. */
  lemma {:induction false} ListedBelow(m: Mem, ws: seq<Entry>, i: nat)
    requires i < |ws| && forall k :: 0 <= k < |ws| ==> Listed(m, ws, k)
    ensures ws[i].end <= ws[0].end && ws[i].at <= ws[0].at
    decreases i
  {
    if i > 0 {
      ListedBelow(m, ws, i - 1);
      assert Listed(m, ws, i - 1) && Listed(m, ws, i);
    }
  }

  /** A store at or above the top of the closed words leaves them listed. */
  lemma ListedStays(m: Mem, n: Mem, ws: seq<Entry>, top: Addr)
    requires forall k :: 0 <= k < |ws| ==> Listed(m, ws, k)
    requires ws != [] ==> ws[0].end <= top
    requires forall a :: a in m && a < top ==> a in n && n[a] == m[a]
    ensures forall k :: 0 <= k < |ws| ==> Listed(n, ws, k)
  {
    forall k | 0 <= k < |ws| ensures Listed(n, ws, k) {
      ListedBelow(m, ws, k);
      assert Listed(m, ws, k);
    }
  }

  lemma DefineKeeps(b: Builder, l: Log, name: seq<nat>, op: Op)
    requires Indexed(b, l) && l.open == []
    ensures Indexed(Do(b, Define(name, op)), Note(b, l, Define(name, op)))
  {
    var c := Do(b, Define(name, op));
    ListedStays(b.env.mem, c.env.mem, l.words, b.env.dp);
  }

  lemma DescribeKeeps(b: Builder, l: Log, text: seq<nat>)
    requires Indexed(b, l) && l.open != []
    ensures Indexed(Do(b, Describe(text)), l)
  {
    var c := Do(b, Describe(text));
    ListedStays(b.env.mem, c.env.mem, l.words, l.open[0].at);
  }

  lemma StoreKeeps(b: Builder, l: Log, a: Addr, v: nat, dp: Addr)
    requires Indexed(b, l) && Top(b, l) <= a && !HasWord(b.env.mem, a) && b.env.dp <= dp
    requires a + 8 <= dp
    ensures Indexed(b.(env := b.env.(mem := b.env.mem[a := Cell(v)], dp := dp)), l)
  {
    var c := b.(env := b.env.(mem := b.env.mem[a := Cell(v)], dp := dp));
    ListedStays(b.env.mem, c.env.mem, l.words, Top(b, l));
  }

  lemma ReserveKeeps(b: Builder, l: Log, n: nat)
    requires Indexed(b, l)
    ensures Indexed(Do(b, Reserve(n)), l)
  {
    ListedStays(b.env.mem, b.env.mem, l.words, Top(b, l));
  }

  lemma CloseKeeps(b: Builder, l: Log)
    requires Indexed(b, l) && l.open != []
    ensures Indexed(Do(b, Close), Note(b, l, Close))
  {
    var c, k := Do(b, Close), Note(b, l, Close);
    var w := l.open[0].at;
    assert c == Finish(b) && k.words[1..] == l.words;
    ListedStays(b.env.mem, c.env.mem, l.words, w);
    forall i | 0 <= i < |k.words| ensures Listed(c.env.mem, k.words, i) {
      if i > 0 { assert Listed(c.env.mem, l.words, i - 1); }
    }
  }

  lemma MarkKeeps(b: Builder, l: Log)
    requires Indexed(b, l) && l.words != []
    ensures Indexed(Do(b, MarkImmediate), l)
  {
    assert Listed(b.env.mem, l.words, 0);
    var c := Do(b, MarkImmediate);
    forall i | 0 <= i < |l.words| ensures Listed(c.env.mem, l.words, i) {
      assert Listed(b.env.mem, l.words, i);
    }
  }

  /** Every action keeps the index. */
  lemma KeepsOne(b: Builder, l: Log, a: Act)
    requires Indexed(b, l) && Orderly(b, l, a)
    ensures Indexed(Do(b, a), Note(b, l, a))
  {
    hide Indexed;
    match a {
      case Define(name, op) => DefineKeeps(b, l, name, op);
      case Describe(text) => DescribeKeeps(b, l, text);
      case Put(v) => PutKeeps(b, l, v);
      case Patch(at, x) => PatchKeeps(b, l, at, x);
      case Reserve(n) => ReserveKeeps(b, l, n);
      case Close => CloseKeeps(b, l);
      case MarkImmediate => MarkKeeps(b, l);
    }
  }

  lemma PutKeeps(b: Builder, l: Log, v: nat)
    requires Indexed(b, l)
    ensures Indexed(Do(b, Put(v)), l)
  {
    StoreKeeps(b, l, b.env.dp, v, b.env.dp + 8);
  }

  lemma PatchKeeps(b: Builder, l: Log, a: Addr, x: nat)
    requires Indexed(b, l) && Orderly(b, l, Patch(a, x))
    ensures Indexed(Do(b, Patch(a, x)), l)
  {
    StoreKeeps(b, l, a, x, b.env.dp);
  }

  // Runs.

  function DoAll(b: Builder, acts: seq<Act>): Builder
    decreases |acts|
  {
    if acts == [] then b else DoAll(Do(b, acts[0]), acts[1..])
  }

  function NoteAll(b: Builder, l: Log, acts: seq<Act>): Log
    decreases |acts|
  {
    if acts == [] then l else NoteAll(Do(b, acts[0]), Note(b, l, acts[0]), acts[1..])
  }

  predicate AllOrderly(b: Builder, l: Log, acts: seq<Act>)
    decreases |acts|
  {
    acts == [] || (Orderly(b, l, acts[0]) && AllOrderly(Do(b, acts[0]), Note(b, l, acts[0]), acts[1..]))
  }

  lemma {:induction false} KeepsAll(b: Builder, l: Log, acts: seq<Act>)
    requires Indexed(b, l) && AllOrderly(b, l, acts)
    ensures Indexed(DoAll(b, acts), NoteAll(b, l, acts))
    decreases |acts|
  {
    hide Indexed, Orderly, Do, Note;
    if acts != [] {
      KeepsOne(b, l, acts[0]);
      KeepsAll(Do(b, acts[0]), Note(b, l, acts[0]), acts[1..]);
    }
  }

  /** The newest closed word of that name. */
  function Newest(ws: seq<Entry>, name: seq<nat>): Lookup {
    if ws == [] then Absent else if ws[0].name == name then Found(ws[0].at) else Newest(ws[1..], name)
  }

  lemma {:induction false} SearchFrom(m: Mem, ws: seq<Entry>, name: seq<nat>, i: nat)
    requires i < |ws| && forall k :: 0 <= k < |ws| ==> Listed(m, ws, k)
    ensures Search(m, ws[i].at, name) == Newest(ws[i..], name)
    decreases |ws| - i
  {
    assert Listed(m, ws, i);
    assert ws[i..][1..] == ws[i + 1..];
    if i + 1 < |ws| {
      assert Listed(m, ws, i + 1);
      SearchFrom(m, ws, name, i + 1);
    }
  }

  /** A dictionary with nothing in it yet, as forth_init sets it up. */
  predicate Fresh(b: Builder) {
    Below(b.env.mem, b.env.dp) && b.env.latest == 0 && 0 < b.env.dp
  }

  /** forth_find is right after any run of one-at-a-time definitions: it returns the newest closed word of
      the name, or NULL; the word being defined is not among those it sees. */
  lemma FindsNewest(b: Builder, acts: seq<Act>, name: seq<nat>)
    requires Fresh(b) && AllOrderly(b, Log([], []), acts)
    ensures var c := DoAll(b, acts);
      var l := NoteAll(b, Log([], []), acts);
      l.words != [] ==> Search(c.env.mem, c.env.latest, name) == Newest(l.words, name)
  {
    KeepsAll(b, Log([], []), acts);
    var c, l := DoAll(b, acts), NoteAll(b, Log([], []), acts);
    if l.words != [] {
      SearchFrom(c.env.mem, l.words, name, 0);
      assert l.words[0..] == l.words;
    }
  }

  /** No two words share a byte, and the prev links go strictly down. */
  lemma Disjoint(b: Builder, acts: seq<Act>, i: nat, k: nat)
    requires Fresh(b) && AllOrderly(b, Log([], []), acts)
    requires i < k < |NoteAll(b, Log([], []), acts).words|
    ensures var ws := NoteAll(b, Log([], []), acts).words;
      ws[k].at < ws[k].end <= ws[i].at < ws[i].end <= DoAll(b, acts).env.dp
    ensures var ws, m := NoteAll(b, Log([], []), acts).words, DoAll(b, acts).env.mem;
      HasWord(m, ws[i].at) && m[ws[i].at].h.prev == ws[i + 1].at < ws[i].at
  {
    KeepsAll(b, Log([], []), acts);
    var c, l := DoAll(b, acts), NoteAll(b, Log([], []), acts);
    BelowNewer(c.env.mem, l.words, i, k);
    ListedBelow(c.env.mem, l.words, i);
    assert Listed(c.env.mem, l.words, i) && Listed(c.env.mem, l.words, k) && Listed(c.env.mem, l.words, i + 1);
  }

  lemma {:induction false} BelowNewer(m: Mem, ws: seq<Entry>, i: nat, k: nat)
    requires i < k < |ws| && forall j :: 0 <= j < |ws| ==> Listed(m, ws, j)
    ensures ws[k].end <= ws[i].at
    decreases k
  {
    assert Listed(m, ws, k - 1) && Listed(m, ws, k);
    if i < k - 1 { BelowNewer(m, ws, i, k - 1); }
  }

  /** What closed words hold is not disturbed by later actions, except for the flag that IMMEDIATE() sets
      on the newest one. */
  lemma ClosedIntact(b: Builder, l: Log, a: Act, at: Addr)
    requires Indexed(b, l) && Orderly(b, l, a) && at in b.env.mem && at < Top(b, l)
    ensures at in Do(b, a).env.mem
    ensures a != MarkImmediate || at != b.env.latest ==> Do(b, a).env.mem[at] == b.env.mem[at]
    ensures Unmarked(Do(b, a).env.mem[at]) == Unmarked(b.env.mem[at])
    ensures Top(b, l) <= Top(Do(b, a), Note(b, l, a))
  {
  }

  /** An object without the flag. */
  function Unmarked(c: Chunk): Chunk {
    match c
    case Word(h) => Word(h.(immediate := false))
    case _ => c
  }

  /** The same over every run. */
  lemma {:induction false} ClosedIntactAll(b: Builder, l: Log, acts: seq<Act>, at: Addr)
    requires Indexed(b, l) && AllOrderly(b, l, acts) && at in b.env.mem && at < Top(b, l)
    ensures at in DoAll(b, acts).env.mem && Unmarked(DoAll(b, acts).env.mem[at]) == Unmarked(b.env.mem[at])
    decreases |acts|
  {
    hide Indexed, Orderly, Do, Note, Top;
    if acts != [] {
      ClosedIntact(b, l, acts[0], at);
      KeepsOne(b, l, acts[0]);
      ClosedIntactAll(Do(b, acts[0]), Note(b, l, acts[0]), acts[1..], at);
    }
  }

  // Definitions inside each other.

  /** The address of the newest closed word, or NULL. */
  function Front(ws: seq<Entry>): Addr {
    if ws == [] then 0 else ws[0].at
  }

  predicate Holds(m: Mem, w: Addr, name: seq<nat>, prev: Addr) {
    HasWord(m, w) && m[w].h.name == name && m[w].h.prev == prev
  }

  /** The closed words ws, and above them the word w, still to be closed. */
  ghost predicate Under(b: Builder, ws: seq<Entry>, w: Addr, name: seq<nat>) {
    && 0 < w < b.env.dp && Below(b.env.mem, b.env.dp)
    && (forall i :: 0 <= i < |ws| ==> Listed(b.env.mem, ws, i)) && (ws != [] ==> ws[0].end <= w)
    && Holds(b.env.mem, w, name, Front(ws))
  }

  /** What may happen to an open word w: cells and space are added, cells above w are patched, the innermost
      open word is described. */
  predicate Quiet(b: Builder, w: Addr, a: Act) {
    match a
    case Put(_) | Reserve(_) => true
    case Patch(at, _) => w <= at && at in b.env.mem && b.env.mem[at].Cell?
    case Describe(_) => b.cstk.Item? && w <= b.cstk.top
    case _ => false
  }

  predicate AllQuiet(b: Builder, w: Addr, acts: seq<Act>)
    decreases |acts|
  {
    acts == [] || (Quiet(b, w, acts[0]) && AllQuiet(Do(b, acts[0]), w, acts[1..]))
  }

  /** Every word is still there, with its name and its link. */
  ghost predicate SameWords(m: Mem, n: Mem) {
    forall v :: HasWord(m, v) ==> Holds(n, v, m[v].h.name, m[v].h.prev)
  }

  lemma QuietKeeps(b: Builder, ws: seq<Entry>, w: Addr, name: seq<nat>, a: Act)
    requires Under(b, ws, w, name) && Quiet(b, w, a)
    ensures var c := Do(b, a);
      Under(c, ws, w, name) && c.cstk == b.cstk && c.env.latest == b.env.latest && SameWords(b.env.mem, c.env.mem)
  {
    match a {
      case Describe(text) => QuietDescribe(b, ws, w, name, text);
      case Patch(at, x) => QuietPatch(b, ws, w, name, at, x);
      case _ => QuietAppend(b, ws, w, name, a);
    }
  }

  lemma QuietDescribe(b: Builder, ws: seq<Entry>, w: Addr, name: seq<nat>, text: seq<nat>)
    requires Under(b, ws, w, name) && Quiet(b, w, Describe(text))
    ensures var c := Do(b, Describe(text));
      Under(c, ws, w, name) && c.cstk == b.cstk && c.env.latest == b.env.latest && SameWords(b.env.mem, c.env.mem)
  {
    ListedStays(b.env.mem, Do(b, Describe(text)).env.mem, ws, w);
  }

  lemma QuietPatch(b: Builder, ws: seq<Entry>, w: Addr, name: seq<nat>, at: Addr, x: nat)
    requires Under(b, ws, w, name) && Quiet(b, w, Patch(at, x))
    ensures var c := Do(b, Patch(at, x));
      Under(c, ws, w, name) && c.cstk == b.cstk && c.env.latest == b.env.latest && SameWords(b.env.mem, c.env.mem)
  {
    ListedStays(b.env.mem, Do(b, Patch(at, x)).env.mem, ws, w);
  }

  lemma QuietAppend(b: Builder, ws: seq<Entry>, w: Addr, name: seq<nat>, a: Act)
    requires Under(b, ws, w, name) && (a.Put? || a.Reserve?)
    ensures var c := Do(b, a);
      Under(c, ws, w, name) && c.cstk == b.cstk && c.env.latest == b.env.latest && SameWords(b.env.mem, c.env.mem)
  {
    ListedStays(b.env.mem, Do(b, a).env.mem, ws, w);
  }

  lemma {:induction false} QuietKeepsAll(b: Builder, ws: seq<Entry>, w: Addr, name: seq<nat>, acts: seq<Act>)
    requires Under(b, ws, w, name) && AllQuiet(b, w, acts)
    ensures var c := DoAll(b, acts);
      Under(c, ws, w, name) && c.cstk == b.cstk && c.env.latest == b.env.latest && SameWords(b.env.mem, c.env.mem)
    decreases |acts|
  {
    hide Under, Quiet, Do;
    if acts != [] {
      QuietKeeps(b, ws, w, name, acts[0]);
      QuietKeepsAll(Do(b, acts[0]), ws, w, name, acts[1..]);
    }
  }

  lemma UnderDefine(b: Builder, ws: seq<Entry>, w: Addr, name: seq<nat>, inner: seq<nat>, op: Op)
    requires Under(b, ws, w, name)
    ensures var c := Do(b, Define(inner, op));
      && Under(c, ws, w, name) && c.cstk == Item(b.env.dp, b.cstk) && c.env.latest == b.env.latest
      && Holds(c.env.mem, b.env.dp, inner, b.env.latest)
  {
    var c := Do(b, Define(inner, op));
    ListedStays(b.env.mem, c.env.mem, ws, w);
  }

  lemma UnderClose(b: Builder, ws: seq<Entry>, w: Addr, name: seq<nat>, v: Addr, k: Stack)
    requires Under(b, ws, w, name) && b.cstk == Item(v, k) && HasWord(b.env.mem, v) && w <= v
    ensures var c := Do(b, Close);
      && Under(c, ws, w, name) && c.cstk == k && c.env.latest == v && SameWords(b.env.mem, c.env.mem)
      && c.env.dp == b.env.dp
  {
    var c := Do(b, Close);
    ListedStays(b.env.mem, c.env.mem, ws, w);
  }

  lemma UnderOpens(b: Builder, l: Log, name: seq<nat>, op: Op)
    requires Indexed(b, l) && l.open == []
    ensures var c := Do(b, Define(name, op));
      Under(c, l.words, b.env.dp, name) && c.cstk == Item(b.env.dp, b.cstk) && c.env.latest == Front(l.words)
  {
    var c := Do(b, Define(name, op));
    ListedStays(b.env.mem, c.env.mem, l.words, b.env.dp);
  }

  /** The calls of a definition with another one inside. */
  function Nested(outer: Act, before: seq<Act>, inner: Act, within: seq<Act>, after: seq<Act>): seq<Act> {
    [outer] + (before + ([inner] + (within + ([Close] + (after + [Close])))))
  }

  lemma {:induction false} DoJoin(b: Builder, p: seq<Act>, q: seq<Act>)
    ensures DoAll(b, p + q) == DoAll(DoAll(b, p), q)
    decreases |p|
  {
    hide Do;
    if p == [] {
      assert p + q == q;
    } else {
      assert (p + q)[1..] == p[1..] + q;
      DoJoin(Do(b, p[0]), p[1..], q);
    }
  }

  lemma DoOne(b: Builder, a: Act)
    ensures DoAll(b, [a]) == Do(b, a)
  {
    hide Do;
    assert [a][1..] == [];
    assert DoAll(Do(b, a), []) == Do(b, a);
  }

  lemma NestedRuns(b: Builder, outer: Act, before: seq<Act>, inner: Act, within: seq<Act>, after: seq<Act>)
    ensures var b1 := DoAll(Do(b, outer), before);
      var b2 := DoAll(Do(b1, inner), within);
      DoAll(b, Nested(outer, before, inner, within, after)) == Do(DoAll(Do(b2, Close), after), Close)
  {
    hide Do, DoAll;
    var q4 := after + [Close];
    var q3 := within + ([Close] + q4);
    var q2 := before + ([inner] + q3);
    var b1 := DoAll(Do(b, outer), before);
    var b2 := DoAll(Do(b1, inner), within);
    DoJoin(b, [outer], q2);
    DoOne(b, outer);
    DoJoin(Do(b, outer), before, [inner] + q3);
    DoJoin(b1, [inner], q3);
    DoOne(b1, inner);
    DoJoin(Do(b1, inner), within, [Close] + q4);
    DoJoin(b2, [Close], q4);
    DoOne(b2, Close);
    DoJoin(Do(b2, Close), after, [Close]);
    DoOne(DoAll(Do(b2, Close), after), Close);
  }

  /** Definitions inside each other lose the inner word. It was created while the outer one was open, so both got
      the same prev link. Whatever cells, space, patches and descriptions go into the two words before, between
      and after: once both are closed, the inner word is still in memory, but the dictionary is the index of the
      older words and the outer one, so that no search returns the inner word. */
  lemma InnerLost(b: Builder, l: Log, outer: seq<nat>, p: Op, before: seq<Act>, inner: seq<nat>, q: Op,
                  within: seq<Act>, after: seq<Act>)
    requires Indexed(b, l) && l.open == []
    requires AllQuiet(Do(b, Define(outer, p)), b.env.dp, before)
    requires var b1 := DoAll(Do(b, Define(outer, p)), before);
      && AllQuiet(Do(b1, Define(inner, q)), b.env.dp, within)
      && AllQuiet(Do(DoAll(Do(b1, Define(inner, q)), within), Close), b.env.dp, after)
    ensures var c := DoAll(b, Nested(Define(outer, p), before, Define(inner, q), within, after));
      var v := DoAll(Do(b, Define(outer, p)), before).env.dp;
      var ws := [Entry(outer, b.env.dp, c.env.dp)] + l.words;
      && Indexed(c, Log(ws, [])) && HasWord(c.env.mem, v) && c.env.mem[v].h.name == inner
      && forall name :: Search(c.env.mem, c.env.latest, name) == Newest(ws, name) != Found(v)
  {
    hide Indexed, Under, AllQuiet, Do, DoAll;
    var w, ws := b.env.dp, l.words;
    var b0 := Do(b, Define(outer, p));
    UnderOpens(b, l, outer, p);
    QuietKeepsAll(b0, ws, w, outer, before);
    var b1 := DoAll(b0, before);
    var v := b1.env.dp;
    UnderDefine(b1, ws, w, outer, inner, q);
    UnderLow(b1, ws, w, outer);
    var b2 := Do(b1, Define(inner, q));
    QuietKeepsAll(b2, ws, w, outer, within);
    var b3 := DoAll(b2, within);
    UnderClose(b3, ws, w, outer, v, Item(w, b.cstk));
    var b4 := Do(b3, Close);
    QuietKeepsAll(b4, ws, w, outer, after);
    var b5 := DoAll(b4, after);
    UnderLow(b5, ws, w, outer);
    UnderClose(b5, ws, w, outer, w, b.cstk);
    var b6 := Do(b5, Close);
    NestedRuns(b, Define(outer, p), before, Define(inner, q), within, after);
    UnderIndexed(b6, ws, w, outer);
    Unlisted(b6, ws, w, outer, v);
  }

  lemma UnderLow(b: Builder, ws: seq<Entry>, w: Addr, name: seq<nat>)
    requires Under(b, ws, w, name)
    ensures w < b.env.dp && HasWord(b.env.mem, w)
  {
  }

  lemma UnderIndexed(b: Builder, ws: seq<Entry>, w: Addr, name: seq<nat>)
    requires Under(b, ws, w, name) && b.env.latest == w
    ensures Indexed(b, Log([Entry(name, w, b.env.dp)] + ws, []))
  {
    var vs := [Entry(name, w, b.env.dp)] + ws;
    assert vs[1..] == ws;
    forall i | 0 <= i < |vs| ensures Listed(b.env.mem, vs, i) {
      if i > 0 { assert Listed(b.env.mem, ws, i - 1); }
    }
  }

  /** A word above w is on no list of the words up to w. */
  lemma Unlisted(b: Builder, ws: seq<Entry>, w: Addr, name: seq<nat>, v: Addr)
    requires Under(b, ws, w, name) && b.env.latest == w < v
    requires Indexed(b, Log([Entry(name, w, b.env.dp)] + ws, []))
    ensures var vs := [Entry(name, w, b.env.dp)] + ws;
      forall text :: Search(b.env.mem, w, text) == Newest(vs, text) != Found(v)
  {
    var vs := [Entry(name, w, b.env.dp)] + ws;
    forall text ensures Search(b.env.mem, w, text) == Newest(vs, text) != Found(v) {
      SearchFrom(b.env.mem, vs, text, 0);
      assert vs[0..] == vs;
      NewestLow(b.env.mem, vs, text, w);
    }
  }

  lemma {:induction false} NewestLow(m: Mem, ws: seq<Entry>, name: seq<nat>, top: Addr)
    requires forall k :: 0 <= k < |ws| ==> Listed(m, ws, k)
    requires ws != [] ==> ws[0].at <= top
    ensures Newest(ws, name).Found? ==> Newest(ws, name).xt <= top
    decreases |ws|
  {
    if ws != [] && ws[0].name != name {
      forall k | 0 <= k < |ws[1..]| ensures Listed(m, ws[1..], k) {
        assert Listed(m, ws, k + 1);
      }
      if |ws| > 1 { assert Listed(m, ws, 0) && Listed(m, ws, 1); }
      NewestLow(m, ws[1..], name, top);
    }
  }
}
