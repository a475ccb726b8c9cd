/** forth_init: the calls of DFWL, DFWH, CONSTANT, DESC, COMPILE, LIT, IF, THEN, BEGIN, AGAIN, UNTIL, ENDW and
    IMMEDIATE that fill the dictionary, and that what they leave is the library the other proofs are about. */
module Bootstrap {
  import opened Words
  import opened Memory
  import opened Opcodes
  import opened Machine
  import opened Builders
  import opened Library
  import opened Script
  import opened Structure
  import opened WStrings
  import opened Context
  import opened Dictionary
  import opened Laying
  import opened Boot
  import DictionaryIndex
  import Definitions
  import Structured

  /** What a declaration of a word outside the library brings along: its opcode, the cells in front of its
      description and behind it, and whether it is IMMEDIATE. Of a library word it is the description only. */
  datatype Filling = Filling(op: Op, early: seq<nat>, desc: seq<nat>, cells: seq<nat>, immediate: bool)

  class Booter {
    const dict: ForthDictionary
    /** Where the C compiler has put the string constants. */
    const strings: Str -> Addr
    /** The number of declarations carried out. */
    var done: nat
    /** Where the words went. */
    ghost var lib: Lib
    // The definition in progress: the environment before it, its address, its body, the memory below its
    // body, what has been laid.
    ghost var word: Def
    ghost var before: Env
    ghost var start: Addr
    ghost var base: Addr
    ghost var below: Mem
    ghost var n: nat
    ghost var marks: Marks

    ghost predicate Valid()
      reads this, dict
    {
      && dict.Valid() && Below(dict.env.mem, dict.env.dp) && Knows(dict.env, lib, done) && done <= ALL
      && (dict.env.latest == 0 ==> done == 0) && dict.env.latest < dict.env.dp
      && forall t: Str :: lib.at(T(t)) == strings(t)
    }

    /** Between definitions. */
    ghost predicate Between()
      reads this, dict, dict.cstk
    {
      && Valid() && dict.View().cstk == Empty && RAM <= dict.env.dp
      && Held(dict.env.mem, lib, dict.env.dp, done) && Statics(dict.env.mem, lib)
    }

    /** Within the definition of d, with n cells laid. */
    ghost predicate Laying(d: Def, n: nat, marks: Marks)
      reads this, dict, dict.cstk
    {
      && Valid() && this.word == d && this.n == n && this.marks == marks && Order(D(d)) == done
      && Partial(dict.View(), lib, d, below, base, n, marks, Item(start, Empty))
      && HasWord(below, start) && below[start].h == Header(before.latest, Named(D(d)), false, Call, 0, base)
      && start == before.dp == lib.at(D(d)) && RAM <= start < base && dict.env.latest == before.latest
      && Below(before.mem, before.dp) && Keeps(before.mem, below)
      && Knows(before, lib, done) && before.latest < before.dp && (before.latest == 0 ==> done == 0)
      && Held(before.mem, lib, before.dp, done) && Statics(before.mem, lib)
    }

    /** forth_init at its beginning: a dictionary with nothing in it, above the string constants. */
    constructor (dict: ForthDictionary, strings: Str -> Addr)
      requires dict.Valid() && DictionaryIndex.Fresh(dict.View()) && dict.View().cstk == Empty && RAM <= dict.env.dp
      requires forall t :: strings(t) + 2 * |StrText(t)| <= RAM && HasChars(dict.env.mem, strings(t), StrText(t))
      ensures Between() && this.dict == dict && this.strings == strings && done == 0
    {
      this.dict := dict;
      this.strings := strings;
      done := 0;
      lib := Lib((n: Name) => if n.T? then strings(n.t) else 0, 0);
    }

    // The macros of forth.h.

    /** The environment before the definition of d, and the new word's address added to the map. */
    ghost predicate Prepared(d: Def)
      reads this
    {
      && Order(D(d)) == done <= ALL && start == before.dp == lib.at(D(d)) && RAM <= start && word == d && n == 0
      && marks == NoMarks && Below(before.mem, before.dp) && Knows(before, lib, done) && before.latest < before.dp
      && (before.latest == 0 ==> done == 0) && Held(before.mem, lib, before.dp, done) && Statics(before.mem, lib)
      && forall t: Str :: lib.at(T(t)) == strings(t)
    }

    /** DFWH. */
    method Open(d: Def)
      requires Between() && Order(D(d)) == done
      modifies this, dict, dict.cstk
      ensures Prepared(d) && dict.Valid() && dict.View() == Builders.Open(Builder(before, Empty), Named(D(d)))
      ensures before == old(dict.env) && done == old(done) && lib == Added(old(lib), D(d), old(dict.env.dp))
    {
      hide Named, Search, Order, Held, Statics, Knows, NameAt, Builders.Open;
      word, before, start, n, marks := d, dict.env, dict.env.dp, 0, NoMarks;
      KnowsAdded(before, lib, done, D(d), start);
      HeldAdded(before.mem, lib, start, done, D(d), start);
      StaticsAdded(before.mem, lib, D(d), start);
      lib := Added(lib, D(d), start);
      NamedAs(D(d));
      dict.Colon(Codes(Spelling(D(d))) + [0]);
    }

    /** DFWH and DESC. */
    method Start(d: Def, desc: seq<nat>)
      requires Between() && Order(D(d)) == done && 0 in desc
      modifies this, dict, dict.cstk
      ensures Laying(d, 0, NoMarks) && before == old(dict.env) && done == old(done)
      ensures word == d && n == 0 && marks == NoMarks && lib == Added(old(lib), D(d), old(dict.env.dp))
    {
      hide Named, Search, DictionaryIndex.Do, Code, CodeLen, HeaderSize, Partial, Builders.Open, Order, Held, Statics,
        Knows, NameAt, Added, Between;
      Open(d);
      ghost var b := Builder(before, Empty);
      Opened(b, Named(D(d)));
      Described(b, Named(D(d)), Terminated(desc));
      dict.Desc(desc);
      below, base := dict.env.mem, dict.env.dp;
      NothingLaid(dict.View(), lib, d, Item(start, Empty));
      KnowsKept(b.env, dict.env, lib, done);
    }

    method CompileOne(name: Name)
      requires Laying(word, n, marks) && n < CodeLen(word) && Code(word, n) == W(name)
      modifies this`n, dict`env
      ensures Laying(word, n, marks) && n == old(n) + 1
    {
      hide Code, CodeLen, Named, Search, Order, NameAt, Held, Statics, Partial, Knows;
      ghost var b := dict.View();
      NamedAs(name);
      Spoken(b.env, lib, word, n, name);
      dict.FindComma(Codes(Spelling(name)) + [0]);
      Grows(b, lib, word, below, base, n, marks, Item(start, Empty), lib.at(name));
      KnowsComma(b.env, lib, done, lib.at(name));
      PartialBelow(dict.View(), lib, word, below, base, n + 1, marks, Item(start, Empty));
      n := n + 1;
    }

    /** COMPILE. */
    method CompileAll(names: seq<Name>)
      requires Laying(word, n, marks) && n + |names| <= CodeLen(word) && Names(word, n, names)
      modifies this`n, dict`env
      ensures Laying(word, n, marks) && n == old(n) + |names|
    {
      hide Laying, Code, CodeLen;
      var i := 0;
      while i < |names|
        invariant i <= |names| && n == old(n) + i && Laying(word, n, marks)
      {
        assert Code(word, old(n) + i) == W(names[i]);
        CompileOne(names[i]);
        i := i + 1;
      }
    }

    /** LIT, with a number or the address of a string. */
    method PutLiteral(v: Ins)
      requires Laying(word, n, marks) && n + 1 < CodeLen(word) && (v.N? || v.S?)
      requires Code(word, n) == W(P(Op.Lit)) && Code(word, n + 1) == v
      modifies this`n, dict`env
      ensures Laying(word, n, marks) && n == old(n) + 2
    {
      hide Code, CodeLen, Named, Search, Order, NameAt, Held, Statics, Partial, Knows;
      ghost var b := dict.View();
      var val := match v case N(x) => x case S(s) => strings(s) case _ => 0;
      BuilderWords();
      Spoken(b.env, lib, word, n, P(Op.Lit));
      dict.Literal(val);
      TwoCells(b, lib, word, below, base, n, marks, Item(start, Empty), lib.at(P(Op.Lit)), val);
      KnowsTwo(b.env, lib, done, lib.at(P(Op.Lit)), val);
      PartialBelow(dict.View(), lib, word, below, base, n + 2, marks, Item(start, Empty));
      n := n + 2;
    }

    method If()
      requires Laying(word, n, marks) && n + 1 < CodeLen(word) && Code(word, n) == W(P(ZBranch)) && Pending(marks) < 100
      modifies this`n, this`marks, dict, dict.cstk
      ensures Laying(word, n, marks) && n == old(n) + 2 && marks == Hole(old(n) + 1, old(marks))
    {
      hide Code, CodeLen, Named, Search, Order, NameAt, Held, Statics, Partial, Knows;
      ghost var b := dict.View();
      BuilderWords();
      Spoken(b.env, lib, word, n, P(ZBranch));
      StackTaken(b, lib, word, below, base, n, marks, start);
      dict.If();
      IfGrows(b, lib, word, below, base, n, marks, Item(start, Empty), lib.at(P(ZBranch)));
      KnowsTwo(b.env, lib, done, lib.at(P(ZBranch)), 0);
      PartialBelow(dict.View(), lib, word, below, base, n + 2, Hole(n + 1, marks), Item(start, Empty));
      marks := Hole(n + 1, marks);
      n := n + 2;
    }

    method Then()
      requires Laying(word, n, marks) && marks.Hole? && Code(word, marks.k) == To(n)
      modifies this`marks, dict
      ensures Laying(word, n, marks) && marks == old(marks).rest
    {
      hide Code, CodeLen, Named, Search, Order, NameAt, Held, Statics, Partial, Knows;
      ghost var b := dict.View();
      Patches(b, lib, word, below, base, n, marks, Item(start, Empty));
      dict.Then();
      PartialBelow(dict.View(), lib, word, below, base, n, marks.rest, Item(start, Empty));
      KnowsStays(b.env, lib, done, CTop(b), Cell(b.env.dp), b.env.dp);
      marks := marks.rest;
    }

    method Begin()
      requires Laying(word, n, marks) && Pending(marks) < 100
      modifies this`marks, dict, dict.cstk
      ensures Laying(word, n, marks) && marks == Target(n, old(marks))
    {
      hide Code, CodeLen, Named, Search, Order, NameAt, Held, Statics, Partial, Knows;
      ghost var b := dict.View();
      StackTaken(b, lib, word, below, base, n, marks, start);
      dict.Begin();
      BeginMarks(b, lib, word, below, base, n, marks, Item(start, Empty));
      marks := Target(n, marks);
    }

    method Until()
      requires Laying(word, n, marks) && n + 1 < CodeLen(word) && marks.Target?
      requires Code(word, n) == W(P(ZBranch)) && Code(word, n + 1) == To(marks.k)
      modifies this`n, this`marks, dict
      ensures Laying(word, n, marks) && n == old(n) + 2 && marks == old(marks).rest
    {
      hide Code, CodeLen, Named, Search, Order, NameAt, Held, Statics, Partial, Knows;
      ghost var b := dict.View();
      BuilderWords();
      Spoken(b.env, lib, word, n, P(ZBranch));
      dict.Until();
      BackGrows(b, lib, word, below, base, n, marks, Item(start, Empty), lib.at(P(ZBranch)));
      KnowsTwo(b.env, lib, done, lib.at(P(ZBranch)), CTop(b));
      PartialBelow(dict.View(), lib, word, below, base, n + 2, marks.rest, Item(start, Empty));
      marks := marks.rest;
      n := n + 2;
    }

    method Again()
      requires Laying(word, n, marks) && n + 1 < CodeLen(word) && marks.Target?
      requires Code(word, n) == W(P(Branch)) && Code(word, n + 1) == To(marks.k)
      modifies this`n, this`marks, dict
      ensures Laying(word, n, marks) && n == old(n) + 2 && marks == old(marks).rest
    {
      hide Code, CodeLen, Named, Search, Order, NameAt, Held, Statics, Partial, Knows;
      ghost var b := dict.View();
      BuilderWords();
      Spoken(b.env, lib, word, n, P(Branch));
      dict.Again();
      BackGrows(b, lib, word, below, base, n, marks, Item(start, Empty), lib.at(P(Branch)));
      KnowsTwo(b.env, lib, done, lib.at(P(Branch)), CTop(b));
      PartialBelow(dict.View(), lib, word, below, base, n + 2, marks.rest, Item(start, Empty));
      marks := marks.rest;
      n := n + 2;
    }

    /** The macro calls of p, in their order. */
    method Lay(p: Draft)
      requires Laying(word, n, marks) && Spells(word, n, p) && n + Count(p) <= CodeLen(word)
      requires Pending(marks) + Count(p) <= 100
      modifies this`n, this`marks, dict, dict.cstk
      ensures Laying(word, n, marks) && n == old(n) + Count(p) && marks == old(marks)
      decreases p
    {
      hide Laying, Code, CodeLen, Names;
      match p {
        case End =>
        case Compile(ns, r) =>
          CompileAll(ns);
          Lay(r);
        case Literal(v, r) =>
          PutLiteral(v);
          Lay(r);
        case When(q, r) =>
          If();
          Lay(q);
          Then();
          Lay(r);
        case Until(q, r) =>
          Begin();
          Lay(q);
          Until();
          Lay(r);
        case Again(q, r) =>
          Begin();
          Lay(q);
          Again();
          Lay(r);
      }
    }

    /** ENDW has been passed, and perhaps IMMEDIATE, but the word is not yet counted. */
    ghost predicate Closed(d: Def, immediate: bool)
      reads this, dict, dict.cstk
    {
      && dict.Valid() && dict.View().cstk == Empty && Below(dict.env.mem, dict.env.dp)
      && start == before.dp == lib.at(D(d)) && RAM <= start < base && dict.env.latest == start
      && HasWord(dict.env.mem, start)
      && dict.env.mem[start].h == Header(before.latest, Named(D(d)), immediate, Call, dict.env.mem[start].h.blen, base)
      && HasCode(dict.env.mem, lib, base, d) && base + 8 * CodeLen(d) == dict.env.dp && Keeps(before.mem, dict.env.mem)
      && Order(D(d)) == done && Below(before.mem, before.dp) && before.latest < before.dp
      && (before.latest == 0 ==> done == 0) && Knows(before, lib, done)
      && Held(before.mem, lib, before.dp, done) && Statics(before.mem, lib)
      && forall t: Str :: lib.at(T(t)) == strings(t)
    }

    /** ENDW. */
    method Finish(d: Def)
      requires Laying(d, CodeLen(d), NoMarks)
      modifies dict
      ensures Closed(d, false)
    {
      hide Code, CodeLen, Named, Search, Order, NameAt, Held, Statics, Knows;
      ghost var b := dict.View();
      AllLaid(b, lib, d, below, base, start);
      FinishKeeps(b, lib, d, below, base, start, before.latest);
      dict.Semicolon();
      KeepsTrans(before.mem, below, dict.env.mem, start);
    }

    /** IMMEDIATE. */
    method Mark(d: Def)
      requires Closed(d, false)
      modifies dict
      ensures Closed(d, true)
    {
      hide Code, CodeLen, Named, Search, Order, NameAt, Held, Statics, Knows;
      ghost var e := dict.env;
      dict.Immediate();
      CodeMarked(e, lib, d, base);
      NothingAt(before.mem, start);
    }

    /** The word counts among the declarations carried out. */
    method Settle(d: Def)
      requires Closed(d, Immediate(D(d)))
      modifies this`done
      ensures Between() && done == old(done) + 1
    {
      hide Code, CodeLen, Named, Search, Order, NameAt, Held, Statics, Knows, Immediate, Keeps;
      OrderOwn(D(d));
      KnowsOwn(before, dict.env, lib, done, D(d));
      HeldKept(before.mem, dict.env.mem, lib, before.dp, dict.env.dp, done);
      StaticsKept(before.mem, dict.env.mem, lib);
      CodeTop(dict.env.mem, lib, dict.env.dp, base, d);
      HeldOwn(dict.env.mem, lib, dict.env.dp, done, D(d));
      done := done + 1;
    }

    /** A word defined by threaded code, as its source writes it. */
    method Threaded(d: Def, desc: seq<nat>)
      requires Between() && Order(D(d)) == done && 0 in desc
      modifies this, dict, dict.cstk
      ensures Between() && done == old(done) + 1 && lib == Added(old(lib), D(d), old(dict.env.dp))
    {
      hide Between, Laying, Closed, Source, Spells, Count, Code, CodeLen, Immediate, Order, Added;
      SourceSpells(d);
      CodeShort(d);
      Start(d, desc);
      Lay(Source(d));
      Finish(d);
      if Immediate(D(d)) { Mark(d); }
      Settle(d);
    }

    /** DESC, further cells, and ENDW of a word without threaded code that was opened when the environment was e. */
    method Complete(ghost e: Env, ghost name: seq<nat>, desc: seq<nat>, cells: seq<nat>)
      requires dict.Valid() && InWork(dict.View(), e, name) && e.latest < e.dp && 0 in desc
      modifies dict, dict.cstk
      ensures dict.Valid() && dict.View().cstk == Empty && Below(dict.env.mem, dict.env.dp)
      ensures Fronted(e, dict.env, e.dp, name) && old(dict.env.dp) <= dict.env.dp
      ensures Onwards(old(dict.env.mem), dict.env.mem, e.dp, old(dict.env.dp))
    {
      hide DictionaryIndex.Do, InWork, Onwards, Fronted, Builders.Finish;
      ghost var m, end := dict.env.mem, dict.env.dp;
      WorkDescribe(dict.View(), e, name, Terminated(desc));
      WorkOnTop(dict.View(), e, name);
      dict.Desc(desc);
      var i := 0;
      while i < |cells|
        invariant i <= |cells| && dict.Valid() && InWork(dict.View(), e, name) && end <= dict.env.dp
        invariant Onwards(m, dict.env.mem, e.dp, end)
      {
        ghost var b := dict.View();
        WorkAppend(b, e, name, cells[i]);
        dict.Append(cells[i]);
        OnwardsTrans(m, b.env.mem, dict.env.mem, e.dp, end, b.env.dp);
        i := i + 1;
      }
      ghost var b := dict.View();
      WorkFinish(b, e, name);
      dict.Semicolon();
      OnwardsTrans(m, b.env.mem, dict.env.mem, e.dp, end, b.env.dp);
    }

    /** IMMEDIATE, for a word made when the environment was e. */
    method MarkFront(ghost e: Env, ghost name: seq<nat>)
      requires dict.Valid() && dict.View().cstk == Empty && Below(dict.env.mem, dict.env.dp)
      requires Fronted(e, dict.env, e.dp, name) && Below(e.mem, e.dp)
      modifies dict`env
      ensures dict.Valid() && dict.View().cstk == Empty && Below(dict.env.mem, dict.env.dp)
      ensures Fronted(e, dict.env, e.dp, name) && dict.env.dp == old(dict.env.dp)
      ensures dict.env.mem[e.dp].h.op == old(dict.env.mem[e.dp].h.op) && dict.env.mem[e.dp].h.immediate
    {
      hide DictionaryIndex.Do, Fronted, Below;
      MarkedFront(dict.View(), e, name);
      dict.Immediate();
    }

    /** A library word without threaded code is done. */
    method Register(ghost e: Env, w: Name)
      requires dict.Valid() && dict.View().cstk == Empty && Below(dict.env.mem, dict.env.dp)
        && RAM <= e.dp <= dict.env.dp
      requires Fronted(e, dict.env, e.dp, Named(w)) && IsOwn(w) && Order(w) == done && lib.at(w) == e.dp
      requires Knows(e, lib, done) && (e.latest == 0 ==> done == 0) && Held(e.mem, lib, e.dp, done)
        && Statics(e.mem, lib)
      requires Loaded(dict.env.mem, lib.(top := dict.env.dp), w) && e.dp < dict.env.dp
      requires forall t: Str :: lib.at(T(t)) == strings(t)
      modifies this`done
      ensures Between() && done == old(done) + 1
    {
      hide Named, Search, Order, NameAt, Held, Statics, Knows, Keeps, Loaded, IsOwn;
      OrderOwn(w);
      KnowsOwn(e, dict.env, lib, done, w);
      HeldKept(e.mem, dict.env.mem, lib, e.dp, dict.env.dp, done);
      StaticsKept(e.mem, dict.env.mem, lib);
      HeldOwn(dict.env.mem, lib, dict.env.dp, done, w);
      done := done + 1;
    }

    /** The address map gets the word w, which comes next. */
    method Locate(w: Name)
      requires Between() && Order(w) == done && IsOwn(w)
      modifies this`lib
      ensures Between() && lib == Added(old(lib), w, dict.env.dp) && lib.at(w) == dict.env.dp
    {
      hide Named, Search, Order, Held, Statics, Knows, NameAt;
      KnowsAdded(dict.env, lib, done, w, dict.env.dp);
      HeldAdded(dict.env.mem, lib, dict.env.dp, done, w, dict.env.dp);
      StaticsAdded(dict.env.mem, lib, w, dict.env.dp);
      lib := Added(lib, w, dict.env.dp);
    }

    /** DFWL, DESC and ENDW: a word of one opcode. CALL has a compiled EXIT behind its description, [ is
        IMMEDIATE. */
    method Primitive(op: Op, desc: seq<nat>)
      requires Between() && Order(P(op)) == done && !op.Other? && 0 in desc
      modifies this, dict, dict.cstk
      ensures Between() && done == old(done) + 1 && lib == Added(old(lib), P(op), old(dict.env.dp))
    {
      hide Named, Search, DictionaryIndex.Do, HeaderSize, Knows, Held, Statics, Order, NameAt, Keeps, InWork, Onwards,
        Fronted, Added;
      Locate(P(op));
      ghost var e := dict.env;
      NamedAs(P(op));
      WorkOpens(dict.View(), Named(P(op)), op);
      dict.ColonCode(Codes(Spelling(P(op))) + [0], op);
      Body(e, Named(P(op)), op, desc);
      if op.CompOff? { MarkFront(e, Named(P(op))); }
      OpLoaded(e, dict.env, lib, op);
      Register(e, P(op));
    }

    /** What stands between DFWL and IMMEDIATE. */
    method Body(ghost e: Env, ghost name: seq<nat>, op: Op, desc: seq<nat>)
      requires dict.Valid() && InWork(dict.View(), e, name) && e.latest < e.dp && 0 in desc
      requires dict.env.mem[e.dp].h.op == op && !dict.env.mem[e.dp].h.immediate
      modifies dict, dict.cstk
      ensures dict.Valid() && dict.View().cstk == Empty && Below(dict.env.mem, dict.env.dp)
      ensures Fronted(e, dict.env, e.dp, name) && e.dp < dict.env.dp
      ensures dict.env.mem[e.dp].h.op == op && !dict.env.mem[e.dp].h.immediate
    {
      hide DictionaryIndex.Do, InWork, Onwards, Terminated, Search, Keeps;
      ghost var m, end := dict.env.mem, dict.env.dp;
      WorkOnTop(dict.View(), e, name);
      if op.Call? {
        WorkDescribe(dict.View(), e, name, Terminated(desc));
        dict.Desc(desc);
        ghost var b := dict.View();
        dict.FindComma(Codes("EXIT") + [0]);
        WorkAppend(b, e, name, Xt(b.env, Terminated(Codes("EXIT") + [0])));
        OnwardsTrans(m, b.env.mem, dict.env.mem, e.dp, end, b.env.dp);
        ghost var c := dict.env;
        Complete(e, name, [0], []);
        OnwardsTrans(m, c.mem, dict.env.mem, e.dp, end, c.dp);
      } else {
        Complete(e, name, desc, []);
      }
      OnwardsHeader(m, dict.env.mem, e.dp, end);
    }

    /** CONSTANT, DESC and ENDW. */
    method Konstant(c: Konst, desc: seq<nat>)
      requires Between() && Order(K(c)) == done && 0 in desc
      modifies this, dict, dict.cstk
      ensures Between() && done == old(done) + 1 && lib == Added(old(lib), K(c), old(dict.env.dp))
    {
      hide Named, Search, DictionaryIndex.Do, HeaderSize, Knows, Held, Statics, Order, NameAt, Keeps, InWork, Onwards,
        Fronted, Added, KonstValue;
      Locate(K(c));
      ghost var b := dict.View();
      NamedAs(K(c));
      WorkConstant(b, Named(K(c)), KonstValue(c));
      dict.Constant(Codes(Spelling(K(c))) + [0], KonstValue(c));
      ghost var f := dict.env;
      Complete(b.env, Named(K(c)), desc, []);
      KonstLoaded(b.env, f, dict.env, lib, c);
      Register(b.env, K(c));
    }

    /** The declaration of a word outside the library: its name, and whatever comes with it. */
    method Foreign(name: string, f: Filling)
      requires Between() && 0 in f.desc
      modifies this, dict, dict.cstk
      ensures dict.Valid() && dict.View().cstk == Empty && Below(dict.env.mem, dict.env.dp)
      ensures Fronted(old(dict.env), dict.env, old(dict.env.dp), Terminated(Codes(name)))
      ensures old(dict.env.dp) < dict.env.dp && done == old(done) && lib == old(lib)
    {
      hide Named, Search, DictionaryIndex.Do, HeaderSize, Knows, Held, Statics, Order, NameAt, Keeps, InWork, Onwards,
        Fronted;
      ghost var e, text := dict.env, Terminated(Codes(name));
      TerminatedNul(Codes(name));
      WorkOpens(dict.View(), text, f.op);
      dict.ColonCode(Codes(name) + [0], f.op);
      var i := 0;
      while i < |f.early|
        invariant i <= |f.early| && dict.Valid() && InWork(dict.View(), e, text) && e.dp <= dict.env.dp
        invariant done == old(done) && lib == old(lib)
      {
        WorkAppend(dict.View(), e, text, f.early[i]);
        dict.Append(f.early[i]);
        i := i + 1;
      }
      WorkOnTop(dict.View(), e, text);
      Complete(e, text, f.desc, f.cells);
      if f.immediate { MarkFront(e, text); }
    }

    /** A word outside the library comes between the library words. */
    method Skip(f: Filling)
      requires Between() && done < ALL && Declared(done) == Outside && 0 in f.desc
      modifies this, dict, dict.cstk
      ensures Between() && done == old(done) + 1 && lib == old(lib)
    {
      hide Named, Search, Knows, Held, Statics, Order, NameAt, Keeps, Declared;
      ghost var e := dict.env;
      Foreign(NameAt(done), f);
      KnowsOutside(e, dict.env, lib, done, e.dp);
      HeldKept(e.mem, dict.env.mem, lib, e.dp, dict.env.dp, done);
      HeldOutside(dict.env.mem, lib, dict.env.dp, done);
      StaticsKept(e.mem, dict.env.mem, lib);
      done := done + 1;
    }

    /** A word declared after the whole library, under a name of its own. */
    method Extra(name: string, f: Filling)
      requires Between() && done == ALL && 0 in f.desc
      requires forall n: Name :: IsOwn(n) ==> Named(n) != Terminated(Codes(name))
      modifies this, dict, dict.cstk
      ensures Between() && done == ALL && lib == old(lib)
    {
      hide Named, Search, Knows, Held, Statics, Order, NameAt, Keeps, IsOwn;
      ghost var e := dict.env;
      forall n: Name | Order(n) < ALL ensures Named(n) != Terminated(Codes(name)) { OrderOwn(n); }
      Foreign(name, f);
      KnowsFront(e, dict.env, lib, done, e.dp, Terminated(Codes(name)));
      HeldKept(e.mem, dict.env.mem, lib, e.dp, dict.env.dp, done);
      StaticsKept(e.mem, dict.env.mem, lib);
    }

    /** The next declaration of the three functions. */
    method Declare(f: Filling)
      requires Between() && done < ALL && 0 in f.desc
      modifies this, dict, dict.cstk
      ensures Between() && done == old(done) + 1
    {
      hide Between, Declared, Order, IsOwn;
      var next := Declared(done);
      if next.Outside? {
        Skip(f);
      } else {
        DeclaredOrder(done);
        OwnKind(next.n);
        match next.n {
          case P(op) => Primitive(op, f.desc);
          case K(k) => Konstant(k, f.desc);
          case D(d) => Threaded(d, f.desc);
        }
      }
    }

    /** The declarations up to number to, in their order. */
    method Run(to: nat, rest: nat -> Filling)
      requires Between() && done <= to <= ALL && forall i :: 0 in rest(i).desc
      modifies this, dict, dict.cstk
      ensures Between() && done == to
    {
      hide Between;
      while done < to
        invariant Between() && done <= to
      {
        Declare(rest(done));
      }
    }

    method InitCore(rest: nat -> Filling)
      requires Between() && done == 0 && forall i :: 0 in rest(i).desc
      modifies this, dict, dict.cstk
      ensures Between() && done == CORE
    {
      hide Between;
      Run(CORE, rest);
    }

    method InitIo(rest: nat -> Filling)
      requires Between() && done == CORE && forall i :: 0 in rest(i).desc
      modifies this, dict, dict.cstk
      ensures Between() && done == IO
    {
      hide Between;
      Run(IO, rest);
    }

    method InitInterpret(rest: nat -> Filling)
      requires Between() && done == IO && forall i :: 0 in rest(i).desc
      modifies this, dict, dict.cstk
      ensures Between() && done == ALL
    {
      hide Between;
      Run(ALL, rest);
    }

    /** The words of forth_init_gop and forth_init_test, which do not belong to the library. */
    method InitLater(rest: nat -> Filling)
      requires Between() && done == ALL && forall i :: 0 in rest(i).desc
      modifies this, dict, dict.cstk
      ensures Between() && done == ALL && lib == old(lib)
    {
      hide Between, IsOwn, Named, LaterName, NameAt, Order, Terminated;
      var i := 0;
      while i < LATER
        invariant i <= LATER && Between() && done == ALL && lib == old(lib)
      {
        forall n: Name | IsOwn(n) ensures Named(n) != Terminated(Codes(LaterName(i))) {
          LaterApart(n, i);
          SpelledAs(n);
        }
        Extra(LaterName(i), rest(ALL + i));
        i := i + 1;
      }
    }

    /** forth_init_task: the root task with its I/O words looked up, and dictionary space for its word input
        buffer. The keys pressed so far are waiting. */
    method InitTask(ip: Addr, keys: seq<nat>) returns (s: State)
      requires Between() && done == ALL
      modifies dict`env
      ensures s == State(Next, ip, TOS_INIT, Empty, 0, Empty, 0, false, false, dict.env)
      ensures Booted(s.env, lib.(top := old(dict.env.dp))) && s.env.keys == keys && s.env.win == 0
    {
      hide Named, Search, Order, Held, Statics, Knows, NameAt, Structured.Controls, Definitions.BuiltIns, Image;
      ghost var e, L := dict.env, lib.(top := dict.env.dp);
      var wemit := Lookup(P(EarlyWEmit));
      var wkey := Lookup(P(EarlyWKey));
      var dot := Lookup(D(XHEX));
      var wib := dict.env.dp;
      dict.env := dict.env.(comp := false, wemit := wemit, wkey := wkey, dot := dot, done := false,
                            win := 0, wib := wib, dp := wib + NAME_MAXLEN + 1, keys := keys);
      WholeImage(e, lib);
      KnowsTop(e, lib, e.dp, ALL);
      WholeIndex(e, L);
      s := State(Next, ip, TOS_INIT, Empty, 0, Empty, 0, false, false, dict.env);
    }

    /** forth_find, for a word that is known to be there. */
    method Lookup(name: Name) returns (xt: Addr)
      requires Between() && done == ALL && IsOwn(name)
      ensures xt == lib.at(name)
    {
      hide Named, Search, Order, Held, Statics, NameAt;
      OrderOwn(name);
      NamedAs(name);
      assert Speaks(dict.env, lib, name);
      var found := FindWord(dict.env.mem, dict.env.latest, Codes(Spelling(name)) + [0]);
      xt := found.xt;
    }
  }

  /** The string constants of the C program lie below the dictionary RAM, where there is no word yet. */
  ghost predicate StaticData(m: Mem, strings: Str -> Addr) {
    && Below(m, RAM) && (forall a :: a in m ==> !m[a].Word?)
    && forall t :: strings(t) + 2 * |StrText(t)| <= RAM && HasChars(m, strings(t), StrText(t))
  }

  /** forth_init: from the static data of the C program to the root task. */
  method Init(m: Mem, strings: Str -> Addr, rest: nat -> Filling, selftest: Addr, keys: seq<nat>)
    returns (s: State, ghost L: Lib)
    requires StaticData(m, strings) && forall i :: 0 in rest(i).desc
    ensures s == State(Next, selftest, TOS_INIT, Empty, 0, Empty, 0, false, false, s.env)
    ensures Booted(s.env, L) && s.env.keys == keys && s.env.win == 0
  {
    hide Booted, StrText;
    var dict := new ForthDictionary(Env(false, m, RAM, 0, 0, 0, 0, 0, 0, [], [], false));
    var booter := new Booter(dict, strings);
    booter.InitCore(rest);
    booter.InitIo(rest);
    booter.InitInterpret(rest);
    booter.InitLater(rest);
    L := booter.lib.(top := dict.env.dp);
    s := booter.InitTask(selftest, keys);
  }

  lemma OwnKind(n: Name)
    requires IsOwn(n)
    ensures (n.P? && !n.op.Other?) || n.K? || n.D?
  {
  }

  lemma CodeShort(d: Def)
    ensures CodeLen(d) <= 54 && Pending(NoMarks) == 0
  {
  }
}
