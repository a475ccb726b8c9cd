/** What forth_init leaves for the programs that are typed later. */
module Boot {
  import opened Words
  import opened Memory
  import opened Opcodes
  import opened Machine
  import opened Builders
  import opened Library
  import opened Script
  import opened Laying
  import opened IoWords
  import opened DictWords
  import opened Tokeniser
  import opened Prompt
  import opened Sessions
  import opened Definitions
  import opened Vocabulary
  import opened Carry
  import Interpret
  import Stepping
  import Structured

  /** The machine after forth_init: the whole library lies in memory and can be found, the console words are set,
      the word input buffer is the last thing in the dictionary. */
  ghost predicate Booted(e: Env, L: Lib) {
    && Image(e.mem, L) && DefaultIo(e, L) && !e.comp && Below(e.mem, e.wib) && RAM <= e.wib && L.top <= e.wib
    && e.dp == e.wib + 2 * WIB_CHARS
    && BuiltIns(e.mem, e.latest, L) && Structured.Controls(e.mem, e.latest, L) && Finds(e, XtsOf(L))
    && forall n: Name :: IsOwn(n) ==> Speaks(e, L, n)
  }

  lemma SpelledAs(n: Name)
    ensures Named(n) == Terminated(Codes(Spelling(n)))
  {
  }

  /** All the declarations make the whole image. */
  lemma WholeImage(e: Env, L: Lib)
    requires Held(e.mem, L, e.dp, ALL) && Statics(e.mem, L)
    ensures Image(e.mem, L.(top := e.dp))
  {
    hide Order, Loaded, IsOwn, Code, CodeLen;
    forall n: Name | !(n.P? && n.op.Other?) ensures Loaded(e.mem, L.(top := e.dp), n) {
      OrderOwn(n);
      if n.T? {
        assert Loaded(e.mem, L, n);
        StringAnywhere(e.mem, L, e.dp, n.t);
      } else {
        Owned(n);
      }
    }
  }

  lemma StringAnywhere(m: Mem, L: Lib, top: Addr, t: Str)
    requires Loaded(m, L, T(t))
    ensures Loaded(m, L.(top := top), T(t))
  {
    hide StrText;
  }

  lemma Owned(n: Name)
    requires !n.T? && !(n.P? && n.op.Other?)
    ensures IsOwn(n)
  {
  }

  lemma KnowsTop(e: Env, L: Lib, top: Addr, k: nat)
    requires Knows(e, L, k)
    ensures Knows(e, L.(top := top), k)
  {
    hide Order, Named, Search;
    forall n: Name | Order(n) < k ensures Speaks(e, L.(top := top), n) {
      assert Speaks(e, L, n);
    }
  }

  /** The words that sessions rely on can be found. */
  lemma WholeIndex(e: Env, L: Lib)
    requires Knows(e, L, ALL)
    ensures BuiltIns(e.mem, e.latest, L) && Structured.Controls(e.mem, e.latest, L) && Finds(e, XtsOf(L))
    ensures forall n: Name :: IsOwn(n) ==> Speaks(e, L, n)
  {
    hide Order, Named, Search, IsOwn, Structured.Spelt;
    forall n: Name | IsOwn(n) ensures Speaks(e, L, n) { OrderOwn(n); }
    BuilderWords();
    OtherNames();
    var colon, semi, lit, exit := D(COLON), D(SEMICOLON), P(Op.Lit), P(Exit);
    var branch, zbranch := P(Branch), P(ZBranch);
    OwnedAll();
    assert Speaks(e, L, colon) && Speaks(e, L, semi) && Speaks(e, L, lit) && Speaks(e, L, exit);
    assert Speaks(e, L, branch) && Speaks(e, L, zbranch);
    forall a: Act | !a.ACell? && !a.ALit? 
      ensures Search(e.mem, e.latest, Structured.Spelt(a)) == Found(L.at(D(Structured.WordOf(a)))) {
      ControlNamed(a);
      assert Speaks(e, L, D(Structured.WordOf(a)));
    }
  }

  lemma OwnedAll()
    ensures IsOwn(P(Op.Lit)) && IsOwn(P(Exit)) && IsOwn(P(Branch)) && IsOwn(P(ZBranch))
    ensures forall d: Def :: IsOwn(D(d))
  {
  }

  lemma ControlNamed(a: Act)
    requires !a.ACell? && !a.ALit?
    ensures Named(D(Structured.WordOf(a))) == Structured.Spelt(a)
  {
    hide Terminated;
    CodesClean(Spelling(D(Structured.WordOf(a))));
  }

  lemma OtherNames()
    ensures Named(D(COLON)) == [58] && Named(D(SEMICOLON)) == [59]
    ensures Named(P(Exit)) == StrText(SExit) && StrText(SLit) == Codes("LIT")
  {
    hide Terminated;
    CodesClean(":");
    CodesClean(";");
    CodesClean("EXIT");
  }

  /** e still holds what forth_init wrote when it left e0: nothing of that has been overwritten, and the pointers
      are what they were. Anything may have been stored elsewhere, as the self-test does: in the word input buffer,
      at PAD, at HERE. */
  ghost predicate Outlives(e0: Env, e: Env) {
    && Keeps(e0.mem, e.mem) && e.comp == e0.comp && e.dp == e0.dp && e.latest == e0.latest && e.wib == e0.wib
    && e.wemit == e0.wemit && e.wkey == e0.wkey && e.dot == e0.dot
  }

  lemma {:induction false} KeptSearch(m: Mem, n: Mem, w: Addr, name: seq<nat>, xt: Addr)
    requires Keeps(m, n) && Search(m, w, name) == Found(xt)
    ensures Search(n, w, name) == Found(xt)
  {
    hide Search;
    SearchKept(m, n, w, name);
  }

  /** Cut down to the dictionary, the machine is still as forth_init left it. */
  lemma StillBooted(e0: Env, e: Env, L: Lib)
    requires Booted(e0, L) && Outlives(e0, e)
    ensures Booted(e.(mem := Kept(e)), L) && Keeps(e0.mem, Kept(e))
  {
    hide Image, IsOwn, Search, Named, StrText, Codes, Structured.Spelt;
    var m, n := e0.mem, Kept(e);
    assert Keeps(m, n);
    ImageStays(m, n, L);
    forall name: seq<nat>, xt: Addr | Search(m, e0.latest, name) == Found(xt)
      ensures Search(n, e0.latest, name) == Found(xt)
    {
      KeptSearch(m, n, e0.latest, name, xt);
    }
    forall k: Name | IsOwn(k) ensures Speaks(e.(mem := n), L, k) { assert Speaks(e0, L, k); }
  }

  lemma ImageStays(m: Mem, n: Mem, L: Lib)
    requires Image(m, L) && Keeps(m, n)
    ensures Image(n, L)
  {
    hide Loaded, Keeps;
    forall k: Name | !(k.P? && k.op.Other?) ensures Loaded(n, L, k) {
      LoadedKept(m, n, L, L.top, k);
    }
  }

  /** A task that gets to INTERPRET-LOOP stands at a prompt, with all that a session, a definition and a structured
      definition ask for, if what forth_init wrote is still there. */
  lemma GetsToPrompt(s: State, L: Lib, e0: Env, n: nat)
    requires Booted(e0, L) && Outlives(e0, s.env) && s.env.dp + n < TWO64
    requires s.rn + 8 <= STACK_DEPTH && s.dn <= STACK_DEPTH && !s.pser
    requires s.pc == Next && Loaded(e0.mem, L, D(INTERPRETLOOP)) && s.ip == BodyOf(e0.mem, L, INTERPRETLOOP)
    ensures AtAnyPrompt(s, L) && !s.env.comp && Booted(Trimmed(s).env, L)
    ensures AtPrompt(Trimmed(s), L, Kept(s.env)) && Room(Trimmed(s).env, L, n)
  {
    hide Image, BuiltIns, Structured.Controls, Finds, IsOwn, Loaded, WibReady, Below, Outlives, Kept, Keeps;
    StillBooted(e0, s.env, L);
    Stepping.Known(Kept(s.env), L, D(INTERPRETLOOP));
    LoopThere(e0, s, L);
    AnyPrompt(s, L);
    AnyRoom(s, L, n);
  }

  lemma LoopThere(e0: Env, s: State, L: Lib)
    requires Booted(e0, L) && Outlives(e0, s.env) && Keeps(e0.mem, Kept(s.env))
    requires Loaded(e0.mem, L, D(INTERPRETLOOP)) && Loaded(Kept(s.env), L, D(INTERPRETLOOP))
    ensures BodyOf(e0.mem, L, INTERPRETLOOP) == BodyOf(Kept(s.env), L, INTERPRETLOOP)
    ensures DefaultIo(s.env, L) && L.top <= s.env.dp && RAM <= s.env.wib && !s.env.comp
    ensures s.env.dp == s.env.wib + 2 * WIB_CHARS
  {
    hide Image, BuiltIns, Structured.Controls, Finds, IsOwn, Code, CodeLen, HasCode, Immediate;
  }

  lemma VisibleToken(s: string)
    requires Visible(s) && '\0' !in s
    ensures Interpret.Token(Codes(s))
  {
  }

  lemma NamedToken(n: Name)
    requires IsOwn(n)
    ensures Interpret.Token(Named(n))
  {
    hide NameAt, Order, Terminated, Visible;
    OrderOwn(n);
    WordKeyed(Order(n));
    VisibleToken(Spelling(n));
    CodesClean(Spelling(n));
  }

  /** From then on, every library word that acts on the data stack only and is not immediate may be typed in
      sessions and definitions, under its own name. */
  lemma WordLegal(e: Env, L: Lib, n: Name, deep: nat, ok: Data -> bool, eff: Data -> Data)
    requires Booted(e, L) && IsOwn(n) && !Immediate(n) && DataWord(e.mem, L, L.at(n), deep, ok, eff)
    ensures Legal(Known(Named(n), L.at(n), deep, ok, eff), e.mem, e.latest, L)
  {
    hide BuiltIns, Structured.Controls, Finds, IsOwn, Immediate, Named, Search, DataWord, Interpret.Token, Code,
      CodeLen;
    NamedToken(n);
    assert Speaks(e, L, n);
    OwnNotText(n);
    assert Loaded(e.mem, L, n);
  }

  lemma OwnNotText(n: Name)
    requires IsOwn(n)
    ensures !n.T? && !(n.P? && n.op.Other?)
  {
  }

  /** So may all the opcodes that Vocabulary has effects for. */
  lemma OpcodeLegal(e: Env, L: Lib, op: Op)
    requires Booted(e, L) && !op.Other? && !op.CompOff?
    ensures Legal(Known(Named(P(op)), L.at(P(op)), 0, d => Accepts(op, d), d => AppliedOr(op, d)), e.mem, e.latest, L)
  {
    hide Booted, Accepts, AppliedOr, Named, DataWord;
    OpcodeActs(e.mem, L, op);
    WordLegal(e, L, P(op), 0, d => Accepts(op, d), d => AppliedOr(op, d));
  }
}
