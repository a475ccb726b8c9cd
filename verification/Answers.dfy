/** Meanings in closed form: a word that is compiled from words with effects on the data stack, and numbers, means
    the composition of the effects, however deep its words are nested. */
module Answers {
  import opened Words
  import opened Memory
  import opened Opcodes
  import opened Machine
  import opened Compiler
  import opened Sessions
  import opened Vocabulary
  import opened Meaning
  import Programs

  /** In the memory m, with the programs of c, the word xt means its effect. */
  ghost predicate Answers(xt: Addr, m: Mem, c: Lexicon, deep: nat, fuel: nat, ok: Data -> bool, eff: Data -> Data) {
    forall s: State :: Meets(s, m, deep, ok) ==>
      EvalWord(xt, s, c, fuel) == Done(WithData(s, eff(DataOf(s))).(pc := Next))
  }

  predicate Meets(s: State, m: Mem, deep: nat, ok: Data -> bool) {
    s.env.mem == m && s.rn + deep <= STACK_DEPTH && ok(DataOf(s))
  }

  /** The opcodes that touch the data stack alone. */
  lemma OpAnswers(xt: Addr, m: Mem, c: Lexicon, op: Op, fuel: nat)
    requires Standing(m, c) && IsOp(m, xt, op)
    ensures Answers(xt, m, c, 0, fuel, d => Accepts(op, d), d => AppliedOr(op, d))
  {
    hide Standing, ExecOp, Applied, Eval, Back;
    forall s: State | Meets(s, m, 0, d => Accepts(op, d))
      ensures EvalWord(xt, s, c, fuel) == Done(WithData(s, AppliedOr(op, DataOf(s))).(pc := Next))
    {
      Applies(m[xt].h, s.(pc := Next));
    }
  }

  lemma ConstantAnswers(xt: Addr, m: Mem, c: Lexicon, v: nat, fuel: nat)
    requires Standing(m, c) && IsOp(m, xt, DoConst) && HasCell(m, m[xt].h.body, v)
    ensures Answers(xt, m, c, 0, fuel, HasRoom, d => Vocabulary.With(v, d))
  {
    hide Standing, Eval, Back;
  }

  /** The words and numbers as a program. */
  function Line(ts: seq<Tok>): Prog {
    if ts == [] then Nil
    else Seq(if ts[0].Num? then Number(NumberOf(ts[0].text)) else Prim(ts[0].xt), Line(ts[1..]))
  }

  ghost predicate Answering(t: Tok, m: Mem, c: Lexicon, deep: nat, fuel: nat) {
    t.Known? ==> t.deep <= deep && Answers(t.xt, m, c, t.deep, fuel, t.ok, t.eff)
  }

  lemma {:induction false} LineMeans(ts: seq<Tok>, s: State, base: Addr, c: Lexicon, deep: nat, fuel: nat)
    requires forall t :: t in ts ==> Answering(t, s.env.mem, c, deep, fuel)
    requires Smooth(ts, DataOf(s)) && s.rn + deep <= STACK_DEPTH
    ensures var o := Eval(Line(ts), s, base, c, fuel);
      o.Done? && o.s == WithData(s, After(ts, DataOf(s))).(pc := o.s.pc, ip := o.s.ip)
    decreases |ts|
  {
    hide EvalWord;
    if ts != [] {
      var t, u := ts[0], s.(ip := base + 8);
      assert Answering(t, s.env.mem, c, deep, fuel);
      if t.Known? { assert Meets(u, s.env.mem, t.deep, t.ok); }
      var cmd := Line(ts).c;
      var r := EvalCmd(cmd, s, base, c, fuel).s;
      assert DataOf(r) == Effect(t, DataOf(s));
      LineMeans(ts[1..], r, base + 8 * LenCmd(cmd), c, deep, fuel);
    }
  }

  /** A word compiled from such words and numbers, EXIT behind them. */
  lemma CallAnswers(w: Addr, m: Mem, c: Lexicon, ts: seq<Tok>, deep: nat, fuel: nat)
    requires IsOp(m, w, Call) && m[w].h.body in c.code && c.code[m[w].h.body] == Programs.Body(Line(ts))
    requires forall t :: t in ts ==> Answering(t, m, c, deep, fuel)
    ensures Answers(w, m, c, deep + 1, fuel + 1, d => Smooth(ts, d), d => After(ts, d))
  {
    hide Eval, Smooth, After, Line, Programs.Body, Landed, ExecOp;
    var body := m[w].h.body;
    forall s: State | Meets(s, m, deep + 1, d => Smooth(ts, d))
      ensures EvalWord(w, s, c, fuel + 1) == Done(WithData(s, After(ts, DataOf(s))).(pc := Next))
    {
      LineMeans(ts, Called(s), body, c, deep, fuel);
      Programs.BodyMeans(Line(ts), Called(s), body, c, fuel);
    }
  }
}
