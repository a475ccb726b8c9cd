/** The opcodes that look at words of the dictionary, and at the status of the machine. */
module Queries {
  import opened Words
  import opened Memory
  import opened Opcodes
  import opened Machine

  /** XT>PREV takes one step of the search: from the word that it answers on, the search goes on. */
  lemma PrevSearches(s: State, name: seq<nat>)
    requires HasWord(s.env.mem, s.tos) && s.env.mem[s.tos].h.name != name
    requires !Search(s.env.mem, s.tos, name).Broken?
    ensures var t := ExecData(XtToPrev, s);
      && t == s.(tos := t.tos)
      && Search(s.env.mem, s.tos, name) == if t.tos == 0 then Absent else Search(s.env.mem, t.tos, name)
  {
    hide ExecData;
    Reads(XtToPrev, s);
  }

  /** XT>BODY answers on the place behind the header, for a word that WORD-NEW has just made, and XT>PREV on the
      newest word before it; its length is not known yet, and it is not immediate. */
  lemma NewWord(s: State, name: seq<nat>)
    requires RAM <= s.env.dp && s.tos == s.env.dp
    ensures var t := CreateWord(s, name);
      && ExecData(XtToBody, t) == t.(tos := t.env.dp) && ExecData(BlenLoad, t) == t.(tos := 0)
      && ExecData(XtToPrev, t) == t.(tos := s.env.latest) && ExecData(IsImmediate, t) == t.(tos := 0)
  {
    hide ExecData, CreateWord;
    var t := CreateWord(s, name);
    HeaderThere(s, name);
    Reads(XtToBody, t);
    Reads(BlenLoad, t);
    Reads(XtToPrev, t);
    Reads(IsImmediate, t);
  }

  lemma HeaderThere(s: State, name: seq<nat>)
    requires RAM <= s.env.dp && s.tos == s.env.dp
    ensures var t := CreateWord(s, name);
      HasWord(t.env.mem, t.tos) && t.env.mem[t.tos].h == Header(s.env.latest, name, false, Call, 0, t.env.dp)
  {
    hide HeaderSize, Overwrite;
    Stored(s.env.mem, s.env.dp, Word(NewHeader(s.env, name)));
  }

  /** The opcodes that read a header. */
  lemma Reads(op: Op, s: State)
    requires op.XtToBody? || op.BlenLoad? || op.XtToPrev? || op.IsImmediate?
    requires HasWord(s.env.mem, s.tos)
    ensures ExecData(op, s) == s.(tos := Field(op, s.env.mem[s.tos].h))
  {
    hide Field, ExecStack, ExecArith, ExecMemory;
  }

  lemma Stored(m: Mem, a: Addr, c: Chunk)
    ensures a in Overwrite(m, a, c) && Overwrite(m, a, c)[a] == c
  {
  }

  /** BLEN@ reads what BLEN! has written. */
  lemma LengthKept(s: State, n: nat, w: Addr, r: Stack)
    requires s.dn > 1 && s.tos == w && s.ds == Item(n, r) && r.Item? && HasWord(s.env.mem, w)
    ensures var t := ExecData(BlenStore, s);
      && HasWord(t.env.mem, w) && ExecData(BlenLoad, t.(tos := w)) == t.(tos := n)
  {
    hide ExecStack, ExecArith, ExecMemory;
    assert ExecData(BlenStore, s) == ExecBlenStore(s);
    hide ExecData;
    Reads(BlenLoad, ExecBlenStore(s).(tos := w));
  }

  /** Names of more than 127 characters are not looked for, and no word is made for them. */
  lemma LongNames(s: State)
    requires s.tos > 127 && s.dn > 0 && s.ds.Item?
    ensures ExecData(Find, s) == ExecData(WordNew, s) == s.(tos := 0, ds := s.ds.rest, dn := s.dn - 1)
  {
    hide Search, ExecStack, ExecArith, ExecMemory, CreateWord, ReadChars, CanRead;
  }

  /** Texts of fewer than two characters are no numbers, and have the value zero. */
  lemma ShortTexts(s: State)
    requires s.tos < 2 && s.dn > 0 && s.ds.Item?
    ensures ExecData(IsNumber, s) == ExecData(ToNumber, s) == s.(tos := 0, ds := s.ds.rest, dn := s.dn - 1)
  {
    hide ExecStack, ExecArith, ExecMemory, ReadChars, CanRead, IsNumberText, NumberOf;
  }

  /** STA@ shows the two error flags and the compile state, each as a bit of its own. */
  lemma Status(s: State)
    requires s.dn < STACK_DEPTH
    ensures var t := ExecData(StaLoad, s);
      && t == s.(tos := t.tos, ds := Item(s.tos, s.ds), dn := s.dn + 1) && t.tos < 64
      && (Bit(t.tos, 1) <==> s.pser) && (Bit(t.tos, 2) <==> s.rser) && (Bit(t.tos, 5) <==> s.env.comp)
      && !Bit(t.tos, 0) && !Bit(t.tos, 3) && !Bit(t.tos, 4)
  {
    hide ExecStack, ExecArith, ExecInterp;
    StatusBits(s);
  }

  lemma StatusBits(s: State)
    ensures Sta(s) < 64 && (Bit(Sta(s), 1) <==> s.pser) && (Bit(Sta(s), 2) <==> s.rser)
    ensures (Bit(Sta(s), 5) <==> s.env.comp) && !Bit(Sta(s), 0) && !Bit(Sta(s), 3) && !Bit(Sta(s), 4)
  {
    hide Bit;
    var a, b, c := if s.pser then 1 else 0, if s.rser then 1 else 0, if s.env.comp then 1 else 0;
    var x0, x1, x2 := Sta(s), a + 2 * (b + 8 * c), b + 8 * c;
    assert x0 == 0 + 2 * x1;
    LowBit(x0, 0, x1, 4);
    LowBit(x1, a, x2, 3);
    LowBit(x2, b, 4 * c, 2);
    LowBit(4 * c, 0, 2 * c, 1);
    LowBit(2 * c, 0, c, 0);
    LowBit(c, c, 0, 0);
  }

  /** The bits of b + 2r, up to bit n + 1, are b and those of r. */
  lemma LowBit(x: nat, b: nat, r: nat, n: nat)
    requires x == b + 2 * r && b <= 1
    ensures (Bit(x, 0) <==> b == 1) && forall k: nat :: k <= n ==> Bit(x, k + 1) == Bit(r, k)
  {
    Half(b, r);
  }
}
