/** forth_init has something to start from: its string constants fit below the dictionary. */
module Witness {
  import opened Memory
  import opened Opcodes
  import opened Machine
  import opened Library
  import opened Boot
  import opened Bootstrap

  function StrNumber(t: Str): nat {
    match t
    case SLit => 0 case SExit => 1 case SBranch => 2 case SZBranch => 3 case SPser => 4 case SNotFound => 5
    case SLut => 6
  }

  function NumberedStr(i: nat): Str {
    match i
    case 0 => SLit case 1 => SExit case 2 => SBranch case 3 => SZBranch case 4 => SPser case 5 => SNotFound
    case _ => SLut
  }

  lemma StrNumbered(t: Str)
    ensures StrNumber(t) < 7 && NumberedStr(StrNumber(t)) == t && |StrText(t)| <= 21
  {
  }

  /** m with the characters cs from a on. */
  function WithChars(m: Mem, cs: seq<nat>, a: Addr): Mem {
    if cs == [] then m else WithChars(m, cs[1..], a + 2)[a := Wide(cs[0])]
  }

  lemma {:induction false} CharsThere(m: Mem, cs: seq<nat>, a: Addr)
    ensures HasChars(WithChars(m, cs, a), a, cs)
    ensures forall b :: b in WithChars(m, cs, a) ==>
      (b < a + 2 * |cs| && WithChars(m, cs, a)[b].Wide?) || (b in m && WithChars(m, cs, a)[b] == m[b])
    ensures forall b :: b in m && b < a ==> b in WithChars(m, cs, a) && WithChars(m, cs, a)[b] == m[b]
  {
    if cs != [] {
      CharsThere(m, cs[1..], a + 2);
      forall i | 0 <= i < |cs|
        ensures a + 2 * i in WithChars(m, cs, a) && WithChars(m, cs, a)[a + 2 * i] == Wide(cs[i])
      {
        if i > 0 {
          assert cs[1..][i - 1] == cs[i];
          assert a + 2 + 2 * (i - 1) in WithChars(m, cs[1..], a + 2);
        }
      }
    }
  }

  function Place(t: Str): Addr {
    64 * (1 + StrNumber(t))
  }

  /** The first k string constants, 64 bytes apart. */
  function Constants(k: nat): Mem {
    if k == 0 then map[] else WithChars(Constants(k - 1), StrText(NumberedStr(k - 1)), 64 * k)
  }

  lemma {:induction false} ConstantsThere(k: nat, t: Str)
    requires k <= 7
    ensures forall a :: a in Constants(k) ==> a < 64 * k + 42 && Constants(k)[a].Wide?
    ensures StrNumber(t) < k ==> HasChars(Constants(k), Place(t), StrText(t))
  {
    hide StrText, StrNumber, NumberedStr, WithChars;
    if k > 0 {
      ConstantsThere(k - 1, t);
      StrNumbered(t);
      StrNumbered(NumberedStr(k - 1));
      CharsThere(Constants(k - 1), StrText(NumberedStr(k - 1)), 64 * k);
      if StrNumber(t) < k - 1 { StillThere(Constants(k - 1), StrText(NumberedStr(k - 1)), 64 * k, t); }
    }
  }

  lemma StillThere(m: Mem, cs: seq<nat>, a: Addr, t: Str)
    requires HasChars(m, Place(t), StrText(t)) && Place(t) + 2 * |StrText(t)| <= a
    ensures HasChars(WithChars(m, cs, a), Place(t), StrText(t))
  {
    hide StrText, WithChars, StrNumber;
    CharsThere(m, cs, a);
  }

  /** The C program's string constants can be where forth_init wants them. */
  lemma ConstantsFit()
    ensures StaticData(Constants(7), Place)
  {
    hide StrText, Constants, StrNumber;
    ConstantsThere(7, SLit);
    forall t: Str ensures Place(t) + 2 * |StrText(t)| <= RAM && HasChars(Constants(7), Place(t), StrText(t)) {
      StrNumbered(t);
      ConstantsThere(7, t);
    }
  }

  /** So there are machines of which all that has been proved of booted machines is true. */
  method Launch(rest: nat -> Filling, selftest: Addr, keys: seq<nat>) returns (s: State, ghost L: Lib)
    requires forall i :: 0 in rest(i).desc
    ensures s == State(Next, selftest, TOS_INIT, Empty, 0, Empty, 0, false, false, s.env)
    ensures Booted(s.env, L) && s.env.keys == keys && s.env.win == 0
  {
    hide Booted, StaticData;
    ConstantsFit();
    s, L := Init(Constants(7), Place, rest, selftest, keys);
  }
}
