/** The words of the compiler and the tokeniser, whatever lies above DP and in the word input buffer: they do to the
    dictionary what they do to it when there is nothing else. */
module AnyMemory {
  import opened Words
  import opened Memory
  import opened Opcodes
  import opened Machine
  import opened Builders
  import opened Library
  import opened StackWords
  import opened DictWords
  import opened Tokeniser
  import opened Interpret
  import opened Carry
  import opened Prompt
  import ControlWords
  import Defining
  import Stepping
  import Structured

  lemma XComma(s: State, L: Lib, x: nat, r: Stack) returns (v: State)
    requires Calling(Trimmed(s), L, XCOMMA) && s.ds == Item(x, r) && Room(Trimmed(s).env, L, 8)
    requires 0 < s.dn && s.dn + 3 <= STACK_DEPTH && s.rn + 3 <= STACK_DEPTH
    ensures Reaches(s, v)
    ensures Richer(WithStack(Trimmed(s), x, r, s.dn - 1).(env := Comma(Trimmed(s).env, s.tos)), v)
  {
    hide Reaches, Kept, Image, Below;
    DictWords.XComma(Trimmed(s), L, x, r);
    v := Prompt.Anywhere(s, WithStack(Trimmed(s), x, r, s.dn - 1).(env := Comma(Trimmed(s).env, s.tos)));
  }

  /** The immediate words of the control structures do the work of the C builders. */
  lemma ControlWord(s: State, L: Lib, x: Xts, a: Act) returns (v: State)
    requires !a.ACell? && !a.ALit? && Calling(Trimmed(s), L, Structured.WordOf(a))
    requires ControlWords.Able(Trimmed(s), L, x, if a == AThen || a == ABegin then 0 else 16)
    requires a == AThen ==>
      L.top <= s.tos && RAM <= s.tos && s.tos in Kept(s.env) && Kept(s.env)[s.tos].Cell?
    ensures Reaches(s, v) && Richer(ControlWords.Built(Trimmed(s), a), v)
  {
    hide Reaches, Kept, Image, Finds;
    var t := Trimmed(s);
    match a {
      case AIf => ControlWords.IfWord(t, L, x);
      case AThen => ControlWords.ThenWord(t, L, x);
      case ABegin => ControlWords.BeginWord(t, L, x);
      case AAgain => ControlWords.BackWord(t, L, x, AGAIN, SBranch, x.branch, AAgain);
      case AUntil => ControlWords.BackWord(t, L, x, UNTIL, SZBranch, x.zbranch, AUntil);
    }
    v := Prompt.Anywhere(s, ControlWords.Built(t, a));
  }

  /** : reads a name and opens the definition that forth_colon opens. */
  lemma ColonWord(s: State, L: Lib, name: seq<nat>, rest: seq<nat>) returns (u: State, v: State)
    requires Calling(Trimmed(s), L, COLON) && Reading(Trimmed(s), L, 6, 5) && Room(Trimmed(s).env, L, HeaderSize(name))
    requires Token(name) && NextWord(s.env.keys, name, rest)
    ensures Reaches(s, v) && Richer(u, v)
    ensures var b := Open(ControlWords.AsBuilder(Trimmed(s).(env := ReadEnv(Trimmed(s).env, name, rest))), name);
      u == Trimmed(s).(pc := Next, tos := b.cstk.top, ds := b.cstk.rest, dn := s.dn + 1, env := b.env.(comp := true))
  {
    hide Reaches, Kept, Image, WibReady, Below, NextWord, ReadEnv, HeaderSize;
    var t := Trimmed(s);
    Defining.ColonWord(t, L, name, rest);
    var b := Open(ControlWords.AsBuilder(t.(env := ReadEnv(t.env, name, rest))), name);
    u := t.(pc := Next, tos := b.cstk.top, ds := b.cstk.rest, dn := s.dn + 1, env := b.env.(comp := true));
    v := Prompt.Anywhere(s, u);
  }

  /** ; compiles EXIT and finishes the word as forth_semicolon does. */
  lemma SemicolonWord(s: State, L: Lib, exit: Addr, y: nat, r: Stack) returns (u: State, v: State)
    requires Calling(Trimmed(s), L, SEMICOLON) && s.ds == Item(y, r) && Room(Trimmed(s).env, L, 8)
    requires 0 < s.dn && s.dn + 4 <= STACK_DEPTH && s.rn + 4 <= STACK_DEPTH
    requires HasWord(Kept(s.env), s.tos) && L.top <= s.tos && RAM <= s.tos && s.tos < s.env.dp
    requires Search(Kept(s.env), s.env.latest, StrText(SExit)) == Found(exit)
    ensures Reaches(s, v) && Richer(u, v)
    ensures var b := Ended(ControlWords.AsBuilder(Trimmed(s)).(env := Comma(Trimmed(s).env, exit)));
      u == Trimmed(s).(pc := Next, tos := y, ds := r, dn := s.dn - 1, env := b.env.(comp := false))
  {
    hide Reaches, Kept, Image, Search, StrText, Below;
    var t := Trimmed(s);
    Defining.SemicolonWord(t, L, exit, y, r);
    var b := Ended(ControlWords.AsBuilder(t).(env := Comma(t.env, exit)));
    u := t.(pc := Next, tos := y, ds := r, dn := s.dn - 1, env := b.env.(comp := false));
    v := Prompt.Anywhere(s, u);
  }

  /** WIB-WORD skips delimiters and reads the word behind them. */
  lemma WibWord(s: State, L: Lib, tok: seq<nat>, rest: seq<nat>) returns (v: State)
    requires Calling(Trimmed(s), L, WIBWORD) && Reading(Trimmed(s), L, 5, 4)
    requires NextWord(s.env.keys, tok, rest) && Plain(tok) && 0 < |tok| <= WIB_CHARS
    ensures Reaches(s, v) && v == s.(pc := Next, env := s.env.(mem := v.env.mem, win := |tok|, keys := rest))
    ensures HasChars(v.env.mem, v.env.wib, tok) && Keeps(Kept(s.env), v.env.mem)
  {
    hide Reaches, Kept, Image, WibReady, Below, NextWord, ReadEnv, BufferOnly;
    var t := Trimmed(s);
    Tokeniser.WibWord(t, L, tok, rest);
    ReadEffect(t.env, L, tok, rest);
    v := Prompt.Anywhere(s, t.(pc := Next, env := ReadEnv(t.env, tok, rest)));
    ReadKeeps(s.env, ReadEnv(t.env, tok, rest).mem, v.env.mem);
  }

  // INTERPRET.

  /** A known word is executed if it is immediate or the machine does not compile. */
  lemma ExecutesWord(s: State, L: Lib, tok: seq<nat>, rest: seq<nat>, xt: Addr) returns (v: State)
    requires Calling(Trimmed(s), L, INTERPRET) && Reading(Trimmed(s), L, 9, 7)
    requires Token(tok) && NextWord(s.env.keys, tok, rest)
    requires Search(Kept(s.env), s.env.latest, tok) == Found(xt) && xt != 0 && HasWord(Kept(s.env), xt)
    requires Kept(s.env)[xt].h.immediate || !s.env.comp
    ensures Reaches(s, v) && Keeps(Kept(s.env), v.env.mem)
    ensures v == s.(pc := Exec(xt), ip := v.ip, rs := Item(s.ip, s.rs), rn := s.rn + 1,
                    env := s.env.(mem := v.env.mem, win := |tok|, keys := rest))
    ensures Loaded(Kept(s.env), L, D(INTERPRET))
    ensures v.ip == BodyOf(Kept(s.env), L, INTERPRET) + 8 * (if Kept(s.env)[xt].h.immediate then 13 else 20)
  {
    hide Reaches, Kept, Image, Loaded, BodyOf, WibReady, Below, NextWord, ReadEnv, Search, BufferOnly;
    var t := Trimmed(s);
    var u := Interpret.ExecutesWord(t, L, tok, rest, xt);
    ReadEffect(t.env, L, tok, rest);
    Stepping.Known(Kept(s.env), L, D(INTERPRET));
    v := Prompt.Anywhere(s, u);
    ReadKeeps(s.env, u.env.mem, v.env.mem);
  }

  /** A known word that is not immediate is appended while compiling. */
  lemma CompilesWord(s: State, L: Lib, tok: seq<nat>, rest: seq<nat>, xt: Addr) returns (v: State)
    requires Calling(Trimmed(s), L, INTERPRET) && Reading(Trimmed(s), L, 9, 7) && Room(Trimmed(s).env, L, 8)
    requires Token(tok) && NextWord(s.env.keys, tok, rest) && s.env.comp
    requires Search(Kept(s.env), s.env.latest, tok) == Found(xt) && xt != 0 && HasWord(Kept(s.env), xt)
    requires !Kept(s.env)[xt].h.immediate
    ensures Reaches(s, v)
    ensures Richer(Trimmed(s).(pc := Next, env := Comma(ReadEnv(Trimmed(s).env, tok, rest), xt)), v)
  {
    hide Reaches, Kept, Image, WibReady, Below, NextWord, ReadEnv, Search;
    var t := Trimmed(s);
    Interpret.CompilesWord(t, L, tok, rest, xt);
    v := Prompt.Anywhere(s, t.(pc := Next, env := Comma(ReadEnv(t.env, tok, rest), xt)));
  }

  /** A number is pushed while interpreting. */
  lemma PushesNumber(s: State, L: Lib, tok: seq<nat>, rest: seq<nat>) returns (v: State)
    requires Calling(Trimmed(s), L, INTERPRET) && Reading(Trimmed(s), L, 9, 7) && !s.env.comp
    requires Token(tok) && NextWord(s.env.keys, tok, rest)
    requires Search(Kept(s.env), s.env.latest, tok) == Absent && IsNumberText(tok) && |tok| <= 17
    ensures Reaches(s, v) && Keeps(Kept(s.env), v.env.mem)
    ensures v == s.(pc := Next, tos := NumberOf(tok), ds := Item(s.tos, s.ds), dn := s.dn + 1,
                    env := s.env.(mem := v.env.mem, win := |tok|, keys := rest))
  {
    hide Reaches, Kept, Image, WibReady, Below, NextWord, ReadEnv, Search, IsNumberText, NumberOf, BufferOnly;
    var t := Trimmed(s);
    Interpret.PushesNumber(t, L, tok, rest);
    ReadEffect(t.env, L, tok, rest);
    var e := ReadEnv(t.env, tok, rest);
    v := Prompt.Anywhere(s, t.(pc := Next, env := e, tos := NumberOf(tok), ds := Item(s.tos, s.ds), dn := s.dn + 1));
    ReadKeeps(s.env, e.mem, v.env.mem);
  }

  /** It is compiled as LIT and its value otherwise. */
  lemma CompilesNumber(s: State, L: Lib, x: Xts, tok: seq<nat>, rest: seq<nat>) returns (v: State)
    requires Calling(Trimmed(s), L, INTERPRET) && Reading(Trimmed(s), L, 9, 7) && Room(Trimmed(s).env, L, 16)
    requires Token(tok) && NextWord(s.env.keys, tok, rest) && s.env.comp
    requires Search(Kept(s.env), s.env.latest, tok) == Absent && IsNumberText(tok) && |tok| <= 17
    requires Search(Kept(s.env), s.env.latest, StrText(SLit)) == Found(x.lit)
    ensures Reaches(s, v)
    ensures var e := Comma(Comma(ReadEnv(Trimmed(s).env, tok, rest), x.lit), NumberOf(tok));
      Richer(Trimmed(s).(pc := Next, env := e), v)
  {
    hide Reaches, Kept, Image, WibReady, Below, NextWord, ReadEnv, Search, IsNumberText, NumberOf, StrText;
    var t := Trimmed(s);
    Interpret.CompilesNumber(t, L, x, tok, rest);
    v := Prompt.Anywhere(s, t.(pc := Next, env := Comma(Comma(ReadEnv(t.env, tok, rest), x.lit), NumberOf(tok))));
  }

  /** Anything else is echoed and reported, and the interpreter is reset. */
  lemma ReportsUnknown(s: State, L: Lib, tok: seq<nat>, rest: seq<nat>) returns (v: State)
    requires Calling(Trimmed(s), L, INTERPRET) && Reading(Trimmed(s), L, 9, 7)
    requires Token(tok) && NextWord(s.env.keys, tok, rest)
    requires Search(Kept(s.env), s.env.latest, tok) == Absent && !IsNumberText(tok)
    ensures Reaches(s, v) && Richer(NotFound(Trimmed(s), tok, rest), v)
  {
    hide Reaches, Kept, Image, WibReady, Below, NextWord, ReadEnv, Search, IsNumberText;
    Interpret.ReportsUnknown(Trimmed(s), L, tok, rest);
    v := Prompt.Anywhere(s, NotFound(Trimmed(s), tok, rest));
  }

  /** _WIB-WORD on a token of any length, right behind whose buffer the free dictionary begins: all it writes lies
      below DP exactly if the token has at most 64 characters. */
  lemma LongToken(s: State, L: Lib, run: seq<nat>, d: nat, rest: seq<nat>) returns (u: State, v: State)
    requires Calling(Trimmed(s), L, INNERWORD) && Wired(Trimmed(s), L, 5, 3) && RAM <= s.env.wib
    requires s.env.keys == run + [d] + rest && Plain(run) && IsDelim(d)
    requires s.env.dp == s.env.wib + NAME_MAXLEN + 1 && s.env.wib + 2 * NAME_MAXLEN < TWO64
    ensures Reaches(s, v) && v == s.(pc := Next, env := v.env) && Richer(u, v)
    ensures v.env == s.env.(mem := v.env.mem, win := |run| % NAME_MAXLEN, keys := rest)
    ensures Below(u.env.mem, s.env.dp) <==> |run| <= WIB_CHARS
  {
    hide Reaches, Kept, Image, Below, IsDelim, Roomy;
    AllSlots(s.env);
    u := Tokeniser.LongToken(Trimmed(s), L, run, d, rest);
    v := Prompt.Anywhere(s, u);
  }

  lemma AllSlots(e: Env)
    requires RAM <= e.wib && e.dp == e.wib + NAME_MAXLEN + 1 && e.wib + 2 * NAME_MAXLEN < TWO64
    ensures Roomy(e.(mem := Kept(e), win := 0)) && Below(Kept(e), e.dp)
  {
    forall i | 0 <= i < NAME_MAXLEN ensures Writable(Kept(e), e.wib + 2 * i, Wide(0)) {
      assert Free(Kept(e), e.wib + 2 * i, 2);
    }
  }
}
