/** The builders of forth.c as they are: FORTH_DP, FORTH_LATEST and the compile stack are variables that
    each call changes. */
module Dictionary {
  import opened Words
  import opened Memory
  import opened Opcodes
  import opened Machine
  import opened Builders
  import opened Context
  import opened WStrings
  import DictionaryIndex

  class ForthDictionary {
    var env: Env
    const cstk: array<nat>
    /** forth_csp as an index; STACK_DEPTH when the compile stack is empty, negative after an overflow. */
    var csp: int

    ghost predicate Valid()
      reads this
    {
      cstk.Length == STACK_DEPTH && 0 <= csp <= STACK_DEPTH && CNames(env.mem)
    }

    ghost function View(): Builder
      reads this, cstk
      requires Valid()
    {
      Builder(env, StackOf(cstk[csp..]))
    }

    /** The state forth_init starts from: nothing defined, DP at the start of the dictionary RAM, above the static
        data. */
    constructor (e: Env)
      requires e.latest == 0 && 0 < e.dp && Below(e.mem, e.dp) && CNames(e.mem)
      ensures Valid() && fresh(cstk) && View() == Builder(e, Empty) && DictionaryIndex.Fresh(View())
    {
      env := e;
      csp := STACK_DEPTH;
      cstk := new nat[STACK_DEPTH](_ => 0);
      new;
    }

    /** forth_cpush. On a full stack it moves the pointer all the same, and stores nothing; the message is left
        out. */
    method Cpush(val: nat)
      requires Valid()
      modifies this`csp, cstk
      ensures csp == old(csp) - 1
      ensures old(csp) > 0 ==> Valid() && View() == CPush(old(View()), val)
      ensures old(csp) == 0 ==> cstk[..] == old(cstk[..])
    {
      csp := csp - 1;
      if csp < 0 { return; }
      cstk[csp] := val;
      assert cstk[csp..][1..] == old(cstk[csp..]);
    }

    method Cpop() returns (ret: nat)
      requires Valid()
      modifies this`csp
      ensures Valid() && ret == CTop(old(View())) && View() == CPop(old(View())) && csp >= old(csp)
    {
      if csp > STACK_DEPTH - 1 {
        return BAD_PATTERN;
      }
      ret := cstk[csp];
      csp := csp + 1;
      assert cstk[csp..] == old(cstk[csp..])[1..];
    }

    /** forth_coloncode, with forth_word_new written out. */
    method ColonCode(name: seq<nat>, opcode: Op)
      requires Valid() && csp > 0 && 0 in name
      modifies this, cstk
      ensures Valid() && View() == DictionaryIndex.Do(old(View()), DictionaryIndex.Define(Terminated(name), opcode))
    {
      hide StackOf;
      var word := env.dp;
      var len := Wstrlen(name);
      TerminatedPrefix(name);
      var text := name[..len];
      assert text == Terminated(name);
      var dp := word + HEADER_BYTES + 2 + 2 * len;
      env := env.(mem := env.mem[word := Word(Header(env.latest, text, false, opcode, 0, dp))], dp := dp);
      Cpush(word);
    }

    /** forth_colon. */
    method Colon(name: seq<nat>)
      requires Valid() && csp > 0 && 0 in name
      modifies this, cstk
      ensures Valid() && View() == Open(old(View()), Terminated(name))
    {
      hide StackOf;
      ColonCode(name, Call);
    }

    /** forth_desc, for the word being defined. */
    method Desc(str: seq<nat>)
      requires Valid() && 0 in str && csp < STACK_DEPTH && HasWord(env.mem, CTop(View()))
      modifies this, cstk
      ensures Valid() && View() == DictionaryIndex.Do(old(View()), DictionaryIndex.Describe(Terminated(str)))
    {
      hide StackOf;
      var len := Wstrlen(str);
      TerminatedPrefix(str);
      if len == 0 { return; }
      ghost var before := View();
      var word := Cpop();
      assert before.cstk.Item?;
      Cpush(word);
      assert View() == before;
      var h := env.mem[word].h;
      if h.blen != 0 { return; }
      var desc := env.dp;
      var dp := desc + 2 * len + 2;
      if h.body == desc { h := h.(body := dp); }
      env := env.(mem := env.mem[word := Word(h)][desc := Text(str[..len])], dp := dp);
    }

    method Semicolon()
      requires Valid() && HasWord(env.mem, CTop(View()))
      modifies this
      ensures Valid() && View() == Finish(old(View()))
    {
      hide StackOf;
      var word := Cpop();
      var h := env.mem[word].h;
      env := env.(mem := env.mem[word := Word(h.(blen := Wrap(env.dp - h.body)))], latest := word);
    }

    method Append(val: nat)
      requires Valid()
      modifies this`env
      ensures Valid() && View() == old(View()).(env := Comma(old(env), val))
    {
      hide StackOf;
      env := env.(mem := env.mem[env.dp := Cell(val)], dp := env.dp + 8);
    }

    /** forth_find_comma; the message about a missing word is left out. */
    method FindComma(name: seq<nat>)
      requires Valid() && 0 in name
      modifies this`env
      ensures Valid() && View() == old(View()).(env := Comma(old(env), Xt(old(env), Terminated(name))))
    {
      hide StackOf, Terminated, Search, CNames;
      var word := FindWord(env.mem, env.latest, name);
      Append(match word case Found(xt) => xt case _ => 0);
    }

    method Literal(val: nat)
      requires Valid()
      modifies this`env
      ensures Valid() && View() == Build(old(View()), ALit(val))
    {
      hide StackOf, Terminated, Xt, CNames, Comma;
      BuilderNames();
      FindComma(Codes("LIT") + [0]);
      Append(val);
    }

    method If()
      requires Valid() && csp > 0
      modifies this, cstk
      ensures Valid() && View() == Build(old(View()), AIf)
    {
      hide StackOf, Terminated, Xt, CNames;
      BuilderNames();
      FindComma(Codes("ZBRANCH") + [0]);
      Cpush(env.dp);
      Append(0);
    }

    method Then()
      requires Valid() && !HasWord(env.mem, CTop(View()))
      modifies this
      ensures Valid() && View() == Build(old(View()), AThen)
    {
      hide StackOf;
      var a := Cpop();
      env := env.(mem := env.mem[a := Cell(env.dp)]);
    }

    method Begin()
      requires Valid() && csp > 0
      modifies this, cstk
      ensures Valid() && View() == Build(old(View()), ABegin)
    {
      hide StackOf, CNames;
      Cpush(env.dp);
    }

    method Again()
      requires Valid()
      modifies this
      ensures Valid() && View() == Build(old(View()), AAgain)
    {
      hide StackOf, Terminated, Xt, CNames, Comma;
      BuilderNames();
      FindComma(Codes("BRANCH") + [0]);
      var a := Cpop();
      Append(a);
    }

    method Until()
      requires Valid()
      modifies this
      ensures Valid() && View() == Build(old(View()), AUntil)
    {
      hide StackOf, Terminated, Xt, CNames, Comma;
      BuilderNames();
      FindComma(Codes("ZBRANCH") + [0]);
      var a := Cpop();
      Append(a);
    }

    /** forth_constant. */
    method Constant(name: seq<nat>, val: nat)
      requires Valid() && csp > 0 && 0 in name
      modifies this, cstk
      ensures Valid()
      ensures View() == DictionaryIndex.Do(
        DictionaryIndex.Do(old(View()), DictionaryIndex.Define(Terminated(name), DoConst)), DictionaryIndex.Put(val))
    {
      hide StackOf, Terminated, CNames;
      ColonCode(name, DoConst);
      Append(val);
    }

    method Immediate()
      requires Valid() && HasWord(env.mem, env.latest)
      modifies this`env
      ensures Valid() && View() == DictionaryIndex.Do(old(View()), DictionaryIndex.MarkImmediate)
    {
      hide StackOf;
      env := env.(mem := env.mem[env.latest := Word(env.mem[env.latest].h.(immediate := true))]);
    }
  }

  /** The names the builders look up, as C strings. */
  lemma BuilderNames()
    ensures Terminated(Codes("LIT") + [0]) == Codes("LIT")
    ensures Terminated(Codes("BRANCH") + [0]) == Codes("BRANCH")
    ensures Terminated(Codes("ZBRANCH") + [0]) == Codes("ZBRANCH")
  {
    TerminatedName(Codes("LIT"));
    TerminatedName(Codes("BRANCH"));
    TerminatedName(Codes("ZBRANCH"));
  }
}
