/** The loops of wstring.c and forth_find, on NUL-terminated strings. */
module WStrings {
  import opened Memory
  import opened Machine

  /** wstrlen: ws is everything from the pointer on, with a NUL somewhere. */
  method Wstrlen(ws: seq<nat>) returns (len: nat)
    requires 0 in ws
    ensures len == |Terminated(ws)| && len < |ws|
  {
    len := 0;
    while ws[len] != 0
      invariant len < |ws| && 0 in ws[len..]
      invariant |Terminated(ws)| == len + |Terminated(ws[len..])|
      decreases |ws| - len
    {
      assert ws[len..][1..] == ws[len + 1..];
      len := len + 1;
    }
  }

  lemma {:induction false} TerminatedPrefix(ws: seq<nat>)
    requires 0 in ws
    ensures |Terminated(ws)| < |ws| && Terminated(ws) == ws[..|Terminated(ws)|]
    decreases |ws|
  {
    if ws[0] != 0 { TerminatedPrefix(ws[1..]); }
  }

  /** wstrsame. */
  method Wstrsame(aws: seq<nat>, bws: seq<nat>) returns (same: bool)
    requires 0 in aws && 0 in bws
    ensures same <==> Terminated(aws) == Terminated(bws)
  {
    var lena := Wstrlen(aws);
    var lenb := Wstrlen(bws);
    if lena != lenb { return false; }
    TerminatedPrefix(aws);
    TerminatedPrefix(bws);
    ghost var ta, tb := Terminated(aws), Terminated(bws);
    hide Terminated;
    var i := 0;
    while lena > 0
      invariant i + lena == |ta| == |tb|
      invariant forall k :: 0 <= k < i ==> ta[k] == tb[k]
      decreases lena
    {
      assert ta[i] == aws[i] && tb[i] == bws[i];
      if aws[i] != bws[i] { return false; }
      i := i + 1;
      lena := lena - 1;
    }
    same := true;
  }

  /** Every word's name is a C string. */
  ghost predicate CNames(m: Mem) {
    forall a :: HasWord(m, a) ==> 0 !in m[a].h.name
  }

  lemma {:induction false} TerminatedNul(cs: seq<nat>)
    ensures Terminated(cs + [0]) == Terminated(cs)
    decreases |cs|
  {
    if cs == [] {
      assert cs + [0] == [0];
    } else {
      assert (cs + [0])[1..] == cs[1..] + [0];
      TerminatedNul(cs[1..]);
    }
  }

  lemma {:induction false} TerminatedName(cs: seq<nat>)
    requires 0 !in cs
    ensures Terminated(cs + [0]) == cs
    decreases |cs|
  {
    if cs == [] {
      assert cs + [0] == [0];
    } else {
      assert (cs + [0])[1..] == cs[1..] + [0];
      TerminatedName(cs[1..]);
    }
  }

  /** forth_find, from the newest word down the prev links; a link that leads nowhere, or not down, is
      reported as Broken. */
  method FindWord(m: Mem, latest: Addr, name: seq<nat>) returns (r: Lookup)
    requires CNames(m) && 0 in name
    ensures r == Search(m, latest, Terminated(name))
  {
    var word := latest;
    while true
      invariant Search(m, latest, Terminated(name)) == Search(m, word, Terminated(name))
      decreases word
    {
      if !HasWord(m, word) { return Broken; }
      var wname := m[word].h.name + [0];
      TerminatedName(m[word].h.name);
      var n := Wstrlen(name);
      var k := Wstrlen(wname);
      if n == k {
        var same := Wstrsame(name, wname);
        if same { return Found(word); }
      }
      var prev := m[word].h.prev;
      if prev == 0 { return Absent; }
      if prev >= word { return Broken; }
      word := prev;
    }
  }
}
