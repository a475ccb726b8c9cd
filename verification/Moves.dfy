/** CMOVE, WMOVE, LMOVE and XMOVE: the same loops over elements of one, two, four and eight bytes. */
module Moves {
  /** Memory after n bytes have been moved from src to dst all at once. */
  function Moved(m: seq<nat>, src: nat, dst: nat, n: nat): (r: seq<nat>)
    requires src + n <= |m| && dst + n <= |m|
    ensures |r| == |m|
  {
    seq(|m|, i requires 0 <= i < |m| => if dst <= i < dst + n then m[src + (i - dst)] else m[i])
  }

  predicate IsWidth(w: nat) {
    w == 1 || w == 2 || w == 4 || w == 8
  }

  /** *to = *from for an element of w bytes: it is read as a whole, then written. */
  method CopyElement(a: array<nat>, from: nat, to: nat, w: nat)
    requires from + w <= a.Length && to + w <= a.Length
    modifies a
    ensures forall i :: 0 <= i < a.Length ==>
      a[i] == if to <= i < to + w then old(a[from + (i - to)]) else old(a[i])
  {
    var element := a[from..from + w];
    var k := 0;
    while k < w
      invariant k <= w
      invariant forall i :: 0 <= i < a.Length ==> a[i] == if to <= i < to + k then element[i - to] else old(a[i])
    {
      a[to + k] := element[k];
      k := k + 1;
    }
  }

  /** The bytes of n elements. */
  function Bytes(n: nat, w: nat): nat {
    n * w
  }

  lemma OneMore(n: nat, w: nat)
    requires n > 0
    ensures Bytes(n, w) == Bytes(n - 1, w) + w
  {
  }

  lemma NoBytes(w: nat)
    ensures Bytes(0, w) == 0
  {
  }

  method Backwards(a: array<nat>, src0: nat, dst0: nat, length0: nat, w: nat)
    requires src0 + Bytes(length0, w) <= a.Length && dst0 + Bytes(length0, w) <= a.Length && src0 <= dst0
    modifies a
    ensures a[..] == Moved(old(a[..]), src0, dst0, Bytes(length0, w))
  {
    hide Bytes;
    var src := src0 + Bytes(length0, w);
    var dst := dst0 + Bytes(length0, w);
    var length := length0;
    NoBytes(w);
    while length > 0
      invariant 0 <= length <= length0
      invariant src == src0 + Bytes(length, w) && dst == dst0 + Bytes(length, w) <= dst0 + Bytes(length0, w)
      invariant forall i :: 0 <= i < a.Length ==>
        a[i] == if dst <= i < dst0 + Bytes(length0, w) then old(a[src0 + (i - dst0)]) else old(a[i])
    {
      OneMore(length, w);
      length := length - 1;
      dst := dst - w;
      src := src - w;
      CopyElement(a, src, dst, w);
    }
  }

  method Forwards(a: array<nat>, src0: nat, dst0: nat, length0: nat, w: nat)
    requires src0 + Bytes(length0, w) <= a.Length && dst0 + Bytes(length0, w) <= a.Length
    requires dst0 <= src0 || src0 + Bytes(length0, w) <= dst0
    modifies a
    ensures a[..] == Moved(old(a[..]), src0, dst0, Bytes(length0, w))
  {
    hide Bytes, Moved, Partly;
    var src, dst, length := src0, dst0, length0;
    ghost var n, m := Bytes(length0, w), a[..];
    Unmoved(m, src0, dst0);
    while length > 0
      invariant 0 <= length <= length0
      invariant src + Bytes(length, w) == src0 + n && dst + Bytes(length, w) == dst0 + n && dst0 <= dst
      invariant Partly(m, a[..], src0, dst0, dst)
    {
      OneMore(length, w);
      length := length - 1;
      NextElement(a, m, src0, dst0, src, dst, w);
      dst := dst + w;
      src := src + w;
    }
    NoBytes(w);
    AllMoved(m, a[..], src0, dst0, n);
  }

  /** One step of the loop: the element at src goes to dst. */
  method NextElement(a: array<nat>, ghost m: seq<nat>, ghost src0: nat, ghost dst0: nat, src: nat, dst: nat, w: nat)
    requires src + w <= a.Length && dst + w <= a.Length && |m| == a.Length
    requires Partly(m, a[..], src0, dst0, dst) && src == src0 + (dst - dst0)
    requires dst0 <= src0 || src + w <= dst0
    modifies a
    ensures Partly(m, a[..], src0, dst0, dst + w)
  {
    hide Partly;
    ghost var before := a[..];
    CopyElement(a, src, dst, w);
    Further(m, before, a[..], src0, dst0, dst, w);
  }

  /** The bytes from dst0 up to dst have been moved. */
  ghost predicate Partly(m: seq<nat>, r: seq<nat>, src0: nat, dst0: nat, dst: nat) {
    && |r| == |m| && dst0 <= dst <= |m| && src0 + (dst - dst0) <= |m|
    && (forall i :: dst0 <= i < dst ==> r[i] == m[src0 + (i - dst0)])
    && (forall i :: 0 <= i < dst0 || dst <= i < |m| ==> r[i] == m[i])
  }

  lemma Unmoved(m: seq<nat>, src0: nat, dst0: nat)
    requires src0 <= |m| && dst0 <= |m|
    ensures Partly(m, m, src0, dst0, dst0)
  {
  }

  lemma AllMoved(m: seq<nat>, r: seq<nat>, src0: nat, dst0: nat, n: nat)
    requires src0 + n <= |m| && dst0 + n <= |m| && Partly(m, r, src0, dst0, dst0 + n)
    ensures r == Moved(m, src0, dst0, n)
  {
  }

  /** One element further: what it is copied from has not been overwritten yet. */
  lemma Further(m: seq<nat>, r: seq<nat>, t: seq<nat>, src0: nat, dst0: nat, dst: nat, w: nat)
    requires Partly(m, r, src0, dst0, dst) && |t| == |m| && dst + w <= |m| && src0 + (dst - dst0) + w <= |m|
    requires dst0 <= src0 || src0 + (dst - dst0) + w <= dst0
    requires forall i :: dst <= i < dst + w ==> t[i] == r[src0 + (dst - dst0) + (i - dst)]
    requires forall i :: 0 <= i < dst || dst + w <= i < |m| ==> t[i] == r[i]
    ensures Partly(m, t, src0, dst0, dst + w)
  {
    forall i | dst <= i < dst + w ensures t[i] == m[src0 + (i - dst0)] {
      var p := src0 + (dst - dst0) + (i - dst);
      assert r[p] == m[p];
    }
  }

  /** forth_o_cmove, forth_o_wmove, forth_o_lmove, forth_o_xmove, for the element width w: the destination
      gets the old source bytes and nothing else changes, however the two overlap. */
  method Move(a: array<nat>, src: nat, dst: nat, length: nat, w: nat)
    requires IsWidth(w) && src + Bytes(length, w) <= a.Length && dst + Bytes(length, w) <= a.Length
    modifies a
    ensures a[..] == Moved(old(a[..]), src, dst, Bytes(length, w))
  {
    if src < dst && dst < src + Bytes(length, w) {
      Backwards(a, src, dst, length, w);
    } else {
      Forwards(a, src, dst, length, w);
    }
  }
}
