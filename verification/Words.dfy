/** 64-bit words with the bitwise operators the opcodes use, as functions on naturals; wide strings. */
module Words {
  const TWO64: nat := 0x1_0000_0000_0000_0000
  const TWO63: nat := 0x8000_0000_0000_0000
  /** FORTH_TRUE is -1 stored in a uintptr_t. */
  const TRUE: nat := 0xFFFF_FFFF_FFFF_FFFF

  function Wrap(x: int): nat {
    x % TWO64
  }

  function Flag(b: bool): nat {
    if b then TRUE else 0
  }

  /** The value of a cell read as intptr_t. */
  function Signed(x: nat): int {
    if x < TWO63 then x else x - TWO64
  }

  function And(x: nat, y: nat): nat {
    if x == 0 || y == 0 then 0 else (x % 2) * (y % 2) + 2 * And(x / 2, y / 2)
  }

  lemma MaskStep(x: nat, y: nat)
    requires y % 2 == 1
    ensures And(x, y) == x % 2 + 2 * And(x / 2, y / 2)
  {
  }

  lemma MaskNone(x: nat)
    ensures And(x, 0) == 0
  {
  }

  /** The low four bits. */
  lemma LowNibble(x: nat)
    ensures And(x, 15) == x % 16
  {
    hide And;
    MaskStep(x, 15);
    MaskStep(x / 2, 7);
    MaskStep(x / 4, 3);
    MaskStep(x / 8, 1);
    MaskNone(x / 16);
  }

  /** Bit 1 on its own. */
  lemma BitOne(x: nat)
    ensures And(x, 2) == if (x / 2) % 2 == 1 then 2 else 0
  {
    if x > 0 {
      MaskStep(x / 2, 1);
      assert And(x / 4, 0) == 0;
    }
  }

  function Or(x: nat, y: nat): nat {
    if x == 0 then y else if y == 0 then x
    else (if x % 2 == 1 || y % 2 == 1 then 1 else 0) + 2 * Or(x / 2, y / 2)
  }

  function Xor(x: nat, y: nat): nat {
    if x == 0 then y else if y == 0 then x
    else (if x % 2 != y % 2 then 1 else 0) + 2 * Xor(x / 2, y / 2)
  }

  /** Bit k of x. */
  predicate Bit(x: nat, k: nat) {
    if k == 0 then x % 2 == 1 else Bit(x / 2, k - 1)
  }

  /** The three operators act on each bit by itself. */
  lemma Bitwise(x: nat, y: nat, k: nat)
    ensures Bit(And(x, y), k) <==> Bit(x, k) && Bit(y, k)
    ensures Bit(Or(x, y), k) <==> Bit(x, k) || Bit(y, k)
    ensures Bit(Xor(x, y), k) <==> Bit(x, k) != Bit(y, k)
  {
    hide And, Or, Xor, Bit;
    AndBit(x, y, k);
    OrBit(x, y, k);
    XorBit(x, y, k);
  }

  lemma {:induction false} AndBit(x: nat, y: nat, k: nat)
    ensures Bit(And(x, y), k) <==> Bit(x, k) && Bit(y, k)
    decreases k
  {
    hide And;
    if k == 0 {
      AndLow(x, y);
    } else {
      AndHalved(x, y);
      AndBit(x / 2, y / 2, k - 1);
    }
  }

  lemma AndLow(x: nat, y: nat)
    ensures And(x, y) % 2 == if x % 2 == 1 && y % 2 == 1 then 1 else 0
  {
    if x != 0 && y != 0 { Half(if x % 2 == 1 && y % 2 == 1 then 1 else 0, And(x / 2, y / 2)); }
  }

  lemma {:induction false} OrBit(x: nat, y: nat, k: nat)
    ensures Bit(Or(x, y), k) <==> Bit(x, k) || Bit(y, k)
    decreases k
  {
    hide Or;
    if k == 0 {
      OrLow(x, y);
    } else {
      OrHalved(x, y);
      OrBit(x / 2, y / 2, k - 1);
    }
  }

  lemma OrLow(x: nat, y: nat)
    ensures Or(x, y) % 2 == if x % 2 == 1 || y % 2 == 1 then 1 else 0
  {
    Half(if x % 2 == 1 || y % 2 == 1 then 1 else 0, Or(x / 2, y / 2));
  }

  lemma {:induction false} XorBit(x: nat, y: nat, k: nat)
    ensures Bit(Xor(x, y), k) <==> Bit(x, k) != Bit(y, k)
    decreases k
  {
    hide Xor;
    if k == 0 {
      XorLow(x, y);
    } else {
      XorHalved(x, y);
      XorBit(x / 2, y / 2, k - 1);
    }
  }

  lemma XorLow(x: nat, y: nat)
    ensures Xor(x, y) % 2 == if x % 2 != y % 2 then 1 else 0
  {
    Half(if x % 2 != y % 2 then 1 else 0, Xor(x / 2, y / 2));
  }

  lemma Half(b: nat, r: nat)
    requires b <= 1
    ensures (b + 2 * r) / 2 == r && (b + 2 * r) % 2 == b
  {
  }

  lemma AndHalved(x: nat, y: nat)
    ensures And(x, y) / 2 == And(x / 2, y / 2)
  {
    if x != 0 && y != 0 {
      Half(if x % 2 == 1 && y % 2 == 1 then 1 else 0, And(x / 2, y / 2));
    }
  }

  lemma OrHalved(x: nat, y: nat)
    ensures Or(x, y) / 2 == Or(x / 2, y / 2)
  {
    Half(if x % 2 == 1 || y % 2 == 1 then 1 else 0, Or(x / 2, y / 2));
  }

  lemma XorHalved(x: nat, y: nat)
    ensures Xor(x, y) / 2 == Xor(x / 2, y / 2)
  {
    Half(if x % 2 != y % 2 then 1 else 0, Xor(x / 2, y / 2));
  }

  function Pow2(n: nat): (r: nat)
    ensures r > 0
  {
    if n == 0 then 1 else 2 * Pow2(n - 1)
  }

  /** The character codes of a C wide-string literal. */
  function Codes(s: string): (r: seq<nat>)
    ensures |r| == |s|
  {
    seq(|s|, i requires 0 <= i < |s| => s[i] as nat)
  }
}
