/** What the arithmetic and comparison opcodes compute, on 64-bit operands. */
module Arithmetic {
  import opened Words
  import opened Opcodes
  import opened Machine

  predicate Word64(x: nat) {
    x < TWO64
  }

  /** + and - undo each other, and carry and borrow out of 64 bits are dropped; 1+, 1- and 2* are special cases. */
  lemma SumsUndo(x: nat, y: nat)
    requires Word64(x) && Word64(y)
    ensures var s := Result(Plus, x, y); Word64(s) && (s == x + y || s + TWO64 == x + y)
    ensures Result(Minus, Result(Plus, x, y), y) == x && Result(Plus, Result(Minus, x, y), y) == x
    ensures Result(OnePlus, 0, y) == Result(Plus, y, 1) && Result(OneMinus, 0, y) == Result(Minus, y, 1)
    ensures Result(TwoMulti, 0, y) == Result(Plus, y, y) == Result(Multi, y, 2)
  {
  }

  /** The product, but for a multiple of 2 to the 64. */
  lemma Product(x: nat, y: nat) returns (q: nat)
    ensures Word64(Result(Multi, x, y)) && Result(Multi, x, y) + TWO64 * q == x * y
  {
    q := (x * y) / TWO64;
  }

  /** The quotient and the remainder belong together. */
  lemma Divides(x: nat, y: nat)
    requires y > 0
    ensures Result(Divid, x, y) * y + Result(Mod, x, y) == x && Result(Mod, x, y) < y
  {
  }

  /** NEGATE makes the number that the operand adds up to zero with. */
  lemma Negates(y: nat)
    requires Word64(y)
    ensures Word64(Result(Negate, 0, y)) && Result(Plus, Result(Negate, 0, y), y) == 0
  {
  }

  /** The order of two's complement numbers is that of naturals with the top bit turned over. */
  function Biased(x: nat): nat {
    (x + TWO63) % TWO64
  }

  /** < and > compare signed numbers, U< and U> naturals; they answer TRUE or 0. */
  lemma Compares(x: nat, y: nat)
    requires Word64(x) && Word64(y)
    ensures Result(Lt, x, y) == Result(Gt, y, x) == if Biased(x) < Biased(y) then TRUE else 0
    ensures Result(ULt, x, y) == Result(UGt, y, x) == if x < y then TRUE else 0
  {
    hide Result;
    ComparesSigned(x, y);
    ComparesUnsigned(x, y);
    SignedBiased(x);
    SignedBiased(y);
  }

  lemma SignedBiased(x: nat)
    requires Word64(x)
    ensures Biased(x) == Signed(x) + TWO63
  {
  }

  lemma ComparesSigned(x: nat, y: nat)
    ensures Result(Lt, x, y) == Result(Gt, y, x) == if Signed(x) < Signed(y) then TRUE else 0
  {
    hide Signed;
  }

  lemma ComparesUnsigned(x: nat, y: nat)
    ensures Result(ULt, x, y) == Result(UGt, y, x) == if x < y then TRUE else 0
  {
  }

  /** = and <> are opposites, 0= and 0<> compare with zero. */
  lemma ComparesEqual(x: nat, y: nat)
    ensures Result(Eq, x, y) == if x == y then TRUE else 0
    ensures Result(Ne, x, y) == if x == y then 0 else TRUE
    ensures Result(EqZ, 0, y) == Result(Eq, y, 0) && Result(NeZ, 0, y) == Result(Ne, y, 0)
  {
  }

  lemma {:induction false} AllOnes(n: nat, k: nat)
    requires k < n
    ensures Bit(Pow2(n) - 1, k)
    decreases k
  {
    if k > 0 { AllOnes(n - 1, k - 1); }
  }

  lemma Ones64()
    ensures Pow2(64) == TWO64
  {
    hide Pow2;
    One();
    Times256(0);
    Times256(8);
    Times256(16);
    Times256(24);
    Times256(32);
    Times256(40);
    Times256(48);
    Times256(56);
  }

  lemma Times256(n: nat)
    ensures Pow2(n + 8) == 256 * Pow2(n)
  {
    hide Pow2;
    Times4(n);
    Times4(n + 2);
    Times4(n + 4);
    Times4(n + 6);
  }

  lemma Times4(n: nat)
    ensures Pow2(n + 2) == 4 * Pow2(n)
  {
    assert Pow2(n + 1) == 2 * Pow2(n);
  }

  lemma {:induction false} XorBound(x: nat, y: nat, n: nat)
    requires x < Pow2(n) && y < Pow2(n)
    ensures Xor(x, y) < Pow2(n)
    decreases n
  {
    if n > 0 && x > 0 && y > 0 { XorBound(x / 2, y / 2, n - 1); }
  }

  /** INVERT turns over each of the 64 bits. */
  lemma Inverts(y: nat, k: nat)
    requires Word64(y) && k < 64
    ensures Word64(Result(Invert, 0, y)) && (Bit(Result(Invert, 0, y), k) <==> !Bit(y, k))
  {
    hide Pow2, Xor, Bit;
    Ones64();
    AllOnes(64, k);
    Bitwise(y, TRUE, k);
    XorBound(y, TRUE, 64);
  }

  lemma Doubled(x: nat, y: nat)
    requires y > 0
    ensures x * Pow2(y) == 2 * (x * Pow2(y - 1))
  {
    Distribute(x, Pow2(y - 1));
  }

  lemma Distribute(x: nat, p: nat)
    ensures x * (2 * p) == 2 * (x * p)
  {
  }

  lemma {:induction false} ProductBit(x: nat, y: nat, k: nat)
    ensures Bit(x * Pow2(y), k) <==> k >= y && Bit(x, k - y)
    decreases y
  {
    hide Pow2;
    if y == 0 {
      assert Pow2(0) == 1 by { One(); }
    } else {
      Doubled(x, y);
      if k > 0 { ProductBit(x, y - 1, k - 1); }
    }
  }

  lemma One()
    ensures Pow2(0) == 1
  {
  }

  /** Below bit n, a number and its remainder by 2 to the n have the same bits. */
  lemma {:induction false} LowBits(z: nat, n: nat, k: nat)
    requires k < n
    ensures Bit(z % Pow2(n), k) <==> Bit(z, k)
    decreases k
  {
    hide Pow2;
    HalfRemainder(z, n);
    if k > 0 { LowBits(z / 2, n - 1, k - 1); }
  }

  lemma HalfRemainder(z: nat, n: nat)
    requires n > 0
    ensures (z % Pow2(n)) / 2 == (z / 2) % Pow2(n - 1) && (z % Pow2(n)) % 2 == z % 2
  {
    HalfParts(z, Pow2(n - 1), Pow2(n));
  }

  function Div(z: nat, p: nat): nat
    requires p > 0
  {
    z / p
  }

  function Rem(z: nat, p: nat): nat
    requires p > 0
  {
    z % p
  }

  function Times(p: nat, q: nat): nat {
    p * q
  }

  /** Halving a number halves its quotient by w = 2p, and its remainder. */
  lemma HalfParts(z: nat, p: nat, w: nat)
    requires p > 0 && w == 2 * p
    ensures Div(z / 2, p) == Div(z, w) && Rem(z / 2, p) == Rem(z, w) / 2 && Rem(z, w) % 2 == z % 2
  {
    hide Div, Rem, Times;
    var q, r := Div(z, w), Rem(z, w);
    Parts(z, w);
    Regrouped(p, w, q);
    HalfSum(z, Times(p, q), r);
    Remainder(z / 2, p, q, r / 2);
  }

  lemma Parts(z: nat, p: nat)
    requires p > 0
    ensures z == Times(p, Div(z, p)) + Rem(z, p) && Rem(z, p) < p
  {
  }

  lemma Regrouped(p: nat, w: nat, q: nat)
    requires w == 2 * p
    ensures Times(w, q) == 2 * Times(p, q)
  {
  }

  lemma HalfSum(z: nat, m: nat, r: nat)
    requires z == 2 * m + r
    ensures z / 2 == m + r / 2 && z % 2 == r % 2
  {
  }

  lemma Remainder(z: nat, p: nat, q: nat, r: nat)
    requires z == Times(p, q) + r && r < p
    ensures Rem(z, p) == r && Div(z, p) == q
  {
    hide Div, Rem;
    var d := Div(z, p) - q;
    Parts(z, p);
    Difference(p, Div(z, p), q);
    if d > 0 { AtLeast(p, d); }
    if d < 0 { AtLeast(p, -d); }
  }

  lemma Difference(p: nat, a: int, b: int)
    ensures p * (a - b) == p * a - p * b && p * (b - a) == p * b - p * a
  {
  }

  lemma AtLeast(p: nat, d: int)
    requires d > 0
    ensures p * d >= p
  {
  }

  /** << moves every bit up by y; what leaves the word is lost. */
  lemma ShiftsLeft(x: nat, y: nat, k: nat)
    requires y < 64 && k < 64
    ensures Word64(Result(LShift, x, y)) && (Bit(Result(LShift, x, y), k) <==> k >= y && Bit(x, k - y))
  {
    hide Pow2, Bit;
    Ones64();
    ProductBit(x, y, k);
    LowBits(x * Pow2(y), 64, k);
  }

  lemma HalfQuotient(x: nat, y: nat)
    requires y > 0
    ensures x / Pow2(y) == (x / 2) / Pow2(y - 1)
  {
    HalfParts(x, Pow2(y - 1), Pow2(y));
  }

  /** >> moves every bit down by y. */
  lemma {:induction false} ShiftsRight(x: nat, y: nat, k: nat)
    ensures Bit(Result(RShift, x, y), k) <==> Bit(x, k + y)
    decreases y
  {
    hide Pow2;
    if y == 0 {
      One();
    } else {
      HalfQuotient(x, y);
      ShiftsRight(x / 2, y - 1, k);
    }
  }

  /** 2/ shifts by one; a cell shifted right is no larger. */
  lemma Halves(y: nat)
    ensures Result(TwoDivid, 0, y) == Result(RShift, y, 1)
  {
  }
}
