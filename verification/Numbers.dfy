/** Hex text and numbers: NUMBER? and >NUMBER as the loops of forth.c, debug_putnhex, and that
    parsing undoes printing. */
module Numbers {
  import opened Words
  import opened Machine
  import opened Printing

  /** wisxdigit. */
  method WIsXDigit(c: nat) returns (r: bool)
    ensures r == IsHexDigit(c)
  {
    if c < '0' as nat { return false; }
    if c > 'F' as nat { return false; }
    if c <= '9' as nat { return true; }
    if c >= 'A' as nat { return true; }
    return false;
  }

  /** NUMBER? knows exactly the sixteen digits that NHEX. prints, each with its value. */
  lemma HexDigits(c: nat)
    ensures IsHexDigit(c) <==> exists d: nat :: d < 16 && HexChar(d) == c
    ensures IsHexDigit(c) ==> HexValue(c) < 16 && HexChar(HexValue(c)) == c
    ensures IsHexDigit(c) <==> c in Codes("0123456789ABCDEF")
  {
    if IsHexDigit(c) { assert HexChar(HexValue(c)) == c; }
    var table := Codes("0123456789ABCDEF");
    assert |table| == 16 && forall d: nat :: d < 16 ==> table[d] == HexChar(d);
    if IsHexDigit(c) { assert table[HexValue(c)] == c; }
  }

  /** forth_o_isnumber, on the characters at waddr. */
  method IsNumberLoop(t: seq<nat>) returns (flag: bool)
    ensures flag == IsNumberText(t)
  {
    var w := |t|;
    if w < 2 { return false; }
    if t[0] != 36 { return false; }
    var wp := 1;
    w := w - 1;
    while w > 0
      invariant wp + w == |t| && 1 <= wp <= |t|
      invariant forall i :: 1 <= i < wp ==> IsHexDigit(t[i])
    {
      var digit := WIsXDigit(t[wp]);
      if !digit { return false; }
      wp := wp + 1;
      w := w - 1;
    }
    flag := true;
  }

  /** forth_o_tonumber, on the characters at waddr; past sixteen digits the shift is undefined. */
  method ToNumberLoop(t: seq<nat>) returns (tos: nat)
    requires |t| <= 17 || t[0] != 36
    ensures tos == NumberOf(t)
  {
    tos := 0;
    var w := |t|;
    if w < 2 { return; }
    if t[0] != 36 { return; }
    var wp := 1;
    w := w - 1;
    while w > 0
      invariant wp + w == |t| && 1 <= wp <= |t|
      invariant Digits(t[wp..], tos) == NumberOf(t)
    {
      assert t[wp..][1..] == t[wp + 1..];
      tos := Or(tos, Wrap(HexValue(t[wp]) * Pow2(4 * (w - 1))));
      wp := wp + 1;
      w := w - 1;
    }
  }

  /** A logical shift right. */
  function Shifted(x: nat, y: nat): (r: nat)
    ensures r == x / Pow2(y)
  {
    Quotient(x, Pow2(y));
    x / Pow2(y)
  }

  lemma Quotient(x: nat, y: nat)
    requires y > 0
    ensures x / y >= 0
  {
  }

  /** Digit c of a number, counted from the right, as debug_putnhex shifts and masks it out. */
  function Nibble(number: nat, c: nat): (r: nat)
    requires c > 0
    ensures r == Shifted(number, (c - 1) * 4) % 16
  {
    LowNibble(Shifted(number, (c - 1) * 4));
    And(Shifted(number, (c - 1) * 4), 0xF)
  }

  lemma NibbleShown(number: nat, c: nat)
    requires c > 0
    ensures HexText(number, c) == [HexChar(Nibble(number, c))] + HexText(number, c - 1)
  {
    hide Pow2, And;
  }

  /** debug_putnhex: the digits it puts out, one by one. */
  method PutNHex(number: nat, width: nat) returns (out: seq<nat>)
    requires width <= 16
    ensures out == HexText(number, width)
  {
    hide Nibble, HexChar, HexText;
    out := [];
    var w := width;
    while w > 0
      invariant 0 <= w <= width
      invariant out + HexText(number, w) == HexText(number, width)
    {
      NibbleShown(number, w);
      var digit := HexChar(Nibble(number, w));
      assert out + ([digit] + HexText(number, w - 1)) == (out + [digit]) + HexText(number, w - 1);
      out := out + [digit];
      w := w - 1;
    }
    assert HexText(number, 0) == [];
  }

  lemma Pow2Next(k: nat)
    ensures Pow2(0) == 1 && Pow2(k + 1) == 2 * Pow2(k)
  {
  }

  lemma TwiceProduct(x: nat, y: nat)
    ensures 2 * (x * y) == (2 * x) * y
  {
  }

  lemma {:induction false} Pow2Add(a: nat, b: nat)
    ensures Pow2(a + b) == Pow2(a) * Pow2(b)
    decreases a
  {
    hide Pow2;
    if a == 0 {
      Pow2Next(0);
    } else {
      Pow2Add(a - 1, b);
      Pow2Next(a - 1);
      Pow2Next(a + b - 1);
      TwiceProduct(Pow2(a - 1), Pow2(b));
    }
  }

  lemma Pow2Four(c: nat)
    requires c > 0
    ensures Pow2(4 * c) == 16 * Pow2(4 * (c - 1))
  {
    Pow2Add(4, 4 * (c - 1));
    assert Pow2(4) == 16;
  }

  lemma MulGap(a: nat, b: nat, k: nat)
    requires a < b
    ensures a * k + k <= b * k
  {
    MulLe(a + 1, b, k);
    assert (a + 1) * k == a * k + k;
  }

  lemma MulLe(a: nat, b: nat, k: nat)
    requires a <= b
    ensures a * k <= b * k
  {
  }

  lemma OrNone(x: nat)
    ensures Or(0, x) == x && Or(x, 0) == x
  {
  }

  lemma OrBits(x: nat, y: nat)
    requires x > 0 && y > 0
    ensures Or(x, y) == (if x % 2 == 1 || y % 2 == 1 then 1 else 0) + 2 * Or(x / 2, y / 2)
  {
  }

  lemma OrStep(x: nat, y: nat, b: nat)
    requires y == 2 * x
    ensures Or(y, b) == b % 2 + 2 * Or(x, b / 2)
  {
    hide Or;
    assert y / 2 == x && y % 2 == 0;
    if x == 0 {
      OrNone(b);
      OrNone(b / 2);
    } else if b == 0 {
      OrNone(y);
      OrNone(x);
    } else {
      OrBits(y, b);
    }
  }

  /** Or of numbers that share no bits is their sum. */
  lemma {:induction false} OrDisjoint(a: nat, b: nat, k: nat)
    requires b < Pow2(k)
    ensures Or(a * Pow2(k), b) == a * Pow2(k) + b
    decreases k
  {
    hide Or;
    if k > 0 {
      var x := a * Pow2(k - 1);
      Doubled(a, Pow2(k - 1));
      OrStep(x, a * Pow2(k), b);
      OrDisjoint(a, b / 2, k - 1);
    } else {
      OrZero(a);
    }
  }

  lemma Doubled(a: nat, p: nat)
    ensures a * (2 * p) == 2 * (a * p)
  {
  }

  lemma OrZero(a: nat)
    ensures Or(a * Pow2(0), 0) == a * Pow2(0)
  {
  }

  lemma Divided(n: nat, m: nat)
    requires m > 0
    ensures n == (n / m) * m + n % m && 0 <= n % m < m && n / m >= 0
  {
  }

  lemma Spread(a: nat, d: nat, m: nat)
    ensures (a * 16 + d) * m == a * (16 * m) + d * m
  {
  }

  /** The low digits of n, and one more. */
  lemma SplitDigit(n: nat, m: nat)
    requires m > 0
    ensures n % (16 * m) == (n / m % 16) * m + n % m
  {
    var q := n / m;
    var d := q % 16;
    var r := n % m;
    var low := d * m + r;
    Divided(n, m);
    Divided(q, 16);
    Spread(q / 16, d, m);
    MulLe(d, 15, m);
    DivUnique(n, 16 * m, q / 16, low);
  }

  lemma DivUnique(n: nat, k: nat, q: nat, r: nat)
    requires k > 0 && r < k && n == q * k + r
    ensures n % k == r
  {
    var p := n / k;
    assert n == p * k + n % k;
    if p < q {
      MulGap(p, q, k);
    } else if q < p {
      MulGap(q, p, k);
    }
  }

  lemma HexCharValue(d: nat)
    requires d < 16
    ensures HexValue(HexChar(d)) == d && IsHexDigit(HexChar(d))
  {
  }

  lemma {:induction false} HexTextDigits(n: nat, c: nat)
    ensures forall i :: 0 <= i < c ==> IsHexDigit(HexText(n, c)[i])
    decreases c
  {
    if c > 0 {
      HexTextDigits(n, c - 1);
      HexCharValue(n / Pow2(4 * (c - 1)) % 16);
    }
  }

  lemma WordSize()
    ensures Pow2(64) == TWO64
  {
    assert Pow2(4) == 16;
    Pow2Add(4, 4);
    Pow2Add(8, 8);
    Pow2Add(16, 16);
    Pow2Add(32, 32);
  }

  /** A digit shifted into one of sixteen places fits a 64-bit word. */
  lemma FitsWord(d: nat, c: nat)
    requires d < 16 && 0 < c <= 16
    ensures Wrap(d * Pow2(4 * (c - 1))) == d * Pow2(4 * (c - 1)) < Pow2(4 * c)
  {
    hide Pow2;
    var m := Pow2(4 * (c - 1));
    Pow2Four(c);
    Pow2Add(4 * c, 64 - 4 * c);
    WordSize();
    MulLe(1, Pow2(64 - 4 * c), Pow2(4 * c));
    assert Pow2(4 * c) <= TWO64;
    MulLe(d, 15, m);
    InWord(d * m);
  }

  lemma InWord(x: nat)
    requires x < TWO64
    ensures Wrap(x) == x
  {
  }

  lemma Regroup(a: nat, d: nat, m: nat)
    ensures (16 * a + d) * m == a * (16 * m) + d * m
  {
  }

  /** Taking one more digit into the accumulator. */
  lemma TakeDigit(a: nat, d: nat, c: nat)
    requires d < 16 && 0 < c <= 16
    ensures Or(a * Pow2(4 * c), Wrap(d * Pow2(4 * (c - 1)))) == (16 * a + d) * Pow2(4 * (c - 1))
  {
    hide Or, Wrap, Pow2;
    var m := Pow2(4 * (c - 1));
    FitsWord(d, c);
    OrDisjoint(a, d * m, 4 * c);
    Pow2Four(c);
    Regroup(a, d, m);
  }

  /** Parsing the digits of n onto a number whose low 4c bits are clear. */
  lemma {:induction false} DigitsOfHexText(n: nat, c: nat, a: nat)
    requires c <= 16
    ensures Digits(HexText(n, c), a * Pow2(4 * c)) == a * Pow2(4 * c) + n % Pow2(4 * c)
    decreases c
  {
    hide Or, HexChar, HexValue, Wrap, Pow2;
    if c > 0 {
      var m := Pow2(4 * (c - 1));
      var d := n / m % 16;
      DigitsStep(n, c, a * Pow2(4 * c));
      TakeDigit(a, d, c);
      DigitsOfHexText(n, c - 1, 16 * a + d);
      Pow2Four(c);
      SplitDigit(n, m);
      Regroup(a, d, m);
    } else {
      Pow2Zero(n);
    }
  }

  lemma DigitsStep(n: nat, c: nat, acc: nat)
    requires 0 < c
    ensures var m := Pow2(4 * (c - 1));
      Digits(HexText(n, c), acc) == Digits(HexText(n, c - 1), Or(acc, Wrap(n / m % 16 * m)))
  {
    hide Or, HexChar, HexValue, Wrap, Pow2;
    var t := HexText(n, c);
    var d := n / Pow2(4 * (c - 1)) % 16;
    assert t[0] == HexChar(d) && t[1..] == HexText(n, c - 1);
    HexCharValue(d);
  }

  lemma Pow2Zero(n: nat)
    ensures Pow2(4 * 0) == 1 && n % Pow2(4 * 0) == 0
  {
  }

  /** Parsing undoes printing: `$` and the c digits NHEX. prints for n are a number, and it is n
      modulo 16 to the c. */
  lemma HexRoundTrip(n: nat, c: nat)
    requires 1 <= c <= 16
    ensures IsNumberText([36] + HexText(n, c))
    ensures NumberOf([36] + HexText(n, c)) == n % Pow2(4 * c)
  {
    var t := [36] + HexText(n, c);
    HexTextDigits(n, c);
    assert forall i :: 1 <= i < |t| ==> t[i] == HexText(n, c)[i - 1];
    assert t[1..] == HexText(n, c);
    DigitsOfHexText(n, c, 0);
    assert 0 * Pow2(4 * c) == 0;
  }

  /** XHEX. prints all of a 64-bit number. */
  lemma XHexRoundTrip(n: nat)
    requires n < TWO64
    ensures NumberOf([36] + HexText(n, 16)) == n
  {
    hide Pow2, NumberOf;
    HexRoundTrip(n, 16);
    WordSize();
  }
}
