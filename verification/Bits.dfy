/** Bitwise operations on unsigned words, as arithmetic on their binary digits. */
module Bits {

  function Pow2(n: nat): (p: nat)
    ensures 0 < p
  {
    if n == 0 then 1 else 2 * Pow2(n - 1)
  }

  /** Bitwise conjunction. */
  function And(x: nat, y: nat): (r: nat)
    ensures r <= x
  {
    if x == 0 || y == 0 then 0 else (x % 2) * (y % 2) + 2 * And(x / 2, y / 2)
  }

  /** Bitwise exclusive or. */
  function Xor(x: nat, y: nat): nat {
    if x == 0 then y
    else if y == 0 then x
    else (x + y) % 2 + 2 * Xor(x / 2, y / 2)
  }

  lemma {:induction false} Pow2Increases(m: nat, n: nat)
    requires m <= n
    ensures Pow2(m) <= Pow2(n)
  {
    if m < n {
      Pow2Increases(m, n - 1);
    }
  }

  lemma WordSizes()
    ensures Pow2(22) == 0x40_0000 && Pow2(32) == 0x1_0000_0000 && Pow2(64) == 0x1_0000_0000_0000_0000
  {
    assert Pow2(8) == 256;
    assert Pow2(16) == 0x1_0000;
    assert Pow2(24) == 0x100_0000;
    assert Pow2(40) == 0x100_0000_0000 by { assert Pow2(32) == 0x1_0000_0000; }
    assert Pow2(48) == 0x1_0000_0000_0000;
    assert Pow2(56) == 0x100_0000_0000_0000;
  }

  lemma AndDigits(x: nat, y: nat)
    ensures And(x, y) == (x % 2) * (y % 2) + 2 * And(x / 2, y / 2)
  {
  }

  lemma AndNothing(x: nat, y: nat)
    requires x == 0 || y == 0
    ensures And(x, y) == 0
  {
  }

  /** Masking with all ones changes nothing. */
  lemma {:induction false} AndAllOnes(x: nat, width: nat)
    requires x < Pow2(width)
    ensures And(x, Pow2(width) - 1) == x
  {
    hide And;
    if width > 0 {
      var ones := Pow2(width) - 1;
      assert ones % 2 == 1 && ones / 2 == Pow2(width - 1) - 1;
      AndAllOnes(x / 2, width - 1);
      AndDigits(x, ones);
    } else {
      AndNothing(x, 0);
    }
  }

  /** Masking with the top `width - n` of `width` ones removes the remainder modulo 2^n. */
  lemma {:induction false} AndTopOnes(x: nat, width: nat, n: nat)
    requires n <= width && x < Pow2(width)
    ensures Pow2(n) <= Pow2(width) && And(x, Pow2(width) - Pow2(n)) == x - x % Pow2(n)
  {
    hide And;
    Pow2Increases(n, width);
    if n == 0 {
      AndAllOnes(x, width);
    } else {
      AndTopOnes(x / 2, width - 1, n - 1);
      AndDigits(x, Pow2(width) - Pow2(n));
      HalfRemainder(x, Pow2(n - 1));
    }
  }

  lemma HalfRemainder(x: nat, p: nat)
    requires 0 < p
    ensures x % (2 * p) == x % 2 + 2 * ((x / 2) % p)
  {
    var h := x / 2;
    var r := x % 2 + 2 * (h % p);
    assert h == p * (h / p) + h % p;
    assert x == (2 * p) * (h / p) + r by {
      assert x == 2 * h + x % 2;
      assert 2 * (p * (h / p)) == (2 * p) * (h / p);
    }
    DivModUnique(x, 2 * p, h / p, r);
  }

  lemma DivModUnique(x: nat, d: nat, q: nat, r: nat)
    requires 0 < d && x == d * q + r && r < d
    ensures x / d == q && x % d == r
  {
    var k := x / d - q;
    assert x == d * (x / d) + x % d;
    assert d * (x / d) == d * q + d * k;
  }

  lemma {:induction false} XorCommutes(x: nat, y: nat)
    ensures Xor(x, y) == Xor(y, x)
  {
    if x != 0 && y != 0 {
      XorCommutes(x / 2, y / 2);
    }
  }

  lemma {:induction false} XorSelf(x: nat)
    ensures Xor(x, x) == 0
  {
    if x != 0 {
      XorSelf(x / 2);
    }
  }

  lemma XorDigits(x: nat, y: nat)
    ensures Xor(x, y) % 2 == (x + y) % 2 && Xor(x, y) / 2 == Xor(x / 2, y / 2)
  {
    if x != 0 && y != 0 {
      var half: nat := Xor(x / 2, y / 2);
      assert Xor(x, y) == 2 * half + (x + y) % 2;
      hide Xor;
      DivModUnique(Xor(x, y), 2, half, (x + y) % 2);
    }
  }

  lemma DigitsDetermine(x: nat, y: nat)
    requires x % 2 == y % 2 && x / 2 == y / 2
    ensures x == y
  {
  }

  /** Exclusive or with the same word twice changes nothing. */
  lemma {:induction false} XorUndoes(x: nat, y: nat)
    ensures Xor(Xor(x, y), y) == x
  {
    if x == 0 {
      XorSelf(y);
    } else if y != 0 {
      hide Xor;
      XorUndoes(x / 2, y / 2);
      XorDigits(x, y);
      XorDigits(Xor(x, y), y);
      DigitsDetermine(Xor(Xor(x, y), y), x);
    }
  }

  lemma {:induction false} XorBelow(x: nat, y: nat, bits: nat)
    requires x < Pow2(bits) && y < Pow2(bits)
    ensures Xor(x, y) < Pow2(bits)
  {
    if x != 0 && y != 0 {
      XorBelow(x / 2, y / 2, bits - 1);
    }
  }
}
