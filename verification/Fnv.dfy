/** The 64-bit FNV-1a fold (with the offset basis of the source) that fingerprints writes and checksums cache
    values. */
module Fnv {
  import opened Bits

  const WORD: nat := 0x1_0000_0000_0000_0000

  type Word = x: nat | x < WORD

  type Byte = x: nat | x < 256

  const OFFSET_BASIS: Word := 1469598103934665603

  const PRIME: nat := 1099511628211

  /** The inverse of `PRIME` modulo 2^64. */
  const INVERSE: nat := 14886173955864302971

  function Mix(h: Word, b: Byte): Word {
    Xor(h, b) * PRIME % WORD
  }

  /** Mixing the bytes of `data` into `h`, first byte first. */
  function Fold(h: Word, data: seq<Byte>): Word {
    if data == [] then h else Mix(Fold(h, data[..|data| - 1]), data[|data| - 1])
  }

  function Hash(data: seq<Byte>): Word {
    Fold(OFFSET_BASIS, data)
  }

  method HashBytes(data: seq<Byte>) returns (h: Word)
    ensures h == Hash(data)
  {
    h := OFFSET_BASIS;
    for i := 0 to |data|
      invariant h == Hash(data[..i])
    {
      assert data[..i + 1][..i] == data[..i];
      h := Xor(h, data[i]) * PRIME % WORD;
    }
    assert data[..|data|] == data;
  }

  /** Multiplication by the odd prime loses nothing modulo 2^64. */
  lemma TimesPrimeInjective(x: Word, y: Word)
    requires x * PRIME % WORD == y * PRIME % WORD
    ensures x == y
  {
    var k := x * PRIME / WORD - y * PRIME / WORD;
    assert (x - y) * PRIME == k * WORD;
    var q := PRIME * INVERSE / WORD;
    assert PRIME * INVERSE == 1 + q * WORD;
    assert (x - y) * (PRIME * INVERSE) == k * WORD * INVERSE;
    assert x - y == WORD * (k * INVERSE - (x - y) * q);
  }

  /** Mixing is injective in the word and in the byte. */
  lemma MixInjective(h: Word, k: Word, b: Byte, c: Byte)
    requires Mix(h, b) == Mix(k, c)
    ensures h == k <==> b == c
  {
    WordSizes();
    XorBelow(h, b, 64);
    XorBelow(k, c, 64);
    TimesPrimeInjective(Xor(h, b), Xor(k, c));
    XorUndoes(h, b);
    XorUndoes(k, c);
    XorUndoes(b, h);
    XorUndoes(c, k);
    XorCommutes(h, b);
    XorCommutes(k, c);
  }

  lemma {:induction false} FoldInjective(h: Word, k: Word, data: seq<Byte>)
    requires h != k
    ensures Fold(h, data) != Fold(k, data)
  {
    if data != [] {
      var front := data[..|data| - 1];
      FoldInjective(h, k, front);
      if Mix(Fold(h, front), data[|data| - 1]) == Mix(Fold(k, front), data[|data| - 1]) {
        MixInjective(Fold(h, front), Fold(k, front), data[|data| - 1], data[|data| - 1]);
      }
    }
  }

  lemma {:induction false} FoldAppend(h: Word, front: seq<Byte>, back: seq<Byte>)
    ensures Fold(h, front + back) == Fold(Fold(h, front), back)
  {
    if back == [] {
      assert front + back == front;
    } else {
      var init := back[..|back| - 1];
      assert (front + back)[..|front + back| - 1] == front + init;
      FoldAppend(h, front, init);
    }
  }

  /** Changing a single byte always changes the hash, whatever was mixed in before. */
  lemma OneByteChanges(h: Word, data: seq<Byte>, i: nat, b: Byte)
    requires i < |data| && b != data[i]
    ensures Fold(h, data[i := b]) != Fold(h, data)
  {
    var front, back := data[..i], data[i + 1..];
    assert data == front + [data[i]] + back;
    assert data[i := b] == front + [b] + back;
    forall c: Byte ensures Fold(h, front + [c] + back) == Fold(Mix(Fold(h, front), c), back) {
      assert (front + [c])[..|front|] == front;
      FoldAppend(h, front + [c], back);
    }
    var k := Fold(h, front);
    if Mix(k, b) == Mix(k, data[i]) {
      MixInjective(k, k, b, data[i]);
    }
    FoldInjective(Mix(k, b), Mix(k, data[i]), back);
  }
}
