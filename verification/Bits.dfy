/**
The bitwise conjunction of two words, and what it is for the masks that the driver uses: a mask of consecutive ones
cuts a field out of a word.
*/
module Bits {

  import opened Division

  const WORD_LIMIT := 0x1_0000_0000_0000_0000

  type Word = x: nat | x < WORD_LIMIT

  /** The bits that both numbers have. */
  function And(x: nat, y: nat): (r: nat)
    ensures r <= x && r <= y
  {
    if x == 0 || y == 0 then 0
    else 2 * And(x / 2, y / 2) + (if x % 2 == 1 && y % 2 == 1 then 1 else 0)
  }

  /** `x` shifted left. */
  function Up(x: nat, k: nat): nat {
    if k == 0 then x else 2 * Up(x, k - 1)
  }

  /** `x` shifted right. */
  function Down(x: nat, k: nat): nat {
    if k == 0 then x else Down(x / 2, k - 1)
  }

  /** The number whose lowest `k` bits are ones. */
  function Ones(k: nat): nat {
    if k == 0 then 0 else 2 * Ones(k - 1) + 1
  }

  lemma AndHalves(x: nat, y: nat)
    ensures And(x, y) == 2 * And(x / 2, y / 2) + (if x % 2 == 1 && y % 2 == 1 then 1 else 0)
  {
    AndZero(x / 2);
    AndZero(y / 2);
  }

  lemma AndZero(x: nat)
    ensures And(x, 0) == 0 && And(0, x) == 0
  {
  }

  /** A mask that begins higher up looks at the word from there. */
  lemma {:induction false} AndUp(x: nat, m: nat, k: nat)
    ensures And(x, Up(m, k)) == Up(And(Down(x, k), m), k)
  {
    if k == 0 {
    } else {
      AndHalves(x, Up(m, k));
      AndUp(x / 2, m, k - 1);
    }
  }

  lemma {:induction false} UpIsProduct(x: nat, k: nat)
    ensures Up(x, k) == x * Up(1, k)
  {
    if k == 0 {
    } else {
      UpIsProduct(x, k - 1);
      Associate(x, 2, Up(1, k - 1));
      TwiceProduct(x, Up(1, k - 1));
    }
  }

  lemma TwiceProduct(x: nat, y: nat)
    ensures x * (2 * y) == 2 * (x * y)
  {
  }

  lemma {:induction false} PowerPositive(k: nat)
    ensures Up(1, k) > 0
  {
    if k == 0 {
    } else {
      PowerPositive(k - 1);
    }
  }

  lemma {:induction false} DownIsQuotient(x: nat, k: nat)
    ensures Up(1, k) > 0 && Down(x, k) == x / Up(1, k)
  {
    PowerPositive(k);
    if k == 0 {
    } else {
      PowerPositive(k - 1);
      DownIsQuotient(x / 2, k - 1);
      SplitRemainder(x, 2, Up(1, k - 1));
    }
  }

  /** Masking with the lowest ones is the remainder. */
  lemma {:induction false} AndOnes(x: nat, k: nat)
    ensures Up(1, k) > 0 && And(x, Ones(k)) == x % Up(1, k)
  {
    PowerPositive(k);
    if k == 0 {
      AndZero(x);
    } else {
      PowerPositive(k - 1);
      AndHalves(x, Ones(k));
      AndOnes(x / 2, k - 1);
      SplitRemainder(x, 2, Up(1, k - 1));
    }
  }

  /** A mask of `n` ones above `k` zeros cuts a field out of the word and leaves it in its place. */
  lemma AndField(x: nat, n: nat, k: nat)
    ensures Up(1, k) > 0 && Up(1, n) > 0
    ensures And(x, Up(Ones(n), k)) == x / Up(1, k) % Up(1, n) * Up(1, k)
  {
    AndUp(x, Ones(n), k);
    DownIsQuotient(x, k);
    AndOnes(x / Up(1, k), n);
    UpIsProduct(x / Up(1, k) % Up(1, n), k);
  }

  lemma {:induction false} OnesBelowPower(k: nat)
    ensures Ones(k) + 1 == Up(1, k)
  {
    if k == 0 {
    } else {
      OnesBelowPower(k - 1);
    }
  }

  lemma ByteUp(k: nat)
    ensures Up(1, k + 8) == 0x100 * Up(1, k)
  {
    assert Up(1, k + 4) == 0x10 * Up(1, k) by {
      assert Up(1, k + 2) == 4 * Up(1, k);
      assert Up(1, k + 4) == 4 * Up(1, k + 2);
    }
    assert Up(1, k + 6) == 4 * Up(1, k + 4);
    assert Up(1, k + 8) == 4 * Up(1, k + 6);
  }

  /** The powers of two that bound the fields of an entry and of an address. */
  lemma Powers()
    ensures Up(1, 1) == 2 && Up(1, 7) == 0x80 && Up(1, 8) == 0x100 && Up(1, 9) == 0x200
    ensures Up(1, 12) == 0x1000 && Up(1, 13) == 0x2000 && Up(1, 17) == 0x2_0000 && Up(1, 21) == 0x20_0000
    ensures Up(1, 22) == 0x40_0000 && Up(1, 30) == 0x4000_0000 && Up(1, 31) == 0x8000_0000
    ensures Up(1, 40) == 0x100_0000_0000 && Up(1, 52) == 0x10_0000_0000_0000
  {
    assert Up(1, 0) == 1 && Up(1, 1) == 2 && Up(1, 2) == 4 && Up(1, 3) == 8 && Up(1, 4) == 0x10;
    assert Up(1, 5) == 0x20 && Up(1, 6) == 0x40 && Up(1, 7) == 0x80;
    hide Up;
    ByteUp(0);
    ByteUp(1);
    ByteUp(4);
    ByteUp(5);
    ByteUp(6);
    ByteUp(7);
    ByteUp(9);
    ByteUp(13);
    ByteUp(14);
    ByteUp(22);
    ByteUp(23);
    ByteUp(8);
    ByteUp(16);
    ByteUp(24);
    ByteUp(32);
    ByteUp(12);
    ByteUp(20);
    ByteUp(28);
    ByteUp(36);
    ByteUp(44);
  }

  /** A mask just below a power of two is the remainder by it. */
  lemma LowMask(x: nat, mask: nat, k: nat, p: nat)
    requires mask + 1 == p && p == Up(1, k)
    ensures And(x, mask) == x % p
  {
    OnesBelowPower(k);
    AndOnes(x, k);
  }

  /** A mask of `n` bits from bit `k` on; `p` and `q` are the powers of two of its width and of its place. */
  lemma FieldMask(x: nat, mask: nat, n: nat, k: nat, p: nat, q: nat)
    requires p > 0 && q > 0 && p == Up(1, n) && q == Up(1, k) && mask == (p - 1) * q
    ensures And(x, mask) == x / q % p * q
  {
    OnesBelowPower(n);
    UpIsProduct(Ones(n), k);
    AndField(x, n, k);
  }
}
