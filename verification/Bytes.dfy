/** Fixed-width bytes and words, and the bit tests the C sources write as shifts and masks. */
module Bytes {
  type u8 = x: int | 0 <= x < 0x100
  type u16 = x: int | 0 <= x < 0x1_0000

  /** `(x >> k) & 1`. */
  function Bit(x: nat, k: nat): (b: nat)
    ensures b < 2
  {
    if k == 0 then x % 2 else Bit(x / 2, k - 1)
  }

  /** The bits of a byte as digits: bit `k` weighs 2^k. */
  lemma BitsAreDigits(x: nat)
    ensures Bit(x, 0) == x % 2 && Bit(x, 1) == x / 2 % 2 && Bit(x, 2) == x / 4 % 2 && Bit(x, 3) == x / 8 % 2
    ensures Bit(x, 4) == x / 16 % 2 && Bit(x, 5) == x / 32 % 2 && Bit(x, 6) == x / 64 % 2 && Bit(x, 7) == x / 128 % 2
  {
    var y := x / 16;
    LowDigits(x);
    LowDigits(y);
    HighBit(x, 4);
    HighBit(x, 5);
    HighBit(x, 6);
    HighBit(x, 7);
    hide Bit;
    assert y / 2 == x / 32 && y / 4 == x / 64 && y / 8 == x / 128;
  }

  /** One of them. */
  lemma Digit(x: nat, k: nat, weight: nat)
    requires k < 8 && weight == [1, 2, 4, 8, 16, 32, 64, 128][k]
    ensures Bit(x, k) == x / weight % 2
  {
    BitsAreDigits(x);
    hide Bit;
  }

  lemma LowDigits(x: nat)
    ensures Bit(x, 0) == x % 2 && Bit(x, 1) == x / 2 % 2 && Bit(x, 2) == x / 4 % 2 && Bit(x, 3) == x / 8 % 2
  {
    assert x / 2 / 2 == x / 4 && x / 2 / 2 / 2 == x / 8;
    assert Bit(x, 1) == Bit(x / 2, 0);
    assert Bit(x, 2) == Bit(x / 2, 1) == Bit(x / 2 / 2, 0);
    assert Bit(x, 3) == Bit(x / 2, 2) == Bit(x / 2 / 2, 1) == Bit(x / 2 / 2 / 2, 0);
  }

  lemma HighBit(x: nat, k: nat)
    requires k >= 4
    ensures Bit(x, k) == Bit(x / 16, k - 4)
  {
    assert x / 2 / 2 / 2 / 2 == x / 16;
    assert Bit(x, k) == Bit(x / 2, k - 1) == Bit(x / 2 / 2, k - 2) == Bit(x / 2 / 2 / 2, k - 3);
  }
}
