/**
 Decimal arithmetic on the 8-bit ALU: alu_add8 and alu_sub8 (src/isa/alu.c), the ADC and SBC opcodes
 that store their flags, and DAA (src/isa/opcodes/opcodes_misc.inl:27-59).

 What DAA is for: a little-endian chain of ADC;DAA over packed decimal bytes is decimal addition,
 and of SBC;DAA decimal subtraction, for numbers of any length.
 */
module Bcd {
  import opened Bytes
  import DivMod

  // ---------------------------------------------------------------------------
  // The ALU
  // ---------------------------------------------------------------------------

  datatype AluResult = AluResult(value: u8, zero: bool, halfCarry: bool, carry: bool)

  function Carry(c: bool): nat { if c then 1 else 0 }

  function Add8(a: u8, value: u8, carry: bool): AluResult {
    var r: int := a + value + Carry(carry);
    AluResult(r % 0x100, r % 0x100 == 0, a % 16 + value % 16 + Carry(carry) > 0xF, r > 0xFF)
  }

  function Sub8(a: u8, value: u8, carry: bool): AluResult {
    var r: int := a - value - Carry(carry);
    AluResult(r % 0x100, r % 0x100 == 0, a % 16 < value % 16 + Carry(carry), a < value + Carry(carry))
  }

  /** The accumulator and the four flags of F. */
  datatype Acc = Acc(a: u8, z: bool, n: bool, h: bool, c: bool) {
    function Adc(value: u8): Acc {
      var r := Add8(a, value, c);
      Acc(r.value, r.zero, false, r.halfCarry, r.carry)
    }

    function Sbc(value: u8): Acc {
      var r := Sub8(a, value, c);
      Acc(r.value, r.zero, true, r.halfCarry, r.carry)
    }

    /** DAA: subtract or add 6 to the digits that left the decimal range. */
    function Daa(): Acc {
      if n then
        var r := (a - (if h then 0x06 else 0) - (if c then 0x60 else 0)) % 0x100;
        Acc(r, r == 0, n, false, c)
      else
        var low := h || a % 16 > 9;
        var high := c || a > 0x99;
        var r := (a + (if low then 0x06 else 0) + (if high then 0x60 else 0)) % 0x100;
        Acc(r, r == 0, n, false, high)
    }
  }

  /** The accumulator part of the CPU, updated in place by the opcodes. */
  class Registers {
    var a: u8
    var z: bool
    var n: bool
    var h: bool
    var c: bool

    function View(): Acc
      reads this
    {
      Acc(a, z, n, h, c)
    }

    method OpAdc(value: u8)
      modifies this
      ensures View() == old(View()).Adc(value)
    {
      var r := Add8(a, value, c);
      a := r.value;
      n := false;
      z, h, c := r.zero, r.halfCarry, r.carry;
    }

    method OpSbc(value: u8)
      modifies this
      ensures View() == old(View()).Sbc(value)
    {
      var r := Sub8(a, value, c);
      a := r.value;
      n := true;
      z, h, c := r.zero, r.halfCarry, r.carry;
    }

    /** op_daa. */
    method OpDaa()
      modifies this
      ensures View() == old(View()).Daa()
    {
      var adjustment := 0;
      if n {
        if h {
          adjustment := adjustment + 0x06;
        }
        if c {
          adjustment := adjustment + 0x60;
        }
        a := (a - adjustment) % 0x100;
      } else {
        if h || a % 16 > 0x9 {
          adjustment := adjustment + 0x06;
        }
        if c || a > 0x99 {
          c := true;
          adjustment := adjustment + 0x60;
        }
        a := (a + adjustment) % 0x100;
      }
      h := false;
      z := a == 0;
    }
  }

  // ---------------------------------------------------------------------------
  // One byte
  // ---------------------------------------------------------------------------

  /** Both digits of a packed byte are decimal. */
  predicate IsBcd(b: u8) { b / 16 < 10 && b % 16 < 10 }

  function Decimal(b: u8): nat { b / 16 * 10 + b % 16 }

  /** The packed form of a number below 100. */
  function Pack(v: nat): (b: u8)
    requires v < 100
    ensures IsBcd(b) && Decimal(b) == v
  {
    v / 10 * 16 + v % 10
  }

  lemma PackIsOnly(b: u8)
    requires IsBcd(b)
    ensures Decimal(b) < 100 && b == Pack(Decimal(b))
  {
    DivMod.Unique(Decimal(b), 10, b / 16, b % 16);
  }

  /** Splitting a byte into the two digits it is built from. */
  lemma Digits(b: int, high: int, low: int)
    requires b == 16 * high + low && 0 <= low < 16
    ensures b / 16 == high && b % 16 == low
  {
    DivMod.Unique(b, 16, high, low);
  }

  lemma FromDigits(b: u8, high: nat, low: nat)
    requires b == 16 * high + low && high < 10 && low < 10
    ensures IsBcd(b) && Decimal(b) == 10 * high + low
  {
    Digits(b, high, low);
  }

  /** The byte DAA leaves, given what it adds or subtracts. */
  lemma DaaByte(t: Acc, adjusted: int, b: u8)
    requires adjusted == (if t.n then t.a - (if t.h then 0x06 else 0) - (if t.c then 0x60 else 0)
                          else t.a + (if t.h || t.a % 16 > 9 then 0x06 else 0) + (if t.c || t.a > 0x99 then 0x60 else 0))
    requires adjusted == b || adjusted == b + 0x100
    ensures t.Daa().a == b
  {
    assert adjusted % 0x100 == b;
  }

  /** DAA after an addition whose digit sums are `h` and `l`, carries not yet propagated. */
  lemma DaaAdds(t: Acc, h: nat, l: nat)
    requires h <= 18 && l <= 19 && !t.n && t.h == (l > 15) && t.c == (16 * h + l > 0xFF)
    requires t.a == 16 * h + l - 0x100 * Carry(t.c)
    ensures var r := t.Daa(); IsBcd(r.a) && Decimal(r.a) + 100 * Carry(r.c) == 10 * h + l
  {
    var nibble := h - 16 * Carry(t.c);
    if l > 15 {
      Digits(t.a, nibble + 1, l - 16);
    } else {
      Digits(t.a, nibble, l);
    }
    var c0 := if l > 9 then 1 else 0;
    var c1 := if h + c0 > 9 then 1 else 0;
    var high, low := h + c0 - 10 * c1, l - 10 * c0;
    assert (t.h || t.a % 16 > 9) == (c0 == 1) && (t.c || t.a > 0x99) == (c1 == 1);
    hide IsBcd, Decimal;
    DaaByte(t, t.a + 6 * c0 + 0x60 * c1, 16 * high + low);
    FromDigits(16 * high + low, high, low);
  }

  /** DAA after a subtraction whose digit differences are `h` and `l`, borrows not yet propagated. */
  lemma DaaSubtracts(t: Acc, h: int, l: int)
    requires -9 <= h <= 9 && -10 <= l <= 9 && t.n && t.h == (l < 0) && t.c == (16 * h + l < 0)
    requires t.a == 16 * h + l + 0x100 * Carry(t.c)
    ensures var r := t.Daa(); IsBcd(r.a) && Decimal(r.a) - 100 * Carry(r.c) == 10 * h + l
  {
    hide IsBcd, Decimal;
    var high, low := h + 10 * Carry(t.c) - Carry(t.h), l + 10 * Carry(t.h);
    DaaByte(t, t.a - 6 * Carry(t.h) - 0x60 * Carry(t.c), 16 * high + low);
    FromDigits(16 * high + low, high, low);
  }

  /** ADC then DAA: the decimal sum of two packed bytes, with a decimal carry. */
  lemma AdcDaa(s: Acc, value: u8)
    requires IsBcd(s.a) && IsBcd(value)
    ensures var r := s.Adc(value).Daa();
      && IsBcd(r.a) && Decimal(r.a) + 100 * Carry(r.c) == Decimal(s.a) + Decimal(value) + Carry(s.c)
      && r.z == (r.a == 0) && !r.n && !r.h
  {
    var h, l := s.a / 16 + value / 16, s.a % 16 + value % 16 + Carry(s.c);
    var sum: int := s.a + value + Carry(s.c);
    assert sum == 16 * h + l;
    assert sum % 0x100 == if sum > 0xFF then sum - 0x100 else sum;
    hide Acc.Daa;
    DaaAdds(s.Adc(value), h, l);
    DaaClears(s.Adc(value));
  }

  /** SBC then DAA: the decimal difference, with a decimal borrow. */
  lemma SbcDaa(s: Acc, value: u8)
    requires IsBcd(s.a) && IsBcd(value)
    ensures var r := s.Sbc(value).Daa();
      && IsBcd(r.a) && Decimal(r.a) - 100 * Carry(r.c) == Decimal(s.a) - Decimal(value) - Carry(s.c)
      && r.z == (r.a == 0) && r.n && !r.h
  {
    var h, l := s.a / 16 - value / 16, s.a % 16 - value % 16 - Carry(s.c);
    var diff: int := s.a - value - Carry(s.c);
    assert diff == 16 * h + l;
    assert diff % 0x100 == if diff < 0 then diff + 0x100 else diff;
    hide Acc.Daa;
    DaaSubtracts(s.Sbc(value), h, l);
    DaaClears(s.Sbc(value));
  }

  lemma DaaClears(t: Acc)
    ensures var r := t.Daa(); r.z == (r.a == 0) && r.n == t.n && !r.h
  {
  }

  // ---------------------------------------------------------------------------
  // Numbers of any length, least significant byte first
  // ---------------------------------------------------------------------------

  predicate IsBcdNumber(xs: seq<u8>) {
    forall i :: 0 <= i < |xs| ==> IsBcd(xs[i])
  }

  function Value(xs: seq<u8>): nat
    decreases |xs|
  {
    if xs == [] then 0 else Decimal(xs[0]) + 100 * Value(xs[1..])
  }

  function Pow100(n: nat): nat {
    if n == 0 then 1 else 100 * Pow100(n - 1)
  }

  /** The bytes the chain leaves, and its final carry; `op` is ADC or SBC, then DAA. */
  function Chain(xs: seq<u8>, ys: seq<u8>, carry: bool, subtract: bool, s: Acc): (seq<u8>, bool)
    requires |xs| == |ys|
    decreases |xs|
  {
    if xs == [] then ([], carry)
    else
      var loaded := s.(a := xs[0], c := carry);
      var r := (if subtract then loaded.Sbc(ys[0]) else loaded.Adc(ys[0])).Daa();
      var (zs, c) := Chain(xs[1..], ys[1..], r.c, subtract, r);
      ([r.a] + zs, c)
  }

  lemma {:induction false} ChainAdds(xs: seq<u8>, ys: seq<u8>, carry: bool, s: Acc)
    requires |xs| == |ys| && IsBcdNumber(xs) && IsBcdNumber(ys)
    ensures var (zs, c) := Chain(xs, ys, carry, false, s);
      && |zs| == |xs| && IsBcdNumber(zs)
      && Value(zs) + (if c then Pow100(|xs|) else 0) == Value(xs) + Value(ys) + Carry(carry)
    decreases |xs|
  {
    hide Decimal, IsBcd, Acc.Adc, Acc.Sbc, Acc.Daa;
    if xs != [] {
      var loaded := s.(a := xs[0], c := carry);
      AdcDaa(loaded, ys[0]);
      var r := loaded.Adc(ys[0]).Daa();
      ChainAdds(xs[1..], ys[1..], r.c, r);
      var (zs, c) := Chain(xs[1..], ys[1..], r.c, false, r);
      assert ([r.a] + zs)[1..] == zs;
    }
  }

  lemma {:induction false} ChainSubtracts(xs: seq<u8>, ys: seq<u8>, borrow: bool, s: Acc)
    requires |xs| == |ys| && IsBcdNumber(xs) && IsBcdNumber(ys)
    ensures var (zs, c) := Chain(xs, ys, borrow, true, s);
      && |zs| == |xs| && IsBcdNumber(zs)
      && Value(zs) - (if c then Pow100(|xs|) else 0) == Value(xs) - Value(ys) - Carry(borrow)
    decreases |xs|
  {
    hide Decimal, IsBcd, Acc.Adc, Acc.Sbc, Acc.Daa;
    if xs != [] {
      var loaded := s.(a := xs[0], c := borrow);
      SbcDaa(loaded, ys[0]);
      var r := loaded.Sbc(ys[0]).Daa();
      ChainSubtracts(xs[1..], ys[1..], r.c, r);
      var (zs, c) := Chain(xs[1..], ys[1..], r.c, true, r);
      assert ([r.a] + zs)[1..] == zs;
    }
  }

  /** A number of n packed bytes is below 100^n, so the carry and the bytes are determined. */
  lemma {:induction false} ValueBounded(xs: seq<u8>)
    requires IsBcdNumber(xs)
    ensures Value(xs) < Pow100(|xs|)
    decreases |xs|
  {
    if xs != [] {
      ValueBounded(xs[1..]);
    }
  }

  lemma {:induction false} ValueDetermines(xs: seq<u8>, ys: seq<u8>)
    requires |xs| == |ys| && IsBcdNumber(xs) && IsBcdNumber(ys) && Value(xs) == Value(ys)
    ensures xs == ys
    decreases |xs|
  {
    if xs != [] {
      PackIsOnly(xs[0]);
      PackIsOnly(ys[0]);
      hide Decimal, IsBcd, Pack;
      ValueDetermines(xs[1..], ys[1..]);
      assert xs == [xs[0]] + xs[1..] && ys == [ys[0]] + ys[1..];
    }
  }

  /** Adding and then subtracting the same number gives back every byte, and the same carry. */
  lemma SubtractUndoesAdd(xs: seq<u8>, ys: seq<u8>, s: Acc, t: Acc)
    requires |xs| == |ys| && IsBcdNumber(xs) && IsBcdNumber(ys)
    ensures var (zs, c) := Chain(xs, ys, false, false, s);
      |zs| == |ys| && Chain(zs, ys, false, true, t) == (xs, c)
  {
    hide Chain;
    ChainAdds(xs, ys, false, s);
    var (zs, c) := Chain(xs, ys, false, false, s);
    ChainSubtracts(zs, ys, false, t);
    var (ws, d) := Chain(zs, ys, false, true, t);
    ValueBounded(xs);
    ValueBounded(ws);
    ValueDetermines(ws, xs);
  }

  /** ADC as conservation: the byte and the carry out spell the sum, and the half carry spells the low digits'. */
  lemma AdcConserves(s: Acc, value: u8)
    ensures var r := s.Adc(value);
      && r.a + 256 * Carry(r.c) == s.a + value + Carry(s.c)
      && r.a % 16 + 16 * Carry(r.h) == s.a % 16 + value % 16 + Carry(s.c)
      && (r.z <==> r.a == 0) && !r.n
  {
    var r := s.Adc(value);
    var low: int := s.a % 16 + value % 16 + Carry(s.c);
    assert r.a + 256 * Carry(r.c) == s.a + value + Carry(s.c);
    Digits(r.a, s.a / 16 + value / 16 - 16 * Carry(r.c) + Carry(r.h), low - 16 * Carry(r.h));
  }

  /** SBC likewise, with borrows. */
  lemma SbcConserves(s: Acc, value: u8)
    ensures var r := s.Sbc(value);
      && r.a - 256 * Carry(r.c) == s.a - value - Carry(s.c)
      && r.a % 16 - 16 * Carry(r.h) == s.a % 16 - value % 16 - Carry(s.c)
      && (r.z <==> r.a == 0) && r.n
  {
    var r := s.Sbc(value);
    var low: int := s.a % 16 - value % 16 - Carry(s.c);
    assert r.a - 256 * Carry(r.c) == s.a - value - Carry(s.c);
    Digits(r.a, s.a / 16 - value / 16 + 16 * Carry(r.c) - Carry(r.h), low + 16 * Carry(r.h));
  }

  /** DAA on any accumulator and flags, decimal or not: it moves the byte by 0x00, 0x06, 0x60 or 0x66. */
  lemma DaaMoves(s: Acc)
    ensures var r := s.Daa();
      var low, high := s.h || (!s.n && s.a % 16 >= 10), s.c || (!s.n && s.a >= 0x9A);
      var moved: int := (if low then 0x06 else 0) + (if high then 0x60 else 0);
      && (r.a - (if s.n then s.a - moved else s.a + moved)) % 256 == 0
      && r.c == high && r.n == s.n && !r.h && (r.z <==> r.a == 0)
  {
  }
}
