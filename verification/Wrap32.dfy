/** The ring's 32-bit arithmetic: rounding the capacity to a power of two and
    masking a cursor to a slot. */
module Wrap32 {
  // ------------------------------------------------------- bit arithmetic

  predicate IsPow2(c: bv32) { c != 0 && c & (c - 1) == 0 }

  /** The least power of two that is not below n; 0 when there is none. */
  method NextPow2(n: bv32) returns (r: bv32)
    ensures n == 0 ==> r == 1
    ensures 0 < n <= 0x8000_0000 ==> IsPow2(r) && n <= r && forall p: bv32 :: IsPow2(p) && n <= p ==> r <= p
    ensures n > 0x8000_0000 ==> r == 0
  {
    if n == 0 { return 1; }
    var m := n - 1;
    m := m | (m >> 1);
    m := m | (m >> 2);
    m := m | (m >> 4);
    m := m | (m >> 8);
    m := m | (m >> 16);
    r := m + 1;
  }

  // ----------------------------------------------------------- 32-bit words

  const WORD: nat := 0x1_0000_0000

  function Pow2(e: nat): (r: nat) ensures r > 0 { if e == 0 then 1 else 2 * Pow2(e - 1) }

  /** Bitwise and of two words, bit by bit. */
  function And(x: nat, y: nat): nat {
    if x == 0 || y == 0 then 0 else (if x % 2 == 1 && y % 2 == 1 then 1 else 0) + 2 * And(x / 2, y / 2)
  }

  lemma NonZeroMultiple(m: nat, d: int)
    requires m > 0
    ensures d >= 1 ==> m * d >= m
    ensures d <= -1 ==> m * d <= 0 - m
  {
  }

  lemma ModUnique(x: nat, m: nat, q: nat, r: nat)
    requires m > 0 && r < m && x == m * q + r
    ensures x % m == r
  {
    var d := x / m - q;
    assert m * d == r - x % m;
    NonZeroMultiple(m, d);
  }

  lemma HalveMod(x: nat, h: nat)
    requires h > 0
    ensures x % (2 * h) == x % 2 + 2 * (x / 2 % h)
  {
    var q, r := x / 2 / h, x / 2 % h;
    assert x / 2 == h * q + r;
    assert x == 2 * h * q + (2 * r + x % 2);
    ModUnique(x, 2 * h, q, 2 * r + x % 2);
  }

  lemma MaskStep(x: nat, m: nat)
    ensures And(x, 2 * m + 1) == x % 2 + 2 * And(x / 2, m)
  {
  }

  lemma MaskDoubles(x: nat, h: nat, r: nat)
    requires h > 0 && And(x / 2, h - 1) == r == x / 2 % h
    ensures And(x, 2 * h - 1) == x % 2 + 2 * r == x % (2 * h)
  {
    hide And;
    assert 2 * (h - 1) + 1 == 2 * h - 1;
    MaskStep(x, h - 1);
    HalveMod(x, h);
  }

  /** Masking with capacity - 1 is reduction modulo a power-of-two capacity. */
  lemma {:induction false} MaskIsMod(x: nat, e: nat)
    ensures And(x, Pow2(e) - 1) == x % Pow2(e)
  {
    if e > 0 {
      MaskIsMod(x / 2, e - 1);
      hide And;
      MaskDoubles(x, Pow2(e - 1), x / 2 % Pow2(e - 1));
    }
  }

  lemma Twice(h: nat, q: nat, r: nat)
    ensures 2 * h * q + r == h * (2 * q) + r
    ensures r >= h ==> 2 * h * q + r == h * (2 * q + 1) + (r - h)
  {
  }

  lemma ModOfDoubleAt(x: nat, h: nat, q: nat, r: nat)
    requires h > 0 && x == 2 * h * q + r && r < 2 * h
    ensures r % h == x % h
  {
    Twice(h, q, r);
    if r < h {
      ModUnique(x, h, 2 * q, r);
      ModUnique(r, h, 0, r);
    } else {
      ModUnique(x, h, 2 * q + 1, r - h);
      ModUnique(r, h, 1, r - h);
    }
  }

  lemma ModOfDouble(x: nat, h: nat)
    requires h > 0
    ensures x % (2 * h) % h == x % h
  {
    ModOfDoubleAt(x, h, x / (2 * h), x % (2 * h));
  }

  lemma ChainStep(x: nat, h: nat, c: nat)
    requires h > 0 && c > 0 && x % h % c == x % c && x % (2 * h) % h % c == x % (2 * h) % c
    ensures x % (2 * h) % c == x % c
  {
    ModOfDouble(x, h);
  }

  lemma {:induction false} ModChain(x: nat, e: nat, f: nat)
    requires e <= f
    ensures x % Pow2(f) % Pow2(e) == x % Pow2(e)
    decreases f
  {
    if e < f {
      ModChain(x, e, f - 1);
      ModChain(x % Pow2(f), e, f - 1);
      ChainStep(x, Pow2(f - 1), Pow2(e));
    } else {
      ModOfMod(x, Pow2(e));
    }
  }

  lemma ModOfMod(x: nat, c: nat)
    requires c > 0
    ensures x % c % c == x % c
  {
  }

  lemma WordIsPow2()
    ensures Pow2(32) == WORD
  {
    assert Pow2(8) == 256;
    assert Pow2(16) == 65536;
    assert Pow2(24) == 16777216;
  }

  /** A word of a cursor points at the slot of the cursor. */
  lemma WordSlot(x: nat, e: nat)
    requires e <= 32
    ensures x % WORD % Pow2(e) == x % Pow2(e)
  {
    hide Pow2;
    ModChain(x, e, 32);
    WordIsPow2();
  }
}
