/** Powers of two, shifts and quotients by a variable. */
module Arithmetic {

  function Pow2(n: nat): (r: nat)
    ensures r >= 1
  {
    if n == 0 then 1 else 2 * Pow2(n - 1)
  }

  lemma Pow2Byte(n: nat)
    ensures Pow2(n + 8) == 256 * Pow2(n)
  {
    assert Pow2(n + 4) == 16 * Pow2(n) by {
      assert Pow2(n + 2) == 4 * Pow2(n);
      assert Pow2(n + 4) == 4 * Pow2(n + 2);
    }
    assert Pow2(n + 6) == 4 * Pow2(n + 4);
    assert Pow2(n + 8) == 4 * Pow2(n + 6);
  }

  lemma {:induction false} Pow2Grows(a: nat, b: nat)
    requires a <= b
    ensures Pow2(a) <= Pow2(b)
  {
    if a < b { Pow2Grows(a, b - 1); }
  }

  /** x shifted left by n bits. */
  function Shl(x: nat, n: nat): nat {
    if n == 0 then x else 2 * Shl(x, n - 1)
  }

  /** x shifted right by n bits. */
  function Shr(x: nat, n: nat): nat {
    if n == 0 then x else Shr(x / 2, n - 1)
  }

  lemma {:induction false} ShlOne(n: nat)
    ensures Shl(1, n) == Pow2(n)
  {
    if n > 0 { ShlOne(n - 1); }
  }

  lemma {:induction false} ShlAdds(x: nat, y: nat, n: nat)
    ensures Shl(x + y, n) == Shl(x, n) + Shl(y, n)
  {
    if n > 0 { ShlAdds(x, y, n - 1); }
  }

  lemma {:induction false} ShlDouble(x: nat, n: nat)
    ensures Shl(2 * x, n) == Shl(x, n + 1)
  {
    if n > 0 { ShlDouble(x, n - 1); }
  }

  lemma {:induction false} ShlGrows(x: nat, y: nat, m: nat, n: nat)
    requires x <= y && m <= n
    ensures Shl(x, m) <= Shl(y, n)
  {
    if n > 0 { ShlGrows(x, y, if m == n then m - 1 else m, n - 1); }
  }

  lemma {:induction false} ShrGrows(x: nat, y: nat, n: nat)
    requires x <= y
    ensures Shr(x, n) <= Shr(y, n)
  {
    if n > 0 { ShrGrows(x / 2, y / 2, n - 1); }
  }

  /** Shifting back loses only what was shifted out. */
  lemma {:induction false} ShrBounds(x: nat, n: nat)
    ensures Shl(Shr(x, n), n) <= x < Shl(Shr(x, n) + 1, n)
  {
    if n > 0 { ShrBounds(x / 2, n - 1); }
  }

  lemma {:induction false} ShrShl(x: nat, n: nat)
    ensures Shr(Shl(x, n), n) == x
  {
    if n > 0 {
      ShrShl(x, n - 1);
      assert Shl(x, n) / 2 == Shl(x, n - 1);
    }
  }

  lemma Cancel(x: int, y: int, w: int)
    requires x * w < y * w + w && w >= 1
    ensures x <= y
  {
    var d := x - y - 1;
    assert x * w - (y * w + w) == d * w;
  }

  lemma QuotientIs(x: nat, w: nat, q: nat)
    requires w >= 1 && q * w <= x < q * w + w
    ensures x / w == q
  {
    var d := x / w;
    assert d * w <= x < d * w + w;
    Cancel(q, d, w);
    Cancel(d, q, w);
  }

  lemma QuotientMonotone(x: nat, y: nat, w: nat)
    requires w >= 1 && x <= y
    ensures x / w <= y / w
  {
    var d, e := x / w, y / w;
    assert d * w <= x && y < e * w + w;
    Cancel(d, e, w);
  }

  lemma QuotientSteps(x: nat, w: nat)
    requires w >= 1
    ensures (x + w) / w == x / w + 1
  {
    var q := x / w;
    assert q * w <= x < q * w + w;
    assert (q + 1) * w == q * w + w;
    QuotientIs(x + w, w, q + 1);
  }
}
