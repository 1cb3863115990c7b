/**
 The token estimate of the context manager (core/context_manager.py,
 `_estimate_tokens_for_text`), in exact arithmetic.

 With `t` characters of which `c` are Cyrillic the program divides `t` by the average
 (c/t)*2 + (1 - c/t)*4 characters per token, that is t*t / (4*t - 2*c).
 */
module TokenEstimate {

  predicate IsCyrillic(c: char) {
    '\U{400}' <= c <= '\U{4FF}'
  }

  function CountCyrillic(text: string): (n: nat)
    ensures n <= |text|
  {
    if text == "" then 0
    else CountCyrillic(text[..|text| - 1]) + if IsCyrillic(text[|text| - 1]) then 1 else 0
  }

  function Quotient(t: nat, c: nat): nat
    requires 0 < t && c <= t
  {
    t * t / (4 * t - 2 * c)
  }

  function Estimate(text: string): nat {
    if text == "" then 0
    else
      var e := Quotient(|text|, CountCyrillic(text));
      if e < 1 then 1 else e
  }

  // ---------------------------------------------------------------------------------------
  // Bounds
  // ---------------------------------------------------------------------------------------

  lemma TimesKeepsOrder(a: int, b: int, d: nat)
    requires a <= b
    ensures a * d <= b * d
  {
  }

  lemma DivAtLeast(a: int, d: int, q: int)
    requires d > 0 && q * d <= a
    ensures q <= a / d
  {
    var r := a / d;
    if r < q {
      TimesKeepsOrder(r + 1, q, d);
    }
  }

  lemma DivAtMost(a: int, d: int, q: int)
    requires d > 0 && a < (q + 1) * d
    ensures a / d <= q
  {
    var r := a / d;
    if r > q {
      TimesKeepsOrder(q + 1, r, d);
    }
  }

  /** A nonempty text of `t` characters costs at least one token, and otherwise between t/4
      (no Cyrillic) and t/2 (all Cyrillic) tokens. */
  lemma EstimateBounds(text: string)
    requires text != ""
    ensures |text| / 4 <= Estimate(text)
    ensures 1 <= Estimate(text) <= if |text| < 2 then 1 else |text| / 2
    ensures CountCyrillic(text) == 0 && |text| >= 4 ==> Estimate(text) == |text| / 4
    ensures CountCyrillic(text) == |text| && |text| >= 2 ==> Estimate(text) == |text| / 2
  {
    QuotientBounds(|text|, CountCyrillic(text));
  }

  lemma QuotientBounds(t: nat, c: nat)
    requires 0 < t && c <= t
    ensures t / 4 <= Quotient(t, c) <= t / 2
    ensures c == 0 ==> Quotient(t, c) == t / 4
    ensures c == t ==> Quotient(t, c) == t / 2
  {
    var d := 4 * t - 2 * c;
    Scale(t, t / 4, 4, d);
    DivAtLeast(t * t, d, t / 4);
    ScaleAbove(t, t / 2, 2, d);
    DivAtMost(t * t, d, t / 2);
    if c == 0 {
      ScaleAbove(t, t / 4, 4, d);
      DivAtMost(t * t, d, t / 4);
    }
    if c == t {
      Scale(t, t / 2, 2, d);
      DivAtLeast(t * t, d, t / 2);
    }
  }

  lemma Scale(t: nat, q: nat, k: nat, d: nat)
    requires q * k <= t && d <= k * t
    ensures q * d <= t * t
  {
    assert q * d <= q * (k * t);
    assert q * (k * t) == (q * k) * t;
    assert (q * k) * t <= t * t;
  }

  lemma ScaleAbove(t: nat, q: nat, k: nat, d: nat)
    requires t < (q + 1) * k && k * t <= d && t > 0
    ensures t * t < (q + 1) * d
  {
    assert t * t < ((q + 1) * k) * t;
    assert ((q + 1) * k) * t == (q + 1) * (k * t);
    assert (q + 1) * (k * t) <= (q + 1) * d;
  }

  // ---------------------------------------------------------------------------------------
  // Joining two texts
  // ---------------------------------------------------------------------------------------

  lemma {:induction false} CountConcat(a: string, b: string)
    ensures CountCyrillic(a + b) == CountCyrillic(a) + CountCyrillic(b)
  {
    if b == "" {
      assert a + b == a;
    } else {
      CountConcat(a, b[..|b| - 1]);
      assert (a + b)[..|a + b| - 1] == a + b[..|b| - 1];
    }
  }

  lemma SquareLess(x: nat, y: nat)
    requires x * x < y * y
    ensures x < y
  {
    if y <= x {
      TimesKeepsOrder(y, x, y);
      TimesKeepsOrder(y, x, x);
    }
  }

  lemma SquareOfSum(x: int, y: int)
    ensures (x + y) * (x + y) >= 4 * (x * y)
  {
    var d := x - y;
    assert d * d >= 0;
    assert d * d == x * x - 2 * (x * y) + y * y;
    assert (x + y) * (x + y) == x * x + 2 * (x * y) + y * y;
  }

  /** x + y exceeds twice any u whose square is below x * y. */
  lemma MeanAbove(x: nat, y: nat, u: nat)
    requires u * u < x * y
    ensures 2 * u < x + y
  {
    SquareOfSum(x, y);
    assert (2 * u) * (2 * u) == 4 * (u * u);
    SquareLess(2 * u, x + y);
  }

  lemma ProductLess(a: nat, b: nat, c: nat, d: nat)
    requires a < b && c < d
    ensures a * c < b * d
  {
    TimesKeepsOrder(c, d, a);
    TimesKeepsOrder(a + 1, b, d);
  }

  /** t1²/d1 + t2²/d2 bounds (t1 + t2)²/(d1 + d2), with upper bounds p and q for the terms. */
  lemma JoinQuotients(t1: nat, d1: nat, p: nat, t2: nat, d2: nat, q: nat)
    requires t1 * t1 < p * d1 && t2 * t2 < q * d2
    ensures (t1 + t2) * (t1 + t2) < (p + q) * (d1 + d2)
  {
    ProductLess(t1 * t1, p * d1, t2 * t2, q * d2);
    Regroup(t1, t2, p, d1, q, d2);
    MeanAbove(p * d2, q * d1, t1 * t2);
    assert (t1 + t2) * (t1 + t2) == t1 * t1 + 2 * (t1 * t2) + t2 * t2;
    assert (p + q) * (d1 + d2) == p * d1 + p * d2 + q * d1 + q * d2;
  }

  lemma Regroup(t1: nat, t2: nat, p: nat, d1: nat, q: nat, d2: nat)
    ensures (t1 * t1) * (t2 * t2) == (t1 * t2) * (t1 * t2)
    ensures (p * d1) * (q * d2) == (p * d2) * (q * d1)
  {
    assert (t1 * t1) * (t2 * t2) == t1 * (t1 * t2) * t2;
    assert (p * d1) * (q * d2) == p * (d1 * q) * d2;
  }

  lemma DivBelow(a: nat, d: nat)
    requires d > 0
    ensures a < (a / d + 1) * d
  {
    assert a == (a / d) * d + a % d;
  }

  /** Joining two texts never costs more than one token over their separate estimates. */
  lemma EstimateJoin(a: string, b: string)
    ensures Estimate(a + b) <= Estimate(a) + Estimate(b) + 1
  {
    if a == "" {
      assert a + b == b;
    } else if b == "" {
      assert a + b == a;
    } else {
      CountConcat(a, b);
      QuotientJoin(|a|, CountCyrillic(a), |b|, CountCyrillic(b));
    }
  }

  lemma QuotientJoin(t1: nat, c1: nat, t2: nat, c2: nat)
    requires 0 < t1 && c1 <= t1 && 0 < t2 && c2 <= t2
    ensures Quotient(t1 + t2, c1 + c2) <= Quotient(t1, c1) + Quotient(t2, c2) + 1
  {
    var d1, d2 := 4 * t1 - 2 * c1, 4 * t2 - 2 * c2;
    DivBelow(t1 * t1, d1);
    DivBelow(t2 * t2, d2);
    var p, q := Quotient(t1, c1), Quotient(t2, c2);
    JoinQuotients(t1, d1, p + 1, t2, d2, q + 1);
    assert 4 * (t1 + t2) - 2 * (c1 + c2) == d1 + d2;
    DivAtMost((t1 + t2) * (t1 + t2), d1 + d2, p + q + 1);
  }

  /** The extra token is needed: two texts of seven Latin letters cost one each, joined three. */
  lemma EstimateJoinIsTight()
    ensures Estimate("context" + "manager") == Estimate("context") + Estimate("manager") + 1
  {
    NoCyrillic("context");
    NoCyrillic("manager");
    CountConcat("context", "manager");
    assert Quotient(7, 0) == 1 && Quotient(14, 0) == 3;
  }

  lemma {:induction false} NoCyrillic(s: string)
    requires forall i | 0 <= i < |s| :: !IsCyrillic(s[i])
    ensures CountCyrillic(s) == 0
  {
    if s != "" {
      NoCyrillic(s[..|s| - 1]);
    }
  }

  /** The estimate, exactly: the whole part of t*t / (4*t - 2*c) for `t` characters of which `c` are
      Cyrillic, and at least one; nothing for no text. */
  lemma EstimateIs(text: string)
    ensures text == "" ==> Estimate(text) == 0
    ensures text != "" ==>
              var (t, d, e) := (|text|, 4 * |text| - 2 * CountCyrillic(text), Estimate(text));
              && d > 0 && e >= 1 && t * t < (e + 1) * d
              && (e * d <= t * t || (e == 1 && t * t < d))
  {
    if text != "" {
      var t, c := |text|, CountCyrillic(text);
      var q := Quotient(t, c);
      assert q == t * t / (4 * t - 2 * c) && Estimate(text) == if q < 1 then 1 else q;
      hide Quotient, Estimate, CountCyrillic;
      AtLeastOne(t * t, 4 * t - 2 * c, q, Estimate(text));
    }
  }

  lemma AtLeastOne(a: nat, d: nat, q: nat, e: nat)
    requires d > 0 && q == a / d && e == if q < 1 then 1 else q
    ensures a < (e + 1) * d && (e * d <= a || (e == 1 && a < d))
  {
    DivBelow(a, d);
    assert q * d <= a;
  }

  /** The Cyrillic block and its neighbours. */
  lemma CyrillicBlock(c: char)
    ensures CountCyrillic([c]) == if 0x400 <= c as int <= 0x4FF then 1 else 0
  {
    assert [c][..0] == "";
  }
}
