/**
 The Luhn check (core/security.py, `_luhn_check`; ISO/IEC 7812-1, Annex B), for digit strings
 of any length.
 */
module Luhn {

  type Digit = d: int | 0 <= d <= 9 witness 0

  /** What one digit adds: doubled positions count the digit sum of the double. */
  function Weight(doubled: bool, d: Digit): int {
    if !doubled then d else if 2 * d > 9 then 2 * d - 9 else 2 * d
  }

  /** The rightmost digit is not doubled, its left neighbour is, and so on. */
  predicate Doubled(s: seq<Digit>, i: int) {
    (|s| - 1 - i) % 2 == 1
  }

  /** The sum of the last `n` digits. */
  function Tail(s: seq<Digit>, n: nat): int
    requires n <= |s|
  {
    if n == 0 then 0 else Tail(s, n - 1) + Weight(Doubled(s, |s| - n), s[|s| - n])
  }

  predicate Valid(s: seq<Digit>) {
    Tail(s, |s|) % 10 == 0
  }

  method LuhnCheck(digits: seq<Digit>) returns (ok: bool)
    ensures ok == Valid(digits)
  {
    var total := 0;
    for i := 0 to |digits|
      invariant total == Tail(digits, i)
    {
      var n: int := digits[|digits| - 1 - i];
      if i % 2 == 1 {
        n := n * 2;
        if n > 9 {
          n := n - 9;
        }
      }
      total := total + n;
    }
    return total % 10 == 0;
  }

  lemma {:induction false} TailUpdate(s: seq<Digit>, i: nat, d: Digit, n: nat)
    requires i < |s| && n <= |s|
    ensures Tail(s[i := d], n)
            == Tail(s, n) + if |s| - n <= i then Weight(Doubled(s, i), d) - Weight(Doubled(s, i), s[i]) else 0
  {
    if n > 0 {
      TailUpdate(s, i, d, n - 1);
    }
  }

  /** Every single-digit error in a valid number is caught. */
  lemma SingleErrorCaught(s: seq<Digit>, i: nat, d: Digit)
    requires i < |s| && Valid(s) && d != s[i]
    ensures !Valid(s[i := d])
  {
    hide Tail, Weight;
    TailUpdate(s, i, d, |s|);
    WeightsDiffer(Doubled(s, i), d, s[i]);
    NotSameDigit(Tail(s, |s|), Weight(Doubled(s, i), d) - Weight(Doubled(s, i), s[i]));
  }

  /** Different digits add different amounts, less than ten apart. */
  lemma WeightsDiffer(doubled: bool, a: Digit, b: Digit)
    requires a != b
    ensures Weight(doubled, a) != Weight(doubled, b) && -9 <= Weight(doubled, a) - Weight(doubled, b) <= 9
  {
  }

  lemma NotSameDigit(total: int, change: int)
    requires total % 10 == 0 && change != 0 && -9 <= change <= 9
    ensures (total + change) % 10 != 0
  {
  }

  predicate Unnoticed(a: Digit, b: Digit) {
    a == b || (a == 0 && b == 9) || (a == 9 && b == 0)
  }

  lemma SwapChange(a: Digit, b: Digit, doubled: bool, total: int)
    requires total % 10 == 0
    ensures (total + Weight(doubled, b) - Weight(doubled, a) + Weight(!doubled, a) - Weight(!doubled, b)) % 10 == 0
            <==> Unnoticed(a, b)
  {
    var change := Weight(doubled, b) - Weight(doubled, a) + Weight(!doubled, a) - Weight(!doubled, b);
    assert -9 <= change <= 9;
    assert (total + change) % 10 == 0 <==> change == 0;
  }

  /** Swapping two neighbours goes unnoticed exactly when they are equal or are 0 and 9. */
  lemma SwapCaught(s: seq<Digit>, i: nat)
    requires i + 1 < |s| && Valid(s)
    ensures Valid(s[i := s[i + 1]][i + 1 := s[i]]) <==> Unnoticed(s[i], s[i + 1])
  {
    var a, b, once := s[i], s[i + 1], s[i := s[i + 1]];
    TailUpdate(s, i, b, |s|);
    TailUpdate(once, i + 1, a, |s|);
    assert Doubled(once, i + 1) == Doubled(s, i + 1) == !Doubled(s, i);
    SwapChange(a, b, Doubled(s, i), Tail(s, |s|));
  }

  /** The digit that completes a prefix. */
  function CheckDigit(prefix: seq<Digit>): Digit {
    (10 - Tail(prefix + [0], |prefix| + 1) % 10) % 10
  }

  lemma {:induction false} ZeroTail(n: nat, k: nat)
    requires k <= n
    ensures Tail(seq(n, _ => 0), k) == 0
  {
    if k > 0 {
      ZeroTail(n, k - 1);
    }
  }

  /** Where the sum starts: a number of zeros is valid. */
  lemma ZerosAreValid(n: nat)
    ensures Valid(seq(n, _ => 0))
  {
    ZeroTail(n, n);
  }

  lemma LastDigitAdds(prefix: seq<Digit>, d: Digit)
    ensures Tail(prefix + [d], |prefix| + 1) == Tail(prefix + [0], |prefix| + 1) + d
  {
    var s := prefix + [0];
    assert s[|prefix| := d] == prefix + [d];
    TailUpdate(s, |prefix|, d, |s|);
  }

  lemma ComplementIsUnique(total: int, d: Digit)
    ensures (total + d) % 10 == 0 <==> d == (10 - total % 10) % 10
  {
  }

  /** Every prefix has exactly one check digit. */
  lemma CheckDigitIsUnique(prefix: seq<Digit>, d: Digit)
    ensures Valid(prefix + [d]) <==> d == CheckDigit(prefix)
  {
    hide Tail;
    LastDigitAdds(prefix, d);
    ComplementIsUnique(Tail(prefix + [0], |prefix| + 1), d);
  }
}
