/**
 Which candidates are taken for card numbers and what that does to a text (core/security.py,
 `PIIScanner.scan`, `_card_iin_prefix`), stated with check digits and issuer ranges.
 */
module Cards {
  import Luhn
  import opened Redaction

  // ---------------------------------------------------------------------------------------
  // Issuers
  // ---------------------------------------------------------------------------------------

  /** The number that the first `n` digits form. */
  function Leading(d: seq<Luhn.Digit>, n: nat): int
    requires n <= |d|
  {
    if n == 0 then 0 else 10 * Leading(d, n - 1) + d[n - 1]
  }

  /** The issuer ranges, as numbers. */
  predicate Issued(d: seq<Luhn.Digit>)
    requires |d| >= 4
  {
    var two, four := Leading(d, 2), Leading(d, 4);
    || Leading(d, 1) == 4                                  // Visa
    || two == 34 || two == 37                              // Amex
    || 51 <= two <= 55 || 2221 <= four <= 2720             // Mastercard
    || four == 6011 || two == 65                           // Discover
    || 3528 <= four <= 3589                                // JCB
    || two == 30 || two == 36 || two == 38                 // Diners Club
    || two == 62                                           // UnionPay
  }

  lemma LeadingAre(d: seq<Luhn.Digit>)
    requires |d| >= 4
    ensures Leading(d, 1) == d[0]
    ensures var a: int, b: int := d[0], d[1]; Leading(d, 2) == 10 * a + b
    ensures var a: int, b: int, c: int, e: int := d[0], d[1], d[2], d[3];
            Leading(d, 4) == 1000 * a + 100 * b + 10 * c + e
  {
    assert Leading(d, 0) == 0;
    assert Leading(d, 1) == d[0];
    assert Leading(d, 3) == 10 * Leading(d, 2) + d[2];
  }

  lemma TextLeTwo(a: seq<int>, b: seq<int>)
    requires |a| == |b| == 2 && 0 <= a[1] <= 9 && 0 <= b[1] <= 9
    ensures TextLe(a, b) <==> 10 * a[0] + a[1] <= 10 * b[0] + b[1]
  {
    assert TextLe(a[1..], b[1..]) <==> a[1] <= b[1] by {
      assert a[1..][1..] == [] == b[1..][1..];
    }
  }

  lemma TextLeHead(a: seq<int>, b: seq<int>)
    requires a != [] && b != []
    ensures TextLe(a, b) <==> a[0] < b[0] || (a[0] == b[0] && TextLe(a[1..], b[1..]))
  {
  }

  lemma TextLeFour(a: seq<int>, b: seq<int>)
    requires |a| == |b| == 4 && forall i | 0 <= i < 4 :: 0 <= a[i] <= 9 && 0 <= b[i] <= 9
    ensures TextLe(a, b)
            <==> 1000 * a[0] + 100 * a[1] + 10 * a[2] + a[3] <= 1000 * b[0] + 100 * b[1] + 10 * b[2] + b[3]
  {
    hide TextLe;
    TextLeHead(a, b);
    TextLeHead(a[1..], b[1..]);
    assert a[1..][1..] == a[2..] && b[1..][1..] == b[2..];
    TextLeTwo(a[2..], b[2..]);
  }

  lemma FourBetween(d: seq<Luhn.Digit>, low: seq<int>, high: seq<int>)
    requires |d| >= 4 && |low| == |high| == 4 && forall i | 0 <= i < 4 :: 0 <= low[i] <= 9 && 0 <= high[i] <= 9
    ensures TextLe(low, Prefix(d, 4)) && TextLe(Prefix(d, 4), high)
            <==> 1000 * low[0] + 100 * low[1] + 10 * low[2] + low[3] <= Leading(d, 4)
                 <= 1000 * high[0] + 100 * high[1] + 10 * high[2] + high[3]
  {
    hide TextLe, Leading;
    LeadingAre(d);
    var p: seq<int> := Prefix(d, 4);
    assert p == [d[0], d[1], d[2], d[3]];
    TextLeFour(low, p);
    TextLeFour(p, high);
  }

  lemma TwoBetween(d: seq<Luhn.Digit>)
    requires |d| >= 4
    ensures TextLe([5, 1], Prefix(d, 2)) && TextLe(Prefix(d, 2), [5, 5]) <==> 51 <= Leading(d, 2) <= 55
  {
    hide TextLe, Leading;
    LeadingAre(d);
    var p: seq<int> := Prefix(d, 2);
    assert p == [d[0], d[1]];
    TextLeTwo([5, 1], p);
    TextLeTwo(p, [5, 5]);
  }

  lemma TwoIs(d: seq<Luhn.Digit>, a: Luhn.Digit, b: Luhn.Digit)
    requires |d| >= 4
    ensures Prefix(d, 2) == [a, b] <==> Leading(d, 2) == 10 * a + b
  {
    hide Leading;
    LeadingAre(d);
    assert Prefix(d, 2) == [d[0], d[1]];
  }

  lemma FourIs6011(d: seq<Luhn.Digit>)
    requires |d| >= 4
    ensures Prefix(d, 4) == [6, 0, 1, 1] <==> Leading(d, 4) == 6011
  {
    hide Leading;
    LeadingAre(d);
    assert Prefix(d, 4) == [d[0], d[1], d[2], d[3]];
  }

  /** Comparing prefixes as text is comparing them as numbers. */
  lemma KnownIssuerIff(d: seq<Luhn.Digit>)
    requires |d| >= 4
    ensures KnownIssuer(d) <==> Issued(d)
  {
    hide TextLe, Leading, Prefix;
    LeadingAre(d);
    TwoIs(d, 3, 4);
    TwoIs(d, 3, 7);
    TwoBetween(d);
    FourBetween(d, [2, 2, 2, 1], [2, 7, 2, 0]);
    FourIs6011(d);
    TwoIs(d, 6, 5);
    FourBetween(d, [3, 5, 2, 8], [3, 5, 8, 9]);
    TwoIs(d, 3, 0);
    TwoIs(d, 3, 6);
    TwoIs(d, 3, 8);
    TwoIs(d, 6, 2);
  }

  // ---------------------------------------------------------------------------------------
  // Digits of a candidate
  // ---------------------------------------------------------------------------------------

  lemma {:induction false} DigitsConcat(a: string, b: string)
    ensures Digits(a + b) == Digits(a) + Digits(b)
  {
    if b == "" {
      assert a + b == a;
    } else {
      DigitsConcat(a, b[..|b| - 1]);
      assert (a + b)[..|a + b| - 1] == a + b[..|b| - 1];
    }
  }

  /** One character: its digit, and nothing for any other character. */
  lemma DigitsOfOne(c: char)
    ensures Digits([c]) == if c in "0123456789" then [c as int - '0' as int] else []
  {
    assert [c][..0] == "";
    assert c in "0123456789" <==> '0' <= c <= '9' by {
      var all := "0123456789";
      assert '0' <= c <= '9' ==> all[c as int - '0' as int] == c;
    }
  }

  /** Changing one digit of a text changes one of its digits. */
  lemma DigitsUpdate(s: string, q: nat, x: char)
    requires q < |s| && '0' <= s[q] <= '9' && '0' <= x <= '9'
    ensures var i := |Digits(s[..q])|;
            && i < |Digits(s)| && Digits(s)[i] == s[q] as int - '0' as int
            && Digits(s[q := x]) == Digits(s)[i := x as int - '0' as int]
  {
    hide Digits;
    var a, b := s[..q], s[q + 1..];
    DigitsAround(a, s[q], b);
    DigitsAround(a, x, b);
    assert s == a + [s[q]] + b && s[q := x] == a + [x] + b;
  }

  lemma DigitsAround(a: string, c: char, b: string)
    requires '0' <= c <= '9'
    ensures Digits(a + [c] + b) == Digits(a) + [c as int - '0' as int] + Digits(b)
  {
    hide Digits;
    DigitsConcat(a + [c], b);
    DigitsConcat(a, [c]);
    DigitsOfOne(c);
    var all := "0123456789";
    assert all[c as int - '0' as int] == c;
  }

  // ---------------------------------------------------------------------------------------
  // Cards among the matches
  // ---------------------------------------------------------------------------------------

  /** The reference: 13 to 19 digits, of which the last is the check digit of the others and the
      first ones are those of an issuer. */
  predicate IsCardNumber(d: seq<Luhn.Digit>) {
    && 13 <= |d| <= 19
    && d[|d| - 1] == Luhn.CheckDigit(d[..|d| - 1])
    && Issued(d)
  }

  lemma CardIff(text: string, s: Span)
    requires Within(s, |text|)
    ensures IsCard(text, s) <==> IsCardNumber(Digits(text[s.start..s.end]))
  {
    hide Digits, KnownIssuer, Issued, Luhn.Valid, Luhn.CheckDigit;
    var d := Digits(text[s.start..s.end]);
    if |d| >= 13 {
      KnownIssuerIff(d);
      Luhn.CheckDigitIsUnique(d[..|d| - 1], d[|d| - 1]);
      assert d == d[..|d| - 1] + [d[|d| - 1]];
    }
  }

  lemma {:induction false} CardMatchesHold(text: string, spans: seq<Span>, s: Span)
    requires AllWithin(spans, |text|) && Within(s, |text|)
    ensures MatchOf(text, CreditCard, s) in CardMatches(text, spans) <==> s in spans && IsCard(text, s)
    ensures forall m | m in CardMatches(text, spans) :: m.category == CreditCard
  {
    hide IsCard;
    if spans != [] {
      var front, last := spans[..|spans| - 1], spans[|spans| - 1];
      CardMatchesHold(text, front, s);
      assert spans == front + [last];
      assert MatchOf(text, CreditCard, s) == MatchOf(text, CreditCard, last) <==> s == last;
    }
  }

  lemma {:induction false} PatternMatchesHold(detectors: seq<Detector>, text: string, m: Match)
    requires forall i | 0 <= i < |detectors| :: AllWithin(detectors[i].find(text), |text|)
    requires m in PatternMatches(detectors, text)
    ensures exists i | 0 <= i < |detectors| :: detectors[i].category == m.category
  {
    var front, last := detectors[..|detectors| - 1], detectors[|detectors| - 1];
    if m in PatternMatches(front, text) {
      PatternMatchesHold(front, text, m);
      var i :| 0 <= i < |front| && front[i].category == m.category;
      assert detectors[i] == front[i];
    } else {
      assert m in MatchesOf(text, last.category, last.find(text));
      assert detectors[|detectors| - 1].category == m.category;
    }
  }

  /** No pattern of the table is for cards, as in the program's own table. */
  predicate NoCardPattern(sc: Scanner) {
    forall i | 0 <= i < |sc.detectors| :: sc.detectors[i].category != CreditCard
  }

  /** A candidate is reported as a card exactly when its digits are a card number: valid check digit
      and an issuer's leading digits. */
  lemma ReportedIffCard(sc: Scanner, text: string, s: Span)
    requires Fits(sc, text) && NoCardPattern(sc) && Within(s, |text|)
    ensures MatchOf(text, CreditCard, s) in AllMatches(sc, text)
            <==> s in sc.cards(text) && IsCardNumber(Digits(text[s.start..s.end]))
  {
    hide IsCard, IsCardNumber, CardMatches, PatternMatches, Digits;
    var m := MatchOf(text, CreditCard, s);
    CardIff(text, s);
    CardMatchesHold(text, sc.cards(text), s);
    if m in PatternMatches(sc.detectors, text) {
      PatternMatchesHold(sc.detectors, text, m);
    }
  }

  lemma MatchIsCovered(matches: seq<Match>, m: Match, p: int)
    requires m in matches && m.start <= p < m.end
    ensures Covered(SpansOf(matches), p)
  {
    var i :| 0 <= i < |matches| && matches[i] == m;
    assert SpansOf(matches)[i] == Span(m.start, m.end);
  }

  /** Every position of such a candidate is covered by the matches, so it is redacted. */
  lemma CardIsCovered(sc: Scanner, text: string, s: Span, p: int)
    requires Fits(sc, text) && s in sc.cards(text) && Within(s, |text|)
    requires IsCardNumber(Digits(text[s.start..s.end])) && s.start <= p < s.end
    ensures Covered(SpansOf(AllMatches(sc, text)), p)
  {
    hide IsCardNumber, IsCard, CardMatches, PatternMatches, Digits, SpansOf, Covered;
    CardIff(text, s);
    CardMatchesHold(text, sc.cards(text), s);
    MatchIsCovered(AllMatches(sc, text), MatchOf(text, CreditCard, s), p);
  }

  /** What is covered leaves no trace: two texts that differ in covered positions alone are redacted
      to the same. */
  lemma {:induction false} CoveredLeavesNoTrace(text: string, text': string, spans: seq<Span>, placeholder: string,
                                                p: nat)
    requires |text| == |text'| && p <= |text|
    requires forall x | 0 <= x < |text| && !Covered(spans, x) :: text[x] == text'[x]
    ensures Mask(text, spans, placeholder, p) == Mask(text', spans, placeholder, p)
    decreases |text| - p
  {
    hide Covered;
    if p < |text| {
      CoveredLeavesNoTrace(text, text', spans, placeholder, p + 1);
    }
  }

  /** A card number with one digit mistyped is not reported as a card. */
  lemma MistypedCardIsNone(text: string, s: Span, q: nat, x: char)
    requires Within(s, |text|) && IsCard(text, s) && q < s.end - s.start
    requires '0' <= text[s.start + q] <= '9' && '0' <= x <= '9' && x != text[s.start + q]
    ensures !IsCard(text[s.start + q := x], s)
  {
    hide Digits, KnownIssuer, Luhn.Valid;
    var part := text[s.start..s.end];
    var i := |Digits(part[..q])|;
    DigitsUpdate(part, q, x);
    assert text[s.start + q := x][s.start..s.end] == part[q := x];
    Luhn.SingleErrorCaught(Digits(part), i, x as int - '0' as int);
  }

  // ---------------------------------------------------------------------------------------
  // All matches
  // ---------------------------------------------------------------------------------------

  lemma {:induction false} PatternMatchesExactly(detectors: seq<Detector>, text: string, m: Match)
    requires forall i | 0 <= i < |detectors| :: AllWithin(detectors[i].find(text), |text|)
    ensures m in PatternMatches(detectors, text)
            <==> exists i | 0 <= i < |detectors| :: FoundBy(detectors[i], text, m)
  {
    if detectors != [] {
      var front, last := detectors[..|detectors| - 1], detectors[|detectors| - 1];
      PatternMatchesExactly(front, text, m);
      FoundIff(last, text, m);
      assert forall i | 0 <= i < |front| :: front[i] == detectors[i];
      hide FoundBy, MatchesOf;
    }
  }

  /** The pattern matched the part of the text that `m` reports, under its category. */
  predicate FoundBy(d: Detector, text: string, m: Match)
    requires AllWithin(d.find(text), |text|)
  {
    Span(m.start, m.end) in d.find(text) && 0 <= m.start <= m.end <= |text| && m.value == text[m.start..m.end]
    && m.category == d.category
  }

  lemma FoundIff(d: Detector, text: string, m: Match)
    requires AllWithin(d.find(text), |text|)
    ensures m in MatchesOf(text, d.category, d.find(text)) <==> FoundBy(d, text, m)
  {
    var spans := d.find(text);
    if FoundBy(d, text, m) {
      var i :| 0 <= i < |spans| && spans[i] == Span(m.start, m.end);
      assert MatchesOf(text, d.category, spans)[i] == m;
    }
  }

  /** What a scan reports, exactly: the parts of the text that some pattern matched, under its
      category, and the candidates that are card numbers. */
  lemma ReportsExactly(sc: Scanner, text: string, m: Match)
    requires Fits(sc, text)
    ensures m in AllMatches(sc, text)
            <==> || (exists i | 0 <= i < |sc.detectors| :: FoundBy(sc.detectors[i], text, m))
                 || (&& m.category == CreditCard && Span(m.start, m.end) in sc.cards(text)
                     && 0 <= m.start <= m.end <= |text| && m.value == text[m.start..m.end]
                     && IsCardNumber(Digits(m.value)))
  {
    hide IsCardNumber, Digits, FoundBy, IsCard;
    PatternMatchesExactly(sc.detectors, text, m);
    CardsExactly(text, sc.cards(text), m);
    hide PatternMatches, CardMatches;
  }

  lemma {:induction false} CardsExactly(text: string, spans: seq<Span>, m: Match)
    requires AllWithin(spans, |text|)
    ensures m in CardMatches(text, spans)
            <==> && m.category == CreditCard && Span(m.start, m.end) in spans
                 && 0 <= m.start <= m.end <= |text| && m.value == text[m.start..m.end]
                 && IsCardNumber(Digits(m.value))
  {
    hide IsCardNumber, Digits, IsCard;
    if spans != [] {
      var front, last := spans[..|spans| - 1], spans[|spans| - 1];
      CardsExactly(text, front, m);
      CardIff(text, last);
      assert spans == front + [last];
    }
  }

  // ---------------------------------------------------------------------------------------
  // The order of a scan
  // ---------------------------------------------------------------------------------------

  predicate ByStart(matches: seq<Match>) {
    forall i, j | 0 <= i < j < |matches| :: matches[i].start <= matches[j].start
  }

  /** The matches that begin at `start`, in order. */
  function At(matches: seq<Match>, start: int): seq<Match> {
    if matches == [] then []
    else
      var last := matches[|matches| - 1];
      At(matches[..|matches| - 1], start) + if last.start == start then [last] else []
  }

  lemma AtNext(front: seq<Match>, last: Match, start: int)
    ensures At(front + [last], start) == At(front, start) + if last.start == start then [last] else []
  {
    assert (front + [last])[..|front|] == front;
  }

  lemma AscendsToLast(front: seq<Match>, last: Match)
    requires ByStart(front) && forall i | 0 <= i < |front| :: front[i].start <= last.start
    ensures ByStart(front + [last])
  {
  }

  lemma InsertIs(x: Match, s: seq<Match>)
    ensures s == [] || s[|s| - 1].start <= x.start ==> InsertBy(x, s, StartLe) == s + [x]
    ensures s != [] && s[|s| - 1].start > x.start ==>
              InsertBy(x, s, StartLe) == InsertBy(x, s[..|s| - 1], StartLe) + [s[|s| - 1]]
  {
  }

  lemma InsertedBelow(x: Match, front: seq<Match>, last: Match)
    requires ByStart(front + [last]) && x.start <= last.start
    ensures forall i | 0 <= i < |InsertBy(x, front, StartLe)| :: InsertBy(x, front, StartLe)[i].start <= last.start
    ensures ByStart(front)
  {
    hide InsertBy;
    var rest := InsertBy(x, front, StartLe);
    InsertByKeeps(x, front, StartLe);
    assert forall i | 0 <= i < |front| :: (front + [last])[i] == front[i];
    assert (front + [last])[|front|] == last;
    forall i | 0 <= i < |rest|
      ensures rest[i].start <= last.start
    {
      assert rest[i] in multiset(rest);
      assert rest[i] in front || rest[i] == x;
    }
  }

  lemma {:induction false} InsertInOrder(x: Match, s: seq<Match>, start: int)
    requires ByStart(s)
    ensures ByStart(InsertBy(x, s, StartLe))
    ensures At(InsertBy(x, s, StartLe), start) == At(s + [x], start)
  {
    hide InsertBy, At, ByStart;
    InsertIs(x, s);
    if s == [] || s[|s| - 1].start <= x.start {
      LargestLast(s, x);
    } else {
      var front, last := s[..|s| - 1], s[|s| - 1];
      var rest := InsertBy(x, front, StartLe);
      assert s == front + [last];
      InsertedBelow(x, front, last);
      InsertInOrder(x, front, start);
      AscendsToLast(rest, last);
      AtNext(rest, last, start);
      AtNext(front, x, start);
      AtNext(front, last, start);
      AtNext(front + [last], x, start);
    }
  }

  lemma LargestLast(s: seq<Match>, x: Match)
    requires ByStart(s) && (s != [] ==> s[|s| - 1].start <= x.start)
    ensures ByStart(s + [x])
  {
  }

  lemma SortIs(front: seq<Match>, last: Match)
    ensures SortBy(front + [last], StartLe) == InsertBy(last, SortBy(front, StartLe), StartLe)
    ensures SortBy([], StartLe) == [] && ByStart([])
  {
    assert (front + [last])[..|front|] == front;
    hide InsertBy;
  }

  /** The matches of a scan come by ascending start, and those with the same start in the order in
      which they were found. */
  lemma {:induction false} ScanOrder(matches: seq<Match>, start: int)
    ensures ByStart(SortBy(matches, StartLe)) && At(SortBy(matches, StartLe), start) == At(matches, start)
    ensures multiset(SortBy(matches, StartLe)) == multiset(matches)
  {
    hide SortBy, InsertBy, At, ByStart;
    SortByKeeps(matches, StartLe);
    if matches == [] {
      SortIs([], Match(CreditCard, "", 0, 0));
    } else {
      var front, last := matches[..|matches| - 1], matches[|matches| - 1];
      assert matches == front + [last];
      SortIs(front, last);
      ScanOrder(front, start);
      InsertInOrder(last, SortBy(front, StartLe), start);
      AtNext(SortBy(front, StartLe), last, start);
      AtNext(front, last, start);
    }
  }
}
