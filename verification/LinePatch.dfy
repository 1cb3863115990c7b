/**
 Replacing lines of a remote file (workers/ssh_tools.py, the script generated by
 `_build_patch_script_safe`).
 */
module LinePatch {
  import opened Common

  // ---------------------------------------------------------------------------------------
  // Lines
  // ---------------------------------------------------------------------------------------

  /** Line boundaries of `str.splitlines` other than newline and carriage return. */
  predicate IsOddBreak(c: char) {
    c in {'\U{0B}', '\U{0C}', '\U{1C}', '\U{1D}', '\U{1E}', '\U{85}', '\U{2028}', '\U{2029}'}
  }

  predicate IsBreak(c: char) {
    c == '\n' || c == '\r' || IsOddBreak(c)
  }

  /** Length of the first line with its boundary; "\r\n" is one boundary. */
  function FirstLength(s: string): (n: nat)
    requires s != ""
    ensures 0 < n <= |s|
    decreases |s|
  {
    if s[0] == '\r' then (if |s| > 1 && s[1] == '\n' then 2 else 1)
    else if IsBreak(s[0]) || |s| == 1 then 1
    else 1 + FirstLength(s[1..])
  }

  /** `s.splitlines(True)` */
  function SplitLines(s: string): seq<string>
    decreases |s|
  {
    if s == "" then [] else [s[..FirstLength(s)]] + SplitLines(s[FirstLength(s)..])
  }

  function Join(lines: seq<string>): string {
    if lines == [] then "" else lines[0] + Join(lines[1..])
  }

  /** Reading in text mode: "\r\n" and "\r" become "\n". */
  function Translate(raw: string): string
    decreases |raw|
  {
    if raw == "" then ""
    else if raw[0] == '\r' then "\n" + Translate(if |raw| > 1 && raw[1] == '\n' then raw[2..] else raw[1..])
    else [raw[0]] + Translate(raw[1..])
  }

  function Last(s: string): char
    requires s != ""
  {
    s[|s| - 1]
  }

  function Terminate(line: string): string {
    if line != "" && Last(line) == '\n' then line else line + "\n"
  }

  function TerminateAll(lines: seq<string>): seq<string> {
    seq(|lines|, i requires 0 <= i < |lines| => Terminate(lines[i]))
  }

  // ---------------------------------------------------------------------------------------
  // The patch
  // ---------------------------------------------------------------------------------------

  datatype Outcome = Patched(text: string) | InvalidRange | HashMismatch

  function Min(a: int, b: int): int {
    if a <= b then a else b
  }

  /** The slice that `lines[from - 1 : to]` selects. */
  function Slice(lines: seq<string>, from: int, to: int): seq<string>
    requires 1 <= from <= to && from <= |lines|
  {
    lines[from - 1..Min(to, |lines|)]
  }

  function Replace(lines: seq<string>, from: int, to: int, added: seq<string>): seq<string>
    requires 1 <= from <= to && from <= |lines|
  {
    lines[..from - 1] + added + lines[Min(to, |lines|)..]
  }

  /** The script; `hash` is the digest over a text and an empty expectation counts as none. */
  function Patch(raw: string, from: int, to: int, content: string, expected: Option<string>,
                 hash: string -> string): Outcome {
    var lines := SplitLines(Translate(raw));
    if from < 1 || to < from || from > |lines| then InvalidRange
    else if expected.Some? && expected.value != "" && hash(Join(Slice(lines, from, to))) != expected.value
    then HashMismatch
    else Patched(Join(Replace(lines, from, to, TerminateAll(SplitLines(content)))))
  }

  // ---------------------------------------------------------------------------------------
  // Splitting and joining
  // ---------------------------------------------------------------------------------------

  /** One line: a single boundary at most, and at its end. */
  predicate IsLine(s: string) {
    s != "" && FirstLength(s) == |s|
  }

  predicate Ended(s: string) {
    s != "" && IsBreak(Last(s))
  }

  /** A list of lines that splitting can give. */
  predicate Canonical(lines: seq<string>) {
    && (forall i | 0 <= i < |lines| :: IsLine(lines[i]))
    && (forall i | 0 <= i < |lines| - 1 :: Ended(lines[i]))
    && (forall i | 0 <= i < |lines| - 1 :: !(Last(lines[i]) == '\r' && lines[i + 1][0] == '\n'))
  }

  lemma {:induction false} FirstLengthFacts(s: string)
    requires s != ""
    ensures var n := FirstLength(s);
            && IsLine(s[..n])
            && (n < |s| ==> IsBreak(s[n - 1]) && !(s[n - 1] == '\r' && s[n] == '\n'))
    decreases |s|
  {
    var n := FirstLength(s);
    if s[0] != '\r' && !IsBreak(s[0]) && |s| > 1 {
      FirstLengthFacts(s[1..]);
      assert s[..n][1..] == s[1..][..n - 1];
    }
  }

  lemma {:induction false} FirstLengthPrefix(line: string, rest: string)
    requires IsLine(line) && (rest != "" ==> Ended(line)) && !(rest != "" && Last(line) == '\r' && rest[0] == '\n')
    ensures FirstLength(line + rest) == |line|
    decreases |line|
  {
    var s := line + rest;
    if rest == "" {
      assert s == line;
    } else if line[0] != '\r' && !IsBreak(line[0]) {
      assert |line| > 1;
      assert s[1..] == line[1..] + rest;
      FirstLengthPrefix(line[1..], rest);
    } else {
      assert s[0] == line[0];
      if |line| > 1 {
        assert s[1] == line[1];
      }
    }
  }

  lemma CanonicalCons(line: string, lines: seq<string>)
    requires Canonical(lines) && IsLine(line)
    requires lines != [] ==> Ended(line) && !(Last(line) == '\r' && lines[0][0] == '\n')
    ensures Canonical([line] + lines) && Join([line] + lines) == line + Join(lines)
  {
    hide IsLine, Ended, IsBreak;
    var all := [line] + lines;
    assert forall i | 0 < i < |all| :: all[i] == lines[i - 1];
    assert all[1..] == lines;
  }

  lemma FirstLineBefore(s: string)
    requires s != ""
    ensures var (line, rest) := (s[..FirstLength(s)], s[FirstLength(s)..]);
            && IsLine(line) && line[0] == s[0] && s == line + rest
            && (rest != "" ==> Ended(line) && !(Last(line) == '\r' && rest[0] == '\n'))
  {
    FirstLengthFacts(s);
  }

  lemma {:induction false} SplitIsCanonical(s: string)
    ensures Canonical(SplitLines(s)) && Join(SplitLines(s)) == s
    ensures s != "" ==> SplitLines(s) != [] && SplitLines(s)[0] != "" && SplitLines(s)[0][0] == s[0]
    decreases |s|
  {
    hide Canonical, IsLine, Ended;
    if s == "" {
      assert Canonical([]) by {
        NoLines();
      }
    } else {
      var rest := s[FirstLength(s)..];
      FirstLineBefore(s);
      SplitIsCanonical(rest);
      CanonicalCons(s[..FirstLength(s)], SplitLines(rest));
    }
  }

  lemma NoLines()
    ensures Canonical([])
  {
  }

  lemma CanonicalTail(lines: seq<string>)
    requires Canonical(lines) && lines != []
    ensures Canonical(lines[1..])
  {
    hide IsLine, Ended;
    var t := lines[1..];
    assert forall i | 0 <= i < |t| :: t[i] == lines[i + 1];
  }

  lemma JoinHead(lines: seq<string>)
    requires Canonical(lines) && lines != []
    ensures Join(lines[1..]) != "" ==> |lines| > 1 && Join(lines[1..])[0] == lines[1][0]
    ensures |lines| > 1 ==> Join(lines[1..]) != ""
  {
    if |lines| > 1 {
      assert lines[1..][0] == lines[1];
      assert IsLine(lines[1]);
    }
  }

  lemma {:induction false} CanonicalIsSplit(lines: seq<string>)
    requires Canonical(lines)
    ensures SplitLines(Join(lines)) == lines
    decreases |lines|
  {
    if lines != [] {
      var line, rest := lines[0], Join(lines[1..]);
      CanonicalTail(lines);
      CanonicalIsSplit(lines[1..]);
      JoinHead(lines);
      FirstLengthPrefix(line, rest);
      assert (line + rest)[..|line|] == line && (line + rest)[|line|..] == rest;
    }
  }

  /** A list of lines comes back from joining and splitting exactly when it is canonical. */
  lemma SplitJoinIff(lines: seq<string>)
    ensures SplitLines(Join(lines)) == lines <==> Canonical(lines)
  {
    SplitIsCanonical(Join(lines));
    if Canonical(lines) {
      CanonicalIsSplit(lines);
    }
  }

  // ---------------------------------------------------------------------------------------
  // Reading in text mode
  // ---------------------------------------------------------------------------------------

  predicate NoReturn(s: string) {
    forall i | 0 <= i < |s| :: s[i] != '\r'
  }

  lemma {:induction false} TranslateFacts(raw: string)
    ensures NoReturn(Translate(raw)) && |Translate(raw)| <= |raw|
    ensures Translate(raw) == raw <==> NoReturn(raw)
    decreases |raw|
  {
    if raw != "" {
      var t := Translate(raw);
      if raw[0] == '\r' {
        TranslateFacts(if |raw| > 1 && raw[1] == '\n' then raw[2..] else raw[1..]);
        assert t[0] == '\n' && !NoReturn(raw);
      } else {
        TranslateFacts(raw[1..]);
        assert raw == [raw[0]] + raw[1..];
        assert t[1..] == Translate(raw[1..]);
      }
    }
  }

  lemma {:induction false} TranslateConcat(a: string, b: string)
    requires a == "" || b == "" || !(Last(a) == '\r' && b[0] == '\n')
    ensures Translate(a + b) == Translate(a) + Translate(b)
    decreases |a|
  {
    var s := a + b;
    if a == "" {
      assert s == b;
    } else if b == "" {
      assert s == a;
    } else {
      var n := if a[0] == '\r' && |a| > 1 && a[1] == '\n' then 2 else 1;
      assert |a| > 1 ==> s[1] == a[1];
      assert |a| == 1 ==> s[1] == b[0];
      assert s[n..] == a[n..] + b;
      assert a[n..] != "" ==> Last(a[n..]) == Last(a);
      TranslateConcat(a[n..], b);
    }
  }

  lemma {:induction false} TranslateLine(line: string)
    requires IsLine(line)
    ensures IsLine(Translate(line)) && (Ended(line) ==> Ended(Translate(line)))
    decreases |line|
  {
    var t := Translate(line);
    if line[0] == '\r' {
      assert Translate(if |line| > 1 && line[1] == '\n' then line[2..] else line[1..]) == "";
      assert t == "\n";
    } else if IsBreak(line[0]) || |line| == 1 {
      assert t == line;
    } else {
      TranslateLine(line[1..]);
      assert t[1..] == Translate(line[1..]);
      assert Last(line) == Last(line[1..]) && Last(t) == Last(t[1..]);
    }
  }

  function TranslateAll(lines: seq<string>): seq<string> {
    seq(|lines|, i requires 0 <= i < |lines| => Translate(lines[i]))
  }

  lemma TranslateCanonical(lines: seq<string>)
    requires Canonical(lines)
    ensures Canonical(TranslateAll(lines))
  {
    hide IsLine, Ended;
    var t := TranslateAll(lines);
    forall i | 0 <= i < |t|
      ensures IsLine(t[i]) && (Ended(lines[i]) ==> Ended(t[i])) && NoReturn(t[i])
    {
      TranslateLine(lines[i]);
      TranslateFacts(lines[i]);
    }
    hide Translate;
    NoReturnCanonical(t);
  }

  lemma NoReturnCanonical(lines: seq<string>)
    requires forall i | 0 <= i < |lines| :: IsLine(lines[i]) && NoReturn(lines[i])
    requires forall i | 0 <= i < |lines| - 1 :: Ended(lines[i])
    ensures Canonical(lines)
  {
    hide FirstLength;
  }

  lemma {:induction false} TranslateJoin(lines: seq<string>)
    requires Canonical(lines)
    ensures Join(TranslateAll(lines)) == Translate(Join(lines))
    decreases |lines|
  {
    if lines != [] {
      CanonicalTail(lines);
      TranslateJoin(lines[1..]);
      JoinHead(lines);
      assert TranslateAll(lines)[1..] == TranslateAll(lines[1..]);
      TranslateConcat(lines[0], Join(lines[1..]));
    }
  }

  /** The text-mode read keeps the lines of a file: it has as many, each the translation of one. */
  lemma TranslateKeepsLines(raw: string)
    ensures SplitLines(Translate(raw)) == TranslateAll(SplitLines(raw))
  {
    var lines := SplitLines(raw);
    SplitIsCanonical(raw);
    hide SplitLines, Canonical, Translate;
    TranslateJoin(lines);
    TranslateCanonical(lines);
    SplitJoinIff(TranslateAll(lines));
  }

  // ---------------------------------------------------------------------------------------
  // What a patch does
  // ---------------------------------------------------------------------------------------

  /** Newline, alone or after a carriage return, is the only boundary of the new lines. */
  predicate PlainEnds(lines: seq<string>) {
    forall i | 0 <= i < |lines| :: lines[i] != "" && !IsOddBreak(Last(lines[i]))
  }

  lemma {:induction false} TerminateLine(line: string)
    requires IsLine(line)
    ensures IsLine(Terminate(line)) <==> !IsOddBreak(Last(line))
    ensures Last(Terminate(line)) == '\n' && Ended(Terminate(line))
    decreases |line|
  {
    if Last(line) != '\n' {
      var s := line + "\n";
      if line[0] == '\r' || IsBreak(line[0]) || |line| == 1 {
        assert |line| == 1;
        assert s[1..] == "\n" && FirstLength("\n") == 1;
      } else {
        TerminateLine(line[1..]);
        assert s[1..] == line[1..] + "\n";
      }
    }
  }

  /** Lines of a text without carriage returns hold none. */
  lemma {:induction false} LinesNoReturn(s: string)
    requires NoReturn(s)
    ensures forall i | 0 <= i < |SplitLines(s)| :: NoReturn(SplitLines(s)[i])
    decreases |s|
  {
    if s != "" {
      LinesNoReturn(s[FirstLength(s)..]);
    }
  }

  lemma ReplaceCanonical(lines: seq<string>, from: int, to: int, content: seq<string>)
    requires Canonical(lines) && (forall i | 0 <= i < |lines| :: NoReturn(lines[i]))
    requires 1 <= from <= to && from <= |lines|
    requires forall i | 0 <= i < |content| :: IsLine(content[i])
    ensures Canonical(Replace(lines, from, to, TerminateAll(content))) <==> PlainEnds(content)
  {
    hide Canonical, NoReturn, IsLine, Ended;
    forall i | 0 <= i < |content|
      ensures content[i] != ""
    {
      NonemptyLine(content[i]);
    }
    var added := TerminateAll(content);
    var r, a := Replace(lines, from, to, added), from - 1;
    forall i | 0 <= i < |content|
      ensures IsLine(r[a + i]) <==> !IsOddBreak(Last(content[i]))
      ensures Ended(r[a + i]) && Last(r[a + i]) == '\n'
    {
      assert r[a + i] == Terminate(content[i]);
      TerminateLine(content[i]);
    }
    if PlainEnds(content) {
      ReplaceKeepsLines(lines, from, to, added);
    } else {
      var i :| 0 <= i < |content| && IsOddBreak(Last(content[i]));
      assert !IsLine(r[a + i]);
      if Canonical(r) {
        CanonicalMember(r, a + i);
      }
    }
  }

  lemma ReplaceKeepsLines(lines: seq<string>, from: int, to: int, added: seq<string>)
    requires Canonical(lines) && (forall i | 0 <= i < |lines| :: NoReturn(lines[i]))
    requires 1 <= from <= to && from <= |lines|
    requires forall i | 0 <= i < |added| :: IsLine(added[i]) && Ended(added[i]) && Last(added[i]) == '\n'
    ensures Canonical(Replace(lines, from, to, added))
  {
    hide IsLine, Ended, Canonical, NoReturn;
    var r, a, c := Replace(lines, from, to, added), from - 1, Min(to, |lines|);
    var b := a + |added|;
    assert forall i | 0 <= i < a :: r[i] == lines[i];
    assert forall i | a <= i < b :: r[i] == added[i - a];
    assert forall i | b <= i < |r| :: r[i] == lines[c + i - b];
    LinesAround(lines, r, a, b, c);
  }

  lemma LinesAround(lines: seq<string>, r: seq<string>, a: nat, b: nat, c: nat)
    requires Canonical(lines) && (forall i | 0 <= i < |lines| :: NoReturn(lines[i]))
    requires a < c <= |lines| && a <= b <= |r| && |r| - b == |lines| - c
    requires (forall i | 0 <= i < a :: r[i] == lines[i]) && (forall i | b <= i < |r| :: r[i] == lines[c + i - b])
    requires forall i | a <= i < b :: Ended(r[i]) && Last(r[i]) == '\n'
    requires forall i | a <= i < b :: IsLine(r[i])
    ensures Canonical(r)
  {
  }

  /** The patch, exactly: the written file splits into the lines before the range, the new lines
      (each ended by a newline) and the lines after the range, with an overlong range cut at the
      end of the file, if and only if newline is the only boundary among the new lines. */
  lemma PatchReplacesLines(raw: string, from: int, to: int, content: string, expected: Option<string>,
                           hash: string -> string)
    requires Patch(raw, from, to, content, expected, hash).Patched?
    ensures var lines := SplitLines(Translate(raw));
            && 1 <= from <= to && from <= |lines|
            && (SplitLines(Patch(raw, from, to, content, expected, hash).text)
                == Replace(lines, from, to, TerminateAll(SplitLines(content)))
                <==> PlainEnds(SplitLines(content)))
  {
    var lines, added := SplitLines(Translate(raw)), SplitLines(content);
    SplitIsCanonical(Translate(raw));
    SplitIsCanonical(content);
    TranslateFacts(raw);
    LinesNoReturn(Translate(raw));
    ReplaceCanonical(lines, from, to, added);
    SplitJoinIff(Replace(lines, from, to, TerminateAll(added)));
  }

  /** The range is refused exactly when it is empty, starts before line 1 or starts after the
      last line; one that only ends too late is cut at the end of the file. */
  lemma RangeAccepted(raw: string, from: int, to: int, content: string, hash: string -> string)
    ensures var n := |SplitLines(Translate(raw))|;
            && (Patch(raw, from, to, content, None, hash) != InvalidRange <==> 1 <= from <= to && from <= n)
            && (1 <= from <= n <= to ==>
                  Patch(raw, from, to, content, None, hash) == Patch(raw, from, n, content, None, hash))
  {
    hide SplitLines, Translate, Join, TerminateAll;
  }

  /** How the script ends: an impossible range is refused first, then a nonempty expected digest
      that is not that of the lines in the range; everything else is patched. */
  lemma PatchOutcome(raw: string, from: int, to: int, content: string, expected: Option<string>, hash: string -> string)
    ensures var (lines, outcome) := (SplitLines(Translate(raw)), Patch(raw, from, to, content, expected, hash));
            if from < 1 || to < from || |lines| < from then outcome == InvalidRange
            else
              var was := lines[from - 1..if to <= |lines| then to else |lines|];
              if expected in {None, Some(""), Some(hash(Join(was)))} then outcome.Patched? else outcome == HashMismatch
  {
    hide SplitLines, Translate, Join, TerminateAll;
  }

  // ---------------------------------------------------------------------------------------
  // Patching back
  // ---------------------------------------------------------------------------------------

  lemma {:induction false} JoinConcat(a: seq<string>, b: seq<string>)
    ensures Join(a + b) == Join(a) + Join(b)
  {
    if a == [] {
      assert a + b == b;
    } else {
      assert (a + b)[1..] == a[1..] + b;
      JoinConcat(a[1..], b);
    }
  }

  lemma {:induction false} JoinNoReturn(lines: seq<string>)
    ensures NoReturn(Join(lines)) <==> forall i | 0 <= i < |lines| :: NoReturn(lines[i])
  {
    if lines != [] {
      JoinNoReturn(lines[1..]);
      var a, b := lines[0], Join(lines[1..]);
      assert forall i | 0 <= i < |a| :: (a + b)[i] == a[i];
      assert forall i | 0 <= i < |b| :: (a + b)[|a| + i] == b[i];
      assert forall i | 0 < i < |lines| :: lines[i] == lines[1..][i - 1];
    }
  }

  lemma SliceCanonical(lines: seq<string>, a: nat, b: nat)
    requires Canonical(lines) && a <= b <= |lines|
    ensures Canonical(lines[a..b])
  {
    hide IsLine, Ended;
    var t := lines[a..b];
    assert forall i | 0 <= i < |t| :: t[i] == lines[a + i];
  }

  /** Every line ends in a newline. */
  predicate NewlineEnded(lines: seq<string>) {
    forall i | 0 <= i < |lines| :: lines[i] != "" && Last(lines[i]) == '\n'
  }

  /** After a text that ends in a boundary other than a carriage return, splitting starts anew. */
  lemma SplitConcat(a: string, b: string)
    requires a == "" || (Ended(a) && Last(a) != '\r')
    ensures SplitLines(a + b) == SplitLines(a) + SplitLines(b)
  {
    hide SplitLines;
    var x, y := SplitLines(a), SplitLines(b);
    SplitIsCanonical(a);
    SplitIsCanonical(b);
    JoinConcat(x, y);
    if x != [] {
      LastOfJoin(x);
    }
    CanonicalConcat(x, y);
    SplitJoinIff(x + y);
  }

  lemma {:induction false} LastOfJoin(lines: seq<string>)
    requires Canonical(lines) && lines != []
    ensures Join(lines) != "" && lines[|lines| - 1] != "" && Last(Join(lines)) == Last(lines[|lines| - 1])
  {
    hide Canonical;
    assert lines[0] != "" by {
      CanonicalMember(lines, 0);
    }
    if |lines| > 1 {
      CanonicalTail(lines);
      LastOfJoin(lines[1..]);
    }
  }

  lemma CanonicalMember(lines: seq<string>, i: nat)
    requires Canonical(lines) && i < |lines|
    ensures lines[i] != "" && IsLine(lines[i])
  {
  }

  lemma CanonicalConcat(x: seq<string>, y: seq<string>)
    requires Canonical(x) && Canonical(y)
    requires x != [] ==> Ended(x[|x| - 1]) && Last(x[|x| - 1]) != '\r'
    ensures Canonical(x + y)
  {
    hide IsLine, Ended;
  }

  lemma {:induction false} JoinEnded(lines: seq<string>)
    requires forall i | 0 <= i < |lines| :: lines[i] != "" && IsBreak(Last(lines[i])) && Last(lines[i]) != '\r'
    ensures lines != [] ==> Ended(Join(lines)) && Last(Join(lines)) != '\r'
  {
    if lines != [] {
      hide IsBreak;
      JoinEnded(lines[1..]);
    }
  }

  lemma SplitTerminated(line: string)
    requires IsLine(line)
    ensures |SplitLines(Terminate(line))| >= 1
    ensures |SplitLines(Terminate(line))| == 1 <==> !IsOddBreak(Last(line))
  {
    hide IsOddBreak;
    var t := Terminate(line);
    TerminateLine(line);
    SplitIsCanonical(t);
    var lines := SplitLines(t);
    if |lines| == 1 {
      assert Join(lines) == lines[0];
      CanonicalMember(lines, 0);
    } else if IsLine(t) {
      OneLineSplits(t);
    }
  }

  lemma OneLineSplits(t: string)
    requires IsLine(t)
    ensures SplitLines(t) == [t]
  {
    assert t[..|t|] == t && t[|t|..] == "";
    assert SplitLines(t[|t|..]) == [];
  }

  /** How many lines the new text has once it is in the file. */
  lemma {:induction false} SplitAdded(content: seq<string>)
    requires forall i | 0 <= i < |content| :: IsLine(content[i])
    ensures var n := |SplitLines(Join(TerminateAll(content)))|;
            n >= |content| && (n == |content| <==> PlainEnds(content))
  {
    hide SplitLines, Terminate, IsLine, IsOddBreak;
    if content != [] {
      var rest := content[1..];
      SplitAdded(rest);
      SplitTerminated(content[0]);
      assert TerminateAll(content)[1..] == TerminateAll(rest);
      assert Ended(Terminate(content[0])) && Last(Terminate(content[0])) == '\n' by {
        TerminateLine(content[0]);
      }
      SplitConcat(Terminate(content[0]), Join(TerminateAll(rest)));
      assert PlainEnds(content) <==> PlainEnds([content[0]]) && PlainEnds(rest) by {
        assert content == [content[0]] + rest;
      }
      assert content[0] != "" by {
        NonemptyLine(content[0]);
      }
    } else {
      assert TerminateAll(content) == [];
      SplitNothing();
    }
  }

  lemma NonemptyLine(line: string)
    requires IsLine(line)
    ensures line != ""
  {
  }

  lemma EndsOf(lines: seq<string>, a: nat)
    requires Canonical(lines) && a < |lines| && forall i | 0 <= i < |lines| :: NoReturn(lines[i])
    ensures Join(lines[..a]) == "" || (Ended(Join(lines[..a])) && Last(Join(lines[..a])) != '\r')
    ensures SplitLines(Join(lines[..a])) == lines[..a]
  {
    hide SplitLines, IsLine, Join;
    SliceCanonical(lines, 0, a);
    assert lines[0..a] == lines[..a];
    SplitJoinIff(lines[..a]);
    JoinEnded(lines[..a]);
    assert Join([]) == "" by {
      JoinNothing();
    }
  }

  lemma JoinNothing()
    ensures Join([]) == ""
  {
  }

  lemma SplitNothing()
    ensures SplitLines(Join([])) == []
  {
  }

  lemma AddedEnds(content: seq<string>)
    requires content != [] && forall i | 0 <= i < |content| :: IsLine(content[i])
    ensures Ended(Join(TerminateAll(content))) && Last(Join(TerminateAll(content))) == '\n'
    ensures Join(TerminateAll(content)) != ""
  {
    hide IsLine, Terminate;
    var n := |content| - 1;
    var added := TerminateAll(content);
    assert added == added[..n] + [added[n]];
    JoinConcat(added[..n], [added[n]]);
    assert Join([added[n]]) == added[n] by {
      JoinSingle(added[n]);
    }
    TerminateLine(content[n]);
  }

  lemma JoinSingle(s: string)
    ensures Join([s]) == s
  {
    assert [s][1..] == [];
    assert s + "" == s;
  }

  /** How a patched file reads: the lines before, what the new text splits into, the lines after. */
  lemma PatchedReads(lines: seq<string>, from: int, to: int, content: seq<string>)
    requires Canonical(lines) && 1 <= from <= to && from <= |lines| && content != []
    requires forall i | 0 <= i < |lines| :: NoReturn(lines[i])
    requires forall i | 0 <= i < |content| :: IsLine(content[i])
    ensures SplitLines(Translate(Join(Replace(lines, from, to, TerminateAll(content)))))
            == Replace(lines, from, to, SplitLines(Translate(Join(TerminateAll(content)))))
  {
    hide SplitLines, Translate, Join, Canonical, NoReturn, IsLine, TerminateAll, Ended;
    var a, b := lines[..from - 1], lines[Min(to, |lines|)..];
    var x := Join(TerminateAll(content));
    EndsOf(lines, from - 1);
    AddedEnds(content);
    JoinThree(a, TerminateAll(content), b);
    SliceCanonical(lines, Min(to, |lines|), |lines|);
    assert lines[Min(to, |lines|)..|lines|] == b;
    SplitJoinIff(b);
    JoinNoReturn(a);
    JoinNoReturn(b);
    TranslateFacts(Join(a));
    TranslateFacts(Join(b));
    TranslateConcat(x, Join(b));
    TranslateConcat(Join(a), x + Join(b));
    Associate(Join(a), x, Join(b));
    TranslatedEnds(x);
    SplitConcat(Translate(x), Join(b));
    SplitConcat(Join(a), Translate(x) + Join(b));
    Associate(a, SplitLines(Translate(x)), b);
  }

  lemma Associate<T>(a: seq<T>, b: seq<T>, c: seq<T>)
    ensures a + (b + c) == a + b + c
  {
  }

  lemma TranslatedEnds(x: string)
    requires x != "" && Last(x) == '\n'
    ensures Ended(Translate(x)) && Last(Translate(x)) != '\r'
  {
    hide Translate;
    var n := |x| - 1;
    if n > 0 && x[n - 1] == '\r' {
      var k := n - 1;
      assert x == x[..k] + "\r\n";
      TranslateConcat(x[..k], "\r\n");
      TranslateReturn();
    } else {
      assert x == x[..n] + "\n";
      TranslateConcat(x[..n], "\n");
      TranslateReturn();
    }
  }

  lemma TranslateReturn()
    ensures Translate("\r\n") == "\n" && Translate("\n") == "\n"
  {
    assert "\r\n"[2..] == "" && "\n"[1..] == "";
  }

  lemma SecondPatch(now: seq<string>, text: string, from: int, k: int, was: seq<string>, hash: string -> string)
    requires SplitLines(Translate(text)) == now && Canonical(was)
    requires 1 <= from && 1 <= k && from - 1 + k <= |now|
    ensures Patch(text, from, from - 1 + k, Join(was), None, hash)
            == Patched(Join(Replace(now, from, from - 1 + k, TerminateAll(was))))
  {
    hide SplitLines, Canonical, Translate, Join, TerminateAll;
    SplitJoinIff(was);
  }

  lemma ReplaceTwice(lines: seq<string>, from: int, to: int, added: seq<string>, k: int, x: seq<string>)
    requires 1 <= from <= to && from <= |lines| && 1 <= k <= |added|
    ensures Replace(Replace(lines, from, to, added), from, from - 1 + k, x)
            == lines[..from - 1] + (x + added[k..]) + lines[Min(to, |lines|)..]
  {
    var now := Replace(lines, from, to, added);
    assert now[..from - 1] == lines[..from - 1];
    assert now[from - 1 + k..] == added[k..] + lines[Min(to, |lines|)..];
  }

  /** Putting the old lines back in place of the new ones gives back the file as read, exactly when
      every old line ended in a newline and newline is the only boundary among the new lines. */
  lemma PatchBack(raw: string, from: int, to: int, content: string, hash: string -> string)
    requires Patch(raw, from, to, content, None, hash).Patched? && content != ""
    ensures var lines := SplitLines(Translate(raw));
            var patched := Patch(raw, from, to, content, None, hash).text;
            && 1 <= from <= to && from <= |lines|
            && (Patch(patched, from, from - 1 + |SplitLines(content)|, Join(Slice(lines, from, to)), None, hash)
                == Patched(Translate(raw))
                <==> NewlineEnded(Slice(lines, from, to)) && PlainEnds(SplitLines(content)))
  {
    hide SplitLines, Canonical, Translate, PlainEnds, NewlineEnded, NoReturn, TerminateAll, Join, IsLine;
    var lines, news := SplitLines(Translate(raw)), SplitLines(content);
    SplitIsCanonical(Translate(raw));
    SplitIsCanonical(content);
    TranslateFacts(raw);
    LinesNoReturn(Translate(raw));
    forall i | 0 <= i < |news|
      ensures IsLine(news[i])
    {
      CanonicalMember(news, i);
    }
    var x := SplitLines(Translate(Join(TerminateAll(news))));
    PatchedReads(lines, from, to, news);
    TranslateKeepsLines(Join(TerminateAll(news)));
    SplitAdded(news);
    SliceCanonical(lines, from - 1, Min(to, |lines|));
    var was, rest := Slice(lines, from, to), x[|news|..];
    var text := Join(Replace(lines, from, to, TerminateAll(news)));
    SecondPatch(Replace(lines, from, to, x), text, from, |news|, was, hash);
    ReplaceTwice(lines, from, to, x, |news|, TerminateAll(was));
    SplitIsCanonical(Translate(Join(TerminateAll(news))));
    forall i | 0 <= i < |rest|
      ensures rest[i] != ""
    {
      CanonicalMember(x, |news| + i);
    }
    RestoredIff(lines, from, to, rest);
  }

  lemma PatchedNoReturn(raw: string, from: int, to: int, content: string, hash: string -> string)
    requires Patch(raw, from, to, content, None, hash).Patched? && NoReturn(content)
    ensures NoReturn(Patch(raw, from, to, content, None, hash).text)
  {
    var lines, added := SplitLines(Translate(raw)), TerminateAll(SplitLines(content));
    TranslateFacts(raw);
    LinesNoReturn(Translate(raw));
    LinesNoReturn(content);
    forall i | 0 <= i < |added|
      ensures NoReturn(added[i])
    {
      assert NoReturn(SplitLines(content)[i]);
    }
    hide SplitLines, NoReturn, Translate;
    JoinNoReturn(Replace(lines, from, to, added));
  }

  lemma {:induction false} JoinLonger(lines: seq<string>)
    ensures |Join(TerminateAll(lines))| >= |Join(lines)|
    ensures |Join(TerminateAll(lines))| == |Join(lines)| <==> NewlineEnded(lines)
    ensures NewlineEnded(lines) ==> TerminateAll(lines) == lines
  {
    if lines != [] {
      JoinLonger(lines[1..]);
      assert TerminateAll(lines)[1..] == TerminateAll(lines[1..]);
      assert forall i | 0 < i < |lines| :: lines[i] == lines[1..][i - 1];
    }
  }

  lemma RestoredIff(lines: seq<string>, from: int, to: int, rest: seq<string>)
    requires 1 <= from <= to && from <= |lines| && forall i | 0 <= i < |rest| :: rest[i] != ""
    ensures var was := Slice(lines, from, to);
            Join(lines[..from - 1] + (TerminateAll(was) + rest) + lines[Min(to, |lines|)..]) == Join(lines)
            <==> NewlineEnded(was) && rest == []
  {
    hide Join, NewlineEnded, TerminateAll;
    var a, was, b := lines[..from - 1], Slice(lines, from, to), lines[Min(to, |lines|)..];
    ThreeParts(lines, from, to);
    JoinLonger(was);
    JoinThree(a, was, b);
    JoinThree(a, TerminateAll(was) + rest, b);
    JoinConcat(TerminateAll(was), rest);
    JoinNonempty(rest);
    assert rest == [] ==> TerminateAll(was) + rest == TerminateAll(was);
  }

  lemma JoinNonempty(lines: seq<string>)
    requires forall i | 0 <= i < |lines| :: lines[i] != ""
    ensures Join(lines) == "" <==> lines == []
  {
  }

  lemma ThreeParts(lines: seq<string>, from: int, to: int)
    requires 1 <= from <= to && from <= |lines|
    ensures lines == lines[..from - 1] + Slice(lines, from, to) + lines[Min(to, |lines|)..]
  {
  }

  lemma JoinThree(a: seq<string>, x: seq<string>, b: seq<string>)
    ensures Join(a + x + b) == Join(a) + Join(x) + Join(b)
  {
    JoinConcat(a + x, b);
    JoinConcat(a, x);
  }

  // ---------------------------------------------------------------------------------------
  // Text outside the range
  // ---------------------------------------------------------------------------------------

  /** A patched file holds no carriage return unless the new text brings one, so a file that was
      read and written back whole is the same exactly when it held none. */
  lemma CarriageReturnsAreLost(raw: string, from: int, to: int, content: string, hash: string -> string)
    requires Patch(raw, from, to, content, None, hash).Patched? && NoReturn(content)
    ensures NoReturn(Patch(raw, from, to, content, None, hash).text)
    ensures Join(SplitLines(Translate(raw))) == raw <==> NoReturn(raw)
  {
    PatchedNoReturn(raw, from, to, content, hash);
    SplitIsCanonical(Translate(raw));
    TranslateFacts(raw);
  }

  lemma TranslatedPart(lines: seq<string>)
    requires Canonical(lines)
    ensures |Join(TranslateAll(lines))| <= |Join(lines)|
    ensures Join(TranslateAll(lines)) == Join(lines) <==> forall i | 0 <= i < |lines| :: NoReturn(lines[i])
  {
    hide Join, Translate, Canonical;
    TranslateJoin(lines);
    TranslateFacts(Join(lines));
    JoinNoReturn(lines);
  }

  lemma SameParts(a: string, b: string, x: string, a': string, b': string)
    requires |a'| <= |a| && |b'| <= |b|
    ensures a' + x + b' == a + x + b <==> a' == a && b' == b
  {
    if a' + x + b' == a + x + b {
      assert |a'| + |x| + |b'| == |a| + |x| + |b|;
      assert a' == (a' + x + b')[..|a|] == (a + x + b)[..|a|] == a;
      assert b' == (a' + x + b')[|a| + |x|..] == (a + x + b)[|a| + |x|..] == b;
    }
  }

  lemma PatchText(raw: string, from: int, to: int, content: string, expected: Option<string>, hash: string -> string)
    requires Patch(raw, from, to, content, expected, hash).Patched?
    ensures var lines := SplitLines(raw);
            && 1 <= from <= to && from <= |lines|
            && Patch(raw, from, to, content, expected, hash).text
               == Join(TranslateAll(lines[..from - 1])) + Join(TerminateAll(SplitLines(content)))
                  + Join(TranslateAll(lines[Min(to, |lines|)..]))
  {
    TranslateKeepsLines(raw);
    hide SplitLines, Translate, Join, TerminateAll;
    var lines := SplitLines(raw);
    var all := TranslateAll(lines);
    assert all[..from - 1] == TranslateAll(lines[..from - 1]);
    assert all[Min(to, |lines|)..] == TranslateAll(lines[Min(to, |lines|)..]);
    JoinThree(all[..from - 1], TerminateAll(SplitLines(content)), all[Min(to, |all|)..]);
  }

  /** Text outside the range is kept byte for byte, around the new lines, exactly when none of the
      file's lines outside the range holds a carriage return. */
  lemma OutsideKeptIffNoReturn(raw: string, from: int, to: int, content: string, expected: Option<string>,
                               hash: string -> string)
    requires Patch(raw, from, to, content, expected, hash).Patched?
    ensures var lines := SplitLines(raw);
            && 1 <= from <= to && from <= |lines|
            && (Patch(raw, from, to, content, expected, hash).text
                == Join(lines[..from - 1]) + Join(TerminateAll(SplitLines(content))) + Join(lines[Min(to, |lines|)..])
                <==> forall i | 0 <= i < |lines| && !(from - 1 <= i < to) :: NoReturn(lines[i]))
  {
    hide SplitLines, Translate, Join, TerminateAll, Canonical, NoReturn;
    PatchText(raw, from, to, content, expected, hash);
    SplitIsCanonical(raw);
    var lines, x := SplitLines(raw), Join(TerminateAll(SplitLines(content)));
    var top, bottom := lines[..from - 1], lines[Min(to, |lines|)..];
    assert lines[..from - 1] == lines[0..from - 1] && bottom == lines[Min(to, |lines|)..|lines|];
    SliceCanonical(lines, 0, from - 1);
    SliceCanonical(lines, Min(to, |lines|), |lines|);
    TranslatedPart(top);
    TranslatedPart(bottom);
    SameParts(Join(top), Join(bottom), x, Join(TranslateAll(top)), Join(TranslateAll(bottom)));
    OutsideIsBothParts(lines, from, to);
  }

  lemma OutsideIsBothParts(lines: seq<string>, from: int, to: int)
    requires 1 <= from <= to && from <= |lines|
    ensures var (top, bottom) := (lines[..from - 1], lines[Min(to, |lines|)..]);
            (forall i | 0 <= i < |top| :: NoReturn(top[i])) && (forall i | 0 <= i < |bottom| :: NoReturn(bottom[i]))
            <==> forall i | 0 <= i < |lines| && !(from - 1 <= i < to) :: NoReturn(lines[i])
  {
    hide NoReturn;
    var top, bottom, m := lines[..from - 1], lines[Min(to, |lines|)..], Min(to, |lines|);
    if (forall i | 0 <= i < |top| :: NoReturn(top[i])) && (forall i | 0 <= i < |bottom| :: NoReturn(bottom[i])) {
      forall i | 0 <= i < |lines| && !(from - 1 <= i < to)
        ensures NoReturn(lines[i])
      {
        assert i < from - 1 ==> top[i] == lines[i];
        assert i >= to ==> bottom[i - m] == lines[i];
      }
    }
  }

  /** Replacing the second line of a file rewrites the line end of its first. */
  lemma OutsideReturnIsLost(hash: string -> string)
    ensures SplitLines("a\r\nb\n") == ["a\r\n", "b\n"]
    ensures Patch("a\r\nb\n", 2, 2, "x", None, hash) == Patched("a\nx\n")
  {
    hide SplitLines, Translate;
    TwoLinesSplit();
    TwoLinesRead();
    OneLine();
    var now := Replace(["a\n", "b\n"], 2, 2, ["x\n"]);
    assert now == ["a\n", "x\n"] && now[1..] == ["x\n"];
    assert Join(now) == "a\nx\n";
  }

  lemma TwoLinesSplit()
    ensures SplitLines("a\r\nb\n") == ["a\r\n", "b\n"]
  {
    var lines := ["a\r\n", "b\n"];
    LineOfTwo('b', "\n");
    LineOfTwo('a', "\r\n");
    assert lines[1..] == ["b\n"];
    assert Join(lines) == "a\r\nb\n";
    assert Canonical(lines);
    CanonicalIsSplit(lines);
  }

  lemma TwoLinesRead()
    ensures SplitLines(Translate("a\r\nb\n")) == ["a\n", "b\n"]
  {
    hide SplitLines;
    TwoLinesSplit();
    TranslateKeepsLines("a\r\nb\n");
    assert "b\n"[1..] == "\n" && "a\r\n"[1..] == "\r\n";
    assert Translate("b\n") == "b\n";
    assert Translate("a\r\n") == "a\n";
  }

  lemma OneLine()
    ensures TerminateAll(SplitLines("x")) == ["x\n"]
  {
    assert FirstLength("x") == 1 && "x"[..1] == "x" && "x"[1..] == "";
    assert SplitLines("x") == ["x"];
    assert Terminate("x") == "x\n" by {
      assert Last("x") == 'x' && "x" + "\n" == "x\n";
    }
    assert TerminateAll(["x"])[0] == Terminate("x");
  }

  /** A form feed in the new text comes out as two lines: patched in for a one-line file, it
      leaves a file of two. */
  lemma OddBreakSplitsLine(hash: string -> string)
    ensures IsLine("x\U{0C}") && !PlainEnds(SplitLines("x\U{0C}"))
    ensures SplitLines("a\n") == ["a\n"]
    ensures Patch("a\n", 1, 1, "x\U{0C}", None, hash) == Patched("x\U{0C}\n")
    ensures SplitLines("x\U{0C}\n") == ["x\U{0C}", "\n"]
  {
    var s := "x\U{0C}";
    FormFeedLine();
    LineOfTwo('a', "\n");
    assert ['a'] + "\n" == "a\n";
    OneLineSplits("a\n");
    OneLineSplits(s);
    FormFeedSplits();
    assert Translate("a\n") == "a\n" by {
      TranslateFacts("a\n");
    }
    assert TerminateAll([s])[0] == Terminate(s) == "x\U{0C}\n";
    hide SplitLines, Translate, PlainEnds;
    var now := Replace(["a\n"], 1, 1, TerminateAll([s]));
    assert now == ["x\U{0C}\n"];
    JoinSingle("x\U{0C}\n");
  }

  lemma FormFeedLine()
    ensures IsLine("x\U{0C}") && IsOddBreak(Last("x\U{0C}")) && IsLine("\n") && Ended("x\U{0C}")
  {
    assert "x\U{0C}"[1..] == "\U{0C}" && FirstLength("\U{0C}") == 1;
  }

  lemma FormFeedSplits()
    ensures SplitLines("x\U{0C}\n") == ["x\U{0C}", "\n"]
  {
    var lines := ["x\U{0C}", "\n"];
    FormFeedLine();
    assert Canonical(lines);
    assert lines[1..] == ["\n"];
    JoinSingle("\n");
    assert Join(lines) == "x\U{0C}" + "\n" == "x\U{0C}\n";
    CanonicalIsSplit(lines);
  }

  lemma LineOfTwo(c: char, end: string)
    requires !IsBreak(c) && (end == "\n" || end == "\r\n")
    ensures IsLine([c] + end) && Ended([c] + end)
  {
    assert ([c] + end)[1..] == end;
  }
}
