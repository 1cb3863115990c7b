/**
 Batches of remote commands (workers/ssh_tools.py, `ssh_batch` and `_parse_batch_output`).

 `Stream` is what the generated script prints; `ParseBatchOutput` is the program's parser.
 */
module BatchOutput {

  datatype Result = Result(index: nat, cmd: string, ok: bool, stdout: string, exitCode: int)

  const MAX_EXEC_OUTPUT: nat := 1024 * 1024

  // ---------------------------------------------------------------------------------------
  // Text functions of the parser
  // ---------------------------------------------------------------------------------------

  /** Index of the first occurrence of `sep`, or |s| if there is none. */
  function Find(s: string, sep: string): (i: nat)
    ensures i <= |s|
    ensures i < |s| && sep != "" ==> i + |sep| <= |s|
    decreases |s|
  {
    if s == "" || sep <= s then 0 else if Find(s[1..], sep) == |s| - 1 then |s| else 1 + Find(s[1..], sep)
  }

  /** `s.split(sep)` */
  function Split(s: string, sep: string): (parts: seq<string>)
    requires sep != ""
    ensures parts != []
    decreases |s|
  {
    var i := Find(s, sep);
    if i == |s| then [s] else [s[..i]] + Split(s[i + |sep|..], sep)
  }

  /** `s.rstrip("\n")` */
  function RStrip(s: string): string {
    if s != "" && s[|s| - 1] == '\n' then RStrip(s[..|s| - 1]) else s
  }

  function Truncate(s: string): string {
    if |s| <= MAX_EXEC_OUTPUT then s else s[..MAX_EXEC_OUTPUT] + "\n... [TRUNCATED at 1048576 bytes]"
  }

  predicate IsDigit(c: char) {
    '0' <= c <= '9'
  }

  predicate AllDigits(s: string) {
    forall i | 0 <= i < |s| :: IsDigit(s[i])
  }

  function DigitsValue(s: string): nat
    requires AllDigits(s)
  {
    if s == "" then 0 else 10 * DigitsValue(s[..|s| - 1]) + (s[|s| - 1] as int - '0' as int)
  }

  /** `int(s)` where it succeeds on a plain signed decimal, else the -1 of the except branch. */
  function CodeValue(s: string): int {
    if s != "" && AllDigits(s) then DigitsValue(s)
    else if |s| > 1 && s[0] == '-' && AllDigits(s[1..]) then 0 - DigitsValue(s[1..])
    else if |s| > 1 && s[0] == '+' && AllDigits(s[1..]) then DigitsValue(s[1..])
    else -1
  }

  // ---------------------------------------------------------------------------------------
  // The parser
  // ---------------------------------------------------------------------------------------

  function HeaderCode(header: string): int {
    var parts := Split(header, "|");
    if |parts| >= 3 then CodeValue(parts[2]) else -1
  }

  /** The exit code in a segment that follows a marker. */
  function CodeOf(segment: string): int {
    HeaderCode(segment[..Find(segment, "\n")])
  }

  /** The output in a segment that follows a marker; none if the segment has a single line. */
  function OutputOf(segment: string): seq<string> {
    var i := Find(segment, "\n");
    if i < |segment| then [RStrip(segment[i + 1..])] else []
  }

  function Codes(segments: seq<string>): seq<int> {
    if segments == [] then [] else Codes(segments[..|segments| - 1]) + [CodeOf(segments[|segments| - 1])]
  }

  function Outputs(segments: seq<string>): seq<string> {
    if segments == [] then [] else Outputs(segments[..|segments| - 1]) + OutputOf(segments[|segments| - 1])
  }

  function Entry(commands: seq<string>, codes: seq<int>, outputs: seq<string>, i: nat): Result
    requires i < |commands|
  {
    var code := if i < |codes| then codes[i] else -1;
    var out := if i < |outputs| then outputs[i] else "";
    Result(i, commands[i], code == 0, Truncate(out), code)
  }

  function Parsed(stdout: string, marker: string, commands: seq<string>): (results: seq<Result>)
    requires marker != ""
    ensures |results| == |commands|
  {
    var segments := Split(stdout, marker);
    var codes := Codes(segments[1..]);
    var outputs := [RStrip(segments[0])] + Outputs(segments[1..]);
    seq(|commands|, i requires 0 <= i < |commands| => Entry(commands, codes, outputs, i))
  }

  lemma NothingRead()
    ensures Codes([]) == [] && Outputs([]) == []
  {
  }

  lemma ReadNext(segments: seq<string>, i: nat)
    requires 1 <= i < |segments|
    ensures Codes(segments[1..i + 1]) == Codes(segments[1..i]) + [CodeOf(segments[i])]
    ensures Outputs(segments[1..i + 1]) == Outputs(segments[1..i]) + OutputOf(segments[i])
  {
    hide CodeOf, OutputOf;
    assert segments[1..i + 1][..i - 1] == segments[1..i];
  }

  method ReadSegments(segments: seq<string>) returns (outputs: seq<string>, exitCodes: seq<int>)
    requires segments != []
    ensures exitCodes == Codes(segments[1..])
    ensures outputs == [RStrip(segments[0])] + Outputs(segments[1..])
  {
    hide Find, RStrip, HeaderCode, Codes, Outputs;
    outputs, exitCodes := [RStrip(segments[0])], [];
    NothingRead();
    assert segments[1..1] == [];
    for i := 1 to |segments|
      invariant exitCodes == Codes(segments[1..i])
      invariant outputs == [RStrip(segments[0])] + Outputs(segments[1..i])
    {
      ReadNext(segments, i);
      var seg := segments[i];
      var cut := Find(seg, "\n");
      exitCodes := exitCodes + [HeaderCode(seg[..cut])];
      if cut < |seg| {
        outputs := outputs + [RStrip(seg[cut + 1..])];
      }
    }
    assert segments[1..|segments|] == segments[1..];
  }

  method ParseBatchOutput(stdout: string, marker: string, commands: seq<string>) returns (results: seq<Result>)
    requires marker != ""
    ensures results == Parsed(stdout, marker, commands)
  {
    hide Find, Split, RStrip, Codes, Outputs, Truncate;
    var segments := Split(stdout, marker);
    var outputs, exitCodes := ReadSegments(segments);
    results := [];
    for i := 0 to |commands|
      invariant |results| == i
      invariant forall k | 0 <= k < i :: results[k] == Entry(commands, exitCodes, outputs, k)
    {
      var ec := if i < |exitCodes| then exitCodes[i] else -1;
      var out := if i < |outputs| then outputs[i] else "";
      results := results + [Result(i, commands[i], ec == 0, Truncate(out), ec)];
    }
  }

  // ---------------------------------------------------------------------------------------
  // The script's output
  // ---------------------------------------------------------------------------------------

  function NatText(n: nat): string {
    if n < 10 then [('0' as int + n) as char] else NatText(n / 10) + [('0' as int + n % 10) as char]
  }

  /** The rest of the line that `echo` prints after the marker. */
  function Header(i: nat, code: nat): string {
    "|" + NatText(i) + "|" + NatText(code) + "\n"
  }

  /** What the commands from number `i` on print; with `stop` a failure ends the script. */
  function Stream(outs: seq<string>, codes: seq<nat>, marker: string, stop: bool, i: nat): string
    requires |outs| == |codes| && i <= |outs|
    decreases |outs| - i
  {
    if i == |outs| then ""
    else outs[i] + marker + Header(i, codes[i])
         + if stop && codes[i] != 0 then "" else Stream(outs, codes, marker, stop, i + 1)
  }

  /** How many commands run, counted from number `i`. */
  function Executed(codes: seq<nat>, stop: bool, i: nat): (n: nat)
    requires i <= |codes|
    ensures i <= n <= |codes|
    decreases |codes| - i
  {
    if i == |codes| then i
    else if stop && codes[i] != 0 then i + 1
    else Executed(codes, stop, i + 1)
  }

  /** The marker does not start inside the output, not even to end in the real marker. */
  predicate Clean(out: string, marker: string) {
    Find(out + marker, marker) == |out|
  }

  /** No character of a header can begin the marker. */
  predicate MarkerFits(marker: string) {
    marker != "" && marker[0] != '|' && marker[0] != '\n' && !IsDigit(marker[0])
  }

  // ---------------------------------------------------------------------------------------
  // Lemmas on text
  // ---------------------------------------------------------------------------------------

  lemma FindStep(s: string, sep: string)
    requires s != "" && !(sep <= s)
    ensures Find(s[1..], sep) < |s| - 1 ==> Find(s, sep) == 1 + Find(s[1..], sep)
    ensures Find(s[1..], sep) == |s| - 1 ==> Find(s, sep) == |s|
  {
  }

  /** Nothing can start where the first character differs. */
  lemma {:induction false} FindSkips(a: string, s: string, sep: string)
    requires sep != "" && forall i | 0 <= i < |a| :: a[i] != sep[0]
    ensures Find(a + s, sep) == |a| + Find(s, sep)
    decreases |a|
  {
    if a == "" {
      assert a + s == s;
    } else {
      assert (a + s)[0] == a[0] && (a + s)[1..] == a[1..] + s;
      FindSkips(a[1..], s, sep);
    }
  }

  /** What follows the first full occurrence does not matter. */
  lemma {:induction false} FindAhead(out: string, sep: string, rest: string)
    requires sep != ""
    ensures Find(out + sep + rest, sep) == Find(out + sep, sep) <= |out|
    decreases |out|
  {
    var s, t := out + sep, out + sep + rest;
    if out == "" {
      assert s == sep && t == sep + rest;
    } else {
      assert t[..|sep|] == s[..|sep|];
      assert s[1..] == out[1..] + sep && t[1..] == out[1..] + sep + rest;
      FindAhead(out[1..], sep, rest);
      if !(sep <= s) {
        FindStep(s, sep);
        FindStep(t, sep);
      }
    }
  }

  lemma {:induction false} NatTextDigits(n: nat)
    ensures NatText(n) != "" && AllDigits(NatText(n)) && DigitsValue(NatText(n)) == n
  {
    if n < 10 {
      assert NatText(n)[..0] == "";
      assert DigitsValue(NatText(n)) == 10 * DigitsValue("") + n;
    } else {
      NatTextDigits(n / 10);
      var front, last := NatText(n / 10), ('0' as int + n % 10) as char;
      assert NatText(n) == front + [last] && (front + [last])[..|front|] == front;
    }
  }

  /** Reading back one header line and the output that follows it. */
  lemma HeaderRoundTrip(i: nat, code: nat, out: string)
    ensures CodeOf(Header(i, code) + out) == code
    ensures OutputOf(Header(i, code) + out) == [RStrip(out)]
  {
    NatTextDigits(i);
    NatTextDigits(code);
    var a, b := NatText(i), NatText(code);
    var line := "|" + a + "|" + b;
    var seg := Header(i, code) + out;
    assert seg == line + ("\n" + out);
    FindSkips(line, "\n" + out, "\n");
    assert Find("\n" + out, "\n") == 0;
    assert seg[..|line|] == line && seg[|line| + 1..] == out;
    SplitHeader(a, b);
  }

  lemma SplitAt(a: string, sep: string, rest: string)
    requires sep != "" && Find(a + sep + rest, sep) == |a|
    ensures Split(a + sep + rest, sep) == [a] + Split(rest, sep)
  {
    hide Find;
    var s := a + sep + rest;
    assert s[..|a|] == a && s[|a| + |sep|..] == rest;
  }

  lemma SplitHeader(a: string, b: string)
    requires AllDigits(a) && AllDigits(b)
    ensures Split("|" + a + "|" + b, "|") == ["", a, b]
  {
    var none, bar := "", "|";
    hide Find, Split;
    SplitAtBar(none, a + bar + b);
    SplitAtBar(a, b);
    SplitLast(b, bar);
    SameText(none, bar, a, b);
  }

  lemma SplitAtBar(a: string, rest: string)
    requires AllDigits(a)
    ensures Split(a + "|" + rest, "|") == [a] + Split(rest, "|")
  {
    hide Find, Split;
    CleanOfBar(a);
    FindAhead(a, "|", rest);
    SplitAt(a, "|", rest);
  }

  lemma SameText(none: string, bar: string, a: string, b: string)
    requires none == ""
    ensures none + bar + (a + bar + b) == bar + a + bar + b
  {
  }

  lemma CleanOfBar(a: string)
    requires AllDigits(a)
    ensures Find(a + "|", "|") == |a|
  {
    FindSkips(a, "|", "|");
  }

  lemma HeaderAvoids(i: nat, code: nat, marker: string)
    requires MarkerFits(marker)
    ensures forall k | 0 <= k < |Header(i, code)| :: Header(i, code)[k] != marker[0]
  {
    NatTextDigits(i);
    NatTextDigits(code);
  }

  /** Cutting the stream at its first marker, after text in which no marker can start. */
  lemma SplitFirst(pre: string, out: string, marker: string, rest: string)
    requires marker != "" && Clean(out, marker) && forall k | 0 <= k < |pre| :: pre[k] != marker[0]
    ensures Split(pre + (out + marker + rest), marker) == [pre + out] + Split(rest, marker)
  {
    hide Find, Split;
    var body := out + marker + rest;
    FindSkips(pre, body, marker);
    FindAhead(out, marker, rest);
    assert pre + body == (pre + out) + marker + rest;
    SplitAt(pre + out, marker, rest);
  }

  lemma SplitLast(pre: string, marker: string)
    requires marker != "" && forall k | 0 <= k < |pre| :: pre[k] != marker[0]
    ensures Split(pre, marker) == [pre]
  {
    FindSkips(pre, "", marker);
    assert pre + "" == pre;
  }

  // ---------------------------------------------------------------------------------------
  // Round trip
  // ---------------------------------------------------------------------------------------

  lemma {:induction false} CodesFirst(first: string, rest: seq<string>)
    ensures Codes([first] + rest) == [CodeOf(first)] + Codes(rest)
    ensures Outputs([first] + rest) == OutputOf(first) + Outputs(rest)
  {
    hide CodeOf, OutputOf;
    var all := [first] + rest;
    if rest == [] {
      assert all[..0] == [] && all == [first];
    } else {
      var front, last := rest[..|rest| - 1], rest[|rest| - 1];
      CodesFirst(first, front);
      CodesNext(front, last);
      CodesNext([first] + front, last);
      assert all == [first] + front + [last] && rest == front + [last];
      hide Codes, Outputs;
    }
  }

  lemma CodesNext(segments: seq<string>, last: string)
    ensures Codes(segments + [last]) == Codes(segments) + [CodeOf(last)]
    ensures Outputs(segments + [last]) == Outputs(segments) + OutputOf(last)
  {
    hide CodeOf, OutputOf;
    assert (segments + [last])[..|segments|] == segments;
  }

  /** The pieces of the stream from command `i` on, with `pre` in front. */
  function Segments(outs: seq<string>, codes: seq<nat>, stop: bool, i: nat, pre: string): (segs: seq<string>)
    requires |outs| == |codes| && i <= |outs|
    ensures segs != []
    decreases |outs| - i
  {
    if i == |outs| then [pre]
    else [pre + outs[i]] + if stop && codes[i] != 0 then [Header(i, codes[i])]
                           else Segments(outs, codes, stop, i + 1, Header(i, codes[i]))
  }

  lemma StreamSplits(outs: seq<string>, codes: seq<nat>, marker: string, stop: bool, i: nat, pre: string)
    requires |outs| == |codes| && i < |outs|
    ensures pre + Stream(outs, codes, marker, stop, i)
            == pre + (outs[i] + marker + (Header(i, codes[i]) + if stop && codes[i] != 0 then ""
                                                                else Stream(outs, codes, marker, stop, i + 1)))
  {
    hide Header;
  }

  lemma {:induction false} SplitStream(outs: seq<string>, codes: seq<nat>, marker: string, stop: bool, i: nat,
                                       pre: string)
    requires |outs| == |codes| && i <= |outs| && MarkerFits(marker)
    requires forall k | i <= k < Executed(codes, stop, i) :: Clean(outs[k], marker)
    requires forall k | 0 <= k < |pre| :: pre[k] != marker[0]
    ensures Split(pre + Stream(outs, codes, marker, stop, i), marker) == Segments(outs, codes, stop, i, pre)
    decreases |outs| - i
  {
    if i == |outs| {
      SplitLast(pre, marker);
      assert pre + "" == pre;
    } else {
      var header, stopped := Header(i, codes[i]), stop && codes[i] != 0;
      var tail := header + if stopped then "" else Stream(outs, codes, marker, stop, i + 1);
      StreamSplits(outs, codes, marker, stop, i, pre);
      HeaderAvoids(i, codes[i], marker);
      hide Split, Header, Clean, MarkerFits;
      SplitFirst(pre, outs[i], marker, tail);
      if stopped {
        assert header + "" == header;
        SplitLast(header, marker);
      } else {
        SplitStream(outs, codes, marker, stop, i + 1, header);
      }
    }
  }

  function Stripped(outs: seq<string>, a: nat, b: nat): seq<string>
    requires a <= b <= |outs|
  {
    seq(b - a, k requires 0 <= k < b - a => RStrip(outs[a + k]))
  }

  /** What the segments after the first say about the commands from `i` on. */
  predicate Reads(outs: seq<string>, codes: seq<nat>, i: nat, e: nat, tail: seq<string>)
    requires |outs| == |codes| && i < e <= |outs|
  {
    Codes(tail) == codes[i..e] && Outputs(tail) == Stripped(outs, i + 1, e) + [""]
  }

  lemma ReadsStep(outs: seq<string>, codes: seq<nat>, i: nat, e: nat, rest: seq<string>)
    requires |outs| == |codes| && i + 1 < e <= |outs| && Reads(outs, codes, i + 1, e, rest)
    ensures Reads(outs, codes, i, e, [Header(i, codes[i]) + outs[i + 1]] + rest)
  {
    var first := Header(i, codes[i]) + outs[i + 1];
    CodesFirst(first, rest);
    HeaderRoundTrip(i, codes[i], outs[i + 1]);
    hide CodeOf, OutputOf, Header, Codes, Outputs;
    StrippedStep(outs, i + 1, e);
    CodesStep(codes, i, e);
  }

  lemma StrippedStep(outs: seq<string>, a: nat, b: nat)
    requires a < b <= |outs|
    ensures [RStrip(outs[a])] + (Stripped(outs, a + 1, b) + [""]) == Stripped(outs, a, b) + [""]
  {
    hide RStrip;
    assert Stripped(outs, a, b) == [RStrip(outs[a])] + Stripped(outs, a + 1, b);
  }

  lemma CodesStep(codes: seq<nat>, i: nat, e: nat)
    requires i < e <= |codes|
    ensures codes[i..e] == [codes[i]] + codes[i + 1..e]
  {
  }

  lemma ReadsEnd(outs: seq<string>, codes: seq<nat>, i: nat)
    requires |outs| == |codes| && i < |outs|
    ensures Reads(outs, codes, i, i + 1, [Header(i, codes[i])])
  {
    ReadLastHeader(i, codes[i]);
    hide Codes, Outputs, Header;
    assert [Header(i, codes[i])] + [] == [Header(i, codes[i])];
    assert codes[i..i + 1] == [codes[i]];
    assert Stripped(outs, i + 1, i + 1) + [""] == [""];
  }

  lemma {:induction false} ReadBack(outs: seq<string>, codes: seq<nat>, stop: bool, i: nat, pre: string)
    requires |outs| == |codes| && i < |outs|
    ensures i < Executed(codes, stop, i)
    ensures Reads(outs, codes, i, Executed(codes, stop, i), Segments(outs, codes, stop, i, pre)[1..])
    decreases |outs| - i
  {
    hide Reads, Header;
    var header := Header(i, codes[i]);
    var tail := Segments(outs, codes, stop, i, pre)[1..];
    if (stop && codes[i] != 0) || i + 1 == |outs| {
      assert i + 1 == |outs| ==> Segments(outs, codes, stop, i + 1, header) == [header];
      assert tail == [header];
      ReadsEnd(outs, codes, i);
    } else {
      var rest := Segments(outs, codes, stop, i + 1, header);
      assert tail == rest == [header + outs[i + 1]] + rest[1..];
      ReadBack(outs, codes, stop, i + 1, header);
      ReadsStep(outs, codes, i, Executed(codes, stop, i), rest[1..]);
    }
  }

  lemma ReadLastHeader(i: nat, code: nat)
    ensures Codes([Header(i, code)] + []) == [code] && Outputs([Header(i, code)] + []) == [""]
  {
    HeaderRoundTrip(i, code, "");
    assert Header(i, code) + "" == Header(i, code);
    CodesFirst(Header(i, code), []);
  }

  /** What the batch result should say about command `k`. */
  function Expected(commands: seq<string>, outs: seq<string>, codes: seq<nat>, stop: bool, k: nat): Result
    requires |outs| == |codes| == |commands| && k < |commands|
  {
    if k < Executed(codes, stop, 0) then Result(k, commands[k], codes[k] == 0, Truncate(RStrip(outs[k])), codes[k])
    else Result(k, commands[k], false, "", -1)
  }

  /** The round trip: if the marker starts inside no output of a command that ran, the parser
      recovers every exit code and every output up to trailing newlines (and the length limit);
      commands that a failure kept from running are reported as -1 with no output. */
  lemma BatchRoundTrip(commands: seq<string>, outs: seq<string>, codes: seq<nat>, marker: string, stop: bool, k: nat)
    requires |outs| == |codes| == |commands| && MarkerFits(marker) && k < |commands|
    requires forall j | 0 <= j < Executed(codes, stop, 0) :: Clean(outs[j], marker)
    ensures Parsed(Stream(outs, codes, marker, stop, 0), marker, commands)[k]
            == Expected(commands, outs, codes, stop, k)
  {
    hide Split, Reads, Segments, Stream, Executed, Codes, Outputs, RStrip, Truncate, Clean, MarkerFits;
    var stream, segments := Stream(outs, codes, marker, stop, 0), Segments(outs, codes, stop, 0, "");
    SplitStream(outs, codes, marker, stop, 0, "");
    assert "" + stream == stream && marker != "" by {
      FitsIsNotEmpty(marker);
    }
    FirstSegment(outs, codes, stop);
    ReadBack(outs, codes, stop, 0, "");
    ExecutedWithin(codes, stop);
    EntryReads(commands, outs, codes, Executed(codes, stop, 0), segments[1..], k);
  }

  lemma FitsIsNotEmpty(marker: string)
    requires MarkerFits(marker)
    ensures marker != ""
  {
  }

  lemma FirstSegment(outs: seq<string>, codes: seq<nat>, stop: bool)
    requires |outs| == |codes| && outs != []
    ensures Segments(outs, codes, stop, 0, "")[0] == outs[0]
  {
    assert "" + outs[0] == outs[0];
  }

  lemma ExecutedWithin(codes: seq<nat>, stop: bool)
    ensures Executed(codes, stop, 0) <= |codes|
  {
  }

  lemma EntryReads(commands: seq<string>, outs: seq<string>, codes: seq<nat>, e: nat, tail: seq<string>, k: nat)
    requires |outs| == |codes| == |commands| && 0 < e <= |outs| && Reads(outs, codes, 0, e, tail) && k < |commands|
    ensures Entry(commands, Codes(tail), [RStrip(outs[0])] + Outputs(tail), k)
            == if k < e then Result(k, commands[k], codes[k] == 0, Truncate(RStrip(outs[k])), codes[k])
               else Result(k, commands[k], false, "", -1)
  {
    hide Codes, Outputs, RStrip;
    var outputs := [RStrip(outs[0])] + Outputs(tail);
    assert outputs == Stripped(outs, 0, e) + [""];
  }

  /** With stop-on-error the results read: successes, then at most one failure, then -1. */
  lemma {:induction false} StopShape(codes: seq<nat>, i: nat)
    requires i <= |codes|
    ensures var e := Executed(codes, true, i);
            && (forall k | i <= k < e - 1 :: codes[k] == 0)
            && (e < |codes| ==> i < e && codes[e - 1] != 0)
    decreases |codes| - i
  {
    if i < |codes| && codes[i] == 0 {
      StopShape(codes, i + 1);
    }
  }

  /** `all(r["ok"] for r in parsed_results)` */
  predicate AllOk(results: seq<Result>) {
    forall k | 0 <= k < |results| :: results[k].ok
  }

  predicate AllZero(codes: seq<nat>) {
    forall k | 0 <= k < |codes| :: codes[k] == 0
  }

  /** The batch is reported as successful exactly when every command returned 0. */
  lemma AllOkIffAllZero(commands: seq<string>, outs: seq<string>, codes: seq<nat>, marker: string, stop: bool)
    requires |outs| == |codes| == |commands| && MarkerFits(marker)
    requires forall j | 0 <= j < Executed(codes, stop, 0) :: Clean(outs[j], marker)
    ensures AllOk(Parsed(Stream(outs, codes, marker, stop, 0), marker, commands)) <==> AllZero(codes)
  {
    var results := Parsed(Stream(outs, codes, marker, stop, 0), marker, commands);
    var e := Executed(codes, stop, 0);
    forall k | 0 <= k < |commands|
      ensures results[k].ok <==> k < e && codes[k] == 0
    {
      BatchRoundTrip(commands, outs, codes, marker, stop, k);
    }
    if AllZero(codes) {
      ZerosExecuted(codes, stop, 0);
    }
    hide Parsed, Stream, Executed, Clean;
    if AllOk(results) {
      assert e < |codes| ==> !results[e].ok;
      assert forall k | 0 <= k < |codes| :: results[k].ok;
    }
  }

  lemma {:induction false} ZerosExecuted(codes: seq<nat>, stop: bool, i: nat)
    requires i <= |codes| && forall k | i <= k < |codes| :: codes[k] == 0
    ensures Executed(codes, stop, i) == |codes|
    decreases |codes| - i
  {
    if i < |codes| {
      ZerosExecuted(codes, stop, i + 1);
    }
  }

  // ---------------------------------------------------------------------------------------
  // When a marker does start inside an output
  // ---------------------------------------------------------------------------------------

  /** No occurrence comes before the one that is found, and there is none if none is found. */
  lemma {:induction false} FindIsFirst(s: string, sep: string, i: nat)
    requires sep != "" && i < Find(s, sep)
    ensures !(sep <= s[i..])
    decreases |s|
  {
    if i > 0 {
      FindIsFirst(s[1..], sep, i - 1);
      assert s[1..][i - 1..] == s[i..];
    }
  }

  function JoinWith(parts: seq<string>, sep: string): string {
    if parts == [] then "" else if |parts| == 1 then parts[0] else parts[0] + sep + JoinWith(parts[1..], sep)
  }

  /** Splitting loses nothing, and cuts wherever the separator occurs. */
  lemma {:induction false} SplitExact(s: string, sep: string)
    requires sep != ""
    ensures JoinWith(Split(s, sep), sep) == s
    ensures forall k | 0 <= k < |Split(s, sep)| :: Find(Split(s, sep)[k], sep) == |Split(s, sep)[k]|
    decreases |s|
  {
    var i := Find(s, sep);
    if i < |s| {
      FindIsOccurrence(s, sep);
      SplitExact(s[i + |sep|..], sep);
      assert s[i..][..|sep|] == sep;
      assert s == s[..i] + sep + s[i + |sep|..];
      CutHasNone(s, sep);
    }
  }

  lemma CutHasNone(s: string, sep: string)
    requires sep != ""
    ensures Find(s[..Find(s, sep)], sep) == Find(s, sep)
  {
    var i := Find(s, sep);
    var cut := s[..i];
    if Find(cut, sep) < i {
      FindIsOccurrence(cut, sep);
      StartsIn(s, i, Find(cut, sep), sep);
      FindIsFirst(s, sep, Find(cut, sep));
      assert false;
    }
  }

  lemma StartsIn(s: string, i: nat, j: nat, sep: string)
    requires j <= i <= |s| && sep <= s[..i][j..]
    ensures sep <= s[j..]
  {
    assert s[..i][j..] <= s[j..];
  }

  lemma {:induction false} FindIsOccurrence(s: string, sep: string)
    requires sep != "" && Find(s, sep) < |s|
    ensures sep <= s[Find(s, sep)..]
    decreases |s|
  {
    if !(sep <= s) {
      FindIsOccurrence(s[1..], sep);
      assert s[Find(s, sep)..] == s[1..][Find(s[1..], sep)..];
    }
  }

  /** Digits with at most a sign in front. */
  predicate Numeric(s: string) {
    (s != "" && AllDigits(s)) || (|s| >= 2 && s[0] in {'-', '+'} && AllDigits(s[1..]))
  }

  /** Any printed number is read back with its sign, and text that is no number counts as a failed
      command. */
  lemma CodeIsRead(n: nat, s: string)
    ensures CodeValue(NatText(n)) == CodeValue("+" + NatText(n)) == n
    ensures CodeValue("-" + NatText(n)) + n == 0
    ensures !Numeric(s) ==> CodeValue(s) == -1
  {
    hide DigitsValue;
    NatTextDigits(n);
    hide NatText;
    var t := NatText(n);
    assert ("+" + t)[1..] == t && ("-" + t)[1..] == t;
    assert !AllDigits("+" + t) by {
      assert !IsDigit(("+" + t)[0]);
    }
    assert !AllDigits("-" + t) by {
      assert !IsDigit(("-" + t)[0]);
    }
  }

  lemma BarFree(a: string)
    requires forall i | 0 <= i < |a| :: a[i] != '|'
    ensures Find(a + "|", "|") == |a| && Split(a, "|") == [a]
  {
    assert Find("|", "|") == 0 && Find("", "|") == 0;
    FindSkips(a, "|", "|");
    FindSkips(a, "", "|");
    assert a + "" == a;
  }

  /** A marker line without an exit code, or with one that is no number, counts as failed too. */
  lemma BrokenHeaderFails(a: string, b: string, c: string)
    requires forall i | 0 <= i < |a| :: a[i] != '|'
    requires forall i | 0 <= i < |b| :: b[i] != '|'
    requires forall i | 0 <= i < |c| :: c[i] != '|'
    ensures HeaderCode(a) == HeaderCode(a + "|" + b) == -1
    ensures HeaderCode(a + "|" + b + "|" + c) == CodeValue(c)
  {
    hide Split, Find, CodeValue;
    BarFree(a);
    BarFree(b);
    BarFree(c);
    AfterBar(a, b);
    AfterBar(b, c);
    AfterBar(a, b + "|" + c);
    assert a + "|" + (b + "|" + c) == a + "|" + b + "|" + c;
  }

  lemma AfterBar(a: string, rest: string)
    requires forall i | 0 <= i < |a| :: a[i] != '|'
    ensures Split(a + "|" + rest, "|") == [a] + Split(rest, "|")
  {
    hide Split;
    BarFree(a);
    FindAhead(a, "|", rest);
    SplitAt(a, "|", rest);
  }

  /** Outputs of up to 1 MiB are kept whole, of longer ones the first 1 MiB. */
  lemma TruncateKeeps(s: string)
    ensures |s| <= 1_048_576 ==> Truncate(s) == s
    ensures |s| > 1_048_576 ==>
              && |Truncate(s)| > 1_048_576 && Truncate(s)[..1_048_576] == s[..1_048_576]
              && Truncate(s)[1_048_576..] == "\n... [TRUNCATED at 1048576 bytes]"
  {
  }

  /** Stripping takes off newlines at the end, all of them and nothing else. */
  lemma {:induction false} RStripExact(s: string)
    ensures RStrip(s) <= s && forall i | |RStrip(s)| <= i < |s| :: s[i] == '\n'
    ensures RStrip(s) != "" ==> RStrip(s)[|RStrip(s)| - 1] != '\n'
  {
    if s != "" && s[|s| - 1] == '\n' {
      RStripExact(s[..|s| - 1]);
    }
  }

  lemma {:induction false} RStripReaches(s: string, p: nat)
    requires p < |s| && s[p] != '\n'
    ensures |RStrip(s)| > p && RStrip(s) <= s
  {
    if s[|s| - 1] == '\n' {
      RStripReaches(s[..|s| - 1], p);
    }
  }

  lemma {:induction false} RStripShort(s: string)
    ensures |RStrip(s)| <= |s|
  {
    if s != "" && s[|s| - 1] == '\n' {
      RStripShort(s[..|s| - 1]);
    }
  }

  /** What the parser takes for the output: the part before the first marker. */
  function Seen(out: string, marker: string): string
    requires marker != ""
  {
    FindAhead(out, marker, "");
    out[..Find(out + marker, marker)]
  }

  lemma SplitFirstSeen(pre: string, out: string, marker: string, rest: string)
    requires marker != "" && forall k | 0 <= k < |pre| :: pre[k] != marker[0]
    ensures Split(pre + (out + marker + rest), marker)[0] == pre + Seen(out, marker)
  {
    hide Find, Split;
    var body, i := out + marker + rest, Find(out + marker, marker);
    SplitHead(pre + body, marker);
    FindSkips(pre, body, marker);
    FindAhead(out, marker, rest);
    FindAhead(out, marker, "");
    TakeConcat(pre, out, marker, rest, i);
  }

  lemma TakeConcat(pre: string, out: string, marker: string, rest: string, i: nat)
    requires i <= |out|
    ensures (pre + (out + marker + rest))[..|pre| + i] == pre + out[..i]
  {
  }

  lemma SplitHead(s: string, sep: string)
    requires sep != ""
    ensures Split(s, sep)[0] == s[..Find(s, sep)]
  {
  }

  /** Segments from command `i` on in which output `j` was cut down to `seen`. */
  predicate Misreads(segs: seq<string>, outs: seq<string>, i: nat, j: nat, pre: string, seen: string)
    requires i <= j < |outs|
  {
    && segs != []
    && segs[0] == pre + (if i == j then seen else outs[i])
    && (i < j ==> |Outputs(segs[1..])| >= j - i && Outputs(segs[1..])[j - i - 1] == RStrip(seen))
  }

  lemma MisreadsStep(rest: seq<string>, outs: seq<string>, codes: seq<nat>, i: nat, j: nat, pre: string, seen: string)
    requires |outs| == |codes| && i < j < |outs| && Misreads(rest, outs, i + 1, j, Header(i, codes[i]), seen)
    ensures Misreads([pre + outs[i]] + rest, outs, i, j, pre, seen)
  {
    var out := if i + 1 == j then seen else outs[i + 1];
    OutputsAfterHeader(rest, i, codes[i], out);
    hide Header, RStrip, Outputs;
    Prepend(RStrip(out), Outputs(rest[1..]), j - i);
    TailOfCons(pre + outs[i], rest);
  }

  lemma OutputsAfterHeader(rest: seq<string>, i: nat, code: nat, out: string)
    requires rest != [] && rest[0] == Header(i, code) + out
    ensures Outputs(rest) == [RStrip(out)] + Outputs(rest[1..])
  {
    HeaderRoundTrip(i, code, out);
    hide Header, RStrip, OutputOf, CodeOf, Outputs, Codes;
    CodesFirst(rest[0], rest[1..]);
    assert rest == [rest[0]] + rest[1..];
  }

  lemma Prepend(x: string, s: seq<string>, n: nat)
    ensures |[x] + s| == |s| + 1 && ([x] + s)[0] == x
    ensures 2 <= n <= |s| + 1 ==> ([x] + s)[n - 1] == s[n - 2]
  {
  }

  lemma TailOfCons(x: string, s: seq<string>)
    ensures ([x] + s)[0] == x && ([x] + s)[1..] == s
  {
  }

  /** The first unclean output `j` is cut at its first marker. */
  lemma {:induction false} Misread(outs: seq<string>, codes: seq<nat>, marker: string, stop: bool, i: nat, j: nat,
                                   pre: string)
    requires |outs| == |codes| && i < |outs| && i <= j < Executed(codes, stop, i) && MarkerFits(marker)
    requires forall k | i <= k < j :: Clean(outs[k], marker)
    requires forall k | 0 <= k < |pre| :: pre[k] != marker[0]
    ensures Misreads(Split(pre + Stream(outs, codes, marker, stop, i), marker), outs, i, j, pre, Seen(outs[j], marker))
    decreases |outs| - i
  {
    assert marker != "";
    hide Split, Header, MarkerFits, Outputs, RStrip, Seen, Clean;
    var header, stopped := Header(i, codes[i]), stop && codes[i] != 0;
    var tail := header + if stopped then "" else Stream(outs, codes, marker, stop, i + 1);
    StreamSplits(outs, codes, marker, stop, i, pre);
    if i < j {
      HeaderAvoids(i, codes[i], marker);
      Misread(outs, codes, marker, stop, i + 1, j, header);
      SplitFirst(pre, outs[i], marker, tail);
      hide Misreads, Stream;
      MisreadsStep(Split(tail, marker), outs, codes, i, j, pre, Seen(outs[j], marker));
    } else {
      SplitFirstSeen(pre, outs[i], marker, tail);
    }
  }

  lemma MisreadDiffers(commands: seq<string>, outs: seq<string>, codes: seq<nat>, marker: string, stop: bool, j: nat)
    requires |outs| == |codes| == |commands| && MarkerFits(marker) && j < Executed(codes, stop, 0)
    requires (forall k | 0 <= k < j :: Clean(outs[k], marker)) && !Clean(outs[j], marker)
    requires |outs[j]| <= MAX_EXEC_OUTPUT
    ensures Parsed(Stream(outs, codes, marker, stop, 0), marker, commands)[j].stdout != RStrip(outs[j])
  {
    var stream, seen := Stream(outs, codes, marker, stop, 0), Seen(outs[j], marker);
    Misread(outs, codes, marker, stop, 0, j, "");
    SeenIsShort(outs[j], marker);
    hide Split, Codes, Outputs, RStrip, Stream, Seen, Clean, Truncate;
    assert "" + stream == stream;
    EntryMisread(commands, outs, Split(stream, marker), j, seen);
    TruncateShort(RStrip(seen), RStrip(outs[j]));
  }

  lemma EntryMisread(commands: seq<string>, outs: seq<string>, segs: seq<string>, j: nat, seen: string)
    requires j < |outs| == |commands| && Misreads(segs, outs, 0, j, "", seen)
    ensures Entry(commands, Codes(segs[1..]), [RStrip(segs[0])] + Outputs(segs[1..]), j).stdout
            == Truncate(RStrip(seen))
  {
    hide RStrip, Outputs, Codes, Truncate;
    assert "" + seen == seen;
  }

  lemma TruncateShort(a: string, b: string)
    requires |a| < |b| <= MAX_EXEC_OUTPUT
    ensures Truncate(a) != b
  {
  }

  lemma SeenIsShort(out: string, marker: string)
    requires MarkerFits(marker) && !Clean(out, marker)
    ensures |RStrip(Seen(out, marker))| < |RStrip(out)| <= |out|
  {
    FindAhead(out, marker, "");
    var p := Find(out + marker, marker);
    FindIsOccurrence(out + marker, marker);
    assert out[p] == marker[0];
    RStripReaches(out, p);
    RStripShort(out);
    RStripShort(Seen(out, marker));
  }

  /** Exactly when: outputs within the length limit are all recovered up to trailing newlines
      if and only if the marker starts inside none of them. */
  lemma OutputsRecoveredIffClean(commands: seq<string>, outs: seq<string>, codes: seq<nat>, marker: string, stop: bool)
    requires |outs| == |codes| == |commands| && MarkerFits(marker)
    requires forall j | 0 <= j < |outs| :: |outs[j]| <= MAX_EXEC_OUTPUT
    ensures (forall k | 0 <= k < Executed(codes, stop, 0) ::
              Parsed(Stream(outs, codes, marker, stop, 0), marker, commands)[k].stdout == RStrip(outs[k]))
            <==> forall k | 0 <= k < Executed(codes, stop, 0) :: Clean(outs[k], marker)
  {
    var e := Executed(codes, stop, 0);
    hide Parsed, Stream, Clean, RStrip;
    var j := 0;
    while j < e && Clean(outs[j], marker)
      invariant 0 <= j <= e && forall k | 0 <= k < j :: Clean(outs[k], marker)
    {
      j := j + 1;
    }
    if j < e {
      MisreadDiffers(commands, outs, codes, marker, stop, j);
    } else {
      forall k | 0 <= k < e
        ensures Parsed(Stream(outs, codes, marker, stop, 0), marker, commands)[k].stdout == RStrip(outs[k])
      {
        BatchRoundTrip(commands, outs, codes, marker, stop, k);
        RStripShort(outs[k]);
      }
    }
  }
}
