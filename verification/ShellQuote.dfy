/**
 Shell quoting (workers/ssh_tools.py, `_sq`), against the quoting rules of POSIX.1-2017 XCU,
 Shell Command Language: section 2.2.1 (backslash) and section 2.2.2 (single-quotes).
 */
module ShellQuote {
  import opened Common

  /** `s.replace("'", "'\\''")` */
  function EscapeQuotes(s: string): string {
    if s == "" then "" else (if s[0] == '\'' then "'\\''" else [s[0]]) + EscapeQuotes(s[1..])
  }

  function Sq(s: string): string {
    "'" + EscapeQuotes(s) + "'"
  }

  // ---------------------------------------------------------------------------------------
  // Splitting a command into words
  // ---------------------------------------------------------------------------------------

  /** Where the reader is: between words, in a word, after a backslash, in single-quotes, or at
      a character this reader has no rule for. */
  datatype Mode = Between | InWord(word: string) | Escaped(word: string) | Quoted(word: string) | Unsupported

  datatype Reader = Reader(words: seq<string>, mode: Mode)

  predicate IsBlank(c: char) {
    c == ' ' || c == '\t'
  }

  /** Characters that mean something else outside quotes: double-quotes, expansions, operators,
      patterns, comments, newline.  No word can hold a NUL. */
  predicate IsSpecial(c: char) {
    c in {'"', '$', '`', '|', '&', ';', '<', '>', '(', ')', '*', '?', '[', '#', '~', '=', '%', '!', '{', '}', '\n'}
  }

  function Plain(words: seq<string>, word: string, c: char): Reader {
    if IsBlank(c) then Reader(words + [word], Between)
    else if c == '\'' then Reader(words, Quoted(word))
    else if c == '\\' then Reader(words, Escaped(word))
    else if IsSpecial(c) then Reader(words, Unsupported)
    else Reader(words, InWord(word + [c]))
  }

  function ReadChar(r: Reader, c: char): Reader {
    if c == '\0' then Reader(r.words, Unsupported)
    else match r.mode
      case Between => if IsBlank(c) then r else Plain(r.words, "", c)
      case InWord(w) => Plain(r.words, w, c)
      case Escaped(w) => if c == '\n' then Reader(r.words, Unsupported) else Reader(r.words, InWord(w + [c]))
      case Quoted(w) => Reader(r.words, if c == '\'' then InWord(w) else Quoted(w + [c]))
      case Unsupported => r
  }

  function Read(r: Reader, s: string): Reader
    decreases |s|
  {
    if s == "" then r else Read(ReadChar(r, s[0]), s[1..])
  }

  function Finish(r: Reader): Option<seq<string>> {
    match r.mode
    case Between => Some(r.words)
    case InWord(w) => Some(r.words + [w])
    case _ => None
  }

  /** The words of a command, if these rules cover it. */
  function Words(command: string): Option<seq<string>> {
    Finish(Read(Reader([], Between), command))
  }

  // ---------------------------------------------------------------------------------------
  // Quoting is undone by reading
  // ---------------------------------------------------------------------------------------

  lemma {:induction false} ReadConcat(r: Reader, a: string, b: string)
    ensures Read(r, a + b) == Read(Read(r, a), b)
    decreases |a|
  {
    if a == "" {
      assert a + b == b;
    } else {
      assert (a + b)[1..] == a[1..] + b;
      ReadConcat(ReadChar(r, a[0]), a[1..], b);
    }
  }

  lemma {:induction false} ReadUnsupported(words: seq<string>, s: string)
    ensures Read(Reader(words, Unsupported), s) == Reader(words, Unsupported)
  {
    if s != "" {
      ReadUnsupported(words, s[1..]);
    }
  }

  predicate NulFree(s: string) {
    forall i | 0 <= i < |s| :: s[i] != '\0'
  }

  lemma ReadEscapedQuote(words: seq<string>, w: string, rest: string)
    ensures Read(Reader(words, Quoted(w)), "'\\''" + rest) == Read(Reader(words, Quoted(w + "'")), rest)
  {
    var r := Reader(words, Quoted(w));
    ReadConcat(r, "'\\''", rest);
    ReadFour(r, '\'', '\\', '\'', '\'');
  }

  lemma ReadFour(r: Reader, a: char, b: char, c: char, d: char)
    ensures Read(r, [a, b, c, d]) == ReadChar(ReadChar(ReadChar(ReadChar(r, a), b), c), d)
  {
    var s := [a, b, c, d];
    assert s[1..] == [b, c, d] && s[1..][1..] == [c, d] && s[1..][1..][1..] == [d] && s[1..][1..][1..][1..] == [];
    assert Read(r, [d]) == Read(ReadChar(r, d), []) by {
      assert [d][1..] == [];
    }
    var r1 := ReadChar(r, a);
    var r2 := ReadChar(r1, b);
    var r3 := ReadChar(r2, c);
    var r4 := ReadChar(r3, d);
    assert Read(r4, []) == r4;
    assert Read(r3, [d]) == r4;
    assert Read(r2, [c, d]) == r4;
    assert Read(r1, [b, c, d]) == r4;
  }

  lemma {:induction false} ReadEscaped(words: seq<string>, w: string, s: string)
    ensures Read(Reader(words, Quoted(w)), EscapeQuotes(s))
            == Reader(words, if NulFree(s) then Quoted(w + s) else Unsupported)
    decreases |s|
  {
    if s == "" {
      assert w + s == w;
    } else {
      var r := Reader(words, Quoted(w));
      if s[0] == '\'' {
        ReadEscapedQuote(words, w, EscapeQuotes(s[1..]));
        ReadEscaped(words, w + "'", s[1..]);
        assert w + "'" + s[1..] == w + s;
      } else {
        assert ([s[0]] + EscapeQuotes(s[1..]))[1..] == EscapeQuotes(s[1..]);
        if s[0] == '\0' {
          ReadUnsupported(words, EscapeQuotes(s[1..]));
        } else {
          ReadEscaped(words, w + [s[0]], s[1..]);
          assert w + [s[0]] + s[1..] == w + s;
        }
      }
      assert NulFree(s) <==> s[0] != '\0' && NulFree(s[1..]) by {
        assert s == [s[0]] + s[1..];
      }
    }
  }

  /** In the middle of a word, `_sq(s)` adds exactly the characters of `s`. */
  lemma ReadQuotedWord(words: seq<string>, w: string, s: string)
    ensures Read(Reader(words, InWord(w)), Sq(s)) == Reader(words, if NulFree(s) then InWord(w + s) else Unsupported)
  {
    var r := Reader(words, InWord(w));
    ReadConcat(r, "'" + EscapeQuotes(s), "'");
    ReadConcat(r, "'", EscapeQuotes(s));
    ReadOne(r, '\'');
    ReadEscaped(words, w, s);
    ReadOne(Reader(words, Quoted(w + s)), '\'');
    ReadOne(Reader(words, Unsupported), '\'');
  }

  lemma ReadOne(r: Reader, c: char)
    ensures Read(r, [c]) == ReadChar(r, c)
  {
    assert [c][1..] == [];
    assert Read(ReadChar(r, c), []) == ReadChar(r, c);
  }

  /** Between words `_sq(s)` opens a new word holding `s`. */
  lemma ReadQuotedStart(words: seq<string>, s: string)
    ensures Read(Reader(words, Between), Sq(s)) == Reader(words, if NulFree(s) then InWord(s) else Unsupported)
  {
    ReadQuotedWord(words, "", s);
    assert "" + s == s;
    assert Sq(s)[0] == '\'';
    assert ReadChar(Reader(words, Between), '\'') == ReadChar(Reader(words, InWord("")), '\'');
  }

  /** The round trip: the shell reads `_sq(s)` as one word equal to `s`, for exactly the strings
      without NUL. */
  lemma QuoteRoundTrip(s: string)
    ensures Words(Sq(s)) == if NulFree(s) then Some([s]) else None
  {
    var none: seq<string> := [];
    ReadQuotedStart(none, s);
    assert none + [s] == [s];
  }

  /** No two strings are quoted alike. */
  lemma QuoteInjective(s: string, t: string)
    requires NulFree(s) && NulFree(t) && Sq(s) == Sq(t)
    ensures s == t
  {
    QuoteRoundTrip(s);
    QuoteRoundTrip(t);
  }

  lemma {:induction false} ReadKeepsWords(words: seq<string>, r: Reader, s: string)
    ensures Read(Reader(words + r.words, r.mode), s) == Reader(words + Read(r, s).words, Read(r, s).mode)
    decreases |s|
  {
    if s != "" {
      var r' := ReadChar(r, s[0]);
      CharKeepsWords(words, r, s[0]);
      ReadKeepsWords(words, r', s[1..]);
    }
  }

  lemma CharKeepsWords(words: seq<string>, r: Reader, c: char)
    ensures ReadChar(Reader(words + r.words, r.mode), c) == Reader(words + ReadChar(r, c).words, ReadChar(r, c).mode)
  {
    assert r.mode.InWord? ==> words + (r.words + [r.mode.word]) == words + r.words + [r.mode.word];
    assert words + (r.words + [""]) == words + r.words + [""];
  }

  lemma ReadBlank(r: Reader)
    requires Finish(r).Some?
    ensures Read(r, " ") == Reader(Finish(r).value, Between)
  {
    ReadOne(r, ' ');
  }

  /** In any command: `_sq(s)` between blanks is one more word, and disturbs nothing around it. */
  lemma QuoteInContext(before: string, s: string, after: string)
    requires NulFree(s) && Words(before).Some?
    ensures Words(before + " " + Sq(s) + " " + after)
            == match Words(after)
               case None => None
               case Some(words) => Some(Words(before).value + [s] + words)
  {
    var start := Reader([], Between);
    var w := Words(before).value;
    ReadConcat(start, before + " " + Sq(s) + " ", after);
    ReadConcat(start, before + " " + Sq(s), " ");
    ReadConcat(start, before + " ", Sq(s));
    ReadConcat(start, before, " ");
    ReadBlank(Read(start, before));
    ReadQuotedStart(w, s);
    ReadBlank(Reader(w, InWord(s)));
    ReadKeepsWords(w + [s], start, after);
    assert w + [s] + [] == w + [s];
    var end := Read(start, after);
    if end.mode.InWord? {
      assert w + [s] + (end.words + [end.mode.word]) == w + [s] + end.words + [end.mode.word];
    }
  }

  /** Adjacent quotings, as the backup search builds them from directory and name, are one word. */
  lemma AdjacentQuotesAreOneWord(dir: string, name: string)
    requires NulFree(dir) && NulFree(name)
    ensures Words(Sq(dir) + "/" + Sq(name)) == Some([dir + "/" + name])
  {
    var start := Reader([], Between);
    ReadConcat(start, Sq(dir) + "/", Sq(name));
    ReadConcat(start, Sq(dir), "/");
    ReadQuotedStart([], dir);
    ReadOne(Reader([], InWord(dir)), '/');
    ReadQuotedWord([], dir + "/", name);
    var none: seq<string> := [];
    assert none + [dir + "/" + name] == [dir + "/" + name];
    assert Sq(dir) + "/" + Sq(name) == (Sq(dir) + "/") + Sq(name);
  }
}
