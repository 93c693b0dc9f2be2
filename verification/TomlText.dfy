/** Text as `configure.py` writes it and `bootstrap.py` reads it: lines, quoted values, and when a
    value that was written is the value that is read. */
module TomlText {
  import opened Basics

  /** White space, as `str.strip` and the regular expression `\s` understand it. */
  predicate IsSpace(c: char) {
    var x := c as int;
    0x09 <= x <= 0x0d || 0x1c <= x <= 0x20 || x == 0x85 || x == 0xa0 || x == 0x1680 || 0x2000 <= x <= 0x200a
    || x == 0x2028 || x == 0x2029 || x == 0x202f || x == 0x205f || x == 0x3000
  }

  /** Where `str.splitlines` breaks lines. */
  predicate IsBreak(c: char) {
    var x := c as int;
    0x0a <= x <= 0x0d || 0x1c <= x <= 0x1e || x == 0x85 || x == 0x2028 || x == 0x2029
  }

  predicate OneLine(s: string) { forall i :: 0 <= i < |s| ==> !IsBreak(s[i]) }

  // --- Stripping ---

  function LStrip(s: string): string { if s != "" && IsSpace(s[0]) then LStrip(s[1..]) else s }

  function RStrip(s: string): string { if s != "" && IsSpace(s[|s| - 1]) then RStrip(s[..|s| - 1]) else s }

  function Strip(s: string): string { RStrip(LStrip(s)) }

  predicate NoOuterSpace(s: string) { s == "" || (!IsSpace(s[0]) && !IsSpace(s[|s| - 1])) }

  lemma {:induction false} LStripShortens(s: string)
    ensures |LStrip(s)| <= |s| && (s != "" && IsSpace(s[0]) ==> |LStrip(s)| < |s|)
    ensures OneLine(s) ==> OneLine(LStrip(s))
    decreases |s|
  {
    if s != "" && IsSpace(s[0]) {
      LStripShortens(s[1..]);
    }
  }

  lemma {:induction false} RStripShortens(s: string)
    ensures |RStrip(s)| <= |s| && (s != "" && IsSpace(s[|s| - 1]) ==> |RStrip(s)| < |s|)
    ensures OneLine(s) ==> OneLine(RStrip(s))
    decreases |s|
  {
    if s != "" && IsSpace(s[|s| - 1]) {
      RStripShortens(s[..|s| - 1]);
    }
  }

  lemma StripExact(s: string)
    ensures Strip(s) == s <==> NoOuterSpace(s)
    ensures |Strip(s)| <= |s| && (OneLine(s) ==> OneLine(Strip(s)))
  {
    LStripShortens(s);
    RStripShortens(LStrip(s));
  }

  /** A blank in front makes no difference. */
  lemma StripAfterBlank(s: string)
    ensures Strip(" " + s) == Strip(s)
  {
    assert (" " + s)[1..] == s;
  }

  // --- Quoted values ---

  /** What stands between the first two quotes; with only one, the slice is empty. */
  function Between(s: string, quote: char): string
    requires quote in s
  {
    var rest := s[IndexOf(s, quote) + 1..];
    var end := IndexOf(rest, quote);
    if end == |rest| then "" else rest[..end]
  }

  function GetString(s: string): Option<string> {
    if '"' in s then Some(Between(s, '"'))
    else if '\'' in s then Some(Between(s, '\''))
    else None
  }

  /** The value `get_toml` returns for the text after the equals sign. */
  function ReadValue(s: string): string {
    var quoted := GetString(s);
    if quoted.Some? && quoted.value != "" then quoted.value else Strip(s)
  }

  datatype Value = Bool(b: bool) | Str(s: string) | List(elements: seq<Value>)

  /** `isNumber` stands for Python's `float` accepting the string.  No such string is empty or a
      boolean, or holds a quote, a comma or a bracket. */
  ghost predicate FloatLike(isNumber: string -> bool) {
    forall s :: isNumber(s) ==>
      QuoteFree(s) && s != "" && s != "true" && s != "false" && ',' !in s && '[' !in s && ']' !in s
  }

  predicate QuoteFree(s: string) { '"' !in s && '\'' !in s }

  function ToToml(v: Value, isNumber: string -> bool): string {
    match v
    case Bool(b) => if b then "true" else "false"
    case List(elements) =>
      var parts := seq(|elements|, i requires 0 <= i < |elements| => ToToml(elements[i], isNumber));
      "[" + Commas(parts) + "]"
    case Str(s) => if isNumber(s) then s else "'" + s + "'"
  }

  function Commas(parts: seq<string>): string {
    if parts == [] then "" else if |parts| == 1 then parts[0] else parts[0] + ", " + Commas(parts[1..])
  }

  /** What a reader would call the value of a scalar. */
  function Text(v: Value): string
    requires !v.List?
  {
    match v
    case Bool(b) => if b then "true" else "false"
    case Str(s) => s
  }

  /** Exactly the scalars that survive: a number without white space around it, and any other
      string that is not empty and holds no quote of either kind. */
  predicate Readable(v: Value, isNumber: string -> bool)
    requires !v.List?
  {
    match v
    case Bool(_) => true
    case Str(s) => if isNumber(s) then NoOuterSpace(s) else s != "" && QuoteFree(s)
  }

  lemma ReadUnquoted(s: string)
    requires QuoteFree(s)
    ensures ReadValue(" " + s) == Strip(s)
  {
    StripAfterBlank(s);
  }

  lemma BetweenIs(s: string, c: char, i: nat, j: nat)
    requires i < j <= |s| && s[i] == c && (forall k :: 0 <= k < i ==> s[k] != c)
    requires (forall k :: i < k < j ==> s[k] != c) && (j < |s| ==> s[j] == c)
    ensures Between(s, c) == if j == |s| then "" else s[i + 1..j]
  {
    hide IndexOf;
    IndexIs(s, c, i);
    var rest := s[i + 1..];
    IndexIs(rest, c, j - i - 1);
    assert rest[..j - i - 1] == s[i + 1..j];
  }

  /** Up to the next single quote, which may be the closing one. */
  lemma BetweenSingle(s: string)
    ensures var line := " '" + s + "'"; '\'' in line && Between(line, '\'') == s[..IndexOf(s, '\'')]
  {
    hide Between, IndexOf;
    var line, j := " '" + s + "'", IndexOf(s, '\'');
    assert forall k :: 0 <= k < j ==> s[..j][k] != '\'';
    assert forall k :: 1 < k < 2 + j ==> line[k] == s[..j][k - 2];
    BetweenIs(line, '\'', 1, 2 + j);
    assert line[2..2 + j] == s[..j];
  }

  lemma ReadSingleQuoted(s: string)
    requires '"' !in s
    ensures ReadValue(" '" + s + "'") == s <==> s != "" && '\'' !in s
  {
    hide Between, IndexOf, Strip;
    BetweenSingle(s);
    StripQuoted(s);
    assert '\'' !in s ==> s[..IndexOf(s, '\'')] == s;
  }

  lemma StripQuoted(s: string)
    ensures Strip(" '" + s + "'") == "'" + s + "'"
  {
    var quoted := "'" + s + "'";
    assert " '" + s + "'" == " " + quoted;
    StripAfterBlank(quoted);
    StripExact(quoted);
  }

  lemma ReadDoubleQuoteInside(s: string)
    requires '"' in s
    ensures ReadValue(" '" + s + "'") != s
  {
    hide Between, Strip;
    BetweenDouble(s);
    StripQuoted(s);
  }

  /** What stands between two double quotes inside of it is shorter than the string. */
  lemma BetweenDouble(s: string)
    requires '"' in s
    ensures var line := " '" + s + "'"; '"' in line && |Between(line, '"')| < |s|
  {
    hide Between, IndexOf;
    var line, i := " '" + s + "'", IndexOf(s, '"');
    var rest := line[i + 3..];
    var j := IndexOf(rest, '"');
    assert forall k :: 2 <= k < i + 2 ==> line[k] == s[..i][k - 2];
    assert line[i + 2] == '"';
    assert forall k :: i + 2 < k < i + 3 + j ==> line[k] == rest[..j][k - i - 3];
    BetweenIs(line, '"', i + 2, i + 3 + j);
    assert j < |rest| ==> i + 3 + j < |line| - 1;
  }

  /** A scalar that is written is the scalar that is read, exactly when it is readable. */
  lemma ScalarRoundTrip(v: Value, isNumber: string -> bool)
    requires !v.List? && FloatLike(isNumber)
    ensures ReadValue(" " + ToToml(v, isNumber)) == Text(v) <==> Readable(v, isNumber)
  {
    match v
    case Bool(b) =>
      ReadUnquoted(Text(v));
      StripExact(Text(v));
    case Str(s) =>
      if isNumber(s) {
        ReadUnquoted(s);
        StripExact(s);
      } else {
        assert " " + ("'" + s + "'") == " '" + s + "'";
        if '"' in s {
          ReadDoubleQuoteInside(s);
        } else {
          ReadSingleQuoted(s);
        }
      }
  }

  // --- Lines ---

  function FirstBreak(s: string): nat { FirstWhere(s, IsBreak) }

  /** `str.splitlines`: a carriage return and a line feed are one break, and a text that ends in a
      break has no empty last line. */
  function SplitLines(text: string): seq<string>
    decreases |text|
  {
    var k := FirstBreak(text);
    if text == "" then []
    else if k == |text| then [text]
    else
      var width := if text[k] == '\r' && k + 1 < |text| && text[k + 1] == '\n' then 2 else 1;
      [text[..k]] + SplitLines(text[k + width..])
  }

  /** Each line followed by a line feed. */
  function JoinLines(lines: seq<string>): string {
    if lines == [] then "" else lines[0] + "\n" + JoinLines(lines[1..])
  }

  lemma {:induction false} JoinSnoc(lines: seq<string>, line: string)
    ensures JoinLines(lines + [line]) == JoinLines(lines) + line + "\n"
    decreases |lines|
  {
    if lines == [] {
      assert lines + [line] == [line];
    } else {
      JoinSnoc(lines[1..], line);
      assert (lines + [line])[1..] == lines[1..] + [line];
    }
  }

  ghost predicate OneLineEach(lines: seq<string>) { forall i :: 0 <= i < |lines| ==> OneLine(lines[i]) }

  /** One line break. */
  predicate IsEnd(end: string) { end == "\r\n" || (|end| == 1 && IsBreak(end[0])) }

  lemma BreakAfter(line: string, rest: string)
    requires OneLine(line) && rest != "" && IsBreak(rest[0])
    ensures FirstBreak(line + rest) == |line|
  {
    hide FirstWhere;
    var text := line + rest;
    assert forall i :: 0 <= i < |line| ==> text[i] == line[i];
    assert text[|line|] == rest[0];
  }

  lemma SplitFirst(line: string, end: string, rest: string)
    requires OneLine(line) && IsEnd(end) && !(end == "\r" && "\n" <= rest)
    ensures SplitLines(line + end + rest) == [line] + SplitLines(rest)
  {
    var text, k := line + end + rest, |line|;
    assert text == line + (end + rest);
    BreakAfter(line, end + rest);
    hide FirstBreak;
    assert text[..k] == line && text[k] == end[0] && text[k + |end|..] == rest;
    if |end| == 2 {
      assert text[k + 1] == end[1];
    } else if k + 1 < |text| {
      assert text[k + 1] == rest[0];
    }
  }

  /** Lines that are written are the lines that are read. */
  lemma {:induction false} SplitJoin(lines: seq<string>)
    requires OneLineEach(lines)
    ensures SplitLines(JoinLines(lines)) == lines
    decreases |lines|
  {
    if lines != [] {
      SplitJoin(lines[1..]);
      SplitFirst(lines[0], "\n", JoinLines(lines[1..]));
    }
  }

  lemma {:induction false} SplitHasOneLineEach(text: string)
    ensures OneLineEach(SplitLines(text))
    decreases |text|
  {
    var k := FirstBreak(text);
    if k < |text| {
      var width := if text[k] == '\r' && k + 1 < |text| && text[k + 1] == '\n' then 2 else 1;
      SplitHasOneLineEach(text[k + width..]);
    } else {
      assert text[..k] == text;
    }
  }

  /** A value read from one line holds no line break. */
  lemma ReadIsOneLine(s: string)
    requires OneLine(s)
    ensures OneLine(ReadValue(s))
  {
    hide Strip;
    StripExact(s);
  }
}
