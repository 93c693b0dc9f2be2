/** What `get_toml` reads, said in terms of the text alone: what a line looks like that sets a key or
    opens a section, what its value is, and which line counts. */
module TomlReading {
  import opened Basics
  import opened TomlText
  import opened ConfigToml

  // --- White space ---

  predicate Blank(s: string) { forall i :: 0 <= i < |s| ==> IsSpace(s[i]) }

  lemma {:induction false} LStripDrops(blank: string, s: string)
    requires Blank(blank) && (s == "" || !IsSpace(s[0]))
    ensures LStrip(blank + s) == s
    decreases |blank|
  {
    if blank == "" {
      assert blank + s == s;
    } else {
      assert (blank + s)[1..] == blank[1..] + s;
      LStripDrops(blank[1..], s);
    }
  }

  lemma {:induction false} RStripDrops(s: string, blank: string)
    requires Blank(blank) && (s == "" || !IsSpace(s[|s| - 1]))
    ensures RStrip(s + blank) == s
    decreases |blank|
  {
    var whole := s + blank;
    if blank == "" {
      assert whole == s;
    } else {
      assert whole[..|whole| - 1] == s + blank[..|blank| - 1];
      RStripDrops(s, blank[..|blank| - 1]);
    }
  }

  /** `strip` drops the white space around a text, and nothing else. */
  lemma StripDrops(before: string, s: string, after: string)
    requires Blank(before) && Blank(after) && NoOuterSpace(s)
    ensures Strip(before + s + after) == s
  {
    hide LStrip, RStrip;
    if s == "" {
      assert before + s + after == (before + after) + "";
      LStripDrops(before + after, "");
      RStripDrops("", "");
      assert "" + "" == "";
    } else {
      assert before + s + after == before + (s + after);
      LStripDrops(before, s + after);
      RStripDrops(s, after);
    }
  }

  lemma {:induction false} LeadingBlank(s: string) returns (blank: string)
    ensures Blank(blank) && s == blank + LStrip(s) && (LStrip(s) == "" || !IsSpace(LStrip(s)[0]))
    decreases |s|
  {
    if s != "" && IsSpace(s[0]) {
      var rest := LeadingBlank(s[1..]);
      blank := [s[0]] + rest;
      assert s == [s[0]] + s[1..];
    } else {
      blank := "";
    }
  }

  lemma {:induction false} TrailingBlank(s: string) returns (blank: string)
    ensures Blank(blank) && s == RStrip(s) + blank && (RStrip(s) == "" || !IsSpace(RStrip(s)[|RStrip(s)| - 1]))
    decreases |s|
  {
    if s != "" && IsSpace(s[|s| - 1]) {
      var rest := TrailingBlank(s[..|s| - 1]);
      blank := rest + [s[|s| - 1]];
      assert s == s[..|s| - 1] + [s[|s| - 1]];
    } else {
      blank := "";
    }
  }

  // --- Lines ---

  ghost predicate SetsKey(line: string, key: string, blank: string, value: string) {
    Blank(blank) && line == key + blank + "=" + value
  }

  /** A line sets a key if it starts with it and an equals sign follows, perhaps after white space;
      the value is all that comes after the sign. */
  lemma KeyLineIs(line: string, key: string, value: string)
    ensures MatchKey(key, line) == Some(value) <==> exists blank :: SetsKey(line, key, blank, value)
  {
    hide LStrip;
    if MatchKey(key, line) == Some(value) {
      var rest := line[|key|..];
      var blank := LeadingBlank(rest);
      assert line == key + rest && LStrip(rest) == "=" + value;
      assert SetsKey(line, key, blank, value);
    }
    if blank :| SetsKey(line, key, blank, value) {
      assert line[|key|..] == blank + ("=" + value);
      LStripDrops(blank, "=" + value);
      assert ("=" + value)[1..] == value;
    }
  }

  ghost predicate OpensSection(line: string, before: string, name: string, after: string) {
    Blank(before) && Blank(after) && line == before + "[" + name + "]" + after
  }

  /** A line opens a section if, white space around it aside, it is a name in brackets. */
  lemma SectionLineIs(line: string, name: string)
    ensures MatchSection(line) == Some(name) <==> exists before, after :: OpensSection(line, before, name, after)
  {
    hide Strip, LStrip, RStrip;
    if MatchSection(line) == Some(name) {
      var before := LeadingBlank(line);
      var after := TrailingBlank(LStrip(line));
      assert Strip(line) == RStrip(LStrip(line)) by { StripIs(line); }
      assert Strip(line) == "[" + name + "]";
      assert line == before + ("[" + name + "]" + after);
      assert OpensSection(line, before, name, after);
    }
    if before, after :| OpensSection(line, before, name, after) {
      var s := "[" + name + "]";
      assert line == before + s + after;
      StripDrops(before, s, after);
      assert s[1..|s| - 1] == name;
    }
  }

  lemma StripIs(s: string)
    ensures Strip(s) == RStrip(LStrip(s))
  {
  }

  // --- Values ---

  /** Between double quotes, whatever stands around them: the text in between. */
  lemma DoubleQuotedValue(a: string, s: string, b: string)
    requires '"' !in a && '"' !in s && s != ""
    ensures ReadValue(a + "\"" + s + "\"" + b) == s
  {
    QuotedIs(a, '"', s, b);
  }

  /** Between single quotes the same, if there is no double quote anywhere. */
  lemma SingleQuotedValue(a: string, s: string, b: string)
    requires '\'' !in a && '\'' !in s && s != "" && '"' !in a && '"' !in s && '"' !in b
    ensures ReadValue(a + "'" + s + "'" + b) == s
  {
    QuotedIs(a, '\'', s, b);
    var line := a + "'" + s + "'" + b;
    assert '"' !in line;
  }

  lemma QuotedIs(a: string, quote: char, s: string, b: string)
    requires quote !in a && quote !in s
    ensures var line := a + [quote] + s + [quote] + b; quote in line && Between(line, quote) == s
  {
    hide Between, IndexOf;
    var line, i := a + [quote] + s + [quote] + b, |a|;
    var j := i + 1 + |s|;
    assert line[i] == quote && line[j] == quote;
    assert forall k :: 0 <= k < i ==> line[k] == a[k];
    assert forall k :: i < k < j ==> line[k] == s[k - i - 1];
    BetweenIs(line, quote, i, j);
    assert line[i + 1..j] == s;
  }

  /** A quote that is not closed, or encloses nothing, is no quote: the value is the whole text,
      stripped.  So is a text without quotes. */
  lemma UnquotedValue(a: string, b: string)
    requires '"' !in a && '"' !in b
    ensures ReadValue(a + "\"" + b) == Strip(a + "\"" + b)
    ensures QuoteFree(a) ==> ReadValue(a) == Strip(a)
    ensures '\'' !in a && '\'' !in b ==> ReadValue(a + "'" + b) == Strip(a + "'" + b)
  {
    hide Strip;
    OpenQuoteIs(a, '"', b);
    if '\'' !in a && '\'' !in b {
      OpenQuoteIs(a, '\'', b);
      assert '"' !in a + "'" + b;
    }
  }

  lemma OpenQuoteIs(a: string, quote: char, b: string)
    requires quote !in a && quote !in b
    ensures var line := a + [quote] + b; quote in line && Between(line, quote) == ""
  {
    hide Between, IndexOf;
    var line, i := a + [quote] + b, |a|;
    assert line[i] == quote;
    assert forall k :: 0 <= k < i ==> line[k] == a[k];
    assert forall k :: i < k < |line| ==> line[k] == b[k - i - 1];
    BetweenIs(line, quote, i, |line|);
  }

  lemma EmptyQuotes(a: string, b: string)
    requires '"' !in a
    ensures ReadValue(a + "\"\"" + b) == Strip(a + "\"\"" + b)
  {
    hide Strip;
    QuotedIs(a, '"', "", b);
    assert a + "\"\"" + b == a + ['"'] + "" + ['"'] + b;
  }

  // --- Files ---

  /** Line `h` opens section `name`, and no line after it and up to `k` opens another. */
  ghost predicate InSection(lines: seq<string>, k: nat, h: nat, name: string)
    requires k < |lines|
  {
    && h <= k && MatchSection(lines[h]) == Some(name)
    && forall i :: h < i <= k ==> MatchSection(lines[i]) == None
  }

  ghost predicate Opened(lines: seq<string>, k: nat, name: string)
    requires k < |lines|
  {
    exists h :: 0 <= h <= k && InSection(lines, k, h, name)
  }

  /** The current section after line `k` is the one opened last. */
  lemma {:induction false} CurrentSectionIs(lines: seq<string>, k: nat, name: string)
    requires k < |lines|
    ensures CurAfter(lines[..k + 1], None) == Some(name) <==> Opened(lines, k, name)
    decreases k
  {
    hide MatchSection, CurAfter, Opened;
    CurAfterNext(lines, k, None);
    OpenedNext(lines, k, name);
    if k == 0 {
      NoSectionYet(lines);
    } else {
      CurrentSectionIs(lines, k - 1, name);
    }
  }

  lemma NoSectionYet(lines: seq<string>)
    ensures CurAfter(lines[..0], None) == None
  {
  }

  lemma OpenedNext(lines: seq<string>, k: nat, name: string)
    requires k < |lines|
    ensures MatchSection(lines[k]).Some? ==> (Opened(lines, k, name) <==> MatchSection(lines[k]) == Some(name))
    ensures MatchSection(lines[k]).None? ==> (Opened(lines, k, name) <==> k > 0 && Opened(lines, k - 1, name))
  {
    hide MatchSection;
    if MatchSection(lines[k]) == Some(name) {
      assert InSection(lines, k, k, name);
    }
    if MatchSection(lines[k]).None? && k > 0 {
      var m: nat := k - 1;
      if Opened(lines, m, name) {
        var h :| 0 <= h <= m && InSection(lines, m, h, name);
        assert InSection(lines, k, h, name);
      }
      if Opened(lines, k, name) {
        var h :| 0 <= h <= k && InSection(lines, k, h, name);
        assert InSection(lines, m, h, name);
      }
    }
  }

  lemma {:induction false} CurAfterNext(lines: seq<string>, k: nat, cur: Option<string>)
    requires k < |lines|
    ensures CurAfter(lines[..k + 1], cur) == Enter(lines[k], CurAfter(lines[..k], cur))
    decreases k
  {
    hide MatchSection, Enter;
    if k == 0 {
      assert lines[..1][1..] == [] && lines[..0] == [];
    } else {
      CurAfterNext(lines[1..], k - 1, Enter(lines[0], cur));
      assert lines[..k + 1][1..] == lines[1..][..k] && lines[..k][1..] == lines[1..][..k - 1];
    }
  }

  /** Line `k` sets `key`, in the section asked for if one is asked for. */
  ghost predicate Sets(lines: seq<string>, k: nat, key: string, section: Option<string>)
    requires k < |lines|
  {
    MatchKey(key, lines[k]).Some? && (section.None? || CurAfter(lines[..k + 1], None) == section)
  }

  /** What is read is the value of the first line that sets the key. */
  lemma FirstSettingCounts(lines: seq<string>, k: nat, key: string, section: Option<string>)
    requires k < |lines| && Sets(lines, k, key, section) && forall j :: 0 <= j < k ==> !Sets(lines, j, key, section)
    ensures MatchKey(key, lines[k]).Some?
    ensures Scan(lines, key, section, None) == Some(ReadValue(MatchKey(key, lines[k]).value))
  {
    hide MatchKey, ReadValue, Sets, Scan;
    SkipTo(lines, k, key, section);
    HitAt(lines, k, key, section);
  }

  /** If no line sets it, nothing is read. */
  lemma NoSettingReadsNothing(lines: seq<string>, key: string, section: Option<string>)
    requires forall k :: 0 <= k < |lines| ==> !Sets(lines, k, key, section)
    ensures Scan(lines, key, section, None) == None
  {
    hide Sets;
    SkipTo(lines, |lines|, key, section);
  }

  lemma {:induction false} SkipTo(lines: seq<string>, k: nat, key: string, section: Option<string>)
    requires k <= |lines| && forall j :: 0 <= j < k ==> !Sets(lines, j, key, section)
    ensures Scan(lines, key, section, None) == Scan(lines[k..], key, section, CurAfter(lines[..k], None))
    decreases k
  {
    hide MatchKey, ReadValue, MatchSection;
    if k == 0 {
      assert lines[0..] == lines && lines[..0] == [];
    } else {
      SkipTo(lines, k - 1, key, section);
      CurAfterNext(lines, k - 1, None);
      assert lines[k - 1..][1..] == lines[k..];
      assert !Sets(lines, k - 1, key, section);
    }
  }

  lemma HitAt(lines: seq<string>, k: nat, key: string, section: Option<string>)
    requires k < |lines| && Sets(lines, k, key, section)
    ensures MatchKey(key, lines[k]).Some?
    ensures Scan(lines[k..], key, section, CurAfter(lines[..k], None)) == Some(ReadValue(MatchKey(key, lines[k]).value))
  {
    hide MatchKey, ReadValue, MatchSection;
    CurAfterNext(lines, k, None);
  }

  /** A file that says `key = "s"`, with any white space and anything after the quotes: `s` is what is
      read for the key, in the section the line is in and without naming one, unless an earlier line
      sets the key there. */
  lemma DoubleQuotedSettingIsRead(lines: seq<string>, k: nat, key: string, section: Option<string>,
      blank: string, a: string, s: string, b: string)
    requires OneLineEach(lines) && k < |lines| && Blank(blank)
    requires lines[k] == key + blank + "=" + (a + "\"" + s + "\"" + b) && '"' !in a && '"' !in s && s != ""
    requires section.Some? ==> Opened(lines, k, section.value)
    requires forall j :: 0 <= j < k ==> !Sets(lines, j, key, section)
    ensures GetTomlSpec(JoinLines(lines), key, section) == Some(s)
  {
    hide MatchKey, MatchSection, ReadValue, Scan, CurAfter;
    var value := a + "\"" + s + "\"" + b;
    assert SetsKey(lines[k], key, blank, value);
    KeyLineIs(lines[k], key, value);
    if section.Some? {
      CurrentSectionIs(lines, k, section.value);
    }
    assert Sets(lines, k, key, section);
    FirstSettingCounts(lines, k, key, section);
    DoubleQuotedValue(a, s, b);
    SplitJoin(lines);
  }

  // --- Other line breaks ---

  /** Lines with whatever line breaks. */
  function Broken(lines: seq<string>, ends: seq<string>, last: string): string
    requires |lines| == |ends|
  {
    if lines == [] then last else lines[0] + ends[0] + Broken(lines[1..], ends[1..], last)
  }

  /** No carriage return and line feed that are meant as two breaks come together. */
  ghost predicate Unambiguous(lines: seq<string>, ends: seq<string>)
    requires |lines| == |ends|
  {
    && (forall i :: 0 <= i < |ends| ==> IsEnd(ends[i]))
    && forall i :: 0 < i < |ends| && ends[i - 1] == "\r" && lines[i] == "" ==> ends[i] != "\n"
  }

  /** A text is split at every kind of line break, a carriage return with its line feed being one, and
      a last line counts even without a break, if it is not empty. */
  lemma {:induction false} SplitBroken(lines: seq<string>, ends: seq<string>, last: string)
    requires |lines| == |ends| && OneLineEach(lines) && OneLine(last) && Unambiguous(lines, ends)
    ensures SplitLines(Broken(lines, ends, last)) == lines + (if last == "" then [] else [last])
    decreases |lines|
  {
    hide OneLine, SplitLines;
    if lines == [] {
      SplitLast(last);
    } else {
      UnambiguousRest(lines, ends);
      SplitBroken(lines[1..], ends[1..], last);
      NoLineFeedNext(lines, ends, last);
      SplitFirst(lines[0], ends[0], Broken(lines[1..], ends[1..], last));
      assert lines == [lines[0]] + lines[1..];
    }
  }

  lemma SplitLast(last: string)
    requires OneLine(last)
    ensures SplitLines(last) == [] + if last == "" then [] else [last]
  {
  }

  lemma UnambiguousRest(lines: seq<string>, ends: seq<string>)
    requires |lines| == |ends| && lines != [] && Unambiguous(lines, ends)
    ensures Unambiguous(lines[1..], ends[1..])
  {
    var ls, es := lines[1..], ends[1..];
    forall i | 0 < i < |es| && es[i - 1] == "\r" && ls[i] == "" ensures es[i] != "\n" {
      assert es[i - 1] == ends[i];
    }
  }

  lemma NoLineFeedNext(lines: seq<string>, ends: seq<string>, last: string)
    requires |lines| == |ends| && lines != [] && OneLineEach(lines) && OneLine(last) && Unambiguous(lines, ends)
    ensures !(ends[0] == "\r" && "\n" <= Broken(lines[1..], ends[1..], last))
  {
    var ls, es := lines[1..], ends[1..];
    var rest := Broken(ls, es, last);
    if ls == [] {
      assert last != "" ==> last[0] != '\n';
    } else if lines[1] != "" {
      assert rest[0] == lines[1][0] && lines[1][0] != '\n';
    } else {
      assert rest[0] == ends[1][0];
      assert ends[1] != "\r\n" ==> ends[1] == [ends[1][0]];
      assert ends[0] == "\r" ==> ends[1] != "\n";
    }
  }
}
