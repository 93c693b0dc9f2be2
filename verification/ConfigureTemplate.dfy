/** What the theorems about `configure.py` ask of its template is met by templates like the real one. */
module ConfigureTemplate {
  import opened Basics
  import opened TomlText
  import opened ConfigToml
  import opened TomlReading
  import opened ConfigureScript
  import opened ConfigureTheorems

  // --- Replacing ---

  lemma ReplaceHere(from: string, b: string, to: string)
    requires from != ""
    ensures Replace(from + b, from, to) == to + Replace(b, from, to)
  {
    assert (from + b)[|from|..] == b;
  }

  lemma ReplaceSkips(c: char, s: string, from: string, to: string)
    requires from != "" && !(from <= [c] + s)
    ensures Replace([c] + s, from, to) == [c] + Replace(s, from, to)
  {
    assert ([c] + s)[0] == c && ([c] + s)[1..] == s;
  }

  /** The first occurrence is replaced, and then the occurrences after it. */
  lemma {:induction false} ReplaceFirst(a: string, from: string, b: string, to: string)
    requires from != "" && from[0] !in a
    ensures Replace(a + (from + b), from, to) == a + (to + Replace(b, from, to))
    decreases |a|
  {
    hide Replace;
    if a == "" {
      assert a + (from + b) == from + b;
      ReplaceHere(from, b, to);
    } else {
      var s := a[1..] + (from + b);
      assert a + (from + b) == [a[0]] + s && a[0] in a;
      assert ([a[0]] + s)[0] != from[0];
      ReplaceFirst(a[1..], from, b, to);
      ReplaceSkips(a[0], s, from, to);
      assert a == [a[0]] + a[1..];
    }
  }

  /** A text in which there is nothing to replace stays. */
  lemma {:induction false} ReplaceNothing(s: string, from: string, to: string)
    requires from != "" && forall k :: 0 <= k <= |s| ==> !(from <= s[k..])
    ensures Replace(s, from, to) == s
    decreases |s|
  {
    hide Replace;
    if s == "" {
      NothingInEmpty(from, to);
    } else {
      var rest := s[1..];
      assert s == [s[0]] + rest && s[0..] == s;
      forall k | 0 <= k <= |rest| ensures !(from <= rest[k..]) {
        assert rest[k..] == s[k + 1..];
      }
      ReplaceNothing(rest, from, to);
      ReplaceSkips(s[0], rest, from, to);
    }
  }

  lemma NothingInEmpty(from: string, to: string)
    requires from != ""
    ensures Replace("", from, to) == ""
  {
  }

  // --- Headers ---

  lemma PlainHeader(name: string)
    ensures MatchSection("[" + name + "]") == Some(name)
  {
    hide MatchSection;
    var line := "[" + name + "]";
    assert OpensSection(line, "", name, "") by {
      assert "" + "[" + name + "]" + "" == line;
    }
    SectionLineIs(line, name);
  }

  /** A header for one target, made out to another. */
  lemma HeaderMadeOut(prefix: string, from: string, target: string)
    requires |from| > 1 && from[0] !in prefix && from[0] != '['
    ensures Replace("[" + prefix + from + "]", from, target) == "[" + (prefix + target) + "]"
  {
    hide Replace;
    var a := "[" + prefix;
    assert "[" + prefix + from + "]" == a + (from + "]");
    ReplaceFirst(a, from, "]", target);
    ReplaceShort("]", from, target);
    assert a + (target + "]") == "[" + (prefix + target) + "]";
  }

  lemma ReplaceShort(s: string, from: string, to: string)
    requires |s| < |from|
    ensures Replace(s, from, to) == s
  {
  }

  const TARGET := "[" + "target." + "x86_64-unknown-linux-gnu" + "]"

  /** The header the template has for its target section is made out to every target as it should be. */
  lemma TargetHeaderFits(target: string)
    requires OneLine(target)
    ensures TargetHeader(TARGET, target)
  {
    hide Replace, MatchSection;
    HeaderMadeOut("target.", "x86_64-unknown-linux-gnu", target);
    PlainHeader("target." + target);
    OneLineAround(target);
  }

  lemma OneLineAround(target: string)
    requires OneLine(target)
    ensures OneLine("[" + ("target." + target) + "]")
  {
    var s, prefix := "[" + ("target." + target) + "]", "[target.";
    assert forall i :: 0 <= i < 8 ==> s[i] == prefix[i] && !IsBreak(prefix[i]);
    assert forall i :: 8 <= i < |s| - 1 ==> s[i] == target[i - 8];
  }

  // --- Templates ---

  /** A line that both programs take for no header: empty, or beginning with neither white space nor a
      bracket. */
  predicate PlainLine(line: string) { line == "" || (!IsSpace(line[0]) && line[0] != '[') }

  ghost predicate HeaderLine(line: string) { exists name :: line == "[" + name + "]" }

  lemma LineIsClean(line: string)
    requires PlainLine(line) || HeaderLine(line)
    ensures Clean(line)
  {
    if PlainLine(line) {
      if line != "" {
        StartsPlain(line);
      }
    } else {
      var name :| line == "[" + name + "]";
      PlainHeader(name);
      assert line[1..|line| - 1] == name;
    }
  }

  /** What makes a template clean, in terms of its text: lines that are plain or exactly a header, no
      section twice, and a target section with the header the real template has. */
  lemma TemplateIsClean(lines: seq<string>, names: seq<string>)
    requires forall i :: 0 <= i < |lines| ==> OneLine(lines[i]) && (PlainLine(lines[i]) || HeaderLine(lines[i]))
    requires Distinct(HeaderNames(lines)) && forall t :: t in names ==> OneLine(t)
    requires forall i :: 0 <= i < |lines| && Header(lines[i]) && SectionName(lines[i]) == "target" ==>
      lines[i] == TARGET
    ensures CleanTemplate(lines, names)
  {
    hide Clean, HeaderNames, TargetHeader, PlainLine, HeaderLine, OneLine, Distinct, SectionName;
    forall i | 0 <= i < |lines| ensures Clean(lines[i]) {
      LineIsClean(lines[i]);
    }
    forall t | t in names ensures TargetHeader(TARGET, t) {
      TargetHeaderFits(t);
    }
  }

  /** What a header says: its section is the name in brackets, all targets being one section, and a
      dotted name that is no target's is refused. */
  lemma HeaderMeans(name: string)
    ensures var line := "[" + name + "]";
      && Header(line) && RawName(line) == name
      && ("target" <= name ==> SectionName(line) == "target" && Supported(line))
      && (!("target" <= name) ==> SectionName(line) == name && (Supported(line) <==> '.' !in name))
  {
    var line := "[" + name + "]";
    assert line[1..|line| - 1] == name;
  }
}
