/** From command-line options to `config.toml` and back: the template that `configure.py` splits,
    edits and writes, and `RustBuild.get_toml`, which reads single keys from the result. */
module ConfigToml {
  import opened Basics
  import opened TomlText

  // --- Reading ---

  predicate IsKeyChar(c: char) { 'a' <= c <= 'z' || 'A' <= c <= 'Z' || '0' <= c <= '9' || c == '-' || c == '_' }

  /** A bare key; as a regular expression it matches itself and nothing else. */
  predicate IsKey(key: string) { key != "" && forall i :: 0 <= i < |key| ==> IsKeyChar(key[i]) }

  /** `^key\s*=(.*)$`: what follows the equals sign. */
  function MatchKey(key: string, line: string): Option<string> {
    if key <= line then
      var rest := LStrip(line[|key|..]);
      if rest != "" && rest[0] == '=' then Some(rest[1..]) else None
    else
      None
  }

  /** `^\s*\[(.*)\]\s*$`: what stands between the brackets. */
  function MatchSection(line: string): Option<string> {
    var s := Strip(line);
    if |s| >= 2 && s[0] == '[' && s[|s| - 1] == ']' then Some(s[1..|s| - 1]) else None
  }

  function Enter(line: string, cur: Option<string>): Option<string> {
    if MatchSection(line).Some? then MatchSection(line) else cur
  }

  predicate Hit(line: string, key: string, section: Option<string>, cur: Option<string>) {
    MatchKey(key, line).Some? && (section.None? || section == Enter(line, cur))
  }

  /** The value of the first line that sets `key` in `section`, if any does. */
  function Scan(lines: seq<string>, key: string, section: Option<string>, cur: Option<string>): Option<string>
    decreases |lines|
  {
    if lines == [] then None
    else if Hit(lines[0], key, section, cur) then Some(ReadValue(MatchKey(key, lines[0]).value))
    else Scan(lines[1..], key, section, Enter(lines[0], cur))
  }

  /** What `get_toml` is to return for a file. */
  function GetTomlSpec(text: string, key: string, section: Option<string>): Option<string> {
    Scan(SplitLines(text), key, section, None)
  }

  /** `get_toml`. */
  method GetToml(text: string, key: string, section: Option<string>) returns (r: Option<string>)
    ensures r == GetTomlSpec(text, key, section)
    ensures r.Some? ==> OneLine(r.value)
  {
    var lines, cur := SplitLines(text), None;
    SplitHasOneLineEach(text);
    for i := 0 to |lines|
      invariant Scan(lines, key, section, None) == Scan(lines[i..], key, section, cur)
    {
      assert lines[i..][1..] == lines[i + 1..];
      var header := MatchSection(lines[i]);
      if header.Some? {
        cur := header;
      }
      var found := MatchKey(key, lines[i]);
      if found.Some? {
        if section.None? || section == cur {
          FoundIsOneLine(key, lines[i]);
          ReadIsOneLine(found.value);
          return Some(ReadValue(found.value));
        }
      }
    }
    r := None;
  }

  lemma FoundIsOneLine(key: string, line: string)
    requires OneLine(line)
    ensures MatchKey(key, line).Some? ==> OneLine(MatchKey(key, line).value)
  {
    if key <= line {
      LStripShortens(line[|key|..]);
    }
  }

  // --- Editing one section ---

  function Comment(key: string): string { "#" + key + " = " }

  function Assignment(key: string, v: Value, isNumber: string -> bool): string { key + " = " + ToToml(v, isNumber) }

  /** The line that holds the commented-out setting of `key`. */
  function First(lines: seq<string>, key: string): (k: nat)
    ensures k <= |lines| && (k < |lines| ==> Comment(key) <= lines[k])
    ensures forall i :: 0 <= i < k ==> !(Comment(key) <= lines[i])
  {
    FirstWhere(lines, line => Comment(key) <= line)
  }

  type Settings = map<string, Value>

  ghost predicate KeysOk(config: Settings) { forall key :: key in config ==> IsKey(key) }

  /** `lines` once the settings in `done` have been applied to `orig`: each replaces the first line
      that comments it out, and every other line stays. */
  ghost predicate IsEdited(orig: seq<string>, config: Settings, done: set<string>, isNumber: string -> bool,
      lines: seq<string>) {
    && |lines| == |orig| && done <= config.Keys
    && (forall key :: key in done && First(orig, key) < |orig| ==>
          lines[First(orig, key)] == Assignment(key, config[key], isNumber))
    && (forall i :: 0 <= i < |orig| && Untouched(orig, done, i) ==> lines[i] == orig[i])
  }

  ghost predicate Untouched(orig: seq<string>, done: set<string>, i: nat) {
    forall key :: key in done ==> First(orig, key) != i
  }

  predicate Ignored(key: string) { key == "infodir" || key == "localstatedir" }

  predicate Known(lines: seq<string>, key: string) { First(lines, key) < |lines| || Ignored(key) }

  lemma CommentIsKeys(a: string, b: string, line: string)
    requires IsKey(a) && IsKey(b) && Comment(a) <= line && Comment(b) <= line
    ensures a == b
  {
    assert forall i :: 0 <= i < |a| ==> line[1 + i] == Comment(a)[1 + i] == a[i];
    assert forall i :: 0 <= i < |b| ==> line[1 + i] == Comment(b)[1 + i] == b[i];
    assert line[1 + |a|] == Comment(a)[1 + |a|] == ' ' && line[1 + |b|] == Comment(b)[1 + |b|] == ' ';
  }

  /** An edited line is either the original or an assignment in the place of its comment. */
  lemma EditedLine(orig: seq<string>, config: Settings, done: set<string>, isNumber: string -> bool,
      lines: seq<string>, i: nat)
    requires KeysOk(config) && IsEdited(orig, config, done, isNumber, lines) && i < |orig|
    ensures lines[i] == orig[i]
      || exists key :: key in done && First(orig, key) == i && lines[i] == Assignment(key, config[key], isNumber)
  {
    if !Untouched(orig, done, i) {
      var key :| key in done && First(orig, key) == i;
    }
  }

  /** Editing does not move the commented-out line of a setting that is still to be applied. */
  lemma FirstIsStable(orig: seq<string>, config: Settings, done: set<string>, isNumber: string -> bool,
      lines: seq<string>, key: string)
    requires KeysOk(config) && IsEdited(orig, config, done, isNumber, lines) && key in config && key !in done
    ensures First(lines, key) == First(orig, key)
  {
    forall i | 0 <= i < |orig| ensures Comment(key) <= lines[i] <==> Comment(key) <= orig[i] {
      EditedLine(orig, config, done, isNumber, lines, i);
      if lines[i] != orig[i] {
        var other :| other in done && First(orig, other) == i && lines[i] == Assignment(other, config[other], isNumber);
        assert IsKeyChar(lines[i][0]);
        if Comment(key) <= orig[i] {
          CommentIsKeys(key, other, orig[i]);
        }
      }
    }
    FirstAgrees(orig, lines, key);
  }

  lemma FirstAgrees(a: seq<string>, b: seq<string>, key: string)
    requires |a| == |b| && forall i :: 0 <= i < |a| ==> (Comment(key) <= a[i] <==> Comment(key) <= b[i])
    ensures First(a, key) == First(b, key)
  {
    hide First, Comment;
  }

  lemma EditOne(orig: seq<string>, config: Settings, done: set<string>, isNumber: string -> bool, lines: seq<string>,
      key: string)
    requires KeysOk(config) && IsEdited(orig, config, done, isNumber, lines) && key in config && key !in done
    ensures var k := First(orig, key);
      var next := if k < |orig| then lines[k := Assignment(key, config[key], isNumber)] else lines;
      IsEdited(orig, config, done + {key}, isNumber, next)
  {
    hide Assignment, Comment;
    var k := First(orig, key);
    var next := if k < |orig| then lines[k := Assignment(key, config[key], isNumber)] else lines;
    forall other | other in done && k < |orig| ensures First(orig, other) != k {
      if First(orig, other) == k {
        CommentIsKeys(key, other, orig[k]);
      }
    }
    forall i | 0 <= i < |orig| && Untouched(orig, done + {key}, i) ensures next[i] == orig[i] {
      assert Untouched(orig, done, i) && First(orig, key) != i;
    }
  }

  /** `configure_section`, over the settings in whatever order the dictionary yields them; it fails
      when a setting has no line in the template and is not one of the two that are ignored. */
  method ConfigureSection(orig: seq<string>, config: Settings, isNumber: string -> bool) returns (ok: bool,
      lines: seq<string>)
    requires KeysOk(config)
    ensures ok <==> forall key :: key in config ==> Known(orig, key)
    ensures ok ==> IsEdited(orig, config, config.Keys, isNumber, lines)
  {
    hide Assignment, Comment, ToToml;
    lines := orig;
    var todo := config.Keys;
    ghost var done: set<string> := {};
    while todo != {}
      invariant todo + done == config.Keys && todo !! done
      invariant IsEdited(orig, config, done, isNumber, lines)
      invariant forall key :: key in done ==> Known(orig, key)
      decreases todo
    {
      var key :| key in todo;
      FirstIsStable(orig, config, done, isNumber, lines, key);
      EditOne(orig, config, done, isNumber, lines, key);
      var i := FindComment(lines, key);
      if i < |lines| {
        lines := lines[i := Assignment(key, config[key], isNumber)];
      } else if key !in ["infodir", "localstatedir"] {
        return false, lines;
      }
      todo, done := todo - {key}, done + {key};
    }
    assert done == config.Keys;
    ok := true;
  }

  /** The inner loop: the first line that comments out `key`. */
  method FindComment(lines: seq<string>, key: string) returns (i: nat)
    ensures i == First(lines, key)
  {
    i := 0;
    while i < |lines| && !("#" + key + " = " <= lines[i])
      invariant i <= |lines| && forall j :: 0 <= j < i ==> !(Comment(key) <= lines[j])
    {
      i := i + 1;
    }
  }

  // --- How lines read, before and after editing ---

  lemma AssignmentReads(key: string, v: Value, isNumber: string -> bool)
    requires IsKey(key)
    ensures MatchSection(Assignment(key, v, isNumber)) == None
    ensures MatchKey(key, Assignment(key, v, isNumber)) == Some(" " + ToToml(v, isNumber))
  {
    hide ToToml;
    var line, toml := Assignment(key, v, isNumber), ToToml(v, isNumber);
    StartsPlain(line);
    assert line[|key|..] == " = " + toml;
    BlankThenEquals(toml);
  }

  lemma BlankThenEquals(s: string)
    ensures LStrip(" = " + s) == "= " + s && ("= " + s)[1..] == " " + s
  {
    assert (" = " + s)[1..] == "= " + s;
  }

  /** A line that begins with neither white space nor a bracket is no section header. */
  lemma StartsPlain(line: string)
    requires line != "" && !IsSpace(line[0]) && line[0] != '['
    ensures MatchSection(line) == None
  {
    RStripStart(line);
  }

  lemma {:induction false} RStripStart(s: string)
    ensures RStrip(s) <= s
    decreases |s|
  {
    if s != "" && IsSpace(s[|s| - 1]) {
      RStripStart(s[..|s| - 1]);
    }
  }

  lemma AssignmentOfOther(key: string, other: string, v: Value, isNumber: string -> bool)
    requires IsKey(key) && IsKey(other) && key != other
    ensures MatchKey(key, Assignment(other, v, isNumber)) == None
  {
    hide ToToml;
    var line := Assignment(other, v, isNumber);
    if key <= line {
      assert forall i :: 0 <= i < |key| ==> key[i] == line[i];
      assert line[|other|] == ' ' && line[..|other|] == other;
      assert key == line[..|key|];
      assert IsKeyChar(line[|key|]);
    }
  }

  lemma CommentReads(key: string, other: string, line: string)
    requires IsKey(key) && Comment(other) <= line
    ensures MatchSection(line) == None && MatchKey(key, line) == None
  {
    assert line[0] == Comment(other)[0] == '#';
    StartsPlain(line);
  }

  lemma HeaderSetsNothing(key: string, line: string)
    requires IsKey(key) && MatchSection(line).Some?
    ensures MatchKey(key, line) == None
  {
    if key <= line {
      assert line[0] == key[0];
      StartsPlain(line);
    }
  }

  /** Editing changes no header, and of the settings only those that were asked for. */
  lemma EditedReads(orig: seq<string>, config: Settings, isNumber: string -> bool, lines: seq<string>, key: string,
      i: nat)
    requires KeysOk(config) && IsEdited(orig, config, config.Keys, isNumber, lines) && i < |orig| && IsKey(key)
    ensures MatchSection(lines[i]) == MatchSection(orig[i])
    ensures key !in config || First(orig, key) != i ==> MatchKey(key, lines[i]) == MatchKey(key, orig[i])
  {
    hide Assignment, Comment, MatchSection, MatchKey, ToToml;
    EditedLine(orig, config, config.Keys, isNumber, lines, i);
    if lines[i] != orig[i] {
      var other :| other in config && First(orig, other) == i && lines[i] == Assignment(other, config[other], isNumber);
      AssignmentReads(other, config[other], isNumber);
      CommentReads(key, other, orig[i]);
      if other != key {
        AssignmentOfOther(key, other, config[other], isNumber);
      }
    }
  }

  /** Lines that read the same line by line give the same value. */
  lemma {:induction false} ScanAgrees(a: seq<string>, b: seq<string>, key: string, section: Option<string>,
      cur: Option<string>)
    requires |a| == |b|
    requires forall i :: 0 <= i < |a| ==>
      MatchSection(a[i]) == MatchSection(b[i]) && MatchKey(key, a[i]) == MatchKey(key, b[i])
    ensures Scan(a, key, section, cur) == Scan(b, key, section, cur)
    decreases |a|
  {
    hide MatchSection, MatchKey, ReadValue;
    if a != [] {
      ScanAgrees(a[1..], b[1..], key, section, Enter(a[0], cur));
    }
  }

  // --- The file as a whole ---

  function Flatten(blocks: seq<seq<string>>): seq<string> {
    if blocks == [] then [] else blocks[0] + Flatten(blocks[1..])
  }

  lemma {:induction false} FlattenConcat(a: seq<seq<string>>, b: seq<seq<string>>)
    ensures Flatten(a + b) == Flatten(a) + Flatten(b)
    decreases |a|
  {
    if a == [] {
      assert a + b == b;
    } else {
      FlattenConcat(a[1..], b);
      assert (a + b)[1..] == a[1..] + b;
    }
  }

  function CurAfter(lines: seq<string>, cur: Option<string>): Option<string>
    decreases |lines|
  {
    if lines == [] then cur else CurAfter(lines[1..], Enter(lines[0], cur))
  }

  lemma {:induction false} ScanConcat(a: seq<string>, b: seq<string>, key: string, section: Option<string>,
      cur: Option<string>)
    ensures Scan(a + b, key, section, cur)
         == if Scan(a, key, section, cur).Some? then Scan(a, key, section, cur)
            else Scan(b, key, section, CurAfter(a, cur))
    decreases |a|
  {
    hide MatchSection, MatchKey, ReadValue;
    if a == [] {
      assert a + b == b;
    } else {
      ScanConcat(a[1..], b, key, section, Enter(a[0], cur));
      assert (a + b)[1..] == a[1..] + b;
    }
  }

  ghost predicate Foreign(lines: seq<string>, name: string) {
    forall i :: 0 <= i < |lines| ==> MatchSection(lines[i]) != Some(name)
  }

  lemma {:induction false} ScanForeign(lines: seq<string>, key: string, name: string, cur: Option<string>)
    requires Foreign(lines, name) && cur != Some(name)
    ensures Scan(lines, key, Some(name), cur) == None && CurAfter(lines, cur) != Some(name)
    decreases |lines|
  {
    hide MatchSection, MatchKey, ReadValue;
    if lines != [] {
      ScanForeign(lines[1..], key, name, Enter(lines[0], cur));
    }
  }

  lemma {:induction false} FlattenForeign(blocks: seq<seq<string>>, name: string)
    requires forall i :: 0 <= i < |blocks| ==> Foreign(blocks[i], name)
    ensures Foreign(Flatten(blocks), name)
    decreases |blocks|
  {
    hide MatchSection;
    if blocks != [] {
      FlattenForeign(blocks[1..], name);
    }
  }

  ghost predicate Headed(block: seq<string>) { block != [] && MatchSection(block[0]).Some? }

  /** Block `j` is the section `name` and no other block is; the blocks after it have headers. */
  ghost predicate SectionAt(blocks: seq<seq<string>>, j: nat, name: string) {
    && j < |blocks| && blocks[j] != [] && MatchSection(blocks[j][0]) == Some(name)
    && (forall i :: 0 <= i < |blocks| && i != j ==> Foreign(blocks[i], name))
    && (forall i :: j < i < |blocks| ==> Headed(blocks[i]))
  }

  lemma ScanFromHeader(lines: seq<string>, key: string, section: Option<string>, cur: Option<string>)
    requires Headed(lines)
    ensures Scan(lines, key, section, cur) == Scan(lines, key, section, None)
  {
  }

  /** Reading a key of a section depends on the lines of that section alone. */
  lemma OnlyOwnSection(blocks: seq<seq<string>>, j: nat, name: string, key: string)
    requires SectionAt(blocks, j, name)
    ensures Scan(Flatten(blocks), key, Some(name), None) == Scan(blocks[j], key, Some(name), None)
  {
    hide MatchSection, Scan, CurAfter;
    var before, own, after := Flatten(blocks[..j]), blocks[j], Flatten(blocks[j + 1..]);
    assert blocks == blocks[..j] + ([own] + blocks[j + 1..]);
    FlattenConcat(blocks[..j], [own] + blocks[j + 1..]);
    assert ([own] + blocks[j + 1..])[1..] == blocks[j + 1..];
    assert Flatten(blocks) == before + (own + after);
    FlattenForeign(blocks[..j], name);
    FlattenForeign(blocks[j + 1..], name);
    ScanForeign(before, key, name, None);
    ScanConcat(before, own + after, key, Some(name), None);
    ScanConcat(own, after, key, Some(name), CurAfter(before, None));
    ScanFromHeader(own, key, Some(name), CurAfter(before, None));
    RestIsForeign(blocks[j + 1..], key, name, CurAfter(own, CurAfter(before, None)));
  }

  lemma RestIsForeign(blocks: seq<seq<string>>, key: string, name: string, cur: Option<string>)
    requires forall i :: 0 <= i < |blocks| ==> Foreign(blocks[i], name) && Headed(blocks[i])
    ensures Scan(Flatten(blocks), key, Some(name), cur) == None
  {
    hide MatchSection;
    FlattenForeign(blocks, name);
    if blocks != [] {
      ScanFromHeader(Flatten(blocks), key, Some(name), cur);
      ScanForeign(Flatten(blocks), key, name, None);
    }
  }

  /** Every block edited by its own settings. */
  ghost predicate AllEdited(blocks: seq<seq<string>>, configs: seq<Settings>, isNumber: string -> bool,
      edited: seq<seq<string>>) {
    && |blocks| == |configs| == |edited|
    && forall i :: 0 <= i < |blocks| ==>
         KeysOk(configs[i]) && IsEdited(blocks[i], configs[i], configs[i].Keys, isNumber, edited[i])
  }

  lemma SectionSurvives(blocks: seq<seq<string>>, configs: seq<Settings>, isNumber: string -> bool,
      edited: seq<seq<string>>, j: nat, name: string)
    requires SectionAt(blocks, j, name) && AllEdited(blocks, configs, isNumber, edited)
    ensures SectionAt(edited, j, name)
  {
    hide MatchSection, IsEdited, First;
    forall i, l | 0 <= i < |blocks| && 0 <= l < |blocks[i]|
      ensures |edited[i]| == |blocks[i]| && MatchSection(edited[i][l]) == MatchSection(blocks[i][l])
    {
      LineSurvives(blocks[i], configs[i], isNumber, edited[i], l);
    }
    forall i | 0 <= i < |blocks| ensures |edited[i]| == |blocks[i]| {
      SameLength(blocks[i], configs[i], isNumber, edited[i]);
    }
  }

  lemma SameLength(orig: seq<string>, config: Settings, isNumber: string -> bool, lines: seq<string>)
    requires IsEdited(orig, config, config.Keys, isNumber, lines)
    ensures |orig| == |lines|
  {
  }

  lemma LineSurvives(orig: seq<string>, config: Settings, isNumber: string -> bool, lines: seq<string>, l: nat)
    requires KeysOk(config) && IsEdited(orig, config, config.Keys, isNumber, lines) && l < |orig|
    ensures |orig| == |lines| && MatchSection(lines[l]) == MatchSection(orig[l])
  {
    EditedReads(orig, config, isNumber, lines, "k", l);
  }

  /** In the template `key` is commented out and not set before that line. */
  ghost predicate CommentedOut(block: seq<string>, key: string) {
    First(block, key) < |block| && forall i :: 0 <= i < First(block, key) ==> MatchKey(key, block[i]) == None
  }

  lemma {:induction false} ScanReaches(lines: seq<string>, key: string, name: string, cur: Option<string>, k: nat)
    requires k < |lines| && cur == Some(name) && MatchKey(key, lines[k]).Some?
    requires forall i :: 0 <= i < k ==> MatchKey(key, lines[i]) == None
    requires forall i :: 0 <= i <= k ==> MatchSection(lines[i]) == None
    ensures Scan(lines, key, Some(name), cur) == Some(ReadValue(MatchKey(key, lines[k]).value))
    decreases k
  {
    hide MatchSection, MatchKey, ReadValue;
    if k > 0 {
      ScanReaches(lines[1..], key, name, cur, k - 1);
    }
  }

  /** A section body holds no header of its own. */
  ghost predicate PlainBody(block: seq<string>) { forall i :: 0 < i < |block| ==> MatchSection(block[i]) == None }

  lemma ScanEdited(block: seq<string>, config: Settings, isNumber: string -> bool, edited: seq<string>, name: string,
      key: string)
    requires KeysOk(config) && IsEdited(block, config, config.Keys, isNumber, edited) && key in config
    requires block != [] && MatchSection(block[0]) == Some(name) && PlainBody(block) && CommentedOut(block, key)
    ensures Scan(edited, key, Some(name), None) == Some(ReadValue(" " + ToToml(config[key], isNumber)))
  {
    hide MatchSection, MatchKey, ReadValue, ToToml, Assignment, Comment, IsEdited, First, Scan;
    var k := First(block, key);
    EditedAt(block, config, isNumber, edited, key);
    forall i | 0 <= i < |block| ensures MatchSection(edited[i]) == MatchSection(block[i]) {
      EditedReads(block, config, isNumber, edited, key, i);
    }
    forall i | 0 <= i < k ensures MatchKey(key, edited[i]) == None {
      EditedReads(block, config, isNumber, edited, key, i);
    }
    AssignmentReads(key, config[key], isNumber);
    HeaderSetsNothing(key, edited[0]);
    ScanReaches(edited[1..], key, name, Some(name), k - 1);
    ScanHeader(edited, key, name);
  }

  lemma ScanHeader(lines: seq<string>, key: string, name: string)
    requires lines != [] && MatchSection(lines[0]) == Some(name) && MatchKey(key, lines[0]) == None
    ensures Scan(lines, key, Some(name), None) == Scan(lines[1..], key, Some(name), Some(name))
  {
  }

  lemma EditedAt(block: seq<string>, config: Settings, isNumber: string -> bool, edited: seq<string>, key: string)
    requires IsEdited(block, config, config.Keys, isNumber, edited) && key in config && First(block, key) < |block|
    ensures |edited| == |block| && edited[First(block, key)] == Assignment(key, config[key], isNumber)
  {
  }

  ghost predicate OneLineBlocks(blocks: seq<seq<string>>) { forall i :: 0 <= i < |blocks| ==> OneLineEach(blocks[i]) }

  ghost predicate OneLineSettings(config: Settings, isNumber: string -> bool) {
    forall key :: key in config ==> OneLine(ToToml(config[key], isNumber))
  }

  lemma {:induction false} FlattenOneLine(blocks: seq<seq<string>>)
    requires OneLineBlocks(blocks)
    ensures OneLineEach(Flatten(blocks))
    decreases |blocks|
  {
    if blocks != [] {
      FlattenOneLine(blocks[1..]);
    }
  }

  lemma EditedOneLine(orig: seq<string>, config: Settings, isNumber: string -> bool, lines: seq<string>)
    requires KeysOk(config) && IsEdited(orig, config, config.Keys, isNumber, lines)
    requires OneLineEach(orig) && OneLineSettings(config, isNumber)
    ensures OneLineEach(lines)
  {
    hide ToToml, First, OneLine, Assignment, IsEdited;
    SameLength(orig, config, isNumber, lines);
    forall i | 0 <= i < |lines| ensures OneLine(lines[i]) {
      EditedLine(orig, config, config.Keys, isNumber, lines, i);
      if lines[i] != orig[i] {
        var key :| key in config.Keys && First(orig, key) == i && lines[i] == Assignment(key, config[key], isNumber);
        AssignmentOneLine(key, config[key], isNumber);
      }
    }
  }

  lemma AssignmentOneLine(key: string, v: Value, isNumber: string -> bool)
    requires IsKey(key) && OneLine(ToToml(v, isNumber))
    ensures OneLine(Assignment(key, v, isNumber))
  {
    hide ToToml;
  }

  /** The template, its settings and the file they give: what the theorems below are about. */
  ghost predicate Configured(blocks: seq<seq<string>>, configs: seq<Settings>, isNumber: string -> bool,
      edited: seq<seq<string>>) {
    && AllEdited(blocks, configs, isNumber, edited) && OneLineBlocks(blocks)
    && forall i :: 0 <= i < |configs| ==> OneLineSettings(configs[i], isNumber)
  }

  function FileText(blocks: seq<seq<string>>): string { JoinLines(Flatten(blocks)) }

  lemma ReadFile(blocks: seq<seq<string>>, key: string, section: Option<string>)
    requires OneLineBlocks(blocks)
    ensures GetTomlSpec(FileText(blocks), key, section) == Scan(Flatten(blocks), key, section, None)
  {
    FlattenOneLine(blocks);
    SplitJoin(Flatten(blocks));
  }

  lemma EditedFileOneLine(blocks: seq<seq<string>>, configs: seq<Settings>, isNumber: string -> bool,
      edited: seq<seq<string>>)
    requires Configured(blocks, configs, isNumber, edited)
    ensures OneLineBlocks(edited)
  {
    hide IsEdited, OneLineSettings, OneLineEach;
    forall i | 0 <= i < |edited| ensures OneLineEach(edited[i]) {
      EditedOneLine(blocks[i], configs[i], isNumber, edited[i]);
    }
  }

  /** A setting that was configured is read back from the written file, whatever the other settings
      and sections hold, exactly when it is readable. */
  lemma ConfiguredIsReadBack(blocks: seq<seq<string>>, configs: seq<Settings>, isNumber: string -> bool,
      edited: seq<seq<string>>, j: nat, name: string, key: string)
    requires FloatLike(isNumber) && Configured(blocks, configs, isNumber, edited) && SectionAt(blocks, j, name)
    requires PlainBody(blocks[j]) && key in configs[j] && CommentedOut(blocks[j], key) && !configs[j][key].List?
    ensures var v := configs[j][key];
      GetTomlSpec(FileText(edited), key, Some(name)) == Some(Text(v)) <==> Readable(v, isNumber)
  {
    hide MatchSection, Scan, IsEdited, ReadValue, ToToml, First, GetTomlSpec, Readable, OneLineSettings;
    EditedFileOneLine(blocks, configs, isNumber, edited);
    ReadFile(edited, key, Some(name));
    SectionSurvives(blocks, configs, isNumber, edited, j, name);
    OnlyOwnSection(edited, j, name, key);
    ScanEdited(blocks[j], configs[j], isNumber, edited[j], name, key);
    ScalarRoundTrip(configs[j][key], isNumber);
  }

  /** A setting of a section that was not configured there reads as in the template, even if the
      same key was configured in another section. */
  lemma OthersReadAsBefore(blocks: seq<seq<string>>, configs: seq<Settings>, isNumber: string -> bool,
      edited: seq<seq<string>>, j: nat, name: string, key: string)
    requires Configured(blocks, configs, isNumber, edited) && SectionAt(blocks, j, name)
    requires IsKey(key) && key !in configs[j]
    ensures GetTomlSpec(FileText(edited), key, Some(name)) == GetTomlSpec(FileText(blocks), key, Some(name))
  {
    hide MatchSection, Scan, GetTomlSpec, OneLineSettings, First, MatchKey, FileText, IsEdited;
    EditedFileOneLine(blocks, configs, isNumber, edited);
    ReadFile(edited, key, Some(name));
    ReadFile(blocks, key, Some(name));
    SectionSurvives(blocks, configs, isNumber, edited, j, name);
    OnlyOwnSection(edited, j, name, key);
    OnlyOwnSection(blocks, j, name, key);
    SameLength(blocks[j], configs[j], isNumber, edited[j]);
    forall i | 0 <= i < |blocks[j]|
      ensures MatchSection(edited[j][i]) == MatchSection(blocks[j][i])
      ensures MatchKey(key, edited[j][i]) == MatchKey(key, blocks[j][i])
    {
      EditedReads(blocks[j], configs[j], isNumber, edited[j], key, i);
    }
    ScanAgrees(edited[j], blocks[j], key, Some(name), None);
  }

  /** Whatever the file, a value with a line break in it is never read. */
  lemma {:induction false} BreaksAreNeverRead(lines: seq<string>, key: string, section: Option<string>,
      cur: Option<string>)
    requires OneLineEach(lines)
    ensures Scan(lines, key, section, cur).Some? ==> OneLine(Scan(lines, key, section, cur).value)
    decreases |lines|
  {
    hide MatchSection, MatchKey, ReadValue;
    if lines != [] {
      FoundIsOneLine(key, lines[0]);
      if MatchKey(key, lines[0]).Some? {
        ReadIsOneLine(MatchKey(key, lines[0]).value);
      }
      BreaksAreNeverRead(lines[1..], key, section, Enter(lines[0], cur));
    }
  }
}
