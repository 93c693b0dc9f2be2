/** The body of `configure.py`: split the template into sections, copy the target section for each
    configured target, apply the settings, write everything out in the order it was read. */
module ConfigureScript {
  import opened Basics
  import opened TomlText
  import opened ConfigToml

  type Section = Option<string>

  predicate Header(line: string) { line != "" && line[0] == '[' }

  /** The Python slice `line[1:-1]`. */
  function RawName(line: string): string { if |line| < 2 then "" else line[1..|line| - 1] }

  function SectionName(line: string): string { if "target" <= RawName(line) then "target" else RawName(line) }

  /** A dotted section other than a target's is refused. */
  predicate Supported(line: string) { Header(line) && '.' in RawName(line) ==> "target" <= RawName(line) }

  function HeaderNames(lines: seq<string>): seq<Section> {
    if lines == [] then []
    else
      var last := lines[|lines| - 1];
      HeaderNames(lines[..|lines| - 1]) + (if Header(last) then [Some(SectionName(last))] else [])
  }

  /** One entry for each section of the file, the target section standing for all targets. */
  function Expand<T>(order: seq<Section>, section: Section -> T, targets: seq<T>): seq<T> {
    if order == [] then []
    else (if order[0] == Some("target") then targets else [section(order[0])]) + Expand(order[1..], section, targets)
  }

  lemma Regroup<T>(a: seq<T>, b: seq<T>, c: seq<T>)
    ensures a + (b + c) == a + b + c
  {
  }

  lemma {:induction false} ExpandConcat<T>(a: seq<Section>, b: seq<Section>, section: Section -> T, targets: seq<T>)
    ensures Expand(a + b, section, targets) == Expand(a, section, targets) + Expand(b, section, targets)
    decreases |a|
  {
    if a == [] {
      assert a + b == b;
    } else {
      ExpandConcat(a[1..], b, section, targets);
      assert (a + b)[1..] == a[1..] + b;
      var first := if a[0] == Some("target") then targets else [section(a[0])];
      Regroup(first, Expand(a[1..], section, targets), Expand(b, section, targets));
    }
  }

  /** Only the sections that occur matter. */
  lemma {:induction false} ExpandAgrees<T>(order: seq<Section>, f: Section -> T, g: Section -> T, targets: seq<T>)
    requires forall s :: s in order ==> f(s) == g(s)
    ensures Expand(order, f, targets) == Expand(order, g, targets)
    decreases |order|
  {
    if order != [] {
      ExpandAgrees(order[1..], f, g, targets);
    }
  }

  function LinesOf(sections: map<Section, seq<string>>): Section -> seq<string> {
    s => if s in sections then sections[s] else []
  }

  function TargetBlocks(order: seq<string>, targets: map<string, seq<string>>): seq<seq<string>> {
    seq(|order|, i requires 0 <= i < |order| => if order[i] in targets then targets[order[i]] else [])
  }

  /** The lines of all sections that were split off, in the order of the template. */
  function Lines(order: seq<Section>, sections: map<Section, seq<string>>): seq<string> {
    if order == [] then [] else Lines(order[..|order| - 1], sections) + LinesOf(sections)(order[|order| - 1])
  }

  /** The sections of a template; a section that comes twice counts as it comes last. */
  function Sectioned(lines: seq<string>): map<Section, seq<string>> {
    if lines == [] then map[None := []]
    else
      var rest, last := lines[..|lines| - 1], lines[|lines| - 1];
      var cur := ([None] + HeaderNames(rest))[|HeaderNames(rest)|];
      if Header(last) then Sectioned(rest)[Some(SectionName(last)) := [last]]
      else Sectioned(rest)[cur := LinesOf(Sectioned(rest))(cur) + [last]]
  }

  lemma {:induction false} LinesIgnore(order: seq<Section>, sections: map<Section, seq<string>>, s: Section,
      lines: seq<string>)
    requires s !in order
    ensures Lines(order, sections[s := lines]) == Lines(order, sections)
    decreases |order|
  {
    if order != [] {
      LinesIgnore(order[..|order| - 1], sections, s, lines);
    }
  }

  /** A section begins with its header and has no other; the part before the first has none. */
  ghost predicate Shaped(s: Section, lines: seq<string>) {
    && (s.Some? ==> lines != [] && Header(lines[0]) && SectionName(lines[0]) == s.value)
    && forall i :: (if s.Some? then 0 else -1) < i < |lines| ==> !Header(lines[i])
  }

  /** Python's `str.replace`. */
  function Replace(s: string, from: string, to: string): string
    requires from != ""
    decreases |s|
  {
    if |s| < |from| then s
    else if from <= s then to + Replace(s[|from|..], from, to)
    else [s[0]] + Replace(s[1..], from, to)
  }

  /** The target section as it is written for one target. */
  function Instance(template: seq<string>, target: string): seq<string> {
    if template == [] then [] else [Replace(template[0], "x86_64-unknown-linux-gnu", target)] + template[1..]
  }

  type SectionSettings = map<string, Settings>

  ghost predicate AllKeysOk(config: SectionSettings) { forall s :: s in config ==> KeysOk(config[s]) }

  predicate Applicable(lines: seq<string>, config: Settings) { forall key :: key in config ==> Known(lines, key) }

  /** Every configured section is there and has a line for every setting. */
  ghost predicate FitsSections(sections: map<Section, seq<string>>, config: SectionSettings) {
    forall s :: s in config ==> Some(s) in sections && Applicable(sections[Some(s)], config[s])
  }

  /** Exactly the sections in `done` have been edited, each by its own settings. */
  ghost predicate EditedSections(was: map<Section, seq<string>>, config: SectionSettings, done: set<string>,
      isNumber: string -> bool, now: map<Section, seq<string>>) {
    && now.Keys == was.Keys && done <= config.Keys
    && forall s :: s in was ==>
         if s.Some? && s.value in done
         then IsEdited(was[s], config[s.value], config[s.value].Keys, isNumber, now[s])
         else now[s] == was[s]
  }

  ghost predicate FitsTargets(targets: map<string, seq<string>>, config: SectionSettings) {
    forall t :: t in config ==> t in targets && Applicable(targets[t], config[t])
  }

  ghost predicate EditedTargets(was: map<string, seq<string>>, config: SectionSettings, done: set<string>,
      isNumber: string -> bool, now: map<string, seq<string>>) {
    && now.Keys == was.Keys && done <= config.Keys
    && forall t :: t in was ==>
         if t in done then IsEdited(was[t], config[t], config[t].Keys, isNumber, now[t]) else now[t] == was[t]
  }

  ghost predicate SectionsOk(order: seq<Section>, sections: map<Section, seq<string>>) {
    (forall s :: s in sections <==> s in order) && forall s :: s in sections ==> Shaped(s, sections[s])
  }

  ghost predicate TargetsOk(order: seq<string>, targets: map<string, seq<string>>) {
    (forall t :: t in targets <==> t in order) && Distinct(order)
  }

  class Script {
    var sections: map<Section, seq<string>>
    var order: seq<Section>
    var targets: map<string, seq<string>>
    var targetOrder: seq<string>

    ghost predicate Valid()
      reads this
    {
      SectionsOk(order, sections) && TargetsOk(targetOrder, targets)
    }

    function Blocks(): seq<seq<string>>
      reads this
    {
      Expand(order, LinesOf(sections), TargetBlocks(targetOrder, targets))
    }

    constructor ()
      ensures Valid() && order == [None] && sections == map[None := []] && targetOrder == [] && targets == map[]
    {
      sections, order, targets, targetOrder := map[None := []], [None], map[], [];
    }

    /** The loop that splits the template.  Where no section name is repeated, every line ends up in
        its section and the sections in order are the template again. */
    method Split(lines: seq<string>) returns (ok: bool)
      requires Valid() && order == [None] && sections == map[None := []]
      modifies `sections, `order
      ensures ok <==> forall i :: 0 <= i < |lines| ==> Supported(lines[i])
      ensures ok ==> Valid() && order == [None] + HeaderNames(lines) && sections == Sectioned(lines)
      ensures ok && Distinct(order) ==> Lines(order, sections) == lines
    {
      hide Shaped, SectionsOk, TargetsOk, Distinct, Lines, HeaderNames, Sectioned;
      NothingSplit(sections);
      var cur: Section := None;
      for i := 0 to |lines|
        invariant SectionsOk(order, sections) && order != [] && order[|order| - 1] == cur
        invariant order == [None] + HeaderNames(lines[..i]) && sections == Sectioned(lines[..i])
        invariant Distinct(order) ==> Lines(order, sections) == lines[..i]
        invariant forall j :: 0 <= j < i ==> Supported(lines[j])
      {
        var line := lines[i];
        assert lines[..i + 1] == lines[..i] + [line];
        NextName(lines[..i], line);
        NextSection(lines[..i], line);
        if Header(line) {
          if '.' in RawName(line) && !("target" <= RawName(line)) {
            return false;
          }
          cur := Some(SectionName(line));
          AddHeader(order, sections, line);
          sections := sections[cur := [line]];
          order := order + [cur];
        } else {
          AddLine(order, sections, line);
          sections := sections[cur := sections[cur] + [line]];
        }
      }
      assert lines[..|lines|] == lines;
      ok := true;
    }

    /** Every configured target gets a copy of the target section, once. */
    method FillTargets(names: seq<string>) returns (ok: bool)
      requires Valid() && targets == map[]
      modifies `targets, `targetOrder
      ensures ok <==> names == [] || Some("target") in sections
      ensures ok ==> Valid() && Filled(targets, names, LinesOf(sections)(Some("target")))
    {
      hide SectionsOk, TargetsOk, Distinct, Replace, Instance, Shaped;
      for i := 0 to |names|
        invariant TargetsOk(targetOrder, targets) && (i > 0 ==> Some("target") in sections)
        invariant Filled(targets, names[..i], LinesOf(sections)(Some("target")))
      {
        var t := names[i];
        if Some("target") !in sections {
          return false;
        }
        HasHeader(order, sections);
        var copy := sections[Some("target")];
        AddTarget(targetOrder, targets, names[..i], copy, t);
        CopyIsInstance(copy, t);
        copy := copy[0 := Replace(copy[0], "x86_64-unknown-linux-gnu", t)];
        if t !in targets {
          targetOrder := targetOrder + [t];
        }
        targets := targets[t := copy];
        assert names[..i + 1] == names[..i] + [t];
      }
      assert names[..|names|] == names;
      ok := true;
    }

    /** The loop over the configured sections other than the targets. */
    method ApplySections(config: SectionSettings, isNumber: string -> bool) returns (ok: bool)
      requires AllKeysOk(config)
      modifies `sections
      ensures ok <==> FitsSections(old(sections), config)
      ensures ok ==> EditedSections(old(sections), config, config.Keys, isNumber, sections)
      ensures ok ==> sections.Keys == old(sections).Keys
    {
      hide IsEdited, KeysOk;
      var todo := config.Keys;
      ghost var done: set<string> := {};
      while todo != {}
        invariant todo + done == config.Keys && todo !! done
        invariant EditedSections(old(sections), config, done, isNumber, sections)
        invariant forall s :: s in done ==> Some(s) in old(sections) && Applicable(old(sections)[Some(s)], config[s])
        decreases todo
      {
        var s :| s in todo;
        if Some(s) !in sections {
          return false;
        }
        var fits, lines := ConfigureSection(sections[Some(s)], config[s], isNumber);
        if !fits {
          return false;
        }
        sections := sections[Some(s) := lines];
        todo, done := todo - {s}, done + {s};
      }
      assert done == config.Keys;
      ok := true;
    }

    /** The loop over the configured targets. */
    method ApplyTargets(config: SectionSettings, isNumber: string -> bool) returns (ok: bool)
      requires AllKeysOk(config)
      modifies `targets
      ensures ok <==> FitsTargets(old(targets), config)
      ensures ok ==> EditedTargets(old(targets), config, config.Keys, isNumber, targets)
      ensures ok ==> targets.Keys == old(targets).Keys
    {
      hide IsEdited, KeysOk;
      var todo := config.Keys;
      ghost var done: set<string> := {};
      while todo != {}
        invariant todo + done == config.Keys && todo !! done
        invariant EditedTargets(old(targets), config, done, isNumber, targets)
        invariant forall t :: t in done ==> t in old(targets) && Applicable(old(targets)[t], config[t])
        decreases todo
      {
        var t :| t in todo;
        if t !in targets {
          return false;
        }
        var fits, lines := ConfigureSection(targets[t], config[t], isNumber);
        if !fits {
          return false;
        }
        targets := targets[t := lines];
        todo, done := todo - {t}, done + {t};
      }
      assert done == config.Keys;
      ok := true;
    }

    /** The writing loop. */
    method Write() returns (text: string)
      requires (forall s :: s in order ==> s in sections) && forall t :: t in targetOrder ==> t in targets
      ensures text == FileText(Blocks())
    {
      hide FileText, Expand, LinesOf, TargetBlocks;
      ghost var section, blocks := LinesOf(sections), TargetBlocks(targetOrder, targets);
      text := "";
      EmptyFile(section, blocks);
      for i := 0 to |order|
        invariant text == FileText(Expand(order[..i], section, blocks))
      {
        ghost var before := Expand(order[..i], section, blocks);
        ExpandNext(order, i, section, blocks);
        if order[i] == Some("target") {
          text := WriteTargets(text, before);
        } else {
          IsSection(order, sections, i);
          text := WriteBlock(text, before, sections[order[i]]);
        }
      }
      assert order[..|order|] == order;
    }

    method WriteTargets(text: string, ghost before: seq<seq<string>>) returns (r: string)
      requires text == FileText(before) && forall t :: t in targetOrder ==> t in targets
      ensures r == FileText(before + TargetBlocks(targetOrder, targets))
    {
      hide FileText;
      ghost var blocks := TargetBlocks(targetOrder, targets);
      r := text;
      assert before + blocks[..0] == before;
      for k := 0 to |targetOrder|
        invariant r == FileText(before + blocks[..k])
      {
        assert before + blocks[..k + 1] == before + blocks[..k] + [blocks[k]];
        assert targetOrder[k] in targetOrder;
        r := WriteBlock(r, before + blocks[..k], targets[targetOrder[k]]);
      }
      assert blocks[..|targetOrder|] == blocks;
    }

    method WriteBlock(text: string, ghost before: seq<seq<string>>, lines: seq<string>) returns (r: string)
      requires text == FileText(before)
      ensures r == FileText(before + [lines])
    {
      hide JoinLines, Flatten;
      r := text;
      assert Flatten(before) + lines[..0] == Flatten(before);
      for i := 0 to |lines|
        invariant r == JoinLines(Flatten(before) + lines[..i])
      {
        JoinSnoc(Flatten(before) + lines[..i], lines[i]);
        assert Flatten(before) + lines[..i + 1] == Flatten(before) + lines[..i] + [lines[i]];
        r := r + lines[i] + "\n";
      }
      FlattenConcat(before, [lines]);
      FlattenOne(lines);
      assert lines[..|lines|] == lines;
    }
  }

  lemma FlattenOne(lines: seq<string>)
    ensures Flatten([lines]) == lines
  {
    assert Flatten([lines]) == lines + [];
  }

  lemma EmptyFile(section: Section -> seq<string>, targets: seq<seq<string>>)
    ensures FileText(Expand([], section, targets)) == ""
  {
  }

  lemma ExpandNext<T>(order: seq<Section>, i: nat, section: Section -> T, targets: seq<T>)
    requires i < |order|
    ensures Expand(order[..i + 1], section, targets)
         == Expand(order[..i], section, targets) + (if order[i] == Some("target") then targets else [section(order[i])])
  {
    assert order[..i + 1] == order[..i] + [order[i]];
    ExpandConcat(order[..i], [order[i]], section, targets);
    var one := if order[i] == Some("target") then targets else [section(order[i])];
    assert Expand([order[i]], section, targets) == one + [];
    assert one + [] == one;
  }

  lemma IsSection(order: seq<Section>, sections: map<Section, seq<string>>, i: nat)
    requires i < |order| && order[i] in sections
    ensures LinesOf(sections)(order[i]) == sections[order[i]]
  {
  }

  lemma HasHeader(order: seq<Section>, sections: map<Section, seq<string>>)
    requires SectionsOk(order, sections) && Some("target") in sections
    ensures sections[Some("target")] != []
  {
  }

  /** The targets named so far, each with its copy of the target section. */
  ghost predicate Filled(targets: map<string, seq<string>>, names: seq<string>, template: seq<string>) {
    (forall t :: t in targets <==> t in names) && forall t :: t in targets ==> targets[t] == Instance(template, t)
  }

  lemma AddTarget(order: seq<string>, targets: map<string, seq<string>>, names: seq<string>, template: seq<string>,
      t: string)
    requires TargetsOk(order, targets) && Filled(targets, names, template)
    ensures TargetsOk(if t in targets then order else order + [t], targets[t := Instance(template, t)])
    ensures Filled(targets[t := Instance(template, t)], names + [t], template)
  {
    hide Instance;
  }

  lemma CopyIsInstance(template: seq<string>, t: string)
    requires template != []
    ensures template[0 := Replace(template[0], "x86_64-unknown-linux-gnu", t)] == Instance(template, t)
  {
    hide Replace;
  }

  lemma NothingSplit(sections: map<Section, seq<string>>)
    requires sections == map[None := []]
    ensures SectionsOk([None], sections) && Lines([None], sections) == [] && HeaderNames([]) == []
    ensures Sectioned([]) == sections
  {
    var order: seq<Section> := [None];
    assert order[..0] == [];
  }

  lemma NextName(lines: seq<string>, line: string)
    ensures HeaderNames(lines + [line]) == HeaderNames(lines) + (if Header(line) then [Some(SectionName(line))] else [])
  {
    assert (lines + [line])[..|lines|] == lines;
  }

  lemma NextSection(lines: seq<string>, line: string)
    ensures var cur := ([None] + HeaderNames(lines))[|HeaderNames(lines)|];
      Sectioned(lines + [line]) == if Header(line) then Sectioned(lines)[Some(SectionName(line)) := [line]]
        else Sectioned(lines)[cur := LinesOf(Sectioned(lines))(cur) + [line]]
  {
    hide HeaderNames, Header, SectionName;
    assert (lines + [line])[..|lines|] == lines;
  }

  lemma AddHeader(order: seq<Section>, sections: map<Section, seq<string>>, line: string)
    requires Header(line) && SectionsOk(order, sections)
    ensures var cur := Some(SectionName(line)); SectionsOk(order + [cur], sections[cur := [line]])
    ensures var cur := Some(SectionName(line));
      Distinct(order + [cur]) ==>
        Distinct(order) && Lines(order + [cur], sections[cur := [line]]) == Lines(order, sections) + [line]
  {
    hide Header, SectionName;
    var cur := Some(SectionName(line));
    assert (order + [cur])[..|order|] == order;
    if Distinct(order + [cur]) {
      forall i, j | 0 <= i < j < |order| ensures order[i] != order[j] {
        assert (order + [cur])[i] != (order + [cur])[j];
      }
      assert forall i :: 0 <= i < |order| ==> (order + [cur])[i] != (order + [cur])[|order|];
      LinesIgnore(order, sections, cur, [line]);
    }
  }

  lemma AddLine(order: seq<Section>, sections: map<Section, seq<string>>, line: string)
    requires order != [] && SectionsOk(order, sections) && !Header(line)
    ensures order[|order| - 1] in sections
    ensures var cur := order[|order| - 1];
      && SectionsOk(order, sections[cur := sections[cur] + [line]])
      && (Distinct(order) ==> Lines(order, sections[cur := sections[cur] + [line]]) == Lines(order, sections) + [line])
  {
    hide Header, SectionName;
    var cur := order[|order| - 1];
    if Distinct(order) {
      LinesIgnore(order[..|order| - 1], sections, cur, sections[cur] + [line]);
    }
  }
}
