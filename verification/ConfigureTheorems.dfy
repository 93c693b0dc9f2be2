/** What a whole run of `configure.py` promises to `get_toml`. */
module ConfigureTheorems {
  import opened Basics
  import opened TomlText
  import opened ConfigToml
  import opened ConfigureScript

  // --- The settings of each block of the file ---

  function SettingsOf(config: SectionSettings): Section -> Settings {
    (s: Section) => if s.Some? && s.value in config then config[s.value] else map[]
  }

  function TargetSettings(order: seq<string>, config: SectionSettings): seq<Settings> {
    seq(|order|, i requires 0 <= i < |order| => if order[i] in config then config[order[i]] else map[])
  }

  lemma EditedByNothing(lines: seq<string>, isNumber: string -> bool)
    ensures var none: Settings := map[]; KeysOk(none) && IsEdited(lines, none, none.Keys, isNumber, lines)
  {
  }

  lemma AllEditedConcat(a: seq<seq<string>>, c: seq<Settings>, e: seq<seq<string>>, a': seq<seq<string>>,
      c': seq<Settings>, e': seq<seq<string>>, isNumber: string -> bool)
    requires AllEdited(a, c, isNumber, e) && AllEdited(a', c', isNumber, e')
    ensures AllEdited(a + a', c + c', isNumber, e + e')
  {
    hide IsEdited, KeysOk;
  }

  /** The sections of the file before and after, block by block. */
  lemma {:induction false} ExpandEdited(order: seq<Section>, was: Section -> seq<string>, config: Section -> Settings,
      now: Section -> seq<string>,
      targets: seq<seq<string>>, configs: seq<Settings>, edited: seq<seq<string>>, isNumber: string -> bool)
    requires forall s :: s in order && s != Some("target") ==>
      KeysOk(config(s)) && IsEdited(was(s), config(s), config(s).Keys, isNumber, now(s))
    requires AllEdited(targets, configs, isNumber, edited)
    ensures AllEdited(Expand(order, was, targets), Expand(order, config, configs), isNumber, Expand(order, now, edited))
    decreases |order|
  {
    hide IsEdited, KeysOk, AllEdited;
    if order == [] {
      NoneEdited(isNumber);
    } else {
      ExpandEdited(order[1..], was, config, now, targets, configs, edited, isNumber);
      var s, rest := order[0], order[1..];
      var a := if s == Some("target") then targets else [was(s)];
      var c := if s == Some("target") then configs else [config(s)];
      var e := if s == Some("target") then edited else [now(s)];
      if s != Some("target") {
        OneEdited(was(s), config(s), now(s), isNumber);
      }
      AllEditedConcat(a, c, e, Expand(rest, was, targets), Expand(rest, config, configs), Expand(rest, now, edited),
        isNumber);
    }
  }

  lemma NoneEdited(isNumber: string -> bool)
    ensures AllEdited([], [], isNumber, [])
  {
  }

  lemma OneEdited(was: seq<string>, config: Settings, now: seq<string>, isNumber: string -> bool)
    requires KeysOk(config) && IsEdited(was, config, config.Keys, isNumber, now)
    ensures AllEdited([was], [config], isNumber, [now])
  {
    hide IsEdited, KeysOk;
  }

  // --- Finding a section in the file ---

  /** `get_toml` and `configure.py` agree on which lines are headers and what they say. */
  ghost predicate Clean(line: string) {
    MatchSection(line) == if Header(line) then Some(RawName(line)) else None
  }

  ghost predicate AllClean(order: seq<Section>, sections: map<Section, seq<string>>) {
    forall s, i :: s in order && s in sections && 0 <= i < |sections[s]| ==> Clean(sections[s][i])
  }

  /** Blocks that stand in the place of the target section. */
  ghost predicate TargetLike(block: seq<string>) {
    && block != [] && MatchSection(block[0]).Some? && "target" <= MatchSection(block[0]).value
    && PlainBody(block)
  }

  lemma TargetIsForeign(block: seq<string>, name: string)
    requires TargetLike(block) && !("target" <= name)
    ensures Foreign(block, name) && Headed(block)
  {
    hide MatchSection;
    forall i | 0 <= i < |block| ensures MatchSection(block[i]) != Some(name) {
      if i > 0 {
        assert MatchSection(block[i]) == None;
      }
    }
  }

  /** The header of a section other than the target's says its name. */
  lemma SectionReads(s: Section, lines: seq<string>)
    requires Shaped(s, lines) && s != Some("target") && forall i :: 0 <= i < |lines| ==> Clean(lines[i])
    ensures s.Some? ==> lines != [] && MatchSection(lines[0]) == s && PlainBody(lines) && !("target" <= s.value)
    ensures forall name: string :: s != Some(name) ==> Foreign(lines, name)
    ensures s.Some? ==> Headed(lines)
  {
    hide MatchSection;
    assert forall i :: 0 < i < |lines| ==> Clean(lines[i]) && MatchSection(lines[i]) == None;
    assert lines != [] ==> Clean(lines[0]);
  }

  /** Where the blocks of a part of the file come from. */
  lemma {:induction false} ExpandedFrom<T>(order: seq<Section>, section: Section -> T, targets: seq<T>, i: nat)
    requires i < |Expand(order, section, targets)|
    ensures Expand(order, section, targets)[i] in targets
         || exists s :: s in order && s != Some("target") && Expand(order, section, targets)[i] == section(s)
    decreases |order|
  {
    var first := if order[0] == Some("target") then targets else [section(order[0])];
    if i >= |first| {
      ExpandedFrom(order[1..], section, targets, i - |first|);
    } else {
      assert order[0] in order;
    }
  }

  lemma {:induction false} ExpandedLength<S, T>(order: seq<Section>, f: Section -> S, g: Section -> T, ss: seq<S>,
      ts: seq<T>)
    requires |ss| == |ts|
    ensures |Expand(order, f, ss)| == |Expand(order, g, ts)|
    decreases |order|
  {
    if order != [] {
      ExpandedLength(order[1..], f, g, ss, ts);
    }
  }

  /** Every section but the first part has a header, and no name is used twice. */
  ghost predicate WellOrdered(order: seq<Section>) {
    order != [] && Distinct(order) && forall i :: 0 < i < |order| ==> order[i].Some?
  }

  lemma PartIsForeign(order: seq<Section>, part: seq<Section>, sections: map<Section, seq<string>>,
      targets: seq<seq<string>>, name: string, i: nat)
    requires SectionsOk(order, sections) && AllClean(order, sections)
    requires (forall s :: s in part ==> s in order && s != Some(name))
    requires (forall t :: t in targets ==> TargetLike(t)) && !("target" <= name)
    requires i < |Expand(part, LinesOf(sections), targets)|
    ensures var b := Expand(part, LinesOf(sections), targets)[i];
      Foreign(b, name) && ((forall s :: s in part ==> s.Some?) ==> Headed(b))
  {
    hide Foreign, Headed, TargetLike, Shaped, Expand, Clean;
    ExpandedFrom(part, LinesOf(sections), targets, i);
    var b := Expand(part, LinesOf(sections), targets)[i];
    if b in targets {
      TargetIsForeign(b, name);
    } else {
      var s :| s in part && s != Some("target") && b == LinesOf(sections)(s);
      SectionReads(s, sections[s]);
    }
  }

  /** The block of the section at position `k` of the order. */
  function Position(order: seq<Section>, k: nat, sections: map<Section, seq<string>>, targets: seq<seq<string>>): nat
    requires k < |order|
  {
    |Expand(order[..k], LinesOf(sections), targets)|
  }

  lemma ExpandAt<T>(order: seq<Section>, section: Section -> T, targets: seq<T>, k: nat)
    requires k < |order| && order[k] != Some("target")
    ensures Expand(order, section, targets)
         == Expand(order[..k], section, targets) + [section(order[k])] + Expand(order[k + 1..], section, targets)
  {
    assert order == order[..k + 1] + order[k + 1..];
    ExpandConcat(order[..k + 1], order[k + 1..], section, targets);
    ExpandNext(order, k, section, targets);
  }

  lemma SectionIsFound(order: seq<Section>, sections: map<Section, seq<string>>, targets: seq<seq<string>>, k: nat,
      name: string)
    requires SectionsOk(order, sections) && AllClean(order, sections) && WellOrdered(order) && k < |order|
    requires order[k] == Some(name)
    requires name != "target" && forall t :: t in targets ==> TargetLike(t)
    ensures var blocks, j := Expand(order, LinesOf(sections), targets), Position(order, k, sections, targets);
      SectionAt(blocks, j, name) && blocks[j] == sections[order[k]] && PlainBody(blocks[j])
  {
    hide Foreign, Headed, TargetLike, Shaped, Expand, Clean, MatchSection, PlainBody;
    var f := LinesOf(sections);
    var before, own, after := Expand(order[..k], f, targets), f(order[k]), Expand(order[k + 1..], f, targets);
    var blocks, j := Expand(order, f, targets), Position(order, k, sections, targets);
    ExpandAt(order, f, targets, k);
    SectionReads(order[k], sections[order[k]]);
    assert blocks[j] == own;
    forall i | 0 <= i < |blocks| && i != j ensures Foreign(blocks[i], name) && (i > j ==> Headed(blocks[i])) {
      if i < j {
        PartIsForeign(order, order[..k], sections, targets, name, i);
        assert blocks[i] == before[i];
      } else {
        PartIsForeign(order, order[k + 1..], sections, targets, name, i - j - 1);
        assert blocks[i] == after[i - j - 1];
      }
    }
  }

  // --- A whole run ---

  /** Everything one run of the script passes through: the sections and targets before and after the
      settings are applied. */
  datatype Run = Run(order: seq<Section>, was: map<Section, seq<string>>, now: map<Section, seq<string>>,
                     targetOrder: seq<string>, targetsWere: map<string, seq<string>>,
                     targetsNow: map<string, seq<string>>)

  datatype Options = Options(names: seq<string>, config: SectionSettings, targetConfig: SectionSettings)

  function Before(r: Run): seq<seq<string>> {
    Expand(r.order, LinesOf(r.was), TargetBlocks(r.targetOrder, r.targetsWere))
  }

  function After(r: Run): seq<seq<string>> {
    Expand(r.order, LinesOf(r.now), TargetBlocks(r.targetOrder, r.targetsNow))
  }

  function Configs(r: Run, o: Options): seq<Settings> {
    Expand(r.order, SettingsOf(o.config), TargetSettings(r.targetOrder, o.targetConfig))
  }

  ghost predicate SplitFrom(lines: seq<string>, r: Run) {
    && SectionsOk(r.order, r.was) && r.order == [None] + HeaderNames(lines) && r.was == Sectioned(lines)
    && (Distinct(r.order) ==> Lines(r.order, r.was) == lines)
  }

  ghost predicate FilledFrom(o: Options, r: Run) {
    && TargetsOk(r.targetOrder, r.targetsWere) && r.targetsNow.Keys == r.targetsWere.Keys
    && (forall t :: t in r.targetsWere ==>
          t in o.names && Some("target") in r.was && r.targetsWere[t] == Instance(r.was[Some("target")], t))
  }

  ghost predicate SectionsEdited(o: Options, isNumber: string -> bool, r: Run) {
    && AllKeysOk(o.config) && FitsSections(r.was, o.config)
    && EditedSections(r.was, o.config, o.config.Keys, isNumber, r.now)
  }

  ghost predicate TargetsEdited(o: Options, isNumber: string -> bool, r: Run) {
    && AllKeysOk(o.targetConfig) && FitsTargets(r.targetsWere, o.targetConfig)
    && EditedTargets(r.targetsWere, o.targetConfig, o.targetConfig.Keys, isNumber, r.targetsNow)
  }

  /** The name under which the section of a target is read. */
  function TargetName(target: string): string { "target." + target }

  /** The target section's header, made out to one target, still reads as a target's header. */
  ghost predicate TargetHeader(line: string, target: string) {
    var h := Replace(line, "x86_64-unknown-linux-gnu", target);
    OneLine(h) && MatchSection(h) == Some(TargetName(target))
  }

  /** What is asked of the template: lines are lines and headers are headers to both programs, and
      no section occurs twice. */
  ghost predicate CleanTemplate(lines: seq<string>, names: seq<string>) {
    && (forall i :: 0 <= i < |lines| ==> OneLine(lines[i]) && Clean(lines[i]))
    && Distinct(HeaderNames(lines))
    && (forall i, t :: 0 <= i < |lines| && t in names && Header(lines[i]) && SectionName(lines[i]) == "target" ==>
          TargetHeader(lines[i], t))
  }

  ghost predicate OneLineOptions(o: Options, isNumber: string -> bool) {
    && (forall s :: s in o.config ==> OneLineSettings(o.config[s], isNumber))
    && (forall t :: t in o.targetConfig ==> OneLineSettings(o.targetConfig[t], isNumber))
  }

  lemma {:induction false} LineOfSection(order: seq<Section>, sections: map<Section, seq<string>>, s: Section, i: nat)
    requires s in order && s in sections && i < |sections[s]|
    ensures sections[s][i] in Lines(order, sections)
    decreases |order|
  {
    if order[|order| - 1] != s {
      LineOfSection(order[..|order| - 1], sections, s, i);
    }
  }

  lemma {:induction false} NamesAreSome(lines: seq<string>, i: nat)
    requires i < |HeaderNames(lines)|
    ensures HeaderNames(lines)[i].Some?
    decreases |lines|
  {
    var rest := lines[..|lines| - 1];
    if i < |HeaderNames(rest)| {
      NamesAreSome(rest, i);
    }
  }

  lemma OrderIsWell(lines: seq<string>)
    requires Distinct(HeaderNames(lines))
    ensures WellOrdered([None] + HeaderNames(lines))
  {
    hide HeaderNames;
    var names := HeaderNames(lines);
    forall i | 0 <= i < |names| ensures names[i].Some? {
      NamesAreSome(lines, i);
    }
  }

  lemma TemplateLines(lines: seq<string>, o: Options, r: Run)
    requires SplitFrom(lines, r) && CleanTemplate(lines, o.names)
    ensures WellOrdered(r.order) && AllClean(r.order, r.was)
    ensures forall s, i :: s in r.was && 0 <= i < |r.was[s]| ==> OneLine(r.was[s][i]) && r.was[s][i] in lines
  {
    hide Lines, HeaderNames, OneLine, Clean, Shaped, TargetHeader;
    OrderIsWell(lines);
    forall s, i | s in r.was && 0 <= i < |r.was[s]|
      ensures OneLine(r.was[s][i]) && r.was[s][i] in lines && Clean(r.was[s][i])
    {
      LineOfSection(r.order, r.was, s, i);
    }
  }

  /** A target's block: its own header over the common body. */
  lemma InstanceIsTargetLike(lines: seq<string>, o: Options, r: Run, t: string)
    requires SplitFrom(lines, r) && FilledFrom(o, r) && CleanTemplate(lines, o.names) && t in r.targetsWere
    ensures TargetLike(r.targetsWere[t]) && OneLineEach(r.targetsWere[t])
    ensures MatchSection(r.targetsWere[t][0]) == Some(TargetName(t))
    ensures forall i :: 0 < i < |r.targetsWere[t]| ==> r.targetsWere[t][i] in lines
  {
    hide Lines, HeaderNames, OneLine, MatchSection, Replace, Distinct;
    TemplateLines(lines, o, r);
    var template, block := r.was[Some("target")], r.targetsWere[t];
    assert Shaped(Some("target"), template);
    assert template[0] in lines && TargetHeader(template[0], t);
    forall i | 0 < i < |block| ensures MatchSection(block[i]) == None && OneLine(block[i]) {
      assert block[i] == template[i] && Clean(template[i]) && !Header(template[i]);
    }
  }

  lemma TargetBlocksAre(lines: seq<string>, o: Options, r: Run)
    requires SplitFrom(lines, r) && FilledFrom(o, r) && CleanTemplate(lines, o.names)
    ensures forall b :: b in TargetBlocks(r.targetOrder, r.targetsWere) ==> TargetLike(b) && OneLineEach(b)
  {
    hide SplitFrom, CleanTemplate, TargetLike, OneLineEach, Distinct, Instance;
    forall b | b in TargetBlocks(r.targetOrder, r.targetsWere) ensures TargetLike(b) && OneLineEach(b) {
      var i :| 0 <= i < |r.targetOrder| && b == TargetBlocks(r.targetOrder, r.targetsWere)[i];
      InstanceIsTargetLike(lines, o, r, r.targetOrder[i]);
    }
  }

  lemma RunEdits(lines: seq<string>, o: Options, isNumber: string -> bool, r: Run)
    requires SplitFrom(lines, r) && FilledFrom(o, r) && SectionsEdited(o, isNumber, r) && TargetsEdited(o, isNumber, r)
    ensures AllEdited(Before(r), Configs(r, o), isNumber, After(r))
  {
    hide IsEdited, KeysOk, Expand, Applicable, Shaped, Distinct, Instance, Lines, HeaderNames;
    var was, now, config := LinesOf(r.was), LinesOf(r.now), SettingsOf(o.config);
    forall s | s in r.order ensures KeysOk(config(s)) && IsEdited(was(s), config(s), config(s).Keys, isNumber, now(s)) {
      EditedByNothing(was(s), isNumber);
    }
    TargetsAllEdited(o, isNumber, r);
    ExpandEdited(r.order, was, config, now, TargetBlocks(r.targetOrder, r.targetsWere),
                 TargetSettings(r.targetOrder, o.targetConfig), TargetBlocks(r.targetOrder, r.targetsNow), isNumber);
  }

  lemma TargetsAllEdited(o: Options, isNumber: string -> bool, r: Run)
    requires FilledFrom(o, r) && TargetsEdited(o, isNumber, r)
    ensures AllEdited(TargetBlocks(r.targetOrder, r.targetsWere), TargetSettings(r.targetOrder, o.targetConfig),
                      isNumber, TargetBlocks(r.targetOrder, r.targetsNow))
  {
    hide IsEdited, KeysOk, Distinct, Instance;
    var a, c, e := TargetBlocks(r.targetOrder, r.targetsWere), TargetSettings(r.targetOrder,
      o.targetConfig), TargetBlocks(r.targetOrder, r.targetsNow);
    forall i | 0 <= i < |a| ensures KeysOk(c[i]) && IsEdited(a[i], c[i], c[i].Keys, isNumber, e[i]) {
      assert r.targetOrder[i] in r.targetsWere && r.targetOrder[i] in r.targetsNow;
      EditedByNothing(a[i], isNumber);
    }
  }

  lemma RunIsOneLine(lines: seq<string>, o: Options, isNumber: string -> bool, r: Run)
    requires SplitFrom(lines, r) && FilledFrom(o, r) && CleanTemplate(lines, o.names) && OneLineOptions(o, isNumber)
    ensures OneLineBlocks(Before(r))
    ensures forall i :: 0 <= i < |Configs(r, o)| ==> OneLineSettings(Configs(r, o)[i], isNumber)
  {
    hide Expand, OneLine, Shaped, CleanTemplate, Distinct, Lines, HeaderNames, OneLineSettings, Instance;
    TemplateLines(lines, o, r);
    TargetBlocksAre(lines, o, r);
    forall i | 0 <= i < |Before(r)| ensures OneLineEach(Before(r)[i]) {
      ExpandedFrom(r.order, LinesOf(r.was), TargetBlocks(r.targetOrder, r.targetsWere), i);
    }
    NoSettings(isNumber);
    forall i | 0 <= i < |Configs(r, o)| ensures OneLineSettings(Configs(r, o)[i], isNumber) {
      ExpandedFrom(r.order, SettingsOf(o.config), TargetSettings(r.targetOrder, o.targetConfig), i);
    }
  }

  lemma NoSettings(isNumber: string -> bool)
    ensures OneLineSettings(map[], isNumber)
  {
  }

  lemma RunConfigures(lines: seq<string>, o: Options, isNumber: string -> bool, r: Run)
    requires SplitFrom(lines, r) && FilledFrom(o, r) && SectionsEdited(o, isNumber, r) && TargetsEdited(o, isNumber, r)
    requires CleanTemplate(lines, o.names) && OneLineOptions(o, isNumber)
    ensures Configured(Before(r), Configs(r, o), isNumber, After(r))
  {
    hide Before, Configs, After, AllEdited;
    RunEdits(lines, o, isNumber, r);
    RunIsOneLine(lines, o, isNumber, r);
  }

  lemma SettingsAtPosition(r: Run, o: Options, k: nat)
    requires k < |r.order| && r.order[k] != Some("target")
    ensures var j := Position(r.order, k, r.was, TargetBlocks(r.targetOrder, r.targetsWere));
      j < |Configs(r, o)| && Configs(r, o)[j] == SettingsOf(o.config)(r.order[k])
  {
    hide Expand;
    ExpandAt(r.order, SettingsOf(o.config), TargetSettings(r.targetOrder, o.targetConfig), k);
    ExpandedLength(r.order[..k], LinesOf(r.was), SettingsOf(o.config), TargetBlocks(r.targetOrder, r.targetsWere),
      TargetSettings(r.targetOrder, o.targetConfig));
  }

  /** The template nowhere sets `key`, except in a comment. */
  ghost predicate NotSet(lines: seq<string>, key: string) {
    forall i :: 0 <= i < |lines| ==> MatchKey(key, lines[i]) == None
  }

  lemma RunSection(lines: seq<string>, o: Options, r: Run, k: nat, name: string)
    requires SplitFrom(lines, r) && FilledFrom(o, r) && CleanTemplate(lines, o.names)
    requires k < |r.order| && r.order[k] == Some(name) && name != "target"
    ensures var j := Position(r.order, k, r.was, TargetBlocks(r.targetOrder, r.targetsWere));
      && SectionAt(Before(r), j, name) && Before(r)[j] == r.was[Some(name)] && PlainBody(Before(r)[j])
      && j < |Configs(r, o)| && Configs(r, o)[j] == SettingsOf(o.config)(Some(name))
  {
    hide Expand, Lines, HeaderNames, CleanTemplate, Position, Distinct, Shaped, SectionAt, PlainBody, TargetLike,
      OneLineEach, Configs, SettingsOf, FilledFrom;
    TemplateLines(lines, o, r);
    TargetBlocksAre(lines, o, r);
    SectionIsFound(r.order, r.was, TargetBlocks(r.targetOrder, r.targetsWere), k, name);
    SettingsAtPosition(r, o, k);
  }

  /** A configured scalar is read back by `get_toml` exactly when it is readable. */
  lemma RunReadsBack(lines: seq<string>, o: Options, isNumber: string -> bool, r: Run, name: string, key: string)
    requires SplitFrom(lines, r) && FilledFrom(o, r) && SectionsEdited(o, isNumber, r) && TargetsEdited(o, isNumber, r)
    requires CleanTemplate(lines, o.names) && OneLineOptions(o, isNumber) && FloatLike(isNumber)
    requires name != "target" && name in o.config && key in o.config[name] && !o.config[name][key].List?
    requires !Ignored(key) && NotSet(lines, key)
    ensures var v := o.config[name][key];
      GetTomlSpec(FileText(After(r)), key, Some(name)) == Some(Text(v)) <==> Readable(v, isNumber)
  {
    hide Before, After, Configs, Position, SectionAt, PlainBody, Configured, IsEdited, FileText, GetTomlSpec,
      MatchKey, Readable, Text,
      Lines, HeaderNames, Shaped, Distinct, OneLine, OneLineOptions, FloatLike, CleanTemplate, FilledFrom,
      TargetsEdited, First;
    var k :| 0 <= k < |r.order| && r.order[k] == Some(name);
    var j := Position(r.order, k, r.was, TargetBlocks(r.targetOrder, r.targetsWere));
    RunSection(lines, o, r, k, name);
    RunConfigures(lines, o, isNumber, r);
    TemplateLines(lines, o, r);
    assert CommentedOut(r.was[Some(name)], key) by {
      assert Known(r.was[Some(name)], key);
    }
    ConfiguredIsReadBack(Before(r), Configs(r, o), isNumber, After(r), j, name, key);
  }

  // --- The sections of targets ---

  lemma ExpandAtTarget<T>(order: seq<Section>, section: Section -> T, targets: seq<T>, k: nat)
    requires k < |order| && order[k] == Some("target")
    ensures Expand(order, section, targets)
         == Expand(order[..k], section, targets) + targets + Expand(order[k + 1..], section, targets)
  {
    assert order == order[..k + 1] + order[k + 1..];
    ExpandConcat(order[..k + 1], order[k + 1..], section, targets);
    ExpandNext(order, k, section, targets);
  }

  lemma {:induction false} ExpandNoTarget<T>(order: seq<Section>, section: Section -> T, targets: seq<T>)
    requires Some("target") !in order
    ensures Expand(order, section, targets) == Expand(order, section, [])
    decreases |order|
  {
    if order != [] {
      ExpandNoTarget(order[1..], section, targets);
    }
  }

  /** Away from the target section, no block reads as a target's. */
  lemma PartIsNoTarget(order: seq<Section>, part: seq<Section>, sections: map<Section, seq<string>>,
      targets: seq<seq<string>>, t: string, i: nat)
    requires SectionsOk(order, sections) && AllClean(order, sections)
    requires forall s :: s in part ==> s in order && s != Some("target")
    requires i < |Expand(part, LinesOf(sections), targets)|
    ensures var b := Expand(part, LinesOf(sections), targets)[i];
      Foreign(b, TargetName(t)) && ((forall s :: s in part ==> s.Some?) ==> Headed(b))
  {
    hide Foreign, Headed, Shaped, Expand, Clean;
    ExpandNoTarget(part, LinesOf(sections), targets);
    ExpandedFrom(part, LinesOf(sections), [], i);
    var s :| s in part && s != Some("target") && Expand(part, LinesOf(sections), targets)[i] == LinesOf(sections)(s);
    SectionReads(s, sections[s]);
    assert "target" <= TargetName(t);
  }

  lemma TargetIsApart(block: seq<string>, t: string, u: string)
    requires TargetLike(block) && MatchSection(block[0]) == Some(TargetName(u)) && t != u
    ensures Foreign(block, TargetName(t)) && Headed(block)
  {
    hide MatchSection;
    assert TargetName(t)[7..] == t && TargetName(u)[7..] == u;
    forall i | 0 <= i < |block| ensures MatchSection(block[i]) != Some(TargetName(t)) {
      if i > 0 {
        assert MatchSection(block[i]) == None;
      }
    }
  }

  /** The block of the target at position `a` among the targets. */
  function TargetPosition(r: Run, k: nat, a: nat): nat
    requires k < |r.order|
  {
    Position(r.order, k, r.was, TargetBlocks(r.targetOrder, r.targetsWere)) + a
  }

  lemma TargetIsFound(lines: seq<string>, o: Options, r: Run, k: nat, a: nat)
    requires SplitFrom(lines, r) && FilledFrom(o, r) && CleanTemplate(lines, o.names)
    requires k < |r.order| && r.order[k] == Some("target") && a < |r.targetOrder|
    ensures var t, j := r.targetOrder[a], TargetPosition(r, k, a);
      && t in r.targetsWere && SectionAt(Before(r), j, TargetName(t))
      && Before(r)[j] == r.targetsWere[t] && PlainBody(Before(r)[j])
  {
    hide Foreign, Headed, Expand, MatchSection, PlainBody, HeaderNames, Lines, CleanTemplate, Shaped, Instance,
      TargetName, OneLineEach, Sectioned, SplitFrom;
    var t, j := r.targetOrder[a], TargetPosition(r, k, a);
    var f, targets := LinesOf(r.was), TargetBlocks(r.targetOrder, r.targetsWere);
    ExpandAtTarget(r.order, f, targets, k);
    InstanceIsTargetLike(lines, o, r, t);
    var blocks := Before(r);
    assert blocks[j] == targets[a] == r.targetsWere[t];
    forall i | 0 <= i < |blocks| && i != j
      ensures Foreign(blocks[i], TargetName(t)) && (i > j ==> Headed(blocks[i]))
    {
      OtherBlock(lines, o, r, k, a, i);
    }
  }

  lemma OtherBlock(lines: seq<string>, o: Options, r: Run, k: nat, a: nat, i: nat)
    requires SplitFrom(lines, r) && FilledFrom(o, r) && CleanTemplate(lines, o.names)
    requires k < |r.order| && r.order[k] == Some("target") && a < |r.targetOrder|
    requires i < |Before(r)| && i != TargetPosition(r, k, a)
    ensures Foreign(Before(r)[i], TargetName(r.targetOrder[a]))
    ensures i > TargetPosition(r, k, a) ==> Headed(Before(r)[i])
  {
    hide Foreign, Headed, Expand, MatchSection, PlainBody, HeaderNames, Lines, CleanTemplate, Shaped, Instance,
      TargetName, OneLineEach, Sectioned;
    var t, start, n := r.targetOrder[a], TargetPosition(r, k, 0), |r.targetOrder|;
    var f, targets := LinesOf(r.was), TargetBlocks(r.targetOrder, r.targetsWere);
    TemplateLines(lines, o, r);
    ExpandAtTarget(r.order, f, targets, k);
    if i < start {
      PartIsNoTarget(r.order, r.order[..k], r.was, targets, t, i);
    } else if i < start + n {
      var u := r.targetOrder[i - start];
      assert Before(r)[i] == targets[i - start] == r.targetsWere[u];
      InstanceIsTargetLike(lines, o, r, u);
      TargetIsApart(Before(r)[i], t, u);
    } else {
      PartIsNoTarget(r.order, r.order[k + 1..], r.was, targets, t, i - start - n);
    }
  }

  lemma TargetSettingsAt(r: Run, o: Options, k: nat, a: nat)
    requires k < |r.order| && r.order[k] == Some("target") && a < |r.targetOrder|
    ensures var t, j := r.targetOrder[a], TargetPosition(r, k, a);
      j < |Configs(r, o)| && Configs(r, o)[j] == if t in o.targetConfig then o.targetConfig[t] else map[]
  {
    hide Expand;
    var settings := TargetSettings(r.targetOrder, o.targetConfig);
    ExpandAtTarget(r.order, SettingsOf(o.config), settings, k);
    ExpandedLength(r.order[..k], LinesOf(r.was), SettingsOf(o.config), TargetBlocks(r.targetOrder, r.targetsWere),
      settings);
  }

  /** In a target's own section, too, a key that the template only comments out is not set. */
  lemma TargetCommentedOut(lines: seq<string>, o: Options, r: Run, t: string, key: string)
    requires SplitFrom(lines, r) && FilledFrom(o, r) && CleanTemplate(lines, o.names) && t in r.targetsWere
    requires IsKey(key) && NotSet(lines, key) && First(r.targetsWere[t], key) < |r.targetsWere[t]|
    ensures CommentedOut(r.targetsWere[t], key)
  {
    hide MatchKey, MatchSection, IsKey, CleanTemplate, SplitFrom, First, OneLineEach;
    InstanceIsTargetLike(lines, o, r, t);
    var block := r.targetsWere[t];
    HeaderSetsNothing(key, block[0]);
  }

  /** What is configured for a target is read back from that target's section, exactly when readable. */
  lemma RunReadsBackTarget(lines: seq<string>, o: Options, isNumber: string -> bool, r: Run, t: string, key: string)
    requires SplitFrom(lines, r) && FilledFrom(o, r) && SectionsEdited(o, isNumber, r) && TargetsEdited(o, isNumber, r)
    requires CleanTemplate(lines, o.names) && OneLineOptions(o, isNumber) && FloatLike(isNumber)
    requires t in o.targetConfig && key in o.targetConfig[t] && !o.targetConfig[t][key].List?
    requires !Ignored(key) && NotSet(lines, key)
    ensures GetTomlSpec(FileText(After(r)), key, Some(TargetName(t))) == Some(Text(o.targetConfig[t][key]))
       <==> Readable(o.targetConfig[t][key], isNumber)
  {
    hide Before, After, Configs, TargetPosition, SectionAt, PlainBody, Configured, IsEdited, FileText, GetTomlSpec,
      Readable, Text,
      Lines, HeaderNames, Shaped, Distinct, OneLineOptions, FloatLike, CleanTemplate, SectionsEdited, First, NotSet,
      CommentedOut, TargetName, Instance, IsKey;
    var k :| 0 <= k < |r.order| && r.order[k] == Some("target");
    var a :| 0 <= a < |r.targetOrder| && r.targetOrder[a] == t;
    var j := TargetPosition(r, k, a);
    TargetIsFound(lines, o, r, k, a);
    TargetSettingsAt(r, o, k, a);
    RunConfigures(lines, o, isNumber, r);
    assert Known(r.targetsWere[t], key);
    TargetCommentedOut(lines, o, r, t, key);
    ConfiguredIsReadBack(Before(r), Configs(r, o), isNumber, After(r), j, TargetName(t), key);
  }

  /** In a body without headers it does not matter what the section is called. */
  lemma {:induction false} ScanPlain(lines: seq<string>, key: string, m: string, n: string)
    requires forall i :: 0 <= i < |lines| ==> MatchSection(lines[i]) == None
    ensures Scan(lines, key, Some(m), Some(m)) == Scan(lines, key, Some(n), Some(n))
    decreases |lines|
  {
    hide MatchSection, MatchKey, ReadValue;
    if lines != [] {
      ScanPlain(lines[1..], key, m, n);
    }
  }

  /** What the target section of the template says about `key`. */
  function TemplateTargetValue(lines: seq<string>, key: string): Option<string> {
    var b := LinesOf(Sectioned(lines))(Some("target"));
    if b == [] then None else Scan(b, key, MatchSection(b[0]), None)
  }

  /** A target's section reads like the template's, but for the name. */
  lemma InstanceReads(lines: seq<string>, o: Options, r: Run, t: string, key: string)
    requires SplitFrom(lines, r) && FilledFrom(o, r) && CleanTemplate(lines, o.names) && t in r.targetsWere
    requires IsKey(key)
    ensures Scan(r.targetsWere[t], key, Some(TargetName(t)), None) == TemplateTargetValue(lines, key)
  {
    hide MatchSection, MatchKey, Scan, CleanTemplate, Lines, HeaderNames, Shaped, OneLineEach, Distinct, Replace,
      Sectioned, IsKey;
    TemplateLines(lines, o, r);
    InstanceIsTargetLike(lines, o, r, t);
    TemplateTargetLike(r);
    var template, block := r.was[Some("target")], r.targetsWere[t];
    var name := MatchSection(template[0]).value;
    HeaderSetsNothing(key, template[0]);
    HeaderSetsNothing(key, block[0]);
    ScanHeader(template, key, name);
    ScanHeader(block, key, TargetName(t));
    assert block[1..] == template[1..];
    ScanPlain(template[1..], key, name, TargetName(t));
  }

  /** What was not configured for a target reads as in the template's target section. */
  lemma RunKeepsOthersTarget(lines: seq<string>, o: Options, isNumber: string -> bool, r: Run, t: string, key: string)
    requires SplitFrom(lines, r) && FilledFrom(o, r) && SectionsEdited(o, isNumber, r) && TargetsEdited(o, isNumber, r)
    requires CleanTemplate(lines, o.names) && OneLineOptions(o, isNumber)
    requires t in r.targetsWere && IsKey(key) && (t in o.targetConfig ==> key !in o.targetConfig[t])
    ensures GetTomlSpec(FileText(After(r)), key, Some(TargetName(t))) == TemplateTargetValue(lines, key)
  {
    hide Before, After, Configs, TargetPosition, SectionAt, PlainBody, IsEdited, FileText, GetTomlSpec, Scan, Lines,
      HeaderNames,
      Shaped, Distinct, OneLineOptions, CleanTemplate, SectionsEdited, AllEdited, OneLineSettings, IsKey, TargetName,
      Instance,
      TemplateTargetValue, Sectioned;
    var k :| 0 <= k < |r.order| && r.order[k] == Some("target");
    var a :| 0 <= a < |r.targetOrder| && r.targetOrder[a] == t;
    var j := TargetPosition(r, k, a);
    TargetIsFound(lines, o, r, k, a);
    TargetSettingsAt(r, o, k, a);
    RunConfigures(lines, o, isNumber, r);
    OthersReadAsBefore(Before(r), Configs(r, o), isNumber, After(r), j, TargetName(t), key);
    ReadFile(Before(r), key, Some(TargetName(t)));
    OnlyOwnSection(Before(r), j, TargetName(t), key);
    InstanceReads(lines, o, r, t, key);
  }

  /** The target section of the template itself, where it has one. */
  function TemplateTargets(r: Run): seq<seq<string>> {
    if Some("target") in r.was then [r.was[Some("target")]] else []
  }

  lemma {:induction false} TemplateIsBlocks(order: seq<Section>, sections: map<Section, seq<string>>,
      targets: seq<seq<string>>, k: nat)
    requires k <= |order| && (Some("target") in order ==> targets == [LinesOf(sections)(Some("target"))])
    ensures Flatten(Expand(order[..k], LinesOf(sections), targets)) == Lines(order[..k], sections)
    decreases k
  {
    hide LinesOf;
    var f := LinesOf(sections);
    if k > 0 {
      TemplateIsBlocks(order, sections, targets, k - 1);
      ExpandNext(order, k - 1, f, targets);
      FlattenConcat(Expand(order[..k - 1], f, targets), [f(order[k - 1])]);
      FlattenOne(f(order[k - 1]));
      assert order[..k][..k - 1] == order[..k - 1];
      assert order[k - 1] in order;
    }
  }

  /** Reading the template is reading the section of the template. */
  lemma TemplateReads(lines: seq<string>, o: Options, r: Run, k: nat, name: string, key: string)
    requires SplitFrom(lines, r) && CleanTemplate(lines, o.names)
    requires k < |r.order| && r.order[k] == Some(name) && name != "target"
    ensures Scan(lines, key, Some(name), None) == Scan(r.was[Some(name)], key, Some(name), None)
  {
    hide Scan, Expand, Lines, HeaderNames, Shaped, SectionAt, PlainBody, TargetLike, CleanTemplate, Position;
    TemplateLines(lines, o, r);
    var targets := TemplateTargets(r);
    forall t | t in targets ensures TargetLike(t) {
      TemplateTargetLike(r);
    }
    SectionIsFound(r.order, r.was, targets, k, name);
    TemplateIsBlocks(r.order, r.was, targets, |r.order|);
    assert r.order[..|r.order|] == r.order;
    OnlyOwnSection(Expand(r.order, LinesOf(r.was), targets), Position(r.order, k, r.was, targets), name, key);
  }

  lemma TemplateTargetLike(r: Run)
    requires SectionsOk(r.order, r.was) && AllClean(r.order, r.was) && Some("target") in r.was
    ensures TargetLike(r.was[Some("target")])
  {
    hide MatchSection;
    var block := r.was[Some("target")];
    assert Shaped(Some("target"), block) && Clean(block[0]);
    forall i | 0 < i < |block| ensures MatchSection(block[i]) == None {
      assert Clean(block[i]);
    }
  }

  /** What was not configured in a section reads as in the template. */
  lemma RunKeepsOthers(lines: seq<string>, o: Options, isNumber: string -> bool, r: Run, name: string, key: string)
    requires SplitFrom(lines, r) && FilledFrom(o, r) && SectionsEdited(o, isNumber, r) && TargetsEdited(o, isNumber, r)
    requires CleanTemplate(lines, o.names) && OneLineOptions(o, isNumber)
    requires name != "target" && Some(name) in HeaderNames(lines) && IsKey(key)
    requires (name in o.config ==> key !in o.config[name])
    ensures GetTomlSpec(FileText(After(r)), key, Some(name)) == Scan(lines, key, Some(name), None)
  {
    hide Before, After, Configs, Position, SectionAt, PlainBody, IsEdited, FileText, GetTomlSpec, Scan, Lines,
      HeaderNames,
      Shaped, Distinct, OneLineOptions, CleanTemplate, FilledFrom, TargetsEdited, AllEdited, OneLineSettings, IsKey;
    assert Some(name) in r.order;
    var k :| 0 <= k < |r.order| && r.order[k] == Some(name);
    var j := Position(r.order, k, r.was, TargetBlocks(r.targetOrder, r.targetsWere));
    RunSection(lines, o, r, k, name);
    RunConfigures(lines, o, isNumber, r);
    OthersReadAsBefore(Before(r), Configs(r, o), isNumber, After(r), j, name, key);
    ReadFile(Before(r), key, Some(name));
    OnlyOwnSection(Before(r), j, name, key);
    TemplateReads(lines, o, r, k, name, key);
  }

  /** What is read for `key` is `v` exactly when `v` is readable. */
  predicate ReadExactly(text: string, section: string, key: string, v: Value, isNumber: string -> bool)
    requires !v.List?
  {
    GetTomlSpec(text, key, Some(section)) == Some(Text(v)) <==> Readable(v, isNumber)
  }

  /** The settings the promise is about: scalars that the template has, and only in comments. */
  ghost predicate Promised(lines: seq<string>, config: Settings, key: string) {
    key in config && !config[key].List? && !Ignored(key) && NotSet(lines, key)
  }

  ghost predicate ReadsBack(lines: seq<string>, o: Options, isNumber: string -> bool, text: string) {
    forall name, key :: name in o.config && Promised(lines, o.config[name], key) ==>
      ReadExactly(text, name, key, o.config[name][key], isNumber)
  }

  /** The same for the sections of the configured targets. */
  ghost predicate ReadsBackTargets(lines: seq<string>, o: Options, isNumber: string -> bool, text: string) {
    forall t, key :: t in o.targetConfig && Promised(lines, o.targetConfig[t], key) ==>
      ReadExactly(text, TargetName(t), key, o.targetConfig[t][key], isNumber)
  }

  /** A key that was not configured in a section of the template. */
  ghost predicate NotConfigured(lines: seq<string>, o: Options, name: string, key: string) {
    && name != "target" && Some(name) in HeaderNames(lines) && IsKey(key)
    && (name in o.config ==> key !in o.config[name])
  }

  /** Every other key of every section reads as in the template. */
  ghost predicate KeepsOthers(lines: seq<string>, o: Options, text: string) {
    forall name, key :: NotConfigured(lines, o, name, key) ==>
      GetTomlSpec(text, key, Some(name)) == Scan(lines, key, Some(name), None)
  }

  ghost predicate KeepsOthersTargets(lines: seq<string>, o: Options, text: string) {
    forall t, key :: t in o.names && IsKey(key) && (t in o.targetConfig ==> key !in o.targetConfig[t]) ==>
      GetTomlSpec(text, key, Some(TargetName(t))) == TemplateTargetValue(lines, key)
  }

  lemma RunPromises(lines: seq<string>, o: Options, isNumber: string -> bool, r: Run)
    requires SplitFrom(lines, r) && FilledFrom(o, r) && SectionsEdited(o, isNumber, r) && TargetsEdited(o, isNumber, r)
    requires CleanTemplate(lines, o.names) && OneLineOptions(o, isNumber) && FloatLike(isNumber)
    requires "target" !in o.config
    requires forall t :: t in o.names ==> t in r.targetsWere
    ensures ReadsBack(lines, o, isNumber, FileText(After(r)))
    ensures ReadsBackTargets(lines, o, isNumber, FileText(After(r)))
    ensures KeepsOthers(lines, o, FileText(After(r))) && KeepsOthersTargets(lines, o, FileText(After(r)))
  {
    hide CleanTemplate, OneLineOptions, GetTomlSpec, Readable, Text, NotSet, Scan, HeaderNames, FloatLike, IsKey,
      TemplateTargetValue, TargetName, FileText, After, SplitFrom, FilledFrom, SectionsEdited, TargetsEdited;
    var text := FileText(After(r));
    forall name, key | name in o.config && Promised(lines, o.config[name], key)
      ensures ReadExactly(text, name, key, o.config[name][key], isNumber)
    {
      RunReadsBack(lines, o, isNumber, r, name, key);
    }
    forall t, key | t in o.targetConfig && Promised(lines, o.targetConfig[t], key)
      ensures ReadExactly(text, TargetName(t), key, o.targetConfig[t][key], isNumber)
    {
      RunReadsBackTarget(lines, o, isNumber, r, t, key);
    }
    forall name, key | NotConfigured(lines, o, name, key)
      ensures GetTomlSpec(text, key, Some(name)) == Scan(lines, key, Some(name), None)
    {
      RunKeepsOthers(lines, o, isNumber, r, name, key);
    }
    forall t, key | t in o.names && IsKey(key) && (t in o.targetConfig ==> key !in o.targetConfig[t])
      ensures GetTomlSpec(text, key, Some(TargetName(t))) == TemplateTargetValue(lines, key)
    {
      RunKeepsOthersTarget(lines, o, isNumber, r, t, key);
    }
  }

  /** What the script refuses: a dotted section, a target without a target section to copy, and a
      setting for which there is no section, no such target, or no commented-out line. */
  ghost predicate Accepts(lines: seq<string>, o: Options) {
    var sections := Sectioned(lines);
    && (forall i :: 0 <= i < |lines| ==> Supported(lines[i]))
    && (o.names == [] || Some("target") in sections)
    && FitsSections(sections, o.config)
    && TargetsAccepted(LinesOf(sections)(Some("target")), o)
  }

  ghost predicate TargetsAccepted(template: seq<string>, o: Options) {
    forall t :: t in o.targetConfig ==> t in o.names && Applicable(Instance(template, t), o.targetConfig[t])
  }

  lemma TargetsFit(targets: map<string, seq<string>>, template: seq<string>, o: Options)
    requires Filled(targets, o.names, template)
    ensures FitsTargets(targets, o.targetConfig) <==> TargetsAccepted(template, o)
  {
    hide Applicable, Instance;
  }

  lemma RunIsFilled(o: Options, r: Run)
    requires TargetsOk(r.targetOrder, r.targetsWere) && r.targetsNow.Keys == r.targetsWere.Keys
    requires Filled(r.targetsWere, o.names, LinesOf(r.was)(Some("target")))
    requires (o.names == [] || Some("target") in r.was)
    ensures FilledFrom(o, r) && forall t :: t in o.names ==> t in r.targetsWere
  {
    hide Instance, Distinct;
  }

  /** The whole script.  When it succeeds, `get_toml` finds in the file what was configured, for
      exactly the readable scalars, and what was not configured as the template has it. */
  method Configure(lines: seq<string>, o: Options, isNumber: string -> bool) returns (ok: bool, text: string)
    requires AllKeysOk(o.config) && AllKeysOk(o.targetConfig) && "target" !in o.config && FloatLike(isNumber)
    ensures ok <==> Accepts(lines, o)
    ensures ok && CleanTemplate(lines, o.names) && OneLineOptions(o, isNumber) ==>
      && ReadsBack(lines, o, isNumber, text) && ReadsBackTargets(lines, o, isNumber, text)
      && KeepsOthers(lines, o, text) && KeepsOthersTargets(lines, o, text)
  {
    hide ReadsBack, ReadsBackTargets, KeepsOthers, KeepsOthersTargets, EditedSections, EditedTargets, Sectioned,
      Supported, CleanTemplate,
      OneLineOptions, HeaderNames, FloatLike, AllKeysOk, Lines, FileText, Expand, Distinct, Shaped, Filled, FilledFrom,
      FitsSections, FitsTargets, TargetsAccepted;
    text := "";
    var script := new Script();
    ok := script.Split(lines);
    if !ok { return; }
    ghost var was := script.sections;
    ok := script.FillTargets(o.names);
    if !ok { return; }
    ghost var targetsWere := script.targets;
    TargetsFit(targetsWere, LinesOf(was)(Some("target")), o);
    ok := script.ApplySections(o.config, isNumber);
    if !ok { return; }
    ok := script.ApplyTargets(o.targetConfig, isNumber);
    if !ok { return; }
    ghost var r := Run(script.order, was, script.sections, script.targetOrder, targetsWere, script.targets);
    text := script.Write();
    RunIsFilled(o, r);
    if CleanTemplate(lines, o.names) && OneLineOptions(o, isNumber) {
      RunPromises(lines, o, isNumber, r);
    }
  }
}
