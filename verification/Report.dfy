/** Merging model text into report sections without losing protected lines, and stamping the fingerprint. */
module Report {
  import opened Lines
  import opened Sequences

  datatype Section = Section(key: string, title: string, content: string, data: map<string, string>)

  /** Which template lines a section protects: by prefix or by a token inside. */
  datatype Rule = Rule(prefixes: seq<string>, tokens: seq<string>)

  const LIMITATION := "调查限制：证据采集未完成或结果为空；以下内容引用来源摘要与缺口记录，非推断性攻击还原。"
  const INCONSISTENCY :=
    "分类与评分不一致：分诊阶段未识别明确威胁模式或事件类型为 OTHER，但风险评分达到确认威胁阈值；请结合证据链人工复核，勿仅依据分诊摘要结案。"
  const SOURCE_SUMMARY := "来源摘要（非证据）"
  const MARK := "content_sha256="

  /** No rule protects the empty line. */
  ghost predicate Proper(rule: Rule) {
    (forall p <- rule.prefixes :: p != "") && (forall t <- rule.tokens :: t != "")
  }

  function OverviewRule(): (r: Rule)
    ensures Proper(r)
  {
    Rule(["decision_brief:", "evidence_summary:", "evidence_limited_reason:", "actions_status_summary:",
          "decision_summary:", "fp_", "human_escalation:", "triage_degraded:", "triage_degradation_reason:",
          "triage_risk_inconsistency:", "entity_rejection_", "- title=", "- alert_type=", "- description=",
          "- severity=", "- normalized."],
         [LIMITATION, INCONSISTENCY, SOURCE_SUMMARY, "evidence_gaps:", "gap:", "evidence_limited:"])
  }

  function EvidenceRule(): (r: Rule)
    ensures Proper(r)
  {
    Rule(["evidence_summary:", "evidence_limited_reason:", "调查限制", SOURCE_SUMMARY, "evidence_gaps:", "gap:",
          "attack_storyline_limitation", "- title=", "- alert_type=", "- description=", "- severity=",
          "- normalized."],
         [LIMITATION, SOURCE_SUMMARY, "gap:", "attack_storyline_limitation"])
  }

  function RuleFor(key: string): (r: Rule)
    ensures Proper(r)
  {
    if key == "overview" then OverviewRule()
    else if key == "evidence_chain" || key == "attack_storyline" then EvidenceRule()
    else if key == "executed_actions" then Rule(["actions_status_summary:"], [])
    else if key == "recommendations" then Rule([], ["人工升级", "escalated=true"])
    else Rule([], [])
  }

  predicate Matches(rule: Rule, line: string) {
    (exists p <- rule.prefixes :: p <= line) || (exists t <- rule.tokens :: Contains(line, t))
  }

  /** Whether the section `key` protects a template line. */
  function Protects(key: string): string -> bool {
    (line: string) => Matches(RuleFor(key), line)
  }

  lemma OnePrefix(prefix: string, line: string)
    ensures Matches(Rule([prefix], []), line) <==> prefix <= line
  {
    assert prefix in [prefix];
  }

  lemma TwoTokens(x: string, y: string, line: string)
    ensures Matches(Rule([], [x, y]), line) <==> Contains(line, x) || Contains(line, y)
  {
    assert x in [x, y] && y in [x, y];
  }

  /** The lines that the action and recommendation sections protect; sections without a rule protect none. */
  lemma ProtectedByKey(line: string, key: string)
    ensures Protects("executed_actions")(line) <==> "actions_status_summary:" <= line
    ensures Protects("recommendations")(line) <==> Contains(line, "人工升级") || Contains(line, "escalated=true")
    ensures key !in ["overview", "evidence_chain", "attack_storyline", "executed_actions", "recommendations"] ==>
              !Protects(key)(line)
  {
    OnePrefix("actions_status_summary:", line);
    TwoTokens("人工升级", "escalated=true", line);
  }

  ghost predicate StartsWithAny(line: string, prefixes: seq<string>) {
    exists p <- prefixes :: p <= line
  }

  ghost predicate ContainsAny(line: string, tokens: seq<string>) {
    exists t <- tokens :: Contains(line, t)
  }

  /** The lines that the overview protects. */
  lemma OverviewProtects(line: string)
    ensures Protects("overview")(line) <==>
            || StartsWithAny(line,
                 ["decision_brief:", "evidence_summary:", "evidence_limited_reason:", "actions_status_summary:",
                  "decision_summary:", "fp_", "human_escalation:", "triage_degraded:", "triage_degradation_reason:",
                  "triage_risk_inconsistency:", "entity_rejection_", "- title=", "- alert_type=", "- description=",
                  "- severity=", "- normalized."])
            || ContainsAny(line, [LIMITATION, INCONSISTENCY, SOURCE_SUMMARY, "evidence_gaps:", "gap:", "evidence_limited:"])
  {
  }

  /** The lines that the evidence chain and the storyline protect. */
  lemma EvidenceProtects(line: string, key: string)
    requires key == "evidence_chain" || key == "attack_storyline"
    ensures Protects(key)(line) <==>
            || StartsWithAny(line,
                 ["evidence_summary:", "evidence_limited_reason:", "调查限制", SOURCE_SUMMARY, "evidence_gaps:", "gap:",
                  "attack_storyline_limitation", "- title=", "- alert_type=", "- description=", "- severity=",
                  "- normalized."])
            || ContainsAny(line, [LIMITATION, SOURCE_SUMMARY, "gap:", "attack_storyline_limitation"])
  {
  }

  // ---- the usable part of a model override ----

  function Beyond(s: string, n: nat): string {
    if n <= |s| then s[n..] else ""
  }

  /** What is kept of one line once copied schema placeholders are dropped. */
  function KeepLine(lower: string -> string): string -> seq<string> {
    (raw: string) =>
      var stripped := Strip(raw);
      var low := lower(stripped);
      if stripped == "" || low in ["markdown string", "string", "..."] then []
      else if "markdown string" <= low then
        var rest := Strip(Beyond(stripped, |"markdown string"|));
        if rest != "" && lower(rest) !in ["string", "..."] then [rest] else []
      else [raw]
  }

  function DropEcho(lower: string -> string, text: string): string {
    Strip(Join(Flat(Split(text), KeepLine(lower)), "\n"))
  }

  function Usable(lower: string -> string, overrides: map<string, string>, key: string): string {
    if key in overrides then DropEcho(lower, overrides[key]) else ""
  }

  /** A line is dropped whole when it is blank, a placeholder, or a placeholder followed by nothing or another one. */
  predicate Dropped(lower: string -> string, raw: string) {
    var stripped := Strip(raw);
    var low := lower(stripped);
    || stripped == ""
    || low in ["markdown string", "string", "..."]
    || ("markdown string" <= low && DroppedRest(lower, Strip(Beyond(stripped, 15))))
  }

  predicate DroppedRest(lower: string -> string, rest: string) {
    rest == "" || lower(rest) in ["string", "..."]
  }

  lemma KeepLineMeaning(lower: string -> string, raw: string)
    ensures KeepLine(lower)(raw) == [] <==> Dropped(lower, raw)
    ensures !Dropped(lower, raw) ==> KeepLine(lower)(raw) == [Remainder(lower, raw)]
    ensures forall l <- KeepLine(lower)(raw) :: !Blank(l)
    ensures Plain(raw) ==> forall l <- KeepLine(lower)(raw) :: Plain(l)
  {
    StripBlank(raw);
    StrippedIsNotBlank(Beyond(Strip(raw), |"markdown string"|));
    if Plain(raw) {
      StripPlain(raw);
      StripPlain(Beyond(Strip(raw), |"markdown string"|));
    }
  }

  /** What stands after a leading placeholder, or else the line as it is. */
  function Remainder(lower: string -> string, raw: string): string {
    if "markdown string" <= lower(Strip(raw)) then Strip(Beyond(Strip(raw), 15)) else raw
  }

  /** An override is unusable, so that the template stands, exactly when every line of it is dropped. */
  lemma UnusableIffAllDropped(lower: string -> string, text: string)
    ensures DropEcho(lower, text) == "" <==> forall raw <- Split(text) :: Dropped(lower, raw)
  {
    var keep, kept := KeepLine(lower), Flat(Split(text), KeepLine(lower));
    StripBlank(Join(kept, "\n"));
    JoinBlank(kept);
    FlatEmpty(Split(text), keep);
    forall raw <- Split(text)
      ensures keep(raw) == [] <==> Dropped(lower, raw)
    {
      KeepLineMeaning(lower, raw);
    }
    forall l <- kept
      ensures !Blank(l)
    {
      FlatMembers(Split(text), keep, l);
      var raw :| raw in Split(text) && l in keep(raw);
      KeepLineMeaning(lower, raw);
    }
    assert kept != [] ==> kept[0] in kept;
  }

  /** The remainders of the lines that are not dropped, in order. */
  function Remaining(lower: string -> string, lines: seq<string>): seq<string> {
    if lines == [] then []
    else (if Dropped(lower, lines[0]) then [] else [Remainder(lower, lines[0])]) + Remaining(lower, lines[1..])
  }

  lemma {:induction false} RemainingIsFlat(lower: string -> string, lines: seq<string>)
    requires forall l <- lines :: Plain(l)
    ensures Flat(lines, KeepLine(lower)) == Remaining(lower, lines)
    ensures forall l <- Remaining(lower, lines) :: !Blank(l) && Plain(l)
  {
    if lines != [] {
      KeepLineMeaning(lower, lines[0]);
      RemainingIsFlat(lower, lines[1..]);
    }
  }

  /** The usable text holds, line by line and in order, what remains of the override; only the blanks before its first
      line and after its last are taken off. */
  lemma UsableLines(lower: string -> string, text: string)
    ensures var lines := Remaining(lower, Split(text));
            && (lines == [] ==> DropEcho(lower, text) == "")
            && (lines != [] ==> Split(DropEcho(lower, text)) == TrimLast(TrimFirst(lines)))
  {
    var lines := Remaining(lower, Split(text));
    SplitPlain(text);
    RemainingIsFlat(lower, Split(text));
    if lines != [] {
      var first := TrimFirst(lines);
      StripLeftJoin(lines, "\n");
      StripLeftBlank(lines[0]);
      StripPlain(lines[0]);
      assert forall l <- first :: !Blank(l) && Plain(l);
      StripRightJoin(first, "\n");
      TrimLastSplits(first);
    }
  }

  lemma TrimLastSplits(first: seq<string>)
    requires first != [] && forall l <- first :: !Blank(l) && Plain(l)
    ensures Split(Join(TrimLast(first), "\n")) == TrimLast(first)
  {
    var last := first[|first| - 1];
    assert last in first;
    StripRightBlank(last);
    StripPlain(last);
    SplitJoin(TrimLast(first));
  }

  // ---- merging ----

  function Absent(text: string): string -> bool {
    (line: string) => line !in Split(text)
  }

  /** The protected template lines that a text lacks. */
  function Missing(key: string, template: string, text: string): seq<string> {
    Select(Select(Split(template), Protects(key)), Absent(text))
  }

  function Content(key: string, template: string, usable: string): string {
    if usable == "" then template else Join([usable] + Missing(key, template, usable), "\n")
  }

  function MergeOne(lower: string -> string, overrides: map<string, string>): Section -> Section {
    (s: Section) => s.(content := Content(s.key, s.content, Usable(lower, overrides, s.key)))
  }

  function Merge(lower: string -> string, base: seq<Section>, overrides: map<string, string>): seq<Section> {
    Image(base, MergeOne(lower, overrides))
  }

  // ---- what merging keeps ----

  lemma MatchIsNotEmpty(rule: Rule, line: string)
    requires Proper(rule) && Matches(rule, line)
    ensures line != ""
  {
  }

  lemma MissingMembers(key: string, template: string, text: string, l: string)
    ensures l in Missing(key, template, text) <==> l in Split(template) && Protects(key)(l) && l !in Split(text)
  {
    SelectMembers(Split(template), Protects(key));
    SelectMembers(Select(Split(template), Protects(key)), Absent(text));
  }

  lemma MissingAreLines(key: string, template: string, text: string)
    ensures forall l <- Missing(key, template, text) :: l != "" && Plain(l)
  {
    SplitPlain(template);
    forall l <- Missing(key, template, text)
      ensures l != "" && Plain(l)
    {
      MissingMembers(key, template, text, l);
      MatchIsNotEmpty(RuleFor(key), l);
    }
  }

  /** A merged text is the lines of the override, then the protected template lines it lacked. */
  lemma ContentLines(key: string, template: string, usable: string)
    requires usable != "" && !Opens(usable)
    ensures Split(Content(key, template, usable)) == Split(usable) + Missing(key, template, usable)
  {
    MissingAreLines(key, template, usable);
    SplitJoinUnder(usable, Missing(key, template, usable));
  }

  lemma ContentMembers(key: string, template: string, usable: string, l: string)
    requires usable != "" && !Opens(usable)
    ensures l in Split(Content(key, template, usable))
       <==> l in Split(usable) || (l in Split(template) && Protects(key)(l))
  {
    ContentLines(key, template, usable);
    MissingMembers(key, template, usable, l);
  }

  lemma UsableIsStripped(lower: string -> string, overrides: map<string, string>, key: string)
    ensures Usable(lower, overrides, key) != "" ==> !Opens(Usable(lower, overrides, key))
  {
    if Usable(lower, overrides, key) != "" {
      StrippedDoesNotOpen(Join(Flat(Split(overrides[key]), KeepLine(lower)), "\n"));
    }
  }

  /** Whatever the model wrote, keys, titles, data and order stay, and every protected template line is still a line. */
  lemma ProtectedLinesSurvive(lower: string -> string, base: seq<Section>, overrides: map<string, string>,
                              i: nat, l: string)
    requires i < |base|
    ensures |Merge(lower, base, overrides)| == |base|
    ensures Merge(lower, base, overrides)[i] == base[i].(content := Merge(lower, base, overrides)[i].content)
    ensures l in Split(base[i].content) && Protects(base[i].key)(l)
        ==> l in Split(Merge(lower, base, overrides)[i].content)
  {
    var s := base[i];
    var usable := Usable(lower, overrides, s.key);
    UsableIsStripped(lower, overrides, s.key);
    if usable != "" {
      ContentMembers(s.key, s.content, usable, l);
    }
  }

  /** Nothing else gets in: a merged line is the model's, or a protected line of the template. */
  lemma MergedLinesHaveAnOrigin(lower: string -> string, base: seq<Section>, overrides: map<string, string>,
                                i: nat, l: string)
    requires i < |base|
    requires Usable(lower, overrides, base[i].key) != ""
    ensures l in Split(Merge(lower, base, overrides)[i].content)
       <==> || l in Split(Usable(lower, overrides, base[i].key))
            || (l in Split(base[i].content) && Protects(base[i].key)(l))
  {
    var s := base[i];
    UsableIsStripped(lower, overrides, s.key);
    ContentMembers(s.key, s.content, Usable(lower, overrides, s.key), l);
  }

  // ---- merging twice ----

  /** The lines missing from the override are the same whether read from the template or from the merged text. */
  lemma MissingAgain(key: string, template: string, usable: string)
    requires usable != "" && !Opens(usable)
    ensures Missing(key, Content(key, template, usable), usable) == Missing(key, template, usable)
  {
    var mine, missing := Split(usable), Missing(key, template, usable);
    ContentLines(key, template, usable);
    forall l <- missing
      ensures Protects(key)(l) && Absent(usable)(l)
    {
      MissingMembers(key, template, usable, l);
    }
    SelectAppend(mine, missing, Protects(key));
    SelectAll(missing, Protects(key));
    SelectAppend(Select(mine, Protects(key)), missing, Absent(usable));
    SelectMembers(mine, Protects(key));
    SelectNone(Select(mine, Protects(key)), Absent(usable));
    SelectAll(missing, Absent(usable));
  }

  /** Merging the same overrides again changes nothing. */
  lemma MergeTwiceIsOnce(lower: string -> string, base: seq<Section>, overrides: map<string, string>)
    ensures Merge(lower, Merge(lower, base, overrides), overrides) == Merge(lower, base, overrides)
  {
    var merge := MergeOne(lower, overrides);
    forall i | 0 <= i < |base|
      ensures merge(merge(base[i])) == merge(base[i])
    {
      var s := base[i];
      UsableIsStripped(lower, overrides, s.key);
      if Usable(lower, overrides, s.key) != "" {
        MissingAgain(s.key, s.content, Usable(lower, overrides, s.key));
      }
    }
  }

  // ---- the fingerprint ----

  const MARKED := (line: string) => MARK <= line
  const UNMARKED := (line: string) => !(MARK <= line)

  function StampText(content: string, sha: string): string {
    if !Contains(content, MARK) then content + "\n" + (MARK + sha)
    else Join(Select(Split(content), UNMARKED) + [MARK + sha], "\n")
  }

  function StampOne(sha: string): Section -> Section {
    (s: Section) =>
      if s.key == "appendix_index"
      then s.(content := StampText(s.content, sha), data := s.data["content_sha256" := sha])
      else s
  }

  function Stamp(sections: seq<Section>, sha: string): seq<Section> {
    Image(sections, StampOne(sha))
  }

  /** A text without the mark has no marked line. */
  lemma NoMarkNoMarkedLine(content: string)
    requires !Contains(content, MARK)
    ensures Select(Split(content), UNMARKED) == Split(content)
  {
    forall l <- Split(content)
      ensures UNMARKED(l)
    {
      if MARK <= l {
        LineIsPart(content, l, MARK);
      }
    }
    SelectAll(Split(content), UNMARKED);
  }

  lemma StampIsPlain(sha: string)
    requires Plain(sha)
    ensures Plain(MARK + sha) && MARK + sha != ""
  {
  }

  /** A stamped text is the old unmarked lines, a blank one if the text did not end its last line, and the stamp. */
  lemma StampLines(content: string, sha: string)
    requires Plain(sha)
    ensures Split(StampText(content, sha))
         == Select(Split(content), UNMARKED) + (if Contains(content, MARK) then [] else Opened(content)) + [MARK + sha]
  {
    var stamp, kept := MARK + sha, Select(Split(content), UNMARKED);
    StampIsPlain(sha);
    if !Contains(content, MARK) {
      SplitAtNewline(content, stamp);
      SplitOne(stamp);
      NoMarkNoMarkedLine(content);
      Assoc(kept, Opened(content), [stamp]);
    } else {
      SplitPlain(content);
      SelectMembers(Split(content), UNMARKED);
      assert forall l <- kept :: Plain(l);
      SplitJoin(kept + [stamp]);
    }
  }

  /** Stamping leaves exactly one fingerprint line, the last one, and every other line in place. */
  lemma ExactlyOneFingerprint(content: string, sha: string)
    requires Plain(sha)
    ensures var lines := Split(StampText(content, sha));
            && Select(lines, MARKED) == [MARK + sha]
            && lines != [] && lines[|lines| - 1] == MARK + sha
            && Select(lines, UNMARKED)
               == Select(Split(content), UNMARKED) + (if Contains(content, MARK) then [] else Opened(content))
  {
    var kept := Select(Split(content), UNMARKED) + (if Contains(content, MARK) then [] else Opened(content));
    StampLines(content, sha);
    SelectMembers(Split(content), UNMARKED);
    SelectNone(kept, MARKED);
    SelectAll(kept, UNMARKED);
    SelectAppend(kept, [MARK + sha], MARKED);
    SelectAppend(kept, [MARK + sha], UNMARKED);
  }

  /** A second stamp replaces the first and touches no other line. */
  lemma StampReplaces(content: string, first: string, second: string)
    requires Plain(first) && Plain(second)
    ensures var once, twice := StampText(content, first), StampText(StampText(content, first), second);
            Split(twice) == Split(once)[..|Split(once)| - 1] + [MARK + second]
    ensures Split(StampText(StampText(content, first), first)) == Split(StampText(content, first))
  {
    var once := StampText(content, first);
    ExactlyOneFingerprint(content, first);
    StampLines(content, first);
    LineIsPart(once, MARK + first, MARK);
    StampLines(once, second);
    StampLines(once, first);
  }

  /** Only the appendix changes. */
  lemma StampTouchesOnlyTheAppendix(sections: seq<Section>, sha: string, i: nat)
    requires Plain(sha) && i < |sections|
    ensures |Stamp(sections, sha)| == |sections|
    ensures var s, t := sections[i], Stamp(sections, sha)[i];
            && t.key == s.key && t.title == s.title
            && (s.key != "appendix_index" ==> t == s)
            && (s.key == "appendix_index" ==>
                  && Select(Split(t.content), MARKED) == ["content_sha256=" + sha]
                  && t.data == s.data["content_sha256" := sha])
  {
    ExactlyOneFingerprint(sections[i].content, sha);
  }

  // ---- the loops ----

  method RunDropEcho(lower: string -> string, text: string) returns (usable: string)
    ensures usable == DropEcho(lower, text)
  {
    var raws, lines := Split(text), [];
    for i := 0 to |raws|
      invariant lines == Flat(raws[..i], KeepLine(lower))
    {
      FlatSnoc(raws, i, KeepLine(lower));
      var stripped := Strip(raws[i]);
      var low := lower(stripped);
      if stripped == "" || low in ["markdown string", "string", "..."] {
        continue;
      }
      if "markdown string" <= low {
        var rest := Strip(Beyond(stripped, |"markdown string"|));
        if rest != "" && lower(rest) !in ["string", "..."] {
          lines := lines + [rest];
        }
        continue;
      }
      lines := lines + [raws[i]];
    }
    assert raws[..|raws|] == raws;
    return Strip(Join(lines, "\n"));
  }

  method RunMissing(key: string, template: string, text: string) returns (missing: seq<string>)
    ensures missing == Missing(key, template, text)
  {
    var required := Keep(Split(template), Protects(key));
    missing := Keep(required, Absent(text));
  }

  method RunMergeOne(lower: string -> string, s: Section, overrides: map<string, string>) returns (merged: Section)
    ensures merged == MergeOne(lower, overrides)(s)
  {
    var usable := "";
    if s.key in overrides && overrides[s.key] != "" {
      usable := RunDropEcho(lower, overrides[s.key]);
    }
    if usable == "" {
      return s;
    }
    var missing := RunMissing(s.key, s.content, usable);
    merged := s.(content := if missing != [] then Join([usable] + missing, "\n") else usable);
  }

  method RunMerge(lower: string -> string, base: seq<Section>, overrides: map<string, string>) returns (merged: seq<Section>)
    ensures merged == Merge(lower, base, overrides)
  {
    merged := [];
    for i := 0 to |base|
      invariant merged == Image(base[..i], MergeOne(lower, overrides))
    {
      var s := RunMergeOne(lower, base[i], overrides);
      merged := merged + [s];
      ImageSnoc(base, i, MergeOne(lower, overrides));
    }
    assert base[..|base|] == base;
  }

  method RunStamp(sections: seq<Section>, sha: string) returns (stamped: seq<Section>)
    ensures stamped == Stamp(sections, sha)
  {
    stamped := [];
    for i := 0 to |sections|
      invariant stamped == Image(sections[..i], StampOne(sha))
    {
      var s := sections[i];
      if s.key == "appendix_index" {
        s := s.(content := StampText(s.content, sha), data := s.data["content_sha256" := sha]);
      }
      stamped := stamped + [s];
      assert sections[..i + 1] == sections[..i] + [sections[i]];
    }
    assert sections[..|sections|] == sections;
  }
}
