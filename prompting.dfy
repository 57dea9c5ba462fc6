/**
 * The pure text handling that the three provider adapters share (each
 * adapter repeats it in its own file): the extraction prompt that embeds the
 * report between fixed markers, the selection of indicator strings, the
 * rule name derived from the family guess, the rule-generation prompt, and
 * the removal of Markdown code fences from the generated rule.
 */
module Prompting {
  import opened Basics
  import opened AnalysisTypes

  // ---------------------------------------------------------------------
  // The extraction prompt

  const BeginMarker: string := "---报告开始---\n"
  const EndMarker: string := "\n---报告结束---"

  /**
   * The extraction prompt: the adapter's instruction, a blank line, and the
   * report verbatim between the begin and end markers.
   */
  function ReportPrompt(instruction: string, report: string): (r: string)
    ensures StartsWith(r, instruction + "\n\n" + BeginMarker)
    ensures |r| == |instruction + "\n\n" + BeginMarker| + |report| + |EndMarker|
    ensures r[|instruction + "\n\n" + BeginMarker|..|r| - |EndMarker|] == report
    ensures r[|r| - |EndMarker|..] == EndMarker
  {
    var head := instruction + "\n\n" + BeginMarker;
    var r := head + report + EndMarker;
    assert r[..|head|] == head;
    assert r[|head|..|r| - |EndMarker|] == report;
    r
  }

  /** Recovers the report from an extraction prompt built with `instruction`. */
  function EmbeddedReport(prompt: string, instruction: string): Option<string>
  {
    var head := instruction + "\n\n" + BeginMarker;
    if StartsWith(prompt, head) && |prompt| >= |head| + |EndMarker|
       && prompt[|prompt| - |EndMarker|..] == EndMarker
    then Some(prompt[|head|..|prompt| - |EndMarker|])
    else None
  }

  /** The report can be read back out of the prompt unchanged. */
  lemma {:induction false} ReportPromptRoundTrip(instruction: string, report: string)
    ensures EmbeddedReport(ReportPrompt(instruction, report), instruction) == Some(report)
  {
    var p := ReportPrompt(instruction, report);
    assert StartsWith(p, instruction + "\n\n" + BeginMarker);
  }

  /** Two reports give the same prompt only if they are the same report. */
  lemma {:induction false} ReportPromptInjective(instruction: string, a: string, b: string)
    requires ReportPrompt(instruction, a) == ReportPrompt(instruction, b)
    ensures a == b
  {
    ReportPromptRoundTrip(instruction, a);
    ReportPromptRoundTrip(instruction, b);
  }

  // ---------------------------------------------------------------------
  // Indicator strings for the rule prompt

  /** `.filter(s => s && s.length > 5)` */
  function LongStrings(xs: seq<string>): (r: seq<string>)
    ensures forall k :: 0 <= k < |r| ==> |r[k]| > 5
  {
    if xs == [] then []
    else if |xs[0]| > 5 then [xs[0]] + LongStrings(xs[1..])
    else LongStrings(xs[1..])
  }

  /** The kept strings are exactly the long ones. */
  lemma {:induction false} LongStringsMembers(xs: seq<string>)
    ensures forall s :: s in LongStrings(xs) <==> s in xs && |s| > 5
  {
    if xs != [] {
      LongStringsMembers(xs[1..]);
      assert forall s :: s in xs <==> s == xs[0] || s in xs[1..];
    }
  }

  /** Filtering distributes over concatenation, so order is kept. */
  lemma {:induction false} LongStringsAppend(a: seq<string>, b: seq<string>)
    ensures LongStrings(a + b) == LongStrings(a) + LongStrings(b)
  {
    if a == [] {
      assert a + b == b;
    } else {
      var ab := a + b;
      assert ab[0] == a[0] && ab[1..] == a[1..] + b;
      LongStringsAppend(a[1..], b);
      var x, y := LongStrings(a[1..]), LongStrings(b);
      if |a[0]| > 5 {
        assert LongStrings(ab) == [a[0]] + (x + y);
        assert [a[0]] + (x + y) == [a[0]] + x + y;
      } else {
        assert LongStrings(ab) == x + y;
      }
    }
  }

  /** Every long string keeps its multiplicity: duplicates are not removed. */
  lemma {:induction false} LongStringsCount(xs: seq<string>, s: string)
    ensures multiset(LongStrings(xs))[s] == if |s| > 5 then multiset(xs)[s] else 0
  {
    if xs != [] {
      LongStringsCount(xs[1..], s);
      assert xs == [xs[0]] + xs[1..];
      assert multiset(xs) == multiset([xs[0]]) + multiset(xs[1..]);
    }
  }

  /**
   * The indicator strings offered to the model: files, then registry keys,
   * then domains, keeping the strings longer than five characters.
   */
  function KeyStrings(ioc: Indicators): (r: seq<string>)
    ensures forall k :: 0 <= k < |r| ==> |r[k]| > 5
  {
    LongStrings(ioc.files + ioc.registryKeys + ioc.domains)
  }

  /**
   * The selection keeps the order of the three lists and takes exactly the
   * long strings among files, registry keys and domains; IP addresses are
   * never taken (unless the same string is also a file, key or domain).
   */
  lemma {:induction false} KeyStringsSelection(ioc: Indicators)
    ensures KeyStrings(ioc) ==
      LongStrings(ioc.files) + LongStrings(ioc.registryKeys) + LongStrings(ioc.domains)
    ensures forall s :: s in KeyStrings(ioc) <==>
      (s in ioc.files || s in ioc.registryKeys || s in ioc.domains) && |s| > 5
  {
    var all := ioc.files + ioc.registryKeys + ioc.domains;
    LongStringsAppend(ioc.files + ioc.registryKeys, ioc.domains);
    LongStringsAppend(ioc.files, ioc.registryKeys);
    LongStringsMembers(all);
  }

  // ---------------------------------------------------------------------
  // The rule name

  /** `s.replace(/\s+/g, '_')`: every maximal run of whitespace becomes one `_`. */
  function ReplaceSpaceRuns(s: string): (r: string)
    ensures NoSpace(r)
    ensures r == [] <==> s == []
    ensures NoSpace(s) ==> r == s
    decreases |s|
  {
    if s == [] then []
    else if IsSpace(s[0]) then "_" + ReplaceSpaceRuns(TrimStart(s))
    else [s[0]] + ReplaceSpaceRuns(s[1..])
  }

  /** A run of whitespace followed by non-space text becomes a single `_`. */
  lemma {:induction false} SpaceRunBecomesOneUnderscore(run: string, rest: string)
    requires run != [] && AllSpace(run)
    requires rest == [] || !IsSpace(rest[0])
    ensures ReplaceSpaceRuns(run + rest) == "_" + ReplaceSpaceRuns(rest)
  {
    var s := run + rest;
    assert IsSpace(s[0]);
    TrimStartDropsRun(run, rest);
  }

  lemma {:induction false} TrimStartDropsRun(run: string, rest: string)
    requires AllSpace(run)
    requires rest == [] || !IsSpace(rest[0])
    ensures TrimStart(run + rest) == rest
  {
    var s := run + rest;
    assert forall k :: 0 <= k < |run| ==> s[k] == run[k];
    assert |run| < |s| ==> s[|run|] == rest[0];
    assert LeadingSpace(s) == |run|;
    assert s[|run|..] == rest;
  }

  /**
   * Text that ends in a non-space character is replaced independently of
   * what follows: non-space characters stay in place between the runs.
   */
  lemma {:induction false} ReplaceSpaceRunsSplit(a: string, b: string)
    requires a != [] && !IsSpace(a[|a| - 1])
    ensures ReplaceSpaceRuns(a + b) == ReplaceSpaceRuns(a) + ReplaceSpaceRuns(b)
    decreases |a|, 1
  {
    if IsSpace(a[0]) {
      SplitAfterRun(a, b);
    } else {
      SplitAfterChar(a, b);
    }
  }

  lemma {:induction false} SplitAfterRun(a: string, b: string)
    requires a != [] && !IsSpace(a[|a| - 1]) && IsSpace(a[0])
    ensures ReplaceSpaceRuns(a + b) == ReplaceSpaceRuns(a) + ReplaceSpaceRuns(b)
    decreases |a|, 0
  {
    var s := a + b;
    assert s[0] == a[0];
    TrimStartOfConcat(a, b);
    var t := TrimStart(a);
    ReplaceSpaceRunsSplit(t, b);
    UnfoldRun(s);
    UnfoldRun(a);
    AppendAssociative("_", ReplaceSpaceRuns(t), ReplaceSpaceRuns(b));
  }

  lemma {:induction false} SplitAfterChar(a: string, b: string)
    requires a != [] && !IsSpace(a[|a| - 1]) && !IsSpace(a[0])
    ensures ReplaceSpaceRuns(a + b) == ReplaceSpaceRuns(a) + ReplaceSpaceRuns(b)
    decreases |a|, 0
  {
    var s := a + b;
    assert s[0] == a[0];
    UnfoldChar(s);
    UnfoldChar(a);
    if |a| == 1 {
      assert s[1..] == b;
      assert a[1..] == [];
    } else {
      assert s[1..] == a[1..] + b;
      ReplaceSpaceRunsSplit(a[1..], b);
      AppendAssociative([a[0]], ReplaceSpaceRuns(a[1..]), ReplaceSpaceRuns(b));
    }
  }

  lemma UnfoldRun(s: string)
    requires s != [] && IsSpace(s[0])
    ensures ReplaceSpaceRuns(s) == "_" + ReplaceSpaceRuns(TrimStart(s))
  {
  }

  lemma UnfoldChar(s: string)
    requires s != [] && !IsSpace(s[0])
    ensures ReplaceSpaceRuns(s) == [s[0]] + ReplaceSpaceRuns(s[1..])
  {
  }

  /** Leading whitespace of text that ends in a non-space is dropped without touching what follows. */
  lemma {:induction false} TrimStartOfConcat(a: string, b: string)
    requires a != [] && !IsSpace(a[|a| - 1])
    ensures TrimStart(a + b) == TrimStart(a) + b
    ensures IsSpace(a[0]) ==> |TrimStart(a)| < |a|
    ensures TrimStart(a) != [] && TrimStart(a)[|TrimStart(a)| - 1] == a[|a| - 1]
  {
    var s, n := a + b, LeadingSpace(a);
    assert n < |a|;
    assert forall k :: 0 <= k < n ==> IsSpace(s[k]);
    assert s[n] == a[n];
    assert LeadingSpace(s) == n;
    assert s[n..] == a[n..] + b;
  }

  /** A label made only of whitespace becomes a single `_`. */
  lemma {:induction false} SpaceOnlyLabel(s: string)
    ensures s != [] && AllSpace(s) ==> ReplaceSpaceRuns(s) == "_"
  {
    if s != [] && AllSpace(s) {
      SpaceRunBecomesOneUnderscore(s, []);
      assert s + [] == s;
    }
  }

  lemma {:induction false} PrefixedNoSpace(prefix: string, tail: string)
    requires NoSpace(prefix) && NoSpace(tail)
    ensures StartsWith(prefix + tail, prefix) && NoSpace(prefix + tail)
  {
    var r := prefix + tail;
    assert r[..|prefix|] == prefix;
    assert forall k :: |prefix| <= k < |r| ==> r[k] == tail[k - |prefix|];
  }

  const RulePrefix: string := "Suspicious_"
  const DefaultRuleLabel: string := "Behavior"

  /**
   * The rule name: `Suspicious_` followed by the family guess with each run
   * of whitespace made one `_`, or by `Behavior` when that is empty.
   */
  function RuleName(guess: string): (r: string)
    ensures StartsWith(r, RulePrefix) && NoSpace(r)
    ensures guess == [] ==> r == RulePrefix + DefaultRuleLabel
    ensures guess != [] ==> r == RulePrefix + ReplaceSpaceRuns(guess)
    ensures guess != [] && AllSpace(guess) ==> r == RulePrefix + "_"
    ensures guess != [] && NoSpace(guess) ==> r == RulePrefix + guess
  {
    var suffix := ReplaceSpaceRuns(guess);
    SpaceOnlyLabel(guess);
    var tail := if suffix == [] then DefaultRuleLabel else suffix;
    PrefixedNoSpace(RulePrefix, tail);
    RulePrefix + tail
  }

  // ---------------------------------------------------------------------
  // The rule-generation prompt

  function BulletLines(keys: seq<string>): (r: seq<string>)
    ensures |r| == |keys|
    ensures forall k :: 0 <= k < |keys| ==> r[k] == "- " + keys[k]
  {
    if keys == [] then [] else ["- " + keys[0]] + BulletLines(keys[1..])
  }

  /** `keyStrings.map(s => `- ${s}`).join('\n')` */
  function Bullets(keys: seq<string>): string
  {
    Join(BulletLines(keys), "\n")
  }

  lemma {:induction false} JoinHasEach(xs: seq<string>, sep: string, k: nat)
    requires k < |xs|
    ensures IsInfix(xs[k], Join(xs, sep))
  {
    if |xs| == 1 {
      InfixOfConcat([], xs[0], []);
      assert [] + xs[0] + [] == xs[0];
    } else if k == 0 {
      InfixOfConcat([], xs[0], sep + Join(xs[1..], sep));
      assert [] + xs[0] + (sep + Join(xs[1..], sep)) == Join(xs, sep);
    } else {
      JoinHasEach(xs[1..], sep, k - 1);
      InfixExtends(xs[k], Join(xs[1..], sep), xs[0] + sep, []);
      assert xs[0] + sep + Join(xs[1..], sep) + [] == Join(xs, sep);
    }
  }

  /** Each indicator appears in the bullet list as `- <indicator>`. */
  lemma {:induction false} BulletsHaveEach(keys: seq<string>, k: nat)
    requires k < |keys|
    ensures IsInfix("- " + keys[k], Bullets(keys))
  {
    JoinHasEach(BulletLines(keys), "\n", k);
  }

  const RuleAuthorLead: string := "作者标记为 \""

  /** The end of the rule prompt: the indicator heading, the bullets and the closing request. */
  function IndicatorBlock(keys: seq<string>, closing: string): string
  {
    "    关键指标:\n    " + Bullets(keys) + ("\n\n    " + closing + "\n    ")
  }

  /**
   * The rule-generation prompt of lines 116-127 of the custom adapter (and
   * its twins): it names the rule, the author tag, the summary and one
   * bullet per indicator string; `closing` is the adapter's last request.
   */
  function RulePrompt(analysis: AnalysisResult, author: string, closing: string): (r: string)
    ensures IsInfix("规则应命名为 \"" + RuleName(analysis.malwareFamilyGuess) + "\".", r)
    ensures IsInfix(RuleAuthorLead + author + "\"", r)
    ensures IsInfix("分析摘要: " + analysis.summary + "\n", r)
    ensures forall s :: s in KeyStrings(analysis.indicatorsOfCompromise) ==> IsInfix("- " + s, r)
    ensures EndsWith(r, IndicatorBlock(KeyStrings(analysis.indicatorsOfCompromise), closing))
  {
    var keys := KeyStrings(analysis.indicatorsOfCompromise);
    var parts := [
      "\n    基于以下恶意软件分析，生成一条简单但有效的 YARA 规则。\n    ",
      "规则应命名为 \"" + RuleName(analysis.malwareFamilyGuess) + "\".",
      "\n    在 meta 部分包含来自分析摘要的描述，并将",
      RuleAuthorLead + author + "\"",
      "。\n    strings 部分应专注于提供的最独特的指标。\n\n    ",
      "分析摘要: " + analysis.summary + "\n",
      IndicatorBlock(keys, closing)
    ];
    ConcatHasPart(parts, 1);
    ConcatHasPart(parts, 3);
    ConcatHasPart(parts, 5);
    forall s | s in keys
      ensures IsInfix("- " + s, Concat(parts))
    {
      var k :| 0 <= k < |keys| && keys[k] == s;
      BulletsHaveEach(keys, k);
      InfixExtends("- " + s, Bullets(keys), "    关键指标:\n    ", "\n\n    " + closing + "\n    ");
      ConcatHasInfix(parts, 6, "- " + s);
    }
    ConcatEndsWithLast(parts);
    Concat(parts)
  }

  // ---------------------------------------------------------------------
  // Code-fence removal

  const LanguageTag: string := "yara\n"

  /** Three backticks start at index `k` of `s`. */
  predicate FenceAt(s: string, k: int)
  {
    0 <= k && k + 3 <= |s| && s[k] == '`' && s[k + 1] == '`' && s[k + 2] == '`'
  }

  /** `s` starts with three backticks directly followed by the `yara` line tag. */
  predicate TaggedFenceAtStart(s: string)
  {
    FenceAt(s, 0) && |s| >= 8 && s[3..8] == LanguageTag
  }

  /**
   * `text.replace(/`{3}(yara\n)?|`{3}/g, '')`, the custom and DashScope
   * form: scanning left to right, three backticks are removed, and with them
   * a directly following `yara` line tag when there is one.
   */
  function RemoveFencesOptionalTag(s: string): (r: string)
    ensures |r| <= |s|
    decreases |s|
  {
    if FenceAt(s, 0) then
      if |s| >= 8 && s[3..8] == LanguageTag then RemoveFencesOptionalTag(s[8..])
      else RemoveFencesOptionalTag(s[3..])
    else if s == [] then []
    else [s[0]] + RemoveFencesOptionalTag(s[1..])
  }

  /**
   * `text.replace(new RegExp('`{3}yara\\n|`{3}', 'g'), '')`, the Gemini form:
   * at each position the tagged fence is tried first, then the bare fence.
   */
  function RemoveFencesAlternation(s: string): string
    decreases |s|
  {
    if TaggedFenceAtStart(s) then RemoveFencesAlternation(s[8..])
    else if FenceAt(s, 0) then RemoveFencesAlternation(s[3..])
    else if s == [] then []
    else [s[0]] + RemoveFencesAlternation(s[1..])
  }

  /** The two regular expressions remove exactly the same text. */
  lemma {:induction false} FenceRegexesAgree(s: string)
    ensures RemoveFencesAlternation(s) == RemoveFencesOptionalTag(s)
    decreases |s|
  {
    if TaggedFenceAtStart(s) {
      FenceRegexesAgree(s[8..]);
    } else if FenceAt(s, 0) {
      FenceRegexesAgree(s[3..]);
    } else if s != [] {
      FenceRegexesAgree(s[1..]);
    }
  }

  /** No three consecutive backticks anywhere in `s`. */
  ghost predicate NoFence(s: string)
  {
    forall k :: !FenceAt(s, k)
  }

  /** Two backticks at the start of `s`. */
  predicate DoubleTickAtStart(s: string)
  {
    |s| >= 2 && s[0] == '`' && s[1] == '`'
  }

  lemma {:induction false} NoLeadingDoubleTick(s: string)
    requires !DoubleTickAtStart(s)
    ensures !DoubleTickAtStart(RemoveFencesOptionalTag(s))
  {
    if s != [] {
      var r := RemoveFencesOptionalTag(s);
      assert r == [s[0]] + RemoveFencesOptionalTag(s[1..]);
      if s[0] == '`' && |s| > 1 {
        var t := s[1..];
        assert !FenceAt(t, 0);
        assert RemoveFencesOptionalTag(t) == [t[0]] + RemoveFencesOptionalTag(t[1..]);
      }
    }
  }

  /** After the removal no fence is left, even where removed text joined two backtick runs. */
  lemma {:induction false} RemovalLeavesNoFence(s: string)
    ensures NoFence(RemoveFencesOptionalTag(s))
    decreases |s|
  {
    if FenceAt(s, 0) {
      if |s| >= 8 && s[3..8] == LanguageTag {
        RemovalLeavesNoFence(s[8..]);
      } else {
        RemovalLeavesNoFence(s[3..]);
      }
    } else if s != [] {
      var rest := RemoveFencesOptionalTag(s[1..]);
      var r := [s[0]] + rest;
      assert RemoveFencesOptionalTag(s) == r;
      RemovalLeavesNoFence(s[1..]);
      if s[0] == '`' {
        NoLeadingDoubleTick(s[1..]);
      }
      forall k
        ensures !FenceAt(r, k)
      {
        if k >= 1 {
          assert !FenceAt(rest, k - 1);
        }
      }
    }
  }

  lemma {:induction false} NoFenceInSlice(s: string, lo: nat, hi: nat)
    requires NoFence(s) && lo <= hi <= |s|
    ensures NoFence(s[lo..hi])
  {
    forall k
      ensures !FenceAt(s[lo..hi], k)
    {
      assert !FenceAt(s, lo + k);
    }
  }

  /** Text before any backtick passes through the removal unchanged. */
  lemma {:induction false} RemovalKeepsPlainPrefix(plain: string, rest: string)
    requires forall k :: 0 <= k < |plain| ==> plain[k] != '`'
    ensures RemoveFencesOptionalTag(plain + rest) == plain + RemoveFencesOptionalTag(rest)
    decreases |plain|
  {
    if plain == [] {
      assert plain + rest == rest;
    } else {
      var s := plain + rest;
      assert s[0] == plain[0] && s[1..] == plain[1..] + rest;
      assert !FenceAt(s, 0);
      assert RemoveFencesOptionalTag(s) == [s[0]] + RemoveFencesOptionalTag(s[1..]);
      RemovalKeepsPlainPrefix(plain[1..], rest);
      assert plain == [plain[0]] + plain[1..];
    }
  }

  lemma {:induction false} RemovalKeepsPlainText(s: string)
    ensures (forall k :: 0 <= k < |s| ==> s[k] != '`') ==> RemoveFencesOptionalTag(s) == s
  {
    if forall k :: 0 <= k < |s| ==> s[k] != '`' {
      RemovalKeepsPlainPrefix(s, []);
      assert s + [] == s;
    }
  }

  /**
   * `yaraRule.replace(regex, '').trim()`: the generated rule text without
   * code fences and surrounding whitespace. Text without backticks is only
   * trimmed.
   */
  function StripFences(text: string): (r: string)
    ensures NoFence(r)
    ensures r == [] || (!IsSpace(r[0]) && !IsSpace(r[|r| - 1]))
    ensures (forall k :: 0 <= k < |text| ==> text[k] != '`') ==> r == Trim(text)
  {
    var removed := RemoveFencesOptionalTag(text);
    RemovalLeavesNoFence(text);
    TrimKeepsNoFence(removed);
    RemovalKeepsPlainText(text);
    Trim(removed)
  }

  lemma {:induction false} TrimKeepsNoFence(s: string)
    requires NoFence(s)
    ensures NoFence(Trim(s))
  {
    NoFenceInSlice(s, LeadingSpace(s), LeadingSpace(s) + |Trim(s)|);
  }

  /** The Gemini adapter's clean-up is the same function. */
  lemma {:induction false} StripFencesGeminiForm(text: string)
    ensures Trim(RemoveFencesAlternation(text)) == StripFences(text)
  {
    FenceRegexesAgree(text);
  }

  /**
   * A rule wrapped in a tagged code fence comes out as the trimmed rule,
   * provided the rule itself has no backtick.
   */
  lemma {:induction false} StripFencesOfFencedRule(rule: string)
    requires forall k :: 0 <= k < |rule| ==> rule[k] != '`'
    ensures StripFences("```yara\n" + rule + "```") == Trim(rule)
  {
    var open, close := "```yara\n", "```";
    var s := open + rule + close;
    assert s[..8] == open;
    assert FenceAt(s, 0) && s[3..8] == LanguageTag;
    assert s[8..] == rule + close;
    RemovalKeepsPlainPrefix(rule, close);
    assert FenceAt(close, 0) && close[3..] == [];
    assert RemoveFencesOptionalTag(close) == [];
    assert rule + [] == rule;
  }

  /** The fenced rule of the usual model reply comes out bare. */
  lemma {:induction false} StripFencesExample(rule: string)
    requires rule == "rule X {}"
    ensures StripFences("```yara\n" + rule + "\n```") == rule
  {
    var line := rule + "\n";
    assert "```yara\n" + rule + "\n```" == "```yara\n" + line + "```";
    assert forall k :: 0 <= k < |line| ==> line[k] != '`';
    StripFencesOfFencedRule(line);
    TrimExact(line, 0, |rule|);
    assert line[0..|rule|] == rule;
  }
}
