/** Priority scoring: an asset scores a base of 10 plus the modifier of every asset rule
    its condition meets, capped at 100; a finding scores the sum of the modifiers of the
    finding rules it meets, capped at 100. All modifiers are whole numbers. */
module Scoring {
  import opened Json
  import opened Models
  import Strings

  /** What a scoring rule is applied to: the source's rules take `Asset | Finding` and
      test the kind with `isinstance`. */
  datatype Scorable = AssetItem(asset: Asset) | FindingItem(finding: Finding)

  datatype ScoringRule = ScoringRule(name: string, condition: Scorable -> bool, modifier: int, reason: string)

  const BaseAssetScore: int := 10
  const MaxScore: int := 100

  /** `any(k in value.lower() for k in keys)` for an asset. */
  predicate ValueMentions(x: Scorable, keys: seq<string>)
  {
    x.AssetItem? && Strings.ContainsAny(Strings.Lower(x.asset.value), keys)
  }

  /** `str(metadata.get("port", ""))` */
  function PortText(a: Asset): string
  {
    if "port" in a.metadata then Str(a.metadata["port"]) else ""
  }

  predicate IsDatabasePort(x: Scorable)
  {
    x.AssetItem? && x.asset.assetType == "port"
    && Strings.ContainsAny(PortText(x.asset), ["3306", "5432", "27017", "6379", "1433"])
  }

  const AdminPanel: ScoringRule :=
    ScoringRule("admin_panel", (x: Scorable) => ValueMentions(x, ["admin", "login", "portal", "dashboard"]), 50, "Admin panel detected")
  const DevEnvironment: ScoringRule :=
    ScoringRule("dev_environment", (x: Scorable) => ValueMentions(x, ["dev", "staging", "test", "debug"]), 30, "Development environment")
  const DatabasePort: ScoringRule :=
    ScoringRule("database_port", IsDatabasePort, 40, "Database port exposed")
  const SensitiveFile: ScoringRule :=
    ScoringRule("sensitive_file", (x: Scorable) => ValueMentions(x, [".git", ".env", "config", "backup", ".sql", ".db"]), 35, "Sensitive file detected")
  const ApiEndpoint: ScoringRule :=
    ScoringRule("api_endpoint", (x: Scorable) => ValueMentions(x, ["/api/", "/v1/", "/v2/", "graphql"]), 25, "API endpoint")

  function DefaultAssetRules(): seq<ScoringRule>
  {
    [AdminPanel, DevEnvironment, DatabasePort, SensitiveFile, ApiEndpoint]
  }

  /** Score of each severity. */
  function SeverityScore(s: Severity): int
  {
    match s
    case Critical => 100
    case High => 75
    case Medium => 50
    case Low => 25
    case Info => 10
  }

  /** `sev.value.capitalize()` */
  function Capitalized(s: Severity): string
  {
    match s
    case Critical => "Critical"
    case High => "High"
    case Medium => "Medium"
    case Low => "Low"
    case Info => "Info"
  }

  function SeverityRule(s: Severity): ScoringRule
  {
    ScoringRule("severity_" + s.Value(), (x: Scorable) => x.FindingItem? && x.finding.severity == s,
                SeverityScore(s), Capitalized(s) + " severity")
  }

  /** One rule per severity, in the order critical, high, medium, low, info. */
  function DefaultFindingRules(): seq<ScoringRule>
  {
    [SeverityRule(Critical), SeverityRule(High), SeverityRule(Medium), SeverityRule(Low), SeverityRule(Info)]
  }

  /** Sum of the modifiers of the rules that `x` meets, each rule counted once. */
  function ModifierSum(rules: seq<ScoringRule>, x: Scorable): int
  {
    if rules == [] then 0
    else
      var last := rules[|rules| - 1];
      ModifierSum(rules[..|rules| - 1], x) + (if last.condition(x) then last.modifier else 0)
  }

  function Min(a: int, b: int): int { if a <= b then a else b }

  /** `score_asset` */
  function AssetScore(rules: seq<ScoringRule>, a: Asset): int
  {
    Min(BaseAssetScore + ModifierSum(rules, AssetItem(a)), MaxScore)
  }

  /** `score_finding` */
  function FindingScore(rules: seq<ScoringRule>, f: Finding): int
  {
    Min(ModifierSum(rules, FindingItem(f)), MaxScore)
  }

  predicate NonNegative(rules: seq<ScoringRule>)
  {
    forall i :: 0 <= i < |rules| ==> rules[i].modifier >= 0
  }

  class ScoringEngine {
    var assetRules: seq<ScoringRule>
    var findingRules: seq<ScoringRule>

    constructor ()
      ensures assetRules == DefaultAssetRules() && findingRules == DefaultFindingRules()
    {
      assetRules := DefaultAssetRules();
      findingRules := DefaultFindingRules();
    }

    /** Adds the modifier of every matching asset rule to the base score, then caps. */
    method ScoreAsset(a: Asset) returns (score: int)
      ensures score == AssetScore(assetRules, a)
    {
      var total := BaseAssetScore;
      var i := 0;
      while i < |assetRules|
        invariant 0 <= i <= |assetRules|
        invariant total == BaseAssetScore + ModifierSum(assetRules[..i], AssetItem(a))
      {
        assert assetRules[..i + 1][..i] == assetRules[..i];
        if assetRules[i].condition(AssetItem(a)) {
          total := total + assetRules[i].modifier;
        }
        i := i + 1;
      }
      assert assetRules[..|assetRules|] == assetRules;
      score := Min(total, MaxScore);
    }

    /** Adds the modifier of every matching finding rule, then caps. */
    method ScoreFinding(f: Finding) returns (score: int)
      ensures score == FindingScore(findingRules, f)
    {
      var total := 0;
      var i := 0;
      while i < |findingRules|
        invariant 0 <= i <= |findingRules|
        invariant total == ModifierSum(findingRules[..i], FindingItem(f))
      {
        assert findingRules[..i + 1][..i] == findingRules[..i];
        if findingRules[i].condition(FindingItem(f)) {
          total := total + findingRules[i].modifier;
        }
        i := i + 1;
      }
      assert findingRules[..|findingRules|] == findingRules;
      score := Min(total, MaxScore);
    }

    method AddAssetRule(rule: ScoringRule)
      modifies this
      ensures assetRules == old(assetRules) + [rule] && findingRules == old(findingRules)
    {
      assetRules := assetRules + [rule];
    }

    method AddFindingRule(rule: ScoringRule)
      modifies this
      ensures findingRules == old(findingRules) + [rule] && assetRules == old(assetRules)
    {
      findingRules := findingRules + [rule];
    }
  }

  // ---------------------------------------------------------------------------
  // properties

  /** With non-negative modifiers the score never drops below the base. */
  lemma {:induction false} ModifierSumNonNegative(rules: seq<ScoringRule>, x: Scorable)
    requires NonNegative(rules)
    ensures ModifierSum(rules, x) >= 0
  {
    if rules != [] {
      ModifierSumNonNegative(rules[..|rules| - 1], x);
    }
  }

  /** Rules that `x` does not meet contribute nothing. */
  lemma {:induction false} ModifierSumNoMatch(rules: seq<ScoringRule>, x: Scorable)
    requires forall i :: 0 <= i < |rules| ==> !rules[i].condition(x)
    ensures ModifierSum(rules, x) == 0
  {
    if rules != [] {
      ModifierSumNoMatch(rules[..|rules| - 1], x);
    }
  }

  /** A rule appended later takes part in every later score. */
  lemma ModifierSumAppend(rules: seq<ScoringRule>, r: ScoringRule, x: Scorable)
    ensures ModifierSum(rules + [r], x) == ModifierSum(rules, x) + (if r.condition(x) then r.modifier else 0)
  {
    assert (rules + [r])[..|rules|] == rules;
  }

  /** With non-negative rules an asset scores between the base and the cap. */
  lemma AssetScoreBounds(rules: seq<ScoringRule>, a: Asset)
    requires NonNegative(rules)
    ensures BaseAssetScore <= AssetScore(rules, a) <= MaxScore
  {
    ModifierSumNonNegative(rules, AssetItem(a));
  }

  /** An asset that meets no rule scores exactly the base. */
  lemma AssetScoreNoMatch(rules: seq<ScoringRule>, a: Asset)
    requires forall i :: 0 <= i < |rules| ==> !rules[i].condition(AssetItem(a))
    ensures AssetScore(rules, a) == BaseAssetScore
  {
    ModifierSumNoMatch(rules, AssetItem(a));
  }

  function Bonus(holds: bool, modifier: int): int { if holds then modifier else 0 }

  /** The default asset score: each default rule adds its modifier at most once,
      however many of its keywords occur, and the total is capped at 100. */
  lemma DefaultAssetScore(a: Asset)
    ensures AssetScore(DefaultAssetRules(), a) == Min(10
      + Bonus(ValueMentions(AssetItem(a), ["admin", "login", "portal", "dashboard"]), 50)
      + Bonus(ValueMentions(AssetItem(a), ["dev", "staging", "test", "debug"]), 30)
      + Bonus(IsDatabasePort(AssetItem(a)), 40)
      + Bonus(ValueMentions(AssetItem(a), [".git", ".env", "config", "backup", ".sql", ".db"]), 35)
      + Bonus(ValueMentions(AssetItem(a), ["/api/", "/v1/", "/v2/", "graphql"]), 25), 100)
    ensures 10 <= AssetScore(DefaultAssetRules(), a) <= 100
  {
    var x := AssetItem(a);
    ModifierSumAppend([], AdminPanel, x);
    ModifierSumAppend([AdminPanel], DevEnvironment, x);
    ModifierSumAppend([AdminPanel, DevEnvironment], DatabasePort, x);
    ModifierSumAppend([AdminPanel, DevEnvironment, DatabasePort], SensitiveFile, x);
    ModifierSumAppend([AdminPanel, DevEnvironment, DatabasePort, SensitiveFile], ApiEndpoint, x);
    assert [] + [AdminPanel] == [AdminPanel];
    assert [AdminPanel] + [DevEnvironment] == [AdminPanel, DevEnvironment];
    assert [AdminPanel, DevEnvironment] + [DatabasePort] == [AdminPanel, DevEnvironment, DatabasePort];
    assert [AdminPanel, DevEnvironment, DatabasePort] + [SensitiveFile]
        == [AdminPanel, DevEnvironment, DatabasePort, SensitiveFile];
    assert [AdminPanel, DevEnvironment, DatabasePort, SensitiveFile] + [ApiEndpoint] == DefaultAssetRules();
  }

  /** The database-port rule applies to port assets only. */
  lemma DatabasePortOnlyForPorts(a: Asset)
    requires a.assetType != "port"
    ensures !IsDatabasePort(AssetItem(a))
  {
  }

  /** With the default finding rules each severity scores its fixed value:
      100, 75, 50, 25 and 10 from critical down to info. */
  lemma DefaultFindingScore(f: Finding)
    ensures FindingScore(DefaultFindingRules(), f) == SeverityScore(f.severity)
    ensures f.severity == Critical ==> FindingScore(DefaultFindingRules(), f) == 100
    ensures f.severity == Info ==> FindingScore(DefaultFindingRules(), f) == 10
  {
    var x := FindingItem(f);
    var r0, r1, r2, r3, r4 := SeverityRule(Critical), SeverityRule(High), SeverityRule(Medium), SeverityRule(Low), SeverityRule(Info);
    ModifierSumAppend([], r0, x);
    ModifierSumAppend([r0], r1, x);
    ModifierSumAppend([r0, r1], r2, x);
    ModifierSumAppend([r0, r1, r2], r3, x);
    ModifierSumAppend([r0, r1, r2, r3], r4, x);
    assert [] + [r0] == [r0];
    assert [r0] + [r1] == [r0, r1];
    assert [r0, r1] + [r2] == [r0, r1, r2];
    assert [r0, r1, r2] + [r3] == [r0, r1, r2, r3];
    assert [r0, r1, r2, r3] + [r4] == DefaultFindingRules();
  }

  /** Asset rules never fire for a finding, severity rules never for an asset. */
  lemma RulesKeepToTheirKind(a: Asset, f: Finding)
    ensures ModifierSum(DefaultAssetRules(), FindingItem(f)) == 0
    ensures ModifierSum(DefaultFindingRules(), AssetItem(a)) == 0
  {
    ModifierSumNoMatch(DefaultAssetRules(), FindingItem(f));
    ModifierSumNoMatch(DefaultFindingRules(), AssetItem(a));
  }
}
