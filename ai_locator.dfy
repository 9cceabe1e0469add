/** The smart locator library: a fixed priority ladder that turns an element's attributes into
    candidate locator strings, and a heuristic that scores a locator string's robustness. */
module AILocator {
  import opened Seqs
  import opened Strings

  /** An element descriptor: attribute name to attribute value. */
  type ElementInfo = map<string, string>

  // ---------------------------------------------------------------------------------------------
  // Candidate generation
  // ---------------------------------------------------------------------------------------------

  /** The six rungs of the priority ladder, most reliable first. */
  datatype Rung = IdRung | TestIdRung | NameRung | CompositeRung | TextRung | AriaLabelRung

  const Ladder: seq<Rung> := [IdRung, TestIdRung, NameRung, CompositeRung, TextRung, AriaLabelRung]

  /** Position of a rung on the ladder. */
  function Rank(r: Rung): int {
    match r
    case IdRung => 0
    case TestIdRung => 1
    case NameRung => 2
    case CompositeRung => 3
    case TextRung => 4
    case AriaLabelRung => 5
  }

  /** Whether a rung contributes a candidate: `id` and `name` need a non-empty value, the
      composite needs both `class` and `type`, the others only need the key. */
  predicate Fires(info: ElementInfo, r: Rung) {
    match r
    case IdRung => "id" in info && info["id"] != ""
    case TestIdRung => "data-testid" in info
    case NameRung => "name" in info && info["name"] != ""
    case CompositeRung => "class" in info && "type" in info
    case TextRung => "text" in info
    case AriaLabelRung => "aria-label" in info
  }

  /** The `tag` attribute, `button` when absent. */
  function TagOrButton(info: ElementInfo): string {
    if "tag" in info then info["tag"] else "button"
  }

  /** The locator a firing rung contributes; values are interpolated verbatim, without escaping. */
  function Render(info: ElementInfo, r: Rung): string
    requires Fires(info, r)
  {
    match r
    case IdRung => "id=" + info["id"]
    case TestIdRung => "css=[data-testid='" + info["data-testid"] + "']"
    case NameRung => "name=" + info["name"]
    case CompositeRung => "css=" + TagOrButton(info) + "." + info["class"] + "[type='" + info["type"] + "']"
    case TextRung => "xpath=//*[contains(text(), '" + info["text"] + "')]"
    case AriaLabelRung => "css=[aria-label='" + info["aria-label"] + "']"
  }

  /** The rungs of `rungs` that fire for `info`, in ladder order. */
  function FiredRungs(info: ElementInfo, rungs: seq<Rung>): seq<Rung> {
    Filter(rungs, r => Fires(info, r))
  }

  /** What one rung contributes: its rendering when it fires, nothing otherwise. */
  function RungOutput(info: ElementInfo, r: Rung): seq<string> {
    if Fires(info, r) then [Render(info, r)] else []
  }

  /** The candidates contributed by `rungs`, concatenated in order. */
  function CandidatesFrom(info: ElementInfo, rungs: seq<Rung>): seq<string> {
    if rungs == [] then [] else RungOutput(info, rungs[0]) + CandidatesFrom(info, rungs[1..])
  }

  /** One candidate per firing rung, no de-duplication: the candidates are the renderings of
      the fired rungs, position by position. */
  lemma {:induction false} CandidatesAreRenderedRungs(info: ElementInfo, rungs: seq<Rung>)
    ensures var fr := FiredRungs(info, rungs); var c := CandidatesFrom(info, rungs);
      |c| == |fr| && forall k | 0 <= k < |c| :: Fires(info, fr[k]) && c[k] == Render(info, fr[k])
  {
    if rungs != [] {
      CandidatesAreRenderedRungs(info, rungs[1..]);
      var fr := FiredRungs(info, rungs);
      var c := CandidatesFrom(info, rungs);
      var h := if Fires(info, rungs[0]) then [rungs[0]] else [];
      assert fr == h + FiredRungs(info, rungs[1..]);
      assert c == RungOutput(info, rungs[0]) + CandidatesFrom(info, rungs[1..]);
      forall k | 0 <= k < |c| ensures Fires(info, fr[k]) && c[k] == Render(info, fr[k]) {
        if k >= |h| {
          assert fr[k] == FiredRungs(info, rungs[1..])[k - |h|];
        }
      }
    }
  }

  /** The candidate list of an element descriptor. */
  function Candidates(info: ElementInfo): seq<string> {
    CandidatesFrom(info, Ladder)
  }

  /** The candidates are the renderings of exactly the firing rungs, at most six, each rung at
      most once, in ladder order. */
  lemma CandidatesFollowLadder(info: ElementInfo)
    ensures var fr := FiredRungs(info, Ladder); var c := Candidates(info);
      && |c| == |fr| <= 6
      && (forall r :: r in fr <==> Fires(info, r))
      && (forall i, j | 0 <= i < j < |fr| :: Rank(fr[i]) < Rank(fr[j]))
      && (forall k | 0 <= k < |c| :: c[k] == Render(info, fr[k]))
  {
    CandidatesAreRenderedRungs(info, Ladder);
    assert IncreasingBy(Ladder, Rank);
    FilterKeepsOrder(Ladder, r => Fires(info, r), Rank);
    var fr := FiredRungs(info, Ladder);
    forall r ensures r in fr <==> Fires(info, r) {
      assert r == Ladder[Rank(r)];
    }
  }

  /** A rung added at the end of the ladder contributes its output at the end of the list. */
  lemma {:induction false} CandidatesFromSnoc(info: ElementInfo, rungs: seq<Rung>, r: Rung)
    ensures CandidatesFrom(info, rungs + [r]) == CandidatesFrom(info, rungs) + RungOutput(info, r)
  {
    if rungs == [] {
      assert ([] + [r])[1..] == [];
    } else {
      assert (rungs + [r])[1..] == rungs[1..] + [r];
      CandidatesFromSnoc(info, rungs[1..], r);
    }
  }

  /** The ladder written out rung by rung, as the generator appends. */
  lemma CandidatesByRung(info: ElementInfo)
    ensures Candidates(info) ==
      RungOutput(info, IdRung) + RungOutput(info, TestIdRung) + RungOutput(info, NameRung)
      + RungOutput(info, CompositeRung) + RungOutput(info, TextRung) + RungOutput(info, AriaLabelRung)
  {
    var p0: seq<Rung> := [];
    var p1 := p0 + [IdRung];
    var p2 := p1 + [TestIdRung];
    var p3 := p2 + [NameRung];
    var p4 := p3 + [CompositeRung];
    var p5 := p4 + [TextRung];
    var p6 := p5 + [AriaLabelRung];
    assert p6 == Ladder;
    CandidatesFromSnoc(info, p0, IdRung);
    CandidatesFromSnoc(info, p1, TestIdRung);
    CandidatesFromSnoc(info, p2, NameRung);
    CandidatesFromSnoc(info, p3, CompositeRung);
    CandidatesFromSnoc(info, p4, TextRung);
    CandidatesFromSnoc(info, p5, AriaLabelRung);
    assert CandidatesFrom(info, p1) == RungOutput(info, IdRung);
  }

  /** `generate_smart_locator`: append the candidate of each firing rung, in ladder order. */
  method GenerateSmartLocator(info: ElementInfo) returns (locators: seq<string>)
    ensures locators == Candidates(info)
  {
    locators := [];
    if "id" in info && info["id"] != "" {
      locators := locators + ["id=" + info["id"]];
    }
    assert locators == RungOutput(info, IdRung);
    ghost var done := locators;
    if "data-testid" in info {
      locators := locators + ["css=[data-testid='" + info["data-testid"] + "']"];
    }
    assert locators == done + RungOutput(info, TestIdRung);
    done := locators;
    if "name" in info && info["name"] != "" {
      locators := locators + ["name=" + info["name"]];
    }
    assert locators == done + RungOutput(info, NameRung);
    done := locators;
    if "class" in info && "type" in info {
      var tag := if "tag" in info then info["tag"] else "button";
      locators := locators + ["css=" + tag + "." + info["class"] + "[type='" + info["type"] + "']"];
    }
    assert locators == done + RungOutput(info, CompositeRung);
    done := locators;
    if "text" in info {
      locators := locators + ["xpath=//*[contains(text(), '" + info["text"] + "')]"];
    }
    assert locators == done + RungOutput(info, TextRung);
    done := locators;
    if "aria-label" in info {
      locators := locators + ["css=[aria-label='" + info["aria-label"] + "']"];
    }
    assert locators == done + RungOutput(info, AriaLabelRung);
    CandidatesByRung(info);
  }

  /** A descriptor whose only attribute is a non-empty `id` yields exactly `id=<id>`. */
  lemma OnlyIdYieldsIdLocator(info: ElementInfo)
    requires info.Keys == {"id"} && info["id"] != ""
    ensures Candidates(info) == ["id=" + info["id"]]
  {
    CandidatesByRung(info);
  }

  /** An empty `id` or `name` contributes nothing: the list is the one without that key. */
  lemma EmptyIdOrNameContributesNothing(info: ElementInfo, key: string)
    requires key == "id" || key == "name"
    requires key in info && info[key] == ""
    ensures Candidates(info) == Candidates(info - {key})
  {
    CandidatesByRung(info);
    CandidatesByRung(info - {key});
    assert TagOrButton(info) == TagOrButton(info - {key});
  }

  /** The `data-testid`, `text` and `aria-label` rungs fire on presence alone, empty value
      included, and quote the value verbatim. */
  lemma PresenceGatedRungs(info: ElementInfo)
    ensures "data-testid" in info ==> "css=[data-testid='" + info["data-testid"] + "']" in Candidates(info)
    ensures "text" in info ==> "xpath=//*[contains(text(), '" + info["text"] + "')]" in Candidates(info)
    ensures "aria-label" in info ==> "css=[aria-label='" + info["aria-label"] + "']" in Candidates(info)
  {
    CandidatesByRung(info);
  }

  /** The composite rung fires exactly when both `class` and `type` are present, with `button`
      standing in for a missing `tag`. */
  lemma CompositeRungNeedsClassAndType(info: ElementInfo)
    ensures "class" in info && "type" in info ==>
      "css=" + TagOrButton(info) + "." + info["class"] + "[type='" + info["type"] + "']" in Candidates(info)
    ensures "tag" !in info ==> TagOrButton(info) == "button"
    ensures CompositeRung in FiredRungs(info, Ladder) <==> "class" in info && "type" in info
  {
    CandidatesByRung(info);
    CandidatesFollowLadder(info);
  }

  // ---------------------------------------------------------------------------------------------
  // Strength scoring
  // ---------------------------------------------------------------------------------------------

  datatype Strength = Weak | Medium | Strong

  datatype ScoreReport = ScoreReport(
    score: int,
    strength: Strength,
    issues: seq<string>,
    recommendations: seq<string>)

  const BaseScore: int := 50

  /** The locator names a test attribute (`data-testid` or `data-test`). */
  predicate MentionsDataTest(locator: string) {
    Contains(locator, "data-testid") || Contains(locator, "data-test")
  }

  /** The one bonus a locator earns: test attribute first, then an `id=`, then a `name=` prefix. */
  function Bonus(locator: string): int {
    if MentionsDataTest(locator) then 30
    else if StartsWith(locator, "id=") then 25
    else if StartsWith(locator, "name=") then 15
    else 0
  }

  /** The three fragility rules, in the order they are checked. */
  datatype Penalty = AbsoluteXPath | ClassBased | IndexBased

  const PenaltyRules: seq<Penalty> := [AbsoluteXPath, ClassBased, IndexBased]

  predicate Applies(locator: string, p: Penalty) {
    match p
    case AbsoluteXPath => Contains(locator, "//*") && '[' in locator && '@' !in locator
    case ClassBased => Contains(locator, "contains(@class")
    case IndexBased => HasBracketedIndex(locator)
  }

  function Deduction(p: Penalty): int {
    match p
    case AbsoluteXPath => 20
    case ClassBased => 10
    case IndexBased => 15
  }

  function Issue(p: Penalty): string {
    match p
    case AbsoluteXPath => "Absolute XPath detected - very fragile"
    case ClassBased => "Class-based locator may be unstable"
    case IndexBased => "Index-based selector detected"
  }

  function Recommendation(p: Penalty): string {
    match p
    case AbsoluteXPath => "Use relative XPath or CSS selectors"
    case ClassBased => "Consider using data-testid or ID"
    case IndexBased => "Use unique attributes instead"
  }

  /** The rules a locator trips, in rule order. */
  function FiredPenalties(locator: string): seq<Penalty> {
    Filter(PenaltyRules, p => Applies(locator, p))
  }

  function TotalDeduction(ps: seq<Penalty>): int {
    if ps == [] then 0 else TotalDeduction(ps[..|ps| - 1]) + Deduction(ps[|ps| - 1])
  }

  /** The score before clamping. */
  function RawScore(locator: string): int {
    BaseScore + Bonus(locator) - TotalDeduction(FiredPenalties(locator))
  }

  function Clamp(x: int): int {
    if x < 0 then 0 else if x > 100 then 100 else x
  }

  function StrengthOf(score: int): Strength {
    if score >= 75 then Strong else if score >= 50 then Medium else Weak
  }

  /** The report on a locator: clamped score, its strength band, and one issue and one
      recommendation per tripped rule. */
  function LocatorStrength(locator: string): ScoreReport {
    var fired := FiredPenalties(locator);
    var score := Clamp(RawScore(locator));
    ScoreReport(
      score,
      StrengthOf(score),
      Map(Issue, fired),
      Map(Recommendation, fired))
  }

  /** The score lies in [0, 100], the band follows the 75 and 50 thresholds, and the issues and
      recommendations are paired by position, one pair per tripped rule, in rule order. */
  lemma ReportIsWellFormed(locator: string)
    ensures var rep := LocatorStrength(locator);
      && 0 <= rep.score <= 100
      && (rep.strength == Strong <==> rep.score >= 75)
      && (rep.strength == Medium <==> 50 <= rep.score < 75)
      && (rep.strength == Weak <==> rep.score < 50)
    ensures var rep, fired := LocatorStrength(locator), FiredPenalties(locator);
      && |rep.issues| == |rep.recommendations| == |fired|
      && forall i | 0 <= i < |fired| ::
           rep.issues[i] == Issue(fired[i]) && rep.recommendations[i] == Recommendation(fired[i])
  {
  }

  /** The rules checked one by one, in rule order. */
  lemma FiredPenaltiesByRule(locator: string)
    ensures FiredPenalties(locator) == RuleByRule(
      Applies(locator, AbsoluteXPath), Applies(locator, ClassBased), Applies(locator, IndexBased),
      AbsoluteXPath, ClassBased, IndexBased)
  {
    assert PenaltyRules[1..] == [ClassBased, IndexBased];
    assert PenaltyRules[2..] == [IndexBased];
    assert PenaltyRules[3..] == [];
  }

  /** The penalty rules written out one by one. */
  function RuleByRule<T>(a: bool, c: bool, x: bool, ta: T, tc: T, tx: T): seq<T> {
    (if a then [ta] else []) + (if c then [tc] else []) + (if x then [tx] else [])
  }

  /** Deductions, issues and recommendations of the rules tripped, written out one by one. */
  lemma ReportParts(a: bool, c: bool, x: bool)
    ensures var fired := RuleByRule(a, c, x, AbsoluteXPath, ClassBased, IndexBased);
      && TotalDeduction(fired) == (if a then 20 else 0) + (if c then 10 else 0) + (if x then 15 else 0)
      && Map(Issue, fired) == RuleByRule(a, c, x, Issue(AbsoluteXPath), Issue(ClassBased), Issue(IndexBased))
      && Map(Recommendation, fired) ==
           RuleByRule(a, c, x, Recommendation(AbsoluteXPath), Recommendation(ClassBased), Recommendation(IndexBased))
  {
    var ha: seq<Penalty> := if a then [AbsoluteXPath] else [];
    var ac := ha + (if c then [ClassBased] else []);
    var fired := ac + (if x then [IndexBased] else []);
    assert TotalDeduction(ha) == (if a then 20 else 0) by {
      if a { assert ha[..0] == []; }
    }
    assert TotalDeduction(ac) == TotalDeduction(ha) + (if c then 10 else 0) by {
      if c { assert ac[..|ac| - 1] == ha; }
    }
    assert TotalDeduction(fired) == TotalDeduction(ac) + (if x then 15 else 0) by {
      if x { assert fired[..|fired| - 1] == ac; }
    }
  }

  /** The report computed rule by rule, in the order the scorer checks the rules. */
  function ScoreByRule(locator: string): ScoreReport {
    var a, c, x := Applies(locator, AbsoluteXPath), Applies(locator, ClassBased), Applies(locator, IndexBased);
    var raw := BaseScore + Bonus(locator) - (if a then 20 else 0) - (if c then 10 else 0) - (if x then 15 else 0);
    ScoreReport(
      Clamp(raw),
      StrengthOf(Clamp(raw)),
      RuleByRule(a, c, x, Issue(AbsoluteXPath), Issue(ClassBased), Issue(IndexBased)),
      RuleByRule(a, c, x, Recommendation(AbsoluteXPath), Recommendation(ClassBased), Recommendation(IndexBased)))
  }

  /** Checking the rules one by one gives the report of the declarative definition. */
  lemma ScoreByRuleIsLocatorStrength(locator: string)
    ensures ScoreByRule(locator) == LocatorStrength(locator)
  {
    var a, c, x := Applies(locator, AbsoluteXPath), Applies(locator, ClassBased), Applies(locator, IndexBased);
    FiredPenaltiesByRule(locator);
    assert FiredPenalties(locator) == RuleByRule(a, c, x, AbsoluteXPath, ClassBased, IndexBased);
    ReportParts(a, c, x);
  }

  /** `validate_locator_strength`: start at 50, add the bonus, apply each tripped rule in turn,
      clamp to [0, 100] and band the result. */
  method ValidateLocatorStrength(locator: string) returns (report: ScoreReport)
    ensures report == LocatorStrength(locator)
  {
    var score := 50;
    var issues: seq<string> := [];
    var recommendations: seq<string> := [];

    if Contains(locator, "data-testid") || Contains(locator, "data-test") {
      score := score + 30;
    } else if StartsWith(locator, "id=") {
      score := score + 25;
    } else if StartsWith(locator, "name=") {
      score := score + 15;
    }

    if Contains(locator, "//*") && '[' in locator && '@' !in locator {
      score := score - 20;
      issues := issues + ["Absolute XPath detected - very fragile"];
      recommendations := recommendations + ["Use relative XPath or CSS selectors"];
    }
    if Contains(locator, "contains(@class") {
      score := score - 10;
      issues := issues + ["Class-based locator may be unstable"];
      recommendations := recommendations + ["Consider using data-testid or ID"];
    }
    if HasBracketedIndex(locator) {
      score := score - 15;
      issues := issues + ["Index-based selector detected"];
      recommendations := recommendations + ["Use unique attributes instead"];
    }

    score := if score > 100 then 100 else score;
    score := if score < 0 then 0 else score;
    var strength := if score >= 75 then Strong else if score >= 50 then Medium else Weak;
    report := ScoreReport(score, strength, issues, recommendations);
    assert report == ScoreByRule(locator);
    ScoreByRuleIsLocatorStrength(locator);
  }

  // ---------------------------------------------------------------------------------------------
  // Properties of the score
  // ---------------------------------------------------------------------------------------------

  /** `data-testid` contains `data-test`, so the first half of the bonus test is subsumed. */
  lemma DataTestSubsumesDataTestId(locator: string)
    ensures MentionsDataTest(locator) <==> Contains(locator, "data-test")
  {
    if Contains(locator, "data-testid") {
      var i :| 0 <= i <= |locator| - 11 && OccursAt(locator, "data-testid", i);
      assert locator[i..i + 9] == locator[i..i + 11][..9];
      assert OccursAt(locator, "data-test", i);
    }
  }

  /** The absolute-XPath rule needs a locator without `@`, the class rule one with
      `contains(@class`: the two never fire together. */
  lemma AbsoluteXPathExcludesClassBased(locator: string)
    ensures !(Applies(locator, AbsoluteXPath) && Applies(locator, ClassBased))
  {
    if Applies(locator, ClassBased) {
      var i :| 0 <= i <= |locator| - 15 && OccursAt(locator, "contains(@class", i);
      assert locator[i + 9] == locator[i..i + 15][9] == '@';
    }
  }

  /** At most two rules fire, the unclamped score lies in [15, 80], so the clamp never changes
      it, and issues and recommendations come in pairs. */
  lemma ScoreBounds(locator: string)
    ensures 15 <= RawScore(locator) <= 80
    ensures LocatorStrength(locator).score == RawScore(locator)
    ensures |LocatorStrength(locator).issues| == |LocatorStrength(locator).recommendations| <= 2
  {
    AbsoluteXPathExcludesClassBased(locator);
    ScoreByRuleIsLocatorStrength(locator);
    FiredPenaltiesByRule(locator);
    ReportParts(Applies(locator, AbsoluteXPath), Applies(locator, ClassBased), Applies(locator, IndexBased));
  }

  /** A locator is `Strong` exactly when no rule fires and it names a test attribute or starts
      with `id=`: a `name=` prefix alone never reaches 75. */
  lemma StrongIffNoIssuesAndPreferredPrefix(locator: string)
    ensures LocatorStrength(locator).strength == Strong <==>
      LocatorStrength(locator).issues == [] && (Contains(locator, "data-test") || StartsWith(locator, "id="))
  {
    DataTestSubsumesDataTestId(locator);
    ScoreBounds(locator);
    ScoreByRuleIsLocatorStrength(locator);
  }

  /** `id=submit` earns the `id=` bonus and trips no rule: 75, `Strong`. */
  lemma IdSubmitIsStrong()
    ensures LocatorStrength("id=submit") == ScoreReport(75, Strong, [], [])
  {
    var l := "id=submit";
    assert !Contains(l, "//*") by {
      forall i | 0 <= i <= |l| - 3 ensures !OccursAt(l, "//*", i) {
        assert l[i] != '/';
      }
    }
    assert !HasBracketedIndex(l) by {
      forall i, j | 0 <= i && i + 1 < j < |l| ensures !BracketedIndexAt(l, i, j) {
        assert l[i] != '[';
      }
    }
    assert !Contains(l, "data-test") by {
      assert !OccursAt(l, "data-test", 0) by { assert l[0] != 'd'; }
    }
    assert !Contains(l, "data-testid") && !Contains(l, "contains(@class");
    assert StartsWith(l, "id=") by { assert l[..3] == "id="; }
    assert Bonus(l) == 25;
    assert !Applies(l, AbsoluteXPath) && !Applies(l, ClassBased) && !Applies(l, IndexBased);
    ScoreByRuleIsLocatorStrength(l);
  }

  /** `//div/span[2]` holds no `//` followed by `*`, so only the index rule fires: 35, `Weak`. */
  lemma IndexedXPathIsWeak()
    ensures LocatorStrength("//div/span[2]") ==
      ScoreReport(35, Weak, ["Index-based selector detected"], ["Use unique attributes instead"])
  {
    var l := "//div/span[2]";
    assert |l| == 13;
    assert !Contains(l, "//*") by {
      forall i | 0 <= i <= |l| - 3 ensures !OccursAt(l, "//*", i) {
        assert l[i..i + 3][2] == l[i + 2] != '*';
      }
    }
    assert !Contains(l, "data-test") by {
      forall i | 0 <= i <= |l| - 9 ensures !OccursAt(l, "data-test", i) {
        assert l[i..i + 9][1] == l[i + 1] != 'a';
      }
    }
    assert !Contains(l, "data-testid") by {
      forall i | 0 <= i <= |l| - 11 ensures !OccursAt(l, "data-testid", i) {
        assert l[i..i + 11][1] == l[i + 1] != 'a';
      }
    }
    assert !Contains(l, "contains(@class");
    assert BracketedIndexAt(l, 10, 12) by { assert l[11..12] == "2"; }
    assert !StartsWith(l, "id=") by { assert l[0] != 'i'; }
    assert !StartsWith(l, "name=") by { assert l[0] != 'n'; }
    assert Bonus(l) == 0;
    assert !Applies(l, AbsoluteXPath) && !Applies(l, ClassBased) && Applies(l, IndexBased);
    ScoreByRuleIsLocatorStrength(l);
  }
}
