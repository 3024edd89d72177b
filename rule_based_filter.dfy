/** The deterministic pre-filter applied to the candidate pool before any model call,
    and its two small scoring helpers. Case-insensitive comparisons lower-case ASCII
    letters only. */
module RuleBasedFilter {
  import opened Wrappers
  import opened Strings
  import opened Json
  import opened Types
  import opened Seqs

  function LowerAll(xs: seq<string>): (r: seq<string>)
    ensures |r| == |xs|
    ensures forall i :: 0 <= i < |xs| ==> r[i] == Lower(xs[i])
  {
    seq(|xs|, i requires 0 <= i < |xs| => Lower(xs[i]))
  }

  /** `cs.includes(required) || required.includes(cs)` */
  predicate SkillsRelated(cs: string, required: string) {
    Contains(cs, required) || Contains(required, cs)
  }

  /** `candidateSkills.some(cs => …)` for one lower-cased required skill. */
  predicate MatchesSome(candidateSkills: seq<string>, required: string) {
    exists j :: 0 <= j < |candidateSkills| && SkillsRelated(candidateSkills[j], required)
  }

  /** Some required skill and some candidate skill are substrings of one another. */
  predicate HasAnySkills(candidateSkills: seq<string>, requiredSkills: seq<string>) {
    exists i :: 0 <= i < |requiredSkills| && MatchesSome(candidateSkills, requiredSkills[i])
  }

  /** A required skill that names development work. */
  predicate IsDeveloperSkill(skill: string) {
    Contains(skill, "develop") || Contains(skill, "code") || Contains(skill, "program")
  }

  /** The tech words a candidate skill may contain to pass the developer fallback. */
  const TechWords: seq<string> := ["javascript", "python", "react", "node", "java", "develop", "code", "program"]

  predicate IsTechSkill(cs: string) {
    exists w :: 0 <= w < |TechWords| && Contains(cs, TechWords[w])
  }

  /** The skill test: an overlap, or, for a developer role, any tech skill. */
  predicate SkillTest(candidate: NormalizedCandidate, criteria: FilterCriteria) {
    criteria.skills.None? || |criteria.skills.value| == 0 ||
    var candidateSkills := LowerAll(candidate.skills);
    var requiredSkills := LowerAll(criteria.skills.value);
    HasAnySkills(candidateSkills, requiredSkills)
    || ((exists i :: 0 <= i < |requiredSkills| && IsDeveloperSkill(requiredSkills[i]))
        && (exists j :: 0 <= j < |candidateSkills| && IsTechSkill(candidateSkills[j])))
  }

  /** `criteria.needsShortcut`: no skills, no experience bounds and a falsy salary cap. */
  predicate NoCriteria(criteria: FilterCriteria) {
    (criteria.skills.None? || |criteria.skills.value| == 0)
    && criteria.minExperience.Missing? && criteria.maxExperience.Missing? && !criteria.salaryMax.Truthy()
  }

  // ---------------------------------------------------------------- bounds as written

  /** The experience test as the source writes it: a bound that is not `undefined` takes
      part, and JavaScript reads a `null` bound as 0 in `min - 1` and `max + 2`. */
  predicate ExperienceTestAsWritten(candidate: NormalizedCandidate, criteria: FilterCriteria) {
    (criteria.minExperience.Missing? || candidate.yearsOfExperience.None?
      || !(candidate.yearsOfExperience.value < criteria.minExperience.Arith().value - 1.0))
    && (criteria.maxExperience.Missing? || candidate.yearsOfExperience.None?
      || !(candidate.yearsOfExperience.value > criteria.maxExperience.Arith().value + 2.0))
  }

  /** The expected salary as a number; `None` (NaN) when it cannot be compared. */
  function ExpectedSalary(candidate: NormalizedCandidate): Option<real> {
    if candidate.salary.Some? && candidate.salary.value.expected.Some?
    then ToNumber(candidate.salary.value.expected.value)
    else None
  }

  predicate HasExpectedSalary(candidate: NormalizedCandidate) {
    candidate.salary.Some? && candidate.salary.value.expected.Some?
  }

  /** The salary test as written: `null * 1.2` is 0. A comparison with NaN is false. */
  predicate SalaryTestAsWritten(candidate: NormalizedCandidate, criteria: FilterCriteria) {
    criteria.salaryMax.Missing? || !HasExpectedSalary(candidate) || ExpectedSalary(candidate).None?
    || !(ExpectedSalary(candidate).value > criteria.salaryMax.Arith().value * 1.2)
  }

  predicate PassesAsWritten(candidate: NormalizedCandidate, criteria: FilterCriteria) {
    SkillTest(candidate, criteria) && ExperienceTestAsWritten(candidate, criteria) && SalaryTestAsWritten(candidate, criteria)
  }

  /** `applyRuleBasedFilter` exactly as written. */
  function ApplyRuleBasedFilterAsWritten(candidates: seq<NormalizedCandidate>, criteria: FilterCriteria): seq<NormalizedCandidate> {
    if NoCriteria(criteria) then candidates
    else Filter(candidates, c => PassesAsWritten(c, criteria))
  }

  /** A role whose template answer leaves `maxYearsExperience` as `null` (no maximum) sees
      every candidate with more than 2 years rejected. */
  lemma NullMaxExperienceRejects(candidate: NormalizedCandidate)
    requires candidate.yearsOfExperience == Some(5.0)
    ensures !ExperienceTestAsWritten(candidate, FilterCriteria(Some(["go"]), Missing, Null, Missing))
    ensures ExperienceTest(candidate, FilterCriteria(Some(["go"]), Missing, Null, Missing))
  {
  }

  /** A `salaryRange` of `{min: null, max: null}` rejects every positive expected salary. */
  lemma NullSalaryMaxRejects(candidate: NormalizedCandidate)
    requires candidate.salary == Some(Salary(None, Some(JNum(1000.0)), None))
    ensures !SalaryTestAsWritten(candidate, FilterCriteria(Some(["go"]), Missing, Missing, Null))
    ensures SalaryTest(candidate, FilterCriteria(Some(["go"]), Missing, Missing, Null))
  {
  }

  // ---------------------------------------------------------------- corrected bounds

  /** The experience test with `null` read as "no bound", as for `undefined`; a bound of
      `n` allows one year less and two years more. */
  predicate ExperienceTest(candidate: NormalizedCandidate, criteria: FilterCriteria) {
    (!criteria.minExperience.Num? || candidate.yearsOfExperience.None?
      || candidate.yearsOfExperience.value >= criteria.minExperience.n - 1.0)
    && (!criteria.maxExperience.Num? || candidate.yearsOfExperience.None?
      || candidate.yearsOfExperience.value <= criteria.maxExperience.n + 2.0)
  }

  /** The salary test with a `null` cap read as "no cap"; the cap allows 20% more. */
  predicate SalaryTest(candidate: NormalizedCandidate, criteria: FilterCriteria) {
    !criteria.salaryMax.Num? || ExpectedSalary(candidate).None?
    || ExpectedSalary(candidate).value <= criteria.salaryMax.n * 1.2
  }

  predicate Passes(candidate: NormalizedCandidate, criteria: FilterCriteria) {
    SkillTest(candidate, criteria) && ExperienceTest(candidate, criteria) && SalaryTest(candidate, criteria)
  }

  /** `applyRuleBasedFilter` with `null` bounds treated as absent: the kept candidates,
      in their order, are exactly those passing every test. */
  function ApplyRuleBasedFilter(candidates: seq<NormalizedCandidate>, criteria: FilterCriteria): (r: seq<NormalizedCandidate>)
    ensures IsSubsequence(r, candidates)
    ensures NoCriteria(criteria) ==> r == candidates
    ensures !NoCriteria(criteria) ==> forall c :: c in r <==> c in candidates && Passes(c, criteria)
    ensures !NoCriteria(criteria) ==>
              forall c :: multiset(r)[c] == if Passes(c, criteria) then multiset(candidates)[c] else 0
  {
    if NoCriteria(criteria) then
      SubsequenceRefl(candidates);
      candidates
    else
      FilterIsSubsequence(candidates, c => Passes(c, criteria));
      FilterMembers(candidates, c => Passes(c, criteria));
      FilterMultiset(candidates, c => Passes(c, criteria));
      Filter(candidates, c => Passes(c, criteria))
  }

  lemma {:induction false} SubsequenceRefl<T>(s: seq<T>)
    ensures IsSubsequence(s, s)
  {
    if s != [] {
      SubsequenceRefl(s[1..]);
    }
  }

  /** Where both are defined the two readings agree: they differ only on `null` bounds. */
  lemma AsWrittenAgreesWithoutNulls(candidate: NormalizedCandidate, criteria: FilterCriteria)
    requires !criteria.minExperience.Null? && !criteria.maxExperience.Null? && !criteria.salaryMax.Null?
    ensures PassesAsWritten(candidate, criteria) <==> Passes(candidate, criteria)
  {
  }

  /** The one-year and two-year slack: with a minimum of 4, 3 years pass and 2 fail;
      with a maximum of 5, 7 years pass and 7.5 fail. */
  lemma ExperienceSlack(candidate: NormalizedCandidate)
    ensures candidate.yearsOfExperience == Some(3.0) ==> ExperienceTest(candidate, FilterCriteria(None, Num(4.0), Missing, Missing))
    ensures candidate.yearsOfExperience == Some(2.0) ==> !ExperienceTest(candidate, FilterCriteria(None, Num(4.0), Missing, Missing))
    ensures candidate.yearsOfExperience == Some(7.0) ==> ExperienceTest(candidate, FilterCriteria(None, Missing, Num(5.0), Missing))
    ensures candidate.yearsOfExperience == Some(7.5) ==> !ExperienceTest(candidate, FilterCriteria(None, Missing, Num(5.0), Missing))
  {
  }

  /** Unknown years and an unknown expected salary are never grounds for rejection. */
  lemma UnknownsPass(candidate: NormalizedCandidate, criteria: FilterCriteria)
    requires candidate.yearsOfExperience.None? && !HasExpectedSalary(candidate)
    ensures Passes(candidate, criteria) <==> SkillTest(candidate, criteria)
  {
  }

  /** Adding a matching skill can only help: a candidate who passes keeps passing. */
  lemma {:induction false} ExtraSkillKeepsPassing(candidate: NormalizedCandidate, criteria: FilterCriteria, extra: string)
    requires Passes(candidate, criteria)
    ensures Passes(candidate.(skills := candidate.skills + [extra]), criteria)
  {
    var c' := candidate.(skills := candidate.skills + [extra]);
    if criteria.skills.Some? && |criteria.skills.value| > 0 {
      var cs := LowerAll(candidate.skills);
      var cs' := LowerAll(c'.skills);
      assert forall j :: 0 <= j < |cs| ==> cs'[j] == cs[j];
      var req := LowerAll(criteria.skills.value);
      if HasAnySkills(cs, req) {
        var i, j :| 0 <= i < |req| && 0 <= j < |cs| && SkillsRelated(cs[j], req[i]);
        assert SkillsRelated(cs'[j], req[i]);
        assert MatchesSome(cs', req[i]);
      } else {
        var j :| 0 <= j < |cs| && IsTechSkill(cs[j]);
        assert IsTechSkill(cs'[j]);
      }
    }
  }

  // ---------------------------------------------------------------- score and seniority

  /** The share of required skills some candidate skill relates to; 1 with none required. */
  function SkillMatchScore(candidateSkills: seq<string>, requiredSkills: seq<string>): real {
    if |requiredSkills| == 0 then 1.0
    else
      var cs := LowerAll(candidateSkills);
      MatchedCount(cs, LowerAll(requiredSkills)) as real / |requiredSkills| as real
  }

  /** How many of the required skills some candidate skill relates to. */
  function MatchedCount(cs: seq<string>, req: seq<string>): (n: nat)
    ensures n <= |req|
  {
    if req == [] then 0
    else MatchedCount(cs, req[..|req| - 1]) + (if MatchesSome(cs, req[|req| - 1]) then 1 else 0)
  }

  /** The score lies in [0, 1]. */
  lemma SkillMatchScoreBounds(candidateSkills: seq<string>, requiredSkills: seq<string>)
    ensures 0.0 <= SkillMatchScore(candidateSkills, requiredSkills) <= 1.0
  {
    if |requiredSkills| > 0 {
      var cs := LowerAll(candidateSkills);
      var n := MatchedCount(cs, LowerAll(requiredSkills));
      assert n <= |requiredSkills|;
      assert n as real / |requiredSkills| as real <= 1.0;
    }
  }

  /** With required skills, a candidate holding every one of them scores 1. */
  lemma FullMatchScoresOne(candidateSkills: seq<string>, requiredSkills: seq<string>)
    requires forall i :: 0 <= i < |requiredSkills| ==> requiredSkills[i] in candidateSkills
    ensures SkillMatchScore(candidateSkills, requiredSkills) == 1.0
  {
    if |requiredSkills| > 0 {
      var cs := LowerAll(candidateSkills);
      var req := LowerAll(requiredSkills);
      forall i | 0 <= i < |req| ensures MatchesSome(cs, req[i]) {
        var j :| 0 <= j < |candidateSkills| && candidateSkills[j] == requiredSkills[i];
        assert cs[j] == req[i];
        assert OccursAt(cs[j], req[i], 0);
      }
      CountAll(cs, req);
    }
  }

  lemma {:induction false} CountAll(cs: seq<string>, req: seq<string>)
    requires forall i :: 0 <= i < |req| ==> MatchesSome(cs, req[i])
    ensures MatchedCount(cs, req) == |req|
  {
    if req != [] {
      CountAll(cs, req[..|req| - 1]);
    }
  }

  /** `scoreSkillMatch`: counts the required skills that match, then divides. */
  method ScoreSkillMatch(candidateSkills: seq<string>, requiredSkills: seq<string>) returns (score: real)
    ensures score == SkillMatchScore(candidateSkills, requiredSkills)
    ensures 0.0 <= score <= 1.0
  {
    SkillMatchScoreBounds(candidateSkills, requiredSkills);
    if |requiredSkills| == 0 {
      return 1.0;
    }
    var normalizedCandidateSkills := LowerAll(candidateSkills);
    var normalizedRequiredSkills := LowerAll(requiredSkills);
    var matches := 0;
    var i := 0;
    while i < |normalizedRequiredSkills|
      invariant 0 <= i <= |normalizedRequiredSkills|
      invariant matches == MatchedCount(normalizedCandidateSkills, normalizedRequiredSkills[..i])
    {
      assert normalizedRequiredSkills[..i + 1][..i] == normalizedRequiredSkills[..i];
      if MatchesSome(normalizedCandidateSkills, normalizedRequiredSkills[i]) {
        matches := matches + 1;
      }
      i := i + 1;
    }
    assert normalizedRequiredSkills[..i] == normalizedRequiredSkills;
    return matches as real / |normalizedRequiredSkills| as real;
  }

  datatype Seniority = Unknown | Junior | Mid | Senior | Lead {
    function Name(): string {
      match this
      case Unknown => "unknown"
      case Junior => "junior"
      case Mid => "mid"
      case Senior => "senior"
      case Lead => "lead"
    }

    function Rank(): nat {
      match this
      case Unknown => 0
      case Junior => 1
      case Mid => 2
      case Senior => 3
      case Lead => 4
    }
  }

  /** `calculateSeniorityLevel`: `undefined` and 0 are unknown; then the thresholds 2, 5, 8. */
  function CalculateSeniorityLevel(yearsOfExperience: Option<real>): (r: Seniority)
    ensures r == Unknown <==> yearsOfExperience.None? || yearsOfExperience.value == 0.0
    ensures r == Junior <==> yearsOfExperience.Some? && yearsOfExperience.value != 0.0 && yearsOfExperience.value < 2.0
    ensures r == Mid <==> yearsOfExperience.Some? && 2.0 <= yearsOfExperience.value < 5.0
    ensures r == Senior <==> yearsOfExperience.Some? && 5.0 <= yearsOfExperience.value < 8.0
    ensures r == Lead <==> yearsOfExperience.Some? && yearsOfExperience.value >= 8.0
  {
    if yearsOfExperience.None? || yearsOfExperience.value == 0.0 then Unknown
    else if yearsOfExperience.value < 2.0 then Junior
    else if yearsOfExperience.value < 5.0 then Mid
    else if yearsOfExperience.value < 8.0 then Senior
    else Lead
  }

  /** More experience never means a lower level (among known, non-zero values). */
  lemma SeniorityMonotone(a: real, b: real)
    requires a != 0.0 && b != 0.0 && a <= b
    ensures CalculateSeniorityLevel(Some(a)).Rank() <= CalculateSeniorityLevel(Some(b)).Rank()
  {
  }
}
