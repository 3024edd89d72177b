/** The candidate projections and requirement lines of the two prompts sent to the model.
    `JSON.stringify` of a projection is a caller-supplied function; the fixed instruction
    text and reply template after the candidate block are not modelled. */
module PromptBuilder {
  import opened Wrappers
  import opened Strings
  import opened Json
  import opened Types
  import opened Seqs

  /** One entry of the batch-scoring prompt's candidate list. */
  datatype BatchSummary = BatchSummary(
    id: string,
    name: string,
    role: string,
    experience: real,
    skills: string,
    summary: string)

  /** `c.summary?.substring(0, 200) || 'No summary'` */
  function ShortSummary(summary: Option<string>): string {
    if summary.Some? && summary.value != "" then summary.value[..Min(200, |summary.value|)] else "No summary"
  }

  function BatchSummaryOf(c: NormalizedCandidate): BatchSummary {
    BatchSummary(
      c.id,
      c.name,
      if c.role.Some? && c.role.value != "" then c.role.value else "Not specified",
      if c.yearsOfExperience.Some? then c.yearsOfExperience.value else 0.0,
      Join(c.skills[..Min(15, |c.skills|)], ", "),
      ShortSummary(c.summary))
  }

  /** The projection keeps identity, falls back on defaults, shows at most fifteen
      skills and at most two hundred characters of summary. */
  lemma BatchSummaryOfSpec(c: NormalizedCandidate)
    ensures BatchSummaryOf(c).id == c.id && BatchSummaryOf(c).name == c.name
    ensures c.role.None? || c.role == Some("") ==> BatchSummaryOf(c).role == "Not specified"
    ensures c.role.Some? && c.role.value != "" ==> BatchSummaryOf(c).role == c.role.value
    ensures c.yearsOfExperience.None? ==> BatchSummaryOf(c).experience == 0.0
    ensures c.yearsOfExperience.Some? ==> BatchSummaryOf(c).experience == c.yearsOfExperience.value
    ensures |c.skills| <= 15 ==> BatchSummaryOf(c).skills == Join(c.skills, ", ")
    ensures |c.skills| > 15 ==> BatchSummaryOf(c).skills == Join(c.skills[..15], ", ")
    ensures c.summary.Some? && c.summary.value != "" ==>
              BatchSummaryOf(c).summary == c.summary.value[..Min(200, |c.summary.value|)]
    ensures c.summary.Some? && |c.summary.value| > 200 ==> |BatchSummaryOf(c).summary| == 200
    ensures c.summary.None? || c.summary == Some("") ==> BatchSummaryOf(c).summary == "No summary"
  {
    assert |c.skills| <= 15 ==> c.skills[..Min(15, |c.skills|)] == c.skills;
  }

  /** `candidates.map(...)`: one entry per candidate, in order. */
  function BatchSummaries(cs: seq<NormalizedCandidate>): (r: seq<BatchSummary>)
    ensures |r| == |cs| && forall i :: 0 <= i < |cs| ==> r[i] == BatchSummaryOf(cs[i])
  {
    seq(|cs|, i requires 0 <= i < |cs| => BatchSummaryOf(cs[i]))
  }

  /** `${role.minYearsExperience ? '- Minimum experience: N years' : ''}` */
  function MinLine(role: RoleRequirement, fracText: real -> string): (line: string)
    ensures line == "" <==> !role.minYearsExperience.Truthy()
  {
    if role.minYearsExperience.Truthy()
    then "- Minimum experience: " + NumberText(role.minYearsExperience.n, fracText) + " years"
    else ""
  }

  function MaxLine(role: RoleRequirement, fracText: real -> string): (line: string)
    ensures line == "" <==> !role.maxYearsExperience.Truthy()
  {
    if role.maxYearsExperience.Truthy()
    then "- Maximum experience: " + NumberText(role.maxYearsExperience.n, fracText) + " years"
    else ""
  }

  const EvaluatingPrefix := "You are evaluating "
  const CandidatesForA := " candidates for a "
  const PositionEnd := " position."

  function BatchHeader(n: nat, title: string): string {
    EvaluatingPrefix + NatText(n) + CandidatesForA + title + PositionEnd
  }

  /** The header names how many candidates are scored and for which role. */
  lemma BatchHeaderNames(n: nat, title: string)
    ensures OccursAt(BatchHeader(n, title), NatText(n), |EvaluatingPrefix|)
    ensures OccursAt(BatchHeader(n, title), title, |EvaluatingPrefix| + |NatText(n)| + |CandidatesForA|)
  {
    var h := BatchHeader(n, title);
    var a := |EvaluatingPrefix|;
    var b := a + |NatText(n)| + |CandidatesForA|;
    assert h[a..a + |NatText(n)|] == NatText(n);
    assert h[b..b + |title|] == title;
  }

  /** The batch-scoring prompt up to and including its candidate block, line by line. */
  function BatchScoringLines(cs: seq<NormalizedCandidate>, role: RoleRequirement,
                             stringify: seq<BatchSummary> -> string, fracText: real -> string): (lines: seq<string>)
    ensures |lines| == 11
    ensures lines[0] == BatchHeader(|cs|, role.title)
    ensures lines[6] == MinLine(role, fracText) && lines[7] == MaxLine(role, fracText)
    ensures lines[10] == stringify(BatchSummaries(cs))
  {
    [ BatchHeader(|cs|, role.title),
      "",
      "Requirements:",
      "- Seniority: " + role.seniority,
      "- Must-have skills: " + Join(role.mustHaveSkills, ", "),
      "- Nice-to-have skills: " + Join(role.niceToHaveSkills, ", "),
      MinLine(role, fracText),
      MaxLine(role, fracText),
      "",
      "Candidates:",
      stringify(BatchSummaries(cs)) ]
  }

  function BuildBatchScoringPrompt(cs: seq<NormalizedCandidate>, role: RoleRequirement,
                                   stringify: seq<BatchSummary> -> string, fracText: real -> string): string {
    Join(BatchScoringLines(cs, role, stringify, fracText), "\n")
  }

  /** One entry of the deep-analysis prompt's candidate list. */
  datatype DeepDetail = DeepDetail(
    id: string,
    name: string,
    email: string,
    role: string,
    yearsOfExperience: real,
    skills: string,
    experience: string,
    education: string,
    summary: Option<string>,
    portfolio: Option<JsonValue>,
    github: Option<JsonValue>,
    linkedin: Option<JsonValue>)

  /** `${e.role} at ${e.company} (${e.duration || 'duration unknown'})` */
  function ExperienceText(e: ExperienceItem, fracText: real -> string): string {
    ToText(e.role, fracText) + " at " + ToText(e.company, fracText)
    + " (" + ToText(Or(e.duration, Some(JStr("duration unknown"))), fracText) + ")"
  }

  /** `${e.degree} from ${e.institution}` */
  function EducationText(e: EducationItem, fracText: real -> string): string {
    ToText(e.degree, fracText) + " from " + ToText(e.institution, fracText)
  }

  function ExperienceTexts(items: seq<ExperienceItem>, fracText: real -> string): (r: seq<string>)
    ensures |r| == |items| && forall i :: 0 <= i < |items| ==> r[i] == ExperienceText(items[i], fracText)
  {
    seq(|items|, i requires 0 <= i < |items| => ExperienceText(items[i], fracText))
  }

  function EducationTexts(items: seq<EducationItem>, fracText: real -> string): (r: seq<string>)
    ensures |r| == |items| && forall i :: 0 <= i < |items| ==> r[i] == EducationText(items[i], fracText)
  {
    seq(|items|, i requires 0 <= i < |items| => EducationText(items[i], fracText))
  }

  function DeepDetailOf(c: NormalizedCandidate, fracText: real -> string): DeepDetail {
    DeepDetail(
      c.id, c.name, c.email,
      if c.role.Some? && c.role.value != "" then c.role.value else "Not specified",
      if c.yearsOfExperience.Some? then c.yearsOfExperience.value else 0.0,
      Join(c.skills, ", "),
      Join(ExperienceTexts(c.experience, fracText), "; "),
      Join(EducationTexts(c.education, fracText), "; "),
      c.summary, c.portfolio, c.github, c.linkedin)
  }

  /** A missing duration is shown as `duration unknown`; a given one is shown as itself. */
  lemma ExperienceTextDuration(e: ExperienceItem, fracText: real -> string)
    ensures !Truthy(e.duration) ==>
              ExperienceText(e, fracText) == ToText(e.role, fracText) + " at " + ToText(e.company, fracText) + " (duration unknown)"
    ensures e.duration.Some? && e.duration.value.JStr? && e.duration.value.s != "" ==>
              ExperienceText(e, fracText) == ToText(e.role, fracText) + " at " + ToText(e.company, fracText) + " (" + e.duration.value.s + ")"
  {
  }

  /** All skills are shown, and one experience text per entry. */
  lemma DeepDetailSpec(c: NormalizedCandidate, fracText: real -> string)
    ensures DeepDetailOf(c, fracText).skills == Join(c.skills, ", ")
    ensures DeepDetailOf(c, fracText).experience == Join(ExperienceTexts(c.experience, fracText), "; ")
    ensures |ExperienceTexts(c.experience, fracText)| == |c.experience|
    ensures c.experience == [] ==> DeepDetailOf(c, fracText).experience == ""
    ensures |c.experience| == 1 ==> DeepDetailOf(c, fracText).experience == ExperienceText(c.experience[0], fracText)
  {
  }

  function DeepDetails(cs: seq<NormalizedCandidate>, fracText: real -> string): (r: seq<DeepDetail>)
    ensures |r| == |cs| && forall i :: 0 <= i < |cs| ==> r[i] == DeepDetailOf(cs[i], fracText)
  {
    seq(|cs|, i requires 0 <= i < |cs| => DeepDetailOf(cs[i], fracText))
  }

  const SelectingPrefix := "You are selecting the top "
  const FromWord := " position from "
  const FinalistsEnd := " finalists."

  function DeepHeader(count: real, title: string, n: nat, fracText: real -> string): string {
    SelectingPrefix + NumberText(count, fracText) + CandidatesForA + title + FromWord + NatText(n) + FinalistsEnd
  }

  /** The header names how many candidates are wanted. */
  lemma DeepHeaderNamesCount(count: nat, title: string, n: nat, fracText: real -> string)
    ensures OccursAt(DeepHeader(count as real, title, n, fracText), NatText(count), |SelectingPrefix|)
  {
    var h := DeepHeader(count as real, title, n, fracText);
    assert NumberText(count as real, fracText) == NatText(count) by {
      assert (count as real).Floor == count;
    }
    var a := |SelectingPrefix|;
    assert h[a..a + |NatText(count)|] == NatText(count);
  }

  /** The deep-analysis prompt up to and including its candidate block, line by line. */
  function DeepAnalysisLines(cs: seq<NormalizedCandidate>, role: RoleRequirement, count: real,
                             stringify: seq<DeepDetail> -> string, fracText: real -> string): (lines: seq<string>)
    ensures |lines| == 12
    ensures lines[0] == DeepHeader(count, role.title, |cs|, fracText)
    ensures lines[7] == MinLine(role, fracText)
    ensures lines[11] == stringify(DeepDetails(cs, fracText))
  {
    [ DeepHeader(count, role.title, |cs|, fracText),
      "",
      "Requirements:",
      "- Role: " + role.title,
      "- Seniority: " + role.seniority,
      "- Must-have skills: " + Join(role.mustHaveSkills, ", "),
      "- Nice-to-have skills: " + Join(role.niceToHaveSkills, ", "),
      MinLine(role, fracText),
      "- Soft criteria: " + Join(role.softCriteria, ", "),
      "",
      "Candidates:",
      stringify(DeepDetails(cs, fracText)) ]
  }

  function BuildDeepAnalysisPrompt(cs: seq<NormalizedCandidate>, role: RoleRequirement, count: real,
                                   stringify: seq<DeepDetail> -> string, fracText: real -> string): string {
    Join(DeepAnalysisLines(cs, role, count, stringify, fracText), "\n")
  }
}
