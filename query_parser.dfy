/** Turning a free-text hiring query into role requirements: the model's reply is cut
    out of its fenced block, parsed, and every role gets its defaults. The chat call and
    `JSON.parse` are outside the model: the caller supplies the reply text and the parse
    outcome, already read into the reply's shape. */
module QueryParser {
  import opened Wrappers
  import opened Types
  import opened ResponseRepair

  /** A role object of the reply; `None` members are absent (`undefined`). */
  datatype RawRole = RawRole(
    title: string,
    count: Option<real>,
    seniority: Option<string>,
    mustHaveSkills: Option<seq<string>>,
    niceToHaveSkills: Option<seq<string>>,
    minYearsExperience: Bound,
    maxYearsExperience: Bound,
    salaryRange: Option<SalaryRange>,
    softCriteria: Option<seq<string>>)

  /** The parsed reply: `roles` is `None` when absent and an element is `None` when it is `null`. */
  datatype RawQuery = RawQuery(roles: Option<seq<Option<RawRole>>>)

  /** `x || d` for an optional list (every array is truthy). */
  function ListOr(x: Option<seq<string>>): seq<string> {
    if x.Some? then x.value else []
  }

  /** The role record built from one role object. */
  function RoleOf(r: RawRole): RoleRequirement {
    RoleRequirement(
      r.title,
      if r.count.Some? && r.count.value != 0.0 then r.count.value else 1.0,
      if r.seniority.Some? && r.seniority.value != "" then r.seniority.value else "any",
      ListOr(r.mustHaveSkills),
      ListOr(r.niceToHaveSkills),
      r.minYearsExperience,
      r.maxYearsExperience,
      r.salaryRange,
      ListOr(r.softCriteria))
  }

  /** What the defaults guarantee, and what is copied untouched. */
  lemma RoleDefaults(r: RawRole)
    ensures RoleOf(r).count != 0.0 && RoleOf(r).seniority != ""
    ensures r.count == Some(0.0) || r.count.None? ==> RoleOf(r).count == 1.0
    ensures r.seniority == Some("") || r.seniority.None? ==> RoleOf(r).seniority == "any"
    ensures r.mustHaveSkills.None? ==> RoleOf(r).mustHaveSkills == []
    ensures RoleOf(r).title == r.title
    ensures RoleOf(r).minYearsExperience == r.minYearsExperience
    ensures RoleOf(r).maxYearsExperience == r.maxYearsExperience
    ensures RoleOf(r).salaryRange == r.salaryRange
  {
  }

  /** The role object a role record would be written back as. */
  function RawOf(role: RoleRequirement): RawRole {
    RawRole(role.title, Some(role.count), Some(role.seniority), Some(role.mustHaveSkills),
            Some(role.niceToHaveSkills), role.minYearsExperience, role.maxYearsExperience,
            role.salaryRange, Some(role.softCriteria))
  }

  /** A role that already has its defaults reads back as itself, so applying the
      defaults twice is applying them once. */
  lemma RoleRoundTrip(role: RoleRequirement)
    requires role.count != 0.0 && role.seniority != ""
    ensures RoleOf(RawOf(role)) == role
  {
  }

  lemma RoleDefaultsIdempotent(r: RawRole)
    ensures RoleOf(RawOf(RoleOf(r))) == RoleOf(r)
  {
    RoleDefaults(r);
    RoleRoundTrip(RoleOf(r));
  }

  /** `parsed.roles.map(...)`: a missing list or a `null` role is a `TypeError`. */
  function RolesOf(roles: Option<seq<Option<RawRole>>>): (r: Result<seq<RoleRequirement>>)
    ensures r.Ok? <==> roles.Some? && forall i :: 0 <= i < |roles.value| ==> roles.value[i].Some?
    ensures r.Ok? ==> |r.value| == |roles.value|
                      && forall i :: 0 <= i < |r.value| ==> r.value[i] == RoleOf(roles.value[i].value)
  {
    if roles.None? then Err("Cannot read properties of undefined (reading 'map')")
    else RoleList(roles.value)
  }

  function RoleList(xs: seq<Option<RawRole>>): (r: Result<seq<RoleRequirement>>)
    ensures r.Ok? <==> forall i :: 0 <= i < |xs| ==> xs[i].Some?
    ensures r.Ok? ==> |r.value| == |xs| && forall i :: 0 <= i < |r.value| ==> r.value[i] == RoleOf(xs[i].value)
  {
    if xs == [] then Ok([])
    else
      var init := RoleList(xs[..|xs| - 1]);
      var last := xs[|xs| - 1];
      if init.Err? then init
      else if last.None? then Err("Cannot read properties of null (reading 'title')")
      else Ok(init.value + [RoleOf(last.value)])
  }

  /** `parseQuery` after the chat call: `content` is the reply text and `parse` stands
      for `JSON.parse` followed by reading the reply's shape. */
  function ParseQuery(query: string, content: string, parse: string -> Result<RawQuery>): (r: Result<ParsedQuery>)
    ensures r.Ok? <==> parse(JsonContent(content)).Ok? && RolesOf(parse(JsonContent(content)).value.roles).Ok?
    ensures r.Ok? ==> r.value.originalQuery == query
                      && r.value.roles == RolesOf(parse(JsonContent(content)).value.roles).value
  {
    var parsed :- parse(JsonContent(content));
    var roles :- RolesOf(parsed.roles);
    Ok(ParsedQuery(query, roles))
  }
}
