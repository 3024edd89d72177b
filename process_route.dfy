/** The processing endpoint: it validates the request, looks up the upload session,
    parses the query, then for each requested role filters the whole session pool,
    scores the survivors in batches and selects finalists, emitting a progress event at
    every phase. A run that succeeds ends with a `complete` event and one results
    frame; any error ends it with a single error event. The stream transport is left
    out: the emitted frames are collected in a sequence. */
module ProcessRoute {
  import opened Wrappers
  import opened Strings
  import opened Types
  import opened Seqs

  /** The two request members the route reads; a missing member is the empty string. */
  datatype Request = Request(sessionId: string, query: string)

  /** One frame of the event stream: a progress event, or the final results. */
  datatype Frame = Event(progress: ProcessingProgress) | Results(selections: seq<FinalSelection>)

  /** The pipeline's stages as the route calls them. `batchCount` is the number of
      batches the scorer reports through its progress callback, numbered 1 to that. */
  datatype Pipeline = Pipeline(
    parse: string -> Result<ParsedQuery>,
    filter: (seq<NormalizedCandidate>, RoleRequirement) -> seq<NormalizedCandidate>,
    score: (seq<NormalizedCandidate>, RoleRequirement) -> seq<ScoredCandidate>,
    batchCount: seq<NormalizedCandidate> -> nat,
    analyse: (seq<ScoredCandidate>, RoleRequirement) -> Result<seq<FinalSelection>>)

  const MissingFieldsMessage := "Missing sessionId or query"
  const SessionMissingMessage := "Session expired or not found. Please re-upload your file."
  const ParsingMessage := "Understanding your requirements..."
  const DefaultErrorMessage := "An error occurred during processing"
  const PreFilteringText := "Pre-filtering candidates for "
  const FilteredToText := "Filtered to "
  const CandidatesForText := " candidates for "
  const NoMatchText := "No candidates match the requirements for "
  const BroadenText := ". Try broadening your criteria."
  const ScoringText := "Scoring candidates for "
  const ScoringBatchText := "Scoring batch "
  const OfText := " of "
  const ForText := " for "
  const AnalysingText := "Performing deep analysis for "
  const FoundText := "Found "
  const PerfectText := " perfect candidates!"
  const Ellipsis := "..."

  // ---------------------------------------------------------------- events

  function Progress(stage: Stage, message: string, percentage: real): Frame {
    Event(ProcessingProgress(stage, message, percentage, None, None, None, None))
  }

  /** `error.message || 'An error occurred during processing'` */
  function ErrorText(message: string): string {
    if message == "" then DefaultErrorMessage else message
  }

  function ErrorFrame(message: string): Frame {
    Progress(Error, message, 0.0)
  }

  /** `(roleIndex / roles.length) * 100` */
  function RoleShare(i: nat, n: nat): (rp: real)
    requires i < n
    ensures 0.0 <= rp < 100.0
  {
    var q := (i as real) / (n as real);
    assert q * (n as real) == i as real;
    (i as real) / (n as real) * 100.0
  }

  function FilteringStart(role: RoleRequirement, rp: real, total: nat): Frame {
    Event(ProcessingProgress(Filtering, PreFilteringText + role.title + Ellipsis,
                             10.0 + rp * 0.2, None, Some(total), None, None))
  }

  function FilteringDone(role: RoleRequirement, rp: real, kept: nat, total: nat): Frame {
    Event(ProcessingProgress(Filtering, FilteredToText + NatText(kept) + CandidatesForText + role.title,
                             30.0 + rp * 0.2, Some(kept), Some(total), None, None))
  }

  function NoMatch(role: RoleRequirement, rp: real): Frame {
    Progress(Error, NoMatchText + role.title + BroadenText,
             30.0 + rp * 0.2)
  }

  function ScoringStart(role: RoleRequirement, rp: real): Frame {
    Progress(Scoring, ScoringText + role.title + Ellipsis, 40.0 + rp * 0.3)
  }

  /** The event the scorer's progress callback sends for batch `current` of `total`. */
  function BatchFrame(role: RoleRequirement, rp: real, current: nat, total: nat): Frame
    requires 0 < total
  {
    Event(ProcessingProgress(Scoring, ScoringBatchText + NatText(current) + OfText + NatText(total) + ForText + role.title + Ellipsis,
                             40.0 + rp * 0.3 + (current as real) / (total as real) * 20.0,
                             None, None, Some(current), Some(total)))
  }

  function BatchFrames(role: RoleRequirement, rp: real, total: nat): (r: seq<Frame>)
    ensures |r| == total
    ensures forall k :: 0 <= k < total ==> r[k] == BatchFrame(role, rp, k + 1, total)
  {
    seq(total, k requires 0 <= k < total => BatchFrame(role, rp, k + 1, total))
  }

  function AnalysingStart(role: RoleRequirement, rp: real): Frame {
    Progress(Analyzing, AnalysingText + role.title + Ellipsis, 70.0 + rp * 0.25)
  }

  function CompleteFrame(selections: seq<FinalSelection>): Frame {
    Progress(Complete, FoundText + NatText(|selections|) + PerfectText, 100.0)
  }

  // ---------------------------------------------------------------- the run

  /** The frames role `i` of `roles` emits; a role nothing survives the filter for ends
      with an error-stage event and goes no further. */
  function RoleFrames(pool: seq<NormalizedCandidate>, roles: seq<RoleRequirement>, i: nat, p: Pipeline): seq<Frame>
    requires i < |roles|
  {
    var role := roles[i];
    var rp := RoleShare(i, |roles|);
    var filtered := p.filter(pool, role);
    var head := [FilteringStart(role, rp, |pool|), FilteringDone(role, rp, |filtered|, |pool|)];
    if filtered == [] then head + [NoMatch(role, rp)]
    else head + [ScoringStart(role, rp)] + BatchFrames(role, rp, p.batchCount(filtered)) + [AnalysingStart(role, rp)]
  }

  /** What a role contributes: nothing when the filter keeps nobody, else the analysis
      of the scored survivors of the whole pool. */
  function RoleOutcome(pool: seq<NormalizedCandidate>, role: RoleRequirement, p: Pipeline): Result<seq<FinalSelection>> {
    var filtered := p.filter(pool, role);
    if filtered == [] then Ok([]) else p.analyse(p.score(filtered, role), role)
  }

  /** What one role contributes to the run. */
  datatype Turn = Turn(frames: seq<Frame>, outcome: Result<seq<FinalSelection>>)

  function RoleTurnOf(pool: seq<NormalizedCandidate>, roles: seq<RoleRequirement>, i: nat, p: Pipeline): Turn
    requires i < |roles|
  {
    Turn(RoleFrames(pool, roles, i, p), RoleOutcome(pool, roles[i], p))
  }

  /** The turns of the first `k` roles, each on the same whole pool. */
  function Turns(pool: seq<NormalizedCandidate>, roles: seq<RoleRequirement>, k: nat, p: Pipeline): (ts: seq<Turn>)
    requires k <= |roles|
    ensures |ts| == k
  {
    if k == 0 then [] else Turns(pool, roles, k - 1, p) + [RoleTurnOf(pool, roles, k - 1, p)]
  }

  lemma {:induction false} TurnsAt(pool: seq<NormalizedCandidate>, roles: seq<RoleRequirement>, k: nat, p: Pipeline, i: nat)
    requires i < k <= |roles|
    ensures Turns(pool, roles, k, p)[i] == RoleTurnOf(pool, roles, i, p)
  {
    if i < k - 1 {
      TurnsAt(pool, roles, k - 1, p, i);
    }
  }

  /** The frames and the selections after the first `k` turns; the first failure stops. */
  datatype Run = Run(frames: seq<Frame>, outcome: Result<seq<FinalSelection>>)

  function RunOf(ts: seq<Turn>, k: nat): Run
    requires k <= |ts|
  {
    if k == 0 then Run([], Ok([]))
    else
      var before := RunOf(ts, k - 1);
      var t := ts[k - 1];
      if before.outcome.Err? then before
      else if t.outcome.Err? then Run(before.frames + t.frames, Err(t.outcome.message))
      else Run(before.frames + t.frames, Ok(before.outcome.value + t.outcome.value))
  }

  /** The role loop's result. */
  function RolesRun(pool: seq<NormalizedCandidate>, roles: seq<RoleRequirement>, p: Pipeline): Run {
    RunOf(Turns(pool, roles, |roles|, p), |roles|)
  }

  /** How a run that got past the query ends. */
  function Ending(outcome: Result<seq<FinalSelection>>): seq<Frame> {
    if outcome.Err? then [ErrorFrame(ErrorText(outcome.message))]
    else [CompleteFrame(outcome.value), Results(outcome.value)]
  }

  /** Everything the endpoint emits. `body` is the request as read (`Err` when it is not
      JSON) and `session` what the session lookup found. */
  function ProcessFrames(body: Result<Request>, session: Option<SessionData>, p: Pipeline): seq<Frame> {
    if body.Err? then [ErrorFrame(ErrorText(body.message))]
    else if body.value.sessionId == "" || body.value.query == "" then [ErrorFrame(MissingFieldsMessage)]
    else if session.None? then [ErrorFrame(SessionMissingMessage)]
    else
      var parsing := Progress(Parsing, ParsingMessage, 5.0);
      var parsed := p.parse(body.value.query);
      if parsed.Err? then [parsing, ErrorFrame(ErrorText(parsed.message))]
      else
        var run := RolesRun(session.value.candidates, parsed.value.roles, p);
        [parsing] + run.frames + Ending(run.outcome)
  }

  // ---------------------------------------------------------------- the loop

  /** The body of the role loop for role `i`; a role nothing survives the filter for
      stops after its error-stage event (the source's `continue`). */
  method RoleTurn(pool: seq<NormalizedCandidate>, roles: seq<RoleRequirement>, i: nat, p: Pipeline)
    returns (frames: seq<Frame>, selections: Result<seq<FinalSelection>>)
    requires i < |roles|
    ensures Turn(frames, selections) == RoleTurnOf(pool, roles, i, p)
  {
    var role := roles[i];
    var rp := RoleShare(i, |roles|);
    frames := [FilteringStart(role, rp, |pool|)];
    var filtered := p.filter(pool, role);
    frames := frames + [FilteringDone(role, rp, |filtered|, |pool|)];
    if |filtered| == 0 {
      frames := frames + [NoMatch(role, rp)];
      return frames, Ok([]);
    }
    frames := frames + [ScoringStart(role, rp)];
    var scored := p.score(filtered, role);
    frames := frames + BatchFrames(role, rp, p.batchCount(filtered));
    frames := frames + [AnalysingStart(role, rp)];
    selections := p.analyse(scored, role);
  }

  /** The role loop; `failure` is the error that ended it early. */
  method RunRoles(pool: seq<NormalizedCandidate>, roles: seq<RoleRequirement>, p: Pipeline)
    returns (frames: seq<Frame>, failure: Option<string>, allSelections: seq<FinalSelection>)
    ensures var run := RolesRun(pool, roles, p);
            frames == run.frames
            && (failure.None? <==> run.outcome.Ok?)
            && (failure.Some? ==> run.outcome == Err(failure.value))
            && (failure.None? ==> allSelections == run.outcome.value)
  {
    ghost var ts := Turns(pool, roles, |roles|, p);
    frames := [];
    failure := None;
    allSelections := [];
    var roleIndex := 0;
    while roleIndex < |roles|
      invariant roleIndex <= |roles|
      invariant RunOf(ts, roleIndex) == Run(frames, Ok(allSelections))
    {
      var roleFrames, selections := RoleTurn(pool, roles, roleIndex, p);
      TurnsAt(pool, roles, |roles|, p, roleIndex);
      frames := frames + roleFrames;
      if selections.Err? {
        failure := Some(selections.message);
        FailureStays(ts, roleIndex + 1, |roles|);
        return;
      }
      allSelections := allSelections + selections.value;
      roleIndex := roleIndex + 1;
    }
  }

  /** The `POST` stream body over a session already looked up. */
  method ProcessWith(body: Result<Request>, session: Option<SessionData>, p: Pipeline) returns (frames: seq<Frame>)
    ensures frames == ProcessFrames(body, session, p)
  {
    if body.Err? {
      return [ErrorFrame(ErrorText(body.message))];
    }
    var request := body.value;
    if request.sessionId == "" || request.query == "" {
      return [ErrorFrame(MissingFieldsMessage)];
    }
    if session.None? {
      return [ErrorFrame(SessionMissingMessage)];
    }
    var candidates := session.value.candidates;
    frames := [Progress(Parsing, ParsingMessage, 5.0)];
    var parsed := p.parse(request.query);
    if parsed.Err? {
      frames := frames + [ErrorFrame(ErrorText(parsed.message))];
      return;
    }
    var roleFrames, failure, allSelections := RunRoles(candidates, parsed.value.roles, p);
    frames := frames + roleFrames;
    if failure.Some? {
      frames := frames + [ErrorFrame(ErrorText(failure.value))];
      return;
    }
    frames := frames + [CompleteFrame(allSelections), Results(allSelections)];
  }

  // ---------------------------------------------------------------- properties

  /** Both members present and non-empty. */
  predicate WellFormed(body: Result<Request>) {
    body.Ok? && body.value.sessionId != "" && body.value.query != ""
  }


  /** Once a turn fails, later turns add nothing. */
  lemma {:induction false} FailureStays(ts: seq<Turn>, k: nat, m: nat)
    requires k <= m <= |ts| && RunOf(ts, k).outcome.Err?
    ensures RunOf(ts, m) == RunOf(ts, k)
    decreases m
  {
    if m > k {
      FailureStays(ts, k, m - 1);
    }
  }

  /** A property of every frame of every turn holds of every frame of the run. */
  lemma {:induction false} RunFramesFrom(ts: seq<Turn>, k: nat, prop: Frame -> bool)
    requires k <= |ts|
    requires forall i, j :: 0 <= i < |ts| && 0 <= j < |ts[i].frames| ==> prop(ts[i].frames[j])
    ensures forall j :: 0 <= j < |RunOf(ts, k).frames| ==> prop(RunOf(ts, k).frames[j])
  {
    if k > 0 {
      RunFramesFrom(ts, k - 1, prop);
    }
  }

  /** The run succeeds exactly when every turn does, and then its selections are the
      turns' selections concatenated in order. */
  lemma {:induction false} RunCollects(ts: seq<Turn>, k: nat)
    requires k <= |ts|
    ensures RunOf(ts, k).outcome.Ok? <==> forall i :: 0 <= i < k ==> ts[i].outcome.Ok?
    ensures RunOf(ts, k).outcome.Ok? ==> RunOf(ts, k).outcome.value == Flatten(Selected(ts[..k]))
  {
    if k > 0 {
      RunCollects(ts, k - 1);
      var before := RunOf(ts, k - 1);
      if before.outcome.Err? {
        var i :| 0 <= i < k - 1 && !ts[i].outcome.Ok?;
      } else if ts[k - 1].outcome.Ok? {
        var xs := Selected(ts[..k - 1]);
        assert Selected(ts[..k]) == xs + [ts[k - 1].outcome.value];
        FlattenSnoc(xs, ts[k - 1].outcome.value);
      }
    }
  }

  /** Each turn's selections, or nothing for a failed one. */
  function Selected(ts: seq<Turn>): (r: seq<seq<FinalSelection>>)
    ensures |r| == |ts|
  {
    seq(|ts|, i requires 0 <= i < |ts| => if ts[i].outcome.Ok? then ts[i].outcome.value else [])
  }

  /** An event with its percentage between 0 and 100. */
  predicate InRange(f: Frame) {
    f.Event? && 0.0 <= f.progress.percentage <= 100.0
  }

  lemma {:induction false} BatchFramesInRange(role: RoleRequirement, rp: real, total: nat)
    requires 0.0 <= rp < 100.0
    ensures forall k :: 0 <= k < total ==> InRange(BatchFrames(role, rp, total)[k])
  {
    forall k | 0 <= k < total ensures InRange(BatchFrames(role, rp, total)[k]) {
      var c := (k + 1) as real;
      var t := total as real;
      assert c / t * t == c;
      assert c / t <= 1.0;
    }
  }

  lemma {:induction false} RoleFramesInRange(pool: seq<NormalizedCandidate>, roles: seq<RoleRequirement>, i: nat, p: Pipeline)
    requires i < |roles|
    ensures forall k :: 0 <= k < |RoleFrames(pool, roles, i, p)| ==> InRange(RoleFrames(pool, roles, i, p)[k])
  {
    var role := roles[i];
    var rp := RoleShare(i, |roles|);
    var filtered := p.filter(pool, role);
    if filtered != [] {
      BatchFramesInRange(role, rp, p.batchCount(filtered));
    }
  }

  lemma RolesRunInRange(pool: seq<NormalizedCandidate>, roles: seq<RoleRequirement>, p: Pipeline)
    ensures forall j :: 0 <= j < |RolesRun(pool, roles, p).frames| ==> InRange(RolesRun(pool, roles, p).frames[j])
  {
    var ts := Turns(pool, roles, |roles|, p);
    forall i, j | 0 <= i < |ts| && 0 <= j < |ts[i].frames| ensures InRange(ts[i].frames[j]) {
      TurnsAt(pool, roles, |roles|, p, i);
      RoleFramesInRange(pool, roles, i, p);
    }
    RunFramesFrom(ts, |roles|, InRange);
  }

  /** Every frame the endpoint sends before its last is a progress event, and every
      percentage it reports lies between 0 and 100. */
  lemma PercentagesInRange(body: Result<Request>, session: Option<SessionData>, p: Pipeline)
    ensures var fs := ProcessFrames(body, session, p);
            forall j :: 0 <= j < |fs| && fs[j].Event? ==> 0.0 <= fs[j].progress.percentage <= 100.0
    ensures var fs := ProcessFrames(body, session, p);
            forall j :: 0 <= j < |fs| - 1 ==> fs[j].Event?
  {
    if WellFormed(body) && session.Some? && p.parse(body.value.query).Ok? {
      RolesRunInRange(session.value.candidates, p.parse(body.value.query).value.roles, p);
    }
  }

  /** A malformed request or an unknown session yields one error event at 0%, and
      nothing else; otherwise the first event is `parsing` at 5%. */
  lemma EarlyExits(body: Result<Request>, session: Option<SessionData>, p: Pipeline)
    ensures !WellFormed(body) || session.None? ==>
              |ProcessFrames(body, session, p)| == 1
              && ProcessFrames(body, session, p)[0].Event?
              && ProcessFrames(body, session, p)[0].progress.stage == Error
              && ProcessFrames(body, session, p)[0].progress.percentage == 0.0
    ensures WellFormed(body) && session.None? ==> ProcessFrames(body, session, p) == [ErrorFrame(SessionMissingMessage)]
    ensures body.Ok? && !WellFormed(body) ==> ProcessFrames(body, session, p) == [ErrorFrame(MissingFieldsMessage)]
    ensures WellFormed(body) && session.Some? ==>
              |ProcessFrames(body, session, p)| >= 2
              && ProcessFrames(body, session, p)[0] == Progress(Parsing, ParsingMessage, 5.0)
  {
  }

  /** There is at most one results frame. It is the last frame, right after a `complete`
      event at 100%, and it appears exactly when the query parsed and every role
      succeeded; otherwise the last frame is an error event at 0%. */
  lemma ResultsFrame(body: Result<Request>, session: Option<SessionData>, p: Pipeline)
    ensures var fs := ProcessFrames(body, session, p);
            forall j :: 0 <= j < |fs| && fs[j].Results? ==>
              j == |fs| - 1 && j >= 1 && fs[j - 1] == CompleteFrame(fs[j].selections)
    ensures var fs := ProcessFrames(body, session, p);
            fs[|fs| - 1].Results? <==>
              WellFormed(body) && session.Some? && p.parse(body.value.query).Ok?
              && RolesRun(session.value.candidates, p.parse(body.value.query).value.roles, p).outcome.Ok?
    ensures var fs := ProcessFrames(body, session, p);
            !fs[|fs| - 1].Results? ==>
              (fs[|fs| - 1].Event? && fs[|fs| - 1].progress.stage == Error && fs[|fs| - 1].progress.percentage == 0.0)
  {
    if WellFormed(body) && session.Some? && p.parse(body.value.query).Ok? {
      RolesRunInRange(session.value.candidates, p.parse(body.value.query).value.roles, p);
    }
  }

  /** The roles succeed exactly when each does, and then the selections are the
      concatenation, in role order, of what each role yields on the full session pool:
      nothing is removed from the pool between roles. */
  lemma RolesRunCollects(pool: seq<NormalizedCandidate>, roles: seq<RoleRequirement>, p: Pipeline)
    ensures RolesRun(pool, roles, p).outcome.Ok? <==> forall i :: 0 <= i < |roles| ==> RoleOutcome(pool, roles[i], p).Ok?
    ensures RolesRun(pool, roles, p).outcome.Ok? ==>
              RolesRun(pool, roles, p).outcome.value
              == Flatten(seq(|roles|, i requires 0 <= i < |roles| => RoleOutcome(pool, roles[i], p).value))
  {
    var ts := Turns(pool, roles, |roles|, p);
    RunCollects(ts, |roles|);
    assert ts[..|roles|] == ts;
    forall i | 0 <= i < |roles| ensures ts[i].outcome == RoleOutcome(pool, roles[i], p) {
      TurnsAt(pool, roles, |roles|, p, i);
    }
    if RolesRun(pool, roles, p).outcome.Ok? {
      assert Selected(ts) == seq(|roles|, i requires 0 <= i < |roles| => RoleOutcome(pool, roles[i], p).value);
    }
  }

  /** A role nothing survives the filter for sends its two filtering events and an
      error-stage event, no scoring or analysing event, and contributes no selections. */
  lemma EmptyRoleSkipped(pool: seq<NormalizedCandidate>, roles: seq<RoleRequirement>, i: nat, p: Pipeline)
    requires i < |roles| && p.filter(pool, roles[i]) == []
    ensures var fs := RoleFrames(pool, roles, i, p);
            |fs| == 3 && fs[2] == NoMatch(roles[i], RoleShare(i, |roles|)) && fs[2].progress.stage == Error
            && forall k :: 0 <= k < 3 ==> fs[k].progress.stage != Scoring && fs[k].progress.stage != Analyzing
    ensures RoleOutcome(pool, roles[i], p) == Ok([])
  {
  }

  /** A role whose analysis fails ends the whole run: the frames stop with that role's
      analysing event, an error event at 0% follows, and no results frame is sent. */
  lemma FailureEndsRun(body: Result<Request>, session: Option<SessionData>, p: Pipeline, i: nat)
    requires WellFormed(body) && session.Some? && p.parse(body.value.query).Ok?
    requires var roles := p.parse(body.value.query).value.roles;
             i < |roles| && RunOf(Turns(session.value.candidates, roles, |roles|, p), i).outcome.Ok?
             && RoleOutcome(session.value.candidates, roles[i], p).Err?
    ensures var roles := p.parse(body.value.query).value.roles;
            var pool := session.value.candidates;
            ProcessFrames(body, session, p)
            == [Progress(Parsing, ParsingMessage, 5.0)] + RunOf(Turns(pool, roles, |roles|, p), i).frames + RoleFrames(pool, roles, i, p)
               + [ErrorFrame(ErrorText(RoleOutcome(pool, roles[i], p).message))]
  {
    var roles := p.parse(body.value.query).value.roles;
    var pool := session.value.candidates;
    var ts := Turns(pool, roles, |roles|, p);
    TurnsAt(pool, roles, |roles|, p, i);
    assert RunOf(ts, i + 1).outcome.Err?;
    FailureStays(ts, i + 1, |roles|);
  }
}

/** The endpoint as deployed: the pipeline stages are the modelled query parser, filter,
    batch scorer and deep analyser, and the session comes from the session store. */
module ProcessEndpoint {
  import opened Wrappers
  import opened Types
  import opened QueryParser
  import opened RuleBasedFilter
  import opened BatchProcessor
  import opened DeepAnalyzer
  import opened Cache
  import opened ProcessRoute

  /** `parseQuery(query, mistralClient)`: the chat call, given the query, answers with the
      reply text; its prompt wording is not modelled. */
  function QueryStep(query: string, ask: string -> Result<string>, parse: string -> Result<RawQuery>): Result<ParsedQuery> {
    var content :- ask(query);
    ParseQuery(query, content, parse)
  }

  /** The stages the endpoint wires together: the corrected rule-based filter on the
      role's criteria, the batch scorer, and deep analysis for `role.count` people. */
  function RoutePipeline(ask: string -> Result<string>, parse: string -> Result<RawQuery>,
                         so: ScoringOracles, ao: AnalysisOracles): Pipeline {
    Pipeline(
      (q: string) => QueryStep(q, ask, parse),
      (cs: seq<NormalizedCandidate>, role: RoleRequirement) => ApplyRuleBasedFilter(cs, CriteriaOf(role)),
      (cs: seq<NormalizedCandidate>, role: RoleRequirement) => ProcessedScores(cs, role, so),
      (cs: seq<NormalizedCandidate>) => |Batches(cs)|,
      (top: seq<ScoredCandidate>, role: RoleRequirement) => PerformDeepAnalysis(top, role, role.count, ao))
  }

  /** `POST /api/process`: the session is looked up (and dropped if expired) only once
      the request is well formed. */
  method Post<D>(cache: CacheManager<D>, now: int, body: Result<Request>, ask: string -> Result<string>,
                 parse: string -> Result<RawQuery>, so: ScoringOracles, ao: AnalysisOracles)
    returns (frames: seq<Frame>)
    modifies cache
    ensures WellFormed(body) ==>
              frames == ProcessFrames(body, Live(old(cache.sessions), body.value.sessionId, now, SessionExpiry),
                                      RoutePipeline(ask, parse, so, ao))
              && cache.sessions == AfterRead(old(cache.sessions), body.value.sessionId, now, SessionExpiry)
    ensures !WellFormed(body) ==>
              frames == ProcessFrames(body, None, RoutePipeline(ask, parse, so, ao)) && cache.sessions == old(cache.sessions)
    ensures cache.cache == old(cache.cache)
  {
    var p := RoutePipeline(ask, parse, so, ao);
    if WellFormed(body) {
      var session := cache.GetSession(body.value.sessionId, now);
      frames := ProcessWith(body, session, p);
    } else {
      frames := ProcessWith(body, None, p);
    }
  }
}
