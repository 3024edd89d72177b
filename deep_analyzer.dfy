/** The final, detailed selection for one role among its best-scored candidates, and the
    multi-role selector that runs filter, batch scoring and deep analysis role after role,
    taking the chosen candidates out of the pool. The chat call, `JSON.parse` read into
    the reply's shape, `JSON.stringify` of the prompt's candidate list, the markdown
    passes and the text of non-integer numbers are supplied by the caller. */
module DeepAnalyzer {
  import opened Wrappers
  import opened Json
  import opened Types
  import opened Seqs
  import opened Sorting
  import opened ResponseRepair
  import opened PromptBuilder
  import opened RuleBasedFilter
  import opened BatchProcessor

  const MaxFinalists: nat := 50

  /** One element of the reply's `selections` list; `None` lists are absent. */
  datatype RawSelection = RawSelection(
    id: Option<JsonValue>,
    rank: real,
    matchPercentage: real,
    strengths: Option<seq<string>>,
    concerns: Option<seq<string>>,
    uniqueQualities: Option<seq<string>>,
    detailedReasoning: string)

  datatype AnalysisOracles = AnalysisOracles(
    chat: string -> Result<string>,
    parseSelections: string -> Result<seq<RawSelection>>,
    stringify: seq<DeepDetail> -> string,
    markdownStrip: string -> string,
    fracText: real -> string)

  /** `topCandidates.slice(0, Math.min(50, length)).map(sc => sc.candidate)` */
  function Finalists(top: seq<ScoredCandidate>): (r: seq<NormalizedCandidate>)
    ensures |r| == Min(MaxFinalists, |top|)
    ensures forall i :: 0 <= i < |r| ==> r[i] == top[i].candidate
  {
    seq(Min(MaxFinalists, |top|), i requires 0 <= i < Min(MaxFinalists, |top|) => top[i].candidate)
  }

  function ListOr(x: Option<seq<string>>): seq<string> {
    if x.Some? then x.value else []
  }

  function SelectionOf(c: NormalizedCandidate, role: RoleRequirement, s: RawSelection): FinalSelection {
    FinalSelection(c, role.title, s.matchPercentage, ListOr(s.strengths), ListOr(s.concerns),
                   ListOr(s.uniqueQualities), s.detailedReasoning, s.rank)
  }

  /** The entry made from a returned selection: the first finalist with the selection's
      id, with the selection's fields and the role's title. */
  predicate SelectedFrom(candidates: seq<NormalizedCandidate>, role: RoleRequirement, s: RawSelection, e: FinalSelection) {
    FirstWithId(candidates, s.id, e.candidate) && e == SelectionOf(e.candidate, role, s)
  }

  lemma SelectedSnoc(candidates: seq<NormalizedCandidate>, role: RoleRequirement, pre: seq<RawSelection>, s: RawSelection,
                     entries: seq<FinalSelection>, e: FinalSelection)
    requires |entries| == |pre| && forall i :: 0 <= i < |pre| ==> SelectedFrom(candidates, role, pre[i], entries[i])
    requires SelectedFrom(candidates, role, s, e)
    ensures forall i :: 0 <= i < |pre| + 1 ==> SelectedFrom(candidates, role, (pre + [s])[i], (entries + [e])[i])
  {
    forall i | 0 <= i < |pre| + 1
      ensures SelectedFrom(candidates, role, (pre + [s])[i], (entries + [e])[i])
    {
      if i < |pre| {
        assert (pre + [s])[i] == pre[i] && (entries + [e])[i] == entries[i];
      }
    }
  }

  /** `parsed.selections.map(...)`: each selection is tied to the first finalist with its
      id; an unknown id throws `Candidate … not found`, the first one in reply order. */
  function SelectionEntries(candidates: seq<NormalizedCandidate>, role: RoleRequirement, sels: seq<RawSelection>,
                            fracText: real -> string): (r: Result<seq<FinalSelection>>)
    ensures r.Ok? <==> forall i :: 0 <= i < |sels| ==> Known(candidates, sels[i].id)
    ensures r.Ok? ==> |r.value| == |sels|
    ensures r.Ok? ==> forall i :: 0 <= i < |r.value| ==> SelectedFrom(candidates, role, sels[i], r.value[i])
  {
    if sels == [] then Ok([])
    else
      var pre := sels[..|sels| - 1];
      var init := SelectionEntries(candidates, role, pre, fracText);
      var s := sels[|sels| - 1];
      var found := Find(candidates, (c: NormalizedCandidate) => HasId(c, s.id));
      if init.Err? then init
      else if found.None? then Err("Candidate " + ToText(s.id, fracText) + " not found")
      else
        FindById(candidates, s.id);
        var e := SelectionOf(found.value, role, s);
        SelectedSnoc(candidates, role, pre, s, init.value, e);
        assert pre + [s] == sels;
        Ok(init.value + [e])
  }

  /** `(a, b) => a.rank - b.rank` */
  function Rank(s: FinalSelection): real {
    s.rank
  }

  /** One parse attempt: parse, id mapping, then the sort by ascending rank. */
  function SelectionAttempt(candidates: seq<NormalizedCandidate>, role: RoleRequirement, text: string,
                            o: AnalysisOracles): Result<seq<FinalSelection>> {
    var sels :- o.parseSelections(text);
    var entries :- SelectionEntries(candidates, role, sels, o.fracText);
    Ok(SortBy(entries, Rank))
  }

  /** The text of the second attempt: cleaned, then cut to its braces. */
  function RepairedText(jsonContent: string, o: AnalysisOracles): string {
    TrimToBraces(Cleanup(jsonContent, o.markdownStrip))
  }

  /** Both parse attempts over the model's reply: the fenced-block text, then the
      repaired text; the second attempt's failure is the result's. */
  function AnalyseReply(candidates: seq<NormalizedCandidate>, role: RoleRequirement, content: string,
                        o: AnalysisOracles): Result<seq<FinalSelection>> {
    var jsonContent := JsonContent(content);
    var first := SelectionAttempt(candidates, role, jsonContent, o);
    if first.Ok? then first
    else SelectionAttempt(candidates, role, RepairedText(jsonContent, o), o)
  }

  /** `performDeepAnalysis`: a failed chat call is passed on to the caller. */
  function PerformDeepAnalysis(top: seq<ScoredCandidate>, role: RoleRequirement, count: real,
                               o: AnalysisOracles): Result<seq<FinalSelection>> {
    var candidates := Finalists(top);
    var content :- o.chat(BuildDeepAnalysisPrompt(candidates, role, count, o.stringify, o.fracText));
    AnalyseReply(candidates, role, content, o)
  }

  /** A successful attempt is sorted by rank, keeps every returned selection, ties each
      to a finalist, and fills missing lists with `[]`. */
  lemma SelectionAttemptSpec(candidates: seq<NormalizedCandidate>, role: RoleRequirement, text: string, o: AnalysisOracles)
    requires o.parseSelections(text).Ok?
    ensures var r := SelectionAttempt(candidates, role, text, o);
            var sels := o.parseSelections(text).value;
            r.Ok? ==> SortedBy(r.value, Rank) && |r.value| == |sels|
                      && multiset(r.value) == multiset(SelectionEntries(candidates, role, sels, o.fracText).value)
    ensures var r := SelectionAttempt(candidates, role, text, o);
            var sels := o.parseSelections(text).value;
            r.Ok? <==> forall i :: 0 <= i < |sels| ==> Known(candidates, sels[i].id)
  {
  }

  /** Every entry of a successful attempt is a finalist's, for the role. */
  lemma SelectionAttemptMembers(candidates: seq<NormalizedCandidate>, role: RoleRequirement, text: string, o: AnalysisOracles)
    ensures var r := SelectionAttempt(candidates, role, text, o);
            r.Ok? ==> SortedBy(r.value, Rank) && forall e :: e in r.value ==> e.candidate in candidates && e.role == role.title
  {
    var r := SelectionAttempt(candidates, role, text, o);
    if r.Ok? {
      var entries := SelectionEntries(candidates, role, o.parseSelections(text).value, o.fracText).value;
      forall e | e in r.value ensures e.candidate in candidates && e.role == role.title {
        assert e in multiset(r.value);
        assert e in multiset(entries);
        var k :| 0 <= k < |entries| && entries[k] == e;
      }
    }
  }

  lemma AnalyseReplyMembers(candidates: seq<NormalizedCandidate>, role: RoleRequirement, content: string, o: AnalysisOracles)
    ensures var r := AnalyseReply(candidates, role, content, o);
            r.Ok? ==> SortedBy(r.value, Rank) && forall e :: e in r.value ==> e.candidate in candidates && e.role == role.title
  {
    var jsonContent := JsonContent(content);
    SelectionAttemptMembers(candidates, role, jsonContent, o);
    SelectionAttemptMembers(candidates, role, RepairedText(jsonContent, o), o);
  }

  /** Every selected candidate is one of the first fifty scored candidates, and every
      selection is for the role, sorted by rank. */
  lemma DeepAnalysisSpec(top: seq<ScoredCandidate>, role: RoleRequirement, count: real, o: AnalysisOracles)
    ensures var r := PerformDeepAnalysis(top, role, count, o);
            r.Ok? ==> SortedBy(r.value, Rank)
                      && forall e :: e in r.value ==> e.candidate in Finalists(top) && e.role == role.title
  {
    var candidates := Finalists(top);
    var reply := o.chat(BuildDeepAnalysisPrompt(candidates, role, count, o.stringify, o.fracText));
    if reply.Ok? {
      assert PerformDeepAnalysis(top, role, count, o) == AnalyseReply(candidates, role, reply.value, o);
      AnalyseReplyMembers(candidates, role, reply.value, o);
    }
  }

  /** A reply naming a candidate outside the finalists fails that attempt. */
  lemma UnknownSelectionFails(candidates: seq<NormalizedCandidate>, role: RoleRequirement, sels: seq<RawSelection>,
                              fracText: real -> string, i: nat)
    requires i < |sels| && forall c :: c in candidates ==> !HasId(c, sels[i].id)
    ensures SelectionEntries(candidates, role, sels, fracText).Err?
  {
  }

  /** When the first attempt fails, the second attempt decides, error included. */
  lemma SecondAttemptDecides(candidates: seq<NormalizedCandidate>, role: RoleRequirement, content: string, o: AnalysisOracles)
    requires SelectionAttempt(candidates, role, JsonContent(content), o).Err?
    ensures AnalyseReply(candidates, role, content, o)
              == SelectionAttempt(candidates, role, TrimToBraces(Cleanup(JsonContent(content), o.markdownStrip)), o)
  {
  }

  // ---------------------------------------------------------------- multi-role selection

  function SelectedIds(selections: seq<FinalSelection>): (ids: seq<string>)
    ensures |ids| == |selections| && forall i :: 0 <= i < |ids| ==> ids[i] == selections[i].candidate.id
  {
    seq(|selections|, i requires 0 <= i < |selections| => selections[i].candidate.id)
  }

  /** The pool without the candidates whose id was selected. */
  function Remaining(pool: seq<NormalizedCandidate>, ids: seq<string>): seq<NormalizedCandidate> {
    Filter(pool, (c: NormalizedCandidate) => c.id !in ids)
  }

  /** Exactly the selected ids leave the pool, and the rest keep their order. */
  lemma RemainingSpec(pool: seq<NormalizedCandidate>, ids: seq<string>)
    ensures IsSubsequence(Remaining(pool, ids), pool)
    ensures forall c :: c in Remaining(pool, ids) <==> c in pool && c.id !in ids
  {
    FilterIsSubsequence(pool, (c: NormalizedCandidate) => c.id !in ids);
    FilterMembers(pool, (c: NormalizedCandidate) => c.id !in ids);
  }

  /** The backwards `splice` loop, removing every element that `keep` rejects. */
  method SpliceOut<T>(pool: seq<T>, keep: T -> bool) returns (remaining: seq<T>)
    ensures remaining == Filter(pool, keep)
  {
    remaining := pool;
    ghost var kept: seq<T> := [];
    var j := |pool| - 1;
    while j >= 0
      invariant -1 <= j < |pool|
      invariant kept == Filter(pool[j + 1..], keep)
      invariant remaining == pool[..j + 1] + kept
    {
      assert pool[j..][1..] == pool[j + 1..];
      ghost var prefix := pool[..j];
      assert pool[..j + 1] == prefix + [pool[j]];
      assert remaining[j] == pool[j];
      if !keep(remaining[j]) {
        remaining := remaining[..j] + remaining[j + 1..];
        assert remaining == prefix + kept;
      } else {
        kept := [pool[j]] + kept;
      }
      j := j - 1;
    }
    assert pool[0..] == pool;
  }

  /** `if (selectedIds.includes(remainingCandidates[j].id)) remainingCandidates.splice(j, 1)` */
  method RemoveSelected(pool: seq<NormalizedCandidate>, selectedIds: seq<string>) returns (remaining: seq<NormalizedCandidate>)
    ensures remaining == Remaining(pool, selectedIds)
  {
    remaining := SpliceOut(pool, (c: NormalizedCandidate) => c.id !in selectedIds);
  }

  /** Filter, score and analyse one role over the current pool. */
  function RoleSelections(pool: seq<NormalizedCandidate>, role: RoleRequirement,
                          so: ScoringOracles, ao: AnalysisOracles): Result<seq<FinalSelection>> {
    PerformDeepAnalysis(ProcessedScores(ApplyRuleBasedFilter(pool, CriteriaOf(role)), role, so), role, role.count, ao)
  }

  /** The per-role step as the selector sees it: the current pool and the role in, that
      role's selections (or the error that ends the run) out. */
  type RoleStep = (seq<NormalizedCandidate>, RoleRequirement) -> Result<seq<FinalSelection>>

  /** The selections of each role in role order, each role seeing the pool without the
      earlier roles' picks. */
  function MultiRoleWith(pool: seq<NormalizedCandidate>, roles: seq<RoleRequirement>, step: RoleStep): Result<seq<FinalSelection>>
    decreases |roles|
  {
    if roles == [] then Ok([])
    else
      var selections :- step(pool, roles[0]);
      var rest :- MultiRoleWith(Remaining(pool, SelectedIds(selections)), roles[1..], step);
      Ok(selections + rest)
  }

  /** What `selectMultiRoleCandidates` returns. */
  function MultiRole(pool: seq<NormalizedCandidate>, roles: seq<RoleRequirement>,
                     so: ScoringOracles, ao: AnalysisOracles): Result<seq<FinalSelection>> {
    MultiRoleWith(pool, roles, (p: seq<NormalizedCandidate>, role: RoleRequirement) => RoleSelections(p, role, so, ao))
  }

  function Prepend(done: seq<FinalSelection>, r: Result<seq<FinalSelection>>): Result<seq<FinalSelection>> {
    if r.Ok? then Ok(done + r.value) else r
  }

  lemma PrependAssoc(a: seq<FinalSelection>, b: seq<FinalSelection>, r: Result<seq<FinalSelection>>)
    ensures Prepend(a, Prepend(b, r)) == Prepend(a + b, r)
  {
    if r.Ok? {
      assert a + (b + r.value) == (a + b) + r.value;
    }
  }

  /** The `onProgress` calls for the first `k` roles. */
  function RoleProgress(roles: seq<RoleRequirement>, k: nat): (r: seq<(string, nat, nat)>)
    requires k <= |roles|
    ensures |r| == k && forall j :: 0 <= j < k ==> r[j] == ("Processing role: " + roles[j].title, j + 1, |roles|)
  {
    seq(k, j requires 0 <= j < k => ("Processing role: " + roles[j].title, j + 1, |roles|))
  }

  /** One role of `MultiRoleWith`, unfolded at position `i`. */
  lemma MultiRoleWithStep(pool: seq<NormalizedCandidate>, roles: seq<RoleRequirement>, i: nat, step: RoleStep)
    requires i < |roles|
    ensures var selections := step(pool, roles[i]);
            MultiRoleWith(pool, roles[i..], step)
            == if selections.Err? then Err(selections.message)
               else Prepend(selections.value, MultiRoleWith(Remaining(pool, SelectedIds(selections.value)), roles[i + 1..], step))
  {
    assert roles[i..][0] == roles[i] && roles[i..][1..] == roles[i + 1..];
  }

  /** One turn of the role loop: the role's step, `allSelections.push(...)`, and the
      removal of the picked ids from the pool copy. */
  method RoleTurn(ghost whole: Result<seq<FinalSelection>>, allSelections: seq<FinalSelection>,
                  remainingCandidates: seq<NormalizedCandidate>, roles: seq<RoleRequirement>, i: nat, step: RoleStep)
    returns (failure: Option<string>, selectionsAfter: seq<FinalSelection>, remainingAfter: seq<NormalizedCandidate>)
    requires i < |roles|
    requires whole == Prepend(allSelections, MultiRoleWith(remainingCandidates, roles[i..], step))
    ensures failure.Some? ==> whole == Err(failure.value)
    ensures failure.None? ==> whole == Prepend(selectionsAfter, MultiRoleWith(remainingAfter, roles[i + 1..], step))
  {
    var selections := step(remainingCandidates, roles[i]);
    MultiRoleWithStep(remainingCandidates, roles, i, step);
    if selections.Err? {
      return Some(selections.message), allSelections, remainingCandidates;
    }
    var ids := SelectedIds(selections.value);
    PrependAssoc(allSelections, selections.value, MultiRoleWith(Remaining(remainingCandidates, ids), roles[i + 1..], step));
    selectionsAfter := allSelections + selections.value;
    remainingAfter := RemoveSelected(remainingCandidates, ids);
    failure := None;
  }

  /** The role loop of `selectMultiRoleCandidates`, with its progress reports. */
  method SelectRoles(allCandidates: seq<NormalizedCandidate>, roles: seq<RoleRequirement>, step: RoleStep)
    returns (r: Result<seq<FinalSelection>>, progress: seq<(string, nat, nat)>)
    ensures r == MultiRoleWith(allCandidates, roles, step)
    ensures |progress| <= |roles| && progress == RoleProgress(roles, |progress|)
    ensures r.Ok? ==> |progress| == |roles|
  {
    var allSelections: seq<FinalSelection> := [];
    var remainingCandidates := allCandidates;
    progress := [];
    var i := 0;
    assert roles[0..] == roles;
    ghost var whole := MultiRoleWith(allCandidates, roles, step);
    assert Prepend([], whole) == whole by {
      if whole.Ok? {
        assert [] + whole.value == whole.value;
      }
    }
    while i < |roles|
      invariant i <= |roles|
      invariant whole == Prepend(allSelections, MultiRoleWith(remainingCandidates, roles[i..], step))
      invariant progress == RoleProgress(roles, i)
    {
      progress := progress + [("Processing role: " + roles[i].title, i + 1, |roles|)];
      var failure;
      failure, allSelections, remainingCandidates := RoleTurn(whole, allSelections, remainingCandidates, roles, i, step);
      if failure.Some? {
        return Err(failure.value), progress;
      }
      i := i + 1;
    }
    assert roles[i..] == [];
    r := Ok(allSelections);
    assert allSelections + [] == allSelections;
  }

  method SelectMultiRoleCandidates(allCandidates: seq<NormalizedCandidate>, roles: seq<RoleRequirement>,
                                   so: ScoringOracles, ao: AnalysisOracles)
    returns (r: Result<seq<FinalSelection>>, progress: seq<(string, nat, nat)>)
    ensures r == MultiRole(allCandidates, roles, so, ao)
    ensures |progress| <= |roles| && progress == RoleProgress(roles, |progress|)
    ensures r.Ok? ==> |progress| == |roles|
  {
    r, progress := SelectRoles(allCandidates, roles,
                               (p: seq<NormalizedCandidate>, role: RoleRequirement) => RoleSelections(p, role, so, ao));
  }

  /** A step that only ever selects candidates of the pool it is given. */
  ghost predicate StepFromPool(step: RoleStep) {
    forall pool, role :: step(pool, role).Ok? ==> forall e :: e in step(pool, role).value ==> e.candidate in pool
  }

  /** With such a step, every selected candidate comes from the starting pool. */
  lemma {:induction false} MultiRoleFromPool(pool: seq<NormalizedCandidate>, roles: seq<RoleRequirement>, step: RoleStep)
    requires StepFromPool(step)
    ensures var r := MultiRoleWith(pool, roles, step);
            r.Ok? ==> forall e :: e in r.value ==> e.candidate in pool
    decreases |roles|
  {
    var r := MultiRoleWith(pool, roles, step);
    if roles != [] && r.Ok? {
      var selections := step(pool, roles[0]).value;
      var rest := Remaining(pool, SelectedIds(selections));
      MultiRoleFromPool(rest, roles[1..], step);
      RemainingSpec(pool, SelectedIds(selections));
    }
  }

  /** With such a step, a candidate picked for one role is never offered to, or picked
      for, a later role. */
  lemma PickedOnceWith(pool: seq<NormalizedCandidate>, roles: seq<RoleRequirement>, step: RoleStep)
    requires StepFromPool(step) && roles != [] && step(pool, roles[0]).Ok?
    ensures var first := step(pool, roles[0]).value;
            var later := MultiRoleWith(Remaining(pool, SelectedIds(first)), roles[1..], step);
            later.Ok? ==> forall s, t :: s in first && t in later.value ==> s.candidate.id != t.candidate.id
  {
    var first := step(pool, roles[0]).value;
    var rest := Remaining(pool, SelectedIds(first));
    MultiRoleFromPool(rest, roles[1..], step);
    RemainingSpec(pool, SelectedIds(first));
    var later := MultiRoleWith(rest, roles[1..], step);
    if later.Ok? {
      forall s, t | s in first && t in later.value ensures s.candidate.id != t.candidate.id {
        var k :| 0 <= k < |first| && first[k] == s;
        assert SelectedIds(first)[k] == s.candidate.id;
      }
    }
  }

  /** Filter, batch scoring and deep analysis only select from the pool they are given. */
  lemma RoleSelectionsFromPool(pool: seq<NormalizedCandidate>, role: RoleRequirement,
                               so: ScoringOracles, ao: AnalysisOracles)
    ensures var r := RoleSelections(pool, role, so, ao);
            r.Ok? ==> forall e :: e in r.value ==> e.candidate in pool
  {
    var filtered := ApplyRuleBasedFilter(pool, CriteriaOf(role));
    var scored := ProcessedScores(filtered, role, so);
    ProcessedScoresSpec(filtered, role, so);
    DeepAnalysisSpec(scored, role, role.count, ao);
    var r := RoleSelections(pool, role, so, ao);
    if r.Ok? {
      forall e | e in r.value ensures e.candidate in pool {
        var i :| 0 <= i < |Finalists(scored)| && Finalists(scored)[i] == e.candidate;
        assert scored[i] in scored;
        if NoCriteria(CriteriaOf(role)) {
          assert filtered == pool;
        }
      }
    }
  }

  /** In `selectMultiRoleCandidates` no candidate is selected for two roles: whoever the
      first role picks is out of the pool for the rest, and every pick is from the pool. */
  lemma PickedOnce(pool: seq<NormalizedCandidate>, roles: seq<RoleRequirement>, so: ScoringOracles, ao: AnalysisOracles)
    ensures var r := MultiRole(pool, roles, so, ao);
            r.Ok? ==> forall e :: e in r.value ==> e.candidate in pool
    ensures roles != [] && RoleSelections(pool, roles[0], so, ao).Ok? ==>
              var first := RoleSelections(pool, roles[0], so, ao).value;
              var later := MultiRole(Remaining(pool, SelectedIds(first)), roles[1..], so, ao);
              later.Ok? ==> forall s, t :: s in first && t in later.value ==> s.candidate.id != t.candidate.id
  {
    var step := (p: seq<NormalizedCandidate>, role: RoleRequirement) => RoleSelections(p, role, so, ao);
    forall p, role ensures step(p, role).Ok? ==> forall e :: e in step(p, role).value ==> e.candidate in p {
      RoleSelectionsFromPool(p, role, so, ao);
    }
    MultiRoleFromPool(pool, roles, step);
    if roles != [] && RoleSelections(pool, roles[0], so, ao).Ok? {
      PickedOnceWith(pool, roles, step);
    }
  }
}
