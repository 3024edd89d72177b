/** Scoring a role's candidates with the model: the pool is cut into batches of 100,
    batches are sent in waves of three, every batch yields one scored entry per returned
    score (or a neutral fallback for the whole batch), and the merged list is sorted by
    score, highest first. The chat call, `JSON.parse` read into the reply's shape,
    `JSON.stringify` of the prompt's candidate list, the markdown-stripping passes and
    the text of non-integer numbers are supplied by the caller. */
module BatchProcessor {
  import opened Wrappers
  import opened Json
  import opened Types
  import opened Seqs
  import opened Sorting
  import opened ResponseRepair
  import opened PromptBuilder

  const BatchSize: nat := 100
  const MaxParallel: nat := 3

  /** One element of the reply's `scores` list. */
  datatype RawScore = RawScore(id: Option<JsonValue>, score: real, reason: string)

  datatype ScoringOracles = ScoringOracles(
    chat: string -> Result<string>,
    parseScores: string -> Result<seq<RawScore>>,
    stringify: seq<BatchSummary> -> string,
    markdownStrip: string -> string,
    fracText: real -> string)

  // ---------------------------------------------------------------- scoreBatch

  /** `c.id === score.id` */
  predicate HasId(c: NormalizedCandidate, id: Option<JsonValue>) {
    id == Some(JStr(c.id))
  }

  /** `c` is the first candidate of the batch carrying the id, as `Array.find` returns. */
  predicate FirstWithId(batch: seq<NormalizedCandidate>, id: Option<JsonValue>, c: NormalizedCandidate)
    ensures FirstWithId(batch, id, c) ==> c in batch && HasId(c, id)
  {
    exists k :: 0 <= k < |batch| && batch[k] == c && HasId(c, id) && forall j :: 0 <= j < k ==> !HasId(batch[j], id)
  }

  /** The first match of the id test is the first candidate with the id. */
  lemma FindById(batch: seq<NormalizedCandidate>, id: Option<JsonValue>)
    requires Find(batch, (c: NormalizedCandidate) => HasId(c, id)).Some?
    ensures FirstWithId(batch, id, Find(batch, (c: NormalizedCandidate) => HasId(c, id)).value)
  {
    var p := (c: NormalizedCandidate) => HasId(c, id);
    var k :| FirstMatch(batch, p, k) && Find(batch, p).value == batch[k];
    assert forall j :: 0 <= j < k ==> !HasId(batch[j], id) by {
      forall j | 0 <= j < k
        ensures !HasId(batch[j], id)
      {
        assert !p(batch[j]);
      }
    }
  }

  /** Some candidate of the batch carries the id. */
  predicate Known(batch: seq<NormalizedCandidate>, id: Option<JsonValue>) {
    exists c :: c in batch && HasId(c, id)
  }

  /** The entry made from a returned score: the first batch candidate with the score's
      id, with the score, the reasoning and the role's title. */
  predicate ScoredFrom(batch: seq<NormalizedCandidate>, role: RoleRequirement, s: RawScore, e: ScoredCandidate) {
    FirstWithId(batch, s.id, e.candidate) && e.score == s.score && e.briefReasoning == s.reason && e.role == role.title
  }

  lemma ScoredSnoc(batch: seq<NormalizedCandidate>, role: RoleRequirement, pre: seq<RawScore>, s: RawScore,
                   entries: seq<ScoredCandidate>, e: ScoredCandidate)
    requires |entries| == |pre| && forall i :: 0 <= i < |pre| ==> ScoredFrom(batch, role, pre[i], entries[i])
    requires ScoredFrom(batch, role, s, e)
    ensures forall i :: 0 <= i < |pre| + 1 ==> ScoredFrom(batch, role, (pre + [s])[i], (entries + [e])[i])
  {
    forall i | 0 <= i < |pre| + 1
      ensures ScoredFrom(batch, role, (pre + [s])[i], (entries + [e])[i])
    {
      if i < |pre| {
        assert (pre + [s])[i] == pre[i] && (entries + [e])[i] == entries[i];
      }
    }
  }

  /** `parsed.scores.map(...)`: each score is tied to the first batch candidate with its
      id; an unknown id throws, the first one in reply order. */
  function ScoreEntries(batch: seq<NormalizedCandidate>, role: RoleRequirement, scores: seq<RawScore>,
                        fracText: real -> string): (r: Result<seq<ScoredCandidate>>)
    ensures r.Ok? <==> forall i :: 0 <= i < |scores| ==> Known(batch, scores[i].id)
    ensures r.Ok? ==> |r.value| == |scores|
    ensures r.Ok? ==> forall i :: 0 <= i < |r.value| ==> ScoredFrom(batch, role, scores[i], r.value[i])
  {
    if scores == [] then Ok([])
    else
      var pre := scores[..|scores| - 1];
      var init := ScoreEntries(batch, role, pre, fracText);
      var s := scores[|scores| - 1];
      var found := Find(batch, (c: NormalizedCandidate) => HasId(c, s.id));
      if init.Err? then init
      else if found.None? then Err("Candidate " + ToText(s.id, fracText) + " not found in batch")
      else
        FindById(batch, s.id);
        var e := ScoredCandidate(found.value, s.score, s.reason, role.title);
        ScoredSnoc(batch, role, pre, s, init.value, e);
        assert pre + [s] == scores;
        Ok(init.value + [e])
  }

  /** One parse attempt: the parse and then the id mapping, either of which may throw. */
  function ScoreAttempt(batch: seq<NormalizedCandidate>, role: RoleRequirement, text: string,
                        o: ScoringOracles): Result<seq<ScoredCandidate>> {
    var scores :- o.parseScores(text);
    ScoreEntries(batch, role, scores, o.fracText)
  }

  /** Every candidate of the batch at score 50. */
  function Fallback(batch: seq<NormalizedCandidate>, role: RoleRequirement): (r: seq<ScoredCandidate>)
    ensures |r| == |batch|
    ensures forall i :: 0 <= i < |r| ==> r[i] == ScoredCandidate(batch[i], 50.0, "Error during scoring", role.title)
  {
    seq(|batch|, i requires 0 <= i < |batch| => ScoredCandidate(batch[i], 50.0, "Error during scoring", role.title))
  }

  /** `scoreBatch`: the fenced-block text is parsed; on failure the cleaned text is
      parsed; when that fails too, or the chat call fails, the batch falls back. */
  function ScoreBatch(batch: seq<NormalizedCandidate>, role: RoleRequirement, o: ScoringOracles): seq<ScoredCandidate> {
    var reply := o.chat(BuildBatchScoringPrompt(batch, role, o.stringify, o.fracText));
    if reply.Err? then Fallback(batch, role)
    else
      var jsonContent := JsonContent(reply.value);
      var first := ScoreAttempt(batch, role, jsonContent, o);
      if first.Ok? then first.value
      else
        var second := ScoreAttempt(batch, role, Cleanup(jsonContent, o.markdownStrip), o);
        if second.Ok? then second.value else Fallback(batch, role)
  }

  /** Whatever the model replies, every entry is a candidate of the batch scored for the
      role; when both attempts fail the batch comes back whole at score 50. */
  lemma ScoreBatchSpec(batch: seq<NormalizedCandidate>, role: RoleRequirement, o: ScoringOracles)
    ensures forall e :: e in ScoreBatch(batch, role, o) ==> e.candidate in batch && e.role == role.title
    ensures var reply := o.chat(BuildBatchScoringPrompt(batch, role, o.stringify, o.fracText));
            reply.Err? ==> ScoreBatch(batch, role, o) == Fallback(batch, role)
    ensures var reply := o.chat(BuildBatchScoringPrompt(batch, role, o.stringify, o.fracText));
            reply.Ok? ==> var jsonContent := JsonContent(reply.value);
            ScoreAttempt(batch, role, jsonContent, o).Err?
            && ScoreAttempt(batch, role, Cleanup(jsonContent, o.markdownStrip), o).Err?
            ==> ScoreBatch(batch, role, o) == Fallback(batch, role)
  {
    var reply := o.chat(BuildBatchScoringPrompt(batch, role, o.stringify, o.fracText));
    if reply.Ok? {
      var jsonContent := JsonContent(reply.value);
      ScoreAttemptMembers(batch, role, jsonContent, o);
      ScoreAttemptMembers(batch, role, Cleanup(jsonContent, o.markdownStrip), o);
    }
    FallbackMembers(batch, role);
  }

  /** Every entry of a successful attempt is a batch candidate scored for the role. */
  lemma ScoreAttemptMembers(batch: seq<NormalizedCandidate>, role: RoleRequirement, text: string, o: ScoringOracles)
    ensures var r := ScoreAttempt(batch, role, text, o);
            r.Ok? ==> forall e :: e in r.value ==> e.candidate in batch && e.role == role.title
  {
    var r := ScoreAttempt(batch, role, text, o);
    if r.Ok? {
      var scores := o.parseScores(text).value;
      forall e | e in r.value ensures e.candidate in batch && e.role == role.title {
        var i :| 0 <= i < |r.value| && r.value[i] == e;
        assert ScoredFrom(batch, role, scores[i], e);
      }
    }
  }

  lemma FallbackMembers(batch: seq<NormalizedCandidate>, role: RoleRequirement)
    ensures forall e :: e in Fallback(batch, role) ==> e.candidate in batch && e.role == role.title
  {
    var r := Fallback(batch, role);
    forall e | e in r ensures e.candidate in batch && e.role == role.title {
      var i :| 0 <= i < |r| && r[i] == e;
    }
  }

  /** A reply naming a candidate outside the batch makes that attempt fail. */
  lemma UnknownIdFails(batch: seq<NormalizedCandidate>, role: RoleRequirement, scores: seq<RawScore>,
                       fracText: real -> string, i: nat)
    requires i < |scores| && forall c :: c in batch ==> !HasId(c, scores[i].id)
    ensures ScoreEntries(batch, role, scores, fracText).Err?
  {
  }

  // ---------------------------------------------------------------- batching

  /** `candidates.slice(i, i + BATCH_SIZE)` for i = 0, 100, 200, … */
  function Batches(cs: seq<NormalizedCandidate>): seq<seq<NormalizedCandidate>>
    decreases |cs|
  {
    if cs == [] then [] else [cs[..Min(BatchSize, |cs|)]] + Batches(cs[Min(BatchSize, |cs|)..])
  }

  /** The batches partition the pool in order; each holds at most 100 candidates, all but
      the last exactly 100, and there are ceil(n/100) of them. */
  lemma {:induction false} BatchesSpec(cs: seq<NormalizedCandidate>)
    ensures Flatten(Batches(cs)) == cs
    ensures |Batches(cs)| == (|cs| + BatchSize - 1) / BatchSize
    ensures forall k :: 0 <= k < |Batches(cs)| ==> 0 < |Batches(cs)[k]| <= BatchSize
    ensures forall k :: 0 <= k < |Batches(cs)| - 1 ==> |Batches(cs)[k]| == BatchSize
    decreases |cs|
  {
    if cs != [] {
      var m := Min(BatchSize, |cs|);
      BatchesSpec(cs[m..]);
      var b := Batches(cs);
      assert b[1..] == Batches(cs[m..]);
      assert cs[..m] + cs[m..] == cs;
      forall k | 0 <= k < |b| ensures 0 < |b[k]| <= BatchSize {
        if k > 0 {
          assert b[k] == b[1..][k - 1];
        }
      }
      forall k | 0 <= k < |b| - 1 ensures |b[k]| == BatchSize {
        if k > 0 {
          assert b[k] == b[1..][k - 1];
        }
      }
    }
  }

  /** The batching loop of `processCandidatesInBatches`. */
  method SplitIntoBatches(cs: seq<NormalizedCandidate>) returns (batches: seq<seq<NormalizedCandidate>>)
    ensures batches == Batches(cs)
  {
    batches := [];
    var i := 0;
    while i < |cs|
      invariant batches + Batches(cs[Min(i, |cs|)..]) == Batches(cs)
    {
      var rest := cs[i..];
      var m := Min(BatchSize, |rest|);
      assert rest[..m] == cs[i..Min(i + BatchSize, |cs|)];
      assert rest[m..] == cs[Min(i + BatchSize, |cs|)..];
      batches := batches + [cs[i..Min(i + BatchSize, |cs|)]];
      i := i + BatchSize;
    }
  }

  /** The batch numbers reported through `onProgress`: 1, 2, …, `count` of `total`. */
  function ProgressCalls(count: nat, total: nat): (r: seq<(nat, nat)>)
    ensures |r| == count && forall k :: 0 <= k < count ==> r[k] == (k + 1, total)
  {
    seq(count, k requires 0 <= k < count => (k + 1, total))
  }

  /** `batches.map(score)` */
  function MapAll<B, S>(batches: seq<B>, score: B -> seq<S>): (r: seq<seq<S>>)
    ensures |r| == |batches| && forall k :: 0 <= k < |r| ==> r[k] == score(batches[k])
  {
    seq(|batches|, k requires 0 <= k < |batches| => score(batches[k]))
  }

  function ScoredBatches(batches: seq<seq<NormalizedCandidate>>, role: RoleRequirement, o: ScoringOracles): seq<seq<ScoredCandidate>> {
    MapAll(batches, (b: seq<NormalizedCandidate>) => ScoreBatch(b, role, o))
  }

  /** One wave: batches `i .. i + |wave| - 1` report their numbers and are scored; their
      entries are appended in batch order. */
  method RunWave<B, S>(batches: seq<B>, score: B -> seq<S>, i: nat, wave: seq<B>,
                       allScored0: seq<S>, progress0: seq<(nat, nat)>)
    returns (allScored: seq<S>, progress: seq<(nat, nat)>)
    requires i + |wave| <= |batches| && wave == batches[i..i + |wave|]
    requires allScored0 == Flatten(MapAll(batches[..i], score))
    requires progress0 == ProgressCalls(i, |batches|)
    ensures allScored == Flatten(MapAll(batches[..i + |wave|], score))
    ensures progress == ProgressCalls(i + |wave|, |batches|)
  {
    allScored, progress := allScored0, progress0;
    var index := 0;
    while index < |wave|
      invariant index <= |wave|
      invariant allScored == Flatten(MapAll(batches[..i + index], score))
      invariant progress == ProgressCalls(i + index, |batches|)
    {
      var batchNumber := i + index + 1;
      progress := progress + [(batchNumber, |batches|)];
      var scored := score(wave[index]);
      assert wave[index] == batches[i + index];
      WaveStep(batches, score, i + index);
      allScored := allScored + scored;
      index := index + 1;
    }
  }

  /** Scoring batch `n` after the first `n` extends both the entries and the progress calls. */
  lemma WaveStep<B, S>(batches: seq<B>, score: B -> seq<S>, n: nat)
    requires n < |batches|
    ensures Flatten(MapAll(batches[..n + 1], score)) == Flatten(MapAll(batches[..n], score)) + score(batches[n])
    ensures ProgressCalls(n + 1, |batches|) == ProgressCalls(n, |batches|) + [(n + 1, |batches|)]
  {
    assert batches[..n + 1] == batches[..n] + [batches[n]];
    assert MapAll(batches[..n + 1], score) == MapAll(batches[..n], score) + [score(batches[n])];
    FlattenSnoc(MapAll(batches[..n], score), score(batches[n]));
  }

  /** The wave loop: waves of up to three batches, in order. */
  method RunWaves<B, S>(batches: seq<B>, score: B -> seq<S>)
    returns (allScored: seq<S>, progress: seq<(nat, nat)>)
    ensures allScored == Flatten(MapAll(batches, score))
    ensures progress == ProgressCalls(|batches|, |batches|)
  {
    allScored := [];
    progress := [];
    var i := 0;
    while i < |batches|
      invariant i <= |batches|
      invariant allScored == Flatten(MapAll(batches[..i], score))
      invariant progress == ProgressCalls(i, |batches|)
    {
      var wave := batches[i..Min(i + MaxParallel, |batches|)];
      allScored, progress := RunWave(batches, score, i, wave, allScored, progress);
      // `i += maxParallel`, which equals the wave's length except on the last wave
      i := i + |wave|;
    }
    assert batches[..i] == batches;
  }

  method ScoreInWaves(batches: seq<seq<NormalizedCandidate>>, role: RoleRequirement, o: ScoringOracles)
    returns (allScored: seq<ScoredCandidate>, progress: seq<(nat, nat)>)
    ensures allScored == Flatten(ScoredBatches(batches, role, o))
    ensures progress == ProgressCalls(|batches|, |batches|)
  {
    allScored, progress := RunWaves(batches, (b: seq<NormalizedCandidate>) => ScoreBatch(b, role, o));
  }

  /** `(a, b) => b.score - a.score` as a key for an ascending sort. */
  function NegScore(s: ScoredCandidate): real {
    -s.score
  }

  /** What `processCandidatesInBatches` returns. */
  function ProcessedScores(cs: seq<NormalizedCandidate>, role: RoleRequirement, o: ScoringOracles): seq<ScoredCandidate> {
    SortBy(Flatten(ScoredBatches(Batches(cs), role, o)), NegScore)
  }

  method ProcessCandidatesInBatches(cs: seq<NormalizedCandidate>, role: RoleRequirement, o: ScoringOracles)
    returns (scored: seq<ScoredCandidate>, progress: seq<(nat, nat)>)
    ensures scored == ProcessedScores(cs, role, o)
    ensures progress == ProgressCalls(|Batches(cs)|, |Batches(cs)|)
  {
    var batches := SplitIntoBatches(cs);
    var allScored;
    allScored, progress := ScoreInWaves(batches, role, o);
    scored := SortBy(allScored, NegScore);
  }

  /** The result is by non-increasing score, holds exactly the entries the batches
      returned, and each entry is a pool candidate scored for the role. */
  lemma ProcessedScoresSpec(cs: seq<NormalizedCandidate>, role: RoleRequirement, o: ScoringOracles)
    ensures var r := ProcessedScores(cs, role, o);
            forall i, j :: 0 <= i < j < |r| ==> r[i].score >= r[j].score
    ensures multiset(ProcessedScores(cs, role, o)) == multiset(Flatten(ScoredBatches(Batches(cs), role, o)))
    ensures forall e :: e in ProcessedScores(cs, role, o) ==> e.candidate in cs && e.role == role.title
  {
    var r := ProcessedScores(cs, role, o);
    var bs := Batches(cs);
    var sb := ScoredBatches(bs, role, o);
    forall i, j | 0 <= i < j < |r| ensures r[i].score >= r[j].score {
      assert NegScore(r[i]) <= NegScore(r[j]);
    }
    FlattenMembers(sb);
    FlattenMembers(bs);
    BatchesSpec(cs);
    forall e | e in r ensures e.candidate in cs && e.role == role.title {
      assert e in multiset(r);
      assert e in Flatten(sb);
      var k :| 0 <= k < |sb| && e in sb[k];
      ScoreBatchSpec(bs[k], role, o);
    }
  }

  /** A pool of `n` candidates reports `ceil(n/100)` batches, numbered from 1. */
  lemma ProgressCount(cs: seq<NormalizedCandidate>)
    ensures |ProgressCalls(|Batches(cs)|, |Batches(cs)|)| == (|cs| + 99) / 100
  {
    BatchesSpec(cs);
  }
}
