/** The chat client's retry policy. A completion call is tried up to `maxRetries`
    times; a client error (HTTP status 4xx) is passed on at once, any other failure is
    retried after a growing wait. The SDK call is a parameter: `outcomes(k)` is what the
    call made on attempt `k` returns or throws. Waits are recorded, not slept. */
module MistralClient {
  import opened Wrappers
  import opened Strings

  /** What a failed call throws: its HTTP status, if it has one, and its message. */
  datatype ChatError = ChatError(status: Option<real>, message: Option<string>)

  datatype Outcome = Answer(response: string) | Thrown(error: ChatError)

  /** The caller's parameters; `temperature` and `maxTokens` may be absent. */
  datatype ChatParams = ChatParams(model: string, messages: seq<(string, string)>,
                                   temperature: Option<real>, maxTokens: Option<real>)

  /** What is sent to the completion endpoint. */
  datatype CompletionRequest = CompletionRequest(model: string, messages: seq<(string, string)>,
                                                 temperature: real, maxTokens: real)

  const DefaultTemperature: real := 0.7
  const DefaultMaxTokens: real := 2000.0
  const ExhaustedPrefix := "Failed after "
  const ExhaustedMiddle := " retries: "
  const UnknownError := "Unknown error"

  /** `x || fallback` for an optional number: absent and 0 both take the fallback. */
  function NumberOr(x: Option<real>, fallback: real): (r: real)
    ensures r == fallback <==> x.None? || x.value == 0.0 || x.value == fallback
    ensures r != fallback ==> x == Some(r)
  {
    if x.Some? && x.value != 0.0 then x.value else fallback
  }

  function RequestOf(params: ChatParams): CompletionRequest {
    CompletionRequest(params.model, params.messages,
                      NumberOr(params.temperature, DefaultTemperature), NumberOr(params.maxTokens, DefaultMaxTokens))
  }

  /** `error.status && error.status >= 400 && error.status < 500` */
  predicate IsClientError(e: ChatError) {
    e.status.Some? && e.status.value != 0.0 && 400.0 <= e.status.value < 500.0
  }

  /** `lastError?.message || 'Unknown error'` */
  function LastMessage(lastError: Option<ChatError>): string {
    if lastError.Some? && lastError.value.message.Some? && lastError.value.message.value != ""
    then lastError.value.message.value
    else UnknownError
  }

  /** The calls made, the waits between them, and what `chat` returns or throws. */
  datatype Trace = Trace(result: Outcome, requests: seq<CompletionRequest>, delays: seq<nat>)

  /** The waits after the first `k` failed attempts: `retryDelay · 1`, …, `retryDelay · k`. */
  function Waits(retryDelay: nat, k: nat): (r: seq<nat>)
    ensures |r| == k && forall j :: 0 <= j < k ==> r[j] == retryDelay * (j + 1)
  {
    seq(k, j requires 0 <= j < k => retryDelay * (j + 1))
  }

  /** Attempts `attempt .. k - 1` all failed with retryable errors. */
  predicate RetryableUpTo(outcomes: nat -> Outcome, attempt: nat, k: nat) {
    forall j :: attempt <= j < k ==> outcomes(j).Thrown? && !IsClientError(outcomes(j).error)
  }

  class MistralClient {
    const maxRetries: nat := 3
    const retryDelay: nat := 1000

    constructor() {
    }

    /** The error thrown once every attempt has failed. */
    function Exhausted(lastError: Option<ChatError>): ChatError {
      ChatError(None, Some(ExhaustedPrefix + NatText(maxRetries) + ExhaustedMiddle + LastMessage(lastError)))
    }

    /** The retry loop from attempt `attempt` on, `lastError` being the last error seen. */
    function ChatFrom(req: CompletionRequest, outcomes: nat -> Outcome, attempt: nat, lastError: Option<ChatError>): Trace
      decreases maxRetries - attempt
    {
      if attempt >= maxRetries then Trace(Thrown(Exhausted(lastError)), [], [])
      else
        var o := outcomes(attempt);
        if o.Answer? || IsClientError(o.error) then Trace(o, [req], [])
        else
          var wait := if attempt < maxRetries - 1 then [retryDelay * (attempt + 1)] else [];
          var rest := ChatFrom(req, outcomes, attempt + 1, Some(o.error));
          Trace(rest.result, [req] + rest.requests, wait + rest.delays)
    }

    /** `chat(params)` */
    method Chat(params: ChatParams, outcomes: nat -> Outcome)
      returns (result: Outcome, requests: seq<CompletionRequest>, delays: seq<nat>)
      ensures Trace(result, requests, delays) == ChatFrom(RequestOf(params), outcomes, 0, None)
    {
      ghost var req := RequestOf(params);
      var lastError: Option<ChatError> := None;
      requests := [];
      delays := [];
      var attempt := 0;
      while attempt < maxRetries
        invariant attempt <= maxRetries
        invariant var rest := ChatFrom(req, outcomes, attempt, lastError);
                  ChatFrom(req, outcomes, 0, None) == Trace(rest.result, requests + rest.requests, delays + rest.delays)
        decreases maxRetries - attempt
      {
        var request := CompletionRequest(params.model, params.messages,
                                         NumberOr(params.temperature, DefaultTemperature),
                                         NumberOr(params.maxTokens, DefaultMaxTokens));
        var outcome := outcomes(attempt);
        if outcome.Answer? {
          return outcome, requests + [request], delays;
        }
        ghost var rest := ChatFrom(req, outcomes, attempt + 1, Some(outcome.error));
        lastError := Some(outcome.error);
        if IsClientError(outcome.error) {
          return outcome, requests + [request], delays;
        }
        assert requests + ([request] + rest.requests) == requests + [request] + rest.requests;
        requests := requests + [request];
        if attempt < maxRetries - 1 {
          assert delays + ([retryDelay * (attempt + 1)] + rest.delays) == delays + [retryDelay * (attempt + 1)] + rest.delays;
          delays := delays + [retryDelay * (attempt + 1)];
        } else {
          assert [] + rest.delays == rest.delays;
        }
        attempt := attempt + 1;
      }
      result := Thrown(Exhausted(lastError));
      assert requests + [] == requests && delays + [] == delays;
    }

    /** Between one and `maxRetries - attempt` calls are made, every one with the same
        request, and a wait follows every call but the last. */
    lemma {:induction false} CallBound(req: CompletionRequest, outcomes: nat -> Outcome, attempt: nat, lastError: Option<ChatError>)
      requires attempt < maxRetries
      ensures var t := ChatFrom(req, outcomes, attempt, lastError);
              1 <= |t.requests| <= maxRetries - attempt
              && (forall j :: 0 <= j < |t.requests| ==> t.requests[j] == req)
              && |t.delays| == |t.requests| - 1
      decreases maxRetries - attempt
    {
      var o := outcomes(attempt);
      if !(o.Answer? || IsClientError(o.error)) && attempt + 1 < maxRetries {
        CallBound(req, outcomes, attempt + 1, Some(o.error));
      }
    }

    /** When attempt `k` is the first to answer or to fail with a client error, that is
        what `chat` returns or throws, after `k + 1` calls and the waits
        `retryDelay · 1 … retryDelay · k`. */
    lemma {:induction false} StopsAt(req: CompletionRequest, outcomes: nat -> Outcome, attempt: nat,
                                     lastError: Option<ChatError>, k: nat)
      requires attempt <= k < maxRetries && RetryableUpTo(outcomes, attempt, k)
      requires outcomes(k).Answer? || IsClientError(outcomes(k).error)
      ensures var t := ChatFrom(req, outcomes, attempt, lastError);
              t.result == outcomes(k) && |t.requests| == k + 1 - attempt
              && t.delays == Waits(retryDelay, k)[attempt..]
      decreases k - attempt
    {
      if attempt < k {
        StopsAt(req, outcomes, attempt + 1, Some(outcomes(attempt).error), k);
        var rest := ChatFrom(req, outcomes, attempt + 1, Some(outcomes(attempt).error));
        assert [retryDelay * (attempt + 1)] + Waits(retryDelay, k)[attempt + 1..] == Waits(retryDelay, k)[attempt..];
      }
    }

    /** When every attempt fails with a retryable error, `chat` throws
        "Failed after <maxRetries> retries: <the last message>" after `maxRetries` calls,
        having waited `retryDelay · 1 … retryDelay · (maxRetries - 1)`. */
    lemma {:induction false} GivesUp(req: CompletionRequest, outcomes: nat -> Outcome, attempt: nat, lastError: Option<ChatError>)
      requires attempt < maxRetries && RetryableUpTo(outcomes, attempt, maxRetries)
      ensures var t := ChatFrom(req, outcomes, attempt, lastError);
              t.result == Thrown(Exhausted(Some(outcomes(maxRetries - 1).error)))
              && |t.requests| == maxRetries - attempt
              && t.delays == Waits(retryDelay, maxRetries - 1)[attempt..]
      decreases maxRetries - attempt
    {
      var e := outcomes(attempt).error;
      if attempt + 1 < maxRetries {
        GivesUp(req, outcomes, attempt + 1, Some(e));
        assert [retryDelay * (attempt + 1)] + Waits(retryDelay, maxRetries - 1)[attempt + 1..]
               == Waits(retryDelay, maxRetries - 1)[attempt..];
      }
    }

    /** With the client's settings: three failed attempts give the waits 1000 ms and
        2000 ms and the message "Failed after 3 retries: …". */
    lemma ThreeFailures(params: ChatParams, outcomes: nat -> Outcome)
      requires RetryableUpTo(outcomes, 0, 3)
      ensures var t := ChatFrom(RequestOf(params), outcomes, 0, None);
              t.delays == [1000, 2000] && |t.requests| == 3
              && t.result == Thrown(ChatError(None, Some("Failed after 3 retries: " + LastMessage(Some(outcomes(2).error)))))
    {
      GivesUp(RequestOf(params), outcomes, 0, None);
      assert NatText(3) == "3";
      assert ExhaustedPrefix + NatText(3) + ExhaustedMiddle == "Failed after 3 retries: ";
      assert Waits(1000, 2)[0..] == [1000, 2000];
    }
  }
}
