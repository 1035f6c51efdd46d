/**
 * The outcome of resetting a chat with a remote backend. For CharacterAI the
 * token the request carries is picked by a chain of `??`. For Aisekai a request
 * answered with 401 is followed by a token refresh and a new request with the
 * refreshed token, for as long as the refresh yields a token.
 */
module Reset {
  import opened Wrappers

  /** The first value present in `xs`, or `fallback` when none is: `xs[0] ?? xs[1] ?? … ?? fallback`. */
  function FirstSome<T>(xs: seq<Option<T>>, fallback: T): (r: T)
    ensures (forall i :: 0 <= i < |xs| ==> xs[i].None?) ==> r == fallback
    ensures forall i :: 0 <= i < |xs| && xs[i].Some? && (forall j :: 0 <= j < i ==> xs[j].None?) ==> r == xs[i].value
  {
    if xs == [] then fallback
    else if xs[0].Some? then xs[0].value
    else
      assert forall i :: 1 <= i < |xs| ==> xs[1..][i - 1] == xs[i];
      FirstSome(xs[1..], fallback)
  }

  /** The answer of Aisekai's reset-chat endpoint. */
  datatype ResetResponse = ResetOk(greeting: string) | ResetFailed(code: int, errorReason: string)

  /**
   * One reset request as it went: the answer, and the token the refresh
   * yielded afterwards (only consulted when the answer was 401).
   */
  datatype Attempt = Attempt(response: ResetResponse, refreshed: Option<string>)

  /** What a reset request carried. */
  datatype ResetRequest = ResetRequest(authToken: string, chatId: string)

  const UNAUTHORIZED := 401

  /** The request failed with 401 and the refresh yielded a token: another request follows. */
  predicate Retries(a: Attempt)
  {
    a.response.ResetFailed? && a.response.code == UNAUTHORIZED && a.refreshed.Some?
  }

  /** The run ends within the given attempts. */
  predicate Decisive(trace: seq<Attempt>)
  {
    exists i :: 0 <= i < |trace| && !Retries(trace[i])
  }

  /** The attempt the run ends with. */
  function FirstStop(trace: seq<Attempt>): (k: nat)
    requires Decisive(trace)
    ensures k < |trace| && !Retries(trace[k])
    ensures forall i :: 0 <= i < k ==> Retries(trace[i])
  {
    if !Retries(trace[0]) then 0
    else
      assert Decisive(trace[1..]) by {
        var i :| 0 <= i < |trace| && !Retries(trace[i]);
        assert trace[1..][i - 1] == trace[i];
      }
      FirstStop(trace[1..]) + 1
  }

  /** The new greeting if the reset succeeded, and the requests made. */
  datatype AisekaiRun = AisekaiRun(greeting: Option<string>, requests: seq<ResetRequest>)

  /**
   * Resetting the chat `chatId` starting with `token`: a success ends the run
   * with the greeting, a 401 followed by a refreshed token sends the request
   * again with that token, and any other answer ends the run without one.
   */
  function RunAisekai(token: string, chatId: string, trace: seq<Attempt>): AisekaiRun
    requires Decisive(trace)
    decreases |trace|
  {
    var a := trace[0];
    if a.response.ResetOk? then AisekaiRun(Some(a.response.greeting), [ResetRequest(token, chatId)])
    else if a.response.code != UNAUTHORIZED || a.refreshed.None? then AisekaiRun(None, [ResetRequest(token, chatId)])
    else
      assert Decisive(trace[1..]) by {
        var i :| 0 <= i < |trace| && !Retries(trace[i]);
        assert trace[1..][i - 1] == trace[i];
      }
      var rest := RunAisekai(a.refreshed.value, chatId, trace[1..]);
      AisekaiRun(rest.greeting, [ResetRequest(token, chatId)] + rest.requests)
  }

  /**
   * The run makes one request per attempt up to the first that does not lead
   * to a retry: the first carries `token`, each later one the token refreshed
   * after the one before, all for the same chat. It yields a greeting exactly
   * when that last answer is a success, and then the greeting of that answer.
   */
  lemma {:induction false} RunAisekaiStopsAtFirstStop(token: string, chatId: string, trace: seq<Attempt>)
    requires Decisive(trace)
    ensures var r, k := RunAisekai(token, chatId, trace), FirstStop(trace);
      |r.requests| == k + 1
      && r.requests[0] == ResetRequest(token, chatId)
      && (forall i :: 1 <= i <= k ==> r.requests[i] == ResetRequest(trace[i - 1].refreshed.value, chatId))
      && (r.greeting.Some? <==> trace[k].response.ResetOk?)
      && (r.greeting.Some? ==> r.greeting.value == trace[k].response.greeting)
    decreases |trace|
  {
    if Retries(trace[0]) {
      var next := trace[0].refreshed.value;
      assert Decisive(trace[1..]) by {
        var i :| 0 <= i < |trace| && !Retries(trace[i]);
        assert trace[1..][i - 1] == trace[i];
      }
      RunAisekaiStopsAtFirstStop(next, chatId, trace[1..]);
      var rest := RunAisekai(next, chatId, trace[1..]);
      var k := FirstStop(trace);
      assert k == FirstStop(trace[1..]) + 1;
      assert forall i :: 1 <= i < |trace| ==> trace[1..][i - 1] == trace[i];
      forall i | 2 <= i <= k
        ensures RunAisekai(token, chatId, trace).requests[i] == ResetRequest(trace[i - 1].refreshed.value, chatId)
      {
        assert RunAisekai(token, chatId, trace).requests[i] == rest.requests[i - 1];
      }
    }
  }

  /**
   * `n` answers of 401, each followed by a refreshed token, and then a success.
   */
  function Expiring(n: nat, token: string, greeting: string): (trace: seq<Attempt>)
    ensures |trace| == n + 1
    ensures forall i :: 0 <= i < n ==> trace[i] == Attempt(ResetFailed(UNAUTHORIZED, ""), Some(token))
    ensures trace[n] == Attempt(ResetOk(greeting), None)
  {
    if n == 0 then [Attempt(ResetOk(greeting), None)]
    else [Attempt(ResetFailed(UNAUTHORIZED, ""), Some(token))] + Expiring(n - 1, token, greeting)
  }

  /**
   * Nothing bounds the number of retries: for every `n` there is a backend that
   * answers 401 `n` times, with a refresh that yields a token each time, and
   * the run then makes `n + 1` requests and still succeeds.
   */
  lemma RetriesUnbounded(n: nat, token: string, chatId: string, greeting: string)
    ensures Decisive(Expiring(n, token, greeting))
    ensures var r := RunAisekai(token, chatId, Expiring(n, token, greeting));
      |r.requests| == n + 1 && r.greeting == Some(greeting)
  {
    var trace := Expiring(n, token, greeting);
    assert !Retries(trace[n]);
    assert forall i :: 0 <= i < n ==> Retries(trace[i]);
    assert FirstStop(trace) == n;
    RunAisekaiStopsAtFirstStop(token, chatId, trace);
  }
}
