/** The retry decision the fetch pipeline installs into the retrying client
    (makeCustomRetryPolicy), and how many tries it leads to. */
module RetryPolicy {
  import opened Wrappers
  import opened NetHttp

  /** What a CheckRetry function returns: retry or not, and the error to
      report when it stops or if retries run out. */
  datatype Verdict = Verdict(retry: bool, err: Option<Error>)

  /** The library's DefaultRetryPolicy; its code is not part of this model,
      so every lemma below holds for whatever function it is. */
  type Baseline = (Option<Response>, Option<Error>) -> Verdict

  /** The baseline stops and reports an error. */
  predicate Fatal(v: Verdict)
  {
    !v.retry && v.err.Some?
  }

  /** All that the documentation of the retry block says about the baseline
      (resource_http.go, lines 58-61 and 188-189): among 5xx statuses it
      retries every one except 501. */
  ghost predicate RetriesAsDocumented(baseline: Baseline)
  {
    forall r: Response {:trigger baseline(Some(r), None)} :: 500 <= r.statusCode <= 599 ==>
      (baseline(Some(r), None).retry <==> r.statusCode != 501)
  }

  /** The search of successStatusCodes for the response's code. */
  function Listed(code: int, codes: seq<int>): (r: bool)
    ensures r <==> code in codes
    decreases |codes|
  {
    if |codes| == 0 then false else codes[0] == code || Listed(code, codes[1..])
  }

  function UnexpectedStatus(resp: Response): Error
  {
    Error("unexpected HTTP status " + resp.status)
  }

  /** The closure makeCustomRetryPolicy(successCodes) returns, applied to the
      context's error (ctxErr), the response and the transport error of one
      try. The caller never passes a missing response together with a
      missing error; the source would dereference it. */
  function CheckRetry(successCodes: seq<int>, baseline: Baseline, ctxErr: Option<Error>,
                      resp: Option<Response>, err: Option<Error>): (v: Verdict)
    requires err.None? && |successCodes| > 0 ==> resp.Some?
    // A cancelled or expired context stops at once with its error, whatever else is seen.
    ensures ctxErr.Some? ==> v == Verdict(false, ctxErr)
    // Otherwise a baseline that stops with an error is obeyed first.
    ensures ctxErr.None? && Fatal(baseline(resp, err)) ==> v == baseline(resp, err)
    // A transport error is retried without an error in every other case; the list is not read.
    ensures ctxErr.None? && err.Some? && !Fatal(baseline(resp, err)) ==> v == Verdict(true, None)
    // With no transport error and no list, the baseline's verdict stands.
    ensures ctxErr.None? && err.None? && |successCodes| == 0 ==> v == baseline(resp, err)
    // With a list, membership alone decides, overriding a baseline that would retry or stop cleanly.
    ensures ctxErr.None? && err.None? && |successCodes| > 0 && !Fatal(baseline(resp, err)) ==>
      v == if resp.value.statusCode in successCodes then Verdict(false, None)
           else Verdict(true, Some(UnexpectedStatus(resp.value)))
  {
    if ctxErr.Some? then Verdict(false, ctxErr)
    else
      var base := baseline(resp, err);
      if !base.retry && base.err.Some? then Verdict(false, base.err)
      else if err.Some? then Verdict(true, None)
      else if |successCodes| == 0 then base
      else if Listed(resp.value.statusCode, successCodes) then Verdict(false, None)
      else Verdict(true, Some(UnexpectedStatus(resp.value)))
  }

  /** Only which codes are listed matters: not their order, not repeats. */
  lemma OnlyMembershipMatters(codes1: seq<int>, codes2: seq<int>, baseline: Baseline,
                              ctxErr: Option<Error>, resp: Option<Response>, err: Option<Error>)
    requires forall c :: c in codes1 ==> c in codes2
    requires forall c :: c in codes2 ==> c in codes1
    requires err.None? && (|codes1| > 0 || |codes2| > 0) ==> resp.Some?
    ensures |codes1| > 0 <==> |codes2| > 0
    ensures CheckRetry(codes1, baseline, ctxErr, resp, err) == CheckRetry(codes2, baseline, ctxErr, resp, err)
  {
    if |codes1| > 0 {
      var c := codes1[0];
      assert c in codes1;
    }
    if |codes2| > 0 {
      var c := codes2[0];
      assert c in codes2;
    }
  }

  /** With a transport error the list is never consulted. */
  lemma TransportErrorIgnoresList(codes1: seq<int>, codes2: seq<int>, baseline: Baseline,
                                  ctxErr: Option<Error>, resp: Option<Response>, e: Error)
    ensures CheckRetry(codes1, baseline, ctxErr, resp, Some(e)) == CheckRetry(codes2, baseline, ctxErr, resp, Some(e))
  {
  }

  /** What one try observed: the context's error at decision time, the
      response and the transport error. */
  datatype Observation = Observation(ctxErr: Option<Error>, resp: Option<Response>, err: Option<Error>)

  /** A try either failed in transport or brought back a response. */
  predicate Delivered(o: Observation)
  {
    o.err.None? ==> o.resp.Some?
  }

  function Decide(codes: seq<int>, baseline: Baseline, o: Observation): Verdict
    requires Delivered(o)
  {
    CheckRetry(codes, baseline, o.ctxErr, o.resp, o.err)
  }

  /** The number of tries made from try i on, where server(k) is what try k
      observes and retryMax is the client's RetryMax: stop when the policy
      says so or when the retries are used up. */
  function TriesFrom(codes: seq<int>, baseline: Baseline, server: nat -> Observation, retryMax: nat, i: nat): (n: nat)
    requires i <= retryMax
    requires forall k :: Delivered(server(k))
    ensures i < n <= retryMax + 1
    decreases retryMax - i
  {
    if !Decide(codes, baseline, server(i)).retry || i == retryMax then i + 1
    else TriesFrom(codes, baseline, server, retryMax, i + 1)
  }

  /** N retries allow at most N + 1 tries (resource_http.go, line 193). */
  function Tries(codes: seq<int>, baseline: Baseline, server: nat -> Observation, retryMax: nat): (n: nat)
    requires forall k :: Delivered(server(k))
    ensures 1 <= n <= retryMax + 1
  {
    TriesFrom(codes, baseline, server, retryMax, 0)
  }

  /** When every try from i on is judged retryable, every retry is used. */
  lemma {:induction false} RetriedUntilExhausted(codes: seq<int>, baseline: Baseline, server: nat -> Observation,
                                                 retryMax: nat, i: nat)
    requires i <= retryMax
    requires forall k :: Delivered(server(k))
    requires forall k :: i <= k <= retryMax ==> Decide(codes, baseline, server(k)).retry
    ensures TriesFrom(codes, baseline, server, retryMax, i) == retryMax + 1
    decreases retryMax - i
  {
    if i < retryMax {
      RetriedUntilExhausted(codes, baseline, server, retryMax, i + 1);
    }
  }

  /** A try that observed the given status with no error and a live context. */
  predicate Answered(o: Observation, code: int)
  {
    o.ctxErr.None? && o.err.None? && o.resp.Some? && o.resp.value.statusCode == code
  }

  /** A server that always answers 503 uses up all N + 1 tries, unless 503 is
      among the success codes. */
  lemma ServiceUnavailableUsesEveryTry(codes: seq<int>, baseline: Baseline, server: nat -> Observation, retryMax: nat)
    requires RetriesAsDocumented(baseline)
    requires forall k :: Delivered(server(k)) && Answered(server(k), 503)
    requires 503 !in codes
    ensures Tries(codes, baseline, server, retryMax) == retryMax + 1
  {
    forall k | 0 <= k <= retryMax
      ensures Decide(codes, baseline, server(k)).retry
    {
      var r := server(k).resp.value;
      assert baseline(Some(r), None).retry;
    }
    RetriedUntilExhausted(codes, baseline, server, retryMax, 0);
  }

  /** With no success codes, a 501 ends the tries after the first. */
  lemma NotImplementedTriedOnce(baseline: Baseline, server: nat -> Observation, retryMax: nat)
    requires RetriesAsDocumented(baseline)
    requires forall k :: Delivered(server(k))
    requires Answered(server(0), 501)
    ensures Tries([], baseline, server, retryMax) == 1
  {
    var r := server(0).resp.value;
    assert !baseline(Some(r), None).retry;
  }

  /** A status outside a non-empty list is retried until the retries run
      out, even one the baseline would accept (200 against [201]), and the
      last verdict reports it as unexpected. */
  lemma UnlistedStatusUsesEveryTry(codes: seq<int>, baseline: Baseline, r: Response, retryMax: nat)
    requires |codes| > 0 && r.statusCode !in codes
    requires !Fatal(baseline(Some(r), None))
    ensures Tries(codes, baseline, _ => Observation(None, Some(r), None), retryMax) == retryMax + 1
    ensures Decide(codes, baseline, Observation(None, Some(r), None)) == Verdict(true, Some(UnexpectedStatus(r)))
  {
    RetriedUntilExhausted(codes, baseline, _ => Observation(None, Some(r), None), retryMax, 0);
  }

  /** A context that is already done allows one try only. */
  lemma CancelledTriedOnce(codes: seq<int>, baseline: Baseline, server: nat -> Observation, retryMax: nat)
    requires forall k :: Delivered(server(k))
    requires server(0).ctxErr.Some?
    ensures Tries(codes, baseline, server, retryMax) == 1
  {
  }

  /** A transport error is not retried when the baseline stops with an
      error: the baseline's stop is checked before the transport error. */
  lemma FatalBaselineBeatsTransportError(codes: seq<int>, e: Error, e2: Error)
    ensures var baseline: Baseline := (_, _) => Verdict(false, Some(e2));
            CheckRetry(codes, baseline, None, None, Some(e)) == Verdict(false, Some(e2))
  {
  }
}
