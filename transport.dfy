/** `_http_get`: a bounded retry loop with exponential backoff around one HTTP GET.
    The network is replaced by a script: `script[k]` is what `requests.get` produced on
    attempt `k`. Sleeping is replaced by recording the exponent of each wait: attempt `k`
    waits `backoff_base ** k` seconds, so the model records `k`. */
module Transport {
  import opened Base

  /** A response that made it out of `requests.get`; only its status matters here. */
  datatype Response = Response(status: int)

  /** What `requests.get` did on one attempt. */
  datatype Attempt = Responded(status: int) | Raised(error: Exc)

  /** What one pass of the loop body makes of an attempt: back off (remembering the caught
      exception, if any), hand the response back, or let a foreign exception escape. */
  datatype Verdict = Backoff(caught: Option<Exc>) | Deliver(response: Response) | Escape(error: Exc)

  /** Statuses answered by backing off without raising: server errors and rate limiting. */
  predicate Transient(status: int) {
    status >= 500 || status == 429
  }

  /** Statuses for which `Response.raise_for_status` raises `HTTPError`. */
  predicate RaisesForStatus(status: int) {
    400 <= status < 600
  }

  /** The loop body's decision for one attempt. */
  function Judge(a: Attempt): (v: Verdict)
    ensures v.Deliver? <==> a.Responded? && a.status < 400
    ensures v.Deliver? ==> v.response.status == a.status
    ensures v.Escape? <==> a.Raised? && !a.error.IsRequestException()
    ensures v.Escape? ==> v.error == a.error
    // a caught RequestException is held exactly as raised
    ensures a.Raised? && a.error.IsRequestException() ==> v == Backoff(Some(a.error))
    ensures v == Backoff(None) <==> a.Responded? && Transient(a.status)
    // any other 4xx is raised by raise_for_status and caught like a network failure
    ensures a.Responded? && 400 <= a.status < 500 && a.status != 429 ==>
              v == Backoff(Some(HTTPError(a.status)))
  {
    match a
    case Responded(s) =>
      if Transient(s) then Backoff(None)
      else if RaisesForStatus(s) then Backoff(Some(HTTPError(s)))
      else Deliver(Response(s))
    case Raised(e) =>
      if e.IsRequestException() then Backoff(Some(e)) else Escape(e)
  }

  /** An attempt that backed off holding an exception. */
  predicate Caught(a: Attempt) {
    Judge(a).Backoff? && Judge(a).caught.Some?
  }

  /** The exception held in `last_exc` after the attempts in `done`, if any: the one caught
      by the last attempt that caught one. */
  function LastCaught(done: seq<Attempt>): (r: Option<Exc>)
    ensures r.Some? ==> exists k :: 0 <= k < |done| && Judge(done[k]) == Backoff(r) &&
                                   forall j :: k < j < |done| ==> !Caught(done[j])
    ensures r.None? ==> forall k :: 0 <= k < |done| ==> !Caught(done[k])
  {
    if |done| == 0 then None
    else
      var last := done[|done| - 1];
      var rest := LastCaught(done[..|done| - 1]);
      assert forall k :: 0 <= k < |done| - 1 ==> done[..|done| - 1][k] == done[k];
      if Caught(last) then
        assert Judge(done[|done| - 1]) == Backoff(Some(Judge(last).caught.value));
        Judge(last).caught
      else rest
  }

  /** One more attempt updates `last_exc` only when it caught an exception. */
  lemma LastCaughtAppend(done: seq<Attempt>, a: Attempt)
    ensures LastCaught(done + [a]) == if Caught(a) then Judge(a).caught else LastCaught(done)
  {
    assert (done + [a])[..|done|] == done;
  }

  /** What `_http_get` raises once every attempt has backed off. */
  function ExhaustedError(done: seq<Attempt>): (e: Exc)
    ensures LastCaught(done).Some? ==> e == LastCaught(done).value
    ensures LastCaught(done).None? <==> e == RuntimeError("Unknown HTTP error contacting EIA")
  {
    match LastCaught(done)
    case Some(e) => e
    case None => RuntimeError("Unknown HTTP error contacting EIA")
  }

  /** `_http_get(url, retries)`. Returns the result, the exponents of the backoff waits in
      the order they happened, and the number of attempts made. */
  method HttpGet(script: seq<Attempt>, retries: int) returns (res: Result<Response, Exc>, waits: seq<nat>, made: nat)
    requires retries <= |script|
    ensures made <= |script| && (made == 0 <==> retries <= 0)
    ensures made <= retries || retries <= 0
    // every attempt before the last one made backed off, and the k-th wait is base ** k
    ensures |waits| == made || |waits| == made - 1
    // the loop stops early only on an attempt that did not back off
    ensures |waits| == made - 1 ==> made > 0 && !Judge(script[made - 1]).Backoff?
    ensures forall k :: 0 <= k < |waits| ==> waits[k] == k && Judge(script[k]).Backoff?
    // a response is returned only from the first attempt that did not back off, and it is
    // never a server error or a 429: it passed raise_for_status
    ensures res.Ok? <==> made > 0 && Judge(script[made - 1]).Deliver?
    ensures res.Ok? ==> |waits| == made - 1 && res.value == Judge(script[made - 1]).response
    ensures res.Ok? ==> res.value.status < 400 && !Transient(res.value.status)
    // an exception outside RequestException escapes at once
    ensures made > 0 && Judge(script[made - 1]).Escape? ==>
              |waits| == made - 1 && res == Err(script[made - 1].error)
    // otherwise all `retries` attempts backed off: the last caught exception is raised,
    // or a RuntimeError if only 5xx/429 statuses were seen
    ensures |waits| == made ==> made == (if retries <= 0 then 0 else retries) &&
                                res == Err(ExhaustedError(script[..made]))
  {
    var lastExc: Option<Exc> := None;
    waits := [];
    made := 0;
    var attempt := 0;
    while attempt < retries
      invariant 0 <= attempt <= (if retries <= 0 then 0 else retries)
      invariant made == attempt == |waits|
      invariant forall k :: 0 <= k < attempt ==> waits[k] == k && Judge(script[k]).Backoff?
      invariant lastExc == LastCaught(script[..attempt])
    {
      assert script[..attempt + 1] == script[..attempt] + [script[attempt]];
      LastCaughtAppend(script[..attempt], script[attempt]);
      made := attempt + 1;
      match script[attempt] {
        case Responded(status) =>
          if status >= 500 || status == 429 {
            // back off without raising
            assert Judge(script[attempt]) == Backoff(None);
            waits := waits + [attempt];
          } else if RaisesForStatus(status) {
            // raise_for_status raised HTTPError, caught by the except clause
            assert Judge(script[attempt]) == Backoff(Some(HTTPError(status)));
            lastExc := Some(HTTPError(status));
            waits := waits + [attempt];
          } else {
            assert Judge(script[attempt]) == Deliver(Response(status));
            res := Ok(Response(status));
            return;
          }
        case Raised(e) =>
          if e.IsRequestException() {
            assert Judge(script[attempt]) == Backoff(Some(e));
            lastExc := Some(e);
            waits := waits + [attempt];
          } else {
            assert Judge(script[attempt]) == Escape(e);
            res := Err(e);
            return;
          }
      }
      attempt := attempt + 1;
    }
    if lastExc.Some? {
      res := Err(lastExc.value);
    } else {
      res := Err(RuntimeError("Unknown HTTP error contacting EIA"));
    }
  }
}
