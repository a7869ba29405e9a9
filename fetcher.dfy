/** fetchOpenChargeMapData (src/service/ChargingStationService.ts:24-51): one
    request per attempt, and on failure a decision between giving up with an
    AuthorizeError, waiting and calling itself again, or giving up with an
    APIError. The HTTP client is replaced by the list of outcomes its requests
    have, in order; the rate limiter passes the request through. */
module Fetcher {
  import opened Common
  import opened Errors
  import opened Records

  /** What one request produced: the response body, or a failure with the
      HTTP status of its response (none when no response arrived) and the
      client's error message. */
  datatype Attempt =
    | Response(data: seq<ChargingStation>)
    | Failure(status: Option<int>, message: string)

  /** How a call ends: with the data, by throwing, or with the supplied
      outcomes used up while the call still wants to request again. */
  datatype FetchResult =
    | Fetched(data: seq<ChargingStation>)
    | Rejected(error: BaseError)
    | OutOfAttempts

  /** The end of a call, with the page size (`maxresults`) of every request
      sent and every backoff waited, in order. */
  datatype FetchTrace = FetchTrace(result: FetchResult, pageSizes: seq<int>, delays: seq<real>)

  const INVALID_API_KEY: string := "Invalid API key"
  const FETCH_FAILED_PREFIX: string := "Failed to fetch data from API: "

  function Pow2(e: nat): (p: nat)
    ensures p >= 1
  {
    if e == 0 then 1 else 2 * Pow2(e - 1)
  }

  /** `Math.pow(2, 5 - retries) * 1000` milliseconds, exactly: a fraction of a
      second once `retries` exceeds 5. */
  function Backoff(retries: int): (d: real)
    ensures d > 0.0
  {
    if retries <= 5 then (Pow2(5 - retries) * 1000) as real
    else 1000.0 / (Pow2(retries - 5) as real)
  }

  /** The backoff doubles each time `retries` goes down by one. */
  lemma BackoffDoubles(retries: int)
    ensures Backoff(retries - 1) == 2.0 * Backoff(retries)
  {
    if retries >= 7 {
      var p := Pow2(retries - 6) as real;
      assert Pow2(retries - 5) as real == 2.0 * p;
      assert Backoff(retries) == 1000.0 / (2.0 * p);
      assert Backoff(retries - 1) == 1000.0 / p;
    }
  }

  /** With at most five retries left, the backoff is a whole number of
      seconds: 16 s with one retry left, halving down to 1 s with five. */
  lemma BackoffSeconds()
    ensures Backoff(1) == 16000.0 && Backoff(2) == 8000.0 && Backoff(3) == 4000.0
    ensures Backoff(4) == 2000.0 && Backoff(5) == 1000.0
  {
    assert Pow2(4) == 16;
  }

  /** The error that one failed attempt ends the call with, when it ends it:
      a 403 response while retries remain means a rejected API key; with no
      retries left, any failure (a 403 too) is reported by its message. */
  function GiveUpError(retries: int, status: Option<int>, message: string): (e: Option<BaseError>)
    ensures e.None? <==> retries > 0 && status != Some(403)
    ensures retries > 0 && status == Some(403) ==>
      e == Some(AuthorizeError(Some("Invalid API key"), None)) && e.value.statusCode == 403
    ensures retries <= 0 ==>
      e == Some(APIError(Some("Failed to fetch data from API: " + message), None)) && e.value.statusCode == 500
  {
    if retries > 0 && status == Some(403) then Some(AuthorizeError(Some(INVALID_API_KEY), None))
    else if retries > 0 then None
    else Some(APIError(Some(FETCH_FAILED_PREFIX + message), None))
  }

  /** The call as written: a retry is `this.fetchOpenChargeMapData(retries - 1)`,
      so `retries - 1` becomes the next page size and the retry count starts
      again from its default, `maxRetries`. */
  function FetchRun(maxresults: int, retries: int, maxRetries: int, attempts: seq<Attempt>): FetchTrace
    decreases |attempts|
  {
    if attempts == [] then FetchTrace(OutOfAttempts, [], [])
    else match attempts[0]
      case Response(data) => FetchTrace(Fetched(data), [maxresults], [])
      case Failure(status, message) =>
        match GiveUpError(retries, status, message)
        case Some(e) => FetchTrace(Rejected(e), [maxresults], [])
        case None =>
          var rest := FetchRun(retries - 1, maxRetries, maxRetries, attempts[1..]);
          FetchTrace(rest.result, [maxresults] + rest.pageSizes, [Backoff(retries)] + rest.delays)
  }

  /** A trace preceded by the requests and waits of the calls before it. */
  function After(pageSizes: seq<int>, delays: seq<real>, t: FetchTrace): FetchTrace {
    FetchTrace(t.result, pageSizes + t.pageSizes, delays + t.delays)
  }

  /** One call of the recursion, as the loop below takes it: a request of the
      current page size, then either the end of the call or a wait and the
      next call. */
  lemma {:induction false} FetchRunStep(pageSizes: seq<int>, delays: seq<real>, size: int, left: int, maxRetries: int,
                                        attempts: seq<Attempt>)
    requires attempts != []
    ensures attempts[0].Response? ==>
      After(pageSizes, delays, FetchRun(size, left, maxRetries, attempts))
        == FetchTrace(Fetched(attempts[0].data), pageSizes + [size], delays)
    ensures attempts[0].Failure? ==>
      var stop := GiveUpError(left, attempts[0].status, attempts[0].message);
      After(pageSizes, delays, FetchRun(size, left, maxRetries, attempts))
        == if stop.Some? then FetchTrace(Rejected(stop.value), pageSizes + [size], delays)
           else After(pageSizes + [size], delays + [Backoff(left)], FetchRun(left - 1, maxRetries, maxRetries, attempts[1..]))
  {
    if attempts[0].Failure? && GiveUpError(left, attempts[0].status, attempts[0].message).None? {
      var rest := FetchRun(left - 1, maxRetries, maxRetries, attempts[1..]);
      assert pageSizes + ([size] + rest.pageSizes) == (pageSizes + [size]) + rest.pageSizes;
      assert delays + ([Backoff(left)] + rest.delays) == (delays + [Backoff(left)]) + rest.delays;
    }
  }

  /** fetchOpenChargeMapData with its recursion unrolled into a loop: the
      page size and retry count of the current call, the requests sent and
      the delays waited so far. */
  method FetchOpenChargeMapData(maxresults: int, retries: int, maxRetries: int, attempts: seq<Attempt>)
    returns (r: FetchResult, pageSizes: seq<int>, delays: seq<real>)
    ensures FetchTrace(r, pageSizes, delays) == FetchRun(maxresults, retries, maxRetries, attempts)
  {
    var size, left := maxresults, retries;
    var k := 0;
    pageSizes, delays := [], [];
    assert After([], [], FetchRun(size, left, maxRetries, attempts[k..])) == FetchRun(maxresults, retries, maxRetries, attempts) by {
      assert attempts[k..] == attempts;
    }
    while k < |attempts|
      invariant 0 <= k <= |attempts|
      invariant FetchRun(maxresults, retries, maxRetries, attempts)
        == After(pageSizes, delays, FetchRun(size, left, maxRetries, attempts[k..]))
      decreases |attempts| - k
    {
      var a := attempts[k];
      if a.Response? {
        assert FetchTrace(Fetched(a.data), pageSizes + [size], delays) == FetchRun(maxresults, retries, maxRetries, attempts) by {
          FetchRunStep(pageSizes, delays, size, left, maxRetries, attempts[k..]);
          assert attempts[k..][0] == a;
        }
        return Fetched(a.data), pageSizes + [size], delays;
      }
      var stop := GiveUpError(left, a.status, a.message);
      if stop.Some? {
        assert FetchTrace(Rejected(stop.value), pageSizes + [size], delays) == FetchRun(maxresults, retries, maxRetries, attempts) by {
          FetchRunStep(pageSizes, delays, size, left, maxRetries, attempts[k..]);
          assert attempts[k..][0] == a;
        }
        return Rejected(stop.value), pageSizes + [size], delays;
      }
      assert FetchRun(maxresults, retries, maxRetries, attempts)
        == After(pageSizes + [size], delays + [Backoff(left)], FetchRun(left - 1, maxRetries, maxRetries, attempts[k + 1..])) by {
        FetchRunStep(pageSizes, delays, size, left, maxRetries, attempts[k..]);
        assert attempts[k..][0] == a;
        assert attempts[k..][1..] == attempts[k + 1..];
      }
      pageSizes, delays := pageSizes + [size], delays + [Backoff(left)];
      size, left := left - 1, maxRetries;
      k := k + 1;
    }
    assert attempts[k..] == [];
    r := OutOfAttempts;
  }

  /** A first attempt that succeeds returns its body after one request of
      the caller's page size. */
  lemma {:induction false} FirstResponseReturned(maxresults: int, retries: int, maxRetries: int, attempts: seq<Attempt>)
    requires attempts != [] && attempts[0].Response?
    ensures FetchRun(maxresults, retries, maxRetries, attempts)
      == FetchTrace(Fetched(attempts[0].data), [maxresults], [])
  {
  }

  /** A failure that ends the call ends it at once: no wait and no further
      request. */
  lemma {:induction false} GiveUpIsImmediate(maxresults: int, retries: int, maxRetries: int, attempts: seq<Attempt>)
    requires attempts != [] && attempts[0].Failure?
    requires GiveUpError(retries, attempts[0].status, attempts[0].message).Some?
    ensures var t := FetchRun(maxresults, retries, maxRetries, attempts);
      && t.result == Rejected(GiveUpError(retries, attempts[0].status, attempts[0].message).value)
      && t.pageSizes == [maxresults] && t.delays == []
  {
  }

  /** Any call sends one request per outcome it consumes, the first of the
      caller's page size, and waits once after every failure it retries. */
  lemma {:induction false} RequestsAndWaits(maxresults: int, retries: int, maxRetries: int, attempts: seq<Attempt>)
    ensures var t := FetchRun(maxresults, retries, maxRetries, attempts);
      && |t.pageSizes| <= |attempts|
      && (attempts != [] ==> t.pageSizes[0] == maxresults)
      && (attempts == [] ==> t == FetchTrace(OutOfAttempts, [], []))
      && (t.result != OutOfAttempts ==> |t.pageSizes| == |t.delays| + 1)
      && (t.result == OutOfAttempts ==> |t.pageSizes| == |t.delays| == |attempts|)
    decreases |attempts|
  {
    if attempts != [] && attempts[0].Failure?
       && GiveUpError(retries, attempts[0].status, attempts[0].message).None? {
      RequestsAndWaits(retries - 1, maxRetries, maxRetries, attempts[1..]);
    }
  }

  /** A failure that is not a rejected key. */
  predicate Transient(a: Attempt) {
    a.Failure? && a.status != Some(403)
  }

  /** As written, a server that keeps failing is asked again forever, when
      the default retry count is positive: however many failures are supplied,
      the call is still retrying after the last one. The first retry asks for
      `retries - 1` results, every later one for `maxRetries - 1`, and every
      wait after the first is `Backoff(maxRetries)`. */
  lemma {:induction false} AsWrittenNeverGivesUp(maxresults: int, retries: int, maxRetries: int, attempts: seq<Attempt>)
    requires retries > 0 && maxRetries > 0
    requires forall k :: 0 <= k < |attempts| ==> Transient(attempts[k])
    ensures var t := FetchRun(maxresults, retries, maxRetries, attempts);
      && t.result == OutOfAttempts
      && |t.pageSizes| == |t.delays| == |attempts|
      && (attempts != [] ==> t.pageSizes[0] == maxresults && t.delays[0] == Backoff(retries))
      && (|attempts| > 1 ==> t.pageSizes[1] == retries - 1)
      && (forall k :: 2 <= k < |attempts| ==> t.pageSizes[k] == maxRetries - 1)
      && (forall k :: 1 <= k < |attempts| ==> t.delays[k] == Backoff(maxRetries))
    decreases |attempts|
  {
    if attempts != [] {
      assert Transient(attempts[0]);
      var rest := attempts[1..];
      forall k | 0 <= k < |rest| ensures Transient(rest[k]) {
        assert rest[k] == attempts[k + 1];
      }
      AsWrittenNeverGivesUp(retries - 1, maxRetries, maxRetries, rest);
      var t := FetchRun(maxresults, retries, maxRetries, attempts);
      var u := FetchRun(retries - 1, maxRetries, maxRetries, rest);
      assert t.pageSizes == [maxresults] + u.pageSizes && t.delays == [Backoff(retries)] + u.delays;
      forall k | 1 <= k < |attempts|
        ensures t.pageSizes[k] == u.pageSizes[k - 1] && t.delays[k] == u.delays[k - 1]
      {
      }
    }
  }

  /** An instance: with a default of three retries, five failed requests for
      ten results each leave the call still waiting to ask for two results
      again. */
  lemma AsWrittenExample()
    ensures var fail := Failure(Some(500), "Request failed with status code 500");
      FetchRun(10, 3, 3, [fail, fail, fail, fail, fail])
        == FetchTrace(OutOfAttempts, [10, 2, 2, 2, 2], [4000.0, 4000.0, 4000.0, 4000.0, 4000.0])
  {
    var fail := Failure(Some(500), "Request failed with status code 500");
    AsWrittenNeverGivesUp(10, 3, 3, [fail, fail, fail, fail, fail]);
    assert Pow2(2) == 4;
  }

  /** The evidently intended call: a retry keeps the page size and counts
      the retries down, `this.fetchOpenChargeMapData(maxresults, retries - 1)`. */
  function FetchIntended(maxresults: int, retries: int, attempts: seq<Attempt>): FetchTrace
    decreases |attempts|
  {
    if attempts == [] then FetchTrace(OutOfAttempts, [], [])
    else match attempts[0]
      case Response(data) => FetchTrace(Fetched(data), [maxresults], [])
      case Failure(status, message) =>
        match GiveUpError(retries, status, message)
        case Some(e) => FetchTrace(Rejected(e), [maxresults], [])
        case None =>
          var rest := FetchIntended(maxresults, retries - 1, attempts[1..]);
          FetchTrace(rest.result, [maxresults] + rest.pageSizes, [Backoff(retries)] + rest.delays)
  }

  /** The corrected call sends at most `retries + 1` requests, all of the
      caller's page size, and so always ends once that many outcomes are
      supplied; each wait is twice the next. */
  lemma {:induction false} IntendedIsBounded(maxresults: int, retries: int, attempts: seq<Attempt>)
    requires retries >= 0
    ensures var t := FetchIntended(maxresults, retries, attempts);
      && |t.pageSizes| <= retries + 1
      && (forall k :: 0 <= k < |t.pageSizes| ==> t.pageSizes[k] == maxresults)
      && (forall k :: 0 <= k < |t.delays| ==> t.delays[k] == Backoff(retries - k))
      && (|attempts| > retries ==> t.result != OutOfAttempts)
    decreases |attempts|
  {
    if attempts != [] && attempts[0].Failure?
       && GiveUpError(retries, attempts[0].status, attempts[0].message).None? {
      IntendedIsBounded(maxresults, retries - 1, attempts[1..]);
      var t := FetchIntended(maxresults, retries, attempts);
      var rest := FetchIntended(maxresults, retries - 1, attempts[1..]);
      assert t.pageSizes == [maxresults] + rest.pageSizes;
      assert t.delays == [Backoff(retries)] + rest.delays;
      forall k | 0 <= k < |t.delays| ensures t.delays[k] == Backoff(retries - k) {
        if k > 0 { assert t.delays[k] == rest.delays[k - 1]; }
      }
    }
  }

  /** With the server failing throughout, the corrected call gives up after
      exactly `retries + 1` requests, reporting the last failure's message,
      even when that failure is a 403. */
  lemma {:induction false} IntendedGivesUp(maxresults: int, retries: int, attempts: seq<Attempt>)
    requires retries >= 0 && |attempts| > retries
    requires forall k :: 0 <= k < retries ==> Transient(attempts[k])
    requires attempts[retries].Failure?
    ensures var t := FetchIntended(maxresults, retries, attempts);
      && |t.pageSizes| == retries + 1
      && t.result == Rejected(APIError(Some("Failed to fetch data from API: " + attempts[retries].message), None))
    decreases retries
  {
    if retries > 0 {
      assert Transient(attempts[0]);
      var rest := attempts[1..];
      forall k | 0 <= k < retries - 1 ensures Transient(rest[k]) {
        assert rest[k] == attempts[k + 1];
      }
      assert rest[retries - 1] == attempts[retries];
      IntendedGivesUp(maxresults, retries - 1, rest);
    }
  }
}
