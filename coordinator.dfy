/** importDataConcurrently (src/service/ChargingStationService.ts:182-195):
    start CONCURRENCY workers with BATCH_SIZE each, then wait for all of them
    the way Promise.all does. The workers run in parallel; here their events
    arrive as one interleaved trace, in the order the event loop delivers
    them, and each event goes to the promise of the worker that emitted it. */
module Coordinator {
  import opened Common
  import opened Errors
  import opened Workers

  /** One delivered event, tagged with the position of its worker in the
      `promises` array. */
  datatype TraceEntry = TraceEntry(worker: nat, event: WorkerEvent)

  /** How the awaited Promise.all stands after the trace: every worker
      resolved, rejected (and rethrown as an APIError), or still waiting. */
  datatype ConcurrentOutcome = Done | Failed(error: BaseError) | Waiting

  /** How many times `for (let i = 0; i < CONCURRENCY; i++)` runs. */
  function Launched(concurrency: int): (n: nat)
    ensures concurrency >= 0 ==> n == concurrency
    ensures concurrency < 0 ==> n == 0
  {
    if concurrency > 0 then concurrency else 0
  }

  /** The events of one worker, in trace order. */
  function EventsOf(trace: seq<TraceEntry>, w: nat): seq<WorkerEvent>
    decreases |trace|
  {
    if trace == [] then []
    else EventsOf(trace[..|trace| - 1], w)
         + (if trace[|trace| - 1].worker == w then [trace[|trace| - 1].event] else [])
  }

  /** A worker's promise after the first `k` entries of the trace. */
  function StateBefore(trace: seq<TraceEntry>, k: nat, w: nat): Settlement
    requires k <= |trace|
  {
    SettleAll(Pending, EventsOf(trace[..k], w))
  }

  /** A worker's promise after the whole trace. */
  function FinalOf(trace: seq<TraceEntry>, w: nat): Settlement {
    SettleAll(Pending, EventsOf(trace, w))
  }

  /** Entry `k` rejects the promise of one of the launched workers that was
      still pending: the moment Promise.all rejects, if no earlier entry did. */
  predicate RejectsAt(trace: seq<TraceEntry>, n: nat, k: nat)
    requires k < |trace|
  {
    var t := trace[k];
    && t.worker < n
    && StateBefore(trace, k, t.worker).Pending?
    && Decision(t.event).Some? && Decision(t.event).value.Rejected?
  }

  /** Entry `k` changes only its own worker's promise, by that worker's handler. */
  lemma {:induction false} StateStep(trace: seq<TraceEntry>, k: nat, w: nat)
    requires k < |trace|
    ensures StateBefore(trace, k + 1, w)
      == if trace[k].worker == w then Settle(StateBefore(trace, k, w), trace[k].event) else StateBefore(trace, k, w)
  {
    var pre, step := trace[..k + 1], trace[k];
    assert pre[..k] == trace[..k];
    assert pre[k] == step;
    var es := EventsOf(trace[..k], w);
    if step.worker == w {
      assert EventsOf(pre, w) == es + [step.event];
      assert (es + [step.event])[..|es|] == es;
    } else {
      assert EventsOf(pre, w) == es + [];
      assert es + [] == es;
    }
  }

  /** The trace splits at any point into the events before and after it. */
  lemma {:induction false} EventsOfSplit(trace: seq<TraceEntry>, k: nat, w: nat)
    requires k <= |trace|
    ensures EventsOf(trace, w) == EventsOf(trace[..k], w) + EventsOf(trace[k..], w)
    decreases |trace|
  {
    if |trace| == k {
      assert trace[..k] == trace;
      assert trace[k..] == [];
    } else {
      var init := trace[..|trace| - 1];
      EventsOfSplit(init, k, w);
      assert init[..k] == trace[..k];
      assert init[k..] == trace[k..][..|trace[k..]| - 1];
      assert trace[k..][|trace[k..]| - 1] == trace[|trace| - 1];
    }
  }

  /** A promise that is rejected somewhere along the trace was rejected by
      some entry while it was still pending. */
  lemma {:induction false} RejectionHasCause(trace: seq<TraceEntry>, n: nat, k: nat, w: nat)
    requires k <= |trace| && w < n
    requires StateBefore(trace, k, w).Rejected?
    ensures exists j :: 0 <= j < k && RejectsAt(trace, n, j)
    decreases k
  {
    assert trace[..0] == [];
    var j := k - 1;
    StateStep(trace, j, w);
    if trace[j].worker == w && StateBefore(trace, j, w).Pending? {
      assert RejectsAt(trace, n, j);
    } else {
      RejectionHasCause(trace, n, j, w);
    }
  }

  /** A promise settled partway along the trace ends the trace that way. */
  lemma {:induction false} SettledIsFinal(trace: seq<TraceEntry>, k: nat, w: nat)
    requires k <= |trace|
    requires !StateBefore(trace, k, w).Pending?
    ensures FinalOf(trace, w) == StateBefore(trace, k, w)
  {
    EventsOfSplit(trace, k, w);
    SettleAllAppend(Pending, EventsOf(trace[..k], w), EventsOf(trace[k..], w));
    SettledStays(StateBefore(trace, k, w), EventsOf(trace[k..], w));
  }

  /** A trace in which no entry rejects a pending promise leaves none rejected. */
  lemma {:induction false} NoRejectionNoFailure(trace: seq<TraceEntry>, n: nat)
    requires forall j :: 0 <= j < |trace| ==> !RejectsAt(trace, n, j)
    ensures forall w :: 0 <= w < n ==> !FinalOf(trace, w).Rejected?
  {
    assert trace[..|trace|] == trace;
    forall w | 0 <= w < n ensures !FinalOf(trace, w).Rejected? {
      if FinalOf(trace, w).Rejected? {
        RejectionHasCause(trace, n, |trace|, w);
      }
    }
  }

  /** The promises after one more entry: its worker's promise, if launched,
      goes through that worker's handler. */
  function Step(promises: seq<Settlement>, t: TraceEntry): (next: seq<Settlement>)
    ensures |next| == |promises|
  {
    if t.worker < |promises| then promises[t.worker := Settle(promises[t.worker], t.event)] else promises
  }

  /** The entry takes a launched pending promise to rejected. */
  predicate StepRejects(promises: seq<Settlement>, t: TraceEntry) {
    t.worker < |promises| && promises[t.worker].Pending? && Settle(promises[t.worker], t.event).Rejected?
  }

  /** Delivering entry `k` to the promises as they stand after the first `k`
      entries gives the promises after `k + 1`; the entry rejects a pending
      promise exactly when its worker's promise goes from pending to rejected. */
  lemma {:induction false} PromisesStep(trace: seq<TraceEntry>, k: nat, n: nat, promises: seq<Settlement>)
    requires k < |trace| && |promises| == n
    requires forall w :: 0 <= w < n ==> promises[w] == StateBefore(trace, k, w)
    ensures forall w :: 0 <= w < n ==> Step(promises, trace[k])[w] == StateBefore(trace, k + 1, w)
    ensures RejectsAt(trace, n, k) <==> StepRejects(promises, trace[k])
  {
    forall w | 0 <= w < n
      ensures StateBefore(trace, k + 1, w)
        == if trace[k].worker == w then Settle(StateBefore(trace, k, w), trace[k].event) else StateBefore(trace, k, w)
    {
      StateStep(trace, k, w);
    }
  }

  /** No entry before position `k` rejects a pending promise. */
  predicate NoRejectionBefore(trace: seq<TraceEntry>, n: nat, k: nat)
    requires k <= |trace|
    decreases k
  {
    k == 0 || (NoRejectionBefore(trace, n, k - 1) && !RejectsAt(trace, n, k - 1))
  }

  lemma {:induction false} NoRejectionBeforeAll(trace: seq<TraceEntry>, n: nat, k: nat)
    requires k <= |trace|
    requires NoRejectionBefore(trace, n, k)
    ensures forall j :: 0 <= j < k ==> !RejectsAt(trace, n, j)
    decreases k
  {
    if k > 0 {
      NoRejectionBeforeAll(trace, n, k - 1);
    }
  }

  /** Where the awaited Promise.all over the launched workers' promises
      stands: every one resolved, rejected with the reason of the first
      rejection, or still waiting when the trace runs out. */
  datatype AllSettled = AllResolved | FirstRejected(reason: Thrown) | StillPending

  /** The entry that first rejects a pending promise leaves that promise
      rejected, with the reason its handler gave, at the end of the trace. */
  lemma {:induction false} FirstRejectionFinal(trace: seq<TraceEntry>, n: nat, k: nat)
    requires k < |trace| && RejectsAt(trace, n, k)
    ensures FinalOf(trace, trace[k].worker) == Decision(trace[k].event).value
  {
    StateStep(trace, k, trace[k].worker);
    SettledIsFinal(trace, k + 1, trace[k].worker);
  }

  /** `await Promise.all(promises)` over `n` pending promises: it rejects
      with the reason of the first entry that rejects one of them, and it
      resolves when all are resolved. */
  method AwaitAll(n: nat, trace: seq<TraceEntry>) returns (r: AllSettled)
    ensures r == AllResolved <==> forall w :: 0 <= w < n ==> FinalOf(trace, w).Resolved?
    ensures r.FirstRejected? <==> exists w :: 0 <= w < n && FinalOf(trace, w).Rejected?
    ensures r.FirstRejected? ==>
      exists k :: 0 <= k < |trace| && RejectsAt(trace, n, k)
        && (forall j :: 0 <= j < k ==> !RejectsAt(trace, n, j))
        && r.reason == Decision(trace[k].event).value.reason
  {
    var promises := seq(n, _ => Pending);
    forall w | 0 <= w < n ensures promises[w] == StateBefore(trace, 0, w) {
      assert trace[..0] == [];
    }
    var k := 0;
    while k < |trace|
      invariant 0 <= k <= |trace| && |promises| == n
      invariant forall w :: 0 <= w < n ==> promises[w] == StateBefore(trace, k, w)
      invariant NoRejectionBefore(trace, n, k)
      decreases |trace| - k
    {
      var t := trace[k];
      PromisesStep(trace, k, n, promises);
      if StepRejects(promises, t) {
        FirstRejectionFinal(trace, n, k);
        NoRejectionBeforeAll(trace, n, k);
        return FirstRejected(Settle(promises[t.worker], t.event).reason);
      }
      promises := Step(promises, t);
      k := k + 1;
    }
    assert trace[..k] == trace;
    assert forall w :: 0 <= w < n ==> promises[w] == FinalOf(trace, w);
    NoRejectionBeforeAll(trace, n, k);
    NoRejectionNoFailure(trace, n);
    if forall w :: 0 <= w < n ==> promises[w].Resolved? {
      return AllResolved;
    }
    return StillPending;
  }

  /** importDataConcurrently: the loop that starts the workers, then
      Promise.all over their promises; a rejection is rethrown as
      `new APIError(error.message)`. */
  method ImportDataConcurrently(batchSize: int, concurrency: int, trace: seq<TraceEntry>)
    returns (r: ConcurrentOutcome, launched: seq<int>)
    ensures launched == seq(Launched(concurrency), _ => batchSize)
    ensures r == Done <==> forall w :: 0 <= w < Launched(concurrency) ==> FinalOf(trace, w).Resolved?
    ensures r.Failed? <==> exists w :: 0 <= w < Launched(concurrency) && FinalOf(trace, w).Rejected?
    ensures r.Failed? ==>
      exists k :: 0 <= k < |trace| && RejectsAt(trace, Launched(concurrency), k)
        && (forall j :: 0 <= j < k ==> !RejectsAt(trace, Launched(concurrency), j))
        && r.error == WrapAsAPIError(Decision(trace[k].event).value.reason)
  {
    var promises: seq<int> := [];  // the limit each runWorker call got
    var i := 0;
    while i < concurrency
      invariant 0 <= i <= Launched(concurrency)
      invariant promises == seq(i, _ => batchSize)
    {
      promises := promises + [batchSize];
      i := i + 1;
    }
    launched := promises;
    var all := AwaitAll(i, trace);
    match all
    case AllResolved =>
      promises := [];  // promises.length = 0
      r := Done;
    case FirstRejected(reason) =>
      r := Failed(WrapAsAPIError(reason));
    case StillPending =>
      r := Waiting;
  }

  /** The message of the APIError the coordinator throws, by the kind of the
      first rejecting event: an error message keeps the worker's message
      (or falls back to the default when it has none), an exit keeps its
      text, but an error event's text is lost, since `reject(error.message)`
      rejects with a bare string and a string has no `message`. */
  lemma RejectionMessages(e: WorkerEvent)
    requires Decision(e).Some? && Decision(e).value.Rejected?
    ensures var m := WrapAsAPIError(Decision(e).value.reason).message;
      && (e.Message? ==> m == e.posted.message.GetOr("api error"))
      && (e.ErrorEvent? ==> m == "api error")
      && (e.Exit? ==> m == "Worker stopped with exit code " + IntToString(e.code))
  {
  }
}
