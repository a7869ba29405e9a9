/** runWorker (src/service/ChargingStationService.ts:157-180): a promise that
    a worker thread settles through its `message`, `error` and `exit` events.
    The thread itself is left out; what it emits is a list of events in the
    order the event loop delivers them. */
module Workers {
  import opened Common
  import opened Errors

  /** What a worker emits: a posted message (the worker posts 'done' or
      `{type: 'error', message}`), an `error` event carrying an Error's
      message, or its exit code. */
  datatype WorkerEvent =
    | Message(posted: Posted)
    | ErrorEvent(message: string)
    | Exit(code: int)

  /** The state of a promise. */
  datatype Settlement = Pending | Resolved(value: bool) | Rejected(reason: Thrown)

  const EXIT_PREFIX: string := "Worker stopped with exit code "

  /** `message.type === 'error'`: a bare string has no `type`. */
  predicate IsErrorMessage(p: Posted) {
    p.PostedObject? && p.typ == Some("error")
  }

  /** What the handler of an event asks of the promise: to resolve or reject
      it with a value, or nothing (an exit with code 0). */
  function Decision(e: WorkerEvent): (d: Option<Settlement>)
    ensures e.Message? ==> d == Some(if IsErrorMessage(e.posted) then Rejected(PostedValue(e.posted)) else Resolved(true))
    ensures e.ErrorEvent? ==> d == Some(Rejected(Text(e.message)))
    ensures e.Exit? && e.code != 0 ==> d == Some(Rejected(Plain("Worker stopped with exit code " + IntToString(e.code))))
    ensures e.Exit? && e.code == 0 ==> d == None
  {
    match e
    case Message(p) => Some(if IsErrorMessage(p) then Rejected(PostedValue(p)) else Resolved(true))
    case ErrorEvent(msg) => Some(Rejected(Text(msg)))
    case Exit(code) => if code != 0 then Some(Rejected(Plain(EXIT_PREFIX + IntToString(code)))) else None
  }

  /** A promise settles once: calls to resolve or reject after that are ignored. */
  function Settle(s: Settlement, e: WorkerEvent): Settlement {
    if s.Pending? && Decision(e).Some? then Decision(e).value else s
  }

  /** An exit with a non-zero code also calls `worker.terminate()`. */
  predicate Terminates(e: WorkerEvent) {
    e.Exit? && e.code != 0
  }

  /** The promise after a list of events. */
  function SettleAll(s: Settlement, events: seq<WorkerEvent>): Settlement
    decreases |events|
  {
    if events == [] then s else Settle(SettleAll(s, events[..|events| - 1]), events[|events| - 1])
  }

  /** The number of `terminate()` calls after a list of events. */
  function TerminateCount(events: seq<WorkerEvent>): nat
    decreases |events|
  {
    if events == [] then 0
    else TerminateCount(events[..|events| - 1]) + (if Terminates(events[|events| - 1]) then 1 else 0)
  }

  /** The decision of the first event that makes one, read from the front. */
  function FirstDecision(events: seq<WorkerEvent>): (d: Option<Settlement>)
    ensures d.Some? ==> !d.value.Pending?
    decreases |events|
  {
    if events == [] then None
    else if Decision(events[0]).Some? then Decision(events[0])
    else FirstDecision(events[1..])
  }

  /** One promise and the worker that settles it. */
  class WorkerRun {
    var limit: int
    var settled: Settlement
    var terminateCalls: nat

    /** `new Worker(..., {workerData: {limit, ...}})` and the promise, pending. */
    constructor (limit: int)
      ensures this.limit == limit && settled == Pending && terminateCalls == 0
    {
      this.limit := limit;
      settled := Pending;
      terminateCalls := 0;
    }

    /** The handler registered for one event. */
    method OnEvent(e: WorkerEvent)
      modifies this
      ensures settled == Settle(old(settled), e)
      ensures terminateCalls == old(terminateCalls) + (if Terminates(e) then 1 else 0)
      ensures limit == old(limit)
    {
      match e
      case Message(p) =>
        if IsErrorMessage(p) {
          Reject(PostedValue(p));
        } else {
          Resolve(true);
        }
      case ErrorEvent(msg) =>
        Reject(Text(msg));
      case Exit(code) =>
        if code != 0 {
          Reject(Plain(EXIT_PREFIX + IntToString(code)));
          terminateCalls := terminateCalls + 1;
        }
    }

    method Resolve(v: bool)
      modifies this
      ensures settled == (if old(settled).Pending? then Resolved(v) else old(settled))
      ensures terminateCalls == old(terminateCalls) && limit == old(limit)
    {
      if settled.Pending? {
        settled := Resolved(v);
      }
    }

    method Reject(reason: Thrown)
      modifies this
      ensures settled == (if old(settled).Pending? then Rejected(reason) else old(settled))
      ensures terminateCalls == old(terminateCalls) && limit == old(limit)
    {
      if settled.Pending? {
        settled := Rejected(reason);
      }
    }

    /** Delivers the events in order. */
    method Deliver(events: seq<WorkerEvent>)
      modifies this
      ensures settled == SettleAll(old(settled), events)
      ensures terminateCalls == old(terminateCalls) + TerminateCount(events)
      ensures limit == old(limit)
    {
      var i := 0;
      while i < |events|
        invariant 0 <= i <= |events|
        invariant settled == SettleAll(old(settled), events[..i])
        invariant terminateCalls == old(terminateCalls) + TerminateCount(events[..i])
        invariant limit == old(limit)
      {
        assert events[..i + 1][..i] == events[..i];
        OnEvent(events[i]);
        i := i + 1;
      }
      assert events[..i] == events;
    }
  }

  /** runWorker(limit) followed by the worker's events: how the promise
      stands afterwards, and how often the worker was terminated. */
  method RunWorker(limit: int, events: seq<WorkerEvent>) returns (s: Settlement, terminateCalls: nat)
    ensures s == FirstDecision(events).GetOr(Pending)
    ensures terminateCalls == TerminateCount(events)
  {
    var w := new WorkerRun(limit);
    w.Deliver(events);
    SettleAllIsFirstDecision(events);
    s, terminateCalls := w.settled, w.terminateCalls;
  }

  /** Once settled, a promise stays as it is whatever events follow. */
  lemma {:induction false} SettledStays(s: Settlement, events: seq<WorkerEvent>)
    requires !s.Pending?
    ensures SettleAll(s, events) == s
    decreases |events|
  {
    if events != [] {
      SettledStays(s, events[..|events| - 1]);
    }
  }

  /** Events can be delivered in two parts. */
  lemma {:induction false} SettleAllAppend(s: Settlement, a: seq<WorkerEvent>, b: seq<WorkerEvent>)
    ensures SettleAll(s, a + b) == SettleAll(SettleAll(s, a), b)
    decreases |b|
  {
    if b == [] {
      assert a + b == a;
    } else {
      assert (a + b)[..|a + b| - 1] == a + b[..|b| - 1];
      assert (a + b)[|a + b| - 1] == b[|b| - 1];
      SettleAllAppend(s, a, b[..|b| - 1]);
    }
  }

  /** An event appended after the events that settled nothing decides. */
  lemma {:induction false} FirstDecisionAppend(a: seq<WorkerEvent>, e: WorkerEvent)
    ensures FirstDecision(a + [e]) == if FirstDecision(a).Some? then FirstDecision(a) else Decision(e)
    decreases |a|
  {
    if a != [] {
      assert (a + [e])[1..] == a[1..] + [e];
      FirstDecisionAppend(a[1..], e);
    }
  }

  /** The promise is settled by the first event whose handler resolves or
      rejects, with that handler's value; it stays pending when no such event
      comes (a worker that exits with code 0 without posting a message). */
  lemma {:induction false} SettleAllIsFirstDecision(events: seq<WorkerEvent>)
    ensures SettleAll(Pending, events) == FirstDecision(events).GetOr(Pending)
    decreases |events|
  {
    if events != [] {
      var init := events[..|events| - 1];
      var e := events[|events| - 1];
      assert events == init + [e];
      SettleAllIsFirstDecision(init);
      FirstDecisionAppend(init, e);
    }
  }

  /** The test scenarios: a success message resolves true; an error message
      rejects with that very object; an error event rejects with its message
      text; exit code 1 rejects with an Error and terminates the worker. */
  lemma WorkerScenarios()
    ensures SettleAll(Pending, [Message(PostedObject(Some("success"), None))]) == Resolved(true)
    ensures SettleAll(Pending, [Message(PostedText("done"))]) == Resolved(true)
    ensures var m := PostedObject(Some("error"), Some("Something went wrong"));
      SettleAll(Pending, [Message(m)]) == Rejected(PostedValue(m))
    ensures SettleAll(Pending, [ErrorEvent("Worker error")]) == Rejected(Text("Worker error"))
    ensures SettleAll(Pending, [Exit(1)]) == Rejected(Plain("Worker stopped with exit code 1"))
    ensures TerminateCount([Exit(1)]) == 1
    ensures SettleAll(Pending, [Exit(0)]) == Pending
  {
    assert [Exit(1)][..0] == [];
    assert IntToString(1) == "1";
    assert EXIT_PREFIX + IntToString(1) == "Worker stopped with exit code 1";
  }
}
