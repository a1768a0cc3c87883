/** `handleTransaction`: the one lifecycle every transfer goes through. It writes a
    progress message, runs the caller's building closure, reports the hash, waits for
    one confirmation and reports success, or classifies the first error as a
    cancellation or a failure. */
module Pipeline {
  import opened JsValues
  import opened Status

  /** The ethers error code of a request the user rejected in the wallet. */
  const ActionRejected := "ACTION_REJECTED"

  /** What a transaction-building closure did: the external calls it made, in order,
      and the transaction it returned or the error it threw. */
  datatype BuildRun = BuildRun(calls: seq<ExtCall>, result: Call<Tx>)

  /** The message of the catch block for error `e`: a cancellation exactly for the
      rejection code, otherwise a failure quoting the error's message. */
  function Terminal(action: string, e: JsError): (s: Status)
    ensures s.IsTerminal() && !s.Succeeded?
    ensures s.Cancelled? <==> e.code == Named(ActionRejected)
    ensures s.Cancelled? ==> s == Cancelled(action)
    ensures s.Failed? ==> s == Failed(action, e.message)
  {
    if e.code == Named(ActionRejected) then Cancelled(action) else Failed(action, e.message)
  }

  /** What `handleTransaction` records once the closure has returned with `result`:
      either the catch block's message, or the hash report, the wait and its outcome. */
  function Outcome(action: string, result: Call<Tx>, wait: Call<()>): (events: seq<Event>)
    ensures |events| > 0 && events[|events| - 1].Wrote? && events[|events| - 1].status.IsTerminal()
    ensures result.Err? <==> |events| == 1
    ensures result.Err? ==> events == [Wrote(Terminal(action, result.error))]
    ensures result.Ok? ==>
              |events| == 3 && events[..2] == [Wrote(Sent(result.value.hash)), Called(Wait(result.value.hash, 1))]
  {
    match result
    case Err(e) => [Wrote(Terminal(action, e))]
    case Ok(tx) =>
      [Wrote(Sent(tx.hash)), Called(Wait(tx.hash, 1))] +
      match wait
      case Ok(_) => [Wrote(Succeeded(action, tx.hash))]
      case Err(e) => [Wrote(Terminal(action, e))]
  }

  /** Everything `handleTransaction` records for closure run `run` and the outcome
      `wait` of `tx.wait(1)`, in order. */
  function PipelineLog(action: string, run: BuildRun, wait: Call<()>): (events: seq<Event>)
    ensures |events| >= 2 + |run.calls| && events[0] == Wrote(Pending(action))
    ensures events[1..1 + |run.calls|] == CallEvents(run.calls)
    ensures events[|events| - 1].Wrote? && events[|events| - 1].status.IsTerminal()
  {
    [Wrote(Pending(action))] + CallEvents(run.calls) + Outcome(action, run.result, wait)
  }

  /** The error that ended a run, if any: the closure's, else the confirmation's. */
  function RunFailure(run: BuildRun, wait: Call<()>): Option<JsError> {
    if run.result.Err? then Some(run.result.error)
    else if wait.Err? then Some(wait.error)
    else None
  }

  /** The status trace of each of the three ways a run can go, and the calls it makes:
      the closure's, then the wait on the returned transaction. */
  lemma PipelineTrace(action: string, run: BuildRun, wait: Call<()>)
    ensures run.result.Err? ==>
              Statuses(PipelineLog(action, run, wait)) == [Pending(action), Terminal(action, run.result.error)]
    ensures run.result.Ok? && wait.Err? ==>
              Statuses(PipelineLog(action, run, wait))
                == [Pending(action), Sent(run.result.value.hash), Terminal(action, wait.error)]
    ensures run.result.Ok? && wait.Ok? ==>
              Statuses(PipelineLog(action, run, wait))
                == [Pending(action), Sent(run.result.value.hash), Succeeded(action, run.result.value.hash)]
    ensures Calls(PipelineLog(action, run, wait))
              == run.calls + (if run.result.Ok? then [Wait(run.result.value.hash, 1)] else [])
  {
    var head := [Wrote(Pending(action))] + CallEvents(run.calls);
    CallEventsProjections(run.calls);
    StatusesAppend([Wrote(Pending(action))], CallEvents(run.calls));
    CallsAppend([Wrote(Pending(action))], CallEvents(run.calls));
    assert Statuses(head) == [Pending(action)];
    assert Calls(head) == run.calls;
    var tail := Outcome(action, run.result, wait);
    assert PipelineLog(action, run, wait) == head + tail;
    StatusesAppend(head, tail);
    CallsAppend(head, tail);
    match run.result
    case Err(e) =>
    case Ok(tx) =>
      var last := match wait
                  case Ok(_) => [Wrote(Succeeded(action, tx.hash))]
                  case Err(e) => [Wrote(Terminal(action, e))];
      assert tail == [Wrote(Sent(tx.hash)), Called(Wait(tx.hash, 1))] + last;
      StatusesAppend([Wrote(Sent(tx.hash)), Called(Wait(tx.hash, 1))], last);
      CallsAppend([Wrote(Sent(tx.hash)), Called(Wait(tx.hash, 1))], last);
  }

  /** A run writes exactly one terminal message, as the last thing it does (nothing is
      called or written after it), and it starts with the progress message. */
  lemma PipelineOneTerminal(action: string, run: BuildRun, wait: Call<()>)
    ensures var t := Statuses(PipelineLog(action, run, wait));
            && |t| >= 2 && t[0] == Pending(action)
            && t[|t| - 1].IsTerminal()
            && (forall i :: 0 <= i < |t| - 1 ==> !t[i].IsTerminal())
            && PipelineLog(action, run, wait)[|PipelineLog(action, run, wait)| - 1] == Wrote(t[|t| - 1])
  {
    PipelineTrace(action, run, wait);
  }

  /** A success message always comes after the message reporting the same hash. */
  lemma PipelineSucceededAfterSent(action: string, run: BuildRun, wait: Call<()>)
    ensures var t := Statuses(PipelineLog(action, run, wait));
            forall i :: 0 <= i < |t| && t[i].Succeeded? ==>
              exists j :: 0 <= j < i && t[j] == Sent(t[i].hash)
  {
    PipelineTrace(action, run, wait);
    var t := Statuses(PipelineLog(action, run, wait));
    if run.result.Ok? && wait.Ok? {
      assert t[1] == Sent(t[2].hash);
    }
  }

  /** The terminal message is a success exactly when nothing failed, a cancellation
      exactly when the failure carries the code "ACTION_REJECTED", and otherwise a
      failure quoting the error's message; no success message is written after a failure. */
  lemma PipelineOutcomeClassified(action: string, run: BuildRun, wait: Call<()>)
    ensures var t := Statuses(PipelineLog(action, run, wait));
            var f := RunFailure(run, wait);
            && |t| > 0
            && (t[|t| - 1].Succeeded? <==> f.None?)
            && (t[|t| - 1].Cancelled? <==> f.Some? && f.value.code == Named(ActionRejected))
            && (t[|t| - 1].Failed? <==> f.Some? && f.value.code != Named(ActionRejected))
            && (t[|t| - 1].Failed? ==> t[|t| - 1] == Failed(action, f.value.message))
            && ((exists i :: 0 <= i < |t| && t[i].Succeeded?) <==> f.None?)
  {
    PipelineTrace(action, run, wait);
  }
}
