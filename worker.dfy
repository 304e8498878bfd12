/**
 * The supervised background worker: it calls a work function over and over, records
 * every failure except the stop sentinel as its last error, sleeps a fixed interval
 * after each call that does not stop, and ends for good when the sentinel is raised.
 *
 * The work function is given by the outcomes of its successive calls (a script), and
 * the injected clock by the list of sleep durations it has been asked for.
 */
module Worker {
  import opened Wrappers
  import Exceptions

  /** What a work function can raise: a classified KnownError or any other exception, by type name. */
  datatype Exception = Known(error: Exceptions.KnownError) | Unclassified(typeName: string)

  /** The outcome of one call of the work function; Stop is the StopWorkException sentinel. */
  datatype Outcome = Ok | Fail(error: Exception) | Stop

  datatype RunState = Created | Running | Stopped

  /** The number of calls that do not stop: the index of the first Stop, or the whole script. */
  function StopAt(script: seq<Outcome>): (k: nat)
    ensures k <= |script|
    ensures forall j :: 0 <= j < k ==> !script[j].Stop?
    ensures k < |script| ==> script[k].Stop?
  {
    if script == [] || script[0].Stop? then 0 else 1 + StopAt(script[1..])
  }

  /** The script reaches the stop sentinel, so a run over it ends. */
  predicate Stops(script: seq<Outcome>)
  {
    StopAt(script) < |script|
  }

  /** The sleeps a run over the script asks of the clock, in order. */
  function Sleeps(script: seq<Outcome>, interval: int): seq<int>
  {
    if script == [] || script[0].Stop? then [] else [interval] + Sleeps(script[1..], interval)
  }

  /** The last error a run over the script leaves, starting from `prior`; each failure overwrites it. */
  function LastErrorAfter(script: seq<Outcome>, prior: Option<Exception>): Option<Exception>
  {
    if script == [] || script[0].Stop? then prior
    else LastErrorAfter(script[1..], if script[0].Fail? then Some(script[0].error) else prior)
  }

  /** Reference definition: the latest failure among `calls`, read from the end, else `prior`. */
  function LatestFailure(calls: seq<Outcome>, prior: Option<Exception>): Option<Exception>
  {
    if calls == [] then prior
    else if calls[|calls| - 1].Fail? then Some(calls[|calls| - 1].error)
    else LatestFailure(calls[..|calls| - 1], prior)
  }

  /** One sleep per call that did not stop, each of exactly the configured interval: no backoff. */
  lemma {:induction false} SleepsOnePerCall(script: seq<Outcome>, interval: int)
    ensures |Sleeps(script, interval)| == StopAt(script)
    ensures forall k :: 0 <= k < |Sleeps(script, interval)| ==> Sleeps(script, interval)[k] == interval
  {
    if script != [] && !script[0].Stop? {
      SleepsOnePerCall(script[1..], interval);
    }
  }

  lemma {:induction false} LatestFailureCons(x: Outcome, calls: seq<Outcome>, prior: Option<Exception>)
    requires !x.Stop?
    ensures LatestFailure([x] + calls, prior)
            == LatestFailure(calls, if x.Fail? then Some(x.error) else prior)
  {
    if calls != [] {
      var last := |calls| - 1;
      assert ([x] + calls)[..|calls|] == [x] + calls[..last];
      LatestFailureCons(x, calls[..last], prior);
    }
  }

  /** The error left after a run is the latest failure before the stop, or the one there before. */
  lemma {:induction false} LastErrorIsLatestFailure(script: seq<Outcome>, prior: Option<Exception>)
    ensures LastErrorAfter(script, prior) == LatestFailure(script[..StopAt(script)], prior)
  {
    if script != [] && !script[0].Stop? {
      var step := if script[0].Fail? then Some(script[0].error) else prior;
      var k := StopAt(script[1..]);
      LastErrorIsLatestFailure(script[1..], step);
      assert script[..k + 1] == [script[0]] + script[1..][..k];
      LatestFailureCons(script[0], script[1..][..k], prior);
    }
  }

  /** A run in which no call fails leaves the last error as it was; in particular the sentinel is never recorded. */
  lemma {:induction false} NoFailureKeepsLastError(script: seq<Outcome>, prior: Option<Exception>)
    requires forall j :: 0 <= j < StopAt(script) ==> !script[j].Fail?
    ensures LastErrorAfter(script, prior) == prior
  {
    if script != [] && !script[0].Stop? {
      NoFailureKeepsLastError(script[1..], prior);
    }
  }

  /** `e` is the error of some failing call before the script's first stop. */
  predicate RaisedBefore(script: seq<Outcome>, e: Option<Exception>)
  {
    exists j :: 0 <= j < StopAt(script) && script[j].Fail? && Some(script[j].error) == e
  }

  /** Whatever a run records is either the error there before or one some call before the stop raised. */
  lemma {:induction false} RecordedErrorWasRaised(script: seq<Outcome>, prior: Option<Exception>)
    ensures LastErrorAfter(script, prior) == prior || RaisedBefore(script, LastErrorAfter(script, prior))
  {
    if script != [] && !script[0].Stop? {
      var step := if script[0].Fail? then Some(script[0].error) else prior;
      RecordedErrorWasRaised(script[1..], step);
      if LastErrorAfter(script[1..], step) == step {
        if script[0].Fail? {
          assert script[0].Fail? && Some(script[0].error) == LastErrorAfter(script, prior);
        }
      } else {
        var j :| 0 <= j < StopAt(script[1..]) && script[1..][j].Fail?
                 && Some(script[1..][j].error) == LastErrorAfter(script[1..], step);
        assert script[j + 1] == script[1..][j];
      }
    }
  }

  /** When some call before the stop fails, the run records one of the raised errors. */
  lemma {:induction false} SomeFailureIsRecorded(script: seq<Outcome>, prior: Option<Exception>)
    requires exists j :: 0 <= j < StopAt(script) && script[j].Fail?
    ensures RaisedBefore(script, LastErrorAfter(script, prior))
  {
    var j :| 0 <= j < StopAt(script) && script[j].Fail?;
    if script[0].Fail? {
      // the first call overwrites prior, so only raised errors remain possible
      var step := Some(script[0].error);
      RecordedErrorWasRaised(script[1..], step);
      if LastErrorAfter(script[1..], step) == step {
        assert script[0].Fail? && Some(script[0].error) == LastErrorAfter(script, prior);
      } else {
        var i :| 0 <= i < StopAt(script[1..]) && script[1..][i].Fail?
                 && Some(script[1..][i].error) == LastErrorAfter(script[1..], step);
        assert script[i + 1] == script[1..][i];
      }
    } else {
      assert script[1..][j - 1] == script[j];
      SomeFailureIsRecorded(script[1..], prior);
      var i :| 0 <= i < StopAt(script[1..]) && script[1..][i].Fail?
               && Some(script[1..][i].error) == LastErrorAfter(script[1..], prior);
      assert script[i + 1] == script[1..][i];
    }
  }

  /**
   * One named background task; sleeps is what its injected clock has recorded, and calls
   * counts the invocations of its work function.
   */
  class Worker {
    const name: string
    const interval: int
    var state: RunState
    var lastError: Option<Exception>
    var sleeps: seq<int>
    var calls: nat

    constructor (name: string, interval: int)
      ensures this.name == name && this.interval == interval
      ensures state == Created && lastError == None && sleeps == [] && calls == 0
    {
      this.name := name;
      this.interval := interval;
      state := Created;
      lastError := None;
      sleeps := [];
      calls := 0;
    }

    function GetName(): string
    {
      name
    }

    function GetLastError(): Option<Exception>
      reads this
    {
      lastError
    }

    predicate IsAlive()
      reads this
    {
      state == Running
    }

    /**
     * start() followed by join(): call the work function until it raises the stop
     * sentinel, recording failures and sleeping after every call that does not stop.
     */
    method Start(script: seq<Outcome>)
      requires state == Created
      requires Stops(script)
      modifies this
      ensures state == Stopped && !IsAlive()
      ensures sleeps == old(sleeps) + Sleeps(script, interval)
      ensures lastError == LastErrorAfter(script, old(lastError))
      ensures calls == old(calls) + StopAt(script) + 1
    {
      state := Running;
      var i := 0;
      while !script[i].Stop?
        invariant 0 <= i <= StopAt(script) < |script|
        invariant state == Running
        invariant sleeps + Sleeps(script[i..], interval) == old(sleeps) + Sleeps(script, interval)
        invariant LastErrorAfter(script[i..], lastError) == LastErrorAfter(script, old(lastError))
        invariant calls == old(calls) + i
        decreases StopAt(script) - i
      {
        assert script[i..][1..] == script[i + 1..];
        calls := calls + 1;
        if script[i].Fail? {
          lastError := Some(script[i].error);
        }
        sleeps := sleeps + [interval];
        i := i + 1;
      }
      calls := calls + 1;  // the call that raised the stop sentinel
      state := Stopped;
    }
  }
}
