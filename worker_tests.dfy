/**
 * The two scenarios of backup/tests/test_worker.py. Each work function counts its calls
 * in a shared counter and raises the stop sentinel once the counter reaches its limit;
 * the second one also raises OSError after every increment.
 */
module WorkerTests {
  import opened Wrappers
  import opened Worker

  const OSError := Unclassified("OSError")

  /** One call of the counting work function: the outcome and the counter afterwards. */
  function CounterWork(count: nat, limit: nat, raises: bool): (Outcome, nat)
  {
    if count >= limit then (Stop, count)
    else (if raises then Fail(OSError) else Ok, count + 1)
  }

  /** The outcomes of calling the counting work function until it stops, and the final counter. */
  function CounterScript(count: nat, limit: nat, raises: bool): (seq<Outcome>, nat)
    decreases limit - count
  {
    var (o, next) := CounterWork(count, limit, raises);
    if o.Stop? then ([o], next)
    else
      var (rest, final) := CounterScript(next, limit, raises);
      ([o] + rest, final)
  }

  /** The counter after `calls` calls of the counting work function, starting from `count`. */
  function CountAfterCalls(count: nat, limit: nat, raises: bool, calls: nat): nat
    decreases calls
  {
    if calls == 0 then count else CountAfterCalls(CounterWork(count, limit, raises).1, limit, raises, calls - 1)
  }

  /**
   * Every call below the limit increments the counter once, and the stopping calls leave it
   * alone: after `calls` calls the counter is the smaller of count + calls and the limit.
   */
  lemma {:induction false} CountAfterCallsSaturates(count: nat, limit: nat, raises: bool, calls: nat)
    requires count <= limit
    decreases calls
    ensures CountAfterCalls(count, limit, raises, calls) == if count + calls <= limit then count + calls else limit
  {
    if calls > 0 {
      CountAfterCallsSaturates(CounterWork(count, limit, raises).1, limit, raises, calls - 1);
    }
  }

  /**
   * From counter `count`, the work function is called limit - count times without stopping,
   * each such call giving the same outcome, then once more to stop; the stopping call
   * leaves the counter at the limit.
   */
  lemma {:induction false} CounterScriptShape(count: nat, limit: nat, raises: bool)
    requires count <= limit
    decreases limit - count
    ensures var (script, final) := CounterScript(count, limit, raises);
            && final == limit
            && |script| == limit - count + 1
            && StopAt(script) == limit - count
            && forall j :: 0 <= j < limit - count ==> script[j] == (if raises then Fail(OSError) else Ok)
  {
    if count < limit {
      CounterScriptShape(count + 1, limit, raises);
      var (rest, _) := CounterScript(count + 1, limit, raises);
      var (script, _) := CounterScript(count, limit, raises);
      assert script[1..] == rest;
    }
  }

  /** test_worker: five successful calls, then the sentinel. */
  method TestWorker() returns (count: nat, sleeps: seq<int>, name: string, lastError: Option<Exception>, alive: bool)
    ensures count == 5
    ensures sleeps == [1, 1, 1, 1, 1]
    ensures name == "test"
    ensures lastError == None
    ensures !alive
  {
    var script := CounterScript(0, 5, false).0;
    CounterScriptShape(0, 5, false);
    var worker := new Worker("test", 1);
    worker.Start(script);
    // data['count'] after the run: the work function was called as often as the worker called it
    count := CountAfterCalls(0, 5, false, worker.calls);
    CountAfterCallsSaturates(0, 5, false, worker.calls);
    SleepsOnePerCall(script, 1);
    NoFailureKeepsLastError(script, None);
    sleeps, name, lastError, alive := worker.sleeps, worker.GetName(), worker.GetLastError(), worker.IsAlive();
  }

  /** test_worker_error: five calls that each raise OSError, then the sentinel. */
  method TestWorkerError() returns (count: nat, sleeps: seq<int>, name: string, lastError: Option<Exception>, alive: bool)
    ensures count == 5
    ensures sleeps == [1, 1, 1, 1, 1]
    ensures name == "test"
    ensures lastError == Some(OSError)
    ensures !alive
  {
    var script := CounterScript(0, 5, true).0;
    CounterScriptShape(0, 5, true);
    var worker := new Worker("test", 1);
    worker.Start(script);
    // data['count'] after the run: the work function was called as often as the worker called it
    count := CountAfterCalls(0, 5, true, worker.calls);
    CountAfterCallsSaturates(0, 5, true, worker.calls);
    SleepsOnePerCall(script, 1);
    assert script[0].Fail?;
    SomeFailureIsRecorded(script, None);
    sleeps, name, lastError, alive := worker.sleeps, worker.GetName(), worker.GetLastError(), worker.IsAlive();
  }
}
