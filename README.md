# Error taxonomy and supervised worker of hassio-google-drive-backup

This project models two small parts of the Home Assistant Google Drive backup add-on:

- **The error taxonomy** (`backup/exceptions.py`). Every failure the add-on can explain is one
  constructor of the datatype `Exceptions.KnownError`, one per Python subclass, carrying what that
  subclass's `__init__` stores. `Code`, `Message`, `HttpStatus` and `Data` are its four accessors.
  The defaults of the abstract base class are a status of 500 and an empty mapping. `EnsureKey`
  looks up a required key of a parsed object and returns a `Result`. A missing key gives a
  `ProtocolError` in place of the raise.
- **The supervised worker** (`backup/worker.py`, pinned down by `backup/tests/test_worker.py`). The
  class `Worker.Worker` has a name, a sleep interval, a run state (Created, Running or Stopped), the
  last error it caught, and the list of sleeps its injected clock has recorded. `Start` calls the
  work function until the function raises the stop sentinel. Each other exception becomes the last
  error. After every call that does not stop, it sleeps once for the interval. The work function
  is given as the script of its successive outcomes (`Ok`, `Fail(e)` or `Stop`). The pure functions
  `Sleeps` and `LastErrorAfter` say what a run over a script does. The lemmas beside them prove what
  the tests check, and `Start` is proved against those functions. `WorkerTests` replays the two
  tests: the counting work functions give the scripts, and the worker runs over them.

Files: `wrappers.dfy` (Option, Result), `exceptions.dfy`, `worker.dfy`, `worker_tests.dfy`.

The error codes are the names of the `ERROR_*` constants, as the enum `CodeName`. Their string
values live in `backup/const.py`, which is not part of this model. `SimulatedError(c)` reports the
code it was given, as `Given(c)`.

`backup/worker.py` is not part of this model either. The loop follows the behaviour the tests fix.
Two points the tests leave open are this model's own choice: each new failure overwrites the last
error, and a successful call leaves it as it was. `LastErrorIsLatestFailure` states that choice.
`SomeFailureIsRecorded` states only what the tests pin.

## Model

| member | source | states |
|---|---|---|
| `Exceptions.Code` | hassio-google-drive-backup/backup/exceptions.py:17-18 | code() of every variant; specified by `CodeRegistered`, `SimulatedErrorEchoesCode`, `LogicErrorEchoesMessage`, `InvalidConfigurationMessage`, `ParameterlessCodeIdentifiesVariant` and `RegisteredCodeIdentifiesKind` |
| `Exceptions.Message` | hassio-google-drive-backup/backup/exceptions.py:13-14 | message() of every variant; specified by `ProtocolMessageMentionsKeyAndName`, `ProtocolMessageWithoutName`, `ProtocolMessageIgnoresDebugObject`, `SimulatedErrorEchoesCode`, `LogicErrorEchoesMessage` and `InvalidConfigurationMessage` |
| `Exceptions.Truthy` | hassio-google-drive-backup/backup/exceptions.py:56 | Python truthiness of the optional object name; used by `ProtocolMessageWithoutName` and `ProtocolMessageMentionsKeyAndName` |
| `Exceptions.HttpStatus` | hassio-google-drive-backup/backup/exceptions.py:20-21 | httpStatus() of every variant; specified by `HttpStatusAlways500` |
| `Exceptions.Data` | hassio-google-drive-backup/backup/exceptions.py:23-24 | data() of every variant; specified by `DataDefaultsToEmpty` |
| `Exceptions.EnsureKey` | hassio-google-drive-backup/backup/exceptions.py:5-8 | succeeds exactly when the key is present, then with exactly `target[key]`; otherwise fails with a ProtocolError whose code is ERROR_PROTOCOL, whose parameter is the key and whose object name is the given name, with the looked-up object attached as its debug object, and with message "Required key '<key>' was missing from <name>" (or just the key when the name is empty) |
| `Exceptions.ProtocolMessageIgnoresDebugObject` | hassio-google-drive-backup/backup/exceptions.py:50-59 | the debug object never affects a ProtocolError's message |
| `Exceptions.ProtocolMessageWithoutName` | hassio-google-drive-backup/backup/exceptions.py:55-59 | with no object name (None, the constructor's default at line 50, or the empty string) the message is the bare parameter |
| `Exceptions.ProtocolMessageMentionsKeyAndName` | hassio-google-drive-backup/backup/exceptions.py:55-57 | with a non-empty name the message is the fixed prefix, the key, the fixed infix and the name in that order, so it mentions both and the key can be read back |
| `Exceptions.SimulatedErrorEchoesCode` | hassio-google-drive-backup/backup/exceptions.py:27-35 | SimulatedError(c) reports code c, and its message is "Gave code " followed by exactly c |
| `Exceptions.LogicErrorEchoesMessage` | hassio-google-drive-backup/backup/exceptions.py:38-46 | LogicError(m) reports message m and code ERROR_LOGIC |
| `Exceptions.InvalidConfigurationMessage` | hassio-google-drive-backup/backup/exceptions.py:121-130 | InvalidConfigurationValue(k, v) reports ERROR_INVALID_CONFIG and the message "'<v>' isn't a valid value for <k>", with v quoted first and k last |
| `Exceptions.CodeRegistered` | hassio-google-drive-backup/backup/exceptions.py:27-62 | only SimulatedError reports a code outside the imported constants |
| `Exceptions.HttpStatusAlways500` | hassio-google-drive-backup/backup/exceptions.py:20-21 | every variant reports status 500, since none overrides the default |
| `Exceptions.DataDefaultsToEmpty` | hassio-google-drive-backup/backup/exceptions.py:23-24 | data() is the empty mapping except: the delete-confirmation error returns its delete sources, ExistingBackupFolderError returns {"existing_id": id} (lines 215-216) and MultipleBackupFoldersError returns {"count": count} (lines 229-230) |
| `Exceptions.ParameterlessCodeIdentifiesVariant` | hassio-google-drive-backup/backup/exceptions.py:65-238 | each parameterless variant returns its own fixed constant, so two of them share a code name exactly when they are the same variant |
| `Exceptions.RegisteredCodeIdentifiesKind` | hassio-google-drive-backup/backup/exceptions.py:38-238 | a registered code name determines which subclass raised the error |
| `Worker.StopAt` | hassio-google-drive-backup/backup/tests/test_worker.py:8-11 | the number of calls before the stop sentinel: no earlier call stops, and the call at that index does if the script reaches it |
| `Worker.SleepsOnePerCall` | hassio-google-drive-backup/backup/tests/test_worker.py:13-18 | a run sleeps once per call that does not stop, each sleep exactly the configured interval, with no growth after failures |
| `Worker.LastErrorIsLatestFailure` | hassio-google-drive-backup/backup/tests/test_worker.py:39-40 | the last error after a run is the latest failure raised before the stop, read from the end, or the earlier value if no call failed; the tests pin only that some OSError is recorded, so "latest, not first" is this model's choice |
| `Worker.Sleeps` | hassio-google-drive-backup/backup/tests/test_worker.py:18 | the sleeps a run over a script asks for; specified by `SleepsOnePerCall` |
| `Worker.LastErrorAfter` | hassio-google-drive-backup/backup/tests/test_worker.py:20 | the last error a run over a script leaves; specified by `LastErrorIsLatestFailure`, `NoFailureKeepsLastError`, `RecordedErrorWasRaised` and `SomeFailureIsRecorded` |
| `Worker.LatestFailure` | hassio-google-drive-backup/backup/tests/test_worker.py:39-40 | reference definition of the latest failure among a run's calls, read from the end; related to `LastErrorAfter` by `LastErrorIsLatestFailure` |
| `Worker.NoFailureKeepsLastError` | hassio-google-drive-backup/backup/tests/test_worker.py:8-20 | a run whose calls only succeed or stop leaves the last error unchanged, so the stop sentinel is never recorded |
| `Worker.RecordedErrorWasRaised` | hassio-google-drive-backup/backup/tests/test_worker.py:26-40 | the last error after a run is the earlier value or an error some call before the stop raised |
| `Worker.SomeFailureIsRecorded` | hassio-google-drive-backup/backup/tests/test_worker.py:26-40 | if any call before the stop fails, the last error is one of the raised errors |
| `Worker.Worker.constructor` | hassio-google-drive-backup/backup/tests/test_worker.py:13 | a new worker keeps the given name and interval, is in the Created state, has no last error and has not slept |
| `Worker.Worker.Start` | hassio-google-drive-backup/backup/tests/test_worker.py:14-16 | after start and join the worker is Stopped and not alive; it called the work function once per non-stopping call plus the stopping one; its sleeps grow by the run's sleeps and its last error is the one the run leaves |
| `Worker.Worker.GetName` | hassio-google-drive-backup/backup/tests/test_worker.py:19 | getName() returns the name given at construction, which `Start` never changes; used by `TestWorker` |
| `Worker.Worker.GetLastError` | hassio-google-drive-backup/backup/tests/test_worker.py:20 | getLastError() returns the recorded last error; its value after a run is given by `Start` |
| `Worker.Worker.IsAlive` | hassio-google-drive-backup/backup/tests/test_worker.py:16 | is_alive() holds only in the Running state; `Start` ensures it is false after the run |
| `WorkerTests.CounterWork` | hassio-google-drive-backup/backup/tests/test_worker.py:26-30 | one call of the counting work function; `raises` selects the closure of lines 26-30 over that of lines 8-11; specified by `CountAfterCallsSaturates` and `CounterScriptShape` |
| `WorkerTests.CountAfterCalls` | hassio-google-drive-backup/backup/tests/test_worker.py:6-11 | the value of `data['count']` after a number of calls from a starting value; specified by `CountAfterCallsSaturates` |
| `WorkerTests.CountAfterCallsSaturates` | hassio-google-drive-backup/backup/tests/test_worker.py:8-11 | each call below the limit increments the counter once and the stopping call leaves it alone, so after n calls from c the counter is min(c + n, limit) |
| `WorkerTests.CounterScript` | hassio-google-drive-backup/backup/tests/test_worker.py:8-11 | the outcomes of calling the counting work function until it stops; specified by `CounterScriptShape` |
| `WorkerTests.CounterScriptShape` | hassio-google-drive-backup/backup/tests/test_worker.py:8-17 | from counter c the work function runs limit - c times without stopping, all with the same outcome, then stops; the counter ends at the limit |
| `WorkerTests.TestWorker` | hassio-google-drive-backup/backup/tests/test_worker.py:5-20 | with successful calls: counter 5 (computed from the number of calls the worker made), sleeps [1, 1, 1, 1, 1], name "test", no last error, not alive |
| `WorkerTests.TestWorkerError` | hassio-google-drive-backup/backup/tests/test_worker.py:23-40 | with calls raising OSError: counter 5 (computed from the number of calls the worker made, so the loop went on through the failures), sleeps [1, 1, 1, 1, 1], name "test", last error an OSError, not alive |

## Left out

- Threads: `start`, `join` and `is_alive` are not modelled as thread operations. `Start` runs the loop to completion in sequence, and "alive" is the Running state.
- Worker.Worker.Start: requires a Created worker and a script that reaches the stop sentinel. A second start and a work function that never stops are not modelled.
- The work function runs as a script of outcomes computed beforehand. The test closures read nothing the worker writes, so this gives the same runs. The interleaving of the closure's counter updates with the worker's sleeps is not modelled.
- Real sleeping and the test clock's internals: a sleep only appends the interval to `sleeps`.
- The string values of the `ERROR_*` constants. Distinct constant names are assumed to hold distinct values.
- Exceptions.CodeRegistered, Exceptions.RegisteredCodeIdentifiesKind: a SimulatedError's code is kept apart from every registered code (`Given` versus `Registered`). In the source, `SimulatedError(ERROR_PROTOCOL).code()` equals a ProtocolError's code; the model does not capture such a collision, and both lemmas rely on the separation.
- Python's `str()` of arbitrary values: the code of `SimulatedError` and the key and value of `InvalidConfigurationValue` are strings here.
- Python's exception and abstract-class machinery: the datatype gives every variant a code and a message by construction.
- Exceptions.EnsureKey: keys are strings and the looked-up object is a JSON-like value. The Python helper accepts any mapping and any key.
- Logging of caught errors and the web UI that reads the last error.
