# redlock-action, modelled in Dafny

redlock-action is a GitHub Action that takes a distributed Redis lock
(Redlock) around a job. Its entry point `run` is invoked once as the main step
and, when the action declares a post step, once more as the post step. It does the following:
- records whether this is the post step;
- validates its inputs in a fixed order;
- builds one client per host;
- then acquires the named lock (`lock`, or `auto` in the main step) or releases it (`unlock`, or `auto` in the post step).

A separate helper `heartbeat` keeps a lock alive by extending it up to
`maxBeats` times, beat `i` targeting `start + (i+1)*1000` ms.

The model has five modules:

- `Wrappers`: `Option` and `Result`.
- `Text`: the JavaScript string built-ins the action relies on, over `seq<char>`:
  - `split` with a one-character separator, with its inverse `Join`;
  - `trim`, with the ECMAScript whitespace set;
  - the "positive integer" test applied to numeric inputs.
- `Hosts`: host-list parsing (`getClients`, repeated inline in `run`). Each host is `h`, which gets the default port 6379, or `h:p`; anything else is an error that aborts the list.
- `Heartbeat`: the beat budget and the renewal loop. `Heartbeat.Run` is a `while` loop proved against pure functions. The clock readings and the outcomes of `extend` are supplied as functions of the beat index.
- `Redlock`: `run` as the class `ActionStep`. Its fields are:
  - the input map;
  - the state store (`getState`/`saveState`);
  - the outputs;
  - the failure passed to `setFailed`;
  - the error `run` throws;
  - a ghost trace of lock-manager calls.

  The answers of `acquire` and `release` are parameters. `ActionStep.Run` is proved equal to the pure `RunEffect`, and `RedlockProperties` proves what `run` promises about `RunEffect`.

Map keys are enumerations (`Input`, `Key`) whose `Name()` is the key string
the source uses. A missing key reads as `""`, as `getInput` and `getState`
return it.

Throughout, a run that *fails* is one that calls `setFailed` with a message
(the `failure` field). That is a report, not an exit code: src/main.js still
exits 0 after such a run (see "## Left out"). Only a run that throws (the
`thrown` field) rejects.

Notable behaviour of the code, which the model follows:
- The `auto` main step saves the *input* `value` (src/redlock.js:107). Line 31 forces that value to be empty, so the post step releases with `""`, not with the acquired lock's value (`AutoMainThenPost`).
- An `auto` post step that finds no saved value still releases, with `""` (`AutoPostWithoutSavedValue`).
- A malformed host makes `run` throw rather than call `setFailed` (`MalformedHostThrows`).
- Clients are never closed.
- `heartbeat` is never called from `run`.
- There is no pool of lock names, no `concurrency` input, no detached renewal process and no `heartbeat-pid` output.

## Model

| member | source | states |
|---|---|---|
| Text.Split | src/redlock.js:45 | `split` gives one part more than there are separators, and no part contains the separator |
| Text.CountZero | src/utils.js:16-18 | a string has no separator exactly when its count is zero, so a host without `:` splits into one part |
| Text.JoinSplit | src/utils.js:16 | joining the parts of a split with the separator gives back the original string |
| Text.SplitPrefix | src/utils.js:16 | splitting a separator-free prefix followed by the rest extends the first part of the rest's split |
| Text.SplitJoin | src/utils.js:16 | splitting the join of separator-free parts gives back exactly those parts |
| Text.TrimStart | src/redlock.js:45 | the result is a suffix of the input, everything removed is whitespace, and the result does not start with whitespace |
| Text.TrimEnd | src/redlock.js:45 | the result is a prefix of the input, everything removed is whitespace, and the result does not end with whitespace |
| Text.Trim | src/redlock.js:45 | the trimmed string is no longer than the input and neither starts nor ends with whitespace |
| Text.TrimStartSkips | src/redlock.js:45 | leading whitespace does not change the result of trimming the start |
| Text.TrimEndSkips | src/redlock.js:45 | trailing whitespace does not change the result of trimming the end |
| Text.TrimStrips | src/redlock.js:45 | whitespace, then a core that neither starts nor ends with whitespace, then whitespace, trims to exactly that core |
| Text.TrimIdempotent | src/redlock.js:45 | trimming twice gives the same as trimming once |
| Text.ParsePositiveInteger | src/redlock.js:52-68 | only a string of digits passes; its value is then the numeral's and positive; a numeral is rejected exactly when all its digits are zeros |
| Text.ZeroValueIsZeros | src/redlock.js:53 | a numeral denotes zero, and so fails the `> 0` test, exactly when all its digits are zeros |
| Text.DecimalValueOfDecimal | src/redlock.js:52-56 | the decimal numeral of a number consists of digits and denotes that number |
| Text.ParseDecimal | src/redlock.js:52-56 | every positive integer's numeral passes the positive-integer test and yields that integer |
| Text.LeadingZeroValue | src/redlock.js:53 | a leading zero does not change the value of a numeral |
| Text.ParseRejectsAndIgnoresLeadingZeros | src/redlock.js:53 | the test rejects `""`, `"0"` and any string with a non-digit, and a leading zero does not change its answer |
| Hosts.ParseHost | src/utils.js:16-24 | succeeds exactly when the host has at most one `:`; a bare host gets port 6379; `h:p` gives host `h` and port text `p`, with `h + ":" + p` being the input; otherwise the error is `unexpected host format: <host>` |
| Hosts.GetEndpoints | src/utils.js:14-25 | succeeds exactly when every host parses, and then gives one endpoint per host in the same order; otherwise the error is the first malformed host's and no list is returned |
| Hosts.HostList | src/redlock.js:45 | one entry per `,`-separated part of the input, in order, each part trimmed, none containing `,` |
| Heartbeat.MaxRunTime | src/heartbeat.js:12 | `Math.max(0, maxMs - 10000)`: at least `maxMs - 10000`, and either zero or exactly that |
| Heartbeat.HeldAfter | src/heartbeat.js:24-28 | the lock held after `n` beats is the original one or one that some earlier beat's extension returned |
| Heartbeat.MaxBeats | src/heartbeat.js:12-13 | the budget is the least number of 1000 ms periods covering `max(0, maxMs - 10000)` |
| Heartbeat.MaxBeatsValues | src/heartbeat.js:3-13 | the budget is zero exactly when `maxMs <= 10000`, and it is 20 for `maxMs = 30000` |
| Heartbeat.HeldAfterAllFailed | src/heartbeat.js:24-28 | while every extension fails, the original lock is the one held |
| Heartbeat.HeldAfterLatestSuccess | src/heartbeat.js:24-28 | after any number of beats, the lock held is the one returned by the latest successful extension |
| Heartbeat.Run | src/heartbeat.js:11-32 | at most `maxBeats` extend calls, exactly that many unless the loop exits early, and an early exit only when the clock at the top of that beat has reached `start + maxMs`; every beat that ran started before that deadline; beat `i` waits for `start + (i+1)*1000` and extends the lock held so far with ttl 10000 and retry count 0; a failed extension does not end the loop while beats and time remain; the final lock is the latest successful extension's, or the original |
| Redlock.BadActionListsValidActions | src/redlock.js:5-24 | the unknown-action message lists the three valid actions separated by `", "` |
| Redlock.IsPost | src/redlock.js:14 | defines the post step as the one that finds a non-empty `isPost` in the state, which is what `!!` makes of a string (properties in `IsPostRecordedFirst`) |
| Redlock.AcquirePath | src/redlock.js:87 | defines the acquire path's condition: `lock`, or `auto` in the main step (properties in `ExactlyOnePath`, `OnePathRuns`) |
| Redlock.ReleasePath | src/redlock.js:114 | defines the release path's condition: `unlock`, or `auto` in the post step (properties in `ExactlyOnePath`, `OnePathRuns`) |
| Redlock.Validate | src/redlock.js:20-68 | defines the checks of lines 20-68 and the configuration they produce; `ValidateFollowsCheckOrder` and the `RedlockProperties` lemmas state its properties |
| Redlock.ProceedEffect | src/redlock.js:70-132 | defines what lines 70-132 save, output, fail with, throw and call; `ProceedConfiguresFirst`, `ProceedTakesOnePath` and `ProceedAutoAcquired` state its properties |
| Redlock.RunEffect | src/redlock.js:13-133 | defines the whole effect of one `run`; `ActionStep.Run` is proved to have it and the `RedlockProperties` lemmas state what it promises |
| Redlock.ParseAction | src/redlock.js:5-21 | an action is recognised exactly when it is one of `auto`, `lock`, `unlock` |
| Redlock.ExactlyOnePath | src/redlock.js:87-114 | every valid action in either step takes exactly one of the acquire and release paths |
| Redlock.FirstFailure | src/redlock.js:20-68 | no message exactly when every check holds, and otherwise the message of the first failing check |
| Redlock.ValidateFollowsCheckOrder | src/redlock.js:20-68 | validation fails exactly when one of the eight ordered checks fails, and then with the first one's message |
| Redlock.FirstFailureStep | src/redlock.js:20-68 | one check at a time: the first failing check from position `i` on is the one at `i` or comes later |
| Redlock.FirstFailureOfEight | src/redlock.js:20-68 | over eight checks, the first failure written out check by check |
| Redlock.ActionStep.constructor | src/redlock.js:13 | a step starts with the given inputs and state, no outputs, no failure and an empty trace |
| Redlock.ActionStep.Run | src/redlock.js:13-133 | the new state, outputs, failure, thrown error and trace are the old ones updated by `RunEffect` |
| Redlock.ActionStep.CheckInputs | src/redlock.js:20-68 | the source's check chain returns exactly `Validate`'s result, including the saved value taken for `auto` in the post step |
| Redlock.ActionStep.Proceed | src/redlock.js:70-132 | building the clients, then the acquire or release path, updates the step exactly as `ProceedEffect` says |
| RedlockProperties.RunEffectAfterValidation | src/redlock.js:14-68 | past validation, a run is the effect of lines 70-132 plus the `isPost` mark |
| RedlockProperties.RunEffectMainStep | src/redlock.js:14-18 | in the main step, a run past validation saves `isPost` and then does what lines 70-132 do |
| RedlockProperties.ProceedConfiguresFirst | src/redlock.js:70-85 | the lock manager is called only when every host parses, its first call configures it with all the endpoints and the retry policy, and only `value` can be saved |
| RedlockProperties.ProceedTakesOnePath | src/redlock.js:87-132 | once configured, at most one acquire follows on the acquire path (none when `duration-seconds` is invalid) and exactly one release on the release path |
| RedlockProperties.ValidatedAction | src/redlock.js:20-47 | the validated action is the named one, the value is the input or saved one as line 38 says, and a value is given exactly for `unlock` |
| RedlockProperties.ProceedAutoAcquired | src/redlock.js:103-108 | `auto` with a lock in hand saves the configured value and sets no output |
| RedlockProperties.IsPostRecordedFirst | src/redlock.js:14-18 | the main step always saves `isPost = "true"`, whatever follows, and the post step never writes it |
| RedlockProperties.UnknownActionDoesNothing | src/redlock.js:20-25 | an unknown action fails with its message, calls nothing, sets no output and saves only `isPost` |
| RedlockProperties.ValueMustMatchAction | src/redlock.js:27-35 | `unlock` without a value and any other action with one fail with their messages before any call |
| RedlockProperties.HostsNameAndRetries | src/redlock.js:41-50 | empty `hosts` fails, then empty `name`; on success the hosts are the comma-separated parts, trimmed, in order |
| RedlockProperties.RetryInputsConfigureLockManager | src/redlock.js:52-85 | a run past validation has three positive retry values, and the lock manager is configured with exactly them |
| RedlockProperties.RetryCheckOrder | src/redlock.js:52-68 | `retry-count`, then `retry-delay-ms`, then `retry-jitter-ms`: the first invalid one decides the message, and if all are valid validation passes |
| RedlockProperties.MalformedHostThrows | src/redlock.js:70-80 | a host with two or more `:` makes the run throw that host's error, with no failure, no output and no lock-manager call |
| RedlockProperties.OnePathRuns | src/redlock.js:87-114 | once configured, acquire runs exactly for `lock` or main-step `auto`, and release runs otherwise |
| RedlockProperties.AcquirePathOutcome | src/redlock.js:88-112 | an invalid duration is reported through `setFailed`; otherwise `[name]` is acquired for `duration-seconds * 1000` ms; success outputs the lock's value for `lock` and saves the (empty) input value for `auto`; a failed acquire reports `Failed to acquire lock` through `setFailed` |
| RedlockProperties.ReleasePathOutcome | src/redlock.js:114-131 | releases `[name]` with the saved value for `auto` and the input value for `unlock`; a failed release is reported through `setFailed` exactly for `unlock` |
| RedlockProperties.AutoMainProceeds | src/redlock.js:88-108 | the `auto` main step with a lock in hand saves `value = ""` and does not fail |
| RedlockProperties.AutoMainSavesInputValue | src/redlock.js:14-108 | a successful `auto` main step saves exactly `isPost = "true"` and `value = ""`, whatever the lock's value |
| RedlockProperties.AutoPostReleasesSavedValue | src/redlock.js:37-131 | the `auto` post step releases `[name]` with the saved value and never fails |
| RedlockProperties.AutoMainThenPost | src/redlock.js:37-131 | after a successful `auto` main step, the post step with the state it saved releases `[name]` with `""` and does not fail |
| RedlockProperties.AutoPostWithoutSavedValue | src/redlock.js:37-39 | an `auto` post step with no saved value releases with `""` and does not fail |

## Left out

- The Redis clients and the redlock library are not modelled: `new Client`, `Redlock.acquire`, `extend`, `release` and quorum. They are foreign code, so their outcomes are parameters (`acquired`, `released`, `extend`) and their calls are recorded in a trace.
- Clients are created and never closed. The model records only the configuration call that carries the endpoints and the retry policy.
- `@actions/core` is not modelled. The input map holds what `getInput` returns, already trimmed by the toolkit.
- `core.setFailed` and `core.saveState` are not modelled as I/O: their effects are the `failure` field and the state map.
- Text.ParsePositiveInteger: stands for `Number.isInteger(+s) && Number(s) > 0` only on plain decimal numerals. JavaScript also accepts surrounding whitespace, a `+` sign, exponents, hexadecimal, `12.0` and similar. It loses precision beyond 2^53, and a numeral of 2^1024 or more (such as `1` followed by 309 zeros) becomes `Infinity`, which `Number.isInteger` rejects, so src/redlock.js:53, 59, 65 and 90 call `setFailed` where the model accepts the numeral. The model rejects the other forms above, and its values are exact and unbounded.
- Hosts.ParseHost: keeps the explicit port as uninterpreted text. The coercion `+parts[1]` (src/utils.js:21, src/redlock.js:76), which may give `NaN`, and the client constructor are not modelled.
- `round` (src/utils.js:3-4) is left out: it is floating-point arithmetic and is not used by the modelled code.
- `duration-seconds * 1000` is exact here; in JavaScript it is floating point.
- `sleep` and `performance.now` are not modelled. Clock readings are parameters.
- Heartbeat.Run: records each beat's wait target but does not model the waiting. `sleepUntil` (src/heartbeat.js:34-38) reads its own clock and returns at once when `now <= until`, and otherwise sleeps `now - until`, the inverse of its name. So nothing is claimed about how far apart beats are.
- The timing of `acquire` in `run` (lines 98-101) is left out because it is only logged.
- Logging (`core.info`, `core.error`, `console.warn`, `console.trace`) is not modelled.
- src/main.js is not part of this model: it exits with 1 when `run` rejects and with 0 after any `run` that resolves (lines 5-9). The explicit 0 overrides the exit code `setFailed` sets, so the `failure` field records a `setFailed` call and its message, not a non-zero exit; only `thrown` leads to exit code 1.
