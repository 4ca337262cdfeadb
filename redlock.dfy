/**
 * The action's entry point `run` (src/redlock.js): it records whether this
 * is the post step, validates its inputs in a fixed order, and then either
 * acquires the named lock or releases it.
 *
 * The step's three key-value stores are maps: the inputs, the state store
 * that carries values from the main step to the post step (`saveState` /
 * `getState`), and the outputs.  Their keys are enumerations whose `Name`
 * is the key's string in the source.  A missing key reads as the empty
 * string, as `getInput` and `getState` do.  The lock manager is an oracle: its answers
 * are parameters and its calls are recorded in a trace.
 */
module Redlock {
  import opened Wrappers
  import opened Text
  import opened Hosts

  const ValidActions: seq<string> := ["auto", "lock", "unlock"]

  /** The reasons `run` reports through `setFailed`. */
  datatype Failure =
    | BadAction | UnlockNeedsValue | ValueNotAllowed | NoHosts | NoName
    | BadRetryCount | BadRetryDelay | BadRetryJitter | BadDuration
    | AcquireFailed | ReleaseFailed
  {
    /** The message `run` passes to `setFailed`. */
    function Message(): string
    {
      match this
      case BadAction => "\"action\" should specify one of auto, lock, unlock"
      case UnlockNeedsValue => "\"value\" should be specified if action is \"unlock\""
      case ValueNotAllowed => "\"value\" should not be specified if action is not \"unlock\""
      case NoHosts => "\"hosts\" should include at least 1 host"
      case NoName => "\"name\" of the lock must be specified"
      case BadRetryCount => "\"retry-count\" should be a positive integer"
      case BadRetryDelay => "\"retry-delay-ms\" should be a positive integer"
      case BadRetryJitter => "\"retry-jitter-ms\" should be a positive integer"
      case BadDuration => "\"duration-seconds\" should be a positive integer"
      case AcquireFailed => "Failed to acquire lock"
      case ReleaseFailed => "Failed to release lock"
    }
  }

  /** The message for an unknown action lists the valid actions, separated by ", ". */
  lemma BadActionListsValidActions()
    ensures BadAction.Message() ==
      "\"action\" should specify one of " + ValidActions[0] + ", " + ValidActions[1] + ", " + ValidActions[2]
    ensures |ValidActions| == 3
  {
  }

  /** The inputs `run` reads with `getInput`. */
  datatype Input =
    | ActionInput | ValueInput | HostsInput | NameInput
    | RetryCountInput | RetryDelayInput | RetryJitterInput | DurationInput
  {
    /** The input's name in the action's metadata. */
    function Name(): string
    {
      match this
      case ActionInput => "action"
      case ValueInput => "value"
      case HostsInput => "hosts"
      case NameInput => "name"
      case RetryCountInput => "retry-count"
      case RetryDelayInput => "retry-delay-ms"
      case RetryJitterInput => "retry-jitter-ms"
      case DurationInput => "duration-seconds"
    }
  }

  /** The keys `run` saves state under and the output it sets. */
  datatype Key = IsPostKey | ValueKey
  {
    function Name(): string
    {
      match this
      case IsPostKey => "isPost"
      case ValueKey => "value"
    }
  }

  datatype Action = Auto | Lock | Unlock

  /** The retry policy the lock manager is built with. */
  datatype RetryPolicy = RetryPolicy(count: nat, delayMs: nat, jitterMs: nat)

  /** A call into the lock manager. */
  datatype Call =
    | Configure(endpoints: seq<Endpoint>, retry: RetryPolicy)
    | Acquire(resources: seq<string>, ttlMs: nat)
    | Release(resources: seq<string>, value: string)

  /** The inputs once validated; `value` is the one the release path uses. */
  datatype Config = Config(action: Action, value: string, hosts: seq<string>, name: string, retry: RetryPolicy)

  /** What one run does: keys saved, outputs set, the failure reported, the error thrown, the calls made. */
  datatype Effect = Effect(
    saved: map<Key, string>,
    outputs: map<Key, string>,
    failure: Option<Failure>,
    thrown: Option<string>,
    calls: seq<Call>)

  /** A missing key reads as the empty string. */
  function Lookup<K>(store: map<K, string>, key: K): string
  {
    if key in store then store[key] else ""
  }

  /** The post step is the one that finds `isPost` saved (non-empty). */
  predicate IsPost(state: map<Key, string>)
  {
    Lookup(state, IsPostKey) != ""
  }

  function ParseAction(s: string): (a: Option<Action>)
    ensures a.Some? <==> s in ValidActions
  {
    if s == "auto" then Some(Auto)
    else if s == "lock" then Some(Lock)
    else if s == "unlock" then Some(Unlock)
    else None
  }

  /** The action acquires when it is `lock`, or `auto` in the main step. */
  predicate AcquirePath(action: Action, isPost: bool)
  {
    action == Lock || (action == Auto && !isPost)
  }

  /** The action releases when it is `unlock`, or `auto` in the post step. */
  predicate ReleasePath(action: Action, isPost: bool)
  {
    action == Unlock || (action == Auto && isPost)
  }

  /** Every valid action takes exactly one of the two paths. */
  lemma ExactlyOnePath(action: Action, isPost: bool)
    ensures AcquirePath(action, isPost) != ReleasePath(action, isPost)
  {
  }

  /** The input checks of `run`, in order, each condition paired with the message of its failure. */
  function Checks(inputs: map<Input, string>): seq<(bool, Failure)>
  {
    var action := Lookup(inputs, ActionInput);
    var value := Lookup(inputs, ValueInput);
    [ (action in ValidActions, BadAction),
      (!(action == "unlock" && value == ""), UnlockNeedsValue),
      (!(action != "unlock" && value != ""), ValueNotAllowed),
      (Lookup(inputs, HostsInput) != "", NoHosts),
      (Lookup(inputs, NameInput) != "", NoName),
      (ParsePositiveInteger(Lookup(inputs, RetryCountInput)).Some?, BadRetryCount),
      (ParsePositiveInteger(Lookup(inputs, RetryDelayInput)).Some?, BadRetryDelay),
      (ParsePositiveInteger(Lookup(inputs, RetryJitterInput)).Some?, BadRetryJitter) ]
  }

  /** The message of the first check that does not hold. */
  function FirstFailure(checks: seq<(bool, Failure)>): (r: Option<Failure>)
    ensures r.None? <==> forall i :: 0 <= i < |checks| ==> checks[i].0
    ensures r.Some? ==> exists i :: 0 <= i < |checks| && !checks[i].0 && r.value == checks[i].1
                                    && forall j :: 0 <= j < i ==> checks[j].0
  {
    if checks == [] then None
    else if !checks[0].0 then Some(checks[0].1)
    else
      var r := FirstFailure(checks[1..]);
      if r.Some? then
        ghost var i :| 0 <= i < |checks[1..]| && !checks[1..][i].0 && r.value == checks[1..][i].1
                       && forall j :: 0 <= j < i ==> checks[1..][j].0;
        assert !checks[i + 1].0 && r.value == checks[i + 1].1;
        assert forall j :: 0 <= j < i + 1 ==> checks[j].0 by {
          forall j | 0 <= j < i + 1 ensures checks[j].0 {
            if j > 0 { assert checks[j] == checks[1..][j - 1]; }
          }
        }
        r
      else
        assert forall i :: 0 <= i < |checks| ==> checks[i].0 by {
          forall i | 0 <= i < |checks| ensures checks[i].0 {
            if i > 0 { assert checks[i] == checks[1..][i - 1]; }
          }
        }
        r
  }

  /**
   * Lines 20-68 of `run`: the inputs checked in order; the first check that
   * fails decides the message.  On success, the value is the input `value`,
   * except for `auto` in the post step, which takes `savedValue`, the one
   * found in the state store.
   */
  function Validate(inputs: map<Input, string>, isPost: bool, savedValue: string): Result<Config, Failure>
  {
    var actionText := Lookup(inputs, ActionInput);
    var value := Lookup(inputs, ValueInput);
    var hostsText := Lookup(inputs, HostsInput);
    var name := Lookup(inputs, NameInput);
    var count := ParsePositiveInteger(Lookup(inputs, RetryCountInput));
    var delay := ParsePositiveInteger(Lookup(inputs, RetryDelayInput));
    var jitter := ParsePositiveInteger(Lookup(inputs, RetryJitterInput));
    if actionText !in ValidActions then Err(BadAction)
    else if actionText == "unlock" && value == "" then Err(UnlockNeedsValue)
    else if actionText != "unlock" && value != "" then Err(ValueNotAllowed)
    else if hostsText == "" then Err(NoHosts)
    else if name == "" then Err(NoName)
    else if count.None? then Err(BadRetryCount)
    else if delay.None? then Err(BadRetryDelay)
    else if jitter.None? then Err(BadRetryJitter)
    else
      var action := ParseAction(actionText).value;
      var value' := if action == Auto && isPost then savedValue else value;
      Ok(Config(action, value', HostList(hostsText), name, RetryPolicy(count.value, delay.value, jitter.value)))
  }

  /**
   * Validation fails exactly when one of the ordered checks fails, and then
   * with the message of the first one that does.
   */
  lemma ValidateFollowsCheckOrder(inputs: map<Input, string>, isPost: bool, savedValue: string)
    ensures Validate(inputs, isPost, savedValue).Err? <==> FirstFailure(Checks(inputs)).Some?
    ensures Validate(inputs, isPost, savedValue).Err? ==>
      Validate(inputs, isPost, savedValue).error == FirstFailure(Checks(inputs)).value
  {
    var c := Checks(inputs);
    FirstFailureOfEight(c);
  }

  /** One step of `FirstFailure` on a suffix. */
  lemma FirstFailureStep(checks: seq<(bool, Failure)>, i: nat)
    requires i < |checks|
    ensures FirstFailure(checks[i..]) == if !checks[i].0 then Some(checks[i].1) else FirstFailure(checks[i + 1..])
  {
    assert checks[i..][0] == checks[i];
    assert checks[i..][1..] == checks[i + 1..];
  }

  /** `FirstFailure` on eight checks, written out. */
  lemma FirstFailureOfEight(c: seq<(bool, Failure)>)
    requires |c| == 8
    ensures FirstFailure(c) ==
      if !c[0].0 then Some(c[0].1) else if !c[1].0 then Some(c[1].1)
      else if !c[2].0 then Some(c[2].1) else if !c[3].0 then Some(c[3].1)
      else if !c[4].0 then Some(c[4].1) else if !c[5].0 then Some(c[5].1)
      else if !c[6].0 then Some(c[6].1) else if !c[7].0 then Some(c[7].1)
      else None
  {
    assert c[0..] == c && c[8..] == [];
    FirstFailureStep(c, 0);
    FirstFailureStep(c, 1);
    FirstFailureStep(c, 2);
    FirstFailureStep(c, 3);
    FirstFailureStep(c, 4);
    FirstFailureStep(c, 5);
    FirstFailureStep(c, 6);
    FirstFailureStep(c, 7);
  }

  /**
   * Lines 70-132 of `run`, once the inputs are valid: the clients and the
   * lock manager are built, then the acquire or the release path runs.
   * Only `value` can be saved here.
   */
  function ProceedEffect(inputs: map<Input, string>, config: Config, isPost: bool, acquired: Option<string>, released: bool): Effect
  {
    match GetEndpoints(config.hosts)
    case Err(message) => Effect(map[], map[], None, Some(message), [])
    case Ok(endpoints) =>
      var configured := [Configure(endpoints, config.retry)];
      if AcquirePath(config.action, isPost) then
        match ParsePositiveInteger(Lookup(inputs, DurationInput))
        case None => Effect(map[], map[], Some(BadDuration), None, configured)
        case Some(seconds) =>
          var calls := configured + [Acquire([config.name], seconds * 1000)];
          match acquired
          case None => Effect(map[], map[], Some(AcquireFailed), None, calls)
          case Some(lockValue) =>
            if config.action == Lock then Effect(map[], map[ValueKey := lockValue], None, None, calls)
            else Effect(map[ValueKey := config.value], map[], None, None, calls)
      else
        var calls := configured + [Release([config.name], config.value)];
        var failure := if !released && config.action == Unlock then Some(ReleaseFailed) else None;
        Effect(map[], map[], failure, None, calls)
  }

  /** Saving state in two rounds saves their union. */
  lemma UnionAssociative(a: map<Key, string>, b: map<Key, string>, c: map<Key, string>)
    ensures a + b + c == a + (b + c)
  {
  }

  /** The whole of one run of `run`, given the lock manager's answers. */
  function RunEffect(inputs: map<Input, string>, state: map<Key, string>, acquired: Option<string>, released: bool): Effect
  {
    var isPost := IsPost(state);
    var marked: map<Key, string> := if isPost then map[] else map[IsPostKey := "true"];
    match Validate(inputs, isPost, Lookup(state, ValueKey))
    case Err(message) => Effect(marked, map[], Some(message), None, [])
    case Ok(config) =>
      var e := ProceedEffect(inputs, config, isPost, acquired, released);
      e.(saved := marked + e.saved)
  }

  /**
   * One invocation of the action, main or post step.  `failure` is the
   * message given to `setFailed`, `thrown` the error with which `run`
   * rejects, and `calls` the trace of lock-manager calls.
   */
  class ActionStep {
    var inputs: map<Input, string>
    var state: map<Key, string>
    var outputs: map<Key, string>
    var failure: Option<Failure>
    var thrown: Option<string>
    ghost var calls: seq<Call>

    constructor (inputs: map<Input, string>, state: map<Key, string>)
      ensures this.inputs == inputs && this.state == state && outputs == map[]
      ensures failure == None && thrown == None && calls == []
    {
      this.inputs := inputs;
      this.state := state;
      outputs := map[];
      failure := None;
      thrown := None;
      calls := [];
    }

    /**
     * `run`, with `acquired` the value of the lock `acquire` returns (`None`
     * when it throws) and `released` whether `release` succeeds.
     */
    method Run(acquired: Option<string>, released: bool)
      modifies this
      ensures var e := RunEffect(old(inputs), old(state), acquired, released);
        && inputs == old(inputs)
        && state == old(state) + e.saved
        && outputs == old(outputs) + e.outputs
        && failure == (if e.failure.Some? then e.failure else old(failure))
        && thrown == (if e.thrown.Some? then e.thrown else old(thrown))
        && calls == old(calls) + e.calls
    {
      var isPost := Lookup(state, IsPostKey) != "";
      ghost var marked: map<Key, string> := if isPost then map[] else map[IsPostKey := "true"];
      if !isPost {
        state := state[IsPostKey := "true"];
      }
      assert state == old(state) + marked;
      assert Lookup(state, ValueKey) == Lookup(old(state), ValueKey);
      var checked := CheckInputs(isPost, Lookup(state, ValueKey));
      if checked.Err? {
        failure := Some(checked.error);
        return;
      }
      ghost var between := state;
      Proceed(checked.value, isPost, acquired, released);
      ghost var e := ProceedEffect(inputs, checked.value, isPost, acquired, released);
      assert state == between + e.saved;
      UnionAssociative(old(state), marked, e.saved);
    }

    /**
     * Lines 20-68 of `run`: the checks in the source's order, the first
     * failing one giving the message; line 38 takes the saved value for
     * `auto` in the post step.
     */
    method CheckInputs(isPost: bool, savedValue: string) returns (r: Result<Config, Failure>)
      ensures r == Validate(inputs, isPost, savedValue)
    {
      var action := Lookup(inputs, ActionInput);
      if action !in ValidActions {
        return Err(BadAction);
      }

      var value := Lookup(inputs, ValueInput);
      if action == "unlock" && value == "" {
        return Err(UnlockNeedsValue);
      }
      if action != "unlock" && value != "" {
        return Err(ValueNotAllowed);
      }
      if action == "auto" && isPost {
        value := savedValue;
      }

      var hostsText := Lookup(inputs, HostsInput);
      if hostsText == "" {
        return Err(NoHosts);
      }
      var hosts := HostList(hostsText);

      var name := Lookup(inputs, NameInput);
      if name == "" {
        return Err(NoName);
      }

      var retryCount := ParsePositiveInteger(Lookup(inputs, RetryCountInput));
      if retryCount.None? {
        return Err(BadRetryCount);
      }
      var retryDelay := ParsePositiveInteger(Lookup(inputs, RetryDelayInput));
      if retryDelay.None? {
        return Err(BadRetryDelay);
      }
      var retryJitter := ParsePositiveInteger(Lookup(inputs, RetryJitterInput));
      if retryJitter.None? {
        return Err(BadRetryJitter);
      }
      var kind := if action == "auto" then Auto else if action == "lock" then Lock else Unlock;
      r := Ok(Config(kind, value, hosts, name, RetryPolicy(retryCount.value, retryDelay.value, retryJitter.value)));
    }

    /**
     * Lines 70-132 of `run`: builds the lock manager, then acquires for
     * `lock` and for `auto` in the main step, and releases for `unlock` and
     * for `auto` in the post step.
     */
    method Proceed(config: Config, isPost: bool, acquired: Option<string>, released: bool)
      modifies this
      ensures var e := ProceedEffect(old(inputs), config, isPost, acquired, released);
        && inputs == old(inputs)
        && state == old(state) + e.saved
        && outputs == old(outputs) + e.outputs
        && failure == (if e.failure.Some? then e.failure else old(failure))
        && thrown == (if e.thrown.Some? then e.thrown else old(thrown))
        && calls == old(calls) + e.calls
    {
      assert old(state) + map[] == old(state) && old(outputs) + map[] == old(outputs);
      var endpoints := GetEndpoints(config.hosts);
      if endpoints.Err? {
        thrown := Some(endpoints.error);
        return;
      }
      calls := calls + [Configure(endpoints.value, config.retry)];

      var action := config.action;
      if action == Lock || (action == Auto && !isPost) {
        var duration := ParsePositiveInteger(Lookup(inputs, DurationInput));
        if duration.None? {
          failure := Some(BadDuration);
          return;
        }
        calls := calls + [Acquire([config.name], duration.value * 1000)];
        if acquired.None? {
          failure := Some(AcquireFailed);
          return;
        }
        if action == Lock {
          outputs := outputs[ValueKey := acquired.value];
        } else {
          state := state[ValueKey := config.value];
        }
      }
      if action == Unlock || (action == Auto && isPost) {
        calls := calls + [Release([config.name], config.value)];
        if !released && action == Unlock {
          failure := Some(ReleaseFailed);
          return;
        }
      }
    }
  }
}
