/**
 * What `run` (src/redlock.js) promises, stated over `RunEffect`, the effect
 * that `ActionStep.Run` is proved to have.
 */
module RedlockProperties {
  import opened Wrappers
  import opened Text
  import opened Hosts
  import opened Redlock

  /** Once validation passes, a run is the effect of lines 70-132 plus the `isPost` mark. */
  lemma RunEffectAfterValidation(inputs: map<Input, string>, state: map<Key, string>, acquired: Option<string>, released: bool)
    requires Validate(inputs, IsPost(state), Lookup(state, ValueKey)).Ok?
    ensures var config := Validate(inputs, IsPost(state), Lookup(state, ValueKey)).value;
      var p := ProceedEffect(inputs, config, IsPost(state), acquired, released);
      var e := RunEffect(inputs, state, acquired, released);
      && e.calls == p.calls && e.failure == p.failure && e.thrown == p.thrown && e.outputs == p.outputs
      && e.saved == (if IsPost(state) then map[] else map[IsPostKey := "true"]) + p.saved
  {
  }

  /** Lines 70-132 call the lock manager only once it is built from all the hosts and the retry policy. */
  lemma ProceedConfiguresFirst(inputs: map<Input, string>, config: Config, isPost: bool, acquired: Option<string>, released: bool)
    ensures var p := ProceedEffect(inputs, config, isPost, acquired, released);
      && (p.calls == [] <==> GetEndpoints(config.hosts).Err?)
      && (p.calls != [] ==> p.calls[0] == Configure(GetEndpoints(config.hosts).value, config.retry))
      && p.saved.Keys <= {ValueKey}
  {
  }

  /** Once the lock manager is built, lines 87-132 run exactly one of the two paths. */
  lemma ProceedTakesOnePath(inputs: map<Input, string>, config: Config, isPost: bool, acquired: Option<string>, released: bool)
    requires GetEndpoints(config.hosts).Ok?
    ensures var p := ProceedEffect(inputs, config, isPost, acquired, released);
      var acquires := AcquirePath(config.action, isPost);
      && 1 <= |p.calls| <= 2
      && (|p.calls| == 2 ==> (p.calls[1].Acquire? <==> acquires) && (p.calls[1].Release? <==> !acquires))
      && (!acquires ==> |p.calls| == 2)
  {
  }

  /** The validated action is the one named by the `action` input. */
  lemma ValidatedAction(inputs: map<Input, string>, isPost: bool, savedValue: string)
    requires Validate(inputs, isPost, savedValue).Ok?
    ensures var config := Validate(inputs, isPost, savedValue).value;
      var action := Lookup(inputs, ActionInput);
      && (config.action == Auto <==> action == "auto")
      && (config.action == Lock <==> action == "lock")
      && (config.action == Unlock <==> action == "unlock")
      && config.value == (if action == "auto" && isPost then savedValue else Lookup(inputs, ValueInput))
      && config.name == Lookup(inputs, NameInput)
      && (Lookup(inputs, ValueInput) != "" <==> action == "unlock")
  {
  }

  /** The `auto` main step with a lock in hand saves the configured value and outputs nothing. */
  lemma ProceedAutoAcquired(inputs: map<Input, string>, config: Config, lockValue: string, released: bool)
    requires config.action == Auto && GetEndpoints(config.hosts).Ok?
    requires ParsePositiveInteger(Lookup(inputs, DurationInput)).Some?
    ensures var p := ProceedEffect(inputs, config, false, Some(lockValue), released);
      && p.saved == map[ValueKey := config.value] && p.outputs == map[]
      && p.failure == None && p.thrown == None
  {
  }

  /**
   * The main step records `isPost` as "true" whatever happens next; the post
   * step leaves it alone.
   */
  lemma IsPostRecordedFirst(inputs: map<Input, string>, state: map<Key, string>, acquired: Option<string>, released: bool)
    ensures var e := RunEffect(inputs, state, acquired, released);
      && (!IsPost(state) ==> IsPostKey in e.saved && e.saved[IsPostKey] == "true")
      && (IsPost(state) ==> IsPostKey !in e.saved)
  {
    var r := Validate(inputs, IsPost(state), Lookup(state, ValueKey));
    if r.Ok? {
      RunEffectAfterValidation(inputs, state, acquired, released);
      ProceedConfiguresFirst(inputs, r.value, IsPost(state), acquired, released);
    }
  }

  /** An unknown action fails with its message and touches nothing but `isPost`. */
  lemma UnknownActionDoesNothing(inputs: map<Input, string>, state: map<Key, string>, acquired: Option<string>, released: bool)
    requires Lookup(inputs, ActionInput) !in ValidActions
    ensures var e := RunEffect(inputs, state, acquired, released);
      && e.failure == Some(BadAction) && e.thrown == None
      && e.calls == [] && e.outputs == map[] && e.saved.Keys <= {IsPostKey}
  {
  }

  /**
   * `unlock` needs a value and the other actions refuse one; either mistake
   * fails before any client or lock manager is built.
   */
  lemma ValueMustMatchAction(inputs: map<Input, string>, state: map<Key, string>, acquired: Option<string>, released: bool)
    requires Lookup(inputs, ActionInput) in ValidActions
    ensures var e := RunEffect(inputs, state, acquired, released);
      var action, value := Lookup(inputs, ActionInput), Lookup(inputs, ValueInput);
      && (action == "unlock" && value == "" ==> e.failure == Some(UnlockNeedsValue) && e.calls == [])
      && (action != "unlock" && value != "" ==> e.failure == Some(ValueNotAllowed) && e.calls == [])
  {
    var action, value := Lookup(inputs, ActionInput), Lookup(inputs, ValueInput);
    if action == "unlock" && value == "" {
      assert Validate(inputs, IsPost(state), Lookup(state, ValueKey)) == Err(UnlockNeedsValue);
    } else if action != "unlock" && value != "" {
      assert Validate(inputs, IsPost(state), Lookup(state, ValueKey)) == Err(ValueNotAllowed);
    }
  }

  /**
   * With action and value accepted, empty `hosts` and then empty `name` fail;
   * otherwise the hosts are the comma-separated parts of the input, each
   * trimmed, in order, and the retry inputs decide the rest.
   */
  lemma HostsNameAndRetries(inputs: map<Input, string>, isPost: bool, savedValue: string)
    requires Lookup(inputs, ActionInput) in ValidActions
    requires (Lookup(inputs, ActionInput) == "unlock") == (Lookup(inputs, ValueInput) != "")
    ensures var r := Validate(inputs, isPost, savedValue);
      var hostsText := Lookup(inputs, HostsInput);
      && (hostsText == "" ==> r == Err(NoHosts))
      && (hostsText != "" && Lookup(inputs, NameInput) == "" ==> r == Err(NoName))
      && (r.Ok? ==>
            && hostsText != "" && r.value.name == Lookup(inputs, NameInput) != ""
            && |r.value.hosts| == Count(hostsText, ',') + 1
            && (forall i :: 0 <= i < |r.value.hosts| ==> r.value.hosts[i] == Trim(Split(hostsText, ',')[i])))
  {
  }

  /**
   * The three retry inputs must be positive integers, checked in this order;
   * when they are, the lock manager is built with exactly those values.
   */
  lemma RetryInputsConfigureLockManager(inputs: map<Input, string>, state: map<Key, string>, acquired: Option<string>, released: bool)
    requires Validate(inputs, IsPost(state), Lookup(state, ValueKey)).Ok?
    ensures var e := RunEffect(inputs, state, acquired, released);
      var count := ParsePositiveInteger(Lookup(inputs, RetryCountInput));
      var delay := ParsePositiveInteger(Lookup(inputs, RetryDelayInput));
      var jitter := ParsePositiveInteger(Lookup(inputs, RetryJitterInput));
      && count.Some? && delay.Some? && jitter.Some?
      && 0 < count.value && 0 < delay.value && 0 < jitter.value
      && (e.calls != [] ==> e.calls[0].Configure? && e.calls[0].retry == RetryPolicy(count.value, delay.value, jitter.value))
  {
    var config := Validate(inputs, IsPost(state), Lookup(state, ValueKey)).value;
    assert config.retry == RetryPolicy(
      ParsePositiveInteger(Lookup(inputs, RetryCountInput)).value,
      ParsePositiveInteger(Lookup(inputs, RetryDelayInput)).value,
      ParsePositiveInteger(Lookup(inputs, RetryJitterInput)).value);
    RunEffectAfterValidation(inputs, state, acquired, released);
    ProceedConfiguresFirst(inputs, config, IsPost(state), acquired, released);
  }

  /** The retry checks in order: the first invalid one decides the message. */
  lemma RetryCheckOrder(inputs: map<Input, string>, isPost: bool, savedValue: string)
    requires Lookup(inputs, ActionInput) in ValidActions
    requires (Lookup(inputs, ActionInput) == "unlock") == (Lookup(inputs, ValueInput) != "")
    requires Lookup(inputs, HostsInput) != "" && Lookup(inputs, NameInput) != ""
    ensures var r := Validate(inputs, isPost, savedValue);
      var count := ParsePositiveInteger(Lookup(inputs, RetryCountInput));
      var delay := ParsePositiveInteger(Lookup(inputs, RetryDelayInput));
      var jitter := ParsePositiveInteger(Lookup(inputs, RetryJitterInput));
      && (count.None? ==> r == Err(BadRetryCount))
      && (count.Some? && delay.None? ==> r == Err(BadRetryDelay))
      && (count.Some? && delay.Some? && jitter.None? ==> r == Err(BadRetryJitter))
      && (count.Some? && delay.Some? && jitter.Some? ==> r.Ok?)
  {
  }

  /** A malformed host makes `run` throw, after the checks and before any lock-manager call. */
  lemma MalformedHostThrows(inputs: map<Input, string>, state: map<Key, string>, acquired: Option<string>, released: bool)
    requires Validate(inputs, IsPost(state), Lookup(state, ValueKey)).Ok?
    requires GetEndpoints(Validate(inputs, IsPost(state), Lookup(state, ValueKey)).value.hosts).Err?
    ensures var e := RunEffect(inputs, state, acquired, released);
      var hosts := Validate(inputs, IsPost(state), Lookup(state, ValueKey)).value.hosts;
      && e.failure == None && e.calls == [] && e.outputs == map[]
      && e.thrown.Some?
      && exists k :: 0 <= k < |hosts| && Count(hosts[k], ':') >= 2 && e.thrown.value == HostFormatError(hosts[k])
  {
    var hosts := Validate(inputs, IsPost(state), Lookup(state, ValueKey)).value.hosts;
    var k :| 0 <= k < |hosts| && ParseHost(hosts[k]) == Err(GetEndpoints(hosts).error)
             && forall j :: 0 <= j < k ==> ParseHost(hosts[j]).Ok?;
    assert Count(hosts[k], ':') >= 2;
  }

  /**
   * Once the lock manager is built, exactly one path runs: the acquire path
   * for `lock` and for `auto` in the main step, the release path for
   * `unlock` and for `auto` in the post step.
   */
  lemma OnePathRuns(inputs: map<Input, string>, state: map<Key, string>, acquired: Option<string>, released: bool)
    requires Validate(inputs, IsPost(state), Lookup(state, ValueKey)).Ok?
    requires GetEndpoints(Validate(inputs, IsPost(state), Lookup(state, ValueKey)).value.hosts).Ok?
    ensures var e := RunEffect(inputs, state, acquired, released);
      var config := Validate(inputs, IsPost(state), Lookup(state, ValueKey)).value;
      var acquires := AcquirePath(config.action, IsPost(state));
      && 1 <= |e.calls| <= 2
      && e.calls[0] == Configure(GetEndpoints(config.hosts).value, config.retry)
      && (|e.calls| == 2 ==> (e.calls[1].Acquire? <==> acquires) && (e.calls[1].Release? <==> !acquires))
      && (!acquires ==> |e.calls| == 2)
      && (acquires <==> Lookup(inputs, ActionInput) == "lock" || (Lookup(inputs, ActionInput) == "auto" && !IsPost(state)))
  {
    var config := Validate(inputs, IsPost(state), Lookup(state, ValueKey)).value;
    ValidatedAction(inputs, IsPost(state), Lookup(state, ValueKey));
    RunEffectAfterValidation(inputs, state, acquired, released);
    ProceedConfiguresFirst(inputs, config, IsPost(state), acquired, released);
    ProceedTakesOnePath(inputs, config, IsPost(state), acquired, released);
  }

  /**
   * The acquire path: an invalid duration is reported through `setFailed`;
   * otherwise `[name]` is acquired for `duration-seconds * 1000` ms.  Success
   * publishes the lock's value as the `value` output for `lock`, and for
   * `auto` saves the input `value` (necessarily empty) for the post step; a
   * failed acquire is reported through `setFailed`.
   */
  lemma AcquirePathOutcome(inputs: map<Input, string>, state: map<Key, string>, acquired: Option<string>, released: bool)
    requires Validate(inputs, IsPost(state), Lookup(state, ValueKey)).Ok?
    requires GetEndpoints(Validate(inputs, IsPost(state), Lookup(state, ValueKey)).value.hosts).Ok?
    requires AcquirePath(Validate(inputs, IsPost(state), Lookup(state, ValueKey)).value.action, IsPost(state))
    ensures var e := RunEffect(inputs, state, acquired, released);
      var name := Lookup(inputs, NameInput);
      var duration := ParsePositiveInteger(Lookup(inputs, DurationInput));
      && e.thrown == None
      && (duration.None? ==> e.failure == Some(BadDuration) && |e.calls| == 1 && e.outputs == map[])
      && (duration.Some? ==> |e.calls| == 2 && e.calls[1] == Acquire([name], duration.value * 1000))
      && (duration.Some? && acquired.None? ==> e.failure == Some(AcquireFailed) && e.outputs == map[] && ValueKey !in e.saved)
      && (duration.Some? && acquired.Some? ==> e.failure == None)
      && (duration.Some? && acquired.Some? && Lookup(inputs, ActionInput) == "lock" ==>
            e.outputs == map[ValueKey := acquired.value] && ValueKey !in e.saved)
      && (duration.Some? && acquired.Some? && Lookup(inputs, ActionInput) == "auto" ==>
            e.outputs == map[] && ValueKey in e.saved && e.saved[ValueKey] == Lookup(inputs, ValueInput) == "")
  {
  }

  /**
   * The release path: `[name]` is released with the saved `value` for `auto`
   * and with the input `value` for `unlock`; a failed release is reported
   * through `setFailed` only for `unlock`.
   */
  lemma ReleasePathOutcome(inputs: map<Input, string>, state: map<Key, string>, acquired: Option<string>, released: bool)
    requires Validate(inputs, IsPost(state), Lookup(state, ValueKey)).Ok?
    requires GetEndpoints(Validate(inputs, IsPost(state), Lookup(state, ValueKey)).value.hosts).Ok?
    requires ReleasePath(Validate(inputs, IsPost(state), Lookup(state, ValueKey)).value.action, IsPost(state))
    ensures var e := RunEffect(inputs, state, acquired, released);
      var action := Lookup(inputs, ActionInput);
      var value := if action == "auto" then Lookup(state, ValueKey) else Lookup(inputs, ValueInput);
      && |e.calls| == 2 && e.calls[1] == Release([Lookup(inputs, NameInput)], value)
      && e.thrown == None && e.outputs == map[] && ValueKey !in e.saved
      && (e.failure.Some? <==> !released && action == "unlock")
      && (e.failure.Some? ==> e.failure.value == ReleaseFailed)
  {
  }

  /**
   * The `auto` main step, with valid inputs and hosts and a successful
   * acquire, saves `isPost` and the input `value`, which is empty, whatever
   * value the acquired lock has.
   */
  lemma AutoMainSavesInputValue(inputs: map<Input, string>, state: map<Key, string>, lockValue: string, released: bool)
    requires Lookup(inputs, ActionInput) == "auto" && !IsPost(state)
    requires Validate(inputs, false, Lookup(state, ValueKey)).Ok?
    requires GetEndpoints(Validate(inputs, false, Lookup(state, ValueKey)).value.hosts).Ok?
    requires ParsePositiveInteger(Lookup(inputs, DurationInput)).Some?
    ensures var main := RunEffect(inputs, state, Some(lockValue), released);
      && main.saved == map[IsPostKey := "true", ValueKey := ""]
      && main.failure == None && main.thrown == None && main.outputs == map[]
  {
    AutoMainProceeds(inputs, Lookup(state, ValueKey), lockValue, released);
    RunEffectMainStep(inputs, state, Some(lockValue), released);
    MarkedValue("");
  }

  /** Marking the main step and saving `value` store both keys. */
  lemma MarkedValue(v: string)
    ensures map[IsPostKey := "true"] + map[ValueKey := v] == map[IsPostKey := "true", ValueKey := v]
  {
  }

  /** In the main step, a run past validation is lines 70-132 with `isPost` saved first. */
  lemma RunEffectMainStep(inputs: map<Input, string>, state: map<Key, string>, acquired: Option<string>, released: bool)
    requires !IsPost(state) && Validate(inputs, false, Lookup(state, ValueKey)).Ok?
    ensures var p := ProceedEffect(inputs, Validate(inputs, false, Lookup(state, ValueKey)).value, false, acquired, released);
      RunEffect(inputs, state, acquired, released) == p.(saved := map[IsPostKey := "true"] + p.saved)
  {
  }

  /** Lines 88-112 for `auto` in the main step: the configured value, empty, is saved. */
  lemma AutoMainProceeds(inputs: map<Input, string>, savedValue: string, lockValue: string, released: bool)
    requires Lookup(inputs, ActionInput) == "auto"
    requires Validate(inputs, false, savedValue).Ok?
    requires GetEndpoints(Validate(inputs, false, savedValue).value.hosts).Ok?
    requires ParsePositiveInteger(Lookup(inputs, DurationInput)).Some?
    ensures var p := ProceedEffect(inputs, Validate(inputs, false, savedValue).value, false, Some(lockValue), released);
      && p.saved == map[ValueKey := ""] && p.outputs == map[] && p.failure == None && p.thrown == None
  {
    ValidatedAction(inputs, false, savedValue);
    ProceedAutoAcquired(inputs, Validate(inputs, false, savedValue).value, lockValue, released);
  }

  /** The `auto` post step releases with the saved value and never fails. */
  lemma AutoPostReleasesSavedValue(inputs: map<Input, string>, state: map<Key, string>, acquired: Option<string>, released: bool)
    requires Lookup(inputs, ActionInput) == "auto" && IsPost(state)
    requires Validate(inputs, true, Lookup(state, ValueKey)).Ok?
    requires GetEndpoints(Validate(inputs, true, Lookup(state, ValueKey)).value.hosts).Ok?
    ensures var post := RunEffect(inputs, state, acquired, released);
      && |post.calls| == 2 && post.calls[1] == Release([Lookup(inputs, NameInput)], Lookup(state, ValueKey))
      && post.failure == None && post.thrown == None
  {
    ValidatedAction(inputs, true, Lookup(state, ValueKey));
    RunEffectAfterValidation(inputs, state, acquired, released);
  }

  /**
   * `auto` across both steps: after a successful main step, the post step
   * with the same inputs releases `[name]` with the value the main step
   * saved, which is the empty input value and not the lock's value; whatever
   * the release does, the post step does not fail.
   */
  lemma AutoMainThenPost(inputs: map<Input, string>, state: map<Key, string>, lockValue: string, released: bool)
    requires Lookup(inputs, ActionInput) == "auto" && !IsPost(state)
    requires Validate(inputs, false, Lookup(state, ValueKey)).Ok?
    requires GetEndpoints(Validate(inputs, false, Lookup(state, ValueKey)).value.hosts).Ok?
    requires ParsePositiveInteger(Lookup(inputs, DurationInput)).Some?
    ensures var main := RunEffect(inputs, state, Some(lockValue), true);
      var post := RunEffect(inputs, state + main.saved, None, released);
      && main.failure == None
      && IsPost(state + main.saved)
      && |post.calls| == 2 && post.calls[1] == Release([Lookup(inputs, NameInput)], "")
      && post.failure == None && post.thrown == None
  {
    var main := RunEffect(inputs, state, Some(lockValue), true);
    AutoMainSavesInputValue(inputs, state, lockValue, true);
    var state' := state + main.saved;
    assert Lookup(state', IsPostKey) == "true" && Lookup(state', ValueKey) == "";
    ValidatedAction(inputs, false, Lookup(state, ValueKey));
    ValidatedAction(inputs, true, "");
    assert Validate(inputs, true, "").value.hosts == Validate(inputs, false, Lookup(state, ValueKey)).value.hosts;
    AutoPostReleasesSavedValue(inputs, state', None, released);
  }

  /**
   * `auto` in a post step that finds no saved value still releases, with the
   * empty value, and does not fail.
   */
  lemma AutoPostWithoutSavedValue(inputs: map<Input, string>, state: map<Key, string>, acquired: Option<string>, released: bool)
    requires Lookup(inputs, ActionInput) == "auto" && IsPost(state) && ValueKey !in state
    requires Validate(inputs, true, "").Ok? && GetEndpoints(Validate(inputs, true, "").value.hosts).Ok?
    ensures var e := RunEffect(inputs, state, acquired, released);
      e.calls[1] == Release([Lookup(inputs, NameInput)], "") && e.failure == None && e.thrown == None
  {
    AutoPostReleasesSavedValue(inputs, state, acquired, released);
  }
}
