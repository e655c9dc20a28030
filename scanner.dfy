/**
 * The detection, cooldown and accumulation state machine of the money
 * scanner, as functions on a snapshot of its state. The class in
 * manager.dfy is proved to follow these functions step by step.
 */
module Scanner {
  import opened Ledger
  import opened Denominations

  /** Cooldown, in seconds of engine time, used unless configured otherwise. */
  const DEFAULT_COOLDOWN: real := 0.6

  /** Appended to the name of a tracked target that is not in the table. */
  const UNKNOWN_SUFFIX: string := " (unknown)"

  /** The tracking status the engine reports; every status but the first two counts as lost. */
  datatype Status = Tracked | ExtendedTracked | Other

  predicate IsTracked(status: Status)
  {
    status.Tracked? || status.ExtendedTracked?
  }

  /**
   * The five mutable fields: the current detection (name and value), the
   * running total, the history since the last clear, and for each name the
   * engine time of its last addition.
   */
  datatype State = State(
    detectedName: string,
    detectedValue: real,
    runningTotal: real,
    history: seq<Record>,
    lastAddedAt: map<string, real>)

  /** The running total is the sum of the history. */
  predicate Consistent(s: State)
  {
    s.runningTotal == Sum(s.history)
  }

  /**
   * The current detection is either empty-valued or a known target at its
   * table value, and so is every record in the history.
   */
  predicate WellFormed(s: State)
  {
    && (s.detectedValue == 0.0 ||
        (s.detectedName in DenominationMap() && s.detectedValue == DenominationMap()[s.detectedName]))
    && forall i :: 0 <= i < |s.history| ==>
         s.history[i].name in DenominationMap() && s.history[i].value == DenominationMap()[s.history[i].name]
  }

  /** The state before any event: nothing detected, nothing added. */
  function Init(): (s: State)
    ensures Consistent(s) && WellFormed(s)
    ensures s.runningTotal == 0.0 && s.history == [] && s.lastAddedAt == map[]
    ensures s.detectedName == "" && s.detectedValue == 0.0
  {
    State("", 0.0, 0.0, [], map[])
  }

  /** The cooldown gate: no earlier addition of `name`, or at least `cooldown` seconds since it. */
  predicate CooldownElapsed(lastAddedAt: map<string, real>, name: string, now: real, cooldown: real)
  {
    name !in lastAddedAt || now - lastAddedAt[name] >= cooldown
  }

  /** Within [last, last + cooldown) the gate is closed. */
  lemma CooldownClosedWithinWindow(lastAddedAt: map<string, real>, name: string, now: real, cooldown: real)
    requires name in lastAddedAt
    requires lastAddedAt[name] <= now < lastAddedAt[name] + cooldown
    ensures !CooldownElapsed(lastAddedAt, name, now, cooldown)
  {
  }

  /** From last + cooldown on, exactly at the boundary included, the gate is open; it is always open for a name never added. */
  lemma CooldownOpenFromBoundary(lastAddedAt: map<string, real>, name: string, now: real, cooldown: real)
    requires name in lastAddedAt ==> now >= lastAddedAt[name] + cooldown
    ensures CooldownElapsed(lastAddedAt, name, now, cooldown)
  {
  }

  /**
   * The unconditional add: when the detected value is positive, add it to
   * the total, append one record, and stamp the detected name's cooldown
   * (when the name is not empty); otherwise change nothing.
   */
  function AddCurrent(s: State, now: real, when: int): (r: State)
    ensures s.detectedValue > 0.0 ==>
      && r.runningTotal == s.runningTotal + s.detectedValue
      && r.history == s.history + [Record(s.detectedName, s.detectedValue, when)]
      && r.lastAddedAt == (if s.detectedName != "" then s.lastAddedAt[s.detectedName := now] else s.lastAddedAt)
    ensures s.detectedValue <= 0.0 ==> r == s
    ensures r.detectedName == s.detectedName && r.detectedValue == s.detectedValue
    ensures Consistent(s) ==> Consistent(r)
    ensures WellFormed(s) ==> WellFormed(r)
  {
    if s.detectedValue > 0.0 then
      var added := Record(s.detectedName, s.detectedValue, when);
      SumAppend(s.history, added);
      s.(runningTotal := s.runningTotal + s.detectedValue,
         history := s.history + [added],
         lastAddedAt := if s.detectedName != "" then s.lastAddedAt[s.detectedName := now] else s.lastAddedAt)
    else
      s
  }

  /**
   * The cooldown-gated add of the automatic path. The amount comes from the
   * current detection; the `value` argument is carried but, as in the
   * original, not used. When the gate passes, `targetName` is stamped with
   * `now` whether or not anything was added.
   */
  function TryAutoAdd(s: State, targetName: string, value: real, now: real, when: int, cooldown: real): (r: State)
    ensures !CooldownElapsed(s.lastAddedAt, targetName, now, cooldown) ==> r == s
    ensures CooldownElapsed(s.lastAddedAt, targetName, now, cooldown) ==>
      && targetName in r.lastAddedAt && r.lastAddedAt[targetName] == now
      && r.runningTotal == AddCurrent(s, now, when).runningTotal
      && r.history == AddCurrent(s, now, when).history
      && r.lastAddedAt == AddCurrent(s, now, when).lastAddedAt[targetName := now]
    ensures r.detectedName == s.detectedName && r.detectedValue == s.detectedValue
    ensures Consistent(s) ==> Consistent(r)
    ensures WellFormed(s) ==> WellFormed(r)
  {
    if CooldownElapsed(s.lastAddedAt, targetName, now, cooldown) then
      var added := AddCurrent(s, now, when);
      added.(lastAddedAt := added.lastAddedAt[targetName := now])
    else
      s
  }

  /**
   * The tracking-status handler. A tracked target in the table becomes the
   * detection at its table value and, with the toggle on, goes through the
   * gated add; a tracked unknown target is shown with the unknown suffix and
   * value 0; any other status clears the detection. Only the first case can
   * touch the total, the history or the cooldown stamps.
   */
  function StatusChanged(s: State, targetName: string, status: Status, autoAdd: bool, now: real, when: int, cooldown: real): (r: State)
    ensures IsTracked(status) && targetName in DenominationMap() ==>
      r.detectedName == targetName && r.detectedValue == DenominationMap()[targetName]
    ensures IsTracked(status) && targetName !in DenominationMap() ==>
      r == s.(detectedName := targetName + UNKNOWN_SUFFIX, detectedValue := 0.0)
    ensures !IsTracked(status) ==> r == s.(detectedName := "", detectedValue := 0.0)
    ensures IsTracked(status) && targetName in DenominationMap() && autoAdd ==>
      var v := DenominationMap()[targetName];
      if CooldownElapsed(s.lastAddedAt, targetName, now, cooldown) then
        && r.runningTotal == s.runningTotal + v
        && r.history == s.history + [Record(targetName, v, when)]
        && r.lastAddedAt == s.lastAddedAt[targetName := now]
      else
        r.runningTotal == s.runningTotal && r.history == s.history && r.lastAddedAt == s.lastAddedAt
    ensures !autoAdd ==>
      r.runningTotal == s.runningTotal && r.history == s.history && r.lastAddedAt == s.lastAddedAt
    ensures Consistent(s) ==> Consistent(r)
    ensures WellFormed(s) ==> WellFormed(r)
  {
    if IsTracked(status) then
      if targetName in DenominationMap() then
        var detected := s.(detectedName := targetName, detectedValue := DenominationMap()[targetName]);
        if autoAdd then TryAutoAdd(detected, targetName, detected.detectedValue, now, when, cooldown) else detected
      else
        s.(detectedName := targetName + UNKNOWN_SUFFIX, detectedValue := 0.0)
    else
      s.(detectedName := "", detectedValue := 0.0)
  }

  /** The clear button: total back to zero and history emptied; detection and cooldown stamps kept. */
  function Clear(s: State): (r: State)
    ensures r.runningTotal == 0.0 && r.history == []
    ensures r.detectedName == s.detectedName && r.detectedValue == s.detectedValue
    ensures r.lastAddedAt == s.lastAddedAt
    ensures Consistent(r)
    ensures WellFormed(s) ==> WellFormed(r)
  {
    s.(runningTotal := 0.0, history := [])
  }

  /** Which of the two texts the detection label shows. */
  datatype DetectedLabel = NothingDetected | Showing(name: string, value: real)

  function Label(s: State): (l: DetectedLabel)
    ensures l.NothingDetected? <==> s.detectedName == ""
    ensures l.Showing? ==> l.name == s.detectedName && l.value == s.detectedValue
  {
    if s.detectedName == "" then NothingDetected else Showing(s.detectedName, s.detectedValue)
  }

  /** A tracked target, known or not, is always shown; any other status shows the empty label. */
  lemma LabelFollowsStatus(s: State, targetName: string, status: Status, autoAdd: bool, now: real, when: int, cooldown: real)
    ensures var l := Label(StatusChanged(s, targetName, status, autoAdd, now, when, cooldown));
      if !IsTracked(status) then l == NothingDetected
      else if targetName in DenominationMap() then l == Showing(targetName, DenominationMap()[targetName])
      else l == Showing(targetName + UNKNOWN_SUFFIX, 0.0)
  {
  }

  /** An unknown target changes neither total, history nor stamps, and a manual add right after it adds nothing. */
  lemma UnknownTargetKeepsLedger(s: State, targetName: string, status: Status, autoAdd: bool, now: real, when: int, cooldown: real, later: real, laterWhen: int)
    requires targetName !in DenominationMap()
    ensures var r := StatusChanged(s, targetName, status, autoAdd, now, when, cooldown);
      && r.runningTotal == s.runningTotal && r.history == s.history && r.lastAddedAt == s.lastAddedAt
      && AddCurrent(r, later, laterWhen) == r
  {
  }

  /** Losing tracking keeps total, history and stamps, and a manual add right after it adds nothing. */
  lemma LostTrackingKeepsLedger(s: State, targetName: string, status: Status, autoAdd: bool, now: real, when: int, cooldown: real, later: real, laterWhen: int)
    requires !IsTracked(status)
    ensures var r := StatusChanged(s, targetName, status, autoAdd, now, when, cooldown);
      && r.runningTotal == s.runningTotal && r.history == s.history && r.lastAddedAt == s.lastAddedAt
      && AddCurrent(r, later, laterWhen) == r
  {
  }

  /**
   * Once an automatic add of a known target has happened at `t1`, a second
   * tracking event of the same target at any `t2` in [t1, t1 + cooldown)
   * adds nothing, even with the toggle on.
   */
  lemma AutoAddAtMostOncePerWindow(s: State, targetName: string, first: Status, second: Status,
                                   t1: real, t2: real, w1: int, w2: int, cooldown: real)
    requires targetName in DenominationMap() && IsTracked(first)
    requires CooldownElapsed(s.lastAddedAt, targetName, t1, cooldown)
    requires t1 <= t2 < t1 + cooldown
    ensures var v := DenominationMap()[targetName];
      var s1 := StatusChanged(s, targetName, first, true, t1, w1, cooldown);
      && s1.runningTotal == s.runningTotal + v
      && s1.history == s.history + [Record(targetName, v, w1)]
      && s1.lastAddedAt == s.lastAddedAt[targetName := t1]
      && var s2 := StatusChanged(s1, targetName, second, true, t2, w2, cooldown);
         s2.runningTotal == s1.runningTotal && s2.history == s1.history && s2.lastAddedAt == s1.lastAddedAt
  {
  }

  /**
   * A manual add stamps the detected name too, so an automatic add of the
   * same target at any time in [now, now + cooldown) adds nothing.
   */
  lemma ManualAddBlocksAutoAdd(s: State, now: real, later: real, when: int, laterWhen: int,
                               status: Status, cooldown: real)
    requires s.detectedValue > 0.0 && s.detectedName in DenominationMap() && IsTracked(status)
    requires now <= later < now + cooldown
    ensures var s1 := AddCurrent(s, now, when);
      && s1.runningTotal == s.runningTotal + s.detectedValue
      && var s2 := StatusChanged(s1, s.detectedName, status, true, later, laterWhen, cooldown);
         s2.runningTotal == s1.runningTotal && s2.history == s1.history && s2.lastAddedAt == s1.lastAddedAt
  {
    assert s.detectedName != "" by {
      assert "" !in DenominationMap();
    }
  }

  /** The manual path ignores the gate: two adds of the same positive detection at the same instant both count. */
  lemma ManualAddBypassesCooldown(s: State, now: real, w1: int, w2: int)
    requires s.detectedValue > 0.0
    ensures var r := AddCurrent(AddCurrent(s, now, w1), now, w2);
      && r.runningTotal == s.runningTotal + 2.0 * s.detectedValue
      && r.history == s.history + [Record(s.detectedName, s.detectedValue, w1), Record(s.detectedName, s.detectedValue, w2)]
  {
  }
}
