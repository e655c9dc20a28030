/**
 * Sequences of the three inputs the scanner reacts to, and what holds of
 * the state after any such sequence.
 */
module Session {
  import opened Ledger
  import opened Denominations
  import opened Scanner

  /** A tracking-status callback (with the toggle state and clocks it sees), an Add press, or a Clear press. */
  datatype Event =
    | TargetStatus(targetName: string, status: Status, autoAdd: bool, now: real, when: int)
    | AddPressed(now: real, when: int)
    | ClearPressed

  function Step(s: State, e: Event, cooldown: real): State
  {
    match e
    case TargetStatus(name, status, autoAdd, now, when) => StatusChanged(s, name, status, autoAdd, now, when, cooldown)
    case AddPressed(now, when) => AddCurrent(s, now, when)
    case ClearPressed => Clear(s)
  }

  /** The state after handling `events` in order. */
  function Run(s: State, events: seq<Event>, cooldown: real): State
    decreases |events|
  {
    if events == [] then s else Run(Step(s, events[0], cooldown), events[1..], cooldown)
  }

  predicate NoClear(events: seq<Event>)
  {
    forall i :: 0 <= i < |events| ==> !events[i].ClearPressed?
  }

  lemma {:induction false} RunConcat(s: State, a: seq<Event>, b: seq<Event>, cooldown: real)
    ensures Run(s, a + b, cooldown) == Run(Run(s, a, cooldown), b, cooldown)
    decreases |a|
  {
    if a == [] {
      assert a + b == b;
    } else {
      assert (a + b)[0] == a[0];
      assert (a + b)[1..] == a[1..] + b;
      RunConcat(Step(s, a[0], cooldown), a[1..], b, cooldown);
    }
  }

  /** Every event keeps the running total equal to the sum of the history, and keeps every record a known denomination. */
  lemma {:induction false} RunKeepsInvariants(s: State, events: seq<Event>, cooldown: real)
    requires Consistent(s) && WellFormed(s)
    ensures Consistent(Run(s, events, cooldown)) && WellFormed(Run(s, events, cooldown))
    decreases |events|
  {
    if events != [] {
      RunKeepsInvariants(Step(s, events[0], cooldown), events[1..], cooldown);
    }
  }

  /** One event other than Clear appends at most one record and adds exactly what it appends. */
  lemma StepWithoutClearAppends(s: State, e: Event, cooldown: real)
    requires !e.ClearPressed?
    ensures var r := Step(s, e, cooldown);
      && s.history <= r.history && |r.history| <= |s.history| + 1
      && r.runningTotal == s.runningTotal + Sum(r.history[|s.history|..])
  {
  }

  /**
   * Without a Clear, the history only grows, and the total grows by exactly
   * the sum of the records appended.
   */
  lemma {:induction false} RunWithoutClearAppends(s: State, events: seq<Event>, cooldown: real)
    requires NoClear(events)
    ensures var r := Run(s, events, cooldown);
      && s.history <= r.history
      && r.runningTotal == s.runningTotal + Sum(r.history[|s.history|..])
    decreases |events|
  {
    var r := Run(s, events, cooldown);
    if events == [] {
      assert r.history[|s.history|..] == [];
    } else {
      var s1 := Step(s, events[0], cooldown);
      StepWithoutClearAppends(s, events[0], cooldown);
      assert NoClear(events[1..]) by {
        forall i | 0 <= i < |events[1..]| ensures !events[1..][i].ClearPressed? {
          assert events[1..][i] == events[i + 1];
        }
      }
      RunWithoutClearAppends(s1, events[1..], cooldown);
      assert r.history[|s.history|..] == s1.history[|s.history|..] + r.history[|s1.history|..];
      SumConcat(s1.history[|s.history|..], r.history[|s1.history|..]);
    }
  }

  /** A Clear is a reset of the ledger only: what follows starts from the cleared state. */
  lemma ClearRestartsLedger(s: State, before: seq<Event>, after: seq<Event>, cooldown: real)
    ensures Run(s, before + [ClearPressed] + after, cooldown) == Run(Clear(Run(s, before, cooldown)), after, cooldown)
  {
    RunConcat(s, before + [ClearPressed], after, cooldown);
    RunConcat(s, before, [ClearPressed], cooldown);
  }

  /**
   * Whatever came before, after the last Clear the running total is the sum
   * of exactly the additions accepted since that Clear, which make up the
   * whole history.
   */
  lemma TotalIsSumSinceLastClear(s: State, before: seq<Event>, after: seq<Event>, cooldown: real)
    requires NoClear(after)
    ensures var r := Run(s, before + [ClearPressed] + after, cooldown);
      r.runningTotal == Sum(r.history)
  {
    ClearRestartsLedger(s, before, after, cooldown);
    var cleared := Clear(Run(s, before, cooldown));
    RunWithoutClearAppends(cleared, after, cooldown);
    assert Run(cleared, after, cooldown).history[0..] == Run(cleared, after, cooldown).history;
  }

  /** From the initial state, the total never drops below zero and the history holds only known denominations. */
  lemma RunFromInit(events: seq<Event>, cooldown: real)
    ensures var r := Run(Init(), events, cooldown);
      && r.runningTotal == Sum(r.history) && r.runningTotal >= 0.0
      && forall i :: 0 <= i < |r.history| ==> r.history[i].name in DenominationMap()
  {
    RunKeepsInvariants(Init(), events, cooldown);
    var r := Run(Init(), events, cooldown);
    SumOfPositive(r.history);
  }

  /**
   * Auto-add of a 5 target with the default cooldown: tracked at 0.0 the
   * total is 5; still tracked at 0.3 it stays 5; at 0.7 it becomes 10.
   */
  lemma AutoAddScenario()
    ensures var e0 := TargetStatus("Carte_5dt", Tracked, true, 0.0, 0);
      var e1 := TargetStatus("Carte_5dt", Tracked, true, 0.3, 1);
      var e2 := TargetStatus("Carte_5dt", Tracked, true, 0.7, 2);
      && Run(Init(), [e0], DEFAULT_COOLDOWN).runningTotal == 5.0
      && Run(Init(), [e0, e1], DEFAULT_COOLDOWN).runningTotal == 5.0
      && Run(Init(), [e0, e1, e2], DEFAULT_COOLDOWN).runningTotal == 10.0
  {
    var e0 := TargetStatus("Carte_5dt", Tracked, true, 0.0, 0);
    var e1 := TargetStatus("Carte_5dt", Tracked, true, 0.3, 1);
    var e2 := TargetStatus("Carte_5dt", Tracked, true, 0.7, 2);
    assert "Carte_5dt" in DenominationMap();
    var s0 := Step(Init(), e0, DEFAULT_COOLDOWN);
    assert s0.runningTotal == 5.0 && s0.lastAddedAt["Carte_5dt"] == 0.0;
    var s1 := Step(s0, e1, DEFAULT_COOLDOWN);
    assert s1.runningTotal == 5.0 && s1.lastAddedAt["Carte_5dt"] == 0.0;
    var s2 := Step(s1, e2, DEFAULT_COOLDOWN);
    assert s2.runningTotal == 10.0;
    RunConcat(Init(), [e0], [e1], DEFAULT_COOLDOWN);
    RunConcat(Init(), [e0, e1], [e2], DEFAULT_COOLDOWN);
    assert [e0] + [e1] == [e0, e1];
    assert [e0, e1] + [e2] == [e0, e1, e2];
  }

  /** Two immediate Add presses on a detected 20 target with auto-add off raise the total to 40. */
  lemma ManualAddScenario()
    ensures Run(Init(), [TargetStatus("Carte_20dt", Tracked, false, 0.0, 0), AddPressed(0.0, 1), AddPressed(0.0, 2)], DEFAULT_COOLDOWN).runningTotal == 40.0
  {
  }

  /** A tracked unknown target is shown as unknown, and a following Add press leaves the total at 0. */
  lemma UnknownTargetScenario()
    ensures var r := Run(Init(), [TargetStatus("Z", Tracked, true, 0.0, 0), AddPressed(0.1, 1)], DEFAULT_COOLDOWN);
      && r.runningTotal == 0.0 && r.history == []
      && Label(r) == Showing("Z (unknown)", 0.0)
  {
  }
}
