/**
 * The scanner component itself: an object whose five fields hold the
 * detection, the running total, the history and the cooldown stamps, and
 * whose handlers update them in place. Engine time (`now`) and the
 * wall-clock stamp of a history record (`when`) are passed in by the
 * caller, as is whether the auto-add toggle is present and on.
 */
module Manager {
  import opened Ledger
  import opened Denominations
  import opened Scanner

  class MoneyScannerManager {
    /** Minimum engine time between two automatic additions of one target. */
    const addCooldownSeconds: real

    var currentDetectedName: string
    var currentDetectedValue: real
    var runningTotal: real
    var history: seq<Record>
    var lastAddedAt: map<string, real>

    /** The fields as one state value, the one the functions of module Scanner act on. */
    function Snapshot(): State
      reads this
    {
      State(currentDetectedName, currentDetectedValue, runningTotal, history, lastAddedAt)
    }

    /** The object invariant: the total is the sum of the history, all of it known denominations. */
    ghost predicate Valid()
      reads this
    {
      Consistent(Snapshot()) && WellFormed(Snapshot())
    }

    constructor (cooldown: real)
      ensures Valid()
      ensures Snapshot() == Init()
      ensures addCooldownSeconds == cooldown
    {
      addCooldownSeconds := cooldown;
      currentDetectedName := "";
      currentDetectedValue := 0.0;
      runningTotal := 0.0;
      history := [];
      lastAddedAt := map[];
    }

    /** The tracking-status callback for the target called `targetName`. */
    method OnTargetStatusChanged(targetName: string, status: Status, autoAddOn: bool, now: real, when: int)
      requires Valid()
      modifies this
      ensures Valid()
      ensures Snapshot() == StatusChanged(old(Snapshot()), targetName, status, autoAddOn, now, when, addCooldownSeconds)
    {
      if status == Tracked || status == ExtendedTracked {
        if targetName in DenominationMap() {
          currentDetectedName := targetName;
          currentDetectedValue := DenominationMap()[targetName];
          if autoAddOn {
            TryAutoAdd(targetName, currentDetectedValue, now, when);
          }
        } else {
          currentDetectedName := targetName + UNKNOWN_SUFFIX;
          currentDetectedValue := 0.0;
        }
      } else {
        currentDetectedName := "";
        currentDetectedValue := 0.0;
      }
    }

    /** Adds the current detection if the cooldown of `targetName` has elapsed, then stamps it. */
    method TryAutoAdd(targetName: string, value: real, now: real, when: int)
      requires Valid()
      modifies this
      ensures Valid()
      ensures Snapshot() == Scanner.TryAutoAdd(old(Snapshot()), targetName, value, now, when, addCooldownSeconds)
    {
      if targetName !in lastAddedAt || now - lastAddedAt[targetName] >= addCooldownSeconds {
        AddCurrentDetected(now, when);
        lastAddedAt := lastAddedAt[targetName := now];
      }
    }

    /** The Add button: the unconditional add, with no cooldown check. */
    method OnAddButton(now: real, when: int)
      requires Valid()
      modifies this
      ensures Valid()
      ensures Snapshot() == AddCurrent(old(Snapshot()), now, when)
    {
      AddCurrentDetected(now, when);
    }

    /** The Clear button. */
    method OnClearButton()
      requires Valid()
      modifies this
      ensures Valid()
      ensures Snapshot() == Clear(old(Snapshot()))
    {
      runningTotal := 0.0;
      history := [];
    }

    method AddCurrentDetected(now: real, when: int)
      requires Valid()
      modifies this
      ensures Valid()
      ensures Snapshot() == AddCurrent(old(Snapshot()), now, when)
    {
      if currentDetectedValue > 0.0 {
        SumAppend(history, Record(currentDetectedName, currentDetectedValue, when));
        runningTotal := runningTotal + currentDetectedValue;
        history := history + [Record(currentDetectedName, currentDetectedValue, when)];
        if currentDetectedName != "" {
          lastAddedAt := lastAddedAt[currentDetectedName := now];
        }
      }
    }

    /** The history since the last clear; its amounts add up to the running total. */
    method GetHistory() returns (h: seq<Record>)
      requires Valid()
      ensures h == history
      ensures Sum(h) == runningTotal
    {
      h := history;
    }

    /** Which text the detection label shows for the current detection. */
    method DetectedText() returns (l: DetectedLabel)
      ensures l == Label(Snapshot())
    {
      if currentDetectedName != "" {
        l := Showing(currentDetectedName, currentDetectedValue);
      } else {
        l := NothingDetected;
      }
    }
  }

  /**
   * A client of the class alone: auto-add of a 10 target, a repeat within
   * the cooldown, a manual add, losing the target, and Clear.
   */
  method ClientSession()
  {
    var m := new MoneyScannerManager(DEFAULT_COOLDOWN);
    assert "Carte_10DT" in DenominationMap();
    m.OnTargetStatusChanged("Carte_10DT", Tracked, true, 1.0, 100);
    assert m.runningTotal == 10.0;
    m.OnTargetStatusChanged("Carte_10DT", ExtendedTracked, true, 1.5, 101);
    assert m.runningTotal == 10.0;
    m.OnAddButton(1.5, 102);
    assert m.runningTotal == 20.0 && |m.history| == 2;
    m.OnTargetStatusChanged("Carte_10DT", Other, true, 2.0, 103);
    assert m.currentDetectedName == "" && m.runningTotal == 20.0;
    m.OnAddButton(2.0, 104);
    assert m.runningTotal == 20.0;
    m.OnClearButton();
    assert m.runningTotal == 0.0 && m.history == [] && m.lastAddedAt["Carte_10DT"] == 1.5;
  }
}
