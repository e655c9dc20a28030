# Money scanner state machine

A model of the logic inside `MoneyScannerManager`, a Unity component that
turns image targets recognised by an AR tracking engine into banknote
values. It keeps the current detection, a running total, a history of
additions and, for each target name, the engine time of its last
addition. Additions happen either through the Add button, with no
cooldown check, or automatically while a known target is tracked and the
auto-add toggle is on. The automatic path is gated by a per-target
cooldown of 0.6 seconds by default.

Layout:

- `denominations.dfy` (module `Denominations`): the fixed target-name → value table.
- `ledger.dfy` (module `Ledger`): history records and their sum.
- `scanner.dfy` (module `Scanner`): the state as a value, and each handler as a
  function on it: `StatusChanged`, `TryAutoAdd`, `AddCurrent`, `Clear` and the
  label choice `Label`. Each carries the two invariants "total = sum of history"
  (`Consistent`) and "every record is a known denomination at its face value"
  (`WellFormed`). The module also holds the single-step properties as lemmas.
- `session.dfy` (module `Session`): arbitrary sequences of events (status
  callbacks, Add presses, Clear presses). Lemmas about what holds after any
  sequence, plus the three concrete scenarios.
- `manager.dfy` (module `Manager`): the class `MoneyScannerManager`, whose five fields
  are updated in place by the handlers. Each method is proved to move the object
  from `old(Snapshot())` to the matching `Scanner` function of it, and to keep
  `Valid()`. `ClientSession` drives the class through its contracts alone.

Inputs that come from outside the component are parameters:

- the tracking status, as `Status` = `Tracked | ExtendedTracked | Other`;
- the target name;
- whether the auto-add toggle is present and on;
- the engine time `Time.time`, as `now: real`;
- the wall-clock stamp `DateTime.Now` stored in each history record, as `when: int`, an opaque tick count.

Amounts and times are `real`.

## Model

| member | source | states |
|---|---|---|
| `Denominations.DenominationMap` | Assets/MoneyScannerManager.cs:21-31 | the table has five targets and every value in it is a positive whole amount |
| `Ledger.SumAppend` | Assets/MoneyScannerManager.cs:159-160 | appending one record to the history adds exactly its amount to the history's sum, so the two updates of an add keep total and history in step |
| `Ledger.SumOfPositive` | Assets/MoneyScannerManager.cs:157-160 | a history of positive amounts sums to a non-negative amount, positive unless the history is empty |
| `Scanner.Init` | Assets/MoneyScannerManager.cs:33-42 | the initial state has nothing detected, total 0, empty history and no cooldown stamps, and satisfies both invariants |
| `Scanner.CooldownClosedWithinWindow` | Assets/MoneyScannerManager.cs:114 | for any time in [last, last + cooldown) the gate is closed |
| `Scanner.CooldownOpenFromBoundary` | Assets/MoneyScannerManager.cs:114 | the gate is open from exactly last + cooldown on, and always for a name never added |
| `Scanner.AddCurrent` | Assets/MoneyScannerManager.cs:155-176 | with a positive current value: the total rises by exactly that value, exactly one record (name, value, stamp) is appended, and the name's cooldown stamp becomes now when the name is non-empty; with a value ≤ 0 nothing changes; the detection is never changed; both invariants are preserved |
| `Scanner.TryAutoAdd` | Assets/MoneyScannerManager.cs:111-119 | with the gate closed nothing changes; with it open the ledger and stamps change as one unconditional add, then the target's stamp is set to now whether or not anything was added, and every other target's stamp is kept; invariants preserved |
| `Scanner.StatusChanged` | Assets/MoneyScannerManager.cs:74-109 | tracked and known: detection is (name, table value), and with the toggle on an open gate adds the table value, appends (name, value, stamp) and stamps the name with now, while a closed gate leaves total, history and stamps unchanged; tracked and unknown: detection is (name + " (unknown)", 0) and nothing else changes; any other status: detection is ("", 0) and nothing else changes; with the toggle off total, history and stamps are unchanged; invariants preserved |
| `Scanner.Clear` | Assets/MoneyScannerManager.cs:148-153 | total 0 and empty history; detection and cooldown stamps untouched; the result is consistent whatever the state before |
| `Scanner.Label` | Assets/MoneyScannerManager.cs:121-130 | the label shows nothing exactly when the detected name is empty, and otherwise shows the detected name and value |
| `Scanner.LabelFollowsStatus` | Assets/MoneyScannerManager.cs:79-129 | after a status event the label shows the known target at its value, the unknown target with its suffix and 0, or nothing when tracking is lost |
| `Scanner.UnknownTargetKeepsLedger` | Assets/MoneyScannerManager.cs:94-100 | an unknown target leaves total, history and stamps as they were, and an Add right after it adds nothing |
| `Scanner.LostTrackingKeepsLedger` | Assets/MoneyScannerManager.cs:102-108 | losing tracking keeps total, history and stamps, and an Add right after it adds nothing |
| `Scanner.AutoAddAtMostOncePerWindow` | Assets/MoneyScannerManager.cs:88-118 | an automatic add of a known target at t1 adds its table value, appends (name, value, stamp) and stamps the name with t1; a second tracking event of it at any t2 in [t1, t1 + cooldown) changes neither total, history nor stamps |
| `Scanner.ManualAddBlocksAutoAdd` | Assets/MoneyScannerManager.cs:88-119 | a manual add of a known detection at t stamps its name, so an automatic add of that target at any time in [t, t + cooldown) adds nothing |
| `Scanner.ManualAddBypassesCooldown` | Assets/MoneyScannerManager.cs:142-176 | two unconditional adds of a positive detection at the same instant both succeed: total rises by twice the value, two records appended |
| `Session.RunConcat` | Assets/MoneyScannerManager.cs:74-176 | handling a + b is handling a, then b, from the state a leaves |
| `Session.RunKeepsInvariants` | Assets/MoneyScannerManager.cs:150-160 | after any sequence of events, the total still equals the sum of the history, and every record is still a known denomination at its face value |
| `Session.RunWithoutClearAppends` | Assets/MoneyScannerManager.cs:155-170 | without a Clear the old history is a prefix of the new one, and the total grows by exactly the sum of the appended records |
| `Session.ClearRestartsLedger` | Assets/MoneyScannerManager.cs:148-153 | events after a Clear act on the cleared state, whatever came before |
| `Session.TotalIsSumSinceLastClear` | Assets/MoneyScannerManager.cs:148-160 | after the last Clear, whatever the state before it, the total is the sum of the additions accepted since that Clear |
| `Session.RunFromInit` | Assets/MoneyScannerManager.cs:33-42 | from the initial state, after any events, total = sum of history, total ≥ 0, and every record names a target in the table |
| `Session.AutoAddScenario` | Assets/MoneyScannerManager.cs:88-118 | with the default cooldown, a 5 target tracked at 0.0, 0.3 and 0.7 with auto-add on gives totals 5, 5 and 10 |
| `Session.ManualAddScenario` | Assets/MoneyScannerManager.cs:142-176 | two immediate Add presses on a detected 20 target give total 40 |
| `Session.UnknownTargetScenario` | Assets/MoneyScannerManager.cs:94-100 | a tracked unknown target "Z" is shown as "Z (unknown)" with 0, and a following Add press leaves total 0 and history empty |
| `Manager.MoneyScannerManager.constructor` | Assets/MoneyScannerManager.cs:19-42 | a new scanner has the initial state and the given cooldown, and satisfies the invariant |
| `Manager.MoneyScannerManager.OnTargetStatusChanged` | Assets/MoneyScannerManager.cs:74-109 | updates the fields in place to exactly `StatusChanged` of the old state, keeping the invariant |
| `Manager.MoneyScannerManager.TryAutoAdd` | Assets/MoneyScannerManager.cs:111-119 | updates the fields in place to exactly `Scanner.TryAutoAdd` of the old state, keeping the invariant |
| `Manager.MoneyScannerManager.OnAddButton` | Assets/MoneyScannerManager.cs:142-145 | the new state is `AddCurrent` of the old one: no cooldown check on this path |
| `Manager.MoneyScannerManager.OnClearButton` | Assets/MoneyScannerManager.cs:148-153 | the new state is `Clear` of the old one, keeping the invariant |
| `Manager.MoneyScannerManager.AddCurrentDetected` | Assets/MoneyScannerManager.cs:155-176 | updates the fields in place to exactly `AddCurrent` of the old state, keeping the invariant |
| `Manager.MoneyScannerManager.GetHistory` | Assets/MoneyScannerManager.cs:179-182 | returns the history, whose amounts add up to the running total |
| `Manager.MoneyScannerManager.DetectedText` | Assets/MoneyScannerManager.cs:121-130 | chooses the same label as `Label` of the current state: empty exactly when the detected name is empty |

## Left out

- Subscribing to and unsubscribing from the tracking engine's observers (`Start`, `OnDestroy`): engine plumbing. The model receives each status callback as a call.
- Writing the label and total texts, wiring the buttons, and playing the add sound: UI and audio side effects. Only the choice between the two label texts is modelled (`Label`, `DetectedText`).
- The number formatting of the label and total texts: it depends on .NET culture and rounding rules.
- `Debug.Log` on a skipped add: diagnostic output only.
- `GetHistory` in the original returns the live list by reference. The model returns the history as a value, so the aliasing is not captured.
- Amounts, times and the cooldown are `float` in the original and `real` here. Rounding in `runningTotal += value` and in `now - lastAddedAt[name] >= cooldown` is not modelled. Every table value is a small whole number, so the `float` sums agree with the `real` ones only while the total stays below 2^24 = 16,777,216; past that, `float` rounds them.
- `Time.time` and `DateTime.Now` are ambient clocks. They are parameters here. The model assumes, as the engine does, that `Time.time` is the same value throughout one callback; so `TryAutoAdd` and the add it calls use the same `now`.
- The tracking status is reduced to tracked, extended-tracked, and any other value. The original distinguishes only the first two from the rest.
- A missing auto-add toggle behaves like a toggle that is off; the model folds the two into one boolean.
