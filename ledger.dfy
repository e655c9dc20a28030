/**
 * The history of accepted additions and its sum, which is the reference
 * definition the running total is kept equal to.
 */
module Ledger {

  /**
   * One accepted addition: the detected name, the amount added and the
   * wall-clock stamp of the moment it was added (an opaque tick count
   * supplied by the caller).
   */
  datatype Record = Record(name: string, value: real, when: int)

  /** The total of the amounts in a history, first record first. */
  function Sum(history: seq<Record>): real
  {
    if history == [] then 0.0 else history[0].value + Sum(history[1..])
  }

  lemma {:induction false} SumConcat(a: seq<Record>, b: seq<Record>)
    ensures Sum(a + b) == Sum(a) + Sum(b)
  {
    if a == [] {
      assert a + b == b;
    } else {
      assert (a + b)[1..] == a[1..] + b;
      SumConcat(a[1..], b);
    }
  }

  /** Appending one record adds exactly its amount to the sum. */
  lemma SumAppend(history: seq<Record>, r: Record)
    ensures Sum(history + [r]) == Sum(history) + r.value
  {
    SumConcat(history, [r]);
    assert [r][1..] == [];
  }

  /** A history whose amounts are all positive sums to a non-negative amount, positive unless empty. */
  lemma {:induction false} SumOfPositive(history: seq<Record>)
    requires forall i :: 0 <= i < |history| ==> history[i].value > 0.0
    ensures Sum(history) >= 0.0
    ensures history != [] ==> Sum(history) > 0.0
  {
    if history != [] {
      SumOfPositive(history[1..]);
    }
  }
}
