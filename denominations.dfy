/**
 * The fixed table that maps the names of the image targets the tracking
 * engine recognises to the banknote or card value each one stands for.
 */
module Denominations {

  /** Target name -> monetary value. Every value is a positive whole amount. */
  function DenominationMap(): (m: map<string, real>)
    ensures |m| == 5
    ensures forall name :: name in m ==> m[name] > 0.0 && m[name] == m[name].Floor as real
  {
    map[
      "Carte_5dt" := 5.0,
      "Carte_10DT" := 10.0,
      "Carte_10DT_V2" := 10.0,
      "Carte_20dt" := 20.0,
      "Carte_50dt" := 50.0
    ]
  }
}
