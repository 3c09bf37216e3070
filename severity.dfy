/** The three-level severity derived from a suggestion's probability (main.py:72).
    Probabilities are exact reals here; floating-point rounding is not modelled. */
module Severity {

  datatype Level = Low | Medium | High {
    /** The label the source puts into the prompt. */
    function Label(): string {
      match this
      case Low => "Low"
      case Medium => "Medium"
      case High => "High"
    }

    function Rank(): nat {
      match this
      case Low => 0
      case Medium => 1
      case High => 2
    }
  }

  /** `"High" if confidence > 0.75 else "Medium" if confidence > 0.4 else "Low"`. */
  function SeverityOf(confidence: real): (level: Level)
    ensures level == High <==> confidence > 0.75
    ensures level == Low <==> confidence <= 0.4
  {
    if confidence > 0.75 then High else if confidence > 0.4 then Medium else Low
  }

  /** A higher probability never yields a lower severity. */
  lemma SeverityMonotone(c1: real, c2: real)
    requires c1 <= c2
    ensures SeverityOf(c1).Rank() <= SeverityOf(c2).Rank()
  {
  }

  /** Both thresholds are strict: a probability exactly on a boundary takes the lower bucket. */
  lemma SeverityBoundaries()
    ensures SeverityOf(0.75) == Medium && SeverityOf(0.4) == Low
    ensures SeverityOf(1.0).Label() == "High" && SeverityOf(0.0).Label() == "Low"
  {
  }
}
