/** Cost knowledge is a chain: nothing settled < exact < estimated < unknown.
    Certainty is only ever lost, so every merge in the budget is a join on this chain. */
module Knowledge {

  datatype Option<+T> = None | Some(value: T) {
    function GetOr(default: T): T {
      match this
      case Some(v) => v
      case None => default
    }
  }

  datatype CostKnowledge = Exact | Estimated | Unknown

  /** Merges one more piece of evidence into a running total (`null` = nothing yet). */
  function MergeKnowledge(current: Option<CostKnowledge>, incoming: CostKnowledge): CostKnowledge {
    if current.None? then incoming
    else if current.value.Unknown? || incoming.Unknown? then Unknown
    else if current.value.Estimated? || incoming.Estimated? then Estimated
    else Exact
  }

  /** The join of two possibly empty pieces of evidence. */
  function Join(a: Option<CostKnowledge>, b: Option<CostKnowledge>): Option<CostKnowledge> {
    if b.None? then a else Some(MergeKnowledge(a, b.value))
  }

  /** Position in the chain. */
  function Rank(k: Option<CostKnowledge>): nat {
    match k
    case None => 0
    case Some(Exact) => 1
    case Some(Estimated) => 2
    case Some(Unknown) => 3
  }

  predicate AtMost(a: Option<CostKnowledge>, b: Option<CostKnowledge>) {
    Rank(a) <= Rank(b)
  }

  function Max(a: real, b: real): real {
    if a < b then b else a
  }
}
