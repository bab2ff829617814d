/** The colour tier a server is drawn in, chosen from its load. Only the choice
    of tier is modelled; the drawing itself is not. */
module Tiers {

  /** Upper bounds of the green and amber tiers. */
  const LowLoadThreshold: real := 0.33
  const MediumLoadThreshold: real := 0.66

  datatype Tier = Green | Amber | Red

  /** Position of a tier in the order green < amber < red. */
  function Rank(t: Tier): nat
  {
    match t
    case Green => 0
    case Amber => 1
    case Red => 2
  }

  /** The tier of a server carrying `load`: the first threshold the load does
      not exceed decides, and anything above both is red. */
  function TierOf(load: real): (t: Tier)
    ensures t == Green <==> load <= LowLoadThreshold
    ensures t == Amber <==> LowLoadThreshold < load <= MediumLoadThreshold
    ensures t == Red <==> MediumLoadThreshold < load
  {
    if load <= LowLoadThreshold then Green
    else if load <= MediumLoadThreshold then Amber
    else Red
  }

  /** More load never moves a server to a lower tier. */
  lemma TierMonotone(a: real, b: real)
    requires a <= b
    ensures Rank(TierOf(a)) <= Rank(TierOf(b))
  {
  }
}
