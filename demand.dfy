/** A demand area of the scene: what a receiver (UE) contributes to the fleet-wide objective. */
module Demand {

  datatype AreaKind = Building | Road

  /** The two inputs the core reads from a DemandArea component. */
  datatype DemandArea = DemandArea(kind: AreaKind, demand: int)

  function MaxInt(a: int, b: int): (m: int)
    ensures m >= a && m >= b && (m == a || m == b)
  {
    if a >= b then a else b
  }

  function MaxReal(a: real, b: real): (m: real)
    ensures m >= a && m >= b && (m == a || m == b)
  {
    if a >= b then a else b
  }

  /** The weight an area carries: its demand floored at 0 for a Building, nothing for a Road. */
  function BuildingWeight(a: DemandArea): (w: int)
    ensures w >= 0
    ensures a.kind == Road ==> w == 0
    ensures a.kind == Building && a.demand >= 0 ==> w == a.demand
    ensures a.demand <= 0 ==> w == 0
  {
    if a.kind == Building then MaxInt(0, a.demand) else 0
  }
}
