/**
 * The per-agent reward accumulator and the reward terms: QoE (demand served over fleet demand),
 * coverage (penalising overconnect) and energy (1 / (1 + P * dt)), multiplied into the step reward.
 */
module Agent {
  import opened Demand

  const DefaultEps: real := 0.000001
  /** The floor on the frame time in the energy term. */
  const MinDeltaTime: real := 0.001

  function Clamp01(x: real): (r: real)
    ensures 0.0 <= r <= 1.0
    ensures 0.0 <= x <= 1.0 ==> r == x
    ensures x < 0.0 ==> r == 0.0
    ensures x > 1.0 ==> r == 1.0
  {
    if x < 0.0 then 0.0 else if x > 1.0 then 1.0 else x
  }

  /** clamp01(numerator / max(eps, denominator)). */
  function QoeReward(numerator: real, denom: real, eps: real): (r: real)
    requires eps > 0.0 || denom > 0.0
    ensures 0.0 <= r <= 1.0
    ensures r == 0.0 <==> numerator <= 0.0
    ensures r == 1.0 <==> numerator >= MaxReal(eps, denom)
    ensures 0.0 <= numerator <= MaxReal(eps, denom) ==> r * MaxReal(eps, denom) == numerator
  {
    var d := MaxReal(eps, denom);
    RatioAgainstBounds(numerator, d);
    Clamp01(numerator / d)
  }

  /** A quotient by a positive divisor is at least 1 exactly when the dividend reaches the divisor, and positive exactly when the dividend is. */
  lemma RatioAgainstBounds(n: real, d: real)
    requires d > 0.0
    ensures n / d >= 1.0 <==> n >= d
    ensures n / d <= 0.0 <==> n <= 0.0
    ensures (n / d) * d == n
  {
    var q := n / d;
    assert q * d == n;
    ScaleByPositive(q - 1.0, d);
    assert (q - 1.0) * d == n - d;
    ScaleByPositive(q, d);
  }

  /** Multiplying by a positive factor keeps the sign. */
  lemma ScaleByPositive(x: real, d: real)
    requires d > 0.0
    ensures x >= 0.0 <==> x * d >= 0.0
    ensures x <= 0.0 <==> x * d <= 0.0
  {
  }

  /** 1 / (1 + max(0, overconnect)). */
  function CoverageReward(overconnect: int): (r: real)
    ensures 0.0 < r <= 1.0
    ensures r == 1.0 <==> overconnect <= 0
    ensures overconnect >= 0 ==> r * (1.0 + overconnect as real) == 1.0
  {
    1.0 / (1.0 + MaxInt(0, overconnect) as real)
  }

  /** The energy spent this frame, mu = max(0, P) * max(dt, 1e-3). */
  function EnergyCost(power: real, dt: real): (mu: real)
    ensures mu >= 0.0
    ensures mu == 0.0 <==> power <= 0.0
  {
    MaxReal(0.0, power) * MaxReal(dt, MinDeltaTime)
  }

  /** 1 / (1 + mu). */
  function EnergyReward(power: real, dt: real): (r: real)
    ensures 0.0 < r <= 1.0
    ensures r == 1.0 <==> power <= 0.0
  {
    1.0 / (1.0 + EnergyCost(power, dt))
  }

  /** The reward of one step: the product of the three terms. */
  function StepReward(numerator: real, overconnect: int, denom: real, eps: real, power: real, dt: real): (r: real)
    requires eps > 0.0 || denom > 0.0
    ensures 0.0 <= r <= 1.0
    ensures r == 0.0 <==> numerator <= 0.0
    ensures r == 1.0 <==> numerator >= MaxReal(eps, denom) && overconnect <= 0 && power <= 0.0
  {
    var q, c, e := QoeReward(numerator, denom, eps), CoverageReward(overconnect), EnergyReward(power, dt);
    ProductInUnitInterval(q, c, e);
    q * c * e
  }

  lemma ProductInUnitInterval(q: real, c: real, e: real)
    requires 0.0 <= q <= 1.0 && 0.0 < c <= 1.0 && 0.0 < e <= 1.0
    ensures 0.0 <= q * c * e <= 1.0
    ensures q * c * e == 0.0 <==> q == 0.0
    ensures q * c * e == 1.0 <==> q == 1.0 && c == 1.0 && e == 1.0
  {
    assert 0.0 <= q * c <= c;
    assert q * c * e <= q * c;
    if q * c * e == 1.0 {
      assert q * c == 1.0;
      assert c == 1.0;
    }
  }

  /** Σ max(0, demand) over the Building areas, as OnEpisodeBegin sums it. */
  function TotalBuildingDemand(areas: seq<DemandArea>): (t: int)
    ensures t >= 0
    ensures (forall i :: 0 <= i < |areas| ==> areas[i].kind == Road) ==> t == 0
  {
    if |areas| == 0 then 0
    else TotalBuildingDemand(areas[..|areas| - 1]) + BuildingWeight(areas[|areas| - 1])
  }

  /** The episode denominator max(1, total Building demand). */
  function EpisodeDenominator(areas: seq<DemandArea>): (d: real)
    ensures d >= 1.0
    ensures d >= TotalBuildingDemand(areas) as real
    ensures TotalBuildingDemand(areas) >= 1 ==> d == TotalBuildingDemand(areas) as real
  {
    MaxReal(1.0, TotalBuildingDemand(areas) as real)
  }

  /** Each Building's weight is part of the total: no single area's share reaches beyond it. */
  lemma {:induction false} BuildingWeightBelowTotal(areas: seq<DemandArea>, i: int)
    requires 0 <= i < |areas|
    ensures BuildingWeight(areas[i]) <= TotalBuildingDemand(areas)
  {
    if i < |areas| - 1 {
      BuildingWeightBelowTotal(areas[..|areas| - 1], i);
    }
  }

  class DroneAgent {
    var qoeNumeratorThisStep: real
    var overconnectThisStep: int
    var totalWeightDenom: real
    var eps: real
    /** The reward handed to the trainer so far (AddReward accumulates). */
    var cumulativeReward: real

    ghost predicate Valid()
      reads this
    {
      qoeNumeratorThisStep >= 0.0 && overconnectThisStep >= 0 && totalWeightDenom >= 1.0
    }

    constructor ()
      ensures Valid()
      ensures qoeNumeratorThisStep == 0.0 && overconnectThisStep == 0
      ensures totalWeightDenom == 1.0 && eps == DefaultEps && cumulativeReward == 0.0
    {
      qoeNumeratorThisStep := 0.0;
      overconnectThisStep := 0;
      totalWeightDenom := 1.0;
      eps := DefaultEps;
      cumulativeReward := 0.0;
    }

    /** Called by the sensor at the start of a scan: both accumulators go to 0. */
    method BeginStepAggregation()
      requires Valid()
      modifies this`qoeNumeratorThisStep, this`overconnectThisStep
      ensures Valid()
      ensures qoeNumeratorThisStep == 0.0 && overconnectThisStep == 0
    {
      qoeNumeratorThisStep := 0.0;
      overconnectThisStep := 0;
    }

    /** Adds the floored numerator and keeps the running maximum of the floored overconnect. */
    method ReportQoEAndOverlap(perDroneQoENumerator: real, overconnect: int)
      requires Valid()
      modifies this`qoeNumeratorThisStep, this`overconnectThisStep
      ensures Valid()
      ensures qoeNumeratorThisStep == old(qoeNumeratorThisStep) + MaxReal(0.0, perDroneQoENumerator)
      ensures overconnectThisStep == MaxInt(old(overconnectThisStep), MaxInt(0, overconnect))
      ensures qoeNumeratorThisStep >= old(qoeNumeratorThisStep) && overconnectThisStep >= old(overconnectThisStep)
    {
      qoeNumeratorThisStep := qoeNumeratorThisStep + MaxReal(0.0, perDroneQoENumerator);
      overconnectThisStep := MaxInt(overconnectThisStep, MaxInt(0, overconnect));
    }

    /**
     * The reward bookkeeping of OnEpisodeBegin: the denominator from the scene's demand areas,
     * then both accumulators to 0. The random pose reset is not modelled.
     */
    method OnEpisodeBegin(areas: seq<DemandArea>)
      requires Valid()
      modifies this`totalWeightDenom, this`qoeNumeratorThisStep, this`overconnectThisStep
      ensures Valid()
      ensures totalWeightDenom == EpisodeDenominator(areas)
      ensures qoeNumeratorThisStep == 0.0 && overconnectThisStep == 0
    {
      var totalWeight := 0;
      for i := 0 to |areas|
        invariant totalWeight == TotalBuildingDemand(areas[..i])
      {
        assert areas[..i + 1][..i] == areas[..i];
        if areas[i].kind == Building {
          totalWeight := totalWeight + MaxInt(0, areas[i].demand);
        }
      }
      assert areas[..|areas|] == areas;
      totalWeightDenom := MaxReal(1.0, totalWeight as real);
      qoeNumeratorThisStep := 0.0;
      overconnectThisStep := 0;
    }

    /**
     * The reward part of OnActionReceived: add the product of the three terms, then zero the
     * accumulators for the next step. The drone's power draw and the frame time are inputs.
     */
    method OnActionReceived(power: real, dt: real)
      requires Valid()
      modifies this`cumulativeReward, this`qoeNumeratorThisStep, this`overconnectThisStep
      ensures Valid()
      ensures cumulativeReward ==
                old(cumulativeReward)
                + StepReward(old(qoeNumeratorThisStep), old(overconnectThisStep), totalWeightDenom, eps, power, dt)
      ensures old(cumulativeReward) <= cumulativeReward <= old(cumulativeReward) + 1.0
      ensures qoeNumeratorThisStep == 0.0 && overconnectThisStep == 0
    {
      var qoe := QoeReward(qoeNumeratorThisStep, totalWeightDenom, eps);
      var cov := CoverageReward(overconnectThisStep);
      var ene := EnergyReward(power, dt);
      cumulativeReward := cumulativeReward + qoe * cov * ene;
      qoeNumeratorThisStep := 0.0;
      overconnectThisStep := 0;
    }
  }
}
