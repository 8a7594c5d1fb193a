/**
 * The matrix part of the propagation model: the link budget per (transmitter, receiver) pair
 * and the SINR of every pair against the other transmitters' power at the same receiver.
 * Path loss, distances, angles, the gain pattern and dBm -> mW conversion are inputs.
 */
module LinkModel {

  /** Received power in dBm on one link: G_tx(angle) + P_tx - L + G_rx. */
  function LinkBudget(gainDbi: real, ptxDbm: real, pathLossDb: real, grxDbi: real): (rxDbm: real)
    ensures rxDbm - ptxDbm == gainDbi + grxDbi - pathLossDb
  {
    gainDbi + ptxDbm - pathLossDb + grxDbi
  }

  /** The power of transmitters 0..n-1 at receiver l, leaving out transmitter i. */
  function Interference(rx: array2<real>, i: int, l: int, n: nat): real
    reads rx
    requires n <= rx.Length0 && 0 <= l < rx.Length1
  {
    if n == 0 then 0.0
    else Interference(rx, i, l, n - 1) + (if n - 1 != i then rx[n - 1, l] else 0.0)
  }

  /** The total power of transmitters 0..n-1 at receiver l. */
  function ColumnPower(rx: array2<real>, l: int, n: nat): real
    reads rx
    requires n <= rx.Length0 && 0 <= l < rx.Length1
  {
    if n == 0 then 0.0 else ColumnPower(rx, l, n - 1) + rx[n - 1, l]
  }

  ghost predicate NonNegative(rx: array2<real>)
    reads rx
  {
    forall k, l :: 0 <= k < rx.Length0 && 0 <= l < rx.Length1 ==> rx[k, l] >= 0.0
  }

  /** Interference is everything the receiver hears except the serving transmitter itself. */
  lemma {:induction false} InterferenceExcludesServing(rx: array2<real>, i: int, l: int, n: nat)
    requires n <= rx.Length0 && 0 <= l < rx.Length1
    ensures Interference(rx, i, l, n) == ColumnPower(rx, l, n) - (if 0 <= i < n then rx[i, l] else 0.0)
  {
    if n > 0 {
      InterferenceExcludesServing(rx, i, l, n - 1);
    }
  }

  /** With non-negative powers, interference is non-negative. */
  lemma {:induction false} InterferenceNonNegative(rx: array2<real>, i: int, l: int, n: nat)
    requires n <= rx.Length0 && 0 <= l < rx.Length1 && NonNegative(rx)
    ensures Interference(rx, i, l, n) >= 0.0
  {
    if n > 0 {
      InterferenceNonNegative(rx, i, l, n - 1);
    }
  }

  /** A single transmitter is never interfered with: its SINR divisor is the noise alone. */
  lemma SingleTransmitterNoInterference(rx: array2<real>, l: int)
    requires rx.Length0 == 1 && 0 <= l < rx.Length1
    ensures Interference(rx, 0, l, 1) == 0.0
  {
  }

  /**
   * GetAllRxPowers: the link budget of every pair, with the dimensions taken from the angle
   * matrix and the transmit antenna gain pattern G supplied by the caller.
   */
  method GetAllRxPowers(angles: array2<real>, pathLosses: array2<real>, gain: real -> real,
                        ptxDbm: real, grxDbi: real) returns (rxPowers: array2<real>)
    requires angles.Length0 <= pathLosses.Length0 && angles.Length1 <= pathLosses.Length1
    ensures fresh(rxPowers)
    ensures rxPowers.Length0 == angles.Length0 && rxPowers.Length1 == angles.Length1
    ensures forall i, j :: 0 <= i < angles.Length0 && 0 <= j < angles.Length1 ==>
              rxPowers[i, j] == LinkBudget(gain(angles[i, j]), ptxDbm, pathLosses[i, j], grxDbi)
  {
    var txCount, rxCount := angles.Length0, angles.Length1;
    rxPowers := new real[txCount, rxCount];
    for i := 0 to txCount
      invariant forall i', j :: 0 <= i' < i && 0 <= j < rxCount ==>
                  rxPowers[i', j] == LinkBudget(gain(angles[i', j]), ptxDbm, pathLosses[i', j], grxDbi)
    {
      for j := 0 to rxCount
        invariant forall i', j' :: 0 <= i' < i && 0 <= j' < rxCount ==>
                    rxPowers[i', j'] == LinkBudget(gain(angles[i', j']), ptxDbm, pathLosses[i', j'], grxDbi)
        invariant forall j' :: 0 <= j' < j ==>
                    rxPowers[i, j'] == LinkBudget(gain(angles[i, j']), ptxDbm, pathLosses[i, j'], grxDbi)
      {
        var gtxDbi := gain(angles[i, j]);
        rxPowers[i, j] := gtxDbi + ptxDbm - pathLosses[i, j] + grxDbi;
      }
    }
  }

  /** The inner loop of GetAllSINR: the interference at receiver l for serving transmitter i. */
  method SumInterference(rx: array2<real>, i: int, l: int) returns (interference: real)
    requires 0 <= l < rx.Length1
    ensures interference == Interference(rx, i, l, rx.Length0)
  {
    interference := 0.0;
    for k := 0 to rx.Length0
      invariant interference == Interference(rx, i, l, k)
    {
      if k != i {
        interference := interference + rx[k, l];
      }
    }
  }

  /** The SINR of pair (i, l): serving power over noise plus interference, never negative. */
  function Sinr(rx: array2<real>, noisePowerMw: real, i: int, l: int): (r: real)
    reads rx
    requires noisePowerMw > 0.0 && NonNegative(rx)
    requires 0 <= i < rx.Length0 && 0 <= l < rx.Length1
    ensures r >= 0.0
    ensures r * (noisePowerMw + ColumnPower(rx, l, rx.Length0) - rx[i, l]) == rx[i, l]
  {
    InterferenceNonNegative(rx, i, l, rx.Length0);
    InterferenceExcludesServing(rx, i, l, rx.Length0);
    rx[i, l] / (noisePowerMw + Interference(rx, i, l, rx.Length0))
  }

  /** With a single transmitter the SINR reduces to signal over noise. */
  lemma SingleTransmitterSinr(rx: array2<real>, noisePowerMw: real, l: int)
    requires noisePowerMw > 0.0 && NonNegative(rx)
    requires rx.Length0 == 1 && 0 <= l < rx.Length1
    ensures Sinr(rx, noisePowerMw, 0, l) == rx[0, l] / noisePowerMw
  {
    SingleTransmitterNoInterference(rx, l);
  }

  /**
   * GetAllSINR: a matrix of the same tx x rx shape whose (i, l) entry is the serving power over
   * the noise plus the power of every other transmitter at receiver l (linear units).
   */
  method GetAllSinr(rx: array2<real>, noisePowerMw: real) returns (sinr: array2<real>)
    requires noisePowerMw > 0.0 && NonNegative(rx)
    ensures fresh(sinr)
    ensures sinr.Length0 == rx.Length0 && sinr.Length1 == rx.Length1
    ensures forall i, l :: 0 <= i < rx.Length0 && 0 <= l < rx.Length1 ==>
              sinr[i, l] == Sinr(rx, noisePowerMw, i, l)
  {
    var txCount, rxCount := rx.Length0, rx.Length1;
    sinr := new real[txCount, rxCount];
    for i := 0 to txCount
      invariant forall i', l :: 0 <= i' < i && 0 <= l < rxCount ==> sinr[i', l] == Sinr(rx, noisePowerMw, i', l)
    {
      for l := 0 to rxCount
        invariant forall i', l' :: 0 <= i' < i && 0 <= l' < rxCount ==> sinr[i', l'] == Sinr(rx, noisePowerMw, i', l')
        invariant forall l' :: 0 <= l' < l ==> sinr[i, l'] == Sinr(rx, noisePowerMw, i, l')
      {
        var signal := rx[i, l];
        var interference := SumInterference(rx, i, l);
        InterferenceNonNegative(rx, i, l, txCount);
        sinr[i, l] := signal / (noisePowerMw + interference);
      }
    }
  }
}
