/**
 * Receiver-side link adaptation: SINR (dB) -> CQI -> (Qm, iTBS) -> TBS bits -> throughput -> QoE.
 * A simplified form of the CQI/MCS/TBS scheme of 3GPP TS 36.213 (CQI table 7.2.3-1, MCS table
 * 7.1.7.1-1, TBS table 7.1.7.2.1-1 at N_PRB = 50).
 */
module LinkAdaptation {
  import opened Demand

  /** A CQI threshold in dB; entry 0 of the table is minus infinity. */
  datatype Threshold = NegInfinity | Db(value: real)

  predicate Reaches(sinrDb: real, t: Threshold)
  {
    match t
    case NegInfinity => true
    case Db(v) => sinrDb >= v
  }

  const MaxCqi := 15

  /** The 16-entry CQI threshold table, strictly increasing. */
  const CqiThresholdDb: seq<Threshold> := [
    NegInfinity,
    Db(-9.478), Db(-6.658), Db(-4.098), Db(-1.798), Db(0.399),
    Db(2.424), Db(4.489), Db(6.367), Db(8.456), Db(10.266),
    Db(12.218), Db(14.122), Db(15.849), Db(17.786), Db(19.809)
  ]

  /** CQI -> (modulation order Qm, TBS index iTBS); entries 29..31 are reserved (iTBS -1). */
  const CqiToQmItbs: seq<(int, int)> := [
    (2,0),(2,1),(2,2),(2,3),(2,4),(2,5),(2,6),
    (2,7),(2,8),(2,9),
    (4,9),(4,10),(4,11),(4,12),(4,13),(4,14),(4,15),
    (6,16),(6,17),(6,18),(6,19),(6,20),(6,21),(6,22),
    (6,23),(6,24),(6,25),(6,26),(6,26),
    (2,-1),(4,-1),(6,-1)
  ]

  /** iTBS -> transport block size in bits for 50 PRBs (iTBS 0..26). */
  const TbsBitsForPrb50: seq<int> := [
    1384, 1800, 2216, 2856, 3624, 4392, 5160,
    6200, 6968, 7992, 8760, 9912, 11448,
    12960, 14112, 15264, 16416, 18336, 19848, 21384,
    22920, 25456, 27376, 28336, 30576, 31704, 36696
  ]

  /** The floor inside the QoE logarithm. */
  const QoeLogFloor: real := 0.000001

  /** Every quantity the receiver derives from one SINR sample (the Last* debug fields). */
  datatype LinkResult = LinkResult(cqi: int, qm: int, iTbs: int, tbsBits: int,
                                   alBps: int, alMbps: real, qoe: real)

  /** What a CQI of 0 (no transmission) yields; also the Last* fields' initial values. */
  const NoTransmission := LinkResult(0, 0, -1, 0, 0, 0.0, 0.0)

  /** The descending search "for i := hi down to 1, first i whose threshold is reached". */
  function CqiSearch(sinrDb: real, hi: nat): (c: nat)
    requires hi <= MaxCqi
    ensures c <= hi
    ensures c > 0 ==> Reaches(sinrDb, CqiThresholdDb[c])
    ensures forall j :: c < j <= hi ==> !Reaches(sinrDb, CqiThresholdDb[j])
  {
    if hi == 0 then 0
    else if Reaches(sinrDb, CqiThresholdDb[hi]) then hi
    else CqiSearch(sinrDb, hi - 1)
  }

  /** The CQI of a SINR: the largest index in 1..15 whose threshold it reaches, or 0 if none. */
  function CqiOf(sinrDb: real): (c: nat)
    ensures c <= MaxCqi
    ensures c == 0 <==> forall j :: 1 <= j <= MaxCqi ==> !Reaches(sinrDb, CqiThresholdDb[j])
    ensures c > 0 ==> sinrDb >= CqiThresholdDb[c].value
    ensures forall j :: c < j <= MaxCqi ==> sinrDb < CqiThresholdDb[j].value
  {
    CqiSearch(sinrDb, MaxCqi)
  }

  /** The QoE utility ln(max(1e-6, 237 * A_Mbps - 216.6)); the logarithm is supplied by the caller. */
  function Qoe(alMbps: real, ln: real -> real): real
  {
    ln(MaxReal(QoeLogFloor, 237.0 * alMbps - 216.6))
  }

  /** The full mapping of one SINR sample, including the guarded out-of-range iTBS branch. */
  function Adapt(sinrDb: real, ln: real -> real): (r: LinkResult)
    ensures r.cqi == CqiOf(sinrDb)
    ensures r.cqi == 0 ==> r == NoTransmission
    ensures r.cqi > 0 ==> (r.qm, r.iTbs) == CqiToQmItbs[r.cqi]
    ensures r.cqi > 0 ==> r.qm in {2, 4} && 0 <= r.iTbs <= 14
    ensures r.cqi > 0 ==> r.tbsBits == TbsBitsForPrb50[r.iTbs] && r.alBps == r.tbsBits * 1000
    ensures r.alBps >= 0 && r.alMbps == r.alBps as real / 1000000.0
    ensures r.cqi > 0 ==> r.qoe == Qoe(r.alMbps, ln)
  {
    var cqi := CqiOf(sinrDb);
    if cqi == 0 then NoTransmission
    else
      QmItbsEntry(cqi);
      var (qm, iTbs) := CqiToQmItbs[cqi];
      if 0 <= iTbs < |TbsBitsForPrb50| then
        var tbsBits := MaxInt(0, TbsBitsForPrb50[iTbs]);
        var alBps := tbsBits * 1000;
        var alMbps := alBps as real / 1000000.0;
        LinkResult(cqi, qm, iTbs, tbsBits, alBps, alMbps, Qoe(alMbps, ln))
      else
        LinkResult(cqi, qm, iTbs, 0, 0, 0.0, 0.0)
  }

  /** The (Qm, iTBS) entry of CQI c in 1..15: QPSK with iTBS = c up to CQI 9, then 16QAM with iTBS = c - 1. */
  lemma QmItbsEntry(c: int)
    requires 1 <= c <= MaxCqi
    ensures CqiToQmItbs[c] == if c <= 9 then (2, c) else (4, c - 1)
    ensures 0 <= CqiToQmItbs[c].1 < |TbsBitsForPrb50| && TbsBitsForPrb50[CqiToQmItbs[c].1] > 0
  {
  }

  /** The finite thresholds 1..15 are strictly increasing. */
  lemma ThresholdsIncreasing(i: int, j: int)
    requires 1 <= i < j <= MaxCqi
    ensures CqiThresholdDb[i].Db? && CqiThresholdDb[j].Db?
    ensures CqiThresholdDb[i].value < CqiThresholdDb[j].value
  {
  }

  /** A higher SINR never yields a lower CQI. */
  lemma CqiMonotone(s1: real, s2: real)
    requires s1 <= s2
    ensures CqiOf(s1) <= CqiOf(s2)
  {
  }

  /** Interval form: a SINR has CQI c in 1..15 exactly when it lies in [threshold c, threshold c+1). */
  lemma CqiInterval(sinrDb: real, c: int)
    requires 1 <= c <= MaxCqi
    ensures CqiOf(sinrDb) == c <==>
              sinrDb >= CqiThresholdDb[c].value
              && (c == MaxCqi || sinrDb < CqiThresholdDb[c + 1].value)
  {
    if sinrDb >= CqiThresholdDb[c].value && (c == MaxCqi || sinrDb < CqiThresholdDb[c + 1].value) {
      var r := CqiOf(sinrDb);
      if r > c {
        ThresholdsIncreasing(c + 1, r);
        assert false;
      }
    }
  }

  /** Below the lowest finite threshold there is no transmission: every derived quantity is 0. */
  lemma BelowLowestThresholdNoTransmission(sinrDb: real, ln: real -> real)
    requires sinrDb < CqiThresholdDb[1].value
    ensures Adapt(sinrDb, ln) == NoTransmission
  {
    var c := CqiOf(sinrDb);
    if c > 0 {
      if c > 1 {
        ThresholdsIncreasing(1, c);
      }
      assert false;
    }
  }

  /** For every CQI 1..15 the table gives an iTBS inside the 27-entry TBS table, and it never decreases. */
  lemma ItbsInRangeAndMonotone(c1: int, c2: int)
    requires 1 <= c1 <= c2 <= MaxCqi
    ensures 0 <= CqiToQmItbs[c1].1 <= CqiToQmItbs[c2].1 <= 14 < |TbsBitsForPrb50|
  {
    QmItbsEntry(c1);
    QmItbsEntry(c2);
  }

  /** The TBS table is strictly increasing in iTBS. */
  lemma TbsIncreasing(i: int, j: int)
    requires 0 <= i < j < |TbsBitsForPrb50|
    ensures 0 < TbsBitsForPrb50[i] < TbsBitsForPrb50[j]
  {
  }

  /**
   * Throughput never decreases as SINR increases. With a monotone logarithm QoE does not decrease
   * either once the lower SINR transmits; if moreover ln(1) = 0, as for the natural logarithm,
   * it does not decrease for any pair of SINRs.
   */
  lemma ThroughputMonotone(s1: real, s2: real, ln: real -> real)
    requires s1 <= s2
    ensures Adapt(s1, ln).alBps <= Adapt(s2, ln).alBps
    ensures (forall x, y :: x <= y ==> ln(x) <= ln(y)) && CqiOf(s1) > 0 ==>
              Adapt(s1, ln).qoe <= Adapt(s2, ln).qoe
    ensures (forall x, y :: x <= y ==> ln(x) <= ln(y)) && ln(1.0) == 0.0 ==>
              Adapt(s1, ln).qoe <= Adapt(s2, ln).qoe
  {
    CqiMonotone(s1, s2);
    var r1, r2 := Adapt(s1, ln), Adapt(s2, ln);
    if r1.cqi > 0 {
      QmItbsEntry(r1.cqi);
      QmItbsEntry(r2.cqi);
      if r1.iTbs < r2.iTbs {
        TbsIncreasing(r1.iTbs, r2.iTbs);
      }
      assert r1.alMbps <= r2.alMbps;
      assert MaxReal(QoeLogFloor, 237.0 * r1.alMbps - 216.6) <= MaxReal(QoeLogFloor, 237.0 * r2.alMbps - 216.6);
    } else if r2.cqi > 0 && (forall x, y :: x <= y ==> ln(x) <= ln(y)) && ln(1.0) == 0.0 {
      QoeFloorNeverApplies(s2, ln);
      assert ln(1.0) <= ln(237.0 * r2.alMbps - 216.6);
    }
  }

  /** For every CQI from 1 the logarithm's argument is at least 210, so the 1e-6 floor never applies. */
  lemma QoeFloorNeverApplies(sinrDb: real, ln: real -> real)
    requires CqiOf(sinrDb) > 0
    ensures 237.0 * Adapt(sinrDb, ln).alMbps - 216.6 >= 210.0
    ensures Adapt(sinrDb, ln).qoe == ln(237.0 * Adapt(sinrDb, ln).alMbps - 216.6)
  {
    var r := Adapt(sinrDb, ln);
    QmItbsEntry(r.cqi);
    if r.iTbs > 1 {
      TbsIncreasing(1, r.iTbs);
    }
    assert r.tbsBits >= 1800;
  }

  /** The injected test value: SINR 8.6 dB is CQI 9, (Qm, iTBS) = (2, 9), 7992 bits, 7.992 Mbps. */
  lemma WorkedExampleSinr86(ln: real -> real)
    ensures Adapt(8.6, ln).cqi == 9
    ensures Adapt(8.6, ln).qm == 2 && Adapt(8.6, ln).iTbs == 9
    ensures Adapt(8.6, ln).alBps == 7992000 && Adapt(8.6, ln).alMbps == 7.992
  {
    CqiInterval(8.6, 9);
  }
}
