/**
 * A UE receiver's per-transmitter aggregation bucket: the accumulated demand-weighted QoE
 * per transmitter id, the set of connected transmitter ids, and consume-once pops.
 */
module Receiver {
  import opened Demand
  import opened LinkAdaptation

  /** The stored value of a transmitter's bucket; a missing key reads as 0 (TryGetValue). */
  function Lookup(pending: map<int, real>, srcId: int): (v: real)
    ensures srcId in pending ==> v == pending[srcId]
    ensures srcId !in pending ==> v == 0.0
  {
    if srcId in pending then pending[srcId] else 0.0
  }

  /** The weight of the receiver's demand area; a receiver without an area weighs nothing. */
  function AreaWeight(area: Option<DemandArea>): (w: int)
    ensures w >= 0
    ensures area.None? ==> w == 0
    ensures area.Some? ==> w == BuildingWeight(area.value)
  {
    match area
    case None => 0
    case Some(a) => BuildingWeight(a)
  }

  /** max(0, QoE * weight): what one accepted sample adds to its transmitter's bucket. */
  function WeightedQoe(qoe: real, weight: int): (w: real)
    requires weight >= 0
    ensures w >= 0.0 && w >= qoe * weight as real
    ensures w == 0.0 || w == qoe * weight as real
    ensures weight == 0 || qoe <= 0.0 ==> w == 0.0
  {
    MaxReal(0.0, qoe * weight as real)
  }

  /** The overconnect a transmitter observes: the other connected transmitters, or 0 if it is not connected. */
  function Overlap(connected: set<int>, srcId: int): (ov: int)
    ensures ov >= 0
    ensures srcId in connected ==> ov == |connected| - 1
    ensures srcId !in connected ==> ov == 0
  {
    if srcId in connected then
      assert |connected| >= 1 by {
        assert {srcId} <= connected;
      }
      MaxInt(0, |connected| - 1)
    else 0
  }

  /** A bucket map whose entries are all non-negative. */
  ghost predicate NonNegativeBuckets(pending: map<int, real>)
  {
    forall k :: k in pending ==> pending[k] >= 0.0
  }

  datatype Option<T> = None | Some(value: T)

  class RadioReceiver {
    var nodeId: int
    var rxThresholdSinrDb: real
    var recvPackets: int
    /** The Last* debug fields: everything derived from the latest injected sample. */
    var last: LinkResult
    /** The DemandArea found on this object, its parent or its children, if any. */
    var area: Option<DemandArea>
    /** The natural logarithm used by the QoE utility (Mathf.Log). */
    const ln: real -> real
    var pending: map<int, real>
    var connected: set<int>

    ghost predicate Valid()
      reads this
    {
      NonNegativeBuckets(pending)
    }

    /** Field initialisers followed by OnEnable: a node id of 0 is replaced by the instance id. */
    constructor (nodeId: int, instanceId: int, rxThresholdSinrDb: real, area: Option<DemandArea>, ln: real -> real)
      ensures Valid()
      ensures this.nodeId == (if nodeId == 0 then instanceId else nodeId)
      ensures this.rxThresholdSinrDb == rxThresholdSinrDb && this.area == area && this.ln == ln
      ensures recvPackets == 0 && last == NoTransmission
      ensures pending == map[] && connected == {}
    {
      this.nodeId := if nodeId == 0 then instanceId else nodeId;
      this.rxThresholdSinrDb := rxThresholdSinrDb;
      this.area := area;
      this.ln := ln;
      recvPackets := 0;
      last := NoTransmission;
      pending := map[];
      connected := {};
    }

    /** The weighted QoE one accepted sample at this SINR adds to its transmitter's bucket. */
    function Contribution(sinrDb: real): (w: real)
      reads this`area
      ensures w >= 0.0
      ensures AreaWeight(area) == 0 || CqiOf(sinrDb) == 0 ==> w == 0.0
      ensures w == 0.0 || w == Adapt(sinrDb, ln).qoe * AreaWeight(area) as real
      ensures w >= Adapt(sinrDb, ln).qoe * AreaWeight(area) as real
    {
      var link := Adapt(sinrDb, ln);
      assert link.cqi == 0 ==> link.qoe == 0.0;
      WeightedQoe(link.qoe, AreaWeight(area))
    }

    /**
     * AcceptSinrFromModel: record the link adaptation of the sample, and at or above the
     * threshold connect the transmitter, add its weighted QoE and count one received packet.
     * The receive event has no effect on the core and is not modelled.
     */
    method AcceptSinrFromModel(srcId: int, sinrDb: real)
      requires Valid()
      modifies this`last, this`connected, this`pending, this`recvPackets
      ensures Valid()
      ensures last == Adapt(sinrDb, ln)
      ensures sinrDb >= rxThresholdSinrDb ==>
                && connected == old(connected) + {srcId}
                && pending == old(pending)[srcId := Lookup(old(pending), srcId) + Contribution(sinrDb)]
                && recvPackets == old(recvPackets) + 1
      ensures sinrDb < rxThresholdSinrDb ==>
                connected == old(connected) && pending == old(pending) && recvPackets == old(recvPackets)
    {
      last := Adapt(sinrDb, ln);
      if sinrDb >= rxThresholdSinrDb {
        connected := connected + {srcId};
        var weighted := Contribution(sinrDb);
        if srcId in pending {
          pending := pending[srcId := pending[srcId] + weighted];
        } else {
          pending := pending[srcId := weighted];
        }
        recvPackets := recvPackets + 1;
      }
    }

    /**
     * PopQoeAndOverlapFor: hand out the stored value (0 if absent) and write 0 back;
     * the overlap is read from the connected set, which the pop leaves alone.
     */
    method PopQoeAndOverlapFor(srcId: int) returns (weightedQoe: real, overconnect: int)
      requires Valid()
      modifies this`pending
      ensures Valid()
      ensures weightedQoe == Lookup(old(pending), srcId) && weightedQoe >= 0.0
      ensures pending == old(pending)[srcId := 0.0]
      ensures overconnect == Overlap(connected, srcId)
    {
      weightedQoe := if srcId in pending then pending[srcId] else 0.0;
      pending := pending[srcId := 0.0];
      overconnect := if srcId in connected then MaxInt(0, |connected| - 1) else 0;
    }

    /** ResetAggregation: clear both the buckets and the connected set. */
    method ResetAggregation()
      modifies this`pending, this`connected
      ensures Valid()
      ensures pending == map[] && connected == {}
    {
      pending := map[];
      connected := {};
    }
  }

  /** Accumulation never lowers a bucket and leaves every other transmitter's bucket as it was. */
  lemma AcceptGrowsOnlyItsBucket(r: RadioReceiver, pending: map<int, real>, srcId: int, sinrDb: real, other: int)
    requires other != srcId
    ensures var after := pending[srcId := Lookup(pending, srcId) + r.Contribution(sinrDb)];
            Lookup(after, srcId) >= Lookup(pending, srcId) && Lookup(after, other) == Lookup(pending, other)
  {
  }

  /** Pop immediately after pop: the second returns 0 and the same overlap (client of the class). */
  method PopTwice(r: RadioReceiver, srcId: int) returns (first: real, second: real, ov1: int, ov2: int)
    requires r.Valid()
    modifies r`pending
    ensures first == Lookup(old(r.pending), srcId)
    ensures second == 0.0 && ov1 == ov2 && r.pending == old(r.pending)[srcId := 0.0]
  {
    first, ov1 := r.PopQoeAndOverlapFor(srcId);
    second, ov2 := r.PopQoeAndOverlapFor(srcId);
  }

  /** After ResetAggregation every pop returns (0, 0). */
  method ResetThenPop(r: RadioReceiver, srcId: int) returns (v: real, ov: int)
    modifies r`pending, r`connected
    ensures v == 0.0 && ov == 0
  {
    r.ResetAggregation();
    v, ov := r.PopQoeAndOverlapFor(srcId);
  }

  /**
   * With the default 0 dB threshold an injection at +5 dB connects and one at -5 dB does not;
   * with one transmitter connected, its overlap is 0.
   */
  method GreenScenario(r: RadioReceiver, srcId: int) returns (ov: int)
    requires r.Valid() && r.rxThresholdSinrDb == 0.0 && r.connected == {}
    modifies r`last, r`connected, r`pending, r`recvPackets
    ensures r.connected == {srcId} && r.recvPackets == old(r.recvPackets) + 1
    ensures ov == 0
  {
    r.AcceptSinrFromModel(srcId, -5.0);
    assert r.connected == {} && r.recvPackets == old(r.recvPackets);
    r.AcceptSinrFromModel(srcId, 5.0);
    var v;
    v, ov := r.PopQoeAndOverlapFor(srcId);
  }

  /** Two connected transmitters each observe overlap 1. */
  method TwoTransmittersOverlap(r: RadioReceiver, a: int, b: int, sa: real, sb: real) returns (ova: int, ovb: int)
    requires r.Valid() && r.connected == {} && a != b
    requires sa >= r.rxThresholdSinrDb && sb >= r.rxThresholdSinrDb
    modifies r`last, r`connected, r`pending, r`recvPackets
    ensures ova == 1 && ovb == 1
  {
    r.AcceptSinrFromModel(a, sa);
    r.AcceptSinrFromModel(b, sb);
    assert r.connected == {a, b};
    var v;
    v, ova := r.PopQoeAndOverlapFor(a);
    v, ovb := r.PopQoeAndOverlapFor(b);
  }
}
