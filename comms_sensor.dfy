/**
 * The drone-side pull loop: once per scan, pop this drone's bucket from every receiver,
 * count the receivers that gave something, sum what they gave, keep the largest overlap,
 * and report once to the agent.
 */
module Sensor {
  import opened Receiver
  import opened Agent

  /** What a scan sees at one slot of the receiver list: a null slot, or the pair a pop returns. */
  datatype PopSample = Skipped | Popped(value: real, overlap: int)

  /** What a pop of this drone's bucket at one slot would return, read from the current state. */
  function SampleOf(rx: RadioReceiver?, droneId: int): (x: PopSample)
    reads rx
    ensures rx == null <==> x == Skipped
  {
    if rx == null then Skipped
    else Popped(Lookup(rx.pending, droneId), Overlap(rx.connected, droneId))
  }

  /** The pairs the receivers would hand this drone, read from the state before the scan. */
  function PopsOf(ues: seq<RadioReceiver?>, droneId: int): (p: seq<PopSample>)
    reads ues
    ensures |p| == |ues|
    ensures forall i :: 0 <= i < |ues| ==> p[i] == SampleOf(ues[i], droneId)
  {
    seq(|ues|, i reads ues requires 0 <= i < |ues| => SampleOf(ues[i], droneId))
  }

  /** Number of popped values that are positive. */
  function LinkableCount(p: seq<PopSample>): (n: nat)
    ensures n <= |p|
  {
    if |p| == 0 then 0
    else LinkableCount(p[..|p| - 1]) + (if p[|p| - 1].Popped? && p[|p| - 1].value > 0.0 then 1 else 0)
  }

  /** Sum of the positive popped values only. */
  function PositiveSum(p: seq<PopSample>): (s: real)
    ensures s >= 0.0
  {
    if |p| == 0 then 0.0
    else PositiveSum(p[..|p| - 1]) + (if p[|p| - 1].Popped? && p[|p| - 1].value > 0.0 then p[|p| - 1].value else 0.0)
  }

  /** Running maximum of the popped overlaps, starting from 0. */
  function MaxOverlap(p: seq<PopSample>): (m: int)
    ensures m >= 0
  {
    if |p| == 0 then 0
    else
      var m := MaxOverlap(p[..|p| - 1]);
      if p[|p| - 1].Popped? && p[|p| - 1].overlap > m then p[|p| - 1].overlap else m
  }

  /** The three folds, one sample further. */
  lemma FoldSnoc(p: seq<PopSample>, x: PopSample)
    ensures LinkableCount(p + [x]) == LinkableCount(p) + (if x.Popped? && x.value > 0.0 then 1 else 0)
    ensures PositiveSum(p + [x]) == PositiveSum(p) + (if x.Popped? && x.value > 0.0 then x.value else 0.0)
    ensures MaxOverlap(p + [x]) == if x.Popped? && x.overlap > MaxOverlap(p) then x.overlap else MaxOverlap(p)
  {
    assert (p + [x])[..|p|] == p;
  }

  /** The sum is positive exactly when at least one receiver is counted as linkable. */
  lemma {:induction false} PositiveSumIffLinkable(p: seq<PopSample>)
    ensures PositiveSum(p) > 0.0 <==> LinkableCount(p) > 0
  {
    if |p| > 0 {
      PositiveSumIffLinkable(p[..|p| - 1]);
    }
  }

  /** The maximum bounds every popped overlap and, unless it is 0, is one of them. */
  lemma {:induction false} MaxOverlapIsMaximum(p: seq<PopSample>)
    ensures forall i :: 0 <= i < |p| && p[i].Popped? ==> p[i].overlap <= MaxOverlap(p)
    ensures MaxOverlap(p) == 0 || exists i :: 0 <= i < |p| && p[i].Popped? && p[i].overlap == MaxOverlap(p)
  {
    if |p| > 0 {
      var q := p[..|p| - 1];
      MaxOverlapIsMaximum(q);
      assert forall i :: 0 <= i < |q| ==> q[i] == p[i];
    }
  }

  /** Every positive popped value is part of the sum. */
  lemma {:induction false} PositiveValueBelowSum(p: seq<PopSample>, i: int)
    requires 0 <= i < |p| && p[i].Popped? && p[i].value > 0.0
    ensures p[i].value <= PositiveSum(p)
  {
    if i < |p| - 1 {
      PositiveValueBelowSum(p[..|p| - 1], i);
    }
  }

  /** The receivers in a scan list other than the null slots. */
  function Live(ues: seq<RadioReceiver?>): set<RadioReceiver>
  {
    set i | 0 <= i < |ues| && ues[i] != null :: ues[i]
  }

  class CommsSensor {
    var linkableCount: int
    var maxOverlapThisFrame: int
    var sumQoEThisFrame: real
    const agent: DroneAgent
    /** The id the link model uses for this drone. */
    const droneId: int

    constructor (agent: DroneAgent, droneId: int)
      ensures this.agent == agent && this.droneId == droneId
      ensures linkableCount == 0 && maxOverlapThisFrame == 0 && sumQoEThisFrame == 0.0
    {
      this.agent := agent;
      this.droneId := droneId;
      linkableCount := 0;
      maxOverlapThisFrame := 0;
      sumQoEThisFrame := 0.0;
    }

    /**
     * The body of the pull loop for a live receiver: pop this drone's bucket, count and sum
     * a positive value, and raise the running maximum overlap.
     */
    method PullOne(rx: RadioReceiver, ghost done: seq<PopSample>)
      requires rx.Valid()
      requires linkableCount == LinkableCount(done)
      requires sumQoEThisFrame == PositiveSum(done)
      requires maxOverlapThisFrame == MaxOverlap(done)
      modifies this`linkableCount, this`maxOverlapThisFrame, this`sumQoEThisFrame, rx`pending
      ensures rx.Valid() && rx.pending == old(rx.pending)[droneId := 0.0]
      ensures linkableCount == LinkableCount(done + [old(SampleOf(rx, droneId))])
      ensures sumQoEThisFrame == PositiveSum(done + [old(SampleOf(rx, droneId))])
      ensures maxOverlapThisFrame == MaxOverlap(done + [old(SampleOf(rx, droneId))])
    {
      FoldSnoc(done, SampleOf(rx, droneId));
      var wq, ov := rx.PopQoeAndOverlapFor(droneId);
      if wq > 0.0 {
        sumQoEThisFrame := sumQoEThisFrame + wq;
        linkableCount := linkableCount + 1;
      }
      if ov > maxOverlapThisFrame {
        maxOverlapThisFrame := ov;
      }
    }

    /**
     * The pull loop over the receiver list: null slots are skipped without a pop, every
     * other receiver is popped once for this drone.
     */
    method PullAll(ues: seq<RadioReceiver?>)
      requires forall i, j :: 0 <= i < j < |ues| && ues[i] != null ==> ues[i] != ues[j]
      requires forall r :: r in Live(ues) ==> r.Valid()
      requires linkableCount == 0 && maxOverlapThisFrame == 0 && sumQoEThisFrame == 0.0
      modifies this`linkableCount, this`maxOverlapThisFrame, this`sumQoEThisFrame
      modifies Live(ues)`pending
      ensures linkableCount == LinkableCount(old(PopsOf(ues, droneId)))
      ensures sumQoEThisFrame == PositiveSum(old(PopsOf(ues, droneId)))
      ensures maxOverlapThisFrame == MaxOverlap(old(PopsOf(ues, droneId)))
      ensures forall r :: r in Live(ues) ==> r.Valid() && r.pending == old(r.pending)[droneId := 0.0]
    {
      ghost var pops := PopsOf(ues, droneId);
      var i := 0;
      while i < |ues|
        invariant 0 <= i <= |ues|
        invariant linkableCount == LinkableCount(pops[..i])
        invariant sumQoEThisFrame == PositiveSum(pops[..i])
        invariant maxOverlapThisFrame == MaxOverlap(pops[..i])
        invariant forall j :: 0 <= j < |ues| && ues[j] != null ==> ues[j].Valid()
        invariant forall j :: 0 <= j < i && ues[j] != null ==> ues[j].pending == old(ues[j].pending)[droneId := 0.0]
        invariant forall j :: i <= j < |ues| && ues[j] != null ==> ues[j].pending == old(ues[j].pending)
      {
        assert pops[..i + 1] == pops[..i] + [pops[i]];
        var rx := ues[i];
        if rx != null {
          PullOne(rx, pops[..i]);
        } else {
          FoldSnoc(pops[..i], Skipped);
        }
        i := i + 1;
      }
      assert pops[..|ues|] == pops;
      forall r | r in Live(ues)
        ensures r.Valid() && r.pending == old(r.pending)[droneId := 0.0]
      {
        var j :| 0 <= j < |ues| && ues[j] == r;
      }
    }

    /**
     * One scan of Update (after the interval gate): reset the agent's accumulators, pop this
     * drone's bucket from every non-null receiver, and report the sum and the maximum once.
     */
    method Scan(ues: seq<RadioReceiver?>)
      requires agent.Valid()
      requires forall i, j :: 0 <= i < j < |ues| && ues[i] != null ==> ues[i] != ues[j]
      requires forall r :: r in Live(ues) ==> r.Valid()
      modifies this`linkableCount, this`maxOverlapThisFrame, this`sumQoEThisFrame
      modifies agent`qoeNumeratorThisStep, agent`overconnectThisStep
      modifies Live(ues)`pending
      ensures agent.Valid()
      ensures linkableCount == LinkableCount(old(PopsOf(ues, droneId)))
      ensures sumQoEThisFrame == PositiveSum(old(PopsOf(ues, droneId)))
      ensures maxOverlapThisFrame == MaxOverlap(old(PopsOf(ues, droneId)))
      ensures agent.qoeNumeratorThisStep == sumQoEThisFrame
      ensures agent.overconnectThisStep == maxOverlapThisFrame
      ensures forall r :: r in Live(ues) ==> r.Valid() && r.pending == old(r.pending)[droneId := 0.0]
    {
      agent.BeginStepAggregation();
      linkableCount := 0;
      maxOverlapThisFrame := 0;
      sumQoEThisFrame := 0.0;
      PullAll(ues);
      agent.ReportQoEAndOverlap(sumQoEThisFrame, maxOverlapThisFrame);
    }
  }
}
