/**
 * The legacy broadcast radio: a registry of enabled transceivers (an explicit object standing
 * for the static HashSet), the same-channel neighbour filter and the packet counters of
 * broadcast and unicast delivery. The RSSI estimate of the link model is an input.
 */
module Transceiver {

  datatype NodeRole = Drone | UE

  /** The RSSI the link model returns when it or the target is missing. */
  const MissingRssiDbm: real := -999.0

  /** The set of enabled transceivers. */
  class Registry {
    var all: set<RadioTransceiver>

    constructor ()
      ensures all == {}
    {
      all := {};
    }
  }

  class RadioTransceiver {
    var role: NodeRole
    var nodeId: int
    var channel: int
    var txPowerDbm: real
    var rxSensitivityDbm: real
    var sentPackets: int
    var recvPackets: int
    /** Whether a link model has been found in the scene. */
    var hasLinkModel: bool

    /** The inspector defaults: a drone on channel 1, 10 dBm out, -85 dBm sensitivity. */
    constructor (nodeId: int)
      ensures this.nodeId == nodeId && role == Drone && channel == 1
      ensures txPowerDbm == 10.0 && rxSensitivityDbm == -85.0
      ensures sentPackets == 0 && recvPackets == 0 && !hasLinkModel
    {
      this.nodeId := nodeId;
      role := Drone;
      channel := 1;
      txPowerDbm := 10.0;
      rxSensitivityDbm := -85.0;
      sentPackets := 0;
      recvPackets := 0;
      hasLinkModel := false;
    }

    /** OnEnable: register, replace a node id of 0 by the instance id, look for the link model. */
    method OnEnable(reg: Registry, instanceId: int, sceneHasLinkModel: bool)
      modifies reg`all, this`nodeId, this`hasLinkModel
      ensures reg.all == old(reg.all) + {this}
      ensures nodeId == if old(nodeId) == 0 then instanceId else old(nodeId)
      ensures hasLinkModel == (old(hasLinkModel) || sceneHasLinkModel)
    {
      reg.all := reg.all + {this};
      if nodeId == 0 {
        nodeId := instanceId;
      }
      if !hasLinkModel {
        hasLinkModel := sceneHasLinkModel;
      }
    }

    /** OnDisable: unregister. */
    method OnDisable(reg: Registry)
      modifies reg`all
      ensures reg.all == old(reg.all) - {this}
    {
      reg.all := reg.all - {this};
    }

    /** EstimateRssiTo: -999 when the link model or the target is missing, else the model's estimate. */
    function EstimateRssiTo(other: RadioTransceiver?, rssi: (RadioTransceiver, RadioTransceiver) -> real): (r: real)
      reads this
      ensures !hasLinkModel || other == null ==> r == MissingRssiDbm
      ensures hasLinkModel && other != null ==> r == rssi(this, other)
    {
      if !hasLinkModel || other == null then MissingRssiDbm else rssi(this, other)
    }

    /** Whether a packet from this node reaches n: its RSSI at n is at least n's sensitivity. */
    predicate Reaches(n: RadioTransceiver, rssi: (RadioTransceiver, RadioTransceiver) -> real)
      reads this, n
    {
      EstimateRssiTo(n, rssi) >= n.rxSensitivityDbm
    }

    /** The same-channel neighbours: every registered node other than this one on the same channel. */
    ghost function Neighbours(reg: Registry): set<RadioTransceiver>
      reads this, reg, reg.all
    {
      set n | n in reg.all && n != this && n.channel == channel
    }

    /** NeighborsSameChannel: the filtering loop over the registry, collected into a set. */
    method NeighborsSameChannel(reg: Registry) returns (ns: set<RadioTransceiver>)
      ensures ns == Neighbours(reg)
    {
      ns := {};
      var todo := reg.all;
      while todo != {}
        invariant todo <= reg.all
        invariant forall n :: n in ns <==> n in reg.all && n !in todo && n != this && n.channel == channel
        decreases todo
      {
        var n :| n in todo;
        if n != this && n.channel == channel {
          ns := ns + {n};
        }
        todo := todo - {n};
      }
    }

    /**
     * SendBroadcast: one packet sent; each same-channel neighbour counts one receive exactly
     * when the packet reaches it. The receive event has no effect on the core.
     */
    method SendBroadcast(reg: Registry, rssi: (RadioTransceiver, RadioTransceiver) -> real)
      modifies this`sentPackets, reg.all`recvPackets
      ensures sentPackets == old(sentPackets) + 1
      ensures forall n :: n in old(Neighbours(reg)) ==>
                n.recvPackets == old(n.recvPackets) + (if old(Reaches(n, rssi)) then 1 else 0)
      ensures forall n :: n in reg.all && n !in old(Neighbours(reg)) ==> n.recvPackets == old(n.recvPackets)
    {
      sentPackets := sentPackets + 1;
      var todo := NeighborsSameChannel(reg);
      ghost var neighbours := todo;
      while todo != {}
        invariant todo <= neighbours && sentPackets == old(sentPackets) + 1
        invariant forall n :: n in neighbours - todo ==>
                    n.recvPackets == old(n.recvPackets) + (if old(Reaches(n, rssi)) then 1 else 0)
        invariant forall n :: n in reg.all && (n in todo || n !in neighbours) ==> n.recvPackets == old(n.recvPackets)
        decreases todo
      {
        var rx :| rx in todo;
        var r := EstimateRssiTo(rx, rssi);
        if r >= rx.rxSensitivityDbm {
          rx.recvPackets := rx.recvPackets + 1;
        }
        todo := todo - {rx};
      }
    }

    /**
     * SendUnicast: one packet sent; only same-channel neighbours whose id is dstNodeId can
     * count a receive, and they do exactly when the packet reaches them.
     */
    method SendUnicast(reg: Registry, dstNodeId: int, rssi: (RadioTransceiver, RadioTransceiver) -> real)
      modifies this`sentPackets, reg.all`recvPackets
      ensures sentPackets == old(sentPackets) + 1
      ensures forall n :: n in old(Neighbours(reg)) ==>
                n.recvPackets == old(n.recvPackets) + (if n.nodeId == dstNodeId && old(Reaches(n, rssi)) then 1 else 0)
      ensures forall n :: n in reg.all && n !in old(Neighbours(reg)) ==> n.recvPackets == old(n.recvPackets)
    {
      sentPackets := sentPackets + 1;
      var todo := NeighborsSameChannel(reg);
      ghost var neighbours := todo;
      while todo != {}
        invariant todo <= neighbours && sentPackets == old(sentPackets) + 1
        invariant forall n :: n in neighbours - todo ==>
                    n.recvPackets == old(n.recvPackets) + (if n.nodeId == dstNodeId && old(Reaches(n, rssi)) then 1 else 0)
        invariant forall n :: n in reg.all && (n in todo || n !in neighbours) ==> n.recvPackets == old(n.recvPackets)
        decreases todo
      {
        var rx :| rx in todo;
        if rx.nodeId == dstNodeId {
          var r := EstimateRssiTo(rx, rssi);
          if r >= rx.rxSensitivityDbm {
            rx.recvPackets := rx.recvPackets + 1;
          }
        }
        todo := todo - {rx};
      }
    }
  }

  /** Being a same-channel neighbour is symmetric among registered nodes. */
  lemma NeighbourSymmetric(reg: Registry, a: RadioTransceiver, b: RadioTransceiver)
    requires a in reg.all && b in reg.all
    ensures b in a.Neighbours(reg) <==> a in b.Neighbours(reg)
  {
  }

  /**
   * Without a link model every estimate is -999 dBm, so a packet reaches only a node whose
   * sensitivity is at or below -999 dBm, whoever the target.
   */
  lemma NoLinkModelReachesOnlyDeafThreshold(t: RadioTransceiver, n: RadioTransceiver,
                                            rssi: (RadioTransceiver, RadioTransceiver) -> real)
    requires !t.hasLinkModel
    ensures t.Reaches(n, rssi) <==> n.rxSensitivityDbm <= MissingRssiDbm
  {
  }

  /** A broadcast without a link model counts no receive at a neighbour of ordinary (above -999 dBm) sensitivity. */
  method BroadcastWithoutLinkModel(t: RadioTransceiver, reg: Registry, rssi: (RadioTransceiver, RadioTransceiver) -> real)
    requires !t.hasLinkModel
    modifies t`sentPackets, reg.all`recvPackets
    ensures t.sentPackets == old(t.sentPackets) + 1
    ensures forall n :: n in reg.all && old(n.rxSensitivityDbm) > MissingRssiDbm ==> n.recvPackets == old(n.recvPackets)
  {
    t.SendBroadcast(reg, rssi);
  }

  /** Enabling then disabling a node that was not registered leaves the registry as it was. */
  method EnableThenDisable(reg: Registry, t: RadioTransceiver, instanceId: int, found: bool)
    requires t !in reg.all
    modifies reg`all, t`nodeId, t`hasLinkModel
    ensures reg.all == old(reg.all)
  {
    t.OnEnable(reg, instanceId, found);
    t.OnDisable(reg);
  }
}
