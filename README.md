# Drone-fleet radio coverage: link adaptation, aggregation and reward, in Dafny

This project models the discrete path that turns a simulated SINR into per-drone reward inputs in
a Unity simulation of aerial base stations (drones) serving ground demand points (UEs):

- **Link adaptation** (`link_adaptation.dfy`, module `LinkAdaptation`): SINR (dB) to CQI by a
  descending search over a strictly increasing 16-entry threshold table, CQI to (Qm, iTBS) by a
  32-entry table, iTBS to transport-block bits for 50 PRBs by a 27-entry table, throughput
  `bits x 1000` bps, and the QoE utility `ln(max(1e-6, 237 A_Mbps - 216.6))`. This follows, in simplified
  form, the CQI/MCS/TBS scheme of 3GPP TS 36.213 (CQI table 7.2.3-1, MCS table 7.1.7.1-1,
  TBS table 7.1.7.2.1-1, column N_PRB = 50).
- **Receiver aggregation** (`radio_receiver.dfy`, class `Receiver.RadioReceiver`): a map from
  transmitter id to accumulated demand-weighted QoE and a set of connected transmitter ids.
  `AcceptSinrFromModel` connects and accumulates at or above the threshold.
  `PopQoeAndOverlapFor` hands out a bucket once, writes 0 back and reports the overlap
  `|connected| - 1`.
- **Reward accumulator** (`drone_agent.dfy`, class `Agent.DroneAgent`): the per-step numerator
  and overconnect, the episode denominator `max(1, total Building demand)`, and the three reward
  terms `clamp01(num / max(eps, denom))`, `1 / (1 + overconnect)` and `1 / (1 + mu)`, multiplied
  into the step reward.
- **Pull loop** (`comms_sensor.dfy`, class `Sensor.CommsSensor`): one scan pops this drone's
  bucket from every non-null receiver. It counts the positive values, sums them, keeps the largest
  overlap and reports once to the agent.
- **SINR matrix** (`radio_link_model.dfy`, module `LinkModel`): the link budget of every pair, and
  the SINR of every pair `signal / (noise + sum of the other transmitters' power)` on 2D arrays.
- **Legacy broadcast radio** (`radio_transceiver.dfy`, module `Transceiver`): a registry of enabled
  transceivers, the same-channel neighbour filter, and the packet counters of broadcast and
  unicast delivery.
- `demand.dfy` (module `Demand`) holds the demand-area value (`kind`, `demand`) and the integer
  and real `max` used throughout.

Floats are modelled as mathematical reals and C# `int` counters as unbounded integers.
Inputs that the code takes from the engine or from transcendental functions become parameters:

- the natural logarithm of the QoE utility is the receiver's `ln`;
- the antenna gain pattern is `gain`;
- the link model's RSSI estimate is `rssi`;
- the drone's power draw and `Time.deltaTime` are `power` and `dt`;
- the receiver list of a scan is `ues`;
- the instance ids given by the engine are `instanceId`.

Behaviour of the code that the model keeps as written:

- Nothing calls `ResetAggregation`, so a receiver's connected set persists across scans. The
  overlap a transmitter sees therefore counts every transmitter that has ever connected there
  since the last reset, not only those of the current tick.
- A pop writes 0 into the bucket rather than removing the key, despite the comment in
  `CommsSensor.cs` that the pop removes it.
- The step reward is the product `qoe x cov x ene` and nothing else; overconnect enters only
  through `cov`. The energy term is `1 / (1 + max(0, P) · max(dt, 1e-3))`.
- SINR 8.6 dB gives exactly CQI 9.
- The code has no battery state or drain (the `batteryVolt`/`battery_mAh` display constants are
  never read), no elimination state and no forced disconnect, so the model has none.

## Model

| member | source | states |
|---|---|---|
| LinkAdaptation.CqiSearch | Assets/Assets/script/RadioReceiver.cs:73-75 | the descending search from index hi finds an index whose threshold is reached, and no higher index up to hi is reached |
| LinkAdaptation.CqiOf | Assets/Assets/script/RadioReceiver.cs:33-38 | CQI is in 0..15; it is 0 exactly when no threshold 1..15 is reached; otherwise SINR reaches threshold CQI and stays below every higher threshold |
| LinkAdaptation.ThresholdsIncreasing | Assets/Assets/script/RadioReceiver.cs:33-38 | the finite thresholds 1..15 are strictly increasing |
| LinkAdaptation.CqiMonotone | Assets/Assets/script/RadioReceiver.cs:73-75 | a higher SINR never gives a lower CQI |
| LinkAdaptation.CqiInterval | Assets/Assets/script/RadioReceiver.cs:33-38 | CQI is c in 1..15 if and only if threshold c <= SINR < threshold c+1 (no upper bound for 15) |
| LinkAdaptation.QmItbsEntry | Assets/Assets/script/RadioReceiver.cs:40-47 | for CQI 1..9 the entry is (2, c), for 10..15 it is (4, c-1), and the iTBS has a positive TBS entry |
| LinkAdaptation.ItbsInRangeAndMonotone | Assets/Assets/script/RadioReceiver.cs:40-47 | for every CQI 1..15, 0 <= iTBS <= 14 < 27 and iTBS never decreases with CQI, so the out-of-range branch never fires |
| LinkAdaptation.TbsIncreasing | Assets/Assets/script/RadioReceiver.cs:51-56 | the TBS table is positive and strictly increasing in iTBS |
| LinkAdaptation.Adapt | Assets/Assets/script/RadioReceiver.cs:77-93 | CQI 0 gives Qm 0, iTBS -1 and zero bits, throughput and QoE; otherwise Qm is 2 or 4, iTBS is in 0..14, bps = TBS[iTBS] x 1000, Mbps = bps / 1e6 and QoE is the utility |
| LinkAdaptation.BelowLowestThresholdNoTransmission | Assets/Assets/script/RadioReceiver.cs:77-80 | below the lowest finite threshold every derived quantity is the no-transmission value |
| LinkAdaptation.ThroughputMonotone | Assets/Assets/script/RadioReceiver.cs:83-91 | throughput never decreases as SINR increases; with a monotone logarithm QoE does not decrease once the lower SINR transmits, and for every pair of SINRs when moreover ln(1) = 0 |
| LinkAdaptation.QoeFloorNeverApplies | Assets/Assets/script/RadioReceiver.cs:91 | for every CQI >= 1 the log argument is at least 210, so the 1e-6 floor never applies |
| LinkAdaptation.WorkedExampleSinr86 | Assets/Assets/script/TestSINRInject.cs:10 | SINR 8.6 dB gives CQI 9, (Qm, iTBS) = (2, 9), 7992000 bps, 7.992 Mbps |
| Demand.BuildingWeight | Assets/Assets/script/RadioReceiver.cs:103 | a Building weighs max(0, demand) and a Road weighs 0 |
| Receiver.AreaWeight | Assets/Assets/script/RadioReceiver.cs:103 | a receiver without a demand area weighs 0, otherwise its area's Building weight |
| Receiver.WeightedQoe | Assets/Assets/script/RadioReceiver.cs:104 | the added value is max(0, QoE x weight): non-negative, and 0 when the weight is 0 or the QoE is not positive |
| Receiver.Overlap | Assets/Assets/script/RadioReceiver.cs:125-128 | a connected transmitter sees the other connected transmitters, |connected| - 1 (the clamp never fires); an unconnected one sees 0 |
| Receiver.RadioReceiver.constructor | Assets/Assets/script/RadioReceiver.cs:62-66 | starts with empty buckets and connected set, no packets and the no-transmission Last* values; a node id of 0 becomes the instance id |
| Receiver.RadioReceiver.Contribution | Assets/Assets/script/RadioReceiver.cs:103-104 | one accepted sample adds exactly max(0, QoE x area weight) of its link adaptation: non-negative, 0 when the area weighs nothing or the CQI is 0 |
| Receiver.RadioReceiver.AcceptSinrFromModel | Assets/Assets/script/RadioReceiver.cs:70-115 | the Last* fields always record the link adaptation; at or above the threshold the source joins the connected set, its bucket grows by its contribution and exactly one packet is counted; below it, buckets, connected set and packet count are unchanged |
| Receiver.RadioReceiver.PopQoeAndOverlapFor | Assets/Assets/script/RadioReceiver.cs:120-129 | returns the stored value (0 if absent, never negative), writes 0 back, reports Overlap of the connected set, and changes nothing else |
| Receiver.RadioReceiver.ResetAggregation | Assets/Assets/script/RadioReceiver.cs:132-136 | empties both the buckets and the connected set |
| Receiver.AcceptGrowsOnlyItsBucket | Assets/Assets/script/RadioReceiver.cs:106-109 | accumulation never lowers the source's bucket and leaves every other id's bucket as it was |
| Receiver.PopTwice | Assets/Assets/script/RadioReceiver.cs:122-123 | a second pop straight after the first returns 0 and the same overlap |
| Receiver.ResetThenPop | Assets/Assets/script/RadioReceiver.cs:132-135 | after a reset every pop returns (0, 0) |
| Receiver.GreenScenario | Assets/Assets/script/TestGreen.cs:5-6 | with the 0 dB threshold an injection at -5 dB does not connect and one at +5 dB does; the lone transmitter then sees overlap 0 |
| Receiver.TwoTransmittersOverlap | Assets/Assets/script/RadioReceiver.cs:125-126 | two transmitters connected to one receiver each see overlap 1 |
| Agent.Clamp01 | Assets/Assets/script/DroneAgent.cs:211 | the result is x inside [0, 1] and the nearer bound outside it |
| Agent.QoeReward | Assets/Assets/script/DroneAgent.cs:208-212 | the QoE reward lies in [0, 1]; it is 0 exactly when the numerator is not positive, 1 exactly when it reaches the denominator, and otherwise the numerator's share of the denominator |
| Agent.CoverageReward | Assets/Assets/script/DroneAgent.cs:215-218 | lies in (0, 1], equals 1 exactly when overconnect <= 0, and times (1 + overconnect) is 1 |
| Agent.EnergyCost | Assets/Assets/script/DroneAgent.cs:227 | mu is non-negative for every power and is 0 exactly when the power is not positive |
| Agent.EnergyReward | Assets/Assets/script/DroneAgent.cs:221-230 | lies in (0, 1] for every power P and equals 1 exactly when P <= 0 |
| Agent.ProductInUnitInterval | Assets/Assets/script/DroneAgent.cs:166 | a product of a [0, 1] term and two (0, 1] terms lies in [0, 1], is 0 exactly when the first is, and is 1 exactly when all are |
| Agent.StepReward | Assets/Assets/script/DroneAgent.cs:162-166 | the step reward lies in [0, 1], is 0 exactly when nothing was served, and is 1 exactly when the whole demand was served with no overconnect and no power |
| Agent.TotalBuildingDemand | Assets/Assets/script/DroneAgent.cs:126-129 | the summed Building demand is non-negative and 0 when every area is a Road |
| Agent.BuildingWeightBelowTotal | Assets/Assets/script/DroneAgent.cs:126-129 | no single area's weight exceeds the total |
| Agent.EpisodeDenominator | Assets/Assets/script/DroneAgent.cs:131 | the denominator is at least 1, at least the total, and equals the total once that is at least 1 |
| Agent.DroneAgent.constructor | Assets/Assets/script/DroneAgent.cs:32-39 | both accumulators 0, denominator 1, eps 1e-6 |
| Agent.DroneAgent.BeginStepAggregation | Assets/Assets/script/DroneAgent.cs:42-46 | both accumulators become 0 |
| Agent.DroneAgent.ReportQoEAndOverlap | Assets/Assets/script/DroneAgent.cs:53-57 | the numerator grows by max(0, x), the overconnect becomes max(old, max(0, ov)); neither decreases |
| Agent.DroneAgent.OnEpisodeBegin | Assets/Assets/script/DroneAgent.cs:125-135 | the loop sets the denominator to max(1, total Building demand) and both accumulators to 0 |
| Agent.DroneAgent.OnActionReceived | Assets/Assets/script/DroneAgent.cs:161-170 | adds the step reward (in [0, 1]) of the accumulated values to the cumulative reward, then zeroes both accumulators |
| Sensor.SampleOf | Assets/Assets/script/CommsSensor.cs:55-57 | a null slot is skipped, a live one yields exactly the pair its pop would return |
| Sensor.LinkableCount | Assets/Assets/script/CommsSensor.cs:59-63 | the number of positive popped values, at most the number of slots |
| Sensor.PositiveSum | Assets/Assets/script/CommsSensor.cs:59-61 | the sum of the positive popped values only, so never negative |
| Sensor.MaxOverlap | Assets/Assets/script/CommsSensor.cs:48-64 | the running maximum of the popped overlaps, starting at 0, is never negative |
| Sensor.PositiveSumIffLinkable | Assets/Assets/script/CommsSensor.cs:59-63 | the sum is positive if and only if at least one receiver is counted |
| Sensor.MaxOverlapIsMaximum | Assets/Assets/script/CommsSensor.cs:64 | the maximum bounds every popped overlap and, unless 0, is one of them |
| Sensor.PositiveValueBelowSum | Assets/Assets/script/CommsSensor.cs:59-61 | every positive popped value is at most the sum |
| Sensor.CommsSensor.constructor | Assets/Assets/script/CommsSensor.cs:14-16 | the scan fields start at 0 |
| Sensor.CommsSensor.PullOne | Assets/Assets/script/CommsSensor.cs:57-64 | one pop of a live receiver extends the three folds by its sample and zeroes its bucket for this drone |
| Sensor.CommsSensor.PullAll | Assets/Assets/script/CommsSensor.cs:52-65 | after the loop the three fields are the folds of the samples taken before it, and every live receiver's bucket for this drone is 0 with all others unchanged |
| Sensor.CommsSensor.Scan | Assets/Assets/script/CommsSensor.cs:45-73 | the agent is reset, every live receiver is popped once for this drone, and the agent ends holding exactly the scan's sum and maximum overlap |
| LinkModel.GetAllRxPowers | Assets/Assets/script/RadioLinkModel.cs:124-142 | a fresh matrix with the dimensions of the angle matrix whose every entry is G(angle) + Ptx - PL + Grx |
| LinkModel.SumInterference | Assets/Assets/script/RadioLinkModel.cs:171-176 | the inner loop sums rx[k, l] over every k other than the serving i |
| LinkModel.InterferenceExcludesServing | Assets/Assets/script/RadioLinkModel.cs:171-176 | interference equals the receiver's total power minus the serving transmitter's own |
| LinkModel.InterferenceNonNegative | Assets/Assets/script/RadioLinkModel.cs:170-177 | with non-negative powers the interference is non-negative |
| LinkModel.SingleTransmitterNoInterference | Assets/Assets/script/RadioLinkModel.cs:171-176 | with one transmitter the interference is 0 |
| LinkModel.Sinr | Assets/Assets/script/RadioLinkModel.cs:170-177 | with non-negative powers and positive noise the SINR is non-negative and times (noise + total - signal) gives the signal |
| LinkModel.SingleTransmitterSinr | Assets/Assets/script/RadioLinkModel.cs:177 | with one transmitter the SINR is signal / noise |
| LinkModel.GetAllSinr | Assets/Assets/script/RadioLinkModel.cs:160-181 | a fresh matrix of the input's tx x rx shape whose every entry is the pair's SINR |
| Transceiver.Registry.constructor | Assets/Assets/script/RadioTransceiver.cs:11 | the registry starts empty |
| Transceiver.RadioTransceiver.constructor | Assets/Assets/script/RadioTransceiver.cs:15-27 | the inspector defaults: drone role, channel 1, 10 dBm, -85 dBm sensitivity, no packets |
| Transceiver.RadioTransceiver.OnEnable | Assets/Assets/script/RadioTransceiver.cs:33-38 | adds the node to the registry (set semantics), replaces a node id of 0 and keeps or finds the link model |
| Transceiver.RadioTransceiver.OnDisable | Assets/Assets/script/RadioTransceiver.cs:39 | removes the node from the registry |
| Transceiver.EnableThenDisable | Assets/Assets/script/RadioTransceiver.cs:35-39 | enabling then disabling a node that was not registered leaves the registry as it was |
| Transceiver.RadioTransceiver.NeighborsSameChannel | Assets/Assets/script/RadioTransceiver.cs:52-56 | the filtering loop over the registry yields exactly the neighbour set: the registered nodes other than this one on its channel |
| Transceiver.NoLinkModelReachesOnlyDeafThreshold | Assets/Assets/script/RadioTransceiver.cs:41-43 | without a link model a packet reaches a node exactly when that node's sensitivity is at or below -999 dBm, whatever the target |
| Transceiver.BroadcastWithoutLinkModel | Assets/Assets/script/RadioTransceiver.cs:59-72 | a broadcast without a link model still counts one send, but no registered node with a sensitivity above -999 dBm counts a receive |
| Transceiver.NeighbourSymmetric | Assets/Assets/script/RadioTransceiver.cs:52-56 | among registered nodes, a is b's neighbour if and only if b is a's |
| Transceiver.RadioTransceiver.SendBroadcast | Assets/Assets/script/RadioTransceiver.cs:59-72 | one packet sent; a neighbour gains one receive if and only if its RSSI reaches its sensitivity; non-neighbours are unchanged |
| Transceiver.RadioTransceiver.SendUnicast | Assets/Assets/script/RadioTransceiver.cs:81-94 | one packet sent; only neighbours with id dstNodeId can gain a receive, exactly when reached; everyone else is unchanged |

## Left out

- Flight energy physics (`PowerHoverW`, `PowerForwardW`, the hover/forward choice): floating-point `Pow`/`Sqrt` numerics; the power reaches the model as the input `power` of `OnActionReceived`.
- Path loss, distances and angles, the antenna gain formula and dBm to mW conversion (`GetAllDistancesAndAngles`, `GetAllHataLosses`, `GetAntennaGainDbi`, `GetAllTxAntennaGains`, `ConvertRxPowersToMw`): transcendental functions; path losses and angles are inputs and the gain pattern is the parameter `gain`.
- The natural logarithm of the QoE utility: supplied as the receiver's `ln`.
- Floating-point rounding, NaN and infinities: all floats are reals. In particular a zero SINR divisor (which floats would turn into an infinity) is excluded by `GetAllSinr` requiring positive noise and non-negative powers, which the mW conversion always provides.
- Integer overflow of the packet counters and of the demand sum: counters are unbounded.
- LinkAdaptation.TbsIncreasing: the TBS table is an inspector-editable per-receiver array in the source; the model fixes it at its coded default, so TbsIncreasing, ItbsInRangeAndMonotone, QoeFloorNeverApplies and the claim that the out-of-range iTBS branch never fires hold for that default only (the branch itself, with the `max(0, …)` of a table entry, is kept in `Adapt`).
- LinkModel.GetAllRxPowers: requires the path-loss matrix to be at least as large as the angle matrix; with a smaller one the source throws an index-out-of-range exception, which is not modelled.
- LinkModel.GetAllRxPowers: the static `Ptx_dBm` (39 dBm by default) and `Grx_dBi` (3 dBi by default), which other code may reassign, are the parameters `ptxDbm` and `grxDbi`.
- The scan and update interval timers (`scanInterval`, `Time.deltaTime` gating) and `CacheUEs` scene discovery: the receiver list of a scan is the parameter `ues`, with each live receiver appearing once.
- The `OnReceive` events of receiver and transceiver: they have no effect on the modelled state.
- The random pose reset of `OnEpisodeBegin`, `CollectObservations`, `Heuristic`, the movement commands of `OnActionReceived` and the keyboard-driven `Update` without the trainer (which computes a reward it discards and zeroes the accumulators): engine and trainer glue.
- Agent.DroneAgent.OnActionReceived: the trainer's `AddReward` is modelled as a `cumulativeReward` field that it increases.
- Transceiver.RadioTransceiver.EstimateRssiTo: the link model's estimate from positions and transmit power is the opaque parameter `rssi`; `dataRateMbps` and the payload are not modelled.
- The delivery order of `SendBroadcast`/`SendUnicast` over the hash set: the model iterates the neighbour set in an arbitrary order, which the counters do not depend on.
- Sensor.CommsSensor.Scan: the order "reset the agent, then pop, then report once" is the method's body; its contract states the end state, not the order of calls.
