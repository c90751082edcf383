/** The broker topology the engine's health probe returns, and the health
    check both transaction-bound dispatchers run before a commit. */
module EngineTopology {

  datatype PartitionBrokerHealth = HEALTHY | UNHEALTHY | DEAD

  datatype PartitionInfo = PartitionInfo(partitionId: nat, health: PartitionBrokerHealth)
  datatype BrokerInfo = BrokerInfo(nodeId: nat, partitions: seq<PartitionInfo>)
  datatype Topology = Topology(brokers: seq<BrokerInfo>)

  /** `partitions.any { it.health == HEALTHY }`. */
  function AnyPartitionHealthy(ps: seq<PartitionInfo>): (r: bool)
    ensures r <==> exists j :: 0 <= j < |ps| && ps[j].health == HEALTHY
    decreases |ps|
  {
    if ps == [] then false
    else ps[0].health == HEALTHY || (assert forall j :: 0 < j < |ps| ==> ps[j] == ps[1..][j - 1]; AnyPartitionHealthy(ps[1..]))
  }

  /** `brokerIsHealthy`. */
  function BrokerIsHealthy(b: BrokerInfo): (r: bool)
    ensures r <==> exists j :: 0 <= j < |b.partitions| && b.partitions[j].health == HEALTHY
  {
    AnyPartitionHealthy(b.partitions)
  }

  /** `brokers.any { brokerIsHealthy(it) }`. */
  function AnyBrokerHealthy(bs: seq<BrokerInfo>): (r: bool)
    ensures r <==> exists i :: 0 <= i < |bs| && BrokerIsHealthy(bs[i])
    decreases |bs|
  {
    if bs == [] then false
    else BrokerIsHealthy(bs[0]) || (assert forall i :: 0 < i < |bs| ==> bs[i] == bs[1..][i - 1]; AnyBrokerHealthy(bs[1..]))
  }

  /** `checkBrokerHealth`: the engine counts as healthy exactly when some
      broker reports some partition HEALTHY. */
  function CheckBrokerHealth(t: Topology): (r: bool)
    ensures r <==> exists i, j :: 0 <= i < |t.brokers| && 0 <= j < |t.brokers[i].partitions| &&
                                  t.brokers[i].partitions[j].health == HEALTHY
  {
    AnyBrokerHealthy(t.brokers)
  }
}
