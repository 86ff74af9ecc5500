/**
 * The GKE scheduler (functions/gke/index.js): list clusters by zone or in
 * all locations, and for every node pool of every cluster set autoscaling
 * and then the node count (1 to start, 0 to stop), waiting for each
 * cluster operation to finish before the next call.
 */
module Gke {
  import opened Common
  import opened Operations
  import opened Payload

  datatype NodePool = NodePool(name: string)

  datatype Cluster = Cluster(name: string, location: string, nodePools: seq<NodePool>)

  /** The fixed pause of `sleep(5000)` between two polls. */
  const PollInterval: nat := 5000

  /** The location wildcard of an all-locations listing. */
  const AllLocations: string := "-"

  /** The provider calls the function issues, as the client oracle records them. */
  datatype Call =
    | ListClusters(parent: string)
    | SetNodePoolAutoscaling(name: string, enabled: bool)
    | SetNodePoolSize(name: string, nodeCount: nat)
    | Sleep(milliseconds: nat)
    | GetOperation(name: string)

  /** The calls that change a node pool. */
  predicate IsMutation(c: Call)
  {
    c.SetNodePoolAutoscaling? || c.SetNodePoolSize?
  }

  /**
   * The cluster manager client as an oracle: listings come from a fixed
   * inventory per parent path, every operation-returning call takes the
   * next record of `script`, and every call is appended to `trace`.
   */
  class Client {
    const inventory: map<string, seq<Cluster>>
    var script: seq<Operation>
    var trace: seq<Call>

    constructor (inventory: map<string, seq<Cluster>>, script: seq<Operation>)
      ensures this.inventory == inventory && this.script == script && trace == []
    {
      this.inventory := inventory;
      this.script := script;
      trace := [];
    }

    /** The `clusters` of a listing under `parent`. */
    function ClustersUnder(parent: string): (r: seq<Cluster>)
    {
      if parent in inventory then inventory[parent] else []
    }

    /** The per-zone listings, in zone order. */
    function ZoneLists(project: string, zones: seq<string>): (r: seq<seq<Cluster>>)
    {
      seq(|zones|, i requires 0 <= i < |zones| => ClustersUnder(Parent(project, zones[i])))
    }

    /** `clusterClient.listClusters({ parent })`. */
    method ListClusters(parent: string) returns (r: seq<Cluster>)
      modifies this`trace
      ensures trace == old(trace) + [Call.ListClusters(parent)]
      ensures r == ClustersUnder(parent)
    {
      trace := trace + [Call.ListClusters(parent)];
      r := ClustersUnder(parent);
    }

    /** `clusterClient.setNodePoolAutoscaling({ name, autoscaling: { enabled } })`. */
    method SetNodePoolAutoscaling(name: string, enabled: bool) returns (op: Operation)
      modifies this
      ensures trace == old(trace) + [Call.SetNodePoolAutoscaling(name, enabled)]
      ensures op == Head(old(script)) && script == Tail(old(script))
    {
      trace := trace + [Call.SetNodePoolAutoscaling(name, enabled)];
      op := Head(script);
      script := Tail(script);
    }

    /** `clusterClient.setNodePoolSize({ name, nodeCount })`. */
    method SetNodePoolSize(name: string, nodeCount: nat) returns (op: Operation)
      modifies this
      ensures trace == old(trace) + [Call.SetNodePoolSize(name, nodeCount)]
      ensures op == Head(old(script)) && script == Tail(old(script))
    {
      trace := trace + [Call.SetNodePoolSize(name, nodeCount)];
      op := Head(script);
      script := Tail(script);
    }

    /** `sleep(milliseconds)`, an opaque pause. */
    method Sleep(milliseconds: nat)
      modifies this`trace
      ensures trace == old(trace) + [Call.Sleep(milliseconds)]
    {
      trace := trace + [Call.Sleep(milliseconds)];
    }

    /** `clusterClient.getOperation({ name })`. */
    method GetOperation(name: string) returns (op: Operation)
      modifies this
      ensures trace == old(trace) + [Call.GetOperation(name)]
      ensures op == Head(old(script)) && script == Tail(old(script))
    {
      trace := trace + [Call.GetOperation(name)];
      op := Head(script);
      script := Tail(script);
    }
  }

  // ---------------------------------------------------------------- names

  /** `projects/{project}/locations/{location}`. */
  function Parent(project: string, location: string): (r: string)
  {
    "projects/" + project + "/locations/" + location
  }

  /** `projects/{project}/locations/{location}/operations/{operation}`. */
  function OperationName(project: string, location: string, operation: string): (r: string)
  {
    Parent(project, location) + "/operations/" + operation
  }

  /** `projects/{p}/locations/{cluster.location}/clusters/{cluster.name}/nodePools/{pool.name}`. */
  function NodePoolName(project: string, cluster: Cluster, pool: NodePool): (r: string)
  {
    Parent(project, cluster.location) + "/clusters/" + cluster.name + "/nodePools/" + pool.name
  }

  /** The resource names end with the node pool's or the operation's own name. */
  lemma NamesEndWithResource(project: string, location: string, cluster: Cluster, pool: NodePool, operation: string)
    requires '/' !in pool.name && '/' !in operation
    ensures LastSegment(NodePoolName(project, cluster, pool)) == pool.name
    ensures LastSegment(OperationName(project, location, operation)) == operation
  {
    var poolPrefix := Parent(project, cluster.location) + "/clusters/" + cluster.name + "/nodePools";
    assert NodePoolName(project, cluster, pool) == poolPrefix + "/" + pool.name;
    LastSegmentOfPath(poolPrefix, pool.name);
    var opPrefix := Parent(project, location) + "/operations";
    assert OperationName(project, location, operation) == opPrefix + "/" + operation;
    LastSegmentOfPath(opPrefix, operation);
  }

  /**
   * Distinct node pools of a cluster are addressed by distinct resource
   * names, and so are distinct operations in one location.
   */
  lemma DistinctResourceNames(project: string, location: string, cluster: Cluster,
                              p: NodePool, q: NodePool, op1: string, op2: string)
    ensures p.name != q.name ==> NodePoolName(project, cluster, p) != NodePoolName(project, cluster, q)
    ensures op1 != op2 ==> OperationName(project, location, op1) != OperationName(project, location, op2)
  {
    var poolPrefix := Parent(project, cluster.location) + "/clusters/" + cluster.name + "/nodePools/";
    assert NodePoolName(project, cluster, p)[|poolPrefix|..] == p.name;
    assert NodePoolName(project, cluster, q)[|poolPrefix|..] == q.name;
    var opPrefix := Parent(project, location) + "/operations/";
    assert OperationName(project, location, op1)[|opPrefix|..] == op1;
    assert OperationName(project, location, op2)[|opPrefix|..] == op2;
  }

  // ---------------------------------------------------------------- polling

  /** One `sleep` and one `getOperation` per unfinished operation polled. */
  function WaitTrace(project: string, location: string, polled: seq<Operation>): (r: seq<Call>)
  {
    if polled == [] then []
    else [Sleep(PollInterval), GetOperation(OperationName(project, location, polled[0].name))]
         + WaitTrace(project, location, polled[1..])
  }

  /**
   * Each poll is a sleep followed by a fetch of the operation by its full
   * name; polling changes no node pool.
   */
  lemma {:induction false} WaitTraceShape(project: string, location: string, polled: seq<Operation>)
    ensures |WaitTrace(project, location, polled)| == 2 * |polled|
    ensures forall j :: 0 <= j < |polled| ==>
              && WaitTrace(project, location, polled)[2 * j] == Sleep(PollInterval)
              && WaitTrace(project, location, polled)[2 * j + 1]
                 == GetOperation(OperationName(project, location, polled[j].name))
    ensures Keep(WaitTrace(project, location, polled), IsMutation) == []
  {
    if polled != [] {
      var w := WaitTrace(project, location, polled);
      var head := [Sleep(PollInterval), GetOperation(OperationName(project, location, polled[0].name))];
      WaitTraceShape(project, location, polled[1..]);
      assert w == head + WaitTrace(project, location, polled[1..]);
      forall j | 0 < j < |polled|
        ensures w[2 * j] == Sleep(PollInterval)
        ensures w[2 * j + 1] == GetOperation(OperationName(project, location, polled[j].name))
      {
        assert polled[1..][j - 1] == polled[j];
        assert w[2 * j] == WaitTrace(project, location, polled[1..])[2 * (j - 1)];
        assert w[2 * j + 1] == WaitTrace(project, location, polled[1..])[2 * (j - 1) + 1];
      }
      KeepAppend(head, WaitTrace(project, location, polled[1..]), IsMutation);
      KeepAppend([head[0]], [head[1]], IsMutation);
      assert head == [head[0]] + [head[1]];
    }
  }

  /** `waitForOperation`: sleep, then fetch the operation by full name, until "DONE". */
  method WaitForOperation(client: Client, project: string, location: string, operation: Operation)
    modifies client
    ensures client.trace == old(client.trace) + WaitTrace(project, location, Polled(operation, old(client.script)))
    ensures client.script == Remaining(operation, old(client.script))
  {
    var op := operation;
    while op.status != Done
      invariant client.trace + WaitTrace(project, location, Polled(op, client.script))
                == old(client.trace) + WaitTrace(project, location, Polled(operation, old(client.script)))
      invariant Remaining(op, client.script) == Remaining(operation, old(client.script))
      decreases Measure(op, client.script)
    {
      ghost var before, s := client.trace, client.script;
      ghost var fetch := GetOperation(OperationName(project, location, op.name));
      WaitTraceStep(project, location, op, s);
      client.Sleep(PollInterval);
      op := client.GetOperation(OperationName(project, location, op.name));
      AppendAssoc(before, [Sleep(PollInterval)], [fetch], WaitTrace(project, location, Polled(op, client.script)));
      assert [Sleep(PollInterval)] + [fetch] == [Sleep(PollInterval), fetch];
    }
  }

  /** One poll of an unfinished operation adds a sleep and a fetch. */
  lemma WaitTraceStep(project: string, location: string, op: Operation, script: seq<Operation>)
    requires op.status != Done
    ensures WaitTrace(project, location, Polled(op, script))
            == [Sleep(PollInterval), GetOperation(OperationName(project, location, op.name))]
               + WaitTrace(project, location, Polled(Head(script), Tail(script)))
    ensures Remaining(op, script) == Remaining(Head(script), Tail(script))
  {
    var p := Polled(op, script);
    assert p == [op] + Polled(Head(script), Tail(script));
    assert p[1..] == Polled(Head(script), Tail(script));
  }

  // ---------------------------------------------------------------- resizing

  /** Provider calls and what is left of the script after some steps. */
  datatype Run = Run(trace: seq<Call>, rest: seq<Operation>)

  /**
   * The four steps of one node pool: set autoscaling (enabled exactly when
   * the target size is positive), wait for it, set the node count, wait
   * for that.
   */
  function PoolRun(project: string, cluster: Cluster, pool: NodePool, size: nat, script: seq<Operation>): (r: Run)
  {
    var name := NodePoolName(project, cluster, pool);
    var autoscaling := Head(script);
    var afterAutoscaling := Remaining(autoscaling, Tail(script));
    var resize := Head(afterAutoscaling);
    Run([SetNodePoolAutoscaling(name, size > 0)]
        + WaitTrace(project, cluster.location, Polled(autoscaling, Tail(script)))
        + [SetNodePoolSize(name, size)]
        + WaitTrace(project, cluster.location, Polled(resize, Tail(afterAutoscaling))),
        Remaining(resize, Tail(afterAutoscaling)))
  }

  /** The pools of a cluster, one after the other. */
  function PoolsRun(project: string, cluster: Cluster, pools: seq<NodePool>, size: nat, script: seq<Operation>): (r: Run)
    decreases |pools|
  {
    if pools == [] then Run([], script)
    else
      var first := PoolRun(project, cluster, pools[0], size, script);
      var tail := PoolsRun(project, cluster, pools[1..], size, first.rest);
      Run(first.trace + tail.trace, tail.rest)
  }

  /** The two node-pool changes per pool, in pool order. */
  function Mutations(project: string, cluster: Cluster, pools: seq<NodePool>, size: nat): (r: seq<Call>)
  {
    if pools == [] then []
    else [SetNodePoolAutoscaling(NodePoolName(project, cluster, pools[0]), size > 0),
          SetNodePoolSize(NodePoolName(project, cluster, pools[0]), size)]
         + Mutations(project, cluster, pools[1..], size)
  }

  /**
   * Pool j's autoscaling change is the 2j-th change and its resize the
   * (2j+1)-th: every pool gets both, autoscaling first.
   */
  lemma {:induction false} MutationsAt(project: string, cluster: Cluster, pools: seq<NodePool>, size: nat)
    ensures |Mutations(project, cluster, pools, size)| == 2 * |pools|
    ensures forall j :: 0 <= j < |pools| ==>
              && Mutations(project, cluster, pools, size)[2 * j]
                 == SetNodePoolAutoscaling(NodePoolName(project, cluster, pools[j]), size > 0)
              && Mutations(project, cluster, pools, size)[2 * j + 1]
                 == SetNodePoolSize(NodePoolName(project, cluster, pools[j]), size)
  {
    if pools != [] {
      var m := Mutations(project, cluster, pools, size);
      var rest := Mutations(project, cluster, pools[1..], size);
      MutationsAt(project, cluster, pools[1..], size);
      forall j | 0 < j < |pools|
        ensures m[2 * j] == SetNodePoolAutoscaling(NodePoolName(project, cluster, pools[j]), size > 0)
        ensures m[2 * j + 1] == SetNodePoolSize(NodePoolName(project, cluster, pools[j]), size)
      {
        assert pools[1..][j - 1] == pools[j];
        assert m[2 * j] == rest[2 * (j - 1)];
        assert m[2 * j + 1] == rest[2 * (j - 1) + 1];
      }
    }
  }

  /** A pool's four steps change it exactly twice: autoscaling, then size. */
  lemma PoolMutations(project: string, cluster: Cluster, pool: NodePool, size: nat, script: seq<Operation>)
    ensures Keep(PoolRun(project, cluster, pool, size, script).trace, IsMutation)
            == Mutations(project, cluster, [pool], size)
  {
    var name := NodePoolName(project, cluster, pool);
    var autoscaling := Head(script);
    var afterAutoscaling := Remaining(autoscaling, Tail(script));
    var resize := Head(afterAutoscaling);
    var a := [SetNodePoolAutoscaling(name, size > 0)];
    var w1 := WaitTrace(project, cluster.location, Polled(autoscaling, Tail(script)));
    var b := [SetNodePoolSize(name, size)];
    var w2 := WaitTrace(project, cluster.location, Polled(resize, Tail(afterAutoscaling)));
    WaitTraceShape(project, cluster.location, Polled(autoscaling, Tail(script)));
    WaitTraceShape(project, cluster.location, Polled(resize, Tail(afterAutoscaling)));
    KeepAppend(a + w1 + b, w2, IsMutation);
    KeepAppend(a + w1, b, IsMutation);
    KeepAppend(a, w1, IsMutation);
    assert a[1..] == [] && b[1..] == [];
    assert Mutations(project, cluster, [pool], size) == a + b + Mutations(project, cluster, [pool][1..], size);
  }

  /**
   * Across the pools of a cluster the changes are, in pool order,
   * autoscaling then size for each pool; nothing else changes a pool.
   */
  lemma {:induction false} PoolsMutations(project: string, cluster: Cluster, pools: seq<NodePool>, size: nat, script: seq<Operation>)
    ensures Keep(PoolsRun(project, cluster, pools, size, script).trace, IsMutation)
            == Mutations(project, cluster, pools, size)
    decreases |pools|
  {
    if pools != [] {
      var first := PoolRun(project, cluster, pools[0], size, script);
      PoolMutations(project, cluster, pools[0], size, script);
      PoolsMutations(project, cluster, pools[1..], size, first.rest);
      KeepAppend(first.trace, PoolsRun(project, cluster, pools[1..], size, first.rest).trace, IsMutation);
      assert Mutations(project, cluster, [pools[0]], size)
             == [SetNodePoolAutoscaling(NodePoolName(project, cluster, pools[0]), size > 0),
                 SetNodePoolSize(NodePoolName(project, cluster, pools[0]), size)];
    }
  }

  /**
   * Within a pool's steps the resize call comes right after the polls of
   * the autoscaling operation, and those polls stop at its first "DONE":
   * a resize is never issued before the autoscaling change has finished.
   */
  lemma ResizeAfterAutoscalingDone(project: string, cluster: Cluster, pool: NodePool, size: nat, script: seq<Operation>)
    ensures var autoscaling := Head(script);
            var seen := [autoscaling] + Tail(script) + [Completed];
            var polled := Polled(autoscaling, Tail(script));
            var k := |polled|;
            var t := PoolRun(project, cluster, pool, size, script).trace;
            && k <= |Tail(script)| + 1
            && |t| > 2 * k + 1
            && t[0] == SetNodePoolAutoscaling(NodePoolName(project, cluster, pool), size > 0)
            && t[1..2 * k + 1] == WaitTrace(project, cluster.location, polled)
            && t[2 * k + 1] == SetNodePoolSize(NodePoolName(project, cluster, pool), size)
            && seen[k].status == Done
            && (forall i :: 0 <= i < k ==> seen[i].status != Done)
  {
    var autoscaling := Head(script);
    var polled := Polled(autoscaling, Tail(script));
    var k := |polled|;
    var w1 := WaitTrace(project, cluster.location, polled);
    var afterAutoscaling := Remaining(autoscaling, Tail(script));
    var a := [SetNodePoolAutoscaling(NodePoolName(project, cluster, pool), size > 0)];
    var b := [SetNodePoolSize(NodePoolName(project, cluster, pool), size)];
    var w2 := WaitTrace(project, cluster.location, Polled(Head(afterAutoscaling), Tail(afterAutoscaling)));
    var t := PoolRun(project, cluster, pool, size, script).trace;
    PollingStopsAtFirstDone(autoscaling, Tail(script));
    WaitTraceShape(project, cluster.location, polled);
    assert t == a + w1 + b + w2;
    assert |a + w1| == 2 * k + 1;
    assert t[1..2 * k + 1] == w1;
  }

  /** `resizeClusterNodePool`: the four steps for each pool, in pool order. */
  method ResizeClusterNodePool(client: Client, project: string, cluster: Cluster, nodePoolSize: nat)
    modifies client
    ensures client.trace == old(client.trace) + PoolsRun(project, cluster, cluster.nodePools, nodePoolSize, old(client.script)).trace
    ensures client.script == PoolsRun(project, cluster, cluster.nodePools, nodePoolSize, old(client.script)).rest
  {
    ghost var whole := PoolsRun(project, cluster, cluster.nodePools, nodePoolSize, client.script);
    ghost var t0 := client.trace;
    var todo := cluster.nodePools;
    while todo != []
      invariant client.trace + PoolsRun(project, cluster, todo, nodePoolSize, client.script).trace == t0 + whole.trace
      invariant PoolsRun(project, cluster, todo, nodePoolSize, client.script).rest == whole.rest
      decreases |todo|
    {
      var nodePool := todo[0];
      ghost var before, s := client.trace, client.script;
      var name := NodePoolName(project, cluster, nodePool);
      var autoscalingOperation := client.SetNodePoolAutoscaling(name, nodePoolSize > 0);
      WaitForOperation(client, project, cluster.location, autoscalingOperation);
      ghost var mid := client.trace;
      var resizeOperation := client.SetNodePoolSize(name, nodePoolSize);
      WaitForOperation(client, project, cluster.location, resizeOperation);
      PoolRunCompose(project, cluster, nodePool, nodePoolSize, s, before, mid, client.trace);
      PoolAdvance(project, cluster, todo, nodePoolSize, s, before, client.trace, client.script);
      todo := todo[1..];
    }
  }

  /** The four calls of one pool, issued one after the other, make up its steps. */
  lemma PoolRunCompose(project: string, cluster: Cluster, pool: NodePool, size: nat, script: seq<Operation>,
                       before: seq<Call>, mid: seq<Call>, after: seq<Call>)
    requires mid == before + [SetNodePoolAutoscaling(NodePoolName(project, cluster, pool), size > 0)]
                    + WaitTrace(project, cluster.location, Polled(Head(script), Tail(script)))
    requires var afterAutoscaling := Remaining(Head(script), Tail(script));
             after == mid + [SetNodePoolSize(NodePoolName(project, cluster, pool), size)]
                      + WaitTrace(project, cluster.location, Polled(Head(afterAutoscaling), Tail(afterAutoscaling)))
    ensures after == before + PoolRun(project, cluster, pool, size, script).trace
  {
    var name := NodePoolName(project, cluster, pool);
    var afterAutoscaling := Remaining(Head(script), Tail(script));
    var a := [SetNodePoolAutoscaling(name, size > 0)];
    var w1 := WaitTrace(project, cluster.location, Polled(Head(script), Tail(script)));
    var b := [SetNodePoolSize(name, size)];
    var w2 := WaitTrace(project, cluster.location, Polled(Head(afterAutoscaling), Tail(afterAutoscaling)));
    assert PoolRun(project, cluster, pool, size, script).trace == a + w1 + b + w2;
    AppendAssoc(before, a, w1, []);
    AppendAssoc(before + a + w1, b, w2, []);
    AppendAssoc(before, a + w1, b, w2);
  }

  /** After the first pool's four steps, the remaining pools are what is left to do. */
  lemma PoolAdvance(project: string, cluster: Cluster, todo: seq<NodePool>, size: nat, script: seq<Operation>,
                    before: seq<Call>, after: seq<Call>, rest: seq<Operation>)
    requires todo != []
    requires after == before + PoolRun(project, cluster, todo[0], size, script).trace
    requires rest == PoolRun(project, cluster, todo[0], size, script).rest
    ensures var next := PoolsRun(project, cluster, todo[1..], size, rest);
            && after + next.trace == before + PoolsRun(project, cluster, todo, size, script).trace
            && next.rest == PoolsRun(project, cluster, todo, size, script).rest
  {
    var first := PoolRun(project, cluster, todo[0], size, script);
    var next := PoolsRun(project, cluster, todo[1..], size, rest);
    assert PoolsRun(project, cluster, todo, size, script) == Run(first.trace + next.trace, next.rest);
    AppendAssoc(before, first.trace, next.trace, []);
  }

  // ---------------------------------------------------------------- listing

  /** One listing per zone, in zone order. */
  function ZoneCalls(project: string, zones: seq<string>): (r: seq<Call>)
  {
    seq(|zones|, i requires 0 <= i < |zones| => Call.ListClusters(Parent(project, zones[i])))
  }

  /** The queries `listClusters` issues. */
  function ListingCalls(project: string, zones: Option<seq<string>>): (r: seq<Call>)
  {
    if Unrestricted(zones) then [Call.ListClusters(Parent(project, AllLocations))]
    else ZoneCalls(project, zones.value)
  }

  /** What `listClusters` returns. */
  function Listing(client: Client, project: string, zones: Option<seq<string>>): (r: seq<Cluster>)
  {
    if Unrestricted(zones) then client.ClustersUnder(Parent(project, AllLocations))
    else Concat(client.ZoneLists(project, zones.value))
  }

  /**
   * Without zones, a single listing under `projects/{p}/locations/-`;
   * with zones, one listing per zone under `projects/{p}/locations/{zone}`
   * in zone order, whose clusters are concatenated.
   */
  lemma ListingDispatch(client: Client, project: string, zones: Option<seq<string>>)
    ensures Unrestricted(zones) ==>
              ListingCalls(project, zones) == [Call.ListClusters("projects/" + project + "/locations/-")]
    ensures !Unrestricted(zones) ==>
              && |ListingCalls(project, zones)| == |zones.value|
              && (forall i :: 0 <= i < |zones.value| ==>
                    ListingCalls(project, zones)[i] == Call.ListClusters("projects/" + project + "/locations/" + zones.value[i]))
              && |Listing(client, project, zones)| == TotalLength(client.ZoneLists(project, zones.value))
  {
    assert Parent(project, AllLocations) == "projects/" + project + "/locations/-" by {
      assert "/locations/" + "-" == "/locations/-";
    }
    if !Unrestricted(zones) {
      ConcatLength(client.ZoneLists(project, zones.value));
    }
  }

  /** `listClusters`: dispatch on the zones. */
  method ListClusters(client: Client, project: string, zones: Option<seq<string>>) returns (clusters: seq<Cluster>)
    modifies client
    ensures client.trace == old(client.trace) + ListingCalls(project, zones)
    ensures client.script == old(client.script)
    ensures clusters == Listing(client, project, zones)
  {
    if zones.None? || |zones.value| == 0 {
      clusters := client.ListClusters(Parent(project, AllLocations));
      return;
    }
    var zs := zones.value;
    clusters := [];
    var i := 0;
    while i < |zs|
      invariant 0 <= i <= |zs|
      invariant client.trace == old(client.trace) + ZoneCalls(project, zs[..i])
      invariant client.script == old(client.script)
      invariant clusters == Concat(client.ZoneLists(project, zs[..i]))
    {
      var zone := zs[i];
      var clusterList := client.ListClusters(Parent(project, zone));
      assert ZoneCalls(project, zs[..i + 1]) == ZoneCalls(project, zs[..i]) + [Call.ListClusters(Parent(project, zone))];
      assert client.ZoneLists(project, zs[..i + 1]) == client.ZoneLists(project, zs[..i]) + [clusterList];
      ConcatSnoc(client.ZoneLists(project, zs[..i]), clusterList);
      clusters := clusters + clusterList;
      i := i + 1;
    }
    assert zs[..i] == zs;
  }

  // ---------------------------------------------------------------- handlers

  /** `startInstances` resizes to 1 node, `stopInstances` to 0. */
  function TargetSize(action: Action): (size: nat)
    ensures size == 1 || size == 0
    ensures size > 0 <==> action == StartInstances
  {
    match action
    case StartInstances => 1
    case StopInstances => 0
  }

  /** The clusters, one after the other. */
  function ClustersRun(project: string, clusters: seq<Cluster>, size: nat, script: seq<Operation>): (r: Run)
    decreases |clusters|
  {
    if clusters == [] then Run([], script)
    else
      var first := PoolsRun(project, clusters[0], clusters[0].nodePools, size, script);
      var tail := ClustersRun(project, clusters[1..], size, first.rest);
      Run(first.trace + tail.trace, tail.rest)
  }

  /** Every node-pool change of the clusters, cluster by cluster. */
  function AllMutations(project: string, clusters: seq<Cluster>, size: nat): (r: seq<Call>)
  {
    if clusters == [] then []
    else Mutations(project, clusters[0], clusters[0].nodePools, size) + AllMutations(project, clusters[1..], size)
  }

  /** The node-pool changes of all clusters are exactly their pools' autoscaling-then-size pairs. */
  lemma {:induction false} ClustersMutations(project: string, clusters: seq<Cluster>, size: nat, script: seq<Operation>)
    ensures Keep(ClustersRun(project, clusters, size, script).trace, IsMutation) == AllMutations(project, clusters, size)
    decreases |clusters|
  {
    if clusters != [] {
      var first := PoolsRun(project, clusters[0], clusters[0].nodePools, size, script);
      PoolsMutations(project, clusters[0], clusters[0].nodePools, size, script);
      ClustersMutations(project, clusters[1..], size, first.rest);
      KeepAppend(first.trace, ClustersRun(project, clusters[1..], size, first.rest).trace, IsMutation);
    }
  }

  /**
   * Every change made for an action targets its size: start sets every
   * pool to 1 node with autoscaling enabled, stop sets it to 0 nodes with
   * autoscaling disabled.
   */
  lemma {:induction false} MutationsTargetSize(project: string, clusters: seq<Cluster>, action: Action)
    ensures forall c :: c in AllMutations(project, clusters, TargetSize(action)) ==>
              && (c.SetNodePoolSize? ==> c.nodeCount == TargetSize(action))
              && (c.SetNodePoolAutoscaling? ==> (c.enabled <==> action == StartInstances))
    decreases |clusters|
  {
    if clusters != [] {
      MutationsTargetSize(project, clusters[1..], action);
      PoolMutationsSize(project, clusters[0], clusters[0].nodePools, TargetSize(action));
    }
  }

  lemma {:induction false} PoolMutationsSize(project: string, cluster: Cluster, pools: seq<NodePool>, size: nat)
    ensures forall c :: c in Mutations(project, cluster, pools, size) ==>
              && (c.SetNodePoolSize? ==> c.nodeCount == size)
              && (c.SetNodePoolAutoscaling? ==> (c.enabled <==> size > 0))
    decreases |pools|
  {
    if pools != [] {
      PoolMutationsSize(project, cluster, pools[1..], size);
    }
  }

  /** `Promise.all(clusters.map(...))`, one cluster after the other. */
  method ResizeClusters(client: Client, project: string, clusters: seq<Cluster>, size: nat)
    modifies client
    ensures client.trace == old(client.trace) + ClustersRun(project, clusters, size, old(client.script)).trace
    ensures client.script == ClustersRun(project, clusters, size, old(client.script)).rest
  {
    ghost var whole := ClustersRun(project, clusters, size, client.script);
    ghost var t0 := client.trace;
    var todo := clusters;
    while todo != []
      invariant client.trace + ClustersRun(project, todo, size, client.script).trace == t0 + whole.trace
      invariant ClustersRun(project, todo, size, client.script).rest == whole.rest
      decreases |todo|
    {
      ghost var before, s := client.trace, client.script;
      ResizeClusterNodePool(client, project, todo[0], size);
      ghost var first := PoolsRun(project, todo[0], todo[0].nodePools, size, s);
      ghost var next := ClustersRun(project, todo[1..], size, client.script);
      assert ClustersRun(project, todo, size, s) == Run(first.trace + next.trace, next.rest);
      assert client.trace == before + first.trace;
      assert before + first.trace + next.trace == before + (first.trace + next.trace);
      todo := todo[1..];
    }
  }

  /**
   * `startInstances` / `stopInstances`: parse the message, list the
   * clusters and resize every node pool of each to the action's size;
   * report how many clusters there were. Errors are returned instead of
   * logged.
   */
  method HandleEvent(client: Client, action: Action, decoded: Result<Message>, ambientProject: string)
    returns (r: Result<nat>)
    modifies client
    ensures ParsePayload(decoded, ambientProject).Err? ==>
              && r == Err(ParsePayload(decoded, ambientProject).error)
              && client.trace == old(client.trace) && client.script == old(client.script)
    ensures ParsePayload(decoded, ambientProject).Ok? ==>
              var req := ParsePayload(decoded, ambientProject).value;
              var listed := Listing(client, req.project, req.zones);
              var run := ClustersRun(req.project, listed, TargetSize(action), old(client.script));
              && r == Ok(|listed|)
              && client.trace == old(client.trace) + ListingCalls(req.project, req.zones) + run.trace
              && client.script == run.rest
  {
    var payload := ParsePayload(decoded, ambientProject);
    if payload.Err? {
      return Err(payload.error);
    }
    var project, zones := payload.value.project, payload.value.zones;
    var clusters := ListClusters(client, project, zones);
    ResizeClusters(client, project, clusters, TargetSize(action));
    r := Ok(|clusters|);
  }
}
