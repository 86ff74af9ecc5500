/**
 * The Compute Engine scheduler (functions/compute/index.js): list VM
 * instances by zone or across all zones with a label filter, start or stop
 * each one, and wait for each returned zone operation to finish.
 */
module Compute {
  import opened Common
  import opened Operations
  import opened Payload

  /** A VM instance; `zone` is the zone URL the provider reports. */
  datatype Instance = Instance(name: string, zone: string)

  /** One entry of the aggregated listing: a zone key and its `instances` field. */
  type ZoneEntry = (string, Option<seq<Instance>>)

  /** `maxResults` of the aggregated listing. */
  const PageSize: nat := 25

  /** The provider calls the function issues, as the client oracle records them. */
  datatype Call =
    | AggregatedList(project: string, filter: Option<string>, maxResults: nat)
    | List(project: string, zone: string, filter: Option<string>)
    | StartInstance(project: string, zone: string, instance: string)
    | StopInstance(project: string, zone: string, instance: string)
    | Wait(operation: string, project: string, zone: string)

  /** The call that starts or stops one instance. */
  function TransitionCall(action: Action, project: string, zone: string, instance: string): (r: Call)
  {
    match action
    case StartInstances => StartInstance(project, zone, instance)
    case StopInstances => StopInstance(project, zone, instance)
  }

  predicate IsTransition(c: Call)
  {
    c.StartInstance? || c.StopInstance?
  }

  /**
   * The instances and operations clients as one oracle: listings come from
   * fixed inventories, every operation-returning call takes the next record
   * of `script`, and every call is appended to `trace`.
   */
  class Client {
    const inventory: map<string, seq<Instance>>
    const aggregated: seq<ZoneEntry>
    var script: seq<Operation>
    var trace: seq<Call>

    constructor (inventory: map<string, seq<Instance>>, aggregated: seq<ZoneEntry>, script: seq<Operation>)
      ensures this.inventory == inventory && this.aggregated == aggregated
      ensures this.script == script && trace == []
    {
      this.inventory := inventory;
      this.aggregated := aggregated;
      this.script := script;
      trace := [];
    }

    /** What listing one zone returns. */
    function ZoneInstances(zone: string): (r: seq<Instance>)
    {
      if zone in inventory then inventory[zone] else []
    }

    /** The per-zone listings for `zones`, in zone order. */
    function ZoneLists(zones: seq<string>): (r: seq<seq<Instance>>)
    {
      seq(|zones|, i requires 0 <= i < |zones| => ZoneInstances(zones[i]))
    }

    /** `instancesClient.list({ filter, project, zone })`. */
    method List(project: string, zone: string, filter: Option<string>) returns (r: seq<Instance>)
      modifies this`trace
      ensures trace == old(trace) + [Call.List(project, zone, filter)]
      ensures r == ZoneInstances(zone)
    {
      trace := trace + [Call.List(project, zone, filter)];
      r := ZoneInstances(zone);
    }

    /** `instancesClient.aggregatedListAsync({ filter, project, maxResults })`, all pages. */
    method AggregatedListAsync(project: string, filter: Option<string>, maxResults: nat) returns (r: seq<ZoneEntry>)
      modifies this`trace
      ensures trace == old(trace) + [AggregatedList(project, filter, maxResults)]
      ensures r == aggregated
    {
      trace := trace + [AggregatedList(project, filter, maxResults)];
      r := aggregated;
    }

    /** `instancesClient.start(...)` or `instancesClient.stop(...)`. */
    method Transition(action: Action, project: string, zone: string, instance: string) returns (op: Operation)
      modifies this
      ensures trace == old(trace) + [TransitionCall(action, project, zone, instance)]
      ensures op == Head(old(script)) && script == Tail(old(script))
    {
      trace := trace + [TransitionCall(action, project, zone, instance)];
      op := Head(script);
      script := Tail(script);
    }

    /** `operationsClient.wait({ operation, project, zone })`. */
    method Wait(operation: string, project: string, zone: string) returns (op: Operation)
      modifies this
      ensures trace == old(trace) + [Call.Wait(operation, project, zone)]
      ensures op == Head(old(script)) && script == Tail(old(script))
    {
      trace := trace + [Call.Wait(operation, project, zone)];
      op := Head(script);
      script := Tail(script);
    }
  }

  // ---------------------------------------------------------------- filters

  /** `(labels.K = "V")`. */
  function Clause(key: string, value: string): (r: string)
  {
    "(labels." + key + " = \"" + value + "\")"
  }

  function Clauses(labels: Entries): (r: seq<string>)
  {
    seq(|labels|, i requires 0 <= i < |labels| => Clause(labels[i].0, labels[i].1))
  }

  /** The filter `createLabelFilter` builds: `null`, or the clauses joined by " AND ". */
  function LabelFilter(labels: Option<Entries>): (r: Option<string>)
  {
    if Unrestricted(labels) then None else Some(Join(Clauses(labels.value), " AND "))
  }

  /** `createLabelFilter`: push one clause per label entry, then join them. */
  method CreateLabelFilter(labels: Option<Entries>) returns (r: Option<string>)
    ensures r.None? <==> Unrestricted(labels)
    ensures r == LabelFilter(labels)
  {
    if labels.None? || |labels.value| == 0 {
      return None;
    }
    var entries := labels.value;
    var filters: seq<string> := [];
    var i := 0;
    while i < |entries|
      invariant 0 <= i <= |entries|
      invariant filters == Clauses(entries[..i])
    {
      var (key, value) := entries[i];
      filters := filters + [Clause(key, value)];
      i := i + 1;
    }
    assert entries[..i] == entries;
    r := Some(Join(filters, " AND "));
  }

  /**
   * For n > 0 label entries the filter opens with the first clause, adds
   * each further entry as " AND " and its clause, and so holds exactly
   * n - 1 separators besides the clauses.
   */
  lemma LabelFilterShape(entries: Entries, key: string, value: string)
    requires |entries| > 0
    ensures LabelFilter(Some(entries)).Some?
    ensures var f := LabelFilter(Some(entries)).value;
            && |f| == TotalLength(Clauses(entries)) + (|entries| - 1) * |" AND "|
            && |Clause(entries[0].0, entries[0].1)| <= |f|
            && f[..|Clause(entries[0].0, entries[0].1)|] == Clause(entries[0].0, entries[0].1)
            && LabelFilter(Some(entries + [(key, value)])) == Some(f + " AND " + Clause(key, value))
  {
    JoinLength(Clauses(entries), " AND ");
    JoinStartsWithFirst(Clauses(entries), " AND ");
    assert Clauses(entries + [(key, value)]) == Clauses(entries) + [Clause(key, value)];
    JoinSnoc(Clauses(entries), Clause(key, value), " AND ");
  }

  /** One label gives exactly one clause and no separator. */
  lemma SingleLabelFilter(key: string, value: string)
    ensures LabelFilter(Some([(key, value)])) == Some("(labels." + key + " = \"" + value + "\")")
  {
    assert Clauses([(key, value)]) == [Clause(key, value)];
  }

  // ---------------------------------------------------------------- listing

  /**
   * What the loop of `listAllInstances` returns for the given entries: it
   * throws at the first entry without an `instances` field (its `.length`
   * is read before the null check), and otherwise appends every non-empty
   * list in entry order.
   */
  function Flatten(entries: seq<ZoneEntry>): (r: Result<seq<Instance>>)
  {
    if entries == [] then Ok([])
    else
      var last := entries[|entries| - 1].1;
      match Flatten(entries[..|entries| - 1])
      case Err(e) => Err(e)
      case Ok(acc) =>
        if last.None? then Err(MissingLength)
        else Ok(if |last.value| > 0 then acc + last.value else acc)
  }

  predicate AllPresent(entries: seq<ZoneEntry>)
  {
    forall i :: 0 <= i < |entries| ==> entries[i].1.Some?
  }

  function Lists(entries: seq<ZoneEntry>): (r: seq<seq<Instance>>)
    requires AllPresent(entries)
    ensures |r| == |entries|
  {
    seq(|entries|, i requires 0 <= i < |entries| => entries[i].1.value)
  }

  /** Once the loop has thrown, later entries do not matter. */
  lemma {:induction false} FlattenErrSticks(entries: seq<ZoneEntry>, k: nat)
    requires k <= |entries| && Flatten(entries[..k]).Err?
    ensures Flatten(entries) == Flatten(entries[..k])
    decreases |entries| - k
  {
    if k < |entries| {
      assert entries[..k + 1][..k] == entries[..k];
      FlattenErrSticks(entries, k + 1);
    } else {
      assert entries[..k] == entries;
    }
  }

  /**
   * The aggregated listing is the in-order concatenation of every zone's
   * instances (skipping empty lists changes nothing), and it fails with the
   * `TypeError` exactly when some entry lacks its `instances` field.
   */
  lemma {:induction false} FlattenIsConcat(entries: seq<ZoneEntry>)
    ensures Flatten(entries).Err? <==> !AllPresent(entries)
    ensures Flatten(entries).Err? ==> Flatten(entries).error == MissingLength
    ensures AllPresent(entries) ==>
              Flatten(entries) == Ok(Concat(Lists(entries)))
              && |Flatten(entries).value| == TotalLength(Lists(entries))
  {
    if entries == [] {
      assert Lists(entries) == [];
    } else {
      var init := entries[..|entries| - 1];
      FlattenIsConcat(init);
      if AllPresent(entries) {
        assert AllPresent(init);
        assert Lists(entries) == Lists(init) + [entries[|entries| - 1].1.value];
        var last := entries[|entries| - 1].1.value;
        ConcatSnoc(Lists(init), last);
        ConcatLength(Lists(entries));
        var acc := Flatten(init).value;
        assert Flatten(entries) == Ok(if |last| > 0 then acc + last else acc);
        if |last| == 0 {
          assert acc + last == acc;
        }
      } else if AllPresent(init) {
        assert entries[|entries| - 1].1.None?;
      } else {
        var i :| 0 <= i < |init| && init[i].1.None?;
        assert entries[i].1.None?;
      }
    }
  }

  /** `listAllInstances`: one aggregated query, then flatten its entries. */
  method ListAllInstances(client: Client, project: string, labels: Option<Entries>) returns (r: Result<seq<Instance>>)
    modifies client
    ensures client.trace == old(client.trace) + [AggregatedList(project, LabelFilter(labels), PageSize)]
    ensures client.script == old(client.script)
    ensures r == Flatten(client.aggregated)
  {
    var filter := CreateLabelFilter(labels);
    var entries := client.AggregatedListAsync(project, filter, PageSize);
    var results: seq<Instance> := [];
    var i := 0;
    while i < |entries|
      invariant 0 <= i <= |entries|
      invariant Flatten(entries[..i]) == Ok(results)
    {
      var (zone, instancesObject) := entries[i];
      assert entries[..i + 1][..i] == entries[..i];
      if instancesObject.None? {
        FlattenErrSticks(entries, i + 1);
        return Err(MissingLength);
      }
      var instances := instancesObject.value;
      if |instances| > 0 {
        results := results + instances;
      }
      i := i + 1;
    }
    assert entries[..i] == entries;
    r := Ok(results);
  }

  /** The per-zone queries: one `list` per zone, in zone order. */
  function ZoneCalls(project: string, zones: seq<string>, filter: Option<string>): (r: seq<Call>)
  {
    seq(|zones|, i requires 0 <= i < |zones| => Call.List(project, zones[i], filter))
  }

  /** The queries `listInstances` issues. */
  function ListingCalls(project: string, zones: Option<seq<string>>, labels: Option<Entries>): (r: seq<Call>)
  {
    if Unrestricted(zones) then [AggregatedList(project, LabelFilter(labels), PageSize)]
    else ZoneCalls(project, zones.value, LabelFilter(labels))
  }

  /** What `listInstances` returns. */
  function Listing(client: Client, zones: Option<seq<string>>): (r: Result<seq<Instance>>)
  {
    if Unrestricted(zones) then Flatten(client.aggregated)
    else Ok(Concat(client.ZoneLists(zones.value)))
  }

  /**
   * Without zones the listing is a single aggregated query and no per-zone
   * query; with zones it is one query per zone in zone order, and the
   * result is as long as all the zones' lists together.
   */
  lemma ListingDispatch(client: Client, project: string, zones: Option<seq<string>>, labels: Option<Entries>)
    ensures Unrestricted(zones) ==>
              && ListingCalls(project, zones, labels) == [AggregatedList(project, LabelFilter(labels), PageSize)]
              && (forall c :: c in ListingCalls(project, zones, labels) ==> !c.List?)
    ensures !Unrestricted(zones) ==>
              && |ListingCalls(project, zones, labels)| == |zones.value|
              && (forall i :: 0 <= i < |zones.value| ==>
                    ListingCalls(project, zones, labels)[i] == Call.List(project, zones.value[i], LabelFilter(labels)))
              && Listing(client, zones).Ok?
              && |Listing(client, zones).value| == TotalLength(client.ZoneLists(zones.value))
  {
    if !Unrestricted(zones) {
      ConcatLength(client.ZoneLists(zones.value));
    }
  }

  /** `listInstances`: dispatch on the zones. */
  method ListInstances(client: Client, project: string, zones: Option<seq<string>>, labels: Option<Entries>)
    returns (r: Result<seq<Instance>>)
    modifies client
    ensures client.trace == old(client.trace) + ListingCalls(project, zones, labels)
    ensures client.script == old(client.script)
    ensures r == Listing(client, zones)
  {
    if zones.None? || |zones.value| == 0 {
      r := ListAllInstances(client, project, labels);
      return;
    }
    var zs := zones.value;
    var instances: seq<Instance> := [];
    var i := 0;
    while i < |zs|
      invariant 0 <= i <= |zs|
      invariant client.trace == old(client.trace) + ZoneCalls(project, zs[..i], LabelFilter(labels))
      invariant client.script == old(client.script)
      invariant instances == Concat(client.ZoneLists(zs[..i]))
    {
      var zone := zs[i];
      var filter := CreateLabelFilter(labels);
      var instanceList := client.List(project, zone, filter);
      assert ZoneCalls(project, zs[..i + 1], filter) == ZoneCalls(project, zs[..i], filter) + [Call.List(project, zone, filter)];
      assert client.ZoneLists(zs[..i + 1]) == client.ZoneLists(zs[..i]) + [instanceList];
      ConcatSnoc(client.ZoneLists(zs[..i]), instanceList);
      instances := instances + instanceList;
      i := i + 1;
    }
    assert zs[..i] == zs;
    r := Ok(instances);
  }

  // ---------------------------------------------------------------- polling

  /** The `wait` calls made while polling the given unfinished operations. */
  function WaitTrace(project: string, polled: seq<Operation>): (r: seq<Call>)
  {
    if polled == [] then []
    else [Call.Wait(polled[0].name, project, LastSegment(polled[0].zone))] + WaitTrace(project, polled[1..])
  }

  /** One `wait` per re-fetch, none of them a start or stop. */
  lemma {:induction false} WaitTraceShape(project: string, polled: seq<Operation>)
    ensures |WaitTrace(project, polled)| == |polled|
    ensures forall i :: 0 <= i < |polled| ==>
              WaitTrace(project, polled)[i] == Call.Wait(polled[i].name, project, LastSegment(polled[i].zone))
    ensures Keep(WaitTrace(project, polled), IsTransition) == []
  {
    if polled != [] {
      WaitTraceShape(project, polled[1..]);
    }
  }

  /**
   * `waitForOperation`: re-fetch with `wait` until the status is "DONE",
   * each time in the last segment of the current operation's zone.
   */
  method WaitForOperation(client: Client, projectId: string, operation: Operation)
    modifies client
    ensures client.trace == old(client.trace) + WaitTrace(projectId, Polled(operation, old(client.script)))
    ensures client.script == Remaining(operation, old(client.script))
  {
    var op := operation;
    while op.status != Done
      invariant client.trace + WaitTrace(projectId, Polled(op, client.script))
                == old(client.trace) + WaitTrace(projectId, Polled(operation, old(client.script)))
      invariant Remaining(op, client.script) == Remaining(operation, old(client.script))
      decreases Measure(op, client.script)
    {
      ghost var s := client.script;
      WaitTraceStep(projectId, op, s);
      op := client.Wait(op.name, projectId, LastSegment(op.zone));
    }
  }

  /** One re-fetch of an unfinished operation adds one `wait` call. */
  lemma WaitTraceStep(project: string, op: Operation, script: seq<Operation>)
    requires op.status != Done
    ensures WaitTrace(project, Polled(op, script))
            == [Call.Wait(op.name, project, LastSegment(op.zone))] + WaitTrace(project, Polled(Head(script), Tail(script)))
    ensures Remaining(op, script) == Remaining(Head(script), Tail(script))
  {
    var p := Polled(op, script);
    assert p == [op] + Polled(Head(script), Tail(script));
    assert p[1..] == Polled(Head(script), Tail(script));
  }

  // ---------------------------------------------------------------- handlers

  /** Provider calls and what is left of the script after some pipelines. */
  datatype Run = Run(trace: seq<Call>, rest: seq<Operation>)

  /**
   * The per-instance pipelines run one after the other: start (or stop)
   * in the last segment of the instance's zone, then poll that operation.
   */
  function Pipeline(action: Action, project: string, instances: seq<Instance>, script: seq<Operation>): (r: Run)
    decreases |instances|
  {
    if instances == [] then Run([], script)
    else
      var inst := instances[0];
      var op := Head(script);
      var tail := Pipeline(action, project, instances[1..], Remaining(op, Tail(script)));
      Run([TransitionCall(action, project, LastSegment(inst.zone), inst.name)]
          + WaitTrace(project, Polled(op, Tail(script))) + tail.trace,
          tail.rest)
  }

  /** The start (or stop) call for each instance, in listing order. */
  function Transitions(action: Action, project: string, instances: seq<Instance>): (r: seq<Call>)
  {
    seq(|instances|, i requires 0 <= i < |instances| =>
      TransitionCall(action, project, LastSegment(instances[i].zone), instances[i].name))
  }

  /** After the first instance's pipeline, the remaining pipelines are what is left to do. */
  lemma PipelineAdvance(action: Action, project: string, todo: seq<Instance>, script: seq<Operation>,
                        before: seq<Call>, after: seq<Call>)
    requires todo != []
    requires after == before + [TransitionCall(action, project, LastSegment(todo[0].zone), todo[0].name)]
                      + WaitTrace(project, Polled(Head(script), Tail(script)))
    ensures var next := Pipeline(action, project, todo[1..], Remaining(Head(script), Tail(script)));
            && after + next.trace == before + Pipeline(action, project, todo, script).trace
            && next.rest == Pipeline(action, project, todo, script).rest
  {
    var first := TransitionCall(action, project, LastSegment(todo[0].zone), todo[0].name);
    var polls := WaitTrace(project, Polled(Head(script), Tail(script)));
    var next := Pipeline(action, project, todo[1..], Remaining(Head(script), Tail(script)));
    assert Pipeline(action, project, todo, script) == Run([first] + polls + next.trace, next.rest);
    AppendAssoc(before, [first], polls, next.trace);
  }

  /**
   * Exactly one start (or stop) call per listed instance, in listing
   * order, addressed to the instance's name and the last segment of its
   * zone.
   */
  lemma {:induction false} OneTransitionPerInstance(action: Action, project: string, instances: seq<Instance>, script: seq<Operation>)
    ensures Keep(Pipeline(action, project, instances, script).trace, IsTransition) == Transitions(action, project, instances)
    ensures |Keep(Pipeline(action, project, instances, script).trace, IsTransition)| == |instances|
    decreases |instances|
  {
    if instances == [] {
      assert Transitions(action, project, instances) == [];
    } else {
      var inst := instances[0];
      var op := Head(script);
      var polls := WaitTrace(project, Polled(op, Tail(script)));
      var tail := Pipeline(action, project, instances[1..], Remaining(op, Tail(script)));
      var first := TransitionCall(action, project, LastSegment(inst.zone), inst.name);
      assert Pipeline(action, project, instances, script).trace == [first] + polls + tail.trace;
      OneTransitionPerInstance(action, project, instances[1..], Remaining(op, Tail(script)));
      WaitTraceShape(project, Polled(op, Tail(script)));
      KeepFirstTransition(first, polls, tail.trace);
      TransitionsCons(action, project, instances);
    }
  }

  /** A start (or stop) followed by `wait`s keeps only the start (or stop). */
  lemma KeepFirstTransition(first: Call, polls: seq<Call>, rest: seq<Call>)
    requires IsTransition(first) && Keep(polls, IsTransition) == []
    ensures Keep([first] + polls + rest, IsTransition) == [first] + Keep(rest, IsTransition)
  {
    KeepAppend([first] + polls, rest, IsTransition);
    KeepAppend([first], polls, IsTransition);
    assert [first][1..] == [];
  }

  lemma TransitionsCons(action: Action, project: string, instances: seq<Instance>)
    requires instances != []
    ensures Transitions(action, project, instances)
            == [TransitionCall(action, project, LastSegment(instances[0].zone), instances[0].name)]
               + Transitions(action, project, instances[1..])
  {
    var first := TransitionCall(action, project, LastSegment(instances[0].zone), instances[0].name);
    var rest := Transitions(action, project, instances[1..]);
    forall k | 0 <= k < |instances|
      ensures Transitions(action, project, instances)[k] == ([first] + rest)[k]
    {
      if k > 0 {
        assert instances[1..][k - 1] == instances[k];
      }
    }
  }

  /**
   * `Promise.all(instances.map(...))`, one pipeline after the other: start
   * (or stop) each instance, then wait for its operation.
   */
  method RunPipelines(client: Client, action: Action, project: string, instances: seq<Instance>)
    modifies client
    ensures client.trace == old(client.trace) + Pipeline(action, project, instances, old(client.script)).trace
    ensures client.script == Pipeline(action, project, instances, old(client.script)).rest
  {
    ghost var whole := Pipeline(action, project, instances, client.script);
    ghost var t0 := client.trace;
    var todo := instances;
    while todo != []
      invariant client.trace + Pipeline(action, project, todo, client.script).trace == t0 + whole.trace
      invariant Pipeline(action, project, todo, client.script).rest == whole.rest
      decreases |todo|
    {
      var instance := todo[0];
      ghost var before, s := client.trace, client.script;
      var response := client.Transition(action, project, LastSegment(instance.zone), instance.name);
      WaitForOperation(client, project, response);
      PipelineAdvance(action, project, todo, s, before, client.trace);
      todo := todo[1..];
    }
  }

  /**
   * `startInstances` / `stopInstances`: parse the message, list the
   * instances, run one start (stop) pipeline per instance and report how
   * many instances there were. Errors are returned instead of logged.
   */
  method HandleEvent(client: Client, action: Action, decoded: Result<Message>, ambientProject: string)
    returns (r: Result<nat>)
    modifies client
    ensures ParsePayload(decoded, ambientProject).Err? ==>
              && r == Err(ParsePayload(decoded, ambientProject).error)
              && client.trace == old(client.trace) && client.script == old(client.script)
    ensures ParsePayload(decoded, ambientProject).Ok? ==>
              var req := ParsePayload(decoded, ambientProject).value;
              var listed := Listing(client, req.zones);
              var queried := old(client.trace) + ListingCalls(req.project, req.zones, req.labels);
              && (listed.Err? ==>
                    r == Err(listed.error) && client.trace == queried && client.script == old(client.script))
              && (listed.Ok? ==>
                    var run := Pipeline(action, req.project, listed.value, old(client.script));
                    && r == Ok(|listed.value|)
                    && client.trace == queried + run.trace
                    && client.script == run.rest)
  {
    var payload := ParsePayload(decoded, ambientProject);
    if payload.Err? {
      return Err(payload.error);
    }
    var project, zones, labels := payload.value.project, payload.value.zones, payload.value.labels;
    var listed := ListInstances(client, project, zones, labels);
    if listed.Err? {
      return Err(listed.error);
    }
    var instances := listed.value;
    RunPipelines(client, action, project, instances);
    r := Ok(|instances|);
  }
}
