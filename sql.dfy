/**
 * The Cloud SQL scheduler (functions/sql/index.js): list the runnable
 * instances whose activation policy is the one to leave, patch each to the
 * opposite policy, and wait for each returned operation to finish.
 */
module Sql {
  import opened Common
  import opened Operations
  import opened Payload

  /** A database instance and the project it belongs to. */
  datatype Instance = Instance(name: string, project: string)

  /** The activation policies the scheduler switches between. */
  datatype Policy = Always | Never

  function PolicyName(p: Policy): (r: string)
  {
    match p
    case Always => "ALWAYS"
    case Never => "NEVER"
  }

  /** The fixed pause of `sleep(5000)` between two polls. */
  const PollInterval: nat := 5000

  /** The provider calls the function issues, as the client oracle records them. */
  datatype Call =
    | List(project: string, filter: string)
    | Patch(project: string, instance: string, activationPolicy: string)
    | Sleep(milliseconds: nat)
    | Get(operation: string, project: string)

  predicate IsPatch(c: Call)
  {
    c.Patch?
  }

  /**
   * The instances and operations clients as one oracle: a listing returns
   * the `items` recorded for its project and filter (absent when none is
   * recorded), every operation-returning call takes the next record of
   * `script`, and every call is appended to `trace`.
   */
  class Client {
    const catalog: map<(string, string), Option<seq<Instance>>>
    var script: seq<Operation>
    var trace: seq<Call>

    constructor (catalog: map<(string, string), Option<seq<Instance>>>, script: seq<Operation>)
      ensures this.catalog == catalog && this.script == script && trace == []
    {
      this.catalog := catalog;
      this.script := script;
      trace := [];
    }

    /** The `items` field of a listing. */
    function Items(project: string, filter: string): (r: Option<seq<Instance>>)
    {
      if (project, filter) in catalog then catalog[(project, filter)] else None
    }

    /** `instancesClient.list({ filter, project })`. */
    method List(project: string, filter: string) returns (items: Option<seq<Instance>>)
      modifies this`trace
      ensures trace == old(trace) + [Call.List(project, filter)]
      ensures items == Items(project, filter)
    {
      trace := trace + [Call.List(project, filter)];
      items := Items(project, filter);
    }

    /** `instancesClient.patch({ project, instance, body: { settings: { activationPolicy } } })`. */
    method Patch(project: string, instance: string, activationPolicy: string) returns (op: Operation)
      modifies this
      ensures trace == old(trace) + [Call.Patch(project, instance, activationPolicy)]
      ensures op == Head(old(script)) && script == Tail(old(script))
    {
      trace := trace + [Call.Patch(project, instance, activationPolicy)];
      op := Head(script);
      script := Tail(script);
    }

    /** `sleep(milliseconds)`, an opaque pause. */
    method Sleep(milliseconds: nat)
      modifies this`trace
      ensures trace == old(trace) + [Call.Sleep(milliseconds)]
    {
      trace := trace + [Call.Sleep(milliseconds)];
    }

    /** `operationsClient.get({ operation, project })`. */
    method Get(operation: string, project: string) returns (op: Operation)
      modifies this
      ensures trace == old(trace) + [Call.Get(operation, project)]
      ensures op == Head(old(script)) && script == Tail(old(script))
    {
      trace := trace + [Call.Get(operation, project)];
      op := Head(script);
      script := Tail(script);
    }
  }

  // ---------------------------------------------------------------- filters

  /** `(settings.userLabels.K = "V")`. */
  function Clause(key: string, value: string): (r: string)
  {
    "(settings.userLabels." + key + " = \"" + value + "\")"
  }

  function Clauses(labels: Entries): (r: seq<string>)
  {
    seq(|labels|, i requires 0 <= i < |labels| => Clause(labels[i].0, labels[i].1))
  }

  /** The filter `createLabelFilter` builds: empty, or the clauses joined by one space. */
  function LabelFilter(labels: Option<Entries>): (r: string)
  {
    if Unrestricted(labels) then "" else Join(Clauses(labels.value), " ")
  }

  /** `createLabelFilter`: push one clause per label entry, then join them. */
  method CreateLabelFilter(labels: Option<Entries>) returns (r: string)
    ensures Unrestricted(labels) ==> r == ""
    ensures r == LabelFilter(labels)
  {
    if labels.None? || |labels.value| == 0 {
      return "";
    }
    var entries := labels.value;
    var filters: seq<string> := [];
    var i := 0;
    while i < |entries|
      invariant 0 <= i <= |entries|
      invariant filters == Clauses(entries[..i])
    {
      var (key, value) := entries[i];
      filters := filters + [Clause(key, value)];
      i := i + 1;
    }
    assert entries[..i] == entries;
    r := Join(filters, " ");
  }

  /**
   * For n > 0 label entries the filter is never empty, opens with the
   * first clause, adds each further entry as one space and its clause,
   * and so holds exactly n - 1 separating spaces besides the clauses.
   */
  lemma LabelFilterShape(entries: Entries, key: string, value: string)
    requires |entries| > 0
    ensures var f := LabelFilter(Some(entries));
            && |f| == TotalLength(Clauses(entries)) + (|entries| - 1)
            && |Clause(entries[0].0, entries[0].1)| <= |f|
            && f[..|Clause(entries[0].0, entries[0].1)|] == Clause(entries[0].0, entries[0].1)
            && f != ""
            && LabelFilter(Some(entries + [(key, value)])) == f + " " + Clause(key, value)
  {
    JoinLength(Clauses(entries), " ");
    JoinStartsWithFirst(Clauses(entries), " ");
    assert Clauses(entries + [(key, value)]) == Clauses(entries) + [Clause(key, value)];
    JoinSnoc(Clauses(entries), Clause(key, value), " ");
  }

  /** The filter template of `listInstances`: the policy, RUNNABLE, then a label filter. */
  function ComposeFilter(policy: Policy, labelFilter: string): (r: string)
  {
    "(settings.activationPolicy = \"" + PolicyName(policy) + "\") (state = \"RUNNABLE\") " + labelFilter
  }

  /** The filter `listInstances` sends for the given policy and labels. */
  function ListFilter(policy: Policy, labels: Option<Entries>): (r: string)
  {
    ComposeFilter(policy, LabelFilter(labels))
  }

  /**
   * Without labels the listing filter is the policy and state clauses
   * alone, followed by a trailing space.
   */
  lemma ListFilterWithoutLabels(policy: Policy, labels: Option<Entries>)
    requires Unrestricted(labels)
    ensures ListFilter(policy, labels) == ListFilter(policy, None)
    ensures |ListFilter(policy, labels)| == 54 + |PolicyName(policy)|
    ensures ListFilter(policy, labels)[|ListFilter(policy, labels)| - 1] == ' '
  {
    var head := "(settings.activationPolicy = \"" + PolicyName(policy) + "\") (state = \"RUNNABLE\") ";
    assert ListFilter(policy, labels) == head + "";
    assert head + "" == head;
    assert head[|head| - 1] == ' ';
  }

  /** The two listing filters never coincide: they differ in the policy they ask for. */
  lemma ListFiltersDiffer(labels: Option<Entries>, labels': Option<Entries>)
    ensures ListFilter(Never, labels) != ListFilter(Always, labels')
  {
    var prefix := "(settings.activationPolicy = \"";
    assert ListFilter(Never, labels)[|prefix|] == 'N';
    assert ListFilter(Always, labels')[|prefix|] == 'A';
  }

  // ---------------------------------------------------------------- listing

  /** What `listInstances` returns: the listing's `items`, or the error of reading an absent one. */
  function Listing(client: Client, project: string, policy: Policy, labels: Option<Entries>): (r: Result<seq<Instance>>)
  {
    match client.Items(project, ListFilter(policy, labels))
    case None => Err(MissingLength)
    case Some(items) => Ok(items)
  }

  /** `listInstances`: a single listing with the composed filter. */
  method ListInstances(client: Client, project: string, activationPolicy: Policy, labels: Option<Entries>)
    returns (r: Result<seq<Instance>>)
    modifies client
    ensures client.trace == old(client.trace) + [Call.List(project, ListFilter(activationPolicy, labels))]
    ensures client.script == old(client.script)
    ensures r == Listing(client, project, activationPolicy, labels)
  {
    var labelFilter := CreateLabelFilter(labels);
    var filter := ComposeFilter(activationPolicy, labelFilter);
    var instanceList := client.List(project, filter);
    if instanceList.None? {
      return Err(MissingLength);
    }
    r := Ok(instanceList.value);
  }

  // ---------------------------------------------------------------- polling

  /** One `sleep` and one `get` per unfinished operation polled. */
  function WaitTrace(project: string, polled: seq<Operation>): (r: seq<Call>)
  {
    if polled == [] then []
    else [Sleep(PollInterval), Get(polled[0].name, project)] + WaitTrace(project, polled[1..])
  }

  /** Each poll is a sleep followed by a fetch by name and project; polling patches nothing. */
  lemma {:induction false} WaitTraceShape(project: string, polled: seq<Operation>)
    ensures |WaitTrace(project, polled)| == 2 * |polled|
    ensures forall j :: 0 <= j < |polled| ==>
              && WaitTrace(project, polled)[2 * j] == Sleep(PollInterval)
              && WaitTrace(project, polled)[2 * j + 1] == Get(polled[j].name, project)
    ensures Keep(WaitTrace(project, polled), IsPatch) == []
  {
    if polled != [] {
      var w := WaitTrace(project, polled);
      var head := [Sleep(PollInterval), Get(polled[0].name, project)];
      WaitTraceShape(project, polled[1..]);
      assert w == head + WaitTrace(project, polled[1..]);
      forall j | 0 < j < |polled|
        ensures w[2 * j] == Sleep(PollInterval)
        ensures w[2 * j + 1] == Get(polled[j].name, project)
      {
        assert polled[1..][j - 1] == polled[j];
        assert w[2 * j] == WaitTrace(project, polled[1..])[2 * (j - 1)];
        assert w[2 * j + 1] == WaitTrace(project, polled[1..])[2 * (j - 1) + 1];
      }
      KeepAppend(head, WaitTrace(project, polled[1..]), IsPatch);
      KeepAppend([head[0]], [head[1]], IsPatch);
      assert head == [head[0]] + [head[1]];
    }
  }

  /** One poll of an unfinished operation adds a sleep and a fetch. */
  lemma WaitTraceStep(project: string, op: Operation, script: seq<Operation>)
    requires op.status != Done
    ensures WaitTrace(project, Polled(op, script))
            == [Sleep(PollInterval), Get(op.name, project)] + WaitTrace(project, Polled(Head(script), Tail(script)))
    ensures Remaining(op, script) == Remaining(Head(script), Tail(script))
  {
    var p := Polled(op, script);
    assert p == [op] + Polled(Head(script), Tail(script));
    assert p[1..] == Polled(Head(script), Tail(script));
  }

  /** `waitForOperation`: sleep, then fetch the operation, until "DONE". */
  method WaitForOperation(client: Client, projectId: string, operation: Operation)
    modifies client
    ensures client.trace == old(client.trace) + WaitTrace(projectId, Polled(operation, old(client.script)))
    ensures client.script == Remaining(operation, old(client.script))
  {
    var op := operation;
    while op.status != Done
      invariant client.trace + WaitTrace(projectId, Polled(op, client.script))
                == old(client.trace) + WaitTrace(projectId, Polled(operation, old(client.script)))
      invariant Remaining(op, client.script) == Remaining(operation, old(client.script))
      decreases Measure(op, client.script)
    {
      ghost var before, s := client.trace, client.script;
      ghost var fetch := Get(op.name, projectId);
      WaitTraceStep(projectId, op, s);
      client.Sleep(PollInterval);
      op := client.Get(op.name, projectId);
      AppendAssoc(before, [Sleep(PollInterval)], [fetch], WaitTrace(projectId, Polled(op, client.script)));
      assert [Sleep(PollInterval)] + [fetch] == [Sleep(PollInterval), fetch];
    }
  }

  // ---------------------------------------------------------------- updates

  /**
   * `updateActivationPolicy`: one patch in the instance's own project,
   * then poll its operation in that project.
   */
  method UpdateActivationPolicy(client: Client, instance: Instance, activationPolicy: Policy)
    modifies client
    ensures client.trace == old(client.trace)
              + [Call.Patch(instance.project, instance.name, PolicyName(activationPolicy))]
              + WaitTrace(instance.project, Polled(Head(old(client.script)), Tail(old(client.script))))
    ensures client.script == Remaining(Head(old(client.script)), Tail(old(client.script)))
  {
    var response := client.Patch(instance.project, instance.name, PolicyName(activationPolicy));
    WaitForOperation(client, instance.project, response);
  }

  /** Provider calls and what is left of the script after some updates. */
  datatype Run = Run(trace: seq<Call>, rest: seq<Operation>)

  /** The per-instance updates, one after the other. */
  function Pipeline(instances: seq<Instance>, policy: Policy, script: seq<Operation>): (r: Run)
    decreases |instances|
  {
    if instances == [] then Run([], script)
    else
      var inst := instances[0];
      var op := Head(script);
      var tail := Pipeline(instances[1..], policy, Remaining(op, Tail(script)));
      Run([Call.Patch(inst.project, inst.name, PolicyName(policy))]
          + WaitTrace(inst.project, Polled(op, Tail(script))) + tail.trace,
          tail.rest)
  }

  /** The patch for each instance, in listing order. */
  function Patches(instances: seq<Instance>, policy: Policy): (r: seq<Call>)
  {
    seq(|instances|, i requires 0 <= i < |instances| =>
      Call.Patch(instances[i].project, instances[i].name, PolicyName(policy)))
  }

  lemma PatchesCons(instances: seq<Instance>, policy: Policy)
    requires instances != []
    ensures Patches(instances, policy)
            == [Call.Patch(instances[0].project, instances[0].name, PolicyName(policy))] + Patches(instances[1..], policy)
  {
    var first := Call.Patch(instances[0].project, instances[0].name, PolicyName(policy));
    var rest := Patches(instances[1..], policy);
    forall k | 0 <= k < |instances|
      ensures Patches(instances, policy)[k] == ([first] + rest)[k]
    {
      if k > 0 {
        assert instances[1..][k - 1] == instances[k];
      }
    }
  }

  /** A patch followed by polls keeps only the patch. */
  lemma KeepFirstPatch(first: Call, polls: seq<Call>, rest: seq<Call>)
    requires IsPatch(first) && Keep(polls, IsPatch) == []
    ensures Keep([first] + polls + rest, IsPatch) == [first] + Keep(rest, IsPatch)
  {
    KeepAppend([first] + polls, rest, IsPatch);
    KeepAppend([first], polls, IsPatch);
    assert [first][1..] == [];
  }

  /**
   * Exactly one patch per listed instance, in listing order, in the
   * instance's own project and with the target policy.
   */
  lemma {:induction false} OnePatchPerInstance(instances: seq<Instance>, policy: Policy, script: seq<Operation>)
    ensures Keep(Pipeline(instances, policy, script).trace, IsPatch) == Patches(instances, policy)
    ensures |Keep(Pipeline(instances, policy, script).trace, IsPatch)| == |instances|
    decreases |instances|
  {
    if instances == [] {
      assert Patches(instances, policy) == [];
    } else {
      var inst := instances[0];
      var op := Head(script);
      var polls := WaitTrace(inst.project, Polled(op, Tail(script)));
      var tail := Pipeline(instances[1..], policy, Remaining(op, Tail(script)));
      var first := Call.Patch(inst.project, inst.name, PolicyName(policy));
      assert Pipeline(instances, policy, script).trace == [first] + polls + tail.trace;
      OnePatchPerInstance(instances[1..], policy, Remaining(op, Tail(script)));
      WaitTraceShape(inst.project, Polled(op, Tail(script)));
      KeepFirstPatch(first, polls, tail.trace);
      PatchesCons(instances, policy);
    }
  }

  /** After the first instance's update, the remaining updates are what is left to do. */
  lemma PipelineAdvance(todo: seq<Instance>, policy: Policy, script: seq<Operation>, before: seq<Call>, after: seq<Call>)
    requires todo != []
    requires after == before + [Call.Patch(todo[0].project, todo[0].name, PolicyName(policy))]
                      + WaitTrace(todo[0].project, Polled(Head(script), Tail(script)))
    ensures var next := Pipeline(todo[1..], policy, Remaining(Head(script), Tail(script)));
            && after + next.trace == before + Pipeline(todo, policy, script).trace
            && next.rest == Pipeline(todo, policy, script).rest
  {
    var first := Call.Patch(todo[0].project, todo[0].name, PolicyName(policy));
    var polls := WaitTrace(todo[0].project, Polled(Head(script), Tail(script)));
    var next := Pipeline(todo[1..], policy, Remaining(Head(script), Tail(script)));
    assert Pipeline(todo, policy, script) == Run([first] + polls + next.trace, next.rest);
    AppendAssoc(before, [first], polls, next.trace);
  }

  /** `Promise.all(instances.map(...))`, one update after the other. */
  method UpdateAll(client: Client, instances: seq<Instance>, policy: Policy)
    modifies client
    ensures client.trace == old(client.trace) + Pipeline(instances, policy, old(client.script)).trace
    ensures client.script == Pipeline(instances, policy, old(client.script)).rest
  {
    ghost var whole := Pipeline(instances, policy, client.script);
    ghost var t0 := client.trace;
    var todo := instances;
    while todo != []
      invariant client.trace + Pipeline(todo, policy, client.script).trace == t0 + whole.trace
      invariant Pipeline(todo, policy, client.script).rest == whole.rest
      decreases |todo|
    {
      ghost var before, s := client.trace, client.script;
      UpdateActivationPolicy(client, todo[0], policy);
      PipelineAdvance(todo, policy, s, before, client.trace);
      todo := todo[1..];
    }
  }

  // ---------------------------------------------------------------- handlers

  /** The policy `startInstances` (`stopInstances`) lists instances by. */
  function ListedPolicy(action: Action): (r: Policy)
  {
    match action
    case StartInstances => Never
    case StopInstances => Always
  }

  /** The policy each listed instance is patched to. */
  function TargetPolicy(action: Action): (r: Policy)
  {
    match action
    case StartInstances => Always
    case StopInstances => Never
  }

  /**
   * Start lists NEVER and patches to ALWAYS, stop lists ALWAYS and patches
   * to NEVER: the patched policy is always the other one, and the two
   * actions move instances in opposite directions.
   */
  lemma PoliciesOpposite(action: Action)
    ensures TargetPolicy(action) != ListedPolicy(action)
    ensures PolicyName(TargetPolicy(action)) != PolicyName(ListedPolicy(action))
    ensures TargetPolicy(StartInstances) == ListedPolicy(StopInstances)
    ensures TargetPolicy(StopInstances) == ListedPolicy(StartInstances)
  {
  }

  /**
   * `startInstances` / `stopInstances`: parse the message, list the
   * instances in the policy to leave, patch each to the other policy and
   * report how many instances there were. Errors are returned instead of
   * logged.
   */
  method HandleEvent(client: Client, action: Action, decoded: Result<Message>, ambientProject: string)
    returns (r: Result<nat>)
    modifies client
    ensures ParsePayload(decoded, ambientProject).Err? ==>
              && r == Err(ParsePayload(decoded, ambientProject).error)
              && client.trace == old(client.trace) && client.script == old(client.script)
    ensures ParsePayload(decoded, ambientProject).Ok? ==>
              var req := ParsePayload(decoded, ambientProject).value;
              var listed := Listing(client, req.project, ListedPolicy(action), req.labels);
              var queried := old(client.trace) + [Call.List(req.project, ListFilter(ListedPolicy(action), req.labels))];
              && (listed.Err? ==>
                    r == Err(listed.error) && client.trace == queried && client.script == old(client.script))
              && (listed.Ok? ==>
                    var run := Pipeline(listed.value, TargetPolicy(action), old(client.script));
                    && r == Ok(|listed.value|)
                    && client.trace == queried + run.trace
                    && client.script == run.rest)
  {
    var payload := ParsePayload(decoded, ambientProject);
    if payload.Err? {
      return Err(payload.error);
    }
    var listed := ListInstances(client, payload.value.project, ListedPolicy(action), payload.value.labels);
    if listed.Err? {
      return Err(listed.error);
    }
    UpdateAll(client, listed.value, TargetPolicy(action));
    r := Ok(|listed.value|);
  }
}
