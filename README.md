# Scheduled start/stop of cloud resources — a Dafny model

The repository deploys three Cloud Functions, each with a `startInstances`
and a `stopInstances` entry point triggered by a Pub/Sub message
`{ project?, zones?, labels? }`:

- **compute** lists Compute Engine VM instances (per zone, or with one
  aggregated query over all zones) with a server-side label filter, starts
  or stops each one, and waits for every zone operation to be `DONE`;
- **gke** lists GKE clusters (per zone, or in all locations) and, for every
  node pool, first sets autoscaling (enabled for start, disabled for stop)
  and then the node count (1 for start, 0 for stop), waiting for each
  operation to be `DONE` before the next call;
- **sql** lists the `RUNNABLE` Cloud SQL instances whose activation policy
  is the one to leave (`NEVER` for start, `ALWAYS` for stop), patches each
  to the other policy and waits for each operation to be `DONE`.

The Google client libraries are modelled as an oracle: one `Client` class
per function whose `trace` field records every provider call in order and
whose `script` field is the scripted sequence of operation records that
the provider hands back, one per start, stop, patch, autoscaling or resize call and one per
re-fetch of an operation. Listings answer from constant inventories. Once
the script is used up the oracle answers with a finished operation; this
is the hypothesis that every operation eventually reaches `DONE`, without
which the source polls for ever.

Each `waitForOperation` is a `while` loop over the oracle, proved against
`Operations.Polled`, the list of unfinished operations it inspects; the
lemma `Operations.PollingStopsAtFirstDone` shows that this is exactly the
prefix of `[op] + script` before its first `DONE`. So the number of
re-fetches is the index of that first `DONE`, and it is zero when the
operation is already done. Each handler is a method whose trace is tied to
a specification function (`Pipeline`, `PoolsRun`, `ClustersRun`), and
lemmas then show what that trace holds: one start/stop or patch per listed
instance, two node-pool changes per pool in the right order, and no resize
before the autoscaling operation is `DONE`.

Files: `common.dfy` (option/result types, `join`, `concat`,
`split("/").pop()`, filtering), `operations.dfy` (the polling core),
`payload.dfy` (`parsePayload` and the two entry points), `compute.dfy`,
`gke.dfy`, `sql.dfy`.

Later versions of the repository drain GKE node pools with taints before
resizing them. The code modelled here does not: it toggles autoscaling
before each resize (functions/gke/index.js:54-60). It has no client-side
node-pool label filtering and ignores `labels`. The model follows this
code. In compute, `.length` of the `instances` field is read
(functions/compute/index.js:98) before the null guard on line 100, so an
absent field throws. In sql, `.length` of `items` is read with no guard
at all (functions/sql/index.js:85). The model returns both errors.

## Model

| member | source | states |
|---|---|---|
| `Common.LastSegmentIsSuffix` | functions/compute/index.js:11 | `split("/").pop()`: the result has no `/`, is a suffix of the input, and is either the whole input or preceded by a `/` |
| `Common.LastSegment` | functions/compute/index.js:11 | `split("/").pop()`, computed from the end of the string; its properties are those of `Common.LastSegmentIsSuffix` |
| `Common.LastSegmentOfPath` | functions/compute/index.js:26 | a zone URL `…/zones/Z` with `/`-free `Z` yields exactly `Z` |
| `Common.LastSegmentOfName` | functions/compute/index.js:51 | a bare zone name without `/` is passed through unchanged |
| `Common.JoinLength` | functions/compute/index.js:130 | joining n parts adds exactly n-1 separators and nothing else |
| `Common.JoinSnoc` | functions/sql/index.js:112 | pushing one more part adds one separator and that part at the end |
| `Common.JoinStartsWithFirst` | functions/sql/index.js:112 | the joined string starts with the first part |
| `Common.Join` | functions/compute/index.js:130 | `filters.join(sep)`: the parts with the separator between consecutive ones; characterised by `Common.JoinLength`, `Common.JoinSnoc` and `Common.JoinStartsWithFirst` |
| `Common.ConcatLength` | functions/compute/index.js:79 | a concatenation is as long as all its pieces together |
| `Common.ConcatSnoc` | functions/gke/index.js:84 | `acc = acc.concat(l)` extends the concatenation by `l` |
| `Common.Concat` | functions/compute/index.js:79 | the left-to-right `acc.concat(l)` over a sequence of lists; characterised by `Common.ConcatLength` and `Common.ConcatSnoc` |
| `Operations.PollingStopsAtFirstDone` | functions/compute/index.js:6-14 | the poller inspects exactly the operations before the first `DONE` of `[op] + script`, makes that many re-fetches (none when `op` is done), and consumes that many script entries |
| `Operations.Polled` | functions/compute/index.js:7-13 | the unfinished operations the polling loop sees, one per re-fetch; characterised by `Operations.PollingStopsAtFirstDone` |
| `Operations.Remaining` | functions/compute/index.js:7-13 | the scripted answers left once the polling loop has seen `DONE`; characterised by `Operations.PollingStopsAtFirstDone` |
| `Payload.ParsePayload` | functions/compute/index.js:107-120 | a decoding failure becomes `Invalid Pub/Sub message: ` + error; an absent or empty project is replaced by the ambient one; zones and labels are kept |
| `Payload.Unrestricted` | functions/compute/index.js:67 | `!xs` or `xs.length === 0` (for labels `Object.keys(labels).length === 0`, line 123): an absent or empty zone list or label object; it selects the all-zones branch of `Compute.ListingDispatch` and the no-filter case of `Compute.CreateLabelFilter` |
| `Payload.MissingProject` | functions/compute/index.js:116 | `!payload.project`: the project is absent or empty; `Payload.ParsePayload` replaces it with the ambient project exactly then |
| `Compute.Client.List` | functions/compute/index.js:77 | one `list` call recorded per zone query, answering that zone's instances |
| `Compute.Client.AggregatedListAsync` | functions/compute/index.js:93-96 | one aggregated query recorded, answering all zone entries |
| `Compute.Client.Transition` | functions/compute/index.js:24-28 | one start (or stop) call recorded; the next scripted operation is returned |
| `Compute.Client.Wait` | functions/compute/index.js:8-12 | one `wait` call recorded; the next scripted operation is returned |
| `Compute.TransitionCall` | functions/compute/index.js:24-28 | the `start` call for the start handler and the `stop` call (lines 49-53) for the stop handler, with the project, zone segment and instance name; counted per instance by `Compute.OneTransitionPerInstance` |
| `Compute.CreateLabelFilter` | functions/compute/index.js:122-131 | `null` exactly when labels are absent or empty, otherwise the `(labels.K = "V")` clauses in entry order joined by ` AND ` |
| `Compute.LabelFilterShape` | functions/compute/index.js:126-130 | for n entries the filter starts with the first clause, each further entry adds ` AND ` and its clause, and it holds n-1 separators |
| `Compute.SingleLabelFilter` | functions/compute/index.js:128 | one label gives `(labels.K = "V")` and no separator |
| `Compute.LabelFilter` | functions/compute/index.js:122-131 | the filter `createLabelFilter` returns: absent for absent or empty labels, else the clauses joined by ` AND `; the loop is proved equal to it in `Compute.CreateLabelFilter` |
| `Compute.Clause` | functions/compute/index.js:128 | the clause `(labels.K = "V")` of one label |
| `Compute.Clauses` | functions/compute/index.js:127-129 | one clause per label entry, in entry order; the push loop is proved equal to it in `Compute.CreateLabelFilter` |
| `Compute.FlattenIsConcat` | functions/compute/index.js:93-104 | the aggregated result is the in-order concatenation of every zone's instances, skipping empty lists changes nothing, and it fails with the `TypeError` exactly when some entry lacks `instances` |
| `Compute.FlattenErrSticks` | functions/compute/index.js:98 | once reading `.length` of an absent list has thrown, later entries do not matter |
| `Compute.Flatten` | functions/compute/index.js:93-104 | the aggregated loop over zone entries: throws at the first entry without `instances`, else concatenates the non-empty lists; characterised by `Compute.FlattenIsConcat` |
| `Compute.ListAllInstances` | functions/compute/index.js:85-105 | one aggregated query with the label filter and `maxResults` 25; the result is the flattened entries |
| `Compute.ListingDispatch` | functions/compute/index.js:66-83 | without zones: one aggregated query and no per-zone query; with zones: one `list` per zone in zone order, and the result is as long as all zone lists together |
| `Compute.ListInstances` | functions/compute/index.js:66-83 | the trace gains exactly the listing queries, the script is untouched, and the result is the listing |
| `Compute.ZoneCalls` | functions/compute/index.js:71-80 | one `list` call per zone, in zone order, each with the label filter |
| `Compute.ListingCalls` | functions/compute/index.js:66-83 | the aggregated query when zones are unrestricted, else the per-zone calls; characterised by `Compute.ListingDispatch` |
| `Compute.Listing` | functions/compute/index.js:66-83 | the flattened aggregated entries when zones are unrestricted, else the zone lists concatenated in zone order; characterised by `Compute.ListingDispatch` and `Compute.FlattenIsConcat` |
| `Compute.WaitTraceShape` | functions/compute/index.js:8-12 | one `wait` per re-fetch, addressed to the operation's name, the project and the last segment of the operation's zone; no start or stop among them |
| `Compute.WaitTrace` | functions/compute/index.js:8-12 | one `wait` per unfinished operation seen, addressed to its name, the project and its zone's last segment; characterised by `Compute.WaitTraceShape` |
| `Compute.WaitForOperation` | functions/compute/index.js:6-14 | the trace gains one `wait` per unfinished operation before the first `DONE`, and the script loses exactly the consumed records |
| `Compute.OneTransitionPerInstance` | functions/compute/index.js:21-33 | exactly one start (stop) call per listed instance, in listing order, with the instance's name and the last segment of its zone |
| `Compute.Pipeline` | functions/compute/index.js:21-32 | the per-instance pipelines run one after the other: start (stop) in the zone's last segment, then that operation's polls; characterised by `Compute.OneTransitionPerInstance` |
| `Compute.PipelineAdvance` | functions/compute/index.js:22-31 | after one instance's start and polls, the rest of the pipelines is what remains |
| `Compute.KeepFirstTransition` | functions/compute/index.js:24-30 | a start followed by polls keeps only the start |
| `Compute.TransitionsCons` | functions/compute/index.js:22 | the per-instance calls of a list are the first one's call followed by the rest's |
| `Compute.RunPipelines` | functions/compute/index.js:21-57 | the trace gains each instance's stop (start) call followed by the polls of its operation, instance after instance, in the sequential model's order |
| `Compute.HandleEvent` | functions/compute/index.js:16-64 | an invalid message or a failed listing is the error; otherwise listing, then the pipelines, and the reported count is the number of listed instances |
| `Gke.NamesEndWithResource` | functions/gke/index.js:52 | the node-pool name `projects/{p}/locations/{loc}/clusters/{c}/nodePools/{pool}` and the operation name end in the pool's and the operation's own names |
| `Gke.DistinctResourceNames` | functions/gke/index.js:52 | distinct node pools of a cluster get distinct resource names, and distinct operations in one location get distinct operation names |
| `Gke.Parent` | functions/gke/index.js:81 | the parent `projects/{p}/locations/{zone}` of a per-zone listing; the all-locations parent is covered by `Gke.ListingDispatch` |
| `Gke.OperationName` | functions/gke/index.js:9 | the full name `projects/{p}/locations/{loc}/operations/{name}` `getOperation` is called with |
| `Gke.NodePoolName` | functions/gke/index.js:52 | the full node-pool name both node-pool changes address |
| `Gke.Client.ListClusters` | functions/gke/index.js:80-82 | one `listClusters` call recorded, answering the clusters under that parent |
| `Gke.Client.SetNodePoolAutoscaling` | functions/gke/index.js:54-59 | one autoscaling call recorded; the next scripted operation is returned |
| `Gke.Client.SetNodePoolSize` | functions/gke/index.js:62-65 | one resize call recorded; the next scripted operation is returned |
| `Gke.Client.Sleep` | functions/gke/index.js:105 | one opaque pause recorded |
| `Gke.Client.GetOperation` | functions/gke/index.js:8-10 | one `getOperation` recorded; the next scripted operation is returned |
| `Gke.WaitTraceShape` | functions/gke/index.js:6-11 | each poll is a 5000 ms sleep then a `getOperation` of `projects/{p}/locations/{loc}/operations/{name}`; no node-pool change among them |
| `Gke.WaitTrace` | functions/gke/index.js:7-10 | per unfinished operation seen, a 5000 ms sleep then a `getOperation` of its full name; characterised by `Gke.WaitTraceShape` |
| `Gke.WaitForOperation` | functions/gke/index.js:5-12 | the trace gains one sleep and one fetch per unfinished operation before the first `DONE` |
| `Gke.MutationsAt` | functions/gke/index.js:51-67 | pool j's autoscaling change (enabled iff size > 0) is the 2j-th change and its resize to the size the (2j+1)-th |
| `Gke.PoolMutations` | functions/gke/index.js:52-66 | one pool's steps change it exactly twice, autoscaling then size |
| `Gke.PoolsMutations` | functions/gke/index.js:51-67 | the changes across a cluster's pools are the autoscaling/size pairs in pool order |
| `Gke.ResizeAfterAutoscalingDone` | functions/gke/index.js:54-66 | in a pool's steps the autoscaling call opens, its polls follow and end at its first `DONE`, and only then comes the resize |
| `Gke.PoolRunCompose` | functions/gke/index.js:54-66 | the four calls of one pool, issued in order, make up its steps |
| `Gke.PoolAdvance` | functions/gke/index.js:51 | after one pool's steps, the remaining pools are what is left |
| `Gke.PoolRun` | functions/gke/index.js:52-66 | one pool's four steps: autoscaling, its polls, resize, its polls; characterised by `Gke.PoolMutations` and `Gke.ResizeAfterAutoscalingDone` |
| `Gke.PoolsRun` | functions/gke/index.js:51-67 | the pools' steps one after the other, as the `for` loop issues them; characterised by `Gke.PoolsMutations` and `Gke.MutationsAt` |
| `Gke.ResizeClusterNodePool` | functions/gke/index.js:50-68 | the trace gains, pool by pool, autoscaling, its polls, resize, its polls |
| `Gke.ListingDispatch` | functions/gke/index.js:70-88 | without zones: one listing under `projects/{p}/locations/-`; with zones: one per zone under `projects/{p}/locations/{zone}` in zone order, the result as long as all lists together |
| `Gke.ListClusters` | functions/gke/index.js:70-88 | the trace gains exactly the listing queries and the result is the listing |
| `Gke.ZoneCalls` | functions/gke/index.js:79-85 | one listing under `projects/{p}/locations/{zone}` per zone, in zone order |
| `Gke.ListingCalls` | functions/gke/index.js:70-88 | the single all-locations listing when zones are unrestricted, else the per-zone listings; characterised by `Gke.ListingDispatch` |
| `Gke.Listing` | functions/gke/index.js:70-88 | the clusters under `-` when zones are unrestricted, else the zone lists concatenated in zone order; characterised by `Gke.ListingDispatch` |
| `Gke.TargetSize` | functions/gke/index.js:21 | start resizes to 1 and stop to 0 |
| `Gke.ClustersMutations` | functions/gke/index.js:18-23 | in the sequential model, the node-pool changes of all clusters are their pools' autoscaling/size pairs, cluster by cluster (the order across clusters is the model's, see "Left out") |
| `Gke.ClustersRun` | functions/gke/index.js:18-23 | every cluster's pool steps, one cluster after the other (the sequential model's order); characterised by `Gke.ClustersMutations` |
| `Gke.MutationsTargetSize` | functions/gke/index.js:39 | every change of a start sets 1 node with autoscaling enabled, of a stop 0 nodes with autoscaling disabled |
| `Gke.PoolMutationsSize` | functions/gke/index.js:57-64 | every resize of a cluster's pools uses the size and every autoscaling flag is size > 0 |
| `Gke.ResizeClusters` | functions/gke/index.js:18-41 | the trace gains every cluster's pool steps, cluster after cluster, in the sequential model's order |
| `Gke.HandleEvent` | functions/gke/index.js:14-48 | an invalid message is the error; otherwise listing, then all clusters resized to the action's size, and the count is the number of listed clusters |
| `Sql.Client.List` | functions/sql/index.js:84 | one `list` call recorded, answering the `items` of that project and filter |
| `Sql.Client.Patch` | functions/sql/index.js:64-72 | one patch recorded; the next scripted operation is returned |
| `Sql.Client.Sleep` | functions/sql/index.js:115 | one opaque pause recorded |
| `Sql.Client.Get` | functions/sql/index.js:12-15 | one `get` recorded; the next scripted operation is returned |
| `Sql.PolicyName` | functions/sql/index.js:24-52 | the strings `"ALWAYS"` and `"NEVER"` the handlers list by and patch to; `Sql.ListFiltersDiffer` relies on them differing |
| `Sql.CreateLabelFilter` | functions/sql/index.js:104-113 | `""` for absent or empty labels, otherwise the `(settings.userLabels.K = "V")` clauses in entry order joined by one space |
| `Sql.LabelFilterShape` | functions/sql/index.js:108-112 | for n entries the filter is non-empty, starts with the first clause, each further entry adds a space and its clause, and it holds n-1 separators |
| `Sql.LabelFilter` | functions/sql/index.js:104-113 | the filter `createLabelFilter` returns: `""` for absent or empty labels, else the clauses joined by one space; the loop is proved equal to it in `Sql.CreateLabelFilter` |
| `Sql.Clause` | functions/sql/index.js:110 | the clause `(settings.userLabels.K = "V")` of one label |
| `Sql.Clauses` | functions/sql/index.js:109-111 | one clause per label entry, in entry order; the push loop is proved equal to it in `Sql.CreateLabelFilter` |
| `Sql.ListFilterWithoutLabels` | functions/sql/index.js:79-81 | without labels the filter is the policy and `RUNNABLE` clauses alone and ends with a space |
| `Sql.ListFiltersDiffer` | functions/sql/index.js:24-46 | the start listing (`NEVER`) and the stop listing (`ALWAYS`) never send the same filter |
| `Sql.ListFilter` | functions/sql/index.js:79-81 | the listing filter: the activation-policy clause, the `RUNNABLE` clause, then the label filter; characterised by `Sql.ListFilterWithoutLabels` and `Sql.ListFiltersDiffer` |
| `Sql.ComposeFilter` | functions/sql/index.js:79-81 | the template: the activation-policy clause, the `RUNNABLE` clause, a space, then the given label filter; `Sql.ListInstances` sends it with the loop's label filter |
| `Sql.ListInstances` | functions/sql/index.js:77-87 | one listing with the composed filter; absent `items` is the `TypeError` |
| `Sql.Listing` | functions/sql/index.js:84-86 | the `items` of the one listing, or the `TypeError` when they are absent; `Sql.ListInstances` returns exactly this |
| `Sql.WaitTraceShape` | functions/sql/index.js:10-16 | each poll is a 5000 ms sleep then a `get` of the operation's name in the project; no patch among them |
| `Sql.WaitTrace` | functions/sql/index.js:11-15 | per unfinished operation seen, a 5000 ms sleep then a `get` of its name in the project; characterised by `Sql.WaitTraceShape` |
| `Sql.WaitTraceStep` | functions/sql/index.js:10-16 | one poll of an unfinished operation adds one sleep and one fetch |
| `Sql.WaitForOperation` | functions/sql/index.js:9-17 | the trace gains one sleep and one `get` per unfinished operation before the first `DONE` |
| `Sql.UpdateActivationPolicy` | functions/sql/index.js:63-75 | exactly one patch in `instance.project` with the target policy, then the polls of its operation in that project |
| `Sql.PatchesCons` | functions/sql/index.js:28 | the patches of a list are the first instance's patch followed by the rest's |
| `Sql.KeepFirstPatch` | functions/sql/index.js:63-74 | a patch followed by polls keeps only the patch |
| `Sql.OnePatchPerInstance` | functions/sql/index.js:27-32 | exactly one patch per listed instance, in listing order, in the instance's project with the target policy |
| `Sql.Pipeline` | functions/sql/index.js:27-32 | the per-instance updates run one after the other: patch, then that operation's polls; characterised by `Sql.OnePatchPerInstance` |
| `Sql.PipelineAdvance` | functions/sql/index.js:50-53 | after one instance's update, the remaining updates are what is left |
| `Sql.UpdateAll` | functions/sql/index.js:27-54 | the trace gains each instance's update, instance after instance, in the sequential model's order |
| `Sql.PoliciesOpposite` | functions/sql/index.js:22-52 | start lists `NEVER` and patches `ALWAYS`, stop lists `ALWAYS` and patches `NEVER`: the patched policy always differs from the listed one |
| `Sql.ListedPolicy` | functions/sql/index.js:22-25 | the policy a handler lists by: `NEVER` for start (line 24), `ALWAYS` for stop (line 46) |
| `Sql.TargetPolicy` | functions/sql/index.js:28-31 | the policy a handler patches to: `ALWAYS` for start (line 30), `NEVER` for stop (line 52) |
| `Sql.HandleEvent` | functions/sql/index.js:19-61 | an invalid message or absent `items` is the error; otherwise one listing, one update per instance, and the count is the number of listed instances |
| `Gke.WaitTraceStep` | functions/gke/index.js:6-11 | one poll of an unfinished operation adds one sleep and one fetch |
| `Compute.WaitTraceStep` | functions/compute/index.js:7-12 | one re-fetch of an unfinished operation adds one `wait` |

## Left out

- Concurrency: `Promise.all` runs the per-resource pipelines concurrently (functions/compute/index.js:21-32, functions/gke/index.js:18-23, functions/sql/index.js:27-32). The model runs them one after the other, in listing order.
- Order across resources: any order the model states across resources is the order of the sequential run, not one the source guarantees. This covers the traces of `Compute.RunPipelines`, `Gke.ResizeClusters` and `Sql.UpdateAll`, and the cluster-by-cluster order of `Gke.ClustersMutations` and `Gke.ClustersRun`. For example, with two clusters the source issues both autoscaling calls before either resize. The order within one resource does hold in the source; for a cluster's pools it is `Gke.PoolsMutations`. So does the listing order of the first call per resource, in `Compute.OneTransitionPerInstance` and `Sql.OnePatchPerInstance`, because each `map` callback issues that call synchronously.
- Provider failures: a rejected provider call ends the whole invocation in the source. The oracle never rejects, so only the two `TypeError` paths and the invalid-message path are modelled as errors.
- The top-level `try/catch` that logs and swallows every error: the handlers return the error as `Err` instead. `console.log` output is not modelled.
- Base64 and JSON decoding: the decoder's outcome, a message or an error text, is an input to `Payload.ParsePayload`. `getProjectId` is an input too (`ambientProject`) and is not recorded in the trace.
- `Payload.ParsePayload`: `!payload.project` is modelled as absent or empty; JavaScript's other falsy values cannot occur for a string field.
- Label objects are modelled as the `Object.entries` sequence. JavaScript's ordering of integer-like keys before other keys is not modelled.
- Pagination: `aggregatedListAsync` and `list` return every page at once. `maxResults: 25` is recorded in the call but pages are not modelled.
- The `sleep(5000)` timer is an opaque `Sleep` event in the trace. No timing is modelled.
- Unbounded polling: the oracle answers `DONE` once its script is used up, so every poll terminates. A provider that never reports `DONE` is not modelled.
- GKE listings: a parent the inventory does not know answers an empty `clusters` list. An absent `clusters` field, which would throw at `clusters.length` (functions/gke/index.js:75, 83), is not modelled. This is a modelling assumption, not something the source shows. The assumption is that the cluster client, which uses the default gRPC transport, always returns the list, while `instances` (compute, whose null guard at functions/compute/index.js:100 expects a missing list) and `items` (sql, switched to REST at functions/sql/index.js:4) may be missing.
- The implicit global loop variables `zone` and `nodePool` only matter under concurrent interleaving, so they are not modelled.
- The infrastructure file pulumi/index.ts has no behavioural logic and is not part of this model.
- Drain taints and client-side node-pool label filtering do not appear in the GKE code, so they are not modelled.
