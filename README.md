# pocketflow-js engine, modelled in Dafny

This project models the graph-execution engine of pocketflow-js (`index.ts`).

A **node** has the following state:
- a `params` bag;
- a successor table from action labels to nodes;
- for retrying and batch nodes, an attempt counter `currentRetry` that persists between invocations.

Running a node (`_run`) goes through three stages, in order:
1. `prep(shared)`;
2. `_exec(prepRes)`, with the node's execution policy;
3. `post(shared, prepRes, execRes)`.

There are five kinds of node:
- **BaseNode** calls `exec` once.
- **FNode** retries `exec` up to `maxRetries` times and then calls `execFallback`.
- **BatchNode** applies the FNode policy to every item of `prepRes` and keeps the results in order.
- **Flow** is a node too. Its `orch` walks a graph from its start node:
  - it gives each visited node the flow's params;
  - it runs the node;
  - it follows the edge that the node's result selects: a string result is used as the action label, anything else selects `'default'`.
  - The walk ends when no edge is found.
- **BatchFlow** runs one `orch` pass per entry of its `prep` result, in order. Each pass uses the flow's params overridden by that entry. `post` runs afterwards.

The project has four modules:
- **`Js`**: the JavaScript values the engine passes around, and the few language operations it applies to them:
  - truthiness and `x || []`;
  - object spread `{ ...a, ...b }`;
  - `for..of` iteration.
- **`Successors`**: the successor table, `addSuccessor`'s last-write-wins update, and `Flow.next`'s lookup by `action || 'default'`.
- **`Retry`**: the FNode attempt loop and the BatchNode fan-out, as functions of the carried counter, with their call-count, order-preservation and failure properties.
- **`Engine`**: one class, `Node`, for all five node classes. A const `kind` says which class an instance is. The user's overrides of `prep`, `exec`, `execFallback` and `post` are oracle functions held in a const `hooks`.
  - The methods are imperative, like the source: `setParams`, `addSuccessor`, the retry loop, the batch loop, `_run`, `orch` and the BatchFlow pass loop.
  - Each method is proved against a specification function or predicate:
    - `NodeRun` specifies a node's `_run`;
    - `RetryFrom` specifies the retry loop;
    - `BatchFrom` specifies the batch loop;
    - `Walked` specifies a flow walk;
    - `PassesRan` specifies the BatchFlow passes.
  - A ghost `Store` records the counter, the params and the successor table of every node of a closed set of nodes at one moment. Each step of a walk records the store it started from and the store it left, so the contracts say what a walk does to every node: which counter each visit starts from, and which params and counters it leaves behind.

`shared`, `params` and every other payload are immutable values in the model; `shared` is threaded through the hooks, which return the state they leave. The source mutates `shared` in place. The two agree only while no payload is reachable from two places at once; the aliasing cases are listed under "## Left out". `Scenarios` builds small flows and states what the engine's entry points (`_run` of a node, `orch` and the BatchFlow's `_run`) do on them.

A walk has no cycle detection, so the model gives `orch` a fuel bound. A walk that visits more than `fuel` nodes stops with the completion `OutOfFuel`. A nested flow gets `fuel - 1`.

## Model

| member | source | states |
|---|---|---|
| Js.OrEmpty | index.ts:115 | `prep(...) \|\| []` keeps a truthy result and replaces `undefined`, `null`, `false`, `0` and `""` by an empty array |
| Js.Merge | index.ts:98 | `{ ...base, ...extra }` has the keys of both; `extra` wins wherever both have a key, and `base` supplies the rest |
| Js.MergeAbsorbsBase | index.ts:116 | BatchFlow passes `{ ...this.params, ...entry }` to `orch`, which merges `this.params` in again; the result is the same as merging once |
| Js.Spread | index.ts:116 | spreading a batch entry copies an object's fields and an array's or string's elements under their index keys; any other value copies nothing |
| Js.Elements | index.ts:116 | `for..of` visits an array's items in order and a string's characters one by one; any other value throws "prepRes is not iterable" |
| Successors.Wire | index.ts:34 | after `successors[action] = node`, the label maps to `node`, and every other label is present and bound exactly as before |
| Successors.EdgeKey | index.ts:92 | the key looked up is never empty: it is the action when the action is a non-empty string, and `'default'` when the action is missing or empty |
| Successors.Next | index.ts:91-95 | `next` finds a successor exactly when the selected key is in the table, and then it is the node registered there |
| Successors.ActionOf | index.ts:102-103 | a node's result is passed to `next` as its action exactly when it is a string |
| Successors.WireThenNext | index.ts:32-35 | after `addSuccessor(n, a)` with a non-empty label `a`, `next` with action `a` returns `n` |
| Successors.DefaultWireThenNext | index.ts:32 | an edge added without a label is the one a missing or empty action selects |
| Successors.LastWriteWins | index.ts:34 | wiring the same label twice leaves only the second node |
| Successors.WireKeepsOtherEdges | index.ts:34 | wiring one label changes no lookup that selects another key |
| Successors.EmptyLabelUnreachable | index.ts:92 | an edge wired under `""` is never followed, since an empty action selects `'default'` |
| Successors.NonStringFollowsDefault | index.ts:102-103 | a result that is not a string follows the `'default'` edge, or ends the walk when there is none |
| Retry.RetryFromMeans | index.ts:69-80 | the attempt loop (`RetryFrom`) from a given counter:<br>• at or above `maxRetries` it yields `undefined` without calling `exec`<br>• otherwise it makes one call per counter value up to the one it leaves<br>• every call before the last one threw<br>• it stops at the first success, returning its value, or at a failure of attempt `maxRetries - 1`, handing that error to the fallback |
| Retry.AllAttemptsFail | index.ts:70-73 | from counter 0, when `exec` always throws: `exec` is called `maxRetries` times, the fallback once with the last error, the fallback's outcome is the result, and the counter is left at `maxRetries - 1` |
| Retry.FirstSuccessOnAttempt | index.ts:70-71 | from counter 0, when `exec` first succeeds on attempt `j`: it is called `j` times, the fallback never, its value is returned, and the counter is left at `j - 1` |
| Retry.ReuseAfterFallback | index.ts:62-80 | the counter is never reset, so after a fallback the next invocation makes exactly one attempt |
| Retry.BatchFrom | index.ts:83 | a successful batch has exactly one result per item (which result is stated per item by `BatchResultAt`) |
| Retry.EntryCounters | index.ts:83 | each item's policy starts from the counter its predecessor left, and the first item's from the node's counter |
| Retry.BatchResultAt | index.ts:83 | result `i` of a successful batch is what the retry policy yields for `items[i]` (order preservation) |
| Retry.BatchThrowAt | index.ts:83 | a failed batch failed at some item: every earlier item succeeded, and that item's policy threw the batch's error |
| Retry.BatchFailsIffSomeItemThrows | index.ts:83 | a batch fails if and only if some item's policy throws |
| Retry.BatchIsMap | index.ts:83 | when every item succeeds at once, the batch is `items.map(exec)` in order, and the counter stays put |
| Engine.MapOnNonArray | index.ts:83 | `items.map` on a `prepRes` that is not an array throws a TypeError: reading a property of `undefined` or of `null` fails with the message that names it, and any other value has no `map` function |
| Engine.ExecStage | index.ts:40-42 | `_exec` by kind:<br>• a plain node leaves the counter alone<br>• a Flow always throws "Flow cannot exec"<br>• a batch over a non-array throws that TypeError, and a successful batch returns one result per item<br>• a retrying node whose counter is at the bound yields `undefined` |
| Engine.PostStage | index.ts:46 | `post` ends the run with a value or an error, never without completing (what precedes `post` is stated by `NodeRun` and `NodeRunPost`) |
| Engine.NodeRunPost | index.ts:43-47 | the normal path of `_run`: when `prep` and `_exec` succeed, `post` gets the params, the shared state `prep` left, `prep`'s value and `_exec`'s value; its shared state and its value or error are the run's, and the counter is the one `_exec` left |
| Engine.NodeRun | index.ts:43-47 | `_run`:<br>• an error thrown by `prep` ends the run before `exec`, with the counter untouched<br>• an error out of `_exec` ends it before `post`<br>• a plain Flow used as a node never completes normally |
| Engine.PrepEntries | index.ts:115-116 | the entries a BatchFlow loops over: `prep`'s error, none for a falsy result, and an array's own items |
| Engine.WalkEnds | index.ts:99-104 | a walk stops at the first node that completes without a successor for its action, and completes with `undefined` on the state that node left |
| Engine.WalkContinues | index.ts:99-104 | from a node that completes with a successor for its action, the walk visits that successor next, on the state the node left |
| Engine.PassAt | index.ts:116 | pass `i` of a BatchFlow handled entry `i` and walked the flow with that entry's params; after the first pass, each pass began on the state the previous one left, and the previous one completed |
| Engine.ChainAt | index.ts:99-101 | every visit of a walk got the walk's params, ran as `NodeRun` specifies from its node's counter, and left the store as specified; the first visit is of the start node, on the initial shared state and store |
| Engine.WalkTables | index.ts:91-103 | every visit followed the successor table its node had when the walk began, and the walk leaves every table as it was |
| Engine.StepKeeps | index.ts:99-101 | a visit of a node that is not a BatchFlow leaves every other node its counter and params |
| Engine.Untouched | index.ts:99-101 | across visits that are of neither `n` nor a BatchFlow, `n` keeps its counter and params |
| Engine.FirstVisitCounter | index.ts:70 | the first visit of a node, with no BatchFlow visited before it, starts from the counter the node held when the walk began |
| Engine.RevisitCounter | index.ts:70 | a node visited again, with neither it nor a BatchFlow visited in between, starts from the counter its previous visit left: the counter is carried around a loop of the graph |
| Engine.WalkLeaves | index.ts:98-100 | a walk that visits no BatchFlow leaves every node it visited with the walk's params, and every other node with the counter and params it had |
| Engine.LeftVisited | index.ts:100 | the last visit of a node leaves it the walk's params until the walk ends |
| Engine.LeftUnvisited | index.ts:99-104 | a walk that visits neither `n` nor a BatchFlow leaves `n` its counter and params |
| Engine.PassLinked | index.ts:116 | pass `i` began with the flow's params as they were then, on the store the pass before it left, or on the initial store |
| Engine.PassBase | index.ts:116 | while no earlier pass visits the BatchFlow itself or any other BatchFlow, every pass gets `{ ...flow.params, ...entry }` with the params the flow had before the loop, and the flow keeps its counter |
| Engine.PassKeeps | index.ts:116 | a pass that visits neither the flow nor a BatchFlow leaves the flow its counter and params |
| Engine.PassTables | index.ts:116 | a pass follows the successor tables of the store it began on and leaves them as they were |
| Engine.PassesTables | index.ts:116 | every pass of the loop follows the successor tables the nodes had before the loop, and the loop leaves them as they were |
| Engine.Node.Visit | index.ts:100-101 | `curr.setParams(currentParams)` then `curr._run(shared)`: the visit ran as specified from the store it began on, and the nodes hold the store it left |
| Engine.OwnProperties | index.ts:26-31 | a node instance's own properties include `setParams` (an arrow-function field) but not `_run` (a prototype method) |
| Engine.SpreadCopyCannotRun | index.ts:102-103 | a spread copy of a node never has `_run`; it has `setParams` only when it was copied from a node. The instance has both |
| Engine.Node.constructor | index.ts:62-67 | a new node has empty params, no successors, and the given `currentRetry` |
| Engine.Node.SetParams | index.ts:29-31 | `params` is replaced wholesale, so repeating the call with the same value changes nothing; no counter, no successor table and no other node's params change |
| Engine.Node.AddSuccessor | index.ts:32-36 | the table is updated as `Wire` states: last write wins, other labels are unchanged, and the node is returned |
| Engine.Node.RetryExec | index.ts:69-80 | the loop over the instance's own counter returns what `RetryFrom` specifies, makes the calls it counts, and leaves the counter where it says (so `RetryFromMeans` applies to it) |
| Engine.Node.BatchExec | index.ts:83 | the batch returns the outcome and leaves the counter that `ExecStage` specifies |
| Engine.Node.RunStep | index.ts:43-47 | `_run` of a node other than a BatchFlow returns the result and leaves the counter that `NodeRun` specifies |
| Engine.Node.Run | index.ts:114-118 | the `_run` a flow calls dispatches to BatchFlow's override or to the node's own. For every kind, successor tables are unchanged. For a non-BatchFlow node, the run is as `NodeRun` specifies from the node's own counter, it leaves the counter `NodeRun` gives, and no other node's counter and no node's params change |
| Engine.Node.RunBatchFlow | index.ts:114-118 | • an error from `prep`, or a non-iterable result, ends the run with no pass<br>• otherwise pass `i` walks the flow with entry `i` overriding the flow's params as they are when pass `i` begins, on the shared state and the store the previous pass left<br>• the nodes are left with the counters and params the last pass left<br>• the first pass that does not complete ends the run with its result<br>• when every pass completes, there is exactly one pass per entry, and `post` runs once with `prep`'s result (or `[]`) and `null` |
| Engine.Node.RunPasses | index.ts:116 | the sequential `for..of` over the entries: the passes are in entry order, each with `{ ...flow.params, ...entry }` read when it begins, on the shared state and the store the previous one left; it stops at the first pass that does not complete, and otherwise makes one pass per entry; the nodes end with the counters and params the last pass left |
| Engine.Node.Orch | index.ts:96-105 | the walk as intended:<br>• the start node first, on the store the walk began on<br>• each visited node gets `{ ...flow.params, ...extra }` and runs as `NodeRun` specifies from the counter it holds when visited<br>• each visit of a non-BatchFlow node leaves that node the counter its run left and the walk's params, and every other node as it was<br>• each next node is the successor that the table its predecessor had selects for its result, started on the shared state and the store that predecessor left<br>• it stops at the first error, or completes with `undefined` at the first node with no successor<br>• the nodes end with the counters and params the last visit left, and successor tables are unchanged |
| Engine.Node.OrchAsWritten | index.ts:96-105 | the walk as written never completes normally:<br>• the start node runs as specified, and if it fails, that is the result<br>• otherwise the next iteration throws "curr._run is not a function" on the spread copy of the successor, or "curr.setParams is not a function" when there was none<br>• the start node (when not a BatchFlow) ends with the walk's params and the counter its run left; the successor, when one was selected, gets the walk's params through the copied bound `setParams`; every other node keeps its counter and params<br>• successor tables are unchanged, and with no fuel nothing changes |
| Scenarios.VisitRun | index.ts:43-47 | a plain node whose `post` appends its name to a trail and returns an action completes with that action and the extended trail |
| Scenarios.SingleNodeFlow | index.ts:96-105 | a one-node flow completes with `undefined` as intended; as written it throws "curr.setParams is not a function" |
| Scenarios.BranchWalk | index.ts:99-104 | with `a` wired to `b` under "ok" and to `c` under "fail", and `a` returning "ok", the walk visits exactly `a` then `b` |
| Scenarios.Branch | index.ts:96-105 | that flow, built with `addSuccessor` and run by `orch`, ends with the trail `["a", "b"]` |
| Scenarios.RetryTwice | index.ts:69-80 | a node with `maxRetries = 3` whose `exec` always throws falls back on its first run after three calls of `exec` and leaves the counter at 2; its second run, from the carried counter, makes a single call, falls back again with the same result, and leaves the counter at 2 |
| Scenarios.RetryInFlow | index.ts:69-80 | a retrying start node with `maxRetries = 1` and counter 0, whose `exec` throws, falls back on its one attempt inside a walk; the walk stops on the action `"recovered"`, which has no successor, and the node keeps counter 0 and is left with the flow's params `{}` |
| Scenarios.RecordPass | index.ts:116 | one pass over a flow whose start node records `x` and has no successor runs that node once, with the flow's params overridden by the entry, and completes |
| Scenarios.FirstPass | index.ts:116 | the first pass over `[{ x: 1 }, { x: 2 }]` sees `x` as 1 and records it |
| Scenarios.SecondBase | index.ts:116 | the first pass visits neither BatchFlow, so the second pass begins with the flow's params from before the loop |
| Scenarios.RecordAfter | index.ts:116 | a pass over `{ x: 2 }`, begun with 1 on the trail, records 1 then 2 |
| Scenarios.SecondPass | index.ts:116 | the second pass sees `x` as 2, on the flow's own params, and appends it after 1 |
| Scenarios.TwoPasses | index.ts:114-118 | the passes of `_run` of a BatchFlow over `[{ x: 1 }, { x: 2 }]` makes exactly two passes, both on the flow's own params, seeing `x` as 1 and then 2 (on the corrected walk) |
| Scenarios.BatchOverEntries | index.ts:114-118 | `_run` of that BatchFlow, on the corrected walk, completes with the trail `[1, 2]` |

## Left out

- The busy-wait of `wait` seconds between attempts (index.ts:74-77) is wall-clock timing. `wait` is kept in `Kind` but has no effect.
- `async`/`await` and Promise scheduling are not modelled; every hook completes before the next stage starts. This covers:
  - the `Promise.all` in `BatchNode._exec` (index.ts:83). Items run one after another on the shared counter, so the interleaving of concurrent items on `currentRetry` is not modelled.
- `Flow.run` (index.ts:106-110) is not modelled. It neither awaits `prep` nor `orch`, and hands `post` a pending Promise, so it is concurrency. BatchFlow inherits this `run` and overrides only `_run`, so `run` on a BatchFlow makes no batch passes; `RunBatchFlow` and `RunPasses` model the `_run` override, and each pass is stated over the corrected walk `Orch`. On the walk as written (`OrchAsWritten`), every pass throws after its first node.
- `BaseNode.run` (index.ts:48-51) is not modelled separately. It differs from `_run` only by a `console.warn`.
- The `console.warn` diagnostics (index.ts:33, 49, 93) are output only and are not modelled.
- The operator overloads `'>>'` and `'-'`, and `ConditionalTransition` (index.ts:16-24, 52-56), are not modelled. They are aliases for `addSuccessor`, and their `typeof action` check cannot fail on a `string` parameter.
- The bodies of user hooks are oracle functions:
  - `exec(prepRes, attempt)` gives what the call made at each counter value returns or throws;
  - `prep` and `post` receive the node's params and return the new shared state with their value or error;
  - `exec` and `fallback` do not receive the params, so an `exec` that reads `this.params` cannot be expressed;
  - two calls of `exec` (or `fallback`) with the same item and counter give the same outcome, so a hook whose result depends on anything else (earlier calls, time) is not modelled.
- JavaScript numbers are modelled as unbounded integers. The counter comparisons of the retry loop are exact for the integer values used.
- Prototype-chain keys of plain objects (`'toString'` in `successors`, say) are not modelled; the successor table is a map from labels to nodes.
- Iteration over a string by UTF-16 unit or code point is not modelled; a string is a sequence of characters.
- Engine.Node.Orch: a walk longer than its fuel, such as a cycle in the graph (which the source would run forever), ends with `OutOfFuel` instead of running on. A nested flow gets one unit of fuel less than its parent.
- Engine.Node.Run: for a BatchFlow node, its contract states only that successor tables are unchanged. It does not state which params and counters the nested passes change; `RunBatchFlow` states what the passes do.
- Engine.Node.Orch: a visit of a nested BatchFlow is stated only to keep successor tables and to leave the store the nodes then hold; its result is not tied to its passes. `Untouched`, `FirstVisitCounter`, `RevisitCounter`, `WalkLeaves` and `PassBase` therefore speak of stretches with no BatchFlow visit.
- Aliasing of payloads is not modelled; every payload is an immutable value. So the model does not capture:
  - a `for..of` over a `prep` result that a node of the walk extends in place, which makes the source loop further (`RunBatchFlow` fixes the entries when the loop starts);
  - writes through `this.params` by one node, which the source shows to every later node of the same walk, because one `currentParams` object is handed to all of them (index.ts:98-100);
  - `exec` mutating `prepRes` before `post` sees it.
- Engine.ExecStage: for a batch node, it does not state the counter left behind. `BatchExec` ties that to `BatchFrom`, and `EntryCounters` states it per item.
- Engine.Node.OrchAsWritten: when the start node is itself a BatchFlow, it does not state that node's first run or the store it leaves, only the error that follows it and that successor tables are unchanged.

## Findings

| source | as written | input that shows it | evidently intended | confidence | as-written member | corrected member |
|---|---|---|---|---|---|---|
| index.ts:102-103 | `curr = { ...this.next(curr, action) }` replaces the successor by a plain copy of its own properties. The copy has no `_run` (a prototype method), and `{ ...undefined }` is a truthy `{}` without `setParams`. So the loop throws a TypeError on its second iteration whatever the graph, after calling `setParams` on the successor through the copied bound arrow function | a flow whose start node has no successor: `orch` throws "curr.setParams is not a function" instead of completing | `curr = this.next(curr, action)`: follow the successor itself, and stop when there is none | high, not executed | Engine.Node.OrchAsWritten | Engine.Node.Orch |
