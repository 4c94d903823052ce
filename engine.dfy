/** The node and flow engine: nodes with a params bag and a successor table, the
    `_run` lifecycle (prep, exec with its policy, post), the retry counter a node
    carries between invocations, and the walk a flow makes along action labels.

    One class, `Node`, stands for the five classes of the engine; its `kind` says
    which of them the instance is (plain `BaseNode`, retrying `FNode`, `BatchNode`,
    `Flow`, `BatchFlow`). The user's overrides of `prep`, `exec`, `execFallback`
    and `post` are the oracles in its `hooks`. */
module Engine {
  import opened Js
  import opened Successors
  import opened Retry

  /** What a `prep` or `post` hook did: the shared state it left (hooks mutate
      `shared` in place) and the value it returned or the error it threw. */
  datatype HookResult = HookResult(shared: Shared, outcome: Outcome)

  /** The user's overrides. `prep` and `post` see the node's `params` as they are
      when the node runs; `exec(prepRes, attempt)` is what the call made while
      the node's `currentRetry` is `attempt` returns or throws (a plain node has
      no counter: its one call is attempt 0). */
  datatype Hooks = Hooks(
    prep: (Params, Shared) -> HookResult,
    exec: (Value, int) -> Outcome,
    fallback: (Value, Value) -> Outcome,
    post: (Params, Shared, Value, Value) -> HookResult)

  function NoPrep(params: Params, shared: Shared): HookResult {
    HookResult(shared, Ok(Undefined))
  }

  function NoExec(prepRes: Value, attempt: int): Outcome {
    Ok(Undefined)
  }

  /** The default `execFallback` rethrows the error of the last attempt. */
  function Rethrow(prepRes: Value, error: Value): Outcome {
    Throw(error)
  }

  function NoPost(params: Params, shared: Shared, prepRes: Value, execRes: Value): HookResult {
    HookResult(shared, Ok(Undefined))
  }

  /** The hooks a node has when the user overrides none of them. */
  const DefaultHooks: Hooks := Hooks(NoPrep, NoExec, Rethrow, NoPost)

  /** Which class of the engine a node is, with that class's constructor arguments. */
  datatype Kind =
    | Leaf                                     // BaseNode
    | Retrying(maxRetries: int, wait: int)     // FNode
    | Batch(maxRetries: int, wait: int)        // BatchNode
    | Flow(start: Node)                        // Flow
    | BatchFlow(start: Node)                   // BatchFlow

  /** How a run ended: with a value, with a thrown error, or (for a walk that
      did not end within the fuel given to the model) not at all. */
  datatype Completion = Normal(value: Value) | Abrupt(error: Value) | OutOfFuel

  datatype RunResult = RunResult(shared: Shared, completion: Completion)

  function Completed(o: Outcome): (c: Completion)
    ensures o.Ok? <==> c.Normal?
    ensures o.Ok? ==> c.value == o.value
    ensures o.Throw? ==> c == Abrupt(o.error)
  {
    match o
    case Ok(v) => Normal(v)
    case Throw(e) => Abrupt(e)
  }

  /** The error `Flow.exec` throws. */
  const FlowCannotExec: Value := Error("Error", "Flow cannot exec")

  /** The TypeError of `items.map(...)` on a `prepRes` that is not an array. */
  function MapOnNonArray(items: Value): (e: Value)
    ensures e.Error? && e.name == "TypeError"
    // reading a property of `undefined` or `null` fails before `map` is looked up
    ensures items.Undefined? ==> e.message == "Cannot read properties of undefined (reading 'map')"
    ensures items.Null? ==> e.message == "Cannot read properties of null (reading 'map')"
    ensures !(items.Undefined? || items.Null?) ==> e.message == "items.map is not a function"
  {
    match items
    case Undefined => TypeError("Cannot read properties of undefined (reading 'map')")
    case Null => TypeError("Cannot read properties of null (reading 'map')")
    case _ => TypeError("items.map is not a function")
  }

  /** `_exec` of a node that is not a BatchFlow, started with `currentRetry ==
      counter`: its outcome and the counter it leaves behind. */
  function ExecStage(kind: Kind, hooks: Hooks, counter: int, prepRes: Value): (r: (Outcome, int))
    requires !kind.BatchFlow?
    ensures !(kind.Retrying? || kind.Batch?) ==> r.1 == counter
    ensures kind.Flow? ==> r.0 == Throw(FlowCannotExec)
    ensures kind.Batch? && !prepRes.Arr? ==> r.0 == Throw(MapOnNonArray(prepRes)) && r.1 == counter
    ensures kind.Batch? && r.0.Ok? ==> prepRes.Arr? && r.0.value.Arr? && |r.0.value.items| == |prepRes.items|
    ensures kind.Retrying? && counter >= kind.maxRetries ==> r == (Ok(Undefined), counter)
  {
    match kind
    case Leaf => (hooks.exec(prepRes, 0), counter)
    case Retrying(maxRetries, _) =>
      var a := RetryFrom(counter, maxRetries, prepRes, hooks.exec, hooks.fallback);
      (a.outcome, a.counter)
    case Batch(maxRetries, _) =>
      if !prepRes.Arr? then (Throw(MapOnNonArray(prepRes)), counter)
      else
        var b := BatchFrom(counter, maxRetries, prepRes.items, hooks.exec, hooks.fallback);
        (if b.outcome.Ok? then Ok(Arr(b.outcome.value)) else Throw(b.outcome.error), b.counter)
    case Flow(_) => (Throw(FlowCannotExec), counter)
  }

  /** `post(shared, prepRes, execRes)` as the last stage of a run. */
  function PostStage(hooks: Hooks, params: Params, shared: Shared, prepRes: Value, execRes: Value): (r: RunResult)
    ensures r.completion != OutOfFuel
  {
    var q := hooks.post(params, shared, prepRes, execRes);
    RunResult(q.shared, Completed(q.outcome))
  }

  /** `_run` of a node that is not a BatchFlow: prep, then `_exec`, then post,
      each result threaded into the next; an error of any stage ends the run. */
  function NodeRun(kind: Kind, hooks: Hooks, params: Params, counter: int, shared: Shared): (r: (RunResult, int))
    requires !kind.BatchFlow?
    ensures r.0.completion != OutOfFuel
    // an error in prep propagates: exec and post never run, the counter is untouched
    ensures var p := hooks.prep(params, shared);
            p.outcome.Throw? ==> r == (RunResult(p.shared, Abrupt(p.outcome.error)), counter)
    // an error out of `_exec` propagates: post never runs
    ensures var p := hooks.prep(params, shared);
            p.outcome.Ok? && ExecStage(kind, hooks, counter, p.outcome.value).0.Throw? ==>
              r.0 == RunResult(p.shared, Abrupt(ExecStage(kind, hooks, counter, p.outcome.value).0.error))
    // a plain Flow used as a node never completes: its exec always throws
    ensures kind.Flow? ==> r.0.completion.Abrupt?
  {
    var p := hooks.prep(params, shared);
    if p.outcome.Throw? then (RunResult(p.shared, Abrupt(p.outcome.error)), counter)
    else
      var prepRes := p.outcome.value;
      var (execRes, counter') := ExecStage(kind, hooks, counter, prepRes);
      if execRes.Throw? then (RunResult(p.shared, Abrupt(execRes.error)), counter')
      else (PostStage(hooks, params, p.shared, prepRes, execRes.value), counter')
  }

  /** The normal path of `_run`: when `prep` and `_exec` both complete, `post`
      receives the shared state `prep` left, `prepRes` and `execRes`; the shared
      state it leaves is the run's, its value or error is the run's completion,
      and the counter is the one `_exec` left. */
  lemma NodeRunPost(kind: Kind, hooks: Hooks, params: Params, counter: int, shared: Shared)
    requires !kind.BatchFlow?
    requires hooks.prep(params, shared).outcome.Ok?
    requires ExecStage(kind, hooks, counter, hooks.prep(params, shared).outcome.value).0.Ok?
    ensures var p := hooks.prep(params, shared);
            var e := ExecStage(kind, hooks, counter, p.outcome.value);
            var q := hooks.post(params, p.shared, p.outcome.value, e.0.value);
            var r := NodeRun(kind, hooks, params, counter, shared);
            && r.0.shared == q.shared
            && (q.outcome.Ok? ==> r.0.completion == Normal(q.outcome.value))
            && (q.outcome.Throw? ==> r.0.completion == Abrupt(q.outcome.error))
            && r.1 == e.1
  {
  }

  /** The batch entries a BatchFlow iterates: `(await prep(shared)) || []`, or the
      error that prep or `for..of` throws. */
  function PrepEntries(p: HookResult): (r: Result<seq<Value>>)
    ensures p.outcome.Throw? ==> r == Throw(p.outcome.error)
    ensures p.outcome.Ok? && !Truthy(p.outcome.value) ==> r == Ok([])
    ensures p.outcome.Ok? && p.outcome.value.Arr? ==> r == Ok(p.outcome.value.items)
  {
    if p.outcome.Throw? then Throw(p.outcome.error) else Elements(OrEmpty(p.outcome.value))
  }

  /** The retry counter, the params and the successor table of every node of a
      set, at one moment. */
  datatype Store = Store(counters: map<Node, int>, params: map<Node, Params>,
                         tables: map<Node, map<string, Node>>)

  /** The counters, params and successor tables the nodes of `U` hold now. */
  ghost function Now(U: set<Node>): Store
    reads U
  {
    Store(map n | n in U :: n.currentRetry, map n | n in U :: n.params, map n | n in U :: n.successors)
  }

  /** `s` holds what the nodes of `U` hold now. */
  ghost predicate Snapshot(U: set<Node>, s: Store)
    reads U
  {
    s == Now(U)
  }

  /** One node visit of a flow walk: the node, its successor table, the params it
      was given, the shared state and the counters and params of all nodes when
      it started, its run, and the counters and params of all nodes when the run
      returned. */
  datatype Step = Step(node: Node, successors: map<string, Node>, params: Params, sharedIn: Shared,
                       before: Store, result: RunResult, after: Store)

  /** The counter the visit started from: the one its node held. */
  function Counter(s: Step): int
    requires s.node in s.before.counters
  {
    s.before.counters[s.node]
  }

  /** A visit followed the successor table its node had in the store it
      started from, and left every table as it was; a visit of a node that is
      not a BatchFlow ran as `NodeRun` says, from the counter its node held. */
  predicate RanAsSpecified(s: Step) {
    && s.node in s.before.counters && s.node in s.before.tables
    && s.successors == s.before.tables[s.node]
    && s.after.tables == s.before.tables
    && (!s.node.kind.BatchFlow? ==> s.result == NodeRun(s.node.kind, s.node.hooks, s.params, Counter(s), s.sharedIn).0)
  }

  /** After a visit of a node that is not a BatchFlow, the node holds the counter
      its run left and the params it was given, and every other node what it
      held before (the nested passes of a BatchFlow may change any node). */
  predicate LeftAsSpecified(s: Step)
    requires s.node in s.before.counters
  {
    !s.node.kind.BatchFlow? ==>
      s.after == Store(s.before.counters[s.node := NodeRun(s.node.kind, s.node.hooks, s.params, Counter(s), s.sharedIn).1],
                       s.before.params[s.node := s.params], s.before.tables)
  }

  /** The store a walk begun on `s0` left. */
  function StoreAfter(s0: Store, walk: seq<Step>): Store {
    if |walk| == 0 then s0 else walk[|walk| - 1].after
  }

  /** The walk went from `a` to `b`: `a` completed normally, `b` is the successor
      `next` picked for `a`'s result, and `b` started on the shared state and
      the store `a` left. */
  predicate Followed(a: Step, b: Step) {
    && a.result.completion.Normal?
    && Next(a.successors, ActionOf(a.result.completion.value)) == Some(b.node)
    && b.sharedIn == a.result.shared
    && b.before == a.after
  }

  /** The walk stopped after `s`: it completed normally and `next` found no successor. */
  predicate Ended(s: Step) {
    s.result.completion.Normal? && Next(s.successors, ActionOf(s.result.completion.value)) == None
  }

  /** `walk` is a walk of a flow from `start`, begun on `shared` and the store
      `s0`, that gives every node `params`: each visit ran as specified, and
      each next node is the one its predecessor's result selected, started on
      the shared state and the store it left. */
  predicate Chain(start: Node, shared: Shared, params: Params, s0: Store, walk: seq<Step>)
    decreases |walk|
  {
    |walk| > 0 ==>
      var n := |walk| - 1;
      && Chain(start, shared, params, s0, walk[..n])
      && walk[n].params == params && RanAsSpecified(walk[n]) && LeftAsSpecified(walk[n])
      && (n == 0 ==> walk[n].node == start && walk[n].sharedIn == shared && walk[n].before == s0)
      && (n > 0 ==> Followed(walk[n - 1], walk[n]))
  }

  /** A chain grows by a step that follows its last one. */
  lemma ChainExtend(start: Node, shared: Shared, params: Params, s0: Store, walk: seq<Step>, step: Step)
    requires Chain(start, shared, params, s0, walk)
    requires |walk| == 0 ==> step.node == start && step.sharedIn == shared && step.before == s0
    requires |walk| > 0 ==> Followed(walk[|walk| - 1], step)
    requires step.params == params && RanAsSpecified(step) && LeftAsSpecified(step)
    ensures Chain(start, shared, params, s0, walk + [step])
  {
    assert (walk + [step])[..|walk|] == walk;
  }

  /** Every visit of a chain got its params and ran as specified; the first
      visited `start` on `shared` and `s0`. */
  lemma {:induction false} ChainAt(start: Node, shared: Shared, params: Params, s0: Store, walk: seq<Step>, i: nat)
    requires Chain(start, shared, params, s0, walk) && i < |walk|
    ensures walk[i].params == params && RanAsSpecified(walk[i]) && LeftAsSpecified(walk[i])
    ensures i == 0 ==> walk[i].node == start && walk[i].sharedIn == shared && walk[i].before == s0
    decreases |walk|
  {
    if i < |walk| - 1 {
      ChainAt(start, shared, params, s0, walk[..|walk| - 1], i);
    }
  }

  /** `walk` and `res` are a whole walk of that kind, stopped after `fuel`
      steps: it ends with the first error, with the first node that has no
      successor for its action (completing with `undefined`), or without fuel. */
  predicate Walked(start: Node, shared: Shared, params: Params, fuel: nat, s0: Store, walk: seq<Step>, res: RunResult) {
    && |walk| <= fuel
    && (fuel > 0 ==> |walk| > 0)
    && Chain(start, shared, params, s0, walk)
    && (res.completion.Normal? ==>
          && res.completion.value == Undefined
          && |walk| > 0 && Ended(walk[|walk| - 1]) && res.shared == walk[|walk| - 1].result.shared)
    && (res.completion.Abrupt? ==> |walk| > 0 && res == walk[|walk| - 1].result)
    && (res.completion.OutOfFuel? ==>
          || (|walk| == fuel && (fuel > 0 ==> walk[fuel - 1].result.completion.Normal? && !Ended(walk[fuel - 1])))
          || (|walk| > 0 && res == walk[|walk| - 1].result))
  }

  /** Consecutive visits of a walk are linked by the edge the first one selected. */
  lemma {:induction false} ChainLink(start: Node, shared: Shared, params: Params, s0: Store, walk: seq<Step>, i: nat)
    requires Chain(start, shared, params, s0, walk) && i + 1 < |walk|
    ensures Followed(walk[i], walk[i + 1])
    decreases |walk|
  {
    if i + 1 < |walk| - 1 {
      ChainLink(start, shared, params, s0, walk[..|walk| - 1], i);
    }
  }

  /** A walk stops at the first node that completes without a successor for its
      action, and completes with `undefined` on the state that node left. */
  lemma {:induction false} WalkEnds(start: Node, shared: Shared, params: Params, fuel: nat, s0: Store,
                                    walk: seq<Step>, res: RunResult, i: nat)
    requires Walked(start, shared, params, fuel, s0, walk, res)
    requires i < |walk| && Ended(walk[i])
    ensures |walk| == i + 1
    ensures res == RunResult(walk[i].result.shared, Normal(Undefined))
  {
    if |walk| > i + 1 {
      ChainLink(start, shared, params, s0, walk, i);
      assert false;
    }
  }

  /** A walk goes on from a node that completes with a successor for its action,
      when fuel remains: that successor is visited next, on the state the node
      left. */
  lemma {:induction false} WalkContinues(start: Node, shared: Shared, params: Params, fuel: nat, s0: Store,
                                         walk: seq<Step>, res: RunResult, i: nat)
    requires Walked(start, shared, params, fuel, s0, walk, res)
    requires i < |walk| && i + 1 < fuel
    requires walk[i].result.completion.Normal?
    requires Next(walk[i].successors, ActionOf(walk[i].result.completion.value)).Some?
    ensures |walk| > i + 1
    ensures walk[i + 1].node == Next(walk[i].successors, ActionOf(walk[i].result.completion.value)).value
    ensures walk[i + 1].sharedIn == walk[i].result.shared
  {
    if |walk| == i + 1 {
      assert false;
    } else {
      ChainLink(start, shared, params, s0, walk, i);
    }
  }

  /** A walk follows the successor tables of the store it began on, and leaves
      them as they were. */
  lemma {:induction false} WalkTables(start: Node, shared: Shared, params: Params, s0: Store, walk: seq<Step>)
    requires Chain(start, shared, params, s0, walk)
    ensures StoreAfter(s0, walk).tables == s0.tables
    ensures forall i :: 0 <= i < |walk| ==>
              walk[i].node in s0.tables && walk[i].successors == s0.tables[walk[i].node]
    decreases |walk|
  {
    if |walk| > 0 {
      var n := |walk| - 1;
      WalkTables(start, shared, params, s0, walk[..n]);
      assert forall i :: 0 <= i < n ==> walk[..n][i] == walk[i];
    }
  }

  /** The store visit `i` of a walk begun on `s0` started from; for
      `i == |walk|`, the store the walk left. */
  function StoreBefore(s0: Store, walk: seq<Step>, i: nat): Store
    requires i <= |walk|
  {
    if i < |walk| then walk[i].before else StoreAfter(s0, walk)
  }

  /** While visits `j` to `i - 1` visit neither `n` nor a BatchFlow, `n` keeps
      the counter and the params it held before visit `j`. */
  lemma {:induction false} Untouched(start: Node, shared: Shared, params: Params, s0: Store, walk: seq<Step>,
                                     n: Node, j: nat, i: nat)
    requires Chain(start, shared, params, s0, walk) && j <= i <= |walk|
    requires forall k :: j <= k < i ==> walk[k].node != n && !walk[k].node.kind.BatchFlow?
    ensures n in StoreBefore(s0, walk, j).counters ==>
              n in StoreBefore(s0, walk, i).counters
              && StoreBefore(s0, walk, i).counters[n] == StoreBefore(s0, walk, j).counters[n]
    ensures n in StoreBefore(s0, walk, j).params ==>
              n in StoreBefore(s0, walk, i).params
              && StoreBefore(s0, walk, i).params[n] == StoreBefore(s0, walk, j).params[n]
    decreases i
  {
    if j < i {
      Untouched(start, shared, params, s0, walk, n, j, i - 1);
      ChainAt(start, shared, params, s0, walk, i - 1);
      StepKeeps(walk[i - 1], n);
      if i < |walk| {
        ChainLink(start, shared, params, s0, walk, i - 1);
      }
    }
  }

  /** A visit of another node, not a BatchFlow, leaves `n` its counter and params. */
  lemma StepKeeps(s: Step, n: Node)
    requires RanAsSpecified(s) && LeftAsSpecified(s)
    requires s.node != n && !s.node.kind.BatchFlow?
    ensures n in s.before.counters ==> n in s.after.counters && s.after.counters[n] == s.before.counters[n]
    ensures n in s.before.params ==> n in s.after.params && s.after.params[n] == s.before.params[n]
  {
  }

  /** The first visit of a node, when no BatchFlow was visited before it, starts
      from the counter the node held when the walk began. */
  lemma FirstVisitCounter(start: Node, shared: Shared, params: Params, s0: Store, walk: seq<Step>, i: nat)
    requires Chain(start, shared, params, s0, walk) && i < |walk|
    requires walk[i].node in s0.counters
    requires forall k :: 0 <= k < i ==> walk[k].node != walk[i].node && !walk[k].node.kind.BatchFlow?
    ensures walk[i].node in walk[i].before.counters && Counter(walk[i]) == s0.counters[walk[i].node]
  {
    ChainAt(start, shared, params, s0, walk, 0);
    Untouched(start, shared, params, s0, walk, walk[i].node, 0, i);
  }

  /** A node visited again, with neither it nor a BatchFlow visited in between,
      starts from the counter its previous visit left: the retry counter is
      carried around a loop of the graph. */
  lemma RevisitCounter(start: Node, shared: Shared, params: Params, s0: Store, walk: seq<Step>, j: nat, i: nat)
    requires Chain(start, shared, params, s0, walk) && j < i < |walk|
    requires walk[j].node == walk[i].node && !walk[j].node.kind.BatchFlow?
    requires forall k :: j < k < i ==> walk[k].node != walk[i].node && !walk[k].node.kind.BatchFlow?
    ensures walk[i].node in walk[i].before.counters && walk[j].node in walk[j].before.counters
    ensures Counter(walk[i]) == NodeRun(walk[j].node.kind, walk[j].node.hooks, walk[j].params,
                                        Counter(walk[j]), walk[j].sharedIn).1
  {
    ChainAt(start, shared, params, s0, walk, j);
    ChainLink(start, shared, params, s0, walk, j);
    Untouched(start, shared, params, s0, walk, walk[i].node, j + 1, i);
  }

  /** Whether `walk` visits `n`. */
  predicate Visits(walk: seq<Step>, n: Node) {
    exists k :: 0 <= k < |walk| && walk[k].node == n
  }

  /** A walk that visits no BatchFlow leaves every node it visited with the
      walk's params, and every other node with the counter and params it had. */
  lemma {:induction false} WalkLeaves(start: Node, shared: Shared, params: Params, s0: Store, walk: seq<Step>, n: Node)
    requires Chain(start, shared, params, s0, walk)
    requires forall k :: 0 <= k < |walk| ==> !walk[k].node.kind.BatchFlow?
    requires n in s0.counters && n in s0.params
    ensures var s := StoreAfter(s0, walk);
            Visits(walk, n) ==> n in s.params && s.params[n] == params
    ensures var s := StoreAfter(s0, walk);
            !Visits(walk, n) ==> n in s.counters && n in s.params
                                 && s.counters[n] == s0.counters[n] && s.params[n] == s0.params[n]
  {
    var k := |walk|;
    while k > 0 && walk[k - 1].node != n
      invariant 0 <= k <= |walk|
      invariant forall m :: k <= m < |walk| ==> walk[m].node != n
      decreases k
    {
      k := k - 1;
    }
    if k > 0 {
      LeftVisited(start, shared, params, s0, walk, n, k - 1);
    } else {
      LeftUnvisited(start, shared, params, s0, walk, n);
    }
  }

  /** The last visit of `n`, not a BatchFlow visit, leaves it the walk's params,
      and no later visit that is not a BatchFlow changes them. */
  lemma LeftVisited(start: Node, shared: Shared, params: Params, s0: Store, walk: seq<Step>, n: Node, k: nat)
    requires Chain(start, shared, params, s0, walk) && k < |walk| && walk[k].node == n
    requires forall m :: k <= m < |walk| ==> !walk[m].node.kind.BatchFlow?
    requires forall m :: k < m < |walk| ==> walk[m].node != n
    ensures var s := StoreAfter(s0, walk); n in s.params && s.params[n] == params
  {
    ChainAt(start, shared, params, s0, walk, k);
    if k + 1 < |walk| {
      ChainLink(start, shared, params, s0, walk, k);
    }
    Untouched(start, shared, params, s0, walk, n, k + 1, |walk|);
  }

  /** A walk that visits neither `n` nor a BatchFlow leaves `n` as it was. */
  lemma LeftUnvisited(start: Node, shared: Shared, params: Params, s0: Store, walk: seq<Step>, n: Node)
    requires Chain(start, shared, params, s0, walk)
    requires forall m :: 0 <= m < |walk| ==> walk[m].node != n && !walk[m].node.kind.BatchFlow?
    requires n in s0.counters && n in s0.params
    ensures var s := StoreAfter(s0, walk);
            n in s.counters && n in s.params && s.counters[n] == s0.counters[n] && s.params[n] == s0.params[n]
  {
    if |walk| > 0 {
      ChainAt(start, shared, params, s0, walk, 0);
    }
    Untouched(start, shared, params, s0, walk, n, 0, |walk|);
  }

  /** One orchestration pass of a BatchFlow: the flow's params when it began, the
      batch entry, the shared state and the store it started on, its walk and
      its result. */
  datatype Pass = Pass(base: Params, entry: Value, sharedIn: Shared, before: Store, walk: seq<Step>, result: RunResult)

  /** The pass walked the flow from `start` and gave every node it visited the
      flow's params overridden by the batch entry. */
  predicate PassWalked(pass: Pass, start: Node, fuel: nat) {
    Walked(start, pass.sharedIn, Merge(pass.base, Spread(pass.entry)), fuel, pass.before, pass.walk, pass.result)
  }

  /** The store a pass left. */
  function PassAfter(pass: Pass): Store {
    StoreAfter(pass.before, pass.walk)
  }

  /** `passes` are the first passes of the loop of BatchFlow `flow` over
      `entries`, begun on `shared` and the store `s0`: pass `i` handled entry
      `i` with the flow's params as they were when it began, and walked the flow
      from `start`; each later pass started on the shared state and the store
      its predecessor left, and only the last pass may have failed to complete. */
  predicate PassesRan(passes: seq<Pass>, start: Node, fuel: nat, flow: Node, s0: Store, shared: Shared,
                      entries: seq<Value>)
    decreases |passes|
  {
    && |passes| <= |entries|
    && (|passes| > 0 ==> passes[0].before == s0 && passes[0].sharedIn == shared)
    && (|passes| > 0 ==>
          var n := |passes| - 1;
          && PassesRan(passes[..n], start, fuel, flow, s0, shared, entries)
          && passes[n].entry == entries[n]
          && flow in passes[n].before.params && passes[n].base == passes[n].before.params[flow]
          && PassWalked(passes[n], start, fuel)
          && (n > 0 ==>
                && passes[n - 1].result.completion.Normal? && passes[n].sharedIn == passes[n - 1].result.shared
                && passes[n].before == PassAfter(passes[n - 1])))
  }

  lemma PassesRanExtend(passes: seq<Pass>, pass: Pass, start: Node, fuel: nat, flow: Node, s0: Store, shared: Shared,
                        entries: seq<Value>)
    requires PassesRan(passes, start, fuel, flow, s0, shared, entries)
    requires |passes| < |entries| && pass.entry == entries[|passes|] && PassWalked(pass, start, fuel)
    requires flow in pass.before.params && pass.base == pass.before.params[flow]
    requires |passes| == 0 ==> pass.before == s0 && pass.sharedIn == shared
    requires |passes| > 0 ==> && passes[|passes| - 1].result.completion.Normal?
                              && pass.sharedIn == passes[|passes| - 1].result.shared
                              && pass.before == PassAfter(passes[|passes| - 1])
    ensures PassesRan(passes + [pass], start, fuel, flow, s0, shared, entries)
  {
    assert (passes + [pass])[..|passes|] == passes;
  }

  /** Pass `i` of a BatchFlow loop handled entry `i` with the flow's params as
      they were when it began, walked the flow, and (unless it is the first)
      started on the shared state and the store the pass before it left. */
  lemma {:induction false} PassAt(passes: seq<Pass>, start: Node, fuel: nat, flow: Node, s0: Store, shared: Shared,
                                  entries: seq<Value>, i: nat)
    requires PassesRan(passes, start, fuel, flow, s0, shared, entries) && i < |passes|
    ensures passes[i].entry == entries[i] && PassWalked(passes[i], start, fuel)
    ensures flow in passes[i].before.params && passes[i].base == passes[i].before.params[flow]
    ensures i == 0 ==> passes[i].sharedIn == shared && passes[i].before == s0
    ensures i > 0 ==> && passes[i - 1].result.completion.Normal? && passes[i].sharedIn == passes[i - 1].result.shared
                      && passes[i].before == PassAfter(passes[i - 1])
    decreases |passes|
  {
    if i < |passes| - 1 {
      PassAt(passes[..|passes| - 1], start, fuel, flow, s0, shared, entries, i);
    }
  }

  /** Pass `i` began with the flow's params as they were, on the store the
      pass before it left (or `s0`). */
  lemma {:induction false} PassLinked(passes: seq<Pass>, start: Node, fuel: nat, flow: Node, s0: Store, shared: Shared,
                                      entries: seq<Value>, i: nat)
    requires PassesRan(passes, start, fuel, flow, s0, shared, entries) && i < |passes|
    ensures flow in passes[i].before.params && passes[i].base == passes[i].before.params[flow]
    ensures i == 0 ==> passes[i].before == s0
    ensures i > 0 ==> passes[i].before == PassAfter(passes[i - 1])
    decreases |passes|
  {
    if i < |passes| - 1 {
      PassLinked(passes[..|passes| - 1], start, fuel, flow, s0, shared, entries, i);
    }
  }

  /** When no pass before pass `j` visits the BatchFlow itself or any other
      BatchFlow, pass `j` runs with the params the flow had before the loop:
      every pass gets `{ ...flow.params, ...entry }` with the same `flow.params`. */
  lemma {:induction false} PassBase(passes: seq<Pass>, start: Node, fuel: nat, flow: Node, s0: Store, shared: Shared,
                                    entries: seq<Value>, j: nat)
    requires PassesRan(passes, start, fuel, flow, s0, shared, entries) && j < |passes|
    requires flow in s0.counters
    requires forall i, k :: 0 <= i < j && 0 <= k < |passes[i].walk| ==>
               passes[i].walk[k].node != flow && !passes[i].walk[k].node.kind.BatchFlow?
    ensures flow in s0.params && passes[j].base == s0.params[flow]
    ensures flow in passes[j].before.counters && passes[j].before.counters[flow] == s0.counters[flow]
    ensures flow in passes[j].before.params && passes[j].before.params[flow] == s0.params[flow]
    decreases j
  {
    PassLinked(passes, start, fuel, flow, s0, shared, entries, j);
    if j > 0 {
      PassBase(passes, start, fuel, flow, s0, shared, entries, j - 1);
      PassKeeps(passes, start, fuel, flow, s0, shared, entries, j - 1);
    }
  }

  /** Pass `i`, when it visits neither `flow` nor a BatchFlow, leaves `flow` the
      counter and the params it found. */
  lemma PassKeeps(passes: seq<Pass>, start: Node, fuel: nat, flow: Node, s0: Store, shared: Shared,
                  entries: seq<Value>, i: nat)
    requires PassesRan(passes, start, fuel, flow, s0, shared, entries) && i < |passes|
    requires forall k :: 0 <= k < |passes[i].walk| ==>
               passes[i].walk[k].node != flow && !passes[i].walk[k].node.kind.BatchFlow?
    requires flow in passes[i].before.counters && flow in passes[i].before.params
    ensures flow in PassAfter(passes[i]).counters && flow in PassAfter(passes[i]).params
    ensures PassAfter(passes[i]).counters[flow] == passes[i].before.counters[flow]
    ensures PassAfter(passes[i]).params[flow] == passes[i].before.params[flow]
  {
    PassAt(passes, start, fuel, flow, s0, shared, entries, i);
    var pass := passes[i];
    assert !Visits(pass.walk, flow);
    WalkLeaves(start, pass.sharedIn, Merge(pass.base, Spread(pass.entry)), pass.before, pass.walk, flow);
  }

  /** Every visit of `walk` followed the successor table `tables` holds for its node. */
  predicate FollowsTables(walk: seq<Step>, tables: map<Node, map<string, Node>>) {
    forall i :: 0 <= i < |walk| ==> walk[i].node in tables && walk[i].successors == tables[walk[i].node]
  }

  /** A pass follows the successor tables of the store it began on, and leaves
      them as they were. */
  lemma PassTables(pass: Pass, start: Node, fuel: nat)
    requires PassWalked(pass, start, fuel)
    ensures PassAfter(pass).tables == pass.before.tables
    ensures FollowsTables(pass.walk, pass.before.tables)
  {
    WalkTables(start, pass.sharedIn, Merge(pass.base, Spread(pass.entry)), pass.before, pass.walk);
  }

  /** Every pass of a BatchFlow loop follows the successor tables of the store
      the loop began on, and leaves them as they were. */
  lemma {:induction false} PassesTables(passes: seq<Pass>, start: Node, fuel: nat, flow: Node, s0: Store,
                                        shared: Shared, entries: seq<Value>)
    requires PassesRan(passes, start, fuel, flow, s0, shared, entries)
    ensures |passes| > 0 ==> PassAfter(Last(passes)).tables == s0.tables
    ensures forall j :: 0 <= j < |passes| ==> FollowsTables(passes[j].walk, s0.tables)
    decreases |passes|
  {
    if |passes| > 0 {
      var n := |passes| - 1;
      PassesTables(passes[..n], start, fuel, flow, s0, shared, entries);
      PassTables(passes[n], start, fuel);
      forall j | 0 <= j < n
        ensures FollowsTables(passes[j].walk, s0.tables)
      {
        assert passes[..n][j] == passes[j];
      }
    }
  }

  function Last<T>(s: seq<T>): T
    requires |s| > 0
  {
    s[|s| - 1]
  }

  /** A set of nodes closed under successor edges and flow start nodes: every node
      a walk from one of them can reach is in it. */
  ghost predicate Closed(nodes: set<Node>)
    reads nodes
  {
    forall n :: n in nodes ==>
      && n.successors.Values <= nodes
      && ((n.kind.Flow? || n.kind.BatchFlow?) ==> n.kind.start in nodes)
  }

  class Node {
    const kind: Kind
    const hooks: Hooks
    var params: Params
    var successors: map<string, Node>
    /** `FNode.currentRetry`: the attempt counter, kept between invocations. */
    var currentRetry: int

    /** A new node with empty params and no successors; `currentRetry` is the
        `FNode` constructor's third argument. */
    constructor(kind: Kind, hooks: Hooks, currentRetry: int := 0)
      ensures this.kind == kind && this.hooks == hooks && this.currentRetry == currentRetry
      ensures params == map[] && successors == map[]
    {
      this.kind := kind;
      this.hooks := hooks;
      this.currentRetry := currentRetry;
      params := map[];
      successors := map[];
    }

    /** `setParams`: replaces the params wholesale, so repeating it with the same
        value changes nothing. */
    method SetParams(p: Params, ghost U: set<Node>)
      requires this in U
      modifies this`params
      ensures params == p
      // every other node keeps its params; every node its counter and successors
      ensures Now(U) == old(Now(U)).(params := old(Now(U)).params[this := p])
    {
      params := p;
    }

    /** `addSuccessor(node, action = 'default')`: registers `node` under `action`,
        overwriting any earlier node there, and returns `node`. */
    method AddSuccessor(node: Node, action: string := DefaultAction) returns (r: Node)
      modifies this`successors
      ensures successors == Wire(old(successors), node, action)
      ensures r == node
    {
      successors := successors[action := node];
      r := node;
    }

    /** `FNode._exec`: the attempt loop over the instance's own counter, which it
        neither resets on entry nor on exit. `calls` and `fellBack` count the calls
        of `exec` and of the fallback. */
    method RetryExec(prepRes: Value) returns (r: Outcome, ghost calls: nat, ghost fellBack: bool)
      requires kind.Retrying? || kind.Batch?
      modifies this`currentRetry
      ensures Attempts(r, calls, currentRetry, fellBack)
              == RetryFrom(old(currentRetry), kind.maxRetries, prepRes, hooks.exec, hooks.fallback)
    {
      calls, fellBack := 0, false;
      var maxRetries, exec, fallback := kind.maxRetries, hooks.exec, hooks.fallback;
      ghost var whole := RetryFrom(currentRetry, maxRetries, prepRes, exec, fallback);
      while currentRetry < maxRetries
        invariant var rest := RetryFrom(currentRetry, maxRetries, prepRes, exec, fallback);
                  whole == rest.(calls := rest.calls + calls)
        decreases maxRetries - currentRetry
      {
        var attempt := exec(prepRes, currentRetry);
        calls := calls + 1;
        if attempt.Ok? {
          RetrySucceeds(currentRetry, maxRetries, prepRes, exec, fallback);
          r := attempt;
          return;
        }
        if currentRetry == maxRetries - 1 {
          RetryFallsBack(currentRetry, maxRetries, prepRes, exec, fallback);
          r := fallback(prepRes, attempt.error);
          fellBack := true;
          return;
        }
        // the busy-wait of `wait` seconds between attempts is not modelled
        RetryStep(currentRetry, maxRetries, prepRes, exec, fallback);
        currentRetry := currentRetry + 1;
      }
      r := Ok(Undefined);
    }

    /** `BatchNode._exec`: the retry policy over each item of `prepRes`, results
        in input order; items run one after another on the shared counter. */
    method BatchExec(items: Value) returns (r: Outcome)
      requires kind.Batch?
      modifies this`currentRetry
      ensures (r, currentRetry) == ExecStage(kind, hooks, old(currentRetry), items)
    {
      if !items.Arr? {
        return Throw(MapOnNonArray(items));
      }
      var xs := items.items;
      var results: seq<Value> := [];
      assert xs[0..] == xs;
      ghost var whole := BatchFrom(currentRetry, kind.maxRetries, xs, hooks.exec, hooks.fallback);
      assert whole.outcome.Ok? ==> [] + whole.outcome.value == whole.outcome.value;
      for i := 0 to |xs|
        invariant BatchFrom(old(currentRetry), kind.maxRetries, xs, hooks.exec, hooks.fallback)
                  == AfterDone(results, BatchFrom(currentRetry, kind.maxRetries, xs[i..], hooks.exec, hooks.fallback))
      {
        assert xs[i..][0] == xs[i] && xs[i..][1..] == xs[i + 1..];
        ghost var before := currentRetry;
        var o;
        ghost var calls, fellBack;
        o, calls, fellBack := RetryExec(xs[i]);
        if o.Throw? {
          return Throw(o.error);
        }
        ghost var rest := BatchFrom(currentRetry, kind.maxRetries, xs[i + 1..], hooks.exec, hooks.fallback);
        assert BatchFrom(before, kind.maxRetries, xs[i..], hooks.exec, hooks.fallback) == AfterDone([o.value], rest);
        assert rest.outcome.Ok? ==> results + ([o.value] + rest.outcome.value) == (results + [o.value]) + rest.outcome.value;
        results := results + [o.value];
      }
      assert xs[|xs|..] == [];
      assert results + [] == results;
      r := Ok(Arr(results));
    }

    /** `_run` of a node that is not a BatchFlow (`BaseNode._run`, with the
        node's own `_exec`). */
    method RunStep(shared: Shared) returns (res: RunResult)
      requires !kind.BatchFlow?
      modifies this`currentRetry
      ensures (res, currentRetry) == NodeRun(kind, hooks, params, old(currentRetry), shared)
    {
      var p := hooks.prep(params, shared);
      if p.outcome.Throw? {
        return RunResult(p.shared, Abrupt(p.outcome.error));
      }
      var prepRes := p.outcome.value;
      var execRes: Outcome;
      match kind {
        case Leaf =>
          execRes := hooks.exec(prepRes, 0);
        case Retrying(_, _) =>
          ghost var calls, fellBack;
          execRes, calls, fellBack := RetryExec(prepRes);
        case Batch(_, _) =>
          execRes := BatchExec(prepRes);
        case Flow(_) =>
          execRes := Throw(FlowCannotExec);
      }
      if execRes.Throw? {
        return RunResult(p.shared, Abrupt(execRes.error));
      }
      var q := hooks.post(params, p.shared, prepRes, execRes.value);
      res := RunResult(q.shared, Completed(q.outcome));
    }

    /** `_run`, as a flow calls it on the node it visits. Only a BatchFlow
        overrides it; every other kind runs prep, `_exec` and post. */
    method Run(shared: Shared, fuel: nat, ghost U: set<Node>) returns (res: RunResult)
      requires this in U && Closed(U)
      modifies U
      ensures Closed(U)
      ensures Now(U).tables == old(Now(U)).tables
      ensures !kind.BatchFlow? ==> (res, currentRetry) == NodeRun(kind, hooks, old(params), old(currentRetry), shared)
      // every other node keeps its counter, and every node its params
      ensures !kind.BatchFlow? ==> Now(U) == old(Now(U)).(counters := old(Now(U)).counters[this := currentRetry])
      decreases fuel, 3
    {
      if kind.BatchFlow? {
        ghost var passes;
        ghost var s0 := Now(U);
        res, passes := RunBatchFlow(shared, fuel, U, s0);
        if |passes| > 0 {
          PassesTables(passes, kind.start, fuel, this, s0, hooks.prep(old(params), shared).shared,
                       PrepEntries(hooks.prep(old(params), shared)).value);
        }
      } else {
        res := RunStep(shared);
      }
    }

    /** `BatchFlow._run`: prep, one orchestration pass per batch entry of its
        result, then post with the entries as `prepRes`. */
    method RunBatchFlow(shared: Shared, fuel: nat, ghost U: set<Node>, ghost s0: Store)
      returns (res: RunResult, ghost passes: seq<Pass>)
      requires kind.BatchFlow?
      requires this in U && Closed(U) && Snapshot(U, s0)
      modifies U
      ensures Closed(U)
      // the counters and params the passes left
      ensures Snapshot(U, if |passes| == 0 then s0 else PassAfter(Last(passes)))
      // prep failed, or its result was not iterable: no pass
      ensures var p := hooks.prep(old(params), shared);
              PrepEntries(p).Throw? ==> res == RunResult(p.shared, Abrupt(PrepEntries(p).error)) && passes == []
      // the passes walked the flow once per entry, in order, as `RunPasses` says
      ensures var p := hooks.prep(old(params), shared);
              var entries := PrepEntries(p);
              entries.Ok? ==> PassesRan(passes, kind.start, fuel, this, s0, p.shared, entries.value)
      // a pass that does not complete ends the run with its result
      ensures |passes| > 0 && !Last(passes).result.completion.Normal? ==> res == Last(passes).result
      // otherwise every entry had its pass, and post ends the run
      ensures var p := hooks.prep(old(params), shared);
              var entries := PrepEntries(p);
              entries.Ok? && (|passes| == 0 || Last(passes).result.completion.Normal?) ==>
                && |passes| == |entries.value|
                && res == PostStage(hooks, params, if |passes| == 0 then p.shared else Last(passes).result.shared,
                                    OrEmpty(p.outcome.value), Null)
      decreases fuel, 2
    {
      passes := [];
      var p := hooks.prep(params, shared);
      if p.outcome.Throw? {
        return RunResult(p.shared, Abrupt(p.outcome.error)), passes;
      }
      var prepRes := OrEmpty(p.outcome.value);
      var entries := Elements(prepRes);
      if entries.Throw? {
        return RunResult(p.shared, Abrupt(entries.error)), passes;
      }
      res, passes := RunPasses(p.shared, entries.value, fuel, U, s0);
      if res.completion.Normal? {
        res := PostStage(hooks, params, res.shared, prepRes, Null);
      }
    }

    /** The loop of `BatchFlow._run`: for each batch entry in turn, an
        orchestration pass with the flow's params overridden by the entry, each
        pass on the shared state the previous one left; the first pass that does
        not complete ends the loop. */
    method RunPasses(shared: Shared, entries: seq<Value>, fuel: nat, ghost U: set<Node>, ghost s0: Store)
      returns (res: RunResult, ghost passes: seq<Pass>)
      requires kind.BatchFlow?
      requires this in U && Closed(U) && Snapshot(U, s0)
      modifies U
      ensures Closed(U)
      ensures PassesRan(passes, kind.start, fuel, this, s0, shared, entries)
      ensures Snapshot(U, if |passes| == 0 then s0 else PassAfter(Last(passes)))
      ensures |passes| == 0 ==> |entries| == 0 && res == RunResult(shared, Normal(Undefined))
      ensures |passes| > 0 ==> res == Last(passes).result
      ensures res.completion.Normal? ==> |passes| == |entries|
      decreases fuel, 1
    {
      passes := [];
      ghost var store := s0;
      res := RunResult(shared, Normal(Undefined));
      var i := 0;
      while i < |entries| && res.completion.Normal?
        invariant Closed(U)
        invariant i == |passes| <= |entries|
        invariant Snapshot(U, store)
        invariant store == if i == 0 then s0 else PassAfter(Last(passes))
        invariant i == 0 ==> res == RunResult(shared, Normal(Undefined))
        invariant i > 0 ==> res == Last(passes).result
        invariant PassesRan(passes, kind.start, fuel, this, s0, shared, entries)
        decreases |entries| - i
      {
        var base := params;
        var entry := entries[i];
        var r;
        ghost var walk;
        r, walk := Orch(res.shared, Merge(base, Spread(entry)), fuel, U, store);
        MergeAbsorbsBase(base, Spread(entry));
        ghost var pass := Pass(base, entry, res.shared, store, walk, r);
        PassesRanExtend(passes, pass, kind.start, fuel, this, s0, shared, entries);
        passes := passes + [pass];
        store := PassAfter(pass);
        res := r;
        i := i + 1;
      }
    }

    /** One visit of a flow walk to this node: `curr.setParams(currentParams)`,
        then `curr._run(shared)`. */
    method Visit(shared: Shared, ps: Params, fuel: nat, ghost U: set<Node>, ghost before: Store)
      returns (r: RunResult, ghost step: Step)
      requires this in U && Closed(U) && Snapshot(U, before)
      modifies U
      ensures Closed(U)
      ensures step.node == this && step.successors == successors && step.params == ps
      ensures step.sharedIn == shared && step.before == before && step.result == r
      ensures RanAsSpecified(step) && LeftAsSpecified(step)
      ensures Snapshot(U, step.after)
      decreases fuel, 4
    {
      SetParams(ps, U);
      r := Run(shared, fuel, U);
      ghost var after;
      if kind.BatchFlow? {
        after := Now(U);
      } else {
        after := before.(counters := before.counters[this := currentRetry], params := before.params[this := ps]);
      }
      step := Step(this, successors, ps, shared, before, r, after);
    }

    /** `Flow.orch(shared, params)`, as intended: from the start node, give each
        node the flow's params overridden by `extra`, run it, and follow the
        edge `next` picks for its result, until there is none. A walk longer than
        `fuel` steps (a cycle) stops with `OutOfFuel`. */
    method Orch(shared: Shared, extra: Params, fuel: nat, ghost U: set<Node>, ghost s0: Store)
      returns (res: RunResult, ghost walk: seq<Step>)
      requires kind.Flow? || kind.BatchFlow?
      requires this in U && Closed(U) && Snapshot(U, s0)
      modifies U
      ensures Closed(U)
      ensures Walked(kind.start, shared, Merge(old(params), extra), fuel, s0, walk, res)
      // the counters and params the walk left
      ensures Snapshot(U, StoreAfter(s0, walk))
      decreases fuel, 0
    {
      var currentParams := Merge(params, extra);
      var curr: Option<Node> := Some(kind.start);
      var sh := shared;
      var steps := 0;
      walk := [];
      ghost var store := s0;
      while curr.Some?
        invariant steps == |walk| <= fuel
        invariant Closed(U)
        invariant curr.Some? ==> curr.value in U
        invariant store == StoreAfter(s0, walk) && Snapshot(U, store)
        invariant Chain(kind.start, shared, currentParams, s0, walk)
        invariant |walk| == 0 ==> curr == Some(kind.start) && sh == shared
        invariant |walk| > 0 ==>
                    Last(walk).result.completion.Normal? && sh == Last(walk).result.shared
                    && curr == Next(Last(walk).successors, ActionOf(Last(walk).result.completion.value))
        decreases fuel - steps
      {
        if steps == fuel {
          assert fuel > 0 ==> walk[fuel - 1] == Last(walk);
          return RunResult(sh, OutOfFuel), walk;
        }
        var node := curr.value;
        var r;
        ghost var step;
        r, step := node.Visit(sh, currentParams, fuel - 1, U, store);
        ChainExtend(kind.start, shared, currentParams, s0, walk, step);
        walk := walk + [step];
        store := step.after;
        steps := steps + 1;
        sh := r.shared;
        if !r.completion.Normal? {
          return r, walk;
        }
        curr := Next(node.successors, ActionOf(r.completion.value));
      }
      res := RunResult(sh, Normal(Undefined));
    }

    /** `Flow.orch` as written: `curr = { ...this.next(curr, action) }` replaces
        the successor by a plain copy of its own properties, or by `{}` when there
        is none. The copy has no `_run`, so after its first node the walk always
        throws a TypeError. The copied `setParams` is still bound to the original
        successor, whose params it sets before `_run` is found missing. */
    method OrchAsWritten(shared: Shared, extra: Params, fuel: nat, ghost U: set<Node>)
      returns (res: RunResult, ghost first: RunResult)
      requires kind.Flow? || kind.BatchFlow?
      requires this in U && Closed(U)
      modifies U
      ensures !res.completion.Normal?
      ensures fuel > 0 && !kind.start.kind.BatchFlow? ==>
                first == NodeRun(kind.start.kind, kind.start.hooks, Merge(old(params), extra),
                                 old(kind.start.currentRetry), shared).0
      ensures fuel > 0 && !first.completion.Normal? ==> res == first
      ensures fuel > 1 && first.completion.Normal? ==>
                && res.shared == first.shared && res.completion.Abrupt?
                && res.completion.error == TypeError(
                     if Next(old(kind.start.successors), ActionOf(first.completion.value)).Some?
                     then "curr._run is not a function" else "curr.setParams is not a function")
      ensures Now(U).tables == old(Now(U)).tables
      ensures fuel == 0 ==> Now(U) == old(Now(U))
      // the copied `setParams`, bound to the successor, gives it the walk's params
      ensures fuel > 1 && first.completion.Normal?
              && Next(old(kind.start.successors), ActionOf(first.completion.value)).Some? ==>
                Next(old(kind.start.successors), ActionOf(first.completion.value)).value.params == Merge(old(params), extra)
      // the start node holds the walk's params and the counter its run left, the
      // successor (if reached) the walk's params, and every other node what it held
      ensures fuel > 0 && !kind.start.kind.BatchFlow? ==>
                Now(U) == LeftAsWritten(old(Now(U)), kind.start, Merge(old(params), extra), shared, fuel > 1, first)
    {
      var currentParams := Merge(params, extra);
      ghost var s0 := Now(U);
      ghost var left := if kind.start.kind.BatchFlow? then s0 else FirstLeft(s0, kind.start, currentParams, shared);
      var curr := Instance(kind.start);
      var sh := shared;
      var steps := 0;
      first := RunResult(shared, OutOfFuel);
      while steps < fuel
        invariant steps <= fuel && steps <= 1
        invariant Closed(U)
        invariant Now(U).tables == old(Now(U)).tables
        invariant steps == 0 <==> curr == Instance(kind.start)
        invariant steps == 0 ==> sh == shared && kind.start.currentRetry == old(kind.start.currentRetry)
        invariant steps > 0 ==>
                    && first.completion.Normal? && sh == first.shared
                    && curr == SpreadCopy(Next(old(kind.start.successors), ActionOf(first.completion.value)))
        invariant steps > 0 && !kind.start.kind.BatchFlow? ==>
                    first == NodeRun(kind.start.kind, kind.start.hooks, Merge(old(params), extra),
                                     old(kind.start.currentRetry), shared).0
        invariant curr.SpreadCopy? && curr.source.Some? ==> curr.source.value in U
        invariant steps == 0 ==> Now(U) == s0
        invariant steps > 0 && !kind.start.kind.BatchFlow? ==> Now(U) == left
        decreases fuel - steps
      {
        if !HasMember(curr, "setParams") {
          return RunResult(sh, Abrupt(TypeError("curr.setParams is not a function"))), first;
        }
        var target := if curr.Instance? then curr.node else curr.source.value;
        target.SetParams(currentParams, U);
        if !HasMember(curr, "_run") {
          return RunResult(sh, Abrupt(TypeError("curr._run is not a function"))), first;
        }
        var node := curr.node;
        var r := node.Run(sh, fuel - 1, U);
        first := r;
        sh := r.shared;
        if !r.completion.Normal? {
          return r, first;
        }
        assert node == kind.start && Now(U).tables[node] == node.successors;
        curr := SpreadCopy(Next(node.successors, ActionOf(r.completion.value)));
        steps := steps + 1;
      }
      res := RunResult(sh, OutOfFuel);
    }
  }

  /** The store the first visit of a walk as written leaves: its start node, not
      a BatchFlow, holds the walk's params and the counter its run left. */
  function FirstLeft(s0: Store, start: Node, ps: Params, shared: Shared): Store
    requires start in s0.counters && !start.kind.BatchFlow?
  {
    s0.(counters := s0.counters[start := NodeRun(start.kind, start.hooks, ps, s0.counters[start], shared).1],
        params := s0.params[start := ps])
  }

  /** The store a walk as written leaves: the first visit's, and then, when the
      first run completed with a successor and a second iteration ran, that
      successor holds the walk's params, set through the copied `setParams`. */
  function LeftAsWritten(s0: Store, start: Node, ps: Params, shared: Shared, again: bool, first: RunResult): Store
    requires start in s0.counters && start in s0.tables && !start.kind.BatchFlow?
  {
    var left := FirstLeft(s0, start, ps, shared);
    if again && first.completion.Normal? && Next(s0.tables[start], ActionOf(first.completion.value)).Some?
    then left.(params := left.params[Next(s0.tables[start], ActionOf(first.completion.value)).value := ps])
    else left
  }

  /** What the walk as written holds in `curr`: the start node itself, or the
      plain object `{ ...x }` built from the successor `x` (or from `undefined`). */
  datatype Cursor = Instance(node: Node) | SpreadCopy(source: Option<Node>)

  /** The own properties of a node instance: its class fields, the arrow
      function `setParams` among them. Methods such as `_run` are on the prototype. */
  function OwnProperties(kind: Kind): (props: set<string>)
    ensures {"params", "successors", "setParams"} <= props
    ensures "_run" !in props
  {
    {"params", "successors", "setParams"}
    + (if kind.Retrying? || kind.Batch? then {"maxRetries", "wait", "currentRetry"} else {})
    + (if kind.Flow? || kind.BatchFlow? then {"start"} else {})
  }

  /** The prototype methods every node has. */
  const PrototypeMembers: set<string> := {"addSuccessor", "prep", "exec", "post", "_exec", "_run", "run"}

  /** Whether `curr.name` is found: an instance has its own properties and its
      prototype's, a spread copy only the own properties it copied. */
  predicate HasMember(c: Cursor, name: string) {
    match c
    case Instance(n) => name in OwnProperties(n.kind) || name in PrototypeMembers
    case SpreadCopy(source) => source.Some? && name in OwnProperties(source.value.kind)
  }

  /** A spread copy can be asked for `setParams` only when it was copied from a
      node, and never for `_run`; the instance itself has both. */
  lemma SpreadCopyCannotRun(c: Cursor)
    ensures c.SpreadCopy? ==> !HasMember(c, "_run")
    ensures c.SpreadCopy? ==> (HasMember(c, "setParams") <==> c.source.Some?)
    ensures c.Instance? ==> HasMember(c, "_run") && HasMember(c, "setParams")
  {
  }
}
