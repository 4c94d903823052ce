/** Small flows built the way a client of the engine builds them, with what the
    engine does on them. */
module Scenarios {
  import opened Js
  import opened Successors
  import opened Engine
  import opened Retry

  /** `shared.trail` with `v` appended (a fresh trail when there is none). */
  function Appended(shared: Shared, v: Value): (t: Value)
    ensures t.Arr? && |t.items| > 0 && t.items[|t.items| - 1] == v
  {
    if "trail" in shared && shared["trail"].Arr? then Arr(shared["trail"].items + [v]) else Arr([v])
  }

  /** A `post` that appends `name` to `shared.trail` and returns `action`. */
  function Visit(name: string, action: Value): (Params, Shared, Value, Value) -> HookResult {
    (params: Params, shared: Shared, prepRes: Value, execRes: Value) =>
      HookResult(shared["trail" := Appended(shared, Str(name))], Ok(action))
  }

  /** A plain node whose `post` is `Visit(name, action)` records its name and
      completes with `action`. */
  lemma VisitRun(name: string, action: Value, params: Params, counter: int, shared: Shared)
    ensures NodeRun(Leaf, DefaultHooks.(post := Visit(name, action)), params, counter, shared).0
            == RunResult(shared["trail" := Appended(shared, Str(name))], Normal(action))
  {
  }

  /** A flow of one node with no successor: as intended the walk runs the node
      and completes; as written it throws once `next` finds nothing, because
      `{ ...undefined }` is an empty object without `setParams`. */
  method SingleNodeFlow() returns (fixed: RunResult, asWritten: RunResult)
    ensures fixed == RunResult(map[], Normal(Undefined))
    ensures asWritten == RunResult(map[], Abrupt(TypeError("curr.setParams is not a function")))
  {
    var a := new Node(Leaf, DefaultHooks);
    var flow := new Node(Flow(a), DefaultHooks);
    ghost var U := {a, flow};
    ghost var s0 := Now(U);
    ghost var walk, first;
    fixed, walk := flow.Orch(map[], map[], 2, U, s0);
    ChainAt(a, map[], map[], s0, walk, 0);
    assert walk[0].result == RunResult(map[], Normal(Undefined));
    WalkTables(a, map[], map[], s0, walk);
    WalkEnds(a, map[], map[], 2, s0, walk, fixed, 0);
    asWritten, first := flow.OrchAsWritten(map[], map[], 2, U);
  }

  /** The walk of the branching flow, on values: `a` selects `b`, which has no
      successor. */
  lemma BranchWalk(a: Node, b: Node, c: Node, s0: Store, walk: seq<Step>, res: RunResult)
    requires a.kind == Leaf && a.hooks == DefaultHooks.(post := Visit("a", Str("ok")))
    requires b.kind == Leaf && b.hooks == DefaultHooks.(post := Visit("b", Undefined))
    requires a in s0.tables && s0.tables[a] == map["ok" := b, "fail" := c]
    requires b in s0.tables && s0.tables[b] == map[]
    requires Walked(a, map[], map[], 3, s0, walk, res)
    ensures |walk| == 2 && walk[0].node == a && walk[1].node == b
    ensures res == RunResult(map["trail" := Arr([Str("a"), Str("b")])], Normal(Undefined))
  {
    var trailA := map["trail" := Arr([Str("a")])];
    WalkTables(a, map[], map[], s0, walk);
    ChainAt(a, map[], map[], s0, walk, 0);
    VisitRun("a", Str("ok"), walk[0].params, Counter(walk[0]), map[]);
    assert walk[0].result == RunResult(trailA, Normal(Str("ok")));
    assert Next(walk[0].successors, Some("ok")) == Some(b);
    WalkContinues(a, map[], map[], 3, s0, walk, res, 0);
    ChainAt(a, map[], map[], s0, walk, 1);
    VisitRun("b", Undefined, walk[1].params, Counter(walk[1]), trailA);
    assert [Str("a")] + [Str("b")] == [Str("a"), Str("b")];
    assert walk[1].result == RunResult(map["trail" := Arr([Str("a"), Str("b")])], Normal(Undefined));
    WalkEnds(a, map[], map[], 3, s0, walk, res, 1);
  }

  /** The nodes of the branching flow reach only each other. */
  lemma BranchClosed(a: Node, b: Node, c: Node, flow: Node, U: set<Node>)
    requires U == {a, b, c, flow} && flow.kind == Flow(a)
    requires a.successors == Wire(Wire(map[], b, "ok"), c, "fail")
    requires b.successors == map[] && c.successors == map[]
    requires a.kind == Leaf && b.kind == Leaf && c.kind == Leaf && flow.successors == map[]
    ensures Closed(U)
  {
    assert a.successors.Values == {b, c};
  }

  /** A branch: `a` returns the action `"ok"`, wired to `b`, while `"fail"` is
      wired to `c`. The walk visits `a` then `b` and never `c`. */
  method Branch() returns (res: RunResult)
    ensures res == RunResult(map["trail" := Arr([Str("a"), Str("b")])], Normal(Undefined))
  {
    var a := new Node(Leaf, DefaultHooks.(post := Visit("a", Str("ok"))));
    var b := new Node(Leaf, DefaultHooks.(post := Visit("b", Undefined)));
    var c := new Node(Leaf, DefaultHooks.(post := Visit("c", Undefined)));
    var _ := a.AddSuccessor(b, "ok");
    var _ := a.AddSuccessor(c, "fail");
    var flow := new Node(Flow(a), DefaultHooks);
    ghost var U := {a, b, c, flow};
    BranchClosed(a, b, c, flow, U);
    ghost var s0 := Now(U);
    ghost var walk;
    res, walk := flow.Orch(map[], map[], 3, U, s0);
    BranchWalk(a, b, c, s0, walk, res);
  }

  /** An `exec` that always throws. */
  function AlwaysThrows(prepRes: Value, attempt: int): Outcome {
    Throw(Error("Error", "unavailable"))
  }

  /** An `execFallback` that recovers with a fixed value. */
  function Recover(prepRes: Value, error: Value): Outcome {
    Ok(Str("recovered"))
  }

  /** A `post` that returns the exec result as the action. */
  function PassOn(params: Params, shared: Shared, prepRes: Value, execRes: Value): HookResult {
    HookResult(shared, Ok(execRes))
  }

  /** A retrying node with `maxRetries = 3` whose `exec` always fails falls back
      on both invocations, and its counter stays at 2 after each: the second
      invocation makes a single attempt. */
  method RetryTwice() returns (first: RunResult, second: RunResult, counter: int, counterAfter: int)
    ensures first == RunResult(map[], Normal(Str("recovered")))
    ensures second == first
    ensures counter == 2 && counterAfter == 2
    // the first invocation calls `exec` three times, the second, from the carried counter, once
    ensures RetryFrom(0, 3, Undefined, AlwaysThrows, Recover).calls == 3
    ensures RetryFrom(counter, 3, Undefined, AlwaysThrows, Recover).calls == 1
  {
    var n := new Node(Retrying(3, 0), DefaultHooks.(exec := AlwaysThrows, fallback := Recover, post := PassOn));
    first := n.RunStep(map[]);
    counter := n.currentRetry;
    second := n.RunStep(map[]);
    counterAfter := n.currentRetry;
  }

  /** The same policy as the start node of a flow: the visit starts from the
      counter the node holds, falls back on its one attempt, and the walk stops
      on the action `"recovered"`, which has no successor; the node keeps its
      counter and is left with the flow's params. */
  method RetryInFlow() returns (res: RunResult, ghost first: RunResult, n: Node)
    ensures first == RunResult(map[], Normal(Str("recovered")))
    ensures res == RunResult(map[], Normal(Undefined))
    ensures n.currentRetry == 0 && n.params == map[]
  {
    n := new Node(Retrying(1, 0), DefaultHooks.(exec := AlwaysThrows, fallback := Recover, post := PassOn));
    var flow := new Node(Flow(n), DefaultHooks);
    ghost var U := {n, flow};
    ghost var s0 := Now(U);
    ghost var walk;
    res, walk := flow.Orch(map[], map[], 2, U, s0);
    ChainAt(n, map[], map[], s0, walk, 0);
    assert Counter(walk[0]) == 0;
    first := walk[0].result;
    assert first == RunResult(map[], Normal(Str("recovered")));
    WalkTables(n, map[], map[], s0, walk);
    WalkEnds(n, map[], map[], 2, s0, walk, res, 0);
  }

  /** A `post` that appends the node's `params.x` to `shared.trail`. */
  function RecordX(params: Params, shared: Shared, prepRes: Value, execRes: Value): HookResult {
    HookResult(shared["trail" := Appended(shared, if "x" in params then params["x"] else Undefined)], Ok(Undefined))
  }

  /** A `prep` that returns the batch `[{ x: 1 }, { x: 2 }]`. */
  function TwoEntries(params: Params, shared: Shared): HookResult {
    HookResult(shared, Ok(Arr([Obj(map["x" := Num(1)]), Obj(map["x" := Num(2)])])))
  }

  /** One pass over a flow whose start node records `x` and has no successor:
      the node runs once, with the flow's params overridden by the entry, and
      the pass completes. */
  lemma RecordPass(pass: Pass, a: Node, fuel: nat)
    requires a.kind == Leaf && a.hooks == DefaultHooks.(post := RecordX)
    requires a in pass.before.tables && pass.before.tables[a] == map[]
    requires PassWalked(pass, a, fuel) && fuel > 0
    ensures |pass.walk| == 1 && pass.walk[0].node == a
    ensures pass.walk[0].params == Merge(pass.base, Spread(pass.entry))
    ensures var ps := pass.walk[0].params;
            pass.result == RunResult(pass.sharedIn["trail" := Appended(pass.sharedIn, if "x" in ps then ps["x"] else Undefined)],
                                     Normal(Undefined))
  {
    var ps := Merge(pass.base, Spread(pass.entry));
    WalkTables(a, pass.sharedIn, ps, pass.before, pass.walk);
    ChainAt(a, pass.sharedIn, ps, pass.before, pass.walk, 0);
    WalkEnds(a, pass.sharedIn, ps, fuel, pass.before, pass.walk, pass.result, 0);
  }

  /** The batch `TwoEntries` returns. */
  const Entries: seq<Value> := [Obj(map["x" := Num(1)]), Obj(map["x" := Num(2)])]

  /** The first pass over `Entries` runs the start node once, on the flow's
      params overridden by `{ x: 1 }`, and completes. */
  lemma FirstPass(a: Node, bf: Node, s0: Store, passes: seq<Pass>)
    requires a.kind == Leaf && a.hooks == DefaultHooks.(post := RecordX)
    requires a in s0.tables && s0.tables[a] == map[] && bf in s0.params && s0.params[bf] == map[]
    requires PassesRan(passes, a, 2, bf, s0, map[], Entries) && |passes| > 0
    ensures passes[0].base == map[] && passes[0].before == s0 && PassWalked(passes[0], a, 2)
    ensures |passes[0].walk| == 1 && passes[0].walk[0].node == a && passes[0].walk[0].params == map["x" := Num(1)]
    ensures passes[0].result == RunResult(map["trail" := Arr([Num(1)])], Normal(Undefined))
  {
    PassAt(passes, a, 2, bf, s0, map[], Entries, 0);
    RecordPass(passes[0], a, 2);
  }

  /** The second pass, begun on the store and the shared state the first left,
      runs the start node once with `x` as 2 and appends it to the trail. */
  lemma SecondPass(a: Node, bf: Node, s0: Store, passes: seq<Pass>)
    requires a.kind == Leaf && a.hooks == DefaultHooks.(post := RecordX) && bf.kind.BatchFlow?
    requires a in s0.tables && s0.tables[a] == map[]
    requires bf in s0.counters && bf in s0.params && s0.params[bf] == map[]
    requires PassesRan(passes, a, 2, bf, s0, map[], Entries) && |passes| > 1
    requires passes[0].before == s0 && PassWalked(passes[0], a, 2)
    requires |passes[0].walk| == 1 && passes[0].walk[0].node == a
    requires passes[0].result == RunResult(map["trail" := Arr([Num(1)])], Normal(Undefined))
    ensures passes[1].base == map[]
    ensures |passes[1].walk| == 1 && passes[1].walk[0].params == map["x" := Num(2)]
    ensures passes[1].result == RunResult(map["trail" := Arr([Num(1), Num(2)])], Normal(Undefined))
  {
    PassAt(passes, a, 2, bf, s0, map[], Entries, 1);
    SecondBase(a, bf, s0, passes);
    PassTables(passes[0], a, 2);
    RecordAfter(passes[1], a);
  }

  /** A pass over `{ x: 2 }` on an empty base, begun with 1 on the trail,
      records 1 then 2. */
  lemma RecordAfter(p1: Pass, a: Node)
    requires a.kind == Leaf && a.hooks == DefaultHooks.(post := RecordX)
    requires PassWalked(p1, a, 2)
    requires a in p1.before.tables && p1.before.tables[a] == map[]
    requires p1.sharedIn == map["trail" := Arr([Num(1)])]
    requires p1.base == map[] && p1.entry == Obj(map["x" := Num(2)])
    ensures |p1.walk| == 1 && p1.walk[0].params == map["x" := Num(2)]
    ensures p1.result == RunResult(map["trail" := Arr([Num(1), Num(2)])], Normal(Undefined))
  {
    RecordPass(p1, a, 2);
    assert [Num(1)] + [Num(2)] == [Num(1), Num(2)];
  }

  /** The first pass visits neither the BatchFlow nor any other, so the second
      begins with the flow's params as they were before the loop. */
  lemma SecondBase(a: Node, bf: Node, s0: Store, passes: seq<Pass>)
    requires a.kind == Leaf && bf.kind.BatchFlow? && bf in s0.counters && bf in s0.params
    requires PassesRan(passes, a, 2, bf, s0, map[], Entries) && |passes| > 1
    requires |passes[0].walk| == 1 && passes[0].walk[0].node == a
    ensures passes[1].base == s0.params[bf]
  {
    forall i, k | 0 <= i < 1 && 0 <= k < |passes[i].walk|
      ensures passes[i].walk[k].node != bf && !passes[i].walk[k].node.kind.BatchFlow?
    {
      assert i == 0 && k == 0;
    }
    PassBase(passes, a, 2, bf, s0, map[], Entries, 1);
  }

  /** The passes of a BatchFlow over `Entries`, whose flow starts at a node that
      records `x` and has no successor: there are two, both on the flow's params
      from before the loop, seeing `x` as 1 and then 2. */
  lemma TwoPasses(a: Node, bf: Node, s0: Store, passes: seq<Pass>)
    requires a.kind == Leaf && a.hooks == DefaultHooks.(post := RecordX) && bf.kind.BatchFlow?
    requires a in s0.tables && s0.tables[a] == map[]
    requires bf in s0.counters && bf in s0.params && s0.params[bf] == map[]
    requires PassesRan(passes, a, 2, bf, s0, map[], Entries)
    requires |passes| == 0 || Last(passes).result.completion.Normal? ==> |passes| == 2
    ensures |passes| == 2
    ensures passes[0].base == map[] && passes[1].base == map[]
    ensures |passes[0].walk| == 1 && passes[0].walk[0].params == map["x" := Num(1)]
    ensures |passes[1].walk| == 1 && passes[1].walk[0].params == map["x" := Num(2)]
    ensures passes[1].result == RunResult(map["trail" := Arr([Num(1), Num(2)])], Normal(Undefined))
  {
    FirstPass(a, bf, s0, passes);
    assert |passes| == 2;
    SecondPass(a, bf, s0, passes);
  }

  /** A BatchFlow whose prep returns `[{ x: 1 }, { x: 2 }]` walks its flow once per
      entry, in order: the first pass sees `x` as 1, the second as 2, both on
      the flow's own (empty) params, and the trail records 1 then 2. */
  method BatchOverEntries() returns (res: RunResult, ghost passes: seq<Pass>)
    ensures |passes| == 2 && |passes[0].walk| == 1 && |passes[1].walk| == 1
    ensures passes[0].walk[0].params == map["x" := Num(1)] && passes[1].walk[0].params == map["x" := Num(2)]
    ensures res == RunResult(map["trail" := Arr([Num(1), Num(2)])], Normal(Undefined))
  {
    var a := new Node(Leaf, DefaultHooks.(post := RecordX));
    var bf := new Node(BatchFlow(a), DefaultHooks.(prep := TwoEntries));
    ghost var U := {a, bf};
    ghost var s0 := Now(U);
    res, passes := bf.RunBatchFlow(map[], 2, U, s0);
    assert PrepEntries(TwoEntries(map[], map[])) == Ok(Entries);
    TwoPasses(a, bf, s0, passes);
  }
}
