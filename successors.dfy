/** The successor table of a node: action labels to nodes, with last-write-wins
    updates (`addSuccessor`) and the lookup a flow uses to pick the next node
    (`Flow.next`). Generic in the node type, so that it can be stated on values. */
module Successors {
  import opened Js

  /** The label `addSuccessor` uses when none is given, and the one `next` falls back to. */
  const DefaultAction: string := "default"

  /** The table after `successors[action] = node`. */
  function Wire<N>(table: map<string, N>, node: N, action: string): (t: map<string, N>)
    ensures action in t && t[action] == node
    ensures forall k :: k != action ==> (k in t <==> k in table)
    ensures forall k :: k != action && k in table ==> t[k] == table[k]
  {
    table[action := node]
  }

  /** The key `next` looks up: `action || 'default'`, so that a missing or empty
      action selects the default edge. */
  function EdgeKey(action: Option<string>): (key: string)
    ensures key != ""
    ensures action.Some? && action.value != "" ==> key == action.value
    ensures action.None? || action == Some("") ==> key == DefaultAction
  {
    if action.Some? && action.value != "" then action.value else DefaultAction
  }

  /** `next(curr, action)`: the successor registered under the selected key, or
      nothing (`undefined`) when there is none. */
  function Next<N>(table: map<string, N>, action: Option<string>): (r: Option<N>)
    ensures r.Some? <==> EdgeKey(action) in table
    ensures r.Some? ==> r.value == table[EdgeKey(action)]
  {
    var key := EdgeKey(action);
    if key in table then Some(table[key]) else None
  }

  /** The action a flow passes to `next` for a node's result: the result itself
      when it is a string (`typeof actionResult === "string"`), nothing otherwise. */
  function ActionOf(result: Value): (action: Option<string>)
    ensures action.Some? <==> result.Str?
    ensures action.Some? ==> action.value == result.s
  {
    if result.Str? then Some(result.s) else None
  }

  /** Wiring `node` under a non-empty label makes `next` with that label return it. */
  lemma WireThenNext<N>(table: map<string, N>, node: N, action: string)
    requires action != ""
    ensures Next(Wire(table, node, action), Some(action)) == Some(node)
  {
  }

  /** Wiring without a label (the default one) is what a missing action selects. */
  lemma DefaultWireThenNext<N>(table: map<string, N>, node: N)
    ensures Next(Wire(table, node, DefaultAction), None) == Some(node)
    ensures Next(Wire(table, node, DefaultAction), Some("")) == Some(node)
  {
  }

  /** Overwriting a label keeps only the last node registered under it. */
  lemma LastWriteWins<N>(table: map<string, N>, first: N, second: N, action: string)
    ensures Wire(Wire(table, first, action), second, action) == Wire(table, second, action)
  {
  }

  /** Wiring a label leaves every lookup of another key as it was. */
  lemma WireKeepsOtherEdges<N>(table: map<string, N>, node: N, wired: string, action: Option<string>)
    requires EdgeKey(action) != wired
    ensures Next(Wire(table, node, wired), action) == Next(table, action)
  {
  }

  /** An edge wired under the empty label can never be followed: `next` maps the
      empty action to `'default'`. */
  lemma EmptyLabelUnreachable<N>(table: map<string, N>, node: N, action: Option<string>)
    ensures Next(Wire(table, node, ""), action) == Next(table, action)
  {
    WireKeepsOtherEdges(table, node, "", action);
  }

  /** A result that is not a string follows the default edge. */
  lemma NonStringFollowsDefault<N>(table: map<string, N>, result: Value)
    requires !result.Str?
    ensures Next(table, ActionOf(result)) == (if DefaultAction in table then Some(table[DefaultAction]) else None)
  {
  }
}
