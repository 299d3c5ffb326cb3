/**
 * The conditional-routing state machine the agents declare with LangGraph's
 * `StateGraph`: stages, one edge group per stage (an unconditional edge, or an
 * edge function whose label picks the next stage through a path map), an entry
 * stage, and the engine that runs a conversation through them.
 *
 * Handlers and edge functions are passed to the runner as functions; what they
 * get from language models, guards and e-mail enters through their arguments.
 */
module StateGraph {
  import opened Wrappers
  import opened Messages

  type Stage = string

  /** What an edge function hands back: a string label, or Python's `None`. */
  datatype Label = Tag(name: string) | Null

  /** Where an edge leads: another stage, or `END`. */
  datatype Target = Node(stage: Stage) | End

  /**
   * The labels an edge function's body can produce: a finite set, or any
   * string at all (a free-text classifier field passed through unchecked).
   */
  datatype Range = Labels(labels: set<Label>) | AnyText

  /** `add_edge(src, dst)` or `add_conditional_edges(src, router, paths)`. */
  datatype Edge =
    | Direct(to: Target)
    | Branch(router: string, range: Range, paths: map<string, Target>)

  /** A declared graph; a stage with no edge group is terminal. */
  datatype Graph = Graph(entry: Option<Stage>, stages: set<Stage>, edges: map<Stage, Edge>)

  predicate TargetExists(g: Graph, t: Target) {
    t.End? || t.stage in g.stages
  }

  predicate TargetsExist(g: Graph, e: Edge) {
    match e
    case Direct(t) => TargetExists(g, t)
    case Branch(_, _, paths) => forall l | l in paths :: TargetExists(g, paths[l])
  }

  /** The structural check done when a graph is compiled: an entry stage, and every edge between declared stages. */
  predicate WellFormed(g: Graph) {
    && g.entry.Some?
    && g.entry.value in g.stages
    && forall s | s in g.edges :: s in g.stages && TargetsExist(g, g.edges[s])
  }

  predicate InRange(l: Label, r: Range) {
    match r
    case Labels(ls) => l in ls
    case AnyText => l.Tag?
  }

  /** Every label the edge function can return names a path. */
  ghost predicate Covers(r: Range, paths: map<string, Target>) {
    forall l: Label | InRange(l, r) :: l.Tag? && l.name in paths
  }

  /** Well formed, and no edge function can return a label its path map lacks. */
  ghost predicate Valid(g: Graph) {
    && WellFormed(g)
    && forall s | s in g.edges && g.edges[s].Branch? :: Covers(g.edges[s].range, g.edges[s].paths)
  }

  /** The stage's edge group needs its edge function to be called. */
  predicate Routed(g: Graph, s: Stage) {
    s in g.edges && g.edges[s].Branch?
  }

  /** Where `s` leads when its edge function said `l` (ignored on a direct edge); `None` when the label has no path. */
  function Successor(g: Graph, s: Stage, l: Label): Option<Target> {
    if s !in g.edges then Some(End)
    else match g.edges[s]
      case Direct(t) => Some(t)
      case Branch(_, _, paths) => if l.Tag? && l.name in paths then Some(paths[l.name]) else None
  }

  /** A string longer than every key of a finite set, so not one of them. */
  lemma {:induction false} LongerThanAll(keys: set<string>) returns (t: string)
    ensures forall k | k in keys :: |k| < |t|
    decreases |keys|
  {
    if keys == {} {
      t := "";
    } else {
      var k :| k in keys;
      var t' := LongerThanAll(keys - {k});
      t := if |k| < |t'| then t' else k + "x";
    }
  }

  /** A path map is finite, so an edge function that may return any string is never covered. */
  lemma AnyTextNeverCovered(paths: map<string, Target>)
    ensures !Covers(AnyText, paths)
  {
    var t := LongerThanAll(paths.Keys);
    assert InRange(Tag(t), AnyText) && t !in paths;
  }

  /** A classifier with two labels is covered by a path map naming both. */
  lemma TwoLabelsCovered(a: string, b: string, ta: Target, tb: Target)
    ensures Covers(Labels({Tag(a), Tag(b)}), map[a := ta, b := tb])
  {
    forall l: Label | InRange(l, Labels({Tag(a), Tag(b)}))
      ensures l.Tag? && l.name in map[a := ta, b := tb]
    {
      assert l == Tag(a) || l == Tag(b);
    }
  }

  // ---------------------------------------------------------------- running

  /** The per-thread state: the message history and whatever else handlers read and write. */
  datatype State<E> = State(messages: seq<Message>, extra: E)

  /** What a handler returns: messages to append, and the new value of the rest. */
  datatype Delta<E> = Delta(messages: seq<Message>, extra: E)

  datatype Handled<E> = Returned(delta: Delta<E>) | Raised(error: string)

  datatype Decision = Chose(chosen: Label) | RouterRaised(error: string)

  /** A stage's handler, given the stage, the step number and the state. */
  type Handler<!E> = (Stage, nat, State<E>) -> Handled<E>

  /** The edge functions, given the stage, the step number and the state after the stage ran. */
  type Router<!E> = (Stage, nat, State<E>) -> Decision

  /** How a run stopped: at `END`, out of steps, at a stage that raised, or at a label with no path. */
  datatype Status =
    | Finished
    | OutOfSteps
    | Failed(stage: Stage, error: string)
    | NoRoute(stage: Stage, chosen: Label)

  /** The final state, the stages that completed in order, and how the run stopped. */
  datatype Outcome<E> = Outcome(state: State<E>, visited: seq<Stage>, status: Status)

  /** Message deltas are appended; the rest is overwritten. */
  function Merge<E>(st: State<E>, d: Delta<E>): State<E> {
    State(st.messages + d.messages, d.extra)
  }

  /**
   * The run from `at`, with `k` steps done out of `budget`. A step runs the
   * stage's handler, merges its delta, asks the edge function (if the stage
   * has one) and moves on. A step that raises, or whose label has no path,
   * leaves the state as it was before that step.
   */
  function Run<E>(g: Graph, handle: Handler<E>, route: Router<E>, at: Target, st: State<E>,
                  k: nat, budget: nat, visited: seq<Stage>): Outcome<E>
    decreases budget - k
  {
    if at.End? then Outcome(st, visited, Finished)
    else if k >= budget then Outcome(st, visited, OutOfSteps)
    else
      var s := at.stage;
      match handle(s, k, st)
      case Raised(e) => Outcome(st, visited, Failed(s, e))
      case Returned(d) =>
        var st' := Merge(st, d);
        var decision := if Routed(g, s) then route(s, k, st') else Chose(Null);
        match decision
        case RouterRaised(e) => Outcome(st, visited, Failed(s, e))
        case Chose(l) =>
          match Successor(g, s, l)
          case None => Outcome(st, visited, NoRoute(s, l))
          case Some(t) => Run(g, handle, route, t, st', k + 1, budget, visited + [s])
  }

  /** One invocation: run from the entry stage with the whole budget. */
  function Execute<E>(g: Graph, handle: Handler<E>, route: Router<E>, st: State<E>, budget: nat): Outcome<E>
    requires g.entry.Some?
  {
    Run(g, handle, route, Node(g.entry.value), st, 0, budget, [])
  }

  /** The engine's step loop. */
  method RunLoop<E>(g: Graph, handle: Handler<E>, route: Router<E>, st0: State<E>, budget: nat)
    returns (out: Outcome<E>)
    requires g.entry.Some?
    ensures out == Execute(g, handle, route, st0, budget)
  {
    var at := Node(g.entry.value);
    var st := st0;
    var k := 0;
    var visited: seq<Stage> := [];
    while at.Node? && k < budget
      invariant Run(g, handle, route, at, st, k, budget, visited) == Execute(g, handle, route, st0, budget)
      decreases budget - k
    {
      var s := at.stage;
      var h := handle(s, k, st);
      if h.Raised? {
        return Outcome(st, visited, Failed(s, h.error));
      }
      var st' := Merge(st, h.delta);
      var decision := if Routed(g, s) then route(s, k, st') else Chose(Null);
      if decision.RouterRaised? {
        return Outcome(st, visited, Failed(s, decision.error));
      }
      var next := Successor(g, s, decision.chosen);
      if next.None? {
        return Outcome(st, visited, NoRoute(s, decision.chosen));
      }
      at, st, k, visited := next.value, st', k + 1, visited + [s];
    }
    out := Outcome(st, visited, if at.End? then Finished else OutOfSteps);
  }

  /** One completed step: the handler returned `d` and the label led to `t`. */
  lemma RunStep<E>(g: Graph, handle: Handler<E>, route: Router<E>, s: Stage, st: State<E>,
                   k: nat, budget: nat, visited: seq<Stage>, d: Delta<E>, l: Label, t: Target)
    requires k < budget
    requires handle(s, k, st) == Returned(d)
    requires (if Routed(g, s) then route(s, k, Merge(st, d)) else Chose(Null)) == Chose(l)
    requires Successor(g, s, l) == Some(t)
    ensures Run(g, handle, route, Node(s), st, k, budget, visited)
         == Run(g, handle, route, t, Merge(st, d), k + 1, budget, visited + [s])
  {
  }

  // ---------------------------------------------------------------- properties of every run

  /**
   * A run only extends the history and the list of completed stages, completes
   * at most one stage per remaining step, and stops for lack of steps only
   * after using every one of them.
   */
  lemma {:induction false} RunBounds<E>(g: Graph, handle: Handler<E>, route: Router<E>, at: Target,
                                        st: State<E>, k: nat, budget: nat, visited: seq<Stage>)
    requires k <= budget
    ensures var out := Run(g, handle, route, at, st, k, budget, visited);
      && visited <= out.visited
      && st.messages <= out.state.messages
      && |out.visited| <= |visited| + (budget - k)
      && (out.status.OutOfSteps? ==> |out.visited| == |visited| + (budget - k))
    decreases budget - k
  {
    if at.Node? && k < budget {
      var s := at.stage;
      var h := handle(s, k, st);
      if h.Returned? {
        var st' := Merge(st, h.delta);
        var decision := if Routed(g, s) then route(s, k, st') else Chose(Null);
        if decision.Chose? {
          var next := Successor(g, s, decision.chosen);
          if next.Some? {
            RunBounds(g, handle, route, next.value, st', k + 1, budget, visited + [s]);
          }
        }
      }
    }
  }

  /** Every handler returns exactly one message. */
  ghost predicate OneMessageEach<E(!new)>(handle: Handler<E>) {
    forall s, k, st :: handle(s, k, st).Returned? ==> |handle(s, k, st).delta.messages| == 1
  }

  /** With one-message handlers, the history grows by exactly one message per completed stage. */
  lemma {:induction false} OneMessagePerStage<E(!new)>(g: Graph, handle: Handler<E>, route: Router<E>, at: Target,
                                                 st: State<E>, k: nat, budget: nat, visited: seq<Stage>)
    requires OneMessageEach(handle)
    ensures var out := Run(g, handle, route, at, st, k, budget, visited);
      |out.state.messages| - |st.messages| == |out.visited| - |visited|
    decreases budget - k
  {
    if at.Node? && k < budget {
      var s := at.stage;
      var h := handle(s, k, st);
      if h.Returned? {
        var st' := Merge(st, h.delta);
        var decision := if Routed(g, s) then route(s, k, st') else Chose(Null);
        if decision.Chose? {
          var next := Successor(g, s, decision.chosen);
          if next.Some? {
            OneMessagePerStage(g, handle, route, next.value, st', k + 1, budget, visited + [s]);
          }
        }
      }
    }
  }

  /** The edge functions only return labels from their declared range. */
  ghost predicate RoutersInRange<E(!new)>(g: Graph, route: Router<E>) {
    forall s, k, st | Routed(g, s) && route(s, k, st).Chose? :: InRange(route(s, k, st).chosen, g.edges[s].range)
  }

  /** In a valid graph whose edge functions keep to their ranges, a run never meets a label without a path. */
  lemma {:induction false} ValidRunAlwaysRoutes<E(!new)>(g: Graph, handle: Handler<E>, route: Router<E>, at: Target,
                                                   st: State<E>, k: nat, budget: nat, visited: seq<Stage>)
    requires Valid(g) && RoutersInRange(g, route)
    ensures !Run(g, handle, route, at, st, k, budget, visited).status.NoRoute?
    decreases budget - k
  {
    if at.Node? && k < budget {
      var s := at.stage;
      var h := handle(s, k, st);
      if h.Returned? {
        var st' := Merge(st, h.delta);
        var decision := if Routed(g, s) then route(s, k, st') else Chose(Null);
        if decision.Chose? {
          if Routed(g, s) {
            assert InRange(decision.chosen, g.edges[s].range);
            assert Covers(g.edges[s].range, g.edges[s].paths);
          }
          var next := Successor(g, s, decision.chosen);
          assert next.Some?;
          ValidRunAlwaysRoutes(g, handle, route, next.value, st', k + 1, budget, visited + [s]);
        }
      }
    }
  }

  /** No handler of a declared stage raises, and no edge function of a routed stage raises. */
  ghost predicate NeverRaises<E(!new)>(g: Graph, handle: Handler<E>, route: Router<E>) {
    && (forall s, k, st | s in g.stages :: handle(s, k, st).Returned?)
    && (forall s, k, st | Routed(g, s) :: route(s, k, st).Chose?)
  }

  /** In a well-formed graph where nothing raises, a run from a declared stage never stops at a failed stage. */
  lemma {:induction false} NothingRaisedNothingFails<E(!new)>(g: Graph, handle: Handler<E>, route: Router<E>, at: Target,
                                                        st: State<E>, k: nat, budget: nat, visited: seq<Stage>)
    requires WellFormed(g) && NeverRaises(g, handle, route) && TargetExists(g, at)
    ensures !Run(g, handle, route, at, st, k, budget, visited).status.Failed?
    decreases budget - k
  {
    if at.Node? && k < budget {
      var s := at.stage;
      var h := handle(s, k, st);
      var st' := Merge(st, h.delta);
      var decision := if Routed(g, s) then route(s, k, st') else Chose(Null);
      var next := Successor(g, s, decision.chosen);
      if next.Some? {
        if s in g.edges {
          assert TargetsExist(g, g.edges[s]);
        }
        NothingRaisedNothingFails(g, handle, route, next.value, st', k + 1, budget, visited + [s]);
      }
    }
  }

  /** From `order[i]`, whatever the label, the graph leads nowhere, to `END`, or to `order[i + 1]`. */
  predicate ChainStep(g: Graph, order: seq<Stage>, i: nat, l: Label)
    requires i < |order|
  {
    var n := Successor(g, order[i], l);
    n.None? || n == Some(End) || (i + 1 < |order| && n == Some(Node(order[i + 1])))
  }

  /** The stages of `order` form a chain: no edge leaves it, skips ahead or goes back. */
  ghost predicate Chain(g: Graph, order: seq<Stage>) {
    forall i: nat, l: Label | i < |order| :: ChainStep(g, order, i, l)
  }

  /**
   * A run started on a chain visits a prefix of it: at most one visit per
   * stage, in order; with a budget at least as long as the rest of the chain
   * it never runs out of steps.
   */
  lemma {:induction false} ChainRun<E>(g: Graph, handle: Handler<E>, route: Router<E>, order: seq<Stage>, j: nat,
                                       st: State<E>, k: nat, budget: nat, visited: seq<Stage>)
    requires Chain(g, order) && j < |order|
    ensures var out := Run(g, handle, route, Node(order[j]), st, k, budget, visited);
      && visited <= out.visited
      && |out.visited| - |visited| <= |order| - j
      && out.visited[|visited|..] == order[j..j + |out.visited| - |visited|]
      && (budget >= k + |order| - j ==> !out.status.OutOfSteps?)
    decreases budget - k
  {
    if k < budget {
      var s := order[j];
      var h := handle(s, k, st);
      if h.Returned? {
        var st' := Merge(st, h.delta);
        var decision := if Routed(g, s) then route(s, k, st') else Chose(Null);
        if decision.Chose? {
          var next := Successor(g, s, decision.chosen);
          assert ChainStep(g, order, j, decision.chosen);
          if next == Some(End) {
            assert Run(g, handle, route, Node(order[j]), st, k, budget, visited)
                == Outcome(st', visited + [s], Finished);
            assert (visited + [s])[|visited|..] == [s] == order[j..j + 1];
          } else if next.Some? {
            RunStep(g, handle, route, s, st, k, budget, visited, h.delta, decision.chosen, Node(order[j + 1]));
            ChainRun(g, handle, route, order, j + 1, st', k + 1, budget, visited + [s]);
            var out := Run(g, handle, route, Node(order[j + 1]), st', k + 1, budget, visited + [s]);
            var n := |out.visited| - |visited + [s]|;
            SuffixAfterPrefix(visited, s, out.visited);
            SliceStartsWith(order, j, n);
          }
        }
      }
    }
  }

  /** What follows `v` in a sequence that extends `v + [x]` starts with `x`. */
  lemma SuffixAfterPrefix<T>(v: seq<T>, x: T, w: seq<T>)
    requires v + [x] <= w
    ensures w[|v|..] == [x] + w[|v| + 1..]
  {
    assert w[|v|] == (v + [x])[|v|];
  }

  /** A slice of `order` from `j` is `order[j]` followed by the slice from `j + 1`. */
  lemma SliceStartsWith<T>(order: seq<T>, j: nat, n: nat)
    requires j + 1 + n <= |order|
    ensures order[j..j + 1 + n] == [order[j]] + order[j + 1..j + 1 + n]
  {
  }

  // ---------------------------------------------------------------- declaring and storing

  /** The `StateGraph` builder: each call records one declaration. */
  class Builder {
    var entry: Option<Stage>
    var stages: set<Stage>
    var edges: map<Stage, Edge>

    constructor ()
      ensures entry == None && stages == {} && edges == map[]
    {
      entry, stages, edges := None, {}, map[];
    }

    /** The graph declared so far. */
    function Declared(): Graph
      reads this
    {
      Graph(entry, stages, edges)
    }

    /** `set_entry_point(s)`. */
    method SetEntryPoint(s: Stage)
      modifies this
      ensures entry == Some(s) && stages == old(stages) && edges == old(edges)
    {
      entry := Some(s);
    }

    /** `add_node(s, handler)`; handlers themselves are given to the runner. */
    method AddNode(s: Stage)
      requires s !in stages
      modifies this
      ensures stages == old(stages) + {s} && entry == old(entry) && edges == old(edges)
    {
      stages := stages + {s};
    }

    /** `add_edge(src, dst)`. */
    method AddEdge(src: Stage, dst: Target)
      requires src !in edges
      modifies this
      ensures edges == old(edges)[src := Direct(dst)] && entry == old(entry) && stages == old(stages)
    {
      edges := edges[src := Direct(dst)];
    }

    /** `add_conditional_edges(src, router, paths)`, with the labels `router` can return. */
    method AddConditionalEdges(src: Stage, router: string, range: Range, paths: map<string, Target>)
      requires src !in edges
      modifies this
      ensures edges == old(edges)[src := Branch(router, range, paths)]
      ensures entry == old(entry) && stages == old(stages)
    {
      edges := edges[src := Branch(router, range, paths)];
    }
  }

  /**
   * The in-memory checkpointer a compiled graph is given: the state of each
   * thread, keyed by `thread_id`.
   */
  class Checkpointer<E> {
    var saved: map<string, State<E>>

    constructor ()
      ensures saved == map[]
    {
      saved := map[];
    }

    /** The saved state of a thread, or an empty history for a new one. */
    function Load(thread: string, blank: E): State<E>
      reads this
    {
      if thread in saved then saved[thread] else State([], blank)
    }

    /**
     * `ainvoke({"messages": [input]}, {"thread_id": thread})`: the input is
     * appended to the thread's history, the graph runs, and the state reached
     * (after the last completed step) is saved for that thread only.
     */
    method Invoke(g: Graph, handle: Handler<E>, route: Router<E>, thread: string, input: Message,
                  blank: E, budget: nat) returns (out: Outcome<E>)
      requires g.entry.Some?
      modifies this
      ensures var before := old(Load(thread, blank));
        out == Execute(g, handle, route, State(before.messages + [input], before.extra), budget)
      ensures saved == old(saved)[thread := out.state]
    {
      var before := Load(thread, blank);
      out := RunLoop(g, handle, route, State(before.messages + [input], before.extra), budget);
      saved := saved[thread := out.state];
    }
  }
}
