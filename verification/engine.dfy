/**
 * The execution engine behind `compile()` and `invoke()`: starting at the
 * entry node, run the current node on the current state, merge its
 * partial result, resolve the outgoing edge on the merged state, and go
 * on until the end marker. The node handlers are a parameter of the
 * engine, as `add_node` registers them; `StoryHandlers` are graph.py's.
 */
module Engine {
  import opened Wrappers
  import opened StateModel
  import opened Nodes
  import opened Graph

  /** The handler of each node: the current state and the judge verdicts given so far, to a partial result. */
  type Handlers = (Node, State, nat) -> Result<State, Error>

  /** The handler `build_graph` registers for each node. */
  function Step(node: Node, s: State, o: Oracle, round: nat): Result<State, Error>
  {
    match node
    case IntentNode => IntentResult(s, o.classify)
    case SpecNode => NSpec(s, o.buildSpec, round)
    case GenerateNode => NGenerate(s, o.write, round)
    case JudgeNode => NJudge(s, o.review, round)
    case GeneralNode => NGeneral(s, o.chat)
  }

  function StoryHandlers(o: Oracle): Handlers
  {
    (node: Node, s: State, round: nat) => Step(node, s, o, round)
  }

  /** How a run ended: at the end marker, by an exception, or out of fuel. */
  datatype Status = Done | Failed(error: Error) | OutOfFuel

  /** A run: how it ended, the state it ended in, and the nodes it executed, in order. */
  datatype Execution = Execution(status: Status, state: State, trace: seq<Node>)

  /** The judge verdicts given so far, once `node` has run. */
  function NextRound(node: Node, round: nat): nat
  {
    if node == JudgeNode then round + 1 else round
  }

  /**
   * A run of `g` from `node`. Each node visit spends one unit of fuel;
   * the judge-to-spec cycle itself has no bound.
   */
  function Run(g: CompiledGraph, h: Handlers, node: Node, s: State, round: nat, fuel: nat): Execution
    decreases fuel, 1
  {
    if fuel == 0 then Execution(OutOfFuel, s, [])
    else Resume(g, h, node, s, round, fuel, h(node, s, round))
  }

  /** The rest of a run once `node` has produced `step`: merge it, then follow the outgoing edge. */
  function Resume(g: CompiledGraph, h: Handlers, node: Node, s: State, round: nat, fuel: nat,
                  step: Result<State, Error>): Execution
    requires fuel > 0
    decreases fuel, 0
  {
    match step
    case Failure(e) => Execution(Failed(e), s, [node])
    case Success(u) =>
      var merged := Merge(s, u);
      match Next(g, node, merged)
      case Failure(e) => Execution(Failed(e), merged, [node])
      case Success(End) => Execution(Done, merged, [node])
      case Success(To(n)) => Prefixed([node], Run(g, h, n, merged, NextRound(node, round), fuel - 1))
  }

  /** `e` with `prefix` put in front of its trace. */
  function Prefixed(prefix: seq<Node>, e: Execution): Execution
  {
    e.(trace := prefix + e.trace)
  }

  lemma PrefixedTwice(a: seq<Node>, b: seq<Node>, e: Execution)
    ensures Prefixed(a, Prefixed(b, e)) == Prefixed(a + b, e)
  {
  }

  /** A run that goes on past `node` is `node` followed by the run from its successor. */
  lemma RunContinues(g: CompiledGraph, h: Handlers, node: Node, s: State, round: nat, fuel: nat, u: State, n: Node)
    requires fuel > 0 && h(node, s, round) == Success(u)
    requires Next(g, node, Merge(s, u)) == Success(To(n))
    ensures Run(g, h, node, s, round, fuel) ==
      Prefixed([node], Run(g, h, n, Merge(s, u), NextRound(node, round), fuel - 1))
  {
  }

  lemma RunEnds(g: CompiledGraph, h: Handlers, node: Node, s: State, round: nat, fuel: nat, u: State)
    requires fuel > 0 && h(node, s, round) == Success(u)
    requires Next(g, node, Merge(s, u)) == Success(End)
    ensures Run(g, h, node, s, round, fuel) == Execution(Done, Merge(s, u), [node])
  {
  }

  lemma RunBranchFails(g: CompiledGraph, h: Handlers, node: Node, s: State, round: nat, fuel: nat, u: State)
    requires fuel > 0 && h(node, s, round) == Success(u)
    requires Next(g, node, Merge(s, u)).Failure?
    ensures Run(g, h, node, s, round, fuel) ==
      Execution(Failed(Next(g, node, Merge(s, u)).error), Merge(s, u), [node])
  {
  }

  lemma RunStepFails(g: CompiledGraph, h: Handlers, node: Node, s: State, round: nat, fuel: nat)
    requires fuel > 0 && h(node, s, round).Failure?
    ensures Run(g, h, node, s, round, fuel) == Execution(Failed(h(node, s, round).error), s, [node])
  {
  }

  /**
   * One pass of the engine loop: run `node`, merge its result, and resolve
   * the outgoing edge. Either the run finishes here with `e`, or it goes on
   * from `next` in the state `merged`.
   */
  method ExecuteNode(g: CompiledGraph, h: Handlers, node: Node, s: State, round: nat, fuel: nat)
    returns (finished: bool, e: Execution, next: Node, merged: State)
    requires fuel > 0
    ensures finished ==> Run(g, h, node, s, round, fuel) == e
    ensures !finished ==>
      Run(g, h, node, s, round, fuel) == Prefixed([node], Run(g, h, next, merged, NextRound(node, round), fuel - 1))
  {
    var update := h(node, s, round);
    next, merged := node, s;
    if update.Failure? {
      return true, Execution(Failed(update.error), s, [node]), next, merged;
    }
    merged := Merge(s, update.value);
    var target := Next(g, node, merged);
    if target.Failure? {
      return true, Execution(Failed(target.error), merged, [node]), next, merged;
    }
    if target.value == End {
      return true, Execution(Done, merged, [node]), next, merged;
    }
    next := target.value.node;
    finished, e := false, Execution(OutOfFuel, merged, []);
  }

  /**
   * `invoke(payload)`: one evolving state, updated node after node, from
   * the entry until the end marker.
   */
  method Invoke(g: CompiledGraph, payload: State, h: Handlers, fuel: nat) returns (e: Execution)
    ensures e == Run(g, h, g.entry, payload, 0, fuel)
  {
    var node, s, round, left, trace := g.entry, payload, 0, fuel, [];
    while true
      invariant Run(g, h, g.entry, payload, 0, fuel) == Prefixed(trace, Run(g, h, node, s, round, left))
      decreases left
    {
      if left == 0 {
        return Execution(OutOfFuel, s, trace);
      }
      var finished, last, next, merged := ExecuteNode(g, h, node, s, round, left);
      if finished {
        return Prefixed(trace, last);
      }
      PrefixedTwice(trace, [node], Run(g, h, next, merged, NextRound(node, round), left - 1));
      node, s, round, left, trace := next, merged, NextRound(node, round), left - 1, trace + [node];
    }
  }

  /** A run ends properly only after the general node, or after a judge that approved. */
  predicate EndsProperly(last: Node, s: State)
  {
    last == GeneralNode || (last == JudgeNode && s.judgeEvaluation == Some(true))
  }

  /**
   * What a successful step of `node` guarantees once merged: the message
   * and history are untouched, only the intent node writes the intent, and
   * a judge step whose verdict is not a rejection approved and consumed the
   * feedback.
   */
  predicate StepKeeps(node: Node, s: State, u: State)
  {
    && Merge(s, u).message == s.message && Merge(s, u).history == s.history
    && (node != IntentNode ==> Merge(s, u).intent == s.intent)
    && (node == JudgeNode && Merge(s, u).judgeEvaluation != Some(false) ==>
          Merge(s, u).judgeEvaluation == Some(true) && Merge(s, u).feedback == Some(""))
  }

  ghost predicate WellBehaved(h: Handlers)
  {
    forall node, s, round :: h(node, s, round).Success? ==> StepKeeps(node, s, h(node, s, round).value)
  }

  /** graph.py's handlers never write the message or the history, only `n_intent` writes the intent, and the judge always records a verdict. */
  lemma StoryHandlersWellBehaved(o: Oracle)
    ensures WellBehaved(StoryHandlers(o))
  {
    forall node, s, round | StoryHandlers(o)(node, s, round).Success?
      ensures StepKeeps(node, s, StoryHandlers(o)(node, s, round).value)
    {
      var u := Step(node, s, o, round).value;
      match node
      case IntentNode =>
      case SpecNode =>
      case GenerateNode =>
      case JudgeNode =>
      case GeneralNode =>
    }
  }

  /**
   * The path of every run of the story graph, whatever its handlers: it
   * starts at the given node, visits at most one node per unit of fuel,
   * and each step follows an edge of the graph.
   */
  lemma {:induction false} RunPath(h: Handlers, node: Node, s: State, round: nat, fuel: nat)
    ensures |Run(StoryGraph(), h, node, s, round, fuel).trace| <= fuel
    ensures fuel > 0 ==> StartsAt(Run(StoryGraph(), h, node, s, round, fuel).trace, node)
    ensures FollowsEdges(Run(StoryGraph(), h, node, s, round, fuel).trace)
    decreases fuel
  {
    if fuel > 0 {
      var step := h(node, s, round);
      if step.Success? {
        var merged := Merge(s, step.value);
        var next := Next(StoryGraph(), node, merged);
        if next == Success(End) {
          RunEnds(StoryGraph(), h, node, s, round, fuel, step.value);
        } else if next.Success? {
          var n := next.value.node;
          NextFollowsEdges(node, merged);
          RunContinues(StoryGraph(), h, node, s, round, fuel, step.value, n);
          RunPath(h, n, merged, NextRound(node, round), fuel - 1);
          FollowsEdgesCons(node, Run(StoryGraph(), h, n, merged, NextRound(node, round), fuel - 1).trace);
        } else {
          RunBranchFails(StoryGraph(), h, node, s, round, fuel, step.value);
        }
      } else {
        RunStepFails(StoryGraph(), h, node, s, round, fuel);
      }
    }
  }

  /** The run's final state has the message and history it started with. */
  predicate KeepsInput(e: Execution, s: State)
  {
    e.state.message == s.message && e.state.history == s.history
  }

  /**
   * A finished run ended at the general node or at a judge that approved,
   * and in the latter case with the revision feedback consumed.
   */
  predicate FinishesProperly(e: Execution)
  {
    e.status == Done ==>
      && |e.trace| > 0
      && EndsProperly(e.trace[|e.trace| - 1], e.state)
      && (e.trace[|e.trace| - 1] == JudgeNode ==> e.state.feedback == Some(""))
  }

  /**
   * What every run of the story graph with well-behaved handlers ends in:
   * the message and history as they came in, and, when it finished, an end
   * at the general node or at an approving judge with no pending feedback.
   */
  lemma {:induction false} RunOutcome(h: Handlers, node: Node, s: State, round: nat, fuel: nat)
    requires WellBehaved(h)
    ensures KeepsInput(Run(StoryGraph(), h, node, s, round, fuel), s)
    ensures FinishesProperly(Run(StoryGraph(), h, node, s, round, fuel))
    decreases fuel
  {
    if fuel > 0 {
      var step := h(node, s, round);
      if step.Failure? {
        RunStepFails(StoryGraph(), h, node, s, round, fuel);
      } else {
        var merged := Merge(s, step.value);
        assert StepKeeps(node, s, step.value);
        var next := Next(StoryGraph(), node, merged);
        if next == Success(End) {
          RunEnds(StoryGraph(), h, node, s, round, fuel, step.value);
          NextFollowsEdges(node, merged);
        } else if next.Success? {
          RunContinues(StoryGraph(), h, node, s, round, fuel, step.value, next.value.node);
          RunOutcome(h, next.value.node, merged, NextRound(node, round), fuel - 1);
        } else {
          RunBranchFails(StoryGraph(), h, node, s, round, fuel, step.value);
        }
      }
    }
  }

  /**
   * On a finished story run, the run went from intent to spec, each visit
   * to spec is followed by generate and then judge, each judge that is not
   * last sends the run back to spec, and the last judge approved with no
   * pending feedback left. This holds for any well-behaved handlers, and
   * so for graph.py's (`StoryHandlersWellBehaved`).
   */
  lemma FinishedStoryRun(h: Handlers, s: State, fuel: nat)
    requires WellBehaved(h)
    requires var e := Run(StoryGraph(), h, IntentNode, s, 0, fuel);
      e.status == Done && |e.trace| > 0 && e.trace[|e.trace| - 1] != GeneralNode
    ensures var e := Run(StoryGraph(), h, IntentNode, s, 0, fuel);
      && |e.trace| >= 2 && e.trace[0] == IntentNode && e.trace[1] == SpecNode
      && e.trace[|e.trace| - 1] == JudgeNode && e.state.judgeEvaluation == Some(true)
      && (forall i :: 0 <= i < |e.trace| && e.trace[i] == SpecNode ==>
            i + 2 < |e.trace| && e.trace[i + 1] == GenerateNode && e.trace[i + 2] == JudgeNode)
      && (forall i :: 0 <= i < |e.trace| - 1 && e.trace[i] == JudgeNode ==> e.trace[i + 1] == SpecNode)
      && e.state.feedback == Some("")
  {
    var e := Run(StoryGraph(), h, IntentNode, s, 0, fuel);
    RunPath(h, IntentNode, s, 0, fuel);
    RunOutcome(h, IntentNode, s, 0, fuel);
    var t := e.trace;
    assert FollowsEdges(t) && StartsAt(t, IntentNode) && FinishesProperly(e);
    assert t[|t| - 1] == JudgeNode;
    assert |t| >= 2;
    assert CanFollow(t[0], t[1]);
    assert |t| > 2;
    assert CanFollow(t[1], t[2]);
    forall i | 0 <= i < |t| && t[i] == SpecNode
      ensures i + 2 < |t| && t[i + 1] == GenerateNode && t[i + 2] == JudgeNode
    {
      assert CanFollow(t[i], t[i + 1]);
      assert CanFollow(t[i + 1], t[i + 2]);
    }
  }

  /**
   * A run that enters the story cycle (spec, generate, judge) stays in it:
   * it never reaches the general node, and the intent it started with is
   * the intent it ends with.
   */
  lemma {:induction false} CycleKeepsIntent(h: Handlers, node: Node, s: State, round: nat, fuel: nat)
    requires WellBehaved(h) && node != IntentNode && node != GeneralNode
    ensures Run(StoryGraph(), h, node, s, round, fuel).state.intent == s.intent
    ensures Run(StoryGraph(), h, node, s, round, fuel).status == Done ==>
      var t := Run(StoryGraph(), h, node, s, round, fuel).trace;
      |t| > 0 && t[|t| - 1] != GeneralNode
    decreases fuel
  {
    if fuel > 0 {
      var step := h(node, s, round);
      if step.Failure? {
        RunStepFails(StoryGraph(), h, node, s, round, fuel);
      } else {
        var merged := Merge(s, step.value);
        assert StepKeeps(node, s, step.value);
        var next := Next(StoryGraph(), node, merged);
        if next == Success(End) {
          RunEnds(StoryGraph(), h, node, s, round, fuel, step.value);
        } else if next.Success? {
          var n := next.value.node;
          NextFollowsEdges(node, merged);
          RunContinues(StoryGraph(), h, node, s, round, fuel, step.value, n);
          CycleKeepsIntent(h, n, merged, NextRound(node, round), fuel - 1);
        } else {
          RunBranchFails(StoryGraph(), h, node, s, round, fuel, step.value);
        }
      }
    }
  }

  /**
   * The driver's dispatch on the final intent agrees with the route the
   * graph took: a finished run ended at the general node exactly when its
   * final intent is "general".
   */
  lemma DispatchMatchesRoute(h: Handlers, s: State, fuel: nat)
    requires WellBehaved(h)
    requires Run(StoryGraph(), h, IntentNode, s, 0, fuel).status == Done
    ensures var e := Run(StoryGraph(), h, IntentNode, s, 0, fuel);
      |e.trace| > 0 && (e.trace[|e.trace| - 1] == GeneralNode <==> e.state.intent == Some("general"))
  {
    var step := h(IntentNode, s, 0);
    assert fuel > 0 && step.Success?;
    var merged := Merge(s, step.value);
    var next := Next(StoryGraph(), IntentNode, merged);
    IntentRouting(merged);
    NextFollowsEdges(IntentNode, merged);
    assert next.Success? && next.value.To?;
    var n := next.value.node;
    RunContinues(StoryGraph(), h, IntentNode, s, 0, fuel, step.value, n);
    var rest := Run(StoryGraph(), h, n, merged, 0, fuel - 1);
    if n == GeneralNode {
      assert merged.intent == Some("general");
      var last := h(GeneralNode, merged, 0);
      assert fuel - 1 > 0 && last.Success?;
      assert StepKeeps(GeneralNode, merged, last.value);
      FixedRouting(Merge(merged, last.value));
      RunEnds(StoryGraph(), h, GeneralNode, merged, 0, fuel - 1, last.value);
    } else {
      assert n == SpecNode && merged.intent != Some("general");
      CycleKeepsIntent(h, SpecNode, merged, 0, fuel - 1);
    }
  }

  /** A general message takes the short route, intent then general then the end, and touches nothing else. */
  lemma GeneralRun(s: State, o: Oracle, fuel: nat)
    requires fuel >= 2
    requires IntentResult(s, o.classify).Success? && IntentResult(s, o.classify).value.intent == Some("general")
    ensures var e := Run(StoryGraph(), StoryHandlers(o), IntentNode, s, 0, fuel);
      && e.status == Done && e.trace == [IntentNode, GeneralNode]
      && e.state.intent == Some("general") && e.state.generalResponse.Some?
      && forall k :: k != Intent && k != GeneralResponse ==> Agree(e.state, s, k)
  {
    var h := StoryHandlers(o);
    var u := IntentResult(s, o.classify).value;
    var merged := Merge(s, u);
    assert h(IntentNode, s, 0) == Success(u);
    assert Next(StoryGraph(), IntentNode, merged) == Success(To(GeneralNode));
    RunContinues(StoryGraph(), h, IntentNode, s, 0, fuel, u, GeneralNode);
    var v := NGeneral(merged, o.chat).value;
    assert h(GeneralNode, merged, 0) == Success(v);
    RunEnds(StoryGraph(), h, GeneralNode, merged, 0, fuel - 1, v);
    forall k | k != Intent && k != GeneralResponse
      ensures Agree(Merge(merged, v), s, k)
    {
      MergeOverwrites(s, u, k);
      MergeOverwrites(merged, v, k);
    }
  }
}
