/**
 * The routing state machine of graph.py: the two routers, the edge tables
 * of `build_graph`, the builder it fills, and where each step of a run of
 * the compiled graph leads.
 */
module Graph {
  import opened Wrappers
  import opened JsonValue
  import opened Schema
  import opened StateModel
  import opened Prompts
  import opened Nodes

  /** The five named nodes. */
  datatype Node = IntentNode | SpecNode | GenerateNode | JudgeNode | GeneralNode

  /** Where an edge leads: a node, or the end marker. */
  datatype Target = To(node: Node) | End

  /** The decision functions of the conditional edges. */
  datatype Router = AfterIntentRouter | AfterJudgeRouter

  /** An outgoing edge: fixed, or a router with its label table. */
  datatype Edge = Fixed(to: Target) | Branch(router: Router, table: map<string, Target>)

  /** A compiled graph: its entry node and each node's outgoing edge. */
  datatype CompiledGraph = CompiledGraph(entry: Node, edges: map<Node, Edge>)

  /**
   * `e_after_judge`: "OK" when the verdict is true or absent (the default
   * is true), "FIX" when it is false.
   */
  function AfterJudge(s: State): (r: string)
    ensures r == "OK" <==> s.judgeEvaluation != Some(false)
    ensures r == "FIX" <==> s.judgeEvaluation == Some(false)
  {
    if s.judgeEvaluation.GetOr(true) then "OK" else "FIX"
  }

  /** `e_after_intent`: the stored intent, or "story" when there is none. */
  function AfterIntent(s: State): (r: string)
    ensures s.intent.Some? ==> r == s.intent.value
    ensures s.intent.None? ==> r == "story"
  {
    s.intent.GetOr("story")
  }

  function Route(router: Router, s: State): string
  {
    match router
    case AfterIntentRouter => AfterIntent(s)
    case AfterJudgeRouter => AfterJudge(s)
  }

  /** The label table of the intent router. */
  const IntentTable: map<string, Target> :=
    map["story" := To(SpecNode), "feedback" := To(SpecNode), "general" := To(GeneralNode)]

  /** The label table of the judge router; "FIX" closes the revision cycle. */
  const JudgeTable: map<string, Target> := map["OK" := End, "FIX" := To(SpecNode)]

  /** The graph `build_graph` compiles. */
  function StoryGraph(): CompiledGraph
  {
    CompiledGraph(IntentNode, map[
      IntentNode := Branch(AfterIntentRouter, IntentTable),
      SpecNode := Fixed(To(GenerateNode)),
      GenerateNode := Fixed(To(JudgeNode)),
      JudgeNode := Branch(AfterJudgeRouter, JudgeTable),
      GeneralNode := Fixed(End)])
  }

  /**
   * Where the run goes after `node`, evaluated on the post-merge state. A
   * label without an entry in the table is an error. A node without an
   * outgoing edge schedules nothing more.
   */
  function Next(g: CompiledGraph, node: Node, s: State): Result<Target, Error>
  {
    if node !in g.edges then Success(End)
    else
      match g.edges[node]
      case Fixed(t) => Success(t)
      case Branch(router, table) =>
        var choice := Route(router, s);
        if choice in table then Success(table[choice]) else Failure(UnknownBranch(choice))
  }

  /** The only node-to-node steps the story graph has. */
  predicate CanFollow(a: Node, b: Node)
  {
    || (a == IntentNode && (b == SpecNode || b == GeneralNode))
    || (a == SpecNode && b == GenerateNode)
    || (a == GenerateNode && b == JudgeNode)
    || (a == JudgeNode && b == SpecNode)
  }

  /** After the intent node: story and feedback go to spec, general to general, anything else fails. */
  lemma IntentRouting(s: State)
    ensures AfterIntent(s) in {"story", "feedback"} ==> Next(StoryGraph(), IntentNode, s) == Success(To(SpecNode))
    ensures AfterIntent(s) == "general" ==> Next(StoryGraph(), IntentNode, s) == Success(To(GeneralNode))
    ensures AfterIntent(s) !in {"story", "feedback", "general"} ==>
      Next(StoryGraph(), IntentNode, s) == Failure(UnknownBranch(AfterIntent(s)))
  {
  }

  /** After the judge: a false verdict goes back to spec; a true or absent one ends the run. */
  lemma JudgeRouting(s: State)
    ensures Next(StoryGraph(), JudgeNode, s) ==
      Success(if s.judgeEvaluation == Some(false) then To(SpecNode) else End)
  {
  }

  /** The fixed edges: spec to generate, generate to judge, general to the end. */
  lemma FixedRouting(s: State)
    ensures Next(StoryGraph(), SpecNode, s) == Success(To(GenerateNode))
    ensures Next(StoryGraph(), GenerateNode, s) == Success(To(JudgeNode))
    ensures Next(StoryGraph(), GeneralNode, s) == Success(End)
  {
  }

  /** Consecutive nodes of `t` are joined by edges of the story graph. */
  predicate FollowsEdges(t: seq<Node>)
  {
    forall i :: 0 <= i < |t| - 1 ==> CanFollow(t[i], t[i + 1])
  }

  predicate StartsAt(t: seq<Node>, node: Node)
  {
    |t| > 0 && t[0] == node
  }

  lemma FollowsEdgesCons(node: Node, t: seq<Node>)
    requires FollowsEdges(t)
    requires t != [] ==> CanFollow(node, t[0])
    ensures FollowsEdges([node] + t)
  {
    var u := [node] + t;
    forall i | 0 <= i < |u| - 1 ensures CanFollow(u[i], u[i + 1]) {
      if i > 0 { assert u[i] == t[i - 1] && u[i + 1] == t[i]; }
    }
  }

  /** Every step the story graph can take is one of the edges of `CanFollow`. */
  lemma NextFollowsEdges(node: Node, s: State)
    ensures Next(StoryGraph(), node, s).Success? && Next(StoryGraph(), node, s).value.To? ==>
      CanFollow(node, Next(StoryGraph(), node, s).value.node)
    ensures Next(StoryGraph(), node, s) == Success(End) ==>
      node == GeneralNode || (node == JudgeNode && s.judgeEvaluation != Some(false))
  {
  }

  /** Each node's outgoing edge leads only to registered nodes. */
  predicate EdgeWithin(e: Edge, nodes: set<Node>)
  {
    match e
    case Fixed(t) => t.To? ==> t.node in nodes
    case Branch(_, table) => forall l :: l in table && table[l].To? ==> table[l].node in nodes
  }

  /**
   * The builder `build_graph` fills one call at a time: registered nodes,
   * the entry edge from START, and each node's outgoing edge.
   */
  class GraphBuilder {
    var nodes: set<Node>
    var entry: Option<Node>
    var edges: map<Node, Edge>

    constructor ()
      ensures nodes == {} && entry == None && edges == map[]
    {
      nodes, entry, edges := {}, None, map[];
    }

    /** `add_node(name, fn)`; the handler of each node is fixed by `Step`. */
    method AddNode(n: Node)
      modifies this
      ensures nodes == old(nodes) + {n} && entry == old(entry) && edges == old(edges)
    {
      nodes := nodes + {n};
    }

    /** `add_edge(START, n)`. */
    method AddEntry(n: Node)
      modifies this
      ensures entry == Some(n) && nodes == old(nodes) && edges == old(edges)
    {
      entry := Some(n);
    }

    /** `add_edge(from, to)`, with `to` possibly END. */
    method AddEdge(from: Node, to: Target)
      modifies this
      ensures edges == old(edges)[from := Fixed(to)] && nodes == old(nodes) && entry == old(entry)
    {
      edges := edges[from := Fixed(to)];
    }

    /** `add_conditional_edges(from, router, table)`. */
    method AddConditionalEdges(from: Node, router: Router, table: map<string, Target>)
      modifies this
      ensures edges == old(edges)[from := Branch(router, table)] && nodes == old(nodes) && entry == old(entry)
    {
      edges := edges[from := Branch(router, table)];
    }

    /** The entry is set and every edge starts and ends at a registered node. */
    predicate Closed()
      reads this
    {
      && entry.Some? && entry.value in nodes
      && forall n :: n in edges ==> n in nodes && EdgeWithin(edges[n], nodes)
    }

    /** `compile()`: the graph, provided it is closed. */
    method Compile() returns (g: Option<CompiledGraph>)
      ensures g.Some? <==> Closed()
      ensures g.Some? ==> g.value.entry == entry.value && g.value.edges == edges
    {
      if Closed() {
        g := Some(CompiledGraph(entry.value, edges));
      } else {
        g := None;
      }
    }
  }

  /** The five nodes `build_graph` registers. */
  const AllNodes: set<Node> := {IntentNode, SpecNode, GenerateNode, JudgeNode, GeneralNode}

  /** Every edge of the story graph, and every branch of its routing tables, ends at a registered node. */
  lemma StoryGraphClosed()
    ensures forall n: Node :: n in AllNodes
    ensures forall n :: n in StoryGraph().edges ==> EdgeWithin(StoryGraph().edges[n], AllNodes)
  {
    forall n: Node ensures n in AllNodes {
      match n
      case IntentNode =>
      case SpecNode =>
      case GenerateNode =>
      case JudgeNode =>
      case GeneralNode =>
    }
  }

  /** `build_graph`: registers the five nodes and the edges, then compiles. */
  method BuildGraph() returns (g: CompiledGraph)
    ensures g == StoryGraph()
  {
    var b := new GraphBuilder();
    b.AddNode(IntentNode);
    b.AddNode(SpecNode);
    b.AddNode(GenerateNode);
    b.AddNode(JudgeNode);
    b.AddNode(GeneralNode);
    b.AddEntry(IntentNode);
    b.AddConditionalEdges(IntentNode, AfterIntentRouter, IntentTable);
    b.AddEdge(SpecNode, To(GenerateNode));
    b.AddEdge(GenerateNode, To(JudgeNode));
    b.AddConditionalEdges(JudgeNode, AfterJudgeRouter, JudgeTable);
    b.AddEdge(GeneralNode, End);
    assert b.edges == StoryGraph().edges;
    assert b.nodes == AllNodes;
    StoryGraphClosed();
    assert b.Closed();
    var compiled := b.Compile();
    g := compiled.value;
  }

  /**
   * A rejection sends the run back to spec with the judge's explanation as
   * the pending feedback, which the next spec prompt quotes when non-empty.
   */
  lemma RejectionRevisesSpec(s: State, review: (string, nat) -> Option<Json>, round: nat, request: string)
    requires NJudge(s, review, round).Success?
    requires NJudge(s, review, round).value.judgeEvaluation == Some(false)
    ensures var u := NJudge(s, review, round).value;
      var merged := Merge(s, u);
      && Next(StoryGraph(), JudgeNode, merged) == Success(To(SpecNode))
      && merged.feedback == u.judgeFeedback
      && var p := PromptBuildSpec(request, merged.specifications, merged.feedback);
         p.feedback == (if u.judgeFeedback == Some("") then None else u.judgeFeedback)
  {
    var u := NJudge(s, review, round).value;
    assert Present(u, Feedback) && Present(u, Key.JudgeEvaluation);
  }

  /**
   * Feedback from the user goes to spec, and the spec prompt quotes the
   * user's message as the feedback when it is non-empty.
   */
  lemma UserFeedbackRevisesSpec(s: State, classify: ClassifyPrompt -> Option<Json>)
    requires IntentResult(s, classify).Success?
    requires IntentResult(s, classify).value.intent == Some("feedback")
    ensures var merged := Merge(s, IntentResult(s, classify).value);
      && Next(StoryGraph(), IntentNode, merged) == Success(To(SpecNode))
      && var p := PromptBuildSpec(s.message.value, merged.specifications, merged.feedback);
         p.feedback == (if s.message == Some("") then None else s.message)
  {
    var u := IntentResult(s, classify).value;
    assert Present(u, Feedback) && Present(u, Intent);
  }
}
