/** The recommender workflow of src/recommender/graph.py: the graph that
    `create_recommendaer_graph` builds, the two node wrappers defined there, the
    routing predicates, and a run of the compiled graph from a node to END. The
    topic classifier, the self-query chain, the off-topic chat model, the
    cross-encoder and the RAG generator are parameters (`Oracles`). */
module Graph {
  import opened Wrappers
  import opened State
  import RagNode
  import RankerNode

  datatype Node = CheckTopic | SelfQueryRetrieve | NotFashionLlmResponse | RagRecommender | Ranker | End

  /** The three routing lambdas passed to `add_conditional_edges`, with their path maps. */
  datatype Router = TopicRouter | DocsRouter | RagRouter

  /** The node a router sends the state to; None when the path map has no entry
      for the value the lambda produced (only the topic router can miss). */
  function Route(router: Router, s: Snapshot): (r: Option<Node>)
    ensures r.None? <==> router == TopicRouter && s.onTopic != Label("Yes") && s.onTopic != Label("No")
    ensures r == Some(Ranker) ==> s.docs == []
    ensures router == TopicRouter ==>
              (r == Some(SelfQueryRetrieve) <==> s.onTopic == Label("Yes"))
              && (r == Some(NotFashionLlmResponse) <==> s.onTopic == Label("No"))
    ensures router == DocsRouter ==>
              (r == Some(RagRecommender) <==> s.docs != []) && (r == Some(Ranker) <==> s.docs == [])
    ensures router == RagRouter ==>
              (r == Some(Ranker) <==> s.docs == [] && NoProducts(s) && !s.rankerAttempted)
              && (r == Some(Ranker) || r == Some(End))
  {
    match router
    case TopicRouter =>
      if s.onTopic == Label("Yes") then Some(SelfQueryRetrieve)
      else if s.onTopic == Label("No") then Some(NotFashionLlmResponse)
      else None
    case DocsRouter =>
      if s.docs != [] then Some(RagRecommender) else Some(Ranker)
    case RagRouter =>
      if s.docs == [] && NoProducts(s) && !s.rankerAttempted then Some(Ranker) else Some(End)
  }

  /** A workflow as the builder calls leave it. */
  datatype Graph = Graph(nodes: set<Node>, edges: seq<(Node, Node)>, entry: Option<Node>, routers: map<Node, Router>)

  /** The `StateGraph` under construction. */
  class Workflow {
    var nodes: set<Node>
    var edges: seq<(Node, Node)>
    var entry: Option<Node>
    var routers: map<Node, Router>

    function Value(): Graph
      reads this
    {
      Graph(nodes, edges, entry, routers)
    }

    constructor ()
      ensures Value() == Graph({}, [], None, map[])
    {
      nodes := {};
      edges := [];
      entry := None;
      routers := map[];
    }

    method AddNode(n: Node)
      modifies this
      ensures Value() == old(Value()).(nodes := old(nodes) + {n})
    {
      nodes := nodes + {n};
    }

    method AddEdge(source: Node, target: Node)
      modifies this
      ensures Value() == old(Value()).(edges := old(edges) + [(source, target)])
    {
      edges := edges + [(source, target)];
    }

    method SetEntryPoint(n: Node)
      modifies this
      ensures Value() == old(Value()).(entry := Some(n))
    {
      entry := Some(n);
    }

    method AddConditionalEdges(source: Node, router: Router)
      modifies this
      ensures Value() == old(Value()).(routers := old(routers)[source := router])
    {
      routers := routers[source := router];
    }
  }

  /** The graph `create_recommendaer_graph` compiles. */
  const RecommenderGraph: Graph :=
    Graph({SelfQueryRetrieve, RagRecommender, Ranker, CheckTopic, NotFashionLlmResponse},
          [(Ranker, RagRecommender), (RagRecommender, End), (NotFashionLlmResponse, End)],
          Some(CheckTopic),
          map[CheckTopic := TopicRouter, SelfQueryRetrieve := DocsRouter, RagRecommender := RagRouter])

  /** `create_recommendaer_graph`: five nodes, three plain edges, the entry point
      and three conditional edges, added in the source's order. */
  method CreateRecommenderGraph() returns (w: Workflow)
    ensures fresh(w) && w.Value() == RecommenderGraph
  {
    w := new Workflow();
    w.AddNode(SelfQueryRetrieve);
    w.AddNode(RagRecommender);
    w.AddNode(Ranker);
    w.AddNode(CheckTopic);
    w.AddNode(NotFashionLlmResponse);
    assert w.nodes == RecommenderGraph.nodes;
    w.AddEdge(Ranker, RagRecommender);
    w.AddEdge(RagRecommender, End);
    w.AddEdge(NotFashionLlmResponse, End);
    assert w.edges == RecommenderGraph.edges;
    w.SetEntryPoint(CheckTopic);
    w.AddConditionalEdges(CheckTopic, TopicRouter);
    w.AddConditionalEdges(SelfQueryRetrieve, DocsRouter);
    w.AddConditionalEdges(RagRecommender, RagRouter);
    assert w.routers == RecommenderGraph.routers;
  }

  /** Every target a node's outgoing edges give for state `s`: the plain edges'
      targets and the router's choice; None when the router has no path. */
  function Successors(g: Graph, node: Node, s: Snapshot): (r: Option<set<Node>>)
    ensures r.Some? ==> forall e :: e in g.edges && e.0 == node ==> e.1 in r.value
  {
    var plain := set e | e in g.edges && e.0 == node :: e.1;
    if node in g.routers then
      match Route(g.routers[node], s)
      case None => None
      case Some(t) => Some(plain + {t})
    else Some(plain)
  }

  /** The next node of a run: the routing of the compiled graph, with END standing
      for "the run stops"; None is the topic router's missing path. */
  function Next(node: Node, s: Snapshot): (r: Option<Node>)
    requires node != End
    ensures r.None? <==> node == CheckTopic && s.onTopic != Label("Yes") && s.onTopic != Label("No")
    ensures r == Some(Ranker) ==> s.docs == []
    ensures r == Some(Ranker) ==> node == SelfQueryRetrieve || (node == RagRecommender && !s.rankerAttempted)
    ensures node == CheckTopic ==>
              (r == Some(SelfQueryRetrieve) <==> s.onTopic == Label("Yes"))
              && (r == Some(NotFashionLlmResponse) <==> s.onTopic == Label("No"))
    ensures node == SelfQueryRetrieve ==>
              (r == Some(RagRecommender) <==> s.docs != []) && (r == Some(Ranker) <==> s.docs == [])
    ensures node == RagRecommender ==>
              (r == Some(Ranker) <==> s.docs == [] && NoProducts(s) && !s.rankerAttempted)
              && (r == Some(Ranker) || r == Some(End))
    ensures node == Ranker ==> r == Some(RagRecommender)
    ensures node == NotFashionLlmResponse ==> r == Some(End)
  {
    match node
    case CheckTopic => Route(TopicRouter, s)
    case SelfQueryRetrieve => Route(DocsRouter, s)
    case RagRecommender => Route(RagRouter, s)
    case Ranker => Some(RagRecommender)
    case NotFashionLlmResponse => Some(End)
  }

  /** The compiled graph follows `Next`: apart from END, the only target of a
      node's edges is the node `Next` names. On `rag_recommender` the plain edge of
      line 62 adds END beside the router's choice, which leaves the runnable
      successor to the router. */
  lemma GraphFollowsNext(node: Node, s: Snapshot)
    requires node != End
    ensures Successors(RecommenderGraph, node, s).None? <==> Next(node, s).None?
    ensures Next(node, s).Some? ==>
              Successors(RecommenderGraph, node, s).value - {End}
              == if Next(node, s).value == End then {} else {Next(node, s).value}
    ensures node == RagRecommender ==> End in Successors(RecommenderGraph, node, s).value
  {
    var g := RecommenderGraph;
    var plain := set e | e in g.edges && e.0 == node :: e.1;
    assert (Ranker, RagRecommender) == g.edges[0];
    assert (RagRecommender, End) == g.edges[1];
    assert (NotFashionLlmResponse, End) == g.edges[2];
    match node {
      case CheckTopic =>
        assert plain == {};
      case SelfQueryRetrieve =>
        assert plain == {};
      case RagRecommender =>
        assert plain == {End};
      case Ranker =>
        assert plain == {RagRecommender};
      case NotFashionLlmResponse =>
        assert plain == {End};
    }
  }

  /** The external calls a run makes. A Failure is an exception. */
  datatype Oracles = Oracles(
    classify: string -> Result<string, string>,
    selfQuery: string -> Result<seq<Doc>, string>,
    chat: string -> Result<string, string>,
    crossEncode: string -> Result<seq<Doc>, string>,
    generate: (string, seq<Doc>) -> Result<string, string>)

  const OffTopicReplyFallback: string := "很抱歉，我目前只支持时尚穿搭相关的智能推荐。请提问与时尚穿搭相关的问题。"

  const OffTopicPromptHead: string := "用户提问："

  const OffTopicPromptTail: string := "\n\n 你需要针对用户提问作出合理、得体的回答。并提醒用户你的专业是时尚穿搭推荐、询问用户需要什么样的服装"

  /** The prompt `not_fashion_llm_response` sends: the query between a fixed head and tail. */
  function OffTopicPrompt(query: string): (r: string)
    ensures |r| == |OffTopicPromptHead| + |query| + |OffTopicPromptTail|
    ensures r[..|OffTopicPromptHead|] == OffTopicPromptHead
    ensures r[|OffTopicPromptHead|..|OffTopicPromptHead| + |query|] == query
    ensures r[|OffTopicPromptHead| + |query|..] == OffTopicPromptTail
  {
    OffTopicPromptHead + query + OffTopicPromptTail
  }

  /** Different queries give different prompts. */
  lemma OffTopicPromptInjective(a: string, b: string)
    requires OffTopicPrompt(a) == OffTopicPrompt(b)
    ensures a == b
  {
    assert |a| == |b|;
    assert a == OffTopicPrompt(a)[|OffTopicPromptHead|..|OffTopicPromptHead| + |a|];
  }

  /** `topic_classifier`: stores the classifier's label; its exceptions are not caught. */
  function CheckTopicEffect(s: Snapshot, classified: Result<string, string>): (r: Result<Snapshot, string>)
    ensures r.Failure? <==> classified.Failure?
    ensures r.Success? ==> r.value == s.(onTopic := Label(classified.value))
  {
    match classified
    case Failure(e) => Failure(e)
    case Success(score) => Success(s.(onTopic := Label(score)))
  }

  /** The `self_query_retrieve` wrapper: the retrieved documents, or [] when
      loading the embeddings or index or running the chain raised. */
  function SelfQueryEffect(s: Snapshot, retrieved: Result<seq<Doc>, string>): (r: Snapshot)
    ensures retrieved.Failure? ==> r.docs == []
    ensures retrieved.Success? ==> r.docs == retrieved.value
    ensures r == s.(docs := r.docs)
  {
    s.(docs := if retrieved.Success? then retrieved.value else [])
  }

  /** `not_fashion_llm_response`: the chat model's reply, or the fixed scope message
      when getting the model or invoking it raised. */
  function NotFashionEffect(s: Snapshot, reply: Result<string, string>): (r: Snapshot)
    ensures reply.Success? ==> r.recommendation == reply.value
    ensures reply.Failure? ==> r.recommendation == OffTopicReplyFallback
    ensures r == s.(recommendation := r.recommendation)
  {
    s.(recommendation := if reply.Success? then reply.value else OffTopicReplyFallback)
  }

  /** `topic_classifier`: writes the classifier's label into the state dictionary;
      an exception leaves the state as it was and is passed on. */
  method TopicClassifier(state: RecState, o: Oracles) returns (raised: Option<string>)
    modifies state
    ensures var e := CheckTopicEffect(old(state.Value()), o.classify(old(state.query)));
            (raised.Some? <==> e.Failure?)
            && (raised.Some? ==> raised.value == e.error && state.Value() == old(state.Value()))
            && (raised.None? ==> state.Value() == e.value)
  {
    var query := state.query;
    var result := o.classify(query);
    if result.Failure? {
      return Some(result.error);
    }
    state.onTopic := Label(result.value);
    return None;
  }

  /** The `self_query_retrieve` wrapper, writing into the state dictionary. */
  method SelfQueryRetrieveNode(state: RecState, o: Oracles)
    modifies state
    ensures state.Value() == SelfQueryEffect(old(state.Value()), o.selfQuery(old(state.query)))
  {
    var retrieved := o.selfQuery(state.query);
    match retrieved {
      case Success(docs) => state.docs := docs;
      case Failure(_) => state.docs := [];
    }
  }

  /** `not_fashion_llm_response`, writing into the state dictionary. */
  method NotFashionLlmResponseNode(state: RecState, o: Oracles)
    modifies state
    ensures state.Value() == NotFashionEffect(old(state.Value()), o.chat(OffTopicPrompt(old(state.query))))
  {
    var userQuery := state.query;
    var prompt := OffTopicPrompt(userQuery);
    var response := o.chat(prompt);
    if response.Success? {
      state.recommendation := response.value;
    } else {
      state.recommendation := OffTopicReplyFallback;
    }
  }

  /** One node's effect on the state; a Failure is an exception the node lets through. */
  function Execute(node: Node, s: Snapshot, o: Oracles): (r: Result<Snapshot, string>)
    requires node != End
    ensures r.Failure? ==> node == CheckTopic || node == Ranker
    ensures r.Success? ==> r.value.query == s.query
    ensures r.Success? ==> r.value.rankerAttempted == (s.rankerAttempted || node == Ranker)
    ensures r.Success? ==> r.value.products == s.products
  {
    match node
    case CheckTopic => CheckTopicEffect(s, o.classify(s.query))
    case SelfQueryRetrieve => Success(SelfQueryEffect(s, o.selfQuery(s.query)))
    case NotFashionLlmResponse => Success(NotFashionEffect(s, o.chat(OffTopicPrompt(s.query))))
    case RagRecommender => Success(RagNode.RagEffect(s, o.generate))
    case Ranker => RankerNode.RankerEffect(s, o.crossEncode(s.query))
  }

  /** An upper bound on the nodes a run from `node` still executes. */
  function Measure(node: Node, s: Snapshot): nat {
    match node
    case End => 0
    case NotFashionLlmResponse => 1
    case RagRecommender => if s.rankerAttempted then 1 else 3
    case Ranker => 2
    case SelfQueryRetrieve => 4
    case CheckTopic => 5
  }

  /** Every step of a run lowers the measure. */
  lemma StepDecreases(node: Node, s: Snapshot, o: Oracles)
    requires node != End && Execute(node, s, o).Success?
    requires Next(node, Execute(node, s, o).value).Some?
    ensures Measure(Next(node, Execute(node, s, o).value).value, Execute(node, s, o).value) < Measure(node, s)
  {
  }

  /** How a run ends, and the nodes it executed in order. */
  datatype Outcome = Outcome(final: Result<Snapshot, string>, trace: seq<Node>)

  /** Invoking the compiled graph from `node`: execute, route, repeat until END.
      A node's exception or a missing path ends the run with a Failure. */
  function Run(node: Node, s: Snapshot, o: Oracles): (r: Outcome)
    ensures node == End <==> r.trace == []
    ensures node != End ==> r.trace[0] == node
    decreases Measure(node, s)
  {
    if node == End then Outcome(Success(s), [])
    else
      match Execute(node, s, o)
      case Failure(e) => Outcome(Failure(e), [node])
      case Success(s1) =>
        match Next(node, s1)
        case None => Outcome(Failure("no route for on_topic"), [node])
        case Some(t) =>
          StepDecreases(node, s, o);
          var rest := Run(t, s1, o);
          Outcome(rest.final, [node] + rest.trace)
  }

  /** A run executes at most as many nodes as the measure of its start. */
  lemma {:induction false} TraceWithinMeasure(node: Node, s: Snapshot, o: Oracles)
    ensures |Run(node, s, o).trace| <= Measure(node, s)
    decreases Measure(node, s)
  {
    if node != End && Execute(node, s, o).Success? {
      var s1 := Execute(node, s, o).value;
      if Next(node, s1).Some? {
        StepDecreases(node, s, o);
        TraceWithinMeasure(Next(node, s1).value, s1, o);
      }
    }
  }

  /** One step of a run that routes to `t`. */
  lemma RunStep(node: Node, s: Snapshot, o: Oracles, t: Node)
    requires node != End && Execute(node, s, o).Success?
    requires Next(node, Execute(node, s, o).value) == Some(t)
    ensures var s1 := Execute(node, s, o).value;
            Run(node, s, o) == Outcome(Run(t, s1, o).final, [node] + Run(t, s1, o).trace)
  {
  }

  /** A node whose routing gives END is the last one executed. */
  lemma RunLast(node: Node, s: Snapshot, o: Oracles)
    requires node != End && Execute(node, s, o).Success?
    requires Next(node, Execute(node, s, o).value) == Some(End)
    ensures Run(node, s, o) == Outcome(Success(Execute(node, s, o).value), [node])
  {
    RunStep(node, s, o, End);
    assert [node] + [] == [node];
  }

  lemma RunFromRanker(s: Snapshot, o: Oracles)
    ensures var r := Run(Ranker, s, o);
            (r.trace == [Ranker] && r.final.Failure?) || (r.trace == [Ranker, RagRecommender] && r.final.Success?)
  {
    var e := Execute(Ranker, s, o);
    if e.Success? {
      var s1 := e.value;
      RunLast(RagRecommender, s1, o);
      RunStep(Ranker, s, o, RagRecommender);
    }
  }

  lemma RunFromRag(s: Snapshot, o: Oracles)
    ensures var r := Run(RagRecommender, s, o);
            (r.trace == [RagRecommender] && r.final.Success?)
            || (r.trace == [RagRecommender, Ranker] && r.final.Failure?)
            || (r.trace == [RagRecommender, Ranker, RagRecommender] && r.final.Success?)
  {
    var s1 := Execute(RagRecommender, s, o).value;
    if Next(RagRecommender, s1) == Some(Ranker) {
      RunFromRanker(s1, o);
      RunStep(RagRecommender, s, o, Ranker);
    } else {
      RunLast(RagRecommender, s, o);
    }
  }

  /** The paths a run from `self_query_retrieve` can take, with whether it succeeds. */
  predicate SelfQueryPath(t: seq<Node>, ok: bool) {
    (t == [SelfQueryRetrieve, RagRecommender] && ok)
    || (t == [SelfQueryRetrieve, RagRecommender, Ranker] && !ok)
    || (t == [SelfQueryRetrieve, RagRecommender, Ranker, RagRecommender] && ok)
    || (t == [SelfQueryRetrieve, Ranker] && !ok)
    || (t == [SelfQueryRetrieve, Ranker, RagRecommender] && ok)
  }

  /** The paths a run from the entry point can take, with whether it succeeds. */
  predicate EntryPath(t: seq<Node>, ok: bool) {
    (t == [CheckTopic] && !ok)
    || (t == [CheckTopic, NotFashionLlmResponse] && ok)
    || (t == [CheckTopic, SelfQueryRetrieve, RagRecommender] && ok)
    || (t == [CheckTopic, SelfQueryRetrieve, RagRecommender, Ranker] && !ok)
    || (t == [CheckTopic, SelfQueryRetrieve, RagRecommender, Ranker, RagRecommender] && ok)
    || (t == [CheckTopic, SelfQueryRetrieve, Ranker] && !ok)
    || (t == [CheckTopic, SelfQueryRetrieve, Ranker, RagRecommender] && ok)
  }

  lemma RunFromSelfQuery(s: Snapshot, o: Oracles)
    ensures var r := Run(SelfQueryRetrieve, s, o);
            SelfQueryPath(r.trace, r.final.Success?)
  {
    var retrieved := o.selfQuery(s.query);
    if retrieved.Failure? || retrieved.value == [] {
      EmptyRetrievalGoesToRanker(s, o);
    } else {
      var s1 := SelfQueryEffect(s, retrieved);
      RetrievedDocsGoToRag(s, o);
      RunFromRag(s1, o);
      var r1 := Run(RagRecommender, s1, o);
      assert [SelfQueryRetrieve] + [RagRecommender] == [SelfQueryRetrieve, RagRecommender];
      assert [SelfQueryRetrieve] + [RagRecommender, Ranker] == [SelfQueryRetrieve, RagRecommender, Ranker];
      assert [SelfQueryRetrieve] + [RagRecommender, Ranker, RagRecommender]
             == [SelfQueryRetrieve, RagRecommender, Ranker, RagRecommender];
    }
  }

  /** Classifying on topic and then following a retrieval path is an entry path. */
  lemma PrependCheckTopic(t: seq<Node>, ok: bool)
    requires SelfQueryPath(t, ok)
    ensures EntryPath([CheckTopic] + t, ok)
  {
    if t == [SelfQueryRetrieve, RagRecommender] {
      assert [CheckTopic] + t == [CheckTopic, SelfQueryRetrieve, RagRecommender];
    } else if t == [SelfQueryRetrieve, RagRecommender, Ranker] {
      assert [CheckTopic] + t == [CheckTopic, SelfQueryRetrieve, RagRecommender, Ranker];
    } else if t == [SelfQueryRetrieve, RagRecommender, Ranker, RagRecommender] {
      assert [CheckTopic] + t == [CheckTopic, SelfQueryRetrieve, RagRecommender, Ranker, RagRecommender];
    } else if t == [SelfQueryRetrieve, Ranker] {
      assert [CheckTopic] + t == [CheckTopic, SelfQueryRetrieve, Ranker];
    } else {
      assert [CheckTopic] + t == [CheckTopic, SelfQueryRetrieve, Ranker, RagRecommender];
    }
  }

  /** A run from the entry point follows one of seven paths. It succeeds exactly
      on the complete ones: off topic, RAG only, RAG then ranker then RAG again, or
      ranker then RAG; it fails at the classifier (an exception or a label with no
      path) or at the ranker. */
  lemma RunPaths(s: Snapshot, o: Oracles)
    ensures var r := Run(CheckTopic, s, o);
            EntryPath(r.trace, r.final.Success?)
  {
    var e := Execute(CheckTopic, s, o);
    if e.Success? {
      var s1 := e.value;
      if Next(CheckTopic, s1) == Some(SelfQueryRetrieve) {
        RunFromSelfQuery(s1, o);
        RunStep(CheckTopic, s, o, SelfQueryRetrieve);
        var r1 := Run(SelfQueryRetrieve, s1, o);
        PrependCheckTopic(r1.trace, r1.final.Success?);
      } else if Next(CheckTopic, s1) == Some(NotFashionLlmResponse) {
        RunLast(NotFashionLlmResponse, s1, o);
        RunStep(CheckTopic, s, o, NotFashionLlmResponse);
      }
    }
  }

  /** Every entry path has at most five nodes, one ranker run and two RAG runs. */
  lemma EntryPathBounds(t: seq<Node>, ok: bool)
    requires EntryPath(t, ok)
    ensures |t| <= 5 && multiset(t)[Ranker] <= 1 && multiset(t)[RagRecommender] <= 2
  {
  }

  /** Every run from the entry point reaches END within five node executions,
      runs the ranker at most once and the RAG node at most twice. */
  lemma RunBounds(s: Snapshot, o: Oracles)
    ensures var t := Run(CheckTopic, s, o).trace;
            |t| <= 5 && multiset(t)[Ranker] <= 1 && multiset(t)[RagRecommender] <= 2
  {
    RunPaths(s, o);
    var r := Run(CheckTopic, s, o);
    EntryPathBounds(r.trace, r.final.Success?);
  }

  /** The ranker only runs on an empty document list. */
  lemma RankerOnlyAfterEmptyDocs(node: Node, s: Snapshot, o: Oracles)
    requires node != End && Execute(node, s, o).Success?
    requires Next(node, Execute(node, s, o).value) == Some(Ranker)
    ensures Execute(node, s, o).value.docs == []
  {
  }

  /** A "Yes" label sends the request to retrieval: the run is the classifier
      followed by the run from `self_query_retrieve`. */
  lemma OnTopicRetrieves(s: Snapshot, o: Oracles)
    requires o.classify(s.query) == Success("Yes")
    ensures var s1 := s.(onTopic := Label("Yes"));
            var r := Run(CheckTopic, s, o);
            r.trace == [CheckTopic] + Run(SelfQueryRetrieve, s1, o).trace
            && r.final == Run(SelfQueryRetrieve, s1, o).final
  {
    var s1 := Execute(CheckTopic, s, o).value;
    assert s1 == s.(onTopic := Label("Yes"));
    RunStep(CheckTopic, s, o, SelfQueryRetrieve);
  }

  /** Retrieval that finds documents goes straight to the RAG node. */
  lemma RetrievedDocsGoToRag(s: Snapshot, o: Oracles)
    requires o.selfQuery(s.query).Success? && o.selfQuery(s.query).value != []
    ensures var s1 := SelfQueryEffect(s, o.selfQuery(s.query));
            var r := Run(SelfQueryRetrieve, s, o);
            r.trace == [SelfQueryRetrieve] + Run(RagRecommender, s1, o).trace
            && r.final == Run(RagRecommender, s1, o).final
  {
    RunStep(SelfQueryRetrieve, s, o, RagRecommender);
  }

  /** Retrieval that finds nothing, or raises, goes to the ranker, and the run
      then ends after one more RAG step or fails at the ranker. */
  lemma EmptyRetrievalGoesToRanker(s: Snapshot, o: Oracles)
    requires o.selfQuery(s.query).Failure? || o.selfQuery(s.query).value == []
    ensures var r := Run(SelfQueryRetrieve, s, o);
            (r.trace == [SelfQueryRetrieve, Ranker] && r.final.Failure?)
            || (r.trace == [SelfQueryRetrieve, Ranker, RagRecommender] && r.final.Success?)
  {
    var s1 := Execute(SelfQueryRetrieve, s, o).value;
    assert s1.docs == [];
    RunFromRanker(s1, o);
    RunStep(SelfQueryRetrieve, s, o, Ranker);
  }

  /** The RAG node hands over to the ranker exactly when it leaves no documents,
      no products are set and the ranker has not run yet; otherwise the run ends. */
  lemma RagFallsBackToRanker(s: Snapshot, o: Oracles)
    ensures var s1 := RagNode.RagEffect(s, o.generate);
            var r := Run(RagRecommender, s, o);
            if s1.docs == [] && NoProducts(s1) && !s1.rankerAttempted
            then r.trace == [RagRecommender] + Run(Ranker, s1, o).trace && r.final == Run(Ranker, s1, o).final
            else r.trace == [RagRecommender] && r.final == Success(s1)
  {
    var s1 := RagNode.RagEffect(s, o.generate);
    if s1.docs == [] && NoProducts(s1) && !s1.rankerAttempted {
      RunStep(RagRecommender, s, o, Ranker);
    } else {
      RunLast(RagRecommender, s, o);
    }
  }

  /** An off-topic request ends with the documents it started with. */
  lemma OffTopicKeepsDocs(s: Snapshot, o: Oracles)
    requires o.classify(s.query) == Success("No")
    ensures var r := Run(CheckTopic, s, o);
            r.final.Success? && r.final.value.docs == s.docs
            && r.trace == [CheckTopic, NotFashionLlmResponse]
            && r.final.value.recommendation
               == NotFashionEffect(s, o.chat(OffTopicPrompt(s.query))).recommendation
  {
    var s1 := Execute(CheckTopic, s, o).value;
    assert Next(CheckTopic, s1) == Some(NotFashionLlmResponse);
    var s2 := Execute(NotFashionLlmResponse, s1, o).value;
    assert Run(NotFashionLlmResponse, s1, o) == Outcome(Success(s2), [NotFashionLlmResponse]);
  }
}
