/** The recommendation endpoint of src/api/routers/recommender.py: the startup hook
    that builds the graph, the question check, the initial state, and the mapping
    of the graph's answer or exception onto the code/message/data envelope. */
module Router {
  import opened Wrappers
  import opened Text
  import opened State
  import Graph

  datatype Data = Data(answer: string, indexes: seq<Option<string>>)

  /** The JSON body of every response, and the `detail` of every HTTPException. */
  datatype Envelope = Envelope(code: int, message: string, data: Option<Data>)

  /** The keys of the graph's final state that the endpoint reads; None is an absent key. */
  datatype GraphOutput = GraphOutput(recommendation: Option<string>, docs: Option<seq<Doc>>)

  const BadRequestMessage: string := "请求参数错误：question不能为空"
  const NoResultMessage: string := "没有找到相关推荐结果"
  const OkMessage: string := "成功"
  const ServerErrorPrefix: string := "服务器内部错误: "
  const DefaultRecommendation: string := "No recommendation found for your request."

  /** The module global `graph_app`, None until the startup hook runs. */
  class RecommenderApi {
    var graphApp: Option<Graph.Graph>

    constructor ()
      ensures graphApp.None?
    {
      graphApp := None;
    }

    /** `startup_event`. */
    method StartupEvent()
      modifies this
      ensures graphApp == Some(Graph.RecommenderGraph)
    {
      var workflow := Graph.CreateRecommenderGraph();
      graphApp := Some(workflow.Value());
    }
  }

  /** `not request.question or not request.question.strip()`. */
  predicate Blank(question: string) {
    Strip(question) == []
  }

  /** `initial_state`: the key `products` is not set. */
  function InitialState(question: string): (s: Snapshot)
    ensures s.query == question && s.docs == [] && !s.rankerAttempted && s.products.None?
    ensures s.onTopic == Flag(false) && s.recommendation == [] && s.selfQueryState == []
  {
    Snapshot(question, Flag(false), "", None, "", [], false)
  }

  /** `[doc.id for doc in docs]`. */
  function Indexes(docs: seq<Doc>): (r: seq<Option<string>>)
    ensures |r| == |docs|
    ensures forall i :: 0 <= i < |docs| ==> r[i] == docs[i].id
  {
    seq(|docs|, i requires 0 <= i < |docs| => docs[i].id)
  }

  /** `get_chat_response`. `invoke` is `graph_app.invoke`; a Failure is any
      exception it raises, and calling it while `graph_app` is None raises too. */
  function GetChatResponse(question: string, graphApp: Option<Graph.Graph>,
                           invoke: Snapshot -> Result<GraphOutput, string>): (r: Envelope)
    ensures r.code == 200 || r.code == 400 || r.code == 404 || r.code == 500
    ensures r.code != 200 ==> r.data.None?
    ensures Blank(question) <==> r == Envelope(400, BadRequestMessage, None)
    ensures r.code == 500 <==> !Blank(question) && (graphApp.None? || invoke(InitialState(question)).Failure?)
    ensures !Blank(question) && graphApp.Some? && invoke(InitialState(question)).Failure? ==>
              r.message == ServerErrorPrefix + invoke(InitialState(question)).error
    ensures r.code == 404 ==> r.message == NoResultMessage
    ensures r.code == 200 ==>
              var out := invoke(InitialState(question)).value;
              var docs := if out.docs.Some? then out.docs.value else [];
              docs != [] && r.message == OkMessage
              && r.data == Some(Data(if out.recommendation.Some? then out.recommendation.value else DefaultRecommendation,
                                     Indexes(docs)))
    ensures r.code == 404 <==> !Blank(question) && graphApp.Some? && invoke(InitialState(question)).Success?
                               && var out := invoke(InitialState(question)).value;
                                  out.docs.None? || out.docs.value == []
  {
    if Blank(question) then Envelope(400, BadRequestMessage, None)
    else if graphApp.None? then
      Envelope(500, ServerErrorPrefix + "'NoneType' object has no attribute 'invoke'", None)
    else
      match invoke(InitialState(question))
      case Failure(e) => Envelope(500, ServerErrorPrefix + e, None)
      case Success(response) =>
        var recommendation := if response.recommendation.Some? then response.recommendation.value
                              else DefaultRecommendation;
        var docs := if response.docs.Some? then response.docs.value else [];
        var indexes := Indexes(docs);
        if indexes == [] then Envelope(404, NoResultMessage, None)
        else Envelope(200, OkMessage, Some(Data(recommendation, indexes)))
  }

  /** A blank question is answered without consulting the graph. */
  lemma BlankQuestionSkipsGraph(question: string, app1: Option<Graph.Graph>, app2: Option<Graph.Graph>,
                                i1: Snapshot -> Result<GraphOutput, string>, i2: Snapshot -> Result<GraphOutput, string>)
    requires Blank(question)
    ensures GetChatResponse(question, app1, i1) == GetChatResponse(question, app2, i2)
  {
  }

  /** A document without an id still counts as a result: 404 depends only on the
      document list being empty. */
  lemma IdlessDocumentsAreResults(question: string, app: Graph.Graph, doc: Doc)
    requires !Blank(question) && doc.id.None?
    ensures var invoke: Snapshot -> Result<GraphOutput, string> := (s: Snapshot) => Success(GraphOutput(Some(""), Some([doc])));
            GetChatResponse(question, Some(app), invoke).code == 200
  {
    var invoke: Snapshot -> Result<GraphOutput, string> := (s: Snapshot) => Success(GraphOutput(Some(""), Some([doc])));
    assert Indexes([doc]) == [None];
  }

  /** `graph_app.invoke` for the compiled recommender graph and given external calls. */
  function InvokeGraph(o: Graph.Oracles): Snapshot -> Result<GraphOutput, string> {
    (s: Snapshot) =>
      var out := Graph.Run(Graph.CheckTopic, s, o).final;
      if out.Success? then Success(GraphOutput(Some(out.value.recommendation), Some(out.value.docs)))
      else Failure(out.error)
  }

  /** Every question the classifier calls off-topic ends in 404, although the
      off-topic node wrote a reply: that node never sets the documents, which
      start empty. */
  lemma OffTopicQuestionGives404(question: string, o: Graph.Oracles)
    requires !Blank(question)
    requires o.classify(question) == Success("No")
    ensures GetChatResponse(question, Some(Graph.RecommenderGraph), InvokeGraph(o)).code == 404
  {
    Graph.OffTopicKeepsDocs(InitialState(question), o);
  }
}
