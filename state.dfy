/** The recommender's per-request state (`RecState` of src/recommender/state.py)
    and the retrieved product document it carries. */
module State {
  import opened Wrappers

  /** A LangChain document as the recommender sees it: an optional id, the
      serialised product text and its string-valued metadata columns. */
  datatype Doc = Doc(id: Option<string>, pageContent: string, metadata: map<string, string>)
  {
    /** `doc.metadata.get("Product Details", "")`. */
    function ProductDetails(): string {
      if "Product Details" in metadata then metadata["Product Details"] else ""
    }
  }

  /** `on_topic`: the request starts it as the boolean False, and the topic
      classifier overwrites it with the label string it produced. */
  datatype Topic = Flag(flag: bool) | Label(score: string)

  /** One value of the state dictionary. `products` is never written by any
      node; None stands for the absent key. */
  datatype Snapshot = Snapshot(
    query: string,
    onTopic: Topic,
    recommendation: string,
    products: Option<string>,
    selfQueryState: string,
    docs: seq<Doc>,
    rankerAttempted: bool)

  /** `state.get("products")` is falsy. */
  predicate NoProducts(s: Snapshot) {
    s.products.None? || s.products.value == []
  }

  /** The state dictionary that the graph's nodes update in place. */
  class RecState {
    var query: string
    var onTopic: Topic
    var recommendation: string
    var products: Option<string>
    var selfQueryState: string
    var docs: seq<Doc>
    var rankerAttempted: bool

    function Value(): Snapshot
      reads this
    {
      Snapshot(query, onTopic, recommendation, products, selfQueryState, docs, rankerAttempted)
    }

    constructor (s: Snapshot)
      ensures Value() == s
    {
      query := s.query;
      onTopic := s.onTopic;
      recommendation := s.recommendation;
      products := s.products;
      selfQueryState := s.selfQueryState;
      docs := s.docs;
      rankerAttempted := s.rankerAttempted;
    }
  }
}
