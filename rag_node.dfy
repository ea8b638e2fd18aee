/** The `rag_recommender` node of src/recommender/rag_node.py: its own copy of the
    category helpers (this one falls back to the page content), the state update,
    and the choice between the "nothing found" reply, the generator's text and the
    apology carrying the error. */
module RagNode {
  import opened Wrappers
  import opened Text
  import opened Seqs
  import opened State
  import DataLoader

  /** The node's local `CATEGORY_KEYWORDS`, in priority order. */
  const CategoryKeywords: seq<string> := ["裙", "裤", "衬衫", "T恤", "夹克", "外套", "背心"]

  const NotFoundMessage: string := "抱歉，我没有找到相关的产品信息。请尝试更具体的查询。"

  const ErrorPrefix: string := "抱歉，生成推荐时出现错误: "

  /** The text this copy tests: `Product Details` metadata, or the page content
      when that metadata is missing or empty. */
  function Details(doc: Doc): string {
    var details := doc.ProductDetails();
    if details == [] then doc.pageContent else details
  }

  predicate Matches(doc: Doc, category: string) {
    Contains(Details(doc), category)
  }

  /** The documents that match `category`, in their original order. */
  function Kept(docs: seq<Doc>, category: string): (r: seq<Doc>)
    ensures |r| <= |docs|
    ensures forall d :: d in r <==> d in docs && Matches(d, category)
    ensures forall d :: multiset(r)[d] == if Matches(d, category) then multiset(docs)[d] else 0
    ensures IsSubsequence(r, docs)
  {
    if docs == [] then []
    else
      var init, last := docs[..|docs| - 1], docs[|docs| - 1];
      assert docs == init + [last];
      var k := Kept(init, category);
      KeptCountStep(init, last, k, category);
      if Matches(last, category) then
        var r := k + [last];
        assert r[..|r| - 1] == k;
        r
      else
        k
  }

  /** Appending one document keeps the count of each matching document and adds
      the new one exactly when it matches. */
  lemma KeptCountStep(init: seq<Doc>, last: Doc, k: seq<Doc>, category: string)
    requires forall d :: multiset(k)[d] == if Matches(d, category) then multiset(init)[d] else 0
    ensures var r := if Matches(last, category) then k + [last] else k;
            forall d :: multiset(r)[d] == if Matches(d, category) then multiset(init + [last])[d] else 0
  {
    assert multiset(init + [last]) == multiset(init) + multiset{last};
    if Matches(last, category) {
      assert multiset(k + [last]) == multiset(k) + multiset{last};
    }
  }

  /** The nested `filter_docs_by_category`: a falsy category leaves the list as it is. */
  function FilteredDocs(docs: seq<Doc>, category: Option<string>): (r: seq<Doc>)
    ensures Falsy(category) ==> r == docs
    ensures |r| <= |docs| && IsSubsequence(r, docs)
    ensures forall d :: d in r <==> d in docs && (Falsy(category) || Matches(d, category.value))
    ensures forall d :: multiset(r)[d]
                        == if Falsy(category) || Matches(d, category.value) then multiset(docs)[d] else 0
  {
    if Falsy(category) then
      assert IsSubsequence(docs, docs) by { SubsequenceReflexive(docs); }
      docs
    else Kept(docs, category.value)
  }

  /** The nested `extract_category_from_query`: the first keyword, in list
      order, that the query contains. */
  method ExtractCategoryFromQuery(query: string) returns (category: Option<string>)
    ensures category == FirstContained(CategoryKeywords, query)
  {
    var i := 0;
    while i < |CategoryKeywords|
      invariant 0 <= i <= |CategoryKeywords|
      invariant FirstMatchFrom(CategoryKeywords, query, i) == FirstMatchFrom(CategoryKeywords, query, 0)
    {
      if Contains(query, CategoryKeywords[i]) {
        return Some(CategoryKeywords[i]);
      }
      i := i + 1;
    }
    return None;
  }

  /** The nested `filter_docs_by_category`: appends each matching document to `filtered`. */
  method FilterDocsByCategory(docs: seq<Doc>, category: Option<string>) returns (filtered: seq<Doc>)
    ensures filtered == FilteredDocs(docs, category)
  {
    if Falsy(category) {
      return docs;
    }
    filtered := [];
    var i := 0;
    while i < |docs|
      invariant 0 <= i <= |docs|
      invariant filtered == Kept(docs[..i], category.value)
    {
      var doc := docs[i];
      assert docs[..i + 1][..i] == docs[..i];
      if Matches(doc, category.value) {
        filtered := filtered + [doc];
      }
      i := i + 1;
    }
    assert docs[..i] == docs;
  }

  /** The documents the node keeps for a query. */
  function CategoryDocs(query: string, docs: seq<Doc>): seq<Doc> {
    FilteredDocs(docs, FirstContained(CategoryKeywords, query))
  }

  /** What `rag_recommender` does to the state. `generate` stands for building the
      RAG chain and invoking it; a Failure is any exception either raises. */
  function RagEffect(s: Snapshot, generate: (string, seq<Doc>) -> Result<string, string>): (r: Snapshot)
    ensures r.docs == CategoryDocs(s.query, s.docs)
    ensures IsSubsequence(r.docs, s.docs) && |r.docs| <= |s.docs|
    ensures r.docs == [] ==> r.recommendation == NotFoundMessage
    ensures r.docs != [] && generate(s.query, r.docs).Success? ==>
              r.recommendation == generate(s.query, r.docs).value
    ensures r.docs != [] && generate(s.query, r.docs).Failure? ==>
              r.recommendation == ErrorPrefix + generate(s.query, r.docs).error
    ensures r == s.(docs := r.docs, recommendation := r.recommendation)
  {
    var docs := CategoryDocs(s.query, s.docs);
    if docs == [] then s.(docs := docs, recommendation := NotFoundMessage)
    else
      match generate(s.query, docs)
      case Success(text) => s.(docs := docs, recommendation := text)
      case Failure(e) => s.(docs := docs, recommendation := ErrorPrefix + e)
  }

  /** `rag_recommender`: filters `state.docs` in place, then writes the recommendation. */
  method RagRecommender(state: RecState, generate: (string, seq<Doc>) -> Result<string, string>)
    modifies state
    ensures state.Value() == RagEffect(old(state.Value()), generate)
  {
    var query := state.query;
    var docs := state.docs;
    var category := ExtractCategoryFromQuery(query);
    docs := FilterDocsByCategory(docs, category);
    state.docs := docs;
    if docs == [] {
      state.recommendation := NotFoundMessage;
      return;
    }
    var outcome := generate(query, docs);
    match outcome {
      case Success(text) => state.recommendation := text;
      case Failure(e) => state.recommendation := ErrorPrefix + e;
    }
  }

  /** Filtering twice with the same category is filtering once. */
  lemma {:induction false} KeptIdempotent(docs: seq<Doc>, category: string)
    ensures Kept(Kept(docs, category), category) == Kept(docs, category)
    decreases |docs|
  {
    if docs != [] {
      var init, last := docs[..|docs| - 1], docs[|docs| - 1];
      var k := Kept(init, category);
      KeptIdempotent(init, category);
      if Matches(last, category) {
        var r := k + [last];
        assert Kept(docs, category) == r;
        assert r[..|r| - 1] == k;
        assert Kept(r, category) == Kept(k, category) + [last];
      } else {
        assert Kept(docs, category) == k;
      }
    }
  }

  lemma FilteredDocsIdempotent(docs: seq<Doc>, category: Option<string>)
    ensures FilteredDocs(FilteredDocs(docs, category), category) == FilteredDocs(docs, category)
  {
    if !Falsy(category) {
      KeptIdempotent(docs, category.value);
    }
  }

  /** When no document survives the filter, the generator is not consulted: any
      two generators give the same state. */
  lemma GeneratorSkippedWhenEmpty(s: Snapshot, g1: (string, seq<Doc>) -> Result<string, string>,
                                  g2: (string, seq<Doc>) -> Result<string, string>)
    requires CategoryDocs(s.query, s.docs) == []
    ensures RagEffect(s, g1) == RagEffect(s, g2)
  {
  }

  /** Every document the data_loader.py filter keeps passes this node's test too. */
  lemma MetadataMatchImpliesMatch(doc: Doc, category: string)
    requires DataLoader.Matches(doc, category)
    ensures Matches(doc, category)
  {
    if doc.ProductDetails() == [] {
      ContainsAt(doc.ProductDetails(), category);
      ContainsAt(doc.pageContent, category);
      assert OccursAt(doc.pageContent, category, 0);
    }
  }

  /** Re-filtering a list that the data_loader.py filter produced, with the same
      category, removes nothing: this is what happens to the ranker's documents
      when `rag_recommender` runs after it. */
  lemma {:induction false} RefilterKeepsMetadataMatches(docs: seq<Doc>, category: string)
    ensures Kept(DataLoader.Kept(docs, category), category) == DataLoader.Kept(docs, category)
    decreases |docs|
  {
    if docs != [] {
      var init, last := docs[..|docs| - 1], docs[|docs| - 1];
      var k := DataLoader.Kept(init, category);
      RefilterKeepsMetadataMatches(init, category);
      if DataLoader.Matches(last, category) {
        MetadataMatchImpliesMatch(last, category);
        var r := k + [last];
        assert DataLoader.Kept(docs, category) == r;
        assert r[..|r| - 1] == k;
        assert Kept(r, category) == Kept(k, category) + [last];
      } else {
        assert DataLoader.Kept(docs, category) == k;
      }
    }
  }

  /** The two copies differ: a document whose `Product Details` is missing but
      whose page content names the category passes this node's filter and not
      the data_loader.py one. */
  lemma FiltersDiffer()
    ensures var doc := Doc(None, "半身裙", map[]);
            Matches(doc, "裙") && !DataLoader.Matches(doc, "裙")
  {
    var doc := Doc(None, "半身裙", map[]);
    assert OccursAt(doc.pageContent, "裙", 2);
    ContainsAt(doc.pageContent, "裙");
  }
}
