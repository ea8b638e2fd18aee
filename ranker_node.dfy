/** The `ranker` node of src/recommender/ranker_node.py: the cross-encoder's
    documents for the query, narrowed by the query's category, top up the state's
    document list to three with Python slice semantics. */
module RankerNode {
  import opened Wrappers
  import opened Text
  import opened Seqs
  import opened State
  import DataLoader
  import Utils

  /** The names line 20 imports from src/recommender/utils.py. */
  const ImportedNames: seq<string> := ["filter_docs_by_category", "extract_category_from_query"]

  /** `from module import names`: the first name, in the order written, that the
      module does not bind (the ImportError it raises), or None when all exist. */
  function MissingImport(bound: set<string>, names: seq<string>): (r: Option<string>)
    ensures r.None? <==> forall i :: 0 <= i < |names| ==> names[i] in bound
    ensures r.Some? ==> exists i :: 0 <= i < |names| && names[i] == r.value && r.value !in bound
                                    && forall j :: 0 <= j < i ==> names[j] in bound
  {
    if names == [] then None
    else if names[0] !in bound then Some(names[0])
    else
      var rest := MissingImport(bound, names[1..]);
      if rest.Some? then
        var i :| 0 <= i < |names[1..]| && names[1..][i] == rest.value && rest.value !in bound
                 && forall j :: 0 <= j < i ==> names[1..][j] in bound;
        assert names[i + 1] == rest.value;
        rest
      else rest
  }

  /** As written, importing ranker_node.py raises ImportError: utils.py defines
      neither helper. `BuildRanker` below uses the data_loader.py helpers instead. */
  lemma ImportFails()
    ensures MissingImport(Utils.ModuleNames, ImportedNames) == Some("filter_docs_by_category")
  {
  }

  /** The literal 3 of `margin = 3 - len(state["docs"])`. */
  const TargetCount: int := 3

  /** `build_ranker` after the cross-encoder call: the cross-encoder's documents
      filtered by the query's category. The helpers are the data_loader.py ones,
      the only definitions under the imported names. */
  function BuildRanker(query: string, productDocs: seq<Doc>): (r: seq<Doc>)
    ensures IsSubsequence(r, productDocs)
    ensures var category := FirstContained(DataLoader.CategoryKeywords, query);
            forall d :: d in r <==> d in productDocs && (category.None? || DataLoader.Matches(d, category.value))
    ensures var category := FirstContained(DataLoader.CategoryKeywords, query);
            forall d :: multiset(r)[d]
                        == if category.None? || DataLoader.Matches(d, category.value) then multiset(productDocs)[d] else 0
  {
    DataLoader.FilteredDocs(productDocs, FirstContained(DataLoader.CategoryKeywords, query))
  }

  /** What `ranker_node` does to the state; a Failure is an exception raised while
      loading or invoking the cross-encoder, which leaves the state untouched. */
  function RankerEffect(s: Snapshot, crossEncoded: Result<seq<Doc>, string>): (r: Result<Snapshot, string>)
    ensures r.Failure? <==> crossEncoded.Failure?
    ensures r.Failure? ==> r.error == crossEncoded.error
    ensures r.Success? ==> r.value.rankerAttempted
    ensures r.Success? ==> s.docs <= r.value.docs
    ensures r.Success? ==> r.value.docs[|s.docs|..]
                           == Prefix(BuildRanker(s.query, crossEncoded.value), TargetCount - |s.docs|)
    ensures r.Success? ==> r.value == s.(docs := r.value.docs, rankerAttempted := true)
  {
    match crossEncoded
    case Failure(e) => Failure(e)
    case Success(productDocs) =>
      var ranked := BuildRanker(s.query, productDocs);
      var margin := TargetCount - |s.docs|;
      Success(s.(docs := s.docs + Prefix(ranked, margin), rankerAttempted := true))
  }

  /** `ranker_node`: extends `state.docs` in place and marks the ranker as attempted. */
  method RankerNode(state: RecState, crossEncoded: Result<seq<Doc>, string>) returns (raised: Option<string>)
    modifies state
    ensures raised.Some? <==> crossEncoded.Failure?
    ensures raised.Some? ==> raised.value == crossEncoded.error && state.Value() == old(state.Value())
    ensures raised.None? ==> state.Value() == RankerEffect(old(state.Value()), crossEncoded).value
  {
    var query := state.query;
    if crossEncoded.Failure? {
      return Some(crossEncoded.error);
    }
    var docs := BuildRanker(query, crossEncoded.value);
    var margin := TargetCount - |state.docs|;
    state.docs := state.docs + Prefix(docs, margin);
    state.rankerAttempted := true;
    return None;
  }

  /** With at most three documents already present, exactly `min(3 - n, |ranked|)`
      documents are appended, taken from the front of the ranked list. */
  lemma AppendsUpToTarget(s: Snapshot, productDocs: seq<Doc>)
    requires |s.docs| <= TargetCount
    ensures var ranked := BuildRanker(s.query, productDocs);
            var n := if TargetCount - |s.docs| <= |ranked| then TargetCount - |s.docs| else |ranked|;
            RankerEffect(s, Success(productDocs)).value.docs == s.docs + ranked[..n]
  {
  }

  /** With more than three documents, the negative margin makes the slice keep all
      but the last `n - 3` ranked documents. */
  lemma AppendsWithNegativeMargin(s: Snapshot, productDocs: seq<Doc>)
    requires |s.docs| > TargetCount
    ensures var ranked := BuildRanker(s.query, productDocs);
            var n := if |ranked| >= |s.docs| - TargetCount then |ranked| - (|s.docs| - TargetCount) else 0;
            RankerEffect(s, Success(productDocs)).value.docs == s.docs + ranked[..n]
  {
  }

  /** Every appended document comes from the cross-encoder output and passes the
      query's category test. */
  lemma AppendedPassCategory(s: Snapshot, productDocs: seq<Doc>)
    ensures var r := RankerEffect(s, Success(productDocs)).value;
            var category := FirstContained(DataLoader.CategoryKeywords, s.query);
            forall d :: d in r.docs[|s.docs|..] ==>
              d in productDocs && (category.None? || DataLoader.Matches(d, category.value))
  {
    var ranked := BuildRanker(s.query, productDocs);
    var r := RankerEffect(s, Success(productDocs)).value;
    forall d | d in r.docs[|s.docs|..]
      ensures d in ranked
    {
      assert r.docs[|s.docs|..] <= ranked;
    }
  }

  /** Nothing de-duplicates: a document already present is appended again. */
  lemma NoDeduplication(doc: Doc)
    ensures var s := Snapshot("", Label("Yes"), "", None, "", [doc], false);
            RankerEffect(s, Success([doc])).value.docs == [doc, doc]
  {
    var s := Snapshot("", Label("Yes"), "", None, "", [doc], false);
    assert FirstContained(DataLoader.CategoryKeywords, s.query).None?;
  }
}
