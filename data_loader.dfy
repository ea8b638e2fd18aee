/** The module-level category helpers of src/indexing/data_loader.py: keyword
    extraction from a query and a metadata-only category filter over documents. */
module DataLoader {
  import opened Wrappers
  import opened Text
  import opened Seqs
  import opened State

  /** `CATEGORY_KEYWORDS`, in priority order. */
  const CategoryKeywords: seq<string> := ["裙", "裤", "衬衫", "T恤", "夹克", "外套", "背心"]

  /** This copy's category test: the category occurs in the `Product Details`
      metadata (missing key read as ""); the page content is never consulted. */
  predicate Matches(doc: Doc, category: string) {
    Contains(doc.ProductDetails(), category)
  }

  /** The documents that match `category`, in their original order. */
  function Kept(docs: seq<Doc>, category: string): (r: seq<Doc>)
    ensures |r| <= |docs|
    ensures forall d :: d in r <==> d in docs && Matches(d, category)
    ensures forall d :: multiset(r)[d] == if Matches(d, category) then multiset(docs)[d] else 0
    ensures IsSubsequence(r, docs)
  {
    if docs == [] then []
    else
      var init, last := docs[..|docs| - 1], docs[|docs| - 1];
      assert docs == init + [last];
      var k := Kept(init, category);
      KeptCountStep(init, last, k, category);
      if Matches(last, category) then
        var r := k + [last];
        assert r[..|r| - 1] == k;
        r
      else
        k
  }

  /** Appending one document keeps the count of each matching document and adds
      the new one exactly when it matches. */
  lemma KeptCountStep(init: seq<Doc>, last: Doc, k: seq<Doc>, category: string)
    requires forall d :: multiset(k)[d] == if Matches(d, category) then multiset(init)[d] else 0
    ensures var r := if Matches(last, category) then k + [last] else k;
            forall d :: multiset(r)[d] == if Matches(d, category) then multiset(init + [last])[d] else 0
  {
    assert multiset(init + [last]) == multiset(init) + multiset{last};
    if Matches(last, category) {
      assert multiset(k + [last]) == multiset(k) + multiset{last};
    }
  }

  /** `filter_docs_by_category`: a falsy category leaves the list as it is. */
  function FilteredDocs(docs: seq<Doc>, category: Option<string>): (r: seq<Doc>)
    ensures Falsy(category) ==> r == docs
    ensures |r| <= |docs| && IsSubsequence(r, docs)
    ensures forall d :: d in r <==> d in docs && (Falsy(category) || Matches(d, category.value))
    ensures forall d :: multiset(r)[d]
                        == if Falsy(category) || Matches(d, category.value) then multiset(docs)[d] else 0
  {
    if Falsy(category) then
      assert IsSubsequence(docs, docs) by { SubsequenceReflexive(docs); }
      docs
    else Kept(docs, category.value)
  }

  /** `extract_category_from_query`: scans the keywords in list order and returns
      the first one the query contains. */
  method ExtractCategoryFromQuery(query: string) returns (category: Option<string>)
    ensures category == FirstContained(CategoryKeywords, query)
  {
    var i := 0;
    while i < |CategoryKeywords|
      invariant 0 <= i <= |CategoryKeywords|
      invariant FirstMatchFrom(CategoryKeywords, query, i) == FirstMatchFrom(CategoryKeywords, query, 0)
    {
      if Contains(query, CategoryKeywords[i]) {
        return Some(CategoryKeywords[i]);
      }
      i := i + 1;
    }
    return None;
  }

  /** `filter_docs_by_category`: appends each matching document to `filtered`. */
  method FilterDocsByCategory(docs: seq<Doc>, category: Option<string>) returns (filtered: seq<Doc>)
    ensures filtered == FilteredDocs(docs, category)
  {
    if Falsy(category) {
      return docs;
    }
    filtered := [];
    var i := 0;
    while i < |docs|
      invariant 0 <= i <= |docs|
      invariant filtered == Kept(docs[..i], category.value)
    {
      var doc := docs[i];
      assert docs[..i + 1][..i] == docs[..i];
      if Matches(doc, category.value) {
        filtered := filtered + [doc];
      }
      i := i + 1;
    }
    assert docs[..i] == docs;
  }

  /** Filtering twice with the same category is filtering once. */
  lemma {:induction false} KeptIdempotent(docs: seq<Doc>, category: string)
    ensures Kept(Kept(docs, category), category) == Kept(docs, category)
    decreases |docs|
  {
    if docs != [] {
      var init, last := docs[..|docs| - 1], docs[|docs| - 1];
      var k := Kept(init, category);
      KeptIdempotent(init, category);
      if Matches(last, category) {
        var r := k + [last];
        assert Kept(docs, category) == r;
        assert r[..|r| - 1] == k;
        assert Kept(r, category) == Kept(k, category) + [last];
      } else {
        assert Kept(docs, category) == k;
      }
    }
  }

  lemma FilteredDocsIdempotent(docs: seq<Doc>, category: Option<string>)
    ensures FilteredDocs(FilteredDocs(docs, category), category) == FilteredDocs(docs, category)
  {
    if !Falsy(category) {
      KeptIdempotent(docs, category.value);
    }
  }

  /** Lines 58-61 run at import time and read a global `state`; None is an
      unbound name, which raises NameError. */
  function RunModuleTail(state: Option<Snapshot>): (r: Result<Snapshot, string>)
    ensures r.Failure? <==> state.None?
    ensures r.Success? ==>
      r.value == state.value.(docs := FilteredDocs(state.value.docs,
                                                   FirstContained(CategoryKeywords, state.value.query)))
  {
    match state
    case None => Failure("NameError: name 'state' is not defined")
    case Some(s) =>
      var category := FirstContained(CategoryKeywords, s.query);
      Success(s.(docs := FilteredDocs(s.docs, category)))
  }

  /** The module binds no global named `state` before line 58. */
  const StateAtImport: Option<Snapshot> := None

  /** Importing src/indexing/data_loader.py fails. */
  lemma ImportFails()
    ensures RunModuleTail(StateAtImport).Failure?
  {
  }
}
