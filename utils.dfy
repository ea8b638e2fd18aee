/** The recommender helpers of src/recommender/utils.py: language detection, the
    language-specific canned responses, the Chroma filter translator that accepts
    and then drops LIKE and CONTAIN comparisons, and the self-query metadata. */
module Utils {
  import opened Wrappers
  import Embedding

  /** A character of the CJK Unified Ideographs block, U+4E00..U+9FFF. */
  predicate IsCjk(c: char) {
    '\U{4E00}' <= c <= '\U{9FFF}'
  }

  /** The search for `[一-鿿]` succeeds. */
  function HasCjk(text: string): (r: bool)
    ensures r <==> exists i :: 0 <= i < |text| && IsCjk(text[i])
  {
    if text == [] then false
    else if IsCjk(text[0]) then true
    else
      var rest := HasCjk(text[1..]);
      assert forall i :: 1 <= i < |text| ==> text[i] == text[1..][i - 1];
      rest
  }

  /** `detect_language`. */
  function DetectLanguage(text: string): (r: string)
    ensures r == "zh" || r == "en"
    ensures r == "zh" <==> exists i :: 0 <= i < |text| && IsCjk(text[i])
  {
    if HasCjk(text) then "zh" else "en"
  }

  /** The `responses` table, by response type and then by language. */
  const Responses: map<string, map<string, string>> := map[
    "error" := map[
      "en" := "I'm sorry, I can't help with that. Please ask a query related to product recommendations.",
      "zh" := "抱歉，我无法帮助您解决这个问题。请询问与产品推荐相关的查询。"],
    "thinking" := map[
      "en" := "🤖 Thinking...",
      "zh" := "🤖 正在思考..."],
    "no_recommendation" := map[
      "en" := "No recommendation found for your request.",
      "zh" := "没有找到适合您需求的推荐。"]]

  /** `get_language_specific_response`. The fallback argument indexes the table
      before the lookup runs, so an unknown response type raises KeyError even
      though `.get` would have tolerated it. */
  function GetLanguageSpecificResponse(query: string, responseType: string): (r: Result<string, string>)
    ensures r.Failure? <==> responseType !in Responses
    ensures r.Success? ==> r.value in Responses[responseType].Values
    ensures r.Success? ==> r.value == Responses[responseType][DetectLanguage(query)]
  {
    if responseType !in Responses then Failure("KeyError: " + responseType)
    else
      var entry := Responses[responseType];
      var fallback := entry["en"];
      var language := DetectLanguage(query);
      Success(if language in entry then entry[language] else fallback)
  }

  /** The default of the `response_type` parameter. */
  const DefaultResponseType: string := "error"

  /** A call that leaves out `response_type` never raises and gives the error
      message in the query's language. */
  lemma DefaultResponseIsError(query: string)
    ensures GetLanguageSpecificResponse(query, DefaultResponseType).Success?
    ensures GetLanguageSpecificResponse(query, DefaultResponseType).value
            == Responses["error"][if HasCjk(query) then "zh" else "en"]
  {
  }

  /** The names src/recommender/utils.py binds at module level: what it imports,
      its functions, its class and its two constants. */
  const ModuleNames: set<string> := {
    "re", "PromptTemplate", "BaseChromaTranslator", "Comparator", "Comparison",
    "detect_language", "get_language_specific_response", "CustomChromaTranslator",
    "ATTRIBUTE_INFO", "DOC_CONTENT", "get_metadata_info", "create_rag_template"}

  /** Every table entry has both languages, so the English fallback is never the
      answer to a Chinese query: the reply's language follows the query's. */
  lemma ResponseFollowsLanguage(query: string, responseType: string)
    requires responseType in Responses
    ensures HasCjk(query) ==> GetLanguageSpecificResponse(query, responseType).value == Responses[responseType]["zh"]
    ensures !HasCjk(query) ==> GetLanguageSpecificResponse(query, responseType).value == Responses[responseType]["en"]
  {
  }

  /** The comparators of LangChain's structured-query language. */
  datatype Comparator = Eq | Ne | Gt | Gte | Lt | Lte | Contain | Like | In | Nin

  datatype Literal = IntLit(i: int) | StrLit(s: string)

  datatype Comparison = Comparison(comparator: Comparator, attribute: string, value: Literal)

  /** The comparators the translator allows after `__init__`: the base list (None
      read as empty) with LIKE and CONTAIN added. */
  function AllowedAfterInit(baseAllowed: Option<seq<Comparator>>): (r: set<Comparator>)
    ensures Like in r && Contain in r
    ensures baseAllowed.Some? ==> forall c :: c in baseAllowed.value ==> c in r
    ensures forall c :: c in r && c != Like && c != Contain ==> baseAllowed.Some? && c in baseAllowed.value
  {
    var base := if baseAllowed.None? then [] else baseAllowed.value;
    (set c | c in base) + {Like, Contain}
  }

  predicate NoDuplicates<T(==)>(s: seq<T>) {
    forall i, j :: 0 <= i < j < |s| ==> s[i] != s[j]
  }

  /** Python's `list(a_set)`: each member once, in an order the model leaves open. */
  method ListOfSet(members: set<Comparator>) returns (l: seq<Comparator>)
    ensures forall c :: c in l <==> c in members
    ensures NoDuplicates(l)
    ensures |l| == |members|
  {
    l := [];
    var rest := members;
    while rest != {}
      invariant rest <= members
      invariant forall c :: c in l <==> c in members && c !in rest
      invariant NoDuplicates(l)
      invariant |l| + |rest| == |members|
      decreases |rest|
    {
      var c :| c in rest;
      l := l + [c];
      rest := rest - {c};
    }
  }

  /** `CustomChromaTranslator`, keeping the one attribute `__init__` writes. The
      base translator's list is a constructor parameter. */
  class CustomChromaTranslator {
    var allowedComparators: seq<Comparator>

    constructor (baseAllowed: Option<seq<Comparator>>)
      ensures forall c :: c in allowedComparators <==> c in AllowedAfterInit(baseAllowed)
      ensures NoDuplicates(allowedComparators)
    {
      var base := if baseAllowed.None? then [] else baseAllowed.value;
      var allowedSet := set c | c in base;
      allowedSet := allowedSet + {Like};
      allowedSet := allowedSet + {Contain};
      var listed := ListOfSet(allowedSet);
      allowedComparators := listed;
    }
  }

  /** `visit_comparison`: LIKE and CONTAIN clauses are dropped (None); every other
      comparison is handed to the base translator's `visit_comparison`. */
  function VisitComparison<T>(comparison: Comparison, base: Comparison -> T): (r: Option<T>)
    ensures r.None? <==> comparison.comparator in {Like, Contain}
    ensures r.Some? ==> r.value == base(comparison)
  {
    if comparison.comparator == Like || comparison.comparator == Contain then None
    else Some(base(comparison))
  }

  /** Every comparison the translator allows and does not drop is one the base
      translator already allowed: the added comparators are accepted only to be
      discarded. */
  lemma AddedComparatorsAreDropped<T>(baseAllowed: Option<seq<Comparator>>, comparison: Comparison,
                                      base: Comparison -> T)
    requires comparison.comparator in AllowedAfterInit(baseAllowed)
    requires VisitComparison(comparison, base).Some?
    ensures baseAllowed.Some? && comparison.comparator in baseAllowed.value
  {
  }

  datatype AttributeInfo = AttributeInfo(name: string, description: string)

  const AttributeInfos: seq<AttributeInfo> := [
    AttributeInfo("Product Details", "Details about the product"),
    AttributeInfo("Brand Name", "Name of the brand"),
    AttributeInfo("Available Sizes",
      "Sizes available for the product (stored as a comma-separated string, e.g., 'small, medium, large'). "
      + "Note: Size filtering is not supported in this implementation."),
    AttributeInfo("Product Price", "Price of the product. Use `lt`, `lte`, `gt`, or `gte` for filtering.")]

  const DocContent: string :=
    "A detailed description of an e-commerce product, including its features, benefits, and specifications."

  /** `get_metadata_info`: the attributes the self-query retriever may filter on
      are exactly the columns the indexer keeps, in the same order. */
  function GetMetadataInfo(): (r: (seq<AttributeInfo>, string))
    ensures |r.0| == |Embedding.ValidColumns|
    ensures forall i :: 0 <= i < |r.0| ==> r.0[i].name == Embedding.ValidColumns[i]
    ensures r.1 == DocContent
  {
    (AttributeInfos, DocContent)
  }
}
