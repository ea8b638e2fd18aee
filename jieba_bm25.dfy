/** The jieba-backed BM25 retriever of src/indexing/jieba_bm25.py: token cleanup,
    the per-document corpus, and the top-k selection over BM25 scores. The jieba
    segmenter (`lcut`) and the BM25 scores are inputs; their arithmetic is not
    part of this model. */
module JiebaBm25 {
  import opened Text
  import opened Seqs
  import opened State

  /** What `tokenize` may receive: an already tokenised list or a text. */
  datatype TokenizerInput = TokenList(tokens: seq<string>) | RawText(text: string)

  /** Each segment stripped, in the segmenter's order. */
  function StrippedAll(segments: seq<string>): (r: seq<string>)
    ensures |r| == |segments|
    ensures forall i :: 0 <= i < |segments| ==> r[i] == Strip(segments[i])
  {
    if segments == [] then []
    else StrippedAll(segments[..|segments| - 1]) + [Strip(segments[|segments| - 1])]
  }

  /** How many segments are blank, i.e. strip to the empty string. */
  function BlankCount(segments: seq<string>): (r: nat)
    ensures r <= |segments|
  {
    if segments == [] then 0
    else BlankCount(segments[..|segments| - 1]) + (if Strip(segments[|segments| - 1]) == [] then 1 else 0)
  }

  /** `[t.strip() for t in tokens if t.strip()]`: one token per non-blank segment. */
  function CleanTokens(segments: seq<string>): (r: seq<string>)
    ensures |r| <= |segments|
    ensures forall i :: 0 <= i < |r| ==> r[i] != [] && Strip(r[i]) == r[i]
  {
    if segments == [] then []
    else
      var last := segments[|segments| - 1];
      var k := CleanTokens(segments[..|segments| - 1]);
      if Strip(last) != [] then
        StripIdempotent(last);
        k + [Strip(last)]
      else k
  }

  /** The cleaned tokens are the non-empty stripped segments, in the segmenter's order. */
  lemma {:induction false} CleanTokensOrder(segments: seq<string>)
    ensures IsSubsequence(CleanTokens(segments), StrippedAll(segments))
    decreases |segments|
  {
    if segments != [] {
      var init, last := segments[..|segments| - 1], segments[|segments| - 1];
      var k := CleanTokens(init);
      CleanTokensOrder(init);
      var stripped := StrippedAll(segments);
      assert stripped == StrippedAll(init) + [Strip(last)];
      assert stripped[..|stripped| - 1] == StrippedAll(init);
      if Strip(last) != [] {
        var r := k + [Strip(last)];
        assert CleanTokens(segments) == r;
        assert r[..|r| - 1] == k;
      } else {
        assert CleanTokens(segments) == k;
      }
    }
  }

  /** Exactly the blank segments are dropped: one token per non-blank segment. */
  lemma {:induction false} CleanTokensCount(segments: seq<string>)
    ensures |CleanTokens(segments)| == |segments| - BlankCount(segments)
    decreases |segments|
  {
    if segments != [] {
      CleanTokensCount(segments[..|segments| - 1]);
    }
  }

  /** A non-blank segment's stripped form is among the cleaned tokens. */
  lemma {:induction false} CleanTokensKeeps(segments: seq<string>, i: nat)
    requires i < |segments| && Strip(segments[i]) != []
    ensures Strip(segments[i]) in CleanTokens(segments)
    decreases |segments|
  {
    var init, last := segments[..|segments| - 1], segments[|segments| - 1];
    var k := CleanTokens(init);
    if i < |init| {
      assert segments[i] == init[i];
      CleanTokensKeeps(init, i);
      if Strip(last) != [] {
        assert CleanTokens(segments) == k + [Strip(last)];
      }
    } else {
      assert CleanTokens(segments) == k + [Strip(last)];
    }
  }

  /** `JiebaTokenizer.tokenize`: a list is returned as it is; a text is segmented
      by `lcut` and cleaned. */
  function Tokenize(input: TokenizerInput, lcut: string -> seq<string>): (r: seq<string>)
    ensures input.TokenList? ==> r == input.tokens
    ensures input.RawText? ==> forall i :: 0 <= i < |r| ==> r[i] != [] && Strip(r[i]) == r[i]
    ensures input.RawText? ==> |r| == |lcut(input.text)| - BlankCount(lcut(input.text))
  {
    match input
    case TokenList(tokens) => tokens
    case RawText(text) =>
      CleanTokensCount(lcut(text));
      CleanTokens(lcut(text))
  }

  /** The tokens of a text are its non-empty stripped segments, in the segmenter's
      order: nothing is reordered or invented, and no non-blank segment is dropped. */
  lemma TokenizeOrder(text: string, lcut: string -> seq<string>)
    ensures IsSubsequence(Tokenize(RawText(text), lcut), StrippedAll(lcut(text)))
    ensures var segments := lcut(text);
            forall i :: 0 <= i < |segments| && Strip(segments[i]) != [] ==> Strip(segments[i]) in Tokenize(RawText(text), lcut)
  {
    CleanTokensOrder(lcut(text));
    var segments := lcut(text);
    forall i | 0 <= i < |segments| && Strip(segments[i]) != []
      ensures Strip(segments[i]) in Tokenize(RawText(text), lcut)
    {
      CleanTokensKeeps(segments, i);
    }
  }

  /** Cleaning is idempotent: a cleaned token list passed back as segments comes
      out unchanged. */
  lemma {:induction false} CleanTokensIdempotent(segments: seq<string>)
    ensures CleanTokens(CleanTokens(segments)) == CleanTokens(segments)
    decreases |segments|
  {
    if segments != [] {
      var init, last := segments[..|segments| - 1], segments[|segments| - 1];
      var k := CleanTokens(init);
      CleanTokensIdempotent(init);
      StripIdempotent(last);
      if Strip(last) != [] {
        var r := k + [Strip(last)];
        assert CleanTokens(segments) == r;
        assert r[..|r| - 1] == k;
      } else {
        assert CleanTokens(segments) == k;
      }
    }
  }

  /** The token list of every document, in document order. */
  function Corpus(documents: seq<Doc>, lcut: string -> seq<string>): (r: seq<seq<string>>)
    ensures |r| == |documents|
    ensures forall i :: 0 <= i < |documents| ==> r[i] == Tokenize(RawText(documents[i].pageContent), lcut)
  {
    seq(|documents|, i requires 0 <= i < |documents| => Tokenize(RawText(documents[i].pageContent), lcut))
  }

  lemma CorpusAppend(documents: seq<Doc>, i: nat, lcut: string -> seq<string>)
    requires i < |documents|
    ensures Corpus(documents[..i + 1], lcut)
            == Corpus(documents[..i], lcut) + [Tokenize(RawText(documents[i].pageContent), lcut)]
  {
    assert documents[..i + 1] == documents[..i] + [documents[i]];
  }

  /** Document `a` comes before document `b` in `sorted(range(n), key=scores, reverse=True)`:
      a higher score first, and on a tie the lower index first (the sort is stable). */
  predicate Before(scores: seq<real>, a: nat, b: nat)
    requires a < |scores| && b < |scores|
  {
    scores[a] > scores[b] || (scores[a] == scores[b] && a < b)
  }

  predicate InRange(scores: seq<real>, l: seq<nat>) {
    forall i :: 0 <= i < |l| ==> l[i] < |scores|
  }

  /** Every earlier index of `l` comes before every later one. */
  predicate Ordered(scores: seq<real>, l: seq<nat>)
    requires InRange(scores, l)
  {
    forall i, j :: 0 <= i < j < |l| ==> Before(scores, l[i], l[j])
  }

  function Insert(scores: seq<real>, l: seq<nat>, x: nat): (r: seq<nat>)
    requires x < |scores| && InRange(scores, l)
    ensures |r| == |l| + 1 && InRange(scores, r)
    ensures multiset(r) == multiset(l) + multiset{x}
  {
    if l == [] then [x]
    else if Before(scores, x, l[0]) then [x] + l
    else
      assert l == [l[0]] + l[1..];
      [l[0]] + Insert(scores, l[1..], x)
  }

  /** A head that comes before every element keeps an ordered list ordered. */
  lemma ConsOrdered(scores: seq<real>, y: nat, l: seq<nat>)
    requires y < |scores| && InRange(scores, l) && Ordered(scores, l)
    requires forall j :: 0 <= j < |l| ==> Before(scores, y, l[j])
    ensures InRange(scores, [y] + l) && Ordered(scores, [y] + l)
  {
    var r := [y] + l;
    forall i, j | 0 <= i < j < |r|
      ensures Before(scores, r[i], r[j])
    {
      assert r[j] == l[j - 1];
      if i > 0 {
        assert r[i] == l[i - 1];
      }
    }
  }

  lemma {:induction false} InsertOrdered(scores: seq<real>, l: seq<nat>, x: nat)
    requires x < |scores| && InRange(scores, l) && Ordered(scores, l) && x !in l
    ensures Ordered(scores, Insert(scores, l, x))
    decreases |l|
  {
    if l == [] {
    } else if Before(scores, x, l[0]) {
      forall j | 0 <= j < |l|
        ensures Before(scores, x, l[j])
      {
        if j > 0 {
          assert Before(scores, l[0], l[j]);
        }
      }
      ConsOrdered(scores, x, l);
    } else {
      var rest := l[1..];
      assert l == [l[0]] + rest;
      var tail := Insert(scores, rest, x);
      assert x !in rest;
      assert Ordered(scores, rest) by {
        forall i, j | 0 <= i < j < |rest|
          ensures Before(scores, rest[i], rest[j])
        {
          assert rest[i] == l[i + 1] && rest[j] == l[j + 1];
        }
      }
      InsertOrdered(scores, rest, x);
      forall j | 0 <= j < |tail|
        ensures Before(scores, l[0], tail[j])
      {
        var y := tail[j];
        assert y in multiset(tail);
        if y != x {
          assert y in multiset(rest);
          var m :| 0 <= m < |rest| && rest[m] == y;
          assert l[m + 1] == y;
        }
      }
      ConsOrdered(scores, l[0], tail);
      assert Insert(scores, l, x) == [l[0]] + tail;
    }
  }

  /** `sorted(range(n), key=lambda i: scores[i], reverse=True)`, built by insertion. */
  function SortedIndices(scores: seq<real>, n: nat): (r: seq<nat>)
    requires n <= |scores|
    ensures |r| == n && InRange(scores, r)
  {
    if n == 0 then []
    else
      var last: nat := n - 1;
      Insert(scores, SortedIndices(scores, last), last)
  }

  /** The ranking holds every index below `n` and nothing else. */
  lemma {:induction false} SortedIndicesMembers(scores: seq<real>, n: nat)
    requires n <= |scores|
    ensures forall k: nat :: k in SortedIndices(scores, n) <==> k < n
  {
    if n > 0 {
      var last: nat := n - 1;
      var prev := SortedIndices(scores, last);
      SortedIndicesMembers(scores, last);
      var r := Insert(scores, prev, last);
      assert SortedIndices(scores, n) == r;
      var m := multiset(prev) + multiset{last};
      assert multiset(r) == m;
      forall k: nat
        ensures k in r <==> k < n
      {
        calc {
          k in r;
          k in multiset(r);
          k in multiset(prev) || k == last;
          k in prev || k == last;
        }
      }
    }
  }

  lemma {:induction false} SortedIndicesOrdered(scores: seq<real>, n: nat)
    requires n <= |scores|
    ensures Ordered(scores, SortedIndices(scores, n))
  {
    if n > 0 {
      var last: nat := n - 1;
      var prev := SortedIndices(scores, last);
      SortedIndicesOrdered(scores, last);
      assert last !in prev by { SortedIndicesMembers(scores, last); }
      InsertOrdered(scores, prev, last);
      assert SortedIndices(scores, n) == Insert(scores, prev, last);
    }
  }

  /** The ranking of all documents. */
  function Ranking(scores: seq<real>): (r: seq<nat>)
    ensures |r| == |scores| && InRange(scores, r)
    ensures forall k: nat :: k in r <==> k < |scores|
  {
    SortedIndicesMembers(scores, |scores|);
    SortedIndices(scores, |scores|)
  }

  /** The candidates whose score is positive, in their order. */
  function PositiveOnly(scores: seq<real>, l: seq<nat>): (r: seq<nat>)
    requires InRange(scores, l)
    ensures InRange(scores, r) && |r| <= |l|
    ensures forall k :: k in r <==> k in l && scores[k] > 0.0
  {
    if l == [] then []
    else
      var init, last := l[..|l| - 1], l[|l| - 1];
      assert l == init + [last];
      var k := PositiveOnly(scores, init);
      if scores[last] > 0.0 then k + [last] else k
  }

  /** The indices `get_relevant_documents` returns documents for: the first
      `top_k` of the ranking (Python slice), then only those with a positive score. */
  function Selected(scores: seq<real>, topK: int): (r: seq<nat>)
    ensures InRange(scores, r)
  {
    PositiveOnly(scores, TopCandidates(scores, topK))
  }

  /** `sorted(...)[:top_k]`: the candidates the loop examines. */
  function TopCandidates(scores: seq<real>, topK: int): (r: seq<nat>)
    ensures InRange(scores, r)
  {
    Prefix(Ranking(scores), topK)
  }

  function DocsAt(documents: seq<Doc>, indices: seq<nat>): (r: seq<Doc>)
    requires forall i :: 0 <= i < |indices| ==> indices[i] < |documents|
    ensures |r| == |indices|
    ensures forall i :: 0 <= i < |indices| ==> r[i] == documents[indices[i]]
  {
    seq(|indices|, i requires 0 <= i < |indices| => documents[indices[i]])
  }

  /** One more candidate examined. */
  lemma PositiveOnlyStep(scores: seq<real>, l: seq<nat>, i: nat)
    requires InRange(scores, l) && i < |l|
    ensures PositiveOnly(scores, l[..i + 1])
            == PositiveOnly(scores, l[..i]) + (if scores[l[i]] > 0.0 then [l[i]] else [])
  {
    var p := l[..i + 1];
    assert p[..|p| - 1] == l[..i];
  }

  lemma DocsAtAppend(documents: seq<Doc>, indices: seq<nat>, x: nat)
    requires forall i :: 0 <= i < |indices| ==> indices[i] < |documents|
    requires x < |documents|
    ensures DocsAt(documents, indices + [x]) == DocsAt(documents, indices) + [documents[x]]
  {
  }

  /** The documents the loop of `get_relevant_documents` has collected after
      examining the first `i` candidates of `l`. */
  function Collected(documents: seq<Doc>, scores: seq<real>, l: seq<nat>, i: nat): seq<Doc>
    requires |scores| == |documents| && InRange(scores, l) && i <= |l|
  {
    assert InRange(scores, l[..i]);
    DocsAt(documents, PositiveOnly(scores, l[..i]))
  }

  /** One more candidate examined: its document is appended exactly when its
      score is positive. */
  lemma CollectStep(documents: seq<Doc>, scores: seq<real>, l: seq<nat>, i: nat)
    requires |scores| == |documents| && InRange(scores, l) && i < |l|
    ensures Collected(documents, scores, l, i + 1)
            == Collected(documents, scores, l, i) + (if scores[l[i]] > 0.0 then [documents[l[i]]] else [])
  {
    assert InRange(scores, l[..i]);
    PositiveOnlyStep(scores, l, i);
    if scores[l[i]] > 0.0 {
      DocsAtAppend(documents, PositiveOnly(scores, l[..i]), l[i]);
    }
  }

  /** Having examined every candidate of the top-k, the loop holds the selection. */
  lemma CollectedAll(documents: seq<Doc>, scores: seq<real>, topK: int)
    requires |scores| == |documents|
    ensures var top := TopCandidates(scores, topK);
            Collected(documents, scores, top, |top|) == DocsAt(documents, Selected(scores, topK))
  {
    var top := TopCandidates(scores, topK);
    assert top[..|top|] == top;
  }

  lemma {:induction false} PositiveOnlyAll(scores: seq<real>, l: seq<nat>)
    requires InRange(scores, l)
    requires forall i :: 0 <= i < |l| ==> scores[l[i]] > 0.0
    ensures PositiveOnly(scores, l) == l
    decreases |l|
  {
    if l != [] {
      var init, last := l[..|l| - 1], l[|l| - 1];
      assert forall i :: 0 <= i < |init| ==> init[i] == l[i];
      PositiveOnlyAll(scores, init);
      assert scores[last] > 0.0;
      assert PositiveOnly(scores, l) == PositiveOnly(scores, init) + [last];
      assert l == init + [last];
    }
  }

  /** On an ordered list the positive scores come first, so the filter keeps a prefix. */
  lemma {:induction false} PositiveOnlyPrefix(scores: seq<real>, l: seq<nat>)
    requires InRange(scores, l) && Ordered(scores, l)
    ensures PositiveOnly(scores, l) <= l
    decreases |l|
  {
    if l != [] {
      var init, last := l[..|l| - 1], l[|l| - 1];
      assert l == init + [last];
      PositiveOnlyPrefix(scores, init);
      if scores[last] > 0.0 {
        forall i | 0 <= i < |init|
          ensures scores[init[i]] > 0.0
        {
          assert Before(scores, l[i], l[|l| - 1]);
        }
        PositiveOnlyAll(scores, init);
      }
    }
  }

  /** What the source promises of the selection: at most `top_k` documents, each
      with a positive score, in non-increasing score order with ties by index;
      they are the head of the ranking, so a non-positive candidate is dropped and
      not replaced; and a positive document is left out only when the full
      `top_k` places went to documents ranked before it. */
  lemma SelectedSpec(scores: seq<real>, topK: int)
    ensures var s := Selected(scores, topK);
            var top := Prefix(Ranking(scores), topK);
            s <= top && s <= Ranking(scores)
            && (topK >= 0 ==> |s| <= topK)
            && (forall i :: 0 <= i < |s| ==> scores[s[i]] > 0.0)
            && Ordered(scores, s)
            && (forall k: nat :: k < |scores| && scores[k] > 0.0 && k !in s ==>
                  |s| == PrefixLength(|scores|, topK) && forall i :: 0 <= i < |s| ==> Before(scores, s[i], k))
  {
    var ranking := Ranking(scores);
    var top := Prefix(ranking, topK);
    var s := Selected(scores, topK);
    SortedIndicesOrdered(scores, |scores|);
    assert Ordered(scores, top);
    PositiveOnlyPrefix(scores, top);
    assert s <= top;
    forall i | 0 <= i < |s|
      ensures scores[s[i]] > 0.0
    {
      assert s[i] in s;
    }
    forall k: nat | k < |scores| && scores[k] > 0.0 && k !in s
      ensures |s| == PrefixLength(|scores|, topK) && forall i :: 0 <= i < |s| ==> Before(scores, s[i], k)
    {
      assert k in ranking;
      var p :| 0 <= p < |ranking| && ranking[p] == k;
      assert p >= |top|;
      forall i | 0 <= i < |top|
        ensures Before(scores, top[i], k) && scores[top[i]] > 0.0
      {
        assert top[i] == ranking[i];
      }
      PositiveOnlyAll(scores, top);
    }
  }

  /** Returned indices are pairwise distinct. */
  lemma SelectedDistinct(scores: seq<real>, topK: int)
    ensures var s := Selected(scores, topK);
            forall i, j :: 0 <= i < j < |s| ==> s[i] != s[j]
  {
    SelectedSpec(scores, topK);
  }

  /** `JiebaBM25Retriever`: the documents, the segmenter and the corpus the BM25
      index is built over. */
  class JiebaBM25Retriever {
    const documents: seq<Doc>
    const lcut: string -> seq<string>
    var corpus: seq<seq<string>>

    constructor (documents: seq<Doc>, lcut: string -> seq<string>)
      ensures this.documents == documents && this.lcut == lcut
      ensures corpus == Corpus(documents, lcut)
    {
      this.documents := documents;
      this.lcut := lcut;
      new;
      corpus := BuildBm25Index();
    }

    /** `_build_bm25_index`: one token list per document, appended in order. */
    method BuildBm25Index() returns (built: seq<seq<string>>)
      ensures built == Corpus(documents, lcut)
    {
      built := [];
      for i := 0 to |documents|
        invariant built == Corpus(documents[..i], lcut)
      {
        var tokens := Tokenize(RawText(documents[i].pageContent), lcut);
        CorpusAppend(documents, i, lcut);
        built := built + [tokens];
      }
      assert documents[..|documents|] == documents;
    }

    /** `get_relevant_documents`. `getScores` is the index's `get_scores`, which
        yields one score per corpus entry. */
    method GetRelevantDocuments(query: string, topK: int, getScores: seq<string> -> seq<real>)
      returns (relevantDocs: seq<Doc>)
      requires |getScores(Tokenize(RawText(query), lcut))| == |documents|
      ensures var scores := getScores(Tokenize(RawText(query), lcut));
              relevantDocs == DocsAt(documents, Selected(scores, topK))
    {
      var queryTokens := Tokenize(RawText(query), lcut);
      var scores := getScores(queryTokens);
      var topIndices := TopCandidates(scores, topK);
      CollectedAll(documents, scores, topK);
      relevantDocs := [];
      for i := 0 to |topIndices|
        invariant relevantDocs == Collected(documents, scores, topIndices, i)
      {
        var idx := topIndices[i];
        CollectStep(documents, scores, topIndices, i);
        if scores[idx] > 0.0 {
          relevantDocs := relevantDocs + [documents[idx]];
        }
      }
    }
  }

  /** The LangChain adapter's `get_relevant_documents` calls the retriever's
      without a `top_k`, so its default applies. */
  const DefaultTopK: int := 5

  class JiebaBM25LangChainRetriever {
    const jiebaBm25: JiebaBM25Retriever

    constructor (jiebaBm25: JiebaBM25Retriever)
      ensures this.jiebaBm25 == jiebaBm25
    {
      this.jiebaBm25 := jiebaBm25;
    }

    method GetRelevantDocuments(query: string, getScores: seq<string> -> seq<real>) returns (docs: seq<Doc>)
      requires |getScores(Tokenize(RawText(query), jiebaBm25.lcut))| == |jiebaBm25.documents|
      ensures docs == DocsAt(jiebaBm25.documents,
                             Selected(getScores(Tokenize(RawText(query), jiebaBm25.lcut)), DefaultTopK))
      ensures |docs| <= DefaultTopK
    {
      docs := jiebaBm25.GetRelevantDocuments(query, DefaultTopK, getScores);
      SelectedSpec(getScores(Tokenize(RawText(query), jiebaBm25.lcut)), DefaultTopK);
    }
  }
}
