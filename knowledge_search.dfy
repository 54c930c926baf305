/**
 * The knowledge-search tool: runs a retrieval and turns it into the tool's
 * output, a list of passages and a one-line summary naming the distinct
 * sources in the order they first appear.
 */
module KnowledgeSearch {
  import opened Wrappers
  import opened Text
  import opened Rag

  const NoResultsSummary: string := "No relevant information found in the knowledge base."
  const ErrorSummary: string := "Error searching knowledge base."

  datatype SearchOutput = SearchOutput(results: seq<Passage>, summary: string)

  function Sources(ps: seq<Passage>): (ss: seq<string>)
    ensures |ss| == |ps|
    ensures forall i :: 0 <= i < |ps| ==> ss[i] == ps[i].source
  {
    seq(|ps|, i requires 0 <= i < |ps| => ps[i].source)
  }

  /** `[...new Set(s)]`: the elements of `s`, each kept at its first occurrence. */
  function Distinct(s: seq<string>): seq<string>
    decreases |s|
  {
    if |s| == 0 then []
    else
      var d := Distinct(s[..|s| - 1]);
      if s[|s| - 1] in d then d else d + [s[|s| - 1]]
  }

  predicate NoDuplicates(s: seq<string>)
  {
    forall i, j :: 0 <= i < j < |s| ==> s[i] != s[j]
  }

  /** The position of the first occurrence of `x` in `s`. */
  function FirstIndex(s: seq<string>, x: string): (k: nat)
    requires x in s
    ensures k < |s| && s[k] == x
    ensures forall j :: 0 <= j < k ==> s[j] != x
    decreases |s|
  {
    if s[0] == x then 0 else 1 + FirstIndex(s[1..], x)
  }

  lemma {:induction false} FirstIndexInPrefix(p: seq<string>, q: seq<string>, x: string)
    requires x in p
    ensures FirstIndex(p + q, x) == FirstIndex(p, x)
  {
    var k := FirstIndex(p, x);
    assert (p + q)[k] == x;
    assert forall j :: 0 <= j < k ==> (p + q)[j] == p[j];
  }

  /** Every source appears in the de-duplicated list, exactly once, and nothing else does. */
  lemma {:induction false} DistinctElements(s: seq<string>)
    ensures forall x :: x in Distinct(s) <==> x in s
    ensures NoDuplicates(Distinct(s))
    decreases |s|
  {
    if |s| > 0 {
      var init := s[..|s| - 1];
      DistinctElements(init);
      assert s == init + [s[|s| - 1]];
    }
  }

  /** The de-duplicated list is in first-occurrence order. */
  lemma {:induction false} DistinctFirstSeenOrder(s: seq<string>, i: nat, j: nat)
    requires i < j < |Distinct(s)|
    ensures Distinct(s)[i] in s && Distinct(s)[j] in s
    ensures FirstIndex(s, Distinct(s)[i]) < FirstIndex(s, Distinct(s)[j])
    decreases |s|
  {
    DistinctElements(s);
    var n := |s|;
    var init := s[..n - 1];
    var d := Distinct(init);
    DistinctElements(init);
    assert s == init + [s[n - 1]];
    if j < |d| {
      DistinctFirstSeenOrder(init, i, j);
      FirstIndexInPrefix(init, [s[n - 1]], d[i]);
      FirstIndexInPrefix(init, [s[n - 1]], d[j]);
    } else {
      // d[j] is the last element, new in s
      assert Distinct(s) == d + [s[n - 1]];
      assert s[n - 1] !in init;
      assert FirstIndex(s, s[n - 1]) == n - 1;
      assert Distinct(s)[i] == d[i] && d[i] in init;
      FirstIndexInPrefix(init, [s[n - 1]], d[i]);
    }
  }

  function FoundSummary(results: seq<Passage>): string
  {
    "Found " + NatToString(|results|) + " relevant passages from: " + Join(Distinct(Sources(results)), ", ")
  }

  /** The tool's answer to a retrieval outcome (None: the retrieval threw). */
  function ToolOutput(retrieved: Option<seq<Passage>>): (out: SearchOutput)
    ensures retrieved.None? ==> out == SearchOutput([], ErrorSummary)
    ensures retrieved == Some([]) ==> out == SearchOutput([], NoResultsSummary)
    ensures retrieved.Some? && |retrieved.value| > 0 ==>
      out.results == retrieved.value &&
      IsPrefix("Found " + NatToString(|retrieved.value|) + " relevant passages from: ", out.summary)
  {
    match retrieved
    case None => SearchOutput([], ErrorSummary)
    case Some(results) =>
      if |results| == 0 then SearchOutput([], NoResultsSummary)
      else
        var copied := seq(|results|, i requires 0 <= i < |results| =>
                            Passage(results[i].text, results[i].score, results[i].source));
        assert copied == results;
        SearchOutput(copied, FoundSummary(results))
  }

  /**
   * The source list in a non-empty summary names every result's source
   * exactly once, nothing else, in first-seen order.
   */
  lemma SummarySources(results: seq<Passage>)
    requires |results| > 0
    ensures ToolOutput(Some(results)).summary ==
      "Found " + NatToString(|results|) + " relevant passages from: " + Join(Distinct(Sources(results)), ", ")
    ensures forall x :: x in Distinct(Sources(results)) <==> exists i :: 0 <= i < |results| && results[i].source == x
    ensures NoDuplicates(Distinct(Sources(results)))
  {
    DistinctElements(Sources(results));
    forall x | x in Distinct(Sources(results))
      ensures exists i :: 0 <= i < |results| && results[i].source == x
    {
      var k := FirstIndex(Sources(results), x);
      assert results[k].source == x;
    }
    forall i | 0 <= i < |results|
      ensures results[i].source in Distinct(Sources(results))
    {
      assert Sources(results)[i] == results[i].source;
    }
  }

  /** The tool's `execute`: `topK` defaults to 5; errors never propagate. */
  function Execute(query: string, topK: Option<int>, sourceFilter: Option<string>,
                   embed: Embedder, search: VectorSearch): (out: SearchOutput)
    ensures var r := RetrieveKnowledge(query, Some(EffectiveTopK(topK)), sourceFilter, embed, search);
      out == ToolOutput(r)
    ensures |out.results| == 0 ==> out.summary == NoResultsSummary || out.summary == ErrorSummary
  {
    ToolOutput(RetrieveKnowledge(query, Some(EffectiveTopK(topK)), sourceFilter, embed, search))
  }

  /** The query the tool issues asks for 5 results unless told otherwise. */
  lemma ExecuteTopK(query: string, topK: Option<int>, sourceFilter: Option<string>, embed: Embedder)
    requires QueryFor(query, Some(EffectiveTopK(topK)), sourceFilter, embed).Some?
    ensures QueryFor(query, Some(EffectiveTopK(topK)), sourceFilter, embed).value.topK ==
      if topK.Some? then topK.value else 5
  {
  }
}
