/** `getSimilarContext` of the gateway (apps/gateway/src/semsearch.ts): the
    POST to the search worker is an input, given as the HTTP response it
    produced; what the function does with that response is modelled. */
module SemsearchClient {

  import opened JsValues
  import opened JsStrings

  /** `metadata` of a match; `text` may be absent in what the index returns. */
  datatype MatchMetadata = MatchMetadata(text: Option<string>)

  /** `VectorizeMatch`. */
  datatype VectorizeMatch = VectorizeMatch(id: string, score: real, metadata: Option<MatchMetadata>)

  /** `SearchResult`: a context snippet with its relevance score. */
  datatype SearchResult = SearchResult(text: string, score: real)

  /** The response to the search request: its status and, when it is ok,
      the parsed match list. */
  datatype SearchResponse = SearchResponse(ok: bool, status: nat, bodyText: string, matches: seq<VectorizeMatch>)

  /** `match.metadata?.text` is truthy. */
  predicate HasText(m: VectorizeMatch) {
    m.metadata.Some? && m.metadata.value.text.Some? && m.metadata.value.text.value != ""
  }

  /** What one match gives: nothing without text, else its text and score. */
  function MatchResults(m: VectorizeMatch): (r: seq<SearchResult>)
    ensures r == [] <==> !HasText(m)
    ensures r != [] ==> r == [SearchResult(m.metadata.value.text.value, m.score)]
  {
    if HasText(m) then [SearchResult(m.metadata.value.text.value, m.score)] else []
  }

  /** The `filter` and `map` over the matches. The output is never longer
      than the input and every result has text. */
  function ToResults(matches: seq<VectorizeMatch>): (r: seq<SearchResult>)
    ensures |r| <= |matches|
    ensures forall k :: 0 <= k < |r| ==> r[k].text != ""
  {
    if matches == [] then []
    else MatchResults(matches[0]) + ToResults(matches[1..])
  }

  /** Every result is a match with text, its text and score copied. */
  lemma {:induction false} ResultComesFromMatch(matches: seq<VectorizeMatch>, k: nat) returns (j: nat)
    requires k < |ToResults(matches)|
    ensures j < |matches| && HasText(matches[j])
    ensures ToResults(matches)[k] == SearchResult(matches[j].metadata.value.text.value, matches[j].score)
  {
    var head := MatchResults(matches[0]);
    if k < |head| {
      j := 0;
    } else {
      var j' := ResultComesFromMatch(matches[1..], k - |head|);
      j := j' + 1;
    }
  }

  /** Filtering is compatible with concatenating the match list, so the
      surviving matches keep their relative order. */
  lemma {:induction false} ToResultsAppend(a: seq<VectorizeMatch>, b: seq<VectorizeMatch>)
    ensures ToResults(a + b) == ToResults(a) + ToResults(b)
  {
    if a == [] {
      assert a + b == b;
    } else {
      assert (a + b)[1..] == a[1..] + b;
      ToResultsAppend(a[1..], b);
    }
  }

  /** Every match with text gives a result. */
  lemma {:induction false} MatchWithTextKept(matches: seq<VectorizeMatch>, j: nat)
    requires j < |matches| && HasText(matches[j])
    ensures SearchResult(matches[j].metadata.value.text.value, matches[j].score) in ToResults(matches)
  {
    if j > 0 {
      MatchWithTextKept(matches[1..], j - 1);
    }
  }

  /** `getSimilarContext`: a response that is not ok raises an error with
      its status and body; an ok one gives the filtered results. */
  function GetSimilarContext(response: SearchResponse): (r: Result<seq<SearchResult>, string>)
    ensures r.Err? <==> !response.ok
    ensures r.Err? ==> r.error == "Semsearch request failed: " + DecimalText(response.status) + " " + response.bodyText
    ensures r.Ok? ==> r.value == ToResults(response.matches)
  {
    if !response.ok then
      Err("Semsearch request failed: " + DecimalText(response.status) + " " + response.bodyText)
    else Ok(ToResults(response.matches))
  }
}
