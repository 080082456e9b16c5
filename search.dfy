/**
 * The web-search stub: a bounded query history (most recent 100, handed out
 * most recent first) and simulated result lists.
 */
module Search {
  import opened Wrappers
  import opened Text
  import opened History
  import opened EgoTypes

  const MaxSearchHistory: nat := 100

  /** The `k`-th simulated result (counting from 1) for `query`. */
  function SimulatedResult(query: string, k: int): SearchResult {
    SearchResult(
      "Search Result " + IntToString(k) + " for \"" + query + "\"",
      "https://example.com/result-" + IntToString(k),
      "This is a simulated search result snippet for the query \"" + query
        + "\". Real web search integration is pending API configuration.",
      "example" + IntToString(k) + ".com")
  }

  /** Different positions give different urls. */
  lemma SimulatedUrlsDistinct(query: string, j: int, k: int)
    requires j != k
    ensures SimulatedResult(query, j).url != SimulatedResult(query, k).url
  {
    var prefix := "https://example.com/result-";
    var uj, uk := SimulatedResult(query, j).url, SimulatedResult(query, k).url;
    if uj == uk {
      assert IntToString(j) == uj[|prefix|..] == uk[|prefix|..] == IntToString(k);
      IntToStringInjective(j, k);
    }
  }

  /**
   * `generateSimulatedResults`: a counted loop pushing one result per index,
   * so a non-positive count gives no results.
   */
  method GenerateSimulatedResults(query: string, maxResults: int) returns (results: seq<SearchResult>)
    ensures |results| == if maxResults > 0 then maxResults else 0
    ensures forall i :: 0 <= i < |results| ==> results[i] == SimulatedResult(query, i + 1)
  {
    results := [];
    var i := 0;
    while i < maxResults
      invariant 0 <= i && (maxResults > 0 ==> i <= maxResults) && (maxResults <= 0 ==> i == 0)
      invariant |results| == i
      invariant forall j :: 0 <= j < i ==> results[j] == SimulatedResult(query, j + 1)
    {
      results := results + [SimulatedResult(query, i + 1)];
      i := i + 1;
    }
  }

  /** `options.maxResults || 5`: an absent or zero count means 5. */
  function ResultCount(maxResults: Option<int>): (n: int)
    ensures maxResults.None? || maxResults.value == 0 ==> n == 5
    ensures maxResults.Some? && maxResults.value != 0 ==> n == maxResults.value
  {
    if maxResults.Some? && maxResults.value != 0 then maxResults.value else 5
  }

  const SummaryTail: string := ", here's a summary: This is a simulated summary of web search results. Real AI-powered summarization pending integration."

  /** `summarizeResults`: a fixed notice for no results, else a summary that gives the count. */
  function SummarizeResults(results: seq<SearchResult>): (summary: string)
    ensures results == [] ==> summary == "No search results to summarize."
    ensures results != [] ==> StartsWith(summary, "Based on " + IntToString(|results|) + " search results")
  {
    if results == [] then "No search results to summarize."
    else
      var head := "Based on " + IntToString(|results|) + " search results";
      var summary := head + SummaryTail;
      assert summary[..|head|] == head;
      summary
  }

  /** The five suggestion templates of `getRelatedQueries`, before the first three are taken. */
  function RelatedTemplates(query: string): seq<string> {
    ["How to " + query, query + " examples", query + " tutorial",
     "Best practices for " + query, query + " vs alternatives"]
  }

  /** `related.slice(0, 3)`. */
  function GetRelatedQueries(query: string): (related: seq<string>)
    ensures related == ["How to " + query, query + " examples", query + " tutorial"]
  {
    RelatedTemplates(query)[..3]
  }

  /** `searchImages`: one placeholder image whatever the query. */
  function SearchImages(query: string): (images: seq<(string, string, string, int, int)>)
    ensures |images| == 1 && images[0].0 == "https://via.placeholder.com/300x200"
    ensures images[0].3 == 300 && images[0].4 == 200
  {
    [("https://via.placeholder.com/300x200", "Image result for " + query, "placeholder.com", 300, 200)]
  }

  /** `searchNews`: three simulated results for "<query> news"; the search history is not touched. */
  method SearchNews(query: string) returns (results: seq<SearchResult>)
    ensures |results| == 3
    ensures forall i :: 0 <= i < 3 ==> results[i] == SimulatedResult(query + " news", i + 1)
  {
    results := GenerateSimulatedResults(query + " news", 3);
  }

  class SearchService {
    var searchHistory: seq<string>

    ghost predicate Valid()
      reads this
    {
      |searchHistory| <= MaxSearchHistory
    }

    constructor ()
      ensures Valid() && searchHistory == []
    {
      searchHistory := [];
    }

    /**
     * `search`: records the query (dropping the oldest beyond 100) and returns
     * the simulated results; language, region and time range are ignored.
     */
    method Search(query: string, maxResults: Option<int>) returns (results: seq<SearchResult>)
      requires Valid()
      modifies this
      ensures Valid()
      ensures searchHistory == KeepLast(old(searchHistory) + [query], MaxSearchHistory)
      ensures searchHistory[|searchHistory| - 1] == query
      ensures |old(searchHistory)| < MaxSearchHistory ==> searchHistory == old(searchHistory) + [query]
      ensures |old(searchHistory)| == MaxSearchHistory ==> searchHistory == old(searchHistory)[1..] + [query]
      ensures |results| == if ResultCount(maxResults) > 0 then ResultCount(maxResults) else 0
      ensures forall i :: 0 <= i < |results| ==> results[i] == SimulatedResult(query, i + 1)
    {
      AppendBounded(searchHistory, query, MaxSearchHistory);
      searchHistory := searchHistory + [query];
      if |searchHistory| > MaxSearchHistory {
        searchHistory := searchHistory[|searchHistory| - MaxSearchHistory..];
      }
      results := GenerateSimulatedResults(query, ResultCount(maxResults));
    }

    /** The history, most recent query first; the history itself is not changed. */
    function GetSearchHistory(): (recent: seq<string>)
      reads this
      ensures |recent| == |searchHistory|
      ensures searchHistory != [] ==> recent[0] == searchHistory[|searchHistory| - 1]
      ensures forall k :: 0 <= k < |recent| ==> recent[k] == searchHistory[|searchHistory| - 1 - k]
    {
      ReversedProperties(searchHistory);
      Reversed(searchHistory)
    }

    method ClearSearchHistory()
      modifies this
      ensures Valid() && searchHistory == []
    {
      searchHistory := [];
    }
  }
}
