/**
 * The internet search tool (search_tool.py). Searching is simulated: the
 * result is a fixed text built around the query, and `run` hands its
 * argument to that formatter and returns what it gives.
 */
module SearchTool {
  import opened Interfaces
  import opened PyText
  import opened PyJson

  const DefaultName := "Internet Search Tool"
  const DefaultDescription := "Searches the internet for information on a given topic or query. Returns a summary of the search results."
  const DefaultArgDescription := "The search query or topic to look up online."

  /** `_internal_web_search(query)`. */
  function InternalWebSearch(query: string): (r: string)
    ensures StartsWith(r, SearchHeader(query))
    ensures EndsWith(r, query + "...")
  {
    hide *;
    var r := SearchHeader(query) + "\n" + ResultLine(1, query) + "\n" + ResultLine(2, query) + "\n" + ResultLine(3, query);
    var middle := "\n" + ResultLine(1, query) + "\n" + ResultLine(2, query) + "\n" + ResultLead(3);
    ResultLineEnds(3, query);
    assert r == SearchHeader(query) + middle + (query + "...");
    ConcatAffixes(SearchHeader(query), middle, query + "...");
    r
  }

  function SearchHeader(query: string): string {
    "Simulated search results for '" + query + "':"
  }

  /** The `k`-th of the three simulated results. */
  function ResultLine(k: nat, query: string): string
    requires 1 <= k <= 3
  {
    ResultLead(k) + query + "..."
  }

  lemma ResultLineEnds(k: nat, query: string)
    requires 1 <= k <= 3
    ensures ResultLine(k, query) == ResultLead(k) + (query + "...")
  {
  }

  function ResultLead(k: nat): string
    requires 1 <= k <= 3
  {
    if k == 1 then "- Result 1: Information about "
    else if k == 2 then "- Result 2: More details on "
    else "- Result 3: Related topics to "
  }

  /** `InternetSearchTool.run(argument)`: the simulated search for the
    * argument as an f-string shows it (`str`), returned and never raised. */
  function SearchRun(argument: Sliceable): (r: ToolOutcome)
    ensures r.Returned?
    ensures argument.JStr? ==> r.text == InternalWebSearch(argument.s)
    ensures StartsWith(r.text, SearchHeader(Str(argument)))
  {
    Returned(InternalWebSearch(Str(argument)))
  }

  /** For a one-line query the output is the header line and exactly three
    * result lines. */
  lemma SearchResultLines(query: string)
    requires '\n' !in query
    ensures Split(InternalWebSearch(query), '\n')
         == [SearchHeader(query), ResultLine(1, query), ResultLine(2, query), ResultLine(3, query)]
  {
    hide SearchHeader, ResultLine, Split;
    var h, r1, r2, r3 := SearchHeader(query), ResultLine(1, query), ResultLine(2, query), ResultLine(3, query);
    OneLine(query);
    var tail2 := r2 + ['\n'] + r3;
    var tail1 := r1 + ['\n'] + tail2;
    assert InternalWebSearch(query) == h + ['\n'] + tail1;
    SplitWithoutSeparator(r3, '\n');
    SplitAfterPiece(r2, '\n', r3);
    SplitAfterPiece(r1, '\n', tail2);
    SplitAfterPiece(h, '\n', tail1);
  }

  /** Each result line mentions the query. */
  lemma ResultLineMentionsQuery(k: nat, query: string)
    requires 1 <= k <= 3
    ensures IsInfix(query, ResultLine(k, query))
  {
    InfixOfPrefix(query, query + "...");
    InfixOfSuffix(query, ResultLead(k), query + "...");
    assert ResultLine(k, query) == ResultLead(k) + (query + "...");
  }

  lemma OneLine(query: string)
    requires '\n' !in query
    ensures '\n' !in SearchHeader(query)
    ensures forall k :: 1 <= k <= 3 ==> '\n' !in ResultLine(k, query)
  {
    FixedPartsOneLine();
    assert SearchHeader(query) == "Simulated search results for '" + query + "':";
    forall k | 1 <= k <= 3
      ensures '\n' !in ResultLine(k, query)
    {
      assert ResultLine(k, query) == ResultLead(k) + query + "...";
    }
  }

  lemma FixedPartsOneLine()
    ensures '\n' !in "Simulated search results for '" && '\n' !in "':" && '\n' !in "..."
    ensures forall k :: 1 <= k <= 3 ==> '\n' !in ResultLead(k)
  {
    forall k | 1 <= k <= 3
      ensures '\n' !in ResultLead(k)
    {
      LeadOneLine(k);
    }
  }

  lemma LeadOneLine(k: nat)
    requires 1 <= k <= 3
    ensures '\n' !in ResultLead(k)
  {
    if k == 1 {
      assert '\n' !in "- Result 1: Information about ";
    } else if k == 2 {
      assert '\n' !in "- Result 2: More details on ";
    } else {
      assert '\n' !in "- Result 3: Related topics to ";
    }
  }
}
