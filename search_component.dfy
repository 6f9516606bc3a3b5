/** The question search box: the suggestion list under the input, the handlers that
    forward a new query, and the sort keys offered beside it. */
module Search {
  import opened Text
  import opened Seqs

  predicate Matches(query: string, suggestion: string)
  {
    ContainsIgnoreCase(suggestion, query)
  }

  /** The suggestions matching the query, ignoring case, in order, cut at five. */
  function MatchingSuggestions(suggestions: seq<string>, query: string): (r: seq<string>)
    ensures |r| <= 5
    ensures forall i :: 0 <= i < |r| ==> r[i] in suggestions && Matches(query, r[i])
    ensures var f := Filter(suggestions, s => Matches(query, s));
              |r| == (if |f| < 5 then |f| else 5) && r == f[..|r|]
  {
    var f := Filter(suggestions, s => Matches(query, s));
    var r := Slice(f, 0, 5);
    assert r == f[..if |f| < 5 then |f| else 5];
    r
  }

  /** Some suggestion matches exactly when the cut list is non-empty. */
  lemma MatchingNonEmpty(suggestions: seq<string>, query: string)
    ensures MatchingSuggestions(suggestions, query) != [] <==>
              exists i :: 0 <= i < |suggestions| && Matches(query, suggestions[i])
  {
    var f := Filter(suggestions, s => Matches(query, s));
    if exists i :: 0 <= i < |suggestions| && Matches(query, suggestions[i]) {
      var i :| 0 <= i < |suggestions| && Matches(query, suggestions[i]);
      assert suggestions[i] in f;
    }
    if f != [] {
      var j :| 0 <= j < |suggestions| && suggestions[j] == f[0];
      assert Matches(query, suggestions[j]);
    }
  }

  /** The sort keys of the select, in the order offered. */
  const SortOptions: seq<string> := ["newest", "unanswered", "popular", "oldest"]

  class SearchBox {
    /** The `searchQuery` prop. */
    var searchQuery: string
    const suggestions: seq<string>
    var showSuggestions: bool
    var filteredSuggestions: seq<string>

    constructor (query: string, supplied: seq<string>)
      ensures searchQuery == query && suggestions == supplied
      ensures !showSuggestions && filteredSuggestions == []
    {
      searchQuery := query;
      suggestions := supplied;
      showSuggestions := false;
      filteredSuggestions := [];
    }

    /** The effect on the query and the suggestions: with a non-blank query and some
        suggestions, the matches are recomputed and shown when there are any; otherwise the
        list is hidden and the last matches are kept. */
    method RefreshSuggestions()
      modifies this
      ensures !AllSpace(searchQuery) && suggestions != [] ==>
                filteredSuggestions == MatchingSuggestions(suggestions, searchQuery)
      ensures AllSpace(searchQuery) || suggestions == [] ==> filteredSuggestions == old(filteredSuggestions)
      ensures showSuggestions <==>
                !AllSpace(searchQuery) && suggestions != []
                && exists i :: 0 <= i < |suggestions| && Matches(searchQuery, suggestions[i])
      ensures searchQuery == old(searchQuery)
    {
      BlankIffAllSpace(searchQuery);
      MatchingNonEmpty(suggestions, searchQuery);
      if Trim(searchQuery) != "" && |suggestions| > 0 {
        var filtered := MatchingSuggestions(suggestions, searchQuery);
        filteredSuggestions := filtered;
        showSuggestions := |filtered| > 0;
      } else {
        showSuggestions := false;
      }
    }

    /** A click on a suggestion forwards it as the new query and hides the list. */
    method HandleSuggestionClick(suggestion: string) returns (forwarded: string)
      modifies this
      ensures forwarded == suggestion && !showSuggestions
      ensures searchQuery == old(searchQuery) && filteredSuggestions == old(filteredSuggestions)
    {
      forwarded := suggestion;
      showSuggestions := false;
    }

    /** Escape hides the list; other keys do nothing. */
    method HandleKeyDown(escape: bool)
      modifies this
      ensures escape ==> !showSuggestions
      ensures !escape ==> showSuggestions == old(showSuggestions)
      ensures searchQuery == old(searchQuery) && filteredSuggestions == old(filteredSuggestions)
    {
      if escape {
        showSuggestions := false;
      }
    }

    /** The clear button forwards the empty query. */
    method ClearSearch() returns (forwarded: string)
      ensures forwarded == ""
    {
      forwarded := "";
    }

    /** Focus re-shows the list when there is a query and something matched last time. */
    method Focus()
      modifies this
      ensures searchQuery != "" ==> (showSuggestions <==> filteredSuggestions != [])
      ensures searchQuery == "" ==> showSuggestions == old(showSuggestions)
      ensures searchQuery == old(searchQuery) && filteredSuggestions == old(filteredSuggestions)
    {
      if searchQuery != "" {
        showSuggestions := |filteredSuggestions| > 0;
      }
    }

    /** Blur hides the list (after a delay, which is not modelled). */
    method Blur()
      modifies this
      ensures !showSuggestions
      ensures searchQuery == old(searchQuery) && filteredSuggestions == old(filteredSuggestions)
    {
      showSuggestions := false;
    }
  }
}
