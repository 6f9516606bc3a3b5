/** The tag input: a capped, duplicate-free selection of normalised tags, the text being
    typed, and the suggestions drawn from the known tags. */
module TagSelection {
  import opened Text
  import opened Seqs

  /** What `addTag` inserts: the input trimmed and lower-cased. */
  function NormaliseTag(input: string): string
  {
    ToLower(Trim(input))
  }

  /** The guard of `addTag`: a non-empty normalised tag, not yet selected, with room left. */
  predicate CanAdd(selected: seq<string>, tag: string, maxTags: int)
  {
    tag != "" && tag !in selected && |selected| < maxTags
  }

  /** The selection after `addTag(input)`. */
  function Added(selected: seq<string>, input: string, maxTags: int): (r: seq<string>)
    ensures CanAdd(selected, NormaliseTag(input), maxTags) ==> r == selected + [NormaliseTag(input)]
    ensures !CanAdd(selected, NormaliseTag(input), maxTags) ==> r == selected
  {
    var t := NormaliseTag(input);
    if CanAdd(selected, t, maxTags) then selected + [t] else selected
  }

  predicate Differs(tag: string, t: string) { t != tag }

  /** The selection after `removeTag(tag)`. */
  function Removed(selected: seq<string>, tag: string): (r: seq<string>)
    ensures tag !in r
    ensures forall t :: t in selected && t != tag ==> t in r
    ensures forall t :: t in r ==> t in selected
  {
    Filter(selected, t => Differs(tag, t))
  }

  /** The selection's invariant: no tag twice and no more than the cap. */
  ghost predicate WellFormed(selected: seq<string>, maxTags: int)
  {
    NoDuplicates(selected) && |selected| <= maxTags
  }

  /** Adding keeps the selection duplicate-free and within the cap. */
  lemma AddKeepsWellFormed(selected: seq<string>, input: string, maxTags: int)
    requires WellFormed(selected, maxTags)
    ensures WellFormed(Added(selected, input, maxTags), maxTags)
  {
    var r := Added(selected, input, maxTags);
    if r != selected {
      forall i, j | 0 <= i < j < |r|
        ensures r[i] != r[j]
      {
        if j == |selected| {
          assert r[i] == selected[i];
        }
      }
    }
  }

  /** A filter of a duplicate-free list is duplicate-free. */
  lemma {:induction false} FilterNoDuplicates<T>(s: seq<T>, p: T -> bool)
    requires NoDuplicates(s)
    ensures NoDuplicates(Filter(s, p))
  {
    if s != [] {
      assert NoDuplicates(s[1..]) by {
        forall i, j | 0 <= i < j < |s[1..]|
          ensures s[1..][i] != s[1..][j]
        {
          assert s[1..][i] == s[i + 1] && s[1..][j] == s[j + 1];
        }
      }
      FilterNoDuplicates(s[1..], p);
      var f := Filter(s[1..], p);
      if p(s[0]) {
        var r := [s[0]] + f;
        forall i, j | 0 <= i < j < |r|
          ensures r[i] != r[j]
        {
          if i == 0 {
            assert r[j] in s[1..];
            assert s[0] !in s[1..];
          }
        }
      }
    }
  }

  /** Removing keeps the selection duplicate-free and within the cap, and keeps the other
      tags in their order. */
  lemma RemoveKeepsWellFormed(selected: seq<string>, tag: string, maxTags: int)
    requires WellFormed(selected, maxTags)
    ensures WellFormed(Removed(selected, tag), maxTags)
    ensures IsSubsequence(Removed(selected, tag), selected)
  {
    FilterNoDuplicates(selected, t => Differs(tag, t));
    FilterIsSubsequence(selected, t => Differs(tag, t));
  }

  /** The suggestion callback: the tag contains the input, ignoring case, and is not
      selected (compared as written: a selected tag is lower-case, the known one may not be). */
  predicate Suggestable(selected: seq<string>, input: string, tag: string)
  {
    ContainsIgnoreCase(tag, input) && tag !in selected
  }

  /** `filteredTags` as the effect leaves it: nothing for blank input, otherwise the known
      tags that are suggestable. */
  function Suggestions(available: seq<string>, selected: seq<string>, input: string): (r: seq<string>)
    ensures AllSpace(input) ==> r == []
    ensures forall i :: 0 <= i < |r| ==> r[i] in available && Suggestable(selected, input, r[i])
    ensures !AllSpace(input) ==>
              forall i :: 0 <= i < |available| && Suggestable(selected, input, available[i]) ==> available[i] in r
  {
    BlankIffAllSpace(input);
    if Trim(input) == "" then [] else Filter(available, t => Suggestable(selected, input, t))
  }

  /** Suggestions keep the order of the known tags. */
  lemma SuggestionsInOrder(available: seq<string>, selected: seq<string>, input: string)
    ensures IsSubsequence(Suggestions(available, selected, input), available)
  {
    if Trim(input) != "" {
      FilterIsSubsequence(available, t => Suggestable(selected, input, t));
    }
  }

  /** The list drawn under the input: the first eight suggestions. */
  function ShownSuggestions(filtered: seq<string>): (r: seq<string>)
    ensures |r| <= 8
    ensures r == filtered[..if |filtered| < 8 then |filtered| else 8]
  {
    Slice(filtered, 0, 8)
  }

  datatype Key = Enter | Comma | Backspace | OtherKey

  class TagSelector {
    /** `selectedTags`, as the parent holds it; `onTagsChange` replaces it. */
    var selectedTags: seq<string>
    const availableTags: seq<string>
    const maxTags: int
    var inputValue: string
    var showSuggestions: bool
    var filteredTags: seq<string>

    ghost predicate Valid()
      reads this
    {
      WellFormed(selectedTags, maxTags)
    }

    /** A fresh selector; `maxTags` defaults to 5. */
    constructor (selected: seq<string>, available: seq<string>, cap: int)
      ensures selectedTags == selected && availableTags == available && maxTags == cap
      ensures inputValue == "" && !showSuggestions && filteredTags == []
    {
      selectedTags := selected;
      availableTags := available;
      maxTags := cap;
      inputValue := "";
      showSuggestions := false;
      filteredTags := [];
    }

    /** The effect that runs after the input or the selection changes. */
    method RefreshSuggestions()
      modifies this
      ensures filteredTags == Suggestions(availableTags, selectedTags, inputValue)
      ensures showSuggestions <==> filteredTags != []
      ensures selectedTags == old(selectedTags) && inputValue == old(inputValue)
    {
      if Trim(inputValue) != "" {
        var selected, input := selectedTags, inputValue;
        var filtered := Filter(availableTags, t => Suggestable(selected, input, t));
        filteredTags := filtered;
        showSuggestions := |filtered| > 0;
      } else {
        showSuggestions := false;
        filteredTags := [];
      }
    }

    /** The input's `onChange`. */
    method SetInput(value: string)
      modifies this
      ensures inputValue == value
      ensures selectedTags == old(selectedTags) && showSuggestions == old(showSuggestions)
      ensures filteredTags == old(filteredTags)
    {
      inputValue := value;
    }

    /** `addTag(tag)`: a normalised, new tag within the cap is appended, and then the input is
        cleared and the suggestions hidden; otherwise nothing changes. */
    method AddTag(tag: string)
      modifies this
      ensures selectedTags == Added(old(selectedTags), tag, maxTags)
      ensures CanAdd(old(selectedTags), NormaliseTag(tag), maxTags) ==> inputValue == "" && !showSuggestions
      ensures !CanAdd(old(selectedTags), NormaliseTag(tag), maxTags) ==>
                inputValue == old(inputValue) && showSuggestions == old(showSuggestions)
      ensures filteredTags == old(filteredTags)
      ensures old(Valid()) ==> Valid()
    {
      if old(Valid()) {
        AddKeepsWellFormed(selectedTags, tag, maxTags);
      }
      var trimmedTag := NormaliseTag(tag);
      if trimmedTag != "" && trimmedTag !in selectedTags && |selectedTags| < maxTags {
        selectedTags := selectedTags + [trimmedTag];
        inputValue := "";
        showSuggestions := false;
      }
    }

    /** `removeTag(tag)`: every occurrence goes, the rest keep their order. */
    method RemoveTag(tag: string)
      modifies this
      ensures selectedTags == Removed(old(selectedTags), tag)
      ensures inputValue == old(inputValue) && showSuggestions == old(showSuggestions)
      ensures filteredTags == old(filteredTags)
      ensures old(Valid()) ==> Valid()
    {
      if Valid() {
        RemoveKeepsWellFormed(selectedTags, tag, maxTags);
      }
      selectedTags := Removed(selectedTags, tag);
    }

    /** `handleKeyPress`: Enter or a comma adds the input; Backspace on an empty input drops
        the last selected tag. */
    method HandleKeyPress(key: Key)
      modifies this
      ensures (key == Enter || key == Comma) ==> selectedTags == Added(old(selectedTags), old(inputValue), maxTags)
      ensures (key == Enter || key == Comma) && CanAdd(old(selectedTags), NormaliseTag(old(inputValue)), maxTags) ==>
                inputValue == "" && !showSuggestions
      ensures (key == Enter || key == Comma) && !CanAdd(old(selectedTags), NormaliseTag(old(inputValue)), maxTags) ==>
                inputValue == old(inputValue) && showSuggestions == old(showSuggestions)
      ensures key == Backspace && old(inputValue) == "" && old(selectedTags) != [] ==>
                selectedTags == Removed(old(selectedTags), old(selectedTags)[|old(selectedTags)| - 1])
      ensures key == Backspace ==> inputValue == old(inputValue) && showSuggestions == old(showSuggestions)
      ensures key == OtherKey || (key == Backspace && (old(inputValue) != "" || old(selectedTags) == [])) ==>
                selectedTags == old(selectedTags)
      ensures key == OtherKey ==> inputValue == old(inputValue) && showSuggestions == old(showSuggestions)
      ensures filteredTags == old(filteredTags)
      ensures old(Valid()) ==> Valid()
    {
      if key == Enter || key == Comma {
        AddTag(inputValue);
      } else if key == Backspace && inputValue == "" && |selectedTags| > 0 {
        RemoveTag(selectedTags[|selectedTags| - 1]);
      }
    }

    /** Picking a suggestion adds it like typed input. */
    method HandleSuggestionClick(tag: string)
      modifies this
      ensures selectedTags == Added(old(selectedTags), tag, maxTags)
      ensures CanAdd(old(selectedTags), NormaliseTag(tag), maxTags) ==> inputValue == "" && !showSuggestions
      ensures !CanAdd(old(selectedTags), NormaliseTag(tag), maxTags) ==>
                inputValue == old(inputValue) && showSuggestions == old(showSuggestions)
      ensures filteredTags == old(filteredTags)
      ensures old(Valid()) ==> Valid()
    {
      AddTag(tag);
    }

    /** Focus re-shows the suggestions when there is input and something to suggest. */
    method Focus()
      modifies this
      ensures inputValue != "" ==> (showSuggestions <==> old(filteredTags) != [])
      ensures inputValue == "" ==> showSuggestions == old(showSuggestions)
      ensures selectedTags == old(selectedTags) && inputValue == old(inputValue)
      ensures filteredTags == old(filteredTags)
    {
      if inputValue != "" {
        showSuggestions := |filteredTags| > 0;
      }
    }

    /** Blur hides the suggestions (after a delay, which is not modelled). */
    method Blur()
      modifies this
      ensures !showSuggestions
      ensures selectedTags == old(selectedTags) && inputValue == old(inputValue)
      ensures filteredTags == old(filteredTags)
    {
      showSuggestions := false;
    }
  }
}
