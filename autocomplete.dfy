/**
 * `AutocompleteInput`, the input with a suggestion list that the job form and the resume builder both
 * define: the case-insensitive filter and when the list is shown.
 */
module Autocomplete {
  import opened Strings

  /** `suggestion.toLowerCase().includes(input.toLowerCase())`. */
  predicate Suggests(suggestion: string, input: string) {
    Contains(ToLower(suggestion), ToLower(input))
  }

  /** `suggestions.filter(...)`: the suggestions that contain the input, ignoring case. */
  function Matching(suggestions: seq<string>, input: string): (r: seq<string>)
    ensures |r| <= |suggestions|
    ensures forall s :: s in r <==> s in suggestions && Suggests(s, input)
  {
    if suggestions == [] then []
    else (if Suggests(suggestions[0], input) then [suggestions[0]] else []) + Matching(suggestions[1..], input)
  }

  /** The filter keeps the suggestions' order: it distributes over concatenation. */
  lemma {:induction false} MatchingConcat(a: seq<string>, b: seq<string>, input: string)
    ensures Matching(a + b, input) == Matching(a, input) + Matching(b, input)
    decreases |a|
  {
    if a == [] {
      assert a + b == b;
    } else {
      assert (a + b)[1..] == a[1..] + b;
      MatchingConcat(a[1..], b, input);
    }
  }

  lemma LowerCharIdempotent(c: char)
    ensures LowerChar(LowerChar(c)) == LowerChar(c)
  {
    if 'А' <= c <= 'Я' {
      assert !('А' <= LowerChar(c) <= 'Я');
    }
  }

  /** Lower-casing twice is lower-casing once. */
  lemma ToLowerIdempotent(s: string)
    ensures ToLower(ToLower(s)) == ToLower(s)
  {
    forall i | 0 <= i < |s|
      ensures ToLower(ToLower(s))[i] == ToLower(s)[i]
    {
      LowerCharIdempotent(s[i]);
    }
  }

  /** The case of the typed text does not matter. */
  lemma {:induction false} MatchingIgnoresCase(suggestions: seq<string>, input: string)
    ensures Matching(suggestions, ToLower(input)) == Matching(suggestions, input)
    decreases |suggestions|
  {
    ToLowerIdempotent(input);
    if suggestions != [] {
      MatchingIgnoresCase(suggestions[1..], input);
    }
  }

  /** The component's own state; the typed value itself belongs to the page that renders it. */
  class AutocompleteInput {
    const suggestions: seq<string>
    var showSuggestions: bool
    var filteredSuggestions: seq<string>

    /** The list is only ever shown with something in it. */
    predicate Valid()
      reads this
    {
      showSuggestions ==> filteredSuggestions != []
    }

    constructor (suggestions: seq<string>)
      ensures this.suggestions == suggestions && !showSuggestions && filteredSuggestions == []
      ensures Valid()
    {
      this.suggestions := suggestions;
      showSuggestions := false;
      filteredSuggestions := [];
    }

    /** `handleInputChange(inputValue)` after `onChange`: a non-empty input refilters and shows a non-empty
        result; an empty input hides the list and keeps the previous filter result. */
    method HandleInputChange(inputValue: string)
      requires Valid()
      modifies this
      ensures Valid()
      ensures |inputValue| > 0 ==> filteredSuggestions == Matching(suggestions, inputValue)
                                   && showSuggestions == (filteredSuggestions != [])
      ensures |inputValue| == 0 ==> !showSuggestions && filteredSuggestions == old(filteredSuggestions)
    {
      if |inputValue| > 0 {
        var filtered := Matching(suggestions, inputValue);
        filteredSuggestions := filtered;
        showSuggestions := |filtered| > 0;
      } else {
        showSuggestions := false;
      }
    }

    /** `handleSuggestionClick`: the list closes (the page receives the suggestion through `onChange`). */
    method HandleSuggestionClick()
      requires Valid()
      modifies this
      ensures Valid() && !showSuggestions && filteredSuggestions == old(filteredSuggestions)
    {
      showSuggestions := false;
    }

    /** `onFocus` with the page's current `value`: reopens the previous list when both are non-empty. */
    method Focus(value: string)
      requires Valid()
      modifies this
      ensures Valid() && filteredSuggestions == old(filteredSuggestions)
      ensures showSuggestions == (old(showSuggestions) || (|value| > 0 && |filteredSuggestions| > 0))
    {
      if |value| > 0 && |filteredSuggestions| > 0 {
        showSuggestions := true;
      }
    }

    /** `onBlur`, once its 200 ms timer has fired. */
    method Blur()
      requires Valid()
      modifies this
      ensures Valid() && !showSuggestions && filteredSuggestions == old(filteredSuggestions)
    {
      showSuggestions := false;
    }
  }
}
