/**
 * The text input with suggestions: the suggestions containing the typed text
 * (ignoring case), and whether the list of them is shown.
 */
module AutoCompleteInput {

  import Seqs
  import Strings

  /** The suggestion's lower-cased text contains the lower-cased value. */
  function Contains(value: string): string -> bool
  {
    (s: string) => Strings.IncludesIgnoringCase(s, value)
  }

  /** The suggestions whose lower-cased text contains the lower-cased value, in order. */
  function FilterSuggestions(suggestions: seq<string>, value: string): (r: seq<string>)
    ensures Seqs.IsSubseq(r, suggestions)
    ensures forall s :: s in r <==> s in suggestions && Strings.IncludesIgnoringCase(s, value)
    ensures |r| == Seqs.Count(Contains(value), suggestions)
  {
    var keep := Contains(value);
    Seqs.FilterIsSubseq(keep, suggestions);
    Seqs.FilterMembers(keep, suggestions);
    Seqs.FilterCount(keep, suggestions);
    Seqs.Filter(keep, suggestions)
  }

  /** Any suggestion matches its own text, so it survives filtering by itself. */
  lemma SuggestionMatchesItself(suggestions: seq<string>, s: string)
    requires s in suggestions
    ensures s in FilterSuggestions(suggestions, s)
  {
    assert Strings.ToLower(s) <= Strings.ToLower(s);
  }

  class AutoComplete {

    /** The text in the input; the parent owns it and updates it through `onChangeText`. */
    var value: string
    var showSuggestions: bool
    var filteredSuggestions: seq<string>

    constructor (value: string)
      ensures this.value == value && !showSuggestions && filteredSuggestions == []
    {
      this.value := value;
      showSuggestions := false;
      filteredSuggestions := [];
    }

    /** Typing: the parent stores the new text. */
    method ChangeText(text: string)
      modifies this
      ensures value == text
      ensures showSuggestions == old(showSuggestions) && filteredSuggestions == old(filteredSuggestions)
    {
      value := text;
    }

    /**
     * The effect run when the value changes: with text, the list becomes the
     * matching suggestions and is shown iff it is non-empty; without text the
     * list is hidden and its contents left as they were.
     */
    method RefreshSuggestions(suggestions: seq<string>)
      modifies this
      ensures value == old(value)
      ensures |value| > 0 ==> filteredSuggestions == FilterSuggestions(suggestions, value)
                              && showSuggestions == (filteredSuggestions != [])
      ensures |value| == 0 ==> !showSuggestions && filteredSuggestions == old(filteredSuggestions)
    {
      if |value| > 0 {
        var filtered := FilterSuggestions(suggestions, value);
        filteredSuggestions := filtered;
        showSuggestions := |filtered| > 0;
      } else {
        showSuggestions := false;
      }
    }

    /** Focusing the input re-shows the list when there is text and a non-empty list. */
    method Focus()
      modifies this
      ensures showSuggestions == (old(showSuggestions) || (|value| > 0 && |filteredSuggestions| > 0))
      ensures value == old(value) && filteredSuggestions == old(filteredSuggestions)
    {
      if |value| > 0 && |filteredSuggestions| > 0 {
        showSuggestions := true;
      }
    }

    /** `handleSuggestionPress`: the value becomes the suggestion and the list is hidden. */
    method SuggestionPress(suggestion: string)
      modifies this
      ensures value == suggestion && !showSuggestions
      ensures filteredSuggestions == old(filteredSuggestions)
    {
      value := suggestion;
      showSuggestions := false;
    }
  }
}
