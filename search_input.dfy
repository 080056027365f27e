/** The submission guard of src/components/SearchInput.tsx. The component owns
    the `query` text; `isLoading` is a prop of its parent and is passed to each
    handler. A handler's `Some(text)` result is the call `onSearch(text)` it
    makes, `None` that it makes none. */
module SearchInputComponent {
  import opened SearchTypes
  import opened JsStrings

  class SearchInput {
    /** The text area's current contents. */
    var query: string

    constructor ()
      ensures query == ""
    {
      query := "";
    }

    /** The text area's change handler: the only place the text changes. */
    method OnChange(value: string)
      modifies this
      ensures query == value
    {
      query := value;
    }

    /** `handleSubmit`: searches for the trimmed text exactly when the text is
        not all whitespace and no search is loading. What it passes on is
        non-empty and neither starts nor ends with whitespace; the text area
        keeps its contents either way. */
    method HandleSubmit(isLoading: bool) returns (search: Option<string>)
      ensures search.Some? <==> !AllWhitespace(query) && !isLoading
      ensures search.Some? ==> search.value == Trim(query) && search.value != []
                               && !IsWhitespace(search.value[0])
                               && !IsWhitespace(search.value[|search.value| - 1])
    {
      var trimmed := Trim(query);
      if trimmed != [] && !isLoading {
        search := Some(trimmed);
      } else {
        search := None;
      }
    }

    /** `handleKeyDown`: Enter without Shift submits through the same guard;
        Shift+Enter and every other key make no call. */
    method HandleKeyDown(key: string, shiftKey: bool, isLoading: bool) returns (search: Option<string>)
      ensures search.Some? <==> key == "Enter" && !shiftKey && !AllWhitespace(query) && !isLoading
      ensures search.Some? ==> search.value == Trim(query)
    {
      if key == "Enter" && !shiftKey {
        search := HandleSubmit(isLoading);
      } else {
        search := None;
      }
    }

    /** The submit button's `disabled` flag: set exactly when `handleSubmit`
        would make no call. */
    function SubmitDisabled(isLoading: bool): (disabled: bool)
      reads this
      ensures disabled <==> AllWhitespace(query) || isLoading
    {
      Trim(query) == [] || isLoading
    }
  }
}
