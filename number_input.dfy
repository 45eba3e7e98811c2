/** The number field with minus and plus buttons and a suggestion list.
    The buttons emit the text of the next value through `onChange` or emit
    nothing; the list opens on focus, toggles from its button, closes on a
    press outside the field and closes after a pick. The value is the
    caller's number, `null` or `NaN`. */
module NumberField {
  import opened Types
  import opened JsText

  /** `handleIncrement`: from `null`, the minimum's text, or `"1"` without
      one; at or above the maximum, nothing; otherwise the next number. */
  function Increment(value: Count, min: Option<int>, max: Option<int>): (emitted: Option<string>)
    ensures value.NullCount? && min.Some? ==> emitted == Some(IntToString(min.value))
    ensures value.NullCount? && min.None? ==> emitted == Some("1")
    ensures value.IntCount? && max.Some? && value.n >= max.value ==> emitted.None?
    ensures value.IntCount? && !(max.Some? && value.n >= max.value) ==>
              emitted.Some? && ParseInt(emitted.value) == Some(value.n + 1)
    ensures value.NaNCount? ==> emitted == Some("NaN")
  {
    match value
    case NullCount =>
      if min.Some? then Some(IntToString(min.value)) else Some("1")
    case NaNCount =>
      Some("NaN")
    case IntCount(n) =>
      if max.Some? && n >= max.value then None
      else IntToStringRoundTrip(n + 1); Some(IntToString(n + 1))
  }

  /** `handleDecrement`: from `null`, or at or below the minimum, nothing;
      otherwise the previous number. */
  function Decrement(value: Count, min: Option<int>): (emitted: Option<string>)
    ensures value.NullCount? ==> emitted.None?
    ensures value.IntCount? && min.Some? && value.n <= min.value ==> emitted.None?
    ensures value.IntCount? && !(min.Some? && value.n <= min.value) ==>
              emitted.Some? && ParseInt(emitted.value) == Some(value.n - 1)
    ensures value.NaNCount? ==> emitted == Some("NaN")
  {
    match value
    case NullCount => None
    case NaNCount => Some("NaN")
    case IntCount(n) =>
      if min.Some? && n <= min.value then None
      else IntToStringRoundTrip(n - 1); Some(IntToString(n - 1))
  }

  /** The caller's `parseInt` of an emitted text that `IntToString` wrote. */
  function Reread(emitted: string): Count {
    match ParseInt(emitted)
    case Some(n) => IntCount(n)
    case None => NaNCount
  }

  /** Inside the bounds, a button press that changes the value keeps it
      inside them. */
  lemma StepsStayInBounds(n: int, min: int, max: int)
    requires min <= n <= max
    ensures Increment(IntCount(n), Some(min), Some(max)).Some? ==>
              var m := Reread(Increment(IntCount(n), Some(min), Some(max)).value);
              m.IntCount? && min <= m.n <= max
    ensures Decrement(IntCount(n), Some(min)).Some? ==>
              var m := Reread(Decrement(IntCount(n), Some(min)).value);
              m.IntCount? && min <= m.n <= max
  {
  }

  /** From a value inside the bounds, plus then minus comes back, and so
      does minus then plus. */
  lemma StepsUndo(n: int, min: Option<int>, max: Option<int>)
    requires min.Some? ==> min.value <= n
    requires max.Some? ==> n <= max.value
    ensures Increment(IntCount(n), min, max).Some? ==>
              Decrement(Reread(Increment(IntCount(n), min, max).value), min) == Some(IntToString(n))
    ensures Decrement(IntCount(n), min).Some? ==>
              Increment(Reread(Decrement(IntCount(n), min).value), min, max) == Some(IntToString(n))
  {
    IntToStringRoundTrip(n + 1);
    IntToStringRoundTrip(n - 1);
  }

  /** One entry of the list: its number and the text shown. */
  datatype Suggestion = Suggestion(value: int, text: string)

  class SuggestionList {
    var showSuggestions: bool
    const suggestions: seq<Suggestion>

    /** The list is on screen only when it is open and has entries. */
    predicate Shown()
      reads this
    {
      showSuggestions && |suggestions| > 0
    }

    constructor (suggestions: seq<Suggestion>)
      ensures this.suggestions == suggestions && !showSuggestions && !Shown()
    {
      this.suggestions := suggestions;
      showSuggestions := false;
    }

    /** Focusing the input opens the list. */
    method Focus()
      modifies this
      ensures showSuggestions
      ensures Shown() <==> |suggestions| > 0
    {
      showSuggestions := true;
    }

    /** The arrow button, which exists only when there are entries. */
    method Toggle()
      requires |suggestions| > 0
      modifies this
      ensures showSuggestions == !old(showSuggestions)
      ensures Shown() == !old(Shown())
    {
      showSuggestions := !showSuggestions;
    }

    /** A mouse press: outside the field it closes the list, inside it
        changes nothing. */
    method MouseDown(insideField: bool)
      modifies this
      ensures showSuggestions == (old(showSuggestions) && insideField)
    {
      if !insideField {
        showSuggestions := false;
      }
    }

    /** Picking the entry at `index`: emit its number's text, then close. */
    method Pick(index: nat) returns (emitted: string)
      requires index < |suggestions| && Shown()
      modifies this
      ensures ParseInt(emitted) == Some(suggestions[index].value)
      ensures !showSuggestions && !Shown()
    {
      IntToStringRoundTrip(suggestions[index].value);
      emitted := IntToString(suggestions[index].value);
      showSuggestions := false;
    }
  }
}
