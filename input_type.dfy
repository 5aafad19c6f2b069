/** The visual state of a Dodam input field and the rule that derives it from
    the field's focus, its current value and the caller's error flag. */
module InputState {
  import opened KotlinText

  /** The six states of the sealed InputType hierarchy. The source nests the
      last three under an Error namespace; that nesting is only naming, so
      here they are three more constructors of one flat datatype. */
  datatype InputType =
    | Default
    | UnFocus
    | Focus
    | ErrorDefault
    | ErrorUnFocus
    | ErrorFocus
  {
    /** One of the three states under the Error namespace. */
    predicate IsError() {
      ErrorDefault? || ErrorUnFocus? || ErrorFocus?
    }

    /** The field has focus, with or without an error. */
    predicate IsFocused() {
      Focus? || ErrorFocus?
    }

    /** Unfocused with a blank value, with or without an error. */
    predicate IsResting() {
      Default? || ErrorDefault?
    }

    /** Unfocused with a value that is not blank, with or without an error. */
    predicate IsFilled() {
      UnFocus? || ErrorUnFocus?
    }
  }

  /** focusStateAsInputType. The error flag picks the family, focus takes
      precedence over the value, and only an unfocused field looks at whether
      its value is blank. The trailing else of each family is dead code in the
      source, because isNotBlank and isBlank are complementary; the model
      keeps the branch and proves it unreachable. */
  function Classify(isFocused: bool, currentValue: string, isError: bool): (r: InputType)
    ensures r.IsError() <==> isError
    ensures r.IsFocused() <==> isFocused
    ensures r.IsResting() <==> !isFocused && IsBlank(currentValue)
    ensures r.IsFilled() <==> !isFocused && IsNotBlank(currentValue)
  {
    if isError then
      if isFocused then ErrorFocus
      else if IsNotBlank(currentValue) then ErrorUnFocus
      else if IsBlank(currentValue) then ErrorDefault
      else assert false; ErrorDefault
    else if isFocused then Focus
    else if IsNotBlank(currentValue) then UnFocus
    else if IsBlank(currentValue) then Default
    else assert false; Default
  }
}
