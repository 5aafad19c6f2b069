/** What the classification rule promises, stated over all inputs. */
module InputStateProperties {
  import opened KotlinText
  import opened InputState

  /** Every state is exactly one of focused, resting and filled. */
  lemma ExactlyOneKind(t: InputType)
    ensures t.IsFocused() || t.IsResting() || t.IsFilled()
    ensures !(t.IsFocused() && t.IsResting())
    ensures !(t.IsFocused() && t.IsFilled())
    ensures !(t.IsResting() && t.IsFilled())
  {
  }

  /** A state is identified by its error-ness and its kind: the flat datatype
      loses nothing of the source's two-level hierarchy. */
  lemma StateDeterminedByErrorAndKind(a: InputType, b: InputType)
    requires a.IsError() == b.IsError()
    requires a.IsFocused() == b.IsFocused()
    requires a.IsResting() == b.IsResting()
    ensures a == b
  {
  }

  /** A focused field is Focus, or Error.Focus when the error flag is set,
      whatever its value: focus takes precedence over emptiness. */
  lemma FocusTakesPrecedence(currentValue: string, isError: bool)
    ensures Classify(true, currentValue, isError) == if isError then ErrorFocus else Focus
  {
  }

  /** An unfocused field whose value is not blank is UnFocus, or Error.UnFocus
      when the error flag is set. */
  lemma UnfocusedFilledValue(currentValue: string, isError: bool)
    requires IsNotBlank(currentValue)
    ensures Classify(false, currentValue, isError) == if isError then ErrorUnFocus else UnFocus
  {
  }

  /** An unfocused field whose value is empty or whitespace only is Default,
      or Error.Default when the error flag is set. */
  lemma UnfocusedBlankValue(currentValue: string, isError: bool)
    requires IsBlank(currentValue)
    ensures Classify(false, currentValue, isError) == if isError then ErrorDefault else Default
  {
  }

  /** Two inputs get the same state exactly when they agree on the error flag
      and on focus and, when unfocused, on whether the value is blank. Nothing
      else about the value matters. */
  lemma SameStateIff(f1: bool, v1: string, e1: bool, f2: bool, v2: string, e2: bool)
    ensures Classify(f1, v1, e1) == Classify(f2, v2, e2)
        <==> e1 == e2 && f1 == f2 && (f1 || IsBlank(v1) == IsBlank(v2))
  {
  }

  /** No state of the hierarchy is dead: each one is produced by some input. */
  lemma EveryStateReachable(t: InputType)
    ensures exists isFocused, currentValue, isError :: Classify(isFocused, currentValue, isError) == t
  {
    match t
    case Default => assert Classify(false, "", false) == t;
    case UnFocus => assert IsNotBlank("x") && Classify(false, "x", false) == t;
    case Focus => assert Classify(true, "", false) == t;
    case ErrorDefault => assert Classify(false, "", true) == t;
    case ErrorUnFocus => assert IsNotBlank("x") && Classify(false, "x", true) == t;
    case ErrorFocus => assert Classify(true, "", true) == t;
  }

  /** The preview's inputs and the usual cases: whitespace alone counts as
      blank. */
  lemma Scenarios()
    ensures Classify(false, "", false) == Default
    ensures Classify(false, "   ", false) == Default
    ensures Classify(false, "Hello", false) == UnFocus
    ensures Classify(true, "Hello", false) == Focus
    ensures Classify(false, "", true) == ErrorDefault
    ensures Classify(false, "HI", true) == ErrorUnFocus
    ensures Classify(true, "", true) == ErrorFocus
  {
  }
}
