/** What the presentation promises, stated over all states and inputs. */
module InputPresentationProperties {
  import opened InputState
  import opened InputPresentation

  /** Unless the caller picks the Error colour as its focus colour, a field is
      drawn in the Error colour exactly in the three error states. */
  lemma ErrorColorIffErrorState(focusColor: Color, t: InputType)
    requires focusColor != Error
    ensures InputColor(focusColor, t) == Error <==> t.IsError()
  {
  }

  /** The caller's focus colour shows only in the Focus state: in every other
      state the colour does not depend on it. */
  lemma FocusColorOnlyWhenFocused(c1: Color, c2: Color, t: InputType)
    requires t != Focus
    ensures InputColor(c1, t) == InputColor(c2, t)
  {
  }

  /** Default, UnFocus and Error are drawn in three different colours, and the
      focus colour is told apart from them by the caller's choice alone. */
  lemma ColorsDistinguishFamilies(focusColor: Color, a: InputType, b: InputType)
    requires focusColor !in {Gray200, Black, Error}
    requires InputColor(focusColor, a) == InputColor(focusColor, b)
    ensures a.IsError() == b.IsError()
    ensures !a.IsError() ==> a == b
  {
  }

  /** The hint has exactly two styles: resting (offset 0, size 14, line
      height 18) and raised (offset -22, size 12, line height 16). */
  lemma HintHasTwoStyles(t: InputType)
    ensures HintStyleFor(t) == HintStyle(0, 14, 18) || HintStyleFor(t) == HintStyle(-22, 12, 16)
    ensures HintStyleFor(t) == HintStyle(0, 14, 18) <==> t == Default || t == ErrorDefault
  {
  }

  /** The hint is raised exactly when the field has focus or a value that is
      not blank; the error flag never moves it. */
  lemma HintIgnoresErrorFlag(isFocused: bool, value: string)
    ensures HintStyleFor(Classify(isFocused, value, false)) == HintStyleFor(Classify(isFocused, value, true))
  {
  }

  /** The message under the field appears exactly when the caller sets the
      error flag, since the state is an error state exactly then. */
  lemma ErrorMessageShownIffError(isFocused: bool, value: string, isError: bool)
    ensures ShowsErrorMessage(Classify(isFocused, value, isError)) <==> isError
  {
  }

  /** A field used with the default arguments (no error, an empty error
      message, the MainColor400 focus colour) never shows the error message,
      and its underline is MainColor400 while it has focus. */
  lemma DefaultArguments(isFocused: bool, value: string)
    ensures DodamInput(isFocused, value, false, "", DefaultFocusColor).errorLabel == None
    ensures isFocused ==> DodamInput(isFocused, value, false, "", DefaultFocusColor).decoration.underline == MainColor400
  {
  }
}
