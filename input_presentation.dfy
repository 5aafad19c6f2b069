/** What a Dodam input field draws for a given state: the colour shared by the
    underline, the hint and the trailing icon, the hint label's position and
    size, and the error message under the field. */
module InputPresentation {
  import opened KotlinText
  import opened InputState

  datatype Option<T> = None | Some(value: T)

  /** Colours as theme tokens. The theme's actual colour values are not part
      of this model: distinct tokens stand for distinct colours, and Other
      stands for any colour a caller passes that is not one of the named ones. */
  datatype Color = Gray200 | Black | Error | MainColor400 | Other(argb: nat)

  /** The colour the caller gets when it does not choose a focus colour. */
  const DefaultFocusColor: Color := MainColor400

  /** getInputColor: the colour of the underline, the hint and the trailing
      icon in a given state. */
  function InputColor(focusColor: Color, t: InputType): (c: Color)
    ensures t.IsError() ==> c == Error
    ensures t == Focus ==> c == focusColor
    ensures t == Default ==> c == Gray200
    ensures t == UnFocus ==> c == Black
  {
    match t
    case Default => Gray200
    case UnFocus => Black
    case Focus => focusColor
    case ErrorDefault => Error
    case ErrorFocus => Error
    case ErrorUnFocus => Error
  }

  /** Where the hint label sits (a vertical offset in dp, negative is up) and
      how large it is drawn (font size and line height in sp). */
  datatype HintStyle = HintStyle(offsetDp: int, fontSizeSp: int, lineHeightSp: int)

  /** The targets that InputDecoration animates the hint towards: a resting
      field keeps the hint inside at the larger size, every other state lifts
      it above the value at the smaller size. The line height is the font
      size plus four. */
  function HintStyleFor(t: InputType): (h: HintStyle)
    ensures h.lineHeightSp == h.fontSizeSp + 4
    ensures t.IsResting() ==> h.offsetDp == 0 && h.fontSizeSp == 14
    ensures !t.IsResting() ==> h.offsetDp == -22 && h.fontSizeSp == 12
  {
    var resting := t == Default || t == ErrorDefault;
    var fontSize := if resting then 14 else 12;
    HintStyle(if resting then 0 else -22, fontSize, fontSize + 4)
  }

  /** What InputDecoration draws: one colour for the underline, the hint text
      and the trailing icon, and the hint's style. The source hands the colour
      to a trailing icon only when the caller supplies one; iconColor is the
      colour such an icon would get. */
  datatype Decoration = Decoration(underline: Color, hintColor: Color, iconColor: Color, hint: HintStyle)

  function Decorate(t: InputType, focusColor: Color): (d: Decoration)
    ensures d.underline == d.hintColor == d.iconColor
    ensures t.IsError() ==> d.underline == Error
    ensures t == Focus ==> d.underline == focusColor
    ensures t == Default ==> d.underline == Gray200
    ensures t == UnFocus ==> d.underline == Black
    ensures t.IsResting() ==> d.hint.offsetDp == 0 && d.hint.fontSizeSp == 14
    ensures !t.IsResting() ==> d.hint.offsetDp == -22 && d.hint.fontSizeSp == 12
    ensures d.hint.lineHeightSp == d.hint.fontSizeSp + 4
  {
    var inputColor := InputColor(focusColor, t);
    Decoration(inputColor, inputColor, inputColor, HintStyleFor(t))
  }

  /** The condition under which DodamInput adds the error message below the
      field: the state is one of the three Error states. */
  function ShowsErrorMessage(t: InputType): (shown: bool)
    ensures shown <==> t.IsError()
  {
    t == ErrorDefault || t == ErrorUnFocus || t == ErrorFocus
  }

  /** The error message under the field and the colour it is drawn in. */
  datatype ErrorLabel = ErrorLabel(text: string, color: Color)

  /** Everything a DodamInput decides from its arguments on one composition. */
  datatype InputView = InputView(state: InputType, decoration: Decoration, errorLabel: Option<ErrorLabel>)

  /** DodamInput: classify the field, decorate it for that state, and add the
      error message when the state is an error state. The message is drawn in
      the state's input colour, which in an error state is always the Error
      colour, whatever focus colour the caller chose. */
  function DodamInput(isFocused: bool, value: string, isError: bool, errorMessage: string, focusColor: Color): (v: InputView)
    ensures v.state == Classify(isFocused, value, isError)
    ensures v.state.IsError() <==> isError
    ensures v.errorLabel.Some? <==> isError
    ensures v.errorLabel.Some? ==> v.errorLabel.value == ErrorLabel(errorMessage, Error)
    ensures v.decoration.hint.offsetDp == 0 <==> !isFocused && IsBlank(value)
    ensures v.decoration.hint.offsetDp == -22 <==> isFocused || IsNotBlank(value)
    ensures isError ==> v.decoration.underline == Error
    ensures isFocused && !isError ==> v.decoration.underline == focusColor
    ensures !isFocused && !isError ==> v.decoration.underline == (if IsBlank(value) then Gray200 else Black)
    ensures v.decoration.hint.fontSizeSp == (if !isFocused && IsBlank(value) then 14 else 12)
    ensures v.decoration.hint.lineHeightSp == v.decoration.hint.fontSizeSp + 4
    ensures v.decoration.hintColor == v.decoration.iconColor == v.decoration.underline
  {
    var t := Classify(isFocused, value, isError);
    var message := if ShowsErrorMessage(t) then Some(ErrorLabel(errorMessage, InputColor(focusColor, t))) else None;
    InputView(t, Decorate(t, focusColor), message)
  }
}
