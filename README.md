# Dodam input field: visual state and presentation

This project models the decision logic of `DodamInput`, the text input of the
Dodam Android design system. The input draws itself in one of six visual
states. `focusStateAsInputType` derives the state from three things: whether
the field has focus, its current value, and an error flag the caller sets.
The state then decides the rest:

- the colour shared by the underline, the hint text and the trailing icon
  (`getInputColor`);
- where the hint label sits and how large it is (`InputDecoration`);
- whether the error message appears under the field, and in which colour.

Modules:

- `KotlinText` (`kotlin_text.dfy`): Kotlin's `isBlank` and `isNotBlank` over
  the JVM's `Char.isWhitespace`. These are the only facts the classifier takes
  from the value.
- `InputState` (`input_type.dfy`): the six-state `InputType` as one flat
  datatype, and `Classify`, the classifier.
- `InputStateProperties` (`input_state_properties.dfy`): precedence,
  exclusivity, reachability and the exact dependence on the inputs.
- `InputPresentation` (`input_presentation.dfy`): colour tokens, the colour
  table, the hint style, the decoration, and `DodamInput`, which puts the
  decisions of one composition together.
- `InputPresentationProperties` (`input_presentation_properties.dfy`): how the
  colour, the hint and the error message relate to the state and the inputs.

The source nests three of the states under an `Error` namespace. That nesting
is only naming, so here they are the constructors `ErrorDefault`,
`ErrorUnFocus` and `ErrorFocus`. Every operation is a total function without
side effects. The same inputs therefore always give the same state and the
same presentation.

## Model

| member | source | states |
|---|---|---|
| KotlinText.IsBlank | dodam-components/src/main/java/kr/hs/dgsw/smartschool/components/component/basic/input/DodamInput.kt:254 | a value is blank exactly when every character is whitespace, so the empty value is blank |
| KotlinText.IsNotBlank | dodam-components/src/main/java/kr/hs/dgsw/smartschool/components/component/basic/input/DodamInput.kt:252 | a value is not blank exactly when some character is not whitespace |
| InputState.Classify | dodam-components/src/main/java/kr/hs/dgsw/smartschool/components/component/basic/input/DodamInput.kt:244-267 | the state is an error state exactly when the error flag is set; it is a focused state exactly when the field has focus; it is a resting state (Default or Error.Default) exactly when unfocused with a blank value; it is a filled state exactly when unfocused with a value that is not blank; the trailing else branches are proved unreachable |
| InputStateProperties.ExactlyOneKind | dodam-components/src/main/java/kr/hs/dgsw/smartschool/components/component/basic/input/DodamInput.kt:50-59 | every state is exactly one of focused, resting and filled |
| InputStateProperties.StateDeterminedByErrorAndKind | dodam-components/src/main/java/kr/hs/dgsw/smartschool/components/component/basic/input/DodamInput.kt:50-59 | two states that agree on error-ness and kind are the same state, so the flat datatype keeps the hierarchy's information |
| InputStateProperties.FocusTakesPrecedence | dodam-components/src/main/java/kr/hs/dgsw/smartschool/components/component/basic/input/DodamInput.kt:249-260 | a focused field is Focus, or Error.Focus with the error flag, whatever its value |
| InputStateProperties.UnfocusedFilledValue | dodam-components/src/main/java/kr/hs/dgsw/smartschool/components/component/basic/input/DodamInput.kt:252-262 | an unfocused field with a value that is not blank is UnFocus, or Error.UnFocus with the error flag |
| InputStateProperties.UnfocusedBlankValue | dodam-components/src/main/java/kr/hs/dgsw/smartschool/components/component/basic/input/DodamInput.kt:254-266 | an unfocused field with an empty or whitespace-only value is Default, or Error.Default with the error flag |
| InputStateProperties.SameStateIff | dodam-components/src/main/java/kr/hs/dgsw/smartschool/components/component/basic/input/DodamInput.kt:244-267 | two inputs get the same state exactly when they agree on the error flag and on focus and, when unfocused, on whether the value is blank |
| InputStateProperties.EveryStateReachable | dodam-components/src/main/java/kr/hs/dgsw/smartschool/components/component/basic/input/DodamInput.kt:244-267 | each of the six states is produced by some input |
| InputStateProperties.Scenarios | dodam-components/src/main/java/kr/hs/dgsw/smartschool/components/component/basic/input/DodamInput.kt:244-267 | the state for concrete inputs, among them a whitespace-only value (Default) and an unfocused erroneous value "HI" (Error.UnFocus) |
| InputPresentation.InputColor | dodam-components/src/main/java/kr/hs/dgsw/smartschool/components/component/basic/input/DodamInput.kt:270-278 | error states take the Error colour, Focus the caller's focus colour, Default Gray200 and UnFocus Black |
| InputPresentation.HintStyleFor | dodam-components/src/main/java/kr/hs/dgsw/smartschool/components/component/basic/input/DodamInput.kt:175-187 | a resting state puts the hint at offset 0 with size 14, every other state at offset -22 with size 12; the line height is always the size plus 4 |
| InputPresentation.Decorate | dodam-components/src/main/java/kr/hs/dgsw/smartschool/components/component/basic/input/DodamInput.kt:173-224 | the underline, the hint text and the trailing icon share one colour: Error in an error state, the focus colour in Focus, Gray200 in Default, Black in UnFocus; the hint is at offset 0 and size 14 in a resting state and at offset -22 and size 12 otherwise; the line height is the size plus 4 |
| InputPresentation.ShowsErrorMessage | dodam-components/src/main/java/kr/hs/dgsw/smartschool/components/component/basic/input/DodamInput.kt:147-151 | the error message is shown exactly in the three error states |
| InputPresentation.DodamInput | dodam-components/src/main/java/kr/hs/dgsw/smartschool/components/component/basic/input/DodamInput.kt:103-161 | the error message appears exactly when the error flag is set, with the caller's text, drawn in the Error colour; the hint rests exactly when unfocused with a blank value and is raised exactly when focused or not blank; the hint's size is 14 when resting and 12 otherwise, with line height the size plus 4; the underline is the Error colour under the error flag, the focus colour when focused without it, and Gray200 or Black when unfocused without it for a blank or a non-blank value; the hint and the icon share the underline's colour; the state is the classifier's |
| InputPresentationProperties.ErrorColorIffErrorState | dodam-components/src/main/java/kr/hs/dgsw/smartschool/components/component/basic/input/DodamInput.kt:270-278 | unless the focus colour is itself the Error colour, the input colour is the Error colour exactly in the error states |
| InputPresentationProperties.FocusColorOnlyWhenFocused | dodam-components/src/main/java/kr/hs/dgsw/smartschool/components/component/basic/input/DodamInput.kt:274 | outside the Focus state the colour does not depend on the caller's focus colour |
| InputPresentationProperties.ColorsDistinguishFamilies | dodam-components/src/main/java/kr/hs/dgsw/smartschool/components/component/basic/input/DodamInput.kt:270-278 | with a focus colour other than Gray200, Black and Error, equal colours mean equal error-ness, and outside the error states the colour identifies the state |
| InputPresentationProperties.HintHasTwoStyles | dodam-components/src/main/java/kr/hs/dgsw/smartschool/components/component/basic/input/DodamInput.kt:175-187 | the hint is either at offset 0, size 14, line height 18 (exactly for Default and Error.Default) or at offset -22, size 12, line height 16 |
| InputPresentationProperties.HintIgnoresErrorFlag | dodam-components/src/main/java/kr/hs/dgsw/smartschool/components/component/basic/input/DodamInput.kt:175-187 | setting or clearing the error flag never moves or resizes the hint |
| InputPresentationProperties.DefaultArguments | dodam-components/src/main/java/kr/hs/dgsw/smartschool/components/component/basic/input/DodamInput.kt:87-94 | with the default arguments the error message never appears, and a focused field is underlined in MainColor400 |
| InputPresentationProperties.ErrorMessageShownIffError | dodam-components/src/main/java/kr/hs/dgsw/smartschool/components/component/basic/input/DodamInput.kt:110-151 | the message under the field is shown exactly when the caller sets the error flag |

## Left out

- The Compose machinery of `DodamInput` and `InputDecoration` is left out. That covers `remember`/`mutableStateOf` state, `FocusRequester`, `onFocusChanged`, `BasicTextField` and its editing options, `drawBehind` line drawing, layout and `@Preview` functions. Focus arrives as the `isFocused` argument instead of being tracked.
- The animations (`animateDpAsState`, `animateFloatAsState`) are left out. `HintStyleFor` gives the values they animate towards, not the frames in between.
- `HintStyleFor`: the source uses floats (14f, 12f, 14f + 4f) and dp values; the model uses integers. These are exact for these small constants.
- The trailing icon is optional in the source and gets the input colour only when the caller supplies one. The model always carries the colour such an icon would get.
- The other default arguments of `DodamInput` (`enabled`, `textColor`, `singleLine`, `maxLines`, `textStyle`, `readOnly`, keyboard and visual-transformation options) only configure the text field and are not modelled.
- The initial value of the remembered state at line 107 is left out. Line 110 overwrites it with the classifier's result before anything reads it.
- Colours are theme tokens, not ARGB values. The theme's palette is not part of this model, so `Gray200`, `Black`, `Error` and `MainColor400` are treated as four different colours.
- Strings are sequences of Unicode scalar values, while Kotlin strings are UTF-16 code units. Every whitespace character lies in the Basic Multilingual Plane, and a surrogate half is never whitespace. So both views agree on whether a value is blank.
- `KotlinText.IsWhitespace` follows the Unicode tables of current JVMs. On a runtime with Unicode older than 6.3, U+180E is also a space separator; that character is not modelled as whitespace.
- Button.kt, Card.kt, Schedule.kt, ShapeScreen.kt and the build script are not part of this model. They hold colour tables over theme tokens, layout, drawing that depends on pixel density, and build configuration, with no decision logic.
