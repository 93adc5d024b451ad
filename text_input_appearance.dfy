/**
 * The three appearances of a text input in the default theme, and the
 * selection of one of them by name.
 *
 * An appearance has five states (base, invalid, placeholder, focus,
 * disabled), each a style object. Colours that come from the theme's scales
 * and palette are kept as named tokens; shadows written as template strings
 * are kept as sequences of literal text and tokens.
 */
module TextInputAppearance {

  /** The colour tokens the appearances refer to. */
  datatype Token =
    | N2 | N2A | N4A | N5A | N6A   // neutral scale
    | B4A | B6A | B7               // blue scale
    | RedBase                      // palette red, base

  datatype Part = Lit(s: string) | Tok(t: Token)

  datatype StyleValue =
    | Word(s: string)
    | Color(t: Token)
    | Composite(parts: seq<Part>)

  type Style = map<string, StyleValue>

  datatype InputAppearance = InputAppearance(
    base: Style,
    invalid: Style,
    placeholder: Style,
    focus: Style,
    disabled: Style)

  const DefaultAppearance: InputAppearance := InputAppearance(
    map[
      "backgroundColor" := Word("white"),
      "boxShadow" := Composite([Lit("inset 0 0 0 1px "), Tok(N5A), Lit(", inset 0 1px 2px "), Tok(N4A)])],
    map["boxShadow" := Composite([Lit("inset 0 0 0 1px "), Tok(RedBase), Lit(", inset 0 1px 2px "), Tok(N4A)])],
    map["color" := Color(N6A)],
    map[
      "outline" := Word("none"),
      "boxShadow" := Composite([
        Lit("inset 0 0 2px "), Tok(N4A), Lit(", inset 0 0 0 1px "), Tok(B7), Lit(", 0 0 0 3px "), Tok(B4A)])],
    map[
      "boxShadow" := Composite([Lit("inset 0 0 0 1px "), Tok(N4A)]),
      "backgroundColor" := Color(N2)])

  const NeutralAppearance: InputAppearance := InputAppearance(
    map["backgroundColor" := Color(N2A)],
    map["boxShadow" := Composite([Lit("inset 0 0 0 1px "), Tok(RedBase)])],
    map["color" := Color(N6A)],
    map[
      "outline" := Word("none"),
      "backgroundColor" := Word("white"),
      "boxShadow" := Composite([Lit("0 0 0 2px "), Tok(B6A)])],
    map[
      "boxShadow" := Composite([Lit("inset 0 0 0 1px "), Tok(N4A)]),
      "backgroundColor" := Color(N2)])

  const NoneAppearance: InputAppearance := InputAppearance(
    map["backgroundColor" := Word("white")],
    map[],
    map["color" := Color(N6A)],
    map["outline" := Word("none")],
    map["backgroundColor" := Color(N2)])

  /** What all three appearances share: a focus state without outline, the
      N6A placeholder colour and the N2 disabled background. */
  predicate SharedStates(a: InputAppearance) {
    && "outline" in a.focus && a.focus["outline"] == Word("none")
    && "color" in a.placeholder && a.placeholder["color"] == Color(N6A)
    && "backgroundColor" in a.disabled && a.disabled["backgroundColor"] == Color(N2)
  }

  /** `getTextInputAppearance`: `neutral` and `none` by name, the default
      appearance for every other string. */
  function GetTextInputAppearance(name: string): (a: InputAppearance)
    ensures name == "neutral" ==> a == NeutralAppearance
    ensures name == "none" ==> a == NoneAppearance
    ensures name != "neutral" && name != "none" ==> a == DefaultAppearance
    ensures SharedStates(a)
  {
    match name
    case "neutral" => NeutralAppearance
    case "none" => NoneAppearance
    case _ => DefaultAppearance
  }

  /** The three appearances differ, so the selection is exact in both directions. */
  lemma SelectionIsExact(name: string)
    ensures GetTextInputAppearance(name) == NeutralAppearance <==> name == "neutral"
    ensures GetTextInputAppearance(name) == NoneAppearance <==> name == "none"
    ensures GetTextInputAppearance(name) == DefaultAppearance <==> name != "neutral" && name != "none"
  {
    assert NeutralAppearance.base != DefaultAppearance.base by {
      assert NeutralAppearance.base["backgroundColor"] != DefaultAppearance.base["backgroundColor"];
    }
    assert NoneAppearance.invalid != DefaultAppearance.invalid by {
      assert "boxShadow" in DefaultAppearance.invalid;
    }
    assert NoneAppearance.invalid != NeutralAppearance.invalid by {
      assert "boxShadow" in NeutralAppearance.invalid;
    }
  }

  /** In the `none` appearance the invalid state adds no style at all. */
  lemma NoneHasNoInvalidStyle()
    ensures GetTextInputAppearance("none").invalid == map[]
  {
  }
}
