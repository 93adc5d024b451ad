/**
 * Heading: how `render` resolves `marginTop` and merges the theme's heading
 * style with the caller's props.
 *
 * Props are a plain object of JavaScript values. The theme's
 * `getHeadingStyle` is a parameter: a function from the size to a style
 * object. `marginTop: 'default'` takes the theme style's `marginTop`; a falsy
 * result becomes 0; the theme's `marginTop` is never spread itself. The box
 * starts from `is: 'h2'` and `marginBottom: 0`, the heading style is spread
 * over that, and the caller's remaining props over both.
 */
module Heading {
  import opened JsValues

  const DefaultSize: real := 500.0

  /** Props that `render` takes out by name before spreading the rest. */
  const Destructured: set<string> := {"theme", "marginTop", "size"}

  /** The size `render` sees: omitted or undefined means the default 500. */
  function Size(props: map<string, JsValue>): (r: JsValue)
    ensures Get(props, "size") == Undefined ==> r == Num(500.0)
    ensures Get(props, "size") != Undefined ==> r == props["size"]
  {
    if Get(props, "size") == Undefined then Num(DefaultSize) else props["size"]
  }

  /** `finalMarginTop`, before the `|| 0` fallback. */
  function ResolvedMarginTop(props: map<string, JsValue>, style: map<string, JsValue>): (r: JsValue)
    ensures Get(props, "marginTop") == Str("default") ==> r == Get(style, "marginTop")
    ensures Get(props, "marginTop") != Str("default") ==> r == Get(props, "marginTop")
  {
    var marginTop := Get(props, "marginTop");
    if marginTop == Str("default") then Get(style, "marginTop") else marginTop
  }

  /** The props the outer box receives: its own three, the heading style
      without `marginTop`, and the props `render` does not take out. The
      resolved `marginTop` is never overridden. */
  function HeadingBox(props: map<string, JsValue>, getHeadingStyle: JsValue -> map<string, JsValue>): (b: map<string, JsValue>)
    ensures b.Keys ==
      {"is", "marginTop", "marginBottom"}
      + (getHeadingStyle(Size(props)).Keys - {"marginTop"})
      + (props.Keys - Destructured)
    ensures b["marginTop"] == Or(ResolvedMarginTop(props, getHeadingStyle(Size(props))), Num(0.0))
  {
    var style := getHeadingStyle(Size(props));
    var headingStyle := style - {"marginTop"};
    var rest := props - Destructured;
    map["is" := Str("h2"),
        "marginTop" := Or(ResolvedMarginTop(props, style), Num(0.0)),
        "marginBottom" := Num(0.0)]
      + headingStyle + rest
  }

  /** `marginTop: 'default'` takes the theme's value for the size; any other
      value is used as given; a falsy result becomes 0. */
  lemma MarginTopRule(props: map<string, JsValue>, getHeadingStyle: JsValue -> map<string, JsValue>)
    ensures var box := HeadingBox(props, getHeadingStyle);
      var style := getHeadingStyle(Size(props));
      var given := Get(props, "marginTop");
      && "marginTop" in box
      && (given == Str("default") && Truthy(Get(style, "marginTop")) ==>
            box["marginTop"] == style["marginTop"])
      && (given != Str("default") && Truthy(given) ==> box["marginTop"] == given)
      && (!Truthy(if given == Str("default") then Get(style, "marginTop") else given) ==>
            box["marginTop"] == Num(0.0))
  {
    var style := getHeadingStyle(Size(props));
    assert "marginTop" !in style - {"marginTop"};
    assert "marginTop" !in props - Destructured;
  }

  /** Unless the caller asks for `'default'`, the theme's `marginTop` has no
      effect on the box. */
  lemma ThemeMarginTopNotSpread(
    props: map<string, JsValue>, f: JsValue -> map<string, JsValue>, g: JsValue -> map<string, JsValue>)
    requires Get(props, "marginTop") != Str("default")
    requires f(Size(props)) - {"marginTop"} == g(Size(props)) - {"marginTop"}
    ensures HeadingBox(props, f) == HeadingBox(props, g)
  {
  }

  /** Caller props win over the heading style, which wins over the box's own
      `is: 'h2'` and `marginBottom: 0`. */
  lemma Precedence(props: map<string, JsValue>, getHeadingStyle: JsValue -> map<string, JsValue>, k: string)
    requires k !in Destructured
    ensures var box := HeadingBox(props, getHeadingStyle);
      var style := getHeadingStyle(Size(props));
      && (k in props ==> k in box && box[k] == props[k])
      && (k !in props && k in style && k != "marginTop" ==> k in box && box[k] == style[k])
      && (k !in props && k !in style && k == "is" ==> box[k] == Str("h2"))
      && (k !in props && k !in style && k == "marginBottom" ==> box[k] == Num(0.0))
      && (k !in props && k !in style && k != "is" && k != "marginBottom" ==> k !in box)
  {
    var style := getHeadingStyle(Size(props));
    if k in props {
      assert k in props - Destructured;
    }
  }

  /** Without a size the theme is asked for the style of size 500. */
  lemma DefaultSizeAsked(props: map<string, JsValue>)
    requires "size" !in props
    ensures Size(props) == Num(500.0)
  {
  }
}
