/**
 * Dialog: the pure rules of its `render` and `renderChildren`.
 *
 * Offsets are `string | number` props. An integer number gets the unit
 * `px`; strings and other numbers pass through. The maximum width and height
 * are template strings `calc(100% - <offset> * 2)` built from those
 * normalised offsets, and the same normalised offsets are the margins. The
 * header close button, the footer cancel button and the confirm button are
 * shown according to four flags, and each calls `onCancel` or `onConfirm`
 * with the overlay's `close`.
 */
module Dialog {
  import opened JsValues
  import OverlayLifecycle

  // ---------------------------------------------------------------------
  // Offsets and their units
  // ---------------------------------------------------------------------

  /** A `string | number` prop. Numbers are exact reals. */
  datatype Offset = Text(s: string) | Number(x: real)

  /** `Number.isInteger`. */
  predicate IsInteger(x: real) {
    x.Floor as real == x
  }

  function DigitChar(d: nat): (c: char)
    requires d < 10
    ensures '0' <= c <= '9'
  {
    ('0' as int + d) as char
  }

  predicate IsDigit(c: char) {
    '0' <= c <= '9'
  }

  function DigitValue(c: char): (d: nat)
    requires IsDigit(c)
    ensures d < 10 && DigitChar(d) == c
  {
    c as int - '0' as int
  }

  /** The decimal digits of `n`, most significant first, with no leading
      zero: the text JavaScript prints. */
  function NatText(n: nat): (r: string)
    ensures |r| >= 1
    ensures forall i :: 0 <= i < |r| ==> IsDigit(r[i])
    ensures r[0] == '0' <==> n == 0
    ensures n < 10 <==> |r| == 1
    decreases n
  {
    if n < 10 then [DigitChar(n)] else NatText(n / 10) + [DigitChar(n % 10)]
  }

  /** How a template string prints an integer (magnitudes below 10^21): a
      minus sign exactly for negative numbers, then the digits of the
      magnitude without leading zeros. */
  function IntText(n: int): (r: string)
    ensures |r| >= 1 && (r[0] == '-' <==> n < 0)
    ensures n < 0 ==> |r| >= 2 && IsDigit(r[1]) && r[1] != '0'
    ensures n >= 0 ==> (r[0] == '0' <==> n == 0)
    ensures n == 0 ==> r == "0"
    ensures -10 < n < 10 <==> |r| == (if n < 0 then 2 else 1)
    ensures forall i :: (if n < 0 then 1 else 0) <= i < |r| ==> IsDigit(r[i])
  {
    if n < 0 then "-" + NatText(-n) else NatText(n)
  }

  /** Reads a non-empty run of decimal digits. */
  function ParseNat(s: string): Option<nat>
    decreases |s|
  {
    if |s| == 0 || !IsDigit(s[|s| - 1]) then None
    else if |s| == 1 then Some(DigitValue(s[0]))
    else match ParseNat(s[..|s| - 1])
      case None => None
      case Some(h) => Some(h * 10 + DigitValue(s[|s| - 1]))
  }

  function ParseInt(s: string): Option<int> {
    if |s| > 0 && s[0] == '-' then
      match ParseNat(s[1..])
      case None => None
      case Some(n) => Some(-(n as int))
    else ParseNat(s)
  }

  /** Reads back an integer length written with the unit `px`. */
  function ParsePx(s: string): Option<int> {
    if |s| >= 2 && s[|s| - 2..] == "px" then ParseInt(s[..|s| - 2]) else None
  }

  lemma {:induction false} ParseNatText(n: nat)
    ensures ParseNat(NatText(n)) == Some(n)
    decreases n
  {
    if n >= 10 {
      var s := NatText(n);
      assert s == NatText(n / 10) + [DigitChar(n % 10)];
      assert s[..|s| - 1] == NatText(n / 10);
      assert DigitValue(s[|s| - 1]) == n % 10;
      ParseNatText(n / 10);
    }
  }

  lemma ParseIntText(n: int)
    ensures ParseInt(IntText(n)) == Some(n)
  {
    if n < 0 {
      var digits := NatText(-n);
      var s := "-" + digits;
      assert IntText(n) == s;
      assert |s| > 0 && s[0] == '-';
      assert s[1..] == digits;
      ParseNatText(-n);
      assert ParseInt(s) == Some(-(-n));
    } else {
      var s := NatText(n);
      assert IntText(n) == s;
      assert IsDigit(s[0]);
      ParseNatText(n);
      assert ParseInt(s) == ParseNat(s);
    }
  }

  lemma ParsePxText(n: int)
    ensures ParsePx(IntText(n) + "px") == Some(n)
  {
    var s := IntText(n) + "px";
    assert s[|s| - 2..] == "px";
    assert s[..|s| - 2] == IntText(n);
    ParseIntText(n);
  }

  /** The offset normalisation of `render`: an integer number `n` becomes
      the text `<n>px`, which reads back as `n`; anything else is kept. */
  function WithUnit(o: Offset): (r: Offset)
    ensures o.Number? && IsInteger(o.x) ==> r == Text(IntText(o.x.Floor) + "px")
    ensures o.Number? && IsInteger(o.x) ==> ParsePx(r.s) == Some(o.x.Floor)
    ensures !(o.Number? && IsInteger(o.x)) ==> r == o
  {
    if o.Number? && IsInteger(o.x) then
      ParsePxText(o.x.Floor);
      Text(IntText(o.x.Floor) + "px")
    else o
  }

  lemma WithUnitIdempotent(o: Offset)
    ensures WithUnit(WithUnit(o)) == WithUnit(o)
  {
  }

  // ---------------------------------------------------------------------
  // Template strings
  // ---------------------------------------------------------------------

  /** A piece of a template string. How JavaScript prints a non-integer
      number is not modelled, so such a number stays a piece of its own. */
  datatype Fragment = Chars(s: string) | NumberText(x: real)

  function Interpolate(o: Offset): Fragment {
    match o
    case Text(s) => Chars(s)
    case Number(x) => NumberText(x)
  }

  const CalcPrefix: string := "calc(100% - "
  const CalcSuffix: string := " * 2)"

  /** The template `calc(100% - ${v} * 2)`. */
  function CalcDoubled(v: Offset): seq<Fragment> {
    [Chars(CalcPrefix), Interpolate(v), Chars(CalcSuffix)]
  }

  /** The string a template denotes, when every piece is text. */
  function Flatten(t: seq<Fragment>): Option<string>
    decreases |t|
  {
    if t == [] then Some("")
    else match t[0]
      case NumberText(_) => None
      case Chars(s) =>
        match Flatten(t[1..])
        case None => None
        case Some(rest) => Some(s + rest)
  }

  /** Reads back the operand of a `calc(100% - <operand> * 2)` string. */
  function CalcOperand(s: string): Option<string> {
    if |s| >= |CalcPrefix| + |CalcSuffix|
       && s[..|CalcPrefix|] == CalcPrefix
       && s[|s| - |CalcSuffix|..] == CalcSuffix
    then Some(s[|CalcPrefix|..|s| - |CalcSuffix|])
    else None
  }

  /** A `calc` string over a text operand is plain text, and reading its
      operand back gives that text. */
  lemma CalcDoubledText(v: string)
    ensures Flatten(CalcDoubled(Text(v))) == Some(CalcPrefix + v + CalcSuffix)
    ensures CalcOperand(CalcPrefix + v + CalcSuffix) == Some(v)
  {
    var t := CalcDoubled(Text(v));
    assert t[1..][1..][1..] == [];
    assert Flatten(t[1..][1..]) == Some(CalcSuffix + "");
    assert Flatten(t[1..]) == Some(v + (CalcSuffix + ""));
    assert CalcPrefix + (v + (CalcSuffix + "")) == CalcPrefix + v + CalcSuffix;
    var s := CalcPrefix + v + CalcSuffix;
    assert s[..|CalcPrefix|] == CalcPrefix;
    assert s[|s| - |CalcSuffix|..] == CalcSuffix;
    assert s[|CalcPrefix|..|s| - |CalcSuffix|] == v;
  }

  /** The whole layout the dialog pane receives from the offsets. */
  datatype Layout = Layout(
    width: Offset,
    maxWidth: seq<Fragment>,
    maxHeight: seq<Fragment>,
    marginX: Offset,
    marginY: Offset,
    minHeight: Offset)

  // ---------------------------------------------------------------------
  // Props
  // ---------------------------------------------------------------------

  datatype Intent = IntentNone | Success | Warning | Danger

  /** A button handler: the default `(close) => close()`, or a caller's
      function, which is given `close` and may call it (`callsClose`). */
  datatype Handler = CallsClose | CustomHandler(id: nat, callsClose: bool)

  /** The props of Dialog that `render` reads, after defaults are applied.
      Callbacks are named by an identifier. */
  datatype DialogProps = DialogProps(
    isShown: bool,
    hasHeader: bool,
    hasClose: bool,
    hasFooter: bool,
    hasCancel: bool,
    intent: Intent,
    width: Offset,
    topOffset: Offset,
    sideOffset: Offset,
    minHeightContent: Offset,
    confirmLabel: string,
    cancelLabel: string,
    isConfirmLoading: bool,
    isConfirmDisabled: bool,
    shouldCloseOnOverlayClick: bool,
    shouldCloseOnEscapePress: bool,
    preventBodyScrolling: bool,
    onCancel: Handler,
    onConfirm: Handler,
    onCloseComplete: Option<nat>,
    onOpenComplete: Option<nat>)

  /** Dialog's default props. */
  const Defaults: DialogProps := DialogProps(
    false, true, true, true, true, IntentNone,
    Number(560.0), Text("12vmin"), Text("16px"), Number(80.0),
    "Confirm", "Cancel", false, false,
    true, true, false,
    CallsClose, CallsClose, None, None)

  /** The offsets part of `render`. */
  function DialogLayout(p: DialogProps): (l: Layout)
    ensures l.width == p.width && l.minHeight == p.minHeightContent
    ensures l.marginX == WithUnit(p.sideOffset) && l.marginY == WithUnit(p.topOffset)
    ensures l.maxWidth == CalcDoubled(l.marginX) && l.maxHeight == CalcDoubled(l.marginY)
  {
    var side := WithUnit(p.sideOffset);
    var top := WithUnit(p.topOffset);
    Layout(p.width, CalcDoubled(side), CalcDoubled(top), side, top, p.minHeightContent)
  }

  /** An integer offset `n` ends up as the operand `<n>px` of the `calc`
      string and as the margin; both read back as `n`. The same rule serves
      the side and the top offset. */
  lemma IntegerOffsetLayout(p: DialogProps, n: int)
    requires p.sideOffset == Number(n as real)
    ensures var l := DialogLayout(p);
      && l.marginX == Text(IntText(n) + "px")
      && Flatten(l.maxWidth) == Some(CalcPrefix + IntText(n) + "px" + CalcSuffix)
      && CalcOperand(Flatten(l.maxWidth).value) == Some(IntText(n) + "px")
      && ParsePx(CalcOperand(Flatten(l.maxWidth).value).value) == Some(n)
  {
    assert IsInteger(n as real);
    CalcDoubledText(IntText(n) + "px");
    assert CalcPrefix + (IntText(n) + "px") + CalcSuffix == CalcPrefix + IntText(n) + "px" + CalcSuffix;
    ParsePxText(n);
  }

  /** A string offset is used verbatim. */
  lemma TextOffsetLayout(p: DialogProps, t: string)
    requires p.topOffset == Text(t)
    ensures DialogLayout(p).marginY == Text(t)
    ensures Flatten(DialogLayout(p).maxHeight) == Some(CalcPrefix + t + CalcSuffix)
  {
    CalcDoubledText(t);
  }

  /** A non-integer number is neither given a unit nor turned into text. */
  lemma FractionalOffsetLayout(p: DialogProps, x: real)
    requires p.sideOffset == Number(x) && !IsInteger(x)
    ensures DialogLayout(p).marginX == Number(x)
    ensures DialogLayout(p).maxWidth[1] == NumberText(x)
    ensures Flatten(DialogLayout(p).maxWidth) == None
  {
    var t := DialogLayout(p).maxWidth;
    assert t[1..][0] == NumberText(x);
  }

  /** The default geometry. */
  lemma DefaultLayout()
    ensures Flatten(DialogLayout(Defaults).maxWidth) == Some(CalcPrefix + "16px" + CalcSuffix)
    ensures Flatten(DialogLayout(Defaults).maxHeight) == Some(CalcPrefix + "12vmin" + CalcSuffix)
    ensures DialogLayout(Defaults).width == Number(560.0)
    ensures DialogLayout(Defaults).minHeight == Number(80.0)
  {
    assert DialogLayout(Defaults).marginX == Text("16px");
    assert DialogLayout(Defaults).marginY == Text("12vmin");
    CalcDoubledText("16px");
    CalcDoubledText("12vmin");
  }

  // ---------------------------------------------------------------------
  // Buttons
  // ---------------------------------------------------------------------

  /** What a click does: the overlay's `close`, or a caller's handler, which
      may call `close` in turn. */
  datatype Effect = ClosesOverlay | RunsHandler(id: nat, callsClose: bool)

  /** The click reaches the overlay's `close`. */
  predicate Closes(e: Effect) {
    e.ClosesOverlay? || e.callsClose
  }

  /** Calling a handler with `close`. */
  function Invoke(h: Handler): (e: Effect)
    ensures h == CallsClose ==> e == ClosesOverlay
    ensures h.CustomHandler? ==> e == RunsHandler(h.id, h.callsClose)
    ensures Closes(e) <==> h == CallsClose || h.callsClose
  {
    match h
    case CallsClose => ClosesOverlay
    case CustomHandler(id, c) => RunsHandler(id, c)
  }

  datatype ConfirmButton = ConfirmButton(
    caption: string, isLoading: bool, disabled: bool, intent: Intent, onClick: Effect)

  datatype Header = Header(closeButton: Option<Effect>)

  datatype Footer = Footer(cancelButton: Option<(string, Effect)>, confirm: ConfirmButton)

  datatype Chrome = Chrome(header: Option<Header>, footer: Option<Footer>)

  predicate HasCloseButton(c: Chrome) {
    c.header.Some? && c.header.value.closeButton.Some?
  }

  predicate HasCancelButton(c: Chrome) {
    c.footer.Some? && c.footer.value.cancelButton.Some?
  }

  predicate HasConfirmButton(c: Chrome) {
    c.footer.Some?
  }

  /** The header and footer of `render`: which buttons appear, and what each
      one calls. */
  function DialogChrome(p: DialogProps): (c: Chrome)
    ensures HasCloseButton(c) <==> p.hasHeader && p.hasClose
    ensures HasCancelButton(c) <==> p.hasFooter && p.hasCancel
    ensures HasConfirmButton(c) <==> p.hasFooter
    ensures c.header.Some? <==> p.hasHeader
    ensures HasCloseButton(c) ==> c.header.value.closeButton.value == Invoke(p.onCancel)
    ensures HasCancelButton(c) ==> c.footer.value.cancelButton.value == (p.cancelLabel, Invoke(p.onCancel))
    ensures HasConfirmButton(c) ==>
      c.footer.value.confirm ==
        ConfirmButton(p.confirmLabel, p.isConfirmLoading, p.isConfirmDisabled, p.intent, Invoke(p.onConfirm))
  {
    Chrome(
      if p.hasHeader
      then Some(Header(if p.hasClose then Some(Invoke(p.onCancel)) else None))
      else None,
      if p.hasFooter
      then Some(Footer(
        if p.hasCancel then Some((p.cancelLabel, Invoke(p.onCancel))) else None,
        ConfirmButton(p.confirmLabel, p.isConfirmLoading, p.isConfirmDisabled,
                      p.intent, Invoke(p.onConfirm))))
      else None)
  }

  /** With the default handlers every button that is shown closes the overlay. */
  lemma DefaultHandlersClose(p: DialogProps)
    requires p.onCancel == Defaults.onCancel && p.onConfirm == Defaults.onConfirm
    ensures HasCloseButton(DialogChrome(p)) ==>
      DialogChrome(p).header.value.closeButton.value == ClosesOverlay
    ensures HasCancelButton(DialogChrome(p)) ==>
      DialogChrome(p).footer.value.cancelButton.value.1 == ClosesOverlay
    ensures HasConfirmButton(DialogChrome(p)) ==>
      DialogChrome(p).footer.value.confirm.onClick == ClosesOverlay
  {
  }

  // ---------------------------------------------------------------------
  // Children
  // ---------------------------------------------------------------------

  /** Dialog's `children`: a render function, a string, or any other node. */
  datatype Children = RenderFunction(fn: nat) | StringChild(s: string) | NodeChild(node: nat)

  /** What `renderChildren` puts in the body. */
  datatype Content = CalledWithClose(fn: nat) | Paragraph(text: string) | AsGiven(node: nat)

  function RenderChildren(c: Children): (r: Content)
    ensures c.RenderFunction? ==> r == CalledWithClose(c.fn)
    ensures c.StringChild? ==> r == Paragraph(c.s)
    ensures c.NodeChild? ==> r == AsGiven(c.node)
  {
    match c
    case RenderFunction(f) => CalledWithClose(f)
    case StringChild(s) => Paragraph(s)
    case NodeChild(n) => AsGiven(n)
  }

  // ---------------------------------------------------------------------
  // The overlay underneath
  // ---------------------------------------------------------------------

  /** The props Dialog gives its Overlay. Dialog passes no `onBeforeClose`. */
  datatype OverlayWiring = OverlayWiring(
    props: OverlayLifecycle.OverlayProps,
    beforeClose: Option<JsValue>,
    onExited: Option<nat>,
    onEntered: Option<nat>)

  function Wiring(p: DialogProps): (w: OverlayWiring)
    ensures w.props.isShown == p.isShown
    ensures w.props.shouldCloseOnClick == p.shouldCloseOnOverlayClick
    ensures w.props.shouldCloseOnEscapePress == p.shouldCloseOnEscapePress
    ensures w.props.preventBodyScrolling == p.preventBodyScrolling
    ensures w.onExited == p.onCloseComplete && w.onEntered == p.onOpenComplete
    ensures w.beforeClose == None
  {
    OverlayWiring(
      OverlayLifecycle.OverlayProps(
        p.isShown, p.shouldCloseOnOverlayClick, p.shouldCloseOnEscapePress, p.preventBodyScrolling),
      None, p.onCloseComplete, p.onOpenComplete)
  }

  /** A click effect as an overlay event: a call of `close`, or nothing when
      the handler does not call it. */
  function ClickEvent(w: OverlayWiring, e: Effect): (r: Option<OverlayLifecycle.Event>)
    ensures r.Some? <==> Closes(e)
    ensures r.Some? ==> r.value == OverlayLifecycle.CloseRequested(w.beforeClose)
  {
    if Closes(e) then Some(OverlayLifecycle.CloseRequested(w.beforeClose)) else None
  }

  /** A button whose handler calls `close`, the default or a caller's, always
      starts the overlay's exit, since Dialog installs no `onBeforeClose` that
      could veto it; a handler that does not call `close` leaves the overlay
      alone. */
  lemma ClosingButtonStartsExit(p: DialogProps, h: Handler, s: OverlayLifecycle.Snapshot)
    ensures var ev := ClickEvent(Wiring(p), Invoke(h));
      && (ev.Some? <==> h == CallsClose || h.callsClose)
      && (ev.Some? ==> OverlayLifecycle.Step(s, ev.value).exiting)
  {
  }

  /** With `shouldCloseOnOverlayClick` off, backdrop clicks never change the
      overlay, wherever they land. */
  lemma NoBackdropCloseWhenDisabled(
    p: DialogProps, s: OverlayLifecycle.Snapshot, onBackdrop: bool, b: Option<JsValue>)
    requires !p.shouldCloseOnOverlayClick && s.props == Wiring(p).props
    ensures OverlayLifecycle.Step(s, OverlayLifecycle.BackdropClick(onBackdrop, b)) == s
  {
  }
}
