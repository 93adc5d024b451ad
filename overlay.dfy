/**
 * The open/close lifecycle of Overlay.
 *
 * Overlay keeps two state flags, `exiting` and `exited`, next to its
 * `isShown` prop. A transition component drives it through the phases
 * enter, entering, entered (opening) and exit, exiting, exited (closing); in
 * this model each phase callback, each props change, each key press on the
 * document body and each backdrop click is an external event. The component
 * also attaches an Esc listener to the body, asks a helper to lock body
 * scrolling, remembers the element that had focus when it opened, and moves
 * focus in and back out with two decision rules whose DOM facts are inputs.
 *
 * `Step` states what each event does to a `Snapshot` of the component; the
 * class `Overlay` performs the same updates on fields. Each event method is
 * proved to leave the state `Step` gives for its event, or the state of the
 * function `Step` uses for it (`CloseStep` for `OnEsc`, `BodyScroll` for
 * `HandleBodyScroll`); `RenderView` is proved equal to `Render`. The
 * lifecycle properties are lemmas about `Step` and `Run` (a sequence of
 * events).
 */
module OverlayLifecycle {
  import opened JsValues

  /** An element of the document, by identity. */
  type ElementId = nat

  /** The key code of the Escape key. */
  const EscKeyCode: int := 27

  /** The behavioural props of Overlay, after defaults are applied. */
  datatype OverlayProps = OverlayProps(
    isShown: bool,
    shouldCloseOnClick: bool,
    shouldCloseOnEscapePress: bool,
    preventBodyScrolling: bool)

  /** The same props as a caller writes them: `None` is an omitted prop. */
  datatype OverlayInput = OverlayInput(
    isShown: Option<bool>,
    shouldCloseOnClick: Option<bool>,
    shouldCloseOnEscapePress: Option<bool>,
    preventBodyScrolling: Option<bool>)

  /** Applies Overlay's default props. `isShown` has no default and an
      omitted `isShown` reads as not shown. */
  function WithDefaults(i: OverlayInput): (p: OverlayProps)
    ensures p.isShown <==> i.isShown == Some(true)
    ensures p.shouldCloseOnClick <==> i.shouldCloseOnClick != Some(false)
    ensures p.shouldCloseOnEscapePress <==> i.shouldCloseOnEscapePress != Some(false)
    ensures p.preventBodyScrolling <==> i.preventBodyScrolling == Some(true)
  {
    OverlayProps(
      OrDefault(i.isShown, false),
      OrDefault(i.shouldCloseOnClick, true),
      OrDefault(i.shouldCloseOnEscapePress, true),
      OrDefault(i.preventBodyScrolling, false))
  }

  /** Everything about one Overlay that its events read or change. */
  datatype Snapshot = Snapshot(
    props: OverlayProps,
    exiting: bool,
    exited: bool,
    // the Esc keydown listener is attached to the document body
    escListening: bool,
    // the last body-scroll lock this overlay asked the scroll helper for
    scrollLocked: bool,
    // the container ref is set
    hasContainer: bool,
    // the element that had focus when the overlay finished entering
    previousActive: Option<ElementId>)

  /** The external events. `beforeClose` is what `onBeforeClose` returns,
      or `None` when the prop is absent. */
  datatype Event =
    | PropsUpdated(next: OverlayProps)
    | CloseRequested(beforeClose: Option<JsValue>)
    | KeyDown(keyCode: int, beforeClose: Option<JsValue>)
    | BackdropClick(targetIsCurrentTarget: bool, beforeClose: Option<JsValue>)
    | ContainerRef(present: bool)
    | Enter
    | Entering
    | Entered(active: Option<ElementId>)
    | Exit
    | Exiting
    | Exited
    | Unmount

  /** The state right after construction. */
  function Initial(props: OverlayProps): (s: Snapshot)
    ensures s.props == props
    ensures !s.exiting && s.exited == !props.isShown
    ensures !s.escListening && !s.scrollLocked && !s.hasContainer
    ensures s.previousActive == None
  {
    Snapshot(props, false, !props.isShown, false, false, false, None)
  }

  /** `close` goes ahead unless `onBeforeClose` is present and returns the
      value `false` itself (the comparison is strict). */
  predicate AllowsClose(beforeClose: Option<JsValue>)
    ensures AllowsClose(beforeClose) <==> beforeClose != Some(Bool(false))
  {
    match beforeClose
    case None => true
    case Some(v) => v != Bool(false)
  }

  /** `close`: sets `exiting` when allowed; nothing else changes. */
  function CloseStep(s: Snapshot, beforeClose: Option<JsValue>): (r: Snapshot)
    ensures r.exiting <==> s.exiting || AllowsClose(beforeClose)
    ensures r.exited == s.exited
    ensures r == s.(exiting := r.exiting)
  {
    if AllowsClose(beforeClose) then s.(exiting := true) else s
  }

  /** The guard of `onEsc`. */
  predicate EscCloses(keyCode: int, props: OverlayProps)
    ensures EscCloses(keyCode, props) ==> keyCode == 27
    ensures !props.shouldCloseOnEscapePress ==> !EscCloses(keyCode, props)
    ensures keyCode == 27 && props.shouldCloseOnEscapePress ==> EscCloses(keyCode, props)
  {
    keyCode == EscKeyCode && props.shouldCloseOnEscapePress
  }

  /** The guard of `handleBackdropClick`. */
  predicate BackdropCloses(targetIsCurrentTarget: bool, props: OverlayProps)
    ensures BackdropCloses(targetIsCurrentTarget, props) ==> targetIsCurrentTarget
    ensures !props.shouldCloseOnClick ==> !BackdropCloses(targetIsCurrentTarget, props)
    ensures targetIsCurrentTarget && props.shouldCloseOnClick ==> BackdropCloses(targetIsCurrentTarget, props)
  {
    targetIsCurrentTarget && props.shouldCloseOnClick
  }

  /** `handleBodyScroll`: forwards the request only when `preventBodyScrolling` holds. */
  function BodyScroll(s: Snapshot, lock: bool): (r: Snapshot)
    ensures s.props.preventBodyScrolling ==> r.scrollLocked == lock
    ensures r == s.(scrollLocked := r.scrollLocked)
    ensures !s.props.preventBodyScrolling ==> r == s
  {
    if s.props.preventBodyScrolling then s.(scrollLocked := lock) else s
  }

  /** What one event does. Each piece of state has its own events: only a
      props change replaces the props, only the container ref sets
      `hasContainer`, only `handleEntered` remembers the active element, and
      `exiting` moves only through `close` (set) or `handleExited` (cleared). */
  function Step(s: Snapshot, e: Event): (r: Snapshot)
    ensures r.props == if e.PropsUpdated? then e.next else s.props
    ensures r.hasContainer == if e.ContainerRef? then e.present else s.hasContainer
    ensures r.previousActive == if e.Entered? then e.active else s.previousActive
    ensures r.exiting && !s.exiting ==>
      (e.CloseRequested? || e.KeyDown? || e.BackdropClick?) && AllowsClose(e.beforeClose)
    ensures !r.exiting && s.exiting ==> e == Exited
    ensures r.exited && !s.exited ==> e == Exited
  {
    match e
    case PropsUpdated(next) =>
      // componentDidUpdate: only a false-to-true edge of isShown clears exited
      if !s.props.isShown && next.isShown then s.(props := next, exited := false)
      else s.(props := next)
    case CloseRequested(b) => CloseStep(s, b)
    case KeyDown(k, b) =>
      // the keydown reaches onEsc only while the listener is attached
      if s.escListening && EscCloses(k, s.props) then CloseStep(s, b) else s
    case BackdropClick(t, b) => if BackdropCloses(t, s.props) then CloseStep(s, b) else s
    case ContainerRef(present) => s.(hasContainer := present)
    case Enter => BodyScroll(s, true)
    case Entering => s.(escListening := true)
    case Entered(active) => s.(previousActive := active)
    case Exit => BodyScroll(s, false)
    case Exiting => s.(escListening := false)
    case Exited => s.(exiting := false, exited := true)
    case Unmount => BodyScroll(s, false).(escListening := false)
  }

  /** The state after a sequence of events, applied in order. Without a
      props change the props stay as they are, and without a container ref
      event so does `hasContainer`. */
  function Run(s: Snapshot, es: seq<Event>): (r: Snapshot)
    ensures (forall i :: 0 <= i < |es| ==> !es[i].PropsUpdated?) ==> r.props == s.props
    ensures (forall i :: 0 <= i < |es| ==> !es[i].ContainerRef?) ==> r.hasContainer == s.hasContainer
    ensures (forall i :: 0 <= i < |es| ==> !es[i].Entered?) ==> r.previousActive == s.previousActive
    decreases |es|
  {
    if es == [] then s
    else
      assert forall i :: 0 <= i < |es[1..]| ==> es[1..][i] == es[i + 1];
      Run(Step(s, es[0]), es[1..])
  }

  /** What `render` produces: nothing, or the transition with its `in` flag. */
  datatype View = Nothing | TransitionIn(inFlag: bool)

  function Render(s: Snapshot): (v: View)
    ensures v == Nothing <==> s.exited
    ensures v.TransitionIn? ==> (v.inFlag <==> s.props.isShown && !s.exiting)
  {
    if s.exited then Nothing else TransitionIn(s.props.isShown && !s.exiting)
  }

  // ---------------------------------------------------------------------
  // Focus rules
  // ---------------------------------------------------------------------

  /** The first element inside the container matching each selector:
      `[autofocus]`, `[tabindex]` and `button`. */
  datatype FocusCandidates = FocusCandidates(
    autofocus: Option<ElementId>,
    tabindex: Option<ElementId>,
    button: Option<ElementId>)

  /** The DOM facts a focus rule reads in the animation frame where it runs. */
  datatype FocusView = FocusView(
    active: Option<ElementId>,  // document.activeElement
    activeIsBody: bool,         // the active element is document.body
    focusInside: bool,          // the container contains the active element
    candidates: FocusCandidates)

  /** `bringFocusInsideOverlay`: the element to focus, if any. */
  function FocusInside(hasContainer: bool, isShown: bool, v: FocusView): (r: Option<ElementId>)
    ensures r.Some? ==> hasContainer && v.active.Some? && isShown && !v.focusInside
    ensures hasContainer && v.active.Some? && isShown && !v.focusInside ==>
      && (v.candidates.autofocus.Some? ==> r == v.candidates.autofocus)
      && (v.candidates.autofocus.None? && v.candidates.tabindex.Some? ==> r == v.candidates.tabindex)
      && (v.candidates.autofocus.None? && v.candidates.tabindex.None? ==> r == v.candidates.button)
  {
    if !hasContainer || v.active.None? || !isShown then None
    else if v.focusInside then None
    else if v.candidates.autofocus.Some? then v.candidates.autofocus
    else if v.candidates.tabindex.Some? then v.candidates.tabindex
    else v.candidates.button
  }

  /** `bringFocusBackToTarget`: the element to refocus, if any. */
  function FocusBack(hasContainer: bool, previous: Option<ElementId>, v: FocusView): (r: Option<ElementId>)
    ensures r.Some? <==>
      hasContainer && v.active.Some? && previous.Some? && (v.activeIsBody || v.focusInside)
    ensures r.Some? ==> r == previous
  {
    if !hasContainer || v.active.None? then None
    else if previous.Some? && (v.activeIsBody || v.focusInside) then previous
    else None
  }

  // ---------------------------------------------------------------------
  // The component
  // ---------------------------------------------------------------------

  class Overlay {
    var props: OverlayProps
    var exiting: bool
    var exited: bool
    var escListening: bool
    var scrollLocked: bool
    var hasContainer: bool
    var previousActive: Option<ElementId>

    function State(): Snapshot
      reads this
    {
      Snapshot(props, exiting, exited, escListening, scrollLocked, hasContainer, previousActive)
    }

    constructor (props: OverlayProps)
      ensures State() == Initial(props)
    {
      this.props := props;
      exiting := false;
      exited := !props.isShown;
      escListening := false;
      scrollLocked := false;
      hasContainer := false;
      previousActive := None;
    }

    /** A props change followed by `componentDidUpdate`. */
    method UpdateProps(next: OverlayProps)
      modifies this
      ensures State() == Step(old(State()), PropsUpdated(next))
      ensures exiting == old(exiting)
      ensures exited == (old(exited) && !(!old(props.isShown) && next.isShown))
    {
      var prevShown := props.isShown;
      props := next;
      if !prevShown && props.isShown {
        exited := false;
      }
    }

    method Close(beforeClose: Option<JsValue>)
      modifies this
      ensures State() == Step(old(State()), CloseRequested(beforeClose))
      ensures exiting == (old(exiting) || AllowsClose(beforeClose))
      ensures exited == old(exited)
    {
      if AllowsClose(beforeClose) {
        exiting := true;
      }
    }

    /** The Esc handler itself. */
    method OnEsc(keyCode: int, beforeClose: Option<JsValue>)
      modifies this
      ensures State() ==
        if EscCloses(keyCode, old(props)) then CloseStep(old(State()), beforeClose) else old(State())
    {
      if keyCode == EscKeyCode && props.shouldCloseOnEscapePress {
        Close(beforeClose);
      }
    }

    /** A keydown on the document body, delivered to `onEsc` while it is attached. */
    method BodyKeyDown(keyCode: int, beforeClose: Option<JsValue>)
      modifies this
      ensures State() == Step(old(State()), KeyDown(keyCode, beforeClose))
    {
      if escListening {
        OnEsc(keyCode, beforeClose);
      }
    }

    method HandleBackdropClick(targetIsCurrentTarget: bool, beforeClose: Option<JsValue>)
      modifies this
      ensures State() == Step(old(State()), BackdropClick(targetIsCurrentTarget, beforeClose))
    {
      if !targetIsCurrentTarget || !props.shouldCloseOnClick {
        return;
      }
      Close(beforeClose);
    }

    method OnContainerRef(present: bool)
      modifies this
      ensures State() == Step(old(State()), ContainerRef(present))
    {
      hasContainer := present;
    }

    method HandleBodyScroll(lock: bool)
      modifies this
      ensures State() == BodyScroll(old(State()), lock)
    {
      if props.preventBodyScrolling {
        scrollLocked := lock;
      }
    }

    method HandleEnter()
      modifies this
      ensures State() == Step(old(State()), Enter)
    {
      HandleBodyScroll(true);
    }

    method HandleEntering()
      modifies this
      ensures State() == Step(old(State()), Entering)
      ensures escListening
    {
      escListening := true;
    }

    /** Records the active element, then decides (in the next frame, whose
        DOM facts are `frame`) which element to focus. */
    method HandleEntered(active: Option<ElementId>, frame: FocusView) returns (focus: Option<ElementId>)
      modifies this
      ensures State() == Step(old(State()), Entered(active))
      ensures focus == FocusInside(hasContainer, props.isShown, frame)
    {
      previousActive := active;
      focus := FocusInside(hasContainer, props.isShown, frame);
    }

    method HandleExit()
      modifies this
      ensures State() == Step(old(State()), Exit)
    {
      HandleBodyScroll(false);
    }

    /** Detaches the Esc listener, then decides (in the next frame) whether
        to hand focus back to the element recorded on entry. */
    method HandleExiting(frame: FocusView) returns (refocus: Option<ElementId>)
      modifies this
      ensures State() == Step(old(State()), Exiting)
      ensures !escListening
      ensures refocus == FocusBack(hasContainer, previousActive, frame)
    {
      escListening := false;
      refocus := FocusBack(hasContainer, previousActive, frame);
    }

    method HandleExited()
      modifies this
      ensures State() == Step(old(State()), Exited)
      ensures !exiting && exited
    {
      exiting, exited := false, true;
    }

    method ComponentWillUnmount()
      modifies this
      ensures State() == Step(old(State()), Unmount)
      ensures !escListening
    {
      HandleBodyScroll(false);
      escListening := false;
    }

    function RenderView(): (v: View)
      reads this
      ensures v == Render(State())
    {
      if exited then Nothing else TransitionIn(props.isShown && !exiting)
    }
  }

  // ---------------------------------------------------------------------
  // Lifecycle properties
  // ---------------------------------------------------------------------

  /** A fresh overlay renders exactly when it is shown, and then with `in` set. */
  lemma InitialRender(p: OverlayProps)
    ensures Render(Initial(p)) == if p.isShown then TransitionIn(true) else Nothing
  {
  }

  /** Only the returned value `false` vetoes a close; other falsy results do not. */
  lemma OnlyFalseVetoes(v: JsValue)
    ensures !AllowsClose(Some(v)) <==> v == Bool(false)
    ensures AllowsClose(None)
    ensures AllowsClose(Some(Undefined)) && AllowsClose(Some(Null)) && AllowsClose(Some(Num(0.0)))
  {
  }

  /** Closing twice is closing once. */
  lemma CloseIdempotent(s: Snapshot, b: Option<JsValue>)
    ensures CloseStep(CloseStep(s, b), b) == CloseStep(s, b)
  {
  }

  /** `handleExited` ends every closing in one state, whatever came before. */
  lemma ExitedSettles(s: Snapshot)
    ensures !Step(s, Exited).exiting && Step(s, Exited).exited
    ensures Render(Step(s, Exited)) == Nothing
  {
  }

  /** `exited` is cleared only by a false-to-true edge of `isShown`, and a
      props change never touches `exiting`. */
  lemma ExitedClearedOnlyOnRisingEdge(s: Snapshot, e: Event)
    requires s.exited && !Step(s, e).exited
    ensures e.PropsUpdated? && !s.props.isShown && e.next.isShown
  {
  }

  lemma PropsChangeKeepsExiting(s: Snapshot, next: OverlayProps)
    ensures Step(s, PropsUpdated(next)).exiting == s.exiting
  {
  }

  /** A props change that hides the overlay. */
  predicate Hides(e: Event) {
    e.PropsUpdated? && !e.next.isShown
  }

  /** An exited overlay whose `isShown` stays true stays unrendered, whatever
      else happens. */
  lemma {:induction false} StaysExitedWhileShown(s: Snapshot, es: seq<Event>)
    requires s.exited && s.props.isShown
    requires forall i :: 0 <= i < |es| ==> !Hides(es[i])
    ensures Run(s, es).exited && Run(s, es).props.isShown
    ensures Render(Run(s, es)) == Nothing
    decreases |es|
  {
    if es != [] {
      var t := Step(s, es[0]);
      assert !Hides(es[0]);
      assert t.exited && t.props.isShown;
      forall i | 0 <= i < |es[1..]| ensures !Hides(es[1..][i]) {
        assert es[1..][i] == es[i + 1];
      }
      StaysExitedWhileShown(t, es[1..]);
    }
  }

  /** Hiding and then showing again clears `exited`, from any state. */
  lemma HideThenShowReopens(s: Snapshot, hidden: OverlayProps, shown: OverlayProps)
    requires !hidden.isShown && shown.isShown
    ensures !Run(s, [PropsUpdated(hidden), PropsUpdated(shown)]).exited
    ensures Render(Run(s, [PropsUpdated(hidden), PropsUpdated(shown)])) ==
      TransitionIn(!s.exiting)
  {
    var t := Step(s, PropsUpdated(hidden));
    assert Run(s, [PropsUpdated(hidden), PropsUpdated(shown)]) == Run(t, [PropsUpdated(shown)]);
    assert Run(t, [PropsUpdated(shown)]) == Step(t, PropsUpdated(shown));
  }

  /** A body keydown closes exactly when the listener is attached, the key
      is Esc, Esc closing is enabled and `onBeforeClose` allows it. */
  lemma EscCloseRule(s: Snapshot, keyCode: int, b: Option<JsValue>)
    ensures Step(s, KeyDown(keyCode, b)).exiting <==>
      s.exiting ||
      (s.escListening && keyCode == 27 && s.props.shouldCloseOnEscapePress && AllowsClose(b))
    ensures Step(s, KeyDown(keyCode, b)) == s.(exiting := Step(s, KeyDown(keyCode, b)).exiting)
  {
  }

  /** A backdrop click closes exactly when it hit the backdrop itself,
      click closing is enabled and `onBeforeClose` allows it. */
  lemma BackdropCloseRule(s: Snapshot, t: bool, b: Option<JsValue>)
    ensures Step(s, BackdropClick(t, b)).exiting <==>
      s.exiting || (t && s.props.shouldCloseOnClick && AllowsClose(b))
    ensures Step(s, BackdropClick(t, b)) == s.(exiting := Step(s, BackdropClick(t, b)).exiting)
  {
  }

  /** Only `handleEntering` attaches the Esc listener; `handleExiting` and
      unmounting detach it. */
  lemma ListenerEdges(s: Snapshot, e: Event)
    ensures Step(s, e).escListening && !s.escListening ==> e == Entering
    ensures e == Entering ==> Step(s, e).escListening
    ensures e == Exiting || e == Unmount ==> !Step(s, e).escListening
  {
  }

  lemma {:induction false} NoListenerWithoutEntering(s: Snapshot, es: seq<Event>)
    requires !s.escListening
    requires forall i :: 0 <= i < |es| ==> es[i] != Entering
    ensures !Run(s, es).escListening
    decreases |es|
  {
    if es != [] {
      ListenerEdges(s, es[0]);
      forall i | 0 <= i < |es[1..]| ensures es[1..][i] != Entering {
        assert es[1..][i] == es[i + 1];
      }
      NoListenerWithoutEntering(Step(s, es[0]), es[1..]);
    }
  }

  /** The scroll lock changes only when `preventBodyScrolling` holds: it is
      set by `handleEnter` and released by `handleExit` and unmounting. */
  lemma ScrollLockEdges(s: Snapshot, e: Event)
    ensures Step(s, e).scrollLocked != s.scrollLocked ==>
      s.props.preventBodyScrolling && (e == Enter || e == Exit || e == Unmount)
    ensures s.props.preventBodyScrolling && e == Enter ==> Step(s, e).scrollLocked
    ensures e == Exit || e == Unmount ==>
      Step(s, e).scrollLocked == (s.scrollLocked && !s.props.preventBodyScrolling)
  {
  }

  /** A props change that turns `preventBodyScrolling` on. */
  predicate EnablesScrollPrevention(e: Event) {
    e.PropsUpdated? && e.next.preventBodyScrolling
  }

  lemma {:induction false} ScrollLockUntouchedWithoutPrevention(s: Snapshot, es: seq<Event>)
    requires !s.props.preventBodyScrolling
    requires forall i :: 0 <= i < |es| ==> !EnablesScrollPrevention(es[i])
    ensures Run(s, es).scrollLocked == s.scrollLocked
    ensures !Run(s, es).props.preventBodyScrolling
    decreases |es|
  {
    if es != [] {
      ScrollLockEdges(s, es[0]);
      assert !EnablesScrollPrevention(es[0]);
      forall i | 0 <= i < |es[1..]| ensures !EnablesScrollPrevention(es[1..][i]) {
        assert es[1..][i] == es[i + 1];
      }
      ScrollLockUntouchedWithoutPrevention(Step(s, es[0]), es[1..]);
    }
  }

  /** Running two sequences one after the other is running their concatenation. */
  lemma {:induction false} RunAppend(s: Snapshot, a: seq<Event>, b: seq<Event>)
    ensures Run(s, a + b) == Run(Run(s, a), b)
    decreases |a|
  {
    if a == [] {
      assert a + b == b;
    } else {
      assert (a + b)[0] == a[0];
      assert (a + b)[1..] == a[1..] + b;
      RunAppend(Step(s, a[0]), a[1..], b);
    }
  }

  /** The closing phases, from any state. */
  lemma ClosingPhases(m: Snapshot)
    ensures var r := Run(m, [Exit, Exiting, Exited]);
      && r.exited && !r.exiting && !r.escListening
      && (m.props.preventBodyScrolling ==> !r.scrollLocked)
  {
    var m1 := Step(m, Exit);
    var m2 := Step(m1, Exiting);
    var m3 := Step(m2, Exited);
    assert m3.exited && !m3.exiting && !m3.escListening;
    assert m.props.preventBodyScrolling ==> !m3.scrollLocked;
    assert [Exit, Exiting, Exited][1..] == [Exiting, Exited];
    assert [Exiting, Exited][1..] == [Exited];
    assert Run(m2, [Exited]) == m3;
    assert Run(m1, [Exiting, Exited]) == m3;
  }

  /** Turning `preventBodyScrolling` off while the lock is held leaves the
      lock held through a whole closing transition: `handleExit` consults the
      current flag, not the one the lock was taken under. */
  lemma LockKeptWhenPreventionDropped(s: Snapshot, next: OverlayProps)
    requires s.scrollLocked && !next.preventBodyScrolling
    ensures Run(s, [PropsUpdated(next), Exit, Exiting, Exited]).scrollLocked
    ensures Run(s, [PropsUpdated(next), Exit, Exiting, Exited]).exited
  {
    var m := Step(s, PropsUpdated(next));
    assert [PropsUpdated(next), Exit, Exiting, Exited][1..] == [Exit, Exiting, Exited];
    ClosingPhases(m);
    assert Step(m, Exit) == m;
    assert Step(m, Exit).scrollLocked;
    var m2 := Step(Step(m, Exit), Exiting);
    assert m2.scrollLocked;
    assert [Exit, Exiting, Exited][1..] == [Exiting, Exited];
    assert [Exiting, Exited][1..] == [Exited];
    assert Run(m2, [Exited]) == Step(m2, Exited);
  }

  /** Whatever happened before, a closing transition that ends in
      `handleExited` leaves the overlay exited and unrendered, with the Esc
      listener detached and any scroll lock released. */
  lemma ClosingCycleEnds(s: Snapshot, before: seq<Event>)
    ensures var r := Run(s, before + [Exit, Exiting, Exited]);
      && r.exited && !r.exiting && !r.escListening
      && (Run(s, before).props.preventBodyScrolling ==> !r.scrollLocked)
      && Render(r) == Nothing
  {
    RunAppend(s, before, [Exit, Exiting, Exited]);
    ClosingPhases(Run(s, before));
  }
}
