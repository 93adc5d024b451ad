/**
 * Spinner: a visibility flag that a delay turns on.
 *
 * A spinner with delay 0 is visible from the start. On mount, a positive
 * delay schedules a timer whose callback makes the spinner visible; any other
 * delay schedules nothing. Unmounting clears the pending timer. Nothing is
 * rendered while the spinner is invisible. The timer's expiry is an external
 * event; the host delivers it only while the timer is pending.
 */
module SpinnerDelay {
  import opened JsValues

  const DefaultSize: real := 40.0
  const DefaultDelay: real := 0.0

  /** The props of Spinner, after defaults are applied. */
  datatype SpinnerProps = SpinnerProps(size: real, delay: real)

  /** Applies the default size 40 and delay 0 to omitted props. */
  function WithDefaults(size: Option<real>, delay: Option<real>): (p: SpinnerProps)
    ensures size.None? ==> p.size == 40.0
    ensures size.Some? ==> p.size == size.value
    ensures delay.None? ==> p.delay == 0.0
    ensures delay.Some? ==> p.delay == delay.value
  {
    SpinnerProps(OrDefault(size, DefaultSize), OrDefault(delay, DefaultDelay))
  }

  datatype SpinnerState = SpinnerState(isVisible: bool, timerPending: bool)

  datatype SpinnerEvent = DidMount | TimerFires | WillUnmount

  /** The state the constructor sets up. */
  function Initial(delay: real): (s: SpinnerState)
    ensures s.isVisible <==> delay == 0.0
    ensures !s.timerPending
  {
    SpinnerState(delay == 0.0, false)
  }

  /** What one event does: mounting schedules the timer for a positive
      delay, the timer's expiry shows a spinner whose timer is pending, and
      unmounting clears the timer. */
  function Step(delay: real, s: SpinnerState, e: SpinnerEvent): (r: SpinnerState)
    ensures e == DidMount ==>
      r.isVisible == s.isVisible && r.timerPending == (s.timerPending || delay > 0.0)
    ensures e == TimerFires ==> r.isVisible == (s.isVisible || s.timerPending) && !r.timerPending
    ensures e == WillUnmount ==> r.isVisible == s.isVisible && !r.timerPending
  {
    match e
    case DidMount => if delay > 0.0 then s.(timerPending := true) else s
    case TimerFires => if s.timerPending then SpinnerState(true, false) else s
    case WillUnmount => s.(timerPending := false)
  }

  function Run(delay: real, s: SpinnerState, es: seq<SpinnerEvent>): SpinnerState
    decreases |es|
  {
    if es == [] then s else Run(delay, Step(delay, s, es[0]), es[1..])
  }

  /** The props the outer box gets from `width={size} height={size}
      lineHeight={0} {...props}`. `rest` holds the caller's props other than
      `size` and `delay`; `render` takes `theme` out, while `delay` (after
      defaults) is spread with the rest. Props spread last win, except
      `children`: the JSX child (the svg) replaces any caller `children`. */
  function Render(p: SpinnerProps, s: SpinnerState, rest: map<string, JsValue>): (r: Option<map<string, JsValue>>)
    ensures r.Some? <==> s.isVisible
    ensures r.Some? ==>
      r.value.Keys == {"width", "height", "lineHeight", "delay"} + (rest.Keys - {"theme", "size", "children"})
    ensures r.Some? ==>
      forall k :: k in rest && k != "theme" && k != "size" && k != "delay" && k != "children" ==> r.value[k] == rest[k]
    ensures r.Some? && "width" !in rest ==> r.value["width"] == Num(p.size)
    ensures r.Some? && "height" !in rest ==> r.value["height"] == Num(p.size)
    ensures r.Some? && "lineHeight" !in rest ==> r.value["lineHeight"] == Num(0.0)
    ensures r.Some? ==> r.value["delay"] == Num(p.delay)
  {
    if !s.isVisible then None
    else
      Some(map["width" := Num(p.size), "height" := Num(p.size), "lineHeight" := Num(0.0)]
           + (rest - {"theme", "size", "delay", "children"})
           + map["delay" := Num(p.delay)])
  }

  class Spinner {
    const size: real
    const delay: real
    var isVisible: bool
    var timerPending: bool

    function State(): SpinnerState
      reads this
    {
      SpinnerState(isVisible, timerPending)
    }

    constructor (p: SpinnerProps)
      ensures size == p.size && delay == p.delay
      ensures State() == Initial(p.delay)
    {
      size := p.size;
      delay := p.delay;
      isVisible := p.delay == 0.0;
      timerPending := false;
    }

    method ComponentDidMount()
      modifies this
      ensures State() == Step(delay, old(State()), DidMount)
      ensures timerPending == (old(timerPending) || delay > 0.0)
      ensures isVisible == old(isVisible)
    {
      if delay > 0.0 {
        timerPending := true;
      }
    }

    /** The delay timer's callback. */
    method OnDelayElapsed()
      modifies this
      ensures State() == Step(delay, old(State()), TimerFires)
      ensures old(timerPending) ==> isVisible
    {
      if timerPending {
        isVisible := true;
        timerPending := false;
      }
    }

    method ComponentWillUnmount()
      modifies this
      ensures State() == Step(delay, old(State()), WillUnmount)
      ensures !timerPending && isVisible == old(isVisible)
    {
      timerPending := false;
    }

    function RenderBox(rest: map<string, JsValue>): (r: Option<map<string, JsValue>>)
      reads this
      ensures r == Render(SpinnerProps(size, delay), State(), rest)
    {
      if !isVisible then None
      else
        Some(map["width" := Num(size), "height" := Num(size), "lineHeight" := Num(0.0)]
             + (rest - {"theme", "size", "delay", "children"})
             + map["delay" := Num(delay)])
    }
  }

  /** Visibility only ever turns on. */
  lemma StepKeepsVisible(delay: real, s: SpinnerState, e: SpinnerEvent)
    ensures s.isVisible ==> Step(delay, s, e).isVisible
    ensures Step(delay, s, e).isVisible && !s.isVisible ==> e == TimerFires && s.timerPending
  {
  }

  lemma {:induction false} VisibleStaysVisible(delay: real, s: SpinnerState, es: seq<SpinnerEvent>)
    requires s.isVisible
    ensures Run(delay, s, es).isVisible
    decreases |es|
  {
    if es != [] {
      StepKeepsVisible(delay, s, es[0]);
      VisibleStaysVisible(delay, Step(delay, s, es[0]), es[1..]);
    }
  }

  /** A timer is scheduled only for a positive delay. */
  lemma TimerOnlyForPositiveDelay(delay: real, s: SpinnerState, e: SpinnerEvent)
    ensures Step(delay, s, e).timerPending && !s.timerPending ==> e == DidMount && delay > 0.0
  {
  }

  /** A spinner that is invisible with no timer pending stays invisible
      until a mount with a positive delay. */
  lemma {:induction false} InvisibleWithoutTimer(delay: real, s: SpinnerState, es: seq<SpinnerEvent>)
    requires !s.isVisible && !s.timerPending
    requires delay <= 0.0 || forall i :: 0 <= i < |es| ==> es[i] != DidMount
    ensures !Run(delay, s, es).isVisible && !Run(delay, s, es).timerPending
    decreases |es|
  {
    if es != [] {
      TimerOnlyForPositiveDelay(delay, s, es[0]);
      StepKeepsVisible(delay, s, es[0]);
      if delay > 0.0 {
        assert es[0] != DidMount;
        forall i | 0 <= i < |es[1..]| ensures es[1..][i] != DidMount {
          assert es[1..][i] == es[i + 1];
        }
      }
      InvisibleWithoutTimer(delay, Step(delay, s, es[0]), es[1..]);
    }
  }

  /** A negative delay leaves the spinner invisible forever. */
  lemma NegativeDelayNeverVisible(p: SpinnerProps, es: seq<SpinnerEvent>)
    requires p.delay < 0.0
    ensures forall rest :: Render(p, Run(p.delay, Initial(p.delay), es), rest) == None
  {
    InvisibleWithoutTimer(p.delay, Initial(p.delay), es);
  }

  /** After unmounting, nothing but a new mount can make the spinner visible. */
  lemma UnmountCancelsTimer(delay: real, s: SpinnerState, es: seq<SpinnerEvent>)
    requires !s.isVisible
    requires forall i :: 0 <= i < |es| ==> es[i] != DidMount
    ensures !Run(delay, s, [WillUnmount] + es).isVisible
  {
    assert ([WillUnmount] + es)[1..] == es;
    InvisibleWithoutTimer(delay, Step(delay, s, WillUnmount), es);
  }

  /** With a positive delay the spinner starts hidden and appears once the
      timer scheduled on mount fires. */
  lemma PositiveDelayAppears(delay: real)
    requires delay > 0.0
    ensures !Initial(delay).isVisible
    ensures Run(delay, Initial(delay), [DidMount, TimerFires]).isVisible
  {
    var s1 := Step(delay, Initial(delay), DidMount);
    assert [DidMount, TimerFires][1..] == [TimerFires];
    assert Run(delay, s1, [TimerFires]) == Step(delay, s1, TimerFires);
  }

  /** With the default props and no other props the spinner is visible
      immediately, in a 40 by 40 box. */
  lemma DefaultSpinnerVisible()
    ensures var r := Render(WithDefaults(None, None), Initial(WithDefaults(None, None).delay), map[]);
      && r.Some?
      && r.value["width"] == Num(40.0) && r.value["height"] == Num(40.0)
      && r.value["lineHeight"] == Num(0.0)
  {
  }
}
