# Overlay lifecycle and component rules of a React component library, in Dafny

This project models the behaviour of a small set of interface components of
the evergreen component library and proves properties of that model.

- **Overlay** (`overlay.dfy`, module `OverlayLifecycle`): the open/close state
  machine. Its state is two flags, `exiting` and `exited`, plus the `isShown`
  prop. It also tracks whether the Esc listener is attached to the body, the
  body-scroll lock it last requested, whether the container ref is set, and
  the element that had focus when the overlay opened. The transition phases
  (enter, entering, entered, exit, exiting, exited), prop changes, body key
  presses, backdrop clicks, container refs and unmounting are external events.
  The pure function `Step` says what each event does to a `Snapshot`. The
  class `Overlay` does the same updates on its fields. Each event method is
  proved to leave the state `Step` gives for that event, or the state of the
  function `Step` uses for it (`CloseStep` for `OnEsc`, `BodyScroll` for
  `HandleBodyScroll`). `RenderView` reads the render gate off the fields,
  which is the same as `Render` of the snapshot. The lifecycle properties are lemmas about
  `Step` and about `Run`, which applies a sequence of events. The two focus
  rules read their DOM facts from inputs: whether the container exists, the
  active element, whether it is the body, whether it lies inside the
  container, and the first `[autofocus]`, `[tabindex]` and `button` elements.
- **Dialog** (`dialog.dfy`): integer offsets get a `px` unit. The offsets build
  the `calc(100% - <offset> * 2)` maximum sizes, which can be parsed back to
  the offset. The file also covers which header and footer buttons appear,
  what each one calls, `renderChildren`, and the props Dialog gives its
  Overlay. A caller's handler is given `close`, and whether it calls it is an
  input. Those props are connected to the Overlay model by lemmas.
- **Spinner** (`spinner.dfy`, module `SpinnerDelay`): the `isVisible` flag,
  the delay timer, and the props of the outer box, where the caller's props
  override the size. It is a class plus a pure step function over mount, timer
  expiry and unmount events.
- **Text input appearance** (`text_input_appearance.dfy`): the three appearance
  records and the selection of one by name.
- **Heading** (`heading.dfy`): `marginTop` resolution and style precedence.
- **OrderedList** (`ordered_list.dfy`): the list's size passed down to
  children that have none, and the base styles.
- **Themer missing-state warning** (`missing_state_warning.dfy`): a loop that
  reports the state names an appearance object lacks, plus the log message
  format.
- `js_values.dfy` (module `JsValues`) holds the JavaScript values, `Option` and
  truthiness that the other modules share.

## Model

| member | source | states |
|---|---|---|
| `OverlayLifecycle.WithDefaults` | src/overlay/src/Overlay.tsx:153-157 | `shouldCloseOnClick` and `shouldCloseOnEscapePress` hold unless given as false; `preventBodyScrolling` and an omitted `isShown` read as false |
| `OverlayLifecycle.Initial` | src/overlay/src/Overlay.tsx:170-177 | a fresh overlay has `exiting = false` and `exited = !isShown`, with no listener, no lock, no container and no remembered element |
| `OverlayLifecycle.CloseStep` | src/overlay/src/Overlay.tsx:267-272 | afterwards `exiting` holds iff it held before or `onBeforeClose` allowed the close; `exited` and everything else are unchanged |
| `OverlayLifecycle.BodyScroll` | src/overlay/src/Overlay.tsx:274-278 | the lock request is recorded only when `preventBodyScrolling` holds; otherwise the state is unchanged |
| `OverlayLifecycle.AllowsClose` | src/overlay/src/Overlay.tsx:268-269 | a close goes ahead unless `onBeforeClose` exists and returns exactly `false` |
| `OverlayLifecycle.EscCloses` | src/overlay/src/Overlay.tsx:262 | the Esc guard holds only for key code 27, never with Esc closing disabled, and always for 27 with it enabled |
| `OverlayLifecycle.BackdropCloses` | src/overlay/src/Overlay.tsx:313-315 | the backdrop guard holds only when the target is the backdrop, never with click closing disabled, and always for the backdrop with it enabled |
| `OverlayLifecycle.Step` | src/overlay/src/Overlay.tsx:179-322 | each piece of state has its own events: only props changes replace the props, only the container ref sets `hasContainer`, only `handleEntered` remembers the active element; `exiting` is set only by an allowed close and cleared only by `handleExited`, which is also the only event that sets `exited` |
| `OverlayLifecycle.Run` | src/overlay/src/Overlay.tsx:179-322 | over any event sequence, the props, `hasContainer` and the remembered element change only through their own events |
| `OverlayLifecycle.Render` | src/overlay/src/Overlay.tsx:333-345 | nothing is rendered iff `exited`; otherwise the transition's `in` is `isShown && !exiting` |
| `OverlayLifecycle.FocusInside` | src/overlay/src/Overlay.tsx:197-235 | no focus move unless the container and active element exist, the overlay is shown and focus is outside; then the autofocus element wins, then the tabindex element, then the button |
| `OverlayLifecycle.FocusBack` | src/overlay/src/Overlay.tsx:237-258 | refocuses exactly when the container and active element exist, an element was remembered, and the active element is the body or inside the container; the target is the remembered element |
| `OverlayLifecycle.Overlay.constructor` | src/overlay/src/Overlay.tsx:170-177 | the fields equal `Initial(props)` |
| `OverlayLifecycle.Overlay.UpdateProps` | src/overlay/src/Overlay.tsx:179-186 | the new props are stored; `exited` is cleared only on a false-to-true edge of `isShown`; `exiting` is untouched |
| `OverlayLifecycle.Overlay.Close` | src/overlay/src/Overlay.tsx:267-272 | `exiting` becomes true unless `onBeforeClose` returned `false`; `exited` is unchanged |
| `OverlayLifecycle.Overlay.OnEsc` | src/overlay/src/Overlay.tsx:260-265 | closes only for key code 27 with `shouldCloseOnEscapePress`; otherwise nothing changes |
| `OverlayLifecycle.Overlay.BodyKeyDown` | src/overlay/src/Overlay.tsx:286 | a body keydown reaches `onEsc` only while the listener is attached; the new state is `Step`'s |
| `OverlayLifecycle.Overlay.HandleBackdropClick` | src/overlay/src/Overlay.tsx:312-318 | closes only when the click target is the backdrop itself and `shouldCloseOnClick` holds |
| `OverlayLifecycle.Overlay.OnContainerRef` | src/overlay/src/Overlay.tsx:320-322 | records whether the container ref is set |
| `OverlayLifecycle.Overlay.HandleBodyScroll` | src/overlay/src/Overlay.tsx:274-278 | the new state is `BodyScroll` of the old one |
| `OverlayLifecycle.Overlay.HandleEnter` | src/overlay/src/Overlay.tsx:280-283 | requests the scroll lock (only when `preventBodyScrolling` holds) |
| `OverlayLifecycle.Overlay.HandleEntering` | src/overlay/src/Overlay.tsx:285-288 | attaches the Esc listener |
| `OverlayLifecycle.Overlay.HandleEntered` | src/overlay/src/Overlay.tsx:290-294 | remembers the active element and returns the element `FocusInside` chooses |
| `OverlayLifecycle.Overlay.HandleExit` | src/overlay/src/Overlay.tsx:296-299 | releases the scroll lock (only when `preventBodyScrolling` holds) |
| `OverlayLifecycle.Overlay.HandleExiting` | src/overlay/src/Overlay.tsx:301-305 | detaches the Esc listener and returns the element `FocusBack` chooses |
| `OverlayLifecycle.Overlay.HandleExited` | src/overlay/src/Overlay.tsx:307-310 | ends in `exiting = false, exited = true` |
| `OverlayLifecycle.Overlay.ComponentWillUnmount` | src/overlay/src/Overlay.tsx:188-191 | releases the scroll lock (when `preventBodyScrolling` holds) and detaches the Esc listener |
| `OverlayLifecycle.Overlay.RenderView` | src/overlay/src/Overlay.tsx:333-335 | the component's render gate agrees with `Render` of its state |
| `OverlayLifecycle.InitialRender` | src/overlay/src/Overlay.tsx:173-176 | a fresh overlay renders iff shown, and then with `in` set |
| `OverlayLifecycle.OnlyFalseVetoes` | src/overlay/src/Overlay.tsx:268-269 | only the value `false` vetoes; an absent hook, `undefined`, `null` and `0` all allow the close |
| `OverlayLifecycle.CloseIdempotent` | src/overlay/src/Overlay.tsx:267-272 | closing twice equals closing once |
| `OverlayLifecycle.ExitedSettles` | src/overlay/src/Overlay.tsx:307-310 | after `handleExited` the overlay is exited, not exiting and unrendered, from any state |
| `OverlayLifecycle.ExitedClearedOnlyOnRisingEdge` | src/overlay/src/Overlay.tsx:179-186 | if an event clears `exited`, it is a props change from not shown to shown |
| `OverlayLifecycle.PropsChangeKeepsExiting` | src/overlay/src/Overlay.tsx:179-186 | a props change never changes `exiting` |
| `OverlayLifecycle.StaysExitedWhileShown` | src/overlay/src/Overlay.tsx:335 | an exited overlay whose `isShown` is never set false stays exited and unrendered through any events |
| `OverlayLifecycle.HideThenShowReopens` | src/overlay/src/Overlay.tsx:180-184 | setting `isShown` false and then true clears `exited`, from any state; the transition's `in` is then `!exiting` |
| `OverlayLifecycle.EscCloseRule` | src/overlay/src/Overlay.tsx:260-265 | a body keydown closes iff the listener is attached, the key code is 27, Esc closing is enabled and the hook allows; nothing else changes |
| `OverlayLifecycle.BackdropCloseRule` | src/overlay/src/Overlay.tsx:312-318 | a backdrop click closes iff the target is the backdrop, click closing is enabled and the hook allows; nothing else changes |
| `OverlayLifecycle.ListenerEdges` | src/overlay/src/Overlay.tsx:285-305 | only entering attaches the Esc listener; exiting and unmounting detach it |
| `OverlayLifecycle.NoListenerWithoutEntering` | src/overlay/src/Overlay.tsx:286 | with no entering phase, a detached listener stays detached through any events |
| `OverlayLifecycle.ScrollLockEdges` | src/overlay/src/Overlay.tsx:274-299 | the lock changes only under `preventBodyScrolling`, only on enter (set) or exit or unmount (released) |
| `OverlayLifecycle.ScrollLockUntouchedWithoutPrevention` | src/overlay/src/Overlay.tsx:274-278 | while `preventBodyScrolling` stays off, no event sequence changes the lock |
| `OverlayLifecycle.ClosingPhases` | src/overlay/src/Overlay.tsx:296-310 | exit, exiting and exited in turn leave the overlay exited, not exiting, without listener, and with the lock released under `preventBodyScrolling` |
| `OverlayLifecycle.LockKeptWhenPreventionDropped` | src/overlay/src/Overlay.tsx:274-278 | if `preventBodyScrolling` is turned off while the lock is held, the lock stays held through the whole closing transition, since `handleExit` reads the current flag |
| `OverlayLifecycle.ClosingCycleEnds` | src/overlay/src/Overlay.tsx:296-310 | after any history, the closing phases end in an exited, unrendered, unlistened overlay |
| `Dialog.NatText` | src/dialog/src/Dialog.tsx:245 | the digits of a natural number, with no leading zero except for 0 itself, and a single digit exactly below 10 |
| `Dialog.IntText` | src/dialog/src/Dialog.tsx:245 | an integer's text has a minus sign exactly when it is negative, then digits with no leading zero; 0 prints as `0`, and one digit exactly for magnitudes below 10 |
| `Dialog.WithUnit` | src/dialog/src/Dialog.tsx:243-246 | an integer number `n` becomes the text of `n` followed by `px`, which parses back as `n`; strings and non-integer numbers are returned unchanged |
| `Dialog.WithUnitIdempotent` | src/dialog/src/Dialog.tsx:249-252 | normalising twice equals normalising once |
| `Dialog.ParsePxText` | src/dialog/src/Dialog.tsx:245 | `<n>px`, with `n` printed in decimal, reads back as `n` for every integer |
| `Dialog.CalcDoubledText` | src/dialog/src/Dialog.tsx:247 | `calc(100% - ${v} * 2)` over a text is plain text, and its operand reads back as that text |
| `Dialog.DialogLayout` | src/dialog/src/Dialog.tsx:243-279 | the margins are the normalised offsets and the maximum sizes are the `calc` templates over those same values; width and minimum height pass through |
| `Dialog.IntegerOffsetLayout` | src/dialog/src/Dialog.tsx:243-247 | an integer side offset `n` gives margin `<n>px` and a plain-text `maxWidth` whose operand is `<n>px`, which reads back as `n` |
| `Dialog.TextOffsetLayout` | src/dialog/src/Dialog.tsx:249-253 | a string top offset is the margin and the `maxHeight` operand verbatim |
| `Dialog.FractionalOffsetLayout` | src/dialog/src/Dialog.tsx:243-247 | a non-integer number stays a number in the margin and in the `maxWidth` template |
| `Dialog.DefaultLayout` | src/dialog/src/Dialog.tsx:186-189 | with the defaults, `maxWidth` is `calc(100% - 16px * 2)`, `maxHeight` is `calc(100% - 12vmin * 2)`, width 560, minimum height 80 |
| `Dialog.Invoke` | src/dialog/src/Dialog.tsx:46-53 | the default handler calls `close`; a caller's handler runs, and the click reaches `close` exactly when the handler is the default or calls `close` |
| `Dialog.DialogChrome` | src/dialog/src/Dialog.tsx:286-340 | header iff `hasHeader`; close button iff `hasHeader && hasClose`; cancel button iff `hasFooter && hasCancel`; confirm button iff `hasFooter`; close and cancel call `onCancel(close)`, confirm calls `onConfirm(close)` and carries label, loading, disabled and intent |
| `Dialog.DefaultHandlersClose` | src/dialog/src/Dialog.tsx:196-197 | with the default handlers, every button shown closes the overlay |
| `Dialog.RenderChildren` | src/dialog/src/Dialog.tsx:201-213 | function children are called with `close`, strings are wrapped in a Paragraph, anything else is returned unchanged |
| `Dialog.Wiring` | src/dialog/src/Dialog.tsx:256-267 | Overlay gets `isShown`, `shouldCloseOnClick = shouldCloseOnOverlayClick`, the Esc and scroll flags, `onExited = onCloseComplete`, `onEntered = onOpenComplete`, and no `onBeforeClose` |
| `Dialog.ClickEvent` | src/dialog/src/Dialog.tsx:301-335 | a click becomes a `close` request to the overlay, with Dialog's `onBeforeClose`, exactly when its effect reaches `close` |
| `Dialog.ClosingButtonStartsExit` | src/dialog/src/Dialog.tsx:256-335 | a button whose handler calls `close`, the default or a caller's, always sets the overlay's `exiting`, since Dialog installs no veto; any other handler sends the overlay nothing |
| `Dialog.NoBackdropCloseWhenDisabled` | src/dialog/src/Dialog.tsx:258 | with `shouldCloseOnOverlayClick` off, a backdrop click never changes the overlay |
| `SpinnerDelay.WithDefaults` | src/spinner/src/Spinner.tsx:63-66 | an omitted size is 40 and an omitted delay is 0; given values are kept |
| `SpinnerDelay.Initial` | src/spinner/src/Spinner.tsx:70-78 | initially visible iff the delay is 0, with no timer pending |
| `SpinnerDelay.Step` | src/spinner/src/Spinner.tsx:101-115 | a mount schedules the timer iff the delay is positive; the timer's expiry shows the spinner iff the timer was pending; unmounting clears the timer; visibility changes only on expiry |
| `SpinnerDelay.Render` | src/spinner/src/Spinner.tsx:80-87 | renders iff visible; the box gets width and height equal to the size and line height 0 unless the caller passes those props, every other caller prop except `theme` and `children` as given, and the delay; a caller `children` is replaced by the svg child |
| `SpinnerDelay.Spinner.constructor` | src/spinner/src/Spinner.tsx:70-78 | the fields equal `Initial(delay)` |
| `SpinnerDelay.Spinner.ComponentDidMount` | src/spinner/src/Spinner.tsx:101-111 | schedules the timer iff the delay is positive; visibility is unchanged |
| `SpinnerDelay.Spinner.OnDelayElapsed` | src/spinner/src/Spinner.tsx:105-109 | a pending timer's expiry makes the spinner visible |
| `SpinnerDelay.Spinner.ComponentWillUnmount` | src/spinner/src/Spinner.tsx:113-115 | clears the pending timer; visibility is unchanged |
| `SpinnerDelay.Spinner.RenderBox` | src/spinner/src/Spinner.tsx:80-87 | the component's render, computed from its fields, agrees with `Render` of its props and state |
| `SpinnerDelay.StepKeepsVisible` | src/spinner/src/Spinner.tsx:105-109 | visibility never turns off, and turns on only when a pending timer fires |
| `SpinnerDelay.VisibleStaysVisible` | src/spinner/src/Spinner.tsx:105-109 | a visible spinner stays visible through any events |
| `SpinnerDelay.TimerOnlyForPositiveDelay` | src/spinner/src/Spinner.tsx:104 | a timer becomes pending only by a mount with a positive delay |
| `SpinnerDelay.InvisibleWithoutTimer` | src/spinner/src/Spinner.tsx:101-111 | an invisible spinner with no timer stays invisible while no positive-delay mount happens |
| `SpinnerDelay.NegativeDelayNeverVisible` | src/spinner/src/Spinner.tsx:101-111 | with a negative delay nothing is ever rendered, whatever events follow and whatever other props are given |
| `SpinnerDelay.UnmountCancelsTimer` | src/spinner/src/Spinner.tsx:113-115 | after unmounting, an invisible spinner stays invisible unless mounted again |
| `SpinnerDelay.PositiveDelayAppears` | src/spinner/src/Spinner.tsx:101-111 | with a positive delay the spinner starts hidden and is visible after mount and timer expiry |
| `SpinnerDelay.DefaultSpinnerVisible` | src/spinner/src/Spinner.tsx:63-87 | with default props and no others the spinner is visible immediately in a 40 by 40 box with line height 0 |
| `TextInputAppearance.GetTextInputAppearance` | src/theme/src/default-theme/component-specific/getTextInputClassName.ts:75-84 | `neutral` and `none` select their appearances and every other string the default one; every result has focus outline `none`, placeholder colour N6A and disabled background N2 |
| `TextInputAppearance.SelectionIsExact` | src/theme/src/default-theme/component-specific/getTextInputClassName.ts:76-82 | each appearance is selected by exactly its names (both directions) |
| `TextInputAppearance.NoneHasNoInvalidStyle` | src/theme/src/default-theme/component-specific/getTextInputClassName.ts:58 | the `none` appearance's invalid state is empty |
| `Heading.Size` | src/typography/src/Heading.tsx:14-16 | an omitted or undefined size is 500; any other is kept |
| `Heading.ResolvedMarginTop` | src/typography/src/Heading.tsx:25-28 | `'default'` resolves to the theme style's `marginTop` (undefined when absent); any other value, including an absent one, is used as given |
| `Heading.HeadingBox` | src/typography/src/Heading.tsx:18-38 | the box has `is`, `marginTop` and `marginBottom`, the style's keys except `marginTop`, and the caller's props except `theme`, `marginTop` and `size`; its `marginTop` is always the resolved value or 0 |
| `Heading.MarginTopRule` | src/typography/src/Heading.tsx:25-33 | `'default'` takes the theme style's `marginTop`, other truthy values pass through unchanged, and a falsy result becomes 0 |
| `Heading.ThemeMarginTopNotSpread` | src/typography/src/Heading.tsx:20-35 | unless `'default'` is asked for, the theme's `marginTop` does not affect the box |
| `Heading.Precedence` | src/typography/src/Heading.tsx:31-37 | caller props win over the heading style, which wins over `is: 'h2'` and `marginBottom: 0` |
| `Heading.DefaultSizeAsked` | src/typography/src/Heading.tsx:14-16 | without a size prop the theme is asked for size 500 |
| `OrderedList.SizeChild` | src/typography/src/OrderedList.tsx:36-45 | non-elements are unchanged; an element keeps its kind and other props, keeps a truthy own size and otherwise gets the list's size |
| `OrderedList.SizeChildren` | src/typography/src/OrderedList.tsx:34-46 | same length, and the i-th result is the i-th child mapped |
| `OrderedList.Render` | src/typography/src/OrderedList.tsx:31-53 | the default size is 400; the box holds the base styles and the caller's props minus `children` and `size`, caller props winning |
| `OrderedList.SizeChildrenAppend` | src/typography/src/OrderedList.tsx:34-46 | the mapping distributes over concatenation, so children are handled in order and not reordered |
| `OrderedList.SizeChildIdempotent` | src/typography/src/OrderedList.tsx:43 | mapping an already mapped child again, with any list size, changes nothing |
| `MissingStateWarning.Missing` | src/themer/src/missingStateWarning.ts:15-19 | never more reports than required names, and every reported name is absent from `items` |
| `MissingStateWarning.MissingStateWarning` | src/themer/src/missingStateWarning.ts:5-20 | outside development nothing is reported; in development the reports are exactly `Missing(items, props)` |
| `MissingStateWarning.MissingMembers` | src/themer/src/missingStateWarning.ts:15-19 | a name is reported iff it is required and not an own key of `items` |
| `MissingStateWarning.MissingCounts` | src/themer/src/missingStateWarning.ts:15-19 | a missing name is reported once per occurrence in `props`; present names never |
| `MissingStateWarning.MissingAppend` | src/themer/src/missingStateWarning.ts:15 | the reports follow the order of `props` |
| `MissingStateWarning.AllPresentNothingReported` | src/themer/src/missingStateWarning.ts:16 | when every required name is present, nothing is reported |
| `MissingStateWarning.LogMissingState` | src/themer/src/missingStateWarning.ts:22-26 | the message is `Themer.<call>() is missing a <prop> item`, with the call and the prop at fixed positions, and the object is passed along |
| `MissingStateWarning.LogMessageRoundTrip` | src/themer/src/missingStateWarning.ts:25 | the prop name can be read back from the message |

## Left out

- Transition timing: the transition component's phases are events in any order, and the model does not enforce the order in which it calls them.
- Animation frames: the focus rules run in a later animation frame. The model takes the DOM facts of that frame as inputs. It does not model frame scheduling or cancellation.
- OverlayLifecycle.Overlay.HandleEntered and OverlayLifecycle.Overlay.HandleExiting: apply the focus rules to `hasContainer`, `isShown` and the remembered element as they are when the callback runs. The source reads them inside the later frame, so a change in between is not seen. For example, the source moves no focus if `isShown` turns false before the frame.
- DOM queries (`contains`, `querySelector`, `focus`, `document.activeElement`) become inputs. A chosen focus target is returned, not applied.
- Dialog.ClickEvent: `callsClose` says whether a caller's handler calls `close` during the click. A handler that keeps `close` and calls it later is not modelled; calling it more than once is the same as calling it once (`CloseIdempotent`).
- The user callbacks `onEnter`, `onEntering`, `onEntered`, `onExit`, `onExiting`, `onExited` have no modelled effect. The side effects of `onBeforeClose` are not modelled either; only its return value is an input.
- The scroll-lock helper is not part of this model. `scrollLocked` records the lock this overlay last requested from it.
- `Portal`, `Stack`, z-index, `containerProps`, the theme, the render-prop `state` argument and all style objects, keyframes and easing strings are presentational and are not modelled.
- Numbers are exact reals. IEEE doubles, `-0` and `Infinity` are not modelled; `NaN` exists only as a `JsValue`.
- Dialog.WithUnit: prints every integer in plain decimal. JavaScript switches to exponent notation for magnitudes of 10^21 and more.
- Dialog.DialogLayout: keeps a non-integer number as a `NumberText` piece of the template, because JavaScript's number-to-string conversion is not modelled.
- Dialog defaults are the `Defaults` record, and a caller's prop replaces a default field. The merging of `defaultProps` for Dialog is not a separate function. `title`, `containerProps` and `contentContainerProps` are not modelled.
- SpinnerDelay.Render: the svg children of the box and their styles are not modelled, only the outer box's props. The `children` key is left out of the box, since the svg child replaces a caller `children`.
- Events after unmounting are not excluded: `Step` still applies them, while React ignores `setState` on an unmounted component. Every lifecycle lemma holds for all event sequences, so it holds for the real ones too.
- Spinner: React mounts an instance once, so one pending timer is tracked. A second mount, which would orphan the first timer, is not modelled. An undefined or `NaN` delay is not modelled.
- `Themer.createInputAppearance` is not part of this model and is treated as returning the five states unchanged. `memoizeClassName`, which turns the appearance into the exported class name, is not part of this model either.
- `theme.getHeadingStyle` and `withTheme` are not part of this model; the heading style function is a parameter.
- OrderedList.Render: restricts the list's size to 300, 400, 500 and 600, as the TypeScript type does. The source only warns about other sizes at run time, through PropTypes.
- `React.Children.map` internals are not modelled: dropping `null` and boolean children and re-keying. `React.isValidElement` is the distinction between the `Element` and `NonElement` constructors.
- `isDev` is a parameter and `hasOwnProperty` is key membership. `console.error` is the `ErrorLine` value.
- src/ssr/src/autoHydrate.ts, src/index.ts, src/layers/src/Card.tsx and src/theme/src/default-theme/component-specific/getTableCellClassName.ts are not part of this model. They are document I/O, re-exports and thin wrappers.
