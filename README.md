# Alert and Modal visibility in dash-bootstrap-components

This project models how two widgets of dash-bootstrap-components keep track
of whether they are visible. It covers the Alert banner and the Modal dialog.
The rendering itself is done by reactstrap. Each widget keeps an internal flag:
`state.alertOpen` for Alert and `state.modalOpen` for Modal. The host
application drives the flag through the `is_open` prop. When the host
supplied a `setProps` callback, the widget owns nothing: a close or toggle is
reported upstream as `{is_open: ...}`. Without `setProps` the widget changes
its own flag. Alert can also close itself after `duration` milliseconds. It
does so with `setTimeout(this.dismiss, duration)`. Mounting arms a timer only
when both `is_open` and `duration` are truthy (src/components/Alert.js:39).
A prop update that changes `is_open` to a truthy value arms one only when the
`duration` of the props being replaced is truthy (src/components/Alert.js:32).

Files:

- `js_values.dfy` (module `JsValues`): the JavaScript a props object needs.
  A `Value` datatype covers undefined, null, booleans, integer numbers,
  strings, arrays, objects, function handles and React nodes. Props are a
  `map<string, Value>`; a missing key reads as undefined. The module also
  gives truthiness, `&&`, `||`, the loose `==` that both widgets use to
  compare prop and state, React's `defaultProps` resolution and ramda's
  `omit`.
- `alert.dfy` (module `AlertWidget`): `AlertState` holds the props, the
  flag, the pending timers (their delays, in arming order) and the log of
  `setProps` payloads. Pure step functions give the constructor, `dismiss`,
  `componentWillReceiveProps`, `componentDidMount`, a timer firing and
  `render`. The class `Alert` keeps the same state in mutable fields. Each of
  its methods is proved to perform the matching step and to keep the class
  invariant. An event trace (`Run`) supports the lemmas about whole
  histories.
- `modal.dfy` (module `ModalWidget`): the same structure for Modal: the
  constructor, `toggle`, the static `getDerivedStateFromProps`, `render`, and
  a `Rerender` event. `Rerender` is the `getDerivedStateFromProps` call that
  React 16.4 and later make before a render caused by a state update.

Behaviour of the code as written:

- The `duration` prop is documented as the time "after which the Alert
  dismisses itself" (src/components/Alert.js:130). A timer is never checked
  for staleness: firing always calls `dismiss`, even when the Alert was
  closed and reopened after the timer was armed
  (`StaleTimerClosesReopenedAlert`). No timer is ever cancelled, and there is
  no unmount handling.
- On a prop update the delay comes from the props being replaced
  (`this.props.duration`, src/components/Alert.js:32-33), not from the new
  props (`DelayComesFromOldProps`, `NewDurationIgnoredOnOpening`).
- `duration` is tested for truthiness only. A negative duration arms a timer
  (`NegativeDurationArms`, `NegativeDurationArmsTimer`).
- `dismiss` and `toggle` read `this.props.setProps` each time they run
  (src/components/Alert.js:22, src/components/modal/Modal.js:21). A widget
  whose host starts or stops passing `setProps` switches between the two
  behaviours from the next call on.
- In Modal without `setProps`, a local toggle is undone by the
  `getDerivedStateFromProps` call that React 16.4 and later make before the
  next render (`UncontrolledToggleUndoneByRerender`). With React 16.3 that
  call only follows prop updates. The model keeps `Toggle` and `Rerender`
  separate so that either schedule can be composed.

## Model

| member | source | states |
|---|---|---|
| `JsValues.LooseEqOnFlags` | src/components/Alert.js:30 | on absent/null/boolean values, the `!=` test is inequality with null and undefined identified |
| `JsValues.And` | src/components/Alert.js:55 | JavaScript's `a && b` is truthy iff both are, and is `a` when `a` is falsy, else `b` |
| `JsValues.Or` | src/components/Alert.js:60-62 | JavaScript's logical or is truthy iff either operand is, and is `a` when `a` is truthy, else `b` |
| `JsValues.WithDefaults` | src/components/Alert.js:70-75 | React defaultProps: a default replaces exactly the props that are absent or undefined; other props are kept |
| `JsValues.Omit` | src/components/Alert.js:56-59 | the copy keeps every key except the omitted ones, with the same values |
| `AlertWidget.Resolve` | src/components/Alert.js:70-75 | `is_open` defaults to true and `duration` to null; given values, `setProps` and `dismissable` are kept |
| `AlertWidget.Constructed` | src/components/Alert.js:13-19 | `alertOpen` equals the `is_open` prop (true when absent); no timers, nothing reported; the invariant holds |
| `AlertWidget.Dismissed` | src/components/Alert.js:21-27 | with `setProps`: exactly one `{is_open:false}` is reported and the flag is unchanged; without: the flag becomes false and nothing is reported; it never opens |
| `AlertWidget.Received` | src/components/Alert.js:29-36 | equal `is_open`: flag and timers unchanged; different: flag takes the new value; one timer with the current props' duration is added iff changed, new value truthy and current duration truthy |
| `AlertWidget.Mounted` | src/components/Alert.js:38-42 | exactly one timer with delay `duration` is added iff `is_open` and `duration` are both truthy; otherwise none |
| `AlertWidget.Fired` | src/components/Alert.js:32-33 | a pending timer leaves the pending set (as a multiset) and the outcome is that of `dismiss` |
| `AlertWidget.ToggleAttr` | src/components/Alert.js:55 | the `toggle` attribute is the dismiss handler iff `dismissable` is truthy, and falsy otherwise |
| `AlertWidget.LoadingAttr` | src/components/Alert.js:60-62 | `data-dash-is-loading` is truthy iff `loading_state` and its `is_loading` are, is then `is_loading` itself, and is undefined otherwise |
| `AlertWidget.RenderAlert` | src/components/Alert.js:44-67 | `isOpen` is the flag and `toggle` the handler above unless a prop of that name overrides them; the destructured and omitted keys are never forwarded, every other prop is forwarded unchanged; the loading attribute is always the one above |
| `AlertWidget.InvariantHolds` | src/components/Alert.js:21-41 | after any history, every pending timer has a truthy delay and only `{is_open:false}` has been reported |
| `AlertWidget.MountedAlertStaysValid` | src/components/Alert.js:13-42 | the invariant holds for every history of a constructed, mounted Alert |
| `AlertWidget.HostUpdatesNoDrift` | src/components/Alert.js:29-36 | after host updates only, the flag loosely equals the last supplied `is_open` |
| `AlertWidget.NoDriftAfterHostUpdate` | src/components/Alert.js:29-36 | after any history that ends with a host update, the flag loosely equals the `is_open` that update supplied |
| `AlertWidget.OnlyHostOpens` | src/components/Alert.js:21-27 | without host updates, dismissals and timers leave the flag as it was or make it false |
| `AlertWidget.ControlledFlagChangesOnlyByHost` | src/components/Alert.js:21-23 | with `setProps`, dismissals and timers never change the local flag or the props; the earlier reports are kept and every new one is `{is_open:false}` |
| `AlertWidget.RepeatedUpdateIsNoop` | src/components/Alert.js:29-30 | supplying the same props twice: the second supply changes nothing and arms no timer |
| `AlertWidget.UncontrolledDismissIdempotent` | src/components/Alert.js:24-26 | without `setProps`, dismissing twice equals dismissing once |
| `AlertWidget.FalsyDurationNeverArms` | src/components/Alert.js:32-40 | a null or zero duration arms no timer at mount or on update |
| `AlertWidget.DefaultDurationIsNull` | src/components/Alert.js:70-72 | with `duration` absent or undefined it is null and mounting arms nothing |
| `AlertWidget.NewDurationIgnoredOnOpening` | src/components/Alert.js:32-33 | an update that opens the Alert and brings a duration arms nothing when the old props had none |
| `AlertWidget.DelayComesFromOldProps` | src/components/Alert.js:32-33 | an update that opens a closed Alert arms exactly the old props' duration when it is truthy and nothing otherwise, whatever duration the new props carry |
| `AlertWidget.NegativeDurationArms` | src/components/Alert.js:39-40 | mounting an open Alert whose duration is negative arms exactly one timer with that delay |
| `AlertWidget.NegativeDurationArmsTimer` | src/components/Alert.js:39-40 | a negative duration is truthy and arms a timer at mount |
| `AlertWidget.StaleTimerClosesReopenedAlert` | src/components/Alert.js:21-34 | when the host closes and then reopens an open Alert that has a timer pending, firing that earlier timer closes it again; the pending timers are then the other earlier ones followed by the one the reopening armed with the closing props' duration |
| `AlertWidget.Alert.constructor` | src/components/Alert.js:13-19 | the fields are the constructed state and the invariant holds |
| `AlertWidget.Alert.Dismiss` | src/components/Alert.js:21-27 | the new fields are `Dismissed` of the old ones; the invariant is kept |
| `AlertWidget.Alert.WillReceiveProps` | src/components/Alert.js:29-36 | the new fields are `Received` of the old ones and the raw props; the invariant is kept |
| `AlertWidget.Alert.DidMount` | src/components/Alert.js:38-42 | the new fields are `Mounted` of the old ones; the invariant is kept |
| `AlertWidget.Alert.FireTimer` | src/components/Alert.js:33 | the new fields are `Fired` of the old ones; the invariant is kept |
| `AlertWidget.Alert.Render` | src/components/Alert.js:44-67 | from the fields: `isOpen` is the flag and `toggle` the dismiss attribute unless a prop of that name overrides them; the children are the `children` prop |
| `ModalWidget.Resolve` | src/components/modal/Modal.js:57-60 | defaults never touch `is_open` (it may stay absent) nor `setProps` |
| `ModalWidget.Constructed` | src/components/modal/Modal.js:11-18 | `modalOpen` equals the raw `is_open`, undefined when absent; the state agrees with the prop |
| `ModalWidget.TogglePayload` | src/components/modal/Modal.js:22 | the payload is `{is_open: b}` with `b` boolean and of opposite truthiness to the current flag |
| `ModalWidget.Toggled` | src/components/modal/Modal.js:20-26 | with `setProps`: reports `{is_open: !modalOpen}` from the current state and keeps the flag; without: inverts the flag and reports nothing |
| `ModalWidget.DerivedState` | src/components/modal/Modal.js:28-32 | `{modalOpen: is_open}` when prop and state differ, null iff they are (loosely) equal |
| `ModalWidget.Resynced` | src/components/modal/Modal.js:28-32 | after merging the derived state, state and prop agree; an agreeing state is left unchanged |
| `ModalWidget.Received` | src/components/modal/Modal.js:28-31 | after new props, the state agrees with the new `is_open`; it changes only if it differed |
| `ModalWidget.RenderModal` | src/components/modal/Modal.js:34-54 | `isOpen` is the flag and `toggle` the toggle handler unless a prop of that name overrides them; the omitted keys and `children` are never forwarded and all other props are |
| `ModalWidget.MountDerivationIsNoop` | src/components/modal/Modal.js:15-31 | the derivation React runs before the first render changes nothing |
| `ModalWidget.ResyncIdempotent` | src/components/modal/Modal.js:28-31 | applying the derivation twice equals applying it once |
| `ModalWidget.UncontrolledToggleTwice` | src/components/modal/Modal.js:23-24 | without `setProps`, two toggles restore a boolean flag; an absent flag comes back false |
| `ModalWidget.ControlledToggleReadsCurrentState` | src/components/modal/Modal.js:21-22 | with `setProps`, two toggles without a host update report the same payload twice |
| `ModalWidget.UncontrolledToggleUndoneByRerender` | src/components/modal/Modal.js:23-31 | without `setProps`, the derivation after a local toggle puts the flag back to the prop |
| `ModalWidget.InvariantHolds` | src/components/modal/Modal.js:20-26 | every payload ever reported is `{is_open: b}` with `b` boolean |
| `ModalWidget.NoDriftAfterDerivation` | src/components/modal/Modal.js:28-32 | any history ending with a host update or a render leaves state and prop in agreement |
| `ModalWidget.NoDriftAfterLastEvent` | src/components/modal/Modal.js:28-32 | after any history, one more host update leaves the flag loosely equal to the `is_open` it supplied, and one more render leaves state and prop in agreement |
| `ModalWidget.ControlledFlagChangesOnlyByHost` | src/components/modal/Modal.js:20-32 | with `setProps` and no host update, the flag never moves and every report is the inverse of that flag |
| `ModalWidget.Modal.constructor` | src/components/modal/Modal.js:11-18 | the fields are the constructed state |
| `ModalWidget.Modal.Toggle` | src/components/modal/Modal.js:20-26 | the new fields are `Toggled` of the old ones; the invariant is kept |
| `ModalWidget.Modal.ReceiveProps` | src/components/modal/Modal.js:28-32 | the new fields are `Received` of the old ones and the raw props |
| `ModalWidget.Modal.Rerender` | src/components/modal/Modal.js:28-32 | the new fields are `Resynced` of the old ones |
| `ModalWidget.Modal.Render` | src/components/modal/Modal.js:34-54 | from the fields: `isOpen` is the flag and `toggle` the toggle handler unless a prop of that name overrides them |

## Left out

- Fade and Collapse (src/components/Fade.js, src/components/Collapse.js) are not modelled. They hold no state: they only rename props (Fade renames `base_class`, `base_class_active` and `is_in`) and drop keys on the way to reactstrap.
- The cards documentation page (components_page/cards_page.py) is not modelled. It only reads example files from disk and lays out a page.
- Persistence is not modelled. The files only declare the `persistence`, `persisted_props` and `persistence_type` props and their defaults, and strip them before rendering. Restoring and storing values happens in the Dash renderer, which is not part of this model.
- Real time is not modelled. A timer is its delay value. Any pending timer may fire next, whatever the delays.
- React's `setState` batching and asynchrony are not modelled. Each event runs to completion and its state update is applied at once.
- The host's `setProps` is a log of payloads. What the host does with them comes back only as a later host update.
- Loose equality covers undefined, null, booleans and numbers. For other values it is structural equality. String-to-number coercion and object identity are not modelled; `is_open` is declared boolean.
- Numbers are integers: NaN, fractional and infinite durations are not modelled.
- PropTypes validation at run time and reactstrap's rendering are not modelled. React's removal of `key` and `ref` from props is not modelled either.
