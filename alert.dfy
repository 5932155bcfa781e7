/**
 * The Alert widget: a banner whose visibility is `state.alertOpen`, seeded
 * from the `is_open` prop, closed either by reporting `{is_open: false}` to
 * the host (when the host supplied `setProps`) or by clearing the local flag,
 * and optionally closed automatically by timers armed with `setTimeout`.
 *
 * The lifecycle is specified by pure step functions on `AlertState`; the
 * class `Alert` carries the same state in mutable fields and each of its
 * methods is proved to perform the corresponding step.
 */
module AlertWidget {
  import opened JsValues

  /** `Alert.defaultProps`. */
  const AlertDefaults: Props := map[
    "is_open" := Bool(true),
    "duration" := Null,
    "persisted_props" := List([Str("is_open")]),
    "persistence_type" := Str("local")]

  /** `{is_open: false}`, the only payload Alert ever hands to `setProps`. */
  const ClosePayload: Props := map["is_open" := Bool(false)]

  /** Props that render takes out by destructuring. */
  const Destructured: set<string> := {"children", "dismissable", "is_open", "loading_state"}

  /** Props that render drops with `omit` before forwarding the rest. */
  const Omitted: set<string> := {"setProps", "persistence", "persisted_props", "persistence_type"}

  /** One Alert instance: its current props, `state.alertOpen`, the delays of
      the timers armed by `setTimeout(this.dismiss, ...)` that have not fired
      yet (in the order they were armed), and every payload passed to the
      host's `setProps` so far. */
  datatype AlertState = AlertState(props: Props, alertOpen: Value, timers: seq<Value>, reported: seq<Props>)

  /** What holds of every Alert between two events: defaults are in place,
      the flag is never undefined, no pending timer has a falsy delay and
      nothing but `{is_open: false}` has ever been reported. */
  predicate Invariant(s: AlertState)
  {
    Get(s.props, "is_open") != Undefined &&
    s.alertOpen != Undefined &&
    (forall t :: t in s.timers ==> Truthy(t)) &&
    (forall p :: p in s.reported ==> p == ClosePayload)
  }

  /** The props React hands the component for the element props `raw`. */
  function Resolve(raw: Props): (p: Props)
    ensures Get(raw, "is_open") == Undefined ==> Get(p, "is_open") == Bool(true)
    ensures Get(raw, "is_open") != Undefined ==> Get(p, "is_open") == Get(raw, "is_open")
    ensures Get(raw, "duration") == Undefined ==> Get(p, "duration") == Null
    ensures Get(raw, "duration") != Undefined ==> Get(p, "duration") == Get(raw, "duration")
    ensures Get(p, "setProps") == Get(raw, "setProps")
    ensures Get(p, "dismissable") == Get(raw, "dismissable")
  {
    WithDefaults(raw, AlertDefaults)
  }

  /** The constructor: `state = {alertOpen: props.is_open}`. */
  function Constructed(raw: Props): (s: AlertState)
    ensures s.props == Resolve(raw)
    ensures s.alertOpen == if Get(raw, "is_open") == Undefined then Bool(true) else Get(raw, "is_open")
    ensures s.timers == [] && s.reported == []
    ensures Invariant(s)
  {
    var props := Resolve(raw);
    AlertState(props, Get(props, "is_open"), [], [])
  }

  /** `dismiss()`: report `{is_open: false}` upstream when the host supplied
      `setProps`, otherwise clear the local flag. Neither branch opens. */
  function Dismissed(s: AlertState): (r: AlertState)
    ensures r.props == s.props && r.timers == s.timers
    ensures Controlled(s.props) ==> r.alertOpen == s.alertOpen && r.reported == s.reported + [ClosePayload]
    ensures !Controlled(s.props) ==> r.alertOpen == Bool(false) && r.reported == s.reported
    ensures Truthy(r.alertOpen) ==> r.alertOpen == s.alertOpen
    ensures forall p :: p in r.reported[|s.reported|..] ==> Get(p, "is_open") == Bool(false)
    ensures Invariant(s) ==> Invariant(r)
  {
    if Controlled(s.props) then s.(reported := s.reported + [ClosePayload])
    else s.(alertOpen := Bool(false))
  }

  /** `componentWillReceiveProps(nextProps)` followed by React replacing
      `this.props`: a changed `is_open` is copied into the state and, when
      it is truthy and the CURRENT props carry a truthy `duration`, a timer
      with that current duration is armed. */
  function Received(s: AlertState, raw: Props): (r: AlertState)
    ensures r.props == Resolve(raw) && r.reported == s.reported
    ensures LooseEq(Get(r.props, "is_open"), s.alertOpen) ==> r.alertOpen == s.alertOpen && r.timers == s.timers
    ensures !LooseEq(Get(r.props, "is_open"), s.alertOpen) ==> r.alertOpen == Get(r.props, "is_open")
    ensures LooseEq(r.alertOpen, Get(r.props, "is_open"))
    ensures |r.timers| == |s.timers| + 1 <==>
              !LooseEq(Get(r.props, "is_open"), s.alertOpen) &&
              Truthy(Get(r.props, "is_open")) && Truthy(Get(s.props, "duration"))
    ensures |r.timers| == |s.timers| + 1 ==> r.timers == s.timers + [Get(s.props, "duration")]
    ensures |r.timers| != |s.timers| + 1 ==> r.timers == s.timers
    ensures Invariant(s) ==> Invariant(r)
  {
    var next := Resolve(raw);
    var nextOpen := Get(next, "is_open");
    if !LooseEq(nextOpen, s.alertOpen) then
      var armed := if Truthy(nextOpen) && Truthy(Get(s.props, "duration")) then [Get(s.props, "duration")] else [];
      AlertState(next, nextOpen, s.timers + armed, s.reported)
    else
      s.(props := next)
  }

  /** `componentDidMount()`: arm a timer when both `is_open` and `duration`
      are truthy. */
  function Mounted(s: AlertState): (r: AlertState)
    ensures r.props == s.props && r.alertOpen == s.alertOpen && r.reported == s.reported
    ensures |r.timers| == |s.timers| + 1 <==> Truthy(Get(s.props, "is_open")) && Truthy(Get(s.props, "duration"))
    ensures |r.timers| == |s.timers| + 1 ==> r.timers == s.timers + [Get(s.props, "duration")]
    ensures |r.timers| != |s.timers| + 1 ==> r.timers == s.timers
    ensures Invariant(s) ==> Invariant(r)
  {
    if Truthy(Get(s.props, "is_open")) && Truthy(Get(s.props, "duration")) then
      s.(timers := s.timers + [Get(s.props, "duration")])
    else
      s
  }

  /** Pending timer `i` fires: it leaves the pending timers and calls
      `dismiss`, whatever has happened since it was armed. */
  function Fired(s: AlertState, i: nat): (r: AlertState)
    requires i < |s.timers|
    ensures |r.timers| == |s.timers| - 1
    ensures multiset(r.timers) + multiset{s.timers[i]} == multiset(s.timers)
    ensures r.props == s.props
    ensures r.alertOpen == Dismissed(s).alertOpen && r.reported == Dismissed(s).reported
    ensures Invariant(s) ==> Invariant(r)
  {
    assert s.timers == s.timers[..i] + [s.timers[i]] + s.timers[i + 1..];
    Dismissed(s.(timers := s.timers[..i] + s.timers[i + 1..]))
  }

  /** `dismissable && this.dismiss`: the close handler reactstrap gets. */
  function ToggleAttr(dismissable: Value): (t: Value)
    ensures t == Fn(AlertDismiss) <==> Truthy(dismissable)
    ensures !Truthy(dismissable) ==> !Truthy(t)
  {
    And(dismissable, Fn(AlertDismiss))
  }

  /** `(loading_state && loading_state.is_loading) || undefined`. */
  function LoadingAttr(loadingState: Value): (v: Value)
    ensures Truthy(v) <==> Truthy(loadingState) && Truthy(Field(loadingState, "is_loading"))
    ensures Truthy(v) ==> v == Field(loadingState, "is_loading")
    ensures !Truthy(v) ==> v == Undefined
  {
    Or(And(loadingState, Field(loadingState, "is_loading")), Undefined)
  }

  /** `render()`: the attributes handed to reactstrap's Alert. */
  function RenderAlert(props: Props, alertOpen: Value): (e: Element)
    ensures e.attrs.Keys == {"isOpen", "toggle", "data-dash-is-loading"} + (props.Keys - Destructured - Omitted)
    ensures "isOpen" !in props ==> e.attrs["isOpen"] == alertOpen
    ensures "toggle" !in props ==> e.attrs["toggle"] == ToggleAttr(Get(props, "dismissable"))
    ensures e.attrs["data-dash-is-loading"] == LoadingAttr(Get(props, "loading_state"))
    ensures forall k :: k in Destructured || k in Omitted ==> k !in e.attrs
    ensures forall k :: k in props && k !in Destructured && k !in Omitted && k != "data-dash-is-loading" ==>
              e.attrs[k] == props[k]
    ensures e.children == Get(props, "children")
  {
    var forwarded := Omit(Omitted, props - Destructured);
    assert forwarded.Keys == props.Keys - Destructured - Omitted;
    var attrs := map["isOpen" := alertOpen, "toggle" := ToggleAttr(Get(props, "dismissable"))]
                 + forwarded
                 + map["data-dash-is-loading" := LoadingAttr(Get(props, "loading_state"))];
    Element(attrs, Get(props, "children"))
  }

  /** The events that reach a mounted Alert, one at a time. */
  datatype Event = HostUpdate(raw: Props) | UserDismiss | TimerFires(i: nat)

  /** One event. A `TimerFires` naming no pending timer does nothing. */
  function Step(s: AlertState, e: Event): AlertState
  {
    match e
    case HostUpdate(raw) => Received(s, raw)
    case UserDismiss => Dismissed(s)
    case TimerFires(i) => if i < |s.timers| then Fired(s, i) else s
  }

  function Run(s: AlertState, es: seq<Event>): AlertState
    decreases |es|
  {
    if es == [] then s else Run(Step(s, es[0]), es[1..])
  }

  /** The invariant holds after any history of a constructed, mounted Alert:
      every pending timer has a truthy delay and only `{is_open: false}` is
      ever reported to the host. */
  lemma {:induction false} InvariantHolds(s: AlertState, es: seq<Event>)
    requires Invariant(s)
    ensures Invariant(Run(s, es))
    decreases |es|
  {
    if es != [] {
      InvariantHolds(Step(s, es[0]), es[1..]);
    }
  }

  lemma MountedAlertStaysValid(raw: Props, es: seq<Event>)
    ensures Invariant(Run(Mounted(Constructed(raw)), es))
  {
    InvariantHolds(Mounted(Constructed(raw)), es);
  }

  /** With only host updates, the flag ends up (loosely) equal to the most
      recently supplied `is_open`: there is no drift. */
  lemma {:induction false} HostUpdatesNoDrift(s: AlertState, es: seq<Event>)
    requires |es| > 0
    requires forall k :: 0 <= k < |es| ==> es[k].HostUpdate?
    ensures LooseEq(Run(s, es).alertOpen, Get(Resolve(es[|es| - 1].raw), "is_open"))
    decreases |es|
  {
    if |es| > 1 {
      HostUpdatesNoDrift(Step(s, es[0]), es[1..]);
    }
  }

  /** Running a history extended by one event is running the history, then
      that event. */
  lemma {:induction false} RunSnoc(s: AlertState, es: seq<Event>, e: Event)
    ensures Run(s, es + [e]) == Step(Run(s, es), e)
    decreases |es|
  {
    if es == [] {
      assert [e][1..] == [];
    } else {
      assert (es + [e])[1..] == es[1..] + [e];
      RunSnoc(Step(s, es[0]), es[1..], e);
    }
  }

  /** Whatever happened before, right after a host update the flag loosely
      equals the `is_open` that update supplied. */
  lemma NoDriftAfterHostUpdate(s: AlertState, es: seq<Event>, raw: Props)
    ensures LooseEq(Run(s, es + [HostUpdate(raw)]).alertOpen, Get(Resolve(raw), "is_open"))
  {
    RunSnoc(s, es, HostUpdate(raw));
  }

  /** Without host updates the flag can only stay as it is or become false:
      neither a user dismissal nor a timer ever opens the Alert. */
  lemma {:induction false} OnlyHostOpens(s: AlertState, es: seq<Event>)
    requires forall k :: 0 <= k < |es| ==> !es[k].HostUpdate?
    ensures Run(s, es).props == s.props
    ensures Run(s, es).alertOpen == s.alertOpen || Run(s, es).alertOpen == Bool(false)
    decreases |es|
  {
    if es != [] {
      OnlyHostOpens(Step(s, es[0]), es[1..]);
    }
  }

  /** When the host owns `is_open`, dismissals and timers never touch the
      local flag; only a host update changes it. All they do is report
      `{is_open: false}`. */
  lemma {:induction false} ControlledFlagChangesOnlyByHost(s: AlertState, es: seq<Event>)
    requires Controlled(s.props)
    requires forall k :: 0 <= k < |es| ==> !es[k].HostUpdate?
    ensures Run(s, es).alertOpen == s.alertOpen && Run(s, es).props == s.props
    ensures s.reported <= Run(s, es).reported
    ensures forall p :: p in Run(s, es).reported[|s.reported|..] ==> p == ClosePayload
    decreases |es|
  {
    if es != [] {
      var s1 := Step(s, es[0]);
      ControlledFlagChangesOnlyByHost(s1, es[1..]);
      var all := Run(s, es).reported;
      assert all[|s.reported|..] == s1.reported[|s.reported|..] + all[|s1.reported|..];
    }
  }

  /** Supplying the same props twice: the second supply is a complete no-op. */
  lemma RepeatedUpdateIsNoop(s: AlertState, raw: Props)
    ensures Received(Received(s, raw), raw) == Received(s, raw)
  {
    var r := Received(s, raw);
    LooseEqSymmetric(r.alertOpen, Get(r.props, "is_open"));
  }

  /** Without `setProps`, dismissing twice is the same as dismissing once. */
  lemma UncontrolledDismissIdempotent(s: AlertState)
    requires !Controlled(s.props)
    ensures Dismissed(Dismissed(s)) == Dismissed(s)
  {
  }

  /** A null or zero `duration` never arms a timer, at mount or on update;
      the default is null. */
  lemma FalsyDurationNeverArms(s: AlertState, raw: Props)
    requires !Truthy(Get(s.props, "duration"))
    ensures Mounted(s).timers == s.timers
    ensures Received(s, raw).timers == s.timers
  {
  }

  lemma DefaultDurationIsNull(raw: Props)
    requires Get(raw, "duration") == Undefined
    ensures Get(Constructed(raw).props, "duration") == Null
    ensures Mounted(Constructed(raw)).timers == []
  {
  }

  /** The delay armed on an update is read from the props being replaced:
      an update that opens the Alert and brings a duration arms nothing when
      the old props had none... */
  lemma NewDurationIgnoredOnOpening()
    ensures var s := Mounted(Constructed(map["is_open" := Bool(false)]));
            Received(s, map["is_open" := Bool(true), "duration" := Num(2000)]).timers == []
  {
    var raw: Props := map["is_open" := Bool(false)];
    assert Get(raw, "is_open") == Bool(false) && Get(raw, "duration") == Undefined;
    var m := Mounted(Constructed(raw));
    assert m.timers == [] && Get(m.props, "duration") == Null;
  }

  /** ... and in general an update that opens a closed Alert arms the
      duration of the props being replaced, whatever the new props carry. */
  lemma DelayComesFromOldProps(s: AlertState, raw: Props)
    requires !Truthy(s.alertOpen)
    requires Get(raw, "is_open") == Bool(true)
    ensures Received(s, raw).timers ==
              s.timers + if Truthy(Get(s.props, "duration")) then [Get(s.props, "duration")] else []
  {
    assert Get(Resolve(raw), "is_open") == Bool(true);
  }

  /** A negative duration is truthy, so mounting an open Alert with one arms
      a timer with that delay... */
  lemma NegativeDurationArms(s: AlertState)
    requires Get(s.props, "duration").Num? && Get(s.props, "duration").n < 0
    requires Truthy(Get(s.props, "is_open"))
    ensures Mounted(s).timers == s.timers + [Get(s.props, "duration")]
  {
  }

  /** ... as it does for an Alert constructed with `duration: -1` alone. */
  lemma NegativeDurationArmsTimer()
    ensures Mounted(Constructed(map["duration" := Num(-1)])).timers == [Num(-1)]
  {
    var raw: Props := map["duration" := Num(-1)];
    assert Get(raw, "duration") == Num(-1);
    assert Get(raw, "is_open") == Undefined;
    var s := Constructed(raw);
    assert Get(s.props, "duration") == Num(-1);
    assert Get(s.props, "is_open") == Bool(true);
  }

  lemma ClosingUpdate(s: AlertState, closing: Props)
    requires Truthy(s.alertOpen)
    requires Get(closing, "is_open") == Bool(false) && Truthy(Get(closing, "duration"))
    ensures var r := Received(s, closing);
            r.alertOpen == Bool(false) && r.timers == s.timers && Truthy(Get(r.props, "duration"))
  {
  }

  lemma OpeningUpdate(s: AlertState, opening: Props)
    requires s.alertOpen == Bool(false) && Truthy(Get(s.props, "duration"))
    requires Get(opening, "is_open") == Bool(true) && !Truthy(Get(opening, "setProps"))
    ensures var r := Received(s, opening);
            r.alertOpen == Bool(true) && r.timers == s.timers + [Get(s.props, "duration")] && !Controlled(r.props)
  {
    assert Get(Resolve(opening), "is_open") == Bool(true);
  }

  /** No timer is ever checked for staleness: with a timer pending from an
      earlier opening, a host that closes and then reopens the Alert (with a
      duration, so the reopening arms a timer of its own) still has it closed
      as soon as that earlier timer fires. */
  lemma StaleTimerClosesReopenedAlert(s: AlertState, closing: Props, opening: Props)
    requires Truthy(s.alertOpen) && |s.timers| > 0
    requires Get(closing, "is_open") == Bool(false) && Truthy(Get(closing, "duration"))
    requires Get(opening, "is_open") == Bool(true) && !Truthy(Get(opening, "setProps"))
    ensures var s3 := Fired(Received(Received(s, closing), opening), 0);
            s3.alertOpen == Bool(false) && s3.timers == s.timers[1..] + [Get(closing, "duration")]
  {
    ClosingUpdate(s, closing);
    OpeningUpdate(Received(s, closing), opening);
    assert Get(Resolve(closing), "duration") == Get(closing, "duration");
  }

  /** An Alert instance, with the fields React keeps for it. */
  class Alert {
    var props: Props
    var alertOpen: Value
    var timers: seq<Value>
    ghost var reported: seq<Props>

    ghost function State(): AlertState
      reads this
    {
      AlertState(props, alertOpen, timers, reported)
    }

    ghost predicate Valid()
      reads this
    {
      Invariant(State())
    }

    constructor (raw: Props)
      ensures Valid()
      ensures State() == Constructed(raw)
    {
      var p := Resolve(raw);
      props := p;
      alertOpen := Get(p, "is_open");
      timers := [];
      reported := [];
    }

    method Dismiss()
      requires Valid()
      modifies this
      ensures Valid()
      ensures State() == Dismissed(old(State()))
    {
      if Truthy(Get(props, "setProps")) {
        reported := reported + [ClosePayload];
      } else {
        alertOpen := Bool(false);
      }
    }

    method WillReceiveProps(raw: Props)
      requires Valid()
      modifies this
      ensures Valid()
      ensures State() == Received(old(State()), raw)
    {
      var next := Resolve(raw);
      var nextOpen := Get(next, "is_open");
      if !LooseEq(nextOpen, alertOpen) {
        alertOpen := nextOpen;
        if Truthy(nextOpen) && Truthy(Get(props, "duration")) {
          timers := timers + [Get(props, "duration")];
        }
      }
      props := next;
    }

    method DidMount()
      requires Valid()
      modifies this
      ensures Valid()
      ensures State() == Mounted(old(State()))
    {
      if Truthy(Get(props, "is_open")) && Truthy(Get(props, "duration")) {
        timers := timers + [Get(props, "duration")];
      }
    }

    /** The event loop runs pending timer `i`. */
    method FireTimer(i: nat)
      requires Valid()
      requires i < |timers|
      modifies this
      ensures Valid()
      ensures State() == Fired(old(State()), i)
    {
      timers := timers[..i] + timers[i + 1..];
      Dismiss();
    }

    /** `render()` on the current fields. */
    function Render(): (e: Element)
      reads this
      ensures "isOpen" in e.attrs && "toggle" in e.attrs
      ensures "isOpen" !in props ==> e.attrs["isOpen"] == alertOpen
      ensures "toggle" !in props ==> e.attrs["toggle"] == ToggleAttr(Get(props, "dismissable"))
      ensures e.children == Get(props, "children")
    {
      RenderAlert(props, alertOpen)
    }
  }
}
