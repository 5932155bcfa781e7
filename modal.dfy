/**
 * The Modal widget: a dialog whose visibility is `state.modalOpen`, seeded
 * from the `is_open` prop (which has no default), inverted by `toggle()`
 * either through the host's `setProps` or locally, and resynchronised to
 * the prop by the static `getDerivedStateFromProps` whenever the two differ.
 *
 * React 16.4 and later call `getDerivedStateFromProps` before every render,
 * including the render a local state update causes; that call is the
 * `Rerender` event here, so a schedule without it (React 16.3) can be
 * described as well.
 */
module ModalWidget {
  import opened JsValues

  /** `Modal.defaultProps`: nothing for `is_open`. */
  const ModalDefaults: Props := map[
    "persisted_props" := List([Str("is_open")]),
    "persistence_type" := Str("local")]

  /** Props that render drops with `omit` before forwarding the rest
      (`children` is taken out by destructuring). */
  const Omitted: set<string> := {"setProps", "is_open", "persistence", "persistence_type", "persisted_props"}

  /** One Modal instance: its current props, `state.modalOpen` and every
      payload passed to the host's `setProps` so far. */
  datatype ModalState = ModalState(props: Props, modalOpen: Value, reported: seq<Props>)

  /** The state agrees with the prop in the sense of the `!=` test that
      `getDerivedStateFromProps` makes. */
  predicate Synced(s: ModalState)
  {
    LooseEq(s.modalOpen, Get(s.props, "is_open"))
  }

  /** `{is_open: b}` for a boolean `b`: the shape of every payload Modal
      hands to `setProps`. */
  predicate IsFlagPayload(p: Props)
  {
    p.Keys == {"is_open"} && p["is_open"].Bool?
  }

  predicate Invariant(s: ModalState)
  {
    forall p :: p in s.reported ==> IsFlagPayload(p)
  }

  /** The props React hands the component for the element props `raw`. */
  function Resolve(raw: Props): (p: Props)
    ensures Get(p, "is_open") == Get(raw, "is_open")
    ensures Get(p, "setProps") == Get(raw, "setProps")
  {
    WithDefaults(raw, ModalDefaults)
  }

  /** The constructor: `state = {modalOpen: props.is_open}`, which is
      undefined when the prop is absent. */
  function Constructed(raw: Props): (s: ModalState)
    ensures s.props == Resolve(raw)
    ensures s.modalOpen == Get(raw, "is_open")
    ensures s.reported == []
    ensures Synced(s) && Invariant(s)
  {
    var props := Resolve(raw);
    ModalState(props, Get(props, "is_open"), [])
  }

  /** `{is_open: !this.state.modalOpen}`, computed from the state at the
      time of the call. */
  function TogglePayload(modalOpen: Value): (p: Props)
    ensures IsFlagPayload(p)
    ensures Truthy(Get(p, "is_open")) != Truthy(modalOpen)
  {
    map["is_open" := Bool(!Truthy(modalOpen))]
  }

  /** `toggle()`: report the inverted flag upstream when the host supplied
      `setProps`, otherwise invert the local flag. */
  function Toggled(s: ModalState): (r: ModalState)
    ensures r.props == s.props
    ensures Controlled(s.props) ==> r.modalOpen == s.modalOpen && r.reported == s.reported + [TogglePayload(s.modalOpen)]
    ensures !Controlled(s.props) ==> r.reported == s.reported && r.modalOpen.Bool?
    ensures !Controlled(s.props) ==> Truthy(r.modalOpen) != Truthy(s.modalOpen)
    ensures Invariant(s) ==> Invariant(r)
  {
    if Controlled(s.props) then s.(reported := s.reported + [TogglePayload(s.modalOpen)])
    else s.(modalOpen := Bool(!Truthy(s.modalOpen)))
  }

  /** `getDerivedStateFromProps(nextProps, prevState)`: the partial state
      `{modalOpen: nextProps.is_open}` when the prop differs from the state,
      `null` (None) when they are equal. */
  function DerivedState(nextProps: Props, prevModalOpen: Value): (r: Option<Value>)
    ensures r.None? <==> LooseEq(Get(nextProps, "is_open"), prevModalOpen)
    ensures r.Some? ==> r.value == Get(nextProps, "is_open")
  {
    if !LooseEq(Get(nextProps, "is_open"), prevModalOpen) then Some(Get(nextProps, "is_open"))
    else None
  }

  /** React merging the derived partial state into the state. */
  function Resynced(s: ModalState): (r: ModalState)
    ensures r.props == s.props && r.reported == s.reported
    ensures Synced(r)
    ensures Synced(s) ==> r == s
    ensures !Synced(s) ==> r.modalOpen == Get(s.props, "is_open")
  {
    match DerivedState(s.props, s.modalOpen)
    case None => s
    case Some(v) => s.(modalOpen := v)
  }

  /** New props from the host: React replaces `this.props` and merges what
      `getDerivedStateFromProps` returns. */
  function Received(s: ModalState, raw: Props): (r: ModalState)
    ensures r.props == Resolve(raw) && r.reported == s.reported
    ensures Synced(r)
    ensures LooseEq(Get(raw, "is_open"), s.modalOpen) ==> r.modalOpen == s.modalOpen
    ensures !LooseEq(Get(raw, "is_open"), s.modalOpen) ==> r.modalOpen == Get(raw, "is_open")
  {
    Resynced(s.(props := Resolve(raw)))
  }

  /** `render()`: the attributes handed to reactstrap's Modal. */
  function RenderModal(props: Props, modalOpen: Value): (e: Element)
    ensures e.attrs.Keys == {"isOpen", "toggle"} + (props.Keys - Omitted - {"children"})
    ensures "isOpen" !in props ==> e.attrs["isOpen"] == modalOpen
    ensures "toggle" !in props ==> e.attrs["toggle"] == Fn(ModalToggle)
    ensures forall k :: k in Omitted || k == "children" ==> k !in e.attrs
    ensures forall k :: k in props && k !in Omitted && k != "children" ==> e.attrs[k] == props[k]
    ensures e.children == Get(props, "children")
  {
    var otherProps := props - {"children"};
    var attrs := map["isOpen" := modalOpen, "toggle" := Fn(ModalToggle)] + Omit(Omitted, otherProps);
    Element(attrs, Get(props, "children"))
  }

  /** Deriving state right after construction, as React does before the
      first render, changes nothing. */
  lemma MountDerivationIsNoop(raw: Props)
    ensures Resynced(Constructed(raw)) == Constructed(raw)
  {
  }

  /** Applying the derived state a second time changes nothing. */
  lemma ResyncIdempotent(s: ModalState)
    ensures Resynced(Resynced(s)) == Resynced(s)
  {
  }

  /** Without `setProps`, two toggles restore the flag's truthiness, and the
      flag itself when it was a boolean. An absent `is_open` comes back as
      `false`, not as undefined. */
  lemma UncontrolledToggleTwice(s: ModalState)
    requires !Controlled(s.props)
    ensures Truthy(Toggled(Toggled(s)).modalOpen) == Truthy(s.modalOpen)
    ensures s.modalOpen.Bool? ==> Toggled(Toggled(s)) == s
    ensures s.modalOpen == Undefined ==> Toggled(Toggled(s)).modalOpen == Bool(false)
  {
  }

  /** With `setProps`, the payload is computed from the state at call time:
      two toggles with no host update in between report the same value twice. */
  lemma ControlledToggleReadsCurrentState(s: ModalState)
    requires Controlled(s.props)
    ensures Toggled(Toggled(s)).reported == s.reported + [TogglePayload(s.modalOpen), TogglePayload(s.modalOpen)]
  {
  }

  /** Under React 16.4 and later, the render that follows a local toggle
      derives the state from the unchanged prop again: the toggle is undone. */
  lemma UncontrolledToggleUndoneByRerender(s: ModalState)
    requires !Controlled(s.props) && Synced(s)
    requires IsFlag(Get(s.props, "is_open"))
    ensures Resynced(Toggled(s)).modalOpen == Get(s.props, "is_open")
  {
  }

  /** The events that reach a mounted Modal, one at a time. */
  datatype Event = HostUpdate(raw: Props) | UserToggle | Rerender

  function Step(s: ModalState, e: Event): ModalState
  {
    match e
    case HostUpdate(raw) => Received(s, raw)
    case UserToggle => Toggled(s)
    case Rerender => Resynced(s)
  }

  function Run(s: ModalState, es: seq<Event>): ModalState
    decreases |es|
  {
    if es == [] then s else Run(Step(s, es[0]), es[1..])
  }

  /** Every payload ever reported is `{is_open: b}` for a boolean `b`. */
  lemma {:induction false} InvariantHolds(s: ModalState, es: seq<Event>)
    requires Invariant(s)
    ensures Invariant(Run(s, es))
    decreases |es|
  {
    if es != [] {
      InvariantHolds(Step(s, es[0]), es[1..]);
    }
  }

  /** Whatever happened before, a history that ends with a host update or a
      render leaves the state in agreement with the prop. */
  lemma {:induction false} NoDriftAfterDerivation(s: ModalState, es: seq<Event>)
    requires |es| > 0 && !es[|es| - 1].UserToggle?
    ensures Synced(Run(s, es))
    decreases |es|
  {
    if |es| > 1 {
      NoDriftAfterDerivation(Step(s, es[0]), es[1..]);
    }
  }

  /** Running a history extended by one event is running the history, then
      that event. */
  lemma {:induction false} RunSnoc(s: ModalState, es: seq<Event>, e: Event)
    ensures Run(s, es + [e]) == Step(Run(s, es), e)
    decreases |es|
  {
    if es == [] {
      assert [e][1..] == [];
    } else {
      assert (es + [e])[1..] == es[1..] + [e];
      RunSnoc(Step(s, es[0]), es[1..], e);
    }
  }

  /** Whatever happened before, right after a host update the flag loosely
      equals the `is_open` it supplied, and right after a render it loosely
      equals the current prop. */
  lemma NoDriftAfterLastEvent(s: ModalState, es: seq<Event>, raw: Props)
    ensures LooseEq(Run(s, es + [HostUpdate(raw)]).modalOpen, Get(raw, "is_open"))
    ensures Synced(Run(s, es + [Rerender]))
  {
    RunSnoc(s, es, HostUpdate(raw));
    RunSnoc(s, es, Rerender);
    var r := Run(s, es + [HostUpdate(raw)]);
    assert Get(r.props, "is_open") == Get(raw, "is_open");
  }

  /** When the host owns `is_open` and sends no update, neither toggles nor
      renders move the local flag, and every toggle reports the inverse of
      that same flag. */
  lemma {:induction false} ControlledFlagChangesOnlyByHost(s: ModalState, es: seq<Event>)
    requires Controlled(s.props) && Synced(s)
    requires forall k :: 0 <= k < |es| ==> !es[k].HostUpdate?
    ensures Run(s, es).modalOpen == s.modalOpen && Run(s, es).props == s.props
    ensures s.reported <= Run(s, es).reported
    ensures forall p :: p in Run(s, es).reported[|s.reported|..] ==> p == TogglePayload(s.modalOpen)
    decreases |es|
  {
    if es != [] {
      var s1 := Step(s, es[0]);
      ControlledFlagChangesOnlyByHost(s1, es[1..]);
      var all := Run(s, es).reported;
      assert all[|s.reported|..] == s1.reported[|s.reported|..] + all[|s1.reported|..];
    }
  }

  /** A Modal instance, with the fields React keeps for it. */
  class Modal {
    var props: Props
    var modalOpen: Value
    ghost var reported: seq<Props>

    ghost function State(): ModalState
      reads this
    {
      ModalState(props, modalOpen, reported)
    }

    ghost predicate Valid()
      reads this
    {
      Invariant(State())
    }

    constructor (raw: Props)
      ensures Valid()
      ensures State() == Constructed(raw)
    {
      var p := Resolve(raw);
      props := p;
      modalOpen := Get(p, "is_open");
      reported := [];
    }

    method Toggle()
      requires Valid()
      modifies this
      ensures Valid()
      ensures State() == Toggled(old(State()))
    {
      if Truthy(Get(props, "setProps")) {
        reported := reported + [TogglePayload(modalOpen)];
      } else {
        modalOpen := Bool(!Truthy(modalOpen));
      }
    }

    /** New props arrive: they replace `this.props` and the derived state is
        merged. */
    method ReceiveProps(raw: Props)
      requires Valid()
      modifies this
      ensures Valid()
      ensures State() == Received(old(State()), raw)
    {
      props := Resolve(raw);
      Rerender();
    }

    /** `getDerivedStateFromProps` with the current props, as React 16.4 and
        later run it before a render caused by a state update. */
    method Rerender()
      requires Valid()
      modifies this
      ensures Valid()
      ensures State() == Resynced(old(State()))
    {
      var derived := DerivedState(props, modalOpen);
      if derived.Some? {
        modalOpen := derived.value;
      }
    }

    /** `render()` on the current fields. */
    function Render(): (e: Element)
      reads this
      ensures "isOpen" in e.attrs && "toggle" in e.attrs
      ensures "isOpen" !in props ==> e.attrs["isOpen"] == modalOpen
      ensures "toggle" !in props ==> e.attrs["toggle"] == Fn(ModalToggle)
    {
      RenderModal(props, modalOpen)
    }
  }
}
