/**
 * The slice of JavaScript semantics that the two widgets rely on: a props
 * object as a map from names to values, property lookup, truthiness, the
 * `&&`, `||` and loose `==` operators, React's defaultProps resolution and
 * ramda's `omit`.
 */
module JsValues {

  datatype Option<T> = None | Some(value: T)

  /** The function values that flow through props: the host's setProps
      callback and the two bound handlers the widgets hand to reactstrap. */
  datatype Handler = SetProps | AlertDismiss | ModalToggle

  /** A JavaScript value as it can appear in a props object. Numbers are
      integers; `Node` stands for any React children. */
  datatype Value =
    | Undefined
    | Null
    | Bool(b: bool)
    | Num(n: int)
    | Str(s: string)
    | List(items: seq<Value>)
    | Obj(fields: map<string, Value>)
    | Fn(h: Handler)
    | Node

  /** A props object (or any plain object): absent keys read as undefined. */
  type Props = map<string, Value>

  /** `p[key]` */
  function Get(p: Props, key: string): Value
  {
    if key in p then p[key] else Undefined
  }

  /** `v.key` for a value that may not be an object: anything but an object
      has none of the fields used here. */
  function Field(v: Value, key: string): Value
  {
    if v.Obj? then Get(v.fields, key) else Undefined
  }

  /** JavaScript truthiness. */
  predicate Truthy(v: Value)
  {
    match v
    case Undefined => false
    case Null => false
    case Bool(b) => b
    case Num(n) => n != 0
    case Str(s) => s != ""
    case _ => true
  }

  predicate Nullish(v: Value)
  {
    v.Undefined? || v.Null?
  }

  /** The values a prop declared `PropTypes.bool` can hold: absent, null or
      a boolean. */
  predicate IsFlag(v: Value)
  {
    Nullish(v) || v.Bool?
  }

  function ToNumber(v: Value): int
    requires v.Bool? || v.Num?
  {
    if v.Bool? then (if v.b then 1 else 0) else v.n
  }

  /** `a == b` (loose equality): null and undefined equal each other and
      nothing else; booleans and numbers compare as numbers. */
  predicate LooseEq(a: Value, b: Value)
  {
    if Nullish(a) || Nullish(b) then Nullish(a) && Nullish(b)
    else if (a.Bool? || a.Num?) && (b.Bool? || b.Num?) then ToNumber(a) == ToNumber(b)
    else a == b
  }

  lemma LooseEqReflexive(a: Value)
    ensures LooseEq(a, a)
  {
  }

  lemma LooseEqSymmetric(a: Value, b: Value)
    ensures LooseEq(a, b) == LooseEq(b, a)
  {
  }

  /** On the values a boolean prop can hold, loose equality is equality up to
      identifying null with undefined. */
  lemma LooseEqOnFlags(a: Value, b: Value)
    requires IsFlag(a) && IsFlag(b)
    ensures LooseEq(a, b) <==> a == b || (Nullish(a) && Nullish(b))
  {
  }

  /** `a && b` */
  function And(a: Value, b: Value): (r: Value)
    ensures Truthy(r) <==> Truthy(a) && Truthy(b)
    ensures !Truthy(a) ==> r == a
    ensures Truthy(a) ==> r == b
  {
    if Truthy(a) then b else a
  }

  /** `a || b` */
  function Or(a: Value, b: Value): (r: Value)
    ensures Truthy(r) <==> Truthy(a) || Truthy(b)
    ensures Truthy(a) ==> r == a
    ensures !Truthy(a) ==> r == b
  {
    if Truthy(a) then a else b
  }

  /** `props.setProps` is truthy: the host owns `is_open`. Both widgets read
      it afresh on every dismiss or toggle. */
  predicate Controlled(props: Props)
  {
    Truthy(Get(props, "setProps"))
  }

  /** React's defaultProps resolution: every default whose prop is absent or
      explicitly undefined is filled in; every other prop is kept. */
  function WithDefaults(raw: Props, defaults: Props): (p: Props)
    ensures p.Keys == raw.Keys + defaults.Keys
    ensures forall k :: k in defaults && Get(raw, k) == Undefined ==> Get(p, k) == defaults[k]
    ensures forall k :: !(k in defaults && Get(raw, k) == Undefined) ==> Get(p, k) == Get(raw, k)
  {
    raw + map k | k in defaults && Get(raw, k) == Undefined :: defaults[k]
  }

  /** ramda's `omit(keys, p)`: a copy of `p` without the named keys. */
  function Omit(keys: set<string>, p: Props): (r: Props)
    ensures r.Keys == p.Keys - keys
    ensures forall k :: k in r ==> r[k] == p[k]
  {
    p - keys
  }

  /** What a component renders: the presentational primitive with its
      attributes and its children. */
  datatype Element = Element(attrs: Props, children: Value)
}
