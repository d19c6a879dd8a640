/** The tagged encoding that carries kwargs through a JSON column:
    `encode_value`, `decode_value` and the storage step between them. */
module Codec {
  import opened Wrappers

  /** Types stored as a tag and a text form. The values themselves stay opaque. */
  datatype Kind = DateTime | Date | Time | Decimal | Uuid

  datatype Float = Finite(r: real) | NaN | Infinite(negative: bool)

  datatype Value =
    | Null
    | Bool(b: bool)
    | Int(i: int)
    | Number(f: Float)
    | Str(s: string)
    | Scalar(kind: Kind, id: nat)
    | Tuple(items: seq<Value>)
    | List(items: seq<Value>)
    | Set(elems: set<Value>)
    | FrozenSet(elems: set<Value>)
    | Dict(entries: map<Value, Value>)
    | Object(id: nat, pk: Value)  // a model instance or any other object; pk is Null when it has none

  /** What Python supplies: an iteration order for every set, the text form of
      a scalar and its parser, the text JSON gives to a dict key, and what the
      column makes of a float: jsonb keeps decimals, and gives one back as an
      integer when its text has an exponent that leaves no fraction, as `1e+16`. */
  datatype Python = Python(
    order: set<Value> -> seq<Value>,
    text: (Kind, nat) -> string,
    parse: (Kind, Value) -> Option<nat>,
    keyText: Value -> string,
    reread: real -> Option<int>)

  const TYPE_TAG := Str("__dl_type__")
  const PAYLOAD := Str("value")

  ghost predicate Enumerates(xs: seq<Value>, s: set<Value>) {
    && (forall x :: x in xs <==> x in s)
    && (forall i, j :: 0 <= i < j < |xs| ==> xs[i] != xs[j])
  }

  ghost predicate Lawful(py: Python) {
    && (forall s :: Enumerates(py.order(s), s))
    && (forall k, i: nat :: py.parse(k, Str(py.text(k, i))) == Some(i))
    && (forall s :: py.keyText(Str(s)) == s)
    && (forall k: Value :: !k.Str? ==> py.keyText(k) != TYPE_TAG.s && py.keyText(k) != PAYLOAD.s)
  }

  predicate Hashable(v: Value) {
    match v
    case Tuple(items) => forall i :: 0 <= i < |items| ==> Hashable(items[i])
    case List(_) => false
    case Set(_) => false
    case Dict(_) => false
    case _ => true
  }

  /** Every Python value satisfies this: set elements and dict keys are hashable. */
  predicate WellFormed(v: Value) {
    match v
    case Tuple(items) => forall i :: 0 <= i < |items| ==> WellFormed(items[i])
    case List(items) => forall i :: 0 <= i < |items| ==> WellFormed(items[i])
    case Set(elems) => forall x :: x in elems ==> Hashable(x) && WellFormed(x)
    case FrozenSet(elems) => forall x :: x in elems ==> Hashable(x) && WellFormed(x)
    case Dict(m) => forall k :: k in m ==> Hashable(k) && WellFormed(m[k])
    case Object(_, pk) => WellFormed(pk)
    case _ => true
  }

  function KindName(k: Kind): string {
    match k
    case DateTime => "datetime"
    case Date => "date"
    case Time => "time"
    case Decimal => "decimal"
    case Uuid => "uuid"
  }

  function KindNamed(tag: Value): Option<Kind> {
    if tag == Str("datetime") then Some(DateTime)
    else if tag == Str("date") then Some(Date)
    else if tag == Str("time") then Some(Time)
    else if tag == Str("decimal") then Some(Decimal)
    else if tag == Str("uuid") then Some(Uuid)
    else None
  }

  function Tagged(tag: string, payload: Value): Value {
    Dict(map[TYPE_TAG := Str(tag), PAYLOAD := payload])
  }

  function Encode(v: Value, py: Python): Value
    requires Lawful(py)
    decreases v
  {
    match v
    case Scalar(k, i) => Tagged(KindName(k), Str(py.text(k, i)))
    case Tuple(xs) => Tagged("tuple", List(EncodeAll(v, xs, py)))
    case FrozenSet(s) => Tagged("frozenset", List(EncodeAll(v, Ordered(s, py), py)))
    case Set(s) => Tagged("set", List(EncodeAll(v, Ordered(s, py), py)))
    case List(xs) => List(EncodeAll(v, xs, py))
    case Dict(m) =>
      var encoded := Dict(EncodeEntries(v, m, py));
      if TYPE_TAG in m then Tagged("dict", encoded) else encoded
    case _ => v
  }

  function Ordered(s: set<Value>, py: Python): (xs: seq<Value>)
    requires Lawful(py)
    ensures forall i :: 0 <= i < |xs| ==> xs[i] in s
    ensures forall x :: x in s ==> x in xs
  {
    assert Enumerates(py.order(s), s);
    py.order(s)
  }

  function EncodeAll(whole: Value, xs: seq<Value>, py: Python): seq<Value>
    requires Lawful(py)
    requires forall i :: 0 <= i < |xs| ==> xs[i] < whole
    decreases whole, 0
  {
    seq(|xs|, i requires 0 <= i < |xs| => Encode(xs[i], py))
  }

  function EncodeEntries(whole: Value, m: map<Value, Value>, py: Python): (encoded: map<Value, Value>)
    requires Lawful(py)
    requires forall k :: k in m ==> m[k] < whole
    ensures encoded.Keys == m.Keys
    decreases whole, 0
  {
    map k | k in m :: Encode(m[k], py)
  }

  function DecodeEntries(whole: Value, m: map<Value, Value>, py: Python): (decoded: map<Value, Value>)
    requires forall k :: k in m ==> m[k] < whole
    ensures decoded.Keys == m.Keys
    decreases whole, 0
  {
    map k | k in m :: Decode(m[k], py)
  }

  /** Iterating a payload, as `for v in inner` does; `Some` holds the decoded items. */
  function DecodeItems(inner: Value, py: Python): Option<seq<Value>>
    decreases inner, 0
  {
    match inner
    case List(xs) => Some(seq(|xs|, i requires 0 <= i < |xs| => Decode(xs[i], py)))
    case Tuple(xs) => Some(seq(|xs|, i requires 0 <= i < |xs| => Decode(xs[i], py)))
    // strings, set elements and dict keys decode to themselves: none is a list or a dict
    case Str(s) => Some(seq(|s|, i requires 0 <= i < |s| => Str([s[i]])))
    case Set(elems) => Some(py.order(elems))
    case FrozenSet(elems) => Some(py.order(elems))
    case Dict(m) => Some(py.order(m.Keys))
    case _ => None
  }

  function Decode(v: Value, py: Python): Value
    decreases v, 1
  {
    match v
    case List(xs) => List(seq(|xs|, i requires 0 <= i < |xs| => Decode(xs[i], py)))
    case Dict(m) =>
      if TYPE_TAG !in m || m[TYPE_TAG] == Null then
        Dict(DecodeEntries(v, m, py))
      else
        DecodeTagged(v, m[TYPE_TAG], if PAYLOAD in m then m[PAYLOAD] else Null, py)
    case _ => v
  }

  /** A tag with a payload that does not fit it passes the value through undecoded. */
  function DecodeTagged(v: Value, tag: Value, inner: Value, py: Python): Value
    requires inner == Null || inner < v
    decreases v, 0
  {
    if tag == Str("dict") then
      if inner.Dict? then Dict(DecodeEntries(inner, inner.entries, py)) else v
    else if tag == Str("tuple") || tag == Str("set") || tag == Str("frozenset") then
      if inner == Null then v else
      match DecodeItems(inner, py)
      case None => v
      case Some(xs) =>
        if tag == Str("tuple") then Tuple(xs)
        else if exists i :: 0 <= i < |xs| && !Hashable(xs[i]) then v
        else if tag == Str("set") then Set(set x | x in xs)
        else FrozenSet(set x | x in xs)
    else
      match KindNamed(tag)
      case None => v
      case Some(k) =>
        match py.parse(k, inner)
        case None => v
        case Some(i) => Scalar(k, i)
  }

  /** Decoding undoes encoding, for every Python value: nested to any depth, with
      dicts that themselves hold the tag key, non-string keys and opaque objects. */
  lemma {:induction false} DecodeUndoesEncode(v: Value, py: Python)
    requires Lawful(py) && WellFormed(v)
    ensures Decode(Encode(v, py), py) == v
    decreases v, 2
  {
    match v
    case Scalar(k, i) => DecodeScalar(k, i, py);
    case Tuple(xs) =>
      DecodeAll(v, xs, py);
      DecodeTag("tuple", List(EncodeAll(v, xs, py)), py);
    case List(xs) => DecodeAll(v, xs, py);
    case Set(s) => DecodeSet(v, s, py);
    case FrozenSet(s) => DecodeSet(v, s, py);
    case Dict(m) => DecodeDict(v, m, py);
    case _ =>
  }

  lemma DecodeTag(tag: string, payload: Value, py: Python)
    ensures var t := Tagged(tag, payload);
            t.entries[PAYLOAD] == payload && Decode(t, py) == DecodeTagged(t, Str(tag), payload, py)
  {}

  lemma DecodeSetTags(payload: Value, xs: seq<Value>, py: Python)
    requires payload.List? && DecodeItems(payload, py) == Some(xs)
    requires forall i :: 0 <= i < |xs| ==> Hashable(xs[i])
    ensures Decode(Tagged("set", payload), py) == Set(set x | x in xs)
    ensures Decode(Tagged("frozenset", payload), py) == FrozenSet(set x | x in xs)
  {
    DecodeTag("set", payload, py);
    DecodeTag("frozenset", payload, py);
  }

  lemma DecodeScalar(k: Kind, i: nat, py: Python)
    requires Lawful(py)
    ensures Decode(Tagged(KindName(k), Str(py.text(k, i))), py) == Scalar(k, i)
  {
    DecodeTag(KindName(k), Str(py.text(k, i)), py);
  }

  lemma DecodeAll(whole: Value, xs: seq<Value>, py: Python)
    requires Lawful(py)
    requires forall i :: 0 <= i < |xs| ==> xs[i] < whole && WellFormed(xs[i])
    ensures var ys := EncodeAll(whole, xs, py);
            DecodeItems(List(ys), py) == Some(xs) && Decode(List(ys), py) == List(xs)
    decreases whole, 0
  {
    forall i | 0 <= i < |xs| ensures Decode(Encode(xs[i], py), py) == xs[i] {
      DecodeUndoesEncode(xs[i], py);
    }
    var ys := EncodeAll(whole, xs, py);
    assert seq(|ys|, i requires 0 <= i < |ys| => Decode(ys[i], py)) == xs;
  }

  lemma DecodeSet(whole: Value, s: set<Value>, py: Python)
    requires Lawful(py)
    requires forall x :: x in s ==> x < whole && WellFormed(x) && Hashable(x)
    ensures var payload := List(EncodeAll(whole, Ordered(s, py), py));
            && Decode(Tagged("set", payload), py) == Set(s)
            && Decode(Tagged("frozenset", payload), py) == FrozenSet(s)
    decreases whole, 1
  {
    var xs := Ordered(s, py);
    DecodeAll(whole, xs, py);
    assert (set x | x in xs) == s;
    DecodeSetTags(List(EncodeAll(whole, xs, py)), xs, py);
  }

  lemma DecodeDict(v: Value, m: map<Value, Value>, py: Python)
    requires Lawful(py) && WellFormed(v) && v == Dict(m)
    ensures Decode(Encode(v, py), py) == v
    decreases v, 1
  {
    var encoded := EncodeEntries(v, m, py);
    assert DecodeEntries(Dict(encoded), encoded, py) == m by {
      forall k | k in m ensures Decode(Encode(m[k], py), py) == m[k] { DecodeUndoesEncode(m[k], py); }
    }
    if TYPE_TAG in m {
      DecodeTag("dict", Dict(encoded), py);
    }
  }

  /** Two different values never share an encoding. */
  lemma EncodeIsInjective(v: Value, w: Value, py: Python)
    requires Lawful(py) && WellFormed(v) && WellFormed(w)
    requires Encode(v, py) == Encode(w, py)
    ensures v == w
  {
    DecodeUndoesEncode(v, py);
    DecodeUndoesEncode(w, py);
  }
}
