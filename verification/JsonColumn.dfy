/** The JSON column between enqueue and the worker: what `json.dumps` accepts,
    what reading the column gives back, and when the round trip is faithful. */
module JsonColumn {
  import opened Codec

  /** The key types `json.dumps(allow_nan=False)` turns into text. */
  predicate JsonKey(k: Value) {
    k.Str? || k.Int? || k.Bool? || k.Null? || (k.Number? && k.f.Finite?)
  }

  /** What `json.dumps(allow_nan=False)` accepts (RFC 8259, sections 4 and 6). */
  predicate Jsonable(v: Value) {
    match v
    case Null => true
    case Bool(_) => true
    case Int(_) => true
    case Str(_) => true
    case Number(f) => f.Finite?
    case List(items) => forall i :: 0 <= i < |items| ==> Jsonable(items[i])
    case Tuple(items) => forall i :: 0 <= i < |items| ==> Jsonable(items[i])
    case Dict(m) => forall k :: k in m ==> JsonKey(k) && Jsonable(m[k])
    case _ => false
  }

  /** No dict at any depth has a key that is not a string. */
  predicate StringKeyed(v: Value) {
    match v
    case List(items) => forall i :: 0 <= i < |items| ==> StringKeyed(items[i])
    case Tuple(items) => forall i :: 0 <= i < |items| ==> StringKeyed(items[i])
    case Set(elems) => forall x :: x in elems ==> StringKeyed(x)
    case FrozenSet(elems) => forall x :: x in elems ==> StringKeyed(x)
    case Dict(m) => forall k :: k in m ==> k.Str? && StringKeyed(m[k])
    case _ => true
  }

  /** No float at any depth comes back from the column as an integer. */
  predicate Unrewritten(v: Value, py: Python) {
    match v
    case Number(f) => f.Finite? ==> py.reread(f.r).None?
    case List(items) => forall i :: 0 <= i < |items| ==> Unrewritten(items[i], py)
    case Tuple(items) => forall i :: 0 <= i < |items| ==> Unrewritten(items[i], py)
    case Set(elems) => forall x :: x in elems ==> Unrewritten(x, py)
    case FrozenSet(elems) => forall x :: x in elems ==> Unrewritten(x, py)
    case Dict(m) => forall k :: k in m ==> Unrewritten(k, py) && Unrewritten(m[k], py)
    case _ => true
  }

  /** What survives the column with its type. */
  predicate Faithful(v: Value, py: Python) { StringKeyed(v) && Unrewritten(v, py) }

  ghost function KeyTexts(m: map<Value, Value>, py: Python): set<Value> {
    set k | k in m :: Str(py.keyText(k))
  }

  /** The key whose value survives under the text `t`: when several keys share
      a text, some one of them does. */
  ghost function Survivor(m: map<Value, Value>, t: Value, py: Python): (k: Value)
    requires t in KeyTexts(m, py)
    ensures k in m && Str(py.keyText(k)) == t
  {
    var k :| k in m && Str(py.keyText(k)) == t;
    k
  }

  /** What reading the column returns for a value written to it. */
  ghost function Stored(v: Value, py: Python): Value
    requires Jsonable(v)
    decreases v
  {
    match v
    case List(xs) => List(seq(|xs|, i requires 0 <= i < |xs| => Stored(xs[i], py)))
    case Tuple(xs) => List(seq(|xs|, i requires 0 <= i < |xs| => Stored(xs[i], py)))
    case Dict(m) => Dict(StoredEntries(v, m, py))
    case Number(f) => if py.reread(f.r).Some? then Int(py.reread(f.r).value) else v
    case _ => v
  }

  ghost function StoredEntries(whole: Value, m: map<Value, Value>, py: Python): (stored: map<Value, Value>)
    requires forall k :: k in m ==> m[k] < whole && Jsonable(m[k])
    ensures stored.Keys == KeyTexts(m, py)
    decreases whole, 0
  {
    map t | t in KeyTexts(m, py) :: Stored(m[Survivor(m, t, py)], py)
  }

  /** The whole trip of one value: encoded, written, read back, decoded. */
  ghost function Trip(v: Value, py: Python): Value
    requires Lawful(py) && Jsonable(Encode(v, py))
  {
    Decode(Stored(Encode(v, py), py), py)
  }

  /** A value that can be stored comes back equal, with its types, exactly when all
      its dicts, at every depth, have string keys only and none of its floats
      is one the column gives back as an integer. */
  lemma TripIsFaithfulIff(v: Value, py: Python)
    requires Lawful(py) && WellFormed(v) && Jsonable(Encode(v, py))
    ensures Trip(v, py) == v <==> Faithful(v, py)
  {
    if Faithful(v, py) {
      StoredUnchanged(v, py);
      DecodeUndoesEncode(v, py);
    }
    if Trip(v, py) == v {
      FaithfulOnlyIfStringKeyed(v, py);
      StoredUnrewritten(Encode(v, py), py);
      DecodeUnrewritten(Stored(Encode(v, py), py), py);
    }
  }

  // ----- nothing the column would rewrite comes back from it -----

  lemma {:induction false} StoredUnrewritten(v: Value, py: Python)
    requires Jsonable(v)
    ensures Unrewritten(Stored(v, py), py)
  {
    match v
    case List(xs) => forall i | 0 <= i < |xs| ensures Unrewritten(Stored(xs[i], py), py) { StoredUnrewritten(xs[i], py); }
    case Tuple(xs) => forall i | 0 <= i < |xs| ensures Unrewritten(Stored(xs[i], py), py) { StoredUnrewritten(xs[i], py); }
    case Dict(m) =>
      var stored := StoredEntries(v, m, py);
      forall t | t in stored ensures Unrewritten(t, py) && Unrewritten(stored[t], py) {
        StoredUnrewritten(m[Survivor(m, t, py)], py);
      }
    case _ =>
  }

  lemma {:induction false} DecodeUnrewritten(v: Value, py: Python)
    requires Lawful(py) && Unrewritten(v, py)
    ensures Unrewritten(Decode(v, py), py)
    decreases v, 1
  {
    match v
    case List(xs) => forall i | 0 <= i < |xs| ensures Unrewritten(Decode(xs[i], py), py) { DecodeUnrewritten(xs[i], py); }
    case Dict(m) =>
      if TYPE_TAG !in m || m[TYPE_TAG] == Null {
        EntriesUnrewritten(v, m, py);
      } else {
        TaggedUnrewritten(v, m[TYPE_TAG], if PAYLOAD in m then m[PAYLOAD] else Null, py);
      }
    case _ =>
  }

  lemma EntriesUnrewritten(whole: Value, m: map<Value, Value>, py: Python)
    requires Lawful(py) && forall k :: k in m ==> m[k] < whole && Unrewritten(k, py) && Unrewritten(m[k], py)
    ensures Unrewritten(Dict(DecodeEntries(whole, m, py)), py)
    decreases whole, 0
  {
    var decoded := DecodeEntries(whole, m, py);
    forall k | k in decoded ensures Unrewritten(k, py) && Unrewritten(decoded[k], py) { DecodeUnrewritten(m[k], py); }
  }

  lemma ItemsUnrewritten(inner: Value, py: Python)
    requires Lawful(py) && Unrewritten(inner, py) && DecodeItems(inner, py).Some?
    ensures forall x :: x in DecodeItems(inner, py).value ==> Unrewritten(x, py)
    decreases inner, 0
  {
    match inner
    case List(xs) => forall i | 0 <= i < |xs| ensures Unrewritten(Decode(xs[i], py), py) { DecodeUnrewritten(xs[i], py); }
    case Tuple(xs) => forall i | 0 <= i < |xs| ensures Unrewritten(Decode(xs[i], py), py) { DecodeUnrewritten(xs[i], py); }
    case Set(elems) => assert Enumerates(py.order(elems), elems);
    case FrozenSet(elems) => assert Enumerates(py.order(elems), elems);
    case Dict(m) => assert Enumerates(py.order(m.Keys), m.Keys);
    case _ =>
  }

  lemma TaggedUnrewritten(v: Value, tag: Value, inner: Value, py: Python)
    requires Lawful(py) && Unrewritten(v, py) && Unrewritten(inner, py) && (inner == Null || inner < v)
    ensures Unrewritten(DecodeTagged(v, tag, inner, py), py)
    decreases v, 0
  {
    if tag == Str("dict") {
      if inner.Dict? { EntriesUnrewritten(inner, inner.entries, py); }
    } else if inner != Null && DecodeItems(inner, py).Some? {
      ItemsUnrewritten(inner, py);
    }
  }

  lemma StoredTagged(tag: string, payload: Value, py: Python)
    requires Lawful(py) && Jsonable(Tagged(tag, payload))
    ensures Jsonable(payload)
    ensures Stored(Tagged(tag, payload), py) == Tagged(tag, Stored(payload, py))
  {
    var m := Tagged(tag, payload).entries;
    assert m[PAYLOAD] == payload && m[TYPE_TAG] == Str(tag) && m.Keys == {TYPE_TAG, PAYLOAD};
    StoredDict(m, py);
    StoredPair(StoredEntries(Dict(m), m, py), tag, Stored(payload, py));
  }

  lemma StoredPair(stored: map<Value, Value>, tag: string, payload: Value)
    requires stored.Keys == {TYPE_TAG, PAYLOAD} && stored[TYPE_TAG] == Str(tag) && stored[PAYLOAD] == payload
    ensures Dict(stored) == Tagged(tag, payload)
  {
    assert stored == Tagged(tag, payload).entries;
  }

  /** A dict with string keys keeps its keys in storage. */
  lemma StoredDict(m: map<Value, Value>, py: Python)
    requires Lawful(py) && Jsonable(Dict(m))
    requires forall k :: k in m ==> k.Str?
    ensures var stored := StoredEntries(Dict(m), m, py);
            stored.Keys == m.Keys && forall k :: k in m ==> stored[k] == Stored(m[k], py)
  {
    forall t ensures t in KeyTexts(m, py) <==> t in m {
      if t in m { assert Str(py.keyText(t)) == t; }
    }
    forall t | t in m ensures Survivor(m, t, py) == t {
      var k := Survivor(m, t, py);
      assert k == Str(py.keyText(k));
    }
  }

  lemma {:induction false} StoredUnchanged(v: Value, py: Python)
    requires Lawful(py) && Jsonable(Encode(v, py)) && Faithful(v, py)
    ensures Stored(Encode(v, py), py) == Encode(v, py)
    decreases v, 2
  {
    match v
    case Scalar(k, i) => StoredTagged(KindName(k), Str(py.text(k, i)), py);
    case Tuple(xs) => StoredItemsUnchanged(v, "tuple", xs, py);
    case List(xs) => StoredAllUnchanged(v, xs, py);
    case Set(s) => StoredItemsUnchanged(v, "set", Ordered(s, py), py);
    case FrozenSet(s) => StoredItemsUnchanged(v, "frozenset", Ordered(s, py), py);
    case Dict(m) => StoredDictUnchanged(v, m, py);
    case _ =>
  }

  lemma StoredDictUnchanged(v: Value, m: map<Value, Value>, py: Python)
    requires Lawful(py) && v == Dict(m) && Jsonable(Encode(v, py)) && Faithful(v, py)
    ensures Stored(Encode(v, py), py) == Encode(v, py)
    decreases v, 1
  {
    var encoded := EncodeEntries(v, m, py);
    EncodedDictIsJsonable(v, m, py);
    StoredEntriesUnchanged(v, m, py);
    if TYPE_TAG in m { StoredTagged("dict", Dict(encoded), py); }
  }

  lemma EncodedDictIsJsonable(v: Value, m: map<Value, Value>, py: Python)
    requires Lawful(py) && v == Dict(m) && Jsonable(Encode(v, py))
    ensures Jsonable(Dict(EncodeEntries(v, m, py)))
  {
    if TYPE_TAG in m { assert Encode(v, py).entries[PAYLOAD] == Dict(EncodeEntries(v, m, py)); }
  }

  lemma StoredEntriesUnchanged(whole: Value, m: map<Value, Value>, py: Python)
    requires Lawful(py)
    requires forall k :: k in m ==> m[k] < whole && k.Str? && Faithful(m[k], py)
    requires Jsonable(Dict(EncodeEntries(whole, m, py)))
    ensures var encoded := Dict(EncodeEntries(whole, m, py)); Stored(encoded, py) == encoded
    decreases whole, 0
  {
    var encoded := EncodeEntries(whole, m, py);
    forall k | k in encoded ensures k.Str? && Stored(encoded[k], py) == encoded[k] { StoredUnchanged(m[k], py); }
    StoredFixpoint(encoded, py);
  }

  lemma StoredFixpoint(m: map<Value, Value>, py: Python)
    requires Lawful(py) && Jsonable(Dict(m))
    requires forall k :: k in m ==> k.Str? && Stored(m[k], py) == m[k]
    ensures Stored(Dict(m), py) == Dict(m)
  {
    StoredDict(m, py);
    assert StoredEntries(Dict(m), m, py) == m;
  }

  lemma StoredItemsUnchanged(whole: Value, tag: string, xs: seq<Value>, py: Python)
    requires Lawful(py)
    requires forall i :: 0 <= i < |xs| ==> xs[i] < whole && Faithful(xs[i], py)
    requires Jsonable(Tagged(tag, List(EncodeAll(whole, xs, py))))
    ensures var t := Tagged(tag, List(EncodeAll(whole, xs, py))); Stored(t, py) == t
    decreases whole, 1
  {
    StoredTagged(tag, List(EncodeAll(whole, xs, py)), py);
    StoredAllUnchanged(whole, xs, py);
  }

  lemma StoredAllUnchanged(whole: Value, xs: seq<Value>, py: Python)
    requires Lawful(py)
    requires forall i :: 0 <= i < |xs| ==> xs[i] < whole && Faithful(xs[i], py)
    requires Jsonable(List(EncodeAll(whole, xs, py)))
    ensures Stored(List(EncodeAll(whole, xs, py)), py) == List(EncodeAll(whole, xs, py))
    decreases whole, 0
  {
    var ys := EncodeAll(whole, xs, py);
    forall i | 0 <= i < |xs| ensures Stored(ys[i], py) == ys[i] {
      assert Jsonable(ys[i]);
      StoredUnchanged(xs[i], py);
    }
    assert seq(|ys|, i requires 0 <= i < |ys| => Stored(ys[i], py)) == ys;
  }

  lemma {:induction false} HashableIsStringKeyed(v: Value)
    requires WellFormed(v) && Hashable(v)
    ensures StringKeyed(v)
  {
    match v
    case Tuple(items) =>
      forall i | 0 <= i < |items| ensures StringKeyed(items[i]) { HashableIsStringKeyed(items[i]); }
    case FrozenSet(s) =>
      forall x | x in s ensures StringKeyed(x) { HashableIsStringKeyed(x); }
    case _ =>
  }

  lemma {:induction false} FaithfulOnlyIfStringKeyed(v: Value, py: Python)
    requires Lawful(py) && WellFormed(v) && Jsonable(Encode(v, py)) && Trip(v, py) == v
    ensures StringKeyed(v)
    decreases v, 2
  {
    match v
    case Tuple(xs) => FaithfulTuple(v, xs, py);
    case List(xs) => FaithfulItems(v, xs, py);
    case Set(s) => forall x | x in s ensures StringKeyed(x) { HashableIsStringKeyed(x); }
    case FrozenSet(s) => forall x | x in s ensures StringKeyed(x) { HashableIsStringKeyed(x); }
    case Dict(m) => FaithfulDict(v, m, py);
    case _ =>
  }

  lemma FaithfulTuple(v: Value, xs: seq<Value>, py: Python)
    requires Lawful(py) && WellFormed(v) && v == Tuple(xs)
    requires Jsonable(Encode(v, py)) && Trip(v, py) == v
    ensures StringKeyed(v)
    decreases v, 1
  {
    var payload := List(EncodeAll(v, xs, py));
    StoredTagged("tuple", payload, py);
    DecodeTag("tuple", Stored(payload, py), py);
    FaithfulItems(v, xs, py);
  }

  lemma FaithfulItems(whole: Value, xs: seq<Value>, py: Python)
    requires Lawful(py)
    requires forall i :: 0 <= i < |xs| ==> xs[i] < whole && WellFormed(xs[i])
    requires Jsonable(List(EncodeAll(whole, xs, py)))
    requires Decode(Stored(List(EncodeAll(whole, xs, py)), py), py) == List(xs)
    ensures forall i :: 0 <= i < |xs| ==> StringKeyed(xs[i])
    decreases whole, 0
  {
    var ys := EncodeAll(whole, xs, py);
    forall i | 0 <= i < |xs| ensures StringKeyed(xs[i]) {
      assert Jsonable(ys[i]);
      assert Decode(Stored(List(ys), py), py).items[i] == Trip(xs[i], py);
      FaithfulOnlyIfStringKeyed(xs[i], py);
    }
  }

  /** A dict read back from storage decodes entry by entry, escaped or not. */
  lemma TripOfDict(v: Value, m: map<Value, Value>, py: Python)
    requires Lawful(py) && v == Dict(m) && Jsonable(Encode(v, py))
    ensures var encoded := EncodeEntries(v, m, py);
            && Jsonable(Dict(encoded))
            && var stored := StoredEntries(Dict(encoded), encoded, py);
               Trip(v, py) == Dict(DecodeEntries(Dict(stored), stored, py))
  {
    var encoded := EncodeEntries(v, m, py);
    if TYPE_TAG in m {
      StoredTagged("dict", Dict(encoded), py);
      DecodeTag("dict", Stored(Dict(encoded), py), py);
    } else {
      assert TYPE_TAG !in KeyTexts(encoded, py);
    }
  }

  /** With string keys the trip keeps the keys and takes each value on its own trip. */
  lemma TripOfStringDict(v: Value, m: map<Value, Value>, py: Python)
    requires Lawful(py) && v == Dict(m) && Jsonable(Encode(v, py))
    requires forall k :: k in m ==> k.Str?
    ensures Trip(v, py).Dict? && Trip(v, py).entries.Keys == m.Keys
    ensures forall k :: k in m ==> Jsonable(Encode(m[k], py)) && Trip(v, py).entries[k] == Trip(m[k], py)
  {
    TripOfDict(v, m, py);
    var encoded := EncodeEntries(v, m, py);
    StoredDict(encoded, py);
    forall k | k in m ensures Jsonable(Encode(m[k], py)) && Trip(v, py).entries[k] == Trip(m[k], py) {
      assert Jsonable(encoded[k]);
    }
  }

  lemma FaithfulDict(v: Value, m: map<Value, Value>, py: Python)
    requires Lawful(py) && WellFormed(v) && v == Dict(m)
    requires Jsonable(Encode(v, py)) && Trip(v, py) == v
    ensures StringKeyed(v)
    decreases v, 1
  {
    TripOfDict(v, m, py);
    var encoded := EncodeEntries(v, m, py);
    var stored := StoredEntries(Dict(encoded), encoded, py);
    assert m == DecodeEntries(Dict(stored), stored, py);
    assert forall k :: k in m ==> k.Str?;
    StoredDict(encoded, py);
    forall k | k in m ensures StringKeyed(m[k]) {
      assert m[k] == Decode(stored[k], py) == Trip(m[k], py);
      FaithfulOnlyIfStringKeyed(m[k], py);
    }
  }
}
