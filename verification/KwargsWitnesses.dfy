/** Calls that enqueue accepts and that reach the worker changed. */
module KwargsWitnesses {
  import opened Wrappers
  import opened Codec
  import opened JsonColumn
  import opened Kwargs

  /** A call with one keyword argument, `data`. */
  function Call(v: Value): map<Value, Value> { map[Str("data") := v] }

  /** What PostgreSQL's jsonb makes of a float: Python writes one with an exponent
      from 1e16 on, and none of those has a fraction. */
  function JsonbReread(r: real): Option<int> {
    if r >= 10000000000000000.0 || r <= -10000000000000000.0 then Some(r.Floor) else None
  }

  /** Enqueue accepts `call`, and the worker gets `received` for it. */
  ghost predicate Arrives(call: map<Value, Value>, strict: bool, received: map<Value, Value>, site: Site) {
    Lawful(site.py) &&
    var written := Serialized(call, strict, site);
    written.Ok? && Jsonable(written.value) && Deserialized(Stored(written.value, site.py), site) == Ok(received)
  }

  // ----- dicts with one entry -----

  lemma EncodeOne(k: Value, v: Value, py: Python)
    requires Lawful(py) && k != TYPE_TAG
    ensures Encode(Dict(map[k := v]), py) == Dict(map[k := Encode(v, py)])
  {
    var m := map[k := v];
    var encoded := EncodeEntries(Dict(m), m, py);
    assert k in m && encoded[k] == Encode(v, py);
    assert encoded == map[k := Encode(v, py)];
  }

  lemma StoredOne(k: Value, v: Value, py: Python)
    requires Jsonable(Dict(map[k := v])) && Jsonable(v)
    ensures Stored(Dict(map[k := v]), py) == Dict(map[Str(py.keyText(k)) := Stored(v, py)])
  {
    var m, text := map[k := v], Str(py.keyText(k));
    assert KeyTexts(m, py) == {text} by { assert k in m; }
    var stored := StoredEntries(Dict(m), m, py);
    assert Survivor(m, text, py) == k;
    assert stored == map[text := Stored(v, py)];
  }

  lemma DecodeOne(k: Value, v: Value, py: Python)
    requires k != TYPE_TAG
    ensures Decode(Dict(map[k := v]), py) == Dict(map[k := Decode(v, py)])
  {
    var m := map[k := v];
    var decoded := DecodeEntries(Dict(m), m, py);
    assert k in m && decoded[k] == Decode(v, py);
    assert decoded == map[k := Decode(v, py)];
  }

  lemma OneTrips(k: Value, v: Value, py: Python)
    requires Lawful(py) && JsonKey(k) && k != TYPE_TAG && Jsonable(Encode(v, py))
    ensures Encode(Dict(map[k := v]), py) == Dict(map[k := Encode(v, py)]) && Jsonable(Dict(map[k := Encode(v, py)]))
    ensures Trip(Dict(map[k := v]), py) == Dict(map[Str(py.keyText(k)) := Trip(v, py)])
  {
    EncodeOne(k, v, py);
    StoredOne(k, Encode(v, py), py);
    DecodeOne(Str(py.keyText(k)), Stored(Encode(v, py), py), py);
  }

  // ----- calls with one argument -----

  lemma CallIsWritten(v: Value, site: Site)
    ensures Wire(Call(v), site) == Call(v) && NormalForm(Call(v), site) == Call(v)
  {
    assert CallerData(Call(v)) == Call(v);
  }

  /** What passes the checks arrives as its own trip through the column. */
  lemma CallTrips(v: Value, strict: bool, site: Site)
    requires Lawful(site.py) && site.encodable("data") && !HasUnstorableText(v, site)
    requires Jsonable(Encode(v, site.py)) && (strict ==> StringKeyed(v))
    ensures Arrives(Call(v), strict, Call(Trip(v, site.py)), site)
  {
    var data, back := Str("data"), Trip(v, site.py);
    OneTrips(data, v, site.py);
    OneIsChecked(data, v, strict, site);
    CallIsWritten(v, site);
    NoUserRestored(back, site);
    ArrivesFrom(Call(v), strict, Call(v), Call(back), site);
  }

  lemma NoUserRestored(v: Value, site: Site)
    ensures UserRestored(Call(v), site) == Call(v)
  {}

  lemma ArrivesFrom(call: map<Value, Value>, strict: bool, wire: map<Value, Value>, back: map<Value, Value>, site: Site)
    requires Lawful(site.py) && REQUEST !in call && USER_ID !in call && Wire(call, site) == wire
    requires Jsonable(Encode(Dict(wire), site.py)) && Checked(Dict(wire), strict, site).Ok?
    requires Trip(Dict(wire), site.py) == Dict(back) && UserRestored(back, site) == back
    ensures Arrives(call, strict, back, site)
  {}

  lemma OneIsChecked(k: Value, v: Value, strict: bool, site: Site)
    requires Lawful(site.py) && k.Str? && !HasUnstorableText(k, site) && !HasUnstorableText(v, site)
    requires (strict ==> StringKeyed(v)) && Jsonable(Encode(Dict(map[k := v]), site.py))
    ensures Checked(Dict(map[k := v]), strict, site) == Ok(Encode(Dict(map[k := v]), site.py))
  {
    assert !HasUnstorableText(Dict(map[k := v]), site);
  }

  /** A float that the column gives back as an integer is accepted all the same,
      in strict mode too, and arrives as that integer. */
  lemma StrictAcceptsRewrittenFloats(r: real, strict: bool, site: Site)
    requires Lawful(site.py) && site.py.reread(r).Some? && site.encodable("data")
    ensures var call := Call(Number(Finite(r)));
            IsCall(call, site) && Arrives(call, strict, Call(Int(site.py.reread(r).value)), site) && NormalForm(call, site) == call
  {
    var v := Number(Finite(r));
    RewrittenTrips(r, site.py);
    OneIsCall(v, site);
    CallIsWritten(v, site);
    CallTrips(v, strict, site);
  }

  lemma RewrittenTrips(r: real, py: Python)
    requires Lawful(py) && py.reread(r).Some?
    ensures Trip(Number(Finite(r)), py) == Int(py.reread(r).value)
  {}

  /** On PostgreSQL, `1e16` arrives as the integer. */
  lemma TenQuadrillionArrivesAsAnInteger(site: Site)
    requires Lawful(site.py) && site.encodable("data")
    requires forall r :: site.py.reread(r) == JsonbReread(r)
    ensures Arrives(Call(Number(Finite(10000000000000000.0))), true, Call(Int(10000000000000000)), site)
  {
    var r := 10000000000000000.0;
    assert site.py.reread(r) == JsonbReread(r) == Some(10000000000000000);
    StrictAcceptsRewrittenFloats(r, true, site);
  }

  /** `{k: s}`, with a key that is not a string. */
  function Keyed(k: Value, s: string): Value { Dict(map[k := Str(s)]) }

  /** Outside strict mode a dict with a key that is not a string is accepted, and
      arrives with the key turned into text; strict mode refuses it. */
  lemma LenientTurnsKeysIntoText(k: Value, s: string, site: Site)
    requires Lawful(site.py) && site.encodable("data") && site.encodable(s) && '\0' !in s
    requires JsonKey(k) && !k.Str?
    ensures var call := Call(Keyed(k, s));
            && IsCall(call, site)
            && Arrives(call, false, Call(Keyed(Str(site.py.keyText(k)), s)), site)
            && NormalForm(call, site) == call != Call(Keyed(Str(site.py.keyText(k)), s))
            && Serialized(call, true, site) == Err(NonStringKeysRefused)
  {
    LenientArrives(k, s, site);
    KeyedIsStorable(k, s, site);
    CallIsWritten(Keyed(k, s), site);
    KeyedIsRefused(k, s, site);
    KeyedDiffers(k, s, Str(site.py.keyText(k)));
    OneIsCall(Keyed(k, s), site);
  }

  lemma OneIsCall(v: Value, site: Site)
    requires WellFormed(v)
    ensures IsCall(Call(v), site)
  {}

  lemma LenientArrives(k: Value, s: string, site: Site)
    requires Lawful(site.py) && site.encodable("data") && site.encodable(s) && '\0' !in s
    requires JsonKey(k) && !k.Str?
    ensures Arrives(Call(Keyed(k, s)), false, Call(Keyed(Str(site.py.keyText(k)), s)), site)
  {
    OneTrips(k, Str(s), site.py);
    KeyedIsStorable(k, s, site);
    CallTrips(Keyed(k, s), false, site);
  }

  lemma KeyedDiffers(k: Value, s: string, text: Value)
    requires k != text
    ensures Call(Keyed(k, s)) != Call(Keyed(text, s))
  {
    assert k in Keyed(k, s).entries && k !in Keyed(text, s).entries;
    assert Call(Keyed(k, s))[Str("data")] == Keyed(k, s) && Call(Keyed(text, s))[Str("data")] == Keyed(text, s);
  }

  lemma KeyedIsStorable(k: Value, s: string, site: Site)
    requires site.encodable("data") && site.encodable(s) && '\0' !in s && JsonKey(k) && !k.Str?
    ensures !HasUnstorableText(Keyed(k, s), site) && !HasUnstorableText(Dict(Call(Keyed(k, s))), site)
  {
    assert !HasUnstorableText(k, site) && !HasUnstorableText(Str(s), site);
    assert !HasUnstorableText(Keyed(k, s), site) && !HasUnstorableText(Str("data"), site);
  }

  lemma KeyedIsRefused(k: Value, s: string, site: Site)
    requires Lawful(site.py) && !k.Str? && !HasUnstorableText(Dict(Call(Keyed(k, s))), site)
    ensures Serialized(Call(Keyed(k, s)), true, site) == Err(NonStringKeysRefused)
  {
    CallIsWritten(Keyed(k, s), site);
    KeyedIsNotStringKeyed(k, s);
    IsRefused(Call(Keyed(k, s)), site);
  }

  lemma KeyedIsNotStringKeyed(k: Value, s: string)
    requires !k.Str?
    ensures !StringKeyed(Keyed(k, s)) && !StringKeyed(Dict(Call(Keyed(k, s))))
  {
    assert k in Keyed(k, s).entries;
    assert Str("data") in Call(Keyed(k, s)) && Call(Keyed(k, s))[Str("data")] == Keyed(k, s);
  }

  lemma IsRefused(call: map<Value, Value>, site: Site)
    requires Lawful(site.py) && REQUEST !in call && USER_ID !in call && Wire(call, site) == call
    requires !HasUnstorableText(Dict(call), site) && !StringKeyed(Dict(call))
    ensures Serialized(call, true, site) == Err(NonStringKeysRefused)
  {}
}
