/** `serialize_kwargs` at enqueue and `deserialize_kwargs` in the worker. */
module Kwargs {
  import opened Wrappers
  import opened Codec
  import opened JsonColumn

  datatype Error =
    | RequestRefused
    | UserIdRefused
    | UnstorableText
    | NonStringKeysRefused
    | NotJson
    | NotADict

  /** The process the code runs in: Python itself, `str`, which texts have a
      UTF-8 form, and the user table the worker reads. */
  datatype Site = Site(
    py: Python,
    str: Value -> string,
    encodable: string -> bool,
    users: Value -> Option<Value>)

  const REQUEST := Str("request")
  const USER := Str("user")
  const USER_ID := Str("user_id")
  const CONTEXT := Str("context")
  const OWNER := Str("owning_process_class")
  const CONTEXT_KEYS := [Str("tr_id"), Str("root_id"), Str("parent_id")]

  function PkOf(user: Value): Value {
    if user.Object? then user.pk else Null
  }

  /** A text PostgreSQL's jsonb rejects occurs somewhere in `v`, keys included. */
  predicate HasUnstorableText(v: Value, site: Site) {
    match v
    case Str(s) => '\0' in s || !site.encodable(s)
    case List(items) => exists i :: 0 <= i < |items| && HasUnstorableText(items[i], site)
    case Tuple(items) => exists i :: 0 <= i < |items| && HasUnstorableText(items[i], site)
    case Set(elems) => exists x :: x in elems && HasUnstorableText(x, site)
    case FrozenSet(elems) => exists x :: x in elems && HasUnstorableText(x, site)
    case Dict(m) => exists k :: k in m && (HasUnstorableText(k, site) || HasUnstorableText(m[k], site))
    case _ => false
  }

  /** The first `n` context keys replaced by their text. */
  function Stringified(m: map<Value, Value>, n: nat, site: Site): map<Value, Value>
    requires n <= |CONTEXT_KEYS|
  {
    map k | k in m :: if k in CONTEXT_KEYS[..n] && m[k] != Null then Str(site.str(m[k])) else m[k]
  }

  function CallerData(kwargs: map<Value, Value>): map<Value, Value> {
    kwargs - {REQUEST, USER_ID, CONTEXT, OWNER, USER}
  }

  /** What is written, before encoding. */
  function Wire(kwargs: map<Value, Value>, site: Site): map<Value, Value> {
    var pk := if USER in kwargs then PkOf(kwargs[USER]) else Null;
    Stringified(if pk == Null then CallerData(kwargs) else CallerData(kwargs)[USER_ID := pk], |CONTEXT_KEYS|, site)
  }

  /** The checks made on the trimmed kwargs, and the encoding of what passes. */
  function Checked(out: Value, strict: bool, site: Site): Result<Value, Error>
    requires Lawful(site.py)
  {
    if HasUnstorableText(out, site) then Err(UnstorableText)
    else if strict && !StringKeyed(out) then Err(NonStringKeysRefused)
    else if !Jsonable(Encode(out, site.py)) then Err(NotJson)
    else Ok(Encode(out, site.py))
  }

  function Serialized(kwargs: map<Value, Value>, strict: bool, site: Site): Result<Value, Error>
    requires Lawful(site.py)
  {
    if strict && REQUEST in kwargs then Err(RequestRefused)
    else if strict && USER_ID in kwargs then Err(UserIdRefused)
    else Checked(Dict(Wire(kwargs, site)), strict, site)
  }

  method SerializeKwargs(kwargs: map<Value, Value>, strict: bool, site: Site) returns (r: Result<Value, Error>)
    requires Lawful(site.py)
    ensures r == Serialized(kwargs, strict, site)
  {
    var out := kwargs;
    if REQUEST in out {
      out := out - {REQUEST};
      if strict { return Err(RequestRefused); }
    }
    if USER_ID in out {
      out := out - {USER_ID};
      if strict { return Err(UserIdRefused); }
    }
    out := out - {CONTEXT};
    out := out - {OWNER};
    out := ReplaceUser(out, kwargs);
    out := StringifyContext(out, site);
    r := Checked(Dict(out), strict, site);
  }

  method ReplaceUser(kwargs: map<Value, Value>, ghost original: map<Value, Value>) returns (out: map<Value, Value>)
    requires kwargs == original - {REQUEST, USER_ID, CONTEXT, OWNER}
    ensures var pk := if USER in original then PkOf(original[USER]) else Null;
            out == if pk == Null then CallerData(original) else CallerData(original)[USER_ID := pk]
  {
    var user := if USER in kwargs then kwargs[USER] else Null;
    out := kwargs - {USER};
    assert out == CallerData(original);
    if user != Null && PkOf(user) != Null {
      out := out[USER_ID := PkOf(user)];
    }
  }

  method StringifyContext(kwargs: map<Value, Value>, site: Site) returns (out: map<Value, Value>)
    ensures out == Stringified(kwargs, |CONTEXT_KEYS|, site)
  {
    out := kwargs;
    for n := 0 to |CONTEXT_KEYS|
      invariant out == Stringified(kwargs, n, site)
    {
      var key := CONTEXT_KEYS[n];
      assert forall k :: k in CONTEXT_KEYS[..n + 1] <==> k in CONTEXT_KEYS[..n] || k == key;
      if key in out && out[key] != Null {
        out := out[key := Str(site.str(out[key]))];
      }
    }
  }

  function Deserialized(raw: Value, site: Site): Result<map<Value, Value>, Error> {
    var v := Decode(raw, site.py);
    if v.Dict? then Ok(UserRestored(v.entries, site)) else Err(NotADict)
  }

  function UserRestored(m: map<Value, Value>, site: Site): map<Value, Value> {
    if USER_ID !in m then m
    else if m[USER_ID] == Null then m - {USER_ID}
    else (m - {USER_ID})[USER := match site.users(m[USER_ID]) case Some(u) => u case None => Null]
  }

  method RestoreUser(kwargs: map<Value, Value>, site: Site) returns (out: map<Value, Value>)
    ensures out == UserRestored(kwargs, site)
  {
    out := kwargs;
    var userId := if USER_ID in out then out[USER_ID] else Null;
    out := out - {USER_ID};
    if userId == Null { return; }
    match site.users(userId)
    case Some(u) => out := out[USER := u];
    case None => out := out[USER := Null];
  }

  /** What a worker hook receives for the kwargs the caller passed: the dropped
      keys gone, the context ids as text, the user re-read by primary key (Null
      when deleted, absent when it had none), everything else unchanged. */
  function NormalForm(kwargs: map<Value, Value>, site: Site): map<Value, Value> {
    var kept := Stringified(CallerData(kwargs), |CONTEXT_KEYS|, site);
    if USER !in kwargs || PkOf(kwargs[USER]) == Null then kept
    else kept[USER := match site.users(PkOf(kwargs[USER])) case Some(u) => u case None => Null]
  }

  /** A call as Python makes it: keyword names are strings, and the user's
      primary key survives the column. */
  predicate IsCall(kwargs: map<Value, Value>, site: Site) {
    && WellFormed(Dict(kwargs))
    && (forall k :: k in kwargs ==> k.Str?)
    && (USER in kwargs ==> Faithful(PkOf(kwargs[USER]), site.py))
  }

  /** What enqueue accepts reaches the worker in normal form, through the
      encoding, the JSON column and the decoding, exactly when every dict that
      is written has string keys and no float is written that the column gives
      back as an integer. */
  lemma KwargsRoundTrip(kwargs: map<Value, Value>, strict: bool, site: Site)
    requires Lawful(site.py) && IsCall(kwargs, site)
    requires Serialized(kwargs, strict, site).Ok?
    ensures Deserialized(Stored(Serialized(kwargs, strict, site).value, site.py), site) == Ok(NormalForm(kwargs, site))
            <==> Faithful(Dict(Wire(kwargs, site)), site.py)
  {
    var wire := Wire(kwargs, site);
    WireIsWellFormed(kwargs, site);
    UserRestoredFromWire(kwargs, site);
    TripIsFaithfulIff(Dict(wire), site.py);
    KwargsTrip(wire, site);
  }

  /** Restoring the user hides nothing the column changed. */
  lemma KwargsTrip(wire: map<Value, Value>, site: Site)
    requires Lawful(site.py) && WellFormed(Dict(wire)) && Jsonable(Encode(Dict(wire), site.py))
    requires forall k :: k in wire ==> k.Str? && k != USER
    requires USER_ID in wire ==> Faithful(wire[USER_ID], site.py)
    ensures var back := Trip(Dict(wire), site.py);
            back.Dict? && (UserRestored(back.entries, site) == UserRestored(wire, site) <==> back.entries == wire)
  {
    TripOfStringDict(Dict(wire), wire, site.py);
    var back := Trip(Dict(wire), site.py).entries;
    if USER_ID in wire {
      TripIsFaithfulIff(wire[USER_ID], site.py);
    }
    RestoreReflectsEquality(back, wire, site);
  }

  lemma RestoreReflectsEquality(m: map<Value, Value>, n: map<Value, Value>, site: Site)
    requires m.Keys == n.Keys && USER !in n
    requires USER_ID in n ==> m[USER_ID] == n[USER_ID]
    ensures UserRestored(m, site) == UserRestored(n, site) <==> m == n
  {
    if UserRestored(m, site) == UserRestored(n, site) {
      forall k | k in n ensures m[k] == n[k] {
        if k != USER_ID { assert UserRestored(m, site)[k] == UserRestored(n, site)[k]; }
      }
    }
  }

  lemma WireIsWellFormed(kwargs: map<Value, Value>, site: Site)
    requires WellFormed(Dict(kwargs))
    ensures WellFormed(Dict(Wire(kwargs, site)))
  {
    var wire := Wire(kwargs, site);
    forall k | k in wire ensures Hashable(k) && WellFormed(wire[k]) {
      if k in kwargs { assert Hashable(k) && WellFormed(kwargs[k]); }
      if USER in kwargs { assert WellFormed(kwargs[USER]); }
    }
  }

  lemma UserRestoredFromWire(kwargs: map<Value, Value>, site: Site)
    ensures UserRestored(Wire(kwargs, site), site) == NormalForm(kwargs, site)
  {
    var restored, normal := UserRestored(Wire(kwargs, site), site), NormalForm(kwargs, site);
    assert restored.Keys == normal.Keys;
    forall k | k in normal ensures restored[k] == normal[k] {}
    assert restored == normal;
  }

  /** In strict mode acceptance leaves one reservation: the round trip fails
      exactly for kwargs with a float that the column gives back as an integer. */
  lemma StrictKwargsRoundTrip(kwargs: map<Value, Value>, site: Site)
    requires Lawful(site.py) && IsCall(kwargs, site)
    requires Serialized(kwargs, true, site).Ok?
    ensures Deserialized(Stored(Serialized(kwargs, true, site).value, site.py), site) == Ok(NormalForm(kwargs, site))
            <==> Unrewritten(Dict(Wire(kwargs, site)), site.py)
    ensures REQUEST !in kwargs && USER_ID !in kwargs
  {
    KwargsRoundTrip(kwargs, true, site);
  }
}
