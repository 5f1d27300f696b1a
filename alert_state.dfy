/**
 * Per-symbol alert state: the default record, the migration that fills the
 * fields an older stored state lacks, the load that falls back to the default
 * on any error, and the local-directory store (one JSON file per symbol).
 */
module AlertState {
  import opened Wrappers

  /** A decoded JSON document. Integers and floats stay apart, as `json` keeps them. */
  datatype Json =
    | JNull
    | JBool(b: bool)
    | JInt(i: int)
    | JFloat(f: real)
    | JString(s: string)
    | JArray(items: seq<Json>)
    | JObject(fields: map<string, Json>)

  /** The fields of the default record, in the order they are declared. */
  const DefaultKeys: seq<string> :=
    ["last_alert_ts", "last_price_z", "last_volume_z", "sideways_start_ts", "last_sideways_alert_ts", "was_sideways"]

  /** The default record: timestamps 0, z-scores 0.0, not sideways. */
  const DefaultState: map<string, Json> := map[
    "last_alert_ts" := JInt(0),
    "last_price_z" := JFloat(0.0),
    "last_volume_z" := JFloat(0.0),
    "sideways_start_ts" := JInt(0),
    "last_sideways_alert_ts" := JInt(0),
    "was_sideways" := JBool(false)
  ]

  /** The default record has exactly the six declared fields, each zero or false. */
  lemma DefaultStateFields()
    ensures |DefaultKeys| == 6
    ensures forall k :: k in DefaultState <==> k in DefaultKeys
    ensures forall k :: k in DefaultState ==> DefaultState[k] in {JInt(0), JFloat(0.0), JBool(false)}
  {
    assert forall k :: k in DefaultKeys ==> k in DefaultState by {
      forall k | k in DefaultKeys ensures k in DefaultState {
        var i :| 0 <= i < |DefaultKeys| && DefaultKeys[i] == k;
        assert i == 0 || i == 1 || i == 2 || i == 3 || i == 4 || i == 5;
      }
    }
    assert DefaultKeys[0] == "last_alert_ts";
    assert DefaultKeys[5] == "was_sideways";
  }

  /** The entries of `defaults` under `keys`, which must all be keys of `defaults`. */
  function Restrict(defaults: map<string, Json>, keys: seq<string>): (d: map<string, Json>)
    requires forall i :: 0 <= i < |keys| ==> keys[i] in defaults
    ensures forall k :: k in d <==> k in keys
    ensures forall k :: k in d ==> d[k] == defaults[k]
  {
    if keys == [] then map[]
    else
      var last := keys[|keys| - 1];
      Restrict(defaults, keys[..|keys| - 1])[last := defaults[last]]
  }

  /** One pass of the loop body on `d + loaded`: a key already present stays, a missing one gets `v`. */
  lemma MergeStep<K, V>(d: map<K, V>, loaded: map<K, V>, key: K, v: V)
    requires key in d ==> d[key] == v
    ensures key in d + loaded ==> d + loaded == d[key := v] + loaded
    ensures key !in d + loaded ==> (d + loaded)[key := v] == d[key := v] + loaded
  {
  }

  /**
   * The migration loop `for key in defaults: if key not in state: state[key] = defaults[key]`,
   * with `keys` the dict's keys in their order: the result is `defaults` overridden by `loaded`.
   */
  method FillMissing(defaults: map<string, Json>, keys: seq<string>, loaded: map<string, Json>) returns (state: map<string, Json>)
    requires forall i :: 0 <= i < |keys| ==> keys[i] in defaults
    requires forall k :: k in defaults ==> k in keys
    ensures state == defaults + loaded
  {
    state := loaded;
    assert Restrict(defaults, []) + loaded == loaded;
    for i := 0 to |keys|
      invariant state == Restrict(defaults, keys[..i]) + loaded
    {
      var key := keys[i];
      RestrictStep(defaults, keys, i);
      MergeStep(Restrict(defaults, keys[..i]), loaded, key, defaults[key]);
      if key !in state {
        state := state[key := defaults[key]];
      }
    }
    assert keys[..|keys|] == keys;
    RestrictAll(defaults, keys);
  }

  /** One more key extends the restriction by that key's entry. */
  lemma RestrictStep(defaults: map<string, Json>, keys: seq<string>, i: nat)
    requires i < |keys| && forall j :: 0 <= j < |keys| ==> keys[j] in defaults
    ensures Restrict(defaults, keys[..i + 1]) == Restrict(defaults, keys[..i])[keys[i] := defaults[keys[i]]]
  {
    assert keys[..i + 1][..i] == keys[..i];
  }

  /** Restricting to keys that cover the map gives the map. */
  lemma RestrictAll(defaults: map<string, Json>, keys: seq<string>)
    requires forall i :: 0 <= i < |keys| ==> keys[i] in defaults
    requires forall k :: k in defaults ==> k in keys
    ensures Restrict(defaults, keys) == defaults
  {
  }

  /** Every declared field has a default value, and every default is declared. */
  lemma DefaultKeysEnumerateDefaults()
    ensures forall i :: 0 <= i < |DefaultKeys| ==> DefaultKeys[i] in DefaultState
    ensures forall k :: k in DefaultState ==> k in DefaultKeys
  {
    DefaultStateFields();
  }

  /**
   * The migration of a decoded object: each default field the object lacks is
   * added with its default value; present fields, and fields outside the
   * defaults, are left as loaded.
   */
  method FillDefaults(loaded: map<string, Json>) returns (state: map<string, Json>)
    ensures state == DefaultState + loaded
    ensures forall k :: k in state <==> k in loaded || k in DefaultState
    ensures forall k :: k in loaded ==> state[k] == loaded[k]
    ensures forall k :: k in DefaultState && k !in loaded ==> state[k] == DefaultState[k]
  {
    DefaultKeysEnumerateDefaults();
    state := FillMissing(DefaultState, DefaultKeys, loaded);
  }

  /** `key in s` on two strings: a substring test. */
  predicate Contains(s: string, key: string) {
    key <= s || (s != [] && Contains(s[1..], key))
  }

  /**
   * A list or a string survives the migration loop only when every default key
   * is in it (as an element, or as a substring); the first key missing from it
   * makes `state[key] = ...` raise.
   */
  predicate HoldsAllKeys(doc: Json) {
    match doc
    case JArray(items) => forall i :: 0 <= i < |DefaultKeys| ==> JString(DefaultKeys[i]) in items
    case JString(s) => forall i :: 0 <= i < |DefaultKeys| ==> Contains(s, DefaultKeys[i])
    case _ => false
  }

  /** What is found under the symbol's key or file. */
  datatype Stored =
    | Absent           // no such key, or no such file
    | Unreadable       // any other read error, or text that is not JSON
    | Found(doc: Json)

  /** `get_alert_state`: the migrated document, or the default record whenever anything raises. */
  function LoadedState(stored: Stored): (state: Json)
    ensures stored.Found? && stored.doc.JObject? ==> state == JObject(DefaultState + stored.doc.fields)
    ensures !stored.Found? ==> state == JObject(DefaultState)
  {
    match stored
    case Found(JObject(fields)) => JObject(DefaultState + fields)
    case Found(doc) => if HoldsAllKeys(doc) then doc else JObject(DefaultState)
    case _ => JObject(DefaultState)
  }

  /** `get_alert_state` on what the store returned. */
  method GetAlertState(stored: Stored) returns (state: Json)
    ensures state == LoadedState(stored)
  {
    if stored.Found? {
      var doc := stored.doc;
      if doc.JObject? {
        var fields := FillDefaults(doc.fields);
        return JObject(fields);
      }
      if HoldsAllKeys(doc) {
        return doc;
      }
    }
    return JObject(DefaultState);
  }

  /** Whatever was stored, the loaded state is an object holding every default field, unless it is a list or string naming them all. */
  lemma LoadedStateHasDefaults(stored: Stored)
    ensures LoadedState(stored).JObject? || HoldsAllKeys(LoadedState(stored))
    ensures LoadedState(stored).JObject? ==> forall k :: k in DefaultState ==> k in LoadedState(stored).fields
  {
  }

  /** A scalar document (a number, a boolean, null) makes the migration raise: the default record. */
  lemma ScalarDocumentGivesDefault(doc: Json)
    requires doc.JNull? || doc.JBool? || doc.JInt? || doc.JFloat?
    ensures LoadedState(Found(doc)) == JObject(DefaultState)
  {
  }

  /** Migrating an already migrated object changes nothing. */
  lemma MigrationIdempotent(fields: map<string, Json>)
    ensures LoadedState(Found(LoadedState(Found(JObject(fields))))) == LoadedState(Found(JObject(fields)))
  {
    var once := DefaultState + fields;
    assert DefaultState + once == once;
  }

  /** A list lacking some default key makes the migration raise (item assignment on a list): the default record. */
  lemma ListWithoutKeysGivesDefault(items: seq<Json>, i: nat)
    requires i < |DefaultKeys| && JString(DefaultKeys[i]) !in items
    ensures LoadedState(Found(JArray(items))) == JObject(DefaultState)
  {
  }

  /** A string lacking some default key as a substring makes the migration raise (item assignment on a string): the default record. */
  lemma StringWithoutKeysGivesDefault(s: string, i: nat)
    requires i < |DefaultKeys| && !Contains(s, DefaultKeys[i])
    ensures LoadedState(Found(JString(s))) == JObject(DefaultState)
  {
  }

  /** A list lacking `last_price_z` (it holds only `last_alert_ts`) reads as the default record. */
  lemma ListWithoutKeysExample()
    ensures LoadedState(Found(JArray([JString("last_alert_ts")]))) == JObject(DefaultState)
  {
    var items := [JString("last_alert_ts")];
    assert JString(DefaultKeys[1]) !in items;
    ListWithoutKeysGivesDefault(items, 1);
  }

  /** The local state directory: file contents by symbol, `None` for a file whose text is not JSON. */
  class LocalStateDir {
    var files: map<string, Option<Json>>

    constructor()
      ensures files == map[]
    {
      files := map[];
    }

    /** What `get_alert_state` finds for `symbol`. */
    function Lookup(symbol: string): (stored: Stored)
      reads this
      ensures symbol !in files ==> stored == Absent
      ensures symbol in files && files[symbol].None? ==> stored == Unreadable
      ensures symbol in files && files[symbol].Some? ==> stored == Found(files[symbol].value)
    {
      if symbol !in files then Absent
      else if files[symbol].None? then Unreadable
      else Found(files[symbol].value)
    }

    /** `save_alert_state` in local mode: the file for `symbol` holds `state` as JSON; no other file changes (files are keyed by the symbol string). */
    method Save(symbol: string, state: map<string, Json>)
      modifies this
      ensures files == old(files)[symbol := Some(JObject(state))]
      ensures Lookup(symbol) == Found(JObject(state))
      ensures forall t :: t != symbol ==> Lookup(t) == old(Lookup(t))
    {
      files := files[symbol := Some(JObject(state))];
    }

    /** `get_alert_state` in local mode. */
    method Get(symbol: string) returns (state: Json)
      ensures state == LoadedState(Lookup(symbol))
    {
      state := GetAlertState(Lookup(symbol));
    }

    /** Getting after saving returns the saved state extended with the missing defaults. */
    method SaveThenGet(symbol: string, saved: map<string, Json>) returns (state: Json)
      modifies this
      ensures state == JObject(DefaultState + saved)
      ensures files == old(files)[symbol := Some(JObject(saved))]
    {
      Save(symbol, saved);
      state := Get(symbol);
    }
  }
}
