/**
 * The state store: the synchronizer's checkpoints (`deltas_cursor`, `initial_sync_complete`,
 * `initial_sync_cursor`) kept as settings of a key-value configuration service under a
 * per-stream key prefix, and a general configuration manager over the same service.
 */
module Configuration {
  import opened Wrappers
  import opened Errors
  import opened Sets

  /** A setting's value; the service can hold a setting whose value is null. */
  type Value = Option<string>

  /**
   * The configuration service's contents: its settings, the keys it currently cannot serve
   * (reading or writing them raises AzureError), and every successful write in order.
   */
  datatype Store = Store(settings: map<string, Value>, unavailable: set<string>, revisions: seq<(string, Value)>)

  /** `get_configuration_setting`. */
  function Lookup(s: Store, key: string): Result<Value, Error> {
    if key in s.unavailable then Failure(AzureError)
    else if key !in s.settings then Failure(ResourceNotFoundError(key))
    else Success(s.settings[key])
  }

  /** `set_configuration_setting`: the new store, or the error with nothing written. */
  function Assign(s: Store, key: string, value: Value): Result<Store, Error> {
    if key in s.unavailable then Failure(AzureError)
    else Success(Store(s.settings[key := value], s.unavailable, s.revisions + [(key, value)]))
  }

  /** `list_configuration_settings`: all settings, unless part of the store cannot be read. */
  function Listed(s: Store): Result<map<string, Value>, Error> {
    if s.unavailable != {} then Failure(AzureError) else Success(s.settings)
  }

  /** The configuration service client, with the store as its state. */
  class AppConfigurationClient {
    var settings: map<string, Value>
    var unavailable: set<string>
    var revisions: seq<(string, Value)>

    function Snapshot(): Store
      reads this
    {
      Store(settings, unavailable, revisions)
    }

    constructor(store: Store)
      ensures Snapshot() == store
    {
      settings := store.settings;
      unavailable := store.unavailable;
      revisions := store.revisions;
    }

    method GetConfigurationSetting(key: string) returns (r: Result<Value, Error>)
      ensures r == Lookup(Snapshot(), key)
    {
      if key in unavailable {
        return Failure(AzureError);
      }
      if key !in settings {
        return Failure(ResourceNotFoundError(key));
      }
      return Success(settings[key]);
    }

    method SetConfigurationSetting(key: string, value: Value) returns (err: Option<Error>)
      modifies this
      ensures var a := Assign(old(Snapshot()), key, value);
        (a.Success? ==> Snapshot() == a.value && err == None)
        && (a.Failure? ==> Snapshot() == old(Snapshot()) && err == Some(a.error))
    {
      if key in unavailable {
        return Some(AzureError);
      }
      settings := settings[key := value];
      revisions := revisions + [(key, value)];
      return None;
    }

    method ListConfigurationSettings() returns (r: Result<map<string, Value>, Error>)
      ensures r == Listed(Snapshot())
    {
      if unavailable != {} {
        return Failure(AzureError);
      }
      return Success(settings);
    }
  }

  /* ---------- SynchronizerStateManager ---------- */

  const DeltasCursorKey := "deltas_cursor"
  const InitialSyncCompleteKey := "initial_sync_complete"
  const InitialSyncCursorKey := "initial_sync_cursor"

  /** `_get_state` on the full key: a missing setting reads as `None`, any other failure raises. */
  function ReadState(s: Store, key: string): (r: Result<Value, Error>)
    ensures r.Failure? <==> key in s.unavailable
    ensures r.Failure? ==> r.error == AzureError
    ensures r.Success? ==> r.value == (if key in s.settings then s.settings[key] else None)
  {
    match Lookup(s, key)
    case Success(v) => Success(v)
    case Failure(e) => if e.ResourceNotFoundError? then Success(None) else Failure(e)
  }

  /** The stored form of `initial_sync_complete`. */
  function CompleteValue(completes: bool): Value {
    Some(if completes then "true" else "false")
  }

  /** The flag is set only by the exact string "true"; anything else, a missing setting included, reads as false. */
  predicate IsComplete(v: Value) {
    v == Some("true")
  }

  /**
   * Writing a checkpoint succeeds exactly when its key is available; afterwards it reads back
   * as written and every other key reads as before.
   */
  lemma ReadAfterWrite(s: Store, key: string, value: Value, other: string)
    ensures Assign(s, key, value).Success? <==> key !in s.unavailable
    ensures Assign(s, key, value).Success? ==> ReadState(Assign(s, key, value).value, key) == Success(value)
    ensures Assign(s, key, value).Success? && other != key ==>
      ReadState(Assign(s, key, value).value, other) == ReadState(s, other)
    ensures Assign(s, key, value).Failure? ==> Assign(s, key, value).error == AzureError
  {
  }

  /** The boolean flag round-trips through its stored form. */
  lemma CompleteRoundTrip(completes: bool)
    ensures IsComplete(CompleteValue(completes)) == completes
  {
    if !completes {
      assert "false" != "true" by {
        assert "false"[0] != "true"[0];
      }
    }
  }

  /**
   * The three checkpoints are independent: saving one under the prefix reads back as saved
   * and leaves the other two as they were.
   */
  lemma CheckpointsIndependent(s: Store, prefix: string, key: string, other: string, value: Value)
    requires key in {DeltasCursorKey, InitialSyncCompleteKey, InitialSyncCursorKey}
    requires other in {DeltasCursorKey, InitialSyncCompleteKey, InitialSyncCursorKey}
    requires key != other
    ensures var a := Assign(s, prefix + key, value);
      a.Success? ==>
        ReadState(a.value, prefix + key) == Success(value)
        && ReadState(a.value, prefix + other) == ReadState(s, prefix + other)
  {
    assert |prefix + key| != |prefix + other|;
    ReadAfterWrite(s, prefix + key, value, prefix + other);
  }

  class SynchronizerStateManager {
    const client: AppConfigurationClient
    const prefix: string

    constructor(client: AppConfigurationClient, prefix: string)
      ensures this.client == client && this.prefix == prefix
    {
      this.client := client;
      this.prefix := prefix;
    }

    method GetState(key: string) returns (r: Result<Value, Error>)
      ensures r == ReadState(client.Snapshot(), prefix + key)
    {
      var setting := client.GetConfigurationSetting(prefix + key);
      if setting.Failure? {
        if setting.error.ResourceNotFoundError? {
          return Success(None);
        }
        return Failure(setting.error);
      }
      return Success(setting.value);
    }

    method SaveState(key: string, value: Value) returns (err: Option<Error>)
      modifies client
      ensures var a := Assign(old(client.Snapshot()), prefix + key, value);
        (a.Success? ==> client.Snapshot() == a.value && err == None)
        && (a.Failure? ==> client.Snapshot() == old(client.Snapshot()) && err == Some(a.error))
    {
      err := client.SetConfigurationSetting(prefix + key, value);
    }

    method GetDeltasCursor() returns (r: Result<Value, Error>)
      ensures r == ReadState(client.Snapshot(), prefix + DeltasCursorKey)
    {
      r := GetState(DeltasCursorKey);
    }

    method SetDeltasCursor(cursor: Value) returns (err: Option<Error>)
      modifies client
      ensures var a := Assign(old(client.Snapshot()), prefix + DeltasCursorKey, cursor);
        (a.Success? ==> client.Snapshot() == a.value && err == None)
        && (a.Failure? ==> client.Snapshot() == old(client.Snapshot()) && err == Some(a.error))
    {
      err := SaveState(DeltasCursorKey, cursor);
    }

    method GetInitialSyncComplete() returns (r: Result<bool, Error>)
      ensures var v := ReadState(client.Snapshot(), prefix + InitialSyncCompleteKey);
        (v.Success? ==> r == Success(IsComplete(v.value))) && (v.Failure? ==> r == Failure(v.error))
    {
      var v := GetState(InitialSyncCompleteKey);
      if v.Failure? {
        return Failure(v.error);
      }
      return Success(v.value == Some("true"));
    }

    method SetInitialSyncComplete(completes: bool) returns (err: Option<Error>)
      modifies client
      ensures var a := Assign(old(client.Snapshot()), prefix + InitialSyncCompleteKey, CompleteValue(completes));
        (a.Success? ==> client.Snapshot() == a.value && err == None)
        && (a.Failure? ==> client.Snapshot() == old(client.Snapshot()) && err == Some(a.error))
    {
      err := SaveState(InitialSyncCompleteKey, Some(if completes then "true" else "false"));
    }

    method GetInitialSyncCursor() returns (r: Result<Value, Error>)
      ensures r == ReadState(client.Snapshot(), prefix + InitialSyncCursorKey)
    {
      r := GetState(InitialSyncCursorKey);
    }

    method SetInitialSyncCursor(cursor: Value) returns (err: Option<Error>)
      modifies client
      ensures var a := Assign(old(client.Snapshot()), prefix + InitialSyncCursorKey, cursor);
        (a.Success? ==> client.Snapshot() == a.value && err == None)
        && (a.Failure? ==> client.Snapshot() == old(client.Snapshot()) && err == Some(a.error))
    {
      err := SaveState(InitialSyncCursorKey, cursor);
    }
  }

  /* ---------- ConfigurationManager ---------- */

  /** The names `__getattr__` and `__setattr__` pass to the object itself. */
  const Reserved: set<string> := {"client", "settings", "prefix"}

  /** `load`'s comprehension: the settings under the prefix, with the prefix cut off their keys. */
  function Loaded(stored: map<string, Value>, prefix: string): (m: map<string, Value>)
    ensures forall k :: k in m <==> prefix + k in stored
    ensures forall k :: k in m ==> m[k] == stored[prefix + k]
  {
    var names := set key | key in stored && prefix <= key :: key[|prefix|..];
    assert forall k :: k in names <==> prefix + k in stored by {
      forall k
        ensures k in names <==> prefix + k in stored
      {
        if prefix + k in stored {
          assert (prefix + k)[|prefix|..] == k;
        }
        if k in names {
          var key :| key in stored && prefix <= key && key[|prefix|..] == k;
          assert key == prefix + k;
        }
      }
    }
    map k | k in names :: stored[prefix + k]
  }

  /** `__getattr__`'s fallback: reserved names raise, any other name reads its setting or `None`. */
  function Attribute(settings: map<string, Value>, name: string): (r: Result<Value, Error>)
    ensures r.Failure? <==> name in Reserved
    ensures r.Success? ==> (name in settings ==> r.value == settings[name]) && (name !in settings ==> r.value == None)
  {
    if name in Reserved then Failure(AttributeError)
    else if name in settings then Success(settings[name])
    else Success(None)
  }

  /**
   * `save` writes the settings one by one in iteration order `order`, under the prefix; the
   * first write that fails ends the loop, its error swallowed, with the earlier writes kept.
   */
  function SaveAll(s: Store, prefix: string, settings: map<string, Value>, order: seq<string>): Store
    requires forall i :: 0 <= i < |order| ==> order[i] in settings
    decreases |order|
  {
    if order == [] then s
    else
      match Assign(s, prefix + order[0], settings[order[0]])
      case Failure(_) => s
      case Success(s') => SaveAll(s', prefix, settings, order[1..])
  }

  /** The writes of keys order[..n], in order. */
  function WritesOf(prefix: string, settings: map<string, Value>, order: seq<string>, n: nat): (ws: seq<(string, Value)>)
    requires n <= |order| && forall i :: 0 <= i < |order| ==> order[i] in settings
    ensures |ws| == n
    ensures forall j :: 0 <= j < n ==> ws[j] == (prefix + order[j], settings[order[j]])
  {
    if n == 0 then [] else WritesOf(prefix, settings, order, n - 1) + [(prefix + order[n - 1], settings[order[n - 1]])]
  }

  /** The first position of order whose key cannot be written, or |order|. */
  function FirstUnwritable(s: Store, prefix: string, order: seq<string>): (n: nat)
    ensures n <= |order|
    ensures forall j :: 0 <= j < n ==> prefix + order[j] !in s.unavailable
    ensures n < |order| ==> prefix + order[n] in s.unavailable
  {
    if order == [] || prefix + order[0] in s.unavailable then 0
    else 1 + FirstUnwritable(s, prefix, order[1..])
  }

  /**
   * `save` is not atomic: exactly the keys before the first unwritable one are written, in
   * iteration order, and nothing else in the store changes: a written key holds its setting's
   * value and every other key keeps its own.
   */
  lemma SaveStopsAtFirstFailure(s: Store, prefix: string, settings: map<string, Value>, order: seq<string>)
    requires forall i :: 0 <= i < |order| ==> order[i] in settings
    ensures var n := FirstUnwritable(s, prefix, order);
      var s' := SaveAll(s, prefix, settings, order);
      s'.revisions == s.revisions + WritesOf(prefix, settings, order, n)
      && s'.unavailable == s.unavailable
      && (forall key :: key in s'.settings <==> key in s.settings || exists j :: 0 <= j < n && key == prefix + order[j])
      && (forall j :: 0 <= j < n ==> s'.settings[prefix + order[j]] == settings[order[j]])
      && (forall key :: key in s.settings && (forall j :: 0 <= j < n ==> key != prefix + order[j]) ==> s'.settings[key] == s.settings[key])
  {
    SaveWrites(s, prefix, settings, order);
    SaveAllValues(s, prefix, settings, order);
  }

  /** The write log and the key set `save` leaves. */
  lemma {:induction false} SaveWrites(s: Store, prefix: string, settings: map<string, Value>, order: seq<string>)
    requires forall i :: 0 <= i < |order| ==> order[i] in settings
    ensures var n := FirstUnwritable(s, prefix, order);
      var s' := SaveAll(s, prefix, settings, order);
      s'.revisions == s.revisions + WritesOf(prefix, settings, order, n)
      && s'.unavailable == s.unavailable
      && (forall key :: key in s'.settings <==> key in s.settings || exists j :: 0 <= j < n && key == prefix + order[j])
    decreases |order|
  {
    if order != [] && prefix + order[0] !in s.unavailable {
      var s1 := Assign(s, prefix + order[0], settings[order[0]]).value;
      SaveWrites(s1, prefix, settings, order[1..]);
      var n := FirstUnwritable(s, prefix, order);
      assert FirstUnwritable(s1, prefix, order[1..]) == n - 1;
      var ws := WritesOf(prefix, settings, order, n);
      var ws' := WritesOf(prefix, settings, order[1..], n - 1);
      assert ws == [(prefix + order[0], settings[order[0]])] + ws';
      forall key
        ensures (key in s.settings || key == prefix + order[0] || exists j :: 0 <= j < n - 1 && key == prefix + order[1..][j])
          <==> (key in s.settings || exists j :: 0 <= j < n && key == prefix + order[j])
      {
        if j :| 0 <= j < n && key == prefix + order[j] {
          if j > 0 {
            assert key == prefix + order[1..][j - 1];
          }
        }
        if j :| 0 <= j < n - 1 && key == prefix + order[1..][j] {
          assert key == prefix + order[j + 1];
        }
      }
    }
  }

  /**
   * The values `save` leaves: a written key reads the value of its setting, and a key it did not
   * write keeps its value.
   */
  lemma {:induction false} SaveAllValues(s: Store, prefix: string, settings: map<string, Value>, order: seq<string>)
    requires forall i :: 0 <= i < |order| ==> order[i] in settings
    ensures var n := FirstUnwritable(s, prefix, order);
      var s' := SaveAll(s, prefix, settings, order);
      (forall key :: key in s.settings && (forall j :: 0 <= j < n ==> key != prefix + order[j]) ==> key in s'.settings && s'.settings[key] == s.settings[key])
      && (forall j :: 0 <= j < n ==> prefix + order[j] in s'.settings && s'.settings[prefix + order[j]] == settings[order[j]])
    decreases |order|
  {
    if order != [] && prefix + order[0] !in s.unavailable {
      var s1 := Assign(s, prefix + order[0], settings[order[0]]).value;
      var rest := order[1..];
      SaveAllValues(s1, prefix, settings, rest);
      var n := FirstUnwritable(s, prefix, order);
      assert FirstUnwritable(s1, prefix, rest) == n - 1;
      var s' := SaveAll(s, prefix, settings, order);
      assert s' == SaveAll(s1, prefix, settings, rest);
      forall key | key in s.settings && (forall j :: 0 <= j < n ==> key != prefix + order[j])
        ensures key in s'.settings && s'.settings[key] == s.settings[key]
      {
        assert key != prefix + order[0];
        forall j | 0 <= j < n - 1
          ensures key != prefix + rest[j]
        {
          assert rest[j] == order[j + 1];
        }
      }
      forall j | 0 <= j < n
        ensures prefix + order[j] in s'.settings && s'.settings[prefix + order[j]] == settings[order[j]]
      {
        if j > 0 {
          assert order[j] == rest[j - 1];
        } else if i :| 0 <= i < n - 1 && prefix + rest[i] == prefix + order[0] {
          PrefixCancels(prefix, rest[i], order[0]);
        } else {
          assert forall i :: 0 <= i < n - 1 ==> prefix + order[0] != prefix + rest[i];
        }
      }
    }
  }

  lemma PrefixCancels(prefix: string, a: string, b: string)
    requires prefix + a == prefix + b
    ensures a == b
  {
    assert a == (prefix + a)[|prefix|..];
    assert b == (prefix + b)[|prefix|..];
  }

  /**
   * When every key can be written, the saved values do not depend on the iteration order:
   * each setting is stored under its prefixed key, and every other key keeps its value.
   */
  lemma {:induction false} SaveAllWritesEverySetting(s: Store, prefix: string, settings: map<string, Value>, order: seq<string>, key: string)
    requires forall i :: 0 <= i < |order| ==> order[i] in settings && prefix + order[i] !in s.unavailable
    ensures var s' := SaveAll(s, prefix, settings, order);
      ((exists i :: 0 <= i < |order| && key == prefix + order[i]) ==>
         key in s'.settings && exists k :: k in settings && key == prefix + k && s'.settings[key] == settings[k])
      && (!(exists i :: 0 <= i < |order| && key == prefix + order[i]) ==>
         (key in s'.settings <==> key in s.settings) && (key in s.settings ==> s'.settings[key] == s.settings[key]))
    decreases |order|
  {
    if order != [] {
      var s1 := Assign(s, prefix + order[0], settings[order[0]]).value;
      SaveAllWritesEverySetting(s1, prefix, settings, order[1..], key);
      if i :| 0 <= i < |order[1..]| && key == prefix + order[1..][i] {
        assert key == prefix + order[i + 1];
      }
      if i :| 0 <= i < |order| && key == prefix + order[i] {
        if i > 0 {
          assert key == prefix + order[1..][i - 1];
        }
      }
    }
  }

  class ConfigurationManager {
    const client: AppConfigurationClient
    var settings: map<string, Value>
    const prefix: string

    constructor(client: AppConfigurationClient, prefix: string := "")
      ensures this.client == client && this.prefix == prefix && settings == map[]
    {
      this.client := client;
      settings := map[];
      this.prefix := prefix;
    }

    /** A listing failure is swallowed and leaves the loaded settings as they were. */
    method Load()
      modifies this
      ensures var l := Listed(client.Snapshot());
        (l.Success? ==> settings == Loaded(l.value, prefix)) && (l.Failure? ==> settings == old(settings))
    {
      var fetched := client.ListConfigurationSettings();
      if fetched.Success? {
        settings := Loaded(fetched.value, prefix);
      }
    }

    /** The keys are visited in the dict's iteration order, which the model leaves open as `order`. */
    method Save() returns (ghost order: seq<string>)
      modifies client
      ensures |order| == |settings| && Distinct(order) && forall k :: k in settings <==> k in order
      ensures client.Snapshot() == SaveAll(old(client.Snapshot()), prefix, settings, order)
    {
      var keys := ListOf(settings.Keys);
      assert |settings.Keys| == |settings|;
      order := keys;
      var i := 0;
      while i < |keys|
        invariant 0 <= i <= |keys|
        invariant SaveAll(old(client.Snapshot()), prefix, settings, keys) == SaveAll(client.Snapshot(), prefix, settings, keys[i..])
        decreases |keys| - i
      {
        var err := client.SetConfigurationSetting(prefix + keys[i], settings[keys[i]]);
        if err.Some? {
          return;
        }
        assert keys[i..][1..] == keys[i + 1..];
        i := i + 1;
      }
    }

    function GetAttr(name: string): (r: Result<Value, Error>)
      reads this
      ensures r.Failure? <==> name in Reserved
      ensures r.Success? ==> r.value == if name in settings then settings[name] else None
    {
      Attribute(settings, name)
    }

    method SetAttr(name: string, value: Value)
      requires name !in Reserved
      modifies this
      ensures settings == old(settings)[name := value]
    {
      settings := settings[name := value];
    }
  }

  /** A setting assigned by attribute reads back by attribute; other names are unaffected. */
  lemma AttributeRoundTrip(settings: map<string, Value>, name: string, value: Value, other: string)
    requires name !in Reserved
    ensures Attribute(settings[name := value], name) == Success(value)
    ensures other != name ==> Attribute(settings[name := value], other) == Attribute(settings, other)
  {
  }

  /**
   * Saving then loading gives the settings back: once every prefixed key is written, a load
   * under the same prefix finds each setting under its own name.
   */
  lemma SaveThenLoad(s: Store, prefix: string, settings: map<string, Value>, order: seq<string>, k: string)
    requires s.unavailable == {}
    requires forall i :: 0 <= i < |order| ==> order[i] in settings
    requires k in order
    ensures Listed(SaveAll(s, prefix, settings, order)).Success?
    ensures var loaded := Loaded(Listed(SaveAll(s, prefix, settings, order)).value, prefix);
      k in loaded && loaded[k] == settings[k]
  {
    var i :| 0 <= i < |order| && order[i] == k;
    SaveAllWritesEverySetting(s, prefix, settings, order, prefix + k);
    SaveStopsAtFirstFailure(s, prefix, settings, order);
    var s' := SaveAll(s, prefix, settings, order);
    var k' :| k' in settings && prefix + k == prefix + k' && s'.settings[prefix + k] == settings[k'];
    assert k' == (prefix + k')[|prefix|..] == k;
  }
}
