/**
 * Persistence of the engine connection settings in the key-value store:
 * one key holds the settings serialised as JSON, a second key holds a
 * schema version tag. Loading repairs missing or falsy fields from the
 * defaults one by one and falls back to the full defaults when nothing
 * usable is stored.
 *
 * `JSON.stringify` and `JSON.parse` are not modelled as text processing:
 * a `SettingsCodec` carries the two as functions, and the round-trip
 * results assume only that parsing the record that was serialised gives
 * back its fields (`RoundTrips`).
 */
module ConnectionSettings {
  import opened Common
  import opened KeyValueStore

  datatype Settings = Settings(host: string, port: int, lastConnected: Option<string>, autoReconnect: bool)

  /** What `JSON.parse` yields for a stored settings object: each field present or absent. */
  datatype StoredSettings = StoredSettings(
    host: Option<string>, port: Option<int>, lastConnected: Option<string>, autoReconnect: Option<bool>)

  /**
   * `stringify` serialises a settings record; `parse` reads a stored string
   * back, `None` when it is not JSON or is JSON whose field access throws
   * (such as `null`).
   */
  datatype SettingsCodec = SettingsCodec(stringify: Settings -> string, parse: string -> Option<StoredSettings>)

  const SettingsKey: string := "resolume-connection-settings"
  const VersionKey: string := "resolume-connection-version"
  const CurrentVersion: string := "1.0"
  const DefaultSettings: Settings := Settings("localhost", 8080, None, true)

  /** The fields `JSON.stringify` writes for `s` (an absent `lastConnected` is omitted). */
  function AsStored(s: Settings): StoredSettings {
    StoredSettings(Some(s.host), Some(s.port), s.lastConnected, Some(s.autoReconnect))
  }

  /** Serialising `s` gives a non-empty text (an object literal), and parsing it gives back exactly its fields. */
  ghost predicate RoundTrips(codec: SettingsCodec, s: Settings) {
    codec.stringify(s) != "" && codec.parse(codec.stringify(s)) == Some(AsStored(s))
  }

  /**
   * The field-by-field merge with the defaults: an absent or empty host and
   * an absent or zero port take the default, an absent `autoReconnect` is
   * true, and `lastConnected` is taken as stored.
   */
  function Repair(p: StoredSettings): (s: Settings)
    ensures s.host != "" && s.port != 0
    ensures p.host.Some? && p.host.value != "" ==> s.host == p.host.value
    ensures p.port.Some? && p.port.value != 0 ==> s.port == p.port.value
    ensures p.autoReconnect.Some? ==> s.autoReconnect == p.autoReconnect.value
    ensures s.lastConnected == p.lastConnected
    ensures p.host.None? || p.host.value == "" ==> s.host == DefaultSettings.host
    ensures p.port.None? || p.port.value == 0 ==> s.port == DefaultSettings.port
    ensures p.autoReconnect.None? ==> s.autoReconnect == DefaultSettings.autoReconnect
  {
    Settings(
      host := if p.host.Some? && p.host.value != "" then p.host.value else DefaultSettings.host,
      port := if p.port.Some? && p.port.value != 0 then p.port.value else DefaultSettings.port,
      lastConnected := p.lastConnected,
      autoReconnect := p.autoReconnect.GetOr(DefaultSettings.autoReconnect))
  }

  /**
   * The settings a load returns for the store contents `items`: the
   * defaults when nothing usable is stored, otherwise the repair of what
   * was parsed; always with a host and a port.
   */
  function Loaded(items: map<string, string>, codec: SettingsCodec): (s: Settings)
    ensures s.host != "" && s.port != 0
    ensures SettingsKey !in items || items[SettingsKey] == "" || codec.parse(items[SettingsKey]).None?
      ==> s == DefaultSettings
    ensures SettingsKey in items && items[SettingsKey] != "" && codec.parse(items[SettingsKey]).Some?
      ==> s == Repair(codec.parse(items[SettingsKey]).value)
  {
    if SettingsKey !in items || items[SettingsKey] == "" then DefaultSettings
    else match codec.parse(items[SettingsKey])
      case None => DefaultSettings
      case Some(p) => Repair(p)
  }

  /** The store contents after a save of `s`. */
  function Saved(items: map<string, string>, codec: SettingsCodec, s: Settings): map<string, string> {
    items[SettingsKey := codec.stringify(s)][VersionKey := CurrentVersion]
  }

  /** The store contents after a clear. */
  function Cleared(items: map<string, string>): map<string, string> {
    items - {SettingsKey, VersionKey}
  }

  /** `getConnectionSettings`: rewrites only the version tag, then loads. */
  method GetConnectionSettings(store: Storage, codec: SettingsCodec) returns (s: Settings)
    modifies store
    ensures store.items == old(store.items)[VersionKey := CurrentVersion]
    ensures s == Loaded(old(store.items), codec)
  {
    var version := store.GetItem(VersionKey);
    if version != Some(CurrentVersion) {
      store.SetItem(VersionKey, CurrentVersion);
    }
    var stored := store.GetItem(SettingsKey);
    if stored.None? || stored.value == "" {
      return DefaultSettings;
    }
    var parsed := codec.parse(stored.value);
    if parsed.None? {
      return DefaultSettings;
    }
    s := Repair(parsed.value);
  }

  /** `saveConnectionSettings`: writes the settings, then the current version tag. */
  method SaveConnectionSettings(store: Storage, codec: SettingsCodec, s: Settings)
    modifies store
    ensures store.items == Saved(old(store.items), codec, s)
  {
    store.SetItem(SettingsKey, codec.stringify(s));
    store.SetItem(VersionKey, CurrentVersion);
  }

  /** `clearConnectionSettings`: removes both keys. */
  method ClearConnectionSettings(store: Storage)
    modifies store
    ensures store.items == Cleared(old(store.items))
  {
    store.RemoveItem(SettingsKey);
    store.RemoveItem(VersionKey);
    assert store.items == old(store.items) - {SettingsKey} - {VersionKey};
  }

  // ---------------------------------------------------------------------
  // Properties
  // ---------------------------------------------------------------------

  /** With nothing stored, or a stored value that does not parse, a load gives the defaults. */
  lemma LoadFallsBackToDefaults(items: map<string, string>, codec: SettingsCodec)
    requires SettingsKey !in items || items[SettingsKey] == "" || codec.parse(items[SettingsKey]).None?
    ensures Loaded(items, codec) == Settings("localhost", 8080, None, true)
  {
  }

  /** A load with a version mismatch changes nothing but the version tag, and a second load agrees with the first. */
  lemma VersionRewriteKeepsSettings(items: map<string, string>, codec: SettingsCodec)
    ensures var after := items[VersionKey := CurrentVersion];
      && (SettingsKey in after <==> SettingsKey in items)
      && (SettingsKey in items ==> after[SettingsKey] == items[SettingsKey])
      && after.Keys == items.Keys + {VersionKey}
      && Loaded(after, codec) == Loaded(items, codec)
  {
    assert SettingsKey != VersionKey by {
      assert SettingsKey[20] == 's' && VersionKey[20] == 'v';
    }
  }

  /** Repairing the serialised fields of a record with a non-empty host and non-zero port gives back the record. */
  lemma RepairOfStored(s: Settings)
    requires s.host != "" && s.port != 0
    ensures Repair(AsStored(s)) == s
  {
  }

  /** Save followed by load returns the saved settings when the host is non-empty and the port non-zero. */
  lemma SaveThenLoad(items: map<string, string>, codec: SettingsCodec, s: Settings)
    requires RoundTrips(codec, s)
    requires s.host != "" && s.port != 0
    ensures Loaded(Saved(items, codec, s), codec) == s
  {
    var after := Saved(items, codec, s);
    VersionRewriteKeepsSettings(items[SettingsKey := codec.stringify(s)], codec);
    assert after[SettingsKey] == codec.stringify(s);
    assert codec.parse(codec.stringify(s)) == Some(AsStored(s));
    RepairOfStored(s);
  }

  /** A save that loses the host or port comes back repaired: load after save yields the defaults for those fields. */
  lemma SaveThenLoadRepairs(items: map<string, string>, codec: SettingsCodec, s: Settings)
    requires RoundTrips(codec, s)
    ensures Loaded(Saved(items, codec, s), codec) == Repair(AsStored(s))
  {
    var after := Saved(items, codec, s);
    VersionRewriteKeepsSettings(items[SettingsKey := codec.stringify(s)], codec);
    assert after[SettingsKey] == codec.stringify(s);
    assert codec.parse(codec.stringify(s)) == Some(AsStored(s));
  }

  /** A save writes both keys and leaves every other key as it was. */
  lemma SaveWritesOnlyItsKeys(items: map<string, string>, codec: SettingsCodec, s: Settings)
    ensures var r := Saved(items, codec, s);
      && r.Keys == items.Keys + {SettingsKey, VersionKey}
      && r[SettingsKey] == codec.stringify(s) && r[VersionKey] == CurrentVersion
      && forall k :: k in items && k != SettingsKey && k != VersionKey ==> r[k] == items[k]
  {
    assert SettingsKey != VersionKey by {
      assert SettingsKey[20] == 's' && VersionKey[20] == 'v';
    }
  }

  /** A clear removes both keys and leaves every other key as it was. */
  lemma ClearRemovesOnlyItsKeys(items: map<string, string>)
    ensures var r := Cleared(items);
      && r.Keys == items.Keys - {SettingsKey, VersionKey}
      && forall k :: k in r ==> r[k] == items[k]
  {
  }

  /** After a clear, neither key is present and a load gives the defaults. */
  lemma ClearThenLoad(items: map<string, string>, codec: SettingsCodec)
    ensures SettingsKey !in Cleared(items) && VersionKey !in Cleared(items)
    ensures Loaded(Cleared(items), codec) == DefaultSettings
  {
  }
}
