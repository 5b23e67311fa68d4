/**
 * The connection session: the application-wide state that holds the
 * settings, the connection status and the last error message, drives the
 * client's probe, and persists the settings. Each React state cell is a
 * field; each setter call is an assignment.
 *
 * React callbacks see the state of the render they were created in.
 * `testConnection` therefore works on a SNAPSHOT of the settings taken at
 * that render, passed here as an explicit parameter; `updateConnection`
 * calls the `testConnection` of the same render, so it hands on the same
 * (older) snapshot.
 */
module ResolumeContext {
  import opened Common
  import opened KeyValueStore
  import opened ConnectionSettings
  import opened ResolumeApi

  datatype ConnectionStatus = Connected | Disconnected | Connecting | Error

  const FailedToConnectMessage: string := "Failed to connect to Resolume Arena"

  /** Auto-connect at mount: only when reconnecting is enabled and a successful connection is on record. */
  predicate ShouldAutoConnect(s: Settings) {
    s.autoReconnect && s.lastConnected.Some? && s.lastConnected.value != ""
  }

  /** The snapshot stamped with the time of a successful probe. */
  function Stamped(snapshot: Settings, now: string): (s: Settings)
    ensures s.host == snapshot.host && s.port == snapshot.port && s.autoReconnect == snapshot.autoReconnect
    ensures s.lastConnected == Some(now)
  {
    snapshot.(lastConnected := Some(now))
  }

  /** A fresh install never auto-connects, and neither does one whose settings were cleared. */
  lemma NoAutoConnectWithoutRecord(items: map<string, string>, codec: SettingsCodec)
    ensures !ShouldAutoConnect(DefaultSettings)
    ensures !ShouldAutoConnect(Loaded(Cleared(items), codec))
  {
    ClearThenLoad(items, codec);
  }

  /**
   * After a successful connection is saved, the next mount auto-connects
   * exactly when reconnecting is switched on (and the stamp is not empty).
   */
  lemma AutoConnectAfterSuccess(items: map<string, string>, codec: SettingsCodec, s: Settings, now: string)
    requires RoundTrips(codec, Stamped(s, now))
    requires s.host != "" && s.port != 0
    ensures ShouldAutoConnect(Loaded(Saved(items, codec, Stamped(s, now)), codec)) <==> s.autoReconnect && now != ""
  {
    SaveThenLoad(items, codec, Stamped(s, now));
  }

  class Session {
    var settings: Settings
    var connectionStatus: ConnectionStatus
    var errorMessage: Option<string>
    const api: ResolumeAPI
    const store: Storage
    const codec: SettingsCodec

    /**
     * The status agrees with the client: `connected` only while the client
     * is connected, `disconnected` and `error` only while it is not; an
     * error message is present exactly in `error`.
     */
    ghost predicate Valid()
      reads this, api
    {
      && api.Valid()
      && (connectionStatus == Connected ==> api.isConnected)
      && (connectionStatus == Disconnected || connectionStatus == Error ==> !api.isConnected)
      && (errorMessage.Some? <==> connectionStatus == Error)
    }

    /** Mounting the provider: load the settings, build the client on them, start disconnected. */
    constructor (store: Storage, codec: SettingsCodec, net: nat -> Reply, hasWindow: bool, hasDesktopBridge: bool)
      modifies store
      ensures Valid() && fresh(api)
      ensures this.store == store && this.codec == codec
      ensures settings == Loaded(old(store.items), codec)
      ensures store.items == old(store.items)[VersionKey := CurrentVersion]
      ensures connectionStatus == Disconnected && errorMessage == None
      ensures api.host == settings.host && api.port == settings.port && api.net == net
      ensures api.useProxy == (hasWindow && !hasDesktopBridge)
      ensures !api.isConnected && api.trace == []
    {
      var loaded := GetConnectionSettings(store, codec);
      this.store := store;
      this.codec := codec;
      settings := loaded;
      api := new ResolumeAPI(loaded.host, loaded.port, net, hasWindow, hasDesktopBridge);
      connectionStatus := Disconnected;
      errorMessage := None;
    }

    /** The part of `testConnection` before the probe is awaited. */
    method BeginProbe()
      modifies this`connectionStatus, this`errorMessage
      ensures connectionStatus == Connecting && errorMessage == None
    {
      connectionStatus := Connecting;
      errorMessage := None;
    }

    /** The part of `testConnection` after the probe settles with `connected`. */
    method FinishProbe(connected: bool, snapshot: Settings, now: string) returns (ok: bool)
      modifies this`connectionStatus, this`errorMessage, this`settings, store
      ensures ok == connected
      ensures ok ==> (connectionStatus == Connected && errorMessage == old(errorMessage)
        && settings == Stamped(snapshot, now) && store.items == Saved(old(store.items), codec, settings))
      ensures !ok ==> (connectionStatus == Error && errorMessage == Some(FailedToConnectMessage)
        && settings == old(settings) && store.items == old(store.items))
    {
      if connected {
        connectionStatus := Connected;
        var updated := Stamped(snapshot, now);
        settings := updated;
        SaveConnectionSettings(store, codec, updated);
        return true;
      } else {
        connectionStatus := Error;
        errorMessage := Some(FailedToConnectMessage);
        return false;
      }
    }

    /**
     * `testConnection` as created in a render whose settings were
     * `snapshot`: status `connecting` with no message, then a probe; on
     * success status `connected` and the snapshot, stamped with `now`, set
     * and saved; on failure status `error` with a fixed message and nothing
     * saved. The client's probe never raises, so the source's exception
     * branch cannot be reached. It is also called right after a retarget,
     * while the status still reflects the previous target, so it asks only
     * that the client be consistent.
     */
    method TestConnection(snapshot: Settings, now: string) returns (ok: bool)
      requires api.Valid()
      modifies this`connectionStatus, this`errorMessage, this`settings, store, api`trace, api`isConnected
      ensures Valid()
      ensures var retarget := RetargetRequests(api.useProxy, api.host, api.port);
        && api.trace == old(api.trace) + retarget + [Request(Get, api.baseUrl, CompositionEndpoint, NoBody)]
        && ok == IsOk(api.net(|old(api.trace)| + |retarget|))
      ensures api.isConnected == ok
      ensures ok ==> (connectionStatus == Connected && errorMessage == None
        && settings == Stamped(snapshot, now) && store.items == Saved(old(store.items), codec, settings))
      ensures !ok ==> (connectionStatus == Error && errorMessage == Some(FailedToConnectMessage)
        && settings == old(settings) && store.items == old(store.items))
    {
      BeginProbe();
      var connected := api.Connect();
      ok := FinishProbe(connected, snapshot, now);
    }

    /**
     * `updateConnection(host, port)` as created in a render whose settings
     * were `snapshot`: retarget the client, set and save the new host and
     * port (keeping the snapshot's `autoReconnect`, dropping
     * `lastConnected`), then run that render's `testConnection`. On success
     * the stamped SNAPSHOT is what ends up set and saved.
     */
    method UpdateConnection(host: string, port: int, snapshot: Settings, now: string) returns (ok: bool)
      requires Valid()
      modifies this`connectionStatus, this`errorMessage, this`settings, store
      modifies api`host, api`port, api`baseUrl, api`trace, api`isConnected
      ensures Valid()
      ensures api.host == host && api.port == port && api.useProxy == old(api.useProxy)
      ensures var retarget := RetargetRequests(api.useProxy, host, port);
        && api.trace == old(api.trace) + retarget
             + [Request(Get, BaseUrlFor(api.useProxy, host, port), CompositionEndpoint, NoBody)]
        && ok == IsOk(api.net(|old(api.trace)| + |retarget|))
      ensures var retargeted := Settings(host, port, None, snapshot.autoReconnect);
        ok ==> (connectionStatus == Connected && errorMessage == None
          && settings == Stamped(snapshot, now)
          && store.items == Saved(Saved(old(store.items), codec, retargeted), codec, settings))
      ensures var retargeted := Settings(host, port, None, snapshot.autoReconnect);
        !ok ==> (connectionStatus == Error && errorMessage == Some(FailedToConnectMessage)
          && settings == retargeted && store.items == Saved(old(store.items), codec, retargeted))
    {
      api.UpdateConnection(host, port);
      var retargeted := Settings(host, port, None, snapshot.autoReconnect);
      settings := retargeted;
      SaveConnectionSettings(store, codec, retargeted);
      ok := TestConnection(snapshot, now);
    }

    /**
     * The evidently intended `updateConnection`: the probe that follows the
     * retarget stamps the NEW settings, so a success persists the new host
     * and port.
     */
    method UpdateConnectionFixed(host: string, port: int, now: string) returns (ok: bool)
      requires Valid()
      modifies this`connectionStatus, this`errorMessage, this`settings, store
      modifies api`host, api`port, api`baseUrl, api`trace, api`isConnected
      ensures Valid()
      ensures api.host == host && api.port == port && api.useProxy == old(api.useProxy)
      ensures var retarget := RetargetRequests(api.useProxy, host, port);
        && api.trace == old(api.trace) + retarget
             + [Request(Get, BaseUrlFor(api.useProxy, host, port), CompositionEndpoint, NoBody)]
        && ok == IsOk(api.net(|old(api.trace)| + |retarget|))
      ensures var retargeted := Settings(host, port, None, old(settings).autoReconnect);
        ok ==> (connectionStatus == Connected && errorMessage == None
          && settings == Settings(host, port, Some(now), old(settings).autoReconnect)
          && store.items == Saved(Saved(old(store.items), codec, retargeted), codec, settings))
      ensures var retargeted := Settings(host, port, None, old(settings).autoReconnect);
        !ok ==> (connectionStatus == Error && errorMessage == Some(FailedToConnectMessage)
          && settings == retargeted && store.items == Saved(old(store.items), codec, retargeted))
    {
      api.UpdateConnection(host, port);
      var retargeted := Settings(host, port, None, settings.autoReconnect);
      settings := retargeted;
      SaveConnectionSettings(store, codec, retargeted);
      ok := TestConnection(retargeted, now);
    }

    /** `disconnect`: status `disconnected`, no message, client disconnected; settings untouched. */
    method Disconnect()
      requires Valid()
      modifies this`connectionStatus, this`errorMessage, api`isConnected
      ensures Valid()
      ensures connectionStatus == Disconnected && errorMessage == None && !api.isConnected
    {
      api.Disconnect();
      connectionStatus := Disconnected;
      errorMessage := None;
    }

    /**
     * The effect that runs once after mounting: probe with the loaded
     * settings exactly when they ask for auto-connect; otherwise nothing
     * happens.
     */
    method AutoConnectOnMount(now: string) returns (attempted: bool)
      requires Valid()
      modifies this`connectionStatus, this`errorMessage, this`settings, store, api`trace, api`isConnected
      ensures Valid()
      ensures attempted == ShouldAutoConnect(old(settings))
      ensures !attempted ==> (settings == old(settings) && connectionStatus == old(connectionStatus)
        && errorMessage == old(errorMessage) && api.isConnected == old(api.isConnected)
        && store.items == old(store.items) && api.trace == old(api.trace))
      ensures attempted ==> var retarget := RetargetRequests(api.useProxy, api.host, api.port);
        && api.trace == old(api.trace) + retarget + [Request(Get, api.baseUrl, CompositionEndpoint, NoBody)]
        && api.isConnected == IsOk(api.net(|old(api.trace)| + |retarget|))
      ensures attempted && api.isConnected ==> (connectionStatus == Connected && errorMessage == None
        && settings == Stamped(old(settings), now) && store.items == Saved(old(store.items), codec, settings))
      ensures attempted && !api.isConnected ==> (connectionStatus == Error
        && errorMessage == Some(FailedToConnectMessage)
        && settings == old(settings) && store.items == old(store.items))
    {
      attempted := ShouldAutoConnect(settings);
      if attempted {
        var ignored := TestConnection(settings, now);
      }
    }
  }

  const EarlierStamp: string := "2024-05-31T19:00:00.000Z"
  const RunStamp: string := "2024-06-01T20:00:00.000Z"
  /** The address on record before the runs below: not the default one. */
  const StoredAddress: Settings := Settings("192.168.1.20", 7070, Some(EarlierStamp), true)
  /** The address the operator switches to. */
  const NewAddress: Settings := Settings("10.0.0.5", 7000, None, true)

  /** A settings codec that writes each record the runs below save as a text of its own and reads it back. */
  function RunCodec(): (codec: SettingsCodec)
    ensures RoundTrips(codec, StoredAddress) && RoundTrips(codec, Stamped(StoredAddress, RunStamp))
    ensures RoundTrips(codec, NewAddress) && RoundTrips(codec, Stamped(NewAddress, RunStamp))
  {
    SettingsCodec(
      s => if s == StoredAddress then "a" else if s == Stamped(StoredAddress, RunStamp) then "b"
        else if s == NewAddress then "c" else if s == Stamped(NewAddress, RunStamp) then "d" else "{}",
      t => if t == "a" then Some(AsStored(StoredAddress))
        else if t == "b" then Some(AsStored(Stamped(StoredAddress, RunStamp)))
        else if t == "c" then Some(AsStored(NewAddress))
        else if t == "d" then Some(AsStored(Stamped(NewAddress, RunStamp))) else None)
  }

  /**
   * A run of the source's `updateConnection`: the store holds 192.168.1.20:7070,
   * the engine answers every request, and the operator retargets to
   * 10.0.0.5:7000 from the current render. The client talks to the new
   * address, yet the settings held, and those the next launch loads, name
   * the old one.
   */
  method StaleSnapshotRun() returns (clientHost: string, held: Settings, reloaded: Settings)
    ensures clientHost == "10.0.0.5"
    ensures held == reloaded == Settings("192.168.1.20", 7070, Some(RunStamp), true)
  {
    var codec := RunCodec();
    var store := new Storage(map[SettingsKey := "a"]);
    var session := new Session(store, codec, k => Response(true, None, ""), false, true);
    assert session.settings == StoredAddress by { RepairOfStored(StoredAddress); }
    var before := store.items;
    var ok := session.UpdateConnection("10.0.0.5", 7000, session.settings, RunStamp);
    assert ok;
    assert Settings("10.0.0.5", 7000, None, StoredAddress.autoReconnect) == NewAddress;
    SaveThenLoad(Saved(before, codec, NewAddress), codec, Stamped(StoredAddress, RunStamp));
    clientHost := session.api.host;
    held := session.settings;
    reloaded := Loaded(store.items, codec);
  }

  /** The same run with the corrected update holds and persists the new address. */
  method FreshSnapshotRun() returns (clientHost: string, held: Settings, reloaded: Settings)
    ensures clientHost == "10.0.0.5"
    ensures held == reloaded == Settings("10.0.0.5", 7000, Some(RunStamp), true)
  {
    var codec := RunCodec();
    var store := new Storage(map[SettingsKey := "a"]);
    var session := new Session(store, codec, k => Response(true, None, ""), false, true);
    assert session.settings == StoredAddress by { RepairOfStored(StoredAddress); }
    var before := store.items;
    var ok := session.UpdateConnectionFixed("10.0.0.5", 7000, RunStamp);
    assert ok;
    assert session.settings == Stamped(NewAddress, RunStamp);
    SaveThenLoad(Saved(before, codec, NewAddress), codec, Stamped(NewAddress, RunStamp));
    clientHost := session.api.host;
    held := session.settings;
    reloaded := Loaded(store.items, codec);
  }
}
