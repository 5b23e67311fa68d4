/**
 * The REST client for Resolume Arena: one object that remembers the
 * engine's address, derives the base URL of its control API, probes the
 * engine, and issues the composition, thumbnail, clip-connect,
 * transition-time and clear-layer calls, each guarded by the object's
 * connected flag.
 *
 * The network is an oracle: the object is built with a function `net` from
 * call numbers to replies, and the k-th request it issues (counting from 0)
 * receives `net(k)`. Every request issued is appended to `trace`, so the
 * order of calls and the use made of each reply can be stated exactly.
 */
module ResolumeApi {
  import opened Common
  import opened JsStrings

  // ---------------------------------------------------------------------
  // The composition mirror and its tolerant parser
  // ---------------------------------------------------------------------

  datatype Clip = Clip(id: int, name: string, duration: Option<real>)
  datatype Layer = Layer(id: int, name: string, clips: seq<Clip>)
  datatype Composition = Composition(layers: seq<Layer>, columns: int)

  /**
   * The composition JSON as the engine sends it, every field possibly
   * absent. An absent field and a JSON `null` are both `None`.
   */
  datatype RawClip = RawClip(id: Option<int>, name: Option<string>, duration: Option<real>)
  datatype RawLayer = RawLayer(id: Option<int>, name: Option<string>, clips: Option<seq<RawClip>>)
  datatype RawComposition = RawComposition(layers: Option<seq<RawLayer>>, columns: Option<int>)

  /** `x || fallback` on a numeric id: an absent or zero id is replaced. */
  function IdOr(id: Option<int>, fallback: int): int {
    if id.Some? && id.value != 0 then id.value else fallback
  }

  /** `x || fallback` on a name: an absent or empty name is replaced. */
  function NameOr(name: Option<string>, fallback: string): string {
    if name.Some? && name.value != "" then name.value else fallback
  }

  /** The clip at 0-based position `index` within its layer. */
  function ParseClip(c: RawClip, index: nat): Clip {
    Clip(IdOr(c.id, index + 1), NameOr(c.name, "Clip " + NatToString(index + 1)), c.duration)
  }

  function ParseClips(cs: seq<RawClip>): (r: seq<Clip>)
    ensures |r| == |cs|
  {
    seq(|cs|, i requires 0 <= i < |cs| => ParseClip(cs[i], i))
  }

  /** The layer at 0-based position `index` of the composition. */
  function ParseLayer(l: RawLayer, index: nat): Layer {
    Layer(IdOr(l.id, index + 1), NameOr(l.name, "Layer " + NatToString(index + 1)), ParseClips(l.clips.GetOr([])))
  }

  function ParseLayers(ls: seq<RawLayer>): (r: seq<Layer>)
    ensures |r| == |ls|
  {
    seq(|ls|, i requires 0 <= i < |ls| => ParseLayer(ls[i], i))
  }

  /** The composition built from a response body (resolumeAPI.ts, the mapping in `getComposition`). */
  function ParseComposition(d: RawComposition): (r: Composition)
    ensures |r.layers| == |d.layers.GetOr([])|
  {
    Composition(ParseLayers(d.layers.GetOr([])), d.columns.GetOr(0))
  }

  /** Every id is non-zero and every name non-empty: what the parser guarantees of its output. */
  ghost predicate WellFormed(c: Composition) {
    forall i :: 0 <= i < |c.layers| ==>
      && c.layers[i].id != 0 && c.layers[i].name != ""
      && forall j :: 0 <= j < |c.layers[i].clips| ==>
           c.layers[i].clips[j].id != 0 && c.layers[i].clips[j].name != ""
  }

  /** The JSON body that describes `c` with every field present. */
  function Unparse(c: Composition): RawComposition {
    RawComposition(
      Some(seq(|c.layers|, i requires 0 <= i < |c.layers| =>
        var l := c.layers[i];
        RawLayer(Some(l.id), Some(l.name), Some(seq(|l.clips|, j requires 0 <= j < |l.clips| =>
          var k := l.clips[j]; RawClip(Some(k.id), Some(k.name), k.duration)))))),
      Some(c.columns))
  }

  /**
   * The parser's rules, position by position: a present non-zero id and a
   * present non-empty name are kept; an absent or zero id becomes the
   * 1-based position, an absent or empty name becomes `Layer n` or
   * `Clip n`; absent clips become none; absent or zero columns become 0,
   * other columns are kept.
   */
  lemma ParseDefaults(d: RawComposition, i: nat, j: nat)
    requires i < |d.layers.GetOr([])|
    ensures var raw := d.layers.value[i]; var l := ParseComposition(d).layers[i];
      && (raw.id.None? || raw.id == Some(0) ==> l.id == i + 1)
      && (raw.id.Some? && raw.id.value != 0 ==> l.id == raw.id.value)
      && (raw.name.None? || raw.name == Some("") ==> l.name == "Layer " + NatToString(i + 1))
      && (raw.name.Some? && raw.name.value != "" ==> l.name == raw.name.value)
      && (raw.clips.None? ==> l.clips == [])
      && |l.clips| == |raw.clips.GetOr([])|
      && (j < |raw.clips.GetOr([])| ==>
           var rc := raw.clips.value[j]; var c := l.clips[j];
           && (rc.id.None? || rc.id == Some(0) ==> c.id == j + 1)
           && (rc.id.Some? && rc.id.value != 0 ==> c.id == rc.id.value)
           && (rc.name.None? || rc.name == Some("") ==> c.name == "Clip " + NatToString(j + 1))
           && (rc.name.Some? && rc.name.value != "" ==> c.name == rc.name.value)
           && c.duration == rc.duration)
    ensures d.columns.None? || d.columns == Some(0) ==> ParseComposition(d).columns == 0
    ensures d.columns.Some? && d.columns.value != 0 ==> ParseComposition(d).columns == d.columns.value
  {
  }

  /** Whatever the body, the parsed composition is well formed. */
  lemma ParsedIsWellFormed(d: RawComposition)
    ensures WellFormed(ParseComposition(d))
  {
    var c := ParseComposition(d);
    forall i | 0 <= i < |c.layers|
      ensures c.layers[i].id != 0 && c.layers[i].name != ""
      ensures forall j :: 0 <= j < |c.layers[i].clips| ==>
        c.layers[i].clips[j].id != 0 && c.layers[i].clips[j].name != ""
    {
      var l := c.layers[i];
      assert l == ParseLayer(d.layers.value[i], i);
      forall j | 0 <= j < |l.clips| ensures l.clips[j].id != 0 && l.clips[j].name != "" {
        assert l.clips[j] == ParseClip(d.layers.value[i].clips.value[j], j);
      }
    }
  }

  /** A well-formed composition survives being written out in full and parsed again. */
  lemma ParseOfUnparse(c: Composition)
    requires WellFormed(c)
    ensures ParseComposition(Unparse(c)) == c
  {
    var r := ParseComposition(Unparse(c));
    assert |r.layers| == |c.layers|;
    forall i | 0 <= i < |c.layers| ensures r.layers[i] == c.layers[i] {
      var l := c.layers[i];
      assert r.layers[i].clips == l.clips by {
        forall j | 0 <= j < |l.clips| ensures r.layers[i].clips[j] == l.clips[j] {
        }
      }
    }
  }

  /** Parsing is idempotent: re-parsing a parsed composition's full description changes nothing. */
  lemma ParseIdempotent(d: RawComposition)
    ensures ParseComposition(Unparse(ParseComposition(d))) == ParseComposition(d)
  {
    ParsedIsWellFormed(d);
    ParseOfUnparse(ParseComposition(d));
  }

  // ---------------------------------------------------------------------
  // Requests, replies and URLs
  // ---------------------------------------------------------------------

  /** One layer's clip to connect, with an optional transition time in seconds. */
  datatype CueTarget = CueTarget(layerId: int, clipId: int, transitionTime: Option<real>)

  datatype Verb = Get | Put | Post
  datatype Body = NoBody | TransitionValue(seconds: real) | ProxyTarget(host: string, port: int)

  /** The engine's control endpoints (and the relay's retarget endpoint), relative to a base URL. */
  datatype Endpoint =
    | RelayTarget
    | CompositionEndpoint
    | ThumbnailEndpoint(layerId: int, clipId: int)
    | ConnectEndpoint(layerId: int, clipId: int)
    | TransitionTimeEndpoint(layerId: int)
    | ClearEndpoint(layerId: int)

  /** One issued request: its method, the base URL in force, the endpoint and the JSON body. */
  datatype Request = Request(verb: Verb, base: string, endpoint: Endpoint, body: Body)

  /**
   * What a `fetch` settles to: a response (its `ok` flag, what `json()`
   * yields, `None` when that throws or when the composition mapping would
   * throw on it, and the data URL its body converts to), or a rejection
   * with an error message.
   */
  datatype Reply =
    | Response(ok: bool, json: Option<RawComposition>, dataUrl: string)
    | NetworkError(message: string)

  /** `response.ok` read inside a `try`: a rejected fetch counts as not ok. */
  predicate IsOk(r: Reply) {
    r.Response? && r.ok
  }

  const NotConnectedMessage: string := "Not connected to Resolume Arena"
  const ProxyBaseUrl: string := "/api/resolume/proxy"
  const ProxyConnectionUrl: string := "/api/resolume/connection"

  /** The base URL: the relay path when proxying, otherwise the engine's versioned API on host and port. */
  function BaseUrlFor(useProxy: bool, host: string, port: int): string {
    if useProxy then ProxyBaseUrl else "http://" + host + ":" + IntToString(port) + "/api/v1"
  }

  /** A direct base URL is `http://host:` and `/api/v1` around a text that reads back as the port. */
  lemma BaseUrlNamesTarget(host: string, port: int)
    ensures var u := BaseUrlFor(false, host, port); var prefix := "http://" + host + ":";
      && |prefix| < |u| - 7 && u[..|prefix|] == prefix && u[|u| - 7..] == "/api/v1"
      && ParseInt(u[|prefix|..|u| - 7]) == Some(port)
  {
    var prefix := "http://" + host + ":";
    var digits := IntToString(port);
    var u := BaseUrlFor(false, host, port);
    assert u == prefix + (digits + "/api/v1");
    ParseIntOfIntToString(port);
    assert u[|prefix|..] == digits + "/api/v1";
    assert u[|prefix|..|u| - 7] == (digits + "/api/v1")[..|digits|] == digits;
  }

  /** The two kinds of base URL never coincide, and a direct one determines its port for a given host. */
  lemma BaseUrlDistinguishesTargets(host: string, p1: int, p2: int)
    ensures BaseUrlFor(true, host, p1) != BaseUrlFor(false, host, p1)
    ensures BaseUrlFor(false, host, p1) == BaseUrlFor(false, host, p2) ==> p1 == p2
  {
    var direct := BaseUrlFor(false, host, p1);
    assert direct[0] == 'h' && ProxyBaseUrl[0] == '/';
    if BaseUrlFor(false, host, p2) == direct {
      var prefix := "http://" + host + ":";
      var s1, s2 := IntToString(p1), IntToString(p2);
      assert direct == prefix + (s1 + "/api/v1");
      assert BaseUrlFor(false, host, p2) == prefix + (s2 + "/api/v1");
      assert s1 + "/api/v1" == s2 + "/api/v1" by {
        assert direct[|prefix|..] == s1 + "/api/v1";
        assert BaseUrlFor(false, host, p2)[|prefix|..] == s2 + "/api/v1";
      }
      assert s1 == (s1 + "/api/v1")[..|s1|];
      assert s2 == (s2 + "/api/v1")[..|s2|];
      assert |s1| == |s2|;
      ParseIntOfIntToString(p1);
      ParseIntOfIntToString(p2);
    }
  }

  /** The path under the base URL that each endpoint is reached at: everything the engine serves is under `/composition`. */
  function Path(e: Endpoint): (p: string)
    ensures e.RelayTarget? <==> p == ""
    ensures !e.RelayTarget? ==> |p| >= 12 && p[..12] == "/composition"
  {
    if e.RelayTarget? then "" else "/composition" + CompositionPath(e)
  }

  /** The rest of an engine endpoint's path after `/composition`. */
  function CompositionPath(e: Endpoint): string {
    match e
    case RelayTarget => ""
    case CompositionEndpoint => ""
    case ThumbnailEndpoint(l, c) => "/layers/" + IntToString(l) + "/clips/" + IntToString(c) + "/thumbnail"
    case ConnectEndpoint(l, c) => "/layers/" + IntToString(l) + "/clips/" + IntToString(c) + "/connect"
    case TransitionTimeEndpoint(l) => "/layers/" + IntToString(l) + "/video/mixer/transition/time"
    case ClearEndpoint(l) => "/layers/" + IntToString(l) + "/clear"
  }

  /**
   * The URL a request is sent to: the relay's retarget endpoint has a fixed
   * URL of its own, every other request goes under its base URL.
   */
  function Url(r: Request): (u: string)
    ensures r.endpoint.RelayTarget? ==> u == ProxyConnectionUrl
    ensures !r.endpoint.RelayTarget? ==>
      |r.base| + 12 <= |u| && u[..|r.base|] == r.base && u[|r.base|..|r.base| + 12] == "/composition"
  {
    if r.endpoint.RelayTarget? then ProxyConnectionUrl
    else
      var p := Path(r.endpoint);
      assert (r.base + p)[|r.base|..|r.base| + 12] == p[..12];
      r.base + p
  }

  /** The retarget post that precedes a probe, issued only in relayed mode. */
  function RetargetRequests(useProxy: bool, host: string, port: int): (rs: seq<Request>)
    ensures |rs| == if useProxy then 1 else 0
  {
    if useProxy then [Request(Post, "", RelayTarget, ProxyTarget(host, port))] else []
  }

  /**
   * The composition a reply yields: `None` for a rejection, a non-ok status,
   * or a body that does not parse or on which the mapping throws.
   */
  function CompositionFrom(reply: Reply): (r: Option<Composition>)
    ensures r.Some? <==> IsOk(reply) && reply.json.Some?
    ensures r.Some? ==> r.value == ParseComposition(reply.json.value)
  {
    if IsOk(reply) && reply.json.Some? then Some(ParseComposition(reply.json.value)) else None
  }

  /** The requests one clip trigger issues, in order: the transition-time write (if any), then the connect. */
  function ClipRequests(base: string, t: CueTarget): (rs: seq<Request>)
    ensures |rs| == if t.transitionTime.Some? then 2 else 1
    ensures rs[|rs| - 1] == Request(Post, base, ConnectEndpoint(t.layerId, t.clipId), NoBody)
    ensures t.transitionTime.Some? ==>
      rs[0] == Request(Put, base, TransitionTimeEndpoint(t.layerId), TransitionValue(t.transitionTime.value))
  {
    (if t.transitionTime.Some?
     then [Request(Put, base, TransitionTimeEndpoint(t.layerId), TransitionValue(t.transitionTime.value))]
     else [])
    + [Request(Post, base, ConnectEndpoint(t.layerId, t.clipId), NoBody)]
  }

  /**
   * The result of one clip trigger whose first request is call number
   * `pos`: the `ok` of the connect reply, its last request (the
   * transition-time reply is ignored).
   */
  function ClipResult(net: nat -> Reply, pos: nat, base: string, t: CueTarget): bool {
    IsOk(net(pos + |ClipRequests(base, t)| - 1))
  }

  /** The requests of triggering the targets one after the other: each target's requests, in target order. */
  function TriggerRequests(base: string, targets: seq<CueTarget>): (rs: seq<Request>)
    ensures |rs| >= |targets|
  {
    if targets == [] then [] else ClipRequests(base, targets[0]) + TriggerRequests(base, targets[1..])
  }

  /**
   * The results of triggering the targets one after the other from call
   * number `pos`, in target order: each is the `ok` of that target's
   * connect reply.
   */
  function TriggerResults(net: nat -> Reply, pos: nat, base: string, targets: seq<CueTarget>): (r: seq<bool>)
    ensures |r| == |targets|
    decreases |targets|
  {
    if targets == [] then []
    else
      [ClipResult(net, pos, base, targets[0])]
      + TriggerResults(net, pos + |ClipRequests(base, targets[0])|, base, targets[1..])
  }

  /** Triggering a concatenation issues the first part's requests, then the second's. */
  lemma {:induction false} TriggerRequestsAppend(base: string, a: seq<CueTarget>, b: seq<CueTarget>)
    ensures TriggerRequests(base, a + b) == TriggerRequests(base, a) + TriggerRequests(base, b)
  {
    if a != [] {
      assert (a + b)[0] == a[0] && (a + b)[1..] == a[1..] + b;
      TriggerRequestsAppend(base, a[1..], b);
      var head := ClipRequests(base, a[0]);
      assert TriggerRequests(base, a + b) == head + (TriggerRequests(base, a[1..]) + TriggerRequests(base, b));
    } else {
      assert a + b == b;
    }
  }

  /**
   * The results of a concatenation are the first part's, then the second
   * part's as issued right after the first part's requests.
   */
  lemma {:induction false} TriggerResultsAppend(net: nat -> Reply, pos: nat, base: string, a: seq<CueTarget>, b: seq<CueTarget>)
    ensures TriggerResults(net, pos, base, a + b)
         == TriggerResults(net, pos, base, a) + TriggerResults(net, pos + |TriggerRequests(base, a)|, base, b)
    decreases |a|
  {
    if a != [] {
      assert (a + b)[0] == a[0] && (a + b)[1..] == a[1..] + b;
      var next := pos + |ClipRequests(base, a[0])|;
      TriggerResultsAppend(net, next, base, a[1..], b);
      assert next + |TriggerRequests(base, a[1..])| == pos + |TriggerRequests(base, a)|;
    } else {
      assert a + b == b;
    }
  }

  /**
   * Result `i` of a batch trigger is the trigger of target `i` alone,
   * issued right after the requests of the targets before it.
   */
  lemma TriggerResultAt(net: nat -> Reply, pos: nat, base: string, targets: seq<CueTarget>, i: nat)
    requires i < |targets|
    ensures TriggerResults(net, pos, base, targets)[i]
         == ClipResult(net, pos + |TriggerRequests(base, targets[..i])|, base, targets[i])
  {
    assert targets == targets[..i] + targets[i..];
    TriggerResultsAppend(net, pos, base, targets[..i], targets[i..]);
  }

  /** Target `i`'s own requests follow those of the targets before it. */
  lemma TriggerRequestsAt(base: string, targets: seq<CueTarget>, i: nat)
    requires i < |targets|
    ensures TriggerRequests(base, targets[..i]) + ClipRequests(base, targets[i]) <= TriggerRequests(base, targets)
  {
    assert targets == targets[..i] + targets[i..];
    TriggerRequestsAppend(base, targets[..i], targets[i..]);
  }

  // ---------------------------------------------------------------------
  // The client object
  // ---------------------------------------------------------------------

  class ResolumeAPI {
    var host: string
    var port: int
    var baseUrl: string
    var isConnected: bool
    var useProxy: bool
    /** Every request issued so far, oldest first. */
    var trace: seq<Request>
    /** The reply the engine (or relay) gives to each call number. */
    const net: nat -> Reply

    ghost predicate Valid()
      reads this`baseUrl, this`useProxy, this`host, this`port
    {
      baseUrl == BaseUrlFor(useProxy, host, port)
    }

    /**
     * Takes the address; relays through the proxy path when running in a
     * browser window without the desktop bridge.
     */
    constructor (host: string, port: int, net: nat -> Reply, hasWindow: bool, hasDesktopBridge: bool)
      ensures Valid()
      ensures this.host == host && this.port == port && this.net == net
      ensures useProxy == (hasWindow && !hasDesktopBridge)
      ensures !isConnected && trace == []
    {
      this.host := host;
      this.port := port;
      this.net := net;
      this.useProxy := hasWindow && !hasDesktopBridge;
      this.isConnected := false;
      this.trace := [];
      this.baseUrl := "";
      new;
      UpdateBaseUrl();
    }

    method UpdateBaseUrl()
      modifies this`baseUrl
      ensures Valid()
    {
      if useProxy {
        baseUrl := ProxyBaseUrl;
      } else {
        baseUrl := "http://" + host + ":" + IntToString(port) + "/api/v1";
      }
    }

    /** Issues one request and receives the reply for its call number. */
    method Fetch(req: Request) returns (reply: Reply)
      modifies this`trace
      ensures trace == old(trace) + [req]
      ensures reply == net(|old(trace)|)
    {
      reply := net(|trace|);
      trace := trace + [req];
    }

    /** In relayed mode, tells the relay the current target; its failure is swallowed. */
    method UpdateProxyTarget()
      modifies this`trace
      ensures trace == old(trace) + RetargetRequests(useProxy, host, port)
    {
      if useProxy {
        var ignored := Fetch(Request(Post, "", RelayTarget, ProxyTarget(host, port)));
      }
    }

    /**
     * Probes the engine with a composition read; connected exactly when the
     * probe's reply is ok. Never raises.
     */
    method Connect() returns (connected: bool)
      requires Valid()
      modifies this`trace, this`isConnected
      ensures Valid()
      ensures var retarget := RetargetRequests(useProxy, host, port);
        && trace == old(trace) + retarget + [Request(Get, baseUrl, CompositionEndpoint, NoBody)]
        && connected == IsOk(net(|old(trace)| + |retarget|))
      ensures isConnected == connected
    {
      UpdateProxyTarget();
      var reply := Fetch(Request(Get, baseUrl, CompositionEndpoint, NoBody));
      if IsOk(reply) {
        isConnected := true;
        return true;
      }
      isConnected := false;
      return false;
    }

    method Disconnect()
      modifies this`isConnected
      ensures !isConnected
    {
      isConnected := false;
    }

    method GetConnectionStatus() returns (connected: bool)
      ensures connected == isConnected
    {
      connected := isConnected;
    }

    /** Retargets to `host`:`port`; the object is no longer connected until the next probe succeeds. */
    method UpdateConnection(host: string, port: int)
      modifies this`host, this`port, this`baseUrl, this`isConnected
      ensures Valid()
      ensures this.host == host && this.port == port && !isConnected
      ensures baseUrl == BaseUrlFor(useProxy, host, port)
    {
      this.host := host;
      this.port := port;
      UpdateBaseUrl();
      isConnected := false;
    }

    /** Reads the composition: `None` on a failed, non-ok or unparseable read. */
    method GetComposition() returns (r: Outcome<Option<Composition>>)
      requires Valid()
      modifies this`trace
      ensures !isConnected ==> r == Raised(NotConnectedMessage) && trace == old(trace)
      ensures isConnected ==>
        && trace == old(trace) + [Request(Get, baseUrl, CompositionEndpoint, NoBody)]
        && r == Returned(CompositionFrom(net(|old(trace)|)))
    {
      if !isConnected {
        return Raised(NotConnectedMessage);
      }
      var reply := Fetch(Request(Get, baseUrl, CompositionEndpoint, NoBody));
      if !IsOk(reply) || reply.json.None? {
        return Returned(None);
      }
      var layers := ParseLayers(reply.json.value.layers.GetOr([]));
      r := Returned(Some(Composition(layers, reply.json.value.columns.GetOr(0))));
    }

    /** Fetches a clip's thumbnail as a data URL: `None` on a failed or non-ok read. */
    method GetThumbnail(layerId: int, clipId: int) returns (r: Outcome<Option<string>>)
      requires Valid()
      modifies this`trace
      ensures !isConnected ==> r == Raised(NotConnectedMessage) && trace == old(trace)
      ensures isConnected ==>
        && trace == old(trace) + [Request(Get, baseUrl, ThumbnailEndpoint(layerId, clipId), NoBody)]
        && r == Returned(if IsOk(net(|old(trace)|)) then Some(net(|old(trace)|).dataUrl) else None)
    {
      if !isConnected {
        return Raised(NotConnectedMessage);
      }
      var reply := Fetch(Request(Get, baseUrl, ThumbnailEndpoint(layerId, clipId), NoBody));
      if !IsOk(reply) {
        return Returned(None);
      }
      r := Returned(Some(reply.dataUrl));
    }

    /** Writes a layer's mixer transition time; the result is the reply's `ok`. */
    method SetLayerTransitionTime(layerId: int, timeInSeconds: real) returns (r: Outcome<bool>)
      modifies this`trace
      ensures !isConnected ==> r == Raised(NotConnectedMessage) && trace == old(trace)
      ensures isConnected ==>
        && trace == old(trace) + [Request(Put, baseUrl, TransitionTimeEndpoint(layerId), TransitionValue(timeInSeconds))]
        && r == Returned(IsOk(net(|old(trace)|)))
    {
      if !isConnected {
        return Raised(NotConnectedMessage);
      }
      var reply := Fetch(Request(Put, baseUrl, TransitionTimeEndpoint(layerId), TransitionValue(timeInSeconds)));
      r := Returned(IsOk(reply));
    }

    /** Clears a layer; the result is the reply's `ok`. */
    method ClearLayer(layerId: int) returns (r: Outcome<bool>)
      requires Valid()
      modifies this`trace
      ensures !isConnected ==> r == Raised(NotConnectedMessage) && trace == old(trace)
      ensures isConnected ==>
        && trace == old(trace) + [Request(Post, baseUrl, ClearEndpoint(layerId), NoBody)]
        && r == Returned(IsOk(net(|old(trace)|)))
    {
      if !isConnected {
        return Raised(NotConnectedMessage);
      }
      var reply := Fetch(Request(Post, baseUrl, ClearEndpoint(layerId), NoBody));
      r := Returned(IsOk(reply));
    }

    /**
     * Connects a clip, first writing the layer's transition time when one
     * is given (zero included); the result is the connect reply's `ok`.
     */
    method TriggerClip(layerId: int, clipId: int, transitionTime: Option<real>) returns (r: Outcome<bool>)
      modifies this`trace
      ensures !isConnected ==> r == Raised(NotConnectedMessage) && trace == old(trace)
      ensures isConnected ==>
        var t := CueTarget(layerId, clipId, transitionTime);
        && trace == old(trace) + ClipRequests(baseUrl, t)
        && r == Returned(ClipResult(net, |old(trace)|, baseUrl, t))
    {
      if !isConnected {
        return Raised(NotConnectedMessage);
      }
      if transitionTime.Some? {
        var ignored := SetLayerTransitionTime(layerId, transitionTime.value);
      }
      var reply := Fetch(Request(Post, baseUrl, ConnectEndpoint(layerId, clipId), NoBody));
      r := Returned(IsOk(reply));
    }

    /**
     * The `map` of `triggerClip` over the targets, each trigger issued
     * after the previous one has been answered.
     */
    method TriggerEach(targets: seq<CueTarget>) returns (results: seq<bool>)
      requires isConnected
      modifies this`trace
      ensures trace == old(trace) + TriggerRequests(baseUrl, targets)
      ensures results == TriggerResults(net, |old(trace)|, baseUrl, targets)
      decreases |targets|
    {
      if targets == [] {
        return [];
      }
      var t := targets[0];
      assert CueTarget(t.layerId, t.clipId, t.transitionTime) == t;
      var ok := TriggerClip(t.layerId, t.clipId, t.transitionTime);
      var rest := TriggerEach(targets[1..]);
      results := [ok.value] + rest;
    }

    /** Triggers every target; the results come back in target order. */
    method TriggerMultipleLayers(targets: seq<CueTarget>) returns (r: Outcome<seq<bool>>)
      requires Valid()
      modifies this`trace
      ensures !isConnected ==> r == Raised(NotConnectedMessage) && trace == old(trace)
      ensures isConnected ==>
        && r == Returned(TriggerResults(net, |old(trace)|, baseUrl, targets))
        && trace == old(trace) + TriggerRequests(baseUrl, targets)
    {
      if !isConnected {
        return Raised(NotConnectedMessage);
      }
      var results := TriggerEach(targets);
      r := Returned(results);
    }

    function GetBaseUrl(): (url: string)
      requires Valid()
      reads this
      ensures url == BaseUrlFor(useProxy, host, port)
    {
      baseUrl
    }

    function GetHost(): string
      reads this
    {
      host
    }

    function GetPort(): int
      reads this
    {
      port
    }
  }

  // ---------------------------------------------------------------------
  // The shared instance
  // ---------------------------------------------------------------------

  /** The module-level cell that holds the one shared client. */
  class ApiRegistry {
    var instance: ResolumeAPI?
    const net: nat -> Reply
    const hasWindow: bool
    const hasDesktopBridge: bool

    ghost predicate Valid()
      reads this, instance
    {
      instance != null ==> instance.Valid()
    }

    constructor (net: nat -> Reply, hasWindow: bool, hasDesktopBridge: bool)
      ensures Valid() && instance == null
      ensures this.net == net && this.hasWindow == hasWindow && this.hasDesktopBridge == hasDesktopBridge
    {
      this.net := net;
      this.hasWindow := hasWindow;
      this.hasDesktopBridge := hasDesktopBridge;
      instance := null;
    }

    /**
     * `getResolumeAPI(host?, port?)`: creates the instance on first use
     * (absent arguments take `localhost` and 8080); afterwards returns the
     * same instance, retargeted only when both a non-empty host and a
     * non-zero port are given.
     */
    method GetResolumeAPI(host: Option<string>, port: Option<int>) returns (api: ResolumeAPI)
      requires Valid()
      modifies this, instance
      ensures Valid() && api == instance
      ensures old(instance) == null ==>
        && fresh(api) && api.net == net && !api.isConnected && api.trace == []
        && api.host == host.GetOr("localhost") && api.port == port.GetOr(8080)
        && api.useProxy == (hasWindow && !hasDesktopBridge)
      ensures old(instance) != null ==> api == old(instance)
      ensures old(instance) != null && host.Some? && host.value != "" && port.Some? && port.value != 0 ==>
        api.host == host.value && api.port == port.value && !api.isConnected
        && api.trace == old(api.trace) && api.useProxy == old(api.useProxy)
      ensures old(instance) != null && !(host.Some? && host.value != "" && port.Some? && port.value != 0) ==>
        unchanged(api)
    {
      if instance == null {
        instance := new ResolumeAPI(host.GetOr("localhost"), port.GetOr(8080), net, hasWindow, hasDesktopBridge);
      } else if host.Some? && host.value != "" && port.Some? && port.value != 0 {
        instance.UpdateConnection(host.value, port.value);
      }
      api := instance;
    }

    /** `resetResolumeAPI`: forgets the shared instance. */
    method ResetResolumeAPI()
      modifies this
      ensures instance == null
    {
      instance := null;
    }
  }
}
