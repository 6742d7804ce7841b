/**
 The request ledger behind the PXE server's status page, as values: what
 `StatusMonitor` holds between two calls and how each call changes it.
 The class in StatusMonitor.dfy is proved to perform exactly these transitions.
 */
module Ledger {
  import opened Prelude
  import opened OrderedDict
  import Text

  type Clients = Dict<string, Client>
  type Active = Dict<nat, Request>

  datatype Client = Client(
    ip: string, mac: Option<string>, firstSeen: real, lastSeen: real,
    lastPath: Option<string>, lastStatus: Option<int>, profile: Option<string>,
    requests: nat, boots: nat, bytes: nat)

  datatype Request = Request(
    id: nat, verb: string, path: string, ip: string, mac: Option<string>,
    clientKey: string, startedAt: real, startedMono: Option<real>,
    bytes: nat, length: Option<nat>)

  datatype Record = Record(
    verb: string, path: string, ip: string, mac: Option<string>, status: int,
    finishedAt: real, duration: real, bytes: nat, interrupted: bool, recovered: bool)

  datatype Bounds = Bounds(maxClients: nat, maxRequests: nat)

  datatype Monitor = Monitor(
    bounds: Bounds, historyStart: real, nextId: nat,
    active: Active, clients: Clients, history: seq<Record>,
    requests: nat, successful: nat, failed: nat, bytes: nat, boots: nat,
    serverStarts: nat, recovered: nat)

  /** One call on the monitor; `Restart` is a process start over a saved document. */
  datatype Event =
    | Begin(verb: string, path: string, ip: string, mac: Option<string>, now: real, mono: real)
    | SetLength(id: nat, length: int)
    | AddBytes(id: nat, count: int)
    | Finish(id: nat, status: Option<int>, interrupted: bool, now: real, mono: real)
    | Restart(now: real)

  // ------------------------------------------------------------- identity --

  /** An empty MAC is as good as none. */
  predicate Identified(mac: Option<string>) { mac.Some? && mac.value != "" }

  function ClientKey(ip: string, mac: Option<string>): string {
    if Identified(mac) then "mac:" + mac.value else "ip:" + ip
  }

  lemma KeyKinds(ip: string, mac: string, ip': string)
    requires mac != ""
    ensures ClientKey(ip, Some(mac)) != ClientKey(ip', None)
    ensures ClientKey(ip, None) == ClientKey(ip', None) ==> ip == ip'
    ensures ClientKey(ip, Some(mac)) == ClientKey(ip', Some(mac))
  {
    assert ("mac:" + mac)[0] == 'm' && ("ip:" + ip')[0] == 'i';
    if "ip:" + ip == "ip:" + ip' {
      assert ip == ("ip:" + ip)[3..] == ("ip:" + ip')[3..] == ip';
    }
  }

  // ---------------------------------------------------------------- paths --

  function BaseName(path: string): string {
    if path == "" || path[|path| - 1] == '/' then ""
    else BaseName(path[..|path| - 1]) + [path[|path| - 1]]
  }

  predicate IsBootPath(path: string) { Text.Lower(BaseName(path)) == "filesystem.squashfs" }

  /** The non-empty components of a path. */
  function Parts(path: string, part: string := ""): seq<string>
    decreases |path|
  {
    var flushed := if part == "" then [] else [part];
    if path == "" then flushed
    else if path[0] == '/' then flushed + Parts(path[1..])
    else Parts(path[1..], part + [path[0]])
  }

  function ProfileIn(parts: seq<string>): Option<string> {
    if |parts| < 2 then None
    else if parts[0] == "thinclient" then
      if parts[1] == "lite" || parts[1] == "full" then Some(parts[1]) else None
    else ProfileIn(parts[1..])
  }

  function RequestProfile(path: string): Option<string> { ProfileIn(Parts(Text.Lower(path))) }

  // -------------------------------------------------------------- clients --

  function NewClient(ip: string, mac: Option<string>, now: real): Client {
    Client(ip, mac, now, now, None, None, None, 0, 0, 0)
  }

  function MergeClients(destination: Client, source: Client): Client {
    var newer := source.lastSeen > destination.lastSeen;
    destination.(
      firstSeen := if source.firstSeen < destination.firstSeen then source.firstSeen else destination.firstSeen,
      lastSeen := if newer then source.lastSeen else destination.lastSeen,
      lastPath := if newer then source.lastPath else destination.lastPath,
      lastStatus := if newer then source.lastStatus else destination.lastStatus,
      profile := if newer || destination.profile.None? then source.profile else destination.profile,
      requests := destination.requests + source.requests,
      boots := destination.boots + source.boots,
      bytes := destination.bytes + source.bytes)
  }

  /** The anonymous entry that an identified request from `ip` takes over, if tabled. */
  function Absorbed(clients: Clients, ip: string, mac: Option<string>): Option<Client> {
    if Identified(mac) then Lookup(clients, ClientKey(ip, None)) else None
  }

  function WithoutAbsorbed(clients: Clients, ip: string, mac: Option<string>): Clients {
    if Identified(mac) then Del(clients, ClientKey(ip, None)) else clients
  }

  function Seen(client: Client, ip: string, mac: Option<string>, path: string, now: real): Client {
    var profile := RequestProfile(path);
    client.(ip := ip, mac := if Identified(mac) then mac else client.mac,
            lastSeen := now, lastPath := Some(path),
            profile := if profile.Some? then profile else client.profile,
            requests := client.requests + 1)
  }

  /** The entry of the requesting client once the request is registered. */
  function TouchedClient(clients: Clients, ip: string, mac: Option<string>, path: string, now: real): Client {
    var absorbed := Absorbed(clients, ip, mac);
    var known := Lookup(WithoutAbsorbed(clients, ip, mac), ClientKey(ip, mac));
    var client := if known.Some? then known.value
                  else NewClient(ip, if Identified(mac) then mac else None, now);
    Seen(if absorbed.Some? then MergeClients(client, absorbed.value) else client, ip, mac, path, now)
  }

  /** The table before eviction: the requesting client is its most recent entry. */
  function TouchedTable(clients: Clients, ip: string, mac: Option<string>, path: string, now: real): Clients {
    var key := ClientKey(ip, mac);
    Del(WithoutAbsorbed(clients, ip, mac), key) + [(key, TouchedClient(clients, ip, mac, path, now))]
  }

  function Moved(r: Request, from: string, to: string, mac: Option<string>): Request {
    if r.clientKey == from then r.(clientKey := to, mac := mac) else r
  }

  function Rekey(active: Active, from: string, to: string, mac: Option<string>): (r: Active)
    ensures |r| == |active|
  {
    if active == [] then []
    else [(active[0].0, Moved(active[0].1, from, to, mac))] + Rekey(active[1..], from, to, mac)
  }

  function Rekeyed(m: Monitor, ip: string, mac: Option<string>): Active {
    if Absorbed(m.clients, ip, mac).Some?
    then Rekey(m.active, ClientKey(ip, None), ClientKey(ip, mac), mac)
    else m.active
  }

  // ------------------------------------------------------------ the calls --

  function Fresh(bounds: Bounds, now: real): Monitor {
    Monitor(bounds, now, 1, [], [], [], 0, 0, 0, 0, 0, 1, 0)
  }

  function BeginRequest(m: Monitor, verb: string, path: string, ip: string, mac: Option<string>, now: real,
      mono: real): Monitor {
    var request := Request(m.nextId, verb, path, ip, mac, ClientKey(ip, mac), now, Some(mono), 0, None);
    m.(nextId := m.nextId + 1,
       clients := Newest(TouchedTable(m.clients, ip, mac, path, now), m.bounds.maxClients),
       active := Put(Rekeyed(m, ip, mac), m.nextId, request),
       requests := m.requests + 1)
  }


  function SetContentLength(m: Monitor, id: nat, length: int): Monitor {
    match Lookup(m.active, id)
    case None => m
    case Some(r) => m.(active := Put(m.active, id, r.(length := Some(Max(0, length)))))
  }

  function AddSentBytes(m: Monitor, id: nat, count: int): Monitor {
    match Lookup(m.active, id)
    case None => m
    case Some(r) => m.(active := Put(m.active, id, r.(bytes := r.bytes + Max(0, count))))
  }

  /** How a transfer ended: a complete GET must have sent the announced length. */
  datatype Verdict = Verdict(code: int, interrupted: bool, ok: bool, boot: bool)

  function Judge(verb: string, path: string, bytes: nat, length: Option<nat>, status: Option<int>,
      interrupted: bool): Verdict {
    var code := if status.Some? then status.value else 0;
    var cut := interrupted || (verb == "GET" && code == 200 && length.Some? && bytes != length.value);
    var ok := 200 <= code < 400 && !cut;
    Verdict(code, cut, ok, ok && code == 200 && verb == "GET" && IsBootPath(path))
  }

  function FinishedClient(c: Client, r: Request, v: Verdict, now: real): Client {
    c.(lastSeen := now, lastPath := Some(r.path), lastStatus := Some(v.code),
       bytes := c.bytes + r.bytes, boots := c.boots + (if v.boot then 1 else 0))
  }

  /** Applies a change to a client's entry unless the entry has been evicted. */
  function CreditClient(clients: Clients, key: string, r: Request, v: Verdict, now: real): Clients {
    match Lookup(clients, key)
    case None => clients
    case Some(c) => Put(clients, key, FinishedClient(c, r, v, now))
  }

  function Duration(from: Option<real>, to: real): real {
    if from.Some? && from.value < to then to - from.value else 0.0
  }

  /** Books a finished transfer: totals, its client if still tabled, and the history. */
  function Concluded(m: Monitor, r: Request, v: Verdict, now: real, mono: real): Monitor {
    var record := Record(r.verb, r.path, r.ip, r.mac, v.code, now,
                         Duration(r.startedMono, mono), r.bytes, v.interrupted, false);
    m.(clients := CreditClient(m.clients, r.clientKey, r, v, now),
       history := Take([record] + m.history, m.bounds.maxRequests),
       successful := m.successful + (if v.ok then 1 else 0),
       failed := m.failed + (if v.ok then 0 else 1),
       bytes := m.bytes + r.bytes,
       boots := m.boots + (if v.boot then 1 else 0))
  }

  function FinishRequest(m: Monitor, id: nat, status: Option<int>, interrupted: bool, now: real, mono: real): Monitor {
    match Lookup(m.active, id)
    case None => m
    case Some(r) =>
      Concluded(m.(active := Del(m.active, id)), r,
                Judge(r.verb, r.path, r.bytes, r.length, status, interrupted), now, mono)
  }

  const LOST := Verdict(0, true, false, false)

  function RecoverOne(m: Monitor, r: Request, now: real): Monitor {
    var record := Record(r.verb, r.path, r.ip, r.mac, 0, now,
                         Duration(Some(r.startedAt), now), r.bytes, true, true);
    m.(clients := CreditClient(m.clients, r.clientKey, r, LOST, now),
       history := Take([record] + m.history, m.bounds.maxRequests),
       failed := m.failed + 1, recovered := m.recovered + 1, bytes := m.bytes + r.bytes)
  }

  function RecoverAll(m: Monitor, rs: Active, now: real): Monitor
    decreases |rs|
  {
    if rs == [] then m else RecoverAll(RecoverOne(m, rs[0].1, now), rs[1..], now)
  }

  function RecoverInterrupted(m: Monitor, now: real): Monitor {
    RecoverAll(m, m.active, now).(active := [])
  }

  // ------------------------------------------------------ durable document --

  datatype ActiveItem = ActiveItem(
    id: nat, verb: string, path: string, ip: string, mac: Option<string>,
    clientKey: string, startedAt: real, bytes: nat, length: Option<nat>)

  datatype Document = Document(
    savedAt: real, historyStart: real, nextId: nat,
    requests: nat, successful: nat, failed: nat, bytes: nat, boots: nat,
    serverStarts: nat, recovered: nat,
    clients: Clients, recentRequests: seq<Record>, activeRequests: seq<ActiveItem>)

  function Item(r: Request): ActiveItem {
    ActiveItem(r.id, r.verb, r.path, r.ip, r.mac, r.clientKey, r.startedAt, r.bytes, r.length)
  }

  function Items(active: Active): (items: seq<ActiveItem>)
    ensures |items| == |active|
  {
    if active == [] then [] else [Item(active[0].1)] + Items(active[1..])
  }

  function StateDocument(m: Monitor, savedAt: real): Document {
    Document(savedAt, m.historyStart, m.nextId, m.requests, m.successful, m.failed, m.bytes, m.boots,
             m.serverStarts, m.recovered, m.clients, m.history, Items(m.active))
  }

  const ACTIVE_LIMIT := 2048

  /** A saved transfer has no monotonic start: that clock died with the process. */
  function Revived(i: ActiveItem): Request {
    Request(i.id, i.verb, i.path, i.ip, i.mac, i.clientKey, i.startedAt, None, i.bytes, i.length)
  }

  function RevivedAll(items: seq<ActiveItem>): (r: Active)
    ensures |r| == |items|
  {
    if items == [] then [] else [(items[0].id, Revived(items[0]))] + RevivedAll(items[1..])
  }

  function MaxId(active: Active): nat {
    if active == [] then 0 else Max(active[0].0, MaxId(active[1..]))
  }

  /**
   Rebuilds a monitor from a saved document; None when the document holds more
   active requests than the loader accepts. A slice `entries[-0:]` is all of them.
   */
  function Restore(bounds: Bounds, d: Document): Option<Monitor> {
    if |d.activeRequests| > ACTIVE_LIMIT then None
    else
      var kept := if bounds.maxClients == 0 then d.clients else Newest(d.clients, bounds.maxClients);
      var active := PutAll(RevivedAll(d.activeRequests));
      Some(Monitor(bounds, d.historyStart, Max(d.nextId, MaxId(active) + 1), active, PutAll(kept),
                   Take(d.recentRequests, bounds.maxRequests),
                   d.requests, d.successful, d.failed, d.bytes, d.boots, d.serverStarts, d.recovered))
  }

  // --------------------------------------------------------------- histories --

  /** What a restart over a just-saved document does to the state it saved. */
  function RestartFrom(m: Monitor, now: real): Monitor {
    RecoverInterrupted(m.(serverStarts := m.serverStarts + 1), now)
  }

  function Apply(m: Monitor, e: Event): Monitor {
    match e
    case Begin(verb, path, ip, mac, now, mono) => BeginRequest(m, verb, path, ip, mac, now, mono)
    case SetLength(id, length) => SetContentLength(m, id, length)
    case AddBytes(id, count) => AddSentBytes(m, id, count)
    case Finish(id, status, interrupted, now, mono) => FinishRequest(m, id, status, interrupted, now, mono)
    case Restart(now) => RestartFrom(m, now)
  }

  /** The state after a whole history of calls, restarts included. */
  function Replay(bounds: Bounds, start: real, log: seq<Event>): Monitor {
    if log == [] then Fresh(bounds, start)
    else Apply(Replay(bounds, start, log[..|log| - 1]), log[|log| - 1])
  }

  lemma ReplaySnoc(bounds: Bounds, start: real, log: seq<Event>, e: Event)
    ensures Replay(bounds, start, log + [e]) == Apply(Replay(bounds, start, log), e)
  {
    assert (log + [e])[..|log|] == log;
  }
}
