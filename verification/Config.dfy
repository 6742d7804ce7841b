/**
 The configuration's normal form: layered merge with per-key fallback, total
 normalisation of arbitrary JSON values, connection ids and referential clean-up.
 These functions say what the loader computes; ConfigLoader.dfy has its loops.
 The tables of known keys are a parameter, so that nothing here depends on their
 content; ConfigTables.dfy has the ones the thin client ships.
 */
module Config {
  import opened Prelude
  import opened Text

  /** The names the loader knows, and every other one. */
  datatype Key =
    | Schema | Device | Connections
    | HostnamePrefix | KeyboardLayout | KeyboardVariant | Timezone | NtpServer | ScreenBlankMinutes
    | Resolution | AdminPassword | AutoConnect | AllowSettings | AllowConsole | AllowTerminal | SessionBar | ShowIp
    | Id | Name | Group | Description | Protocol | Host | Port | Username | Domain | Password
    | PromptCredentials | Gateway | GatewayUsername | GatewayDomain | App | DisplayMode | CertPolicy | Security
    | Gfx | Network | AudioOut | AudioIn | RedirectClipboard | RedirectUsbStorage | RedirectUsbDevices
    | RedirectSmartcard | RedirectPrinters | AutoReconnect | ReconnectDelay | ExtraArgs
    | Other(name: string)

  datatype Json =
    | Null
    | Bool(b: bool)
    | Int(i: int)
    | Float(value: Option<real>) // None is a NaN or an infinity
    | Str(s: string)
    | Arr(items: seq<Json>)
    | Obj(fields: map<Key, Json>)

  type Table = map<Key, Json>

  /** `table.get(key)` */
  function Get(t: Table, key: Key): Json { if key in t then t[key] else Null }

  function GetStr(t: Table, key: Key): string {
    if key in t && t[key].Str? then t[key].s else ""
  }

  // ------------------------------------------------------------- one value --

  datatype Kind =
    | Text(strip: bool)
    | Flag
    | Range(lo: int, hi: int)
    | Choice(choices: seq<string>)
    | Display
    | Words

  const YES := ["true", "yes", "on", "1"]
  const NO := ["false", "no", "off", "0"]
  const DISPLAY_MODES := ["fullscreen", "multimon", "window"]

  function Clean(strip: bool, s: string): string { if strip then Strip(s) else s }

  function Folded(s: string): string { Lower(Strip(s)) }

  predicate Digits(s: string) { s != "" && forall i :: 0 <= i < |s| ==> IsDigit(s[i]) }

  /** A width or height: a non-zero digit and one to four more. */
  predicate Extent(s: string) { 2 <= |s| <= 5 && Digits(s) && s[0] != '0' }

  predicate IsSize(s: string) {
    exists k :: 0 <= k < |s| && s[k] == 'x' && Extent(s[..k]) && Extent(s[k + 1..])
  }

  /** Digits with single underscores between them, as `int()` reads them. */
  predicate Grouped(s: string) {
    && s != "" && IsDigit(s[0]) && IsDigit(s[|s| - 1])
    && (forall i :: 0 <= i < |s| ==> IsDigit(s[i]) || s[i] == '_')
    && (forall i :: 0 <= i < |s| - 1 ==> !(s[i] == '_' && s[i + 1] == '_'))
  }

  function Ungrouped(s: string): string {
    if s == "" then "" else (if s[0] == '_' then "" else [s[0]]) + Ungrouped(s[1..])
  }

  /** Longer digit strings are refused by the conversion. */
  const MAX_DIGITS := 4300

  /** `int(text)`, None standing for ValueError */
  function ParseInt(text: string): Option<int> {
    var t := Strip(text);
    var signed := t != "" && (t[0] == '-' || t[0] == '+');
    var body := if signed then t[1..] else t;
    if !Grouped(body) || |Ungrouped(body)| > MAX_DIGITS then None
    else if signed && t[0] == '-' then Some(-Value(Ungrouped(body)))
    else Some(Value(Ungrouped(body)))
  }

  /** `int(value)` for the values the clamp does not reject outright */
  function Number(v: Json): Option<int> {
    match v
    case Int(i) => Some(i)
    case Float(Some(x)) => if x == x.Floor as real then Some(x.Floor) else None
    case Str(s) => ParseInt(s)
    case _ => None
  }

  function Truth(v: Json): Option<bool> {
    match v
    case Bool(b) => Some(b)
    case Int(i) => if i == 0 || i == 1 then Some(i == 1) else None
    case Str(s) => if Folded(s) in YES then Some(true) else if Folded(s) in NO then Some(false) else None
    case _ => None
  }

  function CleanWords(items: seq<Json>): seq<Json> {
    if items == [] then []
    else
      (if items[0].Str? && Strip(items[0].s) != "" then [Str(Strip(items[0].s))] else []) + CleanWords(items[1..])
  }

  /** Is the supplied value usable for a setting of this kind? */
  predicate Valid(k: Kind, v: Json) {
    match k
    case Text(_) => v.Str?
    case Flag => Truth(v).Some?
    case Range(_, _) => Number(v).Some?
    case Choice(choices) => v.Str? && Folded(v.s) in choices
    case Display => v.Str? && (Folded(v.s) in DISPLAY_MODES || IsSize(Folded(v.s)))
    case Words => v.Arr?
  }

  /** The canonical form of a usable value. */
  function Canonical(k: Kind, v: Json): Json
    requires Valid(k, v)
  {
    match k
    case Text(strip) => Str(Clean(strip, v.s))
    case Flag => Bool(Truth(v).value)
    case Range(lo, hi) => Int(Min(hi, Max(lo, Number(v).value)))
    case Choice(_) => Str(Folded(v.s))
    case Display => Str(Folded(v.s))
    case Words => Arr(CleanWords(v.items))
  }

  function Setting(k: Kind, v: Json, default: Json): Json {
    if Valid(k, v) then Canonical(k, v) else default
  }

  /** A value that normalisation would leave as it is. */
  predicate Normal(k: Kind, v: Json) { Valid(k, v) && Canonical(k, v) == v }

  // ------------------------------------------------------------- one table --

  /** The known keys of a section. */
  type Fields = map<Key, Kind>

  /** Every known key present with a canonical value. */
  predicate Fits(fields: Fields, t: Table) {
    forall k :: k in fields ==> k in t && Normal(fields[k], t[k])
  }

  /** Normalises every known key, taking unusable values from `fallback`; keeps the others. */
  function Normalise(fields: Fields, t: Table, fallback: Table): (r: Table)
    requires fields.Keys <= fallback.Keys
    ensures r.Keys == t.Keys + fields.Keys
  {
    t + map k | k in fields :: Setting(fields[k], Get(t, k), fallback[k])
  }

  /** The known keys of both sections with their defaults. */
  datatype Profile = Profile(
    device: Fields, deviceDefaults: Table,
    connection: Fields, connectionDefaults: Table,
    protocols: seq<string>, rdpPort: int, vncPort: int)

  const TEXT := Text(true)

  /** The port a connection gets without a usable one of its own. */
  function DefaultPort(p: Profile, raw: Table): int {
    if Setting(Choice(p.protocols), Get(raw, Protocol), Str("rdp")) == Str("vnc") then p.vncPort else p.rdpPort
  }

  function ConnectionDefaults(p: Profile, raw: Table): Table {
    p.connectionDefaults[Port := Int(DefaultPort(p, raw))]
  }

  /** The defaults are canonical, and the keys the loader itself consults are trimmed texts. */
  predicate Sane(p: Profile) {
    && Fits(p.device, p.deviceDefaults) && p.deviceDefaults.Keys == p.device.Keys
    && Fits(p.connection, p.connectionDefaults)
    && AutoConnect in p.device && p.device[AutoConnect] == TEXT
    && (forall k :: k in {Id, Name, Host} ==> k in p.connection && p.connection[k] == TEXT)
    && Port in p.connection && p.connection[Port] == Range(1, 65535)
    && 1 <= p.rdpPort <= 65535 && 1 <= p.vncPort <= 65535
  }

  function NormaliseConnection(p: Profile, raw: Table): Table
    requires Sane(p)
  {
    Normalise(p.connection, raw, ConnectionDefaults(p, raw))
  }

  // ------------------------------------------------------------------- ids --

  function Generated(n: nat): string { "conn" + Decimal(n) }

  lemma GeneratedInjective(m: nat, n: nat)
    requires Generated(m) == Generated(n)
    ensures m == n
  {
    assert Decimal(m) == Generated(m)[4..] == Generated(n)[4..] == Decimal(n);
    DecimalInjective(m, n);
  }

  /** The generated ids below `n`. */
  ghost function Issued(n: nat): set<string> { set k: nat | 0 <= k < n :: Generated(k) }

  lemma IssuedStep(taken: set<string>, n: nat)
    requires Generated(n) in taken
    ensures |taken - Issued(n + 1)| < |taken - Issued(n)|
  {
    if Generated(n) in Issued(n) {
      var k: nat :| k < n && Generated(k) == Generated(n);
      GeneratedInjective(k, n);
    }
    assert Issued(n + 1) == Issued(n) + {Generated(n)};
    assert taken - Issued(n + 1) == (taken - Issued(n)) - {Generated(n)};
  }

  /** The first number from `n` on whose id is not taken: at most |taken| are. */
  function NextFree(taken: set<string>, n: nat): (r: nat)
    ensures r >= n && Generated(r) !in taken
    ensures forall k: nat :: n <= k < r ==> Generated(k) in taken
    decreases |taken - Issued(n)|
  {
    if Generated(n) in taken then IssuedStep(taken, n); NextFree(taken, n + 1) else n
  }

  function Explicit(ids: seq<string>): set<string> { set i | 0 <= i < |ids| && ids[i] != "" :: ids[i] }

  function Assign(ids: seq<string>, reserved: set<string>, used: set<string>, next: nat): seq<string>
    decreases |ids|
  {
    if ids == [] then []
    else if ids[0] != "" && ids[0] !in used then [ids[0]] + Assign(ids[1..], reserved, used + {ids[0]}, next)
    else
      var n := NextFree(reserved + used, next);
      [Generated(n)] + Assign(ids[1..], reserved, used + {Generated(n)}, n + 1)
  }

  function AssignIds(ids: seq<string>): seq<string> { Assign(ids, Explicit(ids), {}, 1) }

  // ------------------------------------------------------------------ load --

  datatype Loaded = Loaded(device: Table, connections: seq<Table>)

  /** The layer's device section, if it has one. */
  function DeviceOf(layer: Json): Option<Table> {
    if layer.Obj? && Get(layer.fields, Device).Obj? then Some(layer.fields[Device].fields) else None
  }

  function ConnectionsOf(layer: Json): Option<seq<Json>> {
    if layer.Obj? && Get(layer.fields, Connections).Arr? then Some(layer.fields[Connections].items) else None
  }

  /** One layer's device section on top of what the earlier layers gave. */
  function MergeLayer(fields: Fields, previous: Table, layer: Json): (device: Table)
    requires fields.Keys <= previous.Keys
    ensures fields.Keys <= device.Keys
  {
    var section := DeviceOf(layer);
    if section.None? then previous else Normalise(fields, previous + section.value, previous)
  }

  /** The device section of all layers, starting from `previous`. */
  function Merge(fields: Fields, previous: Table, layers: seq<Json>): (device: Table)
    requires fields.Keys <= previous.Keys
    decreases |layers|
  {
    if layers == [] then previous else Merge(fields, MergeLayer(fields, previous, layers[0]), layers[1..])
  }

  /** The last connection list of all layers, or `previous`. */
  function MergeConnections(layers: seq<Json>, previous: seq<Json> := []): seq<Json>
    decreases |layers|
  {
    if layers == [] then previous
    else
      var section := ConnectionsOf(layers[0]);
      MergeConnections(layers[1..], if section.Some? then section.value else previous)
  }

  function NormaliseAll(p: Profile, raw: seq<Json>): seq<Table>
    requires Sane(p)
  {
    if raw == [] then []
    else (if raw[0].Obj? then [NormaliseConnection(p, raw[0].fields)] else []) + NormaliseAll(p, raw[1..])
  }

  function IdsOf(conns: seq<Table>): (ids: seq<string>)
    ensures |ids| == |conns| && forall i :: 0 <= i < |ids| ==> ids[i] == GetStr(conns[i], Id)
  {
    seq(|conns|, i requires 0 <= i < |conns| => GetStr(conns[i], Id))
  }

  /** Stores an id and, when there is no name, names the connection after its host or id. */
  function Finished(conn: Table, id: string): Table {
    var c := conn[Id := Str(id)];
    if GetStr(c, Name) != "" then c
    else c[Name := Str(if GetStr(c, Host) != "" then GetStr(c, Host) else id)]
  }

  function FinishAll(conns: seq<Table>, ids: seq<string>): (r: seq<Table>)
    requires |ids| == |conns|
    ensures |r| == |conns| && forall i :: 0 <= i < |r| ==> r[i] == Finished(conns[i], ids[i])
  {
    seq(|conns|, i requires 0 <= i < |conns| => Finished(conns[i], ids[i]))
  }

  lemma {:induction false} AssignLength(ids: seq<string>, reserved: set<string>, used: set<string>, next: nat)
    ensures |Assign(ids, reserved, used, next)| == |ids|
    decreases |ids|
  {
    if ids != [] {
      if ids[0] != "" && ids[0] !in used {
        AssignLength(ids[1..], reserved, used + {ids[0]}, next);
      } else {
        var n := NextFree(reserved + used, next);
        AssignLength(ids[1..], reserved, used + {Generated(n)}, n + 1);
      }
    }
  }

  /** A connection to open automatically must exist. */
  function Referential(device: Table, ids: seq<string>): Table {
    if GetStr(device, AutoConnect) in ids then device else device[AutoConnect := Str("")]
  }

  /** The merged configuration; a file that cannot be read is the layer `Null`. */
  function Load(p: Profile, layers: seq<Json>): Loaded
    requires Sane(p)
  {
    var conns := NormaliseAll(p, MergeConnections(layers));
    var ids := AssignIds(IdsOf(conns));
    AssignLength(IdsOf(conns), Explicit(IdsOf(conns)), {}, 1);
    var finished := FinishAll(conns, ids);
    Loaded(Referential(Merge(p.device, p.deviceDefaults, layers), IdsOf(finished)), finished)
  }

  function Wrap(conns: seq<Table>): (r: seq<Json>)
    ensures |r| == |conns| && forall i :: 0 <= i < |r| ==> r[i] == Obj(conns[i])
  {
    seq(|conns|, i requires 0 <= i < |conns| => Obj(conns[i]))
  }

  /** The document that saving writes. */
  function Saved(cfg: Loaded): Json {
    Obj(map[Schema := Int(1), Device := Obj(cfg.device), Connections := Arr(Wrap(cfg.connections))])
  }
}
