/**
 The copyable network report: its printer, which inserts and appends lines, and its
 parser, which reads the lines back into result rows. The words that printer and parser
 both spell out are a parameter; ReportWords.dfy has the English ones.
 */
module Report {
  import opened Prelude
  import opened Text
  import opened OrderedDict

  // -------------------------------------------------------------------- text --

  function UpperChar(c: char): char { if 'a' <= c <= 'z' then c - 'a' + 'A' else c }

  /** `str.upper()` on the ASCII letters */
  function Upper(s: string): (r: string)
    ensures |r| == |s| && forall i :: 0 <= i < |s| ==> r[i] == UpperChar(s[i])
  {
    seq(|s|, i requires 0 <= i < |s| => UpperChar(s[i]))
  }

  predicate IsFirst(s: string, c: char, i: int) { 0 <= i < |s| && s[i] == c && c !in s[..i] }

  lemma {:induction false} FirstExists(s: string, c: char)
    requires c in s
    ensures exists i :: IsFirst(s, c, i)
  {
    if s[0] == c {
      assert IsFirst(s, c, 0);
    } else {
      FirstExists(s[1..], c);
      var i :| IsFirst(s[1..], c, i);
      assert s[..i + 1] == [s[0]] + s[1..][..i];
      assert IsFirst(s, c, i + 1);
    }
  }

  /** The position of the first `c`. */
  function Find(s: string, c: char): (r: Option<nat>)
    ensures match r case Some(i) => IsFirst(s, c, i) case None => c !in s
  {
    if c in s then
      FirstExists(s, c);
      var i: nat :| i < |s| && IsFirst(s, c, i);
      Some(i)
    else None
  }

  /** `word in text` */
  predicate Contains(text: string, word: string) {
    exists i :: 0 <= i <= |text| && word <= text[i..]
  }

  /** Where `str.splitlines` ends a line. */
  predicate IsBreak(c: char) {
    '\n' <= c <= '\r' || '\U{1c}' <= c <= '\U{1e}' || c == '\U{85}' || c == '\U{2028}' || c == '\U{2029}'
  }

  /** The code points of these characters. */
  lemma IsBreakIff(c: char)
    ensures IsBreak(c) <==> c as int in {10, 11, 12, 13, 28, 29, 30, 133, 8232, 8233}
  {
  }

  predicate OneLine(s: string) { forall i :: 0 <= i < |s| ==> !IsBreak(s[i]) }

  /** The length of the first line. */
  function LineEnd(s: string): (n: nat)
    ensures n <= |s| && OneLine(s[..n]) && (n < |s| ==> IsBreak(s[n]))
  {
    if s == "" || IsBreak(s[0]) then 0 else 1 + LineEnd(s[1..])
  }

  /** `text.splitlines()` */
  function SplitLines(s: string): seq<string>
    decreases |s|
  {
    if s == "" then []
    else
      var n := LineEnd(s);
      if n == |s| then [s]
      else if s[n] == '\r' && n + 1 < |s| && s[n + 1] == '\n' then [s[..n]] + SplitLines(s[n + 2..])
      else [s[..n]] + SplitLines(s[n + 1..])
  }

  /** `"\n".join(lines)` */
  function Join(lines: seq<string>): string {
    if lines == [] then "" else if |lines| == 1 then lines[0] else lines[0] + "\n" + Join(lines[1..])
  }

  // ------------------------------------------------------------------- words --

  /** The keys of the report's lines, and its first and last line. */
  datatype Keys = Keys(
    title: string, target: string, configured: string, effective: string, local: string, gateway: string,
    ping: string, dns: string, route: string, tcp: string, closing: string)

  datatype Marks = Marks(ok: string, failed: string, skipped: string)

  /** What stands in for missing values, and the notes on a private endpoint. */
  datatype Blanks = Blanks(
    name: string, host: string, interface: string, address: string, gateway: string, detail: string,
    service: string, untested: string, privateNote: string, gatewayNote: string)

  /** `spoken` are the protocol names that start a handshake line. */
  datatype Words = Words(keys: Keys, marks: Marks, blanks: Blanks, spoken: seq<string>)

  // ----------------------------------------------------------------- printer --

  datatype Check = Check(ok: bool, detail: string)

  datatype Handshake = Handshake(skipped: bool, ok: bool, detail: string)

  /** A private endpoint behind a gateway. */
  datatype Configured = Configured(host: string, port: nat)

  datatype Target = Target(name: string, host: string, port: nat, protocol: string, private: Option<Configured>)

  /** Everything the report is printed from. */
  datatype Findings = Findings(
    target: Target, interface: string, address: string, gateway: string,
    ping: Check, dns: Check, tcp: Check, route: Option<Check>, protocol: Option<Handshake>)

  /** `value or default` */
  function Or(value: string, default: string): string { if value != "" then value else default }

  function Dashed(before: string, after: string): string { before + [' '] + ['—'] + ([' '] + after) }

  function Marked(b: Blanks, mark: string, detail: string): string { Dashed(mark, Or(detail, b.detail)) }

  function Outcome(m: Marks, b: Blanks, c: Check): string { Marked(b, if c.ok then m.ok else m.failed, c.detail) }

  function HandshakeOutcome(m: Marks, b: Blanks, h: Handshake): string {
    Marked(b, if h.skipped then m.skipped else if h.ok then m.ok else m.failed, h.detail)
  }

  function HostPort(host: string, port: nat): string { host + [':'] + Decimal(port) }

  function Endpoint(b: Blanks, t: Target): string {
    HostPort(if ':' in t.host then ['['] + t.host + [']'] else Or(t.host, b.host), t.port)
  }

  function Line(key: string, value: string): string { key + [':'] + ([' '] + value) }

  function TargetText(b: Blanks, t: Target): string { Dashed(Or(t.name, b.name), Endpoint(b, t)) }

  function LocalText(b: Blanks, f: Findings): string { Dashed(Or(f.interface, b.interface), Or(f.address, b.address)) }

  function GatewayText(b: Blanks, f: Findings): string { Or(f.gateway, b.gateway) }

  function ProtocolName(b: Blanks, t: Target): string { Upper(Or(t.protocol, b.service)) }

  function TcpName(k: Keys, port: nat): string { k.tcp + Decimal(port) }

  /** The lines every report has, up to the TCP check. */
  function FixedLines(w: Words, f: Findings): (r: seq<string>)
    ensures |r| == 7
  {
    [w.keys.title,
     Line(w.keys.target, TargetText(w.blanks, f.target)),
     Line(w.keys.local, LocalText(w.blanks, f)),
     Line(w.keys.gateway, GatewayText(w.blanks, f)),
     Line(w.keys.ping, Outcome(w.marks, w.blanks, f.ping)),
     Line(w.keys.dns, Outcome(w.marks, w.blanks, f.dns)),
     Line(TcpName(w.keys, f.target.port), Outcome(w.marks, w.blanks, f.tcp))]
  }

  function PrivateLines(k: Keys, b: Blanks, t: Target): seq<string> {
    if t.private.Some? then
      [Line(k.configured, Dashed(HostPort(t.private.value.host, t.private.value.port), b.privateNote)),
       Line(k.effective, Dashed(HostPort(t.host, t.port), b.gatewayNote))]
    else []
  }

  function RouteLines(w: Words, f: Findings): seq<string> {
    if f.route.Some? then [Line(w.keys.route, Outcome(w.marks, w.blanks, f.route.value))] else []
  }

  function ProtocolLines(w: Words, f: Findings): seq<string> {
    if f.protocol.Some? then
      [Line(ProtocolName(w.blanks, f.target), HandshakeOutcome(w.marks, w.blanks, f.protocol.value))]
    else []
  }

  /** The lines above the local network's. */
  function Head(w: Words, f: Findings): seq<string> {
    FixedLines(w, f)[..2] + PrivateLines(w.keys, w.blanks, f.target)
  }

  /** The lines of the network and of the checks. */
  function Body(w: Words, f: Findings): seq<string> {
    FixedLines(w, f)[2..6] + RouteLines(w, f) + FixedLines(w, f)[6..]
  }

  /** The report's lines in order. */
  function ReportLines(w: Words, f: Findings): seq<string> {
    Head(w, f) + (Body(w, f) + ProtocolLines(w, f)) + [w.keys.closing]
  }

  /** `lines.insert(i, line)`; a negative position counts from the end. */
  method Insert(lines: seq<string>, i: int, line: string) returns (r: seq<string>)
    requires -|lines| <= i <= |lines|
    ensures var at := if i < 0 then |lines| + i else i; r == lines[..at] + [line] + lines[at..]
  {
    var at := if i < 0 then |lines| + i else i;
    r := lines[..at] + [line] + lines[at..];
  }

  lemma Halves(a: seq<string>, b: seq<string>)
    ensures (a + b)[..|a|] == a && (a + b)[|a|..] == b
  {
  }

  method InsertPrivate(head: seq<string>, body: seq<string>, private: seq<string>) returns (lines: seq<string>)
    requires |head| == 2 && (private == [] || |private| == 2)
    ensures lines == head + private + body
  {
    lines := head + body;
    if private == [] {
      assert head + private == head;
    } else {
      Halves(head, body);
      lines := Insert(lines, 2, private[0]);
      Halves(head + [private[0]], body);
      lines := Insert(lines, 3, private[1]);
      assert head + [private[0]] + [private[1]] == head + private;
    }
  }

  /** The printer starts from the fixed lines and inserts the optional ones by position. */
  method InsertOptional(fixed: seq<string>, private: seq<string>, route: seq<string>, protocol: seq<string>,
      closing: string)
    returns (lines: seq<string>)
    requires |fixed| == 7 && |route| <= 1 && |protocol| <= 1 && (private == [] || |private| == 2)
    ensures lines == fixed[..2] + private + (fixed[2..6] + route + fixed[6..] + protocol) + [closing]
  {
    lines := fixed;
    if route != [] {
      lines := Insert(lines, -1, route[0]);
      assert route == [route[0]];
    }
    assert lines[2..] == fixed[2..6] + route + fixed[6..];
    if protocol != [] {
      lines := lines + [protocol[0]];
      assert protocol == [protocol[0]];
    }
    assert lines[2..] == fixed[2..6] + route + fixed[6..] + protocol;
    lines := InsertPrivate(lines[..2], lines[2..], private);
    lines := lines + [closing];
  }

  method FormatReport(w: Words, f: Findings) returns (report: string)
    ensures report == Join(ReportLines(w, f))
  {
    var closing := w.keys.closing;
    var lines := InsertOptional(
      FixedLines(w, f), PrivateLines(w.keys, w.blanks, f.target), RouteLines(w, f), ProtocolLines(w, f), closing);
    report := Join(lines);
  }

  // ------------------------------------------------------------------ parser --

  datatype State = Ok | Failed | Skipped | Info

  datatype Row = Row(title: string, state: State, detail: string, ping: Option<State>)

  function StateOf(m: Marks, text: string): State {
    var upper := Upper(Strip(text));
    if m.ok <= upper then Ok else if m.failed <= upper then Failed else if m.skipped <= upper then Skipped else Info
  }

  function DetailOf(text: string): string {
    var dash := Find(text, '—');
    if dash.Some? then Strip(text[dash.value + 1..]) else Strip(text)
  }

  /** The keys the parser knows; the rest of a TCP key is its port. */
  datatype Slot = LocalSlot | GatewaySlot | PingSlot | DnsSlot | RouteSlot | Tcp(port: string) | Shake(name: string)

  function SlotOf(w: Words, key: string): Option<Slot> {
    if key == w.keys.local then Some(LocalSlot)
    else if key == w.keys.gateway then Some(GatewaySlot)
    else if key == w.keys.ping then Some(PingSlot)
    else if key == w.keys.dns then Some(DnsSlot)
    else if key == w.keys.route then Some(RouteSlot)
    else if w.keys.tcp <= key then Some(Tcp(key[|w.keys.tcp|..]))
    else if key in w.spoken then Some(Shake(key))
    else None
  }

  /** The key and value of a line with a colon. */
  function KeyValue(raw: string): Option<(string, string)> {
    var line := Strip(raw);
    var colon := Find(line, ':');
    if colon.None? then None else Some((Strip(line[..colon.value]), Strip(line[colon.value + 1..])))
  }

  /** What has been read: the values by key, and the last protocol line. */
  datatype Reading = Reading(values: Dict<Slot, string>, protocol: Option<(string, string)>)

  function Note(w: Words, r: Reading, raw: string): Reading {
    var kv := KeyValue(raw);
    if kv.None? then r
    else
      match SlotOf(w, kv.value.0)
      case None => r
      case Some(slot) =>
        if slot.Shake? then r.(protocol := Some((slot.name, kv.value.1)))
        else r.(values := Put(r.values, slot, kv.value.1))
  }

  function Collect(w: Words, r: Reading, lines: seq<string>): Reading
    decreases |lines|
  {
    if lines == [] then r else Collect(w, Note(w, r, lines[0]), lines[1..])
  }

  function ValueOr(values: Dict<Slot, string>, slot: Slot, default: string): string {
    var v := Lookup(values, slot);
    if v.Some? then v.value else default
  }

  /** The first TCP key, in the order the keys were first seen. */
  function TcpKey(values: Dict<Slot, string>): (key: Option<Slot>)
    ensures key.Some? ==> key.value.Tcp?
  {
    if values == [] then None else if values[0].0.Tcp? then Some(values[0].0) else TcpKey(values[1..])
  }

  function CheckRow(m: Marks, title: string, text: string): Row { Row(title, StateOf(m, text), DetailOf(text), None) }

  function Untested(w: Words): string { Dashed(w.marks.skipped, w.blanks.untested) }

  function NetworkRow(local: string): Row {
    var bad := Contains(Lower(local), "no active") || Contains(Lower(local), "no ipv");
    Row("Network", if bad then Failed else Ok, local, None)
  }

  function GatewayRow(m: Marks, gateway: string, ping: string): Row {
    var state := if "no " <= Lower(gateway) then Failed else Ok;
    if ping == "" then Row("Gateway", state, gateway, Some(Info))
    else Row("Gateway", state, gateway + " · " + DetailOf(ping), Some(StateOf(m, ping)))
  }

  function TcpRow(w: Words, values: Dict<Slot, string>): Row {
    var key := TcpKey(values);
    if key.None? then CheckRow(w.marks, "Server port", Untested(w))
    else CheckRow(w.marks, if key.value.port == "" then "Server port" else "Server port " + key.value.port,
                  ValueOr(values, key.value, Untested(w)))
  }

  function Rows(w: Words, r: Reading): seq<Row> {
    [NetworkRow(ValueOr(r.values, LocalSlot, "no active interface — no address")),
     GatewayRow(w.marks, ValueOr(r.values, GatewaySlot, "no default gateway"), ValueOr(r.values, PingSlot, "")),
     CheckRow(w.marks, "DNS", ValueOr(r.values, DnsSlot, Untested(w))),
     CheckRow(w.marks, "Route", ValueOr(r.values, RouteSlot, Untested(w))),
     TcpRow(w, r.values)]
    + (if r.protocol.Some? then [CheckRow(w.marks, r.protocol.value.0 + " handshake", r.protocol.value.1)] else [])
  }

  const NOTHING_READ := Reading([], None)

  function ParsedRows(w: Words, report: string): seq<Row> { Rows(w, Collect(w, NOTHING_READ, SplitLines(report))) }

  method ParseReport(w: Words, report: string) returns (rows: seq<Row>)
    ensures rows == ParsedRows(w, report)
  {
    var values: Dict<Slot, string>, protocol: Option<(string, string)> := [], None;
    var lines := SplitLines(report);
    var i := 0;
    while i < |lines|
      invariant 0 <= i <= |lines|
      invariant Collect(w, Reading(values, protocol), lines[i..]) == Collect(w, NOTHING_READ, lines)
    {
      assert lines[i..][1..] == lines[i + 1..];
      var kv := KeyValue(lines[i]);
      if kv.Some? {
        var slot := SlotOf(w, kv.value.0);
        if slot.Some? {
          if slot.value.Shake? {
            protocol := Some((slot.value.name, kv.value.1));
          } else {
            values := Put(values, slot.value, kv.value.1);
          }
        }
      }
      i := i + 1;
    }
    rows := Rows(w, Reading(values, protocol));
  }
}
