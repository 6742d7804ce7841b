/** The report's parser undoes its printer, for every sound choice of words. */
module ReportProofs {
  import opened Prelude
  import opened Text
  import opened OrderedDict
  import opened Report

  // ------------------------------------------------------------------- lines --

  predicate AllOneLine(lines: seq<string>) { forall i :: 0 <= i < |lines| ==> OneLine(lines[i]) }

  lemma LineEndIs(line: string, rest: string)
    requires OneLine(line) && (rest != "" ==> IsBreak(rest[0]))
    ensures LineEnd(line + rest) == |line|
  {
    var s, n := line + rest, LineEnd(line + rest);
    assert forall i :: 0 <= i < n ==> s[..n][i] == s[i];
    if rest != "" { assert s[|line|] == rest[0]; }
  }

  lemma SplitFirst(line: string, rest: string)
    requires OneLine(line)
    ensures SplitLines(line + ['\n'] + rest) == [line] + SplitLines(rest)
  {
    var s := line + ['\n'] + rest;
    assert s == line + (['\n'] + rest);
    LineEndIs(line, ['\n'] + rest);
    assert s[..|line|] == line && s[|line|] == '\n' && s[|line| + 1..] == rest;
  }

  /** Splitting joined lines gives them back. */
  lemma {:induction false} SplitJoin(lines: seq<string>)
    requires AllOneLine(lines) && (lines != [] ==> lines[|lines| - 1] != "")
    ensures SplitLines(Join(lines)) == lines
  {
    if |lines| == 1 {
      assert lines[0] + "" == lines[0];
      LineEndIs(lines[0], "");
    } else if |lines| > 1 {
      SplitJoin(lines[1..]);
      SplitFirst(lines[0], Join(lines[1..]));
    }
  }

  // ------------------------------------------------------------------- words --

  /** Trimmed text on one line. */
  predicate Plain(s: string) { OneLine(s) && Trimmed(s) }

  predicate Word(s: string) { s != "" && Plain(s) }

  predicate IsKey(key: string) { Word(key) && ':' !in key }

  /** A mark is upper-case text without a dash. */
  predicate IsMark(mark: string) { Word(mark) && '—' !in mark && Upper(mark) == mark }

  predicate MarksSound(m: Marks) {
    && IsMark(m.ok) && IsMark(m.failed) && IsMark(m.skipped)
    && m.ok[0] != m.failed[0] && m.ok[0] != m.skipped[0] && m.failed[0] != m.skipped[0]
  }

  predicate BlanksSound(b: Blanks) {
    && OneLine(b.name) && OneLine(b.host) && Word(b.interface) && Word(b.address) && Word(b.gateway)
    && Word(b.detail) && Word(b.service) && Word(b.untested) && Word(b.privateNote) && Word(b.gatewayNote)
  }

  /** The keys the parser does not know are not mistaken for ones it does. */
  predicate KeysSound(w: Words) {
    var k := w.keys;
    && IsKey(k.title) && IsKey(k.closing)
    && IsKey(k.target) && IsKey(k.configured) && IsKey(k.effective)
    && IsKey(k.local) && IsKey(k.gateway) && IsKey(k.ping) && IsKey(k.dns) && IsKey(k.route)
    && SlotOf(w, k.target).None? && SlotOf(w, k.configured).None? && SlotOf(w, k.effective).None?
    && SlotOf(w, k.local) == Some(LocalSlot) && SlotOf(w, k.gateway) == Some(GatewaySlot)
    && SlotOf(w, k.ping) == Some(PingSlot) && SlotOf(w, k.dns) == Some(DnsSlot) && SlotOf(w, k.route) == Some(RouteSlot)
  }

  /** No other key begins as a TCP key does, so that any port may follow. */
  predicate TcpSound(k: Keys) {
    && k.tcp != "" && OneLine(k.tcp) && !IsSpace(k.tcp[0]) && ':' !in k.tcp
    && !(k.tcp <= k.local) && !(k.tcp <= k.gateway) && !(k.tcp <= k.ping) && !(k.tcp <= k.dns) && !(k.tcp <= k.route)
  }

  /** The name of a protocol line's key; an unnamed protocol has one the parser passes over. */
  predicate ProtocolSound(w: Words, protocol: string) {
    var key := ProtocolName(w.blanks, Target("", "", 0, protocol, None));
    && IsKey(key)
    && SlotOf(w, key) == if protocol == "" then None else Some(Shake(key))
  }

  predicate Sound(w: Words) { MarksSound(w.marks) && BlanksSound(w.blanks) && KeysSound(w) && TcpSound(w.keys) }

  // ---------------------------------------------------------------- one line --

  lemma FindAfter(a: string, c: char, b: string)
    requires c !in a
    ensures Find(a + [c] + b, c) == Some(|a|)
    ensures (a + [c] + b)[..|a|] == a && (a + [c] + b)[|a| + 1..] == b
  {
    var s := a + [c] + b;
    assert s[|a|] == c && s[..|a|] == a && s[|a| + 1..] == b;
  }

  lemma StripSpaced(v: string)
    requires v != "" && Trimmed(v)
    ensures Strip([' '] + v) == v
  {
    assert ([' '] + v)[1..] == v;
    StripTrims(v);
  }

  /** A printed line is read back as its key and value. */
  lemma LineReads(key: string, value: string)
    requires IsKey(key) && value != "" && !IsSpace(value[|value| - 1])
    ensures KeyValue(Line(key, value)).Some? && KeyValue(Line(key, value)).value.0 == key
    ensures Trimmed(value) ==> KeyValue(Line(key, value)).value.1 == value
  {
    var raw := Line(key, value);
    assert raw[0] == key[0] && raw[|raw| - 1] == value[|value| - 1];
    StripTrims(raw);
    StripTrims(key);
    FindAfter(key, ':', [' '] + value);
    if Trimmed(value) { StripSpaced(value); }
  }

  lemma LineIsOne(key: string, value: string)
    requires OneLine(key) && OneLine(value)
    ensures OneLine(Line(key, value)) && Line(key, value) != ""
  {
  }

  /** Text after the printer's dash is recovered, dashes and colons in it included. */
  lemma DashReads(before: string, after: string)
    requires Word(before) && Word(after)
    ensures var text := Dashed(before, after);
            Word(text) && before <= Strip(text) && ('—' !in before ==> DetailOf(text) == after)
  {
    var text := Dashed(before, after);
    assert text[0] == before[0] && text[|text| - 1] == after[|after| - 1];
    StripTrims(text);
    if '—' !in before {
      FindAfter(before + [' '], '—', [' '] + after);
      StripSpaced(after);
    }
  }

  lemma UpperPrefix(mark: string, text: string)
    requires mark <= text && Upper(mark) == mark
    ensures mark <= Upper(text)
  {
    forall i | 0 <= i < |mark| ensures Upper(text)[i] == mark[i] {
      assert Upper(mark)[i] == UpperChar(text[i]);
    }
  }

  lemma StateByMark(m: Marks, text: string)
    requires MarksSound(m)
    ensures m.ok <= Strip(text) ==> StateOf(m, text) == Ok
    ensures m.failed <= Strip(text) ==> StateOf(m, text) == Failed
    ensures m.skipped <= Strip(text) ==> StateOf(m, text) == Skipped
  {
    var t := Strip(text);
    if m.ok <= t { UpperPrefix(m.ok, t); }
    if m.failed <= t { UpperPrefix(m.failed, t); }
    if m.skipped <= t { UpperPrefix(m.skipped, t); }
  }

  /** What a printed outcome reads as. */
  predicate Says(m: Marks, text: string, state: State, detail: string) {
    Word(text) && StateOf(m, text) == state && DetailOf(text) == detail
  }

  lemma MarkedSays(m: Marks, b: Blanks, mark: string, detail: string)
    requires MarksSound(m) && Word(b.detail) && Plain(detail) && (mark == m.ok || mark == m.failed || mark == m.skipped)
    ensures Says(m, Marked(b, mark, detail),
                 if mark == m.ok then Ok else if mark == m.failed then Failed else Skipped, Or(detail, b.detail))
  {
    DashReads(mark, Or(detail, b.detail));
    StateByMark(m, Marked(b, mark, detail));
  }

  function Passed(ok: bool): State { if ok then Ok else Failed }

  lemma OutcomeSays(m: Marks, b: Blanks, c: Check)
    requires MarksSound(m) && Word(b.detail) && Plain(c.detail)
    ensures Says(m, Outcome(m, b, c), Passed(c.ok), Or(c.detail, b.detail))
  {
    MarkedSays(m, b, if c.ok then m.ok else m.failed, c.detail);
  }

  function ShakeState(h: Handshake): State { if h.skipped then Skipped else Passed(h.ok) }

  lemma HandshakeSays(m: Marks, b: Blanks, h: Handshake)
    requires MarksSound(m) && Word(b.detail) && Plain(h.detail)
    ensures Says(m, HandshakeOutcome(m, b, h), ShakeState(h), Or(h.detail, b.detail))
  {
    MarkedSays(m, b, if h.skipped then m.skipped else if h.ok then m.ok else m.failed, h.detail);
  }

  // ------------------------------------------------------------ what lines say --

  /** The parser takes this value for this slot from the line. */
  predicate Reads(w: Words, raw: string, slot: Slot, value: string) {
    var kv := KeyValue(raw);
    kv.Some? && SlotOf(w, kv.value.0) == Some(slot) && kv.value.1 == value
  }

  /** The parser takes nothing from the line. */
  predicate Ignored(w: Words, raw: string) { KeyValue(raw).None? || SlotOf(w, KeyValue(raw).value.0).None? }

  predicate AllIgnored(w: Words, lines: seq<string>) {
    AllOneLine(lines) && forall i :: 0 <= i < |lines| ==> Ignored(w, lines[i])
  }

  predicate ReadAs(w: Words, lines: seq<string>, entries: Dict<Slot, string>) {
    && |lines| == |entries| && AllOneLine(lines)
    && forall i :: 0 <= i < |lines| ==> !entries[i].0.Shake? && Reads(w, lines[i], entries[i].0, entries[i].1)
  }

  lemma {:induction false} IgnoreAll(w: Words, r: Reading, lines: seq<string>)
    requires AllIgnored(w, lines)
    ensures Collect(w, r, lines) == r
    decreases |lines|
  {
    if lines != [] {
      assert Ignored(w, lines[0]);
      IgnoreAll(w, r, lines[1..]);
    }
  }

  lemma {:induction false} ReadAll(w: Words, r: Reading, lines: seq<string>, entries: Dict<Slot, string>)
    requires ReadAs(w, lines, entries)
    ensures Collect(w, r, lines) == r.(values := PutAll(entries, r.values))
    decreases |lines|
  {
    if lines != [] {
      assert Reads(w, lines[0], entries[0].0, entries[0].1);
      assert Note(w, r, lines[0]) == r.(values := Put(r.values, entries[0].0, entries[0].1));
      ReadAll(w, Note(w, r, lines[0]), lines[1..], entries[1..]);
    }
  }

  lemma {:induction false} CollectCat(w: Words, r: Reading, a: seq<string>, b: seq<string>)
    ensures Collect(w, r, a + b) == Collect(w, Collect(w, r, a), b)
    decreases |a|
  {
    if a == [] {
      assert a + b == b;
    } else {
      assert (a + b)[1..] == a[1..] + b;
      CollectCat(w, Note(w, r, a[0]), a[1..], b);
    }
  }

  lemma {:induction false} TcpKeyLast(before: Dict<Slot, string>, key: Slot, value: string)
    requires key.Tcp? && forall i :: 0 <= i < |before| ==> !before[i].0.Tcp?
    ensures TcpKey(before + [(key, value)]) == Some(key)
    decreases |before|
  {
    if before != [] {
      assert (before + [(key, value)])[1..] == before[1..] + [(key, value)];
      TcpKeyLast(before[1..], key, value);
    }
  }

  lemma SlotLine(w: Words, key: string, slot: Slot, value: string)
    requires IsKey(key) && SlotOf(w, key) == Some(slot) && Word(value) && !slot.Shake?
    ensures ReadAs(w, [Line(key, value)], [(slot, value)])
  {
    LineReads(key, value);
    LineIsOne(key, value);
  }

  lemma QuietLine(w: Words, key: string, value: string)
    requires IsKey(key) && SlotOf(w, key).None? && OneLine(value) && value != "" && !IsSpace(value[|value| - 1])
    ensures AllIgnored(w, [Line(key, value)])
  {
    LineReads(key, value);
    LineIsOne(key, value);
  }

  lemma FrameLine(w: Words, line: string)
    requires IsKey(line)
    ensures AllIgnored(w, [line])
  {
    StripTrims(line);
  }

  lemma ReadCat(w: Words, a: seq<string>, ea: Dict<Slot, string>, b: seq<string>, eb: Dict<Slot, string>)
    requires ReadAs(w, a, ea) && ReadAs(w, b, eb)
    ensures ReadAs(w, a + b, ea + eb)
  {
    var l, e := a + b, ea + eb;
    forall i | 0 <= i < |l| ensures OneLine(l[i]) && !e[i].0.Shake? && Reads(w, l[i], e[i].0, e[i].1) {
      if i < |a| {
        assert l[i] == a[i] && e[i] == ea[i];
      } else {
        assert l[i] == b[i - |a|] && e[i] == eb[i - |a|];
      }
    }
  }

  lemma ReadTwo(w: Words, k: string, l: string, a: (Slot, string), b: (Slot, string))
    requires ReadAs(w, [k], [a]) && ReadAs(w, [l], [b])
    ensures ReadAs(w, [k, l], [a, b])
  {
    ReadCat(w, [k], [a], [l], [b]);
    assert [k] + [l] == [k, l] && [a] + [b] == [a, b];
  }

  lemma IgnoreCat(w: Words, a: seq<string>, b: seq<string>)
    requires AllIgnored(w, a) && AllIgnored(w, b)
    ensures AllIgnored(w, a + b)
  {
  }

  // -------------------------------------------------------------- the sections --

  /** The findings the printer is given: single lines, and trimmed wherever they can end a value. */
  predicate Tidy(w: Words, f: Findings) {
    && OneLine(f.target.name) && OneLine(f.target.host)
    && (f.target.private.Some? ==> OneLine(f.target.private.value.host))
    && Plain(f.interface) && Plain(f.address) && Plain(f.gateway)
    && Plain(f.ping.detail) && Plain(f.dns.detail) && Plain(f.tcp.detail)
    && (f.route.Some? ==> Plain(f.route.value.detail)) && (f.protocol.Some? ==> Plain(f.protocol.value.detail))
    && ProtocolSound(w, f.target.protocol)
  }

  lemma DecimalIsPlain(n: nat)
    ensures Word(Decimal(n)) && ':' !in Decimal(n)
    ensures !IsSpace(Decimal(n)[|Decimal(n)| - 1])
  {
    ValueDecimal(n);
    var d := Decimal(n);
    forall i | 0 <= i < |d| ensures IsDigit(d[i]) { assert d[i] in d; }
  }

  lemma TcpKeyReads(w: Words, port: nat)
    requires Sound(w)
    ensures IsKey(TcpName(w.keys, port)) && SlotOf(w, TcpName(w.keys, port)) == Some(Tcp(Decimal(port)))
  {
    DecimalIsPlain(port);
    var key, d := TcpName(w.keys, port), Decimal(port);
    assert key[0] == w.keys.tcp[0] && key[|key| - 1] == d[|d| - 1];
    assert w.keys.tcp <= key && key[|w.keys.tcp|..] == d;
  }

  /** A host and port: one line that does not end in a space. */
  lemma HostPortEnds(host: string, port: nat)
    requires OneLine(host)
    ensures var text := HostPort(host, port); OneLine(text) && text != "" && !IsSpace(text[|text| - 1])
  {
    DecimalIsPlain(port);
  }

  lemma DashedEnds(before: string, after: string)
    requires OneLine(before) && OneLine(after) && after != "" && !IsSpace(after[|after| - 1])
    ensures var text := Dashed(before, after); OneLine(text) && text != "" && !IsSpace(text[|text| - 1])
  {
  }

  lemma TargetLine(w: Words, t: Target)
    requires Sound(w) && OneLine(t.name) && OneLine(t.host)
    ensures AllIgnored(w, [Line(w.keys.target, TargetText(w.blanks, t))])
  {
    var host := if ':' in t.host then ['['] + t.host + [']'] else Or(t.host, w.blanks.host);
    assert OneLine(host);
    HostPortEnds(host, t.port);
    DashedEnds(Or(t.name, w.blanks.name), Endpoint(w.blanks, t));
    QuietLine(w, w.keys.target, TargetText(w.blanks, t));
  }

  lemma EndpointLine(w: Words, key: string, host: string, port: nat, note: string)
    requires IsKey(key) && SlotOf(w, key).None? && OneLine(host) && Word(note)
    ensures AllIgnored(w, [Line(key, Dashed(HostPort(host, port), note))])
  {
    HostPortEnds(host, port);
    DashedEnds(HostPort(host, port), note);
    QuietLine(w, key, Dashed(HostPort(host, port), note));
  }

  lemma PrivateIgnored(w: Words, t: Target)
    requires Sound(w) && OneLine(t.host) && (t.private.Some? ==> OneLine(t.private.value.host))
    ensures AllIgnored(w, PrivateLines(w.keys, w.blanks, t))
  {
    if t.private.Some? {
      var c := t.private.value;
      EndpointLine(w, w.keys.configured, c.host, c.port, w.blanks.privateNote);
      EndpointLine(w, w.keys.effective, t.host, t.port, w.blanks.gatewayNote);
      var lines := PrivateLines(w.keys, w.blanks, t);
      IgnoreCat(w, [lines[0]], [lines[1]]);
      assert lines == [lines[0]] + [lines[1]];
    }
  }

  lemma HeadIgnored(w: Words, f: Findings)
    requires Sound(w) && Tidy(w, f)
    ensures AllIgnored(w, Head(w, f))
  {
    var fixed := FixedLines(w, f);
    FrameLine(w, w.keys.title);
    TargetLine(w, f.target);
    IgnoreCat(w, [fixed[0]], [fixed[1]]);
    assert fixed[..2] == [fixed[0]] + [fixed[1]];
    PrivateIgnored(w, f.target);
    IgnoreCat(w, fixed[..2], PrivateLines(w.keys, w.blanks, f.target));
  }

  /** What the parser should read from the network's lines. */
  function NetworkEntries(w: Words, f: Findings): Dict<Slot, string> {
    [(LocalSlot, LocalText(w.blanks, f)), (GatewaySlot, GatewayText(w.blanks, f)),
     (PingSlot, Outcome(w.marks, w.blanks, f.ping)), (DnsSlot, Outcome(w.marks, w.blanks, f.dns))]
  }

  function RouteEntries(w: Words, f: Findings): Dict<Slot, string> {
    if f.route.Some? then [(RouteSlot, Outcome(w.marks, w.blanks, f.route.value))] else []
  }

  function TcpEntry(w: Words, f: Findings): (Slot, string) {
    (Tcp(Decimal(f.target.port)), Outcome(w.marks, w.blanks, f.tcp))
  }

  function Entries(w: Words, f: Findings): Dict<Slot, string> {
    NetworkEntries(w, f) + RouteEntries(w, f) + [TcpEntry(w, f)]
  }

  lemma CheckLine(w: Words, key: string, slot: Slot, c: Check)
    requires Sound(w) && IsKey(key) && SlotOf(w, key) == Some(slot) && !slot.Shake? && Plain(c.detail)
    ensures ReadAs(w, [Line(key, Outcome(w.marks, w.blanks, c))], [(slot, Outcome(w.marks, w.blanks, c))])
  {
    OutcomeSays(w.marks, w.blanks, c);
    SlotLine(w, key, slot, Outcome(w.marks, w.blanks, c));
  }

  lemma LocalReads(w: Words, f: Findings)
    requires Sound(w) && Tidy(w, f)
    ensures ReadAs(w, [Line(w.keys.local, LocalText(w.blanks, f))], [(LocalSlot, LocalText(w.blanks, f))])
  {
    DashReads(Or(f.interface, w.blanks.interface), Or(f.address, w.blanks.address));
    SlotLine(w, w.keys.local, LocalSlot, LocalText(w.blanks, f));
  }

  lemma AddressReads(w: Words, f: Findings, local: string, gateway: string)
    requires Sound(w) && Tidy(w, f) && local == LocalText(w.blanks, f) && gateway == GatewayText(w.blanks, f)
    ensures ReadAs(w, [Line(w.keys.local, local), Line(w.keys.gateway, gateway)],
                   [(LocalSlot, local), (GatewaySlot, gateway)])
  {
    LocalReads(w, f);
    SlotLine(w, w.keys.gateway, GatewaySlot, gateway);
    ReadTwo(w, Line(w.keys.local, local), Line(w.keys.gateway, gateway), (LocalSlot, local), (GatewaySlot, gateway));
  }

  lemma PingReads(w: Words, f: Findings, ping: string, dns: string)
    requires Sound(w) && Tidy(w, f)
    requires ping == Outcome(w.marks, w.blanks, f.ping) && dns == Outcome(w.marks, w.blanks, f.dns)
    ensures ReadAs(w, [Line(w.keys.ping, ping), Line(w.keys.dns, dns)], [(PingSlot, ping), (DnsSlot, dns)])
  {
    CheckLine(w, w.keys.ping, PingSlot, f.ping);
    CheckLine(w, w.keys.dns, DnsSlot, f.dns);
    ReadTwo(w, Line(w.keys.ping, ping), Line(w.keys.dns, dns), (PingSlot, ping), (DnsSlot, dns));
  }

  lemma NetworkLines(w: Words, f: Findings, local: string, gateway: string, ping: string, dns: string)
    requires local == LocalText(w.blanks, f) && gateway == GatewayText(w.blanks, f)
    requires ping == Outcome(w.marks, w.blanks, f.ping) && dns == Outcome(w.marks, w.blanks, f.dns)
    ensures FixedLines(w, f)[2..6] == [Line(w.keys.local, local), Line(w.keys.gateway, gateway)]
            + [Line(w.keys.ping, ping), Line(w.keys.dns, dns)]
    ensures NetworkEntries(w, f) == [(LocalSlot, local), (GatewaySlot, gateway)] + [(PingSlot, ping), (DnsSlot, dns)]
  {
  }

  lemma NetworkReads(w: Words, f: Findings)
    requires Sound(w) && Tidy(w, f)
    ensures ReadAs(w, FixedLines(w, f)[2..6], NetworkEntries(w, f))
  {
    var local, gateway := LocalText(w.blanks, f), GatewayText(w.blanks, f);
    var ping, dns := Outcome(w.marks, w.blanks, f.ping), Outcome(w.marks, w.blanks, f.dns);
    AddressReads(w, f, local, gateway);
    PingReads(w, f, ping, dns);
    ReadCat(w, [Line(w.keys.local, local), Line(w.keys.gateway, gateway)],
            [(LocalSlot, local), (GatewaySlot, gateway)],
            [Line(w.keys.ping, ping), Line(w.keys.dns, dns)], [(PingSlot, ping), (DnsSlot, dns)]);
    NetworkLines(w, f, local, gateway, ping, dns);
  }

  lemma BodyReads(w: Words, f: Findings)
    requires Sound(w) && Tidy(w, f)
    ensures ReadAs(w, Body(w, f), Entries(w, f))
  {
    NetworkReads(w, f);
    if f.route.Some? { CheckLine(w, w.keys.route, RouteSlot, f.route.value); }
    TcpKeyReads(w, f.target.port);
    CheckLine(w, TcpName(w.keys, f.target.port), TcpEntry(w, f).0, f.tcp);
    var l := FixedLines(w, f);
    assert l[6..] == [l[6]];
    ReadCat(w, l[2..6], NetworkEntries(w, f), RouteLines(w, f), RouteEntries(w, f));
    ReadCat(w, l[2..6] + RouteLines(w, f), NetworkEntries(w, f) + RouteEntries(w, f), l[6..], [TcpEntry(w, f)]);
  }

  /** The protocol line as the parser keeps it. */
  function Spoken(w: Words, f: Findings): Option<(string, string)> {
    if f.protocol.Some? && f.target.protocol != "" then
      Some((ProtocolName(w.blanks, f.target), HandshakeOutcome(w.marks, w.blanks, f.protocol.value)))
    else None
  }

  lemma TailReads(w: Words, f: Findings, values: Dict<Slot, string>)
    requires Sound(w) && Tidy(w, f)
    ensures AllOneLine(ProtocolLines(w, f))
    ensures Collect(w, Reading(values, None), ProtocolLines(w, f)) == Reading(values, Spoken(w, f))
  {
    if f.protocol.Some? {
      var key, value := ProtocolName(w.blanks, f.target), HandshakeOutcome(w.marks, w.blanks, f.protocol.value);
      assert IsKey(key);
      HandshakeSays(w.marks, w.blanks, f.protocol.value);
      LineReads(key, value);
      LineIsOne(key, value);
      assert ProtocolLines(w, f)[1..] == [];
    }
  }

  lemma DistinctAppend(d: Dict<Slot, string>, slot: Slot, value: string)
    requires Distinct(d) && forall i :: 0 <= i < |d| ==> d[i].0 != slot
    ensures Distinct(d + [(slot, value)])
  {
  }

  lemma EntriesDistinct(w: Words, f: Findings)
    ensures Distinct(Entries(w, f)) && PutAll(Entries(w, f), []) == Entries(w, f)
  {
    var network, tcp := NetworkEntries(w, f), TcpEntry(w, f);
    if f.route.Some? {
      DistinctAppend(network, RouteSlot, RouteEntries(w, f)[0].1);
      assert RouteEntries(w, f) == [(RouteSlot, RouteEntries(w, f)[0].1)];
    } else {
      assert network + RouteEntries(w, f) == network;
    }
    DistinctAppend(network + RouteEntries(w, f), tcp.0, tcp.1);
    assert [] + Entries(w, f) == Entries(w, f);
    PutAllAppends(Entries(w, f), []);
  }

  /** The parser's reading of a printed report. */
  lemma ReportReads(w: Words, f: Findings)
    requires Sound(w) && Tidy(w, f)
    ensures Collect(w, NOTHING_READ, SplitLines(Join(ReportLines(w, f)))) == Reading(Entries(w, f), Spoken(w, f))
  {
    var head, body, tail, closing := Head(w, f), Body(w, f), ProtocolLines(w, f), [w.keys.closing];
    HeadIgnored(w, f);
    BodyReads(w, f);
    TailReads(w, f, Entries(w, f));
    FrameLine(w, w.keys.closing);
    SplitJoin(head + (body + tail) + closing);
    IgnoreAll(w, NOTHING_READ, head);
    ReadAll(w, NOTHING_READ, body, Entries(w, f));
    EntriesDistinct(w, f);
    CollectCat(w, NOTHING_READ, head + (body + tail), closing);
    CollectCat(w, NOTHING_READ, head, body + tail);
    CollectCat(w, NOTHING_READ, body, tail);
    IgnoreAll(w, Reading(Entries(w, f), Spoken(w, f)), closing);
  }

  // --------------------------------------------------------------- the lines --

  lemma {:induction false} LineEndAt(a: string, rest: string)
    requires OneLine(a) && (rest == "" || IsBreak(rest[0]))
    ensures LineEnd(a + rest) == |a|
  {
    if a == "" {
      assert a + rest == rest;
    } else {
      LineEndAt(a[1..], rest);
      assert (a + rest)[1..] == a[1..] + rest && (a + rest)[0] == a[0];
    }
  }

  /** Where lines end: at every break character ... */
  lemma LinesEnd(a: string, c: char, rest: string)
    requires OneLine(a) && IsBreak(c) && (c == '\r' && rest != "" ==> rest[0] != '\n')
    ensures SplitLines(a) == if a == "" then [] else [a]
    ensures SplitLines(a + [c] + rest) == [a] + SplitLines(rest)
  {
    assert a + "" == a;
    LineEndAt(a, "");
    var after := [c] + rest;
    LineEndAt(a, after);
    var one := a + [c] + rest;
    assert one == a + after && one[..|a|] == a && one[|a| + 1..] == rest;
    assert |a| + 1 < |one| ==> one[|a| + 1] == rest[0];
  }

  /** ... a carriage return and a line feed counting as one. */
  lemma LinesEndTogether(a: string, text: string, rest: string)
    requires OneLine(a) && text == a + ['\r'] + ['\n'] + rest
    ensures SplitLines(text) == [a] + SplitLines(rest)
  {
    var after := ['\r'] + ['\n'] + rest;
    assert text == a + after;
    LineEndAt(a, after);
    assert text[..|a|] == a && text[|a| + 2..] == rest;
  }

  /** The lines of the report: its title and its closing, and as many as there are findings. */
  lemma FrameTold(w: Words, f: Findings)
    ensures var lines := ReportLines(w, f);
            && |lines| == 8 + (if f.target.private.Some? then 2 else 0) + (if f.route.Some? then 1 else 0)
                + (if f.protocol.Some? then 1 else 0)
            && lines[0] == w.keys.title && lines[|lines| - 1] == w.keys.closing
  {
  }

  predicate Begin(lines: seq<string>, keys: seq<string>) {
    |lines| == |keys| && forall i :: 0 <= i < |keys| ==> keys[i] <= lines[i]
  }

  function HeadKeys(w: Words, f: Findings): seq<string> {
    [w.keys.title, w.keys.target] + (if f.target.private.Some? then [w.keys.configured, w.keys.effective] else [])
  }

  function BodyKeys(w: Words, f: Findings): seq<string> {
    [w.keys.local, w.keys.gateway, w.keys.ping, w.keys.dns]
    + (if f.route.Some? then [w.keys.route] else []) + [w.keys.tcp + Decimal(f.target.port)]
  }

  function ProtocolKeys(w: Words, f: Findings): seq<string> {
    if f.protocol.Some? then [ProtocolName(w.blanks, f.target)] else []
  }

  lemma BeginCat(a: seq<string>, j: seq<string>, b: seq<string>, k: seq<string>)
    requires Begin(a, j) && Begin(b, k)
    ensures Begin(a + b, j + k)
  {
  }

  lemma HeadInOrder(w: Words, f: Findings)
    ensures Begin(Head(w, f), HeadKeys(w, f))
  {
    var fixed := FixedLines(w, f);
    assert fixed[..2] == [fixed[0], fixed[1]];
    BeginCat(fixed[..2], [w.keys.title, w.keys.target], PrivateLines(w.keys, w.blanks, f.target),
             if f.target.private.Some? then [w.keys.configured, w.keys.effective] else []);
  }

  lemma BodyInOrder(w: Words, f: Findings)
    ensures Begin(Body(w, f), BodyKeys(w, f))
  {
    var fixed, network := FixedLines(w, f), [w.keys.local, w.keys.gateway, w.keys.ping, w.keys.dns];
    var route := if f.route.Some? then [w.keys.route] else [];
    assert fixed[2..6] == [fixed[2], fixed[3], fixed[4], fixed[5]] && fixed[6..] == [fixed[6]];
    BeginCat(fixed[2..6], network, RouteLines(w, f), route);
    BeginCat(fixed[2..6] + RouteLines(w, f), network + route, fixed[6..], [w.keys.tcp + Decimal(f.target.port)]);
  }

  lemma TailInOrder(w: Words, f: Findings)
    ensures Begin(ProtocolLines(w, f), ProtocolKeys(w, f)) && Begin([w.keys.closing], [w.keys.closing])
  {
  }

  lemma BeginFour(a: seq<string>, b: seq<string>, c: seq<string>, d: seq<string>,
      j: seq<string>, k: seq<string>, l: seq<string>, m: seq<string>)
    requires Begin(a, j) && Begin(b, k) && Begin(c, l) && Begin(d, m)
    ensures Begin(a + (b + c) + d, j + (k + l) + m)
  {
    BeginCat(b, k, c, l);
    BeginCat(a, j, b + c, k + l);
    BeginCat(a + (b + c), j + (k + l), d, m);
  }

  /** The lines come in one order, the optional ones in their places. */
  lemma LinesInOrder(w: Words, f: Findings)
    ensures Begin(ReportLines(w, f), HeadKeys(w, f) + (BodyKeys(w, f) + ProtocolKeys(w, f)) + [w.keys.closing])
  {
    HeadInOrder(w, f);
    BodyInOrder(w, f);
    TailInOrder(w, f);
    BeginFour(Head(w, f), Body(w, f), ProtocolLines(w, f), [w.keys.closing],
              HeadKeys(w, f), BodyKeys(w, f), ProtocolKeys(w, f), [w.keys.closing]);
  }

  /** The target's line: its name and its endpoint, an IPv6 address in brackets. */
  lemma TargetTold(w: Words, f: Findings, name: string, host: string)
    requires name == if f.target.name == "" then w.blanks.name else f.target.name
    requires host == if f.target.host == "" then w.blanks.host
                     else if ':' in f.target.host then "[" + f.target.host + "]" else f.target.host
    ensures |ReportLines(w, f)| > 1
    ensures ReportLines(w, f)[1] == w.keys.target + ": " + name + " — " + host + ":" + Decimal(f.target.port)
  {
    var endpoint := Endpoint(w.blanks, f.target);
    assert endpoint == host + ":" + Decimal(f.target.port);
    TargetLineIs(w.keys.target, name, endpoint);
    assert ReportLines(w, f)[1] == Line(w.keys.target, Dashed(name, endpoint));
    assert w.keys.target + ": " + name + " — " + endpoint ==
      w.keys.target + ": " + name + " — " + host + ":" + Decimal(f.target.port);
  }

  lemma TargetLineIs(key: string, name: string, endpoint: string)
    ensures Line(key, Dashed(name, endpoint)) == key + ": " + name + " — " + endpoint
  {
    var text := name + [' '] + ['—'] + ([' '] + endpoint);
    assert key + [':'] + ([' '] + text) == key + ": " + name + " — " + endpoint;
  }

  // -------------------------------------------------------------- the round trip --

  /** What a reader should see of a check. */
  function Shown(b: Blanks, title: string, c: Check): Row { Row(title, Passed(c.ok), Or(c.detail, b.detail), None) }

  /** Does the text say that there is no interface or no address? */
  predicate SaysOffline(text: string) { Contains(Lower(text), "no active") || Contains(Lower(text), "no ipv") }

  /** The rows a reader should see, straight from the findings. */
  function ExpectedRows(w: Words, f: Findings): seq<Row> {
    var b := w.blanks;
    [Row("Network", if SaysOffline(LocalText(b, f)) then Failed else Ok, LocalText(b, f), None),
     Row("Gateway", if "no " <= Lower(GatewayText(b, f)) then Failed else Ok,
         GatewayText(b, f) + " · " + Or(f.ping.detail, b.detail), Some(Passed(f.ping.ok))),
     Shown(b, "DNS", f.dns),
     if f.route.Some? then Shown(b, "Route", f.route.value) else Row("Route", Skipped, b.untested, None),
     Shown(b, "Server port " + Decimal(f.target.port), f.tcp)]
    + (if f.protocol.Some? && f.target.protocol != "" then
         [Row(ProtocolName(b, f.target) + " handshake", ShakeState(f.protocol.value),
              Or(f.protocol.value.detail, b.detail), None)]
       else [])
  }

  lemma EntriesLookup(w: Words, f: Findings)
    ensures var e := Entries(w, f);
            && Lookup(e, LocalSlot) == Some(LocalText(w.blanks, f))
            && Lookup(e, GatewaySlot) == Some(GatewayText(w.blanks, f))
            && Lookup(e, PingSlot) == Some(Outcome(w.marks, w.blanks, f.ping))
            && Lookup(e, DnsSlot) == Some(Outcome(w.marks, w.blanks, f.dns))
            && Lookup(e, RouteSlot) == (if f.route.Some? then Some(Outcome(w.marks, w.blanks, f.route.value)) else None)
            && Lookup(e, TcpEntry(w, f).0) == Some(TcpEntry(w, f).1)
            && TcpKey(e) == Some(TcpEntry(w, f).0)
  {
    var e := Entries(w, f);
    EntriesDistinct(w, f);
    LookupAt(e, 0);
    LookupAt(e, 1);
    LookupAt(e, 2);
    LookupAt(e, 3);
    LookupAt(e, |e| - 1);
    LookupMember(e, RouteSlot);
    if f.route.Some? { LookupAt(e, 4); }
    TcpKeyLast(NetworkEntries(w, f) + RouteEntries(w, f), TcpEntry(w, f).0, TcpEntry(w, f).1);
  }

  lemma UntestedSays(w: Words)
    requires Sound(w)
    ensures Says(w.marks, Untested(w), Skipped, w.blanks.untested)
  {
    DashReads(w.marks.skipped, w.blanks.untested);
    StateByMark(w.marks, Untested(w));
  }

  lemma CheckShown(w: Words, title: string, c: Check)
    requires Sound(w) && Plain(c.detail)
    ensures CheckRow(w.marks, title, Outcome(w.marks, w.blanks, c)) == Shown(w.blanks, title, c)
  {
    OutcomeSays(w.marks, w.blanks, c);
  }

  lemma GatewayShown(w: Words, gateway: string, ping: Check)
    requires Sound(w) && Plain(ping.detail)
    ensures GatewayRow(w.marks, gateway, Outcome(w.marks, w.blanks, ping)) ==
            Row("Gateway", if "no " <= Lower(gateway) then Failed else Ok,
                gateway + " · " + Or(ping.detail, w.blanks.detail), Some(Passed(ping.ok)))
  {
    OutcomeSays(w.marks, w.blanks, ping);
  }

  lemma HandshakeShown(w: Words, title: string, h: Handshake)
    requires Sound(w) && Plain(h.detail)
    ensures CheckRow(w.marks, title, HandshakeOutcome(w.marks, w.blanks, h)) ==
            Row(title, ShakeState(h), Or(h.detail, w.blanks.detail), None)
  {
    HandshakeSays(w.marks, w.blanks, h);
  }

  lemma NetworkRowShown(local: string)
    ensures NetworkRow(local) == Row("Network", if SaysOffline(local) then Failed else Ok, local, None)
  {
  }

  /** The rows of a reading with these values, whatever else it holds. */
  lemma RowsAre(w: Words, r: Reading, local: string, gateway: string, ping: string, dns: string, route: string,
      port: string, tcp: string)
    requires Lookup(r.values, LocalSlot) == Some(local) && Lookup(r.values, GatewaySlot) == Some(gateway)
    requires Lookup(r.values, PingSlot) == Some(ping) && Lookup(r.values, DnsSlot) == Some(dns)
    requires ValueOr(r.values, RouteSlot, Untested(w)) == route && port != ""
    requires TcpKey(r.values) == Some(Tcp(port)) && Lookup(r.values, Tcp(port)) == Some(tcp)
    ensures Rows(w, r) ==
            [NetworkRow(local), GatewayRow(w.marks, gateway, ping), CheckRow(w.marks, "DNS", dns),
             CheckRow(w.marks, "Route", route), CheckRow(w.marks, "Server port " + port, tcp)]
            + (if r.protocol.Some? then
                 [CheckRow(w.marks, r.protocol.value.0 + " handshake", r.protocol.value.1)]
               else [])
  {
  }

  lemma RouteShown(w: Words, f: Findings)
    requires Sound(w) && Tidy(w, f)
    ensures CheckRow(w.marks, "Route", ValueOr(Entries(w, f), RouteSlot, Untested(w))) ==
            if f.route.Some? then Shown(w.blanks, "Route", f.route.value)
            else Row("Route", Skipped, w.blanks.untested, None)
  {
    EntriesLookup(w, f);
    if f.route.Some? { CheckShown(w, "Route", f.route.value); } else { UntestedSays(w); }
  }

  lemma EntriesShown(w: Words, f: Findings)
    requires Sound(w) && Tidy(w, f)
    ensures Rows(w, Reading(Entries(w, f), Spoken(w, f))) == ExpectedRows(w, f)
  {
    EntriesLookup(w, f);
    var o, port := Outcome(w.marks, w.blanks, f.ping), Decimal(f.target.port);
    RowsAre(w, Reading(Entries(w, f), Spoken(w, f)), LocalText(w.blanks, f), GatewayText(w.blanks, f), o,
            Outcome(w.marks, w.blanks, f.dns), ValueOr(Entries(w, f), RouteSlot, Untested(w)), port,
            Outcome(w.marks, w.blanks, f.tcp));
    NetworkRowShown(LocalText(w.blanks, f));
    GatewayShown(w, GatewayText(w.blanks, f), f.ping);
    CheckShown(w, "DNS", f.dns);
    RouteShown(w, f);
    CheckShown(w, "Server port " + port, f.tcp);
    if Spoken(w, f).Some? { HandshakeShown(w, ProtocolName(w.blanks, f.target) + " handshake", f.protocol.value); }
  }

  /**
   Parsing a printed report shows each check with its state and detail, and the port, with
   or without the gateway lines, whatever colons and dashes the details contain.
   */
  lemma ReportRoundTrip(w: Words, f: Findings)
    requires Sound(w) && Tidy(w, f)
    ensures ParsedRows(w, Join(ReportLines(w, f))) == ExpectedRows(w, f)
  {
    ReportReads(w, f);
    EntriesShown(w, f);
  }

  lemma NothingIsOffline(local: string)
    requires local == "no active interface — no address"
    ensures SaysOffline(local)
  {
    assert "no active" <= Lower(local)[0..];
  }

  lemma NoGateway(m: Marks, gateway: string)
    requires gateway == "no default gateway"
    ensures GatewayRow(m, gateway, "") == Row("Gateway", Failed, gateway, Some(Info))
  {
  }

  lemma UntestedRow(w: Words, title: string)
    requires Sound(w)
    ensures CheckRow(w.marks, title, Untested(w)) == Row(title, Skipped, w.blanks.untested, None)
  {
    UntestedSays(w);
  }

  lemma RowsOfNothing(w: Words, local: string, gateway: string)
    requires local == "no active interface — no address" && gateway == "no default gateway"
    ensures Rows(w, NOTHING_READ) ==
            [NetworkRow(local), GatewayRow(w.marks, gateway, ""), CheckRow(w.marks, "DNS", Untested(w)),
             CheckRow(w.marks, "Route", Untested(w)), CheckRow(w.marks, "Server port", Untested(w))]
  {
  }

  /** A report in which nothing is recognised reads as no network, no gateway and nothing tested. */
  lemma NothingRead(w: Words, local: string, gateway: string)
    requires Sound(w) && local == "no active interface — no address" && gateway == "no default gateway"
    ensures Rows(w, NOTHING_READ) ==
            [Row("Network", Failed, local, None), Row("Gateway", Failed, gateway, Some(Info)),
             Row("DNS", Skipped, w.blanks.untested, None), Row("Route", Skipped, w.blanks.untested, None),
             Row("Server port", Skipped, w.blanks.untested, None)]
  {
    RowsOfNothing(w, local, gateway);
    NothingIsOffline(local);
    NetworkRowShown(local);
    NoGateway(w.marks, gateway);
    UntestedRow(w, "DNS");
    UntestedRow(w, "Route");
    UntestedRow(w, "Server port");
  }

  /** The same outcome and the same detail, a missing one counting as its stand-in. */
  predicate SameCheck(b: Blanks, c: Check, d: Check) {
    c.ok == d.ok && Or(c.detail, b.detail) == Or(d.detail, b.detail)
  }

  predicate SameHandshake(b: Blanks, g: Handshake, h: Handshake) {
    ShakeState(g) == ShakeState(h) && Or(g.detail, b.detail) == Or(h.detail, b.detail)
  }

  lemma OutcomeDetermines(w: Words, c: Check, d: Check)
    requires Sound(w) && Plain(c.detail) && Plain(d.detail)
    requires Outcome(w.marks, w.blanks, c) == Outcome(w.marks, w.blanks, d)
    ensures SameCheck(w.blanks, c, d)
  {
    OutcomeSays(w.marks, w.blanks, c);
    OutcomeSays(w.marks, w.blanks, d);
  }

  lemma HandshakeDetermines(w: Words, g: Handshake, h: Handshake)
    requires Sound(w) && Plain(g.detail) && Plain(h.detail)
    requires HandshakeOutcome(w.marks, w.blanks, g) == HandshakeOutcome(w.marks, w.blanks, h)
    ensures SameHandshake(w.blanks, g, h)
  {
    HandshakeSays(w.marks, w.blanks, g);
    HandshakeSays(w.marks, w.blanks, h);
  }

  /** Equal readings have equal entries. */
  lemma EntriesDetermine(w: Words, f: Findings, g: Findings)
    requires Sound(w) && Tidy(w, f) && Tidy(w, g) && Entries(w, f) == Entries(w, g)
    ensures SameCheck(w.blanks, f.ping, g.ping) && SameCheck(w.blanks, f.dns, g.dns)
            && SameCheck(w.blanks, f.tcp, g.tcp)
    ensures f.route.Some? <==> g.route.Some?
    ensures f.route.Some? ==> SameCheck(w.blanks, f.route.value, g.route.value)
    ensures LocalText(w.blanks, f) == LocalText(w.blanks, g) && GatewayText(w.blanks, f) == GatewayText(w.blanks, g)
    ensures f.target.port == g.target.port
  {
    EntriesLookup(w, f);
    EntriesLookup(w, g);
    OutcomeDetermines(w, f.ping, g.ping);
    OutcomeDetermines(w, f.dns, g.dns);
    OutcomeDetermines(w, f.tcp, g.tcp);
    if f.route.Some? { OutcomeDetermines(w, f.route.value, g.route.value); }
    DecimalInjective(f.target.port, g.target.port);
  }

  /**
   Equal reports come from equal results of every check, handshake included, equal ports
   and the same network and gateway texts.
   */
  lemma ReportDetermines(w: Words, f: Findings, g: Findings)
    requires Sound(w) && Tidy(w, f) && Tidy(w, g)
    requires Join(ReportLines(w, f)) == Join(ReportLines(w, g))
    ensures SameCheck(w.blanks, f.ping, g.ping) && SameCheck(w.blanks, f.dns, g.dns)
            && SameCheck(w.blanks, f.tcp, g.tcp)
    ensures f.route.Some? <==> g.route.Some?
    ensures f.route.Some? ==> SameCheck(w.blanks, f.route.value, g.route.value)
    ensures LocalText(w.blanks, f) == LocalText(w.blanks, g) && GatewayText(w.blanks, f) == GatewayText(w.blanks, g)
    ensures f.target.port == g.target.port
    ensures Spoken(w, f).Some? <==> Spoken(w, g).Some?
    ensures Spoken(w, f).Some? ==>
              && ProtocolName(w.blanks, f.target) == ProtocolName(w.blanks, g.target)
              && SameHandshake(w.blanks, f.protocol.value, g.protocol.value)
  {
    ReportReads(w, f);
    ReportReads(w, g);
    EntriesDetermine(w, f, g);
    if Spoken(w, f).Some? { HandshakeDetermines(w, f.protocol.value, g.protocol.value); }
  }
}
