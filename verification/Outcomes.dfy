/**
 What beginning and finishing a request does, told from the inputs of the call and the
 calls before it alone: the conditions here share nothing with the transitions' bodies.
 */
module Outcomes {
  import opened Prelude
  import opened OrderedDict
  import opened Ledger
  import opened Book
  import opened ClientTable
  import History
  import Text

  // ---------------------------------------------------------------- paths --

  const ROOT_IMAGE := "filesystem.squashfs"

  /** Does the last component of the path begin at `k`? */
  predicate LastFrom(path: string, k: int) {
    0 <= k <= |path| && (k == 0 || path[k - 1] == '/') && '/' !in path[k..]
  }

  /** Is the text after the last slash, in any case, the root image's name? */
  ghost predicate NamesRootImage(path: string) {
    exists k :: LastFrom(path, k) && Text.Lower(path[k..]) == ROOT_IMAGE
  }

  lemma {:induction false} BaseNameLast(path: string)
    ensures exists k :: LastFrom(path, k)
    ensures forall k :: LastFrom(path, k) ==> BaseName(path) == path[k..]
  {
    var n := |path| - 1;
    if path == "" {
      assert LastFrom(path, 0);
    } else if path[n] == '/' {
      assert LastFrom(path, |path|);
      forall k | 0 <= k <= n ensures '/' in path[k..] {
        assert path[k..][n - k] == '/';
      }
    } else {
      BaseNameLast(path[..n]);
      var k :| LastFrom(path[..n], k);
      assert path[k..] == path[..n][k..] + [path[n]];
      assert LastFrom(path, k);
      forall j | LastFrom(path, j) ensures BaseName(path) == path[j..] {
        assert j <= n;
        assert path[j..] == path[..n][j..] + [path[n]];
        assert forall c :: c in path[..n][j..] ==> c in path[j..];
        assert LastFrom(path[..n], j);
      }
    }
  }

  /** A boot path is one whose last component is the root image, in any case. */
  lemma BootPathIff(path: string)
    ensures IsBootPath(path) <==> NamesRootImage(path)
  {
    BaseNameLast(path);
    var k :| LastFrom(path, k);
    assert BaseName(path) == path[k..];
  }

  /** The same for a directory and a name, and for a bare name. */
  lemma BootPathOf(dir: string, name: string)
    requires '/' !in name
    ensures IsBootPath(dir + "/" + name) <==> Text.Lower(name) == ROOT_IMAGE
    ensures IsBootPath(name) <==> Text.Lower(name) == ROOT_IMAGE
  {
    var path := dir + "/" + name;
    assert path[|dir| + 1..] == name && path[|dir|] == '/';
    assert LastFrom(path, |dir| + 1);
    BaseNameLast(path);
    assert name[0..] == name && LastFrom(name, 0);
    BaseNameLast(name);
  }

  lemma {:induction false} PartsGather(word: string, part: string, rest: string)
    requires '/' !in word
    ensures Parts(word + rest, part) == Parts(rest, part + word)
    decreases |word|
  {
    if word == "" {
      assert word + rest == rest && part + word == part;
    } else {
      assert word[0] in word;
      assert (word + rest)[1..] == word[1..] + rest && part + [word[0]] + word[1..] == part + word;
      PartsGather(word[1..], part + [word[0]], rest);
    }
  }

  /** The components of a path: a word is one, and a slash ends it. */
  lemma PartsAre(word: string, rest: string)
    requires '/' !in word
    ensures Parts(word) == if word == "" then [] else [word]
    ensures Parts(word + "/" + rest) == Parts(word) + Parts(rest)
  {
    PartsGather(word, "", "");
    assert word + "" == word && "" + word == word;
    PartsGather(word, "", "/" + rest);
    assert word + "/" + rest == word + ("/" + rest) && ("/" + rest)[1..] == rest;
  }

  /** Is component `i` the first `thinclient`, with this profile right behind it? */
  predicate Profiled(parts: seq<string>, profile: string, i: int) {
    && 0 <= i < |parts| - 1 && parts[i] == "thinclient" && "thinclient" !in parts[..i]
    && parts[i + 1] == profile && (profile == "lite" || profile == "full")
  }

  lemma {:induction false} ProfileInIff(parts: seq<string>, profile: string)
    ensures ProfileIn(parts) == Some(profile) <==> exists i :: Profiled(parts, profile, i)
  {
    if |parts| >= 2 {
      if parts[0] == "thinclient" {
        assert Profiled(parts, parts[1], 0) <==> parts[1] == "lite" || parts[1] == "full";
        forall i | 0 < i < |parts| ensures "thinclient" in parts[..i] {
          assert parts[..i][0] == "thinclient";
        }
      } else {
        ProfileInIff(parts[1..], profile);
        if i :| Profiled(parts[1..], profile, i) {
          assert parts[..i + 1] == [parts[0]] + parts[1..][..i];
          assert Profiled(parts, profile, i + 1);
        }
        if i :| Profiled(parts, profile, i) {
          assert i > 0 && parts[..i] == [parts[0]] + parts[1..][..i - 1];
          assert Profiled(parts[1..], profile, i - 1);
        }
      }
    }
  }

  /** A request names a profile exactly by the component after its first `thinclient`. */
  lemma ProfileIff(path: string, parts: seq<string>, profile: string)
    requires parts == Parts(Text.Lower(path))
    ensures RequestProfile(path) == Some(profile) <==> exists i :: Profiled(parts, profile, i)
  {
    ProfileInIff(parts, profile);
  }

  // ------------------------------------------------------------ one finish --

  /** A GET that was answered with 200 but sent another number of bytes than announced. */
  predicate Short(verb: string, bytes: nat, length: Option<nat>, status: Option<int>) {
    verb == "GET" && status == Some(200) && length.Some? && length.value != bytes
  }

  predicate Succeeds(verb: string, bytes: nat, length: Option<nat>, status: Option<int>, interrupted: bool) {
    status.Some? && 200 <= status.value <= 399 && !interrupted && !Short(verb, bytes, length, status)
  }

  ghost predicate Starts(verb: string, path: string, bytes: nat, length: Option<nat>, status: Option<int>,
      interrupted: bool) {
    && Succeeds(verb, bytes, length, status, interrupted)
    && verb == "GET" && status == Some(200) && NamesRootImage(path)
  }

  lemma JudgeTells(verb: string, path: string, bytes: nat, length: Option<nat>, status: Option<int>,
      interrupted: bool)
    ensures var v := Judge(verb, path, bytes, length, status, interrupted);
            && (v.ok <==> Succeeds(verb, bytes, length, status, interrupted))
            && (v.boot <==> Starts(verb, path, bytes, length, status, interrupted))
            && (v.interrupted <==> interrupted || Short(verb, bytes, length, status))
            && (status.Some? ==> v.code == status.value) && (status.None? ==> v.code == 0)
  {
    BootPathIff(path);
  }

  /** The time between two clock readings; unknown or backward ones count as none. */
  predicate Lasted(from: Option<real>, to: real, duration: real) {
    && (from.Some? && from.value <= to ==> from.value + duration == to)
    && (from.None? || to <= from.value ==> duration == 0.0)
  }

  predicate Reports(status: Option<int>, code: int) {
    (status.Some? ==> code == status.value) && (status.None? ==> code == 0)
  }

  /** The record of a finished request. */
  predicate Recorded(r: Request, status: Option<int>, interrupted: bool, now: real, mono: real, record: Record) {
    && record.verb == r.verb && record.path == r.path && record.ip == r.ip && record.mac == r.mac
    && Reports(status, record.status) && record.finishedAt == now && Lasted(r.startedMono, mono, record.duration)
    && record.bytes == r.bytes && !record.recovered
    && (record.interrupted <==> interrupted || Short(r.verb, r.bytes, r.length, status))
  }

  /** What a finished request adds to its client's entry. */
  ghost predicate Credited(c: Client, c': Client, r: Request, status: Option<int>, interrupted: bool, now: real) {
    && c'.lastSeen == now && c'.lastPath == Some(r.path)
    && c'.lastStatus.Some? && Reports(status, c'.lastStatus.value)
    && c'.bytes == c.bytes + r.bytes && c'.requests == c.requests
    && c'.boots == c.boots + (if Starts(r.verb, r.path, r.bytes, r.length, status, interrupted) then 1 else 0)
    && c'.ip == c.ip && c'.mac == c.mac && c'.firstSeen == c.firstSeen && c'.profile == c.profile
  }

  /** The totals after a request has finished. */
  ghost predicate Counted(m: Monitor, n: Monitor, r: Request, status: Option<int>, interrupted: bool) {
    var ok := Succeeds(r.verb, r.bytes, r.length, status, interrupted);
    && n.successful == m.successful + (if ok then 1 else 0)
    && n.failed == m.failed + (if ok then 0 else 1)
    && n.boots == m.boots + (if Starts(r.verb, r.path, r.bytes, r.length, status, interrupted) then 1 else 0)
    && n.bytes == m.bytes + r.bytes
    && n.requests == m.requests && n.recovered == m.recovered && n.serverStarts == m.serverStarts
    && n.nextId == m.nextId && n.historyStart == m.historyStart && n.bounds == m.bounds
  }

  /** The history after a request has finished: its record, then the newest of the others. */
  predicate Filed(m: Monitor, n: Monitor, r: Request, status: Option<int>, interrupted: bool, now: real, mono: real) {
    if m.bounds.maxRequests == 0 then n.history == []
    else
      && n.history != [] && Recorded(r, status, interrupted, now, mono, n.history[0])
      && n.history[1..] == Take(m.history, m.bounds.maxRequests - 1)
  }

  /** The client's entry after one of its requests has finished; an evicted one does not come back. */
  ghost predicate Charges(m: Monitor, n: Monitor, r: Request, status: Option<int>, interrupted: bool, now: real) {
    var before, after := Lookup(m.clients, r.clientKey), Lookup(n.clients, r.clientKey);
    && (after.Some? <==> before.Some?)
    && (before.Some? && after.Some? ==> Credited(before.value, after.value, r, status, interrupted, now))
    && (forall k: string {:trigger Lookup(n.clients, k)} ::
          k != r.clientKey ==> Lookup(n.clients, k) == Lookup(m.clients, k))
  }

  ghost predicate Booked(m: Monitor, n: Monitor, r: Request, status: Option<int>, interrupted: bool, now: real,
      mono: real) {
    && Counted(m, n, r, status, interrupted)
    && Filed(m, n, r, status, interrupted, now, mono)
    && Charges(m, n, r, status, interrupted, now)
  }

  lemma FinishCounts(m: Monitor, id: nat, status: Option<int>, interrupted: bool, now: real, mono: real)
    requires Lookup(m.active, id).Some?
    ensures var r, n := Lookup(m.active, id).value, FinishRequest(m, id, status, interrupted, now, mono);
            Counted(m, n, r, status, interrupted) && Filed(m, n, r, status, interrupted, now, mono)
  {
    var r, n := Lookup(m.active, id).value, FinishRequest(m, id, status, interrupted, now, mono);
    JudgeTells(r.verb, r.path, r.bytes, r.length, status, interrupted);
    if m.bounds.maxRequests > 0 {
      var record := n.history[0];
      assert ([record] + m.history)[1..] == m.history;
    }
  }

  lemma FinishCharges(m: Monitor, id: nat, status: Option<int>, interrupted: bool, now: real, mono: real)
    requires Lookup(m.active, id).Some?
    ensures var r, n := Lookup(m.active, id).value, FinishRequest(m, id, status, interrupted, now, mono);
            Charges(m, n, r, status, interrupted, now)
  {
    var r, n := Lookup(m.active, id).value, FinishRequest(m, id, status, interrupted, now, mono);
    var v := Judge(r.verb, r.path, r.bytes, r.length, status, interrupted);
    JudgeTells(r.verb, r.path, r.bytes, r.length, status, interrupted);
    forall k: string
      ensures Lookup(n.clients, k) ==
              if k == r.clientKey && Lookup(m.clients, k).Some?
              then Some(FinishedClient(Lookup(m.clients, k).value, r, v, now))
              else Lookup(m.clients, k)
    {
      CreditLookup(m.clients, r.clientKey, r, v, now, k);
    }
  }

  /**
   Finishing an active request counts it once, as a success exactly when its status is
   below 400 and at least 200, the caller saw no interruption and a GET answered 200 sent
   what it announced; it is a boot exactly when such a GET fetched the root image.
   */
  lemma FinishBooks(m: Monitor, id: nat, status: Option<int>, interrupted: bool, now: real, mono: real)
    requires Lookup(m.active, id).Some?
    ensures Booked(m, FinishRequest(m, id, status, interrupted, now, mono), Lookup(m.active, id).value,
                   status, interrupted, now, mono)
  {
    FinishCounts(m, id, status, interrupted, now, mono);
    FinishCharges(m, id, status, interrupted, now, mono);
  }

  // ------------------------------------------------------------- one begin --

  predicate Keyed(ip: string, mac: Option<string>, key: string) {
    if mac.Some? && mac.value != "" then key == "mac:" + mac.value else key == "ip:" + ip
  }

  /** Was the anonymous entry seen after the client's own, or after now when that is new? */
  predicate Later(known: Option<Client>, anonymous: Option<Client>, now: real) {
    anonymous.Some? && (if known.Some? then known.value.lastSeen else now) < anonymous.value.lastSeen
  }

  function ProfileOf(c: Option<Client>): Option<string> { if c.Some? then c.value.profile else None }

  function StatusOf(c: Option<Client>): Option<int> { if c.Some? then c.value.lastStatus else None }

  /** The touched entry is as old as its oldest predecessor and has the outcome of the newest. */
  predicate Succession(c: Client, known: Option<Client>, anonymous: Option<Client>, now: real) {
    var own := if known.Some? then known.value.firstSeen else now;
    && c.firstSeen <= own && (anonymous.Some? ==> c.firstSeen <= anonymous.value.firstSeen)
    && (c.firstSeen == own || (anonymous.Some? && c.firstSeen == anonymous.value.firstSeen))
    && c.lastStatus == StatusOf(if Later(known, anonymous, now) then anonymous else known)
  }

  /** The path's profile comes first, then that of the newest predecessor, then any. */
  predicate Profile(c: Client, known: Option<Client>, anonymous: Option<Client>, path: string, now: real) {
    && (RequestProfile(path).Some? ==> c.profile == RequestProfile(path))
    && (RequestProfile(path).None? && Later(known, anonymous, now) ==> c.profile == ProfileOf(anonymous))
    && (RequestProfile(path).None? && !Later(known, anonymous, now) ==>
          c.profile == if ProfileOf(known).Some? then ProfileOf(known) else ProfileOf(anonymous))
  }

  /** The requesting client's entry, from what the table held for it and for its address. */
  predicate Met(c: Client, known: Option<Client>, anonymous: Option<Client>, ip: string, mac: Option<string>,
      path: string, now: real) {
    && c.ip == ip && c.lastSeen == now && c.lastPath == Some(path)
    && c.mac == (if Identified(mac) then mac else if known.Some? then known.value.mac else None)
    && Succession(c, known, anonymous, now) && Profile(c, known, anonymous, path, now)
  }

  /** The new request is active under the next id, and nothing else is counted. */
  predicate Activated(m: Monitor, n: Monitor, verb: string, path: string, ip: string, mac: Option<string>, now: real,
      mono: real) {
    var r := Lookup(n.active, m.nextId);
    && n == m.(nextId := m.nextId + 1, requests := m.requests + 1, clients := n.clients, active := n.active)
    && r.Some? && r.value.id == m.nextId && r.value.verb == verb && r.value.path == path
    && r.value.ip == ip && r.value.mac == mac && Keyed(ip, mac, r.value.clientKey)
    && r.value.startedAt == now && r.value.startedMono == Some(mono) && r.value.bytes == 0 && r.value.length == None
  }

  /** The requesting client is the last entry of the table, unless the table has no room at all. */
  predicate Entered(m: Monitor, n: Monitor, path: string, ip: string, mac: Option<string>, now: real) {
    var last := |n.clients| - 1;
    m.bounds.maxClients > 0 ==>
      && last >= 0 && Keyed(ip, mac, n.clients[last].0)
      && Met(n.clients[last].1, Lookup(m.clients, ClientKey(ip, mac)),
             if Identified(mac) then Lookup(m.clients, ClientKey(ip, None)) else None, ip, mac, path, now)
  }

  lemma {:induction false} DelOther<K, V>(d: Dict<K, V>, k: K, j: K)
    requires j != k
    ensures Lookup(Del(d, k), j) == Lookup(d, j)
  {
    if d != [] && d[0].0 != k {
      DelOther(d[1..], k, j);
      assert ([d[0]] + Del(d[1..], k))[1..] == Del(d[1..], k);
    }
  }

  lemma TouchedMeets(clients: Clients, ip: string, mac: Option<string>, path: string, now: real)
    ensures Met(TouchedClient(clients, ip, mac, path, now), Lookup(clients, ClientKey(ip, mac)),
                if Identified(mac) then Lookup(clients, ClientKey(ip, None)) else None, ip, mac, path, now)
  {
    if Identified(mac) {
      KeyKinds(ip, mac.value, ip);
      DelOther(clients, ClientKey(ip, None), ClientKey(ip, mac));
    }
  }

  /** Beginning a request activates it and makes its client the most recent one. */
  lemma BeginRegisters(m: Monitor, verb: string, path: string, ip: string, mac: Option<string>, now: real, mono: real)
    ensures var n := BeginRequest(m, verb, path, ip, mac, now, mono);
            Activated(m, n, verb, path, ip, mac, now, mono) && Entered(m, n, path, ip, mac, now)
  {
    var r := Request(m.nextId, verb, path, ip, mac, ClientKey(ip, mac), now, Some(mono), 0, None);
    PutLookup(Rekeyed(m, ip, mac), m.nextId, r, m.nextId);
    TouchedMeets(m.clients, ip, mac, path, now);
    var table := TouchedTable(m.clients, ip, mac, path, now);
    assert table[|table| - 1] == (ClientKey(ip, mac), TouchedClient(m.clients, ip, mac, path, now));
  }

  // ---------------------------------------------------------- one recovery --

  /** The record of a request that a restart found open: what was saved of it, timed by the wall clock. */
  predicate Salvaged(r: Request, now: real, record: Record) {
    && record.verb == r.verb && record.path == r.path && record.ip == r.ip && record.mac == r.mac
    && record.status == 0 && record.finishedAt == now && Lasted(Some(r.startedAt), now, record.duration)
    && record.bytes == r.bytes && record.interrupted && record.recovered
  }

  /** A restart records every request it finds open, the last begun as the newest. */
  lemma RestartSalvages(m: Monitor, now: real, i: nat)
    requires |m.history| <= m.bounds.maxRequests && i < |m.active| && |m.active| - 1 - i < m.bounds.maxRequests
    ensures var n, at := RestartFrom(m, now), |m.active| - 1 - i;
            at < |n.history| && Salvaged(m.active[i].1, now, n.history[at])
  {
    History.RecoverAllCutOff(m.(serverStarts := m.serverStarts + 1), m.active, now);
    var records := History.AllCutOff(m.active, now);
    assert records[|m.active| - 1 - i] == History.CutOff(m.active[i].1, now);
    assert (records + m.history)[|m.active| - 1 - i] == records[|m.active| - 1 - i];
  }

  /** A recovered request counts as one recovered failure, and its client's entry, if tabled, shows it. */
  lemma RecoveryCredits(m: Monitor, r: Request, now: real)
    ensures var n := RecoverOne(m, r, now);
            var before, after := Lookup(m.clients, r.clientKey), Lookup(n.clients, r.clientKey);
            && n == m.(clients := n.clients, history := n.history, failed := m.failed + 1,
                       recovered := m.recovered + 1, bytes := m.bytes + r.bytes)
            && (after.Some? <==> before.Some?)
            && (before.Some? && after.Some? ==>
                  after.value == before.value.(lastSeen := now, lastPath := Some(r.path), lastStatus := Some(0),
                                               bytes := before.value.bytes + r.bytes))
  {
    CreditLookup(m.clients, r.clientKey, r, LOST, now, r.clientKey);
  }

  lemma {:induction false} RecoverAllCounts(m: Monitor, rs: Active, now: real)
    ensures RecoverAll(m, rs, now).serverStarts == m.serverStarts
    ensures RecoverAll(m, rs, now).historyStart == m.historyStart
    decreases |rs|
  {
    if rs != [] { RecoverAllCounts(RecoverOne(m, rs[0].1, now), rs[1..], now); }
  }

  function Restarts(log: seq<Event>): nat {
    if log == [] then 0 else Restarts(log[..|log| - 1]) + (if log[|log| - 1].Restart? then 1 else 0)
  }

  /** Every start of the process is counted, the first included; the start of the history never moves. */
  lemma {:induction false} StartsCounted(bounds: Bounds, start: real, log: seq<Event>)
    ensures Replay(bounds, start, log).serverStarts == 1 + Restarts(log)
    ensures Replay(bounds, start, log).historyStart == start
  {
    if log != [] {
      var n := |log| - 1;
      StartsCounted(bounds, start, log[..n]);
      if log[n].Restart? {
        var m := Replay(bounds, start, log[..n]);
        RecoverAllCounts(m.(serverStarts := m.serverStarts + 1), m.active, log[n].now);
      }
    }
  }

  // ---------------------------------------------------- from the calls alone --

  /** The bytes that these calls accept for a running transfer. */
  function SentIn(calls: seq<Event>, id: nat): nat {
    if calls == [] then 0
    else
      var n := |calls| - 1;
      SentIn(calls[..n], id) +
      (if calls[n].AddBytes? && calls[n].id == id && calls[n].count > 0 then calls[n].count else 0)
  }

  /** The length these calls announce for it last; a negative one counts as 0. */
  function AnnouncedIn(calls: seq<Event>, id: nat): Option<nat> {
    if calls == [] then None
    else
      var n := |calls| - 1;
      if calls[n].SetLength? && calls[n].id == id then Some(if calls[n].length < 0 then 0 else calls[n].length)
      else AnnouncedIn(calls[..n], id)
  }

  /** Does call `b` begin request `id`? */
  predicate Begins(log: seq<Event>, id: nat, b: nat) {
    b < |log| && log[b].Begin? && |BookOf(log[..b])| == id - 1
  }

  lemma EnterKeepsOpen(book: seq<Line>, e: Event, id: nat)
    requires Open(Enter(book, e), id)
    ensures e.Begin? && id == |book| + 1 ==> Enter(book, e)[id - 1].fate == InFlight(e.verb, e.path, 0, None)
    ensures !(e.Begin? && id == |book| + 1) ==> Open(book, id)
    ensures !(e.Begin? && id == |book| + 1) ==>
              var f := book[id - 1].fate;
              Enter(book, e)[id - 1].fate == InFlight(
                  f.verb, f.path,
                  f.progress + (if e.AddBytes? && e.id == id && e.count > 0 then e.count else 0),
                  if e.SetLength? && e.id == id then Some(if e.length < 0 then 0 else e.length) else f.length)
  {
  }

  lemma CallsSnoc(calls: seq<Event>, all: seq<Event>, e: Event, id: nat)
    requires all == calls + [e]
    ensures SentIn(all, id) ==
            SentIn(calls, id) + (if e.AddBytes? && e.id == id && e.count > 0 then e.count else 0)
    ensures AnnouncedIn(all, id) ==
            if e.SetLength? && e.id == id then Some(if e.length < 0 then 0 else e.length) else AnnouncedIn(calls, id)
  {
    assert all[..|calls|] == calls;
  }

  /** Call `b` begins request `id`, and the calls since then make it this open transfer. */
  ghost predicate Flying(log: seq<Event>, id: nat, b: nat, f: Fate) {
    && Begins(log, id, b)
    && f == InFlight(log[b].verb, log[b].path, SentIn(log[b + 1..], id), AnnouncedIn(log[b + 1..], id))
  }

  lemma LogSnoc(log: seq<Event>, before: seq<Event>, e: Event, b: nat)
    requires b < |before| && log == before + [e]
    ensures log[..b] == before[..b] && log[b] == before[b] && log[b + 1..] == before[b + 1..] + [e]
  {
  }

  lemma TakesOff(log: seq<Event>, before: seq<Event>, e: Event, id: nat)
    requires log == before + [e] && e.Begin? && |BookOf(before)| == id - 1
    ensures Flying(log, id, |before|, InFlight(e.verb, e.path, 0, None))
  {
    assert log[..|before|] == before && log[|before| + 1..] == [];
  }

  lemma FliesOn(log: seq<Event>, before: seq<Event>, e: Event, id: nat, b: nat, f: Fate)
    requires log == before + [e] && f.InFlight? && Flying(before, id, b, f)
    ensures Flying(log, id, b, InFlight(
                       f.verb, f.path,
                       f.progress + (if e.AddBytes? && e.id == id && e.count > 0 then e.count else 0),
                       if e.SetLength? && e.id == id then Some(if e.length < 0 then 0 else e.length) else f.length))
  {
    LogSnoc(log, before, e, b);
    CallsSnoc(before[b + 1..], log[b + 1..], e, id);
  }

  /** An open transfer is told by the call that began it and those that came since. */
  lemma {:induction false} TransferTold(log: seq<Event>, id: nat) returns (b: nat)
    requires Open(BookOf(log), id)
    ensures Flying(log, id, b, BookOf(log)[id - 1].fate)
  {
    var n := |log| - 1;
    var before, e := log[..n], log[n];
    assert log == before + [e];
    EnterKeepsOpen(BookOf(before), e, id);
    if e.Begin? && id == |BookOf(before)| + 1 {
      b := n;
      TakesOff(log, before, e, id);
    } else {
      b := TransferTold(before, id);
      FliesOn(log, before, e, id, b, BookOf(before)[id - 1].fate);
    }
  }

  /** A request that finished was closed by one call, whose inputs decide how it counts. */
  lemma {:induction false} OutcomeTold(log: seq<Event>, id: nat) returns (k: nat)
    requires 1 <= id <= |BookOf(log)| && BookOf(log)[id - 1].fate.Served?
    ensures k < |log| && log[k].Finish? && log[k].id == id && Open(BookOf(log[..k]), id)
    ensures var was, end := BookOf(log[..k])[id - 1].fate, BookOf(log)[id - 1].fate;
            && end.sent == was.progress
            && (end.ok <==> Succeeds(was.verb, was.progress, was.length, log[k].status, log[k].interrupted))
            && (end.boot <==>
                  Starts(was.verb, was.path, was.progress, was.length, log[k].status, log[k].interrupted))
  {
    var n := |log| - 1;
    var before, e := log[..n], log[n];
    if e.Finish? && e.id == id && Open(BookOf(before), id) {
      k := n;
      var f := BookOf(before)[id - 1].fate;
      JudgeTells(f.verb, f.path, f.progress, f.length, e.status, e.interrupted);
    } else {
      assert id <= |BookOf(before)| && BookOf(before)[id - 1].fate == BookOf(log)[id - 1].fate;
      k := OutcomeTold(before, id);
      assert log[..k] == before[..k];
    }
  }

  /** Call `k` ends request `id`, which call `b` began, with this outcome. */
  ghost predicate Ends(log: seq<Event>, id: nat, b: nat, k: nat, end: Fate) {
    && b < k < |log| && Begins(log, id, b) && log[k].Finish? && log[k].id == id && end.Served?
    && var sent, announced := SentIn(log[b + 1..k], id), AnnouncedIn(log[b + 1..k], id);
       && end.sent == sent
       && (end.ok <==> Succeeds(log[b].verb, sent, announced, log[k].status, log[k].interrupted))
       && (end.boot <==> Starts(log[b].verb, log[b].path, sent, announced, log[k].status, log[k].interrupted))
  }

  /**
   The book is told by the calls alone: a finished request was begun by one call and ended
   by a later one; its bytes are those accepted in between, and whether it counts as a success
   and as a boot follows from these, the last announced length and the inputs of both calls.
   */
  lemma RequestTold(log: seq<Event>, id: nat) returns (b: nat, k: nat)
    requires 1 <= id <= |BookOf(log)| && BookOf(log)[id - 1].fate.Served?
    ensures Ends(log, id, b, k, BookOf(log)[id - 1].fate)
  {
    k := OutcomeTold(log, id);
    b := TransferTold(log[..k], id);
    assert log[..k][..b] == log[..b];
    assert log[..k][b + 1..] == log[b + 1..k];
  }

  lemma EnterCuts(book: seq<Line>, e: Event, id: nat)
    requires 1 <= id <= |Enter(book, e)| && Enter(book, e)[id - 1].fate.CutShort?
    ensures id <= |book|
    ensures if e.Restart? && Open(book, id) then Enter(book, e)[id - 1].fate == CutShort(book[id - 1].fate.progress)
            else book[id - 1].fate == Enter(book, e)[id - 1].fate
  {
  }

  /** A request that a restart cut short was begun by one call; its bytes are those accepted up to the restart. */
  lemma {:induction false} CutTold(log: seq<Event>, id: nat) returns (b: nat, k: nat)
    requires 1 <= id <= |BookOf(log)| && BookOf(log)[id - 1].fate.CutShort?
    ensures b < k < |log| && Begins(log, id, b) && log[k].Restart?
    ensures BookOf(log)[id - 1].fate.kept == SentIn(log[b + 1..k], id)
  {
    var n := |log| - 1;
    var before, e := log[..n], log[n];
    EnterCuts(BookOf(before), e, id);
    if e.Restart? && Open(BookOf(before), id) {
      k := n;
      b := TransferTold(before, id);
      assert before[..b] == log[..b] && before[b + 1..] == log[b + 1..k];
    } else {
      b, k := CutTold(before, id);
      assert log[..b] == before[..b] && log[b + 1..k] == before[b + 1..k];
    }
  }
}
