/**
 The monitor as the object the server shares between its worker threads. Each
 method holds the state lock while it changes the fields, so it is one transition of
 the ledger; `Persist` then writes the document. Clock readings and the outcome of a
 write are parameters.
 */
module StatusMonitor {
  import opened Prelude
  import opened OrderedDict
  import L = Ledger
  import opened Book
  import opened Accounting
  import opened Recency
  import opened History
  import opened SavedState
  import opened Outcomes

  /** How writing the state file can end; an error may follow the replacement. */
  datatype Write = Written | ReplacedThenError | Unwritten

  /** The state file, if it exists, with the history of calls that its document is the snapshot of. */
  class StateFile {
    var contents: Option<L.Document>
    ghost var began: real
    ghost var log: seq<L.Event>

    /** Is the document what a monitor held after that history? A hand-edited one need not be. */
    ghost predicate Genuine(bounds: L.Bounds)
      reads this
    {
      var m := L.Replay(bounds, began, log);
      contents.Some? ==> contents.value == L.StateDocument(m, contents.value.savedAt) && |m.active| <= L.ACTIVE_LIMIT
    }

    constructor (contents: Option<L.Document>)
      ensures this.contents == contents
    {
      this.contents := contents;
    }
  }

  /** The saved document, unless the loader refuses it. */
  function Usable(bounds: L.Bounds, saved: Option<L.Document>): Option<L.Document> {
    if saved.Some? && L.Restore(bounds, saved.value).Some? then saved else None
  }

  /** The state a process starts with. */
  function Started(bounds: L.Bounds, saved: Option<L.Document>, now: real): L.Monitor {
    if Usable(bounds, saved).Some? then Boot(bounds, saved.value, now).value else L.Fresh(bounds, now)
  }

  class Monitor {
    const bounds: L.Bounds
    const file: StateFile?
    var historyStart: real
    var nextId: nat
    var active: L.Active
    var clients: L.Clients
    var history: seq<L.Record>
    var requests: nat
    var successful: nat
    var failed: nat
    var bytes: nat
    var boots: nat
    var serverStarts: nat
    var recovered: nat
    var lastSavedAt: Option<real>
    var persistenceError: bool
    /** When the history began, and every call and restart since. */
    ghost var began: real
    ghost var log: seq<L.Event>

    /** The fields are what the ledger's transitions make of the history. */
    ghost predicate Valid()
      reads this
    {
      State() == L.Replay(bounds, began, log)
    }

    /** The value the ledger's transitions speak about. */
    function State(): L.Monitor
      reads this
    {
      L.Monitor(bounds, historyStart, nextId, active, clients, history,
                requests, successful, failed, bytes, boots, serverStarts, recovered)
    }

    /** The file after a write of the current state with the given outcome. */
    ghost predicate FileAfter(write: Write, savedAt: real, before: Option<L.Document>)
      reads this, file
    {
      file != null ==>
        file.contents == if write.Unwritten? then before else Some(L.StateDocument(State(), savedAt))
    }

    /**
     Starts on the saved history when there is a usable one, else on a fresh one. Only a
     document that no monitor wrote leaves the history behind the state unknown.
     */
    constructor (bounds: L.Bounds, file: StateFile?, now: real, write: Write)
      modifies file
      ensures this.bounds == bounds && this.file == file
      ensures State() == Started(bounds, if file == null then None else old(file.contents), now)
      ensures FileAfter(write, now, Usable(bounds, if file == null then None else old(file.contents)))
      ensures file == null || old(file.contents).None? ==> Valid() && log == []
      ensures file != null && old(file.contents).Some? && old(file.Genuine(bounds)) ==>
                Valid() && began == old(file.began) && log == old(file.log) + [L.Restart(now)]
    {
      this.bounds, this.file := bounds, file;
      historyStart, nextId := now, 1;
      active, clients, history := [], [], [];
      requests, successful, failed, bytes, boots, serverStarts, recovered := 0, 0, 0, 0, 0, 1, 0;
      lastSavedAt, persistenceError := None, false;
      began, log := now, [];
      new;
      if file != null { Reboots(file, bounds, now); }
      Resume(now);
      Persist(now, write);
    }

    static lemma Reboots(file: StateFile, bounds: L.Bounds, now: real)
      ensures file.contents.Some? && file.Genuine(bounds) ==>
                Started(bounds, file.contents, now) == L.Replay(bounds, file.began, file.log + [L.Restart(now)])
    {
      if file.contents.Some? && file.Genuine(bounds) {
        ReplayIsSound(bounds, file.began, file.log);
        ClientsByRecency(bounds, file.began, file.log);
        BootIsRestart(L.Replay(bounds, file.began, file.log), file.contents.value.savedAt, now);
        L.ReplaySnoc(bounds, file.began, file.log, L.Restart(now));
      }
    }

    /** Goes on from the saved state, if there is a usable one. */
    method Resume(now: real)
      requires State() == L.Fresh(bounds, now) && began == now && log == []
      modifies this, file
      ensures var saved := if file == null then None else old(file.contents);
              && State() == Started(bounds, saved, now)
              && (file != null ==> file.contents == Usable(bounds, saved))
              && (saved.None? ==> began == now && log == [])
              && (saved.Some? && Usable(bounds, saved).Some? ==>
                    began == old(file.began) && log == old(file.log) + [L.Restart(now)])
    {
      if file != null && file.contents.Some? { LoadSaved(now); }
      RecoverInterruptedRequests(now);
    }

    /** Adopts the saved state and counts the start, or puts an unusable file aside. */
    method LoadSaved(now: real)
      requires file != null && file.contents.Some?
      modifies this, file
      ensures var restored := L.Restore(bounds, old(file.contents).value);
              if restored.Some? then
                State() == restored.value.(serverStarts := restored.value.serverStarts + 1)
                && file.contents == old(file.contents)
                && began == old(file.began) && log == old(file.log) + [L.Restart(now)]
              else
                State() == old(State()) && file.contents == None && began == old(began) && log == old(log)
    {
      var loaded := RestoreState(file.contents.value);
      if loaded {
        serverStarts := serverStarts + 1;
        began, log := file.began, file.log + [L.Restart(now)];
      } else {
        file.contents := None; // quarantined under another name
      }
    }

    /** Reads everything into locals first, so that a document it refuses leaves the fields alone. */
    method RestoreState(document: L.Document) returns (loaded: bool)
      modifies this
      ensures loaded <==> |document.activeRequests| <= L.ACTIVE_LIMIT
      ensures loaded ==> L.Restore(bounds, document) == Some(State()) && lastSavedAt == Some(document.savedAt)
      ensures !loaded ==> unchanged(this)
      ensures began == old(began) && log == old(log)
    {
      var storedClients := RestoreClients(document.clients);
      var storedRequests := RestoreRequests(document.recentRequests);
      if |document.activeRequests| > L.ACTIVE_LIMIT { return false; }
      var storedActive, largest := RestoreActive(document.activeRequests);
      Adopt(document, storedClients, storedRequests, storedActive, largest);
      loaded := true;
    }

    method Adopt(document: L.Document, clients: L.Clients, records: seq<L.Record>, active: L.Active, largest: nat)
      modifies this`historyStart, this`nextId, this`active, this`clients, this`history, this`requests, this`successful,
               this`failed, this`bytes, this`boots, this`serverStarts, this`recovered, this`lastSavedAt
      ensures State() ==
              L.Monitor(bounds, document.historyStart, Max(document.nextId, largest + 1), active, clients, records,
                        document.requests, document.successful, document.failed, document.bytes, document.boots,
                        document.serverStarts, document.recovered)
      ensures lastSavedAt == Some(document.savedAt)
    {
      historyStart := document.historyStart;
      requests, successful, failed := document.requests, document.successful, document.failed;
      bytes, boots := document.bytes, document.boots;
      serverStarts, recovered := document.serverStarts, document.recovered;
      this.clients, history, this.active := clients, records, active;
      nextId := Max(document.nextId, largest + 1);
      lastSavedAt := Some(document.savedAt);
    }

    /** The newest entries, in their order; a slice of the last 0 entries is all of them. */
    method RestoreClients(stored: L.Clients) returns (table: L.Clients)
      ensures table == PutAll(if bounds.maxClients == 0 then stored else Newest(stored, bounds.maxClients))
    {
      var kept := if bounds.maxClients == 0 then stored else Newest(stored, bounds.maxClients);
      table := [];
      for i := 0 to |kept|
        invariant PutAll(kept[i..], table) == PutAll(kept)
      {
        assert kept[i..][1..] == kept[i + 1..];
        table := Put(table, kept[i].0, kept[i].1);
      }
    }

    method RestoreRequests(stored: seq<L.Record>) returns (records: seq<L.Record>)
      ensures records == Take(stored, bounds.maxRequests)
    {
      var kept := Take(stored, bounds.maxRequests);
      records := [];
      for i := 0 to |kept|
        invariant records == kept[..i]
      {
        records := records + [kept[i]];
      }
    }

    method RestoreActive(stored: seq<L.ActiveItem>) returns (table: L.Active, largest: nat)
      ensures table == PutAll(L.RevivedAll(stored)) && largest == L.MaxId(table)
    {
      table := [];
      for i := 0 to |stored|
        invariant PutAll(L.RevivedAll(stored[i..]), table) == PutAll(L.RevivedAll(stored))
      {
        assert stored[i..][1..] == stored[i + 1..];
        table := Put(table, stored[i].id, L.Revived(stored[i]));
      }
      largest := 0;
      for i := 0 to |table|
        invariant Max(largest, L.MaxId(table[i..])) == L.MaxId(table)
      {
        assert table[i..][1..] == table[i + 1..];
        largest := Max(largest, table[i].0);
      }
      assert table[|table|..] == [];
    }

    method RecoverInterruptedRequests(now: real)
      modifies this`active, this`clients, this`history, this`failed, this`recovered, this`bytes
      ensures State() == L.RecoverInterrupted(old(State()), now)
    {
      var interrupted := active;
      for i := 0 to |interrupted|
        invariant L.RecoverAll(State(), interrupted[i..], now) == L.RecoverAll(old(State()), interrupted, now)
      {
        RecoverRequest(interrupted[i].1, now);
        assert interrupted[i..][1..] == interrupted[i + 1..];
      }
      assert interrupted[|interrupted|..] == [];
      active := [];
    }

    method RecoverRequest(request: L.Request, now: real)
      modifies this`clients, this`history, this`failed, this`recovered, this`bytes
      ensures State() == L.RecoverOne(old(State()), request, now)
    {
      failed := failed + 1;
      recovered := recovered + 1;
      bytes := bytes + request.bytes;
      CreditClient(request, L.LOST, now);
      Remember(L.Record(request.verb, request.path, request.ip, request.mac, 0, now,
                        L.Duration(Some(request.startedAt), now), request.bytes, true, true));
    }

    method TouchClient(ip: string, mac: Option<string>, path: string, now: real) returns (key: string)
      modifies this`clients, this`active
      ensures key == L.ClientKey(ip, mac)
      ensures clients == Newest(L.TouchedTable(old(clients), ip, mac, path, now), bounds.maxClients)
      ensures active == L.Rekeyed(old(State()), ip, mac)
    {
      key := L.ClientKey(ip, mac);
      var client: L.Client;
      ghost var rest := L.WithoutAbsorbed(clients, ip, mac);
      if L.Identified(mac) {
        var anonymousKey := L.ClientKey(ip, None);
        var anonymous := Lookup(clients, anonymousKey);
        clients := Del(clients, anonymousKey);
        var known := Lookup(clients, key);
        if known.None? {
          client := L.NewClient(ip, mac, now);
          clients := Put(clients, key, client);
        } else {
          client := known.value;
        }
        if anonymous.Some? {
          client := L.MergeClients(client, anonymous.value);
          RekeyActive(anonymousKey, key, mac);
        }
      } else {
        var known := Lookup(clients, key);
        if known.None? {
          client := L.NewClient(ip, None, now);
          clients := Put(clients, key, client);
        } else {
          client := known.value;
        }
      }
      assert Del(clients, key) == Del(rest, key) by {
        PutPut(rest, key, L.NewClient(ip, if L.Identified(mac) then mac else None, now), client);
      }
      client := L.Seen(client, ip, mac, path, now);
      clients := Del(clients, key) + [(key, client)];
      assert clients == L.TouchedTable(old(clients), ip, mac, path, now);
      EvictClients();
    }

    method EvictClients()
      modifies this`clients
      ensures clients == Newest(old(clients), bounds.maxClients)
    {
      ghost var table := clients;
      while |clients| > bounds.maxClients
        invariant |clients| <= |table| && clients == table[|table| - |clients|..]
        invariant |clients| >= Min(|table|, bounds.maxClients)
      {
        clients := clients[1..];
      }
    }

    /** Moves transfers in flight over to the client that has just been identified. */
    method RekeyActive(from: string, to: string, mac: Option<string>)
      modifies this`active
      ensures active == L.Rekey(old(active), from, to, mac)
    {
      for i := 0 to |active|
        invariant |active| == |old(active)|
        invariant forall j :: 0 <= j < i ==> active[j] == (old(active)[j].0, L.Moved(old(active)[j].1, from, to, mac))
        invariant forall j :: i <= j < |active| ==> active[j] == old(active)[j]
      {
        var (id, request) := active[i];
        if request.clientKey == from {
          active := active[i := (id, request.(clientKey := to, mac := mac))];
        }
      }
      forall j | 0 <= j < |active| ensures active[j] == L.Rekey(old(active), from, to, mac)[j] {
        RekeyAt(old(active), from, to, mac, j);
      }
    }

    method Persist(savedAt: real, write: Write)
      modifies this`lastSavedAt, this`persistenceError, file
      ensures State() == old(State())
      ensures FileAfter(write, savedAt, if file == null then None else old(file.contents))
      ensures file != null ==> (persistenceError <==> !write.Written?)
      ensures lastSavedAt == if file != null && write.Written? then Some(savedAt) else old(lastSavedAt)
      ensures file != null && Valid() && |active| <= L.ACTIVE_LIMIT
              && (write.Unwritten? ==> old(file.Genuine(bounds))) ==>
                file.Genuine(bounds)
    {
      if file == null { return; }
      var document := StateDocument(savedAt);
      if !write.Unwritten? {
        file.contents := Some(document);
        file.began, file.log := began, log;
      }
      persistenceError := !write.Written?;
      if write.Written? { lastSavedAt := Some(savedAt); }
    }

    method StateDocument(savedAt: real) returns (document: L.Document)
      ensures document == L.StateDocument(State(), savedAt)
    {
      var items: seq<L.ActiveItem> := [];
      for i := 0 to |active|
        invariant items + L.Items(active[i..]) == L.Items(active)
      {
        items := items + [L.Item(active[i].1)];
        assert active[i..][1..] == active[i + 1..];
      }
      assert active[|active|..] == [];
      document := L.Document(savedAt, historyStart, nextId, requests, successful, failed, bytes, boots,
                             serverStarts, recovered, clients, history, items);
    }

    method Begin(verb: string, path: string, ip: string, mac: Option<string>, now: real, mono: real,
                 savedAt: real, write: Write) returns (id: nat)
      modifies this, file
      ensures id == old(nextId)
      ensures State() == L.BeginRequest(old(State()), verb, path, ip, mac, now, mono)
      ensures Activated(old(State()), State(), verb, path, ip, mac, now, mono)
      ensures Entered(old(State()), State(), path, ip, mac, now)
      ensures FileAfter(write, savedAt, if file == null then None else old(file.contents))
      ensures began == old(began) && log == old(log) + [L.Begin(verb, path, ip, mac, now, mono)]
      ensures old(Valid()) ==> Valid()
    {
      L.ReplaySnoc(bounds, began, log, L.Begin(verb, path, ip, mac, now, mono));
      BeginRegisters(State(), verb, path, ip, mac, now, mono);
      id := Register(verb, path, ip, mac, now, mono);
      log := log + [L.Begin(verb, path, ip, mac, now, mono)];
      Persist(savedAt, write);
    }

    method Register(verb: string, path: string, ip: string, mac: Option<string>, now: real, mono: real)
      returns (id: nat)
      modifies this`nextId, this`clients, this`active, this`requests
      ensures id == old(nextId)
      ensures State() == L.BeginRequest(old(State()), verb, path, ip, mac, now, mono)
    {
      id := nextId;
      nextId := nextId + 1;
      var clientKey := TouchClient(ip, mac, path, now);
      active := Put(active, id, L.Request(id, verb, path, ip, mac, clientKey, now, Some(mono), 0, None));
      requests := requests + 1;
    }

    method SetContentLength(id: nat, length: int)
      modifies this`active, this`log
      ensures State() == L.SetContentLength(old(State()), id, length)
      ensures OthersKept(old(active), active, id)
      ensures Lookup(old(active), id).Some? ==>
                Lookup(active, id) == Some(Lookup(old(active), id).value.(length := Some(Max(0, length))))
      ensures log == old(log) + [L.SetLength(id, length)] && (old(Valid()) ==> Valid())
    {
      L.ReplaySnoc(bounds, began, log, L.SetLength(id, length));
      var request := Lookup(active, id);
      if request.Some? {
        var announced := request.value.(length := Some(Max(0, length)));
        KeepsOthers(active, id, announced);
        active := Put(active, id, announced);
      }
      log := log + [L.SetLength(id, length)];
    }

    /** The count of bytes sent never falls, and nothing is saved. */
    method AddBytes(id: nat, count: int)
      modifies this`active, this`log
      ensures State() == L.AddSentBytes(old(State()), id, count)
      ensures OthersKept(old(active), active, id)
      ensures Grown(Lookup(old(active), id), Lookup(active, id), count)
      ensures log == old(log) + [L.AddBytes(id, count)] && (old(Valid()) ==> Valid())
    {
      L.ReplaySnoc(bounds, began, log, L.AddBytes(id, count));
      var request := Lookup(active, id);
      if request.Some? {
        var grown := request.value.(bytes := request.value.bytes + Max(0, count));
        KeepsOthers(active, id, grown);
        active := Put(active, id, grown);
        assert Grown(request, Some(grown), count);
      }
      log := log + [L.AddBytes(id, count)];
    }

    /** Only a request that is still active is recorded, and only then is anything saved. */
    method Finish(id: nat, status: Option<int>, interrupted: bool, now: real, mono: real, savedAt: real, write: Write)
      modifies this, file
      ensures State() == L.FinishRequest(old(State()), id, status, interrupted, now, mono)
      ensures Lookup(old(active), id).Some? ==>
                Booked(old(State()), State(), Lookup(old(active), id).value, status, interrupted, now, mono)
      ensures Lookup(old(active), id).Some? ==>
              FileAfter(write, savedAt, if file == null then None else old(file.contents))
      ensures Lookup(old(active), id).None? ==>
                State() == old(State()) && lastSavedAt == old(lastSavedAt) && (file != null ==> unchanged(file))
      ensures began == old(began) && log == old(log) + [L.Finish(id, status, interrupted, now, mono)]
      ensures old(Valid()) ==> Valid()
    {
      L.ReplaySnoc(bounds, began, log, L.Finish(id, status, interrupted, now, mono));
      if Lookup(active, id).None? {
        log := log + [L.Finish(id, status, interrupted, now, mono)];
        return;
      }
      CompleteRequest(id, status, interrupted, now, mono);
      log := log + [L.Finish(id, status, interrupted, now, mono)];
      Persist(savedAt, write);
    }

    method CompleteRequest(id: nat, status: Option<int>, interrupted: bool, now: real, mono: real)
      requires Lookup(active, id).Some?
      modifies this`active, this`clients, this`history, this`successful, this`failed, this`bytes, this`boots
      ensures State() == L.FinishRequest(old(State()), id, status, interrupted, now, mono)
      ensures Booked(old(State()), State(), Lookup(old(active), id).value, status, interrupted, now, mono)
    {
      FinishBooks(State(), id, status, interrupted, now, mono);
      var request := Lookup(active, id).value;
      active := Del(active, id);

      var code := if status.Some? then status.value else 0;
      var cut := interrupted;
      if request.verb == "GET" && code == 200 && request.length.Some? && request.bytes != request.length.value {
        cut := true;
      }
      var success := 200 <= code < 400 && !cut;
      var isBoot := success && code == 200 && request.verb == "GET" && L.IsBootPath(request.path);
      Conclude(request, L.Verdict(code, cut, success, isBoot), now, mono);
    }

    method Conclude(request: L.Request, v: L.Verdict, now: real, mono: real)
      modifies this`clients, this`history, this`successful, this`failed, this`bytes, this`boots
      ensures State() == L.Concluded(old(State()), request, v, now, mono)
    {
      CountOutcome(v.ok, v.boot, request.bytes);
      CreditClient(request, v, now);
      Remember(L.Record(request.verb, request.path, request.ip, request.mac, v.code, now,
                        L.Duration(request.startedMono, mono), request.bytes, v.interrupted, false));
    }

    method Remember(record: L.Record)
      modifies this`history
      ensures history == Take([record] + old(history), bounds.maxRequests)
    {
      history := Take([record] + history, bounds.maxRequests);
    }

    method CountOutcome(success: bool, isBoot: bool, sent: nat)
      modifies this`successful, this`failed, this`bytes, this`boots
      ensures successful == old(successful) + (if success then 1 else 0)
      ensures failed == old(failed) + (if success then 0 else 1)
      ensures bytes == old(bytes) + sent && boots == old(boots) + (if isBoot then 1 else 0)
    {
      if success { successful := successful + 1; } else { failed := failed + 1; }
      bytes := bytes + sent;
      if isBoot { boots := boots + 1; }
    }

    method CreditClient(request: L.Request, v: L.Verdict, now: real)
      modifies this`clients
      ensures clients == L.CreditClient(old(clients), request.clientKey, request, v, now)
    {
      var client := Lookup(clients, request.clientKey);
      if client.Some? {
        var c := client.value.(lastSeen := now, lastPath := Some(request.path), lastStatus := Some(v.code),
                               bytes := client.value.bytes + request.bytes);
        if v.boot { c := c.(boots := c.boots + 1); }
        clients := Put(clients, request.clientKey, c);
      }
    }
  }

  /** No request but this one has changed, and none has come or gone. */
  ghost predicate OthersKept(before: L.Active, after: L.Active, id: nat) {
    && |before| == |after|
    && forall k: nat {:trigger Lookup(after, k)} ::
         (k != id ==> Lookup(after, k) == Lookup(before, k)) && (Lookup(after, k).Some? <==> Lookup(before, k).Some?)
  }

  /** Nothing but the byte count of the request has changed; it grows by a positive count and never falls. */
  predicate Grown(before: Option<L.Request>, after: Option<L.Request>, count: int) {
    before.Some? ==>
      && after.Some? && after.value == before.value.(bytes := after.value.bytes)
      && (count > 0 ==> after.value.bytes == before.value.bytes + count)
      && (count <= 0 ==> after.value.bytes == before.value.bytes)
  }

  lemma KeepsOthers(active: L.Active, id: nat, r: L.Request)
    requires Lookup(active, id).Some?
    ensures OthersKept(active, Put(active, id, r), id) && Lookup(Put(active, id, r), id) == Some(r)
  {
    PutKeys(active, id, r);
    forall k: nat ensures Lookup(Put(active, id, r), k) == if k == id then Some(r) else Lookup(active, k) {
      PutLookup(active, id, r, k);
    }
  }

  /**
   The ledger theorems speak about the object: its counters are the sums over the book of
   its history, they balance, its keys are identities, its clients are ordered by last
   touch, and its history holds the newest completions.
   */
  lemma ObjectIsLedger(m: Monitor)
    requires m.Valid()
    ensures Mirrors(m.State(), BookOf(m.log)) && Totalled(m.State(), BookOf(m.log))
    ensures m.requests == m.successful + m.failed + |m.active| && m.boots <= m.successful && m.recovered <= m.failed
    ensures Identity(m.State()) && Recent(m.State(), m.log)
    ensures m.history == Take(Completions(m.bounds, m.began, m.log), m.bounds.maxRequests)
  {
    LedgerIsBook(m.bounds, m.began, m.log);
    LedgerBalances(m.bounds, m.began, m.log);
    KeysAreIdentities(m.bounds, m.began, m.log);
    ClientsByRecency(m.bounds, m.began, m.log);
    HistoryIsCompletions(m.bounds, m.began, m.log);
  }
}
