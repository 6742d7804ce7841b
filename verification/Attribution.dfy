/**
 Who is charged for what. With evictions, client figures plus what evictions took
 away always equal the global totals; without evictions, each client's figures are
 exactly those of the book lines it owns.
 */
module Attribution {
  import opened Prelude
  import opened OrderedDict
  import opened Ledger
  import opened Book
  import opened Accounting
  import opened ClientTable

  // ---------------------------------------------------------- conservation --

  /** The entries a call evicts. */
  function Evicted(m: Monitor, e: Event): Clients {
    if e.Begin? then
      var table := TouchedTable(m.clients, e.ip, e.mac, e.path, e.now);
      if |table| <= m.bounds.maxClients then [] else table[..|table| - m.bounds.maxClients]
    else []
  }

  /** Bytes of the given transfers whose client has been evicted meanwhile. */
  function Orphaned(clients: Clients, rs: Active): nat
    decreases |rs|
  {
    if rs == [] then 0
    else (if Lookup(clients, rs[0].1.clientKey).None? then rs[0].1.bytes else 0) + Orphaned(clients, rs[1..])
  }

  function Orphan(m: Monitor, e: Event): Option<Request> {
    if e.Finish? && Lookup(m.active, e.id).Some? && Lookup(m.clients, Lookup(m.active, e.id).value.clientKey).None?
    then Lookup(m.active, e.id) else None
  }

  /** What no client is credited with any more. */
  datatype Loss = Loss(requests: int, boots: int, bytes: int)

  ghost predicate Conserved(m: Monitor, loss: Loss) {
    && Distinct(m.clients)
    && Worth(m.clients, RequestsOf) + loss.requests == m.requests
    && Worth(m.clients, BootsOf) + loss.boots == m.boots
    && Worth(m.clients, BytesOf) + loss.bytes == m.bytes
  }

  lemma NewestWorth(m: Monitor, e: Event, f: Client -> int)
    requires e.Begin?
    ensures var table := TouchedTable(m.clients, e.ip, e.mac, e.path, e.now);
            Worth(Newest(table, m.bounds.maxClients), f) + Worth(Evicted(m, e), f) == Worth(table, f)
  {
    var table := TouchedTable(m.clients, e.ip, e.mac, e.path, e.now);
    var gone, kept := Evicted(m, e), Newest(table, m.bounds.maxClients);
    WorthConcat(gone, kept, f);
    assert gone + kept == table;
  }

  lemma {:induction false} OrphanedSame(c: Clients, d: Clients, rs: Active)
    requires forall k :: Lookup(c, k).Some? <==> Lookup(d, k).Some?
    ensures Orphaned(c, rs) == Orphaned(d, rs)
    decreases |rs|
  {
    if rs != [] { OrphanedSame(c, d, rs[1..]); }
  }

  lemma CreditWorth(clients: Clients, key: string, r: Request, v: Verdict, now: real)
    ensures var c, tabled := CreditClient(clients, key, r, v, now), Lookup(clients, key).Some?;
            && Worth(c, RequestsOf) == Worth(clients, RequestsOf)
            && Worth(c, BootsOf) == Worth(clients, BootsOf) + (if tabled && v.boot then 1 else 0)
            && Worth(c, BytesOf) == Worth(clients, BytesOf) + (if tabled then r.bytes else 0)
  {
    if Lookup(clients, key).Some? {
      var done := FinishedClient(Lookup(clients, key).value, r, v, now);
      WorthPut(clients, key, done, RequestsOf);
      WorthPut(clients, key, done, BootsOf);
      WorthPut(clients, key, done, BytesOf);
    }
  }

  lemma {:induction false} RecoverAllWorth(m: Monitor, rs: Active, now: real)
    ensures var c := RecoverAll(m, rs, now).clients;
            && Worth(c, RequestsOf) == Worth(m.clients, RequestsOf)
            && Worth(c, BootsOf) == Worth(m.clients, BootsOf)
            && Worth(c, BytesOf) + Orphaned(m.clients, rs) == Worth(m.clients, BytesOf) + Sending(rs)
    decreases |rs|
  {
    if rs != [] {
      var r := rs[0].1;
      var m' := RecoverOne(m, r, now);
      CreditWorth(m.clients, r.clientKey, r, LOST, now);
      forall k ensures Lookup(m.clients, k).Some? <==> Lookup(m'.clients, k).Some? {
        CreditLookup(m.clients, r.clientKey, r, LOST, now, k);
      }
      OrphanedSame(m.clients, m'.clients, rs[1..]);
      RecoverAllWorth(m', rs[1..], now);
    }
  }

  function OutcomeOf(r: Request, e: Event): Verdict
    requires e.Finish?
  {
    Judge(r.verb, r.path, r.bytes, r.length, e.status, e.interrupted)
  }

  /** What one call takes out of the client figures. */
  function LossBy(m: Monitor, e: Event): Loss {
    var gone, orphan := Evicted(m, e), Orphan(m, e);
    Loss(Worth(gone, RequestsOf),
         Worth(gone, BootsOf) + (if orphan.Some? && OutcomeOf(orphan.value, e).boot then 1 else 0),
         Worth(gone, BytesOf) + (if orphan.Some? then orphan.value.bytes else 0)
         + (if e.Restart? then Orphaned(m.clients, m.active) else 0))
  }

  function PlusLoss(a: Loss, b: Loss): Loss { Loss(a.requests + b.requests, a.boots + b.boots, a.bytes + b.bytes) }

  function LossOf(bounds: Bounds, start: real, log: seq<Event>): Loss {
    if log == [] then Loss(0, 0, 0)
    else
      var before := log[..|log| - 1];
      PlusLoss(LossOf(bounds, start, before), LossBy(Replay(bounds, start, before), log[|log| - 1]))
  }

  lemma ConservedBegin(m: Monitor, e: Event, loss: Loss)
    requires Conserved(m, loss) && e.Begin?
    ensures Conserved(Apply(m, e), PlusLoss(loss, LossBy(m, e)))
  {
    TouchedDistinct(m.clients, e.ip, e.mac, e.path, e.now);
    TouchedWorth(m.clients, e.ip, e.mac, e.path, e.now);
    NewestWorth(m, e, RequestsOf);
    NewestWorth(m, e, BootsOf);
    NewestWorth(m, e, BytesOf);
  }

  lemma ConservedFinish(m: Monitor, e: Event, loss: Loss)
    requires Conserved(m, loss) && e.Finish? && Lookup(m.active, e.id).Some?
    ensures Conserved(Apply(m, e), PlusLoss(loss, LossBy(m, e)))
  {
    var r := Lookup(m.active, e.id).value;
    var v := Judge(r.verb, r.path, r.bytes, r.length, e.status, e.interrupted);
    CreditKeys(m.clients, r.clientKey, r, v, e.now);
    CreditWorth(m.clients, r.clientKey, r, v, e.now);
  }

  lemma ConservedRestart(m: Monitor, e: Event, loss: Loss)
    requires Conserved(m, loss) && e.Restart?
    ensures Conserved(Apply(m, e), PlusLoss(loss, LossBy(m, e)))
  {
    var m0 := m.(serverStarts := m.serverStarts + 1);
    RecoverAllTotals(m0, m.active, e.now);
    RecoverAllKeys(m0, m.active, e.now);
    RecoverAllWorth(m0, m.active, e.now);
  }

  lemma ConservedStep(m: Monitor, e: Event, loss: Loss)
    requires Conserved(m, loss)
    ensures Conserved(Apply(m, e), PlusLoss(loss, LossBy(m, e)))
  {
    match e
    case Begin(_, _, _, _, _, _) => ConservedBegin(m, e, loss);
    case Finish(id, _, _, _, _) => if Lookup(m.active, id).Some? { ConservedFinish(m, e, loss); }
    case Restart(_) => ConservedRestart(m, e, loss);
    case SetLength(_, _) =>
    case AddBytes(_, _) =>
  }

  /** Conservation: client figures and recorded losses add up to the totals. */
  lemma {:induction false} ClientsConserveTotals(bounds: Bounds, start: real, log: seq<Event>)
    ensures Conserved(Replay(bounds, start, log), LossOf(bounds, start, log))
  {
    if log != [] {
      ClientsConserveTotals(bounds, start, log[..|log| - 1]);
      ConservedStep(Replay(bounds, start, log[..|log| - 1]), log[|log| - 1], LossOf(bounds, start, log[..|log| - 1]));
    }
  }

  // ------------------------------------------------- attribution per client --

  /** No call so far had to evict a client. */
  predicate Roomy(bounds: Bounds, start: real, log: seq<Event>) {
    log == [] ||
    (Roomy(bounds, start, log[..|log| - 1]) && Evicted(Replay(bounds, start, log[..|log| - 1]), log[|log| - 1]) == [])
  }

  /** A client's entry shows exactly the lines of the book charged to it. */
  ghost predicate Fair(m: Monitor, book: seq<Line>, key: string) {
    var c := Lookup(m.clients, key);
    && (c.Some? <==> Sum(book, Requests, Some(key)) > 0)
    && Account(c, RequestsOf) == Sum(book, Requests, Some(key))
    && Account(c, BootsOf) == Sum(book, Boots, Some(key))
    && Account(c, BytesOf) == Sum(book, Bytes, Some(key))
    && Sending(m.active, Some(key)) == Sum(book, Pending, Some(key))
  }

  ghost predicate Owned(m: Monitor, book: seq<Line>) {
    forall id: nat {:trigger Lookup(m.active, id)} :: Lookup(m.active, id).Some? && Open(book, id) ==>
      Lookup(m.active, id).value.clientKey == book[id - 1].owner
  }

  ghost predicate Attributed(m: Monitor, book: seq<Line>) {
    && Mirrors(m, book) && Distinct(m.clients) && Owned(m, book)
    && (forall key :: Fair(m, book, key))
  }

  lemma SumBeginFor(book: seq<Line>, e: Event, f: Fate -> int, k: string)
    requires e.Begin?
    ensures var key, anonymous := ClientKey(e.ip, e.mac), ClientKey(e.ip, None);
            Sum(Enter(book, e), f, Some(k)) ==
            if k == key then
              Sum(book, f, Some(k)) + (if Identified(e.mac) then Sum(book, f, Some(anonymous)) else 0)
              + f(InFlight(e.verb, e.path, 0, None))
            else if Identified(e.mac) && k == anonymous then 0
            else Sum(book, f, Some(k))
  {
    var from, to := ClientKey(e.ip, None), ClientKey(e.ip, e.mac);
    var l := Line(to, InFlight(e.verb, e.path, 0, None));
    if Identified(e.mac) {
      KeyKinds(e.ip, e.mac.value, e.ip);
      SumTransfer(book, from, to, f, Some(k));
      SumAppend(Transfer(book, from, to), l, f, Some(k));
    } else {
      SumAppend(book, l, f, Some(k));
    }
  }

  lemma {:induction false} SendingAbsent(active: Active, key: string)
    requires forall i :: 0 <= i < |active| ==> active[i].1.clientKey != key
    ensures Sending(active, Some(key)) == 0
  {
    if active != [] { SendingAbsent(active[1..], key); }
  }

  lemma SendingBegin(m: Monitor, book: seq<Line>, e: Event, k: string)
    requires Attributed(m, book) && e.Begin?
    ensures var key, anonymous := ClientKey(e.ip, e.mac), ClientKey(e.ip, None);
            Sending(Apply(m, e).active, Some(k)) ==
            if k == key then
              Sending(m.active, Some(k)) + (if Identified(e.mac) then Sending(m.active, Some(anonymous)) else 0)
            else if Identified(e.mac) && k == anonymous then 0
            else Sending(m.active, Some(k))
  {
    var key, anonymous := ClientKey(e.ip, e.mac), ClientKey(e.ip, None);
    var r := Request(m.nextId, e.verb, e.path, e.ip, e.mac, key, e.now, Some(e.mono), 0, None);
    RekeyedLookup(m, e.ip, e.mac, m.nextId);
    assert !Open(book, m.nextId);
    SendingPut(Rekeyed(m, e.ip, e.mac), m.nextId, r, Some(k));
    if Identified(e.mac) {
      KeyKinds(e.ip, e.mac.value, e.ip);
      if Lookup(m.clients, anonymous).Some? {
        SendingRekey(m.active, anonymous, key, e.mac, Some(k));
      } else {
        assert Fair(m, book, anonymous);
        SumNone(book, anonymous, Pending);
      }
    }
  }

  lemma FairBegin(m: Monitor, book: seq<Line>, e: Event, k: string)
    requires Attributed(m, book) && e.Begin? && Evicted(m, e) == []
    ensures Fair(Apply(m, e), Enter(book, e), k)
  {
    var anonymous := ClientKey(e.ip, None);
    TouchedLookup(m.clients, e.ip, e.mac, e.path, e.now, k);
    TouchedFigures(m.clients, e.ip, e.mac, e.path, e.now);
    SumBeginFor(book, e, Requests, k);
    SumBeginFor(book, e, Boots, k);
    SumBeginFor(book, e, Bytes, k);
    SumBeginFor(book, e, Pending, k);
    SendingBegin(m, book, e, k);
    assert Fair(m, book, k) && Fair(m, book, anonymous);
    SumNone(book, k, Requests);
    SumNone(book, anonymous, Requests);
  }

  lemma OwnedBegin(m: Monitor, book: seq<Line>, e: Event)
    requires Attributed(m, book) && e.Begin?
    ensures Owned(Apply(m, e), Enter(book, e))
  {
    var m', book', key, anonymous := Apply(m, e), Enter(book, e), ClientKey(e.ip, e.mac), ClientKey(e.ip, None);
    var r := Request(m.nextId, e.verb, e.path, e.ip, e.mac, key, e.now, Some(e.mono), 0, None);
    forall id: nat | Lookup(m'.active, id).Some? && Open(book', id)
      ensures Lookup(m'.active, id).value.clientKey == book'[id - 1].owner
    {
      PutLookup(Rekeyed(m, e.ip, e.mac), m.nextId, r, id);
      if id <= |book| {
        assert Open(book, id);
        assert Lookup(m.active, id).Some?;
        RekeyLookup(m.active, anonymous, key, e.mac, id);
        SumOwner(book, id - 1);
        assert Fair(m, book, book[id - 1].owner);
      }
    }
  }

  lemma FairFinish(m: Monitor, book: seq<Line>, e: Event, k: string)
    requires Attributed(m, book) && e.Finish? && Open(book, e.id)
    ensures Fair(Apply(m, e), Enter(book, e), k)
  {
    assert Lookup(m.active, e.id).Some?;
    var r := Lookup(m.active, e.id).value;
    var v := Judge(r.verb, r.path, r.bytes, r.length, e.status, e.interrupted);
    var fate := Served(v.ok, v.boot, r.bytes);
    assert Enter(book, e) == Amend(book, e.id, fate);
    CreditLookup(m.clients, r.clientKey, r, v, e.now, k);
    SumAmend(book, e.id, fate, Requests, Some(k));
    SumAmend(book, e.id, fate, Boots, Some(k));
    SumAmend(book, e.id, fate, Bytes, Some(k));
    SumAmend(book, e.id, fate, Pending, Some(k));
    SendingDel(m.active, e.id, Some(k));
    SumOwner(book, e.id - 1);
    assert Fair(m, book, k) && Fair(m, book, r.clientKey);
  }

  lemma FairUpdate(m: Monitor, book: seq<Line>, id: nat, r: Request, k: string)
    requires Attributed(m, book) && Open(book, id) && Lookup(m.active, id).Some?
    requires r.clientKey == Lookup(m.active, id).value.clientKey
    ensures Fair(m.(active := Put(m.active, id, r)), Amend(book, id, Flight(r)), k)
  {
    SumAmend(book, id, Flight(r), Requests, Some(k));
    SumAmend(book, id, Flight(r), Boots, Some(k));
    SumAmend(book, id, Flight(r), Bytes, Some(k));
    SumAmend(book, id, Flight(r), Pending, Some(k));
    SendingPut(m.active, id, r, Some(k));
    assert Fair(m, book, k);
  }

  lemma {:induction false} RecoverAllAccount(m: Monitor, rs: Active, now: real, k: string)
    ensures var c, d := Lookup(m.clients, k), Lookup(RecoverAll(m, rs, now).clients, k);
            && (c.Some? <==> d.Some?)
            && (c.Some? ==> d.value.requests == c.value.requests && d.value.boots == c.value.boots
                            && d.value.bytes == c.value.bytes + Sending(rs, Some(k)))
    decreases |rs|
  {
    if rs != [] {
      CreditLookup(m.clients, rs[0].1.clientKey, rs[0].1, LOST, now, k);
      RecoverAllAccount(RecoverOne(m, rs[0].1, now), rs[1..], now, k);
    }
  }

  lemma FairRestart(m: Monitor, book: seq<Line>, e: Event, k: string)
    requires Attributed(m, book) && e.Restart?
    ensures Fair(Apply(m, e), Enter(book, e), k)
  {
    RecoverAllTotals(m.(serverStarts := m.serverStarts + 1), m.active, e.now);
    RecoverAllAccount(m.(serverStarts := m.serverStarts + 1), m.active, e.now, k);
    SumSettleBytes(book, Some(k));
    SumSettleCounts(book, Some(k));
    assert Fair(m, book, k);
    SumNone(book, k, Pending);
  }

  lemma OwnedUpdate(m: Monitor, book: seq<Line>, id: nat, r: Request)
    requires Attributed(m, book) && Open(book, id) && Lookup(m.active, id).Some?
    requires r.clientKey == Lookup(m.active, id).value.clientKey
    ensures Owned(m.(active := Put(m.active, id, r)), Amend(book, id, Flight(r)))
  {
    forall j: nat | Lookup(Put(m.active, id, r), j).Some? && Open(Amend(book, id, Flight(r)), j)
      ensures Lookup(Put(m.active, id, r), j).value.clientKey == book[j - 1].owner
    {
      PutLookup(m.active, id, r, j);
      assert Open(book, j);
    }
  }

  lemma OwnedClose(m: Monitor, book: seq<Line>, id: nat, fate: Fate)
    requires Attributed(m, book) && Open(book, id) && !fate.InFlight?
    ensures Owned(m.(active := Del(m.active, id)), Amend(book, id, fate))
  {
    forall j: nat | Lookup(Del(m.active, id), j).Some? && Open(Amend(book, id, fate), j)
      ensures Lookup(Del(m.active, id), j).value.clientKey == book[j - 1].owner
    {
      DelLookup(m.active, id, j);
      assert Open(book, j);
    }
  }

  lemma OwnedStep(m: Monitor, book: seq<Line>, e: Event)
    requires Attributed(m, book)
    ensures Owned(Apply(m, e), Enter(book, e))
  {
    match e
    case Begin(_, _, _, _, _, _) => OwnedBegin(m, book, e);
    case Restart(now) => RecoverAllTotals(m.(serverStarts := m.serverStarts + 1), m.active, now);
    case SetLength(id, length) =>
      if Open(book, id) {
        assert Lookup(m.active, id).Some?;
        OwnedUpdate(m, book, id, Lookup(m.active, id).value.(length := Some(Max(0, length))));
      }
    case AddBytes(id, count) =>
      if Open(book, id) {
        assert Lookup(m.active, id).Some?;
        var r := Lookup(m.active, id).value;
        OwnedUpdate(m, book, id, r.(bytes := r.bytes + Max(0, count)));
      }
    case Finish(id, _, _, _, _) =>
      if Open(book, id) {
        assert Lookup(m.active, id).Some?;
        OwnedClose(m, book, id, Enter(book, e)[id - 1].fate);
      }
  }

  lemma FairStep(m: Monitor, book: seq<Line>, e: Event, k: string)
    requires Attributed(m, book) && Evicted(m, e) == []
    ensures Fair(Apply(m, e), Enter(book, e), k)
  {
    assert Fair(m, book, k);
    match e
    case Begin(_, _, _, _, _, _) => FairBegin(m, book, e, k);
    case Restart(_) => FairRestart(m, book, e, k);
    case Finish(id, _, _, _, _) => if Open(book, id) { FairFinish(m, book, e, k); }
    case SetLength(id, length) =>
      if Open(book, id) {
        assert Lookup(m.active, id).Some?;
        FairUpdate(m, book, id, Lookup(m.active, id).value.(length := Some(Max(0, length))), k);
      }
    case AddBytes(id, count) =>
      if Open(book, id) {
        assert Lookup(m.active, id).Some?;
        var r := Lookup(m.active, id).value;
        FairUpdate(m, book, id, r.(bytes := r.bytes + Max(0, count)), k);
      }
  }

  /**
   The attribution theorem: as long as nobody is evicted, every client shows exactly
   the requests, boots and bytes of the book lines charged to it, recoveries and
   anonymous-to-MAC merges included.
   */
  lemma {:induction false} ClientsAreBook(bounds: Bounds, start: real, log: seq<Event>)
    requires Roomy(bounds, start, log)
    ensures Attributed(Replay(bounds, start, log), BookOf(log))
  {
    if log != [] {
      var n := |log| - 1;
      var m, book := Replay(bounds, start, log[..n]), BookOf(log[..n]);
      ClientsAreBook(bounds, start, log[..n]);
      LedgerIsBook(bounds, start, log);
      ClientsConserveTotals(bounds, start, log);
      OwnedStep(m, book, log[n]);
      forall k ensures Fair(Replay(bounds, start, log), BookOf(log), k) {
        FairStep(m, book, log[n], k);
      }
    }
  }

  lemma {:induction false} OrphanedNone(clients: Clients, rs: Active)
    requires forall i :: 0 <= i < |rs| ==> Lookup(clients, rs[i].1.clientKey).Some?
    ensures Orphaned(clients, rs) == 0
    decreases |rs|
  {
    if rs != [] { OrphanedNone(clients, rs[1..]); }
  }

  lemma ActiveTabled(m: Monitor, book: seq<Line>)
    requires Attributed(m, book)
    ensures forall i :: 0 <= i < |m.active| ==> Lookup(m.clients, m.active[i].1.clientKey).Some?
    ensures forall id: nat {:trigger Lookup(m.active, id)} ::
              Lookup(m.active, id).Some? ==> Lookup(m.clients, Lookup(m.active, id).value.clientKey).Some?
  {
    forall id: nat | Lookup(m.active, id).Some?
      ensures Lookup(m.clients, Lookup(m.active, id).value.clientKey).Some?
    {
      assert Open(book, id);
      SumOwner(book, id - 1);
      assert Fair(m, book, book[id - 1].owner);
    }
    forall i | 0 <= i < |m.active| ensures Lookup(m.clients, m.active[i].1.clientKey).Some? {
      LookupAt(m.active, i);
    }
  }

  lemma NoLossStep(m: Monitor, book: seq<Line>, e: Event)
    requires Attributed(m, book) && Evicted(m, e) == []
    ensures LossBy(m, e) == Loss(0, 0, 0)
  {
    ActiveTabled(m, book);
    if e.Restart? { OrphanedNone(m.clients, m.active); }
  }

  lemma {:induction false} NoLoss(bounds: Bounds, start: real, log: seq<Event>)
    requires Roomy(bounds, start, log)
    ensures LossOf(bounds, start, log) == Loss(0, 0, 0)
  {
    if log != [] {
      var n := |log| - 1;
      NoLoss(bounds, start, log[..n]);
      ClientsAreBook(bounds, start, log[..n]);
      NoLossStep(Replay(bounds, start, log[..n]), BookOf(log[..n]), log[n]);
    }
  }

  /** Without evictions nothing is lost: the table's figures sum to the totals exactly. */
  lemma NothingLost(bounds: Bounds, start: real, log: seq<Event>)
    requires Roomy(bounds, start, log)
    ensures var m := Replay(bounds, start, log);
            && Worth(m.clients, RequestsOf) == m.requests
            && Worth(m.clients, BootsOf) == m.boots && Worth(m.clients, BytesOf) == m.bytes
  {
    NoLoss(bounds, start, log);
    ClientsConserveTotals(bounds, start, log);
  }
}
