/**
 The shape of the client table: keys agree with identities, and the table is a bounded
 least-recently-touched cache.
 */
module Recency {
  import opened Prelude
  import opened OrderedDict
  import opened Ledger
  import opened Book
  import opened Accounting
  import opened ClientTable
  import opened Attribution

  // ------------------------------------------------------------- identity --

  /** Every client and every active request is filed under its own identity. */
  ghost predicate Identity(m: Monitor) {
    && (forall k: string {:trigger Lookup(m.clients, k)} :: Lookup(m.clients, k).Some? ==>
          k == ClientKey(Lookup(m.clients, k).value.ip, Lookup(m.clients, k).value.mac))
    && (forall id: nat {:trigger Lookup(m.active, id)} :: Lookup(m.active, id).Some? ==>
          Lookup(m.active, id).value.clientKey ==
              ClientKey(Lookup(m.active, id).value.ip, Lookup(m.active, id).value.mac))
  }

  lemma IdentityBeginClient(m: Monitor, e: Event, k: string)
    requires Identity(m) && Distinct(m.clients) && e.Begin? && Lookup(Apply(m, e).clients, k).Some?
    ensures k == ClientKey(Lookup(Apply(m, e).clients, k).value.ip, Lookup(Apply(m, e).clients, k).value.mac)
  {
    var key, anonymous := ClientKey(e.ip, e.mac), ClientKey(e.ip, None);
    var table := TouchedTable(m.clients, e.ip, e.mac, e.path, e.now);
    TouchedDistinct(m.clients, e.ip, e.mac, e.path, e.now);
    if |table| > m.bounds.maxClients { DropLookup(table, |table| - m.bounds.maxClients, k); }
    TouchedLookup(m.clients, e.ip, e.mac, e.path, e.now, k);
    var known := Lookup(WithoutAbsorbed(m.clients, e.ip, e.mac), key);
    if Identified(e.mac) {
      DelLookup(m.clients, anonymous, key);
    } else if known.Some? {
      UnidentifiedKey(known.value.ip, known.value.mac, e.ip);
    }
  }

  lemma IdentityBeginActive(m: Monitor, e: Event, id: nat)
    requires Identity(m) && e.Begin? && Lookup(Apply(m, e).active, id).Some?
    ensures var r := Lookup(Apply(m, e).active, id).value; r.clientKey == ClientKey(r.ip, r.mac)
  {
    var key, anonymous := ClientKey(e.ip, e.mac), ClientKey(e.ip, None);
    var r := Request(m.nextId, e.verb, e.path, e.ip, e.mac, key, e.now, Some(e.mono), 0, None);
    PutLookup(Rekeyed(m, e.ip, e.mac), m.nextId, r, id);
    RekeyLookup(m.active, anonymous, key, e.mac, id);
    if Identified(e.mac) && Lookup(m.active, id).Some? && Lookup(m.active, id).value.clientKey == anonymous {
      UnidentifiedKey(Lookup(m.active, id).value.ip, Lookup(m.active, id).value.mac, e.ip);
    }
  }

  lemma IdentityBegin(m: Monitor, e: Event)
    requires Identity(m) && Distinct(m.clients) && e.Begin?
    ensures Identity(Apply(m, e))
  {
    var n := Apply(m, e);
    forall k: string | Lookup(n.clients, k).Some?
      ensures k == ClientKey(Lookup(n.clients, k).value.ip, Lookup(n.clients, k).value.mac)
    {
      IdentityBeginClient(m, e, k);
    }
    forall id: nat | Lookup(n.active, id).Some?
      ensures Lookup(n.active, id).value.clientKey ==
              ClientKey(Lookup(n.active, id).value.ip, Lookup(n.active, id).value.mac)
    {
      IdentityBeginActive(m, e, id);
    }
  }

  lemma UnidentifiedKey(ip: string, mac: Option<string>, ip': string)
    requires ClientKey(ip, mac) == ClientKey(ip', None)
    ensures !Identified(mac) && ip == ip'
  {
    if Identified(mac) { KeyKinds(ip, mac.value, ip'); }
    KeyKinds(ip, "x", ip');
  }

  predicate SameIdentity(c: Option<Client>, d: Option<Client>) {
    (c.Some? <==> d.Some?) && (c.Some? ==> c.value.ip == d.value.ip && c.value.mac == d.value.mac)
  }

  lemma {:induction false} RecoverAllIdentity(m: Monitor, rs: Active, now: real, k: string)
    ensures SameIdentity(Lookup(m.clients, k), Lookup(RecoverAll(m, rs, now).clients, k))
    decreases |rs|
  {
    if rs != [] {
      CreditLookup(m.clients, rs[0].1.clientKey, rs[0].1, LOST, now, k);
      RecoverAllIdentity(RecoverOne(m, rs[0].1, now), rs[1..], now, k);
    }
  }

  lemma IdentityUpdate(m: Monitor, id: nat, r: Request)
    requires Identity(m) && r.clientKey == ClientKey(r.ip, r.mac)
    ensures Identity(m.(active := Put(m.active, id, r)))
  {
    forall j: nat { PutLookup(m.active, id, r, j); }
  }

  lemma CreditIdentity(clients: Clients, r: Request, v: Verdict, now: real, k: string)
    ensures SameIdentity(Lookup(clients, k), Lookup(CreditClient(clients, r.clientKey, r, v, now), k))
  {
    CreditLookup(clients, r.clientKey, r, v, now, k);
  }

  lemma IdentityFinish(m: Monitor, e: Event)
    requires Identity(m) && Distinct(m.active) && e.Finish? && Lookup(m.active, e.id).Some?
    ensures Identity(Apply(m, e))
  {
    var r := Lookup(m.active, e.id).value;
    var v := Judge(r.verb, r.path, r.bytes, r.length, e.status, e.interrupted);
    forall k: string ensures SameIdentity(Lookup(m.clients, k), Lookup(Apply(m, e).clients, k)) {
      CreditIdentity(m.clients, r, v, e.now, k);
    }
    forall j: nat ensures Lookup(Apply(m, e).active, j) == if j == e.id then None else Lookup(m.active, j) {
      DelLookup(m.active, e.id, j);
    }
  }

  lemma IdentityRestart(m: Monitor, e: Event)
    requires Identity(m) && e.Restart?
    ensures Identity(Apply(m, e))
  {
    var m0 := m.(serverStarts := m.serverStarts + 1);
    RecoverAllTotals(m0, m.active, e.now);
    forall k: string { RecoverAllIdentity(m0, m.active, e.now, k); }
  }

  lemma IdentityStep(m: Monitor, e: Event)
    requires Identity(m) && Distinct(m.clients) && Distinct(m.active)
    ensures Identity(Apply(m, e))
  {
    match e
    case Begin(_, _, _, _, _, _) => IdentityBegin(m, e);
    case SetLength(id, length) =>
      if Lookup(m.active, id).Some? {
        IdentityUpdate(m, id, Lookup(m.active, id).value.(length := Some(Max(0, length))));
      }
    case AddBytes(id, count) =>
      if Lookup(m.active, id).Some? {
        var r := Lookup(m.active, id).value;
        IdentityUpdate(m, id, r.(bytes := r.bytes + Max(0, count)));
      }
    case Finish(id, _, _, _, _) => if Lookup(m.active, id).Some? { IdentityFinish(m, e); }
    case Restart(_) => IdentityRestart(m, e);
  }

  lemma {:induction false} KeysAreIdentities(bounds: Bounds, start: real, log: seq<Event>)
    ensures Identity(Replay(bounds, start, log))
  {
    if log != [] {
      var before := log[..|log| - 1];
      KeysAreIdentities(bounds, start, before);
      LedgerIsBook(bounds, start, before);
      ClientsConserveTotals(bounds, start, before);
      IdentityStep(Replay(bounds, start, before), log[|log| - 1]);
    }
  }

  /**
   When a MAC arrives from an address whose anonymous entry is tabled, nothing keeps
   the anonymous key: its transfers in flight now belong to the identified client.
   */
  lemma IdentificationMoves(m: Monitor, e: Event)
    requires Distinct(m.clients) && e.Begin? && Identified(e.mac) && Lookup(m.clients, ClientKey(e.ip, None)).Some?
    ensures Lookup(Apply(m, e).clients, ClientKey(e.ip, None)).None?
    ensures forall id: nat {:trigger Lookup(Apply(m, e).active, id)} :: Lookup(Apply(m, e).active, id).Some? ==>
              Lookup(Apply(m, e).active, id).value.clientKey != ClientKey(e.ip, None)
    ensures forall id: nat {:trigger Lookup(m.active, id)} ::
              id != m.nextId && Lookup(m.active, id).Some?
                  && Lookup(m.active, id).value.clientKey == ClientKey(e.ip, None) ==>
              Lookup(Apply(m, e).active, id) ==
                  Some(Lookup(m.active, id).value.(clientKey := ClientKey(e.ip, e.mac), mac := e.mac))
  {
    var key, anonymous := ClientKey(e.ip, e.mac), ClientKey(e.ip, None);
    KeyKinds(e.ip, e.mac.value, e.ip);
    var table := TouchedTable(m.clients, e.ip, e.mac, e.path, e.now);
    TouchedDistinct(m.clients, e.ip, e.mac, e.path, e.now);
    TouchedLookup(m.clients, e.ip, e.mac, e.path, e.now, anonymous);
    if |table| > m.bounds.maxClients { DropLookup(table, |table| - m.bounds.maxClients, anonymous); }
    var r := Request(m.nextId, e.verb, e.path, e.ip, e.mac, key, e.now, Some(e.mono), 0, None);
    forall id: nat
      ensures Lookup(Apply(m, e).active, id) ==
              if id == m.nextId then Some(r)
              else if Lookup(m.active, id).None? then None
              else Some(Moved(Lookup(m.active, id).value, anonymous, key, e.mac))
    {
      PutLookup(Rekeyed(m, e.ip, e.mac), m.nextId, r, id);
      RekeyLookup(m.active, anonymous, key, e.mac, id);
    }
  }

  /** No client entry and no active request is filed under this key. */
  ghost predicate Unfiled(m: Monitor, key: string) {
    && Lookup(m.clients, key).None?
    && forall id: nat {:trigger Lookup(m.active, id)} ::
         Lookup(m.active, id).Some? ==> Lookup(m.active, id).value.clientKey != key
  }

  /** A request from this address without a MAC. */
  predicate Anonymous(e: Event, ip: string) { e.Begin? && e.ip == ip && !Identified(e.mac) }

  lemma UnfiledBegin(m: Monitor, e: Event, ip: string)
    requires Distinct(m.clients) && e.Begin? && !Anonymous(e, ip) && Unfiled(m, ClientKey(ip, None))
    ensures Unfiled(Apply(m, e), ClientKey(ip, None))
  {
    var key, anonymous := ClientKey(e.ip, e.mac), ClientKey(ip, None);
    if Identified(e.mac) { KeyKinds(e.ip, e.mac.value, ip); } else { KeyKinds(e.ip, "x", ip); }
    var table := TouchedTable(m.clients, e.ip, e.mac, e.path, e.now);
    TouchedDistinct(m.clients, e.ip, e.mac, e.path, e.now);
    TouchedLookup(m.clients, e.ip, e.mac, e.path, e.now, anonymous);
    if |table| > m.bounds.maxClients { DropLookup(table, |table| - m.bounds.maxClients, anonymous); }
    var r := Request(m.nextId, e.verb, e.path, e.ip, e.mac, key, e.now, Some(e.mono), 0, None);
    forall id: nat | Lookup(Apply(m, e).active, id).Some?
      ensures Lookup(Apply(m, e).active, id).value.clientKey != anonymous
    {
      PutLookup(Rekeyed(m, e.ip, e.mac), m.nextId, r, id);
      RekeyLookup(m.active, ClientKey(e.ip, None), key, e.mac, id);
    }
  }

  lemma UnfiledCall(m: Monitor, e: Event, key: string)
    requires Distinct(m.active) && !e.Begin? && Unfiled(m, key)
    ensures Unfiled(Apply(m, e), key)
  {
    CallKeepsKeys(m, e);
    LookupMember(m.clients, key);
    LookupMember(Apply(m, e).clients, key);
    forall id: nat | Lookup(Apply(m, e).active, id).Some?
      ensures Lookup(Apply(m, e).active, id).value.clientKey != key
    {
      match e
      case SetLength(i, length) =>
        if Lookup(m.active, i).Some? {
          PutLookup(m.active, i, Lookup(m.active, i).value.(length := Some(Max(0, length))), id);
        }
      case AddBytes(i, count) =>
        if Lookup(m.active, i).Some? {
          var r := Lookup(m.active, i).value;
          PutLookup(m.active, i, r.(bytes := r.bytes + Max(0, count)), id);
        }
      case Finish(i, _, _, _, _) => DelLookup(m.active, i, id);
      case Restart(_) =>
    }
  }

  /**
   From then on, through every later call and restart until the address begins a request
   without a MAC again, nothing is filed under the anonymous key.
   */
  lemma {:induction false} IdentificationTakesOver(bounds: Bounds, start: real, log: seq<Event>, e: Event,
      later: seq<Event>)
    requires e.Begin? && Identified(e.mac) && Lookup(Replay(bounds, start, log).clients, ClientKey(e.ip, None)).Some?
    requires forall i :: 0 <= i < |later| ==> !Anonymous(later[i], e.ip)
    ensures Unfiled(Replay(bounds, start, log + [e] + later), ClientKey(e.ip, None))
    decreases |later|
  {
    ClientsByRecency(bounds, start, log);
    if later == [] {
      assert log + [e] + later == log + [e];
      ReplaySnoc(bounds, start, log, e);
      IdentificationMoves(Replay(bounds, start, log), e);
    } else {
      var before, last := later[..|later| - 1], later[|later| - 1];
      var m := Replay(bounds, start, log + [e] + before);
      IdentificationTakesOver(bounds, start, log, e, before);
      assert log + [e] + later == log + [e] + before + [last];
      ReplaySnoc(bounds, start, log + [e] + before, last);
      ClientsByRecency(bounds, start, log + [e] + before);
      LedgerIsBook(bounds, start, log + [e] + before);
      if last.Begin? { UnfiledBegin(m, last, e.ip); } else { UnfiledCall(m, last, ClientKey(e.ip, None)); }
    }
  }

  // -------------------------------------------------------------- recency --

  /** When a client last began a request: the position of that call, or -1. */
  function LastTouch(log: seq<Event>, key: string): int {
    if log == [] then -1
    else
      var e := log[|log| - 1];
      if e.Begin? && ClientKey(e.ip, e.mac) == key then |log| - 1 else LastTouch(log[..|log| - 1], key)
  }

  function Rank(log: seq<Event>): string -> int { key => LastTouch(log, key) }

  lemma {:induction false} LastTouchPast(log: seq<Event>, key: string)
    ensures LastTouch(log, key) < |log|
  {
    if log != [] { LastTouchPast(log[..|log| - 1], key); }
  }

  ghost predicate Recent(m: Monitor, log: seq<Event>) {
    && Distinct(m.clients) && SortedBy(m.clients, Rank(log))
    && |m.clients| <= m.bounds.maxClients
  }

  lemma SameRanks(d: Clients, d': Clients, log: seq<Event>, e: Event)
    requires |d| == |d'| && forall i :: 0 <= i < |d| ==> d[i].0 == d'[i].0
    requires SortedBy(d, Rank(log)) && !e.Begin?
    ensures SortedBy(d', Rank(log + [e]))
  {
    forall k: string ensures Rank(log + [e])(k) == Rank(log)(k) {
      assert (log + [e])[..|log|] == log;
    }
  }

  lemma TouchedSorted(clients: Clients, log: seq<Event>, e: Event)
    requires Distinct(clients) && SortedBy(clients, Rank(log)) && e.Begin?
    ensures SortedBy(TouchedTable(clients, e.ip, e.mac, e.path, e.now), Rank(log + [e]))
  {
    var key, rest := ClientKey(e.ip, e.mac), WithoutAbsorbed(clients, e.ip, e.mac);
    if Identified(e.mac) {
      DelDistinct(clients, ClientKey(e.ip, None));
      DelSorted(clients, ClientKey(e.ip, None), Rank(log));
    }
    DelDistinct(rest, key);
    DelSorted(rest, key, Rank(log));
    var others := Del(rest, key);
    assert (log + [e])[..|log|] == log;
    forall i | 0 <= i < |others|
      ensures Rank(log + [e])(others[i].0) == Rank(log)(others[i].0) < Rank(log + [e])(key)
    {
      DelMember(rest, key, others[i]);
      LastTouchPast(log, others[i].0);
    }
  }

  /** Only `begin` changes who is in the table and in which order. */
  lemma CallKeepsKeys(m: Monitor, e: Event)
    requires !e.Begin?
    ensures var c := Apply(m, e).clients;
            |c| == |m.clients| && forall i :: 0 <= i < |c| ==> c[i].0 == m.clients[i].0
    ensures Apply(m, e).bounds == m.bounds
  {
    if e.Finish? && Lookup(m.active, e.id).Some? {
      var r := Lookup(m.active, e.id).value;
      CreditKeys(m.clients, r.clientKey, r, Judge(r.verb, r.path, r.bytes, r.length, e.status, e.interrupted), e.now);
    }
    if e.Restart? {
      RecoverAllTotals(m.(serverStarts := m.serverStarts + 1), m.active, e.now);
      RecoverAllKeys(m.(serverStarts := m.serverStarts + 1), m.active, e.now);
    }
  }

  lemma RecentStep(m: Monitor, log: seq<Event>, e: Event)
    requires Recent(m, log)
    ensures Recent(Apply(m, e), log + [e])
  {
    if e.Begin? {
      TouchedDistinct(m.clients, e.ip, e.mac, e.path, e.now);
      TouchedSorted(m.clients, log, e);
    } else {
      CallKeepsKeys(m, e);
      SameRanks(m.clients, Apply(m, e).clients, log, e);
    }
  }

  /** The client table is bounded and ordered by last touch, oldest first. */
  lemma {:induction false} ClientsByRecency(bounds: Bounds, start: real, log: seq<Event>)
    ensures Replay(bounds, start, log).bounds == bounds
    ensures Recent(Replay(bounds, start, log), log)
  {
    if log != [] {
      var n := |log| - 1;
      var m := Replay(bounds, start, log[..n]);
      ClientsByRecency(bounds, start, log[..n]);
      RecentStep(m, log[..n], log[n]);
      assert log[..n] + [log[n]] == log;
      if !log[n].Begin? { CallKeepsKeys(m, log[n]); }
    }
  }

  lemma NewcomerStays(m: Monitor, e: Event)
    requires e.Begin? && m.bounds.maxClients >= 1
    ensures Lookup(Apply(m, e).clients, ClientKey(e.ip, e.mac)).Some?
  {
    var kept := Apply(m, e).clients;
    assert kept[|kept| - 1].0 == ClientKey(e.ip, e.mac);
    LookupMember(kept, ClientKey(e.ip, e.mac));
  }

  lemma EvictsOldest(m: Monitor, log: seq<Event>, e: Event)
    requires e.Begin? && m.bounds.maxClients >= 1 && Recent(m, log)
    ensures forall i, j :: 0 <= i < |Evicted(m, e)| && 0 <= j < |Apply(m, e).clients| ==>
              LastTouch(log + [e], Evicted(m, e)[i].0) < LastTouch(log + [e], Apply(m, e).clients[j].0)
  {
    var table := TouchedTable(m.clients, e.ip, e.mac, e.path, e.now);
    var kept, gone := Apply(m, e).clients, Evicted(m, e);
    TouchedSorted(m.clients, log, e);
    forall i, j | 0 <= i < |gone| && 0 <= j < |kept|
      ensures LastTouch(log + [e], gone[i].0) < LastTouch(log + [e], kept[j].0)
    {
      assert gone[i] == table[i] && kept[j] == table[|gone| + j];
      assert Rank(log + [e])(table[i].0) < Rank(log + [e])(table[|gone| + j].0);
    }
  }

  /** A full table evicts only clients touched before every client it keeps, never the newcomer. */
  lemma EvictsLeastRecent(bounds: Bounds, start: real, log: seq<Event>, e: Event)
    requires e.Begin? && bounds.maxClients >= 1
    ensures var m := Replay(bounds, start, log);
            && Lookup(Apply(m, e).clients, ClientKey(e.ip, e.mac)).Some?
            && forall i, j :: 0 <= i < |Evicted(m, e)| && 0 <= j < |Apply(m, e).clients| ==>
                 LastTouch(log + [e], Evicted(m, e)[i].0) < LastTouch(log + [e], Apply(m, e).clients[j].0)
  {
    ClientsByRecency(bounds, start, log);
    NewcomerStays(Replay(bounds, start, log), e);
    EvictsOldest(Replay(bounds, start, log), log, e);
  }

  // ---------------------------------------------------------- small fleets --

  function KeysOf(log: seq<Event>): set<string> {
    if log == [] then {}
    else
      var e := log[|log| - 1];
      KeysOf(log[..|log| - 1]) + (if e.Begin? then {ClientKey(e.ip, e.mac)} else {})
  }

  lemma TableKeys(m: Monitor, e: Event, keys: set<string>)
    requires Distinct(m.clients) && e.Begin? && ClientKey(e.ip, e.mac) in keys
    requires forall i :: 0 <= i < |m.clients| ==> m.clients[i].0 in keys
    ensures var table := TouchedTable(m.clients, e.ip, e.mac, e.path, e.now);
            forall i :: 0 <= i < |table| ==> table[i].0 in keys
  {
    var key, rest := ClientKey(e.ip, e.mac), WithoutAbsorbed(m.clients, e.ip, e.mac);
    if Identified(e.mac) { DelDistinct(m.clients, ClientKey(e.ip, None)); }
    var others := Del(rest, key);
    forall i | 0 <= i < |others| ensures others[i].0 in keys {
      DelMember(rest, key, others[i]);
      if Identified(e.mac) { DelMember(m.clients, ClientKey(e.ip, None), others[i]); }
      var j :| 0 <= j < |m.clients| && m.clients[j] == others[i];
    }
  }

  lemma {:induction false} TableWithinKeys(bounds: Bounds, start: real, log: seq<Event>)
    ensures var m := Replay(bounds, start, log); forall i :: 0 <= i < |m.clients| ==> m.clients[i].0 in KeysOf(log)
  {
    if log != [] {
      var before, e := log[..|log| - 1], log[|log| - 1];
      var m := Replay(bounds, start, before);
      TableWithinKeys(bounds, start, before);
      ClientsByRecency(bounds, start, before);
      if e.Begin? { TableKeys(m, e, KeysOf(log)); } else { CallKeepsKeys(m, e); }
    }
  }

  /** A fleet with no more keys than the table has room for is never evicted from it. */
  lemma {:induction false} SmallFleetFits(bounds: Bounds, start: real, log: seq<Event>)
    requires |KeysOf(log)| <= bounds.maxClients
    ensures Roomy(bounds, start, log)
  {
    if log != [] {
      var before, e := log[..|log| - 1], log[|log| - 1];
      var m := Replay(bounds, start, before);
      SubsetSize(KeysOf(before), KeysOf(log));
      SmallFleetFits(bounds, start, before);
      ClientsByRecency(bounds, start, before);
      TableWithinKeys(bounds, start, before);
      if e.Begin? {
        TableKeys(m, e, KeysOf(log));
        TouchedDistinct(m.clients, e.ip, e.mac, e.path, e.now);
        DistinctFits(TouchedTable(m.clients, e.ip, e.mac, e.path, e.now), KeysOf(log));
      }
    }
  }

  lemma {:induction false} SubsetSize(a: set<string>, b: set<string>)
    requires a <= b
    ensures |a| <= |b|
  {
    if a != {} {
      var x :| x in a;
      SubsetSize(a - {x}, b - {x});
    }
  }
}
