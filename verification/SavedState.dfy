/**
 Saving and loading: the document written by `_persist` rebuilds the monitor it was
 taken from, up to the monotonic clock, and a restart over it is the `Restart` event.
 */
module SavedState {
  import opened Prelude
  import opened OrderedDict
  import opened Ledger
  import opened Book
  import opened Accounting
  import opened Recency
  import opened History

  /** A monitor after its process has died: monotonic stamps mean nothing any more. */
  function Forgotten(active: Active): (r: Active)
    ensures |r| == |active|
    ensures forall i :: 0 <= i < |active| ==> r[i] == (active[i].0, active[i].1.(startedMono := None))
  {
    seq(|active|, i requires 0 <= i < |active| => (active[i].0, active[i].1.(startedMono := None)))
  }

  lemma {:induction false} RevivedItems(active: Active)
    requires forall i :: 0 <= i < |active| ==> active[i].1.id == active[i].0
    ensures RevivedAll(Items(active)) == Forgotten(active)
  {
    if active != [] {
      RevivedItems(active[1..]);
      assert Items(active)[1..] == Items(active[1..]);
      assert Forgotten(active) == [Forgotten(active)[0]] + Forgotten(active[1..]);
    }
  }

  lemma {:induction false} MaxIdBelow(active: Active, bound: nat)
    requires forall i :: 0 <= i < |active| ==> active[i].0 < bound
    ensures bound > 0 ==> MaxId(active) < bound
  {
    if active != [] { MaxIdBelow(active[1..], bound); }
  }

  /** What the monitor's own documents satisfy; hand-edited ones need not. */
  ghost predicate Sound(m: Monitor) {
    && Distinct(m.active) && Distinct(m.clients) && m.nextId >= 1
    && (forall i :: 0 <= i < |m.active| ==> m.active[i].1.id == m.active[i].0 < m.nextId)
    && |m.clients| <= m.bounds.maxClients && |m.history| <= m.bounds.maxRequests
  }

  lemma ReplayIsSound(bounds: Bounds, start: real, log: seq<Event>)
    ensures Sound(Replay(bounds, start, log))
  {
    var m, book := Replay(bounds, start, log), BookOf(log);
    LedgerIsBook(bounds, start, log);
    ClientsByRecency(bounds, start, log);
    HistoryComplete(bounds, start, log);
    forall i | 0 <= i < |m.active| ensures m.active[i].1.id == m.active[i].0 < m.nextId {
      LookupAt(m.active, i);
      assert Open(book, m.active[i].0);
    }
  }

  /**
   Loading a saved monitor under its own bounds gives back its clients, history,
   totals, active requests and next id, unless it holds too many active requests.
   */
  lemma RestoreRoundTrip(m: Monitor, savedAt: real)
    requires Sound(m)
    ensures Restore(m.bounds, StateDocument(m, savedAt)) ==
            if |m.active| <= ACTIVE_LIMIT then Some(m.(active := Forgotten(m.active))) else None
  {
    RevivedItems(m.active);
    PutAllAppends(Forgotten(m.active), []);
    PutAllAppends(m.clients, []);
    assert [] + Forgotten(m.active) == Forgotten(m.active) && [] + m.clients == m.clients;
    MaxIdBelow(Forgotten(m.active), m.nextId);
  }

  lemma {:induction false} RecoverForgotten(m: Monitor, rs: Active, now: real)
    ensures RecoverAll(m, Forgotten(rs), now) == RecoverAll(m, rs, now)
    decreases |rs|
  {
    if rs != [] {
      assert Forgotten(rs)[1..] == Forgotten(rs[1..]);
      var r, r' := rs[0].1, Forgotten(rs)[0].1;
      assert CreditClient(m.clients, r'.clientKey, r', LOST, now) == CreditClient(m.clients, r.clientKey, r, LOST, now);
      RecoverForgotten(RecoverOne(m, r, now), rs[1..], now);
    }
  }

  lemma {:induction false} RecoverAllActive(m: Monitor, a: Active, rs: Active, now: real)
    ensures RecoverAll(m.(active := a), rs, now) == RecoverAll(m, rs, now).(active := a)
    decreases |rs|
  {
    if rs != [] {
      assert RecoverOne(m.(active := a), rs[0].1, now) == RecoverOne(m, rs[0].1, now).(active := a);
      RecoverAllActive(RecoverOne(m, rs[0].1, now), a, rs[1..], now);
    }
  }

  /** What the constructor makes of a saved document: load, count the start, recover. */
  function Boot(bounds: Bounds, d: Document, now: real): Option<Monitor> {
    match Restore(bounds, d)
    case None => None
    case Some(m) => Some(RecoverInterrupted(m.(serverStarts := m.serverStarts + 1), now))
  }

  /** Booting over a saved state is the `Restart` event applied to the state saved. */
  lemma BootIsRestart(m: Monitor, savedAt: real, now: real)
    requires Sound(m) && |m.active| <= ACTIVE_LIMIT
    ensures Boot(m.bounds, StateDocument(m, savedAt), now) == Some(Apply(m, Restart(now)))
  {
    RestoreRoundTrip(m, savedAt);
    var m1 := m.(serverStarts := m.serverStarts + 1);
    var f := Forgotten(m.active);
    RecoverAllActive(m1, f, f, now);
    RecoverForgotten(m1, m.active, now);
    assert m.(active := f).(serverStarts := m.serverStarts + 1) == m1.(active := f);
  }

  lemma {:induction false} MaxIdIsMost(active: Active, i: nat)
    requires i < |active|
    ensures active[i].0 <= MaxId(active)
  {
    if i > 0 { MaxIdIsMost(active[1..], i - 1); }
  }

  lemma {:induction false} RevivedAt(items: seq<ActiveItem>, i: nat)
    requires i < |items|
    ensures RevivedAll(items)[i] == (items[i].id, Revived(items[i]))
  {
    if i > 0 { RevivedAt(items[1..], i - 1); }
  }

  /** The transfer a saved item comes back as: all but its monotonic start. */
  predicate ComesBack(item: ActiveItem, id: nat, r: Request) {
    && id == r.id == item.id && r.startedMono == None
    && r.verb == item.verb && r.path == item.path && r.ip == item.ip && r.mac == item.mac
    && r.clientKey == item.clientKey && r.startedAt == item.startedAt
    && r.bytes == item.bytes && r.length == item.length
  }

  lemma {:induction false} PutAllRevived(items: seq<ActiveItem>, active: Active)
    requires Distinct(RevivedAll(items)) && active == PutAll(RevivedAll(items))
    ensures |active| == |items|
    ensures forall i :: 0 <= i < |items| ==> ComesBack(items[i], active[i].0, active[i].1)
  {
    assert [] + RevivedAll(items) == RevivedAll(items);
    PutAllAppends(RevivedAll(items), []);
    forall i | 0 <= i < |items| ensures ComesBack(items[i], active[i].0, active[i].1) {
      RevivedAt(items, i);
    }
  }

  lemma PutAllDistinct(kept: Clients)
    requires Distinct(kept)
    ensures PutAll(kept) == kept
  {
    assert [] + kept == kept;
    PutAllAppends(kept, []);
  }

  lemma NewestAre<T>(s: seq<T>, n: nat, kept: seq<T>)
    requires kept == Newest(s, n)
    ensures |kept| == Min(n, |s|) && kept == s[|s| - |kept|..]
  {
  }

  lemma SuffixDistinct(clients: Clients, at: nat)
    requires Distinct(clients) && at <= |clients|
    ensures Distinct(clients[at..])
  {
    var kept := clients[at..];
    forall i, j | 0 <= i < j < |kept| ensures kept[i].0 != kept[j].0 {
      assert kept[i] == clients[at + i] && kept[j] == clients[at + j];
    }
  }

  lemma PutAllKept(clients: Clients, n: nat, kept: Clients)
    requires Distinct(clients) && kept == if n == 0 then clients else Newest(clients, n)
    ensures PutAll(kept) == kept
    ensures |kept| == if n == 0 then |clients| else Min(n, |clients|)
    ensures kept == clients[|clients| - |kept|..]
  {
    if n > 0 { NewestAre(clients, n, kept); }
    SuffixDistinct(clients, |clients| - |kept|);
    PutAllDistinct(kept);
  }

  /**
   Any document with few enough transfers is accepted, edited by hand or written under larger
   bounds: the newest clients and the newest records are kept in their order, every transfer
   comes back, and the next id is beyond all of theirs.
   */
  lemma RestoreKeepsNewest(bounds: Bounds, d: Document, m: Monitor)
    requires Distinct(d.clients) && Distinct(RevivedAll(d.activeRequests)) && Restore(bounds, d) == Some(m)
    ensures |m.active| == |d.activeRequests| && d.nextId <= m.nextId
    ensures forall i :: 0 <= i < |m.active| ==>
              ComesBack(d.activeRequests[i], m.active[i].0, m.active[i].1) && m.active[i].0 < m.nextId
    ensures |m.clients| == if bounds.maxClients == 0 then |d.clients| else Min(bounds.maxClients, |d.clients|)
    ensures m.clients == d.clients[|d.clients| - |m.clients|..]
    ensures |m.history| == Min(bounds.maxRequests, |d.recentRequests|) && m.history <= d.recentRequests
  {
    PutAllRevived(d.activeRequests, m.active);
    PutAllKept(d.clients, bounds.maxClients,
               if bounds.maxClients == 0 then d.clients else Newest(d.clients, bounds.maxClients));
    forall i | 0 <= i < |m.active| ensures m.active[i].0 < m.nextId {
      MaxIdIsMost(m.active, i);
    }
  }

  /** A document is refused only for holding more than 2048 transfers. */
  lemma RefusedIff(bounds: Bounds, d: Document)
    ensures Restore(bounds, d).None? <==> |d.activeRequests| > 2048
  {
  }
}
