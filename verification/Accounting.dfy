/**
 The monitor's aggregates are exactly what the reference book says, after any
 history of calls and restarts, and per-client figures are conserved.
 */
module Accounting {
  import opened Prelude
  import opened OrderedDict
  import opened Ledger
  import opened Book

  // ------------------------------------------- the active table and the book --

  function Flight(r: Request): Fate { InFlight(r.verb, r.path, r.bytes, r.length) }

  /** The active table holds exactly the book's open lines. */
  ghost predicate Mirrors(m: Monitor, book: seq<Line>) {
    && Distinct(m.active)
    && m.nextId == |book| + 1
    && (forall id: nat {:trigger Lookup(m.active, id)} :: Lookup(m.active, id).Some? <==> Open(book, id))
    && (forall id: nat {:trigger Lookup(m.active, id)} :: Open(book, id) && Lookup(m.active, id).Some? ==>
          Lookup(m.active, id).value.id == id && Flight(Lookup(m.active, id).value) == book[id - 1].fate)
  }

  /** Every total is the sum of what the lines of the book contribute to it. */
  ghost predicate Totalled(m: Monitor, book: seq<Line>) {
    && m.requests == Sum(book, Requests)
    && m.successful == Sum(book, Successful)
    && m.failed == Sum(book, Failed)
    && m.recovered == Sum(book, Recovered)
    && m.boots == Sum(book, Boots)
    && m.bytes == Sum(book, Bytes)
    && |m.active| == Sum(book, Unfinished)
    && Sending(m.active) == Sum(book, Pending)
  }

  lemma {:induction false} RecoverAllTotals(m: Monitor, rs: Active, now: real)
    ensures var r := RecoverAll(m, rs, now);
            r == m.(clients := r.clients, history := r.history, failed := m.failed + |rs|,
                    recovered := m.recovered + |rs|, bytes := m.bytes + Sending(rs))
    decreases |rs|
  {
    if rs != [] {
      RecoverAllTotals(RecoverOne(m, rs[0].1, now), rs[1..], now);
    }
  }

  lemma RekeyedLookup(m: Monitor, ip: string, mac: Option<string>, id: nat)
    ensures Lookup(Rekeyed(m, ip, mac), id).Some? <==> Lookup(m.active, id).Some?
    ensures Lookup(m.active, id).Some? ==>
              Lookup(Rekeyed(m, ip, mac), id).value.id == Lookup(m.active, id).value.id
              && Flight(Lookup(Rekeyed(m, ip, mac), id).value) == Flight(Lookup(m.active, id).value)
  {
    RekeyLookup(m.active, ClientKey(ip, None), ClientKey(ip, mac), mac, id);
  }

  lemma RekeyedKeys(m: Monitor, ip: string, mac: Option<string>)
    ensures |Rekeyed(m, ip, mac)| == |m.active|
    ensures forall i :: 0 <= i < |m.active| ==> Rekeyed(m, ip, mac)[i].0 == m.active[i].0
  {
    RekeyKeys(m.active, ClientKey(ip, None), ClientKey(ip, mac), mac);
  }

  lemma MirrorsBegin(m: Monitor, book: seq<Line>, e: Event)
    requires Mirrors(m, book) && e.Begin?
    ensures Mirrors(Apply(m, e), Enter(book, e))
  {
    var m', book' := Apply(m, e), Enter(book, e);
    var rekeyed := Rekeyed(m, e.ip, e.mac);
    var r := Request(m.nextId, e.verb, e.path, e.ip, e.mac, ClientKey(e.ip, e.mac), e.now, Some(e.mono), 0, None);
    RekeyedKeys(m, e.ip, e.mac);
    PutDistinct(rekeyed, m.nextId, r);
    forall id: nat
      ensures Lookup(m'.active, id).Some? <==> Open(book', id)
      ensures Open(book', id) && Lookup(m'.active, id).Some? ==>
                Lookup(m'.active, id).value.id == id && Flight(Lookup(m'.active, id).value) == book'[id - 1].fate
    {
      PutLookup(rekeyed, m.nextId, r, id);
      RekeyedLookup(m, e.ip, e.mac, id);
      assert Lookup(m.active, id).Some? <==> Open(book, id);
    }
  }

  lemma MirrorsUpdate(m: Monitor, book: seq<Line>, id: nat, r: Request)
    requires Mirrors(m, book) && Open(book, id) && r.id == id
    ensures Mirrors(m.(active := Put(m.active, id, r)), Amend(book, id, Flight(r)))
  {
    PutDistinct(m.active, id, r);
    var active', book' := Put(m.active, id, r), Amend(book, id, Flight(r));
    forall j: nat
      ensures Lookup(active', j).Some? <==> Open(book', j)
      ensures Open(book', j) && Lookup(active', j).Some? ==>
                Lookup(active', j).value.id == j && Flight(Lookup(active', j).value) == book'[j - 1].fate
    {
      PutLookup(m.active, id, r, j);
      assert Lookup(m.active, j).Some? <==> Open(book, j);
    }
  }

  lemma MirrorsClose(m: Monitor, book: seq<Line>, id: nat, fate: Fate)
    requires Mirrors(m, book) && Open(book, id) && !fate.InFlight?
    ensures Mirrors(m.(active := Del(m.active, id)), Amend(book, id, fate))
  {
    DelDistinct(m.active, id);
    var active', book' := Del(m.active, id), Amend(book, id, fate);
    forall j: nat
      ensures Lookup(active', j).Some? <==> Open(book', j)
      ensures Open(book', j) && Lookup(active', j).Some? ==>
                Lookup(active', j).value.id == j && Flight(Lookup(active', j).value) == book'[j - 1].fate
    {
      DelLookup(m.active, id, j);
      assert Lookup(m.active, j).Some? <==> Open(book, j);
    }
  }

  lemma MirrorsStep(m: Monitor, book: seq<Line>, e: Event)
    requires Mirrors(m, book)
    ensures Mirrors(Apply(m, e), Enter(book, e))
  {
    match e
    case Begin(_, _, _, _, _, _) => MirrorsBegin(m, book, e);
    case SetLength(id, length) =>
      if Open(book, id) {
        assert Lookup(m.active, id).Some?;
        MirrorsUpdate(m, book, id, Lookup(m.active, id).value.(length := Some(Max(0, length))));
      }
    case AddBytes(id, count) =>
      if Open(book, id) {
        assert Lookup(m.active, id).Some?;
        var r := Lookup(m.active, id).value;
        MirrorsUpdate(m, book, id, r.(bytes := r.bytes + Max(0, count)));
      }
    case Finish(id, status, interrupted, now, mono) =>
      if Open(book, id) {
        assert Lookup(m.active, id).Some?;
        MirrorsClose(m, book, id, Enter(book, e)[id - 1].fate);
      }
    case Restart(now) =>
      RecoverAllTotals(m.(serverStarts := m.serverStarts + 1), m.active, now);
  }

  /** A new line adds its weight, whoever ends up charged for the older lines. */
  lemma SumEnterBegin(book: seq<Line>, e: Event, f: Fate -> int)
    requires e.Begin?
    ensures Sum(Enter(book, e), f) == Sum(book, f) + f(InFlight(e.verb, e.path, 0, None))
  {
    var from, to := ClientKey(e.ip, None), ClientKey(e.ip, e.mac);
    var l := Line(to, InFlight(e.verb, e.path, 0, None));
    if Identified(e.mac) {
      KeyKinds(e.ip, e.mac.value, e.ip);
      SumTransfer(book, from, to, f, None);
      SumAppend(Transfer(book, from, to), l, f, None);
    } else {
      SumAppend(book, l, f, None);
    }
  }

  lemma BeginActive(m: Monitor, e: Event)
    requires e.Begin? && Lookup(m.active, m.nextId).None?
    ensures |Apply(m, e).active| == |m.active| + 1
    ensures Sending(Apply(m, e).active) == Sending(m.active)
  {
    var r := Request(m.nextId, e.verb, e.path, e.ip, e.mac, ClientKey(e.ip, e.mac), e.now, Some(e.mono), 0, None);
    var rekeyed := Rekeyed(m, e.ip, e.mac);
    RekeyedLookup(m, e.ip, e.mac, m.nextId);
    PutKeys(rekeyed, m.nextId, r);
    SendingPut(rekeyed, m.nextId, r, None);
    if Absorbed(m.clients, e.ip, e.mac).Some? {
      KeyKinds(e.ip, e.mac.value, e.ip);
      SendingRekey(m.active, ClientKey(e.ip, None), ClientKey(e.ip, e.mac), e.mac, None);
    }
  }

  lemma TotalledBegin(m: Monitor, book: seq<Line>, e: Event)
    requires Mirrors(m, book) && Totalled(m, book) && e.Begin?
    ensures Totalled(Apply(m, e), Enter(book, e))
  {
    SumEnterBegin(book, e, Requests);
    SumEnterBegin(book, e, Successful);
    SumEnterBegin(book, e, Failed);
    SumEnterBegin(book, e, Recovered);
    SumEnterBegin(book, e, Boots);
    SumEnterBegin(book, e, Bytes);
    SumEnterBegin(book, e, Unfinished);
    SumEnterBegin(book, e, Pending);
    assert !Open(book, m.nextId);
    BeginActive(m, e);
  }

  lemma SumsAmend(book: seq<Line>, id: nat, fate: Fate)
    requires Open(book, id)
    ensures var was, b := book[id - 1].fate, Amend(book, id, fate);
            && Sum(b, Requests) == Sum(book, Requests)
            && Sum(b, Successful) == Sum(book, Successful) + Successful(fate)
            && Sum(b, Failed) == Sum(book, Failed) + Failed(fate)
            && Sum(b, Recovered) == Sum(book, Recovered) + Recovered(fate)
            && Sum(b, Boots) == Sum(book, Boots) + Boots(fate)
            && Sum(b, Bytes) == Sum(book, Bytes) + Bytes(fate)
            && Sum(b, Unfinished) == Sum(book, Unfinished) + Unfinished(fate) - 1
            && Sum(b, Pending) == Sum(book, Pending) + Pending(fate) - was.progress
  {
    SumAmend(book, id, fate, Requests, None);
    SumAmend(book, id, fate, Successful, None);
    SumAmend(book, id, fate, Failed, None);
    SumAmend(book, id, fate, Recovered, None);
    SumAmend(book, id, fate, Boots, None);
    SumAmend(book, id, fate, Bytes, None);
    SumAmend(book, id, fate, Unfinished, None);
    SumAmend(book, id, fate, Pending, None);
  }

  lemma TotalledUpdate(m: Monitor, book: seq<Line>, id: nat, r: Request)
    requires Mirrors(m, book) && Totalled(m, book) && Open(book, id)
    ensures Totalled(m.(active := Put(m.active, id, r)), Amend(book, id, Flight(r)))
  {
    assert Lookup(m.active, id).Some?;
    SumsAmend(book, id, Flight(r));
    SendingPut(m.active, id, r, None);
    PutKeys(m.active, id, r);
  }

  lemma TotalledFinish(m: Monitor, book: seq<Line>, e: Event)
    requires Mirrors(m, book) && Totalled(m, book) && e.Finish? && Open(book, e.id)
    ensures Totalled(Apply(m, e), Enter(book, e))
  {
    assert Lookup(m.active, e.id).Some?;
    SumsAmend(book, e.id, Enter(book, e)[e.id - 1].fate);
    SendingDel(m.active, e.id, None);
    LookupMember(m.active, e.id);
    DelMember(m.active, e.id, m.active[0]);
  }

  lemma TotalledRestart(m: Monitor, book: seq<Line>, e: Event)
    requires Totalled(m, book) && e.Restart?
    ensures Totalled(Apply(m, e), Enter(book, e))
  {
    RecoverAllTotals(m.(serverStarts := m.serverStarts + 1), m.active, e.now);
    SumSettleBytes(book, None);
    SumSettleCounts(book, None);
    SumSettleOutcomes(book, None);
  }

  lemma TotalledStep(m: Monitor, book: seq<Line>, e: Event)
    requires Mirrors(m, book) && Totalled(m, book)
    ensures Totalled(Apply(m, e), Enter(book, e))
  {
    match e
    case Begin(_, _, _, _, _, _) => TotalledBegin(m, book, e);
    case SetLength(id, length) =>
      if Open(book, id) {
        assert Lookup(m.active, id).Some?;
        TotalledUpdate(m, book, id, Lookup(m.active, id).value.(length := Some(Max(0, length))));
      }
    case AddBytes(id, count) =>
      if Open(book, id) {
        assert Lookup(m.active, id).Some?;
        var r := Lookup(m.active, id).value;
        TotalledUpdate(m, book, id, r.(bytes := r.bytes + Max(0, count)));
      }
    case Finish(id, _, _, _, _) =>
      if Open(book, id) { TotalledFinish(m, book, e); }
    case Restart(_) => TotalledRestart(m, book, e);
  }

  /**
   The ledger theorem: after every history of calls and restarts, each total is the
   sum over the per-request book, and the active table is its open lines.
   */
  lemma {:induction false} LedgerIsBook(bounds: Bounds, start: real, log: seq<Event>)
    ensures Mirrors(Replay(bounds, start, log), BookOf(log))
    ensures Totalled(Replay(bounds, start, log), BookOf(log))
  {
    if log != [] {
      var n := |log| - 1;
      LedgerIsBook(bounds, start, log[..n]);
      MirrorsStep(Replay(bounds, start, log[..n]), BookOf(log[..n]), log[n]);
      TotalledStep(Replay(bounds, start, log[..n]), BookOf(log[..n]), log[n]);
    }
  }

  /** requests = successful + failed + active, boots are successes, recoveries are failures. */
  lemma LedgerBalances(bounds: Bounds, start: real, log: seq<Event>)
    ensures var m := Replay(bounds, start, log);
            m.requests == m.successful + m.failed + |m.active| && m.boots <= m.successful && m.recovered <= m.failed
  {
    LedgerIsBook(bounds, start, log);
    SumShape(BookOf(log), None);
    BootsSucceed(log);
    SumAtMost(BookOf(log), Boots, Successful, None);
    SumAtMost(BookOf(log), Recovered, Failed, None);
  }

  /** The bytes a call accepts: what `add_bytes` is given for a transfer still running. */
  function Accepted(m: Monitor, e: Event): nat {
    if e.AddBytes? && Lookup(m.active, e.id).Some? then Max(0, e.count) else 0
  }

  function AllAccepted(bounds: Bounds, start: real, log: seq<Event>): nat {
    if log == [] then 0
    else
      var before := log[..|log| - 1];
      AllAccepted(bounds, start, before) + Accepted(Replay(bounds, start, before), log[|log| - 1])
  }

  lemma BytesStep(m: Monitor, book: seq<Line>, e: Event)
    requires Mirrors(m, book) && Totalled(m, book)
    ensures Apply(m, e).bytes + Sending(Apply(m, e).active) == m.bytes + Sending(m.active) + Accepted(m, e)
  {
    match e
    case Begin(_, _, _, _, _, _) =>
      assert !Open(book, m.nextId);
      BeginActive(m, e);
    case SetLength(id, length) =>
      if Lookup(m.active, id).Some? {
        SendingPut(m.active, id, Lookup(m.active, id).value.(length := Some(Max(0, length))), None);
      }
    case AddBytes(id, count) =>
      if Lookup(m.active, id).Some? {
        var r := Lookup(m.active, id).value;
        SendingPut(m.active, id, r.(bytes := r.bytes + Max(0, count)), None);
      }
    case Finish(id, _, _, _, _) => SendingDel(m.active, id, None);
    case Restart(now) => RecoverAllTotals(m.(serverStarts := m.serverStarts + 1), m.active, now);
  }

  /** Every accepted byte is either in the total or in a transfer still running, never both. */
  lemma {:induction false} BytesConserved(bounds: Bounds, start: real, log: seq<Event>)
    ensures var m := Replay(bounds, start, log); m.bytes + Sending(m.active) == AllAccepted(bounds, start, log)
  {
    if log != [] {
      var n := |log| - 1;
      BytesConserved(bounds, start, log[..n]);
      LedgerIsBook(bounds, start, log[..n]);
      BytesStep(Replay(bounds, start, log[..n]), BookOf(log[..n]), log[n]);
    }
  }

  lemma FinishedIsGone(m: Monitor, first: Event, again: Event)
    requires Distinct(m.active) && first.Finish? && again.Finish? && first.id == again.id
    ensures Apply(Apply(m, first), again) == Apply(m, first)
  {
    DelLookup(m.active, first.id, first.id);
  }

  /** Finishing a request a second time, with any outcome, changes nothing. */
  lemma FinishOnce(bounds: Bounds, start: real, log: seq<Event>, first: Event, again: Event)
    requires first.Finish? && again.Finish? && first.id == again.id
    ensures Replay(bounds, start, log + [first] + [again]) == Replay(bounds, start, log + [first])
  {
    LedgerIsBook(bounds, start, log);
    FinishedIsGone(Replay(bounds, start, log), first, again);
    ReplaySnoc(bounds, start, log, first);
    ReplaySnoc(bounds, start, log + [first], again);
  }
}
