/**
 A reference ledger: one line per request ever begun, saying who is charged for it
 and how it ended. The line number is the request id, so no request can be counted
 twice. The monitor's counters, tables and recoveries are proved to be sums over it.
 */
module Book {
  import opened Prelude
  import opened OrderedDict
  import opened Ledger

  datatype Fate =
    | InFlight(verb: string, path: string, progress: nat, length: Option<nat>)
    | Served(ok: bool, boot: bool, sent: nat)
    | CutShort(kept: nat)

  datatype Line = Line(owner: string, fate: Fate)

  // ------------------------------------------------------------ the book --

  /** Charges every line of `from` to `to`. */
  function Transfer(book: seq<Line>, from: string, to: string): (r: seq<Line>)
    ensures |r| == |book|
    ensures forall i :: 0 <= i < |book| ==>
              r[i] == book[i].(owner := if book[i].owner == from then to else book[i].owner)
  {
    seq(|book|, i requires 0 <= i < |book| =>
      book[i].(owner := if book[i].owner == from then to else book[i].owner))
  }

  function Closed(f: Fate): Fate { if f.InFlight? then CutShort(f.progress) else f }

  /** Closes every open line as cut short. */
  function Settle(book: seq<Line>): (r: seq<Line>)
    ensures |r| == |book|
    ensures forall i :: 0 <= i < |book| ==> r[i] == book[i].(fate := Closed(book[i].fate))
  {
    seq(|book|, i requires 0 <= i < |book| => book[i].(fate := Closed(book[i].fate)))
  }

  predicate Open(book: seq<Line>, id: nat) { 1 <= id <= |book| && book[id - 1].fate.InFlight? }

  function Amend(book: seq<Line>, id: nat, fate: Fate): seq<Line>
    requires Open(book, id)
  {
    book[id - 1 := book[id - 1].(fate := fate)]
  }

  function Enter(book: seq<Line>, e: Event): seq<Line> {
    match e
    case Begin(verb, path, ip, mac, _, _) =>
      var key := ClientKey(ip, mac);
      (if Identified(mac) then Transfer(book, ClientKey(ip, None), key) else book)
      + [Line(key, InFlight(verb, path, 0, None))]
    case SetLength(id, length) =>
      if Open(book, id) then Amend(book, id, book[id - 1].fate.(length := Some(Max(0, length)))) else book
    case AddBytes(id, count) =>
      if Open(book, id) then
        Amend(book, id, book[id - 1].fate.(progress := book[id - 1].fate.progress + Max(0, count)))
      else book
    case Finish(id, status, interrupted, _, _) =>
      if Open(book, id) then
        var f := book[id - 1].fate;
        var v := Judge(f.verb, f.path, f.progress, f.length, status, interrupted);
        Amend(book, id, Served(v.ok, v.boot, f.progress))
      else book
    case Restart(_) => Settle(book)
  }

  function BookOf(log: seq<Event>): seq<Line> {
    if log == [] then [] else Enter(BookOf(log[..|log| - 1]), log[|log| - 1])
  }

  // ---------------------------------------------------------------- sums --

  // What one line adds to each of the monitor's counters.
  function Requests(f: Fate): int { 1 }
  function Successful(f: Fate): int { if f.Served? && f.ok then 1 else 0 }
  function Failed(f: Fate): int { if f.CutShort? || (f.Served? && !f.ok) then 1 else 0 }
  function Recovered(f: Fate): int { if f.CutShort? then 1 else 0 }
  function Boots(f: Fate): int { if f.Served? && f.boot then 1 else 0 }
  function Unfinished(f: Fate): int { if f.InFlight? then 1 else 0 }
  function Pending(f: Fate): int { if f.InFlight? then f.progress else 0 }
  function Bytes(f: Fate): int { if f.Served? then f.sent else if f.CutShort? then f.kept else 0 }

  predicate Charged(l: Line, who: Option<string>) { who == None || who == Some(l.owner) }

  function Weight(l: Line, f: Fate -> int, who: Option<string>): int {
    if Charged(l, who) then f(l.fate) else 0
  }

  /** Adds up `f` over the lines charged to `who`, or over every line. */
  function Sum(book: seq<Line>, f: Fate -> int, who: Option<string> := None): int {
    if book == [] then 0 else Weight(book[0], f, who) + Sum(book[1..], f, who)
  }

  lemma {:induction false} SumAppend(book: seq<Line>, l: Line, f: Fate -> int, who: Option<string>)
    ensures Sum(book + [l], f, who) == Sum(book, f, who) + Weight(l, f, who)
  {
    if book == [] {
      assert [l][1..] == [];
    } else {
      SumAppend(book[1..], l, f, who);
      assert (book + [l])[1..] == book[1..] + [l];
    }
  }

  lemma {:induction false} SumReplace(book: seq<Line>, i: nat, l: Line, f: Fate -> int, who: Option<string>)
    requires i < |book|
    ensures Sum(book[i := l], f, who) == Sum(book, f, who) - Weight(book[i], f, who) + Weight(l, f, who)
  {
    if i == 0 {
      assert book[i := l][1..] == book[1..];
    } else {
      SumReplace(book[1..], i - 1, l, f, who);
      assert book[i := l][1..] == book[1..][i - 1 := l];
    }
  }

  lemma {:induction false} SumTransfer(book: seq<Line>, from: string, to: string, f: Fate -> int, who: Option<string>)
    requires from != to
    ensures Sum(Transfer(book, from, to), f, who) ==
            if who == Some(from) then 0
            else if who == Some(to) then Sum(book, f, who) + Sum(book, f, Some(from))
            else Sum(book, f, who)
  {
    if book != [] {
      SumTransfer(book[1..], from, to, f, who);
      assert Transfer(book, from, to)[1..] == Transfer(book[1..], from, to);
    }
  }

  /** Closing the open lines moves their progress from pending to delivered bytes. */
  lemma {:induction false} SumSettleBytes(book: seq<Line>, who: Option<string>)
    ensures Sum(Settle(book), Bytes, who) == Sum(book, Bytes, who) + Sum(book, Pending, who)
    ensures Sum(Settle(book), Pending, who) == 0
  {
    if book != [] {
      SumSettleBytes(book[1..], who);
      assert Settle(book)[1..] == Settle(book[1..]);
    }
  }

  lemma {:induction false} SumSettleCounts(book: seq<Line>, who: Option<string>)
    ensures Sum(Settle(book), Requests, who) == Sum(book, Requests, who)
    ensures Sum(Settle(book), Boots, who) == Sum(book, Boots, who)
    ensures Sum(Settle(book), Successful, who) == Sum(book, Successful, who)
  {
    if book != [] {
      SumSettleCounts(book[1..], who);
      assert Settle(book)[1..] == Settle(book[1..]);
    }
  }

  /** ... and every open line becomes a recovered failure. */
  lemma {:induction false} SumSettleOutcomes(book: seq<Line>, who: Option<string>)
    ensures Sum(Settle(book), Failed, who) == Sum(book, Failed, who) + Sum(book, Unfinished, who)
    ensures Sum(Settle(book), Recovered, who) == Sum(book, Recovered, who) + Sum(book, Unfinished, who)
    ensures Sum(Settle(book), Unfinished, who) == 0
  {
    if book != [] {
      SumSettleOutcomes(book[1..], who);
      assert Settle(book)[1..] == Settle(book[1..]);
    }
  }

  lemma {:induction false} SumAtMost(book: seq<Line>, f: Fate -> int, g: Fate -> int, who: Option<string>)
    requires forall i :: 0 <= i < |book| ==> f(book[i].fate) <= g(book[i].fate)
    ensures Sum(book, f, who) <= Sum(book, g, who)
  {
    if book != [] {
      assert f(book[0].fate) <= g(book[0].fate);
      SumAtMost(book[1..], f, g, who);
    }
  }

  lemma {:induction false} SumShape(book: seq<Line>, who: Option<string>)
    ensures Sum(book, Requests, who) == Sum(book, Successful, who) + Sum(book, Failed, who) + Sum(book, Unfinished, who)
    ensures who == None ==> Sum(book, Requests, who) == |book|
  {
    if book != [] { SumShape(book[1..], who); }
  }

  /** Someone charged for nothing has no lines, so every sum is zero. */
  lemma {:induction false} SumNone(book: seq<Line>, who: string, f: Fate -> int)
    ensures Sum(book, Requests, Some(who)) >= 0
    ensures Sum(book, Requests, Some(who)) == 0 ==> Sum(book, f, Some(who)) == 0
  {
    if book != [] { SumNone(book[1..], who, f); }
  }

  lemma {:induction false} SumOwner(book: seq<Line>, i: nat)
    requires i < |book|
    ensures Sum(book, Requests, Some(book[i].owner)) >= 1
  {
    SumNone(book[1..], book[i].owner, Requests);
    if i > 0 { SumOwner(book[1..], i - 1); }
  }

  /** How entering an event moves a sum. */
  lemma SumAmend(book: seq<Line>, id: nat, fate: Fate, f: Fate -> int, who: Option<string>)
    requires Open(book, id)
    ensures Sum(Amend(book, id, fate), f, who) ==
            Sum(book, f, who) + (if Charged(book[id - 1], who) then f(fate) - f(book[id - 1].fate) else 0)
  {
    SumReplace(book, id - 1, book[id - 1].(fate := fate), f, who);
  }

  /** Only successful transfers are counted as boots. */
  lemma {:induction false} BootsSucceed(log: seq<Event>)
    ensures forall i :: 0 <= i < |BookOf(log)| ==> Boots(BookOf(log)[i].fate) <= Successful(BookOf(log)[i].fate)
  {
    if log != [] { BootsSucceed(log[..|log| - 1]); }
  }

  // ------------------------------------------------ bytes of live transfers --

  /** Bytes sent so far by the active requests of one client key, or of all. */
  function Sending(active: Active, who: Option<string> := None): nat {
    if active == [] then 0
    else
      (if who == None || who == Some(active[0].1.clientKey) then active[0].1.bytes else 0) + Sending(active[1..], who)
  }

  function Part(r: Option<Request>, who: Option<string>): nat {
    if r.Some? && (who == None || who == Some(r.value.clientKey)) then r.value.bytes else 0
  }

  lemma {:induction false} SendingPut(active: Active, id: nat, r: Request, who: Option<string>)
    ensures Sending(Put(active, id, r), who) == Sending(active, who) - Part(Lookup(active, id), who)
            + Part(Some(r), who)
  {
    if active == [] {
    } else if active[0].0 == id {
      assert ([(id, r)] + active[1..])[1..] == active[1..];
    } else {
      SendingPut(active[1..], id, r, who);
      assert ([active[0]] + Put(active[1..], id, r))[1..] == Put(active[1..], id, r);
    }
  }

  lemma {:induction false} SendingDel(active: Active, id: nat, who: Option<string>)
    ensures Sending(Del(active, id), who) == Sending(active, who) - Part(Lookup(active, id), who)
  {
    if active != [] && active[0].0 != id {
      SendingDel(active[1..], id, who);
      assert ([active[0]] + Del(active[1..], id))[1..] == Del(active[1..], id);
    }
  }

  lemma {:induction false} SendingRekey(active: Active, from: string, to: string, mac: Option<string>,
      who: Option<string>)
    requires from != to
    ensures Sending(Rekey(active, from, to, mac), who) ==
            if who == Some(from) then 0
            else if who == Some(to) then Sending(active, who) + Sending(active, Some(from))
            else Sending(active, who)
  {
    if active != [] {
      SendingRekey(active[1..], from, to, mac, who);
      assert Rekey(active, from, to, mac)[0].1 == Moved(active[0].1, from, to, mac);
      assert Rekey(active, from, to, mac)[1..] == Rekey(active[1..], from, to, mac);
    }
  }

  lemma {:induction false} RekeyLookup(active: Active, from: string, to: string, mac: Option<string>, id: nat)
    ensures Lookup(Rekey(active, from, to, mac), id) ==
            match Lookup(active, id)
            case None => None
            case Some(r) => Some(Moved(r, from, to, mac))
  {
    if active != [] {
      RekeyLookup(active[1..], from, to, mac, id);
      assert Rekey(active, from, to, mac)[1..] == Rekey(active[1..], from, to, mac);
    }
  }

  lemma {:induction false} RekeyAt(active: Active, from: string, to: string, mac: Option<string>, i: nat)
    requires i < |active|
    ensures Rekey(active, from, to, mac)[i] == (active[i].0, Moved(active[i].1, from, to, mac))
  {
    if i > 0 { RekeyAt(active[1..], from, to, mac, i - 1); }
  }

  lemma RekeyKeys(active: Active, from: string, to: string, mac: Option<string>)
    ensures forall i :: 0 <= i < |active| ==> Rekey(active, from, to, mac)[i].0 == active[i].0
  {
    forall i | 0 <= i < |active| ensures Rekey(active, from, to, mac)[i].0 == active[i].0 {
      RekeyAt(active, from, to, mac, i);
    }
  }
}
