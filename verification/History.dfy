/**
 What the bounded history holds: the newest records of all completions, and nothing else
 depends on its bound.
 */
module History {
  import opened Prelude
  import opened OrderedDict
  import opened Ledger
  import opened Accounting
  import opened Recency

  // ------------------------------------------------------------- completions --

  /** The record of a transfer that finished. */
  function Finished(r: Request, v: Verdict, now: real, mono: real): Record {
    Record(r.verb, r.path, r.ip, r.mac, v.code, now, Duration(r.startedMono, mono), r.bytes, v.interrupted, false)
  }

  /** The record of a transfer that a restart found open. */
  function CutOff(r: Request, now: real): Record {
    Record(r.verb, r.path, r.ip, r.mac, 0, now, Duration(Some(r.startedAt), now), r.bytes, true, true)
  }

  function AllCutOff(rs: Active, now: real): (records: seq<Record>)
    ensures |records| == |rs|
    ensures forall i :: 0 <= i < |rs| ==> records[|rs| - 1 - i] == CutOff(rs[i].1, now)
  {
    if rs == [] then [] else AllCutOff(rs[1..], now) + [CutOff(rs[0].1, now)]
  }

  /** The transfers that one call ends, newest first: the one it finishes, or all that a restart finds open. */
  function EndedBy(active: Active, e: Event): seq<Record> {
    match e
    case Finish(id, status, interrupted, now, mono) =>
      (match Lookup(active, id)
       case None => []
       case Some(r) => [Finished(r, Judge(r.verb, r.path, r.bytes, r.length, status, interrupted), now, mono)])
    case Restart(now) => AllCutOff(active, now)
    case _ => []
  }

  /** Every completion so far, newest first, whatever any history has kept. */
  function Completions(bounds: Bounds, start: real, log: seq<Event>): seq<Record> {
    if log == [] then []
    else
      var before := log[..|log| - 1];
      EndedBy(Replay(bounds, start, before).active, log[|log| - 1]) + Completions(bounds, start, before)
  }

  lemma TakeCat<T>(a: seq<T>, b: seq<T>, n: nat)
    ensures Take(a + Take(b, n), n) == Take(a + b, n)
  {
  }

  lemma {:induction false} RecoverAllCutOff(m: Monitor, rs: Active, now: real)
    requires |m.history| <= m.bounds.maxRequests
    ensures RecoverAll(m, rs, now).history == Take(AllCutOff(rs, now) + m.history, m.bounds.maxRequests)
    decreases |rs|
  {
    if rs == [] {
      assert AllCutOff(rs, now) + m.history == m.history;
    } else {
      var record, n := CutOff(rs[0].1, now), m.bounds.maxRequests;
      RecoverAllCutOff(RecoverOne(m, rs[0].1, now), rs[1..], now);
      TakeCat(AllCutOff(rs[1..], now), [record] + m.history, n);
      assert AllCutOff(rs[1..], now) + ([record] + m.history) == AllCutOff(rs, now) + m.history;
    }
  }

  lemma CompletionsStep(m: Monitor, e: Event, all: seq<Record>)
    requires m.history == Take(all, m.bounds.maxRequests)
    ensures Apply(m, e).history == Take(EndedBy(m.active, e) + all, m.bounds.maxRequests)
  {
    TakeCat(EndedBy(m.active, e), all, m.bounds.maxRequests);
    if e.Restart? {
      RecoverAllCutOff(m.(serverStarts := m.serverStarts + 1), m.active, e.now);
    } else if !e.Finish? || Lookup(m.active, e.id).None? {
      assert EndedBy(m.active, e) + all == all;
    }
  }

  /** The history is exactly the newest completions, in the order in which they ended. */
  lemma {:induction false} HistoryIsCompletions(bounds: Bounds, start: real, log: seq<Event>)
    ensures Replay(bounds, start, log).history == Take(Completions(bounds, start, log), bounds.maxRequests)
  {
    if log != [] {
      var before := log[..|log| - 1];
      HistoryIsCompletions(bounds, start, before);
      ClientsByRecency(bounds, start, before);
      CompletionsStep(Replay(bounds, start, before), log[|log| - 1], Completions(bounds, start, before));
    }
  }

  // --------------------------------------------------------------- the bound --

  /** What a monitor with a smaller history bound would hold instead. */
  function Shortened(m: Monitor, maxRequests: nat): Monitor {
    m.(bounds := m.bounds.(maxRequests := maxRequests), history := Take(m.history, maxRequests))
  }

  lemma TakeCons<T>(x: T, s: seq<T>, small: nat, big: nat)
    requires small <= big
    ensures Take(Take([x] + s, big), small) == Take([x] + Take(s, small), small)
  {
  }

  lemma {:induction false} RecoverAllShortened(m: Monitor, rs: Active, now: real, n: nat)
    requires n <= m.bounds.maxRequests
    ensures RecoverAll(Shortened(m, n), rs, now) == Shortened(RecoverAll(m, rs, now), n)
    decreases |rs|
  {
    if rs != [] {
      var r := rs[0].1;
      TakeCons(CutOff(r, now), m.history, n, m.bounds.maxRequests);
      assert RecoverOne(Shortened(m, n), r, now) == Shortened(RecoverOne(m, r, now), n);
      RecoverAllShortened(RecoverOne(m, r, now), rs[1..], now, n);
    }
  }

  lemma ShortenedStep(m: Monitor, e: Event, n: nat)
    requires n <= m.bounds.maxRequests
    ensures Apply(Shortened(m, n), e) == Shortened(Apply(m, e), n)
  {
    match e
    case Finish(id, status, interrupted, now, mono) =>
      if Lookup(m.active, id).Some? {
        var r := Lookup(m.active, id).value;
        var v := Judge(r.verb, r.path, r.bytes, r.length, status, interrupted);
        TakeCons(Finished(r, v, now, mono), m.history, n, m.bounds.maxRequests);
      }
    case Restart(now) =>
      var m0 := m.(serverStarts := m.serverStarts + 1);
      RecoverAllShortened(m0, m.active, now, n);
      assert Shortened(m, n).(serverStarts := m.serverStarts + 1) == Shortened(m0, n);
    case Begin(_, _, _, _, _, _) =>
    case SetLength(_, _) =>
    case AddBytes(_, _) =>
  }

  /** A bounded history is the newest part of any longer one; nothing else depends on the bound. */
  lemma {:induction false} HistoryIsNewest(bounds: Bounds, start: real, log: seq<Event>, n: nat)
    requires n <= bounds.maxRequests
    ensures Replay(bounds.(maxRequests := n), start, log) == Shortened(Replay(bounds, start, log), n)
  {
    if log != [] {
      var before := log[..|log| - 1];
      HistoryIsNewest(bounds, start, before, n);
      ClientsByRecency(bounds, start, before);
      ShortenedStep(Replay(bounds, start, before), log[|log| - 1], n);
    }
  }

  lemma EndedCounted(m: Monitor, e: Event)
    ensures |EndedBy(m.active, e)| == Apply(m, e).successful + Apply(m, e).failed - m.successful - m.failed
  {
    if e.Restart? { RecoverAllTotals(m.(serverStarts := m.serverStarts + 1), m.active, e.now); }
  }

  /** Completions and outcomes agree: every one is counted once. */
  lemma {:induction false} CompletionsCounted(bounds: Bounds, start: real, log: seq<Event>)
    ensures var m := Replay(bounds, start, log); |Completions(bounds, start, log)| == m.successful + m.failed
  {
    if log != [] {
      CompletionsCounted(bounds, start, log[..|log| - 1]);
      EndedCounted(Replay(bounds, start, log[..|log| - 1]), log[|log| - 1]);
    }
  }

  lemma TakeLength<T>(s: seq<T>, n: nat)
    ensures |Take(s, n)| == Min(n, |s|)
  {
  }

  /** The history misses a completed request only when it is full. */
  lemma HistoryComplete(bounds: Bounds, start: real, log: seq<Event>)
    ensures var m := Replay(bounds, start, log); |m.history| == Min(bounds.maxRequests, m.successful + m.failed)
  {
    HistoryIsCompletions(bounds, start, log);
    CompletionsCounted(bounds, start, log);
    TakeLength(Completions(bounds, start, log), bounds.maxRequests);
  }
}
