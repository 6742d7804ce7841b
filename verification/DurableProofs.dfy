/**
 Durable exactly-once accounting: what every step of the server keeps, over every
 interleaving of handler threads, every outcome of a write and every crash.
 */
module DurableProofs {
  import opened Prelude
  import opened OrderedDict
  import opened Ledger
  import opened Book
  import opened Accounting
  import opened SavedState
  import opened DurableServer

  /** The document is what the monitor held after the history it is filed under. */
  ghost predicate Genuine(c: Config, x: Saved) {
    var m := Replay(c.bounds, x.start, x.log);
    x.doc == StateDocument(m, x.doc.savedAt) && |m.active| <= c.maxWorkers
  }

  ghost predicate NoLaterThan(x: Saved, start: real, log: seq<Event>) { x.start == start && x.log <= log }

  /** Everything on disk is a snapshot of the past of this history. */
  ghost predicate DiskWithin(durable: Option<Saved>, pending: seq<Saved>, start: real, log: seq<Event>) {
    && (durable.Some? ==> NoLaterThan(durable.value, start, log))
    && (forall i :: 0 <= i < |pending| ==> NoLaterThan(pending[i], start, log))
  }

  ghost predicate DiskOk(c: Config, durable: Option<Saved>, pending: seq<Saved>) {
    && (durable.Some? ==> Genuine(c, durable.value))
    && (forall i :: 0 <= i < |pending| ==> Genuine(c, pending[i]))
    && (durable.Some? ==> forall i :: 0 <= i < |pending| ==>
        NoLaterThan(durable.value, pending[i].start, pending[i].log))
    && (forall i, j :: 0 <= i < j < |pending| ==> NoLaterThan(pending[i], pending[j].start, pending[j].log))
  }

  ghost predicate MemoryOk(c: Config, s: Server) {
    s.phase != Off ==> s.monitor == Replay(c.bounds, s.start, s.log) && DiskWithin(s.durable, s.pending, s.start, s.log)
  }

  /** What a handler in the middle of a commit relies on having recorded. */
  ghost predicate Covers(log: seq<Event>, worker: Worker) {
    match worker
    case Beginning(id) => 1 <= id <= |BookOf(log)|
    case Finishing(id, fate) => Closes(log, id, fate)
    case _ => true
  }

  ghost predicate Closes(log: seq<Event>, id: nat, fate: Fate) {
    1 <= id <= |BookOf(log)| && BookOf(log)[id - 1].fate == fate && !fate.InFlight?
  }

  ghost predicate CoversFor(workers: map<nat, Worker>, log: seq<Event>, who: Who) {
    who.Handler? ==> who.w in workers && Covers(log, workers[who.w])
  }

  ghost predicate LockOk(c: Config, s: Server) {
    s.lock.Held? ==>
      && Committing(s, s.lock.who)
      && match s.lock.stage
         case Entered => true
         case Snapped(x) =>
           Genuine(c, x) && NoLaterThan(x, s.start, s.log) && DiskWithin(s.durable, s.pending, x.start, x.log)
               && CoversFor(s.workers, x.log, s.lock.who)
         case Replaced => s.pending != [] && CoversFor(s.workers, Visible(s).value.log, s.lock.who)
         case Reported(ok) => ok ==> s.durable.Some? && CoversFor(s.workers, s.durable.value.log, s.lock.who)
  }

  function OpenId(worker: Worker): Option<nat> {
    match worker
    case Beginning(id) => Some(id)
    case Serving(id) => Some(id)
    case _ => None
  }

  ghost predicate Attended(workers: map<nat, Worker>, id: nat) {
    exists w :: w in workers && OpenId(workers[w]) == Some(id)
  }

  /** Every active request has a handler looking after it. */
  ghost predicate AllAttended(active: Active, workers: map<nat, Worker>) {
    forall id: nat {:trigger Attended(workers, id)} :: Lookup(active, id).Some? ==> Attended(workers, id)
  }

  ghost predicate WorkersOk(c: Config, s: Server) {
    && (s.phase != Running ==> s.workers == map[])
    && (s.phase == Booting ==> s.monitor.active == [])
    && (s.phase == Running ==> s.free + |s.workers| == c.maxWorkers && AllAttended(s.monitor.active, s.workers))
    && (forall w :: w in s.workers ==> Covers(s.log, s.workers[w]))
  }

  /** What has been promised to callers is on the durable disk. */
  ghost predicate PromisesKept(durable: Option<Saved>, begun: set<nat>, ended: map<nat, Fate>) {
    && (begun != {} || ended != map[] ==> durable.Some?)
    && (forall id :: id in begun ==> durable.Some? && 1 <= id <= |BookOf(durable.value.log)|)
    && (forall id :: id in ended ==> durable.Some? && Closes(durable.value.log, id, ended[id]))
  }

  ghost predicate Inv(c: Config, s: Server) {
    && DiskOk(c, s.durable, s.pending) && MemoryOk(c, s) && LockOk(c, s) && WorkersOk(c, s)
    && PromisesKept(s.durable, s.begun, s.ended)
  }

  // ------------------------------------------------------- histories only grow --

  lemma BookSnoc(log: seq<Event>, e: Event)
    ensures BookOf(log + [e]) == Enter(BookOf(log), e)
  {
    assert (log + [e])[..|log|] == log;
  }

  ghost predicate Grown(book: seq<Line>, book': seq<Line>) {
    && |book| <= |book'|
    && forall i :: 0 <= i < |book| && !book[i].fate.InFlight? ==> book'[i].fate == book[i].fate
  }

  lemma EnterGrows(book: seq<Line>, e: Event)
    ensures Grown(book, Enter(book, e))
  {
  }

  /** A line once closed keeps its fate through every later call and restart. */
  lemma {:induction false} BookGrows(log: seq<Event>, more: seq<Event>)
    requires log <= more
    ensures Grown(BookOf(log), BookOf(more))
    decreases |more|
  {
    if |log| < |more| {
      var n := |more| - 1;
      assert log <= more[..n];
      BookGrows(log, more[..n]);
      EnterGrows(BookOf(more[..n]), more[n]);
    } else {
      assert log == more;
    }
  }

  lemma CoversGrow(log: seq<Event>, more: seq<Event>, worker: Worker)
    requires log <= more && Covers(log, worker)
    ensures Covers(more, worker)
  {
    BookGrows(log, more);
  }

  /** Moving the durable document forward keeps every promise. */
  lemma PromisesAdvance(durable: Option<Saved>, begun: set<nat>, ended: map<nat, Fate>, x: Saved)
    requires PromisesKept(durable, begun, ended)
    requires durable.Some? ==> durable.value.log <= x.log
    ensures PromisesKept(Some(x), begun, ended)
  {
    if durable.Some? { BookGrows(durable.value.log, x.log); }
  }

  // ------------------------------------------------------------------ slots --

  /** Distinct active requests are attended by distinct workers. */
  lemma {:induction false} ActiveFits(active: Active, workers: map<nat, Worker>)
    requires Distinct(active)
    requires forall i :: 0 <= i < |active| ==> Attended(workers, active[i].0)
    ensures |active| <= |workers|
    decreases |active|
  {
    if active != [] {
      assert Attended(workers, active[0].0);
      var w :| w in workers && OpenId(workers[w]) == Some(active[0].0);
      var others := workers - {w};
      forall i | 0 <= i < |active[1..]| ensures Attended(others, active[1..][i].0) {
        assert active[1..][i] == active[i + 1];
        assert Attended(workers, active[i + 1].0);
        var v :| v in workers && OpenId(workers[v]) == Some(active[i + 1].0);
        assert v in others;
      }
      ActiveFits(active[1..], others);
      assert others.Keys == workers.Keys - {w};
    }
  }

  lemma ActiveBounded(c: Config, s: Server)
    requires WorkersOk(c, s) && MemoryOk(c, s) && s.phase != Off
    ensures |s.monitor.active| <= c.maxWorkers
  {
    if s.phase == Running {
      var a := s.monitor.active;
      LedgerIsBook(c.bounds, s.start, s.log);
      forall i | 0 <= i < |a| ensures Attended(s.workers, a[i].0) {
        LookupAt(a, i);
      }
      ActiveFits(a, s.workers);
    }
  }

  /** A worker keeps attending to its request through a change of state. */
  lemma StillAttended(active: Active, workers: map<nat, Worker>, w: nat, worker: Worker, active': Active)
    requires AllAttended(active, workers)
    requires forall j: nat {:trigger Lookup(active', j)} :: Lookup(active', j).Some? ==>
               OpenId(worker) == Some(j)
                   || (Lookup(active, j).Some? && (w in workers ==> OpenId(workers[w]) != Some(j)))
    ensures AllAttended(active', workers[w := worker])
  {
    var workers' := workers[w := worker];
    forall j: nat | Lookup(active', j).Some? ensures Attended(workers', j) {
      if OpenId(worker) == Some(j) {
        assert OpenId(workers'[w]) == Some(j);
      } else {
        assert Attended(workers, j);
        var v :| v in workers && OpenId(workers[v]) == Some(j);
        assert OpenId(workers'[v]) == Some(j);
      }
    }
  }

  lemma StillAttendedWithout(active: Active, workers: map<nat, Worker>, w: nat)
    requires AllAttended(active, workers) && w in workers && OpenId(workers[w]).None?
    ensures AllAttended(active, workers - {w})
  {
    forall j: nat | Lookup(active, j).Some? ensures Attended(workers - {w}, j) {
      assert Attended(workers, j);
      var v :| v in workers && OpenId(workers[v]) == Some(j);
      assert v in workers - {w} && (workers - {w})[v] == workers[v];
    }
  }

  // ------------------------------------------------------------------ steps --

  /** A call under the state lock extends the history and leaves every recorded fact true. */
  lemma MutateKeeps(c: Config, s: Server, e: Event)
    requires Inv(c, s) && s.phase == Running
    ensures var t := Mutate(s, e);
            && MemoryOk(c, t) && LockOk(c, t)
            && (forall w :: w in t.workers ==> Covers(t.log, t.workers[w]))
  {
    var t := Mutate(s, e);
    ReplaySnoc(c.bounds, s.start, s.log, e);
    forall w | w in t.workers ensures Covers(t.log, t.workers[w]) {
      CoversGrow(s.log, t.log, s.workers[w]);
    }
  }

  /** Changing the state of a worker that is not committing does not disturb the lock's holder. */
  lemma LockUndisturbed(c: Config, s: Server, w: nat, worker: Worker)
    requires LockOk(c, s) && s.phase == Running
    requires w in s.workers ==> !s.workers[w].Beginning? && !s.workers[w].Finishing?
    ensures LockOk(c, s.(workers := s.workers[w := worker]))
  {
  }

  lemma LockIgnoresSlots(c: Config, s: Server, free: nat)
    requires LockOk(c, s)
    ensures LockOk(c, s.(free := free))
  {
  }

  lemma LockUndisturbedWithout(c: Config, s: Server, w: nat)
    requires LockOk(c, s) && s.phase == Running
    requires w in s.workers && !s.workers[w].Beginning? && !s.workers[w].Finishing?
    ensures LockOk(c, s.(workers := s.workers - {w}))
  {
  }

  lemma MapUpdated<V>(m: map<nat, V>, k: nat, v: V)
    ensures |m[k := v]| == |m| + (if k in m then 0 else 1)
  {
    assert m[k := v].Keys == m.Keys + {k};
  }

  lemma MapRemoved<V>(m: map<nat, V>, k: nat)
    requires k in m
    ensures |m - {k}| == |m| - 1
  {
    assert (m - {k}).Keys == m.Keys - {k};
  }

  lemma BeginKeeps(c: Config, s: Server, a: Action)
    requires Inv(c, s) && a.CallBegin? && Enabled(s, a)
    ensures Inv(c, Do(c, s, a))
  {
    var e, id := Event.Begin(a.verb, a.path, a.ip, a.mac, a.now, a.mono), s.monitor.nextId;
    MutateKeeps(c, s, e);
    LedgerIsBook(c.bounds, s.start, s.log);
    BookSnoc(s.log, e);
    LockUndisturbed(c, Mutate(s, e), a.w, Beginning(id));
    var active' := Apply(s.monitor, e).active;
    forall j: nat ensures Lookup(active', j).Some? ==> j == id || Lookup(s.monitor.active, j).Some? {
      var r := Request(id, a.verb, a.path, a.ip, a.mac, ClientKey(a.ip, a.mac), a.now, Some(a.mono), 0, None);
      PutLookup(Rekeyed(s.monitor, a.ip, a.mac), id, r, j);
      RekeyedLookup(s.monitor, a.ip, a.mac, j);
    }
    StillAttended(s.monitor.active, s.workers, a.w, Beginning(id), active');
    MapUpdated(s.workers, a.w, Beginning(id));
  }

  lemma UpdateKeeps(c: Config, s: Server, e: Event)
    requires Inv(c, s) && s.phase == Running && (e.SetLength? || e.AddBytes?)
    ensures Inv(c, Mutate(s, e))
  {
    MutateKeeps(c, s, e);
    var active' := Apply(s.monitor, e).active;
    forall j: nat ensures Lookup(active', j).Some? ==> Lookup(s.monitor.active, j).Some? {
      if Lookup(s.monitor.active, e.id).Some? {
        var r := Lookup(s.monitor.active, e.id).value;
        if e.SetLength? {
          PutLookup(s.monitor.active, e.id, r.(length := Some(Max(0, e.length))), j);
        } else {
          PutLookup(s.monitor.active, e.id, r.(bytes := r.bytes + Max(0, e.count)), j);
        }
      }
    }
  }

  lemma FinishCloses(c: Config, s: Server, e: Event)
    requires Inv(c, s) && s.phase == Running && e.Finish? && Lookup(s.monitor.active, e.id).Some?
    ensures var r := Lookup(s.monitor.active, e.id).value;
            var v := Judge(r.verb, r.path, r.bytes, r.length, e.status, e.interrupted);
            Closes(s.log + [e], e.id, Served(v.ok, v.boot, r.bytes))
  {
    LedgerIsBook(c.bounds, s.start, s.log);
    assert Open(BookOf(s.log), e.id);
    BookSnoc(s.log, e);
  }

  lemma FinishKeeps(c: Config, s: Server, a: Action)
    requires Inv(c, s) && a.CallFinish? && Enabled(s, a) && Lookup(s.monitor.active, s.workers[a.w].id).Some?
    ensures Inv(c, Do(c, s, a))
  {
    var id := s.workers[a.w].id;
    var r := Lookup(s.monitor.active, id).value;
    var v := Judge(r.verb, r.path, r.bytes, r.length, a.status, a.interrupted);
    var e, worker := Event.Finish(id, a.status, a.interrupted, a.now, a.mono),
        Finishing(id, Served(v.ok, v.boot, r.bytes));
    var t := Mutate(s, e);
    MutateKeeps(c, s, e);
    FinishCloses(c, s, e);
    LockUndisturbed(c, t, a.w, worker);
    FinishedUnattended(c, s, e);
    StillAttended(s.monitor.active, s.workers, a.w, worker, t.monitor.active);
    MapUpdated(s.workers, a.w, worker);
  }

  lemma FinishedUnattended(c: Config, s: Server, e: Event)
    requires Inv(c, s) && s.phase == Running && e.Finish?
    ensures forall j: nat {:trigger Lookup(Apply(s.monitor, e).active, j)} ::
              Lookup(Apply(s.monitor, e).active, j).Some? ==> Lookup(s.monitor.active, j).Some? && j != e.id
  {
    LedgerIsBook(c.bounds, s.start, s.log);
    forall j: nat ensures Lookup(Apply(s.monitor, e).active, j).Some? ==>
        Lookup(s.monitor.active, j).Some? && j != e.id {
      DelLookup(s.monitor.active, e.id, j);
    }
  }

  lemma FinishUnknownKeeps(c: Config, s: Server, a: Action)
    requires Inv(c, s) && a.CallFinish? && Enabled(s, a) && Lookup(s.monitor.active, s.workers[a.w].id).None?
    ensures Inv(c, Do(c, s, a))
  {
    LockUndisturbed(c, s, a.w, Idle);
    StillAttended(s.monitor.active, s.workers, a.w, Idle, s.monitor.active);
    MapUpdated(s.workers, a.w, Idle);
  }

  lemma AcceptedWorkers(c: Config, s: Server, w: nat)
    requires WorkersOk(c, s) && s.phase == Running && s.free > 0 && w !in s.workers
    ensures WorkersOk(c, s.(workers := s.workers[w := Starting], free := s.free - 1))
  {
    StillAttended(s.monitor.active, s.workers, w, Starting, s.monitor.active);
    MapUpdated(s.workers, w, Starting);
  }

  lemma AcceptKeeps(c: Config, s: Server, a: Action)
    requires Inv(c, s) && a.Accept? && Enabled(s, a)
    ensures Inv(c, Do(c, s, a))
  {
    var t := Do(c, s, a);
    AcceptedWorkers(c, s, a.w);
    LockUndisturbed(c, s, a.w, Starting);
    LockIgnoresSlots(c, s.(workers := t.workers), t.free);
  }

  lemma ThreadStartsKeeps(c: Config, s: Server, a: Action)
    requires Inv(c, s) && a.ThreadStarts? && Enabled(s, a)
    ensures Inv(c, Do(c, s, a))
  {
    LockUndisturbed(c, s, a.w, Idle);
    StillAttended(s.monitor.active, s.workers, a.w, Idle, s.monitor.active);
    MapUpdated(s.workers, a.w, Idle);
  }

  /** Whether the thread never started or its client went away, its slot comes back once. */
  lemma ReleaseKeeps(c: Config, s: Server, w: nat)
    requires Inv(c, s) && s.phase == Running && w in s.workers && (s.workers[w].Starting? || s.workers[w].Idle?)
    ensures Inv(c, s.(workers := s.workers - {w}, free := s.free + 1))
  {
    StillAttendedWithout(s.monitor.active, s.workers, w);
    LockUndisturbedWithout(c, s, w);
    MapRemoved(s.workers, w);
  }

  lemma SnapshotKeeps(c: Config, s: Server, who: Who, savedAt: real)
    requires ValidConfig(c) && Inv(c, s) && CommitEnabled(s, who, Snapshot(savedAt))
    ensures Inv(c, DoCommit(c, s, who, Snapshot(savedAt)))
  {
    ActiveBounded(c, s);
  }

  lemma DiskGains(c: Config, durable: Option<Saved>, pending: seq<Saved>, x: Saved)
    requires DiskOk(c, durable, pending) && Genuine(c, x) && DiskWithin(durable, pending, x.start, x.log)
    ensures DiskOk(c, durable, pending + [x])
  {
  }

  lemma ReplaceKeeps(c: Config, s: Server, who: Who)
    requires Inv(c, s) && CommitEnabled(s, who, Replace)
    ensures Inv(c, DoCommit(c, s, who, Replace))
  {
    var x, u := s.lock.stage.next, DoCommit(c, s, who, Replace);
    DiskGains(c, s.durable, s.pending, x);
    assert Visible(u) == Some(x);
  }

  lemma FlushKeeps(c: Config, s: Server, who: Who, ok: bool)
    requires ValidConfig(c) && Inv(c, s) && CommitEnabled(s, who, Flush(ok))
    ensures Inv(c, DoCommit(c, s, who, Flush(ok)))
  {
    if ok { PromisesAdvance(s.durable, s.begun, s.ended, Visible(s).value); }
  }

  lemma ReturnKeeps(c: Config, s: Server, who: Who)
    requires ValidConfig(c) && Inv(c, s) && CommitEnabled(s, who, Return)
    ensures Inv(c, DoCommit(c, s, who, Return))
  {
    var u := DoCommit(c, s, who, Return);
    if who.Handler? {
      StillAttended(s.monitor.active, s.workers, who.w, u.workers[who.w], s.monitor.active);
      MapUpdated(s.workers, who.w, u.workers[who.w]);
    }
  }

  /** A document the server wrote can always be loaded again. */
  lemma GenuineBoots(c: Config, x: Saved, now: real)
    requires ValidConfig(c) && Genuine(c, x)
    ensures SavedState.Boot(c.bounds, x.doc, now) == Some(Replay(c.bounds, x.start, x.log + [Restart(now)]))
  {
    ReplayIsSound(c.bounds, x.start, x.log);
    Recency.ClientsByRecency(c.bounds, x.start, x.log);
    BootIsRestart(Replay(c.bounds, x.start, x.log), x.doc.savedAt, now);
    ReplaySnoc(c.bounds, x.start, x.log, Restart(now));
  }

  /** Booting over the visible document replays its history and one restart. */
  lemma BootsVisible(c: Config, s: Server, now: real)
    requires ValidConfig(c) && DiskOk(c, s.durable, s.pending) && Visible(s).Some?
    ensures var x := Visible(s).value;
            DoBoot(c, s, now) == s.(phase := Booting, monitor := Replay(c.bounds, x.start, x.log + [Restart(now)]),
                                    start := x.start, log := x.log + [Restart(now)])
    ensures DoBoot(c, s, now).monitor.active == []
  {
    var x := Visible(s).value;
    GenuineBoots(c, x, now);
    ReplaySnoc(c.bounds, x.start, x.log, Restart(now));
    var m := Replay(c.bounds, x.start, x.log);
    RecoverAllTotals(m.(serverStarts := m.serverStarts + 1), m.active, now);
  }

  lemma VisibleIsLatest(c: Config, s: Server)
    requires DiskOk(c, s.durable, s.pending) && Visible(s).Some?
    ensures DiskWithin(s.durable, s.pending, Visible(s).value.start, Visible(s).value.log)
  {
  }

  lemma BootKeeps(c: Config, s: Server, now: real)
    requires ValidConfig(c) && Inv(c, s) && s.phase == Off
    ensures Inv(c, DoBoot(c, s, now))
  {
    if Visible(s).Some? {
      BootsVisible(c, s, now);
      VisibleIsLatest(c, s);
    }
  }

  lemma PowerLossKeeps(c: Config, s: Server, survives: nat)
    requires Inv(c, s) && survives <= |s.pending|
    ensures Inv(c, Do(c, s, PowerLoss(survives)))
  {
    if survives > 0 { PromisesAdvance(s.durable, s.begun, s.ended, s.pending[survives - 1]); }
  }

  lemma AdvanceKeeps(c: Config, s: Server, who: Who, commit: Commit)
    requires ValidConfig(c) && Inv(c, s) && CommitEnabled(s, who, commit)
    ensures Inv(c, DoCommit(c, s, who, commit))
  {
    match commit
    case Acquire =>
    case Snapshot(savedAt) => SnapshotKeeps(c, s, who, savedAt);
    case Replace => ReplaceKeeps(c, s, who);
    case FailWrite =>
    case Flush(ok) => FlushKeeps(c, s, who, ok);
    case Return => ReturnKeeps(c, s, who);
  }

  lemma CallKeeps(c: Config, s: Server, a: Action)
    requires Inv(c, s) && Enabled(s, a)
    requires a.CallBegin? || a.CallSetLength? || a.CallAddBytes? || a.CallFinish?
    ensures Inv(c, Do(c, s, a))
  {
    if a.CallBegin? {
      BeginKeeps(c, s, a);
    } else if a.CallSetLength? {
      UpdateKeeps(c, s, Event.SetLength(s.workers[a.w].id, a.length));
    } else if a.CallAddBytes? {
      UpdateKeeps(c, s, Event.AddBytes(s.workers[a.w].id, a.count));
    } else if Lookup(s.monitor.active, s.workers[a.w].id).Some? {
      FinishKeeps(c, s, a);
    } else {
      FinishUnknownKeeps(c, s, a);
    }
  }

  lemma SlotKeeps(c: Config, s: Server, a: Action)
    requires Inv(c, s) && Enabled(s, a)
    requires a.Accept? || a.Reject? || a.ThreadStarts? || a.ThreadFails? || a.Disconnect?
    ensures Inv(c, Do(c, s, a))
  {
    if a.Accept? {
      AcceptKeeps(c, s, a);
    } else if a.ThreadStarts? {
      ThreadStartsKeeps(c, s, a);
    } else if !a.Reject? {
      ReleaseKeeps(c, s, a.w);
      assert Do(c, s, a) == s.(workers := s.workers - {a.w}, free := s.free + 1);
    }
  }

  lemma StepKeeps(c: Config, s: Server, a: Action)
    requires ValidConfig(c) && Inv(c, s) && Enabled(s, a)
    ensures Inv(c, Do(c, s, a))
  {
    if a.Boot? {
      BootKeeps(c, s, a.now);
    } else if a.Advance? {
      AdvanceKeeps(c, s, a.who, a.commit);
    } else if a.PowerLoss? {
      PowerLossKeeps(c, s, a.survives);
    } else if a.CallBegin? || a.CallSetLength? || a.CallAddBytes? || a.CallFinish? {
      CallKeeps(c, s, a);
    } else if !a.Kill? {
      SlotKeeps(c, s, a);
    }
  }

  lemma {:induction false} RunKeeps(c: Config, s: Server, actions: seq<Action>)
    requires ValidConfig(c) && Inv(c, s) && Runs(c, s, actions)
    ensures Inv(c, After(c, s, actions))
    decreases |actions|
  {
    if actions != [] {
      StepKeeps(c, s, actions[0]);
      RunKeeps(c, Do(c, s, actions[0]), actions[1..]);
    }
  }

  lemma InitOk(c: Config, s: Server)
    requires Init(c, s)
    ensures Inv(c, s)
  {
  }

  // --------------------------------------------------------------- the theorems --

  /**
   Every document a reader can find, and every one a power loss can leave behind, is
   what the monitor held at some point of one single history, in the order written.
   */
  lemma DocumentsAreSnapshots(c: Config, s: Server, actions: seq<Action>)
    requires ValidConfig(c) && Init(c, s) && Runs(c, s, actions)
    ensures var t := After(c, s, actions);
            DiskOk(c, t.durable, t.pending)
            && (t.phase != Off ==>
                  DiskWithin(t.durable, t.pending, t.start, t.log) && t.monitor == Replay(c.bounds, t.start, t.log))
  {
    InitOk(c, s);
    RunKeeps(c, s, actions);
  }

  ghost predicate Forward(x: Option<Saved>, y: Option<Saved>) {
    x.Some? ==> y.Some? && NoLaterThan(x.value, y.value.start, y.value.log)
  }

  /** Handlers reach the disk and make promises only through a commit. */
  lemma CallsLeaveDisk(c: Config, s: Server, a: Action)
    requires Enabled(s, a) && !a.Boot? && !a.Advance? && !a.PowerLoss?
    ensures var t := Do(c, s, a);
            t.durable == s.durable && t.pending == s.pending && t.begun == s.begun && t.ended == s.ended
  {
  }

  lemma OtherCommitsLeaveDisk(c: Config, s: Server, who: Who, commit: Commit)
    requires CommitEnabled(s, who, commit) && !commit.Replace? && !commit.Flush?
    ensures var t := DoCommit(c, s, who, commit); t.durable == s.durable && t.pending == s.pending
  {
  }

  lemma ReplaceForward(c: Config, s: Server, who: Who)
    requires Inv(c, s) && CommitEnabled(s, who, Replace)
    ensures Forward(Visible(s), Visible(DoCommit(c, s, who, Replace)))
  {
    assert DoCommit(c, s, who, Replace).durable == s.durable;
  }

  lemma FlushForward(c: Config, s: Server, who: Who, ok: bool)
    requires Inv(c, s) && CommitEnabled(s, who, Flush(ok))
    ensures Visible(DoCommit(c, s, who, Flush(ok))) == Visible(s)
    ensures Forward(s.durable, DoCommit(c, s, who, Flush(ok)).durable)
  {
  }

  lemma CommitForward(c: Config, s: Server, who: Who, commit: Commit)
    requires Inv(c, s) && CommitEnabled(s, who, commit)
    ensures Forward(s.durable, DoCommit(c, s, who, commit).durable)
    ensures Forward(Visible(s), Visible(DoCommit(c, s, who, commit)))
  {
    if commit.Replace? {
      ReplaceForward(c, s, who);
    } else if commit.Flush? {
      FlushForward(c, s, who, commit.ok);
    } else {
      OtherCommitsLeaveDisk(c, s, who, commit);
    }
  }

  lemma BootForward(c: Config, s: Server, now: real)
    requires ValidConfig(c) && Inv(c, s) && s.phase == Off
    ensures var t := DoBoot(c, s, now); t.durable == s.durable && t.pending == s.pending
  {
    if Visible(s).Some? { BootsVisible(c, s, now); }
  }

  lemma StepForward(c: Config, s: Server, a: Action)
    requires ValidConfig(c) && Inv(c, s) && Enabled(s, a)
    ensures Forward(s.durable, Do(c, s, a).durable)
    ensures !a.PowerLoss? ==> Forward(Visible(s), Visible(Do(c, s, a)))
  {
    if a.Boot? {
      BootForward(c, s, a.now);
    } else if a.Advance? {
      CommitForward(c, s, a.who, a.commit);
    } else if !a.PowerLoss? {
      CallsLeaveDisk(c, s, a);
    }
  }

  /** The state file never goes back in time; only a power loss can undo what was not flushed. */
  lemma {:induction false} DiskNeverGoesBack(c: Config, s: Server, actions: seq<Action>)
    requires ValidConfig(c) && Inv(c, s) && Runs(c, s, actions)
    ensures Forward(s.durable, After(c, s, actions).durable)
    ensures (forall i :: 0 <= i < |actions| ==> !actions[i].PowerLoss?) ==>
            Forward(Visible(s), Visible(After(c, s, actions)))
    decreases |actions|
  {
    if actions != [] {
      StepForward(c, s, actions[0]);
      StepKeeps(c, s, actions[0]);
      DiskNeverGoesBack(c, Do(c, s, actions[0]), actions[1..]);
      if forall i :: 0 <= i < |actions| ==> !actions[i].PowerLoss? {
        assert forall i :: 0 <= i < |actions[1..]| ==> actions[1..][i] == actions[i + 1];
      }
    }
  }

  ghost predicate StillPromised(s: Server, t: Server) {
    s.begun <= t.begun && forall id :: id in s.ended ==> id in t.ended && t.ended[id] == s.ended[id]
  }

  /** A fate recorded twice is the same fate: both are the durable document's. */
  lemma ReturnPromises(c: Config, s: Server, who: Who)
    requires Inv(c, s) && CommitEnabled(s, who, Return)
    ensures StillPromised(s, DoCommit(c, s, who, Return))
  {
    if who.Handler? && s.workers[who.w].Finishing? && s.lock.stage.ok && s.workers[who.w].id in s.ended {
      assert Closes(s.durable.value.log, s.workers[who.w].id, s.workers[who.w].fate);
    }
  }

  lemma CommitPromises(c: Config, s: Server, who: Who, commit: Commit)
    requires Inv(c, s) && CommitEnabled(s, who, commit)
    ensures StillPromised(s, DoCommit(c, s, who, commit))
  {
    if commit.Return? { ReturnPromises(c, s, who); }
  }

  lemma StepPromises(c: Config, s: Server, a: Action)
    requires ValidConfig(c) && Inv(c, s) && Enabled(s, a)
    ensures StillPromised(s, Do(c, s, a))
  {
    if a.Boot? {
      if Visible(s).Some? { BootsVisible(c, s, a.now); }
    } else if a.Advance? {
      CommitPromises(c, s, a.who, a.commit);
    } else if !a.PowerLoss? {
      CallsLeaveDisk(c, s, a);
    }
  }

  lemma {:induction false} PromisesGrow(c: Config, s: Server, actions: seq<Action>)
    requires ValidConfig(c) && Inv(c, s) && Runs(c, s, actions)
    ensures StillPromised(s, After(c, s, actions)) && Inv(c, After(c, s, actions))
    decreases |actions|
  {
    if actions != [] {
      StepPromises(c, s, actions[0]);
      StepKeeps(c, s, actions[0]);
      PromisesGrow(c, Do(c, s, actions[0]), actions[1..]);
    }
  }

  /** The book of this history has a line for every request begun, closed as recorded for every one ended. */
  ghost predicate Remembers(log: seq<Event>, begun: set<nat>, ended: map<nat, Fate>) {
    && (forall id :: id in begun ==> 1 <= id <= |BookOf(log)|)
    && (forall id :: id in ended ==> Closes(log, id, ended[id]))
  }

  lemma RemembersGrow(log: seq<Event>, more: seq<Event>, begun: set<nat>, ended: map<nat, Fate>)
    requires log <= more && Remembers(log, begun, ended)
    ensures Remembers(more, begun, ended)
  {
    BookGrows(log, more);
  }

  /**
   A successful commit is never taken back: whatever calls, kills and power losses follow,
   the flushed document, the visible one and the live monitor's history keep the request's
   line, and its outcome if that was committed.
   */
  lemma PromisesLast(c: Config, s: Server, before: seq<Action>, after: seq<Action>)
    requires ValidConfig(c) && Init(c, s) && Runs(c, s, before) && Runs(c, After(c, s, before), after)
    ensures var past := After(c, s, before);
            var now := After(c, past, after);
            past.begun != {} || past.ended != map[] ==>
              && now.durable.Some? && Remembers(now.durable.value.log, past.begun, past.ended)
              && Remembers(Visible(now).value.log, past.begun, past.ended)
              && (now.phase != Off ==> Remembers(now.log, past.begun, past.ended))
  {
    InitOk(c, s);
    RunKeeps(c, s, before);
    var past := After(c, s, before);
    PromisesGrow(c, past, after);
    var now := After(c, past, after);
    if past.begun != {} || past.ended != map[] {
      assert now.begun != {} || now.ended != map[];
      var log := now.durable.value.log;
      assert Remembers(log, past.begun, past.ended);
      RemembersGrow(log, Visible(now).value.log, past.begun, past.ended);
      if now.phase != Off { RemembersGrow(log, now.log, past.begun, past.ended); }
    }
  }

  /**
   Exactly-once accounting: in every reachable state of a live server the totals are
   the sums over one line per request, every request whose begin was committed has its
   line, and every request whose finish was committed has exactly that outcome.
   */
  lemma ExactlyOnce(c: Config, s: Server, actions: seq<Action>)
    requires ValidConfig(c) && Init(c, s) && Runs(c, s, actions)
    ensures var t := After(c, s, actions);
            t.phase != Off ==>
              && Mirrors(t.monitor, BookOf(t.log)) && Totalled(t.monitor, BookOf(t.log))
              && (forall id :: id in t.begun ==> 1 <= id <= |BookOf(t.log)|)
              && (forall id :: id in t.ended ==> Closes(t.log, id, t.ended[id]))
  {
    InitOk(c, s);
    RunKeeps(c, s, actions);
    var t := After(c, s, actions);
    if t.phase != Off {
      LedgerIsBook(c.bounds, t.start, t.log);
      if t.durable.Some? { BookGrows(t.durable.value.log, t.log); }
    }
  }

  lemma RestartBook(c: Config, x: Saved, now: real)
    ensures BookOf(x.log + [Restart(now)]) == Settle(BookOf(x.log))
    ensures Totalled(Replay(c.bounds, x.start, x.log + [Restart(now)]), Settle(BookOf(x.log)))
  {
    BookSnoc(x.log, Restart(now));
    LedgerIsBook(c.bounds, x.start, x.log + [Restart(now)]);
  }

  lemma SettlesFrom(c: Config, s: Server, now: real)
    requires ValidConfig(c) && Inv(c, s) && s.phase == Off && Visible(s).Some?
    ensures var t, saved := DoBoot(c, s, now), BookOf(Visible(s).value.log);
            BookOf(t.log) == Settle(saved) && Totalled(t.monitor, Settle(saved)) && t.monitor.active == []
  {
    BootsVisible(c, s, now);
    RestartBook(c, Visible(s).value, now);
  }

  /**
   What a restart after any run does to each request the state file knows: a recorded
   outcome stays, a transfer still open becomes a recovered failure with the bytes last
   saved for it, and the totals count exactly these outcomes.
   */
  lemma RestartSettles(c: Config, s: Server, actions: seq<Action>, now: real)
    requires ValidConfig(c) && Init(c, s) && Runs(c, s, actions)
    requires After(c, s, actions).phase == Off && Visible(After(c, s, actions)).Some?
    ensures var down := After(c, s, actions);
            var t, saved := DoBoot(c, down, now), BookOf(Visible(down).value.log);
            BookOf(t.log) == Settle(saved) && Totalled(t.monitor, Settle(saved)) && t.monitor.active == []
  {
    InitOk(c, s);
    RunKeeps(c, s, actions);
    SettlesFrom(c, After(c, s, actions), now);
  }

  /** The loader accepts every document the server can have written. */
  lemma BootNeverRefused(c: Config, s: Server, actions: seq<Action>, now: real)
    requires ValidConfig(c) && Init(c, s) && Runs(c, s, actions) && Visible(After(c, s, actions)).Some?
    ensures SavedState.Boot(c.bounds, Visible(After(c, s, actions)).value.doc, now).Some?
  {
    InitOk(c, s);
    RunKeeps(c, s, actions);
    GenuineBoots(c, Visible(After(c, s, actions)).value, now);
  }

  /** Slots: free ones plus connections not yet released are always all of them. */
  lemma SlotsConserved(c: Config, s: Server, actions: seq<Action>)
    requires ValidConfig(c) && Init(c, s) && Runs(c, s, actions)
    ensures var t := After(c, s, actions);
            t.phase == Running ==> t.free + |t.workers| == c.maxWorkers && |t.monitor.active| <= |t.workers|
  {
    InitOk(c, s);
    RunKeeps(c, s, actions);
    var t := After(c, s, actions);
    if t.phase == Running {
      LedgerIsBook(c.bounds, t.start, t.log);
      forall i | 0 <= i < |t.monitor.active| ensures Attended(t.workers, t.monitor.active[i].0) {
        LookupAt(t.monitor.active, i);
      }
      ActiveFits(t.monitor.active, t.workers);
    }
  }

  // ------------------------------------------------------- commits that succeed --

  /** The five steps of a commit in which nothing fails. */
  function Committed(who: Who, savedAt: real): seq<Action> {
    [Advance(who, Acquire), Advance(who, Snapshot(savedAt)), Advance(who, Replace), Advance(who, Flush(true)),
     Advance(who, Return)]
  }

  lemma CommitRuns(c: Config, s: Server, who: Who, savedAt: real)
    requires Committing(s, who) && s.lock == Unlocked
    ensures Runs(c, s, Committed(who, savedAt))
    ensures After(c, s, Committed(who, savedAt)) ==
            DoReturn(c, s.(lock := Held(who, Reported(true)), pending := [],
                           durable := Some(Saved(StateDocument(s.monitor, savedAt), s.start, s.log))), who, true)
  {
    var next := Saved(StateDocument(s.monitor, savedAt), s.start, s.log);
    var a := Committed(who, savedAt);
    var s1 := Do(c, s, a[0]);
    var s2 := Do(c, s1, a[1]);
    assert s2 == s.(lock := Held(who, Snapped(next)));
    var s3 := Do(c, s2, a[2]);
    assert s3 == s.(lock := Held(who, Replaced), pending := s.pending + [next]);
    var s4 := Do(c, s3, a[3]);
    assert s4 == s.(lock := Held(who, Reported(true)), pending := [], durable := Some(next));
    RunsFive(c, s, a, s1, s2, s3, s4);
  }

  lemma RunsFive(c: Config, s: Server, a: seq<Action>, s1: Server, s2: Server, s3: Server, s4: Server)
    requires |a| == 5 && Enabled(s, a[0]) && s1 == Do(c, s, a[0]) && Enabled(s1, a[1]) && s2 == Do(c, s1, a[1])
    requires Enabled(s2, a[2]) && s3 == Do(c, s2, a[2]) && Enabled(s3, a[3]) && s4 == Do(c, s3, a[3])
    requires Enabled(s4, a[4])
    ensures Runs(c, s, a) && After(c, s, a) == Do(c, s4, a[4])
  {
    RunsTwo(c, s3, a[3..], s4);
    RunsOne(c, s2, a[2..], s3);
    RunsOne(c, s1, a[1..], s2);
    RunsOne(c, s, a, s1);
  }

  lemma RunsOne(c: Config, s: Server, a: seq<Action>, s1: Server)
    requires a != [] && Enabled(s, a[0]) && s1 == Do(c, s, a[0]) && Runs(c, s1, a[1..])
    ensures Runs(c, s, a) && After(c, s, a) == After(c, s1, a[1..])
  {
  }

  lemma RunsTwo(c: Config, s: Server, a: seq<Action>, s1: Server)
    requires |a| == 2 && Enabled(s, a[0]) && s1 == Do(c, s, a[0]) && Enabled(s1, a[1])
    ensures Runs(c, s, a) && After(c, s, a) == Do(c, s1, a[1])
  {
    assert a[1..][1..] == [];
    RunsOne(c, s1, a[1..], Do(c, s1, a[1]));
    RunsOne(c, s, a, s1);
  }

  /**
   A handler whose commit meets no failure always has it recorded: the document of the live
   monitor is on the durable disk, nothing is left unflushed, and the request is promised, as
   begun or as ended with its outcome.
   */
  lemma CommitSucceeds(c: Config, s: Server, w: nat, savedAt: real)
    requires Committing(s, Handler(w)) && s.lock == Unlocked
    ensures Runs(c, s, Committed(Handler(w), savedAt))
    ensures var t, me := After(c, s, Committed(Handler(w), savedAt)), s.workers[w];
            && t.durable == Some(Saved(StateDocument(s.monitor, savedAt), s.start, s.log)) && t.pending == []
            && t.lock == Unlocked && t.monitor == s.monitor && t.log == s.log
            && (me.Beginning? ==> me.id in t.begun && t.workers == s.workers[w := Serving(me.id)])
            && (me.Finishing? ==>
                  me.id in t.ended && t.ended[me.id] == me.fate && t.workers == s.workers[w := Idle])
  {
    CommitRuns(c, s, Handler(w), savedAt);
  }

  /** Without the flush a replacement can be lost: after a power loss an older document may be visible again. */
  lemma UnflushedCanBeLost(c: Config, s: Server)
    ensures Enabled(s, PowerLoss(0)) && Visible(Do(c, s, PowerLoss(0))) == s.durable
    ensures forall survives: nat :: 0 < survives <= |s.pending| ==>
              Visible(Do(c, s, PowerLoss(survives))) == Some(s.pending[survives - 1])
  {
  }

  function Rejections(actions: seq<Action>): nat {
    if actions == [] then 0 else (if actions[0].Reject? then 1 else 0) + Rejections(actions[1..])
  }

  /** Every connection turned away is counted, and only those. */
  lemma {:induction false} RejectionsCounted(c: Config, s: Server, actions: seq<Action>)
    requires Runs(c, s, actions)
    ensures After(c, s, actions).rejected == s.rejected + Rejections(actions)
    decreases |actions|
  {
    if actions != [] {
      RejectionsCounted(c, Do(c, s, actions[0]), actions[1..]);
    }
  }

  /** A connection is accepted exactly while a slot is free, and turned away exactly when all are held. */
  lemma AcceptedIff(c: Config, s: Server, actions: seq<Action>, w: nat)
    requires ValidConfig(c) && Init(c, s) && Runs(c, s, actions)
    ensures var t := After(c, s, actions);
            t.phase == Running ==>
              && (Enabled(t, Reject) <==> |t.workers| == c.maxWorkers)
              && (w !in t.workers ==> (Enabled(t, Accept(w)) <==> |t.workers| < c.maxWorkers))
  {
    SlotsConserved(c, s, actions);
  }

  /** Every call a handler makes reaches the monitor and the history as one event, for its own request. */
  lemma CallsReachTheLog(c: Config, s: Server, a: Action)
    requires Enabled(s, a)
    ensures a.CallBegin? ==>
              && Do(c, s, a).log == s.log + [Begin(a.verb, a.path, a.ip, a.mac, a.now, a.mono)]
              && Do(c, s, a).workers == s.workers[a.w := Beginning(s.monitor.nextId)]
    ensures a.CallSetLength? ==> Do(c, s, a).log == s.log + [SetLength(s.workers[a.w].id, a.length)]
    ensures a.CallAddBytes? ==> Do(c, s, a).log == s.log + [AddBytes(s.workers[a.w].id, a.count)]
    ensures a.CallFinish? && Lookup(s.monitor.active, s.workers[a.w].id).Some? ==>
              Do(c, s, a).log == s.log + [Finish(s.workers[a.w].id, a.status, a.interrupted, a.now, a.mono)]
    ensures !a.CallBegin? && !a.CallSetLength? && !a.CallAddBytes? && !a.CallFinish? && !a.Boot? ==>
              Do(c, s, a).log == s.log && Do(c, s, a).monitor == s.monitor
  {
  }
}
