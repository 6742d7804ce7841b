/**
 What overlapping sessions cost: the promises of cancel and reconnect hold in exactly
 the runs in which no prompt is accepted while a session is active.
 */
module SessionOverlap {
  import opened Prelude
  import opened Session
  import opened SessionProofs

  // ----------------------------------------------------------- continuations --

  /** Some run without overlaps leads from one state to another. */
  ghost predicate Leads(from: Manager, to: Manager) {
    exists actions :: Runs(from, actions) && Guarded(from, actions) && After(from, actions) == to
  }

  lemma LeadsNowhere(m: Manager)
    ensures Leads(m, m)
  {
    assert Runs(m, []) && Guarded(m, []) && After(m, []) == m;
  }

  lemma {:induction false} AfterExtends(m: Manager, actions: seq<Action>, a: Action)
    requires Runs(m, actions) && Guarded(m, actions)
    requires Enabled(After(m, actions), a) && !Overlaps(After(m, actions), a)
    ensures Runs(m, actions + [a]) && Guarded(m, actions + [a])
    ensures After(m, actions + [a]) == Do(After(m, actions), a)
    decreases |actions|
  {
    if actions == [] {
      assert (actions + [a])[1..] == [];
    } else {
      assert (actions + [a])[1..] == actions[1..] + [a];
      AfterExtends(Do(m, actions[0]), actions[1..], a);
    }
  }

  lemma Next(from: Manager, m: Manager, a: Action) returns (n: Manager)
    requires Leads(from, m) && Enabled(m, a) && !Overlaps(m, a)
    ensures n == Do(m, a) && Leads(from, n)
  {
    var actions :| Runs(from, actions) && Guarded(from, actions) && After(from, actions) == m;
    AfterExtends(from, actions, a);
    n := Do(m, a);
  }

  /** From no state of the run does a continuation without overlaps lead to a bad one. */
  ghost predicate Avoids(m: Manager, actions: seq<Action>, bad: Manager -> bool)
    requires Runs(m, actions)
    decreases |actions|
  {
    && (forall n :: Leads(m, n) ==> !bad(n))
    && (actions == [] || Avoids(Do(m, actions[0]), actions[1..], bad))
  }

  // ------------------------------------------------- two sessions at the same time --

  /** A newer attempt has started beside an older one whose callback has not run. */
  ghost predicate Overlapped(t: Threads, older: nat) {
    var newer := older + 1;
    && t.cancel.NoCancel? && !t.cancelled && t.attempts == newer + 1
    && CallsOk(t) && ProcsOk(t) && older !in t.calls[..t.ran]
    && newer in t.workers && t.workers[newer] == Preflight
    && (t.proc.Some? ==> Published(t.workers[older]))
    && (forall i: nat :: i < older ==> i in t.calls[..t.ran])
  }

  /** ... and what the UI shows of the newer one. */
  predicate JustStarted(u: Ui, newer: nat) {
    newer in u.pressable && u.progress == Some(newer) && !u.cancelReconnect && u.startedAt <= u.asked
  }

  lemma OverlapBegins(m: Manager)
    requires CancelOk(m.t) && Enabled(m, ClosePrompt(true)) && Overlaps(m, ClosePrompt(true))
    ensures Overlapped(Do(m, ClosePrompt(true)).t, m.t.attempts - 1)
    ensures JustStarted(Do(m, ClosePrompt(true)).u, m.t.attempts)
  {
    CallsStep(m, ClosePrompt(true));
  }

  /** How far a worker is from its end, when it fails where it can. */
  function Rank(w: Worker): nat {
    match w
    case Publishing => 5
    case Rereading => 4
    case Preflight => 4
    case FirstCheck(_) => 3
    case SecondCheck => 3
    case Rechecked(_) => 3
    case Building => 2
    case Launching => 2
    case Waiting => 2
    case Ending => 1
    case Ended => 0
  }

  lemma RankFalls(w: Worker, cancelled: bool)
    requires !w.Ended?
    ensures Rank(NextWorker(w, cancelled, false)) < Rank(w)
  {
  }

  lemma OlderWorks(t: Threads, older: nat)
    requires Overlapped(t, older) && CanWork(t, older)
    ensures Overlapped(WorkThread(t, older, false), older) && WorkThread(t, older, false).ran == t.ran
    ensures older in WorkThread(t, older, false).workers
    ensures WorkThread(t, older, false).workers[older] == NextWorker(t.workers[older], false, false)
  {
    CallsWork(t, older, false);
    ProcsWork(t, older, false);
  }

  lemma OlderExits(t: Threads, older: nat)
    requires Overlapped(t, older) && older in t.procs
    ensures Overlapped(t.(procs := t.procs[older := t.procs[older].(alive := false)]), older)
  {
  }

  /** The older attempt's worker can always be brought to its end, its client exiting when waited for. */
  lemma Drain(from: Manager, m: Manager, older: nat) returns (n: Manager)
    requires Leads(from, m) && Overlapped(m.t, older)
    ensures Leads(from, n) && Overlapped(n.t, older) && n.u == m.u
    ensures older in n.t.workers && n.t.workers[older].Ended?
    decreases if older in m.t.workers then Rank(m.t.workers[older]) else 0
  {
    n := m;
    assert older in m.t.workers;
    if !m.t.workers[older].Ended? {
      if m.t.workers[older].Waiting? && m.t.procs[older].alive {
        OlderExits(m.t, older);
        n := Next(from, m, ProcessExits(older));
      }
      OlderWorks(n.t, older);
      RankFalls(n.t.workers[older], false);
      n := Next(from, n, Work(older, false));
      n := Drain(from, n, older);
    }
  }

  /** Then the older callback is the only one queued. */
  lemma OlderIsQueued(t: Threads, older: nat)
    requires Overlapped(t, older) && t.workers[older].Ended?
    ensures t.calls == t.calls[..t.ran] + [older]
  {
    assert older in t.calls && older + 1 !in t.calls;
    assert t.ran + 1 < |t.calls| ==> t.calls[t.ran] != t.calls[t.ran + 1];
    forall k | t.ran <= k < |t.calls| ensures t.calls[k] == older {
      var c := t.calls[k];
      assert c in t.calls;
      forall j | 0 <= j < t.ran ensures t.calls[..t.ran][j] != c { assert t.calls[j] != t.calls[k]; }
      assert c !in t.calls[..t.ran] && c < t.attempts && c != older + 1;
    }
    assert t.calls[..|t.calls|] == t.calls;
  }

  /** The older attempt's notices are dispatched, the last one with an error to show. */
  lemma OlderEnds(from: Manager, m: Manager, older: nat) returns (n: Manager)
    requires Leads(from, m) && m.t.cancel.NoCancel? && m.t.ran < |m.t.calls| && m.t.calls[m.t.ran] == older
    ensures Leads(from, n)
    ensures n.t == m.t.(opening := m.t.opening - {older}, active := false, cancelled := false, proc := None,
                        ran := m.t.ran + 1)
    ensures n.u.startedAt == m.u.startedAt && n.u.asked == m.u.asked && n.u.cancelReconnect == m.u.cancelReconnect
    ensures !n.u.reloadPending
  {
    n := m;
    if older in m.t.opening { n := Next(from, m, Opened(older)); }
    n := Next(from, n, Done(Failure));
  }

  /** One step of a worker, when all goes well. */
  lemma Moves(from: Manager, m: Manager, i: nat) returns (n: Manager)
    requires Leads(from, m) && i in m.t.workers && !m.t.cancelled
    requires var w := m.t.workers[i]; !w.Waiting? && !w.Ending? && !w.Ended? && w != Rechecked(true)
    requires m.t.workers[i].Rechecked? ==> i in m.t.procs
    ensures Leads(from, n) && n.u == m.u
    ensures var w := m.t.workers[i];
            n.t == m.t.(workers := m.t.workers[i := NextWorker(w, false, true)],
                        procs := if w.Launching? then m.t.procs[i := Process(true, false)] else m.t.procs,
                        proc := if w.Publishing? then Some(i) else m.t.proc,
                        opening := if w.Rechecked? then m.t.opening + {i} else m.t.opening)
  {
    n := Next(from, m, Work(i, true));
  }

  lemma Launches(from: Manager, m: Manager, i: nat) returns (n: Manager)
    requires Leads(from, m) && i in m.t.workers && m.t.workers[i].Preflight? && !m.t.cancelled
    ensures Leads(from, n) && n.u == m.u
    ensures n.t == m.t.(workers := m.t.workers[i := Publishing], procs := m.t.procs[i := Process(true, false)])
  {
    n := Moves(from, m, i);
    n := Moves(from, n, i);
    n := Moves(from, n, i);
    n := Moves(from, n, i);
    n := Moves(from, n, i);
    assert n.t.workers == m.t.workers[i := Publishing];
  }

  /** An undisturbed attempt connects, and its worker waits for the client. */
  lemma Connects(from: Manager, m: Manager, i: nat) returns (n: Manager)
    requires Leads(from, m) && i in m.t.workers && m.t.workers[i].Preflight? && !m.t.cancelled
    ensures Leads(from, n) && n.u == m.u
    ensures n.t == m.t.(workers := m.t.workers[i := Waiting], procs := m.t.procs[i := Process(true, false)],
                        proc := Some(i), opening := m.t.opening + {i})
  {
    n := Launches(from, m, i);
    n := Moves(from, n, i);
    n := Moves(from, n, i);
    n := Moves(from, n, i);
    assert n.t.workers == m.t.workers[i := Waiting];
  }

  // -------------------------------------------------------------------- cancel --

  /** The UI is through with cancelling, yet a cancelled attempt waits for a live client nobody told to terminate. */
  predicate Escaped(m: Manager) {
    && m.t.cancel.NoCancel?
    && exists i :: i in m.t.gaveUp && i in m.t.procs && m.t.procs[i] == Process(true, false)
                   && i in m.t.workers && m.t.workers[i].Waiting?
  }

  /** Cancel is pressed in the newer attempt's own dialog, before it has a client. */
  lemma CancelIsPressed(from: Manager, m: Manager, older: nat) returns (n: Manager)
    requires Leads(from, m) && Overlapped(m.t, older) && older in m.t.workers && m.t.workers[older].Ended?
    requires older + 1 in m.u.pressable
    ensures Leads(from, n)
    ensures n.t == m.t.(cancelled := true, gaveUp := m.t.gaveUp + {older + 1})
  {
    OlderIsQueued(m.t, older);
    assert older + 1 !in m.t.calls;
    assert older + 1 in Live(m.t);
    n := Next(from, m, CancelFlag(older + 1));
    n := Next(from, n, CancelRead);
  }

  /**
   After any overlap a client can escape its cancel, without a further overlap: the older
   attempt's callback resets the flag before the newer one's worker has looked at it.
   */
  lemma OverlapEscapesCancel(m: Manager) returns (n: Manager)
    requires CancelOk(m.t) && Enabled(m, ClosePrompt(true)) && Overlaps(m, ClosePrompt(true))
    ensures Leads(Do(m, ClosePrompt(true)), n) && Escaped(n)
  {
    var start, older := Do(m, ClosePrompt(true)), m.t.attempts - 1;
    OverlapBegins(m);
    LeadsNowhere(start);
    n := Drain(start, start, older);
    OlderIsQueued(n.t, older);
    n := CancelIsPressed(start, n, older);
    n := OlderEnds(start, n, older);
    n := Connects(start, n, older + 1);
    assert older + 1 in n.t.gaveUp;
  }

  lemma NoEscape(m: Manager)
    requires CancelOk(m.t)
    ensures !Escaped(m)
  {
    if i :| i in m.t.gaveUp && i in m.t.procs && m.t.procs[i] == Process(true, false)
            && i in m.t.workers && m.t.workers[i].Waiting? {
      CancelledClientIsTerminated(m.t, i);
    }
  }

  lemma {:induction false} CancelIffFrom(m: Manager, actions: seq<Action>)
    requires CancelOk(m.t) && Runs(m, actions)
    ensures Guarded(m, actions) <==> Avoids(m, actions, Escaped)
    decreases |actions|
  {
    forall n | Leads(m, n) ensures !Escaped(n) {
      var more :| Runs(m, more) && Guarded(m, more) && After(m, more) == n;
      CancelRun(m, more);
      NoEscape(n);
    }
    if actions != [] {
      if Overlaps(m, actions[0]) {
        var n := OverlapEscapesCancel(m);
      } else {
        CancelStep(m, actions[0]);
        CancelIffFrom(Do(m, actions[0]), actions[1..]);
      }
    }
  }

  /**
   The exact condition of the cancel promise: no client can escape its cancel along a run,
   or after it without further overlaps, exactly when the run accepts no prompt during a session.
   */
  lemma CancelIff(actions: seq<Action>)
    requires Runs(Init(), actions)
    ensures Guarded(Init(), actions) <==> Avoids(Init(), actions, Escaped)
  {
    CancelIffFrom(Init(), actions);
  }

  // ----------------------------------------------------------------- reconnect --

  /** An expired countdown is about to reconnect although a reload came in since its session began. */
  predicate Stale(m: Manager) {
    && !m.t.active && Enabled(m, CloseCountdown(false))
    && Top(m.u).value.reply == Some(Expired) && Top(m.u).value.since != m.u.asked
  }

  /** With the session flag cleared by the older callback, a reload is applied behind the newer session's back. */
  lemma ReloadSlipsIn(from: Manager, m: Manager, older: nat) returns (n: Manager)
    requires Leads(from, m) && Overlapped(m.t, older) && older in m.t.workers && m.t.workers[older].Ended?
    requires JustStarted(m.u, older + 1)
    ensures Leads(from, n) && Slipped(n, older + 1)
  {
    OlderIsQueued(m.t, older);
    n := Connects(from, m, older + 1);
    n := OlderEnds(from, n, older);
    n := Next(from, n, Opened(older + 1));
    n := Next(from, n, Reload);
  }

  /** The newer session runs, its client connected, while the flag says that none is active. */
  ghost predicate Slipped(m: Manager, newer: nat) {
    && m.t.cancel.NoCancel? && !m.t.active && !m.t.cancelled && m.t.ran == |m.t.calls|
    && newer in m.t.workers && m.t.workers[newer].Waiting? && newer !in m.t.opening
    && newer in m.t.procs && m.t.procs[newer].alive
    && !m.u.reloadPending && !m.u.cancelReconnect && !m.u.counting && m.u.startedAt < m.u.asked
  }

  /** The newer client exits and its callback is queued. */
  lemma NewerExits(from: Manager, m: Manager, newer: nat) returns (n: Manager)
    requires Leads(from, m) && Slipped(m, newer)
    ensures Leads(from, n) && n.u == m.u && n.t.cancel.NoCancel? && !n.t.active && !n.t.cancelled
    ensures n.t.ran == |m.t.calls| && n.t.calls == m.t.calls + [newer]
    ensures newer !in n.t.opening && newer in n.t.procs
  {
    n := Next(from, m, ProcessExits(newer));
    n := Next(from, n, Work(newer, true));
    n := Next(from, n, Work(newer, true));
  }

  lemma CountdownExpires(from: Manager, m: Manager) returns (n: Manager)
    requires Leads(from, m) && m.t.cancel.NoCancel? && !m.t.active && !m.t.cancelled && m.t.ran < |m.t.calls|
    requires m.t.calls[m.t.ran] in m.t.procs && m.t.calls[m.t.ran] !in m.t.opening
    requires !m.u.reloadPending && !m.u.cancelReconnect && !m.u.counting && m.u.startedAt < m.u.asked
    ensures Leads(from, n) && Stale(n)
  {
    n := Next(from, m, Done(Retry(true, 2)));
    n := Next(from, n, Tick);
    n := Next(from, n, Tick);
  }

  /** After any overlap a countdown can reconnect with settings from before a reload, without a further overlap. */
  lemma OverlapReconnectsStale(m: Manager) returns (n: Manager)
    requires CancelOk(m.t) && Enabled(m, ClosePrompt(true)) && Overlaps(m, ClosePrompt(true))
    ensures Leads(Do(m, ClosePrompt(true)), n) && Stale(n)
  {
    var start, older := Do(m, ClosePrompt(true)), m.t.attempts - 1;
    OverlapBegins(m);
    LeadsNowhere(start);
    n := Drain(start, start, older);
    n := ReloadSlipsIn(start, n, older);
    n := NewerExits(start, n, older + 1);
    n := CountdownExpires(start, n);
  }

  lemma NotStale(m: Manager)
    requires ReloadOk(m.u, m.t.active)
    ensures !Stale(m)
  {
    if Enabled(m, CloseCountdown(false)) && Top(m.u).value.reply == Some(Expired) { ReconnectIsFresh(m, false); }
  }

  lemma {:induction false} ReconnectIffFrom(m: Manager, actions: seq<Action>)
    requires CancelOk(m.t) && ReloadOk(m.u, m.t.active) && Runs(m, actions)
    ensures Guarded(m, actions) <==> Avoids(m, actions, Stale)
    decreases |actions|
  {
    forall n | Leads(m, n) ensures !Stale(n) {
      var more :| Runs(m, more) && Guarded(m, more) && After(m, more) == n;
      ReloadRun(m, more);
      NotStale(n);
    }
    if actions != [] {
      if Overlaps(m, actions[0]) {
        var n := OverlapReconnectsStale(m);
      } else {
        CancelStep(m, actions[0]);
        ReloadStep(m, actions[0]);
        ReconnectIffFrom(Do(m, actions[0]), actions[1..]);
      }
    }
  }

  /**
   The exact condition of the reconnect promise: no countdown can reconnect behind a reload
   along a run, or after it without further overlaps, exactly when the run accepts no prompt
   during a session.
   */
  lemma ReconnectIff(actions: seq<Action>)
    requires Runs(Init(), actions)
    ensures Guarded(Init(), actions) <==> Avoids(Init(), actions, Stale)
  {
    ReconnectIffFrom(Init(), actions);
  }

  // --------------------------------------------------------------- reachability --

  /** A reload behind an open credential prompt arms the automatic connection. */
  lemma PromptThenReload() returns (m: Manager)
    ensures Leads(Init(), m) && m.t == Init().t && Top(m.u) == Some(Prompt)
  {
    LeadsNowhere(Init());
    m := Next(Init(), Init(), OpenPrompt);
    m := Next(Init(), m, Reload);
  }

  /** Overlaps do happen: that connection starts a session, then the prompt is accepted. */
  lemma TwoAttempts() returns (m: Manager)
    ensures Leads(Init(), m) && CancelOk(m.t) && Enabled(m, ClosePrompt(true)) && Overlaps(m, ClosePrompt(true))
    ensures |Live(Do(m, ClosePrompt(true)).t)| == 2
  {
    m := PromptThenReload();
    m := Next(Init(), m, StartDirect);
    assert Live(Do(m, ClosePrompt(true)).t) == {0, 1};
  }
}
