/** What the connection manager keeps under every interleaving of its threads. */
module SessionProofs {
  import opened Prelude
  import opened Session

  // ------------------------------------------ every start ends exactly once --

  ghost predicate AllDistinct(calls: seq<nat>) { forall i, j :: 0 <= i < j < |calls| ==> calls[i] != calls[j] }

  /** Exactly the attempts whose worker has ended have queued their done callback, once each. */
  ghost predicate CallsOk(t: Threads) {
    && t.ran <= |t.calls| && AllDistinct(t.calls)
    && (forall i: nat :: i in t.workers <==> i < t.attempts)
    && (forall i: nat :: i in t.calls <==> i in t.workers && t.workers[i].Ended?)
  }

  lemma CallsEnd(t: Threads, i: nat)
    requires CallsOk(t) && i in t.workers && t.workers[i].Ending?
    ensures CallsOk(t.(workers := t.workers[i := Ended], calls := t.calls + [i]))
  {
    assert i !in t.calls;
  }

  lemma CallsMove(t: Threads, i: nat, w: Worker, procs: map<nat, Process>, proc: Option<nat>, opening: set<nat>)
    requires CallsOk(t) && i in t.workers && !t.workers[i].Ended? && !w.Ended?
    ensures CallsOk(t.(workers := t.workers[i := w], procs := procs, proc := proc, opening := opening))
  {
  }

  lemma CallsWork(t: Threads, i: nat, ok: bool)
    requires CallsOk(t) && CanWork(t, i)
    ensures CallsOk(WorkThread(t, i, ok))
    ensures t.ran <= |t.calls| <= |WorkThread(t, i, ok).calls|
            && WorkThread(t, i, ok).calls[..t.ran] == t.calls[..t.ran]
  {
    var next := WorkThread(t, i, ok);
    if t.workers[i].Ending? {
      CallsEnd(t, i);
    } else {
      CallsMove(t, i, NextWorker(t.workers[i], t.cancelled, ok), next.procs, next.proc, next.opening);
    }
  }

  lemma CallsStep(m: Manager, a: Action)
    requires CallsOk(m.t) && Enabled(m, a)
    ensures CallsOk(DoThreads(m, a))
  {
    if a.Work? { CallsWork(m.t, a.attempt, a.ok); }
  }

  lemma {:induction false} CallsRun(m: Manager, actions: seq<Action>)
    requires CallsOk(m.t) && Runs(m, actions)
    ensures CallsOk(After(m, actions).t)
    decreases |actions|
  {
    if actions != [] {
      CallsStep(m, actions[0]);
      CallsRun(Do(m, actions[0]), actions[1..]);
    }
  }

  /**
   Every accepted start gets exactly one done callback: the callbacks queued are pairwise
   distinct and belong exactly to the attempts whose worker has ended.
   */
  lemma DoneExactlyOnce(actions: seq<Action>)
    requires Runs(Init(), actions)
    ensures var t := After(Init(), actions).t;
            && AllDistinct(t.calls) && t.ran <= |t.calls|
            && (forall i: nat :: i in t.calls <==> i < t.attempts && i in t.workers && t.workers[i].Ended?)
  {
    CallsRun(Init(), actions);
  }

  // --------------------------------------------------- one attempt at a time --

  /** While a session is active it is the newest attempt, and all others are over. */
  ghost predicate Single(t: Threads) {
    && CallsOk(t)
    && (t.active ==> t.attempts > 0 && t.attempts - 1 !in t.calls[..t.ran])
    && (forall i: nat :: i < t.attempts && i !in t.calls[..t.ran] ==> t.active && i == t.attempts - 1)
  }

  /** The callback at the head of the queue is the active session's. */
  lemma QueueIsNewest(t: Threads)
    requires Single(t) && t.ran < |t.calls|
    ensures t.active && t.calls[t.ran] == t.attempts - 1
  {
    var c := t.calls[t.ran];
    assert c in t.calls;
    forall j | 0 <= j < t.ran ensures t.calls[..t.ran][j] != c {
      assert t.calls[j] != t.calls[t.ran];
    }
    assert c < t.attempts && c !in t.calls[..t.ran];
  }

  lemma SingleStart(t: Threads)
    requires Single(t) && !t.active
    ensures Single(StartThread(t))
  {
    forall j | 0 <= j < t.ran ensures t.calls[..t.ran][j] != t.attempts {
      assert t.calls[j] in t.calls;
    }
  }

  lemma SingleDone(t: Threads)
    requires Single(t) && t.ran < |t.calls|
    ensures Single(t.(active := false, cancelled := false, proc := None, ran := t.ran + 1))
  {
    QueueIsNewest(t);
    assert t.calls[..t.ran + 1] == t.calls[..t.ran] + [t.calls[t.ran]];
  }

  lemma SingleWork(t: Threads, i: nat, ok: bool)
    requires Single(t) && CanWork(t, i)
    ensures Single(WorkThread(t, i, ok))
  {
    CallsWork(t, i, ok);
    var next := WorkThread(t, i, ok);
    assert next.active == t.active && next.attempts == t.attempts && next.ran == t.ran;
  }

  lemma SingleStep(m: Manager, a: Action)
    requires Single(m.t) && Enabled(m, a) && !Overlaps(m, a)
    ensures Single(DoThreads(m, a))
  {
    if Starts(m, a) {
      SingleStart(m.t);
    } else if a.Done? {
      SingleDone(m.t);
    } else if a.Work? {
      SingleWork(m.t, a.attempt, a.ok);
    }
  }

  lemma SingleLive(t: Threads)
    requires Single(t)
    ensures |Live(t)| <= 1
  {
    if t.active {
      assert Live(t) <= {t.attempts - 1};
      if Live(t) != {} { assert Live(t) == {t.attempts - 1}; }
    } else {
      assert Live(t) == {};
    }
  }

  lemma OverlapLive(t: Threads)
    requires Single(t) && t.active
    ensures |Live(StartThread(t))| >= 2
  {
    var first, second, live := t.attempts - 1, t.attempts, Live(StartThread(t));
    forall j | 0 <= j < t.ran ensures t.calls[..t.ran][j] != second {
      assert t.calls[j] in t.calls;
    }
    assert {first, second} <= live;
    assert live == {first, second} + (live - {first, second});
  }

  /** Does every state of the run have at most one live attempt? */
  ghost predicate OneAtATime(m: Manager, actions: seq<Action>)
    requires Runs(m, actions)
    decreases |actions|
  {
    |Live(m.t)| <= 1 && (actions == [] || OneAtATime(Do(m, actions[0]), actions[1..]))
  }

  lemma {:induction false} OneAtATimeFrom(m: Manager, actions: seq<Action>)
    requires Single(m.t) && Runs(m, actions)
    ensures OneAtATime(m, actions) <==> Guarded(m, actions)
    decreases |actions|
  {
    SingleLive(m.t);
    if actions != [] {
      if Overlaps(m, actions[0]) {
        OverlapLive(m.t);
      } else {
        SingleStep(m, actions[0]);
        OneAtATimeFrom(Do(m, actions[0]), actions[1..]);
      }
    }
  }

  /** At most one attempt is live at any time exactly in the runs that accept no prompt during a session. */
  lemma OneAttemptIff(actions: seq<Action>)
    requires Runs(Init(), actions)
    ensures OneAtATime(Init(), actions) <==> Guarded(Init(), actions)
  {
    OneAtATimeFrom(Init(), actions);
  }

  // ------------------------------------------------------------ cancel race --

  predicate Launched(w: Worker) { w.Publishing? || w.Rereading? || w.Rechecked? || w.Waiting? }

  predicate Published(w: Worker) { w.Rereading? || w.Rechecked? || w.Waiting? }

  predicate Settled(p: Process) { p.terminated || !p.alive }

  /** Every launched client has a process; one that is alive belongs to a worker that launched it. */
  ghost predicate ProcsOk(t: Threads) {
    && (forall i :: i in t.procs ==> i in t.workers && (t.procs[i].alive ==> Launched(t.workers[i])))
    && (forall i :: i in t.workers && Launched(t.workers[i]) ==> i in t.procs)
  }

  /** What the newest attempt's worker and the canceller know of each other. */
  ghost predicate RaceOk(t: Threads, c: nat)
    requires c in t.workers
  {
    var w, cancelled := t.workers[c], c in t.gaveUp;
    && (Published(w) ==> t.proc == Some(c))
    && (cancelled ==> t.cancelled)
    && (cancelled && (w == Rechecked(false) || w.Waiting?) && c in t.procs && !Settled(t.procs[c]) ==>
          t.cancel.ReadProc? || t.cancel == Poll(c))
  }

  ghost predicate CancelOk(t: Threads) {
    && Single(t) && ProcsOk(t)
    && (t.active ==> RaceOk(t, t.attempts - 1))
    && (t.cancel.Poll? ==> t.cancel.attempt in t.procs)
    && (t.proc.Some? ==> t.proc.value in t.procs)
    && (forall i :: i in t.gaveUp ==> i < t.attempts)
  }

  /** A worker that has not ended belongs to the newest attempt of an active session. */
  lemma BusyIsNewest(t: Threads, i: nat)
    requires Single(t) && i in t.workers && !t.workers[i].Ended?
    ensures t.active && i == t.attempts - 1
  {
    forall j | 0 <= j < t.ran ensures t.calls[..t.ran][j] != i {
      assert t.calls[j] in t.calls;
    }
    assert i < t.attempts && i !in t.calls[..t.ran];
  }

  /** A worker moves on without touching its client. */
  lemma ProcsMove(t: Threads, i: nat, w: Worker)
    requires ProcsOk(t) && i in t.workers
    requires Launched(w) ==> Launched(t.workers[i])
    requires i in t.procs && t.procs[i].alive ==> Launched(w)
    ensures ProcsOk(t.(workers := t.workers[i := w]))
  {
  }

  lemma ProcsLaunch(t: Threads, i: nat)
    requires ProcsOk(t) && i in t.workers
    ensures ProcsOk(t.(workers := t.workers[i := Publishing], procs := t.procs[i := Process(true, false)]))
  {
  }

  lemma ProcsTerminate(t: Threads, i: nat)
    requires ProcsOk(t) && i in t.procs
    ensures ProcsOk(t.(procs := Terminate(t.procs, i)))
  {
  }

  lemma ProcsWork(t: Threads, i: nat, ok: bool)
    requires ProcsOk(t) && CanWork(t, i)
    ensures ProcsOk(WorkThread(t, i, ok))
    ensures forall j :: j in t.procs ==> j in WorkThread(t, i, ok).procs
  {
    var w := t.workers[i];
    if w.Launching? && ok {
      ProcsLaunch(t, i);
    } else {
      ProcsMove(t, i, NextWorker(w, t.cancelled, ok));
      if w == Rechecked(true) { ProcsTerminate(t.(workers := t.workers[i := Waiting]), i); }
    }
  }

  lemma RaceWork(t: Threads, i: nat, ok: bool)
    requires ProcsOk(t) && CanWork(t, i) && RaceOk(t, i)
    ensures i in WorkThread(t, i, ok).workers && RaceOk(WorkThread(t, i, ok), i)
  {
  }

  lemma CancelWork(t: Threads, i: nat, ok: bool)
    requires CancelOk(t) && CanWork(t, i) && Single(WorkThread(t, i, ok))
    ensures CancelOk(WorkThread(t, i, ok))
  {
    BusyIsNewest(t, i);
    ProcsWork(t, i, ok);
    RaceWork(t, i, ok);
  }

  lemma CancelStart(t: Threads)
    requires CancelOk(t) && !t.active
    ensures CancelOk(StartThread(t))
  {
    SingleStart(t);
  }

  lemma CancelStep(m: Manager, a: Action)
    requires CancelOk(m.t) && Enabled(m, a) && !Overlaps(m, a)
    ensures CancelOk(DoThreads(m, a))
  {
    SingleStep(m, a);
    if Starts(m, a) {
      CancelStart(m.t);
    } else if a.Work? {
      CancelWork(m.t, a.attempt, a.ok);
    }
  }

  lemma {:induction false} CancelRun(m: Manager, actions: seq<Action>)
    requires CancelOk(m.t) && Runs(m, actions) && Guarded(m, actions)
    ensures CancelOk(After(m, actions).t)
    decreases |actions|
  {
    if actions != [] {
      CancelStep(m, actions[0]);
      CancelRun(Do(m, actions[0]), actions[1..]);
    }
  }

  /**
   The cancel race: once the UI has finished cancelling and the worker has passed its
   second look at the flag, a cancelled attempt has no live client that was not told to
   terminate; and an attempt whose worker is through has no live client at all.
   */
  lemma CancelledClientIsTerminated(t: Threads, attempt: nat)
    requires CancelOk(t) && attempt in t.procs && t.procs[attempt].alive
    ensures attempt in t.workers && Launched(t.workers[attempt])
    ensures attempt in t.gaveUp && t.cancel.NoCancel? ==>
              t.procs[attempt].terminated || t.workers[attempt].Publishing? || t.workers[attempt].Rereading?
              || t.workers[attempt] == Rechecked(true)
  {
    BusyIsNewest(t, attempt);
  }

  // ------------------------------------------------------ reload, reconnect --

  /** A countdown that may still expire, or just has. */
  predicate Running(f: Frame) { f.Countdown? && (f.timer || f.reply == Some(Expired)) }

  /** Such a countdown is the current one, and no reload has come in, or a session holds it back. */
  ghost predicate CountdownOk(u: Ui, active: bool, i: nat)
    requires i < |u.stack|
  {
    Running(u.stack[i]) ==>
      && u.dialog == Some(i) && u.counting
      && (u.stack[i].since == u.asked || (active && u.reloadPending))
  }

  ghost predicate DialogOk(u: Ui) {
    && (u.counting ==> u.dialog.Some?)
    && (u.dialog.Some? ==> u.dialog.value < |u.stack| && u.stack[u.dialog.value].Countdown?
                           && forall j :: u.dialog.value < j < |u.stack| ==> !u.stack[j].Countdown?)
  }

  ghost predicate ReloadOk(u: Ui, active: bool) {
    && (!active ==> u.applied == u.asked && !u.reloadPending)
    && (active && !u.reloadPending ==> u.applied == u.asked == u.startedAt)
    && DialogOk(u)
    && (forall i :: 0 <= i < |u.stack| ==> CountdownOk(u, active, i))
  }

  lemma RunningIsCurrent(u: Ui, active: bool)
    requires ReloadOk(u, active)
    ensures forall i :: 0 <= i < |u.stack| && Running(u.stack[i]) ==> u.dialog == Some(i) && u.counting
  {
    forall i | 0 <= i < |u.stack| && Running(u.stack[i]) ensures u.dialog == Some(i) && u.counting {
      assert CountdownOk(u, active, i);
    }
  }

  /** A reload outside a session calls every countdown off. */
  lemma ReloadNowOk(u: Ui)
    requires !u.reloadPending && DialogOk(u)
    requires forall i :: 0 <= i < |u.stack| && Running(u.stack[i]) ==> u.dialog == Some(i) && u.counting
    ensures ReloadOk(ReloadNow(u), false) && !ReloadNow(u).counting
  {
  }

  lemma AskReloadOk(u: Ui, active: bool)
    requires ReloadOk(u, active)
    ensures ReloadOk(AskReload(u, active), active)
  {
    RunningIsCurrent(u, active);
    if active {
      var v := AskReload(u, active);
      forall i | 0 <= i < |v.stack| ensures CountdownOk(v, active, i) { assert CountdownOk(u, active, i); }
    } else {
      ReloadNowOk(u.(asked := u.asked + 1));
    }
  }

  lemma DoneUiOk(u: Ui, cancelled: bool, ending: Ending)
    requires ReloadOk(u, true)
    ensures ReloadOk(DoneUi(u, cancelled, ending), false)
  {
    RunningIsCurrent(u, true);
    if u.reloadPending {
      ReloadNowOk(u.(reloadPending := false));
    } else {
      forall i | 0 <= i < |u.stack| ensures CountdownOk(u, false, i) { assert CountdownOk(u, true, i); }
      var v := DoneUi(u, cancelled, ending);
      forall i | 0 <= i < |v.stack| ensures CountdownOk(v, false, i) {
        if i < |u.stack| { assert CountdownOk(u, false, i); }
      }
    }
  }

  lemma StartUiOk(u: Ui, attempt: nat)
    requires ReloadOk(u, false)
    ensures ReloadOk(StartUi(u, attempt), true)
  {
    var v := StartUi(u, attempt);
    forall i | 0 <= i < |u.stack| ensures CountdownOk(v, true, i) { assert CountdownOk(u, false, i); }
  }

  /** Progress dialogs have nothing to do with reloads. */
  lemma ProgressIsNoReload(u: Ui, active: bool, progress: Option<nat>, pressable: set<nat>)
    requires ReloadOk(u, active)
    ensures ReloadOk(u.(progress := progress, pressable := pressable), active)
  {
    var v := u.(progress := progress, pressable := pressable);
    forall i | 0 <= i < |u.stack| ensures CountdownOk(v, active, i) { assert CountdownOk(u, active, i); }
  }

  lemma PromptUiOk(u: Ui, active: bool)
    requires ReloadOk(u, active)
    ensures ReloadOk(Push(u, Prompt), active)
    ensures Top(u) == Some(Prompt) ==> ReloadOk(Pop(u), active)
  {
    forall i | 0 <= i < |u.stack| + 1 ensures CountdownOk(Push(u, Prompt), active, i) {
      if i < |u.stack| { assert CountdownOk(u, active, i); }
    }
    if Top(u) == Some(Prompt) {
      forall i | 0 <= i < |u.stack| - 1 ensures CountdownOk(Pop(u), active, i) { assert CountdownOk(u, active, i); }
    }
  }

  lemma TickUiOk(u: Ui, active: bool)
    requires ReloadOk(u, active) && Current(u).Some? && u.stack[Current(u).value].timer
    ensures ReloadOk(TickUi(u), active)
  {
    forall i | 0 <= i < |u.stack| ensures CountdownOk(TickUi(u), active, i) { assert CountdownOk(u, active, i); }
  }

  lemma AnswerUiOk(u: Ui, active: bool, ok: bool)
    requires ReloadOk(u, active) && Top(u).Some? && Top(u).value.Countdown?
    ensures ReloadOk(AnswerUi(u, ok), active)
  {
    var v := AnswerUi(u, ok);
    assert |v.stack| == |u.stack|;
    forall i | 0 <= i < |v.stack| ensures CountdownOk(v, active, i) { assert CountdownOk(u, active, i); }
  }

  lemma CloseUiOk(u: Ui, active: bool, attempt: nat, prompt: bool)
    requires ReloadOk(u, active) && Answered(u)
    ensures ReloadOk(CloseUi(u, active, attempt, prompt), active || (!prompt && Reconnects(u)))
  {
    var popped := Pop(u).(counting := false, dialog := None);
    RunningIsCurrent(u, active);
    assert ReloadOk(popped, active);
    if Reconnects(u) && !active {
      if prompt { PromptUiOk(popped, false); } else { StartUiOk(popped, attempt); }
    }
  }

  lemma ReloadStep(m: Manager, a: Action)
    requires Single(m.t) && ReloadOk(m.u, m.t.active) && Enabled(m, a) && !Overlaps(m, a)
    ensures ReloadOk(DoUi(m, a), DoThreads(m, a).active)
  {
    match a
    case StartDirect => StartUiOk(m.u, m.t.attempts);
    case OpenPrompt => PromptUiOk(m.u, m.t.active);
    case ClosePrompt(ok) =>
      PromptUiOk(m.u, m.t.active);
      if ok { StartUiOk(Pop(m.u), m.t.attempts); }
    case Reload => AskReloadOk(m.u, m.t.active);
    case Tick => TickUiOk(m.u, m.t.active);
    case Answer(ok) => AnswerUiOk(m.u, m.t.active, ok);
    case CloseCountdown(prompt) => CloseUiOk(m.u, m.t.active, m.t.attempts, prompt);
    case Done(ending) =>
      QueueIsNewest(m.t);
      ProgressIsNoReload(m.u, true, CloseProgress(m.u).progress, CloseProgress(m.u).pressable);
      DoneUiOk(CloseProgress(m.u), m.t.cancelled, ending);
    case Opened(_) =>
      ProgressIsNoReload(m.u, m.t.active, CloseProgress(m.u).progress, CloseProgress(m.u).pressable);
    case CancelFlag(_) => ProgressIsNoReload(m.u, m.t.active, m.u.progress, CancelUi(m.u).pressable);
    case CancelRead =>
    case CancelTerminate =>
    case Work(_, _) =>
    case ProcessExits(_) =>
  }

  lemma {:induction false} ReloadRun(m: Manager, actions: seq<Action>)
    requires Single(m.t) && ReloadOk(m.u, m.t.active) && Runs(m, actions) && Guarded(m, actions)
    ensures ReloadOk(After(m, actions).u, After(m, actions).t.active)
    decreases |actions|
  {
    if actions != [] {
      ReloadStep(m, actions[0]);
      SingleStep(m, actions[0]);
      ReloadRun(Do(m, actions[0]), actions[1..]);
    }
  }

  /** Outside a session every reload has been applied; within one a missing one is remembered. */
  predicate Remembered(m: Manager) {
    if m.t.active then m.u.applied != m.u.asked ==> m.u.reloadPending
    else m.u.applied == m.u.asked && !m.u.reloadPending
  }

  lemma RememberedStep(m: Manager, a: Action)
    requires Remembered(m) && Enabled(m, a)
    ensures Remembered(Do(m, a))
  {
  }

  /** No reload is lost, in any run: it is applied at once, or when the session it arrived in ends. */
  lemma {:induction false} ReloadsApplied(m: Manager, actions: seq<Action>)
    requires Remembered(m) && Runs(m, actions)
    ensures Remembered(After(m, actions))
    decreases |actions|
  {
    if actions != [] {
      RememberedStep(m, actions[0]);
      ReloadsApplied(Do(m, actions[0]), actions[1..]);
    }
  }

  /** A countdown that expires reconnects only if no reload arrived since its session began. */
  lemma ReconnectIsFresh(m: Manager, prompt: bool)
    requires ReloadOk(m.u, m.t.active) && Enabled(m, CloseCountdown(prompt)) && Top(m.u).value.reply == Some(Expired)
    ensures if m.t.active then Do(m, CloseCountdown(prompt)).t.attempts == m.t.attempts
            else Top(m.u).value.since == m.u.asked == m.u.applied
  {
    assert CountdownOk(m.u, m.t.active, |m.u.stack| - 1);
  }

  // -------------------------------------------------------------- countdowns --

  /** A session that ends opens a countdown exactly when a retry is due that nothing rules out. */
  lemma CountdownIff(u: Ui, cancelled: bool, ending: Ending)
    ensures var v := DoneUi(u, cancelled, ending);
            var due := !cancelled && ending.Retry? && ending.auto
                       && !u.reloadPending && !u.cancelReconnect && !u.counting;
            && |v.stack| == |u.stack| + (if due then 1 else 0)
            && (due ==> v.counting && v.dialog == Some(|u.stack|)
                        && v.stack == u.stack + [Countdown(Max(2, ending.seconds) - 1, true, None, u.startedAt)])
  {
  }

  /** A cancelled session is never reconnected: its end opens no countdown, in any run without overlaps. */
  lemma CancelledIsNotRetried(actions: seq<Action>, ending: Ending)
    requires Runs(Init(), actions) && Guarded(Init(), actions)
    requires Enabled(After(Init(), actions), Done(ending))
    requires var t := After(Init(), actions).t; t.calls[t.ran] in t.gaveUp
    ensures |Do(After(Init(), actions), Done(ending)).u.stack| == |After(Init(), actions).u.stack|
  {
    var m := After(Init(), actions);
    CancelRun(Init(), actions);
    QueueIsNewest(m.t);
    assert m.t.cancelled;
    CountdownIff(CloseProgress(m.u), m.t.cancelled, ending);
  }

  function Ticks(u: Ui, n: nat): Ui
    decreases n
  {
    if n == 0 then u else TickUi(Ticks(u, n - 1))
  }

  lemma {:induction false} TicksDown(u: Ui, n: nat)
    requires Current(u).Some?
    requires u.stack[Current(u).value].timer && n <= u.stack[Current(u).value].remaining
    ensures var i, f := Current(u).value, u.stack[Current(u).value];
            Ticks(u, n) == u.(stack := u.stack[i := Countdown(f.remaining - n, true, f.reply, f.since)])
    decreases n
  {
    if n > 0 { TicksDown(u, n - 1); }
  }

  /** An undisturbed countdown expires with the last of its seconds, of which there are at least two, and not before. */
  lemma CountdownLasts(u: Ui, seconds: nat, n: nat)
    requires !u.reloadPending && !u.cancelReconnect && !u.counting
    ensures var shown := DoneUi(u, false, Retry(true, seconds));
            var lasts := if seconds < 2 then 2 else seconds;
            && (n < lasts ==> Top(Ticks(shown, n)).Some? && Top(Ticks(shown, n)).value.Countdown?
                              && Top(Ticks(shown, n)).value.timer && Top(Ticks(shown, n)).value.reply == None)
            && Top(Ticks(shown, lasts)) == Some(Countdown(0, false, Some(Expired), u.startedAt))
  {
    var shown, lasts := DoneUi(u, false, Retry(true, seconds)), if seconds < 2 then 2 else seconds;
    CountdownIff(u, false, Retry(true, seconds));
    if n < lasts { TicksDown(shown, n); }
    TicksDown(shown, lasts - 1);
  }

  /** A user's answer decides: yes starts a session, or asks for credentials first; no holds reconnects off. */
  lemma AnswerDecides(m: Manager, ok: bool, prompt: bool)
    requires Enabled(m, Answer(ok))
    ensures Enabled(Do(m, Answer(ok)), CloseCountdown(prompt))
    ensures var asked, u := Do(m, Answer(ok)), Do(Do(m, Answer(ok)), CloseCountdown(prompt)).u;
            var below, started := m.u.stack[..|m.u.stack| - 1], Starts(asked, CloseCountdown(prompt));
            && (started <==> ok && !prompt && !m.t.active)
            && u.stack == (if ok && prompt && !m.t.active then below + [Prompt] else below)
            && (started ==> u.progress == Some(m.t.attempts) && m.t.attempts in u.pressable && !u.cancelReconnect)
            && (!ok ==> u.cancelReconnect)
            && (ok && !started ==> u.cancelReconnect == m.u.cancelReconnect)
            && !u.counting && u.dialog == None
  {
  }

  predicate NoStarts(m: Manager, actions: seq<Action>)
    requires Runs(m, actions)
    decreases |actions|
  {
    actions == [] || (!Starts(m, actions[0]) && NoStarts(Do(m, actions[0]), actions[1..]))
  }

  /** Once the user has said no, nothing opens another countdown until a new session starts. */
  lemma {:induction false} NoHolds(m: Manager, actions: seq<Action>, ending: Ending)
    requires m.u.cancelReconnect && Runs(m, actions) && NoStarts(m, actions)
    requires Enabled(After(m, actions), Done(ending))
    ensures After(m, actions).u.cancelReconnect
    ensures |Do(After(m, actions), Done(ending)).u.stack| == |After(m, actions).u.stack|
    decreases |actions|
  {
    if actions == [] {
      CountdownIff(CloseProgress(m.u), m.t.cancelled, ending);
    } else {
      NoHolds(Do(m, actions[0]), actions[1..], ending);
    }
  }

  /** The progress dialog: cancelling disables its button and keeps it, a client that opens closes it otherwise. */
  lemma ProgressTells(m: Manager, dialog: nat, attempt: nat)
    ensures Enabled(m, CancelFlag(dialog)) ==>
              var u := Do(m, CancelFlag(dialog)).u;
              u.progress == m.u.progress && (u.progress.Some? ==> u.progress.value !in u.pressable)
    ensures Enabled(m, Opened(attempt)) ==>
              var u := Do(m, Opened(attempt)).u;
              if m.t.cancelled then u == m.u
              else u.progress == None && (m.u.progress.Some? ==> m.u.progress.value !in u.pressable)
  {
  }

  // ------------------------------------------------------------------ launches --

  /** How a worker can have got to each stage: a client is launched only past two looks at the flag. */
  lemma StageIff(w: Worker, cancelled: bool, ok: bool)
    ensures NextWorker(w, cancelled, ok).Building? <==> w == FirstCheck(true) && !cancelled
    ensures NextWorker(w, cancelled, ok).SecondCheck? <==> w.Building? && ok
    ensures NextWorker(w, cancelled, ok).Launching? <==> w.SecondCheck? && !cancelled
    ensures NextWorker(w, cancelled, ok).Publishing? <==> w.Launching? && ok
    ensures NextWorker(w, cancelled, ok) == Rechecked(true) <==> w.Rereading? && cancelled
    ensures NextWorker(w, cancelled, ok).Waiting? <==> w.Rechecked?
  {
  }
}
