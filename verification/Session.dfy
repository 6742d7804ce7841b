/**
 Session launch, cancel, reload and automatic reconnect of the connection manager. The
 UI thread handles one event at a time but dialogs nest its main loop; each attempt has
 a worker thread whose steps interleave with it. `cancel_session_start` is split where
 a worker step can fall between its accesses.
 */
module Session {
  import opened Prelude

  /** A worker thread, named after what it does next. */
  datatype Worker =
    | Preflight
    | FirstCheck(ok: bool)
    | Building
    | SecondCheck
    | Launching
    | Publishing
    | Rereading
    | Rechecked(saw: bool)
    | Waiting
    | Ending
    | Ended

  /** The client process of an attempt. */
  datatype Process = Process(alive: bool, terminated: bool)

  /** Where the UI thread is inside `cancel_session_start`. */
  datatype Cancel = NoCancel | ReadProc | Poll(attempt: nat)

  /**
   The session flags shared by the threads and the threads themselves. `calls` are the
   done callbacks in the order queued, of which the first `ran` have run; `opening` are the
   attempts whose notice of a launched client is still queued. `attempts` counts the starts
   and `gaveUp` collects the attempts whose dialog was cancelled while they were live.
   */
  datatype Threads = Threads(
    active: bool, cancelled: bool, proc: Option<nat>,
    workers: map<nat, Worker>, procs: map<nat, Process>, calls: seq<nat>, ran: nat,
    opening: set<nat>, cancel: Cancel, attempts: nat, gaveUp: set<nat>)

  /** How a countdown dialog was answered: by its timer, or by the user or a reload. */
  datatype Reply = Expired | Reconnect | Cancelled

  /** A dialog with its own main loop; `since` counts the reloads known when its session began. */
  datatype Frame =
    | Prompt
    | Countdown(remaining: nat, timer: bool, reply: Option<Reply>, since: nat)

  /**
   What only the UI thread touches: dialogs, the countdown's attributes, and how many
   reloads were asked for, are applied, and had been asked for when the session began.
   `progress` is the progress dialog the manager knows of; `pressable` are the attempts whose
   progress dialog is on screen with its Cancel button enabled.
   */
  datatype Ui = Ui(
    reloadPending: bool, cancelReconnect: bool, stack: seq<Frame>, counting: bool, dialog: Option<nat>,
    asked: nat, applied: nat, startedAt: nat, progress: Option<nat>, pressable: set<nat>)

  datatype Manager = Manager(t: Threads, u: Ui)

  datatype Ending = Success | Retry(auto: bool, seconds: nat) | Failure

  datatype Action =
    | StartDirect
    | OpenPrompt
    | ClosePrompt(ok: bool)
    | Reload
    | Tick
    | Answer(ok: bool)
    | CloseCountdown(prompt: bool)
    | Done(ending: Ending)
    | Opened(attempt: nat)
    | CancelFlag(dialog: nat)
    | CancelRead
    | CancelTerminate
    | Work(attempt: nat, ok: bool)
    | ProcessExits(attempt: nat)

  function Init(): Manager {
    Manager(Threads(false, false, None, map[], map[], [], 0, {}, NoCancel, 0, {}),
            Ui(false, false, [], false, None, 0, 0, 0, None, {}))
  }

  // ---------------------------------------------------------------- threads --

  /** Has this attempt's done callback run? */
  predicate Over(t: Threads, i: nat) { t.ran <= |t.calls| && i in t.calls[..t.ran] }

  /** Attempts whose done callback has not run yet. */
  function Live(t: Threads): set<nat> { set i | i in t.workers && !Over(t, i) }

  /** The part of `start_session` after any prompt: it does not look at `active` again. */
  function StartThread(t: Threads): Threads {
    t.(active := true, cancelled := false, proc := None,
       workers := t.workers[t.attempts := Preflight], attempts := t.attempts + 1)
  }

  function Terminate(procs: map<nat, Process>, i: nat): map<nat, Process>
    requires i in procs
  {
    if procs[i].alive then procs[i := procs[i].(terminated := true)] else procs
  }

  predicate CanWork(t: Threads, i: nat) {
    && i in t.workers && !t.workers[i].Ended?
    // a launched client has a process, and waiting ends when that has exited
    && (t.workers[i].Rechecked? ==> i in t.procs)
    && (t.workers[i].Waiting? ==> i in t.procs && !t.procs[i].alive)
  }

  /** What the worker does next; `ok` is how its fallible call turns out. */
  function NextWorker(w: Worker, cancelled: bool, ok: bool): Worker {
    match w
    case Preflight => FirstCheck(ok)
    case FirstCheck(fine) => if cancelled || !fine then Worker.Ending else Building
    case Building => if ok then SecondCheck else Worker.Ending
    case SecondCheck => if cancelled then Worker.Ending else Launching
    case Launching => if ok then Publishing else Worker.Ending
    case Publishing => Rereading
    case Rereading => Rechecked(cancelled)
    case Rechecked(_) => Waiting
    case Waiting => Worker.Ending
    case Ending => Ended
    case Ended => Ended
  }

  /** One step of a worker, with its effects on the shared flags and processes. */
  function WorkThread(t: Threads, i: nat, ok: bool): Threads
    requires CanWork(t, i)
  {
    var w := t.workers[i];
    var moved := t.(workers := t.workers[i := NextWorker(w, t.cancelled, ok)]);
    match w
    case Launching => if ok then moved.(procs := t.procs[i := Process(true, false)]) else moved
    case Publishing => moved.(proc := Some(i))
    case Rechecked(saw) =>
      if saw then moved.(procs := Terminate(t.procs, i)) else moved.(opening := t.opening + {i})
    case Waiting => moved.(proc := None)
    case Ending => moved.(calls := t.calls + [i])
    case _ => moved
  }

  // --------------------------------------------------------------------- ui --

  function Top(u: Ui): Option<Frame> {
    if u.stack == [] then None else Some(u.stack[|u.stack| - 1])
  }

  function Pop(u: Ui): Ui {
    if u.stack == [] then u else u.(stack := u.stack[..|u.stack| - 1])
  }

  function Push(u: Ui, f: Frame): Ui { u.(stack := u.stack + [f]) }

  /** The countdown the manager's attributes point to, if it is still on the stack. */
  function Current(u: Ui): Option<nat> {
    if u.dialog.Some? && u.dialog.value < |u.stack| && u.stack[u.dialog.value].Countdown? then u.dialog else None
  }

  /** `reload_config` outside a session: stop the countdown, answer its dialog, load. */
  function ReloadNow(u: Ui): Ui {
    var quiet := u.(counting := false, applied := u.asked);
    match Current(u)
    case None => quiet
    case Some(i) =>
      var f := u.stack[i];
      quiet.(stack := u.stack[i := Countdown(f.remaining, f.timer && !u.counting, Some(Cancelled), f.since)])
  }

  function AskReload(u: Ui, active: bool): Ui {
    var told := u.(asked := u.asked + 1);
    if active then told.(reloadPending := true) else ReloadNow(told)
  }

  /** `_session_done`: a reload held back is applied first and rules out a reconnect. */
  function DoneUi(u: Ui, cancelled: bool, ending: Ending): Ui {
    var changed := u.reloadPending;
    var settled := if changed then ReloadNow(u.(reloadPending := false)) else u;
    if !cancelled && ending.Retry? && !changed && ending.auto && !settled.cancelReconnect && !settled.counting then
      Push(settled, Countdown(Max(2, ending.seconds) - 1, true, None, u.startedAt))
      .(counting := true, dialog := Some(|settled.stack|))
    else settled
  }

  /** `_close_progress` destroys the dialog the manager knows of, whichever attempt that is for. */
  function CloseProgress(u: Ui): Ui {
    if u.progress.Some? then u.(progress := None, pressable := u.pressable - {u.progress.value}) else u
  }

  /** A start shows a progress dialog of its own; an earlier one stays on screen, but is forgotten. */
  function StartUi(u: Ui, attempt: nat): Ui {
    u.(cancelReconnect := false, startedAt := u.asked, progress := Some(attempt), pressable := u.pressable + {attempt})
  }

  /** Cancelling disables the button of the dialog the manager knows of. */
  function CancelUi(u: Ui): Ui {
    if u.progress.Some? then u.(pressable := u.pressable - {u.progress.value}) else u
  }

  function TickUi(u: Ui): Ui {
    match Current(u)
    case None => u
    case Some(i) =>
      var f := u.stack[i];
      u.(stack := u.stack[i := if f.remaining == 0 then Countdown(0, false, Some(Expired), f.since)
                               else Countdown(f.remaining - 1, f.timer, f.reply, f.since)])
  }

  function AnswerUi(u: Ui, ok: bool): Ui {
    match Top(u)
    case Some(Countdown(remaining, timer, reply, since)) =>
      Push(Pop(u), Countdown(remaining, timer, Some(if ok then Reconnect else Cancelled), since))
    case _ => u
  }

  predicate Answered(u: Ui) { Top(u).Some? && Top(u).value.Countdown? && Top(u).value.reply.Some? }

  /** Does closing the countdown ask for a new session? */
  predicate Reconnects(u: Ui) { Answered(u) && !Top(u).value.reply.value.Cancelled? }

  function CloseUi(u: Ui, active: bool, attempt: nat, prompt: bool): Ui {
    var popped := Pop(u).(counting := false, dialog := None);
    if !Reconnects(u) then popped.(cancelReconnect := true)
    else if active then popped
    else if prompt then Push(popped, Prompt)
    else StartUi(popped, attempt)
  }

  // ---------------------------------------------------------------- actions --

  /** Does this event go through the second half of `start_session`? */
  predicate Starts(m: Manager, a: Action) {
    match a
    case StartDirect => true
    case ClosePrompt(ok) => ok
    case CloseCountdown(prompt) => !prompt && !m.t.active && Reconnects(m.u)
    case _ => false
  }

  predicate Enabled(m: Manager, a: Action) {
    match a
    case StartDirect => m.t.cancel.NoCancel? && !m.t.active
    case OpenPrompt => m.t.cancel.NoCancel? && !m.t.active
    case ClosePrompt(_) => m.t.cancel.NoCancel? && Top(m.u) == Some(Prompt)
    case Reload => m.t.cancel.NoCancel?
    case Tick => m.t.cancel.NoCancel? && Current(m.u).Some? && m.u.stack[Current(m.u).value].timer
    case Answer(_) => m.t.cancel.NoCancel? && Top(m.u).Some? && Top(m.u).value.Countdown?
    case CloseCountdown(_) => m.t.cancel.NoCancel? && Answered(m.u)
    case Done(ending) =>
      && m.t.cancel.NoCancel? && m.t.ran < |m.t.calls|
      // an attempt's notices are dispatched in order
      && m.t.calls[m.t.ran] !in m.t.opening
      // an attempt that launched no client ends with an error
      && (!ending.Failure? ==> m.t.calls[m.t.ran] in m.t.procs)
    case Opened(i) => m.t.cancel.NoCancel? && i in m.t.opening
    case CancelFlag(dialog) => m.t.cancel.NoCancel? && dialog in m.u.pressable
    case CancelRead => m.t.cancel.ReadProc?
    case CancelTerminate => m.t.cancel.Poll? && m.t.cancel.attempt in m.t.procs
    case Work(i, _) => CanWork(m.t, i)
    case ProcessExits(i) => i in m.t.procs && m.t.procs[i].alive
  }

  function DoThreads(m: Manager, a: Action): Threads
    requires Enabled(m, a)
  {
    var t := m.t;
    if Starts(m, a) then StartThread(t)
    else match a
      case Done(_) => t.(active := false, cancelled := false, proc := None, ran := t.ran + 1)
      case Opened(i) => t.(opening := t.opening - {i})
      case CancelFlag(dialog) =>
        t.(cancelled := true, cancel := ReadProc, gaveUp := t.gaveUp + (if dialog in Live(t) then {dialog} else {}))
      case CancelRead => t.(cancel := if t.proc.Some? then Poll(t.proc.value) else NoCancel)
      case CancelTerminate => t.(procs := Terminate(t.procs, t.cancel.attempt), cancel := NoCancel)
      case Work(i, ok) => WorkThread(t, i, ok)
      case ProcessExits(i) => t.(procs := t.procs[i := t.procs[i].(alive := false)])
      case _ => t
  }

  function DoUi(m: Manager, a: Action): Ui {
    match a
    case StartDirect => StartUi(m.u, m.t.attempts)
    case OpenPrompt => Push(m.u, Prompt)
    case ClosePrompt(ok) => if ok then StartUi(Pop(m.u), m.t.attempts) else Pop(m.u)
    case Reload => AskReload(m.u, m.t.active)
    case Tick => TickUi(m.u)
    case Answer(ok) => AnswerUi(m.u, ok)
    case CloseCountdown(prompt) => CloseUi(m.u, m.t.active, m.t.attempts, prompt)
    case Done(ending) => DoneUi(CloseProgress(m.u), m.t.cancelled, ending)
    case Opened(_) => if m.t.cancelled then m.u else CloseProgress(m.u)
    case CancelFlag(_) => CancelUi(m.u)
    case _ => m.u
  }

  function Do(m: Manager, a: Action): Manager
    requires Enabled(m, a)
  {
    Manager(DoThreads(m, a), DoUi(m, a))
  }

  predicate Runs(m: Manager, actions: seq<Action>)
    decreases |actions|
  {
    actions == [] || (Enabled(m, actions[0]) && Runs(Do(m, actions[0]), actions[1..]))
  }

  function After(m: Manager, actions: seq<Action>): Manager
    requires Runs(m, actions)
    decreases |actions|
  {
    if actions == [] then m else After(Do(m, actions[0]), actions[1..])
  }

  /** A prompt accepted while another session is active starts a second one. */
  predicate Overlaps(m: Manager, a: Action) { a == ClosePrompt(true) && m.t.active }

  /** No prompt in this run is accepted while a session is active. */
  predicate Guarded(m: Manager, actions: seq<Action>)
    requires Runs(m, actions)
    decreases |actions|
  {
    actions == [] || (!Overlaps(m, actions[0]) && Guarded(Do(m, actions[0]), actions[1..]))
  }
}
