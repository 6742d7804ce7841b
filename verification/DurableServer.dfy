/**
 The whole server as a state machine: worker slots, handler threads that each run one
 monitored request at a time, the persistence lock with its snapshot-then-write
 commit, the state file, and crashes of the process or of the machine at any point.
 One action is one step between two lock operations or two system calls.
 */
module DurableServer {
  import opened Prelude
  import opened OrderedDict
  import opened Ledger
  import opened Book
  import opened SavedState

  datatype Config = Config(bounds: Bounds, maxWorkers: nat)

  predicate ValidConfig(c: Config) { 1 <= c.maxWorkers <= 1024 }

  /** A document together with the history of which it is the snapshot. */
  datatype Saved = Saved(doc: Document, start: real, log: seq<Event>)

  /** A handler thread, from taking its slot to giving it back. */
  datatype Worker =
    | Starting
    | Idle
    | Beginning(id: nat)
    | Serving(id: nat)
    | Finishing(id: nat, fate: Fate)

  datatype Who = Main | Handler(w: nat)

  /** How far the holder of the persistence lock has got. */
  datatype Stage =
    | Entered
    | Snapped(next: Saved)
    | Replaced
    | Reported(ok: bool)

  datatype Lock = Unlocked | Held(who: Who, stage: Stage)

  datatype Phase = Off | Booting | Running

  /**
   `durable` is the state file a machine crash cannot undo, `pending` the later
   replacements whose directory entry is not flushed yet; readers see the latest.
   `begun` and `ended` record which commits reported success to their caller.
   */
  datatype Server = Server(
    phase: Phase, monitor: Monitor, start: real, log: seq<Event>,
    durable: Option<Saved>, pending: seq<Saved>,
    lock: Lock, workers: map<nat, Worker>, free: nat, rejected: nat,
    begun: set<nat>, ended: map<nat, Fate>)

  datatype Commit = Acquire | Snapshot(savedAt: real) | Replace | FailWrite | Flush(ok: bool) | Return

  datatype Action =
    | Boot(now: real)
    | Advance(who: Who, commit: Commit)
    | Accept(w: nat)
    | Reject
    | ThreadStarts(w: nat)
    | ThreadFails(w: nat)
    | CallBegin(w: nat, verb: string, path: string, ip: string, mac: Option<string>, now: real, mono: real)
    | CallSetLength(w: nat, length: int)
    | CallAddBytes(w: nat, count: int)
    | CallFinish(w: nat, status: Option<int>, interrupted: bool, now: real, mono: real)
    | Disconnect(w: nat)
    | Kill
    | PowerLoss(survives: nat)

  function Visible(s: Server): Option<Saved> {
    if s.pending == [] then s.durable else Some(s.pending[|s.pending| - 1])
  }

  predicate Init(c: Config, s: Server) {
    && s.phase == Off && s.durable == None && s.pending == [] && s.lock == Unlocked
    && s.workers == map[] && s.begun == {} && s.ended == map[]
  }

  /** May this thread be inside `_persist`? */
  predicate Committing(s: Server, who: Who) {
    match who
    case Main => s.phase == Booting
    case Handler(w) => s.phase == Running && w in s.workers && (s.workers[w].Beginning? || s.workers[w].Finishing?)
  }

  predicate CommitEnabled(s: Server, who: Who, commit: Commit) {
    && Committing(s, who)
    && match commit
       case Acquire => s.lock == Unlocked
       case Snapshot(_) => s.lock == Held(who, Entered)
       case Replace => s.lock.Held? && s.lock.who == who && s.lock.stage.Snapped?
       case FailWrite => s.lock.Held? && s.lock.who == who && s.lock.stage.Snapped?
       case Flush(_) => s.lock == Held(who, Replaced)
       case Return => s.lock.Held? && s.lock.who == who && s.lock.stage.Reported?
  }

  predicate Enabled(s: Server, a: Action) {
    match a
    case Boot(_) => s.phase == Off
    case Advance(who, commit) => CommitEnabled(s, who, commit)
    case Accept(w) => s.phase == Running && s.free > 0 && w !in s.workers
    case Reject => s.phase == Running && s.free == 0
    case ThreadStarts(w) => s.phase == Running && w in s.workers && s.workers[w].Starting?
    case ThreadFails(w) => s.phase == Running && w in s.workers && s.workers[w].Starting?
    case CallBegin(w, _, _, _, _, _, _) => s.phase == Running && w in s.workers && s.workers[w].Idle?
    case CallSetLength(w, _) => s.phase == Running && w in s.workers && s.workers[w].Serving?
    case CallAddBytes(w, _) => s.phase == Running && w in s.workers && s.workers[w].Serving?
    case CallFinish(w, _, _, _, _) => s.phase == Running && w in s.workers && s.workers[w].Serving?
    case Disconnect(w) => s.phase == Running && w in s.workers && s.workers[w].Idle?
    case Kill => s.phase != Off
    case PowerLoss(survives) => survives <= |s.pending|
  }

  /** Runs one call under the state lock. */
  function Mutate(s: Server, e: Event): Server {
    s.(monitor := Apply(s.monitor, e), log := s.log + [e])
  }

  function Stop(s: Server): Server { s.(phase := Off, lock := Unlocked, workers := map[]) }

  /** The constructor: load, recover, or quarantine an unusable file and start afresh. */
  function DoBoot(c: Config, s: Server, now: real): Server
  {
    var seen := Visible(s);
    if seen.Some? && SavedState.Boot(c.bounds, seen.value.doc, now).Some? then
      s.(phase := Booting, monitor := SavedState.Boot(c.bounds, seen.value.doc, now).value,
         start := seen.value.start, log := seen.value.log + [Restart(now)])
    else
      s.(phase := Booting, monitor := Fresh(c.bounds, now), start := now, log := [],
         durable := None, pending := [])
  }

  function DoReturn(c: Config, s: Server, who: Who, ok: bool): Server
    requires Committing(s, who)
  {
    var t := s.(lock := Unlocked);
    match who
    case Main => t.(phase := Running, free := c.maxWorkers)
    case Handler(w) =>
      var me := s.workers[w];
      if me.Beginning? then
        t.(workers := s.workers[w := Serving(me.id)], begun := s.begun + (if ok then {me.id} else {}))
      else
        t.(workers := s.workers[w := Idle], ended := if ok then s.ended[me.id := me.fate] else s.ended)
  }

  function DoCommit(c: Config, s: Server, who: Who, commit: Commit): Server
    requires CommitEnabled(s, who, commit)
  {
    match commit
    case Acquire => s.(lock := Held(who, Entered))
    case Snapshot(savedAt) =>
      s.(lock := Held(who, Snapped(Saved(StateDocument(s.monitor, savedAt), s.start, s.log))))
    case Replace => s.(lock := Held(who, Replaced), pending := s.pending + [s.lock.stage.next])
    case FailWrite => s.(lock := Held(who, Reported(false)))
    case Flush(ok) =>
      if ok then s.(lock := Held(who, Reported(true)), durable := Visible(s), pending := [])
      else s.(lock := Held(who, Reported(false)))
    case Return => DoReturn(c, s, who, s.lock.stage.ok)
  }

  function Do(c: Config, s: Server, a: Action): Server
    requires Enabled(s, a)
  {
    match a
    case Boot(now) => DoBoot(c, s, now)
    case Advance(who, commit) => DoCommit(c, s, who, commit)
    case Accept(w) => s.(workers := s.workers[w := Starting], free := s.free - 1)
    case Reject => s.(rejected := s.rejected + 1)
    case ThreadStarts(w) => s.(workers := s.workers[w := Idle])
    case ThreadFails(w) => s.(workers := s.workers - {w}, free := s.free + 1)
    case CallBegin(w, verb, path, ip, mac, now, mono) =>
      Mutate(s, Event.Begin(verb, path, ip, mac, now, mono)).(workers := s.workers[w := Beginning(s.monitor.nextId)])
    case CallSetLength(w, length) => Mutate(s, Event.SetLength(s.workers[w].id, length))
    case CallAddBytes(w, count) => Mutate(s, Event.AddBytes(s.workers[w].id, count))
    case CallFinish(w, status, interrupted, now, mono) =>
      var id := s.workers[w].id;
      match Lookup(s.monitor.active, id) {
        case None => s.(workers := s.workers[w := Idle])
        case Some(r) =>
          var v := Judge(r.verb, r.path, r.bytes, r.length, status, interrupted);
          Mutate(s, Event.Finish(id, status, interrupted, now, mono))
          .(workers := s.workers[w := Finishing(id, Served(v.ok, v.boot, r.bytes))])
      }
    case Disconnect(w) => s.(workers := s.workers - {w}, free := s.free + 1)
    case Kill => Stop(s)
    case PowerLoss(survives) =>
      Stop(s).(durable := if survives == 0 then s.durable else Some(s.pending[survives - 1]), pending := [])
  }

  predicate Runs(c: Config, s: Server, actions: seq<Action>)
    decreases |actions|
  {
    actions == [] || (Enabled(s, actions[0]) && Runs(c, Do(c, s, actions[0]), actions[1..]))
  }

  function After(c: Config, s: Server, actions: seq<Action>): Server
    requires Runs(c, s, actions)
    decreases |actions|
  {
    if actions == [] then s else After(c, Do(c, s, actions[0]), actions[1..])
  }
}
