/**
 The USB cache writer as the shell executes it: one action is one command, a signal
 delivered between two commands, or something the background copy does. Any command
 may fail, and the shell or the machine may stop at any point.
 */
module CacheWriter {
  import opened Prelude

  /** Names in the profile's cache directory: `<digest>.squashfs`, our temporary, others. */
  datatype Name = Image(digest: string) | Partial(n: nat) | Foreign(name: string)

  /** `flushed` data survives a power loss; other data may come back as anything. */
  datatype File = File(content: string, flushed: bool)

  type Dir = map<Name, File>

  /** What the run is asked to save, and the hash function. */
  datatype Job = Job(hash: string -> string, expected: string, before: Dir)

  datatype Child = NoChild | Running | Exited(ok: bool)

  datatype Pc =
    | CheckTarget
    | MakeTemp
    | FirstProgress
    | SetStarting
    | Fork
    | RecordPid
    | ClearStarting
    | CheckInterrupted
    | Poll
    | Wait
    | ClearPid
    | SyncFile
    | Verify
    | Chmod
    | Publish
    | ClearTemp
    | SyncDir
    | Prune
    | WriteStatus
    | Exiting(code: nat)
    | Done(code: nat)
    | Gone

  /**
   The shell's variables, the directory it sees, and the directories a power loss
   could bring back: those it has seen since the last successful flush, oldest first.
   */
  datatype Writer = Writer(
    pc: Pc, dir: Dir, past: seq<Dir>,
    temp: Option<nat>, child: Child, pid: bool, starting: bool, interrupted: nat)

  datatype Action =
    | Run(ok: bool)            // the next command, succeeding or failing
    | CreateTemp(n: nat)       // mktemp picks an unused name
    | PruneOne(digest: string)
    | Signal(code: nat)
    | CopyWrites(content: string)
    | CopyEnds(ok: bool)
    | CleanUp(removed: bool)
    | Kill
    | PowerLoss(survivor: Dir)

  function Start(job: Job): Writer {
    Writer(CheckTarget, job.before, [job.before], None, NoChild, false, false, 0)
  }

  function Target(job: Job): Name { Image(job.expected) }

  predicate Intact(job: Job, dir: Dir, digest: string) {
    Image(digest) in dir && job.hash(dir[Image(digest)].content) == digest
  }

  function Flushed(dir: Dir): Dir { map n | n in dir :: dir[n].(flushed := true) }

  /** The directory after a power loss: some recent one, its unflushed data arbitrary. */
  predicate Survives(s: Writer, survivor: Dir) {
    exists i :: 0 <= i < |s.past| && survivor.Keys == s.past[i].Keys
                && forall n :: n in survivor && s.past[i][n].flushed ==> survivor[n] == s.past[i][n]
  }

  function Exit(s: Writer, code: nat): Writer { s.(pc := Exiting(code)) }

  /** Runs `command || exit 1` and goes on. */
  function OrExit(s: Writer, ok: bool, next: Pc): Writer {
    if ok then s.(pc := next) else Exit(s, 1)
  }

  function Seen(s: Writer, dir: Dir): Writer { s.(dir := dir, past := s.past + [dir]) }

  /** `sync -f`: everything seen so far is on the medium. */
  function Sync(s: Writer): Writer { s.(dir := Flushed(s.dir), past := [Flushed(s.dir)]) }

  function TempFile(s: Writer): Option<File> {
    if s.temp.Some? && Partial(s.temp.value) in s.dir then Some(s.dir[Partial(s.temp.value)]) else None
  }

  predicate Alive(s: Writer) { !s.pc.Exiting? && !s.pc.Done? && !s.pc.Gone? }

  predicate Enabled(job: Job, s: Writer, a: Action) {
    match a
    case Run(ok) =>
      Alive(s)
      && (s.pc.MakeTemp? ==> !ok)
      // `wait` returns once the copy has exited
      && (s.pc.Wait? ==> s.child.Exited?)
      // a hash can only be read from a file, and only a file can be renamed
      && ((s.pc.Verify? || s.pc.Publish?) && ok ==> TempFile(s).Some?)
    case CreateTemp(n) => s.pc.MakeTemp? && Partial(n) !in s.dir
    case PruneOne(digest) => s.pc.Prune? && Image(digest) in s.dir && digest != job.expected
    case Signal(code) => Alive(s) && code > 0
    case CopyWrites(_) => s.child.Running?
    case CopyEnds(_) => s.child.Running?
    case CleanUp(_) => s.pc.Exiting?
    case Kill => !s.pc.Gone?
    case PowerLoss(survivor) => Survives(s, survivor)
  }

  function RunCommand(job: Job, s: Writer, ok: bool): Writer
    requires Enabled(job, s, Run(ok))
  {
    match s.pc
    case CheckTarget => s.(pc := if Intact(job, s.dir, job.expected) && ok then WriteStatus else MakeTemp)
    case MakeTemp => Exit(s, 1)
    case FirstProgress => OrExit(s, ok, SetStarting)
    case SetStarting => s.(starting := true, pc := Fork)
    case Fork => s.(child := Running, pc := RecordPid)
    case RecordPid => s.(pid := true, pc := ClearStarting)
    case ClearStarting => s.(starting := false, pc := CheckInterrupted)
    case CheckInterrupted => if s.interrupted == 0 then s.(pc := Poll) else Exit(s, s.interrupted)
    case Poll => OrExit(s, ok, if s.child.Exited? then Wait else Poll)
    case Wait =>
      if s.child.ok then s.(child := NoChild, pc := ClearPid) else Exit(s.(child := NoChild, pid := false), 1)
    case ClearPid => s.(pid := false, pc := SyncFile)
    case SyncFile => if ok then Sync(s).(pc := Verify) else Exit(s, 1)
    case Verify =>
      if ok && job.hash(TempFile(s).value.content) == job.expected then s.(pc := Chmod) else Exit(s, 1)
    case Chmod => OrExit(s, ok, Publish)
    case Publish =>
      if ok then
        Seen(s, (s.dir - {Partial(s.temp.value)})[Target(job) := TempFile(s).value]).(pc := ClearTemp)
      else Exit(s, 1)
    case ClearTemp => s.(temp := None, pc := SyncDir)
    case SyncDir => if ok then Sync(s).(pc := Prune) else Exit(s, 1)
    case Prune => s.(pc := WriteStatus)
    case WriteStatus => Exit(s, if ok then 0 else 1)
    case _ => s
  }

  function Do(job: Job, s: Writer, a: Action): Writer
    requires Enabled(job, s, a)
  {
    match a
    case Run(ok) => RunCommand(job, s, ok)
    case CreateTemp(n) => Seen(s, s.dir[Partial(n) := File("", false)]).(temp := Some(n), pc := FirstProgress)
    case PruneOne(digest) => Seen(s, s.dir - {Image(digest)})
    case Signal(code) =>
      // between the fork and the recording of its pid the handler only takes a note
      var noted := s.(interrupted := code);
      if s.starting then noted else Exit(noted, code)
    case CopyWrites(content) =>
      if TempFile(s).Some? then Seen(s, s.dir[Partial(s.temp.value) := File(content, false)]) else s
    case CopyEnds(ok) => s.(child := Exited(ok))
    case CleanUp(removed) =>
      var reaped := if s.pid then s.(child := NoChild) else s;
      var swept := if TempFile(s).Some? && removed then Seen(reaped, s.dir - {Partial(s.temp.value)}) else reaped;
      swept.(pc := Done(s.pc.code))
    case Kill => s.(pc := Gone)
    case PowerLoss(survivor) => s.(pc := Gone, dir := survivor, past := [survivor], child := NoChild)
  }

  predicate Runs(job: Job, s: Writer, actions: seq<Action>)
    decreases |actions|
  {
    actions == [] || (Enabled(job, s, actions[0]) && Runs(job, Do(job, s, actions[0]), actions[1..]))
  }

  function After(job: Job, s: Writer, actions: seq<Action>): Writer
    requires Runs(job, s, actions)
    decreases |actions|
  {
    if actions == [] then s else After(job, Do(job, s, actions[0]), actions[1..])
  }
}
