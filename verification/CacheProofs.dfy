/** What the cache writer keeps at every command boundary, whatever fails. */
module CacheProofs {
  import opened Prelude
  import opened CacheWriter

  /** Every published image was there before, or is the verified one. */
  ghost predicate Faithful(job: Job, dir: Dir) {
    forall d :: Image(d) in dir ==>
      && dir[Image(d)].flushed
      && ((Image(d) in job.before && dir[Image(d)] == job.before[Image(d)])
          || (d == job.expected && Intact(job, dir, d)))
  }

  /** The new image is in place, or no old one has been touched. */
  ghost predicate Preserved(job: Job, dir: Dir) {
    || Intact(job, dir, job.expected)
    || (forall d :: Image(d) in job.before ==> Image(d) in dir && dir[Image(d)] == job.before[Image(d)])
  }

  ghost predicate Good(job: Job, dir: Dir) { Faithful(job, dir) && Preserved(job, dir) }

  ghost predicate HistoryOk(job: Job, s: Writer) {
    && |s.past| > 0 && s.past[|s.past| - 1] == s.dir
    && (forall i :: 0 <= i < |s.past| ==> Good(job, s.past[i]))
  }

  /** What each point of the script can rely on. */
  ghost predicate PointOk(job: Job, s: Writer) {
    match s.pc
    case Verify => TempFile(s).Some? ==> TempFile(s).value.flushed
    case Chmod => Verified(job, s)
    case Publish => Verified(job, s)
    case ClearTemp => Intact(job, s.dir, job.expected)
    case SyncDir => Intact(job, s.dir, job.expected)
    case Prune => Lasting(job, s)
    case WriteStatus => Lasting(job, s)
    case Exiting(code) => code == 0 ==> Lasting(job, s)
    case Done(code) => code == 0 ==> Lasting(job, s)
    case _ => true
  }

  /** Not even a power loss can take the new image away. */
  ghost predicate Lasting(job: Job, s: Writer) {
    forall i :: 0 <= i < |s.past| ==> Intact(job, s.past[i], job.expected)
  }

  ghost predicate Verified(job: Job, s: Writer) {
    TempFile(s).Some? ==> TempFile(s).value.flushed && job.hash(TempFile(s).value.content) == job.expected
  }

  /** Before the copy starts and after it has been reaped. */
  predicate NoCopy(pc: Pc) {
    pc.CheckTarget? || pc.MakeTemp? || pc.FirstProgress? || pc.SetStarting? || pc.Fork? || pc.ClearPid? || pc.SyncFile?
    || pc.Verify? || pc.Chmod? || pc.Publish? || pc.ClearTemp? || pc.SyncDir? || pc.Prune? || pc.WriteStatus?
  }

  predicate InHandshake(pc: Pc) { pc.Fork? || pc.RecordPid? || pc.ClearStarting? }

  /** The shell always knows of its copy, or has blocked its exit until it does. */
  ghost predicate HandshakeOk(s: Writer) {
    && (Alive(s) ==> (s.starting <==> InHandshake(s.pc)))
    && (Alive(s) && s.interrupted != 0 ==> InHandshake(s.pc) || s.pc.CheckInterrupted?)
    && (NoCopy(s.pc) ==> s.child == NoChild)
    && (s.pc.ClearStarting? || s.pc.CheckInterrupted? || s.pc.Poll? || s.pc.Wait? || s.pc.Exiting? ==>
        s.child != NoChild ==> s.pid)
    && (s.pc.Done? ==> s.child == NoChild)
  }

  /** The only partial file of this run is the one the shell remembers. */
  ghost predicate TempOk(job: Job, s: Writer) {
    && (s.pc.CheckTarget? || s.pc.MakeTemp? ==> s.temp == None && s.past == [job.before])
    && (s.pc.ClearTemp? ==> TempFile(s).None?)
    && (Alive(s) || s.pc.Exiting? ==>
          forall n: nat :: Partial(n) in s.dir && Partial(n) !in job.before ==> s.temp == Some(n))
    && (s.temp.Some? ==> Partial(s.temp.value) !in job.before)
  }

  ghost predicate Inv(job: Job, s: Writer) {
    HistoryOk(job, s) && PointOk(job, s) && HandshakeOk(s) && TempOk(job, s)
  }

  /** Only flushed images existed before this run. */
  ghost predicate Settled(dir: Dir) { forall d :: Image(d) in dir ==> dir[Image(d)].flushed }

  lemma StartOk(job: Job)
    requires Settled(job.before)
    ensures Inv(job, Start(job))
  {
  }

  // ------------------------------------------------------------------ steps --

  /** A change to the partial file concerns no image. */
  lemma PartialHarmless(job: Job, dir: Dir, dir': Dir)
    requires Good(job, dir)
    requires forall d :: Image(d) in dir <==> Image(d) in dir'
    requires forall d :: Image(d) in dir ==> dir'[Image(d)] == dir[Image(d)]
    ensures Good(job, dir')
    ensures forall d :: Intact(job, dir, d) ==> Intact(job, dir', d)
  {
  }

  lemma SeenOk(job: Job, s: Writer, dir: Dir)
    requires HistoryOk(job, s) && Good(job, dir)
    ensures HistoryOk(job, Seen(s, dir))
  {
  }

  lemma SyncOk(job: Job, s: Writer)
    requires HistoryOk(job, s)
    ensures HistoryOk(job, Sync(s))
    ensures forall d :: Intact(job, s.dir, d) ==> Intact(job, Sync(s).dir, d)
    ensures TempFile(Sync(s)).Some? ==> TempFile(Sync(s)).value.flushed
  {
    assert Good(job, s.dir);
    forall d | Image(d) in s.dir ensures Flushed(s.dir)[Image(d)] == s.dir[Image(d)] {
    }
    PartialHarmless(job, s.dir, Flushed(s.dir));
  }

  lemma PublishOk(job: Job, s: Writer)
    requires Inv(job, s) && s.pc.Publish? && TempFile(s).Some?
    ensures Inv(job, RunCommand(job, s, true))
  {
    var t := RunCommand(job, s, true);
    assert Good(job, s.dir);
    assert Intact(job, t.dir, job.expected);
    SeenOk(job, s, t.dir);
  }

  lemma SyncCommandOk(job: Job, s: Writer)
    requires Inv(job, s) && (s.pc.SyncFile? || s.pc.SyncDir?)
    ensures Inv(job, RunCommand(job, s, true))
  {
    SyncOk(job, s);
  }

  lemma EarlyCommandOk(job: Job, s: Writer, ok: bool)
    requires Inv(job, s) && Enabled(job, s, Run(ok))
    requires s.pc.CheckTarget? || s.pc.MakeTemp? || s.pc.FirstProgress? || s.pc.SetStarting? || InHandshake(s.pc)
            || s.pc.CheckInterrupted?
    ensures Inv(job, RunCommand(job, s, ok))
  {
  }

  lemma CopyCommandOk(job: Job, s: Writer, ok: bool)
    requires Inv(job, s) && Enabled(job, s, Run(ok))
    requires s.pc.Poll? || s.pc.Wait? || s.pc.ClearPid? || ((s.pc.SyncFile? || s.pc.Publish? || s.pc.SyncDir?) && !ok)
    ensures Inv(job, RunCommand(job, s, ok))
  {
  }

  lemma LateCommandOk(job: Job, s: Writer, ok: bool)
    requires Inv(job, s) && Enabled(job, s, Run(ok))
    requires s.pc.Verify? || s.pc.Chmod? || s.pc.ClearTemp? || s.pc.Prune? || s.pc.WriteStatus?
    ensures Inv(job, RunCommand(job, s, ok))
  {
  }

  lemma CommandOk(job: Job, s: Writer, ok: bool)
    requires Inv(job, s) && Enabled(job, s, Run(ok))
    ensures Inv(job, RunCommand(job, s, ok))
  {
    if s.pc.Publish? && ok {
      PublishOk(job, s);
    } else if (s.pc.SyncFile? || s.pc.SyncDir?) && ok {
      SyncCommandOk(job, s);
    } else if s.pc.Verify? || s.pc.Chmod? || s.pc.ClearTemp? || s.pc.Prune? || s.pc.WriteStatus? {
      LateCommandOk(job, s, ok);
    } else if s.pc.Poll? || s.pc.Wait? || s.pc.ClearPid? || s.pc.SyncFile? || s.pc.Publish? || s.pc.SyncDir? {
      CopyCommandOk(job, s, ok);
    } else {
      EarlyCommandOk(job, s, ok);
    }
  }

  lemma PruneOk(job: Job, s: Writer, digest: string)
    requires Inv(job, s) && Enabled(job, s, PruneOne(digest))
    ensures Inv(job, Do(job, s, PruneOne(digest)))
  {
    var t := Do(job, s, PruneOne(digest));
    assert Intact(job, s.past[|s.past| - 1], job.expected);
    assert Good(job, s.dir);
    assert Intact(job, t.dir, job.expected);
    SeenOk(job, s, t.dir);
  }

  lemma CreateOk(job: Job, s: Writer, n: nat)
    requires Inv(job, s) && Enabled(job, s, CreateTemp(n))
    ensures Inv(job, Do(job, s, CreateTemp(n)))
  {
    var t := Do(job, s, CreateTemp(n));
    assert Good(job, s.dir);
    PartialHarmless(job, s.dir, t.dir);
    SeenOk(job, s, t.dir);
    assert s.temp == None;
    assert Partial(n) !in job.before;
  }

  lemma CopyWritesOk(job: Job, s: Writer, content: string)
    requires Inv(job, s) && Enabled(job, s, CopyWrites(content))
    ensures Inv(job, Do(job, s, CopyWrites(content)))
  {
    var t := Do(job, s, CopyWrites(content));
    assert Good(job, s.dir);
    PartialHarmless(job, s.dir, t.dir);
    if TempFile(s).Some? { SeenOk(job, s, t.dir); }
  }

  lemma CleanUpOk(job: Job, s: Writer, removed: bool)
    requires Inv(job, s) && Enabled(job, s, CleanUp(removed))
    ensures Inv(job, Do(job, s, CleanUp(removed)))
  {
    var t := Do(job, s, CleanUp(removed));
    assert Good(job, s.dir);
    PartialHarmless(job, s.dir, t.dir);
    SeenOk(job, s, t.dir);
  }

  /** A survivor has the images of the directory it comes from. */
  lemma SurvivorOk(job: Job, s: Writer, survivor: Dir)
    requires HistoryOk(job, s) && Survives(s, survivor)
    ensures Good(job, survivor)
    ensures Lasting(job, s) ==> Intact(job, survivor, job.expected)
  {
    var i :| 0 <= i < |s.past| && survivor.Keys == s.past[i].Keys
             && forall n :: n in survivor && s.past[i][n].flushed ==> survivor[n] == s.past[i][n];
    var dir := s.past[i];
    assert Good(job, dir);
    forall d | Image(d) in dir ensures survivor[Image(d)] == dir[Image(d)] {
      assert dir[Image(d)].flushed;
    }
    PartialHarmless(job, dir, survivor);
  }

  lemma PowerLossOk(job: Job, s: Writer, survivor: Dir)
    requires Inv(job, s) && Survives(s, survivor)
    ensures Inv(job, Do(job, s, PowerLoss(survivor)))
  {
    SurvivorOk(job, s, survivor);
  }

  lemma StepOk(job: Job, s: Writer, a: Action)
    requires Inv(job, s) && Enabled(job, s, a)
    ensures Inv(job, Do(job, s, a))
  {
    match a
    case Run(ok) => CommandOk(job, s, ok);
    case CreateTemp(n) => CreateOk(job, s, n);
    case PruneOne(digest) => PruneOk(job, s, digest);
    case Signal(code) =>
    case CopyWrites(content) => CopyWritesOk(job, s, content);
    case CopyEnds(ok) =>
    case CleanUp(removed) => CleanUpOk(job, s, removed);
    case Kill =>
    case PowerLoss(survivor) => PowerLossOk(job, s, survivor);
  }

  lemma {:induction false} RunOk(job: Job, s: Writer, actions: seq<Action>)
    requires Inv(job, s) && Runs(job, s, actions)
    ensures Inv(job, After(job, s, actions))
    decreases |actions|
  {
    if actions != [] {
      StepOk(job, s, actions[0]);
      RunOk(job, Do(job, s, actions[0]), actions[1..]);
    }
  }

  // --------------------------------------------------------------- theorems --

  /**
   Wherever the writer stops - at a failing command, a signal, a kill or a power loss -
   no image it published carries a name its content does not hash to, and if an intact
   image was cached before, one is cached now.
   */
  lemma CacheStaysSafe(job: Job, actions: seq<Action>)
    requires Settled(job.before) && Runs(job, Start(job), actions)
    ensures var dir := After(job, Start(job), actions).dir;
            && (forall d :: Image(d) in dir && !(Image(d) in job.before && dir[Image(d)] == job.before[Image(d)]) ==>
                Intact(job, dir, d))
            && ((exists d :: Intact(job, job.before, d)) ==> exists d :: Intact(job, dir, d))
  {
    StartOk(job);
    RunOk(job, Start(job), actions);
    var s := After(job, Start(job), actions);
    assert Good(job, s.dir);
    if d :| Intact(job, job.before, d) {
      assert Intact(job, s.dir, d) || Intact(job, s.dir, job.expected);
    }
  }

  /** A save that reports success has left the requested image, intact and safe from power loss. */
  lemma SuccessMeansCached(job: Job, actions: seq<Action>)
    requires Settled(job.before) && Runs(job, Start(job), actions)
    requires After(job, Start(job), actions).pc == Done(0)
    ensures var s := After(job, Start(job), actions);
            && Intact(job, s.dir, job.expected)
            && forall survivor :: Survives(s, survivor) ==> Intact(job, survivor, job.expected)
  {
    StartOk(job);
    RunOk(job, Start(job), actions);
    var s := After(job, Start(job), actions);
    forall survivor | Survives(s, survivor) ensures Intact(job, survivor, job.expected) {
      SurvivorOk(job, s, survivor);
    }
    assert s.dir == s.past[|s.past| - 1];
  }

  lemma {:induction false} AfterSnoc(job: Job, s: Writer, actions: seq<Action>, a: Action)
    requires Runs(job, s, actions + [a])
    ensures Runs(job, s, actions) && Enabled(job, After(job, s, actions), a)
    ensures After(job, s, actions + [a]) == Do(job, After(job, s, actions), a)
    decreases |actions|
  {
    if actions == [] {
      assert (actions + [a])[1..] == [];
    } else {
      assert (actions + [a])[1..] == actions[1..] + [a];
      AfterSnoc(job, Do(job, s, actions[0]), actions[1..], a);
    }
  }

  /**
   However the shell comes to exit, signals around the fork included, its cleanup ends
   with the copy killed and reaped and no partial file of this run left behind.
   */
  lemma ExitLeavesNothingBehind(job: Job, actions: seq<Action>)
    requires Settled(job.before) && Runs(job, Start(job), actions + [CleanUp(true)])
    ensures var s := After(job, Start(job), actions + [CleanUp(true)]);
            s.child == NoChild && forall n: nat :: Partial(n) in s.dir ==> Partial(n) in job.before
  {
    AfterSnoc(job, Start(job), actions, CleanUp(true));
    StartOk(job);
    RunOk(job, Start(job), actions);
  }

  /** Between the fork and the recording of the pid a signal cannot make the shell exit. */
  lemma SignalWaitsForPid(job: Job, actions: seq<Action>, code: nat)
    requires Settled(job.before) && Runs(job, Start(job), actions) && code > 0
    requires After(job, Start(job), actions).pc.RecordPid?
    ensures var s := Do(job, After(job, Start(job), actions), Signal(code));
            Alive(s) && s.interrupted == code
            && Do(job, Do(job, Do(job, s, Run(true)), Run(true)), Run(true)).pc == Exiting(code)
  {
    StartOk(job);
    RunOk(job, Start(job), actions);
  }

  /** At every other point it ends the run with the signal's code. */
  lemma SignalExits(job: Job, actions: seq<Action>, code: nat)
    requires Settled(job.before) && Runs(job, Start(job), actions) && code > 0
    requires Alive(After(job, Start(job), actions))
    ensures var before, s := After(job, Start(job), actions), Do(job, After(job, Start(job), actions), Signal(code));
            && (InHandshake(before.pc) ==> s.pc == before.pc && s.interrupted == code)
            && (!InHandshake(before.pc) ==>
                  s.pc == Exiting(code) && forall removed :: Do(job, s, CleanUp(removed)).pc == Done(code))
  {
    StartOk(job);
    RunOk(job, Start(job), actions);
  }

  /** Which commands end the run with exit 1 when they fail: all but the first look and the pruning. */
  predicate Guarded(pc: Pc) {
    || pc.MakeTemp? || pc.FirstProgress? || pc.Poll? || pc.SyncFile? || pc.Verify? || pc.Chmod? || pc.Publish?
    || pc.SyncDir? || pc.WriteStatus?
  }

  lemma FailingCommandExits(job: Job, s: Writer)
    requires Enabled(job, s, Run(false)) && Guarded(s.pc)
    ensures Do(job, s, Run(false)) == s.(pc := Exiting(1))
    ensures Do(job, s.(pc := Exiting(1)), CleanUp(false)).pc == Done(1)
  {
  }

  /** A copy that failed, or that is not the requested image, is never published. */
  lemma BadCopyExits(job: Job, s: Writer)
    requires Enabled(job, s, Run(true))
    ensures s.pc.Wait? && s.child == Exited(false) ==> Do(job, s, Run(true)).pc == Exiting(1)
    ensures s.pc.Verify? && job.hash(TempFile(s).value.content) != job.expected ==>
              Do(job, s, Run(true)) == s.(pc := Exiting(1))
  {
  }

  /** The run goes on from a found image, and no machine crash brings an older directory back. */
  predicate NothingLost(actions: seq<Action>) { forall i :: 0 <= i < |actions| ==> !actions[i].PowerLoss? }

  lemma {:induction false} FoundStays(job: Job, s: Writer, actions: seq<Action>)
    requires Runs(job, s, actions) && NothingLost(actions)
    requires s.pc.WriteStatus? || s.pc.Exiting? || s.pc.Done? || s.pc.Gone?
    requires s.temp == None && s.child == NoChild && !s.pid && !s.starting
    ensures After(job, s, actions).dir == s.dir && After(job, s, actions).child == NoChild
    decreases |actions|
  {
    if actions != [] {
      FoundStays(job, Do(job, s, actions[0]), actions[1..]);
    }
  }

  /** An image that is already there, and can be hashed, is neither copied again nor touched. */
  lemma AlreadyCached(job: Job, actions: seq<Action>)
    requires Intact(job, job.before, job.expected) && NothingLost(actions)
    requires Runs(job, Start(job), [Run(true)] + actions)
    ensures After(job, Start(job), [Run(true)] + actions).dir == job.before
    ensures Do(job, Start(job), Run(true)).pc.WriteStatus?
  {
    assert ([Run(true)] + actions)[1..] == actions;
    FoundStays(job, Do(job, Start(job), Run(true)), actions);
  }

  // -------------------------------------------------------- fault-free runs --

  /** Nothing goes wrong in this step: the copy ends only when it has written all of `content`. */
  predicate FaultFree(s: Writer, a: Action, content: string) {
    match a
    case Run(ok) => ok
    case CreateTemp(_) => true
    case PruneOne(_) => true
    case Signal(_) => false
    case CopyWrites(_) => true
    case CopyEnds(ok) => ok && Copied(s, content)
    case CleanUp(removed) => removed
    case Kill => false
    case PowerLoss(_) => false
  }

  predicate Copied(s: Writer, content: string) { TempFile(s).Some? && TempFile(s).value.content == content }

  predicate FaultFreeRun(job: Job, s: Writer, actions: seq<Action>, content: string)
    decreases |actions|
  {
    actions == [] ||
    (Enabled(job, s, actions[0]) && FaultFree(s, actions[0], content)
     && FaultFreeRun(job, Do(job, s, actions[0]), actions[1..], content))
  }

  /** The partial file exists, and after the copy it is complete. */
  predicate Copying(pc: Pc) {
    pc.FirstProgress? || pc.SetStarting? || pc.Fork? || InHandshake(pc) || pc.CheckInterrupted? || pc.Poll? || pc.Wait?
  }

  predicate CopyDone(pc: Pc) { pc.ClearPid? || pc.SyncFile? || pc.Verify? || pc.Chmod? || pc.Publish? }

  /** What a run without faults is sure of at each point. */
  ghost predicate Smooth(s: Writer, content: string) {
    && s.interrupted == 0 && !s.pc.Gone?
    && (s.pc.Exiting? || s.pc.Done? ==> s.pc.code == 0)
    && (Copying(s.pc) ==> TempFile(s).Some?)
    && (CopyDone(s.pc) ==> Copied(s, content))
    && (s.child.Exited? ==> s.child.ok && Copied(s, content))
    && (s.pc.RecordPid? || s.pc.ClearStarting? || s.pc.CheckInterrupted? || s.pc.Poll? ==> !s.child.NoChild?)
    && (s.pc.Wait? ==> s.child.Exited?)
    && (s.pc.Exiting? ==> s.child.NoChild?)
  }

  lemma SmoothEarly(job: Job, s: Writer, content: string)
    requires Inv(job, s) && Smooth(s, content) && Enabled(job, s, Run(true))
    requires s.pc.CheckTarget? || Copying(s.pc)
    ensures Smooth(RunCommand(job, s, true), content)
  {
  }

  lemma SmoothLate(job: Job, s: Writer, content: string)
    requires Inv(job, s) && Smooth(s, content) && Enabled(job, s, Run(true)) && job.hash(content) == job.expected
    requires !s.pc.CheckTarget? && !Copying(s.pc)
    ensures Smooth(RunCommand(job, s, true), content)
  {
  }

  lemma SmoothStep(job: Job, s: Writer, a: Action, content: string)
    requires Inv(job, s) && Smooth(s, content) && job.hash(content) == job.expected
    requires Enabled(job, s, a) && FaultFree(s, a, content)
    ensures Smooth(Do(job, s, a), content)
  {
    if a.Run? {
      if s.pc.CheckTarget? || Copying(s.pc) { SmoothEarly(job, s, content); } else { SmoothLate(job, s, content); }
    }
  }

  lemma {:induction false} SmoothRun(job: Job, s: Writer, actions: seq<Action>, content: string)
    requires Inv(job, s) && Smooth(s, content) && job.hash(content) == job.expected
    requires FaultFreeRun(job, s, actions, content)
    ensures Runs(job, s, actions) && Inv(job, After(job, s, actions)) && Smooth(After(job, s, actions), content)
    decreases |actions|
  {
    if actions != [] {
      StepOk(job, s, actions[0]);
      SmoothStep(job, s, actions[0], content);
      SmoothRun(job, Do(job, s, actions[0]), actions[1..], content);
    }
  }

  /** There is always a free name for a temporary file. */
  lemma FreshName(names: set<Name>) returns (n: nat)
    ensures forall m :: m >= n ==> Partial(m) !in names
  {
    if names == {} {
      n := 0;
    } else {
      var name :| name in names;
      n := FreshName(names - {name});
      if name.Partial? && name.n >= n { n := name.n + 1; }
    }
  }

  /** How many commands are still to come. */
  function Remaining(pc: Pc): nat {
    match pc
    case CheckTarget => 20
    case MakeTemp => 19
    case FirstProgress => 18
    case SetStarting => 17
    case Fork => 16
    case RecordPid => 15
    case ClearStarting => 14
    case CheckInterrupted => 13
    case Poll => 12
    case Wait => 11
    case ClearPid => 10
    case SyncFile => 9
    case Verify => 8
    case Chmod => 7
    case Publish => 6
    case ClearTemp => 5
    case SyncDir => 4
    case Prune => 3
    case WriteStatus => 2
    case Exiting(_) => 1
    case Done(_) => 0
    case Gone => 0
  }

  function CopyRemaining(s: Writer, content: string): nat {
    if !s.child.Running? then 0 else if Copied(s, content) then 1 else 2
  }

  /** What to do next without a fault: let the copy finish when polling, else run the next command. */
  function Choice(s: Writer, content: string, unused: nat): Action {
    if s.pc.MakeTemp? then CreateTemp(unused)
    else if s.pc.Exiting? then CleanUp(true)
    else if s.pc.Poll? && s.child.Running? then if Copied(s, content) then CopyEnds(true) else CopyWrites(content)
    else Run(true)
  }

  lemma ChoiceWorks(job: Job, s: Writer, content: string, unused: nat)
    requires Inv(job, s) && Smooth(s, content) && job.hash(content) == job.expected && !s.pc.Done?
    requires Partial(unused) !in s.dir
    ensures Enabled(job, s, Choice(s, content, unused)) && FaultFree(s, Choice(s, content, unused), content)
  {
  }

  lemma CommandProgresses(job: Job, s: Writer, content: string)
    requires Smooth(s, content) && job.hash(content) == job.expected && Enabled(job, s, Run(true))
    requires s.pc.Poll? ==> !s.child.Running?
    ensures Remaining(RunCommand(job, s, true).pc) < Remaining(s.pc)
  {
  }

  lemma ChoiceProgresses(job: Job, s: Writer, content: string, unused: nat)
    requires Smooth(s, content) && job.hash(content) == job.expected && !s.pc.Done?
    requires Enabled(job, s, Choice(s, content, unused))
    ensures var t := Do(job, s, Choice(s, content, unused));
            || Remaining(t.pc) < Remaining(s.pc)
            || (t.pc == s.pc && CopyRemaining(t, content) < CopyRemaining(s, content))
  {
    if Choice(s, content, unused) == Run(true) { CommandProgresses(job, s, content); }
  }

  lemma Completes(job: Job, s: Writer, content: string) returns (more: seq<Action>)
    requires Inv(job, s) && Smooth(s, content) && job.hash(content) == job.expected
    ensures FaultFreeRun(job, s, more, content) && Runs(job, s, more) && After(job, s, more).pc == Done(0)
    decreases Remaining(s.pc), CopyRemaining(s, content)
  {
    if s.pc.Done? {
      more := [];
    } else {
      var unused := FreshName(s.dir.Keys);
      var a := Choice(s, content, unused);
      ChoiceWorks(job, s, content, unused);
      ChoiceProgresses(job, s, content, unused);
      StepOk(job, s, a);
      SmoothStep(job, s, a, content);
      var rest := Completes(job, Do(job, s, a), content);
      more := [a] + rest;
    }
  }

  /**
   Every run in which nothing fails ends well: it never reports failure, once it is through
   the image is in place, and from wherever it has got it can be brought to that end.
   */
  lemma SaveCompletes(job: Job, actions: seq<Action>, content: string) returns (more: seq<Action>)
    requires Settled(job.before) && job.hash(content) == job.expected && FaultFreeRun(job, Start(job), actions, content)
    ensures Runs(job, Start(job), actions)
    ensures var s := After(job, Start(job), actions);
            && (s.pc.Exiting? || s.pc.Done? ==> s.pc.code == 0)
            && (s.pc.Done? ==> Intact(job, s.dir, job.expected))
            && FaultFreeRun(job, s, more, content) && Runs(job, s, more)
            && After(job, s, more).pc == Done(0) && Intact(job, After(job, s, more).dir, job.expected)
  {
    StartOk(job);
    SmoothRun(job, Start(job), actions, content);
    var s := After(job, Start(job), actions);
    more := Completes(job, s, content);
    SmoothRun(job, s, more, content);
    var t := After(job, s, more);
    assert s.dir == s.past[|s.past| - 1] && t.dir == t.past[|t.past| - 1];
  }
}
