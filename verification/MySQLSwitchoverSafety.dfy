// Safety of the planned MySQL switchover over every sequence of runs: one writer, nothing lost, and
// no writer left behind by a run that fails after opening the target.
module MySQLSwitchoverSafety {
  import opened MySQLMembers
  import opened MySQLSwitchover

  // What the executor may rely on at a call of the fencing phase.
  predicate FenceKnows(call: FenceCall, w: World, position: set<Txn>) {
    match call
    case Lease(fenced) => fenced ==> SourceClosed(w)
    case RecordLease(fenced) => fenced ==> SourceClosed(w)
    case FenceSuper => true
    case FenceRecheck => true
    case FenceReadOnly => SourceClosed(w)
    case RecordFence => SourceClosed(w)
    case Capture => SourceClosed(w)
    case RecordCapture => SourceClosed(w) && w.owed <= (if w.everWritable then w.dstGtid else position)
    case Wait => SourceClosed(w) && w.owed <= (if w.everWritable then w.dstGtid else position)
    case RecordWait => Paid(w)
  }

  // What it may rely on anywhere.
  predicate Knows(s: State) {
    match s.pc
    case Idle => true
    case Exit(_) => true
    case Pre(_) => true
    case Fencing(call) => FenceKnows(call, s.w, s.position)
    case Promoting(_) => Paid(s.w)
    case Following(_) => Paid(s.w)
    case Publishing(_) => Paid(s.w)
    case Restore(_) => Paid(s.w)
    case Refence(k, _) => Paid(s.w) && (k > 1 ==> s.w.dst.readOnly)
  }

  ghost predicate Inv(c: Config, s: State) {
    && Roles(c, s.w) && !s.w.isolated
    && s.w.owed <= (if s.w.everWritable then s.w.dstGtid else s.w.srcGtid)
    && Knows(s)
  }

  lemma FenceKeepsInv(c: Config, s: State, call: FenceCall, reply: Reply)
    requires Inv(c, s) && s.pc == Fencing(call)
    ensures Inv(c, NextFence(c, s, call, reply))
  {
    match call
    case FenceSuper => ExecKeepsRoles(c, s.w, SuperReadOnlyOn, c.source, c.target, reply);
    case FenceReadOnly => ExecKeepsRoles(c, s.w, ReadOnlyOn, c.source, c.target, reply);
    case _ =>
  }

  lemma PromoteKeepsInv(c: Config, s: State, call: PromoteCall, reply: Reply)
    requires Inv(c, s) && s.pc == Promoting(call)
    ensures Inv(c, NextPromote(c, s, call, reply))
  {
    match call
    case StopReplication => ExecKeepsRoles(c, s.w, Plain, c.target, c.source, reply);
    case ResetTarget => ExecKeepsRoles(c, s.w, ResetReplication, c.target, c.source, reply);
    case OpenTarget => ExecKeepsRoles(c, s.w, ReadOnlyOff, c.target, c.source, reply);
    case _ =>
  }

  lemma FollowKeepsInv(c: Config, s: State, call: FollowCall, reply: Reply)
    requires Followers(c) && Inv(c, s) && s.pc == Following(call)
    ensures Inv(c, NextFollow(c, s, call, reply))
  {
    if call.ReparentFollower? && call.i < |c.followers| {
      ReparentKeepsRoles(c, s.w, c.followers[call.i], c.target, call.k, reply);
    }
  }

  lemma PreKeepsInv(c: Config, s: State, call: PreCall, reply: Reply)
    requires Inv(c, s) && s.pc == Pre(call)
    ensures Inv(c, NextPre(c, s, call, reply))
  {}

  lemma PublishKeepsInv(c: Config, s: State, call: PublishCall, reply: Reply)
    requires Inv(c, s) && s.pc == Publishing(call)
    ensures Inv(c, NextPublish(c, s, call, reply))
  {}

  lemma RestoreKeepsInv(c: Config, s: State, k: nat, reply: Reply)
    requires Inv(c, s) && s.pc == Restore(k)
    ensures Inv(c, NextRestore(c, s, k, reply))
  {
    if k > 0 {
      ReparentKeepsRoles(c, s.w, c.target, c.source, k - 1, reply);
    }
  }

  lemma RefenceKeepsInv(c: Config, s: State, k: nat, ifFenced: Class, reply: Reply)
    requires Inv(c, s) && s.pc == Refence(k, ifFenced)
    ensures Inv(c, NextRefence(c, s, k, ifFenced, reply))
  {
    RefenceCloses(c, s.w, k, reply);
  }

  lemma NextKeepsInv(c: Config, s: State, reply: Reply)
    requires Followers(c) && Inv(c, s)
    ensures Inv(c, Next(c, s, reply))
  {
    match s.pc
    case Idle =>
    case Exit(_) =>
    case Pre(call) => PreKeepsInv(c, s, call, reply);
    case Fencing(call) => FenceKeepsInv(c, s, call, reply);
    case Promoting(call) => PromoteKeepsInv(c, s, call, reply);
    case Following(call) => FollowKeepsInv(c, s, call, reply);
    case Publishing(call) => PublishKeepsInv(c, s, call, reply);
    case Restore(k) => RestoreKeepsInv(c, s, k, reply);
    case Refence(k, ifFenced) => RefenceKeepsInv(c, s, k, ifFenced, reply);
  }

  lemma HappenKeepsInv(c: Config, s: State, e: Event)
    requires Followers(c) && Inv(c, s)
    ensures Inv(c, Happen(c, s, e))
  {
    match e
    case Answer(reply) => NextKeepsInv(c, s, reply);
    case Environment(next, _) =>
      if EnvStep(s.w, next) {
        EnvKeepsRoles(c, s.w, next);
      }
    case _ =>
  }

  // Where an operation starts: nothing recorded, at most the source open, no replica of the cluster
  // open, and everything acknowledged so far executed by the source.
  ghost predicate Start(c: Config, s: State) {
    && Roles(c, s.w) && !s.w.isolated && !s.w.everWritable
    && s.w.done == {} && s.w.owed <= s.w.srcGtid && s.pc == Idle
  }

  lemma {:induction false} AfterKeepsInv(c: Config, s: State, events: seq<Event>)
    requires Followers(c) && Start(c, s)
    ensures Inv(c, After(c, s, events))
  {
    if events != [] {
      AfterKeepsInv(c, s, events[..|events| - 1]);
      HappenKeepsInv(c, After(c, s, events[..|events| - 1]), events[|events| - 1]);
    }
  }

  // Over every sequence of runs, crashes, lost and half-lost commands and resumes, at most one
  // member accepts writes, the target only while the source has both read-only flags on, and then
  // the target has executed everything the source had executed when its fence took effect and
  // everything acknowledged to a client.
  lemma {:induction false} SwitchoverIsSafe(c: Config, s: State, events: seq<Event>)
    requires Followers(c) && Start(c, s)
    ensures var w := After(c, s, events).w;
            SingleWriter(c, w) && NothingLost(w) && (CanWrite(c, w, c.target) ==> Full(w.src))
  {
    AfterKeepsInv(c, s, events);
    RolesGiveSingleWriter(c, After(c, s, events).w);
  }

  // How far the run is, by where it stands.
  predicate Stage(s: State) {
    match s.pc
    case Idle => true
    case Exit(out) =>
      && (out.Failed? && s.run.enabled && !s.run.finalized ==>
         SourceClosed(s.w) && (s.w.dst.readOnly || s.run.fenceLost))
      && (out == Completed ==> s.run.finalized)
    case Pre(_) => !s.run.enabled && !s.run.finalized
    case Fencing(_) => !s.run.enabled && !s.run.finalized
    case Promoting(call) => !s.run.finalized
      && (s.run.enabled ==> call.OpenTarget? || call.ProbeOpened? || call.RecordPromote?)
    case Following(_) => !s.run.finalized
    case Publishing(call) => call.RecordTransfer? || call.RecordRetain? <==> s.run.finalized
    case Restore(_) => !s.run.enabled
    case Refence(_, _) => true
  }

  // Where a call may lead, as far as the stage of the run is concerned.
  lemma EarlyKeepsStage(c: Config, s: State, reply: Reply)
    requires Stage(s) && (s.pc.Pre? || s.pc.Fencing? || s.pc.Promoting? || s.pc.Restore?)
    ensures Stage(Next(c, s, reply).(run := Remember(c, s, reply)))
  {}

  lemma LateKeepsStage(c: Config, s: State, reply: Reply)
    requires Stage(s) && (s.pc.Following? || s.pc.Publishing?)
    ensures Stage(Next(c, s, reply).(run := Remember(c, s, reply)))
  {}

  lemma RefenceKeepsStage(c: Config, s: State, k: nat, ifFenced: Class, reply: Reply)
    requires Inv(c, s) && Stage(s) && s.pc == Refence(k, ifFenced)
    ensures Stage(NextRefence(c, s, k, ifFenced, reply).(run := Remember(c, s, reply)))
  {
    RefenceCloses(c, s.w, k, reply);
  }

  lemma HappenKeepsStage(c: Config, s: State, e: Event)
    requires Inv(c, s) && Stage(s)
    ensures Stage(Happen(c, s, e))
  {
    if e.Answer? && !s.pc.Idle? && !s.pc.Exit? {
      if s.pc.Refence? {
        RefenceKeepsStage(c, s, s.pc.k, s.pc.ifFenced, e.reply);
      } else if s.pc.Following? || s.pc.Publishing? {
        LateKeepsStage(c, s, e.reply);
      } else {
        EarlyKeepsStage(c, s, e.reply);
      }
    }
  }

  lemma {:induction false} AfterKeepsStage(c: Config, s: State, events: seq<Event>)
    requires Followers(c) && Start(c, s)
    ensures Stage(After(c, s, events))
  {
    if events != [] {
      AfterKeepsStage(c, s, events[..|events| - 1]);
      AfterKeepsInv(c, s, events[..|events| - 1]);
      HappenKeepsStage(c, After(c, s, events[..|events| - 1]), events[|events| - 1]);
    }
  }

  // A run that fails after it was about to open the target and before its lease is finalized leaves
  // no member writable, unless its re-fence command was lost without effect.
  lemma {:induction false} NoWriterLeft(c: Config, s: State, events: seq<Event>, n: Id)
    requires Followers(c) && Start(c, s) && Known(c, n)
    requires var t := After(c, s, events); t.pc.Exit? && t.pc.out.Failed? && t.run.enabled && !t.run.finalized
    ensures var t := After(c, s, events); t.run.fenceLost || !CanWrite(c, t.w, n)
  {
    AfterKeepsInv(c, s, events);
    AfterKeepsStage(c, s, events);
  }
}
