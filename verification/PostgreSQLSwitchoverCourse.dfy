// The course of a planned PostgreSQL switchover run: every call comes after the calls it depends on, the
// first failing call ends the course, and the reported class and what is undone follow from where that
// was.
module PostgreSQLSwitchoverCourse {
  import opened PostgreSQLMembers
  import opened PostgreSQLSwitchover
  import opened PostgreSQLSwitchoverSafety
  import opened PostgreSQLSwitchoverOutcome

  // ---- What must have succeeded before ----

  predicate PreNeeds(c: Config, call: PreCall, p: set<Pc>) {
    match call
    case CheckDone(i) => i <= |c.plan| && (i > 0 ==> Pre(CheckDone(i - 1)) in p)
    case VerifyCompleted => Pre(CheckDone(|c.plan|)) in p
    case ReconcileEndpoint(k) =>
      && k <= 6
      && (if k == 0 then Pre(CheckDone(|c.plan|)) in p
          else if k == 4 then Pre(ReconcileEndpoint(2)) in p
          else if k == 6 then Pre(ReconcileEndpoint(3)) in p || Pre(ReconcileEndpoint(5)) in p
          else Pre(ReconcileEndpoint(k - 1)) in p)
    case LivePrecheck => true
    case Lease => Pre(LivePrecheck) in p
    case LeaseActive => Pre(Lease) in p
    case RecordLease => Pre(LeaseActive) in p
  }

  predicate FenceNeeds(call: FenceCall, p: set<Pc>) {
    match call
    case ReadFence => Pre(RecordLease) in p
    case FenceStatement(k) => k <= 2 && (if k == 0 then Fencing(ReadFence) else Fencing(FenceStatement(k - 1))) in p
    case RecordFence => Fencing(FenceStatement(2)) in p
    case ReadCapture => Fencing(RecordFence) in p || Fencing(ReadFence) in p
    case Capture => Fencing(ReadCapture) in p
    case RecordCapture => Fencing(Capture) in p
  }

  // The target is promoted after a proof, in the same run, that the source is stopped and that the target
  // is a standby which has replayed the position.
  predicate StopNeeds(call: StopCall, p: set<Pc>) {
    match call
    case ReadStop => Fencing(RecordCapture) in p || Fencing(ReadCapture) in p
    case StopServer => Stopping(ReadStop) in p
    case RecheckStopped => true
    case RecordStop => Stopping(StopServer) in p
    case ProbeStopped => Stopping(RecordStop) in p || Stopping(ReadStop) in p
    case RecordStopped => Stopping(ProbeStopped) in p
    case Wait => Stopping(RecordStopped) in p
    case RecordWait => Stopping(Wait) in p
    case ReadPromoted => Stopping(RecordWait) in p
    case ProbeStandby => Stopping(ReadPromoted) in p
    case Promote => Stopping(ProbeStandby) in p
    case RecordPromote => Stopping(Promote) in p
  }

  predicate PublishNeeds(call: PublishCall, p: set<Pc>) {
    match call
    case ProbePrimary => Stopping(RecordPromote) in p || Stopping(ReadPromoted) in p
    case ReadActivated => Publishing(ProbePrimary) in p
    case Activate(k) => k <= 1 && (if k == 0 then Publishing(ReadActivated) else Publishing(Activate(0))) in p
    case RecordActivated => Publishing(Activate(1)) in p
    case ReadTransferred => Publishing(RecordActivated) in p || Publishing(ReadActivated) in p
    case VerifyEndpoint => Publishing(ReadTransferred) in p
    case Transfer => Publishing(ReadTransferred) in p
    case VerifyTransfer => Publishing(Transfer) in p
    case RecordTransfer => Publishing(VerifyEndpoint) in p || Publishing(VerifyTransfer) in p
    case Finalize =>
      Publishing(RecordTransfer) in p || Publishing(VerifyEndpoint) in p || Publishing(VerifyTransfer) in p
  }

  predicate FollowNeeds(c: Config, call: FollowCall, p: set<Pc>) {
    match call
    case ReadFollower(i) =>
      && i <= |c.followers|
      && (if i == 0 then Publishing(Finalize) in p
          else Following(ReadFollower(i - 1)) in p || Following(RecordFollower(i - 1)) in p)
    case RepointFollower(i) => i < |c.followers| && Following(ReadFollower(i)) in p
    case RecordFollower(i) => i < |c.followers| && Following(RepointFollower(i)) in p
    case ReadRewound => Following(ReadFollower(|c.followers|)) in p
    case Rewind => Following(ReadRewound) in p
    case BaseBackup => Following(ReadRewound) in p
    case RecordRewound => Following(Rewind) in p || Following(BaseBackup) in p
  }

  // The calls that must have succeeded in this run before the given one.
  predicate Needs(c: Config, pc: Pc, p: set<Pc>) {
    match pc
    case Pre(call) => PreNeeds(c, call, p)
    case Fencing(call) => FenceNeeds(call, p)
    case Stopping(call) => StopNeeds(call, p)
    case Publishing(call) => PublishNeeds(call, p)
    case Following(call) => FollowNeeds(c, call, p)
    case Exit(out) =>
      && (out == Completed ==> Following(RecordRewound) in p || Following(ReadRewound) in p)
      && (out == AlreadyCompleted ==> Pre(VerifyCompleted) in p)
      && (out == Reconciled ==> Pre(ReconcileEndpoint(6)) in p)
    case _ => true
  }

  lemma NeedsGrow(c: Config, pc: Pc, p: set<Pc>, q: set<Pc>)
    requires p <= q
    ensures Needs(c, pc, p) ==> Needs(c, pc, q)
  {}

  // Calls that act on a server or the endpoint of a running operation, or record that.
  predicate Acts(pc: Pc) {
    pc.Fencing? || pc.Stopping? || pc.Publishing? || pc.Following? || pc.Abort? || pc.Rollback?
  }

  // The transition lease was obtained, found active and recorded.
  predicate Authorized(p: set<Pc>) {
    Pre(LeaseActive) in p && Pre(RecordLease) in p
  }

  // The run has failed.
  predicate Over(pc: Pc) {
    !Main(pc) && (pc.Exit? ==> pc.out.Failed?)
  }

  // Once `call` has succeeded, `check` comes next, unless the run has failed.
  predicate Checked(p: set<Pc>, pc: Pc, call: Pc, check: Pc) {
    call in p && check !in p ==> pc == check || Over(pc)
  }

  // A transfer is verified before anything else happens.
  predicate TransferChecked(p: set<Pc>, pc: Pc) {
    && Checked(p, pc, Publishing(Transfer), Publishing(VerifyTransfer))
    && Checked(p, pc, Pre(ReconcileEndpoint(4)), Pre(ReconcileEndpoint(5)))
  }

  ghost predicate Ordered(c: Config, s: State) {
    s.pc.Idle? ||
    (&& Needs(c, s.pc, s.run.passed)
     && (forall x | x in s.run.passed :: Needs(c, x, s.run.passed))
     && (Acts(s.pc) ==> Authorized(s.run.passed))
     && TransferChecked(s.run.passed, s.pc))
  }

  predicate ChecksNext(pc: Pc, next: Pc, call: Pc, check: Pc, reply: Reply) {
    (pc == call && reply == Ok ==> next == check || Over(next)) && (pc == check && reply != Ok ==> Over(next))
  }

  // What one answered call has to establish.
  predicate GoesOn(c: Config, s: State, t: State, reply: Reply) {
    var q := Passing(c, s, reply);
    && Needs(c, t.pc, q)
    && (Acts(t.pc) ==> Acts(s.pc) || Authorized(q))
    && ChecksNext(s.pc, t.pc, Publishing(Transfer), Publishing(VerifyTransfer), reply)
    && ChecksNext(s.pc, t.pc, Pre(ReconcileEndpoint(4)), Pre(ReconcileEndpoint(5)), reply)
    && (!Main(s.pc) ==> Over(t.pc))
  }

  lemma ReconcileIsOrdered(c: Config, s: State, k: nat, reply: Reply)
    requires s.pc == Pre(ReconcileEndpoint(k)) && Needs(c, s.pc, s.run.passed)
    ensures GoesOn(c, s, NextReconcile(s, k, reply), reply)
  {}

  lemma CheckIsOrdered(c: Config, s: State, call: PreCall, reply: Reply)
    requires s.pc == Pre(call) && Needs(c, s.pc, s.run.passed) && (call.CheckDone? || call.VerifyCompleted?)
    ensures GoesOn(c, s, NextPre(c, s, call, reply), reply)
  {}

  lemma LeaseIsOrdered(c: Config, s: State, call: PreCall, reply: Reply)
    requires s.pc == Pre(call) && Needs(c, s.pc, s.run.passed)
    requires call.LivePrecheck? || call.Lease? || call.LeaseActive? || call.RecordLease?
    ensures GoesOn(c, s, NextPre(c, s, call, reply), reply)
  {}

  lemma PreIsOrdered(c: Config, s: State, call: PreCall, reply: Reply)
    requires s.pc == Pre(call) && Needs(c, s.pc, s.run.passed)
    ensures GoesOn(c, s, NextPre(c, s, call, reply), reply)
  {
    if call.ReconcileEndpoint? {
      ReconcileIsOrdered(c, s, call.k, reply);
    } else if call.CheckDone? || call.VerifyCompleted? {
      CheckIsOrdered(c, s, call, reply);
    } else {
      LeaseIsOrdered(c, s, call, reply);
    }
  }

  lemma ClosingIsOrdered(c: Config, s: State, call: FenceCall, reply: Reply)
    requires s.pc == Fencing(call) && Needs(c, s.pc, s.run.passed)
    requires call.ReadFence? || call.FenceStatement? || call.RecordFence?
    ensures GoesOn(c, s, NextFence(c, s, call, reply), reply)
  {}

  lemma CapturingIsOrdered(c: Config, s: State, call: FenceCall, reply: Reply)
    requires s.pc == Fencing(call) && Needs(c, s.pc, s.run.passed)
    requires !(call.ReadFence? || call.FenceStatement? || call.RecordFence?)
    ensures GoesOn(c, s, NextFence(c, s, call, reply), reply)
  {}

  lemma FenceIsOrdered(c: Config, s: State, call: FenceCall, reply: Reply)
    requires s.pc == Fencing(call) && Needs(c, s.pc, s.run.passed)
    ensures GoesOn(c, s, NextFence(c, s, call, reply), reply)
  {
    if call.ReadFence? || call.FenceStatement? || call.RecordFence? {
      ClosingIsOrdered(c, s, call, reply);
    } else {
      CapturingIsOrdered(c, s, call, reply);
    }
  }

  lemma StoppingIsOrdered(c: Config, s: State, call: StopCall, reply: Reply)
    requires s.pc == Stopping(call) && Needs(c, s.pc, s.run.passed)
    requires call.ReadStop? || call.StopServer? || call.RecheckStopped? || call.RecordStop? || call.ProbeStopped?
    ensures GoesOn(c, s, NextStop(c, s, call, reply), reply)
  {}

  lemma WaitingIsOrdered(c: Config, s: State, call: StopCall, reply: Reply)
    requires s.pc == Stopping(call) && Needs(c, s.pc, s.run.passed)
    requires !(call.ReadStop? || call.StopServer? || call.RecheckStopped? || call.RecordStop? || call.ProbeStopped?)
    ensures GoesOn(c, s, NextStop(c, s, call, reply), reply)
  {}

  lemma StopIsOrdered(c: Config, s: State, call: StopCall, reply: Reply)
    requires s.pc == Stopping(call) && Needs(c, s.pc, s.run.passed)
    ensures GoesOn(c, s, NextStop(c, s, call, reply), reply)
  {
    if call.ReadStop? || call.StopServer? || call.RecheckStopped? || call.RecordStop? || call.ProbeStopped? {
      StoppingIsOrdered(c, s, call, reply);
    } else {
      WaitingIsOrdered(c, s, call, reply);
    }
  }

  lemma ActivatingIsOrdered(c: Config, s: State, call: PublishCall, reply: Reply)
    requires s.pc == Publishing(call) && Needs(c, s.pc, s.run.passed)
    requires call.ProbePrimary? || call.ReadActivated? || call.Activate? || call.RecordActivated?
    ensures GoesOn(c, s, NextPublish(c, s, call, reply), reply)
  {}

  lemma TransferIsOrdered(c: Config, s: State, call: PublishCall, reply: Reply)
    requires s.pc == Publishing(call) && Needs(c, s.pc, s.run.passed)
    requires !(call.ProbePrimary? || call.ReadActivated? || call.Activate? || call.RecordActivated?)
    ensures GoesOn(c, s, NextPublish(c, s, call, reply), reply)
  {}

  lemma PublishIsOrdered(c: Config, s: State, call: PublishCall, reply: Reply)
    requires s.pc == Publishing(call) && Needs(c, s.pc, s.run.passed)
    ensures GoesOn(c, s, NextPublish(c, s, call, reply), reply)
  {
    if call.ProbePrimary? || call.ReadActivated? || call.Activate? || call.RecordActivated? {
      ActivatingIsOrdered(c, s, call, reply);
    } else {
      TransferIsOrdered(c, s, call, reply);
    }
  }

  lemma FollowerIsOrdered(c: Config, s: State, call: FollowCall, reply: Reply)
    requires s.pc == Following(call) && Needs(c, s.pc, s.run.passed)
    requires call.ReadFollower? || call.RepointFollower? || call.RecordFollower?
    ensures GoesOn(c, s, NextFollow(c, s, call, reply), reply)
  {}

  lemma RewindIsOrdered(c: Config, s: State, call: FollowCall, reply: Reply)
    requires s.pc == Following(call) && Needs(c, s.pc, s.run.passed)
    requires !(call.ReadFollower? || call.RepointFollower? || call.RecordFollower?)
    ensures GoesOn(c, s, NextFollow(c, s, call, reply), reply)
  {}

  lemma FollowIsOrdered(c: Config, s: State, call: FollowCall, reply: Reply)
    requires s.pc == Following(call) && Needs(c, s.pc, s.run.passed)
    ensures GoesOn(c, s, NextFollow(c, s, call, reply), reply)
  {
    if call.ReadFollower? || call.RepointFollower? || call.RecordFollower? {
      FollowerIsOrdered(c, s, call, reply);
    } else {
      RewindIsOrdered(c, s, call, reply);
    }
  }

  lemma UndoIsOrdered(c: Config, s: State, reply: Reply)
    requires s.pc.Abort? || s.pc.Rollback?
    ensures GoesOn(c, s, Next(c, s, reply), reply)
  {}

  lemma NextIsOrdered(c: Config, s: State, reply: Reply)
    requires Needs(c, s.pc, s.run.passed) && !s.pc.Idle? && !s.pc.Exit?
    ensures GoesOn(c, s, Next(c, s, reply), reply)
  {
    match s.pc
    case Pre(call) => PreIsOrdered(c, s, call, reply);
    case Fencing(call) => FenceIsOrdered(c, s, call, reply);
    case Stopping(call) => StopIsOrdered(c, s, call, reply);
    case Publishing(call) => PublishIsOrdered(c, s, call, reply);
    case Following(call) => FollowIsOrdered(c, s, call, reply);
    case _ => UndoIsOrdered(c, s, reply);
  }

  lemma GoingOnKeepsOrdered(c: Config, s: State, t: State, reply: Reply)
    requires Ordered(c, s) && !s.pc.Idle? && GoesOn(c, s, t, reply)
    ensures Ordered(c, t.(run := Remember(c, s, reply)))
  {
    var q := Passing(c, s, reply);
    forall x | x in q
      ensures Needs(c, x, q)
    {
      NeedsGrow(c, x, s.run.passed, q);
    }
  }

  // Over every sequence of runs: no call is made in a run before the calls it depends on have succeeded
  // in that run, nothing is done before the lease was obtained and recorded in it, and a transfer of the
  // endpoint is verified before anything else happens.
  lemma {:induction false} CallsAreInOrder(c: Config, s: State, events: seq<Event>)
    requires s.pc == Idle
    ensures Ordered(c, After(c, s, events))
    ensures var t := After(c, s, events); Acts(t.pc) ==> Authorized(t.run.passed)
  {
    if events != [] {
      var a, e := After(c, s, events[..|events| - 1]), events[|events| - 1];
      CallsAreInOrder(c, s, events[..|events| - 1]);
      if e.Answer? && !a.pc.Idle? && !a.pc.Exit? {
        NextIsOrdered(c, a, e.reply);
        GoingOnKeepsOrdered(c, a, Next(c, a, e.reply), e.reply);
      }
    }
  }

  // ---- Where a run ends ----

  // Calls after which writes are restored and the lease is aborted.
  predicate Aborts(pc: Pc) {
    (pc.Fencing? && !pc.fence.ReadFence?) || pc == Stopping(ReadStop)
  }

  // Calls after which the source is started again, opened, and the lease aborted: the source is proven
  // stopped and the target not yet told to leave recovery.
  predicate RollsBack(pc: Pc) {
    pc == Stopping(RecordStopped) || pc == Stopping(Wait) || pc == Stopping(RecordWait) || pc == Stopping(ProbeStandby)
  }

  // The calls that can end a run although they were answered: a check fails.
  predicate Decides(pc: Pc) {
    || pc == Pre(LivePrecheck) || pc == Pre(ReconcileEndpoint(5)) || pc == Stopping(ProbeStopped)
    || pc == Stopping(Wait) || pc == Stopping(ProbeStandby)
    || pc == Publishing(ProbePrimary) || pc == Publishing(VerifyTransfer)
  }

  // An abort reports pre_commit exactly when all its calls succeeded, and then everything is as before:
  // the source a writable primary, the target its standby, no lease.
  predicate Aborted(s: State, cause: Class) {
    && s.run.undone && cause == (if s.run.cleanupFailed then FenceUnknown else PreCommit)
    && (!s.run.cleanupFailed ==> Restored(s.w) && !s.w.lease)
  }

  predicate RolledBack(s: State, cause: Class) {
    && s.run.undone && cause == (if s.run.cleanupFailed then SourceStopped else PreCommit)
    && (!s.run.cleanupFailed ==> Restored(s.w) && !s.w.lease)
  }

  // The class a failing run reports, by the call that ended its course and the fate of its clean-up, and
  // what the clean-up has achieved.
  predicate Blames(s: State, cause: Class) {
    match s.run.last
    case Pre(call) =>
      cause == (if call.CheckDone? || call.VerifyCompleted? || call.ReconcileEndpoint? then PromotedUnverified
                else PreCommit)
    case Fencing(ReadFence) =>
      && s.run.undone && cause == (if s.run.cleanupFailed then FenceUnknown else PreCommit)
      && Unmoved(s.w, s.run.launch) && (!s.run.cleanupFailed ==> !s.w.lease)
    case Stopping(StopServer) =>
      // Unless the source is proven to run on, the run stops where it is.
      if s.run.undone then Aborted(s, cause)
      else cause == SourceStopped && (s.run.cleanupFailed || !s.w.src.running)
    case Stopping(ProbeStopped) => if s.run.fault then cause == SourceStopped && !s.run.undone else Aborted(s, cause)
    case last =>
      if Aborts(last) then Aborted(s, cause)
      else if RollsBack(last) then RolledBack(s, cause)
      else if last.Stopping? && !last.stop.RecordPromote? then cause == SourceStopped && !s.run.undone
      else (last.Stopping? || last.Publishing? || last.Following?) && cause == PromotedUnverified && !s.run.undone
  }

  predicate Ends(s: State) {
    match s.pc
    case Idle => true
    case Exit(out) =>
      if out.Failed? then Blames(s, out.cause) && (s.run.fault || Decides(s.run.last))
      else !s.run.fault && (out == Reconciled ==> s.w.endpoint && !s.w.lease)
    case Pre(ReconcileEndpoint(k)) =>
      !s.run.fault && !s.run.undone && !s.run.cleanupFailed && (k == 6 ==> s.w.endpoint)
    case Stopping(RecheckStopped) =>
      s.run.last == Stopping(StopServer) && s.run.fault && !s.run.undone && !s.run.cleanupFailed
    case Abort(k, failed) => AbortEnds(s, k, failed)
    case Rollback(k, failed) =>
      && RollsBack(s.run.last) && (s.run.fault || Decides(s.run.last)) && k <= 4
      && failed == s.run.cleanupFailed && (k > 0 ==> s.run.undone)
      && (k > 0 && !failed ==> s.w.src.running) && (k > 3 && !failed ==> Restored(s.w))
    case _ => !s.run.fault && !s.run.undone && !s.run.cleanupFailed
  }

  predicate AbortEnds(s: State, k: nat, failed: bool) {
    && (s.run.fault || Decides(s.run.last)) && k <= 2
    && failed == s.run.cleanupFailed
    && (if s.run.last == Fencing(ReadFence) then k == 2 && !failed && Unmoved(s.w, s.run.launch)
        else
          && (Aborts(s.run.last) || s.run.last == Stopping(StopServer)
              || (s.run.last == Stopping(ProbeStopped) && !s.run.fault))
          && (k > 0 ==> s.run.undone) && (k > 1 && !failed ==> Restored(s.w)))
  }

  // One answered call, with its history.
  function Told(c: Config, s: State, t: State, reply: Reply): State {
    t.(run := Remember(c, s, reply))
  }

  lemma PreKeepsEnds(c: Config, s: State, call: PreCall, reply: Reply)
    requires Ends(s) && s.pc == Pre(call) && Needs(c, s.pc, s.run.passed)
    ensures Ends(Told(c, s, NextPre(c, s, call, reply), reply))
  {}

  lemma FenceKeepsEnds(c: Config, s: State, call: FenceCall, reply: Reply)
    requires Inv(s) && Ends(s) && s.pc == Fencing(call)
    ensures Ends(Told(c, s, NextFence(c, s, call, reply), reply))
  {}

  lemma StopKeepsEnds(c: Config, s: State, call: StopCall, reply: Reply)
    requires Inv(s) && Ends(s) && s.pc == Stopping(call)
    ensures Ends(Told(c, s, NextStop(c, s, call, reply), reply))
  {}

  lemma PublishKeepsEnds(c: Config, s: State, call: PublishCall, reply: Reply)
    requires Ends(s) && s.pc == Publishing(call) && Tells(c, s)
    ensures Ends(Told(c, s, NextPublish(c, s, call, reply), reply))
  {}

  lemma FollowKeepsEnds(c: Config, s: State, call: FollowCall, reply: Reply)
    requires Ends(s) && s.pc == Following(call) && Needs(c, s.pc, s.run.passed)
    ensures Ends(Told(c, s, NextFollow(c, s, call, reply), reply))
  {}

  lemma AbortKeepsEnds(c: Config, s: State, k: nat, failed: bool, reply: Reply)
    requires Inv(s) && Ends(s) && s.pc == Abort(k, failed)
    ensures Ends(Told(c, s, NextAbort(s, k, failed, reply), reply))
  {}

  lemma RollbackKeepsEnds(c: Config, s: State, k: nat, failed: bool, reply: Reply)
    requires Inv(s) && Ends(s) && s.pc == Rollback(k, failed)
    ensures Ends(Told(c, s, NextRollback(s, k, failed, reply), reply))
  {}

  lemma AnswerKeepsEnds(c: Config, s: State, reply: Reply)
    requires Inv(s) && Ends(s) && Tells(c, s) && Needs(c, s.pc, s.run.passed) && !s.pc.Idle? && !s.pc.Exit?
    ensures Ends(Told(c, s, Next(c, s, reply), reply))
  {
    match s.pc
    case Pre(call) => PreKeepsEnds(c, s, call, reply);
    case Fencing(call) => FenceKeepsEnds(c, s, call, reply);
    case Stopping(call) => StopKeepsEnds(c, s, call, reply);
    case Publishing(call) => PublishKeepsEnds(c, s, call, reply);
    case Following(call) => FollowKeepsEnds(c, s, call, reply);
    case Abort(k, failed) => AbortKeepsEnds(c, s, k, failed, reply);
    case Rollback(k, failed) => RollbackKeepsEnds(c, s, k, failed, reply);
  }

  // What the environment leaves alone.
  lemma EnvKeepsFacts(w: World, next: World, launch: World)
    requires EnvStep(w, next)
    ensures Restored(next) == Restored(w) && Unmoved(next, launch) == Unmoved(w, launch)
    ensures next.lease == w.lease && next.src.running == w.src.running
  {}

  lemma EnvKeepsBlames(s: State, next: World, cause: Class)
    requires Blames(s, cause)
    requires Restored(next) == Restored(s.w) && Unmoved(next, s.run.launch) == Unmoved(s.w, s.run.launch)
    requires next.lease == s.w.lease && next.src.running == s.w.src.running
    ensures Blames(s.(w := next), cause)
  {}

  lemma EnvKeepsEnds(s: State, next: World)
    requires Ends(s) && EnvStep(s.w, next)
    ensures Ends(s.(w := next))
  {
    EnvKeepsFacts(s.w, next, s.run.launch);
    if s.pc.Exit? && s.pc.out.Failed? {
      EnvKeepsBlames(s, next, s.pc.out.cause);
    }
  }

  lemma {:induction false} AfterEnds(c: Config, s: State, events: seq<Event>)
    requires Start(s)
    ensures Ends(After(c, s, events))
  {
    if events != [] {
      var front, e := events[..|events| - 1], events[|events| - 1];
      var a := After(c, s, front);
      AfterEnds(c, s, front);
      if e.Answer? && !a.pc.Idle? && !a.pc.Exit? {
        CallsAreInOrder(c, s, front);
        AfterKeepsInv(c, s, front);
        AfterIsTruthful(c, s, front);
        AnswerKeepsEnds(c, a, e.reply);
      } else if e.Environment? && EnvStep(a.w, e.next) {
        EnvKeepsEnds(a, e.next);
      }
    }
  }

  // Over every sequence of runs: a run in which a call failed without a way around never completes, a
  // failing run was ended by a failed call or a failed check, and it reports the class that belongs to
  // that call, after undoing what belongs to it. In particular a run that gives up with the source proven
  // stopped and the target not yet promoted has tried to start the source again, and if every call of
  // that succeeded it reports pre_commit with a writable primary, its standby and no lease; likewise a
  // run that gives up while fencing has tried to restore writes and to abort its lease.
  lemma {:induction false} FailureIsClassified(c: Config, s: State, events: seq<Event>)
    requires Start(s) && After(c, s, events).pc.Exit?
    ensures var t := After(c, s, events);
            if t.pc.out.Failed? then
              && Blames(t, t.pc.out.cause) && (t.run.fault || Decides(t.run.last))
              && (RollsBack(t.run.last) || Aborts(t.run.last) ==>
                    && t.run.undone
                    && (!t.run.cleanupFailed <==> t.pc.out.cause == PreCommit)
                    && (!t.run.cleanupFailed ==> Restored(t.w) && !t.w.lease))
            else !t.run.fault && (t.pc.out == Reconciled ==> t.w.endpoint && !t.w.lease)
  {
    AfterEnds(c, s, events);
  }

  // ---- Every run ends ----

  function PreRank(c: Config, call: PreCall): int {
    match call
    case CheckDone(i) => 20 + |c.plan| - i
    case VerifyCompleted => 19
    case ReconcileEndpoint(k) => 18 - k
    case LivePrecheck => 4
    case Lease => 3
    case LeaseActive => 2
    case RecordLease => 1
  }

  function FenceRank(call: FenceCall): int {
    match call
    case ReadFence => 8
    case FenceStatement(k) => 7 - k
    case RecordFence => 4
    case ReadCapture => 3
    case Capture => 2
    case RecordCapture => 1
  }

  function StopRank(call: StopCall): int {
    match call
    case ReadStop => 12
    case StopServer => 11
    case RecordStop => 10
    case ProbeStopped => 9
    case RecordStopped => 8
    case Wait => 7
    case RecordWait => 6
    case ReadPromoted => 5
    case ProbeStandby => 4
    case Promote => 3
    case RecordPromote => 2
    case RecheckStopped => 1
  }

  function PublishRank(call: PublishCall): int {
    match call
    case ProbePrimary => 11
    case ReadActivated => 10
    case Activate(k) => 9 - k
    case RecordActivated => 7
    case ReadTransferred => 6
    case VerifyEndpoint => 5
    case Transfer => 4
    case VerifyTransfer => 3
    case RecordTransfer => 2
    case Finalize => 1
  }

  function FollowRank(c: Config, call: FollowCall): int {
    var n := |c.followers|;
    match call
    case ReadFollower(i) => 5 + 3 * (n - i)
    case RepointFollower(i) => 5 + 3 * (n - i) - 1
    case RecordFollower(i) => 5 + 3 * (n - i) - 2
    case ReadRewound => 4
    case Rewind => 3
    case BaseBackup => 2
    case RecordRewound => 1
  }

  // How many calls a run can still make at most.
  function Rank(c: Config, pc: Pc): int {
    var n := |c.followers|;
    match pc
    case Idle => 0
    case Exit(_) => 0
    case Abort(k, _) => if k < 2 then 3 - k else 1
    case Rollback(k, _) => if k < 4 then 5 - k else 1
    case Following(call) => 10 + FollowRank(c, call)
    case Publishing(call) => 20 + 3 * n + PublishRank(call)
    case Stopping(call) => if call.RecheckStopped? then 6 else 40 + 3 * n + StopRank(call)
    case Fencing(call) => 60 + 3 * n + FenceRank(call)
    case Pre(call) => 70 + 3 * n + PreRank(c, call)
  }

  lemma PreAdvances(c: Config, s: State, call: PreCall, reply: Reply)
    requires s.pc == Pre(call) && Needs(c, s.pc, s.run.passed)
    ensures 0 <= Rank(c, NextPre(c, s, call, reply).pc) < Rank(c, s.pc)
  {}

  lemma FenceAdvances(c: Config, s: State, call: FenceCall, reply: Reply)
    requires s.pc == Fencing(call) && Needs(c, s.pc, s.run.passed)
    ensures 0 <= Rank(c, NextFence(c, s, call, reply).pc) < Rank(c, s.pc)
  {}

  lemma StopAdvances(c: Config, s: State, call: StopCall, reply: Reply)
    requires s.pc == Stopping(call) && Needs(c, s.pc, s.run.passed)
    ensures 0 <= Rank(c, NextStop(c, s, call, reply).pc) < Rank(c, s.pc)
  {}

  lemma PublishAdvances(c: Config, s: State, call: PublishCall, reply: Reply)
    requires s.pc == Publishing(call) && Needs(c, s.pc, s.run.passed)
    ensures 0 <= Rank(c, NextPublish(c, s, call, reply).pc) < Rank(c, s.pc)
  {}

  lemma FollowAdvances(c: Config, s: State, call: FollowCall, reply: Reply)
    requires s.pc == Following(call) && Needs(c, s.pc, s.run.passed)
    ensures 0 <= Rank(c, NextFollow(c, s, call, reply).pc) < Rank(c, s.pc)
  {}

  lemma UndoAdvances(c: Config, s: State, reply: Reply)
    requires s.pc.Abort? || s.pc.Rollback?
    ensures 0 <= Rank(c, Next(c, s, reply).pc) < Rank(c, s.pc)
  {}

  // Over every sequence of runs: whatever the answer, the pending call brings the run closer to its end, so
  // no run makes more than `Rank` further calls.
  lemma {:induction false} EveryRunEnds(c: Config, s: State, events: seq<Event>, reply: Reply)
    requires s.pc == Idle
    ensures var t := After(c, s, events);
            t.pc.Idle? || t.pc.Exit? || 0 <= Rank(c, Next(c, t, reply).pc) < Rank(c, t.pc)
  {
    CallsAreInOrder(c, s, events);
    var t := After(c, s, events);
    match t.pc
    case Idle =>
    case Exit(_) =>
    case Pre(call) => PreAdvances(c, t, call, reply);
    case Fencing(call) => FenceAdvances(c, t, call, reply);
    case Stopping(call) => StopAdvances(c, t, call, reply);
    case Publishing(call) => PublishAdvances(c, t, call, reply);
    case Following(call) => FollowAdvances(c, t, call, reply);
    case _ => UndoAdvances(c, t, reply);
  }
}
