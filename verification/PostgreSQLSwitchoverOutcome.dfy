// What the end of a planned PostgreSQL switchover run says about the cluster: all or nothing before
// promotion, and a moved primary after completion.
module PostgreSQLSwitchoverOutcome {
  import opened PostgreSQLMembers
  import opened PostgreSQLSwitchover
  import opened PostgreSQLSwitchoverSafety
  import opened PostgreSQLSwitchoverProgress

  // The source is a running primary whose writes are neither stored nor loaded as read-only, and the
  // target is its running standby.
  predicate Restored(w: World) {
    LiveChecks(w) && !w.src.setting && !w.src.loaded
  }

  // What the clean-ups have established, and what a pre_commit exit guarantees.
  predicate Clean(s: State) {
    match s.pc
    case Idle => true
    case Pre(call) =>
      && (s.run.checked <==> call.Lease? || call.LeaseActive? || call.RecordLease?)
      && (s.run.leased <==> call.LeaseActive? || call.RecordLease?)
      && (s.run.leased ==> s.w.lease) && !s.run.started
    case Fencing(ReadFence) => s.run.checked && s.run.leased && !s.run.unrecorded && !s.run.started
    case Abort(k, failed) =>
      && s.run.checked && s.run.leased && !s.run.unrecorded && (!s.run.started ==> k > 1 && Unmoved(s.w, s.run.launch))
      && (k < 2 ==> !failed) && (k > 1 && !failed ==> Unmoved(s.w, s.run.launch) || Restored(s.w))
    case Rollback(k, failed) =>
      && s.run.checked && s.run.leased && !s.run.unrecorded && s.run.started
      && (k < 4 ==> !failed) && ((k == 2 || k == 3) ==> Primary(s.w.src)) && (k > 3 && !failed ==> Restored(s.w))
    case Exit(out) =>
      out == Failed(PreCommit) ==>
        && (Unmoved(s.w, s.run.launch) || (s.run.started && Restored(s.w)))
        && (s.run.checked ==> LiveChecks(s.w))
        && (s.run.leased ==> s.run.checked && (s.w.lease <==> s.run.unrecorded))
    case _ => s.run.checked && s.run.leased && !s.run.unrecorded && s.run.started
  }

  lemma ReconcileKeepsClean(c: Config, s: State, k: nat, reply: Reply)
    requires Inv(s) && Clean(s) && s.pc == Pre(ReconcileEndpoint(k))
    ensures Clean(NextReconcile(s, k, reply).(run := Remember(c, s, reply)))
  {
    ReconcileMovesNothing(s, k, reply);
  }

  lemma CheckKeepsClean(c: Config, s: State, call: PreCall, reply: Reply)
    requires Inv(s) && Clean(s) && s.pc == Pre(call) && (call.CheckDone? || call.VerifyCompleted? || call.LivePrecheck?)
    ensures Clean(NextPre(c, s, call, reply).(run := Remember(c, s, reply)))
  {}

  lemma LeaseKeepsClean(c: Config, s: State, call: PreCall, reply: Reply)
    requires Inv(s) && Clean(s) && s.pc == Pre(call) && (call.Lease? || call.LeaseActive? || call.RecordLease?)
    ensures Clean(NextPre(c, s, call, reply).(run := Remember(c, s, reply)))
  {}

  lemma FenceKeepsClean(c: Config, s: State, reply: Reply)
    requires Inv(s) && Clean(s) && s.pc.Fencing?
    ensures Clean(NextFence(c, s, s.pc.fence, reply).(run := Remember(c, s, reply)))
  {}

  lemma StopKeepsClean(c: Config, s: State, reply: Reply)
    requires Inv(s) && Clean(s) && s.pc.Stopping?
    ensures Clean(NextStop(c, s, s.pc.stop, reply).(run := Remember(c, s, reply)))
  {}

  lemma PublishKeepsClean(c: Config, s: State, call: PublishCall, reply: Reply)
    requires Clean(s) && s.pc == Publishing(call)
    ensures Clean(NextPublish(c, s, call, reply).(run := Remember(c, s, reply)))
  {}

  lemma FollowKeepsClean(c: Config, s: State, call: FollowCall, reply: Reply)
    requires Clean(s) && s.pc == Following(call)
    ensures Clean(NextFollow(c, s, call, reply).(run := Remember(c, s, reply)))
  {}

  lemma AbortKeepsClean(c: Config, s: State, reply: Reply)
    requires Inv(s) && Clean(s) && s.pc.Abort?
    ensures Clean(NextAbort(s, s.pc.k, s.pc.failed, reply).(run := Remember(c, s, reply)))
  {}

  lemma RollbackKeepsClean(c: Config, s: State, reply: Reply)
    requires Inv(s) && Clean(s) && s.pc.Rollback?
    ensures Clean(NextRollback(s, s.pc.k, s.pc.failed, reply).(run := Remember(c, s, reply)))
  {}

  lemma HappenKeepsClean(c: Config, s: State, e: Event)
    requires Inv(s) && Clean(s)
    ensures Clean(Happen(c, s, e))
  {
    if e.Answer? {
      match s.pc
      case Idle =>
      case Exit(_) =>
      case Pre(call) =>
        if call.ReconcileEndpoint? {
          ReconcileKeepsClean(c, s, call.k, e.reply);
        } else if call.Lease? || call.LeaseActive? || call.RecordLease? {
          LeaseKeepsClean(c, s, call, e.reply);
        } else {
          CheckKeepsClean(c, s, call, e.reply);
        }
      case Fencing(_) => FenceKeepsClean(c, s, e.reply);
      case Stopping(_) => StopKeepsClean(c, s, e.reply);
      case Publishing(call) => PublishKeepsClean(c, s, call, e.reply);
      case Following(call) => FollowKeepsClean(c, s, call, e.reply);
      case Abort(_, _) => AbortKeepsClean(c, s, e.reply);
      case Rollback(_, _) => RollbackKeepsClean(c, s, e.reply);
    }
  }

  lemma {:induction false} AfterIsClean(c: Config, s: State, events: seq<Event>)
    requires Start(s)
    ensures Clean(After(c, s, events))
  {
    if events != [] {
      AfterKeepsInv(c, s, events[..|events| - 1]);
      AfterIsClean(c, s, events[..|events| - 1]);
      HappenKeepsClean(c, After(c, s, events[..|events| - 1]), events[|events| - 1]);
    }
  }

  // All or nothing before promotion: a run that reports pre_commit has either moved nothing or put
  // everything back. If it found the source writable it leaves a writable running primary with its
  // standby, and it leaves an obtained lease behind exactly when it gave up before recording it.
  lemma {:induction false} PreCommitIsAllOrNothing(c: Config, s: State, events: seq<Event>)
    requires Start(s) && After(c, s, events).pc == Exit(Failed(PreCommit))
    ensures var t := After(c, s, events);
            && (Unmoved(t.w, t.run.launch) || (t.run.started && Restored(t.w)))
            && (t.run.checked ==> LiveChecks(t.w))
            && (LiveChecks(t.run.launch) && !t.run.launch.src.setting && !t.run.launch.src.loaded ==> Restored(t.w))
            && (t.run.leased ==> (t.w.lease <==> t.run.unrecorded))
  {
    AfterIsClean(c, s, events);
  }

  // Recorded steps are true of the cluster.
  ghost predicate Meaning(c: Config, w: World) {
    && (PromoteTarget in w.done ==> Primary(w.dst))
    && (ActivateWrites in w.done ==> !w.dst.setting && !w.dst.loaded)
    && (TransferEndpoint in w.done ==> w.endpoint)
    && (RewindSource in w.done ==> w.src.running && w.src.standby && c.source in w.following)
    && (forall f | f in c.followers && Repoint(f) in w.done :: f in w.following)
  }

  predicate Tells(c: Config, s: State) {
    match s.pc
    case Stopping(call) => call == RecordPromote ==> Primary(s.w.dst)
    case Publishing(call) =>
      && s.w.dst.running && (call.RecordTransfer? ==> s.w.endpoint)
         && (call.Activate? && call.k > 0 ==> !s.w.dst.setting)
      && (call == RecordActivated || (!call.ProbePrimary? && !call.ReadActivated? && !call.Activate?) ==>
            Primary(s.w.dst) && !s.w.dst.setting && !s.w.dst.loaded)
    case Following(call) =>
      && Primary(s.w.dst) && !s.w.dst.setting && !s.w.dst.loaded && !s.w.lease
      && (call.RecordFollower? && call.i < |c.followers| ==> c.followers[call.i] in s.w.following)
      && (call == RecordRewound ==> s.w.src.running && s.w.src.standby && c.source in s.w.following)
    case Exit(out) => out == Completed ==> Primary(s.w.dst) && !s.w.dst.setting && !s.w.dst.loaded && !s.w.lease
    case _ => true
  }

  ghost predicate Truthful(c: Config, s: State) {
    Meaning(c, s.w) && Tells(c, s)
  }

  lemma FenceKeepsTruth(c: Config, s: State, call: FenceCall, reply: Reply)
    requires Inv(s) && Truthful(c, s) && s.pc == Fencing(call)
    ensures Truthful(c, NextFence(c, s, call, reply))
  {}

  lemma StopKeepsTruth(c: Config, s: State, call: StopCall, reply: Reply)
    requires Inv(s) && Truthful(c, s) && s.pc == Stopping(call)
    ensures Truthful(c, NextStop(c, s, call, reply))
  {}

  lemma PublishKeepsTruth(c: Config, s: State, call: PublishCall, reply: Reply)
    requires Inv(s) && Truthful(c, s) && s.pc == Publishing(call)
    ensures Truthful(c, NextPublish(c, s, call, reply))
  {}

  lemma FollowKeepsTruth(c: Config, s: State, call: FollowCall, reply: Reply)
    requires Inv(s) && Truthful(c, s) && s.pc == Following(call)
    ensures Truthful(c, NextFollow(c, s, call, reply))
  {}

  lemma AbortKeepsTruth(c: Config, s: State, k: nat, failed: bool, reply: Reply)
    requires Inv(s) && Truthful(c, s) && s.pc == Abort(k, failed)
    ensures Truthful(c, NextAbort(s, k, failed, reply))
  {}

  lemma RollbackKeepsTruth(c: Config, s: State, k: nat, failed: bool, reply: Reply)
    requires Inv(s) && Truthful(c, s) && s.pc == Rollback(k, failed)
    ensures Truthful(c, NextRollback(s, k, failed, reply))
  {}

  // Before the fence only the lease, its record and the endpoint change.
  predicate Prepares(w: World, b: World) {
    && b == w.(lease := b.lease, endpoint := b.endpoint, done := b.done) && (w.endpoint ==> b.endpoint)
    && (b.done == w.done || b.done == w.done + {Authorize})
  }

  lemma PreparingKeepsMeaning(c: Config, w: World, b: World)
    requires Meaning(c, w) && Prepares(w, b)
    ensures Meaning(c, b)
  {}

  lemma ReconcilePrepares(s: State, k: nat, reply: Reply)
    ensures var t := NextReconcile(s, k, reply);
            Prepares(s.w, t.w) && (t.pc.Pre? || (t.pc.Exit? && t.pc.out != Completed))
  {}

  lemma PrePrepares(c: Config, s: State, call: PreCall, reply: Reply)
    requires !call.ReconcileEndpoint?
    ensures var t := NextPre(c, s, call, reply);
            && Prepares(s.w, t.w)
            && (t.pc.Pre? || t.pc.Fencing? || (t.pc.Exit? && t.pc.out != Completed))
  {}

  lemma PreKeepsTruth(c: Config, s: State, call: PreCall, reply: Reply)
    requires Truthful(c, s)
    ensures Truthful(c, NextPre(c, s, call, reply))
  {
    if call.ReconcileEndpoint? {
      ReconcilePrepares(s, call.k, reply);
    } else {
      PrePrepares(c, s, call, reply);
    }
    PreparingKeepsMeaning(c, s.w, NextPre(c, s, call, reply).w);
  }

  lemma NextKeepsTruth(c: Config, s: State, reply: Reply)
    requires Inv(s) && Truthful(c, s)
    ensures Truthful(c, Next(c, s, reply))
  {
    match s.pc
    case Idle =>
    case Exit(_) =>
    case Pre(call) => PreKeepsTruth(c, s, call, reply);
    case Fencing(call) => FenceKeepsTruth(c, s, call, reply);
    case Stopping(call) => StopKeepsTruth(c, s, call, reply);
    case Publishing(call) => PublishKeepsTruth(c, s, call, reply);
    case Following(call) => FollowKeepsTruth(c, s, call, reply);
    case Abort(k, failed) => AbortKeepsTruth(c, s, k, failed, reply);
    case Rollback(k, failed) => RollbackKeepsTruth(c, s, k, failed, reply);
  }

  lemma EnvKeepsTruth(c: Config, s: State, next: World)
    requires Truthful(c, s)
    ensures EnvStep(s.w, next) ==> Truthful(c, s.(w := next))
  {}

  lemma HappenKeepsTruth(c: Config, s: State, e: Event)
    requires Inv(s) && Truthful(c, s)
    ensures Truthful(c, Happen(c, s, e))
  {
    match e
    case Answer(reply) => NextKeepsTruth(c, s, reply);
    case Environment(next) => EnvKeepsTruth(c, s, next);
    case _ =>
  }

  lemma {:induction false} AfterIsTruthful(c: Config, s: State, events: seq<Event>)
    requires Start(s)
    ensures Truthful(c, After(c, s, events))
  {
    if events != [] {
      AfterKeepsInv(c, s, events[..|events| - 1]);
      AfterIsTruthful(c, s, events[..|events| - 1]);
      HappenKeepsTruth(c, After(c, s, events[..|events| - 1]), events[|events| - 1]);
    }
  }

  // Whatever happened before, a run that completes leaves the target a writable primary, the former
  // source and every follower standbys of it, the lease finalized and every step recorded.
  lemma {:induction false} CompletedMeansSwitched(c: Config, s: State, events: seq<Event>)
    requires Planned(c) && Start(s) && After(c, s, events).pc == Exit(Completed)
    ensures var w := After(c, s, events).w;
            && Primary(w.dst) && CanCommit(w.dst) && !w.lease && w.endpoint
            && w.src.running && w.src.standby && c.source in w.following
            && (forall f | f in c.followers :: f in w.following)
            && (forall step | step in c.plan :: step in w.done)
  {
    AfterIsTruthful(c, s, events);
    SwitchoverProgressIsPrefix(c, s, events);
    PlanEntries(c);
    var w := After(c, s, events).w;
    assert c.plan[9 + |c.followers|] in c.plan && c.plan[8] in c.plan;
    forall f | f in c.followers
      ensures f in w.following
    {
      var i :| 0 <= i < |c.followers| && c.followers[i] == f;
      assert c.plan[9 + i] in c.plan;
    }
  }
}
