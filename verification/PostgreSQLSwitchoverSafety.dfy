// Safety of the planned PostgreSQL switchover over every sequence of runs: one primary, promotion
// only of a caught-up standby of a stopped source, and no lost commit in runs that fence by themselves.
module PostgreSQLSwitchoverSafety {
  import opened PostgreSQLMembers
  import opened PostgreSQLSwitchover

  // The run fences the source itself, or found it still fenced by an earlier run.
  predicate Fresh(s: State) {
    FenceWrites !in s.run.launch.done || WriteFenced(s.run.launch.src)
  }

  predicate SameServer(a: Server, b: Server) {
    a.running == b.running && a.standby == b.standby && a.setting == b.setting && a.loaded == b.loaded
  }

  // Nothing but WAL, commits and open transactions differs from the start of the run.
  predicate Unmoved(w: World, launch: World) {
    && SameServer(w.src, launch.src) && SameServer(w.dst, launch.dst)
    && w.following == launch.following
    && (FenceWrites in w.done <==> FenceWrites in launch.done)
  }

  predicate FenceKnows(s: State, call: FenceCall) {
    var w := s.w;
    && LiveChecks(w)
    && (match call
        case ReadFence => Unmoved(w, s.run.launch)
        case FenceStatement(k) => FenceWrites !in w.done && (k > 0 ==> w.src.setting) && (k > 1 ==> w.src.loaded)
        case RecordFence => FenceWrites !in w.done && w.src.setting && WriteFenced(w.src)
        case ReadCapture => FenceWrites in w.done && (Fresh(s) ==> w.src.loaded)
        case Capture => FenceWrites in w.done && (Fresh(s) ==> w.src.loaded)
        case RecordCapture =>
          && FenceWrites in w.done && (Fresh(s) ==> w.src.loaded)
          && (w.src.loaded ==> w.committed <= s.position))
  }

  predicate StopKnows(s: State, call: StopCall) {
    var w := s.w;
    && FenceWrites in w.done && CaptureWal in w.done && s.position == w.position && w.dst.running && !w.src.standby
    && (Fresh(s) ==> w.committed <= w.position)
    && (match call
        case ReadStop => Primary(w.src) && w.dst.standby && (Fresh(s) ==> w.src.loaded)
        case StopServer => Primary(w.src) && w.dst.standby && (Fresh(s) ==> w.src.loaded)
        case RecheckStopped => w.dst.standby && (Fresh(s) && w.src.running ==> w.src.loaded)
        case RecordStop => !w.src.running && w.dst.standby
        case ProbeStopped => w.dst.standby && (Fresh(s) && w.src.running ==> w.src.loaded)
        case RecordStopped => !w.src.running && w.dst.standby
        case Wait => !w.src.running && w.dst.standby
        case RecordPromote => !w.src.running && !w.dst.standby
        case _ => !w.src.running && w.dst.standby && w.position <= w.dstReplay)
  }

  predicate Knows(s: State) {
    match s.pc
    case Idle => true
    case Exit(_) => true
    case Pre(call) => Unmoved(s.w, s.run.launch)
      && (call.Lease? || call.LeaseActive? || call.RecordLease? ==> LiveChecks(s.w))
    case Fencing(call) => FenceKnows(s, call)
    case Stopping(call) => StopKnows(s, call)
    case Publishing(_) => !s.w.src.running && !s.w.dst.standby
    case Following(_) => !Primary(s.w.src) && !s.w.dst.standby
    case Abort(k, _) => LiveChecks(s.w) && (k == 1 ==> !s.w.src.setting)
    case Rollback(k, _) => !s.w.src.standby && s.w.dst.running && s.w.dst.standby && (k == 3 ==> !s.w.src.setting)
  }

  // Facts about the durable world: the target is out of recovery only while the source is no primary,
  // and caught up with the recorded position; recorded promotion and capture are true; as
  // long as a recorded fence is stored or loaded no client commits and the recorded position, if any,
  // covers every commit.
  predicate Durable(w: World) {
    && (!w.dst.standby ==> !Primary(w.src) && CaptureWal in w.done && w.position <= w.dstReplay)
    && (PromoteTarget in w.done ==> !w.dst.standby)
    && (CaptureWal in w.done ==> FenceWrites in w.done)
    && w.committed <= w.srcWal
    && (FenceWrites in w.done && w.src.setting ==> w.src.running ==> w.src.loaded)
    && (FenceWrites in w.done && w.src.running && w.src.loaded ==> !w.src.sessions)
    && (CaptureWal in w.done && (w.src.setting || (w.src.running && w.src.loaded)) ==> w.committed <= w.position)
  }

  predicate Inv(s: State) {
    Durable(s.w) && Knows(s)
  }

  lemma ClosingKeepsInv(c: Config, s: State, call: FenceCall, reply: Reply)
    requires Inv(s) && s.pc == Fencing(call) && (call.ReadFence? || call.FenceStatement? || call.RecordFence?)
    ensures Inv(NextFence(c, s, call, reply))
  {}

  lemma CapturingKeepsInv(c: Config, s: State, call: FenceCall, reply: Reply)
    requires Inv(s) && s.pc == Fencing(call) && (call.ReadCapture? || call.Capture? || call.RecordCapture?)
    ensures Inv(NextFence(c, s, call, reply))
  {}

  lemma FenceKeepsInv(c: Config, s: State, call: FenceCall, reply: Reply)
    requires Inv(s) && s.pc == Fencing(call)
    ensures Inv(NextFence(c, s, call, reply))
  {
    if call.ReadCapture? || call.Capture? || call.RecordCapture? {
      CapturingKeepsInv(c, s, call, reply);
    } else {
      ClosingKeepsInv(c, s, call, reply);
    }
  }

  lemma StoppingKeepsInv(c: Config, s: State, call: StopCall, reply: Reply)
    requires Inv(s) && s.pc == Stopping(call)
    requires call.ReadStop? || call.StopServer? || call.RecheckStopped? || call.RecordStop? || call.ProbeStopped?
    ensures Inv(NextStop(c, s, call, reply))
  {}

  lemma StoppedKeepsInv(c: Config, s: State, call: StopCall, reply: Reply)
    requires Inv(s) && s.pc == Stopping(call)
    requires !(call.ReadStop? || call.StopServer? || call.RecheckStopped? || call.RecordStop? || call.ProbeStopped?)
    ensures Inv(NextStop(c, s, call, reply))
  {}

  lemma StopKeepsInv(c: Config, s: State, call: StopCall, reply: Reply)
    requires Inv(s) && s.pc == Stopping(call)
    ensures Inv(NextStop(c, s, call, reply))
  {
    if call.ReadStop? || call.StopServer? || call.RecheckStopped? || call.RecordStop? || call.ProbeStopped? {
      StoppingKeepsInv(c, s, call, reply);
    } else {
      StoppedKeepsInv(c, s, call, reply);
    }
  }

  lemma PublishKeepsInv(c: Config, s: State, call: PublishCall, reply: Reply)
    requires Inv(s) && s.pc == Publishing(call)
    ensures Inv(NextPublish(c, s, call, reply))
  {}

  lemma FollowKeepsInv(c: Config, s: State, call: FollowCall, reply: Reply)
    requires Inv(s) && s.pc == Following(call)
    ensures Inv(NextFollow(c, s, call, reply))
  {}

  lemma AbortKeepsInv(s: State, k: nat, failed: bool, reply: Reply)
    requires Inv(s) && s.pc == Abort(k, failed)
    ensures Inv(NextAbort(s, k, failed, reply))
  {}

  lemma RollbackKeepsInv(s: State, k: nat, failed: bool, reply: Reply)
    requires Inv(s) && s.pc == Rollback(k, failed)
    ensures Inv(NextRollback(s, k, failed, reply))
  {
    if k == 0 {
    } else if k < 4 {
    } else {
    }
  }

  // Reconciling the endpoint of a completed operation moves nothing.
  lemma ReconcileMovesNothing(s: State, k: nat, reply: Reply)
    ensures var t := NextReconcile(s, k, reply);
            && t.w == s.w.(done := t.w.done, lease := t.w.lease, endpoint := t.w.endpoint)
               && (s.w.endpoint ==> t.w.endpoint) && (t.w.done == s.w.done || t.w.done == s.w.done + {Authorize})
            && t.run == s.run && (t.pc.Exit? || (t.pc.Pre? && t.pc.pre.ReconcileEndpoint?))
  {
    if k == 2 {
    } else if k == 4 {
    } else if k == 0 || k == 6 {
    } else {
    }
  }

  // Nor do the other calls before the fence.
  lemma PreMovesNothing(c: Config, s: State, call: PreCall, reply: Reply)
    ensures var b := NextPre(c, s, call, reply).w;
            && b == s.w.(done := b.done, lease := b.lease, endpoint := b.endpoint) && (s.w.endpoint ==> b.endpoint)
               && (b.done == s.w.done || b.done == s.w.done + {Authorize})
  {
    if call.ReconcileEndpoint? {
      ReconcileMovesNothing(s, call.k, reply);
    }
  }

  lemma PreKeepsInv(c: Config, s: State, call: PreCall, reply: Reply)
    requires Inv(s) && s.pc == Pre(call)
    ensures Inv(NextPre(c, s, call, reply))
  {
    if call.ReconcileEndpoint? {
      ReconcileKeepsInv(s, call.k, reply);
    } else if call.Lease? || call.LeaseActive? || call.RecordLease? {
      LeaseKeepsInv(c, s, call, reply);
    } else {
      CheckKeepsInv(c, s, call, reply);
    }
  }

  lemma ReconcileKeepsInv(s: State, k: nat, reply: Reply)
    requires Inv(s) && s.pc == Pre(ReconcileEndpoint(k))
    ensures Inv(NextReconcile(s, k, reply))
  {
    ReconcileMovesNothing(s, k, reply);
  }

  lemma LeaseKeepsInv(c: Config, s: State, call: PreCall, reply: Reply)
    requires Inv(s) && s.pc == Pre(call) && (call.Lease? || call.LeaseActive? || call.RecordLease?)
    ensures Inv(NextPre(c, s, call, reply))
  {}

  lemma CheckKeepsInv(c: Config, s: State, call: PreCall, reply: Reply)
    requires Inv(s) && s.pc == Pre(call) && (call.CheckDone? || call.VerifyCompleted? || call.LivePrecheck?)
    ensures Inv(NextPre(c, s, call, reply))
  {}

  lemma EnvKeepsDurable(w: World, next: World)
    requires Durable(w) && EnvStep(w, next)
    ensures Durable(next)
  {}

  lemma EnvKeepsKnows(s: State, next: World)
    requires Inv(s) && EnvStep(s.w, next)
    ensures Knows(s.(w := next))
  {}

  lemma EnvKeepsInv(s: State, next: World)
    requires Inv(s) && EnvStep(s.w, next)
    ensures Inv(s.(w := next))
  {
    EnvKeepsDurable(s.w, next);
    EnvKeepsKnows(s, next);
  }

  lemma NextKeepsInv(c: Config, s: State, reply: Reply)
    requires Inv(s)
    ensures Inv(Next(c, s, reply))
  {
    match s.pc
    case Idle =>
    case Exit(_) =>
    case Pre(call) => PreKeepsInv(c, s, call, reply);
    case Fencing(call) => FenceKeepsInv(c, s, call, reply);
    case Stopping(call) => StopKeepsInv(c, s, call, reply);
    case Publishing(call) => PublishKeepsInv(c, s, call, reply);
    case Following(call) => FollowKeepsInv(c, s, call, reply);
    case Abort(k, failed) => AbortKeepsInv(s, k, failed, reply);
    case Rollback(k, failed) => RollbackKeepsInv(s, k, failed, reply);
  }

  lemma RememberKeepsInv(s: State, run: History)
    requires Inv(s) && run.launch == s.run.launch
    ensures Inv(s.(run := run))
  {}

  lemma NextKeepsLaunch(c: Config, s: State, reply: Reply)
    ensures Next(c, s, reply).run == s.run
  {}

  lemma HappenKeepsInv(c: Config, s: State, e: Event)
    requires Inv(s)
    ensures Inv(Happen(c, s, e))
  {
    match e
    case Environment(next) =>
      if EnvStep(s.w, next) {
        EnvKeepsInv(s, next);
      }
    case Answer(reply) =>
      NextKeepsInv(c, s, reply);
      NextKeepsLaunch(c, s, reply);
      RememberKeepsInv(Next(c, s, reply), Remember(c, s, reply));
    case _ =>
  }

  // Where an operation starts: nothing recorded, the target in recovery.
  predicate Start(s: State) {
    s.pc == Idle && s.w.done == {} && s.w.dst.standby && s.w.committed <= s.w.srcWal && !s.w.isolated
  }

  lemma {:induction false} AfterKeepsInv(c: Config, s: State, events: seq<Event>)
    requires Start(s)
    ensures Inv(After(c, s, events))
  {
    if events != [] {
      AfterKeepsInv(c, s, events[..|events| - 1]);
      HappenKeepsInv(c, After(c, s, events[..|events| - 1]), events[|events| - 1]);
    }
  }

  // Over every sequence of runs the source and the target are never both running outside recovery.
  lemma {:induction false} SwitchoverIsSafe(c: Config, s: State, events: seq<Event>)
    requires Start(s)
    ensures SinglePrimary(After(c, s, events).w)
  {
    AfterKeepsInv(c, s, events);
  }

  // The target leaves recovery only while the source is stopped and after its replay has reached the
  // recorded source position; the source becomes a running primary only while the target is in
  // recovery; and a run that fences by itself loses no commit.
  lemma {:induction false} RolesMoveSafely(c: Config, s: State, events: seq<Event>, e: Event)
    requires Start(s)
    ensures var a := After(c, s, events);
            var b := Happen(c, a, e);
            && (a.w.dst.standby && !b.w.dst.standby ==>
                  !a.w.src.running && CaptureWal in a.w.done && a.w.position <= a.w.dstReplay)
            && (!Primary(a.w.src) && Primary(b.w.src) ==> a.w.dst.standby && b.w.dst.standby)
            && (b.w.lost && !a.w.lost ==> !Fresh(a))
  {
    AfterKeepsInv(c, s, events);
    var a := After(c, s, events);
    if e.Answer? {
      MovesSafely(c, a, e.reply);
    }
  }

  // Only promotion and rollback move a role up.
  predicate Still(a: World, b: World) {
    b.dst.standby == a.dst.standby && b.lost == a.lost && (Primary(b.src) ==> Primary(a.src))
  }

  lemma FenceStandsStill(c: Config, s: State, call: FenceCall, reply: Reply)
    ensures Still(s.w, NextFence(c, s, call, reply).w)
  {}

  lemma PublishStandsStill(c: Config, s: State, call: PublishCall, reply: Reply)
    ensures Still(s.w, NextPublish(c, s, call, reply).w)
  {}

  lemma FollowStandsStill(c: Config, s: State, call: FollowCall, reply: Reply)
    ensures Still(s.w, NextFollow(c, s, call, reply).w)
  {}

  lemma StandsStill(c: Config, s: State, reply: Reply)
    requires !s.pc.Stopping? && !s.pc.Rollback?
    ensures Still(s.w, Next(c, s, reply).w)
  {
    match s.pc
    case Pre(call) => PreMovesNothing(c, s, call, reply);
    case Fencing(call) => FenceStandsStill(c, s, call, reply);
    case Publishing(call) => PublishStandsStill(c, s, call, reply);
    case Following(call) => FollowStandsStill(c, s, call, reply);
    case _ =>
  }

  lemma StopMovesOnlyByPromotion(c: Config, s: State, call: StopCall, reply: Reply)
    requires call != Promote
    ensures Still(s.w, NextStop(c, s, call, reply).w)
  {}

  lemma RollbackMovesOnlySource(s: State, k: nat, failed: bool, reply: Reply)
    ensures NextRollback(s, k, failed, reply).w.dst == s.w.dst && NextRollback(s, k, failed, reply).w.lost == s.w.lost
  {}

  lemma MovesSafely(c: Config, a: State, reply: Reply)
    requires Inv(a)
    ensures var b := Next(c, a, reply);
            && (a.w.dst.standby && !b.w.dst.standby ==>
                  !a.w.src.running && CaptureWal in a.w.done && a.w.position <= a.w.dstReplay)
            && (!Primary(a.w.src) && Primary(b.w.src) ==> a.w.dst.standby && b.w.dst.standby)
            && (b.w.lost && !a.w.lost ==> !Fresh(a))
  {
    if a.pc == Stopping(Promote) {
      assert StopKnows(a, Promote);
    } else if a.pc.Stopping? {
      StopMovesOnlyByPromotion(c, a, a.pc.stop, reply);
    } else if a.pc.Rollback? {
      RollbackMovesOnlySource(a, a.pc.k, a.pc.failed, reply);
    } else {
      StandsStill(c, a, reply);
    }
  }

  // A target out of recovery has replayed the recorded source position, and the source is no primary.
  lemma {:induction false} PromotedIsCaughtUp(c: Config, s: State, events: seq<Event>)
    requires Start(s) && !After(c, s, events).w.dst.standby
    ensures var w := After(c, s, events).w; !Primary(w.src) && CaptureWal in w.done && w.position <= w.dstReplay
  {
    AfterKeepsInv(c, s, events);
  }

  // Every run of the sequence fences the source itself or finds it still fenced.
  predicate AllFresh(c: Config, s: State, events: seq<Event>) {
    events == [] || (AllFresh(c, s, events[..|events| - 1]) && Fresh(After(c, s, events)))
  }

  // Such a sequence never loses a commit.
  lemma {:induction false} FreshRunsLoseNothing(c: Config, s: State, events: seq<Event>)
    requires Start(s) && !s.w.lost && AllFresh(c, s, events)
    ensures !After(c, s, events).w.lost
  {
    if events != [] {
      var front, e := events[..|events| - 1], events[|events| - 1];
      FreshRunsLoseNothing(c, s, front);
      if front != [] {
        assert Fresh(After(c, s, front));
        RolesMoveSafely(c, s, front, e);
      }
    }
  }
}
