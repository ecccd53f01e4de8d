// The recorded steps of the planned PostgreSQL switchover are always a prefix of its plan.
module PostgreSQLSwitchoverProgress {
  import opened Progress
  import opened PostgreSQLMembers
  import opened PostgreSQLSwitchover

  ghost predicate Planned(c: Config) {
    c.plan == Plan(c.followers)
  }

  // The plan read entry by entry.
  ghost predicate Listed(c: Config) {
    && |c.plan| == |c.followers| + 10
    && c.plan[0] == Authorize && c.plan[1] == FenceWrites && c.plan[2] == CaptureWal && c.plan[3] == StopSource
    && c.plan[4] == VerifyStopped && c.plan[5] == WaitWal && c.plan[6] == PromoteTarget
    && c.plan[7] == ActivateWrites && c.plan[8] == TransferEndpoint
    && (forall i | 0 <= i < |c.followers| :: c.plan[9 + i] == Repoint(c.followers[i]))
    && c.plan[9 + |c.followers|] == RewindSource
  }

  lemma PlanEntries(c: Config)
    requires Planned(c)
    ensures Listed(c)
  {}

  // How many plan entries are certainly recorded when the run stands at a call.
  function FenceReached(call: FenceCall): nat {
    match call
    case ReadCapture => 2
    case Capture => 2
    case RecordCapture => 2
    case _ => 1
  }

  function StopReached(call: StopCall): nat {
    match call
    case ReadStop => 3
    case StopServer => 3
    case RecheckStopped => 3
    case RecordStop => 3
    case ProbeStopped => 4
    case RecordStopped => 4
    case Wait => 5
    case RecordWait => 5
    case _ => 6
  }

  function PublishReached(call: PublishCall): nat {
    match call
    case ProbePrimary => 7
    case ReadActivated => 7
    case Activate(_) => 7
    case RecordActivated => 7
    case Finalize => 9
    case _ => 8
  }

  function FollowReached(c: Config, call: FollowCall): nat {
    match call
    case ReadFollower(i) => 9 + i
    case RepointFollower(i) => 9 + i
    case RecordFollower(i) => 9 + i
    case _ => 9 + |c.followers|
  }

  function Reached(c: Config, pc: Pc): nat {
    match pc
    case Fencing(call) => FenceReached(call)
    case Stopping(call) => StopReached(call)
    case Publishing(call) => PublishReached(call)
    case Following(call) => FollowReached(c, call)
    case Exit(out) => if out == Completed then |c.plan| else 0
    case _ => 0
  }

  predicate InRange(c: Config, s: State) {
    match s.pc
    case Pre(ReconcileEndpoint(_)) => true
    case Publishing(call) => call.VerifyEndpoint? || call.Transfer? || call.VerifyTransfer? ==> s.transferred ==>
      TransferEndpoint in s.w.done
    case Following(ReadFollower(i)) => i <= |c.followers|
    case Following(RepointFollower(i)) => i < |c.followers|
    case Following(RecordFollower(i)) => i < |c.followers|
    case _ => true
  }

  // One move of the executor records at most the next entry of the plan.
  predicate Orderly(c: Config, s: State, t: State) {
    InRange(c, t) && Advances(s.w.done, t.w.done, c.plan, Reached(c, s.pc), Reached(c, t.pc))
  }

  lemma PreIsOrderly(c: Config, s: State, call: PreCall, reply: Reply)
    requires Listed(c) && s.pc == Pre(call)
    ensures Orderly(c, s, NextPre(c, s, call, reply))
  {}

  lemma FenceIsOrderly(c: Config, s: State, call: FenceCall, reply: Reply)
    requires Listed(c) && s.pc == Fencing(call)
    ensures Orderly(c, s, NextFence(c, s, call, reply))
  {}

  lemma StopIsOrderly(c: Config, s: State, call: StopCall, reply: Reply)
    requires Listed(c) && s.pc == Stopping(call)
    ensures Orderly(c, s, NextStop(c, s, call, reply))
  {}

  lemma PublishIsOrderly(c: Config, s: State, call: PublishCall, reply: Reply)
    requires Listed(c) && s.pc == Publishing(call) && InRange(c, s)
    ensures Orderly(c, s, NextPublish(c, s, call, reply))
  {}

  lemma FollowIsOrderly(c: Config, s: State, call: FollowCall, reply: Reply)
    requires Listed(c) && s.pc == Following(call) && InRange(c, s)
    ensures Orderly(c, s, NextFollow(c, s, call, reply))
  {}

  lemma AbortIsOrderly(c: Config, s: State, k: nat, failed: bool, reply: Reply)
    requires s.pc == Abort(k, failed)
    ensures Orderly(c, s, NextAbort(s, k, failed, reply))
  {}

  lemma RollbackIsOrderly(c: Config, s: State, k: nat, failed: bool, reply: Reply)
    requires s.pc == Rollback(k, failed)
    ensures Orderly(c, s, NextRollback(s, k, failed, reply))
  {}

  lemma HappenIsOrderly(c: Config, s: State, e: Event)
    requires Listed(c) && InRange(c, s)
    ensures Orderly(c, s, Happen(c, s, e))
  {
    if e.Answer? {
      match s.pc
      case Pre(call) => PreIsOrderly(c, s, call, e.reply);
      case Fencing(call) => FenceIsOrderly(c, s, call, e.reply);
      case Stopping(call) => StopIsOrderly(c, s, call, e.reply);
      case Publishing(call) => PublishIsOrderly(c, s, call, e.reply);
      case Following(call) => FollowIsOrderly(c, s, call, e.reply);
      case Abort(k, failed) => AbortIsOrderly(c, s, k, failed, e.reply);
      case Rollback(k, failed) => RollbackIsOrderly(c, s, k, failed, e.reply);
      case _ =>
    }
  }

  ghost predicate InOrder(c: Config, s: State) {
    IsPrefix(s.w.done, c.plan) && InRange(c, s) && Covers(s.w.done, c.plan, Reached(c, s.pc))
  }

  lemma {:induction false} AfterIsInOrder(c: Config, s: State, events: seq<Event>)
    requires Listed(c) && s.w.done == {} && s.pc == Idle
    ensures InOrder(c, After(c, s, events))
  {
    if events == [] {
      assert FirstSteps(c.plan, 0) == {};
    } else {
      var before := After(c, s, events[..|events| - 1]);
      var t := After(c, s, events);
      AfterIsInOrder(c, s, events[..|events| - 1]);
      HappenIsOrderly(c, before, events[|events| - 1]);
      AdvanceKeepsPrefix(before.w.done, t.w.done, c.plan, Reached(c, before.pc), Reached(c, t.pc));
    }
  }

  // Over every sequence of runs the recorded steps are a prefix of the plan, and all of it once a
  // run has completed.
  lemma {:induction false} SwitchoverProgressIsPrefix(c: Config, s: State, events: seq<Event>)
    requires Planned(c) && s.w.done == {} && s.pc == Idle
    ensures var t := After(c, s, events);
            IsPrefix(t.w.done, c.plan) && (t.pc == Exit(Completed) ==> forall step | step in c.plan :: step in t.w.done)
  {
    PlanEntries(c);
    AfterIsInOrder(c, s, events);
    var t := After(c, s, events);
    if t.pc == Exit(Completed) {
      CoversAll(t.w.done, c.plan);
    }
  }
}
