// The stages of a planned PostgreSQL switchover run, and where some course of a run leads.
module PostgreSQLSwitchoverRuns {
  import opened PostgreSQLMembers
  import opened PostgreSQLSwitchover
  import opened PostgreSQLSwitchoverProgress

  function Okay(c: Config, s: State): State {
    Happen(c, s, Answer(Ok))
  }

  // One successful answer in front of a run.
  lemma Onwards(c: Config, s: State, t: State)
    requires Leads(c, Okay(c, s), t)
    ensures Leads(c, s, t)
  {
    LeadsOn(c, s, Answer(Ok), t);
  }

  // The same, for a call of a known phase.
  lemma FenceOnwards(c: Config, s: State, call: FenceCall, u: State, t: State)
    requires s.pc == Fencing(call) && u == NextFence(c, s, call, Ok).(run := Remember(c, s, Ok)) && Leads(c, u, t)
    ensures Leads(c, s, t)
  {
    Onwards(c, s, t);
  }

  lemma StopOnwards(c: Config, s: State, call: StopCall, u: State, t: State)
    requires s.pc == Stopping(call) && u == NextStop(c, s, call, Ok).(run := Remember(c, s, Ok)) && Leads(c, u, t)
    ensures Leads(c, s, t)
  {
    Onwards(c, s, t);
  }

  // Precheck and lease of a run that finds a healthy primary and standby and no recorded stop.
  lemma PreLeads(c: Config, s: State, call: PreCall) returns (t: State)
    requires Listed(c) && s.pc == Pre(call) && LiveChecks(s.w) && StopSource !in s.w.done
    requires !call.VerifyCompleted? && !call.ReconcileEndpoint? && (call.CheckDone? ==> call.i <= 3)
    requires call == LeaseActive || call == RecordLease ==> s.w.lease && s.run.leased
    ensures Leads(c, s, t) && t.pc == Fencing(ReadFence)
    ensures t.w == s.w.(done := s.w.done + {Authorize}, lease := true)
    ensures t.run.leased
    decreases match call case CheckDone(i) => 10 - i case LivePrecheck => 4 case Lease => 3 case LeaseActive => 2
      case _ => 1
  {
    var u := Okay(c, s);
    if call == RecordLease {
      t := u;
      LeadsNowhere(c, t);
    } else {
      t := PreLeads(c, u, u.pc.pre);
    }
    Onwards(c, s, t);
  }

  // Fencing, unless recorded.
  lemma FencedLeads(c: Config, s: State, call: FenceCall) returns (t: State)
    requires s.pc == Fencing(call) && LiveChecks(s.w)
    requires call == ReadFence || call == RecordFence || (call.FenceStatement? && call.k < 3)
    ensures Leads(c, s, t) && t.pc == Fencing(ReadCapture) && LiveChecks(t.w) && t.run.leased == s.run.leased
    ensures t.w == s.w.(src := t.w.src, done := s.w.done + {FenceWrites})
    ensures FenceWrites in s.w.done && call == ReadFence ==> t.w.src == s.w.src
    decreases match call case ReadFence => 5 case FenceStatement(k) => 4 - k case _ => 1
  {
    var u := NextFence(c, s, call, Ok).(run := Remember(c, s, Ok));
    if u.pc == Fencing(ReadCapture) {
      t := u;
      LeadsNowhere(c, t);
    } else {
      t := FencedLeads(c, u, u.pc.fence);
    }
    FenceOnwards(c, s, call, u, t);
  }

  // Capturing, unless recorded.
  lemma CaptureLeads(c: Config, s: State, call: FenceCall) returns (t: State)
    requires s.pc == Fencing(call) && s.w.src.running
             && (call == ReadCapture || call == Capture || call == RecordCapture)
    ensures Leads(c, s, t) && t.pc == Stopping(ReadStop)
    ensures t.w == s.w.(done := s.w.done + {CaptureWal}, position := t.w.position)
    decreases match call case ReadCapture => 3 case Capture => 2 case _ => 1
  {
    var u := NextFence(c, s, call, Ok).(run := Remember(c, s, Ok));
    if u.pc.Stopping? {
      t := u;
      LeadsNowhere(c, t);
    } else {
      t := CaptureLeads(c, u, u.pc.fence);
    }
    FenceOnwards(c, s, call, u, t);
  }

  lemma FenceLeads(c: Config, s: State) returns (t: State)
    requires s.pc == Fencing(ReadFence) && LiveChecks(s.w)
    ensures Leads(c, s, t) && t.pc == Stopping(ReadStop) && LiveChecks(t.w)
    ensures t.w == s.w.(src := t.w.src, done := s.w.done + {FenceWrites, CaptureWal}, position := t.w.position)
    ensures FenceWrites in s.w.done ==> t.w.src == s.w.src
  {
    var a := FencedLeads(c, s, ReadFence);
    t := CaptureLeads(c, a, ReadCapture);
    LeadsThen(c, s, a, t);
  }

  // Stopping the source and proving it stopped.
  lemma StopLeads(c: Config, s: State, call: StopCall) returns (t: State)
    requires s.pc == Stopping(call)
    requires call == ReadStop || call == StopServer || call == RecordStop || call == ProbeStopped
    requires call == ReadStop ==> StopSource !in s.w.done
    requires call == RecordStop || call == ProbeStopped ==> s.w.src == Stopped(s.w.src)
    requires call == ProbeStopped ==> StopSource in s.w.done
    ensures Leads(c, s, t) && t.pc == Stopping(RecordStopped) && t.position == s.position
    ensures t.w == s.w.(src := Stopped(s.w.src), done := s.w.done + {StopSource})
    decreases match call case ReadStop => 4 case StopServer => 3 case RecordStop => 2 case _ => 1
  {
    var u := NextStop(c, s, call, Ok).(run := Remember(c, s, Ok));
    if call == ProbeStopped {
      t := u;
      LeadsNowhere(c, t);
    } else {
      t := StopLeads(c, u, u.pc.stop);
    }
    StopOnwards(c, s, call, u, t);
  }

  // The target replays up to the position the run waits for.
  lemma WaitLeads(c: Config, s: State) returns (t: State)
    requires s.pc == Stopping(Wait) && s.position <= s.w.srcWal
    ensures Leads(c, s, t) && t.pc == Stopping(RecordWait)
    ensures t.w == s.w.(dstReplay := if s.w.dstReplay < s.position then s.position else s.w.dstReplay)
  {
    var next := s.w.(dstReplay := if s.w.dstReplay < s.position then s.position else s.w.dstReplay);
    assert EnvStep(s.w, next);
    var u := Happen(c, s, Environment(next));
    t := NextStop(c, u, Wait, Ok).(run := Remember(c, u, Ok));
    LeadsNowhere(c, t);
    StopOnwards(c, u, Wait, t, t);
    LeadsOn(c, s, Environment(next), t);
  }

  // Proving it a standby.
  lemma StandbyLeads(c: Config, s: State, call: StopCall) returns (t: State)
    requires s.pc == Stopping(call) && LiveTarget(s.w) && PromoteTarget !in s.w.done
    requires call == RecordWait || call == ReadPromoted || call == ProbeStandby
    ensures Leads(c, s, t) && t.pc == Stopping(Promote)
    ensures t.w == s.w.(done := t.w.done) && t.w.done <= s.w.done + {WaitWal}
    decreases match call case RecordWait => 3 case ReadPromoted => 2 case _ => 1
  {
    var u := NextStop(c, s, call, Ok).(run := Remember(c, s, Ok));
    if call == ProbeStandby {
      t := u;
      LeadsNowhere(c, t);
    } else {
      t := StandbyLeads(c, u, u.pc.stop);
    }
    StopOnwards(c, s, call, u, t);
  }

  // From a stopped source to a target about to be promoted.
  lemma ReplayLeads(c: Config, s: State) returns (t: State)
    requires s.pc == Stopping(RecordStopped) && LiveTarget(s.w) && PromoteTarget !in s.w.done
             && s.position <= s.w.srcWal
    ensures Leads(c, s, t) && t.pc == Stopping(Promote)
    ensures t.w == s.w.(done := t.w.done, dstReplay := t.w.dstReplay) && t.w.done <= s.w.done + {VerifyStopped, WaitWal}
    ensures t.w.dstReplay == (if s.w.dstReplay < s.position then s.position else s.w.dstReplay)
  {
    var a := RecordStoppedLeads(c, s);
    var b := WaitLeads(c, a);
    t := StandbyLeads(c, b, RecordWait);
    LeadsThen(c, a, b, t);
    LeadsThen(c, s, a, t);
  }

  lemma RecordStoppedLeads(c: Config, s: State) returns (t: State)
    requires s.pc == Stopping(RecordStopped)
    ensures Leads(c, s, t) && t.pc == Stopping(Wait) && t.position == s.position
    ensures t.w == s.w.(done := s.w.done + {VerifyStopped})
  {
    t := NextStop(c, s, RecordStopped, Ok).(run := Remember(c, s, Ok));
    LeadsNowhere(c, t);
    StopOnwards(c, s, RecordStopped, t, t);
  }

  // The target is a running standby.
  predicate LiveTarget(w: World) {
    w.dst.running && w.dst.standby
  }

  // The promotion itself, not yet recorded.
  lemma PromoteLeads(c: Config, s: State) returns (t: State)
    requires s.pc == Stopping(Promote)
    ensures Leads(c, s, t) && t.pc == Stopping(RecordPromote) && t.w == Promoted(s.w, Ok)
  {
    t := Okay(c, s);
    LeadsNext(c, s, Answer(Ok));
  }

  // Calls that fail without effect.
  lemma FailLeaseLeads(c: Config, s: State) returns (t: State)
    requires s.pc == Pre(RecordLease)
    ensures Leads(c, s, t) && t.pc == Exit(Failed(PreCommit)) && t.w == s.w && t.run.leased == s.run.leased
  {
    t := Happen(c, s, Answer(ErrBefore));
    LeadsNext(c, s, Answer(ErrBefore));
  }

  lemma FailCaptureLeads(c: Config, s: State) returns (t: State)
    requires s.pc == Fencing(ReadCapture)
    ensures Leads(c, s, t) && t.pc == Abort(0, false) && t.w == s.w && t.run.leased == s.run.leased
  {
    t := Happen(c, s, Answer(ErrBefore));
    LeadsNext(c, s, Answer(ErrBefore));
  }

  lemma FailStoppedLeads(c: Config, s: State) returns (t: State)
    requires s.pc == Stopping(RecordStopped)
    ensures Leads(c, s, t) && t.pc == Rollback(0, false) && t.w == s.w
  {
    t := Happen(c, s, Answer(ErrBefore));
    LeadsNext(c, s, Answer(ErrBefore));
  }

  // Publishing the promoted target.
  lemma PublishLeads(c: Config, s: State, call: PublishCall) returns (t: State)
    requires s.pc == Publishing(call) && s.w.dst.running && (call == ProbePrimary ==> Primary(s.w.dst))
    requires (call.Activate? ==> call.k < 2) && (call == VerifyTransfer ==> s.w.endpoint)
    ensures Leads(c, s, t) && t.pc == Following(ReadFollower(0))
    decreases match call case ProbePrimary => 11 case ReadActivated => 10 case Activate(k) => 9 - k
      case RecordActivated => 7
                         case ReadTransferred => 6 case VerifyEndpoint => 5 case Transfer => 4 case VerifyTransfer => 3
                         case RecordTransfer => 2 case _ => 1
  {
    var u := Okay(c, s);
    if call == Finalize {
      t := u;
      LeadsNowhere(c, t);
    } else {
      t := PublishLeads(c, u, u.pc.publish);
    }
    Onwards(c, s, t);
  }

  function FollowRank(c: Config, call: FollowCall): int {
    match call
    case ReadFollower(i) => 3 * (|c.followers| - i) + 6
    case RepointFollower(i) => 3 * (|c.followers| - i) + 5
    case RecordFollower(i) => 3 * (|c.followers| - i) + 4
    case ReadRewound => 3
    case Rewind => 2
    case _ => 1
  }

  // Repointing the followers and rewinding the source.
  lemma {:induction false} FollowFinishes(c: Config, s: State, call: FollowCall) returns (t: State)
    requires s.pc == Following(call) && !call.BaseBackup?
    requires match call case ReadFollower(i) => i <= |c.followers| case RepointFollower(i) => i < |c.followers|
                        case RecordFollower(i) => i < |c.followers| case _ => true
    ensures Leads(c, s, t) && t.pc == Exit(Completed)
    decreases FollowRank(c, call)
  {
    var u := Okay(c, s);
    if u.pc.Exit? {
      t := u;
      LeadsNowhere(c, t);
    } else {
      t := FollowFinishes(c, u, u.pc.follow);
    }
    Onwards(c, s, t);
  }

  // Giving up before the source is stopped.
  lemma AbortLeads(c: Config, s: State, k: nat) returns (t: State)
    requires k <= 2 && s.pc == Abort(k, false) && LiveChecks(s.w)
    requires (k > 0 ==> !s.w.src.setting) && (k > 1 ==> !s.w.src.loaded)
    ensures Leads(c, s, t) && t.pc == Exit(Failed(PreCommit)) && t.run.leased == s.run.leased
    ensures t.w == s.w.(src := s.w.src.(setting := false, loaded := false), lease := false)
    decreases 2 - k
  {
    var u := Okay(c, s);
    if k == 2 {
      t := u;
      LeadsNowhere(c, t);
    } else {
      t := AbortLeads(c, u, k + 1);
    }
    Onwards(c, s, t);
  }

  // Giving up after it.
  lemma RollbackLeads(c: Config, s: State, k: nat) returns (t: State)
    requires k <= 4 && s.pc == Rollback(k, false) && !s.w.src.standby && (k > 0 ==> s.w.src.running)
    requires (k > 2 ==> !s.w.src.setting) && (k > 3 ==> !s.w.src.loaded)
    ensures Leads(c, s, t) && t.pc == Exit(Failed(PreCommit))
    ensures t.w == s.w.(src := t.w.src, lease := false) && Primary(t.w.src) && !t.w.src.setting && !t.w.src.loaded
    decreases 4 - k
  {
    var u := NextRollback(s, k, false, Ok).(run := Remember(c, s, Ok));
    RollbackStep(s, k);
    if k == 4 {
      t := u;
      LeadsNowhere(c, t);
    } else {
      t := RollbackLeads(c, u, k + 1);
    }
    RollbackOnwards(c, s, k, u, t);
  }

  lemma RollbackStep(s: State, k: nat)
    requires k <= 4 && !s.w.src.standby && (k > 0 ==> s.w.src.running)
    requires (k > 2 ==> !s.w.src.setting) && (k > 3 ==> !s.w.src.loaded)
    ensures var u := NextRollback(s, k, false, Ok);
            && u.pc == (if k == 4 then Exit(Failed(PreCommit)) else Rollback(k + 1, false))
            && u.w == s.w.(src := u.w.src, lease := s.w.lease && k < 4) && Primary(u.w.src)
            && (k >= 2 ==> !u.w.src.setting) && (k >= 3 ==> !u.w.src.loaded)
  {}

  lemma RollbackOnwards(c: Config, s: State, k: nat, u: State, t: State)
    requires s.pc == Rollback(k, false) && u == NextRollback(s, k, false, Ok).(run := Remember(c, s, Ok))
    requires Leads(c, u, t)
    ensures Leads(c, s, t)
  {
    Onwards(c, s, t);
  }
}
