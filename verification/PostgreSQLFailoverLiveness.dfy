// When the PostgreSQL failover can still be finished: the exact condition over all states between runs,
// and the window in which an interrupted run makes it fail for good.
module PostgreSQLFailoverLiveness {
  import opened PostgreSQLMembers
  import opened PostgreSQLFailover
  import opened PostgreSQLFailoverSafety

  predicate Finished(pc: Pc) {
    pc == Exit(Completed) || pc == Exit(AlreadyCompleted) || pc == Exit(Reconciled)
  }

  // Some sequence of further runs finishes the operation.
  ghost predicate CanFinish(c: Config, s: State) {
    exists events :: Finished(After(c, s, events).pc)
  }

  // What must hold between runs: the promotion is recorded, or the target is a running standby.
  predicate Finishable(w: World) {
    PromoteTarget in w.done || (w.dst.running && w.dst.standby)
  }

  function Okay(c: Config, s: State): State {
    Happen(c, s, Answer(Ok))
  }

  lemma Onwards(c: Config, s: State, t: State)
    requires Leads(c, Okay(c, s), t)
    ensures Leads(c, s, t)
  {
    LeadsOn(c, s, Answer(Ok), t);
  }

  lemma PreOnwards(c: Config, s: State, call: PreCall, u: State, t: State)
    requires s.pc == Pre(call) && u == NextPre(c, s, call, Ok).(run := Remember(c, s, Ok)) && Leads(c, u, t)
    ensures Leads(c, s, t)
  {
    Onwards(c, s, t);
  }

  // ---- The stages of a run without faults ----

  // Looking for a completed operation.
  lemma {:induction false} CheckLeads(c: Config, s: State, i: nat) returns (t: State)
    requires i <= |c.plan| && s.pc == Pre(CheckDone(i))
    ensures Leads(c, s, t) && t.w == s.w && (t.pc == Pre(VerifyCompleted) || t.pc == Pre(ReadProgress))
    ensures i == 0 && 0 < |c.plan| && Mutating(c.plan[0]) && c.plan[0] !in s.w.done ==> t.pc == Pre(ReadProgress)
    decreases |c.plan| - i
  {
    var u := Okay(c, s);
    if i == |c.plan| || u.pc == Pre(ReadProgress) {
      t := u;
      LeadsNowhere(c, t);
    } else {
      t := CheckLeads(c, u, i + 1);
    }
    Onwards(c, s, t);
  }

  // Isolating the old primary, unless recorded.
  lemma IsolateLeads(c: Config, s: State, call: PreCall) returns (t: State)
    requires s.pc == Pre(call) && Finishable(s.w)
             && (FenceOldPrimary in s.w.done || call == RecordFence ==> s.w.isolated)
    requires call == ReadProgress || call == Precheck || call == ReadFence || call == Isolate || call == RecordFence
    requires call == Precheck ==> s.w.dst.running && s.w.dst.standby
    ensures Leads(c, s, t) && t.pc == Pre(VerifyIsolation)
    ensures t.w == s.w.(isolated := true, done := s.w.done + {FenceOldPrimary})
    decreases match call case ReadProgress => 5 case Precheck => 4 case ReadFence => 3 case Isolate => 2 case _ => 1
  {
    var u := NextPre(c, s, call, Ok).(run := Remember(c, s, Ok));
    if u.pc == Pre(VerifyIsolation) {
      t := u;
      LeadsNowhere(c, t);
    } else {
      t := IsolateLeads(c, u, u.pc.pre);
    }
    PreOnwards(c, s, call, u, t);
  }

  // Proving the isolation and taking the lease.
  lemma LeaseLeads(c: Config, s: State, call: PreCall) returns (t: State)
    requires s.pc == Pre(call) && s.w.isolated
    requires call == VerifyIsolation || call == RecordVerified || call == Lease || call == LeaseActive
             || call == RecordLease
    ensures Leads(c, s, t) && t.pc == Promoting(ReadPromoted)
    ensures t.w == s.w.(lease := t.w.lease, done := t.w.done)
    ensures s.w.done <= t.w.done <= s.w.done + {VerifyFenced, Authorize}
    decreases match call case VerifyIsolation => 5 case RecordVerified => 4 case Lease => 3 case LeaseActive => 2
      case _ => 1
  {
    var u := NextPre(c, s, call, Ok).(run := Remember(c, s, Ok));
    if call == RecordLease {
      t := u;
      LeadsNowhere(c, t);
    } else {
      t := LeaseLeads(c, u, u.pc.pre);
    }
    PreOnwards(c, s, call, u, t);
  }

  lemma PrepareLeads(c: Config, s: State) returns (t: State)
    requires s.pc == Pre(ReadProgress) && Finishable(s.w) && (FenceOldPrimary in s.w.done ==> s.w.isolated)
    ensures Leads(c, s, t) && t.pc == Promoting(ReadPromoted)
    ensures t.w == s.w.(isolated := true, lease := t.w.lease, done := t.w.done)
    ensures s.w.done <= t.w.done <= s.w.done + {FenceOldPrimary, VerifyFenced, Authorize}
  {
    var a := IsolateLeads(c, s, ReadProgress);
    t := LeaseLeads(c, a, VerifyIsolation);
    LeadsThen(c, s, a, t);
  }

  // The promotion, not yet recorded.
  lemma PromoteLeads(c: Config, s: State, call: PromoteCall) returns (t: State)
    requires s.pc == Promoting(call) && PromoteTarget !in s.w.done && s.w.dst.running && s.w.dst.standby
    requires call == ReadPromoted || call == ProbeStandby || call == Promote
    ensures Leads(c, s, t) && t.pc == Promoting(RecordPromote) && t.w == Promoted(s.w, Ok)
    decreases match call case ReadPromoted => 3 case ProbeStandby => 2 case _ => 1
  {
    var u := Okay(c, s);
    if call == Promote {
      t := u;
      LeadsNowhere(c, t);
    } else {
      t := PromoteLeads(c, u, u.pc.promote);
    }
    Onwards(c, s, t);
  }

  // Opening the new primary.
  lemma ActivateLeads(c: Config, s: State, call: PromoteCall) returns (t: State)
    requires s.pc == Promoting(call) && Primary(s.w.dst) && (call.Activate? ==> call.k < 2)
    requires !call.ReadPromoted? && !call.ProbeStandby? && !call.Promote?
    ensures Leads(c, s, t) && t.pc == Publishing(ReadTransferred)
    decreases match call case RecordPromote => 6 case ProbePrimary => 5 case ReadActivated => 4
      case Activate(k) => 3 - k case _ => 1
  {
    var u := Okay(c, s);
    if u.pc.Publishing? {
      t := u;
      LeadsNowhere(c, t);
    } else {
      t := ActivateLeads(c, u, u.pc.promote);
    }
    Onwards(c, s, t);
  }

  function PublishRank(c: Config, call: PublishCall): int {
    var after := 3 * |c.followers| + 3;
    match call
    case ReadTransferred => after + 6
    case VerifyEndpoint => after + 5
    case Transfer => after + 4
    case VerifyTransfer => after + 3
    case RecordTransfer => after + 2
    case Finalize => after + 1
    case ReadFollower(i) => 3 * (|c.followers| - i) + 3
    case RepointFollower(i) => 3 * (|c.followers| - i) + 2
    case RecordFollower(i) => 3 * (|c.followers| - i) + 1
  }

  // Publishing it and repointing the followers.
  lemma {:induction false} PublishFinishes(c: Config, s: State, call: PublishCall) returns (t: State)
    requires s.pc == Publishing(call) && (call == VerifyTransfer ==> s.w.endpoint)
    requires match call case ReadFollower(i) => i <= |c.followers| case RepointFollower(i) => i < |c.followers|
                        case RecordFollower(i) => i < |c.followers| case _ => true
    ensures Leads(c, s, t) && t.pc == Exit(Completed)
    decreases PublishRank(c, call)
  {
    var u := Okay(c, s);
    if u.pc.Exit? {
      t := u;
      LeadsNowhere(c, t);
    } else {
      t := PublishFinishes(c, u, u.pc.publish);
    }
    Onwards(c, s, t);
  }

  lemma PromotingFinishes(c: Config, s: State) returns (t: State)
    requires s.pc == Promoting(ReadPromoted)
    requires if PromoteTarget in s.w.done then Primary(s.w.dst) else s.w.dst.running && s.w.dst.standby
    ensures Leads(c, s, t) && t.pc == Exit(Completed)
  {
    var a: State;
    if PromoteTarget in s.w.done {
      a := Okay(c, s);
      LeadsNext(c, s, Answer(Ok));
    } else {
      a := PromoteLeads(c, s, ReadPromoted);
    }
    var b := ActivateLeads(c, a, a.pc.promote);
    t := PublishFinishes(c, b, ReadTransferred);
    LeadsThen(c, a, b, t);
    LeadsThen(c, s, a, t);
  }

  // ---- The exact condition ----

  lemma LaunchedFinishes(c: Config, s: State) returns (t: State)
    requires s.pc == Pre(CheckDone(0)) && Finishable(s.w) && (FenceOldPrimary in s.w.done ==> s.w.isolated)
    requires PromoteTarget in s.w.done ==> Primary(s.w.dst)
    ensures Leads(c, s, t) && Finished(t.pc)
  {
    var a := CheckLeads(c, s, 0);
    if a.pc == Pre(VerifyCompleted) {
      t := Okay(c, a);
      LeadsNext(c, a, Answer(Ok));
    } else {
      var b := PrepareLeads(c, a);
      t := PromotingFinishes(c, b);
      LeadsThen(c, a, b, t);
    }
    LeadsThen(c, s, a, t);
  }

  lemma FinishableFinishes(c: Config, s: State)
    requires s.pc == Idle && Finishable(s.w) && Inv(c, s)
    ensures CanFinish(c, s)
  {
    var a := Happen(c, s, Launch);
    var t := LaunchedFinishes(c, a);
    var events :| After(c, a, events) == t;
    assert After(c, s, [Launch]) == Happen(c, After(c, s, [Launch][..0]), Launch);
    AfterAppend(c, s, [Launch], events);
  }

  // The promotion is not recorded and the target is no running standby.
  predicate Stranded(s: State) {
    && !Finishable(s.w)
    && (match s.pc
        case Idle => true
        case Exit(out) => out.Failed?
        case Pre(CheckDone(i)) => i <= 3
        case Pre(ReadProgress) => true
        case Pre(Precheck) => true
        case _ => false)
  }

  lemma HappenKeepsStranded(c: Config, s: State, e: Event)
    requires Listed(c) && Stranded(s)
    ensures Stranded(Happen(c, s, e))
    ensures var b := Happen(c, s, e).w;
            b.dst.running == s.w.dst.running && b.dst.standby == s.w.dst.standby && b.done == s.w.done
  {}

  // Without a recorded promotion a target that left recovery, or is down, blocks every further run.
  lemma {:induction false} StrandedTargetBlocks(c: Config, s: State, events: seq<Event>)
    requires Planned(c) && s.pc == Idle && !Finishable(s.w)
    ensures var t := After(c, s, events);
            Stranded(t) && t.w.done == s.w.done && t.w.dst.running == s.w.dst.running
              && t.w.dst.standby == s.w.dst.standby
  {
    PlanEntries(c);
    if events != [] {
      StrandedTargetBlocks(c, s, events[..|events| - 1]);
      HappenKeepsStranded(c, After(c, s, events[..|events| - 1]), events[|events| - 1]);
    }
  }

  lemma StrandedNeverFinishes(c: Config, s: State)
    requires Planned(c) && s.pc == Idle && !Finishable(s.w)
    ensures !CanFinish(c, s)
  {
    forall more
      ensures !Finished(After(c, s, more).pc)
    {
      StrandedTargetBlocks(c, s, more);
    }
  }

  // In every state an operation can be in between runs, it can still be finished if and only if the
  // promotion is recorded or the target is a running standby.
  lemma {:induction false} CanFinishIff(c: Config, s0: State, events: seq<Event>)
    requires Planned(c) && Start(s0) && After(c, s0, events).pc == Idle
    ensures var s := After(c, s0, events); CanFinish(c, s) <==> Finishable(s.w)
  {
    var s := After(c, s0, events);
    if Finishable(s.w) {
      FailoverIsSafe(c, s0, events);
      FinishableFinishes(c, s);
    } else {
      StrandedNeverFinishes(c, s);
    }
  }

  // ---- The window ----

  lemma UnrecordedLeads(c: Config, s: State) returns (t: State)
    requires Listed(c) && s.pc == Pre(CheckDone(0)) && s.w.done == {} && s.w.dst.running && s.w.dst.standby
    ensures Leads(c, s, t) && t.pc == Promoting(RecordPromote) && !t.w.dst.standby && PromoteTarget !in t.w.done
  {
    var a := CheckLeads(c, s, 0);
    var b := PrepareLeads(c, a);
    t := PromoteLeads(c, b, ReadPromoted);
    LeadsThen(c, s, a, b);
    LeadsThen(c, s, b, t);
  }

  // From every start with a running standby: dying between promoting it and recording the promotion
  // leaves the operation blocked for good.
  lemma {:induction false} PromotionWindow(c: Config, s: State) returns (t: State)
    requires Planned(c) && Start(s) && s.w.dst.running
    ensures Leads(c, Happen(c, s, Launch), t) && t.pc == Idle && !CanFinish(c, t)
    ensures !t.w.dst.standby && PromoteTarget !in t.w.done
  {
    PlanEntries(c);
    var launched := Happen(c, s, Launch);
    var a := UnrecordedLeads(c, launched);
    t := CrashLeads(c, a);
    LeadsThen(c, launched, a, t);
    StrandedNeverFinishes(c, t);
  }

  // ---- A completed operation whose endpoint was lost ----

  lemma {:induction false} RecordedLeads(c: Config, s: State, i: nat) returns (t: State)
    requires i <= |c.plan| && s.pc == Pre(CheckDone(i)) && forall j | 0 <= j < |c.plan| :: c.plan[j] in s.w.done
    ensures Leads(c, s, t) && t.w == s.w && t.pc == Pre(VerifyCompleted)
    decreases |c.plan| - i
  {
    var u := Okay(c, s);
    if i == |c.plan| {
      t := u;
      LeadsNowhere(c, t);
    } else {
      t := RecordedLeads(c, u, i + 1);
    }
    Onwards(c, s, t);
  }

  lemma {:induction false} ReconcileLeads(c: Config, s: State, k: nat) returns (t: State)
    requires k <= 6 && s.pc == Pre(ReconcileEndpoint(k)) && (k > 4 ==> s.w.endpoint)
    ensures Leads(c, s, t) && t.pc == Exit(Reconciled) && t.w.endpoint && !t.w.lease
    decreases 6 - k
  {
    var u := Okay(c, s);
    if k == 6 {
      t := u;
      LeadsNowhere(c, t);
    } else {
      t := ReconcileLeads(c, u, u.pc.pre.k);
    }
    Onwards(c, s, t);
  }

  // When everything is recorded and only the endpoint is elsewhere, a run without further failures proves
  // the isolation again, brings the endpoint back and gives its lease up.
  lemma {:induction false} EndpointIsReconciled(c: Config, s: State) returns (t: State)
    requires s.pc == Idle && s.w.isolated && forall j | 0 <= j < |c.plan| :: c.plan[j] in s.w.done
    ensures Leads(c, Happen(c, s, Launch), t) && t.pc == Exit(Reconciled) && t.w.endpoint && !t.w.lease
  {
    var launched := Happen(c, s, Launch);
    var a := RecordedLeads(c, launched, 0);
    var b := Happen(c, a, Answer(ErrBefore));
    t := ReconcileLeads(c, Okay(c, b), 0);
    Onwards(c, b, t);
    LeadsOn(c, a, Answer(ErrBefore), t);
    LeadsThen(c, launched, a, t);
  }
}
