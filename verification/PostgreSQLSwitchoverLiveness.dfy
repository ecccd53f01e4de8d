// When the planned PostgreSQL switchover can still be finished: the exact condition over all states
// between runs, and the two ways an operation blocks itself for good.
module PostgreSQLSwitchoverLiveness {
  import opened Progress
  import opened PostgreSQLMembers
  import opened PostgreSQLSwitchover
  import opened PostgreSQLSwitchoverSafety
  import opened PostgreSQLSwitchoverProgress
  import opened PostgreSQLSwitchoverRuns

  predicate Finished(pc: Pc) {
    pc == Exit(Completed) || pc == Exit(AlreadyCompleted) || pc == Exit(Reconciled)
  }

  // Some sequence of further runs finishes the operation.
  ghost predicate CanFinish(c: Config, s: State) {
    exists events :: Finished(After(c, s, events).pc)
  }

  // ---- Blocked operations ----

  // A mutating step at position `m` is missing, and the roles are not those the precheck demands.
  predicate Unresumable(c: Config, s: State, m: nat) {
    && m < |c.plan| && Mutating(c.plan[m]) && c.plan[m] !in s.w.done && !LiveChecks(s.w)
    && (match s.pc
        case Idle => true
        case Exit(out) => out.Failed?
        case Pre(CheckDone(i)) => i <= m
        case Pre(LivePrecheck) => true
        case _ => false)
  }

  predicate SameServers(a: World, b: World) {
    SameServer(a.src, b.src) && SameServer(a.dst, b.dst) && a.following == b.following && a.done == b.done
  }

  lemma HappenKeepsUnresumable(c: Config, s: State, e: Event, m: nat)
    requires Unresumable(c, s, m)
    ensures Unresumable(c, Happen(c, s, e), m) && SameServers(Happen(c, s, e).w, s.w)
  {}

  // Whenever the source is no running primary or the target no running standby while a mutating step
  // is missing, every further run fails without changing a server or recording a step.
  lemma {:induction false} InterruptedStaysInterrupted(c: Config, s: State, events: seq<Event>, m: nat)
    requires s.pc == Idle && m < |c.plan| && Mutating(c.plan[m]) && c.plan[m] !in s.w.done && !LiveChecks(s.w)
    ensures var t := After(c, s, events); Unresumable(c, t, m) && SameServers(t.w, s.w)
  {
    if events != [] {
      InterruptedStaysInterrupted(c, s, events[..|events| - 1], m);
      HappenKeepsUnresumable(c, After(c, s, events[..|events| - 1]), events[|events| - 1], m);
    }
  }

  // The stop of the source is recorded although the source runs again: a rolled back operation.
  predicate RolledBack(s: State) {
    && StopSource in s.w.done && PromoteTarget !in s.w.done && LiveChecks(s.w)
    && (match s.pc
        case Stopping(call) => call == ReadStop || call == ProbeStopped
        case Pre(call) => !call.VerifyCompleted? && !call.ReconcileEndpoint? && (call.CheckDone? ==> call.i <= 6)
        case Publishing(_) => false
        case Following(_) => false
        case Rollback(_, _) => false
        case Exit(out) => out.Failed?
        case _ => true)
  }

  lemma PreKeepsRolledBack(c: Config, s: State, call: PreCall, reply: Reply)
    requires Listed(c) && RolledBack(s) && s.pc == Pre(call)
    ensures RolledBack(NextPre(c, s, call, reply)) && NextPre(c, s, call, reply).w.lost == s.w.lost
  {}

  lemma FenceKeepsRolledBack(c: Config, s: State, call: FenceCall, reply: Reply)
    requires RolledBack(s) && s.pc == Fencing(call)
    ensures RolledBack(NextFence(c, s, call, reply)) && NextFence(c, s, call, reply).w.lost == s.w.lost
  {}

  lemma AbortKeepsRolledBack(s: State, k: nat, failed: bool, reply: Reply)
    requires RolledBack(s) && s.pc == Abort(k, failed)
    ensures RolledBack(NextAbort(s, k, failed, reply)) && NextAbort(s, k, failed, reply).w.lost == s.w.lost
  {}

  lemma HappenKeepsRolledBack(c: Config, s: State, e: Event)
    requires Listed(c) && RolledBack(s)
    ensures RolledBack(Happen(c, s, e)) && Happen(c, s, e).w.lost == s.w.lost
  {
    if e.Answer? {
      match s.pc
      case Pre(call) => PreKeepsRolledBack(c, s, call, e.reply);
      case Fencing(call) => FenceKeepsRolledBack(c, s, call, e.reply);
      case Abort(k, failed) => AbortKeepsRolledBack(s, k, failed, e.reply);
      case _ =>
    }
  }

  lemma {:induction false} AfterIsRolledBack(c: Config, s: State, events: seq<Event>)
    requires Listed(c) && RolledBack(s)
    ensures RolledBack(After(c, s, events)) && After(c, s, events).w.lost == s.w.lost
  {
    if events != [] {
      AfterIsRolledBack(c, s, events[..|events| - 1]);
      HappenKeepsRolledBack(c, After(c, s, events[..|events| - 1]), events[|events| - 1]);
    }
  }

  // A rolled back operation never stops its source again and never promotes its target.
  lemma {:induction false} RolledBackNeverPromotes(c: Config, s: State, events: seq<Event>)
    requires Planned(c) && s.pc == Idle
    requires StopSource in s.w.done && PromoteTarget !in s.w.done && LiveChecks(s.w)
    ensures var t := After(c, s, events); Primary(t.w.src) && t.w.dst.standby && !Finished(t.pc)
  {
    PlanEntries(c);
    AfterIsRolledBack(c, s, events);
  }

  // ---- The exact condition ----

  // What must hold between runs: everything is recorded, or the source is a running primary with its
  // running standby and no stop is recorded.
  predicate Finishable(w: World) {
    RewindSource in w.done || (LiveChecks(w) && StopSource !in w.done)
  }

  lemma OnlyLastRewinds(c: Config, m: nat)
    requires Listed(c) && m < |c.plan| && c.plan[m] == RewindSource
    ensures m == |c.plan| - 1
  {
    forall i | 9 <= i < |c.plan| - 1
      ensures c.plan[i] != RewindSource
    {
      assert c.plan[9 + (i - 9)] == Repoint(c.followers[i - 9]);
    }
  }

  // The last step is recorded only with all others.
  lemma RewoundMeansAll(c: Config, done: set<Step>)
    requires Listed(c) && IsPrefix(done, c.plan) && RewindSource in done
    ensures forall i | 0 <= i < |c.plan| :: c.plan[i] in done
  {
    var k: nat :| k <= |c.plan| && done == FirstSteps(c.plan, k);
    var m :| 0 <= m < k && c.plan[..k][m] == RewindSource;
    OnlyLastRewinds(c, m);
    assert c.plan[..k] == c.plan;
  }

  lemma AllRecordedFinishes(c: Config, s: State) returns (t: State)
    requires s.pc == Pre(CheckDone(0)) && forall j | 0 <= j < |c.plan| :: c.plan[j] in s.w.done
    ensures Leads(c, s, t) && Finished(t.pc)
  {
    var a := RecordedLeads(c, s, 0);
    t := Okay(c, a);
    LeadsNext(c, a, Answer(Ok));
    LeadsThen(c, s, a, t);
  }

  // The whole way of a run that finds a healthy primary and standby: up to the promotion.
  lemma PromotionLeads(c: Config, s: State) returns (t: State)
    requires Listed(c) && s.pc == Pre(CheckDone(0)) && LiveChecks(s.w) && StopSource !in s.w.done
             && PromoteTarget !in s.w.done
    ensures Leads(c, s, t) && t.pc == Stopping(Promote) && LiveTarget(t.w) && !t.w.src.running
            && PromoteTarget !in t.w.done
    ensures RewindSource in t.w.done ==> RewindSource in s.w.done
  {
    var a := StoppedLeads(c, s);
    t := ReplayLeads(c, a);
    LeadsThen(c, s, a, t);
  }

  // Up to the proof that the source is stopped.
  lemma StoppedLeads(c: Config, s: State) returns (t: State)
    requires Listed(c) && s.pc == Pre(CheckDone(0)) && LiveChecks(s.w) && StopSource !in s.w.done
             && PromoteTarget !in s.w.done
    ensures Leads(c, s, t) && t.pc == Stopping(RecordStopped) && t.position <= t.w.srcWal
    ensures LiveTarget(t.w) && !t.w.src.running && !t.w.src.standby
    ensures StopSource in t.w.done && t.w.done <= s.w.done + {Authorize, FenceWrites, CaptureWal, StopSource}
  {
    var a := PreLeads(c, s, CheckDone(0));
    var b := FenceLeads(c, a);
    LeadsThen(c, s, a, b);
    t := WriteOnLeads(c, b);
    LeadsThen(c, s, b, t);
  }

  // The running source writes on, at least up to the position of the run, and is stopped.
  lemma WriteOnLeads(c: Config, s: State) returns (t: State)
    requires s.pc == Stopping(ReadStop) && LiveChecks(s.w) && StopSource !in s.w.done
    ensures Leads(c, s, t) && t.pc == Stopping(RecordStopped) && t.position <= t.w.srcWal
    ensures t.w == s.w.(srcWal := t.w.srcWal, src := Stopped(s.w.src), done := s.w.done + {StopSource})
  {
    var next := s.w.(srcWal := s.w.srcWal + s.position);
    assert EnvStep(s.w, next);
    var u := Happen(c, s, Environment(next));
    t := StopLeads(c, u, ReadStop);
    LeadsOn(c, s, Environment(next), t);
  }

  // From a promoted target to the end.
  lemma PromotedFinishes(c: Config, s: State) returns (t: State)
    requires s.pc == Stopping(Promote) && LiveTarget(s.w)
    ensures Leads(c, s, t) && t.pc == Exit(Completed)
  {
    var a := PromoteLeads(c, s);
    var b := Okay(c, a);
    var d := PublishLeads(c, b, ProbePrimary);
    t := FollowFinishes(c, d, ReadFollower(0));
    LeadsThen(c, b, d, t);
    Onwards(c, a, t);
    LeadsThen(c, s, a, t);
  }

  lemma LaunchedFinishes(c: Config, s: State) returns (t: State)
    requires Listed(c) && s.pc == Pre(CheckDone(0)) && Finishable(s.w) && IsPrefix(s.w.done, c.plan)
    requires LiveChecks(s.w) ==> PromoteTarget !in s.w.done
    ensures Leads(c, s, t) && Finished(t.pc)
  {
    if RewindSource in s.w.done {
      RewoundMeansAll(c, s.w.done);
      t := AllRecordedFinishes(c, s);
    } else {
      var a := PromotionLeads(c, s);
      t := PromotedFinishes(c, a);
      LeadsThen(c, s, a, t);
    }
  }

  lemma FinishableFinishes(c: Config, s: State)
    requires Listed(c) && s.pc == Idle && Finishable(s.w) && IsPrefix(s.w.done, c.plan) && Durable(s.w)
    ensures CanFinish(c, s)
  {
    var a := Happen(c, s, Launch);
    var t := LaunchedFinishes(c, a);
    var events :| After(c, a, events) == t;
    assert After(c, s, [Launch]) == Happen(c, After(c, s, [Launch][..0]), Launch);
    AfterAppend(c, s, [Launch], events);
  }

  lemma UnfinishableStays(c: Config, s: State, events: seq<Event>)
    requires Listed(c) && s.pc == Idle && !Finishable(s.w) && Durable(s.w)
    ensures !Finished(After(c, s, events).pc)
  {
    if LiveChecks(s.w) {
      AfterIsRolledBack(c, s, events);
    } else {
      InterruptedStaysInterrupted(c, s, events, |c.plan| - 1);
    }
  }

  // In every state an operation can be in between runs, it can still be finished if and only if
  // everything is recorded, or the source is a running primary with its running standby and no stop is
  // recorded.
  lemma {:induction false} CanFinishIff(c: Config, s0: State, events: seq<Event>)
    requires Planned(c) && Start(s0) && After(c, s0, events).pc == Idle
    ensures var s := After(c, s0, events); CanFinish(c, s) <==> Finishable(s.w)
  {
    var s := After(c, s0, events);
    PlanEntries(c);
    AfterKeepsInv(c, s0, events);
    AfterIsInOrder(c, s0, events);
    if Finishable(s.w) {
      FinishableFinishes(c, s);
    } else {
      forall more
        ensures !Finished(After(c, s, more).pc)
      {
        UnfinishableStays(c, s, more);
      }
    }
  }

  // ---- Windows ----

  // The first run of an operation on a healthy cluster is interrupted and leaves it blocked for good.
  ghost predicate EndsBlocked(c: Config, s: State, t: State) {
    Leads(c, Happen(c, s, Launch), t) && t.pc == Idle && !CanFinish(c, t)
  }

  lemma DiesBlocked(c: Config, s: State, x: State) returns (t: State)
    requires Planned(c) && Start(s) && Leads(c, Happen(c, s, Launch), x) && !Finishable(x.w)
    ensures EndsBlocked(c, s, t) && t == x.(pc := Idle)
  {
    var launched := Happen(c, s, Launch);
    t := CrashLeads(c, x);
    LeadsThen(c, launched, x, t);
    var events :| After(c, launched, events) == t;
    assert After(c, s, [Launch]) == Happen(c, After(c, s, [Launch][..0]), Launch);
    AfterAppend(c, s, [Launch], events);
    CanFinishIff(c, s, [Launch] + events);
  }

  // Dying between promoting the target and recording it.
  lemma {:induction false} PromotionWindow(c: Config, s: State) returns (t: State)
    requires Planned(c) && Start(s) && LiveChecks(s.w)
    ensures EndsBlocked(c, s, t) && !t.w.dst.standby && PromoteTarget !in t.w.done
  {
    PlanEntries(c);
    var launched := Happen(c, s, Launch);
    var a := PromotionLeads(c, launched);
    var b := PromoteLeads(c, a);
    LeadsThen(c, launched, a, b);
    t := DiesBlocked(c, s, b);
  }

  // Rolling back cleanly after the source was stopped.
  lemma {:induction false} RollbackWindow(c: Config, s: State) returns (x: State, t: State)
    requires Planned(c) && Start(s) && LiveChecks(s.w)
    ensures Leads(c, Happen(c, s, Launch), x) && x.pc == Exit(Failed(PreCommit)) && !x.w.lease
    ensures EndsBlocked(c, s, t) && t.w == x.w && LiveChecks(t.w) && StopSource in t.w.done
  {
    PlanEntries(c);
    var launched := Happen(c, s, Launch);
    var a := StoppedLeads(c, launched);
    var b := FailStoppedLeads(c, a);
    LeadsThen(c, launched, a, b);
    x := RollbackLeads(c, b, 0);
    LeadsThen(c, launched, b, x);
    t := DiesBlocked(c, s, x);
  }

  // ---- A completed operation whose endpoint was lost ----

  lemma {:induction false} RecordedLeads(c: Config, s: State, i: nat) returns (t: State)
    requires i <= |c.plan| && s.pc == Pre(CheckDone(i)) && forall j | 0 <= j < |c.plan| :: c.plan[j] in s.w.done
    ensures Leads(c, s, t) && t.w == s.w && t.pc == Pre(VerifyCompleted)
    decreases |c.plan| - i
  {
    var u := Okay(c, s);
    if i == |c.plan| {
      t := u;
      LeadsNowhere(c, t);
    } else {
      t := RecordedLeads(c, u, i + 1);
    }
    Onwards(c, s, t);
  }

  lemma {:induction false} ReconcileLeads(c: Config, s: State, k: nat) returns (t: State)
    requires k <= 6 && s.pc == Pre(ReconcileEndpoint(k)) && (k > 4 ==> s.w.endpoint)
    ensures Leads(c, s, t) && t.pc == Exit(Reconciled) && t.w.endpoint && !t.w.lease
    decreases 6 - k
  {
    var u := Okay(c, s);
    if k == 6 {
      t := u;
      LeadsNowhere(c, t);
    } else {
      t := ReconcileLeads(c, u, u.pc.pre.k);
    }
    Onwards(c, s, t);
  }

  // When everything is recorded and only the endpoint is elsewhere, a run without further failures brings
  // it back and gives its lease up.
  lemma {:induction false} EndpointIsReconciled(c: Config, s: State) returns (t: State)
    requires s.pc == Idle && forall j | 0 <= j < |c.plan| :: c.plan[j] in s.w.done
    ensures Leads(c, Happen(c, s, Launch), t) && t.pc == Exit(Reconciled) && t.w.endpoint && !t.w.lease
  {
    var launched := Happen(c, s, Launch);
    var a := RecordedLeads(c, launched, 0);
    t := ReconcileLeads(c, Happen(c, a, Answer(ErrBefore)), 0);
    LeadsOn(c, a, Answer(ErrBefore), t);
    LeadsThen(c, launched, a, t);
  }
}
