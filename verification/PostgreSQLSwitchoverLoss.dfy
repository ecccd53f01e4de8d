// Exactly when a run of the planned PostgreSQL switchover can lose commits, and a lease left behind.
module PostgreSQLSwitchoverLoss {
  import opened Progress
  import opened PostgreSQLMembers
  import opened PostgreSQLSwitchover
  import opened PostgreSQLSwitchoverSafety
  import opened PostgreSQLSwitchoverProgress
  import opened PostgreSQLSwitchoverOutcome
  import opened PostgreSQLSwitchoverRuns
  import opened PostgreSQLSwitchoverLiveness

  // Some course of the run loses a commit.
  ghost predicate CanLose(c: Config, s: State) {
    exists t :: Leads(c, s, t) && t.w.lost
  }

  lemma FreshStepLosesNothing(c: Config, s: State, e: Event)
    requires Inv(s) && Fresh(s) && !s.w.lost && !e.Launch?
    ensures var t := Happen(c, s, e); t.run.launch == s.run.launch && !t.w.lost
  {
    if e.Answer? {
      MovesSafely(c, s, e.reply);
      NextKeepsLaunch(c, s, e.reply);
    }
  }

  // A run that found no stale fence loses nothing.
  lemma {:induction false} FreshRunLosesNothing(c: Config, s: State, events: seq<Event>)
    requires Inv(s) && Fresh(s) && !s.w.lost && OneRun(events)
    ensures var t := After(c, s, events); Inv(t) && t.run.launch == s.run.launch && !t.w.lost
  {
    if events != [] {
      assert OneRun(events[..|events| - 1]);
      FreshRunLosesNothing(c, s, events[..|events| - 1]);
      HappenKeepsInv(c, After(c, s, events[..|events| - 1]), events[|events| - 1]);
      FreshStepLosesNothing(c, After(c, s, events[..|events| - 1]), events[|events| - 1]);
    }
  }

  // A client commits on the unfenced source before it is stopped; the run waits for less and promotes.
  lemma CommitThenLose(c: Config, s: State) returns (t: State)
    requires s.pc == Stopping(ReadStop) && LiveChecks(s.w) && CanCommit(s.w.src)
    requires PromoteTarget !in s.w.done && StopSource !in s.w.done && s.w.committed <= s.w.srcWal
    ensures Leads(c, s, t) && t.w.lost
  {
    var high := s.w.srcWal + s.position + s.w.dstReplay + 1;
    var next := s.w.(srcWal := high, committed := high);
    assert EnvStep(s.w, next);
    t := PromoteThenLose(c, Happen(c, s, Environment(next)));
    LeadsOn(c, s, Environment(next), t);
  }

  lemma PromoteThenLose(c: Config, s: State) returns (t: State)
    requires s.pc == Stopping(ReadStop) && LiveTarget(s.w) && PromoteTarget !in s.w.done && StopSource !in s.w.done
    requires s.position < s.w.committed <= s.w.srcWal && s.w.dstReplay < s.w.committed
    ensures Leads(c, s, t) && t.w.lost
  {
    var a := StopLeads(c, s, ReadStop);
    var b := ReplayLeads(c, a);
    LeadsThen(c, s, a, b);
    t := PromoteLeads(c, b);
    LeadsThen(c, s, b, t);
  }

  // What a run needs to find to lose commits: a recorded fence that was lifted again.
  predicate Stale(w: World) {
    && FenceWrites in w.done && StopSource !in w.done && PromoteTarget !in w.done
    && LiveChecks(w) && !w.src.loaded && w.committed <= w.srcWal
  }

  lemma StaleRunLoses(c: Config, s: State) returns (t: State)
    requires Listed(c) && s.pc == Pre(CheckDone(0)) && Stale(s.w)
    ensures Leads(c, s, t) && t.w.lost
  {
    var a := PreLeads(c, s, CheckDone(0));
    var b := FenceLeads(c, a);
    t := CommitThenLose(c, b);
    LeadsThen(c, a, b, t);
    LeadsThen(c, s, a, t);
  }

  lemma SafeRunLosesNothing(c: Config, s: State)
    requires Listed(c) && Inv(s) && (s.pc.Idle? || s.pc.Exit?) && LiveChecks(s.w) && !s.w.lost
    requires FenceWrites !in s.w.done || WriteFenced(s.w.src) || StopSource in s.w.done
    ensures !CanLose(c, Happen(c, s, Launch))
  {
    var t := Happen(c, s, Launch);
    HappenKeepsInv(c, s, Launch);
    forall run | OneRun(run)
      ensures !After(c, t, run).w.lost
    {
      if StopSource in s.w.done {
        AfterIsRolledBack(c, t, run);
      } else {
        FreshRunLosesNothing(c, t, run);
      }
    }
  }

  // For every state an operation can be in with a healthy primary and standby: the next run can lose
  // a commit if and only if the fence is recorded but the source is no longer fenced, and no stop is
  // recorded yet.
  lemma {:induction false} NextRunCanLoseIff(c: Config, s0: State, events: seq<Event>)
    requires Planned(c) && Start(s0)
    requires var s := After(c, s0, events); (s.pc.Idle? || s.pc.Exit?) && LiveChecks(s.w) && !s.w.lost
    ensures var s := After(c, s0, events);
            CanLose(c, Happen(c, s, Launch)) <==>
              FenceWrites in s.w.done && !WriteFenced(s.w.src) && StopSource !in s.w.done
  {
    var s := After(c, s0, events);
    PlanEntries(c);
    AfterKeepsInv(c, s0, events);
    if FenceWrites in s.w.done && !WriteFenced(s.w.src) && StopSource !in s.w.done {
      var t := StaleRunLoses(c, Happen(c, s, Launch));
    } else {
      SafeRunLosesNothing(c, s);
    }
  }

  // ---- A losing pair of runs ----

  // The first run fences the source, fails to read its capture step, and aborts cleanly.
  lemma FirstRunAborts(c: Config, s: State) returns (t: State)
    requires Listed(c) && s.pc == Pre(CheckDone(0)) && LiveChecks(s.w) && s.w.done == {} && s.w.committed <= s.w.srcWal
    ensures Leads(c, s, t) && t.pc == Exit(Failed(PreCommit)) && t.run.leased && !t.w.lease
    ensures Restored(t.w) && Stale(t.w)
  {
    var a := PreLeads(c, s, CheckDone(0));
    var b := FencedLeads(c, a, ReadFence);
    var d := FailCaptureLeads(c, b);
    t := AbortLeads(c, d, 0);
    LeadsThen(c, s, a, b);
    LeadsThen(c, s, b, d);
    LeadsThen(c, s, d, t);
  }

  // From every healthy start: a first run can report pre_commit with its lease aborted and the source
  // writable again, and the run launched after it can lose a commit.
  lemma {:induction false} TwoRunsCanLose(c: Config, s: State) returns (first: State, second: State)
    requires Planned(c) && Start(s) && LiveChecks(s.w)
    ensures Leads(c, Happen(c, s, Launch), first) && first.pc == Exit(Failed(PreCommit))
    ensures first.run.leased && !first.w.lease && Restored(first.w)
    ensures Leads(c, Happen(c, first, Launch), second) && second.w.lost
  {
    PlanEntries(c);
    first := FirstRunAborts(c, Happen(c, s, Launch));
    second := StaleRunLoses(c, Happen(c, first, Launch));
  }

  // ---- A lease left behind ----

  lemma LeasedLeads(c: Config, s: State, call: PreCall) returns (t: State)
    requires Listed(c) && s.pc == Pre(call) && LiveChecks(s.w) && s.w.done == {}
    requires call == CheckDone(0) || call == LivePrecheck || call == Lease || call == LeaseActive
    requires call == LeaseActive ==> s.w.lease && s.run.leased
    ensures Leads(c, s, t) && t.pc == Pre(RecordLease) && t.w.lease && t.run.leased
    decreases match call case CheckDone(_) => 4 case LivePrecheck => 3 case Lease => 2 case _ => 1
  {
    var u := Okay(c, s);
    if call == LeaseActive {
      t := u;
      LeadsNowhere(c, t);
    } else {
      t := LeasedLeads(c, u, u.pc.pre);
    }
    Onwards(c, s, t);
  }

  // From every healthy start a run can obtain the lease, fail to record it, and report pre_commit
  // with the lease still held.
  lemma {:induction false} LeaseCanBeLeft(c: Config, s: State) returns (t: State)
    requires Planned(c) && s.pc == Idle && s.w.done == {} && LiveChecks(s.w)
    ensures Leads(c, Happen(c, s, Launch), t) && t.pc == Exit(Failed(PreCommit)) && t.run.leased && t.w.lease
  {
    PlanEntries(c);
    var a := LeasedLeads(c, Happen(c, s, Launch), CheckDone(0));
    t := FailLeaseLeads(c, a);
    LeadsThen(c, Happen(c, s, Launch), a, t);
  }
}
