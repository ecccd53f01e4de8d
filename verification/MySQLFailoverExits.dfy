// How a failing MySQL failover run leaves the cluster: exactly when a writer stays behind, and exactly
// when a run that reports pre_commit can have detached the target or isolated the old primary.
module MySQLFailoverExits {
  import opened MySQLMembers
  import opened MySQLSteps
  import opened MySQLFailover
  import opened MySQLFailoverSafety
  import opened MySQLFailoverProgress
  import opened MySQLFailoverRuns
  import opened MySQLFailoverLiveness

  // ---- A writer left behind ----

  ghost predicate Reachable(c: Config, s: State, t: State) {
    exists events :: After(c, s, events) == t
  }

  // Some sequence of runs from some admissible start leaves a writer behind.
  ghost predicate CanLeaveWriter(c: Config) {
    exists s, t :: Start(c, s) && Reachable(c, s, t) && LeavesWriter(c, t)
  }

  // Once the target is open and the first follower is to be reparented, losing the record of that
  // follower ends the run with the target open.
  lemma ReparentThenLeave(c: Config, s: State) returns (t: State)
    requires Followers(c) && c.followers != [] && c.source != c.target && c.target !in c.others
    requires s.pc == Following(ReadFollower(0)) && Reparent(c.followers[0]) !in s.w.done
    requires Open(s.w.dst) && s.run.enabled && !s.run.finalized
    ensures Leads(c, s, t) && LeavesWriter(c, t)
  {
    var a := Okay(c, s);
    var b := ReparentLeads(c, a, 0, 0);
    Onwards(c, s, b);
    t := Happen(c, b, Answer(ErrBefore));
    LeadsNext(c, b, Answer(ErrBefore));
    LeadsThen(c, s, b, t);
  }

  lemma OpenThenLeave(c: Config, s: State) returns (t: State)
    requires Followers(c) && c.followers != [] && c.source != c.target && c.target !in c.others && c.semiSync
    requires s.pc == Promoting(StopReplication) && Reparent(c.followers[0]) !in s.w.done && !s.run.finalized
    ensures Leads(c, s, t) && LeavesWriter(c, t)
  {
    var a := DetachLeads(c, s);
    var b := OpenLeads(c, a, ProbeWritable);
    t := ReparentThenLeave(c, b);
    LeadsThen(c, a, b, t);
    LeadsThen(c, s, a, t);
  }

  lemma PromotableThenLeave(c: Config, s: State) returns (t: State)
    requires Followers(c) && c.followers != [] && c.semiSync && c.plan != [] && Start(c, s) && Promotable(c, s.w)
    ensures Leads(c, Happen(c, s, Launch), t) && LeavesWriter(c, t)
  {
    var launched := Happen(c, s, Launch);
    assert c.plan[0] !in launched.w.done;
    var a := CheckLeads(c, launched, 0);
    var b := PrepareLeads(c, a);
    t := OpenThenLeave(c, b);
    LeadsThen(c, a, b, t);
    LeadsThen(c, launched, a, t);
  }

  // A healthy cluster before a failover.
  function HealthyStart(c: Config): State {
    var w := World(Role(false, false, None), Role(true, true, Some(c.source)),
                   map n | n in c.others :: Role(true, true, Some(c.source)),
                   {}, {}, false, false, false, {}, {}, false);
    State(w, Idle, Locals(false, false, false, {}, false, false), NewRun(w))
  }

  // A failing run can leave a writer behind before its endpoint is published if and only if semi-sync
  // is required and there is a follower to reparent.
  lemma {:induction false} LeavesWriterIff(c: Config)
    requires Followers(c) && c.plan != []
    requires c.source != c.target && c.source !in c.others && c.target !in c.others
    ensures CanLeaveWriter(c) <==> c.semiSync && c.followers != []
  {
    if c.semiSync && c.followers != [] {
      var s := HealthyStart(c);
      assert Start(c, s) && Promotable(c, s.w);
      var t := PromotableThenLeave(c, s);
      LaunchedIsReachable(c, s, t);
    } else {
      forall s, t | Start(c, s) && Reachable(c, s, t)
        ensures !LeavesWriter(c, t)
      {
        var events :| After(c, s, events) == t;
        NoWriterLeft(c, s, events);
      }
    }
  }

  lemma LaunchedIsReachable(c: Config, s: State, t: State)
    requires Leads(c, Happen(c, s, Launch), t)
    ensures Reachable(c, s, t)
  {
    var events :| After(c, Happen(c, s, Launch), events) == t;
    assert After(c, s, [Launch]) == Happen(c, After(c, s, [Launch][..0]), Launch);
    AfterAppend(c, s, [Launch], events);
  }

  // ---- What pre_commit and fenced mean ----

  // The run has detached a fully fenced replica of the isolated old primary, and changed no other role.
  predicate Detached(c: Config, s: State) {
    && Full(s.run.launch.dst) && s.run.launch.dst.source == Some(c.source) && s.w.isolated
    && SameRoles(s.w, s.run.launch.(dst := s.run.launch.dst.(source := None)))
  }

  // The roles at a call compared with those at the start of the run.
  predicate Reported(c: Config, s: State) {
    match s.pc
    case Idle => true
    case Pre(call) => SameRoles(s.w, s.run.launch)
    case Promoting(call) =>
      && s.w.isolated
      && (call.StopReplication? || call.ResetTarget? ==>
            SameRoles(s.w, s.run.launch) && Full(s.w.dst) && s.w.dst.source == Some(c.source))
    case Refence(_, ifFenced) => s.w.isolated && ifFenced != PreCommit
    case Exit(out) =>
      && (out == Failed(PreCommit) ==> SameRoles(s.w, s.run.launch) || Detached(c, s))
      && (out == Failed(Fenced) ==> s.w.isolated)
    case _ => true
  }

  lemma PreKeepsReported(c: Config, s: State, call: PreCall, reply: Reply)
    requires Inv(c, s) && Truthful(c, s) && Reported(c, s) && s.pc == Pre(call)
    ensures Reported(c, NextPre(c, s, call, reply).(run := Remember(c, s, reply)))
  {}

  lemma PromoteKeepsReported(c: Config, s: State, call: PromoteCall, reply: Reply)
    requires Inv(c, s) && Truthful(c, s) && Reported(c, s) && s.pc == Promoting(call)
    ensures Reported(c, NextPromote(c, s, call, reply).(run := Remember(c, s, reply)))
  {
    match call
    case StopReplication => ExecIsLocal(c, s.w, Plain, c.target, c.source, reply);
    case ResetTarget => ExecIsLocal(c, s.w, ResetReplication, c.target, c.source, reply);
    case OpenTarget => ExecIsLocal(c, s.w, ReadOnlyOff, c.target, c.source, reply);
    case _ =>
  }

  lemma PublishKeepsReported(c: Config, s: State, call: PublishCall, reply: Reply)
    requires Inv(c, s) && s.pc == Publishing(call)
    ensures Reported(c, NextPublish(c, s, call, reply).(run := Remember(c, s, reply)))
  {}

  lemma FollowKeepsReported(c: Config, s: State, call: FollowCall, reply: Reply)
    requires Followers(c) && Inv(c, s) && s.pc == Following(call)
    ensures Reported(c, NextFollow(c, s, call, reply).(run := Remember(c, s, reply)))
  {
    if call.ReparentFollower? && call.i < |c.followers| {
      ReparentKeepsRoles(c, s.w, c.followers[call.i], c.target, call.k, reply);
    }
  }

  lemma RefenceKeepsReported(c: Config, s: State, k: nat, ifFenced: Class, reply: Reply)
    requires Inv(c, s) && Reported(c, s) && s.pc == Refence(k, ifFenced)
    ensures Reported(c, NextRefence(c, s, k, ifFenced, reply).(run := Remember(c, s, reply)))
  {
    RefenceCloses(c, s.w, k, reply);
  }

  lemma HappenKeepsReported(c: Config, s: State, e: Event)
    requires Followers(c) && Inv(c, s) && Truthful(c, s) && Reported(c, s)
    ensures Reported(c, Happen(c, s, e))
  {
    if e.Answer? {
      match s.pc
      case Idle =>
      case Exit(_) =>
      case Pre(call) => PreKeepsReported(c, s, call, e.reply);
      case Promoting(call) => PromoteKeepsReported(c, s, call, e.reply);
      case Publishing(call) => PublishKeepsReported(c, s, call, e.reply);
      case Following(call) => FollowKeepsReported(c, s, call, e.reply);
      case Refence(k, ifFenced) => RefenceKeepsReported(c, s, k, ifFenced, e.reply);
    }
  }

  lemma {:induction false} AfterIsReported(c: Config, s: State, events: seq<Event>)
    requires Followers(c) && Start(c, s)
    ensures Reported(c, After(c, s, events))
  {
    if events != [] {
      FailoverIsSafe(c, s, events[..|events| - 1]);
      AfterIsTruthful(c, s, events[..|events| - 1]);
      AfterIsReported(c, s, events[..|events| - 1]);
      HappenKeepsReported(c, After(c, s, events[..|events| - 1]), events[|events| - 1]);
    }
  }

  // Whatever happened before: the roles after a pre_commit run are those it has found, except that the
  // target may have been detached. A fenced run leaves the old primary isolated.
  lemma {:induction false} ReportedClassIsTrue(c: Config, s: State, events: seq<Event>)
    requires Followers(c) && Start(c, s)
    ensures var t := After(c, s, events);
            && (t.pc == Exit(Failed(PreCommit)) ==> SameRoles(t.w, t.run.launch) || Detached(c, t))
            && (t.pc == Exit(Failed(Fenced)) ==> t.w.isolated)
  {
    AfterIsReported(c, s, events);
  }

  // ---- A pre_commit run that detaches the target ----

  // Some course of a run launched now reports pre_commit and has detached the target.
  ghost predicate CanDetach(c: Config, s: State) {
    exists t :: && Leads(c, Happen(c, s, Launch), t) && t.pc == Exit(Failed(PreCommit))
                && s.w.dst.source.Some? && t.w.dst.source.None?
  }

  // Resetting the replication of the target takes effect and fails.
  lemma ResetFails(c: Config, s: State) returns (t: State)
    requires c.source != c.target && s.pc == Promoting(StopReplication)
    ensures Leads(c, s, t) && t.pc == Exit(Failed(PreCommit)) && t.w.dst.source == None
  {
    var u := StopReplicationLeads(c, s);
    t := Happen(c, u, Answer(ErrAfter));
    LeadsNext(c, u, Answer(ErrAfter));
    LeadsThen(c, s, u, t);
  }

  lemma PromotableCanDetach(c: Config, s: State)
    requires Planned(c) && c.source != c.target && s.pc == Idle
    requires Usable(c, s.w) && PromoteTarget !in s.w.done
    ensures CanDetach(c, s)
  {
    var launched := Happen(c, s, Launch);
    PlanEntries(c);
    Unrecorded(c, s.w.done, 0);
    var a := CheckLeads(c, launched, 0);
    var b := PrepareLeads(c, a);
    var t := ResetFails(c, b);
    LeadsThen(c, launched, a, b);
    LeadsThen(c, launched, b, t);
  }

  // A plan whose promotion is not recorded is not all recorded.
  lemma {:induction false} Unrecorded(c: Config, done: set<Step>, i: nat)
    requires Listed(c) && i <= 2 && PromoteTarget !in done
    ensures !RecordedFrom(c, done, i)
    decreases 2 - i
  {
    if i < 2 {
      Unrecorded(c, done, i + 1);
    }
  }

  // In every state an operation can be in between runs: the next run can report pre_commit and have
  // detached the target if and only if the promotion is not recorded and the target is a fully fenced
  // replica of the old primary without foreign transactions.
  lemma {:induction false} PreCommitDetachesIff(c: Config, s0: State, events: seq<Event>)
    requires Planned(c) && Followers(c) && Start(c, s0) && After(c, s0, events).pc == Idle
    ensures var s := After(c, s0, events);
            CanDetach(c, s) <==> PromoteTarget !in s.w.done && Promotable(c, s.w)
  {
    var s := After(c, s0, events);
    FailoverIsSafe(c, s0, events);
    AfterIsTruthful(c, s0, events);
    if PromoteTarget !in s.w.done {
      if Promotable(c, s.w) {
        PromotableCanDetach(c, s);
      } else {
        forall t | Leads(c, Happen(c, s, Launch), t)
          ensures t.w.dst == s.w.dst
        {
          StrandedStays(c, s, t);
        }
      }
    }
  }

  lemma StrandedStays(c: Config, s: State, t: State)
    requires Planned(c) && s.pc == Idle && !Finishable(c, s.w) && Leads(c, Happen(c, s, Launch), t)
    ensures t.w.dst == s.w.dst
  {
    LaunchedIsReachable(c, s, t);
    var events :| After(c, s, events) == t;
    StrandedTargetBlocks(c, s, events);
  }

  // ---- A pre_commit run that isolates the old primary ----

  // Some course of a run launched now reports pre_commit and has isolated the old primary.
  ghost predicate CanIsolate(c: Config, s: State) {
    exists t :: && Leads(c, Happen(c, s, Launch), t) && t.pc == Exit(Failed(PreCommit))
                && !s.w.isolated && t.w.isolated
  }

  // The isolation is carried out, and its verification fails.
  lemma VerifyFails(c: Config, s: State, call: PreCall) returns (t: State)
    requires s.pc == Pre(call) && FenceOldPrimary !in s.w.done
    requires call == Credentials || call == ReadFence || call == Isolate || (call.VerifyIsolation? && s.w.isolated)
    ensures Leads(c, s, t) && t.pc == Exit(Failed(PreCommit)) && t.w.isolated
    decreases match call case Credentials => 4 case ReadFence => 3 case Isolate => 2 case _ => 1
  {
    if call.VerifyIsolation? {
      t := Happen(c, s, Answer(ErrBefore));
      LeadsNext(c, s, Answer(ErrBefore));
    } else {
      var u := NextPre(c, s, call, Ok).(run := Remember(c, s, Ok));
      t := VerifyFails(c, u, u.pc.pre);
      PreOnwards(c, s, call, u, t);
    }
  }

  // In every state an operation can be in between runs: the next run can report pre_commit and have
  // isolated the old primary if and only if it is not isolated yet; a recorded fence is never lifted.
  lemma {:induction false} PreCommitIsolatesIff(c: Config, s0: State, events: seq<Event>)
    requires Planned(c) && Followers(c) && Start(c, s0) && After(c, s0, events).pc == Idle
    ensures var s := After(c, s0, events);
            (CanIsolate(c, s) <==> !s.w.isolated) && (FenceOldPrimary in s.w.done ==> s.w.isolated)
  {
    var s := After(c, s0, events);
    AfterIsTruthful(c, s0, events);
    if !s.w.isolated {
      var launched := Happen(c, s, Launch);
      PlanEntries(c);
      assert c.plan[0] !in s.w.done;
      var a := CheckLeads(c, launched, 0);
      var t := VerifyFails(c, a, Credentials);
      LeadsThen(c, launched, a, t);
    }
  }
}
