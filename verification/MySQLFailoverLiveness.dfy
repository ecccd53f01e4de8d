// When the MySQL failover can still be finished: the exact condition over all states between runs, and
// the window in which an interrupted run makes it fail for good.
module MySQLFailoverLiveness {
  import opened Progress
  import opened MySQLMembers
  import opened MySQLSteps
  import opened MySQLFailover
  import opened MySQLFailoverSafety
  import opened MySQLFailoverProgress
  import opened MySQLFailoverRuns

  predicate Finished(pc: Pc) {
    pc == Exit(Completed) || pc == Exit(AlreadyCompleted)
  }

  // Some sequence of further runs finishes the operation.
  ghost predicate CanFinish(c: Config, s: State) {
    exists events :: Finished(After(c, s, events).pc)
  }

  // What must hold between runs: the promotion is recorded, or the target is a fully fenced replica of
  // the old primary without foreign transactions.
  predicate Finishable(c: Config, w: World) {
    PromoteTarget in w.done || Promotable(c, w)
  }

  // ---- Finishing ----

  // From a target about to be opened to the end.
  lemma OpeningFinishes(c: Config, s: State) returns (t: State)
    requires c.source != c.target && s.pc == Promoting(ProbeWritable)
    ensures Leads(c, s, t) && t.pc == Exit(Completed)
  {
    var a := OpenLeads(c, s, ProbeWritable);
    if c.semiSync {
      var b := FollowLeads(c, a, 0);
      var d := SemiSyncLeads(c, b, ReadSemiSync);
      t := PublishLeads(c, d, Transfer);
      LeadsThen(c, b, d, t);
      LeadsThen(c, a, b, t);
    } else {
      var b := PublishLeads(c, a, Transfer);
      t := FollowLeads(c, b, 0);
      LeadsThen(c, a, b, t);
    }
    LeadsThen(c, s, a, t);
  }

  lemma PreparedFinishes(c: Config, s: State) returns (t: State)
    requires c.source != c.target && s.pc == Pre(Credentials) && Usable(c, s.w)
    ensures Leads(c, s, t) && t.pc == Exit(Completed)
  {
    var a := PrepareLeads(c, s);
    if PromoteTarget in s.w.done {
      t := OpeningFinishes(c, a);
    } else {
      var b := DetachLeads(c, a);
      t := OpeningFinishes(c, b);
      LeadsThen(c, a, b, t);
    }
    LeadsThen(c, s, a, t);
  }

  lemma LaunchedFinishes(c: Config, s: State) returns (t: State)
    requires c.source != c.target && s.pc == Pre(CheckDone(0)) && Usable(c, s.w)
    ensures Leads(c, s, t) && Finished(t.pc)
  {
    var a := CheckLeads(c, s, 0);
    if a.pc == Pre(VerifyCompleted) {
      t := Okay(c, a);
      LeadsNext(c, a, Answer(Ok));
    } else {
      t := PreparedFinishes(c, a);
    }
    LeadsThen(c, s, a, t);
  }

  lemma FoundFinishes(c: Config, s: State)
    requires c.source != c.target && s.pc == Idle && Usable(c, s.w)
    ensures CanFinish(c, s)
  {
    var a := Happen(c, s, Launch);
    var t := LaunchedFinishes(c, a);
    var events :| After(c, a, events) == t;
    assert After(c, s, [Launch]) == Happen(c, After(c, s, [Launch][..0]), Launch);
    AfterAppend(c, s, [Launch], events);
  }

  // ---- The target is never left half open ----

  // A target that was opened has either both flags on or both off.
  predicate Whole(s: State) {
    && (s.w.everWritable ==> Full(s.w.dst) || Open(s.w.dst))
    && (PromoteTarget in s.w.done ==> s.w.everWritable)
    && (s.pc.Refence? && s.pc.k > 1 ==> Full(s.w.dst))
  }

  lemma RefenceKeepsWhole(c: Config, s: State, k: nat, ifFenced: Class, reply: Reply)
    requires Inv(c, s) && Whole(s) && s.pc == Refence(k, ifFenced)
    ensures Whole(NextRefence(c, s, k, ifFenced, reply))
  {}

  lemma PromoteKeepsWhole(c: Config, s: State, call: PromoteCall, reply: Reply)
    requires Inv(c, s) && Whole(s) && Truthful(c, s) && s.pc == Promoting(call)
    ensures Whole(NextPromote(c, s, call, reply))
  {}

  lemma FollowKeepsWhole(c: Config, s: State, call: FollowCall, reply: Reply)
    requires Followers(c) && Inv(c, s) && Whole(s) && s.pc == Following(call)
    ensures Whole(NextFollow(c, s, call, reply))
  {
    if call.ReparentFollower? && call.i < |c.followers| {
      ReparentKeepsRoles(c, s.w, c.followers[call.i], c.target, call.k, reply);
    }
  }

  lemma PreKeepsWhole(c: Config, s: State, call: PreCall, reply: Reply)
    requires Whole(s) && s.pc == Pre(call)
    ensures Whole(NextPre(c, s, call, reply))
  {}

  lemma PublishKeepsWhole(c: Config, s: State, call: PublishCall, reply: Reply)
    requires Whole(s) && s.pc == Publishing(call)
    ensures Whole(NextPublish(c, s, call, reply))
  {}

  lemma NextKeepsWhole(c: Config, s: State, reply: Reply)
    requires Followers(c) && Inv(c, s) && Whole(s) && Truthful(c, s)
    ensures Whole(Next(c, s, reply))
  {
    match s.pc
    case Idle =>
    case Exit(_) =>
    case Pre(call) => PreKeepsWhole(c, s, call, reply);
    case Publishing(call) => PublishKeepsWhole(c, s, call, reply);
    case Promoting(call) => PromoteKeepsWhole(c, s, call, reply);
    case Following(call) => FollowKeepsWhole(c, s, call, reply);
    case Refence(k, ifFenced) => RefenceKeepsWhole(c, s, k, ifFenced, reply);
  }

  lemma {:induction false} AfterIsWhole(c: Config, s: State, events: seq<Event>)
    requires Followers(c) && Start(c, s)
    ensures Whole(After(c, s, events))
  {
    if events != [] {
      var front, e := events[..|events| - 1], events[|events| - 1];
      FailoverIsSafe(c, s, front);
      AfterIsTruthful(c, s, front);
      AfterIsWhole(c, s, front);
      if e.Answer? {
        NextKeepsWhole(c, After(c, s, front), e.reply);
      }
    }
  }

  // ---- Blocked operations ----

  // The promotion is not recorded and the target can no longer be promoted.
  predicate Stranded(c: Config, s: State) {
    && PromoteTarget !in s.w.done && !Promotable(c, s.w)
    && (match s.pc
        case Idle => true
        case Exit(out) => out.Failed?
        case Pre(call) =>
          && !call.VerifyCompleted? && (call.CheckDone? ==> call.i <= 2)
          && (call.ProbeTarget? || call.ProbeReplication? || call.Lease? || call.RecordLease? ==> !s.v.promoted)
          && (call.ProbeReplication? ==> s.v.targetFenced == Full(s.w.dst))
          && (call.Lease? || call.RecordLease? ==> !(s.v.targetFenced && s.v.safe))
        case _ => false)
  }

  lemma PreKeepsStranded(c: Config, s: State, call: PreCall, reply: Reply)
    requires |c.plan| > 2 && c.plan[2] == PromoteTarget && Stranded(c, s) && s.pc == Pre(call)
    ensures var t := NextPre(c, s, call, reply); Stranded(c, t) && SameRoles(t.w, s.w)
  {}

  lemma EnvKeepsStranded(c: Config, s: State, next: World)
    requires Stranded(c, s) && EnvStep(s.w, next)
    ensures Stranded(c, s.(w := next)) && SameRoles(next, s.w)
  {}

  lemma HappenKeepsStranded(c: Config, s: State, e: Event)
    requires Listed(c) && Stranded(c, s)
    ensures Stranded(c, Happen(c, s, e)) && SameRoles(Happen(c, s, e).w, s.w)
  {
    match e
    case Answer(reply) =>
      if s.pc.Pre? {
        PreKeepsStranded(c, s, s.pc.pre, reply);
      }
    case Environment(next) =>
      if EnvStep(s.w, next) {
        EnvKeepsStranded(c, s, next);
      }
    case _ =>
  }

  // Without a recorded promotion, a target that is detached, open, partly fenced, redirected or ahead
  // with foreign transactions blocks every further run: none touches a member or records a promotion.
  lemma {:induction false} StrandedTargetBlocks(c: Config, s: State, events: seq<Event>)
    requires Planned(c) && s.pc == Idle && !Finishable(c, s.w)
    ensures var t := After(c, s, events); Stranded(c, t) && SameRoles(t.w, s.w)
  {
    PlanEntries(c);
    if events != [] {
      StrandedTargetBlocks(c, s, events[..|events| - 1]);
      HappenKeepsStranded(c, After(c, s, events[..|events| - 1]), events[|events| - 1]);
    }
  }

  // ---- The exact condition ----

  // A recorded promotion comes with a recorded fence.
  lemma FencedWhenPromoted(c: Config, done: set<Step>)
    requires Listed(c) && IsPrefix(done, c.plan) && PromoteTarget in done
    ensures FenceOldPrimary in done
  {
    var k: nat :| k <= |c.plan| && done == FirstSteps(c.plan, k);
    assert k > 0;
    assert c.plan[..k][0] == FenceOldPrimary;
  }

  lemma StrandedNeverFinishes(c: Config, s: State)
    requires Planned(c) && s.pc == Idle && !Finishable(c, s.w)
    ensures !CanFinish(c, s)
  {
    forall more
      ensures !Finished(After(c, s, more).pc)
    {
      StrandedTargetBlocks(c, s, more);
    }
  }

  // In every state an operation can be in between runs, it can still be finished if and only if the
  // promotion is recorded, or the target is a fully fenced replica of the old primary without foreign
  // transactions.
  lemma {:induction false} CanFinishIff(c: Config, s0: State, events: seq<Event>)
    requires Planned(c) && Followers(c) && Start(c, s0) && After(c, s0, events).pc == Idle
    ensures var s := After(c, s0, events); CanFinish(c, s) <==> Finishable(c, s.w)
  {
    var s := After(c, s0, events);
    if Finishable(c, s.w) {
      FailoverIsSafe(c, s0, events);
      AfterIsTruthful(c, s0, events);
      AfterIsWhole(c, s0, events);
      FailoverProgressIsPrefix(c, s0, events);
      PlanEntries(c);
      if PromoteTarget in s.w.done {
        FencedWhenPromoted(c, s.w.done);
      }
      FoundFinishes(c, s);
    } else {
      StrandedNeverFinishes(c, s);
    }
  }

  // ---- The window ----

  lemma UnrecordedLeads(c: Config, s: State) returns (t: State)
    requires Listed(c) && c.source != c.target && s.pc == Pre(CheckDone(0)) && s.w.done == {} && Promotable(c, s.w)
    ensures Leads(c, s, t) && t.pc == Promoting(ProbeWritable) && t.w.dst.source == None && PromoteTarget !in t.w.done
  {
    assert c.plan[0] !in s.w.done;
    var a := CheckLeads(c, s, 0);
    var b := PrepareLeads(c, a);
    t := DetachLeads(c, b);
    LeadsThen(c, s, a, b);
    LeadsThen(c, s, b, t);
  }

  // From every start with a promotable target: dying between detaching it and recording its promotion
  // leaves the operation blocked for good.
  lemma {:induction false} DetachWindow(c: Config, s: State) returns (t: State)
    requires Planned(c) && Followers(c) && Start(c, s) && Promotable(c, s.w)
    ensures Leads(c, Happen(c, s, Launch), t) && t.pc == Idle && !CanFinish(c, t)
    ensures t.w.dst.source == None && PromoteTarget !in t.w.done
  {
    var launched := Happen(c, s, Launch);
    PlanEntries(c);
    var a := UnrecordedLeads(c, launched);
    t := CrashLeads(c, a);
    LeadsThen(c, launched, a, t);
    StrandedNeverFinishes(c, t);
  }
}
