// The recorded steps of the MySQL failover are always a prefix of its plan and always true, and a
// completed run has moved the write role.
module MySQLFailoverProgress {
  import opened Progress
  import opened MySQLMembers
  import opened MySQLSteps
  import opened MySQLFailover
  import opened MySQLFailoverSafety

  ghost predicate Planned(c: Config) {
    c.plan == Plan(c.followers, c.semiSync)
  }

  // Where the reparent steps start in the plan.
  function Base(c: Config): nat {
    if c.semiSync then 3 else 4
  }

  // The plan read entry by entry.
  ghost predicate Listed(c: Config) {
    var n := |c.followers|;
    && |c.plan| == n + (if c.semiSync then 5 else 4)
    && c.plan[0] == FenceOldPrimary && c.plan[1] == AuthorizeTransition && c.plan[2] == PromoteTarget
    && (forall i | 0 <= i < n :: c.plan[Base(c) + i] == Reparent(c.followers[i]))
    && (if c.semiSync then c.plan[3 + n] == ActivateSemiSync && c.plan[4 + n] == TransferEndpoint
        else c.plan[3] == TransferEndpoint)
  }

  lemma PlanEntries(c: Config)
    requires Planned(c)
    ensures Listed(c)
  {}

  function PreReached(call: PreCall): nat {
    match call
    case ReadPromoted => 1
    case ProbeTarget => 1
    case ProbeReplication => 1
    case Lease => 1
    case RecordLease => 1
    case _ => 0
  }

  function FollowReached(c: Config, call: FollowCall): nat {
    match call
    case ReadFollower(i) => Base(c) + i
    case ReparentFollower(i, _) => Base(c) + i
    case RecordFollower(i) => Base(c) + i
    case _ => Base(c) + |c.followers|
  }

  // How many plan entries are certainly recorded when the run stands at a call. After the isolation
  // proof a recorded fence is counted.
  function Reached(c: Config, pc: Pc): nat {
    match pc
    case Pre(call) => PreReached(call)
    case Promoting(_) => 2
    case Publishing(_) => if c.semiSync then 4 + |c.followers| else 3
    case Following(call) => FollowReached(c, call)
    case Exit(out) => if out == Completed then |c.plan| else 0
    case _ => 0
  }

  predicate InRange(c: Config, s: State) {
    match s.pc
    case Pre(VerifyIsolation(fenced)) => fenced ==> FenceOldPrimary in s.w.done
    case Following(ReadFollower(i)) => i <= |c.followers|
    case Following(ReparentFollower(i, _)) => i < |c.followers|
    case Following(RecordFollower(i)) => i < |c.followers|
    case Following(_) => c.semiSync
    case _ => true
  }

  predicate Orderly(c: Config, s: State, t: State) {
    InRange(c, t) && Advances(s.w.done, t.w.done, c.plan, Reached(c, s.pc), Reached(c, t.pc))
  }

  lemma FollowIsOrderly(c: Config, s: State, call: FollowCall, reply: Reply)
    requires Listed(c) && s.pc == Following(call) && InRange(c, s)
    ensures Orderly(c, s, NextFollow(c, s, call, reply))
  {
    if call.ReparentFollower? {
      ReparentKeepsDone(c, s.w, c.followers[call.i], c.target, call.k, reply);
    }
  }

  lemma PreIsOrderly(c: Config, s: State, call: PreCall, reply: Reply)
    requires Listed(c) && s.pc == Pre(call) && InRange(c, s)
    ensures Orderly(c, s, NextPre(c, s, call, reply))
  {
  }

  lemma PromoteIsOrderly(c: Config, s: State, call: PromoteCall, reply: Reply)
    requires Listed(c) && s.pc == Promoting(call)
    ensures Orderly(c, s, NextPromote(c, s, call, reply))
  {
  }

  lemma PublishIsOrderly(c: Config, s: State, call: PublishCall, reply: Reply)
    requires Listed(c) && s.pc == Publishing(call)
    ensures Orderly(c, s, NextPublish(c, s, call, reply))
  {
  }

  lemma HappenIsOrderly(c: Config, s: State, e: Event)
    requires Listed(c) && InRange(c, s)
    ensures Orderly(c, s, Happen(c, s, e))
  {
    if e.Answer? {
      match s.pc
      case Pre(call) => PreIsOrderly(c, s, call, e.reply);
      case Promoting(call) => PromoteIsOrderly(c, s, call, e.reply);
      case Publishing(call) => PublishIsOrderly(c, s, call, e.reply);
      case Following(call) => FollowIsOrderly(c, s, call, e.reply);
      case _ =>
    }
  }

  ghost predicate InOrder(c: Config, s: State) {
    IsPrefix(s.w.done, c.plan) && InRange(c, s) && Covers(s.w.done, c.plan, Reached(c, s.pc))
  }

  // Over every sequence of runs the recorded steps are a prefix of the plan, and all of it once a
  // run has completed.
  lemma {:induction false} FailoverProgressIsPrefix(c: Config, s: State, events: seq<Event>)
    requires Planned(c) && s.w.done == {} && s.pc == Idle
    ensures var t := After(c, s, events);
            && IsPrefix(t.w.done, c.plan) && InOrder(c, t)
            && (t.pc == Exit(Completed) ==> forall step | step in c.plan :: step in t.w.done)
  {
    if events == [] {
      assert FirstSteps(c.plan, 0) == {};
    } else {
      var before := After(c, s, events[..|events| - 1]);
      var t := After(c, s, events);
      FailoverProgressIsPrefix(c, s, events[..|events| - 1]);
      PlanEntries(c);
      HappenIsOrderly(c, before, events[|events| - 1]);
      AdvanceKeepsPrefix(before.w.done, t.w.done, c.plan, Reached(c, before.pc), Reached(c, t.pc));
      if t.pc == Exit(Completed) {
        CoversAll(t.w.done, c.plan);
      }
    }
  }

  // What the executor has read about the target is true.
  predicate KnowsTarget(c: Config, s: State) {
    && s.v.promoted == (PromoteTarget in s.w.done) && s.v.targetFenced == Full(s.w.dst)
    && s.v.configured == s.w.dst.source.Some? && s.v.sample <= s.w.dstGtid
    && (s.v.safe ==> s.w.dst.source == Some(c.source) && SourceOwned(c, s.v.sample))
  }

  // A target that may be promoted for the first time: a fully fenced replica of the old primary whose
  // sampled history holds no foreign transaction.
  predicate SafeTarget(c: Config, s: State) {
    && Full(s.w.dst) && s.w.dst.source == Some(c.source)
    && SourceOwned(c, s.v.sample) && s.v.sample <= s.w.dstGtid
  }

  // Where the executor knows the target to be detached or open.
  predicate Tells(c: Config, s: State) {
    match s.pc
    case Pre(ProbeTarget) => s.v.promoted == (PromoteTarget in s.w.done)
    case Pre(ProbeReplication) => s.v.promoted == (PromoteTarget in s.w.done) && s.v.targetFenced == Full(s.w.dst)
    case Pre(Lease) => KnowsTarget(c, s)
    case Pre(RecordLease) => KnowsTarget(c, s)
    case Promoting(StopReplication) => PromoteTarget !in s.w.done && SafeTarget(c, s)
    case Promoting(ResetTarget) => PromoteTarget !in s.w.done
    case Promoting(call) => s.w.dst.source == None && (call == RecordPromote ==> Open(s.w.dst))
    case Publishing(call) => Open(s.w.dst) && s.w.dst.source == None
      && (call.Finalize? || call.RecordTransfer? ==> s.w.endpoint)
    case Following(call) =>
      && Open(s.w.dst) && s.w.dst.source == None
      && (match call
          case ReparentFollower(i, k) =>
            i < |c.followers| ==>
              var f := c.followers[i];
              && Reparent(f) !in s.w.done
              && (k > 0 ==> Full(At(c, s.w, f))) && (k > 5 ==> At(c, s.w, f).source == Some(c.target))
          case RecordFollower(i) => i < |c.followers| ==> Follows(c, s.w, c.followers[i])
          case RecordSemiSync => s.w.semiSync
          case _ => true)
    case Exit(out) => out == Completed ==> Open(s.w.dst) && s.w.dst.source == None
    case _ => true
  }

  ghost predicate Truthful(c: Config, s: State) {
    && Meaning(c, s.w) && FenceSource !in s.w.done && (FenceOldPrimary in s.w.done ==> s.w.isolated)
    && Tells(c, s)
  }

  lemma PromoteKeepsTruth(c: Config, s: State, call: PromoteCall, reply: Reply)
    requires Inv(c, s) && Truthful(c, s) && s.pc == Promoting(call)
    ensures Truthful(c, NextPromote(c, s, call, reply))
  {
    match call
    case StopReplication =>
      ExecKeepsMeaning(c, s.w, Plain, c.target, c.source, reply);
      ExecIsLocal(c, s.w, Plain, c.target, c.source, reply);
    case ResetTarget =>
      ExecKeepsMeaning(c, s.w, ResetReplication, c.target, c.source, reply);
      ExecIsLocal(c, s.w, ResetReplication, c.target, c.source, reply);
    case OpenTarget =>
      ExecKeepsMeaning(c, s.w, ReadOnlyOff, c.target, c.source, reply);
      ExecIsLocal(c, s.w, ReadOnlyOff, c.target, c.source, reply);
    case _ =>
  }

  lemma FollowKeepsTruth(c: Config, s: State, call: FollowCall, reply: Reply)
    requires Followers(c) && Inv(c, s) && Truthful(c, s) && s.pc == Following(call)
    ensures Truthful(c, NextFollow(c, s, call, reply))
  {
    if call.ReparentFollower? && call.i < |c.followers| {
      ReparentKeepsMeaning(c, s.w, c.followers[call.i], c.target, call.k, reply);
      ReparentBuilds(c, s.w, c.followers[call.i], c.target, call.k, reply);
      ReparentIsLocal(c, s.w, c.followers[call.i], c.target, call.k, reply);
      ReparentKeepsRoles(c, s.w, c.followers[call.i], c.target, call.k, reply);
    }
  }

  lemma RefenceKeepsTruth(c: Config, s: State, k: nat, ifFenced: Class, reply: Reply)
    requires Inv(c, s) && Truthful(c, s) && s.pc == Refence(k, ifFenced)
    ensures Truthful(c, NextRefence(c, s, k, ifFenced, reply))
  {
    ExecKeepsMeaning(c, s.w, SuperReadOnlyOn, c.target, c.source, reply);
    ExecKeepsMeaning(c, s.w, ReadOnlyOn, c.target, c.source, reply);
  }

  lemma PreKeepsTruth(c: Config, s: State, call: PreCall, reply: Reply)
    requires Inv(c, s) && Truthful(c, s) && s.pc == Pre(call)
    ensures Truthful(c, NextPre(c, s, call, reply))
  {}

  lemma PublishKeepsTruth(c: Config, s: State, call: PublishCall, reply: Reply)
    requires Inv(c, s) && Truthful(c, s) && s.pc == Publishing(call)
    ensures Truthful(c, NextPublish(c, s, call, reply))
  {}

  lemma NextKeepsTruth(c: Config, s: State, reply: Reply)
    requires Followers(c) && Inv(c, s) && Truthful(c, s)
    ensures Truthful(c, Next(c, s, reply))
  {
    match s.pc
    case Idle =>
    case Exit(_) =>
    case Pre(call) => PreKeepsTruth(c, s, call, reply);
    case Publishing(call) => PublishKeepsTruth(c, s, call, reply);
    case Promoting(call) => PromoteKeepsTruth(c, s, call, reply);
    case Following(call) => FollowKeepsTruth(c, s, call, reply);
    case Refence(k, ifFenced) => RefenceKeepsTruth(c, s, k, ifFenced, reply);
  }

  lemma {:induction false} AfterIsTruthful(c: Config, s: State, events: seq<Event>)
    requires Followers(c) && Start(c, s)
    ensures Truthful(c, After(c, s, events))
  {
    if events != [] {
      var e := events[|events| - 1];
      FailoverIsSafe(c, s, events[..|events| - 1]);
      AfterIsTruthful(c, s, events[..|events| - 1]);
      if e.Answer? {
        NextKeepsTruth(c, After(c, s, events[..|events| - 1]), e.reply);
      }
    }
  }

  // The target is first detached only as a fully fenced replica of the isolated old primary, and only
  // when every transaction it had executed beyond the observed history came from that primary.
  lemma {:induction false} OnlySafeTargetsAreDetached(c: Config, s: State, events: seq<Event>)
    requires Followers(c) && Start(c, s) && After(c, s, events).pc == Promoting(StopReplication)
    ensures var t := After(c, s, events);
            && t.w.isolated && Full(t.w.dst) && t.w.dst.source == Some(c.source) && t.v.sample <= t.w.dstGtid
            && forall x | x in t.v.sample && x !in c.observed :: x.origin == c.source
  {
    FailoverIsSafe(c, s, events);
    AfterIsTruthful(c, s, events);
  }

  // Whatever happened before, a run that completes leaves the old primary isolated, the target
  // detached and open, every eligible follower a fully read-only replica of it, and every step
  // recorded.
  lemma {:induction false} CompletedMeansFailedOver(c: Config, s: State, events: seq<Event>)
    requires Followers(c) && Planned(c) && Start(c, s)
    requires After(c, s, events).pc == Exit(Completed)
    ensures var w := After(c, s, events).w;
            && w.isolated && Open(w.dst) && w.dst.source == None && w.endpoint && (c.semiSync ==> w.semiSync)
            && (forall f | f in c.followers :: Follows(c, w, f))
            && (forall step | step in c.plan :: step in w.done) && After(c, s, events).run.finalized
  {
    AfterIsTruthful(c, s, events);
    AfterKeepsStage(c, s, events);
    FailoverProgressIsPrefix(c, s, events);
    PlanEntries(c);
    var w := After(c, s, events).w;
    assert c.plan[0] in c.plan && TransferEndpoint in c.plan && (c.semiSync ==> ActivateSemiSync in c.plan);
    forall f | f in c.followers
      ensures Follows(c, w, f)
    {
      var i :| 0 <= i < |c.followers| && c.followers[i] == f;
      assert c.plan[Base(c) + i] in c.plan;
    }
  }
}
