// What a recorded step and the end of a run say about the cluster: every recorded step is true, a
// completed run has moved the write role, and a run that reports pre_commit has changed nothing.
module MySQLSwitchoverOutcome {
  import opened MySQLMembers
  import opened MySQLSteps
  import opened MySQLSwitchover
  import opened MySQLSwitchoverSafety
  import opened MySQLSwitchoverProgress

  predicate FenceTells(call: FenceCall, w: World, launch: World) {
    match call
    case Lease(fenced) => SameRoles(w, launch) && (fenced ==> Full(w.src))
    case RecordLease(fenced) => SameRoles(w, launch) && (fenced ==> Full(w.src))
    case FenceSuper => SameRoles(w, launch)
    case FenceRecheck => SameRoles(w, launch) || Full(w.src)
    case _ => Full(w.src)
  }

  predicate PromoteTells(call: PromoteCall, w: World) {
    && Full(w.src)
    && (match call
        case ProbeDetach => true
        case StopReplication => true
        case ResetTarget => true
        case RecordStop => w.dst.source == None
        case ProbeWritable => w.dst.source == None
        case OpenTarget => w.dst.source == None
        case ProbeOpened => w.dst.source == None
        case RecordPromote => w.dst.source == None && Open(w.dst))
  }

  predicate FollowTells(c: Config, call: FollowCall, w: World) {
    && Full(w.src) && Open(w.dst) && w.dst.source == None
    && (match call
        case ReparentFollower(i, k) =>
          i < |c.followers| ==>
            var f := c.followers[i];
            && Reparent(f) !in w.done
            && (k > 0 ==> Full(At(c, w, f))) && (k > 5 ==> At(c, w, f).source == Some(c.target))
        case RecordFollower(i) => i < |c.followers| ==> Follows(c, w, c.followers[i])
        case RecordSemiSync => w.semiSync
        case _ => true)
  }

  predicate ExitTells(out: Outcome, w: World, launch: World) {
    match out
    case Completed => Full(w.src) && Open(w.dst) && w.dst.source == None
    case AlreadyCompleted => SameRoles(w, launch)
    case Failed(cause) => (cause == PreCommit ==> SameRoles(w, launch)) && (cause == Fenced ==> Full(w.src))
  }

  predicate Tells(c: Config, s: State) {
    match s.pc
    case Idle => true
    case Exit(out) => ExitTells(out, s.w, s.run.launch)
    case Pre(call) => SameRoles(s.w, s.run.launch) && (call.Resume? || call.ReadFenceOwner? ==> Full(s.w.src))
    case Fencing(call) => FenceTells(call, s.w, s.run.launch)
    case Promoting(call) => PromoteTells(call, s.w)
    case Following(call) => FollowTells(c, call, s.w)
    case Publishing(call) =>
      && Full(s.w.src) && Open(s.w.dst) && s.w.dst.source == None
      && (call.Finalize? || call.RecordTransfer? || call.RecordRetain? ==> s.w.endpoint)
    case Restore(k) => Full(s.w.src) && (k > 0 ==> PromoteTarget !in s.w.done)
    case Refence(_, ifFenced) => Full(s.w.src) && ifFenced != PreCommit
  }

  ghost predicate Truthful(c: Config, s: State) {
    Meaning(c, s.w) && Tells(c, s)
  }

  lemma FenceKeepsTruth(c: Config, s: State, call: FenceCall, reply: Reply)
    requires Inv(c, s) && Truthful(c, s) && s.pc == Fencing(call)
    ensures Truthful(c, NextFence(c, s, call, reply))
  {
    match call
    case FenceSuper =>
      ExecKeepsMeaning(c, s.w, SuperReadOnlyOn, c.source, c.target, reply);
      ExecIsLocal(c, s.w, SuperReadOnlyOn, c.source, c.target, reply);
    case FenceReadOnly =>
      ExecKeepsMeaning(c, s.w, ReadOnlyOn, c.source, c.target, reply);
      ExecIsLocal(c, s.w, ReadOnlyOn, c.source, c.target, reply);
    case _ =>
  }

  lemma PromoteKeepsTruth(c: Config, s: State, call: PromoteCall, reply: Reply)
    requires Inv(c, s) && Truthful(c, s) && s.pc == Promoting(call)
    ensures Truthful(c, NextPromote(c, s, call, reply))
  {
    match call
    case StopReplication =>
      ExecKeepsMeaning(c, s.w, Plain, c.target, c.source, reply);
      ExecIsLocal(c, s.w, Plain, c.target, c.source, reply);
    case ResetTarget =>
      ExecKeepsMeaning(c, s.w, ResetReplication, c.target, c.source, reply);
      ExecIsLocal(c, s.w, ResetReplication, c.target, c.source, reply);
    case OpenTarget =>
      ExecKeepsMeaning(c, s.w, ReadOnlyOff, c.target, c.source, reply);
      ExecIsLocal(c, s.w, ReadOnlyOff, c.target, c.source, reply);
    case _ =>
  }

  lemma FollowKeepsTruth(c: Config, s: State, call: FollowCall, reply: Reply)
    requires Followers(c) && Inv(c, s) && Truthful(c, s) && s.pc == Following(call)
    ensures Truthful(c, NextFollow(c, s, call, reply))
  {
    if call.ReparentFollower? && call.i < |c.followers| {
      ReparentKeepsMeaning(c, s.w, c.followers[call.i], c.target, call.k, reply);
      ReparentBuilds(c, s.w, c.followers[call.i], c.target, call.k, reply);
      ReparentIsLocal(c, s.w, c.followers[call.i], c.target, call.k, reply);
    }
  }

  lemma RefenceKeepsTruth(c: Config, s: State, k: nat, ifFenced: Class, reply: Reply)
    requires Inv(c, s) && Truthful(c, s) && s.pc == Refence(k, ifFenced)
    ensures Truthful(c, NextRefence(c, s, k, ifFenced, reply))
  {
    ExecKeepsMeaning(c, s.w, SuperReadOnlyOn, c.target, c.source, reply);
    ExecKeepsMeaning(c, s.w, ReadOnlyOn, c.target, c.source, reply);
    ExecIsLocal(c, s.w, SuperReadOnlyOn, c.target, c.source, reply);
    ExecIsLocal(c, s.w, ReadOnlyOn, c.target, c.source, reply);
  }

  lemma RestoreKeepsTruth(c: Config, s: State, k: nat, reply: Reply)
    requires Inv(c, s) && Truthful(c, s) && s.pc == Restore(k)
    ensures Truthful(c, NextRestore(c, s, k, reply))
  {
    if k > 0 {
      ReparentKeepsMeaning(c, s.w, c.target, c.source, k - 1, reply);
      ReparentIsLocal(c, s.w, c.target, c.source, k - 1, reply);
    }
  }

  lemma PreKeepsTruth(c: Config, s: State, call: PreCall, reply: Reply)
    requires Inv(c, s) && Truthful(c, s) && s.pc == Pre(call)
    ensures Truthful(c, NextPre(c, s, call, reply))
  {}

  lemma PublishKeepsTruth(c: Config, s: State, call: PublishCall, reply: Reply)
    requires Inv(c, s) && Truthful(c, s) && s.pc == Publishing(call)
    ensures Truthful(c, NextPublish(c, s, call, reply))
  {}

  lemma NextKeepsTruth(c: Config, s: State, reply: Reply)
    requires Followers(c) && Inv(c, s) && Truthful(c, s)
    ensures Truthful(c, Next(c, s, reply))
  {
    match s.pc
    case Idle =>
    case Exit(_) =>
    case Pre(call) => PreKeepsTruth(c, s, call, reply);
    case Publishing(call) => PublishKeepsTruth(c, s, call, reply);
    case Fencing(call) => FenceKeepsTruth(c, s, call, reply);
    case Promoting(call) => PromoteKeepsTruth(c, s, call, reply);
    case Following(call) => FollowKeepsTruth(c, s, call, reply);
    case Restore(k) => RestoreKeepsTruth(c, s, k, reply);
    case Refence(k, ifFenced) => RefenceKeepsTruth(c, s, k, ifFenced, reply);
  }

  lemma HappenKeepsTruth(c: Config, s: State, e: Event)
    requires Followers(c) && Inv(c, s) && Truthful(c, s)
    ensures Truthful(c, Happen(c, s, e))
  {
    match e
    case Answer(reply) =>
      NextKeepsTruth(c, s, reply);
      RememberKeepsTruth(c, Next(c, s, reply), s, reply);
    case Environment(next, _) => EnvKeepsTruth(c, s, next);
    case _ =>
  }

  lemma RememberKeepsTruth(c: Config, t: State, s: State, reply: Reply)
    requires Truthful(c, t) && t.run == s.run
    ensures Truthful(c, t.(run := Remember(c, s, reply)))
  {}

  lemma EnvKeepsTruth(c: Config, s: State, next: World)
    requires Truthful(c, s)
    ensures EnvStep(s.w, next) ==> Truthful(c, s.(w := next))
  {}

  lemma {:induction false} AfterIsTruthful(c: Config, s: State, events: seq<Event>)
    requires Followers(c) && Start(c, s)
    ensures Truthful(c, After(c, s, events))
  {
    if events != [] {
      AfterKeepsInv(c, s, events[..|events| - 1]);
      AfterIsTruthful(c, s, events[..|events| - 1]);
      HappenKeepsTruth(c, After(c, s, events[..|events| - 1]), events[|events| - 1]);
    }
  }

  // Whatever happened before, a run that completes leaves the target detached and open, the source
  // and every follower fully read-only replicas of it, and every step recorded.
  lemma {:induction false} CompletedMeansSwitched(c: Config, s: State, events: seq<Event>)
    requires Followers(c) && Planned(c) && Start(c, s) && c.source in c.followers
    requires After(c, s, events).pc == Exit(Completed)
    ensures var w := After(c, s, events).w;
            && Open(w.dst) && w.dst.source == None && w.endpoint && (c.semiSync ==> w.semiSync)
            && Follows(c, w, c.source) && (forall f | f in c.followers :: Follows(c, w, f))
            && (forall step | step in c.plan :: step in w.done) && After(c, s, events).run.finalized
  {
    AfterIsTruthful(c, s, events);
    AfterKeepsStage(c, s, events);
    SwitchoverProgressIsPrefix(c, s, events);
    PlanEntries(c);
    var w := After(c, s, events).w;
    forall f | f in c.followers
      ensures Follows(c, w, f)
    {
      var i :| 0 <= i < |c.followers| && c.followers[i] == f;
      assert c.plan[6 + i] in c.plan;
      assert Known(c, c.followers[i]);
    }
  }

  // A run reported as pre_commit has changed no member; one reported as fenced leaves the source
  // fully fenced.
  lemma {:induction false} ReportedClassIsTrue(c: Config, s: State, events: seq<Event>)
    requires Followers(c) && Start(c, s)
    ensures var t := After(c, s, events);
            && (t.pc == Exit(Failed(PreCommit)) ==> SameRoles(t.w, t.run.launch))
            && (t.pc == Exit(Failed(Fenced)) ==> Full(t.w.src))
            && (FenceSource in t.w.done ==> Full(t.w.src))
            && (forall n | Known(c, n) && Reparent(n) in t.w.done :: Follows(c, t.w, n))
  {
    AfterIsTruthful(c, s, events);
  }

  // A restored candidate is again a fully read-only replica of the source.
  predicate IsRestored(c: Config, w: World) {
    Full(w.dst) && w.dst.source == Some(c.source)
  }

  predicate RestoreTells(c: Config, s: State) {
    match s.pc
    case Idle => true
    case Restore(k) =>
      && !s.run.restoreFailed && (k > 0 ==> PromoteTarget !in s.w.done)
      && (k > 1 ==> Full(s.w.dst)) && (k > 6 ==> s.w.dst.source == Some(c.source))
    case Exit(out) =>
      s.run.restoring ==>
        if s.run.restoreFailed then out == Failed(FencedUnknown) else out == Failed(Fenced) && IsRestored(c, s.w)
    case _ => !s.run.restoring && !s.run.restoreFailed
  }

  lemma RestoreKeepsTelling(c: Config, s: State, k: nat, reply: Reply)
    requires Inv(c, s) && RestoreTells(c, s) && s.pc == Restore(k)
    ensures RestoreTells(c, NextRestore(c, s, k, reply).(run := Remember(c, s, reply)))
  {
    if k > 0 {
      ReparentBuilds(c, s.w, c.target, c.source, k - 1, reply);
      ReparentIsLocal(c, s.w, c.target, c.source, k - 1, reply);
    }
  }

  lemma HappenKeepsTelling(c: Config, s: State, e: Event)
    requires Inv(c, s) && RestoreTells(c, s)
    ensures RestoreTells(c, Happen(c, s, e))
  {
    if e.Answer? && s.pc.Restore? {
      RestoreKeepsTelling(c, s, s.pc.k, e.reply);
    }
  }

  // A failing run that had to give the candidate its old source back reports a fenced cluster exactly
  // when it has succeeded in doing so.
  lemma {:induction false} RestoredMeansRestored(c: Config, s: State, events: seq<Event>)
    requires Followers(c) && Start(c, s)
    ensures var t := After(c, s, events);
            && RestoreTells(c, t)
            && (t.pc.Exit? && t.run.restoring ==>
                  if t.run.restoreFailed then t.pc == Exit(Failed(FencedUnknown))
                  else t.pc == Exit(Failed(Fenced)) && IsRestored(c, t.w))
  {
    if events != [] {
      AfterKeepsInv(c, s, events[..|events| - 1]);
      RestoredMeansRestored(c, s, events[..|events| - 1]);
      HappenKeepsTelling(c, After(c, s, events[..|events| - 1]), events[|events| - 1]);
    }
  }

  // What the prechecks have established before the transition lease is asked for.
  ghost predicate Checked(c: Config, s: State) {
    match s.pc
    case Pre(LiveFollower(i, _)) => LiveChecks(c, s) && FollowersChecked(c, s.w, i)
    case Fencing(Lease(fenced)) =>
      if fenced then FenceSource in s.w.done && ResumeChecks(c, s)
      else LiveChecks(c, s) && FollowersChecked(c, s.w, |c.followers|)
    case Pre(Resume(_)) => FenceSource in s.w.done
    case _ => true
  }

  // The first `i` followers, other than the source, are fully read-only replicas of the source.
  ghost predicate FollowersChecked(c: Config, w: World, i: nat) {
    i <= |c.followers| && forall j | 0 <= j < i && c.followers[j] != c.source :: FollowerChecks(c, w, c.followers[j])
  }

  lemma HappenKeepsChecked(c: Config, s: State, e: Event)
    requires Checked(c, s)
    ensures Checked(c, Happen(c, s, e))
  {}

  // A run asks for the lease only after proving either an untouched healthy cluster without errant
  // transactions on the target, or a state an earlier run of the operation left behind.
  lemma {:induction false} LeaseOnlyAfterChecks(c: Config, s: State, events: seq<Event>)
    requires s.pc == Idle
    ensures Checked(c, After(c, s, events))
    ensures var t := After(c, s, events);
            && (t.pc == Fencing(Lease(false)) ==>
                  && Open(t.w.src) && t.w.src.source == None && !Open(t.w.dst) && t.w.dst.source == Some(c.source)
                     && t.dstSample <= t.srcSample
                  && forall i | 0 <= i < |c.followers| && c.followers[i] != c.source ::
                       Full(At(c, t.w, c.followers[i])) && At(c, t.w, c.followers[i]).source == Some(c.source))
            && (t.pc == Fencing(Lease(true)) ==>
                  && FenceSource in t.w.done && Full(t.w.src) && t.srcSample <= t.dstSample
                  && (Open(t.w.dst) ==> PromoteTarget in t.w.done && t.w.dst.source == None)
                  && (!Open(t.w.dst) ==> Full(t.w.dst) && t.dstSample <= t.srcSample))
  {
    if events != [] {
      LeaseOnlyAfterChecks(c, s, events[..|events| - 1]);
      HappenKeepsChecked(c, After(c, s, events[..|events| - 1]), events[|events| - 1]);
    }
  }
}
