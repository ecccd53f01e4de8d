// The course of a planned MySQL switchover run: every call comes after the calls it depends on, the
// first failing call ends the course, and the reported class and the clean-up follow from where that
// was.
module MySQLSwitchoverCourse {
  import opened MySQLMembers
  import opened MySQLSwitchover
  import opened MySQLSwitchoverSafety
  import opened MySQLSwitchoverOutcome

  // ---- What must have succeeded before ----

  predicate PreNeeds(c: Config, call: PreCall, p: set<Pc>) {
    match call
    case CheckDone(i) => i <= |c.plan| && (i > 0 ==> Pre(CheckDone(i - 1)) in p)
    case VerifyCompleted => Pre(CheckDone(|c.plan|)) in p
    case ProbeFence => true
    case ReadFenceOwner => Pre(ProbeFence) in p
    case Resume(k) => k <= 6 && (if k == 0 then Pre(ReadFenceOwner) in p else Pre(Resume(k - 1)) in p)
    case Live(k) => k <= 5 && (if k == 0 then Pre(ProbeFence) in p else Pre(Live(k - 1)) in p)
    case LiveFollower(i, k) =>
      && i <= |c.followers| && k <= 2 && (k > 0 ==> Real(c, Pre(call)))
      && (if k > 0 then Pre(LiveFollower(i, k - 1)) in p
          else if i == 0 then Pre(Live(5)) in p
          else Pre(LiveFollower(i - 1, if c.followers[i - 1] == c.source then 0 else 2)) in p)
  }

  // The lease is asked for after all checks, and recorded before the first statement.
  predicate FenceNeeds(c: Config, call: FenceCall, p: set<Pc>) {
    match call
    case Lease(fenced) => (if fenced then Pre(Resume(6)) else Pre(LiveFollower(|c.followers|, 0))) in p
    case RecordLease(fenced) => Fencing(Lease(fenced)) in p
    case FenceSuper => Fencing(RecordLease(false)) in p
    case FenceRecheck => true
    case FenceReadOnly => Fencing(FenceSuper) in p
    case RecordFence => Fencing(FenceReadOnly) in p || Fencing(RecordLease(true)) in p
    case Capture => Fencing(RecordFence) in p
    case RecordCapture => Fencing(Capture) in p
    case Wait => Fencing(RecordCapture) in p
    case RecordWait => Fencing(Wait) in p
  }

  // The target is detached after it has caught up, and its promotion recorded after a proof that it is
  // open.
  predicate PromoteNeeds(call: PromoteCall, p: set<Pc>) {
    match call
    case ProbeDetach => Fencing(RecordWait) in p
    case StopReplication => Promoting(ProbeDetach) in p
    case ResetTarget => Promoting(StopReplication) in p
    case RecordStop => Promoting(ProbeDetach) in p || Promoting(ResetTarget) in p
    case ProbeWritable => Promoting(RecordStop) in p
    case OpenTarget => Promoting(ProbeWritable) in p
    case ProbeOpened => Promoting(ProbeWritable) in p || Promoting(OpenTarget) in p
    case RecordPromote => Promoting(ProbeOpened) in p
  }

  // A follower is recorded after all calls of its reparenting, the two proofs of health included;
  // dropping an old configuration is optional.
  predicate FollowNeeds(c: Config, call: FollowCall, p: set<Pc>) {
    match call
    case ReadFollower(i) =>
      && i <= |c.followers|
      && (if i == 0 then Promoting(RecordPromote) in p
          else Following(ReadFollower(i - 1)) in p || Following(RecordFollower(i - 1)) in p)
    case ReparentFollower(i, k) =>
      && i < |c.followers| && k <= 10
      && (if k == 0 then Following(ReadFollower(i)) in p
          else Following(ReparentFollower(i, k - 1)) in p || (k == 5 && Following(ReparentFollower(i, 2)) in p))
    case RecordFollower(i) => i < |c.followers| && Following(ReparentFollower(i, 10)) in p
    case ReadSemiSync => Following(ReadFollower(|c.followers|)) in p && c.semiSync
    case SemiSync => Following(ReadSemiSync) in p && c.semiSync
    case RecordSemiSync => Following(SemiSync) in p && c.semiSync
  }

  // The endpoint moves after the last follower, and the lease is finalized before that is recorded.
  predicate PublishNeeds(c: Config, call: PublishCall, p: set<Pc>) {
    match call
    case VerifyEndpoint =>
      if c.semiSync then Following(SemiSync) in p || Following(RecordSemiSync) in p
      else Following(ReadFollower(|c.followers|)) in p
    case Transfer => Publishing(VerifyEndpoint) in p
    case VerifyTransfer => Publishing(Transfer) in p
    case Finalize => Publishing(VerifyEndpoint) in p || Publishing(VerifyTransfer) in p
    case RecordTransfer => Publishing(Finalize) in p
    case RecordRetain => Publishing(RecordTransfer) in p
  }

  // The calls that must have succeeded in this run before the given one.
  predicate Needs(c: Config, pc: Pc, p: set<Pc>) {
    match pc
    case Pre(call) => PreNeeds(c, call, p)
    case Fencing(call) => FenceNeeds(c, call, p)
    case Promoting(call) => PromoteNeeds(call, p)
    case Following(call) => FollowNeeds(c, call, p)
    case Publishing(call) => PublishNeeds(c, call, p)
    case Exit(out) =>
      && (out == Completed ==> Publishing(RecordRetain) in p)
      && (out == AlreadyCompleted ==> Pre(VerifyCompleted) in p)
    case _ => true
  }

  lemma NeedsGrow(c: Config, pc: Pc, p: set<Pc>, q: set<Pc>)
    requires p <= q
    ensures Needs(c, pc, p) ==> Needs(c, pc, q)
  {}

  // Calls that send a statement to a member, move the endpoint, or record that.
  predicate Acts(pc: Pc) {
    || (pc.Fencing? && !pc.fence.Lease? && !pc.fence.RecordLease?) || pc.Promoting? || pc.Following? || pc.Publishing?
    || pc.Restore? || pc.Refence?
  }

  // The transition lease was obtained and recorded.
  predicate Authorized(p: set<Pc>) {
    || (Fencing(Lease(true)) in p && Fencing(RecordLease(true)) in p)
    || (Fencing(Lease(false)) in p && Fencing(RecordLease(false)) in p)
  }

  // Every call of the run that succeeded, and the pending one, came after the calls it needs; nothing
  // is done without a lease; a transfer is verified before anything else happens.
  ghost predicate Ordered(c: Config, s: State) {
    s.pc.Idle? ||
    (&& Needs(c, s.pc, s.run.passed)
     && (forall x | x in s.run.passed :: Needs(c, x, s.run.passed))
     && (Acts(s.pc) ==> Authorized(s.run.passed))
     && (Publishing(Transfer) in s.run.passed && Publishing(VerifyTransfer) !in s.run.passed ==>
           s.pc == Publishing(VerifyTransfer) || (!Main(s.pc) && s.pc != Exit(Completed))))
  }

  // ---- Where a run ends ----

  // Calls after which the candidate gets its old source back.
  predicate Restores(pc: Pc) {
    pc == Promoting(StopReplication) || pc == Promoting(ResetTarget) || pc == Promoting(RecordStop)
    || pc == Promoting(ProbeWritable)
  }

  // Calls after which the target is closed again: before its promotion is to be recorded, and after.
  predicate ClosesEarly(pc: Pc) {
    pc == Promoting(OpenTarget) || pc == Promoting(ProbeOpened)
  }

  predicate ClosesLate(pc: Pc) {
    || pc == Promoting(RecordPromote) || pc.Following?
    || (pc.Publishing? && !pc.publish.RecordTransfer? && !pc.publish.RecordRetain?)
  }

  // The calls that can end a run although they were answered: a check fails.
  predicate Decides(pc: Pc) {
    || pc == Pre(ReadFenceOwner) || pc == Pre(Resume(6)) || pc == Pre(Live(5))
    || (pc.Pre? && pc.pre.LiveFollower?) || pc == Fencing(Wait) || pc == Promoting(ProbeOpened)
    || pc == Publishing(VerifyTransfer)
  }

  // The class a failing run reports, by the call that ended its course and the fate of its clean-up, and
  // what the clean-up has achieved.
  predicate Blames(c: Config, s: State, cause: Class) {
    match s.run.last
    case Pre(call) =>
      cause == (if call.CheckDone? || call.VerifyCompleted? then PromotedUnverified
                else if call.Resume? then Fenced else PreCommit)
    case Fencing(Lease(fenced)) => cause == (if fenced then Fenced else PreCommit)
    case Fencing(RecordLease(fenced)) => cause == (if fenced then Fenced else PreCommit)
    case Fencing(FenceSuper) =>
      cause == (if s.run.cleanupFailed then FencedUnknown else if Full(s.w.src) then Fenced else PreCommit)
    case Fencing(_) => cause == Fenced
    case last =>
      if last == Promoting(ProbeDetach) then cause == Fenced
      else if Restores(last) then
        && s.run.restoring && cause == (if s.run.cleanupFailed then FencedUnknown else Fenced)
        && (!s.run.cleanupFailed ==> IsRestored(c, s.w))
      else if ClosesEarly(last) then
        && cause == (if s.run.cleanupFailed then PromotedUnverified else Fenced)
        && (!s.run.cleanupFailed ==> Full(s.w.dst))
      else if ClosesLate(last) then cause == PromotedUnverified && (!s.run.cleanupFailed ==> Full(s.w.dst))
      else last.Publishing? && cause == PromotedUnverified && Open(s.w.dst) && s.w.endpoint && s.run.finalized
  }

  // A run that opened the target or finalized its lease got as far as that.
  predicate Reaches(run: History) {
    && (run.finalized ==> run.last == Publishing(RecordTransfer) || run.last == Publishing(RecordRetain))
    && (run.enabled ==> ClosesEarly(run.last) || ClosesLate(run.last) || run.last.Publishing?)
  }

  predicate Ends(c: Config, s: State) {
    match s.pc
    case Idle => true
    case Exit(out) =>
      && (out.Failed? ==> Blames(c, s, out.cause) && (s.run.fault || Decides(s.run.last)) && Reaches(s.run))
      && (!out.Failed? ==> !s.run.fault)
    case Fencing(FenceRecheck) => s.run.last == Fencing(FenceSuper) && s.run.fault && !s.run.cleanupFailed
    case Restore(k) =>
      && Restores(s.run.last) && s.run.fault && !s.run.cleanupFailed && (k > 0 ==> s.run.restoring)
      && !s.run.finalized
    case Refence(k, ifFenced) =>
      && !s.run.cleanupFailed && (ClosesEarly(s.run.last) || ClosesLate(s.run.last)) && !s.run.finalized
      && (s.run.fault || Decides(s.run.last)) && (k > 1 ==> Full(s.w.dst))
      && ifFenced == (if ClosesEarly(s.run.last) then Fenced else PromotedUnverified)
    case _ => !s.run.fault && !s.run.cleanupFailed
  }

  // One answered call, with its history.
  function Answered(c: Config, s: State, t: State, reply: Reply): State {
    t.(run := Remember(c, s, reply))
  }

  // ---- Order ----

  // What one answered call has to establish.
  predicate GoesOn(c: Config, s: State, t: State, reply: Reply) {
    var q := Passing(c, s, reply);
    && Needs(c, t.pc, q)
    && (s.pc == Publishing(Transfer) && reply == Ok ==> t.pc == Publishing(VerifyTransfer))
    && (s.pc == Publishing(VerifyTransfer) ==>
          Publishing(VerifyTransfer) in q || (!Main(t.pc) && t.pc != Exit(Completed)))
    && (!Main(s.pc) ==> !Main(t.pc) && t.pc != Exit(Completed))
    && (Acts(t.pc) ==> Acts(s.pc) || Authorized(q))
  }

  lemma ResumeIsOrdered(c: Config, s: State, k: nat, reply: Reply)
    requires s.pc == Pre(Resume(k)) && Needs(c, s.pc, s.run.passed)
    ensures GoesOn(c, s, NextPre(c, s, Resume(k), reply), reply)
  {}

  lemma LiveIsOrdered(c: Config, s: State, k: nat, reply: Reply)
    requires s.pc == Pre(Live(k)) && Needs(c, s.pc, s.run.passed)
    ensures GoesOn(c, s, NextPre(c, s, Live(k), reply), reply)
  {}

  lemma LiveFollowerIsOrdered(c: Config, s: State, i: nat, k: nat, reply: Reply)
    requires s.pc == Pre(LiveFollower(i, k)) && Needs(c, s.pc, s.run.passed)
    ensures GoesOn(c, s, NextPre(c, s, LiveFollower(i, k), reply), reply)
  {}

  lemma PreIsOrdered(c: Config, s: State, call: PreCall, reply: Reply)
    requires s.pc == Pre(call) && Needs(c, s.pc, s.run.passed)
    ensures GoesOn(c, s, NextPre(c, s, call, reply), reply)
  {
    match call
    case Resume(k) => ResumeIsOrdered(c, s, k, reply);
    case Live(k) => LiveIsOrdered(c, s, k, reply);
    case LiveFollower(i, k) => LiveFollowerIsOrdered(c, s, i, k, reply);
    case _ =>
  }

  lemma ClosingIsOrdered(c: Config, s: State, call: FenceCall, reply: Reply)
    requires s.pc == Fencing(call) && Needs(c, s.pc, s.run.passed)
    requires call.Lease? || call.RecordLease? || call.FenceSuper? || call.FenceRecheck? || call.FenceReadOnly?
    ensures GoesOn(c, s, NextFence(c, s, call, reply), reply)
  {}

  lemma WaitingIsOrdered(c: Config, s: State, call: FenceCall, reply: Reply)
    requires s.pc == Fencing(call) && Needs(c, s.pc, s.run.passed)
    requires !(call.Lease? || call.RecordLease? || call.FenceSuper? || call.FenceRecheck? || call.FenceReadOnly?)
    ensures GoesOn(c, s, NextFence(c, s, call, reply), reply)
  {}

  lemma FenceIsOrdered(c: Config, s: State, call: FenceCall, reply: Reply)
    requires s.pc == Fencing(call) && Needs(c, s.pc, s.run.passed)
    ensures GoesOn(c, s, NextFence(c, s, call, reply), reply)
  {
    if call.Lease? || call.RecordLease? || call.FenceSuper? || call.FenceRecheck? || call.FenceReadOnly? {
      ClosingIsOrdered(c, s, call, reply);
    } else {
      WaitingIsOrdered(c, s, call, reply);
    }
  }

  lemma PromoteIsOrdered(c: Config, s: State, call: PromoteCall, reply: Reply)
    requires s.pc == Promoting(call) && Needs(c, s.pc, s.run.passed)
    ensures GoesOn(c, s, NextPromote(c, s, call, reply), reply)
  {}

  lemma FollowIsOrdered(c: Config, s: State, call: FollowCall, reply: Reply)
    requires s.pc == Following(call) && Needs(c, s.pc, s.run.passed)
    ensures GoesOn(c, s, NextFollow(c, s, call, reply), reply)
  {}

  lemma PublishIsOrdered(c: Config, s: State, call: PublishCall, reply: Reply)
    requires s.pc == Publishing(call) && Needs(c, s.pc, s.run.passed)
    ensures GoesOn(c, s, NextPublish(c, s, call, reply), reply)
  {}

  lemma NextIsOrdered(c: Config, s: State, reply: Reply)
    requires Needs(c, s.pc, s.run.passed) && !s.pc.Idle? && !s.pc.Exit?
    ensures GoesOn(c, s, Next(c, s, reply), reply)
  {
    match s.pc
    case Pre(call) => PreIsOrdered(c, s, call, reply);
    case Fencing(call) => FenceIsOrdered(c, s, call, reply);
    case Promoting(call) => PromoteIsOrdered(c, s, call, reply);
    case Following(call) => FollowIsOrdered(c, s, call, reply);
    case Publishing(call) => PublishIsOrdered(c, s, call, reply);
    case _ =>
  }

  lemma FollowingKeepsOrdered(c: Config, s: State, t: State, reply: Reply)
    requires Ordered(c, s) && !s.pc.Idle? && GoesOn(c, s, t, reply)
    ensures Ordered(c, t.(run := Remember(c, s, reply)))
  {
    var q := Passing(c, s, reply);
    forall x | x in q
      ensures Needs(c, x, q)
    {
      NeedsGrow(c, x, s.run.passed, q);
    }
  }

  // Over every sequence of runs: no call is made in a run before the calls it depends on have succeeded
  // in that run, and no statement is sent before the lease was obtained and recorded in it.
  lemma {:induction false} CallsAreInOrder(c: Config, s: State, events: seq<Event>)
    requires s.pc == Idle
    ensures Ordered(c, After(c, s, events))
    ensures var t := After(c, s, events); Acts(t.pc) ==> Authorized(t.run.passed)
  {
    if events != [] {
      var a, e := After(c, s, events[..|events| - 1]), events[|events| - 1];
      CallsAreInOrder(c, s, events[..|events| - 1]);
      if e.Answer? && !a.pc.Idle? && !a.pc.Exit? {
        NextIsOrdered(c, a, e.reply);
        FollowingKeepsOrdered(c, a, Next(c, a, e.reply), e.reply);
      }
    }
  }

  // ---- Ends ----

  lemma PreKeepsEnds(c: Config, s: State, call: PreCall, reply: Reply)
    requires Ends(c, s) && s.pc == Pre(call) && Stage(s) && Needs(c, s.pc, s.run.passed)
    ensures Ends(c, Answered(c, s, NextPre(c, s, call, reply), reply))
  {}

  lemma FenceKeepsEnds(c: Config, s: State, call: FenceCall, reply: Reply)
    requires Ends(c, s) && s.pc == Fencing(call) && Stage(s)
    ensures Ends(c, Answered(c, s, NextFence(c, s, call, reply), reply))
  {}

  lemma PromoteKeepsEnds(c: Config, s: State, call: PromoteCall, reply: Reply)
    requires Ends(c, s) && s.pc == Promoting(call) && Stage(s)
    ensures Ends(c, Answered(c, s, NextPromote(c, s, call, reply), reply))
  {}

  lemma FollowKeepsEnds(c: Config, s: State, call: FollowCall, reply: Reply)
    requires Ends(c, s) && s.pc == Following(call) && Stage(s) && Needs(c, s.pc, s.run.passed)
    ensures Ends(c, Answered(c, s, NextFollow(c, s, call, reply), reply))
  {}

  lemma PublishKeepsEnds(c: Config, s: State, call: PublishCall, reply: Reply)
    requires Ends(c, s) && s.pc == Publishing(call) && Tells(c, s) && Stage(s)
    ensures Ends(c, Answered(c, s, NextPublish(c, s, call, reply), reply))
  {}

  lemma RestoreKeepsEnds(c: Config, s: State, k: nat, reply: Reply)
    requires Ends(c, s) && s.pc == Restore(k) && Inv(c, s) && Stage(s) && RestoreTells(c, s)
    ensures Ends(c, Answered(c, s, NextRestore(c, s, k, reply), reply))
  {
    RestoreKeepsTelling(c, s, k, reply);
  }

  lemma RefenceKeepsEnds(c: Config, s: State, k: nat, ifFenced: Class, reply: Reply)
    requires Ends(c, s) && s.pc == Refence(k, ifFenced) && Inv(c, s)
    ensures Ends(c, Answered(c, s, NextRefence(c, s, k, ifFenced, reply), reply))
  {}

  lemma AnswerKeepsEnds(c: Config, s: State, reply: Reply)
    requires Ends(c, s) && Needs(c, s.pc, s.run.passed) && !s.pc.Idle? && !s.pc.Exit?
    requires Inv(c, s) && Stage(s) && Tells(c, s) && RestoreTells(c, s)
    ensures Ends(c, Answered(c, s, Next(c, s, reply), reply))
  {
    match s.pc
    case Pre(call) => PreKeepsEnds(c, s, call, reply);
    case Fencing(call) => FenceKeepsEnds(c, s, call, reply);
    case Promoting(call) => PromoteKeepsEnds(c, s, call, reply);
    case Following(call) => FollowKeepsEnds(c, s, call, reply);
    case Publishing(call) => PublishKeepsEnds(c, s, call, reply);
    case Restore(k) => RestoreKeepsEnds(c, s, k, reply);
    case Refence(k, ifFenced) => RefenceKeepsEnds(c, s, k, ifFenced, reply);
  }

  lemma {:induction false} AfterEnds(c: Config, s: State, events: seq<Event>)
    requires Followers(c) && Start(c, s)
    ensures Ends(c, After(c, s, events))
  {
    if events != [] {
      var front, e := events[..|events| - 1], events[|events| - 1];
      var a := After(c, s, front);
      AfterEnds(c, s, front);
      if e.Answer? && !a.pc.Idle? && !a.pc.Exit? {
        CallsAreInOrder(c, s, front);
        AfterKeepsInv(c, s, front);
        AfterKeepsStage(c, s, front);
        AfterIsTruthful(c, s, front);
        RestoredMeansRestored(c, s, front);
        AnswerKeepsEnds(c, a, e.reply);
      }
    }
  }

  // Over every sequence of runs: a run in which a call failed never completes, a failing run was ended by
  // a failed call or a failed check, and it reports the class that belongs to that call, after the
  // clean-up that belongs to it. In particular a run that was to record the promotion reports
  // promoted_unverified, a run that reports fenced has not left its target open, and a run whose lease is
  // finalized leaves its target open.
  lemma {:induction false} FailureIsClassified(c: Config, s: State, events: seq<Event>)
    requires Followers(c) && Start(c, s)
    requires After(c, s, events).pc.Exit?
    ensures var t := After(c, s, events);
            if t.pc.out.Failed? then
              && Blames(c, t, t.pc.out.cause) && (t.run.fault || Decides(t.run.last))
              && (ClosesLate(t.run.last) ==> t.pc.out.cause == PromotedUnverified)
              && (t.pc.out.cause == Fenced && t.run.enabled ==> t.w.dst.readOnly)
              && (t.run.finalized ==> Open(t.w.dst))
            else !t.run.fault
  {
    AfterEnds(c, s, events);
    AfterKeepsStage(c, s, events);
  }

  // ---- Every run ends ----

  function PreRank(c: Config, call: PreCall): int {
    var n := |c.followers|;
    match call
    case CheckDone(i) => 4 * n + 23 + |c.plan| - i
    case VerifyCompleted => 4 * n + 22
    case ProbeFence => 4 * n + 21
    case ReadFenceOwner => 4 * n + 20
    case Resume(k) => 7 - k
    case Live(k) => 4 * n + 10 - k
    case LiveFollower(i, k) => 4 * (n - i) + 3 - k
  }

  function FenceRank(call: FenceCall): int {
    match call
    case Lease(_) => 10
    case RecordLease(_) => 9
    case FenceSuper => 8
    case FenceRecheck => 0
    case FenceReadOnly => 7
    case RecordFence => 6
    case Capture => 5
    case RecordCapture => 4
    case Wait => 3
    case RecordWait => 2
  }

  function PromoteRank(call: PromoteCall): int {
    match call
    case ProbeDetach => 8
    case StopReplication => 7
    case ResetTarget => 6
    case RecordStop => 5
    case ProbeWritable => 4
    case OpenTarget => 3
    case ProbeOpened => 2
    case RecordPromote => 1
  }

  function FollowRank(c: Config, call: FollowCall): int {
    var n := |c.followers|;
    match call
    case ReadFollower(i) => 4 + 20 * (n - i)
    case ReparentFollower(i, k) => 4 + 20 * (n - i - 1) + 13 - k
    case RecordFollower(i) => 4 + 20 * (n - i - 1) + 1
    case ReadSemiSync => 3
    case SemiSync => 2
    case RecordSemiSync => 1
  }

  function PublishRank(call: PublishCall): int {
    match call
    case VerifyEndpoint => 6
    case Transfer => 5
    case VerifyTransfer => 4
    case Finalize => 3
    case RecordTransfer => 2
    case RecordRetain => 1
  }

  // How many calls a run can still make at most.
  function Rank(c: Config, pc: Pc): int {
    var n := |c.followers|;
    match pc
    case Idle => 0
    case Exit(_) => 0
    case Refence(k, _) => if k < 2 then 3 - k else 1
    case Restore(k) => if k < 12 then 14 - k else 2
    case Publishing(call) => 20 + PublishRank(call)
    case Following(call) => 30 + FollowRank(c, call)
    case Promoting(call) => 40 + 20 * n + PromoteRank(call)
    case Fencing(call) => if call.FenceRecheck? then 1 else 50 + 20 * n + FenceRank(call)
    case Pre(call) => 70 + 20 * n + PreRank(c, call)
  }

  lemma PreAdvances(c: Config, s: State, call: PreCall, reply: Reply)
    requires s.pc == Pre(call) && Needs(c, s.pc, s.run.passed)
    ensures 0 <= Rank(c, NextPre(c, s, call, reply).pc) < Rank(c, s.pc)
  {}

  lemma FenceAdvances(c: Config, s: State, call: FenceCall, reply: Reply)
    requires s.pc == Fencing(call) && Needs(c, s.pc, s.run.passed)
    ensures 0 <= Rank(c, NextFence(c, s, call, reply).pc) < Rank(c, s.pc)
  {}

  lemma PromoteAdvances(c: Config, s: State, call: PromoteCall, reply: Reply)
    requires s.pc == Promoting(call) && Needs(c, s.pc, s.run.passed)
    ensures 0 <= Rank(c, NextPromote(c, s, call, reply).pc) < Rank(c, s.pc)
  {}

  lemma FollowAdvances(c: Config, s: State, call: FollowCall, reply: Reply)
    requires s.pc == Following(call) && Needs(c, s.pc, s.run.passed)
    ensures 0 <= Rank(c, NextFollow(c, s, call, reply).pc) < Rank(c, s.pc)
  {}

  lemma PublishAdvances(c: Config, s: State, call: PublishCall, reply: Reply)
    requires s.pc == Publishing(call) && Needs(c, s.pc, s.run.passed)
    ensures 0 <= Rank(c, NextPublish(c, s, call, reply).pc) < Rank(c, s.pc)
  {}

  lemma CleanupAdvances(c: Config, s: State, reply: Reply)
    requires s.pc.Restore? || s.pc.Refence?
    ensures 0 <= Rank(c, Next(c, s, reply).pc) < Rank(c, s.pc)
  {}

  // Over every sequence of runs: whatever the answer, the pending call brings the run closer to its end, so
  // no run makes more than `Rank` further calls.
  lemma {:induction false} EveryRunEnds(c: Config, s: State, events: seq<Event>, reply: Reply)
    requires s.pc == Idle
    ensures var t := After(c, s, events);
            t.pc.Idle? || t.pc.Exit? || 0 <= Rank(c, Next(c, t, reply).pc) < Rank(c, t.pc)
  {
    CallsAreInOrder(c, s, events);
    var t := After(c, s, events);
    match t.pc
    case Idle =>
    case Exit(_) =>
    case Pre(call) => PreAdvances(c, t, call, reply);
    case Fencing(call) => FenceAdvances(c, t, call, reply);
    case Promoting(call) => PromoteAdvances(c, t, call, reply);
    case Following(call) => FollowAdvances(c, t, call, reply);
    case Publishing(call) => PublishAdvances(c, t, call, reply);
    case _ => CleanupAdvances(c, t, reply);
  }
}
