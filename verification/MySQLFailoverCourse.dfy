// The course of a MySQL failover run: every call comes after the calls it depends on, the first failing
// call ends the course, and the reported class and the clean-up follow from where that was.
module MySQLFailoverCourse {
  import opened MySQLMembers
  import opened MySQLFailover
  import opened MySQLFailoverSafety
  import opened MySQLFailoverProgress

  // ---- What must have succeeded before ----

  // Isolation is proven in every run, before the target is looked at and the lease is asked for.
  predicate PreNeeds(c: Config, call: PreCall, p: set<Pc>) {
    match call
    case CheckDone(i) => i <= |c.plan| && (i > 0 ==> Pre(CheckDone(i - 1)) in p)
    case VerifyCompleted => Pre(CheckDone(|c.plan|)) in p
    case Credentials => true
    case ReadFence => Pre(Credentials) in p
    case Isolate => Pre(ReadFence) in p
    case VerifyIsolation(fenced) => (if fenced then Pre(ReadFence) else Pre(Isolate)) in p
    case RecordFence => Pre(VerifyIsolation(false)) in p
    case ReadPromoted => Pre(VerifyIsolation(true)) in p || Pre(RecordFence) in p
    case ProbeTarget => Pre(ReadPromoted) in p
    case ProbeReplication => Pre(ProbeTarget) in p
    case Lease => Pre(ProbeTarget) in p
    case RecordLease => Pre(Lease) in p
  }

  predicate PromoteNeeds(call: PromoteCall, p: set<Pc>) {
    match call
    case StopReplication => Pre(RecordLease) in p && Pre(ProbeReplication) in p
    case ResetTarget => Promoting(StopReplication) in p
    case ProbeWritable => Promoting(ResetTarget) in p || Pre(RecordLease) in p
    case OpenTarget => Promoting(ProbeWritable) in p
    case ProbeOpened => Promoting(ProbeWritable) in p || Promoting(OpenTarget) in p
    case RecordPromote => Promoting(ProbeOpened) in p
  }

  // The endpoint moves after the promotion, with semi-sync only after the last follower.
  predicate PublishNeeds(c: Config, call: PublishCall, p: set<Pc>) {
    match call
    case Transfer =>
      if c.semiSync then Following(SemiSync) in p || Following(RecordSemiSync) in p else Promoting(RecordPromote) in p
    case VerifyTransfer => Publishing(Transfer) in p
    case Finalize => Publishing(VerifyTransfer) in p
    case RecordTransfer => Publishing(Finalize) in p
  }

  predicate FollowNeeds(c: Config, call: FollowCall, p: set<Pc>) {
    match call
    case ReadFollower(i) =>
      && i <= |c.followers|
      && (if i == 0 then (if c.semiSync then Promoting(RecordPromote) else Publishing(RecordTransfer)) in p
          else Following(ReadFollower(i - 1)) in p || Following(RecordFollower(i - 1)) in p)
    case ReparentFollower(i, k) =>
      && i < |c.followers| && k <= 10
      && (if k == 0 then Following(ReadFollower(i)) in p
          else Following(ReparentFollower(i, k - 1)) in p || (k == 5 && Following(ReparentFollower(i, 2)) in p))
    case RecordFollower(i) => i < |c.followers| && Following(ReparentFollower(i, 10)) in p
    case ReadSemiSync => Following(ReadFollower(|c.followers|)) in p && c.semiSync
    case SemiSync => Following(ReadSemiSync) in p && c.semiSync
    case RecordSemiSync => Following(SemiSync) in p && c.semiSync
  }

  // The calls that must have succeeded in this run before the given one.
  predicate Needs(c: Config, pc: Pc, p: set<Pc>) {
    match pc
    case Pre(call) => PreNeeds(c, call, p)
    case Promoting(call) => PromoteNeeds(call, p)
    case Publishing(call) => PublishNeeds(c, call, p)
    case Following(call) => FollowNeeds(c, call, p)
    case Exit(out) =>
      && (out == Completed ==>
            (if c.semiSync then Publishing(RecordTransfer) else Following(ReadFollower(|c.followers|))) in p)
      && (out == AlreadyCompleted ==> Pre(VerifyCompleted) in p)
    case _ => true
  }

  lemma NeedsGrow(c: Config, pc: Pc, p: set<Pc>, q: set<Pc>)
    requires p <= q
    ensures Needs(c, pc, p) ==> Needs(c, pc, q)
  {}

  // Calls that touch the target, the followers or the endpoint, or record that.
  predicate Acts(pc: Pc) {
    pc.Promoting? || pc.Publishing? || pc.Following? || pc.Refence?
  }

  // The isolation of the old primary was proven.
  predicate Proven(p: set<Pc>) {
    Pre(VerifyIsolation(true)) in p || Pre(VerifyIsolation(false)) in p
  }

  predicate Judges(pc: Pc) {
    pc.Pre? && (pc.pre.ReadPromoted? || pc.pre.ProbeTarget? || pc.pre.ProbeReplication? || pc.pre.Lease?
                || pc.pre.RecordLease? || pc.pre.RecordFence?)
  }

  predicate Authorized(p: set<Pc>) {
    Proven(p) && Pre(Lease) in p && Pre(RecordLease) in p
  }

  // Safe evidence comes from a probe that showed healthy replication threads.
  predicate Witnessed(s: State, p: set<Pc>) {
    (s.pc == Pre(Lease) || s.pc == Pre(RecordLease)) && s.v.safe ==> Pre(ProbeReplication) in p
  }

  ghost predicate Ordered(c: Config, s: State) {
    s.pc.Idle? ||
    (&& Needs(c, s.pc, s.run.passed)
     && (forall x | x in s.run.passed :: Needs(c, x, s.run.passed))
     && (Judges(s.pc) ==> Proven(s.run.passed)) && (Acts(s.pc) ==> Authorized(s.run.passed))
     && Witnessed(s, s.run.passed))
  }

  // What one answered call has to establish.
  predicate GoesOn(c: Config, s: State, t: State, reply: Reply) {
    var q := Passing(c, s, reply);
    && Needs(c, t.pc, q) && Witnessed(t, q)
    && (Judges(t.pc) ==> Judges(s.pc) || Proven(q))
    && (Acts(t.pc) ==> Acts(s.pc) || (Judges(s.pc) && Pre(Lease) in q && Pre(RecordLease) in q))
  }

  lemma IsolatingIsOrdered(c: Config, s: State, call: PreCall, reply: Reply)
    requires s.pc == Pre(call) && Needs(c, s.pc, s.run.passed) && Witnessed(s, s.run.passed)
    requires !Judges(s.pc)
    ensures GoesOn(c, s, NextPre(c, s, call, reply), reply)
  {}

  lemma JudgingIsOrdered(c: Config, s: State, call: PreCall, reply: Reply)
    requires s.pc == Pre(call) && Needs(c, s.pc, s.run.passed) && Witnessed(s, s.run.passed)
    requires Judges(s.pc)
    ensures GoesOn(c, s, NextPre(c, s, call, reply), reply)
  {}

  lemma PreIsOrdered(c: Config, s: State, call: PreCall, reply: Reply)
    requires s.pc == Pre(call) && Needs(c, s.pc, s.run.passed) && Witnessed(s, s.run.passed)
    ensures GoesOn(c, s, NextPre(c, s, call, reply), reply)
  {
    if !Judges(s.pc) {
      IsolatingIsOrdered(c, s, call, reply);
    } else {
      JudgingIsOrdered(c, s, call, reply);
    }
  }

  lemma PromoteIsOrdered(c: Config, s: State, call: PromoteCall, reply: Reply)
    requires s.pc == Promoting(call) && Needs(c, s.pc, s.run.passed)
    ensures GoesOn(c, s, NextPromote(c, s, call, reply), reply)
  {}

  lemma PublishIsOrdered(c: Config, s: State, call: PublishCall, reply: Reply)
    requires s.pc == Publishing(call) && Needs(c, s.pc, s.run.passed)
    ensures GoesOn(c, s, NextPublish(c, s, call, reply), reply)
  {}

  lemma FollowIsOrdered(c: Config, s: State, call: FollowCall, reply: Reply)
    requires s.pc == Following(call) && Needs(c, s.pc, s.run.passed)
    ensures GoesOn(c, s, NextFollow(c, s, call, reply), reply)
  {}

  lemma NextIsOrdered(c: Config, s: State, reply: Reply)
    requires Needs(c, s.pc, s.run.passed) && Witnessed(s, s.run.passed) && !s.pc.Idle? && !s.pc.Exit?
    ensures GoesOn(c, s, Next(c, s, reply), reply)
  {
    match s.pc
    case Pre(call) => PreIsOrdered(c, s, call, reply);
    case Promoting(call) => PromoteIsOrdered(c, s, call, reply);
    case Publishing(call) => PublishIsOrdered(c, s, call, reply);
    case Following(call) => FollowIsOrdered(c, s, call, reply);
    case Refence(_, _) =>
  }

  lemma GoingOnKeepsOrdered(c: Config, s: State, t: State, reply: Reply)
    requires Ordered(c, s) && !s.pc.Idle? && GoesOn(c, s, t, reply)
    ensures Ordered(c, t.(run := Remember(c, s, reply)))
  {
    var q := Passing(c, s, reply);
    forall x | x in q
      ensures Needs(c, x, q)
    {
      NeedsGrow(c, x, s.run.passed, q);
    }
  }

  // Over every sequence of runs: no call is made in a run before the calls it depends on have succeeded
  // in that run, and nothing is done to the target before, in the same run, the isolation of the old
  // primary was proven and the lease obtained and recorded.
  lemma {:induction false} CallsAreInOrder(c: Config, s: State, events: seq<Event>)
    requires s.pc == Idle
    ensures Ordered(c, After(c, s, events))
    ensures var t := After(c, s, events); Acts(t.pc) ==> Authorized(t.run.passed)
  {
    if events != [] {
      var a, e := After(c, s, events[..|events| - 1]), events[|events| - 1];
      CallsAreInOrder(c, s, events[..|events| - 1]);
      if e.Answer? && !a.pc.Idle? && !a.pc.Exit? {
        NextIsOrdered(c, a, e.reply);
        GoingOnKeepsOrdered(c, a, Next(c, a, e.reply), e.reply);
      }
    }
  }

  // ---- Where a run ends ----

  // Calls after which the target is closed again: before its promotion is to be recorded, and after.
  predicate ClosesEarly(pc: Pc) {
    pc == Promoting(OpenTarget) || pc == Promoting(ProbeOpened)
  }

  predicate ClosesLate(c: Config, pc: Pc) {
    || pc == Promoting(RecordPromote) || (pc.Publishing? && !pc.publish.RecordTransfer?)
    || (pc.Following? && c.semiSync && !pc.follow.RecordFollower?)
  }

  // The calls that can end a run although they were answered: a check fails.
  predicate Decides(pc: Pc) {
    || (pc.Pre? && (pc.pre.VerifyIsolation? || pc.pre.ProbeTarget? || pc.pre.RecordLease?))
    || pc == Promoting(ProbeOpened) || pc == Publishing(VerifyTransfer)
  }

  // The class a failing run reports, by the call that ended its course and the fate of its clean-up, and
  // how it leaves the target. A target that is not closed again stays open.
  predicate Blames(c: Config, s: State, cause: Class) {
    match s.run.last
    case Pre(call) =>
      cause == (match call
                case CheckDone(_) => PromotedUnverified
                case VerifyCompleted => PromotedUnverified
                case ReadPromoted => Fenced
                case ProbeTarget => if s.run.fault then PreCommit else Fenced
                case Lease => Fenced
                case RecordLease => if s.run.fault || s.v.promoted then Fenced else PreCommit
                case _ => PreCommit)
    case last =>
      if last == Promoting(StopReplication) || last == Promoting(ResetTarget) then cause == PreCommit
      else if last == Promoting(ProbeWritable) then cause == Fenced
      else if ClosesEarly(last) then
        && cause == (if s.run.cleanupFailed then PromotedUnverified else Fenced)
        && (!s.run.cleanupFailed ==> Full(s.w.dst))
      else if ClosesLate(c, last) then cause == PromotedUnverified && (!s.run.cleanupFailed ==> Full(s.w.dst))
      else (last.Publishing? || last.Following?) && cause == PromotedUnverified && Open(s.w.dst)
  }

  // A run that finalized its lease got as far as that.
  predicate Reaches(c: Config, run: History) {
    run.finalized ==> run.last == Publishing(RecordTransfer) || (run.last.Following? && !c.semiSync)
  }

  predicate Ends(c: Config, s: State) {
    match s.pc
    case Idle => true
    case Exit(out) =>
      if out.Failed? then
        Blames(c, s, out.cause) && (s.run.fault || Decides(s.run.last)) && Reaches(c, s.run)
      else !s.run.fault && (if out == Completed then Open(s.w.dst) else !s.run.finalized)
    case Refence(k, ifFenced) =>
      && !s.run.cleanupFailed && (ClosesEarly(s.run.last) || ClosesLate(c, s.run.last)) && !s.run.finalized
      && (s.run.fault || Decides(s.run.last)) && (k > 1 ==> Full(s.w.dst))
      && ifFenced == (if ClosesEarly(s.run.last) then Fenced else PromotedUnverified)
    case _ => !s.run.fault && !s.run.cleanupFailed
  }

  // One answered call, with its history.
  function Answered(c: Config, s: State, t: State, reply: Reply): State {
    t.(run := Remember(c, s, reply))
  }

  lemma PreKeepsEnds(c: Config, s: State, call: PreCall, reply: Reply)
    requires Ends(c, s) && s.pc == Pre(call) && Stage(c, s)
    ensures Ends(c, Answered(c, s, NextPre(c, s, call, reply), reply))
  {}

  lemma PromoteKeepsEnds(c: Config, s: State, call: PromoteCall, reply: Reply)
    requires Ends(c, s) && s.pc == Promoting(call) && Stage(c, s)
    ensures Ends(c, Answered(c, s, NextPromote(c, s, call, reply), reply))
  {}

  lemma PublishKeepsEnds(c: Config, s: State, call: PublishCall, reply: Reply)
    requires Ends(c, s) && s.pc == Publishing(call) && Stage(c, s) && Tells(c, s)
    ensures Ends(c, Answered(c, s, NextPublish(c, s, call, reply), reply))
  {}

  lemma FollowKeepsEnds(c: Config, s: State, call: FollowCall, reply: Reply)
    requires Followers(c) && Ends(c, s) && s.pc == Following(call) && Inv(c, s) && Stage(c, s) && Tells(c, s)
    requires Needs(c, s.pc, s.run.passed)
    ensures Ends(c, Answered(c, s, NextFollow(c, s, call, reply), reply))
  {
    if call.ReparentFollower? {
      ReparentKeepsRoles(c, s.w, c.followers[call.i], c.target, call.k, reply);
    }
  }

  lemma RefenceKeepsEnds(c: Config, s: State, k: nat, ifFenced: Class, reply: Reply)
    requires Ends(c, s) && s.pc == Refence(k, ifFenced) && Inv(c, s)
    ensures Ends(c, Answered(c, s, NextRefence(c, s, k, ifFenced, reply), reply))
  {}

  lemma AnswerKeepsEnds(c: Config, s: State, reply: Reply)
    requires Followers(c) && Ends(c, s) && Needs(c, s.pc, s.run.passed) && !s.pc.Idle? && !s.pc.Exit?
    requires Inv(c, s) && Stage(c, s) && Tells(c, s)
    ensures Ends(c, Answered(c, s, Next(c, s, reply), reply))
  {
    match s.pc
    case Pre(call) => PreKeepsEnds(c, s, call, reply);
    case Promoting(call) => PromoteKeepsEnds(c, s, call, reply);
    case Publishing(call) => PublishKeepsEnds(c, s, call, reply);
    case Following(call) => FollowKeepsEnds(c, s, call, reply);
    case Refence(k, ifFenced) => RefenceKeepsEnds(c, s, k, ifFenced, reply);
  }

  lemma {:induction false} AfterEnds(c: Config, s: State, events: seq<Event>)
    requires Followers(c) && Start(c, s)
    ensures Ends(c, After(c, s, events))
  {
    if events != [] {
      var front, e := events[..|events| - 1], events[|events| - 1];
      var a := After(c, s, front);
      AfterEnds(c, s, front);
      if e.Answer? && !a.pc.Idle? && !a.pc.Exit? {
        CallsAreInOrder(c, s, front);
        FailoverIsSafe(c, s, front);
        AfterKeepsStage(c, s, front);
        AfterIsTruthful(c, s, front);
        AnswerKeepsEnds(c, a, e.reply);
      }
    }
  }

  // Over every sequence of runs: a run in which a call failed never completes, a failing run was ended by
  // a failed call or a failed check, and it reports the class that belongs to that call, after the
  // clean-up that belongs to it. A run that has published its target never closes it again.
  lemma {:induction false} FailureIsClassified(c: Config, s: State, events: seq<Event>)
    requires Followers(c) && Start(c, s) && After(c, s, events).pc.Exit?
    ensures var t := After(c, s, events);
            && (if t.pc.out.Failed? then
                  Blames(c, t, t.pc.out.cause) && (t.run.fault || Decides(t.run.last))
                else !t.run.fault)
            && (t.run.finalized ==> Open(t.w.dst))
  {
    AfterEnds(c, s, events);
  }

  // ---- Every run ends ----

  function PreRank(c: Config, call: PreCall): int {
    match call
    case CheckDone(i) => 15 + |c.plan| - i
    case VerifyCompleted => 14
    case Credentials => 13
    case ReadFence => 12
    case Isolate => 11
    case VerifyIsolation(_) => 10
    case RecordFence => 9
    case ReadPromoted => 8
    case ProbeTarget => 7
    case ProbeReplication => 6
    case Lease => 5
    case RecordLease => 4
  }

  function PromoteRank(call: PromoteCall): int {
    match call
    case StopReplication => 6
    case ResetTarget => 5
    case ProbeWritable => 4
    case OpenTarget => 3
    case ProbeOpened => 2
    case RecordPromote => 1
  }

  function PublishRank(call: PublishCall): int {
    match call
    case Transfer => 4
    case VerifyTransfer => 3
    case Finalize => 2
    case RecordTransfer => 1
  }

  function FollowRank(c: Config, call: FollowCall): int {
    var n := |c.followers|;
    match call
    case ReadFollower(i) => 4 + 20 * (n - i)
    case ReparentFollower(i, k) => 4 + 20 * (n - i - 1) + 13 - k
    case RecordFollower(i) => 4 + 20 * (n - i - 1) + 1
    case ReadSemiSync => 3
    case SemiSync => 2
    case RecordSemiSync => 1
  }

  // How many calls a run can still make at most. The endpoint comes before the followers, with semi-sync
  // after them.
  function Rank(c: Config, pc: Pc): int {
    var n := |c.followers|;
    match pc
    case Idle => 0
    case Exit(_) => 0
    case Refence(k, _) => if k < 2 then 3 - k else 1
    case Publishing(call) => (if c.semiSync then 10 else 40 + 20 * n) + PublishRank(call)
    case Following(call) => 20 + FollowRank(c, call)
    case Promoting(call) => 60 + 20 * n + PromoteRank(call)
    case Pre(call) => 70 + 20 * n + PreRank(c, call)
  }

  lemma PreAdvances(c: Config, s: State, call: PreCall, reply: Reply)
    requires s.pc == Pre(call) && Needs(c, s.pc, s.run.passed)
    ensures 0 <= Rank(c, NextPre(c, s, call, reply).pc) < Rank(c, s.pc)
  {}

  lemma PromoteAdvances(c: Config, s: State, call: PromoteCall, reply: Reply)
    requires s.pc == Promoting(call) && Needs(c, s.pc, s.run.passed)
    ensures 0 <= Rank(c, NextPromote(c, s, call, reply).pc) < Rank(c, s.pc)
  {}

  lemma PublishAdvances(c: Config, s: State, call: PublishCall, reply: Reply)
    requires s.pc == Publishing(call) && Needs(c, s.pc, s.run.passed)
    ensures 0 <= Rank(c, NextPublish(c, s, call, reply).pc) < Rank(c, s.pc)
  {}

  lemma FollowAdvances(c: Config, s: State, call: FollowCall, reply: Reply)
    requires s.pc == Following(call) && Needs(c, s.pc, s.run.passed)
    ensures 0 <= Rank(c, NextFollow(c, s, call, reply).pc) < Rank(c, s.pc)
  {}

  // Over every sequence of runs: whatever the answer, the pending call brings the run closer to its end, so
  // no run makes more than `Rank` further calls.
  lemma {:induction false} EveryRunEnds(c: Config, s: State, events: seq<Event>, reply: Reply)
    requires s.pc == Idle
    ensures var t := After(c, s, events);
            t.pc.Idle? || t.pc.Exit? || 0 <= Rank(c, Next(c, t, reply).pc) < Rank(c, t.pc)
  {
    CallsAreInOrder(c, s, events);
    var t := After(c, s, events);
    match t.pc
    case Idle =>
    case Exit(_) =>
    case Pre(call) => PreAdvances(c, t, call, reply);
    case Promoting(call) => PromoteAdvances(c, t, call, reply);
    case Publishing(call) => PublishAdvances(c, t, call, reply);
    case Following(call) => FollowAdvances(c, t, call, reply);
    case Refence(_, _) =>
  }
}
