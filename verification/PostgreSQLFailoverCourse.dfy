// The course of a PostgreSQL failover run: every call comes after the calls it depends on, the first
// failing call ends the run, and the reported class follows from where that was.
module PostgreSQLFailoverCourse {
  import opened PostgreSQLMembers
  import opened PostgreSQLFailover
  import opened PostgreSQLFailoverSafety

  // ---- What must have succeeded before ----

  // Isolation is proven in every run, before the lease is asked for.
  predicate PreNeeds(c: Config, call: PreCall, p: set<Pc>) {
    match call
    case CheckDone(i) => i <= |c.plan| && (i > 0 ==> Pre(CheckDone(i - 1)) in p)
    case VerifyCompleted => Pre(CheckDone(|c.plan|)) in p
    case VerifyStillIsolated => Pre(CheckDone(|c.plan|)) in p
    case ReconcileEndpoint(k) =>
      && k <= 6
      && (if k == 0 then Pre(VerifyStillIsolated) in p
          else if k == 4 then Pre(ReconcileEndpoint(2)) in p
          else if k == 6 then Pre(ReconcileEndpoint(3)) in p || Pre(ReconcileEndpoint(5)) in p
          else Pre(ReconcileEndpoint(k - 1)) in p)
    case ReadProgress => true
    case Precheck => Pre(ReadProgress) in p
    case ReadFence => Pre(Precheck) in p || Pre(ReadProgress) in p
    case Isolate => Pre(ReadFence) in p
    case RecordFence => Pre(Isolate) in p
    case VerifyIsolation => Pre(RecordFence) in p || Pre(ReadFence) in p
    case RecordVerified => Pre(VerifyIsolation) in p
    case Lease => Pre(RecordVerified) in p
    case LeaseActive => Pre(Lease) in p
    case RecordLease => Pre(LeaseActive) in p
  }

  predicate PromoteNeeds(call: PromoteCall, p: set<Pc>) {
    match call
    case ReadPromoted => Pre(RecordLease) in p
    case ProbeStandby => Promoting(ReadPromoted) in p
    case Promote => Promoting(ProbeStandby) in p
    case RecordPromote => Promoting(Promote) in p
    case ProbePrimary => Promoting(RecordPromote) in p || Promoting(ReadPromoted) in p
    case ReadActivated => Promoting(ProbePrimary) in p
    case Activate(k) => k <= 1 && (if k == 0 then Promoting(ReadActivated) else Promoting(Activate(0))) in p
    case RecordActivated => Promoting(Activate(1)) in p
  }

  predicate PublishNeeds(c: Config, call: PublishCall, p: set<Pc>) {
    match call
    case ReadTransferred => Promoting(RecordActivated) in p || Promoting(ReadActivated) in p
    case VerifyEndpoint => Publishing(ReadTransferred) in p
    case Transfer => Publishing(ReadTransferred) in p
    case VerifyTransfer => Publishing(Transfer) in p
    case RecordTransfer => Publishing(VerifyEndpoint) in p || Publishing(VerifyTransfer) in p
    case Finalize =>
      Publishing(RecordTransfer) in p || Publishing(VerifyEndpoint) in p || Publishing(VerifyTransfer) in p
    case ReadFollower(i) =>
      && i <= |c.followers|
      && (if i == 0 then Publishing(Finalize) in p
          else Publishing(ReadFollower(i - 1)) in p || Publishing(RecordFollower(i - 1)) in p)
    case RepointFollower(i) => i < |c.followers| && Publishing(ReadFollower(i)) in p
    case RecordFollower(i) => i < |c.followers| && Publishing(RepointFollower(i)) in p
  }

  // The calls that must have succeeded in this run before the given one.
  predicate Needs(c: Config, pc: Pc, p: set<Pc>) {
    match pc
    case Idle => true
    case Pre(call) => PreNeeds(c, call, p)
    case Promoting(call) => PromoteNeeds(call, p)
    case Publishing(call) => PublishNeeds(c, call, p)
    case Exit(out) =>
      && (out == Completed ==> Publishing(ReadFollower(|c.followers|)) in p)
      && (out == AlreadyCompleted ==> Pre(VerifyCompleted) in p)
      && (out == Reconciled ==> Pre(ReconcileEndpoint(6)) in p)
  }

  lemma NeedsGrow(c: Config, pc: Pc, p: set<Pc>, q: set<Pc>)
    requires p <= q
    ensures Needs(c, pc, p) ==> Needs(c, pc, q)
  {}

  // The isolation of the old primary was proven.
  predicate Authorizes(pc: Pc) {
    pc.Pre? && (pc.pre.RecordVerified? || pc.pre.Lease? || pc.pre.LeaseActive? || pc.pre.RecordLease?)
  }

  predicate Acts(pc: Pc) {
    pc.Promoting? || pc.Publishing?
  }

  predicate Authorized(p: set<Pc>) {
    Pre(VerifyIsolation) in p && Pre(LeaseActive) in p && Pre(RecordLease) in p
  }

  // Once `call` has succeeded, `check` comes next, unless the run has failed.
  predicate Checked(p: set<Pc>, pc: Pc, call: Pc, check: Pc) {
    call in p && check !in p ==> pc == check || (pc.Exit? && pc.out.Failed?)
  }

  ghost predicate Ordered(c: Config, s: State) {
    s.pc.Idle? ||
    (&& Needs(c, s.pc, s.run.passed)
     && (forall x | x in s.run.passed :: Needs(c, x, s.run.passed))
     && (Authorizes(s.pc) ==> Pre(VerifyIsolation) in s.run.passed) && (Acts(s.pc) ==> Authorized(s.run.passed))
     && Checked(s.run.passed, s.pc, Publishing(Transfer), Publishing(VerifyTransfer))
     && Checked(s.run.passed, s.pc, Pre(ReconcileEndpoint(4)), Pre(ReconcileEndpoint(5))))
  }

  predicate ChecksNext(pc: Pc, next: Pc, call: Pc, check: Pc, reply: Reply) {
    && (pc == call && reply == Ok ==> next == check)
    && (pc == check && reply != Ok ==> next.Exit? && next.out.Failed?)
  }

  // What one answered call has to establish.
  predicate GoesOn(c: Config, s: State, t: State, reply: Reply) {
    var q := Passing(c, s, reply);
    && Needs(c, t.pc, q)
    && (Authorizes(t.pc) ==> Authorizes(s.pc) || Pre(VerifyIsolation) in q)
    && (Acts(t.pc) ==> Acts(s.pc) || (Authorizes(s.pc) && Pre(LeaseActive) in q && Pre(RecordLease) in q))
    && ChecksNext(s.pc, t.pc, Publishing(Transfer), Publishing(VerifyTransfer), reply)
    && ChecksNext(s.pc, t.pc, Pre(ReconcileEndpoint(4)), Pre(ReconcileEndpoint(5)), reply)
  }

  lemma ReconcileIsOrdered(c: Config, s: State, k: nat, reply: Reply)
    requires s.pc == Pre(ReconcileEndpoint(k)) && Needs(c, s.pc, s.run.passed)
    ensures GoesOn(c, s, NextReconcile(s, k, reply), reply)
  {}

  lemma CheckIsOrdered(c: Config, s: State, call: PreCall, reply: Reply)
    requires s.pc == Pre(call) && Needs(c, s.pc, s.run.passed)
    requires call.CheckDone? || call.VerifyCompleted? || call.VerifyStillIsolated?
    ensures GoesOn(c, s, NextPre(c, s, call, reply), reply)
  {}

  lemma PrepareIsOrdered(c: Config, s: State, call: PreCall, reply: Reply)
    requires s.pc == Pre(call) && Needs(c, s.pc, s.run.passed) && !call.ReconcileEndpoint?
    requires !call.CheckDone? && !call.VerifyCompleted? && !call.VerifyStillIsolated?
    ensures GoesOn(c, s, NextPre(c, s, call, reply), reply)
  {}

  lemma PreIsOrdered(c: Config, s: State, call: PreCall, reply: Reply)
    requires s.pc == Pre(call) && Needs(c, s.pc, s.run.passed)
    ensures GoesOn(c, s, NextPre(c, s, call, reply), reply)
  {
    if call.ReconcileEndpoint? {
      ReconcileIsOrdered(c, s, call.k, reply);
    } else if call.CheckDone? || call.VerifyCompleted? || call.VerifyStillIsolated? {
      CheckIsOrdered(c, s, call, reply);
    } else {
      PrepareIsOrdered(c, s, call, reply);
    }
  }

  lemma PromoteIsOrdered(c: Config, s: State, call: PromoteCall, reply: Reply)
    requires s.pc == Promoting(call) && Needs(c, s.pc, s.run.passed)
    ensures GoesOn(c, s, NextPromote(c, s, call, reply), reply)
  {}

  lemma PublishIsOrdered(c: Config, s: State, call: PublishCall, reply: Reply)
    requires s.pc == Publishing(call) && Needs(c, s.pc, s.run.passed)
    ensures GoesOn(c, s, NextPublish(c, s, call, reply), reply)
  {}

  lemma NextIsOrdered(c: Config, s: State, reply: Reply)
    requires Needs(c, s.pc, s.run.passed) && !s.pc.Idle? && !s.pc.Exit?
    ensures GoesOn(c, s, Next(c, s, reply), reply)
  {
    match s.pc
    case Pre(call) => PreIsOrdered(c, s, call, reply);
    case Promoting(call) => PromoteIsOrdered(c, s, call, reply);
    case Publishing(call) => PublishIsOrdered(c, s, call, reply);
  }

  lemma GoingOnKeepsOrdered(c: Config, s: State, t: State, reply: Reply)
    requires Ordered(c, s) && !s.pc.Idle? && !s.pc.Exit? && GoesOn(c, s, t, reply)
    ensures Ordered(c, t.(run := Remember(c, s, reply)))
  {
    var q := Passing(c, s, reply);
    forall x | x in q
      ensures Needs(c, x, q)
    {
      NeedsGrow(c, x, s.run.passed, q);
    }
  }

  // Over every sequence of runs: no call is made in a run before the calls it depends on have succeeded
  // in that run, nothing is done to the target before, in the same run, the isolation of the old primary
  // was proven and the lease obtained and recorded, and a transfer of the endpoint is verified before
  // anything else happens.
  lemma {:induction false} CallsAreInOrder(c: Config, s: State, events: seq<Event>)
    requires s.pc == Idle
    ensures Ordered(c, After(c, s, events))
    ensures var t := After(c, s, events); Acts(t.pc) ==> Authorized(t.run.passed)
  {
    if events != [] {
      var a, e := After(c, s, events[..|events| - 1]), events[|events| - 1];
      CallsAreInOrder(c, s, events[..|events| - 1]);
      if e.Answer? && !a.pc.Idle? && !a.pc.Exit? {
        NextIsOrdered(c, a, e.reply);
        GoingOnKeepsOrdered(c, a, Next(c, a, e.reply), e.reply);
      }
    }
  }

  // ---- Where a run ends ----

  // The calls that can end a run although they were answered: a check fails.
  predicate Decides(pc: Pc) {
    || (pc.Pre? && (pc.pre.VerifyStillIsolated? || pc.pre.Precheck? || pc.pre.VerifyIsolation?))
    || pc == Pre(ReconcileEndpoint(5))
    || pc == Promoting(ProbeStandby) || pc == Promoting(ProbePrimary) || pc == Publishing(VerifyTransfer)
  }

  // The class a failing run reports, by the call that ended it.
  function Cause(pc: Pc): Class {
    match pc
    case Pre(call) =>
      (match call
       case CheckDone(_) => PromotedUnverified
       case VerifyCompleted => PromotedUnverified
       case ReconcileEndpoint(_) => PromotedUnverified
       case ReadProgress => PromotedUnverified
       case VerifyStillIsolated => FenceUnknown
       case RecordFence => FenceUnknown
       case VerifyIsolation => FenceUnknown
       case RecordVerified => FenceUnknown
       case _ => PreCommit)
    case Promoting(ReadPromoted) => FenceUnknown
    case Promoting(ProbeStandby) => PreCommit
    case Promoting(Promote) => PromotionUnknown
    case _ => PromotedUnverified
  }

  predicate SameServer(a: Server, b: Server) {
    a.running == b.running && a.standby == b.standby && a.setting == b.setting && a.loaded == b.loaded
  }

  // The target is as the run found it, up to the promotion.
  predicate Untouched(s: State) {
    SameServer(s.w.dst, s.run.launch.dst) && s.w.following == s.run.launch.following
  }

  // The target was not promoted by this run yet.
  predicate Early(pc: Pc) {
    pc.Pre? || (pc.Promoting? && (pc.promote.ReadPromoted? || pc.promote.ProbeStandby? || pc.promote.Promote?))
  }

  predicate Ends(s: State) {
    match s.pc
    case Idle => true
    case Exit(out) =>
      && (if out.Failed? then
            && out.cause == Cause(s.run.last) && (s.run.fault || Decides(s.run.last))
            && (s.run.last.Pre? || s.run.last.Promoting? || s.run.last.Publishing?)
            && (out.cause == PreCommit || out.cause == FenceUnknown ==> Untouched(s))
          else !s.run.fault && (out == Reconciled ==> s.w.endpoint && !s.w.lease))
      && (out.Failed? && !s.run.last.Publishing? && !Reconciles(s.run.last) ==> s.w.lease == Leased(s.run))
    case _ =>
      && !s.run.fault && (Early(s.pc) ==> Untouched(s))
      && (s.pc == Pre(ReconcileEndpoint(6)) ==> s.w.endpoint)
      && (!s.pc.Publishing? && !Reconciles(s.pc) ==> s.w.lease == Leased(s.run))
  }

  // The run has a lease: its own or one that was there before. It keeps it until it is finalized.
  predicate Leased(run: History) {
    run.launch.lease || Pre(Lease) in run.passed
  }

  predicate Reconciles(pc: Pc) {
    pc.Pre? && pc.pre.ReconcileEndpoint?
  }

  function Told(c: Config, s: State, t: State, reply: Reply): State {
    t.(run := Remember(c, s, reply))
  }

  lemma ReconcileKeepsEnds(c: Config, s: State, k: nat, reply: Reply)
    requires Ends(s) && s.pc == Pre(ReconcileEndpoint(k)) && Needs(c, s.pc, s.run.passed)
    ensures Ends(Told(c, s, NextReconcile(s, k, reply), reply))
  {}

  lemma PreKeepsEnds(c: Config, s: State, call: PreCall, reply: Reply)
    requires Ends(s) && s.pc == Pre(call) && Needs(c, s.pc, s.run.passed)
    ensures Ends(Told(c, s, NextPre(c, s, call, reply), reply))
  {
    if call.ReconcileEndpoint? {
      ReconcileKeepsEnds(c, s, call.k, reply);
    }
  }

  lemma PromoteKeepsEnds(c: Config, s: State, call: PromoteCall, reply: Reply)
    requires Inv(c, s) && Ends(s) && s.pc == Promoting(call)
    ensures Ends(Told(c, s, NextPromote(c, s, call, reply), reply))
  {}

  lemma PublishKeepsEnds(c: Config, s: State, call: PublishCall, reply: Reply)
    requires Ends(s) && s.pc == Publishing(call) && Needs(c, s.pc, s.run.passed)
    ensures Ends(Told(c, s, NextPublish(c, s, call, reply), reply))
  {}

  lemma AnswerKeepsEnds(c: Config, s: State, reply: Reply)
    requires Inv(c, s) && Ends(s) && Needs(c, s.pc, s.run.passed) && !s.pc.Idle? && !s.pc.Exit?
    ensures Ends(Told(c, s, Next(c, s, reply), reply))
  {
    match s.pc
    case Pre(call) => PreKeepsEnds(c, s, call, reply);
    case Promoting(call) => PromoteKeepsEnds(c, s, call, reply);
    case Publishing(call) => PublishKeepsEnds(c, s, call, reply);
  }

  lemma EnvKeepsEnds(s: State, next: World)
    requires Ends(s) && EnvStep(s.w, next)
    ensures Ends(s.(w := next))
  {
    assert Untouched(s.(w := next)) == Untouched(s);
  }

  lemma {:induction false} AfterEnds(c: Config, s: State, events: seq<Event>)
    requires Start(s)
    ensures Ends(After(c, s, events))
  {
    if events != [] {
      var front, e := events[..|events| - 1], events[|events| - 1];
      var a := After(c, s, front);
      AfterEnds(c, s, front);
      if e.Answer? && !a.pc.Idle? && !a.pc.Exit? {
        CallsAreInOrder(c, s, front);
        FailoverIsSafe(c, s, front);
        AnswerKeepsEnds(c, a, e.reply);
      } else if e.Environment? && EnvStep(a.w, e.next) {
        EnvKeepsEnds(a, e.next);
      }
    }
  }

  // Over every sequence of runs: a run in which a call failed without a way around never completes, a
  // failing run was ended by a failed call or a failed check, and it reports the class that belongs to
  // that call. A run that reports pre_commit or fence_unknown has left the target and the followers as it
  // found them. A run that fails before it publishes keeps the lease it has obtained.
  lemma {:induction false} FailureIsClassified(c: Config, s: State, events: seq<Event>)
    requires Start(s) && After(c, s, events).pc.Exit?
    ensures var t := After(c, s, events);
            if t.pc.out.Failed? then
              && t.pc.out.cause == Cause(t.run.last) && (t.run.fault || Decides(t.run.last))
              && (t.pc.out.cause == PreCommit || t.pc.out.cause == FenceUnknown ==> Untouched(t))
            else !t.run.fault && (t.pc.out == Reconciled ==> t.w.endpoint && !t.w.lease)
    ensures var t := After(c, s, events);
            t.pc.out.Failed?
            && (t.run.last.Promoting? || t.run.last == Pre(Lease) || t.run.last == Pre(RecordLease)) ==>
              t.w.lease == (t.run.launch.lease || Pre(Lease) in t.run.passed)
  {
    AfterEnds(c, s, events);
  }

  // ---- Every run ends ----

  function PreRank(c: Config, call: PreCall): int {
    match call
    case CheckDone(i) => 25 + |c.plan| - i
    case VerifyCompleted => 24
    case VerifyStillIsolated => 23
    case ReconcileEndpoint(k) => 22 - k
    case ReadProgress => 12
    case Precheck => 11
    case ReadFence => 10
    case Isolate => 9
    case RecordFence => 8
    case VerifyIsolation => 7
    case RecordVerified => 6
    case Lease => 5
    case LeaseActive => 4
    case RecordLease => 3
  }

  function PromoteRank(call: PromoteCall): int {
    match call
    case ReadPromoted => 9
    case ProbeStandby => 8
    case Promote => 7
    case RecordPromote => 6
    case ProbePrimary => 5
    case ReadActivated => 4
    case Activate(k) => 3 - k
    case RecordActivated => 1
  }

  function PublishRank(c: Config, call: PublishCall): int {
    var after := 3 * |c.followers| + 3;
    match call
    case ReadTransferred => after + 6
    case VerifyEndpoint => after + 5
    case Transfer => after + 4
    case VerifyTransfer => after + 3
    case RecordTransfer => after + 2
    case Finalize => after + 1
    case ReadFollower(i) => 3 * (|c.followers| - i) + 3
    case RepointFollower(i) => 3 * (|c.followers| - i) + 2
    case RecordFollower(i) => 3 * (|c.followers| - i) + 1
  }

  // How many calls a run can still make at most.
  function Rank(c: Config, pc: Pc): int {
    match pc
    case Idle => 0
    case Exit(_) => 0
    case Publishing(call) => PublishRank(c, call)
    case Promoting(call) => 3 * |c.followers| + 10 + PromoteRank(call)
    case Pre(call) => 3 * |c.followers| + 20 + PreRank(c, call)
  }

  lemma PreAdvances(c: Config, s: State, call: PreCall, reply: Reply)
    requires s.pc == Pre(call) && Needs(c, s.pc, s.run.passed)
    ensures 0 <= Rank(c, NextPre(c, s, call, reply).pc) < Rank(c, s.pc)
  {}

  lemma PromoteAdvances(c: Config, s: State, call: PromoteCall, reply: Reply)
    requires s.pc == Promoting(call) && Needs(c, s.pc, s.run.passed)
    ensures 0 <= Rank(c, NextPromote(c, s, call, reply).pc) < Rank(c, s.pc)
  {}

  lemma PublishAdvances(c: Config, s: State, call: PublishCall, reply: Reply)
    requires s.pc == Publishing(call) && Needs(c, s.pc, s.run.passed)
    ensures 0 <= Rank(c, NextPublish(c, s, call, reply).pc) < Rank(c, s.pc)
  {}

  // Over every sequence of runs: whatever the answer, the pending call brings the run closer to its end, so
  // no run makes more than `Rank` further calls.
  lemma {:induction false} EveryRunEnds(c: Config, s: State, events: seq<Event>, reply: Reply)
    requires s.pc == Idle
    ensures var t := After(c, s, events);
            t.pc.Idle? || t.pc.Exit? || 0 <= Rank(c, Next(c, t, reply).pc) < Rank(c, t.pc)
  {
    CallsAreInOrder(c, s, events);
    var t := After(c, s, events);
    match t.pc
    case Idle =>
    case Exit(_) =>
    case Pre(call) => PreAdvances(c, t, call, reply);
    case Promoting(call) => PromoteAdvances(c, t, call, reply);
    case Publishing(call) => PublishAdvances(c, t, call, reply);
  }
}
