// The PostgreSQL failover over every sequence of runs: one primary outside isolation, progress in
// plan order, true recorded steps, and a moved primary after completion.
module PostgreSQLFailoverSafety {
  import opened Progress
  import opened PostgreSQLMembers
  import opened PostgreSQLFailover

  predicate Active(w: World) {
    Primary(w.dst) && !w.dst.setting && !w.dst.loaded
  }

  // What the executor relies on at a call.
  predicate Knows(c: Config, s: State) {
    match s.pc
    case Idle => true
    case Exit(out) => out == Completed ==> Active(s.w) && !s.w.lease
    case Pre(RecordFence) => s.w.isolated
    case Pre(RecordVerified) => s.w.isolated
    case Pre(Lease) => s.w.isolated
    case Pre(LeaseActive) => s.w.isolated
    case Pre(RecordLease) => s.w.isolated
    case Pre(_) => true
    case Promoting(call) =>
      && s.w.isolated
      && (match call
          case ReadPromoted => true
          case ProbeStandby => true
          case Promote => s.w.dst.running
          case ProbePrimary => true
          case RecordActivated => Active(s.w)
          case Activate(k) => Primary(s.w.dst) && (k > 0 ==> !s.w.dst.setting)
          case _ => Primary(s.w.dst))
    case Publishing(call) =>
      && s.w.isolated && Active(s.w)
         && (call.ReadFollower? || call.RepointFollower? || call.RecordFollower? ==> !s.w.lease)
      && (call.RecordFollower? && call.i < |c.followers| ==> c.followers[call.i] in s.w.following)
      && (call.RecordTransfer? ==> s.w.endpoint)
  }

  // The target is primary only under isolation, and recorded steps are true.
  ghost predicate Inv(c: Config, s: State) {
    && (!s.w.dst.standby ==> s.w.isolated)
    && (FenceOldPrimary in s.w.done || VerifyFenced in s.w.done ==> s.w.isolated)
    && (PromoteTarget in s.w.done ==> Primary(s.w.dst))
    && (ActivateWrites in s.w.done ==> !s.w.dst.setting && !s.w.dst.loaded)
    && (TransferEndpoint in s.w.done ==> s.w.endpoint)
    && (forall f | f in c.followers && Repoint(f) in s.w.done :: f in s.w.following)
    && Knows(c, s)
  }

  predicate Start(s: State) {
    s.pc == Idle && s.w.done == {} && s.w.dst.standby
  }

  lemma ReconcileMovesNothing(s: State, k: nat, reply: Reply)
    ensures var t := NextReconcile(s, k, reply);
            && t.w == s.w.(done := t.w.done, lease := t.w.lease, endpoint := t.w.endpoint)
               && (s.w.endpoint ==> t.w.endpoint) && (t.w.done == s.w.done || t.w.done == s.w.done + {Authorize})
            && ((t.pc.Exit? && t.pc.out != Completed) || (t.pc.Pre? && t.pc.pre.ReconcileEndpoint?))
  {}

  lemma PreKeepsInv(c: Config, s: State, call: PreCall, reply: Reply)
    requires Inv(c, s) && s.pc == Pre(call)
    ensures Inv(c, NextPre(c, s, call, reply))
  {
    if call.ReconcileEndpoint? {
      ReconcileMovesNothing(s, call.k, reply);
    }
  }

  lemma PromotingKeepsInv(c: Config, s: State, call: PromoteCall, reply: Reply)
    requires Inv(c, s) && s.pc == Promoting(call)
    requires call.ReadPromoted? || call.ProbeStandby? || call.Promote? || call.RecordPromote?
    ensures Inv(c, NextPromote(c, s, call, reply))
  {}

  lemma ActivatingKeepsInv(c: Config, s: State, call: PromoteCall, reply: Reply)
    requires Inv(c, s) && s.pc == Promoting(call)
    requires call.ProbePrimary? || call.ReadActivated? || call.Activate? || call.RecordActivated?
    ensures Inv(c, NextPromote(c, s, call, reply))
  {}

  lemma PromoteKeepsInv(c: Config, s: State, call: PromoteCall, reply: Reply)
    requires Inv(c, s) && s.pc == Promoting(call)
    ensures Inv(c, NextPromote(c, s, call, reply))
  {
    if call.ReadPromoted? || call.ProbeStandby? || call.Promote? || call.RecordPromote? {
      PromotingKeepsInv(c, s, call, reply);
    } else {
      ActivatingKeepsInv(c, s, call, reply);
    }
  }

  lemma PublishKeepsInv(c: Config, s: State, call: PublishCall, reply: Reply)
    requires Inv(c, s) && s.pc == Publishing(call)
    ensures Inv(c, NextPublish(c, s, call, reply))
  {}

  lemma HappenKeepsInv(c: Config, s: State, e: Event)
    requires Inv(c, s)
    ensures Inv(c, Happen(c, s, e))
  {
    if e.Answer? {
      match s.pc
      case Idle =>
      case Exit(_) =>
      case Pre(call) => PreKeepsInv(c, s, call, e.reply);
      case Promoting(call) => PromoteKeepsInv(c, s, call, e.reply);
      case Publishing(call) => PublishKeepsInv(c, s, call, e.reply);
    }
  }

  // Over every sequence of runs a running target outside recovery implies an isolated old primary.
  lemma {:induction false} FailoverIsSafe(c: Config, s: State, events: seq<Event>)
    requires Start(s)
    ensures var t := After(c, s, events);
            Inv(c, t) && SinglePrimary(t.w) && (Primary(t.w.dst) ==> t.w.isolated)
  {
    if events != [] {
      FailoverIsSafe(c, s, events[..|events| - 1]);
      HappenKeepsInv(c, After(c, s, events[..|events| - 1]), events[|events| - 1]);
    }
  }

  // ---- Progress ----

  ghost predicate Planned(c: Config) {
    c.plan == Plan(c.followers)
  }

  ghost predicate Listed(c: Config) {
    && |c.plan| == |c.followers| + 6
    && c.plan[0] == FenceOldPrimary && c.plan[1] == VerifyFenced && c.plan[2] == Authorize
    && c.plan[3] == PromoteTarget && c.plan[4] == ActivateWrites && c.plan[5] == TransferEndpoint
    && (forall i | 0 <= i < |c.followers| :: c.plan[6 + i] == Repoint(c.followers[i]))
  }

  lemma PlanEntries(c: Config)
    requires Planned(c)
    ensures Listed(c)
  {}

  // How many plan entries are certainly recorded when the run stands at a call.
  function PreReached(call: PreCall): nat {
    match call
    case VerifyIsolation => 1
    case RecordVerified => 1
    case Lease => 2
    case LeaseActive => 2
    case RecordLease => 2
    case _ => 0
  }

  function PromoteReached(call: PromoteCall): nat {
    match call
    case ReadPromoted => 3
    case ProbeStandby => 3
    case Promote => 3
    case RecordPromote => 3
    case _ => 4
  }

  function PublishReached(call: PublishCall): nat {
    match call
    case Finalize => 6
    case ReadFollower(i) => 6 + i
    case RepointFollower(i) => 6 + i
    case RecordFollower(i) => 6 + i
    case _ => 5
  }

  function Reached(c: Config, pc: Pc): nat {
    match pc
    case Pre(call) => PreReached(call)
    case Promoting(call) => PromoteReached(call)
    case Publishing(call) => PublishReached(call)
    case Exit(out) => if out == Completed then |c.plan| else 0
    case Idle => 0
  }

  predicate InRange(c: Config, s: State) {
    s.pc.Publishing? ==>
      match s.pc.publish
      case VerifyEndpoint => s.transferred ==> TransferEndpoint in s.w.done
      case Transfer => s.transferred ==> TransferEndpoint in s.w.done
      case VerifyTransfer => s.transferred ==> TransferEndpoint in s.w.done
      case ReadFollower(i) => i <= |c.followers|
      case RepointFollower(i) => i < |c.followers|
      case RecordFollower(i) => i < |c.followers|
      case _ => true
  }

  predicate Orderly(c: Config, s: State, t: State) {
    InRange(c, t) && Advances(s.w.done, t.w.done, c.plan, Reached(c, s.pc), Reached(c, t.pc))
  }

  // Reconciling the endpoint happens only once every mutating step is recorded.
  predicate AllMutating(c: Config, s: State) {
    s.pc.Pre? ==>
      match s.pc.pre
      case CheckDone(i) => forall j | 0 <= j < i && j < |c.plan| && Mutating(c.plan[j]) :: c.plan[j] in s.w.done
      case VerifyCompleted => Authorize in s.w.done
      case VerifyStillIsolated => Authorize in s.w.done
      case ReconcileEndpoint(_) => Authorize in s.w.done
      case _ => true
  }

  lemma PreIsOrderly(c: Config, s: State, call: PreCall, reply: Reply)
    requires Listed(c) && s.pc == Pre(call) && AllMutating(c, s)
    ensures Orderly(c, s, NextPre(c, s, call, reply)) && AllMutating(c, NextPre(c, s, call, reply))
  {
    if call.ReconcileEndpoint? {
      ReconcileMovesNothing(s, call.k, reply);
    }
  }

  lemma PromoteIsOrderly(c: Config, s: State, call: PromoteCall, reply: Reply)
    requires Listed(c) && s.pc == Promoting(call)
    ensures Orderly(c, s, NextPromote(c, s, call, reply)) && AllMutating(c, NextPromote(c, s, call, reply))
  {}

  lemma PublishIsOrderly(c: Config, s: State, call: PublishCall, reply: Reply)
    requires Listed(c) && s.pc == Publishing(call) && InRange(c, s)
    ensures Orderly(c, s, NextPublish(c, s, call, reply)) && AllMutating(c, NextPublish(c, s, call, reply))
  {}

  lemma HappenIsOrderly(c: Config, s: State, e: Event)
    requires Listed(c) && InRange(c, s) && AllMutating(c, s)
    ensures Orderly(c, s, Happen(c, s, e)) && AllMutating(c, Happen(c, s, e))
  {
    if e.Answer? {
      match s.pc
      case Idle =>
      case Exit(_) =>
      case Pre(call) => PreIsOrderly(c, s, call, e.reply);
      case Promoting(call) => PromoteIsOrderly(c, s, call, e.reply);
      case Publishing(call) => PublishIsOrderly(c, s, call, e.reply);
    }
  }

  ghost predicate InOrder(c: Config, s: State) {
    IsPrefix(s.w.done, c.plan) && InRange(c, s) && AllMutating(c, s) && Covers(s.w.done, c.plan, Reached(c, s.pc))
  }

  lemma {:induction false} AfterIsInOrder(c: Config, s: State, events: seq<Event>)
    requires Listed(c) && Start(s)
    ensures InOrder(c, After(c, s, events))
  {
    if events == [] {
      assert FirstSteps(c.plan, 0) == {};
    } else {
      var before := After(c, s, events[..|events| - 1]);
      var t := After(c, s, events);
      AfterIsInOrder(c, s, events[..|events| - 1]);
      HappenIsOrderly(c, before, events[|events| - 1]);
      AdvanceKeepsPrefix(before.w.done, t.w.done, c.plan, Reached(c, before.pc), Reached(c, t.pc));
    }
  }

  // Over every sequence of runs the recorded steps are a prefix of the plan.
  lemma {:induction false} FailoverProgressIsPrefix(c: Config, s: State, events: seq<Event>)
    requires Planned(c) && Start(s)
    ensures IsPrefix(After(c, s, events).w.done, c.plan)
  {
    PlanEntries(c);
    AfterIsInOrder(c, s, events);
  }

  // Whatever happened before, a run that completes leaves the old primary isolated, the target a
  // writable primary, every follower on it, the lease finalized and every step recorded.
  lemma {:induction false} CompletedMeansFailedOver(c: Config, s: State, events: seq<Event>)
    requires Planned(c) && Start(s) && After(c, s, events).pc == Exit(Completed)
    ensures var w := After(c, s, events).w;
            && w.isolated && CanCommit(w.dst) && !w.lease && w.endpoint
            && (forall f | f in c.followers :: f in w.following)
            && (forall step | step in c.plan :: step in w.done)
  {
    FailoverIsSafe(c, s, events);
    PlanEntries(c);
    AfterIsInOrder(c, s, events);
    var w := After(c, s, events).w;
    CoversAll(w.done, c.plan);
    forall f | f in c.followers
      ensures f in w.following
    {
      var i :| 0 <= i < |c.followers| && c.followers[i] == f;
      assert c.plan[6 + i] in c.plan;
    }
  }
}
