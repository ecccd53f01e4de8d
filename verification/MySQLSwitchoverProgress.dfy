// The recorded steps of the planned MySQL switchover are always a prefix of its plan.
module MySQLSwitchoverProgress {
  import opened Progress
  import opened MySQLMembers
  import opened MySQLSteps
  import opened MySQLSwitchover

  ghost predicate Planned(c: Config) {
    c.plan == Plan(c.followers, c.semiSync)
  }

  // The fixed entries at the head of the plan.
  predicate ListedHead(c: Config) {
    && |c.plan| >= 8
    && c.plan[0] == AuthorizeTransition && c.plan[1] == FenceSource && c.plan[2] == CaptureGtid
    && c.plan[3] == WaitGtid && c.plan[4] == StopTarget && c.plan[5] == PromoteTarget
  }

  // The plan read entry by entry.
  ghost predicate Listed(c: Config) {
    var n := |c.followers|;
    && |c.plan| == n + (if c.semiSync then 9 else 8)
    && ListedHead(c)
    && (forall i | 0 <= i < n :: c.plan[6 + i] == Reparent(c.followers[i]))
    && (c.semiSync ==> c.plan[6 + n] == ActivateSemiSync)
    && c.plan[|c.plan| - 2] == TransferEndpoint && c.plan[|c.plan| - 1] == RetainSourceReadOnly
  }

  lemma PlanEntries(c: Config)
    requires Planned(c)
    ensures Listed(c)
  {}

  // How many plan entries are certainly recorded when the run stands at a call.
  function FenceReached(call: FenceCall): nat {
    match call
    case Lease(_) => 0
    case RecordLease(_) => 0
    case FenceSuper => 1
    case FenceRecheck => 1
    case FenceReadOnly => 1
    case RecordFence => 1
    case Capture => 2
    case RecordCapture => 2
    case Wait => 3
    case RecordWait => 3
  }

  function PromoteReached(call: PromoteCall): nat {
    match call
    case ProbeDetach => 4
    case StopReplication => 4
    case ResetTarget => 4
    case RecordStop => 4
    case _ => 5
  }

  function FollowReached(c: Config, call: FollowCall): nat {
    match call
    case ReadFollower(i) => 6 + i
    case ReparentFollower(i, _) => 6 + i
    case RecordFollower(i) => 6 + i
    case _ => 6 + |c.followers|
  }

  function Reached(c: Config, pc: Pc): nat {
    match pc
    case Fencing(call) => FenceReached(call)
    case Promoting(call) => PromoteReached(call)
    case Following(call) => FollowReached(c, call)
    case Publishing(call) => if |c.plan| < 2 then 0 else if call == RecordRetain then |c.plan| - 1 else |c.plan| - 2
    case Exit(out) => if out == Completed then |c.plan| else 0
    case _ => 0
  }

  // The follower loop stays within the followers, and semi-sync calls occur only when required.
  predicate InRange(c: Config, pc: Pc) {
    pc.Following? ==>
      match pc.follow
      case ReadFollower(i) => i <= |c.followers|
      case ReparentFollower(i, _) => i < |c.followers|
      case RecordFollower(i) => i < |c.followers|
      case _ => c.semiSync
  }

  // One move of the executor records at most the next entry of the plan.
  predicate Orderly(c: Config, s: State, t: State) {
    InRange(c, t.pc) && Advances(s.w.done, t.w.done, c.plan, Reached(c, s.pc), Reached(c, t.pc))
  }

  lemma FenceIsOrderly(c: Config, s: State, call: FenceCall, reply: Reply)
    requires ListedHead(c) && s.pc == Fencing(call)
    ensures Orderly(c, s, NextFence(c, s, call, reply))
  {
  }

  lemma PromoteIsOrderly(c: Config, s: State, call: PromoteCall, reply: Reply)
    requires ListedHead(c) && s.pc == Promoting(call)
    ensures Orderly(c, s, NextPromote(c, s, call, reply))
  {
  }

  lemma FollowIsOrderly(c: Config, s: State, call: FollowCall, reply: Reply)
    requires Listed(c) && s.pc == Following(call) && InRange(c, s.pc)
    ensures Orderly(c, s, NextFollow(c, s, call, reply))
  {
    if call.ReparentFollower? {
      ReparentKeepsDone(c, s.w, c.followers[call.i], c.target, call.k, reply);
    }
  }

  lemma PublishIsOrderly(c: Config, s: State, call: PublishCall, reply: Reply)
    requires Listed(c) && s.pc == Publishing(call)
    ensures Orderly(c, s, NextPublish(c, s, call, reply))
  {
  }

  lemma PreIsOrderly(c: Config, s: State, call: PreCall, reply: Reply)
    requires s.pc == Pre(call)
    ensures Orderly(c, s, NextPre(c, s, call, reply))
  {}

  lemma RestoreIsOrderly(c: Config, s: State, k: nat, reply: Reply)
    requires s.pc == Restore(k)
    ensures Orderly(c, s, NextRestore(c, s, k, reply))
  {
    if k > 0 {
      ReparentKeepsDone(c, s.w, c.target, c.source, k - 1, reply);
    }
  }

  lemma HappenIsOrderly(c: Config, s: State, e: Event)
    requires Listed(c) && InRange(c, s.pc)
    ensures Orderly(c, s, Happen(c, s, e))
  {
    if e.Answer? {
      match s.pc
      case Pre(call) => PreIsOrderly(c, s, call, e.reply);
      case Fencing(call) => FenceIsOrderly(c, s, call, e.reply);
      case Promoting(call) => PromoteIsOrderly(c, s, call, e.reply);
      case Following(call) => FollowIsOrderly(c, s, call, e.reply);
      case Publishing(call) => PublishIsOrderly(c, s, call, e.reply);
      case Restore(k) => RestoreIsOrderly(c, s, k, e.reply);
      case _ =>
    }
  }

  ghost predicate InOrder(c: Config, s: State) {
    IsPrefix(s.w.done, c.plan) && InRange(c, s.pc) && Covers(s.w.done, c.plan, Reached(c, s.pc))
  }

  // Over every sequence of runs the recorded steps are a prefix of the plan, and all of it once a
  // run has completed.
  lemma {:induction false} SwitchoverProgressIsPrefix(c: Config, s: State, events: seq<Event>)
    requires Planned(c) && s.w.done == {} && s.pc == Idle
    ensures var t := After(c, s, events);
            && IsPrefix(t.w.done, c.plan) && InOrder(c, t)
            && (t.pc == Exit(Completed) ==> forall step | step in c.plan :: step in t.w.done)
  {
    if events == [] {
      assert FirstSteps(c.plan, 0) == {};
    } else {
      var before := After(c, s, events[..|events| - 1]);
      SwitchoverProgressIsPrefix(c, s, events[..|events| - 1]);
      PlanEntries(c);
      HappenIsOrderly(c, before, events[|events| - 1]);
      var t := After(c, s, events);
      AdvanceKeepsPrefix(before.w.done, t.w.done, c.plan, Reached(c, before.pc), Reached(c, t.pc));
      if t.pc == Exit(Completed) {
        CoversAll(t.w.done, c.plan);
      }
    }
  }
}
