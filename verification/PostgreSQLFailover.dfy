// The PostgreSQL failover executor as a state machine, in the style of the planned switchover: the
// old primary is isolated by the safety provider instead of being stopped.
module PostgreSQLFailover {
  import opened PostgreSQLMembers

  // The steps the executor records, in plan order.
  function Plan(followers: seq<Id>): seq<Step> {
    [FenceOldPrimary, VerifyFenced, Authorize, PromoteTarget, ActivateWrites, TransferEndpoint]
    + seq(|followers|, i requires 0 <= i < |followers| => Repoint(followers[i]))
  }

  datatype Class = PreCommit | FenceUnknown | PromotionUnknown | PromotedUnverified
  datatype Outcome = Completed | AlreadyCompleted | Reconciled | Failed(cause: Class)

  datatype PreCall =
    | CheckDone(i: nat) | VerifyCompleted | VerifyStillIsolated | ReconcileEndpoint(k: nat)
    | ReadProgress | Precheck
    | ReadFence | Isolate | RecordFence | VerifyIsolation | RecordVerified
    | Lease | LeaseActive | RecordLease
  datatype PromoteCall =
    | ReadPromoted | ProbeStandby | Promote | RecordPromote
    | ProbePrimary | ReadActivated | Activate(k: nat) | RecordActivated
  datatype PublishCall =
    | ReadTransferred | VerifyEndpoint | Transfer | VerifyTransfer | RecordTransfer | Finalize
    | ReadFollower(i: nat) | RepointFollower(i: nat) | RecordFollower(i: nat)

  datatype Pc =
    | Idle | Exit(out: Outcome) | Pre(pre: PreCall) | Promoting(promote: PromoteCall) | Publishing(publish: PublishCall)

  // The world the current run started in, its calls answered with success, its last call, and whether a
  // call failed.
  datatype History = History(launch: World, passed: set<Pc>, last: Pc, fault: bool)

  datatype State = State(w: World, pc: Pc, transferred: bool, run: History)

  // Some places of a loop need no call: steps that are not consulted, and the end of the loop.
  predicate Real(c: Config, pc: Pc) {
    match pc
    case Pre(CheckDone(i)) => i < |c.plan| && Mutating(c.plan[i])
    case Publishing(ReadFollower(i)) => i < |c.followers|
    case _ => true
  }

  // Failures with a way around: an endpoint that cannot be verified is transferred, and a completed
  // operation with a wrong endpoint is reconciled.
  predicate Tolerated(pc: Pc, reply: Reply) {
    || pc == Publishing(VerifyEndpoint) || pc == Pre(ReconcileEndpoint(3))
    || (pc == Pre(VerifyCompleted) && reply == ErrBefore)
  }

  function Stop(s: State, cause: Class): State {
    s.(pc := Exit(Failed(cause)))
  }

  function Goto(s: State, reply: Reply, pc: Pc, cause: Class): State {
    if reply == Ok then s.(pc := pc) else Stop(s, cause)
  }

  predicate Mutating(step: Step) {
    step != VerifyFenced
  }

  // A completed operation is only verified, and its endpoint reconciled under proven isolation. A
  // promoted operation skips the precheck of the target. Isolation is proven in every run.
  function NextPre(c: Config, s: State, call: PreCall, reply: Reply): State {
    match call
    case CheckDone(i) =>
      if i >= |c.plan| then s.(pc := Pre(VerifyCompleted))
      else if !Mutating(c.plan[i]) then s.(pc := Pre(CheckDone(i + 1)))
      else if reply != Ok then Stop(s, PromotedUnverified)
      else s.(pc := Pre(if c.plan[i] in s.w.done then CheckDone(i + 1) else ReadProgress))
    case VerifyCompleted =>
      (match reply
       case Ok => s.(pc := Exit(AlreadyCompleted))
       case ErrBefore => s.(pc := Pre(VerifyStillIsolated))
       case ErrAfter => Stop(s, PromotedUnverified))
    case VerifyStillIsolated => if s.w.isolated then Goto(s, reply, Pre(ReconcileEndpoint(0)), FenceUnknown)
      else Stop(s, FenceUnknown)
    case ReconcileEndpoint(k) => NextReconcile(s, k, reply)
    case ReadProgress =>
      Goto(s, reply, Pre(if PromoteTarget in s.w.done then ReadFence else Precheck), PromotedUnverified)
    case Precheck => if s.w.dst.running
      && s.w.dst.standby then Goto(s, reply, Pre(ReadFence), PreCommit) else Stop(s, PreCommit)
    case ReadFence => Goto(s, reply, Pre(if FenceOldPrimary in s.w.done then VerifyIsolation else Isolate), PreCommit)
    case Isolate =>
      Goto(s.(w := if reply == ErrBefore then s.w else s.w.(isolated := true)), reply, Pre(RecordFence), PreCommit)
    case RecordFence => Goto(s.(w := Recorded(s.w, FenceOldPrimary, reply)), reply, Pre(VerifyIsolation), FenceUnknown)
    case VerifyIsolation => if s.w.isolated then Goto(s, reply, Pre(RecordVerified), FenceUnknown)
      else Stop(s, FenceUnknown)
    case RecordVerified => Goto(s.(w := Recorded(s.w, VerifyFenced, reply)), reply, Pre(Lease), FenceUnknown)
    case Lease => Goto(s.(w := s.w.(lease := s.w.lease || reply == Ok)), reply, Pre(LeaseActive), PreCommit)
    case LeaseActive => Goto(s, reply, Pre(RecordLease), PreCommit)
    case RecordLease => Goto(s.(w := Recorded(s.w, Authorize, reply)), reply, Promoting(ReadPromoted), PreCommit)
  }

  // As for the planned switchover.
  function NextReconcile(s: State, k: nat, reply: Reply): State {
    if k == 3 then s.(pc := Pre(ReconcileEndpoint(if reply == Ok && s.w.endpoint then 6 else 4)))
    else if k == 4 then Goto(s.(w := Transferred(s.w, reply)), reply, Pre(ReconcileEndpoint(5)), PromotedUnverified)
    else if k == 5
      then Goto(s, if s.w.endpoint then reply else ErrBefore, Pre(ReconcileEndpoint(6)), PromotedUnverified)
    else if reply != Ok then
      Stop(s.(w := if k == 2 then Recorded(s.w, Authorize, reply) else s.w), PromotedUnverified)
    else if k == 0 then s.(w := s.w.(lease := true), pc := Pre(ReconcileEndpoint(1)))
    else if k == 2 then s.(w := Recorded(s.w, Authorize, reply), pc := Pre(ReconcileEndpoint(3)))
    else if k < 6 then s.(pc := Pre(ReconcileEndpoint(k + 1)))
    else s.(w := s.w.(lease := false), pc := Exit(Reconciled))
  }

  function NextPromote(c: Config, s: State, call: PromoteCall, reply: Reply): State {
    match call
    case ReadPromoted =>
      Goto(s, reply, Promoting(if PromoteTarget in s.w.done then ProbePrimary else ProbeStandby), FenceUnknown)
    case ProbeStandby => if s.w.dst.running
      && s.w.dst.standby then Goto(s, reply, Promoting(Promote), PreCommit) else Stop(s, PreCommit)
    case Promote => Goto(s.(w := Promoted(s.w, reply)), reply, Promoting(RecordPromote), PromotionUnknown)
    case RecordPromote =>
      Goto(s.(w := Recorded(s.w, PromoteTarget, reply)), reply, Promoting(ProbePrimary), PromotedUnverified)
    case ProbePrimary => if Primary(s.w.dst) then Goto(s, reply, Promoting(ReadActivated), PromotedUnverified)
      else Stop(s, PromotedUnverified)
    case ReadActivated =>
      Goto(s, reply, if ActivateWrites in s.w.done then Publishing(ReadTransferred)
        else Promoting(Activate(0)), PromotedUnverified)
    case Activate(k) =>
      Goto(s.(w := s.w.(dst := Run(if k == 0 then Open else Reload, s.w.dst, reply))), Answered(s.w.dst, reply),
           Promoting(if k == 0 then Activate(1) else RecordActivated), PromotedUnverified)
    case RecordActivated =>
      Goto(s.(w := Recorded(s.w, ActivateWrites, reply)), reply, Publishing(ReadTransferred), PromotedUnverified)
  }

  function NextPublish(c: Config, s: State, call: PublishCall, reply: Reply): State {
    match call
    case ReadTransferred =>
      Goto(s.(transferred := TransferEndpoint in s.w.done), reply, Publishing(VerifyEndpoint), PromotedUnverified)
    case VerifyEndpoint =>
      s.(pc := Publishing(if reply != Ok
        || !s.w.endpoint then Transfer else if s.transferred then Finalize else RecordTransfer))
    case Transfer => Goto(s.(w := Transferred(s.w, reply)), reply, Publishing(VerifyTransfer), PromotedUnverified)
    case VerifyTransfer =>
      Goto(s, if s.w.endpoint then reply
        else ErrBefore, Publishing(if s.transferred then Finalize else RecordTransfer), PromotedUnverified)
    case RecordTransfer =>
      Goto(s.(w := Recorded(s.w, TransferEndpoint, reply)), reply, Publishing(Finalize), PromotedUnverified)
    case Finalize =>
      Goto(s.(w := s.w.(lease := s.w.lease && reply == ErrBefore)), reply, Publishing(ReadFollower(0)),
        PromotedUnverified)
    case ReadFollower(i) =>
      if i >= |c.followers| then s.(pc := Exit(Completed))
      else Goto(s, reply,
        Publishing(if Repoint(c.followers[i]) in s.w.done then ReadFollower(i + 1) else RepointFollower(i)),
          PromotedUnverified)
    case RepointFollower(i) =>
      if i >= |c.followers| then s
      else Goto(s.(w :=
        s.w.(following := if reply == ErrBefore then s.w.following else s.w.following + {c.followers[i]})), reply,
                Publishing(RecordFollower(i)), PromotedUnverified)
    case RecordFollower(i) =>
      if i >= |c.followers| then s
      else Goto(s.(w := Recorded(s.w, Repoint(c.followers[i]), reply)), reply, Publishing(ReadFollower(i + 1)),
        PromotedUnverified)
  }

  function Next(c: Config, s: State, reply: Reply): State {
    match s.pc
    case Idle => s
    case Exit(_) => s
    case Pre(call) => NextPre(c, s, call, reply)
    case Promoting(call) => NextPromote(c, s, call, reply)
    case Publishing(call) => NextPublish(c, s, call, reply)
  }

  function Passing(c: Config, s: State, reply: Reply): set<Pc> {
    if reply == Ok || !Real(c, s.pc) then s.run.passed + {s.pc} else s.run.passed
  }

  function Remember(c: Config, s: State, reply: Reply): History {
    s.run.(passed := Passing(c, s, reply), last := s.pc,
           fault := s.run.fault || (Real(c, s.pc) && reply != Ok && !Tolerated(s.pc, reply)))
  }

  datatype Event = Answer(reply: Reply) | Environment(next: World) | Crash | Launch

  function Happen(c: Config, s: State, e: Event): State {
    match e
    case Answer(reply) => if s.pc.Idle? || s.pc.Exit? then s else Next(c, s, reply).(run := Remember(c, s, reply))
    case Environment(next) => if EnvStep(s.w, next) then s.(w := next) else s
    case Crash => s.(pc := Idle)
    case Launch =>
      if s.pc.Idle? || s.pc.Exit? then s.(pc := Pre(CheckDone(0)), run := History(s.w, {}, Idle, false)) else s
  }

  // The state after any sequence of events: any number of runs, each crashing anywhere.
  function After(c: Config, s: State, events: seq<Event>): State {
    if events == [] then s else Happen(c, After(c, s, events[..|events| - 1]), events[|events| - 1])
  }

  // ---- Single runs ----

  // Whatever happens until the operation is launched again.
  predicate OneRun(events: seq<Event>) {
    forall i | 0 <= i < |events| :: !events[i].Launch?
  }

  // Some course of one run leads from one state to another.
  ghost predicate Leads(c: Config, s: State, t: State) {
    exists events :: OneRun(events) && After(c, s, events) == t
  }

  lemma {:induction false} AfterAppend(c: Config, s: State, before: seq<Event>, after: seq<Event>)
    ensures After(c, s, before + after) == After(c, After(c, s, before), after)
  {
    if after == [] {
      assert before + after == before;
    } else {
      assert (before + after)[..|before + after| - 1] == before + after[..|after| - 1];
      AfterAppend(c, s, before, after[..|after| - 1]);
    }
  }

  lemma LeadsThen(c: Config, s: State, t: State, u: State)
    requires Leads(c, s, t) && Leads(c, t, u)
    ensures Leads(c, s, u)
  {
    var before :| OneRun(before) && After(c, s, before) == t;
    var after :| OneRun(after) && After(c, t, after) == u;
    AfterAppend(c, s, before, after);
    assert OneRun(before + after);
  }

  lemma LeadsNowhere(c: Config, s: State)
    ensures Leads(c, s, s)
  {
    assert OneRun([]) && After(c, s, []) == s;
  }

  lemma LeadsNext(c: Config, s: State, e: Event)
    requires !e.Launch?
    ensures Leads(c, s, Happen(c, s, e))
  {
    assert After(c, s, [e]) == Happen(c, After(c, s, [e][..0]), e);
    assert OneRun([e]);
  }

  // Putting one more event in front of a run.
  lemma LeadsOn(c: Config, s: State, e: Event, t: State)
    requires !e.Launch? && Leads(c, Happen(c, s, e), t)
    ensures Leads(c, s, t)
  {
    LeadsNext(c, s, e);
    LeadsThen(c, s, Happen(c, s, e), t);
  }

  // The process dies.
  lemma CrashLeads(c: Config, s: State) returns (t: State)
    ensures Leads(c, s, t) && t == s.(pc := Idle)
  {
    t := Happen(c, s, Crash);
    LeadsNext(c, s, Crash);
  }
}
