// The planned PostgreSQL switchover executor as a state machine: each state names the external call
// the executor is about to make, and each transition consumes the answer to that call.
module PostgreSQLSwitchover {
  import opened PostgreSQLMembers

  // The steps the executor records, in plan order.
  function Plan(followers: seq<Id>): seq<Step> {
    [Authorize, FenceWrites, CaptureWal, StopSource, VerifyStopped, WaitWal, PromoteTarget, ActivateWrites,
      TransferEndpoint]
    + seq(|followers|, i requires 0 <= i < |followers| => Repoint(followers[i]))
    + [RewindSource]
  }

  datatype Class = PreCommit | FenceUnknown | SourceStopped | PromotedUnverified
  datatype Outcome = Completed | AlreadyCompleted | Reconciled | Failed(cause: Class)

  datatype PreCall =
    | CheckDone(i: nat) | VerifyCompleted | ReconcileEndpoint(k: nat)
    | LivePrecheck | Lease | LeaseActive | RecordLease
  datatype FenceCall = ReadFence | FenceStatement(k: nat) | RecordFence | ReadCapture | Capture | RecordCapture
  datatype StopCall =
    | ReadStop | StopServer | RecheckStopped | RecordStop | ProbeStopped | RecordStopped
    | Wait | RecordWait | ReadPromoted | ProbeStandby | Promote | RecordPromote
  datatype PublishCall =
    | ProbePrimary | ReadActivated | Activate(k: nat) | RecordActivated
    | ReadTransferred | VerifyEndpoint | Transfer | VerifyTransfer | RecordTransfer | Finalize
  datatype FollowCall =
    | ReadFollower(i: nat) | RepointFollower(i: nat) | RecordFollower(i: nat)
    | ReadRewound | Rewind | BaseBackup | RecordRewound

  // Two clean-ups of a failing run: before the source is stopped, and after.
  datatype Pc =
    | Idle | Exit(out: Outcome)
    | Pre(pre: PreCall) | Fencing(fence: FenceCall) | Stopping(stop: StopCall)
    | Publishing(publish: PublishCall) | Following(follow: FollowCall)
    | Abort(k: nat, failed: bool) | Rollback(k: nat, failed: bool)

  // What happened in the current run: the world it started in, whether it passed the precheck,
  // whether it obtained a lease, whether it gave up between obtaining and recording it, and whether it
  // got past reading its fence progress. Of its course: the calls answered with success, the last call,
  // whether a call failed, whether the run was undone, and whether a clean-up call failed.
  datatype History = History(launch: World, checked: bool, leased: bool, unrecorded: bool, started: bool,
    passed: set<Pc>, last: Pc, fault: bool, undone: bool, cleanupFailed: bool)

  // The calls of the course itself; all others clean up after a failure.
  predicate Main(pc: Pc) {
    pc.Pre? || pc.Fencing? || (pc.Stopping? && !pc.stop.RecheckStopped?) || pc.Publishing? || pc.Following?
  }

  // Some places of a loop need no call: steps that are not consulted, and the end of the loop.
  predicate Real(c: Config, pc: Pc) {
    match pc
    case Pre(CheckDone(i)) => i < |c.plan| && Mutating(c.plan[i])
    case Following(ReadFollower(i)) => i < |c.followers|
    case _ => true
  }

  // Failures with a way around: an endpoint that cannot be verified is transferred, a rewind that fails
  // is replaced by a base backup, and a completed operation with a wrong endpoint is reconciled.
  predicate Tolerated(pc: Pc, reply: Reply) {
    || pc == Publishing(VerifyEndpoint) || pc == Following(Rewind) || pc == Pre(ReconcileEndpoint(3))
    || (pc == Pre(VerifyCompleted) && reply == ErrBefore)
  }

  // Besides the durable world: the WAL position the run works with, whether the endpoint transfer
  // was found recorded, and the history of the run.
  datatype State = State(w: World, pc: Pc, position: Lsn, transferred: bool, run: History)

  function Stop(s: State, cause: Class): State {
    s.(pc := Exit(Failed(cause)))
  }

  function Goto(s: State, reply: Reply, pc: Pc, cause: Class): State {
    if reply == Ok then s.(pc := pc) else Stop(s, cause)
  }

  // Giving up before the source is stopped: writes are restored (calls 0 and 1) and the lease is
  // aborted (2).
  function OrAbort(s: State, reply: Reply, pc: Pc): State {
    s.(pc := if reply == Ok then pc else Abort(0, false))
  }

  // Giving up after it: the source is started (0), proven primary (1) and opened (2, 3), and the
  // lease is aborted (4).
  function OrRollback(s: State, reply: Reply, pc: Pc): State {
    s.(pc := if reply == Ok then pc else Rollback(0, false))
  }

  // What the live precheck proves of the two servers.
  predicate LiveChecks(w: World) {
    Primary(w.src) && w.dst.running && w.dst.standby
  }

  // Plan entries that mutate nothing are not consulted when looking for a completed operation.
  predicate Mutating(step: Step) {
    step != CaptureWal && step != VerifyStopped && step != WaitWal
  }

  // A verification of a completed operation answers Ok when it passes, ErrBefore when only the
  // writer endpoint is wrong, and ErrAfter otherwise. Reconciling the endpoint takes a lease (0),
  // checks (1) and records it (2), verifies (3), transfers (4), verifies (5) and finalizes (6).
  function NextPre(c: Config, s: State, call: PreCall, reply: Reply): State {
    match call
    case CheckDone(i) =>
      if i >= |c.plan| then s.(pc := Pre(VerifyCompleted))
      else if !Mutating(c.plan[i]) then s.(pc := Pre(CheckDone(i + 1)))
      else if reply != Ok then Stop(s, PromotedUnverified)
      else s.(pc := Pre(if c.plan[i] in s.w.done then CheckDone(i + 1) else LivePrecheck))
    case VerifyCompleted =>
      (match reply
       case Ok => s.(pc := Exit(AlreadyCompleted))
       case ErrBefore => s.(pc := Pre(ReconcileEndpoint(0)))
       case ErrAfter => Stop(s, PromotedUnverified))
    case ReconcileEndpoint(k) => NextReconcile(s, k, reply)
    case LivePrecheck => if LiveChecks(s.w) then Goto(s, reply, Pre(Lease), PreCommit) else Stop(s, PreCommit)
    case Lease => Goto(s.(w := s.w.(lease := s.w.lease || reply == Ok)), reply, Pre(LeaseActive), PreCommit)
    case LeaseActive => Goto(s, reply, Pre(RecordLease), PreCommit)
    case RecordLease => Goto(s.(w := Recorded(s.w, Authorize, reply)), reply, Fencing(ReadFence), PreCommit)
  }

  function NextReconcile(s: State, k: nat, reply: Reply): State {
    if k == 3 then s.(pc := Pre(ReconcileEndpoint(if reply == Ok && s.w.endpoint then 6 else 4)))
    else if k == 4 then Goto(s.(w := Transferred(s.w, reply)), reply, Pre(ReconcileEndpoint(5)), PromotedUnverified)
    else if k == 5
      then Goto(s, if s.w.endpoint then reply else ErrBefore, Pre(ReconcileEndpoint(6)), PromotedUnverified)
    else if reply != Ok then
      Stop(s.(w := if k == 2 then Recorded(s.w, Authorize, reply) else s.w), PromotedUnverified)
    else if k == 0 then s.(w := s.w.(lease := true), pc := Pre(ReconcileEndpoint(1)))
    else if k == 2 then s.(w := Recorded(s.w, Authorize, reply), pc := Pre(ReconcileEndpoint(3)))
    else if k < 6 then s.(pc := Pre(ReconcileEndpoint(k + 1)))
    else s.(w := s.w.(lease := false), pc := Exit(Reconciled))
  }

  // Fence the writes of the source and capture its WAL position, unless already recorded.
  function NextFence(c: Config, s: State, call: FenceCall, reply: Reply): State {
    match call
    case ReadFence =>
      // Before anything was done only the lease has to be aborted.
      s.(pc := if reply != Ok then Abort(2, false) else if FenceWrites in s.w.done then Fencing(ReadCapture)
        else Fencing(FenceStatement(0)))
    case FenceStatement(k) =>
      var statement := if k == 0 then Close else if k == 1 then Reload else Terminate;
      OrAbort(s.(w := s.w.(src := Run(statement, s.w.src, reply))), Answered(s.w.src, reply),
        Fencing(if k < 2 then FenceStatement(k + 1) else RecordFence))
    case RecordFence => OrAbort(s.(w := Recorded(s.w, FenceWrites, reply)), reply, Fencing(ReadCapture))
    case ReadCapture =>
      if reply == Ok && CaptureWal in s.w.done then s.(pc := Stopping(ReadStop), position := s.w.position)
      else OrAbort(s, reply, Fencing(Capture))
    case Capture => OrAbort(s.(position := s.w.srcWal), Answered(s.w.src, reply), Fencing(RecordCapture))
    case RecordCapture =>
      OrAbort(s.(w := if reply == ErrBefore then s.w else Recorded(s.w, CaptureWal, reply).(position := s.position)),
        reply, Stopping(ReadStop))
  }

  // Stop the source, wait for the target to replay its WAL, and promote the target.
  function NextStop(c: Config, s: State, call: StopCall, reply: Reply): State {
    match call
    case ReadStop => OrAbort(s, reply, Stopping(if StopSource in s.w.done then ProbeStopped else StopServer))
    case StopServer =>
      s.(w := if reply == ErrBefore then s.w
        else s.w.(src := Stopped(s.w.src)), pc := Stopping(if reply == Ok then RecordStop else RecheckStopped))
    case RecheckStopped => if reply != Ok || !s.w.src.running then Stop(s, SourceStopped) else s.(pc := Abort(0, false))
    case RecordStop => Goto(s.(w := Recorded(s.w, StopSource, reply)), reply, Stopping(ProbeStopped), SourceStopped)
    case ProbeStopped =>
      if reply != Ok then Stop(s, SourceStopped) else if s.w.src.running then s.(pc := Abort(0, false))
        else s.(pc := Stopping(RecordStopped))
    case RecordStopped => OrRollback(s.(w := Recorded(s.w, VerifyStopped, reply)), reply, Stopping(Wait))
    case Wait =>
      s.(pc := if reply == Ok && s.position <= s.w.dstReplay then Stopping(RecordWait) else Rollback(0, false))
    case RecordWait => OrRollback(s.(w := Recorded(s.w, WaitWal, reply)), reply, Stopping(ReadPromoted))
    case ReadPromoted =>
      Goto(s, reply, if PromoteTarget in s.w.done then Publishing(ProbePrimary)
        else Stopping(ProbeStandby), SourceStopped)
    case ProbeStandby =>
      s.(pc := if reply == Ok && s.w.dst.running && s.w.dst.standby then Stopping(Promote) else Rollback(0, false))
    case Promote => Goto(s.(w := Promoted(s.w, reply)), reply, Stopping(RecordPromote), SourceStopped)
    case RecordPromote =>
      Goto(s.(w := Recorded(s.w, PromoteTarget, reply)), reply, Publishing(ProbePrimary), PromotedUnverified)
  }

  // Open the target for writes, publish the endpoint and finalize the lease.
  function NextPublish(c: Config, s: State, call: PublishCall, reply: Reply): State {
    match call
    case ProbePrimary => if Primary(s.w.dst) then Goto(s, reply, Publishing(ReadActivated), PromotedUnverified)
      else Stop(s, PromotedUnverified)
    case ReadActivated =>
      Goto(s, reply, Publishing(if ActivateWrites in s.w.done then ReadTransferred else Activate(0)),
        PromotedUnverified)
    case Activate(k) =>
      Goto(s.(w := s.w.(dst := Run(if k == 0 then Open else Reload, s.w.dst, reply))), Answered(s.w.dst, reply),
           Publishing(if k == 0 then Activate(1) else RecordActivated), PromotedUnverified)
    case RecordActivated =>
      Goto(s.(w := Recorded(s.w, ActivateWrites, reply)), reply, Publishing(ReadTransferred), PromotedUnverified)
    case ReadTransferred =>
      Goto(s.(transferred := TransferEndpoint in s.w.done), reply, Publishing(VerifyEndpoint), PromotedUnverified)
    case VerifyEndpoint =>
      s.(pc := Publishing(if reply != Ok
        || !s.w.endpoint then Transfer else if s.transferred then Finalize else RecordTransfer))
    case Transfer => Goto(s.(w := Transferred(s.w, reply)), reply, Publishing(VerifyTransfer), PromotedUnverified)
    case VerifyTransfer =>
      Goto(s, if s.w.endpoint then reply
        else ErrBefore, Publishing(if s.transferred then Finalize else RecordTransfer), PromotedUnverified)
    case RecordTransfer =>
      Goto(s.(w := Recorded(s.w, TransferEndpoint, reply)), reply, Publishing(Finalize), PromotedUnverified)
    case Finalize =>
      Goto(s.(w := s.w.(lease := s.w.lease && reply == ErrBefore)), reply, Following(ReadFollower(0)),
        PromotedUnverified)
  }

  // Repoint every follower, then bring the source back as a standby.
  function NextFollow(c: Config, s: State, call: FollowCall, reply: Reply): State {
    match call
    case ReadFollower(i) =>
      if i >= |c.followers| then s.(pc := Following(ReadRewound))
      else Goto(s, reply,
        Following(if Repoint(c.followers[i]) in s.w.done then ReadFollower(i + 1) else RepointFollower(i)),
          PromotedUnverified)
    case RepointFollower(i) =>
      if i >= |c.followers| then s
      else Goto(s.(w :=
        s.w.(following := if reply == ErrBefore then s.w.following else s.w.following + {c.followers[i]})), reply,
                Following(RecordFollower(i)), PromotedUnverified)
    case RecordFollower(i) =>
      if i >= |c.followers| then s
      else Goto(s.(w := Recorded(s.w, Repoint(c.followers[i]), reply)), reply, Following(ReadFollower(i + 1)),
        PromotedUnverified)
    case ReadRewound =>
      Goto(s, reply, if RewindSource in s.w.done then Exit(Completed) else Following(Rewind), PromotedUnverified)
    case Rewind => s.(w := Rejoined(c, s.w, reply), pc := Following(if reply == Ok then RecordRewound else BaseBackup))
    case BaseBackup => Goto(s.(w := Rejoined(c, s.w, reply)), reply, Following(RecordRewound), PromotedUnverified)
    case RecordRewound => Goto(s.(w := Recorded(s.w, RewindSource, reply)), reply, Exit(Completed), PromotedUnverified)
  }

  // The source runs again, as a standby of the target.
  function Rejoined(c: Config, w: World, reply: Reply): World {
    if reply == ErrBefore then w
    else w.(src := Started(w.src).(standby := true, sessions := false), following := w.following + {c.source})
  }

  function NextAbort(s: State, k: nat, failed: bool, reply: Reply): State {
    if k < 2 then
      s.(w := s.w.(src := Run(if k == 0 then Open else Reload, s.w.src, reply)),
         pc := if Answered(s.w.src, reply) == Ok then Abort(k + 1, failed) else Abort(2, true))
    else
      Stop(s.(w := s.w.(lease := s.w.lease && reply == ErrBefore)), if failed
        || reply != Ok then FenceUnknown else PreCommit)
  }

  function NextRollback(s: State, k: nat, failed: bool, reply: Reply): State {
    if k == 0 then
      s.(w := if reply == ErrBefore then s.w
        else s.w.(src := Started(s.w.src)), pc := if reply == Ok then Rollback(1, failed) else Rollback(4, true))
    else if k == 1 then s.(pc := if reply == Ok && Primary(s.w.src) then Rollback(2, failed) else Rollback(4, true))
    else if k < 4 then
      s.(w := s.w.(src := Run(if k == 2 then Open else Reload, s.w.src, reply)),
         pc := if Answered(s.w.src, reply) == Ok then Rollback(k + 1, failed) else Rollback(4, true))
    else
      Stop(s.(w := s.w.(lease := s.w.lease && reply == ErrBefore)), if failed
        || reply != Ok then SourceStopped else PreCommit)
  }

  // One answered call.
  function Next(c: Config, s: State, reply: Reply): State {
    match s.pc
    case Idle => s
    case Exit(_) => s
    case Pre(call) => NextPre(c, s, call, reply)
    case Fencing(call) => NextFence(c, s, call, reply)
    case Stopping(call) => NextStop(c, s, call, reply)
    case Publishing(call) => NextPublish(c, s, call, reply)
    case Following(call) => NextFollow(c, s, call, reply)
    case Abort(k, failed) => NextAbort(s, k, failed, reply)
    case Rollback(k, failed) => NextRollback(s, k, failed, reply)
  }

  function Passing(c: Config, s: State, reply: Reply): set<Pc> {
    if Main(s.pc) && (reply == Ok || !Real(c, s.pc)) then s.run.passed + {s.pc} else s.run.passed
  }

  function Remember(c: Config, s: State, reply: Reply): History {
    s.run.(checked := s.run.checked || (s.pc == Pre(LivePrecheck) && reply == Ok && LiveChecks(s.w)),
           leased := s.run.leased || (s.pc == Pre(Lease) && reply == Ok),
           unrecorded := (s.pc == Pre(LeaseActive) || s.pc == Pre(RecordLease)) && reply != Ok,
           started := s.run.started || (s.pc == Fencing(ReadFence) && reply == Ok),
           passed := Passing(c, s, reply),
           last := if Main(s.pc) then s.pc else s.run.last,
           fault := s.run.fault || (Main(s.pc) && Real(c, s.pc) && reply != Ok && !Tolerated(s.pc, reply)),
           undone := s.run.undone || s.pc.Abort? || s.pc.Rollback?,
           cleanupFailed := s.run.cleanupFailed || (!Main(s.pc) && reply != Ok))
  }

  datatype Event = Answer(reply: Reply) | Environment(next: World) | Crash | Launch

  function Happen(c: Config, s: State, e: Event): State {
    match e
    case Answer(reply) => if s.pc.Idle? || s.pc.Exit? then s else Next(c, s, reply).(run := Remember(c, s, reply))
    case Environment(next) => if EnvStep(s.w, next) then s.(w := next) else s
    case Crash => s.(pc := Idle)
    case Launch =>
      if s.pc.Idle? || s.pc.Exit?
      then s.(pc := Pre(CheckDone(0)),
              run := History(s.w, false, false, false, false, {}, Idle, false, false, false))
      else s
  }

  // The state after any sequence of events: any number of runs, each crashing anywhere.
  function After(c: Config, s: State, events: seq<Event>): State {
    if events == [] then s else Happen(c, After(c, s, events[..|events| - 1]), events[|events| - 1])
  }

  // ---- Single runs ----

  // Whatever happens until the operation is launched again.
  predicate OneRun(events: seq<Event>) {
    forall i | 0 <= i < |events| :: !events[i].Launch?
  }

  // Some course of one run leads from one state to another.
  ghost predicate Leads(c: Config, s: State, t: State) {
    exists events :: OneRun(events) && After(c, s, events) == t
  }

  lemma {:induction false} AfterAppend(c: Config, s: State, before: seq<Event>, after: seq<Event>)
    ensures After(c, s, before + after) == After(c, After(c, s, before), after)
  {
    if after == [] {
      assert before + after == before;
    } else {
      assert (before + after)[..|before + after| - 1] == before + after[..|after| - 1];
      AfterAppend(c, s, before, after[..|after| - 1]);
    }
  }

  lemma LeadsThen(c: Config, s: State, t: State, u: State)
    requires Leads(c, s, t) && Leads(c, t, u)
    ensures Leads(c, s, u)
  {
    var before :| OneRun(before) && After(c, s, before) == t;
    var after :| OneRun(after) && After(c, t, after) == u;
    AfterAppend(c, s, before, after);
    assert OneRun(before + after);
  }

  lemma LeadsNowhere(c: Config, s: State)
    ensures Leads(c, s, s)
  {
    assert OneRun([]) && After(c, s, []) == s;
  }

  lemma LeadsNext(c: Config, s: State, e: Event)
    requires !e.Launch?
    ensures Leads(c, s, Happen(c, s, e))
  {
    assert After(c, s, [e]) == Happen(c, After(c, s, [e][..0]), e);
    assert OneRun([e]);
  }

  // Putting one more event in front of a run.
  lemma LeadsOn(c: Config, s: State, e: Event, t: State)
    requires !e.Launch? && Leads(c, Happen(c, s, e), t)
    ensures Leads(c, s, t)
  {
    LeadsNext(c, s, e);
    LeadsThen(c, s, Happen(c, s, e), t);
  }

  // The process dies.
  lemma CrashLeads(c: Config, s: State) returns (t: State)
    ensures Leads(c, s, t) && t == s.(pc := Idle)
  {
    t := Happen(c, s, Crash);
    LeadsNext(c, s, Crash);
  }
}
