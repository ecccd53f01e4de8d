// The planned MySQL switchover executor as a state machine: each state names the external call the
// executor is about to make, and each transition consumes the answer to that call.
module MySQLSwitchover {
  import opened MySQLMembers

  // The steps the executor records, in plan order.
  function Plan(followers: seq<Id>, semiSync: bool): seq<Step> {
    [AuthorizeTransition, FenceSource, CaptureGtid, WaitGtid, StopTarget, PromoteTarget]
    + seq(|followers|, i requires 0 <= i < |followers| => Reparent(followers[i]))
    + (if semiSync then [ActivateSemiSync] else [])
    + [TransferEndpoint, RetainSourceReadOnly]
  }

  // The followers are members other than the target; the source is one of them.
  ghost predicate Followers(c: Config) {
    forall i | 0 <= i < |c.followers| :: c.followers[i] != c.target && Known(c, c.followers[i])
  }

  datatype Class = PreCommit | Fenced | FencedUnknown | PromotedUnverified

  datatype Outcome = Completed | AlreadyCompleted | Failed(cause: Class)

  // The calls of the executor, phase by phase.
  datatype PreCall =
    | CheckDone(i: nat) | VerifyCompleted
    | ProbeFence | ReadFenceOwner | Resume(k: nat) | Live(k: nat) | LiveFollower(i: nat, k: nat)
  datatype FenceCall =
    | Lease(fenced: bool) | RecordLease(fenced: bool)
    | FenceSuper | FenceRecheck | FenceReadOnly | RecordFence
    | Capture | RecordCapture | Wait | RecordWait
  datatype PromoteCall =
    | ProbeDetach | StopReplication | ResetTarget | RecordStop
    | ProbeWritable | OpenTarget | ProbeOpened | RecordPromote
  datatype FollowCall =
    | ReadFollower(i: nat) | ReparentFollower(i: nat, k: nat) | RecordFollower(i: nat)
    | ReadSemiSync | SemiSync | RecordSemiSync
  datatype PublishCall = VerifyEndpoint | Transfer | VerifyTransfer | Finalize | RecordTransfer | RecordRetain

  // Where the executor stands: the call it is about to make. Restoring the candidate and
  // re-fencing the target are the two clean-ups of a failing run.
  datatype Pc =
    | Idle | Exit(out: Outcome)
    | Pre(pre: PreCall) | Fencing(fence: FenceCall) | Promoting(promote: PromoteCall)
    | Following(follow: FollowCall) | Publishing(publish: PublishCall)
    | Restore(k: nat) | Refence(k: nat, ifFenced: Class)

  // What happened in the current run: the world it started in, whether it reached the point where
  // it opens the target, whether its lease was finalized, whether its last re-fence command was lost
  // without effect, whether it had to restore the candidate, and whether that went wrong. Of its course:
  // the calls answered with success, the last call, whether a call failed, and whether a clean-up failed.
  datatype History = History(launch: World, enabled: bool, finalized: bool, fenceLost: bool, restoring: bool,
    restoreFailed: bool, passed: set<Pc>, last: Pc, fault: bool, cleanupFailed: bool)

  // The calls of the course itself; all others clean up after a failure.
  predicate Main(pc: Pc) {
    pc.Pre? || (pc.Fencing? && !pc.fence.FenceRecheck?) || pc.Promoting? || pc.Following? || pc.Publishing?
  }

  // Some places of a loop need no call: steps that are not consulted, the source among the followers, and
  // the end of the loop.
  predicate Real(c: Config, pc: Pc) {
    match pc
    case Pre(CheckDone(i)) => i < |c.plan| && Mutating(c.plan[i])
    case Pre(LiveFollower(i, _)) => i < |c.followers| && c.followers[i] != c.source
    case Following(ReadFollower(i)) => i < |c.followers|
    case _ => true
  }

  // Besides the durable world: the captured source position, the GTID samples of the prechecks and
  // the history of the current run.
  datatype State = State(w: World, pc: Pc, position: set<Txn>, srcSample: set<Txn>, dstSample: set<Txn>, run: History)

  function Stop(s: State, cause: Class): State {
    s.(pc := Exit(Failed(cause)))
  }

  function Goto(s: State, reply: Reply, pc: Pc, cause: Class): State {
    if reply == Ok then s.(pc := pc) else Stop(s, cause)
  }

  // A failure before promotion first tries to give the candidate its old source back.
  function OrRestore(s: State, reply: Reply, pc: Pc): State {
    s.(pc := if reply == Ok then pc else Restore(0))
  }

  // From the write-enable point on a failure first tries to close the target again.
  function OrRefence(s: State, reply: Reply, pc: Pc): State {
    s.(pc := if reply == Ok then pc else Refence(0, PromotedUnverified))
  }

  // Recording a step; a failing record may still have been committed.
  function Recorded(w: World, step: Step, reply: Reply): World {
    if reply == ErrBefore then w else w.(done := w.done + {step})
  }

  // All conditions of the live precheck on source and target: roles, and no errant transaction.
  predicate LiveRoles(c: Config, w: World) {
    Open(w.src) && !Open(w.dst) && w.src.source == None && w.dst.source == Some(c.source)
  }

  predicate LiveChecks(c: Config, s: State) {
    LiveRoles(c, s.w) && s.dstSample <= s.srcSample
  }

  predicate FollowerChecks(c: Config, w: World, f: Id) {
    Full(At(c, w, f)) && At(c, w, f).source == Some(c.source)
  }

  // All conditions of the precheck of a resumed operation: roles that agree with the records, and
  // comparable histories.
  predicate ResumeRoles(c: Config, w: World) {
    var promoted := PromoteTarget in w.done;
    var reparented := Reparent(c.source) in w.done;
    && Full(w.src)
    && (if w.src.source.Some? then reparented && w.src.source == Some(c.target) else !reparented)
    && (|| (Full(w.dst) && (if w.dst.source.Some? then !promoted && w.dst.source == Some(c.source) else promoted))
        || (Open(w.dst) && promoted && w.dst.source == None))
  }

  predicate ResumeChecks(c: Config, s: State) {
    && ResumeRoles(c, s.w) && s.srcSample <= s.dstSample
    && (Full(s.w.dst) ==> s.dstSample <= s.srcSample)
  }

  // Plan entries that mutate nothing are not consulted when looking for a completed operation.
  predicate Mutating(step: Step) {
    step != CaptureGtid && step != WaitGtid
  }

  // Up to the point where the executor may start to act.
  function NextPre(c: Config, s: State, call: PreCall, reply: Reply): State {
    match call
    case CheckDone(i) =>
      if i >= |c.plan| then s.(pc := Pre(VerifyCompleted))
      else if !Mutating(c.plan[i]) then s.(pc := Pre(CheckDone(i + 1)))
      else if reply != Ok then Stop(s, PromotedUnverified)
      else if c.plan[i] in s.w.done then s.(pc := Pre(CheckDone(i + 1))) else s.(pc := Pre(ProbeFence))
    case VerifyCompleted =>
      if reply == Ok then s.(pc := Exit(AlreadyCompleted)) else Stop(s, PromotedUnverified)
    case ProbeFence =>
      Goto(s, reply, Pre(if Full(s.w.src) then ReadFenceOwner else Live(0)), PreCommit)
    case ReadFenceOwner =>
      if reply == Ok && FenceSource in s.w.done then s.(pc := Pre(Resume(0))) else Stop(s, PreCommit)
    case Resume(k) =>
      // Probe source and target, credentials, the two progress reads, and both replication probes.
      if reply != Ok then Stop(s, Fenced)
      else if k == 0 then s.(pc := Pre(Resume(1)), srcSample := s.w.srcGtid)
      else if k == 1 then s.(pc := Pre(Resume(2)), dstSample := s.w.dstGtid)
      else if k < 6 then s.(pc := Pre(Resume(k + 1)))
      else if ResumeChecks(c, s) then s.(pc := Fencing(Lease(true))) else Stop(s, Fenced)
    case Live(k) =>
      // Probe source and target, credentials, both replication probes, then refresh the source GTID.
      if reply != Ok then Stop(s, PreCommit)
      else if k == 4 then s.(pc := Pre(Live(5)), dstSample := s.w.dstGtid)
      else if k < 5 then s.(pc := Pre(Live(k + 1)))
      else
        var t := s.(srcSample := s.w.srcGtid);
        if LiveChecks(c, t) then t.(pc := Pre(LiveFollower(0, 0))) else Stop(t, PreCommit)
    case LiveFollower(i, k) =>
      if i >= |c.followers| then s.(pc := Fencing(Lease(false)))
      else if c.followers[i] == c.source then s.(pc := Pre(LiveFollower(i + 1, 0)))
      else if reply != Ok || !FollowerChecks(c, s.w, c.followers[i]) then Stop(s, PreCommit)
      else s.(pc := Pre(if k < 2 then LiveFollower(i, k + 1) else LiveFollower(i + 1, 0)))
  }

  // Authorize, fence, capture the source position and wait for the target to execute it.
  function NextFence(c: Config, s: State, call: FenceCall, reply: Reply): State {
    match call
    case Lease(fenced) => Goto(s, reply, Fencing(RecordLease(fenced)), if fenced then Fenced else PreCommit)
    case RecordLease(fenced) =>
      Goto(s.(w := Recorded(s.w, AuthorizeTransition, reply)), reply,
        Fencing(if fenced then RecordFence else FenceSuper), if fenced then Fenced else PreCommit)
    case FenceSuper =>
      s.(w := Exec(c, s.w, SuperReadOnlyOn, c.source, c.target, reply),
        pc := Fencing(if reply == Ok then FenceReadOnly else FenceRecheck))
    case FenceRecheck =>
      if reply != Ok then Stop(s, FencedUnknown) else if Full(s.w.src) then Stop(s, Fenced) else Stop(s, PreCommit)
    case FenceReadOnly =>
      Goto(s.(w := Exec(c, s.w, ReadOnlyOn, c.source, c.target, reply)), reply, Fencing(RecordFence), Fenced)
    case RecordFence => Goto(s.(w := Recorded(s.w, FenceSource, reply)), reply, Fencing(Capture), Fenced)
    case Capture => Goto(s.(position := s.w.srcGtid), reply, Fencing(RecordCapture), Fenced)
    case RecordCapture => Goto(s.(w := Recorded(s.w, CaptureGtid, reply)), reply, Fencing(Wait), Fenced)
    case Wait => if s.position <= s.w.dstGtid then Goto(s, reply, Fencing(RecordWait), Fenced) else Stop(s, Fenced)
    case RecordWait => Goto(s.(w := Recorded(s.w, WaitGtid, reply)), reply, Promoting(ProbeDetach), Fenced)
  }

  // Detach the target and open it for writes.
  function NextPromote(c: Config, s: State, call: PromoteCall, reply: Reply): State {
    match call
    case ProbeDetach => Goto(s, reply, Promoting(if s.w.dst.source.Some? then StopReplication else RecordStop), Fenced)
    case StopReplication =>
      OrRestore(s.(w := Exec(c, s.w, Plain, c.target, c.source, reply)), reply, Promoting(ResetTarget))
    case ResetTarget =>
      OrRestore(s.(w := Exec(c, s.w, ResetReplication, c.target, c.source, reply)), reply, Promoting(RecordStop))
    case RecordStop => OrRestore(s.(w := Recorded(s.w, StopTarget, reply)), reply, Promoting(ProbeWritable))
    case ProbeWritable => OrRestore(s, reply, Promoting(if Open(s.w.dst) then ProbeOpened else OpenTarget))
    case OpenTarget =>
      s.(w := Exec(c, s.w, ReadOnlyOff, c.target, c.source, reply), pc := if reply == Ok then Promoting(ProbeOpened)
        else Refence(0, Fenced))
    case ProbeOpened => s.(pc := if reply == Ok && Open(s.w.dst) then Promoting(RecordPromote) else Refence(0, Fenced))
    case RecordPromote => OrRefence(s.(w := Recorded(s.w, PromoteTarget, reply)), reply, Following(ReadFollower(0)))
  }

  // Reparent every follower and activate semi-sync.
  function NextFollow(c: Config, s: State, call: FollowCall, reply: Reply): State {
    match call
    case ReadFollower(i) =>
      if i >= |c.followers| then s.(pc := if c.semiSync then Following(ReadSemiSync) else Publishing(VerifyEndpoint))
      else OrRefence(s, reply,
        Following(if Reparent(c.followers[i]) in s.w.done then ReadFollower(i + 1) else ReparentFollower(i, 0)))
    case ReparentFollower(i, k) =>
      if i >= |c.followers| then s
      else
        var (w, sub) := ReparentCall(c, s.w, c.followers[i], c.target, k, reply);
        s.(w := w, pc := match sub
                         case Go(j) => Following(ReparentFollower(i, j))
                         case Good => Following(RecordFollower(i))
                         case Bad => Refence(0, PromotedUnverified))
    case RecordFollower(i) =>
      if i >= |c.followers| then s
      else OrRefence(s.(w := Recorded(s.w, Reparent(c.followers[i]), reply)), reply, Following(ReadFollower(i + 1)))
    case ReadSemiSync => OrRefence(s, reply, Following(SemiSync))
    case SemiSync =>
      OrRefence(s.(w := s.w.(semiSync := s.w.semiSync || reply != ErrBefore)), reply, if ActivateSemiSync in s.w.done
        then Publishing(VerifyEndpoint) else Following(RecordSemiSync))
    case RecordSemiSync => OrRefence(s.(w := Recorded(s.w, ActivateSemiSync, reply)), reply, Publishing(VerifyEndpoint))
  }

  // Publish the endpoint and finalize the lease. Ownership proven to be elsewhere leads to a transfer,
  // unusable evidence to a failure.
  function NextPublish(c: Config, s: State, call: PublishCall, reply: Reply): State {
    match call
    case VerifyEndpoint =>
      OrRefence(s, reply, if s.w.endpoint then Publishing(Finalize) else Publishing(Transfer))
    case Transfer =>
      OrRefence(s.(w := s.w.(endpoint := s.w.endpoint || reply != ErrBefore)), reply, Publishing(VerifyTransfer))
    case VerifyTransfer => if s.w.endpoint then OrRefence(s, reply, Publishing(Finalize))
      else s.(pc := Refence(0, PromotedUnverified))
    case Finalize => OrRefence(s, reply, Publishing(RecordTransfer))
    case RecordTransfer =>
      s.(w := Recorded(s.w, TransferEndpoint, reply),
         pc := if reply == Ok then Publishing(RecordRetain) else Exit(Failed(PromotedUnverified)))
    case RecordRetain =>
      s.(w := Recorded(s.w, RetainSourceReadOnly, reply),
         pc := if reply == Ok then Exit(Completed) else Exit(Failed(PromotedUnverified)))
  }

  // Call 0 reads the promotion progress: a promoted candidate is never turned back.
  function NextRestore(c: Config, s: State, k: nat, reply: Reply): State {
    if k == 0 then
      if reply == Ok && PromoteTarget !in s.w.done then s.(pc := Restore(1)) else Stop(s, FencedUnknown)
    else
      var (w, sub) := ReparentCall(c, s.w, c.target, c.source, k - 1, reply);
      s.(w := w, pc := match sub
                       case Go(j) => Restore(j + 1)
                       case Good => Exit(Failed(Fenced))
                       case Bad => Exit(Failed(FencedUnknown)))
  }

  function NextRefence(c: Config, s: State, k: nat, ifFenced: Class, reply: Reply): State {
    var (w, sub) := RefenceCall(c, s.w, k, reply);
    s.(w := w,
       pc := match sub
             case Go(j) => Refence(j, ifFenced)
             case Good => Exit(Failed(ifFenced))
             case Bad => Exit(Failed(PromotedUnverified)))
  }

  // One answered call.
  function Next(c: Config, s: State, reply: Reply): State {
    match s.pc
    case Idle => s
    case Exit(_) => s
    case Pre(call) => NextPre(c, s, call, reply)
    case Fencing(call) => NextFence(c, s, call, reply)
    case Promoting(call) => NextPromote(c, s, call, reply)
    case Following(call) => NextFollow(c, s, call, reply)
    case Publishing(call) => NextPublish(c, s, call, reply)
    case Restore(k) => NextRestore(c, s, k, reply)
    case Refence(k, ifFenced) => NextRefence(c, s, k, ifFenced, reply)
  }

  // The clean-up calls that must not fail. The probe before a re-fence may.
  predicate CleansUp(pc: Pc) {
    pc == Fencing(FenceRecheck) || pc.Restore? || (pc.Refence? && pc.k > 0)
  }

  // The history after one answered call.
  function Passing(c: Config, s: State, reply: Reply): set<Pc> {
    if Main(s.pc) && (reply == Ok || !Real(c, s.pc)) then s.run.passed + {s.pc} else s.run.passed
  }

  function Remember(c: Config, s: State, reply: Reply): History {
    s.run.(enabled := s.run.enabled || s.pc == Promoting(OpenTarget) || s.pc == Promoting(ProbeOpened),
           finalized := s.run.finalized || (s.pc == Publishing(Finalize) && reply == Ok),
           fenceLost := s.pc.Refence? && s.pc.k == 1 && reply == ErrBefore,
           restoring := s.run.restoring || s.pc.Restore?,
           restoreFailed := s.run.restoreFailed || (s.pc.Restore? && (reply != Ok || PromoteTarget in s.w.done)),
           passed := Passing(c, s, reply),
           last := if Main(s.pc) then s.pc else s.run.last,
           fault := s.run.fault || (Main(s.pc) && Real(c, s.pc) && reply != Ok),
           cleanupFailed := s.run.cleanupFailed || (CleansUp(s.pc) && reply != Ok)
                            || (s.pc == Restore(0) && PromoteTarget in s.w.done))
  }

  // What can happen at any moment: the pending call is answered, the rest of the system moves, with
  // cause for everything it executes or without, the executor's process dies, or the operation is run
  // (again).
  datatype Event = Answer(reply: Reply) | Environment(next: World, causal: bool) | Crash | Launch

  function Happen(c: Config, s: State, e: Event): State {
    match e
    case Answer(reply) => if s.pc.Idle? || s.pc.Exit? then s else Next(c, s, reply).(run := Remember(c, s, reply))
    case Environment(next, causal) =>
      if EnvStep(s.w, next) && (causal ==> CausalStep(c, s.w, next)) then s.(w := next) else s
    case Crash => s.(pc := Idle)
    case Launch =>
      if s.pc.Idle? || s.pc.Exit?
      then s.(pc := Pre(CheckDone(0)),
              run := History(s.w, false, false, false, false, false, {}, Idle, false, false))
      else s
  }

  // The state after any sequence of events: any number of runs, each crashing anywhere.
  function After(c: Config, s: State, events: seq<Event>): State {
    if events == [] then s else Happen(c, After(c, s, events[..|events| - 1]), events[|events| - 1])
  }

  // ---- Single runs ----

  // Nothing is executed out of nowhere.
  predicate Causal(events: seq<Event>) {
    forall i | 0 <= i < |events| :: events[i].Environment? ==> events[i].causal
  }

  // Whatever can happen with cause until the operation is launched again.
  predicate OneRun(events: seq<Event>) {
    Causal(events) && forall i | 0 <= i < |events| :: !events[i].Launch?
  }

  // Some course of one run leads from one state to another.
  ghost predicate Leads(c: Config, s: State, t: State) {
    exists events :: OneRun(events) && After(c, s, events) == t
  }

  lemma {:induction false} AfterAppend(c: Config, s: State, before: seq<Event>, after: seq<Event>)
    ensures After(c, s, before + after) == After(c, After(c, s, before), after)
  {
    if after == [] {
      assert before + after == before;
    } else {
      assert (before + after)[..|before + after| - 1] == before + after[..|after| - 1];
      AfterAppend(c, s, before, after[..|after| - 1]);
    }
  }

  lemma LeadsThen(c: Config, s: State, t: State, u: State)
    requires Leads(c, s, t) && Leads(c, t, u)
    ensures Leads(c, s, u)
  {
    var before :| OneRun(before) && After(c, s, before) == t;
    var after :| OneRun(after) && After(c, t, after) == u;
    AfterAppend(c, s, before, after);
    assert OneRun(before + after);
  }

  lemma LeadsNowhere(c: Config, s: State)
    ensures Leads(c, s, s)
  {
    assert OneRun([]) && After(c, s, []) == s;
  }

  lemma LeadsNext(c: Config, s: State, e: Event)
    requires !e.Launch? && (e.Environment? ==> e.causal)
    ensures Leads(c, s, Happen(c, s, e))
  {
    assert After(c, s, [e]) == Happen(c, After(c, s, [e][..0]), e);
    assert OneRun([e]);
  }

  // Putting one more event in front of a run.
  lemma LeadsOn(c: Config, s: State, e: Event, t: State)
    requires !e.Launch? && (e.Environment? ==> e.causal) && Leads(c, Happen(c, s, e), t)
    ensures Leads(c, s, t)
  {
    LeadsNext(c, s, e);
    LeadsThen(c, s, Happen(c, s, e), t);
  }

  // The process dies.
  lemma CrashLeads(c: Config, s: State) returns (t: State)
    ensures Leads(c, s, t) && t == s.(pc := Idle)
  {
    t := Happen(c, s, Crash);
    LeadsNext(c, s, Crash);
  }
}
