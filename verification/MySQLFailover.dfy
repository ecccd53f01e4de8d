// The MySQL failover executor as a state machine, in the style of the planned switchover: the old
// primary is isolated by the safety provider instead of being fenced by statements.
module MySQLFailover {
  import opened MySQLMembers

  // The steps the executor records, in plan order: the endpoint is published before the followers
  // are reparented, or after them when semi-sync is required.
  function Plan(followers: seq<Id>, semiSync: bool): seq<Step> {
    [FenceOldPrimary, AuthorizeTransition, PromoteTarget]
    + (if semiSync then [] else [TransferEndpoint])
    + seq(|followers|, i requires 0 <= i < |followers| => Reparent(followers[i]))
    + (if semiSync then [ActivateSemiSync, TransferEndpoint] else [])
  }

  // The followers are members other than the old primary and the target.
  ghost predicate Followers(c: Config) {
    forall i | 0 <= i < |c.followers| :: c.followers[i] in c.others
  }

  datatype Class = PreCommit | Fenced | PromotedUnverified
  datatype Outcome = Completed | AlreadyCompleted | Failed(cause: Class)

  datatype PreCall =
    | CheckDone(i: nat) | VerifyCompleted | Credentials
    | ReadFence | Isolate | VerifyIsolation(fenced: bool) | RecordFence
    | ReadPromoted | ProbeTarget | ProbeReplication | Lease | RecordLease
  datatype PromoteCall = StopReplication | ResetTarget | ProbeWritable | OpenTarget | ProbeOpened | RecordPromote
  datatype FollowCall =
    | ReadFollower(i: nat) | ReparentFollower(i: nat, k: nat) | RecordFollower(i: nat)
    | ReadSemiSync | SemiSync | RecordSemiSync
  datatype PublishCall = Transfer | VerifyTransfer | Finalize | RecordTransfer

  datatype Pc =
    | Idle | Exit(out: Outcome)
    | Pre(pre: PreCall) | Promoting(promote: PromoteCall) | Publishing(publish: PublishCall)
    | Following(follow: FollowCall) | Refence(k: nat, ifFenced: Class)

  // The executor's variables: what it read about the target, and whether the endpoint is committed.
  datatype Locals = Locals(
    promoted: bool, targetFenced: bool, configured: bool, sample: set<Txn>, safe: bool, committed: bool)

  // What happened in the current run, as for the switchover; `unrecorded` tells that its last call
  // failed to record a reparented follower.
  datatype History = History(
    launch: World, enabled: bool, finalized: bool, fenceLost: bool, unrecorded: bool,
    passed: set<Pc>, last: Pc, fault: bool, cleanupFailed: bool)

  // The calls of the course itself; re-fencing cleans up after a failure.
  predicate Main(pc: Pc) {
    pc.Pre? || pc.Promoting? || pc.Publishing? || pc.Following?
  }

  // The end of a loop needs no call.
  predicate Real(c: Config, pc: Pc) {
    match pc
    case Pre(CheckDone(i)) => i < |c.plan|
    case Following(ReadFollower(i)) => i < |c.followers|
    case _ => true
  }

  // The call brought what it was made for.
  predicate Succeeds(c: Config, pc: Pc, reply: Reply) {
    reply == Ok || !Real(c, pc)
  }

  // A replication probe that shows unhealthy threads is no failure: a promoted target has none.
  predicate Tolerated(pc: Pc, reply: Reply) {
    pc == Pre(ProbeReplication) && reply == ErrAfter
  }

  datatype State = State(w: World, pc: Pc, v: Locals, run: History)

  function Stop(s: State, cause: Class): State {
    s.(pc := Exit(Failed(cause)))
  }

  function Goto(s: State, reply: Reply, pc: Pc, cause: Class): State {
    if reply == Ok then s.(pc := pc) else Stop(s, cause)
  }

  function OrRefence(s: State, reply: Reply, pc: Pc): State {
    s.(pc := if reply == Ok then pc else Refence(0, PromotedUnverified))
  }

  // From the follower loop on the target is closed again only while the endpoint is unpublished.
  function OrRefenceUnpublished(s: State, reply: Reply, pc: Pc): State {
    if reply != Ok && s.v.committed then Stop(s, PromotedUnverified) else OrRefence(s, reply, pc)
  }

  function Recorded(w: World, step: Step, reply: Reply): World {
    if reply == ErrBefore then w else w.(done := w.done + {step})
  }

  // What the target has executed beyond the last observed history of the old primary are transactions
  // of that primary.
  predicate SourceOwned(c: Config, gtids: set<Txn>) {
    forall t | t in gtids && t !in c.observed :: t.origin == c.source
  }

  // Isolation and the evidence about the target. The isolation proof can only succeed for an
  // isolated primary. A replication probe answers Ok for running threads without errors, ErrAfter for
  // any other thread state and ErrBefore for no evidence.
  function NextPre(c: Config, s: State, call: PreCall, reply: Reply): State {
    match call
    case CheckDone(i) =>
      if i >= |c.plan| then s.(pc := Pre(VerifyCompleted))
      else if reply != Ok then Stop(s, PromotedUnverified)
      else s.(pc := Pre(if c.plan[i] in s.w.done then CheckDone(i + 1) else Credentials))
    case VerifyCompleted => if reply == Ok then s.(pc := Exit(AlreadyCompleted)) else Stop(s, PromotedUnverified)
    case Credentials => Goto(s, reply, Pre(ReadFence), PreCommit)
    case ReadFence =>
      Goto(s, reply, Pre(if FenceOldPrimary in s.w.done then VerifyIsolation(true) else Isolate), PreCommit)
    case Isolate =>
      Goto(s.(w := if reply == ErrBefore then s.w else s.w.(isolated := true)), reply, Pre(VerifyIsolation(false)),
        PreCommit)
    case VerifyIsolation(fenced) =>
      if !s.w.isolated then Stop(s, PreCommit)
        else Goto(s, reply, Pre(if fenced then ReadPromoted else RecordFence), PreCommit)
    case RecordFence => Goto(s.(w := Recorded(s.w, FenceOldPrimary, reply)), reply, Pre(ReadPromoted), PreCommit)
    case ReadPromoted => Goto(s.(v := s.v.(promoted := PromoteTarget in s.w.done)), reply, Pre(ProbeTarget), Fenced)
    case ProbeTarget =>
      if reply != Ok then Stop(s, PreCommit)
      else if !Full(s.w.dst) && !Open(s.w.dst) then Stop(s, Fenced)
      else s.(pc := Pre(ProbeReplication), v := s.v.(targetFenced := Full(s.w.dst)))
    case ProbeReplication =>
      if reply == ErrBefore then Stop(s, PreCommit)
      else
        var safe := reply == Ok && s.w.dst.source == Some(c.source) && SourceOwned(c, s.w.dstGtid);
        s.(pc := Pre(Lease), v := s.v.(configured := s.w.dst.source.Some?, sample := s.w.dstGtid, safe := safe))
    case Lease => Goto(s, reply, Pre(RecordLease), Fenced)
    case RecordLease => Decide(s.(w := Recorded(s.w, AuthorizeTransition, reply)), reply)
  }

  // With the lease active: a recorded promotion must have left the target detached; otherwise the
  // target must be a fully fenced replica with safe evidence.
  function Decide(s: State, reply: Reply): State {
    if reply != Ok then Stop(s, Fenced)
    else if s.v.promoted then if s.v.configured then Stop(s, Fenced) else s.(pc := Promoting(ProbeWritable))
    else if !s.v.targetFenced || !s.v.configured || !s.v.safe then Stop(s, PreCommit)
    else s.(pc := Promoting(StopReplication))
  }

  function NextPromote(c: Config, s: State, call: PromoteCall, reply: Reply): State {
    match call
    case StopReplication =>
      Goto(s.(w := Exec(c, s.w, Plain, c.target, c.source, reply)), reply, Promoting(ResetTarget), PreCommit)
    case ResetTarget =>
      Goto(s.(w := Exec(c, s.w, ResetReplication, c.target, c.source, reply)), reply, Promoting(ProbeWritable),
        PreCommit)
    case ProbeWritable => Goto(s, reply, Promoting(if Open(s.w.dst) then ProbeOpened else OpenTarget), Fenced)
    case OpenTarget =>
      s.(w := Exec(c, s.w, ReadOnlyOff, c.target, c.source, reply), pc := if reply == Ok then Promoting(ProbeOpened)
        else Refence(0, Fenced))
    case ProbeOpened => s.(pc := if reply == Ok && Open(s.w.dst) then Promoting(RecordPromote) else Refence(0, Fenced))
    case RecordPromote =>
      OrRefence(s.(w := Recorded(s.w, PromoteTarget, reply)), reply, if c.semiSync then Following(ReadFollower(0))
        else Publishing(Transfer))
  }

  function NextPublish(c: Config, s: State, call: PublishCall, reply: Reply): State {
    match call
    case Transfer =>
      OrRefenceUnpublished(s.(w := s.w.(endpoint := s.w.endpoint || reply != ErrBefore)), reply,
        Publishing(VerifyTransfer))
    case VerifyTransfer => OrRefenceUnpublished(s, if s.w.endpoint then reply else ErrBefore, Publishing(Finalize))
    case Finalize =>
      OrRefence(s.(v := s.v.(committed := s.v.committed || reply == Ok)), reply, Publishing(RecordTransfer))
    case RecordTransfer =>
      Goto(s.(w := Recorded(s.w, TransferEndpoint, reply)), reply, if c.semiSync then Exit(Completed)
        else Following(ReadFollower(0)), PromotedUnverified)
  }

  // The failure to record a reparented follower is the one exit without a re-fence.
  function NextFollow(c: Config, s: State, call: FollowCall, reply: Reply): State {
    match call
    case ReadFollower(i) =>
      if i >= |c.followers| then s.(pc := if c.semiSync then Following(ReadSemiSync) else Exit(Completed))
      else OrRefenceUnpublished(s, reply,
        Following(if Reparent(c.followers[i]) in s.w.done then ReadFollower(i + 1) else ReparentFollower(i, 0)))
    case ReparentFollower(i, k) =>
      if i >= |c.followers| then s
      else
        var (w, sub) := ReparentCall(c, s.w, c.followers[i], c.target, k, reply);
        (match sub
         case Go(j) => s.(w := w, pc := Following(ReparentFollower(i, j)))
         case Good => s.(w := w, pc := Following(RecordFollower(i)))
         case Bad => OrRefenceUnpublished(s.(w := w), reply, s.pc))
    case RecordFollower(i) =>
      if i >= |c.followers| then s
      else Goto(s.(w := Recorded(s.w, Reparent(c.followers[i]), reply)), reply, Following(ReadFollower(i + 1)),
        PromotedUnverified)
    case ReadSemiSync => OrRefenceUnpublished(s, reply, Following(SemiSync))
    case SemiSync =>
      OrRefenceUnpublished(s.(w := s.w.(semiSync := s.w.semiSync || reply != ErrBefore)), reply,
        if ActivateSemiSync in s.w.done then Publishing(Transfer) else Following(RecordSemiSync))
    case RecordSemiSync =>
      OrRefenceUnpublished(s.(w := Recorded(s.w, ActivateSemiSync, reply)), reply, Publishing(Transfer))
  }

  function NextRefence(c: Config, s: State, k: nat, ifFenced: Class, reply: Reply): State {
    var (w, sub) := RefenceCall(c, s.w, k, reply);
    s.(w := w, pc := match sub
                     case Go(j) => Refence(j, ifFenced)
                     case Good => Exit(Failed(ifFenced))
                     case Bad => Exit(Failed(PromotedUnverified)))
  }

  // One answered call.
  function Next(c: Config, s: State, reply: Reply): State {
    match s.pc
    case Idle => s
    case Exit(_) => s
    case Pre(call) => NextPre(c, s, call, reply)
    case Promoting(call) => NextPromote(c, s, call, reply)
    case Publishing(call) => NextPublish(c, s, call, reply)
    case Following(call) => NextFollow(c, s, call, reply)
    case Refence(k, ifFenced) => NextRefence(c, s, k, ifFenced, reply)
  }

  function NewRun(w: World): History {
    History(w, false, false, false, false, {}, Idle, false, false)
  }

  function Passing(c: Config, s: State, reply: Reply): set<Pc> {
    if Main(s.pc) && Succeeds(c, s.pc, reply) then s.run.passed + {s.pc} else s.run.passed
  }

  function Remember(c: Config, s: State, reply: Reply): History {
    History(s.run.launch,
            s.run.enabled || s.pc == Promoting(OpenTarget) || s.pc == Promoting(ProbeOpened),
            s.run.finalized || (s.pc == Publishing(Finalize) && reply == Ok),
            s.pc.Refence? && s.pc.k == 1 && reply == ErrBefore,
            s.pc.Following? && s.pc.follow.RecordFollower? && reply != Ok,
            Passing(c, s, reply),
            if Main(s.pc) then s.pc else s.run.last,
            s.run.fault || (Main(s.pc) && !Succeeds(c, s.pc, reply) && !Tolerated(s.pc, reply)),
            s.run.cleanupFailed || (s.pc.Refence? && s.pc.k > 0 && reply != Ok))
  }

  datatype Event = Answer(reply: Reply) | Environment(next: World) | Crash | Launch

  function Happen(c: Config, s: State, e: Event): State {
    match e
    case Answer(reply) => if s.pc.Idle? || s.pc.Exit? then s else Next(c, s, reply).(run := Remember(c, s, reply))
    case Environment(next) => if EnvStep(s.w, next) then s.(w := next) else s
    case Crash => s.(pc := Idle)
    case Launch =>
      if s.pc.Idle? || s.pc.Exit?
      then s.(pc := Pre(CheckDone(0)), v := Locals(false, false, false, {}, false, false),
              run := NewRun(s.w))
      else s
  }

  // The state after any sequence of events: any number of runs, each crashing anywhere.
  function After(c: Config, s: State, events: seq<Event>): State {
    if events == [] then s else Happen(c, After(c, s, events[..|events| - 1]), events[|events| - 1])
  }

  // ---- Single runs ----

  // Whatever happens until the operation is launched again.
  predicate OneRun(events: seq<Event>) {
    forall i | 0 <= i < |events| :: !events[i].Launch?
  }

  // Some course of one run leads from one state to another.
  ghost predicate Leads(c: Config, s: State, t: State) {
    exists events :: OneRun(events) && After(c, s, events) == t
  }

  lemma {:induction false} AfterAppend(c: Config, s: State, before: seq<Event>, after: seq<Event>)
    ensures After(c, s, before + after) == After(c, After(c, s, before), after)
  {
    if after == [] {
      assert before + after == before;
    } else {
      assert (before + after)[..|before + after| - 1] == before + after[..|after| - 1];
      AfterAppend(c, s, before, after[..|after| - 1]);
    }
  }

  lemma LeadsThen(c: Config, s: State, t: State, u: State)
    requires Leads(c, s, t) && Leads(c, t, u)
    ensures Leads(c, s, u)
  {
    var before :| OneRun(before) && After(c, s, before) == t;
    var after :| OneRun(after) && After(c, t, after) == u;
    AfterAppend(c, s, before, after);
    assert OneRun(before + after);
  }

  lemma LeadsNowhere(c: Config, s: State)
    ensures Leads(c, s, s)
  {
    assert OneRun([]) && After(c, s, []) == s;
  }

  lemma LeadsNext(c: Config, s: State, e: Event)
    requires !e.Launch?
    ensures Leads(c, s, Happen(c, s, e))
  {
    assert After(c, s, [e]) == Happen(c, After(c, s, [e][..0]), e);
    assert OneRun([e]);
  }

  // Putting one more event in front of a run.
  lemma LeadsOn(c: Config, s: State, e: Event, t: State)
    requires !e.Launch? && Leads(c, Happen(c, s, e), t)
    ensures Leads(c, s, t)
  {
    LeadsNext(c, s, e);
    LeadsThen(c, s, Happen(c, s, e), t);
  }

  // The process dies.
  lemma CrashLeads(c: Config, s: State) returns (t: State)
    ensures Leads(c, s, t) && t == s.(pc := Idle)
  {
    t := Happen(c, s, Crash);
    LeadsNext(c, s, Crash);
  }
}
