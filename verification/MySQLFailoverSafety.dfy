// Safety of the MySQL failover over every sequence of runs, and exactly when a failing run can leave
// the target writable before its endpoint is published.
module MySQLFailoverSafety {
  import opened MySQLMembers
  import opened MySQLFailover

  // Where the executor relies on the isolation of the old primary.
  predicate Knows(s: State) {
    match s.pc
    case Idle => true
    case Exit(_) => true
    case Pre(RecordFence) => s.w.isolated
    case Pre(ReadPromoted) => s.w.isolated
    case Pre(ProbeTarget) => s.w.isolated
    case Pre(ProbeReplication) => s.w.isolated
    case Pre(Lease) => s.w.isolated
    case Pre(RecordLease) => s.w.isolated
    case Pre(_) => true
    case Promoting(_) => s.w.isolated
    case Publishing(_) => s.w.isolated
    case Following(_) => s.w.isolated
    case Refence(k, _) => s.w.isolated && (k > 1 ==> s.w.dst.readOnly)
  }

  ghost predicate Inv(c: Config, s: State) {
    Roles(c, s.w) && Knows(s) && (s.w.everWritable ==> s.w.isolated)
  }

  // Where an operation starts: nothing recorded, no member other than the old primary open.
  ghost predicate Start(c: Config, s: State) {
    Roles(c, s.w) && !s.w.everWritable && s.w.done == {} && s.pc == Idle
  }

  lemma PromoteKeepsInv(c: Config, s: State, call: PromoteCall, reply: Reply)
    requires Inv(c, s) && s.pc == Promoting(call)
    ensures Inv(c, NextPromote(c, s, call, reply))
  {
    match call
    case StopReplication => ExecKeepsRoles(c, s.w, Plain, c.target, c.source, reply);
    case ResetTarget => ExecKeepsRoles(c, s.w, ResetReplication, c.target, c.source, reply);
    case OpenTarget => ExecKeepsRoles(c, s.w, ReadOnlyOff, c.target, c.source, reply);
    case _ =>
  }

  lemma FollowKeepsInv(c: Config, s: State, call: FollowCall, reply: Reply)
    requires Followers(c) && Inv(c, s) && s.pc == Following(call)
    ensures Inv(c, NextFollow(c, s, call, reply))
  {
    if call.ReparentFollower? && call.i < |c.followers| {
      ReparentKeepsRoles(c, s.w, c.followers[call.i], c.target, call.k, reply);
    }
  }

  lemma RefenceKeepsInv(c: Config, s: State, k: nat, ifFenced: Class, reply: Reply)
    requires Inv(c, s) && s.pc == Refence(k, ifFenced)
    ensures Inv(c, NextRefence(c, s, k, ifFenced, reply))
  {
    RefenceCloses(c, s.w, k, reply);
  }

  lemma PreKeepsInv(c: Config, s: State, call: PreCall, reply: Reply)
    requires Inv(c, s) && s.pc == Pre(call)
    ensures Inv(c, NextPre(c, s, call, reply))
  {}

  lemma NextKeepsInv(c: Config, s: State, reply: Reply)
    requires Followers(c) && Inv(c, s)
    ensures Inv(c, Next(c, s, reply))
  {
    match s.pc
    case Pre(call) => PreKeepsInv(c, s, call, reply);
    case Promoting(call) => PromoteKeepsInv(c, s, call, reply);
    case Following(call) => FollowKeepsInv(c, s, call, reply);
    case Refence(k, ifFenced) => RefenceKeepsInv(c, s, k, ifFenced, reply);
    case _ =>
  }

  lemma HappenKeepsInv(c: Config, s: State, e: Event)
    requires Followers(c) && Inv(c, s)
    ensures Inv(c, Happen(c, s, e))
  {
    match e
    case Answer(reply) => NextKeepsInv(c, s, reply);
    case Environment(next) =>
      if EnvStep(s.w, next) {
        EnvKeepsRoles(c, s.w, next);
      }
    case _ =>
  }

  // Over every sequence of runs at most one member accepts writes, and the target only while the
  // old primary is isolated.
  lemma {:induction false} FailoverIsSafe(c: Config, s: State, events: seq<Event>)
    requires Followers(c) && Start(c, s)
    ensures var t := After(c, s, events);
            Inv(c, t) && SingleWriter(c, t.w) && (CanWrite(c, t.w, c.target) ==> t.w.isolated)
  {
    if events != [] {
      FailoverIsSafe(c, s, events[..|events| - 1]);
      HappenKeepsInv(c, After(c, s, events[..|events| - 1]), events[|events| - 1]);
    }
    RolesGiveSingleWriter(c, After(c, s, events).w);
  }

  // A run that failed after it was about to open the target and before its lease was finalized,
  // without losing a re-fence command, and left the target accepting writes.
  predicate LeavesWriter(c: Config, s: State) {
    && s.pc.Exit? && s.pc.out.Failed? && s.run.enabled && !s.run.finalized && !s.run.fenceLost
    && CanWrite(c, s.w, c.target)
  }

  // How far the run is, by where it stands.
  predicate Stage(c: Config, s: State) {
    && (!s.pc.Idle? ==> s.v.committed == s.run.finalized)
    && (match s.pc
        case Idle => true
        case Exit(out) =>
          && (out == Completed ==> s.run.finalized)
          && (out.Failed? && s.run.enabled && !s.run.finalized ==>
                s.w.dst.readOnly || s.run.fenceLost || (s.run.unrecorded && c.semiSync && c.followers != []))
        case Pre(_) => !s.run.enabled && !s.run.finalized
        case Promoting(call) => !s.run.finalized
          && (s.run.enabled ==> call.OpenTarget? || call.ProbeOpened? || call.RecordPromote?)
        case Publishing(call) => call.RecordTransfer? <==> s.run.finalized
        case Following(call) => c.semiSync != s.run.finalized
          && (c.semiSync || call.ReadFollower? || call.ReparentFollower? || call.RecordFollower?)
        case Refence(_, _) => true)
  }

  lemma EarlyKeepsStage(c: Config, s: State, reply: Reply)
    requires Stage(c, s) && (s.pc.Pre? || s.pc.Promoting?)
    ensures Stage(c, Next(c, s, reply).(run := Remember(c, s, reply)))
  {}

  lemma LateKeepsStage(c: Config, s: State, reply: Reply)
    requires Stage(c, s) && (s.pc.Following? || s.pc.Publishing?)
    ensures Stage(c, Next(c, s, reply).(run := Remember(c, s, reply)))
  {}

  lemma RefenceKeepsStage(c: Config, s: State, k: nat, ifFenced: Class, reply: Reply)
    requires Inv(c, s) && Stage(c, s) && s.pc == Refence(k, ifFenced)
    ensures Stage(c, NextRefence(c, s, k, ifFenced, reply).(run := Remember(c, s, reply)))
  {
    RefenceCloses(c, s.w, k, reply);
  }

  lemma HappenKeepsStage(c: Config, s: State, e: Event)
    requires Inv(c, s) && Stage(c, s)
    ensures Stage(c, Happen(c, s, e))
  {
    if e.Answer? && !s.pc.Idle? && !s.pc.Exit? {
      if s.pc.Refence? {
        RefenceKeepsStage(c, s, s.pc.k, s.pc.ifFenced, e.reply);
      } else if s.pc.Following? || s.pc.Publishing? {
        LateKeepsStage(c, s, e.reply);
      } else {
        EarlyKeepsStage(c, s, e.reply);
      }
    }
  }

  lemma {:induction false} AfterKeepsStage(c: Config, s: State, events: seq<Event>)
    requires Followers(c) && Start(c, s)
    ensures Stage(c, After(c, s, events))
  {
    if events != [] {
      AfterKeepsStage(c, s, events[..|events| - 1]);
      FailoverIsSafe(c, s, events[..|events| - 1]);
      HappenKeepsStage(c, After(c, s, events[..|events| - 1]), events[|events| - 1]);
    }
  }

  // A failing run leaves a writer behind only when recording a reparented follower fails.
  lemma {:induction false} WriterLeftOnlyUnrecorded(c: Config, s: State, events: seq<Event>)
    requires Followers(c) && Start(c, s) && LeavesWriter(c, After(c, s, events))
    ensures After(c, s, events).run.unrecorded
  {
    AfterKeepsStage(c, s, events);
  }

  // Without semi-sync or without a follower to reparent no failing run leaves a writer behind.
  lemma {:induction false} NoWriterLeft(c: Config, s: State, events: seq<Event>)
    requires Followers(c) && Start(c, s)
    requires !c.semiSync || c.followers == []
    ensures !LeavesWriter(c, After(c, s, events))
  {
    AfterKeepsStage(c, s, events);
  }
}
