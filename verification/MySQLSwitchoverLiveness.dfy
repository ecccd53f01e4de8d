// When the planned MySQL switchover can still be finished: the exact condition over all states between
// runs.
module MySQLSwitchoverLiveness {
  import opened MySQLMembers
  import opened MySQLSteps
  import opened MySQLSwitchover
  import opened MySQLSwitchoverOutcome
  import opened MySQLSwitchoverHistories
  import opened MySQLSwitchoverRuns

  predicate Finished(pc: Pc) {
    pc == Exit(Completed) || pc == Exit(AlreadyCompleted)
  }

  // Some sequence of further runs, in which nothing is executed out of nowhere, finishes the operation.
  ghost predicate CanFinish(c: Config, s: State) {
    exists events :: Causal(events) && Finished(After(c, s, events).pc)
  }

  // The roles of a state between runs allow to go on: everything is recorded, or the cluster is
  // untouched and healthy, or the operation owns its fence and the roles agree with the records.
  ghost predicate RolesAllow(c: Config, w: World) {
    AllRecorded(c, w.done) || Healthy(c, w) || (FenceSource in w.done && ResumeRoles(c, w))
  }

  // A member that follows nobody and takes no writes never gains what it lacks: a detached target must
  // have everything of the source, and a source without a replication source everything of a fenced
  // target.
  predicate Comparable(w: World) {
    && (w.dst.source.None? ==> w.srcGtid <= w.dstGtid)
    && (Full(w.dst) && w.src.source.None? ==> w.dstGtid <= w.srcGtid)
  }

  // What must hold between runs.
  ghost predicate Finishable(c: Config, w: World) {
    || AllRecorded(c, w.done)
    || (Healthy(c, w) && w.dstGtid <= w.srcGtid)
    || (FenceSource in w.done && ResumeRoles(c, w) && Comparable(w))
  }

  // ---- Finishing ----

  // The same with replication up to date.
  ghost predicate Ready(c: Config, w: World) {
    || AllRecorded(c, w.done)
    || (Healthy(c, w) && w.dstGtid <= w.srcGtid)
    || (FenceSource in w.done && ResumeRoles(c, w) && w.srcGtid <= w.dstGtid
        && (Full(w.dst) ==> w.dstGtid <= w.srcGtid))
  }

  lemma HealthyFinishes(c: Config, s: State) returns (t: State)
    requires c.source != c.target && s.pc == Pre(Live(0)) && Healthy(c, s.w) && s.w.dstGtid <= s.w.srcGtid
    ensures Leads(c, s, t) && Finished(t.pc)
  {
    var a := LiveLeads(c, s, 0);
    var b := FenceLeads(c, a);
    var d := CatchUpLeads(c, b, FenceReadOnly);
    t := PromotingFinishes(c, d);
    LeadsThen(c, s, a, b);
    LeadsThen(c, s, b, d);
    LeadsThen(c, s, d, t);
  }

  lemma ResumedFinishes(c: Config, s: State) returns (t: State)
    requires c.source != c.target && s.pc == Pre(Resume(0)) && ResumeRoles(c, s.w)
    requires s.w.srcGtid <= s.w.dstGtid && (Full(s.w.dst) ==> s.w.dstGtid <= s.w.srcGtid)
    ensures Leads(c, s, t) && Finished(t.pc)
  {
    var a := ResumeLeads(c, s, 0);
    var b := CatchUpLeads(c, a, Lease(true));
    t := PromotingFinishes(c, b);
    LeadsThen(c, s, a, b);
    LeadsThen(c, s, b, t);
  }

  lemma LaunchedFinishes(c: Config, s: State) returns (t: State)
    requires c.source != c.target && s.pc == Pre(CheckDone(0)) && Ready(c, s.w)
    ensures Leads(c, s, t) && Finished(t.pc)
  {
    var a := CheckLeads(c, s, 0);
    var b := Okay(c, a);
    LeadsNext(c, a, Answer(Ok));
    if AllRecorded(c, s.w.done) {
      t := b;
    } else if Healthy(c, s.w) {
      t := HealthyFinishes(c, b);
    } else {
      t := ResumedFinishes(c, Okay(c, b));
      Onwards(c, b, t);
    }
    if !AllRecorded(c, s.w.done) {
      LeadsThen(c, a, b, t);
    }
    LeadsThen(c, s, a, t);
  }

  // Replication brings every follower of the pair up to date.
  lemma Replicated(c: Config, w: World) returns (next: World)
    requires Finishable(c, w)
    ensures CausalStep(c, w, next) && Ready(c, next)
  {
    var all := w.srcGtid + w.dstGtid;
    next := w.(srcGtid := if w.src.source == Some(c.target) then all else w.srcGtid,
               dstGtid := if w.dst.source == Some(c.source) then all else w.dstGtid);
  }

  lemma FinishableFinishes(c: Config, s: State)
    requires c.source != c.target && s.pc == Idle && Finishable(c, s.w)
    ensures CanFinish(c, s)
  {
    var next := Replicated(c, s.w);
    var a := Happen(c, s, Environment(next, true));
    var b := Happen(c, a, Launch);
    var t := LaunchedFinishes(c, b);
    var events :| OneRun(events) && After(c, b, events) == t;
    var start := [Environment(next, true), Launch];
    assert start[..1][..0] == [] && start[..1] == [Environment(next, true)];
    assert After(c, s, start[..1]) == a;
    assert After(c, s, start) == b;
    AfterAppend(c, s, start, events);
    assert Causal(start + events);
  }

  // ---- Wrong roles ----

  // A run in a state with wrong roles has changed no member and recorded nothing; `m` is the position of
  // a missing step.
  ghost predicate Stuck(c: Config, w: World, m: nat, s: State) {
    && SameRoles(s.w, w) && s.w.done == w.done
    && (match s.pc
        case Idle => true
        case Exit(out) => out.Failed?
        case Pre(CheckDone(i)) => i <= m
        case Pre(VerifyCompleted) => false
        case Pre(Resume(_)) => FenceSource in w.done
        case Pre(LiveFollower(i, _)) => LiveRoles(c, w) && FollowersChecked(c, w, i)
        case Pre(_) => true
        case _ => false)
  }

  lemma HappenKeepsStuck(c: Config, w: World, m: nat, s: State, e: Event)
    requires m < |c.plan| && Mutating(c.plan[m]) && c.plan[m] !in w.done && !RolesAllow(c, w) && Stuck(c, w, m, s)
    ensures Stuck(c, w, m, Happen(c, s, e))
  {}

  lemma {:induction false} AfterIsStuck(c: Config, m: nat, s: State, events: seq<Event>)
    requires m < |c.plan| && Mutating(c.plan[m]) && c.plan[m] !in s.w.done && !RolesAllow(c, s.w) && s.pc == Idle
    ensures Stuck(c, s.w, m, After(c, s, events))
  {
    if events != [] {
      AfterIsStuck(c, m, s, events[..|events| - 1]);
      HappenKeepsStuck(c, s.w, m, After(c, s, events[..|events| - 1]), events[|events| - 1]);
    }
  }

  // Whatever the members execute, with cause or without: from a state whose roles do not allow to go on
  // no run finishes, changes a member or records a step.
  lemma {:induction false} WrongRolesBlock(c: Config, s: State, events: seq<Event>)
    requires s.pc == Idle && !RolesAllow(c, s.w)
    ensures var t := After(c, s, events); !Finished(t.pc) && SameRoles(t.w, s.w) && t.w.done == s.w.done
  {
    var m: nat :| m < |c.plan| && Mutating(c.plan[m]) && c.plan[m] !in s.w.done;
    AfterIsStuck(c, m, s, events);
  }

  // ---- Wrong histories ----

  // What the pair can have executed since `w`, without changing roles or records.
  ghost predicate Grown(w: World, b: World) {
    && SameRoles(b, w) && b.done == w.done && w.srcGtid <= b.srcGtid && w.dstGtid <= b.dstGtid
    && (Full(w.src) && w.src.source.None? ==> b.srcGtid == w.srcGtid)
    && (w.src.source.None? ==> forall t | t in b.srcGtid && t in w.dstGtid :: t in w.srcGtid)
    && (w.dst.source.None? ==> forall t | t in b.dstGtid && t in w.srcGtid :: t in w.dstGtid)
  }

  lemma CausalKeepsGrown(c: Config, w: World, a: World, b: World)
    requires Grown(w, a) && CausalStep(c, a, b)
    ensures Grown(w, b)
  {}

  // A run in a state with wrong histories, up to the check that stops it; the samples it has taken are
  // no older than `w`.
  ghost predicate Refused(w: World, m: nat, s: State) {
    && Grown(w, s.w)
    && (match s.pc
        case Idle => true
        case Exit(out) => out.Failed?
        case Pre(CheckDone(i)) => i <= m
        case Pre(ProbeFence) => true
        case Pre(ReadFenceOwner) => Full(w.src)
        case Pre(Resume(k)) =>
          && FenceSource in w.done && Full(w.src)
          && (k > 0 ==> w.srcGtid <= s.srcSample && (w.src.source.None? ==> s.srcSample == w.srcGtid))
          && (k > 1 ==> w.dstGtid <= s.dstSample)
          && (k > 1 && w.dst.source.None? ==> forall t | t in s.dstSample && t in w.srcGtid :: t in w.dstGtid)
        case Pre(Live(k)) => !Full(w.src) && (k > 4 ==> w.dstGtid <= s.dstSample)
        case _ => false)
  }

  lemma NextKeepsRefused(c: Config, w: World, m: nat, s: State, call: PreCall, reply: Reply)
    requires m < |c.plan| && Mutating(c.plan[m]) && c.plan[m] !in w.done && !Finishable(c, w)
    requires Refused(w, m, s) && RolesAllow(c, w) && s.pc == Pre(call)
    ensures Refused(w, m, NextPre(c, s, call, reply))
  {}

  lemma HappenKeepsRefused(c: Config, w: World, m: nat, s: State, e: Event)
    requires m < |c.plan| && Mutating(c.plan[m]) && c.plan[m] !in w.done && !Finishable(c, w) && RolesAllow(c, w)
    requires Refused(w, m, s) && (e.Environment? ==> e.causal)
    ensures Refused(w, m, Happen(c, s, e))
  {
    match e
    case Answer(reply) =>
      if s.pc.Pre? {
        NextKeepsRefused(c, w, m, s, s.pc.pre, reply);
      }
    case Environment(next, _) =>
      if CausalStep(c, s.w, next) {
        CausalKeepsGrown(c, w, s.w, next);
      }
    case _ =>
  }

  lemma {:induction false} AfterIsRefused(c: Config, m: nat, s: State, events: seq<Event>)
    requires m < |c.plan| && Mutating(c.plan[m]) && c.plan[m] !in s.w.done && s.pc == Idle && Causal(events)
    requires RolesAllow(c, s.w) && !Finishable(c, s.w)
    ensures Refused(s.w, m, After(c, s, events))
  {
    if events != [] {
      AfterIsRefused(c, m, s, events[..|events| - 1]);
      HappenKeepsRefused(c, s.w, m, After(c, s, events[..|events| - 1]), events[|events| - 1]);
    }
  }

  // ---- The exact condition ----

  lemma {:induction false} UnfinishableBlocks(c: Config, s: State, events: seq<Event>)
    requires s.pc == Idle && !Finishable(c, s.w) && Causal(events)
    ensures var t := After(c, s, events); !Finished(t.pc) && SameRoles(t.w, s.w) && t.w.done == s.w.done
  {
    if RolesAllow(c, s.w) {
      var m: nat :| m < |c.plan| && Mutating(c.plan[m]) && c.plan[m] !in s.w.done;
      AfterIsRefused(c, m, s, events);
    } else {
      WrongRolesBlock(c, s, events);
    }
  }

  // In every state between runs.
  lemma {:induction false} CanFinishFrom(c: Config, s: State)
    requires c.source != c.target && s.pc == Idle
    ensures CanFinish(c, s) <==> Finishable(c, s.w)
    ensures !Finishable(c, s.w) ==> forall events | Causal(events) ::
              var t := After(c, s, events); SameRoles(t.w, s.w) && t.w.done == s.w.done
  {
    if Finishable(c, s.w) {
      FinishableFinishes(c, s);
    } else {
      forall events | Causal(events)
        ensures var t := After(c, s, events); !Finished(t.pc) && SameRoles(t.w, s.w) && t.w.done == s.w.done
      {
        UnfinishableBlocks(c, s, events);
      }
    }
  }

  // In every state an operation can be in between runs it can still be finished if and only if
  // everything is recorded, or the cluster is untouched and healthy and the target has nothing of its
  // own, or the operation owns its fence, the roles agree with the records, and a fenced target has
  // nothing that a source without a replication source lacks. Otherwise no further run changes a member
  // or records a step.
  lemma {:induction false} CanFinishIff(c: Config, s0: State, before: seq<Event>)
    requires c.source != c.target && s0.pc == Idle && s0.w.done == {} && Causal(before)
    requires After(c, s0, before).pc == Idle
    ensures var s := After(c, s0, before);
            && (CanFinish(c, s) <==>
                  || AllRecorded(c, s.w.done)
                  || (Healthy(c, s.w) && s.w.dstGtid <= s.w.srcGtid)
                  || (FenceSource in s.w.done && ResumeRoles(c, s.w)
                      && (Full(s.w.dst) && s.w.src.source.None? ==> s.w.dstGtid <= s.w.srcGtid)))
            && (!CanFinish(c, s) ==> forall events | Causal(events) ::
                  var t := After(c, s, events); SameRoles(t.w, s.w) && t.w.done == s.w.done)
  {
    PromotedCoversSource(c, s0, before);
    CanFinishFrom(c, After(c, s0, before));
  }
}
