// The stages of a MySQL failover run, and where some course of a run leads.
module MySQLFailoverRuns {
  import opened MySQLMembers
  import opened MySQLSteps
  import opened MySQLFailover

  function Okay(c: Config, s: State): State {
    Happen(c, s, Answer(Ok))
  }

  // One successful answer in front of a run.
  lemma Onwards(c: Config, s: State, t: State)
    requires Leads(c, Okay(c, s), t)
    ensures Leads(c, s, t)
  {
    LeadsOn(c, s, Answer(Ok), t);
  }

  lemma PreOnwards(c: Config, s: State, call: PreCall, u: State, t: State)
    requires s.pc == Pre(call) && u == NextPre(c, s, call, Ok).(run := Remember(c, s, Ok)) && Leads(c, u, t)
    ensures Leads(c, s, t)
  {
    Onwards(c, s, t);
  }

  // The run is as far as before.
  predicate SameProgress(t: State, s: State) {
    t.run.enabled == s.run.enabled && t.run.finalized == s.run.finalized
  }

  // All steps from position `i` on are recorded.
  predicate RecordedFrom(c: Config, done: set<Step>, i: nat)
    decreases |c.plan| - i
  {
    i >= |c.plan| || (c.plan[i] in done && RecordedFrom(c, done, i + 1))
  }

  // Looking for a completed operation.
  lemma {:induction false} CheckLeads(c: Config, s: State, i: nat) returns (t: State)
    requires i <= |c.plan| && s.pc == Pre(CheckDone(i))
    ensures Leads(c, s, t) && t.w == s.w && t.v == s.v && SameProgress(t, s)
    ensures t.pc == Pre(if RecordedFrom(c, s.w.done, i) then VerifyCompleted else Credentials)
    decreases |c.plan| - i
  {
    var u := CheckNext(c, s, i);
    if i == |c.plan| || c.plan[i] !in s.w.done {
      t := u;
    } else {
      t := CheckLeads(c, u, i + 1);
      LeadsThen(c, s, u, t);
    }
  }

  lemma CheckNext(c: Config, s: State, i: nat) returns (t: State)
    requires i <= |c.plan| && s.pc == Pre(CheckDone(i))
    ensures Leads(c, s, t) && t.w == s.w && t.v == s.v && SameProgress(t, s)
    ensures t.pc == Pre(if i == |c.plan| then VerifyCompleted else if c.plan[i] in s.w.done then CheckDone(i + 1)
            else Credentials)
  {
    t := Okay(c, s);
    LeadsNext(c, s, Answer(Ok));
  }

  // A target that can be promoted for the first time.
  predicate Promotable(c: Config, w: World) {
    Full(w.dst) && w.dst.source == Some(c.source) && SourceOwned(c, w.dstGtid)
  }

  // A target whose promotion is recorded, as every run leaves it.
  predicate WasPromoted(w: World) {
    PromoteTarget in w.done && w.dst.source == None && (Full(w.dst) || Open(w.dst))
  }

  // Isolating the old primary, unless recorded.
  lemma IsolateLeads(c: Config, s: State, call: PreCall) returns (t: State)
    requires s.pc == Pre(call) && (FenceOldPrimary in s.w.done || call == RecordFence ==> s.w.isolated)
    requires (call.VerifyIsolation? ==> s.w.isolated) && (call == VerifyIsolation(true) ==> FenceOldPrimary in s.w.done)
    requires call == Credentials || call == ReadFence || call == Isolate || call.VerifyIsolation? || call == RecordFence
    ensures Leads(c, s, t) && t.pc == Pre(ReadPromoted) && SameProgress(t, s) && t.v == s.v
    ensures t.w == s.w.(isolated := true, done := s.w.done + {FenceOldPrimary})
    decreases match call case Credentials => 5 case ReadFence => 4 case Isolate => 3 case VerifyIsolation(_) => 2
      case _ => 1
  {
    var u := NextPre(c, s, call, Ok).(run := Remember(c, s, Ok));
    if u.pc == Pre(ReadPromoted) {
      t := u;
      LeadsNowhere(c, t);
    } else {
      t := IsolateLeads(c, u, u.pc.pre);
    }
    PreOnwards(c, s, call, u, t);
  }

  // Evidence about the target and the lease.
  predicate Found(c: Config, s: State, call: PreCall) {
    && (if PromoteTarget in s.w.done then WasPromoted(s.w) else Promotable(c, s.w))
    && (call != ReadPromoted ==> s.v.promoted == (PromoteTarget in s.w.done))
    && (call == ProbeReplication || call == Lease || call == RecordLease ==> s.v.targetFenced == Full(s.w.dst))
    && (call == Lease || call == RecordLease ==>
       s.v.configured == s.w.dst.source.Some? && (s.v.configured ==> s.v.safe))
  }

  lemma EvidenceLeads(c: Config, s: State, call: PreCall) returns (t: State)
    requires s.pc == Pre(call) && Found(c, s, call)
    requires call == ReadPromoted || call == ProbeTarget || call == ProbeReplication || call == Lease
             || call == RecordLease
    ensures Leads(c, s, t) && SameProgress(t, s)
    ensures t.pc == Promoting(if PromoteTarget in s.w.done then ProbeWritable else StopReplication)
    ensures t.w == s.w.(done := s.w.done + {AuthorizeTransition})
    decreases match call case ReadPromoted => 5 case ProbeTarget => 4 case ProbeReplication => 3 case Lease => 2
      case _ => 1
  {
    var u := NextPre(c, s, call, Ok).(run := Remember(c, s, Ok));
    if call == RecordLease {
      t := u;
      LeadsNowhere(c, t);
    } else {
      t := EvidenceLeads(c, u, u.pc.pre);
    }
    PreOnwards(c, s, call, u, t);
  }

  // A target that a run can go on with, under a fence that holds if it is recorded.
  predicate Usable(c: Config, w: World) {
    && (FenceOldPrimary in w.done ==> w.isolated)
    && (if PromoteTarget in w.done then WasPromoted(w) else Promotable(c, w))
  }

  lemma PrepareLeads(c: Config, s: State) returns (t: State)
    requires s.pc == Pre(Credentials) && Usable(c, s.w)
    ensures Leads(c, s, t) && SameProgress(t, s)
    ensures t.pc == Promoting(if PromoteTarget in s.w.done then ProbeWritable else StopReplication)
    ensures t.w == s.w.(isolated := true, done := s.w.done + {FenceOldPrimary, AuthorizeTransition})
  {
    var a := IsolateLeads(c, s, Credentials);
    t := EvidenceLeads(c, a, ReadPromoted);
    LeadsThen(c, s, a, t);
  }

  // The target is detached; its promotion is not recorded yet.
  lemma DetachLeads(c: Config, s: State) returns (t: State)
    requires c.source != c.target && s.pc == Promoting(StopReplication)
    ensures Leads(c, s, t) && t.pc == Promoting(ProbeWritable) && t.v == s.v && SameProgress(t, s)
    ensures t.w.dst == s.w.dst.(source := None) && t.w.isolated == s.w.isolated && t.w.done == s.w.done
  {
    var u := StopReplicationLeads(c, s);
    t := ResetLeads(c, u);
    LeadsThen(c, s, u, t);
  }

  lemma StopReplicationLeads(c: Config, s: State) returns (t: State)
    requires c.source != c.target && s.pc == Promoting(StopReplication)
    ensures Leads(c, s, t) && t.pc == Promoting(ResetTarget) && t.v == s.v && SameProgress(t, s)
    ensures t.w.dst == s.w.dst && t.w.isolated == s.w.isolated && t.w.done == s.w.done
  {
    t := Okay(c, s);
    LeadsNext(c, s, Answer(Ok));
  }

  lemma ResetLeads(c: Config, s: State) returns (t: State)
    requires c.source != c.target && s.pc == Promoting(ResetTarget)
    ensures Leads(c, s, t) && t.pc == Promoting(ProbeWritable) && t.v == s.v && SameProgress(t, s)
    ensures t.w.dst == s.w.dst.(source := None) && t.w.isolated == s.w.isolated && t.w.done == s.w.done
  {
    t := Okay(c, s);
    LeadsNext(c, s, Answer(Ok));
  }

  // The target is open and its promotion recorded.
  lemma OpenLeads(c: Config, s: State, call: PromoteCall) returns (t: State)
    requires c.source != c.target && s.pc == Promoting(call)
             && (call == ProbeOpened || call == RecordPromote ==> Open(s.w.dst))
    requires call == ProbeWritable || call == OpenTarget || call == ProbeOpened || call == RecordPromote
    requires call == RecordPromote ==> s.run.enabled
    ensures Leads(c, s, t) && t.pc == (if c.semiSync then Following(ReadFollower(0)) else Publishing(Transfer))
    ensures Open(t.w.dst) && t.w.isolated == s.w.isolated && t.v == s.v && t.run.enabled
            && t.run.finalized == s.run.finalized
    ensures t.w.done == s.w.done + {PromoteTarget}
    decreases match call case ProbeWritable => 4 case OpenTarget => 3 case ProbeOpened => 2 case _ => 1
  {
    var u := Okay(c, s);
    if call == RecordPromote {
      t := u;
      LeadsNowhere(c, t);
    } else {
      t := OpenLeads(c, u, u.pc.promote);
    }
    Onwards(c, s, t);
  }

  // Publishing the endpoint.
  lemma PublishLeads(c: Config, s: State, call: PublishCall) returns (t: State)
    requires s.pc == Publishing(call) && (call == VerifyTransfer ==> s.w.endpoint)
    ensures Leads(c, s, t) && t.pc == (if c.semiSync then Exit(Completed) else Following(ReadFollower(0)))
    decreases match call case Transfer => 4 case VerifyTransfer => 3 case Finalize => 2 case _ => 1
  {
    var u := Okay(c, s);
    if call == RecordTransfer {
      t := u;
      LeadsNowhere(c, t);
    } else {
      t := PublishLeads(c, u, u.pc.publish);
    }
    Onwards(c, s, t);
  }

  // Reparenting one follower.
  lemma {:induction false} ReparentLeads(c: Config, s: State, i: nat, k: nat) returns (t: State)
    requires i < |c.followers| && k <= 10 && s.pc == Following(ReparentFollower(i, k))
    ensures Leads(c, s, t) && t.pc == Following(RecordFollower(i)) && t.v == s.v
    ensures c.followers[i] != c.target ==> t.w.dst == s.w.dst && t.w.isolated == s.w.isolated
    ensures SameProgress(t, s)
    decreases 11 - k
  {
    var u := Okay(c, s);
    if k == 10 {
      t := u;
      LeadsNowhere(c, t);
    } else {
      t := ReparentLeads(c, u, i, u.pc.follow.k);
    }
    Onwards(c, s, t);
  }

  // Reparenting all followers from `i` on.
  lemma {:induction false} FollowLeads(c: Config, s: State, i: nat) returns (t: State)
    requires i <= |c.followers| && s.pc == Following(ReadFollower(i))
    ensures Leads(c, s, t) && t.pc == (if c.semiSync then Following(ReadSemiSync) else Exit(Completed))
    decreases |c.followers| - i
  {
    var u := Okay(c, s);
    if i == |c.followers| {
      t := u;
      LeadsNowhere(c, t);
    } else if u.pc == Following(ReadFollower(i + 1)) {
      t := FollowLeads(c, u, i + 1);
    } else {
      var v := ReparentLeads(c, u, i, 0);
      t := FollowLeads(c, Okay(c, v), i + 1);
      Onwards(c, v, t);
      LeadsThen(c, u, v, t);
    }
    Onwards(c, s, t);
  }

  lemma SemiSyncLeads(c: Config, s: State, call: FollowCall) returns (t: State)
    requires s.pc == Following(call) && (call == ReadSemiSync || call == SemiSync || call == RecordSemiSync)
    ensures Leads(c, s, t) && t.pc == Publishing(Transfer)
    decreases match call case ReadSemiSync => 3 case SemiSync => 2 case _ => 1
  {
    var u := Okay(c, s);
    if u.pc.Publishing? {
      t := u;
      LeadsNowhere(c, t);
    } else {
      t := SemiSyncLeads(c, u, u.pc.follow);
    }
    Onwards(c, s, t);
  }
}
