// The stages of a MySQL switchover run without faults, and where some course of a run leads.
module MySQLSwitchoverRuns {
  import opened MySQLMembers
  import opened MySQLSteps
  import opened MySQLSwitchover
  import opened MySQLSwitchoverOutcome

  function Okay(c: Config, s: State): State {
    Happen(c, s, Answer(Ok))
  }

  // One successful answer in front of a run.
  lemma Onwards(c: Config, s: State, t: State)
    requires Leads(c, Okay(c, s), t)
    ensures Leads(c, s, t)
  {
    LeadsOn(c, s, Answer(Ok), t);
  }

  // The same, for a call of a known phase.
  lemma FenceOnwards(c: Config, s: State, call: FenceCall, u: State, t: State)
    requires s.pc == Fencing(call) && u == NextFence(c, s, call, Ok).(run := Remember(c, s, Ok)) && Leads(c, u, t)
    ensures Leads(c, s, t)
  {
    Onwards(c, s, t);
  }

  lemma FollowOnwards(c: Config, s: State, call: FollowCall, u: State, t: State)
    requires s.pc == Following(call) && u == NextFollow(c, s, call, Ok).(run := Remember(c, s, Ok)) && Leads(c, u, t)
    ensures Leads(c, s, t)
  {
    Onwards(c, s, t);
  }

  // ---- The stages of a run without faults ----

  // Every mutating step is recorded: the operation is only verified again.
  ghost predicate AllRecorded(c: Config, done: set<Step>) {
    forall i | 0 <= i < |c.plan| && Mutating(c.plan[i]) :: c.plan[i] in done
  }

  // Looking for a completed operation.
  lemma {:induction false} CheckLeads(c: Config, s: State, i: nat) returns (t: State)
    requires i <= |c.plan| && s.pc == Pre(CheckDone(i))
    requires forall j | 0 <= j < i && Mutating(c.plan[j]) :: c.plan[j] in s.w.done
    ensures Leads(c, s, t) && t == s.(pc := t.pc, run := t.run)
    ensures t.pc == Pre(if AllRecorded(c, s.w.done) then VerifyCompleted else ProbeFence)
    decreases |c.plan| - i
  {
    var u := Okay(c, s);
    if i == |c.plan| || u.pc == Pre(ProbeFence) {
      t := u;
      LeadsNowhere(c, t);
    } else {
      t := CheckLeads(c, u, i + 1);
    }
    Onwards(c, s, t);
  }

  // The cluster as the planned switchover expects to find it, with equal histories.
  ghost predicate Healthy(c: Config, w: World) {
    LiveRoles(c, w) && FollowersChecked(c, w, |c.followers|)
  }

  // The live precheck of a healthy cluster.
  lemma {:induction false} LiveLeads(c: Config, s: State, k: nat) returns (t: State)
    requires k <= 5 && s.pc == Pre(Live(k)) && Healthy(c, s.w) && s.w.dstGtid <= s.w.srcGtid
    requires k == 5 ==> s.dstSample == s.w.dstGtid
    ensures Leads(c, s, t) && t.w == s.w && t.pc == Fencing(Lease(false))
    decreases 5 - k
  {
    var u := Okay(c, s);
    if k == 5 {
      t := LiveFollowersLead(c, u, 0, 0);
    } else {
      t := LiveLeads(c, u, k + 1);
    }
    Onwards(c, s, t);
  }

  lemma {:induction false} LiveFollowersLead(c: Config, s: State, i: nat, k: nat) returns (t: State)
    requires i <= |c.followers| && k <= 2 && s.pc == Pre(LiveFollower(i, k)) && Healthy(c, s.w)
    ensures Leads(c, s, t) && t.w == s.w && t.pc == Fencing(Lease(false))
    decreases |c.followers| - i, 2 - k
  {
    var u := Okay(c, s);
    if i == |c.followers| {
      t := u;
      LeadsNowhere(c, t);
    } else if c.followers[i] == c.source || k == 2 {
      t := LiveFollowersLead(c, u, i + 1, 0);
    } else {
      t := LiveFollowersLead(c, u, i, k + 1);
    }
    Onwards(c, s, t);
  }

  // The precheck of a resumable operation.
  lemma {:induction false} ResumeLeads(c: Config, s: State, k: nat) returns (t: State)
    requires k <= 6 && s.pc == Pre(Resume(k)) && ResumeRoles(c, s.w)
    requires s.w.srcGtid <= s.w.dstGtid && (Full(s.w.dst) ==> s.w.dstGtid <= s.w.srcGtid)
    requires (k > 0 ==> s.srcSample == s.w.srcGtid) && (k > 1 ==> s.dstSample == s.w.dstGtid)
    ensures Leads(c, s, t) && t.w == s.w && t.pc == Fencing(Lease(true))
    decreases 6 - k
  {
    var u := Okay(c, s);
    if k == 6 {
      t := u;
      LeadsNowhere(c, t);
    } else {
      t := ResumeLeads(c, u, k + 1);
    }
    Onwards(c, s, t);
  }

  // Lease and the fence command: the source is fenced and nothing but the lease is recorded.
  lemma FenceLeads(c: Config, s: State) returns (t: State)
    requires s.pc == Fencing(Lease(false))
    ensures Leads(c, s, t) && t.pc == Fencing(FenceReadOnly)
    ensures t.w.done == s.w.done + {AuthorizeTransition}
    ensures t.w.src == Effect(SuperReadOnlyOn, c.target, s.w.src) && t.w.dst == s.w.dst && t.w.others == s.w.others
    ensures t.w.srcGtid == s.w.srcGtid && t.w.dstGtid == s.w.dstGtid
  {
    var u := Okay(c, s);
    var v := Okay(c, u);
    t := Okay(c, v);
    LeadsNext(c, v, Answer(Ok));
    Onwards(c, u, t);
    Onwards(c, s, t);
  }

  // The calls that lead to the recorded fence of a fenced source.
  predicate Recording(call: FenceCall) {
    call == Lease(true) || call == RecordLease(true) || call == FenceReadOnly || call == RecordFence
  }

  lemma RecordingStays(c: Config, s: State, call: FenceCall)
    requires Recording(call) && Full(s.w.src)
    ensures var u := NextFence(c, s, call, Ok);
            && u.w == s.w.(done := u.w.done) && s.w.done <= u.w.done <= s.w.done + {AuthorizeTransition, FenceSource}
            && (if call == RecordFence then u.pc == Fencing(Capture) && FenceSource in u.w.done
                else u.pc.Fencing? && Recording(u.pc.fence))
  {}

  // Recording the fence, anew or again.
  lemma RecordFenceLeads(c: Config, s: State, call: FenceCall) returns (t: State)
    requires s.pc == Fencing(call) && Full(s.w.src) && Recording(call)
    ensures Leads(c, s, t) && t.pc == Fencing(Capture)
    ensures t.w == s.w.(done := t.w.done)
    ensures FenceSource in t.w.done && s.w.done <= t.w.done <= s.w.done + {AuthorizeTransition, FenceSource}
    decreases match call case Lease(_) => 4 case RecordLease(_) => 3 case FenceReadOnly => 2 case _ => 1
  {
    var u := NextFence(c, s, call, Ok).(run := Remember(c, s, Ok));
    RecordingStays(c, s, call);
    if call == RecordFence {
      t := u;
      LeadsNowhere(c, t);
    } else {
      t := RecordFenceLeads(c, u, u.pc.fence);
    }
    FenceOnwards(c, s, call, u, t);
  }

  // Capturing the position.
  lemma CaptureLeads(c: Config, s: State, call: FenceCall) returns (t: State)
    requires s.pc == Fencing(call) && (call == Capture || (call == RecordCapture && s.position == s.w.srcGtid))
    ensures Leads(c, s, t) && t.pc == Fencing(Wait) && t.position == t.w.srcGtid
    ensures t.w == s.w.(done := t.w.done) && s.w.done <= t.w.done <= s.w.done + {CaptureGtid}
    decreases call == Capture
  {
    var u := NextFence(c, s, call, Ok).(run := Remember(c, s, Ok));
    if call == RecordCapture {
      t := u;
      LeadsNowhere(c, t);
    } else {
      t := CaptureLeads(c, u, RecordCapture);
    }
    FenceOnwards(c, s, call, u, t);
  }

  // The target executes what the source had executed, if it does not have it already.
  lemma ReplicateLeads(c: Config, s: State) returns (t: State)
    requires s.w.dst.source == Some(c.source) || s.w.srcGtid <= s.w.dstGtid
    ensures Leads(c, s, t) && t == s.(w := s.w.(dstGtid := t.w.dstGtid)) && s.w.srcGtid <= t.w.dstGtid
  {
    var next := s.w.(dstGtid := s.w.dstGtid + s.w.srcGtid);
    assert CausalStep(c, s.w, next);
    t := Happen(c, s, Environment(next, true));
    LeadsNext(c, s, Environment(next, true));
  }

  lemma WaitedLeads(c: Config, s: State, call: FenceCall) returns (t: State)
    requires s.pc == Fencing(call) && (call == RecordWait || (call == Wait && s.position <= s.w.dstGtid))
    ensures Leads(c, s, t) && t.pc == Promoting(ProbeDetach)
    ensures t.w == s.w.(done := t.w.done) && s.w.done <= t.w.done <= s.w.done + {WaitGtid}
    decreases call == Wait
  {
    var u := NextFence(c, s, call, Ok).(run := Remember(c, s, Ok));
    if call == RecordWait {
      t := u;
      LeadsNowhere(c, t);
    } else {
      t := WaitedLeads(c, u, RecordWait);
    }
    FenceOnwards(c, s, call, u, t);
  }

  // Capturing the position, and waiting while the target executes it.
  lemma WaitLeads(c: Config, s: State) returns (t: State)
    requires s.pc == Fencing(Capture) && (s.w.dst.source == Some(c.source) || s.w.srcGtid <= s.w.dstGtid)
    ensures Leads(c, s, t) && t.pc == Promoting(ProbeDetach)
    ensures SameRoles(t.w, s.w) && s.w.done <= t.w.done <= s.w.done + {CaptureGtid, WaitGtid}
  {
    var a := CaptureLeads(c, s, Capture);
    var b := ReplicateLeads(c, a);
    t := WaitedLeads(c, b, Wait);
    LeadsThen(c, s, a, b);
    LeadsThen(c, s, b, t);
  }

  // From a fenced source to a caught-up target.
  lemma CatchUpLeads(c: Config, s: State, call: FenceCall) returns (t: State)
    requires s.pc == Fencing(call) && Full(s.w.src) && (call == Lease(true) || call == FenceReadOnly)
    requires s.w.dst.source == Some(c.source) || s.w.srcGtid <= s.w.dstGtid
    ensures Leads(c, s, t) && t.pc == Promoting(ProbeDetach) && SameRoles(t.w, s.w) && FenceSource in t.w.done
    ensures s.w.done <= t.w.done <= s.w.done + {AuthorizeTransition, FenceSource, CaptureGtid, WaitGtid}
  {
    var a := RecordFenceLeads(c, s, call);
    t := WaitLeads(c, a);
    LeadsThen(c, s, a, t);
  }

  // The target is detached; nothing is recorded yet.
  lemma DetachLeads(c: Config, s: State, call: PromoteCall) returns (t: State)
    requires c.source != c.target && s.pc == Promoting(call)
    requires call == ProbeDetach || call == StopReplication || call == ResetTarget
    ensures Leads(c, s, t) && t.pc == Promoting(RecordStop)
    ensures t.w.done == s.w.done && t.w.src == s.w.src && t.w.others == s.w.others
    ensures t.w.dst.source == None && Full(t.w.dst) == Full(s.w.dst) && Open(t.w.dst) == Open(s.w.dst)
    decreases match call case ProbeDetach => 3 case StopReplication => 2 case _ => 1
  {
    var u := Okay(c, s);
    if u.pc == Promoting(RecordStop) {
      t := u;
      LeadsNowhere(c, t);
    } else {
      t := DetachLeads(c, u, u.pc.promote);
    }
    Onwards(c, s, t);
  }

  // The target is open; its promotion is not recorded yet.
  lemma OpenLeads(c: Config, s: State, call: PromoteCall) returns (t: State)
    requires c.source != c.target && s.pc == Promoting(call) && s.w.dst.source == None
    requires call == RecordStop || call == ProbeWritable || call == OpenTarget || call == ProbeOpened
    requires call == ProbeOpened ==> Open(s.w.dst)
    ensures Leads(c, s, t) && t.pc == Promoting(RecordPromote)
    ensures s.w.done <= t.w.done <= s.w.done + {StopTarget} && t.w.src == s.w.src && t.w.others == s.w.others
    ensures Open(t.w.dst) && t.w.dst.source == None
    decreases match call case RecordStop => 4 case ProbeWritable => 3 case OpenTarget => 2 case _ => 1
  {
    var u := Okay(c, s);
    if call == ProbeOpened {
      t := u;
      LeadsNowhere(c, t);
    } else {
      t := OpenLeads(c, u, u.pc.promote);
    }
    Onwards(c, s, t);
  }

  // Reparenting one follower up to a later call.
  lemma {:induction false} ReparentLeads(c: Config, s: State, i: nat, k: nat) returns (t: State)
    requires i < |c.followers| && k <= 10 && s.pc == Following(ReparentFollower(i, k))
    ensures Leads(c, s, t) && t.pc == Following(RecordFollower(i)) && t.w.done == s.w.done
    ensures c.followers[i] != c.source ==> t.w.src == s.w.src
    decreases 11 - k
  {
    var u := NextFollow(c, s, ReparentFollower(i, k), Ok).(run := Remember(c, s, Ok));
    ReparentKeepsDone(c, s.w, c.followers[i], c.target, k, Ok);
    if k == 10 {
      t := u;
      LeadsNowhere(c, t);
    } else {
      t := ReparentLeads(c, u, i, u.pc.follow.k);
    }
    FollowOnwards(c, s, ReparentFollower(i, k), u, t);
  }

  lemma ReadFollowerLeads(c: Config, s: State, i: nat) returns (t: State)
    requires i < |c.followers| && s.pc == Following(ReadFollower(i))
    ensures Leads(c, s, t) && t.w == s.w
    ensures t.pc == Following(if Reparent(c.followers[i]) in s.w.done then ReadFollower(i + 1)
            else ReparentFollower(i, 0))
  {
    t := Okay(c, s);
    LeadsNext(c, s, Answer(Ok));
  }

  lemma RecordFollowerLeads(c: Config, s: State, i: nat) returns (t: State)
    requires i < |c.followers| && s.pc == Following(RecordFollower(i))
    ensures Leads(c, s, t) && t.pc == Following(ReadFollower(i + 1))
    ensures t.w == s.w.(done := s.w.done + {Reparent(c.followers[i])})
  {
    t := Okay(c, s);
    LeadsNext(c, s, Answer(Ok));
  }

  // The source is as it was, and so is the record of its reparenting.
  predicate SparesSource(c: Config, a: World, b: World) {
    b.src == a.src && (Reparent(c.source) in b.done ==> Reparent(c.source) in a.done)
  }

  // One follower, unless its reparenting is recorded.
  lemma OneFollowerLeads(c: Config, s: State, i: nat) returns (t: State)
    requires i < |c.followers| && s.pc == Following(ReadFollower(i))
    ensures Leads(c, s, t) && t.pc == Following(ReadFollower(i + 1))
    ensures c.followers[i] != c.source ==> SparesSource(c, s.w, t.w)
    ensures RetainSourceReadOnly in t.w.done ==> RetainSourceReadOnly in s.w.done
    ensures FenceSource in s.w.done ==> FenceSource in t.w.done
  {
    t := ReadFollowerLeads(c, s, i);
    if Reparent(c.followers[i]) !in s.w.done {
      var a := t;
      var b := ReparentLeads(c, a, i, 0);
      t := RecordFollowerLeads(c, b, i);
      LeadsThen(c, a, b, t);
      LeadsThen(c, s, a, t);
    }
  }

  // The followers up to `j` are reparented. If the source is not among them it is untouched.
  lemma {:induction false} FollowLeads(c: Config, s: State, i: nat, j: nat) returns (t: State)
    requires i <= j <= |c.followers| && s.pc == Following(ReadFollower(i))
    ensures Leads(c, s, t) && t.pc == Following(ReadFollower(j))
    ensures (forall x | i <= x < j :: c.followers[x] != c.source) ==>
              SparesSource(c, s.w, t.w)
    ensures RetainSourceReadOnly in t.w.done ==> RetainSourceReadOnly in s.w.done
    ensures FenceSource in s.w.done ==> FenceSource in t.w.done
    decreases j - i
  {
    if i == j {
      t := s;
      LeadsNowhere(c, t);
    } else {
      var u := OneFollowerLeads(c, s, i);
      t := FollowLeads(c, u, i + 1, j);
      LeadsThen(c, s, u, t);
    }
  }

  lemma PublishFinishes(c: Config, s: State, call: PublishCall) returns (t: State)
    requires s.pc == Publishing(call) && (call == VerifyTransfer ==> s.w.endpoint)
    ensures Leads(c, s, t) && t.pc == Exit(Completed)
    decreases match call case VerifyEndpoint => 6 case Transfer => 5 case VerifyTransfer => 4
                         case Finalize => 3 case RecordTransfer => 2 case RecordRetain => 1
  {
    var u := Okay(c, s);
    if call == RecordRetain {
      t := u;
      LeadsNowhere(c, t);
    } else {
      t := PublishFinishes(c, u, u.pc.publish);
    }
    Onwards(c, s, t);
  }

  lemma SemiSyncFinishes(c: Config, s: State, call: FollowCall) returns (t: State)
    requires s.pc == Following(call) && (call == ReadSemiSync || call == SemiSync || call == RecordSemiSync)
    ensures Leads(c, s, t) && t.pc == Exit(Completed)
    decreases match call case ReadSemiSync => 3 case SemiSync => 2 case _ => 1
  {
    var u := Okay(c, s);
    if u.pc.Publishing? {
      t := PublishFinishes(c, u, VerifyEndpoint);
    } else {
      t := SemiSyncFinishes(c, u, u.pc.follow);
    }
    Onwards(c, s, t);
  }

  // From a caught-up target to the end.
  lemma PromotingFinishes(c: Config, s: State) returns (t: State)
    requires c.source != c.target && s.pc == Promoting(ProbeDetach)
    ensures Leads(c, s, t) && t.pc == Exit(Completed)
  {
    var a := DetachLeads(c, s, ProbeDetach);
    var b := OpenLeads(c, a, RecordStop);
    LeadsThen(c, s, a, b);
    t := OpenedFinishes(c, b);
    LeadsThen(c, s, b, t);
  }

  lemma RecordPromoteLeads(c: Config, s: State) returns (t: State)
    requires s.pc == Promoting(RecordPromote)
    ensures Leads(c, s, t) && t.pc == Following(ReadFollower(0)) && t.w == s.w.(done := s.w.done + {PromoteTarget})
  {
    t := Okay(c, s);
    LeadsNext(c, s, Answer(Ok));
  }

  lemma OpenedFinishes(c: Config, s: State) returns (t: State)
    requires s.pc == Promoting(RecordPromote)
    ensures Leads(c, s, t) && t.pc == Exit(Completed)
  {
    var u := RecordPromoteLeads(c, s);
    var a := FollowLeads(c, u, 0, |c.followers|);
    t := FollowedFinishes(c, a);
    LeadsThen(c, u, a, t);
    LeadsThen(c, s, u, t);
  }

  lemma FollowedFinishes(c: Config, s: State) returns (t: State)
    requires s.pc == Following(ReadFollower(|c.followers|))
    ensures Leads(c, s, t) && t.pc == Exit(Completed)
  {
    var u := NextFollow(c, s, ReadFollower(|c.followers|), Ok).(run := Remember(c, s, Ok));
    if c.semiSync {
      t := SemiSyncFinishes(c, u, ReadSemiSync);
    } else {
      t := PublishFinishes(c, u, VerifyEndpoint);
    }
    FollowOnwards(c, s, ReadFollower(|c.followers|), u, t);
  }
}
