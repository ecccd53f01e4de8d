// The windows of the planned MySQL switchover: from every healthy start a run can end at a bad moment and
// leave the operation blocked for good.
module MySQLSwitchoverWindows {
  import opened MySQLMembers
  import opened MySQLSwitchover
  import opened MySQLSwitchoverProgress
  import opened MySQLSwitchoverRuns
  import opened MySQLSwitchoverLiveness

  // Where an operation starts that finds its cluster as expected.
  ghost predicate Fresh(c: Config, s: State) {
    && Planned(c) && c.source != c.target && s.pc == Idle && s.w.done == {}
    && Healthy(c, s.w) && s.w.dstGtid <= s.w.srcGtid
  }

  // The run is interrupted and leaves the operation blocked for good, whatever the members execute.
  ghost predicate EndsBlocked(c: Config, s: State, t: State) {
    Leads(c, Happen(c, s, Launch), t) && t.pc == Idle && forall events :: !Finished(After(c, t, events).pc)
  }

  lemma LaunchLeads(c: Config, s: State) returns (t: State)
    requires Fresh(c, s)
    ensures Leads(c, Happen(c, s, Launch), t) && t.w == s.w && t.pc == Fencing(Lease(false))
  {
    var a := Happen(c, s, Launch);
    PlanEntries(c);
    assert !AllRecorded(c, s.w.done);
    var b := CheckLeads(c, a, 0);
    var d := Okay(c, b);
    t := LiveLeads(c, d, 0);
    Onwards(c, b, t);
    LeadsThen(c, a, b, t);
  }

  // The process dies at `x`: a source without its records in order makes the operation unfinishable.
  lemma DiesBlocked(c: Config, s: State, x: State) returns (t: State)
    requires Planned(c) && c.source != c.target && Leads(c, Happen(c, s, Launch), x)
    requires !Open(x.w.src) && !(FenceSource in x.w.done && ResumeRoles(c, x.w))
    requires RetainSourceReadOnly !in x.w.done
    ensures EndsBlocked(c, s, t) && t == x.(pc := Idle)
  {
    t := CrashLeads(c, x);
    LeadsThen(c, Happen(c, s, Launch), x, t);
    PlanEntries(c);
    assert !AllRecorded(c, t.w.done);
    forall events
      ensures !Finished(After(c, t, events).pc)
    {
      WrongRolesBlock(c, t, events);
    }
  }

  // Dying between the fence and its record.
  lemma {:induction false} FenceWindow(c: Config, s: State) returns (t: State)
    requires Fresh(c, s)
    ensures EndsBlocked(c, s, t) && Full(t.w.src) && FenceSource !in t.w.done
  {
    var a := LaunchLeads(c, s);
    var b := FenceLeads(c, a);
    LeadsThen(c, Happen(c, s, Launch), a, b);
    t := DiesBlocked(c, s, b);
  }

  // The source is fenced, the target caught up, and only the steps before are recorded.
  lemma CaughtUp(c: Config, s: State) returns (t: State)
    requires Fresh(c, s)
    ensures Leads(c, Happen(c, s, Launch), t) && t.pc == Promoting(ProbeDetach)
    ensures FenceSource in t.w.done && t.w.done <= {AuthorizeTransition, FenceSource, CaptureGtid, WaitGtid}
    ensures Full(t.w.src) && t.w.src.source == None && t.w.dst == s.w.dst
  {
    var a := LaunchLeads(c, s);
    var b := FenceLeads(c, a);
    t := CatchUpLeads(c, b, FenceReadOnly);
    LeadsThen(c, Happen(c, s, Launch), a, b);
    LeadsThen(c, Happen(c, s, Launch), b, t);
  }

  // Dying between detaching the target and recording its promotion.
  lemma {:induction false} DetachWindow(c: Config, s: State) returns (t: State)
    requires Fresh(c, s)
    ensures EndsBlocked(c, s, t) && t.w.dst.source == None && !Open(t.w.dst) && PromoteTarget !in t.w.done
  {
    var a := CaughtUp(c, s);
    var b := DetachLeads(c, a, ProbeDetach);
    LeadsThen(c, Happen(c, s, Launch), a, b);
    t := DiesBlocked(c, s, b);
  }

  lemma Opened(c: Config, s: State) returns (t: State)
    requires Fresh(c, s)
    ensures Leads(c, Happen(c, s, Launch), t) && t.pc == Promoting(RecordPromote)
    ensures FenceSource in t.w.done
    ensures t.w.done <= {AuthorizeTransition, FenceSource, CaptureGtid, WaitGtid, StopTarget}
    ensures Full(t.w.src) && t.w.src.source == None && Open(t.w.dst) && t.w.dst.source == None
  {
    var a := CaughtUp(c, s);
    var b := DetachLeads(c, a, ProbeDetach);
    t := OpenLeads(c, b, RecordStop);
    LeadsThen(c, Happen(c, s, Launch), a, b);
    LeadsThen(c, Happen(c, s, Launch), b, t);
  }

  // Dying between opening the target and recording its promotion: the target stays open.
  lemma {:induction false} OpenWindow(c: Config, s: State) returns (t: State)
    requires Fresh(c, s)
    ensures EndsBlocked(c, s, t) && Open(t.w.dst) && PromoteTarget !in t.w.done
  {
    var a := Opened(c, s);
    t := DiesBlocked(c, s, a);
  }

  // The source as a follower: its replication is configured but its reparenting not recorded.
  lemma {:induction false} SourceLeads(c: Config, s: State, i: nat, k: nat) returns (t: State)
    requires i < |c.followers| && c.followers[i] == c.source && s.pc == Following(ReparentFollower(i, k))
    requires k <= 2 || k == 5
    requires Full(s.w.src) && s.w.src.source == None
    ensures Leads(c, s, t) && t.w.done == s.w.done && Full(t.w.src) && t.w.src.source == Some(c.target)
    decreases 6 - k
  {
    var u := Okay(c, s);
    if k == 5 {
      t := u;
      LeadsNowhere(c, t);
    } else {
      t := SourceLeads(c, u, i, u.pc.follow.k);
    }
    Onwards(c, s, t);
  }

  // The run stands before the former primary as a follower.
  lemma SourceReached(c: Config, s: State) returns (t: State, j: nat)
    requires Fresh(c, s) && c.source in c.followers
    ensures Leads(c, Happen(c, s, Launch), t) && t.pc == Following(ReadFollower(j)) && j < |c.followers|
    ensures c.followers[j] == c.source && Full(t.w.src) && t.w.src.source == None
    ensures Reparent(c.source) !in t.w.done && RetainSourceReadOnly !in t.w.done
  {
    var a := Promoted(c, s);
    j := FirstIndex(c.followers, c.source, 0);
    t := FollowLeads(c, a, 0, j);
    LeadsThen(c, Happen(c, s, Launch), a, t);
  }

  lemma {:induction false} FirstIndex(ids: seq<Id>, id: Id, i: nat) returns (j: nat)
    requires i <= |ids| && id in ids[i..] && forall x | 0 <= x < i :: ids[x] != id
    ensures j < |ids| && ids[j] == id && forall x | 0 <= x < j :: ids[x] != id
    decreases |ids| - i
  {
    if ids[i] == id {
      j := i;
    } else {
      assert ids[i..][1..] == ids[i + 1..];
      j := FirstIndex(ids, id, i + 1);
    }
  }

  lemma SourceReparented(c: Config, s: State, j: nat) returns (t: State)
    requires s.pc == Following(ReadFollower(j)) && j < |c.followers| && c.followers[j] == c.source
    requires Reparent(c.source) !in s.w.done && Full(s.w.src) && s.w.src.source == None
    ensures Leads(c, s, t) && t.w.done == s.w.done && Full(t.w.src) && t.w.src.source == Some(c.target)
  {
    t := SourceLeads(c, Okay(c, s), j, 0);
    Onwards(c, s, t);
  }

  // Dying between reparenting the former primary and recording it.
  lemma {:induction false} ReparentWindow(c: Config, s: State) returns (t: State)
    requires Fresh(c, s) && c.source in c.followers
    ensures EndsBlocked(c, s, t) && t.w.src.source == Some(c.target) && Reparent(c.source) !in t.w.done
  {
    var a, j := SourceReached(c, s);
    var b := SourceReparented(c, a, j);
    LeadsThen(c, Happen(c, s, Launch), a, b);
    t := DiesBlocked(c, s, b);
  }

  // ---- A re-fenced target with a transaction of its own ----

  lemma {:induction false} NumberBound(gtids: set<Txn>) returns (n: nat)
    ensures forall t | t in gtids :: t.number < n
  {
    if gtids == {} {
      n := 0;
    } else {
      var t :| t in gtids;
      n := NumberBound(gtids - {t});
      n := if t.number < n then n else t.number + 1;
    }
  }

  // The open target executes a transaction of a client.
  lemma WriteLeads(c: Config, s: State) returns (t: State)
    requires Open(s.w.dst)
    ensures Leads(c, s, t) && t == s.(w := s.w.(dstGtid := t.w.dstGtid)) && !(t.w.dstGtid <= t.w.srcGtid)
  {
    var n := NumberBound(s.w.srcGtid);
    var own := Txn(c.target, n);
    var next := s.w.(dstGtid := s.w.dstGtid + {own});
    assert own !in s.w.srcGtid;
    assert CausalStep(c, s.w, next);
    t := Happen(c, s, Environment(next, true));
    LeadsNext(c, s, Environment(next, true));
  }

  lemma {:induction false} RefenceLeads(c: Config, s: State, k: nat, ifFenced: Class) returns (t: State)
    requires c.source != c.target && s.pc == Refence(k, ifFenced) && k <= 2 && (k == 2 ==> Full(s.w.dst))
    ensures Leads(c, s, t) && t.pc == Exit(Failed(ifFenced)) && Full(t.w.dst)
    ensures t.w.dst.source == s.w.dst.source && t.w.src == s.w.src && t.w.done == s.w.done
    ensures t.w.srcGtid == s.w.srcGtid && t.w.dstGtid == s.w.dstGtid
    decreases 3 - k
  {
    var u := Okay(c, s);
    if u.pc.Exit? {
      t := u;
      LeadsNowhere(c, t);
    } else {
      t := RefenceLeads(c, u, u.pc.k, ifFenced);
    }
    Onwards(c, s, t);
  }

  // The promotion is recorded, then the progress of the first follower cannot be read.
  lemma FirstFollowerFails(c: Config, s: State) returns (t: State)
    requires c.source != c.target && c.followers != [] && s.pc == Following(ReadFollower(0))
    ensures Leads(c, s, t) && t.pc == Exit(Failed(PromotedUnverified)) && Full(t.w.dst)
    ensures t.w.dst.source == s.w.dst.source && t.w.src == s.w.src && t.w.done == s.w.done
    ensures t.w.srcGtid == s.w.srcGtid && t.w.dstGtid == s.w.dstGtid
  {
    var u := Happen(c, s, Answer(ErrBefore));
    t := RefenceLeads(c, u, 0, PromotedUnverified);
    LeadsOn(c, s, Answer(ErrBefore), t);
  }

  // The open target executes a transaction before that.
  lemma WrittenThenFails(c: Config, s: State) returns (t: State)
    requires c.source != c.target && c.followers != [] && s.pc == Following(ReadFollower(0)) && Open(s.w.dst)
    ensures Leads(c, s, t) && t.pc == Exit(Failed(PromotedUnverified)) && Full(t.w.dst)
    ensures t.w.dst.source == s.w.dst.source && t.w.src == s.w.src && t.w.done == s.w.done
    ensures !(t.w.dstGtid <= t.w.srcGtid)
  {
    var a := WriteLeads(c, s);
    t := FirstFollowerFails(c, a);
    LeadsThen(c, s, a, t);
  }

  lemma Promoted(c: Config, s: State) returns (t: State)
    requires Fresh(c, s)
    ensures Leads(c, Happen(c, s, Launch), t) && t.pc == Following(ReadFollower(0))
    ensures FenceSource in t.w.done && PromoteTarget in t.w.done
    ensures Reparent(c.source) !in t.w.done && RetainSourceReadOnly !in t.w.done
    ensures Full(t.w.src) && t.w.src.source == None && Open(t.w.dst) && t.w.dst.source == None
  {
    var a := Opened(c, s);
    t := RecordPromoteLeads(c, a);
    LeadsThen(c, Happen(c, s, Launch), a, t);
  }

  // The promoted target executes a transaction, a follower call fails and the target is fenced again, as
  // it should be. All roles agree with the records, yet nothing ever brings that transaction to the
  // source, and the resume precheck refuses every further run.
  lemma {:induction false} ErrantWindow(c: Config, s: State) returns (x: State, t: State)
    requires Fresh(c, s) && c.followers != []
    ensures Leads(c, Happen(c, s, Launch), x) && x.pc == Exit(Failed(PromotedUnverified)) && t == x.(pc := Idle)
    ensures FenceSource in t.w.done && PromoteTarget in t.w.done && ResumeRoles(c, t.w) && Full(t.w.dst)
    ensures !(t.w.dstGtid <= t.w.srcGtid) && !CanFinish(c, t)
  {
    var a := Promoted(c, s);
    x := WrittenThenFails(c, a);
    t := x.(pc := Idle);
    LeadsThen(c, Happen(c, s, Launch), a, x);
    PlanEntries(c);
    assert c.plan[|c.plan| - 1] !in t.w.done;
    CanFinishFrom(c, t);
  }
}
