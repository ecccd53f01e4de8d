// The executed histories over every sequence of runs in which nothing is executed out of nowhere: once
// its promotion is recorded, the target has executed everything the source has.
module MySQLSwitchoverHistories {
  import opened MySQLMembers
  import opened MySQLSwitchover

  // The source is fenced and executes nothing but what the target has.
  predicate Covered(c: Config, w: World) {
    Full(w.src) && (w.src.source == None || w.src.source == Some(c.target)) && w.srcGtid <= w.dstGtid
  }

  // The source is fenced and executes nothing at all, or is covered.
  predicate Shut(c: Config, w: World) {
    Full(w.src) && (w.src.source == None || Covered(c, w))
  }

  predicate FenceCovers(c: Config, call: FenceCall, w: World, position: set<Txn>) {
    match call
    case Lease(fenced) => if fenced then Shut(c, w) else w.src.source == None
    case RecordLease(fenced) => if fenced then Shut(c, w) else w.src.source == None
    case FenceSuper => w.src.source == None
    case FenceRecheck => true
    case FenceReadOnly => Shut(c, w)
    case RecordFence => Shut(c, w)
    case Capture => Shut(c, w)
    case RecordCapture => Shut(c, w) && (w.srcGtid <= position || Covered(c, w))
    case Wait => Shut(c, w) && (w.srcGtid <= position || Covered(c, w))
    case RecordWait => Covered(c, w)
  }

  predicate Covers(c: Config, s: State) {
    match s.pc
    case Idle => true
    case Exit(_) => true
    case Pre(call) => call.LiveFollower? ==> s.w.src.source == None
    case Fencing(call) => FenceCovers(c, call, s.w, s.position)
    case Following(_) => Covered(c, s.w) && PromoteTarget in s.w.done
    case _ => Covered(c, s.w)
  }

  predicate Inv(c: Config, s: State) {
    && (PromoteTarget in s.w.done ==> Covered(c, s.w))
    && (Reparent(c.source) in s.w.done ==> PromoteTarget in s.w.done)
    && Covers(c, s)
  }

  lemma PreKeepsInv(c: Config, s: State, call: PreCall, reply: Reply)
    requires c.source != c.target && Inv(c, s) && s.pc == Pre(call)
    ensures Inv(c, NextPre(c, s, call, reply))
  {}

  lemma FenceKeepsInv(c: Config, s: State, call: FenceCall, reply: Reply)
    requires c.source != c.target && Inv(c, s) && s.pc == Fencing(call)
    ensures Inv(c, NextFence(c, s, call, reply))
  {}

  lemma PromoteKeepsInv(c: Config, s: State, call: PromoteCall, reply: Reply)
    requires c.source != c.target && Inv(c, s) && s.pc == Promoting(call)
    ensures Inv(c, NextPromote(c, s, call, reply))
  {}

  // A statement of a clean-up or of a reparenting to the target leaves the source covered.
  lemma ReparentKeepsCovered(c: Config, w: World, n: Id, to: Id, k: nat, reply: Reply)
    requires c.source != c.target && Covered(c, w) && (n == c.source ==> to == c.target)
    ensures var b := ReparentCall(c, w, n, to, k, reply).0; Covered(c, b) && b.done == w.done
  {}

  lemma FollowKeepsInv(c: Config, s: State, call: FollowCall, reply: Reply)
    requires c.source != c.target && Inv(c, s) && s.pc == Following(call)
    ensures Inv(c, NextFollow(c, s, call, reply))
  {
    if call.ReparentFollower? && call.i < |c.followers| {
      ReparentKeepsCovered(c, s.w, c.followers[call.i], c.target, call.k, reply);
    }
  }

  lemma PublishKeepsInv(c: Config, s: State, call: PublishCall, reply: Reply)
    requires Inv(c, s) && s.pc == Publishing(call)
    ensures Inv(c, NextPublish(c, s, call, reply))
  {}

  lemma RestoreKeepsInv(c: Config, s: State, k: nat, reply: Reply)
    requires c.source != c.target && Inv(c, s) && s.pc == Restore(k)
    ensures Inv(c, NextRestore(c, s, k, reply))
  {
    if k > 0 {
      ReparentKeepsCovered(c, s.w, c.target, c.source, k - 1, reply);
    }
  }

  lemma RefenceKeepsInv(c: Config, s: State, k: nat, ifFenced: Class, reply: Reply)
    requires c.source != c.target && Inv(c, s) && s.pc == Refence(k, ifFenced)
    ensures Inv(c, NextRefence(c, s, k, ifFenced, reply))
  {}

  lemma CausalKeepsInv(c: Config, s: State, next: World)
    requires Inv(c, s) && CausalStep(c, s.w, next)
    ensures Inv(c, s.(w := next))
  {
    assert Covered(c, s.w) ==> Covered(c, next);
    assert Full(s.w.src) && s.w.src.source == None ==> next.srcGtid == s.w.srcGtid;
  }

  lemma NextKeepsInv(c: Config, s: State, reply: Reply)
    requires c.source != c.target && Inv(c, s)
    ensures Inv(c, Next(c, s, reply))
  {
    match s.pc
    case Idle =>
    case Exit(_) =>
    case Pre(call) => PreKeepsInv(c, s, call, reply);
    case Fencing(call) => FenceKeepsInv(c, s, call, reply);
    case Promoting(call) => PromoteKeepsInv(c, s, call, reply);
    case Following(call) => FollowKeepsInv(c, s, call, reply);
    case Publishing(call) => PublishKeepsInv(c, s, call, reply);
    case Restore(k) => RestoreKeepsInv(c, s, k, reply);
    case Refence(k, ifFenced) => RefenceKeepsInv(c, s, k, ifFenced, reply);
  }

  lemma HappenKeepsInv(c: Config, s: State, e: Event)
    requires c.source != c.target && Inv(c, s) && (e.Environment? ==> e.causal)
    ensures Inv(c, Happen(c, s, e))
  {
    match e
    case Answer(reply) => NextKeepsInv(c, s, reply);
    case Environment(next, _) =>
      if CausalStep(c, s.w, next) {
        CausalKeepsInv(c, s, next);
      }
    case _ =>
  }

  // Whatever was executed before the operation started: once the promotion is recorded, the target has
  // executed everything the source has, and the source never executes anything the target has not.
  lemma {:induction false} PromotedCoversSource(c: Config, s: State, events: seq<Event>)
    requires c.source != c.target && s.pc == Idle && s.w.done == {} && Causal(events)
    ensures var t := After(c, s, events);
            Inv(c, t) && (PromoteTarget in t.w.done ==> Full(t.w.src) && t.w.srcGtid <= t.w.dstGtid)
  {
    if events != [] {
      PromotedCoversSource(c, s, events[..|events| - 1]);
      HappenKeepsInv(c, After(c, s, events[..|events| - 1]), events[|events| - 1]);
    }
  }
}
