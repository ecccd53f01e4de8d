// The course of a base-backup attempt: operations in order, the first failure ends the attempt, what is
// cleaned up follows from where that was, and an attempt without failures succeeds.
module BaseBackupCourse {
  import opened BaseBackup

  // ---- Order ----

  // The operations that must have succeeded in this attempt before the given one.
  predicate Needs(pc: Pc, p: set<Pc>) {
    match pc
    case ClearStage => CheckBackup in p
    case StopServer => ClearStage in p
    case TakeCopy => StopServer in p
    case CheckCopy => TakeCopy in p
    case AddIdentity => CheckCopy in p
    case CheckData => AddIdentity in p
    case MoveAside => CheckData in p
    case Activate => MoveAside in p || CheckData in p
    case StartServer => Activate in p
    case VerifySource => StartServer in p
    case DropBackup => VerifySource in p
    case StopAgain => Activate in p || StartServer in p
    case CheckFailed => StopAgain in p
    case CheckReplaced => CheckFailed in p
    case Quarantine => CheckReplaced in p
    case Restore => CheckReplaced in p || Quarantine in p
    case Exit(ok, _) => ok ==> VerifySource in p || DropBackup in p
    case _ => true
  }

  ghost predicate Ordered(s: State) {
    s.pc.Idle? || (Needs(s.pc, s.run.passed) && forall x | x in s.run.passed :: Needs(x, s.run.passed))
  }

  lemma StagingIsOrdered(s: State, reply: Reply, n: nat)
    requires Needs(s.pc, s.run.passed)
    requires s.pc.CheckBackup? || s.pc.ClearStage? || s.pc.StopServer? || s.pc.TakeCopy? || s.pc.CheckCopy?
             || s.pc.AddIdentity?
    ensures Needs(Next(s, reply, n).pc, Passing(s, reply))
  {}

  lemma SwapIsOrdered(s: State, reply: Reply, n: nat)
    requires Needs(s.pc, s.run.passed)
    requires s.pc.CheckData? || s.pc.MoveAside? || s.pc.Activate? || s.pc.StartServer? || s.pc.VerifySource?
             || s.pc.DropBackup?
    ensures Needs(Next(s, reply, n).pc, Passing(s, reply))
  {}

  lemma RenamingIsOrdered(s: State, reply: Reply, n: nat)
    requires s.pc.DropStage? || s.pc.MoveBack? || s.pc.Quarantine? || s.pc.Restore?
    ensures Needs(Next(s, reply, n).pc, Passing(s, reply))
  {}

  lemma LookingIsOrdered(s: State, reply: Reply, n: nat)
    requires s.pc.StopAgain? || s.pc.CheckFailed? || s.pc.CheckReplaced?
    ensures Needs(Next(s, reply, n).pc, Passing(s, reply))
  {}

  lemma CleanupIsOrdered(s: State, reply: Reply, n: nat)
    requires !Main(s.pc) && !s.pc.Idle? && !s.pc.Exit?
    ensures Needs(Next(s, reply, n).pc, Passing(s, reply))
  {
    if s.pc.StopAgain? || s.pc.CheckFailed? || s.pc.CheckReplaced? {
      LookingIsOrdered(s, reply, n);
    } else {
      RenamingIsOrdered(s, reply, n);
    }
  }

  lemma NextIsOrdered(s: State, reply: Reply, n: nat)
    requires Needs(s.pc, s.run.passed) && !s.pc.Idle? && !s.pc.Exit?
    ensures Needs(Next(s, reply, n).pc, Passing(s, reply))
  {
    if !Main(s.pc) {
      CleanupIsOrdered(s, reply, n);
    } else if s.pc.CheckData? || s.pc.MoveAside? || s.pc.Activate? || s.pc.StartServer? || s.pc.VerifySource?
      || s.pc.DropBackup? {
      SwapIsOrdered(s, reply, n);
    } else {
      StagingIsOrdered(s, reply, n);
    }
  }

  lemma NeedsGrow(pc: Pc, p: set<Pc>, q: set<Pc>)
    requires p <= q
    ensures Needs(pc, p) ==> Needs(pc, q)
  {}

  lemma NextKeepsOrdered(s: State, reply: Reply, n: nat)
    requires Ordered(s) && !s.pc.Idle? && !s.pc.Exit?
    ensures Ordered(Next(s, reply, n).(run := Remember(s, reply)))
  {
    NextIsOrdered(s, reply, n);
    var q := Passing(s, reply);
    forall x | x in q
      ensures Needs(x, q)
    {
      NeedsGrow(x, s.run.passed, q);
    }
  }

  // ---- Where an attempt ends ----

  // Before its copy is in place an attempt only drops its staging directory.
  predicate DropsStage(pc: Pc) {
    pc == TakeCopy || pc == CheckCopy || pc == AddIdentity || pc == CheckData || pc == MoveAside
  }

  // After that it restores what was there.
  predicate RestoresData(pc: Pc) {
    pc == StartServer || pc == VerifySource
  }

  // How a failing attempt leaves the directories, by the operation that ended it and the fate of the
  // clean-up.
  predicate Leaves(s: State, restored: bool) {
    var data := Lookup(s.fs, Data);
    var last := s.run.last;
    if last == CheckBackup || last == ClearStage || last == StopServer then !restored && data == s.before
    else if DropsStage(last) then
      && !restored && (!s.run.cleanupFailed ==> Stage(s.archive) !in s.fs)
      && (last != MoveAside ==> data == s.before)
    else if last == Activate then !restored && (s.before.Some? && !s.run.cleanupFailed ==> data == s.before)
    else if RestoresData(last) then restored == !s.run.cleanupFailed && (restored ==> data == s.before)
    else last == DropBackup && !restored && s.verified && data.Some? && data.value.Copy?
  }

  predicate Ends(s: State) {
    match s.pc
    case Idle => true
    case Exit(ok, restored) =>
      if ok then !s.run.fault && !restored
      else (s.run.fault || s.run.last == CheckBackup) && Leaves(s, restored)
    case DropStage =>
      && DropsStage(s.run.last) && s.run.fault && !s.run.cleanupFailed
      && (s.run.last != MoveAside ==> Lookup(s.fs, Data) == s.before)
    case MoveBack => s.run.last == Activate && s.run.fault && !s.run.cleanupFailed
    case StopAgain => RestoresData(s.run.last) && s.run.fault && !s.run.cleanupFailed
    case CheckFailed => RestoresData(s.run.last) && s.run.fault && !s.run.cleanupFailed
    case CheckReplaced => RestoresData(s.run.last) && s.run.fault && !s.run.cleanupFailed
    case Quarantine => RestoresData(s.run.last) && s.run.fault && !s.run.cleanupFailed
    case Restore => RestoresData(s.run.last) && s.run.fault && !s.run.cleanupFailed
    case _ => !s.run.fault && !s.run.cleanupFailed
  }

  lemma EarlyKeepsEnds(s: State, reply: Reply, n: nat)
    requires Knows(s) && Ends(s) && Main(s.pc)
    requires s.pc.CheckBackup? || s.pc.ClearStage? || s.pc.StopServer? || s.pc.TakeCopy? || s.pc.CheckCopy?
             || s.pc.AddIdentity?
    ensures Ends(Next(s, reply, n).(run := Remember(s, reply)))
  {}

  lemma SwapKeepsEnds(s: State, reply: Reply, n: nat)
    requires Knows(s) && Ends(s) && Main(s.pc)
    requires s.pc.CheckData? || s.pc.MoveAside? || s.pc.Activate? || s.pc.StartServer? || s.pc.VerifySource?
             || s.pc.DropBackup?
    ensures Ends(Next(s, reply, n).(run := Remember(s, reply)))
  {}

  lemma GivingUpKeepsEnds(s: State, reply: Reply, n: nat)
    requires Knows(s) && Ends(s) && (s.pc.DropStage? || s.pc.MoveBack?)
    ensures Ends(Next(s, reply, n).(run := Remember(s, reply)))
  {}

  lemma LookingKeepsEnds(s: State, reply: Reply, n: nat)
    requires Knows(s) && Ends(s) && (s.pc.StopAgain? || s.pc.CheckFailed? || s.pc.CheckReplaced?)
    ensures Ends(Next(s, reply, n).(run := Remember(s, reply)))
  {}

  lemma RestoringKeepsEnds(s: State, reply: Reply, n: nat)
    requires Knows(s) && Ends(s) && (s.pc.Quarantine? || s.pc.Restore?)
    ensures Ends(Next(s, reply, n).(run := Remember(s, reply)))
  {}

  lemma NextKeepsEnds(s: State, reply: Reply, n: nat)
    requires Knows(s) && Ends(s) && !s.pc.Idle? && !s.pc.Exit?
    ensures Ends(Next(s, reply, n).(run := Remember(s, reply)))
  {
    if s.pc.DropStage? || s.pc.MoveBack? {
      GivingUpKeepsEnds(s, reply, n);
    } else if s.pc.Quarantine? || s.pc.Restore? {
      RestoringKeepsEnds(s, reply, n);
    } else if !Main(s.pc) {
      LookingKeepsEnds(s, reply, n);
    } else if s.pc.CheckData? || s.pc.MoveAside? || s.pc.Activate? || s.pc.StartServer? || s.pc.VerifySource?
      || s.pc.DropBackup? {
      SwapKeepsEnds(s, reply, n);
    } else {
      EarlyKeepsEnds(s, reply, n);
    }
  }

  // Over every sequence of attempts: no operation is made in an attempt before those it depends on have
  // succeeded in it. An attempt in which an operation failed reports a failure, and only such an attempt
  // does, or one that found its quarantine taken. A failure before the swap leaves the data as it was and
  // drops the staging directory; a failed swap is reversed; after a failed start or verification the
  // attempt reports restored data exactly when every clean-up operation succeeded, and the data is what
  // it was.
  lemma {:induction false} AttemptIsOrderly(s: State, events: seq<Event>)
    requires Start(s)
    ensures var t := After(s, events);
            && Ordered(t) && Ends(t)
            && (t.pc.Exit? ==>
                  if t.pc.ok then !t.run.fault
                  else (t.run.fault || t.run.last == CheckBackup) && Leaves(t, t.pc.restored))
  {
    if events != [] {
      var a, e := After(s, events[..|events| - 1]), events[|events| - 1];
      AttemptIsOrderly(s, events[..|events| - 1]);
      OriginalIsConserved(s, events[..|events| - 1]);
      if e.Answer? && !a.pc.Idle? && !a.pc.Exit? {
        NextKeepsOrdered(a, e.reply, e.n);
        NextKeepsEnds(a, e.reply, e.n);
      }
    }
  }

  // ---- An attempt without failures ----

  // `k` operations that succeed; the copy gets number `n`.
  function Onwards(s: State, n: nat, k: nat): State
    decreases k
  {
    if k == 0 then s else Onwards(Happen(s, Answer(Ok, n)), n, k - 1)
  }

  function Rank(pc: Pc): nat {
    match pc
    case CheckBackup => 12
    case ClearStage => 11
    case StopServer => 10
    case TakeCopy => 9
    case CheckCopy => 8
    case AddIdentity => 7
    case CheckData => 6
    case MoveAside => 5
    case Activate => 4
    case StartServer => 3
    case VerifySource => 2
    case DropBackup => 1
    case _ => 0
  }

  // The copy of this attempt is staged or in place.
  predicate Holds(s: State, n: nat) {
    && (s.pc.CheckCopy? || s.pc.AddIdentity? || s.pc.CheckData? || s.pc.MoveAside? || s.pc.Activate? ==>
          Lookup(s.fs, Stage(s.archive)) == Some(Copy(n)))
    && (s.pc.StartServer? || s.pc.VerifySource? || s.pc.DropBackup? ==> Lookup(s.fs, Data) == Some(Copy(n)))
    && ((s.pc.Activate? || s.pc.StartServer? || s.pc.VerifySource?) && !s.had ==> Backup(s.archive) !in s.fs)
  }

  predicate Fits(s: State, n: nat) {
    Main(s.pc) && Holds(s, n) && (s.pc.CheckBackup? ==> Backup(s.archive) !in s.fs)
  }

  // The end of a successful attempt.
  predicate Done(s: State, n: nat) {
    && s.pc == Exit(true, false) && Lookup(s.fs, Data) == Some(Copy(n))
    && (s.archive == Plain ==> Backup(Plain) !in s.fs)
  }

  lemma StagesOn(s: State, n: nat)
    requires Knows(s) && Fits(s, n) && Rank(s.pc) > 5
    ensures var t := Next(s, Ok, n); Fits(t, n) && Rank(t.pc) < Rank(s.pc)
    ensures var t := Next(s, Ok, n); t.archive == s.archive && t.before == s.before
  {}

  lemma SwapsOn(s: State, n: nat)
    requires Knows(s) && Fits(s, n) && Rank(s.pc) <= 5
    ensures var t := Next(s, Ok, n); Done(t, n) || (Fits(t, n) && Rank(t.pc) < Rank(s.pc))
    ensures var t := Next(s, Ok, n); t.archive == s.archive && t.before == s.before
  {}

  lemma {:induction false} GoesThrough(s: State, n: nat) returns (k: nat)
    requires Knows(s) && Fits(s, n)
    ensures var t := Onwards(s, n, k); Knows(t) && Done(t, n) && t.archive == s.archive && t.before == s.before
    decreases Rank(s.pc)
  {
    var u := Happen(s, Answer(Ok, n));
    HappenKeepsKnows(s, Answer(Ok, n));
    if Rank(s.pc) > 5 {
      StagesOn(s, n);
    } else {
      SwapsOn(s, n);
    }
    if u.pc.Exit? {
      k := 1;
      assert Onwards(s, n, 1) == Onwards(u, n, 0);
    } else {
      k := GoesThrough(u, n);
      k := k + 1;
    }
  }

  // An attempt whose quarantine is free and whose operations all succeed replaces the data by its copy,
  // and keeps the old data exactly when it has an archive name.
  lemma {:induction false} AttemptSucceeds(s: State, archive: Archive, n: nat) returns (k: nat)
    requires (s.pc.Idle? || s.pc.Exit?) && Backup(archive) !in s.fs
    ensures var t := Onwards(Happen(s, Attempt(archive)), n, k);
            && t.pc == Exit(true, false) && Lookup(t.fs, Data) == Some(Copy(n))
            && (if archive == Plain then Backup(Plain) !in t.fs
                else Data in s.fs ==> Lookup(t.fs, Backup(archive)) == Some(s.fs[Data]))
  {
    k := GoesThrough(Happen(s, Attempt(archive)), n);
  }
}
