// The PostgreSQL base-backup directory swap as a state machine over directory operations: any number
// of attempts, with any archive names, failing or dying between any two operations.
module BaseBackup {
  datatype Option<T> = None | Some(value: T)

  // The archive suffix of an attempt; the empty one belongs to an ordinary rebuild.
  datatype Archive = Plain | Task(id: nat)

  datatype Path = Data | Stage(a: Archive) | Backup(a: Archive) | Failed(a: Archive)

  // What a directory holds: the original data, a copy made by an attempt, or something damaged.
  datatype Content = Original | Copy(n: nat) | Broken

  // How an operation ends: success, failure after taking effect, failure without effect. A removal or
  // a copy that fails may leave a damaged directory behind.
  datatype Reply = Ok | ErrAfter | ErrBefore | ErrBroken

  type Files = map<Path, Content>

  datatype Pc =
    | Idle | CheckBackup | ClearStage | StopServer | TakeCopy | CheckCopy | AddIdentity | DropStage
    | CheckData | MoveAside | Activate | MoveBack | StartServer | VerifySource
    | StopAgain | CheckFailed | CheckReplaced | Quarantine | Restore | DropBackup
    | Exit(ok: bool, restored: bool)

  // The attempt's variables and history: its archive, whether there was data to move aside, what the
  // data directory held when it began, and whether its copy was verified streaming. `replaced`: some
  // attempt ever verified its copy. `run`: the course of the attempt.
  datatype State = State(fs: Files, pc: Pc, archive: Archive, had: bool, before: Option<Content>, verified: bool,
    replaced: bool, run: History)

  // The operations that succeeded, the last one before any clean-up, whether one failed, and whether a
  // clean-up failed.
  datatype History = History(passed: set<Pc>, last: Pc, fault: bool, cleanupFailed: bool)

  // The operations of the attempt itself; all others clean up after a failure.
  predicate Main(pc: Pc) {
    || pc.CheckBackup? || pc.ClearStage? || pc.StopServer? || pc.TakeCopy? || pc.CheckCopy? || pc.AddIdentity?
    || pc.CheckData? || pc.MoveAside? || pc.Activate? || pc.StartServer? || pc.VerifySource? || pc.DropBackup?
  }

  // The operation did what it was meant to do. Stopping a server that did not come up may fail.
  predicate Succeeds(s: State, reply: Reply) {
    match s.pc
    case MoveAside => RenameOk(s.fs, Data, Backup(s.archive), reply)
    case Activate => RenameOk(s.fs, Stage(s.archive), Data, reply)
    case MoveBack => RenameOk(s.fs, Backup(s.archive), Data, reply)
    case Quarantine => RenameOk(s.fs, Data, Failed(s.archive), reply)
    case Restore => RenameOk(s.fs, Backup(s.archive), Data, reply)
    case CheckFailed => reply == Ok && Failed(s.archive) !in s.fs
    case StopAgain => true
    case _ => reply == Ok
  }

  function Passing(s: State, reply: Reply): set<Pc> {
    if Succeeds(s, reply) then s.run.passed + {s.pc} else s.run.passed
  }

  function Remember(s: State, reply: Reply): History {
    History(Passing(s, reply),
            if Main(s.pc) then s.pc else s.run.last,
            s.run.fault || (Main(s.pc) && !Succeeds(s, reply)),
            s.run.cleanupFailed || (!Main(s.pc) && !Succeeds(s, reply)))
  }

  function Lookup(fs: Files, p: Path): Option<Content> {
    if p in fs then Some(fs[p]) else None
  }

  // Renaming needs an existing source and a free destination.
  predicate Renames(fs: Files, from: Path, to: Path, reply: Reply) {
    from in fs && to !in fs && reply != ErrBefore && reply != ErrBroken
  }

  function Renamed(fs: Files, from: Path, to: Path, reply: Reply): Files {
    if Renames(fs, from, to, reply) then (fs - {from})[to := fs[from]] else fs
  }

  predicate RenameOk(fs: Files, from: Path, to: Path, reply: Reply) {
    from in fs && to !in fs && reply == Ok
  }

  function Removed(fs: Files, p: Path, reply: Reply): Files {
    match reply
    case Ok => fs - {p}
    case ErrAfter => fs - {p}
    case ErrBefore => fs
    case ErrBroken => if p in fs then fs[p := Broken] else fs
  }

  function Fail(s: State): State {
    s.(pc := Exit(false, false))
  }

  // One answered operation; `n` names the copy an attempt makes.
  function Next(s: State, reply: Reply, n: nat): State {
    var stage, backup, failed := Stage(s.archive), Backup(s.archive), Failed(s.archive);
    match s.pc
    case Idle => s
    case Exit(_, _) => s
    case CheckBackup => if reply != Ok || backup in s.fs then Fail(s) else s.(pc := ClearStage)
    case ClearStage =>
      (var t := s.(fs := Removed(s.fs, stage, reply)); if reply == Ok then t.(pc := StopServer) else Fail(t))
    case StopServer => if reply == Ok then s.(pc := TakeCopy) else Fail(s)
    case TakeCopy =>
      s.(fs := if reply == ErrBefore then s.fs else s.fs[stage := if reply == ErrBroken then Broken else Copy(n)],
         pc := if reply == Ok then CheckCopy else DropStage)
    case CheckCopy => s.(pc := if reply == Ok then AddIdentity else DropStage)
    case AddIdentity => s.(pc := if reply == Ok then CheckData else DropStage)
    case DropStage => Fail(s.(fs := Removed(s.fs, stage, reply)))
    case CheckData => if reply != Ok then s.(pc := DropStage)
      else s.(had := Data in s.fs, pc := if Data in s.fs then MoveAside else Activate)
    case MoveAside =>
      s.(fs := Renamed(s.fs, Data, backup, reply), pc := if RenameOk(s.fs, Data, backup, reply) then Activate
        else DropStage)
    case Activate =>
      (var t := s.(fs := Renamed(s.fs, stage, Data, reply));
       if RenameOk(s.fs, stage, Data, reply) then t.(pc := StartServer) else if s.had then t.(pc := MoveBack)
         else Fail(t))
    case MoveBack => Fail(s.(fs := Renamed(s.fs, backup, Data, reply)))
    case StartServer => s.(pc := if reply == Ok then VerifySource else StopAgain)
    case VerifySource =>
      if reply != Ok then s.(pc := StopAgain)
      else s.(verified := true, replaced := true, pc := if s.had
        && s.archive == Plain then DropBackup else Exit(true, false))
    case StopAgain => s.(pc := CheckFailed)
    case CheckFailed => if reply != Ok || failed in s.fs then Fail(s) else s.(pc := CheckReplaced)
    case CheckReplaced =>
      if reply != Ok then Fail(s)
      else s.(pc := if Data in s.fs then Quarantine else if s.had then Restore else Exit(false, true))
    case Quarantine =>
      (var t := s.(fs := Renamed(s.fs, Data, failed, reply));
       if !RenameOk(s.fs, Data, failed, reply) then Fail(t) else if s.had then t.(pc := Restore)
         else t.(pc := Exit(false, true)))
    case Restore => s.(fs := Renamed(s.fs, backup, Data, reply), pc := Exit(false, RenameOk(s.fs, backup, Data, reply)))
    case DropBackup => s.(fs := Removed(s.fs, backup, reply), pc := Exit(reply == Ok, false))
  }

  datatype Event = Attempt(archive: Archive) | Answer(reply: Reply, n: nat) | Crash

  function Happen(s: State, e: Event): State {
    match e
    case Attempt(archive) =>
      if s.pc.Idle?
        || s.pc.Exit?
           then s.(pc := CheckBackup, archive := archive, had := false, before := Lookup(s.fs, Data),
             verified := false, run := History({}, Idle, false, false)) else s
    case Answer(reply, n) => if s.pc.Idle? || s.pc.Exit? then s else Next(s, reply, n).(run := Remember(s, reply))
    case Crash => s.(pc := Idle)
  }

  function After(s: State, events: seq<Event>): State {
    if events == [] then s else Happen(After(s, events[..|events| - 1]), events[|events| - 1])
  }

  // ---- Conservation ----

  // Content `c` is in the data directory or in a quarantine.
  ghost predicate Held(fs: Files, c: Content) {
    (Data in fs && fs[Data] == c) || exists a :: Backup(a) in fs && fs[Backup(a)] == c
  }

  // The attempt has put its own copy into the data directory.
  predicate Swapped(pc: Pc) {
    pc.StartServer? || pc.VerifySource? || pc.StopAgain? || pc.CheckFailed? || pc.CheckReplaced? || pc.Quarantine?
  }

  // What the attempt knows about the directories.
  predicate Knows(s: State) {
    var data, aside := Lookup(s.fs, Data), Lookup(s.fs, Backup(s.archive));
    match s.pc
    case Idle => true
    case CheckBackup => data == s.before && !s.verified
    case ClearStage => data == s.before && aside == None && !s.verified
    case StopServer => data == s.before && aside == None && !s.verified
    case TakeCopy => data == s.before && aside == None && !s.verified
    case CheckCopy => data == s.before && aside == None && !s.verified && Copied(s)
    case AddIdentity => data == s.before && aside == None && !s.verified && Copied(s)
    case CheckData => data == s.before && aside == None && !s.verified && Copied(s)
    case DropStage => Kept(s) && !s.verified
    case MoveAside => s.had && data == s.before && aside == None && !s.verified && Copied(s) && s.before.Some?
    case Activate => data == None && !s.verified && Copied(s)
      && (if s.had then aside == s.before && s.before.Some? else s.before == None)
    case MoveBack => s.had && aside == s.before && s.before.Some? && !s.verified
    case DropBackup => s.verified && s.replaced && data.Some? && data.value.Copy? && s.archive == Plain
      && s.before.Some? && aside == s.before
    case Restore => s.had && data == None && aside == s.before && s.before.Some? && !s.verified
    case Exit(ok, restored) =>
      && (!s.verified ==> Kept(s)) && (ok ==> s.verified)
      && (s.verified ==>
         s.replaced && data.Some? && data.value.Copy? && (s.before.Some? && s.archive != Plain ==> aside == s.before))
      && (restored ==> data == s.before)
    case _ =>
      && !s.verified && data.Some? && data.value.Copy?
      && (if s.had then aside == s.before && s.before.Some? else s.before == None)
  }

  predicate Copied(s: State) {
    Stage(s.archive) in s.fs && s.fs[Stage(s.archive)].Copy?
  }

  // What the data directory held when the attempt began is still there, or quarantined whole.
  predicate Kept(s: State) {
    s.before.Some? ==> Lookup(s.fs, Data) == s.before || Lookup(s.fs, Backup(s.archive)) == s.before
  }

  predicate Safe(p: Path) {
    p.Data? || p.Backup?
  }

  // A rename keeps held content held if it moves it to a safe place, or does not touch it.
  lemma RenameKeepsHeld(fs: Files, from: Path, to: Path, reply: Reply, c: Content)
    requires Held(fs, c)
    requires Safe(to) || from !in fs || fs[from] != c
    ensures Held(Renamed(fs, from, to, reply), c)
  {
    var b := Renamed(fs, from, to, reply);
    if Renames(fs, from, to, reply) {
      if fs[from] == c {
        assert b[to] == c;
        assert to.Data? || (to.Backup? && Backup(to.a) in b);
      } else if !(Data in fs && fs[Data] == c) {
        var a :| Backup(a) in fs && fs[Backup(a)] == c;
        assert Backup(a) in b && b[Backup(a)] == c;
      }
    }
  }

  // Removing or filling a staging directory keeps everything held.
  lemma StageKeepsHeld(fs: Files, b: Files, stage: Path, c: Content)
    requires Held(fs, c) && stage.Stage?
    requires forall p | p != stage :: (p in b <==> p in fs) && (p in fs ==> b[p] == fs[p])
    ensures Held(b, c)
  {
    if !(Data in fs && fs[Data] == c) {
      var a :| Backup(a) in fs && fs[Backup(a)] == c;
      assert Backup(a) in b && b[Backup(a)] == c;
    }
  }

  // Every operation but the final removal of the quarantine keeps the original held.
  lemma NextKeepsHeld(s: State, reply: Reply, n: nat)
    requires Knows(s) && Held(s.fs, Original) && !s.pc.DropBackup?
    ensures Held(Next(s, reply, n).fs, Original)
  {
    var stage, backup := Stage(s.archive), Backup(s.archive);
    match s.pc
    case ClearStage => StageKeepsHeld(s.fs, Removed(s.fs, stage, reply), stage, Original);
    case DropStage => StageKeepsHeld(s.fs, Removed(s.fs, stage, reply), stage, Original);
    case TakeCopy => StageKeepsHeld(s.fs, Next(s, reply, n).fs, stage, Original);
    case MoveAside => RenameKeepsHeld(s.fs, Data, backup, reply, Original);
    case Activate => RenameKeepsHeld(s.fs, stage, Data, reply, Original);
    case MoveBack => RenameKeepsHeld(s.fs, backup, Data, reply, Original);
    case Restore => RenameKeepsHeld(s.fs, backup, Data, reply, Original);
    case Quarantine => RenameKeepsHeld(s.fs, Data, Failed(s.archive), reply, Original);
    case _ =>
  }

  lemma EarlyKeepsKnows(s: State, reply: Reply, n: nat)
    requires Knows(s)
    requires s.pc.CheckBackup? || s.pc.ClearStage? || s.pc.StopServer? || s.pc.TakeCopy? || s.pc.CheckCopy?
             || s.pc.AddIdentity? || s.pc.DropStage? || s.pc.CheckData?
    ensures Knows(Next(s, reply, n))
  {}

  lemma SwapKeepsKnows(s: State, reply: Reply, n: nat)
    requires Knows(s)
             && (s.pc.MoveAside? || s.pc.Activate? || s.pc.MoveBack? || s.pc.Restore? || s.pc.Quarantine?
                || s.pc.DropBackup?)
    ensures Knows(Next(s, reply, n))
  {}

  lemma LateKeepsKnows(s: State, reply: Reply, n: nat)
    requires Knows(s) && Swapped(s.pc) && !s.pc.Quarantine?
    ensures Knows(Next(s, reply, n))
  {}

  lemma HappenKeepsKnows(s: State, e: Event)
    requires Knows(s)
    ensures Knows(Happen(s, e))
  {
    if e.Answer? && !s.pc.Idle? && !s.pc.Exit? {
      if s.pc.MoveAside? || s.pc.Activate? || s.pc.MoveBack? || s.pc.Restore? || s.pc.Quarantine? || s.pc.DropBackup? {
        SwapKeepsKnows(s, e.reply, e.n);
      } else if Swapped(s.pc) {
        LateKeepsKnows(s, e.reply, e.n);
      } else {
        EarlyKeepsKnows(s, e.reply, e.n);
      }
    }
  }

  predicate Start(s: State) {
    s.pc == Idle && !s.replaced && Data in s.fs && s.fs[Data] == Original
  }

  // Over every sequence of attempts, failures and crashes the original data is whole in the data
  // directory or in a quarantine until some attempt has verified its copy.
  lemma {:induction false} OriginalIsConserved(s: State, events: seq<Event>)
    requires Start(s)
    ensures Knows(After(s, events)) && (After(s, events).replaced || Held(After(s, events).fs, Original))
  {
    if events != [] {
      var a, e := After(s, events[..|events| - 1]), events[|events| - 1];
      OriginalIsConserved(s, events[..|events| - 1]);
      HappenKeepsKnows(a, e);
      if e.Answer? && !a.replaced && !a.pc.DropBackup? {
        NextKeepsHeld(a, e.reply, e.n);
      }
    }
  }

  // The only operation that can give the original up is the removal of the quarantine by an ordinary
  // attempt that moved the original aside itself and has verified its copy.
  lemma {:induction false} OriginalGivenUpOnlyVerified(s: State, events: seq<Event>, e: Event)
    requires Start(s)
    ensures var a := After(s, events);
            Held(a.fs, Original) && !Held(Happen(a, e).fs, Original) ==>
              a.pc == DropBackup && a.verified && a.archive == Plain && a.before == Some(Original) && Data in a.fs
                && a.fs[Data].Copy?
  {
    OriginalIsConserved(s, events);
    var a := After(s, events);
    if Held(a.fs, Original) && e.Answer? {
      if !a.pc.DropBackup? {
        NextKeepsHeld(a, e.reply, e.n);
      } else {
        var b := Happen(a, e);
        assert forall p | p != Backup(Plain) :: (p in b.fs <==> p in a.fs) && (p in a.fs ==> b.fs[p] == a.fs[p]);
        if !Held(b.fs, Original) {
          var x :| Backup(x) in a.fs && a.fs[Backup(x)] == Original;
          assert x == Plain;
        }
      }
    }
  }

  // What an attempt promises: until it has verified its copy, whatever the data directory held at its
  // beginning is whole; success leaves a verified copy, and the old data in a named archive; a report
  // of restored data is true.
  lemma {:induction false} AttemptKeepsItsPromise(s: State, events: seq<Event>)
    requires Start(s)
    ensures var t := After(s, events);
            && (!t.pc.Idle? && !t.verified ==> Kept(t))
            && (t.pc.Exit? && t.pc.ok ==> t.verified && Data in t.fs && t.fs[Data].Copy?)
            && (t.pc.Exit? && t.pc.ok && t.archive != Plain && t.before.Some? ==>
               Lookup(t.fs, Backup(t.archive)) == t.before)
            && (t.pc.Exit? && t.pc.restored ==> Lookup(t.fs, Data) == t.before)
  {
    OriginalIsConserved(s, events);
  }
}
