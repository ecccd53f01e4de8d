// What a durable receipt is worth: it only moves forward, a replayed answer is the answer of an
// execution of the same intent, and an answer given is an answer stored.
module AgentReceipts {
  import opened AgentLedger

  function StartedReceipt(command: Command, intent: Intent): File {
    Valid(Receipt(2, Fingerprint(2, command, intent), false, Response(false, 0)))
  }

  function CompletedReceipt(command: Command, intent: Intent, out: Response): File {
    Valid(Receipt(2, Fingerprint(2, command, intent), true, out))
  }

  predicate Completed2(file: File) {
    file.Valid? && file.receipt.version == 2 && file.receipt.completed
  }

  // The process created the receipt and has not completed it.
  predicate Works(p: Process) {
    p.pc.Write? || p.pc.Remove? || p.pc.SyncNew?
      || (!p.redo && (p.pc.Enter? || p.pc.CompleteLoad? || p.pc.CompleteWrite? || p.pc.Rename?))
  }

  // What a process that stands somewhere knows about the receipt file.
  predicate Pinned(command: Command, p: Process, s: State) {
    match p.pc
    case Create => !p.redo
    case Load => !p.redo
    case Blocked => true
    case Write => !p.redo && s.file == Garbled
    case Remove => !p.redo && (s.file == Garbled || s.file == StartedReceipt(command, p.intent))
    case SyncNew => !p.redo && s.file == StartedReceipt(command, p.intent)
    case ProbeVip(r) =>
      && !p.redo && Completed2(s.file) && s.file.receipt.response == r
      && Matches(s.file.receipt, command, p.intent)
    case Enter => if p.redo then Completed2(s.file) else s.file == StartedReceipt(command, p.intent)
    case CompleteLoad(out) =>
      if p.redo then Completed2(s.file) else s.file == StartedReceipt(command, p.intent) && Run(p.intent, out) in s.runs
    case CompleteWrite(out) => !p.redo && s.file == StartedReceipt(command, p.intent) && Run(p.intent, out) in s.runs
    case Rename(out) => !p.redo && s.file == StartedReceipt(command, p.intent) && Run(p.intent, out) in s.runs
    case SyncDone(out) => !p.redo && s.file == CompletedReceipt(command, p.intent, out)
    case Finished(out) =>
      if p.redo then Completed2(s.file)
      else s.file == CompletedReceipt(command, p.intent, out) && s.durable == s.file
    case Replayed(r) =>
      && s.file.Valid? && s.file.receipt.completed && s.file.receipt.response == r
      && Matches(s.file.receipt, command, p.intent)
  }

  // A completed receipt was there from the start or holds the answer of an execution of its intent.
  ghost predicate Genuine(command: Command, init: File, file: File, runs: set<Run>) {
    file.Valid? && file != init ==>
      && file.receipt.version == 2
      && (file.receipt.completed ==> exists run | run in runs ::
            run.response == file.receipt.response && file.receipt.digest == Fingerprint(2, command, run.intent))
  }

  ghost predicate Settled(command: Command, init: File, s: State) {
    && (forall t | t in s.processes :: Pinned(command, s.processes[t], s))
    && (forall t, u | t in s.processes && u in s.processes && Works(s.processes[t]) && Works(s.processes[u]) :: t == u)
    && Genuine(command, init, s.file, s.runs) && Genuine(command, init, s.durable, s.runs)
  }

  // A process that neither created the receipt nor finds it missing leaves it alone.
  lemma OnlyWorkersWrite(command: Command, init: File, s: State, t: nat, choice: Choice)
    requires !LegacyVip(init, command) && Settled(command, init, s) && t in s.processes
    requires !Works(s.processes[t]) && !(s.processes[t].pc.Create? && s.file == Absent)
    ensures Step(command, s, t, choice).file == s.file
  {}

  // The process has not reached the command switch.
  predicate Begins(pc: Pc) {
    pc.Create? || pc.Write? || pc.Remove? || pc.SyncNew? || pc.Load? || pc.ProbeVip?
  }

  // It is about to create the receipt, or has created it.
  predicate Creates(pc: Pc) {
    pc.Create? || pc.Write? || pc.Remove? || pc.SyncNew?
  }

  // The stepping process knows the new receipt.
  lemma CreatePins(command: Command, s: State, t: nat, choice: Choice)
    requires t in s.processes && Pinned(command, s.processes[t], s) && !LegacyVip(s.file, command)
    requires Begins(s.processes[t].pc)
    requires Creates(s.processes[t].pc)
    ensures var b := Step(command, s, t, choice); t in b.processes && Pinned(command, b.processes[t], b)
  {}

  lemma FindPins(command: Command, s: State, t: nat, choice: Choice)
    requires t in s.processes && Pinned(command, s.processes[t], s) && !LegacyVip(s.file, command)
    requires Begins(s.processes[t].pc)
    requires !Creates(s.processes[t].pc)
    ensures var b := Step(command, s, t, choice); t in b.processes && Pinned(command, b.processes[t], b)
  {}

  lemma BeginPins(command: Command, s: State, t: nat, choice: Choice)
    requires t in s.processes && Pinned(command, s.processes[t], s) && !LegacyVip(s.file, command)
    requires Begins(s.processes[t].pc)
    ensures var b := Step(command, s, t, choice); t in b.processes && Pinned(command, b.processes[t], b)
  {
    if Creates(s.processes[t].pc) {
      CreatePins(command, s, t, choice);
    } else {
      FindPins(command, s, t, choice);
    }
  }

  lemma LoadPins(command: Command, s: State, t: nat, choice: Choice)
    requires t in s.processes && Pinned(command, s.processes[t], s) && !LegacyVip(s.file, command)
    requires !Begins(s.processes[t].pc)
    requires s.processes[t].pc.Enter? || s.processes[t].pc.CompleteLoad?
    ensures var b := Step(command, s, t, choice); t in b.processes && Pinned(command, b.processes[t], b)
  {}

  lemma PublishPins(command: Command, s: State, t: nat, choice: Choice)
    requires t in s.processes && Pinned(command, s.processes[t], s) && !LegacyVip(s.file, command)
    requires !Begins(s.processes[t].pc)
    requires !(s.processes[t].pc.Enter? || s.processes[t].pc.CompleteLoad?)
    ensures var b := Step(command, s, t, choice); t in b.processes && Pinned(command, b.processes[t], b)
  {}

  lemma CompletePins(command: Command, s: State, t: nat, choice: Choice)
    requires t in s.processes && Pinned(command, s.processes[t], s) && !LegacyVip(s.file, command)
    requires !Begins(s.processes[t].pc)
    ensures var b := Step(command, s, t, choice); t in b.processes && Pinned(command, b.processes[t], b)
  {
    if s.processes[t].pc.Enter? || s.processes[t].pc.CompleteLoad? {
      LoadPins(command, s, t, choice);
    } else {
      PublishPins(command, s, t, choice);
    }
  }

  lemma StepPins(command: Command, init: File, s: State, t: nat, choice: Choice)
    requires !LegacyVip(init, command) && Settled(command, init, s) && t in s.processes
    ensures var b := Step(command, s, t, choice); t in b.processes && Pinned(command, b.processes[t], b)
  {
    if Begins(s.processes[t].pc) {
      BeginPins(command, s, t, choice);
    } else {
      CompletePins(command, s, t, choice);
    }
  }

  // A second process cannot know anything about a receipt that is missing or being worked on.
  lemma NobodyElseHolds(command: Command, init: File, s: State, t: nat, u: nat)
    requires Settled(command, init, s) && t in s.processes && u in s.processes && t != u
    requires Works(s.processes[t]) || s.file == Absent
    ensures s.processes[u].pc.Create? || s.processes[u].pc.Load? || s.processes[u].pc.Blocked?
  {
    assert Pinned(command, s.processes[u], s);
    if Works(s.processes[t]) {
      assert Pinned(command, s.processes[t], s);
    }
  }

  predicate Grows(s: State, b: State, t: nat) {
    && t in b.processes && b.processes == s.processes[t := b.processes[t]] && s.runs <= b.runs
    && (b.durable == s.durable || b.durable == b.file)
  }

  lemma StepGrows(command: Command, s: State, t: nat, choice: Choice)
    requires t in s.processes
    ensures Grows(s, Step(command, s, t, choice), t)
  {}

  lemma OthersStayPinned(command: Command, init: File, s: State, b: State, t: nat, u: nat)
    requires Settled(command, init, s) && t in s.processes && u in s.processes && t != u && Grows(s, b, t)
    requires b.file == s.file || Works(s.processes[t]) || s.file == Absent
    ensures Pinned(command, b.processes[u], b)
  {
    assert Pinned(command, s.processes[u], s);
    if b.file != s.file {
      NobodyElseHolds(command, init, s, t, u);
    }
  }

  // Only the creation of a missing receipt makes a new worker.
  lemma BeginMakesNoWorker(command: Command, s: State, t: nat, choice: Choice)
    requires t in s.processes
    requires !Works(s.processes[t]) && !(s.processes[t].pc.Create? && s.file == Absent)
    requires Begins(s.processes[t].pc)
    ensures !Works(Step(command, s, t, choice).processes[t])
  {}

  lemma CompleteMakesNoWorker(command: Command, s: State, t: nat, choice: Choice)
    requires t in s.processes
    requires !Works(s.processes[t]) && !(s.processes[t].pc.Create? && s.file == Absent)
    requires !(Begins(s.processes[t].pc))
    ensures !Works(Step(command, s, t, choice).processes[t])
  {}

  lemma StepMakesNoWorker(command: Command, s: State, t: nat, choice: Choice)
    requires t in s.processes
    requires !Works(s.processes[t]) && !(s.processes[t].pc.Create? && s.file == Absent)
    ensures !Works(Step(command, s, t, choice).processes[t])
  {
    if Begins(s.processes[t].pc) {
      BeginMakesNoWorker(command, s, t, choice);
    } else {
      CompleteMakesNoWorker(command, s, t, choice);
    }
  }

  lemma StepStaysGenuine(command: Command, init: File, s: State, t: nat, choice: Choice)
    requires !LegacyVip(init, command) && Settled(command, init, s) && t in s.processes
    ensures var b := Step(command, s, t, choice);
            Genuine(command, init, b.file, b.runs) && Genuine(command, init, b.durable, b.runs)
  {
    var b := Step(command, s, t, choice);
    assert Pinned(command, s.processes[t], s);
    if s.processes[t].pc.Rename? && b.file != s.file {
      assert Run(s.processes[t].intent, s.processes[t].pc.out) in b.runs;
    }
  }

  lemma StepKeepsSettled(command: Command, init: File, s: State, t: nat, choice: Choice)
    requires !LegacyVip(init, command) && Settled(command, init, s) && t in s.processes
    ensures Settled(command, init, Step(command, s, t, choice))
  {
    var b := Step(command, s, t, choice);
    StepGrows(command, s, t, choice);
    StepPins(command, init, s, t, choice);
    StepStaysGenuine(command, init, s, t, choice);
    if !Works(s.processes[t]) && !(s.processes[t].pc.Create? && s.file == Absent) {
      OnlyWorkersWrite(command, init, s, t, choice);
      StepMakesNoWorker(command, s, t, choice);
    }
    WorkersStayUnique(command, init, s, b, t);
    forall u | u in b.processes
      ensures Pinned(command, b.processes[u], b)
    {
      if u != t {
        OthersStayPinned(command, init, s, b, t, u);
      }
    }
  }

  lemma WorkersStayUnique(command: Command, init: File, s: State, b: State, t: nat)
    requires Settled(command, init, s) && t in s.processes && Grows(s, b, t)
    requires Works(b.processes[t]) ==> Works(s.processes[t]) || s.file == Absent
    ensures forall u, v | u in b.processes && v in b.processes && Works(b.processes[u]) && Works(b.processes[v]) ::
            u == v
  {
    if Works(b.processes[t]) {
      forall u | u in s.processes && u != t
        ensures !Works(b.processes[u])
      {
        NobodyElseHolds(command, init, s, t, u);
      }
    }
  }

  // Fewer processes, or the same ones with a safer receipt, know no more than before.
  lemma FewerStaySettled(command: Command, init: File, s: State, b: State)
    requires Settled(command, init, s) && b.file == s.file && b.runs == s.runs
             && (b.durable == s.durable || b.durable == s.file)
    requires forall t | t in b.processes :: t in s.processes && b.processes[t] == s.processes[t]
    ensures Settled(command, init, b)
  {
    forall t | t in b.processes
      ensures Pinned(command, b.processes[t], b)
    {
      assert Pinned(command, s.processes[t], s);
    }
  }

  lemma ArrivalKeepsSettled(command: Command, init: File, s: State, t: nat, intent: Intent)
    requires Settled(command, init, s)
    ensures Settled(command, init, Happen(command, s, Arrive(t, intent)))
  {
    var b := Happen(command, s, Arrive(t, intent));
    forall u | u in b.processes
      ensures Pinned(command, b.processes[u], b)
    {
      assert u in s.processes ==> Pinned(command, s.processes[u], s);
    }
  }

  lemma OutsideKeepsSettled(command: Command, init: File, s: State, e: Event)
    requires Settled(command, init, s) && !e.Move?
    ensures Settled(command, init, Happen(command, s, e))
  {
    if e.Arrive? {
      ArrivalKeepsSettled(command, init, s, e.t, e.intent);
    } else if !e.PowerLoss? {
      FewerStaySettled(command, init, s, Happen(command, s, e));
    }
  }

  lemma HappenKeepsSettled(command: Command, init: File, s: State, e: Event)
    requires !LegacyVip(init, command) && Settled(command, init, s)
    ensures Settled(command, init, Happen(command, s, e))
  {
    if !e.Move? {
      OutsideKeepsSettled(command, init, s, e);
    } else if e.t in s.processes {
      StepKeepsSettled(command, init, s, e.t, e.choice);
    }
  }

  lemma {:induction false} AfterIsSettled(command: Command, s: State, events: seq<Event>)
    requires Start(s) && !LegacyVip(s.file, command)
    ensures Settled(command, s.file, After(command, s, events))
  {
    if events != [] {
      AfterIsSettled(command, s, events[..|events| - 1]);
      HappenKeepsSettled(command, s.file, After(command, s, events[..|events| - 1]), events[|events| - 1]);
    }
  }

  // How the visible receipt may change while power lasts: created, written, given up by its creator,
  // or completed for the same intent. A completed receipt never changes.
  predicate Forward(f: File, g: File) {
    || g == f
    || (f == Absent && g == Garbled)
    || (f == Garbled && g.Valid? && g.receipt.version == 2 && !g.receipt.completed)
    || (f == Garbled && g == Absent)
    || (f.Valid? && f.receipt.version == 2 && !f.receipt.completed && g == Absent)
    || (f.Valid? && !f.receipt.completed && Completed2(g) && f.receipt.version == 2
       && g.receipt.digest == f.receipt.digest)
  }

  lemma WorkerMovesForward(command: Command, s: State, t: nat, choice: Choice)
    requires t in s.processes && Pinned(command, s.processes[t], s)
    requires Works(s.processes[t]) || s.file == Absent
    ensures Forward(s.file, Step(command, s, t, choice).file)
  {}

  lemma {:induction false} ReceiptMovesForward(command: Command, s: State, events: seq<Event>, e: Event)
    requires Start(s) && !LegacyVip(s.file, command) && !e.PowerLoss?
    ensures var a := After(command, s, events);
            Forward(a.file, Happen(command, a, e).file) && (Completed2(a.file) ==> Happen(command, a, e).file == a.file)
  {
    AfterIsSettled(command, s, events);
    var a := After(command, s, events);
    if e.Move? && e.t in a.processes {
      if Works(a.processes[e.t]) || a.file == Absent {
        WorkerMovesForward(command, a, e.t, e.choice);
        assert Pinned(command, a.processes[e.t], a);
      } else {
        OnlyWorkersWrite(command, s.file, a, e.t, e.choice);
      }
    }
  }

  // Two requests carry the same intent: all fields agree, and the lease too unless it is a VIP command.
  predicate SameIntent(command: Command, a: Intent, b: Intent) {
    a.fields == b.fields && (a.lease == b.lease || Vip(command))
  }

  // A replayed answer was stored for a matching intent before the first request, or is the answer of an
  // execution of the same intent.
  lemma {:induction false} ReplayIsGenuine(command: Command, s: State, events: seq<Event>, t: nat, answer: Response)
    requires Start(s) && !LegacyVip(s.file, command)
    requires var a := After(command, s, events); t in a.processes && a.processes[t].pc == Replayed(answer)
    ensures var a := After(command, s, events);
            || (s.file.Valid? && s.file.receipt.completed && s.file.receipt.response == answer
                && Matches(s.file.receipt, command, a.processes[t].intent))
            || (exists run | run in a.runs ::
               run.response == answer && SameIntent(command, run.intent, a.processes[t].intent))
  {
    AfterIsSettled(command, s, events);
    var a := After(command, s, events);
    assert Pinned(command, a.processes[t], a);
    if a.file != s.file {
      var run :| run in a.runs && run.response == a.file.receipt.response
        && a.file.receipt.digest == Fingerprint(2, command, run.intent);
      assert SameIntent(command, run.intent, a.processes[t].intent);
    }
  }

  // The answer of the process that executed the command first is stored where power loss cannot
  // reach it before it is given.
  lemma {:induction false} AnswerIsStored(command: Command, s: State, events: seq<Event>, t: nat, answer: Response)
    requires Start(s) && !LegacyVip(s.file, command)
    requires var a := After(command, s, events);
             t in a.processes && a.processes[t].pc == Finished(answer) && !a.processes[t].redo
    ensures var a := After(command, s, events);
            a.durable == CompletedReceipt(command, a.processes[t].intent, answer) && a.file == a.durable
  {
    AfterIsSettled(command, s, events);
    var a := After(command, s, events);
    assert Pinned(command, a.processes[t], a);
  }

  // Whoever replays a successful VIP answer has seen the VIP where the command wanted it.
  ghost predicate Convinced(command: Command, s: State) {
    forall t | t in s.processes && s.processes[t].pc.Replayed? && s.processes[t].pc.out.ok ::
      s.processes[t].saw == Some(command == VipAcquire)
  }

  lemma HappenKeepsConvinced(command: Command, s: State, e: Event)
    requires Vip(command) && Convinced(command, s)
    ensures Convinced(command, Happen(command, s, e))
  {
    if e.Move? && e.t in s.processes {
      StepGrows(command, s, e.t, e.choice);
      StepConvinces(command, s, e.t, e.choice);
    }
  }

  lemma StepConvinces(command: Command, s: State, t: nat, choice: Choice)
    requires Vip(command) && t in s.processes
    ensures var p, q := s.processes[t], Step(command, s, t, choice).processes[t];
            q.pc.Replayed? && q.pc.out.ok && q.pc != p.pc ==> q.saw == Some(command == VipAcquire)
    ensures s.processes[t].pc.Replayed? ==> Step(command, s, t, choice).processes[t] == s.processes[t]
  {}

  // Over every interleaving a successful VIP answer is replayed only by a process whose status read
  // showed the VIP where the command wanted it, whatever receipt was there before.
  lemma {:induction false} VipReplayIsTrue(command: Command, s: State, events: seq<Event>)
    requires Start(s) && Vip(command)
    ensures Convinced(command, After(command, s, events))
  {
    if events != [] {
      VipReplayIsTrue(command, s, events[..|events| - 1]);
      HappenKeepsConvinced(command, After(command, s, events[..|events| - 1]), events[|events| - 1]);
    }
  }

  // A process one of whose operations failed is blocked, or about to remove the receipt it could not write.
  ghost predicate FailsClosed(s: State) {
    forall t | t in s.processes && s.processes[t].fault :: s.processes[t].pc.Blocked? || s.processes[t].pc.Remove?
  }

  lemma StepFailsClosed(command: Command, s: State, t: nat, choice: Choice)
    requires t in s.processes && FailsClosed(s)
    ensures var q := Step(command, s, t, choice).processes[t]; q.fault ==> q.pc.Blocked? || q.pc.Remove?
  {}

  // Over every interleaving: no process gives an answer, executes the command or publishes a receipt after
  // one of its own operations failed.
  lemma {:induction false} NoAnswerAfterFailure(command: Command, s: State, events: seq<Event>)
    requires Start(s)
    ensures FailsClosed(After(command, s, events))
  {
    if events != [] {
      var a, e := After(command, s, events[..|events| - 1]), events[|events| - 1];
      NoAnswerAfterFailure(command, s, events[..|events| - 1]);
      if e.Move? && e.t in a.processes {
        StepGrows(command, a, e.t, e.choice);
        StepFailsClosed(command, a, e.t, e.choice);
      }
    }
  }

  // ---- Receipts of an older agent ----

  lemma {:induction false} AfterAppend(command: Command, s: State, before: seq<Event>, after: seq<Event>)
    ensures After(command, s, before + after) == After(command, After(command, s, before), after)
  {
    if after == [] {
      assert before + after == before;
    } else {
      assert (before + after)[..|before + after| - 1] == before + after[..|after| - 1];
      AfterAppend(command, s, before, after[..|after| - 1]);
    }
  }

  function Fine(out: Response): Choice {
    Choice(Ok, out, false)
  }

  // One process repeats a VIP command up to the point where it publishes its receipt.
  function Redo(t: nat, out: Response): seq<Event> {
    [Arrive(t, Intent(0, 0)), Move(t, Fine(out)), Move(t, Fine(out)), Move(t, Fine(out)), Move(t, Fine(out)),
      Move(t, Fine(out)), Move(t, Fine(out))]
  }

  lemma {:induction false} Unroll(command: Command, s: State, events: seq<Event>, n: nat)
    requires 0 < n <= |events|
    ensures After(command, s, events[..n]) == Happen(command, After(command, s, events[..n - 1]), events[n - 1])
  {
    assert events[..n][..n - 1] == events[..n - 1];
  }

  // The process stands at `pc` and nothing else has changed.
  predicate Stands(s: State, b: State, t: nat, pc: Pc, redo: bool) {
    && b.processes == s.processes[t := Process(Intent(0, 0), pc, redo, if redo then Some(s.owned) else None, false)]
    && b.file == s.file && b.owned == s.owned
  }

  lemma RedoStep(command: Command, s: State, b: State, t: nat, out: Response)
    requires LegacyVip(s.file, command) && s.owned != (command == VipAcquire)
    ensures Stands(s, b, t, Create, false) ==> Stands(s, Happen(command, b, Move(t, Fine(out))), t, Load, false)
    ensures Stands(s, b, t, Load, false) ==>
            Stands(s, Happen(command, b, Move(t, Fine(out))), t, ProbeVip(s.file.receipt.response), false)
    ensures Stands(s, b, t, ProbeVip(s.file.receipt.response), false) ==>
            Stands(s, Happen(command, b, Move(t, Fine(out))), t, Enter, true)
    ensures Stands(s, b, t, Enter, true) ==>
            Stands(s, Happen(command, b, Move(t, Fine(out))), t, CompleteLoad(out), true)
    ensures Stands(s, b, t, CompleteLoad(out), true) ==>
            Stands(s, Happen(command, b, Move(t, Fine(out))), t, CompleteWrite(out), true)
    ensures Stands(s, b, t, CompleteWrite(out), true) ==>
            Stands(s, Happen(command, b, Move(t, Fine(out))), t, Rename(out), true)
  {}

  lemma RedoReachesRename(command: Command, s: State, t: nat, out: Response)
    requires LegacyVip(s.file, command) && s.owned != (command == VipAcquire) && t !in s.processes
    ensures Stands(s, After(command, s, Redo(t, out)), t, Rename(out), true)
  {
    var events := Redo(t, out);
    Unroll(command, s, events, 1);
    assert Stands(s, After(command, s, events[..1]), t, Create, false);
    for n := 1 to 7
      invariant Stands(s, After(command, s, events[..n]), t,
                       [Create, Load, ProbeVip(s.file.receipt.response), Enter, CompleteLoad(out), CompleteWrite(out),
                         Rename(out)][n - 1], n > 3)
    {
      Unroll(command, s, events, n + 1);
      RedoStep(command, s, After(command, s, events[..n]), t, out);
    }
    assert events[..7] == events;
  }

  // A completed current receipt whose stored answer changes although power lasts.
  ghost predicate CanChange(command: Command, init: File) {
    exists s, events, e :: Start(s) && s.file == init && Rewrites(command, s, events, e)
  }

  predicate Rewrites(command: Command, s: State, events: seq<Event>, e: Event) {
    var a := After(command, s, events);
    !e.PowerLoss? && Completed2(a.file) && Happen(command, a, e).file != a.file
  }

  // Two concurrent processes repeat a VIP command recorded by an older agent and are both about to
  // publish a receipt.
  lemma TwoRepeat(command: Command, s: State, one: Response, two: Response) returns (events: seq<Event>)
    requires LegacyVip(s.file, command) && s.processes == map[] && s.owned != (command == VipAcquire)
    ensures var b := After(command, s, events);
            && 0 in b.processes && b.processes[0].pc == Rename(one) && 1 in b.processes
               && b.processes[1].pc == Rename(two)
  {
    RedoReachesRename(command, s, 0, one);
    RedoReachesRename(command, After(command, s, Redo(0, one)), 1, two);
    AfterAppend(command, s, Redo(0, one), Redo(1, two));
    events := Redo(0, one) + Redo(1, two);
  }

  lemma PublishCompletes(command: Command, s: State, t: nat, out: Response)
    requires t in s.processes && s.processes[t].pc == Rename(out)
    ensures var b := Happen(command, s, Move(t, Fine(out)));
            && Completed2(b.file) && b.file.receipt.response == out
            && forall u | u in s.processes && u != t :: u in b.processes && b.processes[u] == s.processes[u]
  {}

  // The second one replaces the answer of the first.
  lemma LegacyRaces(command: Command, init: File)
    requires LegacyVip(init, command)
    ensures CanChange(command, init)
  {
    var s := State(init, init, map[], command != VipAcquire, 0, {});
    var one, two := Response(true, 1), Response(true, 2);
    var events := TwoRepeat(command, s, one, two);
    var b := After(command, s, events);
    var publish := Move(0, Fine(one));
    PublishCompletes(command, b, 0, one);
    PublishCompletes(command, Happen(command, b, publish), 1, two);
    assert (events + [publish])[..|events|] == events;
    assert Rewrites(command, s, events + [publish], Move(1, Fine(two)));
    assert Start(s) && s.file == init;
  }

  // The answer in a completed current receipt can change if and only if the key is a VIP command whose
  // receipt was left completed and successful by an older agent.
  lemma {:induction false} ReceiptChangesIffLegacy(command: Command, init: File)
    ensures CanChange(command, init) <==> LegacyVip(init, command)
  {
    if LegacyVip(init, command) {
      LegacyRaces(command, init);
    } else {
      forall s, events, e | Start(s) && s.file == init
        ensures !Rewrites(command, s, events, e)
      {
        if !e.PowerLoss? {
          ReceiptMovesForward(command, s, events, e);
        }
      }
    }
  }
}
