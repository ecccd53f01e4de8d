// The agent's command handler and its durable receipts, for one receipt key (cluster, instance,
// operation, command): any number of concurrent agent processes, killed anywhere, and power loss.
module AgentLedger {
  datatype Option<T> = None | Some(value: T)

  // How a file operation ends: success, failure after taking effect, failure without effect.
  datatype Reply = Ok | ErrAfter | ErrBefore

  // The key's command: acquiring or releasing the VIP, or anything else.
  datatype Command = VipAcquire | VipRelease | Other

  // What a signed request says beyond its key: the lease, and all other intent fields.
  datatype Intent = Intent(lease: nat, fields: nat)

  datatype Response = Response(ok: bool, text: nat)

  predicate Vip(command: Command) {
    command != Other
  }

  // The fingerprint of a request is an injective digest of its intent. From version 2 on the intent of
  // a VIP command leaves out the short-lived lease.
  datatype Digest = Digest(lease: Option<nat>, fields: nat)

  function Fingerprint(version: nat, command: Command, intent: Intent): Digest {
    Digest(if version >= 2 && Vip(command) then None else Some(intent.lease), intent.fields)
  }

  datatype Receipt = Receipt(version: nat, digest: Digest, completed: bool, response: Response)

  // The receipt file: missing, empty or unreadable, or valid.
  datatype File = Absent | Garbled | Valid(receipt: Receipt)

  // Whether an existing receipt belongs to the same intent.
  predicate Matches(existing: Receipt, command: Command, intent: Intent) {
    if existing.version == 2 then existing.digest == Fingerprint(2, command, intent)
    else
      && existing.version == 1
      && (|| existing.digest == Fingerprint(1, command, intent)
          || (existing.completed && existing.response.ok && Vip(command)))
  }

  // A legacy receipt of a finished, successful VIP command.
  predicate LegacyVip(file: File, command: Command) {
    && file.Valid? && file.receipt.version == 1 && file.receipt.completed && file.receipt.response.ok && Vip(command)
  }

  // Where a process stands. `Enter` is the entry of the command switch.
  datatype Pc =
    | Create | Write | Remove | SyncNew | Load | ProbeVip(replay: Response)
    | Enter | CompleteLoad(out: Response) | CompleteWrite(out: Response)
    | Rename(out: Response) | SyncDone(out: Response)
    | Finished(out: Response) | Replayed(out: Response) | Blocked

  // `redo`: the process repeats a VIP command whose receipt was found completed; `saw`: the ownership
  // of the VIP its status read has shown; `fault`: one of its operations failed.
  datatype Process = Process(intent: Intent, pc: Pc, redo: bool, saw: Option<bool>, fault: bool)

  // Executing the command has an answer of its own; a receipt that exists already is no failure.
  predicate Fails(s: State, pc: Pc, reply: Reply) {
    match pc
    case Create => s.file == Absent && reply == ErrBefore
    case Enter => false
    case _ => reply != Ok
  }

  // One execution of the command switch and what it answered.
  datatype Run = Run(intent: Intent, response: Response)

  // The visible and the power-loss-proof receipt, the running processes, who holds the VIP, how often
  // the switch was entered, and the finished executions.
  datatype State = State(file: File, durable: File, processes: map<nat, Process>, owned: bool, entered: nat,
    runs: set<Run>)

  // What a step of a process may meet: the end of a file operation, and for the command switch either
  // an answer or an early return that leaves the receipt as it is.
  datatype Choice = Choice(reply: Reply, response: Response, early: bool)

  function At(s: State, t: nat, p: Process): State {
    s.(processes := s.processes[t := p])
  }

  // Reading an existing receipt when beginning a mutation.
  function Found(s: State, command: Command, p: Process): Process {
    if !s.file.Valid? || !Matches(s.file.receipt, command, p.intent) || !s.file.receipt.completed then p.(pc := Blocked)
    else if Vip(command) && s.file.receipt.response.ok then p.(pc := ProbeVip(s.file.receipt.response))
    else p.(pc := Replayed(s.file.receipt.response))
  }

  // Reading the receipt again when completing it.
  function Completing(s: State, command: Command, p: Process, out: Response): Process {
    if !s.file.Valid? || !Matches(s.file.receipt, command, p.intent) then p.(pc := Blocked)
    else if s.file.receipt.completed && s.file.receipt.version == 2 then p.(pc := Finished(out))
    else if s.file.receipt.completed && !LegacyVip(s.file, command) then p.(pc := Blocked)
    else p.(pc := CompleteWrite(out))
  }

  // One step of process `t`.
  function Step(command: Command, s: State, t: nat, choice: Choice): State
    requires t in s.processes
  {
    var p := s.processes[t].(fault := s.processes[t].fault || Fails(s, s.processes[t].pc, choice.reply));
    match p.pc
    case Create =>
      if s.file != Absent then At(s, t, p.(pc := Load))
      else if choice.reply == ErrBefore then At(s, t, p.(pc := Blocked))
      else At(s.(file := Garbled), t, p.(pc := Write))
    case Write =>
      var file := if choice.reply == ErrBefore then Garbled
        else Valid(Receipt(2, Fingerprint(2, command, p.intent), false, Response(false, 0)));
      At(s.(file := file), t, p.(pc := if choice.reply == Ok then SyncNew else Remove))
    case Remove => At(s.(file := if choice.reply == ErrBefore then s.file else Absent), t, p.(pc := Blocked))
    case SyncNew =>
      At(s.(durable := if choice.reply == ErrBefore then s.durable else s.file), t,
        p.(pc := if choice.reply == Ok then Enter else Blocked))
    case Load => At(s, t, if choice.reply == Ok then Found(s, command, p) else p.(pc := Blocked))
    case ProbeVip(replay) =>
      if choice.reply != Ok then At(s, t, p.(pc := Blocked))
      else if s.owned == (command == VipAcquire) then At(s, t, p.(pc := Replayed(replay), saw := Some(s.owned)))
      else At(s, t, p.(pc := Enter, redo := true, saw := Some(s.owned)))
    case Enter =>
      if choice.early then At(s.(entered := s.entered + 1), t, p.(pc := Blocked))
      else At(s.(entered := s.entered + 1, runs := s.runs + {Run(p.intent, choice.response)}), t,
        p.(pc := CompleteLoad(choice.response)))
    case CompleteLoad(out) => At(s, t, if choice.reply == Ok then Completing(s, command, p, out) else p.(pc := Blocked))
    case CompleteWrite(out) => At(s, t, p.(pc := if choice.reply == Ok then Rename(out) else Blocked))
    case Rename(out) =>
      At(s.(file := if choice.reply == ErrBefore then s.file
        else Valid(Receipt(2, Fingerprint(2, command, p.intent), true, out))), t,
         p.(pc := if choice.reply == Ok then SyncDone(out) else Blocked))
    case SyncDone(out) =>
      At(s.(durable := if choice.reply == ErrBefore then s.durable else s.file), t,
        p.(pc := if choice.reply == Ok then Finished(out) else Blocked))
    case Finished(_) => s
    case Replayed(_) => s
    case Blocked => s
  }

  // A request arrives, a process steps or is killed, another key's process syncs the directory, the
  // VIP moves, or power is lost: all processes vanish and an unsynced change may be undone.
  datatype Event =
    | Arrive(t: nat, intent: Intent) | Move(t: nat, choice: Choice) | Kill(t: nat)
    | DirectorySync | VipMoves(owned: bool) | PowerLoss(undo: bool)

  function Happen(command: Command, s: State, e: Event): State {
    match e
    case Arrive(t, intent) => if t in s.processes then s else At(s, t, Process(intent, Create, false, None, false))
    case Move(t, choice) => if t in s.processes then Step(command, s, t, choice) else s
    case Kill(t) => s.(processes := s.processes - {t})
    case DirectorySync => s.(durable := s.file)
    case VipMoves(owned) => s.(owned := owned)
    case PowerLoss(undo) =>
      (var file := if undo then s.durable else s.file; s.(file := file, durable := file, processes := map[]))
  }

  function After(command: Command, s: State, events: seq<Event>): State {
    if events == [] then s else Happen(command, After(command, s, events[..|events| - 1]), events[|events| - 1])
  }

  // Where the agent starts: no process, nothing executed; the receipt may be anything an earlier
  // agent left behind.
  predicate Start(s: State) {
    s.processes == map[] && s.durable == s.file && s.entered == 0 && s.runs == {}
  }

  // ---- At most once ----

  // The process has claimed the key by creating its receipt, and may still enter the switch.
  predicate Claims(pc: Pc) {
    pc.Write? || pc.Remove? || pc.SyncNew? || pc.Enter?
  }

  predicate Completes(pc: Pc) {
    pc.CompleteLoad? || pc.CompleteWrite? || pc.Rename? || pc.SyncDone?
  }

  ghost predicate Once(s: State) {
    && s.entered <= 1
    && (s.entered == 1 ==> s.file != Absent && s.durable != Absent)
    && (forall t | t in s.processes && Claims(s.processes[t].pc) ::
          s.entered == 0 && s.file != Absent && (s.processes[t].pc.Enter? ==> s.durable != Absent))
    && (forall t, u | t in s.processes && u in s.processes && Claims(s.processes[t].pc) && Claims(s.processes[u].pc) ::
       t == u)
    && (forall t | t in s.processes ::
       !s.processes[t].pc.ProbeVip? && (Completes(s.processes[t].pc) ==> s.entered == 1))
  }

  // Beginning a mutation: only one process can create the receipt.
  lemma CreateKeepsOnce(s: State, t: nat, choice: Choice)
    requires Once(s) && t in s.processes
    requires var pc := s.processes[t].pc; pc.Create? || pc.Write? || pc.Remove? || pc.SyncNew?
    requires s.processes[t].pc.Create? || s.processes[t].pc.SyncNew?
    ensures Once(Step(Other, s, t, choice))
  {}

  lemma WriteKeepsOnce(s: State, t: nat, choice: Choice)
    requires Once(s) && t in s.processes
    requires var pc := s.processes[t].pc; pc.Create? || pc.Write? || pc.Remove? || pc.SyncNew?
    requires !(s.processes[t].pc.Create? || s.processes[t].pc.SyncNew?)
    ensures Once(Step(Other, s, t, choice))
  {}

  lemma BeginKeepsOnce(s: State, t: nat, choice: Choice)
    requires Once(s) && t in s.processes
    requires var pc := s.processes[t].pc; pc.Create? || pc.Write? || pc.Remove? || pc.SyncNew?
    ensures Once(Step(Other, s, t, choice))
  {
    if s.processes[t].pc.Create? || s.processes[t].pc.SyncNew? {
      CreateKeepsOnce(s, t, choice);
    } else {
      WriteKeepsOnce(s, t, choice);
    }
  }

  lemma EnterKeepsOnce(s: State, t: nat, choice: Choice)
    requires Once(s) && t in s.processes && s.processes[t].pc.Enter?
    ensures Once(Step(Other, s, t, choice))
  {}

  // The steps of a process without a claim: they claim nothing and remove nothing.
  predicate Harmless(s: State, b: State, t: nat) {
    && t in s.processes && t in b.processes && b.processes == s.processes[t := b.processes[t]]
    && !Claims(b.processes[t].pc) && !b.processes[t].pc.ProbeVip?
       && (Completes(b.processes[t].pc) ==> Completes(s.processes[t].pc))
    && b.entered == s.entered && (b.file == Absent <==> s.file == Absent)
       && (b.durable == s.durable || b.durable == b.file)
  }

  lemma CompleteIsHarmless(s: State, t: nat, choice: Choice)
    requires t in s.processes
    requires var pc := s.processes[t].pc; !Claims(pc) && !pc.Create? && !pc.ProbeVip?
    requires s.processes[t].pc.Rename? ==> s.file != Absent
    ensures Harmless(s, Step(Other, s, t, choice), t)
  {}

  lemma HarmlessKeepsOnce(s: State, b: State, t: nat)
    requires Once(s) && t in s.processes && Harmless(s, b, t)
    ensures Once(b)
  {}

  lemma HappenKeepsOnce(s: State, e: Event)
    requires Once(s)
    ensures Once(Happen(Other, s, e))
  {
    if e.Move? && e.t in s.processes {
      var pc := s.processes[e.t].pc;
      if pc.Enter? {
        EnterKeepsOnce(s, e.t, e.choice);
      } else if pc.Create? || Claims(pc) {
        BeginKeepsOnce(s, e.t, e.choice);
      } else {
        CompleteIsHarmless(s, e.t, e.choice);
        HarmlessKeepsOnce(s, Step(Other, s, e.t, e.choice), e.t);
      }
    }
  }

  // A command other than a VIP command is entered at most once for its key, over every interleaving of
  // requests, kills and power losses, whatever receipt was there before.
  lemma {:induction false} AtMostOnce(s: State, events: seq<Event>)
    requires Start(s)
    ensures Once(After(Other, s, events)) && After(Other, s, events).entered <= 1
  {
    if events != [] {
      AtMostOnce(s, events[..|events| - 1]);
      HappenKeepsOnce(After(Other, s, events[..|events| - 1]), events[|events| - 1]);
    }
  }
}
