// What a request gets when nothing fails: the first one is executed and its answer stored, later ones of
// the same intent get the stored answer, a VIP command is repeated exactly when the VIP has drifted, and
// a request that does not match the receipt gets nothing done.
module AgentRequests {
  import opened AgentLedger
  import opened AgentReceipts

  // A request arrives and its process moves `n` times without a failure, answering `out` if it gets to
  // execute the command.
  function Request(t: nat, intent: Intent, out: Response, n: nat): seq<Event> {
    if n == 0 then [Arrive(t, intent)] else Request(t, intent, out, n - 1) + [Move(t, Fine(out))]
  }

  lemma RequestMoves(command: Command, s: State, t: nat, intent: Intent, out: Response, n: nat)
    requires n > 0
    ensures After(command, s, Request(t, intent, out, n)) ==
            Happen(command, After(command, s, Request(t, intent, out, n - 1)), Move(t, Fine(out)))
  {
    assert Request(t, intent, out, n)[..|Request(t, intent, out, n)| - 1] == Request(t, intent, out, n - 1);
  }

  lemma RequestArrives(command: Command, s: State, t: nat, intent: Intent, out: Response)
    requires t !in s.processes
    ensures After(command, s, Request(t, intent, out, 0)) == At(s, t, Process(intent, Create, false, None, false))
  {
    assert [Arrive(t, intent)][..0] == [];
  }

  // ---- The first request ----

  // Where its process stands after `k` moves, and what it has done to the receipt.
  function FirstPc(out: Response, k: nat): Pc {
    if k == 0 then Create else if k == 1 then Write else if k == 2 then SyncNew else if k == 3 then Enter
    else if k == 4 then CompleteLoad(out) else if k == 5 then CompleteWrite(out) else if k == 6 then Rename(out)
    else if k == 7 then SyncDone(out) else Finished(out)
  }

  function FirstFile(command: Command, intent: Intent, out: Response, k: nat): File {
    if k == 0 then Absent else if k == 1 then Garbled
    else if k < 7 then StartedReceipt(command, intent) else CompletedReceipt(command, intent, out)
  }

  function FirstState(command: Command, s: State, t: nat, intent: Intent, out: Response, k: nat): State {
    s.(processes := s.processes[t := Process(intent, FirstPc(out, k), false, None, false)],
       file := FirstFile(command, intent, out, k),
       durable := if k < 3 then s.durable else FirstFile(command, intent, out, if k < 8 then 3 else 8),
       entered := s.entered + (if k < 4 then 0 else 1),
       runs := if k < 4 then s.runs else s.runs + {Run(intent, out)})
  }

  lemma BeginMove(command: Command, s: State, t: nat, intent: Intent, out: Response, k: nat)
    requires s.file == Absent && k < 4
    ensures Happen(command, FirstState(command, s, t, intent, out, k), Move(t, Fine(out))) ==
            FirstState(command, s, t, intent, out, k + 1)
  {
    var b, a := Happen(command, FirstState(command, s, t, intent, out, k), Move(t, Fine(out))),
      FirstState(command, s, t, intent, out, k + 1);
    assert b.processes == a.processes;
  }

  lemma CompleteMove(command: Command, s: State, t: nat, intent: Intent, out: Response, k: nat)
    requires s.file == Absent && k >= 4
    ensures Happen(command, FirstState(command, s, t, intent, out, k), Move(t, Fine(out))) ==
            FirstState(command, s, t, intent, out, k + 1)
  {
    var b, a := Happen(command, FirstState(command, s, t, intent, out, k), Move(t, Fine(out))),
      FirstState(command, s, t, intent, out, k + 1);
    assert b.processes == a.processes;
  }

  lemma {:induction false} FirstMoves(command: Command, s: State, t: nat, intent: Intent, out: Response, n: nat)
    requires s.file == Absent && t !in s.processes
    ensures After(command, s, Request(t, intent, out, n)) == FirstState(command, s, t, intent, out, n)
  {
    if n == 0 {
      RequestArrives(command, s, t, intent, out);
    } else {
      FirstMoves(command, s, t, intent, out, n - 1);
      RequestMoves(command, s, t, intent, out, n);
      if n - 1 < 4 {
        BeginMove(command, s, t, intent, out, n - 1);
      } else {
        CompleteMove(command, s, t, intent, out, n - 1);
      }
    }
  }

  // Without a receipt the command is executed exactly once, and its answer is given after it was stored
  // where power loss cannot reach it.
  lemma {:induction false} FirstRequestExecutes(command: Command, s: State, t: nat, intent: Intent, out: Response,
                                                n: nat)
    requires s.file == Absent && t !in s.processes && n >= 8
    ensures var b := After(command, s, Request(t, intent, out, n));
            && t in b.processes && b.processes[t].pc == Finished(out) && b.entered == s.entered + 1
            && Run(intent, out) in b.runs
            && b.file == CompletedReceipt(command, intent, out) && b.durable == b.file
  {
    FirstMoves(command, s, t, intent, out, n);
  }

  // A receipt that cannot be written is removed again: nothing was executed, and the next request finds
  // no receipt. The switch is counted whenever it is entered, also when it returns early.
  lemma FailedWriteLeavesNothing(command: Command, s: State, t: nat, write: Choice, remove: Choice)
    requires t in s.processes && s.processes[t].pc == Write && write.reply != Ok && remove.reply == Ok
    ensures var b := Happen(command, Happen(command, s, Move(t, write)), Move(t, remove));
            b.file == Absent && b.processes[t].pc == Blocked && b.entered == s.entered && b.runs == s.runs
  {}

  lemma EnteringCounts(command: Command, s: State, t: nat, choice: Choice)
    requires t in s.processes
    ensures Step(command, s, t, choice).entered == s.entered + (if s.processes[t].pc.Enter? then 1 else 0)
  {}

  // ---- Requests that find a receipt ----

  // Which requests a receipt belongs to: the receipt of a request with intent `one` matches a request with
  // intent `two` exactly when their fields agree, and their leases too unless a current agent recorded a
  // VIP command. An older agent's receipt of a finished, successful VIP command matches every request;
  // receipts of any other version match none.
  lemma MatchesExactly(version: nat, command: Command, one: Intent, two: Intent, completed: bool, out: Response)
    ensures Matches(Receipt(version, Fingerprint(version, command, one), completed, out), command, two) <==>
              || (version == 2 && one.fields == two.fields && (one.lease == two.lease || command != Other))
              || (version == 1 && one == two)
              || (version == 1 && completed && out.ok && command != Other)
  {}

  // The VIP is where the command wants it.
  predicate AsWanted(command: Command, s: State) {
    s.owned == (command == VipAcquire)
  }

  // The stored answer is given without a look at the VIP.
  predicate Plainly(command: Command, s: State)
    requires s.file.Valid?
  {
    !Vip(command) || !s.file.receipt.response.ok
  }

  predicate Answerable(command: Command, s: State, intent: Intent) {
    s.file.Valid? && Matches(s.file.receipt, command, intent) && s.file.receipt.completed
  }

  function LaterPc(command: Command, s: State, intent: Intent, out: Response, k: nat): Pc
    requires s.file != Absent
  {
    if k == 0 then Create else if k == 1 then Load
    else if !Answerable(command, s, intent) then Blocked
    else if Plainly(command, s) then Replayed(s.file.receipt.response)
    else if k == 2 then ProbeVip(s.file.receipt.response)
    else if AsWanted(command, s) then Replayed(s.file.receipt.response)
    else if k == 3 then Enter else if k == 4 then CompleteLoad(out) else Finished(out)
  }

  // A VIP command whose effect has drifted.
  predicate Repeats(command: Command, s: State, intent: Intent) {
    s.file.Valid? && Answerable(command, s, intent) && !Plainly(command, s) && !AsWanted(command, s)
  }

  function LaterState(command: Command, s: State, t: nat, intent: Intent, out: Response, k: nat): State
    requires s.file != Absent
  {
    var probed := k > 2 && Answerable(command, s, intent) && !Plainly(command, s);
    var again := k > 3 && Repeats(command, s, intent);
    s.(processes := s.processes[t := Process(intent, LaterPc(command, s, intent, out, k),
                                             probed && !AsWanted(command, s), if probed then Some(s.owned) else None,
                                             false)],
       entered := s.entered + (if again then 1 else 0),
       runs := if again then s.runs + {Run(intent, out)} else s.runs)
  }

  lemma LaterMove(command: Command, s: State, t: nat, intent: Intent, out: Response, k: nat)
    requires s.file != Absent && !LegacyVip(s.file, command)
    ensures Happen(command, LaterState(command, s, t, intent, out, k), Move(t, Fine(out))) ==
            LaterState(command, s, t, intent, out, k + 1)
  {
    var b, a := Happen(command, LaterState(command, s, t, intent, out, k), Move(t, Fine(out))),
      LaterState(command, s, t, intent, out, k + 1);
    assert b.processes == a.processes;
  }

  lemma {:induction false} LaterMoves(command: Command, s: State, t: nat, intent: Intent, out: Response, n: nat)
    requires s.file != Absent && !LegacyVip(s.file, command) && t !in s.processes
    ensures After(command, s, Request(t, intent, out, n)) == LaterState(command, s, t, intent, out, n)
  {
    if n == 0 {
      RequestArrives(command, s, t, intent, out);
    } else {
      LaterMoves(command, s, t, intent, out, n - 1);
      RequestMoves(command, s, t, intent, out, n);
      LaterMove(command, s, t, intent, out, n - 1);
    }
  }

  // A request that finds a receipt gets the stored answer exactly when the receipt is completed and
  // matches its intent; nothing is executed then, unless it is a successful VIP command whose effect has
  // drifted, which is executed exactly once more. Any other request is refused and nothing is executed.
  // The receipt stays as it is.
  lemma {:induction false} LaterRequestReplays(command: Command, s: State, t: nat, intent: Intent, out: Response,
                                               n: nat)
    requires s.file != Absent && !LegacyVip(s.file, command) && t !in s.processes && n >= 5
    ensures var b := After(command, s, Request(t, intent, out, n));
            && t in b.processes && b.file == s.file && b.durable == s.durable
            && (if !s.file.Valid? || !Matches(s.file.receipt, command, intent) || !s.file.receipt.completed then
                  b.processes[t].pc == Blocked && b.entered == s.entered
                else if !Vip(command) || !s.file.receipt.response.ok || s.owned == (command == VipAcquire) then
                  b.processes[t].pc == Replayed(s.file.receipt.response) && b.entered == s.entered
                else b.processes[t].pc == Finished(out) && b.entered == s.entered + 1)
  {
    LaterMoves(command, s, t, intent, out, n);
  }

  // The same request twice. The second may carry another lease if it is a VIP command.
  lemma {:induction false} SecondRequestReplays(command: Command, s: State, t: nat, u: nat, one: Intent, two: Intent,
                                                out: Response, other: Response)
    requires s.file == Absent && t !in s.processes && u !in s.processes && t != u && SameIntent(command, one, two)
    requires !Vip(command) || !out.ok || AsWanted(command, s)
    ensures var b := After(command, s, Request(t, one, out, 8) + Request(u, two, other, 5));
            && u in b.processes && b.processes[u].pc == Replayed(out) && b.entered == s.entered + 1
  {
    var a := After(command, s, Request(t, one, out, 8));
    FirstMoves(command, s, t, one, out, 8);
    LaterRequestReplays(command, a, u, two, other, 5);
    AfterAppend(command, s, Request(t, one, out, 8), Request(u, two, other, 5));
  }
}
