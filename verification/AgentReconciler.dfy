// The agent's reconciler: one cycle applies one controller decision to the local node, call by call,
// and every call may fail with or without having taken effect.
module AgentReconciler {
  datatype Engine = MySQL | PostgreSQL | OtherEngine

  datatype Action =
    | KeepVip | TransitionTarget | TransitionSource | BootstrapPrimary | SelfIsolate
    | RecoveryPrimary | RecoveryActivate | RecoveryReplica | RecoveryPrepare | Unknown

  // What the decision client returned: nothing usable, or a decision with its scope and identifiers.
  datatype Decision = NoDecision | Decided(inScope: bool, action: Action, leaseValid: bool, taskValid: bool)

  // How an external call ends, and what a failing status call claims about a running service.
  datatype Reply = Ok | ErrAfter | ErrBefore
  datatype Answer = Answer(reply: Reply, guess: bool)

  // The local node. MySQL: role flags, the recorded isolation intent, the restart fence and whether
  // the database answers. PostgreSQL: whether the service runs and is in recovery, the standby intent
  // on disk. Both: the VIP and the access guard of a recovery task.
  datatype Node = Node(
    readOnly: bool, superReadOnly: bool, intent: bool, restartFence: bool, reachable: bool,
    running: bool, inRecovery: bool, standbyIntent: bool, vip: bool, guarded: bool)

  // The calls of one cycle, in order. A role read remembers whether it proved the node writable.
  datatype Call = ReadRole(proved: bool) | ChangeRole | ReadVip | Acquire | Release | Other

  predicate Writable(engine: Engine, n: Node) {
    if engine == PostgreSQL then n.running && !n.inRecovery else !n.readOnly && !n.superReadOnly
  }

  // No write can be accepted: MySQL is fully read-only with the intent recorded, PostgreSQL is a
  // standby or down.
  predicate Isolated(engine: Engine, n: Node) {
    if engine == PostgreSQL then !n.running || n.inRecovery else n.readOnly && n.superReadOnly && n.intent
  }

  // The last role read proved the node writable and no role change was issued since.
  predicate Proven(log: seq<Call>) {
    if log == [] then false
    else match log[|log| - 1]
      case ReadRole(proved) => proved
      case ChangeRole => false
      case _ => Proven(log[..|log| - 1])
  }

  // Every acquire was issued while the node was proven writable.
  predicate Sound(log: seq<Call>) {
    log == [] || (Sound(log[..|log| - 1]) && (log[|log| - 1] == Acquire ==> Proven(log[..|log| - 1])))
  }

  // The last VIP mutation of the cycle is a release.
  predicate Released(log: seq<Call>) {
    if log == [] then false
    else match log[|log| - 1]
      case Release => true
      case Acquire => false
      case _ => Released(log[..|log| - 1])
  }

  // The cycle changed neither a role nor the VIP.
  predicate Quiet(log: seq<Call>) {
    log == []
      || (Quiet(log[..|log| - 1]) && log[|log| - 1] != ChangeRole && log[|log| - 1] != Acquire
         && log[|log| - 1] != Release)
  }

  // What the monitors mean for a whole cycle.
  lemma {:induction false} ReleasedMeans(log: seq<Call>)
    requires Released(log)
    ensures exists i :: 0 <= i < |log| && log[i] == Release && forall j | i < j < |log| :: log[j] != Acquire
  {
    var n := |log| - 1;
    if log[n] != Release {
      ReleasedMeans(log[..n]);
      var i :| 0 <= i < n && log[..n][i] == Release && forall j | i < j < n :: log[..n][j] != Acquire;
      assert log[i] == Release;
      assert forall j | i < j < n :: log[j] == log[..n][j];
    }
  }

  lemma {:induction false} QuietMeans(log: seq<Call>, k: nat)
    requires Quiet(log) && k < |log|
    ensures log[k] != ChangeRole && log[k] != Acquire && log[k] != Release
  {
    if k < |log| - 1 {
      QuietMeans(log[..|log| - 1], k);
    }
  }

  lemma {:induction false} ProvenMeans(log: seq<Call>)
    requires Proven(log)
    ensures exists i :: 0 <= i < |log| && log[i] == ReadRole(true) && forall j | i < j < |log| :: log[j] != ChangeRole
  {
    var n := |log| - 1;
    if !log[n].ReadRole? {
      ProvenMeans(log[..n]);
      var i :| 0 <= i < n && log[..n][i] == ReadRole(true) && forall j | i < j < n :: log[..n][j] != ChangeRole;
      assert log[i] == ReadRole(true);
      assert forall j | i < j < n :: log[j] == log[..n][j];
    }
  }

  // Every acquire of a sound cycle comes after a read that proved the node writable, with no role
  // change in between.
  lemma {:induction false} SoundMeans(log: seq<Call>, k: nat)
    requires Sound(log) && k < |log| && log[k] == Acquire
    ensures exists i :: 0 <= i < k && log[i] == ReadRole(true) && forall j | i < j < k :: log[j] != ChangeRole
  {
    var n := |log| - 1;
    if k < n {
      SoundMeans(log[..n], k);
      var i :| 0 <= i < k && log[..n][i] == ReadRole(true) && forall j | i < j < k :: log[..n][j] != ChangeRole;
      assert log[i] == ReadRole(true);
      assert forall j | i < j < k :: log[j] == log[..n][j];
    } else {
      ProvenMeans(log[..n]);
      var i :| 0 <= i < n && log[..n][i] == ReadRole(true) && forall j | i < j < n :: log[..n][j] != ChangeRole;
      assert log[i] == ReadRole(true);
      assert forall j | i < j < n :: log[j] == log[..n][j];
    }
  }

  // A recovering primary is closed to business: guarded, or fenced against restarts and read-only.
  predicate HeldClosed(engine: Engine, n: Node) {
    if engine == PostgreSQL then n.guarded
    else n.restartFence && (n.reachable ==> n.readOnly && n.superReadOnly)
  }

  // The state a decision demands when its cycle reports success.
  predicate Demanded(engine: Engine, d: Decision, n: Node) {
    d.Decided? && d.inScope &&
      match d.action
      case KeepVip => d.leaseValid && Writable(engine, n) && n.vip
      case BootstrapPrimary => d.leaseValid && Writable(engine, n) && n.vip
      case RecoveryActivate => d.leaseValid && d.taskValid && Writable(engine, n) && n.vip
      case TransitionTarget => d.leaseValid && (n.vip ==> Writable(engine, n))
      case TransitionSource => d.leaseValid
      case SelfIsolate => !n.vip && Isolated(engine, n)
      case RecoveryPrimary => d.leaseValid && d.taskValid && !n.vip && HeldClosed(engine, n)
      case RecoveryReplica => d.leaseValid && d.taskValid && !n.vip
        && (if engine == PostgreSQL then Isolated(engine, n) else engine == MySQL && n.guarded)
      case RecoveryPrepare => d.leaseValid && d.taskValid && !n.vip
        && (if engine == PostgreSQL then Isolated(engine, n) else engine == MySQL && n.guarded)
      case Unknown => false
  }

  // The owner role has converged: nothing is left for a keep cycle to do.
  predicate Converged(engine: Engine, durable: bool, n: Node) {
    Writable(engine, n) && n.vip && (engine != PostgreSQL && durable ==> !n.intent && n.reachable)
  }

  // ---- Cycles without faults ----

  // What a reconciler is made of.
  datatype Setup = Setup(engine: Engine, durable: bool, replicaGuard: bool, postgresql: bool, accessGuard: bool)

  predicate WritableOwner(n: Node) {
    !n.intent && n.reachable && !n.readOnly && !n.superReadOnly
  }

  // What a cycle without faults makes of the node. Closing it takes the VIP away and leaves no writer.
  function Closed(s: Setup, n: Node): Node {
    if s.engine != PostgreSQL
    then n.(vip := false, readOnly := true, superReadOnly := true, intent := true, restartFence := true)
    else n.(vip := false, running := n.running && (n.inRecovery || !s.postgresql))
  }

  // Opening it makes it the writer that owns the VIP.
  function Opened(n: Node): Node {
    n.(vip := true, readOnly := false, superReadOnly := false, intent := false, restartFence := true)
  }

  // A node that can be the writer keeps or gets the VIP, with a recorded isolation intent cleared; any
  // other node is closed.
  predicate CanOwn(s: Setup, n: Node) {
    if s.engine == PostgreSQL then s.postgresql && Writable(s.engine, n)
    else if s.durable then n.reachable else Writable(s.engine, n)
  }

  function Owner(s: Setup, n: Node): Node {
    if s.engine != PostgreSQL && s.durable && !WritableOwner(n) then Opened(n) else n.(vip := true)
  }

  function Owning(s: Setup, n: Node): (Node, bool) {
    if CanOwn(s, n) then (Owner(s, n), false) else (Closed(s, n), true)
  }

  // A rebooted primary: an open one must own the VIP already, a fully closed one is opened.
  function Booted(s: Setup, n: Node): (Node, bool) {
    if s.engine == PostgreSQL then Owning(s, n)
    else if Writable(s.engine, n) then if n.vip then (n, false) else (Closed(s, n), true)
    else if n.readOnly && n.superReadOnly then (Opened(n), false) else (Closed(s, n), true)
  }

  // The target of a transition loses the VIP unless it is open.
  function Targeted(s: Setup, n: Node): (Node, bool) {
    if s.engine == PostgreSQL then
      if s.postgresql && n.running then (if n.inRecovery then n.(vip := false) else n, false) else (Closed(s, n), true)
    else (if n.readOnly || n.superReadOnly then n.(vip := false) else n, false)
  }

  // The primary of a recovery is held closed, activated, and a replica is held behind its guard.
  function HeldPrimary(s: Setup, n: Node): (Node, bool) {
    if s.engine != PostgreSQL then (Closed(s, n), !s.durable)
    else if s.postgresql && s.accessGuard && n.guarded then (n.(vip := false), false) else (Closed(s, n), true)
  }

  function Activated(s: Setup, n: Node): (Node, bool) {
    if s.engine != PostgreSQL then Owning(s, n)
    else if s.postgresql && s.accessGuard then Owning(s, n.(guarded := false)) else (Closed(s, n), true)
  }

  function HeldReplica(s: Setup, n: Node): (Node, bool) {
    if s.engine == PostgreSQL then (Closed(s, n), !s.postgresql)
    else if s.engine == MySQL && s.replicaGuard && n.guarded then (n.(vip := false), false) else (Closed(s, n), true)
  }

  function Recovering(s: Setup, n: Node, action: Action): (Node, bool) {
    match action
    case RecoveryPrimary => HeldPrimary(s, n)
    case RecoveryActivate => Activated(s, n)
    case _ => HeldReplica(s, n)
  }

  // The actions that need a lease.
  function Standing(s: Setup, n: Node, d: Decision): (Node, bool)
    requires d.Decided?
  {
    match d.action
    case KeepVip => Owning(s, n)
    case BootstrapPrimary => Booted(s, n)
    case TransitionSource => if s.engine == PostgreSQL && !s.postgresql then (Closed(s, n), true) else (n, false)
    case TransitionTarget => Targeted(s, n)
    case _ => if d.taskValid then Recovering(s, n, d.action) else (Closed(s, n), true)
  }

  // The node after a cycle without faults, and whether the cycle reports an error.
  function Reached(s: Setup, n: Node, d: Decision): (Node, bool) {
    if d.NoDecision? || !d.inScope then (Closed(s, n), true)
    else if d.action == SelfIsolate then (Closed(s, n), s.engine == PostgreSQL && !s.postgresql)
    else if !d.leaseValid || d.action == Unknown then (Closed(s, n), true)
    else Standing(s, n, d)
  }

  lemma ClosedIsStable(s: Setup, n: Node)
    ensures Closed(s, Closed(s, n)) == Closed(s, n)
  {}

  // Closing a node does not depend on its VIP or on an attempt to close it before.
  lemma ClosedForgets(s: Setup, n: Node, vip: bool)
    ensures Closed(s, n.(vip := vip)) == Closed(s, n)
    ensures s.engine != PostgreSQL ==> Closed(s, Closed(s, n).(vip := vip)) == Closed(s, n)
    ensures s.engine != PostgreSQL ==> Closed(s, Opened(n).(vip := vip)) == Closed(s, n)
  {}

  lemma OwnerIsStable(s: Setup, n: Node)
    requires CanOwn(s, n)
    ensures CanOwn(s, Owner(s, n)) && Owner(s, Owner(s, n)) == Owner(s, n)
  {
    var m := Owner(s, n);
    if s.engine == PostgreSQL || !s.durable {
      assert m == n.(vip := true);
    } else {
      assert WritableOwner(m) && m.vip;
    }
  }

  lemma OwningIsStable(s: Setup, n: Node)
    requires !Owning(s, n).1
    ensures Owning(s, Owning(s, n).0) == Owning(s, n)
  {
    OwnerIsStable(s, n);
  }

  lemma BootedIsStable(s: Setup, n: Node)
    requires !Booted(s, n).1
    ensures Booted(s, Booted(s, n).0) == Booted(s, n)
  {
    if s.engine == PostgreSQL {
      OwningIsStable(s, n);
    }
  }

  lemma TargetedIsStable(s: Setup, n: Node)
    requires !Targeted(s, n).1
    ensures Targeted(s, Targeted(s, n).0) == Targeted(s, n)
  {}

  lemma ActivatedIsStable(s: Setup, n: Node)
    requires !Activated(s, n).1
    ensures Activated(s, Activated(s, n).0) == Activated(s, n)
  {
    if s.engine == PostgreSQL {
      var m := n.(guarded := false);
      OwningIsStable(s, m);
      assert Owner(s, m) == m.(vip := true) && Owner(s, m).(guarded := false) == Owner(s, m);
    } else {
      OwningIsStable(s, n);
    }
  }

  lemma HeldIsStable(s: Setup, n: Node)
    ensures !HeldPrimary(s, n).1 ==> HeldPrimary(s, HeldPrimary(s, n).0) == HeldPrimary(s, n)
    ensures !HeldReplica(s, n).1 ==> HeldReplica(s, HeldReplica(s, n).0) == HeldReplica(s, n)
  {
    ClosedIsStable(s, n);
  }

  lemma RecoveringIsStable(s: Setup, n: Node, action: Action)
    requires !Recovering(s, n, action).1
    ensures Recovering(s, Recovering(s, n, action).0, action) == Recovering(s, n, action)
  {
    match action
    case RecoveryActivate => ActivatedIsStable(s, n);
    case _ => HeldIsStable(s, n);
  }

  lemma StandingIsStable(s: Setup, n: Node, d: Decision)
    requires d.Decided? && !Standing(s, n, d).1
    ensures Standing(s, Standing(s, n, d).0, d) == Standing(s, n, d)
  {
    match d.action
    case KeepVip => OwningIsStable(s, n);
    case BootstrapPrimary => BootedIsStable(s, n);
    case TransitionSource =>
    case TransitionTarget => TargetedIsStable(s, n);
    case _ =>
      if d.taskValid {
        RecoveringIsStable(s, n, d.action);
      }
  }

  // Success is stable for every decision: the next cycle without faults finds nothing to change.
  lemma SuccessIsStable(s: Setup, n: Node, d: Decision)
    requires d.Decided? && !Reached(s, n, d).1
    ensures Reached(s, Reached(s, n, d).0, d) == Reached(s, n, d)
  {
    if d.action == SelfIsolate {
      ClosedIsStable(s, n);
    } else {
      StandingIsStable(s, n, d);
    }
  }

  // A rebooted MySQL primary comes back after two cycles without faults at the latest, whatever state it
  // was found in.
  lemma BootstrapComesBack(s: Setup, n: Node, d: Decision)
    requires s.engine != PostgreSQL && d.Decided? && d.inScope && d.leaseValid && d.action == BootstrapPrimary
    ensures var (once, err) := Reached(s, n, d);
            var (twice, again) := Reached(s, once, d);
            !again && Writable(s.engine, twice) && twice.vip && (n.readOnly && n.superReadOnly ==> !err)
  {
    ClosedForgets(s, n, false);
    var once := Booted(s, n);
    if once.1 {
      assert once.0.readOnly && once.0.superReadOnly;
      assert Booted(s, once.0) == (Opened(once.0), false);
    } else {
      BootedIsStable(s, n);
    }
  }

  class Reconciler {
    const engine: Engine
    // Optional capabilities of the configured controllers.
    const durable: bool
    const replicaGuard: bool
    const postgresql: bool
    const accessGuard: bool
    const intentInspector: bool
    // The answer to the n-th external call.
    const answers: nat -> Answer

    var node: Node
    var calls: nat
    var log: seq<Call>
    // No call of the cycle has failed so far.
    ghost var clean: bool

    constructor (engine: Engine, durable: bool, replicaGuard: bool, postgresql: bool, accessGuard: bool,
      intentInspector: bool,
                 answers: nat -> Answer, node: Node)
      ensures this.engine == engine && this.durable == durable && this.answers == answers && this.node == node
              && log == []
    {
      this.engine, this.durable, this.replicaGuard, this.postgresql := engine, durable, replicaGuard, postgresql;
      this.accessGuard, this.intentInspector, this.answers := accessGuard, intentInspector, answers;
      this.node, this.calls, this.log, this.clean := node, 0, [], true;
    }

    function Has(): Setup {
      Setup(engine, durable, replicaGuard, postgresql, accessGuard)
    }

    // No call of this reconciler ever fails.
    ghost predicate FaultFree() {
      forall n :: answers(n).reply == Ok
    }

    method Ask(call: Call) returns (answer: Answer)
      modifies this
      ensures answer == answers(old(calls)) && node == old(node)
      ensures clean == (old(clean) && answer.reply == Ok)
      ensures log == old(log) + [call]
      ensures Proven(log) ==
              (match call case ReadRole(proved) => proved case ChangeRole => false case _ => old(Proven(log)))
      ensures Released(log) == (match call case Release => true case Acquire => false case _ => old(Released(log)))
      ensures Sound(log) == (old(Sound(log)) && (call == Acquire ==> old(Proven(log))))
      ensures Quiet(log) == (old(Quiet(log)) && call != ChangeRole && call != Acquire && call != Release)
    {
      answer := answers(calls);
      calls, log, clean := calls + 1, log + [call], clean && answer.reply == Ok;
      assert log[..|log| - 1] == old(log);
    }

    // Releasing the VIP.
    method VipRelease() returns (ok: bool)
      modifies this
      ensures log == old(log) + [Release] && Released(log)
      ensures Sound(log) == old(Sound(log)) && Proven(log) == old(Proven(log))
      ensures node == old(node) || node == old(node).(vip := false)
      ensures ok ==> !node.vip
      ensures FaultFree() ==> ok && node == old(node).(vip := false)
      ensures clean == (old(clean) && ok) && ok == (answers(old(calls)).reply == Ok)
    {
      var a := Ask(Release);
      if a.reply != ErrBefore {
        node := node.(vip := false);
      }
      ok := a.reply == Ok;
    }

    method VipAcquire() returns (ok: bool)
      modifies this
      ensures log == old(log) + [Acquire]
      ensures Sound(log) == (old(Sound(log)) && old(Proven(log))) && Proven(log) == old(Proven(log))
      ensures node == old(node) || node == old(node).(vip := true)
      ensures ok ==> node.vip
      ensures FaultFree() ==> ok && node == old(node).(vip := true)
      ensures clean == (old(clean) && ok) && ok == (answers(old(calls)).reply == Ok)
    {
      var a := Ask(Acquire);
      if a.reply != ErrBefore {
        node := node.(vip := true);
      }
      ok := a.reply == Ok;
    }

    method VipStatus() returns (ok: bool, owns: bool)
      modifies this
      ensures log == old(log) + [ReadVip] && node == old(node)
      ensures Sound(log) == old(Sound(log)) && Proven(log) == old(Proven(log)) && Released(log) == old(Released(log))
              && Quiet(log) == old(Quiet(log))
      ensures ok ==> owns == node.vip
      ensures FaultFree() ==> ok
      ensures clean == (old(clean) && ok) && ok == (answers(old(calls)).reply == Ok)
    {
      var a := Ask(ReadVip);
      ok, owns := a.reply == Ok, node.vip;
    }

    method RoleStatus() returns (ok: bool, readOnly: bool, superReadOnly: bool)
      modifies this
      ensures log == old(log) + [ReadRole(ok && !readOnly && !superReadOnly)] && node == old(node)
      ensures Sound(log) == old(Sound(log)) && Proven(log) == (ok && !readOnly && !superReadOnly)
              && Released(log) == old(Released(log)) && Quiet(log) == old(Quiet(log))
      ensures ok ==> readOnly == node.readOnly && superReadOnly == node.superReadOnly
      ensures FaultFree() ==> ok
      ensures clean == (old(clean) && ok) && ok == (answers(old(calls)).reply == Ok)
    {
      ok, readOnly, superReadOnly := answers(calls).reply == Ok, node.readOnly, node.superReadOnly;
      var _ := Ask(ReadRole(ok && !readOnly && !superReadOnly));
    }

    // Records the intent, sets the running flags and asserts the restart fence again.
    method PersistReadOnly(value: bool) returns (ok: bool)
      modifies this
      ensures log == old(log) + [ChangeRole]
      ensures Sound(log) == old(Sound(log)) && Released(log) == old(Released(log))
      ensures node == old(node)
              || node == old(node).(readOnly := value, superReadOnly := value, intent := value, restartFence := true)
      ensures ok ==>
              node == old(node).(readOnly := value, superReadOnly := value, intent := value, restartFence := true)
      ensures FaultFree() ==> ok
      ensures clean == (old(clean) && ok) && ok == (answers(old(calls)).reply == Ok)
    {
      var a := Ask(ChangeRole);
      if a.reply != ErrBefore {
        node := node.(readOnly := value, superReadOnly := value, intent := value, restartFence := true);
      }
      ok := a.reply == Ok;
    }

    // A read that does not prove writability: isolation status, guards, standby intent.
    method Inspect() returns (ok: bool)
      modifies this
      ensures log == old(log) + [Other] && node == old(node)
      ensures Sound(log) == old(Sound(log)) && Proven(log) == old(Proven(log)) && Released(log) == old(Released(log))
              && Quiet(log) == old(Quiet(log))
      ensures FaultFree() ==> ok
      ensures clean == (old(clean) && ok) && ok == (answers(old(calls)).reply == Ok)
    {
      var a := Ask(Other);
      ok := a.reply == Ok;
    }

    method GuardRelease() returns (ok: bool)
      modifies this
      ensures log == old(log) + [Other] && node == old(node).(guarded := node.guarded)
      ensures Sound(log) == old(Sound(log)) && Released(log) == old(Released(log))
      ensures FaultFree() ==> ok && !node.guarded
      ensures clean == (old(clean) && ok) && ok == (answers(old(calls)).reply == Ok)
    {
      var a := Ask(Other);
      if a.reply != ErrBefore {
        node := node.(guarded := false);
      }
      ok := a.reply == Ok;
    }

    method PostgreSQLStatus() returns (ok: bool, running: bool, inRecovery: bool)
      modifies this
      ensures log == old(log) + [ReadRole(ok && running && !inRecovery)] && node == old(node)
      ensures Sound(log) == old(Sound(log)) && Proven(log) == (ok && running && !inRecovery)
              && Released(log) == old(Released(log)) && Quiet(log) == old(Quiet(log))
      ensures ok ==> running == node.running && inRecovery == node.inRecovery
      ensures FaultFree() ==> ok
      ensures clean == (old(clean) && ok) && ok == (answers(old(calls)).reply == Ok)
    {
      ok := answers(calls).reply == Ok;
      running, inRecovery := if ok then node.running else answers(calls).guess, node.inRecovery;
      var _ := Ask(ReadRole(ok && running && !inRecovery));
    }

    method PostgreSQLStop() returns (ok: bool)
      modifies this
      ensures log == old(log) + [ChangeRole]
      ensures Sound(log) == old(Sound(log)) && Released(log) == old(Released(log))
      ensures node == old(node) || node == old(node).(running := false)
      ensures FaultFree() ==> ok && !node.running
      ensures clean == (old(clean) && ok) && ok == (answers(old(calls)).reply == Ok)
    {
      var a := Ask(ChangeRole);
      if a.reply != ErrBefore {
        node := node.(running := false);
      }
      ok := a.reply == Ok;
    }

    // Releasing the VIP and closing the node; a nil error means both are proven.
    method ConvergeSelfIsolation() returns (err: bool)
      requires Sound(log)
      modifies this
      ensures Sound(log) && Released(log)
      ensures !err ==> !node.vip && Isolated(engine, node)
      ensures FaultFree() ==> node == Closed(Has(), old(node)) && err == (engine == PostgreSQL && !postgresql)
      ensures !err && old(clean) ==> clean
    {
      var released := VipRelease();
      if engine != PostgreSQL {
        var fenced := PersistReadOnly(true);
        return !released || !fenced;
      }
      if !postgresql {
        return true;
      }
      err := StopWriter(released);
    }

    // A PostgreSQL writer is stopped and proven down. Without knowledge about the service it is stopped
    // too, unless its standby intent is on disk.
    method StopWriter(released: bool) returns (err: bool)
      requires Sound(log) && Released(log) && engine == PostgreSQL && postgresql && (released ==> !node.vip)
      modifies this
      ensures Sound(log) && Released(log)
      ensures !err ==> released && !node.vip && Isolated(engine, node)
      ensures FaultFree() && released ==>
                !err && node == old(node).(running := old(node.running) && old(node.inRecovery))
      ensures answers(old(calls)).reply != Ok ==>
                err && (log == old(log) + [ReadRole(false), Other] || (|log| > 1 && log[|log| - 2] == ChangeRole))
      ensures !err && old(clean) ==> clean
    {
      var known, running, inRecovery := PostgreSQLStatus();
      if !known {
        StopUnknown(running);
        return true;
      }
      if !running || inRecovery {
        return !released;
      }
      var stopped := PostgreSQLStop();
      var verified, still, _ := PostgreSQLStatus();
      err := !released || !stopped || !verified || still;
    }

    // The state of the service cannot be read: it is stopped, unless it seems to run and its standby intent
    // is found on disk.
    method StopUnknown(running: bool)
      requires Sound(log) && Released(log)
      modifies this
      ensures Sound(log) && Released(log) && node.vip == old(node.vip)
      ensures running && intentInspector && answers(old(calls)).reply == Ok && old(node.standbyIntent) ==>
                node == old(node) && log == old(log) + [Other]
      ensures !(running && intentInspector && answers(old(calls)).reply == Ok && old(node.standbyIntent)) ==>
                |log| > 1 && log[|log| - 2] == ChangeRole
    {
      if running && intentInspector {
        var read := Inspect();
        if read && node.standbyIntent {
          return;
        }
      }
      var _ := PostgreSQLStop();
      var _, _, _ := PostgreSQLStatus();
    }

    // Every failure ends here: the cycle reports an error after trying to isolate the node.
    method SelfIsolation() returns (err: bool)
      requires Sound(log)
      modifies this
      ensures Sound(log) && Released(log) && err
      ensures FaultFree() ==> node == Closed(Has(), old(node))
    {
      var _ := ConvergeSelfIsolation();
      err := true;
    }

    // Clearing a recorded isolation intent; the restart fence is deliberately not looked at.
    method ConvergeWritableRestartState() returns (ok: bool)
      requires Sound(log)
      modifies this
      ensures Sound(log)
      ensures ok && durable ==> !node.intent && node.reachable && !node.readOnly && !node.superReadOnly
      ensures !durable ==> ok && node == old(node) && log == old(log)
      ensures node.vip == old(node.vip) && node.reachable == old(node.reachable)
      ensures FaultFree() && node.reachable ==> ok
      ensures old(!node.intent && node.reachable && !node.readOnly && !node.superReadOnly) ==>
              node == old(node) && Quiet(log) == old(Quiet(log))
      ensures FaultFree() && engine != PostgreSQL ==>
                && ok == (durable ==> old(node.reachable))
                && Closed(Has(), node) == Closed(Has(), old(node))
                && (ok ==> node.(vip := true) == Owner(Has(), old(node)))
      ensures ok && old(clean) ==> clean
    {
      if !durable {
        return true;
      }
      ok := Inspect();
      if !ok || WritableOwner(node) {
        return;
      }
      ok := ClearIntent();
      ClosedForgets(Has(), old(node), old(node.vip));
    }

    method ClearIntent() returns (ok: bool)
      requires Sound(log)
      modifies this
      ensures Sound(log)
      ensures ok ==> WritableOwner(node) && log == old(log) + [ChangeRole, Other]
      ensures node.vip == old(node.vip) && node.reachable == old(node.reachable)
      ensures FaultFree() ==> ok == old(node.reachable) && node == Opened(old(node)).(vip := old(node.vip))
      ensures ok && old(clean) ==> clean
    {
      ok := PersistReadOnly(false);
      if ok {
        ok := Inspect();
        ok := ok && WritableOwner(node);
      }
    }

    method ReconcilePostgreSQL(action: Action) returns (err: bool)
      requires Sound(log) && engine == PostgreSQL
      modifies this
      ensures Sound(log)
      ensures err ==> Released(log)
      ensures !err ==> match action
                       case TransitionSource => true
                       case TransitionTarget => node.vip ==> Writable(engine, node)
                       case BootstrapPrimary => Writable(engine, node) && node.vip
                       case KeepVip => Writable(engine, node) && node.vip
                       case _ => false
      ensures FaultFree() && postgresql && action == KeepVip && old(Converged(engine, durable, node)) ==>
                !err && node == old(node) && (old(Quiet(log)) ==> Quiet(log))
      ensures FaultFree() && postgresql && action == KeepVip && old(Writable(engine, node)) ==> !err
      ensures !err && action == TransitionSource ==> node == old(node)
      ensures !err && action == TransitionTarget ==>
                node == old(node) || (node == old(node).(vip := false) && !Writable(engine, old(node)))
      ensures FaultFree() ==> match action
                              case TransitionSource => (node, err) == (if postgresql then (old(node), false)
                                                                       else (Closed(Has(), old(node)), true))
                              case TransitionTarget => (node, err) == Targeted(Has(), old(node))
                              case BootstrapPrimary => (node, err) == Owning(Has(), old(node))
                              case KeepVip => (node, err) == Owning(Has(), old(node))
                              case _ => (node, err) == (Closed(Has(), old(node)), true)
      ensures !err && old(clean) ==> clean
    {
      if !postgresql {
        err := SelfIsolation();
        return;
      }
      match action
      case TransitionSource =>
        var known, _, _ := PostgreSQLStatus();
        if known {
          var read, _ := VipStatus();
          known := read;
        }
        if !known {
          err := SelfIsolation();
          return;
        }
        err := false;
      case TransitionTarget =>
        var known, running, inRecovery := PostgreSQLStatus();
        if !known || !running {
          err := SelfIsolation();
          return;
        }
        var read, owns := VipStatus();
        if !read {
          err := SelfIsolation();
          return;
        }
        if inRecovery && owns {
          var released := VipRelease();
          if !released {
            err := SelfIsolation();
            return;
          }
        }
        err := false;
      case BootstrapPrimary => err := OwnPostgreSQL();
      case KeepVip => err := OwnPostgreSQL();
      case _ => err := SelfIsolation();
    }

    // A proven writer takes the VIP unless it owns it.
    method TakeVip() returns (taken: bool)
      requires Sound(log) && Proven(log)
      modifies this
      ensures Sound(log) && (node == old(node) || node == old(node).(vip := true))
      ensures taken ==> node == old(node).(vip := true)
      ensures FaultFree() ==> taken
      ensures FaultFree() && old(node.vip) ==> Quiet(log) == old(Quiet(log))
      ensures taken && old(clean) ==> clean
    {
      var read, owns := VipStatus();
      if !read {
        return false;
      }
      if owns {
        return true;
      }
      taken := VipAcquire();
    }

    // A running primary outside recovery may own the VIP.
    method OwnPostgreSQL() returns (err: bool)
      requires Sound(log) && engine == PostgreSQL
      modifies this
      ensures Sound(log)
      ensures err ==> Released(log)
      ensures !err ==> Writable(engine, node) && node.vip
      ensures FaultFree() && old(Converged(engine, durable, node)) ==>
              !err && node == old(node) && Quiet(log) == old(Quiet(log))
      ensures FaultFree() && old(Writable(engine, node)) ==> !err
      ensures FaultFree() && postgresql ==> (node, err) == Owning(Has(), old(node))
      ensures !err && old(clean) ==> clean
    {
      var known, running, inRecovery := PostgreSQLStatus();
      if !known || !running || inRecovery {
        err := SelfIsolation();
        return;
      }
      var taken := TakeVip();
      if !taken {
        err := SelfIsolation();
        return;
      }
      err := false;
    }

    method ReconcileTransitionSource() returns (err: bool)
      requires Sound(log)
      modifies this
      ensures Sound(log)
      ensures err ==> Released(log)
      ensures !err ==> node == old(node)
      ensures FaultFree() ==> !err
      ensures !err && old(clean) ==> clean
    {
      var known, _, _ := RoleStatus();
      if known {
        var read, _ := VipStatus();
        known := read;
      }
      if !known {
        err := SelfIsolation();
        return;
      }
      err := false;
    }

    method ReconcileTransitionTarget() returns (err: bool)
      requires Sound(log) && engine != PostgreSQL
      modifies this
      ensures Sound(log)
      ensures err ==> Released(log)
      ensures !err ==> node.vip ==> Writable(engine, node)
      ensures !err ==> node == old(node) || (node == old(node).(vip := false) && !Writable(engine, old(node)))
      ensures FaultFree() ==> (node, err) == Targeted(Has(), old(node))
      ensures !err && old(clean) ==> clean
    {
      var known, readOnly, superReadOnly := RoleStatus();
      if !known {
        err := SelfIsolation();
        return;
      }
      var read, owns := VipStatus();
      if !read {
        err := SelfIsolation();
        return;
      }
      if (readOnly || superReadOnly) && owns {
        var released := VipRelease();
        if !released {
          err := SelfIsolation();
          return;
        }
      }
      err := false;
    }

    // A rebooted primary is opened only while it holds no VIP, and exposed only once proven open.
    method Bootstrap() returns (err: bool)
      requires Sound(log) && engine != PostgreSQL
      modifies this
      ensures Sound(log)
      ensures err ==> Released(log)
      ensures !err ==> Writable(engine, node) && node.vip
      ensures FaultFree() ==> (node, err) == Booted(Has(), old(node))
      ensures !err && old(clean) ==> clean
    {
      var known, readOnly, superReadOnly := RoleStatus();
      if !known {
        err := SelfIsolation();
        return;
      }
      if !readOnly && !superReadOnly {
        var read, owns := VipStatus();
        if !read || !owns {
          err := SelfIsolation();
          return;
        }
        return false;
      }
      if !readOnly || !superReadOnly {
        err := SelfIsolation();
        return;
      }
      var read, owns := VipStatus();
      if !read {
        err := SelfIsolation();
        return;
      }
      if owns {
        var released := VipRelease();
        if !released {
          err := SelfIsolation();
          return;
        }
      }
      err := OpenAndExpose();
    }

    // Opens the node, proves it open, takes the VIP and proves that too.
    method OpenAndExpose() returns (err: bool)
      requires Sound(log) && engine != PostgreSQL && !node.vip
      modifies this
      ensures Sound(log)
      ensures err ==> Released(log)
      ensures !err ==> Writable(engine, node) && node.vip
      ensures !err ==> log == old(log) + [ChangeRole, ReadRole(true), Acquire, ReadVip]
      ensures FaultFree() ==> !err && node == Opened(old(node))
      ensures !err && old(clean) ==> clean
    {
      var activated := PersistReadOnly(false);
      if !activated {
        err := SelfIsolation();
        return;
      }
      var known, readOnly, superReadOnly := RoleStatus();
      if !known || readOnly || superReadOnly {
        err := SelfIsolation();
        return;
      }
      var acquired := VipAcquire();
      if !acquired {
        err := SelfIsolation();
        return;
      }
      var read, owns := VipStatus();
      if !read || !owns {
        err := SelfIsolation();
        return;
      }
      err := false;
    }

    // Recovery decisions: keep access closed and the VIP away, or activate the recovered writer.
    method ReconcileRecovery(action: Action, leaseValid: bool, taskValid: bool) returns (err: bool)
      requires Sound(log)
               && (action.RecoveryPrimary? || action.RecoveryActivate? || action.RecoveryReplica?
                  || action.RecoveryPrepare?)
      modifies this
      ensures Sound(log)
      ensures err ==> Released(log)
      ensures !err ==> Demanded(engine, Decided(true, action, leaseValid, taskValid), node)
      ensures FaultFree() ==>
                (node, err) == (if leaseValid && taskValid then Recovering(Has(), old(node), action)
                                else (Closed(Has(), old(node)), true))
      ensures !err && old(clean) ==> clean
    {
      if !leaseValid || !taskValid {
        err := SelfIsolation();
        return;
      }
      if action == RecoveryPrimary {
        err := HoldRecoveryPrimary();
        return;
      }
      if action == RecoveryActivate {
        err := ActivateRecovered();
        return;
      }
      if engine == PostgreSQL {
        err := ConvergeSelfIsolation();
        return;
      }
      err := HoldRecoveryReplica();
    }

    method HoldRecoveryReplica() returns (err: bool)
      requires Sound(log) && engine != PostgreSQL
      modifies this
      ensures Sound(log)
      ensures err ==> Released(log)
      ensures !err ==> !node.vip && engine == MySQL && node.guarded
      ensures FaultFree() ==> (node, err) == HeldReplica(Has(), old(node))
      ensures !err && old(clean) ==> clean
    {
      var released := VipRelease();
      var verified := false;
      if released && engine == MySQL && replicaGuard {
        verified := Inspect();
      }
      ClosedForgets(Has(), old(node), false);
      if !verified || !node.guarded {
        err := SelfIsolation();
        return;
      }
      err := false;
    }

    method HoldRecoveryPrimary() returns (err: bool)
      requires Sound(log)
      modifies this
      ensures Sound(log)
      ensures err ==> Released(log)
      ensures !err ==> !node.vip && HeldClosed(engine, node)
      ensures FaultFree() ==> (node, err) == HeldPrimary(Has(), old(node))
      ensures !err && old(clean) ==> clean
    {
      var released := VipRelease();
      if !released {
        err := SelfIsolation();
        return;
      }
      var held := HoldAccess();
      ClosedForgets(Has(), old(node), false);
      if !held {
        err := SelfIsolation();
        return;
      }
      err := false;
    }

    // Access to the recovering primary is guarded, or fenced against restarts and closed.
    method HoldAccess() returns (held: bool)
      requires Sound(log)
      modifies this
      ensures Sound(log) && (old(Released(log)) ==> Released(log)) && node.vip == old(node.vip)
      ensures held ==> HeldClosed(engine, node)
      ensures engine == PostgreSQL ==> node == old(node)
      ensures FaultFree() && engine == PostgreSQL ==> held == (postgresql && accessGuard && node.guarded)
      ensures FaultFree() && engine != PostgreSQL ==>
                held == durable && node == Closed(Has(), old(node)).(vip := old(node.vip))
      ensures held && old(clean) ==> clean
    {
      if engine == PostgreSQL {
        held := GuardHolds();
      } else {
        held := FenceHolds();
      }
    }

    method GuardHolds() returns (held: bool)
      requires Sound(log)
      modifies this
      ensures Sound(log) && (old(Released(log)) ==> Released(log)) && node == old(node)
      ensures held ==> node.guarded
      ensures FaultFree() ==> held == (postgresql && accessGuard && node.guarded)
      ensures held && old(clean) ==> clean
    {
      held := false;
      if postgresql && accessGuard {
        held := Inspect();
      }
      held := held && node.guarded;
    }

    method FenceHolds() returns (held: bool)
      requires Sound(log) && engine != PostgreSQL
      modifies this
      ensures Sound(log) && (old(Released(log)) ==> Released(log)) && node.vip == old(node.vip)
      ensures held ==> HeldClosed(engine, node) && log == old(log) + [ChangeRole, Other]
      ensures FaultFree() ==> held == durable && node == Closed(Has(), old(node)).(vip := old(node.vip))
      ensures held && old(clean) ==> clean
    {
      held := PersistReadOnly(true);
      assert held ==> node == Closed(Has(), old(node)).(vip := old(node.vip));
      if !held || !durable {
        return false;
      }
      held := Inspect();
      held := held && node.restartFence && (node.reachable ==> node.readOnly && node.superReadOnly);
    }

    method ActivateRecovered() returns (err: bool)
      requires Sound(log)
      modifies this
      ensures Sound(log)
      ensures err ==> Released(log)
      ensures !err ==> Writable(engine, node) && node.vip
      ensures FaultFree() ==> (node, err) == Activated(Has(), old(node))
      ensures !err && old(clean) ==> clean
    {
      if engine == PostgreSQL {
        var released := false;
        if postgresql && accessGuard {
          released := GuardRelease();
        }
        if !released {
          err := SelfIsolation();
        } else {
          err := ReconcilePostgreSQL(KeepVip);
        }
        return;
      }
      err := ActivateWriter();
    }

    // Clears a recorded isolation intent and proves the node writable.
    method ProveWriter() returns (proven: bool)
      requires Sound(log) && engine != PostgreSQL
      modifies this
      ensures Sound(log)
      ensures proven ==> Writable(engine, node) && Proven(log) && (durable ==> WritableOwner(node))
      ensures proven ==> node.vip == old(node.vip)
      ensures FaultFree() ==> proven == CanOwn(Has(), old(node))
      ensures FaultFree() ==> if proven then node.(vip := true) == Owner(Has(), old(node))
                              else Closed(Has(), node) == Closed(Has(), old(node))
      ensures FaultFree() && proven && (durable ==> WritableOwner(old(node))) ==>
                node == old(node) && Quiet(log) == old(Quiet(log))
      ensures proven && old(clean) ==> clean
    {
      var converged := ConvergeWritableRestartState();
      if !converged {
        return false;
      }
      var known, readOnly, superReadOnly := RoleStatus();
      proven := known && !readOnly && !superReadOnly;
    }

    method ActivateWriter() returns (err: bool)
      requires Sound(log) && engine != PostgreSQL
      modifies this
      ensures Sound(log)
      ensures err ==> Released(log)
      ensures !err ==> Writable(engine, node) && node.vip
      ensures FaultFree() ==> (node, err) == Owning(Has(), old(node))
      ensures !err && old(clean) ==> clean
    {
      var proven := ProveWriter();
      if !proven {
        err := SelfIsolation();
        return;
      }
      var acquired := VipAcquire();
      if !acquired {
        err := SelfIsolation();
        return;
      }
      err := false;
    }

    // A stable lease keeps the VIP on a proven writer.
    method Keep() returns (err: bool)
      requires Sound(log) && engine != PostgreSQL
      modifies this
      ensures Sound(log)
      ensures err ==> Released(log)
      ensures !err ==> Writable(engine, node) && node.vip
      ensures !err ==> Converged(engine, durable, node)
      ensures FaultFree() && old(Converged(engine, durable, node)) ==>
              !err && node == old(node) && Quiet(log) == old(Quiet(log))
      ensures FaultFree() ==> (node, err) == Owning(Has(), old(node))
      ensures !err && old(clean) ==> clean
    {
      var proven := ProveWriter();
      if !proven {
        err := SelfIsolation();
        return;
      }
      var taken := TakeVip();
      if !taken {
        err := SelfIsolation();
        return;
      }
      err := false;
    }

    // One cycle. Fail-closed: success means the node is in the state the decision demands, and any
    // error of a node with a valid identity means that the VIP was released after any acquire. Every
    // acquire follows a proof of writability.
    method Reconcile(identityValid: bool, d: Decision) returns (err: bool)
      modifies this
      ensures Sound(log)
      ensures !identityValid ==> err && node == old(node) && log == []
      ensures identityValid && err ==> Released(log)
      ensures !err ==> Demanded(engine, d, node)
      ensures !err && d.Decided? && d.action == KeepVip ==> Converged(engine, durable, node)
      ensures identityValid && d.Decided? && d.inScope && d.action == KeepVip && d.leaseValid && FaultFree()
              && (engine == PostgreSQL ==> postgresql) ==>
                && (old(Converged(engine, durable, node)) ==> !err && node == old(node) && Quiet(log))
                && (old(CanKeep()) ==> !err)
      ensures !err && d.Decided? && d.action == TransitionSource ==> node == old(node)
      ensures !err && d.Decided? && d.action == TransitionTarget ==>
                node == old(node) || (node == old(node).(vip := false) && !Writable(engine, old(node)))
      ensures identityValid && FaultFree() ==> (node, err) == Reached(Has(), old(node), d)
      ensures !err ==> clean
    {
      log, clean := [], true;
      if !identityValid {
        return true;
      }
      if d.NoDecision? || !d.inScope {
        err := SelfIsolation();
        return;
      }
      if d.action == SelfIsolate {
        err := ConvergeSelfIsolation();
        return;
      }
      if d.action.RecoveryPrimary? || d.action.RecoveryActivate? || d.action.RecoveryReplica?
        || d.action.RecoveryPrepare? {
        err := ReconcileRecovery(d.action, d.leaseValid, d.taskValid);
        return;
      }
      if !d.leaseValid || d.action == Unknown {
        err := SelfIsolation();
        return;
      }
      if engine == PostgreSQL {
        err := ReconcilePostgreSQL(d.action);
        return;
      }
      if d.action == TransitionSource {
        err := ReconcileTransitionSource();
      } else if d.action == TransitionTarget {
        err := ReconcileTransitionTarget();
      } else if d.action == BootstrapPrimary {
        err := Bootstrap();
      } else {
        err := Keep();
      }
    }

    // What a keep cycle without faults needs to succeed: a running primary, a reachable database whose
    // intent can be cleared, or, without a durable role controller, a writable database.
    predicate CanKeep()
      reads this
    {
      if engine == PostgreSQL then postgresql && Writable(engine, node)
      else if durable then node.reachable else Writable(engine, node)
    }

    // No flapping: once a fault-free keep cycle has succeeded, any number of further cycles succeeds
    // and none of their calls is a role change, an acquire or a release, whatever the restart fence says.
    method KeepCycles(n: nat) returns (logs: seq<seq<Call>>, failed: bool)
      requires FaultFree() && CanKeep()
      modifies this
      ensures !failed && Converged(engine, durable, node) && |logs| == n
      ensures forall i, k | 0 <= i < n && 0 <= k < |logs[i]| ::
                logs[i][k] != ChangeRole && logs[i][k] != Acquire && logs[i][k] != Release
    {
      var keep := Decided(true, KeepVip, true, false);
      failed := Reconcile(true, keep);
      logs := [];
      for i := 0 to n
        invariant !failed && Converged(engine, durable, node) && |logs| == i
        invariant forall j | 0 <= j < i :: Quiet(logs[j])
      {
        var err := Reconcile(true, keep);
        failed := failed || err;
        logs := logs + [log];
      }
      forall i, k | 0 <= i < n && 0 <= k < |logs[i]|
        ensures logs[i][k] != ChangeRole && logs[i][k] != Acquire && logs[i][k] != Release
      {
        QuietMeans(logs[i], k);
      }
    }
  }
}
