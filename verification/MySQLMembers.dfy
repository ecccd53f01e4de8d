// The durable state a MySQL role operation acts on, what the rest of the system may do to it, and
// the two statement sequences the executors share: reparenting a member and re-fencing the target.
module MySQLMembers {
  type Id = nat   // resource identifiers

  // A GTID: the member whose transaction it is, and its number there.
  datatype Txn = Txn(origin: Id, number: nat)

  datatype Option<T> = None | Some(value: T)

  // read_only, super_read_only and the configured replication source of a member.
  datatype Role = Role(readOnly: bool, superReadOnly: bool, source: Option<Id>)

  datatype Step =
    | AuthorizeTransition | FenceSource | CaptureGtid | WaitGtid | StopTarget | PromoteTarget
    | Reparent(follower: Id) | ActivateSemiSync | TransferEndpoint | RetainSourceReadOnly
    | FenceOldPrimary

  // The immutable scope of one operation: source, target, the other members, the followers to
  // reparent in their sorted order, the recorded steps of the plan in plan order, and the executed set
  // last observed of the source.
  datatype Config = Config(
    source: Id, target: Id, others: set<Id>, followers: seq<Id>, semiSync: bool, plan: seq<Step>, observed: set<Txn>)

  // One durable state. `isolated`: the old primary is cut off by the failover safety provider;
  // `endpoint`: the writer endpoint belongs to the target; `semiSync`: the target has an active
  // semi-sync acknowledgement.
  // Two history variables: `owed` collects every transaction acknowledged to a client plus all the
  // source had executed when its fence took effect; `everWritable` remembers that the target was
  // opened for writes.
  datatype World = World(
    src: Role, dst: Role, others: map<Id, Role>, srcGtid: set<Txn>, dstGtid: set<Txn>,
    isolated: bool, endpoint: bool, semiSync: bool, done: set<Step>, owed: set<Txn>, everWritable: bool)

  // How an external call ends: success, failure after taking effect, failure without effect.
  datatype Reply = Ok | ErrAfter | ErrBefore

  predicate Full(r: Role) {
    r.readOnly && r.superReadOnly
  }

  predicate Open(r: Role) {
    !r.readOnly && !r.superReadOnly
  }

  predicate Known(c: Config, n: Id) {
    n == c.source || n == c.target || n in c.others
  }

  function At(c: Config, w: World, n: Id): Role {
    if n == c.source then w.src else if n == c.target then w.dst else if n in w.others then w.others[n]
      else Role(true, true, None)
  }

  function Put(c: Config, w: World, n: Id, r: Role): World {
    if n == c.source then w.(src := r) else if n == c.target then w.(dst := r) else w.(others := w.others[n := r])
  }

  // Member `n` accepts client writes.
  predicate CanWrite(c: Config, w: World, n: Id) {
    Open(At(c, w, n)) && !(n == c.source && w.isolated)
  }

  predicate SourceClosed(w: World) {
    w.isolated || Full(w.src)
  }

  // Everything owed has been executed by the target, and the source takes no more writes.
  predicate Paid(w: World) {
    SourceClosed(w) && w.owed <= w.dstGtid
  }

  // The role invariant of every durable state. super_read_only implies read_only on every server.
  ghost predicate Roles(c: Config, w: World) {
    && c.source != c.target && c.source !in c.others && c.target !in c.others
    && w.others.Keys == c.others
    && (w.src.superReadOnly ==> w.src.readOnly) && (w.dst.superReadOnly ==> w.dst.readOnly)
    && (forall n | n in c.others :: w.others[n].readOnly)
    && (!w.dst.readOnly ==> w.everWritable)
    && (w.everWritable ==> SourceClosed(w))
  }

  // At most one member accepts writes, and the target only while the source is closed.
  ghost predicate SingleWriter(c: Config, w: World) {
    && (forall m, n | Known(c, m) && Known(c, n) && CanWrite(c, w, m) && CanWrite(c, w, n) :: m == n)
    && (CanWrite(c, w, c.target) ==> SourceClosed(w))
  }

  // Whenever the target accepts writes it has executed everything the cluster owes its clients.
  predicate NothingLost(w: World) {
    Open(w.dst) ==> w.owed <= w.dstGtid
  }

  lemma RolesGiveSingleWriter(c: Config, w: World)
    requires Roles(c, w)
    ensures SingleWriter(c, w)
  {}

  // One step of everything that is not the executor: members execute more transactions, and
  // clients have transactions acknowledged, but only by a member that accepts writes.
  predicate EnvStep(a: World, b: World) {
    && b == a.(srcGtid := b.srcGtid, dstGtid := b.dstGtid, owed := b.owed)
    && a.srcGtid <= b.srcGtid && a.dstGtid <= b.dstGtid && a.owed <= b.owed
    && ((exists n | n in a.others.Keys :: Open(a.others[n])) || forall t | t in b.owed - a.owed ::
          (Open(a.src) && !a.isolated && t in b.srcGtid) || (Open(a.dst) && t in b.dstGtid))
  }

  // Such a step changes no role and never makes the target lack something it is owed.
  lemma EnvKeepsRoles(c: Config, a: World, b: World)
    requires Roles(c, a) && EnvStep(a, b)
    ensures Roles(c, b)
    ensures SourceClosed(a) ==> SourceClosed(b)
    ensures Paid(a) ==> Paid(b)
    ensures SourceClosed(a) && !a.everWritable ==> b.owed == a.owed
    ensures !a.everWritable && a.owed <= a.srcGtid ==> b.owed <= b.srcGtid
  {}

  // What a member may newly execute: a transaction of its own while it accepts writes, which nobody had
  // before, or one that reaches it from the member it follows. Only the histories of source and target
  // are known here; from any other member everything may come.
  predicate MayGain(r: Role, self: Id, peer: Id, peerGtid: set<Txn>, t: Txn) {
    || (Open(r) && t.origin == self && t !in peerGtid)
    || (r.source.Some? && (r.source.value == peer ==> t in peerGtid))
  }

  // A step in which nothing is executed out of nowhere. Safety holds for every `EnvStep`; where
  // something is said to be possible, only such steps are used.
  predicate CausalStep(c: Config, a: World, b: World) {
    && EnvStep(a, b)
    && (forall t | t in b.srcGtid && t !in a.srcGtid :: MayGain(a.src, c.source, c.target, a.dstGtid, t))
    && (forall t | t in b.dstGtid && t !in a.dstGtid :: MayGain(a.dst, c.target, c.source, a.srcGtid, t))
  }

  datatype Statement = SuperReadOnlyOn | ReadOnlyOn | ReadOnlyOff | ResetReplication | ChangeSource | Plain

  // The role a statement leaves a member with: super_read_only = ON also sets read_only, and
  // read_only = OFF also clears super_read_only.
  function Effect(statement: Statement, to: Id, r: Role): Role {
    match statement
    case SuperReadOnlyOn => r.(readOnly := true, superReadOnly := true)
    case ReadOnlyOn => r.(readOnly := true)
    case ReadOnlyOff => r.(readOnly := false, superReadOnly := false)
    case ResetReplication => r.(source := None)
    case ChangeSource => r.(source := Some(to))
    case Plain => r
  }

  // A statement sent to member `n`. When it fences the source, everything the source has executed
  // becomes owed; when it opens the target, that is remembered.
  function Exec(c: Config, w: World, statement: Statement, n: Id, to: Id, reply: Reply): World {
    if reply == ErrBefore then w
    else
      var r := Effect(statement, to, At(c, w, n));
      var fencing := n == c.source && !SourceClosed(w) && Full(r);
      Put(c, w, n, r).(owed := if fencing then w.owed + w.srcGtid else w.owed,
                       everWritable := w.everWritable || (n == c.target && Open(r)))
  }

  // What a statement of the executor never undoes.
  predicate Keeps(a: World, b: World) {
    && (SourceClosed(a) ==> SourceClosed(b) && b.owed == a.owed)
    && (Paid(a) ==> Paid(b))
    && (a.owed <= a.srcGtid ==> b.owed <= b.srcGtid)
    && b.srcGtid == a.srcGtid && b.dstGtid == a.dstGtid && b.done == a.done && b.isolated == a.isolated
  }

  // What a statement may do to the world it is executed in.
  ghost predicate Lawful(c: Config, w: World, statement: Statement, n: Id, reply: Reply, b: World) {
    && Roles(c, b) && Keeps(w, b)
    && (statement != ReadOnlyOff ==> b.everWritable == w.everWritable && (w.dst.readOnly ==> b.dst.readOnly))
    && (n != c.target ==> b.dst == w.dst) && (n != c.source ==> b.src == w.src)
    && (statement == SuperReadOnlyOn && reply != ErrBefore ==> Full(At(c, b, n)))
  }

  lemma ExecOnSource(c: Config, w: World, statement: Statement, to: Id, reply: Reply)
    requires Roles(c, w) && statement != ReadOnlyOff
    ensures Lawful(c, w, statement, c.source, reply, Exec(c, w, statement, c.source, to, reply))
  {}

  lemma ExecOnTarget(c: Config, w: World, statement: Statement, to: Id, reply: Reply)
    requires Roles(c, w) && (statement == ReadOnlyOff ==> SourceClosed(w))
    ensures Lawful(c, w, statement, c.target, reply, Exec(c, w, statement, c.target, to, reply))
  {}

  lemma ExecOnOther(c: Config, w: World, statement: Statement, n: Id, to: Id, reply: Reply)
    requires Roles(c, w) && n in c.others && statement != ReadOnlyOff
    ensures Lawful(c, w, statement, n, reply, Exec(c, w, statement, n, to, reply))
  {}

  // No statement other than read_only = OFF opens a member, and none forgets what is owed.
  lemma ExecKeepsRoles(c: Config, w: World, statement: Statement, n: Id, to: Id, reply: Reply)
    requires Roles(c, w) && Known(c, n)
    requires statement == ReadOnlyOff ==> n == c.target && SourceClosed(w)
    ensures Lawful(c, w, statement, n, reply, Exec(c, w, statement, n, to, reply))
  {
    if n == c.source {
      ExecOnSource(c, w, statement, to, reply);
    } else if n == c.target {
      ExecOnTarget(c, w, statement, to, reply);
    } else {
      ExecOnOther(c, w, statement, n, to, reply);
    }
  }

  // Only member `n` differs between two worlds.
  ghost predicate LocalChange(c: Config, w: World, b: World, n: Id) {
    && b.done == w.done && b.endpoint == w.endpoint && b.semiSync == w.semiSync
    && forall m | Known(c, m) && m != n :: At(c, b, m) == At(c, w, m)
  }

  lemma ExecIsLocalChange(c: Config, w: World, statement: Statement, n: Id, to: Id, reply: Reply)
    requires Known(c, n)
    ensures var b := Exec(c, w, statement, n, to, reply);
            && LocalChange(c, w, b, n)
            && At(c, b, n) == (if reply == ErrBefore then At(c, w, n) else Effect(statement, to, At(c, w, n)))
  {
    if reply != ErrBefore {
      PutIsLocal(c, w, n, Effect(statement, to, At(c, w, n)));
    }
  }

  lemma PutIsLocal(c: Config, w: World, n: Id, r: Role)
    requires Known(c, n)
    ensures At(c, Put(c, w, n, r), n) == r
    ensures forall m | Known(c, m) && m != n :: At(c, Put(c, w, n, r), m) == At(c, w, m)
  {}

  // What a shared statement sequence does next: continue at a call, succeed, or fail.
  datatype Sub = Go(k: nat) | Good | Bad

  function OrBad(reply: Reply, next: Sub): Sub {
    if reply == Ok then next else Bad
  }

  // Making member `n` a read-only replica of `to`, call by call: fence it (0, 1), look for an old
  // replication configuration (2) and drop it (3, 4), configure and start replication (5, 6), then
  // prove it healthy (7), read the position of `to` (8), wait for it (9) and prove health again (10).
  function ReparentStatement(k: nat): Statement {
    if k == 0 then SuperReadOnlyOn
    else if k == 1 then ReadOnlyOn
    else if k == 4 then ResetReplication
    else if k == 5 then ChangeSource
    else Plain
  }

  predicate ReparentSends(k: nat) {
    k <= 6 && k != 2
  }

  function ReparentNext(c: Config, w: World, n: Id, k: nat): Sub {
    if k == 2 && At(c, w, n).source.None? then Go(5) else if k < 10 then Go(k + 1) else Good
  }

  function ReparentCall(c: Config, w: World, n: Id, to: Id, k: nat, reply: Reply): (World, Sub) {
    (if ReparentSends(k) then Exec(c, w, ReparentStatement(k), n, to, reply)
      else w, OrBad(reply, ReparentNext(c, w, n, k)))
  }

  // Reparenting never opens a member, never loses what is owed and touches no other member.
  lemma ReparentKeepsRoles(c: Config, w: World, n: Id, to: Id, k: nat, reply: Reply)
    requires Roles(c, w) && Known(c, n)
    ensures var b := ReparentCall(c, w, n, to, k, reply).0;
            && Roles(c, b) && Keeps(w, b) && b.everWritable == w.everWritable
            && (n != c.target ==> b.dst == w.dst) && LocalChange(c, w, b, n)
  {
    ExecKeepsRoles(c, w, ReparentStatement(k), n, to, reply);
    ExecIsLocalChange(c, w, ReparentStatement(k), n, to, reply);
  }

  // Re-fencing the target, call by call: unless a probe (0) shows it fully fenced, issue
  // super_read_only = ON (1) and read_only = ON (2).
  function RefenceCall(c: Config, w: World, k: nat, reply: Reply): (World, Sub) {
    if k == 0 then (w, if reply == Ok && Full(w.dst) then Good else Go(1))
    else if k == 1 then (Exec(c, w, SuperReadOnlyOn, c.target, c.source, reply), OrBad(reply, Go(2)))
    else (Exec(c, w, ReadOnlyOn, c.target, c.source, reply), OrBad(reply, Good))
  }

  // The sequence ends with a closed target unless its first command was lost without effect.
  lemma RefenceCloses(c: Config, w: World, k: nat, reply: Reply)
    requires Roles(c, w)
    requires k > 1 ==> w.dst.readOnly
    ensures var (b, sub) := RefenceCall(c, w, k, reply);
            && Roles(c, b) && Keeps(w, b) && b.everWritable == w.everWritable && b.src == w.src
            && (sub == Good || (sub.Go? && sub.k > 1) ==> b.dst.readOnly)
            && (sub == Bad && !(k == 1 && reply == ErrBefore) ==> b.dst.readOnly)
  {
    if k == 1 {
      ExecKeepsRoles(c, w, SuperReadOnlyOn, c.target, c.source, reply);
    } else if k > 1 {
      ExecKeepsRoles(c, w, ReadOnlyOn, c.target, c.source, reply);
    }
  }
}
