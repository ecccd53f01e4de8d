// The agent's decision client with its cache: signed, short-lived permits, asked from a list of
// controllers, and self-isolation once no permit can be had.
module AgentPermits {
  import opened AgentReconciler

  datatype Option<T> = None | Some(value: T)

  // Milliseconds.
  type Time = int
  const Minute: Time := 60_000
  const RecoveryWindow: Time := 10_000

  datatype Scope = Scope(cluster: nat, instance: nat)
  datatype Task = NoTask | TaskId(valid: bool)

  // A controller's response; `authentic` tells that its signature verifies under the shared secret.
  datatype Permit = Permit(
    scope: Scope, action: Action, leaseValid: bool, task: Task, reasonGiven: bool, controllerValid: bool,
    validUntil: Time, authentic: bool)

  predicate Recovery(action: Action) {
    action.RecoveryPrimary? || action.RecoveryActivate? || action.RecoveryReplica? || action.RecoveryPrepare?
  }

  // The response verification.
  predicate Verified(p: Permit, scope: Scope, now: Time) {
    && p.scope == scope && p.controllerValid && p.reasonGiven
    && (Recovery(p.action) ==> p.task.TaskId? && p.task.valid && p.leaseValid && p.validUntil <= now + RecoveryWindow)
    && (!Recovery(p.action) ==> p.task.NoTask?)
    && p.action != Unknown
    && (!Recovery(p.action) && p.action != SelfIsolate ==> p.leaseValid)
    && now < p.validUntil <= now + Minute
    && p.authentic
  }

  // What a verified permit carries: it is signed, in scope and not expired, and expires within a minute; a
  // recovery permit names its task and lease and expires within ten seconds; any other but an order to
  // isolate names a lease, and no task.
  predicate Carries(p: Permit, scope: Scope, now: Time) {
    && p.authentic && p.scope.cluster == scope.cluster && p.scope.instance == scope.instance
    && p.controllerValid && p.reasonGiven && now < p.validUntil && p.validUntil - now <= 60_000
    && (match p.action
        case RecoveryPrimary => p.task == TaskId(true) && p.leaseValid && p.validUntil - now <= 10_000
        case RecoveryActivate => p.task == TaskId(true) && p.leaseValid && p.validUntil - now <= 10_000
        case RecoveryReplica => p.task == TaskId(true) && p.leaseValid && p.validUntil - now <= 10_000
        case RecoveryPrepare => p.task == TaskId(true) && p.leaseValid && p.validUntil - now <= 10_000
        case KeepVip => p.leaseValid && p.task == NoTask
        case TransitionTarget => p.leaseValid && p.task == NoTask
        case TransitionSource => p.leaseValid && p.task == NoTask
        case BootstrapPrimary => p.leaseValid && p.task == NoTask
        case SelfIsolate => p.task == NoTask
        case Unknown => false)
  }

  lemma VerifiedMeansCarries(p: Permit, scope: Scope, now: Time)
    ensures Verified(p, scope, now) <==> Carries(p, scope, now)
  {}

  // What asking one controller brings: no connection, a broken body or an overloaded server; a refusal
  // or an unreadable answer; or a decoded response.
  datatype Reply = Unavailable | Refused | Response(permit: Permit)

  datatype Failure = Availability | Rejection

  // Only availability failures allow a fallback, and at least one is needed.
  function OnlyAvailability(failures: seq<Failure>): (only: bool)
    ensures only <==> failures != [] && forall i | 0 <= i < |failures| :: failures[i] == Availability
  {
    failures != [] && forall i | 0 <= i < |failures| :: failures[i] == Availability
  }

  // The first response that verifies at the moment it is received, and the clock readings used. Each
  // response costs one reading.
  function Pick(replies: seq<Reply>, scope: Scope, clock: nat -> Time, reading: nat): (r: (Option<Permit>, nat))
    ensures reading <= r.1 && (r.0.Some? ==> reading < r.1)
  {
    if replies == [] then (None, reading)
    else if !replies[0].Response? then Pick(replies[1..], scope, clock, reading)
    else if Verified(replies[0].permit, scope, clock(reading)) then (Some(replies[0].permit), reading + 1)
    else Pick(replies[1..], scope, clock, reading + 1)
  }

  // The clock never runs backwards.
  ghost predicate Monotone(clock: nat -> Time) {
    forall i: nat, j: nat | i <= j :: clock(i) <= clock(j)
  }

  // A picked permit was sent by one of the controllers and verified at the last reading.
  lemma {:induction false} PickIsVerified(replies: seq<Reply>, scope: Scope, clock: nat -> Time, reading: nat)
    requires Pick(replies, scope, clock, reading).0.Some?
    ensures var (p, next) := Pick(replies, scope, clock, reading);
            && reading < next && Verified(p.value, scope, clock(next - 1)) && Response(p.value) in replies
  {
    if !replies[0].Response? {
      PickIsVerified(replies[1..], scope, clock, reading);
    } else if !Verified(replies[0].permit, scope, clock(reading)) {
      PickIsVerified(replies[1..], scope, clock, reading + 1);
    }
  }

  // The clock reading at which the response with index `i` is looked at.
  function ReadingOf(replies: seq<Reply>, reading: nat, i: nat): nat
    requires i <= |replies|
  {
    if i == 0 then reading
    else if replies[0].Response? then ReadingOf(replies[1..], reading + 1, i - 1)
    else ReadingOf(replies[1..], reading, i - 1)
  }

  // The response with index `i` verifies when it is looked at.
  predicate Good(replies: seq<Reply>, scope: Scope, clock: nat -> Time, reading: nat, i: nat)
    requires i < |replies|
  {
    replies[i].Response? && Verified(replies[i].permit, scope, clock(ReadingOf(replies, reading, i)))
  }

  // The first response that verifies is picked, and nothing exactly when none does.
  lemma {:induction false} PickIsFirst(replies: seq<Reply>, scope: Scope, clock: nat -> Time, reading: nat)
    ensures Pick(replies, scope, clock, reading).0 == None <==>
              forall i | 0 <= i < |replies| :: !Good(replies, scope, clock, reading, i)
    ensures forall i | 0 <= i < |replies| && Good(replies, scope, clock, reading, i)
              && (forall j | 0 <= j < i :: !Good(replies, scope, clock, reading, j)) ::
              Pick(replies, scope, clock, reading).0 == Some(replies[i].permit)
  {
    if replies != [] && !Good(replies, scope, clock, reading, 0) {
      var next := if replies[0].Response? then reading + 1 else reading;
      PickIsFirst(replies[1..], scope, clock, next);
      var rest := replies[1..];
      forall i | 0 <= i < |rest|
        ensures Good(rest, scope, clock, next, i) == Good(replies, scope, clock, reading, i + 1)
      {}
      if i: nat :| i < |replies| && Good(replies, scope, clock, reading, i) {
        assert Good(rest, scope, clock, next, i - 1);
      }
      forall i | 0 <= i < |replies| && Good(replies, scope, clock, reading, i)
        && (forall j | 0 <= j < i :: !Good(replies, scope, clock, reading, j))
        ensures Pick(replies, scope, clock, reading).0 == Some(replies[i].permit)
      {
        forall j | 0 <= j < i - 1
          ensures !Good(rest, scope, clock, next, j)
        {
          assert !Good(replies, scope, clock, reading, j + 1);
        }
        assert Good(rest, scope, clock, next, i - 1);
      }
    }
  }

  // Nothing is picked when no response could verify at any time from now on.
  lemma {:induction false} PickNothing(replies: seq<Reply>, scope: Scope, clock: nat -> Time, reading: nat)
    requires forall p, n: nat | Response(p) in replies && reading <= n :: !Verified(p, scope, clock(n))
    ensures Pick(replies, scope, clock, reading).0 == None
  {
    if replies != [] {
      assert forall p | Response(p) in replies[1..] :: Response(p) in replies;
      if !replies[0].Response? {
        PickNothing(replies[1..], scope, clock, reading);
      } else {
        assert Response(replies[0].permit) in replies;
        PickNothing(replies[1..], scope, clock, reading + 1);
      }
    }
  }

  // The failures collected when no response verifies.
  function Failures(replies: seq<Reply>): (f: seq<Failure>)
    ensures |f| == |replies|
    ensures forall i | 0 <= i < |f| :: f[i] == (if replies[i] == Unavailable then Availability else Rejection)
  {
    if replies == [] then []
    else Failures(replies[..|replies| - 1]) + [if replies[|replies| - 1] == Unavailable then Availability
      else Rejection]
  }

  // What the file system does with the cache during one call.
  datatype Disk = Disk(stores: bool, loads: bool)

  class DecisionClient {
    const scope: Scope
    const clock: nat -> Time
    const caching: bool
    var reading: nat
    var cache: Option<Permit>
    // When a controller's response was last verified.
    var lastVerified: Time

    constructor (scope: Scope, clock: nat -> Time, caching: bool)
      ensures Valid() && cache == None && this.scope == scope && this.clock == clock && this.caching == caching
              && reading == 1
    {
      this.scope, this.clock, this.caching := scope, clock, caching;
      reading, cache, lastVerified := 1, None, clock(0);
    }

    // A cached permit was verified when it was stored, so it runs out one minute later at most.
    ghost predicate Valid()
      reads this
    {
      reading > 0 && lastVerified <= clock(reading - 1) && FreshEnough()
    }

    ghost predicate FreshEnough()
      reads this
    {
      cache.Some? ==>
        && cache.value.validUntil <= lastVerified + Minute
        && (Recovery(cache.value.action) ==> cache.value.validUntil <= lastVerified + RecoveryWindow)
    }

    // Asking the controllers in turn, then falling back to the cache.
    method Decision(replies: seq<Reply>, disk: Disk) returns (decision: Option<Permit>)
      requires Valid() && Monotone(clock)
      modifies this
      ensures Valid() && reading > old(reading)
      ensures var (picked, next) := Pick(replies, scope, clock, old(reading));
              if picked.Some? then
                decision == picked && lastVerified == clock(next - 1) && (cache == picked || cache == old(cache))
              else
                && cache == old(cache) && lastVerified == old(lastVerified)
                && decision == (if caching && OnlyAvailability(Failures(replies)) && disk.loads && cache.Some?
                                   && Verified(cache.value, scope, clock(next))
                                then cache else None)
      ensures decision.Some? ==> Carries(decision.value, scope, clock(reading - 1))
      ensures forall i | 0 <= i < |replies| && Good(replies, scope, clock, old(reading), i)
                && (forall j | 0 <= j < i :: !Good(replies, scope, clock, old(reading), j)) ::
                decision == Some(replies[i].permit)
    {
      PickIsFirst(replies, scope, clock, old(reading));
      var failures: seq<Failure>;
      decision, failures := AskAll(replies, disk);
      if decision.Some? {
        PickIsVerified(replies, scope, clock, old(reading));
        VerifiedMeansCarries(decision.value, scope, clock(reading - 1));
        return;
      }
      ReadClock();
      if caching && OnlyAvailability(failures) && disk.loads && cache.Some?
        && Verified(cache.value, scope, clock(reading - 1)) {
        VerifiedMeansCarries(cache.value, scope, clock(reading - 1));
        return cache;
      }
      return None;
    }

    // The loop over the controllers, which collects the failures.
    method AskAll(replies: seq<Reply>, disk: Disk) returns (decision: Option<Permit>, failures: seq<Failure>)
      requires Valid() && Monotone(clock)
      modifies this
      ensures Valid() && decision == Pick(replies, scope, clock, old(reading)).0
      ensures reading == Pick(replies, scope, clock, old(reading)).1
      ensures decision.Some? ==> lastVerified == clock(reading - 1) && (cache == decision || cache == old(cache))
      ensures decision.None? ==>
              cache == old(cache) && lastVerified == old(lastVerified) && failures == Failures(replies)
    {
      failures := [];
      for i := 0 to |replies|
        invariant Valid() && failures == Failures(replies[..i])
        invariant Pick(replies, scope, clock, old(reading)) == Pick(replies[i..], scope, clock, reading)
        invariant cache == old(cache) && lastVerified == old(lastVerified)
      {
        assert replies[i..][1..] == replies[i + 1..] && replies[..i + 1][..i] == replies[..i];
        if replies[i].Response? {
          var verified := Receive(replies[i].permit, disk);
          if verified {
            return Some(replies[i].permit), failures;
          }
        }
        failures := failures + [if replies[i] == Unavailable then Availability else Rejection];
      }
      assert replies[..|replies|] == replies;
      decision := None;
    }

    // Time passes between two readings, never backwards.
    method ReadClock()
      requires Valid() && Monotone(clock)
      modifies this`reading
      ensures Valid() && reading == old(reading) + 1
    {
      reading := reading + 1;
      assert clock(reading - 2) <= clock(reading - 1);
    }

    // One decoded response, verified at the moment it is received.
    method Receive(permit: Permit, disk: Disk) returns (verified: bool)
      requires Valid() && Monotone(clock)
      modifies this
      ensures Valid() && reading == old(reading) + 1 && verified == Verified(permit, scope, clock(reading - 1))
      ensures verified ==> lastVerified == clock(reading - 1) && (cache == Some(permit) || cache == old(cache))
      ensures !verified ==> cache == old(cache) && lastVerified == old(lastVerified)
    {
      ReadClock();
      verified := Verified(permit, scope, clock(reading - 1));
      if verified {
        Accept(permit, disk);
      }
    }

    // Remembering a verified response and replacing the cached permit; a failing store leaves the
    // previous one.
    method Accept(permit: Permit, disk: Disk)
      requires reading > 0 && Verified(permit, scope, clock(reading - 1)) && lastVerified <= clock(reading - 1)
               && FreshEnough()
      modifies this`cache, this`lastVerified
      ensures Valid() && lastVerified == clock(reading - 1)
      ensures cache == (if caching && disk.stores then Some(permit) else old(cache))
    {
      lastVerified := clock(reading - 1);
      if caching && disk.stores {
        cache := Some(permit);
      }
    }
  }

  function DecisionOf(permit: Option<Permit>, scope: Scope): Decision {
    match permit
    case None => NoDecision
    case Some(p) => Decided(p.scope == scope, p.action, p.leaseValid, p.task.TaskId? && p.task.valid)
  }

  // The reconciler is told exactly what the permit says.
  lemma DecisionIsThePermit(p: Permit, scope: Scope, now: Time)
    requires Carries(p, scope, now)
    ensures var recovery := p.action.RecoveryPrimary? || p.action.RecoveryActivate? || p.action.RecoveryReplica?
                            || p.action.RecoveryPrepare?;
            DecisionOf(Some(p), scope) == Decided(true, p.action, p.leaseValid, recovery)
  {}

  // When a cycle started and whether it ended with an error after releasing the VIP.
  datatype Report = Report(startedAt: Time, isolated: bool)

  // No response of the round can verify at a clock reading from `now` on; it may well carry permits
  // that would have verified before.
  ghost predicate Silent(round: seq<Reply>, scope: Scope, clock: nat -> Time, now: nat) {
    forall p, n: nat | Response(p) in round && now <= n :: !Verified(p, scope, clock(n))
  }

  // One agent cycle during an outage: once the cached permit has expired the node is isolated, which
  // is at most a minute after the last verified response, ten seconds for a recovery permit.
  method OutageCycle(client: DecisionClient, reconciler: Reconciler, round: seq<Reply>,
      disk: Disk) returns (report: Report)
    requires client.Valid() && Monotone(client.clock) && Silent(round, client.scope, client.clock, client.reading)
    modifies client, reconciler
    ensures client.Valid() && client.reading > old(client.reading) && client.cache == old(client.cache)
            && client.lastVerified == old(client.lastVerified)
    ensures report.startedAt == client.clock(old(client.reading))
    ensures report.startedAt >= client.lastVerified + Minute ==> report.isolated
    ensures client.cache.Some? && report.startedAt >= client.cache.value.validUntil ==> report.isolated
    ensures client.cache.Some? && Recovery(client.cache.value.action) ==>
              report.startedAt >= client.lastVerified + RecoveryWindow ==> report.isolated
    ensures client.cache == None ==> report.isolated
    ensures Sound(reconciler.log)
  {
    ghost var start := client.reading;
    var startedAt := client.clock(client.reading);
    PickNothing(round, client.scope, client.clock, client.reading);
    var permit := client.Decision(round, disk);
    assert startedAt <= client.clock(Pick(round, client.scope, client.clock, start).1);
    var err := reconciler.Reconcile(true, DecisionOf(permit, client.scope));
    report := Report(startedAt, err && Released(reconciler.log));
  }

  // No cached permit is left at a given time.
  predicate Expired(cache: Option<Permit>, now: Time) {
    cache.Some? ==> now >= cache.value.validUntil
  }

  // Over any number of cycles of an outage.
  method Outage(client: DecisionClient, reconciler: Reconciler, rounds: seq<seq<Reply>>,
      disk: Disk) returns (reports: seq<Report>)
    requires client.Valid() && Monotone(client.clock)
    requires forall i | 0 <= i < |rounds| :: Silent(rounds[i], client.scope, client.clock, client.reading)
    modifies client, reconciler
    ensures |reports| == |rounds| && client.cache == old(client.cache)
    ensures forall i | 0 <= i < |reports| :: Expired(client.cache, reports[i].startedAt) ==> reports[i].isolated
    ensures forall i | 0 <= i < |reports| :: reports[i].startedAt >= old(client.lastVerified) + Minute ==>
            reports[i].isolated
  {
    reports := [];
    for i := 0 to |rounds|
      invariant client.Valid() && client.lastVerified == old(client.lastVerified) && client.cache == old(client.cache)
      invariant |reports| == i && client.reading >= old(client.reading)
      invariant forall k | 0 <= k < i :: Expired(client.cache, reports[k].startedAt) ==> reports[k].isolated
      invariant forall k | 0 <= k < i :: reports[k].startedAt >= old(client.lastVerified) + Minute ==>
                reports[k].isolated
    {
      var report := OutageCycle(client, reconciler, rounds[i], disk);
      reports := reports + [report];
    }
  }
}
