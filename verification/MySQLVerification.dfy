// The verification of a MySQL switchover and its bounded retry loop.
module MySQLVerification {
  datatype Option<T> = None | Some(value: T)
  type Id = nat

  datatype Status = Pass | Fail | Incomplete

  datatype Name =
    | PlanIntegrity | SourceReachable | SourceIdentity | SourceReadOnly
    | TargetReachable | TargetIdentity | TargetWritable
    | TargetDetached | SemiSyncNewPrimary
    | FollowerReachable(id: Id) | FollowerIdentity(id: Id) | FollowerReadOnly(id: Id)
    | FollowerReplication(id: Id) | PrimaryUniqueness | EndpointOwner

  datatype Check = Check(name: Name, status: Status)

  // What a probe of a member shows.
  datatype Member = Member(identityMatches: bool, readOnly: bool, superReadOnly: bool)
  datatype Follower = Follower(id: Id, probe: Option<Member>, replicates: bool)

  // Everything one verification attempt sees: None stands for a failed probe. The followers are all
  // snapshot members other than the target, the former primary included.
  datatype Evidence = Evidence(
    planValid: bool, source: Option<Member>, target: Option<Member>, targetConfigured: Option<bool>,
    semiSyncRequired: bool, semiSyncReady: bool, followers: seq<Follower>, endpoint: Status)

  predicate FullyReadOnly(m: Member) {
    m.readOnly && m.superReadOnly
  }

  predicate Writable(m: Member) {
    !m.readOnly && !m.superReadOnly
  }

  function Verdict(ok: bool): Status {
    if ok then Pass else Fail
  }

  predicate AllPass(checks: seq<Check>) {
    forall i | 0 <= i < |checks| :: checks[i].status == Pass
  }

  // A failing check that may still converge.
  predicate Converging(c: Check) {
    c.status == Fail && (c.name.FollowerReplication? || c.name.SemiSyncNewPrimary?)
  }

  // Nothing but converging checks fails.
  predicate Soft(checks: seq<Check>) {
    forall i | 0 <= i < |checks| :: checks[i].status == Pass || Converging(checks[i])
  }

  // The demands on a follower that cannot be met by waiting, and all of them.
  predicate FollowerSettled(f: Follower) {
    f.probe.Some? && f.probe.value.identityMatches && FullyReadOnly(f.probe.value)
  }

  predicate FollowerGood(f: Follower) {
    FollowerSettled(f) && f.replicates
  }

  predicate HeadSettled(e: Evidence) {
    && e.source.Some? && e.source.value.identityMatches && FullyReadOnly(e.source.value)
    && e.target.Some? && e.target.value.identityMatches && Writable(e.target.value)
    && e.targetConfigured == Some(false)
  }

  predicate HeadGood(e: Evidence) {
    HeadSettled(e) && (e.semiSyncRequired ==> e.semiSyncReady)
  }

  // The cluster shows everything that waiting cannot bring: roles, identities and the endpoint.
  predicate Settled(e: Evidence) {
    e.planValid && HeadSettled(e) && (forall i | 0 <= i < |e.followers| :: FollowerSettled(e.followers[i]))
      && e.endpoint == Pass
  }

  // The cluster a passed verification has seen.
  predicate Good(e: Evidence) {
    e.planValid && HeadGood(e) && (forall i | 0 <= i < |e.followers| :: FollowerGood(e.followers[i]))
      && e.endpoint == Pass
  }

  // The checks of a follower: reachable, then identity, flags and replication.
  function FollowerChecks(f: Follower): (checks: seq<Check>)
    ensures (AllPass(checks) <==> FollowerGood(f)) && (Soft(checks) <==> FollowerSettled(f))
  {
    match f.probe
    case None =>
      var checks := [Check(FollowerReachable(f.id), Fail)];
      assert checks[0].status == Fail;
      checks
    case Some(m) =>
      var checks :=
        [Check(FollowerIdentity(f.id), Verdict(m.identityMatches)),
          Check(FollowerReadOnly(f.id), Verdict(FullyReadOnly(m))),
                     Check(FollowerReplication(f.id), Verdict(f.replicates))];
      assert checks[0].status == Verdict(m.identityMatches) && checks[1].status == Verdict(FullyReadOnly(m))
        && checks[2].status == Verdict(f.replicates);
      checks
  }

  predicate FollowerWritable(f: Follower) {
    f.probe.Some? && Writable(f.probe.value)
  }

  // How many members accept writes.
  function OpenFollowers(followers: seq<Follower>): nat {
    if followers == [] then 0
    else
      var f := followers[|followers| - 1];
      OpenFollowers(followers[..|followers| - 1])
        + (if f.probe.Some? && !f.probe.value.readOnly && !f.probe.value.superReadOnly then 1 else 0)
  }

  function Writers(e: Evidence): nat {
    (if e.target.Some? && !e.target.value.readOnly && !e.target.value.superReadOnly then 1 else 0)
      + OpenFollowers(e.followers)
  }

  lemma AllPassAppend(a: seq<Check>, b: seq<Check>)
    ensures AllPass(a + b) <==> AllPass(a) && AllPass(b)
    ensures Soft(a + b) <==> Soft(a) && Soft(b)
  {
    forall i | 0 <= i < |a|
      ensures (a + b)[i] == a[i]
    {
    }
    forall i | 0 <= i < |b|
      ensures (a + b)[|a| + i] == b[i]
    {
    }
  }

  lemma AllPassShort(a: Check, b: Check)
    ensures AllPass([a]) <==> a.status == Pass
    ensures AllPass([a, b]) <==> a.status == Pass && b.status == Pass
    ensures Soft([a]) <==> a.status == Pass || Converging(a)
    ensures Soft([a, b]) <==> (a.status == Pass || Converging(a)) && (b.status == Pass || Converging(b))
  {
    assert [a][0] == a && [a, b][0] == a && [a, b][1] == b;
  }

  // The checks of source and target.
  method HeadChecks(e: Evidence) returns (checks: seq<Check>)
    ensures checks != [] && (AllPass(checks) <==> HeadGood(e)) && (Soft(checks) <==> HeadSettled(e))
  {
    match e.source {
      case None =>
        checks := [Check(SourceReachable, Fail)];
        AllPassShort(checks[0], checks[0]);
      case Some(m) =>
        checks := [Check(SourceIdentity, Verdict(m.identityMatches)), Check(SourceReadOnly, Verdict(FullyReadOnly(m)))];
        AllPassShort(checks[0], checks[1]);
    }
    var more: seq<Check>;
    match e.target {
      case None =>
        more := [Check(TargetReachable, Fail)];
        AllPassShort(more[0], more[0]);
      case Some(m) =>
        more := [Check(TargetIdentity, Verdict(m.identityMatches)), Check(TargetWritable, Verdict(Writable(m)))];
        AllPassShort(more[0], more[1]);
    }
    AllPassAppend(checks, more);
    checks := checks + more;
    var detached, semiSync := Check(TargetDetached, Verdict(e.targetConfigured == Some(false))),
      Check(SemiSyncNewPrimary, Verdict(e.semiSyncReady));
    AllPassShort(detached, semiSync);
    more := if e.semiSyncRequired then [detached, semiSync] else [detached];
    AllPassAppend(checks, more);
    checks := checks + more;
  }

  // The loop over the followers: their checks, and how many of them accept writes.
  method AllFollowerChecks(followers: seq<Follower>) returns (checks: seq<Check>, open: nat)
    ensures AllPass(checks) <==> forall i | 0 <= i < |followers| :: FollowerGood(followers[i])
    ensures Soft(checks) <==> forall i | 0 <= i < |followers| :: FollowerSettled(followers[i])
    ensures open == OpenFollowers(followers)
    ensures (forall i | 0 <= i < |followers| :: FollowerSettled(followers[i])) ==> open == 0
  {
    checks, open := [], 0;
    for i := 0 to |followers|
      invariant AllPass(checks) <==> forall j | 0 <= j < i :: FollowerGood(followers[j])
      invariant Soft(checks) <==> forall j | 0 <= j < i :: FollowerSettled(followers[j])
      invariant open == OpenFollowers(followers[..i])
      invariant (forall j | 0 <= j < i :: FollowerSettled(followers[j])) ==> open == 0
    {
      assert followers[..i + 1][..i] == followers[..i];
      AllPassAppend(checks, FollowerChecks(followers[i]));
      checks := checks + FollowerChecks(followers[i]);
      if FollowerWritable(followers[i]) {
        open := open + 1;
      }
    }
    assert followers[..|followers|] == followers;
  }

  lemma GoodMeans(e: Evidence)
    ensures Good(e) <==>
              && e.planValid && e.source == Some(Member(true, true, true))
              && e.target == Some(Member(true, false, false))
              && e.targetConfigured == Some(false) && (e.semiSyncRequired ==> e.semiSyncReady) && e.endpoint == Pass
              && forall i | 0 <= i < |e.followers| ::
                   e.followers[i].probe == Some(Member(true, true, true)) && e.followers[i].replicates
  {}

  // One attempt. It passes exactly when the evidence shows the target writable and detached and every
  // other member fully read-only and replicating.
  method VerifyOnce(e: Evidence) returns (checks: seq<Check>, passed: bool)
    ensures passed <==> Good(e)
    ensures passed <==>
              && e.planValid && e.source == Some(Member(true, true, true))
              && e.target == Some(Member(true, false, false))
              && e.targetConfigured == Some(false) && (e.semiSyncRequired ==> e.semiSyncReady) && e.endpoint == Pass
              && forall i | 0 <= i < |e.followers| ::
                   e.followers[i].probe == Some(Member(true, true, true)) && e.followers[i].replicates
    ensures e.planValid ==> |checks| > 1 && checks[|checks| - 2] == Check(PrimaryUniqueness, Verdict(Writers(e) == 1))
    ensures AllPass(checks) <==> Good(e)
    ensures Soft(checks) <==> Settled(e)
  {
    GoodMeans(e);
    if !e.planValid {
      AllPassShort(Check(PlanIntegrity, Fail), Check(PlanIntegrity, Fail));
      return [Check(PlanIntegrity, Fail)], false;
    }
    checks := HeadChecks(e);
    var more, open := AllFollowerChecks(e.followers);
    AllPassAppend(checks, more);
    checks := checks + more;
    var writable := (if e.target.Some? && Writable(e.target.value) then 1 else 0) + open;
    var tail := [Check(PrimaryUniqueness, Verdict(writable == 1)), Check(EndpointOwner, e.endpoint)];
    AllPassShort(tail[0], tail[1]);
    AllPassAppend(checks, tail);
    checks := checks + tail;
    passed := AllPass(checks) && checks != [];
  }

  // Whether only converging checks are left: the loop over the checks.
  method ConvergencePending(checks: seq<Check>) returns (pending: bool)
    ensures pending == Pending(checks)
    ensures pending <==>
              && (exists j :: 0 <= j < |checks| && checks[j].status != Pass)
              && forall j | 0 <= j < |checks| && checks[j].status != Pass ::
                   && checks[j].status == Fail
                   && (checks[j].name.FollowerReplication? || checks[j].name.SemiSyncNewPrimary?)
  {
    pending := false;
    for i := 0 to |checks|
      invariant forall j | 0 <= j < i :: checks[j].status == Pass || Converging(checks[j])
      invariant pending <==> exists j :: 0 <= j < i && checks[j].status != Pass
    {
      if checks[i].status == Pass {
        continue;
      }
      if !Converging(checks[i]) {
        return false;
      }
      pending := true;
    }
  }

  predicate Pending(checks: seq<Check>) {
    Soft(checks) && !AllPass(checks)
  }

  // One attempt: unusable, or evidence.
  datatype Attempt = Unsupported | Seen(e: Evidence)

  datatype Outcome = Failed | Verified(checks: seq<Check>, passed: bool) | Cancelled(checks: seq<Check>)

  // The retry loop. `n` is the attempt whose result is returned. Every attempt before it saw settled
  // roles, identities and endpoint, and lacked only convergence: no other failure is ever retried
  // away. A failed result before the last attempt is a failure that waiting cannot mend.
  method Verify(attempts: int, attempt: nat -> Attempt, cancelled: nat -> bool) returns (r: Outcome, n: nat)
    ensures n < (if attempts < 1 then 1 else attempts)
    ensures forall j | 0 <= j < n :: attempt(j).Seen? && Settled(attempt(j).e) && !Good(attempt(j).e)
    ensures r.Failed? <==> attempt(n) == Unsupported
    ensures r.Verified? ==> (r.passed <==> Good(attempt(n).e)) && (AllPass(r.checks) <==> r.passed)
    ensures r.Verified? && !r.passed && n < attempts - 1 ==> !Settled(attempt(n).e)
    ensures r.Cancelled? ==> Settled(attempt(n).e) && !Good(attempt(n).e) && cancelled(n)
  {
    var limit := if attempts < 1 then 1 else attempts;
    n := 0;
    while true
      invariant 0 <= n < limit
      invariant forall j | 0 <= j < n :: attempt(j).Seen? && Settled(attempt(j).e) && !Good(attempt(j).e)
      decreases limit - n
    {
      if attempt(n) == Unsupported {
        return Failed, n;
      }
      var checks, passed := VerifyOnce(attempt(n).e);
      if passed {
        return Verified(checks, true), n;
      }
      var pending := ConvergencePending(checks);
      if !pending || n == limit - 1 {
        return Verified(checks, false), n;
      }
      if cancelled(n) {
        return Cancelled(checks), n;
      }
      n := n + 1;
    }
  }

  const StableSamples: nat := 3

  // Three healthy samples in a row, ending before sample `k`.
  predicate StableAt(samples: seq<bool>, k: nat) {
    StableSamples <= k <= |samples| && forall i | k - StableSamples <= i < k :: samples[i]
  }

  // The polling loop of a reparented follower: it succeeds at the first moment that completes three
  // healthy samples in a row, and fails when the samples run out without one.
  method WaitHealthy(samples: seq<bool>) returns (healthy: bool, used: nat)
    ensures healthy <==> exists k: nat :: StableAt(samples, k)
    ensures healthy ==> StableAt(samples, used) && forall k: nat | k < used :: !StableAt(samples, k)
  {
    var stable := 0;
    used := 0;
    while used < |samples|
      invariant 0 <= stable < StableSamples && stable <= used <= |samples|
      invariant forall i | used - stable <= i < used :: samples[i]
      invariant stable < used ==> !samples[used - stable - 1]
      invariant forall k: nat | k <= used :: !StableAt(samples, k)
    {
      stable := if samples[used] then stable + 1 else 0;
      used := used + 1;
      if stable >= StableSamples {
        assert StableAt(samples, used);
        return true, used;
      }
      assert stable < used ==> !samples[used - stable - 1];
    }
    healthy := false;
  }
}
