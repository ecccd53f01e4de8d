// Assessment and ranking of MySQL promotion candidates.
module MySQLCandidates {
  datatype Option<T> = None | Some(value: T)

  type Id = nat
  type Txn = (nat, nat)   // source, number

  datatype Status = Pass | Warn | Fail
  datatype Check = Check(name: string, status: Status)

  datatype Thread = Running | Connecting | Stopped

  // The evidence about one instance. `lag` is None when unknown; `executed` when unreadable;
  // `countable` tells that its transaction counts fit.
  datatype Instance = Instance(
    id: Id, inventory: bool, healthyProbe: bool, reachableProbe: bool, replica: bool, promotable: bool,
    readOnly: Option<bool>, maintenance: bool, io: Thread, sql: Thread, sqlErrorFree: bool, followsPrimary: bool,
    lag: Option<int>, gtidMode: bool, executed: Option<set<Txn>>, countable: bool,
    family: Option<nat>, version: nat)

  // The primary's evidence, the policy, and whether probe coverage is incomplete.
  datatype Request = Request(
    primaryFailed: bool, primarySource: nat, primaryGtidMode: bool, primaryExecuted: Option<set<Txn>>,
    primaryFamily: Option<nat>, primaryVersion: nat,
    allowDisconnected: bool, maximumLag: int, requireGtid: bool, incompleteCoverage: bool)

  // What is known about transactions lost by promoting a candidate, and how risky that is.
  datatype LossRisk = RiskUnknown | NoLoss | Loses(n: nat) | LiveValidation
  datatype Level = Low | Warning | Blocked

  datatype Evaluation = Evaluation(
    id: Id, eligible: bool, hasWarnings: bool, missing: nat, lag: int, exactVersion: bool,
    lossRisk: LossRisk, level: Level, checks: seq<Check>, rank: nat)

  // The statuses a list of checks contains.
  function Statuses(checks: seq<Check>): set<Status> {
    set c | c in checks :: c.status
  }

  // An evaluation with further checks: a failure makes the candidate ineligible, a warning is
  // remembered.
  function Appended(e: Evaluation, checks: seq<Check>): Evaluation {
    e.(checks := e.checks + checks, eligible := e.eligible && Fail !in Statuses(checks),
       hasWarnings := e.hasWarnings || Warn in Statuses(checks))
  }

  lemma StatusesAppend(a: seq<Check>, b: seq<Check>)
    ensures Statuses(a + b) == Statuses(a) + Statuses(b)
  {
    assert forall c :: c in a + b <==> c in a || c in b;
  }

  lemma AppendedTwice(e: Evaluation, a: seq<Check>, b: seq<Check>)
    ensures Appended(Appended(e, a), b) == Appended(e, a + b)
  {
    StatusesAppend(a, b);
    assert e.checks + a + b == e.checks + (a + b);
  }

  // Appending one check, as the evaluation does it.
  function Add(e: Evaluation, name: string, status: Status): (r: Evaluation)
    ensures r == Appended(e, [Check(name, status)])
  {
    assert Statuses([Check(name, status)]) == {status} by {
      assert forall c :: c in [Check(name, status)] <==> c == Check(name, status);
    }
    e.(checks := e.checks + [Check(name, status)], eligible := e.eligible && status != Fail,
       hasWarnings := e.hasWarnings || status == Warn)
  }

  function Graded(pass: bool, warn: bool): Status {
    if pass then Pass else if warn then Warn else Fail
  }

  // The candidate reconnects to a failed primary, which the policy allows.
  predicate Reconnects(r: Request, c: Instance) {
    r.allowDisconnected && r.primaryFailed && c.reachableProbe && c.io == Connecting && c.sql == Running
      && c.sqlErrorFree
  }

  function LagStatus(r: Request, c: Instance): Status {
    if Reconnects(r, c) && c.lag.None? then Warn
    else if c.lag.None? || c.lag.value < 0 || c.lag.value > r.maximumLag then Fail
    else if c.lag.value > 0 then Warn else Pass
  }

  predicate Comparable(r: Request, c: Instance) {
    r.primaryExecuted.Some? && c.executed.Some? && c.countable
  }

  function Missing(r: Request, c: Instance): set<Txn> {
    if Comparable(r, c) then r.primaryExecuted.value - c.executed.value else {}
  }

  function Errant(r: Request, c: Instance): set<Txn> {
    if Comparable(r, c) then c.executed.value - r.primaryExecuted.value else {}
  }

  // Errant transactions are tolerated as sampling skew only when nothing is missing and all of them
  // come from the primary itself.
  predicate SamplingSkew(r: Request, c: Instance) {
    Missing(r, c) == {} && Errant(r, c) != {} && forall t | t in Errant(r, c) :: t.0 == r.primarySource
  }

  function GtidStatus(r: Request, c: Instance): Status {
    if !Comparable(r, c) then Fail
    else if Errant(r, c) != {} then if SamplingSkew(r, c) then Warn else Fail
    else if Missing(r, c) != {} then Warn else Pass
  }

  predicate SameFamily(r: Request, c: Instance) {
    r.primaryFamily.Some? && c.family.Some? && r.primaryFamily == c.family
  }

  // The checks in their order.
  function MemberChecks(r: Request, c: Instance): seq<Check> {
    [Check("inventory_membership", Graded(c.inventory && (c.healthyProbe || Reconnects(r, c)), false)),
     Check("candidate_role", Graded(c.replica, false)),
     Check("reachability", Graded(c.healthyProbe, Reconnects(r, c)))]
  }

  function RoleChecks(r: Request, c: Instance): seq<Check> {
    [Check("promotion_eligibility", Graded(c.promotable, Reconnects(r, c))),
     Check("replica_read_only", Graded(c.readOnly == Some(true), false)),
     Check("maintenance", Graded(!c.maintenance, false))]
  }

  function ReplicationChecks(r: Request, c: Instance): seq<Check> {
    [Check("replication_threads", Graded(c.io == Running && c.sql == Running, Reconnects(r, c))),
     Check("replication_sql_error", Graded(c.sqlErrorFree, false)),
     Check("replication_source", Graded(c.followsPrimary, false)),
     Check("replication_lag", LagStatus(r, c))]
  }

  function HistoryChecks(r: Request, c: Instance): seq<Check> {
    [Check("gtid_mode", Graded(!r.requireGtid || (r.primaryGtidMode && c.gtidMode), false)),
     Check("gtid_consistency", GtidStatus(r, c)),
     Check("version_compatibility", Graded(SameFamily(r, c), false)),
     Check("probe_coverage", Graded(!r.incompleteCoverage, true))]
  }

  function Checks(r: Request, c: Instance): seq<Check> {
    MemberChecks(r, c) + RoleChecks(r, c) + ReplicationChecks(r, c) + HistoryChecks(r, c)
  }

  // Everything an eligible candidate has proven, by group of checks.
  predicate Member(r: Request, c: Instance) {
    c.inventory && (c.healthyProbe || Reconnects(r, c)) && c.replica
  }

  predicate Role(r: Request, c: Instance) {
    (c.promotable || Reconnects(r, c)) && c.readOnly == Some(true) && !c.maintenance
  }

  predicate Replicates(r: Request, c: Instance) {
    && ((c.io == Running && c.sql == Running) || Reconnects(r, c)) && c.sqlErrorFree && c.followsPrimary
    && LagStatus(r, c) != Fail
  }

  predicate SharesHistory(r: Request, c: Instance) {
    (!r.requireGtid || (r.primaryGtidMode && c.gtidMode)) && GtidStatus(r, c) != Fail && SameFamily(r, c)
  }

  predicate Qualified(r: Request, c: Instance) {
    Member(r, c) && Role(r, c) && Replicates(r, c) && SharesHistory(r, c)
  }

  // Everything that makes an assessment a warning.
  predicate Warned(r: Request, c: Instance) {
    || (Reconnects(r, c) && !(c.healthyProbe && c.promotable && c.io == Running && c.sql == Running))
    || LagStatus(r, c) == Warn || GtidStatus(r, c) == Warn || r.incompleteCoverage
  }

  // The known loss: nothing, a number of transactions, or to be validated on the live server.
  function Loss(r: Request, c: Instance): LossRisk {
    if !Comparable(r, c) then RiskUnknown
    else if Missing(r, c) != {} then Loses(|Missing(r, c)|)
    else if Errant(r, c) == {} then NoLoss
    else if SamplingSkew(r, c) then LiveValidation else RiskUnknown
  }

  function LevelOf(eligible: bool, hasWarnings: bool): Level {
    if !eligible then Blocked else if hasWarnings then Warning else Low
  }

  // What the assessment amounts to. An eligible candidate that lacks something carries a warning, and
  // its data-loss risk is known.
  function Assessed(r: Request, c: Instance): (e: Evaluation)
    ensures e.eligible && e.missing > 0 ==> e.hasWarnings
    ensures e.eligible ==> e.lossRisk != RiskUnknown && (e.lossRisk == NoLoss ==> e.missing == 0)
  {
    Evaluation(c.id, Qualified(r, c), Warned(r, c), |Missing(r, c)|, if c.lag.Some?
      && c.lag.value >= 0 then c.lag.value else 0,
               SameFamily(r, c) && r.primaryVersion == c.version, Loss(r, c), LevelOf(Qualified(r, c), Warned(r, c)),
               Checks(r, c), 0)
  }

  // The candidate lost its connection to a failed primary, has applied everything it received, and the
  // policy allows for that.
  predicate Cut(r: Request, c: Instance) {
    && r.allowDisconnected && r.primaryFailed && c.reachableProbe && c.io == Connecting && c.sql == Running
    && c.sqlErrorFree
  }

  // What the candidate has executed beyond the primary, and what it lacks.
  ghost predicate Compared(r: Request, c: Instance) {
    r.primaryExecuted.Some? && c.executed.Some? && c.countable
  }

  ghost predicate Ahead(r: Request, c: Instance, t: Txn)
    requires Compared(r, c)
  {
    t in c.executed.value && t !in r.primaryExecuted.value
  }

  ghost predicate Behind(r: Request, c: Instance, t: Txn)
    requires Compared(r, c)
  {
    t in r.primaryExecuted.value && t !in c.executed.value
  }

  // A history that may be promoted: comparable, and ahead only with transactions of the primary itself
  // while nothing is missing.
  ghost predicate Promotable(r: Request, c: Instance) {
    && Compared(r, c)
    && ((exists t :: Ahead(r, c, t)) ==>
          (forall t :: !Behind(r, c, t)) && forall t | Ahead(r, c, t) :: t.0 == r.primarySource)
  }

  // Exactly who is eligible, condition by condition. A candidate cut off from a failed primary is excused
  // from health, promotability, a running connection and a known lag, and from nothing else.
  lemma EligibleExactly(r: Request, c: Instance)
    ensures Assessed(r, c).eligible <==>
              && c.inventory && c.replica && c.readOnly == Some(true) && !c.maintenance && c.sqlErrorFree
              && c.followsPrimary && (c.healthyProbe || Cut(r, c)) && (c.promotable || Cut(r, c))
              && ((c.io == Running && c.sql == Running) || Cut(r, c))
              && (if c.lag.None? then Cut(r, c) else 0 <= c.lag.value <= r.maximumLag)
              && (r.requireGtid ==> r.primaryGtidMode && c.gtidMode) && Promotable(r, c)
              && r.primaryFamily.Some? && c.family == r.primaryFamily
  {
    if Compared(r, c) {
      HistoriesMean(r, c);
    }
  }

  lemma HistoriesMean(r: Request, c: Instance)
    requires Compared(r, c)
    ensures Errant(r, c) == {} <==> forall t :: !Ahead(r, c, t)
    ensures Missing(r, c) == {} <==> forall t :: !Behind(r, c, t)
    ensures GtidStatus(r, c) != Fail <==> Promotable(r, c)
    ensures GtidStatus(r, c) == Pass <==> (forall t :: !Ahead(r, c, t)) && (forall t :: !Behind(r, c, t))
  {
    if Errant(r, c) != {} {
      var t :| t in Errant(r, c);
      assert Ahead(r, c, t);
    }
    if Missing(r, c) != {} {
      var t :| t in Missing(r, c);
      assert Behind(r, c, t);
    }
    assert forall t :: t in Errant(r, c) <==> Ahead(r, c, t);
    assert forall t :: t in Missing(r, c) <==> Behind(r, c, t);
  }

  // Exactly when an eligible candidate is without reservation: healthy and promotable, both threads
  // running, no lag, the same history, and every instance probed.
  lemma CleanExactly(r: Request, c: Instance)
    requires Assessed(r, c).eligible
    ensures !Assessed(r, c).hasWarnings <==>
              && c.healthyProbe && c.promotable && c.io == Running && c.sql == Running && c.lag == Some(0)
              && c.executed == r.primaryExecuted && !r.incompleteCoverage
    ensures Assessed(r, c).level == (if Assessed(r, c).hasWarnings then Warning else Low)
  {
    EligibleExactly(r, c);
    HistoriesMean(r, c);
    var a, b := r.primaryExecuted.value, c.executed.value;
    if GtidStatus(r, c) == Pass {
      assert forall t :: t in a <==> t in b by {
        forall t
          ensures t in a <==> t in b
        {
          assert !Ahead(r, c, t) && !Behind(r, c, t);
        }
      }
      assert a == b;
    }
  }

  // The statuses of three or four checks.
  lemma StatusesOf(a: Check, b: Check, c: Check, d: Check)
    ensures Statuses([a, b, c]) == {a.status, b.status, c.status}
    ensures Statuses([a, b, c, d]) == {a.status, b.status, c.status, d.status}
  {
    assert forall x :: x in [a, b, c] <==> x == a || x == b || x == c;
    assert forall x :: x in [a, b, c, d] <==> x == a || x == b || x == c || x == d;
  }

  lemma MemberMeans(r: Request, c: Instance)
    ensures Fail !in Statuses(MemberChecks(r, c)) <==> Member(r, c)
    ensures Warn in Statuses(MemberChecks(r, c)) <==> Reconnects(r, c) && !c.healthyProbe
  {
    var m := MemberChecks(r, c);
    StatusesOf(m[0], m[1], m[2], m[0]);
  }

  lemma RoleMeans(r: Request, c: Instance)
    ensures Fail !in Statuses(RoleChecks(r, c)) <==> Role(r, c)
    ensures Warn in Statuses(RoleChecks(r, c)) <==> Reconnects(r, c) && !c.promotable
  {
    var m := RoleChecks(r, c);
    StatusesOf(m[0], m[1], m[2], m[0]);
  }

  lemma ReplicationMeans(r: Request, c: Instance)
    ensures Fail !in Statuses(ReplicationChecks(r, c)) <==> Replicates(r, c)
    ensures Warn in Statuses(ReplicationChecks(r, c)) <==>
              (Reconnects(r, c) && !(c.io == Running && c.sql == Running)) || LagStatus(r, c) == Warn
  {
    var m := ReplicationChecks(r, c);
    StatusesOf(m[0], m[1], m[2], m[3]);
  }

  lemma HistoryMeans(r: Request, c: Instance)
    ensures Fail !in Statuses(HistoryChecks(r, c)) <==> SharesHistory(r, c)
    ensures Warn in Statuses(HistoryChecks(r, c)) <==> GtidStatus(r, c) == Warn || r.incompleteCoverage
  {
    var m := HistoryChecks(r, c);
    StatusesOf(m[0], m[1], m[2], m[3]);
  }

  // All checks together decide eligibility and warnings.
  lemma ChecksMean(r: Request, c: Instance)
    ensures Fail !in Statuses(Checks(r, c)) <==> Qualified(r, c)
    ensures Warn in Statuses(Checks(r, c)) <==> Warned(r, c)
  {
    MemberMeans(r, c);
    RoleMeans(r, c);
    ReplicationMeans(r, c);
    HistoryMeans(r, c);
    StatusesAppend(MemberChecks(r, c), RoleChecks(r, c));
    StatusesAppend(MemberChecks(r, c) + RoleChecks(r, c), ReplicationChecks(r, c));
    StatusesAppend(MemberChecks(r, c) + RoleChecks(r, c) + ReplicationChecks(r, c), HistoryChecks(r, c));
  }

  // The assessment of one instance, check by check.
  method Evaluate(r: Request, c: Instance) returns (e: Evaluation)
    ensures e == Assessed(r, c)
  {
    ghost var start := Evaluation(c.id, true, false, 0, 0, false, RiskUnknown, Low, [], 0);
    e := Evaluation(c.id, true, false, 0, 0, false, RiskUnknown, Low, [], 0);
    e := CheckMembership(r, c, e);
    e := CheckRole(r, c, e);
    e := CheckReplication(r, c, e);
    e := CheckHistory(r, c, e);
    AppendedTwice(start, MemberChecks(r, c), RoleChecks(r, c));
    AppendedTwice(start, MemberChecks(r, c) + RoleChecks(r, c), ReplicationChecks(r, c));
    AppendedTwice(start, MemberChecks(r, c) + RoleChecks(r, c) + ReplicationChecks(r, c), HistoryChecks(r, c));
    assert e == Appended(start, Checks(r, c));
    ChecksMean(r, c);
    if c.lag.Some? && c.lag.value >= 0 {
      e := e.(lag := c.lag.value);
    }
    if Comparable(r, c) {
      e := e.(missing := |Missing(r, c)|, lossRisk := Loss(r, c));
    }
    if SameFamily(r, c) {
      e := e.(exactVersion := r.primaryVersion == c.version);
    }
    if !e.eligible {
      e := e.(level := Blocked);
    } else if e.hasWarnings {
      e := e.(level := Warning);
    }
    assert [] + Checks(r, c) == Checks(r, c);
  }

  method CheckMembership(r: Request, c: Instance, start: Evaluation) returns (e: Evaluation)
    ensures e == Appended(start, MemberChecks(r, c))
  {
    var checks := MemberChecks(r, c);
    e := Add(start, "inventory_membership", Graded(c.inventory && (c.healthyProbe || Reconnects(r, c)), false));
    e := Add(e, "candidate_role", Graded(c.replica, false));
    e := Add(e, "reachability", Graded(c.healthyProbe, Reconnects(r, c)));
    AppendedThrice(start, checks[0], checks[1], checks[2]);
  }

  lemma AppendedThrice(e: Evaluation, a: Check, b: Check, c: Check)
    ensures Appended(Appended(Appended(e, [a]), [b]), [c]) == Appended(e, [a, b, c])
  {
    AppendedTwice(e, [a], [b]);
    AppendedTwice(e, [a, b], [c]);
    assert [a] + [b] == [a, b] && [a, b] + [c] == [a, b, c];
  }

  method CheckRole(r: Request, c: Instance, start: Evaluation) returns (e: Evaluation)
    ensures e == Appended(start, RoleChecks(r, c))
  {
    var checks := RoleChecks(r, c);
    e := Add(start, "promotion_eligibility", Graded(c.promotable, Reconnects(r, c)));
    e := Add(e, "replica_read_only", Graded(c.readOnly == Some(true), false));
    e := Add(e, "maintenance", Graded(!c.maintenance, false));
    AppendedThrice(start, checks[0], checks[1], checks[2]);
  }

  method CheckReplication(r: Request, c: Instance, start: Evaluation) returns (e: Evaluation)
    ensures e == Appended(start, ReplicationChecks(r, c))
  {
    var checks := ReplicationChecks(r, c);
    e := Add(start, "replication_threads", Graded(c.io == Running && c.sql == Running, Reconnects(r, c)));
    e := Add(e, "replication_sql_error", Graded(c.sqlErrorFree, false));
    e := Add(e, "replication_source", Graded(c.followsPrimary, false));
    e := Add(e, "replication_lag", LagStatus(r, c));
    AppendedThrice(start, checks[0], checks[1], checks[2]);
    AppendedTwice(start, checks[..3], [checks[3]]);
    assert checks[..3] == [checks[0], checks[1], checks[2]] && checks[..3] + [checks[3]] == checks;
  }

  method CheckHistory(r: Request, c: Instance, start: Evaluation) returns (e: Evaluation)
    ensures e == Appended(start, HistoryChecks(r, c))
  {
    var checks := HistoryChecks(r, c);
    e := Add(start, "gtid_mode", Graded(!r.requireGtid || (r.primaryGtidMode && c.gtidMode), false));
    e := Add(e, "gtid_consistency", GtidStatus(r, c));
    e := Add(e, "version_compatibility", Graded(SameFamily(r, c), false));
    e := Add(e, "probe_coverage", Graded(!r.incompleteCoverage, true));
    AppendedThrice(start, checks[0], checks[1], checks[2]);
    AppendedTwice(start, checks[..3], [checks[3]]);
    assert checks[..3] == [checks[0], checks[1], checks[2]] && checks[..3] + [checks[3]] == checks;
  }

  // ---- Ranking ----

  // The comparison of the sort: eligible first, then warnings, missing transactions, lag, exact
  // version, and the identifier.
  predicate Less(a: Evaluation, b: Evaluation) {
    if a.eligible != b.eligible then a.eligible
    else if !a.eligible then a.id < b.id
    else if a.hasWarnings != b.hasWarnings then !a.hasWarnings
    else if a.missing != b.missing then a.missing < b.missing
    else if a.lag != b.lag then a.lag < b.lag
    else if a.exactVersion != b.exactVersion then a.exactVersion
    else a.id < b.id
  }

  predicate Sorted(s: seq<Evaluation>) {
    forall i, j | 0 <= i < j < |s| :: Less(s[i], s[j])
  }

  predicate DistinctIds(s: seq<Evaluation>) {
    forall i, j | 0 <= i < j < |s| :: s[i].id != s[j].id
  }

  lemma LessIsTransitive(a: Evaluation, b: Evaluation, c: Evaluation)
    requires Less(a, b) && Less(b, c)
    ensures Less(a, c)
  {}

  // Inserting into a sorted list.
  method InsertSorted(s: seq<Evaluation>, e: Evaluation) returns (r: seq<Evaluation>)
    requires Sorted(s) && forall x | x in s :: x.id != e.id
    ensures Sorted(r) && multiset(r) == multiset(s) + multiset{e}
  {
    var k := |s|;
    while k > 0 && Less(e, s[k - 1])
      invariant 0 <= k <= |s|
      invariant forall i | k <= i < |s| :: Less(e, s[i])
    {
      k := k - 1;
    }
    r := s[..k] + [e] + s[k..];
    assert s == s[..k] + s[k..];
    if k > 0 {
      assert s[k - 1] in s;
      LessIsTotal(s[k - 1], e);
    }
    InsertKeepsSorted(s, k, e);
  }

  lemma LessIsTotal(a: Evaluation, b: Evaluation)
    requires a.id != b.id
    ensures Less(a, b) != Less(b, a)
  {}

  lemma InsertKeepsSorted(s: seq<Evaluation>, k: nat, e: Evaluation)
    requires Sorted(s) && k <= |s| && (k > 0 ==> Less(s[k - 1], e)) && forall i | k <= i < |s| :: Less(e, s[i])
    ensures Sorted(s[..k] + [e] + s[k..])
  {
    forall i | 0 <= i < k
      ensures Less(s[i], e)
    {
      if i < k - 1 {
        LessIsTransitive(s[i], s[k - 1], e);
      }
    }
    var r := s[..k] + [e] + s[k..];
    forall i, j | 0 <= i < j < |r|
      ensures Less(r[i], r[j])
    {
      var x, y := if i < k then i else i - 1, if j < k then j else j - 1;
      if i != k && j != k {
        assert Less(s[x], s[y]);
      }
    }
  }

  // The sort; any sort gives the same list, as SortIsUnique shows.
  method SortEvaluations(s: seq<Evaluation>) returns (r: seq<Evaluation>)
    requires DistinctIds(s)
    ensures Sorted(r) && multiset(r) == multiset(s)
  {
    r := [];
    for i := 0 to |s|
      invariant Sorted(r) && multiset(r) == multiset(s[..i])
    {
      forall x | x in r
        ensures x.id != s[i].id
      {
        assert x in multiset(s[..i]);
      }
      r := InsertSorted(r, s[i]);
      assert s[..i + 1] == s[..i] + [s[i]];
    }
    assert s[..|s|] == s;
  }

  // A sorted list is determined by its elements.
  lemma {:induction false} SortIsUnique(a: seq<Evaluation>, b: seq<Evaluation>)
    requires Sorted(a) && Sorted(b) && multiset(a) == multiset(b)
    ensures a == b
  {
    if a == [] {
      assert |b| == |multiset(b)|;
    } else {
      assert |a| == |multiset(a)| == |multiset(b)| == |b|;
      SameHead(a, b);
      assert a == [a[0]] + a[1..] && b == [b[0]] + b[1..];
      assert multiset(a[1..]) == multiset(a) - multiset{a[0]};
      assert multiset(b[1..]) == multiset(b) - multiset{b[0]};
      SortIsUnique(a[1..], b[1..]);
    }
  }

  lemma SameHead(a: seq<Evaluation>, b: seq<Evaluation>)
    requires Sorted(a) && Sorted(b) && multiset(a) == multiset(b) && a != [] && b != []
    ensures a[0] == b[0]
  {
    assert a[0] in multiset(b) && b[0] in multiset(a);
    HeadIsLeast(a, b[0]);
    HeadIsLeast(b, a[0]);
    LessIsAsymmetric(a[0], b[0]);
  }

  lemma LessIsAsymmetric(a: Evaluation, b: Evaluation)
    ensures !(Less(a, b) && Less(b, a))
  {}

  lemma HeadIsLeast(s: seq<Evaluation>, x: Evaluation)
    requires Sorted(s) && s != [] && x in s
    ensures x == s[0] || Less(s[0], x)
  {}

  function CountEligible(s: seq<Evaluation>): (n: nat)
    ensures n <= |s|
  {
    if s == [] then 0 else CountEligible(s[..|s| - 1]) + (if s[|s| - 1].eligible then 1 else 0)
  }

  function RankOf(s: seq<Evaluation>, i: nat): nat
    requires i < |s|
  {
    if s[i].eligible then CountEligible(s[..i]) + 1 else 0
  }

  predicate IsRanked(s: seq<Evaluation>, r: seq<Evaluation>) {
    |r| == |s| && forall i | 0 <= i < |s| :: r[i] == s[i].(rank := RankOf(s, i))
  }

  // The ranking loop.
  method Rank(s: seq<Evaluation>) returns (r: seq<Evaluation>)
    ensures IsRanked(s, r)
  {
    r := [];
    var nextRank := 1;
    for i := 0 to |s|
      invariant |r| == i && nextRank == CountEligible(s[..i]) + 1
      invariant forall j | 0 <= j < i :: r[j] == s[j].(rank := RankOf(s, j))
    {
      assert s[..i + 1][..i] == s[..i];
      if s[i].eligible {
        r := r + [s[i].(rank := nextRank)];
        nextRank := nextRank + 1;
      } else {
        r := r + [s[i].(rank := 0)];
      }
    }
  }

  // The output belongs to the evaluations: sorted, then ranked.
  ghost predicate IsRanking(evaluations: seq<Evaluation>, out: seq<Evaluation>) {
    exists sorted :: Sorted(sorted) && multiset(sorted) == multiset(evaluations) && IsRanked(sorted, out)
  }

  function AssessAll(r: Request, instances: seq<Instance>): seq<Evaluation> {
    seq(|instances|, i requires 0 <= i < |instances| => Assessed(r, instances[i]))
  }

  // Assessing, sorting and ranking all instances.
  method EvaluateAll(r: Request, instances: seq<Instance>) returns (evaluations: seq<Evaluation>, out: seq<Evaluation>)
    requires forall i, j | 0 <= i < j < |instances| :: instances[i].id != instances[j].id
    ensures evaluations == AssessAll(r, instances)
    ensures IsRanking(evaluations, out)
  {
    evaluations := [];
    for i := 0 to |instances|
      invariant |evaluations| == i && forall j | 0 <= j < i :: evaluations[j] == Assessed(r, instances[j])
    {
      var e := Evaluate(r, instances[i]);
      evaluations := evaluations + [e];
    }
    var sorted := SortEvaluations(evaluations);
    out := Rank(sorted);
  }

  // The ranking does not depend on the order of the input.
  lemma {:induction false} RankingIgnoresOrder(a: seq<Evaluation>, b: seq<Evaluation>, outA: seq<Evaluation>,
      outB: seq<Evaluation>)
    requires multiset(a) == multiset(b) && IsRanking(a, outA) && IsRanking(b, outB)
    ensures outA == outB
  {
    var s: seq<Evaluation> :| Sorted(s) && multiset(s) == multiset(a) && IsRanked(s, outA);
    var t: seq<Evaluation> :| Sorted(t) && multiset(t) == multiset(b) && IsRanked(t, outB);
    SortIsUnique(s, t);
  }

  lemma {:induction false} EligiblePrefix(s: seq<Evaluation>, i: nat)
    requires Sorted(s) && i <= |s| && (i > 0 ==> s[i - 1].eligible)
    ensures CountEligible(s[..i]) == i
  {
    if i > 0 {
      assert s[..i][..i - 1] == s[..i - 1];
      if i > 1 {
        assert Less(s[i - 2], s[i - 1]);
      }
      EligiblePrefix(s, i - 1);
    }
  }

  // Eligible candidates come first and their ranks are exactly 1, 2, and so on.
  lemma {:induction false} RanksAreConsecutive(evaluations: seq<Evaluation>, out: seq<Evaluation>, i: nat)
    requires IsRanking(evaluations, out) && i < |out|
    ensures out[i].rank == (if out[i].eligible then i + 1 else 0)
    ensures out[i].eligible ==> forall j | 0 <= j < i :: out[j].eligible
  {
    var s: seq<Evaluation> :| Sorted(s) && multiset(s) == multiset(evaluations) && IsRanked(s, out);
    if s[i].eligible {
      if i > 0 {
        assert Less(s[i - 1], s[i]);
      }
      EligiblePrefix(s, i);
      forall j | 0 <= j < i
        ensures s[j].eligible
      {
        assert Less(s[j], s[i]);
      }
    }
  }

  // An eligible candidate that lacks something carries a warning.
  predicate Warns(e: Evaluation) {
    e.eligible && e.missing > 0 ==> e.hasWarnings
  }

  lemma LessMeansFewer(a: Evaluation, b: Evaluation)
    requires Less(a, b) && a.eligible && b.eligible && Warns(a)
    ensures a.missing <= b.missing
  {}

  lemma FirstIsFewest(evaluations: seq<Evaluation>, sorted: seq<Evaluation>, other: nat)
    requires Sorted(sorted) && multiset(sorted) == multiset(evaluations) && forall e | e in evaluations :: Warns(e)
    requires other < |sorted| && sorted[0].eligible && sorted[other].eligible
    ensures sorted[0].missing <= sorted[other].missing
  {
    assert sorted[0] in multiset(evaluations);
    if other > 0 {
      LessMeansFewer(sorted[0], sorted[other]);
    }
  }

  // Although the sort looks at warnings first, the candidate with rank 1 has the fewest missing
  // transactions of all eligible ones.
  lemma {:induction false} FirstLosesLeast(r: Request, instances: seq<Instance>, out: seq<Evaluation>, best: nat,
      other: nat)
    requires IsRanking(AssessAll(r, instances), out)
    requires best < |out| && other < |out| && out[best].rank == 1 && out[other].eligible
    ensures out[best].eligible && out[best].missing <= out[other].missing
  {
    var evaluations := AssessAll(r, instances);
    RanksAreConsecutive(evaluations, out, best);
    var sorted: seq<Evaluation> :| Sorted(sorted) && multiset(sorted) == multiset(evaluations) && IsRanked(sorted, out);
    FirstIsFewest(evaluations, sorted, other);
  }
}
