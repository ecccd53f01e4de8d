// The PostgreSQL topology resolver: loops that rewrite the observations of one round in place, equal
// to a pure function of the set of observations.
module PostgreSQLTopology {
  datatype Option<T> = None | Some(value: T)

  // Canonical host names and native identity keys.
  type Host = nat
  type Key = nat

  datatype Endpoint = Endpoint(ip: Option<Host>, hostname: Option<Host>, port: nat)

  // The native identity: the key it yields, if any, and the system identifier.
  datatype Identity = Identity(key: Option<Key>, system: nat)

  datatype Role = Primary | Standby | OtherRole
  datatype Flag = Yes | No | Unset

  datatype Sender = Sender(application: nat, streaming: bool, replayValid: bool)

  // Same-round streaming evidence: whom the receiver is connected to, and who is connected here.
  datatype Evidence = Evidence(host: Option<Host>, port: nat, senders: seq<Sender>)

  datatype Link = Link(source: Identity, target: Identity)

  // `receiving`: replay not paused, receiver streaming, both threads running, valid timeline and
  // position. `conflict` is the identity-conflict mark in the metadata.
  datatype Observation = Observation(
    endpoint: Endpoint, identity: Identity, nativeId: nat, role: Role, cluster: nat, timeline: nat,
    inRecovery: Flag, readOnly: Flag, receiving: bool, evidence: Option<Evidence>,
    healthy: bool, eligible: bool, conflict: bool, upstream: Option<Identity>, links: seq<Link>)

  // The endpoint an observation was made at: the address if known, else the name.
  function EndpointKey(e: Endpoint): (Option<Host>, nat) {
    (if e.ip.Some? then e.ip else e.hostname, e.port)
  }

  predicate HasKey(o: Observation, k: Key) {
    o.identity.key == Some(k)
  }

  // The endpoints under which a native identity was observed.
  function EndpointsOf(s: seq<Observation>, k: Key): set<(Option<Host>, nat)> {
    set o | o in s && HasKey(o, k) :: EndpointKey(o.endpoint)
  }

  predicate Shared(s: seq<Observation>, o: Observation) {
    o.identity.key.Some? && |EndpointsOf(s, o.identity.key.value)| > 1
  }

  function PrimaryKeys(s: seq<Observation>): set<Key> {
    set o | o in s && o.role == Primary && o.identity.key.Some? :: o.identity.key.value
  }

  // A shared identity is not proven to be one server: it is marked and never eligible.
  function Marked(s: seq<Observation>, o: Observation): Observation {
    if Shared(s, o) then o.(healthy := false, eligible := false, conflict := true) else o
  }

  predicate SafeStreaming(o: Observation) {
    o.inRecovery == Yes && o.readOnly == Yes && o.receiving
  }

  // The receiver is connected to this endpoint, by address or by name.
  predicate ReceiverMatches(e: Evidence, endpoint: Endpoint) {
    e.port == endpoint.port && e.host.Some? && (e.host == endpoint.ip || e.host == endpoint.hostname)
  }

  function Matching(senders: seq<Sender>, id: nat): seq<Sender> {
    if senders == [] then []
    else Matching(senders[..|senders| - 1], id) + (if senders[|senders| - 1].application == id
      then [senders[|senders| - 1]] else [])
  }

  // Exactly one sender serves the standby, and it is streaming from a valid position.
  predicate UniqueSender(senders: seq<Sender>, id: nat) {
    var m := Matching(senders, id);
    |m| == 1 && m[0].streaming && m[0].replayValid
  }

  // The counting loop.
  method CountSenders(senders: seq<Sender>, id: nat) returns (unique: bool)
    ensures unique == UniqueSender(senders, id)
  {
    var matches, streaming := 0, false;
    for i := 0 to |senders|
      invariant matches == |Matching(senders[..i], id)|
      invariant matches > 0 ==>
                var last := Matching(senders[..i], id)[matches - 1]; streaming == (last.streaming && last.replayValid)
    {
      assert senders[..i + 1][..i] == senders[..i];
      if senders[i].application == id {
        matches := matches + 1;
        streaming := senders[i].streaming && senders[i].replayValid;
      }
    }
    assert senders[..|senders|] == senders;
    unique := matches == 1 && streaming;
  }

  // Observation `p` is a healthy writable primary that both ends name as the upstream of standby `o`.
  predicate Confirms(p: Observation, o: Observation) {
    && p.role == Primary && p.healthy && p.inRecovery == No && p.readOnly == No
    && p.cluster == o.cluster && p.identity.system == o.identity.system && p.timeline == o.timeline
    && p.identity.key.Some? && p.identity.key != o.identity.key
    && o.evidence.Some? && ReceiverMatches(o.evidence.value, p.endpoint)
    && p.evidence.Some? && UniqueSender(p.evidence.value.senders, o.nativeId)
  }

  function Unverified(o: Observation): Observation {
    o.(upstream := None, eligible := false, healthy := false, links := [])
  }

  function Verified(o: Observation, source: Identity): Observation {
    o.(upstream := Some(source), eligible := true, healthy := true, links := [Link(source, o.identity)])
  }

  // A standby whose upstream may be looked for.
  predicate Searchable(s: seq<Observation>, o: Observation) {
    && !o.conflict && o.evidence.Some? && |PrimaryKeys(s)| == 1 && SafeStreaming(o) && o.identity.key.Some?
  }

  // The identity of the confirming primary.
  ghost predicate ConfirmedBy(s: seq<Observation>, o: Observation, source: Identity) {
    exists p | p in s :: Confirms(Marked(s, p), o) && p.identity == source
  }

  // Confirming primaries of one standby carry one identity: there is one primary key, and the system
  // identifier is the standby's own.
  lemma OneSource(s: seq<Observation>, o: Observation, p: Observation, q: Observation)
    requires |PrimaryKeys(s)| == 1 && p in s && q in s && Confirms(Marked(s, p), o) && Confirms(Marked(s, q), o)
    ensures p.identity == q.identity
  {
    SingleElement(PrimaryKeys(s), p.identity.key.value, q.identity.key.value);
  }

  lemma SingleElement<T>(s: set<T>, x: T, y: T)
    requires |s| == 1 && x in s && y in s
    ensures x == y
  {
    assert |s - {x}| == 0;
    assert s - {x} == {};
    assert y in s - {x} || y == x;
  }

  // What becomes of one observation, given all of them.
  ghost function Final(s: seq<Observation>, original: Observation): Observation {
    var o := Marked(s, original);
    if o.role != Standby then o.(links := [])
    else if Searchable(s, o) && exists source :: ConfirmedBy(s, o, source) then
      (var source :| ConfirmedBy(s, o, source); Verified(o, source))
    else Unverified(o)
  }

  ghost function Resolution(s: seq<Observation>): seq<Observation> {
    seq(|s|, i requires 0 <= i < |s| => Final(s, s[i]))
  }

  // ---- The loops ----

  // Collecting the endpoints of every identity and the keys of all primaries.
  method Collect(a: array<Observation>) returns (endpoints: map<Key, set<(Option<Host>, nat)>>, primaryKeys: set<Key>)
    ensures primaryKeys == PrimaryKeys(a[..])
    ensures forall k | k in endpoints :: endpoints[k] == EndpointsOf(a[..], k)
    ensures forall o | o in a[..] && o.identity.key.Some? :: o.identity.key.value in endpoints
  {
    endpoints, primaryKeys := map[], {};
    for i := 0 to a.Length
      invariant primaryKeys == PrimaryKeys(a[..i])
      invariant forall k | k in endpoints :: endpoints[k] == EndpointsOf(a[..i], k)
      invariant forall k | k !in endpoints :: EndpointsOf(a[..i], k) == {}
      invariant forall o | o in a[..i] && o.identity.key.Some? :: o.identity.key.value in endpoints
    {
      var o := a[i];
      assert a[..i + 1] == a[..i] + [o];
      if o.identity.key.Some? {
        var k := o.identity.key.value;
        var known := if k in endpoints then endpoints[k] else {};
        forall other | other != k
          ensures EndpointsOf(a[..i + 1], other) == EndpointsOf(a[..i], other)
        {
        }
        assert EndpointsOf(a[..i + 1], k) == EndpointsOf(a[..i], k) + {EndpointKey(o.endpoint)};
        endpoints := endpoints[k := known + {EndpointKey(o.endpoint)}];
        if o.role == Primary {
          primaryKeys := primaryKeys + {k};
        }
      } else {
        assert forall k :: EndpointsOf(a[..i + 1], k) == EndpointsOf(a[..i], k);
      }
    }
    assert a[..a.Length] == a[..];
  }

  // Two observations confirm the standby under different keys.
  predicate Disagree(p: Observation, q: Observation, o: Observation) {
    Confirms(p, o) && Confirms(q, o) && p.identity.key != q.identity.key
  }

  // Looking for the upstream of a standby among the current observations.
  method FindSource(a: array<Observation>, o: Observation) returns (source: Option<Identity>, ambiguous: bool)
    ensures source.None? <==> forall j | 0 <= j < a.Length :: !Confirms(a[j], o)
    ensures source.Some? ==> exists j :: 0 <= j < a.Length && Confirms(a[j], o) && a[j].identity == source.value
    ensures ambiguous <==> exists i, j :: 0 <= i < a.Length && 0 <= j < a.Length && Disagree(a[i], a[j], o)
  {
    source, ambiguous := None, false;
    for j := 0 to a.Length
      invariant source.None? ==> forall i | 0 <= i < j :: !Confirms(a[i], o)
      invariant source.Some? ==> exists i :: 0 <= i < j && Confirms(a[i], o) && a[i].identity == source.value
      invariant forall i | 0 <= i < j && Confirms(a[i], o) :: source.Some? && a[i].identity.key == source.value.key
      invariant !ambiguous
    {
      if Confirms(a[j], o) {
        if source.Some? && source.value.key != a[j].identity.key {
          ghost var i :| 0 <= i < j && Confirms(a[i], o) && a[i].identity == source.value;
          assert Disagree(a[i], a[j], o);
          ambiguous := true;
          return;
        }
        source := Some(a[j].identity);
      }
    }
  }

  // What the rewriting loop may have done so far to an observation other than a standby: dropped links.
  predicate SameEvidence(x: Observation, y: Observation) {
    x.(links := []) == y.(links := []) || (x.role == Standby && y.role == Standby)
  }

  lemma SameConfirms(x: Observation, y: Observation, o: Observation)
    requires SameEvidence(x, y)
    ensures Confirms(x, o) == Confirms(y, o)
  {}

  // Marking shared identities.
  method Mark(a: array<Observation>, endpoints: map<Key, set<(Option<Host>, nat)>>)
    requires forall k | k in endpoints :: endpoints[k] == EndpointsOf(a[..], k)
    requires forall o | o in a[..] && o.identity.key.Some? :: o.identity.key.value in endpoints
    modifies a
    ensures forall j | 0 <= j < a.Length :: a[j] == Marked(old(a[..]), old(a[j]))
  {
    ghost var s := a[..];
    for i := 0 to a.Length
      invariant forall j | 0 <= j < i :: a[j] == Marked(s, s[j])
      invariant forall j | i <= j < a.Length :: a[j] == s[j]
    {
      assert s[i] in s;
      if a[i].identity.key.Some? && |endpoints[a[i].identity.key.value]| > 1 {
        a[i] := a[i].(healthy := false, eligible := false, conflict := true);
      }
    }
  }

  // Rewriting one observation, with those before it already rewritten.
  method RewriteOne(a: array<Observation>, i: nat, single: bool, ghost s: seq<Observation>) returns (r: Observation)
    requires i < a.Length == |s| && single == (|PrimaryKeys(s)| == 1) && a[i] == Marked(s, s[i])
    requires Halfway(s, a[..])
    ensures r == Final(s, s[i])
  {
    var o := a[i];
    if o.role != Standby {
      return o.(links := []);
    }
    if o.conflict || o.evidence.None? || !single || !SafeStreaming(o) || o.identity.key.None? {
      return Unverified(o);
    }
    var source, ambiguous := FindSource(a, o);
    SearchIsExact(s, a[..], o, source);
    if ambiguous {
      ghost var x, y :| 0 <= x < a.Length && 0 <= y < a.Length && Disagree(a[x], a[y], o);
      NeverAmbiguous(s, a[..], o, x, y);
    }
    r := if source.None? || ambiguous then Unverified(o) else Verified(o, source.value);
  }

  // The resolver: the three loops over the array compute the pure resolution.
  method Resolve(a: array<Observation>)
    modifies a
    ensures a[..] == Resolution(old(a[..]))
  {
    ghost var s := a[..];
    var endpoints, primaryKeys := Collect(a);
    Mark(a, endpoints);
    for i := 0 to a.Length
      invariant forall j | 0 <= j < i :: a[j] == Final(s, s[j])
      invariant forall j | i <= j < a.Length :: a[j] == Marked(s, s[j])
    {
      var r := RewriteOne(a, i, |primaryKeys| == 1, s);
      a[i] := r;
    }
  }

  // A half-rewritten array confirms what the marked observations confirm.
  ghost predicate Halfway(s: seq<Observation>, t: seq<Observation>) {
    |t| == |s| && forall j | 0 <= j < |s| :: t[j] == Marked(s, s[j]) || t[j] == Final(s, s[j])
  }

  lemma HalfwayConfirms(s: seq<Observation>, t: seq<Observation>, o: Observation, j: nat)
    requires Halfway(s, t) && j < |s|
    ensures Confirms(t[j], o) == Confirms(Marked(s, s[j]), o) && t[j].identity == s[j].identity && s[j] in s
  {
    FinalKeepsEvidence(s, s[j]);
    SameConfirms(t[j], Marked(s, s[j]), o);
  }

  lemma NeverAmbiguous(s: seq<Observation>, t: seq<Observation>, o: Observation, i: nat, j: nat)
    requires Halfway(s, t) && |PrimaryKeys(s)| == 1 && i < |t| && j < |t| && Confirms(t[i], o) && Confirms(t[j], o)
    ensures t[i].identity == t[j].identity
  {
    HalfwayConfirms(s, t, o, i);
    HalfwayConfirms(s, t, o, j);
    OneSource(s, o, s[i], s[j]);
  }

  // Searching it finds exactly what is confirmed.
  lemma SearchIsExact(s: seq<Observation>, t: seq<Observation>, o: Observation, source: Option<Identity>)
    requires Halfway(s, t) && |PrimaryKeys(s)| == 1
    requires source.None? ==> forall j | 0 <= j < |t| :: !Confirms(t[j], o)
    requires source.Some? ==> exists j :: 0 <= j < |t| && Confirms(t[j], o) && t[j].identity == source.value
    ensures source.Some? <==> exists id :: ConfirmedBy(s, o, id)
    ensures source.Some? ==> forall id | ConfirmedBy(s, o, id) :: id == source.value
  {
    if source.Some? {
      var j :| 0 <= j < |t| && Confirms(t[j], o) && t[j].identity == source.value;
      HalfwayConfirms(s, t, o, j);
      assert ConfirmedBy(s, o, source.value);
      forall id | ConfirmedBy(s, o, id)
        ensures id == source.value
      {
        var p :| p in s && Confirms(Marked(s, p), o) && p.identity == id;
        OneSource(s, o, p, s[j]);
      }
    } else {
      forall p | p in s
        ensures !Confirms(Marked(s, p), o)
      {
        var j :| 0 <= j < |s| && s[j] == p;
        HalfwayConfirms(s, t, o, j);
      }
    }
  }

  lemma FinalKeepsEvidence(s: seq<Observation>, o: Observation)
    ensures SameEvidence(Final(s, o), Marked(s, o)) && Final(s, o).identity == o.identity
            && Final(s, o).endpoint == o.endpoint
    ensures Final(s, o).role == o.role
  {}

  // ---- What the resolution means ----

  lemma SameSetSameView(s: seq<Observation>, t: seq<Observation>)
    requires forall o :: o in s <==> o in t
    ensures forall o :: Marked(s, o) == Marked(t, o)
    ensures PrimaryKeys(s) == PrimaryKeys(t)
  {
    forall k
      ensures EndpointsOf(s, k) == EndpointsOf(t, k)
    {
    }
  }

  // The result for an observation depends on the set of observations only: neither on their order nor
  // on repetitions.
  lemma {:induction false} OrderDoesNotMatter(s: seq<Observation>, t: seq<Observation>, o: Observation)
    requires forall x :: x in s <==> x in t
    ensures Final(s, o) == Final(t, o)
  {
    SameSetSameView(s, t);
    var m := Marked(s, o);
    forall id
      ensures ConfirmedBy(s, m, id) <==> ConfirmedBy(t, m, id)
    {
    }
    if m.role == Standby && Searchable(s, m) && exists id :: ConfirmedBy(s, m, id) {
      var id :| ConfirmedBy(s, m, id);
      UniqueConfirmation(s, o, id);
      UniqueConfirmation(t, o, id);
    }
  }

  // A confirmed standby ends verified, with the confirmed identity.
  lemma UniqueConfirmation(s: seq<Observation>, o: Observation, id: Identity)
    requires var m := Marked(s, o); m.role == Standby && Searchable(s, m) && ConfirmedBy(s, m, id)
    ensures Final(s, o) == Verified(Marked(s, o), id)
  {
    var m := Marked(s, o);
    forall other | ConfirmedBy(s, m, other)
      ensures other == id
    {
      var p :| p in s && Confirms(Marked(s, p), m) && p.identity == id;
      var q :| q in s && Confirms(Marked(s, q), m) && q.identity == other;
      OneSource(s, m, p, q);
    }
  }

  // An eligible standby has exactly one link, to the single observed primary, confirmed at both ends;
  // and that primary's identity is not shared.
  lemma {:induction false} EligibleMeansConfirmed(s: seq<Observation>, o: Observation)
    requires o in s && o.role == Standby && Final(s, o).eligible
    ensures var r := Final(s, o);
            exists p | p in s ::
              && p.role == Primary && Confirms(p, o) && !Shared(s, p) && PrimaryKeys(s) == {p.identity.key.value}
                                 && r.links == [Link(p.identity, o.identity)] && r.upstream == Some(p.identity)
  {
    var m := Marked(s, o);
    assert Searchable(s, m) && exists id :: ConfirmedBy(s, m, id);
    var id :| ConfirmedBy(s, m, id);
    UniqueConfirmation(s, o, id);
    var p :| p in s && Confirms(Marked(s, p), m) && p.identity == id;
    assert p.identity.key.value in PrimaryKeys(s);
    forall k | k in PrimaryKeys(s)
      ensures k == p.identity.key.value
    {
      SingleElement(PrimaryKeys(s), k, p.identity.key.value);
    }
    assert m == o && Marked(s, p) == p;
    assert p.role == Primary && Confirms(p, o) && !Shared(s, p);
  }

  // ---- Exactly who is eligible ----

  // Exactly one sender names the standby, and it streams from a valid position.
  ghost predicate ServedOnce(senders: seq<Sender>, id: nat) {
    exists i :: && 0 <= i < |senders| && senders[i].application == id && senders[i].streaming && senders[i].replayValid
                && forall j | 0 <= j < |senders| && j != i :: senders[j].application != id
  }

  lemma {:induction false} MatchingNone(senders: seq<Sender>, id: nat)
    ensures Matching(senders, id) == [] <==> forall i | 0 <= i < |senders| :: senders[i].application != id
  {
    if senders != [] {
      MatchingNone(senders[..|senders| - 1], id);
    }
  }

  lemma {:induction false} UniqueMeansServed(senders: seq<Sender>, id: nat)
    ensures UniqueSender(senders, id) <==> ServedOnce(senders, id)
  {
    if senders != [] {
      var n := |senders| - 1;
      var front := senders[..n];
      MatchingNone(front, id);
      UniqueMeansServed(front, id);
      if senders[n].application == id {
        if UniqueSender(senders, id) {
          assert Matching(front, id) == [];
          assert senders[n].streaming && senders[n].replayValid;
        }
      } else {
        assert Matching(senders, id) == Matching(front, id);
        if ServedOnce(front, id) {
          var i :| && 0 <= i < n && front[i].application == id && front[i].streaming && front[i].replayValid
                   && forall j | 0 <= j < n && j != i :: front[j].application != id;
          assert senders[i] == front[i];
          assert forall j | 0 <= j < n :: senders[j] == front[j];
        }
        if ServedOnce(senders, id) {
          var i :| && 0 <= i <= n && senders[i].application == id && senders[i].streaming && senders[i].replayValid
                   && forall j | 0 <= j <= n && j != i :: senders[j].application != id;
          assert front[i] == senders[i];
          assert forall j | 0 <= j < n :: front[j] == senders[j];
        }
      }
    }
  }

  // The address an observation was made at, or the name if there is none.
  function HostOf(e: Endpoint): Option<Host> {
    match e.ip
    case Some(h) => Some(h)
    case None => e.hostname
  }

  // Two observations report one identity from different places.
  predicate Clash(x: Observation, y: Observation, k: Key) {
    && x.identity.key == Some(k) && y.identity.key == Some(k)
    && (HostOf(x.endpoint) != HostOf(y.endpoint) || x.endpoint.port != y.endpoint.port)
  }

  lemma SharedMeansClash(s: seq<Observation>, o: Observation)
    ensures Shared(s, o) <==>
              o.identity.key.Some? && exists x, y | x in s && y in s :: Clash(x, y, o.identity.key.value)
  {
    if o.identity.key.Some? {
      var k := o.identity.key.value;
      var all := EndpointsOf(s, k);
      if |all| > 1 {
        var a :| a in all;
        assert |all - {a}| > 0;
        var b :| b in all - {a};
        var x :| x in s && HasKey(x, k) && EndpointKey(x.endpoint) == a;
        var y :| y in s && HasKey(y, k) && EndpointKey(y.endpoint) == b;
        assert Clash(x, y, k);
      }
      if x, y :| x in s && y in s && Clash(x, y, k) {
        var a, b := EndpointKey(x.endpoint), EndpointKey(y.endpoint);
        assert HasKey(x, k) && HasKey(y, k) && a in all && b in all && a != b;
        assert {a, b} <= all;
        SubsetSize({a, b}, all);
      }
    }
  }

  lemma SubsetSize<T>(a: set<T>, b: set<T>)
    requires a <= b
    ensures |a| <= |b|
  {
    assert b == a + (b - a);
  }

  // A healthy writable primary of the same cluster, system and timeline, of another and unshared
  // identity, that the receiver of the standby is connected to and that serves it exactly once.
  ghost predicate Upstream(s: seq<Observation>, p: Observation, o: Observation) {
    && p.role == Primary && p.healthy && p.inRecovery == No && p.readOnly == No && !Shared(s, p)
    && p.cluster == o.cluster && p.timeline == o.timeline && p.identity.system == o.identity.system
    && p.identity.key.Some? && p.identity.key != o.identity.key
    && o.evidence.Some? && o.evidence.value.port == p.endpoint.port && o.evidence.value.host.Some?
    && (o.evidence.value.host == p.endpoint.ip || o.evidence.value.host == p.endpoint.hostname)
    && p.evidence.Some? && ServedOnce(p.evidence.value.senders, o.nativeId)
  }

  lemma ConfirmsMeansUpstream(s: seq<Observation>, p: Observation, o: Observation)
    ensures Confirms(Marked(s, p), o) <==> Upstream(s, p, o)
  {
    if p.evidence.Some? {
      UniqueMeansServed(p.evidence.value.senders, o.nativeId);
    }
  }

  // What makes a standby eligible: it replays a stream read-only, its identity is known, unshared and not
  // marked, all observed primaries carry one identity, and one of them is its upstream.
  ghost predicate Trusted(s: seq<Observation>, o: Observation) {
    && o.role == Standby && !o.conflict && o.identity.key.Some? && !Shared(s, o)
    && o.inRecovery == Yes && o.readOnly == Yes && o.receiving
    && |PrimaryKeys(s)| == 1 && exists p | p in s :: Upstream(s, p, o)
  }

  // A standby is eligible, healthy and linked exactly when it is trusted; otherwise it is degraded, without
  // upstream and without links. Nobody else gets a link.
  lemma {:induction false} EligibleExactly(s: seq<Observation>, o: Observation)
    requires o in s
    ensures o.role == Standby ==>
              var r := Final(s, o);
              && (r.eligible <==> Trusted(s, o)) && r.healthy == r.eligible && (r.links != [] <==> r.eligible)
              && (r.upstream.Some? <==> r.eligible)
    ensures o.role != Standby ==>
              var r := Final(s, o);
              if Shared(s, o) then r == o.(healthy := false, eligible := false, conflict := true, links := [])
              else r == o.(links := [])
  {
    var m := Marked(s, o);
    if o.role == Standby && !Shared(s, o) && o.evidence.Some? {
      forall p | p in s
        ensures Confirms(Marked(s, p), m) <==> Upstream(s, p, o)
      {
        ConfirmsMeansUpstream(s, p, o);
      }
      if p :| p in s && Upstream(s, p, o) {
        assert ConfirmedBy(s, m, p.identity);
      }
    }
  }

  // An identity shared by distinct endpoints is never eligible and never the source of a link.
  lemma {:induction false} SharedIsNeverTrusted(s: seq<Observation>, o: Observation)
    requires o in s
    ensures Shared(s, o) ==> !Final(s, o).eligible
    ensures forall l | l in Final(s, o).links :: forall x | x in s && x.identity.key == l.source.key :: !Shared(s, x)
  {
    if o.role == Standby && Final(s, o).eligible {
      EligibleMeansConfirmed(s, o);
    }
  }

  lemma FinalKeepsStandby(s: seq<Observation>, o: Observation)
    ensures var f, m := Final(s, o), Marked(s, o);
            && f.conflict == m.conflict && f.evidence == m.evidence && SafeStreaming(f) == SafeStreaming(m)
            && forall p :: Confirms(p, f) == Confirms(p, m)
  {}

  // The resolved observations show the same endpoints and primaries.
  lemma ResolutionKeepsIdentity(s: seq<Observation>, i: nat)
    requires i < |s|
    ensures var t := Resolution(s);
            && t[i].identity == s[i].identity && t[i].endpoint == s[i].endpoint && t[i].role == s[i].role
               && t[i] in t && s[i] in s
  {
    FinalKeepsEvidence(s, s[i]);
  }

  lemma ResolutionKeepsEndpoints(s: seq<Observation>, k: Key)
    ensures EndpointsOf(Resolution(s), k) == EndpointsOf(s, k)
  {
    var t := Resolution(s);
    forall e | e in EndpointsOf(s, k)
      ensures e in EndpointsOf(t, k)
    {
      var i :| 0 <= i < |s| && HasKey(s[i], k) && EndpointKey(s[i].endpoint) == e;
      ResolutionKeepsIdentity(s, i);
      assert HasKey(t[i], k);
    }
    forall e | e in EndpointsOf(t, k)
      ensures e in EndpointsOf(s, k)
    {
      var i :| 0 <= i < |t| && HasKey(t[i], k) && EndpointKey(t[i].endpoint) == e;
      ResolutionKeepsIdentity(s, i);
      assert HasKey(s[i], k);
    }
  }

  predicate PrimaryWith(o: Observation, k: Key) {
    o.role == Primary && HasKey(o, k)
  }

  lemma PrimaryStays(s: seq<Observation>, i: nat, k: Key)
    requires i < |s|
    ensures PrimaryWith(Resolution(s)[i], k) <==> PrimaryWith(s[i], k)
  {
    ResolutionKeepsIdentity(s, i);
  }

  lemma PrimaryKeyOf(s: seq<Observation>, k: Key)
    ensures k in PrimaryKeys(s) <==> exists i :: 0 <= i < |s| && PrimaryWith(s[i], k)
  {
    if k in PrimaryKeys(s) {
      var o :| o in s && o.role == Primary && o.identity.key == Some(k);
      var i :| 0 <= i < |s| && s[i] == o;
      assert PrimaryWith(s[i], k);
    }
    if i :| 0 <= i < |s| && PrimaryWith(s[i], k) {
      assert s[i] in s && s[i].identity.key.value == k;
    }
  }

  lemma ResolutionKeepsPrimaries(s: seq<Observation>)
    ensures PrimaryKeys(Resolution(s)) == PrimaryKeys(s)
  {
    var t := Resolution(s);
    forall k
      ensures k in PrimaryKeys(t) <==> k in PrimaryKeys(s)
    {
      PrimaryKeyOf(s, k);
      PrimaryKeyOf(t, k);
      forall i | 0 <= i < |s|
        ensures PrimaryWith(t[i], k) <==> PrimaryWith(s[i], k)
      {
        PrimaryStays(s, i, k);
      }
    }
  }

  lemma ResolutionKeepsView(s: seq<Observation>, o: Observation)
    ensures var t := Resolution(s); PrimaryKeys(t) == PrimaryKeys(s) && Shared(t, o) == Shared(s, o)
  {
    ResolutionKeepsPrimaries(s);
    if o.identity.key.Some? {
      ResolutionKeepsEndpoints(s, o.identity.key.value);
    }
  }

  // A resolved observation needs no further marking.
  lemma FinalIsMarked(s: seq<Observation>, o: Observation)
    ensures Marked(Resolution(s), Final(s, o)) == Final(s, o)
  {
    ResolutionKeepsView(s, Final(s, o));
    FinalKeepsEvidence(s, o);
  }

  lemma ConfirmationsAgree(s: seq<Observation>, o: Observation, id: Identity)
    ensures ConfirmedBy(Resolution(s), Final(s, o), id) <==> ConfirmedBy(s, Marked(s, o), id)
  {
    var t, f, m := Resolution(s), Final(s, o), Marked(s, o);
    FinalKeepsStandby(s, o);
    forall i | 0 <= i < |s|
      ensures Confirms(Marked(t, t[i]), f) == Confirms(Marked(s, s[i]), m) && t[i].identity == s[i].identity
              && t[i] in t && s[i] in s
    {
      FinalIsMarked(s, s[i]);
      FinalKeepsEvidence(s, s[i]);
      SameConfirms(t[i], Marked(s, s[i]), m);
    }
    if ConfirmedBy(s, m, id) {
      var i :| 0 <= i < |s| && Confirms(Marked(s, s[i]), m) && s[i].identity == id;
      assert Confirms(Marked(t, t[i]), f);
    }
    if ConfirmedBy(t, f, id) {
      var i :| 0 <= i < |t| && Confirms(Marked(t, t[i]), f) && t[i].identity == id;
      assert Confirms(Marked(s, s[i]), m);
    }
  }

  lemma FinalIsFinal(s: seq<Observation>, o: Observation)
    ensures Final(Resolution(s), Final(s, o)) == Final(s, o)
  {
    var t, f, m := Resolution(s), Final(s, o), Marked(s, o);
    ResolutionKeepsView(s, f);
    FinalIsMarked(s, o);
    FinalKeepsStandby(s, o);
    FinalKeepsEvidence(s, o);
    forall id
      ensures ConfirmedBy(t, f, id) <==> ConfirmedBy(s, m, id)
    {
      ConfirmationsAgree(s, o, id);
    }
    if m.role == Standby && Searchable(s, m) && exists id :: ConfirmedBy(s, m, id) {
      var id :| ConfirmedBy(s, m, id);
      UniqueConfirmation(s, o, id);
      UniqueConfirmation(t, f, id);
    }
  }

  // Resolving the resolved observations again changes nothing.
  lemma {:induction false} ResolutionIsIdempotent(s: seq<Observation>)
    ensures Resolution(Resolution(s)) == Resolution(s)
  {
    forall i | 0 <= i < |s|
      ensures Resolution(Resolution(s))[i] == Resolution(s)[i]
    {
      FinalIsFinal(s, s[i]);
    }
  }
}
