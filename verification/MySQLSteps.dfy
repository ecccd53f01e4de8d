// What a recorded step says about the members, and that statements keep it true.
module MySQLSteps {
  import opened MySQLMembers

  predicate SameRoles(a: World, b: World) {
    a.src == b.src && a.dst == b.dst && a.others == b.others
  }

  // Member `n` is a fully read-only replica of the target.
  predicate Follows(c: Config, w: World, n: Id) {
    Full(At(c, w, n)) && At(c, w, n).source == Some(c.target)
  }

  // Recorded steps are true: a recorded fence holds, a promoted target stays detached, semi-sync is
  // active, the endpoint belongs to the target, and a reparented follower is a fully read-only
  // replica of the target.
  ghost predicate Meaning(c: Config, w: World) {
    && (FenceSource in w.done ==> Full(w.src))
    && (PromoteTarget in w.done ==> w.dst.source == None)
    && (ActivateSemiSync in w.done ==> w.semiSync) && (TransferEndpoint in w.done ==> w.endpoint)
    && Reparent(c.target) !in w.done
    && (forall n | Known(c, n) && Reparent(n) in w.done :: Follows(c, w, n))
  }

  lemma LocalChangeKeepsMeaning(c: Config, w: World, b: World, n: Id)
    requires Meaning(c, w) && Known(c, n) && c.source != c.target && LocalChange(c, w, b, n)
    requires n == c.source && FenceSource in w.done ==> Full(At(c, b, n))
    requires n == c.target && PromoteTarget in w.done ==> At(c, b, n).source == None
    requires Reparent(n) in w.done ==> Follows(c, b, n)
    ensures Meaning(c, b)
  {
    assert At(c, b, c.source) == b.src && At(c, w, c.source) == w.src && At(c, b, c.target) == b.dst
      && At(c, w, c.target) == w.dst;
    forall m | Known(c, m) && Reparent(m) in b.done
      ensures Follows(c, b, m)
    {
      assert m != n ==> Follows(c, w, m);
    }
  }

  // A statement to member `n` leaves every recorded step true unless it takes a fully fenced member
  // open or detaches or redirects a member whose reparenting is recorded.
  lemma ExecKeepsMeaning(c: Config, w: World, statement: Statement, n: Id, to: Id, reply: Reply)
    requires Meaning(c, w) && Known(c, n) && c.source != c.target
    requires statement == ReadOnlyOff ==> n == c.target
    requires Reparent(n) in w.done ==>
             !statement.ResetReplication? && !statement.ChangeSource? && !statement.ReadOnlyOff?
    requires n == c.target && PromoteTarget in w.done ==> !statement.ChangeSource?
    ensures Meaning(c, Exec(c, w, statement, n, to, reply))
  {
    ExecIsLocalChange(c, w, statement, n, to, reply);
    assert Reparent(n) in w.done ==> Follows(c, w, n);
    assert n == c.source ==> At(c, w, n) == w.src;
    assert n == c.target ==> At(c, w, n) == w.dst;
    LocalChangeKeepsMeaning(c, w, Exec(c, w, statement, n, to, reply), n);
  }

  lemma ReparentKeepsMeaning(c: Config, w: World, n: Id, to: Id, k: nat, reply: Reply)
    requires Meaning(c, w) && Known(c, n) && c.source != c.target && Reparent(n) !in w.done
    requires n == c.target ==> PromoteTarget !in w.done
    ensures Meaning(c, ReparentCall(c, w, n, to, k, reply).0)
  {
    ExecKeepsMeaning(c, w, ReparentStatement(k), n, to, reply);
  }

  // The effect of a statement on the member it is sent to, and on nobody else.
  lemma ExecIsLocal(c: Config, w: World, statement: Statement, n: Id, to: Id, reply: Reply)
    requires Roles(c, w) && Known(c, n)
    ensures var b := Exec(c, w, statement, n, to, reply);
            && b.done == w.done && b.endpoint == w.endpoint && b.semiSync == w.semiSync
            && At(c, b, n) == (if reply == ErrBefore then At(c, w, n) else Effect(statement, to, At(c, w, n)))
            && (n != c.source ==> b.src == w.src) && (n != c.target ==> b.dst == w.dst)
            && (n == c.source || n == c.target ==> b.others == w.others)
  {}

  // Reparenting that succeeds leaves a fully read-only replica of `to`.
  lemma ReparentBuilds(c: Config, w: World, n: Id, to: Id, k: nat, reply: Reply)
    requires Roles(c, w) && Known(c, n)
    requires (k > 0 ==> Full(At(c, w, n))) && (k > 5 ==> At(c, w, n).source == Some(to))
    ensures var (b, sub) := ReparentCall(c, w, n, to, k, reply);
            && (sub == Good || (sub.Go? && sub.k > 0) ==> Full(At(c, b, n)))
            && (sub == Good || (sub.Go? && sub.k > 5) ==> At(c, b, n).source == Some(to))
  {
    ExecIsLocal(c, w, ReparentStatement(k), n, to, reply);
  }

  // And it touches nothing but that member.
  lemma ReparentIsLocal(c: Config, w: World, n: Id, to: Id, k: nat, reply: Reply)
    requires Roles(c, w) && Known(c, n)
    ensures var b := ReparentCall(c, w, n, to, k, reply).0;
            && b.done == w.done && b.endpoint == w.endpoint && b.semiSync == w.semiSync
            && (n != c.source ==> b.src == w.src) && (n != c.target ==> b.dst == w.dst) && (Full(w.src) ==> Full(b.src))
  {
    ExecIsLocal(c, w, ReparentStatement(k), n, to, reply);
  }

  lemma ReparentKeepsDone(c: Config, w: World, n: Id, to: Id, k: nat, reply: Reply)
    ensures ReparentCall(c, w, n, to, k, reply).0.done == w.done
  {
    ExecKeepsDone(c, w, ReparentStatement(k), n, to, reply);
  }

  lemma ExecKeepsDone(c: Config, w: World, statement: Statement, n: Id, to: Id, reply: Reply)
    ensures Exec(c, w, statement, n, to, reply).done == w.done
  {}
}
