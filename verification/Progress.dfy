// Durable step progress: the set of recorded steps of one operation, compared with the plan.
module Progress {

  // The steps of the first `k` entries of the plan.
  ghost function FirstSteps<S>(plan: seq<S>, k: nat): set<S>
    requires k <= |plan|
  {
    set s | s in plan[..k]
  }

  // The recorded steps are exactly the first `k` steps of the plan, for some `k`.
  ghost predicate IsPrefix<S>(done: set<S>, plan: seq<S>) {
    exists k: nat :: k <= |plan| && done == FirstSteps(plan, k)
  }

  // Everything the plan lists before position `j` is recorded.
  ghost predicate Covers<S>(done: set<S>, plan: seq<S>, j: nat) {
    j <= |plan| && FirstSteps(plan, j) <= done
  }

  // Recording the step at position `j` keeps the prefix shape once everything before it is
  // recorded, whether the step is new, a repetition, or listed twice by the plan.
  lemma RecordKeepsPrefix<S>(done: set<S>, plan: seq<S>, j: nat)
    requires IsPrefix(done, plan)
    requires j < |plan| && Covers(done, plan, j)
    ensures IsPrefix(done + {plan[j]}, plan)
    ensures Covers(done + {plan[j]}, plan, j + 1)
  {
    var k: nat :| k <= |plan| && done == FirstSteps(plan, k);
    assert plan[..j + 1] == plan[..j] + [plan[j]];
    assert FirstSteps(plan, j + 1) == FirstSteps(plan, j) + {plan[j]};
    if j < k {
      assert plan[j] in plan[..k];
      assert done + {plan[j]} == FirstSteps(plan, k);
    } else {
      assert plan[..k] <= plan[..j];
      assert FirstSteps(plan, k) <= FirstSteps(plan, j);
      assert done + {plan[j]} == FirstSteps(plan, j + 1);
    }
  }

  lemma CoversNext<S>(done: set<S>, plan: seq<S>, j: nat)
    requires j < |plan| && Covers(done, plan, j) && plan[j] in done
    ensures Covers(done, plan, j + 1)
  {
    assert plan[..j + 1] == plan[..j] + [plan[j]];
  }

  // What one move of an executor may do to the recorded steps: nothing, or record the next entry of
  // the plan; and it may count on one entry more only if it recorded it or found it recorded.
  predicate Advances<S(==)>(a: set<S>, b: set<S>, plan: seq<S>, i: nat, j: nat) {
    || (b == a && j <= i)
    || (i < |plan| && b == a + {plan[i]} && j <= i + 1)
    || (i < |plan| && b == a && plan[i] in a && j <= i + 1)
  }

  // Such moves keep the recorded steps a prefix of the plan.
  lemma AdvanceKeepsPrefix<S>(a: set<S>, b: set<S>, plan: seq<S>, i: nat, j: nat)
    requires IsPrefix(a, plan) && Covers(a, plan, i) && Advances(a, b, plan, i, j)
    ensures IsPrefix(b, plan) && Covers(b, plan, j)
  {
    if i < |plan| && b == a + {plan[i]} {
      RecordKeepsPrefix(a, plan, i);
    } else if j == i + 1 {
      CoversNext(a, plan, i);
    }
    if j <= i {
      assert plan[..j] <= plan[..i];
    }
  }

  lemma CoversAll<S>(done: set<S>, plan: seq<S>)
    requires Covers(done, plan, |plan|)
    ensures forall step | step in plan :: step in done
  {
    assert plan[..|plan|] == plan;
  }

  // The prefix shape means order: no step is recorded before one the plan lists earlier.
  lemma PrefixIsOrdered<S>(done: set<S>, plan: seq<S>, i: nat, j: nat)
    requires IsPrefix(done, plan)
    requires i <= j < |plan|
    requires forall x, y | 0 <= x < y < |plan| :: plan[x] != plan[y]
    requires plan[j] in done
    ensures plan[i] in done
  {
    var k: nat :| k <= |plan| && done == FirstSteps(plan, k);
    var m :| 0 <= m < k && plan[..k][m] == plan[j];
    assert m == j;
    assert plan[..k][i] == plan[i];
  }
}
