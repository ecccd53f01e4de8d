// The recovery check that a source's binary logs still hold everything a replica lacks, which
// justifies skipping a full clone.
module BinlogChain {
  type Name = string
  type Txn = (nat, nat)

  // What reading a log's header brings: its Previous_gtids boundary, proof that the file is gone, or
  // any other failure.
  datatype Header = Boundary(gtids: set<Txn>) | Gone | Unreadable

  datatype Result = Answer(available: bool) | Failure

  // The recovery assessment: fails unless the boundary belongs to the executed history; fast rejoin is
  // safe when the replica has nothing errant and nothing it lacks lies below the boundary.
  predicate Assessable(executed: set<Txn>, boundary: set<Txn>) {
    boundary <= executed
  }

  predicate FastRejoinSafe(executed: set<Txn>, boundary: set<Txn>, target: set<Txn>) {
    target <= executed && boundary <= target
  }

  // The log names in order, each at its first occurrence.
  function Distinct(rows: seq<Name>): seq<Name> {
    if rows == [] then []
    else
      var front := Distinct(rows[..|rows| - 1]);
      if rows[|rows| - 1] in front then front else front + [rows[|rows| - 1]]
  }

  // It lists the same names, none of them twice.
  lemma {:induction false} DistinctIsExact(rows: seq<Name>)
    ensures forall n :: n in rows <==> n in Distinct(rows)
    ensures forall i, j | 0 <= i < j < |Distinct(rows)| :: Distinct(rows)[i] != Distinct(rows)[j]
  {
    if rows != [] {
      var front, last := rows[..|rows| - 1], rows[|rows| - 1];
      DistinctIsExact(front);
      assert rows == front + [last];
    }
  }

  // The transactions log `i` of the list holds: those between its own boundary and the next one, and
  // for the last log everything executed since its boundary.
  function Held(names: seq<Name>, header: Name -> Header, executed: set<Txn>, i: nat): set<Txn>
    requires i < |names| && forall n | n in names :: header(n).Boundary?
  {
    (if i + 1 < |names| then header(names[i + 1]).gtids else executed) - header(names[i]).gtids
  }

  // The evidence the check demands: every distinct log readable and part of the executed history, each
  // boundary containing the one before, and nothing missing below the first.
  predicate Complete(names: seq<Name>, header: Name -> Header, executed: set<Txn>, target: set<Txn>) {
    && names != []
    && (forall i | 0 <= i < |names| :: header(names[i]).Boundary? && Assessable(executed, header(names[i]).gtids))
    && FastRejoinSafe(executed, header(names[0]).gtids, target)
    && (forall i | 0 <= i < |names| - 1 :: header(names[i]).gtids <= header(names[i + 1]).gtids)
  }

  // The same, transaction by transaction.
  lemma CompleteMeans(names: seq<Name>, header: Name -> Header, executed: set<Txn>, target: set<Txn>)
    ensures Complete(names, header, executed, target) <==>
              && names != [] && (forall i | 0 <= i < |names| :: header(names[i]).Boundary?)
              && (forall i, t | 0 <= i < |names| && t in header(names[i]).gtids :: t in executed)
              && (forall t | t in target :: t in executed) && (forall t | t in header(names[0]).gtids :: t in target)
              && (forall i, t | 0 <= i < |names| - 1 && t in header(names[i]).gtids :: t in header(names[i + 1]).gtids)
  {
    if names != [] && forall i | 0 <= i < |names| :: header(names[i]).Boundary? {
      assert FastRejoinSafe(executed, header(names[0]).gtids, target) <==>
        (forall t | t in target :: t in executed) && (forall t | t in header(names[0]).gtids :: t in target);
      forall i | 0 <= i < |names|
        ensures Assessable(executed, header(names[i]).gtids) <==>
                  forall t | t in header(names[i]).gtids :: t in executed
      {}
    }
  }

  // The distinct names of a prefix are a prefix of the distinct names.
  lemma {:induction false} Prolongs(rows: seq<Name>, k: nat)
    requires k <= |rows|
    ensures Distinct(rows[..k]) <= Distinct(rows)
    decreases |rows| - k
  {
    if k < |rows| {
      Prolongs(rows, k + 1);
      assert rows[..k + 1][..k] == rows[..k];
    } else {
      assert rows[..k] == rows;
    }
  }

  // A name not seen before takes the next place among the distinct names.
  lemma NewEntry(rows: seq<Name>, k: nat)
    requires k < |rows| && rows[k] !in Distinct(rows[..k])
    ensures var m := |Distinct(rows[..k])|;
            && Distinct(rows[..k + 1]) == Distinct(rows[..k]) + [rows[k]]
            && m < |Distinct(rows)| && Distinct(rows)[m] == rows[k] && Distinct(rows)[..m] == Distinct(rows[..k])
  {
    assert rows[..k + 1][..k] == rows[..k];
    Prolongs(rows, k + 1);
  }

  // What one more log must satisfy.
  predicate Extends(names: seq<Name>, name: Name, header: Name -> Header, executed: set<Txn>, target: set<Txn>) {
    && header(name).Boundary? && Assessable(executed, header(name).gtids)
    && (if names == [] then FastRejoinSafe(executed, header(name).gtids, target)
        else header(names[|names| - 1]).Boundary? && header(names[|names| - 1]).gtids <= header(name).gtids)
  }

  lemma GrowComplete(names: seq<Name>, name: Name, header: Name -> Header, executed: set<Txn>, target: set<Txn>)
    requires names != [] ==> Complete(names, header, executed, target)
    requires Extends(names, name, header, executed, target)
    ensures Complete(names + [name], header, executed, target)
  {
    var all := names + [name];
    forall i | 0 <= i < |all| - 1
      ensures header(all[i]).gtids <= header(all[i + 1]).gtids
    {
      assert i < |names| - 1 ==> header(names[i]).gtids <= header(names[i + 1]).gtids;
    }
  }

  lemma CompleteExtends(all: seq<Name>, m: nat, header: Name -> Header, executed: set<Txn>, target: set<Txn>)
    requires m < |all| && Complete(all, header, executed, target)
    ensures Extends(all[..m], all[m], header, executed, target)
  {
    if m > 0 {
      assert header(all[m - 1]).gtids <= header(all[m - 1 + 1]).gtids;
    }
  }

  // One more log decides: without it the evidence is not complete, with it the prefix is.
  lemma NewLog(rows: seq<Name>, k: nat, header: Name -> Header, executed: set<Txn>, target: set<Txn>)
    requires k < |rows| && rows[k] !in Distinct(rows[..k])
    requires k > 0 ==> Complete(Distinct(rows[..k]), header, executed, target)
    ensures Distinct(rows[..k + 1]) == Distinct(rows[..k]) + [rows[k]]
    ensures if Extends(Distinct(rows[..k]), rows[k], header, executed, target)
            then Complete(Distinct(rows[..k + 1]), header, executed, target)
            else !Complete(Distinct(rows), header, executed, target)
  {
    NewEntry(rows, k);
    var names := Distinct(rows[..k]);
    if Extends(names, rows[k], header, executed, target) {
      GrowComplete(names, rows[k], header, executed, target);
    } else if Complete(Distinct(rows), header, executed, target) {
      CompleteExtends(Distinct(rows), |names|, header, executed, target);
    }
  }

  // The check over the listed logs; duplicate entries are skipped.
  method IncrementalAvailable(rows: seq<Name>, valid: Name -> bool, header: Name -> Header, executed: set<Txn>,
      target: set<Txn>)
    returns (r: Result)
    ensures r == Answer(true) <==>
            rows != [] && (forall n | n in rows :: valid(n)) && Complete(Distinct(rows), header, executed, target)
    ensures r == Answer(false) ==>
              exists n | n in rows ::
                header(n).Gone?
                  || (n == rows[0] && header(n).Boundary? && !FastRejoinSafe(executed, header(n).gtids, target))
  {
    if rows == [] {
      return Failure;
    }
    var seen: set<Name> := {};
    var prior: set<Txn> := {};
    var first := true;
    for k := 0 to |rows|
      invariant first <==> k == 0
      invariant forall n | n in rows[..k] :: valid(n)
      invariant seen == set n | n in Distinct(rows[..k])
      invariant k > 0 ==> Complete(Distinct(rows[..k]), header, executed, target)
      invariant k > 0 ==> prior == header(Distinct(rows[..k])[|Distinct(rows[..k])| - 1]).gtids
    {
      var name := rows[k];
      assert rows[..k + 1][..k] == rows[..k];
      if !valid(name) {
        return Failure;
      }
      if name in seen {
        continue;
      }
      seen := seen + {name};
      NewLog(rows, k, header, executed, target);
      if header(name).Gone? {
        return Answer(false);
      }
      if header(name).Unreadable? || !Assessable(executed, header(name).gtids) {
        return Failure;
      }
      if first && !FastRejoinSafe(executed, header(name).gtids, target) {
        return Answer(false);
      }
      if !first && !(prior <= header(name).gtids) {
        return Failure;
      }
      first := false;
      prior := header(name).gtids;
    }
    assert rows[..|rows|] == rows;
    r := Answer(!first);
  }

  // Every missing transaction lies at or after log `i` once it is not below its boundary.
  lemma {:induction false} FoundFrom(names: seq<Name>, header: Name -> Header, executed: set<Txn>, target: set<Txn>,
      t: Txn, i: nat)
    requires Complete(names, header, executed, target) && i < |names|
    requires t in executed && t !in header(names[i]).gtids
    ensures exists j :: i <= j < |names| && t in Held(names, header, executed, j)
    decreases |names| - i
  {
    if i + 1 < |names| && t !in header(names[i + 1]).gtids {
      FoundFrom(names, header, executed, target, t, i + 1);
    } else {
      assert t in Held(names, header, executed, i);
    }
  }

  // When the check answers true, the replica has executed nothing the source has not, and every
  // transaction it lacks is held by one of the listed logs.
  lemma {:induction false} CompleteIsSound(rows: seq<Name>, header: Name -> Header, executed: set<Txn>,
      target: set<Txn>, t: Txn)
    requires Complete(Distinct(rows), header, executed, target)
    ensures target <= executed
    ensures t in executed - target ==>
              exists j :: 0 <= j < |Distinct(rows)| && Distinct(rows)[j] in rows
                && t in Held(Distinct(rows), header, executed, j)
  {
    if t in executed - target {
      FoundFrom(Distinct(rows), header, executed, target, t, 0);
      DistinctIsExact(rows);
    }
  }
}
