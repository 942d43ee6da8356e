/** The metadata unions of section 7.3: warnings of every verdict in a pool, labels
    of the permit verdicts only, first seen first and without repetition. */
module Unions {
  import opened Verdicts

  function AddNew<T(==)>(have: seq<T>, more: seq<T>): seq<T>
    decreases more
  {
    if more == [] then have
    else AddNew(if more[0] in have then have else have + [more[0]], more[1..])
  }

  function UnionWarnings(pool: seq<Verdict>): seq<Warning> {
    if pool == [] then []
    else AddNew(UnionWarnings(pool[..|pool| - 1]), pool[|pool| - 1].warnings)
  }

  function UnionLabels(pool: seq<Verdict>): seq<string> {
    if pool == [] then []
    else
      var v := pool[|pool| - 1];
      var rest := UnionLabels(pool[..|pool| - 1]);
      if Permits(v.decision) then AddNew(rest, v.labels) else rest
  }

  function WithUnions(combined: Verdict, pool: seq<Verdict>): Verdict {
    var ws := UnionWarnings(pool);
    var ls := UnionLabels(pool);
    combined.(
      warnings := if ws != [] then ws else combined.warnings,
      labels := if Permits(combined.decision) && ls != [] then ls else combined.labels)
  }

  // ---- what a union is -----------------------------------------------------------

  function AllWarnings(pool: seq<Verdict>): seq<Warning> {
    if pool == [] then [] else AllWarnings(pool[..|pool| - 1]) + pool[|pool| - 1].warnings
  }

  function PermitLabels(pool: seq<Verdict>): seq<string> {
    if pool == [] then []
    else PermitLabels(pool[..|pool| - 1]) + if Permits(pool[|pool| - 1].decision) then pool[|pool| - 1].labels else []
  }

  function FirstIndex<T(==)>(s: seq<T>, x: T): (k: nat)
    requires x in s
    ensures k < |s| && s[k] == x && x !in s[..k]
  {
    if s[0] == x then 0
    else
      assert s == [s[0]] + s[1..];
      var k := FirstIndex(s[1..], x) + 1;
      assert s[..k] == [s[0]] + s[1..][..k - 1];
      k
  }

  /** `u` lists the elements of `s`, each once, in the order they first occur. */
  ghost predicate FirstSeen<T(!new)>(u: seq<T>, s: seq<T>) {
    && (forall x :: x in u <==> x in s)
    && (forall i, j | 0 <= i < j < |u| :: FirstIndex(s, u[i]) < FirstIndex(s, u[j]))
  }

  lemma {:induction false} AddNewAppends<T>(have: seq<T>, a: seq<T>, b: seq<T>)
    ensures AddNew(have, a + b) == AddNew(AddNew(have, a), b)
    decreases a
  {
    if a == [] {
      assert a + b == b;
    } else {
      assert (a + b)[1..] == a[1..] + b;
      AddNewAppends(if a[0] in have then have else have + [a[0]], a[1..], b);
    }
  }

  lemma FirstIndexAppend<T>(s: seq<T>, t: seq<T>, x: T)
    requires x in s
    ensures x in s + t && FirstIndex(s + t, x) == FirstIndex(s, x)
  {
    var k, n := FirstIndex(s, x), FirstIndex(s + t, x);
    assert (s + t)[k] == x;
    assert forall j | 0 <= j < n :: (s + t)[j] == (s + t)[..n][j];
    assert forall j | 0 <= j < k :: s[j] == s[..k][j];
  }

  lemma {:induction false} AddNewFirstSeen<T(!new)>(s: seq<T>)
    ensures FirstSeen(AddNew([], s), s)
    decreases |s|
  {
    if s != [] {
      var n := |s| - 1;
      var front, x := s[..n], s[n];
      AddNewFirstSeen(front);
      assert s == front + [x];
      AddNewAppends([], front, [x]);
      var u := AddNew([], front);
      var r := AddNew([], s);
      assert r == if x in u then u else u + [x];
      forall i, j | 0 <= i < j < |r| ensures r[i] in s && r[j] in s && FirstIndex(s, r[i]) < FirstIndex(s, r[j]) {
        FirstIndexAppend(front, [x], r[i]);
        if j < |u| { FirstIndexAppend(front, [x], r[j]); }
      }
    }
  }

  lemma {:induction false} UnionsAreAddNew(pool: seq<Verdict>)
    ensures UnionWarnings(pool) == AddNew([], AllWarnings(pool))
    ensures UnionLabels(pool) == AddNew([], PermitLabels(pool))
  {
    if pool != [] {
      var front, v := pool[..|pool| - 1], pool[|pool| - 1];
      UnionsAreAddNew(front);
      AddNewAppends([], AllWarnings(front), v.warnings);
      AddNewAppends([], PermitLabels(front), if Permits(v.decision) then v.labels else []);
    }
  }

  /** Both unions are the first-seen enumeration of what the pool carries. */
  lemma {:induction false} UnionsAreFirstSeen(pool: seq<Verdict>)
    ensures FirstSeen(UnionWarnings(pool), AllWarnings(pool))
    ensures FirstSeen(UnionLabels(pool), PermitLabels(pool))
  {
    UnionsAreAddNew(pool);
    AddNewFirstSeen(AllWarnings(pool));
    AddNewFirstSeen(PermitLabels(pool));
  }

  lemma {:induction false} AllWarningsHolds(pool: seq<Verdict>)
    ensures forall w :: w in AllWarnings(pool) <==> exists v :: v in pool && w in v.warnings
    ensures forall l :: l in PermitLabels(pool) <==> exists v :: v in pool && Permits(v.decision) && l in v.labels
  {
    if pool != [] {
      var front, v := pool[..|pool| - 1], pool[|pool| - 1];
      AllWarningsHolds(front);
      assert pool == front + [v];
    }
  }

  /** A warning is in the union exactly when some verdict of the pool carries it;
      a label exactly when some permit of the pool does. */
  lemma UnionHolds(pool: seq<Verdict>)
    ensures forall w :: w in UnionWarnings(pool) <==> exists v :: v in pool && w in v.warnings
    ensures forall l :: l in UnionLabels(pool) <==> exists v :: v in pool && Permits(v.decision) && l in v.labels
  {
    UnionsAreFirstSeen(pool);
    AllWarningsHolds(pool);
  }
}
