/** The vector grammar as a released bundle validates it: every schema id and reference
    under the draft's id base moves to the bundle's. */
module Grammar {
  import opened Json

  const ID_ORIGIN := "https://responsibleai.github.io/agent-hooks/schema/"

  /** Where one id base moves to, and the paths the target bundle publishes. */
  datatype Move = Move(from: string, to: string, published: set<string>)

  /** The move from the draft to a released bundle. */
  function DraftTo(bundle: string, published: set<string>): Move {
    Move(ID_ORIGIN + "draft/", ID_ORIGIN + "v" + bundle + "/", published)
  }

  predicate Under(s: string, base: string) {
    base <= s
  }

  /** Neither base is inside the other. */
  predicate Apart(m: Move) {
    !Under(m.from, m.to) && !Under(m.to, m.from)
  }

  lemma DraftIsApart(bundle: string, published: set<string>)
    ensures Apart(DraftTo(bundle, published))
  {
    var m, n := DraftTo(bundle, published), |ID_ORIGIN|;
    assert m.from[n] == 'd' && m.to[n] == 'v';
  }

  function Relocated(m: Move, s: string): string {
    if Under(s, m.from) then m.to + s[|m.from|..] else s
  }

  function BeforeHash(s: string): string {
    if s == "" || s[0] == '#' then "" else [s[0]] + BeforeHash(s[1..])
  }

  /** The path below the moving base that a node's reference names. */
  function Referenced(m: Move, j: Json): Option<string> {
    if j.Obj? && "$ref" in j.members && j.members["$ref"].Str? && Under(j.members["$ref"].s, m.from)
    then Some(BeforeHash(j.members["$ref"].s[|m.from|..]))
    else None
  }

  predicate Publishes(m: Move, j: Json) {
    Referenced(m, j).None? || Referenced(m, j).value in m.published
  }

  function Kept(m: Move, items: seq<Json>): (r: seq<Json>)
    ensures forall x | x in r :: x in items && Publishes(m, x)
  {
    if items == [] then []
    else if Publishes(m, items[0]) then [items[0]] + Kept(m, items[1..])
    else Kept(m, items[1..])
  }

  predicate IsChoice(k: string, v: Json) {
    (k == "anyOf" || k == "oneOf") && v.Arr?
  }

  predicate IsAddress(k: string, v: Json) {
    (k == "$id" || k == "$ref") && v.Str?
  }

  /** The moved tree. */
  function Rebase(m: Move, j: Json): (r: Json)
    decreases j, 0
  {
    match j
    case Obj(o) => Obj(map k | k in o :: RebaseMember(m, k, o[k]))
    case Arr(items) => Arr(seq(|items|, i requires 0 <= i < |items| => Rebase(m, items[i])))
    case _ => j
  }

  function RebaseMember(m: Move, k: string, v: Json): Json
    decreases v, 1
  {
    if IsAddress(k, v) then Str(Relocated(m, v.s))
    else if IsChoice(k, v) then
      var kept := Kept(m, v.items);
      Arr(seq(|kept|, i requires 0 <= i < |kept| => assert kept[i] in v.items; Rebase(m, kept[i])))
    else Rebase(m, v)
  }

  /** The move goes through: no choice loses its last branch and no reference outside a
      choice names an unpublished schema. */
  predicate Rebasable(m: Move, j: Json)
    decreases j, 0
  {
    match j
    case Obj(o) => Publishes(m, j) && forall k | k in o :: MemberRebasable(m, k, o[k])
    case Arr(items) => forall x | x in items :: Rebasable(m, x)
    case _ => true
  }

  predicate MemberRebasable(m: Move, k: string, v: Json)
    decreases v, 1
  {
    if IsChoice(k, v) then
      var kept := Kept(m, v.items);
      kept != [] && forall x | x in kept :: Rebasable(m, x)
    else Rebasable(m, v)
  }

  // ---- the walk -----------------------------------------------------------------------------

  method KeptBranches(m: Move, branches: seq<Json>) returns (kept: seq<Json>)
    ensures kept == Kept(m, branches)
  {
    kept := [];
    for i := 0 to |branches|
      invariant Kept(m, branches) == kept + Kept(m, branches[i..])
    {
      if Publishes(m, branches[i]) {
        kept := kept + [branches[i]];
      }
    }
  }

  /** Rewrites a tree, or refuses it. */
  method RebaseNode(m: Move, node: Json) returns (r: Option<Json>)
    ensures r.Some? <==> Rebasable(m, node)
    ensures r.Some? ==> r.value == Rebase(m, node)
    decreases node, 1
  {
    hide Publishes, Kept;
    match node
    case Obj(o) =>
      if !Publishes(m, node) {
        return None;
      }
      var out: Members := map[];
      var todo := o.Keys;
      while todo != {}
        invariant todo <= o.Keys
        invariant forall k | k in o && k !in todo :: MemberRebasable(m, k, o[k])
        invariant out == map k | k in o && k !in todo :: RebaseMember(m, k, o[k])
      {
        var k :| k in todo;
        var v := o[k];
        if IsAddress(k, v) {
          out := out[k := Str(Relocated(m, v.s))];
        } else if IsChoice(k, v) {
          var kept := KeptBranches(m, v.items);
          if kept == [] {
            return None;
          }
          assert forall x | x in kept :: x in v.items;
          var items := RebaseItems(m, kept, v);
          if items.None? {
            return None;
          }
          assert Arr(items.value) == RebaseMember(m, k, v);
          out := out[k := Arr(items.value)];
        } else {
          var value := RebaseNode(m, v);
          if value.None? {
            return None;
          }
          out := out[k := value.value];
        }
        todo := todo - {k};
      }
      return Some(Obj(out));
    case Arr(items) =>
      var out := RebaseItems(m, items, node);
      return if out.Some? then Some(Arr(out.value)) else None;
    case _ =>
      return Some(node);
  }

  method RebaseItems(m: Move, items: seq<Json>, owner: Json) returns (r: Option<seq<Json>>)
    requires owner.Arr? && forall x | x in items :: x in owner.items
    ensures r.Some? <==> forall x | x in items :: Rebasable(m, x)
    ensures r.Some? ==> r.value == seq(|items|, i requires 0 <= i < |items| => Rebase(m, items[i]))
    decreases owner, 0
  {
    var out: seq<Json> := [];
    for i := 0 to |items|
      invariant |out| == i && forall j | 0 <= j < i :: Rebasable(m, items[j]) && out[j] == Rebase(m, items[j])
    {
      assert items[i] in items;
      var x := RebaseNode(m, items[i]);
      if x.None? {
        return None;
      }
      out := out + [x.value];
    }
    return Some(out);
  }

  // ---- nothing of the old base remains -------------------------------------------------------

  /** No id and no reference anywhere in the tree is under `base`. */
  predicate CleanOf(base: string, j: Json)
    decreases j
  {
    match j
    case Obj(o) =>
      forall k | k in o :: CleanOf(base, o[k]) && ((k == "$id" || k == "$ref") && o[k].Str? ==> !(base <= o[k].s))
    case Arr(items) => forall x | x in items :: CleanOf(base, x)
    case _ => true
  }

  lemma RelocatedApart(m: Move, s: string)
    requires Apart(m)
    ensures !Under(Relocated(m, s), m.from)
  {
    if Under(s, m.from) {
      assert Relocated(m, s)[..|m.to|] == m.to;
    }
  }

  /** After the move no address is under the old base. */
  lemma {:induction false} NothingRemains(m: Move, j: Json)
    requires Apart(m)
    ensures CleanOf(m.from, Rebase(m, j))
    decreases j
  {
    match j
    case Obj(o) =>
      forall k | k in o
        ensures CleanOf(m.from, RebaseMember(m, k, o[k]))
        ensures IsAddress(k, RebaseMember(m, k, o[k])) ==> !Under(RebaseMember(m, k, o[k]).s, m.from)
      {
        var v := o[k];
        if IsAddress(k, v) {
          RelocatedApart(m, v.s);
        } else if IsChoice(k, v) {
          forall x | x in Kept(m, v.items)
            ensures CleanOf(m.from, Rebase(m, x))
          {
            NothingRemains(m, x);
          }
        } else {
          NothingRemains(m, v);
        }
      }
    case Arr(items) =>
      forall x | x in items
        ensures CleanOf(m.from, Rebase(m, x))
      {
        NothingRemains(m, x);
      }
    case _ =>
  }

  // ---- what the move drops ----------------------------------------------------------------------

  /** The tree with the unpublished branches of its choices left out, nothing moved. */
  function Pruned(m: Move, j: Json): (r: Json)
    decreases j, 0
  {
    match j
    case Obj(o) => Obj(map k | k in o :: PrunedMember(m, k, o[k]))
    case Arr(items) => Arr(seq(|items|, i requires 0 <= i < |items| => Pruned(m, items[i])))
    case _ => j
  }

  function PrunedMember(m: Move, k: string, v: Json): Json
    decreases v, 1
  {
    if IsChoice(k, v) then
      var kept := Kept(m, v.items);
      Arr(seq(|kept|, i requires 0 <= i < |kept| => assert kept[i] in v.items; Pruned(m, kept[i])))
    else Pruned(m, v)
  }

  function Back(m: Move): Move {
    Move(m.to, m.from, m.published)
  }

  lemma RelocatedBack(m: Move, s: string)
    requires Apart(m) && !Under(s, m.to)
    ensures Relocated(Back(m), Relocated(m, s)) == s
  {
    if Under(s, m.from) {
      assert Relocated(m, s)[..|m.to|] == m.to && Relocated(m, s)[|m.to|..] == s[|m.from|..];
    }
  }

  /** A published branch still names its schema after the move. */
  lemma StaysPublished(m: Move, j: Json)
    requires Apart(m) && CleanOf(m.to, j) && Publishes(m, j)
    ensures Publishes(Back(m), Rebase(m, j))
  {
    if j.Obj? && "$ref" in j.members && j.members["$ref"].Str? {
      var s := j.members["$ref"].s;
      assert CleanOf(m.to, j.members["$ref"]) && !Under(s, m.to);
      if Under(s, m.from) {
        assert Relocated(m, s)[|m.to|..] == s[|m.from|..];
      }
    }
  }

  lemma {:induction false} AllKept(m: Move, items: seq<Json>)
    requires forall x | x in items :: Publishes(m, x)
    ensures Kept(m, items) == items
  {
    if items != [] {
      AllKept(m, items[1..]);
    }
  }

  /** Moving a moved tree back gives the tree without its unpublished branches: the move
      changes addresses under the old base and drops those branches, and nothing else. */
  lemma {:induction false} MoveBack(m: Move, j: Json)
    requires Apart(m) && CleanOf(m.to, j) && Rebasable(m, j)
    ensures Rebase(Back(m), Rebase(m, j)) == Pruned(m, j)
    decreases j
  {
    hide Publishes, Relocated, Kept;
    match j
    case Obj(o) =>
      forall k | k in o
        ensures RebaseMember(Back(m), k, RebaseMember(m, k, o[k])) == PrunedMember(m, k, o[k])
      {
        var v := o[k];
        if IsAddress(k, v) {
          RelocatedBack(m, v.s);
        } else if IsChoice(k, v) {
          var kept := Kept(m, v.items);
          var moved := RebaseMember(m, k, v);
          forall i | 0 <= i < |kept|
            ensures Rebase(Back(m), moved.items[i]) == Pruned(m, kept[i])
            ensures Publishes(Back(m), moved.items[i])
          {
            assert kept[i] in v.items;
            MoveBack(m, kept[i]);
            StaysPublished(m, kept[i]);
          }
          AllKept(Back(m), moved.items);
        } else {
          ChoiceStays(m, k, v);
          MoveBack(m, v);
        }
      }
    case Arr(items) =>
      forall i | 0 <= i < |items|
        ensures Rebase(Back(m), Rebase(m, items[i])) == Pruned(m, items[i])
      {
        MoveBack(m, items[i]);
      }
    case _ =>
  }

  lemma ChoiceStays(m: Move, k: string, v: Json)
    requires !IsAddress(k, v) && !IsChoice(k, v)
    ensures !IsAddress(k, Rebase(m, v)) && !IsChoice(k, Rebase(m, v))
  {
  }

  // ---- what the move accepts, and where it stops ---------------------------------------------

  /** No choice anywhere in the tree has run out of branches. */
  predicate NoEmptyChoice(j: Json)
    decreases j
  {
    match j
    case Obj(o) => forall k | k in o :: NoEmptyChoice(o[k]) && ((k == "anyOf" || k == "oneOf") && o[k].Arr? ==> o[k].items != [])
    case Arr(items) => forall x | x in items :: NoEmptyChoice(x)
    case _ => true
  }

  /** A move that goes through leaves every choice a branch. */
  lemma {:induction false} ChoicesKeepABranch(m: Move, j: Json)
    requires Rebasable(m, j)
    ensures NoEmptyChoice(Rebase(m, j))
    decreases j
  {
    match j
    case Obj(o) =>
      forall k | k in o
        ensures NoEmptyChoice(RebaseMember(m, k, o[k]))
        ensures IsChoice(k, RebaseMember(m, k, o[k])) ==> RebaseMember(m, k, o[k]).items != []
      {
        var v := o[k];
        if IsChoice(k, v) {
          forall x | x in Kept(m, v.items)
            ensures NoEmptyChoice(Rebase(m, x))
          {
            ChoicesKeepABranch(m, x);
          }
        } else if !IsAddress(k, v) {
          ChoicesKeepABranch(m, v);
        }
      }
    case Arr(items) =>
      forall x | x in items
        ensures NoEmptyChoice(Rebase(m, x))
      {
        ChoicesKeepABranch(m, x);
      }
    case _ =>
  }

  /** The move changes exactly the trees that still hold an address under the old base. */
  lemma {:induction false} UnchangedIff(m: Move, j: Json)
    requires Apart(m)
    ensures Rebase(m, j) == j <==> CleanOf(m.from, j)
    decreases j
  {
    if Rebase(m, j) == j {
      NothingRemains(m, j);
    } else if CleanOf(m.from, j) {
      CleanIsUnchanged(m, j);
    }
  }

  lemma {:induction false} CleanIsUnchanged(m: Move, j: Json)
    requires CleanOf(m.from, j)
    ensures Rebase(m, j) == j
    decreases j
  {
    match j
    case Obj(o) =>
      forall k | k in o
        ensures RebaseMember(m, k, o[k]) == o[k]
      {
        var v := o[k];
        if IsChoice(k, v) {
          CleanIsPublished(m, v.items);
          forall x | x in v.items
            ensures Rebase(m, x) == x
          {
            CleanIsUnchanged(m, x);
          }
        } else {
          CleanIsUnchanged(m, v);
        }
      }
    case Arr(items) =>
      forall x | x in items
        ensures Rebase(m, x) == x
      {
        CleanIsUnchanged(m, x);
      }
    case _ =>
  }

  lemma CleanIsPublished(m: Move, items: seq<Json>)
    requires forall x | x in items :: CleanOf(m.from, x)
    ensures Kept(m, items) == items
  {
    AllKept(m, items);
  }

  lemma {:induction false} CleanIsRebasable(m: Move, j: Json)
    requires CleanOf(m.from, j) && NoEmptyChoice(j)
    ensures Rebasable(m, j)
    decreases j
  {
    match j
    case Obj(o) =>
      CleanIsPublished(m, [j]);
      assert j in Kept(m, [j]);
      forall k | k in o
        ensures MemberRebasable(m, k, o[k])
      {
        var v := o[k];
        if IsChoice(k, v) {
          CleanIsPublished(m, v.items);
          forall x | x in v.items
            ensures Rebasable(m, x)
          {
            CleanIsRebasable(m, x);
          }
        } else {
          CleanIsRebasable(m, v);
        }
      }
    case Arr(items) =>
      forall x | x in items
        ensures Rebasable(m, x)
      {
        CleanIsRebasable(m, x);
      }
    case _ =>
  }

  /** A second move goes through and changes nothing. */
  lemma SecondMoveIsIdentity(m: Move, j: Json)
    requires Apart(m) && Rebasable(m, j)
    ensures Rebasable(m, Rebase(m, j)) && Rebase(m, Rebase(m, j)) == Rebase(m, j)
  {
    NothingRemains(m, j);
    ChoicesKeepABranch(m, j);
    CleanIsUnchanged(m, Rebase(m, j));
    CleanIsRebasable(m, Rebase(m, j));
  }

  // ---- where the moved references lead ----------------------------------------------------------

  /** Some node of the tree has the reference `s`. */
  predicate HasRef(j: Json, s: string)
    decreases j
  {
    match j
    case Obj(o) => ("$ref" in o && o["$ref"] == Str(s)) || exists k | k in o :: HasRef(o[k], s)
    case Arr(items) => exists x | x in items :: HasRef(x, s)
    case _ => false
  }

  /** Every reference of the moved tree was one outside the old base, or was moved with the
      part below the base, fragment included, kept and its schema published. */
  lemma {:induction false} ReferencesFollow(m: Move, j: Json, s: string)
    requires Rebasable(m, j) && HasRef(Rebase(m, j), s)
    ensures
      || (HasRef(j, s) && !Under(s, m.from))
      || (&& Under(s, m.to) && HasRef(j, m.from + s[|m.to|..])
          && BeforeHash(s[|m.to|..]) in m.published)
    decreases j
  {
    hide Relocated, BeforeHash, Under;
    match j
    case Obj(o) =>
      assert MembersMove(m, o, Rebase(m, j).members);
      var r := Rebase(m, j).members;
      if "$ref" in r && r["$ref"] == Str(s) {
        OwnReference(m, j, s);
      } else {
        var k :| k in r && HasRef(r[k], s);
        var v := o[k];
        if IsChoice(k, v) {
          var kept := Kept(m, v.items);
          var i :| 0 <= i < |kept| && HasRef(Rebase(m, kept[i]), s);
          assert kept[i] in v.items;
          ReferencesFollow(m, kept[i], s);
          assert forall t | HasRef(kept[i], t) :: HasRef(v, t);
        } else {
          ReferencesFollow(m, v, s);
        }
        assert forall t | HasRef(v, t) :: HasRef(j, t);
      }
    case Arr(items) =>
      var i :| 0 <= i < |items| && HasRef(Rebase(m, items[i]), s);
      ReferencesFollow(m, items[i], s);
      assert forall t | HasRef(items[i], t) :: HasRef(j, t);
    case _ =>
  }

  predicate MembersMove(m: Move, o: Members, r: Members) {
    r.Keys == o.Keys && forall k | k in o :: r[k] == RebaseMember(m, k, o[k])
  }

  lemma OwnReference(m: Move, j: Json, s: string)
    requires j.Obj? && "$ref" in j.members && RebaseMember(m, "$ref", j.members["$ref"]) == Str(s)
    requires Publishes(m, j)
    ensures
      || (j.members["$ref"] == Str(s) && !Under(s, m.from))
      || (&& Under(s, m.to) && j.members["$ref"] == Str(m.from + s[|m.to|..])
          && BeforeHash(s[|m.to|..]) in m.published)
  {
    var v := j.members["$ref"];
    assert v.Str?;
    if Under(v.s, m.from) {
      assert v.s == m.from + v.s[|m.from|..];
      assert s[|m.to|..] == v.s[|m.from|..];
    }
  }

  // ---- what is published goes through -----------------------------------------------------------

  /** `path` is the part of `s` before its first '#', or all of it. */
  predicate PathOf(s: string, path: string) {
    && path <= s && '#' !in path
    && (|path| == |s| || s[|path|] == '#')
  }

  lemma {:induction false} BeforeHashIs(s: string)
    ensures PathOf(s, BeforeHash(s))
  {
    if s != "" && s[0] != '#' {
      BeforeHashIs(s[1..]);
      assert s == [s[0]] + s[1..];
    }
  }

  /** A string has one such part. */
  lemma PathIsOne(s: string, p: string, q: string)
    requires PathOf(s, p) && PathOf(s, q)
    ensures p == q
  {
    assert forall i | 0 <= i < |p| :: p[i] == s[i] && p[i] != '#';
    assert forall i | 0 <= i < |q| :: q[i] == s[i] && q[i] != '#';
  }

  /** The node's own reference is not under the old base, or names a published schema. */
  predicate Sound(m: Move, j: Json) {
    j.Obj? && "$ref" in j.members && j.members["$ref"].Str? && m.from <= j.members["$ref"].s ==>
      exists path | path in m.published :: PathOf(j.members["$ref"].s[|m.from|..], path)
  }

  lemma PublishesIff(m: Move, j: Json)
    ensures Publishes(m, j) <==> Sound(m, j)
  {
    if j.Obj? && "$ref" in j.members && j.members["$ref"].Str? && m.from <= j.members["$ref"].s {
      var rest := j.members["$ref"].s[|m.from|..];
      BeforeHashIs(rest);
      forall path | PathOf(rest, path) ensures path == BeforeHash(rest) {
        PathIsOne(rest, path, BeforeHash(rest));
      }
    }
  }

  /** A branch of a choice stays exactly when its own reference is sound, and the branches
      that stay keep their order. */
  lemma {:induction false} BranchStaysIff(m: Move, items: seq<Json>)
    ensures forall x :: x in Kept(m, items) <==> x in items && Sound(m, x)
    ensures |Kept(m, items)| == |SoundPositions(m, items)|
    ensures forall i | 0 <= i < |Kept(m, items)| ::
      SoundPositions(m, items)[i] < |items| && Kept(m, items)[i] == items[SoundPositions(m, items)[i]]
    decreases |items|
  {
    if items != [] {
      var n := |items| - 1;
      var front := items[..n];
      BranchStaysIff(m, front);
      PublishesIff(m, items[n]);
      assert items == front + [items[n]];
      KeptSnoc(m, front, items[n]);
      hide Kept, Publishes, Sound;
      assert forall i | 0 <= i < |SoundPositions(m, front)| :: front[SoundPositions(m, front)[i]] == items[SoundPositions(m, front)[i]];
    }
  }

  /** The positions of the branches whose own reference is sound. */
  ghost function SoundPositions(m: Move, items: seq<Json>): seq<nat> {
    if items == [] then []
    else
      var n := |items| - 1;
      SoundPositions(m, items[..n]) + if Sound(m, items[n]) then [n] else []
  }

  lemma {:induction false} KeptSnoc(m: Move, items: seq<Json>, x: Json)
    ensures Kept(m, items + [x]) == Kept(m, items) + if Publishes(m, x) then [x] else []
    decreases |items|
  {
    hide Publishes;
    if items != [] {
      assert (items + [x])[1..] == items[1..] + [x];
      KeptSnoc(m, items[1..], x);
    }
  }

  /** Every reference of the tree that is under the old base names a published schema. */
  ghost predicate AllPublished(m: Move, j: Json) {
    forall s | HasRef(j, s) && m.from <= s :: exists path | path in m.published :: PathOf(s[|m.from|..], path)
  }

  lemma PartsPublished(m: Move, j: Json)
    requires AllPublished(m, j)
    ensures Sound(m, j)
    ensures j.Obj? ==> forall k | k in j.members :: AllPublished(m, j.members[k])
    ensures j.Arr? ==> forall x | x in j.items :: AllPublished(m, x)
  {
    if j.Obj? {
      forall k | k in j.members ensures AllPublished(m, j.members[k]) {
        assert forall s | HasRef(j.members[k], s) :: HasRef(j, s);
      }
      if "$ref" in j.members && j.members["$ref"].Str? {
        assert HasRef(j, j.members["$ref"].s);
      }
    } else if j.Arr? {
      forall x | x in j.items ensures AllPublished(m, x) {
        assert forall s | HasRef(x, s) :: HasRef(j, s);
      }
    }
  }

  /** A tree whose references are all published and whose choices have branches is never
      refused, and nothing of it is dropped. */
  lemma {:induction false} PublishedGoesThrough(m: Move, j: Json)
    requires AllPublished(m, j) && NoEmptyChoice(j)
    ensures Rebasable(m, j) && Pruned(m, j) == j
    decreases j, 0
  {
    hide HasRef, Publishes, Sound, AllPublished;
    PartsPublished(m, j);
    match j
    case Obj(o) =>
      PublishesIff(m, j);
      forall k | k in o
        ensures MemberRebasable(m, k, o[k]) && PrunedMember(m, k, o[k]) == o[k]
      {
        MemberGoesThrough(m, k, o[k]);
      }
    case Arr(items) =>
      forall x | x in items ensures Rebasable(m, x) && Pruned(m, x) == x {
        PublishedGoesThrough(m, x);
      }
    case _ =>
  }

  lemma {:induction false} MemberGoesThrough(m: Move, k: string, v: Json)
    requires AllPublished(m, v) && NoEmptyChoice(v)
    requires (k == "anyOf" || k == "oneOf") && v.Arr? ==> v.items != []
    ensures MemberRebasable(m, k, v) && PrunedMember(m, k, v) == v
    decreases v, 1
  {
    hide HasRef, Publishes, Sound, AllPublished;
    if IsChoice(k, v) {
      PartsPublished(m, v);
      forall x | x in v.items ensures Publishes(m, x) && Rebasable(m, x) && Pruned(m, x) == x {
        PartsPublished(m, x);
        PublishesIff(m, x);
        PublishedGoesThrough(m, x);
      }
      AllKept(m, v.items);
    } else {
      PublishedGoesThrough(m, v);
    }
  }

  /** So it moves whole, and moving it back gives it back. */
  lemma PublishedMovesWhole(m: Move, j: Json)
    requires Apart(m) && CleanOf(m.to, j) && AllPublished(m, j) && NoEmptyChoice(j)
    ensures Rebasable(m, j) && Rebase(Back(m), Rebase(m, j)) == j
  {
    PublishedGoesThrough(m, j);
    MoveBack(m, j);
  }

  // ---- when it is refused --------------------------------------------------------------------------

  /** Some node outside a choice has an unsound reference, or some choice has only such branches. */
  predicate Blocked(m: Move, j: Json)
    decreases j
  {
    match j
    case Obj(o) =>
      || !Sound(m, j)
      || exists k | k in o ::
           if (k == "anyOf" || k == "oneOf") && o[k].Arr? then
             (forall x | x in o[k].items :: !Sound(m, x)) || exists x | x in o[k].items :: Sound(m, x) && Blocked(m, x)
           else Blocked(m, o[k])
    case Arr(items) => exists x | x in items :: Blocked(m, x)
    case _ => false
  }

  /** The move is refused exactly then. */
  lemma {:induction false} RefusedIff(m: Move, j: Json)
    ensures Rebasable(m, j) <==> !Blocked(m, j)
    decreases j
  {
    hide Publishes, Sound, Kept;
    match j
    case Obj(o) =>
      PublishesIff(m, j);
      forall k | k in o
        ensures MemberRebasable(m, k, o[k]) <==>
          !(if (k == "anyOf" || k == "oneOf") && o[k].Arr? then
              (forall x | x in o[k].items :: !Sound(m, x)) || exists x | x in o[k].items :: Sound(m, x) && Blocked(m, x)
            else Blocked(m, o[k]))
      {
        if IsChoice(k, o[k]) {
          var items := o[k].items;
          BranchStaysIff(m, items);
          forall x | x in items ensures Rebasable(m, x) <==> !Blocked(m, x) {
            RefusedIff(m, x);
          }
          assert Kept(m, items) != [] <==> exists x :: x in Kept(m, items) by {
            if Kept(m, items) != [] { assert Kept(m, items)[0] in Kept(m, items); }
          }
        } else {
          RefusedIff(m, o[k]);
        }
      }
    case Arr(items) =>
      forall x | x in items ensures Rebasable(m, x) <==> !Blocked(m, x) {
        RefusedIff(m, x);
      }
    case _ =>
  }

  // ---- the grammar of a bundle ------------------------------------------------------------------

  const DRAFT := "draft"

  lemma DraftToIs(bundle: string, published: set<string>)
    ensures DraftTo(bundle, published) ==
      Move("https://responsibleai.github.io/agent-hooks/schema/draft/",
           "https://responsibleai.github.io/agent-hooks/schema/v" + bundle + "/", published)
  {
    assert ID_ORIGIN + "draft/" == "https://responsibleai.github.io/agent-hooks/schema/draft/";
    assert ID_ORIGIN + "v" == "https://responsibleai.github.io/agent-hooks/schema/v";
  }

  /** The grammar as a bundle validates it: unchanged for the draft; for a released bundle
      refused exactly when it is blocked, and otherwise with nothing left under the draft's
      base and, moved back, the committed one without its unsound branches. */
  method GrammarFor(bundle: string, published: set<string>, grammar: Json) returns (r: Option<Json>)
    ensures bundle == DRAFT ==> r == Some(grammar)
    ensures bundle != DRAFT ==>
      var m := Move("https://responsibleai.github.io/agent-hooks/schema/draft/",
                    "https://responsibleai.github.io/agent-hooks/schema/v" + bundle + "/", published);
      && (r.Some? <==> !Blocked(m, grammar))
      && (r.Some? ==>
            && CleanOf(m.from, r.value) && NoEmptyChoice(r.value)
            && (CleanOf(m.to, grammar) ==> Rebase(Back(m), r.value) == Pruned(m, grammar))
            && (CleanOf(m.to, grammar) && AllPublished(m, grammar) && NoEmptyChoice(grammar) ==>
                  Rebase(Back(m), r.value) == grammar))
  {
    if bundle == DRAFT {
      return Some(grammar);
    }
    var m := DraftTo(bundle, published);
    r := RebaseNode(m, grammar);
    RefusedIff(m, grammar);
    DraftIsApart(bundle, published);
    DraftToIs(bundle, published);
    hide DraftTo, ID_ORIGIN;
    NothingRemains(m, grammar);
    if r.Some? {
      ChoicesKeepABranch(m, grammar);
      if CleanOf(m.to, grammar) {
        MoveBack(m, grammar);
        if AllPublished(m, grammar) && NoEmptyChoice(grammar) {
          PublishedGoesThrough(m, grammar);
        }
      }
    }
  }
}
