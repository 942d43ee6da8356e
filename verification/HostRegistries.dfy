/** What a host registers in code for a declaration to refer to. */
module HostRegistries {
  import opened Json
  import opened Verdicts
  import opened Lifecycle
  import opened Surfaces
  import Construction
  import opened Hosts

  // ---- names -----------------------------------------------------------------------------

  /** The grammar of binding ids and of registered names, without their length. */
  predicate Word(s: string) {
    s != "" && 'a' <= s[0] <= 'z' && forall c | c in s :: NameChar(c)
  }

  predicate ReferenceName(s: string) {
    Word(s) && |s| <= 64
  }

  /** The dot-separated segments of a string. */
  function Segments(s: string): (r: seq<string>)
    ensures r != []
  {
    if s == "" then [""]
    else
      var rest := Segments(s[1..]);
      if s[0] == '.' then [""] + rest else [[s[0]] + rest[0]] + rest[1..]
  }

  predicate ValidKind(s: string) {
    |s| <= 128 && |Segments(s)| >= 2 && forall seg | seg in Segments(s) :: Word(seg)
  }

  predicate Reserved(s: string, allowReserved: bool) {
    Segments(s)[0] == "agent_hooks" || (Segments(s)[0] == "ctk" && !allowReserved)
  }

  /** A kind and a reference name are never the same string. */
  lemma KindIsNoReference(s: string)
    requires ValidKind(s)
    ensures !ReferenceName(s)
  {
    HasDot(s);
  }

  lemma {:induction false} HasDot(s: string)
    requires |Segments(s)| >= 2
    ensures '.' in s
  {
    if s[0] != '.' {
      HasDot(s[1..]);
      assert forall c | c in s[1..] :: c in s;
    }
  }

  // ---- sorting ---------------------------------------------------------------------------

  function Insert(r: seq<string>, x: string): (t: seq<string>)
    ensures forall y :: y in t <==> y in r || y == x
  {
    if r == [] || Below(x, r[0]) then [x] + r else [r[0]] + Insert(r[1..], x)
  }

  lemma {:induction false} InsertAscends(r: seq<string>, x: string)
    requires Ascending(r) && x !in r
    ensures Ascending(Insert(r, x))
  {
    if r == [] {
    } else if Below(x, r[0]) {
      forall j | 0 <= j < |r|
        ensures Below(x, r[j])
      {
        if j > 0 { BelowIsTransitive(x, r[0], r[j]); }
      }
    } else {
      InsertAscends(r[1..], x);
      BelowIsTotal(x, r[0]);
      var t := Insert(r[1..], x);
      forall j | 0 <= j < |t|
        ensures Below(r[0], t[j])
      {
        assert t[j] in t;
      }
    }
  }

  method SortStrings(s: seq<string>) returns (r: seq<string>)
    requires forall i, j | 0 <= i < j < |s| :: s[i] != s[j]
    ensures r == Sorted(set x | x in s)
  {
    r := [];
    for i := 0 to |s|
      invariant Ascending(r) && forall x :: x in r <==> x in s[..i]
    {
      InsertAscends(r, s[i]);
      r := Insert(r, s[i]);
    }
    assert s[..|s|] == s;
    OneSortedForm((set x | x in s), r);
  }

  method SortedKeys(keys: set<string>) returns (r: seq<string>)
    ensures r == Sorted(keys)
  {
    var out: seq<string> := [];
    var todo := keys;
    while todo != {}
      invariant todo <= keys
      invariant forall x :: x in out <==> x in keys - todo
      invariant forall i, j | 0 <= i < j < |out| :: out[i] != out[j]
    {
      var k :| k in todo;
      assert k !in out;
      forall x
        ensures x in out + [k] <==> x in keys - (todo - {k})
      {
        assert x in out <==> x in keys - todo;
      }
      out := out + [k];
      todo := todo - {k};
    }
    r := SortStrings(out);
    assert (set x | x in out) == keys;
  }

  // ---- the registry ------------------------------------------------------------------------

  class HostRegistry {
    const allowReserved: bool
    var kinds: set<string>
    var managedKinds: set<string>
    var identityProviders: set<string>
    var approvalResolvers: set<string>
    var approvalRedactors: set<string>
    var hasNotifier: bool

    /** Every name matches its grammar, no kind is under a reserved segment, and no kind
        is both standard and managed. */
    ghost predicate Valid()
      reads this
    {
      && kinds !! managedKinds
      && (forall k | k in kinds + managedKinds :: ValidKind(k) && !Reserved(k, allowReserved))
      && (forall n | n in identityProviders :: IsProviderName(n) && |n| <= 64)
      && (forall n | n in approvalResolvers + approvalRedactors :: ReferenceName(n))
    }

    /** What the construction of an emitter looks up. */
    function View(resolves: (nat, Construction.Binding) -> bool): Construction.Registry
      reads this
    {
      Construction.Registry(kinds, managedKinds, identityProviders, approvalResolvers, approvalRedactors, hasNotifier, resolves)
    }

    constructor (allowReserved: bool)
      ensures Valid() && this.allowReserved == allowReserved && !hasNotifier
      ensures kinds == managedKinds == identityProviders == approvalResolvers == approvalRedactors == {}
    {
      this.allowReserved := allowReserved;
      kinds, managedKinds, identityProviders, approvalResolvers, approvalRedactors := {}, {}, {}, {}, {};
      hasNotifier := false;
    }

    method CheckKind(kind: string, hasResolver: bool) returns (ok: bool)
      ensures ok <==>
        ValidKind(kind) && !Reserved(kind, allowReserved) && kind !in kinds && kind !in managedKinds && hasResolver
    {
      if !ValidKind(kind) {
        return false;
      }
      var head := Segments(kind)[0];
      if (head == "agent_hooks" || head == "ctk") && !(allowReserved && head == "ctk") {
        return false;
      }
      if kind in kinds || kind in managedKinds {
        return false;
      }
      return hasResolver;
    }

    /** Accepted once per name over both kinds of resolver. */
    method Kind(kind: string, hasResolver: bool) returns (ok: bool)
      requires Valid()
      modifies `kinds
      ensures Valid()
      ensures ok <==>
        && ValidKind(kind) && !Reserved(kind, allowReserved) && hasResolver
        && kind !in old(kinds) && kind !in managedKinds
      ensures kinds == old(kinds) + if ok then {kind} else {}
    {
      ok := CheckKind(kind, hasResolver);
      if ok {
        kinds := kinds + {kind};
      }
    }

    method ManagedKind(kind: string, hasResolver: bool) returns (ok: bool)
      requires Valid()
      modifies `managedKinds
      ensures Valid()
      ensures ok <==>
        && ValidKind(kind) && !Reserved(kind, allowReserved) && hasResolver
        && kind !in kinds && kind !in old(managedKinds)
      ensures managedKinds == old(managedKinds) + if ok then {kind} else {}
    {
      ok := CheckKind(kind, hasResolver);
      if ok {
        managedKinds := managedKinds + {kind};
      }
    }

    method IdentityProvider(name: string, hasCompute: bool) returns (ok: bool)
      requires Valid()
      modifies `identityProviders
      ensures Valid()
      ensures ok <==> IsProviderName(name) && |name| <= 64 && name !in old(identityProviders) && hasCompute
      ensures identityProviders == old(identityProviders) + if ok then {name} else {}
    {
      if !IsProviderName(name) || |name| > 64 || name in identityProviders || !hasCompute {
        return false;
      }
      identityProviders := identityProviders + {name};
      return true;
    }

    method ApprovalResolver(name: string, present: bool) returns (ok: bool)
      requires Valid()
      modifies `approvalResolvers
      ensures Valid()
      ensures ok <==> ReferenceName(name) && name !in old(approvalResolvers) && present
      ensures approvalResolvers == old(approvalResolvers) + if ok then {name} else {}
    {
      if !ReferenceName(name) || name in approvalResolvers || !present {
        return false;
      }
      approvalResolvers := approvalResolvers + {name};
      return true;
    }

    method ApprovalRedactor(name: string, present: bool) returns (ok: bool)
      requires Valid()
      modifies `approvalRedactors
      ensures Valid()
      ensures ok <==> ReferenceName(name) && name !in old(approvalRedactors) && present
      ensures approvalRedactors == old(approvalRedactors) + if ok then {name} else {}
    {
      if !ReferenceName(name) || name in approvalRedactors || !present {
        return false;
      }
      approvalRedactors := approvalRedactors + {name};
      return true;
    }

    method ControlFailureNotifier(present: bool) returns (ok: bool)
      modifies `hasNotifier
      ensures ok <==> present
      ensures hasNotifier == (old(hasNotifier) || present)
    {
      if !present {
        return false;
      }
      hasNotifier := true;
      return true;
    }

    /** The kinds the loader is told about: each of either sort once, in order. */
    method KindNames() returns (r: seq<string>)
      requires Valid()
      ensures r == Sorted(kinds + managedKinds)
    {
      var standard := SortedKeys(kinds);
      var managed := SortedKeys(managedKinds);
      SortedAscends(kinds);
      SortedAscends(managedKinds);
      var both := standard + managed;
      forall i, j | 0 <= i < j < |both|
        ensures both[i] != both[j]
      {
        if j < |standard| {
          BelowIsStrict(both[i]);
        } else if i < |standard| {
          assert standard[i] in standard && managed[j - |standard|] in managed;
        } else {
          assert Below(managed[i - |standard|], managed[j - |standard|]);
          BelowIsStrict(both[i]);
        }
      }
      r := SortStrings(both);
      assert (set x | x in both) == kinds + managedKinds;
    }
  }

  /** An emitter built over a registry whose kinds are disjoint runs a binding under the
      managed contract exactly when its kind was registered as managed, and its custom
      providers never pass for the built-in one. */
  lemma ManagedIffRegistered(
    reg: HostRegistry, resolves: (nat, Construction.Binding) -> bool, s: State, resolved: Construction.Resolved)
    requires reg.Valid()
    requires Construction.IsBuilt(s, resolved, reg.View(resolves))
    requires Construction.ReferenceRefusal(resolved, reg.View(resolves)) == None
    requires forall i | 0 <= i < |resolved.bindings| ::
      Construction.BindingRefusal(i, resolved.bindings[i], resolved, reg.View(resolves)) == None
    ensures forall i | 0 <= i < |s.bound| :: s.bound[i].managed <==> resolved.bindings[i].kind in reg.managedKinds
    ensures s.identity.CustomProvider? ==> s.identity.name in reg.identityProviders && s.identity.name != JCS_SHA256
  {
    forall i | 0 <= i < |s.bound|
      ensures s.bound[i].managed <==> resolved.bindings[i].kind in reg.managedKinds
    {
      assert Construction.BindingRefusal(i, resolved.bindings[i], resolved, reg.View(resolves)) == None;
    }
  }

  // ---- the kind grammar ------------------------------------------------------------------------

  /** The words, joined by dots. */
  function Joined(parts: seq<string>): string
    requires parts != []
  {
    if |parts| == 1 then parts[0] else parts[0] + "." + Joined(parts[1..])
  }

  lemma {:induction false} SegmentsJoin(s: string)
    ensures Joined(Segments(s)) == s
    ensures forall seg | seg in Segments(s) :: '.' !in seg
  {
    if s != "" {
      SegmentsJoin(s[1..]);
      var rest := Segments(s[1..]);
      assert s == [s[0]] + s[1..];
      if s[0] == '.' {
        assert ([""] + rest)[1..] == rest;
      } else {
        assert ([[s[0]] + rest[0]] + rest[1..])[1..] == rest[1..];
        assert rest[0] in rest && forall x | x in rest[1..] :: x in rest;
      }
    }
  }

  lemma {:induction false} SegmentsOfJoined(parts: seq<string>)
    requires parts != [] && forall p | p in parts :: '.' !in p
    ensures Segments(Joined(parts)) == parts
    decreases |parts|, |parts[0]|
  {
    var s := Joined(parts);
    if parts[0] == "" {
      if |parts| > 1 {
        assert s == "." + Joined(parts[1..]) && s[1..] == Joined(parts[1..]);
        assert forall p | p in parts[1..] :: p in parts;
        SegmentsOfJoined(parts[1..]);
        assert parts == [""] + parts[1..];
      }
    } else {
      var c, word := parts[0][0], parts[0][1..];
      assert parts[0] in parts && parts[0] == [c] + word && c in parts[0];
      assert forall x | x in word :: x in parts[0];
      var shorter := [word] + parts[1..];
      assert shorter[1..] == parts[1..];
      assert forall p | p in shorter :: p == word || p in parts;
      assert s == [c] + Joined(shorter);
      SegmentsOfJoined(shorter);
      assert parts == [[c] + word] + parts[1..];
    }
  }

  /** A valid kind is two or more words joined by dots, 128 characters at most; a word starts
      with a lower-case letter and goes on with such letters, digits, `_` and `-`. */
  lemma ValidKindIff(s: string)
    ensures ValidKind(s) <==>
      |s| <= 128 && exists parts: seq<string> ::
        |parts| >= 2 && Joined(parts) == s && forall p | p in parts :: IsWord(p)
  {
    SegmentsJoin(s);
    WordIff();
    if exists parts: seq<string> :: |parts| >= 2 && Joined(parts) == s && forall p | p in parts :: IsWord(p) {
      var parts: seq<string> :| |parts| >= 2 && Joined(parts) == s && forall p | p in parts :: IsWord(p);
      forall p | p in parts ensures '.' !in p {
        assert IsWord(p);
      }
      SegmentsOfJoined(parts);
    }
    hide Word, IsWord, Joined;
  }

  predicate IsWord(s: string) {
    && s != "" && 'a' <= s[0] <= 'z'
    && forall i | 0 <= i < |s| :: 'a' <= s[i] <= 'z' || '0' <= s[i] <= '9' || s[i] == '_' || s[i] == '-'
  }

  lemma WordIff()
    ensures forall s :: Word(s) <==> IsWord(s)
  {
    forall s ensures Word(s) <==> IsWord(s) {
      if Word(s) { assert forall i | 0 <= i < |s| :: s[i] in s; }
    }
  }

  /** A kind is reserved when its first word is `agent_hooks`, or `ctk` outside the
      conformance registry. */
  lemma ReservedIff(parts: seq<string>, allowReserved: bool)
    requires parts != [] && forall p | p in parts :: IsWord(p)
    ensures Reserved(Joined(parts), allowReserved) <==>
      parts[0] == "agent_hooks" || (parts[0] == "ctk" && !allowReserved)
  {
    forall p | p in parts ensures '.' !in p {
      assert IsWord(p);
    }
    SegmentsOfJoined(parts);
  }

  /** A document builds over a registry exactly when what it refers to is registered there. */
  lemma BuildsOverRegistryIff(reg: HostRegistry, resolves: (nat, Construction.Binding) -> bool, resolved: Construction.Resolved)
    ensures
      (Construction.ReferenceRefusal(resolved, reg.View(resolves)) == None
       && forall i | 0 <= i < |resolved.bindings| ::
            Construction.BindingRefusal(i, resolved.bindings[i], resolved, reg.View(resolves)) == None) <==>
      && (resolved.resolver.Some? ==> resolved.resolver.value in reg.approvalResolvers)
      && (resolved.identityProvider.Some? && resolved.identityProvider.value != "jcs-sha256" ==>
            resolved.identityProvider.value in reg.identityProviders)
      && (resolved.redactor.Some? ==> resolved.redactor.value in reg.approvalRedactors)
      && forall i | 0 <= i < |resolved.bindings| ::
           var b := resolved.bindings[i];
           && (b.kind in reg.kinds || b.kind in reg.managedKinds)
           && (b.onError == OnErrorContinue ==> reg.hasNotifier)
           && resolves(i, b)
  {
    Construction.BuildsIff(resolved, reg.View(resolves));
  }
}
