/** The declaration builder, and rebuilding a document through it member by member. */
module Declaration {
  import opened Json
  import opened Rereading

  const MAX_INT64: int := 0x7fff_ffff_ffff_ffff

  // ---- values a typed setter can write -----------------------------------------------

  /** An empty name writes null. */
  function NullableString(s: string): Json {
    if s == "" then Null else Str(s)
  }

  /** Zero writes null. */
  function NullableUint(n: nat): Json {
    if n == 0 then Null else Int(n)
  }

  /** The name a setter would be given for a member, or None when no name writes it. */
  function StringOrNull(v: Json): Option<string> {
    if v == Null then Some("")
    else if v.Str? && v.s != "" then Some(v.s)
    else None
  }

  /** The number a setter would be given for a member, or None when none writes it. */
  function UintOrNull(v: Json): Option<nat> {
    if v == Null then Some(0)
    else if v.Int? && 0 < v.n <= MAX_INT64 then Some(v.n)
    else None
  }

  predicate IsName(v: Json) { StringOrNull(v).Some? }

  predicate IsUint(v: Json) { UintOrNull(v).Some? }

  function Strings(items: seq<string>): Json {
    Arr(seq(|items|, i requires 0 <= i < |items| => Str(items[i])))
  }

  predicate IsStrings(v: Json) {
    v.Arr? && forall x | x in v.items :: x.Str?
  }

  /** The strings of an array of strings. */
  method StringsOf(v: Json) returns (r: Option<seq<string>>)
    ensures r.Some? <==> IsStrings(v)
    ensures r.Some? ==> Strings(r.value) == v
  {
    if !v.Arr? {
      return None;
    }
    var out: seq<string> := [];
    for i := 0 to |v.items|
      invariant |out| == i && forall j | 0 <= j < i :: v.items[j] == Str(out[j])
    {
      if !v.items[i].Str? {
        assert v.items[i] in v.items;
        return None;
      }
      out := out + [v.items[i].s];
    }
    assert Strings(out).items == v.items;
    return Some(out);
  }

  /** A composition block; an empty field is an absent member. */
  datatype CompositionFields = CompositionFields(
    profile: string, onApproval: string, onDisagreement: string, onTransformConflict: string)

  function PutIf(o: Members, key: string, s: string): Members {
    if s == "" then o else o[key := Str(s)]
  }

  function CompositionJson(c: CompositionFields): Members {
    PutIf(PutIf(PutIf(PutIf(map[],
      "profile", c.profile), "on_approval", c.onApproval),
      "on_disagreement", c.onDisagreement), "on_transform_conflict", c.onTransformConflict)
  }

  predicate KnobKey(k: string) {
    k == "on_approval" || k == "on_disagreement" || k == "on_transform_conflict"
  }

  predicate CompositionKey(k: string) {
    k == "profile" || KnobKey(k)
  }

  /** The knob values of one profile; an empty set is not written. */
  datatype KnobSupport = KnobSupport(onApproval: seq<string>, onDisagreement: seq<string>, onTransformConflict: seq<string>)

  function PutSet(o: Members, key: string, items: seq<string>): Members {
    if items == [] then o else o[key := Strings(items)]
  }

  function KnobsJson(k: KnobSupport): Members {
    PutSet(PutSet(PutSet(map[], "on_approval", k.onApproval),
      "on_disagreement", k.onDisagreement), "on_transform_conflict", k.onTransformConflict)
  }

  // ---- what the typed path can express, and what it writes ------------------------------

  predicate OneOf(v: Json, a: string, b: string) {
    v == Str(a) || v == Str(b)
  }

  predicate Sole(v: Json, key: string) {
    v.Obj? && v.members.Keys == {key}
  }

  /** A configuration member the setters can write exactly. */
  predicate ConfigurationMember(k: string, v: Json) {
    if k == "mode" then OneOf(v, "enforce", "evaluate_only")
    else if k == "composition" then
      v.Obj? && forall kk | kk in v.members :: CompositionKey(kk) && v.members[kk].Str? && v.members[kk].s != ""
    else if k == "identity_provider" then IsName(v)
    else if k == "approval" then
      v.Obj? && forall kk | kk in v.members :: (kk == "resolver" || kk == "redactor") && IsName(v.members[kk])
    else if k == "posture" then
      Sole(v, "tool_seam_host_error") && OneOf(v.members["tool_seam_host_error"], "continue", "terminate")
    else if k == "failure" then Sole(v, "on_error") && OneOf(v.members["on_error"], "deny", "continue")
    else if k == "timeouts" then
      v.Obj? && forall kk | kk in v.members :: (kk == "interceptor_ms" || kk == "approval_resolver_ms") && IsUint(v.members[kk])
    else k == "records" && Sole(v, "max_buffered") && IsUint(v.members["max_buffered"])
  }

  predicate ConfigurationExpressible(c: Members) {
    forall k | k in c :: ConfigurationMember(k, c[k])
  }

  /** An empty object under a member whose setters write one entry at a time. */
  predicate Vanishes(k: string, v: Json) {
    (k == "approval" || k == "timeouts") && v == Obj(map[])
  }

  /** A configuration as the setters write it. */
  function WrittenConfiguration(c: Members): Members {
    map k | k in c && !Vanishes(k, c[k]) :: c[k]
  }

  // ---- configuration actions ----------------------------------------------------------------

  datatype Action =
    | SetMode(mode: string)
    | SetComposition(fields: CompositionFields)
    | SetIdentityProvider(name: string)
    | SetApproval(member: string, name: string)
    | SetPosture(posture: string)
    | SetFailure(onError: string)
    | SetTimeout(member: string, ms: nat)
    | SetMaxBuffered(n: nat)

  function Sub(o: Members, key: string): Members {
    if key in o && o[key].Obj? then o[key].members else map[]
  }

  function PutSub(o: Members, key: string, k: string, v: Json): Members {
    o[key := Obj(Sub(o, key)[k := v])]
  }

  /** What one setter does to the configuration object. */
  function Act(c: Members, a: Action): Members {
    match a
    case SetMode(s) => c["mode" := Str(s)]
    case SetComposition(f) => c["composition" := Obj(CompositionJson(f))]
    case SetIdentityProvider(n) => c["identity_provider" := NullableString(n)]
    case SetApproval(m, n) => PutSub(c, "approval", m, NullableString(n))
    case SetPosture(s) => PutSub(c, "posture", "tool_seam_host_error", Str(s))
    case SetFailure(s) => PutSub(c, "failure", "on_error", Str(s))
    case SetTimeout(m, ms) => PutSub(c, "timeouts", m, NullableUint(ms))
    case SetMaxBuffered(n) => PutSub(c, "records", "max_buffered", NullableUint(n))
  }

  function ActAll(actions: seq<Action>): Members {
    if actions == [] then map[] else Act(ActAll(actions[..|actions| - 1]), actions[|actions| - 1])
  }

  lemma ActAllSnoc(actions: seq<Action>, a: Action)
    ensures ActAll(actions + [a]) == Act(ActAll(actions), a)
  {
    assert (actions + [a])[..|actions|] == actions;
  }

  function Restrict(m: Members, keys: set<string>): Members {
    map k | k in m && k in keys :: m[k]
  }

  /** The composition block read into fields, in any member order. */
  method CompositionOf(comp: Members) returns (fields: Option<CompositionFields>)
    ensures fields.Some? <==> ConfigurationMember("composition", Obj(comp))
    ensures fields.Some? ==> CompositionJson(fields.value) == comp
  {
    var f := CompositionFields("", "", "", "");
    var todo := comp.Keys;
    while todo != {}
      invariant todo <= comp.Keys
      invariant forall k | k in comp && k !in todo :: CompositionKey(k) && comp[k].Str? && comp[k].s != ""
      invariant CompositionJson(f) == Restrict(comp, comp.Keys - todo)
    {
      var k :| k in todo;
      if !comp[k].Str? || comp[k].s == "" {
        return None;
      }
      ghost var before := f;
      var s := comp[k].s;
      if k == "profile" {
        f := f.(profile := s);
      } else if k == "on_approval" {
        f := f.(onApproval := s);
      } else if k == "on_disagreement" {
        f := f.(onDisagreement := s);
      } else if k == "on_transform_conflict" {
        f := f.(onTransformConflict := s);
      } else {
        return None;
      }
      FieldWritten(before, f, k, s);
      todo := todo - {k};
      assert Restrict(comp, comp.Keys - todo) == CompositionJson(before)[k := comp[k]];
    }
    assert Restrict(comp, comp.Keys) == comp;
    return Some(f);
  }

  /** Setting one field of a composition block sets one member of its JSON. */
  lemma FieldWritten(before: CompositionFields, after: CompositionFields, k: string, s: string)
    requires s != "" && CompositionKey(k)
    requires after == if k == "profile" then before.(profile := s)
                      else if k == "on_approval" then before.(onApproval := s)
                      else if k == "on_disagreement" then before.(onDisagreement := s)
                      else before.(onTransformConflict := s)
    ensures CompositionJson(after) == CompositionJson(before)[k := Str(s)]
  {
    var a, b := CompositionJson(after), CompositionJson(before)[k := Str(s)];
    assert a.Keys == b.Keys;
  }

  /** One more member of a configuration, written. */
  lemma WrittenStep(c: Members, done: set<string>, k: string)
    requires k in c && k !in done
    ensures WrittenConfiguration(Restrict(c, done + {k})) ==
      if Vanishes(k, c[k]) then WrittenConfiguration(Restrict(c, done))
      else WrittenConfiguration(Restrict(c, done))[k := c[k]]
    ensures k !in WrittenConfiguration(Restrict(c, done))
  {
    hide Vanishes;
  }

  /** The entries of `approval`, in any order; nothing is collected on a refusal. */
  method CollectApproval(a: Members, actions: seq<Action>) returns (r: Option<seq<Action>>)
    requires "approval" !in ActAll(actions)
    ensures r.Some? <==> ConfigurationMember("approval", Obj(a))
    ensures r.Some? ==> ActAll(r.value) == if a == map[] then ActAll(actions) else ActAll(actions)["approval" := Obj(a)]
  {
    hide ActAll;
    var out := actions;
    var todo := a.Keys;
    ghost var start := ActAll(actions);
    assert Restrict(a, {}) == map[];
    while todo != {}
      invariant todo <= a.Keys
      invariant forall k | k in a && k !in todo :: (k == "resolver" || k == "redactor") && IsName(a[k])
      invariant ActAll(out) == if todo == a.Keys then start else start["approval" := Obj(Restrict(a, a.Keys - todo))]
    {
      var k :| k in todo;
      var name := StringOrNull(a[k]);
      if name.None? || (k != "resolver" && k != "redactor") {
        return None;
      }
      ActAllSnoc(out, SetApproval(k, name.value));
      out := out + [SetApproval(k, name.value)];
      assert Restrict(a, a.Keys - (todo - {k})) == Restrict(a, a.Keys - todo)[k := a[k]];
      todo := todo - {k};
    }
    assert Restrict(a, a.Keys - todo) == a && (a.Keys == {} <==> a == map[]);
    return Some(out);
  }

  /** The entries of `timeouts`, in any order; nothing is collected on a refusal. */
  method CollectTimeouts(t: Members, actions: seq<Action>) returns (r: Option<seq<Action>>)
    requires "timeouts" !in ActAll(actions)
    ensures r.Some? <==> ConfigurationMember("timeouts", Obj(t))
    ensures r.Some? ==> ActAll(r.value) == if t == map[] then ActAll(actions) else ActAll(actions)["timeouts" := Obj(t)]
  {
    hide ActAll;
    var out := actions;
    var todo := t.Keys;
    ghost var start := ActAll(actions);
    assert Restrict(t, {}) == map[];
    while todo != {}
      invariant todo <= t.Keys
      invariant forall k | k in t && k !in todo :: (k == "interceptor_ms" || k == "approval_resolver_ms") && IsUint(t[k])
      invariant ActAll(out) == if todo == t.Keys then start else start["timeouts" := Obj(Restrict(t, t.Keys - todo))]
    {
      var k :| k in todo;
      var ms := UintOrNull(t[k]);
      if ms.None? || (k != "interceptor_ms" && k != "approval_resolver_ms") {
        return None;
      }
      ActAllSnoc(out, SetTimeout(k, ms.value));
      out := out + [SetTimeout(k, ms.value)];
      assert Restrict(t, t.Keys - (todo - {k})) == Restrict(t, t.Keys - todo)[k := t[k]];
      todo := todo - {k};
    }
    assert Restrict(t, t.Keys - todo) == t && (t.Keys == {} <==> t == map[]);
    return Some(out);
  }

  /** A member whose one setter writes it whole. */
  lemma SoleWritten(c: Members, key: string, member: string, v: Json)
    requires key !in c && Sole(v, member)
    ensures PutSub(c, key, member, v.members[member]) == c[key := v]
  {
    assert v.members == map[member := v.members[member]];
  }

  /** One member of a configuration, as the setters to call for it. */
  method CollectMember(k: string, v: Json, actions: seq<Action>) returns (r: Option<seq<Action>>)
    requires k !in ActAll(actions)
    ensures r.Some? <==> ConfigurationMember(k, v)
    ensures r.Some? ==> ActAll(r.value) == if Vanishes(k, v) then ActAll(actions) else ActAll(actions)[k := v]
  {
    hide ActAll, CompositionJson;
    ghost var c := ActAll(actions);
    if k == "mode" {
      if !v.Str? || (v.s != "enforce" && v.s != "evaluate_only") {
        return None;
      }
      ActAllSnoc(actions, SetMode(v.s));
      return Some(actions + [SetMode(v.s)]);
    } else if k == "composition" {
      if !v.Obj? {
        return None;
      }
      var fields := CompositionOf(v.members);
      if fields.None? {
        return None;
      }
      ActAllSnoc(actions, SetComposition(fields.value));
      return Some(actions + [SetComposition(fields.value)]);
    } else if k == "identity_provider" {
      var name := StringOrNull(v);
      if name.None? {
        return None;
      }
      ActAllSnoc(actions, SetIdentityProvider(name.value));
      return Some(actions + [SetIdentityProvider(name.value)]);
    } else if k == "approval" {
      if !v.Obj? {
        return None;
      }
      r := CollectApproval(v.members, actions);
    } else if k == "posture" {
      if !v.Obj? || v.members.Keys != {"tool_seam_host_error"} {
        return None;
      }
      var p := v.members["tool_seam_host_error"];
      if !p.Str? || (p.s != "continue" && p.s != "terminate") {
        return None;
      }
      SoleWritten(c, k, "tool_seam_host_error", v);
      ActAllSnoc(actions, SetPosture(p.s));
      return Some(actions + [SetPosture(p.s)]);
    } else if k == "failure" {
      if !v.Obj? || v.members.Keys != {"on_error"} {
        return None;
      }
      var f := v.members["on_error"];
      if !f.Str? || (f.s != "deny" && f.s != "continue") {
        return None;
      }
      SoleWritten(c, k, "on_error", v);
      ActAllSnoc(actions, SetFailure(f.s));
      return Some(actions + [SetFailure(f.s)]);
    } else if k == "timeouts" {
      if !v.Obj? {
        return None;
      }
      r := CollectTimeouts(v.members, actions);
    } else if k == "records" {
      if !v.Obj? || v.members.Keys != {"max_buffered"} {
        return None;
      }
      var n := UintOrNull(v.members["max_buffered"]);
      if n.None? {
        return None;
      }
      SoleWritten(c, k, "max_buffered", v);
      ActAllSnoc(actions, SetMaxBuffered(n.value));
      return Some(actions + [SetMaxBuffered(n.value)]);
    } else {
      return None;
    }
  }

  /** The setters a configuration calls for, collected before any is called. */
  method CollectConfiguration(c: Members) returns (r: Option<seq<Action>>)
    ensures r.Some? <==> ConfigurationExpressible(c)
    ensures r.Some? ==> ActAll(r.value) == WrittenConfiguration(c)
  {
    hide ActAll, ConfigurationMember, Vanishes;
    var actions: seq<Action> := [];
    var todo := c.Keys;
    ActAllNone();
    assert WrittenConfiguration(Restrict(c, {})) == map[];
    while todo != {}
      invariant todo <= c.Keys
      invariant forall k | k in c && k !in todo :: ConfigurationMember(k, c[k])
      invariant ActAll(actions) == WrittenConfiguration(Restrict(c, c.Keys - todo))
    {
      var k :| k in todo;
      WrittenStep(c, c.Keys - todo, k);
      var next := CollectMember(k, c[k], actions);
      if next.None? {
        return None;
      }
      actions := next.value;
      assert c.Keys - (todo - {k}) == c.Keys - todo + {k};
      todo := todo - {k};
    }
    assert Restrict(c, c.Keys) == c;
    return Some(actions);
  }

  lemma ActAllNone()
    ensures ActAll([]) == map[]
  {
  }

  // ---- surface ------------------------------------------------------------------------------

  /** A knob set the typed form can hold: null, or a non-empty list of strings and nulls. */
  predicate KnobValues(v: Json) {
    v == Null || (v.Arr? && v.items != [] && forall x | x in v.items :: x == Null || x.Str?)
  }

  predicate KnobsExpressible(v: Json) {
    v.Obj? && forall k | k in v.members :: KnobKey(k) && KnobValues(v.members[k])
  }

  predicate SurfaceMember(k: string, v: Json) {
    if k == "interception_points" || k == "capabilities" || k == "declaration_versions" then IsStrings(v)
    else if k == "profiles" then v.Obj? && forall name | name in v.members :: KnobsExpressible(v.members[name])
    else if k == "buffered_output" then v.Bool?
    else k == "exposure_bound" && v.Str? && v.s != ""
  }

  predicate SurfaceExpressible(sf: Members) {
    && (forall k | k in sf :: SurfaceMember(k, sf[k]))
    && ("exposure_bound" in sf ==> "buffered_output" in sf)
  }

  function MembersOf(v: Json): Members {
    if v.Obj? then v.members else map[]
  }

  function WrittenValues(v: Json): Json {
    if v.Arr?
    then Arr(seq(|v.items|, i requires 0 <= i < |v.items| => if v.items[i] == Null then Str("") else v.items[i]))
    else v
  }

  /** The knobs of a profile as the typed form writes them: a null set is dropped and a
      null value becomes the empty string. */
  function WrittenKnobs(km: Members): Members {
    map k | k in km && km[k] != Null :: WrittenValues(km[k])
  }

  function WrittenProfiles(ps: Members): Members {
    map name | name in ps :: Obj(WrittenKnobs(MembersOf(ps[name])))
  }

  predicate Empties(k: string, v: Json) {
    k == "profiles" && v == Obj(map[])
  }

  /** A surface as the setters write it. */
  function WrittenSurface(sf: Members): Members {
    map k | k in sf && !Empties(k, sf[k]) :: if k == "profiles" then Obj(WrittenProfiles(MembersOf(sf[k]))) else sf[k]
  }

  datatype SurfaceAction =
    | SetBuffered(buffered: bool, bound: string)
    | SetStrings(member: string, items: seq<string>)
    | SetProfile(name: string, knobs: KnobSupport)

  function SurfaceAct(sf: Members, a: SurfaceAction): Members {
    match a
    case SetBuffered(b, bound) =>
      var o := sf["buffered_output" := Bool(b)];
      if bound != "" then o["exposure_bound" := Str(bound)] else o - {"exposure_bound"}
    case SetStrings(m, items) => sf[m := Strings(items)]
    case SetProfile(name, knobs) => PutSub(sf, "profiles", name, Obj(KnobsJson(knobs)))
  }

  function SurfaceActAll(actions: seq<SurfaceAction>): Members {
    if actions == [] then map[] else SurfaceAct(SurfaceActAll(actions[..|actions| - 1]), actions[|actions| - 1])
  }

  lemma SurfaceActAllSnoc(actions: seq<SurfaceAction>, a: SurfaceAction)
    ensures SurfaceActAll([]) == map[]
    ensures SurfaceActAll(actions + [a]) == SurfaceAct(SurfaceActAll(actions), a)
  {
    assert (actions + [a])[..|actions|] == actions;
  }

  /** How the JSON library reads one list field of strings: null and absent are the
      empty list, a null element is the empty string. */
  method ReadSet(km: Members, key: string) returns (r: Option<seq<string>>)
    ensures r.Some? <==> key !in km || km[key] == Null || (km[key].Arr? && forall x | x in km[key].items :: x == Null || x.Str?)
    ensures r.Some? ==>
      if key in km && km[key] != Null then Strings(r.value) == WrittenValues(km[key]) && |r.value| == |km[key].items|
      else r.value == []
  {
    if key !in km || km[key] == Null {
      return Some([]);
    }
    if !km[key].Arr? {
      return None;
    }
    var items := km[key].items;
    var out: seq<string> := [];
    for i := 0 to |items|
      invariant |out| == i
      invariant forall j | 0 <= j < i :: items[j] == Null || items[j].Str?
      invariant forall j | 0 <= j < i :: Str(out[j]) == if items[j] == Null then Str("") else items[j]
    {
      if items[i] != Null && !items[i].Str? {
        assert items[i] in items;
        return None;
      }
      out := out + [if items[i] == Null then "" else items[i].s];
    }
    assert Strings(out).items == WrittenValues(km[key]).items;
    return Some(out);
  }

  /** The knobs of one profile in the typed form, or None when it cannot hold them. */
  method ReadKnobs(knobs: Json) returns (r: Option<KnobSupport>)
    ensures r.Some? <==> KnobsExpressible(knobs)
    ensures r.Some? ==> KnobsJson(r.value) == WrittenKnobs(MembersOf(knobs))
  {
    hide WrittenValues, Strings;
    if !knobs.Obj? {
      return None;
    }
    var km := knobs.members;
    var a := ReadSet(km, "on_approval");
    var d := ReadSet(km, "on_disagreement");
    var t := ReadSet(km, "on_transform_conflict");
    if a.None? || d.None? || t.None? {
      return None;
    }
    var todo := km.Keys;
    while todo != {}
      invariant todo <= km.Keys
      invariant forall k | k in km && k !in todo :: KnobKey(k) && KnobValues(km[k])
    {
      var k :| k in todo;
      if !KnobKey(k) || km[k] == Arr([]) {
        return None;
      }
      todo := todo - {k};
    }
    var support := KnobSupport(a.value, d.value, t.value);
    KnobsWritten(km, support);
    return Some(support);
  }

  lemma KnobsWritten(km: Members, s: KnobSupport)
    requires KnobsExpressible(Obj(km))
    requires if "on_approval" in km && km["on_approval"] != Null
             then Strings(s.onApproval) == WrittenValues(km["on_approval"]) && s.onApproval != [] else s.onApproval == []
    requires if "on_disagreement" in km && km["on_disagreement"] != Null
             then Strings(s.onDisagreement) == WrittenValues(km["on_disagreement"]) && s.onDisagreement != [] else s.onDisagreement == []
    requires if "on_transform_conflict" in km && km["on_transform_conflict"] != Null
             then Strings(s.onTransformConflict) == WrittenValues(km["on_transform_conflict"]) && s.onTransformConflict != []
             else s.onTransformConflict == []
    ensures KnobsJson(s) == WrittenKnobs(km)
  {
    hide WrittenValues, Strings;
    var a, b := KnobsJson(s), WrittenKnobs(km);
    assert a.Keys == b.Keys;
    assert forall k | k in b :: KnobKey(k);
  }

  lemma ProfilesStep(ps: Members, done: set<string>, name: string)
    requires name in ps && name !in done
    ensures WrittenProfiles(Restrict(ps, done + {name})) ==
      WrittenProfiles(Restrict(ps, done))[name := Obj(WrittenKnobs(MembersOf(ps[name])))]
    ensures WrittenProfiles(Restrict(ps, {})) == map[]
  {
    hide WrittenKnobs;
  }

  /** The entries of `profiles`, in any order; nothing is collected on a refusal. */
  method CollectProfiles(ps: Members, actions: seq<SurfaceAction>) returns (r: Option<seq<SurfaceAction>>)
    requires "profiles" !in SurfaceActAll(actions)
    ensures r.Some? <==> SurfaceMember("profiles", Obj(ps))
    ensures r.Some? ==>
      (SurfaceActAll(r.value) ==
       if ps == map[] then SurfaceActAll(actions) else SurfaceActAll(actions)["profiles" := Obj(WrittenProfiles(ps))])
  {
    hide SurfaceActAll, KnobsJson, KnobsExpressible, WrittenKnobs;
    var out := actions;
    var todo := ps.Keys;
    ghost var start := SurfaceActAll(actions);
    assert Restrict(ps, {}) == map[];
    while todo != {}
      invariant todo <= ps.Keys
      invariant forall name | name in ps && name !in todo :: KnobsExpressible(ps[name])
      invariant SurfaceActAll(out) ==
        if todo == ps.Keys then start else start["profiles" := Obj(WrittenProfiles(Restrict(ps, ps.Keys - todo)))]
    {
      var name :| name in todo;
      var knobs := ReadKnobs(ps[name]);
      if knobs.None? {
        return None;
      }
      SurfaceActAllSnoc(out, SetProfile(name, knobs.value));
      out := out + [SetProfile(name, knobs.value)];
      ProfilesStep(ps, ps.Keys - todo, name);
      assert ps.Keys - (todo - {name}) == ps.Keys - todo + {name};
      todo := todo - {name};
    }
    assert Restrict(ps, ps.Keys - todo) == ps && (ps.Keys == {} <==> ps == map[]);
    return Some(out);
  }

  /** One more member of a surface, written. */
  lemma SurfaceStep(sf: Members, done: set<string>, k: string)
    requires k in sf && k !in done
    ensures WrittenSurface(Restrict(sf, done + {k})) ==
      if Empties(k, sf[k]) then WrittenSurface(Restrict(sf, done))
      else WrittenSurface(Restrict(sf, done))[k := if k == "profiles" then Obj(WrittenProfiles(MembersOf(sf[k]))) else sf[k]]
    ensures k !in WrittenSurface(Restrict(sf, done))
  {
    hide WrittenProfiles, Empties;
  }

  const OUTPUT_KEYS := {"buffered_output", "exposure_bound"}

  /** The two output members are written by one setter, before the rest. */
  method CollectOutput(sf: Members) returns (r: Option<seq<SurfaceAction>>)
    ensures r.Some? <==>
      && ("buffered_output" in sf ==> sf["buffered_output"].Bool?)
      && ("exposure_bound" in sf ==> sf["exposure_bound"].Str? && sf["exposure_bound"].s != "" && "buffered_output" in sf)
    ensures r.Some? ==> SurfaceActAll(r.value) == WrittenSurface(Restrict(sf, OUTPUT_KEYS))
  {
    hide WrittenProfiles, SurfaceActAll;
    SurfaceActAllSnoc([], SetBuffered(true, ""));
    if "buffered_output" in sf {
      var b := sf["buffered_output"];
      if !b.Bool? {
        return None;
      }
      var bound := "";
      if "exposure_bound" in sf {
        if !sf["exposure_bound"].Str? || sf["exposure_bound"].s == "" {
          return None;
        }
        bound := sf["exposure_bound"].s;
      }
      SurfaceActAllSnoc([], SetBuffered(b.b, bound));
      assert [] + [SetBuffered(b.b, bound)] == [SetBuffered(b.b, bound)];
      assert SurfaceActAll([SetBuffered(b.b, bound)]) == WrittenSurface(Restrict(sf, OUTPUT_KEYS));
      return Some([SetBuffered(b.b, bound)]);
    } else if "exposure_bound" in sf {
      return None;
    }
    assert WrittenSurface(Restrict(sf, OUTPUT_KEYS)) == map[];
    return Some([]);
  }

  /** The setters a surface calls for, collected before any is called. */
  method CollectSurface(sf: Members) returns (r: Option<seq<SurfaceAction>>)
    ensures r.Some? <==> SurfaceExpressible(sf)
    ensures r.Some? ==> SurfaceActAll(r.value) == WrittenSurface(sf)
  {
    hide SurfaceActAll, WrittenProfiles, KnobsExpressible, WrittenSurface;
    r := CollectOutput(sf);
    if r.None? {
      return None;
    }
    var actions := r.value;
    var todo := sf.Keys;
    assert (sf.Keys - todo) + OUTPUT_KEYS == OUTPUT_KEYS;
    while todo != {}
      invariant todo <= sf.Keys
      invariant forall k | k in sf && k !in todo :: SurfaceMember(k, sf[k])
      invariant SurfaceActAll(actions) == WrittenSurface(Restrict(sf, (sf.Keys - todo) + OUTPUT_KEYS))
    {
      var k :| k in todo;
      ghost var done := (sf.Keys - todo) + OUTPUT_KEYS;
      if k == "interception_points" || k == "capabilities" || k == "declaration_versions" {
        var items := StringsOf(sf[k]);
        if items.None? {
          return None;
        }
        SurfaceStep(sf, done, k);
        SurfaceActAllSnoc(actions, SetStrings(k, items.value));
        actions := actions + [SetStrings(k, items.value)];
      } else if k == "profiles" {
        if !sf[k].Obj? {
          return None;
        }
        SurfaceStep(sf, done, k);
        var more := CollectProfiles(sf[k].members, actions);
        if more.None? {
          return None;
        }
        actions := more.value;
      } else if k != "buffered_output" && k != "exposure_bound" {
        return None;
      } else {
        assert done + {k} == done;
      }
      assert (sf.Keys - (todo - {k})) + OUTPUT_KEYS == done + {k};
      todo := todo - {k};
    }
    assert Restrict(sf, sf.Keys + OUTPUT_KEYS) == sf && (sf.Keys - todo) + OUTPUT_KEYS == sf.Keys + OUTPUT_KEYS;
    return Some(actions);
  }

  // ---- host and bindings -----------------------------------------------------------------------

  predicate HostExpressible(h: Members) {
    && "name" in h && h["name"].Str?
    && forall k | k in h :: k == "name" || (k == "version" && h[k].Str?)
  }

  /** The host block as its setter writes it: an empty version is omitted. */
  function WrittenHost(h: Members): Members {
    map k | k in h && !(k == "version" && h[k] == Str("")) :: h[k]
  }

  function HostJson(name: string, version: string): Members {
    PutIf(map["name" := Str(name)], "version", version)
  }

  predicate BindingMember(k: string, v: Json) {
    if k == "id" || k == "kind" then v.Str?
    else if k == "at" then IsStrings(v)
    else if k == "timeout_ms" then IsUint(v)
    else if k == "on_error" then OneOf(v, "deny", "continue")
    else k == "config"
  }

  predicate BindingExpressible(v: Json) {
    && v.Obj? && "id" in v.members && "kind" in v.members
    && forall k | k in v.members :: BindingMember(k, v.members[k])
  }

  /** A refinement of one binding. */
  datatype BindOption = BindAt(points: seq<string>) | BindTimeoutMs(ms: nat) | BindOnError(onError: string)

  function Refine(b: Members, o: BindOption): Members {
    match o
    case BindAt(points) => b["at" := Strings(points)]
    case BindTimeoutMs(ms) => b["timeout_ms" := NullableUint(ms)]
    case BindOnError(s) => b["on_error" := Str(s)]
  }

  function RefineAll(b: Members, opts: seq<BindOption>): Members {
    if opts == [] then b else Refine(RefineAll(b, opts[..|opts| - 1]), opts[|opts| - 1])
  }

  /** The envelope one `Bind` call appends; an absent config is omitted. */
  function Envelope(id: string, kind: string, config: Option<Json>, opts: seq<BindOption>): Members {
    var base: Members := map["id" := Str(id), "kind" := Str(kind)];
    RefineAll(if config.Some? then base["config" := config.value] else base, opts)
  }

  lemma RefineSnoc(b: Members, opts: seq<BindOption>, o: BindOption)
    ensures RefineAll(b, opts + [o]) == Refine(RefineAll(b, opts), o)
  {
    assert (opts + [o])[..|opts|] == opts;
  }

  /** A config given after refinements is the config given before them. */
  lemma {:induction false} ConfigCommutes(b: Members, v: Json, opts: seq<BindOption>)
    ensures RefineAll(b["config" := v], opts) == RefineAll(b, opts)["config" := v]
  {
    if opts != [] {
      ConfigCommutes(b, v, opts[..|opts| - 1]);
    }
  }

  datatype BindCall = BindCall(id: string, kind: string, config: Option<Json>, opts: seq<BindOption>)

  function CallJson(c: BindCall): Members {
    Envelope(c.id, c.kind, c.config, c.opts)
  }

  const IDENTITY_KEYS := {"id", "kind"}

  /** One binding as the `Bind` call that appends it, reading its members in any order. */
  method ReadBinding(item: Json) returns (r: Option<BindCall>)
    ensures r.Some? <==> BindingExpressible(item)
    ensures r.Some? ==> CallJson(r.value) == item.members
  {
    hide RefineAll;
    if !item.Obj? || "id" !in item.members || !item.members["id"].Str?
       || "kind" !in item.members || !item.members["kind"].Str? {
      return None;
    }
    var o := item.members;
    var id, kind := o["id"].s, o["kind"].s;
    var config: Option<Json> := None;
    var opts: seq<BindOption> := [];
    ghost var base: Members := map["id" := Str(id), "kind" := Str(kind)];
    RefineNone(base);
    var todo := o.Keys;
    assert (o.Keys - todo) + IDENTITY_KEYS == IDENTITY_KEYS;
    assert Restrict(o, IDENTITY_KEYS) == base;
    while todo != {}
      invariant todo <= o.Keys
      invariant forall k | k in o && k !in todo :: BindingMember(k, o[k])
      invariant Envelope(id, kind, config, opts) == Restrict(o, (o.Keys - todo) + IDENTITY_KEYS)
      invariant config.Some? ==> "config" !in todo
    {
      var k :| k in todo;
      ghost var done := (o.Keys - todo) + IDENTITY_KEYS;
      ghost var b := if config.Some? then base["config" := config.value] else base;
      assert Restrict(o, done + {k}) == Restrict(o, done)[k := o[k]];
      if k == "config" {
        ConfigCommutes(base, o[k], opts);
        config := Some(o[k]);
      } else if k == "at" {
        var points := StringsOf(o[k]);
        if points.None? {
          return None;
        }
        RefineSnoc(b, opts, BindAt(points.value));
        opts := opts + [BindAt(points.value)];
      } else if k == "timeout_ms" {
        var ms := UintOrNull(o[k]);
        if ms.None? {
          return None;
        }
        RefineSnoc(b, opts, BindTimeoutMs(ms.value));
        opts := opts + [BindTimeoutMs(ms.value)];
      } else if k == "on_error" {
        if !o[k].Str? || (o[k].s != "deny" && o[k].s != "continue") {
          return None;
        }
        RefineSnoc(b, opts, BindOnError(o[k].s));
        opts := opts + [BindOnError(o[k].s)];
      } else if k != "id" && k != "kind" {
        return None;
      } else {
        assert done + {k} == done;
      }
      assert (o.Keys - (todo - {k})) + IDENTITY_KEYS == done + {k};
      todo := todo - {k};
    }
    assert Restrict(o, (o.Keys - todo) + IDENTITY_KEYS) == o;
    return Some(BindCall(id, kind, config, opts));
  }

  lemma RefineNone(b: Members)
    ensures RefineAll(b, []) == b
  {
  }

  predicate BindingsExpressible(items: seq<Json>) {
    forall x | x in items :: BindingExpressible(x)
  }

  method ReadBindings(items: seq<Json>) returns (r: Option<seq<BindCall>>)
    ensures r.Some? <==> BindingsExpressible(items)
    ensures r.Some? ==> |r.value| == |items| && forall i | 0 <= i < |items| :: Obj(CallJson(r.value[i])) == items[i]
  {
    hide BindingExpressible, CallJson;
    var calls: seq<BindCall> := [];
    for i := 0 to |items|
      invariant |calls| == i
      invariant forall j | 0 <= j < i :: BindingExpressible(items[j]) && Obj(CallJson(calls[j])) == items[j]
    {
      var c := ReadBinding(items[i]);
      if c.None? {
        assert items[i] in items;
        return None;
      }
      BindingIsObject(items[i]);
      calls := calls + [c.value];
    }
    return Some(calls);
  }

  lemma BindingIsObject(v: Json)
    ensures BindingExpressible(v) ==> v.Obj?
  {
  }

  // ---- the rebuilt document ---------------------------------------------------------------------

  predicate TypedHost(v: Json) { v.Obj? && HostExpressible(v.members) }
  predicate TypedConfiguration(v: Json) { v.Obj? && ConfigurationExpressible(v.members) }
  predicate TypedSurface(v: Json) { v.Obj? && SurfaceExpressible(v.members) }

  /** A top-level member after the rebuild. */
  function WrittenMember(k: string, v: Json): Json {
    if k == "host" && TypedHost(v) then Obj(WrittenHost(v.members))
    else if k == "configuration" && TypedConfiguration(v) then Obj(WrittenConfiguration(v.members))
    else if k == "surface" && TypedSurface(v) then Obj(WrittenSurface(v.members))
    else v
  }

  /** A typed block no setter is called for leaves no member behind. */
  predicate Dropped(k: string, v: Json) {
    || (k == "configuration" && TypedConfiguration(v) && WrittenConfiguration(v.members) == map[])
    || (k == "surface" && TypedSurface(v) && WrittenSurface(v.members) == map[])
    || (k == "extensions" && v == Obj(map[]))
  }

  function Rebuilt(doc: Members): Members {
    map k | k in doc && !Dropped(k, doc[k]) :: WrittenMember(k, doc[k])
  }

  lemma RebuiltStep(doc: Members, done: set<string>, k: string)
    requires k in doc && k !in done
    ensures Rebuilt(Restrict(doc, done + {k})) ==
      if Dropped(k, doc[k]) then Rebuilt(Restrict(doc, done)) else Rebuilt(Restrict(doc, done))[k := WrittenMember(k, doc[k])]
    ensures k !in Rebuilt(Restrict(doc, done))
  {
    hide Dropped, WrittenMember;
  }

  /** The builder: one document, written by setters. */
  class DeclarationBuilder {
    var doc: Members

    constructor ()
      ensures doc == map[]
    {
      doc := map[];
    }

    /** The document as it is handed out, cloned through its printed form; nothing when a
        number in it cannot be read back. */
    method Value(read: Reader) returns (finished: Option<Members>)
      ensures finished == RereadObject(read, doc)
    {
      return RereadObject(read, doc);
    }

    method Raw(key: string, value: Json)
      modifies this
      ensures doc == old(doc)[key := value]
    {
      doc := doc[key := value];
    }

    /** The three string members `declaration`, `spec` and `id`. */
    method Label(key: string, s: string)
      requires key in {"declaration", "spec", "id"}
      modifies this
      ensures doc == old(doc)[key := Str(s)]
    {
      doc := doc[key := Str(s)];
    }

    method Host(name: string, version: string)
      modifies this
      ensures doc == old(doc)["host" := Obj(HostJson(name, version))]
    {
      doc := doc["host" := Obj(HostJson(name, version))];
    }

    method Configure(a: Action)
      modifies this
      ensures doc == old(doc)["configuration" := Obj(Act(Sub(old(doc), "configuration"), a))]
    {
      doc := doc["configuration" := Obj(Act(Sub(doc, "configuration"), a))];
    }

    method Surface(a: SurfaceAction)
      modifies this
      ensures doc == old(doc)["surface" := Obj(SurfaceAct(Sub(old(doc), "surface"), a))]
    {
      doc := doc["surface" := Obj(SurfaceAct(Sub(doc, "surface"), a))];
    }

    method Extension(key: string, value: Json)
      modifies this
      ensures doc == PutSub(old(doc), "extensions", key, value)
    {
      doc := PutSub(doc, "extensions", key, value);
    }

    method Bind(c: BindCall)
      modifies this
      ensures doc == old(doc)["bindings" :=
        Arr((if "bindings" in old(doc) && old(doc)["bindings"].Arr? then old(doc)["bindings"].items else []) + [Obj(CallJson(c))])]
    {
      var list := if "bindings" in doc && doc["bindings"].Arr? then doc["bindings"].items else [];
      doc := doc["bindings" := Arr(list + [Obj(CallJson(c))])];
    }

    /** Either the whole block is written through the setter, or nothing is. */
    method TypedHostBlock(h: Members) returns (ok: bool)
      modifies this
      ensures ok <==> HostExpressible(h)
      ensures doc == if ok then old(doc)["host" := Obj(WrittenHost(h))] else old(doc)
    {
      if "name" !in h || !h["name"].Str? {
        return false;
      }
      var version := "";
      var todo := h.Keys;
      while todo != {}
        invariant todo <= h.Keys && doc == old(doc)
        invariant forall k | k in h && k !in todo :: k == "name" || (k == "version" && h[k].Str?)
        invariant version == if "version" in h && "version" !in todo then h["version"].s else ""
      {
        var k :| k in todo;
        if k == "version" {
          if !h[k].Str? {
            return false;
          }
          version := h[k].s;
        } else if k != "name" {
          return false;
        }
        todo := todo - {k};
      }
      assert HostJson(h["name"].s, version) == WrittenHost(h);
      Host(h["name"].s, version);
      return true;
    }

    method TypedConfigurationBlock(c: Members) returns (ok: bool)
      requires "configuration" !in doc
      modifies this
      ensures ok <==> ConfigurationExpressible(c)
      ensures doc == if ok && WrittenConfiguration(c) != map[] then old(doc)["configuration" := Obj(WrittenConfiguration(c))]
                     else old(doc)
    {
      hide Act;
      var actions := CollectConfiguration(c);
      if actions.None? {
        return false;
      }
      ActAllNone();
      for i := 0 to |actions.value|
        invariant doc == if i == 0 then old(doc) else old(doc)["configuration" := Obj(ActAll(actions.value[..i]))]
      {
        ActAllSnoc(actions.value[..i], actions.value[i]);
        assert actions.value[..i + 1] == actions.value[..i] + [actions.value[i]];
        Configure(actions.value[i]);
      }
      assert actions.value[..|actions.value|] == actions.value;
      ActAllEmpty(actions.value);
      return true;
    }

    method TypedSurfaceBlock(sf: Members) returns (ok: bool)
      requires "surface" !in doc
      modifies this
      ensures ok <==> SurfaceExpressible(sf)
      ensures doc == if ok && WrittenSurface(sf) != map[] then old(doc)["surface" := Obj(WrittenSurface(sf))] else old(doc)
    {
      hide SurfaceAct, WrittenSurface;
      var actions := CollectSurface(sf);
      if actions.None? {
        return false;
      }
      SurfaceActAllSnoc([], SetBuffered(true, ""));
      for i := 0 to |actions.value|
        invariant doc == if i == 0 then old(doc) else old(doc)["surface" := Obj(SurfaceActAll(actions.value[..i]))]
      {
        SurfaceActAllSnoc(actions.value[..i], actions.value[i]);
        assert actions.value[..i + 1] == actions.value[..i] + [actions.value[i]];
        Surface(actions.value[i]);
      }
      assert actions.value[..|actions.value|] == actions.value;
      SurfaceActAllEmpty(actions.value);
      return true;
    }

    method TypedBindingsBlock(items: seq<Json>) returns (ok: bool)
      requires "bindings" !in doc
      modifies this
      ensures ok <==> BindingsExpressible(items)
      ensures doc == if ok then old(doc)["bindings" := Arr(items)] else old(doc)
    {
      hide CallJson, BindingExpressible;
      if items == [] {
        Raw("bindings", Arr([]));
        return true;
      }
      var calls := ReadBindings(items);
      if calls.None? {
        return false;
      }
      for i := 0 to |items|
        invariant doc == if i == 0 then old(doc) else old(doc)["bindings" := Arr(items[..i])]
      {
        assert items[..i + 1] == items[..i] + [items[i]];
        Bind(calls.value[i]);
      }
      assert items[..|items|] == items;
      return true;
    }

    method Extensions(e: Members)
      requires "extensions" !in doc
      modifies this
      ensures doc == if e == map[] then old(doc) else old(doc)["extensions" := Obj(e)]
    {
      var todo := e.Keys;
      assert Restrict(e, {}) == map[];
      while todo != {}
        invariant todo <= e.Keys
        invariant doc == if todo == e.Keys then old(doc) else old(doc)["extensions" := Obj(Restrict(e, e.Keys - todo))]
      {
        var k :| k in todo;
        assert Restrict(e, e.Keys - (todo - {k})) == Restrict(e, e.Keys - todo)[k := e[k]];
        Extension(k, e[k]);
        todo := todo - {k};
      }
      assert Restrict(e, e.Keys - todo) == e && (e.Keys == {} <==> e == map[]);
    }
  }

  lemma ActAllEmpty(actions: seq<Action>)
    ensures ActAll(actions) == map[] <==> actions == []
  {
    hide CompositionJson;
    if actions != [] {
      var written := Act(ActAll(actions[..|actions| - 1]), actions[|actions| - 1]);
      assert written.Keys != {} by {
        match actions[|actions| - 1]
        case SetMode(_) => assert "mode" in written;
        case SetComposition(_) => assert "composition" in written;
        case SetIdentityProvider(_) => assert "identity_provider" in written;
        case SetApproval(_, _) => assert "approval" in written;
        case SetPosture(_) => assert "posture" in written;
        case SetFailure(_) => assert "failure" in written;
        case SetTimeout(_, _) => assert "timeouts" in written;
        case SetMaxBuffered(_) => assert "records" in written;
      }
    }
  }

  lemma SurfaceActAllEmpty(actions: seq<SurfaceAction>)
    ensures SurfaceActAll(actions) == map[] <==> actions == []
  {
    hide KnobsJson;
    if actions != [] {
      var written := SurfaceAct(SurfaceActAll(actions[..|actions| - 1]), actions[|actions| - 1]);
      assert written.Keys != {} by {
        match actions[|actions| - 1]
        case SetBuffered(_, _) => assert "buffered_output" in written;
        case SetStrings(member, _) => assert member in written;
        case SetProfile(_, _) => assert "profiles" in written;
      }
    }
  }

  // ---- rebuilding a document -------------------------------------------------------------------

  /** Rebuilds a document through the setters, reading its members in any order. Whatever
      a typed block cannot express exactly is set raw. */
  method BuilderFromValue(doc: Members) returns (b: DeclarationBuilder)
    ensures fresh(b) && b.doc == Rebuilt(doc)
  {
    hide Rebuilt, WrittenConfiguration, WrittenSurface, WrittenHost;
    hide HostExpressible, ConfigurationExpressible, SurfaceExpressible, BindingsExpressible;
    b := new DeclarationBuilder();
    var todo := doc.Keys;
    RebuiltNone(doc);
    while todo != {}
      invariant fresh(b) && todo <= doc.Keys
      invariant b.doc == Rebuilt(Restrict(doc, doc.Keys - todo))
    {
      var k :| k in todo;
      var v := doc[k];
      RebuiltStep(doc, doc.Keys - todo, k);
      assert doc.Keys - (todo - {k}) == doc.Keys - todo + {k};
      todo := todo - {k};
      var typed := false;
      if (k == "declaration" || k == "spec" || k == "id") && v.Str? {
        b.Label(k, v.s);
        typed := true;
      } else if k == "host" && v.Obj? {
        typed := b.TypedHostBlock(v.members);
      } else if k == "configuration" && v.Obj? {
        typed := b.TypedConfigurationBlock(v.members);
      } else if k == "surface" && v.Obj? {
        typed := b.TypedSurfaceBlock(v.members);
      } else if k == "bindings" && v.Arr? {
        typed := b.TypedBindingsBlock(v.items);
      } else if k == "extensions" && v.Obj? {
        b.Extensions(v.members);
        typed := true;
      }
      if !typed {
        b.Raw(k, v);
      }
    }
    assert Restrict(doc, doc.Keys - todo) == doc;
  }

  lemma RebuiltNone(doc: Members)
    ensures Rebuilt(Restrict(doc, doc.Keys - doc.Keys)) == map[]
  {
    assert Restrict(doc, doc.Keys - doc.Keys) == map[];
  }

  // ---- the round trip ---------------------------------------------------------------------------

  /** A null knob set, or a null inside one. */
  predicate HasNullKnob(km: Members) {
    exists k | k in km :: km[k] == Null || (km[k].Arr? && Null in km[k].items)
  }

  /** What the setters cannot write back: an empty version, an empty object they are never
      called for, and nulls among the knobs of a profile. */
  predicate Lossy(k: string, v: Json) {
    v.Obj? && (
      if k == "host" then HostExpressible(v.members) && "version" in v.members && v.members["version"] == Str("")
      else if k == "configuration" then
        ConfigurationExpressible(v.members)
        && (v.members == map[] || exists kk | kk in v.members :: Vanishes(kk, v.members[kk]))
      else if k == "surface" then
        && SurfaceExpressible(v.members)
        && (|| v.members == map[]
            || ("profiles" in v.members
                && (v.members["profiles"] == Obj(map[])
                    || exists name | name in MembersOf(v.members["profiles"]) ::
                         HasNullKnob(MembersOf(MembersOf(v.members["profiles"])[name])))))
      else k == "extensions" && v.members == map[])
  }

  /** The builder holds the document itself exactly when no block is lossy. */
  lemma {:induction false} BuilderComesBackIff(doc: Members)
    ensures Rebuilt(doc) == doc <==> forall k | k in doc :: !Lossy(k, doc[k])
  {
    hide Dropped, WrittenMember, Lossy;
    forall k | k in doc
      ensures Lossy(k, doc[k]) <==> Dropped(k, doc[k]) || WrittenMember(k, doc[k]) != doc[k]
    {
      MemberIff(k, doc[k]);
    }
    if forall k | k in doc :: !Lossy(k, doc[k]) {
      assert Rebuilt(doc).Keys == doc.Keys;
    } else {
      var k :| k in doc && Lossy(k, doc[k]);
      assert k in Rebuilt(doc) ==> Rebuilt(doc)[k] != doc[k];
    }
  }

  lemma MemberIff(k: string, v: Json)
    ensures Lossy(k, v) <==> Dropped(k, v) || WrittenMember(k, v) != v
  {
    hide HostExpressible, ConfigurationExpressible, SurfaceExpressible;
    if v.Obj? {
      if k == "host" { HostIff(v.members); }
      else if k == "configuration" { ConfigurationIff(v.members); }
      else if k == "surface" && SurfaceExpressible(v.members) { SurfaceIff(v.members); }
    }
  }

  lemma HostIff(h: Members)
    ensures WrittenHost(h) == h <==> !("version" in h && h["version"] == Str(""))
  {
    if "version" in h && h["version"] == Str("") {
      assert "version" !in WrittenHost(h);
    } else {
      assert WrittenHost(h).Keys == h.Keys;
    }
  }

  lemma ConfigurationIff(c: Members)
    ensures WrittenConfiguration(c) == c <==> forall k | k in c :: !Vanishes(k, c[k])
  {
    hide Vanishes;
    if forall k | k in c :: !Vanishes(k, c[k]) {
      assert WrittenConfiguration(c).Keys == c.Keys;
    } else {
      var k :| k in c && Vanishes(k, c[k]);
      assert k !in WrittenConfiguration(c);
    }
  }

  lemma ValuesIff(v: Json)
    requires KnobValues(v) && v != Null
    ensures WrittenValues(v) == v <==> Null !in v.items
  {
    if Null in v.items {
      var i :| 0 <= i < |v.items| && v.items[i] == Null;
      assert WrittenValues(v).items[i] == Str("");
    } else {
      assert WrittenValues(v).items == v.items;
    }
  }

  lemma KnobsIff(km: Members)
    requires KnobsExpressible(Obj(km))
    ensures WrittenKnobs(km) == km <==> !HasNullKnob(km)
  {
    hide WrittenValues;
    forall k | k in km && km[k] != Null
      ensures WrittenValues(km[k]) == km[k] <==> Null !in km[k].items
    {
      ValuesIff(km[k]);
    }
    if HasNullKnob(km) {
      var k :| k in km && (km[k] == Null || (km[k].Arr? && Null in km[k].items));
      assert k in WrittenKnobs(km) ==> WrittenKnobs(km)[k] != km[k];
    } else {
      assert WrittenKnobs(km).Keys == km.Keys;
    }
  }

  lemma ProfilesIff(ps: Members)
    requires SurfaceMember("profiles", Obj(ps))
    ensures WrittenProfiles(ps) == ps <==> forall name | name in ps :: !HasNullKnob(MembersOf(ps[name]))
  {
    hide WrittenKnobs, HasNullKnob;
    forall name | name in ps
      ensures Obj(WrittenKnobs(MembersOf(ps[name]))) == ps[name] <==> !HasNullKnob(MembersOf(ps[name]))
    {
      KnobsIff(ps[name].members);
    }
    if forall name | name in ps :: !HasNullKnob(MembersOf(ps[name])) {
      assert WrittenProfiles(ps).Keys == ps.Keys;
    } else {
      var name :| name in ps && HasNullKnob(MembersOf(ps[name]));
      assert WrittenProfiles(ps)[name] != ps[name];
    }
  }

  lemma SurfaceIff(sf: Members)
    requires SurfaceExpressible(sf)
    ensures WrittenSurface(sf) == sf <==>
      ("profiles" in sf ==>
         (sf["profiles"] != Obj(map[]) && forall name | name in MembersOf(sf["profiles"]) :: !HasNullKnob(MembersOf(MembersOf(sf["profiles"])[name]))))
  {
    hide WrittenProfiles, HasNullKnob, KnobsExpressible;
    if "profiles" in sf {
      var ps := sf["profiles"].members;
      ProfilesIff(ps);
      if ps != map[] && WrittenProfiles(ps) == ps {
        assert WrittenSurface(sf).Keys == sf.Keys;
      } else {
        assert "profiles" in WrittenSurface(sf) ==> WrittenSurface(sf)["profiles"] != sf["profiles"];
      }
    } else {
      assert WrittenSurface(sf).Keys == sf.Keys;
    }
  }

  /** A loss made by the setters is not undone by reading the document back. */
  lemma LossStays(read: Reader, k: string, v: Json)
    requires !Dropped(k, v) && WrittenMember(k, v) != v && Readable(read, WrittenMember(k, v))
    ensures Reread(read, WrittenMember(k, v)) != v
  {
    hide HostExpressible, ConfigurationExpressible, SurfaceExpressible;
    if k == "host" {
      HostIff(v.members);
      assert "version" !in Reread(read, WrittenMember(k, v)).members;
    } else if k == "configuration" {
      ConfigurationIff(v.members);
      var kk :| kk in v.members && Vanishes(kk, v.members[kk]);
      assert kk !in Reread(read, WrittenMember(k, v)).members;
    } else {
      SurfaceLossStays(read, v.members);
    }
  }

  lemma SurfaceLossStays(read: Reader, sf: Members)
    requires SurfaceExpressible(sf) && WrittenSurface(sf) != sf && Readable(read, Obj(WrittenSurface(sf)))
    ensures Reread(read, Obj(WrittenSurface(sf))) != Obj(sf)
  {
    hide HasNullKnob, KnobsExpressible, WrittenProfiles, SurfaceExpressible;
    SurfaceIff(sf);
    var w := WrittenSurface(sf);
    var r := Reread(read, Obj(w)).members;
    if sf["profiles"] == Obj(map[]) {
      assert "profiles" !in r;
    } else {
      SurfaceMembersAre(sf);
      var ps := sf["profiles"].members;
      WrittenProfilesAre(ps);
      var name :| name in ps && HasNullKnob(MembersOf(ps[name]));
      assert w["profiles"] == Obj(WrittenProfiles(ps)) && Readable(read, w["profiles"]);
      assert r["profiles"] == Reread(read, Obj(WrittenProfiles(ps)));
      KnobLossStays(read, ps, name);
    }
  }

  lemma KnobLossStays(read: Reader, ps: Members, name: string)
    requires SurfaceMember("profiles", Obj(ps)) && name in ps && HasNullKnob(MembersOf(ps[name]))
    requires Readable(read, Obj(WrittenProfiles(ps)))
    ensures Reread(read, Obj(WrittenProfiles(ps))) != Obj(ps)
  {
    hide HasNullKnob, WrittenProfiles, WrittenKnobs, Readable, Reread;
    WrittenProfilesAre(ps);
    var wps := WrittenProfiles(ps);
    RereadMember(read, wps, name);
    assert wps[name] == Obj(WrittenKnobs(MembersOf(ps[name]))) by { WrittenProfilesAreObjects(ps); }
    NullKnobStaysLost(read, ps[name].members);
  }

  lemma WrittenProfilesAreObjects(ps: Members)
    ensures forall name | name in ps :: name in WrittenProfiles(ps) && WrittenProfiles(ps)[name] == Obj(WrittenKnobs(MembersOf(ps[name])))
  {
    hide WrittenKnobs;
  }

  lemma NullKnobStaysLost(read: Reader, km: Members)
    requires KnobsExpressible(Obj(km)) && HasNullKnob(km) && Readable(read, Obj(WrittenKnobs(km)))
    ensures Reread(read, Obj(WrittenKnobs(km))) != Obj(km)
  {
    var wk := WrittenKnobs(km);
    var k :| k in km && (km[k] == Null || (km[k].Arr? && Null in km[k].items));
    if k in wk {
      RereadMember(read, wk, k);
      var i :| 0 <= i < |km[k].items| && km[k].items[i] == Null;
      assert wk[k].items[i] == Str("");
      assert Reread(read, wk[k]).items[i] == Str("");
    } else {
      RereadKeys(read, wk);
    }
  }

  lemma RereadKeys(read: Reader, m: Members)
    requires Readable(read, Obj(m))
    ensures Reread(read, Obj(m)).members.Keys == m.Keys
  {
  }

  lemma MemberReadsBackIff(read: Reader, k: string, v: Json)
    ensures
      && !Dropped(k, v) && Readable(read, WrittenMember(k, v)) && Reread(read, WrittenMember(k, v)) == v
      <==> !Lossy(k, v) && Portable(read, v)
  {
    hide Dropped, WrittenMember, Lossy, Readable, Portable;
    MemberIff(k, v);
    RereadIff(read, v);
    if !Dropped(k, v) && WrittenMember(k, v) != v && Readable(read, WrittenMember(k, v)) {
      LossStays(read, k, v);
    }
  }

  /** The round trip as a host sees it: the document handed out by the builder after the
      rebuild is the original exactly when no block is lossy and every number is one the
      decoder reads back as it was. */
  lemma {:induction false} RoundTripIff(read: Reader, doc: Members)
    ensures RereadObject(read, Rebuilt(doc)) == Some(doc) <==>
      (forall k | k in doc :: !Lossy(k, doc[k])) && Portable(read, Obj(doc))
  {
    hide Dropped, WrittenMember, Lossy;
    forall k | k in doc
      ensures
        && !Dropped(k, doc[k]) && Readable(read, WrittenMember(k, doc[k])) && Reread(read, WrittenMember(k, doc[k])) == doc[k]
        <==> !Lossy(k, doc[k]) && Portable(read, doc[k])
    {
      MemberReadsBackIff(read, k, doc[k]);
    }
    var b := Rebuilt(doc);
    if RereadObject(read, b) == Some(doc) {
      RereadKeys(read, b);
      forall k | k in doc ensures !Lossy(k, doc[k]) && Portable(read, doc[k]) {
        assert k in b && b[k] == WrittenMember(k, doc[k]);
        RereadMember(read, b, k);
      }
    }
    if (forall k | k in doc :: !Lossy(k, doc[k])) && Portable(read, Obj(doc)) {
      assert b.Keys == doc.Keys;
      assert forall k | k in b :: Readable(read, b[k]) && Reread(read, b[k]) == doc[k];
      assert Readable(read, Obj(b));
      assert RereadObject(read, b).value == doc;
    }
  }

  /** With a decoder that holds numbers in 64-bit floating point, 2^53 + 1 does not come
      back, though no block of the document is lossy. */
  lemma LargeIntegerIsLost(read: Reader)
    requires read(Int(0x20_0000_0000_0001)) == Some(Int(0x20_0000_0000_0000))
    ensures
      var doc: Members := map["extensions" := Obj(map["n" := Int(0x20_0000_0000_0001)])];
      && Rebuilt(doc) == doc
      && RereadObject(read, Rebuilt(doc)) == Some(map["extensions" := Obj(map["n" := Int(0x20_0000_0000_0000)])])
  {
    var n := Int(0x20_0000_0000_0001);
    var e: Members := map["n" := n];
    assert "n" in e;
    var doc: Members := map["extensions" := Obj(e)];
    assert Rebuilt(doc) == doc;
    RereadOne(read, "n", n);
    assert Readable(read, Obj(e)) && Reread(read, Obj(e)) == Obj(map["n" := Int(0x20_0000_0000_0000)]);
    RereadOne(read, "extensions", Obj(e));
  }

  /** A second rebuild changes nothing more. */
  lemma {:induction false} RebuildSettles(doc: Members)
    ensures Rebuilt(Rebuilt(doc)) == Rebuilt(doc)
  {
    hide Lossy, WrittenMember, Dropped;
    forall k | k in Rebuilt(doc)
      ensures !Lossy(k, Rebuilt(doc)[k])
    {
      WrittenIsPlain(k, doc[k]);
    }
    BuilderComesBackIff(Rebuilt(doc));
  }

  lemma WrittenIsPlain(k: string, v: Json)
    requires !Dropped(k, v)
    ensures !Lossy(k, WrittenMember(k, v))
  {
    hide ConfigurationExpressible, SurfaceExpressible, HasNullKnob, WrittenProfiles;
    if k == "surface" && TypedSurface(v) && "profiles" in v.members && v.members["profiles"] != Obj(map[]) {
      var ps := v.members["profiles"];
      assert SurfaceMember("profiles", ps) by { SurfaceMembersAre(v.members); }
      forall name | name in ps.members
        ensures !HasNullKnob(WrittenKnobs(MembersOf(ps.members[name])))
      {
        WrittenKnobsHaveNoNull(ps.members[name]);
      }
      WrittenProfilesAre(ps.members);
    }
  }

  lemma SurfaceMembersAre(sf: Members)
    requires SurfaceExpressible(sf)
    ensures forall k | k in sf :: SurfaceMember(k, sf[k])
  {
  }

  lemma WrittenProfilesAre(ps: Members)
    ensures WrittenProfiles(ps).Keys == ps.Keys
    ensures forall name | name in ps :: MembersOf(WrittenProfiles(ps)[name]) == WrittenKnobs(MembersOf(ps[name]))
  {
  }

  lemma WrittenKnobsHaveNoNull(v: Json)
    requires KnobsExpressible(v)
    ensures !HasNullKnob(WrittenKnobs(MembersOf(v)))
  {
    var w := WrittenKnobs(MembersOf(v));
    forall k | k in w
      ensures w[k] != Null && !(w[k].Arr? && Null in w[k].items)
    {
      var items := w[k].items;
      assert forall i | 0 <= i < |items| :: items[i] != Null;
    }
  }

  /** A host block with an empty version does not come back. */
  lemma EmptyVersionIsLost()
    ensures var doc: Members := map["host" := Obj(map["name" := Str("h"), "version" := Str("")])];
      Rebuilt(doc) == map["host" := Obj(map["name" := Str("h")])]
  {
    var h: Members := map["name" := Str("h"), "version" := Str("")];
    HostIsWritten("host", Obj(h));
    assert WrittenHost(h) == map["name" := Str("h")];
  }

  /** A profile with a null knob does not come back. */
  lemma NullKnobIsLost()
    ensures var doc: Members := map["surface" := Obj(map["profiles" := Obj(map["strictest" := Obj(map["on_approval" := Null])])])];
      Rebuilt(doc) == map["surface" := Obj(map["profiles" := Obj(map["strictest" := Obj(map[])])])]
  {
    hide Rebuilt, WrittenSurface;
    var km: Members := map["on_approval" := Null];
    var ps: Members := map["strictest" := Obj(km)];
    assert WrittenKnobs(km) == map[];
    assert WrittenProfiles(ps) == map["strictest" := Obj(map[])];
    assert "strictest" in ps;
    OnlyProfiles(ps);
    SurfaceIsWritten("surface", Obj(map["profiles" := Obj(ps)]));
  }

  lemma OnlyProfiles(ps: Members)
    requires ps != map[]
    ensures map["profiles" := Obj(ps)] != map[]
    ensures map["profiles" := Obj(WrittenProfiles(ps))] != map[]
    ensures WrittenSurface(map["profiles" := Obj(ps)]) == map["profiles" := Obj(WrittenProfiles(ps))]
  {
    hide WrittenProfiles;
    var sf: Members := map["profiles" := Obj(ps)];
    var written: Members := map["profiles" := Obj(WrittenProfiles(ps))];
    assert "profiles" in sf && "profiles" in written;
  }

  lemma HostIsWritten(k: string, v: Json)
    requires k == "host" && TypedHost(v)
    ensures Rebuilt(map[k := v]) == map[k := Obj(WrittenHost(v.members))]
  {
    hide HostExpressible, WrittenHost;
  }

  lemma SurfaceIsWritten(k: string, v: Json)
    requires k == "surface" && TypedSurface(v) && WrittenSurface(v.members) != map[]
    ensures Rebuilt(map[k := v]) == map[k := Obj(WrittenSurface(v.members))]
  {
    hide SurfaceExpressible, WrittenSurface;
  }
}
