/** The surface a host reports, whose sets are printed in a fixed order. */
module Surfaces {
  import opened Json
  import opened Wire

  // ---- ordinal order ---------------------------------------------------------------------

  /** Ordinal comparison: by the first character that differs, a prefix first. */
  predicate Below(a: string, b: string) {
    b != [] && (a == [] || a[0] < b[0] || (a[0] == b[0] && Below(a[1..], b[1..])))
  }

  lemma {:induction false} BelowIsTotal(a: string, b: string)
    ensures a == b || Below(a, b) || Below(b, a)
  {
    if a != [] && b != [] && a[0] == b[0] {
      BelowIsTotal(a[1..], b[1..]);
      assert a == [a[0]] + a[1..] && b == [b[0]] + b[1..];
    }
  }

  lemma {:induction false} BelowIsTransitive(a: string, b: string, c: string)
    requires Below(a, b) && Below(b, c)
    ensures Below(a, c)
  {
    if a != [] && a[0] == b[0] == c[0] {
      BelowIsTransitive(a[1..], b[1..], c[1..]);
    }
  }

  lemma {:induction false} BelowIsStrict(a: string)
    ensures !Below(a, a)
  {
    if a != [] {
      BelowIsStrict(a[1..]);
    }
  }

  predicate Least(x: string, s: set<string>) {
    x in s && forall y | y in s :: y == x || Below(x, y)
  }

  lemma {:induction false} LeastExists(s: set<string>)
    requires s != {}
    ensures exists x :: Least(x, s)
  {
    var y :| y in s;
    if s == {y} {
      assert Least(y, s);
    } else {
      var rest := s - {y};
      assert rest + {y} == s;
      assert rest != {};
      LeastExists(rest);
      var x :| Least(x, rest);
      BelowIsTotal(x, y);
      if Below(y, x) {
        forall z | z in s
          ensures z == y || Below(y, z)
        {
          if z != y && z != x {
            BelowIsTransitive(y, x, z);
          }
        }
        assert Least(y, s);
      } else {
        assert Least(x, s);
      }
    }
  }

  /** The elements of a set in ordinal order. */
  ghost function Sorted(s: set<string>): (r: seq<string>)
    ensures forall x :: x in r <==> x in s
    decreases |s|
  {
    if s == {} then []
    else
      LeastExists(s);
      var x :| Least(x, s);
      [x] + Sorted(s - {x})
  }

  ghost predicate Ascending(r: seq<string>) {
    forall i, j | 0 <= i < j < |r| :: Below(r[i], r[j])
  }

  lemma {:induction false} SortedAscends(s: set<string>)
    ensures Ascending(Sorted(s))
    decreases |s|
  {
    if s != {} {
      var r := Sorted(s);
      SortedAscends(s - {r[0]});
      forall j | 0 < j < |r|
        ensures Below(r[0], r[j])
      {
        assert r[j] == Sorted(s - {r[0]})[j - 1];
        assert r[j] in Sorted(s - {r[0]});
      }
    }
  }

  /** A set has one printed form: any ascending list of its elements is the sorted one. */
  lemma {:induction false} OneSortedForm(s: set<string>, r: seq<string>)
    requires Ascending(r) && forall x :: x in r <==> x in s
    ensures r == Sorted(s)
    decreases |s|
  {
    if r == [] {
      assert s == {};
    } else {
      assert r[0] in s;
      var t := Sorted(s);
      SortedAscends(s);
      assert t[0] in s && exists i | 0 <= i < |r| :: r[i] == t[0];
      assert r[0] in t;
      assert r[0] == t[0] by {
        if r[0] != t[0] {
          assert Below(t[0], r[0]) && Below(r[0], t[0]);
          BelowIsTransitive(t[0], r[0], t[0]);
          BelowIsStrict(t[0]);
        }
      }
      forall x
        ensures x in r[1..] <==> x in s - {r[0]}
      {
        BelowIsStrict(r[0]);
      }
      OneSortedForm(s - {r[0]}, r[1..]);
      assert r == [r[0]] + r[1..];
    }
  }

  // ---- sets of names ---------------------------------------------------------------------------

  ghost function NamesJson(s: set<string>): Json {
    Arr(seq(|Sorted(s)|, i requires 0 <= i < |Sorted(s)| => Str(Sorted(s)[i])))
  }

  function AsName(v: Json): Option<string> {
    if v.Str? then Some(v.s) else None
  }

  /** Anything but a list reads as the empty set. */
  function NamesFrom(v: Json): Option<set<string>> {
    if !v.Arr? then Some({})
    else
      var names := Each(v.items, AsName);
      if names.Some? then Some(set x | x in names.value) else None
  }

  lemma NamesBack(s: set<string>)
    ensures NamesFrom(NamesJson(s)) == Some(s)
  {
    assert Each(NamesJson(s).items, AsName).value == Sorted(s);
    assert (set x | x in Sorted(s)) == s;
  }

  // ---- knobs -------------------------------------------------------------------------------------

  datatype KnobSupport = KnobSupport(onApproval: set<string>, onDisagreement: set<string>, onTransformConflict: set<string>)

  /** An empty set is not written. */
  ghost function PutNames(o: Members, key: string, s: set<string>): Members {
    if s == {} then o else o[key := NamesJson(s)]
  }

  ghost function KnobsToWire(k: KnobSupport): Members {
    PutNames(PutNames(PutNames(map[], "on_approval", k.onApproval),
      "on_disagreement", k.onDisagreement), "on_transform_conflict", k.onTransformConflict)
  }

  function KnobsFromWire(o: Members): Option<KnobSupport> {
    var a, d, t := NamesFrom(At(o, "on_approval")), NamesFrom(At(o, "on_disagreement")), NamesFrom(At(o, "on_transform_conflict"));
    if a.Some? && d.Some? && t.Some? then Some(KnobSupport(a.value, d.value, t.value)) else None
  }

  lemma KnobsRoundTrip(k: KnobSupport)
    ensures KnobsFromWire(KnobsToWire(k)) == Some(k)
  {
    hide NamesJson, NamesFrom;
    NamesBack(k.onApproval);
    NamesBack(k.onDisagreement);
    NamesBack(k.onTransformConflict);
    assert NamesFrom(Null) == Some({}) by { NoNames(); }
  }

  lemma NoNames()
    ensures NamesFrom(Null) == Some({})
  {
  }

  // ---- surface -----------------------------------------------------------------------------------

  datatype Posture = Continue | Terminate

  datatype HostSurface = HostSurface(
    points: set<Point>,
    capabilities: set<string>,
    profiles: map<Profile, KnobSupport>,
    posture: Posture,
    streamsUnbuffered: bool,
    exposureBound: Text,
    declarationVersions: set<string>)

  function PostureJson(p: Posture): Json {
    Str(if p == Terminate then "terminate" else "continue")
  }

  function PostureFrom(v: Json): Option<Posture> {
    if v == Null || v == Str("continue") then Some(Continue)
    else if v == Str("terminate") then Some(Terminate)
    else None
  }

  function Flag(v: Json): Option<bool> {
    match v
    case Null => Some(false)
    case Bool(b) => Some(b)
    case _ => None
  }

  /** The points of `among` that are in the set, in the order of the enumeration. */
  function Pick(s: set<Point>, among: seq<Point>): (r: seq<Point>)
    ensures forall p :: p in r <==> p in s && p in among
  {
    if among == [] then []
    else if among[0] in s then [among[0]] + Pick(s, among[1..])
    else Pick(s, among[1..])
  }

  function PointsJson(s: set<Point>): Json {
    var r := Pick(s, POINTS);
    Arr(seq(|r|, i requires 0 <= i < |r| => Str(PointName(r[i]))))
  }

  /** The points are required; anything but a list of point names throws. */
  function PointsFrom(v: Json): Option<set<Point>> {
    if !v.Arr? then None
    else
      var points := Each(v.items, PointFrom);
      if points.Some? then Some(set p | p in points.value) else None
  }

  lemma PointsBack(s: set<Point>)
    ensures PointsFrom(PointsJson(s)) == Some(s)
  {
    hide PointName, PointFrom;
    var r := Pick(s, POINTS);
    var items := PointsJson(s).items;
    forall i | 0 <= i < |items|
      ensures PointFrom(items[i]) == Some(r[i])
    {
      PointBack(r[i]);
    }
    assert Each(items, PointFrom).value == r;
    forall p: Point
      ensures p in POINTS
    {
      AllPoints(p);
    }
    assert (set p | p in r) == s;
  }

  lemma AllPoints(p: Point)
    ensures p in POINTS
  {
    assert POINTS[0] == AgentStartup && POINTS[1] == Input && POINTS[2] == PreModelCall && POINTS[3] == PostModelCall;
    assert POINTS[4] == PreToolCall && POINTS[5] == PostToolCall && POINTS[6] == Output && POINTS[7] == AgentShutdown;
  }

  lemma NamesDiffer()
    ensures forall p, q :: ProfileName(p) == ProfileName(q) ==> p == q
  {
    forall p, q | ProfileName(p) == ProfileName(q)
      ensures p == q
    {
      ProfileBack(p);
      ProfileBack(q);
    }
  }

  ghost function ProfilesJson(ps: map<Profile, KnobSupport>): Json {
    NamesDiffer();
    Obj(map p | p in ps :: ProfileName(p) := Obj(KnobsToWire(ps[p])))
  }

  function KnobsFrom(v: Json): Option<KnobSupport> {
    if v.Obj? then KnobsFromWire(v.members) else None
  }

  /** No profiles member, or one that is not an object, reads as none; an unknown profile throws. */
  function ProfilesFrom(v: Json): Option<map<Profile, KnobSupport>> {
    if !v.Obj? then Some(map[])
    else if forall name | name in v.members :: ProfileFrom(Str(name)).Some? && KnobsFrom(v.members[name]).Some?
    then Some(map p: Profile | ProfileName(p) in v.members :: KnobsFrom(v.members[ProfileName(p)]).value)
    else None
  }

  lemma ProfilesBack(ps: map<Profile, KnobSupport>)
    ensures ProfilesFrom(ProfilesJson(ps)) == Some(ps)
  {
    hide ProfileName, ProfileFrom, KnobsToWire, KnobsFromWire;
    NamesDiffer();
    var o := ProfilesJson(ps).members;
    forall p | p in ps
      ensures ProfileName(p) in o && KnobsFrom(o[ProfileName(p)]) == Some(ps[p])
      ensures ProfileFrom(Str(ProfileName(p))) == Some(p)
    {
      ProfileBack(p);
      KnobsRoundTrip(ps[p]);
    }
    assert ProfilesFrom(ProfilesJson(ps)).value == ps;
  }

  /** The timeout member is a fact of the SDK and is not read back. */
  ghost function SurfaceToWire(s: HostSurface): Members {
    var o: Members := map[
      "interception_points" := PointsJson(s.points),
      "capabilities" := NamesJson(s.capabilities),
      "profiles" := ProfilesJson(s.profiles),
      "tool_seam_host_error" := PostureJson(s.posture),
      "streams_unbuffered" := Bool(s.streamsUnbuffered)];
    var o := PutText(o, "exposure_bound", s.exposureBound);
    var o := o["interceptor_timeout" := Str("bounded")];
    o["declaration_versions" := NamesJson(s.declarationVersions)]
  }

  function SurfaceFromWire(o: Members): Option<HostSurface> {
    var profiles := ProfilesFrom(At(o, "profiles"));
    var points := PointsFrom(At(o, "interception_points"));
    var capabilities := NamesFrom(At(o, "capabilities"));
    var posture := PostureFrom(At(o, "tool_seam_host_error"));
    var streams := Flag(At(o, "streams_unbuffered"));
    var bound := AsText(At(o, "exposure_bound"));
    var versions := NamesFrom(At(o, "declaration_versions"));
    if profiles.Some? && points.Some? && capabilities.Some? && posture.Some? && streams.Some? && bound.Some? && versions.Some?
    then Some(HostSurface(points.value, capabilities.value, profiles.value, posture.value, streams.value,
                          bound.value, versions.value))
    else None
  }

  lemma SurfaceMembers(s: HostSurface)
    ensures var o := SurfaceToWire(s);
      && At(o, "interception_points") == PointsJson(s.points)
      && At(o, "capabilities") == NamesJson(s.capabilities)
      && At(o, "profiles") == ProfilesJson(s.profiles)
      && At(o, "tool_seam_host_error") == PostureJson(s.posture)
      && At(o, "streams_unbuffered") == Bool(s.streamsUnbuffered)
      && At(o, "exposure_bound") == TextJson(s.exposureBound)
      && At(o, "declaration_versions") == NamesJson(s.declarationVersions)
  {
    hide PointsJson, NamesJson, ProfilesJson, PostureJson;
  }

  /** A surface comes back whole from its wire form. */
  lemma {:induction false} SurfaceRoundTrip(s: HostSurface)
    ensures SurfaceFromWire(SurfaceToWire(s)) == Some(s)
  {
    hide SurfaceToWire, PointsJson, PointsFrom, NamesJson, NamesFrom, ProfilesJson, ProfilesFrom;
    SurfaceMembers(s);
    PointsBack(s.points);
    NamesBack(s.capabilities);
    NamesBack(s.declarationVersions);
    ProfilesBack(s.profiles);
  }
}
