/** The parallel dispatch and the approval seam of the TypeScript emitter, which works on
    an explicit snapshot, lets an applied transform fall through to the seam, and reads any
    outcome but an approval as a rejection, and the slots they settle, compared with the Go
    emitter's. */
module SnapshotDispatch {
  import opened Json
  import opened Verdicts
  import opened Hosts
  import opened Slots
  import opened Unions
  import opened RunAll
  import opened Rereading
  import opened ApprovalOrder
  import Notices

  // ---- the seam ---------------------------------------------------------------------------

  function Judge(core: Core, spec: string, identity: Option<string>, r: Resolution): (c: Consultation)
    ensures c.Consulted?
  {
    match r
    case ResolverTimedOut => Consulted(HostError(APPROVAL_RESOLVER_FAILED, "timeout"), false)
    case ResolverRaised(t) => Consulted(HostError(APPROVAL_RESOLVER_FAILED, t), false)
    case Resolution(outcome, echo, verdict) =>
      if echo != identity then
        Consulted(HostError(APPROVAL_IDENTITY_MISMATCH, ""), false)
      else if verdict.None? || outcome == Unresolved then
        Consulted(HostError(APPROVAL_UNRESOLVED, ""), false)
      else
        var g := core.validateVerdict(spec, verdict.value);
        if !g.Ok? then
          Consulted(HostError(VERDICT_INVALID, CoreErrVerdict(g, VERDICT_INVALID).message), false)
        else if outcome == Approve then
          if Permits(g.value.decision) then Consulted(g.value, true)
          else Consulted(HostError(VERDICT_INVALID, "approve with a block verdict"), false)
        else if g.value.decision == Deny then Consulted(g.value, false)
        else Consulted(HostError(VERDICT_INVALID, "reject with a permit verdict"), false)
  }

  /** A failing custom provider is always an invalid context here. */
  function IdentityFailure(p: Provider, id: Fallible<Option<string>>): Verdict
    requires !id.Ok?
  {
    if p.CustomProvider? then HostError(CONTEXT_INVALID, "identity provider failed") else CoreErrVerdict(id, CONTEXT_INVALID)
  }

  function Consult(w: World, host: Host, i: nat, ctx: Members, v: Verdict): Seam {
    if !SeamOpen(host, ctx, v) then
      Seam(NotConsulted, ctx)
    else
      var p := Presentation(w, host, i, ctx);
      if p.result.RedactorPanicked? then
        Seam(Consulted(HostError(APPROVAL_RESOLVER_FAILED, p.result.typeName), false), p.leaves)
      else
        var id := IdentityOf(w, host.identity, Shown(p));
        if !id.Ok? then
          Seam(Consulted(IdentityFailure(host.identity, id), false), p.leaves)
        else
          var req := Request(id.value, PointOf(p.leaves), v, Shown(p));
          Seam(Judge(w.core, host.spec, id.value, w.resolve(i, req)),
               if ReachesLive(p) then w.resolverLeaves(i, req, p.leaves) else p.leaves)
  }

  /** The same up to the text of the message. */
  predicate SameVerdict(a: Verdict, b: Verdict) {
    a.(message := "") == b.(message := "")
  }

  predicate SameConsultation(a: Consultation, b: Consultation) {
    if a.Consulted? && b.Consulted? then SameVerdict(a.verdict, b.verdict) && a.permitted == b.permitted else a == b
  }

  /** An unknown outcome that echoes the identity and carries a verdict the gate accepts. */
  predicate UnknownOutcome(core: Core, spec: string, identity: Option<string>, r: Resolution) {
    r.Resolution? && r.identity == identity && r.outcome.OtherOutcome? && r.verdict.Some?
    && core.validateVerdict(spec, r.verdict.value).Ok?
  }

  lemma JudgementsAgreeIff(core: Core, spec: string, identity: Option<string>, r: Resolution)
    requires GateContract(core) && RefusesAsInvalid(core)
    ensures SameConsultation(Judge(core, spec, identity, r), Slots.Judge(core, spec, identity, r))
            <==> !UnknownOutcome(core, spec, identity, r)
    ensures UnknownOutcome(core, spec, identity, r) ==>
      && !Judge(core, spec, identity, r).permitted && !Slots.Judge(core, spec, identity, r).permitted
      && Judge(core, spec, identity, r).verdict.reason != Slots.Judge(core, spec, identity, r).verdict.reason
  {
    if r.Resolution? && r.identity == identity && r.verdict.Some? && r.outcome != Unresolved {
      GatedJudgement(core, spec, identity, r);
    } else {
      assert Judge(core, spec, identity, r) == Slots.Judge(core, spec, identity, r);
    }
  }

  lemma GatedJudgement(core: Core, spec: string, identity: Option<string>, r: Resolution)
    requires GateContract(core) && RefusesAsInvalid(core)
    requires r.Resolution? && r.identity == identity && r.verdict.Some? && r.outcome != Unresolved
    ensures SameConsultation(Judge(core, spec, identity, r), Slots.Judge(core, spec, identity, r))
            <==> !UnknownOutcome(core, spec, identity, r)
    ensures UnknownOutcome(core, spec, identity, r) ==>
      && !Judge(core, spec, identity, r).permitted && !Slots.Judge(core, spec, identity, r).permitted
      && Judge(core, spec, identity, r).verdict.reason != Slots.Judge(core, spec, identity, r).verdict.reason
  {
    ReasonsDiffer();
    var g := core.validateVerdict(spec, r.verdict.value);
    if g.Ok? { GatedReason(core, spec, r.verdict.value); }
    hide WellFormed, GateContract, RefusesAsInvalid;
    if g.Refused? {
      assert g.code == VERDICT_INVALID by { RefusedCode(core, spec, r.verdict.value); }
    }
    assert forall c: Consultation, d: Consultation :: c.Consulted? && d.Consulted? && c.verdict.reason != d.verdict.reason ==>
      !SameConsultation(c, d) by { ReasonsTell(); }
  }

  lemma RefusedCode(core: Core, spec: string, v: Verdict)
    requires RefusesAsInvalid(core) && core.validateVerdict(spec, v).Refused?
    ensures core.validateVerdict(spec, v).code == VERDICT_INVALID
  {
  }

  lemma ReasonsTell()
    ensures forall c: Consultation, d: Consultation :: c.Consulted? && d.Consulted? && c.verdict.reason != d.verdict.reason ==>
      !SameConsultation(c, d)
  {
    forall c: Consultation, d: Consultation | c.Consulted? && d.Consulted? && c.verdict.reason != d.verdict.reason
      ensures !SameConsultation(c, d)
    {
      assert c.verdict.(message := "").reason == c.verdict.reason && d.verdict.(message := "").reason == d.verdict.reason;
    }
  }

  lemma GatedReason(core: Core, spec: string, v: Verdict)
    requires GateContract(core) && core.validateVerdict(spec, v).Ok?
    ensures !(HOST_ERROR <= core.validateVerdict(spec, v).value.reason)
  {
  }

  lemma ReasonsDiffer()
    ensures HOST_ERROR <= APPROVAL_UNRESOLVED && APPROVAL_UNRESOLVED != VERDICT_INVALID
  {
    assert APPROVAL_UNRESOLVED[|HOST_ERROR|] == 'a' && VERDICT_INVALID[|HOST_ERROR|] == 'v';
  }

  /** The two seams part: a custom provider that fails with a code of its own, or an
      unknown outcome with a good verdict. */
  predicate SeamDiffers(w: World, host: Host, i: nat, ctx: Members, v: Verdict) {
    && SeamOpen(host, ctx, v)
    && var p := Presentation(w, host, i, ctx);
    && !p.result.RedactorPanicked?
    && var id := IdentityOf(w, host.identity, Shown(p));
    if id.Ok? then
      UnknownOutcome(w.core, host.spec, id.value, w.resolve(i, Request(id.value, PointOf(p.leaves), v, Shown(p))))
    else host.identity.CustomProvider? && id.Refused? && id.code != CONTEXT_INVALID
  }

  lemma SeamsAgreeIff(w: World, host: Host, i: nat, ctx: Members, v: Verdict)
    requires GateContract(w.core) && RefusesAsInvalid(w.core)
    ensures
      var a, b := Consult(w, host, i, ctx, v), Slots.Consult(w, host, i, ctx, v);
      && a.ctx == b.ctx
      && (SameConsultation(a.result, b.result) <==> !SeamDiffers(w, host, i, ctx, v))
      && (SeamDiffers(w, host, i, ctx, v) ==>
            && a.result.Consulted? && b.result.Consulted? && !a.result.permitted && !b.result.permitted
            && a.result.verdict.reason != b.result.verdict.reason)
  {
    if SeamOpen(host, ctx, v) {
      var p := Presentation(w, host, i, ctx);
      var id := IdentityOf(w, host.identity, Shown(p));
      if !p.result.RedactorPanicked? && id.Ok? {
        JudgementsAgreeIff(w.core, host.spec, id.value, w.resolve(i, Request(id.value, PointOf(p.leaves), v, Shown(p))));
      }
    }
    hide Judge, Slots.Judge, UnknownOutcome, GateContract, RefusesAsInvalid, SeamOpen, PointOf;
  }

  // ---- the dispatch --------------------------------------------------------------------------

  function Finish(
    w: World, host: Host, cfg: Composition, active: seq<Bound>, all: seq<Verdict>, substituted: seq<string>, ctx: Members): Done
  {
    var r := w.core.aggregate(host.spec, cfg, all);
    if !r.Ok? then
      Done(Outcome(CoreErrVerdict(r, CONTEXT_INVALID), None, [], None, None), ctx)
    else
      var agg := r.value;
      var sums := Named(agg.verdicts, active, substituted);
      var f := if agg.applyTransform then Fold(w.core, host.mode, ctx, agg.combined) else Folding(agg.combined, ctx);
      if agg.applyTransform && !Permits(f.verdict.decision) then
        Done(Outcome(f.verdict, None, sums, None, None), f.ctx)
      else if !agg.consult then
        Done(Outcome(f.verdict, agg.decidedBy, sums, None, None), f.ctx)
      else
        var seam := Consult(w, host, |active|, f.ctx, f.verdict);
        match seam.result
        case NotConsulted => Done(Outcome(f.verdict, agg.decidedBy, sums, None, None), seam.ctx)
        case Consulted(v, permitted) =>
          if permitted then
            var g := if v.decision == Transform then Fold(w.core, host.mode, seam.ctx, v) else Folding(v, seam.ctx);
            var combined := if Permits(g.verdict.decision) then WithUnions(g.verdict, all + [g.verdict]) else g.verdict;
            Done(Outcome(combined, agg.decidedBy, sums, None, Some(ByApproval)), g.ctx)
          else
            Done(Outcome(WithUnions(v, all), if IsHostSynthesized(v) then None else agg.decidedBy, sums, None, Some(ByRejection)), seam.ctx)
  }

  function Parallel(w: World, host: Host, cfg: Composition, active: seq<Bound>, ctx: Members): Done {
    var entries := Snapshots(w, host, active, ctx);
    Finish(w, host, cfg, active, Entered(entries), Substituted(entries), ctx)
  }

  predicate SameDone(a: Done, b: Done) {
    a.ctx == b.ctx && SameVerdict(a.outcome.combined, b.outcome.combined)
    && a.outcome.(combined := ALLOW) == b.outcome.(combined := ALLOW)
  }

  /** From the same slots both emitters end a parallel emission in the same outcome, up to
      message text, and the same context, if and only if the core aggregates and a
      consultation of the winner does not part the seams. Not even a core that asks for a
      transform and a consultation at once tells them apart, since an applied transform is
      not liftable; an aggregation error leaves the TypeScript summaries empty. */
  lemma AgreesIff(w: World, host: Host, cfg: Composition, active: seq<Bound>, ctx: Members)
    requires active != [] && GateContract(w.core) && RefusesAsInvalid(w.core)
    ensures
      var r := w.core.aggregate(host.spec, cfg, Entered(Snapshots(w, host, active, ctx)));
      SameDone(Parallel(w, host, cfg, active, ctx), RunAll.Parallel(w, host, cfg, active, ctx)) <==>
        r.Ok? && !(!r.value.applyTransform && r.value.consult && SeamDiffers(w, host, |active|, ctx, r.value.combined))
  {
    var entries := Snapshots(w, host, active, ctx);
    var all := Entered(entries);
    var r := w.core.aggregate(host.spec, cfg, all);
    var i := |active|;
    if !r.Ok? {
      assert |RunAll.Parallel(w, host, cfg, active, ctx).outcome.verdicts| == |active|;
    } else if r.value.applyTransform {
      var f := Fold(w.core, host.mode, ctx, r.value.combined);
      assert Permits(f.verdict.decision) ==> Consult(w, host, i, f.ctx, f.verdict) == Seam(NotConsulted, f.ctx);
      hide Consult, Fold, Snapshots, Named;
    } else if r.value.consult {
      ConsultedAgreeIff(w, host, cfg, active, all, Substituted(entries), ctx, r.value);
    }
    hide Consult, Slots.Consult, Fold, Snapshots, WithUnions, Named, SeamDiffers, GateContract, RefusesAsInvalid;
  }

  lemma ConsultedAgreeIff(
    w: World, host: Host, cfg: Composition, active: seq<Bound>, all: seq<Verdict>, substituted: seq<string>, ctx: Members,
    agg: Aggregate)
    requires GateContract(w.core) && RefusesAsInvalid(w.core)
    requires w.core.aggregate(host.spec, cfg, all) == Ok(agg) && !agg.applyTransform && agg.consult
    ensures
      SameDone(Finish(w, host, cfg, active, all, substituted, ctx), RunAll.Finish(w, host, cfg, active, all, substituted, ctx))
      <==> !SeamDiffers(w, host, |active|, ctx, agg.combined)
  {
    var i := |active|;
    SeamsAgreeIff(w, host, i, ctx, agg.combined);
    UnionsKeepText();
    var a, b := Consult(w, host, i, ctx, agg.combined), Slots.Consult(w, host, i, ctx, agg.combined);
    if a.result.Consulted? && b.result.Consulted? && SameVerdict(a.result.verdict, b.result.verdict) {
      UnionsSame(a.result.verdict, b.result.verdict, all);
      FoldsSame(w.core, host.mode, a.ctx, a.result.verdict, b.result.verdict);
      var f := if a.result.verdict.decision == Transform then Fold(w.core, host.mode, a.ctx, a.result.verdict).verdict else a.result.verdict;
      var g := if b.result.verdict.decision == Transform then Fold(w.core, host.mode, b.ctx, b.result.verdict).verdict else b.result.verdict;
      PoolsSame(f, g, all);
    }
    hide Consult, Slots.Consult, Fold, WithUnions, Named, SeamDiffers, GateContract, RefusesAsInvalid;
  }

  lemma UnionsKeepText()
    ensures forall v, pool :: WithUnions(v, pool).reason == v.reason
  {
  }

  lemma UnionsSame(a: Verdict, b: Verdict, pool: seq<Verdict>)
    requires SameVerdict(a, b)
    ensures SameVerdict(WithUnions(a, pool), WithUnions(b, pool)) && a.reason == b.reason
  {
    hide UnionWarnings, UnionLabels;
    assert a.reason == a.(message := "").reason && a.decision == a.(message := "").decision;
    assert a.warnings == a.(message := "").warnings && a.labels == a.(message := "").labels;
  }

  lemma FoldsSame(core: Core, mode: Mode, ctx: Members, a: Verdict, b: Verdict)
    requires SameVerdict(a, b)
    ensures Fold(core, mode, ctx, a).ctx == Fold(core, mode, ctx, b).ctx
    ensures SameVerdict(Fold(core, mode, ctx, a).verdict, Fold(core, mode, ctx, b).verdict)
    ensures a.decision == b.decision
  {
    assert a.transform == a.(message := "").transform && b.transform == b.(message := "").transform;
    assert a.decision == a.(message := "").decision && b.decision == b.(message := "").decision;
  }

  lemma PoolsSame(a: Verdict, b: Verdict, all: seq<Verdict>)
    requires SameVerdict(a, b)
    ensures SameVerdict(WithUnions(a, all + [a]), WithUnions(b, all + [b])) && a.decision == b.decision
  {
    assert a.warnings == a.(message := "").warnings && a.labels == a.(message := "").labels;
    assert a.decision == a.(message := "").decision && b.decision == b.(message := "").decision;
    assert (all + [a])[..|all|] == all == (all + [b])[..|all|];
    UnionsSame(a, b, all + [a]);
  }
}
