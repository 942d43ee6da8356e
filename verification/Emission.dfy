/** One whole emission: envelope, identity, dispatch by profile. */
module Emission {
  import opened Json
  import opened Verdicts
  import opened Hosts
  import opened Slots
  import opened FirstDeny
  import opened FirstDenyLaws
  import FirstDenyContext
  import opened RunAll
  import RunAllLaws

  /** The registrations bound at a point, in registration order. */
  function Active(bound: seq<Bound>, point: string): seq<Bound> {
    if bound == [] then []
    else
      var front := Active(bound[..|bound| - 1], point);
      var last := bound[|bound| - 1];
      if RunsAt(last, point) then front + [last] else front
  }

  function KnobOf(cfg: Composition): Knob {
    if cfg.onApproval == Some(Resume) then Resume else Stop
  }

  const REGISTER_ALLOW_ALL := "register an explicit allow-all interceptor for a deliberate passthrough"
  const OTHER_VERSION := "$.spec: the context names another version"

  function HostFailed(reason: string, message: string): Outcome {
    Outcome(HostError(reason, message), None, [], None, None)
  }

  function Dispatch(w: World, host: Host, cfg: Composition, active: seq<Bound>, ctx: Members): Done {
    if active == [] then
      Done(HostFailed(NO_INTERCEPTOR, REGISTER_ALLOW_ALL), ctx)
    else
      match cfg.profile
      case SequentialFirstDeny =>
        Done(FirstDeny.Run(w, host, KnobOf(cfg), active, ctx),
             FinalCtx(Steps(w, host, KnobOf(cfg), active, 0, ctx), ctx))
      case SequentialRunAll => Sequential(w, host, cfg, active, ctx)
      case _ => Parallel(w, host, cfg, active, ctx)
  }

  /** What is decided about a context before the record is made. */
  datatype Decided = Decided(inputIdentity: Option<string>, done: Done)

  function Decide(w: World, host: Host, cfg: Composition, bound: seq<Bound>, ctx: Members): Decided {
    var envelope := w.core.validateEnvelope(ctx);
    if !envelope.Ok? then
      Decided(None, Done(Outcome(CoreErrVerdict(envelope, CONTEXT_INVALID), None, [], None, None), ctx))
    else if StringMember(ctx, "spec") != host.spec then
      Decided(None, Done(HostFailed(CONTEXT_INVALID, OTHER_VERSION), ctx))
    else
      var id := IdentityOf(w, host.identity, ctx);
      if !id.Ok? then
        Decided(None, Done(Outcome(CoreErrVerdict(id, CONTEXT_INVALID), None, [], None, None), ctx))
      else
        Decided(id.value, Dispatch(w, host, cfg, Active(bound, PointOf(ctx)), ctx))
  }

  /** What an action had to pass, over the registrations bound at the point. Under
      `sequential/first_deny` every slot that ran is cleared, and all ran unless `stop` ended
      the emission at a deny an approval lifted. In the other profiles all ran, no transform
      failed in the fold, and what they returned aggregates to a winner that carries the
      action: by its own transform, by an approval of it, or as the permit it is. */
  ghost predicate Passed(w: World, host: Host, cfg: Composition, active: seq<Bound>, before: Members, after: Members) {
    match cfg.profile
    case SequentialFirstDeny =>
      var steps := Steps(w, host, KnobOf(cfg), active, 0, before);
      && (forall k | 0 <= k < |steps| :: Cleared(w, host, k, active[k], steps[k].before, steps[k].after))
      && (|steps| == |active| || (cfg.onApproval != Some(Resume) && steps != [] && IsLiftable(steps[|steps| - 1].slot.verdict)))
      && after == FinalCtx(steps, before)
    case SequentialRunAll =>
      var entries := Entries(w, host, active, 0, before);
      var r := w.core.aggregate(host.spec, cfg, Entered(entries));
      && |entries| == |active|
      && (forall k | 0 <= k < |entries| :: !BreaksFold(entries[k]))
      && r.Ok? && RunAllLaws.Carried(w, host, |active|, r.value, EndCtx(entries, before), after)
    case _ =>
      var r := w.core.aggregate(host.spec, cfg, Entered(Snapshots(w, host, active, before)));
      r.Ok? && RunAllLaws.Carried(w, host, |active|, r.value, before, after)
  }

  /** Every profile fails closed, whatever the core aggregates: dispatch permits exactly
      when there is a registration and the action passed. */
  lemma DispatchPermitsIff(w: World, host: Host, cfg: Composition, active: seq<Bound>, ctx: Members)
    requires GateContract(w.core)
    ensures
      var done := Dispatch(w, host, cfg, active, ctx);
      Permits(done.outcome.combined.decision) <==> active != [] && Passed(w, host, cfg, active, ctx, done.ctx)
  {
    hide FirstDeny.Run, Sequential, Parallel, Passed, GateContract;
    if active != [] {
      match cfg.profile
      case SequentialFirstDeny => FirstDenyPasses(w, host, cfg, active, ctx);
      case SequentialRunAll => RunAllPasses(w, host, cfg, active, ctx);
      case _ => ParallelPasses(w, host, cfg, active, ctx);
    }
  }

  lemma FirstDenyPasses(w: World, host: Host, cfg: Composition, active: seq<Bound>, ctx: Members)
    requires GateContract(w.core) && cfg.profile == SequentialFirstDeny && active != []
    ensures
      Permits(FirstDeny.Run(w, host, KnobOf(cfg), active, ctx).combined.decision) <==>
        Passed(w, host, cfg, active, ctx, FinalCtx(Steps(w, host, KnobOf(cfg), active, 0, ctx), ctx))
  {
    hide FirstDeny.Run, Cleared, IsLiftable, GateContract, StepAt;
    PermitIffEverySlotCleared(w, host, KnobOf(cfg), active, ctx);
  }

  lemma RunAllPasses(w: World, host: Host, cfg: Composition, active: seq<Bound>, ctx: Members)
    requires GateContract(w.core) && cfg.profile == SequentialRunAll
    ensures
      var done := Sequential(w, host, cfg, active, ctx);
      Permits(done.outcome.combined.decision) <==> Passed(w, host, cfg, active, ctx, done.ctx)
  {
    hide Sequential, Entries, EndCtx, RunAllLaws.Carried, GateContract;
    RunAllLaws.RunAllPermitsIff(w, host, cfg, active, ctx);
  }

  lemma ParallelPasses(w: World, host: Host, cfg: Composition, active: seq<Bound>, ctx: Members)
    requires GateContract(w.core) && cfg.profile in {ParallelStrictest, ParallelUnanimous}
    ensures
      var done := Parallel(w, host, cfg, active, ctx);
      Permits(done.outcome.combined.decision) <==> Passed(w, host, cfg, active, ctx, done.ctx)
  {
    hide Parallel, Snapshots, RunAllLaws.Carried, GateContract;
    RunAllLaws.ParallelPermitsIff(w, host, cfg, active, ctx);
  }

  /** The whole emission fails closed, in every profile: it permits exactly when the
      envelope is valid and names the emitter's specification version, an identity can be
      computed, a registration is bound at the point, and the action passed. */
  lemma EmissionPermitsIff(w: World, host: Host, cfg: Composition, bound: seq<Bound>, ctx: Members)
    requires GateContract(w.core)
    ensures
      var active := Active(bound, PointOf(ctx));
      var done := Decide(w, host, cfg, bound, ctx).done;
      Permits(done.outcome.combined.decision) <==>
        && w.core.validateEnvelope(ctx).Ok?
        && StringMember(ctx, "spec") == host.spec
        && IdentityOf(w, host.identity, ctx).Ok?
        && active != []
        && Passed(w, host, cfg, active, ctx, done.ctx)
  {
    hide Dispatch, Passed, Active;
    DispatchPermitsIff(w, host, cfg, Active(bound, PointOf(ctx)), ctx);
  }

  lemma DispatchIsInert(w: World, host: Host, cfg: Composition, active: seq<Bound>, ctx: Members)
    requires GateContract(w.core) && host.mode == EvaluateOnly
    ensures
      var d := Dispatch(w, host, cfg, active, ctx);
      d.ctx == ctx && d.outcome.resolvedBy == None
  {
    hide FirstDeny.Run, Sequential, Parallel;
    if active != [] {
      match cfg.profile
      case SequentialFirstDeny => FirstDenyContext.EvaluateOnlyIsInert(w, host, KnobOf(cfg), active, ctx);
      case SequentialRunAll => RunAllLaws.SequentialIsInert(w, host, cfg, active, ctx);
      case _ => RunAllLaws.ParallelIsInert(w, host, cfg, active, ctx);
    }
  }

  /** In evaluate_only no profile changes the context or resolves an approval. */
  lemma EvaluateOnlyChangesNothing(w: World, host: Host, cfg: Composition, bound: seq<Bound>, ctx: Members)
    requires GateContract(w.core) && host.mode == EvaluateOnly
    ensures
      var d := Decide(w, host, cfg, bound, ctx).done;
      d.ctx == ctx && d.outcome.resolvedBy == None
  {
    DispatchIsInert(w, host, cfg, Active(bound, PointOf(ctx)), ctx);
    hide Dispatch, Active;
  }

  /** What the record of a decided emission is made from; `after` is the context the
      emission left. */
  function Finalized(w: World, host: Host, cfg: Composition, bound: seq<Bound>, declaration: Option<string>, d: Decided): Finalization {
    var after := d.done.ctx;
    var enforced :=
      if host.identity.CustomProvider? && w.customIdentity(after).Ok? then Some(w.customIdentity(after).value) else None;
    Finalization(d.inputIdentity, enforced, ProviderName(host.identity), d.done.outcome, cfg, |Active(bound, PointOf(after))|, declaration)
  }

  /** The record of an emission, or the core's error when it cannot make one. */
  function RecordOf(w: World, host: Host, cfg: Composition, bound: seq<Bound>, declaration: Option<string>, ctx: Members): Fallible<Record> {
    var d := Decide(w, host, cfg, bound, ctx);
    w.core.finalize(d.done.ctx, d.done.outcome.combined, host.mode, Finalized(w, host, cfg, bound, declaration, d))
  }

  /** End to end: under enforcement the record lets the action proceed only after a
      valid envelope naming the emitter's specification version, an identity, and an action
      that passed the registrations bound at the point, in every profile. */
  lemma ProceedsOnlyIfPassed(
    w: World, host: Host, cfg: Composition, bound: seq<Bound>, declaration: Option<string>, ctx: Members)
    requires GateContract(w.core) && RecordContract(w.core) && host.mode == Enforce
    ensures
      var r := RecordOf(w, host, cfg, bound, declaration, ctx);
      var active := Active(bound, PointOf(ctx));
      r.Ok? && Proceeds(r.value) ==>
        && w.core.validateEnvelope(ctx).Ok?
        && StringMember(ctx, "spec") == host.spec
        && IdentityOf(w, host.identity, ctx).Ok?
        && active != []
        && Passed(w, host, cfg, active, ctx, Decide(w, host, cfg, bound, ctx).done.ctx)
  {
    EmissionPermitsIff(w, host, cfg, bound, ctx);
    hide Decide, Finalized, Active, Passed;
  }
}
