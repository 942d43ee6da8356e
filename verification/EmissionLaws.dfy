/** What an emission owes its configuration and its record, read off the configuration and
    the record themselves. */
module EmissionLaws {
  import opened Json
  import opened Verdicts
  import opened Hosts
  import opened Slots
  import opened SeamLaws
  import opened FirstDeny
  import opened FirstDenyLaws
  import opened RunAll
  import opened Emission

  // ---- the knob ---------------------------------------------------------------------------

  /** Slot `k` ran on what slot `k - 1` left. */
  ghost predicate IsTrace(w: World, host: Host, active: seq<Bound>, ctx: Members, steps: seq<Step>) {
    && |steps| <= |active|
    && forall k | 0 <= k < |steps| :: TraceAt(w, host, active, ctx, steps, k)
  }

  ghost predicate TraceAt(w: World, host: Host, active: seq<Bound>, ctx: Members, steps: seq<Step>, k: nat)
    requires k < |steps| <= |active|
  {
    && steps[k].before == (if k == 0 then ctx else steps[k - 1].after)
    && steps[k] == StepAt(w, host, k, active[k], steps[k].before)
  }

  predicate GoesOn(k: Kind) {
    k.Passed? || k.Folded? || k.LiftedBy?
  }

  /** The outcome is the resolution that lifted slot `k`, with the unions around it. */
  predicate IsResolution(out: Outcome, resolution: Verdict, k: nat, registered: nat) {
    && out.combined.(warnings := [], labels := []) == resolution.(warnings := [], labels := [])
    && out.decidedBy == Some(k)
    && out.foldTruncated == Some(k + 1 < registered)
    && out.resolvedBy == Some(ByApproval)
  }

  /** What `on_approval` asks for: under `resume` the next registration runs after every
      permitted resolution; otherwise nothing runs after one, and it is the outcome. */
  ghost predicate KnobObeyed(w: World, host: Host, cfg: Composition, active: seq<Bound>, ctx: Members, done: Done, steps: seq<Step>) {
    && IsTrace(w, host, active, ctx, steps)
    && |done.outcome.verdicts| == |steps| && done.ctx == FinalCtx(steps, ctx)
    && (forall k | 0 <= k < |steps| - 1 :: GoesOn(steps[k].kind))
    && (|steps| < |active| ==> steps != [] && !steps[|steps| - 1].kind.Passed? && !steps[|steps| - 1].kind.Folded?)
    && forall k | 0 <= k < |steps| && steps[k].kind.LiftedBy? ::
         if cfg.onApproval == Some(Resume) then k + 1 == |active| || k + 1 < |steps|
         else k == |steps| - 1 && IsResolution(done.outcome, steps[k].kind.resolution, k, |active|)
  }

  lemma KnobLaw(w: World, host: Host, cfg: Composition, active: seq<Bound>, ctx: Members)
    requires cfg.profile == SequentialFirstDeny && active != []
    ensures exists steps :: KnobObeyed(w, host, cfg, active, ctx, Emission.Dispatch(w, host, cfg, active, ctx), steps)
  {
    hide KnobObeyed, FirstDeny.Run, Steps, FinalCtx;
    var knob := if cfg.onApproval == Some(Resume) then Resume else Stop;
    var steps := Steps(w, host, knob, active, 0, ctx);
    RunObeys(w, host, cfg, active, ctx);
    assert KnobObeyed(w, host, cfg, active, ctx, Emission.Dispatch(w, host, cfg, active, ctx), steps);
  }

  lemma RunObeys(w: World, host: Host, cfg: Composition, active: seq<Bound>, ctx: Members)
    requires active != []
    ensures
      var knob := if cfg.onApproval == Some(Resume) then Resume else Stop;
      var steps := Steps(w, host, knob, active, 0, ctx);
      KnobObeyed(w, host, cfg, active, ctx, Done(FirstDeny.Run(w, host, knob, active, ctx), FinalCtx(steps, ctx)), steps)
  {
    hide StepAt, OutcomeOf, Steps, IsResolution, TraceAt, Summaries;
    var knob := if cfg.onApproval == Some(Resume) then Resume else Stop;
    var steps := Steps(w, host, knob, active, 0, ctx);
    StepsIsRun(w, host, knob, active, ctx);
    forall k | 0 <= k < |steps|
      ensures TraceAt(w, host, active, ctx, steps, k) && (k < |steps| - 1 ==> !Ends(knob, steps[k].kind))
    {
      assert Ran(w, host, knob, active, ctx, steps, k);
      RanIsTrace(w, host, knob, active, ctx, steps, k);
    }
    SummariesLength(steps, active);
    OutcomeSummaries(steps, knob, active);
    if knob == Stop && steps[|steps| - 1].kind.LiftedBy? {
      StoppedAtLift(steps, active);
    }
    hide Ran;
  }

  lemma {:induction false} RanIsTrace(w: World, host: Host, knob: Knob, active: seq<Bound>, ctx: Members, steps: seq<Step>, k: nat)
    requires k < |steps| <= |active| && Ran(w, host, knob, active, ctx, steps, k)
    ensures TraceAt(w, host, active, ctx, steps, k)
  {
    hide StepAt;
  }

  lemma {:induction false} OutcomeSummaries(steps: seq<Step>, knob: Knob, active: seq<Bound>)
    requires |steps| <= |active|
    ensures OutcomeOf(steps, knob, active).verdicts == Summaries(steps, active)
  {
    hide Summaries, FirstDeny.Decide, LastConsultation;
  }

  lemma {:induction false} SummariesLength(steps: seq<Step>, active: seq<Bound>)
    requires |steps| <= |active|
    ensures |Summaries(steps, active)| == |steps|
  {
  }

  lemma {:induction false} StoppedAtLift(steps: seq<Step>, active: seq<Bound>)
    requires steps != [] && |steps| <= |active| && steps[|steps| - 1].kind.LiftedBy?
    ensures IsResolution(OutcomeOf(steps, Stop, active), steps[|steps| - 1].kind.resolution, |steps| - 1, |active|)
  {
    hide Pool, Summaries;
  }

  // ---- registrations at a point -------------------------------------------------------------

  /** A registration answers at a point that is not one of the eight, or that it names, or
      when it names none. */
  predicate Answers(b: Bound, point: string) {
    match b.at
    case None => true
    case Some(points) =>
      point in points
      || !(point in {"agent_startup", "input", "pre_model_call", "post_model_call",
                     "pre_tool_call", "post_tool_call", "output", "agent_shutdown"})
  }

  /** The positions of the registrations that answer at a point. */
  function Positions(bound: seq<Bound>, point: string): seq<nat> {
    if bound == [] then []
    else
      var n := |bound| - 1;
      Positions(bound[..n], point) + if Answers(bound[n], point) then [n] else []
  }

  /** The active registrations are those that answer at the point, each once and in order. */
  lemma {:induction false} ActiveIs(bound: seq<Bound>, point: string)
    ensures
      var at := Positions(bound, point);
      && |Active(bound, point)| == |at|
      && (forall i | 0 <= i < |at| :: at[i] < |bound| && Active(bound, point)[i] == bound[at[i]])
      && (forall i, j | 0 <= i < j < |at| :: at[i] < at[j])
      && (forall k: nat | k < |bound| :: k in at <==> Answers(bound[k], point))
  {
    if bound != [] {
      var n := |bound| - 1;
      var front := bound[..n];
      ActiveIs(front, point);
      var at := Positions(front, point);
      assert forall k | 0 <= k < n :: front[k] == bound[k];
      assert RunsAt(bound[n], point) <==> Answers(bound[n], point) by { RunsIffAnswers(bound[n], point); }
      hide Answers, RunsAt;
      assert forall i | 0 <= i < |at| :: at[i] in at;
    }
  }

  lemma RunsIffAnswers(b: Bound, point: string)
    ensures RunsAt(b, point) <==> Answers(b, point)
  {
    PointsAre();
  }

  // ---- the record ---------------------------------------------------------------------------

  /** The told contract: the record carries what the core is told, and the core computes the
      enforced identity itself when it is told none and the default provider is declared. */
  ghost predicate ToldContract(core: Core) {
    forall ctx, v, mode, f ::
      var r := core.finalize(ctx, v, mode, f);
      r.Ok? ==>
        && r.value.inputIdentity == f.inputIdentity
        && r.value.identityProvider == f.identityProvider
        && r.value.registered == f.registered && r.value.declaration == f.declaration && r.value.composition == f.composition
        && r.value.decidedBy == f.outcome.decidedBy && r.value.verdicts == f.outcome.verdicts
        && r.value.foldTruncated == f.outcome.foldTruncated && r.value.resolvedBy == f.outcome.resolvedBy
        && r.value.enforcedIdentity ==
           if f.enforcedIdentity.Some? then f.enforcedIdentity
           else if f.identityProvider == Some("jcs-sha256") && core.contextIdentity(ctx).Ok? then Some(core.contextIdentity(ctx).value)
           else None
  }

  /** What a record says of the emission that went from `before` to `after`: the identity of
      what was evaluated, computed before anything could change it, and absent when the
      envelope, the version or the identity failed; the identity of what was enforced; and
      the configuration in effect. */
  predicate Tells(
    w: World, host: Host, cfg: Composition, bound: seq<Bound>, declaration: Option<string>, before: Members, after: Members, r: Record)
  {
    && (if w.core.validateEnvelope(before).Ok? && StringMember(before, "spec") == host.spec && Identifiable(w, host.identity, before)
        then Gives(w, host.identity, before, r.inputIdentity) else r.inputIdentity == None)
    && (match host.identity
        case NullProvider => r.enforcedIdentity == None && r.identityProvider == None
        case JcsProvider =>
          && r.identityProvider == Some("jcs-sha256")
          && r.enforcedIdentity == if w.core.contextIdentity(after).Ok? then Some(w.core.contextIdentity(after).value) else None
        case CustomProvider(name) =>
          && r.identityProvider == Some(name)
          && if w.customIdentity(after).Ok? then r.enforcedIdentity == Some(w.customIdentity(after).value)
             else name != "jcs-sha256" ==> r.enforcedIdentity == None)
    && r.registered == |Positions(bound, PointOf(after))|
    && r.composition == cfg && r.declaration == declaration
  }

  /** The record of an emission says so, and carries the outcome of its dispatch. */
  lemma RecordTells(w: World, host: Host, cfg: Composition, bound: seq<Bound>, declaration: Option<string>, ctx: Members)
    requires ToldContract(w.core)
    ensures
      var r := RecordOf(w, host, cfg, bound, declaration, ctx);
      var done := Emission.Decide(w, host, cfg, bound, ctx).done;
      r.Ok? ==>
        && Tells(w, host, cfg, bound, declaration, ctx, done.ctx, r.value)
        && r.value.decidedBy == done.outcome.decidedBy && r.value.verdicts == done.outcome.verdicts
        && r.value.foldTruncated == done.outcome.foldTruncated && r.value.resolvedBy == done.outcome.resolvedBy
  {
    var d := Emission.Decide(w, host, cfg, bound, ctx);
    ActiveIs(bound, PointOf(d.done.ctx));
    InputIdentityIs(w, host, cfg, bound, ctx);
    hide Emission.Decide, Active, Positions, PointOf, StringMember;
  }

  lemma InputIdentityIs(w: World, host: Host, cfg: Composition, bound: seq<Bound>, ctx: Members)
    ensures
      var id := Emission.Decide(w, host, cfg, bound, ctx).inputIdentity;
      if w.core.validateEnvelope(ctx).Ok? && StringMember(ctx, "spec") == host.spec && Identifiable(w, host.identity, ctx)
      then Gives(w, host.identity, ctx, id) else id == None
  {
    hide Emission.Dispatch, Active;
  }

  // ---- refusals before dispatch -----------------------------------------------------------------

  /** The outcome is a host deny for this reason and nothing ran. */
  predicate Denied(out: Outcome, reason: string) {
    out.combined.decision == Deny && out.combined.reason == reason && out.verdicts == [] && out.decidedBy == None
  }

  /** Why an emission is denied without running anything. */
  lemma RefusalReasons(w: World, host: Host, cfg: Composition, bound: seq<Bound>, ctx: Members)
    ensures
      var out := Emission.Decide(w, host, cfg, bound, ctx).done.outcome;
      var envelope := w.core.validateEnvelope(ctx);
      if envelope.Refused? then Denied(out, envelope.code)
      else if envelope.Broken? || StringMember(ctx, "spec") != host.spec then Denied(out, "host_error:context_invalid")
      else if host.identity.JcsProvider? && w.core.contextIdentity(ctx).Refused? then Denied(out, w.core.contextIdentity(ctx).code)
      else if host.identity.CustomProvider? && w.customIdentity(ctx).Refused? then Denied(out, w.customIdentity(ctx).code)
      else if !Identifiable(w, host.identity, ctx) then Denied(out, "host_error:context_invalid")
      else Positions(bound, PointOf(ctx)) == [] ==> Denied(out, "host_error:no_interceptor")
  {
    hide Active, Positions, Emission.Dispatch, PointOf, StringMember, CONTEXT_INVALID, OTHER_VERSION, NO_INTERCEPTOR, REGISTER_ALLOW_ALL;
    ActiveIs(bound, PointOf(ctx));
    NothingBound(w, host, cfg, ctx);
    ReservedReasons();
  }

  lemma NothingBound(w: World, host: Host, cfg: Composition, ctx: Members)
    ensures Denied(Emission.Dispatch(w, host, cfg, [], ctx).outcome, "host_error:no_interceptor")
  {
    hide REGISTER_ALLOW_ALL;
  }
}
