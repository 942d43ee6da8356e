/** Laws of `sequential/first_deny`, for every list of registrations, every
    callback behaviour, every mode and knob. */
module FirstDenyLaws {
  import opened Json
  import opened Verdicts
  import opened Hosts
  import opened Slots
  import opened Unions
  import opened FirstDeny

  // ---- the trace, without its recursion ---------------------------------------

  /** Slot `k` ran on what slot `k - 1` left, and only the last slot may end the run. */
  ghost predicate Ran(w: World, host: Host, knob: Knob, active: seq<Bound>, ctx: Members, steps: seq<Step>, k: nat)
    requires k < |steps| <= |active|
  {
    && steps[k].before == (if k == 0 then ctx else steps[k - 1].after)
    && steps[k] == StepAt(w, host, k, active[k], steps[k].before)
    && (k < |steps| - 1 ==> !Ends(knob, steps[k].kind))
  }

  ghost predicate IsRun(w: World, host: Host, knob: Knob, active: seq<Bound>, ctx: Members, steps: seq<Step>) {
    && |steps| <= |active|
    && (forall k | 0 <= k < |steps| :: Ran(w, host, knob, active, ctx, steps, k))
    && (|steps| < |active| ==> steps != [] && Ends(knob, steps[|steps| - 1].kind))
  }

  /** One slot of the recursion. */
  lemma StepsUnfold(w: World, host: Host, knob: Knob, active: seq<Bound>, i: nat, ctx: Members)
    requires i < |active|
    ensures
      var s := StepAt(w, host, i, active[i], ctx);
      Steps(w, host, knob, active, i, ctx) ==
        if Ends(knob, s.kind) then [s] else [s] + Steps(w, host, knob, active, i + 1, s.after)
  {
    hide StepAt, Ends;
  }

  /** One more slot leaves the slots before it as they were. */
  lemma RanSnoc(
    w: World, host: Host, knob: Knob, active: seq<Bound>, ctx: Members, done: seq<Step>, s: Step)
    requires |done| < |active|
    requires forall k | 0 <= k < |done| :: Ran(w, host, knob, active, ctx, done, k)
    requires done != [] ==> !Ends(knob, done[|done| - 1].kind)
    requires s == StepAt(w, host, |done|, active[|done|], FinalCtx(done, ctx))
    ensures forall k | 0 <= k <= |done| :: Ran(w, host, knob, active, ctx, done + [s], k)
  {
    hide StepAt, Ends;
    forall k | 0 <= k < |done| ensures Ran(w, host, knob, active, ctx, done + [s], k) {
      assert Ran(w, host, knob, active, ctx, done, k);
    }
  }

  /** A run split at slot `i`: the slots before it and the rest of the recursion. */
  lemma {:induction false} StepsExtend(
    w: World, host: Host, knob: Knob, active: seq<Bound>, ctx: Members, done: seq<Step>)
    requires |done| <= |active|
    requires forall k | 0 <= k < |done| :: Ran(w, host, knob, active, ctx, done, k)
    requires done != [] ==> !Ends(knob, done[|done| - 1].kind)
    ensures IsRun(w, host, knob, active, ctx, done + Steps(w, host, knob, active, |done|, FinalCtx(done, ctx)))
    decreases |active| - |done|
  {
    hide StepAt, Ends, Steps, Ran;
    var i := |done|;
    var rest := Steps(w, host, knob, active, i, FinalCtx(done, ctx));
    if i == |active| {
      assert done + rest == done;
    } else {
      var s := StepAt(w, host, i, active[i], FinalCtx(done, ctx));
      StepsUnfold(w, host, knob, active, i, FinalCtx(done, ctx));
      RanSnoc(w, host, knob, active, ctx, done, s);
      if !Ends(knob, s.kind) {
        StepsExtend(w, host, knob, active, ctx, done + [s]);
        assert done + rest == done + [s] + Steps(w, host, knob, active, i + 1, s.after);
      }
    }
  }

  lemma StepsIsRun(w: World, host: Host, knob: Knob, active: seq<Bound>, ctx: Members)
    ensures IsRun(w, host, knob, active, ctx, Steps(w, host, knob, active, 0, ctx))
  {
    hide StepAt, Steps;
    StepsExtend(w, host, knob, active, ctx, []);
    assert [] + Steps(w, host, knob, active, 0, ctx) == Steps(w, host, knob, active, 0, ctx);
  }

  // ---- the trace as a loop meets it -------------------------------------------

  /** `steps` are the slots of the run before slot `|steps|`, none of which ended it,
      and `ctx` is the live context they leave. */
  predicate OnTrack(w: World, host: Host, knob: Knob, active: seq<Bound>, init: Members, steps: seq<Step>, ctx: Members) {
    && |steps| <= |active|
    && Steps(w, host, knob, active, 0, init) == steps + Steps(w, host, knob, active, |steps|, ctx)
    && ctx == FinalCtx(steps, init)
    && (steps != [] ==> !Ends(knob, steps[|steps| - 1].kind))
  }

  lemma TrackStarts(w: World, host: Host, knob: Knob, active: seq<Bound>, init: Members)
    ensures OnTrack(w, host, knob, active, init, [], init)
  {
    hide StepAt, Steps;
    assert [] + Steps(w, host, knob, active, 0, init) == Steps(w, host, knob, active, 0, init);
  }

  /** One more slot stays on track, or completes the run. */
  lemma {:induction false} TrackStep(w: World, host: Host, knob: Knob, active: seq<Bound>, init: Members, steps: seq<Step>, ctx: Members)
    requires OnTrack(w, host, knob, active, init, steps, ctx) && |steps| < |active|
    ensures
      var s := StepAt(w, host, |steps|, active[|steps|], ctx);
      if Ends(knob, s.kind) then Steps(w, host, knob, active, 0, init) == steps + [s]
      else OnTrack(w, host, knob, active, init, steps + [s], s.after)
  {
    hide StepAt, Ends, Steps;
    var s := StepAt(w, host, |steps|, active[|steps|], ctx);
    StepsUnfold(w, host, knob, active, |steps|, ctx);
    if !Ends(knob, s.kind) {
      var rest := Steps(w, host, knob, active, |steps| + 1, s.after);
      assert steps + ([s] + rest) == (steps + [s]) + rest;
    }
  }

  lemma {:induction false} TrackEnds(w: World, host: Host, knob: Knob, active: seq<Bound>, init: Members, steps: seq<Step>, ctx: Members)
    requires OnTrack(w, host, knob, active, init, steps, ctx) && |steps| == |active|
    ensures Steps(w, host, knob, active, 0, init) == steps
    ensures steps != [] ==> !Ends(knob, steps[|steps| - 1].kind)
  {
  }

  /** What a dispatch loop has accumulated over `steps`. */
  datatype Accumulated = Accumulated(
    perInterceptor: seq<Verdict>, substituted: seq<string>, pool: seq<Verdict>,
    lastTransform: Option<(nat, Verdict)>, resolvedBy: Option<ResolvedBy>)

  function Accumulate(steps: seq<Step>): Accumulated {
    Accumulated(SlotVerdicts(steps), SlotSubstitutions(steps), Pool(steps), LastTransform(steps), LastConsultation(steps))
  }

  lemma AccumulateNone()
    ensures Accumulate([]) == Accumulated([], [], [], None, None)
  {
  }

  lemma {:induction false} AccumulateStep(steps: seq<Step>, s: Step)
    ensures
      var a := Accumulate(steps);
      var v := s.slot.verdict;
      Accumulate(steps + [s]) == Accumulated(
        a.perInterceptor + [v],
        a.substituted + [s.slot.substitutedFor],
        if s.kind.LiftedBy? then a.pool + [v] + [s.kind.resolution] else a.pool + [v],
        if s.kind.Folded? then Some((|steps|, v))
        else if s.kind.LiftedBy? && s.kind.resolution.decision == Transform then Some((|steps|, s.kind.resolution))
        else a.lastTransform,
        if s.kind.Rejected? then Some(ByRejection)
        else if s.kind.LiftBroken? || s.kind.LiftedBy? then Some(ByApproval)
        else a.resolvedBy)
  {
    var next := steps + [s];
    assert next[..|steps|] == steps;
    SlotsOfStep(steps, s);
    hide SlotVerdicts, SlotSubstitutions;
  }

  lemma {:induction false} SlotsOfStep(steps: seq<Step>, s: Step)
    ensures SlotVerdicts(steps + [s]) == SlotVerdicts(steps) + [s.slot.verdict]
    ensures SlotSubstitutions(steps + [s]) == SlotSubstitutions(steps) + [s.slot.substitutedFor]
  {
  }

  /** The outcome of a run that its last slot ended, from what was accumulated. */
  lemma {:induction false} OutcomeOfEnded(steps: seq<Step>, knob: Knob, active: seq<Bound>)
    requires steps != [] && |steps| <= |active| && Ends(knob, steps[|steps| - 1].kind)
    ensures
      var a := Accumulate(steps);
      var s := steps[|steps| - 1];
      var at := Some(|steps| - 1);
      OutcomeOf(steps, knob, active) == Outcome(
        match s.kind
        case Rejected(v) => WithUnions(v, a.pool)
        case LiftBroken(v) => v
        case FoldBroken(v) => v
        case LiftedBy(v) => WithUnions(v, a.pool)
        case _ => WithUnions(s.slot.verdict, a.pool),
        if s.kind.LiftBroken? || s.kind.FoldBroken? || (s.kind.Rejected? && IsHostSynthesized(s.kind.verdict)) then None else at,
        Summarize(a.perInterceptor, active, a.substituted),
        Some(|steps| < |active|),
        a.resolvedBy)
  {
    hide IsHostSynthesized, WithUnions, Pool, Summarize;
  }

  /** The outcome of a run that no slot ended. */
  lemma {:induction false} OutcomeOfFinished(steps: seq<Step>, knob: Knob, active: seq<Bound>)
    requires |steps| == |active| && (steps != [] ==> !Ends(knob, steps[|steps| - 1].kind))
    ensures
      var a := Accumulate(steps);
      var t := a.lastTransform;
      OutcomeOf(steps, knob, active) == Outcome(
        WithUnions(if t.Some? then t.value.1 else ALLOW, a.pool),
        if t.Some? then Some(t.value.0) else None,
        Summarize(a.perInterceptor, active, a.substituted),
        Some(false),
        a.resolvedBy)
  {
  }

  // ---- fail closed --------------------------------------------------------------

  /** Folding `v` into `before` succeeds and leaves `after`. */
  predicate Applies(core: Core, mode: Mode, before: Members, v: Verdict, after: Members) {
    && v.transform.Some?
    && if mode == Enforce then core.applyTransform(before, v.transform.value) == Ok(after)
       else core.validateTransform(before, v.transform.value).Ok? && after == before
  }

  /** The resolver answered the request for slot `i` with an approval that echoes
      the identity of exactly what it was shown and carries a permit the gate
      turns into `lift`. */
  predicate Approved(w: World, host: Host, i: nat, ctx: Members, v: Verdict, lift: Verdict) {
    && SeamOpen(host, ctx, v)
    && var p := Presentation(w, host, i, ctx);
    && !p.result.RedactorPanicked?
    && var id := IdentityOf(w, host.identity, Shown(p));
    && id.Ok?
    && var r := w.resolve(i, Request(id.value, PointOf(p.leaves), v, Shown(p)));
    && r.Resolution?
    && r.outcome == Approve
    && r.identity == id.value
    && r.verdict.Some?
    && w.core.validateVerdict(host.spec, r.verdict.value) == Ok(lift)
    && Permits(lift.decision)
  }

  /** What a consultation makes of the live context before any fold. */
  function SeamLeaves(w: World, host: Host, i: nat, ctx: Members, v: Verdict): Members {
    Consult(w, host, i, ctx, v).ctx
  }

  /** An approval of `v`, a permit whose transform, if it is one, applied on top of what
      the seam left, lifts the deny at slot `i`. */
  predicate Lifts(w: World, host: Host, i: nat, before: Members, v: Verdict, lift: Verdict, after: Members) {
    && Approved(w, host, i, before, v, lift)
    && var live := SeamLeaves(w, host, i, before, v);
    if lift.decision == Transform then Applies(w.core, host.mode, live, lift, after) else after == live
  }

  /** The slot at `i` does not stand in the way of the action. */
  ghost predicate Cleared(w: World, host: Host, i: nat, b: Bound, before: Members, after: Members) {
    var v := Invoke(w, host, i, b, before).verdict;
    match v.decision
    case Allow => after == before
    case Transform => Applies(w.core, host.mode, before, v, after)
    case Deny => exists lift :: Lifts(w, host, i, before, v, lift, after)
    case Unknown(_) => false
  }

  /** A settled slot is a gated verdict, a host deny, or a substituted allow. */
  lemma {:induction false} InvokeShape(w: World, host: Host, i: nat, b: Bound, ctx: Members)
    requires GateContract(w.core)
    ensures
      var st := Invoke(w, host, i, b, ctx);
      || (WellFormed(host.spec, st.verdict) && st.substitutedFor == "" && Heard(w, host, i, b, ctx) == [])
      || (st.verdict.decision == Deny && !IsLiftable(st.verdict) && st.verdict.warnings == [] && st.substitutedFor == ""
          && st.verdict.transform.None? && Heard(w, host, i, b, ctx) == [])
      || (exists f ::
            && Call(w, host, i, b, ctx) == Failure(f)
            && b.onError == OnErrorContinue && f.continuable && IsControlFailure(f.reason) && host.hasNotifier
            && st == Settled(Substitute(Label(i, b), f.reason), f.reason)
            && Heard(w, host, i, b, ctx) == [NoticeOf(i, b, f.reason, ctx)])
  {
    hide Label, NoticeOf, Substitute, IsControlFailure, WellFormed, Settle, Call, GateContract;
    match Call(w, host, i, b, ctx)
    case Success(v) => CallIsGated(w, host, i, b, ctx);
    case Failure(f) => SettleShape(w, host, i, b, f, ctx);
  }

  lemma CallIsGated(w: World, host: Host, i: nat, b: Bound, ctx: Members)
    requires GateContract(w.core)
    ensures Call(w, host, i, b, ctx).Success? ==> WellFormed(host.spec, Call(w, host, i, b, ctx).value)
  {
    hide WellFormed, IsControlFailure;
  }

  lemma SettleShape(w: World, host: Host, i: nat, b: Bound, f: CallFailure, ctx: Members)
    ensures
      var st := Settle(w, host, i, b, f, ctx);
      var announced := Announces(host, b, f) && w.notifierAccepts(i, NoticeOf(i, b, f.reason, ctx));
      if announced then st == Settled(Substitute(Label(i, b), f.reason), f.reason)
      else st.verdict.decision == Deny && !IsLiftable(st.verdict) && st.verdict.warnings == [] && st.substitutedFor == ""
           && st.verdict.transform.None?
  {
    hide Label, NoticeOf, Substitute, IsControlFailure, CORE_REFUSED, NO_CHANNEL, CHANNEL_FAILED;
  }

  lemma ConsultShape(w: World, host: Host, i: nat, ctx: Members, v: Verdict)
    requires GateContract(w.core)
    ensures
      var c := Consult(w, host, i, ctx, v).result;
      && (c.NotConsulted? <==> !SeamOpen(host, ctx, v))
      && (c.Consulted? && c.permitted ==> Approved(w, host, i, ctx, v, c.verdict) && WellFormed(host.spec, c.verdict))
      && (c.Consulted? && !c.permitted ==> c.verdict.decision == Deny && forall lift :: !Approved(w, host, i, ctx, v, lift))
      && (c.Consulted? && !c.permitted ==> c.verdict.warnings == [] || WellFormed(host.spec, c.verdict))
  {
  }

  /** A slot is cleared exactly when it passed, folded, or was lifted. */
  lemma {:induction false} ClearedIff(w: World, host: Host, i: nat, b: Bound, ctx: Members)
    requires GateContract(w.core)
    ensures
      var s := StepAt(w, host, i, b, ctx);
      && (s.kind.Passed? || s.kind.Folded? || s.kind.LiftedBy? <==> Cleared(w, host, i, b, ctx, s.after))
      && (s.kind.LiftedBy? ==> IsLiftable(s.slot.verdict))
  {
    InvokeShape(w, host, i, b, ctx);
    var st := Invoke(w, host, i, b, ctx);
    if st.verdict.decision == Deny {
      ConsultShape(w, host, i, ctx, st.verdict);
      var c := Consult(w, host, i, ctx, st.verdict).result;
      if c.Consulted? && c.permitted {
        assert Approved(w, host, i, ctx, st.verdict, c.verdict);
        assert forall lift :: Approved(w, host, i, ctx, st.verdict, lift) ==> lift == c.verdict;
        var after := StepAt(w, host, i, b, ctx).after;
        assert forall lift :: Lifts(w, host, i, ctx, st.verdict, lift, after) ==> lift == c.verdict;
        assert StepAt(w, host, i, b, ctx).kind.LiftedBy? ==> Lifts(w, host, i, ctx, st.verdict, c.verdict, after);
      }
    }
  }

  /** What each ending says about the verdicts involved. */
  lemma StepShape(w: World, host: Host, i: nat, b: Bound, ctx: Members)
    requires GateContract(w.core)
    ensures
      var s := StepAt(w, host, i, b, ctx);
      match s.kind
      case Synthesized => s.slot.verdict.decision == Deny && IsHostSynthesized(s.slot.verdict)
      case Standing => s.slot.verdict.decision == Deny && !SeamOpen(host, ctx, s.slot.verdict)
      case Rejected(v) => v.decision == Deny && IsLiftable(s.slot.verdict)
      case LiftBroken(v) => v.decision == Deny && IsLiftable(s.slot.verdict)
      case FoldBroken(v) => v.decision == Deny && s.slot.verdict.decision == Transform
      case LiftedBy(v) => Permits(v.decision) && WellFormed(host.spec, v) && IsLiftable(s.slot.verdict)
      case Folded => s.slot.verdict.decision == Transform
      case Passed => s.slot.verdict.decision == Allow
  {
    InvokeShape(w, host, i, b, ctx);
    var st := Invoke(w, host, i, b, ctx);
    if st.verdict.decision == Deny {
      ConsultShape(w, host, i, ctx, st.verdict);
    }
  }

  /** The verdict a run returns permits the action only if its last slot did. */
  lemma {:induction false} DecisionOf(w: World, host: Host, knob: Knob, active: seq<Bound>, ctx: Members, steps: seq<Step>)
    requires GateContract(w.core) && IsRun(w, host, knob, active, ctx, steps)
    ensures Permits(Decide(steps, knob).0.decision) <==>
      steps == [] || !Ends(knob, steps[|steps| - 1].kind) || steps[|steps| - 1].kind.LiftedBy?
  {
    hide StepAt, WithUnions, Pool, LastTransform, IsHostSynthesized, WellFormed, SeamOpen, IsLiftable, GateContract;
    assert forall v, pool :: WithUnions(v, pool).decision == v.decision by { UnionsKeepDecisions(); }
    if steps != [] && Ends(knob, steps[|steps| - 1].kind) {
      var k := |steps| - 1;
      assert Ran(w, host, knob, active, ctx, steps, k);
      StepShape(w, host, k, active[k], steps[k].before);
    } else {
      LastTransformPermits(w, host, knob, active, ctx, steps, |steps|);
      assert steps[..|steps|] == steps;
    }
  }

  lemma UnionsKeepDecisions()
    ensures forall v, pool :: WithUnions(v, pool).decision == v.decision
    ensures forall v, pool :: WithUnions(v, pool).reason == v.reason
  {
  }

  lemma {:induction false} LastTransformPermits(
    w: World, host: Host, knob: Knob, active: seq<Bound>, ctx: Members, steps: seq<Step>, n: nat)
    requires GateContract(w.core)
    requires n <= |steps| && IsRun(w, host, knob, active, ctx, steps)
    ensures
      var t := LastTransform(steps[..n]);
      t.Some? ==>
        && t.value.0 < n
        && t.value.1.decision == Transform
        && (steps[t.value.0].kind.Folded? || steps[t.value.0].kind.LiftedBy?)
    decreases n
  {
    hide StepAt;
    if n > 0 {
      assert steps[..n][..n - 1] == steps[..n - 1];
      LastTransformPermits(w, host, knob, active, ctx, steps, n - 1);
      assert Ran(w, host, knob, active, ctx, steps, n - 1);
      StepShape(w, host, n - 1, active[n - 1], steps[n - 1].before);
    }
  }

  /** Fail closed: the emission permits the action exactly when every slot it
      invoked is cleared; and then every registration ran, unless `stop` ended
      the emission at a liftable deny that an approval lifted. */
  lemma {:induction false} PermitIffEverySlotCleared(w: World, host: Host, knob: Knob, active: seq<Bound>, ctx: Members)
    requires GateContract(w.core)
    ensures
      var steps := Steps(w, host, knob, active, 0, ctx);
      var permits := Permits(Run(w, host, knob, active, ctx).combined.decision);
      && (permits <==> forall k | 0 <= k < |steps| :: Cleared(w, host, k, active[k], steps[k].before, steps[k].after))
      && (permits ==> |steps| == |active| || (knob == Stop && IsLiftable(steps[|steps| - 1].slot.verdict)))
  {
    hide StepAt, Cleared;
    StepsIsRun(w, host, knob, active, ctx);
    var steps := Steps(w, host, knob, active, 0, ctx);
    DecisionOf(w, host, knob, active, ctx, steps);
    forall k | 0 <= k < |steps|
      ensures k < |steps| - 1 ==> !Ends(knob, steps[k].kind)
      ensures steps[k].kind.Passed? || steps[k].kind.Folded? || steps[k].kind.LiftedBy? <==>
        Cleared(w, host, k, active[k], steps[k].before, steps[k].after)
      ensures steps[k].kind.LiftedBy? ==> IsLiftable(steps[k].slot.verdict)
    {
      assert Ran(w, host, knob, active, ctx, steps, k);
      ClearedIff(w, host, k, active[k], steps[k].before);
    }
  }
}
