/** `sequential/first_deny` as a trace: what each slot did, and the outcome
    read off the finished trace. */
module FirstDeny {
  import opened Json
  import opened Verdicts
  import opened Hosts
  import opened Slots
  import opened Unions

  /** How one slot ended. */
  datatype Kind =
    | Synthesized               // a host error took the slot
    | Standing                  // a deny the seam was not asked about
    | Rejected(verdict: Verdict)  // the seam was asked and did not lift
    | LiftBroken(verdict: Verdict)  // lifted, but the resolution's transform did not apply
    | LiftedBy(resolution: Verdict)
    | FoldBroken(verdict: Verdict)
    | Folded
    | Passed

  datatype Step = Step(slot: Settled, kind: Kind, before: Members, after: Members)

  function DenyStep(w: World, host: Host, i: nat, st: Settled, ctx: Members): (s: Step)
    ensures s.slot == st && s.before == ctx
  {
    var seam := Consult(w, host, i, ctx, st.verdict);
    match seam.result
    case NotConsulted => Step(st, Standing, ctx, ctx)
    case Consulted(v, permitted) =>
      if !permitted then
        Step(st, Rejected(v), ctx, seam.ctx)
      else if v.decision == Transform then
        var f := Fold(w.core, host.mode, seam.ctx, v);
        Step(st, if Permits(f.verdict.decision) then LiftedBy(f.verdict) else LiftBroken(f.verdict), ctx, f.ctx)
      else if Permits(v.decision) then
        Step(st, LiftedBy(v), ctx, seam.ctx)
      else
        Step(st, LiftBroken(v), ctx, seam.ctx)
  }

  function StepAt(w: World, host: Host, i: nat, b: Bound, ctx: Members): (s: Step)
    ensures s.slot == Invoke(w, host, i, b, ctx) && s.before == ctx
  {
    var st := Invoke(w, host, i, b, ctx);
    if IsHostSynthesized(st.verdict) then
      Step(st, Synthesized, ctx, ctx)
    else
      match st.verdict.decision
      case Deny => DenyStep(w, host, i, st, ctx)
      case Transform =>
        var f := Fold(w.core, host.mode, ctx, st.verdict);
        Step(st, if Permits(f.verdict.decision) then Folded else FoldBroken(f.verdict), ctx, f.ctx)
      case _ => Step(st, Passed, ctx, ctx)
  }

  predicate Ends(knob: Knob, k: Kind) {
    !(k.LiftedBy? || k.Folded? || k.Passed?) || (k.LiftedBy? && knob == Stop)
  }

  /** The slots the profile runs from index `i` on. */
  function Steps(w: World, host: Host, knob: Knob, active: seq<Bound>, i: nat, ctx: Members): (r: seq<Step>)
    requires i <= |active|
    ensures |r| <= |active| - i
    ensures i < |active| ==> |r| > 0
    decreases |active| - i
  {
    if i == |active| then []
    else
      var s := StepAt(w, host, i, active[i], ctx);
      if Ends(knob, s.kind) then [s]
      else [s] + Steps(w, host, knob, active, i + 1, s.after)
  }

  // ---- what the trace amounts to ---------------------------------------------

  /** The verdicts a slot adds to the pool the metadata unions read. */
  function Contributed(s: Step): seq<Verdict> {
    if s.kind.LiftedBy? then [s.slot.verdict, s.kind.resolution] else [s.slot.verdict]
  }

  function Pool(steps: seq<Step>): seq<Verdict> {
    if steps == [] then [] else Pool(steps[..|steps| - 1]) + Contributed(steps[|steps| - 1])
  }

  /** The last transform that took effect, with its slot. */
  function LastTransform(steps: seq<Step>): Option<(nat, Verdict)> {
    if steps == [] then None
    else
      var k := |steps| - 1;
      var s := steps[k];
      if s.kind.Folded? then Some((k, s.slot.verdict))
      else if s.kind.LiftedBy? && s.kind.resolution.decision == Transform then Some((k, s.kind.resolution))
      else LastTransform(steps[..k])
  }

  function LastConsultation(steps: seq<Step>): Option<ResolvedBy> {
    if steps == [] then None
    else
      var k := steps[|steps| - 1].kind;
      if k.Rejected? then Some(ByRejection)
      else if k.LiftBroken? || k.LiftedBy? then Some(ByApproval)
      else LastConsultation(steps[..|steps| - 1])
  }

  function FinalCtx(steps: seq<Step>, ctx: Members): Members {
    if steps == [] then ctx else steps[|steps| - 1].after
  }

  // ---- the outcome --------------------------------------------------------------

  function SummaryAt(k: nat, v: Verdict, b: Bound, substitutedFor: string): Summary {
    Summary(k, v.decision, v.reason, b.name, substitutedFor)
  }

  /** Summaries of the first `|verdicts|` registrations. */
  function Summarize(verdicts: seq<Verdict>, active: seq<Bound>, substituted: seq<string>): seq<Summary>
    requires |verdicts| == |substituted| <= |active|
  {
    seq(|verdicts|, k requires 0 <= k < |verdicts| => SummaryAt(k, verdicts[k], active[k], substituted[k]))
  }

  function SlotVerdicts(steps: seq<Step>): (r: seq<Verdict>)
    ensures |r| == |steps|
  {
    seq(|steps|, k requires 0 <= k < |steps| => steps[k].slot.verdict)
  }

  function SlotSubstitutions(steps: seq<Step>): (r: seq<string>)
    ensures |r| == |steps|
  {
    seq(|steps|, k requires 0 <= k < |steps| => steps[k].slot.substitutedFor)
  }

  function Summaries(steps: seq<Step>, active: seq<Bound>): seq<Summary>
    requires |steps| <= |active|
  {
    Summarize(SlotVerdicts(steps), active, SlotSubstitutions(steps))
  }

  /** The verdict the emission returns, and the slot it is attributed to. */
  function Decide(steps: seq<Step>, knob: Knob): (Verdict, Option<nat>) {
    if steps != [] && Ends(knob, steps[|steps| - 1].kind) then
      var last := steps[|steps| - 1];
      var at := Some(|steps| - 1);
      match last.kind
      case Synthesized => (WithUnions(last.slot.verdict, Pool(steps)), at)
      case Standing => (WithUnions(last.slot.verdict, Pool(steps)), at)
      case Rejected(v) => (WithUnions(v, Pool(steps)), if IsHostSynthesized(v) then None else at)
      case LiftBroken(v) => (v, None)
      case FoldBroken(v) => (v, None)
      case LiftedBy(v) => (WithUnions(v, Pool(steps)), at)
    else
      match LastTransform(steps)
      case Some(t) => (WithUnions(t.1, Pool(steps)), Some(t.0))
      case None => (WithUnions(ALLOW, Pool(steps)), None)
  }

  function OutcomeOf(steps: seq<Step>, knob: Knob, active: seq<Bound>): Outcome
    requires |steps| <= |active|
  {
    var d := Decide(steps, knob);
    Outcome(d.0, d.1, Summaries(steps, active), Some(|steps| < |active|), LastConsultation(steps))
  }

  /** The whole emission under `sequential/first_deny`. */
  function Run(w: World, host: Host, knob: Knob, active: seq<Bound>, ctx: Members): Outcome {
    OutcomeOf(Steps(w, host, knob, active, 0, ctx), knob, active)
  }
}
