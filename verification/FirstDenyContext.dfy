/** How `sequential/first_deny` moves the live context, what the knob changes,
    and who may write to the context. */
module FirstDenyContext {
  import opened Json
  import opened Verdicts
  import opened Hosts
  import opened Slots
  import opened FirstDeny
  import opened FirstDenyLaws

  // ---- the context is a replay -------------------------------------------------

  /** One change of the live context: a transform that applied, or the content that a
      redactor or resolver which could reach it left in it. */
  datatype Edit = Applied(body: TransformBody) | Written(content: Members)

  function Replay(core: Core, ctx: Members, edits: seq<Edit>): Option<Members> {
    if edits == [] then Some(ctx)
    else
      match Replay(core, ctx, edits[..|edits| - 1])
      case None => None
      case Some(c) =>
        match edits[|edits| - 1]
        case Written(content) => Some(content)
        case Applied(body) =>
          var r := core.applyTransform(c, body);
          if r.Ok? then Some(r.value) else None
  }

  /** The resolver is called for slot `i` and can reach the live context. */
  predicate HandsOutLive(w: World, host: Host, i: nat, ctx: Members, v: Verdict) {
    && SeamOpen(host, ctx, v)
    && !Presentation(w, host, i, ctx).result.RedactorPanicked?
    && ReachesLive(Presentation(w, host, i, ctx))
    && IdentityOf(w, host.identity, Shown(Presentation(w, host, i, ctx))).Ok?
  }

  /** The redactor wrote to the live context, or the resolver can. */
  predicate SeamExposes(w: World, host: Host, i: nat, ctx: Members, v: Verdict) {
    SeamOpen(host, ctx, v) && (Presentation(w, host, i, ctx).leaves != ctx || HandsOutLive(w, host, i, ctx, v))
  }

  /** The transform of slot `i` that took effect: its own, or its resolution's. */
  function Took(s: Step): Option<TransformBody> {
    match s.kind
    case Folded => s.slot.verdict.transform
    case LiftedBy(v) => v.transform
    case _ => None
  }

  function EditsAt(w: World, host: Host, i: nat, s: Step): seq<Edit> {
    var v := s.slot.verdict;
    var written :=
      if SeamExposes(w, host, i, s.before, v) then [Written(SeamLeaves(w, host, i, s.before, v))] else [];
    written + if host.mode == Enforce && Took(s).Some? then [Applied(Took(s).value)] else []
  }

  function EditsUpTo(w: World, host: Host, steps: seq<Step>, n: nat): seq<Edit>
    requires n <= |steps|
  {
    if n == 0 then [] else EditsUpTo(w, host, steps, n - 1) + EditsAt(w, host, n - 1, steps[n - 1])
  }

  lemma ReplayAppend(core: Core, ctx: Members, a: seq<Edit>, e: Edit)
    ensures Replay(core, ctx, a + [e]) == match Replay(core, ctx, a)
      case None => None
      case Some(c) =>
        match e
        case Written(content) => Some(content)
        case Applied(body) => var r := core.applyTransform(c, body); if r.Ok? then Some(r.value) else None
  {
    assert (a + [e])[..|a|] == a;
  }

  lemma SeamContext(w: World, host: Host, i: nat, ctx: Members, v: Verdict)
    ensures !SeamExposes(w, host, i, ctx, v) ==> SeamLeaves(w, host, i, ctx, v) == ctx
  {
  }

  /** The context a slot leaves: what the seam left, then the transform that took effect. */
  lemma StepMoves(w: World, host: Host, i: nat, b: Bound, ctx: Members)
    requires GateContract(w.core)
    ensures
      var s := StepAt(w, host, i, b, ctx);
      var v := s.slot.verdict;
      var middle := if SeamExposes(w, host, i, ctx, v) then SeamLeaves(w, host, i, ctx, v) else ctx;
      if host.mode == Enforce && Took(s).Some? then w.core.applyTransform(middle, Took(s).value) == Ok(s.after)
      else s.after == middle
  {
    InvokeShape(w, host, i, b, ctx);
    var v := Invoke(w, host, i, b, ctx).verdict;
    SeamContext(w, host, i, ctx, v);
    ConsultShape(w, host, i, ctx, v);
    var c := Consult(w, host, i, ctx, v).result;
    if v.decision == Deny && c.Consulted? && c.permitted {
      assert c.verdict.decision == Transform <==> c.verdict.transform.Some?;
    }
  }

  /** One slot changes the context by its edits and nothing else. */
  lemma StepEdits(w: World, host: Host, i: nat, b: Bound, init: Members, edits: seq<Edit>, ctx: Members)
    requires GateContract(w.core)
    requires Replay(w.core, init, edits) == Some(ctx)
    ensures
      var s := StepAt(w, host, i, b, ctx);
      Replay(w.core, init, edits + EditsAt(w, host, i, s)) == Some(s.after)
  {
    hide StepAt, SeamLeaves, SeamExposes;
    var s := StepAt(w, host, i, b, ctx);
    var v := s.slot.verdict;
    StepMoves(w, host, i, b, ctx);
    var live := SeamExposes(w, host, i, ctx, v);
    var written := if live then [Written(SeamLeaves(w, host, i, ctx, v))] else [];
    var middle := if live then SeamLeaves(w, host, i, ctx, v) else ctx;
    assert Replay(w.core, init, edits + written) == Some(middle) by {
      if live { ReplayAppend(w.core, init, edits, written[0]); } else { assert edits + written == edits; }
    }
    var applied := if host.mode == Enforce && Took(s).Some? then [Applied(Took(s).value)] else [];
    assert edits + EditsAt(w, host, i, s) == edits + written + applied;
    if applied == [] {
      assert edits + written + applied == edits + written;
    } else {
      ReplayAppend(w.core, init, edits + written, applied[0]);
    }
  }

  /** The context law: after any number of slots the live context is the starting
      one with exactly the edits of those slots replayed in order, so a slot sees
      every earlier transform that applied and none that failed. The only writers besides
      the host are redactors and resolvers in their own turns. */
  lemma {:induction false} ContextIsReplay(w: World, host: Host, knob: Knob, active: seq<Bound>, ctx: Members, n: nat)
    requires GateContract(w.core)
    requires n <= |Steps(w, host, knob, active, 0, ctx)|
    ensures
      var steps := Steps(w, host, knob, active, 0, ctx);
      && Replay(w.core, ctx, EditsUpTo(w, host, steps, n)) == Some(FinalCtx(steps[..n], ctx))
      && (n < |steps| ==> steps[n].before == FinalCtx(steps[..n], ctx))
  {
    hide StepAt, EditsAt;
    var steps := Steps(w, host, knob, active, 0, ctx);
    StepsIsRun(w, host, knob, active, ctx);
    if n < |steps| { assert Ran(w, host, knob, active, ctx, steps, n); }
    if n > 0 {
      ContextIsReplay(w, host, knob, active, ctx, n - 1);
      assert Ran(w, host, knob, active, ctx, steps, n - 1);
      StepEdits(w, host, n - 1, active[n - 1], ctx, EditsUpTo(w, host, steps, n - 1), steps[n - 1].before);
      assert steps[..n][n - 1] == steps[n - 1];
    }
  }

  /** A host whose redactor leaves the live context alone and lets no node of it through. */
  ghost predicate SeamKeepsCopies(w: World, host: Host) {
    host.hasResolver ==>
      host.hasRedactor && forall i, c :: w.redact(i, c).leaves == c && !ReachesLive(w.redact(i, c))
  }

  function Bodies(host: Host, steps: seq<Step>, n: nat): seq<TransformBody>
    requires n <= |steps|
  {
    if n == 0 then []
    else
      var t := Took(steps[n - 1]);
      Bodies(host, steps, n - 1) + if host.mode == Enforce && t.Some? then [t.value] else []
  }

  /** With such a seam the only edits are the transforms that took effect, own or
      resolved, in slot order. */
  lemma {:induction false} OnlyTransforms(
    w: World, host: Host, knob: Knob, active: seq<Bound>, ctx: Members, n: nat)
    requires SeamKeepsCopies(w, host)
    requires n <= |Steps(w, host, knob, active, 0, ctx)|
    ensures
      var steps := Steps(w, host, knob, active, 0, ctx);
      var edits, bodies := EditsUpTo(w, host, steps, n), Bodies(host, steps, n);
      |edits| == |bodies| && forall k | 0 <= k < |edits| :: edits[k] == Applied(bodies[k])
  {
    if n > 0 {
      OnlyTransforms(w, host, knob, active, ctx, n - 1);
    }
  }

  /** In evaluate_only nothing is ever applied and the seam is never asked. */
  lemma {:induction false} EvaluateOnlyIsInert(w: World, host: Host, knob: Knob, active: seq<Bound>, ctx: Members)
    requires GateContract(w.core) && host.mode == EvaluateOnly
    ensures
      var steps := Steps(w, host, knob, active, 0, ctx);
      && (forall k | 0 <= k < |steps| :: steps[k].before == steps[k].after == ctx)
      && FinalCtx(steps, ctx) == ctx
      && Run(w, host, knob, active, ctx).resolvedBy == None
  {
    hide StepAt;
    var steps := Steps(w, host, knob, active, 0, ctx);
    StepsIsRun(w, host, knob, active, ctx);
    forall n | 0 <= n <= |steps|
      ensures EditsUpTo(w, host, steps, n) == []
    {
      NoEdits(w, host, steps, n);
    }
    forall k | 0 <= k < |steps| ensures steps[k].before == steps[k].after == ctx {
      ContextIsReplay(w, host, knob, active, ctx, k);
      ContextIsReplay(w, host, knob, active, ctx, k + 1);
    }
    forall k | 0 <= k < |steps| ensures !SeamAsked(steps[k].kind) {
      assert Ran(w, host, knob, active, ctx, steps, k);
      StepShape(w, host, k, active[k], steps[k].before);
      AskedIffOpen(w, host, k, active[k], steps[k].before);
    }
    NeverAsked(steps);
  }

  lemma {:induction false} NoEdits(w: World, host: Host, steps: seq<Step>, n: nat)
    requires host.mode == EvaluateOnly && n <= |steps|
    ensures EditsUpTo(w, host, steps, n) == []
  {
    if n > 0 { NoEdits(w, host, steps, n - 1); }
  }

  predicate SeamAsked(k: Kind) {
    k.Rejected? || k.LiftBroken? || k.LiftedBy?
  }

  lemma AskedIffOpen(w: World, host: Host, i: nat, b: Bound, ctx: Members)
    requires GateContract(w.core)
    ensures
      var s := StepAt(w, host, i, b, ctx);
      SeamAsked(s.kind) <==> SeamOpen(host, ctx, s.slot.verdict) && !IsHostSynthesized(s.slot.verdict)
  {
    InvokeShape(w, host, i, b, ctx);
    ConsultShape(w, host, i, ctx, Invoke(w, host, i, b, ctx).verdict);
  }

  lemma {:induction false} NeverAsked(steps: seq<Step>)
    requires forall k | 0 <= k < |steps| :: !SeamAsked(steps[k].kind)
    ensures LastConsultation(steps) == None
    decreases |steps|
  {
    if steps != [] { NeverAsked(steps[..|steps| - 1]); }
  }

  // ---- who can write to the live context ----------------------------------------

  /** A consultation leaves the live context alone, whatever the resolver does in its turn,
      if and only if the redactor did not write to it and the resolver can reach no node
      of it, be it in what it is shown or in what was kept. Writes by a holder outside the
      turns of a consultation are not part of the model. */
  lemma SeamIsolationIff(w: World, host: Host, i: nat, ctx: Members, v: Verdict)
    ensures (forall leaves: (nat, Request, Members) -> Members ::
               Consult(w.(resolverLeaves := leaves), host, i, ctx, v).ctx == ctx)
            <==> !SeamExposes(w, host, i, ctx, v)
  {
    if SeamExposes(w, host, i, ctx, v) {
      var other := if "target" in ctx then map[] else map["target" := Null];
      var leaves: (nat, Request, Members) -> Members := (_, _, _) => other;
      assert Consult(w.(resolverLeaves := leaves), host, i, ctx, v).ctx ==
        if HandsOutLive(w, host, i, ctx, v) then other else Presentation(w, host, i, ctx).leaves;
      assert other != ctx;
    }
  }

  // ---- what the knob changes ------------------------------------------------------

  /** `stop` runs the slots `resume` runs, up to and including the first permitted
      resolution; with no permitted resolution the two emissions are the same. */
  lemma {:induction false} StopIsCutResume(w: World, host: Host, active: seq<Bound>, i: nat, ctx: Members)
    requires i <= |active|
    ensures
      var stop, resume := Steps(w, host, Stop, active, i, ctx), Steps(w, host, Resume, active, i, ctx);
      && stop <= resume
      && (forall k | 0 <= k < |stop| - 1 :: !stop[k].kind.LiftedBy?)
      && (|stop| < |resume| ==> stop[|stop| - 1].kind.LiftedBy?)
    decreases |active| - i
  {
    hide StepAt;
    if i < |active| {
      var s := StepAt(w, host, i, active[i], ctx);
      if !Ends(Stop, s.kind) {
        StopIsCutResume(w, host, active, i + 1, s.after);
      }
    }
  }

  lemma {:induction false} KnobOnlyMattersAfterALift(w: World, host: Host, active: seq<Bound>, ctx: Members)
    ensures
      var resume := Steps(w, host, Resume, active, 0, ctx);
      (forall k | 0 <= k < |resume| :: !resume[k].kind.LiftedBy?) ==>
        && Run(w, host, Stop, active, ctx) == Run(w, host, Resume, active, ctx)
        && FinalCtx(Steps(w, host, Stop, active, 0, ctx), ctx) == FinalCtx(resume, ctx)
  {
    hide StepAt;
    StopIsCutResume(w, host, active, 0, ctx);
    var stop, resume := Steps(w, host, Stop, active, 0, ctx), Steps(w, host, Resume, active, 0, ctx);
    if forall k | 0 <= k < |resume| :: !resume[k].kind.LiftedBy? {
      assert stop != [] ==> resume[|stop| - 1] == stop[|stop| - 1];
      assert stop == resume;
      assert stop != [] ==> !stop[|stop| - 1].kind.LiftedBy?;
    }
  }
}
