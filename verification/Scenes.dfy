/** Concrete emissions on which the laws' exceptions show. */
module Scenes {
  import opened Json
  import opened Verdicts
  import opened Hosts
  import opened Slots
  import opened Rereading
  import FirstDeny
  import FirstDenyLaws
  import FirstDenyContext
  import FirstDenyRecord
  import RunAll
  import RunAllLaws
  import Notices
  import SnapshotDispatch

  // ---- one core and one world -----------------------------------------------------------

  function Gatekeeper(spec: string, v: Verdict): Fallible<Verdict> {
    if WellFormed(spec, v) then Ok(v) else Refused(VERDICT_INVALID, "")
  }

  /** A core with a strict gate that applies no transform and aggregates nothing. */
  const REFUSING := Core(
    (x: Json) => Some(x),
    (spec: string, v: Verdict) => Gatekeeper(spec, v),
    (_: Members, _: TransformBody) => Refused(TRANSFORM_INVALID, ""),
    (_: Members, _: TransformBody) => Refused(TRANSFORM_INVALID, ""),
    (_: Members) => Ok(""),
    (_: string, _: Composition, _: seq<Verdict>) => Refused(VERDICT_INVALID, ""),
    (_: Members) => Ok(()),
    (_: Members, _: Verdict, _: Mode, _: Finalization) => Broken(""))

  /** Interceptors answer by slot, managed ones panic, the notifier accepts everything, and
      the redactor scrubs the live context before it hands back a context of its own. */
  function Scene(answers: nat -> Callee, cancelled: bool): World {
    World(REFUSING,
          (i: nat, _: Members) => answers(i),
          (_: nat, _: Members) => ManagedPanicked("error"),
          (_: nat, _: Members) => [],
          (_: nat) => cancelled,
          (_: nat, _: Notice) => true,
          (_: nat, _: Members) => Redaction(Other(map[]), map[], false),
          (_: Members) => Ok(""),
          (_: nat, _: Request) => ResolverTimedOut,
          (_: nat, _: Request, c: Members) => c)
  }

  const HOST := Host(Enforce, SPEC_DRAFT, NullProvider, true, true, true)

  const CONTINUES := Bound(false, "guard", None, OnErrorContinue)
  const MANAGED := Bound(true, "remote", None, OnErrorContinue)
  const DENIES := Bound(false, "editor", None, OnErrorDeny)

  const REWRITE := Verdict(Transform, "", "", [], None, Some(TransformBody("$target", Null)), None, [])
  const SPOOFED := HostError(INTERCEPTOR_FAILED, "")
  const ESCALATION := Verdict(Deny, "ask", "", [], Some(map[]), None, None, [])

  lemma Gates()
    ensures GateContract(REFUSING)
    ensures Gatekeeper(SPEC_DRAFT, REWRITE) == Ok(REWRITE) && Gatekeeper(SPEC_DRAFT, ALLOW) == Ok(ALLOW)
    ensures Gatekeeper(SPEC_DRAFT, SPOOFED) == Refused(VERDICT_INVALID, "")
  {
    assert HOST_ERROR <= SPOOFED.reason;
  }

  // ---- truncation ---------------------------------------------------------------------------

  /** Two registrations under `sequential/run_all`, the first with a transform the core
      refuses: the second never runs and the outcome does not say so. */
  lemma TruncationUntold(cfg: Composition)
    ensures
      var w := Scene(_ => Returned(REWRITE), false);
      var active := [DENIES, DENIES];
      && |RunAll.Entries(w, HOST, active, 0, map[])| == 1
      && RunAll.Sequential(w, HOST, cfg, active, map[]).outcome.foldTruncated == None
  {
    Gates();
    var w := Scene(_ => Returned(REWRITE), false);
    var active := [DENIES, DENIES];
    RunAllLaws.NeverTruncated(w, HOST, cfg, active, map[]);
    RewriteBreaks(w, 0);
    RunAllLaws.EntriesUnfold(w, HOST, active, 0, map[]);
  }

  lemma RewriteBreaks(w: World, i: nat)
    requires w.core == REFUSING && w.intercept(i, map[]) == Returned(REWRITE)
    ensures RunAll.BreaksFold(RunAll.EntryAt(w, HOST, i, DENIES, map[]))
    ensures FirstDeny.StepAt(w, HOST, i, DENIES, map[]).kind == FirstDeny.FoldBroken(HostError(TRANSFORM_INVALID, ""))
  {
    Gates();
    hide Gatekeeper;
    assert Call(w, HOST, i, DENIES, map[]) == Success(REWRITE);
    assert !IsHostSynthesized(REWRITE);
  }

  // ---- lost warnings ------------------------------------------------------------------------

  function FailThenRewrite(): World {
    Scene((i: nat) => if i == 0 then Raised("error") else Returned(REWRITE), false)
  }

  /** The run: the first slot is substituted, the second ends it at its refused transform. */
  lemma FailThenRewriteRuns(knob: Knob)
    ensures
      var w, active := FailThenRewrite(), [CONTINUES, DENIES];
      var s0 := FirstDeny.StepAt(w, HOST, 0, CONTINUES, map[]);
      var s1 := FirstDeny.StepAt(w, HOST, 1, DENIES, map[]);
      && FirstDeny.Steps(w, HOST, knob, active, 0, map[]) == [s0, s1]
      && s0.slot.substitutedFor == INTERCEPTOR_FAILED
      && s1.kind == FirstDeny.FoldBroken(HostError(TRANSFORM_INVALID, ""))
  {
    var w, active := FailThenRewrite(), [CONTINUES, DENIES];
    RaiseContinues(w, knob);
    RewriteBreaks(w, 1);
    hide FirstDeny.StepAt, FirstDeny.Steps, FailThenRewrite, REFUSING, REWRITE;
    FirstDenyLaws.StepsUnfold(w, HOST, knob, active, 0, map[]);
    FirstDenyLaws.StepsUnfold(w, HOST, knob, active, 1, map[]);
  }

  /** A slot that fails and is substituted, then a transform the core refuses: the
      principal was told, but the combined verdict carries no warning. */
  lemma WarningLost(knob: Knob)
    ensures
      var w, active := FailThenRewrite(), [CONTINUES, DENIES];
      var steps := FirstDeny.Steps(w, HOST, knob, active, 0, map[]);
      && |steps| == 2 && steps[0].slot.substitutedFor == INTERCEPTOR_FAILED
      && FirstDenyRecord.FailedFold(steps)
      && FirstDeny.Run(w, HOST, knob, active, map[]).combined == HostError(TRANSFORM_INVALID, "")
  {
    hide FirstDeny.StepAt, FirstDeny.Steps, FirstDeny.OutcomeOf, FailThenRewrite, REFUSING, REWRITE, INTERCEPTOR_FAILED, TRANSFORM_INVALID;
    FailThenRewriteRuns(knob);
    var w, active := FailThenRewrite(), [CONTINUES, DENIES];
    FirstDenyLaws.OutcomeOfEnded(FirstDeny.Steps(w, HOST, knob, active, 0, map[]), knob, active);
  }

  lemma RaiseContinues(w: World, knob: Knob)
    requires w.core == REFUSING && w.intercept(0, map[]) == Raised("error") && !w.callerCancelled(0)
    requires forall n :: w.notifierAccepts(0, n)
    ensures
      var s := FirstDeny.StepAt(w, HOST, 0, CONTINUES, map[]);
      s.slot.substitutedFor == INTERCEPTOR_FAILED && s.kind == FirstDeny.Passed && s.after == map[]
  {
    hide Label, NoticeOf, ControlFailureMessage;
    Notices.CoveredReasons();
    hide IsControlFailure;
    var f := Covered(INTERCEPTOR_FAILED, "error");
    assert Call(w, HOST, 0, CONTINUES, map[]) == Failure(f);
    var st := Settled(Substitute(Label(0, CONTINUES), f.reason), f.reason);
    assert Invoke(w, HOST, 0, CONTINUES, map[]) == st;
  }

  /** Without any transform: a substituted slot and a core that refuses to aggregate. The
      warning is lost in every run-everything profile. */
  lemma WarningLostToAggregation(cfg: Composition)
    ensures
      var w := Scene(_ => Raised("error"), false);
      && RunAll.Snapshots(w, HOST, [CONTINUES], map[])[0].slot.substitutedFor == INTERCEPTOR_FAILED
      && RunAll.Parallel(w, HOST, cfg, [CONTINUES], map[]).outcome.combined == HostError(VERDICT_INVALID, "")
  {
    var w := Scene(_ => Raised("error"), false);
    RaiseContinues(w, Stop);
    hide FirstDeny.StepAt;
    assert RunAll.Snapshots(w, HOST, [CONTINUES], map[])[0] == RunAll.SnapshotAt(w, HOST, 0, CONTINUES, map[]);
    hide Invoke;
  }

  // ---- continuing under cancellation ---------------------------------------------------------

  /** The emission's caller has cancelled, and still a standard interceptor whose return the
      gate refuses and a managed one that panics are both continued. */
  lemma ContinuesUnderCancellation()
    ensures
      var w := Scene(_ => Returned(SPOOFED), true);
      && w.callerCancelled(0)
      && Invoke(w, HOST, 0, CONTINUES, map[]).substitutedFor == VERDICT_INVALID
      && Invoke(w, HOST, 0, MANAGED, map[]).substitutedFor == INTERCEPTOR_FAILED
  {
    Gates();
    hide Label, NoticeOf, ControlFailureMessage, Gatekeeper;
    Notices.CoveredReasons();
    hide IsControlFailure;
    var w := Scene(_ => Returned(SPOOFED), true);
    assert Call(w, HOST, 0, CONTINUES, map[]) == Failure(Covered(VERDICT_INVALID, ""));
    assert Call(w, HOST, 0, MANAGED, map[]) == Failure(Covered(INTERCEPTOR_FAILED, "error"));
  }

  // ---- a redactor that writes ------------------------------------------------------------------

  /** A redactor that scrubs its argument in place and hands back a context of its own: the
      resolver never holds the live context, and the consultation still changes it. */
  lemma RedactorWrites(ctx: Members)
    requires ctx != map[] && PointOf(ctx) != AGENT_SHUTDOWN
    ensures
      var w := Scene(_ => TimedOut, false);
      && !FirstDenyContext.HandsOutLive(w, HOST, 0, ctx, ESCALATION)
      && FirstDenyContext.SeamExposes(w, HOST, 0, ctx, ESCALATION)
      && Consult(w, HOST, 0, ctx, ESCALATION).ctx == map[]
  {
  }

  /** A host object that is both redactor and resolver keeps the argument of the one call
      unwritten, hands back a context of its own, and writes through what it kept in the
      other: nothing shown has a part of the live context, and the consultation changes it. */
  lemma KeptArgumentWrites(ctx: Members)
    requires ctx != map[] && PointOf(ctx) != AGENT_SHUTDOWN
    ensures
      var w := Scene(_ => TimedOut, false).(
        redact := (_: nat, c: Members) => Redaction(Other(c), c, true),
        resolverLeaves := (_: nat, _: Request, _: Members) => map[]);
      && Presentation(w, HOST, 0, ctx).leaves == ctx
      && FirstDenyContext.SeamExposes(w, HOST, 0, ctx, ESCALATION)
      && Consult(w, HOST, 0, ctx, ESCALATION).ctx == map[]
  {
  }

  // ---- an aggregation error --------------------------------------------------------------------

  /** Every interceptor allows and the core refuses to aggregate: Go records one summary a
      slot, TypeScript none. */
  lemma SummariesPart(cfg: Composition)
    ensures
      var w := Scene(_ => Returned(ALLOW), false);
      && RunAll.Entered(RunAll.Snapshots(w, HOST, [DENIES], map[])) == [ALLOW]
      && |RunAll.Parallel(w, HOST, cfg, [DENIES], map[]).outcome.verdicts| == 1
      && SnapshotDispatch.Parallel(w, HOST, cfg, [DENIES], map[]).outcome.verdicts == []
  {
    Gates();
    hide Gatekeeper;
    var w := Scene(_ => Returned(ALLOW), false);
    assert Call(w, HOST, 0, DENIES, map[]) == Success(ALLOW);
  }
}
