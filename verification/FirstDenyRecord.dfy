/** What the record of a `sequential/first_deny` emission says: attribution,
    summaries, metadata unions and announced substitutions. */
module FirstDenyRecord {
  import opened Json
  import opened Verdicts
  import opened Hosts
  import opened Slots
  import opened Unions
  import opened Notices
  import opened FirstDeny
  import opened FirstDenyLaws
  import FirstDenyContext

  // ---- attribution ------------------------------------------------------------

  /** Slot `k` changed the target: its own transform or its resolution's applied. */
  predicate TookTransform(s: Step) {
    s.kind.Folded? || (s.kind.LiftedBy? && s.kind.resolution.decision == Transform)
  }

  lemma {:induction false} LastTransformIs(steps: seq<Step>)
    ensures
      match LastTransform(steps)
      case None => forall k | 0 <= k < |steps| :: !TookTransform(steps[k])
      case Some(t) =>
        && t.0 < |steps|
        && TookTransform(steps[t.0])
        && t.1 == (if steps[t.0].kind.Folded? then steps[t.0].slot.verdict else steps[t.0].kind.resolution)
        && forall k | t.0 < k < |steps| :: !TookTransform(steps[k])
    decreases |steps|
  {
    if steps != [] {
      LastTransformIs(steps[..|steps| - 1]);
    }
  }

  /** The consultation at `k` is the last one of the run. */
  ghost predicate LastAsked(steps: seq<Step>, k: nat) {
    && k < |steps|
    && FirstDenyContext.SeamAsked(steps[k].kind)
    && forall j | k < j < |steps| :: !FirstDenyContext.SeamAsked(steps[j].kind)
  }

  lemma {:induction false} LastConsultationIs(steps: seq<Step>)
    ensures LastConsultation(steps) == None <==> forall k | 0 <= k < |steps| :: !FirstDenyContext.SeamAsked(steps[k].kind)
    ensures forall k: nat | LastAsked(steps, k) ::
      LastConsultation(steps) == Some(if steps[k].kind.Rejected? then ByRejection else ByApproval)
    decreases |steps|
  {
    if steps != [] {
      var n := |steps| - 1;
      var front := steps[..n];
      LastConsultationIs(front);
      forall k: nat | LastAsked(steps, k)
        ensures LastConsultation(steps) == Some(if steps[k].kind.Rejected? then ByRejection else ByApproval)
      {
        if k < n {
          assert !FirstDenyContext.SeamAsked(steps[n].kind);
          assert LastAsked(front, k);
        }
      }
    }
  }

  /** The seam was asked at slot `k`. */
  predicate AskedAt(w: World, host: Host, b: Bound, k: nat, before: Members) {
    var v := Invoke(w, host, k, b, before).verdict;
    SeamOpen(host, before, v) && !IsHostSynthesized(v)
  }

  /** The summaries list exactly the slots that ran, in order and by name, and
      the fold is marked truncated exactly when some registration did not run. */
  lemma {:induction false} RecordedSlots(w: World, host: Host, knob: Knob, active: seq<Bound>, ctx: Members)
    ensures
      var steps := Steps(w, host, knob, active, 0, ctx);
      var out := Run(w, host, knob, active, ctx);
      && |out.verdicts| == |steps|
      && (forall k | 0 <= k < |steps| ::
            var st := Invoke(w, host, k, active[k], if k == 0 then ctx else steps[k - 1].after);
            out.verdicts[k] == Summary(k, st.verdict.decision, st.verdict.reason, active[k].name, st.substitutedFor))
      && out.foldTruncated == Some(|out.verdicts| < |active|)
  {
    hide StepAt, Decide, LastConsultation;
    StepsIsRun(w, host, knob, active, ctx);
    var steps := Steps(w, host, knob, active, 0, ctx);
    forall k | 0 <= k < |steps|
      ensures steps[k].slot == Invoke(w, host, k, active[k], if k == 0 then ctx else steps[k - 1].after)
    {
      assert Ran(w, host, knob, active, ctx, steps, k);
    }
  }

  /** The recorded resolution: none if and only if the seam was never asked, and
      otherwise what the last slot that asked got from it. */
  lemma {:induction false} RecordedConsultation(w: World, host: Host, knob: Knob, active: seq<Bound>, ctx: Members)
    requires GateContract(w.core)
    ensures
      var steps := Steps(w, host, knob, active, 0, ctx);
      var out := Run(w, host, knob, active, ctx);
      && (out.resolvedBy == None <==> forall k | 0 <= k < |steps| :: !AskedAt(w, host, active[k], k, steps[k].before))
      && (forall k: nat | LastAsked(steps, k) ::
            out.resolvedBy == Some(ByApproval) <==>
              exists lift :: Approved(w, host, k, steps[k].before, steps[k].slot.verdict, lift))
  {
    hide StepAt, AskedAt, Invoke, Approved, Decide, Summaries;
    StepsIsRun(w, host, knob, active, ctx);
    var steps := Steps(w, host, knob, active, 0, ctx);
    forall k | 0 <= k < |steps|
      ensures FirstDenyContext.SeamAsked(steps[k].kind) <==> AskedAt(w, host, active[k], k, steps[k].before)
    {
      assert Ran(w, host, knob, active, ctx, steps, k);
      AskedAtIff(w, host, active[k], k, steps[k].before);
    }
    LastConsultationIs(steps);
    forall k: nat | LastAsked(steps, k)
      ensures steps[k].kind.Rejected? <==>
        forall lift :: !Approved(w, host, k, steps[k].before, steps[k].slot.verdict, lift)
    {
      assert Ran(w, host, knob, active, ctx, steps, k);
      RejectedIff(w, host, k, active[k], steps[k].before);
    }
  }

  lemma AskedAtIff(w: World, host: Host, b: Bound, k: nat, before: Members)
    requires GateContract(w.core)
    ensures FirstDenyContext.SeamAsked(StepAt(w, host, k, b, before).kind) <==> AskedAt(w, host, b, k, before)
  {
    hide StepAt;
    FirstDenyContext.AskedIffOpen(w, host, k, b, before);
  }

  lemma RejectedIff(w: World, host: Host, i: nat, b: Bound, ctx: Members)
    requires GateContract(w.core)
    ensures
      var s := StepAt(w, host, i, b, ctx);
      FirstDenyContext.SeamAsked(s.kind) ==>
        (s.kind.Rejected? <==> forall lift :: !Approved(w, host, i, ctx, s.slot.verdict, lift))
  {
    ConsultShape(w, host, i, ctx, Invoke(w, host, i, b, ctx).verdict);
  }

  /** Whose verdict decided: nobody for an emission of plain permits, nobody when
      the seam or a fold failed and the host supplied the verdict, else the slot
      that ended the run, else the last slot whose transform applied. */
  lemma {:induction false} RecordedAttribution(w: World, host: Host, knob: Knob, active: seq<Bound>, ctx: Members)
    requires GateContract(w.core) && CodeContract(w)
    ensures
      var steps := Steps(w, host, knob, active, 0, ctx);
      var out := Run(w, host, knob, active, ctx);
      var ended := steps != [] && Ends(knob, steps[|steps| - 1].kind);
      if ended then
        && (out.decidedBy == None <==>
              IsHostSynthesized(out.combined) && !IsHostSynthesized(steps[|steps| - 1].slot.verdict))
        && (out.decidedBy.Some? ==> out.decidedBy.value == |steps| - 1)
      else
        && (out.decidedBy == None <==> forall k | 0 <= k < |steps| :: !TookTransform(steps[k]))
        && (out.decidedBy.Some? ==>
              && out.decidedBy.value < |steps|
              && TookTransform(steps[out.decidedBy.value])
              && forall k | out.decidedBy.value < k < |steps| :: !TookTransform(steps[k]))
  {
    hide StepAt, Decide, Summaries, LastConsultation, TookTransform, Ends;
    StepsIsRun(w, host, knob, active, ctx);
    var steps := Steps(w, host, knob, active, 0, ctx);
    if steps != [] && Ends(knob, steps[|steps| - 1].kind) {
      var k := |steps| - 1;
      assert Ran(w, host, knob, active, ctx, steps, k);
      EndingReasons(w, host, k, active[k], steps[k].before);
      EndedAttribution(steps, knob);
    } else {
      LastTransformIs(steps);
      FinishedAttribution(steps, knob);
    }
  }

  lemma {:induction false} EndedAttribution(steps: seq<Step>, knob: Knob)
    requires steps != [] && Ends(knob, steps[|steps| - 1].kind)
    requires
      var s := steps[|steps| - 1];
      && (s.kind.LiftBroken? || s.kind.FoldBroken? ==> IsHostSynthesized(s.kind.verdict) && !IsHostSynthesized(s.slot.verdict))
      && (s.kind.Rejected? || s.kind.LiftedBy? || s.kind.Standing? ==> !IsHostSynthesized(s.slot.verdict))
      && (s.kind.LiftedBy? ==> !IsHostSynthesized(s.kind.resolution))
      && (s.kind.Synthesized? ==> IsHostSynthesized(s.slot.verdict))
    ensures
      var d := Decide(steps, knob);
      && (d.1 == None <==> IsHostSynthesized(d.0) && !IsHostSynthesized(steps[|steps| - 1].slot.verdict))
      && (d.1.Some? ==> d.1.value == |steps| - 1)
  {
    UnionsKeepDecisions();
    hide WithUnions, Pool, LastTransform;
  }

  lemma {:induction false} FinishedAttribution(steps: seq<Step>, knob: Knob)
    requires steps != [] ==> !Ends(knob, steps[|steps| - 1].kind)
    ensures Decide(steps, knob).1 == match LastTransform(steps) case None => None case Some(t) => Some(t.0)
  {
    hide WithUnions, Pool, LastTransform;
  }

  /** A failed fold or consultation names a reserved reason; a permit never does. */
  lemma EndingReasons(w: World, host: Host, i: nat, b: Bound, ctx: Members)
    requires GateContract(w.core) && CodeContract(w)
    ensures
      var s := StepAt(w, host, i, b, ctx);
      && (s.kind.LiftBroken? || s.kind.FoldBroken? ==>
            IsHostSynthesized(s.kind.verdict) && !IsHostSynthesized(s.slot.verdict))
      && (s.kind.Rejected? || s.kind.LiftedBy? || s.kind.Standing? ==> !IsHostSynthesized(s.slot.verdict))
      && (s.kind.LiftedBy? ==> !IsHostSynthesized(s.kind.resolution))
      && (s.kind.Synthesized? ==> IsHostSynthesized(s.slot.verdict))
  {
    InvokeShape(w, host, i, b, ctx);
    var st := Invoke(w, host, i, b, ctx);
    ConsultShape(w, host, i, ctx, st.verdict);
    FoldReasons(w, host.mode, ctx, st.verdict);
    var seam := Consult(w, host, i, ctx, st.verdict);
    if seam.result.Consulted? {
      FoldReasons(w, host.mode, seam.ctx, seam.result.verdict);
    }
    hide Invoke, Consult, Fold;
  }

  lemma FoldReasons(w: World, mode: Mode, ctx: Members, v: Verdict)
    requires CodeContract(w)
    ensures
      var f := Fold(w.core, mode, ctx, v).verdict;
      f == v || (f.decision == Deny && IsHostSynthesized(f))
  {
  }

  // ---- metadata unions -----------------------------------------------------------

  /** The run ended at a transform that did not apply. */
  predicate FailedFold(steps: seq<Step>) {
    steps != [] && (steps[|steps| - 1].kind.FoldBroken? || steps[|steps| - 1].kind.LiftBroken?)
  }

  lemma {:induction false} PoolHolds(steps: seq<Step>)
    ensures forall v :: v in Pool(steps) <==> exists k | 0 <= k < |steps| ::
      v == steps[k].slot.verdict || (steps[k].kind.LiftedBy? && v == steps[k].kind.resolution)
    decreases |steps|
  {
    if steps != [] {
      var n := |steps| - 1;
      PoolHolds(steps[..n]);
      forall v | v in Pool(steps)
        ensures exists k | 0 <= k < |steps| ::
          v == steps[k].slot.verdict || (steps[k].kind.LiftedBy? && v == steps[k].kind.resolution)
      {
        if v in Pool(steps[..n]) {
          var k :| 0 <= k < n && (v == steps[..n][k].slot.verdict
                                  || (steps[..n][k].kind.LiftedBy? && v == steps[..n][k].kind.resolution));
          assert steps[..n][k] == steps[k];
        } else {
          assert v in Contributed(steps[n]);
        }
      }
      forall v, k | 0 <= k < |steps| && (v == steps[k].slot.verdict || (steps[k].kind.LiftedBy? && v == steps[k].kind.resolution))
        ensures v in Pool(steps)
      {
        if k < n {
          assert steps[..n][k] == steps[k];
        } else {
          assert v in Contributed(steps[n]);
        }
      }
    }
  }

  lemma {:induction false} InPool(steps: seq<Step>, k: nat)
    requires k < |steps|
    ensures steps[k].slot.verdict in Pool(steps)
    ensures steps[k].kind.LiftedBy? ==> steps[k].kind.resolution in Pool(steps)
  {
    PoolHolds(steps);
  }

  /** Warnings and labels of the returned verdict: the first-seen union over
      everything returned, labels on a permit only, and both dropped when the run
      ends at a transform that did not apply. A rejection's own warnings survive
      only when nothing returned carries any. */
  lemma {:induction false} UnionLaw(w: World, host: Host, knob: Knob, active: seq<Bound>, ctx: Members)
    requires GateContract(w.core)
    ensures
      var steps := Steps(w, host, knob, active, 0, ctx);
      var c := Run(w, host, knob, active, ctx).combined;
      && (FailedFold(steps) ==> c.warnings == [] && c.labels == [])
      && (!FailedFold(steps) && AllWarnings(Pool(steps)) != [] ==> FirstSeen(c.warnings, AllWarnings(Pool(steps))))
      && (!FailedFold(steps) && AllWarnings(Pool(steps)) == [] ==>
            c.warnings == if steps != [] && steps[|steps| - 1].kind.Rejected? then steps[|steps| - 1].kind.verdict.warnings else [])
      && (Permits(c.decision) ==> FirstSeen(c.labels, PermitLabels(Pool(steps))))
  {
    hide StepAt, Decide, AllWarnings, PermitLabels, Pool, FirstSeen, Summaries, LastConsultation, WellFormed, IsLiftable,
         SeamOpen, IsHostSynthesized, GateContract;
    StepsIsRun(w, host, knob, active, ctx);
    var steps := Steps(w, host, knob, active, 0, ctx);
    if steps != [] && Ends(knob, steps[|steps| - 1].kind) {
      var k := |steps| - 1;
      assert Ran(w, host, knob, active, ctx, steps, k);
      StepShape(w, host, k, active[k], steps[k].before);
      BrokenVerdicts(w, host, k, active[k], steps[k].before);
      EndedUnions(steps, knob);
    } else {
      FinishedUnions(steps, knob);
    }
  }

  lemma {:induction false} EndedUnions(steps: seq<Step>, knob: Knob)
    requires steps != [] && Ends(knob, steps[|steps| - 1].kind)
    requires
      var s := steps[|steps| - 1];
      && (s.kind.FoldBroken? || s.kind.LiftBroken? ==>
            s.kind.verdict.warnings == [] && s.kind.verdict.labels == [] && s.kind.verdict.decision == Deny)
      && (s.kind.Synthesized? || s.kind.Standing? ==> s.slot.verdict.decision == Deny)
      && (s.kind.Rejected? ==> s.kind.verdict.decision == Deny)
    ensures
      var s := steps[|steps| - 1];
      var c := Decide(steps, knob).0;
      && (FailedFold(steps) ==> c.warnings == [] && c.labels == [])
      && (!FailedFold(steps) && AllWarnings(Pool(steps)) != [] ==> FirstSeen(c.warnings, AllWarnings(Pool(steps))))
      && (!FailedFold(steps) && AllWarnings(Pool(steps)) == [] ==>
            c.warnings == if s.kind.Rejected? then s.kind.verdict.warnings else [])
      && (Permits(c.decision) ==> FirstSeen(c.labels, PermitLabels(Pool(steps))))
  {
    var s, pool := steps[|steps| - 1], Pool(steps);
    InPool(steps, |steps| - 1);
    EndingVerdict(steps, knob);
    hide WithUnions, AllWarnings, PermitLabels, Pool, FirstSeen, Decide;
    WithUnionsLaw(s.slot.verdict, pool);
    WithUnionsLaw(if s.kind.Rejected? then s.kind.verdict else s.slot.verdict, pool);
    WithUnionsLaw(if s.kind.LiftedBy? then s.kind.resolution else s.slot.verdict, pool);
  }

  /** The verdict of a run its last slot ended. */
  lemma {:induction false} EndingVerdict(steps: seq<Step>, knob: Knob)
    requires steps != [] && Ends(knob, steps[|steps| - 1].kind)
    ensures
      var s := steps[|steps| - 1];
      Decide(steps, knob).0 == match s.kind
        case Rejected(v) => WithUnions(v, Pool(steps))
        case LiftedBy(v) => WithUnions(v, Pool(steps))
        case FoldBroken(v) => v
        case LiftBroken(v) => v
        case _ => WithUnions(s.slot.verdict, Pool(steps))
  {
    hide WithUnions, Pool, LastTransform, IsHostSynthesized;
  }

  lemma {:induction false} FinishedUnions(steps: seq<Step>, knob: Knob)
    requires steps != [] ==> !Ends(knob, steps[|steps| - 1].kind)
    ensures
      var c := Decide(steps, knob).0;
      && (AllWarnings(Pool(steps)) != [] ==> FirstSeen(c.warnings, AllWarnings(Pool(steps))))
      && (AllWarnings(Pool(steps)) == [] ==> c.warnings == [])
      && (Permits(c.decision) ==> FirstSeen(c.labels, PermitLabels(Pool(steps))))
  {
    hide WithUnions, AllWarnings, PermitLabels, Pool, FirstSeen, LastTransform;
    var pool := Pool(steps);
    LastTransformIs(steps);
    match LastTransform(steps)
    case None => WithUnionsLaw(ALLOW, pool);
    case Some(t) => InPool(steps, t.0); WithUnionsLaw(t.1, pool);
  }

  /** `WithUnions` on a verdict of the pool leaves exactly the pool's unions. */
  lemma WithUnionsLaw(v: Verdict, pool: seq<Verdict>)
    ensures
      var c := WithUnions(v, pool);
      && c.decision == v.decision
      && (AllWarnings(pool) != [] ==> FirstSeen(c.warnings, AllWarnings(pool)))
      && (AllWarnings(pool) == [] ==> c.warnings == v.warnings)
      && (v in pool && AllWarnings(pool) == [] ==> v.warnings == [])
      && (Permits(v.decision) && (v in pool || v.labels == []) ==> FirstSeen(c.labels, PermitLabels(pool)))
  {
    UnionsAreAddNew(pool);
    AddNewFirstSeen(AllWarnings(pool));
    AddNewFirstSeen(PermitLabels(pool));
    AddNewGrows([], AllWarnings(pool));
    AddNewGrows([], PermitLabels(pool));
    EmptyPool(pool, v);
    hide FirstSeen;
  }

  lemma {:induction false} EmptyPool(pool: seq<Verdict>, v: Verdict)
    ensures v in pool && AllWarnings(pool) == [] ==> v.warnings == []
    ensures v in pool && PermitLabels(pool) == [] && Permits(v.decision) ==> v.labels == []
    decreases |pool|
  {
    if pool != [] {
      EmptyPool(pool[..|pool| - 1], v);
      assert pool == pool[..|pool| - 1] + [pool[|pool| - 1]];
    }
  }

  lemma {:induction false} AddNewGrows<T>(have: seq<T>, more: seq<T>)
    ensures |AddNew(have, more)| >= |have|
    ensures more != [] ==> AddNew(have, more) != []
    decreases more
  {
    if more != [] {
      AddNewGrows(if more[0] in have then have else have + [more[0]], more[1..]);
    }
  }

  lemma BrokenVerdicts(w: World, host: Host, i: nat, b: Bound, ctx: Members)
    ensures
      var s := StepAt(w, host, i, b, ctx);
      s.kind.FoldBroken? || s.kind.LiftBroken? ==> s.kind.verdict.warnings == [] && s.kind.verdict.labels == []
  {
    var v := Invoke(w, host, i, b, ctx).verdict;
    var seam := Consult(w, host, i, ctx, v);
    if seam.result.Consulted? && seam.result.permitted {
      PermittedIsPermit(w, host, i, ctx, v);
    }
    hide Invoke, Consult;
  }

  lemma PermittedIsPermit(w: World, host: Host, i: nat, ctx: Members, v: Verdict)
    ensures
      var c := Consult(w, host, i, ctx, v).result;
      c.Consulted? && c.permitted ==> Permits(c.verdict.decision)
  {
  }

  // ---- announced substitutions ----------------------------------------------------

  /** The slots of a run as the notices see them. */
  function Visits(steps: seq<Step>): seq<Visit> {
    seq(|steps|, k requires 0 <= k < |steps| => Visit(steps[k].slot, steps[k].before))
  }

  lemma {:induction false} HeardSnoc(w: World, host: Host, active: seq<Bound>, steps: seq<Step>, s: Step)
    requires |steps| < |active|
    ensures HeardUpTo(w, host, active, Visits(steps + [s]), |steps| + 1) ==
      HeardUpTo(w, host, active, Visits(steps), |steps|) + Heard(w, host, |steps|, active[|steps|], s.before)
  {
    hide Heard;
    HeardPrefix(w, host, active, Visits(steps), Visits(steps + [s]), |steps|);
  }

  /** Nothing continues silently: the notices the principal accepted are exactly
      those the record accounts for, slot by slot and in order. */
  lemma {:induction false} NoticesAreAccounted(w: World, host: Host, knob: Knob, active: seq<Bound>, ctx: Members)
    requires GateContract(w.core)
    ensures
      var steps := Steps(w, host, knob, active, 0, ctx);
      HeardUpTo(w, host, active, Visits(steps), |steps|) == Accounted(active, Visits(steps), |steps|)
  {
    hide StepAt;
    StepsIsRun(w, host, knob, active, ctx);
    var steps := Steps(w, host, knob, active, 0, ctx);
    forall k | 0 <= k < |steps| ensures steps[k].slot == Invoke(w, host, k, active[k], steps[k].before) {
      assert Ran(w, host, knob, active, ctx, steps, k);
    }
    VisitsAreAccounted(w, host, active, Visits(steps), |steps|);
  }

  lemma RejectionWarnings(w: World, host: Host, i: nat, b: Bound, ctx: Members)
    requires GateContract(w.core) && host.spec == SPEC_DRAFT
    ensures
      var s := StepAt(w, host, i, b, ctx);
      s.kind.Rejected? ==> forall x | x in s.kind.verdict.warnings :: !(HOST_WARNING <= x.reason)
  {
    ConsultShape(w, host, i, ctx, Invoke(w, host, i, b, ctx).verdict);
  }

  /** A substituted slot carries the control-failure warning. */
  lemma SubstitutedWarns(w: World, host: Host, i: nat, b: Bound, ctx: Members)
    requires GateContract(w.core)
    ensures
      var st := Invoke(w, host, i, b, ctx);
      st.substitutedFor != "" ==> st.verdict.warnings != [] && st.verdict.warnings[0].reason == CONTROL_FAILED
  {
    SlotNotice(w, host, i, b, ctx);
    hide Invoke;
  }

  lemma SubstitutesOnlyWarn()
    ensures forall binding, reason :: (forall x | x in Substitute(binding, reason).warnings :: x.reason == CONTROL_FAILED)
  {
  }

  lemma ReservedPrefix()
    ensures HOST_WARNING <= CONTROL_FAILED
  {
  }

  /** Under the draft the control-failure warning is on the returned verdict if and only if
      some slot was substituted and the run did not end at a transform that failed to
      apply; no other reserved host warning is ever on it. */
  lemma {:induction false} HostWarningIffSubstituted(w: World, host: Host, knob: Knob, active: seq<Bound>, ctx: Members)
    requires GateContract(w.core) && host.spec == SPEC_DRAFT
    ensures
      var steps := Steps(w, host, knob, active, 0, ctx);
      var warnings := Run(w, host, knob, active, ctx).combined.warnings;
      && ((exists x :: x in warnings && x.reason == CONTROL_FAILED) <==>
          (exists k | 0 <= k < |steps| :: steps[k].slot.substitutedFor != "") && !FailedFold(steps))
      && (forall x | x in warnings && HOST_WARNING <= x.reason :: x.reason == CONTROL_FAILED)
  {
    hide StepAt, Run, AllWarnings, Pool, PermitLabels, Steps, WellFormed, SeamOpen, IsLiftable, IsHostSynthesized, NoticeOf, Substitute, IsControlFailure;
    StepsIsRun(w, host, knob, active, ctx);
    UnionLaw(w, host, knob, active, ctx);
    ReservedPrefix();
    SubstitutesOnlyWarn();
    var steps := Steps(w, host, knob, active, 0, ctx);
    var pool := Pool(steps);
    var all := AllWarnings(pool);
    PoolHolds(steps);
    AllWarningsHolds(pool);
    forall k | 0 <= k < |steps|
      ensures steps[k].slot.substitutedFor == "" ==> forall x | x in steps[k].slot.verdict.warnings :: !(HOST_WARNING <= x.reason)
      ensures steps[k].slot.substitutedFor != "" ==> forall x | x in steps[k].slot.verdict.warnings :: x.reason == CONTROL_FAILED
      ensures steps[k].kind.LiftedBy? ==> forall x | x in steps[k].kind.resolution.warnings :: !(HOST_WARNING <= x.reason)
      ensures steps[k].kind.Rejected? ==> forall x | x in steps[k].kind.verdict.warnings :: !(HOST_WARNING <= x.reason)
      ensures steps[k].slot.substitutedFor != "" ==> exists x :: x in all && x.reason == CONTROL_FAILED
    {
      assert Ran(w, host, knob, active, ctx, steps, k);
      SlotNotice(w, host, k, active[k], steps[k].before);
      SubstitutedWarns(w, host, k, active[k], steps[k].before);
      StepShape(w, host, k, active[k], steps[k].before);
      RejectionWarnings(w, host, k, active[k], steps[k].before);
      if steps[k].slot.substitutedFor != "" {
        var v := steps[k].slot.verdict;
        assert v in pool && v.warnings[0] in all;
      }
    }
  }
}
