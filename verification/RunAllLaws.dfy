/** Laws of the run-everything profiles, and how they compare with
    `sequential/first_deny` and with the snapshot dispatch of the other SDKs. */
module RunAllLaws {
  import opened Json
  import opened Verdicts
  import opened Hosts
  import opened Slots
  import opened Unions
  import opened Notices
  import opened FirstDeny
  import opened FirstDenyLaws
  import opened FirstDenyContext
  import FirstDenyRecord
  import opened RunAll

  // ---- the run, without its recursion --------------------------------------------

  ghost predicate Took(w: World, host: Host, active: seq<Bound>, ctx: Members, entries: seq<Entry>, k: nat)
    requires k < |entries| <= |active|
  {
    && entries[k].before == (if k == 0 then ctx else entries[k - 1].after)
    && entries[k] == EntryAt(w, host, k, active[k], entries[k].before)
    && (k < |entries| - 1 ==> !BreaksFold(entries[k]))
  }

  ghost predicate IsFold(w: World, host: Host, active: seq<Bound>, ctx: Members, entries: seq<Entry>) {
    && |entries| <= |active|
    && (forall k | 0 <= k < |entries| :: Took(w, host, active, ctx, entries, k))
    && (|entries| < |active| ==> entries != [] && BreaksFold(entries[|entries| - 1]))
  }

  /** One slot of the recursion. */
  lemma EntriesUnfold(w: World, host: Host, active: seq<Bound>, i: nat, ctx: Members)
    requires i < |active|
    ensures
      var e := EntryAt(w, host, i, active[i], ctx);
      Entries(w, host, active, i, ctx) == if BreaksFold(e) then [e] else [e] + Entries(w, host, active, i + 1, e.after)
  {
    hide EntryAt, BreaksFold;
  }

  /** One more slot leaves the slots before it as they were. */
  lemma TookSnoc(w: World, host: Host, active: seq<Bound>, ctx: Members, done: seq<Entry>, e: Entry)
    requires |done| < |active|
    requires forall k | 0 <= k < |done| :: Took(w, host, active, ctx, done, k)
    requires done != [] ==> !BreaksFold(done[|done| - 1])
    requires e == EntryAt(w, host, |done|, active[|done|], EndCtx(done, ctx))
    ensures forall k | 0 <= k <= |done| :: Took(w, host, active, ctx, done + [e], k)
  {
    hide EntryAt, BreaksFold;
    forall k | 0 <= k < |done| ensures Took(w, host, active, ctx, done + [e], k) {
      assert Took(w, host, active, ctx, done, k);
    }
  }

  lemma {:induction false} EntriesExtend(w: World, host: Host, active: seq<Bound>, ctx: Members, done: seq<Entry>)
    requires |done| <= |active|
    requires forall k | 0 <= k < |done| :: Took(w, host, active, ctx, done, k)
    requires done != [] ==> !BreaksFold(done[|done| - 1])
    ensures IsFold(w, host, active, ctx, done + Entries(w, host, active, |done|, EndCtx(done, ctx)))
    decreases |active| - |done|
  {
    hide EntryAt, BreaksFold, Entries, Took;
    var i := |done|;
    var rest := Entries(w, host, active, i, EndCtx(done, ctx));
    if i == |active| {
      assert done + rest == done;
    } else {
      var e := EntryAt(w, host, i, active[i], EndCtx(done, ctx));
      EntriesUnfold(w, host, active, i, EndCtx(done, ctx));
      TookSnoc(w, host, active, ctx, done, e);
      if !BreaksFold(e) {
        EntriesExtend(w, host, active, ctx, done + [e]);
        assert done + rest == done + [e] + Entries(w, host, active, i + 1, e.after);
      }
    }
  }

  lemma EntriesIsFold(w: World, host: Host, active: seq<Bound>, ctx: Members)
    ensures IsFold(w, host, active, ctx, Entries(w, host, active, 0, ctx))
  {
    hide EntryAt;
    EntriesExtend(w, host, active, ctx, []);
    assert [] + Entries(w, host, active, 0, ctx) == Entries(w, host, active, 0, ctx);
  }

  // ---- the fold as a loop meets it --------------------------------------------------

  /** `entries` are the slots of the fold before slot `|entries|`, none of which broke
      it, and `ctx` is the live context they leave. */
  predicate OnFold(w: World, host: Host, active: seq<Bound>, init: Members, entries: seq<Entry>, ctx: Members) {
    && |entries| <= |active|
    && Entries(w, host, active, 0, init) == entries + Entries(w, host, active, |entries|, ctx)
    && ctx == EndCtx(entries, init)
    && (entries != [] ==> !BreaksFold(entries[|entries| - 1]))
  }

  /** The fold's slots as the notices see them. */
  function Visits(entries: seq<Entry>): (r: seq<Visit>)
    ensures |r| == |entries|
  {
    seq(|entries|, k requires 0 <= k < |entries| => Visit(entries[k].slot, entries[k].before))
  }

  lemma FoldStarts(w: World, host: Host, active: seq<Bound>, init: Members)
    ensures OnFold(w, host, active, init, [], init)
    ensures Entered([]) == [] && Substituted([]) == []
    ensures HeardUpTo(w, host, active, Visits([]), 0) == []
  {
    hide EntryAt;
    assert [] + Entries(w, host, active, 0, init) == Entries(w, host, active, 0, init);
  }

  lemma {:induction false} FoldStep(w: World, host: Host, active: seq<Bound>, init: Members, entries: seq<Entry>, ctx: Members)
    requires OnFold(w, host, active, init, entries, ctx) && |entries| < |active|
    ensures
      var e := EntryAt(w, host, |entries|, active[|entries|], ctx);
      if BreaksFold(e) then Entries(w, host, active, 0, init) == entries + [e]
      else OnFold(w, host, active, init, entries + [e], e.after)
  {
    hide EntryAt, BreaksFold, Entries;
    var e := EntryAt(w, host, |entries|, active[|entries|], ctx);
    EntriesUnfold(w, host, active, |entries|, ctx);
    if !BreaksFold(e) {
      var rest := Entries(w, host, active, |entries| + 1, e.after);
      assert entries + ([e] + rest) == (entries + [e]) + rest;
    }
  }

  lemma {:induction false} FoldEnds(w: World, host: Host, active: seq<Bound>, init: Members, entries: seq<Entry>, ctx: Members)
    requires OnFold(w, host, active, init, entries, ctx) && |entries| == |active|
    ensures Entries(w, host, active, 0, init) == entries
    ensures ctx == EndCtx(entries, init) && (entries != [] ==> !BreaksFold(entries[|entries| - 1]))
  {
    hide EntryAt, BreaksFold;
  }

  lemma {:induction false} ConcludeBroken(w: World, host: Host, cfg: Composition, active: seq<Bound>, entries: seq<Entry>, init: Members)
    requires entries != [] && BreaksFold(entries[|entries| - 1])
    ensures
      var e := entries[|entries| - 1];
      Conclude(w, host, cfg, active, entries, init) == Done(
        Outcome(e.entered, None, Named(PlainSummaries(Entered(entries)), active, Substituted(entries)), None, None), e.after)
  {
  }

  lemma {:induction false} ConcludeWhole(w: World, host: Host, cfg: Composition, active: seq<Bound>, entries: seq<Entry>, init: Members)
    requires entries != [] ==> !BreaksFold(entries[|entries| - 1])
    ensures Conclude(w, host, cfg, active, entries, init) ==
      Finish(w, host, cfg, active, Entered(entries), Substituted(entries), EndCtx(entries, init))
  {
  }

  lemma {:induction false} VisitStep(w: World, host: Host, active: seq<Bound>, entries: seq<Entry>, e: Entry)
    requires |entries| < |active|
    ensures Entered(entries + [e]) == Entered(entries) + [e.entered]
    ensures Substituted(entries + [e]) == Substituted(entries) + [e.slot.substitutedFor]
    ensures HeardUpTo(w, host, active, Visits(entries + [e]), |entries| + 1) ==
      HeardUpTo(w, host, active, Visits(entries), |entries|) + Heard(w, host, |entries|, active[|entries|], e.before)
  {
    hide Heard;
    EnteredSnoc(entries, e);
    var before, after := Visits(entries), Visits(entries + [e]);
    assert before <= after && after[|entries|] == Visit(e.slot, e.before);
    HeardPrefix(w, host, active, before, after, |entries|);
    hide Visits, Entered, Substituted;
  }

  lemma {:induction false} EnteredSnoc(entries: seq<Entry>, e: Entry)
    ensures Entered(entries + [e]) == Entered(entries) + [e.entered]
    ensures Substituted(entries + [e]) == Substituted(entries) + [e.slot.substitutedFor]
  {
  }

  lemma {:induction false} HeardNothing(w: World, host: Host, active: seq<Bound>, entries: seq<Entry>)
    requires |entries| <= |active|
    ensures HeardUpTo(w, host, active, Visits(entries), 0) == []
  {
  }

  lemma {:induction false} HeardNext(w: World, host: Host, active: seq<Bound>, entries: seq<Entry>, i: nat)
    requires i < |entries| <= |active|
    ensures HeardUpTo(w, host, active, Visits(entries), i + 1) ==
      HeardUpTo(w, host, active, Visits(entries), i) + Heard(w, host, i, active[i], entries[i].before)
  {
    hide Heard;
  }

  /** Under the run-everything profiles too the notices accepted are exactly those
      the slots account for. */
  lemma {:induction false} NoticesAreAccounted(w: World, host: Host, active: seq<Bound>, ctx: Members)
    requires GateContract(w.core)
    ensures
      var folded, apart := Entries(w, host, active, 0, ctx), Snapshots(w, host, active, ctx);
      && HeardUpTo(w, host, active, Visits(folded), |folded|) == Accounted(active, Visits(folded), |folded|)
      && HeardUpTo(w, host, active, Visits(apart), |apart|) == Accounted(active, Visits(apart), |apart|)
  {
    hide EntryAt, Invoke;
    EntriesIsFold(w, host, active, ctx);
    var folded, apart := Entries(w, host, active, 0, ctx), Snapshots(w, host, active, ctx);
    forall k | 0 <= k < |folded| ensures folded[k].slot == Invoke(w, host, k, active[k], folded[k].before) {
      assert Took(w, host, active, ctx, folded, k);
    }
    VisitsAreAccounted(w, host, active, Visits(folded), |folded|);
    VisitsAreAccounted(w, host, active, Visits(apart), |apart|);
  }

  // ---- fail closed ------------------------------------------------------------------

  /** The aggregate lets the action through and leaves `after` as the live context: the
      winner's own transform applied, or an approval of the winner lifts it, or it permits
      as it stands. The consultation is numbered `i`. */
  ghost predicate Carried(w: World, host: Host, i: nat, agg: Aggregate, before: Members, after: Members) {
    if agg.applyTransform then
      Permits(agg.combined.decision) && Applies(w.core, host.mode, before, agg.combined, after)
    else if agg.consult && SeamOpen(host, before, agg.combined) then
      exists lift :: Lifts(w, host, i, before, agg.combined, lift, after)
    else
      Permits(agg.combined.decision) && after == before
  }

  /** How the live context moves after the slots: by the winner's transform when it
      applies, or by what the seam leaves for the winner and then by the transform of the
      resolution approved for it when that applies, and by nothing else. */
  ghost predicate Moved(w: World, host: Host, i: nat, agg: Aggregate, before: Members, after: Members) {
    if agg.applyTransform then
      if exists c :: Applies(w.core, host.mode, before, agg.combined, c)
      then Applies(w.core, host.mode, before, agg.combined, after) else after == before
    else if agg.consult && SeamOpen(host, before, agg.combined) then
      var live := SeamLeaves(w, host, i, before, agg.combined);
      if exists lift, c :: ApprovedMove(w, host, i, before, agg.combined, lift, c)
      then exists lift :: ApprovedMove(w, host, i, before, agg.combined, lift, after) else after == live
    else after == before
  }

  /** The approved resolution is a transform that takes what the seam left to `after`. */
  predicate ApprovedMove(w: World, host: Host, i: nat, before: Members, v: Verdict, lift: Verdict, after: Members) {
    && Approved(w, host, i, before, v, lift)
    && lift.decision == Transform
    && Applies(w.core, host.mode, SeamLeaves(w, host, i, before, v), lift, after)
  }

  /** Everything after the slots, in every profile: what is permitted, how the context
      moves and what is recorded of the seam, from the winner the core returned. */
  lemma FinishLaw(
    w: World, host: Host, cfg: Composition, active: seq<Bound>, all: seq<Verdict>, substituted: seq<string>, ctx: Members)
    requires GateContract(w.core)
    ensures
      var done := Finish(w, host, cfg, active, all, substituted, ctx);
      var r := w.core.aggregate(host.spec, cfg, all);
      && (Permits(done.outcome.combined.decision) <==> r.Ok? && Carried(w, host, |active|, r.value, ctx, done.ctx))
      && (if r.Ok? then Moved(w, host, |active|, r.value, ctx, done.ctx) else done.ctx == ctx)
      && (done.outcome.resolvedBy == None <==>
            !(r.Ok? && !r.value.applyTransform && r.value.consult && SeamOpen(host, ctx, r.value.combined)))
      && (done.outcome.resolvedBy == Some(ByApproval) <==>
            && r.Ok? && !r.value.applyTransform && r.value.consult
            && exists lift :: Approved(w, host, |active|, ctx, r.value.combined, lift))
  {
    var r := w.core.aggregate(host.spec, cfg, all);
    if r.Ok? {
      var agg := r.value;
      UnionsKeepDecisions();
      if agg.applyTransform {
        FoldKeeps(w.core, host.mode, ctx, agg.combined);
        FoldApplies(w.core, host.mode, ctx, agg.combined);
        hide Fold, Consult, Applies;
      } else if agg.consult {
        ConsultedLaw(w, host, cfg, active, all, substituted, ctx, agg);
      }
    }
  }

  /** Folding applies exactly when some context is the result. */
  lemma FoldApplies(core: Core, mode: Mode, ctx: Members, v: Verdict)
    ensures
      var f := Fold(core, mode, ctx, v);
      && ((exists c :: Applies(core, mode, ctx, v, c)) <==> Applies(core, mode, ctx, v, f.ctx))
      && (Applies(core, mode, ctx, v, f.ctx) ==> f.verdict == v)
      && (!Applies(core, mode, ctx, v, f.ctx) ==> f.ctx == ctx && f.verdict.decision == Deny)
      && (forall c :: Applies(core, mode, ctx, v, c) ==> c == f.ctx)
  {
  }

  lemma ConsultedLaw(
    w: World, host: Host, cfg: Composition, active: seq<Bound>, all: seq<Verdict>, substituted: seq<string>, ctx: Members,
    agg: Aggregate)
    requires GateContract(w.core)
    requires w.core.aggregate(host.spec, cfg, all) == Ok(agg) && !agg.applyTransform && agg.consult
    ensures
      var done := Finish(w, host, cfg, active, all, substituted, ctx);
      && (Permits(done.outcome.combined.decision) <==> Carried(w, host, |active|, agg, ctx, done.ctx))
      && Moved(w, host, |active|, agg, ctx, done.ctx)
      && (done.outcome.resolvedBy == None <==> !SeamOpen(host, ctx, agg.combined))
      && (done.outcome.resolvedBy == Some(ByApproval) <==> exists lift :: Approved(w, host, |active|, ctx, agg.combined, lift))
  {
    hide Consult, Fold, WithUnions, Named, Approved, Applies, IsHostSynthesized, SeamOpen, WellFormed, GateContract, CoreErrVerdict;
    var i := |active|;
    UnionsKeepDecisions();
    ConsultShape(w, host, i, ctx, agg.combined);
    SeamUnmoved(w, host, i, ctx, agg.combined);
    var seam := Consult(w, host, i, ctx, agg.combined);
    if seam.result.Consulted? && seam.result.permitted {
      var v := seam.result.verdict;
      ApprovedOnce(w, host, i, ctx, agg.combined, v);
      FoldApplies(w.core, host.mode, seam.ctx, v);
      var done := Finish(w, host, cfg, active, all, substituted, ctx);
      assert Lifts(w, host, i, ctx, agg.combined, v, done.ctx) <==>
        (v.decision == Transform ==> Applies(w.core, host.mode, seam.ctx, v, done.ctx));
      assert v.decision == Transform ==> done.ctx == Fold(w.core, host.mode, seam.ctx, v).ctx;
      assert ApprovedMove(w, host, i, ctx, agg.combined, v, done.ctx) <==>
        v.decision == Transform && Applies(w.core, host.mode, seam.ctx, v, done.ctx);
      assert forall lift, c :: ApprovedMove(w, host, i, ctx, agg.combined, lift, c) ==> lift == v;
    } else {
      assert SeamOpen(host, ctx, agg.combined) ==> forall lift :: !Approved(w, host, i, ctx, agg.combined, lift);
      if !SeamOpen(host, ctx, agg.combined) { ApprovalNeedsTheSeam(w, host, i, ctx, agg.combined); }
    }
  }

  lemma SeamUnmoved(w: World, host: Host, i: nat, ctx: Members, v: Verdict)
    ensures Consult(w, host, i, ctx, v).result.NotConsulted? ==> Consult(w, host, i, ctx, v).ctx == ctx
  {
  }

  lemma ApprovalNeedsTheSeam(w: World, host: Host, i: nat, ctx: Members, v: Verdict)
    ensures !SeamOpen(host, ctx, v) ==> forall lift :: !Approved(w, host, i, ctx, v, lift)
  {
  }

  lemma ApprovedOnce(w: World, host: Host, i: nat, ctx: Members, v: Verdict, lift: Verdict)
    requires Approved(w, host, i, ctx, v, lift)
    ensures forall other :: Approved(w, host, i, ctx, v, other) ==> other == lift
  {
  }

  lemma FoldKeeps(core: Core, mode: Mode, ctx: Members, v: Verdict)
    ensures
      var f := Fold(core, mode, ctx, v);
      && (f.verdict == v || f.verdict.decision == Deny)
      && (f.verdict != v ==> f.ctx == ctx)
      && (f.verdict == v && v.decision != Deny ==> Applies(core, mode, ctx, v, f.ctx))
  {
  }

  /** A slot that does not bar the emission: an allow, a transform that applied, or
      a deny an approval may lift. */
  ghost predicate Admissible(w: World, host: Host, i: nat, b: Bound, before: Members, after: Members) {
    var v := Invoke(w, host, i, b, before).verdict;
    || (v.decision == Allow && after == before)
    || (v.decision == Transform && Applies(w.core, host.mode, before, v, after))
    || (IsLiftable(v) && after == before)
  }

  lemma EntryShape(w: World, host: Host, i: nat, b: Bound, ctx: Members)
    requires GateContract(w.core)
    ensures
      var e := EntryAt(w, host, i, b, ctx);
      && (Permits(e.entered.decision) || IsLiftable(e.entered) ==> Admissible(w, host, i, b, ctx, e.after))
      && (Permits(e.entered.decision) <==> e.slot.verdict.decision == Allow || (e.slot.verdict.decision == Transform && !BreaksFold(e)))
      && (e.slot.verdict.decision != Transform ==> e.entered == e.slot.verdict)
      && (BreaksFold(e) ==> e.entered.decision == Deny && e.after == ctx)
  {
    InvokeShape(w, host, i, b, ctx);
    FoldKeeps(w.core, host.mode, ctx, Invoke(w, host, i, b, ctx).verdict);
    hide Invoke, Fold;
  }

  /** Fail closed under `sequential/run_all`, for any core: the profile permits exactly when
      every registration ran without a failed fold and the aggregate of what they returned
      carries the action from the context the fold ended with. */
  lemma RunAllPermitsIff(w: World, host: Host, cfg: Composition, active: seq<Bound>, ctx: Members)
    requires GateContract(w.core)
    ensures
      var entries := Entries(w, host, active, 0, ctx);
      var done := Sequential(w, host, cfg, active, ctx);
      var r := w.core.aggregate(host.spec, cfg, Entered(entries));
      Permits(done.outcome.combined.decision) <==>
        && |entries| == |active|
        && (forall k | 0 <= k < |entries| :: !BreaksFold(entries[k]))
        && r.Ok? && Carried(w, host, |active|, r.value, EndCtx(entries, ctx), done.ctx)
  {
    hide EntryAt, Finish, BreaksFold, Carried, Moved, Approved;
    EntriesIsFold(w, host, active, ctx);
    var entries := Entries(w, host, active, 0, ctx);
    FinishLaw(w, host, cfg, active, Entered(entries), Substituted(entries), EndCtx(entries, ctx));
    forall k | 0 <= k < |entries|
      ensures k < |entries| - 1 ==> !BreaksFold(entries[k])
      ensures BreaksFold(entries[k]) ==> entries[k].entered.decision == Deny
    {
      assert Took(w, host, active, ctx, entries, k);
      EntryShape(w, host, k, active[k], entries[k].before);
    }
  }

  /** Fail closed in the parallel profiles, for any core. */
  lemma ParallelPermitsIff(w: World, host: Host, cfg: Composition, active: seq<Bound>, ctx: Members)
    requires GateContract(w.core)
    ensures
      var done := Parallel(w, host, cfg, active, ctx);
      var r := w.core.aggregate(host.spec, cfg, Entered(Snapshots(w, host, active, ctx)));
      Permits(done.outcome.combined.decision) <==> r.Ok? && Carried(w, host, |active|, r.value, ctx, done.ctx)
  {
    hide Finish, Carried, Moved, Snapshots, Approved;
    var entries := Snapshots(w, host, active, ctx);
    FinishLaw(w, host, cfg, active, Entered(entries), Substituted(entries), ctx);
  }

  /** An approval of the winner over `all` lifts what was denied. */
  ghost predicate WinnerLifted(
    w: World, host: Host, cfg: Composition, active: seq<Bound>, all: seq<Verdict>, before: Members, after: Members)
  {
    var r := w.core.aggregate(host.spec, cfg, all);
    r.Ok? && r.value.consult && exists lift :: Lifts(w, host, |active|, before, r.value.combined, lift, after)
  }

  /** What a carried aggregate says about the verdicts that went in. */
  lemma CarriedVerdicts(
    w: World, host: Host, cfg: Composition, active: seq<Bound>, all: seq<Verdict>, before: Members, after: Members)
    requires SeverityContract(w.core)
    requires
      var r := w.core.aggregate(host.spec, cfg, all);
      r.Ok? && Carried(w, host, |active|, r.value, before, after)
    ensures cfg.profile in {SequentialRunAll, ParallelStrictest} ==> forall v | v in all :: Permits(v.decision) || IsLiftable(v)
    ensures cfg.profile == ParallelUnanimous && !WinnerLifted(w, host, cfg, active, all, before, after) ==>
      forall v | v in all :: v.decision == Allow
    ensures cfg.profile != SequentialFirstDeny && (exists v | v in all :: !Permits(v.decision)) ==>
      WinnerLifted(w, host, cfg, active, all, before, after)
  {
    hide Lifts, Applies, SeamOpen, IsLiftable;
  }

  /** Under `sequential/run_all` a permit means every registration ran, every slot is
      admissible, and any deny among them was lifted by an approval of the winner bound to
      the context the fold ended with. */
  lemma RunAllFailsClosed(w: World, host: Host, cfg: Composition, active: seq<Bound>, ctx: Members)
    requires GateContract(w.core) && SeverityContract(w.core)
    requires cfg.profile == SequentialRunAll
    ensures
      var entries := Entries(w, host, active, 0, ctx);
      var done := Sequential(w, host, cfg, active, ctx);
      Permits(done.outcome.combined.decision) ==>
        && |entries| == |active|
        && (forall k | 0 <= k < |entries| :: Admissible(w, host, k, active[k], entries[k].before, entries[k].after))
        && ((exists k | 0 <= k < |entries| :: IsLiftable(entries[k].slot.verdict)) ==>
              WinnerLifted(w, host, cfg, active, Entered(entries), EndCtx(entries, ctx), done.ctx))
  {
    hide EntryAt, Admissible, Sequential, BreaksFold, Carried, WinnerLifted, GateContract, SeverityContract;
    RunAllPermitsIff(w, host, cfg, active, ctx);
    EntriesIsFold(w, host, active, ctx);
    var entries := Entries(w, host, active, 0, ctx);
    var all := Entered(entries);
    var done := Sequential(w, host, cfg, active, ctx);
    if Permits(done.outcome.combined.decision) {
      CarriedVerdicts(w, host, cfg, active, all, EndCtx(entries, ctx), done.ctx);
    }
    forall k | 0 <= k < |entries|
      ensures Permits(all[k].decision) || IsLiftable(all[k]) ==>
        Admissible(w, host, k, active[k], entries[k].before, entries[k].after)
      ensures IsLiftable(entries[k].slot.verdict) ==> !Permits(all[k].decision)
      ensures all[k] in all
    {
      assert Took(w, host, active, ctx, entries, k);
      EntryShape(w, host, k, active[k], entries[k].before);
    }
  }

  /** In the parallel profiles every interceptor judges the same untransformed context.
      A permit means nobody returned a plain deny under `parallel/strictest`, everybody
      allowed under `parallel/unanimous`, or an approval of the winner lifts the rest. */
  lemma ParallelFailsClosed(w: World, host: Host, cfg: Composition, active: seq<Bound>, ctx: Members)
    requires GateContract(w.core) && SeverityContract(w.core)
    requires cfg.profile in {ParallelStrictest, ParallelUnanimous}
    ensures
      var done := Parallel(w, host, cfg, active, ctx);
      var lifted := WinnerLifted(w, host, cfg, active, Entered(Snapshots(w, host, active, ctx)), ctx, done.ctx);
      Permits(done.outcome.combined.decision) ==>
        forall k | 0 <= k < |active| ::
          var v := Invoke(w, host, k, active[k], ctx).verdict;
          if cfg.profile == ParallelStrictest then Permits(v.decision) || (IsLiftable(v) && lifted)
          else v.decision == Allow || lifted
  {
    hide Parallel, Invoke, Carried, WinnerLifted, GateContract, SeverityContract, IsLiftable;
    ParallelPermitsIff(w, host, cfg, active, ctx);
    var all := Entered(Snapshots(w, host, active, ctx));
    var done := Parallel(w, host, cfg, active, ctx);
    if Permits(done.outcome.combined.decision) {
      CarriedVerdicts(w, host, cfg, active, all, ctx, done.ctx);
    }
    forall k | 0 <= k < |active|
      ensures all[k] == Invoke(w, host, k, active[k], ctx).verdict && all[k] in all
    {
    }
  }

  // ---- truncation -------------------------------------------------------------------

  /** Section 7.4 wants `fold_truncated` true when a registration did not run, in this
      profile too. The outcome says so exactly in the emissions in which no registration
      before the last breaks the fold, for then all ran; it never marks one that broke. */
  lemma TruncationIsToldIff(w: World, host: Host, cfg: Composition, active: seq<Bound>, ctx: Members)
    ensures
      var entries := Entries(w, host, active, 0, ctx);
      var told := Sequential(w, host, cfg, active, ctx).outcome.foldTruncated == Some(true);
      (told <==> |entries| < |active|) <==>
        forall k | 0 <= k < |entries| && k < |active| - 1 :: !BreaksFold(entries[k])
  {
    hide EntryAt, BreaksFold, Entries;
    EntriesIsFold(w, host, active, ctx);
    var entries := Entries(w, host, active, 0, ctx);
    NeverTruncated(w, host, cfg, active, ctx);
    forall k | 0 <= k < |entries| - 1 ensures !BreaksFold(entries[k]) {
      assert Took(w, host, active, ctx, entries, k);
    }
    if |entries| < |active| {
      assert BreaksFold(entries[|entries| - 1]) && |entries| - 1 < |active| - 1;
    }
  }

  lemma NeverTruncated(w: World, host: Host, cfg: Composition, active: seq<Bound>, ctx: Members)
    ensures Sequential(w, host, cfg, active, ctx).outcome.foldTruncated == None
  {
    hide Entries, Consult, Fold, WithUnions, Named, BreaksFold;
  }

  // ---- the context -------------------------------------------------------------------

  function EntryEdits(host: Host, entries: seq<Entry>, n: nat): seq<Edit>
    requires n <= |entries|
  {
    if n == 0 then []
    else
      var e := entries[n - 1];
      EntryEdits(host, entries, n - 1) +
      if host.mode == Enforce && e.slot.verdict.decision == Transform && !BreaksFold(e) && e.slot.verdict.transform.Some?
      then [Applied(e.slot.verdict.transform.value)] else []
  }

  /** Under `sequential/run_all` every slot sees the starting context with exactly
      the transforms of the earlier slots applied, and a transform that fails
      changes nothing. */
  lemma {:induction false} FoldIsReplay(w: World, host: Host, active: seq<Bound>, ctx: Members, n: nat)
    requires GateContract(w.core)
    requires n <= |Entries(w, host, active, 0, ctx)|
    ensures
      var entries := Entries(w, host, active, 0, ctx);
      && Replay(w.core, ctx, EntryEdits(host, entries, n)) == Some(EndCtx(entries[..n], ctx))
      && (n < |entries| ==> entries[n].before == EndCtx(entries[..n], ctx))
  {
    hide EntryAt, BreaksFold;
    var entries := Entries(w, host, active, 0, ctx);
    EntriesIsFold(w, host, active, ctx);
    if n < |entries| { assert Took(w, host, active, ctx, entries, n); }
    if n > 0 {
      FoldIsReplay(w, host, active, ctx, n - 1);
      assert Took(w, host, active, ctx, entries, n - 1);
      var e := entries[n - 1];
      EntryMoves(w, host, n - 1, active[n - 1], e.before);
      var edits := EntryEdits(host, entries, n - 1);
      if host.mode == Enforce && e.slot.verdict.decision == Transform && !BreaksFold(e) && e.slot.verdict.transform.Some? {
        ReplayAppend(w.core, ctx, edits, Applied(e.slot.verdict.transform.value));
      } else {
        assert edits + [] == edits;
      }
      assert entries[..n][n - 1] == e;
    }
  }

  lemma EntryMoves(w: World, host: Host, i: nat, b: Bound, ctx: Members)
    requires GateContract(w.core)
    ensures
      var e := EntryAt(w, host, i, b, ctx);
      if host.mode == Enforce && e.slot.verdict.decision == Transform && !BreaksFold(e) && e.slot.verdict.transform.Some?
      then w.core.applyTransform(ctx, e.slot.verdict.transform.value) == Ok(e.after)
      else e.after == ctx
  {
    InvokeShape(w, host, i, b, ctx);
    hide Invoke;
  }

  /** In evaluate_only the fold leaves the context alone. */
  lemma {:induction false} FoldIsInert(w: World, host: Host, active: seq<Bound>, i: nat, ctx: Members)
    requires GateContract(w.core) && host.mode == EvaluateOnly && i <= |active|
    ensures EndCtx(Entries(w, host, active, i, ctx), ctx) == ctx
    decreases |active| - i
  {
    hide EntryAt, BreaksFold;
    if i < |active| {
      EntryMoves(w, host, i, active[i], ctx);
      FoldIsInert(w, host, active, i + 1, ctx);
    }
  }

  /** Where a run-everything emission leaves the live context: the starting one with the
      transforms of the fold replayed, then moved by the winner or the seam; a failed fold
      or a refused aggregation moves it no further. */
  lemma SequentialContext(w: World, host: Host, cfg: Composition, active: seq<Bound>, ctx: Members)
    requires GateContract(w.core)
    ensures
      var entries := Entries(w, host, active, 0, ctx);
      var end := EndCtx(entries, ctx);
      var r := w.core.aggregate(host.spec, cfg, Entered(entries));
      var done := Sequential(w, host, cfg, active, ctx);
      && Replay(w.core, ctx, EntryEdits(host, entries, |entries|)) == Some(end)
      && (if (entries != [] && BreaksFold(entries[|entries| - 1])) || !r.Ok? then done.ctx == end
          else Moved(w, host, |active|, r.value, end, done.ctx))
  {
    hide EntryAt, Finish, BreaksFold, Carried, Moved, Approved;
    var entries := Entries(w, host, active, 0, ctx);
    FoldIsReplay(w, host, active, ctx, |entries|);
    assert entries[..|entries|] == entries;
    FinishLaw(w, host, cfg, active, Entered(entries), Substituted(entries), EndCtx(entries, ctx));
  }

  lemma ParallelContext(w: World, host: Host, cfg: Composition, active: seq<Bound>, ctx: Members)
    requires GateContract(w.core)
    ensures
      var r := w.core.aggregate(host.spec, cfg, Entered(Snapshots(w, host, active, ctx)));
      var done := Parallel(w, host, cfg, active, ctx);
      if r.Ok? then Moved(w, host, |active|, r.value, ctx, done.ctx) else done.ctx == ctx
  {
    hide Finish, Carried, Moved, Snapshots, Approved;
    var entries := Snapshots(w, host, active, ctx);
    FinishLaw(w, host, cfg, active, Entered(entries), Substituted(entries), ctx);
  }

  /** In evaluate_only nothing moves the context after the slots and nothing is resolved. */
  lemma FinishIsInert(
    w: World, host: Host, cfg: Composition, active: seq<Bound>, all: seq<Verdict>, substituted: seq<string>, ctx: Members)
    requires GateContract(w.core) && host.mode == EvaluateOnly
    ensures
      var done := Finish(w, host, cfg, active, all, substituted, ctx);
      done.ctx == ctx && done.outcome.resolvedBy == None
  {
    hide Finish, Carried;
    FinishLaw(w, host, cfg, active, all, substituted, ctx);
  }

  lemma SequentialIsInert(w: World, host: Host, cfg: Composition, active: seq<Bound>, ctx: Members)
    requires GateContract(w.core) && host.mode == EvaluateOnly
    ensures Sequential(w, host, cfg, active, ctx).ctx == ctx
    ensures Sequential(w, host, cfg, active, ctx).outcome.resolvedBy == None
  {
    hide EntryAt, Finish;
    var entries := Entries(w, host, active, 0, ctx);
    FoldIsInert(w, host, active, 0, ctx);
    FinishIsInert(w, host, cfg, active, Entered(entries), Substituted(entries), ctx);
  }

  lemma ParallelIsInert(w: World, host: Host, cfg: Composition, active: seq<Bound>, ctx: Members)
    requires GateContract(w.core) && host.mode == EvaluateOnly
    ensures Parallel(w, host, cfg, active, ctx).ctx == ctx
    ensures Parallel(w, host, cfg, active, ctx).outcome.resolvedBy == None
  {
    hide Finish;
    var entries := Snapshots(w, host, active, ctx);
    FinishIsInert(w, host, cfg, active, Entered(entries), Substituted(entries), ctx);
  }

  // ---- against first_deny ------------------------------------------------------------

  /** How many leading slots of a first_deny run passed or folded. */
  function QuietLength(steps: seq<Step>): (n: nat)
    ensures n <= |steps|
    ensures n < |steps| ==> !(steps[n].kind.Passed? || steps[n].kind.Folded?)
    ensures forall k | 0 <= k < n :: steps[k].kind.Passed? || steps[k].kind.Folded?
  {
    if steps == [] || !(steps[0].kind.Passed? || steps[0].kind.Folded?) then 0
    else 1 + QuietLength(steps[1..])
  }

  /** A step and an entry made from the same slot in the same state agree while
      nothing is denied. */
  lemma SameSlot(w: World, host: Host, i: nat, b: Bound, ctx: Members)
    requires GateContract(w.core)
    ensures
      var s, e := StepAt(w, host, i, b, ctx), EntryAt(w, host, i, b, ctx);
      var quiet := s.kind.Passed? || s.kind.Folded?;
      && s.slot == e.slot
      && (quiet <==> Permits(e.entered.decision))
      && (quiet ==> s.after == e.after && !BreaksFold(e))
  {
    StepShape(w, host, i, b, ctx);
    EntryShape(w, host, i, b, ctx);
    var st := Invoke(w, host, i, b, ctx);
    hide Invoke, Consult;
  }

  /** The same slots on the same contexts up to and including the slot at which the
      first run meets a deny or a failed fold; without one, to the end of `n` slots. */
  ghost predicate InStep(steps: seq<Step>, entries: seq<Entry>, n: nat) {
    var q := QuietLength(steps);
    && q <= |entries|
    && (forall k | 0 <= k < q ::
          && steps[k].slot == entries[k].slot
          && steps[k].before == entries[k].before
          && steps[k].after == entries[k].after
          && Permits(entries[k].entered.decision))
    && (q < |steps| ==>
          && q < |entries|
          && steps[q].slot == entries[q].slot
          && steps[q].before == entries[q].before
          && !Permits(entries[q].entered.decision))
    && (q == |steps| ==> |steps| == |entries| == n)
  }

  lemma {:induction false} InStepCons(s: Step, e: Entry, steps: seq<Step>, entries: seq<Entry>, n: nat)
    requires s.slot == e.slot && s.before == e.before && s.after == e.after
    requires (s.kind.Passed? || s.kind.Folded?) && Permits(e.entered.decision)
    requires InStep(steps, entries, n)
    ensures InStep([s] + steps, [e] + entries, n + 1)
  {
    var ss, es := [s] + steps, [e] + entries;
    assert ss[1..] == steps;
    var q := QuietLength(ss);
    forall k | 0 <= k < q
      ensures ss[k].slot == es[k].slot && ss[k].before == es[k].before && ss[k].after == es[k].after
      ensures Permits(es[k].entered.decision)
    {
      if k > 0 { assert ss[k] == steps[k - 1] && es[k] == entries[k - 1]; }
    }
  }

  lemma InStepNone()
    ensures InStep([], [], 0)
  {
  }

  lemma {:induction false} InStepStops(steps: seq<Step>, entries: seq<Entry>, n: nat)
    requires steps != [] && entries != []
    requires steps[0].slot == entries[0].slot && steps[0].before == entries[0].before
    requires !(steps[0].kind.Passed? || steps[0].kind.Folded?) && !Permits(entries[0].entered.decision)
    ensures InStep(steps, entries, n)
  {
  }

  /** The two sequential profiles run in lockstep. */
  lemma {:induction false} Lockstep(w: World, host: Host, knob: Knob, active: seq<Bound>, i: nat, ctx: Members)
    requires GateContract(w.core) && i <= |active|
    ensures InStep(Steps(w, host, knob, active, i, ctx), Entries(w, host, active, i, ctx), |active| - i)
    decreases |active| - i
  {
    hide StepAt, EntryAt, BreaksFold, Steps, Entries, InStep;
    if i == |active| {
      InStepNone();
      assert Steps(w, host, knob, active, i, ctx) == [] && Entries(w, host, active, i, ctx) == [];
    } else {
      SameSlot(w, host, i, active[i], ctx);
      StepsUnfold(w, host, knob, active, i, ctx);
      EntriesUnfold(w, host, active, i, ctx);
      var s, e := StepAt(w, host, i, active[i], ctx), EntryAt(w, host, i, active[i], ctx);
      if s.kind.Passed? || s.kind.Folded? {
        Lockstep(w, host, knob, active, i + 1, s.after);
        InStepCons(s, e, Steps(w, host, knob, active, i + 1, s.after), Entries(w, host, active, i + 1, s.after), |active| - i - 1);
      } else {
        InStepStops(Steps(w, host, knob, active, i, ctx), Entries(w, host, active, i, ctx), |active| - i);
      }
    }
  }

  /** The fold collects only permits and no transform failed. */
  predicate AllPermit(active: seq<Bound>, entries: seq<Entry>) {
    |entries| == |active| && forall k | 0 <= k < |entries| :: Permits(entries[k].entered.decision)
  }

  /** first_deny permits without asking the seam exactly when run_all collects only
      permits; both then run the same slots through the same contexts. */
  lemma ProfilesAgreeOnPermits(w: World, host: Host, knob: Knob, active: seq<Bound>, ctx: Members)
    requires GateContract(w.core)
    ensures
      var steps, entries := Steps(w, host, knob, active, 0, ctx), Entries(w, host, active, 0, ctx);
      var out := Run(w, host, knob, active, ctx);
      && (Permits(out.combined.decision) && out.resolvedBy == None <==> AllPermit(active, entries))
      && (AllPermit(active, entries) ==>
            && |steps| == |entries|
            && (forall k | 0 <= k < |steps| :: steps[k].slot == entries[k].slot && steps[k].before == entries[k].before)
            && FinalCtx(steps, ctx) == EndCtx(entries, ctx))
  {
    hide StepAt, EntryAt, BreaksFold, Decide, Summaries, QuietLength, LastConsultation;
    Lockstep(w, host, knob, active, 0, ctx);
    StepsIsRun(w, host, knob, active, ctx);
    var steps := Steps(w, host, knob, active, 0, ctx);
    DecisionOf(w, host, knob, active, ctx, steps);
    forall k | 0 <= k < |steps| - 1 ensures !Ends(knob, steps[k].kind) {
      assert Ran(w, host, knob, active, ctx, steps, k);
    }
    QuietTrace(knob, steps);
  }

  lemma {:induction false} QuietTrace(knob: Knob, steps: seq<Step>)
    requires forall k | 0 <= k < |steps| - 1 :: !Ends(knob, steps[k].kind)
    ensures QuietLength(steps) == |steps| <==>
      && (steps == [] || !Ends(knob, steps[|steps| - 1].kind) || steps[|steps| - 1].kind.LiftedBy?)
      && LastConsultation(steps) == None
  {
    hide LastConsultation;
    QuietAsksNothing(steps);
  }

  /** A run of passes and folds asks nothing; an emission that ends without asking
      and still permits consists of passes and folds. */
  lemma {:induction false} QuietAsksNothing(steps: seq<Step>)
    ensures QuietLength(steps) == |steps| ==> LastConsultation(steps) == None
    ensures LastConsultation(steps) == None ==> forall k | 0 <= k < |steps| :: !steps[k].kind.LiftedBy?
  {
    FirstDenyRecord.LastConsultationIs(steps);
  }
}
