/** What the record of a run-everything emission says: metadata unions, the warning of a
    substituted slot, and attribution. */
module RunAllRecord {
  import opened Json
  import opened Verdicts
  import opened Hosts
  import opened Slots
  import opened Unions
  import opened FirstDenyLaws
  import FirstDenyRecord
  import Notices
  import opened RunAll
  import opened RunAllLaws

  /** The union contract of aggregation: the combined verdict carries the first-seen union of
      the warnings that went in and, when it permits, of the labels of the permits. */
  ghost predicate UnionContract(core: Core) {
    forall spec, c, all: seq<Verdict> ::
      var r := core.aggregate(spec, c, all);
      r.Ok? ==>
        && FirstSeen(r.value.combined.warnings, AllWarnings(all))
        && (Permits(r.value.combined.decision) ==> FirstSeen(r.value.combined.labels, PermitLabels(all)))
  }

  /** The winner goes to the seam and the seam is open for it. */
  predicate Asked(host: Host, agg: Aggregate, ctx: Members) {
    !agg.applyTransform && agg.consult && SeamOpen(host, ctx, agg.combined)
  }

  /** Nothing failed after the slots: the core aggregated, the winner's transform applies if
      it is to be applied, and so does the transform of an approval of the winner. */
  ghost predicate Survives(w: World, host: Host, i: nat, r: Fallible<Aggregate>, ctx: Members) {
    && r.Ok?
    && (r.value.applyTransform ==> exists c :: Applies(w.core, host.mode, ctx, r.value.combined, c))
    && (Asked(host, r.value, ctx) ==>
          forall lift | Approved(w, host, i, ctx, r.value.combined, lift) && lift.decision == Transform ::
            exists c :: Applies(w.core, host.mode, SeamLeaves(w, host, i, ctx, r.value.combined), lift, c))
  }

  // ---- unions -------------------------------------------------------------------------------

  /** The metadata of the verdict a run-everything emission returns after its slots: none
      when something failed; of everything returned and the lift after an approval; of
      everything returned otherwise, a rejection's own warnings surviving only when
      nothing returned carries any. */
  ghost predicate Unioned(w: World, host: Host, i: nat, r: Fallible<Aggregate>, all: seq<Verdict>, ctx: Members, c: Verdict) {
    if !Survives(w, host, i, r, ctx) then c.warnings == [] && c.labels == []
    else if Asked(host, r.value, ctx) then
      && (forall lift | Approved(w, host, i, ctx, r.value.combined, lift) ::
            FirstSeen(c.warnings, AllWarnings(all + [lift])) && FirstSeen(c.labels, PermitLabels(all + [lift])))
      && ((forall lift :: !Approved(w, host, i, ctx, r.value.combined, lift)) ==>
            if AllWarnings(all) != [] then FirstSeen(c.warnings, AllWarnings(all))
            else OwnWarnings(w, host, i, r.value, ctx, c))
    else
      FirstSeen(c.warnings, AllWarnings(all)) && (Permits(c.decision) ==> FirstSeen(c.labels, PermitLabels(all)))
  }

  /** The warnings of a rejection are its own. */
  predicate OwnWarnings(w: World, host: Host, i: nat, agg: Aggregate, ctx: Members, c: Verdict) {
    var r := Consult(w, host, i, ctx, agg.combined).result;
    r.Consulted? && c.warnings == r.verdict.warnings
  }

  lemma FinishUnionLaw(
    w: World, host: Host, cfg: Composition, active: seq<Bound>, all: seq<Verdict>, substituted: seq<string>, ctx: Members)
    requires GateContract(w.core) && UnionContract(w.core)
    ensures Unioned(w, host, |active|, w.core.aggregate(host.spec, cfg, all), all, ctx,
                    Finish(w, host, cfg, active, all, substituted, ctx).outcome.combined)
  {
    var r := w.core.aggregate(host.spec, cfg, all);
    var i := |active|;
    if r.Ok? {
      var agg := r.value;
      AggregateUnions(w.core, host.spec, cfg, all);
      if Asked(host, agg, ctx) {
        AskedUnions(w, host, cfg, active, all, substituted, ctx, agg);
      } else {
        SeamUnmoved(w, host, i, ctx, agg.combined);
        ConsultShape(w, host, i, ctx, agg.combined);
        FoldApplies(w.core, host.mode, ctx, agg.combined);
        FoldMetadata(w.core, host.mode, ctx, agg.combined);
        hide FirstSeen, AllWarnings, PermitLabels, Consult, Fold, Applies, Approved, SeamOpen, UnionContract, GateContract;
      }
    }
    hide FirstSeen, AllWarnings, PermitLabels, Consult, UnionContract, GateContract;
  }

  /** Composed with the slots: a transform that fails in the fold drops all metadata and
      attribution, and otherwise the aggregate of everything returned decides. */
  lemma SequentialUnionLaw(w: World, host: Host, cfg: Composition, active: seq<Bound>, ctx: Members)
    requires GateContract(w.core) && UnionContract(w.core)
    ensures
      var entries := Entries(w, host, active, 0, ctx);
      var all := Entered(entries);
      var out := Sequential(w, host, cfg, active, ctx).outcome;
      if exists k | 0 <= k < |entries| :: BreaksFold(entries[k])
      then out.combined.warnings == [] && out.combined.labels == [] && out.decidedBy == None
      else Unioned(w, host, |active|, w.core.aggregate(host.spec, cfg, all), all, EndCtx(entries, ctx), out.combined)
  {
    hide EntryAt, Entries, Finish, Unioned, BreaksFold, GateContract, UnionContract;
    EntriesIsFold(w, host, active, ctx);
    var entries := Entries(w, host, active, 0, ctx);
    forall k | 0 <= k < |entries|
      ensures k < |entries| - 1 ==> !BreaksFold(entries[k])
      ensures BreaksFold(entries[k]) ==> entries[k].entered.warnings == [] && entries[k].entered.labels == []
    {
      assert Took(w, host, active, ctx, entries, k);
      BrokenEntry(w, host, k, active[k], entries[k].before);
    }
    FinishUnionLaw(w, host, cfg, active, Entered(entries), Substituted(entries), EndCtx(entries, ctx));
  }

  lemma BrokenEntry(w: World, host: Host, i: nat, b: Bound, ctx: Members)
    ensures
      var e := EntryAt(w, host, i, b, ctx);
      BreaksFold(e) ==> e.entered.warnings == [] && e.entered.labels == []
  {
    FoldMetadata(w.core, host.mode, ctx, Invoke(w, host, i, b, ctx).verdict);
    hide Invoke, Fold;
  }

  lemma ParallelUnionLaw(w: World, host: Host, cfg: Composition, active: seq<Bound>, ctx: Members)
    requires GateContract(w.core) && UnionContract(w.core)
    ensures
      var all := Entered(Snapshots(w, host, active, ctx));
      Unioned(w, host, |active|, w.core.aggregate(host.spec, cfg, all), all, ctx,
              Parallel(w, host, cfg, active, ctx).outcome.combined)
  {
    hide Finish, Unioned, Snapshots, GateContract, UnionContract;
    var entries := Snapshots(w, host, active, ctx);
    FinishUnionLaw(w, host, cfg, active, Entered(entries), Substituted(entries), ctx);
  }

  lemma AggregateUnions(core: Core, spec: string, cfg: Composition, all: seq<Verdict>)
    requires UnionContract(core)
    ensures
      var r := core.aggregate(spec, cfg, all);
      r.Ok? ==>
        && FirstSeen(r.value.combined.warnings, AllWarnings(all))
        && (Permits(r.value.combined.decision) ==> FirstSeen(r.value.combined.labels, PermitLabels(all)))
  {
    hide FirstSeen, AllWarnings, PermitLabels;
  }

  lemma FoldMetadata(core: Core, mode: Mode, ctx: Members, v: Verdict)
    ensures
      var f := Fold(core, mode, ctx, v).verdict;
      f == v || (f.decision == Deny && f.warnings == [] && f.labels == [])
  {
  }

  lemma AskedUnions(
    w: World, host: Host, cfg: Composition, active: seq<Bound>, all: seq<Verdict>, substituted: seq<string>, ctx: Members,
    agg: Aggregate)
    requires GateContract(w.core)
    requires w.core.aggregate(host.spec, cfg, all) == Ok(agg) && Asked(host, agg, ctx)
    ensures
      var c := Finish(w, host, cfg, active, all, substituted, ctx).outcome.combined;
      var i := |active|;
      if !Survives(w, host, i, Ok(agg), ctx) then c.warnings == [] && c.labels == []
      else
        && (forall lift | Approved(w, host, i, ctx, agg.combined, lift) ::
              FirstSeen(c.warnings, AllWarnings(all + [lift])) && FirstSeen(c.labels, PermitLabels(all + [lift])))
        && ((forall lift :: !Approved(w, host, i, ctx, agg.combined, lift)) ==>
              if AllWarnings(all) != [] then FirstSeen(c.warnings, AllWarnings(all))
              else c.warnings == Consult(w, host, i, ctx, agg.combined).result.verdict.warnings)
  {
    var i := |active|;
    ConsultShape(w, host, i, ctx, agg.combined);
    var seam := Consult(w, host, i, ctx, agg.combined);
    hide Consult, Fold, Applies, Approved, WithUnions, FirstSeen, AllWarnings, PermitLabels, GateContract, SeamOpen, WellFormed,
         Named, IsHostSynthesized;
    if seam.result.permitted {
      LiftedUnions(w, host, cfg, active, all, substituted, ctx, agg);
    } else {
      FirstDenyRecord.WithUnionsLaw(seam.result.verdict, all);
    }
  }

  lemma LiftedUnions(
    w: World, host: Host, cfg: Composition, active: seq<Bound>, all: seq<Verdict>, substituted: seq<string>, ctx: Members,
    agg: Aggregate)
    requires GateContract(w.core)
    requires w.core.aggregate(host.spec, cfg, all) == Ok(agg) && Asked(host, agg, ctx)
    requires
      var r := Consult(w, host, |active|, ctx, agg.combined).result;
      r.Consulted? && r.permitted
    ensures
      var c := Finish(w, host, cfg, active, all, substituted, ctx).outcome.combined;
      var i := |active|;
      if !Survives(w, host, i, Ok(agg), ctx) then c.warnings == [] && c.labels == []
      else
        forall lift | Approved(w, host, i, ctx, agg.combined, lift) ::
          FirstSeen(c.warnings, AllWarnings(all + [lift])) && FirstSeen(c.labels, PermitLabels(all + [lift]))
  {
    var i := |active|;
    ConsultShape(w, host, i, ctx, agg.combined);
    var seam := Consult(w, host, i, ctx, agg.combined);
    var v := seam.result.verdict;
    hide Consult, Fold, Applies, Approved, WithUnions, FirstSeen, AllWarnings, PermitLabels, GateContract, SeamOpen, WellFormed,
         Named, IsHostSynthesized;
    ApprovedOnce(w, host, i, ctx, agg.combined, v);
    FoldApplies(w.core, host.mode, seam.ctx, v);
    FoldMetadata(w.core, host.mode, seam.ctx, v);
    FirstDenyRecord.WithUnionsLaw(v, all + [v]);
    assert v in all + [v];
    var f := Fold(w.core, host.mode, seam.ctx, v);
    var broken := v.decision == Transform && !Applies(w.core, host.mode, seam.ctx, v, f.ctx);
    assert broken ==> f.verdict.decision == Deny && f.verdict != v;
    assert SeamLeaves(w, host, i, ctx, agg.combined) == seam.ctx;
    if broken {
      assert Approved(w, host, i, ctx, agg.combined, v) && v.decision == Transform;
      assert forall c :: !Applies(w.core, host.mode, seam.ctx, v, c);
      assert !Survives(w, host, i, Ok(agg), ctx);
    } else {
      forall lift | Approved(w, host, i, ctx, agg.combined, lift) && lift.decision == Transform
        ensures exists c :: Applies(w.core, host.mode, SeamLeaves(w, host, i, ctx, agg.combined), lift, c)
      {
        assert lift == v && Applies(w.core, host.mode, seam.ctx, v, f.ctx);
      }
      assert Survives(w, host, i, Ok(agg), ctx);
    }
  }

  // ---- the warning of a substituted slot ---------------------------------------------------

  predicate Carries(warnings: seq<Warning>) {
    exists x | x in warnings :: x.reason == CONTROL_FAILED
  }

  /** Under the draft the warning of a substituted slot is on what a run-everything emission
      returns after its slots if and only if some verdict that went in carries it and
      nothing failed since. */
  lemma FinishCarriesIff(
    w: World, host: Host, cfg: Composition, active: seq<Bound>, all: seq<Verdict>, substituted: seq<string>, ctx: Members)
    requires GateContract(w.core) && UnionContract(w.core) && host.spec == SPEC_DRAFT
    ensures
      var r := w.core.aggregate(host.spec, cfg, all);
      Carries(Finish(w, host, cfg, active, all, substituted, ctx).outcome.combined.warnings) <==>
        (exists v | v in all :: Carries(v.warnings)) && Survives(w, host, |active|, r, ctx)
  {
    var r := w.core.aggregate(host.spec, cfg, all);
    var i := |active|;
    FinishUnionLaw(w, host, cfg, active, all, substituted, ctx);
    SeenCarries(all);
    if r.Ok? && Asked(host, r.value, ctx) {
      AskedWarnings(w, host, i, ctx, r.value.combined);
      if exists lift :: Approved(w, host, i, ctx, r.value.combined, lift) {
        var lift :| Approved(w, host, i, ctx, r.value.combined, lift);
        assert AllWarnings(all + [lift]) == AllWarnings(all) + lift.warnings by { AllWarningsSnoc(all, lift); }
        SeenIs(AllWarnings(all + [lift]));
      }
    }
    SeenIs(AllWarnings(all));
    hide Finish, FirstSeen, AllWarnings, PermitLabels, Survives, Approved, Consult, SeamOpen, GateContract, UnionContract;
  }

  lemma AllWarningsSnoc(all: seq<Verdict>, v: Verdict)
    ensures AllWarnings(all + [v]) == AllWarnings(all) + v.warnings
  {
    assert (all + [v])[..|all|] == all;
  }

  /** A first-seen list carries the warning exactly when its source does. */
  lemma SeenIs(s: seq<Warning>)
    ensures forall u :: FirstSeen(u, s) ==> (Carries(u) <==> Carries(s))
  {
  }

  lemma SeenCarries(all: seq<Verdict>)
    ensures Carries(AllWarnings(all)) <==> exists v | v in all :: Carries(v.warnings)
  {
    AllWarningsHolds(all);
  }

  /** Neither an approval nor a rejection carries a reserved host warning under the draft. */
  lemma AskedWarnings(w: World, host: Host, i: nat, ctx: Members, v: Verdict)
    requires GateContract(w.core) && host.spec == SPEC_DRAFT && SeamOpen(host, ctx, v)
    ensures Consult(w, host, i, ctx, v).result.Consulted? && !Carries(Consult(w, host, i, ctx, v).result.verdict.warnings)
    ensures forall lift :: Approved(w, host, i, ctx, v, lift) ==> !Carries(lift.warnings)
  {
    ConsultShape(w, host, i, ctx, v);
    FirstDenyRecord.ReservedPrefix();
    var c := Consult(w, host, i, ctx, v).result;
    forall lift | Approved(w, host, i, ctx, v, lift) ensures lift == c.verdict && c.permitted {
      if c.permitted { ApprovedOnce(w, host, i, ctx, v, c.verdict); }
    }
    hide Consult, Approved, SeamOpen, GateContract;
  }

  /** A slot's verdict carries the warning exactly when the slot was substituted. */
  lemma SlotCarriesIff(w: World, host: Host, i: nat, b: Bound, ctx: Members)
    requires GateContract(w.core) && host.spec == SPEC_DRAFT
    ensures
      var st := Invoke(w, host, i, b, ctx);
      && (Carries(st.verdict.warnings) <==> st.substitutedFor != "")
      && (st.substitutedFor != "" ==> st.verdict.decision == Allow)
  {
    Notices.SlotNotice(w, host, i, b, ctx);
    FirstDenyRecord.SubstitutedWarns(w, host, i, b, ctx);
    FirstDenyRecord.ReservedPrefix();
    hide Invoke, NoticeOf, Label;
  }

  /** `parallel/strictest` and `parallel/unanimous`: the warning is on the combined verdict if
      and only if some slot was substituted and neither the aggregation nor a transform
      applied after it failed. */
  lemma ParallelCarriesIff(w: World, host: Host, cfg: Composition, active: seq<Bound>, ctx: Members)
    requires GateContract(w.core) && UnionContract(w.core) && host.spec == SPEC_DRAFT
    ensures
      var entries := Snapshots(w, host, active, ctx);
      var r := w.core.aggregate(host.spec, cfg, Entered(entries));
      Carries(Parallel(w, host, cfg, active, ctx).outcome.combined.warnings) <==>
        (exists k | 0 <= k < |entries| :: entries[k].slot.substitutedFor != "") && Survives(w, host, |active|, r, ctx)
  {
    hide Finish, Survives, Carries, Invoke, GateContract, UnionContract;
    var entries := Snapshots(w, host, active, ctx);
    var all := Entered(entries);
    FinishCarriesIff(w, host, cfg, active, all, Substituted(entries), ctx);
    forall k | 0 <= k < |entries|
      ensures all[k] in all && (Carries(all[k].warnings) <==> entries[k].slot.substitutedFor != "")
    {
      SlotCarriesIff(w, host, k, active[k], ctx);
    }
  }

  /** `sequential/run_all`: the same, and a transform that fails in the fold drops it too. */
  lemma SequentialCarriesIff(w: World, host: Host, cfg: Composition, active: seq<Bound>, ctx: Members)
    requires GateContract(w.core) && UnionContract(w.core) && host.spec == SPEC_DRAFT
    ensures
      var entries := Entries(w, host, active, 0, ctx);
      var r := w.core.aggregate(host.spec, cfg, Entered(entries));
      Carries(Sequential(w, host, cfg, active, ctx).outcome.combined.warnings) <==>
        && (exists k | 0 <= k < |entries| :: entries[k].slot.substitutedFor != "")
        && (forall k | 0 <= k < |entries| :: !BreaksFold(entries[k]))
        && Survives(w, host, |active|, r, EndCtx(entries, ctx))
  {
    hide EntryAt, Entries, Finish, Survives, Carries, Invoke, BreaksFold, GateContract, UnionContract;
    EntriesIsFold(w, host, active, ctx);
    var entries := Entries(w, host, active, 0, ctx);
    var all := Entered(entries);
    FinishCarriesIff(w, host, cfg, active, all, Substituted(entries), EndCtx(entries, ctx));
    forall k | 0 <= k < |entries|
      ensures k < |entries| - 1 ==> !BreaksFold(entries[k])
      ensures BreaksFold(entries[k]) ==> !Carries(all[k].warnings)
      ensures !BreaksFold(entries[k]) ==> (Carries(all[k].warnings) <==> entries[k].slot.substitutedFor != "")
      ensures all[k] in all
    {
      assert Took(w, host, active, ctx, entries, k);
      EntryCarries(w, host, k, active[k], entries[k].before);
    }
  }

  lemma EntryCarries(w: World, host: Host, i: nat, b: Bound, ctx: Members)
    requires GateContract(w.core) && host.spec == SPEC_DRAFT
    ensures
      var e := EntryAt(w, host, i, b, ctx);
      && (BreaksFold(e) ==> !Carries(e.entered.warnings))
      && (!BreaksFold(e) ==> (Carries(e.entered.warnings) <==> e.slot.substitutedFor != ""))
  {
    SlotCarriesIff(w, host, i, b, ctx);
    FoldMetadata(w.core, host.mode, ctx, Invoke(w, host, i, b, ctx).verdict);
    hide Invoke, Fold;
  }

  // ---- summaries ---------------------------------------------------------------------------

  /** The summary contract of aggregation: one summary for each verdict that went in, by
      index, without names or substitutions, which the core does not know. */
  ghost predicate SummaryContract(core: Core) {
    forall spec, c, all: seq<Verdict> ::
      var r := core.aggregate(spec, c, all);
      r.Ok? ==>
        && |r.value.verdicts| == |all|
        && forall k | 0 <= k < |all| :: r.value.verdicts[k] == Summary(k, all[k].decision, all[k].reason, "", "")
  }

  /** The summaries list the slots: what entered aggregation, the registration's name, and
      the reason a substituted slot stands in for. */
  predicate Lists(active: seq<Bound>, entries: seq<Entry>, sums: seq<Summary>) {
    && |sums| == |entries| <= |active|
    && forall k | 0 <= k < |entries| ::
         sums[k] == Summary(k, entries[k].entered.decision, entries[k].entered.reason, active[k].name, entries[k].slot.substitutedFor)
  }

  lemma {:induction false} NamedLists(active: seq<Bound>, entries: seq<Entry>, sums: seq<Summary>)
    requires |entries| <= |active| && |sums| == |entries|
    requires forall k | 0 <= k < |entries| ::
      sums[k] == Summary(k, entries[k].entered.decision, entries[k].entered.reason, "", "")
    ensures Lists(active, entries, Named(sums, active, Substituted(entries)))
  {
  }

  /** Every run-everything emission lists its slots, however it ends. */
  lemma SummariesList(w: World, host: Host, cfg: Composition, active: seq<Bound>, ctx: Members)
    requires SummaryContract(w.core)
    ensures Lists(active, Entries(w, host, active, 0, ctx), Sequential(w, host, cfg, active, ctx).outcome.verdicts)
    ensures Lists(active, Snapshots(w, host, active, ctx), Parallel(w, host, cfg, active, ctx).outcome.verdicts)
  {
    hide EntryAt, Entries, Snapshots, Lists, Finish, BreaksFold, SummaryContract;
    EntriesIsFold(w, host, active, ctx);
    var folded := Entries(w, host, active, 0, ctx);
    FinishLists(w, host, cfg, active, folded, EndCtx(folded, ctx));
    NamedLists(active, folded, PlainSummaries(Entered(folded)));
    var apart := Snapshots(w, host, active, ctx);
    assert |apart| == |active| by { SnapshotsLength(w, host, active, ctx); }
    FinishLists(w, host, cfg, active, apart, ctx);
  }

  lemma SnapshotsLength(w: World, host: Host, active: seq<Bound>, ctx: Members)
    ensures |Snapshots(w, host, active, ctx)| == |active|
  {
  }

  lemma {:induction false} FinishLists(w: World, host: Host, cfg: Composition, active: seq<Bound>, entries: seq<Entry>, ctx: Members)
    requires SummaryContract(w.core) && |entries| <= |active|
    ensures Lists(active, entries, Finish(w, host, cfg, active, Entered(entries), Substituted(entries), ctx).outcome.verdicts)
  {
    hide Named, Consult, Fold, WithUnions, Lists;
    var all := Entered(entries);
    var r := w.core.aggregate(host.spec, cfg, all);
    NamedLists(active, entries, if r.Ok? then r.value.verdicts else PlainSummaries(all));
  }

  // ---- attribution -----------------------------------------------------------------------------

  /** Whose verdict decided, after the slots: nobody when the aggregation or the winner's
      transform failed, or when the host supplied the verdict of a consultation that did not
      permit; otherwise whoever the core named, a lifted or broken resolution included. */
  lemma FinishAttribution(
    w: World, host: Host, cfg: Composition, active: seq<Bound>, all: seq<Verdict>, substituted: seq<string>, ctx: Members)
    requires GateContract(w.core)
    ensures
      var r := w.core.aggregate(host.spec, cfg, all);
      var out := Finish(w, host, cfg, active, all, substituted, ctx).outcome;
      var i := |active|;
      if !r.Ok? then out.decidedBy == None
      else if r.value.applyTransform then
        out.decidedBy == if (exists c :: Applies(w.core, host.mode, ctx, r.value.combined, c)) && Permits(r.value.combined.decision)
                         then r.value.decidedBy else None
      else if Asked(host, r.value, ctx) && forall lift :: !Approved(w, host, i, ctx, r.value.combined, lift) then
        out.decidedBy == if IsHostSynthesized(out.combined) then None else r.value.decidedBy
      else out.decidedBy == r.value.decidedBy
  {
    var r := w.core.aggregate(host.spec, cfg, all);
    var i := |active|;
    if r.Ok? {
      UnionsKeepDecisions();
      ConsultShape(w, host, i, ctx, r.value.combined);
      FoldApplies(w.core, host.mode, ctx, r.value.combined);
      ApprovalNeedsTheSeam(w, host, i, ctx, r.value.combined);
    }
    hide Consult, Fold, Applies, Approved, WithUnions, Named, SeamOpen, GateContract, WellFormed;
    assert forall v, pool :: IsHostSynthesized(WithUnions(v, pool)) <==> IsHostSynthesized(v);
  }

  // ---- a failed aggregation --------------------------------------------------------------------

  /** A core that does not aggregate denies with its reason, or as an invalid verdict when it
      gives none, and leaves the context alone. */
  lemma AggregationFailure(
    w: World, host: Host, cfg: Composition, active: seq<Bound>, all: seq<Verdict>, substituted: seq<string>, ctx: Members)
    ensures
      var r := w.core.aggregate(host.spec, cfg, all);
      var done := Finish(w, host, cfg, active, all, substituted, ctx);
      !r.Ok? ==>
        && done.ctx == ctx && done.outcome.combined.decision == Deny && done.outcome.combined.approval.None?
        && done.outcome.combined.reason == (if r.Refused? then r.code else "host_error:verdict_invalid")
  {
    Notices.VerdictReason();
    hide Consult, Fold, WithUnions, Named, VERDICT_INVALID;
  }
}
