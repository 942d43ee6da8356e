/** The profiles in which every interceptor runs: `sequential/run_all`, with a
    fold, and the parallel ones, without; then aggregation and at most one
    consultation of the approval seam. */
module RunAll {
  import opened Json
  import opened Verdicts
  import opened Hosts
  import opened Slots
  import opened Unions

  /** One slot of the run: how it settled, and what it contributes to aggregation. */
  datatype Entry = Entry(slot: Settled, entered: Verdict, before: Members, after: Members)

  function EntryAt(w: World, host: Host, i: nat, b: Bound, ctx: Members): (e: Entry)
    ensures e.slot == Invoke(w, host, i, b, ctx) && e.before == ctx
  {
    var st := Invoke(w, host, i, b, ctx);
    if st.verdict.decision == Transform then
      var f := Fold(w.core, host.mode, ctx, st.verdict);
      Entry(st, f.verdict, ctx, f.ctx)
    else
      Entry(st, st.verdict, ctx, ctx)
  }

  /** The slot's transform did not apply. */
  predicate BreaksFold(e: Entry) {
    e.slot.verdict.decision == Transform && !Permits(e.entered.decision)
  }

  function Entries(w: World, host: Host, active: seq<Bound>, i: nat, ctx: Members): (r: seq<Entry>)
    requires i <= |active|
    ensures |r| <= |active| - i
    ensures i < |active| ==> |r| > 0
    decreases |active| - i
  {
    if i == |active| then []
    else
      var e := EntryAt(w, host, i, active[i], ctx);
      if BreaksFold(e) then [e] else [e] + Entries(w, host, active, i + 1, e.after)
  }

  /** A parallel slot: settled against the snapshot, nothing folded. */
  function SnapshotAt(w: World, host: Host, i: nat, b: Bound, ctx: Members): Entry {
    var st := Invoke(w, host, i, b, ctx);
    Entry(st, st.verdict, ctx, ctx)
  }

  function Snapshots(w: World, host: Host, active: seq<Bound>, ctx: Members): seq<Entry> {
    seq(|active|, i requires 0 <= i < |active| => SnapshotAt(w, host, i, active[i], ctx))
  }

  function Entered(entries: seq<Entry>): (all: seq<Verdict>)
    ensures |all| == |entries|
  {
    seq(|entries|, k requires 0 <= k < |entries| => entries[k].entered)
  }

  function Substituted(entries: seq<Entry>): (r: seq<string>)
    ensures |r| == |entries|
  {
    seq(|entries|, k requires 0 <= k < |entries| => entries[k].slot.substitutedFor)
  }

  /** Names and substitutions attached to summaries by their index. */
  function Named(sums: seq<Summary>, active: seq<Bound>, substituted: seq<string>): seq<Summary> {
    seq(|sums|, k requires 0 <= k < |sums| =>
      var s := sums[k];
      s.(name := if s.index < |active| && active[s.index].name != "" then active[s.index].name else s.name,
         substitutedFor := if s.index < |substituted| && substituted[s.index] != "" then substituted[s.index] else s.substitutedFor))
  }

  function PlainSummaries(all: seq<Verdict>): seq<Summary> {
    seq(|all|, k requires 0 <= k < |all| => Summary(k, all[k].decision, all[k].reason, "", ""))
  }

  /** The outcome and the live context the emission leaves. */
  datatype Done = Done(outcome: Outcome, ctx: Members)

  /** Aggregation in the core, then the winner's transform or the seam. The
      consultation is numbered after the last slot. */
  function Finish(
    w: World, host: Host, cfg: Composition, active: seq<Bound>, all: seq<Verdict>, substituted: seq<string>, ctx: Members): Done
  {
    var r := w.core.aggregate(host.spec, cfg, all);
    if !r.Ok? then
      Done(Outcome(CoreErrVerdict(r, VERDICT_INVALID), None, Named(PlainSummaries(all), active, substituted), None, None), ctx)
    else
      var agg := r.value;
      var sums := Named(agg.verdicts, active, substituted);
      if agg.applyTransform then
        var f := Fold(w.core, host.mode, ctx, agg.combined);
        Done(Outcome(f.verdict, if Permits(f.verdict.decision) then agg.decidedBy else None, sums, None, None), f.ctx)
      else if !agg.consult then
        Done(Outcome(agg.combined, agg.decidedBy, sums, None, None), ctx)
      else
        var seam := Consult(w, host, |active|, ctx, agg.combined);
        match seam.result
        case NotConsulted => Done(Outcome(agg.combined, agg.decidedBy, sums, None, None), seam.ctx)
        case Consulted(v, permitted) =>
          if !permitted then
            Done(Outcome(WithUnions(v, all), if IsHostSynthesized(v) then None else agg.decidedBy, sums, None, Some(ByRejection)), seam.ctx)
          else
            var f := if v.decision == Transform then Fold(w.core, host.mode, seam.ctx, v) else Folding(v, seam.ctx);
            var combined := if Permits(f.verdict.decision) then WithUnions(f.verdict, all + [f.verdict]) else f.verdict;
            Done(Outcome(combined, agg.decidedBy, sums, None, Some(ByApproval)), f.ctx)
  }

  function EndCtx(entries: seq<Entry>, ctx: Members): Members {
    if entries == [] then ctx else entries[|entries| - 1].after
  }

  /** A run of the fold with its outcome: a transform that does not apply ends it
      without aggregation. */
  function Conclude(w: World, host: Host, cfg: Composition, active: seq<Bound>, entries: seq<Entry>, ctx: Members): Done {
    var end := EndCtx(entries, ctx);
    if entries != [] && BreaksFold(entries[|entries| - 1]) then
      var broken := entries[|entries| - 1].entered;
      Done(Outcome(broken, None, Named(PlainSummaries(Entered(entries)), active, Substituted(entries)), None, None), end)
    else
      Finish(w, host, cfg, active, Entered(entries), Substituted(entries), end)
  }

  function Sequential(w: World, host: Host, cfg: Composition, active: seq<Bound>, ctx: Members): Done {
    Conclude(w, host, cfg, active, Entries(w, host, active, 0, ctx), ctx)
  }

  function Parallel(w: World, host: Host, cfg: Composition, active: seq<Bound>, ctx: Members): Done {
    var entries := Snapshots(w, host, active, ctx);
    Finish(w, host, cfg, active, Entered(entries), Substituted(entries), ctx)
  }
}
