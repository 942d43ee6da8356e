/** The interception emitter as the object it is: fields its setters update, a live
    context changed in place, and dispatch loops over accumulators, each proved
    against the functions the laws are about. */
module Emitter {
  import opened Json
  import opened Verdicts
  import opened Hosts
  import opened Rereading
  import opened ContextHeap
  import opened Unions
  import opened Notices
  import Slots
  import FirstDeny
  import FirstDenyLaws
  import FirstDenyRecord
  import RunAll
  import RunAllLaws
  import Emission
  import EmissionLaws
  import Lifecycle

  /** How an emission ends for its caller. */
  datatype Emitted = Proceeding(record: Record, target: Json) | Blocked(record: Record) | Infrastructure

  method UnionWarningsLoop(pool: seq<Verdict>) returns (out: seq<Warning>)
    ensures out == UnionWarnings(pool)
  {
    out := [];
    for i := 0 to |pool|
      invariant out == UnionWarnings(pool[..i])
    {
      assert pool[..i + 1][..i] == pool[..i];
      var ws := pool[i].warnings;
      for j := 0 to |ws|
        invariant AddNew(out, ws[j..]) == UnionWarnings(pool[..i + 1])
      {
        assert ws[j..][1..] == ws[j + 1..];
        if ws[j] !in out {
          out := out + [ws[j]];
        }
      }
    }
    assert pool[..|pool|] == pool;
  }

  method UnionLabelsLoop(pool: seq<Verdict>) returns (out: seq<string>)
    ensures out == UnionLabels(pool)
  {
    out := [];
    for i := 0 to |pool|
      invariant out == UnionLabels(pool[..i])
    {
      assert pool[..i + 1][..i] == pool[..i];
      if Permits(pool[i].decision) {
        var ls := pool[i].labels;
        for j := 0 to |ls|
          invariant AddNew(out, ls[j..]) == UnionLabels(pool[..i + 1])
        {
          assert ls[j..][1..] == ls[j + 1..];
          if ls[j] !in out {
            out := out + [ls[j]];
          }
        }
      }
    }
    assert pool[..|pool|] == pool;
  }

  method ApplyUnions(verdict: Verdict, pool: seq<Verdict>) returns (combined: Verdict)
    ensures combined == WithUnions(verdict, pool)
  {
    combined := verdict;
    var warnings := UnionWarningsLoop(pool);
    if warnings != [] {
      combined := combined.(warnings := warnings);
    }
    if Permits(combined.decision) {
      var labels := UnionLabelsLoop(pool);
      if labels != [] {
        combined := combined.(labels := labels);
      }
    }
  }

  /** A first_deny dispatch returned what the profile computes, left the context the
      run ends with, and announced the run's continuations. */
  ghost predicate RanFirstDeny(
    w: World, host: Host, knob: Knob, active: seq<Bound>, before: Members,
    out: Outcome, after: Members, heardBefore: seq<Notice>, heardAfter: seq<Notice>)
  {
    var steps := FirstDeny.Steps(w, host, knob, active, 0, before);
    && out == FirstDeny.Run(w, host, knob, active, before)
    && after == FirstDeny.FinalCtx(steps, before)
    && heardAfter == heardBefore + HeardUpTo(w, host, active, FirstDenyRecord.Visits(steps), |steps|)
  }

  /** A first_deny loop between slots: the trace so far, and what has been announced. */
  ghost predicate OnTrack(
    w: World, host: Host, knob: Knob, active: seq<Bound>, before: Members,
    steps: seq<FirstDeny.Step>, ctx: Members, heardBefore: seq<Notice>, heard: seq<Notice>)
  {
    && FirstDenyLaws.OnTrack(w, host, knob, active, before, steps, ctx)
    && heard == heardBefore + HeardUpTo(w, host, active, FirstDenyRecord.Visits(steps), |steps|)
  }

  lemma TrackStarts(w: World, host: Host, knob: Knob, active: seq<Bound>, before: Members, heard: seq<Notice>)
    ensures OnTrack(w, host, knob, active, before, [], before, heard, heard)
  {
    hide FirstDenyLaws.OnTrack;
    FirstDenyLaws.TrackStarts(w, host, knob, active, before);
    assert heard + [] == heard;
  }

  lemma TrackStep(
    w: World, host: Host, knob: Knob, active: seq<Bound>, before: Members,
    steps: seq<FirstDeny.Step>, ctx: Members, heardBefore: seq<Notice>, heard: seq<Notice>)
    requires OnTrack(w, host, knob, active, before, steps, ctx, heardBefore, heard) && |steps| < |active|
    ensures
      var i := |steps|;
      var s := FirstDeny.StepAt(w, host, i, active[i], ctx);
      var next, h := steps + [s], heard + Slots.Heard(w, host, i, active[i], ctx);
      if FirstDeny.Ends(knob, s.kind) then
        RanFirstDeny(w, host, knob, active, before, FirstDeny.OutcomeOf(next, knob, active), s.after, heardBefore, h)
      else OnTrack(w, host, knob, active, before, next, s.after, heardBefore, h)
  {
    hide FirstDeny.StepAt, FirstDeny.OutcomeOf, Slots.Heard, FirstDenyLaws.OnTrack, HeardUpTo;
    FirstDenyLaws.TrackStep(w, host, knob, active, before, steps, ctx);
    FirstDenyRecord.HeardSnoc(w, host, active, steps, FirstDeny.StepAt(w, host, |steps|, active[|steps|], ctx));
  }

  lemma TrackEnds(
    w: World, host: Host, knob: Knob, active: seq<Bound>, before: Members,
    steps: seq<FirstDeny.Step>, ctx: Members, heardBefore: seq<Notice>, heard: seq<Notice>)
    requires OnTrack(w, host, knob, active, before, steps, ctx, heardBefore, heard) && |steps| == |active|
    ensures RanFirstDeny(w, host, knob, active, before, FirstDeny.OutcomeOf(steps, knob, active), ctx, heardBefore, heard)
    ensures steps != [] ==> !FirstDeny.Ends(knob, steps[|steps| - 1].kind)
  {
    hide FirstDeny.StepAt, FirstDeny.OutcomeOf, HeardUpTo;
    FirstDenyLaws.TrackEnds(w, host, knob, active, before, steps, ctx);
  }

  /** A run-everything dispatch: what it returned, the context it left, what it announced. */
  ghost predicate RanAll(
    w: World, host: Host, active: seq<Bound>, entries: seq<RunAll.Entry>, done: RunAll.Done,
    out: Outcome, after: Members, heardBefore: seq<Notice>, heardAfter: seq<Notice>)
  {
    && |entries| <= |active|
    && RunAll.Done(out, after) == done
    && heardAfter == heardBefore + HeardUpTo(w, host, active, RunAllLaws.Visits(entries), |entries|)
  }

  class InterceptionEmitter {
    var bound: seq<Bound>
    var mode: Mode
    var spec: string
    var identity: Provider
    var hasResolver: bool
    var hasRedactor: bool
    var hasNotifier: bool
    var composition: Composition
    var maxRecords: int
    var records: seq<Record>
    var recordsDropped: nat
    var sealed: bool
    var declaration: Option<string>

    /** Every notice the notifier accepted, oldest first. */
    ghost var heard: seq<Notice>

    function State(): Lifecycle.State
      reads this
    {
      Lifecycle.State(bound, mode, spec, identity, hasResolver, hasRedactor, hasNotifier, composition,
                      maxRecords, records, recordsDropped, sealed, declaration)
    }

    /** What dispatch reads of the configuration. */
    function Config(): Host
      reads `mode, `spec, `identity, `hasResolver, `hasRedactor, `hasNotifier
    {
      Host(mode, spec, identity, hasResolver, hasRedactor, hasNotifier)
    }

    constructor (spec: string, mode: Mode, hasResolver: bool)
      requires spec == SPEC_01 || spec == SPEC_DRAFT
      ensures State() == Lifecycle.New(spec, mode, hasResolver) && heard == []
    {
      this.bound, this.mode, this.spec, this.identity := [], mode, spec, JcsProvider;
      this.hasResolver, this.hasRedactor, this.hasNotifier := hasResolver, false, false;
      this.composition := DEFAULT_COMPOSITION;
      this.maxRecords, this.records, this.recordsDropped := 0, [], 0;
      this.sealed, this.declaration := false, None;
      this.heard := [];
    }

    // ---- configuration ---------------------------------------------------------------

    method RegisterNamed(name: string) returns (reply: Lifecycle.Reply)
      modifies `bound
      ensures (State(), reply) == Lifecycle.Apply(old(State()), Lifecycle.RegisterNamed(name))
    {
      if sealed {
        return Lifecycle.Panicked;
      }
      bound := bound + [Bound(false, name, None, OnErrorDeny)];
      return Lifecycle.Accepted;
    }

    static method CheckPoints(at: Option<seq<string>>) returns (points: Option<Option<seq<string>>>)
      ensures points == Lifecycle.CheckPoints(at)
    {
      if at.None? {
        return Some(None);
      }
      if at.value == [] {
        return None;
      }
      var kept: seq<string> := [];
      for i := 0 to |at.value|
        invariant kept == Lifecycle.Dedupe(at.value[..i])
        invariant forall p | p in at.value[..i] :: p in ALL_POINTS
      {
        var p := at.value[i];
        if p !in ALL_POINTS {
          assert p in at.value;
          return None;
        }
        assert at.value[..i + 1][..i] == at.value[..i];
        if p !in kept {
          kept := kept + [p];
        }
      }
      assert at.value[..|at.value|] == at.value;
      return Some(Some(kept));
    }

    method Push(managed: bool, name: string, at: Option<seq<string>>, onError: OnError) returns (reply: Lifecycle.Reply)
      modifies `bound
      ensures (State(), reply) == Lifecycle.Apply(old(State()), Lifecycle.Push(managed, name, at, onError))
    {
      if sealed {
        return Lifecycle.Declined;
      }
      var points := CheckPoints(at);
      if points.None? || onError.OtherOnError? {
        return Lifecycle.Declined;
      }
      if onError == OnErrorContinue && spec != SPEC_DRAFT {
        return Lifecycle.Declined;
      }
      if onError == OnErrorContinue && !hasNotifier {
        return Lifecycle.Declined;
      }
      bound := bound + [Bound(managed, name, points.value, OrDefault(onError))];
      return Lifecycle.Accepted;
    }

    method SetComposition(c: Option<Composition>) returns (reply: Lifecycle.Reply)
      modifies `composition
      ensures (State(), reply) == Lifecycle.Apply(old(State()), Lifecycle.SetComposition(c))
    {
      if sealed {
        return Lifecycle.Declined;
      }
      composition := if c.Some? then c.value else DEFAULT_COMPOSITION;
      return Lifecycle.Accepted;
    }

    method SetControlFailureNotifier(present: bool) returns (reply: Lifecycle.Reply)
      modifies `hasNotifier
      ensures (State(), reply) == Lifecycle.Apply(old(State()), Lifecycle.SetControlFailureNotifier(present))
    {
      if !present {
        for i := 0 to |bound|
          invariant forall b | b in bound[..i] :: !Lifecycle.Continues(b)
        {
          if bound[i].onError == OnErrorContinue {
            assert bound[i] in bound;
            return Lifecycle.Panicked;
          }
        }
        assert bound[..|bound|] == bound;
      }
      hasNotifier := present;
      return Lifecycle.Accepted;
    }

    method SetMaxRecords(n: int) returns (reply: Lifecycle.Reply)
      modifies `maxRecords
      ensures (State(), reply) == Lifecycle.Apply(old(State()), Lifecycle.SetMaxRecords(n))
    {
      if sealed {
        return Lifecycle.Panicked;
      }
      maxRecords := n;
      return Lifecycle.Accepted;
    }

    // ---- the record buffer --------------------------------------------------------------

    method Deliver(r: Record)
      modifies `records, `recordsDropped
      ensures State() == Lifecycle.Apply(old(State()), Lifecycle.Deliver(r)).0
    {
      if maxRecords > 0 {
        ghost var all := records;
        while |records| >= maxRecords
          invariant recordsDropped >= old(recordsDropped)
          invariant recordsDropped - old(recordsDropped) <= |all|
          invariant records == all[recordsDropped - old(recordsDropped)..]
          invariant recordsDropped - old(recordsDropped) <= Lifecycle.Evicted(old(State()))
        {
          records := records[1..];
          recordsDropped := recordsDropped + 1;
        }
      }
      records := records + [r];
    }

    method TakeRecords() returns (out: seq<Record>)
      modifies `records
      ensures (State(), Lifecycle.Drained(out)) == Lifecycle.Apply(old(State()), Lifecycle.TakeRecords)
    {
      out := records;
      records := [];
    }

    // ---- one slot -------------------------------------------------------------------------

    method Active(point: string) returns (out: seq<Bound>)
      ensures out == Emission.Active(bound, point)
    {
      out := [];
      for i := 0 to |bound|
        invariant out == Emission.Active(bound[..i], point)
      {
        assert bound[..i + 1][..i] == bound[..i];
        if RunsAt(bound[i], point) {
          out := out + [bound[i]];
        }
      }
      assert bound[..|bound|] == bound;
    }

    /** Runs one interceptor on a deep copy of the context. It may look around in the copy,
        overwrite any part of it and add parts; the live context is not touched. */
    method Call(w: World, i: nat, b: Bound, actx: AgentContext) returns (r: Result<Verdict, Slots.CallFailure>)
      requires actx.Valid()
      ensures r == Slots.Call(w, Config(), i, b, actx.json)
    {
      hide Denotes, RereadObject;
      var cp := actx.DeepCopy(w.core.number);
      if cp == null {
        return Failure(Slots.CallFailure(CONTEXT_INVALID, "", false));
      }
      var input := cp.Read();
      Scribble(w, i, cp);
      if b.managed {
        var m := w.manage(i, input);
        if !m.ManagedVerdict? {
          return Failure(Slots.ManagedFailure(m));
        }
        return Slots.Gate(w.core, spec, m.verdict);
      }
      match w.intercept(i, input)
      case TimedOut =>
        return Failure(Slots.Covered(INTERCEPTOR_TIMEOUT, ""));
      case Raised(t) =>
        var f := Slots.Covered(INTERCEPTOR_FAILED, t);
        if w.callerCancelled(i) {
          f := f.(continuable := false);
        }
        return Failure(f);
      case Returned(v) =>
        return Slots.Gate(w.core, spec, v);
    }

    /** What the interceptor of slot `i` does to the copy it was handed. */
    static method Scribble(w: World, i: nat, cp: AgentContext)
      requires cp.Valid() && Closed(cp.repr)
      modifies cp.repr
    {
      var input := cp.Read();
      var _, _ := Act([cp.root], w.moves(i, input), cp.repr);
    }

    method Settle(w: World, i: nat, b: Bound, f: Slots.CallFailure, actx: AgentContext) returns (st: Slots.Settled)
      requires actx.Valid()
      modifies `heard
      ensures st == Slots.Settle(w, Config(), i, b, f, actx.json)
      ensures heard == old(heard) +
        if Slots.Announces(Config(), b, f) && w.notifierAccepts(i, Slots.NoticeOf(i, b, f.reason, actx.json))
        then [Slots.NoticeOf(i, b, f.reason, actx.json)] else []
    {
      hide Denotes, Slots.NoticeOf, Slots.Substitute, Slots.Label, IsControlFailure, Slots.CORE_REFUSED, Slots.NO_CHANNEL, Slots.CHANNEL_FAILED;
      if b.onError != OnErrorContinue || !f.continuable {
        return Slots.Settled(HostError(f.reason, f.detail), "");
      }
      if !IsControlFailure(f.reason) {
        return Slots.Settled(HostError(f.reason, Slots.CORE_REFUSED), "");
      }
      if !hasNotifier {
        return Slots.Settled(HostError(f.reason, Slots.NO_CHANNEL), "");
      }
      var ctx := actx.Read();
      var notice := Slots.NoticeOf(i, b, f.reason, ctx);
      if !w.notifierAccepts(i, notice) {
        return Slots.Settled(HostError(f.reason, Slots.CHANNEL_FAILED), "");
      }
      heard := heard + [notice];
      return Slots.Settled(Slots.Substitute(Slots.Label(i, b), f.reason), f.reason);
    }

    method Invoke(w: World, i: nat, b: Bound, actx: AgentContext) returns (st: Slots.Settled)
      requires actx.Valid()
      modifies `heard
      ensures st == Slots.Invoke(w, Config(), i, b, actx.json)
      ensures heard == old(heard) + Slots.Heard(w, Config(), i, b, actx.json)
    {
      var r := Call(w, i, b, actx);
      match r
      case Success(v) => st := Slots.Settled(v, "");
      case Failure(f) => st := Settle(w, i, b, f, actx);
    }

    method FoldTransform(w: World, actx: AgentContext, v: Verdict) returns (out: Verdict)
      requires actx.Valid()
      modifies actx, actx.root
      ensures actx.Valid()
      ensures Slots.Folding(out, actx.json) == Slots.Fold(w.core, mode, old(actx.json), v)
    {
      hide Denotes;
      if v.transform.None? {
        return HostError(TRANSFORM_INVALID, "transform body missing");
      }
      var ctx := actx.Read();
      if mode == Enforce {
        var r := w.core.applyTransform(ctx, v.transform.value);
        if !r.Ok? {
          return Slots.CoreErrVerdict(r, TRANSFORM_INVALID);
        }
        actx.Replace(r.value);
      } else {
        var r := w.core.validateTransform(ctx, v.transform.value);
        if !r.Ok? {
          return Slots.CoreErrVerdict(r, TRANSFORM_INVALID);
        }
      }
      return v;
    }

    /** Consults the seam. The redactor is called with the live context; the resolver may
        hold it too, or parts of it, and write to them. */
    method Consult(w: World, i: nat, actx: AgentContext, v: Verdict) returns (c: Slots.Consultation)
      requires actx.Valid()
      modifies actx, actx.root
      ensures actx.Valid()
      ensures Slots.Seam(c, actx.json) == Slots.Consult(w, Config(), i, old(actx.json), v)
    {
      hide Denotes;
      if !IsLiftable(v) || mode != Enforce {
        return Slots.NotConsulted;
      }
      var ctx := actx.Read();
      if PointOf(ctx) == AGENT_SHUTDOWN {
        return Slots.NotConsulted;
      }
      if !hasResolver {
        return Slots.NotConsulted;
      }
      var p := Redaction(Live, ctx, true);
      if hasRedactor {
        p := w.redact(i, ctx);
        actx.Replace(p.leaves);
        if p.result.RedactorPanicked? {
          return Slots.Consulted(HostError(APPROVAL_RESOLVER_FAILED, p.result.typeName), false);
        }
      }
      var presented := Slots.Shown(p);
      var id := Slots.IdentityOf(w, identity, presented);
      if !id.Ok? {
        return Slots.Consulted(Slots.CoreErrVerdict(id, CONTEXT_INVALID), false);
      }
      var live := actx.Read();
      var req := Request(id.value, PointOf(live), v, presented);
      var res := w.resolve(i, req);
      if Slots.ReachesLive(p) {
        actx.Replace(w.resolverLeaves(i, req, live));
      }
      return Slots.Judge(w.core, spec, id.value, res);
    }

    // ---- dispatch ---------------------------------------------------------------------------

    /** One slot of the first_deny loop up to the point where the loop decides
        whether to go on: invoke, then consult or fold. */
    method RunSlot(w: World, i: nat, b: Bound, actx: AgentContext) returns (st: Slots.Settled, kind: FirstDeny.Kind)
      requires actx.Valid()
      modifies actx, actx.root, `heard
      ensures actx.Valid()
      ensures FirstDeny.Step(st, kind, old(actx.json), actx.json) == FirstDeny.StepAt(w, Config(), i, b, old(actx.json))
      ensures heard == old(heard) + Slots.Heard(w, Config(), i, b, old(actx.json))
    {
      hide Slots.Invoke, Slots.Heard, Slots.Consult, Slots.Fold, Denotes;
      st := Invoke(w, i, b, actx);
      var v := st.verdict;
      if IsHostSynthesized(v) {
        return st, FirstDeny.Synthesized;
      }
      match v.decision
      case Deny =>
        var c := Consult(w, i, actx, v);
        if c.NotConsulted? {
          SeamUntouched(w, Config(), i, old(actx.json), v);
          return st, FirstDeny.Standing;
        }
        if !c.permitted {
          return st, FirstDeny.Rejected(c.verdict);
        }
        var sub := c.verdict;
        if sub.decision == Transform {
          sub := FoldTransform(w, actx, sub);
        }
        if !Permits(sub.decision) {
          return st, FirstDeny.LiftBroken(sub);
        }
        return st, FirstDeny.LiftedBy(sub);
      case Transform =>
        var folded := FoldTransform(w, actx, v);
        if !Permits(folded.decision) {
          return st, FirstDeny.FoldBroken(folded);
        }
        return st, FirstDeny.Folded;
      case _ =>
        return st, FirstDeny.Passed;
    }

    method DispatchFirstDeny(w: World, actx: AgentContext, active: seq<Bound>) returns (out: Outcome)
      requires actx.Valid()
      modifies actx, actx.root, `heard
      ensures actx.Valid()
      ensures RanFirstDeny(
                w, Config(), if composition.onApproval == Some(Resume) then Resume else Stop, active, old(actx.json), out, actx.json, old(heard), heard)
    {
      hide IsHostSynthesized, Slots.Heard, WithUnions, FirstDeny.StepAt, FirstDeny.Summarize, FirstDeny.OutcomeOf,
           RanFirstDeny, OnTrack, FirstDenyLaws.Accumulate, Denotes, Slots.Consult, Slots.Fold, Slots.Invoke, FirstDeny.DenyStep;
      ghost var host, init := Config(), actx.json;
      var knob := if composition.onApproval == Some(Resume) then Resume else Stop;
      var n := |active|;
      var perInterceptor: seq<Verdict>, pool: seq<Verdict>, substituted: seq<string> := [], [], [];
      var lastTransform: Option<(nat, Verdict)> := None;
      var resolvedBy: Option<ResolvedBy> := None;
      ghost var steps: seq<FirstDeny.Step> := [];
      TrackStarts(w, host, knob, active, init, heard);
      FirstDenyLaws.AccumulateNone();
      for i := 0 to n
        invariant actx.Valid() && |steps| == |perInterceptor| == |substituted| == i && host == Config()
        invariant OnTrack(w, host, knob, active, init, steps, actx.json, old(heard), heard)
        invariant FirstDenyLaws.Accumulated(perInterceptor, substituted, pool, lastTransform, resolvedBy) ==
                  FirstDenyLaws.Accumulate(steps)
      {
        ghost var s := FirstDeny.StepAt(w, host, i, active[i], actx.json);
        TrackStep(w, host, knob, active, init, steps, actx.json, old(heard), heard);
        FirstDenyLaws.AccumulateStep(steps, s);
        var st, kind := RunSlot(w, i, active[i], actx);
        var v := st.verdict;
        steps := steps + [s];
        perInterceptor := perInterceptor + [v];
        substituted := substituted + [st.substitutedFor];
        pool := pool + [v];
        // An approval is recorded even when its transform then fails to apply.
        if kind.Rejected? {
          resolvedBy := Some(ByRejection);
        } else if kind.LiftBroken? || kind.LiftedBy? {
          resolvedBy := Some(ByApproval);
        }
        if kind.LiftBroken? || kind.FoldBroken? {
          FirstDenyLaws.OutcomeOfEnded(steps, knob, active);
          return Outcome(kind.verdict, None, FirstDeny.Summarize(perInterceptor, active, substituted), Some(i + 1 < n), resolvedBy);
        }
        if kind.LiftedBy? {
          pool := pool + [kind.resolution];
        }
        if FirstDeny.Ends(knob, kind) {
          FirstDenyLaws.OutcomeOfEnded(steps, knob, active);
          var verdict := if kind.Rejected? then kind.verdict else if kind.LiftedBy? then kind.resolution else v;
          var combined := ApplyUnions(verdict, pool);
          var decidedBy := if kind.Rejected? && IsHostSynthesized(kind.verdict) then None else Some(i);
          return Outcome(combined, decidedBy, FirstDeny.Summarize(perInterceptor, active, substituted), Some(i + 1 < n), resolvedBy);
        }
        if kind.Folded? {
          lastTransform := Some((i, v));
        } else if kind.LiftedBy? && kind.resolution.decision == Transform {
          lastTransform := Some((i, kind.resolution));
        }
      }
      TrackEnds(w, host, knob, active, init, steps, actx.json, old(heard), heard);
      FirstDenyLaws.OutcomeOfFinished(steps, knob, active);
      var combined, decidedBy := ALLOW, None;
      if lastTransform.Some? {
        combined, decidedBy := lastTransform.value.1, Some(lastTransform.value.0);
      }
      combined := ApplyUnions(combined, pool);
      return Outcome(combined, decidedBy, FirstDeny.Summarize(perInterceptor, active, substituted), Some(false), resolvedBy);
    }

    /** Aggregation in the core, then the winner's transform or one consultation. */
    method AggregateAndConsult(
      w: World, actx: AgentContext, all: seq<Verdict>, active: seq<Bound>, substituted: seq<string>) returns (out: Outcome)
      requires actx.Valid()
      modifies actx, actx.root
      ensures actx.Valid()
      ensures RunAll.Done(out, actx.json) ==
              RunAll.Finish(w, Config(), composition, active, all, substituted, old(actx.json))
    {
      hide Denotes, IsHostSynthesized, Slots.Consult, Slots.Fold, WithUnions, RunAll.Named, RunAll.PlainSummaries;
      var r := w.core.aggregate(spec, composition, all);
      if !r.Ok? {
        return Outcome(Slots.CoreErrVerdict(r, VERDICT_INVALID), None,
                       RunAll.Named(RunAll.PlainSummaries(all), active, substituted), None, None);
      }
      var agg := r.value;
      var combined, decidedBy := agg.combined, agg.decidedBy;
      var resolvedBy: Option<ResolvedBy> := None;
      var summaries := RunAll.Named(agg.verdicts, active, substituted);
      if agg.applyTransform {
        var folded := FoldTransform(w, actx, combined);
        if !Permits(folded.decision) {
          return Outcome(folded, None, summaries, None, None);
        }
        return Outcome(folded, decidedBy, summaries, None, None);
      }
      if agg.consult {
        var c := Consult(w, |active|, actx, combined);
        if c.Consulted? {
          if c.permitted {
            resolvedBy := Some(ByApproval);
            var sub := c.verdict;
            if sub.decision == Transform {
              sub := FoldTransform(w, actx, sub);
            }
            if Permits(sub.decision) {
              combined := ApplyUnions(sub, all + [sub]);
            } else {
              combined := sub;
            }
          } else {
            resolvedBy := Some(ByRejection);
            if IsHostSynthesized(c.verdict) {
              decidedBy := None;
            }
            combined := ApplyUnions(c.verdict, all);
          }
        }
      }
      return Outcome(combined, decidedBy, summaries, None, resolvedBy);
    }

    method DispatchRunAll(w: World, actx: AgentContext, active: seq<Bound>) returns (out: Outcome)
      requires actx.Valid()
      modifies actx, actx.root, `heard
      ensures actx.Valid()
      ensures RanAll(
                w, Config(), active, RunAll.Entries(w, Config(), active, 0, old(actx.json)),
                RunAll.Sequential(w, Config(), composition, active, old(actx.json)),
                out, actx.json, old(heard), heard)
    {
      hide RunAll.EntryAt, Slots.Invoke, Slots.Heard, Slots.Fold, RunAll.Finish, RunAll.Named, RunAll.PlainSummaries,
           RunAll.Entered, RunAll.Substituted, HeardUpTo, RunAllLaws.OnFold, RunAllLaws.Visits, RunAll.BreaksFold,
           RunAll.Conclude, Denotes;
      ghost var host, init := Config(), actx.json;
      ghost var entries: seq<RunAll.Entry> := [];
      var all: seq<Verdict>, substituted: seq<string> := [], [];
      RunAllLaws.FoldStarts(w, host, active, init);
      for i := 0 to |active|
        invariant actx.Valid() && |entries| == |all| == |substituted| == i && host == Config()
        invariant RunAllLaws.OnFold(w, host, active, init, entries, actx.json)
        invariant all == RunAll.Entered(entries) && substituted == RunAll.Substituted(entries)
        invariant heard == old(heard) + HeardUpTo(w, host, active, RunAllLaws.Visits(entries), i)
      {
        ghost var e := RunAll.EntryAt(w, host, i, active[i], actx.json);
        RunAllLaws.FoldStep(w, host, active, init, entries, actx.json);
        RunAllLaws.VisitStep(w, host, active, entries, e);
        EntryUnfolds(w, host, i, active[i], actx.json);
        var st := Invoke(w, i, active[i], actx);
        var v := st.verdict;
        entries := entries + [e];
        substituted := substituted + [st.substitutedFor];
        if v.decision == Transform {
          var folded := FoldTransform(w, actx, v);
          if !Permits(folded.decision) {
            all := all + [folded];
            RunAllLaws.ConcludeBroken(w, host, composition, active, entries, init);
            return Outcome(folded, None, RunAll.Named(RunAll.PlainSummaries(all), active, substituted), None, None);
          }
          v := folded;
        }
        all := all + [v];
      }
      RunAllLaws.FoldEnds(w, host, active, init, entries, actx.json);
      RunAllLaws.ConcludeWhole(w, host, composition, active, entries, init);
      out := AggregateAndConsult(w, actx, all, active, substituted);
    }

    /** Serial dispatch over isolated copies: the context stays as it is until every
        interceptor has judged it. */
    method DispatchParallel(w: World, actx: AgentContext, active: seq<Bound>) returns (out: Outcome)
      requires actx.Valid()
      modifies actx, actx.root, `heard
      ensures actx.Valid()
      ensures RanAll(
                w, Config(), active, RunAll.Snapshots(w, Config(), active, old(actx.json)),
                RunAll.Parallel(w, Config(), composition, active, old(actx.json)),
                out, actx.json, old(heard), heard)
    {
      hide Slots.Invoke, Slots.Heard, RunAll.Finish, HeardUpTo, Denotes;
      ghost var host, init := Config(), actx.json;
      ghost var entries := RunAll.Snapshots(w, host, active, init);
      var all: seq<Verdict>, substituted: seq<string> := [], [];
      RunAllLaws.HeardNothing(w, host, active, entries);
      for i := 0 to |active|
        invariant actx.Valid() && host == Config() && actx.json == init
        invariant all == RunAll.Entered(entries)[..i] && substituted == RunAll.Substituted(entries)[..i]
        invariant heard == old(heard) + HeardUpTo(w, host, active, RunAllLaws.Visits(entries), i)
      {
        RunAllLaws.HeardNext(w, host, active, entries, i);
        var st := Invoke(w, i, active[i], actx);
        all := all + [st.verdict];
        substituted := substituted + [st.substitutedFor];
      }
      assert all == RunAll.Entered(entries) && substituted == RunAll.Substituted(entries);
      out := AggregateAndConsult(w, actx, all, active, substituted);
    }

    method Dispatch(w: World, actx: AgentContext) returns (out: Outcome)
      requires actx.Valid()
      modifies actx, actx.root, `heard
      ensures actx.Valid()
      ensures RunAll.Done(out, actx.json) ==
              Emission.Dispatch(w, Config(), composition, Emission.Active(bound, PointOf(old(actx.json))), old(actx.json))
      ensures old(heard) <= heard
      ensures composition.profile == SequentialFirstDeny && Emission.Active(bound, PointOf(old(actx.json))) != [] ==>
        exists steps :: EmissionLaws.KnobObeyed(
          w, Config(), composition, Emission.Active(bound, PointOf(old(actx.json))), old(actx.json),
          RunAll.Done(out, actx.json), steps)
    {
      ghost var host, before := Config(), actx.json;
      hide FirstDeny.Run, FirstDeny.Steps, RunAll.Sequential, RunAll.Parallel, RunAll.Entries, RunAll.Snapshots, HeardUpTo, Denotes, Emission.REGISTER_ALLOW_ALL, EmissionLaws.KnobObeyed, FirstDeny.FinalCtx;
      var ctx := actx.Read();
      var active := Active(PointOf(ctx));
      if active == [] {
        return Emission.HostFailed(NO_INTERCEPTOR, Emission.REGISTER_ALLOW_ALL);
      }
      match composition.profile
      case SequentialFirstDeny =>
        out := DispatchFirstDeny(w, actx, active);
        EmissionLaws.RunObeys(w, host, composition, active, before);
      case SequentialRunAll => out := DispatchRunAll(w, actx, active);
      case ParallelStrictest => out := DispatchParallel(w, actx, active);
      case ParallelUnanimous => out := DispatchParallel(w, actx, active);
    }

    /** The part of an emission before its record: the envelope, the identity, dispatch. */
    method Decide(w: World, actx: AgentContext) returns (inputIdentity: Option<string>, outcome: Outcome)
      requires actx.Valid()
      modifies actx, actx.root, `heard
      ensures actx.Valid()
      ensures Emission.Decided(inputIdentity, RunAll.Done(outcome, actx.json)) ==
              Emission.Decide(w, Config(), composition, bound, old(actx.json))
      ensures old(heard) <= heard
    {
      hide Emission.Dispatch, Emission.Active, Slots.IdentityOf, Denotes;
      var ctx := actx.Read();
      var envelope := w.core.validateEnvelope(ctx);
      if !envelope.Ok? {
        return None, Outcome(Slots.CoreErrVerdict(envelope, CONTEXT_INVALID), None, [], None, None);
      }
      if StringMember(ctx, "spec") != spec {
        return None, Emission.HostFailed(CONTEXT_INVALID, Emission.OTHER_VERSION);
      }
      var id := Slots.IdentityOf(w, identity, ctx);
      if !id.Ok? {
        return None, Outcome(Slots.CoreErrVerdict(id, CONTEXT_INVALID), None, [], None, None);
      }
      outcome := Dispatch(w, actx);
      return id.value, outcome;
    }

    /** Runs the emission and delivers its record; an error is the core failing to
        make one, and then nothing is delivered. */
    method EmitUnchecked(w: World, actx: AgentContext) returns (r: Fallible<Record>)
      requires actx.Valid()
      modifies actx, actx.root, `heard, `records, `recordsDropped
      ensures actx.Valid()
      ensures r == Emission.RecordOf(w, Config(), composition, bound, declaration, old(actx.json))
      ensures actx.json == Emission.Decide(w, Config(), composition, bound, old(actx.json)).done.ctx
      ensures EmissionLaws.ToldContract(w.core) && r.Ok? ==>
        EmissionLaws.Tells(w, Config(), composition, bound, declaration, old(actx.json), actx.json, r.value)
      ensures State() == if r.Ok? then Lifecycle.Apply(old(State()), Lifecycle.Deliver(r.value)).0 else old(State())
      ensures old(heard) <= heard
    {
      hide Emission.Decide, Emission.Active, Lifecycle.DeliverOp, Denotes, EmissionLaws.ToldContract, EmissionLaws.Tells;
      if EmissionLaws.ToldContract(w.core) {
        EmissionLaws.RecordTells(w, Config(), composition, bound, declaration, actx.json);
      }
      var inputIdentity, outcome := Decide(w, actx);
      var after := actx.Read();
      var registered := Active(PointOf(after));
      var enforced: Option<string> := None;
      if identity.CustomProvider? {
        var c := w.customIdentity(after);
        if c.Ok? {
          enforced := Some(c.value);
        }
      }
      r := w.core.finalize(after, outcome.combined, mode,
                           Finalization(inputIdentity, enforced, ProviderName(identity), outcome, composition, |registered|, declaration));
      if r.Ok? {
        Deliver(r.value);
      }
    }

    /** The primary entry point: hands out the effective target only when the guarded
        action may proceed. */
    method Emit(w: World, actx: AgentContext) returns (r: Emitted)
      requires actx.Valid()
      modifies actx, actx.root, `heard, `records, `recordsDropped
      ensures actx.Valid()
      ensures r.Proceeding? ==> r.target == if "target" in actx.json then actx.json["target"] else Null
      ensures r.Proceeding? || r.Blocked? ==>
        Ok(r.record) == Emission.RecordOf(w, Config(), composition, bound, declaration, old(actx.json))
      ensures r.Proceeding? || r.Blocked? ==>
        (r.Proceeding? <==>
           r.record.mode == EvaluateOnly || r.record.verdict.decision == Allow || r.record.verdict.decision == Transform)
      ensures r.Infrastructure? <==> !Emission.RecordOf(w, Config(), composition, bound, declaration, old(actx.json)).Ok?
      ensures GateContract(w.core) && RecordContract(w.core) && r.Proceeding? && mode == Enforce ==>
        Emission.Passed(
          w, Config(), composition, Emission.Active(bound, PointOf(old(actx.json))), old(actx.json), actx.json)
    {
      hide Emission.RecordOf, Emission.Passed, Emission.Decide, Emission.Active, Denotes;
      ghost var host, before := Config(), actx.json;
      var rec := EmitUnchecked(w, actx);
      if GateContract(w.core) && RecordContract(w.core) && mode == Enforce {
        Emission.ProceedsOnlyIfPassed(w, host, composition, bound, declaration, before);
      }
      if !rec.Ok? {
        return Infrastructure;
      }
      if !Proceeds(rec.value) {
        return Blocked(rec.value);
      }
      var after := actx.Read();
      return Proceeding(rec.value, if "target" in after then after["target"] else Null);
    }
  }

  lemma EntryUnfolds(w: World, host: Host, i: nat, b: Bound, ctx: Members)
    ensures
      var e := RunAll.EntryAt(w, host, i, b, ctx);
      var v := Slots.Invoke(w, host, i, b, ctx).verdict;
      var f := Slots.Fold(w.core, host.mode, ctx, v);
      && e.slot == Slots.Invoke(w, host, i, b, ctx)
      && (v.decision == Transform ==> e.entered == f.verdict && e.after == f.ctx)
      && (v.decision != Transform ==> e.entered == v && e.after == ctx)
      && (RunAll.BreaksFold(e) <==> v.decision == Transform && !Permits(f.verdict.decision))
  {
    hide Slots.Invoke, Slots.Fold;
  }

  /** A seam that is not asked leaves the context alone. */
  lemma SeamUntouched(w: World, host: Host, i: nat, ctx: Members, v: Verdict)
    ensures Slots.Consult(w, host, i, ctx, v).result.NotConsulted? ==> Slots.Consult(w, host, i, ctx, v).ctx == ctx
  {
  }
}
