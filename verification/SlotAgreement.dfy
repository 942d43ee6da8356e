/** One slot as the TypeScript emitter settles it, compared with the Go emitter's. */
module SlotAgreement {
  import opened Json
  import opened Verdicts
  import opened Hosts
  import opened Rereading
  import opened Slots
  import opened ApprovalOrder
  import Notices
  import opened SnapshotDispatch

  function Gated(core: Core, spec: string, v: Verdict): Result<Verdict, CallFailure> {
    var g := core.validateVerdict(spec, v);
    if g.Ok? then Success(g.value) else Failure(Covered(VERDICT_INVALID, CoreErrVerdict(g, VERDICT_INVALID).message))
  }

  /** The caller's cancellation is unknown here, and a managed outcome of no known type is
      a malformed return. */
  function Call(w: World, host: Host, i: nat, b: Bound, ctx: Members): Result<Verdict, CallFailure> {
    if b.managed then
      var m := w.manage(i, ctx);
      if m.ManagedVerdict? then Gated(w.core, host.spec, m.verdict)
      else if m.ManagedMalformed? then Failure(Covered(VERDICT_INVALID, "not a managed outcome"))
      else Failure(ManagedFailure(m))
    else
      match w.intercept(i, ctx)
      case TimedOut => Failure(Covered(INTERCEPTOR_TIMEOUT, ""))
      case Raised(t) => Failure(Covered(INTERCEPTOR_FAILED, t))
      case Returned(v) => Gated(w.core, host.spec, v)
  }

  /** The core is asked for the substitute first, then the channel is tried. */
  function Settle(w: World, host: Host, i: nat, b: Bound, f: CallFailure, ctx: Members): Settled {
    if b.onError != OnErrorContinue || !f.continuable || !IsControlFailure(f.reason) then
      Settled(HostError(f.reason, f.detail), "")
    else if !host.hasNotifier then
      Settled(HostError(f.reason, NO_CHANNEL), "")
    else if !w.notifierAccepts(i, NoticeOf(i, b, f.reason, ctx)) then
      Settled(HostError(f.reason, "control failure notifier failed; the deny stands"), "")
    else
      Settled(Substitute(Label(i, b), f.reason), f.reason)
  }

  function Invoke(w: World, host: Host, i: nat, b: Bound, ctx: Members): Settled {
    match Call(w, host, i, b, ctx)
    case Success(v) => Settled(v, "")
    case Failure(f) => Settle(w, host, i, b, f, ctx)
  }

  predicate SameSettled(a: Settled, b: Settled) {
    SameVerdict(a.verdict, b.verdict) && a.substitutedFor == b.substitutedFor
  }

  /** The same ending up to its detail. */
  predicate SameCall(a: Result<Verdict, CallFailure>, b: Result<Verdict, CallFailure>) {
    match (a, b)
    case (Success(v), Success(u)) => v == u
    case (Failure(f), Failure(g)) => f.reason == g.reason && f.continuable == g.continuable
    case _ => false
  }

  /** A managed outcome of no known type, or an error raised under the caller's cancellation
      that only the TypeScript emitter continues. */
  predicate SlotDiffers(w: World, host: Host, i: nat, b: Bound, ctx: Members) {
    if b.managed then w.manage(i, ctx).ManagedMalformed?
    else
      && w.intercept(i, ctx).Raised? && w.callerCancelled(i)
      && b.onError == OnErrorContinue && host.hasNotifier
      && w.notifierAccepts(i, NoticeOf(i, b, INTERCEPTOR_FAILED, ctx))
  }

  lemma GatesAlike(core: Core, spec: string, v: Verdict)
    requires RefusesAsInvalid(core)
    ensures SameCall(Gated(core, spec, v), Slots.Gate(core, spec, v))
  {
    hide IsControlFailure;
  }

  lemma SettlesAlike(w: World, host: Host, i: nat, b: Bound, f: CallFailure, g: CallFailure, ctx: Members)
    requires f.reason == g.reason && f.continuable == g.continuable
    ensures SameSettled(Settle(w, host, i, b, f, ctx), Slots.Settle(w, host, i, b, g, ctx))
  {
    hide NoticeOf, Substitute, Label, IsControlFailure, CORE_REFUSED, NO_CHANNEL, CHANNEL_FAILED;
  }

  /** Which failure a settled slot speaks of can be read off it. */
  lemma SettleTells(w: World, host: Host, i: nat, b: Bound, f: CallFailure, g: CallFailure, ctx: Members)
    requires f.reason != g.reason && f.reason != "" && g.reason != ""
    ensures !SameSettled(Settle(w, host, i, b, f, ctx), Slots.Settle(w, host, i, b, g, ctx))
  {
    hide NoticeOf, Label, IsControlFailure, CORE_REFUSED, NO_CHANNEL, CHANNEL_FAILED, ControlFailureMessage;
    var s, t := Settle(w, host, i, b, f, ctx), Slots.Settle(w, host, i, b, g, ctx);
    assert s.substitutedFor == "" || s.substitutedFor == f.reason;
    assert t.substitutedFor == "" || t.substitutedFor == g.reason;
    assert s.substitutedFor == "" ==> s.verdict.(message := "").reason == f.reason;
    assert t.substitutedFor == "" ==> t.verdict.(message := "").reason == g.reason;
  }

  lemma Reasons()
    ensures INTERCEPTOR_FAILED != VERDICT_INVALID && INTERCEPTOR_FAILED != "" && VERDICT_INVALID != ""
  {
    assert INTERCEPTOR_FAILED[|HOST_ERROR|] == 'i' && VERDICT_INVALID[|HOST_ERROR|] == 'v';
  }

  /** From a context whose numbers are portable both emitters settle a slot alike, up to
      message text, unless it is one of those two. */
  lemma SlotsAgreeIff(w: World, host: Host, i: nat, b: Bound, ctx: Members)
    requires RefusesAsInvalid(w.core) && Portable(w.core.number, Obj(ctx))
    ensures SameSettled(Invoke(w, host, i, b, ctx), Slots.Invoke(w, host, i, b, ctx)) <==> !SlotDiffers(w, host, i, b, ctx)
  {
    ObjectIff(w.core.number, ctx);
    Reasons();
    if b.managed {
      ManagedAgree(w, host, i, b, ctx);
    } else {
      StandardAgree(w, host, i, b, ctx);
    }
  }

  lemma ManagedAgree(w: World, host: Host, i: nat, b: Bound, ctx: Members)
    requires RefusesAsInvalid(w.core) && b.managed && RereadObject(w.core.number, ctx) == Some(ctx)
    ensures SameSettled(Invoke(w, host, i, b, ctx), Slots.Invoke(w, host, i, b, ctx)) <==> !w.manage(i, ctx).ManagedMalformed?
  {
    hide Settle, Slots.Settle, RereadObject, Slots.Gate, Gated, RefusesAsInvalid, IsControlFailure;
    var m := w.manage(i, ctx);
    var c, d := Call(w, host, i, b, ctx), Slots.Call(w, host, i, b, ctx);
    if m.ManagedVerdict? { GatesAlike(w.core, host.spec, m.verdict); }
    if c.Failure? && d.Failure? {
      if m.ManagedMalformed? {
        Reasons();
        SettleTells(w, host, i, b, c.error, d.error, ctx);
      } else {
        SettlesAlike(w, host, i, b, c.error, d.error, ctx);
      }
    }
  }

  lemma StandardAgree(w: World, host: Host, i: nat, b: Bound, ctx: Members)
    requires RefusesAsInvalid(w.core) && !b.managed && RereadObject(w.core.number, ctx) == Some(ctx)
    ensures SameSettled(Invoke(w, host, i, b, ctx), Slots.Invoke(w, host, i, b, ctx)) <==> !SlotDiffers(w, host, i, b, ctx)
  {
    hide Settle, Slots.Settle, RereadObject, Slots.Gate, Gated, RefusesAsInvalid, IsControlFailure, NoticeOf;
    var c, d := Call(w, host, i, b, ctx), Slots.Call(w, host, i, b, ctx);
    var a := w.intercept(i, ctx);
    if a.Returned? { GatesAlike(w.core, host.spec, a.verdict); }
    if c.Failure? && d.Failure? {
      if a.Raised? && w.callerCancelled(i) {
        RaisedUnderCancellation(w, host, i, b, a.typeName, ctx);
      } else {
        SettlesAlike(w, host, i, b, c.error, d.error, ctx);
      }
    }
  }

  lemma RaisedUnderCancellation(w: World, host: Host, i: nat, b: Bound, text: string, ctx: Members)
    ensures
      var f := Covered(INTERCEPTOR_FAILED, text);
      SameSettled(Settle(w, host, i, b, f, ctx), Slots.Settle(w, host, i, b, f.(continuable := false), ctx)) <==>
        !(b.onError == OnErrorContinue && host.hasNotifier && w.notifierAccepts(i, NoticeOf(i, b, INTERCEPTOR_FAILED, ctx)))
  {
    Reasons();
    Notices.CoveredReasons();
    hide NoticeOf, Label, IsControlFailure, NO_CHANNEL, ControlFailureMessage;
    var f := Covered(INTERCEPTOR_FAILED, text);
    assert f.continuable;
  }
}
