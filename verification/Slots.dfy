/** One composition slot: calling an interceptor, settling its failure,
    folding a transform, consulting the approval seam. */
module Slots {
  import opened Json
  import opened Verdicts
  import opened Hosts
  import opened Rereading

  datatype CallFailure = CallFailure(reason: string, detail: string, continuable: bool)

  function Covered(reason: string, detail: string): CallFailure {
    CallFailure(reason, detail, IsControlFailure(reason))
  }

  /** The verdict in a slot and, when the host substituted it, the reason it stands in for. */
  datatype Settled = Settled(verdict: Verdict, substitutedFor: string)

  function Gate(core: Core, spec: string, v: Verdict): Result<Verdict, CallFailure> {
    match core.validateVerdict(spec, v)
    case Ok(nv) => Success(nv)
    case Refused(code, detail) => Failure(Covered(code, detail))
    case Broken(text) => Failure(Covered(VERDICT_INVALID, text))
  }

  /** How the core maps a managed outcome other than a verdict. */
  function ManagedFailure(m: Managed): CallFailure
    requires !m.ManagedVerdict?
  {
    match m
    case ManagedTimeout => Covered(INTERCEPTOR_TIMEOUT, "")
    case ManagedCancelled => CallFailure(INTERCEPTOR_FAILED, "", false)
    case ManagedFailed(detail) => Covered(INTERCEPTOR_FAILED, detail)
    case ManagedMalformed => Covered(INTERCEPTOR_FAILED, "malformed managed outcome")
    case ManagedPanicked(t) => Covered(INTERCEPTOR_FAILED, t)
  }

  function Call(w: World, host: Host, i: nat, b: Bound, ctx: Members): Result<Verdict, CallFailure> {
    var copy := RereadObject(w.core.number, ctx);
    if copy.None? then
      Failure(CallFailure(CONTEXT_INVALID, "", false))
    else if b.managed then
      var m := w.manage(i, copy.value);
      if m.ManagedVerdict? then Gate(w.core, host.spec, m.verdict) else Failure(ManagedFailure(m))
    else
      match w.intercept(i, copy.value)
      case TimedOut => Failure(Covered(INTERCEPTOR_TIMEOUT, ""))
      case Raised(t) =>
        var f := Covered(INTERCEPTOR_FAILED, t);
        Failure(if w.callerCancelled(i) then f.(continuable := false) else f)
      case Returned(v) => Gate(w.core, host.spec, v)
  }

  function Digits(n: nat): string {
    if n < 10 then ["0123456789"[n]] else Digits(n / 10) + ["0123456789"[n % 10]]
  }

  function Label(i: nat, b: Bound): string {
    if b.name == "" then "interceptor-" + Digits(i) else b.name
  }

  function ControlFailureMessage(binding: string, reason: string): string {
    binding + ": " + reason + "; host continued"
  }

  /** The allow the core builds for a failing registration that continues. */
  function Substitute(binding: string, reason: string): Verdict {
    ALLOW.(warnings := [Warning(CONTROL_FAILED, ControlFailureMessage(binding, reason))])
  }

  function NoticeOf(i: nat, b: Bound, reason: string, ctx: Members): Notice {
    var p := PointOf(ctx);
    Notice(if p in ALL_POINTS then p else "", i, Label(i, b), reason, ControlFailureMessage(Label(i, b), reason))
  }

  // Details of the denies that stand where a continuation was asked for.
  const CORE_REFUSED := "on_error: continue refused by the core; the deny stands"
  const NO_CHANNEL := "on_error: continue without a control failure notifier; the deny stands"
  const CHANNEL_FAILED := "control failure notifier panicked; the deny stands"

  /** The failure reaches the notifier: `continue`, covered, and a channel exists. */
  predicate Announces(host: Host, b: Bound, f: CallFailure) {
    b.onError == OnErrorContinue && f.continuable && IsControlFailure(f.reason) && host.hasNotifier
  }

  function Settle(w: World, host: Host, i: nat, b: Bound, f: CallFailure, ctx: Members): Settled {
    if b.onError != OnErrorContinue || !f.continuable then
      Settled(HostError(f.reason, f.detail), "")
    else if !IsControlFailure(f.reason) then
      Settled(HostError(f.reason, CORE_REFUSED), "")
    else if !host.hasNotifier then
      Settled(HostError(f.reason, NO_CHANNEL), "")
    else if !w.notifierAccepts(i, NoticeOf(i, b, f.reason, ctx)) then
      Settled(HostError(f.reason, CHANNEL_FAILED), "")
    else
      Settled(Substitute(Label(i, b), f.reason), f.reason)
  }

  function Invoke(w: World, host: Host, i: nat, b: Bound, ctx: Members): Settled {
    match Call(w, host, i, b, ctx)
    case Success(v) => Settled(v, "")
    case Failure(f) => Settle(w, host, i, b, f, ctx)
  }

  /** The notices the principal accepted while slot `i` was settled. */
  function Heard(w: World, host: Host, i: nat, b: Bound, ctx: Members): seq<Notice> {
    match Call(w, host, i, b, ctx)
    case Success(_) => []
    case Failure(f) =>
      var n := NoticeOf(i, b, f.reason, ctx);
      if Announces(host, b, f) && w.notifierAccepts(i, n) then [n] else []
  }

  function CoreErrVerdict<T>(r: Fallible<T>, fallback: string): Verdict
    requires !r.Ok?
  {
    match r
    case Refused(code, detail) => HostError(code, detail)
    case Broken(text) => HostError(fallback, text)
  }

  /** The verdict after folding and the context it leaves. */
  datatype Folding = Folding(verdict: Verdict, ctx: Members)

  function Fold(core: Core, mode: Mode, ctx: Members, v: Verdict): Folding {
    if v.transform.None? then
      Folding(HostError(TRANSFORM_INVALID, "transform body missing"), ctx)
    else if mode == Enforce then
      var r := core.applyTransform(ctx, v.transform.value);
      if r.Ok? then Folding(v, r.value) else Folding(CoreErrVerdict(r, TRANSFORM_INVALID), ctx)
    else
      var r := core.validateTransform(ctx, v.transform.value);
      if r.Ok? then Folding(v, ctx) else Folding(CoreErrVerdict(r, TRANSFORM_INVALID), ctx)
  }

  // ---- the approval seam ----------------------------------------------------

  datatype Consultation = NotConsulted | Consulted(verdict: Verdict, permitted: bool)

  /** A consultation and the live context it leaves. */
  datatype Seam = Seam(result: Consultation, ctx: Members)

  function IdentityOf(w: World, p: Provider, ctx: Members): Fallible<Option<string>> {
    match p
    case NullProvider => Ok(None)
    case JcsProvider => Lifted(w.core.contextIdentity(ctx))
    case CustomProvider(_) => Lifted(w.customIdentity(ctx))
  }

  function Lifted(r: Fallible<string>): Fallible<Option<string>> {
    match r
    case Ok(s) => Ok(Some(s))
    case Refused(code, detail) => Refused(code, detail)
    case Broken(text) => Broken(text)
  }

  predicate SeamOpen(host: Host, ctx: Members, v: Verdict) {
    IsLiftable(v) && host.mode == Enforce && PointOf(ctx) != AGENT_SHUTDOWN && host.hasResolver
  }

  /** What becomes of the context before the resolver is called for slot `i`. */
  function Presentation(w: World, host: Host, i: nat, ctx: Members): Redaction {
    if host.hasRedactor then w.redact(i, ctx) else Redaction(Live, ctx, true)
  }

  /** The context the resolver would be shown. */
  function Shown(p: Redaction): Members {
    match p.result
    case Other(shown) => shown
    case _ => p.leaves
  }

  /** The resolver can reach a node of the live context: it is shown the context itself, or
      holds a part of it. `ContextHeap` shows that this is what decides whether it can
      change the live content. */
  predicate ReachesLive(p: Redaction) {
    p.result.Live? || p.reaches
  }

  /** How the emitter reads a resolution it asked for under `identity`. */
  function Judge(core: Core, spec: string, identity: Option<string>, r: Resolution): (c: Consultation)
    ensures c.Consulted?
  {
    match r
    case ResolverTimedOut => Consulted(HostError(APPROVAL_RESOLVER_FAILED, "timeout"), false)
    case ResolverRaised(t) => Consulted(HostError(APPROVAL_RESOLVER_FAILED, t), false)
    case Resolution(outcome, echo, verdict) =>
      if echo != identity then
        Consulted(HostError(APPROVAL_IDENTITY_MISMATCH, ""), false)
      else if verdict.None? || outcome == Unresolved then
        Consulted(HostError(APPROVAL_UNRESOLVED, ""), false)
      else
        var g := core.validateVerdict(spec, verdict.value);
        if !g.Ok? then
          Consulted(CoreErrVerdict(g, VERDICT_INVALID), false)
        else
          match outcome
          case Approve =>
            if Permits(g.value.decision) then Consulted(g.value, true)
            else Consulted(HostError(VERDICT_INVALID, "approve MUST carry a permit verdict"), false)
          case Reject =>
            if g.value.decision == Deny then Consulted(g.value, false)
            else Consulted(HostError(VERDICT_INVALID, "reject MUST carry a deny verdict"), false)
          case _ => Consulted(HostError(APPROVAL_UNRESOLVED, ""), false)
  }

  function Consult(w: World, host: Host, i: nat, ctx: Members, v: Verdict): Seam {
    if !SeamOpen(host, ctx, v) then
      Seam(NotConsulted, ctx)
    else
      var p := Presentation(w, host, i, ctx);
      if p.result.RedactorPanicked? then
        Seam(Consulted(HostError(APPROVAL_RESOLVER_FAILED, p.result.typeName), false), p.leaves)
      else
        var id := IdentityOf(w, host.identity, Shown(p));
        if !id.Ok? then
          Seam(Consulted(CoreErrVerdict(id, CONTEXT_INVALID), false), p.leaves)
        else
          var req := Request(id.value, PointOf(p.leaves), v, Shown(p));
          Seam(Judge(w.core, host.spec, id.value, w.resolve(i, req)),
               // A resolver that can reach the live context can write to it.
               if ReachesLive(p) then w.resolverLeaves(i, req, p.leaves) else p.leaves)
  }

  // ---- the eight points ---------------------------------------------------------------------

  lemma PointsAre()
    ensures forall p :: p in ALL_POINTS <==>
      p in {"agent_startup", "input", "pre_model_call", "post_model_call",
            "pre_tool_call", "post_tool_call", "output", "agent_shutdown"}
    ensures "" !in ALL_POINTS
  {
    assert ALL_POINTS[0] == "agent_startup" && ALL_POINTS[1] == "input" && ALL_POINTS[2] == "pre_model_call"
      && ALL_POINTS[3] == "post_model_call" && ALL_POINTS[4] == "pre_tool_call" && ALL_POINTS[5] == "post_tool_call"
      && ALL_POINTS[6] == "output" && ALL_POINTS[7] == "agent_shutdown";
  }
}
