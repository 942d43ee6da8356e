/** The approval seam as its parties meet it: when it is asked, what the resolver is shown,
    what an approval is bound to, and how the other endings are reported. */
module SeamLaws {
  import opened Json
  import opened Verdicts
  import opened Hosts
  import opened Slots

  /** The provider's identity of a context, if it can be had. */
  predicate Gives(w: World, p: Provider, ctx: Members, id: Option<string>) {
    match p
    case NullProvider => id == None
    case JcsProvider => id.Some? && w.core.contextIdentity(ctx) == Ok(id.value)
    case CustomProvider(_) => id.Some? && w.customIdentity(ctx) == Ok(id.value)
  }

  predicate Identifiable(w: World, p: Provider, ctx: Members) {
    match p
    case NullProvider => true
    case JcsProvider => w.core.contextIdentity(ctx).Ok?
    case CustomProvider(_) => w.customIdentity(ctx).Ok?
  }

  /** The seam is asked about a deny with an approval block, in enforce mode, with a
      resolver, and not at shutdown; about nothing else. */
  lemma AskedIff(w: World, host: Host, i: nat, ctx: Members, v: Verdict)
    ensures Consult(w, host, i, ctx, v).result.Consulted? <==>
      && v.decision == Deny && v.approval.Some?
      && host.mode == Enforce && host.hasResolver
      && !("interception_point" in ctx && ctx["interception_point"] == Str("agent_shutdown"))
  {
    hide Judge, IdentityOf;
  }

  /** What the redactor makes of the live context is what is shown, and the live context
      itself without one; `live` is what the live context then holds. */
  predicate Presents(w: World, host: Host, i: nat, ctx: Members, shown: Members, live: Members) {
    if host.hasRedactor then
      var r := w.redact(i, ctx);
      && live == r.leaves
      && match r.result
         case Live => shown == live
         case Other(redacted) => shown == redacted
         case RedactorPanicked(_) => false
    else shown == ctx && live == ctx
  }

  /** A request for the deny `v`, showing `shown` and bound to its identity. */
  predicate Asks(w: World, host: Host, v: Verdict, shown: Members, live: Members, r: Request) {
    && r.context == shown && Gives(w, host.identity, shown, r.identity)
    && r.verdict == v && r.point == StringMember(live, "interception_point")
  }

  /** Only the answer to the request for exactly what is shown, under exactly its identity,
      matters: a resolver that answers every other request differently changes nothing. */
  lemma OnlyTheShownIsAsked(
    w: World, host: Host, i: nat, ctx: Members, v: Verdict, shown: Members, live: Members, other: (nat, Request) -> Resolution)
    requires Presents(w, host, i, ctx, shown, live)
    requires forall r | Asks(w, host, v, shown, live, r) :: other(i, r) == w.resolve(i, r)
    ensures Consult(w.(resolve := other), host, i, ctx, v) == Consult(w, host, i, ctx, v)
  {
    var id := IdentityOf(w, host.identity, shown);
    if id.Ok? {
      assert Asks(w, host, v, shown, live, Request(id.value, PointOf(live), v, shown));
    }
    assert IdentityOf(w.(resolve := other), host.identity, shown) == id;
    hide Judge, SeamOpen;
  }

  /** And that answer does: two resolvers that judge it differently are told apart. */
  lemma TheShownIsJudged(
    w: World, host: Host, i: nat, ctx: Members, v: Verdict, shown: Members, live: Members, r: Request)
    requires Presents(w, host, i, ctx, shown, live) && Asks(w, host, v, shown, live, r)
    requires Consult(w, host, i, ctx, v).result.Consulted?
    ensures Consult(w, host, i, ctx, v).result == Judge(w.core, host.spec, r.identity, w.resolve(i, r))
  {
    hide Judge;
  }

  /** A resolution that does not repeat the identity of what was shown lifts nothing. */
  lemma EchoIsOfTheShown(
    w: World, host: Host, i: nat, ctx: Members, v: Verdict, shown: Members, live: Members, r: Request)
    requires Presents(w, host, i, ctx, shown, live) && Asks(w, host, v, shown, live, r)
    requires Consult(w, host, i, ctx, v).result.Consulted?
    requires w.resolve(i, r).Resolution? && !Gives(w, host.identity, shown, w.resolve(i, r).identity)
    ensures FailedAs(Consult(w, host, i, ctx, v).result, "host_error:approval_identity_mismatch")
  {
    TheShownIsJudged(w, host, i, ctx, v, shown, live, r);
    assert w.resolve(i, r).identity != r.identity;
    hide Consult, Presents, Gives;
    MismatchIs(w.core, host.spec, r.identity, w.resolve(i, r));
  }

  lemma MismatchIs(core: Core, spec: string, identity: Option<string>, r: Resolution)
    requires r.Resolution? && r.identity != identity
    ensures FailedAs(Judge(core, spec, identity, r), "host_error:approval_identity_mismatch")
  {
    ReservedReasons();
    hide APPROVAL_RESOLVER_FAILED, APPROVAL_UNRESOLVED, APPROVAL_IDENTITY_MISMATCH, VERDICT_INVALID;
  }

  lemma ReservedReasons()
    ensures CONTEXT_INVALID == "host_error:context_invalid"
    ensures APPROVAL_RESOLVER_FAILED == "host_error:approval_resolver_failed"
    ensures APPROVAL_IDENTITY_MISMATCH == "host_error:approval_identity_mismatch"
    ensures TRANSFORM_INVALID == "host_error:transform_invalid"
  {
    assert CONTEXT_INVALID == "host_error:context_invalid" by { hide APPROVAL_RESOLVER_FAILED, APPROVAL_IDENTITY_MISMATCH, TRANSFORM_INVALID; }
    ApprovalReasons();
    assert TRANSFORM_INVALID == "host_error:transform_invalid" by { hide APPROVAL_RESOLVER_FAILED, APPROVAL_IDENTITY_MISMATCH, CONTEXT_INVALID; }
    hide CONTEXT_INVALID, APPROVAL_RESOLVER_FAILED, APPROVAL_IDENTITY_MISMATCH, TRANSFORM_INVALID;
  }

  lemma ApprovalReasons()
    ensures APPROVAL_RESOLVER_FAILED == "host_error:approval_resolver_failed"
    ensures APPROVAL_IDENTITY_MISMATCH == "host_error:approval_identity_mismatch"
  {
  }

  /** A consultation the host ends with a reserved deny. */
  predicate FailedAs(c: Consultation, reason: string) {
    c.Consulted? && !c.permitted && c.verdict.decision == Deny && c.verdict.reason == reason && c.verdict.approval.None?
  }

  /** A redactor that panics fails the consultation closed. */
  lemma PanickedRedactor(w: World, host: Host, i: nat, ctx: Members, v: Verdict)
    requires Consult(w, host, i, ctx, v).result.Consulted?
    requires host.hasRedactor && w.redact(i, ctx).result.RedactorPanicked?
    ensures FailedAs(Consult(w, host, i, ctx, v).result, "host_error:approval_resolver_failed")
  {
    ReservedReasons();
    hide SeamOpen, Judge, IdentityOf, APPROVAL_RESOLVER_FAILED, CONTEXT_INVALID;
  }

  /** So does an identity of what would be shown that cannot be had. */
  lemma NoIdentity(w: World, host: Host, i: nat, ctx: Members, v: Verdict, shown: Members, live: Members)
    requires Consult(w, host, i, ctx, v).result.Consulted?
    requires Presents(w, host, i, ctx, shown, live) && !Identifiable(w, host.identity, shown)
    ensures FailedAs(Consult(w, host, i, ctx, v).result, IdentityFault(w, host.identity, shown))
  {
    ReservedReasons();
    hide SeamOpen, Judge, CONTEXT_INVALID, APPROVAL_RESOLVER_FAILED;
  }

  /** And a resolver that raises or takes too long. */
  lemma NoResolution(w: World, host: Host, i: nat, ctx: Members, v: Verdict, shown: Members, live: Members, r: Request)
    requires Consult(w, host, i, ctx, v).result.Consulted?
    requires Presents(w, host, i, ctx, shown, live) && Asks(w, host, v, shown, live, r) && !w.resolve(i, r).Resolution?
    ensures FailedAs(Consult(w, host, i, ctx, v).result, "host_error:approval_resolver_failed")
  {
    TheShownIsJudged(w, host, i, ctx, v, shown, live, r);
    ReservedReasons();
    hide Consult, Presents, Asks, APPROVAL_RESOLVER_FAILED, APPROVAL_UNRESOLVED, APPROVAL_IDENTITY_MISMATCH, VERDICT_INVALID;
  }

  /** The reason of an identity that cannot be had: the provider's own code, or an invalid context. */
  function IdentityFault(w: World, p: Provider, ctx: Members): string {
    if p.JcsProvider? && w.core.contextIdentity(ctx).Refused? then w.core.contextIdentity(ctx).code
    else if p.CustomProvider? && w.customIdentity(ctx).Refused? then w.customIdentity(ctx).code
    else "host_error:context_invalid"
  }

  // ---- folds ---------------------------------------------------------------------------------

  /** A transform that does not apply leaves the context and becomes a host deny with the
      core's reason, or the invalid transform when the core gives none. */
  lemma FoldFailure(core: Core, mode: Mode, ctx: Members, v: Verdict)
    ensures
      var f := Fold(core, mode, ctx, v);
      match v.transform
      case None => FailedFold(f, ctx, "host_error:transform_invalid")
      case Some(t) =>
        if mode == Enforce then
          match core.applyTransform(ctx, t)
          case Ok(after) => f == Folding(v, after)
          case Refused(code, _) => FailedFold(f, ctx, code)
          case Broken(_) => FailedFold(f, ctx, "host_error:transform_invalid")
        else
          match core.validateTransform(ctx, t)
          case Ok(_) => f == Folding(v, ctx)
          case Refused(code, _) => FailedFold(f, ctx, code)
          case Broken(_) => FailedFold(f, ctx, "host_error:transform_invalid")
  {
    ReservedReasons();
    hide TRANSFORM_INVALID;
  }

  predicate FailedFold(f: Folding, ctx: Members, reason: string) {
    f.ctx == ctx && f.verdict.decision == Deny && f.verdict.reason == reason && f.verdict.approval.None?
  }

  /** What the live context holds after a consultation: what the redactor left, and, when the
      resolver is called and holds the live context or can reach it, what the resolver left. */
  lemma SeamLeavesWhat(
    w: World, host: Host, i: nat, ctx: Members, v: Verdict, shown: Members, live: Members, r: Request)
    requires Presents(w, host, i, ctx, shown, live) && Asks(w, host, v, shown, live, r)
    requires Consult(w, host, i, ctx, v).result.Consulted?
    ensures Consult(w, host, i, ctx, v).ctx ==
      if !host.hasRedactor || w.redact(i, ctx).result.Live? || w.redact(i, ctx).reaches then w.resolverLeaves(i, r, live) else live
  {
    hide Judge;
  }
}
