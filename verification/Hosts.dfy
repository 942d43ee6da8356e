/** What an emission depends on besides its own code: the shared core, the
    host's callbacks, and the configuration in effect. */
module Hosts {
  import opened Json
  import opened Verdicts
  import opened Rereading
  import opened ContextHeap

  /** The result of a call into the core: a value, a refusal carrying the
      core's error code, or an error that is not the core's. */
  datatype Fallible<+T> = Ok(value: T) | Refused(code: string, detail: string) | Broken(text: string)

  datatype Profile = SequentialFirstDeny | SequentialRunAll | ParallelStrictest | ParallelUnanimous

  /** The `on_approval` knob; an absent one is `Stop`. */
  datatype Knob = Stop | Resume

  /** The `deny` or `approval` knobs of the parallel profiles. */
  datatype Policy = SynthesizeDeny | SynthesizeApproval

  datatype Composition = Composition(
    profile: Profile, onApproval: Option<Knob>, onDisagreement: Option<Policy>, onTransformConflict: Option<Policy>)

  const DEFAULT_COMPOSITION := Composition(SequentialFirstDeny, Some(Stop), None, None)

  /** The result of one profile dispatch. */
  datatype Outcome = Outcome(
    combined: Verdict, decidedBy: Option<nat>, verdicts: seq<Summary>,
    foldTruncated: Option<bool>, resolvedBy: Option<ResolvedBy>)

  /** What the core's aggregation returns. */
  datatype Aggregate = Aggregate(
    combined: Verdict, decidedBy: Option<nat>, consult: bool, applyTransform: bool, verdicts: seq<Summary>)

  /** What the emitter tells the core when it asks for the record of an emission. */
  datatype Finalization = Finalization(
    inputIdentity: Option<string>, enforcedIdentity: Option<string>, identityProvider: Option<string>, outcome: Outcome,
    composition: Composition, registered: nat, declaration: Option<string>)

  datatype Record = Record(
    mode: Mode, verdict: Verdict, inputIdentity: Option<string>, enforcedIdentity: Option<string>,
    identityProvider: Option<string>, sequence: int, decidedBy: Option<nat>, composition: Composition, declaration: Option<string>,
    verdicts: seq<Summary>, foldTruncated: Option<bool>, resolvedBy: Option<ResolvedBy>, registered: nat)

  /** Whether the guarded action executes. */
  predicate Proceeds(r: Record) {
    r.mode == EvaluateOnly || Permits(r.verdict.decision)
  }

  /** The core functions the emitter calls; their algorithms are not modelled. `number` is
      how the SDK's decoder reads back a number of the contexts it copies; `applyTransform`
      gives the context as the emitter has read it back. */
  datatype Core = Core(
    number: Reader,
    validateVerdict: (string, Verdict) -> Fallible<Verdict>,
    applyTransform: (Members, TransformBody) -> Fallible<Members>,
    validateTransform: (Members, TransformBody) -> Fallible<()>,
    contextIdentity: Members -> Fallible<string>,
    aggregate: (string, Composition, seq<Verdict>) -> Fallible<Aggregate>,
    validateEnvelope: Members -> Fallible<()>,
    finalize: (Members, Verdict, Mode, Finalization) -> Fallible<Record>)

  /** The gate contract: a verdict the core lets through is well formed. */
  ghost predicate GateContract(core: Core) {
    forall spec, v :: core.validateVerdict(spec, v).Ok? ==> WellFormed(spec, core.validateVerdict(spec, v).value)
  }

  /** The severity contract of aggregation. Under the profiles that pick the highest
      severity a permit wins only over permits, and the seam is asked for only when no
      plain deny was returned; `parallel/unanimous` permits only what everybody allowed. */
  ghost predicate SeverityContract(core: Core) {
    forall spec, c, all: seq<Verdict> ::
      var r := core.aggregate(spec, c, all);
      r.Ok? ==>
        && (c.profile in {SequentialRunAll, ParallelStrictest} ==>
              && (Permits(r.value.combined.decision) ==> forall v | v in all :: Permits(v.decision))
              && (r.value.consult ==> forall v | v in all :: Permits(v.decision) || IsLiftable(v)))
        && (c.profile == ParallelUnanimous ==>
              (Permits(r.value.combined.decision) ==> forall v | v in all :: v.decision == Allow))
  }

  /** The record contract: the core keeps the mode and never turns a block into a permit. */
  ghost predicate RecordContract(core: Core) {
    forall ctx, v, mode, f ::
      var r := core.finalize(ctx, v, mode, f);
      r.Ok? ==> r.value.mode == mode && (Permits(r.value.verdict.decision) ==> Permits(v.decision))
  }

  // ---- host callbacks -------------------------------------------------------

  /** How a bounded call of a standard interceptor ended. */
  datatype Callee = Returned(verdict: Verdict) | Raised(typeName: string) | TimedOut

  /** The typed outcome of a managed interceptor. */
  datatype Managed =
    | ManagedVerdict(verdict: Verdict)
    | ManagedTimeout
    | ManagedCancelled
    | ManagedFailed(detail: string)
    | ManagedMalformed
    | ManagedPanicked(typeName: string)

  datatype Request = Request(identity: Option<string>, point: string, verdict: Verdict, context: Members)

  datatype ApprovalOutcome = Approve | Reject | Unresolved | OtherOutcome(wire: string)

  datatype Resolution =
    | Resolution(outcome: ApprovalOutcome, identity: Option<string>, verdict: Option<Verdict>)
    | ResolverRaised(typeName: string)
    | ResolverTimedOut

  /** What a redactor handed back: the live context itself, another context, or a panic. */
  datatype Presented = Live | Other(shown: Members) | RedactorPanicked(typeName: string)

  /** A redactor's result, what it left in the live context it was called with, and whether
      the resolver can now reach a node of the live context: through parts the result
      shares with it, or through what the redactor or the resolver kept, in this
      consultation or an earlier one. */
  datatype Redaction = Redaction(result: Presented, leaves: Members, reaches: bool)

  /** The host's callbacks over one emission. A slot is invoked at most once and
      consults at most once per emission, so a function of the slot index and the argument
      describes what any callback returns, however stateful it is. `moves` is what an
      interceptor does to the copy it is handed; `resolverLeaves` is what the live context
      holds after a resolver that could reach it. Two things are assumed: whoever holds
      parts of the live context writes to it only in the redactor's or the resolver's own
      turn of a consultation, and a custom identity provider is a pure function of the
      context, as section 10.1 requires. */
  datatype World = World(
    core: Core,
    intercept: (nat, Members) -> Callee,
    manage: (nat, Members) -> Managed,
    moves: (nat, Members) -> seq<Move>,
    callerCancelled: nat -> bool,
    notifierAccepts: (nat, Notice) -> bool,
    redact: (nat, Members) -> Redaction,
    customIdentity: Members -> Fallible<string>,
    resolve: (nat, Request) -> Resolution,
    resolverLeaves: (nat, Request, Members) -> Members)

  datatype Provider = NullProvider | JcsProvider | CustomProvider(name: string)

  const JCS_SHA256 := "jcs-sha256"

  /** The declared name of a provider. */
  function ProviderName(p: Provider): Option<string> {
    match p
    case NullProvider => None
    case JcsProvider => Some(JCS_SHA256)
    case CustomProvider(name) => Some(name)
  }

  /** One registration. `at == None` is every point. */
  datatype Bound = Bound(managed: bool, name: string, at: Option<seq<string>>, onError: OnError)

  /** The configuration of an emitter that dispatch reads. */
  datatype Host = Host(
    mode: Mode, spec: string, identity: Provider, hasResolver: bool, hasRedactor: bool, hasNotifier: bool)

  /** Error codes the core refuses with are reserved reasons. */
  ghost predicate CodeContract(w: World) {
    && (forall spec, v :: w.core.validateVerdict(spec, v).Refused? ==> HOST_ERROR <= w.core.validateVerdict(spec, v).code)
    && (forall c :: w.core.contextIdentity(c).Refused? ==> HOST_ERROR <= w.core.contextIdentity(c).code)
    && (forall c :: w.customIdentity(c).Refused? ==> HOST_ERROR <= w.customIdentity(c).code)
    && (forall c, t :: w.core.applyTransform(c, t).Refused? ==> HOST_ERROR <= w.core.applyTransform(c, t).code)
    && (forall c, t :: w.core.validateTransform(c, t).Refused? ==> HOST_ERROR <= w.core.validateTransform(c, t).code)
  }

  predicate RunsAt(b: Bound, point: string) {
    b.at.None? || point !in ALL_POINTS || point in b.at.value
  }
}
