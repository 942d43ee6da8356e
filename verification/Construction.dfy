/** Building an emitter from a resolved declaration and a host registry. */
module Construction {
  import opened Json
  import opened Verdicts
  import opened Hosts
  import Slots
  import opened Lifecycle

  /** The largest value of the platform's `int` (64-bit). */
  const MAX_INT: int := 0x7fff_ffff_ffff_ffff

  datatype Binding = Binding(id: string, kind: string, at: seq<string>, onError: OnError)

  datatype Resolved = Resolved(
    declaration: string, spec: string, bindings: seq<Binding>, mode: Mode, composition: Composition,
    identityProvider: Option<string>, resolver: Option<string>, redactor: Option<string>,
    failureOnError: OnError, maxBuffered: Option<nat>)

  /** The names a registry holds. Whether a kind's resolver yields an interceptor for
      a binding is the host's code. */
  datatype Registry = Registry(
    kinds: set<string>, managedKinds: set<string>, identityProviders: set<string>,
    approvalResolvers: set<string>, approvalRedactors: set<string>, hasNotifier: bool,
    resolves: (nat, Binding) -> bool)

  datatype Refusal =
    | ResolverUnresolved | ProviderUnresolved | RedactorUnresolved
    | KindUnknown(index: nat) | ContinueWithoutNotifier(index: nat, inherited: bool) | KindRejected(index: nat)

  function Provider(name: Option<string>): Hosts.Provider {
    match name
    case None => NullProvider
    case Some(n) => if n == JCS_SHA256 then JcsProvider else CustomProvider(n)
  }

  /** Why a binding is refused, if it is. */
  function BindingRefusal(i: nat, b: Binding, resolved: Resolved, reg: Registry): Option<Refusal> {
    if b.kind !in reg.kinds && b.kind !in reg.managedKinds then Some(KindUnknown(i))
    else if OrDefault(b.onError) == OnErrorContinue && !reg.hasNotifier then
      Some(ContinueWithoutNotifier(i, b.onError == resolved.failureOnError))
    else if !reg.resolves(i, b) then Some(KindRejected(i))
    else None
  }

  /** Copying an empty list of points yields none at all, which is every point. */
  function BoundOf(b: Binding, reg: Registry): Bound {
    Bound(b.kind !in reg.kinds, b.id, if b.at == [] then None else Some(b.at), OrDefault(b.onError))
  }

  /** The record bound of a declared one: never unbounded. */
  function ClampedBound(maxBuffered: Option<nat>): int {
    match maxBuffered
    case None => 0
    case Some(n) => if n < MAX_INT then n else MAX_INT
  }

  function ReferenceRefusal(resolved: Resolved, reg: Registry): Option<Refusal> {
    if resolved.resolver.Some? && resolved.resolver.value !in reg.approvalResolvers then Some(ResolverUnresolved)
    else if resolved.identityProvider.Some? && resolved.identityProvider.value != JCS_SHA256
            && resolved.identityProvider.value !in reg.identityProviders then Some(ProviderUnresolved)
    else if resolved.redactor.Some? && resolved.redactor.value !in reg.approvalRedactors then Some(RedactorUnresolved)
    else None
  }

  /** A built emitter is what the document says and nothing else. */
  ghost predicate IsBuilt(s: State, resolved: Resolved, reg: Registry) {
    && s.sealed
    && s.declaration == Some(resolved.declaration)
    && s.spec == resolved.spec && s.mode == resolved.mode && s.composition == resolved.composition
    && s.identity == Provider(resolved.identityProvider)
    && s.hasResolver == resolved.resolver.Some? && s.hasRedactor == resolved.redactor.Some?
    && s.hasNotifier == reg.hasNotifier
    && s.maxRecords == ClampedBound(resolved.maxBuffered)
    && s.records == [] && s.recordsDropped == 0
    && |s.bound| == |resolved.bindings|
    && forall i | 0 <= i < |s.bound| :: s.bound[i] == BoundOf(resolved.bindings[i], reg)
  }

  /** The first reason to refuse, references before bindings, bindings in order. */
  ghost predicate IsFirstRefusal(r: Refusal, resolved: Resolved, reg: Registry) {
    var ref := ReferenceRefusal(resolved, reg);
    if ref.Some? then r == ref.value
    else
      exists i | 0 <= i < |resolved.bindings| ::
        && BindingRefusal(i, resolved.bindings[i], resolved, reg) == Some(r)
        && forall j | 0 <= j < i :: BindingRefusal(j, resolved.bindings[j], resolved, reg) == None
  }

  /** Step 11 of loading: look every reference up again, run the kind resolvers in
      order, and build a sealed emitter, or refuse at the first failure. */
  method EmitterFromResolved(resolved: Resolved, reg: Registry) returns (r: Result<State, Refusal>)
    requires forall b | b in resolved.bindings :: !b.onError.OtherOnError?
    ensures r.Success? <==>
      && ReferenceRefusal(resolved, reg) == None
      && forall i | 0 <= i < |resolved.bindings| :: BindingRefusal(i, resolved.bindings[i], resolved, reg) == None
    ensures r.Success? ==> IsBuilt(r.value, resolved, reg) && Inv(r.value)
    ensures r.Failure? ==> IsFirstRefusal(r.error, resolved, reg)
  {
    if resolved.resolver.Some? && resolved.resolver.value !in reg.approvalResolvers {
      return Failure(ResolverUnresolved);
    }
    var identity := NullProvider;
    if resolved.identityProvider.Some? {
      var name := resolved.identityProvider.value;
      if name == JCS_SHA256 {
        identity := JcsProvider;
      } else if name !in reg.identityProviders {
        return Failure(ProviderUnresolved);
      } else {
        identity := CustomProvider(name);
      }
    }
    if resolved.redactor.Some? && resolved.redactor.value !in reg.approvalRedactors {
      return Failure(RedactorUnresolved);
    }
    var bounds: seq<Bound> := [];
    for i := 0 to |resolved.bindings|
      invariant |bounds| == i
      invariant forall j | 0 <= j < i :: BindingRefusal(j, resolved.bindings[j], resolved, reg) == None
      invariant forall j | 0 <= j < i :: bounds[j] == BoundOf(resolved.bindings[j], reg)
      invariant forall b | b in bounds :: b.onError == OnErrorDeny || (b.onError == OnErrorContinue && reg.hasNotifier)
    {
      var b := resolved.bindings[i];
      assert b in resolved.bindings;
      if b.kind !in reg.kinds && b.kind !in reg.managedKinds {
        return Failure(KindUnknown(i));
      }
      if OrDefault(b.onError) == OnErrorContinue && !reg.hasNotifier {
        return Failure(ContinueWithoutNotifier(i, b.onError == resolved.failureOnError));
      }
      if !reg.resolves(i, b) {
        return Failure(KindRejected(i));
      }
      bounds := bounds + [BoundOf(b, reg)];
    }
    var maxRecords := 0;
    if resolved.maxBuffered.Some? {
      maxRecords := MAX_INT;
      if resolved.maxBuffered.value < MAX_INT {
        maxRecords := resolved.maxBuffered.value;
      }
    }
    return Success(State(
      bounds, resolved.mode, resolved.spec, identity, resolved.resolver.Some?,
      resolved.redactor.Some?, reg.hasNotifier, resolved.composition, maxRecords,
      [], 0, true, Some(resolved.declaration)));
  }

  /** A declared bound of at least one record stays a bound of at least one, and holds
      after every delivery of every run of the emitter. */
  lemma {:induction false} DeclaredBoundHolds(s: State, resolved: Resolved, reg: Registry, ops: seq<Op>, r: Record)
    requires IsBuilt(s, resolved, reg) && resolved.maxBuffered.Some? && resolved.maxBuffered.value >= 1
    ensures
      var after := Apply(Execute(s, ops).state, Deliver(r)).0;
      && 1 <= after.maxRecords <= resolved.maxBuffered.value
      && 1 <= |after.records| <= after.maxRecords
  {
    BoundSurvives(s, ops);
    DeliveryIsBounded(Execute(s, ops).state, r);
  }

  lemma {:induction false} BoundSurvives(s: State, ops: seq<Op>)
    requires s.sealed
    ensures Execute(s, ops).state.sealed && Execute(s, ops).state.maxRecords == s.maxRecords
  {
    if ops != [] { BoundSurvives(s, ops[..|ops| - 1]); }
  }

  /** From construction on, every run keeps the invariant and the declared
      configuration. */
  lemma BuiltEmittersStayDeclared(s: State, resolved: Resolved, reg: Registry, ops: seq<Op>)
    requires IsBuilt(s, resolved, reg) && Inv(s)
    ensures
      var after := Execute(s, ops).state;
      && Inv(after) && SameDeclared(s, after)
      && |after.bound| == |resolved.bindings|
      && forall i | 0 <= i < |after.bound| :: after.bound[i] == BoundOf(resolved.bindings[i], reg)
  {
    RunsKeepConfiguration(s, ops);
  }

  /** A built emitter answers at exactly the points its binding names, at every one when it
      names none, and keeps the binding's id and posture. */
  lemma BuiltBindings(s: State, resolved: Resolved, reg: Registry, i: nat, point: string)
    requires IsBuilt(s, resolved, reg) && i < |resolved.bindings| && !resolved.bindings[i].onError.OtherOnError?
    requires point in {"agent_startup", "input", "pre_model_call", "post_model_call",
                       "pre_tool_call", "post_tool_call", "output", "agent_shutdown"}
    ensures
      var b := resolved.bindings[i];
      && (RunsAt(s.bound[i], point) <==> b.at == [] || point in b.at)
      && s.bound[i].name == b.id
      && s.bound[i].onError == (if b.onError == OnErrorContinue then OnErrorContinue else OnErrorDeny)
  {
    Slots.PointsAre();
    hide ALL_POINTS;
  }

  /** A built emitter's bound is the declared one, at most the largest platform integer, and
      none when none is declared. */
  lemma BuiltBound(s: State, resolved: Resolved, reg: Registry)
    requires IsBuilt(s, resolved, reg)
    ensures resolved.maxBuffered.None? ==> s.maxRecords == 0
    ensures resolved.maxBuffered.Some? ==>
      && s.maxRecords <= 0x7fff_ffff_ffff_ffff && s.maxRecords <= resolved.maxBuffered.value
      && (s.maxRecords == resolved.maxBuffered.value || s.maxRecords == 0x7fff_ffff_ffff_ffff)
  {
  }

  /** A built emitter's provider is the declared one. */
  lemma BuiltProvider(s: State, resolved: Resolved, reg: Registry)
    requires IsBuilt(s, resolved, reg)
    ensures match resolved.identityProvider
      case None => s.identity == NullProvider
      case Some(name) => s.identity == if name == "jcs-sha256" then JcsProvider else CustomProvider(name)
  {
  }

  /** Construction goes through exactly when the document's resolver, custom provider and
      redactor are registered and each binding's kind is, with a channel when the binding
      continues, and its resolver yields an interceptor. */
  lemma BuildsIff(resolved: Resolved, reg: Registry)
    ensures
      (ReferenceRefusal(resolved, reg) == None
       && forall i | 0 <= i < |resolved.bindings| :: BindingRefusal(i, resolved.bindings[i], resolved, reg) == None) <==>
      && (resolved.resolver.Some? ==> resolved.resolver.value in reg.approvalResolvers)
      && (resolved.identityProvider.Some? && resolved.identityProvider.value != "jcs-sha256" ==>
            resolved.identityProvider.value in reg.identityProviders)
      && (resolved.redactor.Some? ==> resolved.redactor.value in reg.approvalRedactors)
      && forall i | 0 <= i < |resolved.bindings| ::
           var b := resolved.bindings[i];
           && (b.kind in reg.kinds || b.kind in reg.managedKinds)
           && (b.onError == OnErrorContinue ==> reg.hasNotifier)
           && reg.resolves(i, b)
  {
    forall i | 0 <= i < |resolved.bindings|
      ensures BindingRefusal(i, resolved.bindings[i], resolved, reg) == None <==>
        var b := resolved.bindings[i];
        && (b.kind in reg.kinds || b.kind in reg.managedKinds)
        && (b.onError == OnErrorContinue ==> reg.hasNotifier)
        && reg.resolves(i, b)
    {
    }
  }

  /** What a refusal tells: the first of the references in the order resolver, provider,
      redactor, else the first binding that fails, by its kind, its missing channel, or its
      resolver, in that order. */
  lemma RefusalTells(r: Refusal, resolved: Resolved, reg: Registry)
    requires IsFirstRefusal(r, resolved, reg)
    ensures match r
      case ResolverUnresolved => resolved.resolver.Some? && resolved.resolver.value !in reg.approvalResolvers
      case ProviderUnresolved =>
        && resolved.identityProvider.Some? && resolved.identityProvider.value !in reg.identityProviders
        && resolved.identityProvider.value != "jcs-sha256"
        && (resolved.resolver.Some? ==> resolved.resolver.value in reg.approvalResolvers)
      case RedactorUnresolved =>
        && resolved.redactor.Some? && resolved.redactor.value !in reg.approvalRedactors
        && (resolved.resolver.Some? ==> resolved.resolver.value in reg.approvalResolvers)
      case KindUnknown(i) =>
        i < |resolved.bindings| && resolved.bindings[i].kind !in reg.kinds && resolved.bindings[i].kind !in reg.managedKinds
      case ContinueWithoutNotifier(i, inherited) =>
        && i < |resolved.bindings| && resolved.bindings[i].onError == OnErrorContinue && !reg.hasNotifier
        && (resolved.bindings[i].kind in reg.kinds || resolved.bindings[i].kind in reg.managedKinds)
        && (inherited <==> resolved.failureOnError == OnErrorContinue)
      case KindRejected(i) =>
        && i < |resolved.bindings| && !reg.resolves(i, resolved.bindings[i])
        && (resolved.bindings[i].onError == OnErrorContinue ==> reg.hasNotifier)
  {
  }
}
