/** The configuration and record buffer of an emitter as a state machine: every
    setter, registration, delivery and drain, and what all runs of them keep. */
module Lifecycle {
  import opened Json
  import opened Verdicts
  import opened Hosts
  import Slots

  datatype State = State(
    bound: seq<Bound>,
    mode: Mode,
    spec: string,
    identity: Provider,
    hasResolver: bool,
    hasRedactor: bool,
    hasNotifier: bool,
    composition: Composition,
    maxRecords: int,
    records: seq<Record>,
    recordsDropped: nat,
    sealed: bool,
    declaration: Option<string>)

  function New(spec: string, mode: Mode, hasResolver: bool): State {
    State([], mode, spec, JcsProvider, hasResolver, false, false, DEFAULT_COMPOSITION, 0, [], 0, false, None)
  }

  /** The declared identity provider; `hasCompute` tells a custom function. */
  datatype Candidate = NoProvider | Candidate(name: string, hasCompute: bool)

  datatype Op =
    | RegisterNamed(name: string)
    | RegisterAt(name: string, at: Option<seq<string>>)
    | Push(managed: bool, name: string, at: Option<seq<string>>, onError: OnError)
    | SetComposition(composition: Option<Composition>)
    | SetIdentityProvider(candidate: Candidate)
    | SetApprovalRedactor(present: bool)
    | SetControlFailureNotifier(present: bool)
    | SetMaxRecords(bound: int)
    | Deliver(record: Record)
    | TakeRecords

  datatype Reply = Accepted | Declined | Panicked | Drained(records: seq<Record>)

  // ---- registration ----------------------------------------------------------------

  predicate Continues(b: Bound) {
    b.onError == OnErrorContinue
  }

  function Dedupe(at: seq<string>): seq<string> {
    if at == [] then []
    else
      var front := Dedupe(at[..|at| - 1]);
      var p := at[|at| - 1];
      if p in front then front else front + [p]
  }

  /** The point set of a registration, or None when it is refused. */
  function CheckPoints(at: Option<seq<string>>): Option<Option<seq<string>>> {
    match at
    case None => Some(None)
    case Some(points) =>
      if points == [] || exists p | p in points :: p !in ALL_POINTS then None
      else Some(Some(Dedupe(points)))
  }

  function PushOp(s: State, managed: bool, name: string, at: Option<seq<string>>, onError: OnError): (State, Reply) {
    var points := CheckPoints(at);
    if s.sealed || points.None? || onError.OtherOnError? then (s, Declined)
    else if onError == OnErrorContinue && (s.spec != SPEC_DRAFT || !s.hasNotifier) then (s, Declined)
    else (s.(bound := s.bound + [Bound(managed, name, points.value, OrDefault(onError))]), Accepted)
  }

  predicate NameChar(c: char) {
    'a' <= c <= 'z' || '0' <= c <= '9' || c == '_' || c == '-'
  }

  predicate IsProviderName(name: string) {
    name != "" && 'a' <= name[0] <= 'z' && (forall c | c in name :: NameChar(c)) && !("jcs" <= name)
  }

  function IdentityOp(s: State, candidate: Candidate): (State, Reply) {
    if s.sealed then (s, Declined)
    else
      match candidate
      case NoProvider => (s.(identity := NullProvider), Accepted)
      case Candidate(name, hasCompute) =>
        if name != JCS_SHA256 && (!hasCompute || !IsProviderName(name)) then (s, Declined)
        else (s.(identity := if hasCompute then CustomProvider(name) else JcsProvider), Accepted)
  }

  // ---- the record buffer -------------------------------------------------------------

  /** How many of the oldest records a delivery drops. */
  function Evicted(s: State): nat {
    if s.maxRecords > 0 && |s.records| >= s.maxRecords then |s.records| - s.maxRecords + 1 else 0
  }

  function DeliverOp(s: State, r: Record): State {
    s.(records := s.records[Evicted(s)..] + [r], recordsDropped := s.recordsDropped + Evicted(s))
  }

  function Apply(s: State, op: Op): (State, Reply) {
    match op
    case RegisterNamed(name) =>
      if s.sealed then (s, Panicked)
      else (s.(bound := s.bound + [Bound(false, name, None, OnErrorDeny)]), Accepted)
    case RegisterAt(name, at) => PushOp(s, false, name, at, OnErrorDeny)
    case Push(managed, name, at, onError) => PushOp(s, managed, name, at, onError)
    case SetComposition(c) =>
      if s.sealed then (s, Declined)
      else (s.(composition := if c.Some? then c.value else DEFAULT_COMPOSITION), Accepted)
    case SetIdentityProvider(candidate) => IdentityOp(s, candidate)
    case SetApprovalRedactor(present) =>
      if s.sealed then (s, Panicked) else (s.(hasRedactor := present), Accepted)
    case SetControlFailureNotifier(present) =>
      if !present && exists b | b in s.bound :: Continues(b) then (s, Panicked)
      else (s.(hasNotifier := present), Accepted)
    case SetMaxRecords(n) =>
      if s.sealed then (s, Panicked) else (s.(maxRecords := n), Accepted)
    case Deliver(r) => (DeliverOp(s, r), Accepted)
    case TakeRecords => (s.(records := []), Drained(s.records))
  }

  // ---- runs --------------------------------------------------------------------------

  /** A run and what passed through the record buffer during it. */
  datatype Run = Run(state: State, delivered: seq<Record>, drained: seq<Record>)

  function Execute(s: State, ops: seq<Op>): Run {
    if ops == [] then Run(s, [], [])
    else
      var before := Execute(s, ops[..|ops| - 1]);
      var op := ops[|ops| - 1];
      var (after, reply) := Apply(before.state, op);
      Run(after,
          before.delivered + (if op.Deliver? then [op.record] else []),
          before.drained + (if reply.Drained? then reply.records else []))
  }

  ghost predicate DupFree<T>(s: seq<T>) {
    forall i, j | 0 <= i < j < |s| :: s[i] != s[j]
  }

  /** A point set made by a code registration. */
  ghost predicate GoodPoints(at: Option<seq<string>>) {
    at.Some? ==> at.value != [] && DupFree(at.value) && forall p | p in at.value :: p in ALL_POINTS
  }

  ghost predicate Inv(s: State) {
    && (forall b | b in s.bound :: Continues(b) ==> s.hasNotifier)
    && (!s.sealed ==> forall b | b in s.bound :: GoodPoints(b.at) && (Continues(b) ==> s.spec == SPEC_DRAFT))
    && (forall b | b in s.bound :: b.onError == OnErrorDeny || b.onError == OnErrorContinue)
  }

  lemma {:induction false} DedupeIs(at: seq<string>)
    ensures DupFree(Dedupe(at)) && (at != [] ==> Dedupe(at) != []) && forall p :: p in Dedupe(at) <==> p in at
  {
    if at != [] {
      var n := |at| - 1;
      DedupeIs(at[..n]);
      assert at == at[..n] + [at[n]];
    }
  }

  lemma ApplyKeepsInv(s: State, op: Op)
    requires Inv(s)
    ensures Inv(Apply(s, op).0)
  {
    match op
    case RegisterAt(name, at) => if at.Some? { DedupeIs(at.value); }
    case Push(managed, name, at, onError) => if at.Some? { DedupeIs(at.value); }
    case _ =>
  }

  /** What a sealed emitter may never change. */
  predicate SameDeclared(a: State, b: State) {
    && a.bound == b.bound && a.mode == b.mode && a.spec == b.spec && a.identity == b.identity
    && a.composition == b.composition && a.hasResolver == b.hasResolver && a.hasRedactor == b.hasRedactor
    && a.maxRecords == b.maxRecords && a.declaration == b.declaration
  }

  /** Every run keeps the configuration invariant: a registration that continues
      always has a channel to announce it on. The declared configuration of a
      sealed emitter survives every run. */
  lemma {:induction false} RunsKeepConfiguration(s: State, ops: seq<Op>)
    requires Inv(s)
    ensures Inv(Execute(s, ops).state)
    ensures Execute(s, ops).state.sealed == s.sealed
    ensures s.sealed ==> SameDeclared(s, Execute(s, ops).state)
  {
    hide Inv;
    if ops != [] {
      var front := ops[..|ops| - 1];
      RunsKeepConfiguration(s, front);
      ApplyKeepsInv(Execute(s, front).state, ops[|ops| - 1]);
    }
  }

  ghost predicate IsSuffix<T>(a: seq<T>, b: seq<T>) {
    |a| <= |b| && a == b[|b| - |a|..]
  }

  /** Each delivered record was dropped, drained or is still buffered, and the
      buffer holds the newest. */
  ghost predicate Books(s: State, delivered: seq<Record>, drained: seq<Record>) {
    && |delivered| == s.recordsDropped + |drained| + |s.records|
    && IsSuffix(s.records, delivered)
  }

  lemma DeliverKeepsBooks(s: State, r: Record, delivered: seq<Record>, drained: seq<Record>)
    requires Books(s, delivered, drained)
    ensures Books(DeliverOp(s, r), delivered + [r], drained)
  {
    var e := Evicted(s);
    var rest := s.records[e..];
    assert rest == delivered[|delivered| - |rest|..];
    assert (delivered + [r])[|delivered| - |rest|..] == rest + [r];
  }

  lemma ApplyKeepsBooks(s: State, op: Op, delivered: seq<Record>, drained: seq<Record>)
    requires Books(s, delivered, drained)
    ensures
      var (after, reply) := Apply(s, op);
      Books(after,
            delivered + (if op.Deliver? then [op.record] else []),
            drained + (if reply.Drained? then reply.records else []))
  {
    hide DeliverOp, PushOp, IdentityOp;
    assert delivered + [] == delivered && drained + [] == drained;
    if op.Deliver? {
      DeliverKeepsBooks(s, op.record, delivered, drained);
    } else if op.RegisterAt? || op.Push? || op.SetIdentityProvider? {
      ConfigurationKeepsRecords(s, op);
    }
  }

  lemma ConfigurationKeepsRecords(s: State, op: Op)
    requires op.RegisterAt? || op.Push? || op.SetIdentityProvider?
    ensures
      var (after, reply) := Apply(s, op);
      after.records == s.records && after.recordsDropped == s.recordsDropped && !reply.Drained?
  {
  }

  /** Every run keeps the books of the record buffer, whatever deliveries, drains
      and bound changes it interleaves. */
  lemma {:induction false} RunsKeepRecords(s: State, ops: seq<Op>)
    requires s.records == [] && s.recordsDropped == 0
    ensures var run := Execute(s, ops); Books(run.state, run.delivered, run.drained)
  {
    hide Apply;
    if ops != [] {
      var front := ops[..|ops| - 1];
      RunsKeepRecords(s, front);
      var before := Execute(s, front);
      ApplyKeepsBooks(before.state, ops[|ops| - 1], before.delivered, before.drained);
    }
  }

  /** Right after a delivery a positive bound holds, and the newest record is last. */
  lemma DeliveryIsBounded(s: State, r: Record)
    ensures
      var after := DeliverOp(s, r);
      && (s.maxRecords > 0 ==> |after.records| <= s.maxRecords)
      && after.records != [] && after.records[|after.records| - 1] == r
      && (s.maxRecords <= 0 || |s.records| < s.maxRecords ==> after.records == s.records + [r])
  {
  }

  /** In a state that keeps the invariant a covered failure of a registration that
      continues always reaches the notifier: the branch for a missing one is dead. */
  lemma ContinueReachesTheNotifier(s: State, b: Bound, f: Slots.CallFailure, host: Host)
    requires Inv(s) && b in s.bound && host.hasNotifier == s.hasNotifier
    ensures Slots.Announces(host, b, f) <==> Continues(b) && f.continuable && IsControlFailure(f.reason)
  {
  }

  // ---- what is accepted ------------------------------------------------------------------

  /** A registration with options is accepted exactly when the emitter is not sealed, its
      points, if any are named, are some of the eight, its posture is one of the two or
      unset, and a posture that continues has the draft and a channel. It is then appended
      with its posture, `deny` when unset, and its points without repeats; a refused one
      changes nothing. */
  lemma PushAcceptsIff(s: State, managed: bool, name: string, at: Option<seq<string>>, onError: OnError)
    ensures
      var (after, reply) := Apply(s, Push(managed, name, at, onError));
      var accepted :=
        && !s.sealed
        && (at.Some? ==> at.value != [] && forall p | p in at.value ::
              p in {"agent_startup", "input", "pre_model_call", "post_model_call",
                    "pre_tool_call", "post_tool_call", "output", "agent_shutdown"})
        && (onError == Unset || onError == OnErrorDeny || (onError == OnErrorContinue && s.spec == "agent-hooks/draft" && s.hasNotifier));
      if accepted then
        && reply == Accepted
        && |after.bound| == |s.bound| + 1 && after == s.(bound := after.bound) && after.bound[..|s.bound|] == s.bound
        && var b := after.bound[|s.bound|];
        && b.managed == managed && b.name == name
        && b.onError == (if onError == OnErrorContinue then OnErrorContinue else OnErrorDeny)
        && (b.at.None? <==> at.None?)
        && (b.at.Some? ==> DupFree(b.at.value) && forall p :: p in b.at.value <==> p in at.value)
      else reply == Declined && after == s
  {
    Slots.PointsAre();
    if at.Some? {
      DedupeIs(at.value);
    }
    hide ALL_POINTS, Dedupe;
  }

  /** An identity provider is accepted on an unsealed emitter when it is none, carries the
      built-in name, or is a function under a name of the grammar that does not begin with
      jcs; what is then declared is none, the built-in one, or the function. */
  lemma ProviderAcceptsIff(s: State, c: Candidate)
    ensures
      var (after, reply) := Apply(s, SetIdentityProvider(c));
      var accepted :=
        !s.sealed && (c.NoProvider? || c.name == "jcs-sha256" || (c.hasCompute && IsProviderName(c.name)));
      if accepted then
        && reply == Accepted
        && after == s.(identity := if c.NoProvider? then NullProvider
                                   else if c.hasCompute then CustomProvider(c.name) else JcsProvider)
      else reply == Declined && after == s
  {
  }

  /** The remaining setters: refused, changing nothing, once sealed, and else setting what
      they name and nothing more; the defaults are `sequential/first_deny` with `stop`, and
      a plain registration answers everywhere and denies on failure. */
  lemma SettersSet(s: State, name: string, c: Option<Composition>, present: bool, n: int)
    ensures
      Apply(s, RegisterNamed(name)) ==
        if s.sealed then (s, Panicked) else (s.(bound := s.bound + [Bound(false, name, None, OnErrorDeny)]), Accepted)
    ensures
      Apply(s, SetComposition(c)) ==
        if s.sealed then (s, Declined)
        else (s.(composition := if c.Some? then c.value else Composition(SequentialFirstDeny, Some(Stop), None, None)), Accepted)
    ensures Apply(s, SetApprovalRedactor(present)) == if s.sealed then (s, Panicked) else (s.(hasRedactor := present), Accepted)
    ensures Apply(s, SetMaxRecords(n)) == if s.sealed then (s, Panicked) else (s.(maxRecords := n), Accepted)
    ensures
      Apply(s, SetControlFailureNotifier(present)) ==
        if !present && exists b | b in s.bound :: b.onError == OnErrorContinue then (s, Panicked)
        else (s.(hasNotifier := present), Accepted)
    ensures forall at :: Apply(s, RegisterAt(name, at)) == Apply(s, Push(false, name, at, OnErrorDeny))
    ensures Apply(s, TakeRecords) == (s.(records := []), Drained(s.records))
    ensures forall spec, mode ::
      (New(spec, mode, present) ==
       State([], mode, spec, JcsProvider, present, false, false, Composition(SequentialFirstDeny, Some(Stop), None, None),
             0, [], 0, false, None))
  {
  }
}
