/** The resolution validation order of section 9 of the draft, against what the
    emitter does with a resolution. */
module ApprovalOrder {
  import opened Json
  import opened Verdicts
  import opened Hosts
  import opened Slots

  /** Step 2 of the order fails: the outcome is not one of the three, or a verdict is
      present without an outcome that carries one, or absent with one that does. */
  predicate Malformed(r: Resolution)
    requires r.Resolution?
  {
    || r.outcome.OtherOutcome?
    || (r.verdict.Some? <==> r.outcome == Unresolved)
  }

  /** The reason of the deny the normative order substitutes, or None when the
      resolution stands. */
  function OrderedReason(core: Core, spec: string, identity: Option<string>, r: Resolution): Option<string>
    requires r.Resolution?
  {
    if r.identity != identity then Some(APPROVAL_IDENTITY_MISMATCH)
    else if Malformed(r) then Some(APPROVAL_RESOLVER_FAILED)
    else if r.outcome == Unresolved then Some(APPROVAL_UNRESOLVED)
    else
      var g := core.validateVerdict(spec, r.verdict.value);
      if !g.Ok? then Some(VERDICT_INVALID)
      else if r.outcome == Approve && !Permits(g.value.decision) then Some(VERDICT_INVALID)
      else if r.outcome == Reject && g.value.decision != Deny then Some(VERDICT_INVALID)
      else None
  }

  /** What the emitter substitutes, read off its judgement. */
  predicate JudgedAs(c: Consultation, core: Core, spec: string, r: Resolution, reason: Option<string>)
    requires c.Consulted? && r.Resolution?
  {
    match reason
    case Some(text) => !c.permitted && c.verdict.decision == Deny && c.verdict.reason == text
    case None =>
      && r.verdict.Some?
      && core.validateVerdict(spec, r.verdict.value) == Ok(c.verdict)
      && c.permitted == (r.outcome == Approve)
  }

  /** A gate that refuses does so as an invalid verdict. */
  ghost predicate RefusesAsInvalid(core: Core) {
    forall spec, v :: core.validateVerdict(spec, v).Refused? ==> core.validateVerdict(spec, v).code == VERDICT_INVALID
  }

  /** The emitter follows the order exactly on every resolution that echoes the
      identity unless it is malformed at step 2, where it reports another reason. */
  lemma FollowsTheOrderIff(core: Core, spec: string, identity: Option<string>, r: Resolution)
    requires r.Resolution? && GateContract(core) && RefusesAsInvalid(core)
    ensures JudgedAs(Judge(core, spec, identity, r), core, spec, r, OrderedReason(core, spec, identity, r))
            <==> !(r.identity == identity && Malformed(r))
  {
    Distinct();
    if r.identity == identity && r.verdict.Some? {
      var g := core.validateVerdict(spec, r.verdict.value);
      if g.Ok? { assert WellFormed(spec, g.value); }
    }
    hide WellFormed;
  }

  lemma Distinct()
    ensures APPROVAL_UNRESOLVED != APPROVAL_RESOLVER_FAILED && VERDICT_INVALID != APPROVAL_RESOLVER_FAILED
  {
    assert |APPROVAL_UNRESOLVED| != |APPROVAL_RESOLVER_FAILED| && |VERDICT_INVALID| != |APPROVAL_RESOLVER_FAILED|;
  }

  /** Whatever the reason, the emitter lifts only what the order lets stand as an
      approval. */
  lemma LiftsOnlyWhatStands(core: Core, spec: string, identity: Option<string>, r: Resolution)
    requires r.Resolution? && GateContract(core)
    ensures Judge(core, spec, identity, r).permitted <==>
      OrderedReason(core, spec, identity, r) == None && r.outcome == Approve
  {
  }

  /** A concrete resolution on which the two part: an approval without a verdict. */
  lemma ApprovalWithoutVerdict(core: Core, spec: string, identity: Option<string>)
    ensures
      var r := Resolution(Approve, identity, None);
      && OrderedReason(core, spec, identity, r) == Some(APPROVAL_RESOLVER_FAILED)
      && Judge(core, spec, identity, r) == Consulted(HostError(APPROVAL_UNRESOLVED, ""), false)
      && APPROVAL_UNRESOLVED != APPROVAL_RESOLVER_FAILED
  {
    Distinct();
  }
}
