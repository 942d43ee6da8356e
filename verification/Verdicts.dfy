/** The verdict vocabulary: decisions, reserved reasons, verdicts and the
    predicates hosts decide with. */
module Verdicts {
  import opened Json

  const SPEC_01 := "agent-hooks/0.1"
  const SPEC_DRAFT := "agent-hooks/draft"

  const HOST_ERROR := "host_error:"
  const HOST_WARNING := "host_warning:"

  const CONTEXT_INVALID := HOST_ERROR + "context_invalid"
  const INTERCEPTOR_FAILED := HOST_ERROR + "interceptor_failed"
  const INTERCEPTOR_TIMEOUT := HOST_ERROR + "interceptor_timeout"
  const VERDICT_INVALID := HOST_ERROR + "verdict_invalid"
  const TRANSFORM_INVALID := HOST_ERROR + "transform_invalid"
  const APPROVAL_RESOLVER_FAILED := HOST_ERROR + "approval_resolver_failed"
  const APPROVAL_UNRESOLVED := HOST_ERROR + "approval_unresolved"
  const APPROVAL_IDENTITY_MISMATCH := HOST_ERROR + "approval_identity_mismatch"
  const NO_INTERCEPTOR := HOST_ERROR + "no_interceptor"
  const CONTROL_FAILED := HOST_WARNING + "control_failed"

  /** The wire value is an open string; everything but the three defined
      decisions is `Unknown` and never passes the verdict gate. */
  datatype Decision = Allow | Deny | Transform | Unknown(wire: string)

  predicate Permits(d: Decision) {
    d == Allow || d == Transform
  }

  datatype Warning = Warning(reason: string, message: string)

  datatype TransformBody = TransformBody(path: string, value: Json)

  datatype Evidence = Evidence(artefact: string, pointers: map<string, string>)

  datatype Verdict = Verdict(
    decision: Decision,
    reason: string,
    message: string,
    warnings: seq<Warning>,
    approval: Option<Members>,
    transform: Option<TransformBody>,
    evidence: Option<Evidence>,
    labels: seq<string>)

  const ALLOW := Verdict(Allow, "", "", [], None, None, None, [])

  function HostError(reason: string, message: string): Verdict {
    Verdict(Deny, reason, message, [], None, None, None, [])
  }

  predicate IsLiftable(v: Verdict) {
    v.decision == Deny && v.approval.Some?
  }

  /** Synthesized by the host rather than returned by an interceptor or resolver. */
  predicate IsHostSynthesized(v: Verdict) {
    HOST_ERROR <= v.reason
  }

  /** The three failures that `on_error` covers. */
  predicate IsControlFailure(reason: string) {
    reason == INTERCEPTOR_FAILED || reason == INTERCEPTOR_TIMEOUT || reason == VERDICT_INVALID
  }

  /** The verdict gate of section 5: what every returned verdict satisfies once
      it has crossed the wire. */
  predicate WellFormed(spec: string, v: Verdict) {
    && !v.decision.Unknown?
    && !(HOST_ERROR <= v.reason)
    && (forall w | w in v.warnings ::
          && !(HOST_ERROR <= w.reason)
          && (spec == SPEC_DRAFT ==> !(HOST_WARNING <= w.reason)))
    && (v.approval.Some? ==> v.decision == Deny)
    && (v.transform.Some? <==> v.decision == Transform)
  }

  datatype Mode = Enforce | EvaluateOnly

  /** Failure posture of one registration; `Unset` is the empty string and
      `OtherOnError` anything outside the closed set. */
  datatype OnError = Unset | OnErrorDeny | OnErrorContinue | OtherOnError(wire: string)

  function OrDefault(o: OnError): OnError {
    if o == Unset then OnErrorDeny else o
  }

  /** What the principal hears when a control failed and the action continued. */
  datatype Notice = Notice(point: string, index: nat, binding: string, reason: string, message: string)

  datatype Summary = Summary(index: nat, decision: Decision, reason: string, name: string, substitutedFor: string)

  datatype ResolvedBy = ByApproval | ByRejection

  const ALL_POINTS: seq<string> := [
    "agent_startup", "input", "pre_model_call", "post_model_call",
    "pre_tool_call", "post_tool_call", "output", "agent_shutdown"]

  const AGENT_SHUTDOWN := "agent_shutdown"

  function PointOf(ctx: Members): string {
    StringMember(ctx, "interception_point")
  }

  /** The pre-flight check a host can make without the core: the specification version, the
      decision, the reserved prefixes of the reason and of each warning, then the bodies. */
  method Validate(spec: string, v: Verdict) returns (ok: bool)
    ensures ok <==> (spec == SPEC_01 || spec == SPEC_DRAFT) && WellFormed(spec, v)
    ensures ok <==>
      && (spec == "agent-hooks/0.1" || spec == "agent-hooks/draft")
      && (v.decision == Allow || v.decision == Deny || v.decision == Transform)
      && !("host_error:" <= v.reason)
      && (forall i | 0 <= i < |v.warnings| ::
            && !("host_error:" <= v.warnings[i].reason)
            && !(spec == "agent-hooks/draft" && "host_warning:" <= v.warnings[i].reason))
      && (v.approval == None || v.decision == Deny)
      && (v.transform == None <==> v.decision != Transform)
  {
    if spec != SPEC_01 && spec != SPEC_DRAFT {
      return false;
    }
    if v.decision.Unknown? || HOST_ERROR <= v.reason {
      return false;
    }
    for i := 0 to |v.warnings|
      invariant forall k | 0 <= k < i ::
        !(HOST_ERROR <= v.warnings[k].reason) && !(spec == SPEC_DRAFT && HOST_WARNING <= v.warnings[k].reason)
    {
      assert v.warnings[i] in v.warnings;
      if HOST_ERROR <= v.warnings[i].reason || (spec == SPEC_DRAFT && HOST_WARNING <= v.warnings[i].reason) {
        return false;
      }
    }
    if v.approval.Some? && v.decision != Deny {
      return false;
    }
    if v.decision == Transform && v.transform.None? {
      return false;
    }
    return v.decision == Transform || v.transform.None?;
  }
}
