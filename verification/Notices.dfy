/** Announced continuations: what the principal heard against what the record marks. */
module Notices {
  import opened Json
  import opened Verdicts
  import opened Hosts
  import opened Rereading
  import opened Slots
  import opened FirstDenyLaws

  /** One invoked slot: how it settled and the context it saw. */
  datatype Visit = Visit(slot: Settled, before: Members)

  ghost predicate Visited(w: World, host: Host, active: seq<Bound>, visits: seq<Visit>) {
    && |visits| <= |active|
    && forall k | 0 <= k < |visits| :: visits[k].slot == Invoke(w, host, k, active[k], visits[k].before)
  }

  /** The notices the principal accepted during the first `n` slots, in order. */
  function HeardUpTo(w: World, host: Host, active: seq<Bound>, visits: seq<Visit>, n: nat): seq<Notice>
    requires n <= |visits| <= |active|
  {
    if n == 0 then []
    else HeardUpTo(w, host, active, visits, n - 1) + Heard(w, host, n - 1, active[n - 1], visits[n - 1].before)
  }

  /** The notices the record accounts for: one for each slot it marks substituted. */
  function Accounted(active: seq<Bound>, visits: seq<Visit>, n: nat): seq<Notice>
    requires n <= |visits| <= |active|
  {
    if n == 0 then []
    else
      var s := visits[n - 1];
      Accounted(active, visits, n - 1) +
      if s.slot.substitutedFor == "" then []
      else [NoticeOf(n - 1, active[n - 1], s.slot.substitutedFor, s.before)]
  }

  /** One slot: a notice is accepted exactly when the slot is marked, and a marked
      slot comes from a `continue` registration and a covered failure that may
      continue, and holds the reserved allow naming that failure. */
  lemma SlotNotice(w: World, host: Host, i: nat, b: Bound, ctx: Members)
    requires GateContract(w.core)
    ensures
      var st := Invoke(w, host, i, b, ctx);
      && Heard(w, host, i, b, ctx) ==
         (if st.substitutedFor == "" then [] else [NoticeOf(i, b, st.substitutedFor, ctx)])
      && (st.substitutedFor != "" ==>
            && b.onError == OnErrorContinue
            && IsControlFailure(st.substitutedFor)
            && st.verdict == Substitute(Label(i, b), st.substitutedFor)
            && exists f :: Call(w, host, i, b, ctx) == Failure(f) && f.continuable)
      && (st.substitutedFor == "" && host.spec == SPEC_DRAFT ==> forall x | x in st.verdict.warnings :: !(HOST_WARNING <= x.reason))
  {
    InvokeShape(w, host, i, b, ctx);
  }

  /** The gate refuses a verdict for a reason `on_error` covers. */
  predicate RefusedReturn(core: Core, spec: string, v: Verdict) {
    match core.validateVerdict(spec, v)
    case Ok(_) => false
    case Refused(code, _) => IsControlFailure(code)
    case Broken(_) => true
  }

  /** How the call of slot `i` ended is a failure that may continue: a refused return, a
      timeout, a managed failure that is not a cancellation, or an error raised while the
      emission's caller had not cancelled. */
  predicate MayContinue(w: World, host: Host, i: nat, b: Bound, ctx: Members) {
    && var copy := RereadObject(w.core.number, ctx);
    && copy.Some?
    && if b.managed then
         var m := w.manage(i, copy.value);
         if m.ManagedVerdict? then RefusedReturn(w.core, host.spec, m.verdict) else !m.ManagedCancelled?
       else
         match w.intercept(i, copy.value)
         case TimedOut => true
         case Raised(_) => !w.callerCancelled(i)
         case Returned(v) => RefusedReturn(w.core, host.spec, v)
  }

  /** A slot continues exactly when its registration asks for it, its failure may continue,
      and the notifier accepts the notice of the failure. Cancellation by the emission's
      caller rules out a raised error only: under it a refused return and a managed failure
      that is not itself a cancellation still continue. */
  lemma ContinuesIff(w: World, host: Host, i: nat, b: Bound, ctx: Members)
    ensures
      Invoke(w, host, i, b, ctx).substitutedFor != "" <==>
        && b.onError == OnErrorContinue && host.hasNotifier && MayContinue(w, host, i, b, ctx)
        && w.notifierAccepts(i, NoticeOf(i, b, FailureReason(w, host, i, b, ctx), ctx))
  {
    hide NoticeOf, Substitute, Label;
    CoveredReasons();
    assert MayContinue(w, host, i, b, ctx) <==>
      Call(w, host, i, b, ctx).Failure? && Call(w, host, i, b, ctx).error.continuable by {
      MayContinueIs(w, host, i, b, ctx);
    }
    if Call(w, host, i, b, ctx).Failure? && Call(w, host, i, b, ctx).error.continuable {
      ContinuableIsCovered(w, host, i, b, ctx);
    }
    hide Call, MayContinue, IsControlFailure;
  }

  lemma MayContinueIs(w: World, host: Host, i: nat, b: Bound, ctx: Members)
    ensures MayContinue(w, host, i, b, ctx) <==>
      Call(w, host, i, b, ctx).Failure? && Call(w, host, i, b, ctx).error.continuable
  {
    CoveredReasons();
    hide IsControlFailure;
  }

  lemma ContinuableIsCovered(w: World, host: Host, i: nat, b: Bound, ctx: Members)
    requires Call(w, host, i, b, ctx).Failure? && Call(w, host, i, b, ctx).error.continuable
    ensures IsControlFailure(Call(w, host, i, b, ctx).error.reason)
    ensures Call(w, host, i, b, ctx).error.reason != ""
  {
    CoveredReasons();
    hide IsControlFailure;
  }

  lemma CoveredReasons()
    ensures IsControlFailure(INTERCEPTOR_TIMEOUT) && IsControlFailure(INTERCEPTOR_FAILED) && IsControlFailure(VERDICT_INVALID)
    ensures !IsControlFailure("")
  {
  }

  /** The reason of the failure of slot `i`, or the empty string when its call succeeded. */
  function FailureReason(w: World, host: Host, i: nat, b: Bound, ctx: Members): string {
    match Call(w, host, i, b, ctx)
    case Success(_) => ""
    case Failure(f) => f.reason
  }

  lemma {:induction false} VisitsAreAccounted(w: World, host: Host, active: seq<Bound>, visits: seq<Visit>, n: nat)
    requires GateContract(w.core) && Visited(w, host, active, visits)
    requires n <= |visits|
    ensures HeardUpTo(w, host, active, visits, n) == Accounted(active, visits, n)
  {
    hide Heard, NoticeOf, Invoke, Substitute;
    if n > 0 {
      VisitsAreAccounted(w, host, active, visits, n - 1);
      SlotNotice(w, host, n - 1, active[n - 1], visits[n - 1].before);
    }
  }

  lemma {:induction false} HeardPrefix(
    w: World, host: Host, active: seq<Bound>, visits: seq<Visit>, more: seq<Visit>, n: nat)
    requires n <= |visits| <= |more| <= |active| && visits <= more
    ensures HeardUpTo(w, host, active, visits, n) == HeardUpTo(w, host, active, more, n)
  {
    hide Heard;
    if n > 0 { HeardPrefix(w, host, active, visits, more, n - 1); }
  }

  // ---- what a notice says ------------------------------------------------------------------

  /** The number a string of decimal digits stands for. */
  function NumberOf(s: string): nat {
    if s == "" then 0
    else
      var d := s[|s| - 1] as int - '0' as int;
      10 * NumberOf(s[..|s| - 1]) + if 0 <= d <= 9 then d else 0
  }

  lemma {:induction false} DigitsAre(n: nat)
    ensures NumberOf(Digits(n)) == n && Digits(n) != "" && (forall c | c in Digits(n) :: '0' <= c <= '9')
    ensures |Digits(n)| > 1 ==> Digits(n)[0] != '0'
    decreases n
  {
    var last := "0123456789"[n % 10];
    assert last as int - '0' as int == n % 10;
    if n >= 10 {
      DigitsAre(n / 10);
      var front := Digits(n / 10);
      assert Digits(n) == front + [last] && (front + [last])[..|front|] == front;
      if |front| == 1 { assert NumberOf(front) == n / 10 && front[..0] == ""; }
    } else {
      assert Digits(n) == [last] && [last][..0] == "";
    }
  }

  /** The label of a registration in a notice: its name, or its position in decimal. */
  predicate IsLabel(i: nat, b: Bound, text: string) {
    if b.name != "" then text == b.name
    else "interceptor-" <= text && NumberOf(text[|"interceptor-"|..]) == i && |text| > |"interceptor-"|
  }

  /** What the principal hears: where in the dispatch, which registration, why, and that the
      host continued; the point only when it is one of the eight. */
  lemma NoticeSays(i: nat, b: Bound, reason: string, ctx: Members)
    ensures
      var n := NoticeOf(i, b, reason, ctx);
      && n.index == i && n.reason == reason && IsLabel(i, b, n.binding)
      && n.message == n.binding + ": " + reason + "; host continued"
      && (if "interception_point" in ctx && ctx["interception_point"].Str?
             && ctx["interception_point"].s in {"agent_startup", "input", "pre_model_call", "post_model_call",
                                               "pre_tool_call", "post_tool_call", "output", "agent_shutdown"}
          then ctx["interception_point"] == Str(n.point) else n.point == "")
  {
    DigitsAre(i);
    PointsAre();
    hide Digits, ALL_POINTS;
    assert ("interceptor-" + Digits(i))[|"interceptor-"|..] == Digits(i);
  }

  /** A substituted slot is an allow whose one warning names the registration and the failure. */
  lemma SubstituteSays(i: nat, b: Bound, reason: string)
    ensures
      var v := Substitute(Label(i, b), reason);
      && v.decision == Allow && v.reason == "" && v.transform.None? && v.approval.None? && v.labels == []
      && |v.warnings| == 1 && v.warnings[0].reason == "host_warning:control_failed"
      && exists text :: IsLabel(i, b, text) && v.warnings[0].message == text + ": " + reason + "; host continued"
  {
    DigitsAre(i);
    hide Digits;
    assert ("interceptor-" + Digits(i))[|"interceptor-"|..] == Digits(i);
    assert IsLabel(i, b, Label(i, b));
  }

  // ---- how a slot fails ------------------------------------------------------------------------

  lemma ContextReason()
    ensures CONTEXT_INVALID == "host_error:context_invalid"
  {
  }

  lemma VerdictReason()
    ensures VERDICT_INVALID == "host_error:verdict_invalid"
  {
  }

  lemma InterceptorReasons()
    ensures INTERCEPTOR_FAILED == "host_error:interceptor_failed"
    ensures INTERCEPTOR_TIMEOUT == "host_error:interceptor_timeout"
  {
  }

  /** The call failed for this reason, and may continue or not. */
  predicate Failed(r: Result<Verdict, CallFailure>, reason: string, continuable: bool) {
    r.Failure? && r.error.reason == reason && r.error.continuable == continuable
  }

  /** What the gate makes of a return: the verdict it normalizes to, or a failure with its
      own reason, which may continue when it is one of the three covered ones. */
  predicate GateSays(core: Core, spec: string, v: Verdict, r: Result<Verdict, CallFailure>) {
    match core.validateVerdict(spec, v)
    case Ok(u) => r == Success(u)
    case Refused(code, _) =>
      Failed(r, code, code in {"host_error:interceptor_failed", "host_error:interceptor_timeout", "host_error:verdict_invalid"})
    case Broken(_) => Failed(r, "host_error:verdict_invalid", true)
  }

  /** How the call of a slot ends, ending by ending. */
  lemma CallEnds(w: World, host: Host, i: nat, b: Bound, ctx: Members)
    ensures
      var r := Call(w, host, i, b, ctx);
      match RereadObject(w.core.number, ctx)
      case None => Failed(r, "host_error:context_invalid", false)
      case Some(copy) =>
        if b.managed then
          match w.manage(i, copy)
          case ManagedVerdict(v) => GateSays(w.core, host.spec, v, r)
          case ManagedTimeout => Failed(r, "host_error:interceptor_timeout", true)
          case ManagedCancelled => Failed(r, "host_error:interceptor_failed", false)
          case _ => Failed(r, "host_error:interceptor_failed", true)
        else
          match w.intercept(i, copy)
          case TimedOut => Failed(r, "host_error:interceptor_timeout", true)
          case Raised(_) => Failed(r, "host_error:interceptor_failed", !w.callerCancelled(i))
          case Returned(v) => GateSays(w.core, host.spec, v, r)
  {
    ContextReason();
    VerdictReason();
    InterceptorReasons();
    hide CONTEXT_INVALID, INTERCEPTOR_FAILED, INTERCEPTOR_TIMEOUT, VERDICT_INVALID, RereadObject;
    assert IsControlFailure(INTERCEPTOR_FAILED) && IsControlFailure(INTERCEPTOR_TIMEOUT) && IsControlFailure(VERDICT_INVALID);
  }

  /** What a slot holds: the verdict its call returned; after a failure that is not continued,
      a deny with its reason and nothing liftable; else the substitute for that reason. */
  lemma SlotHolds(w: World, host: Host, i: nat, b: Bound, ctx: Members)
    ensures
      var st := Invoke(w, host, i, b, ctx);
      match Call(w, host, i, b, ctx)
      case Success(v) => st == Settled(v, "")
      case Failure(f) =>
        if st.substitutedFor == "" then
          st.verdict.decision == Deny && st.verdict.reason == f.reason && st.verdict.approval.None? && st.verdict.warnings == []
        else st.substitutedFor == f.reason && st.verdict == Substitute(Label(i, b), f.reason)
  {
    CoveredReasons();
    hide Call, NoticeOf, Label, IsControlFailure, CORE_REFUSED, NO_CHANNEL, CHANNEL_FAILED;
  }
}
