/** The .NET value types and their wire forms. A parse that throws is None. */
module Wire {
  import opened Json
  import Verdicts

  /** A nullable string. */
  type Text = Option<string>

  function TextJson(t: Text): Json {
    if t.Some? then Str(t.value) else Null
  }

  /** Sets a member unless the value is absent. */
  function Put(o: Members, key: string, v: Option<Json>): Members {
    if v.Some? then o[key := v.value] else o
  }

  function PutText(o: Members, key: string, t: Text): Members {
    if t.Some? then o[key := Str(t.value)] else o
  }

  /** A member, null when it is absent. */
  function At(o: Members, key: string): Json {
    if key in o then o[key] else Null
  }

  /** A value read as a nullable string. */
  function AsText(v: Json): Option<Text> {
    match v
    case Null => Some(None)
    case Str(s) => Some(Some(s))
    case _ => None
  }

  /** Reads every element, or throws with the first that does. */
  function Each<T>(items: seq<Json>, read: Json -> Option<T>): (r: Option<seq<T>>)
    ensures r.Some? <==> forall i | 0 <= i < |items| :: read(items[i]).Some?
    ensures r.Some? ==> |r.value| == |items| && forall i | 0 <= i < |items| :: r.value[i] == read(items[i]).value
  {
    if items == [] then Some([])
    else
      var rest := Each(items[1..], read);
      var first := read(items[0]);
      if first.Some? && rest.Some? then Some([first.value] + rest.value) else None
  }

  // ---- verdict -----------------------------------------------------------------------------

  datatype Decision = Allow | Deny | Transform

  function DecisionName(d: Decision): string {
    match d
    case Allow => "allow"
    case Deny => "deny"
    case Transform => "transform"
  }

  function DecisionFrom(v: Json): Option<Decision> {
    if v == Str("allow") then Some(Allow)
    else if v == Str("deny") then Some(Deny)
    else if v == Str("transform") then Some(Transform)
    else None
  }

  datatype Warning = Warning(reason: Text, message: Text)

  datatype TransformBody = TransformBody(path: Text, value: Json)

  datatype Evidence = Evidence(artefact: Text, pointers: Option<map<string, Text>>)

  datatype Verdict = Verdict(
    decision: Decision,
    reason: Text,
    message: Text,
    warnings: Option<seq<Warning>>,
    approval: Option<Members>,
    transform: Option<TransformBody>,
    evidence: Option<Evidence>,
    labels: Option<seq<Text>>)

  predicate IsLiftable(v: Verdict) {
    v.decision == Deny && v.approval.Some?
  }

  function WarningJson(w: Warning): Json {
    Obj(PutText(PutText(map[], "reason", w.reason), "message", w.message))
  }

  function WarningFrom(v: Json): Option<Warning> {
    if !v.Obj? then None
    else
      var reason, message := AsText(At(v.members, "reason")), AsText(At(v.members, "message"));
      if reason.Some? && message.Some? then Some(Warning(reason.value, message.value)) else None
  }

  function WarningsJson(ws: Option<seq<Warning>>): Option<Json> {
    if ws.Some? && ws.value != []
    then Some(Arr(seq(|ws.value|, i requires 0 <= i < |ws.value| => WarningJson(ws.value[i]))))
    else None
  }

  /** An empty list reads as no list. */
  function WarningsFrom(v: Json): Option<Option<seq<Warning>>> {
    if v.Arr? && v.items != [] then
      var ws := Each(v.items, WarningFrom);
      if ws.Some? then Some(ws) else None
    else Some(None)
  }

  /** A null value is not written. */
  function TransformJson(t: TransformBody): Json {
    var o: Members := map["path" := TextJson(t.path)];
    Obj(if t.value != Null then o["value" := t.value] else o)
  }

  function TransformFrom(v: Json): Option<Option<TransformBody>> {
    if !v.Obj? then Some(None)
    else
      var path := AsText(At(v.members, "path"));
      if path.Some? then Some(Some(TransformBody(path.value, At(v.members, "value")))) else None
  }

  function PointersJson(p: map<string, Text>): Json {
    Obj(map k | k in p :: TextJson(p[k]))
  }

  function PointersFrom(v: Json): Option<Option<map<string, Text>>> {
    if !v.Obj? then Some(None)
    else if forall k | k in v.members :: AsText(v.members[k]).Some?
    then Some(Some(map k | k in v.members :: AsText(v.members[k]).value))
    else None
  }

  function EvidenceJson(e: Evidence): Json {
    Obj(Put(PutText(map[], "artefact", e.artefact), "verification_pointers",
      if e.pointers.Some? && e.pointers.value != map[] then Some(PointersJson(e.pointers.value)) else None))
  }

  function EvidenceFrom(v: Json): Option<Option<Evidence>> {
    if !v.Obj? then Some(None)
    else
      var artefact := AsText(At(v.members, "artefact"));
      var pointers := PointersFrom(At(v.members, "verification_pointers"));
      if artefact.Some? && pointers.Some? then Some(Some(Evidence(artefact.value, pointers.value))) else None
  }

  function LabelsJson(ls: Option<seq<Text>>): Option<Json> {
    if ls.Some? && ls.value != []
    then Some(Arr(seq(|ls.value|, i requires 0 <= i < |ls.value| => TextJson(ls.value[i]))))
    else None
  }

  /** Unlike warnings, an empty list of labels reads as an empty list. */
  function LabelsFrom(v: Json): Option<Option<seq<Text>>> {
    if !v.Arr? then Some(None)
    else
      var ls := Each(v.items, AsText);
      if ls.Some? then Some(ls) else None
  }

  function VerdictToWire(v: Verdict): Members {
    var o: Members := map["decision" := Str(DecisionName(v.decision))];
    var o := PutText(o, "reason", v.reason);
    var o := PutText(o, "message", v.message);
    var o := Put(o, "warnings", WarningsJson(v.warnings));
    var o := if v.approval.Some? then o["approval" := Obj(v.approval.value)] else o;
    var o := if v.transform.Some? then o["transform" := TransformJson(v.transform.value)] else o;
    var o := if v.evidence.Some? then o["evidence" := EvidenceJson(v.evidence.value)] else o;
    Put(o, "result_labels", LabelsJson(v.labels))
  }

  function VerdictFromWire(o: Members): Option<Verdict> {
    var warnings := WarningsFrom(At(o, "warnings"));
    var transform := TransformFrom(At(o, "transform"));
    var evidence := EvidenceFrom(At(o, "evidence"));
    var labels := LabelsFrom(At(o, "result_labels"));
    var decision := DecisionFrom(At(o, "decision"));
    var reason := AsText(At(o, "reason"));
    var message := AsText(At(o, "message"));
    var approval := At(o, "approval");
    if warnings.Some? && transform.Some? && evidence.Some? && labels.Some? && decision.Some? && reason.Some? && message.Some?
    then Some(Verdict(decision.value, reason.value, message.value, warnings.value,
                      if approval.Obj? then Some(approval.members) else None,
                      transform.value, evidence.value, labels.value))
    else None
  }

  function NoEmptyList<T>(o: Option<seq<T>>): Option<seq<T>> {
    if o == Some([]) then None else o
  }

  /** The verdict with every empty list and empty pointer set absent. */
  function Normal(v: Verdict): Verdict {
    v.(warnings := NoEmptyList(v.warnings), labels := NoEmptyList(v.labels),
       evidence := if v.evidence.Some? && v.evidence.value.pointers == Some(map[])
                   then Some(v.evidence.value.(pointers := None)) else v.evidence)
  }

  lemma WarningsBack(ws: Option<seq<Warning>>)
    ensures WarningsFrom(if WarningsJson(ws).Some? then WarningsJson(ws).value else Null) == Some(NoEmptyList(ws))
  {
    if ws.Some? && ws.value != [] {
      var items := WarningsJson(ws).value.items;
      forall i | 0 <= i < |items|
        ensures WarningFrom(items[i]) == Some(ws.value[i])
      {
      }
      assert Each(items, WarningFrom).value == ws.value;
    }
  }

  lemma LabelsBack(ls: Option<seq<Text>>)
    ensures LabelsFrom(if LabelsJson(ls).Some? then LabelsJson(ls).value else Null) == Some(NoEmptyList(ls))
  {
    if ls.Some? && ls.value != [] {
      assert Each(LabelsJson(ls).value.items, AsText).value == ls.value;
    }
  }

  lemma EvidenceBack(e: Evidence)
    ensures EvidenceFrom(EvidenceJson(e)) ==
      Some(Some(if e.pointers == Some(map[]) then e.(pointers := None) else e))
  {
    if e.pointers.Some? && e.pointers.value != map[] {
      assert PointersFrom(PointersJson(e.pointers.value)).value.value == e.pointers.value;
    }
  }

  /** Where each part of a verdict is in its wire form. */
  lemma VerdictMembers(v: Verdict)
    ensures var o := VerdictToWire(v);
      && At(o, "decision") == Str(DecisionName(v.decision))
      && At(o, "reason") == TextJson(v.reason)
      && At(o, "message") == TextJson(v.message)
      && At(o, "warnings") == (if WarningsJson(v.warnings).Some? then WarningsJson(v.warnings).value else Null)
      && At(o, "approval") == (if v.approval.Some? then Obj(v.approval.value) else Null)
      && At(o, "transform") == (if v.transform.Some? then TransformJson(v.transform.value) else Null)
      && At(o, "evidence") == (if v.evidence.Some? then EvidenceJson(v.evidence.value) else Null)
      && At(o, "result_labels") == (if LabelsJson(v.labels).Some? then LabelsJson(v.labels).value else Null)
  {
    hide DecisionName, WarningsJson, TransformJson, EvidenceJson, LabelsJson;
  }

  /** Parsing what was printed gives the verdict back, an empty list read as absent. */
  lemma {:induction false} VerdictRoundTrip(v: Verdict)
    ensures VerdictFromWire(VerdictToWire(v)) == Some(Normal(v))
    ensures IsLiftable(Normal(v)) <==> IsLiftable(v)
    ensures VerdictToWire(Normal(v)) == VerdictToWire(v)
  {
    hide VerdictToWire, EvidenceJson, WarningsJson, LabelsJson, EvidenceFrom, WarningsFrom, LabelsFrom;
    VerdictMembers(v);
    WarningsBack(v.warnings);
    LabelsBack(v.labels);
    if v.evidence.Some? {
      EvidenceBack(v.evidence.value);
    }
    assert EvidenceFrom(Null) == Some(None) by { NoEvidence(); }
    PrintsAlike(v);
  }

  lemma NoEvidence()
    ensures EvidenceFrom(Null) == Some(None)
  {
  }

  lemma PrintsAlike(v: Verdict)
    ensures VerdictToWire(Normal(v)) == VerdictToWire(v)
  {
    hide WarningJson, TextJson, TransformJson;
  }

  /** The wire form loses nothing exactly when no list is empty. */
  lemma VerdictComesBackIff(v: Verdict)
    ensures VerdictFromWire(VerdictToWire(v)) == Some(v) <==>
      && v.warnings != Some([]) && v.labels != Some([])
      && (v.evidence.Some? ==> v.evidence.value.pointers != Some(map[]))
  {
    hide VerdictToWire, VerdictFromWire;
    VerdictRoundTrip(v);
  }

  // ---- the emitter's verdicts ------------------------------------------------------------

  /** An empty string of the emitter's model is an absent text here. */
  function TextOf(s: string): Text {
    if s == "" then None else Some(s)
  }

  function ListOf<T>(items: seq<T>): Option<seq<T>> {
    if items == [] then None else Some(items)
  }

  /** A verdict of the emitter's model as this SDK holds it; only the closed decisions exist here. */
  function OfEmitter(v: Verdicts.Verdict): Verdict
    requires !v.decision.Unknown?
  {
    Verdict(
      match v.decision case Allow => Allow case Deny => Deny case Transform => Transform,
      TextOf(v.reason), TextOf(v.message),
      ListOf(seq(|v.warnings|, i requires 0 <= i < |v.warnings| => Warning(TextOf(v.warnings[i].reason), TextOf(v.warnings[i].message)))),
      v.approval,
      if v.transform.Some? then Some(TransformBody(Some(v.transform.value.path), v.transform.value.value)) else None,
      if v.evidence.Some?
      then Some(Evidence(TextOf(v.evidence.value.artefact),
                         if v.evidence.value.pointers == map[] then None
                         else Some(map k | k in v.evidence.value.pointers :: Some(v.evidence.value.pointers[k]))))
      else None,
      ListOf(seq(|v.labels|, i requires 0 <= i < |v.labels| => Some(v.labels[i]))))
  }

  /** Every verdict the emitter's gate lets through crosses the wire whole, and is liftable
      on the one side exactly when it is on the other. */
  lemma EmitterVerdictsComeBack(v: Verdicts.Verdict)
    requires !v.decision.Unknown?
    ensures VerdictFromWire(VerdictToWire(OfEmitter(v))) == Some(OfEmitter(v))
    ensures IsLiftable(OfEmitter(v)) <==> Verdicts.IsLiftable(v)
  {
    hide VerdictToWire, VerdictFromWire, TextOf;
    VerdictComesBackIff(OfEmitter(v));
    if v.evidence.Some? && v.evidence.value.pointers != map[] {
      var k :| k in v.evidence.value.pointers;
      assert k in OfEmitter(v).evidence.value.pointers.value;
    }
  }

  // ---- composition ------------------------------------------------------------------------

  datatype Profile = FirstDeny | RunAll | Strictest | Unanimous

  datatype OnApproval = Stop | Resume

  datatype Policy = DenyPolicy | ApprovalPolicy

  datatype Composition = Composition(
    profile: Profile, onApproval: Option<OnApproval>, onDisagreement: Option<Policy>, onTransformConflict: Option<Policy>)

  function ProfileName(p: Profile): string {
    match p
    case FirstDeny => "sequential/first_deny"
    case RunAll => "sequential/run_all"
    case Strictest => "parallel/strictest"
    case Unanimous => "parallel/unanimous"
  }

  function ProfileFrom(v: Json): Option<Profile> {
    if v == Str("sequential/first_deny") then Some(FirstDeny)
    else if v == Str("sequential/run_all") then Some(RunAll)
    else if v == Str("parallel/strictest") then Some(Strictest)
    else if v == Str("parallel/unanimous") then Some(Unanimous)
    else None
  }

  function PolicyJson(p: Policy): Json {
    Str(if p == ApprovalPolicy then "approval" else "deny")
  }

  function PolicyFrom(v: Json): Option<Option<Policy>> {
    if v == Null then Some(None)
    else if v == Str("deny") then Some(Some(DenyPolicy))
    else if v == Str("approval") then Some(Some(ApprovalPolicy))
    else None
  }

  function OnApprovalJson(a: OnApproval): Json {
    Str(if a == Stop then "stop" else "resume")
  }

  /** An unknown name reads as no knob; a value that is not a string throws. */
  function OnApprovalFrom(v: Json): Option<Option<OnApproval>> {
    if !v.Str? && v != Null then None
    else if v == Str("stop") then Some(Some(Stop))
    else if v == Str("resume") then Some(Some(Resume))
    else Some(None)
  }

  function CompositionToWire(c: Composition): Members {
    var o: Members := map["profile" := Str(ProfileName(c.profile))];
    var o := if c.onApproval.Some? then o["on_approval" := OnApprovalJson(c.onApproval.value)] else o;
    var o := if c.onDisagreement.Some? then o["on_disagreement" := PolicyJson(c.onDisagreement.value)] else o;
    if c.onTransformConflict.Some? then o["on_transform_conflict" := PolicyJson(c.onTransformConflict.value)] else o
  }

  function CompositionFromWire(o: Members): Option<Composition> {
    var profile := ProfileFrom(At(o, "profile"));
    var a := OnApprovalFrom(At(o, "on_approval"));
    var d := PolicyFrom(At(o, "on_disagreement"));
    var t := PolicyFrom(At(o, "on_transform_conflict"));
    if profile.Some? && a.Some? && d.Some? && t.Some?
    then Some(Composition(profile.value, a.value, d.value, t.value))
    else None
  }

  lemma ProfileBack(p: Profile)
    ensures ProfileFrom(Str(ProfileName(p))) == Some(p)
  {
  }

  lemma KnobsBack(a: OnApproval, p: Policy)
    ensures OnApprovalFrom(OnApprovalJson(a)) == Some(Some(a)) && OnApprovalFrom(Null) == Some(None)
    ensures PolicyFrom(PolicyJson(p)) == Some(Some(p)) && PolicyFrom(Null) == Some(None)
  {
  }

  lemma CompositionMembers(c: Composition)
    ensures var o := CompositionToWire(c);
      && At(o, "profile") == Str(ProfileName(c.profile))
      && At(o, "on_approval") == (if c.onApproval.Some? then OnApprovalJson(c.onApproval.value) else Null)
      && At(o, "on_disagreement") == (if c.onDisagreement.Some? then PolicyJson(c.onDisagreement.value) else Null)
      && At(o, "on_transform_conflict") == (if c.onTransformConflict.Some? then PolicyJson(c.onTransformConflict.value) else Null)
  {
    hide ProfileName, PolicyJson, OnApprovalJson;
  }

  lemma {:induction false} CompositionRoundTrip(c: Composition)
    ensures CompositionFromWire(CompositionToWire(c)) == Some(c)
  {
    hide CompositionToWire, ProfileName, PolicyJson, OnApprovalJson, ProfileFrom, PolicyFrom, OnApprovalFrom;
    CompositionMembers(c);
    ProfileBack(c.profile);
    KnobsBack(if c.onApproval.Some? then c.onApproval.value else Stop,
              if c.onDisagreement.Some? then c.onDisagreement.value else DenyPolicy);
    KnobsBack(Stop, if c.onTransformConflict.Some? then c.onTransformConflict.value else DenyPolicy);
  }

  // ---- summary and trace ---------------------------------------------------------------------

  type int32 = n: int | -0x8000_0000 <= n < 0x8000_0000

  type int64 = n: int | -0x8000_0000_0000_0000 <= n < 0x8000_0000_0000_0000

  function AsInt32(v: Json): Option<int32> {
    if v.Int? && -0x8000_0000 <= v.n < 0x8000_0000 then Some(v.n) else None
  }

  function AsInt64(v: Json): Option<int64> {
    if v.Int? && -0x8000_0000_0000_0000 <= v.n < 0x8000_0000_0000_0000 then Some(v.n) else None
  }

  datatype Summary = Summary(index: int32, decision: Decision, reason: Text, name: Text, substitutedFor: Text)

  function SummaryToWire(s: Summary): Members {
    var o: Members := map["index" := Int(s.index), "decision" := Str(DecisionName(s.decision))];
    PutText(PutText(PutText(o, "reason", s.reason), "name", s.name), "substituted_for", s.substitutedFor)
  }

  function SummaryFromWire(o: Members): Option<Summary> {
    var index, decision := AsInt32(At(o, "index")), DecisionFrom(At(o, "decision"));
    var reason, name, substituted := AsText(At(o, "reason")), AsText(At(o, "name")), AsText(At(o, "substituted_for"));
    if index.Some? && decision.Some? && reason.Some? && name.Some? && substituted.Some?
    then Some(Summary(index.value, decision.value, reason.value, name.value, substituted.value))
    else None
  }

  lemma SummaryRoundTrip(s: Summary)
    ensures SummaryFromWire(SummaryToWire(s)) == Some(s)
  {
    hide DecisionName, DecisionFrom;
    assert DecisionFrom(Str(DecisionName(s.decision))) == Some(s.decision) by { DecisionBack(s.decision); }
    var o := SummaryToWire(s);
    assert At(o, "index") == Int(s.index) && At(o, "decision") == Str(DecisionName(s.decision));
    assert At(o, "reason") == TextJson(s.reason) && At(o, "name") == TextJson(s.name);
    assert At(o, "substituted_for") == TextJson(s.substitutedFor);
  }

  lemma DecisionBack(d: Decision)
    ensures DecisionFrom(Str(DecisionName(d))) == Some(d)
  {
  }

  datatype TraceContext = TraceContext(traceId: Text, spanId: Text)

  function TraceToWire(t: TraceContext): Members {
    PutText(PutText(map[], "trace_id", t.traceId), "span_id", t.spanId)
  }

  function TraceFromWire(o: Members): Option<TraceContext> {
    var traceId, spanId := AsText(At(o, "trace_id")), AsText(At(o, "span_id"));
    if traceId.Some? && spanId.Some? then Some(TraceContext(traceId.value, spanId.value)) else None
  }

  lemma TraceRoundTrip(t: TraceContext)
    ensures TraceFromWire(TraceToWire(t)) == Some(t)
  {
  }

  // ---- record -----------------------------------------------------------------------------------

  datatype Point =
    | AgentStartup | Input | PreModelCall | PostModelCall
    | PreToolCall | PostToolCall | Output | AgentShutdown

  const POINTS := [AgentStartup, Input, PreModelCall, PostModelCall, PreToolCall, PostToolCall, Output, AgentShutdown]

  function PointName(p: Point): string {
    match p
    case AgentStartup => "agent_startup"
    case Input => "input"
    case PreModelCall => "pre_model_call"
    case PostModelCall => "post_model_call"
    case PreToolCall => "pre_tool_call"
    case PostToolCall => "post_tool_call"
    case Output => "output"
    case AgentShutdown => "agent_shutdown"
  }

  function PointFrom(v: Json): Option<Point> {
    if !v.Str? then None
    else match v.s
      case "agent_startup" => Some(AgentStartup)
      case "input" => Some(Input)
      case "pre_model_call" => Some(PreModelCall)
      case "post_model_call" => Some(PostModelCall)
      case "pre_tool_call" => Some(PreToolCall)
      case "post_tool_call" => Some(PostToolCall)
      case "output" => Some(Output)
      case "agent_shutdown" => Some(AgentShutdown)
      case _ => None
  }

  lemma PointBack(p: Point)
    ensures PointFrom(Str(PointName(p))) == Some(p)
  {
  }

  datatype Mode = Enforce | EvaluateOnly

  datatype Record = Record(
    point: Point,
    mode: Mode,
    verdict: Verdict,
    inputIdentity: Text,
    enforcedIdentity: Text,
    identityProvider: Text,
    sessionId: string,
    sequence: int64,
    decidedBy: Option<int32>,
    composition: Composition,
    verdicts: seq<Summary>,
    foldTruncated: Option<bool>,
    resolvedBy: Text,
    registered: int32,
    timestamp: Text,
    trace: Option<TraceContext>,
    declaration: Text)

  function ModeName(m: Mode): string {
    if m == EvaluateOnly then "evaluate_only" else "enforce"
  }

  /** Anything but "enforce", null included, is evaluate-only; a value that is not a string throws. */
  function ModeFrom(v: Json): Option<Mode> {
    if v == Str("enforce") then Some(Enforce)
    else if v.Str? || v == Null then Some(EvaluateOnly)
    else None
  }

  function IndexJson(i: Option<int32>): Json {
    if i.Some? then Int(i.value) else Null
  }

  function IndexFrom(v: Json): Option<Option<int32>> {
    if v == Null then Some(None)
    else if AsInt32(v).Some? then Some(AsInt32(v)) else None
  }

  function SummariesJson(ss: seq<Summary>): Json {
    Arr(seq(|ss|, i requires 0 <= i < |ss| => Obj(SummaryToWire(ss[i]))))
  }

  function SummaryFrom(v: Json): Option<Summary> {
    if v.Obj? then SummaryFromWire(v.members) else None
  }

  function SummariesFrom(v: Json): Option<seq<Summary>> {
    if v.Arr? then Each(v.items, SummaryFrom) else Some([])
  }

  function BoolJson(b: Option<bool>): Json {
    if b.Some? then Bool(b.value) else Null
  }

  function BoolFrom(v: Json): Option<Option<bool>> {
    match v
    case Null => Some(None)
    case Bool(b) => Some(Some(b))
    case _ => None
  }

  function TraceJson(t: Option<TraceContext>): Json {
    if t.Some? then Obj(TraceToWire(t.value)) else Null
  }

  function TraceFrom(v: Json): Option<Option<TraceContext>> {
    if !v.Obj? then Some(None)
    else
      var t := TraceFromWire(v.members);
      if t.Some? then Some(t) else None
  }

  function VerdictFrom(v: Json): Option<Verdict> {
    if v.Obj? then VerdictFromWire(v.members) else None
  }

  function CompositionFrom(v: Json): Option<Composition> {
    if v.Obj? then CompositionFromWire(v.members) else None
  }

  function SessionFrom(v: Json): Option<string> {
    match v
    case Null => Some("")
    case Str(s) => Some(s)
    case _ => None
  }

  function SequenceFrom(v: Json): Option<int64> {
    if v == Null then Some(-1) else AsInt64(v)
  }

  function RegisteredFrom(v: Json): Option<int32> {
    if v == Null then Some(0) else AsInt32(v)
  }

  function RecordToWire(r: Record): Members {
    RecordTail(r, RecordBase(r))
  }

  /** The members every record has. */
  function RecordBase(r: Record): Members {
    map[
      "interception_point" := Str(PointName(r.point)),
      "mode" := Str(ModeName(r.mode)),
      "verdict" := Obj(VerdictToWire(r.verdict)),
      "input_identity" := TextJson(r.inputIdentity),
      "enforced_identity" := TextJson(r.enforcedIdentity),
      "identity_provider" := TextJson(r.identityProvider),
      "session_id" := Str(r.sessionId),
      "sequence" := Int(r.sequence),
      "decided_by" := IndexJson(r.decidedBy),
      "composition" := Obj(CompositionToWire(r.composition))]
  }

  /** The members written only when they are present, and the registration count. */
  function RecordTail(r: Record, o: Members): Members {
    var o := PutText(o, "declaration", r.declaration);
    var o := if r.verdicts != [] then o["verdicts" := SummariesJson(r.verdicts)] else o;
    var o := PutText(o, "timestamp", r.timestamp);
    var o := if r.trace.Some? then o["trace" := TraceJson(r.trace)] else o;
    var o := if r.foldTruncated.Some? then o["fold_truncated" := BoolJson(r.foldTruncated)] else o;
    var o := PutText(o, "resolved_by", r.resolvedBy);
    o["interceptors_registered" := Int(r.registered)]
  }

  function RecordFromWire(o: Members): Option<Record> {
    var point := PointFrom(At(o, "interception_point"));
    var mode := ModeFrom(At(o, "mode"));
    var verdict := VerdictFrom(At(o, "verdict"));
    var inputIdentity := AsText(At(o, "input_identity"));
    var enforcedIdentity := AsText(At(o, "enforced_identity"));
    var identityProvider := AsText(At(o, "identity_provider"));
    var sessionId := SessionFrom(At(o, "session_id"));
    var sequence := SequenceFrom(At(o, "sequence"));
    var decidedBy := IndexFrom(At(o, "decided_by"));
    var composition := CompositionFrom(At(o, "composition"));
    var verdicts := SummariesFrom(At(o, "verdicts"));
    var foldTruncated := BoolFrom(At(o, "fold_truncated"));
    var resolvedBy := AsText(At(o, "resolved_by"));
    var registered := RegisteredFrom(At(o, "interceptors_registered"));
    var timestamp := AsText(At(o, "timestamp"));
    var trace := TraceFrom(At(o, "trace"));
    var declaration := AsText(At(o, "declaration"));
    if point.Some? && mode.Some? && verdict.Some? && inputIdentity.Some? && enforcedIdentity.Some?
       && identityProvider.Some? && sessionId.Some? && sequence.Some? && decidedBy.Some?
       && composition.Some? && verdicts.Some? && foldTruncated.Some? && resolvedBy.Some?
       && registered.Some? && timestamp.Some? && trace.Some? && declaration.Some?
    then Some(Record(point.value, mode.value, verdict.value, inputIdentity.value, enforcedIdentity.value,
                     identityProvider.value, sessionId.value, sequence.value, decidedBy.value,
                     composition.value, verdicts.value, foldTruncated.value, resolvedBy.value,
                     registered.value, timestamp.value, trace.value, declaration.value))
    else None
  }

  lemma BaseMembers(r: Record)
    ensures var o := RecordBase(r);
      && At(o, "interception_point") == Str(PointName(r.point))
      && At(o, "mode") == Str(ModeName(r.mode))
      && At(o, "verdict") == Obj(VerdictToWire(r.verdict))
      && At(o, "input_identity") == TextJson(r.inputIdentity)
      && At(o, "enforced_identity") == TextJson(r.enforcedIdentity)
      && At(o, "identity_provider") == TextJson(r.identityProvider)
      && At(o, "session_id") == Str(r.sessionId)
      && At(o, "sequence") == Int(r.sequence)
      && At(o, "decided_by") == IndexJson(r.decidedBy)
      && At(o, "composition") == Obj(CompositionToWire(r.composition))
  {
    hide PointName, ModeName, VerdictToWire, TextJson, IndexJson, CompositionToWire;
  }

  lemma NoTailInBase(r: Record)
    ensures forall k | k in TAIL_KEYS :: k !in RecordBase(r)
  {
    hide PointName, ModeName, VerdictToWire, TextJson, IndexJson, CompositionToWire;
  }

  lemma BaseIsNotTail()
    ensures forall k | k in {"interception_point", "mode", "verdict", "input_identity", "enforced_identity",
                             "identity_provider", "session_id", "sequence", "decided_by", "composition"} :: k !in TAIL_KEYS
  {
  }

  lemma RecordHead(r: Record)
    ensures var o := RecordToWire(r);
      && At(o, "interception_point") == Str(PointName(r.point))
      && At(o, "mode") == Str(ModeName(r.mode))
      && At(o, "verdict") == Obj(VerdictToWire(r.verdict))
      && At(o, "input_identity") == TextJson(r.inputIdentity)
      && At(o, "enforced_identity") == TextJson(r.enforcedIdentity)
      && At(o, "identity_provider") == TextJson(r.identityProvider)
      && At(o, "session_id") == Str(r.sessionId)
      && At(o, "sequence") == Int(r.sequence)
      && At(o, "decided_by") == IndexJson(r.decidedBy)
      && At(o, "composition") == Obj(CompositionToWire(r.composition))
  {
    hide PointName, ModeName, VerdictToWire, TextJson, IndexJson, CompositionToWire, RecordTail, RecordBase, At;
    hide TAIL_KEYS;
    BaseIsNotTail();
    BaseMembers(r);
    TailKeeps(r, RecordBase(r));
  }

  const TAIL_KEYS: set<string> := {"declaration", "verdicts", "timestamp", "trace", "fold_truncated", "resolved_by",
                                   "interceptors_registered"}

  lemma TailKeeps(r: Record, o: Members)
    ensures forall k | k !in TAIL_KEYS :: At(RecordTail(r, o), k) == At(o, k)
  {
    hide SummariesJson, TraceJson, BoolJson;
  }

  lemma TailMembers(r: Record, o: Members)
    requires forall k | k in TAIL_KEYS :: k !in o
    ensures var t := RecordTail(r, o);
      && At(t, "declaration") == TextJson(r.declaration)
      && At(t, "verdicts") == (if r.verdicts != [] then SummariesJson(r.verdicts) else Null)
      && At(t, "timestamp") == TextJson(r.timestamp)
      && At(t, "trace") == TraceJson(r.trace)
      && At(t, "fold_truncated") == BoolJson(r.foldTruncated)
      && At(t, "resolved_by") == TextJson(r.resolvedBy)
      && At(t, "interceptors_registered") == Int(r.registered)
  {
    hide SummariesJson, TraceToWire;
  }

  lemma RecordTailMembers(r: Record)
    ensures var t := RecordToWire(r);
      && At(t, "declaration") == TextJson(r.declaration)
      && At(t, "verdicts") == (if r.verdicts != [] then SummariesJson(r.verdicts) else Null)
      && At(t, "timestamp") == TextJson(r.timestamp)
      && At(t, "trace") == TraceJson(r.trace)
      && At(t, "fold_truncated") == BoolJson(r.foldTruncated)
      && At(t, "resolved_by") == TextJson(r.resolvedBy)
      && At(t, "interceptors_registered") == Int(r.registered)
  {
    hide PointName, ModeName, VerdictToWire, TextJson, IndexJson, CompositionToWire, RecordTail, SummariesJson, TraceJson, BoolJson, RecordBase;
    NoTailInBase(r);
    TailMembers(r, RecordBase(r));
  }

  lemma SummariesBack(ss: seq<Summary>)
    ensures SummariesFrom(SummariesJson(ss)) == Some(ss) && SummariesFrom(Null) == Some([])
  {
    hide SummaryToWire, SummaryFromWire;
    forall i | 0 <= i < |ss|
      ensures SummaryFrom(Obj(SummaryToWire(ss[i]))) == Some(ss[i])
    {
      SummaryRoundTrip(ss[i]);
    }
    assert Each(SummariesJson(ss).items, SummaryFrom).value == ss;
  }

  lemma TextBack(t: Text)
    ensures AsText(TextJson(t)) == Some(t)
  {
  }

  lemma ScalarsBack(r: Record)
    ensures ModeFrom(Str(ModeName(r.mode))) == Some(r.mode)
    ensures IndexFrom(IndexJson(r.decidedBy)) == Some(r.decidedBy)
    ensures BoolFrom(BoolJson(r.foldTruncated)) == Some(r.foldTruncated)
    ensures AsInt64(Int(r.sequence)) == Some(r.sequence) && AsInt32(Int(r.registered)) == Some(r.registered)
  {
  }

  /** Parsing a printed record gives it back, its verdict with empty lists absent. */
  lemma {:induction false} RecordRoundTrip(r: Record)
    ensures RecordFromWire(RecordToWire(r)) == Some(r.(verdict := Normal(r.verdict)))
  {
    hide RecordToWire, VerdictToWire, VerdictFromWire, CompositionToWire, CompositionFromWire, SummariesJson, SummariesFrom,
         TraceFrom, TraceJson, PointName, PointFrom, Normal, At, ModeName, ModeFrom, AsText, TextJson,
         IndexJson, IndexFrom, BoolJson, BoolFrom, AsInt32, AsInt64;
    RecordHead(r);
    ScalarsBack(r);
    TextBack(r.inputIdentity);
    TextBack(r.enforcedIdentity);
    TextBack(r.identityProvider);
    TextBack(r.resolvedBy);
    TextBack(r.timestamp);
    TextBack(r.declaration);
    RecordTailMembers(r);
    PointBack(r.point);
    VerdictRoundTrip(r.verdict);
    CompositionRoundTrip(r.composition);
    SummariesBack(r.verdicts);
    TraceBack(r.trace);
  }

  lemma TraceBack(t: Option<TraceContext>)
    ensures TraceFrom(TraceJson(t)) == Some(t)
  {
    if t.Some? {
      TraceRoundTrip(t.value);
    }
  }
}
