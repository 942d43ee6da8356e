/** The reference agent loop: one whole session against any emitter, with a tool
    seam that swallows blocks and a shutdown that always runs. */
module Session {
  import opened Json

  datatype ToolCall = ToolCall(id: string, name: string, args: Members)

  datatype Clause = Clause(whenArgs: Option<Members>, value: Json, isError: bool)

  datatype Tool = Tool(name: string, behavior: seq<Clause>)

  /** One scripted model response; a `Null` content is an absent one. */
  datatype Turn = Turn(content: Json, calls: seq<ToolCall>)

  datatype Scenario = Scenario(tools: seq<Tool>, content: Json, role: Json, script: seq<Turn>)

  datatype Invocation = Invocation(name: string, args: Members)

  /** What the loop presents at an interception point. */
  datatype Event =
    | Startup
    | Input(content: Json, role: Json)
    | PreModel(messages: seq<Members>)
    | PostModel(turn: Turn)
    | PreTool(call: ToolCall)
    | PostTool(call: ToolCall, args: Members, value: Json, isError: bool)
    | Output(content: Json)
    | Shutdown(reason: string)

  /** How an emission ends; a proceeding one leaves an effective context. */
  datatype Reply = Proceeded(after: Members) | Blocked(reason: string) | Failed

  /** One emission of the session, with the sequence number its context carries. */
  datatype Emission = Emission(sequence: nat, event: Event, reply: Reply)

  /** Any emitter: the reply to the context with a given sequence number. A number is
      used once, so a function describes any behaviour. */
  type Emitter = (nat, Event) -> Reply

  // ---- what the loop reads back ------------------------------------------------------

  /** The objects of an array member; anything else is skipped. */
  function MapSlice(o: Members, key: string): seq<Members> {
    if key in o && o[key].Arr? then Objects(o[key].items) else []
  }

  function Objects(items: seq<Json>): seq<Members> {
    if items == [] then []
    else
      var front := Objects(items[..|items| - 1]);
      var last := items[|items| - 1];
      if last.Obj? then front + [last.members] else front
  }

  /** The effective arguments after a pre_tool_call: the context's when it still holds
      an object, else those presented. */
  function EffectiveArgs(call: ToolCall, after: Members): Members {
    if "tool_call" in after && after["tool_call"].Obj? && "args" in after["tool_call"].members
       && after["tool_call"].members["args"].Obj?
    then after["tool_call"].members["args"].members
    else call.args
  }

  /** The final output after an output emission that proceeded. */
  function EffectiveOutput(content: Json, after: Members): Json {
    if "output" in after && after["output"].Obj? then
      if "content" in after["output"].members then after["output"].members["content"] else Null
    else content
  }

  /** `args` are what a tool is given: the object the context of its pre_tool_call holds
      under `tool_call.args` after the emission, else the arguments the model gave. */
  predicate ArgsAre(call: ToolCall, after: Members, args: Members) {
    if "tool_call" in after && after["tool_call"].Obj? && "args" in after["tool_call"].members
       && after["tool_call"].members["args"].Obj?
    then Obj(args) == after["tool_call"].members["args"]
    else args == call.args
  }

  /** `final` is the content the context of an output emission holds under `output.content`,
      null when it holds none there, or what was presented when `output` is no object. */
  predicate OutputIs(content: Json, after: Members, final: Json) {
    if "output" in after && after["output"].Obj? then
      final == if "content" in after["output"].members then after["output"].members["content"] else Null
    else final == content
  }

  /** The objects among the items of an array member, in order. */
  ghost predicate ObjectsOf(o: Members, key: string, r: seq<Members>) {
    if key in o && o[key].Arr? then
      exists at: seq<nat> ::
        && |at| == |r| && Rising(at)
        && (forall i | 0 <= i < |at| :: at[i] < |o[key].items| && o[key].items[at[i]] == Obj(r[i]))
        && (forall k: nat | k < |o[key].items| && o[key].items[k].Obj? :: k in at)
    else r == []
  }

  ghost predicate Rising(at: seq<nat>) {
    forall i, j | 0 <= i < j < |at| :: at[i] < at[j]
  }

  /** Where the objects are. */
  function ObjectPositions(items: seq<Json>): seq<nat> {
    if items == [] then []
    else
      var n := |items| - 1;
      ObjectPositions(items[..n]) + if items[n].Obj? then [n] else []
  }

  lemma {:induction false} ObjectsAt(items: seq<Json>)
    ensures
      var at, r := ObjectPositions(items), Objects(items);
      && |at| == |r| && Rising(at)
      && (forall i | 0 <= i < |at| :: at[i] < |items| && items[at[i]] == Obj(r[i]))
      && (forall k: nat | k < |items| && items[k].Obj? :: k in at)
    decreases |items|
  {
    if items != [] {
      var n := |items| - 1;
      ObjectsAt(items[..n]);
      assert forall k | 0 <= k < n :: items[..n][k] == items[k];
    }
  }

  lemma SliceIs(o: Members, key: string)
    ensures ObjectsOf(o, key, MapSlice(o, key))
  {
    if key in o && o[key].Arr? {
      ObjectsAt(o[key].items);
    }
  }

  // ---- tools ------------------------------------------------------------------------------

  predicate Matches(c: Clause, args: Members) {
    c.whenArgs.None? || c.whenArgs.value == args
  }

  /** The clause `c` is the first of `behavior` that matches. */
  ghost predicate FirstMatch(behavior: seq<Clause>, args: Members, c: Clause) {
    exists i | 0 <= i < |behavior| :: 
      && behavior[i] == c
      && (c.whenArgs.None? || c.whenArgs.value == args)
      && forall j | 0 <= j < i :: behavior[j].whenArgs.Some? && behavior[j].whenArgs.value != args
  }

  /** The first tool of that name answers by its first matching clause, or nobody does. */
  ghost predicate Answers(tools: seq<Tool>, name: string, args: Members, answer: Option<Clause>) {
    match answer
    case Some(c) =>
      exists i | 0 <= i < |tools| ::
        && tools[i].name == name && FirstMatch(tools[i].behavior, args, c)
        && forall j | 0 <= j < i :: tools[j].name != name
    case None =>
      forall i | 0 <= i < |tools| && tools[i].name == name && (forall j | 0 <= j < i :: tools[j].name != name) ::
        forall c | c in tools[i].behavior :: c.whenArgs.Some? && c.whenArgs.value != args
  }

  method InvokeTool(tools: seq<Tool>, name: string, args: Members) returns (answer: Option<Clause>)
    ensures Answers(tools, name, args, answer)
  {
    for i := 0 to |tools|
      invariant forall j | 0 <= j < i :: tools[j].name != name
    {
      if tools[i].name == name {
        var behavior := tools[i].behavior;
        for k := 0 to |behavior|
          invariant forall j | 0 <= j < k :: !Matches(behavior[j], args)
        {
          if Matches(behavior[k], args) {
            assert FirstMatch(behavior, args, behavior[k]);
            return Some(behavior[k]);
          }
        }
        return None;
      }
    }
    return None;
  }

  // ---- the order of points ------------------------------------------------------------------

  datatype Phase = Fresh | Started | Ready | Thinking | Acting | InTool | Speaking | Closing | Closed | Wrong

  /** The lifecycle as an automaton over emissions: a block outside the tool seam
      leads straight to shutdown, a block inside it does not. */
  function Next(p: Phase, e: Emission): Phase {
    if e.reply.Failed? then Wrong
    else
      var blocked := e.reply.Blocked?;
      match e.event
      case Startup => if p != Fresh then Wrong else if blocked then Closing else Started
      case Input(_, _) => if p != Started then Wrong else if blocked then Closing else Ready
      case PreModel(_) => if p != Ready && p != Acting then Wrong else if blocked then Closing else Thinking
      case PostModel(t) =>
        if p != Thinking then Wrong
        else if blocked then Closing
        else if t.calls != [] then Acting
        else if t.content != Null then Speaking
        else Closing
      case PreTool(_) => if p != Acting then Wrong else if blocked then Acting else InTool
      case PostTool(_, _, _, _) => if p != InTool then Wrong else Acting
      case Output(_) => if p != Speaking then Wrong else Closing
      case Shutdown(_) => if p == Ready || p == Acting || p == Closing then Closed else Wrong
  }

  function PhaseOf(trace: seq<Emission>): Phase {
    if trace == [] then Fresh else Next(PhaseOf(trace[..|trace| - 1]), trace[|trace| - 1])
  }

  predicate InToolSeam(e: Event) {
    e.PreTool? || e.PostTool?
  }

  /** The tool invocations a trace accounts for: its pre_tool_call emissions that
      proceeded, with their effective arguments. */
  function LogOf(trace: seq<Emission>): seq<Invocation> {
    if trace == [] then []
    else
      var e := trace[|trace| - 1];
      LogOf(trace[..|trace| - 1]) +
      if e.event.PreTool? && e.reply.Proceeded?
      then [Invocation(e.event.call.name, EffectiveArgs(e.event.call, e.reply.after))] else []
  }

  /** The tool calls presented, in order, blocked ones included. */
  function CallsPresented(trace: seq<Emission>): seq<ToolCall> {
    if trace == [] then []
    else
      var e := trace[|trace| - 1].event;
      CallsPresented(trace[..|trace| - 1]) + if e.PreTool? then [e.call] else []
  }

  /** How many model responses were accepted. */
  function TurnsTaken(trace: seq<Emission>): nat {
    if trace == [] then 0
    else
      var e := trace[|trace| - 1];
      TurnsTaken(trace[..|trace| - 1]) + if e.event.PostModel? && e.reply.Proceeded? then 1 else 0
  }

  /** The model responses presented, in order. */
  function TurnsPresented(trace: seq<Emission>): seq<Turn> {
    if trace == [] then []
    else
      var e := trace[|trace| - 1].event;
      TurnsPresented(trace[..|trace| - 1]) + if e.PostModel? then [e.turn] else []
  }

  function CallsOf(script: seq<Turn>): seq<ToolCall> {
    if script == [] then [] else CallsOf(script[..|script| - 1]) + script[|script| - 1].calls
  }

  function FinalOf(trace: seq<Emission>): Json {
    if trace == [] then Null
    else
      var e := trace[|trace| - 1];
      if e.event.Output? && e.reply.Proceeded? then EffectiveOutput(e.event.content, e.reply.after)
      else FinalOf(trace[..|trace| - 1])
  }

  ghost predicate BlockedOutside(trace: seq<Emission>) {
    exists k | 0 <= k < |trace| ::
      trace[k].reply.Blocked? && !InToolSeam(trace[k].event) && !trace[k].event.Shutdown?
  }

  // ---- the conversation -----------------------------------------------------------------------

  /** The messages the loop holds, and the assistant message it appends once the
      tool calls of the turn are done. */
  datatype Transcript = Transcript(messages: seq<Members>, pending: Option<Members>)

  function AssistantMessage(content: Json): Members {
    map["role" := Str("assistant"), "content" := if content == Null then Str("") else content]
  }

  function ToolMessage(value: Json): Members {
    map["role" := Str("tool"), "content" := value]
  }

  function BlockedMessage(reason: string): Members {
    map["role" := Str("tool"), "content" := Str("blocked: " + reason)]
  }

  function Flush(t: Transcript): seq<Members> {
    if t.pending.Some? then t.messages + [t.pending.value] else t.messages
  }

  function Said(t: Transcript, e: Emission): Transcript {
    match e.event
    case Input(content, role) => Transcript([map["role" := role, "content" := content]], None)
    case PreModel(_) =>
      if e.reply.Proceeded? then Transcript(MapSlice(e.reply.after, "messages"), None) else Transcript(Flush(t), None)
    case PostModel(turn) =>
      if e.reply.Proceeded? && turn.calls != [] then t.(pending := Some(AssistantMessage(turn.content))) else t
    case PreTool(_) => if e.reply.Blocked? then t.(messages := t.messages + [BlockedMessage(e.reply.reason)]) else t
    case PostTool(_, _, value, _) =>
      t.(messages := t.messages + [if e.reply.Blocked? then BlockedMessage(e.reply.reason) else ToolMessage(value)])
    case _ => t
  }

  function TranscriptOf(trace: seq<Emission>): Transcript {
    if trace == [] then Transcript([], None)
    else Said(TranscriptOf(trace[..|trace| - 1]), trace[|trace| - 1])
  }

  /** Each model call is shown the conversation so far. */
  ghost predicate ShowsConversation(trace: seq<Emission>) {
    forall k | 0 <= k < |trace| && trace[k].event.PreModel? ::
      trace[k].event.messages == Flush(TranscriptOf(trace[..k]))
  }

  /** The k-th emission carries sequence number k. */
  ghost predicate Consecutive(trace: seq<Emission>) {
    forall k | 0 <= k < |trace| :: trace[k].sequence == k
  }

  /** What each message adds to the conversation, in full. */
  lemma MessagesAre(t: Transcript, e: Emission)
    ensures
      var u := Said(t, e);
      match e.event
      case Input(content, role) => Flush(u) == [map["role" := role, "content" := content]]
      case PreModel(_) => e.reply.Proceeded? ==> ObjectsOf(e.reply.after, "messages", Flush(u))
      case PostModel(turn) =>
        if e.reply.Proceeded? && turn.calls != [] then
          u.messages == t.messages
          && u.pending == Some(map["role" := Str("assistant"), "content" := if turn.content == Null then Str("") else turn.content])
        else u == t
      case PreTool(_) =>
        u == if e.reply.Blocked?
             then t.(messages := t.messages + [map["role" := Str("tool"), "content" := Str("blocked: " + e.reply.reason)]])
             else t
      case PostTool(_, _, value, _) =>
        u == t.(messages := t.messages +
                [map["role" := Str("tool"), "content" := if e.reply.Blocked? then Str("blocked: " + e.reply.reason) else value]])
      case _ => u == t
  {
    if e.event.PreModel? && e.reply.Proceeded? {
      SliceIs(e.reply.after, "messages");
    }
  }

  /** A conversation with an assistant message still to be appended. */
  lemma FlushIs(t: Transcript)
    ensures Flush(t) == t.messages + if t.pending.Some? then [t.pending.value] else []
  {
  }

  // ---- what is presented -------------------------------------------------------------------

  /** What the loop presents follows from the scenario and the emission before: the scenario's
      input; after a tool ran, its own answer to the arguments it was given; as output the
      last response's content. */
  ghost predicate Fits(scenario: Scenario, trace: seq<Emission>, k: nat)
    requires k < |trace|
  {
    match trace[k].event
    case Input(content, role) => content == scenario.content && role == scenario.role
    case PostTool(call, args, value, isError) =>
      && k > 0 && trace[k - 1].event == PreTool(call) && trace[k - 1].reply.Proceeded?
      && ArgsAre(call, trace[k - 1].reply.after, args)
      && exists c :: Answers(scenario.tools, call.name, args, Some(c)) && value == c.value && isError == c.isError
    case Output(content) =>
      && k > 0 && trace[k - 1].event.PostModel? && trace[k - 1].reply.Proceeded?
      && content != Null && content == trace[k - 1].event.turn.content
    case _ => true
  }

  ghost predicate EventsFit(scenario: Scenario, trace: seq<Emission>) {
    forall k | 0 <= k < |trace| :: Fits(scenario, trace, k)
  }

  lemma GrowFits(scenario: Scenario, trace: seq<Emission>, e: Emission)
    ensures EventsFit(scenario, trace + [e]) <==> EventsFit(scenario, trace) && Fits(scenario, trace + [e], |trace|)
  {
    var next := trace + [e];
    forall k | 0 <= k < |trace| ensures Fits(scenario, next, k) <==> Fits(scenario, trace, k) {
      assert next[k] == trace[k] && (k > 0 ==> next[k - 1] == trace[k - 1]);
    }
  }

  /** Everything a trace is read for, one emission longer. */
  lemma Grow(trace: seq<Emission>, e: Emission)
    ensures
      var next := trace + [e];
      && PhaseOf(next) == Next(PhaseOf(trace), e)
      && LogOf(next) == LogOf(trace) + (if e.event.PreTool? && e.reply.Proceeded?
                         then [Invocation(e.event.call.name, EffectiveArgs(e.event.call, e.reply.after))] else [])
      && CallsPresented(next) == CallsPresented(trace) + (if e.event.PreTool? then [e.event.call] else [])
      && TurnsTaken(next) == TurnsTaken(trace) + (if e.event.PostModel? && e.reply.Proceeded? then 1 else 0)
      && TurnsPresented(next) == TurnsPresented(trace) + (if e.event.PostModel? then [e.event.turn] else [])
      && FinalOf(next) == (if e.event.Output? && e.reply.Proceeded? then EffectiveOutput(e.event.content, e.reply.after) else FinalOf(trace))
      && TranscriptOf(next) == Said(TranscriptOf(trace), e)
      && (BlockedOutside(next) <==> BlockedOutside(trace) || (e.reply.Blocked? && !InToolSeam(e.event) && !e.event.Shutdown?))
      && (Consecutive(next) <==> Consecutive(trace) && e.sequence == |trace|)
      && (ShowsConversation(next) <==>
            ShowsConversation(trace) && (e.event.PreModel? ==> e.event.messages == Flush(TranscriptOf(trace))))
  {
    assert (trace + [e])[..|trace|] == trace;
    GrowBlocked(trace, e);
    GrowShown(trace, e);
    hide Next, Said, EffectiveArgs, EffectiveOutput, BlockedOutside, Consecutive, ShowsConversation, Flush;
  }

  lemma GrowBlocked(trace: seq<Emission>, e: Emission)
    ensures BlockedOutside(trace + [e]) <==>
      BlockedOutside(trace) || (e.reply.Blocked? && !InToolSeam(e.event) && !e.event.Shutdown?)
    ensures Consecutive(trace + [e]) <==> Consecutive(trace) && e.sequence == |trace|
  {
    var next := trace + [e];
    assert next[|trace|] == e;
    assert forall k | 0 <= k < |trace| :: next[k] == trace[k];
  }

  lemma GrowShown(trace: seq<Emission>, e: Emission)
    ensures ShowsConversation(trace + [e]) <==>
      ShowsConversation(trace) && (e.event.PreModel? ==> e.event.messages == Flush(TranscriptOf(trace)))
  {
    var next := trace + [e];
    assert next[|trace|] == e && next[..|trace|] == trace;
    assert forall k | 0 <= k < |trace| :: next[k] == trace[k] && next[..k] == trace[..k];
    hide TranscriptOf, Flush;
  }

  // ---- the harness ------------------------------------------------------------------------------

  datatype SessionOutcome = Completed | Stopped

  /** How a step of the loop ended for its caller. */
  datatype Ended = Fine | BlockedBy(reason: string) | Broken

  /** A run that ended without an infrastructure error. */
  datatype RunRecord = RunRecord(outcome: SessionOutcome, finalOutput: Json, toolInvocations: seq<Invocation>)

  /** What every such run satisfies, whatever the scenario and the emitter. */
  ghost predicate Lawful(scenario: Scenario, trace: seq<Emission>, r: RunRecord) {
    && PhaseOf(trace) == Closed
    && Consecutive(trace)
    && ShowsConversation(trace)
    && EventsFit(scenario, trace)
    && r.toolInvocations == LogOf(trace)
    && TurnsPresented(trace) <= scenario.script
    && TurnsTaken(trace) <= |scenario.script|
    && CallsPresented(trace) == CallsOf(scenario.script[..TurnsTaken(trace)])
    && (r.outcome == Completed ==> TookWholeScript(scenario.script, TurnsTaken(trace)))
    && (r.outcome == Stopped <==> BlockedOutside(trace))
    && r.finalOutput == (if r.outcome == Completed then FinalOf(trace) else Null)
    && trace != [] && trace[|trace| - 1].event == Shutdown(if r.outcome == Completed then "completed" else "error")
  }

  /** The first `n` responses are the whole script, or end at its first response
      without tool calls. */
  ghost predicate TookWholeScript(script: seq<Turn>, n: nat)
    requires n <= |script|
  {
    && (forall k | 0 <= k < n - 1 :: script[k].calls != [])
    && (n == |script| || (n > 0 && script[n - 1].calls == []))
  }

  class ReferenceHarness {
    const scenario: Scenario
    const emitter: Emitter
    /** The sequence counter of the session's context builder. */
    var sequence: nat
    var toolLog: seq<Invocation>
    /** Every emission of the session so far. */
    ghost var trace: seq<Emission>

    constructor (scenario: Scenario, emitter: Emitter)
      ensures this.scenario == scenario && this.emitter == emitter
      ensures sequence == 0 && toolLog == [] && trace == []
    {
      this.scenario, this.emitter := scenario, emitter;
      this.sequence, this.toolLog, this.trace := 0, [], [];
    }

    /** The counter numbers emissions from zero, the tool log accounts for the trace,
        and each model call was shown the conversation. */
    ghost predicate Valid()
      reads this
    {
      && sequence == |trace|
      && Consecutive(trace)
      && ShowsConversation(trace)
      && EventsFit(scenario, trace)
      && toolLog == LogOf(trace)
    }

    /** Builds the next context, which takes the next number, and emits it. */
    method Emit(e: Event) returns (r: Reply)
      requires sequence == |trace|
      modifies `sequence, `trace
      ensures trace == old(trace) + [Emission(old(sequence), e, r)] && sequence == old(sequence) + 1
      ensures EventsFit(scenario, trace) <==> old(EventsFit(scenario, trace)) && Fits(scenario, trace, |trace| - 1)
    {
      hide Fits;
      ghost var before := trace;
      r := emitter(sequence, e);
      trace := trace + [Emission(sequence, e, r)];
      sequence := sequence + 1;
      GrowFits(scenario, before, trace[|before|]);
    }

    method DoToolCall(call: ToolCall, messages: seq<Members>) returns (ended: Ended, after: seq<Members>)
      requires Valid() && PhaseOf(trace) == Acting && messages == TranscriptOf(trace).messages
      modifies this
      ensures !ended.Broken? ==>
        && Valid() && PhaseOf(trace) == Acting
        && TurnsTaken(trace) == old(TurnsTaken(trace)) && TurnsPresented(trace) == old(TurnsPresented(trace))
        && CallsPresented(trace) == old(CallsPresented(trace)) + [call]
        && (BlockedOutside(trace) <==> old(BlockedOutside(trace)))
        && FinalOf(trace) == old(FinalOf(trace))
        && TranscriptOf(trace).pending == old(TranscriptOf(trace).pending)
        && TranscriptOf(trace).messages == if ended.BlockedBy? then after + [BlockedMessage(ended.reason)] else after
    {
      hide PhaseOf, LogOf, CallsPresented, TurnsTaken, TurnsPresented, FinalOf, TranscriptOf, BlockedOutside, Consecutive, ShowsConversation;
      after := messages;
      var pre := Emit(PreTool(call));
      Grow(old(trace), trace[|trace| - 1]);
      if pre.Failed? {
        return Broken, after;
      }
      if pre.Blocked? {
        return BlockedBy(pre.reason), after;
      }
      var args := EffectiveArgs(call, pre.after);
      var answer := InvokeTool(scenario.tools, call.name, args);
      if answer.None? {
        return Broken, after;
      }
      toolLog := toolLog + [Invocation(call.name, args)];
      ghost var middle := trace;
      var post := Emit(PostTool(call, args, answer.value.value, answer.value.isError));
      Grow(middle, trace[|trace| - 1]);
      if post.Failed? {
        return Broken, after;
      }
      if post.Blocked? {
        return BlockedBy(post.reason), after;
      }
      return Fine, after + [ToolMessage(answer.value.value)];
    }

    /** The tool calls of one accepted turn: a block is told to the model and the
        loop goes on. */
    method DoToolCalls(calls: seq<ToolCall>, messages: seq<Members>) returns (broken: bool, after: seq<Members>)
      requires Valid() && PhaseOf(trace) == Acting && messages == TranscriptOf(trace).messages
      modifies this
      ensures !broken ==>
        && Valid() && PhaseOf(trace) == Acting
        && TurnsTaken(trace) == old(TurnsTaken(trace)) && TurnsPresented(trace) == old(TurnsPresented(trace))
        && CallsPresented(trace) == old(CallsPresented(trace)) + calls
        && (BlockedOutside(trace) <==> old(BlockedOutside(trace)))
        && FinalOf(trace) == old(FinalOf(trace))
        && TranscriptOf(trace) == Transcript(after, old(TranscriptOf(trace).pending))
    {
      hide PhaseOf, LogOf, CallsPresented, TurnsTaken, TurnsPresented, FinalOf, TranscriptOf, BlockedOutside, Consecutive, ShowsConversation;
      after := messages;
      for i := 0 to |calls|
        invariant Valid() && PhaseOf(trace) == Acting
        invariant TurnsTaken(trace) == old(TurnsTaken(trace)) && TurnsPresented(trace) == old(TurnsPresented(trace))
        invariant FinalOf(trace) == old(FinalOf(trace))
        invariant CallsPresented(trace) == old(CallsPresented(trace)) + calls[..i]
        invariant BlockedOutside(trace) <==> old(BlockedOutside(trace))
        invariant TranscriptOf(trace) == Transcript(after, old(TranscriptOf(trace).pending))
      {
        var ended;
        ended, after := DoToolCall(calls[i], after);
        if ended.Broken? {
          return true, after;
        }
        if ended.BlockedBy? {
          after := after + [BlockedMessage(ended.reason)];
        }
        assert calls[..i + 1] == calls[..i] + [calls[i]];
      }
      assert calls[..|calls|] == calls;
      return false, after;
    }

    /** Startup and input. */
    method OpenSession() returns (ended: Ended)
      requires Valid() && trace == []
      modifies this
      ensures !ended.Broken? ==>
        && Valid()
        && PhaseOf(trace) == (if ended.Fine? then Ready else Closing)
        && TurnsTaken(trace) == 0 && TurnsPresented(trace) == [] && CallsPresented(trace) == [] && FinalOf(trace) == Null
        && (ended.BlockedBy? <==> BlockedOutside(trace))
      ensures ended.Fine? ==>
        TranscriptOf(trace) == Transcript([map["role" := scenario.role, "content" := scenario.content]], None)
    {
      hide PhaseOf, LogOf, CallsPresented, TurnsTaken, TurnsPresented, FinalOf, TranscriptOf, BlockedOutside, Consecutive, ShowsConversation;
      Empty();
      ghost var before := trace;
      var r := Emit(Startup);
      Grow(before, trace[|trace| - 1]);
      if !r.Proceeded? {
        return EndedBy(r);
      }
      before := trace;
      r := Emit(Input(scenario.content, scenario.role));
      Grow(before, trace[|trace| - 1]);
      return if r.Proceeded? then Fine else EndedBy(r);
    }

    /** One scripted model call: the conversation goes out, what the emitter made of it
        is read back, and the response is emitted. */
    method ModelCall(turn: Turn, messages: seq<Members>) returns (ended: Ended, after: seq<Members>)
      requires Valid() && (PhaseOf(trace) == Ready || PhaseOf(trace) == Acting)
      requires messages == Flush(TranscriptOf(trace))
      modifies this
      ensures !ended.Broken? ==>
        && Valid()
        && PhaseOf(trace) == (if ended.BlockedBy? then Closing
                              else if turn.calls != [] then Acting
                              else if turn.content != Null then Speaking else Closing)
        && TurnsTaken(trace) == old(TurnsTaken(trace)) + (if ended.Fine? then 1 else 0)
        && old(TurnsPresented(trace)) <= TurnsPresented(trace) <= old(TurnsPresented(trace)) + [turn]
        && (ended.Fine? ==> TurnsPresented(trace) == old(TurnsPresented(trace)) + [turn])
        && CallsPresented(trace) == old(CallsPresented(trace))
        && FinalOf(trace) == old(FinalOf(trace))
        && (BlockedOutside(trace) <==> old(BlockedOutside(trace)) || ended.BlockedBy?)
      ensures ended.Fine? ==>
        trace != [] && trace[|trace| - 1].event == PostModel(turn) && trace[|trace| - 1].reply.Proceeded?
      ensures ended.Fine? && turn.calls != [] ==>
        TranscriptOf(trace) == Transcript(after, Some(AssistantMessage(turn.content)))
    {
      hide PhaseOf, LogOf, CallsPresented, TurnsTaken, TurnsPresented, FinalOf, TranscriptOf, BlockedOutside, Consecutive, ShowsConversation,
           MapSlice, AssistantMessage;
      ghost var before := trace;
      var r := Emit(PreModel(messages));
      Grow(before, trace[|trace| - 1]);
      if !r.Proceeded? {
        return EndedBy(r), messages;
      }
      after := MapSlice(r.after, "messages");
      before := trace;
      r := Emit(PostModel(turn));
      Grow(before, trace[|trace| - 1]);
      return if r.Proceeded? then Fine else EndedBy(r), after;
    }

    /** The session up to shutdown. */
    method RunScript() returns (ended: Ended, final: Json)
      requires Valid() && trace == []
      modifies this
      ensures !ended.Broken? ==>
        && Valid()
        && (PhaseOf(trace) == Ready || PhaseOf(trace) == Acting || PhaseOf(trace) == Closing)
        && TurnsPresented(trace) <= scenario.script
        && TurnsTaken(trace) <= |scenario.script|
        && CallsPresented(trace) == CallsOf(scenario.script[..TurnsTaken(trace)])
        && (ended.Fine? ==> TookWholeScript(scenario.script, TurnsTaken(trace)))
        && (ended.BlockedBy? <==> BlockedOutside(trace))
        && (ended.Fine? ==> final == FinalOf(trace))
    {
      hide PhaseOf, LogOf, CallsPresented, TurnsTaken, TurnsPresented, FinalOf, TranscriptOf, BlockedOutside, Consecutive, ShowsConversation, CallsOf,
           MapSlice, EffectiveArgs, EffectiveOutput, AssistantMessage, BlockedMessage, ToolMessage;
      final := Null;
      var script := scenario.script;
      Empty();
      assert script[..0] == [];
      ended := OpenSession();
      if !ended.Fine? {
        return ended, Null;
      }
      var messages: seq<Members> := [map["role" := scenario.role, "content" := scenario.content]];
      var t := 0;
      while t < |script|
        invariant 0 <= t <= |script|
        invariant Valid() && (PhaseOf(trace) == Ready || PhaseOf(trace) == Acting)
        invariant TurnsTaken(trace) == t && TurnsPresented(trace) == script[..t]
        invariant CallsPresented(trace) == CallsOf(script[..t])
        invariant forall k | 0 <= k < t :: script[k].calls != []
        invariant !BlockedOutside(trace) && FinalOf(trace) == Null && final == Null
        invariant messages == Flush(TranscriptOf(trace))
      {
        CallsOfNext(script, t);
        assert script[..t + 1] == script[..t] + [script[t]];
        var turn := script[t];
        ended, messages := ModelCall(turn, messages);
        if !ended.Fine? {
          return ended, Null;
        }
        t := t + 1;
        if turn.calls == [] {
          final := turn.content;
          break;
        }
        var broken;
        broken, messages := DoToolCalls(turn.calls, messages);
        if broken {
          return Broken, Null;
        }
        messages := messages + [AssistantMessage(turn.content)];
      }
      if final != Null {
        ghost var before := trace;
        var r := Emit(Output(final));
        Grow(before, trace[|trace| - 1]);
        if !r.Proceeded? {
          return EndedBy(r), Null;
        }
        final := EffectiveOutput(final, r.after);
      }
      return Fine, final;
    }

    /** One session: the script, then a shutdown that runs whatever happened and whose
        own block is ignored. */
    method Run() returns (r: Option<RunRecord>)
      requires Valid() && trace == []
      modifies this
      ensures r.Some? ==> Lawful(scenario, trace, r.value)
    {
      hide PhaseOf, LogOf, CallsPresented, TurnsTaken, TurnsPresented, FinalOf, TranscriptOf, BlockedOutside, Consecutive, ShowsConversation, CallsOf;
      var ended, final := RunScript();
      if ended.Broken? {
        return None;
      }
      var outcome := if ended.BlockedBy? then Stopped else Completed;
      if outcome == Stopped {
        final := Null;
      }
      ghost var before := trace;
      var reply := Emit(Shutdown(if outcome == Completed then "completed" else "error"));
      Grow(before, trace[|trace| - 1]);
      if reply.Failed? {
        return None;
      }
      return Some(RunRecord(outcome, final, toolLog));
    }
  }

  function EndedBy(r: Reply): Ended
    requires !r.Proceeded?
  {
    if r.Blocked? then BlockedBy(r.reason) else Broken
  }

  lemma Empty()
    ensures PhaseOf([]) == Fresh && LogOf([]) == [] && CallsPresented([]) == [] && TurnsTaken([]) == 0 && TurnsPresented([]) == []
    ensures FinalOf([]) == Null && TranscriptOf([]) == Transcript([], None) && !BlockedOutside([]) && CallsOf([]) == []
  {
  }

  lemma CallsOfNext(script: seq<Turn>, t: nat)
    requires t < |script|
    ensures CallsOf(script[..t + 1]) == CallsOf(script[..t]) + script[t].calls
  {
    assert script[..t + 1][..t] == script[..t];
  }

  // ---- what a lawful trace looks like ---------------------------------------------------------------

  /** Nothing recovers from a wrong order, and nothing follows a shutdown. */
  lemma {:induction false} PrefixesAreOpen(trace: seq<Emission>, k: nat)
    requires k < |trace| && PhaseOf(trace) != Wrong
    ensures PhaseOf(trace[..k]) != Wrong && PhaseOf(trace[..k]) != Closed
    ensures PhaseOf(trace[..k + 1]) == Next(PhaseOf(trace[..k]), trace[k])
    ensures PhaseOf(trace[..k + 1]) != Wrong
    decreases |trace|
  {
    var n := |trace| - 1;
    var front := trace[..n];
    if k < n {
      PrefixesAreOpen(front, k);
      assert front[..k] == trace[..k] && front[..k + 1] == trace[..k + 1];
    } else {
      assert trace[..k + 1] == trace;
      assert trace[..k + 1][..k] == trace[..k];
    }
  }

  lemma PhaseAt(trace: seq<Emission>, k: nat)
    requires k < |trace| && PhaseOf(trace) != Wrong
    ensures PhaseOf(trace[..k + 1]) == Next(PhaseOf(trace[..k]), trace[k]) && PhaseOf(trace[..k + 1]) != Wrong
    ensures k + 1 < |trace| ==> Next(PhaseOf(trace[..k + 1]), trace[k + 1]) != Wrong && PhaseOf(trace[..k + 1]) != Closed
  {
    PrefixesAreOpen(trace, k);
    if k + 1 < |trace| { PrefixesAreOpen(trace, k + 1); }
  }

  /** A finished session opens with startup, then input, and its only shutdown is its
      last emission. */
  lemma OpensAndCloses(trace: seq<Emission>)
    requires PhaseOf(trace) == Closed
    ensures |trace| >= 2 && trace[0].event.Startup? && trace[|trace| - 1].event.Shutdown?
    ensures forall k | 0 <= k < |trace| - 1 :: !trace[k].event.Shutdown?
    ensures trace[1].event.Input? || trace[0].reply.Blocked?
  {
    Empty();
    assert trace != [] && trace[..|trace|] == trace;
    hide PhaseOf;
    PhaseAt(trace, |trace| - 1);
    SecondEvent(trace);
    forall k | 0 <= k < |trace| - 1 ensures !trace[k].event.Shutdown? {
      NoEarlyShutdown(trace, k);
    }
  }

  lemma SecondEvent(trace: seq<Emission>)
    requires PhaseOf(trace) == Closed && trace != []
    ensures |trace| >= 2 && trace[0].event.Startup? && (trace[1].event.Input? || trace[0].reply.Blocked?)
  {
    Empty();
    assert trace[..0] == [] && trace[..|trace|] == trace;
    hide PhaseOf;
    PhaseAt(trace, 0);
  }

  lemma NoEarlyShutdown(trace: seq<Emission>, k: nat)
    requires PhaseOf(trace) == Closed && k < |trace| - 1
    ensures !trace[k].event.Shutdown?
  {
    hide PhaseOf;
    PhaseAt(trace, k);
  }

  /** A block outside the tool seam cuts the session: only the shutdown follows. */
  lemma BlockCutsToShutdown(trace: seq<Emission>, k: nat)
    requires PhaseOf(trace) == Closed && k < |trace|
    requires trace[k].reply.Blocked? && !InToolSeam(trace[k].event) && !trace[k].event.Shutdown?
    ensures k == |trace| - 2
  {
    hide PhaseOf;
    assert trace[..|trace|] == trace;
    PhaseAt(trace, k);
    if k + 2 < |trace| { PhaseAt(trace, k + 1); }
  }

  /** Inside the tool seam a tool runs exactly when its pre_tool_call proceeded: the
      matching post_tool_call comes next and nowhere else; a blocked one is followed
      by another tool call, another model call or the end, never by a post_tool_call. */
  lemma ToolSeamPairs(trace: seq<Emission>, k: nat)
    requires PhaseOf(trace) == Closed && k + 1 < |trace|
    ensures trace[k].event.PreTool? && trace[k].reply.Proceeded? <==> trace[k + 1].event.PostTool?
    ensures trace[k].event.PreTool? && trace[k].reply.Blocked? ==>
      trace[k + 1].event.PreTool? || trace[k + 1].event.PreModel? || trace[k + 1].event.Shutdown?
  {
    hide PhaseOf;
    Empty();
    PhaseAt(trace, k);
    if k > 0 { PhaseAt(trace, k - 1); }
    assert trace[..0] == [];
  }

  /** Every accepted model call is followed by its response, and an output only by the
      shutdown, after a response without tool calls. */
  lemma ModelAndOutputOrder(trace: seq<Emission>, k: nat)
    requires PhaseOf(trace) == Closed && k + 1 < |trace|
    ensures trace[k].event.PreModel? && trace[k].reply.Proceeded? <==> trace[k + 1].event.PostModel?
    ensures trace[k + 1].event.Output? ==>
      trace[k].event.PostModel? && trace[k].reply.Proceeded? && trace[k].event.turn.calls == [] && k + 3 == |trace|
  {
    hide PhaseOf;
    Empty();
    PhaseAt(trace, k);
    assert trace[..0] == [] && trace[..|trace|] == trace;
    if trace[k + 1].event.Output? {
      PhaseAt(trace, k + 1);
      if k + 2 < |trace| { PhaseAt(trace, k + 2); }
    }
  }

  lemma {:induction false} FinalComesFromOutput(trace: seq<Emission>)
    ensures FinalOf(trace) != Null ==> exists k | 0 <= k < |trace| ::
      && trace[k].event.Output? && trace[k].reply.Proceeded?
      && FinalOf(trace) == EffectiveOutput(trace[k].event.content, trace[k].reply.after)
  {
    if trace != [] {
      var n := |trace| - 1;
      FinalComesFromOutput(trace[..n]);
      if FinalOf(trace) != Null {
        if trace[n].event.Output? && trace[n].reply.Proceeded? {
        } else {
          var k :| 0 <= k < n && trace[..n][k].event.Output? && trace[..n][k].reply.Proceeded?
                   && FinalOf(trace[..n]) == EffectiveOutput(trace[..n][k].event.content, trace[..n][k].reply.after);
          assert trace[k] == trace[..n][k];
        }
      }
    }
  }

  /** A non-null final output means the session completed and an output emission
      proceeded with exactly that effective content. */
  lemma FinalOutputWasEmitted(scenario: Scenario, trace: seq<Emission>, r: RunRecord)
    requires Lawful(scenario, trace, r) && r.finalOutput != Null
    ensures r.outcome == Completed
    ensures exists k | 0 <= k < |trace| ::
      && trace[k].event.Output? && trace[k].reply.Proceeded?
      && OutputIs(trace[k].event.content, trace[k].reply.after, r.finalOutput)
  {
    FinalComesFromOutput(trace);
  }

  /** The positions of a trace's pre_tool_call emissions, or of those that proceeded. */
  function ToolPositions(trace: seq<Emission>, ran: bool): seq<nat> {
    if trace == [] then []
    else
      var n := |trace| - 1;
      var e := trace[n];
      ToolPositions(trace[..n], ran) + if e.event.PreTool? && (ran ==> e.reply.Proceeded?) then [n] else []
  }

  lemma RisingSnoc(p: seq<nat>, n: nat)
    requires Rising(p) && forall k | k in p :: k < n
    ensures Rising(p + [n]) && forall k :: k in p + [n] <==> k in p || k == n
  {
    assert forall i | 0 <= i < |p| :: p[i] in p;
  }

  lemma ToolPositionsSnoc(front: seq<Emission>, e: Emission, ran: bool)
    ensures ToolPositions(front + [e], ran) ==
      ToolPositions(front, ran) + if e.event.PreTool? && (ran ==> e.reply.Proceeded?) then [|front|] else []
  {
    assert (front + [e])[..|front|] == front;
  }

  lemma {:induction false} PositionsAre(trace: seq<Emission>, ran: bool)
    ensures Rising(ToolPositions(trace, ran))
    ensures forall k: nat :: k in ToolPositions(trace, ran) <==>
      k < |trace| && trace[k].event.PreTool? && (ran ==> trace[k].reply.Proceeded?)
    decreases |trace|
  {
    if trace != [] {
      var n := |trace| - 1;
      var front := trace[..n];
      assert trace == front + [trace[n]];
      ToolPositionsSnoc(front, trace[n], ran);
      hide ToolPositions, Rising;
      PositionsAre(front, ran);
      RisingSnoc(ToolPositions(front, ran), n);
      assert forall k | 0 <= k < n :: front[k] == trace[k];
      assert ToolPositions(front, ran) + [] == ToolPositions(front, ran);
    }
  }

  /** The call presented at position `k` of the trace is `c`. */
  predicate PresentedAt(trace: seq<Emission>, k: nat, c: ToolCall) {
    k < |trace| && trace[k].event == PreTool(c)
  }

  /** The entry `v` is the call at position `k`, which proceeded, with its effective arguments. */
  predicate LoggedAt(trace: seq<Emission>, k: nat, v: Invocation) {
    && k < |trace| && trace[k].event.PreTool? && trace[k].reply.Proceeded?
    && v.name == trace[k].event.call.name && ArgsAre(trace[k].event.call, trace[k].reply.after, v.args)
  }

  lemma {:induction false} CallsAt(trace: seq<Emission>)
    ensures
      var all := ToolPositions(trace, false);
      && |CallsPresented(trace)| == |all|
      && forall j | 0 <= j < |all| :: PresentedAt(trace, all[j], CallsPresented(trace)[j])
    decreases |trace|
  {
    if trace != [] {
      var n := |trace| - 1;
      var front := trace[..n];
      assert trace == front + [trace[n]];
      ToolPositionsSnoc(front, trace[n], false);
      hide ToolPositions;
      CallsAt(front);
      var all := ToolPositions(front, false);
      forall j | 0 <= j < |all| ensures PresentedAt(trace, all[j], CallsPresented(front)[j]) {
        assert PresentedAt(front, all[j], CallsPresented(front)[j]);
      }
    }
  }

  lemma {:induction false} LogAt(trace: seq<Emission>)
    ensures
      var ran := ToolPositions(trace, true);
      && |LogOf(trace)| == |ran|
      && forall j | 0 <= j < |ran| :: LoggedAt(trace, ran[j], LogOf(trace)[j])
    decreases |trace|
  {
    if trace != [] {
      var n := |trace| - 1;
      var front := trace[..n];
      assert trace == front + [trace[n]];
      ToolPositionsSnoc(front, trace[n], true);
      hide ToolPositions;
      LogAt(front);
      var ran := ToolPositions(front, true);
      forall j | 0 <= j < |ran| ensures LoggedAt(trace, ran[j], LogOf(front)[j]) {
        assert LoggedAt(front, ran[j], LogOf(front)[j]);
      }
    }
  }

  /** The log is, in order and with nothing else in it, the tool calls presented whose
      pre_tool_call proceeded, each with its effective arguments. */
  lemma {:induction false} LogMatchesCalls(trace: seq<Emission>)
    ensures
      var all, ran := ToolPositions(trace, false), ToolPositions(trace, true);
      && Rising(all) && Rising(ran)
      && (forall k: nat :: k in ran <==> k in all && k < |trace| && trace[k].reply.Proceeded?)
      && |CallsPresented(trace)| == |all|
      && (forall j | 0 <= j < |all| :: PresentedAt(trace, all[j], CallsPresented(trace)[j]))
      && |LogOf(trace)| == |ran|
      && (forall j | 0 <= j < |ran| :: LoggedAt(trace, ran[j], LogOf(trace)[j]))
  {
    hide ToolPositions, Rising, LogOf, CallsPresented, PresentedAt, LoggedAt;
    PositionsAre(trace, false);
    PositionsAre(trace, true);
    CallsAt(trace);
    LogAt(trace);
  }
}
