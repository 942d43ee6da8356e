# Agent Hooks: a verified model of the emitter, the agent loop and the declaration tools

Agent Hooks lets interceptors judge every step of an agent (startup, input, model calls,
tool calls, output, shutdown). An *emitter* runs the interceptors bound at a point, settles
their failures, folds their transforms into the live context, asks an approval resolver about
liftable denies, and leaves a record. The project models that emitter as the Go SDK implements it, the
reference agent loop that drives a whole session through it, the builder and registry that
turn a host declaration into an emitter, the .NET wire forms, and the rewrite of the vector
grammar for a released bundle. The emitter's laws hold for every number of interceptors, whatever interceptors
return and do to their copies, whatever redactors and resolvers return and do to the
context in their own turns, and whatever the notifier does. Two things are assumed: nobody who
holds parts of the live context writes to it outside the turns of a consultation, and a custom
identity provider is a pure function of the context, as section 10.1 of the draft requires.

## How it is built

`Hosts.World` holds the behaviour of the host's callbacks and of the shared core. A callback
is a function of the slot index and of what the slot is shown; a slot is invoked at most once
and consults at most once in an emission, so such a function describes what any callback
returns, however stateful. `moves` is what an interceptor does to the heap copy it is handed; a
redaction says what it left in the live context and whether the resolver can now reach a node
of it, shown or kept; `resolverLeaves` is what a resolver that can reach the live context
leaves there in its turn.

The core is opaque, and so is how the SDK's decoder reads back a number (`number`). Seven contracts state what is relied on, each a `requires` of the lemmas
that need it: `GateContract` (an accepted verdict satisfies section 5), `SeverityContract` (a
permit out of severity aggregation means only permits went in, the seam is asked only when no
plain deny did, and a unanimous permit means everybody allowed), `UnionContract` (the aggregate
carries the first-seen unions of section 7.3), `SummaryContract` (and one summary for each verdict),
`ToldContract` (the record carries what the core is told), `CodeContract` (core error codes are reserved reasons) and `RecordContract`
(the record keeps the mode and never turns a block into a permit).

* `Json`, `Verdicts`, `Hosts`: values, predicates, callbacks and contracts.
* `ContextHeap`: a context as mutable nodes, its deep copies, what a callee can reach from one, and who
  can change the live value. `Rereading`: printing a value and reading it back.
* `Slots`: one composition slot — call, settle, fold, consult.
* `FirstDeny` with `FirstDenyLaws`, `FirstDenyContext`, `FirstDenyRecord`: the profile
  `sequential/first_deny` as a trace of slots, and its laws.
* `RunAll` with `RunAllLaws` and `RunAllRecord`: `sequential/run_all` and the parallel profiles.
  `SnapshotDispatch` and `SlotAgreement` are the TypeScript dispatch, seam and slot, compared with Go's.
* `Unions`, `Notices`, `ApprovalOrder`: metadata unions, announced continuations, and the
  validation order of approval resolutions.
* `SeamLaws`, `EmissionLaws`: the approval seam as its parties meet it, and what an emission owes its
  configuration and its record. `Emission`: one whole emission. `Emitter`: the emitter as an object with fields, a live context changed
  in place and dispatch loops, each method proved against the functions above.
* `Lifecycle`: configuration and record buffer as a state machine over all runs of operations.
* `HostRegistries`, `Construction`: the registry, and building an emitter from a resolved declaration.
* `Declaration`: the builder and the member-by-member rebuild of a document.
* `Session`: the reference agent loop.
* `Timeouts`, `LateValues`: one bounded call as a race of steps, in Go and in .NET.
* `Scenes`: concrete emissions on which the exceptions below show.
* `Wire`, `Surfaces`: the .NET wire forms, with types of their own because that SDK tells an
  absent text from an empty one; `Wire.EmitterVerdictsComeBack` relates them to the emitter's. `Grammar`: the id and reference rewrite.

## What the proofs found

* A consultation can change what later slots see: the redactor is called with the live
  context, and the resolver reaches it unless the redactor hands back a context of its own and
  neither kept a part. `FirstDenyContext.SeamIsolationIff` says exactly when isolation holds,
  `ContextHeap.TurnApart` and `TurnInside` that reach is what decides it on the heap, and
  `Scenes.RedactorWrites` and `KeptArgumentWrites` show redactors that break it while
  showing nothing.
* An interceptor's copy is read back from JSON text into floating point, so an integer beyond
  2^53 is offered rounded, and a number the decoder cannot hold denies the slot. The copy
  equals the live content exactly for portable numbers (`ContextHeap.OfferedIff`).
* For a resolution that echoes the identity and is malformed the emitter does not report the
  reason the order of section 9 of the draft asks for (`approval_resolver_failed`), but
  `approval_unresolved` or, for an unknown outcome with a refused verdict, `verdict_invalid`; it still
  never lifts one. `ApprovalOrder.FollowsTheOrderIff`, with the concrete `ApprovalWithoutVerdict`.
* From the same slots the Go and TypeScript parallel dispatches agree up to message text, even
  if the core asked for a transform and a consultation together, except when aggregation fails
  (TypeScript then records no summaries, `Scenes.SummariesPart`), when a resolution has an unknown
  outcome and a good verdict, and when a custom provider fails with a code of its own
  (`SnapshotDispatch.AgreesIff`). Slots settle alike unless a managed outcome has no known type or an
  error is raised under the caller's cancellation (`SlotAgreement.SlotsAgreeIff`).
* A failure while the emission's caller has cancelled can still continue: a refused return
  and a managed panic do (`Notices.ContinuesIff`, `Scenes.ContinuesUnderCancellation`).
* Rebuilding a declaration and handing it out loses an empty host version, empty typed objects,
  nulls among profile knobs and numbers the decoder does not read back as they were, and
  nothing else: `Declaration.RoundTripIff`, with `LargeIntegerIsLost`. A number the decoder cannot hold
  loses the whole document.
* The comment on the Go call says a late result is discarded. It can still be returned as long
  as the caller has not yet looked at the limit's signal, and no longer (`Timeouts.LateValueWinsIff`,
  `LateValueMayWin`). In .NET it never is unless the host cancelled as well
  (`LateValues.LateValueIsDropped`), while a cancelled call can be reported there as a timeout, which Go
  rules out (`LateValues.CancelledTimesOutIff`, `CancellationMayTimeOut`, `Timeouts.CancellationNeverContinues`).
* Section 7.4 of the draft wants `fold_truncated` in both sequential profiles. Under
  `sequential/run_all` the code never sets it, so it tells the truth exactly when no registration
  before the last breaks the fold (`RunAllLaws.TruncationIsToldIff`, `Scenes.TruncationUntold`).
* A substituted slot's `host_warning:control_failed` can be missing from the combined verdict: under
  `sequential/first_deny` exactly after a transform that does not apply
  (`FirstDenyRecord.HostWarningIffSubstituted`, `Scenes.WarningLost`); in the other profiles exactly after a failed
  fold, a refused aggregation, or a winner's or lifted transform that does not apply
  (`RunAllRecord.SequentialCarriesIff`, `ParallelCarriesIff`, `Scenes.WarningLostToAggregation`).

## Model

| member | source | states |
|---|---|---|
| Emitter.InterceptionEmitter.DispatchFirstDeny | sdk/go/agenthooks/emitter.go:1095-1224 | the loop with its nine exits and four accumulators returns the outcome of the recursive profile, leaves the context its last slot left, and the notices accepted are those of the slots it ran |
| Emitter.InterceptionEmitter.RunSlot | sdk/go/agenthooks/emitter.go:1108-1209 | one iteration acts on the live context as the slot of the specification does, and ends the same way |
| Emitter.InterceptionEmitter.DispatchRunAll | sdk/go/agenthooks/emitter.go:1230-1253 | every interceptor runs on the folds of the earlier ones; a transform that fails ends the run without aggregation |
| Emitter.InterceptionEmitter.DispatchParallel | sdk/go/agenthooks/emitter.go:1259-1268 | every interceptor judges the untouched starting context, then aggregation decides |
| Emitter.InterceptionEmitter.AggregateAndConsult | sdk/go/agenthooks/emitter.go:1274-1341 | the winner's transform or at most one consultation ends the emission, with the attribution and unions of each exit |
| Emitter.InterceptionEmitter.Consult | sdk/go/agenthooks/emitter.go:1390-1480 | the seam's verdict, and what a redactor called with the live context and a resolver that can reach it leave in it |
| SeamLaws.AskedIff | sdk/go/agenthooks/emitter.go:1390-1403 | the seam is asked exactly about a deny with an approval block, in enforce mode, with a resolver, and not at shutdown |
| SeamLaws.OnlyTheShownIsAsked | sdk/go/agenthooks/emitter.go:1405-1436 | only the answer to the request that shows what the redactor made of the context, or the context without one, under exactly its identity, matters |
| SeamLaws.TheShownIsJudged | sdk/go/agenthooks/emitter.go:1430-1480 | and that answer is what is judged, against that identity |
| SeamLaws.EchoIsOfTheShown | sdk/go/agenthooks/emitter.go:1443-1446 | an answer that does not repeat the identity of what was shown lifts nothing |
| SeamLaws.PanickedRedactor | sdk/go/agenthooks/emitter.go:1408-1417 | a panicking redactor fails the consultation closed |
| SeamLaws.NoIdentity | sdk/go/agenthooks/emitter.go:1424-1427 | so does an identity that cannot be had, with the provider's code or an invalid context |
| SeamLaws.NoResolution | sdk/go/agenthooks/emitter.go:1437-1442 | and a resolver that raises or takes too long |
| SeamLaws.SeamLeavesWhat | sdk/go/agenthooks/emitter.go:1405-1436 | what the live context holds after a consultation |
| Emitter.InterceptionEmitter.FoldTransform | sdk/go/agenthooks/emitter.go:1346-1379 | an applied transform replaces the content of the live context; a failed one leaves it and yields a reserved deny |
| SeamLaws.FoldFailure | sdk/go/agenthooks/emitter.go:1346-1379 | how a fold ends, ending by ending: the applied context, or the same context and a deny with the core's reason or an invalid transform |
| Emitter.InterceptionEmitter.Call | sdk/go/agenthooks/emitter.go:921-1028 | the verdict or failure of one interceptor run on a deep copy in nodes of its own, whatever it looks up, overwrites or adds there; no node of the live context is written |
| ContextHeap.AgentContext.DeepCopy | sdk/go/agenthooks/ctk.go:187-197 | the copy spells out the content as it is read back, or there is none when a number cannot be; its nodes are fresh, disjoint from the original's, and nothing else can be reached from them |
| Rereading.RereadIff | sdk/go/agenthooks/ctk.go:187-197 | a value is read back unchanged if and only if each of its numbers is |
| Rereading.RereadSettles | sdk/go/agenthooks/ctk.go:187-197 | with a decoder that keeps what it made, a second reading changes nothing |
| ContextHeap.OfferCopies | sdk/go/agenthooks/emitter.go:921-929 | isolation: whatever interceptors do, now or at any later turn, to the copies they keep and share, each is offered the host's own edits as they read back, and the live context holds exactly those edits in the end |
| ContextHeap.OfferedIff | sdk/go/agenthooks/emitter.go:922-924 | what is offered equals the host's edits if and only if their numbers are portable |
| ContextHeap.TurnApart | sdk/go/agenthooks/emitter.go:1425-1436 | a party that can reach no node of the live value leaves it as it is, whatever it does and keeps |
| ContextHeap.TurnInside | sdk/go/agenthooks/emitter.go:1406-1436 | a party that can look up its way to any node of the live value can change it |
| ContextHeap.ChangedBelow | sdk/go/agenthooks/emitter.go:1406-1436 | overwriting any part of a value loses the value |
| ContextHeap.DenotesWithout | sdk/go/agenthooks/emitter.go:1425-1436 | nodes that are no part of a value do not matter to it |
| ContextHeap.ShallowCopyLeaks | sdk/go/agenthooks/emitter.go:922-924 | a copy of the top level alone does not isolate: writing through it changes the live content |
| ContextHeap.DenotesOnce | sdk/go/agenthooks/ctk.go:187-197 | the nodes of a context spell out one content |
| Emitter.InterceptionEmitter.Settle | sdk/go/agenthooks/emitter.go:1036-1086 | a failure becomes a deny or, announced and accepted, the substituted allow; the notice is heard exactly then |
| Notices.CallEnds | sdk/go/agenthooks/emitter.go:921-1028 | how the call of a slot ends, ending by ending, with its reason and whether it may continue |
| Notices.SlotHolds | sdk/go/agenthooks/emitter.go:910-916 | a slot holds the returned verdict, a bare deny with the failure's reason, or the substitute for it |
| Notices.NoticeSays | sdk/go/agenthooks/emitter.go:1036-1066 | what the principal is told: index, registration by name or position, reason, message, and the point when it is one of the eight |
| Notices.SubstituteSays | sdk/go/agenthooks/emitter.go:1036-1073 | the substitute is an allow with one warning naming the registration and the failure |
| Notices.DigitsAre | sdk/go/agenthooks/emitter.go:1036-1066 | a position is written in decimal |
| Emitter.InterceptionEmitter.Decide | sdk/go/agenthooks/emitter.go:650-692 | envelope, version, identity and dispatch decide, and leave the context, as the specified emission does |
| Emitter.InterceptionEmitter.EmitUnchecked | sdk/go/agenthooks/emitter.go:650-731 | the record made, the context left, and exactly one delivery when a record exists; the record tells the identities of the context before and after, each as its provider gives it, the registrations bound where it ended, and the configuration |
| Emitter.InterceptionEmitter.Emit | sdk/go/agenthooks/emitter.go:631-648 | the effective target is handed out only for a record that proceeds; in enforce mode that means the action passed, in every profile |
| Emitter.InterceptionEmitter.Active | sdk/go/agenthooks/emitter.go:583-591 | the registrations bound at a point, in order |
| Emitter.InterceptionEmitter.Push | sdk/go/agenthooks/emitter.go:558-579 | a refused registration changes nothing; an accepted one is appended with its points and posture |
| Emitter.InterceptionEmitter.CheckPoints | sdk/go/agenthooks/emitter.go:492-517 | an empty or unknown point set is refused, repeats are dropped |
| Emitter.InterceptionEmitter.SetControlFailureNotifier | sdk/go/agenthooks/emitter.go:413-424 | the channel cannot be removed while a registration relies on it |
| Emitter.InterceptionEmitter.Deliver | sdk/go/agenthooks/emitter.go:831-849 | the oldest records make room, one dropped count each, and the record is appended |
| Emitter.InterceptionEmitter.TakeRecords | sdk/go/agenthooks/emitter.go:444-450 | hands out the whole buffer and empties it |
| Emitter.UnionWarningsLoop | sdk/go/agenthooks/emitter.go:1522-1540 | the loop builds the specified union |
| Emitter.UnionLabelsLoop | sdk/go/agenthooks/emitter.go:1544-1565 | the loop builds the specified union over permits |
| FirstDenyLaws.StepsIsRun | sdk/go/agenthooks/emitter.go:1108-1209 | slot k runs on what slot k - 1 left, only the last slot may end the run, and without an ending slot all ran |
| FirstDenyLaws.PermitIffEverySlotCleared | sdk/go/agenthooks/emitter.go:1108-1224 | fail closed: the profile permits if and only if each invoked slot allowed, folded its transform, or was a liftable deny lifted by an approval echoing the identity of what the resolver was shown; all ran unless `stop` ended at such a deny |
| FirstDenyLaws.ClearedIff | sdk/go/agenthooks/emitter.go:1108-1209 | the exits that let the fold go on are exactly the cleared slots, stated without the code's branches |
| FirstDenyLaws.InvokeShape | sdk/go/agenthooks/emitter.go:910-916 | a settled slot is a gated verdict, a bare host deny, or the announced substitute |
| Verdicts.Validate | sdk/go/agenthooks/types.go:404-435 | the pre-flight check accepts exactly the verdicts of section 5, reserved prefixes by version included |
| FirstDenyLaws.ConsultShape | sdk/go/agenthooks/emitter.go:1390-1480 | the seam permits only what an echoed approval with a gated permit supports, and denies otherwise |
| FirstDenyContext.ContextIsReplay | sdk/go/agenthooks/emitter.go:1108-1209 | the context law: before each slot and at the end, the live context is the starting one with exactly the edits of the earlier slots replayed in order, redactors and resolvers writing in their own turns only |
| FirstDenyContext.OnlyTransforms | sdk/go/agenthooks/emitter.go:1346-1379 | with a redactor that leaves the live context alone and shows none of it, the only edits are the transforms that took effect, own or resolved |
| FirstDenyContext.EvaluateOnlyIsInert | sdk/go/agenthooks/emitter.go:1390-1393 | in evaluate_only no slot changes the context and nothing is resolved |
| FirstDenyContext.SeamIsolationIff | sdk/go/agenthooks/emitter.go:1390-1440 | a consultation leaves the live context alone, whatever the resolver does in its turn, if and only if the redactor did not write to it and the resolver can reach no node of it, shown or kept |
| Scenes.RedactorWrites | sdk/go/agenthooks/emitter.go:1406-1423 | a redactor that scrubs in place and hands back a context of its own changes the live context |
| Scenes.KeptArgumentWrites | sdk/go/agenthooks/emitter.go:1406-1436 | one object as redactor and resolver that keeps its argument changes the live context, showing none of it |
| FirstDenyContext.StopIsCutResume | sdk/go/agenthooks/emitter.go:1160-1194 | `stop` is a prefix of `resume`, cut at the first permitted resolution |
| FirstDenyContext.KnobOnlyMattersAfterALift | sdk/go/agenthooks/emitter.go:1160-1194 | without a permitted resolution both knobs give the same outcome and context |
| FirstDenyRecord.RecordedSlots | sdk/go/agenthooks/emitter.go:1495-1518 | summaries list exactly the invoked slots by index and name; `fold_truncated` holds exactly when a registration did not run |
| FirstDenyRecord.RecordedConsultation | sdk/go/agenthooks/emitter.go:1131-1161 | `resolved_by` is absent if and only if the seam was never asked, and otherwise tells what the last slot that asked got |
| FirstDenyRecord.RecordedAttribution | sdk/go/agenthooks/emitter.go:1106-1223 | `decided_by` is the ending slot, the last slot whose transform applied, or absent exactly for plain permits and verdicts the host supplied from seam or fold |
| FirstDenyRecord.LastTransformIs | sdk/go/agenthooks/emitter.go:1190-1216 | the attributed transform is the last one that took effect |
| FirstDenyRecord.UnionLaw | sdk/go/agenthooks/emitter.go:1142-1158 | warnings and labels of the combined verdict on every exit, with the failed folds and the rejecting resolver's own warnings as the exceptions |
| FirstDenyRecord.HostWarningIffSubstituted | sdk/go/agenthooks/emitter.go:1095-1224 | under the draft and first_deny `host_warning:control_failed` is on the combined verdict if and only if some slot was substituted and the run did not end at a failed fold; no other reserved warning is ever there |
| RunAllRecord.SequentialCarriesIff | sdk/go/agenthooks/emitter.go:1230-1341 | the same under run_all: a substituted slot, no failed fold, and no failed aggregation, winner's transform or lifted transform |
| RunAllRecord.ParallelCarriesIff | sdk/go/agenthooks/emitter.go:1259-1341 | the same in the parallel profiles |
| RunAllRecord.FinishUnionLaw | sdk/go/agenthooks/emitter.go:1274-1341 | warnings and labels of what is returned after the slots: the union with the lift after an approval, the union or the rejection's own warnings after a rejection, none after a failure |
| RunAllRecord.SequentialUnionLaw | sdk/go/agenthooks/emitter.go:1230-1341 | the unions of a run_all emission; a failed fold drops metadata and attribution |
| RunAllRecord.ParallelUnionLaw | sdk/go/agenthooks/emitter.go:1259-1341 | the unions of a parallel emission |
| RunAllRecord.FinishAttribution | sdk/go/agenthooks/emitter.go:1296-1341 | `decided_by` after the slots: absent after a failed aggregation or winner's transform and for a verdict the host supplied at the seam, else whoever the core named |
| RunAllRecord.SummariesList | sdk/go/agenthooks/emitter.go:1495-1518 | every run-everything emission lists its slots by index, name, decision, reason and substitution, however it ends |
| RunAllRecord.AggregationFailure | sdk/go/agenthooks/emitter.go:1286-1294 | a core that does not aggregate denies with its reason or as an invalid verdict |
| Scenes.WarningLost | sdk/go/agenthooks/emitter.go:1195-1205 | a substituted slot followed by a refused transform: the warning is lost |
| Scenes.WarningLostToAggregation | sdk/go/agenthooks/emitter.go:1286-1289 | a substituted slot and a refused aggregation: the warning is lost without any transform |
| FirstDenyRecord.NoticesAreAccounted | sdk/go/agenthooks/emitter.go:910-916 | the notices accepted are, in order, exactly those of the slots the record marks as substituted |
| FirstDenyRecord.PoolHolds | sdk/go/agenthooks/emitter.go:1113-1176 | the pool holds every invoked slot's verdict and every resolution that lifted |
| Notices.SlotNotice | sdk/go/agenthooks/emitter.go:1036-1086 | a slot is marked exactly when its notice was accepted, and then comes from a `continue` registration and a covered failure |
| Notices.ContinuesIff | sdk/go/agenthooks/emitter.go:921-1073 | a slot continues exactly when its registration asks for it, the notifier accepts, and the failure is a refused return, a timeout, a managed failure other than a cancellation, or an error raised without cancellation by the caller |
| Scenes.ContinuesUnderCancellation | sdk/go/agenthooks/emitter.go:961-1028 | under cancellation by the caller a refused return and a managed panic continue |
| Unions.UnionsAreFirstSeen | sdk/go/agenthooks/emitter.go:1522-1565 | both unions list what the pool carries once each, in the order first seen |
| Unions.UnionHolds | sdk/go/agenthooks/emitter.go:1522-1565 | membership in both unions, labels from permits only |
| RunAllLaws.FinishLaw | sdk/go/agenthooks/emitter.go:1274-1341 | in every profile: a permit after the slots if and only if the winner carries the action (its own transform applied, an approval of the winner with its transform applied, or a permit as it stands), the exact context left, and when the seam is recorded |
| RunAllLaws.RunAllPermitsIff | sdk/go/agenthooks/emitter.go:1230-1253 | run_all permits if and only if all ran, no transform failed, and the aggregate carries the action from the folded context |
| RunAllLaws.ParallelPermitsIff | sdk/go/agenthooks/emitter.go:1259-1341 | the parallel profiles permit if and only if the aggregate carries the action from the starting context |
| RunAllLaws.RunAllFailsClosed | sdk/go/agenthooks/emitter.go:1226-1253 | a permit means all ran, each slot allowed, folded or was liftable, and a liftable deny was lifted by an approval of the winner bound to the folded context, its transform applied |
| RunAllLaws.ParallelFailsClosed | sdk/go/agenthooks/emitter.go:1259-1341 | a permit means no plain deny under strictest and only allows under unanimous, or else an approval of the winner lifts |
| RunAllLaws.CarriedVerdicts | sdk/go/agenthooks/emitter.go:1226-1229 | what a carried aggregate says about the verdicts that went in |
| RunAllLaws.FoldIsReplay | sdk/go/agenthooks/emitter.go:1230-1253 | each slot sees the starting context with exactly the earlier transforms applied |
| RunAllLaws.SequentialContext | sdk/go/agenthooks/emitter.go:1230-1341 | the final context of run_all: the fold replayed, then the winner's transform, or what the seam left and the transform approved for the winner, and nothing else |
| RunAllLaws.ParallelContext | sdk/go/agenthooks/emitter.go:1259-1341 | the final context of the parallel profiles: the starting one, moved the same way |
| RunAllLaws.TruncationIsToldIff | sdk/go/agenthooks/emitter.go:1230-1253 | under run_all `fold_truncated` is true of the registrations that ran exactly when none before the last breaks the fold |
| Scenes.TruncationUntold | sdk/go/agenthooks/emitter.go:1240-1247 | two registrations, the first with a refused transform: the second does not run and the outcome does not say so |
| RunAllLaws.Lockstep | sdk/go/agenthooks/emitter.go:1095-1253 | the two sequential profiles run the same slots on the same contexts up to the first deny or failed fold |
| RunAllLaws.ProfilesAgreeOnPermits | sdk/go/agenthooks/emitter.go:1095-1253 | first_deny permits without asking the seam if and only if run_all collects only permits, and then slots and contexts coincide |
| RunAllLaws.NoticesAreAccounted | sdk/go/agenthooks/emitter.go:1230-1268 | notices and marked slots agree in the run-everything profiles |
| SnapshotDispatch.AgreesIff | sdk/typescript/src/emitter.ts:1321-1412 | from the same slots the TypeScript and Go parallel dispatches give the same outcome up to message text and the same context, if and only if aggregation succeeds and no consultation of the winner parts the seams |
| SnapshotDispatch.SeamsAgreeIff | sdk/typescript/src/emitter.ts:1467-1547 | the two seams judge alike unless a resolution has an unknown outcome and a good verdict, or a custom provider fails with a code of its own |
| SlotAgreement.SlotsAgreeIff | sdk/typescript/src/emitter.ts:1024-1149 | from portable contexts the two emitters settle a slot alike up to message text, if and only if no managed outcome is of unknown type and no error raised under cancellation is continued |
| Scenes.SummariesPart | sdk/typescript/src/emitter.ts:1353-1359 | a refused aggregation over an allow: one summary in Go, none in TypeScript |
| Emission.EmissionPermitsIff | sdk/go/agenthooks/emitter.go:650-731 | in every profile an emission permits if and only if the envelope is valid and of the emitter's version, an identity can be computed, a registration is bound at the point, and the action passed |
| Emission.DispatchPermitsIff | sdk/go/agenthooks/emitter.go:853-880 | dispatch permits if and only if there is a registration and the action passed under the profile |
| EmissionLaws.KnobLaw | sdk/go/agenthooks/emitter.go:1095-1224 | read off `on_approval`: under `resume` the next registration runs after every permitted resolution; otherwise none runs after one, and it is the combined verdict, attributed to its slot |
| EmissionLaws.RecordTells | sdk/go/agenthooks/emitter.go:686-731 | the record carries the input identity from before dispatch (absent when envelope, version or identity failed), the enforced identity of what was left, the provider's name, the registration count, and the outcome of dispatch |
| EmissionLaws.ActiveIs | sdk/go/agenthooks/emitter.go:148-154 | the active registrations are those that name the point, name none, or meet a point that is not one of the eight, each once and in order |
| EmissionLaws.RefusalReasons | sdk/go/agenthooks/emitter.go:650-684 | why an emission is denied before anything runs, reason by reason |
| Emission.ProceedsOnlyIfPassed | sdk/go/agenthooks/types.go:645-648 | in enforce mode a record that proceeds implies all of that, end to end |
| Emission.EvaluateOnlyChangesNothing | sdk/go/agenthooks/emitter.go:853-880 | no profile changes the context or resolves an approval in evaluate_only |
| ApprovalOrder.FollowsTheOrderIff | spec/draft/AGENT-HOOKS-DRAFT.md:1513-1525 | the emitter substitutes the reason the validation order names, unless the resolution echoes the identity and is malformed |
| ApprovalOrder.LiftsOnlyWhatStands | sdk/go/agenthooks/emitter.go:1440-1480 | it lifts exactly the approvals the order lets stand |
| ApprovalOrder.ApprovalWithoutVerdict | sdk/go/agenthooks/emitter.go:1440-1480 | a concrete resolution on which code and order part |
| Lifecycle.RunsKeepConfiguration | sdk/go/agenthooks/emitter.go:334-579 | every run of registrations, setters, deliveries and drains keeps: a continuing registration has a channel, point sets are non-empty and repeat-free; a sealed emitter's declared configuration never changes |
| Lifecycle.ContinueReachesTheNotifier | sdk/go/agenthooks/emitter.go:1067-1070 | under that invariant the branch for a missing notifier is dead |
| Lifecycle.RunsKeepRecords | sdk/go/agenthooks/emitter.go:429-450 | in every run delivered = dropped + drained + buffered and the buffer is a suffix of what was delivered |
| Lifecycle.DeliveryIsBounded | sdk/go/agenthooks/emitter.go:831-849 | after a delivery a positive bound holds and the newest record is last |
| Lifecycle.DedupeIs | sdk/go/agenthooks/emitter.go:492-517 | a point set keeps its members, each once |
| Lifecycle.PushAcceptsIff | sdk/go/agenthooks/emitter.go:558-579 | when a registration with options is accepted, and exactly what is then appended |
| Lifecycle.ProviderAcceptsIff | sdk/go/agenthooks/emitter.go:356-376 | which identity providers are accepted and what is then declared |
| Lifecycle.SettersSet | sdk/go/agenthooks/emitter.go:307-466 | the defaults, and what each remaining setter sets or refuses |
| HostRegistries.HostRegistry.CheckKind | sdk/go/agenthooks/declaration.go:572-590 | a kind is admitted if and only if it fits the grammar, its segment is free, its name is new and it has a resolver |
| HostRegistries.HostRegistry.KindNames | sdk/go/agenthooks/declaration.go:665-683 | the names handed to the loader are each registered kind once, in order |
| HostRegistries.ManagedIffRegistered | sdk/go/agenthooks/declaration.go:1383-1443 | a built binding runs as managed exactly when its kind was registered so; a custom provider is never the built-in one |
| HostRegistries.BuildsOverRegistryIff | sdk/go/agenthooks/declaration.go:1338-1443 | a document builds exactly over a registry that holds what it refers to |
| HostRegistries.KindIsNoReference | sdk/go/agenthooks/declaration.go:522-549 | kinds and reference names never collide |
| HostRegistries.ValidKindIff | sdk/go/agenthooks/declaration.go:522-549 | the kind grammar: two or more words joined by dots, 128 characters at most |
| HostRegistries.ReservedIff | sdk/go/agenthooks/declaration.go:531-580 | the reserved first words |
| HostRegistries.SegmentsOfJoined | sdk/go/agenthooks/declaration.go:535-549 | splitting at dots undoes joining with them |
| HostRegistries.InsertAscends | sdk/go/agenthooks/declaration.go:676-683 | sorting keeps ordinal order |
| Construction.EmitterFromResolved | sdk/go/agenthooks/declaration.go:1338-1480 | construction succeeds if and only if every reference resolves and every binding is accepted; the emitter is then sealed and is exactly the document; otherwise the first failure is reported |
| Construction.BuildsIff | sdk/go/agenthooks/declaration.go:1338-1443 | construction goes through exactly when resolver, provider and redactor are registered and each binding has a registered kind, a channel when it continues, and an interceptor |
| Construction.RefusalTells | sdk/go/agenthooks/declaration.go:1338-1443 | what each refusal tells of the document and the registry, first failure first |
| Construction.DeclaredBoundHolds | sdk/go/agenthooks/declaration.go:1470-1478 | a declared bound of at least one is never lost to wrap-around and holds after every delivery of every run |
| Construction.BuiltEmittersStayDeclared | sdk/go/agenthooks/emitter.go:334-370 | no run of operations changes what a built emitter declares |
| Construction.BuiltBindings | sdk/go/agenthooks/declaration.go:1380-1443 | a built registration answers at exactly the points its binding names, or at all when it names none, under its id and posture |
| Construction.BuiltBound | sdk/go/agenthooks/declaration.go:1470-1478 | the record bound is the declared one, at most the largest platform integer, none when none is declared |
| Construction.BuiltProvider | sdk/go/agenthooks/declaration.go:1353-1368 | the identity provider is the declared one |
| Declaration.BuilderFromValue | sdk/go/conformance/declaration.go:273-319 | for every order of members the builder ends with the document the round-trip laws are about |
| Declaration.RoundTripIff | sdk/go/agenthooks/declaration.go:1005-1014 | the rebuilt document as handed out is the original if and only if no block has an empty version, an empty typed object or a null knob, and every number is read back as it was |
| Declaration.BuilderComesBackIff | sdk/go/conformance/declaration.go:273-342 | what the builder holds is the original if and only if no block is lossy |
| Declaration.LargeIntegerIsLost | sdk/go/agenthooks/declaration.go:1272-1283 | an extension with 2^53 + 1 comes back rounded |
| Declaration.RebuildSettles | sdk/go/conformance/declaration.go:273-319 | rebuilding twice is rebuilding once |
| Declaration.EmptyVersionIsLost | sdk/go/conformance/declaration.go:321-342 | a concrete host block that does not come back |
| Declaration.NullKnobIsLost | sdk/go/conformance/declaration.go:575-598 | a concrete profile that does not come back |
| Declaration.DeclarationBuilder.TypedConfigurationBlock | sdk/go/conformance/declaration.go:365-489 | all or nothing: either every member goes through a setter or the builder is untouched |
| Declaration.DeclarationBuilder.TypedSurfaceBlock | sdk/go/conformance/declaration.go:534-610 | all or nothing for the surface, output members first |
| Declaration.DeclarationBuilder.TypedBindingsBlock | sdk/go/conformance/declaration.go:623-689 | all or nothing for bindings, each rebuilt exactly and in order |
| Declaration.DeclarationBuilder.TypedHostBlock | sdk/go/conformance/declaration.go:321-342 | all or nothing for the host, an empty version left out |
| Declaration.CollectConfiguration | sdk/go/conformance/declaration.go:365-489 | the collected setters write the configuration back in any member order, or nothing is collected |
| Declaration.CollectSurface | sdk/go/conformance/declaration.go:534-610 | the collected setters write the surface back in any member order, or nothing is collected |
| Declaration.ReadKnobs | sdk/go/conformance/declaration.go:575-598 | which knobs the typed form holds, and what it writes for them |
| Declaration.ReadBinding | sdk/go/conformance/declaration.go:635-686 | a binding read in any member order is the one its `Bind` call appends |
| Declaration.ConfigCommutes | sdk/go/agenthooks/declaration.go:1219-1233 | a config and the refinements of a binding commute |
| Session.ReferenceHarness.Run | sdk/go/conformance/reference.go:283-390 | every run without an infrastructure error has a lawful trace: order of points, consecutive numbers, conversation shown to the model, input, tool answers and output presented as scenario, tools and responses give them, tool log, outcome, final output and one final shutdown |
| Session.ReferenceHarness.RunScript | sdk/go/conformance/reference.go:296-356 | the script is taken response by response until one without tool calls, or until a block outside the tool seam |
| Session.ReferenceHarness.DoToolCall | sdk/go/conformance/reference.go:392-423 | a tool runs exactly when its pre_tool_call proceeded, with the object args its context then holds or else the model's; its own answer is presented at post_tool_call and told to the model |
| Session.InvokeTool | sdk/go/conformance/reference.go:427-444 | the first tool of that name answers by its first matching clause, or nobody does |
| Session.MessagesAre | sdk/go/conformance/reference.go:303-340 | what each emission adds to the conversation, message by message |
| Session.SliceIs | sdk/go/conformance/reference.go:453-462 | the messages read back are the objects of the context's list, in order |
| Session.OpensAndCloses | sdk/go/conformance/reference.go:283-390 | a session opens with startup and input and its only shutdown is last |
| Session.BlockCutsToShutdown | sdk/go/conformance/reference.go:357-375 | after a block outside the tool seam only the shutdown follows |
| Session.ToolSeamPairs | sdk/go/conformance/reference.go:322-335 | a post_tool_call follows exactly the pre_tool_calls that proceeded |
| Session.ModelAndOutputOrder | sdk/go/conformance/reference.go:306-354 | a response follows exactly the model calls that proceeded; output comes only after a response without tool calls and right before shutdown |
| Session.FinalOutputWasEmitted | sdk/go/conformance/reference.go:346-365 | a final output that is not null means the session completed and an output emission proceeded with it |
| Session.LogMatchesCalls | sdk/go/conformance/reference.go:412-416 | the log is exactly the presented calls whose pre_tool_call proceeded, in order, each with its effective arguments |
| Session.PrefixesAreOpen | sdk/go/conformance/reference.go:283-390 | nothing follows a shutdown and a wrong order is never recovered from |
| Timeouts.OutcomeIsEarned | sdk/go/agenthooks/emitter.go:259-287 | each outcome has its cause: the callee's own reply, a fired limit, or a cancelled parent |
| Timeouts.FinishIsDelivered | sdk/go/agenthooks/emitter.go:245-287 | a return, an error or a recovered panic is what a waiting call gets |
| Timeouts.OutcomeIsFinal | sdk/go/agenthooks/emitter.go:256-287 | a call has one outcome; a late reply changes nothing |
| Timeouts.SendNeverBlocks | sdk/go/agenthooks/emitter.go:268-275 | the callee's one send is always possible, whatever became of the caller |
| Timeouts.CancellationNeverContinues | sdk/go/agenthooks/emitter.go:936-953 | once the parent is cancelled before the call ended there is no timeout, and an error raised or reported by the race may not continue; the gate on a returned value is outside the race |
| Timeouts.JudgedIff | sdk/go/agenthooks/emitter.go:936-953 | a judged failure may continue exactly when it timed out or the parent was not cancelled as it was judged |
| Timeouts.SignalsEndTheWait | sdk/go/agenthooks/emitter.go:276-286 | a fired limit lets a waiting call time out, a cancelled parent lets it be cancelled |
| Timeouts.NeverStuck | sdk/go/agenthooks/emitter.go:276-286 | only a callee that runs on, with no signal, can keep the caller waiting |
| Timeouts.TimeoutMeansAliveAtTheCheck | sdk/go/agenthooks/emitter.go:279-285 | only a check that finds the parent alive reports a timeout |
| Timeouts.LateValueWinsIff | sdk/go/agenthooks/emitter.go:256-287 | after the limit fired a value still to come can be returned if and only if the caller has not yet looked at the signal |
| Timeouts.LateValueMayWin | sdk/go/agenthooks/emitter.go:276-286 | such a state is reached: the limit fires while the callee runs on |
| LateValues.LateValueIsDropped | sdk/dotnet/src/AgentHooks/InterceptionEmitter.cs:415-440 | a value completed after the limit fired is returned only if the host cancelled as well |
| LateValues.LateValueTimesOut | sdk/dotnet/src/AgentHooks/InterceptionEmitter.cs:424-431 | a late value found by the wait is taken for a timeout |
| LateValues.ValueInTime | sdk/dotnet/src/AgentHooks/InterceptionEmitter.cs:424-432 | a value in time is returned |
| LateValues.CancellationIsReported | sdk/dotnet/src/AgentHooks/InterceptionEmitter.cs:424-439 | a host cancellation the task honours is reported as one |
| LateValues.OutcomeIsEarned | sdk/dotnet/src/AgentHooks/InterceptionEmitter.cs:415-440 | timeouts need a fired limit or a passed delay, errors a task that raised one |
| LateValues.CancelledTimesOutIff | sdk/dotnet/src/AgentHooks/InterceptionEmitter.cs:415-440 | after a host cancellation a timeout is reported exactly when the delay ended the wait |
| LateValues.CancellationMayTimeOut | sdk/dotnet/src/AgentHooks/InterceptionEmitter.cs:422-423 | a concrete race in which a cancelled call times out |
| Wire.VerdictRoundTrip | sdk/dotnet/src/AgentHooks/Types.cs:482-549 | a printed verdict parses back with empty lists absent; liftability survives, an empty approval block included |
| Wire.VerdictComesBackIff | sdk/dotnet/src/AgentHooks/Types.cs:482-549 | it comes back whole if and only if no list and no pointer set is empty |
| Wire.EmitterVerdictsComeBack | sdk/dotnet/src/AgentHooks/Types.cs:482-549 | every verdict of the emitter's model with a closed decision comes back whole and as liftable as it was |
| Wire.CompositionRoundTrip | sdk/dotnet/src/AgentHooks/Types.cs:338-359 | a composition comes back whole |
| Wire.SummaryRoundTrip | sdk/dotnet/src/AgentHooks/Types.cs:616-634 | a summary comes back whole |
| Wire.RecordRoundTrip | sdk/dotnet/src/AgentHooks/InterceptionEmitter.cs:1412-1434 | a printed record parses back, its verdict with empty lists absent |
| Surfaces.SurfaceRoundTrip | sdk/dotnet/src/AgentHooks/Declaration.cs:404-445 | a host surface comes back whole from its sorted form |
| Surfaces.KnobsRoundTrip | sdk/dotnet/src/AgentHooks/Declaration.cs:280-296 | knob support comes back whole, empty sets by their absence |
| Surfaces.OneSortedForm | sdk/dotnet/src/AgentHooks/Declaration.cs:292-293 | a set of names has one printed order |
| Grammar.RebaseNode | scripts/vectors-for-bundle.py:109-141 | the walk succeeds exactly when no choice runs out of branches and no other reference is unpublished, and computes the moved tree |
| Grammar.GrammarFor | scripts/vectors-for-bundle.py:91-145 | the grammar of a bundle: unchanged for the draft; else refused exactly when blocked, and otherwise clean of the draft's base and, moved back, the committed one without its unsound branches |
| Grammar.RefusedIff | scripts/vectors-for-bundle.py:109-141 | refused exactly when a node outside a choice refers to an unpublished schema or a choice has only such branches |
| Grammar.BranchStaysIff | scripts/vectors-for-bundle.py:118-128 | a branch stays exactly when its own reference is not under the old base or names a published schema, and order is kept |
| Grammar.PublishedMovesWhole | scripts/vectors-for-bundle.py:109-141 | a tree whose references are all published moves whole and moves back to itself |
| Grammar.BeforeHashIs | scripts/vectors-for-bundle.py:102-107 | the path a reference names is what precedes its first `#` |
| Grammar.NothingRemains | scripts/vectors-for-bundle.py:109-141 | no id and no reference is left under the old base |
| Grammar.MoveBack | scripts/vectors-for-bundle.py:109-141 | moving back gives the original without its unpublished branches: nothing else was changed or dropped |
| Grammar.ReferencesFollow | scripts/vectors-for-bundle.py:129-136 | every moved reference names a published schema and keeps its fragment |
| Grammar.ChoicesKeepABranch | scripts/vectors-for-bundle.py:114-128 | no choice is left without a branch |
| Grammar.UnchangedIff | scripts/vectors-for-bundle.py:109-141 | exactly the trees without an address under the old base are unchanged |
| Grammar.SecondMoveIsIdentity | scripts/vectors-for-bundle.py:109-144 | a second run goes through and changes nothing |
| Grammar.DraftIsApart | scripts/vectors-for-bundle.py:45-47 | the draft's base and a bundle's never contain each other |

## Left out

- The Rust core: canonical JSON, hashing, transform paths, aggregation, finalizing and the loader's steps 2 to 10 are
  opaque functions under the contracts above; its sources are not part of this model.
- Message texts beyond the reason, wall-clock time, file access, and JSON text beyond how its numbers are read back.
- A context or verdict that cannot be encoded as JSON: values are JSON values here, so of these branches only a copy whose numbers cannot be read back is modelled. What a fold or the gate makes of numbers is inside `applyTransform` and `validateVerdict`.
- What a callee that outlives its limit does later; the limit itself enters `Slots` as the callee's typed ending, and the durations of the bounds are not modelled.
- The record sink and `RecordHostFailure`.
- Locks: `Lifecycle` interleaves whole operations, as the mutex makes them.
- FirstDenyContext.ContextIsReplay: redactors and resolvers write to the live context in their own turns only; one that keeps it and writes while a later slot is called, or between emissions, is not modelled, and nor is an interceptor's copy that a resolver links into the live context.
- SnapshotDispatch.AgreesIff: starts from the same settled slots (`SlotAgreement.SlotsAgreeIff` says when they are the same up to message text, which a core could still tell apart); the TypeScript fold is taken to be Go's.
- A custom identity provider that writes to the context it is given, or answers differently for the same context: the specification asks for a pure function.
- The precise messages of host denies; two denies with the same reason count as the same between the SDKs.
- The scripted session's startup lists tool names in sorted order; the model does not carry that list.
- The text form of an assistant message whose content is not a string: it is kept as the value.
- The identities, records and host messages a session returns beside its outcome.
- Grammar.RebaseNode: rewrites values into a new tree; the script updates one tree in place, and since a parsed document has no shared nodes the result is the same. Which error is reported first is not modelled.
- Declaration.BuilderFromValue: the builder's document is a field reassigned whole rather than nested maps updated in place.
- HostRegistries.HostRegistry.CheckKind: the registry holds the registered names; what a resolver does with a binding's config is the host's code.
- Surfaces.SurfaceRoundTrip: a null inside a printed list of names is refused by the model's parser and read as a null name by the code; printing never writes one.
- The .NET and TypeScript emitters beyond the parts named above; their dispatch follows the same sections.
- Wire forms of notices, managed outcomes and hosted responses, which are smaller copies of the same pattern.
