/** One call under a time limit, as the steps of its four parties: the callee's goroutine,
    the timer, the parent's cancellation and the caller that waits for the first of them. */
module Timeouts {
  import opened Json

  /** How the callee ends by itself. */
  datatype Finish<V> = Returns(v: V) | Raises(error: string) | Panics(kind: string)

  /** A panic is recovered and sent as an error naming only the type of its value. */
  function Recovered<V>(f: Finish<V>): Result<V, string> {
    match f
    case Returns(v) => Success(v)
    case Raises(e) => Failure(e)
    case Panics(kind) => Failure("callee panicked: " + kind)
  }

  datatype Callee<V> = Running | Finished(reply: Result<V, string>) | Sent(reply: Result<V, string>)

  datatype Outcome<V> = Value(v: V) | Error(detail: string) | Cancelled | TimedOut

  /** The caller waits, looks at its parent after the limit's signal, ends, and then
      judges a failed outcome. */
  datatype Caller<V> =
    | Waiting
    | Checking
    | Ended(outcome: Outcome<V>)
    | Judged(outcome: Outcome<V>, continuable: bool)

  /** `limited` is false when no limit is set; then nothing but the reply is awaited. */
  datatype State<V> = State(
    limited: bool,
    callee: Callee<V>,
    buffer: seq<Result<V, string>>,
    deadline: bool,
    parent: bool,
    propagated: bool,
    caller: Caller<V>)

  const CAPACITY := 1

  datatype Step<V> =
    | CalleeFinishes(f: Finish<V>)
    | CalleeSends
    | TimerFires
    | ParentCancels
    | CancelPropagates
    | CallerTakesReply
    | CallerSeesLimit
    | CallerChecksParent
    | CallerJudges

  function Initial<V>(limited: bool): State<V> {
    State(limited, Running, [], false, false, false, Waiting)
  }

  ghost predicate Enabled<V>(s: State<V>, a: Step<V>) {
    match a
    case CalleeFinishes(_) => s.callee.Running?
    case CalleeSends => s.callee.Finished? && |s.buffer| < CAPACITY
    case TimerFires => s.limited
    case ParentCancels => true
    case CancelPropagates => s.limited && s.parent
    case CallerTakesReply => s.caller.Waiting? && s.buffer != []
    case CallerSeesLimit => s.limited && s.caller.Waiting? && (s.deadline || s.propagated)
    case CallerChecksParent => s.caller.Checking?
    case CallerJudges => s.caller.Ended?
  }

  function OutcomeOf<V>(reply: Result<V, string>): Outcome<V> {
    match reply
    case Success(v) => Value(v)
    case Failure(e) => Error(e)
  }

  function Next<V>(s: State<V>, a: Step<V>): State<V>
    requires Enabled(s, a)
  {
    match a
    case CalleeFinishes(f) => s.(callee := Finished(Recovered(f)))
    case CalleeSends => s.(callee := Sent(s.callee.reply), buffer := s.buffer + [s.callee.reply])
    case TimerFires => s.(deadline := true)
    case ParentCancels => s.(parent := true)
    case CancelPropagates => s.(propagated := true)
    case CallerTakesReply => s.(caller := Ended(OutcomeOf(s.buffer[0])), buffer := s.buffer[1..])
    case CallerSeesLimit => s.(caller := Checking)
    case CallerChecksParent => s.(caller := Ended(if s.parent then Cancelled else TimedOut))
    case CallerJudges => s.(caller := Judged(s.caller.outcome, s.caller.outcome.TimedOut? || !s.parent))
  }

  ghost predicate Runs<V>(s: State<V>, steps: seq<Step<V>>, t: State<V>)
    decreases |steps|
  {
    if steps == [] then s == t
    else Enabled(s, steps[0]) && Runs(Next(s, steps[0]), steps[1..], t)
  }

  ghost predicate HasEnded<V>(s: State<V>) { s.caller.Ended? || s.caller.Judged? }

  ghost predicate Inv<V>(s: State<V>) {
    && (s.buffer == [] || (s.callee.Sent? && s.buffer == [s.callee.reply] && !(HasEnded(s) && !WithoutReply(s.caller.outcome))))
    && (s.callee.Sent? && s.buffer == [] ==> HasEnded(s) && s.caller.outcome == OutcomeOf(s.callee.reply))
    && (s.propagated ==> s.parent)
    && (s.deadline || s.propagated || s.caller.Checking? ==> s.limited)
    && (s.caller.Checking? ==> s.deadline || s.parent)
    && (HasEnded(s) ==>
          match s.caller.outcome
          case TimedOut => s.deadline && s.limited
          case Cancelled => s.parent && s.limited
          case _ => s.callee.Sent? && s.caller.outcome == OutcomeOf(s.callee.reply))
  }

  ghost predicate WithoutReply<V>(o: Outcome<V>) { o.TimedOut? || o.Cancelled? }

  lemma NextKeepsInv<V>(s: State<V>, a: Step<V>)
    requires Inv(s) && Enabled(s, a)
    ensures Inv(Next(s, a))
  {
  }

  lemma {:induction false} RunsKeepInv<V>(s: State<V>, steps: seq<Step<V>>, t: State<V>)
    requires Inv(s) && Runs(s, steps, t)
    ensures Inv(t)
    decreases |steps|
  {
    if steps != [] {
      NextKeepsInv(s, steps[0]);
      RunsKeepInv(Next(s, steps[0]), steps[1..], t);
    }
  }

  /** The callee's one send never blocks, whatever became of the caller. */
  lemma SendNeverBlocks<V>(limited: bool, steps: seq<Step<V>>, t: State<V>)
    requires Runs(Initial(limited), steps, t) && t.callee.Finished?
    ensures Enabled(t, CalleeSends)
  {
    RunsKeepInv(Initial(limited), steps, t);
  }

  /** A value or an error is the callee's own; a timeout needs a limit that fired and a
      cancellation needs a cancelled parent. */
  lemma OutcomeIsEarned<V>(limited: bool, steps: seq<Step<V>>, t: State<V>)
    requires Runs(Initial(limited), steps, t) && HasEnded(t)
    ensures match t.caller.outcome
      case Value(v) => t.callee == Sent(Success(v))
      case Error(e) => t.callee == Sent(Failure(e))
      case Cancelled => limited && t.parent
      case TimedOut => limited && t.deadline
  {
    RunsKeepInv(Initial(limited), steps, t);
    LimitIsFixed(Initial(limited), steps, t);
  }

  lemma {:induction false} LimitIsFixed<V>(s: State<V>, steps: seq<Step<V>>, t: State<V>)
    requires Runs(s, steps, t)
    ensures s.limited == t.limited
    decreases |steps|
  {
    if steps != [] {
      LimitIsFixed(Next(s, steps[0]), steps[1..], t);
    }
  }

  /** A call has one outcome: nothing that happens after it ended changes it, a reply that
      arrives later included. */
  lemma {:induction false} OutcomeIsFinal<V>(s: State<V>, steps: seq<Step<V>>, t: State<V>)
    requires Runs(s, steps, t) && HasEnded(s)
    ensures HasEnded(t) && t.caller.outcome == s.caller.outcome
    ensures s.caller.Judged? ==> t.caller == s.caller
    decreases |steps|
  {
    if steps != [] {
      OutcomeIsFinal(Next(s, steps[0]), steps[1..], t);
    }
  }

  /** Only a check that finds the parent alive reports a timeout. */
  lemma TimeoutMeansAliveAtTheCheck<V>(s: State<V>, a: Step<V>)
    requires Enabled(s, a) && !HasEnded(s)
    requires HasEnded(Next(s, a)) && Next(s, a).caller.outcome.TimedOut?
    ensures a.CallerChecksParent? && !s.parent
  {
  }

  /** Once the parent is cancelled before the call ended, the call neither times out nor
      leaves a failure that may continue: it returns the callee's value or fails for good.
      A returned value has the gate still to cross, which is not a step of this race:
      refused there, it may continue (`Notices.ContinuesIff`). */
  lemma {:induction false} CancellationNeverContinues<V>(s: State<V>, steps: seq<Step<V>>, t: State<V>)
    requires Runs(s, steps, t) && s.parent
    requires !HasEnded(s) || (s.caller.Ended? && !s.caller.outcome.TimedOut?)
    ensures t.parent
    ensures HasEnded(t) ==> !t.caller.outcome.TimedOut?
    ensures t.caller.Judged? ==> !t.caller.continuable
    decreases |steps|
  {
    if steps != [] && !Next(s, steps[0]).caller.Judged? {
      CancellationNeverContinues(Next(s, steps[0]), steps[1..], t);
    } else if steps != [] {
      OutcomeIsFinal(Next(s, steps[0]), steps[1..], t);
      ParentStaysCancelled(s, steps, t);
    }
  }

  lemma {:induction false} ParentStaysCancelled<V>(s: State<V>, steps: seq<Step<V>>, t: State<V>)
    requires Runs(s, steps, t) && s.parent
    ensures t.parent
    decreases |steps|
  {
    if steps != [] {
      ParentStaysCancelled(Next(s, steps[0]), steps[1..], t);
    }
  }

  /** The caller is only ever kept waiting by a callee that runs on with no signal from the
      timer or the parent: in every other state some party can move the call forward. */
  lemma NeverStuck<V>(limited: bool, steps: seq<Step<V>>, t: State<V>)
    requires Runs(Initial(limited), steps, t) && !t.caller.Judged?
    ensures
      || Enabled(t, CallerTakesReply) || Enabled(t, CallerSeesLimit)
      || Enabled(t, CallerChecksParent) || Enabled(t, CallerJudges)
      || Enabled(t, CalleeSends)
      || (t.callee.Running? && !(t.limited && (t.deadline || t.propagated)))
  {
    RunsKeepInv(Initial(limited), steps, t);
  }

  /** The callee has not delivered anything but, if it is done, the value `v`. */
  predicate MayYield<V(==)>(s: State<V>, v: V) {
    match s.callee
    case Running => true
    case Finished(reply) => reply == Success(v)
    case Sent(reply) => reply == Success(v) && s.buffer != []
  }

  ghost predicate YieldsValue<V(!new)>(s: State<V>, v: V) {
    exists steps, t: State<V> :: Runs(s, steps, t) && HasEnded(t) && t.caller.outcome == Value(v)
  }

  lemma {:induction false} CheckedNeverYields<V>(s: State<V>, steps: seq<Step<V>>, t: State<V>)
    requires Runs(s, steps, t) && s.caller.Checking?
    ensures HasEnded(t) ==> WithoutReply(t.caller.outcome)
    decreases |steps|
  {
    if steps != [] {
      var u := Next(s, steps[0]);
      if HasEnded(u) {
        OutcomeIsFinal(u, steps[1..], t);
      } else {
        CheckedNeverYields(u, steps[1..], t);
      }
    }
  }

  lemma OneStep<V>(s: State<V>, a: Step<V>, steps: seq<Step<V>>, t: State<V>)
    requires Enabled(s, a) && Runs(Next(s, a), steps, t)
    ensures Runs(s, [a] + steps, t)
  {
    assert ([a] + steps)[1..] == steps;
  }

  lemma TakesReply<V(!new)>(s: State<V>, v: V)
    requires Inv(s) && s.caller.Waiting? && s.callee == Sent(Success(v)) && s.buffer != []
    ensures YieldsValue(s, v)
  {
    var a: Step<V> := CallerTakesReply;
    var t := Next(s, a);
    assert Runs(t, [], t);
    OneStep(s, a, [], t);
  }

  /** A run of the successor is a run. */
  lemma YieldsLater<V(!new)>(s: State<V>, a: Step<V>, v: V)
    requires Enabled(s, a) && YieldsValue(Next(s, a), v)
    ensures YieldsValue(s, v)
  {
    var steps, t: State<V> :| Runs(Next(s, a), steps, t) && HasEnded(t) && t.caller.outcome == Value(v);
    OneStep(s, a, steps, t);
  }

  /** Exactly when a value that comes after the limit fired can still be returned: as long
      as the caller has not yet looked at the limit's signal. The signal alone discards
      nothing; the wait takes whichever it finds. */
  lemma LateValueWinsIff<V(!new)>(s: State<V>, v: V)
    requires Inv(s) && s.limited && s.deadline && MayYield(s, v)
    ensures YieldsValue(s, v) <==> s.caller.Waiting?
  {
    if s.caller.Waiting? {
      match s.callee
      case Running =>
        var finish: Step<V> := CalleeFinishes(Returns(v));
        var done := Next(s, finish);
        TakesReply(Next(done, CalleeSends), v);
        YieldsLater(done, CalleeSends, v);
        YieldsLater(s, finish, v);
      case Finished(_) =>
        TakesReply(Next(s, CalleeSends), v);
        YieldsLater(s, CalleeSends, v);
      case Sent(_) =>
        TakesReply(s, v);
    } else {
      forall steps, t: State<V> | Runs(s, steps, t) && HasEnded(t)
        ensures t.caller.outcome != Value(v)
      {
        if s.caller.Checking? {
          CheckedNeverYields(s, steps, t);
        } else {
          OutcomeIsFinal(s, steps, t);
        }
      }
    }
  }

  /** Such a state is reached: the limit fires while the callee runs on. */
  lemma LateValueMayWin<V(!new)>(v: V)
    ensures
      var s := Next(Initial<V>(true), TimerFires);
      Inv(s) && s.deadline && s.callee.Running? && YieldsValue(s, v)
  {
    LateValueWinsIff(Next(Initial<V>(true), TimerFires), v);
  }

  // ---- what each signal brings about ------------------------------------------------------------

  /** Whether the parent is cancelled at the moment the caller judges. */
  ghost predicate CancelledAtJudgement<V>(s: State<V>, steps: seq<Step<V>>)
    decreases |steps|
  {
    steps != [] && Enabled(s, steps[0])
    && if steps[0].CallerJudges? then s.parent else CancelledAtJudgement(Next(s, steps[0]), steps[1..])
  }

  /** In every run a judged failure may continue exactly when it timed out, or when the
      parent was not cancelled as it was judged. */
  lemma {:induction false} JudgedIff<V>(s: State<V>, steps: seq<Step<V>>, t: State<V>)
    requires Runs(s, steps, t) && !s.caller.Judged? && t.caller.Judged?
    ensures t.caller.continuable <==> t.caller.outcome.TimedOut? || !CancelledAtJudgement(s, steps)
    decreases |steps|
  {
    if steps[0].CallerJudges? {
      OutcomeIsFinal(Next(s, steps[0]), steps[1..], t);
    } else {
      JudgedIff(Next(s, steps[0]), steps[1..], t);
    }
  }

  /** A limit that fires lets a waiting call time out, and a cancelled parent lets it be
      cancelled, whatever the callee does. */
  lemma SignalsEndTheWait<V>(s: State<V>)
    requires s.limited && s.caller.Waiting?
    ensures !s.parent ==> Next(Next(Next(s, TimerFires), CallerSeesLimit), CallerChecksParent).caller == Ended(TimedOut)
    ensures Next(Next(Next(Next(s, ParentCancels), CancelPropagates), CallerSeesLimit), CallerChecksParent).caller == Ended(Cancelled)
  {
  }

  /** How the callee ends is what a waiting call gets, a panic by its type alone. */
  lemma FinishIsDelivered<V>(s: State<V>, f: Finish<V>)
    requires s.callee.Running? && s.caller.Waiting? && s.buffer == []
    ensures
      Next(Next(Next(s, CalleeFinishes(f)), CalleeSends), CallerTakesReply).caller.outcome ==
      match f
      case Returns(v) => Value(v)
      case Raises(e) => Error(e)
      case Panics(kind) => Error("callee panicked: " + kind)
  {
  }
}
