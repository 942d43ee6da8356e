/** The same race where the wait is on tasks: the limit fires a linked token and, apart from
    it, a delay; a value that completed after the limit fired is dropped. */
module LateValues {
  import opened Json

  datatype End<V> = Completed(v: V) | Faulted | Canceled

  datatype Outcome<V> = Value(v: V) | Raised | HostCancelled | TimedOut

  /** The wait; then, unless the task faulted, a read of the linked token and a read of the
      host's, one after the other. */
  datatype Caller<V> =
    | Waiting
    | ReadingLinked(end: End<V>)
    | ReadingHost(end: End<V>)
    | Over(outcome: Outcome<V>)

  /** `late` records that the task ended after the limit had fired. */
  datatype State<V> = State(
    task: Option<End<V>>,
    late: bool,
    limitFired: bool,
    delayed: bool,
    host: bool,
    linked: bool,
    caller: Caller<V>)

  datatype Step<V> =
    | TaskEnds(end: End<V>)
    | LimitFires
    | DelayEnds
    | HostCancels
    | CancelLinks
    | SeesTask
    | SeesDelay
    | ReadsLinked
    | ReadsHost

  function Initial<V>(): State<V> {
    State(None, false, false, false, false, false, Waiting)
  }

  ghost predicate Enabled<V>(s: State<V>, a: Step<V>) {
    match a
    case TaskEnds(_) => s.task.None?
    case CancelLinks => s.host
    case SeesTask => s.caller.Waiting? && s.task.Some?
    case SeesDelay => s.caller.Waiting? && s.delayed
    case ReadsLinked => s.caller.ReadingLinked?
    case ReadsHost => s.caller.ReadingHost?
    case _ => true
  }

  /** What the task's end means when the limit is not to blame. */
  function Plain<V>(end: End<V>): Outcome<V> {
    match end
    case Completed(v) => Value(v)
    case Faulted => Raised
    case Canceled => HostCancelled
  }

  function Next<V>(s: State<V>, a: Step<V>): State<V>
    requires Enabled(s, a)
  {
    match a
    case TaskEnds(end) => s.(task := Some(end), late := s.limitFired)
    case LimitFires => s.(limitFired := true, linked := true)
    case DelayEnds => s.(delayed := true)
    case HostCancels => s.(host := true)
    case CancelLinks => s.(linked := true)
    case SeesTask => s.(caller := if s.task.value.Faulted? then Over(Raised) else ReadingLinked(s.task.value))
    case SeesDelay => s.(caller := Over(TimedOut))
    case ReadsLinked => s.(caller := if s.linked then ReadingHost(s.caller.end) else Over(Plain(s.caller.end)))
    case ReadsHost => s.(caller := Over(if s.host then Plain(s.caller.end) else TimedOut))
  }

  ghost predicate Runs<V>(s: State<V>, steps: seq<Step<V>>, t: State<V>)
    decreases |steps|
  {
    if steps == [] then s == t
    else Enabled(s, steps[0]) && Runs(Next(s, steps[0]), steps[1..], t)
  }

  ghost predicate Inv<V>(s: State<V>) {
    && (s.linked ==> s.limitFired || s.host)
    && (s.limitFired ==> s.linked)
    && (s.late ==> s.limitFired)
    && match s.caller
       case Waiting => true
       case ReadingLinked(end) => s.task == Some(end) && !end.Faulted?
       case ReadingHost(end) => s.task == Some(end) && !end.Faulted? && s.linked
       case Over(Value(v)) => s.task == Some(Completed(v)) && (s.late ==> s.host)
       case Over(Raised) => s.task == Some(Faulted)
       case Over(HostCancelled) => s.task == Some(Canceled) && (s.late ==> s.host)
       case Over(TimedOut) => s.delayed || s.limitFired
  }

  lemma {:induction false} RunsKeepInv<V>(s: State<V>, steps: seq<Step<V>>, t: State<V>)
    requires Inv(s) && Runs(s, steps, t)
    ensures Inv(t)
    decreases |steps|
  {
    if steps != [] {
      RunsKeepInv(Next(s, steps[0]), steps[1..], t);
    }
  }

  /** A value that completed after the limit fired is returned only when the host had
      cancelled as well. */
  lemma LateValueIsDropped<V>(steps: seq<Step<V>>, t: State<V>, v: V)
    requires Runs(Initial(), steps, t) && t.caller == Over(Value(v))
    ensures t.task == Some(Completed(v)) && (t.late ==> t.host)
  {
    RunsKeepInv(Initial(), steps, t);
  }

  /** A timeout is reported only after the limit fired or the delay passed, an error only
      for a task that raised one. */
  lemma OutcomeIsEarned<V>(steps: seq<Step<V>>, t: State<V>)
    requires Runs(Initial(), steps, t) && t.caller.Over?
    ensures t.caller.outcome.TimedOut? ==> t.limitFired || t.delayed
    ensures t.caller.outcome.Raised? ==> t.task == Some(Faulted)
    ensures t.caller.outcome.HostCancelled? ==> t.task == Some(Canceled)
  {
    RunsKeepInv(Initial(), steps, t);
  }

  /** What one call reports once the host has cancelled: a timeout exactly when it was the
      delay that ended the wait. */
  lemma {:induction false} CancelledTimesOutIff<V>(s: State<V>, steps: seq<Step<V>>, t: State<V>)
    requires Inv(s) && Runs(s, steps, t) && s.host && !s.caller.Over? && t.caller.Over?
    ensures t.caller.outcome.TimedOut? <==> EndedByDelay(s, steps)
    decreases |steps|
  {
    var u := Next(s, steps[0]);
    if u.caller.Over? {
      OverIsFinal(u, steps[1..], t);
    } else {
      CancelledTimesOutIff(u, steps[1..], t);
    }
  }

  /** The wait ended on the delay. */
  ghost predicate EndedByDelay<V>(s: State<V>, steps: seq<Step<V>>)
    decreases |steps|
  {
    steps != [] && Enabled(s, steps[0])
    && (steps[0].SeesDelay? || (!Next(s, steps[0]).caller.Over? && EndedByDelay(Next(s, steps[0]), steps[1..])))
  }

  lemma {:induction false} OverIsFinal<V>(s: State<V>, steps: seq<Step<V>>, t: State<V>)
    requires Runs(s, steps, t) && s.caller.Over?
    ensures t.caller == s.caller
    decreases |steps|
  {
    if steps != [] {
      OverIsFinal(Next(s, steps[0]), steps[1..], t);
    }
  }

  /** So a host's cancellation can still be reported as a timeout, by a task that ignores
      the token until the delay passes. */
  lemma CancellationMayTimeOut<V>(s: State<V>)
    requires s == Initial()
    ensures exists steps, t: State<V> :: Runs(s, [HostCancels] + steps, t) && t.caller == Over(TimedOut) && !t.limitFired
  {
    var d := Next(Next(Next(s, HostCancels), DelayEnds), SeesDelay);
    var last: seq<Step<V>> := [SeesDelay];
    var steps := [DelayEnds] + last;
    assert Runs(Next(Next(s, HostCancels), DelayEnds), last, d);
    assert steps[1..] == last;
    assert Runs(Next(s, HostCancels), steps, d);
    assert ([HostCancels] + steps)[1..] == steps;
    assert Runs(s, [HostCancels] + steps, d);
  }

  /** A value that completes after the limit fired is taken for a timeout when the wait finds
      the task, as long as the host has not cancelled. */
  lemma LateValueTimesOut<V>(v: V)
    ensures
      var a := Next(Initial<V>(), LimitFires);
      var b := Next(a, TaskEnds(Completed(v)));
      b.late && b.caller.Waiting? &&
      Next(Next(Next(b, SeesTask), ReadsLinked), ReadsHost).caller == Over(TimedOut)
  {
  }

  /** A value in time is returned. */
  lemma ValueInTime<V>(v: V)
    ensures
      var b := Next(Initial<V>(), TaskEnds(Completed(v)));
      !b.late && Next(Next(b, SeesTask), ReadsLinked).caller == Over(Value(v))
  {
  }

  /** A host's cancellation honoured by the task is reported as one. */
  lemma CancellationIsReported<V>(s: State<V>)
    requires s == Initial()
    ensures
      var cancelled := Next(Next(s, HostCancels), CancelLinks);
      Next(Next(Next(Next(cancelled, TaskEnds(Canceled)), SeesTask), ReadsLinked), ReadsHost).caller == Over(HostCancelled)
  {
  }
}
