/** Stopping a timer, starting it anew and changing its period: a stopped timer stays silent,
    one started anew counts its period from the new start, and one given a new period counts
    that from the moment the change is handled. */
module TimerChanges {
  import opened Lists
  import opened Ticks
  import opened Timers
  import opened TimerTrace

  /** Neither on a list nor in a command: `Dormant`, or the daemon has its last command. */
  ghost predicate Idle(s: State, t: TimerId) {
    t !in s.current && t !in s.overflow && CommandsFor(s.queue, t) == []
  }

  lemma SampleSkips(s: State, t: TimerId)
    requires ListsOk(s) && Idle(s, t)
    ensures Idle(Sample(s), t) && CallsOf(Sample(s).log, t) == CallsOf(s.log, t)
  {
    SampleKeepsApart(s);
    if MustSwitch(s) { SwitchListsMisses(s, t); }
  }

  /** What the handling of a command starts from. */
  lemma SampledForLast(s: State, t: TimerId)
    requires Valid(s) && s.pc.Handling? && s.pc.command.timer == t && CommandsFor(s.queue, t) == []
    ensures var r := Sample(s).(pc := Draining);
            && ListsOk(r) && Dormant(r, t) && CallsOf(r.log, t) == CallsOf(s.log, t)
            && r.m == s.m && r.timers == s.timers && r.now == r.last == s.now
  {
    SampledForCommand(s);
    SampleSkips(s, t);
  }

  // ------------------------------------------------------------------ a new period

  lemma NewPeriodIsPending(s: State, t: TimerId, period: nat)
    requires ListsOk(s) && Dormant(s, t) && t in s.timers && 0 < period < s.m && s.last == s.now
    ensures var r := HandleChangePeriod(s, t, period);
            && r.m == s.m && r.log == s.log && t in r.timers && r.timers[t] == s.timers[t].(period := period)
            && Pending(r, t, s.now + period, period)
  {
    var changed := s.(timers := s.timers[t := s.timers[t].(period := period)]);
    NewPeriodKeepsListsOk(s, t, period);
    NextPlacement(s.now, period, s.now, s.m);
    var place := PlaceFor(WrapAdd(Low(s.now, s.m), period, s.m), Low(s.now, s.m), Low(s.now, s.m), period, s.m);
    ListedIsPending(changed, t, s.now + period, period, place);
  }

  /** A change of period, to an active timer or a dormant one, starts it afresh: from the
      time the daemon handles the change, whatever its old expiry time was. */
  lemma ChangedPeriodStartsAfresh(s: State, t: TimerId, period: nat)
    requires Valid(s) && s.pc == Handling(ChangePeriod(t, period)) && period > 0 && CommandsFor(s.queue, t) == []
    ensures Tracked(Handle(s), Started(t, s.now, |CallsOf(s.log, t)|, s.timers[t].(period := period)))
  {
    HandledChange(s, t, period);
    FreshIsTracked(Handle(s), Started(t, s.now, |CallsOf(s.log, t)|, s.timers[t].(period := period)));
  }

  lemma HandledChange(s: State, t: TimerId, period: nat)
    requires Valid(s) && s.pc == Handling(ChangePeriod(t, period)) && period > 0 && CommandsFor(s.queue, t) == []
    ensures var h := Handle(s);
            && h.m == s.m && CallsOf(h.log, t) == CallsOf(s.log, t)
            && t in h.timers && h.timers[t] == s.timers[t].(period := period)
            && Pending(h, t, s.now + period, period)
  {
    SampledForLast(s, t);
    NewPeriodIsPending(Sample(s).(pc := Draining), t, period);
  }

  lemma FreshIsTracked(s: State, z: Started)
    requires 0 < z.timer.period < s.m && z.t in s.timers && s.timers[z.t] == z.timer && Count(s, z) == 0
    requires Pending(s, z.t, z.c + z.timer.period, z.timer.period)
    ensures Tracked(s, z)
  {
    assert Due(z.c, z.timer.period, 0) == z.c && NextDue(s, z) == z.c + z.timer.period;
  }

  /** What a run from any tracked state shows. */
  ghost predicate Punctual(s: State, z: Started)
    requires s.m > 0 && Valued(s.current, s.value)
  {
    var calls := CallsOf(s.log, z.t);
    && z.skip <= |calls| && NeverEarly(calls, z.skip, z.c, z.timer.period, s.m)
    && (Settled(s, Low(s.last, s.m)) ==> Complete(s, z))
  }

  lemma TrackedIsPunctual(s: State, z: Started)
    requires Valid(s) && Tracked(s, z)
    ensures Punctual(s, z)
  {
    InTimeIsNeverEarly(CallsOf(s.log, z.t), z.skip, z.c, z.timer.period, s.m);
    if Settled(s, Low(s.last, s.m)) { SettledIsComplete(s, z); }
  }

  /** So from then on it is called for s.now + period, s.now + 2 * period, ..., never early,
      and, when the daemon has settled, without a gap. */
  lemma ChangedPeriodIsKept(s: State, t: TimerId, period: nat, z: Started, steps: seq<Step>, s': State)
    requires Valid(s) && s.pc == Handling(ChangePeriod(t, period)) && period > 0 && CommandsFor(s.queue, t) == []
    requires z == Started(t, s.now, |CallsOf(s.log, t)|, s.timers[t].(period := period))
    requires Valid(Handle(s)) && Run(Handle(s), steps, s', z) && !s'.failed
    ensures Valid(s') && Punctual(s', z)
  {
    ChangedPeriodStartsAfresh(s, t, period);
    RunKeepsTracked(Handle(s), steps, s', z);
    TrackedIsPunctual(s', z);
  }

  // ------------------------------------------------------------------ a new start

  lemma FreshIsDormant(s: State, z: Started)
    requires ListsOk(s) && Dormant(s, z.t) && z.t in s.timers && s.timers[z.t] == z.timer && 0 < z.timer.period < s.m
    requires z.skip == |CallsOf(s.log, z.t)|
    ensures History(s, z) && Live(s, z) && NextDue(s, z) == z.c + z.timer.period
  {
    assert Due(z.c, z.timer.period, 0) == z.c;
  }

  /** A start or a reset of a timer, active or dormant, starts it afresh from the time the
      command names, whatever its old expiry time was, when it is handled less than 2^N ticks after that. */
  lemma RestartStartsAfresh(s: State, t: TimerId, c: nat)
    requires Valid(s) && s.pc == Handling(Start(t, Low(c, s.m))) && CommandsFor(s.queue, t) == []
    requires c <= s.now < c + s.m && !Handle(s).failed
    ensures Tracked(Handle(s), Started(t, c, |CallsOf(s.log, t)|, s.timers[t]))
  {
    var r, z := Sample(s).(pc := Draining), Started(t, c, |CallsOf(s.log, t)|, s.timers[t]);
    SampledForLast(s, t);
    FreshIsDormant(r, z);
    assert Handle(s) == HandleStart(r, t, Low(c, s.m));
    HandleStartKeepsTracked(r, z, c);
  }

  /** So from then on it is called for c + p, c + 2p, ... and for no expiry of the old start. */
  lemma RestartIsKept(s: State, t: TimerId, c: nat, z: Started, steps: seq<Step>, s': State)
    requires Valid(s) && s.pc == Handling(Start(t, Low(c, s.m))) && CommandsFor(s.queue, t) == []
    requires c <= s.now < c + s.m && z == Started(t, c, |CallsOf(s.log, t)|, s.timers[t])
    requires Valid(Handle(s)) && !Handle(s).failed && Run(Handle(s), steps, s', z) && !s'.failed
    ensures Valid(s') && Punctual(s', z)
  {
    RestartStartsAfresh(s, t, c);
    RunKeepsTracked(Handle(s), steps, s', z);
    TrackedIsPunctual(s', z);
  }

  // ------------------------------------------------------------------ a stopped timer

  lemma StoppedIsDormant(s: State, t: TimerId)
    requires Valid(s) && s.pc == Handling(Stop(t)) && CommandsFor(s.queue, t) == []
    ensures Valid(Handle(s)) && Dormant(Handle(s), t) && CallsOf(Handle(s).log, t) == CallsOf(s.log, t)
  {
    HandleKeeps(s);
    SampledForLast(s, t);
  }

  ghost predicate Silent(s: State, r: State, t: TimerId) {
    Dormant(r, t) && CallsOf(r.log, t) == CallsOf(s.log, t)
  }

  lemma ReceiveIsSilent(s: State, t: TimerId)
    requires Valid(s) && s.pc.Draining? && Dormant(s, t)
    ensures Silent(s, Receive(s), t)
  {
    if s.queue != [] {
      assert s.queue[0].timer != t;
    }
    ReceiveMissesTimer(s, t);
  }

  lemma HandleIsSilent(s: State, t: TimerId)
    requires Valid(s) && s.pc.Handling? && Dormant(s, t)
    ensures Silent(s, Handle(s), t)
  {
    var r := Sample(s).(pc := Draining);
    SampledForCommand(s);
    SampleSkips(s, t);
    SampleFrame(s);
    HandledMisses(r, s.pc.command, t);
  }

  lemma StepIsSilent(s: State, step: Step, t: TimerId)
    requires Valid(s) && Enabled(s, step) && Quiet(step, t) && Dormant(s, t)
    ensures Silent(s, Next(s, step), t)
  {
    match step
    case Tick =>
    case IssueStart(u, at) => CommandsForAppend(s.queue, Start(u, Low(at, s.m)), t);
    case Issue(c) => CommandsForAppend(s.queue, c, t);
    case PollStep => SampleSkips(s, t);
    case ExpireStep => ExpireMissesTimer(s, t);
    case ReceiveStep => ReceiveIsSilent(s, t);
    case HandleStep => HandleIsSilent(s, t);
  }

  ghost predicate QuietRun(s: State, steps: seq<Step>, s': State, t: TimerId)
    requires Valid(s)
    decreases |steps|
  {
    if steps == [] then s' == s
    else
      && Enabled(s, steps[0]) && Quiet(steps[0], t)
      && (StepKeepsValid(s, steps[0]); QuietRun(Next(s, steps[0]), steps[1..], s', t))
  }

  lemma {:induction false} RunIsSilent(s: State, steps: seq<Step>, s': State, t: TimerId)
    requires Valid(s) && QuietRun(s, steps, s', t) && Dormant(s, t)
    ensures Silent(s, s', t)
    decreases |steps|
  {
    if steps != [] {
      StepKeepsValid(s, steps[0]);
      StepIsSilent(s, steps[0], t);
      RunIsSilent(Next(s, steps[0]), steps[1..], s', t);
    }
  }

  /** A stopped timer is not called again, however late its expiry was noticed and however
      the lists are switched, until it gets another command. */
  lemma StoppedStaysSilent(s: State, t: TimerId, steps: seq<Step>, s': State)
    requires Valid(s) && s.pc == Handling(Stop(t)) && CommandsFor(s.queue, t) == []
    requires Valid(Handle(s)) && QuietRun(Handle(s), steps, s', t)
    ensures Dormant(s', t) && CallsOf(s'.log, t) == CallsOf(s.log, t)
  {
    StoppedIsDormant(s, t);
    RunIsSilent(Handle(s), steps, s', t);
  }

  // ------------------------------------------------------------------ the order of commands

  lemma RoundPostsBehind(s: State)
    requires ListsOk(s) && s.current != []
    ensures s.queue <= SwitchOne(s).queue
  {
    TailKeepsListsOk(s);
  }

  lemma {:induction false} SwitchPostsBehind(s: State)
    requires ListsOk(s)
    ensures s.queue <= SwitchLists(s).queue
    decreases Distance(s.current, s.value, s.m)
  {
    if s.current != [] {
      SwitchUnfolds(s);
      RoundPostsBehind(s);
      SwitchPostsBehind(SwitchOne(s));
    }
  }

  lemma SamplePostsBehind(s: State)
    requires ListsOk(s)
    ensures s.queue <= Sample(s).queue && s.queue <= Poll(s).queue
  {
    SwitchPostsBehind(s);
  }

  lemma HandlePostsBehind(s: State)
    requires Valid(s) && s.pc.Handling?
    ensures s.queue <= Handle(s).queue
  {
    SampledForCommand(s);
    SamplePostsBehind(s);
    HandledPostsBehind(Sample(s).(pc := Draining), s.pc.command);
  }

  lemma HandledPostsBehind(s: State, c: Command)
    requires ListsOk(s) && CommandOk(s, c)
    ensures s.queue <= Handled(s, c).queue
  {
  }

  lemma ExpirePostsBehind(s: State)
    requires Valid(s) && s.pc.Expiring?
    ensures s.queue <= Expire(s).queue
  {
    TailKeepsListsOk(s);
  }

  /** The commands a step receives. */
  function ReceivedBy(s: State, step: Step): seq<Command> {
    if step.ReceiveStep? && s.queue != [] then [s.queue[0]] else []
  }

  /** Other tasks' commands and the daemon's own go behind those in the queue, and the daemon
      receives the first. */
  lemma CommandsGoBehind(s: State, step: Step)
    requires Valid(s) && Enabled(s, step)
    ensures s.queue <= ReceivedBy(s, step) + Next(s, step).queue
  {
    match step
    case Tick =>
    case IssueStart(_, _) =>
    case Issue(_) =>
    case PollStep => SamplePostsBehind(s);
    case ExpireStep => ExpirePostsBehind(s);
    case ReceiveStep =>
    case HandleStep => HandlePostsBehind(s);
  }

  ghost predicate AnyRun(s: State, steps: seq<Step>, s': State)
    requires Valid(s)
    decreases |steps|
  {
    if steps == [] then s' == s
    else Enabled(s, steps[0]) && (StepKeepsValid(s, steps[0]); AnyRun(Next(s, steps[0]), steps[1..], s'))
  }

  ghost function Received(s: State, steps: seq<Step>, s': State): seq<Command>
    requires Valid(s) && AnyRun(s, steps, s')
    decreases |steps|
  {
    if steps == [] then []
    else
      StepKeepsValid(s, steps[0]);
      ReceivedBy(s, steps[0]) + Received(Next(s, steps[0]), steps[1..], s')
  }

  /** Commands are received in the order they were sent, whoever sends more meanwhile. */
  lemma {:induction false} CommandsInOrder(s: State, steps: seq<Step>, s': State)
    requires Valid(s) && AnyRun(s, steps, s')
    ensures s.queue <= Received(s, steps, s') + s'.queue
    decreases |steps|
  {
    if steps != [] {
      var r := Next(s, steps[0]);
      StepKeepsValid(s, steps[0]);
      CommandsGoBehind(s, steps[0]);
      CommandsInOrder(r, steps[1..], s');
      var first, rest := ReceivedBy(s, steps[0]), Received(r, steps[1..], s');
      assert (first + rest) + s'.queue == first + (rest + s'.queue);
    }
  }

  // ------------------------------------------------------------------ failing assertions

  /** Handling a start fails its assertion exactly when the timer has expired since, is to be
      started again, and the command queue is full. */
  lemma StartFailsExactly(s: State, t: TimerId, c: nat)
    requires ListsOk(s) && t in s.timers && c <= s.last < c + s.m && !s.failed
    ensures HandleStart(s, t, Low(c, s.m)).failed <==>
              s.timers[t].autoReload && c + s.timers[t].period <= s.last && |s.queue| >= s.capacity
  {
    NextPlacement(c, s.timers[t].period, s.last, s.m);
  }

  /** So does processing an expired timer: the expiry after it must have passed as well. */
  lemma ExpireFailsExactly(s: State, t: TimerId, d: nat)
    requires Valid(s) && s.pc.Expiring? && s.current[0] == t && !s.failed
    requires s.timers[t].period <= d && Pending(s, t, d, s.timers[t].period)
    ensures Expire(s).failed <==>
              s.timers[t].autoReload && d + s.timers[t].period <= s.last && |s.queue| >= s.capacity
  {
    ExpireIs(s, t, d);
    NextPlacement(d, s.timers[t].period, s.last, s.m);
    SameOrigin(d, s.last, s.m);
  }

  /** A change of period fails exactly when the new period is zero. */
  lemma ChangeFailsExactly(s: State, t: TimerId, period: nat)
    requires ListsOk(s) && t in s.timers && period < s.m && !s.failed
    ensures HandleChangePeriod(s, t, period).failed <==> period == 0
  {
  }
}
