/** The timer daemon takes up every timer that is due: a poll finds it, no wait runs past it,
    and a daemon left to run comes to rest with every expiry up to now called. */
module TimerCatchUp {
  import opened Lists
  import opened Ticks
  import opened Timers
  import opened TimerTrace

  // ------------------------------------------------------------------ what a poll does about a due timer

  lemma {:induction false} LaterLogHasMoreCalls(a: seq<Callback>, b: seq<Callback>, t: TimerId)
    requires a <= b
    ensures |CallsOf(a, t)| <= |CallsOf(b, t)|
    decreases |b|
  {
    if a != b { LaterLogHasMoreCalls(a, b[..|b| - 1], t); }
  }

  /** The switch calls every timer of the current list. */
  lemma {:induction false} SwitchCallsListed(s: State, t: TimerId)
    requires ListsOk(s) && t in s.current
    ensures |CallsOf(SwitchLists(s).log, t)| > |CallsOf(s.log, t)|
    decreases Distance(s.current, s.value, s.m)
  {
    SwitchUnfolds(s);
    if s.current[0] == t {
      SwitchOneOrder(s);
      CallsOfAppend(s.log, Callback(t, s.value[t], s.now), t);
      SwitchCallsInOrder(SwitchOne(s));
      LaterLogHasMoreCalls(SwitchOne(s).log, SwitchLists(s).log, t);
    } else {
      SwitchOneMissesTimer(s, t);
      SwitchCallsListed(SwitchOne(s), t);
    }
  }

  /** The poll switches the lists exactly when the count has wrapped since the last sample. */
  lemma SwitchesOnWrap(s: State)
    requires ListsOk(s) && s.last <= s.now < s.last + s.m
    ensures MustSwitch(s) <==> Origin(s.now, s.m) == Origin(s.last, s.m) + s.m
    ensures !MustSwitch(s) <==> Origin(s.now, s.m) == Origin(s.last, s.m)
  {
    LowSub(s.now, s.last, s.m);
  }

  /** A timer of the current list that is due is called in the switch, or it or an earlier one
      is processed next. */
  lemma PollTakesUpListed(s: State, z: Started)
    requires Valid(s) && Tracked(s, z) && s.last <= s.now < s.last + s.m && NextDue(s, z) <= s.now && z.t in s.current
    ensures var r := Poll(s);
            && z.t in s.value
            && if MustSwitch(s) then Count(r, z) > Count(s, z)
               else r.current == s.current && r.value == s.value && s.value[s.current[0]] <= s.value[z.t]
                    && r.pc == Expiring(s.value[s.current[0]], Low(s.now, s.m))
  {
    ListedIsLive(s, z);
    SwitchesOnWrap(s);
    if MustSwitch(s) {
      SwitchCallsListed(s, z.t);
    } else {
      SameOrigin(NextDue(s, z), s.now, s.m);
    }
  }

  /** One of the overflow list can be due only if the count has wrapped, and is on the current
      list then, to be found by the next poll, before which the daemon does not wait. */
  lemma PollBringsOverflow(s: State, z: Started)
    requires Valid(s) && Tracked(s, z) && Live(s, z) && s.last <= s.now < s.last + s.m && NextDue(s, z) <= s.now
    requires z.t in s.overflow
    ensures MustSwitch(s) && z.t in Poll(s).current
  {
    SwitchesOnWrap(s);
    SwitchCallsInOrder(s);
  }

  /** A poll never passes over a timer that is due: it is called in the switch of the lists, or
      it or an earlier one is processed next, or the switch brings it onto the current list; or
      it waits in a start command, which the daemon goes on to receive. */
  lemma PollTakesUpDue(s: State, z: Started)
    requires Valid(s) && s.pc.Polling? && Tracked(s, z) && Live(s, z)
    requires s.last <= s.now < s.last + s.m && NextDue(s, z) <= s.now
    ensures var r := Poll(s);
            || Count(r, z) > Count(s, z)
            || (r.pc.Expiring? && r.current != [] && z.t in r.current && z.t in r.value
                && r.pc.expiry == r.value[r.current[0]] <= r.value[z.t] == Low(NextDue(s, z), s.m))
            || (MustSwitch(s) && z.t in s.overflow && z.t in r.current)
            || CommandsFor(r.queue, z.t) != []
  {
    if z.t in s.current {
      PollTakesUpListed(s, z);
    } else if z.t in s.overflow {
      PollBringsOverflow(s, z);
    } else if MustSwitch(s) {
      SwitchListsMisses(s, z.t);
    }
  }

  /** When a poll neither switches the lists nor finds a timer to process, no listed timer is
      due, and the time it waits ends no later than any of them is. */
  lemma WaitingPollIsEarlyEnough(s: State, z: Started)
    requires Valid(s) && s.pc.Polling? && Tracked(s, z) && s.last <= s.now < s.last + s.m
    requires !MustSwitch(s) && !Poll(s).pc.Expiring? && (z.t in s.current || z.t in s.overflow)
    ensures Live(s, z) && s.now < NextDue(s, z) && s.now + BlockTime(s) <= NextDue(s, z)
    ensures Poll(s).current == s.current && Poll(s).value == s.value && BlockTime(Poll(s)) == BlockTime(s)
  {
    SwitchesOnWrap(s);
    OriginNear(s.now, NextDue(s, z), s.m);
    if z.t in s.current { SameOrigin(NextDue(s, z), s.now, s.m); }
  }

  // ------------------------------------------------------------------ what a switch leaves undone

  /** Still to be called in the switch, or with no expiry left in the wrap period that ended. */
  ghost predicate Covered(s: State, z: Started) {
    Tracked(s, z) && (z.t in s.current || !Live(s, z) || Origin(s.last, s.m) + s.m <= NextDue(s, z))
  }

  lemma OneMoreCall(s: State, z: Started)
    requires ListsOk(s) && s.current != [] && s.current[0] == z.t && Count(s, z) >= 0
    ensures Count(SwitchOne(s), z) == Count(s, z) + 1
    ensures NextDue(SwitchOne(s), z) == NextDue(s, z) + z.timer.period
  {
    SwitchOneOrder(s);
    CallsOfAppend(s.log, Callback(z.t, s.value[z.t], s.now), z.t);
  }

  /** The head goes back onto the list unless its next expiry lies behind the wrap. */
  lemma HeadStaysOrWraps(s: State, t: TimerId, d: nat)
    requires ListsOk(s) && s.current != [] && s.current[0] == t && s.timers[t].autoReload
    requires s.value[t] == Low(d, s.m) && Origin(d, s.m) == Origin(s.last, s.m)
    ensures t in SwitchOne(s).current || Origin(s.last, s.m) + s.m <= d + s.timers[t].period
  {
    var p := s.timers[t].period;
    LowAdd(d, p, s.m);
    TailKeepsListsOk(s);
    InsertMembers(s.current[1..], s.value[t := WrapAdd(Low(d, s.m), p, s.m)], t);
  }

  lemma HeadIsCovered(s: State, z: Started)
    requires ListsOk(s) && s.current != [] && s.current[0] == z.t && Tracked(s, z)
    requires Origin(s.last, s.m) + s.m <= s.now && !SwitchOne(s).failed
    ensures Covered(SwitchOne(s), z)
  {
    ListedIsLive(s, z);
    SwitchOneCallsTimer(s, z);
    OneMoreCall(s, z);
    SwitchUnfolds(s);
    if z.timer.autoReload { HeadStaysOrWraps(s, z.t, NextDue(s, z)); }
  }

  lemma RoundKeepsCovered(s: State, z: Started)
    requires ListsOk(s) && s.current != [] && Covered(s, z)
    requires Origin(s.last, s.m) + s.m <= s.now && !SwitchOne(s).failed
    ensures Covered(SwitchOne(s), z)
  {
    if s.current[0] == z.t {
      HeadIsCovered(s, z);
    } else {
      SwitchOneMissesTimer(s, z.t);
      SwitchOneKeepsTracked(s, z);
    }
  }

  /** The switch makes every call that falls into the wrap period just ended: what a timer of
      the current list has pending afterwards is due after the wrap. */
  lemma {:induction false} SwitchCoversPeriod(s: State, z: Started)
    requires ListsOk(s) && Covered(s, z) && Origin(s.last, s.m) + s.m <= s.now && !SwitchLists(s).failed
    ensures Count(SwitchLists(s), z) >= Count(s, z)
    ensures z.timer.autoReload || Count(SwitchLists(s), z) == 0 ==>
              Origin(s.last, s.m) + s.m <= NextDue(SwitchLists(s), z)
    decreases Distance(s.current, s.value, s.m)
  {
    if s.current != [] {
      SwitchUnfolds(s);
      RoundKeepsCovered(s, z);
      SwitchOneOrder(s);
      LaterLogHasMoreCalls(s.log, SwitchOne(s).log, z.t);
      SwitchCoversPeriod(SwitchOne(s), z);
    }
  }

  // ------------------------------------------------------------------ the work left

  /** Twice how late a listed timer is; nothing when it is not due. */
  function ItemWork(v: nat, a: nat): nat {
    if v <= a then 2 * (a - v) + 3 else 0
  }

  ghost function ListWork(l: seq<TimerId>, v: map<TimerId, nat>, a: nat): nat
    requires Valued(l, v)
  {
    if l == [] then 0 else ItemWork(v[l[0]], a) + ListWork(l[1..], v, a)
  }

  /** A start command is as late as the time it names lies behind, whatever it is for. */
  function CommandWork(c: Command, a: nat, m: nat): nat
    requires a < m && (c.Start? ==> c.issued < m)
  {
    if c.Start? then 2 * WrapSub(a, c.issued, m) + 2 else 1
  }

  predicate Startable(q: seq<Command>, m: nat) {
    forall i :: 0 <= i < |q| && q[i].Start? ==> q[i].issued < m
  }

  function QueueWork(q: seq<Command>, a: nat, m: nat): nat
    requires a < m && Startable(q, m)
  {
    if q == [] then 0 else CommandWork(q[0], a, m) + QueueWork(q[1..], a, m)
  }

  lemma {:induction false} QueueWorkAppend(q: seq<Command>, c: Command, a: nat, m: nat)
    requires a < m && Startable(q + [c], m)
    ensures Startable(q, m) && (c.Start? ==> c.issued < m)
    ensures QueueWork(q + [c], a, m) == QueueWork(q, a, m) + CommandWork(c, a, m)
  {
    assert (q + [c])[|q|] == c;
    assert forall i :: 0 <= i < |q| ==> (q + [c])[i] == q[i];
    if q == [] {
      assert [c][1..] == [];
    } else {
      assert (q + [c])[1..] == q[1..] + [c];
      QueueWorkAppend(q[1..], c, a, m);
    }
  }

  lemma {:induction false} ListWorkFrame(l: seq<TimerId>, v: map<TimerId, nat>, t: TimerId, x: nat, a: nat)
    requires Valued(l, v) && t !in l
    ensures Valued(l, v[t := x]) && ListWork(l, v[t := x], a) == ListWork(l, v, a)
  {
    if l != [] { ListWorkFrame(l[1..], v, t, x, a); }
  }

  lemma {:induction false} ListWorkInsert(l: seq<TimerId>, v: map<TimerId, nat>, t: TimerId, a: nat)
    requires Valued(l, v) && t in v
    ensures Valued(Insert(l, v, t), v) && ListWork(Insert(l, v, t), v, a) == ListWork(l, v, a) + ItemWork(v[t], a)
  {
    InsertMembers(l, v, t);
    if l != [] && v[l[0]] <= v[t] {
      ListWorkInsert(l[1..], v, t, a);
      assert Insert(l, v, t)[1..] == Insert(l[1..], v, t);
    } else {
      assert Insert(l, v, t)[1..] == l;
    }
  }

  lemma {:induction false} ListWorkRemove(l: seq<TimerId>, v: map<TimerId, nat>, t: TimerId, a: nat)
    requires Valued(l, v)
    ensures Valued(Remove(l, t), v) && ListWork(Remove(l, t), v, a) <= ListWork(l, v, a)
  {
    if l != [] && l[0] != t {
      ListWorkRemove(l[1..], v, t, a);
      assert Remove(l, t)[1..] == Remove(l[1..], t);
    }
  }

  /** What the daemon has left to do at the time it last sampled. */
  ghost function Work(s: State): nat
    requires Valid(s)
  {
    var a := Low(s.now, s.m);
    ListWork(s.current, s.value, a) + QueueWork(s.queue, a, s.m)
      + (if s.pc.Handling? then CommandWork(s.pc.command, a, s.m) else 0)
  }

  ghost predicate HeadDue(s: State)
    requires Valued(s.current, s.value) && s.m > 0
  {
    s.current != [] && s.value[s.current[0]] <= Low(s.now, s.m)
  }

  /** How many steps the daemon is away from working some of that off. */
  ghost function Rank(s: State): nat
    requires Valid(s)
  {
    match s.pc
    case Handling(_) => 0
    case Expiring(_, _) => 0
    case Draining => if s.queue != [] then 1 else 2
    case Polling => if HeadDue(s) then 1 else 2
  }

  /** How many steps the daemon is away from its next sample, if the clock has moved since. */
  function Unsampled(s: State): nat {
    if s.last == s.now then 0
    else match s.pc
      case Expiring(_, _) => 3
      case Draining => 2
      case _ => 1
  }

  /** The one step the daemon can take. */
  function DaemonStep(s: State): Step {
    match s.pc
    case Polling => PollStep
    case Expiring(_, _) => ExpireStep
    case Draining => ReceiveStep
    case Handling(_) => HandleStep
  }

  // ------------------------------------------------------------------ every step works some off

  ghost predicate Less(s: State, r: State)
    requires Valid(s) && Valid(r)
  {
    || Unsampled(r) < Unsampled(s)
    || (Unsampled(r) == Unsampled(s) == 0 && (Work(r) < Work(s) || (Work(r) == Work(s) && Rank(r) < Rank(s))))
  }

  /** Sampled just now. */
  ghost predicate Sampled(s: State) {
    Valid(s) && s.last == s.now
  }

  lemma PollWorks(s: State)
    requires Sampled(s) && s.pc.Polling? && (s.queue != [] || HeadDue(s))
    ensures Valid(Poll(s)) && Less(s, Poll(s))
  {
    PollKeepsValid(s);
    assert Poll(s) == s.(pc := Poll(s).pc);
  }

  lemma ReceiveWorks(s: State)
    requires Sampled(s) && s.pc.Draining? && (s.queue != [] || HeadDue(s))
    ensures Valid(Receive(s)) && Less(s, Receive(s))
  {
    ReceiveKeepsValid(s);
    if s.queue != [] { ListWorkRemove(s.current, s.value, s.queue[0].timer, Low(s.now, s.m)); }
  }

  /** What is left beside a timer that is on no list, with nothing in hand. */
  ghost function Rest(s: State): nat
    requires Valid(s)
  {
    ListWork(s.current, s.value, Low(s.now, s.m)) + QueueWork(s.queue, Low(s.now, s.m), s.m)
  }

  /** A timer inserted is not due. */
  lemma InsertedWork(s: State, t: TimerId, next: nat, place: Place)
    requires Valid(s) && t in s.timers && t !in s.current && t !in s.overflow && next < s.m
    requires !s.pc.Expiring? && !Handles(s, t) && (place == InCurrent ==> Low(s.now, s.m) < next)
    ensures Valid(InsertTimer(s, t, next, place)) && Rest(InsertTimer(s, t, next, place)) == Rest(s)
  {
    InsertKeepsListsOk(s, t, next, place);
    ListWorkFrame(s.current, s.value, t, next, Low(s.now, s.m));
    ListWorkInsert(s.current, s.value[t := next], t, Low(s.now, s.m));
  }

  lemma PostWork(s: State, c: Command)
    requires Valid(s) && CommandOk(s, c)
    ensures Valid(Post(s, c)) && Rest(Post(s, c)) <= Rest(s) + CommandWork(c, Low(s.now, s.m), s.m)
  {
    PostKeepsQueue(s, c);
    if |s.queue| < s.capacity { QueueWorkAppend(s.queue, c, Low(s.now, s.m), s.m); }
  }

  /** A timer called at once is less late for its next start than it was for this one. */
  lemma ImmediatelyIsLessLate(issued: nat, p: nat, a: nat, m: nat)
    requires issued < m && 0 < p < m && a < m
    requires PlaceFor(WrapAdd(issued, p, m), a, issued, p, m) == Immediately
    ensures WrapSub(a, WrapAdd(issued, p, m), m) < WrapSub(a, issued, m)
  {
  }

  /** Ready for a command on timer t to be handled. */
  ghost predicate InHand(s: State, t: TimerId) {
    Sampled(s) && s.pc.Draining? && t in s.timers && t !in s.current && t !in s.overflow
  }

  lemma StartWorks(s: State, t: TimerId, issued: nat)
    requires InHand(s, t) && issued < s.m
    ensures var r := HandleStart(s, t, issued);
            Valid(r) && r.pc.Draining? && Rest(r) < Rest(s) + 2 * WrapSub(Low(s.now, s.m), issued, s.m) + 2
  {
    var next := WrapAdd(issued, s.timers[t].period, s.m);
    var place := PlaceFor(next, Low(s.last, s.m), issued, s.timers[t].period, s.m);
    var inserted := InsertTimer(s, t, next, place);
    InsertedWork(s, t, next, place);
    if place == Immediately {
      ImmediatelyIsLessLate(issued, s.timers[t].period, Low(s.now, s.m), s.m);
      CallKeepsValid(inserted, t, next);
      PostWork(Call(inserted, t, next), Start(t, next));
    }
  }

  lemma ChangePeriodWorks(s: State, t: TimerId, period: nat)
    requires InHand(s, t) && period < s.m
    ensures var r := HandleChangePeriod(s, t, period);
            Valid(r) && r.pc.Draining? && Rest(r) == Rest(s)
  {
    if period > 0 {
      var changed := s.(timers := s.timers[t := s.timers[t].(period := period)]);
      NewPeriodKeepsListsOk(s, t, period);
      var timeNow := Low(s.last, s.m);
      var next := WrapAdd(timeNow, period, s.m);
      InsertedWork(changed, t, next, PlaceFor(next, timeNow, timeNow, period, s.m));
    }
  }

  lemma HandledWorks(s: State, c: Command)
    requires CommandOk(s, c) && InHand(s, c.timer)
    ensures var r := Handled(s, c);
            Valid(r) && r.pc.Draining? && Rest(r) < Rest(s) + CommandWork(c, Low(s.now, s.m), s.m)
  {
    match c
    case Start(t, issued) => StartWorks(s, t, issued);
    case Stop(_) =>
    case ChangePeriod(t, period) => ChangePeriodWorks(s, t, period);
  }

  lemma HandledFrame(s: State, c: Command)
    requires ListsOk(s) && CommandOk(s, c)
    ensures Handled(s, c).now == s.now && Handled(s, c).last == s.last && Handled(s, c).m == s.m
  {
  }

  lemma HandleWorks(s: State)
    requires Sampled(s) && s.pc.Handling?
    ensures Valid(Handle(s)) && Less(s, Handle(s))
  {
    var r := s.(pc := Draining);
    assert Sample(s).(pc := Draining) == r;
    HandledWorks(r, s.pc.command);
    HandledFrame(r, s.pc.command);
    assert Handle(s) == Handled(r, s.pc.command);
  }

  lemma ReloadedWork(s: State, t: TimerId, e: nat)
    requires InHand(s, t) && e <= Low(s.now, s.m)
    ensures var r := ReloadExpired(s, t, e, Low(s.now, s.m));
            && Valid(r) && r.pc.Draining? && r.last == r.now == s.now && r.m == s.m
            && Rest(r) < Rest(s) + ItemWork(e, Low(s.now, s.m))
  {
    var next := WrapAdd(e, s.timers[t].period, s.m);
    var place := PlaceFor(next, Low(s.now, s.m), e, s.timers[t].period, s.m);
    if s.timers[t].autoReload {
      InsertedWork(s, t, next, place);
      PostWork(InsertTimer(s, t, next, place), Start(t, e));
    }
  }

  lemma ExpireWorks(s: State)
    requires Sampled(s) && s.pc.Expiring?
    ensures Valid(Expire(s)) && Less(s, Expire(s))
  {
    TailKeepsListsOk(s);
    var t, tail := s.current[0], s.(current := s.current[1..], pc := Draining);
    ReloadedWork(tail, t, s.pc.expiry);
    CallKeepsValid(ReloadExpired(tail, t, s.pc.expiry, s.pc.timeNow), t, s.pc.expiry);
    assert Rest(Expire(s)) == Rest(ReloadExpired(tail, t, s.pc.expiry, s.pc.timeNow));
  }

  lemma SamplesSoon(s: State)
    requires Valid(s) && s.last < s.now
    ensures Valid(Next(s, DaemonStep(s))) && Unsampled(Next(s, DaemonStep(s))) < Unsampled(s)
  {
    StepKeepsValid(s, DaemonStep(s));
    match s.pc
    case Polling => SampleFrame(s);
    case Handling(_) => HandleKeeps(s);
    case _ =>
  }

  /** Nothing left to do at the present time. */
  ghost predicate AtRest(s: State) {
    Valid(s) && s.last == s.now && Settled(s, Low(s.last, s.m))
  }

  /** Unless the daemon has nothing left to do, its next step brings it nearer to that. */
  lemma DaemonWorks(s: State)
    requires Valid(s) && !AtRest(s)
    ensures Enabled(s, DaemonStep(s)) && Valid(Next(s, DaemonStep(s))) && Less(s, Next(s, DaemonStep(s)))
  {
    if s.last < s.now {
      SamplesSoon(s);
    } else {
      match s.pc
      case Polling => PollWorks(s);
      case Draining => ReceiveWorks(s);
      case Handling(_) => HandleWorks(s);
      case Expiring(_, _) => ExpireWorks(s);
    }
  }

  lemma DaemonKeepsNow(s: State)
    requires Valid(s)
    ensures var r := Next(s, DaemonStep(s)); r.now == s.now && r.m == s.m && (r.last == s.last || r.last == s.now)
  {
    StepKeepsModulus(s, DaemonStep(s));
    SampleFrame(s);
    match s.pc
    case Handling(c) => HandledFrame(Sample(s).(pc := Draining), c);
    case _ =>
  }

  // ------------------------------------------------------------------ coming to rest

  /** The daemon's steps while the clock stands and nobody else sends a command.  That this is
      defined is the result: the steps come to an end. */
  ghost function Rested(s: State): (r: State)
    requires Valid(s)
    ensures AtRest(r) && r.now == s.now
    decreases Unsampled(s), if Unsampled(s) == 0 then Work(s) else 0, if Unsampled(s) == 0 then Rank(s) else 0
  {
    if AtRest(s) then s
    else
      DaemonWorks(s);
      DaemonKeepsNow(s);
      Rested(Next(s, DaemonStep(s)))
  }

  lemma HandledLogGrows(s: State, c: Command)
    requires ListsOk(s) && CommandOk(s, c)
    ensures s.log <= Handled(s, c).log
  {
  }

  lemma SampleLogGrows(s: State)
    requires ListsOk(s)
    ensures s.log <= Sample(s).log && s.log <= Poll(s).log
  {
    if MustSwitch(s) { SwitchCallsInOrder(s); }
  }

  lemma ReceiveLogIs(s: State)
    ensures Receive(s).log == s.log
  {
  }

  lemma HandleLogGrows(s: State)
    requires Valid(s) && s.pc.Handling?
    ensures s.log <= Handle(s).log
  {
    SampleFrame(s);
    SampleLogGrows(s);
    HandledLogGrows(Sample(s).(pc := Draining), s.pc.command);
  }

  lemma ExpireLogGrows(s: State)
    requires Valid(s) && s.pc.Expiring?
    ensures s.log <= Expire(s).log
  {
    TailKeepsListsOk(s);
    ReloadExpiredFrame(s.(current := s.current[1..], pc := Draining), s.current[0], s.pc.expiry, s.pc.timeNow);
  }

  lemma DaemonLogGrows(s: State)
    requires Valid(s)
    ensures s.log <= Next(s, DaemonStep(s)).log
  {
    match s.pc
    case Polling => SampleLogGrows(s);
    case Expiring(_, _) => ExpireLogGrows(s);
    case Draining => ReceiveLogIs(s);
    case Handling(_) => HandleLogGrows(s);
  }

  lemma {:induction false} DueGrows(c: nat, p: nat, k: nat, n: nat)
    requires k <= n
    ensures Due(c, p, k) <= Due(c, p, n)
    decreases n
  {
    if k < n { DueGrows(c, p, k, n - 1); }
  }

  /** The daemon is less than 2^N ticks behind, and so is the start the timer may wait for. */
  ghost predicate NotFarBehind(s: State, z: Started) {
    Count(s, z) >= 0 && s.now < s.last + s.m && s.now < LastDue(s, z) + s.m
  }

  lemma DaemonKeepsTracked(s: State, z: Started)
    requires Valid(s) && Tracked(s, z) && NotFarBehind(s, z) && !Next(s, DaemonStep(s)).failed
    ensures Tracked(Next(s, DaemonStep(s)), z) && NotFarBehind(Next(s, DaemonStep(s)), z)
  {
    var r := Next(s, DaemonStep(s));
    StepKeepsTracked(s, DaemonStep(s), z);
    DaemonKeepsNow(s);
    DaemonLogGrows(s);
    StepKeepsValid(s, DaemonStep(s));
    LaterLogHasMoreCalls(s.log, r.log, z.t);
    DueGrows(z.c, z.timer.period, Count(s, z), Count(r, z));
  }

  lemma {:induction false} RestedFails(s: State)
    requires Valid(s) && s.failed
    ensures Rested(s).failed
    decreases Unsampled(s), if Unsampled(s) == 0 then Work(s) else 0, if Unsampled(s) == 0 then Rank(s) else 0
  {
    if !AtRest(s) {
      DaemonWorks(s);
      FailedStays(s, DaemonStep(s));
      RestedFails(Next(s, DaemonStep(s)));
    }
  }

  /** A daemon left to run catches up: however many expiries of whatever timers it is behind,
      its steps come to an end, and by then each expiry up to now has had its call, a
      one-shot timer its one. */
  lemma {:induction false} DaemonCatchesUp(s: State, z: Started)
    requires Valid(s) && Tracked(s, z) && NotFarBehind(s, z) && !Rested(s).failed
    ensures var r := Rested(s);
            AtRest(r) && r.now == s.now && Tracked(r, z) && Complete(r, z) && r.last == s.now
    decreases Unsampled(s), if Unsampled(s) == 0 then Work(s) else 0, if Unsampled(s) == 0 then Rank(s) else 0
  {
    if AtRest(s) {
      SettledIsComplete(s, z);
    } else {
      var r := Next(s, DaemonStep(s));
      DaemonWorks(s);
      DaemonKeepsNow(s);
      if r.failed { RestedFails(r); }
      DaemonKeepsTracked(s, z);
      DaemonCatchesUp(r, z);
    }
  }
}
