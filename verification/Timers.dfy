/** Software timers (timers.c): two lists over an N-bit clock, a command queue, and the
    re-posted start commands by which a late daemon catches up.

    `now` and `last` are unbounded times; the tick count is `Low(now, m)` and `xLastTime`
    is `Low(last, m)`.  Everything the daemon computes with is N bits wide.  The daemon's
    calls are steps; ticks and other tasks' commands may come between any two of them. */
module Timers {
  import opened Lists
  import opened Ticks

  type TimerId = nat

  datatype Timer = Timer(period: nat, autoReload: bool)

  /** `issued` is the N-bit command time.  `Stop` stands for delete as well: both only take
      the timer off its list. */
  datatype Command =
    | Start(timer: TimerId, issued: nat)
    | Stop(timer: TimerId)
    | ChangePeriod(timer: TimerId, period: nat)

  /** A callback made at time `at` for the N-bit expiry time `due`. */
  datatype Callback = Callback(timer: TimerId, due: nat, at: nat)

  datatype Pc =
    | Polling
    | Expiring(expiry: nat, timeNow: nat)
    | Draining
    | Handling(command: Command)

  /** `failed` records a failed `configASSERT`. */
  datatype State = State(
    m: nat,
    capacity: nat,
    now: nat,
    last: nat,
    current: seq<TimerId>,
    overflow: seq<TimerId>,
    value: map<TimerId, nat>,
    timers: map<TimerId, Timer>,
    queue: seq<Command>,
    pc: Pc,
    failed: bool,
    log: seq<Callback>
  )

  // ------------------------------------------------------------------ well-formed states

  ghost predicate TimersOk(s: State) {
    && s.m > 0
    && (forall t :: t in s.timers ==> t in s.value && 0 < s.timers[t].period < s.m)
    && (forall t :: t in s.value ==> s.value[t] < s.m)
  }

  ghost predicate ListOk(l: seq<TimerId>, s: State) {
    && Distinct(l)
    && Valued(l, s.value)
    && Sorted(l, s.value)
    && (forall t :: t in l ==> t in s.timers)
  }

  ghost predicate ListsOk(s: State) {
    && TimersOk(s)
    && ListOk(s.current, s)
    && ListOk(s.overflow, s)
    && (forall t :: t in s.current ==> t !in s.overflow)
  }

  predicate CommandOk(s: State, c: Command) {
    && c.timer in s.timers
    && (c.Start? ==> c.issued < s.m)
    && (c.ChangePeriod? ==> c.period < s.m)
  }

  ghost predicate PcOk(s: State) {
    match s.pc
    case Expiring(e, n) =>
      s.current != [] && s.current[0] in s.value && s.value[s.current[0]] == e <= n < s.m && n == Low(s.last, s.m)
    case Handling(c) => CommandOk(s, c) && c.timer !in s.current && c.timer !in s.overflow
    case _ => true
  }

  ghost predicate QueueOk(s: State) {
    forall i :: 0 <= i < |s.queue| ==> CommandOk(s, s.queue[i])
  }

  ghost predicate Valid(s: State) {
    && ListsOk(s)
    && PcOk(s)
    && s.last <= s.now
    && QueueOk(s)
  }

  // ------------------------------------------------------------------ the daemon's functions

  function Post(s: State, c: Command): State {
    if |s.queue| < s.capacity then s.(queue := s.queue + [c]) else s.(failed := true)
  }

  function Call(s: State, t: TimerId, due: nat): State {
    s.(log := s.log + [Callback(t, due, s.now)])
  }

  datatype Place = Immediately | InCurrent | InOverflow

  /** The decision of `prvInsertTimerInActiveList`. */
  function PlaceFor(next: nat, timeNow: nat, commandTime: nat, period: nat, m: nat): Place
    requires next < m && timeNow < m && commandTime < m
  {
    if next <= timeNow then
      if WrapSub(timeNow, commandTime, m) >= period then Immediately else InOverflow
    else
      if timeNow < commandTime && next >= commandTime then Immediately else InCurrent
  }

  function InsertTimer(s: State, t: TimerId, next: nat, place: Place): State
    requires Valued(s.current, s.value) && Valued(s.overflow, s.value)
  {
    var r := s.(value := s.value[t := next]);
    match place
    case Immediately => r
    case InCurrent => r.(current := Insert(s.current, r.value, t))
    case InOverflow => r.(overflow := Insert(s.overflow, r.value, t))
  }

  /** Reloading while the lists are being switched: a time of the same wrap period goes
      back onto the current list, any other has to wait for the switch. */
  function Reload(s: State, t: TimerId, due: nat): State
    requires ListsOk(s) && t in s.timers && due < s.m
  {
    var reload := WrapAdd(due, s.timers[t].period, s.m);
    if !s.timers[t].autoReload then s
    else if reload > due then InsertTimer(s, t, reload, InCurrent)
    else Post(s, Start(t, due))
  }

  /** The head of the current list, taken off and called. */
  function CallHead(s: State): State
    requires ListsOk(s) && s.current != []
  {
    Call(s.(current := s.current[1..]), s.current[0], s.value[s.current[0]])
  }

  /** One round of the loop of `prvSwitchTimerLists`. */
  function SwitchOne(s: State): State
    requires ListsOk(s) && s.current != []
  {
    TailKeepsListsOk(s);
    Reload(CallHead(s), s.current[0], s.value[s.current[0]])
  }

  lemma RevalueKeepsListOk(l: seq<TimerId>, s: State, t: TimerId, next: nat)
    requires ListOk(l, s) && t !in l
    ensures ListOk(l, s.(value := s.value[t := next]))
  {
  }

  lemma InsertKeepsListOk(l: seq<TimerId>, s: State, t: TimerId)
    requires ListOk(l, s) && t !in l && t in s.value && t in s.timers
    ensures ListOk(Insert(l, s.value, t), s)
    ensures forall u :: u in Insert(l, s.value, t) <==> u in l || u == t
  {
    InsertMembers(l, s.value, t);
    InsertSorted(l, s.value, t);
    InsertDistinct(l, s.value, t);
  }

  lemma RevalueKeepsListsOk(s: State, t: TimerId, next: nat)
    requires ListsOk(s) && t !in s.current && t !in s.overflow && next < s.m
    ensures ListsOk(s.(value := s.value[t := next]))
  {
    RevalueKeepsListOk(s.current, s, t, next);
    RevalueKeepsListOk(s.overflow, s, t, next);
  }

  lemma InsertKeepsListsOk(s: State, t: TimerId, next: nat, place: Place)
    requires ListsOk(s) && t in s.timers && t !in s.current && t !in s.overflow && next < s.m
    ensures ListsOk(InsertTimer(s, t, next, place))
    ensures var r := InsertTimer(s, t, next, place);
            && (forall u :: u in r.current <==> u in s.current || (u == t && place == InCurrent))
            && (forall u :: u in r.overflow <==> u in s.overflow || (u == t && place == InOverflow))
  {
    var r := s.(value := s.value[t := next]);
    RevalueKeepsListOk(s.current, s, t, next);
    RevalueKeepsListOk(s.overflow, s, t, next);
    InsertKeepsListOk(s.current, r, t);
    InsertKeepsListOk(s.overflow, r, t);
  }

  lemma TailKeepsListsOk(s: State)
    requires ListsOk(s) && s.current != []
    ensures ListsOk(s.(current := s.current[1..])) && ListsOk(CallHead(s))
    ensures s.current[0] !in s.current[1..] && s.current[0] !in s.overflow
    ensures forall u :: u in s.current <==> u == s.current[0] || u in s.current[1..]
  {
    assert s.current == [s.current[0]] + s.current[1..];
  }

  lemma ReloadKeepsListsOk(s: State, t: TimerId, due: nat)
    requires ListsOk(s) && t in s.timers && t !in s.current && t !in s.overflow && due < s.m
    ensures ListsOk(Reload(s, t, due))
    ensures forall u :: u in Reload(s, t, due).current ==> u in s.current || u == t
    ensures Reload(s, t, due).overflow == s.overflow
  {
    InsertKeepsListsOk(s, t, WrapAdd(due, s.timers[t].period, s.m), InCurrent);
  }

  lemma SwitchOneKeepsListsOk(s: State)
    requires ListsOk(s) && s.current != []
    ensures ListsOk(SwitchOne(s))
    ensures forall u :: u in SwitchOne(s).current ==> u in s.current
    ensures SwitchOne(s).overflow == s.overflow
  {
    TailKeepsListsOk(s);
    ReloadKeepsListsOk(CallHead(s), s.current[0], s.value[s.current[0]]);
  }

  // ------------------------------------------------------------------ the switch ends

  /** How far the listed expiry times are from 2^N, summed. */
  ghost function Distance(l: seq<TimerId>, v: map<TimerId, nat>, m: nat): nat
    requires Valued(l, v) && forall t :: t in v ==> v[t] < m
  {
    if l == [] then 0 else m - v[l[0]] + Distance(l[1..], v, m)
  }

  lemma {:induction false} DistanceFrame(l: seq<TimerId>, v: map<TimerId, nat>, t: TimerId, x: nat, m: nat)
    requires Valued(l, v) && (forall u :: u in v ==> v[u] < m) && t !in l && x < m
    ensures Valued(l, v[t := x]) && Distance(l, v[t := x], m) == Distance(l, v, m)
  {
    if l != [] { DistanceFrame(l[1..], v, t, x, m); }
  }

  lemma {:induction false} DistanceInsert(l: seq<TimerId>, v: map<TimerId, nat>, t: TimerId, m: nat)
    requires Valued(l, v) && t in v && (forall u :: u in v ==> v[u] < m)
    ensures Valued(Insert(l, v, t), v)
    ensures Distance(Insert(l, v, t), v, m) == Distance(l, v, m) + m - v[t]
  {
    InsertMembers(l, v, t);
    if l != [] && v[l[0]] <= v[t] {
      DistanceInsert(l[1..], v, t, m);
      assert Insert(l, v, t)[1..] == Insert(l[1..], v, t);
    } else {
      assert Insert(l, v, t)[1..] == l;
    }
  }

  /** Each round takes a timer off the list for good or puts it back at a later time of
      the same wrap period. */
  lemma SwitchOneGetsCloser(s: State)
    requires ListsOk(s) && s.current != [] && ListsOk(SwitchOne(s))
    ensures Distance(SwitchOne(s).current, SwitchOne(s).value, s.m) < Distance(s.current, s.value, s.m)
  {
    var t, rest := s.current[0], s.current[1..];
    var reload := WrapAdd(s.value[t], s.timers[t].period, s.m);
    if s.timers[t].autoReload && reload > s.value[t] {
      DistanceFrame(rest, s.value, t, reload, s.m);
      DistanceInsert(rest, s.value[t := reload], t, s.m);
    }
  }

  /** `prvSwitchTimerLists`. */
  ghost function SwitchLists(s: State): State
    requires ListsOk(s)
    decreases Distance(s.current, s.value, s.m)
  {
    if s.current == [] then s.(current := s.overflow, overflow := [])
    else
      SwitchOneKeepsListsOk(s);
      SwitchOneGetsCloser(s);
      SwitchLists(SwitchOne(s))
  }

  ghost predicate MustSwitch(s: State)
    requires s.m > 0
  {
    Low(s.now, s.m) < Low(s.last, s.m)
  }

  lemma {:induction false} SwitchListsKeepsListsOk(s: State)
    requires ListsOk(s)
    ensures ListsOk(SwitchLists(s))
    ensures forall u :: u in SwitchLists(s).current ==> u in s.overflow
    ensures SwitchLists(s).overflow == []
    decreases Distance(s.current, s.value, s.m)
  {
    if s.current != [] {
      SwitchOneKeepsListsOk(s);
      SwitchOneGetsCloser(s);
      SwitchListsKeepsListsOk(SwitchOne(s));
    }
  }

  /** `prvSampleTimeNow`. */
  ghost function Sample(s: State): (r: State)
    requires ListsOk(s)
    ensures ListsOk(r) && r.last == s.now
  {
    SwitchListsKeepsListsOk(s);
    if MustSwitch(s) then SwitchLists(s).(last := s.now) else s.(last := s.now)
  }

  /** `prvGetNextExpireTime` and `prvProcessTimerOrBlockTask` up to the decision; a daemon
      that blocks goes on to the command queue when it is woken. */
  ghost function Poll(s: State): State
    requires ListsOk(s)
  {
    if !MustSwitch(s) && s.current != [] && s.value[s.current[0]] <= Low(s.now, s.m) then
      Sample(s).(pc := Expiring(s.value[s.current[0]], Low(s.now, s.m)))
    else Sample(s).(pc := Draining)
  }

  /** The insertion for the expiry after e by a daemon that last sampled `timeNow`; a timer
      expired again already is re-posted with a start command of its old expiry time. */
  function ReloadExpired(s: State, t: TimerId, e: nat, timeNow: nat): State
    requires ListsOk(s) && t in s.timers && e < s.m && timeNow < s.m
  {
    var next := WrapAdd(e, s.timers[t].period, s.m);
    var place := PlaceFor(next, timeNow, e, s.timers[t].period, s.m);
    if !s.timers[t].autoReload then s
    else if place == Immediately then Post(InsertTimer(s, t, next, place), Start(t, e))
    else InsertTimer(s, t, next, place)
  }

  /** `prvProcessExpiredTimer`. */
  function Expire(s: State): State
    requires ListsOk(s) && s.pc.Expiring? && PcOk(s)
  {
    TailKeepsListsOk(s);
    var r := s.(current := s.current[1..], pc := Draining);
    Call(ReloadExpired(r, s.current[0], s.pc.expiry, s.pc.timeNow), s.current[0], s.pc.expiry)
  }

  /** One `xQueueReceive` of the loop of `prvProcessReceivedCommands`; the timer is taken
      off the list it is on. */
  function Receive(s: State): State {
    if s.queue == [] then s.(pc := Polling)
    else
      var c := s.queue[0];
      s.(queue := s.queue[1..], pc := Handling(c),
         current := Remove(s.current, c.timer), overflow := Remove(s.overflow, c.timer))
  }

  /** The start of a timer whose command was issued at the N-bit time `issued`. */
  ghost function HandleStart(s: State, t: TimerId, issued: nat): State
    requires ListsOk(s) && t in s.timers && issued < s.m
  {
    var next := WrapAdd(issued, s.timers[t].period, s.m);
    var place := PlaceFor(next, Low(s.last, s.m), issued, s.timers[t].period, s.m);
    var inserted := InsertTimer(s, t, next, place);
    if place != Immediately then inserted
    else if !s.timers[t].autoReload then Call(inserted, t, next)
    else Post(Call(inserted, t, next), Start(t, next))
  }

  /** A period of zero fails the assertion; the result of the insertion is not looked at. */
  ghost function HandleChangePeriod(s: State, t: TimerId, period: nat): State
    requires ListsOk(s) && t in s.timers && period < s.m
  {
    if period == 0 then s.(failed := true)
    else
      var changed := s.(timers := s.timers[t := s.timers[t].(period := period)]);
      var timeNow := Low(s.last, s.m);
      var next := WrapAdd(timeNow, period, s.m);
      InsertTimer(changed, t, next, PlaceFor(next, timeNow, timeNow, period, s.m))
  }

  /** The cases of `prvProcessReceivedCommands` once the clock has been sampled. */
  ghost function Handled(s: State, c: Command): State
    requires ListsOk(s) && CommandOk(s, c)
  {
    match c
    case Start(t, issued) => HandleStart(s, t, issued)
    case Stop(_) => s
    case ChangePeriod(t, period) => HandleChangePeriod(s, t, period)
  }

  ghost function Handle(s: State): State
    requires ListsOk(s) && s.pc.Handling? && CommandOk(s, s.pc.command)
  {
    SampleFrame(s);
    Handled(Sample(s).(pc := Draining), s.pc.command)
  }

  lemma {:induction false} SwitchListsFrame(s: State)
    requires ListsOk(s)
    ensures var r := SwitchLists(s);
            r.m == s.m && r.timers == s.timers && r.now == s.now && r.last == s.last && r.pc == s.pc
    ensures s.failed ==> SwitchLists(s).failed
    decreases Distance(s.current, s.value, s.m)
  {
    if s.current != [] {
      SwitchOneKeepsListsOk(s);
      SwitchOneGetsCloser(s);
      SwitchListsFrame(SwitchOne(s));
    }
  }

  lemma SampleFrame(s: State)
    requires ListsOk(s)
    ensures var r := Sample(s); r.m == s.m && r.timers == s.timers && r.now == s.now && r.pc == s.pc
    ensures s.failed ==> Sample(s).failed
  {
    SwitchListsFrame(s);
  }

  // ------------------------------------------------------------------ every step keeps the lists

  lemma SampleKeepsApart(s: State)
    requires ListsOk(s)
    ensures forall u :: u in Sample(s).current || u in Sample(s).overflow ==> u in s.current || u in s.overflow
  {
    SwitchListsKeepsListsOk(s);
  }

  lemma PollKeepsLists(s: State)
    requires ListsOk(s)
    ensures ListsOk(Poll(s)) && PcOk(Poll(s))
  {
  }

  lemma PostKeepsQueue(s: State, c: Command)
    requires QueueOk(s) && CommandOk(s, c)
    ensures QueueOk(Post(s, c))
  {
  }

  lemma ReloadExpiredKeeps(s: State, t: TimerId, e: nat, timeNow: nat)
    requires ListsOk(s) && QueueOk(s) && t in s.timers && t !in s.current && t !in s.overflow && e < s.m
    requires timeNow < s.m
    ensures ListsOk(ReloadExpired(s, t, e, timeNow)) && QueueOk(ReloadExpired(s, t, e, timeNow))
  {
    var next := WrapAdd(e, s.timers[t].period, s.m);
    var place := PlaceFor(next, timeNow, e, s.timers[t].period, s.m);
    InsertKeepsListsOk(s, t, next, place);
    PostKeepsQueue(InsertTimer(s, t, next, place), Start(t, e));
  }

  lemma ReceiveKeepsLists(s: State)
    requires ListsOk(s)
    ensures ListsOk(Receive(s))
    ensures s.queue != [] ==> s.queue[0].timer !in Receive(s).current && s.queue[0].timer !in Receive(s).overflow
    ensures forall u :: u in Receive(s).current ==> u in s.current
    ensures forall u :: u in Receive(s).overflow ==> u in s.overflow
  {
    if s.queue != [] {
      var t := s.queue[0].timer;
      RemoveFacts(s.current, t);
      RemoveFacts(s.overflow, t);
      RemoveSorted(s.current, s.value, t);
      RemoveSorted(s.overflow, s.value, t);
    }
  }

  lemma {:induction false} SwitchListsKeepsQueue(s: State)
    requires ListsOk(s) && QueueOk(s)
    ensures QueueOk(SwitchLists(s))
    decreases Distance(s.current, s.value, s.m)
  {
    if s.current != [] {
      SwitchOneKeepsListsOk(s);
      SwitchOneGetsCloser(s);
      SwitchOneKeepsQueue(s);
      SwitchListsKeepsQueue(SwitchOne(s));
    }
  }

  lemma SwitchOneKeepsQueue(s: State)
    requires ListsOk(s) && QueueOk(s) && s.current != []
    ensures QueueOk(SwitchOne(s))
  {
    TailKeepsListsOk(s);
    assert QueueOk(CallHead(s));
    PostKeepsQueue(CallHead(s), Start(s.current[0], s.value[s.current[0]]));
  }

  lemma HandleStartKeeps(s: State, t: TimerId, issued: nat)
    requires ListsOk(s) && QueueOk(s) && t in s.timers && issued < s.m && t !in s.current && t !in s.overflow
    ensures ListsOk(HandleStart(s, t, issued)) && QueueOk(HandleStart(s, t, issued))
  {
    var next := WrapAdd(issued, s.timers[t].period, s.m);
    var place := PlaceFor(next, Low(s.last, s.m), issued, s.timers[t].period, s.m);
    InsertKeepsListsOk(s, t, next, place);
    var inserted := InsertTimer(s, t, next, place);
    PostKeepsQueue(Call(inserted, t, next), Start(t, next));
    assert HandleStart(s, t, issued) == inserted || HandleStart(s, t, issued) == Call(inserted, t, next)
        || HandleStart(s, t, issued) == Post(Call(inserted, t, next), Start(t, next));
  }

  lemma NewPeriodKeepsListsOk(s: State, t: TimerId, period: nat)
    requires ListsOk(s) && t in s.timers && 0 < period < s.m
    ensures ListsOk(s.(timers := s.timers[t := s.timers[t].(period := period)]))
  {
  }

  lemma HandleChangePeriodKeeps(s: State, t: TimerId, period: nat)
    requires ListsOk(s) && QueueOk(s) && t in s.timers && period < s.m && t !in s.current && t !in s.overflow
    ensures ListsOk(HandleChangePeriod(s, t, period)) && QueueOk(HandleChangePeriod(s, t, period))
  {
    if period > 0 {
      NewPeriodKeepsListsOk(s, t, period);
      var changed := s.(timers := s.timers[t := s.timers[t].(period := period)]);
      var timeNow := Low(s.last, s.m);
      var next := WrapAdd(timeNow, period, s.m);
      InsertKeepsListsOk(changed, t, next, PlaceFor(next, timeNow, timeNow, period, s.m));
    }
  }

  lemma SampledForCommand(s: State)
    requires ListsOk(s) && QueueOk(s) && s.pc.Handling? && PcOk(s)
    ensures var r := Sample(s).(pc := Draining);
            && ListsOk(r) && QueueOk(r) && r.m == s.m && r.timers == s.timers && r.now == s.now && r.last == s.now
            && s.pc.command.timer !in r.current && s.pc.command.timer !in r.overflow
  {
    SampleFrame(s);
    SampleKeepsApart(s);
    SwitchListsKeepsQueue(s);
  }

  lemma HandleKeeps(s: State)
    requires ListsOk(s) && QueueOk(s) && s.pc.Handling? && PcOk(s)
    ensures var r := Handle(s); ListsOk(r) && QueueOk(r) && r.pc == Draining && r.now == r.last
  {
    SampledForCommand(s);
    var r := Sample(s).(pc := Draining);
    match s.pc.command
    case Start(t, issued) => HandleStartKeeps(r, t, issued);
    case Stop(_) =>
    case ChangePeriod(t, period) => HandleChangePeriodKeeps(r, t, period);
  }

  // ------------------------------------------------------------------ steps

  /** `Issue` is a command of any task, its tick count read at the unbounded time
      `issuedAt`, joining the queue now. */
  datatype Step =
    | Tick
    | IssueStart(timer: TimerId, issuedAt: nat)
    | Issue(command: Command)
    | PollStep
    | ExpireStep
    | ReceiveStep
    | HandleStep

  predicate Enabled(s: State, step: Step) {
    match step
    case Tick => true
    case IssueStart(t, at) => t in s.timers && at <= s.now && |s.queue| < s.capacity
    case Issue(c) => CommandOk(s, c) && !c.Start? && |s.queue| < s.capacity
    case PollStep => s.pc.Polling?
    case ExpireStep => s.pc.Expiring?
    case ReceiveStep => s.pc.Draining?
    case HandleStep => s.pc.Handling?
  }

  ghost function Next(s: State, step: Step): State
    requires Valid(s) && Enabled(s, step)
  {
    match step
    case Tick => s.(now := s.now + 1)
    case IssueStart(t, at) => s.(queue := s.queue + [Start(t, Low(at, s.m))])
    case Issue(c) => s.(queue := s.queue + [c])
    case PollStep => Poll(s)
    case ExpireStep => Expire(s)
    case ReceiveStep => Receive(s)
    case HandleStep => Handle(s)
  }

  lemma PollKeepsValid(s: State)
    requires Valid(s)
    ensures Valid(Poll(s))
  {
    PollKeepsLists(s);
    SampleFrame(s);
    SwitchListsKeepsQueue(s);
  }

  lemma ExpireKeepsValid(s: State)
    requires Valid(s) && s.pc.Expiring?
    ensures Valid(Expire(s))
  {
    TailKeepsListsOk(s);
    var r := s.(current := s.current[1..], pc := Draining);
    assert QueueOk(r);
    ReloadExpiredKeeps(r, s.current[0], s.pc.expiry, s.pc.timeNow);
    CallKeepsValid(ReloadExpired(r, s.current[0], s.pc.expiry, s.pc.timeNow), s.current[0], s.pc.expiry);
  }

  lemma CallKeepsValid(s: State, t: TimerId, due: nat)
    requires Valid(s)
    ensures Valid(Call(s, t, due))
  {
  }

  lemma ReceiveKeepsValid(s: State)
    requires Valid(s)
    ensures Valid(Receive(s))
  {
    ReceiveKeepsLists(s);
  }

  lemma IssueKeepsValid(s: State, c: Command)
    requires Valid(s) && CommandOk(s, c)
    ensures Valid(s.(queue := s.queue + [c]))
  {
  }

  /** Every step keeps both lists sorted and apart, and every command well formed. */
  lemma StepKeepsValid(s: State, step: Step)
    requires Valid(s) && Enabled(s, step)
    ensures Valid(Next(s, step))
  {
    match step
    case Tick =>
    case IssueStart(t, at) => IssueKeepsValid(s, Start(t, Low(at, s.m)));
    case Issue(c) => IssueKeepsValid(s, c);
    case PollStep => PollKeepsValid(s);
    case ExpireStep => ExpireKeepsValid(s);
    case ReceiveStep => ReceiveKeepsValid(s);
    case HandleStep => HandleKeeps(s);
  }
}
