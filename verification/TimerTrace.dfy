/** What one timer does over whole runs: it is called once for every period, in order and
    never early, however the daemon reaches its expiry times. */
module TimerTrace {
  import opened Lists
  import opened Ticks
  import opened Timers

  // ------------------------------------------------------------------ placement is exact

  /** `prvInsertTimerInActiveList` decides by N-bit comparisons what unbounded time
      decides: a timer is expired exactly when its expiry time is not after now, and
      otherwise goes onto the list of the wrap period its expiry time lies in. */
  lemma PlacementIsExact(c: nat, p: nat, now: nat, m: nat)
    requires 0 < p < m && c <= now < c + m
    ensures var place := PlaceFor(Low(c + p, m), Low(now, m), Low(c, m), p, m);
            && (place == Immediately <==> c + p <= now)
            && (place == InCurrent <==> now < c + p && Origin(c + p, m) == Origin(now, m))
            && (place == InOverflow <==> now < c + p && Origin(c + p, m) == Origin(now, m) + m)
  {
    LowSub(now, c, m);
    LowAdd(c, p, m);
    OriginNear(now, c + p, m);
    OriginNear(c, now, m);
  }

  /** A changed period never expires at once, so ignoring the answer loses nothing. */
  lemma ChangedPeriodIsFuture(now: nat, p: nat, m: nat)
    requires 0 < p < m
    ensures PlaceFor(WrapAdd(Low(now, m), p, m), Low(now, m), Low(now, m), p, m) != Immediately
  {
  }

  /** A timer is expired at most one wrap period late or not yet; comparing N-bit values
      of one wrap period compares the times. */
  lemma SameOrigin(d: nat, t: nat, m: nat)
    requires m > 0 && Origin(d, m) == Origin(t, m)
    ensures Low(d, m) <= Low(t, m) <==> d <= t
    ensures d < t + m && t < d + m
  {
  }

  // ------------------------------------------------------------------ one timer's share

  function CommandsFor(q: seq<Command>, t: TimerId): seq<Command> {
    if q == [] then [] else (if q[0].timer == t then [q[0]] else []) + CommandsFor(q[1..], t)
  }

  lemma {:induction false} CommandsForAppend(q: seq<Command>, c: Command, t: TimerId)
    ensures CommandsFor(q + [c], t) == CommandsFor(q, t) + if c.timer == t then [c] else []
  {
    var last := if c.timer == t then [c] else [];
    if q == [] {
      assert [c][1..] == [];
    } else {
      var first, rest := if q[0].timer == t then [q[0]] else [], CommandsFor(q[1..], t);
      CommandsForAppend(q[1..], c, t);
      assert (q + [c])[1..] == q[1..] + [c] && (q + [c])[0] == q[0];
      assert first + (rest + last) == (first + rest) + last;
    }
  }

  function CallsOf(log: seq<Callback>, t: TimerId): seq<Callback> {
    if log == [] then []
    else CallsOf(log[..|log| - 1], t) + if log[|log| - 1].timer == t then [log[|log| - 1]] else []
  }

  lemma CallsOfAppend(log: seq<Callback>, c: Callback, t: TimerId)
    ensures CallsOf(log + [c], t) == CallsOf(log, t) + if c.timer == t then [c] else []
  {
    assert (log + [c])[..|log|] == log;
  }

  /** The k-th expiry time of a timer started at c; the 0-th is the start itself. */
  ghost function Due(c: nat, p: nat, k: nat): nat {
    if k == 0 then c else Due(c, p, k - 1) + p
  }

  lemma {:induction false} DueIs(c: nat, p: nat, k: nat)
    ensures Due(c, p, k) == c + k * p
  {
    if k > 0 {
      DueIs(c, p, k - 1);
      assert k * p == (k - 1) * p + p;
    }
  }

  predicate Handles(s: State, t: TimerId) {
    s.pc.Handling? && s.pc.command.timer == t
  }

  /** Timer t will next expire at the unbounded time d: it is on the list of d's wrap
      period, or its one command is waiting or being handled. */
  ghost predicate Pending(s: State, t: TimerId, d: nat, p: nat)
    requires s.m > 0 && p <= d
  {
    var q := CommandsFor(s.queue, t);
    if t in s.current then
      t in s.value && q == [] && !Handles(s, t) && s.value[t] == Low(d, s.m) && Origin(d, s.m) == Origin(s.last, s.m)
        && d - p <= s.now
    else if t in s.overflow then
      t in s.value && q == [] && !Handles(s, t) && s.value[t] == Low(d, s.m)
        && Origin(d, s.m) == Origin(s.last, s.m) + s.m && d - p <= s.now
    else if Handles(s, t) then
      q == [] && s.pc.command == Start(t, Low(d - p, s.m)) && d - p <= s.now
    else q == [Start(t, Low(d - p, s.m))] && d - p <= s.now
  }

  /** No list, command or daemon knows the timer. */
  ghost predicate Dormant(s: State, t: TimerId) {
    t !in s.current && t !in s.overflow && !Handles(s, t) && CommandsFor(s.queue, t) == []
  }

  /** The calls made since the first `skip` are those due at c + p, c + 2p, ..., none early. */
  ghost predicate InTime(calls: seq<Callback>, skip: nat, c: nat, p: nat, m: nat)
    requires m > 0 && skip <= |calls|
  {
    var n := |calls|;
    n == skip || (
      && InTime(calls[..n - 1], skip, c, p, m)
      && calls[n - 1].due == Low(Due(c, p, n - skip), m)
      && Due(c, p, n - skip) <= calls[n - 1].at)
  }

  /** A timer started at time c, with `skip` calls behind it. */
  datatype Started = Started(t: TimerId, c: nat, skip: nat, timer: Timer)

  /** The calls of the timer since its start. */
  function Count(s: State, z: Started): int {
    |CallsOf(s.log, z.t)| - z.skip
  }

  /** What has happened so far. */
  ghost predicate History(s: State, z: Started) {
    && s.m > 0 && 0 < z.timer.period < s.m
    && z.t in s.timers && s.timers[z.t] == z.timer
    && Count(s, z) >= 0
    && InTime(CallsOf(s.log, z.t), z.skip, z.c, z.timer.period, s.m)
  }

  /** A one-shot timer is done once it has been called. */
  predicate Live(s: State, z: Started) {
    z.timer.autoReload || Count(s, z) == 0
  }

  /** The time timer z is next due. */
  ghost function NextDue(s: State, z: Started): nat
    requires Count(s, z) >= 0
  {
    Due(z.c, z.timer.period, Count(s, z) + 1)
  }

  ghost predicate Tracked(s: State, z: Started) {
    && History(s, z)
    && if Live(s, z) then Pending(s, z.t, NextDue(s, z), z.timer.period)
       else Count(s, z) == 1 && Dormant(s, z.t)
  }

  // ------------------------------------------------------------------ two ways a step can touch it

  /** Nothing about timer t changed. */
  ghost predicate Unmoved(s: State, s': State, t: TimerId) {
    && s'.m == s.m && s'.last == s.last && s.now <= s'.now
    && (t in s'.current <==> t in s.current)
    && (t in s'.overflow <==> t in s.overflow)
    && (t in s.value ==> t in s'.value && s'.value[t] == s.value[t])
    && CommandsFor(s'.queue, t) == CommandsFor(s.queue, t)
    && (Handles(s', t) <==> Handles(s, t)) && (Handles(s, t) ==> s'.pc == s.pc)
    && (t in s.timers ==> t in s'.timers && s'.timers[t] == s.timers[t])
    && CallsOf(s'.log, t) == CallsOf(s.log, t)
  }

  lemma UnmovedKeepsTracked(s: State, s': State, z: Started)
    requires Tracked(s, z) && Unmoved(s, s', z.t)
    ensures Tracked(s', z)
  {
  }

  lemma CalledKeepsHistory(s: State, s': State, z: Started, at: nat)
    requires History(s, z) && s'.m == s.m && z.t in s'.timers && s'.timers[z.t] == z.timer
    requires CallsOf(s'.log, z.t) == CallsOf(s.log, z.t) + [Callback(z.t, Low(NextDue(s, z), s.m), at)]
    requires NextDue(s, z) <= at
    ensures History(s', z) && Count(s', z) == Count(s, z) + 1 && NextDue(s', z) == NextDue(s, z) + z.timer.period
  {
    var calls' := CallsOf(s'.log, z.t);
    assert calls'[..|calls'| - 1] == CallsOf(s.log, z.t);
  }

  /** Timer t was called once for its due time, and is pending for the next one. */
  lemma CalledKeepsTracked(s: State, s': State, z: Started, at: nat)
    requires History(s, z) && Live(s, z)
    requires s'.m == s.m && z.t in s'.timers && s'.timers[z.t] == z.timer
    requires CallsOf(s'.log, z.t) == CallsOf(s.log, z.t) + [Callback(z.t, Low(NextDue(s, z), s.m), at)]
    requires NextDue(s, z) <= at
    requires if z.timer.autoReload then Pending(s', z.t, NextDue(s, z) + z.timer.period, z.timer.period)
            else Dormant(s', z.t)
    ensures Tracked(s', z)
  {
    CalledKeepsHistory(s, s', z, at);
  }

  // ------------------------------------------------------------------ switching the lists

  lemma UnmovedTwice(a: State, b: State, c: State, t: TimerId)
    requires Unmoved(a, b, t) && Unmoved(b, c, t)
    ensures Unmoved(a, c, t)
  {
  }

  lemma CallMisses(s: State, h: TimerId, due: nat, t: TimerId)
    requires h != t
    ensures Unmoved(s, Call(s, h, due), t)
  {
    CallsOfAppend(s.log, Callback(h, due, s.now), t);
  }

  lemma PostMisses(s: State, c: Command, t: TimerId)
    requires c.timer != t
    ensures Unmoved(s, Post(s, c), t)
  {
    CommandsForAppend(s.queue, c, t);
  }

  lemma InsertMisses(s: State, h: TimerId, next: nat, place: Place, t: TimerId)
    requires ListsOk(s) && h in s.timers && h !in s.current && h !in s.overflow && next < s.m && h != t
    ensures Unmoved(s, InsertTimer(s, h, next, place), t)
  {
    InsertKeepsListsOk(s, h, next, place);
  }

  lemma ReloadMisses(s: State, h: TimerId, due: nat, t: TimerId)
    requires ListsOk(s) && h in s.timers && h !in s.current && h !in s.overflow && due < s.m && h != t
    ensures Unmoved(s, Reload(s, h, due), t)
  {
    InsertMisses(s, h, WrapAdd(due, s.timers[h].period, s.m), InCurrent, t);
    PostMisses(s, Start(h, due), t);
  }

  lemma SwitchOneMissesTimer(s: State, t: TimerId)
    requires ListsOk(s) && s.current != [] && s.current[0] != t
    ensures Unmoved(s, SwitchOne(s), t)
  {
    TailKeepsListsOk(s);
    var h := s.current[0];
    CallMisses(s.(current := s.current[1..]), h, s.value[h], t);
    ReloadMisses(CallHead(s), h, s.value[h], t);
    UnmovedTwice(s, CallHead(s), SwitchOne(s), t);
  }

  /** A timer of the current list expires in its wrap period, so its reload time goes back
      onto the list exactly when it lies in the same one. */
  lemma ReloadIsPending(s: State, t: TimerId, d: nat)
    requires ListsOk(s) && t in s.timers && Dormant(s, t)
    requires Origin(d, s.m) == Origin(s.last, s.m) && d <= s.now && !Reload(s, t, Low(d, s.m)).failed
    ensures var r, p := Reload(s, t, Low(d, s.m)), s.timers[t].period;
            if s.timers[t].autoReload then Pending(r, t, d + p, p) else r == s
  {
    var p := s.timers[t].period;
    LowAdd(d, p, s.m);
    if s.timers[t].autoReload {
      if Low(d + p, s.m) > Low(d, s.m) {
        ListedIsPending(s, t, d + p, p, InCurrent);
      } else {
        PostedIsPending(s, t, d, p);
      }
    }
  }

  lemma SwitchOneReloads(s: State, t: TimerId, d: nat)
    requires ListsOk(s) && s.current != [] && s.current[0] == t
    requires s.timers[t].period <= d <= s.now && Pending(s, t, d, s.timers[t].period) && !SwitchOne(s).failed
    ensures var p := s.timers[t].period;
            if s.timers[t].autoReload then Pending(SwitchOne(s), t, d + p, p) else Dormant(SwitchOne(s), t)
    ensures SwitchOne(s).log == s.log + [Callback(t, Low(d, s.m), s.now)]
  {
    TailKeepsListsOk(s);
    assert Dormant(CallHead(s), t);
    ReloadIsPending(CallHead(s), t, d);
  }

  /** A tracked timer of the current list is live, and due in the current wrap period. */
  lemma ListedIsLive(s: State, z: Started)
    requires Tracked(s, z) && z.t in s.current
    ensures Live(s, z)
    ensures z.timer.period <= NextDue(s, z) && Pending(s, z.t, NextDue(s, z), z.timer.period)
    ensures Origin(NextDue(s, z), s.m) == Origin(s.last, s.m) && z.t in s.value
    ensures s.value[z.t] == Low(NextDue(s, z), s.m)
  {
  }

  lemma SwitchOneCallsTimer(s: State, z: Started)
    requires ListsOk(s) && s.current != [] && s.current[0] == z.t && Tracked(s, z)
    requires Origin(s.last, s.m) + s.m <= s.now && !SwitchOne(s).failed
    ensures Tracked(SwitchOne(s), z)
  {
    ListedIsLive(s, z);
    var d := NextDue(s, z);
    assert s.timers[z.t] == z.timer;
    SwitchOneReloads(s, z.t, d);
    CallsOfAppend(s.log, Callback(z.t, Low(d, s.m), s.now), z.t);
    CalledKeepsTracked(s, SwitchOne(s), z, s.now);
  }

  lemma SwitchOneKeepsTracked(s: State, z: Started)
    requires ListsOk(s) && s.current != [] && Tracked(s, z)
    requires Origin(s.last, s.m) + s.m <= s.now && !SwitchOne(s).failed
    ensures Tracked(SwitchOne(s), z)
  {
    if s.current[0] == z.t {
      SwitchOneCallsTimer(s, z);
    } else {
      SwitchOneMissesTimer(s, z.t);
      UnmovedKeepsTracked(s, SwitchOne(s), z);
    }
  }

  lemma SwapKeepsTracked(s: State, z: Started)
    requires s.current == [] && Tracked(s, z) && Origin(s.now, s.m) == Origin(s.last, s.m) + s.m
    ensures Tracked(s.(current := s.overflow, overflow := [], last := s.now), z)
  {
  }

  lemma SwitchUnfolds(s: State)
    requires ListsOk(s) && s.current != []
    ensures var one := SwitchOne(s);
            && ListsOk(one) && one.now == s.now && one.last == s.last && one.m == s.m
            && SwitchLists(s) == SwitchLists(one)
            && (one.failed ==> SwitchLists(s).failed)
            && Distance(one.current, one.value, s.m) < Distance(s.current, s.value, s.m)
  {
    SwitchOneKeepsListsOk(s);
    SwitchOneGetsCloser(s);
    SwitchListsFrame(SwitchOne(s));
  }

  lemma {:induction false} SwitchListsKeepsTracked(s: State, z: Started)
    requires ListsOk(s) && Tracked(s, z) && Origin(s.now, s.m) == Origin(s.last, s.m) + s.m
    requires !SwitchLists(s).failed
    ensures Tracked(SwitchLists(s).(last := s.now), z)
    decreases Distance(s.current, s.value, s.m)
  {
    if s.current == [] {
      SwapKeepsTracked(s, z);
    } else {
      SwitchUnfolds(s);
      SwitchOneKeepsTracked(s, z);
      SwitchListsKeepsTracked(SwitchOne(s), z);
    }
  }

  lemma SampleKeepsTracked(s: State, z: Started)
    requires ListsOk(s) && Tracked(s, z) && s.last <= s.now < s.last + s.m
    requires !Sample(s).failed
    ensures Tracked(Sample(s), z)
  {
    LowSub(s.now, s.last, s.m);
    if MustSwitch(s) { SwitchListsKeepsTracked(s, z); }
  }

  lemma PollKeepsTracked(s: State, z: Started)
    requires ListsOk(s) && s.pc.Polling? && Tracked(s, z) && s.last <= s.now < s.last + s.m && !Poll(s).failed
    ensures Tracked(Poll(s), z)
  {
    SampleKeepsTracked(s, z);
    SampleFrame(s);
    UnmovedKeepsTracked(Sample(s), Poll(s), z);
  }

  // ------------------------------------------------------------------ an expired timer

  lemma ReloadExpiredMisses(s: State, h: TimerId, e: nat, timeNow: nat, t: TimerId)
    requires ListsOk(s) && h in s.timers && h !in s.current && h !in s.overflow && e < s.m && timeNow < s.m && h != t
    ensures Unmoved(s, ReloadExpired(s, h, e, timeNow), t)
  {
    var next := WrapAdd(e, s.timers[h].period, s.m);
    var place := PlaceFor(next, timeNow, e, s.timers[h].period, s.m);
    InsertMisses(s, h, next, place, t);
    PostMisses(InsertTimer(s, h, next, place), Start(h, e), t);
    if s.timers[h].autoReload && place == Immediately {
      UnmovedTwice(s, InsertTimer(s, h, next, place), ReloadExpired(s, h, e, timeNow), t);
    }
  }

  lemma ExpireMissesTimer(s: State, t: TimerId)
    requires Valid(s) && s.pc.Expiring? && s.current[0] != t
    ensures Unmoved(s, Expire(s), t)
  {
    var h := s.current[0];
    TailKeepsListsOk(s);
    var tail := s.(current := s.current[1..], pc := Draining);
    var reloaded := ReloadExpired(tail, h, s.pc.expiry, s.pc.timeNow);
    ReloadExpiredMisses(tail, h, s.pc.expiry, s.pc.timeNow, t);
    UnmovedTwice(s, tail, reloaded, t);
    CallMisses(reloaded, h, s.pc.expiry, t);
    UnmovedTwice(s, reloaded, Expire(s), t);
  }

  /** On the list of its wrap period, a timer is pending. */
  lemma ListedIsPending(s: State, t: TimerId, d: nat, p: nat, place: Place)
    requires ListsOk(s) && t in s.timers && Dormant(s, t) && p <= d <= s.now + p
    requires place != Immediately
    requires Origin(d, s.m) == if place == InCurrent then Origin(s.last, s.m) else Origin(s.last, s.m) + s.m
    ensures Pending(InsertTimer(s, t, Low(d, s.m), place), t, d, p)
  {
    InsertKeepsListsOk(s, t, Low(d, s.m), place);
  }

  /** With a start command of its last expiry time in the queue, a timer is pending. */
  lemma PostedIsPending(s: State, t: TimerId, d: nat, p: nat)
    requires s.m > 0 && d <= s.now && |s.queue| < s.capacity && Dormant(s, t)
    ensures Pending(Post(s, Start(t, Low(d, s.m))), t, d + p, p)
  {
    CommandsForAppend(s.queue, Start(t, Low(d, s.m)), t);
  }

  /** Placement relative to a command time, as the calling code computes it. */
  lemma NextPlacement(c: nat, p: nat, now: nat, m: nat)
    requires 0 < p < m && c <= now < c + m
    ensures var next := WrapAdd(Low(c, m), p, m);
            var place := PlaceFor(next, Low(now, m), Low(c, m), p, m);
            && next == Low(c + p, m)
            && (place == Immediately <==> c + p <= now)
            && (place != Immediately ==>
                  Origin(c + p, m) == if place == InCurrent then Origin(now, m) else Origin(now, m) + m)
  {
    LowAdd(c, p, m);
    PlacementIsExact(c, p, now, m);
  }

  lemma ReloadExpiredIs(s: State, t: TimerId, d: nat) returns (place: Place)
    requires ListsOk(s) && t in s.timers && s.timers[t].autoReload
    requires Origin(d, s.m) == Origin(s.last, s.m) && d <= s.last
    ensures var next := Low(d + s.timers[t].period, s.m);
            ReloadExpired(s, t, Low(d, s.m), Low(s.last, s.m)) ==
              if place == Immediately then Post(s.(value := s.value[t := next]), Start(t, Low(d, s.m)))
              else InsertTimer(s, t, next, place)
    ensures place == Immediately && !ReloadExpired(s, t, Low(d, s.m), Low(s.last, s.m)).failed ==>
            |s.queue| < s.capacity
    ensures place != Immediately ==>
              Origin(d + s.timers[t].period, s.m) ==
                if place == InCurrent then Origin(s.last, s.m) else Origin(s.last, s.m) + s.m
  {
    var p := s.timers[t].period;
    NextPlacement(d, p, s.last, s.m);
    place := PlaceFor(WrapAdd(Low(d, s.m), p, s.m), Low(s.last, s.m), Low(d, s.m), p, s.m);
  }

  /** Inserted relative to its old expiry time d, which is not after the last sample. */
  lemma ReloadExpiredIsPending(s: State, t: TimerId, d: nat)
    requires ListsOk(s) && t in s.timers && s.timers[t].autoReload && Dormant(s, t) && s.last <= s.now
    requires Origin(d, s.m) == Origin(s.last, s.m) && d <= s.last
    requires !ReloadExpired(s, t, Low(d, s.m), Low(s.last, s.m)).failed
    ensures Pending(ReloadExpired(s, t, Low(d, s.m), Low(s.last, s.m)), t, d + s.timers[t].period, s.timers[t].period)
  {
    var p := s.timers[t].period;
    var place := ReloadExpiredIs(s, t, d);
    if place == Immediately {
      PostedIsPending(s.(value := s.value[t := Low(d + p, s.m)]), t, d, p);
    } else {
      ListedIsPending(s, t, d + p, p, place);
    }
  }

  lemma ExpiredHead(s: State, t: TimerId, d: nat)
    requires Valid(s) && s.pc.Expiring? && s.current[0] == t
    requires s.timers[t].period <= d && Pending(s, t, d, s.timers[t].period)
    ensures var tail := s.(current := s.current[1..], pc := Draining);
            ListsOk(tail) && Dormant(tail, t)
    ensures d <= s.last && Origin(d, s.m) == Origin(s.last, s.m)
    ensures s.pc.expiry == Low(d, s.m) && s.pc.timeNow == Low(s.last, s.m)
  {
    TailKeepsListsOk(s);
    SameOrigin(d, s.last, s.m);
  }

  lemma ExpireIs(s: State, t: TimerId, d: nat)
    requires Valid(s) && s.pc.Expiring? && s.current[0] == t
    requires s.timers[t].period <= d && Pending(s, t, d, s.timers[t].period)
    ensures var tail := s.(current := s.current[1..], pc := Draining);
            && ListsOk(tail) && Dormant(tail, t) && d <= s.last && Origin(d, s.m) == Origin(s.last, s.m)
            && Expire(s) == Call(ReloadExpired(tail, t, Low(d, s.m), Low(s.last, s.m)), t, Low(d, s.m))
  {
    ExpiredHead(s, t, d);
  }

  lemma ReloadExpiredFrame(s: State, t: TimerId, e: nat, timeNow: nat)
    requires ListsOk(s) && t in s.timers && e < s.m && timeNow < s.m
    ensures var r := ReloadExpired(s, t, e, timeNow);
            r.m == s.m && r.timers == s.timers && r.log == s.log && r.now == s.now
  {
  }

  lemma ExpireReloads(s: State, t: TimerId, d: nat)
    requires Valid(s) && s.pc.Expiring? && s.current[0] == t && !Expire(s).failed
    requires s.timers[t].period <= d && Pending(s, t, d, s.timers[t].period)
    ensures var r, p := Expire(s), s.timers[t].period;
            && r.m == s.m && r.timers == s.timers && d <= s.last
            && r.log == s.log + [Callback(t, Low(d, s.m), s.now)]
            && if s.timers[t].autoReload then Pending(r, t, d + p, p) else Dormant(r, t)
  {
    ExpireIs(s, t, d);
    var tail := s.(current := s.current[1..], pc := Draining);
    ReloadExpiredFrame(tail, t, Low(d, s.m), Low(s.last, s.m));
    if s.timers[t].autoReload { ReloadExpiredIsPending(tail, t, d); }
  }

  lemma ExpireCallsTimer(s: State, z: Started)
    requires Valid(s) && s.pc.Expiring? && s.current[0] == z.t && Tracked(s, z) && !Expire(s).failed
    ensures Tracked(Expire(s), z)
  {
    ListedIsLive(s, z);
    var d := NextDue(s, z);
    assert s.timers[z.t] == z.timer;
    ExpireReloads(s, z.t, d);
    var r, c := Expire(s), Callback(z.t, Low(d, s.m), s.now);
    assert r.log == s.log + [c];
    CallsOfAppend(s.log, c, z.t);
    CalledKeepsTracked(s, r, z, s.now);
  }

  lemma ExpireKeepsTracked(s: State, z: Started)
    requires Valid(s) && s.pc.Expiring? && Tracked(s, z) && !Expire(s).failed
    ensures Tracked(Expire(s), z)
  {
    if s.current[0] == z.t {
      ExpireCallsTimer(s, z);
    } else {
      ExpireMissesTimer(s, z.t);
      UnmovedKeepsTracked(s, Expire(s), z);
    }
  }

  // ------------------------------------------------------------------ commands

  lemma ReceiveMissesTimer(s: State, t: TimerId)
    requires Valid(s) && s.pc.Draining? && (s.queue == [] || s.queue[0].timer != t)
    ensures Unmoved(s, Receive(s), t)
  {
    if s.queue != [] {
      RemoveFacts(s.current, s.queue[0].timer);
      RemoveFacts(s.overflow, s.queue[0].timer);
    }
  }

  lemma ReceiveTakesCommand(s: State, t: TimerId, d: nat, p: nat)
    requires Valid(s) && s.pc.Draining? && s.queue != [] && s.queue[0].timer == t && p <= d && Pending(s, t, d, p)
    ensures Pending(Receive(s), t, d, p)
  {
    assert CommandsFor(s.queue, t) == [s.queue[0]] + CommandsFor(s.queue[1..], t);
    assert CommandsFor(s.queue, t) != [] && s.queue[0] == CommandsFor(s.queue, t)[0];
    assert CommandsFor(s.queue[1..], t) == [];
  }

  lemma ReceiveKeepsTracked(s: State, z: Started)
    requires Valid(s) && s.pc.Draining? && Tracked(s, z)
    ensures Tracked(Receive(s), z)
  {
    if s.queue != [] && s.queue[0].timer == z.t {
      ReceiveTakesCommand(s, z.t, NextDue(s, z), z.timer.period);
    } else {
      ReceiveMissesTimer(s, z.t);
      UnmovedKeepsTracked(s, Receive(s), z);
    }
  }

  lemma IssueKeepsTracked(s: State, c: Command, z: Started)
    requires Tracked(s, z) && c.timer != z.t
    ensures Tracked(s.(queue := s.queue + [c]), z)
  {
    CommandsForAppend(s.queue, c, z.t);
  }

  /** A timer off the current list takes no part in a switch. */
  lemma {:induction false} SwitchListsMisses(s: State, t: TimerId)
    requires ListsOk(s) && t !in s.current
    ensures CallsOf(SwitchLists(s).log, t) == CallsOf(s.log, t)
    ensures CommandsFor(SwitchLists(s).queue, t) == CommandsFor(s.queue, t)
    decreases Distance(s.current, s.value, s.m)
  {
    if s.current != [] {
      SwitchUnfolds(s);
      SwitchOneMissesTimer(s, t);
      SwitchListsMisses(SwitchOne(s), t);
    }
  }

  lemma HandleStartMisses(s: State, h: TimerId, issued: nat, t: TimerId)
    requires ListsOk(s) && h in s.timers && h !in s.current && h !in s.overflow && issued < s.m && h != t
    ensures Unmoved(s, HandleStart(s, h, issued), t)
  {
    var next := WrapAdd(issued, s.timers[h].period, s.m);
    var place := PlaceFor(next, Low(s.last, s.m), issued, s.timers[h].period, s.m);
    var inserted := InsertTimer(s, h, next, place);
    InsertMisses(s, h, next, place, t);
    CallMisses(inserted, h, next, t);
    PostMisses(Call(inserted, h, next), Start(h, next), t);
  }

  lemma HandleChangePeriodMisses(s: State, h: TimerId, period: nat, t: TimerId)
    requires ListsOk(s) && h in s.timers && h !in s.current && h !in s.overflow && period < s.m && h != t
    ensures Unmoved(s, HandleChangePeriod(s, h, period), t)
  {
    if period > 0 {
      NewPeriodKeepsListsOk(s, h, period);
      var changed := s.(timers := s.timers[h := s.timers[h].(period := period)]);
      var timeNow := Low(s.last, s.m);
      var next := WrapAdd(timeNow, period, s.m);
      InsertMisses(changed, h, next, PlaceFor(next, timeNow, timeNow, period, s.m), t);
    }
  }

  lemma FailedSampleFails(s: State)
    requires Valid(s) && s.pc.Handling? && Sample(s).failed
    ensures Handle(s).failed
  {
    SampledForCommand(s);
  }

  /** What follows the sample leaves another task's timer alone. */
  lemma HandledMisses(s: State, c: Command, t: TimerId)
    requires ListsOk(s) && CommandOk(s, c) && c.timer !in s.current && c.timer !in s.overflow && c.timer != t
    ensures Unmoved(s, Handled(s, c), t)
  {
    match c {
      case Start(h, issued) => HandleStartMisses(s, h, issued, t);
      case Stop(_) =>
      case ChangePeriod(h, period) => HandleChangePeriodMisses(s, h, period, t);
    }
  }

  lemma HandleOtherKeepsTracked(s: State, z: Started)
    requires Valid(s) && s.pc.Handling? && s.pc.command.timer != z.t && Tracked(s, z)
    requires s.now < s.last + s.m && !Handle(s).failed
    ensures Tracked(Handle(s), z)
  {
    var r := Sample(s).(pc := Draining);
    SampledForCommand(s);
    assert !Sample(s).failed by { if Sample(s).failed { FailedSampleFails(s); } }
    assert Sample(s).pc == s.pc by { SampleFrame(s); }
    SampleKeepsTracked(s, z);
    UnmovedKeepsTracked(Sample(s), r, z);
    HandledMisses(r, s.pc.command, z.t);
    UnmovedKeepsTracked(r, Handle(s), z);
  }

  lemma HandleStartIs(s: State, t: TimerId, c: nat) returns (place: Place)
    requires ListsOk(s) && t in s.timers && c <= s.last < c + s.m
    ensures var next := Low(c + s.timers[t].period, s.m);
            HandleStart(s, t, Low(c, s.m)) ==
              if place != Immediately then InsertTimer(s, t, next, place)
              else if s.timers[t].autoReload then Post(Call(s.(value := s.value[t := next]), t, next), Start(t, next))
              else Call(s.(value := s.value[t := next]), t, next)
    ensures place == Immediately <==> c + s.timers[t].period <= s.last
    ensures place == Immediately && s.timers[t].autoReload && !HandleStart(s, t, Low(c, s.m)).failed ==>
            |s.queue| < s.capacity
    ensures place != Immediately ==>
              Origin(c + s.timers[t].period, s.m) ==
                if place == InCurrent then Origin(s.last, s.m) else Origin(s.last, s.m) + s.m
  {
    var p := s.timers[t].period;
    NextPlacement(c, p, s.last, s.m);
    place := PlaceFor(WrapAdd(Low(c, s.m), p, s.m), Low(s.last, s.m), Low(c, s.m), p, s.m);
  }

  lemma ListedKeepsTracked(s: State, z: Started, d: nat, place: Place)
    requires ListsOk(s) && History(s, z) && Live(s, z) && Dormant(s, z.t) && d == NextDue(s, z)
    requires z.timer.period <= d <= s.now + z.timer.period && place != Immediately
    requires Origin(d, s.m) == if place == InCurrent then Origin(s.last, s.m) else Origin(s.last, s.m) + s.m
    ensures Tracked(InsertTimer(s, z.t, Low(d, s.m), place), z)
  {
    ListedIsPending(s, z.t, d, z.timer.period, place);
  }

  /** A start is handled and not called at once when its expiry is still to come. */
  lemma HandleStartLists(s: State, z: Started, c: nat)
    requires ListsOk(s) && History(s, z) && Live(s, z) && Dormant(s, z.t) && NextDue(s, z) == c + z.timer.period
    requires c <= s.last < c + z.timer.period && s.last == s.now
    ensures Tracked(HandleStart(s, z.t, Low(c, s.m)), z)
  {
    var place := HandleStartIs(s, z.t, c);
    ListedKeepsTracked(s, z, c + z.timer.period, place);
  }

  lemma CalledAtStart(s: State, z: Started, d: nat)
    requires ListsOk(s) && History(s, z) && Live(s, z) && Dormant(s, z.t) && d == NextDue(s, z) && d <= s.now
    requires z.timer.autoReload ==> |s.queue| < s.capacity
    ensures var called := Call(s, z.t, Low(d, s.m));
            Tracked(if z.timer.autoReload then Post(called, Start(z.t, Low(d, s.m))) else called, z)
  {
    var called := Call(s, z.t, Low(d, s.m));
    CallsOfAppend(s.log, Callback(z.t, Low(d, s.m), s.now), z.t);
    if z.timer.autoReload {
      PostedIsPending(called, z.t, d, z.timer.period);
      CalledKeepsTracked(s, Post(called, Start(z.t, Low(d, s.m))), z, s.now);
    } else {
      CalledKeepsTracked(s, called, z, s.now);
    }
  }

  /** A start whose expiry has passed is called at once and the expiry after it posted. */
  lemma HandleStartCalls(s: State, z: Started, c: nat)
    requires ListsOk(s) && History(s, z) && Live(s, z) && Dormant(s, z.t) && NextDue(s, z) == c + z.timer.period
    requires c + z.timer.period <= s.last <= s.now && s.last < c + s.m
    requires !HandleStart(s, z.t, Low(c, s.m)).failed
    ensures Tracked(HandleStart(s, z.t, Low(c, s.m)), z)
  {
    var d := c + z.timer.period;
    var place := HandleStartIs(s, z.t, c);
    RevalueKeepsListsOk(s, z.t, Low(d, s.m));
    CalledAtStart(s.(value := s.value[z.t := Low(d, s.m)]), z, d);
  }

  /** The time the timer's waiting start command was issued for. */
  ghost function LastDue(s: State, z: Started): nat
    requires Count(s, z) >= 0
  {
    Due(z.c, z.timer.period, Count(s, z))
  }

  /** After the sample taken for its own start command, a timer is on no list. */
  lemma SampledForOwn(s: State, z: Started)
    requires Valid(s) && s.pc.Handling? && s.pc.command.timer == z.t && Tracked(s, z) && Tracked(Sample(s), z)
    requires Sample(s).pc == s.pc && Sample(s).now == s.now && Count(Sample(s), z) == Count(s, z)
    ensures var r, c := Sample(s).(pc := Draining), LastDue(s, z);
            && History(r, z) && Live(r, z) && Dormant(r, z.t) && NextDue(r, z) == c + z.timer.period
            && c <= s.now && s.pc.command == Start(z.t, Low(c, s.m))
  {
  }

  lemma HandleStartKeepsTracked(s: State, z: Started, c: nat)
    requires ListsOk(s) && History(s, z) && Live(s, z) && Dormant(s, z.t) && NextDue(s, z) == c + z.timer.period
    requires c <= s.now < c + s.m && s.last == s.now
    requires !HandleStart(s, z.t, Low(c, s.m)).failed
    ensures Tracked(HandleStart(s, z.t, Low(c, s.m)), z)
  {
    if c + z.timer.period <= s.now { HandleStartCalls(s, z, c); } else { HandleStartLists(s, z, c); }
  }

  /** The sample before handling the timer's own command keeps it tracked. */
  lemma OwnSampleKeepsTracked(s: State, z: Started)
    requires Valid(s) && s.pc.Handling? && s.pc.command.timer == z.t && Tracked(s, z)
    requires s.now < s.last + s.m && !Handle(s).failed
    ensures Tracked(Sample(s), z) && Sample(s).pc == s.pc && Sample(s).now == s.now
    ensures Count(Sample(s), z) == Count(s, z)
  {
    if Sample(s).failed { FailedSampleFails(s); }
    SampleFrame(s);
    SampleKeepsTracked(s, z);
    SwitchListsMisses(s, z.t);
  }

  lemma HandleOwnKeepsTracked(s: State, z: Started)
    requires Valid(s) && s.pc.Handling? && s.pc.command.timer == z.t && Tracked(s, z)
    requires s.now < s.last + s.m && s.now < LastDue(s, z) + s.m && !Handle(s).failed
    ensures Tracked(Handle(s), z)
  {
    var r, c := Sample(s).(pc := Draining), LastDue(s, z);
    assert ListsOk(r) && r.m == s.m && r.now == r.last == s.now by { SampledForCommand(s); }
    OwnSampleKeepsTracked(s, z);
    SampledForOwn(s, z);
    assert Handle(s) == HandleStart(r, z.t, Low(c, s.m));
    HandleStartKeepsTracked(r, z, c);
  }

  // ------------------------------------------------------------------ whole runs

  /** No further user command goes to timer t. */
  predicate Quiet(step: Step, t: TimerId) {
    match step
    case IssueStart(u, _) => u != t
    case Issue(c) => c.timer != t
    case _ => true
  }

  /** Fewer than 2^N ticks pass between the daemon's samples, and between the time a start
      command names and its handling. */
  ghost predicate Timely(s: State, step: Step, z: Started)
    requires Count(s, z) >= 0
  {
    && (step.PollStep? || step.HandleStep? ==> s.now < s.last + s.m)
    && (step.HandleStep? && Handles(s, z.t) ==> s.now < Due(z.c, z.timer.period, Count(s, z)) + s.m)
  }

  ghost predicate Run(s: State, steps: seq<Step>, s': State, z: Started)
    requires Valid(s)
    decreases |steps|
  {
    if steps == [] then s' == s
    else
      && Enabled(s, steps[0]) && Quiet(steps[0], z.t)
      && Count(s, z) >= 0 && Timely(s, steps[0], z)
      && var next := Next(s, steps[0]);
         StepKeepsValid(s, steps[0]);
         Run(next, steps[1..], s', z)
  }

  lemma StepKeepsTracked(s: State, step: Step, z: Started)
    requires Valid(s) && Enabled(s, step) && Quiet(step, z.t) && Tracked(s, z) && Timely(s, step, z)
    requires !Next(s, step).failed
    ensures Tracked(Next(s, step), z)
  {
    match step
    case Tick => UnmovedKeepsTracked(s, Next(s, step), z);
    case IssueStart(t, at) => IssueKeepsTracked(s, Start(t, Low(at, s.m)), z);
    case Issue(c) => IssueKeepsTracked(s, c, z);
    case PollStep => PollKeepsTracked(s, z);
    case ExpireStep => ExpireKeepsTracked(s, z);
    case ReceiveStep => ReceiveKeepsTracked(s, z);
    case HandleStep =>
      if Handles(s, z.t) { HandleOwnKeepsTracked(s, z); } else { HandleOtherKeepsTracked(s, z); }
  }

  lemma FailedStays(s: State, step: Step)
    requires Valid(s) && Enabled(s, step) && s.failed
    ensures Next(s, step).failed
  {
    if step.PollStep? || step.HandleStep? { SampleFrame(s); }
    if step.HandleStep? { SampledForCommand(s); }
  }

  lemma {:induction false} FailedForGood(s: State, steps: seq<Step>, s': State, z: Started)
    requires Valid(s) && Run(s, steps, s', z) && s.failed
    ensures s'.failed
    decreases |steps|
  {
    if steps != [] {
      StepKeepsValid(s, steps[0]);
      FailedStays(s, steps[0]);
      FailedForGood(Next(s, steps[0]), steps[1..], s', z);
    }
  }

  lemma {:induction false} RunKeepsTracked(s: State, steps: seq<Step>, s': State, z: Started)
    requires Valid(s) && Run(s, steps, s', z) && Tracked(s, z) && !s'.failed
    ensures Valid(s') && Tracked(s', z)
    decreases |steps|
  {
    if steps != [] {
      var next := Next(s, steps[0]);
      StepKeepsValid(s, steps[0]);
      if next.failed { FailedForGood(next, steps[1..], s', z); }
      StepKeepsTracked(s, steps[0], z);
      RunKeepsTracked(next, steps[1..], s', z);
    }
  }

  lemma {:induction false} InTimeAll(calls: seq<Callback>, skip: nat, c: nat, p: nat, m: nat, k: nat)
    requires m > 0 && skip <= |calls| && InTime(calls, skip, c, p, m) && skip + k < |calls|
    ensures calls[skip + k].due == Low(Due(c, p, k + 1), m) && Due(c, p, k + 1) <= calls[skip + k].at
  {
    if skip + k < |calls| - 1 {
      InTimeAll(calls[..|calls| - 1], skip, c, p, m, k);
    }
  }

  /** The daemon has emptied the queue and found nothing due when it last looked. */
  predicate Settled(s: State, lastTick: nat)
    requires Valued(s.current, s.value)
  {
    && s.queue == [] && (s.pc.Draining? || s.pc.Polling?)
    && (s.current != [] ==> lastTick < s.value[s.current[0]])
  }

  lemma SettledMeansNotDue(s: State, z: Started)
    requires ListOk(s.current, s) && Tracked(s, z) && Live(s, z) && Settled(s, Low(s.last, s.m))
    ensures s.last < NextDue(s, z)
  {
  }

  lemma StepKeepsModulus(s: State, step: Step)
    requires Valid(s) && Enabled(s, step)
    ensures Next(s, step).m == s.m
  {
    if step.PollStep? || step.HandleStep? { SampleFrame(s); }
    if step.HandleStep? { SampledForCommand(s); }
  }

  lemma {:induction false} RunKeepsModulus(s: State, steps: seq<Step>, s': State, z: Started)
    requires Valid(s) && Run(s, steps, s', z)
    ensures s'.m == s.m
    decreases |steps|
  {
    if steps != [] {
      StepKeepsValid(s, steps[0]);
      StepKeepsModulus(s, steps[0]);
      RunKeepsModulus(Next(s, steps[0]), steps[1..], s', z);
    }
  }

  /** The state after timer t was started at time c, and what to follow from there. */
  ghost predicate Begins(s0: State, t: TimerId, c: nat, s: State, z: Started) {
    && Valid(s0) && Enabled(s0, IssueStart(t, c)) && Dormant(s0, t)
    && s == Next(s0, IssueStart(t, c))
    && z == Started(t, c, |CallsOf(s0.log, t)|, s0.timers[t])
  }

  lemma StartIsTracked(s0: State, t: TimerId, c: nat, s: State, z: Started)
    requires Begins(s0, t, c, s, z)
    ensures Valid(s) && Tracked(s, z)
  {
    StepKeepsValid(s0, IssueStart(t, c));
    CommandsForAppend(s0.queue, Start(t, Low(c, s0.m)), t);
    assert s.log == s0.log && Count(s, z) == 0;
    assert Due(c, z.timer.period, 0) == c && NextDue(s, z) == c + z.timer.period;
  }

  /** The calls from the `skip`-th on are made for the expiry times `Due` gives, one each
      and in order, none ahead of its time. */
  ghost predicate NeverEarly(calls: seq<Callback>, skip: nat, c: nat, p: nat, m: nat)
    requires m > 0
  {
    forall j :: skip <= j < |calls| ==>
      calls[j].due == Low(Due(c, p, j - skip + 1), m) && Due(c, p, j - skip + 1) <= calls[j].at
  }

  lemma InTimeIsNeverEarly(calls: seq<Callback>, skip: nat, c: nat, p: nat, m: nat)
    requires m > 0 && skip <= |calls| && InTime(calls, skip, c, p, m)
    ensures NeverEarly(calls, skip, c, p, m)
  {
    forall j | skip <= j < |calls|
      ensures calls[j].due == Low(Due(c, p, j - skip + 1), m) && Due(c, p, j - skip + 1) <= calls[j].at
    {
      InTimeAll(calls, skip, c, p, m, j - skip);
    }
  }

  /** Never early and never out of turn: the k-th call is for the k-th expiry time, c + kp,
      and is made at or after that time; an auto-reload timer has been called no more often
      than periods have passed and a one-shot timer at most once. */
  lemma TimerIsNeverEarly(s0: State, t: TimerId, c: nat, s: State, z: Started, steps: seq<Step>, s': State)
    requires Begins(s0, t, c, s, z) && Valid(s) && Run(s, steps, s', z) && !s'.failed
    ensures var skip, p, calls := |CallsOf(s0.log, t)|, s0.timers[t].period, CallsOf(s'.log, t);
            && skip <= |calls| && NeverEarly(calls, skip, c, p, s0.m)
            && if s0.timers[t].autoReload then Due(c, p, |calls| - skip) <= s'.now else |calls| - skip <= 1
  {
    RunFromStart(s0, t, c, s, z, steps, s');
    RunKeepsModulus(s, steps, s', z);
    InTimeIsNeverEarly(CallsOf(s'.log, t), z.skip, c, z.timer.period, s0.m);
    if Live(s', z) { CallsArePast(s', z); }
  }

  lemma CallsArePast(s: State, z: Started)
    requires Tracked(s, z) && Live(s, z)
    ensures Due(z.c, z.timer.period, Count(s, z)) <= s.now
  {
  }

  /** The timer has had a call since its start for every expiry up to the last sample, and a
      one-shot timer for the one it has. */
  ghost predicate Complete(s: State, z: Started) {
    var n, p := Count(s, z), z.timer.period;
    && n >= 0
    && if z.timer.autoReload then s.last < Due(z.c, p, n + 1) else n <= 1 && (Due(z.c, p, 1) <= s.last ==> n == 1)
  }

  /** Nothing is skipped: whenever the daemon has settled, every expiry up to its last look
      at the clock has had its call.  A one-shot timer has exactly one. */
  lemma TimerSkipsNothing(s0: State, t: TimerId, c: nat, s: State, z: Started, steps: seq<Step>, s': State)
    requires Begins(s0, t, c, s, z) && Valid(s) && Run(s, steps, s', z) && !s'.failed
    requires Valid(s') && Settled(s', Low(s'.last, s'.m))
    ensures Complete(s', z)
  {
    RunFromStart(s0, t, c, s, z, steps, s');
    SettledIsComplete(s', z);
  }

  lemma RunFromStart(s0: State, t: TimerId, c: nat, s: State, z: Started, steps: seq<Step>, s': State)
    requires Begins(s0, t, c, s, z) && Valid(s) && Run(s, steps, s', z) && !s'.failed
    ensures Valid(s') && Tracked(s', z)
  {
    StartIsTracked(s0, t, c, s, z);
    RunKeepsTracked(s, steps, s', z);
  }

  lemma SettledIsComplete(s: State, z: Started)
    requires ListOk(s.current, s) && Tracked(s, z) && Settled(s, Low(s.last, s.m))
    ensures Complete(s, z)
  {
    if Live(s, z) { SettledMeansNotDue(s, z); }
  }

  // ------------------------------------------------------------------ switching in order

  ghost predicate InDueOrder(log: seq<Callback>, from: nat, low: nat) {
    forall i :: from <= i < |log| ==> low <= log[i].due && (from < i ==> log[i - 1].due <= log[i].due)
  }

  lemma SwitchOneOrder(s: State)
    requires ListsOk(s) && s.current != []
    ensures var r := SwitchOne(s);
            && r.log == s.log + [Callback(s.current[0], s.value[s.current[0]], s.now)]
            && ListsOk(r) && (r.current != [] ==> s.value[s.current[0]] <= r.value[r.current[0]])
  {
    assert ListsOk(SwitchOne(s)) by { SwitchOneKeepsListsOk(s); }
    TailKeepsListsOk(s);
    var h, rest := s.current[0], s.current[1..];
    var reload := WrapAdd(s.value[h], s.timers[h].period, s.m);
    assert rest != [] ==> rest[0] != h && s.value[h] <= s.value[rest[0]];
    if reload > s.value[h] { InsertedHead(rest, s.value[h := reload], h, s.value[h]); }
  }

  lemma InsertedHead(l: seq<TimerId>, v: map<TimerId, nat>, x: TimerId, low: nat)
    requires Valued(l, v) && x in v && low <= v[x] && (l != [] ==> low <= v[l[0]])
    ensures Insert(l, v, x) != [] && Insert(l, v, x)[0] in v && low <= v[Insert(l, v, x)[0]]
  {
  }

  /** `prvSwitchTimerLists` ends, leaves the overflow list as the current one, and makes its
      calls in nondecreasing order of expiry, for any timers and periods. */
  lemma {:induction false} SwitchCallsInOrder(s: State)
    requires ListsOk(s)
    ensures var r := SwitchLists(s);
            && r.current == s.overflow && r.overflow == []
            && s.log <= r.log
            && InDueOrder(r.log, |s.log|, if s.current == [] then 0 else s.value[s.current[0]])
            && (s.current != [] ==> |s.log| < |r.log| && r.log[|s.log|].due == s.value[s.current[0]])
    decreases Distance(s.current, s.value, s.m)
  {
    if s.current != [] {
      SwitchUnfolds(s);
      SwitchOneOrder(s);
      SwitchOneKeepsListsOk(s);
      SwitchCallsInOrder(SwitchOne(s));
    }
  }

  // ------------------------------------------------------------------ sleeping

  /** The block time `prvProcessTimerOrBlockTask` computes when nothing is due. */
  ghost function BlockTime(s: State): nat
    requires ListsOk(s)
  {
    WrapSub(if s.current == [] then 0 else s.value[s.current[0]], Low(s.now, s.m), s.m)
  }

  /** The daemon never sleeps past an expiry. */
  lemma SleepsNoLongerThanDue(s: State, z: Started)
    requires Valid(s) && Tracked(s, z) && Live(s, z) && Settled(s, Low(s.last, s.m)) && s.now == s.last
    ensures s.now + BlockTime(s) <= NextDue(s, z)
  {
  }
}
