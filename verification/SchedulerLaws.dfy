/** What callers of the scheduler asked for and what they get: each operation in terms of its arguments,
    and over whole runs who waits for what, in which round a coroutine runs, and who is a daemon. */
module SchedulerLaws {
  import opened Coroutines
  import opened Effects
  import opened SchedulerProofs
  import opened Wrappers

  // ----- waiting -----

  /** Entry `i` of the array is a live signal of coroutine `c`. */
  predicate Awaits(s: State, c: Id, gs: seq<Id>, i: int) {
    0 <= i < |gs| && gs[i] in s.signals && s.signals[gs[i]].owner == c
  }

  /** Entry `i` is the invalid handle, or not raised. */
  predicate Pending(s: State, gs: seq<Id>, i: int)
    requires 0 <= i < |gs|
  {
    gs[i] in s.signals || gs[i] == INVALID
  }

  lemma {:induction false} CountsAwaited(s: State, c: Id, gs: seq<Id>)
    ensures CountOwn(s, c, gs) > 0 <==> exists i :: Awaits(s, c, gs, i)
  {
    if gs != [] {
      var n := |gs| - 1;
      CountsAwaited(s, c, gs[..n]);
      if i :| Awaits(s, c, gs[..n], i) { assert Awaits(s, c, gs, i); }
      if i :| Awaits(s, c, gs, i) && i < n { assert Awaits(s, c, gs[..n], i); }
      if Own(s, c, gs[n]) { assert Awaits(s, c, gs, n); }
    }
  }

  lemma RaisedIsNotPending(s: State, gs: seq<Id>)
    ensures SomeRaised(s, gs) <==> !forall i | 0 <= i < |gs| :: Pending(s, gs, i)
  {
    if SomeRaised(s, gs) {
      var g :| g in gs && g !in s.signals && g != INVALID;
      var i :| 0 <= i < |gs| && gs[i] == g;
      assert !Pending(s, gs, i);
    }
    if i :| 0 <= i < |gs| && !Pending(s, gs, i) { assert gs[i] in gs; }
  }

  /** One of the handles is a live signal of the caller and, unless all are waited for, none was raised before. */
  ghost predicate Suspending(s: State, c: Id, gs: seq<Id>, all: bool) {
    (exists i :: Awaits(s, c, gs, i)) && (all || forall i | 0 <= i < |gs| :: Pending(s, gs, i))
  }

  /** A wait suspends its caller exactly if one of the given handles is a live signal of the caller and,
      unless all are waited for, none of them has been raised before. Otherwise it returns at once. */
  lemma SuspendsIff(s: State, c: Id, gs: seq<Id>, all: bool)
    requires Runs(s, c)
    ensures var s' := WaitForSignals(s, c, gs, all);
      && c in s'.coros
      && (s'.coros[c].status.Waiting? <==> Suspending(s, c, gs, all))
      && (if s'.coros[c].status.Waiting? then s'.running.None? else Runs(s', c))
      && s'.madeReady == s.madeReady && s'.next == s.next && s'.current == s.current && s'.index == s.index
  {
    CountsAwaited(s, c, gs);
    RaisedIsNotPending(s, gs);
    WaitFrame(s, c, gs, all);
  }

  /** It changes nothing but the caller and the epochs of the caller's own signals among those given. */
  lemma WaitTouchesOnly(s: State, c: Id, gs: seq<Id>, all: bool)
    requires Runs(s, c)
    ensures var s' := WaitForSignals(s, c, gs, all);
      && s'.coros.Keys == s.coros.Keys && s'.signals.Keys == s.signals.Keys && s'.monitors == s.monitors
      && (forall d | d in s.coros && d != c :: s'.coros[d] == s.coros[d])
      && (forall g | g in s.signals :: s'.signals[g].owner == s.signals[g].owner)
      && (forall g | g in s.signals && !(g in gs && s.signals[g].owner == c) :: s'.signals[g] == s.signals[g])
      && c in s'.coros && s'.coros[c].signals == s.coros[c].signals && s'.coros[c].monitors == s.coros[c].monitors
      && s'.coros[c].daemon == s.coros[c].daemon
  {
    WaitFrame(s, c, gs, all);
    MarkFrame(s, c, gs, s.coros[c].epoch + 1);
  }

  /** Some live signal of the caller is given twice. */
  ghost predicate Repeats(s: State, c: Id, gs: seq<Id>) {
    exists i, j :: i < j && Awaits(s, c, gs, i) && Awaits(s, c, gs, j) && gs[i] == gs[j]
  }

  lemma RepeatsIff(s: State, c: Id, gs: seq<Id>)
    ensures Repeats(s, c, gs) <==> !DistinctOwn(s, c, gs)
  {
    if Repeats(s, c, gs) {
      var i, j :| i < j && Awaits(s, c, gs, i) && Awaits(s, c, gs, j) && gs[i] == gs[j];
      assert Own(s, c, gs[i]);
    }
    if !DistinctOwn(s, c, gs) {
      var i, j :| 0 <= i < j < |gs| && Own(s, c, gs[i]) && gs[i] == gs[j];
      assert Awaits(s, c, gs, i) && Awaits(s, c, gs, j);
    }
  }

  /** What a suspending wait is recorded as. */
  lemma RecordsWait(s: State, c: Id, gs: seq<Id>, all: bool)
    requires Runs(s, c)
    ensures var s' := WaitForSignals(s, c, gs, all);
      c in s'.coros && s'.coros[c].status.Waiting? ==>
        && c in s'.waits && s'.waits[c].all == all
        && (forall g :: g in s'.waits[c].named <==> exists i :: Awaits(s, c, gs, i) && gs[i] == g)
        && (s'.waits[c].surplus > 0 <==> Repeats(s, c, gs))
  {
    var s' := WaitForSignals(s, c, gs, all);
    WaitFrame(s, c, gs, all);
    CountOwnAtLeastNamed(s, c, gs);
    SurplusIffRepeated(s, c, gs);
    RepeatsIff(s, c, gs);
    forall g ensures g in NamedOwn(s, c, gs) <==> exists i :: Awaits(s, c, gs, i) && gs[i] == g {
      if g in NamedOwn(s, c, gs) {
        var i :| 0 <= i < |gs| && gs[i] == g;
        assert Awaits(s, c, gs, i);
      }
    }
  }

  /** The event resumes coroutine `c`. */
  predicate Resumes(s: State, e: Event, c: Id) {
    e.EResume? && s.index < |s.current| && s.current[s.index] == c
  }

  lemma StepKeepsUnresumed(s: State, e: Event, c: Id)
    requires Inv(s) && Enabled(s, e) && c in s.waits && !Resumes(s, e, c)
    ensures var s' := Apply(s, e); c in s'.waits && s'.waits[c] == s.waits[c]
  {
    InItsWait(s, c);
    WaitLasts(s, e, c);
  }

  lemma {:induction false} WaitStays(events: seq<Event>, states: seq<State>, n: nat, m: nat, c: Id)
    requires IsRun(events, states) && n <= m <= |events| && c in states[n].waits
    requires forall i | n <= i < m :: !Resumes(states[i], events[i], c)
    ensures c in states[m].waits && states[m].waits[c] == states[n].waits[c]
    decreases m
  {
    if n < m {
      WaitStays(events, states, n, m - 1, c);
      SchedulerProofs.RunKeepsInv(events, states, m - 1);
      TraceStep(events, states, m - 1);
      StepKeepsUnresumed(states[m - 1], events[m - 1], c);
    }
  }

  /** Whether a wait for `gs` made by `c` in state `s` still has to go on, now that the live signals are
      those of `t`: for one of the caller's own to be raised, or for all. */
  ghost predicate GoesOn(s: State, c: Id, gs: seq<Id>, all: bool, t: State) {
    if all then Repeats(s, c, gs) || exists i :: Awaits(s, c, gs, i) && gs[i] in t.signals
    else forall i | Awaits(s, c, gs, i) :: gs[i] in t.signals
  }

  lemma BlockedIffGoesOn(s: State, c: Id, gs: seq<Id>, all: bool, w: Wait, t: State)
    requires w.all == all && (w.surplus > 0 <==> Repeats(s, c, gs))
    requires forall g :: g in w.named <==> exists i :: Awaits(s, c, gs, i) && gs[i] == g
    ensures Blocked(w, t.signals) <==> GoesOn(s, c, gs, all, t)
  {
    if all {
      if i :| Awaits(s, c, gs, i) && gs[i] in t.signals { assert gs[i] in LiveNamed(w, t.signals); }
      if g :| g in LiveNamed(w, t.signals) {
        var i :| Awaits(s, c, gs, i) && gs[i] == g;
      }
    } else {
      if Blocked(w, t.signals) {
        forall i | Awaits(s, c, gs, i) ensures gs[i] in t.signals { assert gs[i] in w.named; }
      }
      if GoesOn(s, c, gs, all, t) {
        forall g | g in w.named ensures g in t.signals {
          var i :| Awaits(s, c, gs, i) && gs[i] == g;
        }
        assert LiveNamed(w, t.signals) == w.named;
      }
    }
  }

  /** From the wait to the resumption, in every run: the caller is suspended exactly as long as one of its
      own signals that it gave is live (all), or all of them are (any); then it is queued. A signal given
      twice to a wait for all keeps it suspended. */
  lemma WaitEndsExactly(events: seq<Event>, states: seq<State>, n: nat, m: nat, c: Id, gs: seq<Id>, all: bool)
    requires IsRun(events, states) && n < m <= |events|
    requires events[n] == EWait(gs, all) && states[n].running == Some(c)
    requires c in states[n + 1].coros && states[n + 1].coros[c].status.Waiting?
    requires forall i | n < i < m :: !Resumes(states[i], events[i], c)
    ensures c in states[m].coros
    ensures states[m].coros[c].status.Waiting? <==> GoesOn(states[n], c, gs, all, states[m])
    ensures !states[m].coros[c].status.Waiting? ==> c in Queue(states[m])
  {
    var s, t := states[n], states[m];
    SchedulerProofs.RunKeepsInv(events, states, n);
    TraceStep(events, states, n);
    RunnerRuns(s);
    RecordsWait(s, c, gs, all);
    WaitStays(events, states, n + 1, m, c);
    SchedulerProofs.RunKeepsInv(events, states, m);
    InItsWait(t, c);
    BlockedIffGoesOn(s, c, gs, all, t.waits[c], t);
  }

  // ----- rounds -----

  /** A yielding coroutine is ready again, behind all that are queued for the next round; the present
      round stays as it is. */
  lemma YieldGoesToNextRound(s: State)
    requires Inv(s) && Enabled(s, EYield)
    ensures var s', c := Apply(s, EYield), s.running.value;
      && s'.current == s.current && s'.index == s.index && s'.next == s.next + [c]
      && s'.running.None? && c in s'.coros && s'.coros[c] == s.coros[c].(status := Ready)
      && (forall d | d in s.coros && d != c :: d in s'.coros && s'.coros[d] == s.coros[d])
      && s'.coros.Keys == s.coros.Keys && s'.signals == s.signals && s'.monitors == s.monitors
  {
  }

  /** The lists of rounds from state `s` to `s'`: the present one only runs on, the next one only grows. */
  ghost predicate SameRound(s: State, s': State, resumed: nat) {
    s'.current == s.current && s'.index == s.index + resumed && s.next <= s'.next
  }

  lemma {:induction false} FireMonitorsKeepsRound(s: State, c: Id, ms: seq<Id>)
    ensures SameRound(s, FireMonitors(s, c, ms), 0)
    decreases |ms|
  {
    if ms != [] {
      var s1 := if ms[0] in s.monitors then RaiseSignal(s, s.monitors[ms[0]].signal).0 else s;
      FireMonitorsKeepsRound(Unmonitor(s1, ms[0]), c, ms[1..]);
    }
  }

  lemma DieKeepsRound(s: State, c: Id)
    requires c in s.coros
    ensures SameRound(s, Die(s, c), 0)
  {
    FireMonitorsKeepsCoros(DropSignals(s, c), c, s.coros[c].monitors);
    FireMonitorsKeepsRound(DropSignals(s, c), c, s.coros[c].monitors);
  }

  lemma WaitKeepsRound(s: State, c: Id, gs: seq<Id>, all: bool)
    requires c in s.coros
    ensures SameRound(s, WaitForSignals(s, c, gs, all), 0)
  {
    WaitFrame(s, c, gs, all);
  }

  /** Within a round nothing joins its list: whoever becomes ready runs in the next one. */
  lemma RoundIsFixed(s: State, e: Event)
    requires Enabled(s, e)
    ensures if e.ENextRound? then Apply(s, e).current == s.next && Apply(s, e).index == 0 && Apply(s, e).next == []
      else SameRound(s, Apply(s, e), if e.EResume? then 1 else 0)
  {
    if e.EExit? { DieKeepsRound(s, s.running.value); }
    else if e.EWait? { WaitKeepsRound(s, s.running.value, e.gs, e.all); }
    else { OtherKeepsRound(s, e); }
  }

  lemma OtherKeepsRound(s: State, e: Event)
    requires Enabled(s, e) && !e.EExit? && !e.EWait?
    ensures if e.ENextRound? then Apply(s, e).current == s.next && Apply(s, e).index == 0 && Apply(s, e).next == []
      else SameRound(s, Apply(s, e), if e.EResume? then 1 else 0)
  {
  }

  lemma StepRan(s: State, e: Event)
    requires Enabled(s, e)
    ensures Apply(s, e).ran == if e.EResume? then s.ran + [s.current[s.index]] else s.ran
  {
    if e.EExit? { DieRan(s, s.running.value); }
  }

  lemma DieRan(s: State, c: Id)
    requires c in s.coros
    ensures Die(s, c).ran == s.ran
  {
    FireMonitorsKeepsCoros(DropSignals(s, c), c, s.coros[c].monitors);
    FireMonitorsRan(DropSignals(s, c), c, s.coros[c].monitors);
  }

  lemma {:induction false} FireMonitorsRan(s: State, c: Id, ms: seq<Id>)
    ensures FireMonitors(s, c, ms).ran == s.ran
    decreases |ms|
  {
    if ms != [] {
      var s1 := if ms[0] in s.monitors then RaiseSignal(s, s.monitors[ms[0]].signal).0 else s;
      FireMonitorsRan(Unmonitor(s1, ms[0]), c, ms[1..]);
    }
  }

  /** How far the round that began with event `n` has come: its list is what was queued then. */
  ghost predicate InRound(start: State, s: State) {
    && s.current == start.next && s.index <= |s.current|
    && s.ran == start.ran + start.next[..s.index]
  }

  lemma StepKeepsInRound(start: State, s: State, e: Event)
    requires Enabled(s, e) && InRound(start, s) && !e.ENextRound?
    ensures InRound(start, Apply(s, e))
  {
    RoundIsFixed(s, e);
    StepRan(s, e);
  }

  lemma RoundStarts(events: seq<Event>, states: seq<State>, n: nat)
    requires IsRun(events, states) && n < |events| && events[n].ENextRound?
    ensures NoDup(states[n].next) && InRound(states[n], states[n + 1])
  {
    TraceStep(events, states, n);
    SchedulerProofs.RunKeepsInv(events, states, n + 1);
    assert Queue(states[n + 1]) == states[n].next;
  }

  lemma RoundGoesOn(events: seq<Event>, states: seq<State>, i: nat, start: State)
    requires IsRun(events, states) && i < |events| && InRound(start, states[i])
    ensures if events[i].ENextRound? then states[i].ran == start.ran + start.next else InRound(start, states[i + 1])
  {
    TraceStep(events, states, i);
    if !events[i].ENextRound? { StepKeepsInRound(start, states[i], events[i]); }
  }

  /** A round resumes exactly the coroutines queued when it began, each once and in order. */
  lemma {:induction false} RoundRunsItsList(events: seq<Event>, states: seq<State>, n: nat, m: nat)
    requires IsRun(events, states) && n < m <= |events| && events[n].ENextRound?
    requires forall i | n < i < m :: !events[i].ENextRound?
    ensures NoDup(states[n].next) && InRound(states[n], states[m])
    ensures m < |events| && events[m].ENextRound? ==> states[m].ran == states[n].ran + states[n].next
    decreases m
  {
    RoundStarts(events, states, n);
    if m > n + 1 {
      RoundRunsItsList(events, states, n, m - 1);
      RoundGoesOn(events, states, m - 1, states[n]);
    }
    if m < |events| { RoundGoesOn(events, states, m, states[n]); }
  }

  // ----- coroutines -----

  /** The new coroutine: with the daemon flag asked for, ready, at the end of the next round, alone changed. */
  lemma SpawnGives(s: State, daemon: bool)
    requires Below(s)
    ensures var (s', c) := Spawn(s, daemon);
      && c == s.nextId && c !in s.coros && c in s'.coros && s'.coros.Keys == s.coros.Keys + {c}
      && s'.coros[c].status.Ready? && s'.coros[c].daemon == daemon
      && s'.coros[c].signals == {} && s'.coros[c].monitors == []
      && (forall d | d in s.coros :: s'.coros[d] == s.coros[d])
      && s'.next == s.next + [c] && s'.signals == s.signals && s'.monitors == s.monitors
  {
  }

  /** Asked for at this step: coroutine `c` is spawned as a daemon, or makes itself one. */
  predicate AsksDaemon(s: State, e: Event, c: Id) {
    (e == ESpawn(true) && s.nextId == c) || (e.EDaemonize? && s.running == Some(c))
  }

  ghost predicate AskedDaemon(events: seq<Event>, states: seq<State>, n: nat, c: Id)
    requires n <= |events| && |states| == |events| + 1
  {
    exists i :: 0 <= i < n && AsksDaemon(states[i], events[i], c)
  }

  ghost predicate SameDaemon(s: State, s': State) {
    s'.coros.Keys <= s.coros.Keys && forall c | c in s'.coros :: s'.coros[c].daemon == s.coros[c].daemon
  }

  lemma {:induction false} FireMonitorsSameDaemon(s: State, c: Id, ms: seq<Id>)
    ensures SameDaemon(s, FireMonitors(s, c, ms))
    decreases |ms|
  {
    if ms != [] {
      var s1 := if ms[0] in s.monitors then RaiseSignal(s, s.monitors[ms[0]].signal).0 else s;
      FireOneSameDaemon(s, ms[0]);
      FireMonitorsSameDaemon(Unmonitor(s1, ms[0]), c, ms[1..]);
    }
  }

  lemma RaiseSameDaemon(s: State, g: Id)
    ensures SameDaemon(s, RaiseSignal(s, g).0)
  {
    if g in s.signals && s.signals[g].owner in s.coros { RaiseFrame(s, g); }
  }

  lemma FireOneSameDaemon(s: State, m: Id)
    ensures var s1 := if m in s.monitors then RaiseSignal(s, s.monitors[m].signal).0 else s;
      SameDaemon(s, Unmonitor(s1, m))
  {
    if m in s.monitors {
      var s1 := RaiseSignal(s, s.monitors[m].signal).0;
      RaiseSameDaemon(s, s.monitors[m].signal);
      UnmonitorSameDaemon(s1, m);
    }
  }

  lemma UnmonitorSameDaemon(s: State, m: Id)
    ensures SameDaemon(s, Unmonitor(s, m))
  {
  }

  lemma DieSameDaemon(s: State, c: Id)
    requires c in s.coros
    ensures SameDaemon(s, Die(s, c))
  {
    FireMonitorsKeepsCoros(DropSignals(s, c), c, s.coros[c].monitors);
    FireMonitorsSameDaemon(DropSignals(s, c), c, s.coros[c].monitors);
  }

  lemma WaitSameDaemon(s: State, c: Id, gs: seq<Id>, all: bool)
    requires c in s.coros
    ensures SameDaemon(s, WaitForSignals(s, c, gs, all))
  {
    WaitFrame(s, c, gs, all);
  }

  lemma NamedSameDaemon(s: State, e: Event)
    requires Enabled(s, e) && (e.ERaise? || e.EMonitor? || e.EUnmonitor?)
    ensures SameDaemon(s, Apply(s, e))
  {
    if e.ERaise? { RaiseSameDaemon(s, e.g); }
    else if e.EMonitor? { RaiseSameDaemon(s, e.g); }
    else { UnmonitorSameDaemon(s, e.m); }
  }

  lemma OtherSameDaemon(s: State, e: Event)
    requires Enabled(s, e) && (ByLoop(e) || e.EMake? || e.EYield?)
    ensures SameDaemon(s, Apply(s, e))
  {
  }

  lemma PlainSameDaemon(s: State, e: Event)
    requires Enabled(s, e) && !e.ESpawn? && !e.EDaemonize?
    ensures SameDaemon(s, Apply(s, e))
  {
    if e.EExit? { DieSameDaemon(s, s.running.value); }
    else if e.EWait? { WaitSameDaemon(s, s.running.value, e.gs, e.all); }
    else if e.ERaise? || e.EMonitor? || e.EUnmonitor? { NamedSameDaemon(s, e); }
    else { OtherSameDaemon(s, e); }
  }

  /** The caller is a daemon afterwards, and nothing else changes but the count. */
  lemma DaemonizeGives(s: State)
    requires Enabled(s, EDaemonize)
    ensures var s', c := Apply(s, EDaemonize), s.running.value;
      && c in s'.coros && s'.coros == s.coros[c := s.coros[c].(daemon := true)]
      && s'.signals == s.signals && s'.monitors == s.monitors && s'.running == s.running
  {
  }

  lemma StepDaemon(s: State, e: Event, c: Id)
    requires Inv(s) && Enabled(s, e) && c in Apply(s, e).coros
    ensures c in s.coros || c == s.nextId
    ensures Apply(s, e).coros[c].daemon <==> AsksDaemon(s, e, c) || (c in s.coros && s.coros[c].daemon)
  {
    if e.ESpawn? { SpawnGives(s, e.daemon); }
    else if e.EDaemonize? { DaemonizeGives(s); }
    else { PlainSameDaemon(s, e); }
  }

  lemma StepGrowsNextId(s: State, e: Event)
    requires Inv(s) && Enabled(s, e)
    ensures Apply(s, e).nextId >= s.nextId && (e.ESpawn? ==> Apply(s, e).nextId > s.nextId)
    ensures s.running.Some? ==> s.running.value < s.nextId
  {
    EventEffect(s, e);
  }

  lemma NotAskedNow(events: seq<Event>, states: seq<State>, i: nat, c: Id)
    requires IsRun(events, states) && i < |events| && c >= states[i + 1].nextId
    ensures c >= states[i].nextId && !AsksDaemon(states[i], events[i], c)
  {
    SchedulerProofs.RunKeepsInv(events, states, i);
    TraceStep(events, states, i);
    StepGrowsNextId(states[i], events[i]);
  }

  lemma {:induction false} NotAskedBefore(events: seq<Event>, states: seq<State>, n: nat, c: Id)
    requires IsRun(events, states) && n <= |events| && c >= states[n].nextId
    ensures !AskedDaemon(events, states, n, c)
  {
    if n > 0 {
      NotAskedNow(events, states, n - 1, c);
      NotAskedBefore(events, states, n - 1, c);
    }
  }

  /** In every run a coroutine is a daemon exactly if it was spawned as one or has made itself one. */
  lemma {:induction false} DaemonIff(events: seq<Event>, states: seq<State>, n: nat, c: Id)
    requires IsRun(events, states) && n <= |events| && c in states[n].coros
    ensures states[n].coros[c].daemon <==> AskedDaemon(events, states, n, c)
  {
    if n > 0 {
      var s, e := states[n - 1], events[n - 1];
      SchedulerProofs.RunKeepsInv(events, states, n - 1);
      TraceStep(events, states, n - 1);
      StepDaemon(s, e, c);
      if c in s.coros { DaemonIff(events, states, n - 1, c); } else { NotAskedBefore(events, states, n - 1, c); }
    }
  }

  lemma StepTerminates(s: State, e: Event)
    requires Enabled(s, e)
    ensures Apply(s, e).terminating <==> s.terminating || e.ETerminate?
  {
    if e.EExit? { DieTerminates(s, s.running.value); }
  }

  lemma DieTerminates(s: State, c: Id)
    requires c in s.coros
    ensures Die(s, c).terminating == s.terminating
  {
    FireMonitorsKeepsCoros(DropSignals(s, c), c, s.coros[c].monitors);
    FireMonitorsTerminates(DropSignals(s, c), c, s.coros[c].monitors);
  }

  lemma {:induction false} FireMonitorsTerminates(s: State, c: Id, ms: seq<Id>)
    ensures FireMonitors(s, c, ms).terminating == s.terminating
    decreases |ms|
  {
    if ms != [] {
      var s1 := if ms[0] in s.monitors then RaiseSignal(s, s.monitors[ms[0]].signal).0 else s;
      FireMonitorsTerminates(Unmonitor(s1, ms[0]), c, ms[1..]);
    }
  }

  lemma {:induction false} TerminatingIff(events: seq<Event>, states: seq<State>, n: nat)
    requires IsRun(events, states) && n <= |events|
    ensures states[n].terminating <==> exists i :: 0 <= i < n && events[i].ETerminate?
  {
    if n > 0 {
      TerminatingIff(events, states, n - 1);
      TraceStep(events, states, n - 1);
      StepTerminates(states[n - 1], events[n - 1]);
    }
  }

  /** So the exit test of the loop is about what callers asked for: without `bio_terminate`, it holds
      exactly if each coroutine left was spawned as a daemon or made itself one. */
  lemma StopsIff(events: seq<Event>, states: seq<State>, n: nat)
    requires IsRun(events, states) && n <= |events|
    ensures ShouldStop(states[n]) <==>
      if exists i :: 0 <= i < n && events[i].ETerminate? then states[n].coros == map[]
      else forall c | c in states[n].coros :: AskedDaemon(events, states, n, c)
  {
    ListsAreExact(events, states, n);
    TerminatingIff(events, states, n);
    forall c | c in states[n].coros ensures states[n].coros[c].daemon <==> AskedDaemon(events, states, n, c) {
      DaemonIff(events, states, n, c);
    }
  }

  // ----- signals and monitors -----

  /** A new signal of the running coroutine, and nothing else. */
  lemma MakeGives(s: State)
    requires Below(s) && Enabled(s, EMake)
    ensures var (s', g) := MakeSignal(s, s.running.value);
      && g == s.nextId && g != INVALID && g !in s.signals
      && s'.signals.Keys == s.signals.Keys + {g} && s'.signals[g].owner == s.running.value
      && (forall h | h in s.signals :: s'.signals[h] == s.signals[h])
      && s'.monitors == s.monitors && s'.next == s.next && s'.running == s.running
  {
  }

  /** The wait goes on while these signals are live. */
  predicate StillBlocked(w: Wait, live: set<Id>) {
    if w.all then w.surplus > 0 || exists g :: g in w.named && g in live else w.named <= live
  }

  lemma BlockedByKeys(w: Wait, signals: map<Id, Signal>)
    ensures Blocked(w, signals) <==> StillBlocked(w, signals.Keys)
  {
    if g :| g in w.named && g in signals { assert g in LiveNamed(w, signals); }
    if g :| g in LiveNamed(w, signals) { assert g in w.named && g in signals.Keys; }
    if w.named <= signals.Keys { assert LiveNamed(w, signals) == w.named; }
    if LiveNamed(w, signals) == w.named { assert forall g | g in w.named :: g in LiveNamed(w, signals); }
  }

  /** Raising `g` ends the wait of its owner. */
  ghost predicate Completes(s: State, g: Id) {
    && g in s.signals && s.signals[g].owner in s.waits
    && StillBlocked(s.waits[s.signals[g].owner], s.signals.Keys)
    && !StillBlocked(s.waits[s.signals[g].owner], s.signals.Keys - {g})
  }

  /** What a raise that ends a wait, or does not, makes of the queue and of the other coroutines. */
  lemma RaiseMoves(s: State, g: Id)
    requires g in s.signals ==> s.signals[g].owner in s.coros
    ensures var (s', woken) := RaiseSignal(s, g);
      && (woken ==> g in s.signals) && s'.signals == s.signals - {g} && s'.coros.Keys == s.coros.Keys
      && s'.next == s.next + (if woken then [s.signals[g].owner] else [])
      && (woken ==> s'.coros[s.signals[g].owner].status.Ready?)
      && (forall c | c in s.coros && (woken ==> c != s.signals[g].owner) :: s'.coros[c].status == s.coros[c].status)
  {
    if g in s.signals { RaiseFrame(s, g); } else { assert s.signals - {g} == s.signals; }
  }

  /** A raise closes its signal and tells whether that ended a wait: then, and only then, the signal's owner
      is queued for the next round. Everybody else stays as before. */
  lemma RaiseWakesIff(s: State, g: Id)
    requires Inv(s)
    ensures var (s', woken) := RaiseSignal(s, g);
      && (woken <==> Completes(s, g)) && s'.signals == s.signals - {g} && s'.coros.Keys == s.coros.Keys
      && s'.next == s.next + (if woken then [s.signals[g].owner] else [])
      && (woken ==> s'.coros[s.signals[g].owner].status.Ready?)
      && (forall c | c in s.coros && (woken ==> c != s.signals[g].owner) :: s'.coros[c].status == s.coros[c].status)
  {
    RaiseMoves(s, g);
    if g in s.signals { RaiseEndsWait(s, g, s.signals[g].owner); }
  }

  lemma WokenIsNoLongerBlocked(s: State, g: Id, c: Id)
    requires Inv(s) && g in s.signals && c == s.signals[g].owner && c in s.waits
    ensures StillBlocked(s.waits[c], s.signals.Keys) <==> s.coros[c].status.Waiting?
    ensures StillBlocked(s.waits[c], s.signals.Keys - {g}) <==> RaiseSignal(s, g).0.coros[c].status.Waiting?
  {
    var s' := RaiseSignal(s, g).0;
    RaiseFrame(s, g);
    RaiseKeepsWait(s, g, c, s.waits[c]);
    BlockedByKeys(s.waits[c], s.signals);
    BlockedByKeys(s.waits[c], s'.signals);
    assert s'.signals.Keys == s.signals.Keys - {g};
  }

  lemma RaiseEndsWait(s: State, g: Id, c: Id)
    requires Inv(s) && g in s.signals && c == s.signals[g].owner
    ensures RaiseSignal(s, g).1 <==> Completes(s, g)
  {
    WokenWasWaiting(s, g, c);
    if c in s.waits { WokenIsNoLongerBlocked(s, g, c); }
  }

  lemma WokenWasWaiting(s: State, g: Id, c: Id)
    requires Inv(s) && g in s.signals && c == s.signals[g].owner
    ensures RaiseSignal(s, g).1 <==>
      c in s.waits && s.coros[c].status.Waiting? && !RaiseSignal(s, g).0.coros[c].status.Waiting?
  {
    RaiseFrame(s, g);
  }

  /** After the first `k` monitors have been raised, the wait of `x` is over. */
  ghost predicate WokenBy(waits: map<Id, Wait>, live: set<Id>, monitors: map<Id, Monitor>, ms: seq<Id>, k: nat, x: Id)
    requires k <= |ms|
  {
    x in waits && !StillBlocked(waits[x], live - SignalsOf(monitors, ms[..k]))
  }

  /** The coroutines in `w` are in the order in which the monitors end their waits. */
  ghost predicate InFiringOrder(
      waits: map<Id, Wait>, live: set<Id>, monitors: map<Id, Monitor>, ms: seq<Id>, w: seq<Id>) {
    forall i, j | 0 <= i < j < |w| :: Before(waits, live, monitors, ms, w[i], w[j])
  }

  ghost predicate Before(waits: map<Id, Wait>, live: set<Id>, monitors: map<Id, Monitor>, ms: seq<Id>, x: Id, y: Id) {
    exists k: nat :: k <= |ms| && WokenBy(waits, live, monitors, ms, k, x) && !WokenBy(waits, live, monitors, ms, k, y)
  }

  ghost predicate Sleepers(s: State, w: seq<Id>) {
    forall x | x in w :: x in s.waits && StillBlocked(s.waits[x], s.signals.Keys)
  }

  /** One monitor fired: `rest` are those that the others wake later. */
  lemma FirstWakesFirst(s: State, s1: State, ms: seq<Id>, x: Id, rest: seq<Id>)
    requires NoDup(ms) && ms != [] && ms[0] in s.monitors
    requires s1.signals.Keys == s.signals.Keys - {s.monitors[ms[0]].signal} && s1.waits == s.waits
    requires x in s.waits && !StillBlocked(s.waits[x], s1.signals.Keys) && Sleepers(s1, rest)
    ensures forall y | y in rest :: Before(s.waits, s.signals.Keys, s.monitors, ms, x, y)
  {
    assert ms[..1] == [ms[0]] && SignalsOf(s.monitors, [ms[0]]) == {s.monitors[ms[0]].signal};
    forall y | y in rest ensures Before(s.waits, s.signals.Keys, s.monitors, ms, x, y) {
      assert WokenBy(s.waits, s.signals.Keys, s.monitors, ms, 1, x);
      assert !WokenBy(s.waits, s.signals.Keys, s.monitors, ms, 1, y);
    }
  }

  lemma LaterWakesLater(s: State, s1: State, ms: seq<Id>, x: Id, y: Id)
    requires NoDup(ms) && ms != [] && ms[0] in s.monitors && s1.waits == s.waits
    requires s1.signals.Keys == s.signals.Keys - {s.monitors[ms[0]].signal} && s1.monitors == s.monitors - {ms[0]}
    requires Before(s1.waits, s1.signals.Keys, s1.monitors, ms[1..], x, y)
    ensures Before(s.waits, s.signals.Keys, s.monitors, ms, x, y)
  {
    var k: nat :| k <= |ms[1..]| && WokenBy(s1.waits, s1.signals.Keys, s1.monitors, ms[1..], k, x)
                  && !WokenBy(s1.waits, s1.signals.Keys, s1.monitors, ms[1..], k, y);
    var part := ms[..k + 1];
    assert part[0] == ms[0] && part[1..] == ms[1..][..k];
    RaisedInTwoParts(s, s1, part);
    assert WokenBy(s.waits, s.signals.Keys, s.monitors, ms, k + 1, x);
    assert !WokenBy(s.waits, s.signals.Keys, s.monitors, ms, k + 1, y);
  }

  ghost predicate OneFired(s: State, s1: State, ms: seq<Id>) {
    && ms != [] && ms[0] in s.monitors && s1.waits == s.waits
    && s1.signals.Keys == s.signals.Keys - {s.monitors[ms[0]].signal} && s1.monitors == s.monitors - {ms[0]}
  }

  /** What one turn of the monitor loop adds to the queue. */
  ghost predicate Adds(s: State, s1: State, woken: seq<Id>) {
    && s1.next == s.next + woken && |woken| <= 1 && Sleepers(s, woken)
    && forall x | x in woken :: !StillBlocked(s.waits[x], s1.signals.Keys)
  }

  /** The scheduler inside the monitor loop of `bio_loop`, with `ms` left. */
  ghost predicate Firing(s: State, c: Id, ms: seq<Id>) {
    Inv(s) && Runs(s, c) && s.coros[c].signals == {} && s.coros[c].monitors == ms
  }

  function Fired(s: State, m: Id): State
    requires m in s.monitors
  {
    Unmonitor(RaiseSignal(s, s.monitors[m].signal).0, m)
  }

  lemma FiredOnce(s: State, c: Id, ms: seq<Id>)
    requires Firing(s, c, ms) && ms != []
    ensures ms[0] in s.monitors && OneFired(s, Fired(s, ms[0]), ms)
  {
    FireOne(s, c, ms[0]);
    FireOneRaises(s, Fired(s, ms[0]), c, ms[0]);
    FiredSameWaits(s, ms[0]);
  }

  lemma FiredSameWaits(s: State, m: Id)
    requires m in s.monitors
    ensures Fired(s, m).waits == s.waits
  {
  }

  lemma FiredQueue(s: State, m: Id)
    requires m in s.monitors
    ensures var r := RaiseSignal(s, s.monitors[m].signal).0;
      Fired(s, m).next == r.next && Fired(s, m).signals == r.signals
  {
  }

  lemma RaiseQueues(s: State, g: Id)
    requires Inv(s)
    ensures var r := RaiseSignal(s, g).0;
      && r.signals == s.signals - {g}
      && r.next == s.next + (if Completes(s, g) then [s.signals[g].owner] else [])
  {
    RaiseWakesIff(s, g);
  }

  lemma FiredAdds(s: State, m: Id) returns (woken: seq<Id>)
    requires Inv(s) && m in s.monitors
    ensures Adds(s, Fired(s, m), woken)
  {
    var g := s.monitors[m].signal;
    RaiseQueues(s, g);
    FiredQueue(s, m);
    woken := if Completes(s, g) then [s.signals[g].owner] else [];
    RaisedAdds(s, RaiseSignal(s, g).0, Fired(s, m), g, woken);
  }

  lemma RaisedAdds(s: State, r: State, s1: State, g: Id, woken: seq<Id>)
    requires r.next == s.next + woken && r.signals == s.signals - {g}
    requires woken == if Completes(s, g) then [s.signals[g].owner] else []
    requires s1.next == r.next && s1.signals == r.signals
    ensures Adds(s, s1, woken)
  {
    assert s1.signals.Keys == s.signals.Keys - {g};
  }

  lemma FiringGoesOn(s: State, c: Id, ms: seq<Id>)
    requires Firing(s, c, ms) && ms != []
    ensures ms[0] in s.monitors && Firing(Fired(s, ms[0]), c, ms[1..])
    ensures FireMonitors(s, c, ms) == FireMonitors(Fired(s, ms[0]), c, ms[1..])
  {
    FireOne(s, c, ms[0]);
  }

  lemma AddsInOrder(s: State, s1: State, ms: seq<Id>, woken: seq<Id>, rest: seq<Id>)
    requires NoDup(ms) && OneFired(s, s1, ms) && Adds(s, s1, woken) && Sleepers(s1, rest)
    requires InFiringOrder(s1.waits, s1.signals.Keys, s1.monitors, ms[1..], rest)
    ensures InFiringOrder(s.waits, s.signals.Keys, s.monitors, ms, woken + rest)
  {
    var w := woken + rest;
    forall i, j | 0 <= i < j < |w| ensures Before(s.waits, s.signals.Keys, s.monitors, ms, w[i], w[j]) {
      if i < |woken| {
        assert w[j] == rest[j - |woken|];
        FirstWakesFirst(s, s1, ms, w[i], rest);
      } else {
        assert w[i] == rest[i - |woken|] && w[j] == rest[j - |woken|];
        LaterWakesLater(s, s1, ms, w[i], w[j]);
      }
    }
  }

  lemma SleptBefore(s: State, s1: State, ms: seq<Id>, woken: seq<Id>, rest: seq<Id>)
    requires OneFired(s, s1, ms) && Sleepers(s, woken) && Sleepers(s1, rest)
    ensures Sleepers(s, woken + rest)
  {
  }

  lemma FiringHasNoDup(s: State, c: Id, ms: seq<Id>)
    requires Firing(s, c, ms)
    ensures NoDup(ms)
  {
  }

  lemma FirstFires(s: State, c: Id, ms: seq<Id>) returns (woken: seq<Id>)
    requires Firing(s, c, ms) && ms != []
    ensures NoDup(ms) && ms[0] in s.monitors && OneFired(s, Fired(s, ms[0]), ms) && Adds(s, Fired(s, ms[0]), woken)
  {
    FiringHasNoDup(s, c, ms);
    FiredOnce(s, c, ms);
    woken := FiredAdds(s, ms[0]);
  }

  /** What firing `ms` from state `s` adds to the queue, in which order. */
  ghost predicate AddsAll(s: State, next: seq<Id>, ms: seq<Id>, w: seq<Id>) {
    next == s.next + w && Sleepers(s, w) && InFiringOrder(s.waits, s.signals.Keys, s.monitors, ms, w)
  }

  lemma OneMoreAdds(s: State, s1: State, next: seq<Id>, ms: seq<Id>, woken: seq<Id>, rest: seq<Id>)
    requires NoDup(ms) && OneFired(s, s1, ms) && Adds(s, s1, woken) && AddsAll(s1, next, ms[1..], rest)
    ensures AddsAll(s, next, ms, woken + rest)
  {
    AddsInOrder(s, s1, ms, woken, rest);
    SleptBefore(s, s1, ms, woken, rest);
    assert s.next + woken + rest == s.next + (woken + rest);
  }

  lemma {:induction false} FiresInOrder(s: State, c: Id, ms: seq<Id>) returns (w: seq<Id>)
    requires Firing(s, c, ms)
    ensures AddsAll(s, FireMonitors(s, c, ms).next, ms, w)
    decreases |ms|
  {
    if ms == [] {
      w := [];
    } else {
      var woken := FirstFires(s, c, ms);
      FiringGoesOn(s, c, ms);
      var rest := FiresInOrder(Fired(s, ms[0]), c, ms[1..]);
      OneMoreAdds(s, Fired(s, ms[0]), FireMonitors(s, c, ms).next, ms, woken, rest);
      w := woken + rest;
    }
  }

  lemma NewInQueue(q: seq<Id>, w: seq<Id>)
    requires NoDup(q + w)
    ensures forall x :: x in w <==> x in q + w && x !in q
  {
    forall i, j | 0 <= i < |q| && 0 <= j < |w| ensures q[i] != w[j] {
      assert (q + w)[i] == q[i] && (q + w)[|q| + j] == w[j];
    }
  }

  ghost predicate Asleep(s: State, x: Id) {
    x in s.coros && s.coros[x].status.Waiting?
  }

  ghost predicate Queued(s: State, x: Id) {
    x in s.coros && s.coros[x].status.Ready?
  }

  lemma QueuedIff(s: State)
    requires Inv(s)
    ensures NoDup(Queue(s)) && forall x :: x in Queue(s) <==> Queued(s, x)
  {
  }

  lemma NotQueuedIsAsleep(s: State, c: Id)
    requires Inv(s) && Runs(s, c)
    ensures forall x | x in s.coros && x != c && !Queued(s, x) :: Asleep(s, x)
  {
  }

  lemma NextGrows(s: State, s': State, w: seq<Id>)
    requires SameRound(s, s', 0) && s'.next == s.next + w
    ensures Queue(s') == Queue(s) + w
  {
  }

  lemma DeathQueues(s: State, c: Id, w: seq<Id>)
    requires Inv(s) && Runs(s, c) && Die(s, c).next == s.next + w
    ensures Queue(Die(s, c)) == Queue(s) + w && Die(s, c).coros.Keys == s.coros.Keys - {c}
  {
    DieKeepsRound(s, c);
    NextGrows(s, Die(s, c), w);
    DeathCloses(s, c);
  }

  /** To the next round a death adds exactly those whose waits it ends. */
  lemma DeathWakes(s: State, c: Id, w: seq<Id>)
    requires Inv(s) && Runs(s, c) && Die(s, c).next == s.next + w
    ensures forall x :: x in w <==> Asleep(s, x) && Queued(Die(s, c), x)
  {
    DeathQueues(s, c, w);
    DieKeepsInv(s, c);
    QueuedIff(s);
    QueuedIff(Die(s, c));
    NewInQueue(Queue(s), w);
    NotQueuedIsAsleep(s, c);
    forall x ensures x in w <==> Asleep(s, x) && Queued(Die(s, c), x) {
      assert x in Queue(s) + w <==> Queued(Die(s, c), x);
      assert x in Queue(s) <==> Queued(s, x);
    }
  }

  /** A death queues those whose waits it ends, and it does so in the order of its monitors, front to back. */
  lemma DeathWakesInOrder(s: State, c: Id) returns (w: seq<Id>)
    requires Inv(s) && Runs(s, c)
    ensures Die(s, c).next == s.next + w
    ensures forall x :: x in w <==> Asleep(s, x) && Queued(Die(s, c), x)
    ensures InFiringOrder(s.waits, s.signals.Keys - s.coros[c].signals, s.monitors, s.coros[c].monitors, w)
  {
    DropSignalsKeepsInv(s, c);
    FireMonitorsKeepsCoros(DropSignals(s, c), c, s.coros[c].monitors);
    w := FiresInOrder(DropSignals(s, c), c, s.coros[c].monitors);
    DeathWakes(s, c, w);
  }

  // ----- monitors -----

  ghost predicate Ascending(q: seq<Id>) {
    forall i, j | 0 <= i < j < |q| :: q[i] < q[j]
  }

  lemma AscendingAppend(q: seq<Id>, m: Id)
    requires Ascending(q) && forall x | x in q :: x < m
    ensures Ascending(q + [m])
  {
    var r := q + [m];
    forall i, j | 0 <= i < j < |r| ensures r[i] < r[j] { assert r[i] == q[i] && q[i] in q; }
  }

  lemma AscendingPrepend(m: Id, q: seq<Id>)
    requires Ascending(q) && forall x | x in q :: m < x
    ensures Ascending([m] + q)
  {
    var r := [m] + q;
    forall i, j | 0 <= i < j < |r| ensures r[i] < r[j] { assert r[j] == q[j - 1] && q[j - 1] in q; }
  }

  lemma AscendingTail(q: seq<Id>)
    requires Ascending(q) && q != []
    ensures Ascending(q[1..]) && forall x | x in q[1..] :: q[0] < x
  {
  }

  lemma {:induction false} RemoveKeepsAscending(q: seq<Id>, m: Id)
    requires Ascending(q)
    ensures Ascending(Remove(q, m)) && forall x | x in Remove(q, m) :: x in q
  {
    if q != [] {
      AscendingTail(q);
      if q[0] != m {
        RemoveKeepsAscending(q[1..], m);
        AscendingPrepend(q[0], Remove(q[1..], m));
      }
    }
  }

  /** Each coroutine's monitors are listed oldest first: handles grow with time. */
  ghost predicate ByAge(s: State) {
    forall c | c in s.coros :: Ascending(s.coros[c].monitors)
  }

  ghost predicate SameMonitorLists(s: State, s': State) {
    forall c | c in s'.coros :: if c in s.coros then s'.coros[c].monitors == s.coros[c].monitors
                                else s'.coros[c].monitors == []
  }

  lemma UnmonitorKeepsByAge(s: State, m: Id)
    requires ByAge(s)
    ensures ByAge(Unmonitor(s, m))
  {
    if m in s.monitors && s.monitors[m].target in s.coros {
      RemoveKeepsAscending(s.coros[s.monitors[m].target].monitors, m);
    }
  }

  lemma RaiseSameLists(s: State, g: Id)
    ensures SameMonitorLists(s, RaiseSignal(s, g).0) && RaiseSignal(s, g).0.coros.Keys == s.coros.Keys
  {
    if g in s.signals && s.signals[g].owner in s.coros { RaiseFrame(s, g); }
  }

  lemma {:induction false} FireMonitorsKeepsByAge(s: State, c: Id, ms: seq<Id>)
    requires ByAge(s)
    ensures ByAge(FireMonitors(s, c, ms))
    decreases |ms|
  {
    if ms != [] {
      var s1 := if ms[0] in s.monitors then RaiseSignal(s, s.monitors[ms[0]].signal).0 else s;
      if ms[0] in s.monitors { RaiseSameLists(s, s.monitors[ms[0]].signal); }
      UnmonitorKeepsByAge(s1, ms[0]);
      FireMonitorsKeepsByAge(Unmonitor(s1, ms[0]), c, ms[1..]);
    }
  }

  lemma DieKeepsByAge(s: State, c: Id)
    requires c in s.coros && ByAge(s)
    ensures ByAge(Die(s, c))
  {
    FireMonitorsKeepsCoros(DropSignals(s, c), c, s.coros[c].monitors);
    FireMonitorsKeepsByAge(DropSignals(s, c), c, s.coros[c].monitors);
  }

  lemma MonitorKeepsByAge(s: State, t: Id, g: Id)
    requires Links(s) && ByAge(s)
    ensures ByAge(MonitorCoro(s, t, g).0)
  {
    if Attaches(s, t, g) {
      forall m | m in s.coros[t].monitors ensures m < s.nextId { assert m in s.monitors; }
      AscendingAppend(s.coros[t].monitors, s.nextId);
    } else {
      RaiseSameLists(s, g);
    }
  }

  lemma WaitSameLists(s: State, c: Id, gs: seq<Id>, all: bool)
    requires c in s.coros
    ensures SameMonitorLists(s, WaitForSignals(s, c, gs, all))
  {
    WaitFrame(s, c, gs, all);
  }

  lemma OtherSameLists(s: State, e: Event)
    requires Enabled(s, e) && (ByLoop(e) || e.EMake? || e.EYield? || e.ESpawn? || e.EDaemonize?) && Below(s)
    ensures SameMonitorLists(s, Apply(s, e))
  {
  }

  lemma StepKeepsByAge(s: State, e: Event)
    requires Links(s) && Enabled(s, e) && ByAge(s)
    ensures ByAge(Apply(s, e))
  {
    if e.EExit? { DieKeepsByAge(s, s.running.value); }
    else if e.EWait? { WaitSameLists(s, s.running.value, e.gs, e.all); }
    else if e.ERaise? { RaiseSameLists(s, e.g); }
    else if e.EMonitor? { MonitorKeepsByAge(s, e.t, e.g); }
    else if e.EUnmonitor? { UnmonitorKeepsByAge(s, e.m); }
    else { OtherSameLists(s, e); }
  }

  lemma RunIsLinked(events: seq<Event>, states: seq<State>, n: nat)
    requires IsRun(events, states) && n <= |events|
    ensures Links(states[n])
  {
    SchedulerProofs.RunKeepsInv(events, states, n);
  }

  /** In every run the monitors of a coroutine are listed in the order in which they were attached, so its
      death raises the oldest first. */
  lemma {:induction false} MonitorsAreByAge(events: seq<Event>, states: seq<State>, n: nat)
    requires IsRun(events, states) && n <= |events|
    ensures ByAge(states[n])
  {
    if n > 0 {
      MonitorsAreByAge(events, states, n - 1);
      RunIsLinked(events, states, n - 1);
      TraceStep(events, states, n - 1);
      StepKeepsByAge(states[n - 1], events[n - 1]);
    }
  }

  /** A monitor of another live coroutine with a live signal that is not that coroutine's own is attached; with
      any other the signal is raised at once. */
  lemma MonitorGives(s: State, t: Id, g: Id)
    requires Links(s)
    ensures var (s', m) := MonitorCoro(s, t, g);
      if t in s.coros && g in s.signals && s.signals[g].owner != t then
        && m == s.nextId && m != INVALID && m !in s.monitors && WillRaise(s', t, m, g)
        && s'.monitors == s.monitors[m := Monitor(t, g)] && s'.signals == s.signals && s'.next == s.next
      else m == INVALID && s' == RaiseSignal(s, g).0 && s'.signals == s.signals - {g}
  {
    if !(t in s.coros && g in s.signals && s.signals[g].owner != t) { RaiseMoves(s, g); }
  }

  // ----- joining -----

  /** Coroutine `k` is in a join: suspended on `g`, which only monitor `m` on coroutine `t` will raise. */
  ghost predicate Joins(s: State, k: Id, t: Id, m: Id, g: Id) {
    && k in s.waits && s.waits[k] == Wait({g}, true, 0)
    && g < s.nextId && m < s.nextId && t < s.nextId && (g in s.signals <==> t in s.coros)
    && (g in s.signals ==> s.signals[g].owner == k && m in s.monitors && s.monitors[m] == Monitor(t, g))
    && (forall n | n in s.monitors && s.monitors[n].signal == g :: n == m)
  }

  /** Others have no handle to the signal and the monitor of a join. */
  predicate Spares(e: Event, m: Id, g: Id) {
    e != ERaise(g) && e != EUnmonitor(m) && (e.EMonitor? ==> e.g != g)
  }

  /** An effect that closes `g` exactly if it ends `t`, and drops `m` only then. */
  lemma EffectKeepsJoin(s: State, s': State, k: Id, t: Id, m: Id, g: Id,
                        closed: set<Id>, dropped: set<Id>, attached: set<Id>, gone: set<Id>)
    requires Joins(s, k, t, m, g) && Effect(s, s', closed, dropped, attached, gone)
    requires k in s'.waits && s'.waits[k] == s.waits[k] && g !in attached
    requires g in s.signals ==> (g in closed <==> t in gone) && (m in dropped ==> t in gone)
    ensures Joins(s', k, t, m, g)
  {
  }

  lemma DeathInJoin(s: State, c: Id, k: Id, t: Id, m: Id, g: Id)
    requires Links(s) && Joins(s, k, t, m, g) && c in s.coros && c != k && g in s.signals
    ensures g in ClosedByDeath(s, c) <==> c == t
    ensures m in Elems(s.coros[c].monitors) ==> c == t
  {
    var ms := s.coros[c].monitors;
    if c == t { SignalOfMember(s.monitors, ms, m); }
    if g in SignalsOf(s.monitors, ms) {
      var n :| n in ms && n in s.monitors && s.monitors[n].signal == g;
    }
  }

  lemma EventInJoin(s: State, e: Event, k: Id, t: Id, m: Id, g: Id)
    requires Links(s) && Enabled(s, e) && Joins(s, k, t, m, g) && s.running != Some(k) && Spares(e, m, g)
    ensures g !in AttachedBy(s, e)
    ensures g in s.signals ==>
      (g in ClosedBy(s, e) <==> t in GoneBy(s, e)) && (m in DroppedBy(s, e) ==> t in GoneBy(s, e))
  {
    if e.EExit? && g in s.signals { DeathInJoin(s, s.running.value, k, t, m, g); }
  }

  lemma StepKeepsJoin(s: State, e: Event, k: Id, t: Id, m: Id, g: Id)
    requires Inv(s) && Enabled(s, e) && Joins(s, k, t, m, g) && Spares(e, m, g) && !Resumes(s, e, k)
    ensures Joins(Apply(s, e), k, t, m, g)
  {
    InItsWait(s, k);
    StepKeepsUnresumed(s, e, k);
    EventEffect(s, e);
    EventInJoin(s, e, k, t, m, g);
    EffectKeepsJoin(s, Apply(s, e), k, t, m, g, ClosedBy(s, e), DroppedBy(s, e), AttachedBy(s, e), GoneBy(s, e));
  }

  lemma RunStepKeepsJoin(events: seq<Event>, states: seq<State>, i: nat, k: Id, t: Id, m: Id, g: Id)
    requires IsRun(events, states) && i < |events| && Joins(states[i], k, t, m, g)
    requires Spares(events[i], m, g) && !Resumes(states[i], events[i], k)
    ensures Joins(states[i + 1], k, t, m, g)
  {
    SchedulerProofs.RunKeepsInv(events, states, i);
    TraceStep(events, states, i);
    StepKeepsJoin(states[i], events[i], k, t, m, g);
  }

  lemma {:induction false} JoinStays(events: seq<Event>, states: seq<State>, i: nat, n: nat,
                                     k: Id, t: Id, m: Id, g: Id)
    requires IsRun(events, states) && i <= n <= |events| && Joins(states[i], k, t, m, g)
    requires forall j | i <= j < n :: Spares(events[j], m, g) && !Resumes(states[j], events[j], k)
    ensures Joins(states[n], k, t, m, g)
    decreases n
  {
    if i < n {
      JoinStays(events, states, i, n - 1, k, t, m, g);
      RunStepKeepsJoin(events, states, n - 1, k, t, m, g);
    }
  }

  /** A join of another live coroutine is such a wait. */
  lemma JoinIsStarted(s: State, k: Id, t: Id)
    requires Inv(s) && Registered(s) && Runs(s, k) && t in s.coros && t != k
    ensures var (s', m, g) := Join(s, k, t); Inv(s') && Joins(s', k, t, m, g)
  {
    var (s1, g) := MakeSignal(s, k);
    MakeKeepsInv(s, k);
    MonitorKeepsInv(s1, t, g);
    var (s2, m) := MonitorCoro(s1, t, g);
    MonitorsOrRaises(s1, k, t, g);
    WaitKeepsInv(s2, k, [g], true);
    JoinStarts(s, k, t);
    JoinIsBound(s, k, t);
  }

  lemma JoinIsBound(s: State, k: Id, t: Id)
    requires Links(s) && Registered(s) && k in s.coros && t in s.coros && t != k
    ensures var (s', m, g) := Join(s, k, t);
      && g < s'.nextId && m < s'.nextId && t < s'.nextId && t in s'.coros
      && (g in s'.signals ==> s'.signals[g].owner == k && m in s'.monitors && s'.monitors[m] == Monitor(t, g))
      && (forall n | n in s'.monitors && s'.monitors[n].signal == g :: n == m)
  {
    var (s1, g) := MakeSignal(s, k);
    var (s2, m) := MonitorCoro(s1, t, g);
    WaitFrame(s2, k, [g], true);
    MarkFrame(s2, k, [g], s2.coros[k].epoch + 1);
  }

  /** `bio_join` lasts exactly as long as its target lives: in every run, from its wait to its resumption, the caller
      is suspended as long as the target is there, and queued once it is not. */
  lemma JoinEndsAtDeath(events: seq<Event>, states: seq<State>, i: nat, n: nat, k: Id, t: Id, m: Id, g: Id)
    requires IsRun(events, states) && i <= n <= |events| && Joins(states[i], k, t, m, g)
    requires forall j | i <= j < n :: Spares(events[j], m, g) && !Resumes(states[j], events[j], k)
    ensures k in states[n].coros && (states[n].coros[k].status.Waiting? <==> t in states[n].coros)
    ensures t !in states[n].coros ==> k in Queue(states[n])
  {
    JoinStays(events, states, i, n, k, t, m, g);
    SchedulerProofs.RunKeepsInv(events, states, n);
    InItsWait(states[n], k);
    BlockedByKeys(states[n].waits[k], states[n].signals);
  }
}
