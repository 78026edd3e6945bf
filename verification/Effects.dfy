/** What each operation of the scheduler changes, by name: which signals it closes, which monitors it
    drops or attaches, which coroutine ends.  Everything else stays. */
module Effects {
  import opened Coroutines
  import opened SchedulerProofs
  import opened Wrappers

  ghost predicate SignalEffect(s: State, s': State, closed: set<Id>) {
    && (forall g | g in s.signals :: g in s'.signals <==> g !in closed)
    && (forall g | g in s.signals && g in s'.signals :: s'.signals[g].owner == s.signals[g].owner)
    && (forall g | g in s'.signals && g !in s.signals :: g >= s.nextId)
  }

  ghost predicate MonitorEffect(s: State, s': State, dropped: set<Id>, attached: set<Id>) {
    && (forall m | m in s.monitors :: m in s'.monitors <==> m !in dropped)
    && (forall m | m in s.monitors && m in s'.monitors :: s'.monitors[m] == s.monitors[m])
    && (forall m | m in s'.monitors && m !in s.monitors :: m >= s.nextId && s'.monitors[m].signal in attached)
  }

  ghost predicate CoroEffect(s: State, s': State, gone: set<Id>) {
    && (forall c | c in s.coros :: c in s'.coros <==> c !in gone)
    && (forall c | c in s'.coros && c !in s.coros :: c >= s.nextId)
  }

  ghost predicate Effect(s: State, s': State, closed: set<Id>, dropped: set<Id>, attached: set<Id>, gone: set<Id>) {
    && s.nextId <= s'.nextId
    && SignalEffect(s, s', closed) && MonitorEffect(s, s', dropped, attached) && CoroEffect(s, s', gone)
  }

  // ----- operations -----

  lemma RaiseEffect(s: State, g: Id)
    requires Links(s)
    ensures Effect(s, RaiseSignal(s, g).0, {g}, {}, {}, {})
  {
    RaiseKeepsLinks(s, g);
  }

  /** Whether `bio_monitor` attaches a monitor, instead of raising the signal. */
  predicate Attaches(s: State, t: Id, g: Id) {
    t in s.coros && g in s.signals && s.signals[g].owner != t
  }

  lemma MonitorCoroEffect(s: State, t: Id, g: Id)
    requires Links(s)
    ensures var attaches := Attaches(s, t, g);
      Effect(s, MonitorCoro(s, t, g).0, if attaches then {} else {g}, {}, if attaches then {g} else {}, {})
  {
    if !Attaches(s, t, g) { RaiseEffect(s, g); }
  }

  lemma UnmonitorEffect(s: State, m: Id)
    requires Links(s)
    ensures Effect(s, Unmonitor(s, m), {}, {m}, {}, {})
  {
  }

  lemma MakeEffect(s: State, c: Id)
    requires Links(s) && c in s.coros
    ensures Effect(s, MakeSignal(s, c).0, {}, {}, {}, {})
  {
  }

  lemma WaitEffect(s: State, c: Id, gs: seq<Id>, all: bool)
    requires c in s.coros
    ensures Effect(s, WaitForSignals(s, c, gs, all), {}, {}, {}, {})
  {
    WaitFrame(s, c, gs, all);
    MarkFrame(s, c, gs, s.coros[c].epoch + 1);
  }

  lemma SuspendEffect(s: State, c: Id)
    requires c in s.coros
    ensures Effect(s, Suspend(s, c), {}, {}, {}, {})
  {
  }

  lemma SpawnEffect(s: State, daemon: bool)
    requires Links(s)
    ensures Effect(s, Spawn(s, daemon).0, {}, {}, {}, {})
  {
  }

  lemma ResumeEffect(s: State)
    requires s.index < |s.current| && s.current[s.index] in s.coros
    ensures Effect(s, Resume(s), {}, {}, {}, {})
  {
  }

  ghost predicate OnlyCloses(s: State, s': State) {
    && s'.nextId == s.nextId
    && forall g | g in s'.signals :: g in s.signals && s'.signals[g].owner == s.signals[g].owner
  }

  lemma FireOneOnlyCloses(s: State, m: Id)
    ensures var s1 := if m in s.monitors then RaiseSignal(s, s.monitors[m].signal).0 else s;
      OnlyCloses(s, Unmonitor(s1, m))
  {
  }

  /** Firing monitors changes no owner. */
  lemma {:induction false} FireMonitorsOnlyCloses(s: State, c: Id, ms: seq<Id>)
    ensures OnlyCloses(s, FireMonitors(s, c, ms))
    decreases |ms|
  {
    if ms != [] {
      var s1 := if ms[0] in s.monitors then RaiseSignal(s, s.monitors[ms[0]].signal).0 else s;
      FireOneOnlyCloses(s, ms[0]);
      FireMonitorsOnlyCloses(Unmonitor(s1, ms[0]), c, ms[1..]);
    }
  }

  /** The signals that the death of `c` closes. */
  ghost function ClosedByDeath(s: State, c: Id): set<Id>
    requires c in s.coros
  {
    s.coros[c].signals + SignalsOf(s.monitors, s.coros[c].monitors)
  }

  lemma DieEffect(s: State, c: Id)
    requires Inv(s) && Runs(s, c)
    ensures Effect(s, Die(s, c), ClosedByDeath(s, c), Elems(s.coros[c].monitors), {}, {c})
  {
    DeathCloses(s, c);
    FireMonitorsOnlyCloses(DropSignals(s, c), c, s.coros[c].monitors);
    var s', all := Die(s, c), ClosedByDeath(s, c);
    assert forall g :: g in s'.signals.Keys <==> g in s.signals.Keys && g !in all;
  }

  // ----- by the running coroutine -----

  lemma EffectTwice(s: State, s1: State, s2: State,
                    closed: set<Id>, dropped: set<Id>, closed': set<Id>, dropped': set<Id>)
    requires Below(s) && Effect(s, s1, closed, dropped, {}, {}) && Effect(s1, s2, closed', dropped', {}, {})
    ensures Effect(s, s2, closed + closed', dropped + dropped', {}, {})
  {
  }

  lemma RaiseWhileRunning(s: State, g: Id, c: Id)
    requires Inv(s) && Runs(s, c)
    ensures Inv(RaiseSignal(s, g).0) && Runs(RaiseSignal(s, g).0, c)
    ensures Effect(s, RaiseSignal(s, g).0, {g}, {}, {}, {})
  {
    RaiseEffect(s, g);
    RaiseKeepsInv(s, g);
    RaiseKeepsRunner(s, RaiseSignal(s, g).0, g, c);
  }

  lemma WaitInScheduler(s: State, c: Id, gs: seq<Id>, all: bool)
    requires Inv(s) && Runs(s, c)
    ensures var s' := WaitForSignals(s, c, gs, all);
      && Inv(s') && Effect(s, s', {}, {}, {}, {})
      && if MustWait(s, c, gs, all) then c in s'.waits && s'.waits[c] == NewWait(s, c, gs, all) else Runs(s', c)
  {
    WaitKeepsInv(s, c, gs, all);
    WaitEffect(s, c, gs, all);
    WaitFrame(s, c, gs, all);
  }

  // ----- events -----

  ghost function ClosedBy(s: State, e: Event): set<Id>
    requires Enabled(s, e)
  {
    if e.ERaise? then {e.g}
    else if e.EMonitor? && !Attaches(s, e.t, e.g) then {e.g}
    else if e.EExit? then ClosedByDeath(s, s.running.value)
    else {}
  }

  ghost function DroppedBy(s: State, e: Event): set<Id>
    requires Enabled(s, e)
  {
    if e.EUnmonitor? then {e.m} else if e.EExit? then Elems(s.coros[s.running.value].monitors) else {}
  }

  function AttachedBy(s: State, e: Event): set<Id> {
    if e.EMonitor? && Attaches(s, e.t, e.g) then {e.g} else {}
  }

  function GoneBy(s: State, e: Event): set<Id>
    requires Enabled(s, e)
  {
    if e.EExit? then {s.running.value} else {}
  }

  ghost predicate HasEffect(s: State, e: Event)
    requires Enabled(s, e)
  {
    Effect(s, Apply(s, e), ClosedBy(s, e), DroppedBy(s, e), AttachedBy(s, e), GoneBy(s, e))
  }

  /** Events that change neither signals nor monitors nor the set of coroutines. */
  predicate Quiet(e: Event) {
    e.EDaemonize? || e.EYield? || e.EResume? || e.ENextRound? || e.ETerminate?
  }

  lemma QuietHasEffect(s: State, e: Event)
    requires Enabled(s, e) && Quiet(e)
    ensures HasEffect(s, e) && Apply(s, e).signals == s.signals
  {
    if e.EYield? { SuspendEffect(s, s.running.value); }
    else if e.EResume? { ResumeEffect(s); }
    else { StillEffect(s, e); }
  }

  lemma StillEffect(s: State, e: Event)
    requires Enabled(s, e) && (e.EDaemonize? || e.ENextRound? || e.ETerminate?)
    ensures HasEffect(s, e) && Apply(s, e).signals == s.signals
  {
  }

  lemma NamedHasEffect(s: State, e: Event)
    requires Links(s) && Enabled(s, e) && (e.ERaise? || e.EMonitor? || e.EUnmonitor?)
    ensures HasEffect(s, e)
  {
    if e.ERaise? { RaiseEffect(s, e.g); }
    else if e.EMonitor? { MonitorCoroEffect(s, e.t, e.g); }
    else { UnmonitorEffect(s, e.m); }
  }

  lemma EventEffect(s: State, e: Event)
    requires Inv(s) && Enabled(s, e)
    ensures HasEffect(s, e)
  {
    if Quiet(e) { QuietHasEffect(s, e); }
    else if e.ERaise? || e.EMonitor? || e.EUnmonitor? { NamedHasEffect(s, e); }
    else if e.EWait? { WaitEffect(s, s.running.value, e.gs, e.all); }
    else if e.EMake? { MakeEffect(s, s.running.value); }
    else if e.ESpawn? { SpawnEffect(s, e.daemon); }
    else { DieEffect(s, s.running.value); }
  }

  /** Only a wait, a resumption and a death touch the recorded waits. */
  lemma OthersKeepWaits(s: State, e: Event)
    requires Enabled(s, e) && !e.EWait? && !e.EResume? && !e.EExit?
    ensures Apply(s, e).waits == s.waits
  {
  }

  /** A wait ends by the resumption of its coroutine only. */
  lemma WaitLasts(s: State, e: Event, k: Id)
    requires Enabled(s, e) && k in s.waits && s.running != Some(k)
    ensures var s' := Apply(s, e);
      if e.EResume? && s.current[s.index] == k then Runs(s', k)
      else k in s'.waits && s'.waits[k] == s.waits[k]
  {
    if e.EExit? { DieKeepsWaits(s, s.running.value); }
    else if e.EWait? { WaitFrame(s, s.running.value, e.gs, e.all); }
    else if !e.EResume? { OthersKeepWaits(s, e); }
  }

  /** What a coroutine in a wait is: suspended exactly while the wait is blocked, else about to run. */
  lemma InItsWait(s: State, k: Id)
    requires Inv(s) && k in s.waits
    ensures k in s.coros && (s.coros[k].status.Waiting? <==> Blocked(s.waits[k], s.signals))
    ensures s.coros[k].status.Waiting? || s.coros[k].status.Ready?
    ensures s.running != Some(k)
  {
    assert InWait(k, s.coros[k], s.waits[k], s.signals);
  }

  /** A coroutine that is resumed out of its wait was not blocked. */
  lemma ResumedIsUnblocked(s: State)
    requires Inv(s) && Enabled(s, EResume) && s.current[s.index] in s.waits
    ensures !Blocked(s.waits[s.current[s.index]], s.signals)
  {
    var k := s.current[s.index];
    InItsWait(s, k);
    assert Queue(s)[0] == k;
    assert k in Queue(s);
  }

  /** Monitors raise signals that exist or existed. */
  ghost predicate Registered(s: State) {
    forall m | m in s.monitors :: s.monitors[m].signal < s.nextId
  }

  lemma EffectKeepsRegistered(s: State, s': State, closed: set<Id>, dropped: set<Id>, attached: set<Id>, gone: set<Id>)
    requires Registered(s) && Effect(s, s', closed, dropped, attached, gone)
    requires forall g | g in attached :: g < s.nextId
    ensures Registered(s')
  {
  }

  lemma {:induction false} RunKeepsRegistered(events: seq<Event>, states: seq<State>, n: nat)
    requires IsRun(events, states) && n <= |events|
    ensures Registered(states[n])
  {
    if n > 0 {
      RunKeepsRegistered(events, states, n - 1);
      SchedulerProofs.RunKeepsInv(events, states, n - 1);
      TraceStep(events, states, n - 1);
      var s, e := states[n - 1], events[n - 1];
      EventEffect(s, e);
      EffectKeepsRegistered(s, states[n], ClosedBy(s, e), DroppedBy(s, e), AttachedBy(s, e), GoneBy(s, e));
    }
  }

  lemma WaitOfThree(s: State, c: Id, g: Id, h: Id, other: Id)
    requires Runs(s, c) && Own(s, c, g) && Own(s, c, h) && other in s.signals
    ensures MustWait(s, c, [g, h, other], false)
  {
    var gs := [g, h, other];
    assert gs[0] in gs && gs[1] in gs && gs[2] in gs;
    assert g in NamedOwn(s, c, gs);
    CountOwnAtLeastNamed(s, c, gs);
    assert CountOwn(s, c, gs) > 0 by { assert |NamedOwn(s, c, gs)| > 0; }
  }

  /** After a wait for any of three live signals, two of them its own, a coroutine is woken by the third
      exactly if that is its own too. */
  lemma OnlyOwnWakes(s: State, c: Id, g: Id, h: Id, other: Id)
    requires Owned(s.coros, s.signals) && Runs(s, c) && Own(s, c, g) && Own(s, c, h) && other in s.signals
    ensures var s1 := WaitForSignals(s, c, [g, h, other], false);
      var s2 := RaiseSignal(s1, other).0;
      && c in s1.coros && s1.coros[c].status.Waiting?
      && c in s2.coros && s2.coros[c].status == if Own(s, c, other) then Ready else Waiting
  {
    var gs := [g, h, other];
    var s1 := WaitForSignals(s, c, gs, false);
    assert gs[2] in gs;
    WaitOfThree(s, c, g, h, other);
    WaitFrame(s, c, gs, false);
    MarkFrame(s, c, gs, s.coros[c].epoch + 1);
    RaiseFrame(s1, other);
  }
  // ----- a sleep on one new signal -----

  /** What the scheduler makes of a new signal, raised at once or not, and the wait for it. */
  ghost predicate SleepFacts(k: Id, s: State, s': State, g: Id, live: bool) {
    && Effect(s, s', {}, {}, {}, {}) && g == s.nextId && g < s'.nextId
    && (live <==> g in s'.signals)
    && if live then s'.signals[g].owner == k && k in s'.waits && s'.waits[k] == Wait({g}, true, 0)
       else Runs(s', k)
  }

  lemma MakeHasFacts(k: Id, s: State)
    requires Inv(s) && Runs(s, k)
    ensures var (s1, g) := MakeSignal(s, k);
      && Inv(s1) && Runs(s1, k) && Effect(s, s1, {}, {}, {}, {}) && g == s.nextId && s1.nextId == g + 1
      && Own(s1, k, g) && g > 0
  {
    MakeKeepsInv(s, k);
    MakeEffect(s, k);
  }

  lemma WaitForOne(k: Id, s: State, g: Id)
    requires g in s.signals ==> s.signals[g].owner == k
    ensures MustWait(s, k, [g], true) <==> g in s.signals
    ensures g in s.signals ==> NewWait(s, k, [g], true) == Wait({g}, true, 0)
  {
    var gs := [g];
    assert gs[..0] == [] && CountOwn(s, k, gs) == if Own(s, k, g) then 1 else 0;
    if Own(s, k, g) { assert NamedOwn(s, k, gs) == {g}; }
  }

  lemma MakeAndWait(k: Id, s: State)
    requires Inv(s) && Runs(s, k)
    ensures var (s1, g) := MakeSignal(s, k);
      var s' := WaitForSignals(s1, k, [g], true);
      Inv(s') && SleepFacts(k, s, s', g, true)
  {
    var (s1, g) := MakeSignal(s, k);
    MakeHasFacts(k, s);
    WaitInScheduler(s1, k, [g], true);
    WaitForOne(k, s1, g);
    SleepsLive(k, s, s1, WaitForSignals(s1, k, [g], true), g);
  }

  lemma SleepsLive(k: Id, s: State, s1: State, s': State, g: Id)
    requires Below(s) && Effect(s, s1, {}, {}, {}, {}) && Effect(s1, s', {}, {}, {}, {})
    requires g == s.nextId < s1.nextId && Own(s1, k, g)
    requires k in s'.waits && s'.waits[k] == Wait({g}, true, 0)
    ensures SleepFacts(k, s, s', g, true)
  {
  }

  // ----- raises -----

  /** Signals are closed, and nothing else happens in the scheduler. */
  ghost predicate OnlyRaises(s: State, s': State, closed: set<Id>) {
    Effect(s, s', closed, {}, {}, {}) && s'.waits == s.waits && forall c | Runs(s, c) :: Runs(s', c)
  }

  lemma RaiseOnlyRaises(s: State, g: Id)
    requires Links(s)
    ensures OnlyRaises(s, RaiseSignal(s, g).0, {g})
  {
    RaiseEffect(s, g);
    if g in s.signals { RaiseFrame(s, g); }
    forall c | Runs(s, c) ensures Runs(RaiseSignal(s, g).0, c) { RaiseKeepsRunner(s, RaiseSignal(s, g).0, g, c); }
  }

  lemma RaisesTwice(s: State, s1: State, s2: State, closed: set<Id>, g: Id)
    requires Below(s) && OnlyRaises(s, s1, closed) && OnlyRaises(s1, s2, {g})
    ensures OnlyRaises(s, s2, closed + {g})
  {
    EffectTwice(s, s1, s2, closed, {}, {g}, {});
  }
}
