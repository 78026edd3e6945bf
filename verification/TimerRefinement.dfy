/** The code of module TimerCode refines the state machine of module TimerTask. */
module TimerRefinement {
  import opened Coroutines
  import opened Effects
  import opened SchedulerProofs
  import opened TimerCode
  import opened Wrappers
  import Q = TimerQueue
  import T = TimerTask

  // ----- what an effect leaves of the invariant -----

  /** An effect, and a new heap, that concern the sleeping timer by nothing but perhaps its wake signal. */
  ghost predicate Harmless(k: Id, w: World, w': World,
                           closed: set<Id>, dropped: set<Id>, attached: set<Id>, gone: set<Id>) {
    && Effect(w.sched, w'.sched, closed, dropped, attached, gone)
    && (forall g | g in attached :: g < w.sched.nextId && (w.pc.Sleeping? ==> g != w.wake))
    && (!w.pc.Finished? ==> k !in gone)
  }

  /** Entries of others may come into the heap; the timer's own leaves it when it is raised. */
  ghost predicate HeapKept(w: World, w': World) {
    && Q.IsHeap(w'.heap)
    && (forall e | e in w'.heap && e !in w.heap :: e.signal < w.sched.nextId && (w.pc.Sleeping? ==> e.signal != w.wake))
    && (w.pc.Sleeping? && w.wake in w'.sched.signals && Q.Entry(w.hist.wakeAt, w.wake) in w.heap ==>
          Q.Entry(w.hist.wakeAt, w.wake) in w'.heap)
  }

  predicate SamePlace(w: World, w': World) {
    w'.pc == w.pc && w'.wake == w.wake && w'.hist.wakeAt == w.hist.wakeAt
  }

  lemma CoreKept(k: Id, w: World, w': World,
                 closed: set<Id>, dropped: set<Id>, attached: set<Id>, gone: set<Id>)
    requires Core(k, w) && Harmless(k, w, w', closed, dropped, attached, gone)
    requires HeapKept(w, w') && SamePlace(w, w')
    ensures Core(k, w')
    ensures w.pc.Sleeping? ==> (Raised(w'.sched, w.wake) <==> Raised(w.sched, w.wake) || w.wake in closed)
  {
    EffectKeepsRegistered(w.sched, w'.sched, closed, dropped, attached, gone);
  }

  /** The coroutine is suspended exactly as long as its signal is live. */
  lemma SuspendedIff(k: Id, w: World)
    requires InvW(k, w) && w.pc.Sleeping?
    ensures k in w.sched.coros
    ensures w.sched.coros[k].status.Waiting? <==> !Raised(w.sched, w.wake)
  {
    BlockedIff(w);
    if k in w.sched.waits { InItsWait(w.sched, k); }
  }

  lemma BlockedIff(w: World)
    ensures Blocked(SleepWait(w), w.sched.signals) <==> !Raised(w.sched, w.wake)
  {
    assert w.wake in w.sched.signals ==> w.wake in LiveNamed(SleepWait(w), w.sched.signals);
  }

  // ----- the coroutine's own steps -----

  lemma ArmRaised(k: Id, s: State)
    requires Inv(s) && Runs(s, k)
    ensures var (s1, g) := MakeSignal(s, k);
      var s' := WaitForSignals(RaiseSignal(s1, g).0, k, [g], true);
      Inv(s') && SleepFacts(k, s, s', g, false)
  {
    var (s1, g) := MakeSignal(s, k);
    MakeHasFacts(k, s);
    RaiseWhileRunning(s1, g, k);
    var s2 := RaiseSignal(s1, g).0;
    WaitInScheduler(s2, k, [g], true);
    WaitForOne(k, s2, g);
    ArmedRaised(k, s, s1, s2, WaitForSignals(s2, k, [g], true), g);
  }

  lemma ArmedRaised(k: Id, s: State, s1: State, s2: State, s': State, g: Id)
    requires Below(s) && Effect(s, s1, {}, {}, {}, {}) && Effect(s1, s2, {g}, {}, {}, {})
    requires Effect(s2, s', {}, {}, {}, {}) && g == s.nextId < s1.nextId && g in s1.signals && Runs(s', k)
    ensures SleepFacts(k, s, s', g, false)
  {
  }

  /** The scheduler's coroutine and heap are in order; nothing about the sleep. */
  ghost predicate Base(k: Id, w: World) {
    Registered(w.sched) && HeapOk(w) && k < w.sched.nextId && k in w.sched.coros
  }

  lemma InsertFacts(heap: seq<Q.Entry>, e: Q.Entry)
    requires Q.IsHeap(heap)
    ensures Q.IsHeap(Q.Insert(heap, e))
    ensures forall f :: f in Q.Insert(heap, e) <==> f in heap || f == e
  {
    Q.InsertKeepsHeap(heap, e);
    Q.InsertAdds(heap, e);
    forall f ensures f in Q.Insert(heap, e) <==> f in heap || f == e {
      assert f in Q.Insert(heap, e) <==> f in multiset(Q.Insert(heap, e));
      assert f in heap <==> f in multiset(heap);
    }
  }

  lemma ArmedWorld(k: Id, w: World, w': World, live: bool)
    requires Base(k, w) && Below(w.sched) && SleepFacts(k, w.sched, w'.sched, w'.wake, live)
    requires Q.IsHeap(w'.heap)
    requires forall e :: e in w'.heap <==> e in w.heap || (live && e == Q.Entry(w'.hist.wakeAt, w'.wake))
    requires w' == w.(sched := w'.sched, heap := w'.heap, pc := Sleeping, wake := w'.wake, hist := w'.hist)
    ensures Core(k, w') && Asleep(k, w') && (Raised(w'.sched, w'.wake) <==> !live)
  {
    EffectKeepsRegistered(w.sched, w'.sched, {}, {}, {}, {});
  }

  predicate Delays(w: World) {
    w.rec.due - w.now > 0
  }

  lemma ArmInScheduler(k: Id, w: World)
    requires Inv(w.sched) && Runs(w.sched, k)
    ensures var w' := Arm(k, w);
      Inv(w'.sched) && SleepFacts(k, w.sched, w'.sched, w'.wake, Delays(w))
  {
    if Delays(w) { MakeAndWait(k, w.sched); } else { ArmRaised(k, w.sched); }
  }

  lemma ArmIsSane(k: Id, w: World)
    requires Base(k, w) && Below(w.sched) && SleepFacts(k, w.sched, Arm(k, w).sched, Arm(k, w).wake, Delays(w))
    ensures Sane(k, Arm(k, w)) && (Raised(Arm(k, w).sched, Arm(k, w).wake) <==> !Delays(w))
  {
    if Delays(w) { InsertFacts(w.heap, Q.Entry(w.cached + (w.rec.due - w.now), w.sched.nextId)); }
    ArmedWorld(k, w, Arm(k, w), Delays(w));
  }

  lemma ArmIsArm(k: Id, w: World)
    requires k in w.sched.coros && (Raised(Arm(k, w).sched, Arm(k, w).wake) <==> !Delays(w))
    ensures Abs(Arm(k, w)) == T.Arm(Abs(w))
  {
  }

  // ----- steps of the others -----

  lemma Still(k: Id, w: World, w': World)
    requires Core(k, w) && w'.sched == w.sched && w'.heap == w.heap && SamePlace(w, w')
    ensures Core(k, w') && (Asleep(k, w) ==> Asleep(k, w'))
  {
  }

  lemma EventIsHarmless(k: Id, w: World, e: Event)
    requires Inv(w.sched) && Core(k, w) && Possible(k, w, Others(e))
    ensures Harmless(k, w, Next(k, w, Others(e)), ClosedBy(w.sched, e), DroppedBy(w.sched, e),
                     AttachedBy(w.sched, e), GoneBy(w.sched, e))
  {
    EventEffect(w.sched, e);
  }

  lemma EventSparesWake(k: Id, w: World, e: Event)
    requires Links(w.sched) && Core(k, w) && Possible(k, w, Others(e)) && w.pc.Sleeping? && w.wake in w.sched.signals
    ensures w.wake !in ClosedBy(w.sched, e)
  {
  }

  lemma EventKeepsAsleep(k: Id, w: World, e: Event)
    requires Inv(w.sched) && Asleep(k, w) && Possible(k, w, Others(e)) && w.pc.Sleeping?
    ensures Asleep(k, Next(k, w, Others(e)))
  {
    WaitLasts(w.sched, e, k);
    if e.EResume? && w.sched.current[w.sched.index] == k {
      ResumedIsUnblocked(w.sched);
      BlockedIff(w);
      QuietHasEffect(w.sched, e);
    }
  }

  lemma OthersRefine(k: Id, w: World, e: Event)
    requires InvW(k, w) && Possible(k, w, Others(e))
    ensures var w' := Next(k, w, Others(e)); InvW(k, w') && Abs(w') == Abs(w)
  {
    var w' := Next(k, w, Others(e));
    StepKeepsInv(w.sched, e);
    EventIsHarmless(k, w, e);
    CoreKept(k, w, w', ClosedBy(w.sched, e), DroppedBy(w.sched, e), AttachedBy(w.sched, e), GoneBy(w.sched, e));
    if w.pc.Sleeping? {
      EventKeepsAsleep(k, w, e);
      if w.wake in w.sched.signals { EventSparesWake(k, w, e); }
    }
  }

  lemma {:induction false} RaiseAllKeepsInv(s: State, entries: seq<Q.Entry>)
    requires Inv(s)
    ensures Inv(RaiseAll(s, entries))
  {
    if entries != [] {
      var n := |entries| - 1;
      RaiseAllKeepsInv(s, entries[..n]);
      RaiseKeepsInv(RaiseAll(s, entries[..n]), entries[n].signal);
    }
  }

  lemma {:induction false} RaiseAllKeepsLinks(s: State, entries: seq<Q.Entry>)
    requires Links(s)
    ensures Links(RaiseAll(s, entries))
  {
    if entries != [] {
      var n := |entries| - 1;
      RaiseAllKeepsLinks(s, entries[..n]);
      RaiseKeepsLinks(RaiseAll(s, entries[..n]), entries[n].signal);
    }
  }

  lemma SignalsInMore(entries: seq<Q.Entry>, e: Q.Entry)
    ensures SignalsIn(entries + [e]) == SignalsIn(entries) + {e.signal}
  {
  }

  lemma {:induction false} RaiseAllOnlyRaises(s: State, entries: seq<Q.Entry>)
    requires Links(s)
    ensures OnlyRaises(s, RaiseAll(s, entries), SignalsIn(entries))
  {
    if entries != [] {
      var n := |entries| - 1;
      var s1 := RaiseAll(s, entries[..n]);
      RaiseAllOnlyRaises(s, entries[..n]);
      RaiseAllKeepsLinks(s, entries[..n]);
      RaiseOnlyRaises(s1, entries[n].signal);
      RaisesTwice(s, s1, RaiseAll(s, entries), SignalsIn(entries[..n]), entries[n].signal);
      assert entries == entries[..n] + [entries[n]];
      SignalsInMore(entries[..n], entries[n]);
    }
  }

  /** A step that raises signals of others, or the wake signal, during the sleep or not. */
  lemma RaisingKept(k: Id, w: World, w': World, closed: set<Id>)
    requires Sane(k, w) && OnlyRaises(w.sched, w'.sched, closed) && HeapKept(w, w') && SamePlace(w, w')
    ensures Sane(k, w')
    ensures w.pc.Sleeping? ==> (Raised(w'.sched, w.wake) <==> Raised(w.sched, w.wake) || w.wake in closed)
  {
    CoreKept(k, w, w', closed, {}, {}, {});
  }

  lemma CancelRefines(k: Id, w: World)
    requires Sane(k, w) && Links(w.sched) && w.rec.open
    ensures Sane(k, Cancelled(w)) && Abs(Cancelled(w)) == T.Apply(Abs(w), T.Cancel)
  {
    RaiseOnlyRaises(w.sched, w.wake);
    RaisingKept(k, w, Cancelled(w), {w.wake});
  }

  lemma DelayRefines(k: Id, w: World, g: Id, delay: int)
    requires Sane(k, w) && Links(w.sched) && Possible(k, w, Delay(g, delay))
    ensures Sane(k, Delayed(w, g, delay)) && Abs(Delayed(w, g, delay)) == Abs(w)
  {
    if delay > 0 {
      InsertFacts(w.heap, Q.Entry(w.cached + delay, g));
      CoreKept(k, w, Delayed(w, g, delay), {}, {}, {}, {});
    } else {
      RaiseOnlyRaises(w.sched, g);
      RaisingKept(k, w, Delayed(w, g, delay), {g});
    }
  }

  /** An update raises exactly the entries that are due, and keeps the others. */
  lemma FireFacts(heap: seq<Q.Entry>, now: int)
    requires Q.IsHeap(heap)
    ensures Q.IsHeap(Q.Fire(heap, now).1)
    ensures forall e :: e in Q.Fire(heap, now).0 <==> e in heap && e.due <= now
    ensures forall e :: e in Q.Fire(heap, now).1 <==> e in heap && e.due > now
  {
    Q.FireIsExact(heap, now);
    var (fired, rest) := Q.Fire(heap, now);
    forall e
      ensures e in fired <==> e in heap && e.due <= now
      ensures e in rest <==> e in heap && e.due > now
    {
      assert e in heap <==> e in multiset(heap);
      assert e in fired <==> e in multiset(fired);
      assert e in rest <==> e in multiset(rest);
    }
  }

  /** The wake signal is raised by an update exactly when its time has come. */
  lemma WakeIsDue(k: Id, w: World)
    requires Core(k, w) && w.pc.Sleeping? && w.wake in w.sched.signals
    ensures w.wake in SignalsIn(Q.Fire(w.heap, w.now).0) <==> w.hist.wakeAt <= w.now
  {
    FireFacts(w.heap, w.now);
    if w.hist.wakeAt <= w.now { assert Q.Entry(w.hist.wakeAt, w.wake) in Q.Fire(w.heap, w.now).0; }
  }

  lemma UpdateRefines(k: Id, w: World)
    requires Sane(k, w) && Links(w.sched) && Possible(k, w, Update)
    ensures var w' := Next(k, w, Update); Sane(k, w') && Abs(w') == T.Apply(Abs(w), T.Update)
  {
    var (fired, rest) := Q.Fire(w.heap, w.now);
    FireFacts(w.heap, w.now);
    RaiseAllOnlyRaises(w.sched, fired);
    if w.pc.Sleeping? && w.wake in w.sched.signals { WakeIsDue(k, w); }
    RaisingKept(k, w, Next(k, w, Update), SignalsIn(fired));
  }

  // ----- the refinement -----

  lemma RunnerRuns(k: Id, w: World)
    requires InvW(k, w) && Runner(k, w)
    ensures Runs(w.sched, k) && Base(k, w) && (w.pc.Sleeping? ==> Raised(w.sched, w.wake))
  {
    if w.pc.Sleeping? && k in w.sched.waits { InItsWait(w.sched, k); }
  }

  ghost predicate Refines(k: Id, w: World, st: Step)
    requires Possible(k, w, st)
  {
    && Sane(k, Next(k, w, st))
    && T.Enabled(Abs(w), AbsStep(w, st)) && T.Apply(Abs(w), AbsStep(w, st)) == Abs(Next(k, w, st))
  }

  ghost predicate Rearms(k: Id, w: World)
    requires k in w.sched.coros
  {
    Sane(k, Arm(k, w)) && Abs(Arm(k, w)) == T.Arm(Abs(w))
  }

  lemma ArmAgain(k: Id, w: World)
    requires Inv(w.sched) && Runs(w.sched, k) && Base(k, w)
    ensures Inv(Arm(k, w).sched) && Rearms(k, w)
  {
    ArmInScheduler(k, w);
    ArmIsSane(k, w);
    ArmIsArm(k, w);
  }

  lemma LeaveRefines(k: Id, w: World)
    requires Base(k, w) && w.wake < w.sched.nextId
    ensures Sane(k, Leave(w)) && Abs(Leave(w)) == T.Finish(Abs(w))
  {
  }

  lemma CallRefines(k: Id, w: World, later: int)
    requires Sane(k, w) && Base(k, w) && Possible(k, w, Step.Resume(later)) && Raised(w.sched, w.wake)
    requires !w.rec.cancelled && w.now >= w.rec.due
    ensures Refines(k, w, Step.Resume(later))
  {
  }

  lemma ResumeRefines(k: Id, w: World, later: int)
    requires Sane(k, w) && Base(k, w) && Possible(k, w, Step.Resume(later)) && Raised(w.sched, w.wake)
    requires !w.rec.cancelled && w.now < w.rec.due ==> Rearms(k, w.(now := later))
    ensures Refines(k, w, Step.Resume(later))
  {
    if w.rec.cancelled { LeaveRefines(k, w); }
    else if w.now >= w.rec.due { CallRefines(k, w, later); }
    else { RearmRefines(k, w, later); }
  }

  lemma RearmRefines(k: Id, w: World, later: int)
    requires k in w.sched.coros && Possible(k, w, Step.Resume(later)) && Raised(w.sched, w.wake)
    requires !w.rec.cancelled && w.now < w.rec.due && Rearms(k, w.(now := later))
    ensures Refines(k, w, Step.Resume(later))
  {
  }

  lemma ReturnRefines(k: Id, w: World)
    requires Sane(k, w) && Base(k, w) && Possible(k, w, Return)
    requires w.rec.kind.Interval? ==> Rearms(k, Repeated(w))
    ensures Refines(k, w, Return)
  {
    if w.rec.kind.Oneshot? { LeaveRefines(k, w); }
  }

  lemma ResumeStep(k: Id, w: World, later: int)
    requires InvW(k, w) && Possible(k, w, Step.Resume(later))
    ensures Refines(k, w, Step.Resume(later)) && Inv(GoOn(k, w, later).sched)
  {
    RunnerRuns(k, w);
    if !w.rec.cancelled && w.now < w.rec.due { ArmAgain(k, w.(now := later)); }
    ResumeRefines(k, w, later);
  }

  lemma ReturnStep(k: Id, w: World)
    requires InvW(k, w) && Possible(k, w, Return)
    ensures Refines(k, w, Return) && Inv(ReturnFrom(k, w).sched)
  {
    RunnerRuns(k, w);
    if w.rec.kind.Interval? { ArmAgain(k, Repeated(w)); }
    ReturnRefines(k, w);
  }

  lemma BeginStep(k: Id, w: World)
    requires InvW(k, w) && Possible(k, w, Begin)
    ensures Refines(k, w, Begin) && Inv(Arm(k, w).sched)
  {
    RunnerRuns(k, w);
    ArmAgain(k, w);
  }

  lemma RecordStepRefines(k: Id, w: World, st: Step)
    requires Sane(k, w) && Possible(k, w, st) && (st.Reset? || st.Tick?)
    ensures Refines(k, w, st) && Next(k, w, st).sched == w.sched
  {
    Still(k, w, Next(k, w, st));
  }

  lemma RaisingStepRefines(k: Id, w: World, st: Step)
    requires Sane(k, w) && Links(w.sched) && Possible(k, w, st) && (st.Cancel? || st.Update? || st.Delay?)
    ensures Refines(k, w, st)
  {
    match st
    case Cancel => if w.rec.open { CancelRefines(k, w); }
    case Update => UpdateRefines(k, w);
    case Delay(g, delay) => DelayRefines(k, w, g, delay);
  }

  lemma RaisingStepKeepsInv(k: Id, w: World, st: Step)
    requires Inv(w.sched) && Possible(k, w, st) && (st.Cancel? || st.Update? || st.Delay?)
    ensures Inv(Next(k, w, st).sched)
  {
    match st
    case Cancel => RaiseKeepsInv(w.sched, w.wake);
    case Update => RaiseAllKeepsInv(w.sched, Q.Fire(w.heap, w.now).0);
    case Delay(g, delay) => RaiseKeepsInv(w.sched, g);
  }

  /** Every step of the code is the step of module TimerTask that it is meant to be. */
  lemma StepRefines(k: Id, w: World, st: Step)
    requires InvW(k, w) && Possible(k, w, st)
    ensures Refines(k, w, st) && InvW(k, Next(k, w, st))
  {
    if st.Begin? { BeginStep(k, w); }
    else if st.Resume? { ResumeStep(k, w, st.later); }
    else if st.Return? { ReturnStep(k, w); }
    else if st.Reset? || st.Tick? { RecordStepRefines(k, w, st); }
    else if st.Others? { OthersRefine(k, w, st.e); }
    else { RaisingStepKeepsInv(k, w, st); RaisingStepRefines(k, w, st); }
  }

  lemma FreshHolds(k: Id, w: World)
    requires Fresh(k, w)
    ensures InvW(k, w) && Abs(w) == T.Create(w.rec.kind, w.rec.timeout, w.now, w.cached) && w.cached <= w.now
  {
  }

  /** The actions of module TimerTask that the steps are, and the states they lead through. */
  ghost function AbsSteps(steps: seq<Step>, worlds: seq<World>): seq<T.Action>
    requires |worlds| == |steps| + 1
  {
    seq(|steps|, i requires 0 <= i < |steps| => AbsStep(worlds[i], steps[i]))
  }

  ghost function AbsStates(worlds: seq<World>): seq<T.State> {
    seq(|worlds|, i requires 0 <= i < |worlds| => Abs(worlds[i]))
  }

  lemma RunLeads(k: Id, steps: seq<Step>, worlds: seq<World>, i: nat)
    requires IsPath(k, steps, worlds) && i < |steps|
    ensures Leads(k, worlds[i], steps[i], worlds[i + 1])
  {
    assert LeadsAt(k, steps, worlds, i);
  }

  lemma PathStepKeepsInvW(k: Id, steps: seq<Step>, worlds: seq<World>, i: nat)
    requires IsPath(k, steps, worlds) && i < |steps|
    ensures InvW(k, worlds[i]) ==> InvW(k, worlds[i + 1])
  {
    RunLeads(k, steps, worlds, i);
    if InvW(k, worlds[i]) { StepRefines(k, worlds[i], steps[i]); }
  }

  lemma {:induction false} PathKeepsInvW(k: Id, steps: seq<Step>, worlds: seq<World>, n: nat)
    requires IsPath(k, steps, worlds) && n < |worlds|
    ensures InvW(k, worlds[0]) ==> InvW(k, worlds[n])
  {
    if n > 0 {
      PathKeepsInvW(k, steps, worlds, n - 1);
      PathStepKeepsInvW(k, steps, worlds, n - 1);
    }
  }

  lemma RunKeepsInvW(k: Id, steps: seq<Step>, worlds: seq<World>, n: nat)
    requires TimerCode.IsRun(k, steps, worlds) && n < |worlds|
    ensures InvW(k, worlds[n])
  {
    FreshHolds(k, worlds[0]);
    PathKeepsInvW(k, steps, worlds, n);
  }

  lemma RunStepRefines(k: Id, steps: seq<Step>, worlds: seq<World>, i: nat)
    requires TimerCode.IsRun(k, steps, worlds) && i < |steps|
    ensures T.Enabled(Abs(worlds[i]), AbsStep(worlds[i], steps[i]))
    ensures Abs(worlds[i + 1]) == T.Apply(Abs(worlds[i]), AbsStep(worlds[i], steps[i]))
  {
    RunKeepsInvW(k, steps, worlds, i);
    RunLeads(k, steps, worlds, i);
    StepRefines(k, worlds[i], steps[i]);
  }

  /** The refinement: step by step, every run of the code, of the scheduler and of the heap is a run of
      module TimerTask. */
  lemma RunRefines(k: Id, steps: seq<Step>, worlds: seq<World>)
    requires TimerCode.IsRun(k, steps, worlds)
    ensures T.IsRun(AbsSteps(steps, worlds), AbsStates(worlds))
  {
    FreshHolds(k, worlds[0]);
    var actions, states := AbsSteps(steps, worlds), AbsStates(worlds);
    forall i | 0 <= i < |actions|
      ensures T.Enabled(states[i], actions[i]) && states[i + 1] == T.Apply(states[i], actions[i])
    {
      RunStepRefines(k, steps, worlds, i);
    }
  }

  /** So in the scheduler, too, callbacks are not early and a period apart, and a one-shot timer calls once. */
  lemma CodeNeverEarly(k: Id, steps: seq<Step>, worlds: seq<World>, n: nat)
    requires TimerCode.IsRun(k, steps, worlds) && n < |worlds|
    ensures T.Spaced(worlds[n].hist.calls)
    ensures worlds[n].rec.kind.Oneshot? ==> |worlds[n].hist.calls| <= 1
  {
    RunRefines(k, steps, worlds);
    T.NeverEarly(AbsSteps(steps, worlds), AbsStates(worlds), n);
  }

  lemma CodeCancelIsFinal(k: Id, steps: seq<Step>, worlds: seq<World>, i: nat, j: nat)
    requires TimerCode.IsRun(k, steps, worlds) && i < |steps| && i < j < |worlds|
    requires steps[i].Cancel? && worlds[i].rec.open
    ensures worlds[j].hist.calls == worlds[i].hist.calls
  {
    RunRefines(k, steps, worlds);
    T.CancelIsFinal(AbsSteps(steps, worlds), AbsStates(worlds), i, j);
  }

  /** A reset asked for a time before the one at which the heap will raise the wake signal. */
  predicate Shortens(w: World, st: Step) {
    st.Reset? && w.rec.open && w.pc.Sleeping? && w.now + st.timeout < w.hist.wakeAt
  }

  lemma NeverShortened(k: Id, steps: seq<Step>, worlds: seq<World>, n: nat)
    requires TimerCode.IsRun(k, steps, worlds) && n < |worlds| && worlds[n].pc.Sleeping?
    requires forall i | 0 <= i < n :: !Shortens(worlds[i], steps[i])
    ensures worlds[n].cached >= worlds[n].rec.due ==> Raised(worlds[n].sched, worlds[n].wake)
  {
    RunRefines(k, steps, worlds);
    var actions, states := AbsSteps(steps, worlds), AbsStates(worlds);
    forall i | 0 <= i < n ensures !T.Shortens(states[i], actions[i]) { assert !Shortens(worlds[i], steps[i]); }
    T.NeverOverdue(actions, states, n);
  }

  /** The scheduler keeps a sleeping timer suspended exactly as long as its wake signal is live. */
  lemma CodeSuspendedIff(k: Id, steps: seq<Step>, worlds: seq<World>, n: nat)
    requires TimerCode.IsRun(k, steps, worlds) && n < |worlds| && worlds[n].pc.Sleeping?
    ensures var w := worlds[n];
      k in w.sched.coros && (w.sched.coros[k].status.Waiting? <==> !Raised(w.sched, w.wake))
  {
    RunKeepsInvW(k, steps, worlds, n);
    SuspendedIff(k, worlds[n]);
  }

  /** A timer whose sleep was never shortened is not suspended past the first timer update at its due time. */
  lemma CodeNeverOverdue(k: Id, steps: seq<Step>, worlds: seq<World>, n: nat)
    requires TimerCode.IsRun(k, steps, worlds) && n < |worlds| && worlds[n].pc.Sleeping?
    requires forall i | 0 <= i < n :: !Shortens(worlds[i], steps[i])
    ensures var w := worlds[n];
      k in w.sched.coros && (w.sched.coros[k].status.Waiting? ==> w.cached < w.rec.due)
  {
    CodeSuspendedIff(k, steps, worlds, n);
    NeverShortened(k, steps, worlds, n);
  }

  /** `bio_create_timer`: a new ordinary coroutine, and a record of the kind and timeout asked for, due one
      timeout from now, open and not cancelled; the heap and the clocks are left alone. */
  lemma CreatedGives(sched: State, heap: seq<Q.Entry>, now: int, cached: int, kind: T.Kind, timeout: int)
    ensures var w := Created(sched, heap, now, cached, kind, timeout);
      && w.rec.kind == kind && w.rec.timeout == timeout && w.rec.due == now + timeout
      && w.rec.open && !w.rec.cancelled && w.pc.NotStarted? && w.hist.calls == [] && w.hist.freed == 0
      && w.heap == heap && w.now == now && w.cached == cached
      && sched.nextId in w.sched.coros && w.sched.coros[sched.nextId].status.Ready?
      && !w.sched.coros[sched.nextId].daemon
      && Abs(w) == T.Create(kind, timeout, now, cached)
  {
  }

  /** At any point of any run of the scheduler a timer of any kind and timeout may be created. */
  lemma AnyMomentIsFresh(events: seq<Event>, states: seq<State>, n: nat,
                         heap: seq<Q.Entry>, now: int, cached: int, kind: T.Kind, timeout: int)
    requires Coroutines.IsRun(events, states) && n < |states| && cached <= now
    requires Q.IsHeap(heap) && forall e | e in heap :: e.signal < states[n].nextId
    ensures var w := Created(states[n], heap, now, cached, kind, timeout);
      Fresh(states[n].nextId, w) && w.rec == Record(kind, timeout, now + timeout, false, true)
  {
    var w := Created(states[n], heap, now, cached, kind, timeout);
    CreatedGives(states[n], heap, now, cached, kind, timeout);
    SchedulerProofs.RunKeepsInv(events, states, n);
    RunKeepsRegistered(events, states, n);
    SpawnKeepsInv(states[n], false);
    SpawnEffect(states[n], false);
    EffectKeepsRegistered(states[n], w.sched, {}, {}, {}, {});
  }

  const FIRST := [Others(ENextRound), Others(EResume), Begin]
  const NEW := Created(START, [], 0, 0, T.Oneshot, 10)

  lemma NewIsFresh()
    ensures Fresh(1, NEW)
  {
    AnyMomentIsFresh([], [START], 0, [], 0, 0, T.Oneshot, 10);
  }

  lemma FirstResumes() returns (w1: World, w2: World)
    ensures Leads(1, NEW, FIRST[0], w1) && Leads(1, w1, FIRST[1], w2)
    ensures Runner(1, w2) && w2.pc.NotStarted? && Abs(w2) == Abs(NEW)
  {
    w1 := Next(1, NEW, FIRST[0]);
    w2 := Next(1, w1, FIRST[1]);
  }

  lemma FirstSteps() returns (worlds: seq<World>)
    ensures |worlds| == 4 && worlds[0] == NEW && worlds[2].pc.NotStarted? && Abs(worlds[2]) == Abs(NEW)
    ensures forall i | 0 <= i < 3 :: Leads(1, worlds[i], FIRST[i], worlds[i + 1])
  {
    var w1, w2 := FirstResumes();
    worlds := [NEW, w1, w2, Next(1, w2, Begin)];
  }

  /** A run in which a timer is created and its coroutine goes to sleep. */
  lemma TimerSleeps() returns (worlds: seq<World>)
    ensures TimerCode.IsRun(1, FIRST, worlds) && worlds[3].pc.Sleeping?
    ensures 1 in worlds[3].sched.coros && worlds[3].sched.coros[1].status.Waiting?
  {
    NewIsFresh();
    worlds := FirstSteps();
    RunStepRefines(1, FIRST, worlds, 2);
    CodeSuspendedIff(1, FIRST, worlds, 3);
  }
}
