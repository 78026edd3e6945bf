/** The code of module ServiceCode refines the state machine of module ServiceCall. */
module ServiceRefinement {
  import opened Coroutines
  import opened Effects
  import opened SchedulerProofs
  import opened ServiceCode
  import opened Wrappers
  import A = ServiceCall
  import Mailbox

  // ----- what an effect leaves of the invariant -----

  /** The mailbox's parked signal is none of the call's. */
  ghost predicate Apart(x: Call, w: World, box: Option<Mailbox.Box>) {
    box.Some? ==>
      && box.value.signal < w.sched.nextId
      && (x.cancel != INVALID ==> box.value.signal != x.cancel)
      && (InCall(w) ==> box.value.signal != w.ack && box.value.signal != w.mon)
  }

  lemma GivenKept(x: Call, w: World, w': World,
                  closed: set<Id>, dropped: set<Id>, attached: set<Id>, gone: set<Id>)
    requires Given(x, w) && Effect(w.sched, w'.sched, closed, dropped, attached, gone)
    requires forall g | g in attached :: g < w.sched.nextId
    requires Apart(x, w, w'.box)
    ensures Given(x, w')
  {
    EffectKeepsRegistered(w.sched, w'.sched, closed, dropped, attached, gone);
  }

  /** An effect closes the monitor signal exactly if it ends the service, and drops the monitor only then. */
  ghost predicate Harmless(x: Call, w: World, closed: set<Id>, dropped: set<Id>, attached: set<Id>, gone: set<Id>) {
    && x.caller !in gone
    && (w.mon in w.sched.signals ==> (w.mon in closed <==> x.service in gone))
    && (w.mon in w.sched.signals && w.monitor in dropped ==> x.service in gone)
    && w.ack !in attached && w.mon !in attached
  }

  lemma BoundKept(x: Call, w: World, w': World,
                  closed: set<Id>, dropped: set<Id>, attached: set<Id>, gone: set<Id>)
    requires Given(x, w) && Handles(x, w) && Bound(x, w) && x.caller in w.sched.coros
    requires Effect(w.sched, w'.sched, closed, dropped, attached, gone)
    requires Harmless(x, w, closed, dropped, attached, gone)
    requires w'.ack == w.ack && w'.mon == w.mon && w'.monitor == w.monitor
    requires w'.box.Some? ==> w'.box.value.signal != w.ack && w'.box.value.signal != w.mon
    ensures Handles(x, w') && Bound(x, w') && x.caller in w'.sched.coros
  {
  }

  lemma BlockedIff(x: Call, w: World)
    requires x.kind == A.Own ==> x.cancel != INVALID
    ensures Blocked(CallWait(x, w), w.sched.signals) <==> AllLive(x, w)
  {
    var c, s := CallWait(x, w), w.sched.signals;
    assert w.ack in c.named && w.mon in c.named && (x.kind == A.Own ==> x.cancel in c.named);
    if AllLive(x, w) { assert LiveNamed(c, s) == c.named; }
    if Blocked(c, s) { assert forall g | g in c.named :: g in LiveNamed(c, s); }
  }

  /** The caller is woken exactly by what it waits for: of the cancel signals, only one of its own. */
  lemma SuspendedIff(x: Call, w: World)
    requires InvW(x, w) && w.pc.Waiting?
    ensures x.caller in w.sched.coros
    ensures w.sched.coros[x.caller].status.Waiting? <==> AllLive(x, w)
  {
    BlockedIff(x, w);
    if x.caller in w.sched.waits { InItsWait(w.sched, x.caller); }
  }

  // ----- the abstract steps -----

  /** `t'` continues the run `t` of the call and ends in `b`. */
  ghost predicate Continues(t: A.Path, t': A.Path, b: A.State) {
    A.Legal(t') && t'.First() == t.First() && t'.state == b
  }

  /** Whether there is room in the mailbox is for the others to change. */
  lemma Change(t: A.Path, b: A.State) returns (t': A.Path)
    requires A.Legal(t) && t.state.(room := b.room) == b
    ensures Continues(t, t', b)
  {
    t' := A.Step(t, A.ChangeRoom(b.room));
  }

  lemma One(t: A.Path, act: A.Action, b: A.State) returns (t': A.Path)
    requires A.Legal(t) && A.Enabled(t.state, act) && A.Apply(t.state, act).(room := b.room) == b
    ensures Continues(t, t', b)
  {
    t' := Change(A.Step(t, act), b);
  }

  lemma {:induction false} ContinuesKeepsInv(t: A.Path)
    requires A.Legal(t) && A.Inv(t.First())
    ensures A.Inv(t.state)
  {
    if t.Then? {
      ContinuesKeepsInv(t.before);
      A.StepKeepsInv(t.before.state, t.event);
    }
  }

  // ----- steps of the caller -----

  /** The invariant but for what the scheduler and module ServiceCall say. */
  ghost predicate Prepared(x: Call, w: World) {
    Given(x, w) && Handles(x, w) && Bound(x, w) && InCall(w) && x.caller in w.sched.coros
  }

  /** The invariant after the return, with the same exceptions. */
  ghost predicate Done(x: Call, w: World) {
    Given(x, w) && w.pc.Returned? && Closed(x, w) && w.ack != INVALID
  }

  lemma FinishKeepsInv(s: State, m: Id, mon: Id, ack: Id)
    requires Inv(s)
    ensures Inv(RaiseSignal(RaiseSignal(Unmonitor(s, m), mon).0, ack).0)
  {
    UnmonitorKeepsInv(s, m);
    RaiseKeepsInv(Unmonitor(s, m), mon);
    RaiseKeepsInv(RaiseSignal(Unmonitor(s, m), mon).0, ack);
  }

  lemma UnmonitorKeepsLinks(s: State, m: Id)
    requires Inv(s)
    ensures Links(Unmonitor(s, m))
  {
    UnmonitorKeepsInv(s, m);
  }

  lemma RaiseBoth(s: State, mon: Id, ack: Id)
    requires Links(s)
    ensures Effect(s, RaiseSignal(RaiseSignal(s, mon).0, ack).0, {mon, ack}, {}, {}, {})
  {
    var s1 := RaiseSignal(s, mon).0;
    RaiseEffect(s, mon);
    RaiseKeepsLinks(s, mon);
    RaiseEffect(s1, ack);
    EffectTwice(s, s1, RaiseSignal(s1, ack).0, {mon}, {}, {ack}, {});
    assert {mon} + {ack} == {mon, ack};
  }

  lemma FinishEffect(s: State, m: Id, mon: Id, ack: Id)
    requires Links(s) && Links(Unmonitor(s, m))
    ensures Effect(s, RaiseSignal(RaiseSignal(Unmonitor(s, m), mon).0, ack).0, {mon, ack}, {m}, {}, {})
  {
    var s1 := Unmonitor(s, m);
    UnmonitorEffect(s, m);
    RaiseBoth(s1, mon, ack);
    EffectTwice(s, s1, RaiseSignal(RaiseSignal(s1, mon).0, ack).0, {}, {m}, {mon, ack}, {});
    assert {} + {mon, ack} == {mon, ack} && {m} + {} == {m};
  }

  lemma FinishInScheduler(s: State, m: Id, mon: Id, ack: Id)
    requires Inv(s)
    ensures var s' := RaiseSignal(RaiseSignal(Unmonitor(s, m), mon).0, ack).0;
      Inv(s') && Effect(s, s', {mon, ack}, {m}, {}, {})
  {
    FinishKeepsInv(s, m, mon, ack);
    UnmonitorKeepsLinks(s, m);
    FinishEffect(s, m, mon, ack);
  }

  lemma FinishIsReturn(x: Call, w: World)
    requires Prepared(x, w)
    requires Effect(w.sched, Finish(x, w).sched, {w.mon, w.ack}, {w.monitor}, {}, {})
    ensures Done(x, Finish(x, w)) && Abs(x, Finish(x, w)) == A.Return(Abs(x, w))
  {
    GivenKept(x, w, Finish(x, w), {w.mon, w.ack}, {w.monitor}, {}, {});
  }

  /** The wait is skipped exactly when the monitor signal or the cancel signal was raised. */
  lemma MustWaitIff(x: Call, w: World)
    requires Prepared(x, w) && w.ack in w.sched.signals
    ensures MustWait(w.sched, x.caller, Signals(x, w), false)
      <==> !Raised(w.sched, w.mon) && !Raised(w.sched, x.cancel)
  {
    var gs, s := Signals(x, w), w.sched;
    assert gs[0] in gs && gs[1] in gs && gs[2] in gs;
    assert w.ack in NamedOwn(s, x.caller, gs);
    CountOwnAtLeastNamed(s, x.caller, gs);
    assert CountOwn(s, x.caller, gs) > 0 by { assert |NamedOwn(s, x.caller, gs)| > 0; }
  }

  /** What the wait names: the call's own signals, and the cancel signal if it is the caller's. */
  lemma NewWaitIs(x: Call, w: World)
    requires Prepared(x, w) && w.ack in w.sched.signals && w.mon in w.sched.signals
    requires x.cancel != INVALID ==> x.cancel in w.sched.signals
    ensures NewWait(w.sched, x.caller, Signals(x, w), false) == CallWait(x, w)
  {
    var gs, s := Signals(x, w), w.sched;
    assert gs[0] in gs && gs[1] in gs && gs[2] in gs;
    CountOwnAtLeastNamed(s, x.caller, gs);
    assert NamedOwn(s, x.caller, gs) == CallWait(x, w).named;
  }

  ghost predicate Suspended(x: Call, w: World) {
    Prepared(x, w) && w.pc.Waiting? && Asleep(x, w)
  }

  lemma PreparedKept(x: Call, w: World, s: State)
    requires Prepared(x, w) && Effect(w.sched, s, {}, {}, {}, {})
    ensures Prepared(x, w.(sched := s)) && Abs(x, w.(sched := s)) == Abs(x, w)
  {
    GivenKept(x, w, w.(sched := s), {}, {}, {}, {});
    BoundKept(x, w, w.(sched := s), {}, {}, {}, {});
  }

  lemma WaitSuspends(x: Call, w: World, s: State)
    requires Prepared(x, w) && w.pc.Sending? && w.ack in w.sched.signals
    requires Effect(w.sched, s, {}, {}, {}, {}) && !Raised(w.sched, w.mon) && !Raised(w.sched, x.cancel)
    requires x.caller in s.waits && s.waits[x.caller] == CallWait(x, w)
    ensures var w' := w.(sched := s, pc := Pc.Waiting);
      Suspended(x, w') && Abs(x, w') == A.Wait(Abs(x, w))
  {
    PreparedKept(x, w, s);
  }

  /** What the scheduler makes of the wait, and of the return when the wait is skipped. */
  ghost predicate WaitFacts(x: Call, w: World)
    requires x.caller in w.sched.coros
  {
    var gs := Signals(x, w);
    var s := WaitForSignals(w.sched, x.caller, gs, false);
    && Effect(w.sched, s, {}, {}, {}, {})
    && if MustWait(w.sched, x.caller, gs, false) then
         x.caller in s.waits && s.waits[x.caller] == NewWait(w.sched, x.caller, gs, false)
       else Effect(s, Finish(x, w.(sched := s)).sched, {w.mon, w.ack}, {w.monitor}, {}, {})
  }

  ghost predicate CallerRuns(x: Call, w: World) {
    Inv(w.sched) && Runs(w.sched, x.caller)
  }

  lemma WaitHasFacts(x: Call, w: World)
    requires CallerRuns(x, w)
    ensures Inv(AwaitReply(x, w).sched) && WaitFacts(x, w)
  {
    var gs := Signals(x, w);
    var s := WaitForSignals(w.sched, x.caller, gs, false);
    WaitInScheduler(w.sched, x.caller, gs, false);
    if !MustWait(w.sched, x.caller, gs, false) {
      FinishInScheduler(s, w.monitor, w.mon, w.ack);
    }
  }

  lemma WaitRefines(x: Call, w: World)
    requires Prepared(x, w) && w.pc.Sending? && w.ack in w.sched.signals && WaitFacts(x, w)
    ensures var w' := AwaitReply(x, w);
      Abs(x, w') == A.Wait(Abs(x, w)) && (Done(x, w') || Suspended(x, w'))
  {
    var gs := Signals(x, w);
    var s := WaitForSignals(w.sched, x.caller, gs, false);
    MustWaitIff(x, w);
    if MustWait(w.sched, x.caller, gs, false) {
      NewWaitIs(x, w);
      WaitSuspends(x, w, s);
    } else {
      PreparedKept(x, w, s);
      FinishIsReturn(x, w.(sched := s));
    }
  }

  /** What an effect does to the call's signals and to the service. */
  ghost predicate Tells(x: Call, w: World, w': World, closed: set<Id>, gone: set<Id>) {
    && (Raised(w'.sched, w.ack) <==> Raised(w.sched, w.ack) || (w.ack in w.sched.signals && w.ack in closed))
    && (Raised(w'.sched, w.mon) <==> Raised(w.sched, w.mon) || (w.mon in w.sched.signals && x.service in gone))
    && (Raised(w'.sched, x.cancel) <==>
          Raised(w.sched, x.cancel) || (x.cancel in w.sched.signals && x.cancel in closed))
    && (x.service in w'.sched.coros <==> x.service in w.sched.coros && x.service !in gone)
  }

  predicate SameHandles(w: World, w': World) {
    w'.pc == w.pc && w'.ack == w.ack && w'.mon == w.mon && w'.monitor == w.monitor
  }

  lemma CoreKept(x: Call, w: World, w': World,
                 closed: set<Id>, dropped: set<Id>, attached: set<Id>, gone: set<Id>)
    requires Core(x, w) && w.sched.nextId > 0 && Below(w.sched)
    requires SameHandles(w, w') && Apart(x, w, w'.box) && (w'.enqueued > 0 ==> w.ack != INVALID)
    requires Effect(w.sched, w'.sched, closed, dropped, attached, gone)
    requires forall g | g in attached :: g < w.sched.nextId
    requires InCall(w) ==> Harmless(x, w, closed, dropped, attached, gone)
    ensures Core(x, w') && Tells(x, w, w', closed, gone)
  {
    GivenKept(x, w, w', closed, dropped, attached, gone);
    if InCall(w) { BoundKept(x, w, w', closed, dropped, attached, gone); }
  }

  // ----- the retry loop -----

  ghost predicate PutFacts(x: Call, w: World)
    requires CanPut(w)
  {
    Effect(w.sched, Put(x, w).sched, {w.box.value.signal}, {}, {}, {})
  }

  lemma PutHasFacts(x: Call, w: World)
    requires CallerRuns(x, w) && CanPut(w)
    ensures CallerRuns(x, Put(x, w)) && PutFacts(x, w)
  {
    RaiseWhileRunning(w.sched, w.box.value.signal, x.caller);
  }

  lemma PutRefines(x: Call, w: World)
    requires Core(x, w) && Below(w.sched) && w.pc.Sending? && CanPut(w) && w.ack in w.sched.signals && PutFacts(x, w)
    ensures Core(x, Put(x, w)) && Put(x, w).ack in Put(x, w).sched.signals
    ensures var a := Abs(x, w);
      Abs(x, Put(x, w)) == a.(queued := a.queued + 1, enqueued := a.enqueued + 1, room := CanPut(Put(x, w)))
  {
    CoreKept(x, w, Put(x, w), {w.box.value.signal}, {}, {}, {});
  }

  /** The abstract wait does not look at the room in the mailbox. */
  lemma RoomIsApart(a: A.State, b: A.State, c: A.State)
    requires b == a.(room := b.room) && c == A.Wait(b)
    ensures c == A.Wait(a).(room := c.room)
  {
    assert A.IsCancelled(b) == A.IsCancelled(a);
    if a.ackRaised || a.monitorRaised || A.IsCancelled(a) {
      assert c == A.Return(b) && A.Wait(a) == A.Return(a);
    }
  }

  /** What the caller's code leaves: returned, suspended in its wait, or about to try again. */
  ghost predicate Left(x: Call, w: World) {
    Done(x, w) || Suspended(x, w) || (Prepared(x, w) && w.pc.Sending?)
  }

  ghost predicate TryFacts(x: Call, w: World)
    requires x.caller in w.sched.coros
  {
    if Raised(w.sched, x.cancel) || Raised(w.sched, w.mon) then WaitFacts(x, w)
    else if CanPut(w) then PutFacts(x, w) && x.caller in Put(x, w).sched.coros && WaitFacts(x, Put(x, w))
    else Effect(w.sched, Suspend(w.sched, x.caller), {}, {}, {}, {})
  }

  lemma TryHasFacts(x: Call, w: World)
    requires CallerRuns(x, w)
    ensures Inv(Try(x, w).sched) && TryFacts(x, w)
  {
    if Raised(w.sched, x.cancel) || Raised(w.sched, w.mon) {
      WaitHasFacts(x, w);
    } else if CanPut(w) {
      PutHasFacts(x, w);
      WaitHasFacts(x, Put(x, w));
    } else {
      YieldKeepsInv(w.sched, x.caller);
      SuspendEffect(w.sched, x.caller);
    }
  }

  function Queued(a: A.State): A.State {
    a.(queued := a.queued + 1, enqueued := a.enqueued + 1)
  }

  /** The wait of a world `p` that the call is in after a put. */
  lemma WaitAfterPut(x: Call, a: A.State, p: World)
    requires Prepared(x, p) && p.pc.Sending? && p.ack in p.sched.signals && WaitFacts(x, p)
    requires Abs(x, p) == Queued(a).(room := Abs(x, p).room)
    ensures var w' := AwaitReply(x, p);
      Left(x, w') && Abs(x, w') == A.Wait(Queued(a)).(room := Abs(x, w').room)
  {
    WaitRefines(x, p);
    RoomIsApart(Queued(a), Abs(x, p), Abs(x, AwaitReply(x, p)));
  }

  lemma PutAndWait(x: Call, w: World)
    requires Core(x, w) && Below(w.sched) && w.pc.Sending? && CanPut(w) && w.ack in w.sched.signals && PutFacts(x, w)
    requires x.caller in Put(x, w).sched.coros && WaitFacts(x, Put(x, w))
    ensures var w' := AwaitReply(x, Put(x, w));
      Left(x, w') && Abs(x, w') == A.Wait(Queued(Abs(x, w))).(room := Abs(x, w').room)
  {
    PutRefines(x, w);
    WaitAfterPut(x, Abs(x, w), Put(x, w));
  }

  lemma TryRefines(x: Call, w: World)
    requires Core(x, w) && Below(w.sched) && w.pc.Sending? && w.ack in w.sched.signals && TryFacts(x, w)
    ensures var w' := Try(x, w);
      Left(x, w') && Abs(x, w') == A.TryOnce(Abs(x, w)).(room := Abs(x, w').room)
  {
    if Raised(w.sched, x.cancel) || Raised(w.sched, w.mon) {
      WaitRefines(x, w);
      RoomIsApart(Abs(x, w), Abs(x, w), Abs(x, AwaitReply(x, w)));
    } else if CanPut(w) {
      PutAndWait(x, w);
    } else {
      PreparedKept(x, w, Suspend(w.sched, x.caller));
    }
  }

  // ----- the call's steps -----

  lemma CallerRunsNow(x: Call, w: World)
    requires Inv(w.sched) && w.sched.running == Some(x.caller)
    ensures CallerRuns(x, w)
  {
  }

  lemma PrepareHasFacts(x: Call, w: World)
    requires CallerRuns(x, w)
    ensures CallerRuns(x, Prepare(x, w))
  {
    var (s1, ack) := MakeSignal(w.sched, x.caller);
    MakeKeepsInv(w.sched, x.caller);
    var (s2, mon) := MakeSignal(s1, x.caller);
    MakeKeepsInv(s1, x.caller);
    MonitorKeepsInv(s2, x.service, mon);
    if !Attaches(s2, x.service, mon) { RaiseKeepsRunner(s2, RaiseSignal(s2, mon).0, mon, x.caller); }
  }

  /** What the scheduler makes of the two signals and the monitor. */
  ghost predicate PrepareFacts(s: State, s': State, k: Id, t: Id, ack: Id, mon: Id, m: Id)
    requires ack in s'.signals && (t != k ==> mon in s'.signals)
  {
    && ack == s.nextId && mon == s.nextId + 1 && s'.nextId > mon && s'.nextId > m && s'.coros.Keys == s.coros.Keys
    && s'.signals == s.signals[ack := s'.signals[ack]] + (if t != k then map[mon := s'.signals[mon]] else map[])
    && s'.signals[ack].owner == k && (t != k ==> s'.signals[mon].owner == k)
    && s'.monitors == if t != k then s.monitors[m := Monitor(t, mon)] else s.monitors
  }

  lemma PrepareInScheduler(s: State, k: Id, t: Id)
    requires k in s.coros && t in s.coros && s.nextId !in s.signals && s.nextId + 1 !in s.signals
    ensures var (s1, ack) := MakeSignal(s, k);
      var (s2, mon) := MakeSignal(s1, k);
      var (s3, m) := MonitorCoro(s2, t, mon);
      && s3.nextId > mon && ack in s3.signals && (t != k ==> mon in s3.signals)
      && PrepareFacts(s, s3, k, t, ack, mon, m)
  {
    var (s1, ack) := MakeSignal(s, k);
    var (s2, mon) := MakeSignal(s1, k);
    assert mon in s2.signals && s2.signals[mon].owner == k;
    assert Attaches(s2, t, mon) <==> t != k;
    if t == k { assert s2.signals - {mon} == s1.signals; }
  }

  lemma PrepareRefines(x: Call, w: World)
    requires Core(x, w) && Below(w.sched) && w.pc.NotCalled?
    requires x.caller in w.sched.coros && x.service in w.sched.coros
    ensures var w' := Prepare(x, w);
      && Core(x, w') && w'.pc.Sending? && w'.ack in w'.sched.signals
      && Abs(x, w') == Abs(x, w).(caller := A.Sending, monitorRaised := x.caller == x.service)
  {
    PrepareInScheduler(w.sched, x.caller, x.service);
    PreparedWorld(x, w, Prepare(x, w));
  }

  lemma PreparedWorld(x: Call, w: World, w': World)
    requires Core(x, w) && Below(w.sched) && w.pc.NotCalled? && x.service in w.sched.coros && x.caller in w.sched.coros
    requires w'.ack in w'.sched.signals && (x.service != x.caller ==> w'.mon in w'.sched.signals)
    requires PrepareFacts(w.sched, w'.sched, x.caller, x.service, w'.ack, w'.mon, w'.monitor)
    requires w' == w.(sched := w'.sched, ack := w'.ack, mon := w'.mon, monitor := w'.monitor, pc := Sending)
    ensures Core(x, w')
    ensures Abs(x, w') == Abs(x, w).(caller := A.Sending, monitorRaised := x.caller == x.service)
  {
    assert w'.mon in w'.sched.signals <==> x.service != x.caller;
    assert x.cancel in w'.sched.signals <==> x.cancel in w.sched.signals;
  }

  /** What the caller's code leaves at the point where it first gives up control. */
  lemma BeginIsCall(x: Call, w: World)
    requires InvW(x, w) && Possible(x, w, Begin)
    ensures var w' := Next(x, w, Begin);
      && Inv(w'.sched) && (Left(x, w') || (Core(x, w') && w'.pc.Returned?))
      && Abs(x, w') == A.Apply(Abs(x, w), A.Call).(room := Abs(x, w').room)
  {
    CallerRunsNow(x, w);
    if x.service in w.sched.coros {
      PrepareHasFacts(x, w);
      PrepareRefines(x, w);
      TryHasFacts(x, Prepare(x, w));
      TryRefines(x, Prepare(x, w));
    }
  }

  lemma BeginRefines(x: Call, w: World, t: A.Path) returns (t': A.Path)
    requires InvW(x, w) && Possible(x, w, Begin) && A.Legal(t) && t.state == Abs(x, w)
    ensures var w' := Next(x, w, Begin);
      Inv(w'.sched) && (Left(x, w') || (Core(x, w') && w'.pc.Returned?)) && Continues(t, t', Abs(x, w'))
  {
    BeginIsCall(x, w);
    t' := One(t, A.Call, Abs(x, Next(x, w, Begin)));
  }

  /** A call is sent and suspended before it gives up control exactly if the service is another coroutine,
      alive, whose mailbox has room, and the cancel signal has not been raised before. */
  lemma WaitsAtOnceIff(x: Call, w: World)
    requires InvW(x, w) && Possible(x, w, Begin)
    ensures var w' := Next(x, w, Begin);
      && (w'.pc.Waiting? <==>
            x.service in w.sched.coros && x.service != x.caller && CanPut(w) && !Raised(w.sched, x.cancel))
      && w'.enqueued == if w'.pc.Waiting? then 1 else 0
  {
    BeginIsCall(x, w);
    CallOutcome(Abs(x, w));
    SeenWaiting(x, Next(x, w, Begin), A.Apply(Abs(x, w), A.Call));
  }

  /** A later turn of the retry loop sends and waits exactly if there is room, and otherwise yields, as long as the
      service lives and the call is not cancelled. */
  lemma RetryOutcome(x: Call, w: World)
    requires InvW(x, w) && w.pc.Sending? && Possible(x, w, Step.Continue)
    ensures var w' := Next(x, w, Step.Continue);
      var goesOn := x.service in w.sched.coros && !Raised(w.sched, x.cancel);
      && (w'.pc.Waiting? <==> goesOn && CanPut(w)) && (w'.pc.Sending? <==> goesOn && !CanPut(w))
      && w'.enqueued == w.enqueued + if w'.pc.Waiting? then 1 else 0
  {
    ContinueIsStep(x, w);
    AttemptOutcome(Abs(x, w));
    SeenWaiting(x, Next(x, w, Step.Continue), A.Apply(Abs(x, w), A.Attempt));
  }

  lemma AttemptOutcome(a: A.State)
    requires A.Inv(a) && a.caller.Sending?
    ensures var b := A.Apply(a, A.Attempt);
      && (b.caller.Waiting? <==> a.alive && !A.IsCancelled(a) && a.open && a.room)
      && (b.caller.Sending? <==> a.alive && !A.IsCancelled(a) && !(a.open && a.room))
      && b.enqueued == a.enqueued + if b.caller.Waiting? then 1 else 0
  {
  }

  /** What a send by the caller leaves: its message at the end of the mailbox, and the receiver that was parked
      there woken. */
  lemma PutGives(x: Call, w: World)
    requires Inv(w.sched) && CanPut(w)
    ensures var w' := Put(x, w);
      && w'.box.Some? && w'.box.value.queue == w.box.value.queue + [x.message]
      && w'.box.value.signal == Mailbox.INVALID && w.box.value.signal !in w'.sched.signals
      && w'.sched.signals.Keys == w.sched.signals.Keys - {w.box.value.signal}
  {
    RaiseKeepsLinks(w.sched, w.box.value.signal);
  }

  lemma SeenWaiting(x: Call, w: World, a: A.State)
    requires Abs(x, w) == a.(room := Abs(x, w).room)
    ensures (w.pc.Waiting? <==> a.caller.Waiting?) && (w.pc.Sending? <==> a.caller.Sending?)
    ensures w.enqueued == a.enqueued
  {
  }

  lemma CallOutcome(a: A.State)
    requires A.Inv(a) && a.caller.NotCalled?
    ensures var b := A.Apply(a, A.Call);
      && (b.caller.Waiting? <==> a.alive && !a.toSelf && a.open && a.room && !A.IsCancelled(a))
      && b.enqueued == if b.caller.Waiting? then 1 else 0
  {
  }

  /** A caller that runs inside its wait has been woken. */
  lemma RunsUnblocked(x: Call, w: World)
    requires Inv(w.sched) && Asleep(x, w) && w.sched.running == Some(x.caller)
    ensures !AllLive(x, w)
  {
    if x.caller in w.sched.waits { InItsWait(w.sched, x.caller); }
  }

  /** What the resumed caller's code leaves. */
  function ContinueAction(w: World): A.Action {
    if w.pc.Waiting? then A.ResumeCaller else A.Attempt
  }

  lemma ContinueIsStep(x: Call, w: World)
    requires InvW(x, w) && Possible(x, w, Step.Continue)
    ensures var w' := Next(x, w, Step.Continue);
      && Inv(w'.sched) && Left(x, w') && A.Enabled(Abs(x, w), ContinueAction(w))
      && Abs(x, w') == A.Apply(Abs(x, w), ContinueAction(w)).(room := Abs(x, w').room)
  {
    CallerRunsNow(x, w);
    if w.pc.Waiting? {
      RunsUnblocked(x, w);
      FinishInScheduler(w.sched, w.monitor, w.mon, w.ack);
      FinishIsReturn(x, w);
    } else {
      assert !Abs(x, w).ackRaised;
      TryHasFacts(x, w);
      TryRefines(x, w);
    }
  }

  lemma ContinueRefines(x: Call, w: World, t: A.Path) returns (t': A.Path)
    requires InvW(x, w) && Possible(x, w, Step.Continue) && A.Legal(t) && t.state == Abs(x, w)
    ensures var w' := Next(x, w, Step.Continue);
      Inv(w'.sched) && Left(x, w') && Continues(t, t', Abs(x, w'))
  {
    ContinueIsStep(x, w);
    t' := One(t, ContinueAction(w), Abs(x, Next(x, w, Step.Continue)));
  }

  // ----- steps of the others -----

  /** Of the steps of others, only the death of the service closes the monitor signal and drops the
      monitor, and none closes the ack signal. */
  lemma LocalIsHarmless(x: Call, w: World, e: Event)
    requires Links(w.sched) && Core(x, w) && InCall(w)
    requires Enabled(w.sched, e) && w.sched.running != Some(x.caller) && Local(w, e)
    ensures Harmless(x, w, ClosedBy(w.sched, e), DroppedBy(w.sched, e), AttachedBy(w.sched, e), GoneBy(w.sched, e))
    ensures w.ack !in ClosedBy(w.sched, e)
  {
    if e.EExit? { DeathIsHarmless(x, w, w.sched.running.value); }
  }

  lemma DeathIsHarmless(x: Call, w: World, c: Id)
    requires Links(w.sched) && Core(x, w) && InCall(w) && c in w.sched.coros && c != x.caller
    ensures w.ack !in ClosedByDeath(w.sched, c)
    ensures w.mon in w.sched.signals ==>
      && (w.mon in ClosedByDeath(w.sched, c) <==> c == x.service)
      && (w.monitor in w.sched.coros[c].monitors ==> c == x.service)
  {
    var s, ms := w.sched, w.sched.coros[c].monitors;
    if w.mon in s.signals && c == x.service { SignalOfMember(s.monitors, ms, w.monitor); }
    if w.mon in SignalsOf(s.monitors, ms) {
      var m :| m in ms && m in s.monitors && s.monitors[m].signal == w.mon;
      assert m == w.monitor;
    }
  }

  lemma EventKeepsAsleep(x: Call, w: World, w': World, e: Event)
    requires Inv(w.sched) && Core(x, w) && Asleep(x, w) && Enabled(w.sched, e) && w'.sched == Apply(w.sched, e)
    requires w.sched.running != Some(x.caller) && SameHandles(w, w')
    ensures Asleep(x, w')
  {
    WaitLasts(w.sched, e, x.caller);
    if e.EResume? && w.sched.current[w.sched.index] == x.caller {
      ResumedIsUnblocked(w.sched);
      BlockedIff(x, w);
      QuietHasEffect(w.sched, e);
    }
  }

  /** What a step of the others is to module ServiceCall: perhaps a cancel, perhaps the service's death. */
  predicate Moved(a: A.State, b: A.State, cancelled: bool, died: bool) {
    && (died ==> a.alive && !a.open && a.queued == 0) && (cancelled ==> a.cancel != A.NoSignal && !a.cancelRaised)
    && b == a.(
         caller := if a.caller.Waiting? then A.Waiting(a.caller.woken || (cancelled && a.cancel == A.Own) || died)
                   else a.caller,
         monitorRaised := a.monitorRaised || (died && !a.caller.NotCalled?),
         cancelRaised := a.cancelRaised || cancelled,
         alive := a.alive && !died, held := if died then 0 else a.held, responding := a.responding && !died)
  }

  lemma CancelMoves(a: A.State)
    requires a.cancel != A.NoSignal && !a.cancelRaised
    ensures Moved(a, A.Apply(a, A.RaiseCancel), true, false)
  {
  }

  lemma DeathMoves(a: A.State)
    requires A.Inv(a) && a.alive && !a.open && a.queued == 0
    ensures A.Enabled(a, A.Die) && Moved(a, A.Apply(a, A.Die), false, true)
  {
  }

  lemma MovedTwice(a: A.State, b: A.State, c: A.State, cancelled: bool, died: bool)
    requires Moved(a, b, cancelled, false) && Moved(a, c, cancelled, died)
    ensures Moved(b, c, false, died)
  {
  }

  lemma MovedContinues(t: A.Path, b: A.State, cancelled: bool, died: bool) returns (t': A.Path)
    requires A.Legal(t) && A.Inv(t.state) && Moved(t.state, b, cancelled, died)
    ensures Continues(t, t', b)
  {
    var t1 := t;
    if cancelled {
      CancelMoves(t.state);
      A.StepKeepsInv(t.state, A.RaiseCancel);
      t1 := A.Step(t, A.RaiseCancel);
    }
    MovedTwice(t.state, t1.state, b, cancelled, died);
    if died {
      DeathMoves(t1.state);
      t' := A.Step(t1, A.Die);
    } else {
      t' := t1;
    }
  }

  ghost predicate Died(x: Call, w: World, gone: set<Id>) {
    x.service in w.sched.coros && x.service in gone
  }

  lemma WorldMoved(x: Call, w: World, w': World, closed: set<Id>, gone: set<Id>)
    requires Core(x, w) && Core(x, w') && Tells(x, w, w', closed, gone) && SameHandles(w, w')
    requires InCall(w) ==> w.ack !in closed && x.caller !in gone
    requires Died(x, w, gone) ==> w.box.None?
    requires w' == w.(sched := w'.sched, held := if Died(x, w, gone) then 0 else w.held,
                      responding := w.responding && !Died(x, w, gone))
    ensures Moved(Abs(x, w), Abs(x, w'), Raised(w'.sched, x.cancel) && !Raised(w.sched, x.cancel), Died(x, w, gone))
  {
    assert w.pc.Waiting? ==>
      (AllLive(x, w') <==> AllLive(x, w) && !(x.kind == A.Own && x.cancel in closed) && !Died(x, w, gone));
  }

  ghost predicate OthersFacts(x: Call, w: World, w': World, e: Event)
    requires Enabled(w.sched, e)
  {
    var closed, dropped, attached := ClosedBy(w.sched, e), DroppedBy(w.sched, e), AttachedBy(w.sched, e);
    && Effect(w.sched, w'.sched, closed, dropped, attached, GoneBy(w.sched, e))
    && (forall g | g in attached :: g < w.sched.nextId)
    && (InCall(w) ==> Harmless(x, w, closed, dropped, attached, GoneBy(w.sched, e)) && w.ack !in closed)
    && (w.pc.Waiting? ==> Asleep(x, w'))
  }

  lemma OthersHaveFacts(x: Call, w: World, e: Event)
    requires InvW(x, w) && Possible(x, w, Others(e))
    ensures OthersFacts(x, w, DoOthers(x, w, e), e)
  {
    EventEffect(w.sched, e);
    if InCall(w) { LocalIsHarmless(x, w, e); }
    if w.pc.Waiting? { EventKeepsAsleep(x, w, DoOthers(x, w, e), e); }
  }

  lemma OthersMove(x: Call, w: World, e: Event)
    requires Core(x, w) && Below(w.sched) && Possible(x, w, Others(e)) && OthersFacts(x, w, DoOthers(x, w, e), e)
    ensures var w' := DoOthers(x, w, e);
      Core(x, w') && exists cancelled, died :: Moved(Abs(x, w), Abs(x, w'), cancelled, died)
  {
    var w' := DoOthers(x, w, e);
    var closed, gone := ClosedBy(w.sched, e), GoneBy(w.sched, e);
    CoreKept(x, w, w', closed, DroppedBy(w.sched, e), AttachedBy(w.sched, e), gone);
    WorldMoved(x, w, w', closed, gone);
  }

  lemma OthersRefine(x: Call, w: World, e: Event, t: A.Path) returns (t': A.Path)
    requires InvW(x, w) && Possible(x, w, Others(e)) && A.Legal(t) && t.state == Abs(x, w)
    ensures var w' := Next(x, w, Others(e));
      && Inv(w'.sched) && Core(x, w') && (w'.pc.Waiting? ==> Asleep(x, w'))
      && Continues(t, t', Abs(x, w'))
  {
    StepKeepsInv(w.sched, e);
    OthersHaveFacts(x, w, e);
    OthersMove(x, w, e);
    var b := Abs(x, DoOthers(x, w, e));
    var cancelled, died :| Moved(Abs(x, w), b, cancelled, died);
    t' := MovedContinues(t, b, cancelled, died);
  }

  // ----- steps on the mailbox and of the handler -----

  lemma RaiseKeepsAsleep(x: Call, w: World, w': World, g: Id)
    requires Given(x, w) && Handles(x, w) && Asleep(x, w) && OnlyRaises(w.sched, w'.sched, {g})
    requires SameHandles(w, w')
    ensures Asleep(x, w')
  {
  }

  /** The scheduler apart, what a world has to satisfy. */
  ghost predicate Sane(x: Call, w: World) {
    Core(x, w) && (w.pc.Waiting? ==> Asleep(x, w))
  }

  /** The signal parked in the mailbox is raised, and the mailbox becomes `box`. */
  ghost predicate Unparked(x: Call, w: World, w': World, g: Id, box: Option<Mailbox.Box>) {
    && Apart(x, w, box) && OnlyRaises(w.sched, w'.sched, {g})
    && g < w.sched.nextId && (x.cancel != INVALID ==> g != x.cancel)
    && (InCall(w) ==> g != w.ack && g != w.mon)
    && w' == w.(sched := w'.sched, box := box)
  }

  lemma UnparkedTells(x: Call, w: World, w': World, g: Id, box: Option<Mailbox.Box>)
    requires Core(x, w) && Below(w.sched) && Unparked(x, w, w', g, box)
    ensures Core(x, w') && Tells(x, w, w', {g}, {})
  {
    CoreKept(x, w, w', {g}, {}, {}, {});
  }

  lemma UnparkedLooks(x: Call, w: World, w': World, g: Id, box: Option<Mailbox.Box>)
    requires Core(x, w) && Core(x, w') && Unparked(x, w, w', g, box) && Tells(x, w, w', {g}, {})
    ensures Abs(x, w') == Abs(x, w).(open := box.Some?, room := CanPut(w'), queued := Copies(x, box))
  {
  }

  lemma ParkedRaised(x: Call, w: World, w': World, g: Id, box: Option<Mailbox.Box>)
    requires Sane(x, w) && Below(w.sched) && Unparked(x, w, w', g, box)
    ensures Sane(x, w')
    ensures Abs(x, w') == Abs(x, w).(open := box.Some?, room := CanPut(w'), queued := Copies(x, box))
  {
    UnparkedTells(x, w, w', g, box);
    UnparkedLooks(x, w, w', g, box);
    if w.pc.Waiting? { RaiseKeepsAsleep(x, w, w', g); }
  }

  lemma OtherMessage(x: Call, b: Mailbox.Box, m: Mailbox.Message)
    requires m != x.message
    ensures Copies(x, Some(Mailbox.Sent(b, m).box)) == Copies(x, Some(b))
  {
    assert multiset(b.queue + [m]) == multiset(b.queue) + multiset{m};
  }

  lemma FirstMessage(x: Call, b: Mailbox.Box)
    requires b.queue != []
    ensures Copies(x, Some(Mailbox.Take(b).0)) == Copies(x, Some(b)) - if b.queue[0] == x.message then 1 else 0
  {
    assert b.queue == [b.queue[0]] + b.queue[1..];
  }

  /** What a step of others than the scheduler does, but for the scheduler's own invariant. */
  ghost predicate Steps(x: Call, w: World, w': World, act: Option<A.Action>) {
    && Sane(x, w')
    && var a, b := Abs(x, w), Abs(x, w');
       if act.None? then a.(room := b.room) == b
       else A.Enabled(a, act.value) && A.Apply(a, act.value).(room := b.room) == b
  }

  lemma SendSteps(x: Call, w: World, m: Mailbox.Message)
    requires Sane(x, w) && Below(w.sched) && Possible(x, w, Send(m))
    requires OnlyRaises(w.sched, Next(x, w, Send(m)).sched, {Mailbox.Sent(w.box.value, m).raised})
    ensures Steps(x, w, Next(x, w, Send(m)), None)
  {
    var r := Mailbox.Sent(w.box.value, m);
    OtherMessage(x, w.box.value, m);
    ParkedRaised(x, w, Next(x, w, Send(m)), r.raised, Some(r.box));
  }

  lemma CloseSteps(x: Call, w: World)
    requires Sane(x, w) && Below(w.sched) && Possible(x, w, CloseBox)
    requires OnlyRaises(w.sched, Next(x, w, CloseBox).sched, {w.box.value.signal})
    ensures Steps(x, w, Next(x, w, CloseBox), Some(A.CloseMailbox))
  {
    ParkedRaised(x, w, Next(x, w, CloseBox), w.box.value.signal, None);
  }

  lemma EndSteps(x: Call, w: World)
    requires Sane(x, w) && Below(w.sched) && A.Inv(Abs(x, w)) && Possible(x, w, EndResponse)
    requires OnlyRaises(w.sched, Next(x, w, EndResponse).sched, {w.ack})
    ensures Steps(x, w, Next(x, w, EndResponse), Some(A.EndResponse))
  {
    var w' := Next(x, w, EndResponse);
    CoreKept(x, w, w', {w.ack}, {}, {}, {});
    if w.pc.Waiting? { RaiseKeepsAsleep(x, w, w', w.ack); }
  }

  lemma ParkSteps(x: Call, w: World, g: Id)
    requires Sane(x, w) && Possible(x, w, Park(g))
    ensures Steps(x, w, Next(x, w, Park(g)), None)
  {
  }

  lemma ReceiveSteps(x: Call, w: World)
    requires Sane(x, w) && Possible(x, w, Receive)
    ensures Steps(x, w, Next(x, w, Receive), if w.box.value.queue[0] == x.message then Some(A.Receive) else None)
  {
    FirstMessage(x, w.box.value);
  }

  lemma BeginSteps(x: Call, w: World)
    requires Sane(x, w) && A.Inv(Abs(x, w)) && Possible(x, w, BeginResponse)
    ensures Steps(x, w, Next(x, w, BeginResponse), Some(A.BeginResponse))
  {
  }

  lemma DropSteps(x: Call, w: World)
    requires Sane(x, w) && Possible(x, w, Drop)
    ensures Steps(x, w, Next(x, w, Drop), Some(A.Drop))
  {
  }

  predicate Raises(st: Step) {
    st.Send? || st.CloseBox? || st.EndResponse?
  }

  predicate KeepsScheduler(st: Step) {
    st.Park? || st.Receive? || st.BeginResponse? || st.Drop?
  }

  function RaisedBy(w: World, st: Step): Id
    requires Raises(st) && (st.EndResponse? || w.box.Some?)
  {
    if st.Send? then Mailbox.Sent(w.box.value, st.m).raised
    else if st.CloseBox? then w.box.value.signal
    else w.ack
  }

  lemma RaisingSteps(x: Call, w: World, st: Step) returns (act: Option<A.Action>)
    requires Sane(x, w) && Below(w.sched) && A.Inv(Abs(x, w)) && Possible(x, w, st) && Raises(st)
    requires OnlyRaises(w.sched, Next(x, w, st).sched, {RaisedBy(w, st)})
    ensures Steps(x, w, Next(x, w, st), act)
  {
    if st.Send? { SendSteps(x, w, st.m); act := None; }
    else if st.CloseBox? { CloseSteps(x, w); act := Some(A.CloseMailbox); }
    else { EndSteps(x, w); act := Some(A.EndResponse); }
  }

  lemma HandlerSteps(x: Call, w: World, st: Step) returns (act: Option<A.Action>)
    requires Sane(x, w) && A.Inv(Abs(x, w)) && Possible(x, w, st) && KeepsScheduler(st)
    ensures Steps(x, w, Next(x, w, st), act) && Next(x, w, st).sched == w.sched
  {
    if st.Park? { ParkSteps(x, w, st.g); act := None; }
    else if st.BeginResponse? { BeginSteps(x, w); act := Some(A.BeginResponse); }
    else if st.Receive? {
      ReceiveSteps(x, w);
      act := if w.box.value.queue[0] == x.message then Some(A.Receive) else None;
    }
    else { DropSteps(x, w); act := Some(A.Drop); }
  }

  // ----- runs -----

  /** The step keeps the invariant, and continues the run of module ServiceCall. */
  ghost predicate Refines(x: Call, w': World, t: A.Path, t': A.Path) {
    Inv(w'.sched) && Sane(x, w') && Continues(t, t', Abs(x, w'))
  }

  lemma ActContinues(x: Call, w: World, w': World, act: Option<A.Action>, t: A.Path) returns (t': A.Path)
    requires Steps(x, w, w', act) && A.Legal(t) && t.state == Abs(x, w)
    ensures Continues(t, t', Abs(x, w'))
  {
    if act.None? { t' := Change(t, Abs(x, w')); } else { t' := One(t, act.value, Abs(x, w')); }
  }

  lemma RaisingKeepsInv(x: Call, w: World, st: Step)
    requires Inv(w.sched) && Possible(x, w, st) && Raises(st)
    ensures Inv(Next(x, w, st).sched)
    ensures OnlyRaises(w.sched, Next(x, w, st).sched, {RaisedBy(w, st)})
  {
    RaiseKeepsInv(w.sched, RaisedBy(w, st));
    RaiseOnlyRaises(w.sched, RaisedBy(w, st));
  }

  lemma RaisingRefines(x: Call, w: World, st: Step, t: A.Path) returns (t': A.Path)
    requires InvW(x, w) && Possible(x, w, st) && Raises(st) && A.Legal(t) && t.state == Abs(x, w)
    ensures Refines(x, Next(x, w, st), t, t')
  {
    RaisingKeepsInv(x, w, st);
    var act := RaisingSteps(x, w, st);
    t' := ActContinues(x, w, Next(x, w, st), act, t);
  }

  lemma HandlerRefines(x: Call, w: World, st: Step, t: A.Path) returns (t': A.Path)
    requires InvW(x, w) && Possible(x, w, st) && KeepsScheduler(st) && A.Legal(t) && t.state == Abs(x, w)
    ensures Refines(x, Next(x, w, st), t, t')
  {
    var act := HandlerSteps(x, w, st);
    t' := ActContinues(x, w, Next(x, w, st), act, t);
  }

  lemma LeftIsSane(x: Call, w: World)
    requires Left(x, w) || (Core(x, w) && w.pc.Returned?)
    ensures Sane(x, w)
  {
  }

  lemma CallerRefines(x: Call, w: World, st: Step, t: A.Path) returns (t': A.Path)
    requires InvW(x, w) && Possible(x, w, st) && (st.Begin? || st.Continue?) && A.Legal(t) && t.state == Abs(x, w)
    ensures Refines(x, Next(x, w, st), t, t')
  {
    if st.Begin? { t' := BeginRefines(x, w, t); } else { t' := ContinueRefines(x, w, t); }
    LeftIsSane(x, Next(x, w, st));
  }

  lemma StepRefines(x: Call, w: World, st: Step, t: A.Path) returns (t': A.Path)
    requires InvW(x, w) && Possible(x, w, st) && A.Legal(t) && t.state == Abs(x, w)
    ensures Refines(x, Next(x, w, st), t, t')
  {
    if st.Begin? || st.Continue? { t' := CallerRefines(x, w, st, t); }
    else if st.Others? { t' := OthersRefine(x, w, st.e, t); }
    else if Raises(st) { t' := RaisingRefines(x, w, st, t); }
    else { t' := HandlerRefines(x, w, st, t); }
  }

  lemma InitialIsInit(x: Call, w: World)
    requires Initial(x, w)
    ensures A.Init(Abs(x, w)) && InvW(x, w)
  {
    assert w.box.Some? ==> multiset(w.box.value.queue)[x.message] == 0;
  }

  /** The trace `t` of module ServiceCall leads from where the call is in `w` to where it is in `w'`. */
  ghost predicate Reaches(x: Call, w: World, w': World, t: A.Path) {
    A.Legal(t) && t.First() == Abs(x, w) && t.state == Abs(x, w')
  }

  lemma ReachesNext(x: Call, w: World, w': World, st: Step, w'': World, t: A.Path) returns (t': A.Path)
    requires A.Inv(Abs(x, w)) && InvW(x, w') && Reaches(x, w, w', t) && Possible(x, w', st) && w'' == Next(x, w', st)
    ensures InvW(x, w'') && Reaches(x, w, w'', t')
  {
    t' := StepRefines(x, w', st, t);
    ContinuesKeepsInv(t');
  }

  lemma StepKeepsInvW(x: Call, w: World, st: Step)
    requires InvW(x, w) && Possible(x, w, st)
    ensures InvW(x, Next(x, w, st))
  {
    var t := ReachesNext(x, w, w, st, Next(x, w, st), From(Abs(x, w)));
  }

  lemma PathStepKeepsInvW(x: Call, steps: seq<Step>, worlds: seq<World>, i: nat)
    requires IsPath(x, steps, worlds) && i < |steps|
    ensures InvW(x, worlds[i]) ==> InvW(x, worlds[i + 1])
  {
    RunStep(x, steps, worlds, i);
    if InvW(x, worlds[i]) { StepKeepsInvW(x, worlds[i], steps[i]); }
  }

  lemma {:induction false} PathKeepsInvW(x: Call, steps: seq<Step>, worlds: seq<World>, n: nat)
    requires IsPath(x, steps, worlds) && n < |worlds|
    ensures InvW(x, worlds[0]) ==> InvW(x, worlds[n])
  {
    if n > 0 {
      PathKeepsInvW(x, steps, worlds, n - 1);
      PathStepKeepsInvW(x, steps, worlds, n - 1);
    }
  }

  lemma PathStepRefines(x: Call, steps: seq<Step>, worlds: seq<World>, i: nat, t: A.Path) returns (t': A.Path)
    requires IsPath(x, steps, worlds) && i < |steps|
    ensures InvW(x, worlds[0]) && Reaches(x, worlds[0], worlds[i], t) ==> Reaches(x, worlds[0], worlds[i + 1], t')
  {
    t' := t;
    if InvW(x, worlds[0]) && Reaches(x, worlds[0], worlds[i], t) {
      PathKeepsInvW(x, steps, worlds, i);
      RunStep(x, steps, worlds, i);
      t' := ReachesNext(x, worlds[0], worlds[i], steps[i], worlds[i + 1], t);
    }
  }

  lemma {:induction false} PathRefines(x: Call, steps: seq<Step>, worlds: seq<World>, n: nat) returns (t: A.Path)
    requires IsPath(x, steps, worlds) && n < |worlds|
    ensures InvW(x, worlds[0]) ==> Reaches(x, worlds[0], worlds[n], t)
  {
    if n == 0 {
      t := From(Abs(x, worlds[0]));
    } else {
      var t0 := PathRefines(x, steps, worlds, n - 1);
      t := PathStepRefines(x, steps, worlds, n - 1, t0);
    }
  }

  /** The refinement: in every run of the code, of the scheduler and of the mailbox, whatever the other
      coroutines do, the call goes through a run of module ServiceCall. */
  lemma RunRefines(x: Call, steps: seq<Step>, worlds: seq<World>, n: nat) returns (t: A.Path)
    requires ServiceCode.IsRun(x, steps, worlds) && n < |worlds|
    ensures InvW(x, worlds[n])
    ensures A.Legal(t) && t.First() == Abs(x, worlds[0]) && A.Init(t.First()) && t.state == Abs(x, worlds[n])
  {
    InitialIsInit(x, worlds[0]);
    PathKeepsInvW(x, steps, worlds, n);
    t := PathRefines(x, steps, worlds, n);
  }

  /** So the status a caller gets back tells what happened. */
  lemma CodeStatusIsExact(x: Call, steps: seq<Step>, worlds: seq<World>, n: nat)
    requires ServiceCode.IsRun(x, steps, worlds) && n < |worlds| && worlds[n].pc.Returned?
    ensures var w := worlds[n];
      && (w.pc.status == A.Ok <==> w.inTime)
      && (w.pc.status == A.Cancelled ==> Raised(w.sched, x.cancel))
      && (w.pc.status == A.TargetDead ==> x.service !in w.sched.coros || x.service == x.caller)
      && w.enqueued <= 1
  {
    var t := RunRefines(x, steps, worlds, n);
  }

  /** The first that applies: dead when the call is made, responded to, cancelled, dead. */
  function Verdict(dead: bool, responded: bool, cancelled: bool): A.Status {
    if dead then A.TargetDead else if responded then A.Ok else if cancelled then A.Cancelled else A.TargetDead
  }

  lemma ReturnsWith(a: A.State, act: A.Action)
    requires A.Inv(a) && !a.caller.Returned? && A.Enabled(a, act) && (act.Call? || act.Attempt? || act.ResumeCaller?)
    ensures var b := A.Apply(a, act);
      b.caller.Returned? ==> b.caller.status == Verdict(act.Call? && !a.alive, a.inTime, A.IsCancelled(a))
  {
  }

  lemma SeenReturned(x: Call, w: World, w': World, b: A.State)
    requires Given(x, w) && Abs(x, w') == b.(room := Abs(x, w').room)
    ensures w'.pc.Returned? <==> b.caller.Returned?
    ensures w'.pc.Returned? ==> b.caller.status == w'.pc.status
    ensures A.IsCancelled(Abs(x, w)) <==> Raised(w.sched, x.cancel)
  {
  }

  /** Every return tells what has come first: the service was dead when the call was made; a response; a cancel,
      also one by another coroutine, noticed on return; or else the service's death. */
  lemma VerdictIsExact(x: Call, steps: seq<Step>, worlds: seq<World>, n: nat)
    requires ServiceCode.IsRun(x, steps, worlds) && n < |steps|
    requires !worlds[n].pc.Returned? && worlds[n + 1].pc.Returned?
    ensures var w := worlds[n];
      worlds[n + 1].pc.status ==
        Verdict(steps[n].Begin? && x.service !in w.sched.coros, w.inTime, Raised(w.sched, x.cancel))
  {
    var w, w', st := worlds[n], worlds[n + 1], steps[n];
    var t := RunRefines(x, steps, worlds, n);
    RunStep(x, steps, worlds, n);
    if st.Begin? {
      BeginIsCall(x, w);
      ReturnsWith(Abs(x, w), A.Call);
      SeenReturned(x, w, w', A.Apply(Abs(x, w), A.Call));
    } else {
      OnlyCallerReturns(x, w, st);
      ContinueIsStep(x, w);
      ReturnsWith(Abs(x, w), ContinueAction(w));
      SeenReturned(x, w, w', A.Apply(Abs(x, w), ContinueAction(w)));
    }
  }

  lemma OnlyCallerReturns(x: Call, w: World, st: Step)
    requires Possible(x, w, st) && !w.pc.Returned? && Next(x, w, st).pc.Returned? && !st.Begin?
    ensures st.Continue?
  {
  }

  predicate HandsOverIff(x: Call, w: World, w': World) {
    && w.box.Some? && w.box.value.queue != [] && w'.box == Some(w.box.value.(queue := w.box.value.queue[1..]))
    && w'.held == w.held + if w.box.value.queue[0] == x.message && !Raised(w.sched, x.cancel) then 1 else 0
  }

  predicate RespondsIff(x: Call, w: World, w': World) {
    && (w'.responding <==> !Raised(w.sched, x.cancel))
    && w'.begun == w.begun + if Raised(w.sched, x.cancel) then 0 else 1
  }

  /** The message is handed over when it is the first in the mailbox and the call is not cancelled, and a response
      begins exactly if the call is not cancelled. */
  lemma HandledIff(x: Call, w: World)
    ensures Possible(x, w, Step.Receive) ==> HandsOverIff(x, w, Next(x, w, Step.Receive))
    ensures Possible(x, w, BeginResponse) ==> RespondsIff(x, w, Next(x, w, BeginResponse))
  {
  }

  ghost predicate AfterCancel(a: A.State, b: A.State) {
    A.IsCancelled(b) && b.begun == a.begun && b.held <= a.held && b.cancel == a.cancel
  }

  lemma StepAfterCancel(a: A.State, act: A.Action)
    requires A.IsCancelled(a) && A.Enabled(a, act)
    ensures AfterCancel(a, A.Apply(a, act))
  {
  }

  lemma {:induction false} PathAfterCancel(t: A.Path)
    requires A.Legal(t) && A.IsCancelled(t.First())
    ensures AfterCancel(t.First(), t.state)
  {
    if t.Then? {
      PathAfterCancel(t.before);
      StepAfterCancel(t.before.state, t.event);
    }
  }

  lemma OneStepAfterCancel(x: Call, w: World, st: Step)
    requires InvW(x, w) && Possible(x, w, st) && A.IsCancelled(Abs(x, w))
    ensures AfterCancel(Abs(x, w), Abs(x, Next(x, w, st)))
  {
    var t := StepRefines(x, w, st, From(Abs(x, w)));
    PathAfterCancel(t);
  }

  lemma RunStepAfterCancel(x: Call, steps: seq<Step>, worlds: seq<World>, i: nat)
    requires ServiceCode.IsRun(x, steps, worlds) && i < |steps| && Raised(worlds[i].sched, x.cancel)
    ensures Raised(worlds[i + 1].sched, x.cancel)
    ensures worlds[i + 1].begun == worlds[i].begun && worlds[i + 1].held <= worlds[i].held
  {
    var t := RunRefines(x, steps, worlds, i);
    RunStep(x, steps, worlds, i);
    OneStepAfterCancel(x, worlds[i], steps[i]);
  }

  /** Once a call is cancelled, its message is no longer handed to the service, and no response to it begins. */
  lemma {:induction false} CancelledIsLeftAlone(x: Call, steps: seq<Step>, worlds: seq<World>, m: nat, n: nat)
    requires ServiceCode.IsRun(x, steps, worlds) && m <= n < |worlds| && Raised(worlds[m].sched, x.cancel)
    ensures Raised(worlds[n].sched, x.cancel)
    ensures worlds[n].begun == worlds[m].begun && worlds[n].held <= worlds[m].held
    decreases n
  {
    if m < n {
      CancelledIsLeftAlone(x, steps, worlds, m, n - 1);
      RunStepAfterCancel(x, steps, worlds, n - 1);
    }
  }

  /** After its return a call has left nothing in the scheduler: its two signals and its monitor are gone. */
  lemma CallLeavesNothing(x: Call, steps: seq<Step>, worlds: seq<World>, n: nat)
    requires ServiceCode.IsRun(x, steps, worlds) && n < |worlds| && worlds[n].pc.Returned?
    ensures var w := worlds[n];
      && w.ack !in w.sched.signals && w.mon !in w.sched.signals
      && (w.monitor != INVALID ==> w.monitor !in w.sched.monitors)
  {
    var t := RunRefines(x, steps, worlds, n);
  }

  /** A first response is begun only while the calling coroutine is still inside the call. */
  lemma CodeRespondsInTime(x: Call, steps: seq<Step>, worlds: seq<World>, n: nat)
    requires ServiceCode.IsRun(x, steps, worlds) && n < |steps| && steps[n] == BeginResponse
    requires worlds[n].begun == 0 && !Raised(worlds[n].sched, x.cancel)
    ensures worlds[n].pc == Pc.Waiting && x.caller in worlds[n].sched.coros
  {
    var t := RunRefines(x, steps, worlds, n);
    RunStep(x, steps, worlds, n);
    RespondsWhileWaiting(x, worlds[n]);
  }

  lemma RespondsWhileWaiting(x: Call, w: World)
    requires InvW(x, w) && Possible(x, w, BeginResponse) && w.begun == 0 && !Raised(w.sched, x.cancel)
    ensures w.pc == Pc.Waiting && x.caller in w.sched.coros
  {
  }

  /** A caller in the wait is suspended by the scheduler exactly as long as no response was finished, the
      service lives, and no cancel signal of its own was raised: one made by another coroutine does not
      matter. */
  lemma CodeSuspendedIff(x: Call, steps: seq<Step>, worlds: seq<World>, n: nat)
    requires ServiceCode.IsRun(x, steps, worlds) && n < |worlds| && worlds[n].pc == Pc.Waiting
    ensures var w := worlds[n];
      && x.caller in w.sched.coros
      && (w.sched.coros[x.caller].status.Waiting? <==>
            !w.inTime && x.service in w.sched.coros && !(x.kind == A.Own && Raised(w.sched, x.cancel)))
  {
    var t := RunRefines(x, steps, worlds, n);
    SuspendedIff(x, worlds[n]);
  }

  // ----- calls are possible -----

  /** What the cancel signal passed in by `caller` is. */
  function KindOf(s: State, caller: Id, cancel: Id): A.CancelSignal {
    if cancel == INVALID then A.NoSignal else if Own(s, caller, cancel) then A.Own else A.Foreign
  }

  function NotYetCalled(s: State, box: Option<Mailbox.Box>): World {
    World(s, box, NotCalled, INVALID, INVALID, INVALID, 0, false, 0, 0, false)
  }

  /** At any point of any run of the scheduler, a coroutine may call with any handles made so far and a
      message that is not in the mailbox. */
  lemma AnyMomentIsInitial(events: seq<Event>, states: seq<State>, n: nat, x: Call, box: Option<Mailbox.Box>)
    requires Coroutines.IsRun(events, states) && n < |states|
    requires var s := states[n];
      && x.caller < s.nextId && x.service < s.nextId && x.cancel < s.nextId && x.kind == KindOf(s, x.caller, x.cancel)
      && (box.Some? ==> x.message !in box.value.queue && box.value.signal < s.nextId
                        && (x.cancel != INVALID ==> box.value.signal != x.cancel))
    ensures Initial(x, NotYetCalled(states[n], box))
  {
    SchedulerProofs.RunKeepsInv(events, states, n);
    RunKeepsRegistered(events, states, n);
  }

  /** Two coroutines, the first of them running. */
  const ONE_RUNS := START.(coros := map[1 := Coro(Running, false, 0, 0, {}, []), 2 := Coro(Ready, false, 0, 0, {}, [])],
                           nextId := 3, current := [1, 2], index := 1, running := Some(1), numCoros := 2,
                           madeReady := [1, 2], ran := [1])

  lemma OneRuns() returns (events: seq<Event>, states: seq<State>)
    ensures Coroutines.IsRun(events, states) && states[|events|] == ONE_RUNS
  {
    events := [ESpawn(false), ESpawn(false), ENextRound, EResume];
    var s1 := Apply(START, events[0]);
    var s2 := Apply(s1, events[1]);
    var s3 := Apply(s2, events[2]);
    states := [START, s1, s2, s3, Apply(s3, EResume)];
    assert Apply(s3, EResume) == ONE_RUNS;
  }

  const ASKS := Call(1, 2, INVALID, A.NoSignal, 7)
  const ASKING := NotYetCalled(ONE_RUNS, Some(Mailbox.Box(1, [], Mailbox.INVALID)))

  lemma AskingIsInitial()
    ensures Initial(ASKS, ASKING) && Possible(ASKS, ASKING, Begin)
  {
    var events, states := OneRuns();
    AnyMomentIsInitial(events, states, |events|, ASKS, ASKING.box);
  }

  lemma FirstStep(x: Call, w: World, st: Step)
    requires Initial(x, w) && Possible(x, w, st)
    ensures ServiceCode.IsRun(x, [st], [w, Next(x, w, st)])
  {
  }

  /** A run of the code in which a call is sent and suspended. */
  lemma CallWaits() returns (worlds: seq<World>)
    ensures ServiceCode.IsRun(ASKS, [Begin], worlds) && worlds[0] == ASKING
    ensures worlds[1].pc == Pc.Waiting && worlds[1].enqueued == 1
  {
    AskingIsInitial();
    InitialIsInit(ASKS, ASKING);
    WaitsAtOnceIff(ASKS, ASKING);
    FirstStep(ASKS, ASKING, Begin);
    worlds := [ASKING, Next(ASKS, ASKING, Begin)];
  }
}
