/** Mailboxes of src/mailbox.c in the scheduler of module Coroutines: a receive on an empty mailbox makes a
    signal, leaves it in the mailbox and waits for it.  Whatever else happens in the scheduler, this is one
    of the runs of module Parking, so what is proved there holds of it. */
module MailboxCode {
  import opened Coroutines
  import opened Effects
  import opened SchedulerProofs
  import opened Wrappers
  import M = Mailbox
  import P = Parking

  /** The scheduler; the mailboxes, where each receiver is inside its receive, and the history of module
      Parking.  Handles come from one table. */
  datatype World = World(sched: State, recv: P.State)

  datatype Step =
    | Open(capacity: nat)
    | Close(box: Id)
    | Send(box: Id, message: M.Message)
    | Receive(coro: Id, box: Id)   // a coroutine calls receive, up to where it first gives up control
    | Continue(coro: Id)           // it is resumed inside the receive
    | Others(e: Event)             // anything else in the scheduler

  /** No coroutine runs inside a receive. */
  predicate Elsewhere(w: World) {
    w.sched.running.Some? ==> w.sched.running.value !in w.recv.waiting
  }

  /** Only the mailbox has a handle to the signal of a receiver. */
  ghost predicate Local(w: World, e: Event) {
    forall c | c in w.recv.waiting :: !Names(e, w.recv.waiting[c].signal)
  }

  predicate Names(e: Event, g: Id) {
    (e.ERaise? || e.EMonitor?) && e.g == g
  }

  ghost predicate Possible(w: World, st: Step) {
    match st
    case Open(_) => Elsewhere(w)
    case Close(_) => Elsewhere(w)
    case Send(_, _) => Elsewhere(w)
    case Receive(c, _) => w.sched.running == Some(c) && c in w.sched.coros && c !in w.recv.waiting
    case Continue(c) => w.sched.running == Some(c) && c in w.recv.waiting
    case Others(e) => Enabled(w.sched, e) && Elsewhere(w) && Local(w, e)
  }

  function RaiseParked(s: State, g: Id): State {
    if g == M.INVALID then s else RaiseSignal(s, g).0
  }

  /** The signal that a close or a send raises, if any. */
  function RaisedBy(p: P.State, st: Step): Id {
    match st
    case Close(h) => if h in p.boxes then p.boxes[h].signal else M.INVALID
    case Send(h, m) => if h in p.boxes then M.Sent(p.boxes[h], m).raised else M.INVALID
    case _ => M.INVALID
  }

  /** Make a signal and wait for it. */
  function Sleep(s: State, c: Id): State
    requires c in s.coros
  {
    var (s1, g) := MakeSignal(s, c);
    WaitForSignals(s1, c, [g], true)
  }

  predicate Parks(p: P.State, h: Id) {
    h in p.boxes && p.boxes[h].queue == [] && p.boxes[h].signal == M.INVALID
  }

  /** What becomes of the scheduler. */
  function NextSched(w: World, st: Step): State
    requires st.Others? ==> Enabled(w.sched, st.e)
    requires st.Receive? ==> st.coro in w.sched.coros
  {
    match st
    case Open(_) => w.sched.(nextId := w.sched.nextId + 1)
    case Close(_) => RaiseParked(w.sched, RaisedBy(w.recv, st))
    case Send(_, _) => RaiseParked(w.sched, RaisedBy(w.recv, st))
    case Receive(c, h) => if Parks(w.recv, h) then Sleep(w.sched, c) else w.sched
    case Continue(_) => w.sched
    case Others(e) => Apply(w.sched, e)
  }

  /** What becomes of the mailboxes and the receivers. */
  function NextRecv(w: World, st: Step): P.State
    requires st.Others? ==> Enabled(w.sched, st.e)
    requires st.Continue? ==> st.coro in w.recv.waiting
  {
    match st
    case Open(capacity) => P.DoOpen(w.recv, capacity)
    case Close(h) => P.DoClose(w.recv, h)
    case Send(h, m) => P.DoSend(w.recv, h, m)
    case Receive(c, h) => P.DoBegin(w.recv, c, h)
    case Continue(c) => P.DoResume(w.recv, c)
    case Others(e) => w.recv.(nextId := Apply(w.sched, e).nextId)
  }

  ghost predicate Leads(w: World, st: Step, w': World) {
    Possible(w, st) && w' == World(NextSched(w, st), NextRecv(w, st))
  }

  /** Any moment before the first mailbox is opened. */
  ghost predicate Initial(w: World) {
    Inv(w.sched) && Registered(w.sched) && w.recv == P.START.(nextId := w.sched.nextId)
  }

  ghost predicate LeadsAt(steps: seq<Step>, worlds: seq<World>, i: nat)
    requires i < |steps| && |worlds| == |steps| + 1
  {
    Leads(worlds[i], steps[i], worlds[i + 1])
  }

  ghost predicate IsPath(steps: seq<Step>, worlds: seq<World>) {
    |worlds| == |steps| + 1 && forall i | 0 <= i < |steps| :: LeadsAt(steps, worlds, i)
  }

  ghost predicate IsRun(steps: seq<Step>, worlds: seq<World>) {
    IsPath(steps, worlds) && Initial(worlds[0])
  }

  // ----- invariant -----

  /** What coroutine `c`, inside a receive, waits for: it is suspended exactly as long as its signal is live. */
  ghost predicate Sleeps(s: State, c: Id, g: Id, raised: bool) {
    && c in s.coros && 0 < g < s.nextId && (raised <==> g !in s.signals)
    && (g in s.signals ==> s.signals[g].owner == c)
    && (forall m | m in s.monitors :: s.monitors[m].signal != g)
    && ((c in s.waits && s.waits[c] == Coroutines.Wait({g}, true, 0)) || (Runs(s, c) && raised))
  }

  ghost predicate SleepsIn(w: World, c: Id)
    requires c in w.recv.waiting
  {
    Sleeps(w.sched, c, w.recv.waiting[c].signal, w.recv.waiting[c].signal in w.recv.raised)
  }

  ghost predicate Sane(w: World) {
    && Registered(w.sched) && w.recv.nextId == w.sched.nextId
    && forall c | c in w.recv.waiting :: SleepsIn(w, c)
  }

  ghost predicate InvW(w: World) {
    Inv(w.sched) && P.Inv(w.recv) && Sane(w)
  }

  /** The step in module Parking. */
  function AbsStep(w: World, st: Step): P.Action
    requires st.Others? ==> Enabled(w.sched, st.e)
  {
    match st
    case Open(capacity) => P.Open(capacity)
    case Close(h) => P.Close(h)
    case Send(h, m) => P.Send(h, m)
    case Receive(c, h) => P.Begin(c, h)
    case Continue(c) => P.Resume(c)
    case Others(e) => P.Pass(Apply(w.sched, e).nextId)
  }

  // ----- what the steps keep -----

  /** An effect that leaves a sleeper's signal alone, or raises it. */
  lemma SleepsKept(s: State, s': State, c: Id, g: Id, raised: bool,
                   closed: set<Id>, dropped: set<Id>, attached: set<Id>, gone: set<Id>)
    requires Sleeps(s, c, g, raised) && Effect(s, s', closed, dropped, attached, gone)
    requires c !in gone && g !in attached
    requires (c in s'.waits && s'.waits[c] == Coroutines.Wait({g}, true, 0)) || (Runs(s', c) && g !in s'.signals)
    ensures Sleeps(s', c, g, raised || g in closed)
  {
  }

  lemma BlockedIff(s: State, g: Id)
    ensures Blocked(Coroutines.Wait({g}, true, 0), s.signals) <==> g in s.signals
  {
    assert g in s.signals ==> g in LiveNamed(Coroutines.Wait({g}, true, 0), s.signals);
  }

  lemma SuspendedIff(s: State, c: Id, g: Id, raised: bool)
    requires Inv(s) && Sleeps(s, c, g, raised)
    ensures s.coros[c].status.Waiting? <==> !raised
    ensures s.running == Some(c) ==> raised
  {
    BlockedIff(s, g);
    if c in s.waits { InItsWait(s, c); }
  }

  lemma EventKeepsSleeps(s: State, e: Event, c: Id, g: Id, raised: bool)
    requires Inv(s) && Enabled(s, e) && Sleeps(s, c, g, raised) && s.running != Some(c) && !Names(e, g)
    ensures Sleeps(Apply(s, e), c, g, raised)
  {
    EventEffect(s, e);
    WaitLasts(s, e, c);
    if e.EResume? && s.current[s.index] == c {
      SuspendedIff(s, c, g, raised);
      ResumedIsUnblocked(s);
    }
    EventSpares(s, e, c, g, raised);
    SleepsKept(s, Apply(s, e), c, g, raised, ClosedBy(s, e), DroppedBy(s, e), AttachedBy(s, e), GoneBy(s, e));
  }

  lemma EventSpares(s: State, e: Event, c: Id, g: Id, raised: bool)
    requires Links(s) && Enabled(s, e) && Sleeps(s, c, g, raised) && s.running != Some(c) && !Names(e, g)
    ensures g in s.signals ==> g !in ClosedBy(s, e)
    ensures g !in AttachedBy(s, e) && c !in GoneBy(s, e)
  {
  }

  // ----- steps -----

  lemma RaiseKeepsSleeps(s: State, x: Id, c: Id, g: Id, raised: bool)
    requires Links(s) && Sleeps(s, c, g, raised)
    ensures Sleeps(RaiseParked(s, x), c, g, raised || (x != M.INVALID && g == x))
  {
    if x != M.INVALID {
      RaiseOnlyRaises(s, x);
      SleepsKept(s, RaiseParked(s, x), c, g, raised, {x}, {}, {}, {});
    }
  }

  lemma SleepKeepsWaits(s: State, k: Id, c: Id)
    requires k in s.coros && c != k
    ensures var s' := Sleep(s, k); c in s.waits ==> c in s'.waits && s'.waits[c] == s.waits[c]
  {
    var (s1, g) := MakeSignal(s, k);
    WaitFrame(s1, k, [g], true);
  }

  /** Another coroutine goes to sleep. */
  lemma SleepKeepsOthers(s: State, k: Id, c: Id, g: Id, raised: bool)
    requires Inv(s) && Runs(s, k) && Sleeps(s, c, g, raised) && c != k
    ensures Sleeps(Sleep(s, k), c, g, raised)
  {
    MakeAndWait(k, s);
    SleepKeepsWaits(s, k, c);
    SleepsKept(s, Sleep(s, k), c, g, raised, {}, {}, {}, {});
  }

  lemma NewSleeper(s: State, k: Id)
    requires Inv(s) && Registered(s) && Runs(s, k)
    ensures var s' := Sleep(s, k);
      Inv(s') && Registered(s') && s'.nextId == s.nextId + 1 && Sleeps(s', k, s.nextId, false)
  {
    MakeAndWait(k, s);
    SleepIsNew(s, Sleep(s, k), k);
    WaitFrame(MakeSignal(s, k).0, k, [s.nextId], true);
  }

  lemma SleepIsNew(s: State, s': State, k: Id)
    requires Below(s) && Registered(s) && k in s.coros && SleepFacts(k, s, s', s.nextId, true)
    ensures Registered(s') && Sleeps(s', k, s.nextId, false)
  {
    EffectKeepsRegistered(s, s', {}, {}, {}, {});
  }

  lemma OneMoreHandle(s: State)
    requires Inv(s) && Registered(s)
    ensures var s' := s.(nextId := s.nextId + 1);
      Inv(s') && Registered(s')
  {
    assert Queue(s.(nextId := s.nextId + 1)) == Queue(s);
  }

  lemma SchedulerKeepsInv(w: World, st: Step)
    requires Inv(w.sched) && Registered(w.sched) && Possible(w, st)
    ensures Inv(NextSched(w, st)) && Registered(NextSched(w, st))
  {
    match st
    case Open(_) => OneMoreHandle(w.sched);
    case Close(_) => RaiseParkedKeepsInv(w.sched, RaisedBy(w.recv, st));
    case Send(_, _) => RaiseParkedKeepsInv(w.sched, RaisedBy(w.recv, st));
    case Receive(c, h) => if Parks(w.recv, h) { NewSleeper(w.sched, c); }
    case Continue(_) =>
    case Others(e) => EventKeepsRegistered(w.sched, e);
  }

  lemma RaiseKeepsRegistered(s: State, g: Id)
    requires Links(s) && Registered(s)
    ensures Registered(RaiseSignal(s, g).0)
  {
    RaiseEffect(s, g);
    EffectKeepsRegistered(s, RaiseSignal(s, g).0, {g}, {}, {}, {});
  }

  lemma RaiseParkedKeepsInv(s: State, g: Id)
    requires Inv(s) && Registered(s)
    ensures Inv(RaiseParked(s, g)) && Registered(RaiseParked(s, g))
  {
    RaiseKeepsInv(s, g);
    RaiseKeepsRegistered(s, g);
  }

  lemma EventKeepsRegistered(s: State, e: Event)
    requires Inv(s) && Registered(s) && Enabled(s, e)
    ensures Inv(Apply(s, e)) && Registered(Apply(s, e)) && Apply(s, e).nextId >= s.nextId
  {
    StepKeepsInv(s, e);
    EventEffect(s, e);
    EffectKeepsRegistered(s, Apply(s, e), ClosedBy(s, e), DroppedBy(s, e), AttachedBy(s, e), GoneBy(s, e));
  }

  predicate RaisedNow(w: World, st: Step, g: Id) {
    RaisedBy(w.recv, st) != M.INVALID && g == RaisedBy(w.recv, st)
  }

  /** In the scheduler, a step raises the signal of a receiver, or leaves it alone. */
  lemma SchedulerKeepsSleeper(w: World, st: Step, c: Id, g: Id, raised: bool)
    requires Inv(w.sched) && Possible(w, st) && Sleeps(w.sched, c, g, raised)
    requires c in w.recv.waiting && w.recv.waiting[c].signal == g
    ensures Sleeps(NextSched(w, st), c, g, raised || RaisedNow(w, st, g))
  {
    match st
    case Open(_) =>
    case Close(_) => RaiseKeepsSleeps(w.sched, RaisedBy(w.recv, st), c, g, raised);
    case Send(_, _) => RaiseKeepsSleeps(w.sched, RaisedBy(w.recv, st), c, g, raised);
    case Receive(k, h) => if Parks(w.recv, h) { SleepKeepsOthers(w.sched, k, c, g, raised); }
    case Continue(_) =>
    case Others(e) => EventKeepsSleeps(w.sched, e, c, g, raised);
  }

  /** And the mailboxes and receivers agree. */
  lemma ReceiverKept(w: World, st: Step, c: Id)
    requires Possible(w, st) && c in w.recv.waiting && c in NextRecv(w, st).waiting
    ensures NextRecv(w, st).waiting[c] == w.recv.waiting[c]
    ensures forall g :: g in NextRecv(w, st).raised <==> g in w.recv.raised || RaisedNow(w, st, g)
  {
  }

  lemma ReceiverIsNew(w: World, st: Step, c: Id)
    requires Possible(w, st) && c !in w.recv.waiting && c in NextRecv(w, st).waiting
    requires P.Known(w.recv)
    ensures st.Receive? && st.coro == c && Parks(w.recv, st.box)
    ensures NextRecv(w, st).waiting[c].signal == w.recv.nextId && w.recv.nextId !in NextRecv(w, st).raised
  {
  }

  lemma StepKeepsReceivers(w: World, st: Step, w': World, c: Id)
    requires Inv(w.sched) && P.Known(w.recv) && Sane(w) && Leads(w, st, w') && c in w'.recv.waiting
    ensures SleepsIn(w', c)
  {
    if c in w.recv.waiting {
      assert SleepsIn(w, c);
      SchedulerKeepsSleeper(w, st, c, w.recv.waiting[c].signal, w.recv.waiting[c].signal in w.recv.raised);
      ReceiverKept(w, st, c);
    } else {
      ReceiverIsNew(w, st, c);
      ReceiverRuns(w, st);
      NewSleeper(w.sched, c);
    }
  }

  lemma ReceiverRuns(w: World, st: Step)
    requires Inv(w.sched) && Possible(w, st) && st.Receive?
    ensures Runs(w.sched, st.coro)
  {
  }

  lemma SleepMakesOne(s: State, c: Id)
    requires c in s.coros
    ensures Sleep(s, c).nextId == s.nextId + 1
  {
    var (s1, g) := MakeSignal(s, c);
    WaitFrame(s1, c, [g], true);
  }

  lemma SameNextId(w: World, st: Step)
    requires w.recv.nextId == w.sched.nextId && Possible(w, st)
    ensures NextRecv(w, st).nextId == NextSched(w, st).nextId
  {
    if st.Receive? { SleepMakesOne(w.sched, st.coro); }
  }

  lemma StepKeepsSane(w: World, st: Step, w': World)
    requires Inv(w.sched) && P.Known(w.recv) && Sane(w) && Leads(w, st, w')
    ensures Inv(w'.sched) && Sane(w')
  {
    SchedulerKeepsInv(w, st);
    SameNextId(w, st);
    forall c | c in w'.recv.waiting ensures SleepsIn(w', c) { StepKeepsReceivers(w, st, w', c); }
  }

  /** A receiver that goes on has been woken. */
  lemma StepIsEnabled(w: World, st: Step)
    requires Inv(w.sched) && Sane(w) && Possible(w, st)
    ensures P.Enabled(w.recv, AbsStep(w, st)) && NextRecv(w, st) == P.Apply(w.recv, AbsStep(w, st))
  {
    if st.Continue? {
      var c := st.coro;
      assert SleepsIn(w, c);
      SuspendedIff(w.sched, c, w.recv.waiting[c].signal, w.recv.waiting[c].signal in w.recv.raised);
    } else if st.Others? {
      EventKeepsRegistered(w.sched, st.e);
    }
  }

  /** Every step of the code is the step of module Parking that it is meant to be. */
  lemma StepRefines(w: World, st: Step, w': World)
    requires InvW(w) && Leads(w, st, w')
    ensures InvW(w')
    ensures P.Enabled(w.recv, AbsStep(w, st)) && w'.recv == P.Apply(w.recv, AbsStep(w, st))
  {
    StepKeepsSane(w, st, w');
    StepIsEnabled(w, st);
    P.StepKeepsInv(w.recv, AbsStep(w, st));
  }

  // ----- runs -----

  lemma InitialHolds(w: World)
    requires Initial(w)
    ensures InvW(w) && P.Enabled(P.START, P.Pass(w.sched.nextId))
    ensures w.recv == P.Apply(P.START, P.Pass(w.sched.nextId))
  {
  }

  lemma RunLeads(steps: seq<Step>, worlds: seq<World>, i: nat)
    requires IsPath(steps, worlds) && i < |steps|
    ensures Leads(worlds[i], steps[i], worlds[i + 1])
  {
    assert LeadsAt(steps, worlds, i);
  }

  lemma PathStepKeepsInvW(steps: seq<Step>, worlds: seq<World>, i: nat)
    requires IsPath(steps, worlds) && i < |steps|
    ensures InvW(worlds[i]) ==> InvW(worlds[i + 1])
  {
    RunLeads(steps, worlds, i);
    if InvW(worlds[i]) { StepRefines(worlds[i], steps[i], worlds[i + 1]); }
  }

  lemma {:induction false} PathKeepsInvW(steps: seq<Step>, worlds: seq<World>, n: nat)
    requires IsPath(steps, worlds) && n < |worlds|
    ensures InvW(worlds[0]) ==> InvW(worlds[n])
  {
    if n > 0 {
      PathKeepsInvW(steps, worlds, n - 1);
      PathStepKeepsInvW(steps, worlds, n - 1);
    }
  }

  lemma RunKeepsInvW(steps: seq<Step>, worlds: seq<World>, n: nat)
    requires IsRun(steps, worlds) && n < |worlds|
    ensures InvW(worlds[n])
  {
    InitialHolds(worlds[0]);
    PathKeepsInvW(steps, worlds, n);
  }

  lemma RunStepRefines(steps: seq<Step>, worlds: seq<World>, i: nat)
    requires IsRun(steps, worlds) && i < |steps|
    ensures Possible(worlds[i], steps[i])
    ensures P.Enabled(worlds[i].recv, AbsStep(worlds[i], steps[i]))
    ensures worlds[i + 1].recv == P.Apply(worlds[i].recv, AbsStep(worlds[i], steps[i]))
  {
    RunKeepsInvW(steps, worlds, i);
    RunLeads(steps, worlds, i);
    StepRefines(worlds[i], steps[i], worlds[i + 1]);
  }

  /** What the steps are in module Parking; before the first, other handles were made. */
  ghost function AbsSteps(steps: seq<Step>, worlds: seq<World>): seq<P.Action>
    requires IsRun(steps, worlds)
  {
    [P.Pass(worlds[0].sched.nextId)] +
    seq(|steps|, i requires 0 <= i < |steps| => RunLeads(steps, worlds, i); AbsStep(worlds[i], steps[i]))
  }

  ghost function AbsStates(worlds: seq<World>): seq<P.State> {
    [P.START] + seq(|worlds|, i requires 0 <= i < |worlds| => worlds[i].recv)
  }

  /** The refinement: step by step, every run of the code and of the scheduler is a run of module Parking. */
  lemma RunRefines(steps: seq<Step>, worlds: seq<World>)
    requires IsRun(steps, worlds)
    ensures P.IsRun(AbsSteps(steps, worlds), AbsStates(worlds))
  {
    var actions, states := AbsSteps(steps, worlds), AbsStates(worlds);
    InitialHolds(worlds[0]);
    forall i | 0 <= i < |actions|
      ensures P.Enabled(states[i], actions[i]) && states[i + 1] == P.Apply(states[i], actions[i])
    {
      if i > 0 { RunStepRefines(steps, worlds, i - 1); }
    }
  }

  /** The scheduler keeps a receiver suspended exactly as long as its signal has not been raised. */
  lemma ReceiverSuspendedIff(steps: seq<Step>, worlds: seq<World>, n: nat, c: Id)
    requires IsRun(steps, worlds) && n < |worlds| && c in worlds[n].recv.waiting
    ensures var w := worlds[n];
      && c in w.sched.coros
      && (w.sched.coros[c].status.Waiting? <==> w.recv.waiting[c].signal !in w.recv.raised)
  {
    RunKeepsInvW(steps, worlds, n);
    assert SleepsIn(worlds[n], c);
    SuspendedIff(worlds[n].sched, c, worlds[n].recv.waiting[c].signal,
                 worlds[n].recv.waiting[c].signal in worlds[n].recv.raised);
  }

  /** Coroutine `c` is suspended by the scheduler, inside a receive on `h`. */
  ghost predicate SuspendedOn(w: World, c: Id, h: Id) {
    && c in w.recv.waiting && w.recv.waiting[c].box == h
    && c in w.sched.coros && w.sched.coros[c].status.Waiting?
  }

  lemma SuspendedOnIff(steps: seq<Step>, worlds: seq<World>, n: nat, c: Id, h: Id)
    requires IsRun(steps, worlds) && n < |worlds|
    ensures SuspendedOn(worlds[n], c, h) <==> P.AsleepOn(worlds[n].recv, c, h)
  {
    if c in worlds[n].recv.waiting { ReceiverSuspendedIff(steps, worlds, n, c); }
  }

  /** Nobody is left suspended in a receive on a mailbox that is closed or has a message, two receivers are
      never suspended on one mailbox, and a signal stored in a mailbox is that of a suspended receiver. */
  lemma NobodySleepsOnMessages(steps: seq<Step>, worlds: seq<World>, n: nat, c: Id, h: Id)
    requires IsRun(steps, worlds) && n < |worlds|
    ensures var w := worlds[n];
      && (SuspendedOn(w, c, h) ==>
            && h in w.recv.boxes && w.recv.boxes[h].queue == []
            && forall d | SuspendedOn(w, d, h) :: d == c)
      && (h in w.recv.boxes && w.recv.boxes[h].signal != M.INVALID ==> exists d :: SuspendedOn(w, d, h))
  {
    var w := worlds[n];
    RunRefines(steps, worlds);
    forall d ensures SuspendedOn(w, d, h) <==> P.AsleepOn(w.recv, d, h) { SuspendedOnIff(steps, worlds, n, d, h); }
    P.ParkingIsExact(AbsSteps(steps, worlds), AbsStates(worlds), n + 1, c, h);
  }

  // ----- such runs -----

  /** At any point of any run of the scheduler, mailboxes may come into use. */
  lemma AnyMomentIsInitial(events: seq<Event>, states: seq<State>, n: nat)
    requires Coroutines.IsRun(events, states) && n < |states|
    ensures Initial(World(states[n], P.START.(nextId := states[n].nextId)))
  {
    SchedulerProofs.RunKeepsInv(events, states, n);
    RunKeepsRegistered(events, states, n);
  }

  /** A coroutine that runs. */
  const RUNNING := START.(
    coros := map[1 := Coro(Running, false, 0, 0, {}, [])], nextId := 2, current := [1], index := 1,
    running := Some(1), numCoros := 1, madeReady := [1], ran := [1])

  lemma OneRuns() returns (events: seq<Event>, states: seq<State>)
    ensures Coroutines.IsRun(events, states) && states[|events|] == RUNNING
  {
    events := [ESpawn(false), ENextRound, EResume];
    var s1 := Apply(START, events[0]);
    var s2 := Apply(s1, events[1]);
    states := [START, s1, s2, Apply(s2, EResume)];
    assert Apply(s2, EResume) == RUNNING;
  }

  const FIRST := World(RUNNING, P.START.(nextId := 2))
  const OPENED := World(RUNNING.(nextId := 3), P.DoOpen(P.START.(nextId := 2), 4))

  lemma FirstIsInitial()
    ensures Initial(FIRST)
  {
    var events, states := OneRuns();
    AnyMomentIsInitial(events, states, |events|);
  }

  lemma FirstOpens()
    ensures Leads(FIRST, Open(4), OPENED)
  {
  }

  lemma FirstReceives() returns (w: World)
    ensures Leads(OPENED, Receive(1, 2), w)
    ensures w.recv.waiting == map[1 := P.Wait(2, 3)] && w.recv.raised == {}
  {
    w := World(Sleep(OPENED.sched, 1), P.DoBegin(OPENED.recv, 1, 2));
  }

  lemma TwoSteps(w0: World, st: Step, w1: World, st': Step, w2: World)
    requires Initial(w0) && Leads(w0, st, w1) && Leads(w1, st', w2)
    ensures IsRun([st, st'], [w0, w1, w2])
  {
    var steps, worlds := [st, st'], [w0, w1, w2];
    assert Leads(worlds[0], steps[0], worlds[1]) && Leads(worlds[1], steps[1], worlds[2]);
  }

  lemma FirstRun() returns (worlds: seq<World>)
    ensures IsRun([Open(4), Receive(1, 2)], worlds) && worlds[0] == FIRST
    ensures worlds[2].recv.waiting == map[1 := P.Wait(2, 3)] && worlds[2].recv.raised == {}
  {
    FirstIsInitial();
    FirstOpens();
    var w := FirstReceives();
    TwoSteps(FIRST, Open(4), OPENED, Receive(1, 2), w);
    worlds := [FIRST, OPENED, w];
  }

  /** A run in which a coroutine is suspended in a receive. */
  lemma ReceiverSleeps() returns (worlds: seq<World>)
    ensures IsRun([Open(4), Receive(1, 2)], worlds) && SuspendedOn(worlds[2], 1, 2)
  {
    worlds := FirstRun();
    ReceiverSuspendedIff([Open(4), Receive(1, 2)], worlds, 2, 1);
  }
}
