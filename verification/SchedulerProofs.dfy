/** Invariants of the scheduler over every run, and what they say about waiting, scheduling order,
    termination, death and joining. */
module SchedulerProofs {
  import opened Coroutines
  import opened Wrappers

  // ----- the invariant -----

  ghost predicate NoDup(q: seq<Id>) {
    forall i, j | 0 <= i < j < |q| :: q[i] != q[j]
  }

  /** Every live signal is in the list of a live owner, and the lists hold nothing else. */
  ghost predicate Owned(coros: map<Id, Coro>, signals: map<Id, Signal>) {
    && (forall g | g in signals :: signals[g].owner in coros && g in coros[signals[g].owner].signals)
    && (forall c, g | c in coros && g in coros[c].signals :: g in signals && signals[g].owner == c)
  }

  /** Every live monitor is linked into the list of a live target, once, and the lists hold nothing else. */
  ghost predicate Attached(coros: map<Id, Coro>, monitors: map<Id, Monitor>) {
    && (forall m | m in monitors :: monitors[m].target in coros && m in coros[monitors[m].target].monitors)
    && (forall c, m | c in coros && m in coros[c].monitors :: m in monitors && monitors[m].target == c)
    && (forall c | c in coros :: NoDup(coros[c].monitors))
  }

  ghost predicate Below(s: State) {
    && s.nextId > 0
    && (forall c | c in s.coros :: c < s.nextId)
    && (forall g | g in s.signals :: 0 < g < s.nextId)
    && (forall m | m in s.monitors :: m < s.nextId)
    && (forall c, g | c in s.waits && g in s.waits[c].named :: g < s.nextId)
  }

  /** The pending part of the ready lists holds each READY coroutine exactly once and nothing else. */
  ghost predicate ReadyExact(s: State) {
    && s.index <= |s.current|
    && NoDup(Queue(s))
    && (forall c {:trigger c in Queue(s)} :: c in Queue(s) <==> c in s.coros && s.coros[c].status.Ready?)
  }

  ghost predicate RunningExact(s: State) {
    && (forall c | c in s.coros :: s.coros[c].status.Running? <==> s.running == Some(c))
    && (s.running.Some? ==> s.running.value in s.coros && s.coros[s.running.value].blocking == 0)
  }

  ghost function Daemons(coros: map<Id, Coro>): set<Id> {
    set c | c in coros && coros[c].daemon
  }

  ghost predicate Counted(s: State) {
    s.numCoros == |s.coros| && s.numDaemons == |Daemons(s.coros)|
  }

  /** First come, first served: what has run, followed by what is queued, is what was made ready. */
  ghost predicate InOrder(s: State) {
    s.madeReady == s.ran + Queue(s)
  }

  ghost function LiveNamed(w: Wait, signals: map<Id, Signal>): set<Id> {
    set g | g in w.named && g in signals
  }

  /** Wait-all is blocked while one of its signals is live, wait-any until one of them is raised. */
  ghost predicate Blocked(w: Wait, signals: map<Id, Signal>) {
    if w.all then LiveNamed(w, signals) != {} || w.surplus > 0 else LiveNamed(w, signals) == w.named
  }

  /** The value of `num_blocking_signals` during a wait. */
  ghost function Outstanding(w: Wait, signals: map<Id, Signal>): nat {
    if w.all then |LiveNamed(w, signals)| + w.surplus else 1
  }

  /** Coroutine `c` is in wait `w`: its live signals of its own epoch are exactly the live named ones,
      and it is suspended exactly as long as the wait is blocked. */
  ghost predicate InWait(c: Id, coro: Coro, w: Wait, signals: map<Id, Signal>) {
    && w.named != {}
    && (forall g | g in signals :: signals[g].owner == c && signals[g].epoch == coro.epoch <==> g in w.named)
    && (coro.status.Waiting? || coro.status.Ready?)
    && (coro.status.Waiting? <==> Blocked(w, signals))
    && (coro.status.Waiting? ==> coro.blocking == Outstanding(w, signals))
  }

  ghost predicate Epochs(s: State)
    requires Owned(s.coros, s.signals)
  {
    && (forall g | g in s.signals :: s.signals[g].epoch <= s.coros[s.signals[g].owner].epoch)
    && (forall c | c in s.coros && s.coros[c].status.Waiting? :: c in s.waits)
    && (forall c | c in s.waits :: c in s.coros && InWait(c, s.coros[c], s.waits[c], s.signals))
  }

  ghost predicate Links(s: State) {
    Owned(s.coros, s.signals) && Attached(s.coros, s.monitors) && Below(s)
  }

  ghost predicate Lists(s: State) {
    ReadyExact(s) && RunningExact(s) && InOrder(s)
  }

  ghost predicate Inv(s: State) {
    Links(s) && Lists(s) && Counted(s) && Epochs(s)
  }

  // ----- helpers on queues and sets -----

  lemma NoDupAppend(q: seq<Id>, c: Id)
    requires NoDup(q) && c !in q
    ensures NoDup(q + [c])
  {
  }

  lemma SameDaemons(coros: map<Id, Coro>, c: Id, coro: Coro)
    requires c in coros && coro.daemon == coros[c].daemon
    ensures |coros[c := coro]| == |coros| && Daemons(coros[c := coro]) == Daemons(coros)
  {
    assert coros[c := coro].Keys == coros.Keys;
  }

  /** A coroutine whose signal list does not change. */
  lemma SameSignals(coros: map<Id, Coro>, signals: map<Id, Signal>, c: Id, coro: Coro)
    requires Owned(coros, signals) && c in coros && coro.signals == coros[c].signals
    ensures Owned(coros[c := coro], signals)
  {
  }

  /** A coroutine whose monitor list does not change. */
  lemma SameMonitors(coros: map<Id, Coro>, monitors: map<Id, Monitor>, c: Id, coro: Coro)
    requires Attached(coros, monitors) && c in coros && coro.monitors == coros[c].monitors
    ensures Attached(coros[c := coro], monitors)
  {
  }

  lemma UnlinkSignal(coros: map<Id, Coro>, signals: map<Id, Signal>, g: Id, coro: Coro)
    requires Owned(coros, signals) && g in signals && coro.signals == coros[signals[g].owner].signals - {g}
    ensures Owned(coros[signals[g].owner := coro], signals - {g})
  {
  }

  // ----- bio_raise_signal -----

  /** What raising a live signal touches: the signal, and its owner's list and wait. */
  lemma RaiseFrame(s: State, g: Id)
    requires g in s.signals && s.signals[g].owner in s.coros
    ensures var s', c := RaiseSignal(s, g).0, s.signals[g].owner;
      && c in s'.coros
      && var coro := s'.coros[c];
         && s'.coros == s.coros[c := coro] && s'.signals == s.signals - {g}
         && coro.signals == s.coros[c].signals - {g} && coro.monitors == s.coros[c].monitors
         && coro.daemon == s.coros[c].daemon && coro.epoch == s.coros[c].epoch
         && s'.monitors == s.monitors && s'.nextId == s.nextId && s'.waits == s.waits
         && (!Counts(s, g) ==> coro.status == s.coros[c].status && coro.blocking == s.coros[c].blocking)
         && (Counts(s, g) ==> coro.blocking == s.coros[c].blocking - 1
                              && coro.status == if s.coros[c].blocking == 1 then Ready else Waiting)
  {
  }

  lemma RaiseKeepsLinks(s: State, g: Id)
    requires Owned(s.coros, s.signals) && Attached(s.coros, s.monitors) && Below(s)
    ensures var s' := RaiseSignal(s, g).0;
      && Owned(s'.coros, s'.signals) && Attached(s'.coros, s'.monitors) && Below(s')
      && s'.signals == s.signals - {g} && s'.monitors == s.monitors && s'.coros.Keys == s.coros.Keys
  {
    if g in s.signals {
      var s', c := RaiseSignal(s, g).0, s.signals[g].owner;
      RaiseFrame(s, g);
      UnlinkSignal(s.coros, s.signals, g, s'.coros[c]);
      SameMonitors(s.coros, s.monitors, c, s'.coros[c]);
    } else {
      assert s.signals - {g} == s.signals;
    }
  }

  lemma RaiseKeepsReady(s: State, g: Id)
    requires ReadyExact(s) && RunningExact(s) && InOrder(s)
    ensures var s' := RaiseSignal(s, g).0; ReadyExact(s') && RunningExact(s') && InOrder(s')
  {
    var (s', woken) := RaiseSignal(s, g);
    if woken {
      var c := s.signals[g].owner;
      assert c !in Queue(s);
      NoDupAppend(Queue(s), c);
      assert Queue(s') == Queue(s) + [c];
    } else {
      assert Queue(s') == Queue(s);
    }
  }

  lemma RaiseKeepsCounted(s: State, g: Id)
    requires Counted(s)
    ensures Counted(RaiseSignal(s, g).0)
  {
    if g in s.signals && s.signals[g].owner in s.coros {
      var c := s.signals[g].owner;
      SameDaemons(s.coros, c, RaiseSignal(s, g).0.coros[c]);
    }
  }

  lemma RaiseLiveNamed(w: Wait, signals: map<Id, Signal>, g: Id)
    requires g in signals
    ensures LiveNamed(w, signals - {g}) == LiveNamed(w, signals) - {g}
    ensures g in w.named ==> |LiveNamed(w, signals)| == |LiveNamed(w, signals - {g})| + 1
  {
    if g in w.named {
      assert LiveNamed(w, signals) == LiveNamed(w, signals - {g}) + {g};
    }
  }

  /** Raising a signal moves the wait of its owner exactly one step on, and nobody else's. */
  lemma RaiseKeepsWait(s: State, g: Id, c: Id, w: Wait)
    requires g in s.signals && s.signals[g].owner in s.coros && c in s.coros
    requires InWait(c, s.coros[c], w, s.signals)
    ensures var s' := RaiseSignal(s, g).0; c in s'.coros && InWait(c, s'.coros[c], w, s'.signals)
  {
    var s' := RaiseSignal(s, g).0;
    RaiseFrame(s, g);
    RaiseLiveNamed(w, s.signals, g);
    if g in w.named {
      assert g in LiveNamed(w, s.signals) && g !in LiveNamed(w, s'.signals);
    } else {
      assert LiveNamed(w, s'.signals) == LiveNamed(w, s.signals);
    }
  }

  lemma RaiseKeepsEpochs(s: State, g: Id)
    requires Owned(s.coros, s.signals) && Epochs(s)
    requires var s' := RaiseSignal(s, g).0; Owned(s'.coros, s'.signals)
    ensures Epochs(RaiseSignal(s, g).0)
  {
    var s' := RaiseSignal(s, g).0;
    if g in s.signals {
      RaiseFrame(s, g);
      forall c | c in s'.waits ensures c in s'.coros && InWait(c, s'.coros[c], s'.waits[c], s'.signals) {
        RaiseKeepsWait(s, g, c, s.waits[c]);
      }
    }
  }

  lemma RaiseKeepsInv(s: State, g: Id)
    requires Inv(s)
    ensures Inv(RaiseSignal(s, g).0)
  {
    RaiseKeepsLinks(s, g);
    RaiseKeepsReady(s, g);
    RaiseKeepsCounted(s, g);
    RaiseKeepsEpochs(s, g);
  }

  // ----- updates of one coroutine -----

  ghost predicate Runs(s: State, c: Id) {
    s.running == Some(c) && c in s.coros && s.coros[c].status.Running?
  }

  /** Only coroutine `c` of `s` changes, not its lists. */
  ghost predicate Updates(s: State, s': State, c: Id) {
    && c in s.coros && c in s'.coros && s'.coros == s.coros[c := s'.coros[c]]
  }

  ghost predicate SameQueues(s: State, s': State) {
    && s'.current == s.current && s'.index == s.index && s'.next == s.next
    && s'.madeReady == s.madeReady && s'.ran == s.ran
  }

  lemma UpdateKeepsCounted(s: State, s': State, c: Id)
    requires Counted(s) && Updates(s, s', c) && s'.coros[c].daemon == s.coros[c].daemon
    requires s'.numCoros == s.numCoros && s'.numDaemons == s.numDaemons
    ensures Counted(s')
  {
    SameDaemons(s.coros, c, s'.coros[c]);
  }

  lemma UpdateKeepsLists(s: State, s': State, c: Id)
    requires Lists(s) && Updates(s, s', c) && SameQueues(s, s') && s'.running == s.running
    requires s'.coros[c].status == s.coros[c].status && s'.coros[c].blocking == s.coros[c].blocking
    ensures Lists(s')
  {
    assert Queue(s') == Queue(s);
  }

  /** The running coroutine stops running and waits. */
  lemma ParkKeepsLists(s: State, s': State, c: Id)
    requires Lists(s) && Runs(s, c) && Updates(s, s', c) && SameQueues(s, s') && s'.running.None?
    requires s'.coros[c].status.Waiting?
    ensures Lists(s')
  {
    assert Queue(s') == Queue(s);
  }

  /** The running coroutine stops running and queues up. */
  lemma RequeueKeepsLists(s: State, s': State, c: Id)
    requires Lists(s) && Runs(s, c) && Updates(s, s', c) && s'.running.None?
    requires SameQueues(PushReady(s, c), s') && s'.coros[c].status.Ready?
    ensures Lists(s')
  {
    assert c !in Queue(s);
    NoDupAppend(Queue(s), c);
    assert Queue(s') == Queue(s) + [c];
  }

  lemma NotInWait(s: State, c: Id)
    requires Owned(s.coros, s.signals) && Epochs(s) && Runs(s, c)
    ensures c !in s.waits
  {
  }

  /** Waits of other coroutines do not notice changes to signals they do not own. */
  lemma OthersWaitOn(c: Id, coro: Coro, w: Wait, signals: map<Id, Signal>, signals': map<Id, Signal>)
    requires InWait(c, coro, w, signals)
    requires forall g | g in signals && signals[g].owner == c :: g in signals' && signals'[g] == signals[g]
    requires forall g | g in signals' && signals'[g].owner == c :: g in signals && signals[g].owner == c
    requires forall g | g in w.named && g in signals' :: g in signals
    ensures InWait(c, coro, w, signals')
  {
    assert LiveNamed(w, signals') == LiveNamed(w, signals);
  }

  /** The running coroutine changes its own signals only. */
  lemma OwnSignalsKeepEpochs(s: State, s': State, c: Id)
    requires Owned(s.coros, s.signals) && Epochs(s) && Runs(s, c) && Below(s)
    requires Owned(s'.coros, s'.signals) && Updates(s, s', c) && s'.waits == s.waits && !s'.coros[c].status.Waiting?
    requires s'.coros[c].epoch >= s.coros[c].epoch
    requires forall g | g in s'.signals && s'.signals[g].owner == c :: s'.signals[g].epoch <= s'.coros[c].epoch
    requires forall g | g in s'.signals && s'.signals[g].owner != c :: g in s.signals && s'.signals[g] == s.signals[g]
    requires forall g | g in s.signals && s.signals[g].owner != c :: g in s'.signals
    requires forall g | g in s'.signals && s'.signals[g].owner == c ::
               (g in s.signals && s.signals[g].owner == c) || g >= s.nextId
    ensures Epochs(s')
  {
    NotInWait(s, c);
    forall d | d in s'.waits ensures d in s'.coros && InWait(d, s'.coros[d], s'.waits[d], s'.signals) {
      OthersWaitOn(d, s.coros[d], s.waits[d], s.signals, s'.signals);
    }
  }

  /** Nothing about signals, epochs or statuses changes. */
  lemma SameSignalsKeepEpochs(s: State, s': State, c: Id)
    requires Owned(s.coros, s.signals) && Epochs(s) && Owned(s'.coros, s'.signals)
    requires Updates(s, s', c) && s'.waits == s.waits && s'.signals == s.signals
    requires s'.coros[c].epoch == s.coros[c].epoch && s'.coros[c].status == s.coros[c].status
    requires s'.coros[c].blocking == s.coros[c].blocking
    ensures Epochs(s')
  {
    forall d | d in s'.waits ensures d in s'.coros && InWait(d, s'.coros[d], s'.waits[d], s'.signals) {
      assert InWait(d, s.coros[d], s.waits[d], s.signals);
    }
  }

  // ----- operations of the running coroutine -----

  lemma LinkSignal(coros: map<Id, Coro>, signals: map<Id, Signal>, c: Id, g: Id, epoch: int, coro: Coro)
    requires Owned(coros, signals) && c in coros && g !in signals && coro.signals == coros[c].signals + {g}
    ensures Owned(coros[c := coro], signals[g := Signal(c, epoch)])
  {
  }

  lemma MakeKeepsLinks(s: State, s': State, c: Id)
    requires Links(s) && c in s.coros && s' == MakeSignal(s, c).0
    ensures Links(s')
  {
    LinkSignal(s.coros, s.signals, c, s.nextId, s.coros[c].epoch - 1, s'.coros[c]);
    SameMonitors(s.coros, s.monitors, c, s'.coros[c]);
  }

  lemma MakeKeepsInv(s: State, c: Id)
    requires Inv(s) && Runs(s, c)
    ensures Inv(MakeSignal(s, c).0)
  {
    var s' := MakeSignal(s, c).0;
    MakeKeepsLinks(s, s', c);
    UpdateKeepsCounted(s, s', c);
    UpdateKeepsLists(s, s', c);
    OwnSignalsKeepEpochs(s, s', c);
  }

  lemma YieldKeepsInv(s: State, c: Id)
    requires Inv(s) && Runs(s, c)
    ensures Inv(Suspend(s, c))
  {
    var s' := Suspend(s, c);
    SameSignals(s.coros, s.signals, c, s'.coros[c]);
    SameMonitors(s.coros, s.monitors, c, s'.coros[c]);
    UpdateKeepsCounted(s, s', c);
    RequeueKeepsLists(s, s', c);
    OwnSignalsKeepEpochs(s, s', c);
  }

  lemma MarkKeepsOwned(s: State, c: Id, gs: seq<Id>, epoch: int)
    requires Owned(s.coros, s.signals)
    ensures Owned(s.coros, Mark(s, c, gs, epoch)) && Mark(s, c, gs, epoch).Keys == s.signals.Keys
  {
  }

  /** The wait that `bio_wait_for_signals` starts. */
  function NewWait(s: State, c: Id, gs: seq<Id>, all: bool): Wait {
    var n, named := CountOwn(s, c, gs), NamedOwn(s, c, gs);
    Wait(named, all, if n >= |named| then n - |named| else 0)
  }

  lemma StartsWait(s: State, s': State, c: Id, gs: seq<Id>, all: bool)
    requires Owned(s.coros, s.signals) && Epochs(s) && Runs(s, c) && MustWait(s, c, gs, all)
    requires s' == WaitForSignals(s, c, gs, all)
    ensures c in s'.coros && s'.coros[c].status.Waiting? && InWait(c, s'.coros[c], NewWait(s, c, gs, all), s'.signals)
  {
    CountOwnAtLeastNamed(s, c, gs);
    var w := NewWait(s, c, gs, all);
    assert LiveNamed(w, s'.signals) == w.named;
  }

  lemma WaitFrame(s: State, c: Id, gs: seq<Id>, all: bool)
    requires c in s.coros
    ensures var s', wait := WaitForSignals(s, c, gs, all), MustWait(s, c, gs, all);
      && c in s'.coros
      && var coro := s'.coros[c];
         && s'.coros == s.coros[c := coro] && s'.signals == Mark(s, c, gs, s.coros[c].epoch + 1)
         && coro.signals == s.coros[c].signals && coro.monitors == s.coros[c].monitors
         && coro.daemon == s.coros[c].daemon && coro.epoch == s.coros[c].epoch + 1
         && coro.status == (if wait then Waiting else s.coros[c].status)
         && s'.running == (if wait then None else s.running)
         && (!wait ==> coro.blocking == s.coros[c].blocking)
         && s'.waits == (if wait then s.waits[c := NewWait(s, c, gs, all)] else s.waits)
         && s'.monitors == s.monitors && s'.nextId == s.nextId
         && s'.current == s.current && s'.index == s.index && s'.next == s.next
         && s'.numCoros == s.numCoros && s'.numDaemons == s.numDaemons
         && s'.madeReady == s.madeReady && s'.ran == s.ran
  {
  }

  /** Marking touches epochs of the caller's own signals only. */
  lemma MarkFrame(s: State, c: Id, gs: seq<Id>, epoch: int)
    ensures var marked := Mark(s, c, gs, epoch);
      && (forall g :: g in marked <==> g in s.signals)
      && (forall g | g in s.signals :: marked[g].owner == s.signals[g].owner)
      && (forall g | g in s.signals && s.signals[g].owner != c :: marked[g] == s.signals[g])
      && (forall g | g in s.signals && s.signals[g].owner == c ::
            marked[g].epoch == if g in gs then epoch else s.signals[g].epoch)
  {
  }

  lemma ParkKeepsEpochs(s: State, s': State, c: Id, gs: seq<Id>, all: bool)
    requires Owned(s.coros, s.signals) && Epochs(s) && Runs(s, c) && MustWait(s, c, gs, all)
    requires Owned(s'.coros, s'.signals) && Updates(s, s', c) && s'.coros[c].epoch == s.coros[c].epoch + 1
    requires s'.signals == Mark(s, c, gs, s.coros[c].epoch + 1)
    requires s'.waits == s.waits[c := NewWait(s, c, gs, all)]
    requires InWait(c, s'.coros[c], NewWait(s, c, gs, all), s'.signals)
    ensures Epochs(s')
  {
    MarkFrame(s, c, gs, s.coros[c].epoch + 1);
    NotInWait(s, c);
    forall d | d in s.waits ensures d in s'.coros && InWait(d, s'.coros[d], s.waits[d], s'.signals) {
      OthersWaitOn(d, s.coros[d], s.waits[d], s.signals, s'.signals);
    }
  }

  lemma WaitKeepsEpochs(s: State, s': State, c: Id, gs: seq<Id>, all: bool)
    requires Links(s) && Epochs(s) && Runs(s, c) && s' == WaitForSignals(s, c, gs, all)
    requires Owned(s'.coros, s'.signals)
    ensures Epochs(s')
  {
    WaitFrame(s, c, gs, all);
    if MustWait(s, c, gs, all) {
      StartsWait(s, s', c, gs, all);
      ParkKeepsEpochs(s, s', c, gs, all);
    } else {
      MarkFrame(s, c, gs, s.coros[c].epoch + 1);
      OwnSignalsKeepEpochs(s, s', c);
    }
  }

  lemma WaitKeepsLinks(s: State, s': State, c: Id, gs: seq<Id>, all: bool)
    requires Links(s) && c in s.coros && s' == WaitForSignals(s, c, gs, all)
    ensures Links(s')
  {
    WaitFrame(s, c, gs, all);
    MarkKeepsOwned(s, c, gs, s.coros[c].epoch + 1);
    SameSignals(s.coros, s'.signals, c, s'.coros[c]);
    SameMonitors(s.coros, s.monitors, c, s'.coros[c]);
    assert forall g | g in NewWait(s, c, gs, all).named :: g in s.signals;
  }

  lemma WaitKeepsInv(s: State, c: Id, gs: seq<Id>, all: bool)
    requires Inv(s) && Runs(s, c)
    ensures Inv(WaitForSignals(s, c, gs, all))
  {
    var s' := WaitForSignals(s, c, gs, all);
    WaitKeepsLinks(s, s', c, gs, all);
    WaitKeepsEpochs(s, s', c, gs, all);
    WaitFrame(s, c, gs, all);
    UpdateKeepsCounted(s, s', c);
    if MustWait(s, c, gs, all) { ParkKeepsLists(s, s', c); } else { UpdateKeepsLists(s, s', c); }
  }

  lemma CountNewDaemon(coros: map<Id, Coro>, c: Id, coro: Coro)
    requires c in coros && !coros[c].daemon && coro.daemon
    ensures |coros[c := coro]| == |coros| && |Daemons(coros[c := coro])| == |Daemons(coros)| + 1
  {
    assert coros[c := coro].Keys == coros.Keys;
    assert Daemons(coros[c := coro]) == Daemons(coros) + {c};
  }

  lemma DaemonizeKeepsInv(s: State, c: Id)
    requires Inv(s) && Runs(s, c)
    ensures Inv(Daemonize(s, c))
  {
    if !s.coros[c].daemon {
      var s' := Daemonize(s, c);
      SameSignals(s.coros, s.signals, c, s'.coros[c]);
      SameMonitors(s.coros, s.monitors, c, s'.coros[c]);
      CountNewDaemon(s.coros, c, s'.coros[c]);
      UpdateKeepsLists(s, s', c);
      SameSignalsKeepEpochs(s, s', c);
    }
  }

  // ----- monitors -----

  lemma {:induction false} RemoveFromList(q: seq<Id>, m: Id)
    requires NoDup(q)
    ensures NoDup(Remove(q, m)) && forall x :: x in Remove(q, m) <==> x in q && x != m
  {
    if q != [] {
      assert q == [q[0]] + q[1..];
      if q[0] != m {
        RemoveFromList(q[1..], m);
        assert q[0] !in Remove(q[1..], m);
      }
    }
  }

  lemma LinkMonitor(coros: map<Id, Coro>, monitors: map<Id, Monitor>, t: Id, m: Id, g: Id, coro: Coro)
    requires Attached(coros, monitors) && t in coros && m !in monitors
    requires coro.monitors == coros[t].monitors + [m]
    ensures Attached(coros[t := coro], monitors[m := Monitor(t, g)])
  {
    NoDupAppend(coros[t].monitors, m);
  }

  lemma UnlinkMonitor(coros: map<Id, Coro>, monitors: map<Id, Monitor>, m: Id, coro: Coro)
    requires Attached(coros, monitors) && m in monitors
    requires coro.monitors == Remove(coros[monitors[m].target].monitors, m)
    ensures Attached(coros[monitors[m].target := coro], monitors - {m})
  {
    var t := monitors[m].target;
    RemoveFromList(coros[t].monitors, m);
    assert forall x | x in coro.monitors :: x in coros[t].monitors && x != m;
  }

  /** Updating only the monitor list of a coroutine keeps everything that is not about monitors. */
  lemma MonitorListUpdate(s: State, s': State, t: Id, ms: seq<Id>)
    requires Inv(s) && t in s.coros
    requires s' == s.(coros := s.coros[t := s.coros[t].(monitors := ms)], monitors := s'.monitors, nextId := s'.nextId)
    requires Attached(s'.coros, s'.monitors) && s.nextId <= s'.nextId && forall m | m in s'.monitors :: m < s'.nextId
    ensures Inv(s')
  {
    SameSignals(s.coros, s.signals, t, s'.coros[t]);
    UpdateKeepsCounted(s, s', t);
    UpdateKeepsLists(s, s', t);
    SameSignalsKeepEpochs(s, s', t);
  }

  lemma MonitorKeepsInv(s: State, t: Id, g: Id)
    requires Inv(s)
    ensures Inv(MonitorCoro(s, t, g).0)
  {
    if t in s.coros && g in s.signals && s.signals[g].owner != t {
      var s' := MonitorCoro(s, t, g).0;
      LinkMonitor(s.coros, s.monitors, t, s.nextId, g, s'.coros[t]);
      MonitorListUpdate(s, s', t, s'.coros[t].monitors);
    } else {
      RaiseKeepsInv(s, g);
    }
  }

  lemma UnmonitorKeepsInv(s: State, m: Id)
    requires Inv(s)
    ensures Inv(Unmonitor(s, m))
  {
    if m in s.monitors {
      var s', t := Unmonitor(s, m), s.monitors[m].target;
      UnlinkMonitor(s.coros, s.monitors, m, s'.coros[t]);
      MonitorListUpdate(s, s', t, s'.coros[t].monitors);
    }
  }

  // ----- the event loop -----

  lemma SpawnKeepsLinks(s: State, s': State, daemon: bool)
    requires Links(s) && s' == Spawn(s, daemon).0
    ensures Links(s') && s.nextId !in s.coros
  {
  }

  lemma SpawnKeepsLists(s: State, s': State, daemon: bool)
    requires Lists(s) && s.nextId !in s.coros && s' == Spawn(s, daemon).0
    ensures Lists(s')
  {
    NoDupAppend(Queue(s), s.nextId);
    assert Queue(s') == Queue(s) + [s.nextId];
  }

  lemma SpawnKeepsCounted(s: State, s': State, daemon: bool)
    requires Counted(s) && s.nextId !in s.coros && s' == Spawn(s, daemon).0
    ensures Counted(s')
  {
    CountNewCoro(s.coros, s.nextId, Coro(Ready, daemon, 0, 0, {}, []));
  }

  lemma CountNewCoro(coros: map<Id, Coro>, c: Id, coro: Coro)
    requires c !in coros
    ensures |coros[c := coro]| == |coros| + 1
    ensures |Daemons(coros[c := coro])| == |Daemons(coros)| + (if coro.daemon then 1 else 0)
  {
    var coros' := coros[c := coro];
    assert coros'.Keys == coros.Keys + {c};
    if coro.daemon {
      assert Daemons(coros') == Daemons(coros) + {c};
    } else {
      assert Daemons(coros') == Daemons(coros);
    }
  }

  lemma SpawnKeepsEpochs(s: State, s': State, daemon: bool)
    requires Owned(s.coros, s.signals) && Epochs(s) && s.nextId !in s.coros
    requires s' == Spawn(s, daemon).0 && Owned(s'.coros, s'.signals)
    ensures Epochs(s')
  {
    forall d | d in s'.waits ensures d in s'.coros && InWait(d, s'.coros[d], s'.waits[d], s'.signals) {
      assert InWait(d, s.coros[d], s.waits[d], s.signals);
    }
  }

  lemma SpawnKeepsInv(s: State, daemon: bool)
    requires Inv(s)
    ensures Inv(Spawn(s, daemon).0)
  {
    var s' := Spawn(s, daemon).0;
    SpawnKeepsLinks(s, s', daemon);
    SpawnKeepsLists(s, s', daemon);
    SpawnKeepsCounted(s, s', daemon);
    SpawnKeepsEpochs(s, s', daemon);
  }

  lemma ResumeKeepsLists(s: State, s': State, c: Id)
    requires Lists(s) && s.running.None? && s.index < |s.current| && c == s.current[s.index] && c in s.coros
    requires s' == Resume(s)
    ensures Lists(s') && Runs(s', c)
  {
    ResumeKeepsReady(s, s', c);
    ResumeKeepsRunning(s, s', c);
  }

  lemma ResumeKeepsReady(s: State, s': State, c: Id)
    requires ReadyExact(s) && InOrder(s) && s.index < |s.current| && c == s.current[s.index] && c in s.coros
    requires s' == Resume(s)
    ensures ReadyExact(s') && InOrder(s')
  {
    PopQueue(s, s', c);
    PopIsExact(Queue(s), Queue(s'), c);
  }

  lemma ResumeKeepsRunning(s: State, s': State, c: Id)
    requires RunningExact(s) && s.running.None? && s.index < |s.current| && c == s.current[s.index] && c in s.coros
    requires s' == Resume(s)
    ensures RunningExact(s') && Runs(s', c)
  {
  }

  lemma PopQueue(s: State, s': State, c: Id)
    requires s.index < |s.current| && c == s.current[s.index]
    requires s'.current == s.current && s'.next == s.next && s'.index == s.index + 1
    ensures Queue(s) == [c] + Queue(s')
  {
    assert s.current[s.index..] == [c] + s.current[s.index + 1..];
  }

  lemma PopIsExact(q: seq<Id>, q': seq<Id>, c: Id)
    requires NoDup(q) && q == [c] + q'
    ensures NoDup(q') && c !in q' && forall d :: d in q' <==> d in q && d != c
  {
    assert q[0] == c;
    assert forall i | 0 <= i < |q'| :: q'[i] == q[i + 1] && q[i + 1] != q[0];
  }

  lemma ResumeKeepsEpochs(s: State, s': State, c: Id)
    requires Owned(s.coros, s.signals) && Epochs(s) && Owned(s'.coros, s'.signals)
    requires s.index < |s.current| && c == s.current[s.index] && c in s.coros && s' == Resume(s)
    ensures Epochs(s')
  {
    forall d | d in s'.waits ensures d in s'.coros && InWait(d, s'.coros[d], s'.waits[d], s'.signals) {
      assert d != c && InWait(d, s.coros[d], s.waits[d], s.signals);
    }
  }

  lemma ResumeKeepsInv(s: State)
    requires Inv(s) && s.running.None? && s.index < |s.current| && s.current[s.index] in s.coros
    ensures Inv(Resume(s)) && Runs(Resume(s), s.current[s.index])
  {
    var s', c := Resume(s), s.current[s.index];
    SameSignals(s.coros, s.signals, c, s'.coros[c]);
    SameMonitors(s.coros, s.monitors, c, s'.coros[c]);
    UpdateKeepsCounted(s, s', c);
    ResumeKeepsLists(s, s', c);
    ResumeKeepsEpochs(s, s', c);
  }

  lemma NextRoundKeepsInv(s: State)
    requires Inv(s) && s.index == |s.current|
    ensures Inv(NextRound(s))
  {
    var s' := NextRound(s);
    assert Queue(s') == Queue(s);
    NextRoundKeepsLists(s, s');
  }

  lemma NextRoundKeepsLists(s: State, s': State)
    requires Lists(s) && s' == NextRound(s) && Queue(s') == Queue(s)
    ensures Lists(s')
  {
  }

  // ----- death -----

  lemma UnlinkAllSignals(coros: map<Id, Coro>, signals: map<Id, Signal>, c: Id, coro: Coro)
    requires Owned(coros, signals) && c in coros && coro.signals == {}
    ensures Owned(coros[c := coro], signals - coros[c].signals)
  {
    var coros', signals' := coros[c := coro], signals - coros[c].signals;
    forall g | g in signals' ensures signals'[g].owner in coros' && g in coros'[signals'[g].owner].signals {
      assert signals[g].owner != c;
    }
    forall d, g | d in coros' && g in coros'[d].signals ensures g in signals' && signals'[g].owner == d {
      assert signals[g].owner == d;
    }
  }

  lemma DropSignalsKeepsInv(s: State, c: Id)
    requires Inv(s) && Runs(s, c)
    ensures var s' := DropSignals(s, c);
      && Inv(s') && Runs(s', c) && s'.coros[c].signals == {} && s'.coros[c].monitors == s.coros[c].monitors
  {
    var s' := DropSignals(s, c);
    UnlinkAllSignals(s.coros, s.signals, c, s'.coros[c]);
    SameMonitors(s.coros, s.monitors, c, s'.coros[c]);
    UpdateKeepsCounted(s, s', c);
    UpdateKeepsLists(s, s', c);
    OwnSignalsKeepEpochs(s, s', c);
  }

  /** One turn of the monitor loop of `bio_loop`. */
  lemma FireOne(s: State, c: Id, m: Id)
    requires Inv(s) && Runs(s, c) && s.coros[c].signals == {}
    requires s.coros[c].monitors != [] && m == s.coros[c].monitors[0]
    ensures m in s.monitors
    ensures var s1 := RaiseSignal(s, s.monitors[m].signal).0;
      && m in s1.monitors
      && var s' := Unmonitor(s1, m);
         Inv(s') && Runs(s', c) && s'.coros[c].signals == {} && s'.coros[c].monitors == s.coros[c].monitors[1..]
  {
    assert m in s.coros[c].monitors;
    var g := s.monitors[m].signal;
    var s1 := RaiseSignal(s, g).0;
    RaiseKeepsInv(s, g);
    RaiseKeepsRunner(s, s1, g, c);
    UnmonitorKeepsInv(s1, m);
  }

  /** The running coroutine goes on running whatever is raised. */
  lemma RaiseKeepsRunner(s: State, s': State, g: Id, c: Id)
    requires Owned(s.coros, s.signals) && Runs(s, c) && s' == RaiseSignal(s, g).0
    ensures Runs(s', c) && s'.monitors == s.monitors && s'.coros[c].monitors == s.coros[c].monitors
    ensures s'.coros[c].signals <= s.coros[c].signals
  {
    if g in s.signals { RaiseFrame(s, g); }
  }

  /** Firing the monitors of the running coroutine leaves it running, without monitors. */
  lemma {:induction false} FireMonitorsKeepsInv(s: State, c: Id, ms: seq<Id>)
    requires Inv(s) && Runs(s, c) && s.coros[c].signals == {} && s.coros[c].monitors == ms
    ensures var s' := FireMonitors(s, c, ms);
      Inv(s') && Runs(s', c) && s'.coros[c].signals == {} && s'.coros[c].monitors == []
    decreases |ms|
  {
    if ms != [] {
      FireOne(s, c, ms[0]);
      FireMonitorsKeepsInv(Unmonitor(RaiseSignal(s, s.monitors[ms[0]].signal).0, ms[0]), c, ms[1..]);
    }
  }

  lemma BuryKeepsLists(s: State, s': State, c: Id)
    requires Lists(s) && Counted(s) && Runs(s, c) && s' == Bury(s, c)
    ensures Lists(s') && Counted(s')
  {
    CountDeadCoro(s.coros, c);
    assert Queue(s') == Queue(s);
  }

  lemma CountDeadCoro(coros: map<Id, Coro>, c: Id)
    requires c in coros
    ensures |coros - {c}| == |coros| - 1
    ensures |Daemons(coros - {c})| == |Daemons(coros)| - (if coros[c].daemon then 1 else 0)
  {
    assert (coros - {c}).Keys == coros.Keys - {c};
    assert Daemons(coros - {c}) == Daemons(coros) - {c};
  }

  lemma BuryKeepsInv(s: State, c: Id)
    requires Inv(s) && Runs(s, c) && s.coros[c].signals == {} && s.coros[c].monitors == []
    ensures Inv(Bury(s, c))
  {
    var s' := Bury(s, c);
    BuryKeepsLists(s, s', c);
    BuryKeepsLinks(s, s', c);
    BuryKeepsEpochs(s, s', c);
  }

  lemma BuryKeepsLinks(s: State, s': State, c: Id)
    requires Links(s) && c in s.coros && s.coros[c].signals == {} && s.coros[c].monitors == [] && s' == Bury(s, c)
    ensures Links(s')
  {
  }

  lemma BuryKeepsEpochs(s: State, s': State, c: Id)
    requires Owned(s.coros, s.signals) && Epochs(s) && Runs(s, c) && s.coros[c].signals == {}
    requires s' == Bury(s, c) && Owned(s'.coros, s'.signals)
    ensures Epochs(s')
  {
    NotInWait(s, c);
    forall d | d in s'.waits ensures d in s'.coros && InWait(d, s'.coros[d], s'.waits[d], s'.signals) {
      assert InWait(d, s.coros[d], s.waits[d], s.signals);
    }
  }

  lemma DieKeepsInv(s: State, c: Id)
    requires Inv(s) && Runs(s, c)
    ensures Inv(Die(s, c)) && c !in Die(s, c).coros && Die(s, c).running.None?
  {
    DropSignalsKeepsInv(s, c);
    FireMonitorsKeepsInv(DropSignals(s, c), c, s.coros[c].monitors);
    BuryKeepsInv(FireMonitors(DropSignals(s, c), c, s.coros[c].monitors), c);
  }

  // ----- runs -----

  lemma TerminateKeepsInv(s: State)
    requires Inv(s)
    ensures Inv(s.(terminating := true))
  {
    assert Queue(s.(terminating := true)) == Queue(s);
  }

  lemma RunnerRuns(s: State)
    requires RunningExact(s) && s.running.Some?
    ensures Runs(s, s.running.value)
  {
  }

  lemma ExitIsDie(s: State)
    requires Enabled(s, EExit)
    ensures Apply(s, EExit) == Die(s, s.running.value)
  {
  }

  lemma RunnerDies(s: State)
    requires Inv(s) && s.running.Some? && s.running.value in s.coros
    ensures Inv(Die(s, s.running.value))
  {
    RunnerRuns(s);
    DieKeepsInv(s, s.running.value);
  }

  lemma ExitKeepsInv(s: State)
    requires Inv(s) && Enabled(s, EExit)
    ensures Inv(Apply(s, EExit))
  {
    ExitIsDie(s);
    RunnerDies(s);
  }

  lemma WaitStepKeepsInv(s: State, gs: seq<Id>, all: bool)
    requires Inv(s) && Enabled(s, EWait(gs, all))
    ensures Inv(Apply(s, EWait(gs, all)))
  {
    RunnerRuns(s);
    WaitKeepsInv(s, s.running.value, gs, all);
  }

  lemma MakeIsMakeSignal(s: State)
    requires Enabled(s, EMake)
    ensures Apply(s, EMake) == MakeSignal(s, s.running.value).0
  {
  }

  lemma RunnerMakes(s: State)
    requires Inv(s) && s.running.Some? && s.running.value in s.coros
    ensures Inv(MakeSignal(s, s.running.value).0)
  {
    RunnerRuns(s);
    MakeKeepsInv(s, s.running.value);
  }

  lemma MakeStepKeepsInv(s: State)
    requires Inv(s) && Enabled(s, EMake)
    ensures Inv(Apply(s, EMake))
  {
    MakeIsMakeSignal(s);
    RunnerMakes(s);
  }

  lemma DaemonizeStepKeepsInv(s: State)
    requires Inv(s) && Enabled(s, EDaemonize)
    ensures Inv(Apply(s, EDaemonize))
  {
    RunnerRuns(s);
    DaemonizeKeepsInv(s, s.running.value);
  }

  lemma YieldStepKeepsInv(s: State)
    requires Inv(s) && Enabled(s, EYield)
    ensures Inv(Apply(s, EYield))
  {
    RunnerRuns(s);
    YieldKeepsInv(s, s.running.value);
  }

  lemma CoroutineStepKeepsInv(s: State, e: Event)
    requires Inv(s) && Enabled(s, e) && ByCoroutine(e)
    ensures Inv(Apply(s, e))
  {
    if e.EExit? { ExitKeepsInv(s); }
    else if e.EWait? { WaitStepKeepsInv(s, e.gs, e.all); }
    else if e.EMake? { MakeStepKeepsInv(s); }
    else if e.EDaemonize? { DaemonizeStepKeepsInv(s); }
    else { YieldStepKeepsInv(s); }
  }

  lemma LoopStepKeepsInv(s: State, e: Event)
    requires Inv(s) && Enabled(s, e) && ByLoop(e)
    ensures Inv(Apply(s, e))
  {
    if e.EResume? { ResumeKeepsInv(s); }
    else if e.ENextRound? { NextRoundKeepsInv(s); }
    else { TerminateKeepsInv(s); }
  }

  lemma StepKeepsInv(s: State, e: Event)
    requires Inv(s) && Enabled(s, e)
    ensures Inv(Apply(s, e))
  {
    if ByCoroutine(e) { CoroutineStepKeepsInv(s, e); }
    else if ByLoop(e) { LoopStepKeepsInv(s, e); }
    else if e.ERaise? { RaiseKeepsInv(s, e.g); }
    else if e.EMonitor? { MonitorKeepsInv(s, e.t, e.g); }
    else if e.EUnmonitor? { UnmonitorKeepsInv(s, e.m); }
    else { SpawnKeepsInv(s, e.daemon); }
  }

  lemma {:induction false} RunKeepsInv(events: seq<Event>, states: seq<State>, n: nat)
    requires IsRun(events, states) && n <= |events|
    ensures Inv(states[n])
  {
    if n > 0 {
      RunKeepsInv(events, states, n - 1);
      TraceStep(events, states, n - 1);
      StepKeepsInv(states[n - 1], events[n - 1]);
    }
  }

  // ----- waiting is exact -----

  /** At every point of every run, a suspended coroutine's live signals of its own epoch are exactly
      the unraised ones among those it named, `num_blocking_signals` is their number (wait-all,
      plus one for every repeated name) or one (wait-any), and it is suspended exactly as long as
      its wait is blocked: wait-all until the last of its signals is raised, wait-any until the
      first.  Signals from other waits do not enter into it. */
  lemma WaitsAreExact(events: seq<Event>, states: seq<State>, n: nat)
    requires IsRun(events, states) && n <= |events|
    ensures var s := states[n];
      && (forall c | c in s.coros && s.coros[c].status.Waiting? ::
            && c in s.waits
            && (set g | g in s.signals && s.signals[g].owner == c && s.signals[g].epoch == s.coros[c].epoch)
                 == LiveNamed(s.waits[c], s.signals)
            && s.coros[c].blocking == Outstanding(s.waits[c], s.signals))
      && (forall c | c in s.waits :: c in s.coros && (s.coros[c].status.Waiting? <==> Blocked(s.waits[c], s.signals)))
  {
    RunKeepsInv(events, states, n);
  }

  ghost predicate DistinctOwn(s: State, c: Id, gs: seq<Id>) {
    forall i, j | 0 <= i < j < |gs| && Own(s, c, gs[i]) :: gs[i] != gs[j]
  }

  lemma {:induction false} SurplusIffRepeated(s: State, c: Id, gs: seq<Id>)
    ensures |NamedOwn(s, c, gs)| == CountOwn(s, c, gs) <==> DistinctOwn(s, c, gs)
  {
    if gs != [] {
      var n := |gs| - 1;
      var rest, g := gs[..n], gs[n];
      SurplusIffRepeated(s, c, rest);
      CountOwnAtLeastNamed(s, c, rest);
      NamedOwnLast(s, c, rest, g);
      assert gs == rest + [g];
      if Own(s, c, g) && g in rest {
        var i :| 0 <= i < n && rest[i] == g;
        assert gs[i] == gs[n];
      } else if DistinctOwn(s, c, rest) {
        forall i, j | 0 <= i < j < |gs| && Own(s, c, gs[i]) ensures gs[i] != gs[j] {
          assert gs[i] == rest[i] && gs[i] in rest;
          if j < n { assert gs[j] == rest[j]; }
        }
      } else {
        var i, j :| 0 <= i < j < n && Own(s, c, rest[i]) && rest[i] == rest[j];
        assert gs[i] == rest[i] && gs[j] == rest[j];
      }
    }
  }

  lemma NamedOwnLast(s: State, c: Id, rest: seq<Id>, g: Id)
    ensures var named := NamedOwn(s, c, rest);
      NamedOwn(s, c, rest + [g]) == if Own(s, c, g) then named + {g} else named
    ensures g in NamedOwn(s, c, rest) <==> Own(s, c, g) && g in rest
  {
    assert forall x :: x in rest + [g] <==> x in rest || x == g;
  }

  /** A step can only raise named signals of a pending wait; it ends the wait by resuming. */
  lemma StepKeepsWait(s: State, e: Event, c: Id)
    requires Lists(s) && Enabled(s, e) && c in s.waits && c in s.coros && s.coros[c].status.Waiting?
    ensures var s' := Apply(s, e); c in s'.waits && s'.waits[c] == s.waits[c]
  {
    match e
    case EExit => DieKeepsWaits(s, s.running.value);
    case EResume =>
      assert Queue(s)[0] == s.current[s.index];
      assert s.current[s.index] in Queue(s);
    case _ =>
  }

  lemma {:induction false} FireMonitorsKeepsWaits(s: State, c: Id, ms: seq<Id>)
    ensures FireMonitors(s, c, ms).waits == s.waits && FireMonitors(s, c, ms).nextId == s.nextId
    decreases |ms|
  {
    if ms != [] {
      var s1 := if ms[0] in s.monitors then RaiseSignal(s, s.monitors[ms[0]].signal).0 else s;
      FireMonitorsKeepsWaits(Unmonitor(s1, ms[0]), c, ms[1..]);
    }
  }

  lemma DieKeepsWaits(s: State, c: Id)
    requires c in s.coros
    ensures Die(s, c).waits == s.waits && Die(s, c).nextId == s.nextId
  {
    FireMonitorsKeepsCoros(DropSignals(s, c), c, s.coros[c].monitors);
    FireMonitorsKeepsWaits(DropSignals(s, c), c, s.coros[c].monitors);
  }

  /** A wait-all ends when its last signal is raised only if no live signal was named twice: with a
      repeated name the coroutine stays suspended through every continuation of the run. */
  lemma {:induction false} RepeatedNameNeverWakes(events: seq<Event>, states: seq<State>, m: nat, n: nat, c: Id)
    requires IsRun(events, states) && m <= n <= |events|
    requires c in states[m].waits && states[m].waits[c].all && states[m].waits[c].surplus > 0
    ensures c in states[n].coros && states[n].coros[c].status.Waiting?
    ensures c in states[n].waits && states[n].waits[c] == states[m].waits[c]
    decreases n - m
  {
    RunKeepsInv(events, states, m);
    assert InWait(c, states[m].coros[c], states[m].waits[c], states[m].signals);
    if m < n {
      TraceStep(events, states, m);
      StepKeepsWait(states[m], events[m], c);
      RepeatedNameNeverWakes(events, states, m + 1, n, c);
    }
  }

  /** A wait for all of the given signals that suspends is such a wait exactly if one of its own live
      signals is given twice. */
  lemma StaysAsleepIffRepeated(s: State, c: Id, gs: seq<Id>)
    requires Runs(s, c) && CountOwn(s, c, gs) > 0
    ensures var s' := WaitForSignals(s, c, gs, true);
      c in s'.waits && s'.waits[c].all && (s'.waits[c].surplus > 0 <==> !DistinctOwn(s, c, gs))
  {
    SurplusIffRepeated(s, c, gs);
    CountOwnAtLeastNamed(s, c, gs);
    WaitFrame(s, c, gs, true);
  }

  /** The first coroutine, running with one signal of its own. */
  const ALONE := START.(
    coros := map[1 := Coro(Running, false, 0, 0, {2}, [])], signals := map[2 := Signal(1, -1)], nextId := 3,
    current := [1], index := 1, running := Some(1), numCoros := 1, madeReady := [1], ran := [1])

  lemma ReachAlone()
    ensures var s := Apply(Apply(START, ESpawn(false)), ENextRound);
      Enabled(s, EResume) && Enabled(Apply(s, EResume), EMake) && Apply(Apply(s, EResume), EMake) == ALONE
  {
    var s := Apply(Apply(START, ESpawn(false)), ENextRound);
    assert s.current == [1];
    var r := Apply(s, EResume);
    assert r == ALONE.(coros := map[1 := Coro(Running, false, 0, 0, {}, [])], signals := map[], nextId := 2);
    assert {} + {2} == {2};
  }

  /** A run that ends in `s`. */
  ghost predicate Reachable(s: State) {
    exists events, states :: IsRun(events, states) && states[|events|] == s
  }

  lemma Reach(s: State, e: Event)
    requires Reachable(s) && Enabled(s, e)
    ensures Reachable(Apply(s, e))
  {
    var events, states :| IsRun(events, states) && states[|events|] == s;
    OneStepMore(events, states, e);
    var events', states' := events + [e], states + [Apply(s, e)];
    assert IsRun(events', states') && states'[|events'|] == Apply(s, e);
  }

  lemma AloneIsReachable()
    ensures Reachable(ALONE)
  {
    var none: seq<Event> := [];
    assert IsRun(none, [START]) && [START][|none|] == START;
    Reach(START, ESpawn(false));
    var s := Apply(START, ESpawn(false));
    Reach(s, ENextRound);
    ReachAlone();
    Reach(Apply(s, ENextRound), EResume);
    Reach(Apply(Apply(s, ENextRound), EResume), EMake);
  }

  /** It happens: spawned, resumed, the first coroutine makes a signal and waits for it twice. */
  lemma RepeatedNameHappens()
    ensures Enabled(ALONE, EWait([2, 2], true))
    ensures var s := Apply(ALONE, EWait([2, 2], true));
      Reachable(s) && 1 in s.waits && s.waits[1].all && s.waits[1].surplus > 0
  {
    var gs := [2, 2];
    assert Own(ALONE, 1, gs[0]) && gs[0] == gs[1];
    assert gs[..1] == [2];
    assert CountOwn(ALONE, 1, gs) > 0;
    StaysAsleepIffRepeated(ALONE, 1, gs);
    AloneIsReachable();
    Reach(ALONE, EWait([2, 2], true));
  }

  // ----- scheduling order -----

  lemma {:induction false} FireMonitorsGrowsReady(s: State, c: Id, ms: seq<Id>)
    ensures s.madeReady <= FireMonitors(s, c, ms).madeReady
    decreases |ms|
  {
    if ms != [] {
      var s1 := if ms[0] in s.monitors then RaiseSignal(s, s.monitors[ms[0]].signal).0 else s;
      FireMonitorsGrowsReady(Unmonitor(s1, ms[0]), c, ms[1..]);
    }
  }

  lemma StepGrowsReady(s: State, e: Event)
    requires Enabled(s, e)
    ensures s.madeReady <= Apply(s, e).madeReady
  {
    if e.EExit? {
      var c := s.running.value;
      FireMonitorsKeepsCoros(DropSignals(s, c), c, s.coros[c].monitors);
      FireMonitorsGrowsReady(DropSignals(s, c), c, s.coros[c].monitors);
    }
  }

  lemma {:induction false} RunGrowsReady(events: seq<Event>, states: seq<State>, m: nat, n: nat)
    requires IsTrace(events, states) && m <= n <= |events|
    ensures states[m].madeReady <= states[n].madeReady
    decreases n - m
  {
    if m < n {
      TraceStep(events, states, m);
      StepGrowsReady(states[m], events[m]);
      RunGrowsReady(events, states, m + 1, n);
    }
  }

  lemma RunKeepsOrder(events: seq<Event>, states: seq<State>, n: nat)
    requires IsRun(events, states) && n <= |events|
    ensures InOrder(states[n])
  {
    RunKeepsInv(events, states, n);
  }

  /** Coroutines run in exactly the order in which they became ready, over the whole run: a
      coroutine with `k` others queued before it is resumed after exactly `k` other resumptions,
      whatever happens meanwhile. */
  lemma ServedInTurn(events: seq<Event>, states: seq<State>, m: nat, n: nat, k: nat)
    requires IsRun(events, states) && m <= n <= |events| && k < |Queue(states[m])|
    requires |states[n].ran| > |states[m].ran| + k
    ensures states[n].ran[|states[m].ran| + k] == Queue(states[m])[k]
  {
    RunKeepsOrder(events, states, m);
    RunKeepsOrder(events, states, n);
    RunGrowsReady(events, states, m, n);
    var i := |states[m].ran| + k;
    assert states[m].madeReady[i] == Queue(states[m])[k];
    assert states[n].madeReady[i] == states[n].ran[i];
    assert states[n].madeReady[i] == states[m].madeReady[i];
  }

  /** The ready lists at every point of every run, and what `bio_loop` returning means: only daemons
      are left, or nothing at all when terminating. */
  lemma ListsAreExact(events: seq<Event>, states: seq<State>, n: nat)
    requires IsRun(events, states) && n <= |events|
    ensures var s := states[n];
      && NoDup(Queue(s))
      && (forall c :: c in Queue(s) <==> c in s.coros && s.coros[c].status.Ready?)
      && s.madeReady == s.ran + Queue(s)
      && s.numCoros == |s.coros| && s.numDaemons == |Daemons(s.coros)|
      && (ShouldStop(s) <==> if s.terminating then s.coros == map[] else forall c | c in s.coros :: s.coros[c].daemon)
  {
    RunKeepsInv(events, states, n);
    var s := states[n];
    var rest := s.coros.Keys - Daemons(s.coros);
    assert Daemons(s.coros) <= s.coros.Keys;
    assert |rest| == |s.coros| - |Daemons(s.coros)|;
    if forall c | c in s.coros :: s.coros[c].daemon { assert rest == {}; }
    if s.numCoros == s.numDaemons {
      assert rest == {};
      forall c | c in s.coros ensures s.coros[c].daemon { assert c !in rest; }
    }
    if s.coros != map[] { assert s.coros.Keys != {}; }
  }

  // ----- death, monitors and joining -----

  ghost function SignalsOf(monitors: map<Id, Monitor>, ms: seq<Id>): set<Id> {
    set m | m in ms && m in monitors :: monitors[m].signal
  }

  lemma SignalOfMember(monitors: map<Id, Monitor>, ms: seq<Id>, m: Id)
    requires m in ms && m in monitors
    ensures monitors[m].signal in SignalsOf(monitors, ms)
  {
  }

  ghost function Elems(ms: seq<Id>): set<Id> {
    set m | m in ms
  }

  lemma SignalsOfCons(monitors: map<Id, Monitor>, m: Id, rest: seq<Id>)
    requires m in monitors && m !in rest
    ensures SignalsOf(monitors, [m] + rest) == {monitors[m].signal} + SignalsOf(monitors - {m}, rest)
    ensures monitors - Elems([m] + rest) == (monitors - {m}) - Elems(rest)
  {
    var all, part := [m] + rest, monitors - {m};
    forall g | g in SignalsOf(monitors, all) ensures g in {monitors[m].signal} + SignalsOf(part, rest) {
      var x :| x in all && x in monitors && monitors[x].signal == g;
      if x != m { assert x in rest && x in part && part[x].signal == g; }
    }
    forall g | g in SignalsOf(part, rest) ensures g in SignalsOf(monitors, all) {
      var x :| x in rest && x in part && part[x].signal == g;
      assert x in all && monitors[x].signal == g;
    }
    assert m in all;
  }

  /** One turn of the monitor loop closes the monitor and its signal. */
  lemma FireOneRaises(s: State, s': State, c: Id, m: Id)
    requires Links(s) && c in s.coros && m in s.coros[c].monitors && m in s.monitors
    requires s' == Unmonitor(RaiseSignal(s, s.monitors[m].signal).0, m)
    ensures s'.signals.Keys == s.signals.Keys - {s.monitors[m].signal} && s'.monitors == s.monitors - {m}
  {
    RaiseKeepsLinks(s, s.monitors[m].signal);
  }

  lemma RaisedInTwoParts(s: State, s': State, ms: seq<Id>)
    requires NoDup(ms) && ms != [] && ms[0] in s.monitors
    requires s'.signals.Keys == s.signals.Keys - {s.monitors[ms[0]].signal} && s'.monitors == s.monitors - {ms[0]}
    ensures s'.signals.Keys - SignalsOf(s'.monitors, ms[1..]) == s.signals.Keys - SignalsOf(s.monitors, ms)
    ensures s'.monitors - Elems(ms[1..]) == s.monitors - Elems(ms)
  {
    HeadNotInTail(ms);
    SignalsOfCons(s.monitors, ms[0], ms[1..]);
    assert ms == [ms[0]] + ms[1..];
    MinusTwice(s.signals.Keys, s.monitors[ms[0]].signal, SignalsOf(s'.monitors, ms[1..]));
  }

  lemma MinusTwice(all: set<Id>, x: Id, rest: set<Id>)
    ensures all - {x} - rest == all - ({x} + rest)
  {
  }

  lemma HeadNotInTail(q: seq<Id>)
    requires NoDup(q) && q != []
    ensures q[0] !in q[1..]
  {
  }

  lemma {:induction false} FireMonitorsRaises(s: State, c: Id, ms: seq<Id>)
    requires Inv(s) && Runs(s, c) && s.coros[c].signals == {} && s.coros[c].monitors == ms
    ensures var s' := FireMonitors(s, c, ms);
      && s'.signals.Keys == s.signals.Keys - SignalsOf(s.monitors, ms)
      && s'.monitors == s.monitors - Elems(ms)
    decreases |ms|
  {
    if ms != [] {
      var m, rest := ms[0], ms[1..];
      FireOne(s, c, m);
      var s' := Unmonitor(RaiseSignal(s, s.monitors[m].signal).0, m);
      FireOneRaises(s, s', c, m);
      assert FireMonitors(s, c, ms) == FireMonitors(s', c, rest);
      FireMonitorsRaises(s', c, rest);
      RaisedInTwoParts(s, s', ms);
    }
  }

  lemma DeathCloses(s: State, c: Id)
    requires Inv(s) && Runs(s, c)
    ensures var s' := Die(s, c);
      && s'.coros.Keys == s.coros.Keys - {c}
      && s'.signals.Keys == s.signals.Keys - s.coros[c].signals - SignalsOf(s.monitors, s.coros[c].monitors)
      && s'.monitors == s.monitors - Elems(s.coros[c].monitors)
  {
    var s1 := DropSignals(s, c);
    DropSignalsKeepsInv(s, c);
    FireMonitorsRaises(s1, c, s.coros[c].monitors);
    FireMonitorsKeepsCoros(s1, c, s.coros[c].monitors);
  }

  /** A coroutine's death closes its own signals, the signals of the monitors still attached to it,
      and those monitors; it closes nothing else and leaves nothing of the coroutine behind. */
  lemma DeathReleases(s: State, c: Id)
    requires Inv(s) && Runs(s, c)
    ensures var s' := Die(s, c);
      && s'.coros.Keys == s.coros.Keys - {c}
      && s'.signals.Keys == s.signals.Keys - s.coros[c].signals - SignalsOf(s.monitors, s.coros[c].monitors)
      && s'.monitors == s.monitors - Elems(s.coros[c].monitors)
      && (forall g | g in s'.signals :: s'.signals[g].owner != c)
      && (forall m | m in s'.monitors :: s'.monitors[m].target != c)
  {
    DeathCloses(s, c);
    DieKeepsInv(s, c);
    LeavesNothing(Die(s, c), c);
  }

  lemma LeavesNothing(s: State, c: Id)
    requires Links(s) && c !in s.coros
    ensures forall g | g in s.signals :: s.signals[g].owner != c
    ensures forall m | m in s.monitors :: s.monitors[m].target != c
  {
  }

  /** Monitor `m` will raise `g` when `t` dies, unless `g` has been raised already. */
  ghost predicate WillRaise(s: State, t: Id, m: Id, g: Id) {
    && g < s.nextId && m < s.nextId
    && (g in s.signals ==> t in s.coros && m in s.monitors && s.monitors[m] == Monitor(t, g))
  }

  /** Apart from a death, no step removes a coroutine, revives a signal or drops a monitor that is
      not being discarded by name. */
  ghost predicate Frame(s: State, s': State, dropped: set<Id>) {
    && s.nextId <= s'.nextId
    && (forall c | c in s.coros :: c in s'.coros)
    && (forall g | g in s'.signals && g < s.nextId :: g in s.signals)
    && (forall m | m in s.monitors && m !in dropped :: m in s'.monitors && s'.monitors[m] == s.monitors[m])
  }

  /** The monitor that an event discards by name. */
  ghost function Dropped(e: Event): set<Id> {
    if e.EUnmonitor? then {e.m} else {}
  }

  lemma StepFrame(s: State, e: Event)
    requires Links(s) && Enabled(s, e) && !e.EExit?
    ensures Frame(s, Apply(s, e), Dropped(e))
  {
    if e.ERaise? { RaiseOnlyCloses(s, e.g); }
    else if e.EMonitor? { MonitorFrame(s, e.t, e.g); }
    else if e.EUnmonitor? { UnmonitorFrame(s, e.m); }
    else if e.EWait? { WaitOnlyMarks(s, s.running.value, e.gs, e.all); }
    else if e.EMake? { MakeFrame(s, s.running.value); }
    else if e.ESpawn? { SpawnFrame(s, e.daemon); }
    else if e.EYield? { SuspendFrame(s, s.running.value); }
    else if e.EResume? { ResumeFrame(s); }
  }

  lemma RaiseOnlyCloses(s: State, g: Id)
    requires Links(s)
    ensures Frame(s, RaiseSignal(s, g).0, {})
  {
    RaiseKeepsLinks(s, g);
  }

  lemma SpawnFrame(s: State, daemon: bool)
    ensures Frame(s, Spawn(s, daemon).0, {})
  {
  }

  lemma SuspendFrame(s: State, c: Id)
    requires c in s.coros
    ensures Frame(s, Suspend(s, c), {})
  {
  }

  lemma ResumeFrame(s: State)
    requires s.index < |s.current| && s.current[s.index] in s.coros
    ensures Frame(s, Resume(s), {})
  {
  }

  lemma MakeFrame(s: State, c: Id)
    requires c in s.coros
    ensures Frame(s, MakeSignal(s, c).0, {})
  {
  }

  lemma MonitorFrame(s: State, t: Id, g: Id)
    requires Links(s)
    ensures Frame(s, MonitorCoro(s, t, g).0, {})
  {
    if !(t in s.coros && g in s.signals && s.signals[g].owner != t) {
      RaiseOnlyCloses(s, g);
    }
  }

  lemma UnmonitorFrame(s: State, m: Id)
    requires Links(s)
    ensures Frame(s, Unmonitor(s, m), {m})
  {
  }

  lemma WaitOnlyMarks(s: State, c: Id, gs: seq<Id>, all: bool)
    requires c in s.coros
    ensures Frame(s, WaitForSignals(s, c, gs, all), {})
  {
    WaitFrame(s, c, gs, all);
    MarkFrame(s, c, gs, s.coros[c].epoch + 1);
  }

  lemma DeathKeepsWillRaise(s: State, c: Id, t: Id, m: Id, g: Id)
    requires Inv(s) && Runs(s, c) && WillRaise(s, t, m, g)
    ensures WillRaise(Die(s, c), t, m, g)
  {
    DeathReleases(s, c);
    DieKeepsWaits(s, c);
    var s' := Die(s, c);
    if g in s.signals && m in s.coros[c].monitors {
      SignalOfMember(s.monitors, s.coros[c].monitors, m);
    }
  }

  lemma StepKeepsWillRaise(s: State, e: Event, t: Id, m: Id, g: Id)
    requires Inv(s) && Enabled(s, e) && WillRaise(s, t, m, g) && e != EUnmonitor(m)
    ensures WillRaise(Apply(s, e), t, m, g)
  {
    if e.EExit? { DeathKeepsWillRaise(s, s.running.value, t, m, g); } else { StepFrame(s, e); }
  }

  lemma {:induction false} RunKeepsWillRaise(
      events: seq<Event>, states: seq<State>, i: nat, n: nat, t: Id, m: Id, g: Id)
    requires IsRun(events, states) && i <= n <= |events| && WillRaise(states[i], t, m, g)
    requires forall j | i <= j < n :: events[j] != EUnmonitor(m)
    ensures WillRaise(states[n], t, m, g)
    decreases n - i
  {
    if i < n {
      RunKeepsInv(events, states, i);
      TraceStep(events, states, i);
      StepKeepsWillRaise(states[i], events[i], t, m, g);
      RunKeepsWillRaise(events, states, i + 1, n, t, m, g);
    }
  }

  /** The three steps of `bio_join(t)` by coroutine `k`. */
  ghost function Join(s: State, k: Id, t: Id): (r: (State, Id, Id))
    requires k in s.coros
    ensures k in r.0.coros
  {
    var (s1, g) := MakeSignal(s, k);
    var (s2, m) := MonitorCoro(s1, t, g);
    (WaitForSignals(s2, k, [g], true), m, g)
  }

  /** Joining oneself or a dead coroutine returns at once; joining any other one suspends the caller
      on a signal that the target's death will raise. */
  lemma JoinStarts(s: State, k: Id, t: Id)
    requires Inv(s) && Runs(s, k)
    ensures var (s', m, g) := Join(s, k, t);
      && WillRaise(s', t, m, g)
      && (t !in s.coros || t == k ==> Runs(s', k) && s'.madeReady == s.madeReady)
      && (t in s.coros && t != k ==>
            s'.coros[k].status.Waiting? && k in s'.waits && s'.waits[k] == Wait({g}, true, 0) && g in s'.signals)
  {
    var (s1, g) := MakeSignal(s, k);
    MakeKeepsInv(s, k);
    MonitorKeepsInv(s1, t, g);
    MonitorsOrRaises(s1, k, t, g);
    var (s2, m) := MonitorCoro(s1, t, g);
    JoinWaits(s2, k, t, m, g);
  }

  /** Monitoring with a fresh signal of one's own either attaches it to another live coroutine or
      raises it, and does not interrupt the caller. */
  lemma MonitorsOrRaises(s: State, k: Id, t: Id, g: Id)
    requires Links(s) && Runs(s, k) && Own(s, k, g)
    ensures var (s', m) := MonitorCoro(s, t, g);
      && Runs(s', k) && s'.madeReady == s.madeReady && WillRaise(s', t, m, g)
      && (Own(s', k, g) <==> t in s.coros && t != k) && (g in s'.signals <==> t in s.coros && t != k)
  {
  }

  lemma JoinWaits(s: State, k: Id, t: Id, m: Id, g: Id)
    requires Inv(s) && Runs(s, k) && g != INVALID && WillRaise(s, t, m, g)
    ensures var s' := WaitForSignals(s, k, [g], true);
      && k in s'.coros && WillRaise(s', t, m, g)
      && (if Own(s, k, g) then
            s'.coros[k].status.Waiting? && k in s'.waits && s'.waits[k] == Wait({g}, true, 0) && g in s'.signals
          else Runs(s', k) && s'.madeReady == s.madeReady)
  {
    WaitFrame(s, k, [g], true);
    MarkFrame(s, k, [g], s.coros[k].epoch + 1);
    assert [g][..0] == [];
    assert CountOwn(s, k, [g]) == if Own(s, k, g) then 1 else 0;
    if Own(s, k, g) { assert NamedOwn(s, k, [g]) == {g}; }
  }

  /** No coroutine is ever left suspended in `bio_join` on a dead target, as long as nobody discards
      the monitor, whose handle `bio_join` keeps to itself. */
  lemma NobodyJoinsTheDead(events: seq<Event>, states: seq<State>, i: nat, n: nat, k: Id, t: Id, m: Id, g: Id)
    requires IsRun(events, states) && i <= n <= |events| && WillRaise(states[i], t, m, g)
    requires forall j | i <= j < n :: events[j] != EUnmonitor(m)
    requires k in states[n].waits && states[n].waits[k] == Wait({g}, true, 0)
    ensures k in states[n].coros
    ensures states[n].coros[k].status.Waiting? ==> t in states[n].coros
    ensures t !in states[n].coros ==> k in Queue(states[n])
  {
    RunKeepsWillRaise(events, states, i, n, t, m, g);
    RunKeepsInv(events, states, n);
    var s := states[n];
    assert InWait(k, s.coros[k], s.waits[k], s.signals);
    if s.coros[k].status.Waiting? { assert LiveNamed(s.waits[k], s.signals) != {}; }
  }
}
