/** The scheduler of src/scheduler.c as it is written: one object whose fields the operations update. */
module Scheduler {
  import opened Coroutines
  import opened SchedulerProofs
  import opened Wrappers
  import SchedulerLaws

  class EventLoop {
    var coros: map<Id, Coro>
    var signals: map<Id, Signal>
    var monitors: map<Id, Monitor>
    var nextId: Id
    var current: seq<Id>
    var index: nat
    var next: seq<Id>
    var running: Option<Id>
    var numCoros: int
    var numDaemons: int
    var terminating: bool
    ghost var waits: map<Id, Wait>
    ghost var madeReady: seq<Id>
    ghost var ran: seq<Id>

    ghost function Model(): State
      reads this
    {
      State(coros, signals, monitors, nextId, current, index, next, running, numCoros, numDaemons, terminating,
            waits, madeReady, ran)
    }

    /** The scheduler's invariant. */
    ghost predicate Valid()
      reads this
    {
      Inv(Model())
    }

    /** No dangling pointers: all that the single operations rely on. */
    ghost predicate Safe()
      reads this
    {
      Linked(Model())
    }

    constructor ()
      ensures Model() == START && Valid()
    {
      coros, signals, monitors, nextId := map[], map[], map[], 1;
      current, index, next, running := [], 0, [], None;
      numCoros, numDaemons, terminating := 0, 0, false;
      waits, madeReady, ran := map[], [], [];
      StartHolds();
    }

    method PushReady(c: Id)
      modifies this`next, this`madeReady
      ensures Model() == Coroutines.PushReady(old(Model()), c)
    {
      next, madeReady := next + [c], madeReady + [c];
    }

    /** `bio_make_signal`: the invalid handle outside coroutines. */
    method MakeSignal() returns (g: Id)
      requires Safe()
      modifies this
      ensures old(running).Some? ==> (Model(), g) == Coroutines.MakeSignal(old(Model()), old(running).value)
      ensures old(running).None? ==> Model() == old(Model()) && g == INVALID
    {
      if running.None? { return INVALID; }
      var c := running.value;
      g := nextId;
      nextId := nextId + 1;
      signals := signals[g := Signal(c, coros[c].epoch - 1)];
      coros := coros[c := coros[c].(signals := coros[c].signals + {g})];
    }

    /** `bio_raise_signal` */
    method RaiseSignal(g: Id) returns (woken: bool)
      requires Safe()
      modifies this
      ensures (Model(), woken) == Coroutines.RaiseSignal(old(Model()), g)
    {
      woken := false;
      if g in signals {
        var signal := signals[g];
        signals := signals - {g};
        var owner := coros[signal.owner].(signals := coros[signal.owner].signals - {g});
        if owner.status.Waiting? && signal.epoch == owner.epoch {
          owner := owner.(blocking := owner.blocking - 1);
          if owner.blocking == 0 {
            PushReady(signal.owner);
            owner := owner.(status := Ready);
            woken := true;
          }
        }
        coros := coros[signal.owner := owner];
      }
    }

    /** `bio_check_signal` */
    method CheckSignal(g: Id) returns (raised: bool)
      ensures raised <==> g !in Model().signals
    {
      raised := g !in signals;
    }

    /** `bio_wait_for_signals` */
    method WaitForSignals(gs: seq<Id>, all: bool)
      requires Safe()
      modifies this
      ensures old(running).Some? ==> Model() == Coroutines.WaitForSignals(old(Model()), old(running).value, gs, all)
      ensures old(running).None? ==> Model() == old(Model())
      ensures old(running.Some? && Runs(Model(), running.value)) ==>
        (running.None? <==> SchedulerLaws.Suspending(old(Model()), old(running).value, gs, all))
    {
      if running.None? { return; }
      var c := running.value;
      ghost var before := Model();
      if Runs(before, c) { SchedulerLaws.SuspendsIff(before, c, gs, all); }
      var epoch := coros[c].epoch + 1;
      var n, raised := MarkSignals(c, gs, epoch);
      coros := coros[c := coros[c].(epoch := epoch)];
      if n > 0 && (all || !raised) { Block(c, if all then n else 1, NewWait(before, c, gs, all)); }
    }

    /** Its single pass over the array. */
    method MarkSignals(c: Id, gs: seq<Id>, epoch: int) returns (n: nat, raised: bool)
      modifies this`signals
      ensures signals == Mark(old(Model()), c, gs, epoch)
      ensures n == CountOwn(old(Model()), c, gs) && raised == SomeRaised(old(Model()), gs)
    {
      ghost var before := Model();
      n, raised := 0, false;
      MarkNone(before, c, gs[..0], epoch);
      for i := 0 to |gs|
        invariant signals == Mark(before, c, gs[..i], epoch)
        invariant n == CountOwn(before, c, gs[..i])
        invariant raised == SomeRaised(before, gs[..i])
      {
        var g := gs[i];
        MarkOneMore(before, c, gs[..i], g, epoch);
        assert gs[..i + 1] == gs[..i] + [g];
        if g in signals {
          if signals[g].owner == c {
            signals := signals[g := signals[g].(epoch := epoch)];
            n := n + 1;
          }
        } else {
          raised := raised || g != INVALID;
        }
      }
      assert gs[..|gs|] == gs;
    }

    /** The end of `bio_wait_for_signals`: set `num_blocking_signals` and yield. */
    method Block(c: Id, blocking: nat, ghost wait: Wait)
      requires running == Some(c) && c in coros
      modifies this
      ensures var s := old(Model());
        Model() == Coroutines.Suspend(
          s.(coros := s.coros[c := s.coros[c].(blocking := blocking)], waits := s.waits[c := wait]), c)
    {
      coros := coros[c := coros[c].(blocking := blocking)];
      waits := waits[c := wait];
      Suspend();
    }

    /** `mco_yield` and what `bio_loop` does right after it; by itself, `bio_yield`. */
    method Suspend()
      requires running.Some? && running.value in coros
      modifies this
      ensures Model() == Coroutines.Suspend(old(Model()), old(running).value)
      ensures current == old(current) && index == old(index) && running.None?
      ensures next == old(next) + if old(coros[running.value].blocking) > 0 then [] else [old(running).value]
    {
      var c := running.value;
      running := None;
      var waiting := coros[c].blocking > 0;
      coros := coros[c := coros[c].(status := if waiting then Waiting else Ready)];
      if !waiting { PushReady(c); }
    }

    /** `bio_monitor` */
    method Monitor(t: Id, g: Id) returns (m: Id)
      requires Safe()
      modifies this
      ensures (Model(), m) == MonitorCoro(old(Model()), t, g)
    {
      if t in coros && g in signals && signals[g].owner != t {
        m := nextId;
        nextId := nextId + 1;
        monitors := monitors[m := Coroutines.Monitor(t, g)];
        coros := coros[t := coros[t].(monitors := coros[t].monitors + [m])];
      } else {
        var _ := RaiseSignal(g);
        m := INVALID;
      }
    }

    /** `bio_unmonitor` */
    method Unmonitor(m: Id)
      requires Safe()
      modifies this
      ensures Model() == Coroutines.Unmonitor(old(Model()), m)
    {
      if m in monitors {
        var t := monitors[m].target;
        monitors := monitors - {m};
        coros := coros[t := coros[t].(monitors := Remove(coros[t].monitors, m))];
      }
    }

    /** `bio_spawn_ex` */
    method Spawn(daemon: bool) returns (c: Id)
      modifies this
      ensures (Model(), c) == Coroutines.Spawn(old(Model()), daemon)
      ensures c in coros && coros[c].daemon == daemon && coros[c].status.Ready? && next == old(next) + [c]
      ensures numDaemons == old(numDaemons) + if daemon then 1 else 0
    {
      c := nextId;
      nextId := nextId + 1;
      coros := coros[c := Coro(Ready, daemon, 0, 0, {}, [])];
      PushReady(c);
      numCoros := numCoros + 1;
      if daemon { numDaemons := numDaemons + 1; }
    }

    /** The part of `bio_wait_for_exit` that turns the caller into a daemon. */
    method Daemonize()
      requires running.Some? && running.value in coros
      modifies this
      ensures Model() == Coroutines.Daemonize(old(Model()), old(running).value)
      ensures running == old(running) && running.value in coros && coros[running.value].daemon
    {
      var c := running.value;
      if !coros[c].daemon {
        coros := coros[c := coros[c].(daemon := true)];
        numDaemons := numDaemons + 1;
      }
    }

    /** Close the pending signals of a dead coroutine, one by one. */
    method CloseSignals(c: Id)
      requires c in coros
      modifies this`signals, this`coros
      ensures Model() == DropSignals(old(Model()), c)
    {
      var all := coros[c].signals;
      var pending := all;
      while pending != {}
        invariant pending <= all && coros == old(coros)
        invariant signals == old(signals) - (all - pending)
        decreases |pending|
      {
        var g :| g in pending;
        signals := signals - {g};
        pending := pending - {g};
      }
      coros := coros[c := coros[c].(signals := {})];
    }

    /** The cleanup branch of `bio_loop`: close the signals, fire the monitors, free the coroutine. */
    method Die()
      requires Valid() && running.Some?
      modifies this
      ensures Model() == Coroutines.Die(old(Model()), old(running).value)
    {
      var c := running.value;
      ghost var before := Model();
      RunningRuns(before);
      DropSignalsKeepsInv(before, c);
      CloseSignals(c);
      RaiseMonitors(c);
      Free(c);
    }

    /** The coroutine itself goes away. */
    method Free(c: Id)
      requires c in coros
      modifies this
      ensures Model() == Bury(old(Model()), c)
    {
      numCoros := numCoros - 1;
      if coros[c].daemon { numDaemons := numDaemons - 1; }
      coros := coros - {c};
      running := None;
    }

    /** Raise and free the monitors of a dead coroutine, front to back. */
    method RaiseMonitors(c: Id)
      requires Dying(Model(), c)
      modifies this
      ensures Model() == FireMonitors(old(Model()), c, old(coros[c].monitors))
      ensures c in coros
    {
      var ms := coros[c].monitors;
      var i := 0;
      while i < |ms|
        invariant 0 <= i <= |ms| && Dying(Model(), c) && coros[c].monitors == ms[i..]
        invariant FireMonitors(Model(), c, ms[i..]) == FireMonitors(old(Model()), c, ms)
      {
        assert ms[i..][0] == ms[i] && ms[i..][1..] == ms[i + 1..];
        RaiseMonitor(c, ms[i]);
        i := i + 1;
      }
    }

    method RaiseMonitor(c: Id, m: Id)
      requires Dying(Model(), c) && coros[c].monitors != [] && m == coros[c].monitors[0]
      modifies this
      ensures Dying(Model(), c) && coros[c].monitors == old(coros[c].monitors)[1..]
      ensures FireMonitors(Model(), c, coros[c].monitors) == FireMonitors(old(Model()), c, old(coros[c].monitors))
    {
      ghost var before := Model();
      FireOne(before, c, m);
      RaiseLinked(before, before.monitors[m].signal);
      var _ := RaiseSignal(monitors[m].signal);
      Unmonitor(m);
    }

    /** One operation of a coroutine body, or of the program while no coroutine runs. */
    method Perform(e: Event)
      requires Valid() && Enabled(Model(), e) && !ByLoop(e)
      modifies this
      ensures Model() == Apply(old(Model()), e)
    {
      InvIsLinked(Model());
      match e
      case ERaise(g) => var _ := RaiseSignal(g);
      case EMonitor(t, g) => var _ := Monitor(t, g);
      case EUnmonitor(m) => Unmonitor(m);
      case ESpawn(daemon) => var _ := Spawn(daemon);
      case EMake => var _ := MakeSignal();
      case EWait(gs, all) => WaitForSignals(gs, all);
      case EDaemonize => Daemonize();
      case EYield => Suspend();
      case EExit => Die();
    }

    /** `bio_loop` resumes the next coroutine of the round. */
    method Resume()
      requires index < |current| && current[index] in coros
      modifies this
      ensures Model() == Coroutines.Resume(old(Model()))
    {
      var c := current[index];
      index := index + 1;
      coros := coros[c := coros[c].(status := Running, blocking := 0)];
      running := Some(c);
      waits, ran := waits - {c}, ran + [c];
    }

    /** `mco_resume`: the running coroutine performs operations until it suspends or dies. */
    method RunBody(script: seq<Event>, from: nat, ghost trace: Path, ghost first: State)
      returns (pos: nat, ghost trace': Path)
      requires running.Some? && from < |script| && Leads(trace, first, Model())
      requires !Polled(trace) && Follows(trace, script, from)
      modifies this
      ensures from < pos <= |script| && Leads(trace', first, Model())
      ensures !Polled(trace') && Follows(trace', script, pos)
      ensures running.Some? ==> pos == |script|
    {
      pos, trace' := from, trace;
      while running.Some? && pos < |script|
        invariant from <= pos <= |script| && (running.None? ==> from < pos)
        invariant Leads(trace', first, Model())
        invariant !Polled(trace') && Follows(trace', script, pos)
        decreases |script| - pos
      {
        trace' := Advance(script, pos, trace', first);
        pos := pos + 1;
      }
    }

    method Record(e: Event, ghost trace: Path, ghost first: State) returns (ghost trace': Path)
      requires !ByLoop(e) && Leads(trace, first, Model()) && InTurn(trace, e)
      requires ByCoroutine(e) ==> running.Some?
      modifies this
      ensures trace' == Then(trace, e, Model()) && Leads(trace', first, Model())
      ensures old(running).None? ==> running.None? && current == old(current) && index == old(index)
    {
      ghost var before := Model();
      LeadsKeepsInv(trace, first, before);
      if !ByCoroutine(e) { OutsideKeepsRound(before, e); }
      Perform(e);
      trace' := Then(trace, e, Model());
    }

    /** The next operation of the script; those that are the loop's own are passed over. */
    method Advance(script: seq<Event>, pos: nat, ghost trace: Path, ghost first: State) returns (ghost trace': Path)
      requires pos < |script| && Leads(trace, first, Model()) && Follows(trace, script, pos)
      requires !ByLoop(script[pos]) ==> InTurn(trace, script[pos]) && (ByCoroutine(script[pos]) ==> running.Some?)
      modifies this
      ensures Leads(trace', first, Model()) && Follows(trace', script, pos + 1)
      ensures if ByLoop(script[pos]) then trace' == trace && Model() == old(Model())
              else trace' == Then(trace, script[pos], Model())
      ensures old(running).None? ==> running.None? && current == old(current) && index == old(index)
    {
      if ByLoop(script[pos]) {
        SkipFollows(trace, script, pos);
        trace' := trace;
      } else {
        TakeFollows(trace, script, pos);
        trace' := Record(script[pos], trace, first);
      }
    }

    /** What happens outside coroutines between two rounds: signals raised by timers, I/O and async jobs. */
    method Poll(script: seq<Event>, from: nat, ghost trace: Path, ghost first: State)
      returns (pos: nat, ghost trace': Path)
      requires from <= |script| && Leads(trace, first, Model()) && Follows(trace, script, from)
      requires GoesOn(trace)
      modifies this
      ensures from <= pos <= |script| && (pos < |script| ==> ByCoroutine(script[pos]))
      ensures Leads(trace', first, Model()) && Follows(trace', script, pos)
      ensures GoesOn(trace')
      ensures pos == from ==> Model() == old(Model())
    {
      pos, trace' := from, trace;
      while pos < |script| && !ByCoroutine(script[pos])
        invariant from <= pos <= |script|
        invariant Leads(trace', first, Model()) && Follows(trace', script, pos)
        invariant GoesOn(trace')
        invariant pos == from ==> Model() == old(Model())
        decreases |script| - pos
      {
        trace' := Advance(script, pos, trace', first);
        pos := pos + 1;
      }
    }

    /** One turn of the round: the next coroutine is resumed and runs until it suspends or dies. */
    method Turn(script: seq<Event>, from: nat, ghost trace: Path, ghost first: State)
      returns (pos: nat, ghost trace': Path)
      requires running.None? && index < |current| && from < |script| && Leads(trace, first, Model())
      requires Follows(trace, script, from)
      modifies this
      ensures from < pos <= |script| && Leads(trace', first, Model())
      ensures !Polled(trace') && Follows(trace', script, pos)
      ensures running.Some? ==> pos == |script|
    {
      CanResume(trace, first, Model());
      trace' := StartTurn(trace, first);
      OwnFollows(trace, script, from, EResume, Model());
      pos, trace' := RunBody(script, from, trace', first);
    }

    method StartTurn(ghost trace: Path, ghost first: State) returns (ghost trace': Path)
      requires Enabled(Model(), EResume) && Leads(trace, first, Model())
      modifies this
      ensures Model() == Apply(old(Model()), EResume)
      ensures trace' == Then(trace, EResume, Model()) && Leads(trace', first, Model())
    {
      Resume();
      trace' := Then(trace, EResume, Model());
    }

    /** The lists are swapped at the end of a round. */
    method SwapLists()
      modifies this`next, this`current, this`index
      ensures Model() == NextRound(old(Model()))
    {
      next, current, index := [], next, 0;
    }

    method EndRound(ghost trace: Path, ghost first: State) returns (ghost trace': Path)
      requires Leads(trace, first, Model()) && GoesOn(trace)
      modifies this
      ensures Model() == NextRound(old(Model()))
      ensures trace' == Then(trace, ENextRound, Model()) && Leads(trace', first, Model())
    {
      SwapLists();
      trace' := Then(trace, ENextRound, Model());
    }

    /** `bio_loop`.  Coroutine bodies and the outside world are a script: whenever a coroutine runs it
        performs the next operations of the script until it suspends or dies, and between rounds the
        outside performs the next ones.  The loop returns when its exit test holds; it is left
        unfinished only where the script ends, or where a coroutine would have to go on and none is
        ready.  `trace` records the steps taken and what they led to. */
    method Loop(script: seq<Event>) returns (stopped: bool, pos: nat, ghost trace: Path)
      requires Valid() && running.None?
      modifies this
      ensures Valid() && Leads(trace, old(Model()), Model())
      ensures Follows(trace, script, pos)
      ensures stopped ==> running.None? && index == |current| && !Polled(trace) && ShouldStop(Model())
      ensures !stopped && pos < |script| ==>
        Queue(Model()) == [] && ByCoroutine(script[pos]) && !ShouldStop(Model())
    {
      stopped, pos, trace := false, 0, From(Model());
      ghost var first := Model();
      assert script[..0] == [];
      label rounds:
      while pos < |script|
        invariant running.None? && pos <= |script|
        invariant Leads(trace, first, Model())
        invariant !Polled(trace) && Follows(trace, script, pos)
        decreases |script| - pos, if index < |current| then 0 else 1
      {
        IndexInRound(trace, first, Model());
        var start, pending := pos, index < |current|;
        while index < |current|
          invariant running.None? && start <= pos <= |script| && index <= |current|
          invariant pos == start ==> (pending <==> index < |current|)
          invariant Leads(trace, first, Model())
          invariant !Polled(trace) && Follows(trace, script, pos)
          decreases |script| - pos
        {
          if pos == |script| { break rounds; }
          pos, trace := Turn(script, pos, trace, first);
          if running.Some? { break rounds; }
          IndexInRound(trace, first, Model());
        }
        if (if terminating then numCoros == 0 else numCoros == numDaemons) {
          stopped := true;
          break rounds;
        }
        pos, trace := Poll(script, pos, trace, first);
        OwnFollows(trace, script, pos, ENextRound, NextRound(Model()));
        trace := EndRound(trace, first);
        if pos == start && current == [] { break rounds; }
      }
      LeadsKeepsInv(trace, first, Model());
    }
  }

  /** The steps taken by the loop, from a state in which the invariant holds. */
  type Path = Trace<State, Event>

  /** The last step was made outside coroutines, between two rounds. */
  ghost predicate Polled(trace: Path) {
    trace.Then? && !ByLoop(trace.event) && trace.before.state.running.None?
  }

  /** At the end of a round, and the exit test did not hold when the last turn was over. */
  ghost predicate GoesOn(trace: Path) {
    && trace.state.running.None? && trace.state.index == |trace.state.current|
    && if Polled(trace) then GoesOn(trace.before) else !ShouldStop(trace.state)
  }

  /** Whether the loop lets `e` come next: a running coroutine may do anything, and without one the next
      of the round is resumed; all else waits for the end of the round and its exit test. */
  ghost predicate InTurn(trace: Path, e: Event) {
    e.EResume? || (!ByLoop(e) && trace.state.running.Some?) || (!e.ETerminate? && GoesOn(trace))
  }

  ghost predicate Legal(trace: Path) {
    match trace
    case From(s) => Inv(s)
    case Then(before, e, s) =>
      Legal(before) && Enabled(before.state, e) && s == Apply(before.state, e) && InTurn(before, e)
  }

  /** The events that are not the loop's own. */
  ghost function Scripted(events: seq<Event>): seq<Event> {
    if events == [] then []
    else
      var n := |events| - 1;
      Scripted(events[..n]) + if ByLoop(events[n]) then [] else [events[n]]
  }

  /** What coroutines and the outside did is what the first `pos` events of the script say. */
  ghost predicate Follows(trace: Path, script: seq<Event>, pos: nat) {
    pos <= |script| && Scripted(trace.Events()) == Scripted(script[..pos])
  }

  lemma ScriptedOneMore(events: seq<Event>, e: Event)
    ensures Scripted(events + [e]) == Scripted(events) + if ByLoop(e) then [] else [e]
  {
    assert (events + [e])[..|events|] == events;
  }

  lemma TakeFollows(trace: Path, script: seq<Event>, pos: nat)
    requires Follows(trace, script, pos) && pos < |script| && !ByLoop(script[pos])
    ensures forall s :: Follows(Then(trace, script[pos], s), script, pos + 1)
  {
    ScriptedOneMore(trace.Events(), script[pos]);
    ScriptedOneMore(script[..pos], script[pos]);
    assert script[..pos + 1] == script[..pos] + [script[pos]];
  }

  lemma SkipFollows(trace: Path, script: seq<Event>, pos: nat)
    requires Follows(trace, script, pos) && pos < |script| && ByLoop(script[pos])
    ensures Follows(trace, script, pos + 1)
  {
    ScriptedOneMore(script[..pos], script[pos]);
    assert script[..pos + 1] == script[..pos] + [script[pos]];
  }

  lemma OwnFollows(trace: Path, script: seq<Event>, pos: nat, e: Event, s: State)
    requires Follows(trace, script, pos) && ByLoop(e)
    ensures Follows(Then(trace, e, s), script, pos)
  {
    ScriptedOneMore(trace.Events(), e);
  }

  /** A legal trace is a trace in the sense of module Coroutines, so every lemma about runs applies. */
  lemma {:induction false} LegalIsTrace(trace: Path)
    requires Legal(trace)
    ensures IsTrace(trace.Events(), trace.States()) && trace.States()[0] == trace.First()
    ensures trace.States()[|trace.Events()|] == trace.state
  {
    if trace.Then? {
      LegalIsTrace(trace.before);
      OneStepMore(trace.before.Events(), trace.before.States(), trace.event);
    }
  }

  /** `trace` leads from `first` to `last`. */
  ghost predicate Leads(trace: Path, first: State, last: State) {
    Legal(trace) && trace.First() == first && trace.state == last
  }

  /** The loop keeps the scheduler's invariant. */
  lemma {:induction false} LeadsKeepsInv(trace: Path, first: State, last: State)
    requires Leads(trace, first, last)
    ensures Inv(last)
  {
    if trace.Then? {
      LeadsKeepsInv(trace.before, first, trace.before.state);
      StepKeepsInv(trace.before.state, trace.event);
    }
  }

  /** Coroutine `c` has returned: it still runs, without signals. */
  ghost predicate Dying(s: State, c: Id) {
    Inv(s) && Runs(s, c) && s.coros[c].signals == {}
  }

  lemma CanResume(trace: Path, first: State, s: State)
    requires Leads(trace, first, s) && s.running.None? && s.index < |s.current|
    ensures Enabled(s, EResume) && Apply(s, EResume).running.Some?
  {
    LeadsKeepsInv(trace, first, s);
    NextIsAlive(s);
  }

  lemma IndexInRound(trace: Path, first: State, s: State)
    requires Leads(trace, first, s)
    ensures s.index <= |s.current|
  {
    LeadsKeepsInv(trace, first, s);
  }

  lemma RunningRuns(s: State)
    requires Inv(s) && s.running.Some?
    ensures Runs(s, s.running.value)
  {
  }

  lemma RaiseLinked(s: State, g: Id)
    requires Inv(s)
    ensures Linked(s) && Linked(RaiseSignal(s, g).0)
  {
    RaiseKeepsInv(s, g);
  }

  ghost predicate Linked(s: State) {
    && (forall g | g in s.signals :: s.signals[g].owner in s.coros)
    && (forall m | m in s.monitors :: s.monitors[m].target in s.coros)
    && (s.running.Some? ==> s.running.value in s.coros)
  }

  lemma InvIsLinked(s: State)
    requires Inv(s)
    ensures Linked(s)
  {
  }

  lemma NextIsAlive(s: State)
    requires Inv(s) && s.index < |s.current|
    ensures s.current[s.index] in s.coros
  {
    assert Queue(s)[0] == s.current[s.index];
    assert s.current[s.index] in Queue(s);
  }

  lemma StartHolds()
    ensures Inv(START)
  {
    assert Queue(START) == [] && Daemons(START.coros) == {};
  }

  lemma MarkNone(s: State, c: Id, gs: seq<Id>, epoch: int)
    requires gs == []
    ensures Mark(s, c, gs, epoch) == s.signals
  {
  }

  /** One more entry of the array handled by the marking pass. */
  lemma MarkOneMore(s: State, c: Id, done: seq<Id>, g: Id, epoch: int)
    ensures var all := done + [g];
      && CountOwn(s, c, all) == CountOwn(s, c, done) + (if Own(s, c, g) then 1 else 0)
      && (SomeRaised(s, all) <==> SomeRaised(s, done) || (g !in s.signals && g != INVALID))
      && Mark(s, c, all, epoch) ==
           (var m := Mark(s, c, done, epoch); if Own(s, c, g) then m[g := Signal(c, epoch)] else m)
  {
    var all := done + [g];
    assert all[..|all| - 1] == done;
    if SomeRaised(s, done) {
      var x :| x in done && x !in s.signals && x != INVALID;
      assert x in all;
    }
    if g !in s.signals && g != INVALID { assert g in all; }
  }

  /** Operations performed outside coroutines leave the round alone. */
  lemma OutsideKeepsRound(s: State, e: Event)
    requires Enabled(s, e) && !ByCoroutine(e) && !ByLoop(e)
    ensures var s' := Apply(s, e); s'.current == s.current && s'.index == s.index && s'.running == s.running
  {
  }
}
