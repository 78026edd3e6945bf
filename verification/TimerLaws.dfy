/** What the callers of a timer asked for and what they get: kind, timeout, due times and callbacks in terms
    of the arguments of create and reset, over every run. */
module TimerLaws {
  import opened TimerTask
  import opened Wrappers
  import C = TimerCode
  import R = TimerRefinement
  import Q = TimerQueue
  import Coroutines

  // ----- creation -----

  lemma CreateGives(kind: Kind, timeout: int, now: int, cached: int)
    ensures var s := Create(kind, timeout, now, cached);
      && s.kind == kind && s.timeout == timeout && s.due == now + timeout && s.now == now && s.cached == cached
      && s.open && !s.cancelled && s.phase.NotStarted? && s.calls == [] && s.freed == 0
      && s.askedAt == now && s.asked == now + timeout
  {
  }

  lemma {:induction false} KindStays(actions: seq<Action>, states: seq<State>, n: nat)
    requires IsPath(actions, states) && n < |states|
    ensures states[n].kind == states[0].kind
  {
    if n > 0 {
      KindStays(actions, states, n - 1);
      assert Enabled(states[n - 1], actions[n - 1]) && states[n] == Apply(states[n - 1], actions[n - 1]);
    }
  }

  // ----- requests -----

  /** A reset that finds the timer. */
  predicate Requests(s: State, a: Action) {
    a.Reset? && s.open
  }

  lemma StepRequest(s: State, a: Action)
    requires Enabled(s, a)
    ensures var t := Apply(s, a);
      && t.timeout == (if Requests(s, a) then a.timeout else s.timeout)
      && t.askedAt == (if Requests(s, a) then s.now else s.askedAt)
      && t.asked == (if Requests(s, a) then s.now + a.timeout else s.asked)
  {
  }

  /** The timeout in force is that of the latest reset that found the timer. */
  lemma {:induction false} LatestRequest(actions: seq<Action>, states: seq<State>, i: nat, n: nat)
    requires IsRun(actions, states) && i < n < |states| && Requests(states[i], actions[i])
    requires forall j | i < j < n :: !Requests(states[j], actions[j])
    ensures states[n].timeout == actions[i].timeout
    ensures states[n].askedAt == states[i].now && states[n].asked == states[i].now + actions[i].timeout
    decreases n
  {
    if i + 1 < n { LatestRequest(actions, states, i, n - 1); }
    assert Enabled(states[n - 1], actions[n - 1]) && states[n] == Apply(states[n - 1], actions[n - 1]);
    StepRequest(states[n - 1], actions[n - 1]);
  }

  /** Until there is one, that of the creation. */
  lemma {:induction false} FirstRequest(actions: seq<Action>, states: seq<State>, n: nat,
                                        kind: Kind, timeout: int, now: int, cached: int)
    requires IsPath(actions, states) && n < |states| && states[0] == Create(kind, timeout, now, cached)
    requires forall j | 0 <= j < n :: !Requests(states[j], actions[j])
    ensures states[n].timeout == timeout && states[n].askedAt == now && states[n].asked == now + timeout
  {
    if n > 0 {
      FirstRequest(actions, states, n - 1, kind, timeout, now, cached);
      assert Enabled(states[n - 1], actions[n - 1]) && states[n] == Apply(states[n - 1], actions[n - 1]);
      StepRequest(states[n - 1], actions[n - 1]);
    }
  }

  // ----- due times -----

  /** The steps that set a due time: a reset, and the end of a callback of a timer that repeats. */
  predicate SetsDue(s: State, a: Action) {
    Requests(s, a) || (a.Return? && s.phase.Calling? && s.kind.Interval?)
  }

  function DueSet(s: State, a: Action): int
    requires SetsDue(s, a)
  {
    if a.Reset? then s.now + a.timeout else s.phase.start + s.timeout
  }

  lemma StepDue(s: State, a: Action)
    requires Enabled(s, a)
    ensures Apply(s, a).due == if SetsDue(s, a) then DueSet(s, a) else s.due
  {
  }

  /** The due time is what the latest of these steps made it: the reset's clock, or the start of the callback,
      plus the timeout. */
  lemma {:induction false} LatestDue(actions: seq<Action>, states: seq<State>, i: nat, n: nat)
    requires IsRun(actions, states) && i < n < |states| && SetsDue(states[i], actions[i])
    requires forall j | i < j < n :: !SetsDue(states[j], actions[j])
    ensures states[n].due == DueSet(states[i], actions[i])
    decreases n
  {
    if i + 1 < n { LatestDue(actions, states, i, n - 1); }
    assert Enabled(states[n - 1], actions[n - 1]) && states[n] == Apply(states[n - 1], actions[n - 1]);
    StepDue(states[n - 1], actions[n - 1]);
  }

  lemma {:induction false} FirstDue(actions: seq<Action>, states: seq<State>, n: nat,
                                    kind: Kind, timeout: int, now: int, cached: int)
    requires IsPath(actions, states) && n < |states| && states[0] == Create(kind, timeout, now, cached)
    requires forall j | 0 <= j < n :: !SetsDue(states[j], actions[j])
    ensures states[n].due == now + timeout
  {
    if n > 0 {
      FirstDue(actions, states, n - 1, kind, timeout, now, cached);
      assert Enabled(states[n - 1], actions[n - 1]) && states[n] == Apply(states[n - 1], actions[n - 1]);
      StepDue(states[n - 1], actions[n - 1]);
    }
  }

  // ----- callbacks -----

  /** A callback starts exactly when the coroutine, woken, finds the timer not cancelled and its due time come. */
  lemma CallsIff(actions: seq<Action>, states: seq<State>, n: nat)
    requires IsRun(actions, states) && n < |actions|
    ensures var s, t := states[n], states[n + 1];
      && (t.calls != s.calls <==> actions[n].Resume? && !s.cancelled && s.now >= s.due)
      && (t.calls != s.calls ==> t.calls == s.calls + [Call(s.now, s.due, s.timeout)] && t.phase == Calling(s.now))
  {
    assert Enabled(states[n], actions[n]) && states[n + 1] == Apply(states[n], actions[n]);
  }

  /** The timer ends exactly when it is found cancelled, or at the end of a one-shot's callback. */
  lemma EndsIff(actions: seq<Action>, states: seq<State>, n: nat)
    requires IsRun(actions, states) && n < |actions| && !states[n].phase.Finished?
    ensures states[n + 1].phase.Finished? <==>
      (actions[n].Resume? && states[n].cancelled) || (actions[n].Return? && states[n].kind.Oneshot?)
  {
    assert Enabled(states[n], actions[n]) && states[n + 1] == Apply(states[n], actions[n]);
  }

  ghost predicate Periodic(s: State, first: int, timeout: int) {
    && s.timeout == timeout
    && (s.calls == [] ==> s.due == first)
    && (s.calls != [] && s.phase.Sleeping? ==> s.due == s.calls[|s.calls| - 1].at + timeout)
    && (forall i | 0 <= i < |s.calls| :: s.calls[i].due == if i == 0 then first else s.calls[i - 1].at + timeout)
  }

  lemma StepKeepsPeriodic(s: State, a: Action, first: int, timeout: int)
    requires Inv(s) && Enabled(s, a) && Periodic(s, first, timeout) && !Requests(s, a)
    ensures Periodic(Apply(s, a), first, timeout)
  {
  }

  lemma RunStepKeepsPeriodic(actions: seq<Action>, states: seq<State>, i: nat, first: int, timeout: int)
    requires IsRun(actions, states) && i < |actions|
    requires Periodic(states[i], first, timeout) && !Requests(states[i], actions[i])
    ensures Periodic(states[i + 1], first, timeout)
  {
    RunKeepsInv(actions, states);
    assert Inv(states[i]) && Enabled(states[i], actions[i]) && states[i + 1] == Apply(states[i], actions[i]);
    StepKeepsPeriodic(states[i], actions[i], first, timeout);
  }

  /** Without resets, the callbacks of an interval timer are due one timeout after the creation, and then each
      exactly one timeout after the start of the one before. */
  lemma {:induction false} PeriodIsExact(actions: seq<Action>, states: seq<State>, n: nat,
                                         kind: Kind, timeout: int, now: int, cached: int)
    requires IsRun(actions, states) && n < |states| && states[0] == Create(kind, timeout, now, cached)
    requires forall j | 0 <= j < n :: !Requests(states[j], actions[j])
    ensures Periodic(states[n], now + timeout, timeout)
  {
    if n > 0 {
      PeriodIsExact(actions, states, n - 1, kind, timeout, now, cached);
      RunStepKeepsPeriodic(actions, states, n - 1, now + timeout, timeout);
    }
  }

  // ----- sleeps -----

  /** The steps that put the coroutine to sleep, and the clock they read. */
  predicate Arms(s: State, a: Action) {
    a.Begin? || (a.Resume? && !s.cancelled && s.now < s.due) || (a.Return? && s.kind.Interval?)
  }

  function ClockRead(s: State, a: Action): int {
    if a.Resume? then a.later else s.now
  }

  function TimeLeft(due: int, clock: int): nat {
    if due > clock then due - clock else 0
  }

  /** Asleep until the heap's clock shows `wakeAt`. */
  predicate SleepsUntil(s: State, wakeAt: int) {
    s.phase.Sleeping? && s.phase.wakeAt == wakeAt && (s.phase.woken <==> s.cached >= wakeAt)
  }

  lemma ArmsSleep(s: State, a: Action)
    requires Inv(s) && Enabled(s, a) && Arms(s, a)
    ensures SleepsUntil(Apply(s, a), s.cached + TimeLeft(Apply(s, a).due, ClockRead(s, a)))
  {
  }

  predicate EndsSleep(s: State, a: Action) {
    a.Resume? || (a.Cancel? && s.open)
  }

  lemma StepSleeps(s: State, a: Action, wakeAt: int)
    requires Inv(s) && Enabled(s, a) && SleepsUntil(s, wakeAt) && !EndsSleep(s, a)
    ensures SleepsUntil(Apply(s, a), wakeAt)
  {
  }

  /** The sleep lasts exactly until the heap's clock has advanced by the time left when it began: but for a
      cancel, nothing ends it earlier and no later update passes it over. */
  lemma {:induction false} SleepIsExact(actions: seq<Action>, states: seq<State>, i: nat, n: nat)
    requires IsRun(actions, states) && i < n < |states| && Arms(states[i], actions[i])
    requires forall j | i < j < n :: !EndsSleep(states[j], actions[j])
    ensures SleepsUntil(states[n], states[i].cached + TimeLeft(states[i + 1].due, ClockRead(states[i], actions[i])))
    decreases n
  {
    RunKeepsInv(actions, states);
    assert Enabled(states[n - 1], actions[n - 1]) && states[n] == Apply(states[n - 1], actions[n - 1]);
    if i + 1 < n {
      SleepIsExact(actions, states, i, n - 1);
      StepSleeps(states[n - 1], actions[n - 1],
                 states[i].cached + TimeLeft(states[i + 1].due, ClockRead(states[i], actions[i])));
    } else {
      ArmsSleep(states[i], actions[i]);
    }
  }

  /** A cancel that finds the timer takes its handle away and wakes a sleeping coroutine, whose next step ends it; any
      other changes nothing. */
  lemma CancelWakes(actions: seq<Action>, states: seq<State>, n: nat)
    requires IsRun(actions, states) && n < |actions| && actions[n].Cancel?
    ensures var s, t := states[n], states[n + 1];
      if s.open then
        && t.cancelled && !t.open && t.calls == s.calls && t.freed == s.freed
        && (s.phase.Sleeping? ==> t.phase.Sleeping? && t.phase.woken
                                  && forall later | later >= t.now :: Apply(t, Resume(later)).phase.Finished?)
      else t == s
  {
    assert Enabled(states[n], actions[n]) && states[n + 1] == Apply(states[n], actions[n]);
  }

  // ----- the code -----

  lemma AbsRunFromCreate(k: Coroutines.Id, steps: seq<C.Step>, worlds: seq<C.World>, sched: Coroutines.State,
                         heap: seq<Q.Entry>, now: int, cached: int, kind: Kind, timeout: int)
    requires C.IsRun(k, steps, worlds) && worlds[0] == C.Created(sched, heap, now, cached, kind, timeout)
    ensures var actions, states := R.AbsSteps(steps, worlds), R.AbsStates(worlds);
      IsRun(actions, states) && states[0] == Create(kind, timeout, now, cached)
  {
    R.RunRefines(k, steps, worlds);
    R.CreatedGives(sched, heap, now, cached, kind, timeout);
  }

  /** In every run of the code from the creation of a timer, the kind stays the one asked for, and a timer
      created as one-shot calls at most once. */
  lemma CreatedAs(k: Coroutines.Id, steps: seq<C.Step>, worlds: seq<C.World>, n: nat, sched: Coroutines.State,
                  heap: seq<Q.Entry>, now: int, cached: int, kind: Kind, timeout: int)
    requires C.IsRun(k, steps, worlds) && n < |worlds|
    requires worlds[0] == C.Created(sched, heap, now, cached, kind, timeout)
    ensures worlds[n].rec.kind == kind
    ensures kind == Oneshot ==> |worlds[n].hist.calls| <= 1
  {
    AbsRunFromCreate(k, steps, worlds, sched, heap, now, cached, kind, timeout);
    KindStays(R.AbsSteps(steps, worlds), R.AbsStates(worlds), n);
    NeverEarly(R.AbsSteps(steps, worlds), R.AbsStates(worlds), n);
  }

  lemma NoReset(steps: seq<C.Step>, worlds: seq<C.World>, n: nat)
    requires |worlds| == |steps| + 1 && n < |worlds| && forall j | 0 <= j < n :: !steps[j].Reset?
    ensures forall j | 0 <= j < n :: !Requests(R.AbsStates(worlds)[j], R.AbsSteps(steps, worlds)[j])
  {
    forall j | 0 <= j < n ensures !Requests(R.AbsStates(worlds)[j], R.AbsSteps(steps, worlds)[j]) {
      assert !steps[j].Reset?;
    }
  }

  /** And without resets the callbacks of one created to repeat are due one timeout apart, the first one timeout
      after the creation. */
  lemma CodePeriodIsExact(k: Coroutines.Id, steps: seq<C.Step>, worlds: seq<C.World>, n: nat,
                          sched: Coroutines.State, heap: seq<Q.Entry>, now: int, cached: int, kind: Kind, timeout: int)
    requires C.IsRun(k, steps, worlds) && n < |worlds|
    requires worlds[0] == C.Created(sched, heap, now, cached, kind, timeout)
    requires forall j | 0 <= j < n :: !steps[j].Reset?
    ensures var calls := worlds[n].hist.calls;
      forall i | 0 <= i < |calls| :: calls[i].due == if i == 0 then now + timeout else calls[i - 1].at + timeout
  {
    AbsRunFromCreate(k, steps, worlds, sched, heap, now, cached, kind, timeout);
    NoReset(steps, worlds, n);
    PeriodIsExact(R.AbsSteps(steps, worlds), R.AbsStates(worlds), n, kind, timeout, now, cached);
    assert R.AbsStates(worlds)[n].calls == worlds[n].hist.calls;
  }
}
