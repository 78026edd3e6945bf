/** The life of one timer of src/timer.c: a coroutine that sleeps on its own delayed signal, with
    create, reset and cancel called around it. The record is reachable by others only through its
    handle, which is open or closed here (module HandleTable). */
module TimerTask {
  datatype Kind = Oneshot | Interval

  /** Where the timer's coroutine is. `wakeAt` is when the timer heap raises its wake signal, `woken`
      whether that signal has been raised; `start` is the clock the callback was started at. */
  datatype Phase = NotStarted | Sleeping(wakeAt: int, woken: bool) | Calling(start: int) | Finished

  datatype Call = Call(at: int, due: int, timeout: int)

  /** `now` is the platform's clock, `cached` the one of the timer heap, which lags behind until the next
      timer update. `askedAt` and `asked` log when the latest create or reset was made and
      the due time it asked for; `calls` logs the callbacks started, `freed` how often the record was freed. */
  datatype State = State(kind: Kind, timeout: int, due: int, cancelled: bool, open: bool, phase: Phase,
                         now: int, cached: int, askedAt: int, asked: int, calls: seq<Call>, freed: nat)

  function Create(kind: Kind, timeout: int, now: int, cached: int): State {
    State(kind, timeout, now + timeout, false, true, NotStarted, now, cached, now, now + timeout, [], 0)
  }

  /** `Begin`, `Resume` and `Return` are the coroutine's own steps: its first run, its next run after
      the wake signal, and the end of a callback; `later` is the clock when a resumed coroutine that is
      too early reads it again. `Tick` is the passing of time, `Update` a run of `bio_timer_update`. */
  datatype Action = Tick(t: int) | Update | Begin | Resume(later: int) | Return | Reset(timeout: int) | Cancel

  predicate Enabled(s: State, a: Action) {
    match a
    case Tick(t) => t >= s.now
    case Update => true
    case Begin => s.phase.NotStarted?
    case Resume(later) => s.phase.Sleeping? && s.phase.woken && later >= s.now
    case Return => s.phase.Calling?
    case Reset(_) => true
    case Cancel => true
  }

  /** Sleep on a new signal, raised at once when the due time has come, and otherwise when the heap's
      clock has advanced by the time left. */
  function Arm(s: State): State {
    s.(phase := if s.due - s.now > 0 then Sleeping(s.cached + (s.due - s.now), false) else Sleeping(s.cached, true))
  }

  /** Leave the loop: close the handle, free the record. */
  function Finish(s: State): State {
    s.(phase := Finished, open := false, freed := s.freed + 1)
  }

  function Wake(p: Phase): Phase {
    if p.Sleeping? then p.(woken := true) else p
  }

  function Apply(s: State, a: Action): State
    requires Enabled(s, a)
  {
    match a
    case Tick(t) => s.(now := t)
    case Update =>
      s.(cached := s.now, phase := if s.phase.Sleeping? && s.phase.wakeAt <= s.now then Wake(s.phase) else s.phase)
    case Begin => Arm(s)
    case Resume(later) =>
      if s.cancelled then Finish(s)
      else if s.now >= s.due then s.(phase := Calling(s.now), calls := s.calls + [Call(s.now, s.due, s.timeout)])
      else Arm(s.(now := later))
    case Return =>
      if s.kind.Oneshot? then Finish(s) else Arm(s.(due := s.phase.start + s.timeout))
    case Reset(timeout) =>
      if s.open then s.(timeout := timeout, due := s.now + timeout, askedAt := s.now, asked := s.now + timeout) else s
    case Cancel =>
      if s.open then s.(cancelled := true, phase := Wake(s.phase), open := false) else s
  }

  ghost predicate IsPath(actions: seq<Action>, states: seq<State>) {
    && |states| == |actions| + 1
    && forall i | 0 <= i < |actions| :: Enabled(states[i], actions[i]) && states[i + 1] == Apply(states[i], actions[i])
  }

  ghost predicate IsRun(actions: seq<Action>, states: seq<State>) {
    && IsPath(actions, states)
    && exists kind, timeout, now, cached :: cached <= now && states[0] == Create(kind, timeout, now, cached)
  }

  lemma RunPrefix(actions: seq<Action>, states: seq<State>)
    requires IsRun(actions, states) && |actions| > 0
    ensures IsRun(actions[..|actions| - 1], states[..|actions|])
  {
  }

  // ----- what every step keeps -----

  /** Consecutive callbacks start at least one period apart, the period in force at the later one, and
      none starts before its due time. */
  ghost predicate Spaced(calls: seq<Call>) {
    && (forall i | 0 <= i < |calls| :: calls[i].due <= calls[i].at)
    && (forall i | 0 < i < |calls| :: calls[i].at >= calls[i - 1].at + calls[i].timeout)
  }

  ghost predicate Started(s: State) {
    && (s.phase.NotStarted? ==> s.calls == [])
    && (s.phase.Calling? ==> s.calls != [] && s.phase.start == s.calls[|s.calls| - 1].at)
    && (s.calls != [] ==> s.calls[|s.calls| - 1].at <= s.now)
    && (s.kind.Oneshot? && s.phase.Sleeping? ==> s.calls == [])
    && (s.kind.Oneshot? ==> |s.calls| <= 1)
  }

  /** While the coroutine sleeps, the next due time is a full period after the last callback. */
  ghost predicate Period(s: State) {
    s.phase.Sleeping? && s.calls != [] ==> s.due >= s.calls[|s.calls| - 1].at + s.timeout
  }

  ghost predicate Record(s: State) {
    && s.freed == (if s.phase.Finished? then 1 else 0)
    && (s.open <==> !s.cancelled && !s.phase.Finished?)
    && (s.kind.Interval? && s.phase.Finished? ==> s.cancelled)
  }

  ghost predicate Armed(s: State) {
    s.cached <= s.now && (s.phase.Sleeping? && !s.phase.woken ==> s.cached < s.phase.wakeAt)
  }

  ghost predicate Inv(s: State) {
    Spaced(s.calls) && Started(s) && Period(s) && Record(s) && Armed(s) && s.askedAt <= s.now
  }

  lemma StepKeepsInv(s: State, a: Action)
    requires Inv(s) && Enabled(s, a)
    ensures Inv(Apply(s, a))
    ensures s.calls <= Apply(s, a).calls
    ensures s.cancelled ==> Apply(s, a).cancelled && Apply(s, a).calls == s.calls
  {
  }

  lemma {:induction false} RunKeepsInv(actions: seq<Action>, states: seq<State>)
    requires IsRun(actions, states)
    ensures forall i | 0 <= i < |states| :: Inv(states[i])
    decreases |actions|
  {
    if |actions| > 0 {
      RunPrefix(actions, states);
      RunKeepsInv(actions[..|actions| - 1], states[..|actions|]);
      StepKeepsInv(states[|actions| - 1], actions[|actions| - 1]);
    }
  }

  // ----- what callers rely on -----

  /** No callback starts before the due time of its moment, consecutive ones keep a full period between
      them, and a one-shot timer calls at most once. */
  lemma NeverEarly(actions: seq<Action>, states: seq<State>, n: nat)
    requires IsRun(actions, states) && n < |states|
    ensures Spaced(states[n].calls)
    ensures states[n].kind.Oneshot? ==> |states[n].calls| <= 1
  {
    RunKeepsInv(actions, states);
  }

  lemma CancelledStays(s: State, a: Action)
    requires Enabled(s, a) && s.cancelled && !s.open
    ensures var t := Apply(s, a);
      t.cancelled && !t.open && t.calls == s.calls
  {
  }

  /** A cancel that finds the timer stops it for good: whenever it comes, even before the coroutine's
      first run or out of the callback, no further callback starts. */
  lemma {:induction false} CancelIsFinal(actions: seq<Action>, states: seq<State>, i: nat, j: nat)
    requires IsRun(actions, states) && i < |actions| && i < j < |states|
    requires actions[i].Cancel? && states[i].open
    ensures states[j].cancelled && !states[j].open && states[j].calls == states[i].calls
    decreases j
  {
    assert states[j] == Apply(states[j - 1], actions[j - 1]);
    if i + 1 < j {
      CancelIsFinal(actions, states, i, j - 1);
      CancelledStays(states[j - 1], actions[j - 1]);
    }
  }

  /** Whether the action reads or writes the record. */
  predicate Touches(s: State, a: Action) {
    match a
    case Tick(_) => false
    case Update => false
    case Reset(_) => s.open
    case Cancel => s.open
    case Begin => true
    case Resume(_) => true
    case Return => true
  }

  /** The record is freed at most once, and by then no step of any run reaches it any more; until then
      an uncancelled timer is reported as pending, and one that repeats always is. */
  lemma RecordIsSafe(actions: seq<Action>, states: seq<State>, n: nat)
    requires IsRun(actions, states) && n < |states|
    ensures states[n].freed <= 1
    ensures n < |actions| && Touches(states[n], actions[n]) ==> states[n].freed == 0
    ensures states[n].open <==> !states[n].cancelled && states[n].freed == 0
    ensures states[n].kind.Interval? && !states[n].cancelled ==> states[n].open
  {
    RunKeepsInv(actions, states);
    assert Inv(states[n]);
  }

  // ----- what a reset asks for -----

  /** The action is a reset made during a callback, after the clock has moved on since its start. */
  predicate LateReset(s: State, a: Action) {
    a.Reset? && s.open && s.phase.Calling? && s.now > s.phase.start
  }

  ghost predicate NoLateReset(actions: seq<Action>, states: seq<State>)
    requires |states| == |actions| + 1
  {
    forall i | 0 <= i < |actions| :: !LateReset(states[i], actions[i])
  }

  ghost predicate Honoured(s: State) {
    && s.due >= s.asked == s.askedAt + s.timeout
    && (s.phase.Calling? ==> s.askedAt <= s.phase.start)
  }

  /** At the end of an interval timer's callback, the due time that the latest reset asked for survives
      exactly when that reset was not made at a later clock than the callback's start. */
  lemma ReturnKeepsResetIff(actions: seq<Action>, states: seq<State>, n: nat)
    requires IsRun(actions, states) && n < |states|
    requires states[n].phase.Calling? && states[n].kind.Interval?
    ensures Apply(states[n], Return).due >= states[n].asked <==> states[n].askedAt <= states[n].phase.start
  {
    AskedIsTimeout(actions, states, n);
  }

  lemma {:induction false} AskedIsTimeout(actions: seq<Action>, states: seq<State>, n: nat)
    requires IsRun(actions, states) && n < |states|
    ensures states[n].asked == states[n].askedAt + states[n].timeout
  {
    if n > 0 {
      AskedIsTimeout(actions, states, n - 1);
      assert states[n] == Apply(states[n - 1], actions[n - 1]);
    }
  }

  lemma StepKeepsHonoured(s: State, a: Action)
    requires Inv(s) && Enabled(s, a) && Honoured(s) && !LateReset(s, a)
    ensures Honoured(Apply(s, a))
  {
  }

  /** Without such a reset, no callback ever starts before the time that the latest create or reset
      before it asked for. */
  lemma {:induction false} ResetIsHonoured(actions: seq<Action>, states: seq<State>, n: nat)
    requires IsRun(actions, states) && n < |states|
    requires NoLateReset(actions, states)
    ensures Honoured(states[n])
    ensures n < |actions| && actions[n].Resume? && states[n + 1].phase.Calling? ==>
      states[n].now >= states[n].asked
  {
    RunKeepsInv(actions, states);
    if n > 0 {
      ResetIsHonoured(actions, states, n - 1);
      StepKeepsHonoured(states[n - 1], actions[n - 1]);
      assert states[n] == Apply(states[n - 1], actions[n - 1]);
    }
    if n < |actions| {
      assert Enabled(states[n], actions[n]) && states[n + 1] == Apply(states[n], actions[n]);
    }
  }

  /** A 10 ms interval timer created at 0: asleep, inside its first callback, and, still inside, reset
      to 100 ms from elsewhere. */
  const ASLEEP := Create(Interval, 10, 0, 0).(phase := Sleeping(10, false))
  const CALLING := ASLEEP.(phase := Calling(10), now := 10, cached := 10, calls := [Call(10, 10, 10)])
  const RESET := CALLING.(now := 60, timeout := 100, due := 160, askedAt := 60, asked := 160)
  const AGAIN := RESET.(due := 110, phase := Sleeping(60, false))

  lemma FirstCallback()
    ensures Apply(Create(Interval, 10, 0, 0), Begin) == ASLEEP
    ensures Apply(Apply(Apply(ASLEEP, Tick(10)), Update), Resume(10)) == CALLING
  {
  }

  lemma SecondCallback()
    ensures Apply(CALLING.(now := 60), Reset(100)) == RESET && Apply(RESET, Return) == AGAIN
    ensures Apply(Apply(AGAIN, Tick(110)), Update) == AGAIN.(now := 110, cached := 110, phase := Sleeping(60, true))
  {
  }

  /** With one: the callback starts at 10 and waits, the reset at clock 60 asks for 160, and the next
      callback starts at 110. */
  lemma LateResetIsLost() returns (actions: seq<Action>, states: seq<State>)
    ensures IsRun(actions, states) && |actions| == 10
    ensures states[5].now == 60 && actions[5] == Reset(100) && states[6].asked == 160
    ensures states[10].asked == 160 && states[10].calls == [Call(10, 10, 10), Call(110, 110, 100)]
  {
    actions := [Begin, Tick(10), Update, Resume(10), Tick(60), Reset(100), Return, Tick(110), Update, Resume(110)];
    FirstCallback();
    SecondCallback();
    var late := AGAIN.(now := 110, cached := 110, phase := Sleeping(60, true));
    states := [Create(Interval, 10, 0, 0), ASLEEP, ASLEEP.(now := 10), Apply(ASLEEP.(now := 10), Update), CALLING,
               CALLING.(now := 60), RESET, AGAIN, AGAIN.(now := 110), late, Apply(late, Resume(110))];
  }

  /** The heap's clock may lag behind, and then the wake signal comes that much before the due time, so
      the coroutine has to look again: a timer created for 10 and first run at 4, while the heap's clock
      still shows 0, is woken at 6 and goes back to sleep. */
  lemma WakesEarlyByLag() returns (actions: seq<Action>, states: seq<State>)
    ensures IsRun(actions, states) && |actions| == 5 && actions[4] == Resume(6)
    ensures states[4].now == 6 && states[4].due == 10
    ensures states[5].calls == [] && states[5].phase == Sleeping(10, false)
  {
    actions := [Tick(4), Begin, Tick(6), Update, Resume(6)];
    var s0 := Create(Oneshot, 10, 0, 0);
    var s2 := s0.(now := 4, phase := Sleeping(6, false));
    assert Apply(Apply(s0, Tick(4)), Begin) == s2;
    var s4 := s2.(now := 6, cached := 6, phase := Sleeping(6, true));
    states := [s0, Apply(s0, Tick(4)), s2, Apply(s2, Tick(6)), s4, Apply(s4, Resume(6))];
  }

  /** Past its due time by the heap's clock, and still asleep. */
  predicate Overdue(s: State) {
    s.phase.Sleeping? && !s.phase.woken && s.due <= s.cached
  }

  /** Since a reset to `due` during a sleep until `wakeAt`: until the wake-up nothing has changed, and a
      later sleep ends in time. */
  ghost predicate SleptOn(s: State, wakeAt: int, due: int) {
    || (s.phase == Sleeping(wakeAt, false) && s.due == due)
    || (s.now >= wakeAt && (s.phase.Sleeping? && !s.phase.woken ==> s.phase.wakeAt <= s.due))
  }

  predicate Disturbs(a: Action) {
    a.Reset? || a.Cancel?
  }

  lemma StepSleepsOn(s: State, a: Action, wakeAt: int, due: int)
    requires Inv(s) && Enabled(s, a) && !Disturbs(a) && SleptOn(s, wakeAt, due)
    ensures SleptOn(Apply(s, a), wakeAt, due)
  {
  }

  lemma {:induction false} SleepsOn(actions: seq<Action>, states: seq<State>, n: nat, m: nat)
    requires IsRun(actions, states) && n < m < |states|
    requires actions[n].Reset? && states[n].open && states[n].phase.Sleeping? && !states[n].phase.woken
    requires forall i | n < i < m :: !Disturbs(actions[i])
    ensures SleptOn(states[m], states[n].phase.wakeAt, states[n + 1].due)
    decreases m
  {
    assert Enabled(states[m - 1], actions[m - 1]) && states[m] == Apply(states[m - 1], actions[m - 1]);
    if n + 1 < m {
      SleepsOn(actions, states, n, m - 1);
      RunKeepsInv(actions, states);
      StepSleepsOn(states[m - 1], actions[m - 1], states[n].phase.wakeAt, states[n + 1].due);
    }
  }

  /** A reset during the sleep does not move the wake-up: whatever happens in between, but for another
      reset or a cancel, a timer update at or after the due time it asked for leaves the timer asleep
      exactly if the old wake-up is still to come. */
  lemma ResetWakesInTimeIff(actions: seq<Action>, states: seq<State>, n: nat, m: nat)
    requires IsRun(actions, states) && n < m < |actions|
    requires actions[n].Reset? && states[n].open && states[n].phase.Sleeping? && !states[n].phase.woken
    requires forall i | n < i < m :: !Disturbs(actions[i])
    requires actions[m].Update? && states[m].now >= states[n + 1].due
    ensures Overdue(states[m + 1]) <==> states[m].now < states[n].phase.wakeAt
  {
    SleepsOn(actions, states, n, m);
    assert states[m + 1] == Apply(states[m], actions[m]);
  }

  /** It may be later: a timer created for 100, reset at 10 to fire at 30, sleeps through an update at 30. */
  lemma ShortenedSleepIsLate() returns (actions: seq<Action>, states: seq<State>)
    ensures IsRun(actions, states) && |actions| == 5 && actions[2] == Reset(20)
    ensures states[5].now == states[5].cached == states[5].due == 30 && states[5].phase == Sleeping(100, false)
  {
    actions := [Begin, Tick(10), Reset(20), Tick(30), Update];
    var s1 := Create(Oneshot, 100, 0, 0).(phase := Sleeping(100, false));
    var s2 := s1.(now := 10);
    var s3 := s2.(timeout := 20, due := 30, askedAt := 10, asked := 30);
    states := [Create(Oneshot, 100, 0, 0), s1, s2, s3, s3.(now := 30), s3.(now := 30, cached := 30)];
  }

  /** Whether a reset asked for a time before the wake-up already set. */
  predicate Shortens(s: State, a: Action) {
    a.Reset? && s.open && s.phase.Sleeping? && s.now + a.timeout < s.phase.wakeAt
  }

  /** A timer that never had its sleep shortened is awake by the first timer update at its due time. */
  lemma {:induction false} NeverOverdue(actions: seq<Action>, states: seq<State>, n: nat)
    requires IsRun(actions, states) && n < |states|
    requires forall i | 0 <= i < n :: !Shortens(states[i], actions[i])
    ensures states[n].phase.Sleeping? && !states[n].phase.woken ==> states[n].phase.wakeAt <= states[n].due
    ensures states[n].phase.Sleeping? && states[n].cached >= states[n].due ==> states[n].phase.woken
  {
    RunKeepsInv(actions, states);
    assert Inv(states[n]);
    if n > 0 {
      NeverOverdue(actions, states, n - 1);
      assert states[n] == Apply(states[n - 1], actions[n - 1]);
    }
  }

  // ----- the reset of a one-shot timer -----

  ghost predicate CallsAgain(s: State, actions: seq<Action>, states: seq<State>) {
    IsPath(actions, states) && states[0] == s && states[|actions|].calls != s.calls
  }

  /** Some continuation starts another callback. */
  ghost predicate CanStillCall(s: State) {
    exists actions, states :: CallsAgain(s, actions, states)
  }

  lemma {:induction false} OneshotCallsOnce(actions: seq<Action>, states: seq<State>, n: nat)
    requires IsPath(actions, states) && n < |states|
    requires Inv(states[0]) && states[0].kind.Oneshot? && states[0].calls != []
    ensures Inv(states[n]) && states[n].kind.Oneshot? && states[n].calls == states[0].calls
  {
    if n > 0 {
      OneshotCallsOnce(actions, states, n - 1);
      assert Enabled(states[n - 1], actions[n - 1]) && states[n] == Apply(states[n - 1], actions[n - 1]);
      StepKeepsInv(states[n - 1], actions[n - 1]);
    }
  }

  /** From its sleep, an open one-shot timer comes to its callback by the passing of time. */
  lemma SleeperCalls(s: State)
    requires Inv(s) && s.phase.Sleeping? && s.open
    ensures CanStillCall(s)
  {
    var t := if s.now >= s.due then s.now else s.due;
    var late := if t >= s.phase.wakeAt then t else s.phase.wakeAt;
    var actions := [Tick(late), Update, Resume(late)];
    var s1 := Apply(s, Tick(late));
    var s2 := Apply(s1, Update);
    var states := [s, s1, s2, Apply(s2, Resume(late))];
    assert states[3].calls == s.calls + [Call(late, s.due, s.timeout)];
    assert CallsAgain(s, actions, states);
  }

  lemma CallsAfter(s: State, a: Action)
    requires Enabled(s, a) && CanStillCall(Apply(s, a)) && Apply(s, a).calls == s.calls
    ensures CanStillCall(s)
  {
    var actions, states :| CallsAgain(Apply(s, a), actions, states);
    assert CallsAgain(s, [a] + actions, [s] + states);
  }

  /** The reset of a one-shot timer that resolves postpones its callback, as documented, exactly if the
      callback has not started: one made from inside it is lost, since its end finishes the timer. */
  lemma OneshotResetIff(actions: seq<Action>, states: seq<State>, n: nat, timeout: int)
    requires IsRun(actions, states) && n < |states|
    requires states[n].kind.Oneshot? && states[n].open
    ensures CanStillCall(Apply(states[n], Reset(timeout))) <==> !states[n].phase.Calling?
  {
    RunKeepsInv(actions, states);
    var s := Apply(states[n], Reset(timeout));
    StepKeepsInv(states[n], Reset(timeout));
    if s.phase.Calling? {
      forall more, after ensures !CallsAgain(s, more, after) {
        if CallsAgain(s, more, after) { OneshotCallsOnce(more, after, |more|); }
      }
    } else if s.phase.Sleeping? {
      SleeperCalls(s);
    } else {
      StepKeepsInv(s, Begin);
      SleeperCalls(Apply(s, Begin));
      CallsAfter(s, Begin);
    }
  }

  /** Such a reset: the callback of a one-shot timer asks for another call at 110 and there is none. */
  lemma OneshotResetIsLost() returns (actions: seq<Action>, states: seq<State>)
    ensures IsRun(actions, states) && |actions| == 6 && actions[4] == Reset(100)
    ensures states[4].open && states[5].asked == 110
    ensures states[6].phase.Finished? && states[6].calls == [Call(10, 10, 10)]
  {
    actions := [Begin, Tick(10), Update, Resume(10), Reset(100), Return];
    var s0 := Create(Oneshot, 10, 0, 0);
    var s1 := s0.(phase := Sleeping(10, false));
    var s3 := s1.(now := 10, cached := 10, phase := Sleeping(10, true));
    assert Apply(Apply(s1, Tick(10)), Update) == s3;
    var s4 := Apply(s3, Resume(10));
    var s5 := Apply(s4, Reset(100));
    states := [s0, s1, s1.(now := 10), s3, s4, s5, Apply(s5, Return)];
  }

  // ----- the record and its methods -----

  /** The timer record, with its coroutine cut at the two places where it gives up control. */
  class Timer {
    const kind: Kind
    var timeout: int
    var due: int
    var cancelled: bool
    var open: bool
    var phase: Phase
    var now: int
    var cached: int
    ghost var askedAt: int
    ghost var asked: int
    ghost var calls: seq<Call>
    ghost var freed: nat

    ghost function View(): State
      reads this
    {
      State(kind, timeout, due, cancelled, open, phase, now, cached, askedAt, asked, calls, freed)
    }

    constructor (kind: Kind, timeout: int, clock: int, heapClock: int)
      ensures View() == Create(kind, timeout, clock, heapClock)
    {
      this.kind := kind;
      this.timeout := timeout;
      due := clock + timeout;
      cancelled := false;
      open := true;
      phase := NotStarted;
      now := clock;
      cached := heapClock;
      askedAt := clock;
      asked := clock + timeout;
      calls := [];
      freed := 0;
    }

    /** `bio_timer_update`, as far as this timer is concerned. */
    method TimerUpdate()
      modifies this
      ensures View() == Apply(old(View()), Update)
    {
      cached := now;
      if phase.Sleeping? && phase.wakeAt <= cached {
        RaiseWakeSignal();
      }
    }

    method RaiseWakeSignal()
      modifies this`phase
      ensures phase == Wake(old(phase))
    {
      if phase.Sleeping? {
        phase := phase.(woken := true);
      }
    }

    /** Make a wake signal, have it raised after the time left, and wait. */
    method Sleep()
      modifies this`phase
      ensures View() == Arm(old(View()))
    {
      var delay := due - now;
      if delay > 0 {
        phase := Sleeping(cached + delay, false);
      } else {
        phase := Sleeping(cached, true);
      }
    }

    method Free()
      modifies this
      ensures View() == Finish(old(View()))
    {
      open := false;
      phase := Finished;
      freed := freed + 1;
    }

    method RunFirst()
      requires Enabled(View(), Begin)
      modifies this
      ensures View() == Apply(old(View()), Begin)
    {
      Sleep();
    }

    /** From the wake signal to the call, the end or the next sleep. */
    method Woken(later: int)
      requires Enabled(View(), Resume(later))
      modifies this
      ensures View() == Apply(old(View()), Resume(later))
    {
      if cancelled {
        Free();
      } else if now >= due {
        phase := Calling(now);
        calls := calls + [Call(now, due, timeout)];
      } else {
        now := later;
        Sleep();
      }
    }

    /** From the end of the callback to the end or the next sleep. */
    method Returned()
      requires Enabled(View(), Return)
      modifies this
      ensures View() == Apply(old(View()), Return)
    {
      if kind == Oneshot {
        Free();
      } else {
        due := phase.start + timeout;
        Sleep();
      }
    }

    method ResetTimer(timeout: int)
      modifies this
      ensures View() == Apply(old(View()), Reset(timeout))
    {
      if open {
        this.timeout := timeout;
        due := now + timeout;
        askedAt := now;
        asked := due;
      }
    }

    method CancelTimer()
      modifies this
      ensures View() == Apply(old(View()), Cancel)
    {
      if open {
        cancelled := true;
        RaiseWakeSignal();
        open := false;
      }
    }

    method IsPending() returns (pending: bool)
      requires Record(View())
      ensures pending <==> !cancelled && freed == 0
    {
      pending := open;
    }
  }
}
