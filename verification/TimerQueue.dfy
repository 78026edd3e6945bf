/** The timer heap of src/timer.c: signals to be raised at a due time, kept in a binary min-heap.
    Due times are unbounded integers. */
module TimerQueue {
  type Signal = nat

  datatype Entry = Entry(due: int, signal: Signal)

  const INITIAL_CAPACITY := 4

  function Parent(i: nat): nat
    requires i > 0
  {
    (i - 1) / 2
  }

  /** Entry `i` is not due before its parent. */
  ghost predicate Ordered(s: seq<Entry>, i: nat)
    requires 0 < i < |s|
  {
    s[Parent(i)].due <= s[i].due
  }

  ghost predicate IsHeap(s: seq<Entry>) {
    forall i | 0 < i < |s| :: Ordered(s, i)
  }

  function Swap(s: seq<Entry>, i: nat, j: nat): seq<Entry>
    requires i < |s| && j < |s|
  {
    s[i := s[j]][j := s[i]]
  }

  // ----- what the loops compute -----

  function SiftUp(s: seq<Entry>, k: nat): seq<Entry>
    requires k < |s|
    decreases k
  {
    if k > 0 && s[Parent(k)].due > s[k].due then SiftUp(Swap(s, Parent(k), k), Parent(k)) else s
  }

  /** The least of entry `k` and its children, `k` itself when it ties. */
  function Smallest(s: seq<Entry>, k: nat): nat
    requires k < |s|
  {
    var a := if 2 * k + 1 < |s| && s[2 * k + 1].due < s[k].due then 2 * k + 1 else k;
    if 2 * k + 2 < |s| && s[2 * k + 2].due < s[a].due then 2 * k + 2 else a
  }

  function SiftDown(s: seq<Entry>, k: nat): seq<Entry>
    requires k < |s|
    decreases |s| - k
  {
    var m := Smallest(s, k);
    if m == k then s else SiftDown(Swap(s, k, m), m)
  }

  function Insert(s: seq<Entry>, e: Entry): seq<Entry> {
    SiftUp(s + [e], |s|)
  }

  /** The heap when a signal is to be raised after a positive delay, by a cached clock of `now`. */
  function Scheduled(s: seq<Entry>, now: int, signal: Signal, delay: int): seq<Entry> {
    Insert(s, Entry(now + delay, signal))
  }

  function Pop(s: seq<Entry>): (r: seq<Entry>)
    requires |s| > 0
  {
    var n := |s| - 1;
    if n == 0 then [] else SiftDown(s[..n][0 := s[n]], 0)
  }

  lemma {:induction false} SiftDownLength(s: seq<Entry>, k: nat)
    requires k < |s|
    ensures |SiftDown(s, k)| == |s|
    decreases |s| - k
  {
    var m := Smallest(s, k);
    if m != k { SiftDownLength(Swap(s, k, m), m); }
  }

  lemma PopLength(s: seq<Entry>)
    requires |s| > 0
    ensures |Pop(s)| == |s| - 1
  {
    var n := |s| - 1;
    if n > 0 { SiftDownLength(s[..n][0 := s[n]], 0); }
  }

  /** The entries one update raises, in order, and the heap it leaves. */
  ghost function Fire(s: seq<Entry>, now: int): (r: (seq<Entry>, seq<Entry>))
    decreases |s|
  {
    if |s| > 0 && s[0].due <= now then
      PopLength(s);
      var r := Fire(Pop(s), now);
      ([s[0]] + r.0, r.1)
    else ([], s)
  }

  // ----- contents -----

  lemma SwapKeepsContents(s: seq<Entry>, i: nat, j: nat)
    requires i < |s| && j < |s|
    ensures multiset(Swap(s, i, j)) == multiset(s)
  {
  }

  lemma {:induction false} SiftUpKeepsContents(s: seq<Entry>, k: nat)
    requires k < |s|
    ensures multiset(SiftUp(s, k)) == multiset(s)
    decreases k
  {
    if k > 0 && s[Parent(k)].due > s[k].due {
      SwapKeepsContents(s, Parent(k), k);
      SiftUpKeepsContents(Swap(s, Parent(k), k), Parent(k));
    }
  }

  lemma {:induction false} SiftDownKeepsContents(s: seq<Entry>, k: nat)
    requires k < |s|
    ensures multiset(SiftDown(s, k)) == multiset(s)
    decreases |s| - k
  {
    var m := Smallest(s, k);
    if m != k {
      SwapKeepsContents(s, k, m);
      SiftDownKeepsContents(Swap(s, k, m), m);
    }
  }

  lemma InsertAdds(s: seq<Entry>, e: Entry)
    ensures multiset(Insert(s, e)) == multiset(s) + multiset{e}
  {
    SiftUpKeepsContents(s + [e], |s|);
  }

  lemma PopRemovesRoot(s: seq<Entry>)
    requires |s| > 0
    ensures multiset(s) == multiset(Pop(s)) + multiset{s[0]}
  {
    var n := |s| - 1;
    assert s == s[..n] + [s[n]];
    if n > 0 {
      var t := s[..n][0 := s[n]];
      assert multiset(t) == multiset(s[..n]) - multiset{s[0]} + multiset{s[n]};
      SiftDownKeepsContents(t, 0);
    }
  }

  // ----- order -----

  /** A heap but for entry `k`, which may be earlier than its parent. */
  ghost predicate HeapButUp(s: seq<Entry>, k: nat) {
    && (forall i | 0 < i < |s| && i != k :: Ordered(s, i))
    && (forall i | 0 < i < |s| && Parent(i) == k && k > 0 :: s[Parent(k)].due <= s[i].due)
  }

  /** A heap but for entry `k`, which may be later than its children. */
  ghost predicate HeapButDown(s: seq<Entry>, k: nat) {
    && (forall i | 0 < i < |s| && Parent(i) != k :: Ordered(s, i))
    && (forall i | 0 < i < |s| && Parent(i) == k && k > 0 :: s[Parent(k)].due <= s[i].due)
  }

  lemma SwapUp(s: seq<Entry>, k: nat)
    requires 0 < k < |s| && HeapButUp(s, k) && s[Parent(k)].due > s[k].due
    ensures HeapButUp(Swap(s, Parent(k), k), Parent(k))
  {
    var t := Swap(s, Parent(k), k);
    forall i | 0 < i < |t| && i != Parent(k)
      ensures Ordered(t, i)
    {
      if i != k { assert Ordered(s, i); }
    }
    forall i | 0 < i < |t| && Parent(i) == Parent(k) && Parent(k) > 0
      ensures t[Parent(Parent(k))].due <= t[i].due
    {
      assert Ordered(s, Parent(k));
      if i != k { assert Ordered(s, i); }
    }
  }

  lemma {:induction false} SiftUpMakesHeap(s: seq<Entry>, k: nat)
    requires k < |s| && HeapButUp(s, k)
    ensures IsHeap(SiftUp(s, k))
    decreases k
  {
    if k > 0 && s[Parent(k)].due > s[k].due {
      SwapUp(s, k);
      SiftUpMakesHeap(Swap(s, Parent(k), k), Parent(k));
    }
  }

  lemma SwapDown(s: seq<Entry>, k: nat)
    requires k < |s| && HeapButDown(s, k) && Smallest(s, k) != k
    ensures HeapButDown(Swap(s, k, Smallest(s, k)), Smallest(s, k))
  {
    var m := Smallest(s, k);
    var t := Swap(s, k, m);
    forall i | 0 < i < |t| && Parent(i) != m
      ensures Ordered(t, i)
    {
      if Parent(i) == k { assert i == 2 * k + 1 || i == 2 * k + 2; }
    }
    forall i | 0 < i < |t| && Parent(i) == m
      ensures t[k].due <= t[i].due
    {
      assert Ordered(s, i);
    }
  }

  lemma {:induction false} SiftDownMakesHeap(s: seq<Entry>, k: nat)
    requires k < |s| && HeapButDown(s, k)
    ensures IsHeap(SiftDown(s, k))
    decreases |s| - k
  {
    if Smallest(s, k) != k {
      SwapDown(s, k);
      SiftDownMakesHeap(Swap(s, k, Smallest(s, k)), Smallest(s, k));
    } else {
      forall i | 0 < i < |s|
        ensures Ordered(s, i)
      {
        if Parent(i) == k { assert i == 2 * k + 1 || i == 2 * k + 2; }
      }
    }
  }

  lemma InsertKeepsHeap(s: seq<Entry>, e: Entry)
    requires IsHeap(s)
    ensures IsHeap(Insert(s, e))
  {
    var t := s + [e];
    forall i | 0 < i < |t| && i != |s|
      ensures Ordered(t, i)
    {
      assert Ordered(s, i);
    }
    SiftUpMakesHeap(t, |s|);
  }

  lemma PopKeepsHeap(s: seq<Entry>)
    requires |s| > 0 && IsHeap(s)
    ensures IsHeap(Pop(s))
  {
    var n := |s| - 1;
    if n > 0 {
      var t := s[..n][0 := s[n]];
      forall i | 0 < i < |t| && Parent(i) != 0
        ensures Ordered(t, i)
      {
        assert Ordered(s, i);
      }
      SiftDownMakesHeap(t, 0);
    }
  }

  /** No entry anywhere in the heap is due before the root. */
  lemma {:induction false} RootIsLeast(s: seq<Entry>, i: nat)
    requires IsHeap(s) && i < |s|
    ensures s[0].due <= s[i].due
    decreases i
  {
    if i > 0 {
      assert Ordered(s, i);
      RootIsLeast(s, Parent(i));
    }
  }

  // ----- one update -----

  ghost predicate InOrder(s: seq<Entry>) {
    forall i, j | 0 <= i < j < |s| :: s[i].due <= s[j].due
  }

  ghost predicate AllDue(s: seq<Entry>, now: int) {
    forall i | 0 <= i < |s| :: s[i].due <= now
  }

  ghost predicate NoneDue(s: seq<Entry>, now: int) {
    forall i | 0 <= i < |s| :: s[i].due > now
  }

  ghost predicate NoneBefore(s: seq<Entry>, time: int) {
    forall i | 0 <= i < |s| :: time <= s[i].due
  }

  lemma RootBoundsPopped(s: seq<Entry>)
    requires |s| > 0 && IsHeap(s)
    ensures NoneBefore(Pop(s), s[0].due)
  {
    PopRemovesRoot(s);
    var p := Pop(s);
    forall i | 0 <= i < |p|
      ensures s[0].due <= p[i].due
    {
      assert p[i] in multiset(p);
      assert p[i] in multiset(s);
      var j: nat :| j < |s| && s[j] == p[i];
      RootIsLeast(s, j);
    }
  }

  lemma {:induction false} FireSplits(s: seq<Entry>, now: int)
    ensures multiset(s) == multiset(Fire(s, now).0) + multiset(Fire(s, now).1)
    decreases |s|
  {
    if |s| > 0 && s[0].due <= now {
      PopLength(s);
      PopRemovesRoot(s);
      FireSplits(Pop(s), now);
    }
  }

  lemma {:induction false} FireLeavesLater(s: seq<Entry>, now: int)
    requires IsHeap(s)
    ensures IsHeap(Fire(s, now).1) && NoneDue(Fire(s, now).1, now)
    decreases |s|
  {
    if |s| > 0 && s[0].due <= now {
      PopLength(s);
      PopKeepsHeap(s);
      FireLeavesLater(Pop(s), now);
    } else {
      forall i | 0 <= i < |s|
        ensures s[i].due > now
      {
        RootIsLeast(s, i);
      }
    }
  }

  lemma FiredAfterRoot(s: seq<Entry>, now: int)
    requires IsHeap(s) && |s| > 0
    requires multiset(Fire(Pop(s), now).0) <= multiset(Pop(s))
    ensures NoneBefore(Fire(Pop(s), now).0, s[0].due)
  {
    RootBoundsPopped(s);
    var f := Fire(Pop(s), now).0;
    forall i | 0 <= i < |f|
      ensures s[0].due <= f[i].due
    {
      assert f[i] in multiset(f);
      assert f[i] in multiset(Pop(s));
    }
  }

  lemma EarliestFirst(e: Entry, f: seq<Entry>, now: int)
    requires InOrder(f) && AllDue(f, now) && NoneBefore(f, e.due) && e.due <= now
    ensures InOrder([e] + f) && AllDue([e] + f, now)
  {
  }

  lemma {:induction false} FireInOrder(s: seq<Entry>, now: int)
    requires IsHeap(s)
    ensures InOrder(Fire(s, now).0) && AllDue(Fire(s, now).0, now)
    decreases |s|
  {
    if |s| > 0 && s[0].due <= now {
      PopLength(s);
      PopKeepsHeap(s);
      FireSplits(Pop(s), now);
      FiredAfterRoot(s, now);
      FireInOrder(Pop(s), now);
      EarliestFirst(s[0], Fire(Pop(s), now).0, now);
    }
  }

  /** One update raises exactly the entries due by `now`, each as often as it was scheduled and in
      nondecreasing order of their due times, and what stays behind is a heap of the others. */
  lemma FireIsExact(s: seq<Entry>, now: int)
    requires IsHeap(s)
    ensures multiset(s) == multiset(Fire(s, now).0) + multiset(Fire(s, now).1)
    ensures AllDue(Fire(s, now).0, now) && NoneDue(Fire(s, now).1, now)
    ensures InOrder(Fire(s, now).0) && IsHeap(Fire(s, now).1)
  {
    FireSplits(s, now);
    FireLeavesLater(s, now);
    FireInOrder(s, now);
  }

  /** Having raised `done`, an update that still has heap `s` is on its way to what it does from `was`. */
  ghost predicate FiresAs(was: seq<Entry>, now: int, done: seq<Entry>, s: seq<Entry>) {
    Fire(was, now).0 == done + Fire(s, now).0 && Fire(was, now).1 == Fire(s, now).1
  }

  lemma FireFirst(was: seq<Entry>, now: int, done: seq<Entry>, s: seq<Entry>)
    requires |s| > 0 && s[0].due <= now && FiresAs(was, now, done, s)
    ensures FiresAs(was, now, done + [s[0]], Pop(s))
  {
    assert done + ([s[0]] + Fire(Pop(s), now).0) == done + [s[0]] + Fire(Pop(s), now).0;
  }

  // ----- whole runs -----

  /** A call of `bio_raise_signal_after`, or `bio_timer_update` reading the given clock. */
  datatype Op = After(signal: Signal, delay: int) | Update(clock: int)

  /** `now` is the cached clock; `scheduled` and `fired` log what went into the heap and what updates
      raised from it, `atOnce` the signals raised without delay. */
  datatype State = State(queue: seq<Entry>, now: int, scheduled: multiset<Entry>, fired: seq<Entry>,
                         atOnce: seq<Signal>)

  ghost function Apply(s: State, op: Op): State {
    match op
    case After(signal, delay) =>
      if delay > 0 then
        s.(queue := Scheduled(s.queue, s.now, signal, delay),
           scheduled := s.scheduled + multiset{Entry(s.now + delay, signal)})
      else s.(atOnce := s.atOnce + [signal])
    case Update(clock) =>
      s.(queue := Fire(s.queue, clock).1, now := clock, fired := s.fired + Fire(s.queue, clock).0)
  }

  /** The state after a run of calls from an empty heap. */
  ghost function Run(start: int, ops: seq<Op>): State
    decreases |ops|
  {
    if ops == [] then State([], start, multiset{}, [], [])
    else Apply(Run(start, ops[..|ops| - 1]), ops[|ops| - 1])
  }

  /** The clock never runs backwards. */
  ghost predicate ClockAdvances(start: int, ops: seq<Op>)
    decreases |ops|
  {
    ops != [] ==>
      var before := ops[..|ops| - 1];
      ClockAdvances(start, before)
      && (ops[|ops| - 1].Update? ==> ops[|ops| - 1].clock >= Run(start, before).now)
  }

  ghost predicate Exact(s: State) {
    && IsHeap(s.queue)
    && s.scheduled == multiset(s.queue) + multiset(s.fired)
    && NoneDue(s.queue, s.now)
    && AllDue(s.fired, s.now)
    && InOrder(s.fired)
  }

  lemma AfterKeepsExact(s: State, signal: Signal, delay: int)
    requires Exact(s)
    ensures Exact(Apply(s, After(signal, delay)))
  {
    if delay > 0 {
      var e := Entry(s.now + delay, signal);
      InsertKeepsHeap(s.queue, e);
      InsertAdds(s.queue, e);
      var q := Insert(s.queue, e);
      forall i | 0 <= i < |q|
        ensures q[i].due > s.now
      {
        assert q[i] in multiset(q);
        assert q[i] in multiset(s.queue) || q[i] == e;
      }
    }
  }

  /** What an update raises was not due at the clock before. */
  lemma FiredWereLater(q: seq<Entry>, before: int, clock: int)
    requires NoneDue(q, before) && multiset(Fire(q, clock).0) <= multiset(q)
    ensures NoneDue(Fire(q, clock).0, before)
  {
    var f := Fire(q, clock).0;
    forall i | 0 <= i < |f|
      ensures f[i].due > before
    {
      assert f[i] in multiset(f);
      assert f[i] in multiset(q);
    }
  }

  lemma LaterInOrder(f: seq<Entry>, g: seq<Entry>, before: int, clock: int)
    requires InOrder(f) && AllDue(f, before) && InOrder(g) && NoneDue(g, before) && AllDue(g, clock) && before <= clock
    ensures InOrder(f + g) && AllDue(f + g, clock)
  {
  }

  lemma UpdateKeepsExact(s: State, clock: int)
    requires Exact(s) && clock >= s.now
    ensures Exact(Apply(s, Update(clock)))
  {
    FireIsExact(s.queue, clock);
    FiredWereLater(s.queue, s.now, clock);
    LaterInOrder(s.fired, Fire(s.queue, clock).0, s.now, clock);
  }

  lemma {:induction false} RunKeepsExact(start: int, ops: seq<Op>)
    requires ClockAdvances(start, ops)
    ensures Exact(Run(start, ops))
    decreases |ops|
  {
    if ops != [] {
      var before := ops[..|ops| - 1];
      RunKeepsExact(start, before);
      match ops[|ops| - 1]
      case After(signal, delay) => AfterKeepsExact(Run(start, before), signal, delay);
      case Update(clock) => UpdateKeepsExact(Run(start, before), clock);
    }
  }

  /** At every point of every run, an entry has been raised exactly as often as it was scheduled if its
      due time has come by the cached clock, and never otherwise; and the whole history of raised
      entries, across all updates, is in order of due time. */
  lemma FiredIffDue(start: int, ops: seq<Op>, e: Entry)
    requires ClockAdvances(start, ops)
    ensures var s := Run(start, ops);
      && multiset(s.fired)[e] == (if e.due <= s.now then s.scheduled[e] else 0)
      && multiset(s.queue)[e] == (if e.due > s.now then s.scheduled[e] else 0)
      && InOrder(s.fired)
  {
    RunKeepsExact(start, ops);
    var s := Run(start, ops);
    assert multiset(s.fired)[e] > 0 ==> e in s.fired;
    assert multiset(s.queue)[e] > 0 ==> e in s.queue;
  }

  /** The cached clock after some calls: that of the latest update. */
  function ClockAt(start: int, ops: seq<Op>): int
    decreases |ops|
  {
    if ops == [] then start
    else
      var last := ops[|ops| - 1];
      if last.Update? then last.clock else ClockAt(start, ops[..|ops| - 1])
  }

  /** Call `i` asks for the signal of `e` to be raised after a delay that ends when `e` is due. */
  predicate AsksFor(start: int, ops: seq<Op>, i: int, e: Entry) {
    && 0 <= i < |ops| && ops[i].After? && ops[i].delay > 0
    && ops[i].signal == e.signal && e.due == ClockAt(start, ops[..i]) + ops[i].delay
  }

  function Askers(start: int, ops: seq<Op>, e: Entry): set<int> {
    set i | 0 <= i < |ops| && AsksFor(start, ops, i, e)
  }

  lemma AskersOfOneMore(start: int, ops: seq<Op>, e: Entry)
    requires ops != []
    ensures var n := |ops| - 1;
      Askers(start, ops, e) == Askers(start, ops[..n], e) + (if AsksFor(start, ops, n, e) then {n} else {})
  {
    var n := |ops| - 1;
    forall i | 0 <= i < n ensures AsksFor(start, ops, i, e) <==> AsksFor(start, ops[..n], i, e) {
      assert ops[..n][..i] == ops[..i];
    }
  }

  lemma {:induction false} ScheduledExactly(start: int, ops: seq<Op>, e: Entry)
    ensures Run(start, ops).now == ClockAt(start, ops)
    ensures Run(start, ops).scheduled[e] == |Askers(start, ops, e)|
    decreases |ops|
  {
    if ops != [] {
      ScheduledExactly(start, ops[..|ops| - 1], e);
      AskersOfOneMore(start, ops, e);
    }
  }

  /** An entry has been raised by the updates as often as it was asked for if it is due by the cached clock, and
      never otherwise: a signal with a positive delay is raised by the first update at or after the clock of the
      call plus the delay. */
  lemma RaisedAsAsked(start: int, ops: seq<Op>, e: Entry)
    requires ClockAdvances(start, ops)
    ensures multiset(Run(start, ops).fired)[e] == if e.due <= ClockAt(start, ops) then |Askers(start, ops, e)| else 0
  {
    FiredIffDue(start, ops, e);
    ScheduledExactly(start, ops, e);
  }

  /** Without a positive delay a signal is raised at once. */
  lemma RaisedAtOnce(start: int, ops: seq<Op>, signal: Signal, delay: int)
    ensures var s, t := Run(start, ops), Run(start, ops + [After(signal, delay)]);
      if delay <= 0 then t == s.(atOnce := s.atOnce + [signal]) else t.atOnce == s.atOnce && t.fired == s.fired
  {
    assert (ops + [After(signal, delay)])[..|ops|] == ops;
  }

  // ----- the heap in its array -----

  class Timers {
    var entries: array<Entry>
    var count: nat
    var now: int

    ghost predicate Valid()
      reads this, entries
    {
      && 0 <= count <= entries.Length
      && entries.Length >= INITIAL_CAPACITY
      && IsHeap(entries[..count])
    }

    ghost function Queue(): seq<Entry>
      reads this, entries
      requires count <= entries.Length
    {
      entries[..count]
    }

    constructor (clock: int)
      ensures Valid() && fresh(entries)
      ensures Queue() == [] && now == clock
    {
      entries := new Entry[INITIAL_CAPACITY];
      count := 0;
      now := clock;
    }

    /** Doubles the array, keeping its contents. */
    method Grow()
      requires Valid() && count == entries.Length
      modifies this`entries
      ensures Valid() && fresh(entries) && count < entries.Length
      ensures Queue() == old(Queue())
    {
      var bigger := new Entry[2 * entries.Length];
      for i := 0 to count
        invariant forall j | 0 <= j < i :: bigger[j] == entries[j]
        modifies bigger
      {
        bigger[i] := entries[i];
      }
      assert bigger[..count] == entries[..count];
      entries := bigger;
    }

    method SwapEntries(i: nat, j: nat)
      requires i < count <= entries.Length && j < count
      modifies entries
      ensures count <= entries.Length && Queue() == Swap(old(Queue()), i, j)
    {
      var temp := entries[i];
      entries[i] := entries[j];
      entries[j] := temp;
    }

    /** Moves the last entry up to its place. */
    method Rise()
      requires 0 < count <= entries.Length
      modifies entries
      ensures Queue() == SiftUp(old(Queue()), count - 1)
    {
      var current: nat := count - 1;
      while current > 0 && entries[Parent(current)].due > entries[current].due
        invariant current < count
        invariant SiftUp(Queue(), current) == SiftUp(old(Queue()), count - 1)
        decreases current
      {
        SwapEntries(Parent(current), current);
        current := Parent(current);
      }
    }

    /** Puts the signal in the heap, or tells the caller to raise it at once. */
    method RaiseSignalAfter(signal: Signal, delay: int) returns (atOnce: bool)
      requires Valid()
      modifies this`entries, this`count, entries
      ensures Valid() && (entries == old(entries) || fresh(entries))
      ensures atOnce <==> delay <= 0
      ensures Queue() == if delay > 0 then Insert(old(Queue()), Entry(now + delay, signal)) else old(Queue())
    {
      if delay <= 0 {
        return true;
      }
      if count == entries.Length {
        Grow();
      }
      InsertKeepsHeap(Queue(), Entry(now + delay, signal));
      entries[count] := Entry(now + delay, signal);
      count := count + 1;
      assert Queue() == old(Queue()) + [Entry(now + delay, signal)];
      Rise();
      atOnce := false;
    }

    /** Moves the entry at the root down to its place. */
    method Settle()
      requires 0 < count <= entries.Length
      modifies entries
      ensures Queue() == SiftDown(old(Queue()), 0)
    {
      var index: nat := 0;
      while true
        invariant index < count
        invariant SiftDown(Queue(), index) == SiftDown(old(Queue()), 0)
        decreases count - index
      {
        var left := 2 * index + 1;
        var right := 2 * index + 2;
        var smallest: nat := index;
        if left < count && entries[left].due < entries[smallest].due {
          smallest := left;
        }
        if right < count && entries[right].due < entries[smallest].due {
          smallest := right;
        }
        assert smallest == Smallest(Queue(), index);
        if smallest == index {
          break;
        }
        SwapEntries(index, smallest);
        index := smallest;
      }
    }

    /** Takes the root out. */
    method DeleteRoot()
      requires 0 < count <= entries.Length
      modifies this`count, entries
      ensures count == old(count) - 1 && count <= entries.Length
      ensures Queue() == Pop(old(Queue()))
    {
      count := count - 1;
      entries[0] := entries[count];
      if count > 0 {
        assert Queue() == old(Queue())[..count][0 := old(Queue())[count]];
        Settle();
      }
    }

    /** `bio_timer_update`: `raised` are the entries whose signals it raises, in order. */
    method Update(clock: int) returns (raised: seq<Entry>)
      requires Valid()
      modifies this`count, this`now, entries
      ensures Valid() && now == clock
      ensures raised == Fire(old(Queue()), clock).0 && Queue() == Fire(old(Queue()), clock).1
    {
      now := clock;
      raised := [];
      ghost var was := Queue();
      while count > 0 && entries[0].due <= clock
        invariant count <= entries.Length && IsHeap(Queue())
        invariant FiresAs(was, clock, raised, Queue())
        decreases count
        modifies this`count, entries
      {
        PopKeepsHeap(Queue());
        FireFirst(was, clock, raised, Queue());
        raised := raised + [entries[0]];
        DeleteRoot();
      }
    }

    /** How long the event loop may sleep: not past the first due time among all entries. */
    method TimeUntilNext(clock: int) returns (timeout: int)
      requires Valid()
      ensures timeout == -1 <==> count == 0
      ensures count > 0 ==>
        && 0 <= timeout
        && (timeout == 0 <==> exists i :: 0 <= i < count && Queue()[i].due <= clock)
        && (timeout > 0 ==> NoneBefore(Queue(), clock + timeout) && !NoneDue(Queue(), clock + timeout))
    {
      if count > 0 {
        var due := entries[0].due;
        timeout := if due < clock then 0 else due - clock;
        forall i | 0 <= i < count
          ensures due <= Queue()[i].due
        {
          RootIsLeast(Queue(), i);
        }
        assert Queue()[0].due == due;
      } else {
        timeout := -1;
      }
    }
  }
}
