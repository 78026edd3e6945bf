/** The single-producer single-consumer queue of src/thread.c, one atomic access at a time.
    Each thread has a program counter; the mutexes, the condition variables and the wrapping
    32-bit tickets are explicit.  `produced`, `consumed` and `released` record the history. */
module SpscQueue {
  import opened Bits

  /** A `void*` message pointer. */
  type Item = int

  /** Where the producer is inside `bio_spscq_produce` (lines 89-108). */
  datatype ProducerPc =
    | PIdle
    | PLoad(item: Item, wait: bool)  // atomic_load(count) == size ?
    | PLock(item: Item)              // mtx_lock(can_produce)
    | PCheck(item: Item)             // while (count == size)
    | PSleep(item: Item)             // about to enter cnd_wait, mutex held
    | PAsleep(item: Item)            // inside cnd_wait, mutex released
    | PWoken(item: Item)             // cnd_wait must re-acquire the mutex
    | PUnlock(item: Item)            // mtx_unlock(can_produce)
    | PClaim(item: Item)             // atomic_fetch_add(tail, 1)
    | PStore(item: Item, ticket: nat)// values[ticket & (size - 1)] = item
    | PPublish(item: Item)           // atomic_fetch_add(count, 1) == 0 ?
    | PRaiseLock                  // bio_thread_signal_raise(can_consume): lock
    | PRaiseSignal                //   cnd_signal
    | PRaiseUnlock                //   unlock

  /** Where the consumer is inside `bio_spscq_consume` (lines 110-129). */
  datatype ConsumerPc =
    | CIdle
    | CLoad(wait: bool)
    | CLock
    | CCheck
    | CSleep
    | CAsleep
    | CWoken
    | CUnlock
    | CClaim                      // atomic_fetch_add(head, 1)
    | CRead(ticket: nat)          // item = values[ticket & (size - 1)]
    | CRelease(got: Item)            // atomic_fetch_add(count, -1) == size ?
    | CRaiseLock
    | CRaiseSignal
    | CRaiseUnlock

  datatype Owner = Free | Producer | Consumer

  datatype Queue = Queue(
    logSize: nat,                 // size == 2^logSize
    count: int,
    head: nat,
    tail: nat,
    values: seq<Item>,
    canProduce: Owner,            // holder of can_produce.mtx
    canConsume: Owner,            // holder of can_consume.mtx
    producer: ProducerPc,
    consumer: ConsumerPc,
    produced: seq<Item>,             // items published, in order
    consumed: seq<Item>,             // items read out, in order
    released: nat                 // slots given back to the producer
  )
  {
    function Size(): nat { Pow2(logSize) }
  }

  ghost predicate Init(q: Queue) {
    && q.logSize <= 30
    && |q.values| == q.Size()
    && q.count == 0 && q.head == 0 && q.tail == 0
    && q.canProduce.Free? && q.canConsume.Free?
    && q.producer.PIdle? && q.consumer.CIdle?
    && q.produced == [] && q.consumed == [] && q.released == 0
  }

  // ----- steps -----

  ghost predicate ProducerStep(q: Queue, q': Queue) {
    match q.producer
    case PIdle => exists item, wait :: q' == q.(producer := PLoad(item, wait))
    case PLoad(item, wait) =>
      q' == q.(producer := if q.count == q.Size() then (if wait then PLock(item) else PIdle) else PClaim(item))
    case PLock(item) =>
      q.canProduce.Free? && q' == q.(canProduce := Producer, producer := PCheck(item))
    case PCheck(item) =>
      q' == q.(producer := if q.count == q.Size() then PSleep(item) else PUnlock(item))
    case PSleep(item) => q' == q.(canProduce := Free, producer := PAsleep(item))
    case PAsleep(item) => q' == q.(producer := PWoken(item))  // spurious wake-up
    case PWoken(item) =>
      q.canProduce.Free? && q' == q.(canProduce := Producer, producer := PCheck(item))
    case PUnlock(item) => q' == q.(canProduce := Free, producer := PClaim(item))
    case PClaim(item) => q' == q.(tail := (q.tail + 1) % U32, producer := PStore(item, q.tail))
    case PStore(item, ticket) =>
      && MaskIndex(ticket, q.Size()) < |q.values|
      && q' == q.(values := q.values[MaskIndex(ticket, q.Size()) := item], producer := PPublish(item))
    case PPublish(item) =>
      q' == q.(count := q.count + 1, produced := q.produced + [item],
               producer := if q.count == 0 then PRaiseLock else PIdle)
    case PRaiseLock =>
      q.canConsume.Free? && q' == q.(canConsume := Producer, producer := PRaiseSignal)
    case PRaiseSignal =>
      q' == q.(producer := PRaiseUnlock, consumer := if q.consumer.CAsleep? then CWoken else q.consumer)
    case PRaiseUnlock => q' == q.(canConsume := Free, producer := PIdle)
  }

  ghost predicate ConsumerStep(q: Queue, q': Queue) {
    match q.consumer
    case CIdle => exists wait :: q' == q.(consumer := CLoad(wait))
    case CLoad(wait) =>
      q' == q.(consumer := if q.count == 0 then (if wait then CLock else CIdle) else CClaim)
    case CLock =>
      q.canConsume.Free? && q' == q.(canConsume := Consumer, consumer := CCheck)
    case CCheck =>
      q' == q.(consumer := if q.count == 0 then CSleep else CUnlock)
    case CSleep => q' == q.(canConsume := Free, consumer := CAsleep)
    case CAsleep => q' == q.(consumer := CWoken)  // spurious wake-up
    case CWoken =>
      q.canConsume.Free? && q' == q.(canConsume := Consumer, consumer := CCheck)
    case CUnlock => q' == q.(canConsume := Free, consumer := CClaim)
    case CClaim => q' == q.(head := (q.head + 1) % U32, consumer := CRead(q.head))
    case CRead(ticket) =>
      && MaskIndex(ticket, q.Size()) < |q.values|
      && var item := q.values[MaskIndex(ticket, q.Size())];
         q' == q.(consumed := q.consumed + [item], consumer := CRelease(item))
    case CRelease(_) =>
      q' == q.(count := q.count - 1, released := q.released + 1,
               consumer := if q.count == q.Size() then CRaiseLock else CIdle)
    case CRaiseLock =>
      q.canProduce.Free? && q' == q.(canProduce := Consumer, consumer := CRaiseSignal)
    case CRaiseSignal =>
      q' == q.(consumer := CRaiseUnlock,
               producer := if q.producer.PAsleep? then PWoken(q.producer.item) else q.producer)
    case CRaiseUnlock => q' == q.(canProduce := Free, consumer := CIdle)
  }

  ghost predicate Step(q: Queue, q': Queue) {
    ProducerStep(q, q') || ConsumerStep(q, q')
  }

  /** A finite run: any interleaving of the two threads from an initial queue. */
  ghost predicate IsRun(run: seq<Queue>) {
    && |run| > 0 && Init(run[0])
    && forall i | 0 <= i < |run| - 1 :: Step(run[i], run[i + 1])
  }

  // ----- the inductive invariant -----

  /** Counting: what the shared counter means in terms of the history. */
  ghost predicate Numbers(q: Queue) {
    && q.logSize <= 30
    && |q.values| == q.Size()
    && q.released <= |q.produced|
    && q.count == |q.produced| - q.released <= q.Size()
    && |q.consumed| == q.released + (if q.consumer.CRelease? then 1 else 0)
    && (ProducerHasRoom(q.producer) ==> q.count < q.Size())
    && (ConsumerHasItem(q.consumer) ==> q.count > 0)
  }

  /** Tickets: `head` and `tail` are the true positions wrapped to 32 bits. */
  ghost predicate Tickets(q: Queue) {
    && (if q.producer.PStore? || q.producer.PPublish? then q.tail == (|q.produced| + 1) % U32
        else q.tail == |q.produced| % U32)
    && (if q.consumer.CRead? || q.consumer.CRelease? then q.head == (q.released + 1) % U32
        else q.head == q.released % U32)
    && (q.producer.PStore? ==> q.producer.ticket == |q.produced| % U32)
    && (q.consumer.CRead? ==> q.consumer.ticket == q.released % U32)
  }

  ghost predicate Counts(q: Queue) {
    Numbers(q) && Tickets(q)
  }

  predicate ProducerHasRoom(pc: ProducerPc) {
    pc.PUnlock? || pc.PClaim? || pc.PStore? || pc.PPublish?
  }

  predicate ConsumerHasItem(pc: ConsumerPc) {
    pc.CUnlock? || pc.CClaim? || pc.CRead? || pc.CRelease?
  }

  /** Contents: every published, unreleased item sits in the slot of its ticket. */
  ghost predicate Contents(q: Queue)
    requires Counts(q)
  {
    && (forall i | q.released <= i < |q.produced| :: q.values[Low(i, q.logSize)] == q.produced[i])
    && (q.producer.PPublish? ==> q.values[Low(|q.produced|, q.logSize)] == q.producer.item)
    && q.consumed <= q.produced
    && (q.consumer.CRelease? ==> q.consumer.got == q.produced[q.released])
  }

  /** Locking: a mutex is held by the thread whose program counter is inside its critical section. */
  ghost predicate Locks(q: Queue) {
    && (q.canProduce.Producer? <==> q.producer.PCheck? || q.producer.PSleep? || q.producer.PUnlock?)
    && (q.canProduce.Consumer? <==> q.consumer.CRaiseSignal? || q.consumer.CRaiseUnlock?)
    && (q.canConsume.Consumer? <==> q.consumer.CCheck? || q.consumer.CSleep? || q.consumer.CUnlock?)
    && (q.canConsume.Producer? <==> q.producer.PRaiseSignal? || q.producer.PRaiseUnlock?)
  }

  /** Wake-ups: a thread that sleeps, or has decided to, although it could go on
      is owed a signal that the other thread has not sent yet. */
  ghost predicate WakeUps(q: Queue) {
    && (q.consumer.CSleep? || q.consumer.CAsleep? ==>
          q.count == 0 || q.producer.PRaiseLock? || q.producer.PRaiseSignal?)
    && (q.producer.PSleep? || q.producer.PAsleep? ==>
          q.count == q.Size() || q.consumer.CRaiseLock? || q.consumer.CRaiseSignal?)
  }

  ghost predicate Inv(q: Queue) {
    Counts(q) && Contents(q) && Locks(q) && WakeUps(q)
  }

  lemma InitHolds(q: Queue)
    requires Init(q)
    ensures Inv(q)
  {
  }

  lemma ProducerKeepsNumbers(q: Queue, q': Queue)
    requires Numbers(q) && ProducerStep(q, q')
    ensures Numbers(q')
  {
  }

  lemma ConsumerKeepsNumbers(q: Queue, q': Queue)
    requires Numbers(q) && ConsumerStep(q, q')
    ensures Numbers(q')
  {
  }

  lemma StepKeepsNumbers(q: Queue, q': Queue)
    requires Numbers(q) && Step(q, q')
    ensures Numbers(q')
  {
    if ProducerStep(q, q') { ProducerKeepsNumbers(q, q'); } else { ConsumerKeepsNumbers(q, q'); }
  }

  lemma ProducerKeepsTickets(q: Queue, q': Queue)
    requires Tickets(q) && ProducerStep(q, q')
    ensures Tickets(q')
  {
  }

  lemma ConsumerKeepsTickets(q: Queue, q': Queue)
    requires Tickets(q) && ConsumerStep(q, q')
    ensures Tickets(q')
  {
  }

  lemma StepKeepsTickets(q: Queue, q': Queue)
    requires Tickets(q) && Step(q, q')
    ensures Tickets(q')
  {
    if ProducerStep(q, q') { ProducerKeepsTickets(q, q'); } else { ConsumerKeepsTickets(q, q'); }
  }

  lemma StoreKeepsContents(q: Queue, q': Queue)
    requires Counts(q) && Contents(q) && q.producer.PStore? && ProducerStep(q, q') && Counts(q')
    ensures Contents(q')
  {
    var n := |q.produced|;
    WrappedIndex(n, q.logSize);
    forall i | q.released <= i < n ensures Low(i, q.logSize) != Low(n, q.logSize) {
      LowDistinct(i, n, q.logSize);
    }
  }

  lemma ProducerKeepsContents(q: Queue, q': Queue)
    requires Counts(q) && Contents(q) && ProducerStep(q, q') && Counts(q')
    ensures Contents(q')
  {
    if q.producer.PStore? {
      StoreKeepsContents(q, q');
    } else if q.producer.PPublish? {
      assert q'.produced[..|q.produced|] == q.produced;
    } else {
      assert q'.produced == q.produced && q'.values == q.values;
    }
  }

  lemma ConsumerKeepsContents(q: Queue, q': Queue)
    requires Counts(q) && Contents(q) && ConsumerStep(q, q') && Counts(q')
    ensures Contents(q')
  {
    if q.consumer.CRead? { WrappedIndex(q.released, q.logSize); }
  }

  lemma ProducerKeepsLocks(q: Queue, q': Queue)
    requires Locks(q) && ProducerStep(q, q')
    ensures Locks(q')
  {
  }

  lemma ConsumerKeepsLocks(q: Queue, q': Queue)
    requires Locks(q) && ConsumerStep(q, q')
    ensures Locks(q')
  {
  }

  lemma StepKeepsLocks(q: Queue, q': Queue)
    requires Locks(q) && Step(q, q')
    ensures Locks(q')
  {
    if ProducerStep(q, q') { ProducerKeepsLocks(q, q'); } else { ConsumerKeepsLocks(q, q'); }
  }

  lemma StepKeepsWakeUps(q: Queue, q': Queue)
    requires Numbers(q) && Locks(q) && WakeUps(q) && Step(q, q')
    ensures WakeUps(q')
  {
  }

  lemma StepKeepsInv(q: Queue, q': Queue)
    requires Inv(q) && Step(q, q')
    ensures Inv(q')
  {
    StepKeepsNumbers(q, q');
    StepKeepsTickets(q, q');
    if ProducerStep(q, q') {
      ProducerKeepsContents(q, q');
    } else {
      ConsumerKeepsContents(q, q');
    }
    StepKeepsLocks(q, q');
    StepKeepsWakeUps(q, q');
  }

  lemma RunStep(run: seq<Queue>, i: nat)
    requires IsRun(run) && i + 1 < |run|
    ensures Step(run[i], run[i + 1])
  {
  }

  lemma {:induction false} RunKeepsInv(run: seq<Queue>, n: nat)
    requires IsRun(run) && n < |run|
    ensures Inv(run[n])
  {
    if n == 0 {
      InitHolds(run[0]);
    } else {
      RunKeepsInv(run, n - 1);
      RunStep(run, n - 1);
      StepKeepsInv(run[n - 1], run[n]);
    }
  }

  // ----- what holds at every point of every run -----

  /** Ring slots whose item the consumer has not finished reading. */
  ghost function UnreadSlots(q: Queue): set<nat>
    requires q.released <= |q.produced|
  {
    set i | q.released <= i < |q.produced| :: Low(i, q.logSize)
  }

  /** Queue safety over whole runs: the count stays in range, what came out is a prefix of what
      went in, the producer only ever stores into a slot nobody still needs, and the consumer only
      ever reads a published slot and gets the item published under that position. */
  lemma Safety(run: seq<Queue>, n: nat)
    requires IsRun(run) && n < |run|
    ensures var q := run[n];
      && 0 <= q.count <= q.Size()
      && q.consumed <= q.produced
      && q.released <= |q.produced|
      && (q.producer.PStore? ==>
            var slot := MaskIndex(q.producer.ticket, q.Size());
            slot < |q.values| && slot !in UnreadSlots(q))
      && (q.consumer.CRead? ==>
            var slot := MaskIndex(q.consumer.ticket, q.Size());
            && slot < |q.values| && slot in UnreadSlots(q)
            && |q.consumed| < |q.produced| && q.values[slot] == q.produced[|q.consumed|])
  {
    RunKeepsInv(run, n);
    var q := run[n];
    var next := |q.produced|;
    if q.producer.PStore? {
      WrappedIndex(next, q.logSize);
      forall i | q.released <= i < next ensures Low(i, q.logSize) != Low(next, q.logSize) {
        LowDistinct(i, next, q.logSize);
      }
    }
    if q.consumer.CRead? {
      WrappedIndex(q.released, q.logSize);
    }
  }

  /** The two threads never touch the same slot at the same time. */
  lemma NoDataRace(run: seq<Queue>, n: nat)
    requires IsRun(run) && n < |run|
    requires run[n].producer.PStore? && run[n].consumer.CRead?
    ensures MaskIndex(run[n].producer.ticket, run[n].Size()) != MaskIndex(run[n].consumer.ticket, run[n].Size())
  {
    Safety(run, n);
  }

  /** No lost wake-up: a sleeping consumer with items to take, or a sleeping producer with room,
      is always about to be signalled, and the two threads never sleep at the same time. */
  lemma NoLostWakeUp(run: seq<Queue>, n: nat)
    requires IsRun(run) && n < |run|
    ensures var q := run[n];
      && (q.consumer.CAsleep? && q.count > 0 ==> q.producer.PRaiseLock? || q.producer.PRaiseSignal?)
      && (q.producer.PAsleep? && q.count < q.Size() ==> q.consumer.CRaiseLock? || q.consumer.CRaiseSignal?)
      && !(q.consumer.CAsleep? && q.producer.PAsleep?)
  {
    RunKeepsInv(run, n);
  }

  /** A thread is stuck when none of its steps is enabled and no spurious wake-up rescues it. */
  predicate ProducerStuck(q: Queue) {
    || q.producer.PAsleep?
    || ((q.producer.PLock? || q.producer.PWoken?) && !q.canProduce.Free?)
    || (q.producer.PRaiseLock? && !q.canConsume.Free?)
  }

  predicate ConsumerStuck(q: Queue) {
    || q.consumer.CAsleep?
    || ((q.consumer.CLock? || q.consumer.CWoken?) && !q.canConsume.Free?)
    || (q.consumer.CRaiseLock? && !q.canProduce.Free?)
  }

  /** Deadlock freedom without relying on spurious wake-ups: at every point of every run one of
      the threads has a step that is not a spurious wake-up. */
  lemma NeverBothStuck(run: seq<Queue>, n: nat)
    requires IsRun(run) && n < |run|
    ensures !(ProducerStuck(run[n]) && ConsumerStuck(run[n]))
    ensures !ProducerStuck(run[n]) ==> exists q' :: ProducerStep(run[n], q') && !run[n].producer.PAsleep?
    ensures !ConsumerStuck(run[n]) ==> exists q' :: ConsumerStep(run[n], q') && !run[n].consumer.CAsleep?
  {
    RunKeepsInv(run, n);
    var q := run[n];
    WrappedIndex(|q.produced|, q.logSize);
    WrappedIndex(q.released, q.logSize);
    if !ProducerStuck(q) { ProducerCanStep(q); }
    if !ConsumerStuck(q) { ConsumerCanStep(q); }
  }

  lemma ProducerCanStep(q: Queue)
    requires Counts(q) && !ProducerStuck(q)
    ensures exists q' :: ProducerStep(q, q')
  {
    WrappedIndex(|q.produced|, q.logSize);
    match q.producer
    case PIdle =>
      var item := q.values[0];
      assert ProducerStep(q, q.(producer := PLoad(item, true)));
    case PLoad(item, wait) =>
      var next := if q.count == q.Size() then (if wait then PLock(item) else PIdle) else PClaim(item);
      assert ProducerStep(q, q.(producer := next));
    case PLock(item) => assert ProducerStep(q, q.(canProduce := Producer, producer := PCheck(item)));
    case PCheck(item) =>
      assert ProducerStep(q, q.(producer := if q.count == q.Size() then PSleep(item) else PUnlock(item)));
    case PSleep(item) => assert ProducerStep(q, q.(canProduce := Free, producer := PAsleep(item)));
    case PWoken(item) => assert ProducerStep(q, q.(canProduce := Producer, producer := PCheck(item)));
    case PUnlock(item) => assert ProducerStep(q, q.(canProduce := Free, producer := PClaim(item)));
    case PClaim(item) => assert ProducerStep(q, q.(tail := (q.tail + 1) % U32, producer := PStore(item, q.tail)));
    case PStore(item, ticket) =>
      assert ProducerStep(q, q.(values := q.values[MaskIndex(ticket, q.Size()) := item], producer := PPublish(item)));
    case PPublish(item) =>
      assert ProducerStep(q, q.(count := q.count + 1, produced := q.produced + [item],
                                producer := if q.count == 0 then PRaiseLock else PIdle));
    case PRaiseLock => assert ProducerStep(q, q.(canConsume := Producer, producer := PRaiseSignal));
    case PRaiseSignal =>
      var other := if q.consumer.CAsleep? then CWoken else q.consumer;
      assert ProducerStep(q, q.(producer := PRaiseUnlock, consumer := other));
    case PRaiseUnlock => assert ProducerStep(q, q.(canConsume := Free, producer := PIdle));
    case PAsleep(_) =>
  }

  lemma ConsumerCanStep(q: Queue)
    requires Counts(q) && !ConsumerStuck(q)
    ensures exists q' :: ConsumerStep(q, q')
  {
    WrappedIndex(q.released, q.logSize);
    match q.consumer
    case CIdle => assert ConsumerStep(q, q.(consumer := CLoad(true)));
    case CLoad(wait) =>
      assert ConsumerStep(q, q.(consumer := if q.count == 0 then (if wait then CLock else CIdle) else CClaim));
    case CLock => assert ConsumerStep(q, q.(canConsume := Consumer, consumer := CCheck));
    case CCheck => assert ConsumerStep(q, q.(consumer := if q.count == 0 then CSleep else CUnlock));
    case CSleep => assert ConsumerStep(q, q.(canConsume := Free, consumer := CAsleep));
    case CWoken => assert ConsumerStep(q, q.(canConsume := Consumer, consumer := CCheck));
    case CUnlock => assert ConsumerStep(q, q.(canConsume := Free, consumer := CClaim));
    case CClaim => assert ConsumerStep(q, q.(head := (q.head + 1) % U32, consumer := CRead(q.head)));
    case CRead(ticket) =>
      var item := q.values[MaskIndex(ticket, q.Size())];
      assert ConsumerStep(q, q.(consumed := q.consumed + [item], consumer := CRelease(item)));
    case CRelease(_) =>
      assert ConsumerStep(q, q.(count := q.count - 1, released := q.released + 1,
                                consumer := if q.count == q.Size() then CRaiseLock else CIdle));
    case CRaiseLock => assert ConsumerStep(q, q.(canProduce := Consumer, consumer := CRaiseSignal));
    case CRaiseSignal =>
      var other := if q.producer.PAsleep? then PWoken(q.producer.item) else q.producer;
      assert ConsumerStep(q, q.(consumer := CRaiseUnlock, producer := other));
    case CRaiseUnlock => assert ConsumerStep(q, q.(canProduce := Free, consumer := CIdle));
    case CAsleep =>
  }

  // ----- refinement: a bounded FIFO -----

  /** The abstract queue: published items whose slot has not been given back. */
  ghost function Fifo(q: Queue): seq<Item>
    requires q.released <= |q.produced|
  {
    q.produced[q.released..]
  }

  ghost predicate FifoPut(f: seq<Item>, f': seq<Item>, item: Item, size: nat) {
    |f| < size && f' == f + [item]
  }

  ghost predicate FifoTake(f: seq<Item>, f': seq<Item>, item: Item) {
    |f| > 0 && item == f[0] && f' == f[1..]
  }

  /** A producer step is invisible to the FIFO, except the increment of `count`. */
  ghost predicate ProducerRefines(q: Queue, q': Queue)
    requires Counts(q) && Counts(q')
  {
    && (q.producer.PPublish? ==> FifoPut(Fifo(q), Fifo(q'), q.producer.item, q.Size()))
    && (!q.producer.PPublish? ==> Fifo(q') == Fifo(q))
    && (q.producer.PLoad? ==>
          && (q'.producer.PIdle? <==> !q.producer.wait && |Fifo(q)| == q.Size())
          && (q'.producer.PLock? <==> q.producer.wait && |Fifo(q)| == q.Size()))
    && (q'.producer.PIdle? ==> q.producer.PLoad? || q.producer.PPublish? || q.producer.PRaiseUnlock?)
    && (forall item | Carries(q.producer, item) && !q'.producer.PIdle? && !q'.producer.PRaiseLock? ::
          Carries(q'.producer, item))
  }

  /** The call that the producer is in is to put `item`. */
  predicate Carries(pc: ProducerPc, item: Item) {
    match pc
    case PLoad(i, _) => i == item
    case PLock(i) => i == item
    case PCheck(i) => i == item
    case PSleep(i) => i == item
    case PAsleep(i) => i == item
    case PWoken(i) => i == item
    case PUnlock(i) => i == item
    case PClaim(i) => i == item
    case PStore(i, _) => i == item
    case PPublish(i) => i == item
    case _ => false
  }

  /** A consumer step is invisible to the FIFO, except the decrement of `count`. */
  ghost predicate ConsumerRefines(q: Queue, q': Queue)
    requires Counts(q) && Counts(q')
  {
    && (q.consumer.CRelease? ==> FifoTake(Fifo(q), Fifo(q'), q.consumer.got))
    && (!q.consumer.CRelease? ==> Fifo(q') == Fifo(q))
    && (q.consumer.CLoad? ==>
          && (q'.consumer.CIdle? <==> !q.consumer.wait && Fifo(q) == [])
          && (q'.consumer.CLock? <==> q.consumer.wait && Fifo(q) == []))
    && (q'.consumer.CIdle? ==> q.consumer.CLoad? || q.consumer.CRelease? || q.consumer.CRaiseUnlock?)
  }

  lemma ProducerStepRefines(q: Queue, q': Queue)
    requires Inv(q) && Inv(q') && ProducerStep(q, q')
    ensures ProducerRefines(q, q')
  {
    if q.producer.PPublish? {
      assert Fifo(q') == Fifo(q) + [q.producer.item];
    } else {
      assert q'.produced == q.produced && q'.released == q.released;
    }
  }

  lemma ConsumerStepRefines(q: Queue, q': Queue)
    requires Inv(q) && Inv(q') && ConsumerStep(q, q')
    ensures ConsumerRefines(q, q')
  {
    if q.consumer.CRelease? {
      assert Fifo(q)[0] == q.consumer.got;
      assert Fifo(q') == Fifo(q)[1..];
    } else {
      assert q'.produced == q.produced && q'.released == q.released;
    }
  }

  /** The concurrent queue implements a bounded FIFO.  In every run each atomic step leaves the
      FIFO alone, except the producer's increment of `count`, which appends the producer's item to
      a queue that has room, and the consumer's decrement, which removes the front item, the very
      one the consumer returns.  A call gives up exactly if it finds the FIFO full (producer) or empty
      (consumer) and was asked not to wait, it goes to sleep over that exactly if it was asked to, and
      otherwise it ends no earlier than with its own item put, or one taken. */
  lemma StepRefinesFifo(run: seq<Queue>, n: nat)
    requires IsRun(run) && n + 1 < |run|
    ensures Counts(run[n]) && Counts(run[n + 1])
    ensures || (ProducerStep(run[n], run[n + 1]) && ProducerRefines(run[n], run[n + 1]))
            || (ConsumerStep(run[n], run[n + 1]) && ConsumerRefines(run[n], run[n + 1]))
  {
    RunKeepsInv(run, n);
    RunKeepsInv(run, n + 1);
    RunStep(run, n);
    if ProducerStep(run[n], run[n + 1]) {
      ProducerStepRefines(run[n], run[n + 1]);
    } else {
      ConsumerStepRefines(run[n], run[n + 1]);
    }
  }
}
