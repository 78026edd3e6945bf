/** `bio__service_call` as it is written, on the scheduler object and the mailbox ring: a coroutine body,
    cut where it gives up control. */
module ServiceCaller {
  import opened Coroutines
  import opened SchedulerProofs
  import Scheduler
  import opened ServiceCode
  import opened Wrappers
  import A = ServiceCall
  import Mailbox

  // ----- no operation of the call leaves dangling pointers -----

  lemma RaiseLinked(s: State, g: Id)
    requires Scheduler.Linked(s)
    ensures Scheduler.Linked(RaiseSignal(s, g).0) && RaiseSignal(s, g).0.running == s.running
  {
  }

  lemma UnmonitorLinked(s: State, m: Id)
    requires Scheduler.Linked(s)
    ensures Scheduler.Linked(Unmonitor(s, m)) && Unmonitor(s, m).running == s.running
  {
  }

  lemma MakeLinked(s: State, c: Id)
    requires Scheduler.Linked(s) && c in s.coros
    ensures Scheduler.Linked(MakeSignal(s, c).0) && MakeSignal(s, c).0.running == s.running
    ensures c in MakeSignal(s, c).0.coros
  {
  }

  lemma MonitorLinked(s: State, t: Id, g: Id)
    requires Scheduler.Linked(s)
    ensures Scheduler.Linked(MonitorCoro(s, t, g).0) && MonitorCoro(s, t, g).0.running == s.running
  {
    RaiseLinked(s, g);
  }

  lemma WaitLinked(s: State, c: Id, gs: seq<Id>)
    requires Scheduler.Linked(s) && s.running == Some(c)
    ensures var s' := WaitForSignals(s, c, gs, false);
      Scheduler.Linked(s') && s'.running == if MustWait(s, c, gs, false) then None else Some(c)
  {
    WaitFrame(s, c, gs, false);
    MarkFrame(s, c, gs, s.coros[c].epoch + 1);
  }

  class Caller {
    const call: Call
    const loop: Scheduler.EventLoop
    const ring: Mailbox.Ring
    var open: bool          // whether the mailbox handle resolves
    var pc: Pc
    var ack: Id
    var mon: Id
    var monitor: Id
    ghost var held: nat
    ghost var responding: bool
    ghost var enqueued: nat
    ghost var begun: nat
    ghost var inTime: bool

    ghost function View(): World
      reads this, loop, ring, ring.data
      requires ring.Valid()
    {
      World(loop.Model(), if open then Some(ring.View()) else None, pc, ack, mon, monitor,
            held, responding, enqueued, begun, inTime)
    }

    /** The calling coroutine runs. */
    ghost predicate Ready()
      reads loop, ring
    {
      ring.Valid() && loop.Safe() && loop.running == Some(call.caller)
    }

    constructor (call: Call, loop: Scheduler.EventLoop, ring: Mailbox.Ring)
      requires ring.Valid()
      ensures this.call == call && this.loop == loop && this.ring == ring
      ensures View() == World(loop.Model(), Some(ring.View()), NotCalled, INVALID, INVALID, INVALID,
                              0, false, 0, 0, false)
    {
      this.call := call;
      this.loop := loop;
      this.ring := ring;
      open := true;
      pc := NotCalled;
      ack, mon, monitor := INVALID, INVALID, INVALID;
      held, responding, enqueued, begun, inTime := 0, false, 0, 0, false;
    }

    /** From the wait to the return. */
    method Conclude() returns (status: A.Status)
      requires Ready() && ack != INVALID
      modifies this`pc, loop
      ensures ring.Valid() && View() == Finish(call, old(View())) && pc == Returned(status)
    {
      var answered := loop.CheckSignal(ack);
      var cancelled := loop.CheckSignal(call.cancel);
      if answered {
        status := A.Ok;
      } else if call.cancel != INVALID && cancelled {
        status := A.Cancelled;
      } else {
        status := A.TargetDead;
      }
      UnmonitorLinked(loop.Model(), monitor);
      loop.Unmonitor(monitor);
      RaiseLinked(loop.Model(), mon);
      var _ := loop.RaiseSignal(mon);
      var _ := loop.RaiseSignal(ack);
      pc := Returned(status);
    }

    /** The wait: the coroutine is suspended, or goes on to return. */
    method Await()
      requires Ready() && ack != INVALID && pc == Sending
      modifies this`pc, loop
      ensures ring.Valid() && View() == AwaitReply(call, old(View()))
    {
      ghost var s := loop.Model();
      var signals := [ack, mon, call.cancel];
      WaitLinked(s, call.caller, signals);
      loop.WaitForSignals(signals, false);
      if loop.running.None? {
        pc := Pc.Waiting;
      } else {
        var _ := Conclude();
      }
    }

    /** A turn of the retry loop. */
    method TryToSend()
      requires Ready() && ack != INVALID && mon != INVALID && pc == Sending
      modifies this`pc, this`enqueued, loop, ring, ring.data
      ensures ring.Valid() && View() == Try(call, old(View()))
    {
      ghost var before := View();
      var cancelled := loop.CheckSignal(call.cancel);
      var dead := loop.CheckSignal(mon);
      if (call.cancel != INVALID && cancelled) || dead {
        Await();
        return;
      }
      if open {
        var sent, parked := ring.Send(call.message);
        if sent {
          RaiseLinked(loop.Model(), parked);
          var _ := loop.RaiseSignal(parked);
          enqueued := enqueued + 1;
          assert View() == Put(call, before);
          Await();
          return;
        }
        assert View() == before;
      }
      loop.Suspend();
    }

    /** The call's signals and its monitor. */
    method MakeSignals()
      requires Ready() && loop.nextId > 0
      modifies this, loop
      ensures Ready() && call.caller in old(loop.coros) && View() == Prepare(call, old(View()))
      ensures ack != INVALID && mon != INVALID && pc == Sending
    {
      MakeLinked(loop.Model(), call.caller);
      ack := loop.MakeSignal();
      MakeLinked(loop.Model(), call.caller);
      mon := loop.MakeSignal();
      MonitorLinked(loop.Model(), call.service, mon);
      monitor := loop.Monitor(call.service, mon);
      pc := Sending;
    }

    /** The call, up to where it first gives up control. */
    method StartCall()
      requires Ready() && loop.nextId > 0 && pc == NotCalled
      modifies this, loop, ring, ring.data
      ensures ring.Valid() && call.caller in old(loop.coros) && View() == Start(call, old(View()))
    {
      if call.service !in loop.coros {
        pc := Returned(A.TargetDead);
        return;
      }
      MakeSignals();
      TryToSend();
    }

    /** The resumed coroutine goes on with the call. */
    method Resumed()
      requires Ready() && (pc.Sending? || pc.Waiting?) && ack != INVALID && mon != INVALID
      modifies this, loop, ring, ring.data
      ensures ring.Valid() && View() == GoOn(call, old(View()))
    {
      if pc == Sending {
        TryToSend();
      } else {
        var _ := Conclude();
      }
    }
  }
}
