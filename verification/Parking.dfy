/** Many coroutines sending to, receiving from, opening and closing mailboxes in any interleaving:
    who sleeps on which mailbox, and when a receive fails. */
module Parking {
  import opened Mailbox
  import opened Wrappers

  /** A coroutine suspended inside a receive. */
  datatype Wait = Wait(box: Id, signal: Id)

  /** A receive that returned false; `open` tells whether its mailbox was open at that moment. */
  datatype Failure = Failure(coro: Id, box: Id, open: bool)

  /** `boxes` are the open mailboxes. `sent`, `got` and `failures` are history, by mailbox. */
  datatype State = State(
    boxes: map<Id, Box>, waiting: map<Id, Wait>, raised: set<Id>, nextId: Id,
    sent: map<Id, seq<Message>>, got: map<Id, seq<Message>>, failures: seq<Failure>)

  const START := State(map[], map[], {}, 1, map[], map[], [])

  datatype Action =
    | Open(capacity: nat)
    | Close(box: Id)
    | Send(box: Id, message: Message)
    | Begin(coro: Id, box: Id)   // a receive, up to its wait
    | Resume(coro: Id)           // the rest of it, once its signal was raised
    | Pass(nextId: Id)           // handles are made for other things

  predicate Enabled(s: State, a: Action) {
    match a
    case Begin(c, _) => c !in s.waiting
    case Resume(c) => c in s.waiting && s.waiting[c].signal in s.raised
    case Open(_) => true
    case Close(_) => true
    case Send(_, _) => true
    case Pass(n) => n >= s.nextId
  }

  function Raise(s: State, signal: Id): State {
    if signal == INVALID then s else s.(raised := s.raised + {signal})
  }

  function Fail(s: State, c: Id, h: Id): State {
    s.(failures := s.failures + [Failure(c, h, h in s.boxes)])
  }

  function Log(m: map<Id, seq<Message>>, h: Id, x: Message): map<Id, seq<Message>> {
    m[h := (if h in m then m[h] else []) + [x]]
  }

  function DoOpen(s: State, capacity: nat): State {
    s.(boxes := s.boxes[s.nextId := Box(capacity, [], INVALID)], nextId := s.nextId + 1,
       sent := s.sent[s.nextId := []], got := s.got[s.nextId := []])
  }

  function DoClose(s: State, h: Id): State {
    if h in s.boxes then Raise(s.(boxes := s.boxes - {h}), s.boxes[h].signal) else s
  }

  function DoSend(s: State, h: Id, m: Message): State {
    if h !in s.boxes || !Sent(s.boxes[h], m).sent then s
    else
      var r := Sent(s.boxes[h], m);
      Raise(s.(boxes := s.boxes[h := r.box], sent := Log(s.sent, h, m)), r.raised)
  }

  function DoBegin(s: State, c: Id, h: Id): State {
    if h !in s.boxes then Fail(s, c, h)
    else
      var r := BeginReceive(s.boxes[h], s.nextId);
      match r.1
      case Took(m) => s.(boxes := s.boxes[h := r.0], got := Log(s.got, h, m))
      case Parked =>
        s.(boxes := s.boxes[h := r.0], waiting := s.waiting[c := Wait(h, s.nextId)], nextId := s.nextId + 1)
      case Refused => Fail(s, c, h)
  }

  function DoResume(s: State, c: Id): State
    requires c in s.waiting
  {
    var h := s.waiting[c].box;
    var awake := s.(waiting := s.waiting - {c});
    if h !in s.boxes then Fail(awake, c, h)
    else
      match Take(s.boxes[h]).1
      case None => Fail(awake, c, h)
      case Some(m) => awake.(boxes := s.boxes[h := Take(s.boxes[h]).0], got := Log(s.got, h, m))
  }

  function Apply(s: State, a: Action): State
    requires Enabled(s, a)
  {
    match a
    case Open(capacity) => DoOpen(s, capacity)
    case Close(h) => DoClose(s, h)
    case Send(h, m) => DoSend(s, h, m)
    case Begin(c, h) => DoBegin(s, c, h)
    case Resume(c) => DoResume(s, c)
    case Pass(n) => s.(nextId := n)
  }

  ghost predicate IsRun(actions: seq<Action>, states: seq<State>) {
    && |states| == |actions| + 1 && states[0] == START
    && forall i | 0 <= i < |actions| :: Enabled(states[i], actions[i]) && states[i + 1] == Apply(states[i], actions[i])
  }

  // ----- who sleeps where -----

  ghost predicate Known(s: State) {
    && s.nextId > 0
    && (forall h | h in s.boxes :: h < s.nextId && s.boxes[h].signal < s.nextId)
    && (forall c | c in s.waiting :: 0 < s.waiting[c].signal < s.nextId && s.waiting[c].box < s.nextId)
    && (forall x | x in s.raised :: x < s.nextId)
  }

  ghost predicate Distinct(s: State) {
    forall c, d | c in s.waiting && d in s.waiting && c != d :: s.waiting[c].signal != s.waiting[d].signal
  }

  /** Coroutine `c` is asleep on mailbox `h`: in the mailbox's own signal, not raised yet. */
  ghost predicate AsleepOn(s: State, c: Id, h: Id) {
    c in s.waiting && s.waiting[c].box == h && s.waiting[c].signal !in s.raised
  }

  ghost predicate Holder(s: State, h: Id, c: Id)
    requires h in s.boxes
  {
    c in s.waiting && s.waiting[c] == Wait(h, s.boxes[h].signal)
  }

  ghost predicate Stored(s: State) {
    forall h | h in s.boxes && s.boxes[h].signal != INVALID ::
      && s.boxes[h].queue == [] && s.boxes[h].signal !in s.raised
      && exists c :: Holder(s, h, c)
  }

  ghost predicate Sleepers(s: State) {
    forall c | c in s.waiting && s.waiting[c].signal !in s.raised ::
      s.waiting[c].box in s.boxes && s.boxes[s.waiting[c].box].signal == s.waiting[c].signal
  }

  ghost predicate Inv(s: State) {
    Known(s) && Distinct(s) && Stored(s) && Sleepers(s)
  }

  lemma OpenKeepsInv(s: State, capacity: nat)
    requires Inv(s)
    ensures Inv(DoOpen(s, capacity))
  {
    var t := DoOpen(s, capacity);
    forall h | h in t.boxes && t.boxes[h].signal != INVALID
      ensures exists c :: Holder(t, h, c)
    {
      var c :| Holder(s, h, c);
      assert Holder(t, h, c);
    }
  }

  /** A raise of the one signal stored in a mailbox, which no longer stores it, wakes its one sleeper. */
  lemma RaiseKeepsStored(s: State, t: State, h: Id)
    requires Inv(s) && h in s.boxes && t.waiting == s.waiting
    requires t.raised == if s.boxes[h].signal == INVALID then s.raised else s.raised + {s.boxes[h].signal}
    requires forall k | k in t.boxes :: k in s.boxes && (k != h ==> t.boxes[k] == s.boxes[k])
    requires h in t.boxes ==> t.boxes[h].signal == INVALID
    ensures Stored(t)
  {
    forall k | k in t.boxes && t.boxes[k].signal != INVALID
      ensures t.boxes[k].queue == [] && t.boxes[k].signal !in t.raised && exists c :: Holder(t, k, c)
    {
      var c :| Holder(s, k, c);
      assert Holder(t, k, c);
      if s.boxes[h].signal != INVALID {
        var d :| Holder(s, h, d);
        assert c != d;
      }
    }
  }

  lemma RaiseKeepsSleepers(s: State, t: State, h: Id)
    requires Inv(s) && h in s.boxes && t.waiting == s.waiting
    requires t.raised == if s.boxes[h].signal == INVALID then s.raised else s.raised + {s.boxes[h].signal}
    requires forall k | k in s.boxes && k != h :: k in t.boxes && t.boxes[k] == s.boxes[k]
    ensures Sleepers(t)
  {
    forall c | c in t.waiting && t.waiting[c].signal !in t.raised
      ensures t.waiting[c].box in t.boxes && t.boxes[t.waiting[c].box].signal == t.waiting[c].signal
    {
      assert s.waiting[c].signal !in s.raised;
      assert s.boxes[s.waiting[c].box].signal == s.waiting[c].signal;
    }
  }

  lemma CloseKeepsInv(s: State, h: Id)
    requires Inv(s)
    ensures Inv(DoClose(s, h))
  {
    if h in s.boxes {
      RaiseKeepsStored(s, DoClose(s, h), h);
      RaiseKeepsSleepers(s, DoClose(s, h), h);
    }
  }

  lemma SendKeepsInv(s: State, h: Id, m: Message)
    requires Inv(s)
    ensures Inv(DoSend(s, h, m))
  {
    if h in s.boxes && |s.boxes[h].queue| < s.boxes[h].capacity {
      RaiseKeepsStored(s, DoSend(s, h, m), h);
      RaiseKeepsSleepers(s, DoSend(s, h, m), h);
    }
  }

  lemma ParkKeepsStored(s: State, c: Id, h: Id)
    requires Inv(s) && c !in s.waiting && h in s.boxes && s.boxes[h].queue == [] && s.boxes[h].signal == INVALID
    ensures Stored(DoBegin(s, c, h))
  {
    var t := DoBegin(s, c, h);
    forall k | k in t.boxes && t.boxes[k].signal != INVALID
      ensures t.boxes[k].queue == [] && t.boxes[k].signal !in t.raised && exists d :: Holder(t, k, d)
    {
      if k == h {
        assert Holder(t, h, c);
      } else {
        var d :| Holder(s, k, d);
        assert Holder(t, k, d);
      }
    }
  }

  lemma ParkKeepsInv(s: State, c: Id, h: Id)
    requires Inv(s) && c !in s.waiting && h in s.boxes && s.boxes[h].queue == [] && s.boxes[h].signal == INVALID
    ensures Inv(DoBegin(s, c, h))
  {
    ParkKeepsStored(s, c, h);
  }

  lemma TakeKeepsStored(s: State, c: Id, h: Id)
    requires Inv(s) && c !in s.waiting && h in s.boxes && s.boxes[h].queue != []
    ensures Stored(DoBegin(s, c, h))
  {
    var t := DoBegin(s, c, h);
    forall k | k in t.boxes && t.boxes[k].signal != INVALID
      ensures t.boxes[k].queue == [] && t.boxes[k].signal !in t.raised && exists d :: Holder(t, k, d)
    {
      var d :| Holder(s, k, d);
      assert Holder(t, k, d);
    }
  }

  lemma FailKeepsInv(s: State, c: Id, h: Id)
    requires Inv(s)
    ensures Inv(Fail(s, c, h))
  {
    var t := Fail(s, c, h);
    forall k | k in t.boxes && t.boxes[k].signal != INVALID
      ensures exists d :: Holder(t, k, d)
    {
      var d :| Holder(s, k, d);
      assert Holder(t, k, d);
    }
  }

  lemma BeginKeepsInv(s: State, c: Id, h: Id)
    requires Inv(s) && c !in s.waiting
    ensures Inv(DoBegin(s, c, h))
  {
    if h !in s.boxes || (s.boxes[h].queue == [] && s.boxes[h].signal != INVALID) {
      FailKeepsInv(s, c, h);
    } else if s.boxes[h].queue != [] {
      TakeKeepsStored(s, c, h);
    } else {
      ParkKeepsInv(s, c, h);
    }
  }

  lemma ResumeKeepsInv(s: State, c: Id)
    requires Inv(s) && c in s.waiting && s.waiting[c].signal in s.raised
    ensures Inv(DoResume(s, c))
  {
    var t := DoResume(s, c);
    forall k | k in t.boxes && t.boxes[k].signal != INVALID
      ensures t.boxes[k].queue == [] && t.boxes[k].signal !in t.raised && exists d :: Holder(t, k, d)
    {
      var d :| Holder(s, k, d);
      assert d != c;
      assert Holder(t, k, d);
    }
  }

  lemma PassKeepsInv(s: State, n: Id)
    requires Inv(s) && n >= s.nextId
    ensures Inv(s.(nextId := n))
  {
    var t := s.(nextId := n);
    forall k | k in t.boxes && t.boxes[k].signal != INVALID
      ensures exists d :: Holder(t, k, d)
    {
      var d :| Holder(s, k, d);
      assert Holder(t, k, d);
    }
  }

  lemma StepKeepsInv(s: State, a: Action)
    requires Inv(s) && Enabled(s, a)
    ensures Inv(Apply(s, a))
  {
    match a
    case Open(capacity) => OpenKeepsInv(s, capacity);
    case Close(h) => CloseKeepsInv(s, h);
    case Send(h, m) => SendKeepsInv(s, h, m);
    case Begin(c, h) => BeginKeepsInv(s, c, h);
    case Resume(c) => ResumeKeepsInv(s, c);
    case Pass(n) => PassKeepsInv(s, n);
  }

  lemma {:induction false} RunKeepsInv(actions: seq<Action>, states: seq<State>, n: nat)
    requires IsRun(actions, states) && n < |states|
    ensures Inv(states[n])
  {
    if n > 0 {
      RunKeepsInv(actions, states, n - 1);
      StepKeepsInv(states[n - 1], actions[n - 1]);
    }
  }

  /** In every reachable state a mailbox stores a signal exactly when one coroutine, and only one,
      sleeps on it; the mailbox is open and empty then, so nobody sleeps on messages. */
  lemma ParkingIsExact(actions: seq<Action>, states: seq<State>, n: nat, c: Id, h: Id)
    requires IsRun(actions, states) && n < |states|
    ensures AsleepOn(states[n], c, h) ==>
      && h in states[n].boxes && states[n].boxes[h].queue == []
      && states[n].boxes[h].signal == states[n].waiting[c].signal
      && forall d | AsleepOn(states[n], d, h) :: d == c
    ensures h in states[n].boxes && states[n].boxes[h].signal != INVALID ==> exists d :: AsleepOn(states[n], d, h)
  {
    var s := states[n];
    RunKeepsInv(actions, states, n);
    if h in s.boxes && s.boxes[h].signal != INVALID {
      var d :| Holder(s, h, d);
      assert AsleepOn(s, d, h);
    }
  }

  // ----- what is delivered -----

  ghost predicate Fifo(s: State, h: Id) {
    && (h in s.boxes ==>
      && |s.boxes[h].queue| <= s.boxes[h].capacity
      && h in s.sent && h in s.got && s.sent[h] == s.got[h] + s.boxes[h].queue)
    && (h in s.got ==> h in s.sent && s.got[h] <= s.sent[h])
    && (h in s.sent ==> h in s.got)
  }

  lemma TakeKeepsFifo(s: State, h: Id, t: State)
    requires h in s.boxes && s.boxes[h].queue != [] && Fifo(s, h)
    requires t.boxes == s.boxes[h := Take(s.boxes[h]).0]
    requires t.sent == s.sent && t.got == Log(s.got, h, s.boxes[h].queue[0])
    ensures Fifo(t, h)
  {
    var q := s.boxes[h].queue;
    assert s.got[h] + q == s.got[h] + [q[0]] + q[1..];
  }

  lemma SendKeepsFifo(s: State, k: Id, m: Message, h: Id)
    requires Fifo(s, h)
    ensures Fifo(DoSend(s, k, m), h)
  {
    if k == h && h in s.boxes && |s.boxes[h].queue| < s.boxes[h].capacity {
      assert s.got[h] + s.boxes[h].queue + [m] == s.got[h] + (s.boxes[h].queue + [m]);
    }
  }

  lemma BeginKeepsFifo(s: State, c: Id, k: Id, h: Id)
    requires Fifo(s, h)
    ensures Fifo(DoBegin(s, c, k), h)
  {
    if k == h && h in s.boxes && s.boxes[h].queue != [] { TakeKeepsFifo(s, h, DoBegin(s, c, k)); }
  }

  lemma ResumeKeepsFifo(s: State, c: Id, h: Id)
    requires Fifo(s, h) && c in s.waiting
    ensures Fifo(DoResume(s, c), h)
  {
    if s.waiting[c].box == h && h in s.boxes && s.boxes[h].queue != [] { TakeKeepsFifo(s, h, DoResume(s, c)); }
  }

  lemma StepKeepsFifo(s: State, a: Action, h: Id)
    requires Known(s) && Enabled(s, a) && Fifo(s, h)
    ensures Fifo(Apply(s, a), h)
  {
    match a
    case Open(capacity) =>
    case Close(k) =>
    case Send(k, m) => SendKeepsFifo(s, k, m, h);
    case Begin(c, k) => BeginKeepsFifo(s, c, k, h);
    case Resume(c) => ResumeKeepsFifo(s, c, h);
    case Pass(n) =>
  }

  /** Whatever the interleaving and however many receivers: the messages received from a mailbox are
      those accepted by it, each once and in order, up to the at most `capacity` still queued; a
      mailbox that was closed has delivered a prefix. */
  lemma {:induction false} RunIsFifo(actions: seq<Action>, states: seq<State>, n: nat, h: Id)
    requires IsRun(actions, states) && n < |states|
    ensures Fifo(states[n], h)
  {
    if n > 0 {
      RunIsFifo(actions, states, n - 1, h);
      RunKeepsInv(actions, states, n - 1);
      StepKeepsFifo(states[n - 1], actions[n - 1], h);
    }
  }

  // ----- when a send succeeds -----

  /** The mailbox opened at step `i` is open until it is closed by name, and keeps its capacity. */
  lemma {:induction false} OpenUntilClosed(actions: seq<Action>, states: seq<State>, i: nat, n: nat)
    requires IsRun(actions, states) && i < n < |states| && actions[i].Open?
    ensures var h := states[i].nextId;
      && h < states[n].nextId
      && (h in states[n].boxes <==> forall j | i < j < n :: actions[j] != Close(h))
      && (h in states[n].boxes ==> states[n].boxes[h].capacity == actions[i].capacity)
    decreases n
  {
    assert Enabled(states[n - 1], actions[n - 1]) && states[n] == Apply(states[n - 1], actions[n - 1]);
    if i + 1 < n {
      OpenUntilClosed(actions, states, i, n - 1);
      StepKeepsOpen(states[n - 1], actions[n - 1], states[i].nextId);
    }
  }

  lemma StepKeepsOpen(s: State, a: Action, h: Id)
    requires Enabled(s, a) && h < s.nextId
    ensures var t := Apply(s, a);
      && h < t.nextId && (h in t.boxes <==> h in s.boxes && a != Close(h))
      && (h in t.boxes ==> t.boxes[h].capacity == s.boxes[h].capacity)
  {
  }

  /** A send is accepted exactly if the mailbox is open and fewer of its messages than the capacity asked for are
      accepted and not yet received; otherwise it changes nothing. */
  lemma SendAcceptsIff(actions: seq<Action>, states: seq<State>, i: nat, n: nat, m: Message)
    requires IsRun(actions, states) && i < n < |states| && actions[i].Open?
    ensures var s, h := states[n], states[i].nextId;
      && h in s.sent && h in s.got && |s.got[h]| <= |s.sent[h]|
      && var t := Apply(s, Send(h, m));
         if (forall j | i < j < n :: actions[j] != Close(h)) && |s.sent[h]| - |s.got[h]| < actions[i].capacity
         then h in s.boxes && Sent(s.boxes[h], m).sent && t.sent == s.sent[h := s.sent[h] + [m]]
         else t == s && (h in s.boxes ==> !Sent(s.boxes[h], m).sent)
  {
    var s, h := states[n], states[i].nextId;
    OpenUntilClosed(actions, states, i, n);
    RunIsFifo(actions, states, n, h);
    OpenedIsLogged(actions, states, i, n);
  }

  lemma {:induction false} OpenedIsLogged(actions: seq<Action>, states: seq<State>, i: nat, n: nat)
    requires IsRun(actions, states) && i < n < |states| && actions[i].Open?
    ensures states[i].nextId in states[n].sent && states[i].nextId in states[n].got
    decreases n
  {
    assert Enabled(states[n - 1], actions[n - 1]) && states[n] == Apply(states[n - 1], actions[n - 1]);
    if i + 1 < n { OpenedIsLogged(actions, states, i, n - 1); }
  }

  // ----- when a receive fails -----

  /** On an open mailbox a receive fails at once exactly when it is empty and somebody sleeps on it. */
  lemma RefusedIff(actions: seq<Action>, states: seq<State>, n: nat, c: Id, h: Id)
    requires IsRun(actions, states) && n < |states|
    requires c !in states[n].waiting && h in states[n].boxes
    ensures Apply(states[n], Begin(c, h)).failures == states[n].failures + [Failure(c, h, true)]
      <==> states[n].boxes[h].queue == [] && exists d :: AsleepOn(states[n], d, h)
  {
    var s := states[n];
    RunKeepsInv(actions, states, n);
    if s.boxes[h].signal != INVALID {
      var d :| Holder(s, h, d);
      assert AsleepOn(s, d, h);
    }
  }

  /** A receive that wakes on an open mailbox fails exactly when other receivers have taken everything
      that was accepted. */
  lemma RobbedIff(actions: seq<Action>, states: seq<State>, n: nat, c: Id)
    requires IsRun(actions, states) && n < |states| && Enabled(states[n], Resume(c))
    requires states[n].waiting[c].box in states[n].boxes
    ensures var s, h := states[n], states[n].waiting[c].box;
      && h in s.sent && h in s.got
      && (DoResume(s, c).failures == s.failures + [Failure(c, h, true)] <==> s.got[h] == s.sent[h])
  {
    var s, h := states[n], states[n].waiting[c].box;
    RunIsFifo(actions, states, n, h);
    if s.boxes[h].queue == [] { assert s.got[h] + [] == s.got[h]; }
    else { assert |s.sent[h]| > |s.got[h]|; }
  }

  /** Nobody is inside a receive on `h`. */
  ghost predicate Unused(s: State, h: Id) {
    forall c | c in s.waiting :: s.waiting[c].box != h
  }

  ghost predicate OneReceiver(actions: seq<Action>, states: seq<State>, h: Id)
    requires |states| == |actions| + 1
  {
    forall i | 0 <= i < |actions| && actions[i].Begin? && actions[i].box == h :: Unused(states[i], h)
  }

  ghost predicate Served(s: State, h: Id) {
    && (forall c, d | c in s.waiting && d in s.waiting && s.waiting[c].box == h == s.waiting[d].box :: c == d)
    && (forall c | c in s.waiting && s.waiting[c].box == h && s.waiting[c].signal in s.raised && h in s.boxes ::
          s.boxes[h].queue != [])
    && (forall f | f in s.failures && f.box == h :: !f.open)
  }

  lemma StepKeepsServed(s: State, a: Action, h: Id)
    requires Inv(s) && Enabled(s, a) && Served(s, h)
    requires a.Begin? && a.box == h ==> Unused(s, h)
    ensures Served(Apply(s, a), h)
  {
    match a
    case Open(capacity) =>
    case Close(k) => CloseKeepsServed(s, k, h);
    case Send(k, m) => SendKeepsServed(s, k, m, h);
    case Begin(c, k) => BeginKeepsServed(s, c, k, h);
    case Resume(c) => ResumeKeepsServed(s, c, h);
    case Pass(n) =>
  }

  lemma CloseKeepsServed(s: State, k: Id, h: Id)
    requires Inv(s) && Served(s, h)
    ensures Served(DoClose(s, k), h)
  {
    if k in s.boxes && s.boxes[k].signal != INVALID {
      var d :| Holder(s, k, d);
    }
  }

  lemma SendKeepsServed(s: State, k: Id, m: Message, h: Id)
    requires Inv(s) && Served(s, h)
    ensures Served(DoSend(s, k, m), h)
  {
    if k in s.boxes && s.boxes[k].signal != INVALID {
      var d :| Holder(s, k, d);
    }
  }

  lemma BeginKeepsServed(s: State, c: Id, k: Id, h: Id)
    requires Inv(s) && Served(s, h) && c !in s.waiting
    requires k == h ==> Unused(s, h)
    ensures Served(DoBegin(s, c, k), h)
  {
    if k in s.boxes && s.boxes[k].signal != INVALID {
      var d :| Holder(s, k, d);
    }
  }

  lemma ResumeKeepsServed(s: State, c: Id, h: Id)
    requires Inv(s) && Served(s, h)
    requires c in s.waiting && s.waiting[c].signal in s.raised
    ensures Served(DoResume(s, c), h)
  {
  }

  /** With one coroutine at a time receiving from `h`, a receive on it returns false only because the
      mailbox is closed, also when it was closed during the wait and other mailboxes opened since. */
  lemma {:induction false} OneReceiverFailsOnlyClosed(actions: seq<Action>, states: seq<State>, n: nat, h: Id)
    requires IsRun(actions, states) && n < |states| && OneReceiver(actions, states, h)
    ensures Served(states[n], h)
    ensures forall f | f in states[n].failures && f.box == h :: !f.open
  {
    if n > 0 {
      OneReceiverFailsOnlyClosed(actions, states, n - 1, h);
      RunKeepsInv(actions, states, n - 1);
      StepKeepsServed(states[n - 1], actions[n - 1], h);
    }
  }

  /** With two, the second may be refused, */
  lemma SecondReceiverIsRefused() returns (actions: seq<Action>, states: seq<State>)
    ensures IsRun(actions, states) && states[|actions|].boxes == map[1 := Box(4, [], 2)]
    ensures states[|actions|].failures == [Failure(11, 1, true)]
  {
    actions := [Open(4), Begin(10, 1), Begin(11, 1)];
    var s1 := Apply(START, actions[0]);
    var s2 := Apply(s1, actions[1]);
    var s3 := Apply(s2, actions[2]);
    states := [START, s1, s2, s3];
  }

  /** An open mailbox of capacity 4 with coroutine 10 asleep on it. */
  const ASLEEP := State(map[1 := Box(4, [], 2)], map[10 := Wait(1, 2)], {}, 3, map[1 := []], map[1 := []], [])

  const ROBBED := State(map[1 := Box(4, [], INVALID)], map[10 := Wait(1, 2)], {2}, 3, map[1 := [7]], map[1 := [7]], [])

  lemma ReachAsleep()
    ensures DoBegin(DoOpen(START, 4), 10, 1) == ASLEEP
  {
  }

  lemma ReachRobbed()
    ensures DoBegin(DoSend(ASLEEP, 1, 7), 11, 1) == ROBBED
  {
    assert Sent(Box(4, [], 2), 7) == Sending(Box(4, [7], INVALID), true, 2);
    var s := ASLEEP.(boxes := map[1 := Box(4, [7], INVALID)], raised := {2}, sent := map[1 := [7]]);
    assert DoSend(ASLEEP, 1, 7) == s by {
      assert ASLEEP.raised + {2} == {2};
    }
    var one: seq<Message> := [7];
    assert one[1..] == [];
    assert BeginReceive(Box(4, one, INVALID), 3) == (Box(4, [], INVALID), Took(7));
  }

  /** and the first may wake to find its message taken by the other. */
  lemma SleeperIsRobbed() returns (actions: seq<Action>, states: seq<State>)
    ensures IsRun(actions, states) && states[|actions|].boxes == map[1 := Box(4, [], INVALID)]
    ensures states[|actions|].failures == [Failure(10, 1, true)]
  {
    actions := [Open(4), Begin(10, 1), Send(1, 7), Begin(11, 1), Resume(10)];
    ReachAsleep();
    ReachRobbed();
    states := [START, DoOpen(START, 4), ASLEEP, DoSend(ASLEEP, 1, 7), ROBBED, DoResume(ROBBED, 10)];
  }
}
