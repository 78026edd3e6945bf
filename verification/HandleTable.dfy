/** The generation-checked handle table of src/handle.c. */
module HandleTable {
  /** Object pointers and tag addresses; 0 is NULL. */
  type Pointer = int
  const NULL: Pointer := 0

  const INITIAL_CAPACITY := 4
  const GENERATIONS := 0x1_0000_0000  // values of an int32_t

  datatype Handle = Handle(index: int, gen: int)
  const INVALID_HANDLE := Handle(0, 0)

  datatype Slot = Slot(tag: Pointer, obj: Pointer, gen: int, next: int)

  /** `handle_capacity` is the number of slots. */
  datatype Table = Table(slots: seq<Slot>, next: int, count: int)

  /** The `int32_t` value after `n` increments from 0, wrapping at the top. */
  function Gen(n: nat): int {
    (n + 0x8000_0000) % GENERATIONS - 0x8000_0000
  }

  function IncGen(g: int): int {
    if g == 0x7fff_ffff then -0x8000_0000 else g + 1
  }

  // ----- what each operation computes -----

  function FreshSlots(from: nat, to: nat): (s: seq<Slot>)
    requires from <= to
    ensures |s| == to - from
    ensures forall i | 0 <= i < to - from :: s[i] == Slot(NULL, NULL, 0, from + i + 1)
  {
    seq(to - from, i requires 0 <= i < to - from => Slot(NULL, NULL, 0, from + i + 1))
  }

  function Grow(t: Table, capacity: nat): Table
    requires |t.slots| <= capacity
  {
    Table(t.slots + FreshSlots(|t.slots|, capacity), |t.slots|, t.count)
  }

  const EMPTY := Grow(Table([], 0, 0), INITIAL_CAPACITY)

  /** The table a new handle is taken from. */
  function Roomy(t: Table): Table {
    if t.count >= |t.slots| then Grow(t, 2 * |t.slots|) else t
  }

  function Make(t: Table, obj: Pointer, tag: Pointer): (Table, Handle)
    requires 0 <= Roomy(t).next < |Roomy(t).slots|
  {
    var r := Roomy(t);
    var slot := r.slots[r.next];
    (Table(r.slots[r.next := slot.(obj := obj, tag := tag)], slot.next, r.count + 1),
     Handle(r.next + 1, slot.gen))
  }

  predicate Matches(t: Table, h: Handle, tag: Pointer) {
    && 0 <= h.index - 1 < |t.slots|
    && t.slots[h.index - 1].gen == h.gen && t.slots[h.index - 1].tag == tag
  }

  function Resolve(t: Table, h: Handle, tag: Pointer): Pointer {
    if Matches(t, h, tag) then t.slots[h.index - 1].obj else NULL
  }

  function Info(t: Table, h: Handle): Pointer {
    if 0 <= h.index - 1 < |t.slots| && t.slots[h.index - 1].gen == h.gen then t.slots[h.index - 1].tag else NULL
  }

  function Close(t: Table, h: Handle, tag: Pointer): (Table, Pointer) {
    if Matches(t, h, tag) then
      var i := h.index - 1;
      (Table(t.slots[i := t.slots[i].(gen := IncGen(t.slots[i].gen), next := t.next)], i, t.count - 1),
       t.slots[i].obj)
    else (t, NULL)
  }

  // ----- the free list -----

  /** What the link of the `i`th free slot must hold. */
  function Link(t: Table, free: seq<nat>, i: nat): int
    requires i <= |free|
  {
    if i < |free| then free[i] else |t.slots|
  }

  predicate Linked(t: Table, free: seq<nat>, i: nat)
    requires i < |free|
  {
    free[i] < |t.slots| && t.slots[free[i]].next == Link(t, free, i + 1)
  }

  /** `free` is the chain of `next` links: it starts at the table's `next`, follows the slots' links,
      ends at the capacity, visits no slot twice and has one entry per unused slot. */
  ghost predicate FreeChain(t: Table, free: seq<nat>) {
    && |t.slots| > 0
    && |free| == |t.slots| - t.count
    && (forall s | s in free :: s < |t.slots|)
    && (forall i, j | 0 <= i < j < |free| :: free[i] != free[j])
    && t.next == Link(t, free, 0)
    && (forall i | 0 <= i < |free| :: Linked(t, free, i))
  }

  function Range(from: nat, to: nat): (s: seq<nat>)
    requires from <= to
    ensures |s| == to - from && forall i | 0 <= i < |s| :: s[i] == from + i
  {
    seq(to - from, i requires 0 <= i < to - from => from + i)
  }

  /** The chain after the growth check of `bio_make_handle`. */
  function RoomyChain(t: Table, free: seq<nat>): seq<nat> {
    if t.count >= |t.slots| then Range(|t.slots|, 2 * |t.slots|) else free
  }

  lemma EmptyChain()
    ensures FreeChain(EMPTY, Range(0, INITIAL_CAPACITY))
  {
  }

  lemma RoomyKeepsChain(t: Table, free: seq<nat>)
    requires FreeChain(t, free)
    ensures FreeChain(Roomy(t), RoomyChain(t, free)) && |RoomyChain(t, free)| > 0
    ensures |t.slots| <= |Roomy(t).slots| && Roomy(t).slots[..|t.slots|] == t.slots
  {
  }

  lemma MakeKeepsChain(t: Table, free: seq<nat>, obj: Pointer, tag: Pointer)
    requires FreeChain(t, free)
    ensures 0 <= Roomy(t).next < |Roomy(t).slots|
    ensures FreeChain(Make(t, obj, tag).0, RoomyChain(t, free)[1..])
  {
    RoomyKeepsChain(t, free);
    var r, chain := Roomy(t), RoomyChain(t, free);
    assert chain[0] in chain;
    var rest := chain[1..];
    var t' := Make(t, obj, tag).0;
    assert forall s | s in rest :: s in chain;
    forall i | 0 <= i < |rest| ensures Linked(t', rest, i) {
      assert Linked(r, chain, i + 1);
    }
    assert Linked(r, chain, 0);
  }

  /** Pushing an unused slot on the front of the list. */
  lemma PushKeepsChain(t: Table, free: seq<nat>, slot: nat, x: Slot)
    requires FreeChain(t, free) && slot < |t.slots| && slot !in free && x.next == t.next
    ensures FreeChain(Table(t.slots[slot := x], slot, t.count - 1), [slot] + free)
  {
    var t', free' := Table(t.slots[slot := x], slot, t.count - 1), [slot] + free;
    forall i | 0 <= i < |free'| ensures Linked(t', free', i) {
      if i > 0 { assert Linked(t, free, i - 1); }
    }
  }

  /** A matching close of a used slot puts it on the front of the list; one that does not match changes
      nothing. */
  lemma CloseKeepsChain(t: Table, free: seq<nat>, h: Handle, tag: Pointer)
    requires FreeChain(t, free) && (Matches(t, h, tag) ==> h.index - 1 !in free)
    ensures Matches(t, h, tag) ==> FreeChain(Close(t, h, tag).0, [h.index - 1] + free)
    ensures !Matches(t, h, tag) ==> Close(t, h, tag) == (t, NULL)
  {
    if Matches(t, h, tag) {
      var slot: nat := h.index - 1;
      PushKeepsChain(t, free, slot, t.slots[slot].(gen := IncGen(t.slots[slot].gen), next := t.next));
    }
  }

  /** Pushing a slot that is on the list already links it into a cycle: no list is left. */
  lemma {:induction false} CycleFollows(t: Table, free: seq<nat>, slot: nat, x: Slot, chain: seq<nat>, i: nat, j: nat)
    requires FreeChain(t, free) && i <= j < |free| && free[j] == slot < |t.slots| && x.next == t.next
    requires FreeChain(Table(t.slots[slot := x], slot, t.count - 1), chain)
    ensures |chain| == |free| + 1 && chain[i + 1] == free[i]
  {
    var t' := Table(t.slots[slot := x], slot, t.count - 1);
    if i == 0 {
      assert Linked(t', chain, 0);
    } else {
      CycleFollows(t, free, slot, x, chain, i - 1, j);
      assert Linked(t', chain, i) && Linked(t, free, i - 1);
    }
  }

  lemma NoChainWithCycle(t: Table, free: seq<nat>, slot: nat, x: Slot, chain: seq<nat>)
    requires FreeChain(t, free) && slot in free && slot < |t.slots| && x.next == t.next
    ensures !FreeChain(Table(t.slots[slot := x], slot, t.count - 1), chain)
  {
    var j: nat :| j < |free| && free[j] == slot;
    if FreeChain(Table(t.slots[slot := x], slot, t.count - 1), chain) {
      CycleFollows(t, free, slot, x, chain, j, j);
      assert false;
    }
  }

  /** So a matching close leaves a free list exactly if the slot was in use. */
  lemma CloseKeepsChainIff(t: Table, free: seq<nat>, h: Handle, tag: Pointer)
    requires FreeChain(t, free) && Matches(t, h, tag)
    ensures (exists chain :: FreeChain(Close(t, h, tag).0, chain)) <==> h.index - 1 !in free
  {
    var slot: nat := h.index - 1;
    if slot in free {
      forall chain ensures !FreeChain(Close(t, h, tag).0, chain) {
        NoChainWithCycle(t, free, slot, t.slots[slot].(gen := IncGen(t.slots[slot].gen), next := t.next), chain);
      }
    } else {
      CloseKeepsChain(t, free, h, tag);
    }
  }

  // ----- histories -----

  /** One successful `bio_make_handle`: its slot, how often that slot had been closed before, what was stored. */
  datatype Issue = Issue(slot: nat, epoch: nat, obj: Pointer, tag: Pointer)

  function HandleOf(i: Issue): Handle {
    Handle(i.slot + 1, Gen(i.epoch))
  }

  /** A table with its history: every handle ever issued and how often each slot has been closed. */
  datatype History = History(table: Table, free: seq<nat>, issues: seq<Issue>, closes: seq<nat>)

  datatype Op =
    | MakeOp(obj: Pointer, tag: Pointer)
    | CloseOp(issue: nat, tag: Pointer)  // close the handle of an earlier issue, with any tag
    | CloseInvalid(tag: Pointer)         // close the zero handle

  const NOTHING := History(EMPTY, Range(0, INITIAL_CAPACITY), [], [0, 0, 0, 0])

  /** Issue `k` has not been closed yet. */
  predicate Open(h: History, k: nat)
    requires k < |h.issues| && h.issues[k].slot < |h.closes|
  {
    h.issues[k].epoch == h.closes[h.issues[k].slot]
  }

  predicate Enabled(h: History, op: Op) {
    match op
    case MakeOp(_, _) => 0 <= Roomy(h.table).next < |Roomy(h.table).slots| && |h.closes| <= |Roomy(h.table).slots|
    case CloseOp(k, _) => k < |h.issues| && h.issues[k].slot < |h.closes|
    case CloseInvalid(_) => true
  }

  function Apply(h: History, op: Op): History
    requires Enabled(h, op)
  {
    match op
    case MakeOp(obj, tag) =>
      var (t, handle) := Make(h.table, obj, tag);
      var closes := h.closes + seq(|t.slots| - |h.closes|, _ => 0);
      var slot := Roomy(h.table).next;
      var free := RoomyChain(h.table, h.free);
      History(t, if free == [] then [] else free[1..],
              h.issues + [Issue(slot, closes[slot], obj, tag)], closes)
    case CloseOp(k, tag) =>
      var i := h.issues[k];
      if Matches(h.table, HandleOf(i), tag) then
        History(Close(h.table, HandleOf(i), tag).0, [i.slot] + h.free, h.issues,
                h.closes[i.slot := h.closes[i.slot] + 1])
      else h
    case CloseInvalid(tag) => h.(table := Close(h.table, INVALID_HANDLE, tag).0)
  }

  ghost predicate Generations(h: History) {
    && |h.closes| == |h.table.slots|
    && forall s | 0 <= s < |h.closes| :: h.table.slots[s].gen == Gen(h.closes[s])
  }

  /** Handles of one slot are issued for increasing epochs, none beyond the slot's present one. */
  ghost predicate Epochs(h: History) {
    && (forall k | 0 <= k < |h.issues| ::
          h.issues[k].slot < |h.closes| && h.issues[k].epoch <= h.closes[h.issues[k].slot])
    && (forall j, k | 0 <= j < k < |h.issues| ::
          h.issues[j].slot == h.issues[k].slot ==> h.issues[j].epoch < h.issues[k].epoch)
  }

  /** An open handle's slot is in use and holds what the handle was made for. */
  ghost predicate OpenSlots(h: History)
    requires Epochs(h) && |h.closes| == |h.table.slots|
  {
    forall k | 0 <= k < |h.issues| && Open(h, k) ::
      && h.issues[k].slot !in h.free
      && h.table.slots[h.issues[k].slot].obj == h.issues[k].obj
      && h.table.slots[h.issues[k].slot].tag == h.issues[k].tag
  }

  ghost predicate HasOpenIssue(h: History, s: nat)
    requires Epochs(h)
  {
    exists k :: 0 <= k < |h.issues| && h.issues[k].slot == s && Open(h, k)
  }

  ghost predicate UsedSlots(h: History)
    requires Epochs(h)
  {
    forall s | 0 <= s < |h.closes| && s !in h.free :: HasOpenIssue(h, s)
  }

  ghost predicate Inv(h: History) {
    FreeChain(h.table, h.free) && Generations(h) && Epochs(h) && OpenSlots(h) && UsedSlots(h)
  }

  /** Issue `k` was closed, and its slot has since been closed a multiple of 2^32 times in all: the
      generation has come round to that of its handle again. */
  predicate Revived(h: History, k: nat)
    requires k < |h.issues| && h.issues[k].slot < |h.closes|
  {
    !Open(h, k) && (h.closes[h.issues[k].slot] - h.issues[k].epoch) % GENERATIONS == 0
  }

  lemma GenEqualIff(m: nat, n: nat)
    requires m <= n
    ensures Gen(m) == Gen(n) <==> (n - m) % GENERATIONS == 0
    ensures Gen(n + 1) == IncGen(Gen(n))
  {
  }

  /** An issued handle matches its slot exactly while it is open or when it is revived, for the tag that
      the slot then has. */
  lemma MatchesIff(h: History, k: nat, tag: Pointer)
    requires Inv(h) && k < |h.issues|
    ensures var i := h.issues[k];
      Matches(h.table, HandleOf(i), tag) <==>
        (Open(h, k) || Revived(h, k)) && h.table.slots[i.slot].tag == tag
  {
    var i := h.issues[k];
    GenEqualIff(i.epoch, h.closes[i.slot]);
  }

  /** The handle table is a partial map from issued handles to objects: a handle resolves to its own
      object under its own tag, and shows that tag, while open, and gives NULL afterwards, except while
      it is revived: then it shows and resolves to whatever its slot holds. */
  lemma ResolvesOwnObject(h: History, k: nat, tag: Pointer)
    requires Inv(h) && k < |h.issues|
    ensures var i, r := h.issues[k], Resolve(h.table, HandleOf(h.issues[k]), tag);
      if Open(h, k) then r == if tag == i.tag then i.obj else NULL
      else if Revived(h, k) then r == if tag == h.table.slots[i.slot].tag then h.table.slots[i.slot].obj else NULL
      else r == NULL
    ensures var i, shown := h.issues[k], Info(h.table, HandleOf(h.issues[k]));
      if Open(h, k) then shown == i.tag
      else if Revived(h, k) then shown == h.table.slots[i.slot].tag
      else shown == NULL
  {
    MatchesIff(h, k, tag);
    MatchesIff(h, k, h.table.slots[h.issues[k].slot].tag);
  }

  lemma InvalidNeverMatches(h: History, tag: Pointer)
    ensures Resolve(h.table, INVALID_HANDLE, tag) == NULL && Info(h.table, INVALID_HANDLE) == NULL
    ensures Close(h.table, INVALID_HANDLE, tag) == (h.table, NULL)
  {
  }

  /** Closing returns the object once, to the first close with the right tag, and kills exactly that
      handle; any other close returns NULL and leaves the whole table as it was. */
  lemma ClosesOnce(h: History, k: nat, tag: Pointer)
    requires Inv(h) && k < |h.issues| && !Revived(h, k)
    ensures var i, h' := h.issues[k], Apply(h, CloseOp(k, tag));
      if Open(h, k) && tag == i.tag then
        && Close(h.table, HandleOf(i), tag) == (h'.table, i.obj)
        && !Open(h', k)
        && (forall j | 0 <= j < |h.issues| && j != k :: Open(h', j) <==> Open(h, j))
      else h' == h && Close(h.table, HandleOf(i), tag) == (h.table, NULL)
  {
    MatchesIff(h, k, tag);
  }

  // ----- every history keeps the invariant -----

  lemma MakeIsEnabled(h: History, obj: Pointer, tag: Pointer)
    requires FreeChain(h.table, h.free) && |h.closes| == |h.table.slots|
    ensures Enabled(h, MakeOp(obj, tag))
    ensures var h', chain := Apply(h, MakeOp(obj, tag)), RoomyChain(h.table, h.free);
      && FreeChain(h'.table, h'.free) && |chain| > 0 && h'.free == chain[1..] && Roomy(h.table).next == chain[0]
      && chain[0] !in h'.free
      && |h.closes| <= |h'.closes| == |h'.table.slots| && h'.closes[..|h.closes|] == h.closes
      && h'.issues == h.issues + [Issue(chain[0], h'.closes[chain[0]], obj, tag)]
      && HandleOf(h'.issues[|h.issues|]) == Make(h.table, obj, tag).1.(gen := Gen(h'.closes[chain[0]]))
      && (forall s | 0 <= s < |h'.closes| && s !in h'.free && s != chain[0] :: s < |h.closes| && s !in h.free)
  {
    RoomyKeepsChain(h.table, h.free);
    MakeKeepsChain(h.table, h.free, obj, tag);
    var h', chain := Apply(h, MakeOp(obj, tag)), RoomyChain(h.table, h.free);
    forall s | |h.closes| <= s < |h'.closes| ensures s in chain {
      assert chain[s - |h.closes|] == s;
    }
    assert forall s | s in chain :: s == chain[0] || s in h'.free;
  }

  lemma MakeKeepsGenerations(h: History, obj: Pointer, tag: Pointer)
    requires FreeChain(h.table, h.free) && Generations(h)
    ensures Enabled(h, MakeOp(obj, tag)) && Generations(Apply(h, MakeOp(obj, tag)))
  {
    MakeIsEnabled(h, obj, tag);
    assert Gen(0) == 0;
  }

  lemma MakeKeepsEpochs(h: History, obj: Pointer, tag: Pointer)
    requires FreeChain(h.table, h.free) && |h.closes| == |h.table.slots| && Epochs(h) && OpenSlots(h)
    ensures Enabled(h, MakeOp(obj, tag)) && Epochs(Apply(h, MakeOp(obj, tag)))
    ensures var h' := Apply(h, MakeOp(obj, tag));
      Open(h', |h.issues|) && forall k | 0 <= k < |h.issues| :: Open(h', k) <==> Open(h, k)
  {
    MakeIsEnabled(h, obj, tag);
    var h', slot := Apply(h, MakeOp(obj, tag)), RoomyChain(h.table, h.free)[0];
    forall k | 0 <= k < |h.issues| && h.issues[k].slot == slot ensures h.issues[k].epoch < h'.closes[slot] {
      assert h.table.count < |h.table.slots| && slot in h.free;
      assert !Open(h, k);
    }
  }

  lemma MakeKeepsSlots(h: History, obj: Pointer, tag: Pointer)
    requires FreeChain(h.table, h.free) && |h.closes| == |h.table.slots| && Epochs(h) && OpenSlots(h) && UsedSlots(h)
    ensures Enabled(h, MakeOp(obj, tag))
    ensures var h' := Apply(h, MakeOp(obj, tag));
      Epochs(h') && |h'.closes| == |h'.table.slots| && OpenSlots(h') && UsedSlots(h')
  {
    MakeIsEnabled(h, obj, tag);
    MakeKeepsEpochs(h, obj, tag);
    var h', n := Apply(h, MakeOp(obj, tag)), |h.issues|;
    var slot := h'.issues[n].slot;
    assert HasOpenIssue(h', slot);
    forall s | 0 <= s < |h'.closes| && s !in h'.free ensures HasOpenIssue(h', s) {
      if s != slot {
        assert HasOpenIssue(h, s);
        var k :| 0 <= k < n && h.issues[k].slot == s && Open(h, k);
        assert h'.issues[k].slot == s && Open(h', k);
      }
    }
    forall k | 0 <= k < |h'.issues| && Open(h', k)
      ensures h'.issues[k].slot !in h'.free
      ensures h'.table.slots[h'.issues[k].slot].obj == h'.issues[k].obj
      ensures h'.table.slots[h'.issues[k].slot].tag == h'.issues[k].tag
    {
      if k < n {
        assert Open(h, k) && h.issues[k].slot != slot;
        RoomyKeepsChain(h.table, h.free);
      }
    }
  }

  lemma MakeKeepsInv(h: History, obj: Pointer, tag: Pointer)
    requires Inv(h)
    ensures Enabled(h, MakeOp(obj, tag)) && Inv(Apply(h, MakeOp(obj, tag)))
    ensures var h' := Apply(h, MakeOp(obj, tag));
      && h'.issues[..|h.issues|] == h.issues && |h'.issues| == |h.issues| + 1
      && Open(h', |h.issues|) && (forall k | 0 <= k < |h.issues| :: Open(h', k) <==> Open(h, k))
      && HandleOf(h'.issues[|h.issues|]) == Make(h.table, obj, tag).1
  {
    MakeIsEnabled(h, obj, tag);
    MakeKeepsGenerations(h, obj, tag);
    MakeKeepsEpochs(h, obj, tag);
    MakeKeepsSlots(h, obj, tag);
  }

  lemma CloseKeepsSlots(h: History, k: nat, tag: Pointer)
    requires |h.closes| == |h.table.slots| && Epochs(h) && OpenSlots(h) && UsedSlots(h)
    requires k < |h.issues| && Open(h, k) && Matches(h.table, HandleOf(h.issues[k]), tag)
    ensures var h' := Apply(h, CloseOp(k, tag));
      && Epochs(h') && |h'.closes| == |h'.table.slots| && OpenSlots(h') && UsedSlots(h') && !Open(h', k)
      && forall j | 0 <= j < |h.issues| && j != k :: Open(h', j) <==> Open(h, j)
  {
    var h', slot := Apply(h, CloseOp(k, tag)), h.issues[k].slot;
    forall j | 0 <= j < |h.issues| && j != k ensures Open(h', j) <==> Open(h, j) {
      if h.issues[j].slot == slot { assert h.issues[j].epoch != h.issues[k].epoch; }
    }
    forall s | 0 <= s < |h'.closes| && s !in h'.free ensures HasOpenIssue(h', s) {
      assert h'.free[0] == slot && h'.free[1..] == h.free;
      assert HasOpenIssue(h, s);
      var j :| 0 <= j < |h.issues| && h.issues[j].slot == s && Open(h, j);
      assert Open(h', j);
    }
  }

  lemma CloseKeepsGenerations(h: History, k: nat, tag: Pointer)
    requires Generations(h) && k < |h.issues| && h.issues[k].slot < |h.closes|
    ensures Generations(Apply(h, CloseOp(k, tag)))
  {
    var s := h.issues[k].slot;
    GenEqualIff(h.closes[s], h.closes[s]);
  }

  /** No step closes a slot that is not in use, which only a revived handle could do. */
  ghost predicate Sound(h: History, op: Op)
    requires Enabled(h, op)
  {
    op.CloseOp? && Matches(h.table, HandleOf(h.issues[op.issue]), op.tag) ==> h.issues[op.issue].slot !in h.free
  }

  lemma OnlyRevivedIsUnsound(h: History, op: Op)
    requires Inv(h) && Enabled(h, op) && !Sound(h, op)
    ensures Revived(h, op.issue)
  {
    MatchesIff(h, op.issue, op.tag);
  }

  /** A close through a revived handle closes the handle that is open on the slot instead. */
  lemma CloseIsOfOpen(h: History, k: nat, tag: Pointer) returns (j: nat)
    requires Inv(h) && k < |h.issues| && Matches(h.table, HandleOf(h.issues[k]), tag) && h.issues[k].slot !in h.free
    ensures j < |h.issues| && Open(h, j) && Matches(h.table, HandleOf(h.issues[j]), tag)
    ensures Apply(h, CloseOp(j, tag)) == Apply(h, CloseOp(k, tag))
  {
    var slot := h.issues[k].slot;
    assert HasOpenIssue(h, slot);
    j :| 0 <= j < |h.issues| && h.issues[j].slot == slot && Open(h, j);
    GenEqualIff(h.closes[slot], h.closes[slot]);
  }

  lemma CloseKeepsInv(h: History, k: nat, tag: Pointer)
    requires Inv(h) && k < |h.issues| && Sound(h, CloseOp(k, tag))
    ensures Inv(Apply(h, CloseOp(k, tag)))
  {
    var i := h.issues[k];
    if Matches(h.table, HandleOf(i), tag) {
      var j := CloseIsOfOpen(h, k, tag);
      CloseKeepsChain(h.table, h.free, HandleOf(i), tag);
      CloseKeepsSlots(h, j, tag);
      CloseKeepsGenerations(h, k, tag);
    }
  }

  /** Runs a list of operations, of any length, from the empty table. */
  ghost predicate IsRun(ops: seq<Op>, states: seq<History>) {
    && |states| == |ops| + 1
    && states[0] == NOTHING
    && forall i | 0 <= i < |ops| :: StepAt(ops, states, i)
  }

  ghost predicate StepAt(ops: seq<Op>, states: seq<History>, i: nat)
    requires i < |ops| && |states| == |ops| + 1
  {
    Enabled(states[i], ops[i]) && Sound(states[i], ops[i]) && states[i + 1] == Apply(states[i], ops[i])
  }

  lemma RunStep(ops: seq<Op>, states: seq<History>, i: nat)
    requires IsRun(ops, states) && i < |ops|
    ensures Enabled(states[i], ops[i]) && Sound(states[i], ops[i]) && states[i + 1] == Apply(states[i], ops[i])
  {
    assert StepAt(ops, states, i);
  }

  lemma NothingInv()
    ensures Inv(NOTHING)
  {
    EmptyChain();
    var free := Range(0, INITIAL_CAPACITY);
    forall s | 0 <= s < 4 ensures s in free { assert free[s] == s; }
  }

  lemma StepKeepsInv(h: History, op: Op)
    requires Inv(h) && Enabled(h, op) && Sound(h, op)
    ensures Inv(Apply(h, op))
  {
    match op
    case MakeOp(obj, tag) => MakeKeepsInv(h, obj, tag);
    case CloseOp(k, tag) => CloseKeepsInv(h, k, tag);
    case CloseInvalid(tag) => InvalidNeverMatches(h, tag);
  }

  lemma {:induction false} RunKeepsInv(ops: seq<Op>, states: seq<History>, n: nat)
    requires IsRun(ops, states) && n <= |ops|
    ensures Inv(states[n])
  {
    if n == 0 {
      NothingInv();
    } else {
      RunKeepsInv(ops, states, n - 1);
      RunStep(ops, states, n - 1);
      StepKeepsInv(states[n - 1], ops[n - 1]);
    }
  }

  lemma StepKeepsIssues(h: History, op: Op)
    requires Inv(h) && Enabled(h, op) && Sound(h, op)
    ensures var h' := Apply(h, op);
      && |h.issues| <= |h'.issues| && h'.issues[..|h.issues|] == h.issues
      && |h.closes| <= |h'.closes|
      && (forall k | 0 <= k < |h.issues| :: h'.closes[h.issues[k].slot] >= h.closes[h.issues[k].slot])
  {
    if op.MakeOp? { MakeIsEnabled(h, op.obj, op.tag); }
  }

  /** Once a handle is closed it resolves to NULL in every later state of the run, whatever was created
      in its slot meanwhile and however often the table moved, exactly unless it is revived just then
      and asked for by the tag of what its slot holds. */
  lemma {:induction false} ClosedForever(
      ops: seq<Op>, states: seq<History>, m: nat, n: nat, k: nat, tag: Pointer)
    requires IsRun(ops, states) && m <= n <= |ops|
    requires k < |states[m].issues| && states[m].issues[k].slot < |states[m].closes| && !Open(states[m], k)
    ensures k < |states[n].issues| && states[n].issues[k] == states[m].issues[k]
    ensures states[n].issues[k].slot < |states[n].closes| <= |states[n].table.slots| && !Open(states[n], k)
    ensures var slot := states[n].table.slots[states[n].issues[k].slot];
      (Resolve(states[n].table, HandleOf(states[m].issues[k]), tag) != NULL)
        <==> (Revived(states[n], k) && slot.tag == tag && slot.obj != NULL)
    decreases n - m
  {
    RunKeepsInv(ops, states, m);
    if m == n {
      ResolvesOwnObject(states[n], k, tag);
    } else {
      RunStep(ops, states, m);
      StepKeepsIssues(states[m], ops[m]);
      assert states[m + 1].issues[k] == states[m].issues[k];
      ClosedForever(ops, states, m + 1, n, k, tag);
    }
  }

  /** What an issued handle resolves to and shows: its own object and tag while open, nothing else. */
  ghost predicate OwnOnly(h: History, k: nat)
    requires k < |h.issues| && h.issues[k].slot < |h.closes|
  {
    && Info(h.table, HandleOf(h.issues[k])) == (if Open(h, k) then h.issues[k].tag else NULL)
    && forall tag :: Resolve(h.table, HandleOf(h.issues[k]), tag)
                       == if Open(h, k) && tag == h.issues[k].tag then h.issues[k].obj else NULL
  }

  /** The table over whole histories: the links visit the unused slots exactly once; two issues have the
      same handle exactly if they are of one slot and a multiple of 2^32 closes apart; and every handle
      that is not revived just then behaves as in a map from open handles to objects. */
  lemma TableRefinesMap(ops: seq<Op>, states: seq<History>, n: nat)
    requires IsRun(ops, states) && n <= |ops|
    ensures var h := states[n];
      && FreeChain(h.table, h.free)
      && (forall s | 0 <= s < |h.table.slots| && |h.closes| == |h.table.slots| ::
            s in h.free <==> forall k | 0 <= k < |h.issues| && h.issues[k].slot == s :: !Open(h, k))
      && (forall j, k | 0 <= j < k < |h.issues| :: HandleOf(h.issues[j]) == HandleOf(h.issues[k]) <==>
            h.issues[j].slot == h.issues[k].slot && (h.issues[k].epoch - h.issues[j].epoch) % GENERATIONS == 0)
      && (forall k | 0 <= k < |h.issues| :: h.issues[k].slot < |h.closes| && (!Revived(h, k) ==> OwnOnly(h, k)))
  {
    RunKeepsInv(ops, states, n);
    var h := states[n];
    forall j, k | 0 <= j < k < |h.issues|
      ensures HandleOf(h.issues[j]) == HandleOf(h.issues[k]) <==>
        h.issues[j].slot == h.issues[k].slot && (h.issues[k].epoch - h.issues[j].epoch) % GENERATIONS == 0
    {
      if h.issues[j].slot == h.issues[k].slot { GenEqualIff(h.issues[j].epoch, h.issues[k].epoch); }
    }
    forall k | 0 <= k < |h.issues| && !Revived(h, k) ensures OwnOnly(h, k) {
      forall tag ensures Resolve(h.table, HandleOf(h.issues[k]), tag)
                           == if Open(h, k) && tag == h.issues[k].tag then h.issues[k].obj else NULL
      {
        ResolvesOwnObject(h, k, tag);
      }
      ResolvesOwnObject(h, k, NULL);
    }
  }

  // ----- what a make gives, and how far the table grows -----

  /** A new handle resolves to the given object under the given tag only and shows that tag; whatever the other
      open handles resolve to stays; and the table doubles exactly when all its slots are in use. */
  lemma MakeGives(h: History, obj: Pointer, tag: Pointer)
    requires Inv(h)
    ensures Enabled(h, MakeOp(obj, tag))
    ensures var (t, handle) := Make(h.table, obj, tag);
      && (forall asked :: Resolve(t, handle, asked) == if asked == tag then obj else NULL) && Info(t, handle) == tag
      && (forall k | 0 <= k < |h.issues| && Open(h, k) ::
            handle != HandleOf(h.issues[k])
            && Resolve(t, HandleOf(h.issues[k]), h.issues[k].tag) == h.issues[k].obj)
      && t.count == h.table.count + 1
      && |t.slots| == |h.table.slots| * if h.table.count == |h.table.slots| then 2 else 1
  {
    MakeKeepsInv(h, obj, tag);
    MakeIsEnabled(h, obj, tag);
    MakeKeepsEpochs(h, obj, tag);
    var h', n := Apply(h, MakeOp(obj, tag)), |h.issues|;
    assert HandleOf(h'.issues[n]) == Make(h.table, obj, tag).1;
    forall asked ensures Resolve(h'.table, HandleOf(h'.issues[n]), asked) == if asked == tag then obj else NULL {
      ResolvesOwnObject(h', n, asked);
    }
    ResolvesOwnObject(h', n, tag);
    forall k | 0 <= k < n && Open(h, k)
      ensures HandleOf(h'.issues[n]) != HandleOf(h.issues[k])
      ensures Resolve(h'.table, HandleOf(h.issues[k]), h.issues[k].tag) == h.issues[k].obj
    {
      assert h'.issues[k] == h.issues[k];
      ResolvesOwnObject(h', k, h.issues[k].tag);
    }
  }

  /** The capacities that doubling leads through. */
  predicate IsCapacity(c: nat)
    decreases c
  {
    c == INITIAL_CAPACITY || (c > 0 && c % 2 == 0 && IsCapacity(c / 2))
  }

  lemma StepCapacity(h: History, op: Op)
    requires Inv(h) && Enabled(h, op)
    ensures var t, t' := h.table, Apply(h, op).table;
      |t'.slots| == |t.slots| || (t.count == |t.slots| && t'.count == t.count + 1 && |t'.slots| == 2 * |t.slots|)
  {
  }

  lemma RunStepCapacity(ops: seq<Op>, states: seq<History>, i: nat)
    requires IsRun(ops, states) && i < |ops|
    ensures var t, t' := states[i].table, states[i + 1].table;
      |t'.slots| == |t.slots| || (t.count == |t.slots| && t'.count == t.count + 1 && |t'.slots| == 2 * |t.slots|)
  {
    RunKeepsInv(ops, states, i);
    RunStep(ops, states, i);
    StepCapacity(states[i], ops[i]);
  }

  lemma RunFits(ops: seq<Op>, states: seq<History>, n: nat)
    requires IsRun(ops, states) && n <= |ops|
    ensures states[n].table.count <= |states[n].table.slots|
  {
    RunKeepsInv(ops, states, n);
  }

  /** The capacity is the least of 4, 8, 16, ... that has sufficed at every moment so far: at `m` half of it would
      have been too little. */
  lemma {:induction false} CapacityIsLeast(ops: seq<Op>, states: seq<History>, n: nat) returns (m: nat)
    requires IsRun(ops, states) && n <= |ops|
    ensures IsCapacity(|states[n].table.slots|) && states[n].table.count <= |states[n].table.slots|
    ensures m <= n && (|states[n].table.slots| == INITIAL_CAPACITY
                       || states[m].table.count > |states[n].table.slots| / 2)
  {
    RunFits(ops, states, n);
    if n == 0 {
      m := 0;
    } else {
      m := CapacityIsLeast(ops, states, n - 1);
      RunStepCapacity(ops, states, n - 1);
      if |states[n].table.slots| != |states[n - 1].table.slots| { m := n; }
    }
  }

  // ----- what happens at the wrap -----

  /** `n` rounds of making a handle and closing it, starting from an empty table. */
  function Churn(obj: Pointer, tag: Pointer, n: nat): Table {
    if n == 0 then EMPTY
    else
      var t := Churn(obj, tag, n - 1);
      if 0 <= Roomy(t).next < |Roomy(t).slots| then
        var (t', h) := Make(t, obj, tag);
        Close(t', h, tag).0
      else t
  }

  lemma {:induction false} ChurnReusesFirstSlot(obj: Pointer, tag: Pointer, n: nat)
    requires n > 0
    ensures Churn(obj, tag, n) == Table(EMPTY.slots[0 := Slot(tag, obj, Gen(n), 1)], 0, 0)
  {
    GenEqualIff(n - 1, n - 1);
    if n > 1 { ChurnReusesFirstSlot(obj, tag, n - 1); }
  }

  /** Revival happens: after a slot has been closed 2^32 times its first handle,
      long closed, resolves to the object again, although no object is live. */
  lemma WrapRevivesClosedHandle(obj: Pointer, tag: Pointer)
    requires obj != NULL
    ensures var first := Make(EMPTY, obj, tag).1;
      && Resolve(Churn(obj, tag, 1), first, tag) == NULL
      && Resolve(Churn(obj, tag, GENERATIONS), first, tag) == obj
      && Churn(obj, tag, GENERATIONS).count == 0
  {
    ChurnReusesFirstSlot(obj, tag, 1);
    ChurnReusesFirstSlot(obj, tag, GENERATIONS);
  }

  /** Closing the revived handle ruins the table: the slot is linked to itself, the count is negative,
      there is no free list any more, and the next two makes give the same handle to two objects. */
  lemma ClosingRevivedRuinsTable(obj: Pointer, tag: Pointer)
    ensures var first := Make(EMPTY, obj, tag).1;
      var t := Close(Churn(obj, tag, GENERATIONS), first, tag).0;
      && t.count == -1 && t.next == 0 && |t.slots| > 0 && t.slots[0].next == 0
      && (forall chain :: !FreeChain(t, chain))
      && Make(t, obj, tag).1 == Make(Make(t, obj, tag).0, obj, tag).1
  {
    var first, full := Make(EMPTY, obj, tag).1, Churn(obj, tag, GENERATIONS);
    ChurnReusesFirstSlot(obj, tag, GENERATIONS);
    assert full.slots[0].gen == Gen(0) by { GenEqualIff(0, GENERATIONS); }
    var free := Range(0, INITIAL_CAPACITY);
    assert free[0] == 0 && 0 in free;
    assert FreeChain(full, free) by {
      forall i | 0 <= i < |free| ensures Linked(full, free, i) {}
    }
    CloseKeepsChainIff(full, free, first, tag);
  }

  // ----- the code itself -----

  class Handles {
    var slots: array<Slot>
    var next: int
    var count: int
    ghost var free: seq<nat>

    ghost function Model(): Table
      reads this, slots
    {
      Table(slots[..], next, count)
    }

    ghost predicate Valid()
      reads this, slots
    {
      FreeChain(Model(), free)
    }

    constructor ()
      ensures Valid() && fresh(slots) && Model() == EMPTY && free == Range(0, INITIAL_CAPACITY)
    {
      slots := new Slot[INITIAL_CAPACITY](i => Slot(NULL, NULL, 0, i + 1));
      next, count := 0, 0;
      free := Range(0, INITIAL_CAPACITY);
      new;
      assert slots[..] == EMPTY.slots;
      EmptyChain();
    }

    /** `bio_grow_handle_table`: move the slots and chain the new ones, one by one. */
    method GrowTo(capacity: nat)
      requires slots.Length <= capacity
      modifies this
      ensures fresh(slots) && Model() == Grow(old(Model()), capacity) && free == old(free)
    {
      var oldCapacity := slots.Length;
      var moved := new Slot[capacity](i => Slot(NULL, NULL, 0, 0));
      for i := 0 to oldCapacity
        invariant unchanged(this) && moved[..i] == slots[..i]
      {
        moved[i] := slots[i];
      }
      for i := oldCapacity to capacity
        invariant unchanged(this) && moved[..oldCapacity] == slots[..]
        invariant forall j | oldCapacity <= j < i :: moved[j] == Slot(NULL, NULL, 0, j + 1)
      {
        moved[i] := Slot(NULL, NULL, 0, i + 1);
      }
      assert moved[..] == slots[..] + FreshSlots(oldCapacity, capacity);
      slots := moved;
      next := oldCapacity;
    }

    /** `bio_make_handle` */
    method MakeHandle(obj: Pointer, tag: Pointer) returns (h: Handle)
      requires Valid()
      modifies this, slots
      ensures Valid() && free == RoomyChain(old(Model()), old(free))[1..]
      ensures slots == old(slots) || fresh(slots)
      ensures 0 <= Roomy(old(Model())).next < |Roomy(old(Model())).slots|
      ensures (Model(), h) == Make(old(Model()), obj, tag)
    {
      ghost var before := Model();
      MakeKeepsChain(before, free, obj, tag);
      RoomyKeepsChain(before, free);
      if count >= slots.Length {
        GrowTo(slots.Length * 2);
      }
      var i := next;
      assert Model() == Roomy(before);
      slots[i] := slots[i].(obj := obj, tag := tag);
      next := slots[i].next;
      count := count + 1;
      free := RoomyChain(before, free)[1..];
      h := Handle(i + 1, slots[i].gen);
      assert Model() == Make(before, obj, tag).0;
    }

    /** `bio_resolve_handle` */
    method ResolveHandle(h: Handle, tag: Pointer) returns (obj: Pointer)
      ensures obj == Resolve(Model(), h, tag)
    {
      var index := h.index - 1;
      if 0 <= index < slots.Length {
        var slot := slots[index];
        if slot.gen == h.gen && slot.tag == tag { return slot.obj; }
      }
      return NULL;
    }

    /** `bio_handle_info` */
    method HandleInfo(h: Handle) returns (tag: Pointer)
      ensures tag == Info(Model(), h)
    {
      var index := h.index - 1;
      if 0 <= index < slots.Length && slots[index].gen == h.gen { return slots[index].tag; }
      return NULL;
    }

    /** `bio_close_handle`. The table stays well formed unless the slot was not in use, which takes a
        revived handle (`OnlyRevivedIsUnsound`). */
    method CloseHandle(h: Handle, tag: Pointer) returns (obj: Pointer)
      requires Valid()
      modifies this, slots
      ensures slots == old(slots)
      ensures (Model(), obj) == Close(old(Model()), h, tag)
      ensures Valid() <==> (Matches(old(Model()), h, tag) ==> h.index - 1 !in old(free))
    {
      ghost var before, chain := Model(), free;
      var index := h.index - 1;
      if 0 <= index < slots.Length {
        if slots[index].gen == h.gen && slots[index].tag == tag {
          slots[index] := slots[index].(gen := IncGen(slots[index].gen), next := next);
          next := index;
          count := count - 1;
          free := [index] + free;
          assert Model() == Close(before, h, tag).0;
          CloseKeepsChainIff(before, chain, h, tag);
          if index !in chain { CloseKeepsChain(before, chain, h, tag); }
          return slots[index].obj;
        }
      }
      return NULL;
    }
  }
}
