/**
 * The lock-free read/write guard of src/runtime/lockfree/atomic/OFluxLFAtomicReadWrite.h
 * and .cpp, called one operation at a time.  For requests to read or to write, each
 * operation does to the guard's value exactly what the classic guard does; an
 * upgradeable request is resolved when it is made, and then the two can differ.
 */
module LockFreeReadWrite {
  import opened Basics
  import opened ClassicAtomics

  // The word `next`: a count of holders and their mode, or a pointer; with its epoch.
  datatype Word =
    | Null(epoch: nat)
    | Count(rcount: nat, read: bool, epoch: nat)
    | Node(holder: EventBaseHolder, epoch: nat)
    | Sentinel(epoch: nat)

  class EventBaseHolder {
    var next: Word
    var val: Option<EventId>
    var mode: Option<Mode>

    constructor (e: Option<EventId>, m: Option<Mode>)
      ensures next == Null(0) && val == e && mode == m
    {
      next, val, mode := Null(0), e, m;
    }
  }

  // The compare-and-swap of a word.
  method SwapNext(h: EventBaseHolder, expected: Word, desired: Word) returns (ok: bool)
    modifies h`next
    ensures ok == (old(h.next) == expected)
    ensures h.next == if ok then desired else old(h.next)
  {
    ok := h.next == expected;
    if ok {
      h.next := desired;
    }
  }

  /**
   * States: 1. free: head == tail, next is Null.  2. held: head == tail, next counts the
   * holders.  3. held with waiters: the waiters sit in all holders but the last, whose
   * next counts.
   */
  class ReadWriteWaiterList {
    var head: EventBaseHolder
    var tail: EventBaseHolder
    ghost var nodes: seq<EventBaseHolder>

    ghost predicate Valid()
      reads this, nodes
    {
      && nodes != [] && head == nodes[0] && tail == nodes[|nodes| - 1]
      && (forall i, j :: 0 <= i < j < |nodes| ==> nodes[i] != nodes[j])
      && (forall i :: 0 <= i < |nodes| - 1 ==> Waits(nodes[i], nodes[i + 1]))
      && tail.val == None && tail.mode == None
      && match tail.next
         case Null(_) => head == tail
         case Count(rcount, read, _) => rcount > 0 && (rcount > 1 ==> read)
         case _ => false
    }

    static predicate Waits(h: EventBaseHolder, after: EventBaseHolder)
      reads h
    {
      && h.next.Node? && h.next.holder == after
      && h.val.Some? && (h.mode == Some(Read) || h.mode == Some(Write))
    }

    static function WaiterOf(h: EventBaseHolder): Waiter
      reads h
    {
      Waiter(if h.val.Some? then h.val.value else 0, if h.mode.Some? then h.mode.value else Read)
    }

    ghost function Waiters(): (q: seq<Waiter>)
      requires nodes != []
      reads this, nodes
      ensures |q| == |nodes| - 1 && forall i :: 0 <= i < |q| ==> q[i] == WaiterOf(nodes[i])
    {
      seq(|nodes| - 1, i requires 0 <= i < |nodes| - 1 reads this, nodes => WaiterOf(nodes[i]))
    }

    lemma NobodyUpgrades()
      requires Valid()
      ensures forall i :: 0 <= i < |Waiters()| ==> Waiters()[i].wtype == Read || Waiters()[i].wtype == Write
    {
      forall i | 0 <= i < |Waiters()|
        ensures Waiters()[i].wtype == Read || Waiters()[i].wtype == Write
      {
        assert Waits(nodes[i], nodes[i + 1]);
      }
    }

    // How many hold the guard.
    function Rcount(): nat
      requires Valid()
      reads this, nodes
    {
      if tail.next.Count? then tail.next.rcount else 0
    }

    // The list as a classic guard without data.
    ghost function Value(): Atomic
      requires Valid()
      reads this, nodes
    {
      var mode := if !tail.next.Count? then None else if tail.next.read then Some(Read) else Some(Write);
      Atomic(Rcount(), mode, Waiters(), None)
    }

    constructor ()
      ensures Valid() && Value() == Unused && fresh(nodes)
    {
      var h := new EventBaseHolder(None, None);
      head, tail := h, h;
      nodes := [h];
    }

    // The number of waiters, found by walking the list.
    method CountWaiters() returns (res: nat)
      requires Valid()
      ensures res == |Waiters()|
    {
      var e := head;
      res := 0;
      while e.next.Node?
        invariant 0 <= res < |nodes| && e == nodes[res]
        decreases |nodes| - res
      {
        assert res < |nodes| - 1 ==> Waits(nodes[res], nodes[res + 1]);
        e := e.next.holder;
        res := res + 1;
      }
      assert res < |nodes| - 1 ==> Waits(nodes[res], nodes[res + 1]);
    }

    // e becomes the tail, and the event waits in the old tail.
    method Append(e: EventBaseHolder, t: EventBaseHolder, rwptr: Word, ev: Option<EventId>, mode: Option<Mode>)
      returns (retry: bool)
      requires Valid() && e !in nodes && t == tail && rwptr == t.next && rwptr.Count?
      requires ev.Some? && (mode == Some(Read) || mode == Some(Write)) && e.val == None && e.mode == None
      modifies this, tail, e`next
      ensures !retry && Valid() && nodes == old(nodes) + [e]
      ensures Value() == old(Value()).(waiters := old(Waiters()) + [Waiter(ev.value, mode.value)])
    {
      e.next := Count(rwptr.rcount, rwptr.read, rwptr.epoch + 1);
      assert forall i :: 0 <= i < |nodes| - 1 ==> Waits(nodes[i], nodes[i + 1]);
      var ok := SwapNext(t, rwptr, Node(e, rwptr.epoch + 1));
      retry := !ok;
      if ok {
        tail := e;
        t.mode := mode;
        t.val := ev;
        nodes := nodes + [e];
        assert Waits(t, e);
        assert Waiters() == old(Waiters()) + [WaiterOf(t)];
      }
    }

    // True: the event of e may go on.  False: it waits in the old tail, and e is the
    // new one.  Run alone, no attempt has to be repeated.
    method Push(e: EventBaseHolder) returns (res: bool)
      requires Valid() && e !in nodes && e.val.Some? && (e.mode == Some(Read) || e.mode == Some(Write))
      modifies this, tail, e
      ensures Valid()
      ensures (Value(), res) == Acquire(old(Value()), ReadWriteKind, old(e.val.value), old(e.mode.value))
      ensures nodes == if res then old(nodes) else old(nodes) + [e]
    {
      res := false;
      var ev := e.val;
      e.val := None;
      var mode := e.mode;
      e.mode := None;
      var retry := true;
      var h := head;
      var t := tail;
      var rwptr := t.next;
      assert |nodes| > 1 ==> Waits(nodes[0], nodes[1]) && head != tail;
      if h == t && rwptr.Null? {
        var ok := SwapNext(t, rwptr, Count(1, mode == Some(Read), rwptr.epoch + 1));
        if ok {
          res := true;
          e.val, e.mode := ev, mode;
          retry := false;
        }
      } else if h == t && rwptr.Count? && rwptr.read && mode == Some(Read) {
        var ok := SwapNext(t, rwptr, Count(rwptr.rcount + 1, true, rwptr.epoch + 1));
        if ok {
          res := true;
          e.val, e.mode := ev, mode;
          retry := false;
        }
      } else if (h == t || !h.next.Count?) && rwptr.Count? {
        retry := Append(e, t, rwptr, ev, mode);
      }
      assert !retry;
    }

    // The readers behind h that may go with it: the last of them, and how many with h.
    method LastReader(h: EventBaseHolder) returns (last: EventBaseHolder, count: nat)
      requires Valid() && |nodes| > 1 && h == nodes[0] && h.mode == Some(Read)
      ensures 1 <= count < |nodes| && last == nodes[count - 1]
      ensures count == 1 + Batch(Waiters()[1..], None)
    {
      last, count := h, 1;
      assert Waits(nodes[0], nodes[1]);
      ghost var q := Waiters();
      while last.next.holder.mode == Some(Read) && !last.next.holder.next.Count?
        invariant 1 <= count < |nodes| && last == nodes[count - 1] && Waits(nodes[count - 1], nodes[count])
        invariant count + Batch(q[count..], None) == 1 + Batch(q[1..], None)
        decreases |nodes| - count
      {
        assert count < |q| && q[count] == WaiterOf(nodes[count]);
        assert Waits(nodes[count], nodes[count + 1]);
        assert q[count..][1..] == q[count + 1..];
        last := last.next.holder;
        count := count + 1;
      }
      assert count < |q| ==> Waits(nodes[count], nodes[count + 1]) && q[count..][0] == WaiterOf(nodes[count]);
    }

    // The new count is put in the tail; a stale view of it is read again.
    static method Commit(t: EventBaseHolder, seen: Word, rcount: nat, read: bool)
      requires t.next.Count?
      modifies t`next
      ensures t.next == Count(rcount, read, old(t.next.epoch) + 1)
    {
      var rwptr := seen;
      var done := false;
      while !done
        invariant !done ==> t.next == old(t.next)
        invariant done ==> t.next == Count(rcount, read, old(t.next.epoch) + 1)
        decreases !done, rwptr != t.next
      {
        done := SwapNext(t, rwptr, Count(rcount, read, rwptr.epoch + 1));
        if !done {
          rwptr := t.next;
        }
      }
    }

    // The list is cut behind h, the count-th waiter; the rest is held by those cut off.
    method CutBehind(h: EventBaseHolder, count: nat, seen: Word) returns (ghost rel: seq<EventBaseHolder>)
      requires Valid() && tail.next.Count? && 1 <= count < |nodes| && h == nodes[count - 1]
      requires count > 1 ==> head.mode == Some(Read)
      modifies this, tail`next, h`next
      ensures Valid() && rel == old(nodes)[..count] && nodes == old(nodes)[count..]
      ensures tail.next.Count? && tail.next.rcount == count && tail.next.read == (old(head).mode == Some(Read))
      ensures Chained(old(head), rel)
    {
      hide WaiterOf, Waiters, Value, Rcount;
      ghost var all := nodes;
      assert Waits(all[count - 1], all[count]);
      assert forall i :: 0 <= i < |all| - 1 ==> Waits(all[i], all[i + 1]);
      var read := head.mode == Some(Read);
      head := h.next.holder;           // the compare-and-swap of head
      rel, nodes := all[..count], all[count..];
      Commit(tail, seen, count, read);
      h.next := Sentinel(0);
      assert forall i :: 0 <= i < |all| - 1 && i != count - 1 ==> Waits(all[i], all[i + 1]);
      forall i | 0 <= i < |rel| - 1
        ensures Waits(rel[i], rel[i + 1])
      {
        assert rel[i] == all[i] && rel[i + 1] == all[i + 1];
      }
    }

    // Going from read to write: the tail is told first.
    method TellWriter(rwptr: Word)
      requires Valid() && tail.next.Count? && rwptr == tail.next
      modifies tail`next
      ensures Valid() && tail.next == Count(1, false, rwptr.epoch + 1)
    {
      assert forall i :: 0 <= i < |nodes| - 1 ==> Waits(nodes[i], nodes[i + 1]);
      var ok := SwapNext(tail, rwptr, Count(1, false, rwptr.epoch + 1));
      assert ok;
      assert forall i :: 0 <= i < |nodes| - 1 ==> Waits(nodes[i], nodes[i + 1]);
    }

    // The last holder has released and there are waiters: the first goes on, and if it
    // reads, so do the readers right behind it.
    method PopWaiters() returns (el: EventBaseHolder, ghost rel: seq<EventBaseHolder>)
      requires Valid() && tail.next.Count? && tail.next.rcount == 1 && |nodes| > 1
      modifies this, nodes`next
      ensures Valid()
      ensures var q := old(Waiters());
              var k := if q[0].wtype == Read then 1 + Batch(q[1..], None) else 1;
              && k <= |q| && rel == old(nodes)[..k] && nodes == old(nodes)[k..]
              && tail.next.Count? && tail.next.rcount == k && tail.next.read == (q[0].wtype == Read)
      ensures Chained(el, rel)
    {
      var h := head;
      var t := tail;
      var rwptr := t.next;
      assert Waits(nodes[0], nodes[1]);
      hide Batch, Chained, Value, Rcount;
      el := h;
      var count := 1;
      if el.mode == Some(Read) {
        h, count := LastReader(el);
      }
      assert Waits(nodes[count - 1], nodes[count]);
      if t == h.next.holder && el.mode == Some(Write) && rwptr.read {
        TellWriter(rwptr);
      }
      rel := CutBehind(h, count, rwptr);
    }

    // Nobody waits and nobody else holds the guard: it is free.
    method PopLast()
      requires Valid() && tail.next.Count? && tail.next.rcount == 1 && head == tail
      modifies tail`next
      ensures Valid() && Value() == Release(old(Value()), ReadWriteKind).0 && LetGo(old(Value()), ReadWriteKind) == 0
    {
      assert nodes == [tail];
      var ok := SwapNext(tail, tail.next, Null(tail.next.epoch + 1));
      assert ok && Waiters() == [] && old(Waiters()) == [];
    }

    // Others still hold the guard.
    method PopOne()
      requires Valid() && tail.next.Count? && tail.next.rcount > 1
      modifies tail`next
      ensures Valid() && Value() == Release(old(Value()), ReadWriteKind).0 && LetGo(old(Value()), ReadWriteKind) == 0
    {
      assert forall i :: 0 <= i < |nodes| - 1 ==> Waits(nodes[i], nodes[i + 1]);
      var ok := SwapNext(tail, tail.next, Count(tail.next.rcount - 1, tail.next.read, tail.next.epoch + 1));
      assert ok && Waiters() == old(Waiters());
      assert forall i :: 0 <= i < |nodes| - 1 ==> Waits(nodes[i], nodes[i + 1]);
    }

    lemma FirstWaiter()
      requires Valid() && |nodes| > 1
      ensures head != tail && Waits(nodes[0], nodes[1]) && Waiters()[0] == WaiterOf(head)
    {
    }

    method PopFirst() returns (el: EventBaseHolder, ghost rel: seq<EventBaseHolder>)
      requires Valid() && tail.next.Count? && tail.next.rcount == 1 && |nodes| > 1
      modifies this, nodes`next
      ensures Valid() && Value() == Release(old(Value()), ReadWriteKind).0
      ensures |rel| == LetGo(old(Value()), ReadWriteKind) && rel == old(nodes)[..|rel|]
      ensures Chained(el, rel) && forall x :: x in nodes ==> x in old(nodes)
    {
      hide Batch, LetGo, Release, Chained, Waits;
      FirstWaiter();
      ghost var a := Value();
      el, rel := PopWaiters();
      CutValue(a, |rel|);
      assert Waiters() == a.waiters[|rel|..];
    }

    // What is left of the waiters when the first of them go on.
    static lemma CutValue(a: Atomic, k: nat)
      requires a.held == 1 && a.data == None && a.waiters != []
      requires a.waiters[0].wtype == Read || a.waiters[0].wtype == Write
      requires k == if a.waiters[0].wtype == Read then 1 + Batch(a.waiters[1..], None) else 1
      ensures k == LetGo(a, ReadWriteKind)
      ensures Release(a, ReadWriteKind).0 ==
              Atomic(k, if a.waiters[0].wtype == Read then Some(Read) else Some(Write), a.waiters[k..], None)
    {
    }

    /**
     * A holder of mode `mode` releases.  el is the chain of holders with the events that
     * hold the guard now, up to the sentinel; null if there are none.
     */
    method Pop(mode: Option<Mode>) returns (el: EventBaseHolder?, ghost rel: seq<EventBaseHolder>)
      requires Valid() && tail.next.Count?
      requires mode == Some(Read) <==> tail.next.read
      modifies this, nodes`next
      ensures Valid() && Value() == Release(old(Value()), ReadWriteKind).0
      ensures |rel| == LetGo(old(Value()), ReadWriteKind) && rel == old(nodes)[..|rel|]
      ensures Chained(el, rel) && forall x :: x in nodes ==> x in old(nodes)
    {
      el, rel := null, [];
      var h := head;
      var t := tail;
      var rwptr := t.next;
      assert (mode == Some(Read)) == rwptr.read;
      if |nodes| > 1 {
        FirstWaiter();
      }
      if h == t && rwptr.rcount == 1 {
        PopLast();
      } else if rwptr.rcount > 1 {
        PopOne();
      } else {
        assert h.val.Some? && h.mode.Some? && h.next.Node?;
        el, rel := PopFirst();
      }
    }

    // The events that hold the guard after a release, and the mode they hold it in.
    method PopEvents(mode: Option<Mode>) returns (events: seq<EventId>, mode': Option<Mode>)
      requires Valid() && tail.next.Count?
      requires mode == Some(Read) <==> tail.next.read
      modifies this, nodes`next
      ensures Valid() && Value() == Release(old(Value()), ReadWriteKind).0
      ensures events == Events(Release(old(Value()), ReadWriteKind).1)
      ensures tail.next.Count? ==> (mode' == Some(Read) <==> tail.next.read)
      ensures forall x :: x in nodes ==> x in old(nodes)
    {
      hide Release, LetGo, Chained;
      ghost var a := Value();
      LastLetGo(a);
      forall i | 0 <= i < |nodes| - 1
        ensures nodes[i].mode.Some?
      {
        assert Waits(nodes[i], nodes[i + 1]);
      }
      var el, rel := Pop(mode);
      events, mode' := Drained(el, rel, mode);
      assert forall i :: 0 <= i < |rel| ==> WaiterOf(rel[i]) == a.waiters[i];
      assert events == Events(a.waiters[..|rel|]);
    }

    // Those let go together all read, or there is only one; if there is none, then the
    // mode of the guard stays as long as it is held.
    static lemma LastLetGo(a: Atomic)
      requires a.held > 0 && a.data == None
      ensures var (a', rel) := Release(a, ReadWriteKind);
              var k := LetGo(a, ReadWriteKind);
              && rel == a.waiters[..k]
              && if k > 0 then a.waiters[k - 1].wtype == Read <==> a'.mode == Some(Read)
                 else a'.held > 0 ==> a'.mode == a.mode
    {
      if LetGo(a, ReadWriteKind) > 0 {
        LetGoJoins(a, LetGo(a, ReadWriteKind) - 1);
      }
    }

    static ghost predicate Chained(el: EventBaseHolder?, rel: seq<EventBaseHolder>)
      reads rel
    {
      && (rel == [] <==> el == null)
      && (rel != [] ==> el == rel[0] && rel[|rel| - 1].next.Sentinel? && rel[|rel| - 1].val.Some?)
      && (forall i :: 0 <= i < |rel| - 1 ==> Waits(rel[i], rel[i + 1]))
    }
  }

  // The events of a chain that came off the list, and the mode of the last of them.
  method Drained(el: EventBaseHolder?, ghost rel: seq<EventBaseHolder>, mode: Option<Mode>)
    returns (events: seq<EventId>, mode': Option<Mode>)
    requires ReadWriteWaiterList.Chained(el, rel)
    ensures |events| == |rel|
    ensures forall i :: 0 <= i < |rel| ==> rel[i].val == Some(events[i])
    ensures mode' == if rel == [] then mode else rel[|rel| - 1].mode
  {
    events, mode' := [], mode;
    var e := el;
    while e != null
      invariant |events| <= |rel| && (if |events| < |rel| then e == rel[|events|] else e == null)
      invariant forall i :: 0 <= i < |events| ==> rel[i].val == Some(events[i])
      invariant mode' == if events == [] then mode else rel[|events| - 1].mode
      decreases |rel| - |events|
    {
      ghost var k := |events|;
      assert k < |rel| - 1 ==> ReadWriteWaiterList.Waits(rel[k], rel[k + 1]);
      mode' := e.mode;
      events := events + [e.val.value];
      e := if e.next.Node? then e.next.holder else null;
    }
  }

  lemma {:induction false} BatchWithoutUpgradeables(q: seq<Waiter>, data: Option<Data>)
    requires forall i :: 0 <= i < |q| ==> q[i].wtype != Upgradeable
    ensures Batch(q, data) == Batch(q, None)
    decreases |q|
  {
    if q != [] {
      BatchWithoutUpgradeables(q[1..], data);
    }
  }

  lemma ReleaseIgnoresData(a: Atomic, data: Option<Data>)
    requires forall i :: 0 <= i < |a.waiters| ==> a.waiters[i].wtype != Upgradeable
    requires a.data == None
    ensures Release(a.(data := data), ReadWriteKind) ==
            (Release(a, ReadWriteKind).0.(data := data), Release(a, ReadWriteKind).1)
  {
    if a.waiters != [] {
      BatchWithoutUpgradeables(a.waiters[1..], data);
    }
  }

  class AtomicReadWrite {
    var data: Option<Data>
    var wtype: Option<Mode>
    const list: ReadWriteWaiterList

    ghost predicate Valid()
      reads this, list, list.nodes
    {
      list.Valid() && (list.tail.next.Count? ==> (wtype == Some(Read) <==> list.tail.next.read))
    }

    ghost function Value(): Atomic
      requires Valid()
      reads this, list, list.nodes
    {
      list.Value().(data := data)
    }

    ghost function Repr(): set<object>
      reads this, list
    {
      {this, list} + set x | x in list.nodes
    }

    constructor ()
      ensures Valid() && Value() == Unused && data == None && fresh(Repr())
    {
      data, wtype := None, None;
      list := new ReadWriteWaiterList();
    }

    function Held(): nat
      requires Valid()
      reads this, list, list.nodes
      ensures Held() == Value().held
    {
      list.Rcount()
    }

    // An upgradeable request is resolved here, when it is made.
    function Resolved(w: Mode): Mode
      reads this
    {
      if w == Upgradeable then if data.Some? then Read else Write else w
    }

    method AcquireOrWait(ev: EventId, w: Mode) returns (acqed: bool)
      requires Valid() && w != Exclusive
      modifies Repr()
      ensures Valid() && fresh(Repr() - old(Repr())) && data == old(data)
      ensures (Value(), acqed) == Acquire(old(Value()), ReadWriteKind, ev, old(Resolved(w)))
    {
      var ebh := new EventBaseHolder(Some(ev), Some(w));
      var local := Resolved(w);
      ebh.mode := Some(local);
      acqed := list.Push(ebh);
      if acqed {
        wtype := Some(local);
      }
    }

    // A holder releases: rel_ev grows by the events that now hold the guard.
    method ReleaseTo(rel_ev: seq<EventId>) returns (rel_ev': seq<EventId>)
      requires Valid() && Value().held > 0
      modifies Repr()
      ensures Valid() && fresh(Repr() - old(Repr())) && data == old(data)
      ensures Value() == Release(old(Value()), ReadWriteKind).0
      ensures rel_ev' == rel_ev + Events(Release(old(Value()), ReadWriteKind).1)
    {
      list.NobodyUpgrades();
      ReleaseIgnoresData(list.Value(), data);
      var events;
      events, wtype := list.PopEvents(wtype);
      rel_ev' := rel_ev + events;
    }
  }

  // ---------------------------------------------------------------------------
  // Side by side with the classic guard
  // ---------------------------------------------------------------------------

  ghost predicate NoUpgradeable(calls: seq<Call>) {
    forall i :: 0 <= i < |calls| && calls[i].Request? ==> calls[i].w.wtype != Upgradeable
  }

  // The data after the first i calls.
  function DataAt(calls: seq<Call>, i: nat): Option<Data>
    requires i <= |calls|
  {
    if i == 0 then None
    else if calls[i - 1].SetData? then calls[i - 1].data else DataAt(calls, i - 1)
  }

  // The same call, with the mode that an upgradeable request comes to when it is made.  A
  // holder releases what it holds, whatever it was called.
  predicate ResolvesTo(call: Call, resolved: Call, data: Option<Data>) {
    match call
    case Request(w) =>
      var mode := if w.wtype != Upgradeable then w.wtype else if data.Some? then Read else Write;
      resolved == Request(Waiter(w.event, mode))
    case Finish(w) => resolved.Finish? && resolved.w.event == w.event
    case SetData(_) => resolved == call
  }

  ghost predicate Resolution(calls: seq<Call>, resolved: seq<Call>) {
    |resolved| == |calls| && forall i :: 0 <= i < |calls| ==> ResolvesTo(calls[i], resolved[i], DataAt(resolved, i))
  }

  lemma OwnResolution(calls: seq<Call>)
    requires NoUpgradeable(calls)
    ensures Resolution(calls, calls)
  {
    forall i | 0 <= i < |calls|
      ensures ResolvesTo(calls[i], calls[i], DataAt(calls, i))
    {
      if calls[i].Request? {
        assert calls[i].w == Waiter(calls[i].w.event, calls[i].w.wtype);
      }
    }
  }

  method CallLockFree(a: AtomicReadWrite, call: Call, ghost resolved: Call) returns (answer: Answer)
    requires a.Valid() && (call.Finish? ==> a.Value().held > 0)
    requires ResolvesTo(call, resolved, a.data) && (call.Request? ==> call.w.wtype != Exclusive)
    modifies a.Repr()
    ensures a.Valid() && fresh(a.Repr() - old(a.Repr()))
    ensures a.Value() == Answered(old(a.Value()), ReadWriteKind, resolved).0
    ensures answer == Answered(old(a.Value()), ReadWriteKind, resolved).1
    ensures a.data == if resolved.SetData? then resolved.data else old(a.data)
  {
    match call
    case Request(w) =>
      var res := a.AcquireOrWait(w.event, w.wtype);
      answer := Granted(res);
    case Finish(_) =>
      var rel := a.ReleaseTo([]);
      answer := LetGoEvents(rel);
    case SetData(d) =>
      a.data := d;
      answer := Nothing;
  }

  // Over every history, with upgradeables or without, the lock-free guard answers as the
  // classic one does when the upgradeable requests are resolved as they are made.
  method RunLockFree(calls: seq<Call>, ghost resolved: seq<Call>) returns (answers: seq<Answer>, held: nat)
    requires Resolution(calls, resolved) && RunAll(Fresh, ReadWriteKind, resolved).Some?
    ensures answers == AnswersTo(Fresh, ReadWriteKind, resolved).0
    ensures held == AnswersTo(Fresh, ReadWriteKind, resolved).1.held
  {
    hide Run1, OnTrack, Answered, AnswersTo, RunAll, Allowed, AtomicReadWrite.Valid, AtomicReadWrite.Value;
    hide ReadWriteWaiterList.Valid, ReadWriteWaiterList.Value;
    var a := new AtomicReadWrite();
    answers := [];
    ghost var h := Fresh;
    StartOfCalls(ReadWriteKind, resolved);
    assert a.data == DataAt(resolved, 0) && |resolved| == |calls|;
    hide DataAt, Resolution, ResolvesTo;
    for i := 0 to |calls|
      invariant fresh(a.Repr()) && a.Valid() && a.Value() == h.a && a.data == DataAt(resolved, i)
      invariant OnTrack(h, ReadWriteKind, resolved, i, answers)
    {
      NextCall(h, ReadWriteKind, resolved, i, answers);
      NotExclusive(h, calls, resolved, i);
      h := Run1(h, ReadWriteKind, resolved[i]);
      var x := CallLockFree(a, calls[i], resolved[i]);
      answers := answers + [x];
    }
    EndOfCalls(h, ReadWriteKind, resolved, answers);
    held := a.Held();
  }

  lemma NotExclusive(h: History, calls: seq<Call>, resolved: seq<Call>, i: nat)
    requires Resolution(calls, resolved) && i < |calls| && Allowed(h, ReadWriteKind, resolved[i])
    ensures ResolvesTo(calls[i], resolved[i], DataAt(resolved, i))
    ensures DataAt(resolved, i + 1) == if resolved[i].SetData? then resolved[i].data else DataAt(resolved, i)
    ensures calls[i].Request? ==> calls[i].w.wtype != Exclusive
    ensures calls[i].Finish? <==> resolved[i].Finish?
  {
  }

  // The same requests to read or write and the same releases, made to a classic guard
  // and to a lock-free one, give the same answers, let the same events go in the same
  // order, and leave it with as many holders.
  method Lockstep(calls: seq<Call>)
    returns (classic: seq<Answer>, lockFree: seq<Answer>, classicHeld: nat, lockFreeHeld: nat)
    requires RunAll(Fresh, ReadWriteKind, calls).Some? && NoUpgradeable(calls)
    ensures classic == lockFree == AnswersTo(Fresh, ReadWriteKind, calls).0
    ensures classicHeld == lockFreeHeld == AnswersTo(Fresh, ReadWriteKind, calls).1.held
  {
    classic, classicHeld := RunReadWrite(calls);
    OwnResolution(calls);
    lockFree, lockFreeHeld := RunLockFree(calls, calls);
  }

  // With upgradeables the answers can differ: one that gets a free guard with data lets
  // readers in beside it here, but not in the classic guard.  Upgradeables.AgreeExactly says
  // on which histories they agree.
  lemma UpgradeableDiffers(up: EventId, reader: EventId, d: Data)
    ensures var calls := [SetData(Some(d)), Request(Waiter(up, Upgradeable)), Request(Waiter(reader, Read))];
            var resolved := [SetData(Some(d)), Request(Waiter(up, Read)), Request(Waiter(reader, Read))];
            && Resolution(calls, resolved)
            && RunAll(Fresh, ReadWriteKind, calls).Some? && RunAll(Fresh, ReadWriteKind, resolved).Some?
            && AnswersTo(Fresh, ReadWriteKind, calls).0 == [Nothing, Granted(true), Granted(false)]
            && AnswersTo(Fresh, ReadWriteKind, resolved).0 == [Nothing, Granted(true), Granted(true)]
  {
    var d0, r := SetData(Some(d)), Request(Waiter(reader, Read));
    var calls, resolved := [d0, Request(Waiter(up, Upgradeable)), r], [d0, Request(Waiter(up, Read)), r];
    assert DataAt(resolved, 2) == DataAt(resolved, 1) == Some(d);
    ThreeAnswers(d0, Request(Waiter(up, Upgradeable)), r);
    ThreeAnswers(d0, Request(Waiter(up, Read)), r);
  }

  lemma OneAnswer(h: History, c: Call, rest: seq<Call>)
    requires Allowed(h, ReadWriteKind, c) && RunAll(Run1(h, ReadWriteKind, c), ReadWriteKind, rest).Some?
    ensures RunAll(h, ReadWriteKind, [c] + rest).Some?
    ensures AnswersTo(h, ReadWriteKind, [c] + rest).0 ==
            [Answered(h.a, ReadWriteKind, c).1] + AnswersTo(Run1(h, ReadWriteKind, c), ReadWriteKind, rest).0
    ensures Run1(h, ReadWriteKind, c).a == Answered(h.a, ReadWriteKind, c).0
  {
    hide Allowed, Acquire, Release;
    assert ([c] + rest)[1..] == rest;
  }

  lemma NoAnswers(h: History)
    ensures RunAll(h, ReadWriteKind, []).Some? && AnswersTo(h, ReadWriteKind, []).0 == []
  {
  }

  lemma ThreeAnswers(c0: Call, c1: Call, c2: Call)
    requires !c0.Finish? && !c1.Finish? && !c2.Finish?
    requires Allowed(Fresh, ReadWriteKind, c0) && Allowed(Fresh, ReadWriteKind, c1) && Allowed(Fresh, ReadWriteKind, c2)
    ensures RunAll(Fresh, ReadWriteKind, [c0, c1, c2]).Some?
    ensures var (a1, x0) := Answered(Fresh.a, ReadWriteKind, c0);
            var (a2, x1) := Answered(a1, ReadWriteKind, c1);
            AnswersTo(Fresh, ReadWriteKind, [c0, c1, c2]).0 == [x0, x1, Answered(a2, ReadWriteKind, c2).1]
  {
    assert [c2] + [] == [c2] && [c1] + [c2] == [c1, c2] && [c0] + [c1, c2] == [c0, c1, c2];
    hide Run1, Answered, AnswersTo, RunAll;
    var h1 := Run1(Fresh, ReadWriteKind, c0);
    var h2 := Run1(h1, ReadWriteKind, c1);
    NoAnswers(Run1(h2, ReadWriteKind, c2));
    OneAnswer(h2, c2, []);
    OneAnswer(h1, c1, [c2]);
    OneAnswer(Fresh, c0, [c1, c2]);
  }
}
