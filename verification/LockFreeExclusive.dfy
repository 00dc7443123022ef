/**
 * The lock-free exclusive guard of src/runtime/lockfree/atomic/OFluxLFAtomic.h and
 * .cpp, called one operation at a time.  Each operation is proved to do to the guard's
 * value exactly what the classic guard does.
 */
module LockFreeExclusive {
  import opened Basics
  import opened ClassicAtomics

  // The word `next`: a pointer, or one of the marks 0x0001 and 0x0003.
  datatype Link = Null | One | Three | To(holder: EventBaseHolder)

  class EventBaseHolder {
    var ev: Option<EventId>
    var next: Link

    constructor (e: Option<EventId>)
      ensures ev == e && next == Null
    {
      ev, next := e, Null;
    }
  }

  // The compare-and-swap of a link.
  method SwapNext(h: EventBaseHolder, expected: Link, desired: Link) returns (ok: bool)
    modifies h`next
    ensures ok == (old(h.next) == expected)
    ensures h.next == if ok then desired else old(h.next)
  {
    ok := h.next == expected;
    if ok {
      h.next := desired;
    }
  }

  /**
   * States: 1. free: head == tail, next is One.  2. held: head == tail, next is Null.
   * 3. held with waiters: the events of the waiters sit in all holders but the last.
   */
  class ExclusiveWaiterList {
    var head: EventBaseHolder
    var tail: EventBaseHolder
    ghost var nodes: seq<EventBaseHolder>

    ghost predicate Valid()
      reads this, nodes
    {
      && nodes != [] && head == nodes[0] && tail == nodes[|nodes| - 1]
      && (forall i, j :: 0 <= i < j < |nodes| ==> nodes[i] != nodes[j])
      && (forall i :: 0 <= i < |nodes| - 1 ==> nodes[i].next == To(nodes[i + 1]) && nodes[i].ev.Some?)
      && tail.ev == None
      && (tail.next == Null || (tail.next == One && head == tail))
    }

    ghost function Waiters(): (q: seq<Waiter>)
      requires Valid()
      reads this, nodes
      ensures |q| == |nodes| - 1 && forall i :: 0 <= i < |q| ==> q[i] == Waiter(nodes[i].ev.value, Exclusive)
    {
      seq(|nodes| - 1,
          i requires 0 <= i < |nodes| - 1 && Valid() reads this, nodes => Waiter(nodes[i].ev.value, Exclusive))
    }

    constructor ()
      ensures Valid() && Empty() && Waiters() == [] && fresh(nodes)
    {
      var h := new EventBaseHolder(None);
      h.next := One;
      head, tail := h, h;
      nodes := [h];
    }

    predicate Empty()
      reads this, head
    {
      head.next == One
    }

    // The number of waiters, found by walking the list.
    method Count() returns (res: nat)
      requires Valid()
      ensures res == |Waiters()|
    {
      res := 0;
      var h := head;
      while h.ev.Some?
        invariant 0 <= res < |nodes| && h == nodes[res]
        decreases |nodes| - res
      {
        assert nodes[res].next == To(nodes[res + 1]);
        res := res + 1;
        h := h.next.holder;
      }
      assert !(res < |nodes| - 1);
    }

    /**
     * True: the guard is free and e's event has it.  False: the event waits; it sits in
     * the old tail, and e is the new one.  Run alone, no attempt has to be repeated.
     */
    method Push(e: EventBaseHolder) returns (res: bool)
      requires Valid() && e !in nodes && e.ev.Some?
      modifies this, head, tail, e
      ensures Valid() && res == old(Empty()) && !Empty()
      ensures nodes == if res then old(nodes) else old(nodes) + [e]
      ensures Waiters() == if res then old(Waiters()) else old(Waiters()) + [Waiter(old(e.ev.value), Exclusive)]
    {
      res := false;
      e.next := Null;
      var ev := e.ev;
      e.ev := None;
      var retry := false;
      var h := head;
      var hn := h.next;
      var ok := false;
      if hn == One {
        ok := SwapNext(h, One, Null);
      }
      if ok {
        e.ev := ev;
        res := true;
      } else {
        var t := tail;
        retry := t.next.To?;
        if !retry {
          ok := SwapNext(t, Null, To(e));
          if ok {
            tail := e;
            t.ev := ev;
            nodes := nodes + [e];
          } else {
            retry := true;
          }
        }
      }
      assert !retry;
    }

    /**
     * Null: nobody waited and the guard is free.  Otherwise the holder with the first
     * waiter's event, unlinked.
     */
    method Pop() returns (r: EventBaseHolder?)
      requires Valid() && !Empty()
      modifies this, head
      ensures Valid()
      ensures old(Waiters()) == [] ==> r == null && Empty() && nodes == old(nodes)
      ensures old(Waiters()) != [] ==>
                && r == old(head) && r !in nodes && !Empty() && nodes == old(nodes)[1..]
                && r.ev == Some(old(Waiters())[0].event) && r.next == Null
      ensures Waiters() == if r == null then [] else old(Waiters())[1..]
    {
      r := null;
      var retry := true;
      var h := head;
      var hn := h.next;
      var t := tail;
      assert |nodes| > 1 ==> nodes[0].next == To(nodes[1]) && nodes[0] != nodes[|nodes| - 1];
      assert |nodes| > 2 ==> nodes[1].next == To(nodes[2]);
      if !t.next.To? {
        if h != tail && hn.To? && h.ev.Some? {
          head := hn.holder;             // the compare-and-swap of head from h
          nodes := nodes[1..];
          r := h;
          r.next := Null;
          retry := false;
        } else if hn == Null {
          var ok := SwapNext(h, hn, One);
          retry := !ok;
        }
      }
      assert !retry;
    }
  }

  class AtomicExclusive {
    var data: Option<Data>
    const list: ExclusiveWaiterList

    ghost predicate Valid()
      reads this, list, list.nodes
    {
      list.Valid()
    }

    ghost function Value(): Atomic
      requires Valid()
      reads this, list, list.nodes
    {
      Atomic(if list.Empty() then 0 else 1, None, list.Waiters(), data)
    }

    ghost function Repr(): set<object>
      reads this, list
    {
      {this, list} + set x | x in list.nodes
    }

    constructor ()
      ensures Valid() && Value() == Unused && fresh(Repr())
    {
      data := None;
      list := new ExclusiveWaiterList();
    }

    predicate Held()
      requires Valid()
      reads this, list, list.nodes
      ensures Held() <==> Value().held > 0
    {
      !list.Empty()
    }

    method AcquireOrWait(ev: EventId, wtype: Mode) returns (acqed: bool)
      requires Valid()
      modifies Repr()
      ensures Valid() && fresh(Repr() - old(Repr())) && data == old(data)
      ensures (Value(), acqed) == Acquire(old(Value()), ExclusiveKind, ev, wtype)
    {
      var ebh := new EventBaseHolder(Some(ev));
      acqed := list.Push(ebh);
      if acqed {
        ebh.next := Three;
      }
    }

    // A holder releases: rel_ev grows by the event that now holds the guard.
    method ReleaseTo(rel_ev: seq<EventId>) returns (rel_ev': seq<EventId>)
      requires Valid() && Value().held > 0
      modifies Repr()
      ensures Valid() && fresh(Repr() - old(Repr())) && data == old(data)
      ensures Value() == Release(old(Value()), ExclusiveKind).0
      ensures rel_ev' == rel_ev + Events(Release(old(Value()), ExclusiveKind).1)
    {
      rel_ev' := rel_ev;
      var ebh := list.Pop();
      if ebh != null {
        ebh.next := Three;
        rel_ev' := rel_ev' + [ebh.ev.value];
      }
    }
  }

  method CallLockFree(a: AtomicExclusive, call: Call) returns (answer: Answer)
    requires a.Valid() && (call.Finish? ==> a.Value().held > 0)
    modifies a.Repr()
    ensures a.Valid() && fresh(a.Repr() - old(a.Repr()))
    ensures a.Value() == Answered(old(a.Value()), ExclusiveKind, call).0
    ensures answer == Answered(old(a.Value()), ExclusiveKind, call).1
  {
    match call
    case Request(w) =>
      var res := a.AcquireOrWait(w.event, w.wtype);
      answer := Granted(res);
    case Finish(_) =>
      var rel := a.ReleaseTo([]);
      answer := LetGoEvents(rel);
    case SetData(d) =>
      a.data := d;
      answer := Nothing;
  }

  method RunLockFree(calls: seq<Call>) returns (answers: seq<Answer>, held: bool)
    requires RunAll(Fresh, ExclusiveKind, calls).Some?
    ensures answers == AnswersTo(Fresh, ExclusiveKind, calls).0
    ensures held <==> AnswersTo(Fresh, ExclusiveKind, calls).1.held > 0
  {
    hide Run1, OnTrack, Answered, AnswersTo, RunAll, AtomicExclusive.Valid, AtomicExclusive.Value;
    hide ExclusiveWaiterList.Valid;
    var a := new AtomicExclusive();
    answers := [];
    ghost var h := Fresh;
    StartOfCalls(ExclusiveKind, calls);
    for i := 0 to |calls|
      invariant fresh(a.Repr()) && a.Valid() && a.Value() == h.a && OnTrack(h, ExclusiveKind, calls, i, answers)
    {
      NextCall(h, ExclusiveKind, calls, i, answers);
      h := Run1(h, ExclusiveKind, calls[i]);
      var x := CallLockFree(a, calls[i]);
      answers := answers + [x];
    }
    EndOfCalls(h, ExclusiveKind, calls, answers);
    held := a.Held();
  }

  // The same calls, made to a classic guard and to a lock-free one, give the same
  // answers, let the same events go in the same order, and leave it held or not alike.
  method Lockstep(calls: seq<Call>)
    returns (classic: seq<Answer>, lockFree: seq<Answer>, classicHeld: nat, lockFreeHeld: bool)
    requires RunAll(Fresh, ExclusiveKind, calls).Some?
    ensures classic == lockFree == AnswersTo(Fresh, ExclusiveKind, calls).0
    ensures classicHeld == AnswersTo(Fresh, ExclusiveKind, calls).1.held && (lockFreeHeld <==> classicHeld > 0)
  {
    classic, classicHeld := RunExclusive(calls);
    lockFree, lockFreeHeld := RunLockFree(calls);
  }
}
