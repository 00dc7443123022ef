/**
 * The guard kernel as the runtime executes it: loops that update the events, the atomics
 * and the queues in place.  Each method is proved to do what the function of the same
 * step in GuardKernel does, so what is proved there holds of the runtime.
 */
module GuardRuntime {
  import opened Basics
  import opened ClassicAtomics
  import opened GuardKernel
  import opened GuardTheorems
  import GuardKeys

  class RunTime {
    var events: map<EventId, Event>
    var atoms: map<Name, Atomic>
    var runq: seq<EventId>
    var threads: seq<Option<EventId>>
    var released: seq<EventId>          // handle's successor_events_released
    var successors: seq<EventId>        // handle's successor_events
    var nextId: EventId
    const collect: bool

    function Value(): State
      reads this
    {
      State(events, atoms, runq, threads, released, successors, nextId, collect)
    }

    constructor (workers: nat, gc: bool)
      ensures Init(Value()) && |threads| == workers && collect == gc
    {
      events, atoms, runq, released, successors, nextId := map[], map[], [], [], [], 0;
      threads := seq(workers, _ => None);
      collect := gc;
    }

    // AtomicMapStdMap::get: afterwards n is in the map, with the atomic that was there or,
    // if there was none, an unused one; every other name has what it had.
    method GetAtom(n: Name)
      modifies this`atoms
      ensures atoms.Keys == old(atoms).Keys + {n}
      ensures n !in old(atoms) ==> atoms[n] == Unused
      ensures forall m :: m in old(atoms) ==> atoms[m] == old(atoms)[m]
    {
      if n !in atoms {
        atoms := atoms[n := Unused];
      }
    }

    // HeldAtomic::build; turn is allow_late.
    method Build(e: EventId, i: nat, turn: bool)
      requires Live(Value(), e, i)
      modifies this`events, this`atoms
      ensures var slot := Built(old(events[e].slots[i]), turn);
              && events == old(events)[e := WithSlot(old(events[e]), i, slot)]
              && atoms == FoundFor(old(atoms), slot)
      ensures var was, slot := old(events[e].slots[i]), events[e].slots[i];
              slot.atom ==
              if was.atom.Some? then was.atom
              else if turn then was.ref.turn
              else if was.ref.late || was.ref.guard.gc then None
              else was.ref.early
    {
      var slot := events[e].slots[i];
      if (turn || !Late(slot.ref)) && slot.atom.None? {
        slot := slot.(atom := if turn then slot.ref.turn else slot.ref.early);
      }
      if slot.atom.Some? {
        GetAtom(NameOf(slot));
        assert atoms == Found(old(atoms), NameOf(slot));
      }
      events := events[e := WithSlot(events[e], i, slot)];
    }

    // get_keys_sort
    method GetKeysSort(e: EventId)
      requires e in events
      modifies this`events, this`atoms
      ensures Value() == BuildEarly(old(Value()), e, 0)
    {
      hide SameRefs, Built, FoundFor;
      ghost var goal := BuildEarly(Value(), e, 0);
      var i, n := 0, |events[e].slots|;
      while i < n
        invariant e in events && i <= n == |events[e].slots|
        invariant BuildEarly(Value(), e, i) == goal
      {
        Build(e, i, false);
        i := i + 1;
      }
    }

    // One turn of the loop of acquire_all_or_wait.
    method AcquireTurn(e: EventId, i: nat) returns (res: bool)
      requires Live(Value(), e, i)
      modifies this`events, this`atoms, this`released
      ensures Value() == AcquireOne(old(Value()), e, i).0
      ensures res <==> AcquireOne(old(Value()), e, i).1.Continues?
    {
      ghost var events0, ev := events, events[e];
      Build(e, i, true);
      var slot := events[e].slots[i];
      var at := Max(events[e].at, i);
      res := true;
      if slot.have || slot.atom.None? {
        events := events[e := events[e].(at := at)];
        assert events == events0[e := WithSlot(ev, i, slot).(at := at)];
      } else {
        var a := NameOf(slot);
        var (atom, granted) := Acquire(AtomAt(atoms, a), a.guard.kind, e, slot.ref.wtype);
        atoms := atoms[a := atom];
        if granted {
          events := events[e := WithSlot(events[e], i, slot.(have := true)).(at := at)];
          assert ev.slots[i := slot][i := slot.(have := true)] == ev.slots[i := slot.(have := true)];
          assert events == events0[e := WithSlot(ev, i, slot.(have := true)).(at := at)];
        } else {
          events := events[e := events[e].(at := at, place := Waiting(a))];
          assert events == events0[e := WithSlot(ev, i, slot).(at := at, place := Waiting(a))];
          released := if released == [] then [] else released[1..];
          res := false;
        }
      }
    }

    // acquire_all_or_wait, from the slot it is working on.  False: the event waits.
    method AcquireAllOrWait(e: EventId) returns (res: bool)
      requires e in events && events[e].at <= |events[e].slots|
      modifies this`events, this`atoms, this`released, this`successors
      ensures Value() == Reacquire(old(Value()), e)
      ensures res <==> |successors| > |old(successors)|
    {
      hide AcquireOne, SameRefs;
      ghost var goal := Reacquire(Value(), e);
      var i, n := events[e].at, |events[e].slots|;
      res := true;
      while i < n && res
        invariant e in events && i <= n == |events[e].slots| && successors == old(successors)
        invariant if res then AcquireFrom(Value(), e, i) == goal else Value() == goal
      {
        TurnKeepsLength(Value(), e, i);
        res := AcquireTurn(e, i);
        i := i + 1;
      }
      if res {
        successors := successors + [e];
        events := events[e := events[e].(place := Ready)];
        released := if released == [] then [] else released[1..];
      }
    }

    // The waiters that a release let go each take over the guard.
    method HandOffAll(rel: seq<EventId>, n: Name, ghost before: map<EventId, Event>)
      requires events == before && Distinct(rel)
      modifies this`events
      ensures events == HandedOffAll(before, rel, n)
    {
      for k := 0 to |rel|
        invariant events == HandedOffAll(before, rel[..k], n)
      {
        var r := rel[k];
        if r in events {
          assert r !in rel[..k];
          events := events[r := HandedOff(events[r], n)];
        }
        assert rel[..k + 1] == rel[..k] + [r];
      }
      assert rel[..|rel|] == rel;
    }

    // The atomic is released, and those that it lets go take it over.
    method LetGo(e: EventId, i: nat, n: Name) returns (rel: seq<EventId>)
      requires Live(Value(), e, i) && Distinct(Released(Value(), n))
      modifies this`events, this`atoms, this`released
      ensures Value() == LetGoOf(old(Value()), e, i, n) && rel == Released(old(Value()), n)
    {
      hide Release, HandedOffAll;
      var (a, ws) := Release(AtomAt(atoms, n), n.guard.kind);
      rel := EventsOf(ws);
      atoms := atoms[n := a];
      events := events[e := WithSlot(events[e], i, events[e].slots[i].(atom := None))];
      HandOffAll(rel, n, events);
      released := released + rel;
    }

    // One turn of the loop of AtomicsHolder::release.
    method ReleaseTurn(e: EventId, i: nat)
      requires Inv(Value()) && Live(Value(), e, i) && events[e].place.Running?
      modifies this`events, this`atoms, this`released
      ensures Value() == ReleaseOne(old(Value()), e, i)
    {
      var slot := events[e].slots[i];
      assert Staged(events[e]) && Finishing(slot);
      if slot.have && slot.atom.Some? {
        var n := NameOf(slot);
        HolderCounts(Value(), e, i, n);
        ReleasedWait(Value(), n);
        hide Inv, LetGoOf, Released;
        var rel := LetGo(e, i, n);
        var a := AtomAt(atoms, n);
        if rel == [] && a.waiters == [] && a.held == 0 && a.data == None && n.guard.gc && collect {
          atoms := atoms - {n};
        }
        HandIs(old(Value()), e, i, n);
      }
    }

    // Guards are released in reverse order.
    method ReleaseAll(e: EventId)
      requires Inv(Value()) && e in events && events[e].place.Running?
      modifies this`events, this`atoms, this`released
      ensures Value() == ReleaseDown(old(Value()), e, |old(events[e].slots)|)
    {
      hide ReleaseOne, Inv, SameRefs, OnlyReleased;
      ghost var goal := ReleaseDown(Value(), e, |events[e].slots|);
      var i: nat := |events[e].slots|;
      while i > 0
        invariant e in events && i <= |events[e].slots| && events[e].place.Running?
        invariant Inv(Value()) && ReleaseDown(Value(), e, i) == goal
      {
        i := i - 1;
        ReleaseOneStep(Value(), e, i);
        ReleaseTurn(e, i);
      }
    }

    // A new event, which acquires at once.
    method CreateEvent(refs: seq<Ref>)
      modifies this`events, this`atoms, this`released, this`successors, this`nextId
      ensures Value() == Create(old(Value()), refs)
    {
      hide BuildEarly, AcquireFrom, SameRefs;
      var e := nextId;
      events := events[e := NewEvent(refs)];
      nextId := e + 1;
      released := [e] + released;
      BuildEarlyBuilds(Value(), e, 0);
      GetKeysSort(e);
      var ready := AcquireAllOrWait(e);
    }

    // successors_on_no_error and successors_on_error
    method CreateSuccessors(succs: seq<seq<Ref>>)
      modifies this`events, this`atoms, this`released, this`successors, this`nextId
      ensures Value() == CreateAll(old(Value()), succs)
      ensures (forall x :: x in old(events) ==> x < old(nextId)) ==> GuardKeys.InOrder(events, old(nextId), succs)
    {
      if forall x :: x in events ==> x < nextId {
        GuardKeys.CreateAllCarries(Value(), succs);
      }
      hide Create, GuardKeys.InOrder;
      ghost var goal := CreateAll(Value(), succs);
      assert succs[0..] == succs;
      for i := 0 to |succs|
        invariant CreateAll(Value(), succs[i..]) == goal
      {
        assert succs[i..][0] == succs[i] && succs[i..][1..] == succs[i + 1..];
        CreateEvent(succs[i]);
      }
    }

    // The events that the release let go acquire the rest of what they need.
    method ReacquireReleased()
      requires Inv(Value())
      modifies this`events, this`atoms, this`released, this`successors
      ensures Value() == ReacquireAll(old(Value()), old(released))
    {
      hide AcquireFrom, Inv, SameRefs;
      ghost var goal := ReacquireAll(Value(), released);
      var rel := released;
      assert rel[0..] == rel;
      for i := 0 to |rel|
        invariant Inv(Value()) && released == rel[i..] && ReacquireAll(Value(), rel[i..]) == goal
      {
        assert rel[i..][0] == rel[i] && rel[i..][1..] == rel[i + 1..];
        FrontWorks(Value());
        AcquireKeepsInv(Value(), rel[i], events[rel[i]].at);
        WorkingFits(Value(), rel[i], events[rel[i]].at);
        var ready := AcquireAllOrWait(rel[i]);
      }
    }

    // RunTimeThread::handle, after the event has run.
    method HandleEvent(t: ThreadId, succs: seq<seq<Ref>>)
      requires Good(Value()) && Enabled(Value(), Handle(t, succs))
      modifies this
      ensures Value() == Handled(old(Value()), t, succs) && Good(Value())
      ensures GuardKeys.InOrder(events, old(nextId), succs)
    {
      hide CreateAll, ReleaseDown, ReacquireAll, Inv, RunnersSettled, Enqueued, SameRefs;
      hide GuardKeys.InOrder, GuardKeys.CarriesBut;
      assert GuardKeys.InOrder(Do(Value(), Handle(t, succs)).events, nextId, succs) by {
        GuardKeys.SuccessorsAreFor(Value(), t, succs);
      }
      var e := threads[t].value;
      ghost var s := Value();
      HandleStep(s, t, succs);
      RunsIsOld(s, t, e);
      CreateAllKeepsInv(s, succs);
      CreateSuccessors(succs);
      ReleaseKeepsInv(Value(), e, |events[e].slots|);
      ReleaseAll(e);
      ReacquireReleased();
      HandleParts(s, t, succs);
      events := events - {e};
      threads := threads[t := None];
      EnqueueAsKernel();
    }

    // What the kernel does with them.
    method EnqueueAsKernel()
      modifies this`events, this`runq, this`successors
      ensures Value() == Enqueued(old(Value()))
    {
      Enqueue();
      assert events == Enqueued(old(Value())).events;
    }

    // enqueue_list: those that are ready go to the end of the run queue, in order, and
    // nothing else about any event changes.
    method Enqueue()
      modifies this`events, this`runq, this`successors
      ensures runq == old(runq) + old(successors) && successors == []
      ensures events.Keys == old(events).Keys
      ensures forall x :: x in events ==>
                events[x] == if x in old(successors) then old(events)[x].(place := Queued) else old(events)[x]
    {
      var ready := successors;
      events := map x | x in events :: if x in ready then events[x].(place := Queued) else events[x];
      runq := runq + ready;
      successors := [];
    }

    // A source or an initial event is created and queued.
    method InjectEvent(refs: seq<Ref>)
      requires Good(Value())
      modifies this
      ensures Value() == Do(old(Value()), Inject(refs)) && Good(Value())
    {
      hide Create, Enqueued, Inv, RunnersSettled;
      InjectStep(Value(), refs);
      CreateEvent(refs);
      EnqueueAsKernel();
    }

    // A thread takes the next event.
    method TakeEvent(t: ThreadId)
      requires Good(Value()) && Enabled(Value(), Take(t))
      modifies this`runq, this`threads, this`events
      ensures Value() == Do(old(Value()), Take(t)) && Good(Value())
    {
      TakeStep(Value(), t);
      hide Good;
      var e := runq[0];
      runq := runq[1..];
      threads := threads[t := Some(e)];
      if e in events {
        events := events[e := events[e].(place := Running(t))];
      }
    }
  }

  lemma TurnKeepsLength(s: State, e: EventId, i: nat)
    requires Live(s, e, i)
    ensures e in AcquireOne(s, e, i).0.events
    ensures |AcquireOne(s, e, i).0.events[e].slots| == |s.events[e].slots|
  {
    hide AcquireOne;
    assert SameRefs(s.events[e].slots, AcquireOne(s, e, i).0.events[e].slots);
  }

  lemma WorkingFits(s: State, e: EventId, i: nat)
    requires Working(s, e, i)
    ensures i <= |s.events[e].slots|
  {
  }

  // ---------------------------------------------------------------------------
  // The order in which a node's guards are acquired
  // ---------------------------------------------------------------------------

  ghost predicate SortedByMagic(refs: seq<Ref>) {
    forall i, j :: 0 <= i < j < |refs| ==> refs[i].guard.magic <= refs[j].guard.magic
  }

  // A reference goes behind those with the same or a smaller number.
  method PlaceByMagic(refs: seq<Ref>, r: Ref) returns (k: nat)
    requires SortedByMagic(refs)
    ensures k <= |refs|
    ensures forall j :: 0 <= j < k ==> refs[j].guard.magic <= r.guard.magic
    ensures forall j :: k <= j < |refs| ==> refs[j].guard.magic > r.guard.magic
  {
    k := |refs|;
    while k > 0 && refs[k - 1].guard.magic > r.guard.magic
      invariant k <= |refs|
      invariant forall j :: k <= j < |refs| ==> refs[j].guard.magic > r.guard.magic
    {
      k := k - 1;
    }
  }

  lemma PlacedByMagic(refs: seq<Ref>, r: Ref, k: nat)
    requires SortedByMagic(refs) && k <= |refs|
    requires forall j :: 0 <= j < k ==> refs[j].guard.magic <= r.guard.magic
    requires forall j :: k <= j < |refs| ==> refs[j].guard.magic > r.guard.magic
    ensures var refs' := refs[..k] + [r] + refs[k..];
            SortedByMagic(refs') && multiset(refs') == multiset(refs) + multiset{r}
  {
    var refs' := refs[..k] + [r] + refs[k..];
    assert refs == refs[..k] + refs[k..];
    forall i, j | 0 <= i < j < |refs'|
      ensures refs'[i].guard.magic <= refs'[j].guard.magic
    {
      assert refs'[i] == if i < k then refs[i] else if i == k then r else refs[i - 1];
      assert refs'[j] == if j < k then refs[j] else if j == k then r else refs[j - 1];
    }
  }

  // Node::sortGuards: the references in the order of their guards' magic numbers, and
  // whether no two numbers are equal.
  method SortGuards(refs: seq<Ref>) returns (sorted: seq<Ref>, completely: bool)
    ensures SortedByMagic(sorted) && multiset(sorted) == multiset(refs)
    ensures completely <==> forall i, j :: 0 <= i < j < |sorted| ==> sorted[i].guard.magic != sorted[j].guard.magic
    ensures completely ==> Ascending(sorted)
  {
    sorted := [];
    for i := 0 to |refs|
      invariant SortedByMagic(sorted) && multiset(sorted) == multiset(refs[..i])
    {
      assert refs[..i + 1] == refs[..i] + [refs[i]];
      var k := PlaceByMagic(sorted, refs[i]);
      PlacedByMagic(sorted, refs[i], k);
      sorted := sorted[..k] + [refs[i]] + sorted[k..];
    }
    assert refs[..|refs|] == refs;
    completely := true;
    var last: int, i := -1, 0;
    while i < |sorted| && completely
      invariant i <= |sorted| && (completely ==> last == if i == 0 then -1 else sorted[i - 1].guard.magic)
      invariant completely ==> forall j, k :: 0 <= j < k < i ==> sorted[j].guard.magic < sorted[k].guard.magic
      invariant !completely ==> exists j, k :: 0 <= j < k < |sorted| && sorted[j].guard.magic == sorted[k].guard.magic
    {
      var mn := sorted[i].guard.magic;
      if last >= mn {
        completely := false;
        assert sorted[i - 1].guard.magic == sorted[i].guard.magic;
      }
      last := mn;
      i := i + 1;
    }
    if completely {
      DistinctMagicAscends(sorted);
    }
  }

  lemma HandIs(s: State, e: EventId, i: nat, n: Name)
    requires Live(s, e, i)
    ensures LetGoOf(s, e, i, n).hand == s.hand + Released(s, n)
  {
  }
}
