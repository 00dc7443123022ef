/**
 * When the guard kernel does deadlock.  Events that refer to two exclusive atomics each
 * can be stuck for ever exactly if their references contain a cycle; a node that uses one
 * guard in two modes, and one that takes an atomic twice, are stuck too.
 */
module GuardDeadlock {
  import opened Basics
  import opened ClassicAtomics
  import opened GuardKernel
  import opened GuardTheorems
  import Cycles

  // A reference to n, whose guard function answers one key at any time.
  function Plain(n: Name, w: Mode): Ref {
    Ref(n.guard, w, false, Some(n.key), Some(n.key))
  }

  function Pair(x: Name, wx: Mode, y: Name, wy: Mode): seq<Ref> {
    [Plain(x, wx), Plain(y, wy)]
  }

  // Nothing can be done, and there are events.
  ghost predicate Deadlocked(s: State) {
    s.events.Keys != {} && !CanMove(s)
  }

  // ---------------------------------------------------------------------------
  // What one step does to an event with two references
  // ---------------------------------------------------------------------------

  // An attempt to acquire n, with its outcome.
  lemma TakeTurn(s: State, e: EventId, i: nat, n: Name, w: Mode)
    requires Live(s, e, i) && s.events[e].slots[i].ref == Plain(n, w) && !s.events[e].slots[i].have
    requires s.events[e].slots[i].atom.Some? ==> s.events[e].slots[i].atom == Some(n.key)
    ensures var ev, (s', out) := s.events[e], AcquireOne(s, e, i);
            var (a, ok) := Acquire(AtomAt(s.atoms, n), n.guard.kind, e, w);
            && (out.Continues? <==> ok)
            && s' == s.(events := s.events[e := WithSlot(ev, i, Slot(Plain(n, w), Some(n.key), ok))
                                                .(at := Max(ev.at, i), place := if ok then ev.place else Waiting(n))],
                        atoms := s'.atoms,
                        hand := if ok || s.hand == [] then s.hand else s.hand[1..])
            && forall m :: AtomAt(s'.atoms, m) == if m == n then a else AtomAt(s.atoms, m)
  {
  }

  // A new event with two references, after it has acquired what it can.
  function PairEvent(x: Name, wx: Mode, y: Name, wy: Mode, okx: bool, oky: bool): Event {
    Event([Slot(Plain(x, wx), Some(x.key), okx),
           Slot(Plain(y, wy), if okx || !Late(Plain(y, wy)) then Some(y.key) else None, okx && oky)],
          if okx then 1 else 0,
          if !okx then Waiting(x) else if !oky then Waiting(y) else Queued)
  }

  // Without the first, the second has not been asked for.
  lemma NothingYet(x: Name, wx: Mode, y: Name, wy: Mode)
    ensures PairEvent(x, wx, y, wy, false, true) == PairEvent(x, wx, y, wy, false, false)
  {
  }

  function Early(n: Name, w: Mode): Slot {
    Built(Slot(Plain(n, w), None, false), false)
  }

  lemma BuildPair(s: State, e: EventId, x: Name, wx: Mode, y: Name, wy: Mode)
    requires e in s.events && s.events[e] == NewEvent(Pair(x, wx, y, wy))
    ensures var s' := BuildEarly(s, e, 0);
            && s' == s.(events := s.events[e := Event([Early(x, wx), Early(y, wy)], 0, InHand)], atoms := s'.atoms)
            && forall m :: AtomAt(s'.atoms, m) == AtomAt(s.atoms, m)
  {
    hide BuildEarly, SameRefs, Built;
    BuildEarlyBuilds(s, e, 0);
    assert BuiltFrom(s.events[e].slots, 0) == [Early(x, wx), Early(y, wy)];
  }

  // It has the first, or has none, and acquires the second.
  lemma AcquireSecond(s: State, e: EventId, x: Name, wx: Mode, y: Name, wy: Mode)
    requires e in s.events && s.hand == [e]
    requires s.events[e] == Event([Slot(Plain(x, wx), Some(x.key), true), Early(y, wy)], 0, InHand)
    ensures var s', (ay, oky) := AcquireFrom(s, e, 1), Acquire(AtomAt(s.atoms, y), y.guard.kind, e, wy);
            && s' == s.(events := s'.events, atoms := s'.atoms, hand := [],
                        ready := if oky then s.ready + [e] else s.ready)
            && s'.events == s.events[e := if oky then PairEvent(x, wx, y, wy, true, true).(place := Ready)
                                          else PairEvent(x, wx, y, wy, true, false)]
            && forall m :: AtomAt(s'.atoms, m) == if m == y then ay else AtomAt(s.atoms, m)
  {
    hide AcquireOne, SameShape, Acquire, AtomAt;
    TakeTurn(s, e, 1, y, wy);
    var (s1, out) := AcquireOne(s, e, 1);
    assert s1.events[e].slots == PairEvent(x, wx, y, wy, true, out.Continues?).slots;
    assert AcquireFrom(s, e, 1) == if out.Waits? then s1 else AcquireFrom(s1, e, 2);
  }

  lemma AcquirePair(s: State, e: EventId, x: Name, wx: Mode, y: Name, wy: Mode)
    requires e in s.events && s.events[e] == Event([Early(x, wx), Early(y, wy)], 0, InHand)
    requires s.hand == [e] && x != y
    ensures var s', (ax, okx), (ay, oky) := AcquireFrom(s, e, 0), Acquire(AtomAt(s.atoms, x), x.guard.kind, e, wx),
                                            Acquire(AtomAt(s.atoms, y), y.guard.kind, e, wy);
            && s'.hand == [] && s' == s.(events := s'.events, atoms := s'.atoms, hand := [], ready := s'.ready)
            && s'.ready == (if okx && oky then s.ready + [e] else s.ready)
            && s'.events == s.events[e := if okx && oky then PairEvent(x, wx, y, wy, true, true).(place := Ready)
                                          else PairEvent(x, wx, y, wy, okx, oky)]
            && forall m :: AtomAt(s'.atoms, m) ==
                           if m == x then ax else if m == y && okx then ay else AtomAt(s.atoms, m)
  {
    hide AcquireOne, SameShape, Acquire, AtomAt;
    TakeTurn(s, e, 0, x, wx);
    var (s1, out) := AcquireOne(s, e, 0);
    var ev := s1.events[e];
    assert AcquireFrom(s, e, 0) == if out.Waits? then s1 else AcquireFrom(s1, e, 1);
    if out.Waits? {
      assert ev.slots == PairEvent(x, wx, y, wy, false, false).slots;
    } else {
      assert ev.slots == [Slot(Plain(x, wx), Some(x.key), true), Early(y, wy)];
      hide PairEvent, Early;
      AcquireSecond(s1, e, x, wx, y, wy);
    }
  }

  lemma CreatePair(s: State, x: Name, wx: Mode, y: Name, wy: Mode)
    requires s.hand == [] && s.ready == [] && x != y && s.nextId !in s.events
    ensures var e := s.nextId;
            var s' := Create(s, Pair(x, wx, y, wy));
            var (ax, okx) := Acquire(AtomAt(s.atoms, x), x.guard.kind, e, wx);
            var (ay, oky) := Acquire(AtomAt(s.atoms, y), y.guard.kind, e, wy);
            && s' == s.(events := s'.events, atoms := s'.atoms, nextId := e + 1,
                        ready := if okx && oky then [e] else [])
            && s'.events == s.events[e := if okx && oky then PairEvent(x, wx, y, wy, true, true).(place := Ready)
                                          else PairEvent(x, wx, y, wy, okx, oky)]
            && forall m :: AtomAt(s'.atoms, m) ==
                           if m == x then ax else if m == y && okx then ay else AtomAt(s.atoms, m)
  {
    hide BuildEarly, AcquireFrom, SameShape, AtomAt, PairEvent, Acquire, Early;
    var e, refs := s.nextId, Pair(x, wx, y, wy);
    var s1 := s.(events := s.events[e := NewEvent(refs)], nextId := e + 1, hand := [e] + s.hand);
    assert s1.hand == [e];
    BuildPair(s1, e, x, wx, y, wy);
    AcquirePair(BuildEarly(s1, e, 0), e, x, wx, y, wy);
  }

  lemma EnqueueMade(s: State, events: map<EventId, Event>, e: EventId, made: Event, ok: bool)
    requires e !in events && s.events == events[e := made] && s.ready == if ok then [e] else []
    ensures Enqueued(s) == s.(runq := if ok then s.runq + [e] else s.runq, ready := [],
                              events := events[e := if ok then made.(place := Queued) else made])
  {
    assert Enqueued(s).events == events[e := if ok then made.(place := Queued) else made];
  }

  lemma EnqueueNothing(s: State)
    requires s.ready == []
    ensures Enqueued(s) == s
  {
    assert Enqueued(s).events == s.events;
  }

  lemma NewIsNew(s: State)
    requires Good(s)
    ensures s.nextId !in s.events
  {
  }

  // Injecting an event with two references.
  lemma InjectPair(s: State, x: Name, wx: Mode, y: Name, wy: Mode)
    requires Good(s) && x != y
    ensures var e := s.nextId;
            var s', (ax, okx), (ay, oky) := Do(s, Inject(Pair(x, wx, y, wy))),
                                            Acquire(AtomAt(s.atoms, x), x.guard.kind, e, wx),
                                            Acquire(AtomAt(s.atoms, y), y.guard.kind, e, wy);
            && Good(s') && e !in s.events
            && s'.events == s.events[e := PairEvent(x, wx, y, wy, okx, oky)]
            && s' == s.(events := s'.events, atoms := s'.atoms, nextId := e + 1,
                        runq := if okx && oky then s.runq + [e] else s.runq)
            && forall m :: AtomAt(s'.atoms, m) ==
                           if m == x then ax else if m == y && okx then ay else AtomAt(s.atoms, m)
  {
    var e, refs := s.nextId, Pair(x, wx, y, wy);
    hide Create, Inv, RunnersSettled, AtomAt, Acquire, Pair, Enqueued, EventsInv, AtomsInv, PlacesInv;
    StepKeepsGood(s, Inject(refs));
    NewIsNew(s);
    CreatePair(s, x, wx, y, wy);
    var s1 := Create(s, refs);
    EnqueueMade(s1, s.events, e, s1.events[e], s1.ready != []);
  }

  // ---------------------------------------------------------------------------
  // The handle that closes the circle
  // ---------------------------------------------------------------------------

  // A release that leaves the atomic in use collects nothing.
  lemma ReleaseTurn(s: State, e: EventId, i: nat, n: Name)
    requires Live(s, e, i) && s.events[e].slots[i].have && PointsTo(s.events[e].slots[i], n)
    requires Release(AtomAt(s.atoms, n), n.guard.kind).0.held > 0
    ensures ReleaseOne(s, e, i) == LetGoOf(s, e, i, n)
  {
    hide HandedOffAll, SameShape, Release;
  }

  // The holder of two atomics lets go of the second, then of the first.
  lemma ReleasePair(s: State, e: EventId, x: Name, y: Name)
    requires e in s.events && |s.events[e].slots| == 2 && x != y
    requires s.events[e].slots[0].have && PointsTo(s.events[e].slots[0], x)
    requires s.events[e].slots[1].have && PointsTo(s.events[e].slots[1], y)
    requires Release(AtomAt(s.atoms, x), x.guard.kind).0.held > 0
    requires Release(AtomAt(s.atoms, y), y.guard.kind).0.held > 0
    requires forall w :: w in Release(AtomAt(s.atoms, y), y.guard.kind).1 ==> w.event != e
    ensures var s1 := LetGoOf(s, e, 1, y);
            Live(s1, e, 0) && ReleaseDown(s, e, 2) == LetGoOf(s1, e, 0, x)
  {
    hide Release, SameShape;
    ReleaseTurn(s, e, 1, y);
    var s1 := LetGoOf(s, e, 1, y);
    var rel := EventsOf(Release(AtomAt(s.atoms, y), y.guard.kind).1);
    assert e !in rel;
    assert s1.events[e].slots[0] == s.events[e].slots[0] && AtomAt(s1.atoms, x) == AtomAt(s.atoms, x);
    ReleaseTurn(s1, e, 0, x);
    assert ReleaseDown(s, e, 2) == ReleaseDown(s1, e, 1) == ReleaseDown(LetGoOf(s1, e, 0, x), e, 0);
  }

  // Letting go of an atomic for which others wait hands it to the first of them.
  lemma HandsOver(s: State, e: EventId, i: nat, n: Name, h: EventId)
    requires Live(s, e, i) && h in s.events && h != e
    requires AtomAt(s.atoms, n).waiters != [] && AtomAt(s.atoms, n).waiters[0].event == h
    requires Release(AtomAt(s.atoms, n), n.guard.kind).1 == [AtomAt(s.atoms, n).waiters[0]]
    ensures var s' := LetGoOf(s, e, i, n);
            && s' == s.(events := s'.events, atoms := s'.atoms, hand := s.hand + [h])
            && s'.events.Keys == s.events.Keys
            && s'.events[h] == HandedOff(s.events[h], n)
            && (forall u :: u in s.events && u != e && u != h ==> s'.events[u] == s.events[u])
            && (forall m :: AtomAt(s'.atoms, m) ==
                            if m == n then Release(AtomAt(s.atoms, n), n.guard.kind).0 else AtomAt(s.atoms, m))
  {
    hide Release, HandedOff;
    var rel := EventsOf(Release(AtomAt(s.atoms, n), n.guard.kind).1);
    assert rel == [h];
  }

  // A waiter for the first of its two atomics, when it gets it.
  lemma FirstHanded(x: Name, wx: Mode, y: Name, wy: Mode)
    ensures var ev, ev' := PairEvent(x, wx, y, wy, false, false), HandedOff(PairEvent(x, wx, y, wy, false, false), x);
            ev'.at == 1 && ev'.place == InHand && ev'.slots == [ev.slots[0].(have := true), ev.slots[1]]
  {
    var ev := PairEvent(x, wx, y, wy, false, false);
    assert PointsTo(ev.slots[0], x);
  }

  // It goes on to the second, and must wait for that.
  lemma WaitsForSecond(s: State, e: EventId, n: Name, w: Mode)
    requires e in s.events && s.events[e].at == 1 && |s.events[e].slots| == 2 && s.hand != []
    requires s.events[e].slots[1].ref == Plain(n, w) && !s.events[e].slots[1].have
    requires s.events[e].slots[1].atom.Some? ==> s.events[e].slots[1].atom == Some(n.key)
    requires !Acquire(AtomAt(s.atoms, n), n.guard.kind, e, w).1
    ensures var s' := Reacquire(s, e);
            && s' == s.(events := s'.events, atoms := s'.atoms, hand := s.hand[1..])
            && s'.events.Keys == s.events.Keys
            && (forall u :: u in s.events && u != e ==> s'.events[u] == s.events[u])
            && (forall m :: AtomAt(s'.atoms, m) ==
                  if m == n then Acquire(AtomAt(s.atoms, n), n.guard.kind, e, w).0 else AtomAt(s.atoms, m))
  {
    hide AcquireOne, SameShape, Acquire;
    TakeTurn(s, e, 1, n, w);
    assert AcquireFrom(s, e, 1) == AcquireOne(s, e, 1).0;
  }

  // f holds x and y, and runs; f' is the first to wait for x, with nothing, and e the
  // only one to wait for y, with nothing.  When f is done, f' gets x and wants y, and e
  // gets y and wants z, which is held.
  ghost predicate AboutToClose(s: State, f: EventId, f': EventId, e: EventId, x: Name, y: Name, z: Name) {
    && x != y && z != y
    && x.guard.kind == ExclusiveKind && y.guard.kind == ExclusiveKind && z.guard.kind == ExclusiveKind
    && f in s.events && s.events[f].slots == PairEvent(x, Exclusive, y, Exclusive, true, true).slots
    && f' in s.events && s.events[f'] == PairEvent(x, Exclusive, y, Exclusive, false, false)
    && e in s.events && s.events[e] == PairEvent(y, Exclusive, z, Exclusive, false, false)
    && f != e && f != f'
    && AtomAt(s.atoms, x).waiters != [] && AtomAt(s.atoms, x).waiters[0].event == f'
    && |AtomAt(s.atoms, y).waiters| == 1 && AtomAt(s.atoms, y).waiters[0].event == e
    && AtomAt(s.atoms, z).held > 0
  }

  lemma FirstHandover(s: State, f: EventId, f': EventId, e: EventId, x: Name, y: Name, z: Name)
    requires AboutToClose(s, f, f', e, x, y, z)
    ensures var s1 := LetGoOf(s, f, 1, y);
            && s1 == s.(events := s1.events, atoms := s1.atoms, hand := s.hand + [e])
            && s1.events.Keys == s.events.Keys && s1.events[f'] == s.events[f']
            && s1.events[e] == HandedOff(s.events[e], y)
            && AtomAt(s1.atoms, x) == AtomAt(s.atoms, x) && AtomAt(s1.atoms, y).held == 1
            && AtomAt(s1.atoms, z).held > 0
  {
    HandsOver(s, f, 1, y, e);
  }

  lemma BothHandovers(s: State, f: EventId, f': EventId, e: EventId, x: Name, y: Name, z: Name)
    requires AboutToClose(s, f, f', e, x, y, z) && s.hand == []
    ensures var s2 := ReleaseDown(s, f, 2);
            && s2 == s.(events := s2.events, atoms := s2.atoms, hand := [e, f'])
            && s2.events.Keys == s.events.Keys
            && s2.events[e] == HandedOff(s.events[e], y) && s2.events[f'] == HandedOff(s.events[f'], x)
            && AtomAt(s2.atoms, y).held == 1 && AtomAt(s2.atoms, z).held > 0
  {
    hide LetGoOf, HandedOff, ReleaseDown, SameShape;
    assert e != f';
    ReleasePair(s, f, x, y);
    FirstHandover(s, f, f', e, x, y, z);
    HandsOver(LetGoOf(s, f, 1, y), f, 0, x, f');
  }

  // The two that were handed their first atomic must wait for their second.
  lemma BothWait(s: State, e: EventId, f': EventId, y: Name, z: Name)
    requires e in s.events && f' in s.events && e != f' && s.hand == [e, f']
    requires y.guard.kind == ExclusiveKind && z.guard.kind == ExclusiveKind
    requires s.events[e].at == 1 && s.events[f'].at == 1 && |s.events[e].slots| == 2 && |s.events[f'].slots| == 2
    requires s.events[e].slots[1] == PairEvent(y, Exclusive, z, Exclusive, false, false).slots[1]
    requires s.events[f'].slots[1] == PairEvent(z, Exclusive, y, Exclusive, false, false).slots[1]
    requires AtomAt(s.atoms, y).held > 0 && AtomAt(s.atoms, z).held > 0
    ensures var s' := ReacquireAll(s, [e, f']);
            s' == s.(events := s'.events, atoms := s'.atoms, hand := []) && s'.events.Keys == s.events.Keys
  {
    hide SameShape, Acquire, AtomAt;
    HeldRefuses(AtomAt(s.atoms, z), e);
    WaitsForSecond(s, e, z, Exclusive);
    var s1 := Reacquire(s, e);
    HeldStays(AtomAt(s.atoms, z), e);
    HeldRefuses(AtomAt(s1.atoms, y), f');
    WaitsForSecond(s1, f', y, Exclusive);
    var s2 := Reacquire(s1, f');
    assert [e, f'][1..] == [f'] && [f'][1..] == [];
    assert ReacquireAll(s1, [f']) == ReacquireAll(s2, []) == s2;
  }

  lemma HeldStays(a: Atomic, e: EventId)
    requires a.held > 0
    ensures Acquire(a, ExclusiveKind, e, Exclusive).0.held > 0
  {
  }

  // Without successors, a handle that makes nothing ready leaves the run queue as it is.
  lemma HandledIs(s: State, s': State, f: EventId)
    requires |s.threads| > 0 && s.threads[0] == Some(f) && f in s.events && |s.events[f].slots| == 2
    requires var s2 := ReleaseDown(s, f, 2); s' == ReacquireAll(s2, s2.hand)
    requires s'.ready == []
    ensures Handled(s, 0, []) == s'.(events := s'.events - {f}, threads := s.threads[0 := None])
  {
    hide ReleaseDown, ReacquireAll, SameShape;
    EnqueueNothing(s'.(events := s'.events - {f}, threads := s.threads[0 := None]));
  }

  lemma CloseCircle(s: State, f: EventId, f': EventId, e: EventId, x: Name, y: Name, z: Name)
    requires AboutToClose(s, f, f', e, x, y, z) && s.hand == [] && s.ready == [] && s.runq == []
    requires |s.threads| > 0 && s.threads[0] == Some(f) && forall t :: 0 < t < |s.threads| ==> s.threads[t].None?
    ensures Deadlocked(Do(s, Handle(0, [])))
  {
    hide ReleaseDown, ReacquireAll, HandedOff, SameShape, AtomAt, Handled;
    BothHandovers(s, f, f', e, x, y, z);
    var s2 := ReleaseDown(s, f, 2);
    FirstHanded(y, Exclusive, z, Exclusive);
    FirstHanded(x, Exclusive, y, Exclusive);
    BothWait(s2, e, f', y, z);
    var s3 := ReacquireAll(s2, [e, f']);
    HandledIs(s, s3, f);
    assert e in Handled(s, 0, []).events;
  }

  lemma HeldRefuses(a: Atomic, e: EventId)
    requires a.held > 0
    ensures !Acquire(a, ExclusiveKind, e, Exclusive).1
  {
  }

  // ---------------------------------------------------------------------------
  // Events with two exclusive references: stuck exactly if there is a cycle
  // ---------------------------------------------------------------------------

  function ExclusivePair(x: Name, y: Name): seq<Ref> {
    Pair(x, Exclusive, y, Exclusive)
  }

  lemma {:induction false} OneMoreStep(s: State, a: seq<Step>, s1: State, step: Step, nodes: set<seq<Ref>>)
    requires Exec(s, a) == Some(s1) && ScheduleFrom(a, nodes) && Enabled(s1, step) && StepFrom(step, nodes)
    ensures Exec(s, a + [step]) == Some(Do(s1, step)) && ScheduleFrom(a + [step], nodes)
    decreases |a|
  {
    hide Do;
    if a == [] {
      assert (a + [step])[1..] == [];
    } else {
      assert (a + [step])[1..] == a[1..] + [step];
      assert ScheduleFrom(a[1..], nodes);
      OneMoreStep(Do(s, a[0]), a[1..], s1, step, nodes);
      assert Exec(s, a + [step]) == Exec(Do(s, a[0]), a[1..] + [step]);
    }
  }

  // The references lead from each atomic of w to the next, and back to the first.
  ghost predicate Circle(w: seq<Name>, nodes: set<seq<Ref>>) {
    && |w| > 2 && w[0] == w[|w| - 1] && Cycles.Simple(w)
    && (forall i :: 0 <= i < |w| ==> w[i].guard.kind == ExclusiveKind)
    && (forall i :: 0 <= i < |w| - 1 ==> ExclusivePair(w[i], w[i + 1]) in nodes)
  }

  // f, for the last pair of the circle, holds both and is queued; f' waits behind it for
  // the same; and from j on each atomic is held.  The others, but the first, are free.
  ghost predicate Chained(s: State, w: seq<Name>, f: EventId, f': EventId, j: nat)
    requires |w| > 2
  {
    var x := w[|w| - 2];
    && Good(s) && s.runq == [f] && |s.threads| > 0 && (forall t :: 0 <= t < |s.threads| ==> s.threads[t].None?)
    && f in s.events && s.events[f] == PairEvent(x, Exclusive, w[0], Exclusive, true, true)
    && f' in s.events && s.events[f'] == PairEvent(x, Exclusive, w[0], Exclusive, false, false)
    && AtomAt(s.atoms, x).waiters != [] && AtomAt(s.atoms, x).waiters[0].event == f'
    && AtomAt(s.atoms, w[0]).held > 0 && AtomAt(s.atoms, w[0]).waiters == []
    && 0 < j < |w| - 1 && AtomAt(s.atoms, w[j]).held > 0
    && (forall i :: 0 < i < j ==> AtomAt(s.atoms, w[i]).held == 0)
  }

  lemma ChainStarts(init: State, w: seq<Name>, nodes: set<seq<Ref>>) returns (schedule: seq<Step>, s: State)
    requires Init(init) && |init.threads| > 0 && Circle(w, nodes)
    ensures Exec(init, schedule) == Some(s) && ScheduleFrom(schedule, nodes)
    ensures Chained(s, w, init.nextId, init.nextId + 1, |w| - 2)
  {
    hide Do, Inv;
    var x, y := w[|w| - 2], w[0];
    assert x != y && w[|w| - 1] == y;
    var inject := Inject(ExclusivePair(x, y));
    InitIsGood(init);
    InjectPair(init, x, Exclusive, y, Exclusive);
    var s1 := Do(init, inject);
    OneMoreStep(init, [], init, inject, nodes);
    InjectPair(s1, x, Exclusive, y, Exclusive);
    s := Do(s1, inject);
    OneMoreStep(init, [] + [inject], s1, inject, nodes);
    schedule := [] + [inject] + [inject];
  }

  // One more event takes the atomic before those held, and waits.
  lemma ChainGrows(s: State, w: seq<Name>, f: EventId, f': EventId, j: nat, nodes: set<seq<Ref>>)
    requires Circle(w, nodes) && Chained(s, w, f, f', j) && j > 1
    ensures Chained(Do(s, Inject(ExclusivePair(w[j - 1], w[j]))), w, f, f', j - 1)
  {
    hide Do, Inv;
    InjectPair(s, w[j - 1], Exclusive, w[j], Exclusive);
  }

  // The last one waits for the atomic that f will let go.
  lemma ChainEnds(s: State, w: seq<Name>, f: EventId, f': EventId, nodes: set<seq<Ref>>)
    requires Circle(w, nodes) && Chained(s, w, f, f', 1)
    ensures var s1 := Do(s, Inject(ExclusivePair(w[0], w[1])));
            && Enabled(s1, Take(0))
            && var s2 := Do(s1, Take(0));
               Enabled(s2, Handle(0, [])) && Deadlocked(Do(s2, Handle(0, [])))
  {
    hide Inv, Create, Enqueued, Handled;
    var e, x := s.nextId, w[|w| - 2];
    InjectPair(s, w[0], Exclusive, w[1], Exclusive);
    var s1 := Do(s, Inject(ExclusivePair(w[0], w[1])));
    var s2 := Do(s1, Take(0));
    assert AboutToClose(s2, f, f', e, x, w[0], w[1]);
    CloseCircle(s2, f, f', e, x, w[0], w[1]);
  }

  lemma LastThree(init: State, a: seq<Step>, s: State, w: seq<Name>, f: EventId, f': EventId, nodes: set<seq<Ref>>)
    returns (schedule: seq<Step>)
    requires Exec(init, a) == Some(s) && ScheduleFrom(a, nodes) && Circle(w, nodes) && Chained(s, w, f, f', 1)
    ensures Exec(init, schedule).Some? && ScheduleFrom(schedule, nodes) && Deadlocked(Exec(init, schedule).value)
  {
    hide Do, Chained, Deadlocked, Exec, ScheduleFrom;
    ChainEnds(s, w, f, f', nodes);
    var inject := Inject(ExclusivePair(w[0], w[1]));
    OneMoreStep(init, a, s, inject, nodes);
    var s1 := Do(s, inject);
    OneMoreStep(init, a + [inject], s1, Take(0), nodes);
    var s2 := Do(s1, Take(0));
    OneMoreStep(init, a + [inject] + [Take(0)], s2, Handle(0, []), nodes);
    schedule := a + [inject] + [Take(0)] + [Handle(0, [])];
  }

  lemma {:induction false} ChainDeadlocks(init: State, a: seq<Step>, s: State, w: seq<Name>, f: EventId, f': EventId,
                                          j: nat, nodes: set<seq<Ref>>) returns (schedule: seq<Step>)
    requires Exec(init, a) == Some(s) && ScheduleFrom(a, nodes) && Circle(w, nodes) && Chained(s, w, f, f', j)
    ensures Exec(init, schedule).Some? && ScheduleFrom(schedule, nodes) && Deadlocked(Exec(init, schedule).value)
    decreases j
  {
    assert 0 < j < |w| - 1;
    hide Do, Chained, Deadlocked, Exec, ScheduleFrom;
    if j > 1 {
      var inject := Inject(ExclusivePair(w[j - 1], w[j]));
      assert ExclusivePair(w[j - 1], w[j - 1 + 1]) in nodes;
      OneMoreStep(init, a, s, inject, nodes);
      ChainGrows(s, w, f, f', j, nodes);
      schedule := ChainDeadlocks(init, a + [inject], Do(s, inject), w, f, f', j - 1, nodes);
    } else {
      schedule := LastThree(init, a, s, w, f, f', nodes);
    }
  }

  // The first of two slots for one exclusive atomic is granted, the second waits.
  lemma AcquireTwo(s: State, e: EventId, built: Slot, n: Name)
    requires e in s.events && s.events[e] == Event([built, built], 0, InHand) && !built.have && s.hand == [e]
    requires var slot := Built(built, true);
             slot.atom == Some(n.key) && slot.ref == built.ref && slot.ref.guard == n.guard
    requires n.guard.kind == ExclusiveKind && AtomAt(s.atoms, n) == Unused
    ensures var s' := AcquireFrom(s, e, 0);
            && s'.hand == [] && s'.ready == s.ready && s'.runq == s.runq && s'.threads == s.threads
            && s'.events.Keys == s.events.Keys
            && IsAt(s'.events, e, Waiting(n)) && Holds(s'.events, e, 0, n)
  {
    hide SameRefs;
    var slot := Built(built, true);
    var s1 := AcquireOne(s, e, 0).0;
    assert NameOf(slot) == n && AtomAt(FoundFor(s.atoms, slot), n) == Unused;
    assert [built, built][0 := slot.(have := true)] == [slot.(have := true), built];
    assert AcquireFrom(s, e, 0) == AcquireFrom(s1, e, 1);
    assert s1.events[e].slots == [slot.(have := true), built];
    assert AtomAt(s1.atoms, n).held == 1;
    assert AcquireOne(s1, e, 1).1.Waits?;
    assert AcquireFrom(s1, e, 1) == AcquireOne(s1, e, 1).0;
  }

  lemma BuildTwo(s: State, e: EventId, empty: Slot, n: Name)
    requires e in s.events && s.events[e].slots == [empty, empty]
    ensures var s', built := BuildEarly(s, e, 0), Built(empty, false);
            && s' == s.(events := s.events[e := s.events[e].(slots := [built, built])], atoms := s'.atoms)
            && AtomAt(s'.atoms, n) == AtomAt(s.atoms, n)
  {
    hide BuildEarly, SameRefs, Built;
    BuildEarlyBuilds(s, e, 0);
    assert BuiltFrom([empty, empty], 0) == [Built(empty, false), Built(empty, false)];
  }

  lemma CreateSelfWaits(s: State, n: Name, ref: Ref)
    requires Init(s) && n.guard.kind == ExclusiveKind
    requires ref == Ref(n.guard, Exclusive, false, Some(n.key), Some(n.key))
    ensures var s', e := Create(s, [ref, ref]), s.nextId;
            && s'.ready == [] && s'.runq == [] && s'.threads == s.threads && s'.events.Keys == {e}
            && IsAt(s'.events, e, Waiting(n)) && Holds(s'.events, e, 0, n)
  {
    hide BuildEarly, AcquireFrom, SameRefs, IsAt, Holds, AtomAt;
    var e, empty := s.nextId, Slot(ref, None, false);
    var s1 := s.(events := s.events[e := NewEvent([ref, ref])], nextId := e + 1, hand := [e] + s.hand);
    assert s1.events[e].slots == [empty, empty];
    BuildTwo(s1, e, empty, n);
    UnusedAtFirst(s, n);
    AcquireTwo(BuildEarly(s1, e, 0), e, Built(empty, false), n);
  }

  lemma UnusedAtFirst(s: State, n: Name)
    requires Init(s)
    ensures AtomAt(s.atoms, n) == Unused
  {
  }

  // An event that refers to one exclusive atomic
  // twice waits for itself, for ever.
  lemma SameAtomicTwiceDeadlocks(s: State, n: Name)
    requires Init(s) && n.guard.kind == ExclusiveKind
    ensures var ref := Ref(n.guard, Exclusive, false, Some(n.key), Some(n.key));
            var s' := Do(s, Inject([ref, ref]));
            && IsAt(s'.events, s.nextId, Waiting(n)) && Holds(s'.events, s.nextId, 0, n)
            && s'.events.Keys == {s.nextId} && !CanMove(s')
  {
    hide Create, Enqueued, Holds, IsAt;
    var ref := Ref(n.guard, Exclusive, false, Some(n.key), Some(n.key));
    CreateSelfWaits(s, n, ref);
    EnqueueNothing(Create(s, [ref, ref]));
  }

  // Every circle of pairs has a run, from any initial state, that ends with all stuck.
  lemma CircleDeadlocks(init: State, w: seq<Name>, nodes: set<seq<Ref>>) returns (schedule: seq<Step>)
    requires Init(init) && |init.threads| > 0 && Circle(w, nodes)
    ensures Exec(init, schedule).Some? && ScheduleFrom(schedule, nodes) && Deadlocked(Exec(init, schedule).value)
  {
    var a, s := ChainStarts(init, w, nodes);
    schedule := ChainDeadlocks(init, a, s, w, init.nextId, init.nextId + 1, |w| - 2, nodes);
  }

  // Two nodes that take two exclusive atomics in opposite orders.  After sortGuards the atomics
  // of guards with distinct numbers are never in opposite orders, so in the runtime x and y
  // are atomics of one guard, whose references are late or collectable.
  lemma OppositeOrdersDeadlock(init: State, x: Name, y: Name) returns (schedule: seq<Step>)
    requires Init(init) && |init.threads| > 0 && x != y
    requires x.guard.kind == ExclusiveKind && y.guard.kind == ExclusiveKind
    ensures Exec(init, schedule).Some? && ScheduleFrom(schedule, {ExclusivePair(x, y), ExclusivePair(y, x)})
    ensures Deadlocked(Exec(init, schedule).value)
  {
    schedule := CircleDeadlocks(init, [x, y, x], {ExclusivePair(x, y), ExclusivePair(y, x)});
  }

  ghost predicate AllPairs(nodes: set<seq<Ref>>) {
    forall refs :: refs in nodes ==> IsPair(refs)
  }

  ghost predicate IsPair(refs: seq<Ref>) {
    exists x: Name, y: Name ::
      x.guard.kind == ExclusiveKind && y.guard.kind == ExclusiveKind && refs == ExclusivePair(x, y)
  }

  // No run of events of these nodes ends with all stuck.
  ghost predicate NeverDeadlocks(nodes: set<seq<Ref>>) {
    forall init, schedule {:trigger Exec(init, schedule)} ::
      Init(init) && |init.threads| > 0 && ScheduleFrom(schedule, nodes) && Exec(init, schedule).Some? ==>
        !Deadlocked(Exec(init, schedule).value)
  }

  lemma PairPrecedes(nodes: set<seq<Ref>>, n: Name, m: Name)
    requires AllPairs(nodes) && Precedes(nodes, n, m)
    ensures ExclusivePair(n, m) in nodes && n.guard.kind == ExclusiveKind && m.guard.kind == ExclusiveKind
  {
    var refs :| refs in nodes && RefersInOrder(refs, n, m);
    assert IsPair(refs);
    var x: Name, y: Name :|
      x.guard.kind == ExclusiveKind && y.guard.kind == ExclusiveKind && refs == ExclusivePair(x, y);
    assert n == x && m == y;
  }

  lemma CycleIsCircle(nodes: set<seq<Ref>>, v: seq<Name>)
    requires AllPairs(nodes) && Cycles.Cycle(Order(nodes), v) && Cycles.Simple(v)
    ensures |v| > 2 ==> Circle(v, nodes)
    ensures |v| == 2 ==> v[0] == v[1] && v[0].guard.kind == ExclusiveKind && ExclusivePair(v[0], v[0]) in nodes
  {
    forall i | 0 <= i < |v| - 1
      ensures ExclusivePair(v[i], v[i + 1]) in nodes && v[i].guard.kind == ExclusiveKind
    {
      assert Cycles.Linked(Order(nodes), v, i);
      PairPrecedes(nodes, v[i], v[i + 1]);
    }
    assert v[|v| - 1] == v[0];
  }

  lemma LoopDeadlocks(init: State, n: Name, nodes: set<seq<Ref>>) returns (schedule: seq<Step>)
    requires Init(init) && n.guard.kind == ExclusiveKind && ExclusivePair(n, n) in nodes
    ensures Exec(init, schedule).Some? && ScheduleFrom(schedule, nodes) && Deadlocked(Exec(init, schedule).value)
  {
    hide Do;
    var inject := Inject(ExclusivePair(n, n));
    SameAtomicTwiceDeadlocks(init, n);
    OneMoreStep(init, [], init, inject, nodes);
    schedule := [] + [inject];
  }

  lemma CycleDeadlocks(nodes: set<seq<Ref>>, w: seq<Name>)
    requires AllPairs(nodes) && Cycles.Cycle(Order(nodes), w)
    ensures !NeverDeadlocks(nodes)
  {
    hide Deadlocked, Circle, Order, AllPairs, ScheduleFrom;
    var init := State(map[], map[], [], [None], [], [], 0, false);
    var v := Cycles.SimpleCycle(Order(nodes), w);
    CycleIsCircle(nodes, v);
    var schedule;
    if |v| > 2 {
      schedule := CircleDeadlocks(init, v, nodes);
    } else {
      schedule := LoopDeadlocks(init, v[0], nodes);
    }
    assert Exec(init, schedule).Some?;
  }

  // For events with two exclusive references each, the condition is exact: no run can
  // end with all stuck if and only if the references contain no cycle.  This holds for
  // references in any order, and sortGuards does not leave them in any order: guards with
  // distinct numbers are never referred to in opposite orders (SortedNeverDeadlocks of
  // GuardTheorems).  The cycles that the runtime can meet here come from references to one
  // guard that are late or collectable, because these are sorted without their keys.
  lemma PairsDeadlockExactlyOnCycles(nodes: set<seq<Ref>>)
    requires AllPairs(nodes)
    ensures NeverDeadlocks(nodes) <==> Acyclic(nodes)
  {
    if Acyclic(nodes) {
      forall init, schedule |
        Init(init) && |init.threads| > 0 && ScheduleFrom(schedule, nodes) && Exec(init, schedule).Some?
        ensures !Deadlocked(Exec(init, schedule).value)
      {
        var s := Exec(init, schedule).value;
        if s.events.Keys != {} {
          DeadlockFree(init, schedule, s, nodes);
        }
      }
    } else {
      var w :| Cycles.Cycle(Order(nodes), w);
      CycleDeadlocks(nodes, w);
    }
  }

  // ---------------------------------------------------------------------------
  // One guard in two modes
  // ---------------------------------------------------------------------------

  // Both are in the order that the guards of a node are sorted in, which looks at the
  // mode before the key: the first reads k2 and writes k1, the second the reverse.
  function ReadHighWriteLow(g: Guard, k1: Key, k2: Key): seq<Ref> {
    Pair(Name(g, k2), Read, Name(g, k1), Write)
  }

  function ReadLowWriteHigh(g: Guard, k1: Key, k2: Key): seq<Ref> {
    Pair(Name(g, k1), Read, Name(g, k2), Write)
  }

  // f reads x and writes y, and runs; f' reads x too and waits to write y, behind e,
  // which waits to read y and will want to write x.
  ghost predicate AboutToCross(s: State, f: EventId, f': EventId, e: EventId, x: Name, y: Name) {
    && x != y && x.guard.kind == ReadWriteKind && y.guard.kind == ReadWriteKind
    && f in s.events && s.events[f].slots == PairEvent(x, Read, y, Write, true, true).slots
    && e in s.events && s.events[e] == PairEvent(y, Read, x, Write, false, false) && f != e
    && AtomAt(s.atoms, x).held == 2
    && AtomAt(s.atoms, y).held == 1 && AtomAt(s.atoms, y).waiters == [Waiter(e, Read), Waiter(f', Write)]
  }

  lemma ReadersOnly(a: Atomic, e: EventId, f': EventId)
    requires a.held == 1 && a.waiters == [Waiter(e, Read), Waiter(f', Write)]
    ensures Release(a, ReadWriteKind).1 == [a.waiters[0]] && Release(a, ReadWriteKind).0.held == 1
  {
    assert a.waiters[1..] == [Waiter(f', Write)];
    assert Batch(a.waiters[1..], a.data) == 0;
  }

  // Letting go of an atomic that others go on holding.
  lemma HandsNothing(s: State, e: EventId, i: nat, n: Name)
    requires Live(s, e, i) && Release(AtomAt(s.atoms, n), n.guard.kind).1 == []
    ensures var s' := LetGoOf(s, e, i, n);
            && s' == s.(events := s'.events, atoms := s'.atoms) && s'.events.Keys == s.events.Keys
            && (forall u :: u in s.events && u != e ==> s'.events[u] == s.events[u])
            && AtomAt(s'.atoms, n) == Release(AtomAt(s.atoms, n), n.guard.kind).0
  {
    hide Release, HandedOff;
  }

  lemma OneHandover(s: State, f: EventId, f': EventId, e: EventId, x: Name, y: Name)
    requires AboutToCross(s, f, f', e, x, y) && s.hand == []
    ensures var s2 := ReleaseDown(s, f, 2);
            && s2 == s.(events := s2.events, atoms := s2.atoms, hand := [e])
            && s2.events.Keys == s.events.Keys && s2.events[e] == HandedOff(s.events[e], y)
            && AtomAt(s2.atoms, x).held == 1
  {
    ReadersOnly(AtomAt(s.atoms, y), e, f');
    assert Release(AtomAt(s.atoms, x), ReadWriteKind).1 == [] && Release(AtomAt(s.atoms, x), ReadWriteKind).0.held == 1;
    hide LetGoOf, HandedOff, ReleaseDown, SameShape, Release;
    ReleasePair(s, f, x, y);
    HandsOver(s, f, 1, y, e);
    HandsNothing(LetGoOf(s, f, 1, y), f, 0, x);
  }

  lemma CloseCross(s: State, f: EventId, f': EventId, e: EventId, x: Name, y: Name)
    requires AboutToCross(s, f, f', e, x, y) && s.hand == [] && s.ready == [] && s.runq == []
    requires |s.threads| > 0 && s.threads[0] == Some(f) && forall t :: 0 < t < |s.threads| ==> s.threads[t].None?
    ensures Deadlocked(Do(s, Handle(0, [])))
  {
    hide ReleaseDown, HandedOff, SameShape, AtomAt, Handled, Reacquire;
    OneHandover(s, f, f', e, x, y);
    var s2 := ReleaseDown(s, f, 2);
    FirstHanded(y, Read, x, Write);
    WaitsForSecond(s2, e, x, Write);
    var s3 := Reacquire(s2, e);
    assert [e][1..] == [] && ReacquireAll(s3, []) == s3;
    HandledIs(s, s3, f);
    assert e in Handled(s, 0, []).events;
  }

  function Injected(s: State, refs: seq<Ref>): State {
    Do(s, Inject(refs))
  }

  // Three events: the reader of the low key, f, can run, the others wait for it in the
  // order that brings them to hold one key each and to want the other.
  ghost predicate FirstInjected(s: State, f: EventId, x: Name, y: Name) {
    && Good(s) && s.runq == [f] && s.nextId == f + 1
    && f in s.events && s.events[f] == PairEvent(x, Read, y, Write, true, true)
    && AtomAt(s.atoms, x) == Atomic(1, Some(Read), [], None) && AtomAt(s.atoms, y) == Atomic(1, Some(Write), [], None)
  }

  lemma InjectFirst(s: State, x: Name, y: Name)
    requires Init(s) && x != y && x.guard.kind == ReadWriteKind && y.guard.kind == ReadWriteKind
    ensures var s' := Injected(s, Pair(x, Read, y, Write));
            FirstInjected(s', s.nextId, x, y) && s'.threads == s.threads
  {
    InitIsGood(s);
    assert AtomAt(s.atoms, x) == AtomAt(s.atoms, y) == Unused;
    hide Inv, Do, RunnersSettled, Acquire, AtomAt, PairEvent;
    CrossOutcomes(s.nextId, 0, 0);
    InjectPair(s, x, Read, y, Write);
  }

  ghost predicate SecondInjected(s: State, f: EventId, x: Name, y: Name) {
    && Good(s) && s.runq == [f] && s.nextId == f + 2
    && f in s.events && s.events[f] == PairEvent(x, Read, y, Write, true, true)
    && f + 1 in s.events && s.events[f + 1] == PairEvent(y, Read, x, Write, false, false)
    && AtomAt(s.atoms, x) == Atomic(1, Some(Read), [], None)
    && AtomAt(s.atoms, y) == Atomic(1, Some(Write), [Waiter(f + 1, Read)], None)
  }

  lemma InjectSecond(s: State, f: EventId, x: Name, y: Name)
    requires FirstInjected(s, f, x, y) && x != y && x.guard.kind == ReadWriteKind && y.guard.kind == ReadWriteKind
    ensures var s' := Injected(s, Pair(y, Read, x, Write));
            SecondInjected(s', f, x, y) && s'.threads == s.threads
  {
    NothingYet(y, Read, x, Write);
    hide Inv, Do, RunnersSettled, Acquire, AtomAt, PairEvent;
    CrossOutcomes(0, f + 1, 0);
    InjectPair(s, y, Read, x, Write);
  }

  lemma InjectThird(s: State, f: EventId, x: Name, y: Name)
    requires SecondInjected(s, f, x, y) && x != y && x.guard.kind == ReadWriteKind && y.guard.kind == ReadWriteKind
    ensures var s' := Injected(s, Pair(x, Read, y, Write));
            && s'.runq == [f] && s'.threads == s.threads && s'.hand == [] && s'.ready == []
            && AboutToCross(s', f, f + 2, f + 1, x, y)
  {
    hide Inv, Do, RunnersSettled, Acquire, AtomAt, PairEvent;
    CrossOutcomes(0, f + 1, f + 2);
    InjectPair(s, x, Read, y, Write);
  }

  lemma CrossOutcomes(f: EventId, e: EventId, f': EventId)
    ensures Acquire(Unused, ReadWriteKind, f, Read) == (Atomic(1, Some(Read), [], None), true)
    ensures Acquire(Unused, ReadWriteKind, f, Write) == (Atomic(1, Some(Write), [], None), true)
    ensures Acquire(Atomic(1, Some(Write), [], None), ReadWriteKind, e, Read)
            == (Atomic(1, Some(Write), [Waiter(e, Read)], None), false)
    ensures Acquire(Atomic(1, Some(Read), [], None), ReadWriteKind, f', Read) == (Atomic(2, Some(Read), [], None), true)
    ensures Acquire(Atomic(1, Some(Write), [Waiter(e, Read)], None), ReadWriteKind, f', Write)
            == (Atomic(1, Some(Write), [Waiter(e, Read), Waiter(f', Write)], None), false)
  {
    assert [] + [Waiter(e, Read)] == [Waiter(e, Read)];
    assert [Waiter(e, Read)] + [Waiter(f', Write)] == [Waiter(e, Read), Waiter(f', Write)];
  }

  lemma TakenCross(s: State, x: Name, y: Name, f: EventId, f': EventId, e: EventId)
    requires s.runq == [f] && s.hand == [] && s.ready == [] && AboutToCross(s, f, f', e, x, y)
    requires |s.threads| > 0 && forall t :: 0 <= t < |s.threads| ==> s.threads[t].None?
    ensures Enabled(s, Take(0))
    ensures Enabled(Do(s, Take(0)), Handle(0, [])) && Deadlocked(Do(Do(s, Take(0)), Handle(0, [])))
  {
    hide AtomAt, Handled, PairEvent;
    CloseCross(Do(s, Take(0)), f, f', e, x, y);
  }

  // Two nodes, both sorted, that use one guard in two modes and are stuck together.
  lemma TwoModesCross(init: State, g: Guard, k1: Key, k2: Key) returns (schedule: seq<Step>)
    requires Init(init) && |init.threads| > 0 && k1 < k2 && g.kind == ReadWriteKind && !g.gc
    ensures SortedByCompare(ReadHighWriteLow(g, k1, k2)) && SortedByCompare(ReadLowWriteHigh(g, k1, k2))
    ensures ScheduleFrom(schedule, {ReadHighWriteLow(g, k1, k2), ReadLowWriteHigh(g, k1, k2)})
    ensures Exec(init, schedule).Some? && Deadlocked(Exec(init, schedule).value)
  {
    hide Do, Deadlocked, Exec, ScheduleFrom, AboutToCross, FirstInjected, SecondInjected;
    var low, high := ReadLowWriteHigh(g, k1, k2), ReadHighWriteLow(g, k1, k2);
    var nodes := {high, low};
    RunsNothing(init, nodes);
    OneMoreStep(init, [], init, Inject(low), nodes);
    var s1 := Do(init, Inject(low));
    OneMoreStep(init, [] + [Inject(low)], s1, Inject(high), nodes);
    var s2 := Do(s1, Inject(high));
    OneMoreStep(init, [] + [Inject(low)] + [Inject(high)], s2, Inject(low), nodes);
    var s3 := Do(s2, Inject(low));
    var three := [] + [Inject(low)] + [Inject(high)] + [Inject(low)];
    InjectFirst(init, Name(g, k1), Name(g, k2));
    InjectSecond(s1, init.nextId, Name(g, k1), Name(g, k2));
    InjectThird(s2, init.nextId, Name(g, k1), Name(g, k2));
    TakenCross(s3, Name(g, k1), Name(g, k2), init.nextId, init.nextId + 2, init.nextId + 1);
    OneMoreStep(init, three, s3, Take(0), nodes);
    var s4 := Do(s3, Take(0));
    OneMoreStep(init, three + [Take(0)], s4, Handle(0, []), nodes);
    schedule := three + [Take(0)] + [Handle(0, [])];
  }

  lemma RunsNothing(s: State, nodes: set<seq<Ref>>)
    ensures Exec(s, []) == Some(s) && ScheduleFrom([], nodes)
  {
  }
}
