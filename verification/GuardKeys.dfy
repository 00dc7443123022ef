/**
 * Which atoms an event acquires: the guards of its node, by the keys that its guard
 * functions answer at the right moment, and the successors of an event those of the nodes
 * they are created for.
 */
module GuardKeys {
  import opened Basics
  import opened ClassicAtomics
  import opened GuardKernel
  import GuardTheorems
  import GuardModes

  // ---------------------------------------------------------------------------
  // What an event has built and acquired stays
  // ---------------------------------------------------------------------------

  // A slot keeps its reference, its atom and its hold; an atom comes only at its turn.
  predicate SlotCarries(slot: Slot, slot': Slot) {
    && slot'.ref == slot.ref && (slot.have ==> slot'.have)
    && (slot'.atom == slot.atom || (slot.atom.None? && slot'.atom == slot.ref.turn))
  }

  ghost predicate Carries(slots: seq<Slot>, slots': seq<Slot>) {
    |slots'| == |slots| && forall i :: 0 <= i < |slots| ==> SlotCarries(slots[i], slots'[i])
  }

  // So it is for all events but one.
  ghost predicate CarriesBut(events: map<EventId, Event>, events': map<EventId, Event>, but: Option<EventId>) {
    forall x :: x in events && Some(x) != but ==> x in events' && Carries(events[x].slots, events'[x].slots)
  }

  lemma CarriesOn(a: map<EventId, Event>, b: map<EventId, Event>, c: map<EventId, Event>, but: Option<EventId>)
    requires CarriesBut(a, b, but) && CarriesBut(b, c, but)
    ensures CarriesBut(a, c, but)
  {
    forall x | x in a && Some(x) != but
      ensures Carries(a[x].slots, c[x].slots)
    {
      forall i | 0 <= i < |a[x].slots|
        ensures SlotCarries(a[x].slots[i], c[x].slots[i])
      {
        assert SlotCarries(a[x].slots[i], b[x].slots[i]) && SlotCarries(b[x].slots[i], c[x].slots[i]);
      }
    }
  }

  lemma AcquireOneCarries(s: State, e: EventId, i: nat)
    requires Live(s, e, i)
    ensures CarriesBut(s.events, AcquireOne(s, e, i).0.events, None)
  {
  }

  lemma {:induction false} AcquireCarries(s: State, e: EventId, i: nat)
    requires e in s.events && i <= |s.events[e].slots|
    ensures CarriesBut(s.events, AcquireFrom(s, e, i).events, None)
    decreases |s.events[e].slots| - i
  {
    hide AcquireOne, CarriesBut;
    if i == |s.events[e].slots| {
      PlaceCarries(s.events, e, Ready);
    } else {
      var (s', out) := AcquireOne(s, e, i);
      AcquireOneCarries(s, e, i);
      if out.Continues? {
        AcquireCarries(s', e, i + 1);
        CarriesOn(s.events, s'.events, AcquireFrom(s, e, i).events, None);
      }
    }
  }

  lemma PlaceCarries(events: map<EventId, Event>, e: EventId, p: Place)
    requires e in events
    ensures CarriesBut(events, events[e := events[e].(place := p)], None)
  {
  }

  lemma {:induction false} ReacquireCarries(s: State, rel: seq<EventId>)
    ensures CarriesBut(s.events, ReacquireAll(s, rel).events, None)
    decreases |rel|
  {
    hide CarriesBut, AcquireFrom;
    NothingCarries(s.events);
    if rel != [] && rel[0] in s.events && s.events[rel[0]].at <= |s.events[rel[0]].slots| {
      AcquireCarries(s, rel[0], s.events[rel[0]].at);
      var s' := Reacquire(s, rel[0]);
      ReacquireCarries(s', rel[1..]);
      CarriesOn(s.events, s'.events, ReacquireAll(s, rel).events, None);
    }
  }

  lemma AllButCarries(events: map<EventId, Event>, but: Option<EventId>)
    ensures CarriesBut(events, events, but)
  {
  }

  lemma ReleaseOneShape(s: State, e: EventId, i: nat)
    requires Live(s, e, i)
    ensures var events := ReleaseOne(s, e, i).events; e in events && |events[e].slots| == |s.events[e].slots|
  {
    assert SameRefs(s.events[e].slots, ReleaseOne(s, e, i).events[e].slots);
  }

  lemma NothingCarries(events: map<EventId, Event>)
    ensures CarriesBut(events, events, None)
  {
  }

  lemma ReleaseOneCarries(s: State, e: EventId, i: nat)
    requires Live(s, e, i)
    ensures CarriesBut(s.events, ReleaseOne(s, e, i).events, Some(e))
  {
    var slot := s.events[e].slots[i];
    if slot.have && slot.atom.Some? {
      LetGoCarries(s, e, i, NameOf(slot));
      hide LetGoOf;
    }
  }

  lemma LetGoCarries(s: State, e: EventId, i: nat, n: Name)
    requires Live(s, e, i)
    ensures CarriesBut(s.events, LetGoOf(s, e, i, n).events, Some(e))
  {
    hide Release;
    forall x | x in s.events && x != e
      ensures Carries(s.events[x].slots, HandedOff(s.events[x], n).slots)
    {
      HandOffCarries(s.events[x], n);
    }
  }

  lemma HandOffCarries(ev: Event, n: Name)
    ensures Carries(ev.slots, ev.slots) && Carries(ev.slots, HandedOff(ev, n).slots)
  {
  }

  lemma {:induction false} ReleaseCarries(s: State, e: EventId, i: nat)
    requires e in s.events && i <= |s.events[e].slots|
    ensures CarriesBut(s.events, ReleaseDown(s, e, i).events, Some(e))
    decreases i
  {
    hide CarriesBut, ReleaseOne, SameRefs;
    if i == 0 {
      AllButCarries(s.events, Some(e));
    } else {
      var s' := ReleaseOne(s, e, i - 1);
      assert e in s'.events && |s'.events[e].slots| == |s.events[e].slots| by {
        ReleaseOneShape(s, e, i - 1);
      }
      ReleaseOneCarries(s, e, i - 1);
      ReleaseCarries(s', e, i - 1);
      CarriesOn(s.events, s'.events, ReleaseDown(s, e, i).events, Some(e));
    }
  }

  // ---------------------------------------------------------------------------
  // New events
  // ---------------------------------------------------------------------------

  // The event refers to the guards of its node, in the node's order.
  ghost predicate RefersTo(ev: Event, refs: seq<Ref>) {
    |ev.slots| == |refs| && forall i :: 0 <= i < |refs| ==> ev.slots[i].ref == refs[i]
  }

  lemma CreateCarries(s: State, refs: seq<Ref>)
    requires s.nextId !in s.events
    ensures CarriesBut(s.events, Create(s, refs).events, None)
    ensures IsFor(Create(s, refs).events, s.nextId, refs)
  {
    hide CarriesBut, AcquireFrom, BuildEarly, SameShape, NewEvent, IsFor;
    var e, s2 := s.nextId, NewlyBuilt(s, refs);
    NewlyBuiltIs(s, refs);
    AcquireCarries(s2, e, 0);
    CarriesOn(s.events, s2.events, Create(s, refs).events, None);
    CarriedRefers(s2.events, Create(s, refs).events, None, e, refs);
  }

  // A new event before it acquires.
  function NewlyBuilt(s: State, refs: seq<Ref>): State {
    BuildEarly(s.(events := s.events[s.nextId := NewEvent(refs)], nextId := s.nextId + 1, hand := [s.nextId] + s.hand),
               s.nextId, 0)
  }

  lemma NewlyBuiltIs(s: State, refs: seq<Ref>)
    requires s.nextId !in s.events
    ensures var s2, e := NewlyBuilt(s, refs), s.nextId;
            && s2.events == s.events[e := s2.events[e]]
            && s2.events[e].slots == GuardTheorems.BuiltFrom(NewEvent(refs).slots, 0)
            && (forall m :: AtomAt(s2.atoms, m) == AtomAt(s.atoms, m))
            && CarriesBut(s.events, s2.events, None) && IsFor(s2.events, e, refs)
  {
    hide BuildEarly, SameShape, AtomAt;
    var e := s.nextId;
    var s1 := s.(events := s.events[e := NewEvent(refs)], nextId := e + 1, hand := [e] + s.hand);
    GuardTheorems.BuildEarlyBuilds(s1, e, 0);
    var s2 := NewlyBuilt(s, refs);
    assert s2.events == s.events[e := s2.events[e]];
    hide NewlyBuilt, NewEvent;
    AddedCarries(s.events, e, s2.events[e]);
  }

  lemma AddedCarries(events: map<EventId, Event>, e: EventId, ev: Event)
    requires e !in events
    ensures CarriesBut(events, events[e := ev], None)
  {
  }

  // The events from e on are for these nodes, one after the other.
  ghost predicate InOrder(events: map<EventId, Event>, e: EventId, succs: seq<seq<Ref>>) {
    forall i :: 0 <= i < |succs| ==> IsFor(events, e + i, succs[i])
  }

  ghost predicate IsFor(events: map<EventId, Event>, e: EventId, refs: seq<Ref>) {
    e in events && RefersTo(events[e], refs)
  }

  lemma {:induction false} CreateAllCarries(s: State, succs: seq<seq<Ref>>)
    requires forall x :: x in s.events ==> x < s.nextId
    ensures CarriesBut(s.events, CreateAll(s, succs).events, None)
    ensures InOrder(CreateAll(s, succs).events, s.nextId, succs)
    decreases |succs|
  {
    hide Create, CarriesBut, IsFor;
    NothingCarries(s.events);
    if succs != [] {
      var s1, s' := Create(s, succs[0]), CreateAll(s, succs);
      CreateCarries(s, succs[0]);
      CreateAllCarries(s1, succs[1..]);
      CarriesOn(s.events, s1.events, s'.events, None);
      CarriedRefers(s1.events, s'.events, None, s.nextId, succs[0]);
      forall i | 0 <= i < |succs|
        ensures IsFor(s'.events, s.nextId + i, succs[i])
      {
        if i > 0 {
          assert IsFor(s'.events, s1.nextId + (i - 1), succs[1..][i - 1]);
        }
      }
    }
  }

  lemma CarriedRefers(events: map<EventId, Event>, events': map<EventId, Event>, but: Option<EventId>,
                      x: EventId, refs: seq<Ref>)
    requires CarriesBut(events, events', but) && IsFor(events, x, refs) && Some(x) != but
    ensures IsFor(events', x, refs)
  {
    assert Carries(events[x].slots, events'[x].slots);
    forall i | 0 <= i < |refs|
      ensures events'[x].slots[i].ref == refs[i]
    {
      assert SlotCarries(events[x].slots[i], events'[x].slots[i]);
    }
  }

  // ---------------------------------------------------------------------------
  // The key of a slot
  // ---------------------------------------------------------------------------

  // What the guard function is to answer for: a reference that is declared late, or whose
  // guard is collected, when its turn comes; any other as soon as the event is created,
  // unless it has no answer then.
  function DueKey(r: Ref): Option<Key> {
    if !r.late && !r.guard.gc && r.early.Some? then r.early else r.turn
  }

  // The atom is the one for that key, or has not been looked up; what can be looked up when
  // the event is created has been.
  predicate RightKey(slot: Slot) {
    if !slot.ref.late && !slot.ref.guard.gc && slot.ref.early.Some? then slot.atom == slot.ref.early
    else slot.atom.None? || slot.atom == slot.ref.turn
  }

  ghost predicate KeysRight(events: map<EventId, Event>, but: Option<EventId>) {
    forall x, i :: x in events && Some(x) != but && 0 <= i < |events[x].slots| ==> RightKey(events[x].slots[i])
  }

  lemma CarriedKeys(events: map<EventId, Event>, events': map<EventId, Event>, but: Option<EventId>)
    requires KeysRight(events, but) && CarriesBut(events, events', but) && events'.Keys <= events.Keys
    ensures KeysRight(events', but)
  {
    forall x, i | x in events' && Some(x) != but && 0 <= i < |events'[x].slots|
      ensures RightKey(events'[x].slots[i])
    {
      assert Carries(events[x].slots, events'[x].slots);
      assert RightKey(events[x].slots[i]) && SlotCarries(events[x].slots[i], events'[x].slots[i]);
    }
  }

  lemma NewKeys(s: State, refs: seq<Ref>)
    requires s.nextId !in s.events && KeysRight(s.events, None)
    ensures KeysRight(NewlyBuilt(s, refs).events, None)
  {
    NewlyBuiltIs(s, refs);
    hide NewlyBuilt, CarriesBut, IsFor;
  }

  lemma CreateKeys(s: State, refs: seq<Ref>)
    requires s.nextId !in s.events && KeysRight(s.events, None)
    ensures KeysRight(Create(s, refs).events, None)
  {
    hide KeysRight, CarriesBut, BuildEarly, AcquireFrom;
    var s2 := NewlyBuilt(s, refs);
    NewKeys(s, refs);
    AcquireCarries(s2, s.nextId, 0);
    CarriedKeys(s2.events, Create(s, refs).events, None);
  }

  lemma {:induction false} CreateAllKeys(s: State, succs: seq<seq<Ref>>)
    requires KeysRight(s.events, None) && forall x :: x in s.events ==> x < s.nextId
    ensures KeysRight(CreateAll(s, succs).events, None)
    decreases |succs|
  {
    hide KeysRight, Create;
    if succs != [] {
      CreateKeys(s, succs[0]);
      CreateAllKeys(Create(s, succs[0]), succs[1..]);
    }
  }

  lemma {:induction false} ReacquireShape(s: State, rel: seq<EventId>)
    ensures ReacquireAll(s, rel).events.Keys == s.events.Keys
    decreases |rel|
  {
    hide AcquireFrom;
    if rel != [] && rel[0] in s.events && s.events[rel[0]].at <= |s.events[rel[0]].slots| {
      ReacquireShape(Reacquire(s, rel[0]), rel[1..]);
    }
  }

  lemma ButWeakens(events: map<EventId, Event>, events': map<EventId, Event>, but: Option<EventId>)
    requires CarriesBut(events, events', None)
    ensures CarriesBut(events, events', but)
  {
  }

  lemma EndCarries(s: State, t: ThreadId, e: EventId)
    requires t < |s.threads|
    ensures var s' := Enqueued(Ended(s, t, e));
            CarriesBut(s.events, s'.events, Some(e)) && s'.events.Keys == s.events.Keys - {e}
  {
  }

  // What handle does once the successors have been made.
  lemma FinishCarries(s1: State, t: ThreadId, e: EventId, threads: seq<Option<EventId>>)
    requires e in s1.events && t < |threads|
    ensures var s2 := ReleaseDown(s1, e, |s1.events[e].slots|);
            var s3 := ReacquireAll(s2, s2.hand);
            var s' := Enqueued(s3.(events := s3.events - {e}, threads := threads[t := None]));
            CarriesBut(s1.events, s'.events, Some(e)) && s'.events.Keys == s1.events.Keys - {e}
  {
    hide ReleaseDown, ReacquireAll, CarriesBut, Enqueued, SameRefs;
    var s2 := ReleaseDown(s1, e, |s1.events[e].slots|);
    var s3 := ReacquireAll(s2, s2.hand);
    ReleaseCarries(s1, e, |s1.events[e].slots|);
    ReacquireCarries(s2, s2.hand);
    ReacquireShape(s2, s2.hand);
    ButWeakens(s2.events, s3.events, Some(e));
    CarriesOn(s1.events, s2.events, s3.events, Some(e));
    var s4 := s3.(threads := threads);
    EndCarries(s4, t, e);
    CarriesOn(s1.events, s3.events, Enqueued(Ended(s4, t, e)).events, Some(e));
    assert s3.(events := s3.events - {e}, threads := threads[t := None]) == Ended(s4, t, e);
  }

  lemma InOrderKept(events: map<EventId, Event>, events': map<EventId, Event>, e: EventId, first: EventId,
                    succs: seq<seq<Ref>>)
    requires InOrder(events, first, succs) && CarriesBut(events, events', Some(e)) && e < first
    ensures InOrder(events', first, succs)
  {
    hide CarriesBut, IsFor;
    forall i | 0 <= i < |succs|
      ensures IsFor(events', first + i, succs[i])
    {
      CarriedRefers(events, events', Some(e), first + i, succs[i]);
    }
  }

  // What handle does to the other events, and which events it makes: the i-th is for the
  // i-th successor, and refers to the guards of its node in the node's order.
  lemma SuccessorsAreFor(s: State, t: ThreadId, succs: seq<seq<Ref>>)
    requires Good(s) && Enabled(s, Handle(t, succs))
    ensures var s' := Do(s, Handle(t, succs));
            CarriesBut(s.events, s'.events, s.threads[t]) && InOrder(s'.events, s.nextId, succs)
  {
    hide CreateAll, CarriesBut, InOrder, Inv, Handled;
    var e, s1, s' := s.threads[t].value, CreateAll(s, succs), Handled(s, t, succs);
    HandleIsOld(s, t);
    CreateAllCarries(s, succs);
    FinishCarries(s1, t, e, s.threads);
    HandledAs(s, t, succs);
    ButWeakens(s.events, s1.events, Some(e));
    CarriesOn(s.events, s1.events, s'.events, Some(e));
    InOrderKept(s1.events, s'.events, e, s.nextId, succs);
  }

  lemma HandledAs(s: State, t: ThreadId, succs: seq<seq<Ref>>)
    requires t < |s.threads| && s.threads[t].Some? && s.threads[t].value in s.events
    ensures var e, s1 := s.threads[t].value, CreateAll(s, succs);
            var s2 := ReleaseDown(s1, e, |s1.events[e].slots|);
            var s3 := ReacquireAll(s2, s2.hand);
            Handled(s, t, succs) == Enqueued(s3.(events := s3.events - {e}, threads := s.threads[t := None]))
  {
  }

  lemma HandleIsOld(s: State, t: ThreadId)
    requires Good(s) && t < |s.threads| && s.threads[t].Some?
    ensures s.threads[t].value < s.nextId && s.threads[t].value in s.events
    ensures forall x :: x in s.events ==> x < s.nextId
  {
    RunsIsOld(s, t, s.threads[t].value);
  }

  lemma HandleKeys(s: State, t: ThreadId, succs: seq<seq<Ref>>)
    requires Good(s) && Enabled(s, Handle(t, succs)) && KeysRight(s.events, None)
    ensures KeysRight(Handled(s, t, succs).events, None)
  {
    hide CreateAll, CarriesBut, KeysRight, Inv, Handled;
    var e, s1, s' := s.threads[t].value, CreateAll(s, succs), Handled(s, t, succs);
    HandleIsOld(s, t);
    CreateAllKeys(s, succs);
    FinishCarries(s1, t, e, s.threads);
    HandledAs(s, t, succs);
    KeysLess(s1.events, Some(e));
    CarriedKeys(s1.events, s'.events, Some(e));
    KeysAll(s'.events, e);
  }

  lemma KeysLess(events: map<EventId, Event>, but: Option<EventId>)
    requires KeysRight(events, None)
    ensures KeysRight(events, but)
  {
  }

  lemma KeysAll(events: map<EventId, Event>, e: EventId)
    requires KeysRight(events, Some(e)) && e !in events
    ensures KeysRight(events, None)
  {
  }

  lemma StepKeepsKeys(s: State, step: Step)
    requires Good(s) && Enabled(s, step) && KeysRight(s.events, None)
    ensures KeysRight(Do(s, step).events, None)
  {
    match step
    case Inject(refs) =>
      CreateKeys(s, refs);
      EnqueuedSlots(Create(s, refs));
      hide Create;
    case Handle(t, succs) => HandleKeys(s, t, succs);
    case _ => hide Inv;
  }

  lemma {:induction false} RunKeepsKeys(s: State, schedule: seq<Step>)
    requires Good(s) && KeysRight(s.events, None) && Exec(s, schedule).Some?
    ensures KeysRight(Exec(s, schedule).value.events, None)
    decreases |schedule|
  {
    hide Good, KeysRight, Do;
    if schedule != [] {
      StepKeepsKeys(s, schedule[0]);
      StepKeepsGood(s, schedule[0]);
      RunKeepsKeys(Do(s, schedule[0]), schedule[1..]);
    }
  }

  // An event that can run or is running has each of its guards by the key that was due: a
  // late or collected guard by the answer of its turn, any other by the first answer.  It
  // has none exactly where there was no answer.
  lemma RunnableHasItsKeys(init: State, schedule: seq<Step>, s: State, e: EventId, i: nat)
    requires Init(init) && Exec(init, schedule) == Some(s) && Live(s, e, i)
    requires e in s.runq || Some(e) in s.threads
    ensures var slot := s.events[e].slots[i];
            slot.atom == DueKey(slot.ref) && (slot.have <==> DueKey(slot.ref).Some?)
  {
    InitIsGood(init);
    RunKeepsGood(init, schedule);
    RunKeepsKeys(init, schedule);
    GuardTheorems.RunnablePlace(s, e);
    assert Staged(s.events[e]);
    assert RightKey(s.events[e].slots[i]) && Settled(s.events[e].slots[i]);
  }

  // An event that waits does so for the key that is due for its next guard, and has all
  // those before it.
  lemma WaiterWaitsForItsKey(init: State, schedule: seq<Step>, s: State, e: EventId, n: Name)
    requires Init(init) && Exec(init, schedule) == Some(s) && IsAt(s.events, e, Waiting(n))
    ensures var ev := s.events[e];
            && ev.at < |ev.slots| && ev.slots[ev.at].ref.guard == n.guard
            && DueKey(ev.slots[ev.at].ref) == Some(n.key) && !ev.slots[ev.at].have
            && forall j :: 0 <= j < ev.at ==>
                 ev.slots[j].atom == DueKey(ev.slots[j].ref) && (ev.slots[j].have <==> ev.slots[j].atom.Some?)
  {
    InitIsGood(init);
    RunKeepsGood(init, schedule);
    RunKeepsKeys(init, schedule);
    var ev := s.events[e];
    assert Staged(ev);
    assert RightKey(ev.slots[ev.at]);
    forall j | 0 <= j < ev.at
      ensures ev.slots[j].atom == DueKey(ev.slots[j].ref) && (ev.slots[j].have <==> ev.slots[j].atom.Some?)
    {
      assert RightKey(ev.slots[j]) && Settled(ev.slots[j]);
    }
  }

  // An event that is injected is for the node that it is injected for.
  lemma InjectedIsFor(s: State, refs: seq<Ref>)
    requires Good(s)
    ensures var s' := Do(s, Inject(refs));
            CarriesBut(s.events, s'.events, None) && IsFor(s'.events, s.nextId, refs)
  {
    CreateCarries(s, refs);
    var s1 := Create(s, refs);
    hide Create, CarriesBut, IsFor, Inv;
    QueueCarries(s1);
    CarriesOn(s.events, s1.events, Enqueued(s1).events, None);
    CarriedRefers(s1.events, Enqueued(s1).events, None, s.nextId, refs);
  }

  lemma QueueCarries(s: State)
    ensures CarriesBut(s.events, Enqueued(s).events, None)
  {
  }

  // ---------------------------------------------------------------------------
  // Successors acquire one after the other
  // ---------------------------------------------------------------------------

  // None of these slots is for n, or can be.
  ghost predicate NotFor(slots: seq<Slot>, n: Name) {
    forall j :: 0 <= j < |slots| ==>
      !GuardTheorems.MayBe(slots[j].ref, n) && (slots[j].atom.Some? ==> NameOf(slots[j]) != n)
  }

  lemma {:induction false} AcquireSpares(s: State, e: EventId, i: nat, n: Name)
    requires e in s.events && i <= |s.events[e].slots| && NotFor(s.events[e].slots, n)
    ensures AtomAt(AcquireFrom(s, e, i).atoms, n) == AtomAt(s.atoms, n)
    decreases |s.events[e].slots| - i
  {
    if i < |s.events[e].slots| {
      AcquireOneSpares(s, e, i, n);
      hide AcquireOne, NotFor, AtomAt, SameRefs;
      if AcquireOne(s, e, i).1.Continues? {
        AcquireSpares(AcquireOne(s, e, i).0, e, i + 1, n);
      }
    }
  }

  lemma AcquireOneSpares(s: State, e: EventId, i: nat, n: Name)
    requires Live(s, e, i) && NotFor(s.events[e].slots, n)
    ensures var s' := AcquireOne(s, e, i).0;
            && e in s'.events && |s'.events[e].slots| == |s.events[e].slots|
            && NotFor(s'.events[e].slots, n) && AtomAt(s'.atoms, n) == AtomAt(s.atoms, n)
  {
    hide Acquire;
  }

  lemma CreateSpares(s: State, refs: seq<Ref>, n: Name)
    requires s.nextId !in s.events && forall r :: r in refs ==> !GuardTheorems.MayBe(r, n)
    ensures AtomAt(Create(s, refs).atoms, n) == AtomAt(s.atoms, n)
  {
    NewlyBuiltIs(s, refs);
    var s2 := NewlyBuilt(s, refs);
    hide NewlyBuilt, CarriesBut, IsFor, AcquireFrom, BuildEarly;
    forall j | 0 <= j < |refs|
      ensures !GuardTheorems.MayBe(s2.events[s.nextId].slots[j].ref, n)
    {
      assert refs[j] in refs;
    }
    AcquireSpares(s2, s.nextId, 0, n);
    NewlyBuiltOf(s, refs);
  }

  lemma NewlyBuiltOf(s: State, refs: seq<Ref>)
    ensures Create(s, refs) == AcquireFrom(NewlyBuilt(s, refs), s.nextId, 0)
  {
  }

  // The first guard that the node needs is n.
  predicate NeedsFirst(refs: seq<Ref>, n: Name) {
    refs != [] && refs[0].guard == n.guard && DueKey(refs[0]) == Some(n.key)
  }

  lemma FirstAcquired(s: State, e: EventId, refs: seq<Ref>, n: Name)
    requires e in s.events && NeedsFirst(refs, n) && AtomAt(s.atoms, n).held == 0
    requires s.events[e].slots == GuardTheorems.BuiltFrom(NewEvent(refs).slots, 0)
    ensures var (s', out) := AcquireOne(s, e, 0);
            out.Continues? && Holds(s'.events, e, 0, n)
  {
  }

  lemma CreateHolds(s: State, refs: seq<Ref>, n: Name)
    requires s.nextId !in s.events && NeedsFirst(refs, n) && AtomAt(s.atoms, n).held == 0
    ensures Holds(Create(s, refs).events, s.nextId, 0, n)
  {
    var s2, e := NewlyBuilt(s, refs), s.nextId;
    NewlyBuiltIs(s, refs);
    NewlyBuiltOf(s, refs);
    FirstAcquired(s2, e, refs, n);
    hide NewlyBuilt, CarriesBut, IsFor, BuildEarly, AcquireOne;
    var s3 := AcquireOne(s2, e, 0).0;
    AcquireCarries(s3, e, 1);
    assert AcquireFrom(s2, e, 0) == AcquireFrom(s3, e, 1);
    hide AcquireFrom;
    HoldCarried(s3.events, Create(s, refs).events, None, e, 0, n);
  }

  lemma HoldCarried(events: map<EventId, Event>, events': map<EventId, Event>, but: Option<EventId>,
                    x: EventId, i: nat, n: Name)
    requires CarriesBut(events, events', but) && Some(x) != but && Holds(events, x, i, n)
    ensures Holds(events', x, i, n)
  {
    assert Carries(events[x].slots, events'[x].slots);
    assert SlotCarries(events[x].slots[i], events'[x].slots[i]);
  }

  lemma {:induction false} CreateAllHolds(s: State, succs: seq<seq<Ref>>, i: nat, n: Name)
    requires i < |succs| && NeedsFirst(succs[i], n) && AtomAt(s.atoms, n).held == 0
    requires forall k, r :: 0 <= k < i && r in succs[k] ==> !GuardTheorems.MayBe(r, n)
    requires forall x :: x in s.events ==> x < s.nextId
    ensures Holds(CreateAll(s, succs).events, s.nextId + i, 0, n)
    decreases |succs|
  {
    hide Create, CarriesBut, AtomAt, NeedsFirst;
    var s1 := Create(s, succs[0]);
    if i == 0 {
      CreateHolds(s, succs[0], n);
      CreateAllCarries(s1, succs[1..]);
      HoldCarried(s1.events, CreateAll(s, succs).events, None, s.nextId, 0, n);
    } else {
      CreateSpares(s, succs[0], n);
      CreateAllHolds(s1, succs[1..], i - 1, n);
    }
  }

  // Of the successors of an event that need the same exclusive guard first, while it is free,
  // the earliest gets it and the later ones wait for it.
  lemma EarlierSuccessorWins(init: State, schedule: seq<Step>, s: State, t: ThreadId, succs: seq<seq<Ref>>,
                             i: nat, j: nat, n: Name)
    requires Init(init) && Exec(init, schedule) == Some(s) && Enabled(s, Handle(t, succs))
    requires i < j < |succs| && NeedsFirst(succs[i], n) && NeedsFirst(succs[j], n)
    requires n.guard.kind == ExclusiveKind && AtomAt(s.atoms, n).held == 0
    requires forall k, r :: 0 <= k < i && r in succs[k] ==> !GuardTheorems.MayBe(r, n)
    ensures var s' := Do(s, Handle(t, succs));
            && Holds(s'.events, s.nextId + i, 0, n)
            && IsAt(s'.events, s.nextId + j, Waiting(n))
  {
    InitIsGood(init);
    hide Good, KeysRight, Do, AtomAt, NeedsFirst, Holds;
    RunKeepsGood(init, schedule);
    RunKeepsKeys(init, schedule);
    EarlierSuccessorHolds(s, t, succs, i, n);
    LaterSuccessorWaits(s, t, succs, i, j, n);
  }

  lemma EarlierSuccessorHolds(s: State, t: ThreadId, succs: seq<seq<Ref>>, i: nat, n: Name)
    requires Good(s) && Enabled(s, Handle(t, succs)) && i < |succs| && NeedsFirst(succs[i], n)
    requires AtomAt(s.atoms, n).held == 0
    requires forall k, r :: 0 <= k < i && r in succs[k] ==> !GuardTheorems.MayBe(r, n)
    ensures Holds(Do(s, Handle(t, succs)).events, s.nextId + i, 0, n)
  {
    hide CreateAll, CarriesBut, Good, InOrder, Handled, NeedsFirst, AtomAt, Holds;
    var e, s1 := s.threads[t].value, CreateAll(s, succs);
    HandleIsOld(s, t);
    CreateAllHolds(s, succs, i, n);
    CreateAllCarries(s, succs);
    FinishCarries(s1, t, e, s.threads);
    HandledAs(s, t, succs);
    HoldCarried(s1.events, Handled(s, t, succs).events, Some(e), s.nextId + i, 0, n);
  }

  lemma LaterSuccessorWaits(s: State, t: ThreadId, succs: seq<seq<Ref>>, i: nat, j: nat, n: Name)
    requires Good(s) && KeysRight(s.events, None) && Enabled(s, Handle(t, succs)) && n.guard.kind == ExclusiveKind
    requires i < j < |succs| && NeedsFirst(succs[j], n) && Holds(Do(s, Handle(t, succs)).events, s.nextId + i, 0, n)
    ensures IsAt(Do(s, Handle(t, succs)).events, s.nextId + j, Waiting(n))
  {
    hide CarriesBut, KeysRight, Inv, InOrder, Handled, Good;
    var s' := Do(s, Handle(t, succs));
    SuccessorsAreFor(s, t, succs);
    InOrderAt(s'.events, s.nextId, succs, j);
    StepKeepsGood(s, Handle(t, succs));
    StepKeepsKeys(s, Handle(t, succs));
    NewIsNotRunning(s, t, succs, s.nextId + j);
    LaterWaits(s', s.nextId + i, s.nextId + j, succs[j], n);
  }

  lemma InOrderAt(events: map<EventId, Event>, e: EventId, succs: seq<seq<Ref>>, i: nat)
    requires InOrder(events, e, succs) && i < |succs|
    ensures IsFor(events, e + i, succs[i])
  {
  }

  lemma NewIsNotRunning(s: State, t: ThreadId, succs: seq<seq<Ref>>, x: EventId)
    requires Good(s) && Enabled(s, Handle(t, succs)) && x >= s.nextId
    requires x in Do(s, Handle(t, succs)).events
    ensures var p := Do(s, Handle(t, succs)).events[x].place; p.Queued? || p.Waiting?
  {
    hide Handled;
    HandleStep(s, t, succs);
    var s' := Do(s, Handle(t, succs));
    var p := s'.events[x].place;
    assert IsAt(s'.events, x, p);
    assert x in ListOf(s', p);
    if p.Running? {
      assert Some(x) == s.threads[p.t];
      RunsIsOld(s, p.t, x);
    }
  }

  lemma LaterWaits(s: State, x: EventId, y: EventId, refs: seq<Ref>, n: Name)
    requires Good(s) && KeysRight(s.events, None) && n.guard.kind == ExclusiveKind
    requires x != y && Holds(s.events, x, 0, n) && IsFor(s.events, y, refs) && NeedsFirst(refs, n)
    requires s.events[y].place.Waiting? || s.events[y].place.Queued?
    ensures IsAt(s.events, y, Waiting(n))
  {
    var ev := s.events[y];
    assert Staged(ev) && RightKey(ev.slots[0]);
    if Settled(ev.slots[0]) {
      assert Holds(s.events, y, 0, n);
      assert AtomOk(s.events, AtomAt(s.atoms, n), n);
      GuardModes.TwoHolders(s.events, n, x, 0, y, 0);
    }
  }

  lemma {:induction false} AcquireQueues(s: State, e: EventId, i: nat)
    requires e in s.events && i <= |s.events[e].slots|
    ensures var s' := AcquireFrom(s, e, i);
            s'.runq == s.runq && (s'.ready == s.ready || s'.ready == s.ready + [e])
    decreases |s.events[e].slots| - i
  {
    if i < |s.events[e].slots| {
      assert AcquireOne(s, e, i).0.ready == s.ready && AcquireOne(s, e, i).0.runq == s.runq;
      hide AcquireOne;
      if AcquireOne(s, e, i).1.Continues? {
        AcquireQueues(AcquireOne(s, e, i).0, e, i + 1);
      }
    }
  }

  // q is what is left of `all` when some are left out.
  predicate Among(q: seq<EventId>, all: seq<EventId>)
    decreases |all|
  {
    q == [] || (all != [] && ((q[0] == all[0] && Among(q[1..], all[1..])) || Among(q, all[1..])))
  }

  lemma {:induction false} ReacquireQueues(s: State, rel: seq<EventId>) returns (resumed: seq<EventId>)
    ensures var s' := ReacquireAll(s, rel); s'.runq == s.runq && s'.ready == s.ready + resumed
    ensures Among(resumed, rel)
    decreases |rel|
  {
    hide AcquireFrom;
    resumed := [];
    if rel != [] && rel[0] in s.events && s.events[rel[0]].at <= |s.events[rel[0]].slots| {
      var s' := Reacquire(s, rel[0]);
      AcquireQueues(s, rel[0], s.events[rel[0]].at);
      var more := ReacquireQueues(s', rel[1..]);
      resumed := s'.ready[|s.ready|..] + more;
      assert resumed == more || (resumed == [rel[0]] + more && resumed[1..] == more);
    }
  }

  lemma NewlyBuiltQueues(s: State, refs: seq<Ref>)
    ensures NewlyBuilt(s, refs).runq == s.runq && NewlyBuilt(s, refs).ready == s.ready
  {
    var e := s.nextId;
    var s1 := s.(events := s.events[e := NewEvent(refs)], nextId := e + 1, hand := [e] + s.hand);
    GuardTheorems.BuildEarlyBuilds(s1, e, 0);
  }

  // Events in the order of their creation, none of them older than `first`.
  predicate Ascends(q: seq<EventId>, first: EventId) {
    && (forall i :: 0 <= i < |q| ==> q[i] >= first)
    && (forall i, j :: 0 <= i < j < |q| ==> q[i] < q[j])
  }

  lemma {:induction false} CreateAllQueues(s: State, succs: seq<seq<Ref>>) returns (made: seq<EventId>)
    ensures var s' := CreateAll(s, succs);
            s'.runq == s.runq && s'.ready == s.ready + made && Ascends(made, s.nextId)
    decreases |succs|
  {
    hide Create;
    made := [];
    if succs != [] {
      var s1 := Create(s, succs[0]);
      assert s1.runq == s.runq && (s1.ready == s.ready || s1.ready == s.ready + [s.nextId]) by {
        NewlyBuiltQueues(s, succs[0]);
        NewlyBuiltOf(s, succs[0]);
        AcquireQueues(NewlyBuilt(s, succs[0]), s.nextId, 0);
      }
      var more := CreateAllQueues(s1, succs[1..]);
      made := s1.ready[|s.ready|..] + more;
    }
  }

  // The successors that have all their guards at once are queued in the order in which they
  // were created, and behind them the events that the release has let go on.
  lemma SuccessorsQueueInOrder(s: State, t: ThreadId, succs: seq<seq<Ref>>)
    returns (made: seq<EventId>, resumed: seq<EventId>)
    requires Good(s) && Enabled(s, Handle(t, succs))
    ensures Do(s, Handle(t, succs)).runq == s.runq + made + resumed && Ascends(made, s.nextId)
    ensures var s1, e := CreateAll(s, succs), s.threads[t].value;
            Among(resumed, ReleaseDown(s1, e, |s1.events[e].slots|).hand)
    ensures forall x :: x in CreateAll(s, succs).events ==>
              (x in made <==> CreateAll(s, succs).events[x].place.Ready?)
  {
    hide CreateAll, Inv, RunnersSettled, Ascends, Handled;
    var e, s1 := s.threads[t].value, CreateAll(s, succs);
    RunsIsOld(s, t, e);
    made := CreateAllQueues(s, succs);
    CreateAllKeepsInv(s, succs);
    resumed := FinishQueues(s1, t, e, s.threads);
    HandledAs(s, t, succs);
    assert [] + made == made && s.runq + (made + resumed) == s.runq + made + resumed;
    ReadyAre(s1);
  }

  lemma FinishQueues(s1: State, t: ThreadId, e: EventId, threads: seq<Option<EventId>>) returns (resumed: seq<EventId>)
    requires Inv(s1) && IsAt(s1.events, e, Running(t)) && t < |threads|
    ensures var s2 := ReleaseDown(s1, e, |s1.events[e].slots|);
            var s3 := ReacquireAll(s2, s2.hand);
            var s' := Enqueued(s3.(events := s3.events - {e}, threads := threads[t := None]));
            s'.runq == s1.runq + (s1.ready + resumed) && Among(resumed, s2.hand)
  {
    hide ReleaseDown, ReacquireAll, Inv;
    ReleaseKeepsInv(s1, e, |s1.events[e].slots|);
    var s2 := ReleaseDown(s1, e, |s1.events[e].slots|);
    resumed := ReacquireQueues(s2, s2.hand);
  }

  lemma ReadyAre(s: State)
    requires Inv(s)
    ensures forall x :: x in s.events ==> (x in s.ready <==> s.events[x].place.Ready?)
  {
    forall x | x in s.events
      ensures x in s.ready <==> s.events[x].place.Ready?
    {
      assert x in ListOf(s, Ready) <==> IsAt(s.events, x, Ready);
    }
  }
}
