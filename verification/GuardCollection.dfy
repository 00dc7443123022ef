/**
 * Collecting guards cannot be noticed.  The same schedule is run with and without
 * collection; the two runs differ only in which unused atomics the maps keep.
 */
module GuardCollection {
  import opened Basics
  import opened ClassicAtomics
  import opened GuardKernel

  ghost predicate SameAtoms(atoms: map<Name, Atomic>, atoms': map<Name, Atomic>) {
    forall n :: AtomAt(atoms', n) == AtomAt(atoms, n)
  }

  // Equal but for atomics that are as good as absent.
  ghost predicate SameView(s: State, s': State) {
    s' == s.(atoms := s'.atoms, collect := s'.collect) && SameAtoms(s.atoms, s'.atoms)
  }

  lemma SamePut(atoms: map<Name, Atomic>, atoms': map<Name, Atomic>, m: Name, a: Atomic)
    requires SameAtoms(atoms, atoms')
    ensures SameAtoms(atoms[m := a], atoms'[m := a])
  {
    var put, put' := atoms[m := a], atoms'[m := a];
    forall n
      ensures AtomAt(put, n) == AtomAt(put', n)
    {
      assert AtomAt(atoms, n) == AtomAt(atoms', n);
    }
  }

  lemma SameFound(atoms: map<Name, Atomic>, atoms': map<Name, Atomic>, slot: Slot)
    requires SameAtoms(atoms, atoms')
    ensures SameAtoms(FoundFor(atoms, slot), FoundFor(atoms', slot))
  {
    forall n
      ensures AtomAt(FoundFor(atoms, slot), n) == AtomAt(FoundFor(atoms', slot), n)
    {
      assert AtomAt(atoms, n) == AtomAt(atoms', n);
    }
  }

  lemma {:induction false} BuildEarlyView(s: State, s': State, e: EventId, i: nat)
    requires SameView(s, s') && e in s.events && i <= |s.events[e].slots|
    ensures SameView(BuildEarly(s, e, i), BuildEarly(s', e, i))
    decreases |s.events[e].slots| - i
  {
    if i < |s.events[e].slots| {
      var ev := s.events[e];
      var slot := Built(ev.slots[i], false);
      SameFound(s.atoms, s'.atoms, slot);
      BuildEarlyView(s.(events := s.events[e := WithSlot(ev, i, slot)], atoms := FoundFor(s.atoms, slot)),
                     s'.(events := s.events[e := WithSlot(ev, i, slot)], atoms := FoundFor(s'.atoms, slot)), e, i + 1);
    }
  }

  lemma AcquireOneView(s: State, s': State, e: EventId, i: nat)
    requires SameView(s, s') && Live(s, e, i)
    ensures SameView(AcquireOne(s, e, i).0, AcquireOne(s', e, i).0)
    ensures AcquireOne(s, e, i).1 == AcquireOne(s', e, i).1
  {
    var slot := Built(s.events[e].slots[i], true);
    SameFound(s.atoms, s'.atoms, slot);
    if slot.atom.Some? {
      var n := NameOf(slot);
      var atoms, atoms' := FoundFor(s.atoms, slot), FoundFor(s'.atoms, slot);
      assert AtomAt(atoms, n) == AtomAt(atoms', n);
      SamePut(atoms, atoms', n, Acquire(AtomAt(atoms, n), n.guard.kind, e, slot.ref.wtype).0);
    }
  }

  lemma {:induction false} AcquireFromView(s: State, s': State, e: EventId, i: nat)
    requires SameView(s, s') && e in s.events && i <= |s.events[e].slots|
    ensures SameView(AcquireFrom(s, e, i), AcquireFrom(s', e, i))
    decreases |s.events[e].slots| - i
  {
    hide AcquireOne, SameAtoms;
    if i < |s.events[e].slots| {
      AcquireOneView(s, s', e, i);
      var t, t', out := AcquireOne(s, e, i).0, AcquireOne(s', e, i).0, AcquireOne(s, e, i).1;
      if out.Continues? {
        AcquireFromView(t, t', e, i + 1);
        assert AcquireFrom(s, e, i) == AcquireFrom(t, e, i + 1) && AcquireFrom(s', e, i) == AcquireFrom(t', e, i + 1);
      } else {
        assert AcquireFrom(s, e, i) == t && AcquireFrom(s', e, i) == t';
      }
    }
  }

  lemma CreateView(s: State, s': State, refs: seq<Ref>)
    requires SameView(s, s')
    ensures SameView(Create(s, refs), Create(s', refs))
  {
    hide BuildEarly, AcquireFrom, SameRefs;
    var e := s.nextId;
    var s1 := s.(events := s.events[e := NewEvent(refs)], nextId := e + 1, hand := [e] + s.hand);
    var s1' := s'.(events := s.events[e := NewEvent(refs)], nextId := e + 1, hand := [e] + s.hand);
    BuildEarlyView(s1, s1', e, 0);
    AcquireFromView(BuildEarly(s1, e, 0), BuildEarly(s1', e, 0), e, 0);
  }

  lemma {:induction false} CreateAllView(s: State, s': State, succs: seq<seq<Ref>>)
    requires SameView(s, s')
    ensures SameView(CreateAll(s, succs), CreateAll(s', succs))
    decreases |succs|
  {
    hide Create;
    if succs != [] {
      CreateView(s, s', succs[0]);
      CreateAllView(Create(s, succs[0]), Create(s', succs[0]), succs[1..]);
    }
  }

  // An atomic that nobody holds or waits for and that has no data is as good as absent.
  lemma CollectedView(s: State, n: Name)
    requires AtomsInv(s) && AtomAt(s.atoms, n).held == 0 && AtomAt(s.atoms, n).waiters == []
    ensures SameView(s, Collected(s, n))
  {
    assert AtomOk(s.events, AtomAt(s.atoms, n), n);
  }

  lemma LetGoView(s: State, s': State, e: EventId, i: nat, n: Name)
    requires SameView(s, s') && Live(s, e, i)
    ensures SameView(LetGoOf(s, e, i, n), LetGoOf(s', e, i, n))
  {
    assert AtomAt(s.atoms, n) == AtomAt(s'.atoms, n);
    SamePut(s.atoms, s'.atoms, n, Release(AtomAt(s.atoms, n), n.guard.kind).0);
  }

  lemma ReleaseOneView(s: State, s': State, e: EventId, i: nat)
    requires SameView(s, s') && Inv(s) && Inv(s') && Live(s, e, i) && s.events[e].place.Running?
    ensures SameView(ReleaseOne(s, e, i), ReleaseOne(s', e, i))
  {
    var slot := s.events[e].slots[i];
    if slot.have && slot.atom.Some? {
      var n := NameOf(slot);
      assert LetsGo(s, e, i, n) && LetsGo(s', e, i, n);
      LetGoView(s, s', e, i, n);
      LetGoAtoms(s, e, i, n);
      LetGoAtoms(s', e, i, n);
      var s1, s1' := LetGoOf(s, e, i, n), LetGoOf(s', e, i, n);
      hide LetGoOf, AtomsInv, Inv, Collected;
      if AtomAt(s1.atoms, n).waiters == [] && AtomAt(s1.atoms, n).held == 0 {
        CollectedView(s1, n);
        CollectedView(s1', n);
      }
    }
  }

  lemma {:induction false} ReleaseDownView(s: State, s': State, e: EventId, i: nat)
    requires SameView(s, s') && Inv(s) && Inv(s')
    requires e in s.events && i <= |s.events[e].slots| && s.events[e].place.Running?
    ensures SameView(ReleaseDown(s, e, i), ReleaseDown(s', e, i))
    decreases i
  {
    hide ReleaseOne, Inv;
    if i > 0 {
      ReleaseOneView(s, s', e, i - 1);
      ReleaseOneStep(s, e, i - 1);
      ReleaseOneStep(s', e, i - 1);
      ReleaseDownView(ReleaseOne(s, e, i - 1), ReleaseOne(s', e, i - 1), e, i - 1);
    }
  }

  lemma {:induction false} ReacquireAllView(s: State, s': State, rel: seq<EventId>)
    requires SameView(s, s')
    ensures SameView(ReacquireAll(s, rel), ReacquireAll(s', rel))
    decreases |rel|
  {
    hide AcquireFrom;
    if rel != [] {
      var e := rel[0];
      if e in s.events && s.events[e].at <= |s.events[e].slots| {
        AcquireFromView(s, s', e, s.events[e].at);
        ReacquireAllView(Reacquire(s, e), Reacquire(s', e), rel[1..]);
      }
    }
  }

  lemma EnqueuedView(s: State, s': State)
    requires SameView(s, s')
    ensures SameView(Enqueued(s), Enqueued(s'))
  {
  }

  lemma HandledView(s: State, s': State, t: ThreadId, succs: seq<seq<Ref>>)
    requires SameView(s, s') && Good(s) && Good(s') && Enabled(s, Handle(t, succs))
    ensures SameView(Handled(s, t, succs), Handled(s', t, succs))
  {
    var e := s.threads[t].value;
    RunsIsOld(s, t, e);
    hide CreateAll, ReleaseDown, ReacquireAll, Inv, Enqueued, RunnersSettled;
    CreateAllKeepsInv(s, succs);
    CreateAllKeepsInv(s', succs);
    var s1, s1' := CreateAll(s, succs), CreateAll(s', succs);
    CreateAllView(s, s', succs);
    var i := |s1.events[e].slots|;
    ReleaseDownView(s1, s1', e, i);
    var s2, s2' := ReleaseDown(s1, e, i), ReleaseDown(s1', e, i);
    ReacquireAllView(s2, s2', s2.hand);
    var s3, s3' := ReacquireAll(s2, s2.hand), ReacquireAll(s2', s2.hand);
    EnqueuedView(s3.(events := s3.events - {e}, threads := s.threads[t := None]),
                 s3'.(events := s3'.events - {e}, threads := s.threads[t := None]));
  }

  lemma StepView(s: State, s': State, step: Step)
    requires SameView(s, s') && Good(s) && Good(s') && Enabled(s, step)
    ensures Enabled(s', step) && SameView(Do(s, step), Do(s', step))
  {
    match step
    case Inject(refs) =>
      CreateView(s, s', refs);
      EnqueuedView(Create(s, refs), Create(s', refs));
    case Take(t) =>
    case Assign(t, i, data) =>
      var n := NameOf(s.events[s.threads[t].value].slots[i]);
      assert AtomAt(s.atoms, n) == AtomAt(s'.atoms, n);
      SamePut(s.atoms, s'.atoms, n, AtomAt(s.atoms, n).(data := data));
    case Handle(t, succs) => HandledView(s, s', t, succs);
  }

  lemma EnabledView(s: State, s': State, step: Step)
    requires SameView(s, s') && Enabled(s', step)
    ensures Enabled(s, step)
  {
  }

  lemma {:induction false} RunView(s: State, s': State, schedule: seq<Step>)
    requires SameView(s, s') && Good(s) && Good(s')
    ensures Exec(s, schedule).Some? <==> Exec(s', schedule).Some?
    ensures Exec(s, schedule).Some? ==> SameView(Exec(s, schedule).value, Exec(s', schedule).value)
    decreases |schedule|
  {
    hide Do, Good, Enabled;
    if schedule != [] {
      if Enabled(s', schedule[0]) {
        EnabledView(s, s', schedule[0]);
      }
      if Enabled(s, schedule[0]) {
        StepView(s, s', schedule[0]);
        StepKeepsGood(s, schedule[0]);
        StepKeepsGood(s', schedule[0]);
        RunView(Do(s, schedule[0]), Do(s', schedule[0]), schedule[1..]);
      }
    }
  }

  // With and without collection, the same schedules are possible, every event is in the
  // same state and place, and every key has the same holders count, waiters and data.
  lemma CollectionUnobservable(init: State, schedule: seq<Step>)
    requires Init(init)
    ensures var (with, without) := (Exec(init.(collect := true), schedule), Exec(init.(collect := false), schedule));
            && (with.Some? <==> without.Some?)
            && (with.Some? ==> SameView(with.value, without.value))
  {
    InitIsGood(init.(collect := true));
    InitIsGood(init.(collect := false));
    RunView(init.(collect := true), init.(collect := false), schedule);
  }

  // No event keeps a pointer to a collected atomic: what it points to is in the map,
  // and if it may be collected then the event holds it or waits for it.
  lemma NoDanglingPointer(init: State, schedule: seq<Step>, s: State, e: EventId, i: nat)
    requires Init(init) && Exec(init, schedule) == Some(s) && Live(s, e, i) && s.events[e].slots[i].atom.Some?
    ensures var n := NameOf(s.events[e].slots[i]);
            && n in s.atoms
            && (n.guard.gc ==>
                  if s.events[e].slots[i].have then s.atoms[n].held > 0
                  else s.events[e].place == Waiting(n) && e in EventsOf(s.atoms[n].waiters))
  {
    InitIsGood(init);
    RunKeepsGood(init, schedule);
    assert Pointing(s.events[e].slots, s.atoms);
    var n := NameOf(s.events[e].slots[i]);
    if n.guard.gc {
      PointerIsInUse(s, n, e, i);
    }
  }
}
