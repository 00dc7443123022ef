/**
 * What happens to the atoms over whole runs: their data is what was assigned last, no
 * collectable atom that is of no use stays in its map, and a release lets waiters go in the
 * reverse order of the guards.
 */
module GuardAtoms {
  import opened Basics
  import opened ClassicAtomics
  import opened GuardKernel
  import GuardKeys

  // ---------------------------------------------------------------------------
  // The data of a guard
  // ---------------------------------------------------------------------------

  ghost predicate SameData(atoms: map<Name, Atomic>, atoms': map<Name, Atomic>) {
    forall n :: AtomAt(atoms', n).data == AtomAt(atoms, n).data
  }

  lemma AcquireOneSameData(s: State, e: EventId, i: nat)
    requires Live(s, e, i)
    ensures SameData(s.atoms, AcquireOne(s, e, i).0.atoms)
  {
  }

  lemma {:induction false} AcquireSameData(s: State, e: EventId, i: nat)
    requires e in s.events && i <= |s.events[e].slots|
    ensures SameData(s.atoms, AcquireFrom(s, e, i).atoms)
    decreases |s.events[e].slots| - i
  {
    if i < |s.events[e].slots| {
      AcquireOneSameData(s, e, i);
      hide AcquireOne, AtomAt;
      if AcquireOne(s, e, i).1.Continues? {
        AcquireSameData(AcquireOne(s, e, i).0, e, i + 1);
      }
    }
  }

  lemma {:induction false} BuildSameData(s: State, e: EventId, i: nat)
    requires e in s.events && i <= |s.events[e].slots|
    ensures SameData(s.atoms, BuildEarly(s, e, i).atoms)
    decreases |s.events[e].slots| - i
  {
    if i < |s.events[e].slots| {
      var slot := Built(s.events[e].slots[i], false);
      var s1 := s.(events := s.events[e := WithSlot(s.events[e], i, slot)], atoms := FoundFor(s.atoms, slot));
      assert SameData(s.atoms, s1.atoms);
      hide FoundFor, AtomAt, Built;
      BuildSameData(s1, e, i + 1);
    }
  }

  lemma CreateSameData(s: State, refs: seq<Ref>)
    ensures SameData(s.atoms, Create(s, refs).atoms)
  {
    hide AcquireFrom, BuildEarly, AtomAt, NewEvent;
    var e := s.nextId;
    var s1 := s.(events := s.events[e := NewEvent(refs)], nextId := e + 1, hand := [e] + s.hand);
    BuildSameData(s1, e, 0);
    AcquireSameData(BuildEarly(s1, e, 0), e, 0);
  }

  lemma {:induction false} CreateAllSameData(s: State, succs: seq<seq<Ref>>)
    ensures SameData(s.atoms, CreateAll(s, succs).atoms)
    decreases |succs|
  {
    hide Create, AtomAt;
    if succs != [] {
      CreateSameData(s, succs[0]);
      CreateAllSameData(Create(s, succs[0]), succs[1..]);
    }
  }

  lemma ReleaseOneSameData(s: State, e: EventId, i: nat)
    requires Live(s, e, i)
    ensures SameData(s.atoms, ReleaseOne(s, e, i).atoms)
  {
  }

  lemma {:induction false} ReleaseSameData(s: State, e: EventId, i: nat)
    requires e in s.events && i <= |s.events[e].slots|
    ensures SameData(s.atoms, ReleaseDown(s, e, i).atoms)
    decreases i
  {
    hide ReleaseOne, AtomAt;
    if i > 0 {
      ReleaseOneSameData(s, e, i - 1);
      ReleaseSameData(ReleaseOne(s, e, i - 1), e, i - 1);
    }
  }

  lemma {:induction false} ReacquireSameData(s: State, rel: seq<EventId>)
    ensures SameData(s.atoms, ReacquireAll(s, rel).atoms)
    decreases |rel|
  {
    hide AcquireFrom, AtomAt;
    if rel != [] && rel[0] in s.events && s.events[rel[0]].at <= |s.events[rel[0]].slots| {
      AcquireSameData(s, rel[0], s.events[rel[0]].at);
      ReacquireSameData(Reacquire(s, rel[0]), rel[1..]);
    }
  }

  lemma HandleSameData(s: State, t: ThreadId, succs: seq<seq<Ref>>)
    requires Enabled(s, Handle(t, succs))
    ensures SameData(s.atoms, Handled(s, t, succs).atoms)
  {
    hide CreateAll, ReleaseDown, ReacquireAll, AtomAt, SameRefs;
    var e, s1 := s.threads[t].value, CreateAll(s, succs);
    var s2 := ReleaseDown(s1, e, |s1.events[e].slots|);
    CreateAllSameData(s, succs);
    ReleaseSameData(s1, e, |s1.events[e].slots|);
    ReacquireSameData(s2, s2.hand);
  }

  // The atom whose data the step changes: one that the event in the thread's hands holds.
  function Assigned(s: State, step: Step): Option<Name>
    requires Enabled(s, step)
  {
    if step.Assign? then Some(NameOf(s.events[s.threads[step.t].value].slots[step.i])) else None
  }

  lemma StepData(s: State, step: Step, n: Name)
    requires Enabled(s, step)
    ensures AtomAt(Do(s, step).atoms, n).data ==
            if Assigned(s, step) == Some(n) then step.data else AtomAt(s.atoms, n).data
  {
    match step
    case Inject(refs) =>
      CreateSameData(s, refs);
      hide Create;
    case Handle(t, succs) =>
      HandleSameData(s, t, succs);
      hide Handled;
    case _ =>
  }

  // What was assigned to n last.
  function LastData(s: State, schedule: seq<Step>, n: Name, data: Option<Data>): Option<Data>
    requires Exec(s, schedule).Some?
    decreases |schedule|
  {
    if schedule == [] then data
    else LastData(Do(s, schedule[0]), schedule[1..], n,
                  if Assigned(s, schedule[0]) == Some(n) then schedule[0].data else data)
  }

  lemma {:induction false} RunData(s: State, schedule: seq<Step>, n: Name)
    requires Exec(s, schedule).Some?
    ensures AtomAt(Exec(s, schedule).value.atoms, n).data == LastData(s, schedule, n, AtomAt(s.atoms, n).data)
    decreases |schedule|
  {
    hide Do, Enabled, AtomAt, Assigned;
    if schedule != [] {
      StepData(s, schedule[0], n);
      RunData(Do(s, schedule[0]), schedule[1..], n);
    }
  }

  // Every run, with collection or without: the data of a guard is what a holder assigned to
  // it last, and null if nobody did.
  lemma DataIsWhatWasAssigned(init: State, schedule: seq<Step>, s: State, n: Name)
    requires Init(init) && Exec(init, schedule) == Some(s)
    ensures AtomAt(s.atoms, n).data == LastData(init, schedule, n, None)
  {
    RunData(init, schedule, n);
  }

  // ---------------------------------------------------------------------------
  // Collection leaves nothing behind
  // ---------------------------------------------------------------------------

  // Collectable atoms without data are there only while they are held.
  ghost predicate Tidy(atoms: map<Name, Atomic>) {
    forall n :: n in atoms && n.guard.gc && atoms[n].data == None ==> atoms[n].held > 0
  }

  lemma AcquireOneTidy(s: State, e: EventId, i: nat)
    requires Inv(s) && Tidy(s.atoms) && Working(s, e, i) && i < |s.events[e].slots|
    ensures Tidy(AcquireOne(s, e, i).0.atoms)
  {
    hide Inv, Asked, Tidy, AcquireOne;
    var slot := Built(s.events[e].slots[i], true);
    if slot.have || slot.atom.None? {
      SkipFindsNothing(s, e, i);
    } else {
      AskStep(s, e, i, slot, NameOf(slot));
      AskedTidy(s, AcquireOne(s, e, i).0, e, i, slot, NameOf(slot), AcquireOne(s, e, i).1.Continues?);
    }
  }

  lemma AskedTidy(s: State, s': State, e: EventId, i: nat, slot: Slot, n: Name, ok: bool)
    requires Tidy(s.atoms) && Asked(s, s', e, i, slot, n, ok)
    ensures Tidy(s'.atoms)
  {
    hide Working;
  }

  lemma SkipFindsNothing(s: State, e: EventId, i: nat)
    requires Inv(s) && Working(s, e, i) && i < |s.events[e].slots|
    requires var slot := Built(s.events[e].slots[i], true); slot.have || slot.atom.None?
    ensures AcquireOne(s, e, i).0.atoms == s.atoms
  {
    assert Pointing(s.events[e].slots, s.atoms);
  }

  lemma {:induction false} AcquireTidy(s: State, e: EventId, i: nat)
    requires Inv(s) && Tidy(s.atoms) && Working(s, e, i)
    ensures Tidy(AcquireFrom(s, e, i).atoms)
    decreases |s.events[e].slots| - i
  {
    hide AcquireOne, Inv, Tidy;
    if i < |s.events[e].slots| {
      var (s', out) := AcquireOne(s, e, i);
      AcquireOneTidy(s, e, i);
      OneTurn(s, e, i);
      if out.Continues? {
        AcquireTidy(s', e, i + 1);
      }
    }
  }

  lemma {:induction false} BuildTidy(s: State, e: EventId, i: nat)
    requires Inv(s) && Tidy(s.atoms) && Working(s, e, 0) && i <= |s.events[e].slots|
    ensures Tidy(BuildEarly(s, e, i).atoms)
    decreases |s.events[e].slots| - i
  {
    if i < |s.events[e].slots| {
      var slot := Built(s.events[e].slots[i], false);
      var s1 := s.(events := s.events[e := WithSlot(s.events[e], i, slot)], atoms := FoundFor(s.atoms, slot));
      BuildOneTidy(s, e, i);
      hide Inv, Tidy, Built, FoundFor, WithSlot, Working;
      BuildOneKeepsInv(s, e, i);
      BuildTidy(s1, e, i + 1);
    }
  }

  // A collectable guard is not looked up before its turn, when it is acquired at once.
  lemma BuildOneTidy(s: State, e: EventId, i: nat)
    requires Inv(s) && Tidy(s.atoms) && Working(s, e, 0) && i < |s.events[e].slots|
    ensures Tidy(FoundFor(s.atoms, Built(s.events[e].slots[i], false)))
  {
    assert Untouched(s.events[e].slots[i]) || s.events[e].slots[i].have;
    assert Pointing(s.events[e].slots, s.atoms);
  }

  lemma CreateTidy(s: State, refs: seq<Ref>)
    requires Inv(s) && Tidy(s.atoms) && s.hand == []
    ensures Tidy(Create(s, refs).atoms)
  {
    hide BuildEarly, AcquireFrom, Inv, Tidy, SameRefs, Reached;
    var e := s.nextId;
    var s1 := s.(events := s.events[e := NewEvent(refs)], nextId := e + 1, hand := [e]);
    assert [e] + s.hand == [e];
    NewKeepsInv(s, refs);
    BuildKeepsInv(s1, e, 0);
    BuildTidy(s1, e, 0);
    AcquireTidy(BuildEarly(s1, e, 0), e, 0);
  }

  lemma {:induction false} CreateAllTidy(s: State, succs: seq<seq<Ref>>)
    requires Inv(s) && Tidy(s.atoms) && s.hand == []
    ensures Tidy(CreateAll(s, succs).atoms)
    decreases |succs|
  {
    hide Create, Inv, Tidy;
    if succs != [] {
      CreateTidy(s, succs[0]);
      CreateKeepsInv(s, succs[0]);
      CreateAllTidy(Create(s, succs[0]), succs[1..]);
    }
  }

  lemma {:induction false} ReacquireTidy(s: State, rel: seq<EventId>)
    requires Inv(s) && Tidy(s.atoms) && s.hand == rel
    ensures Tidy(ReacquireAll(s, rel).atoms)
    decreases |rel|
  {
    hide AcquireFrom, Inv, Tidy, SameRefs;
    if rel != [] {
      var e := rel[0];
      FrontWorks(s);
      AcquireKeepsInv(s, e, s.events[e].at);
      AcquireTidy(s, e, s.events[e].at);
      ReacquireTidy(Reacquire(s, e), rel[1..]);
    }
  }

  lemma ReleaseOneTidy(s: State, e: EventId, i: nat)
    requires Inv(s) && Tidy(s.atoms) && Live(s, e, i) && s.collect
    ensures Tidy(ReleaseOne(s, e, i).atoms)
  {
    var slot := s.events[e].slots[i];
    if slot.have && slot.atom.Some? {
      var n := NameOf(slot);
      HolderCounts(s, e, i, n);
      FreeIsUnwanted(AtomAt(s.atoms, n), n.guard.kind);
    }
  }

  // A release that leaves nobody holding leaves nobody waiting, and lets nobody go.
  lemma FreeIsUnwanted(a: Atomic, kind: Kind)
    requires a.held > 0
    ensures Release(a, kind).0.held == 0 ==> Release(a, kind).0.waiters == [] && Release(a, kind).1 == []
  {
  }

  lemma {:induction false} ReleaseTidy(s: State, e: EventId, i: nat)
    requires Inv(s) && Tidy(s.atoms) && s.collect
    requires e in s.events && i <= |s.events[e].slots| && s.events[e].place.Running?
    ensures Tidy(ReleaseDown(s, e, i).atoms)
    decreases i
  {
    hide ReleaseOne, Inv, Tidy, SameRefs;
    if i > 0 {
      ReleaseOneTidy(s, e, i - 1);
      ReleaseOneStep(s, e, i - 1);
      ReleaseTidy(ReleaseOne(s, e, i - 1), e, i - 1);
    }
  }

  lemma HandleTidy(s: State, t: ThreadId, succs: seq<seq<Ref>>)
    requires Good(s) && Tidy(s.atoms) && s.collect && Enabled(s, Handle(t, succs))
    ensures Tidy(Handled(s, t, succs).atoms)
  {
    hide CreateAll, ReleaseDown, ReacquireAll, Inv, Tidy, Enqueued, RunnersSettled, SameRefs;
    var e, s1 := s.threads[t].value, CreateAll(s, succs);
    RunsIsOld(s, t, e);
    CreateAllKeepsInv(s, succs);
    CreateAllTidy(s, succs);
    var i := |s1.events[e].slots|;
    var s2 := ReleaseDown(s1, e, i);
    ReleaseKeepsInv(s1, e, i);
    ReleaseTidy(s1, e, i);
    ReacquireTidy(s2, s2.hand);
    QueueAtoms(ReacquireAll(s2, s2.hand), t, e, s.threads);
  }

  lemma QueueAtoms(s3: State, t: ThreadId, e: EventId, threads: seq<Option<EventId>>)
    requires t < |threads|
    ensures Enqueued(s3.(events := s3.events - {e}, threads := threads[t := None])).atoms == s3.atoms
  {
  }

  lemma AssignTidy(s: State, t: ThreadId, i: nat, data: Option<Data>)
    requires Inv(s) && Tidy(s.atoms) && Enabled(s, Assign(t, i, data))
    ensures Tidy(Do(s, Assign(t, i, data)).atoms)
  {
    var e := s.threads[t].value;
    HolderCounts(s, e, i, NameOf(s.events[e].slots[i]));
  }

  lemma StepKeepsTidy(s: State, step: Step)
    requires Good(s) && Tidy(s.atoms) && s.collect && Enabled(s, step)
    ensures Tidy(Do(s, step).atoms)
  {
    hide Inv, Tidy, Handled, Create;
    match step
    case Inject(refs) => CreateTidy(s, refs);
    case Take(_) =>
    case Assign(t, i, data) => AssignTidy(s, t, i, data);
    case Handle(t, succs) => HandleTidy(s, t, succs);
  }

  lemma StepKeepsCollect(s: State, step: Step)
    requires Good(s) && Enabled(s, step)
    ensures Do(s, step).collect == s.collect
  {
    hide Inv, Create, CreateAll, ReleaseDown, ReacquireAll, RunnersSettled, SameRefs;
    match step
    case Inject(refs) => CreateKeepsInv(s, refs);
    case Handle(t, succs) =>
      var e, s1 := s.threads[t].value, CreateAll(s, succs);
      RunsIsOld(s, t, e);
      CreateAllKeepsInv(s, succs);
      ReleaseKeepsInv(s1, e, |s1.events[e].slots|);
      var s2 := ReleaseDown(s1, e, |s1.events[e].slots|);
      ReacquireKeepsInv(s2, s2.hand);
    case _ =>
  }

  lemma {:induction false} RunKeepsTidy(s: State, schedule: seq<Step>)
    requires Good(s) && Tidy(s.atoms) && s.collect && Exec(s, schedule).Some?
    ensures Tidy(Exec(s, schedule).value.atoms)
    decreases |schedule|
  {
    hide Good, Tidy, Do, Enabled;
    if schedule != [] {
      StepKeepsTidy(s, schedule[0]);
      StepKeepsGood(s, schedule[0]);
      StepKeepsCollect(s, schedule[0]);
      RunKeepsTidy(Do(s, schedule[0]), schedule[1..]);
    }
  }

  // Every run: an atom of a collectable guard that has no data is in its map only while some
  // event holds it, so none is left behind.
  lemma NothingLeaks(init: State, schedule: seq<Step>, s: State, n: Name)
    requires Init(init) && init.collect && Exec(init, schedule) == Some(s)
    requires n in s.atoms && n.guard.gc && s.atoms[n].data == None
    ensures exists e: EventId, i: nat :: Holds(s.events, e, i, n)
  {
    InitIsGood(init);
    RunKeepsGood(init, schedule);
    RunKeepsTidy(init, schedule);
    assert AtomOk(s.events, AtomAt(s.atoms, n), n);
    var p :| p in Holders(s.events, n);
    assert Holds(s.events, p.0, p.1, n);
  }

  // ---------------------------------------------------------------------------
  // Guards are released in the reverse of the order they are acquired in
  // ---------------------------------------------------------------------------

  // Who is let go when e releases its first i slots, the last of them first: for each
  // the waiters that the atom's own rule lets go.
  function LetGoInReverse(s: State, e: EventId, i: nat): seq<EventId>
    requires e in s.events && i <= |s.events[e].slots|
    decreases i
  {
    if i == 0 then []
    else
      var slot := s.events[e].slots[i - 1];
      (if slot.have && slot.atom.Some? then Released(s, NameOf(slot)) else []) + LetGoInReverse(s, e, i - 1)
  }

  // No two slots hold the same atom.
  predicate Different(slots: seq<Slot>) {
    forall i, j :: 0 <= i < j < |slots| && slots[i].atom.Some? && slots[j].atom.Some? ==>
      NameOf(slots[i]) != NameOf(slots[j])
  }

  lemma ReleaseOneLetsGo(s: State, e: EventId, i: nat)
    requires Inv(s) && Live(s, e, i) && s.events[e].place.Running?
    ensures var slot, s' := s.events[e].slots[i], ReleaseOne(s, e, i);
            && s'.hand == s.hand + (if slot.have && slot.atom.Some? then Released(s, NameOf(slot)) else [])
            && forall m :: !PointsTo(slot, m) ==> AtomAt(s'.atoms, m) == AtomAt(s.atoms, m)
  {
    var slot := s.events[e].slots[i];
    if slot.have && slot.atom.Some? {
      LetGoKeepsPlaces(s, e, i, NameOf(slot));
      hide Inv;
    } else {
      assert s.hand + [] == s.hand;
    }
  }

  lemma {:induction false} LetGoDependsOn(s: State, s': State, e: EventId, i: nat)
    requires e in s.events && e in s'.events && i <= |s.events[e].slots| && i <= |s'.events[e].slots|
    requires forall j :: 0 <= j < i ==> s'.events[e].slots[j] == s.events[e].slots[j]
    requires forall j :: 0 <= j < i && s.events[e].slots[j].atom.Some? ==>
               AtomAt(s'.atoms, NameOf(s.events[e].slots[j])) == AtomAt(s.atoms, NameOf(s.events[e].slots[j]))
    ensures LetGoInReverse(s', e, i) == LetGoInReverse(s, e, i)
    decreases i
  {
    hide AtomAt;
    if i > 0 {
      LetGoDependsOn(s, s', e, i - 1);
    }
  }

  lemma {:induction false} ReleasesInReverse(s: State, e: EventId, i: nat)
    requires Inv(s) && e in s.events && i <= |s.events[e].slots| && s.events[e].place.Running?
    requires Different(s.events[e].slots)
    ensures ReleaseDown(s, e, i).hand == s.hand + LetGoInReverse(s, e, i)
    decreases i
  {
    hide Inv, ReleaseOne, SameRefs, AtomAt, Released, LetGoInReverse, Different;
    if i == 0 {
      assert LetGoInReverse(s, e, 0) == [] by { NoneLetGo(s, e); }
      assert s.hand + [] == s.hand;
    } else {
      var s' := ReleaseOne(s, e, i - 1);
      ReleaseOneStep(s, e, i - 1);
      StillDifferent(s, s', e, i - 1);
      ReleasesInReverse(s', e, i - 1);
      ReleaseOneFirst(s, e, i - 1);
    }
  }

  lemma NoneLetGo(s: State, e: EventId)
    requires e in s.events
    ensures LetGoInReverse(s, e, 0) == []
  {
  }

  lemma StillDifferent(s: State, s': State, e: EventId, i: nat)
    requires Live(s, e, i) && e in s'.events && Different(s.events[e].slots)
    requires s'.events[e] == WithSlot(s.events[e], i, s.events[e].slots[i].(atom := None))
    ensures Different(s'.events[e].slots)
  {
  }

  lemma ReleaseOneFirst(s: State, e: EventId, i: nat)
    requires Inv(s) && Live(s, e, i) && s.events[e].place.Running? && Different(s.events[e].slots)
    ensures e in ReleaseOne(s, e, i).events && i <= |ReleaseOne(s, e, i).events[e].slots|
    ensures ReleaseOne(s, e, i).hand + LetGoInReverse(ReleaseOne(s, e, i), e, i) == s.hand + LetGoInReverse(s, e, i + 1)
  {
    hide Inv, ReleaseOne, AtomAt, Released, LetGoInReverse, SameRefs;
    var s', slots := ReleaseOne(s, e, i), s.events[e].slots;
    ReleaseOneLetsGo(s, e, i);
    ReleaseOneStep(s, e, i);
    assert s'.events[e].slots == slots[i := slots[i].(atom := None)];
    LetGoDependsOn(s, s', e, i);
    hide Different;
    LetGoOne(s, e, i);
    var first := if slots[i].have && slots[i].atom.Some? then Released(s, NameOf(slots[i])) else [];
    assert s.hand + first + LetGoInReverse(s, e, i) == s.hand + (first + LetGoInReverse(s, e, i));
  }

  lemma LetGoOne(s: State, e: EventId, i: nat)
    requires Live(s, e, i)
    ensures var slot := s.events[e].slots[i];
            LetGoInReverse(s, e, i + 1) ==
            (if slot.have && slot.atom.Some? then Released(s, NameOf(slot)) else []) + LetGoInReverse(s, e, i)
  {
  }

  // So the events that handle lets go on are queued in that order: first those that waited
  // for the last guard of the event that has run.
  lemma ResumedInReverse(s: State, t: ThreadId, succs: seq<seq<Ref>>)
    returns (made: seq<EventId>, resumed: seq<EventId>)
    requires Good(s) && Enabled(s, Handle(t, succs)) && Different(s.events[s.threads[t].value].slots)
    ensures Do(s, Handle(t, succs)).runq == s.runq + made + resumed && GuardKeys.Ascends(made, s.nextId)
    ensures var s1, e := CreateAll(s, succs), s.threads[t].value;
            GuardKeys.Among(resumed, LetGoInReverse(s1, e, |s1.events[e].slots|))
  {
    hide CreateAll, ReleaseDown, Inv, Handled, LetGoInReverse, GuardKeys.Ascends, GuardKeys.Among;
    var e, s1 := s.threads[t].value, CreateAll(s, succs);
    made, resumed := GuardKeys.SuccessorsQueueInOrder(s, t, succs);
    RunsIsOld(s, t, e);
    CreateAllKeepsInv(s, succs);
    assert s1.events[e] == s.events[e];
    ReleasesInReverse(s1, e, |s1.events[e].slots|);
    assert [] + LetGoInReverse(s1, e, |s1.events[e].slots|) == LetGoInReverse(s1, e, |s1.events[e].slots|);
  }
}
