/**
 * What read/write guards exclude, for whole runs of the kernel: a writer is alone.
 */
module GuardModes {
  import opened Basics
  import opened ClassicAtomics
  import opened GuardKernel

  // A holder's own mode suits the mode the atomic is in.
  predicate Suits(r: Ref, a: Atomic) {
    a.mode == Some(r.wtype) || (a.mode == Some(Read) && r.wtype == Upgradeable)
  }

  // The entry of a wait list records the mode that its event asked for.
  predicate AskedAs(events: map<EventId, Event>, w: Waiter) {
    w.event in events && events[w.event].at < |events[w.event].slots|
    && events[w.event].slots[events[w.event].at].ref.wtype == w.wtype
  }

  ghost predicate HoldersSuit(events: map<EventId, Event>, a: Atomic, n: Name) {
    forall e: EventId, i: nat :: Holds(events, e, i, n) ==> Suits(events[e].slots[i].ref, a)
  }

  ghost predicate WaitersAsked(events: map<EventId, Event>, a: Atomic) {
    forall k :: 0 <= k < |a.waiters| ==> AskedAs(events, a.waiters[k])
  }

  ghost predicate ModeOk(events: map<EventId, Event>, a: Atomic, n: Name) {
    n.guard.kind == ReadWriteKind ==> HoldersSuit(events, a, n) && WaitersAsked(events, a)
  }

  ghost predicate ModesInv(s: State) {
    forall n :: ModeOk(s.events, AtomAt(s.atoms, n), n)
  }

  // Waiting events stay as they are, and nobody comes to hold anything.
  ghost predicate Quiet(s: State, s': State, n: Name) {
    && (forall x :: IsAt(s.events, x, Waiting(n)) ==>
          x in s'.events && s'.events[x].slots == s.events[x].slots && s'.events[x].at == s.events[x].at)
    && (forall x: EventId, i: nat :: Holds(s'.events, x, i, n) ==>
          Holds(s.events, x, i, n) && s'.events[x].slots[i].ref == s.events[x].slots[i].ref)
    && AtomAt(s'.atoms, n).mode == AtomAt(s.atoms, n).mode
    && AtomAt(s'.atoms, n).waiters == AtomAt(s.atoms, n).waiters
  }

  lemma WaitersAre(s: State, n: Name)
    requires PlacesInv(s)
    ensures forall k :: 0 <= k < |AtomAt(s.atoms, n).waiters| ==>
              IsAt(s.events, AtomAt(s.atoms, n).waiters[k].event, Waiting(n))
  {
    forall k | 0 <= k < |AtomAt(s.atoms, n).waiters|
      ensures IsAt(s.events, AtomAt(s.atoms, n).waiters[k].event, Waiting(n))
    {
      assert ListOf(s, Waiting(n))[k] in ListOf(s, Waiting(n));
    }
  }

  lemma QuietKeeps(s: State, s': State, n: Name)
    requires PlacesInv(s) && ModeOk(s.events, AtomAt(s.atoms, n), n) && Quiet(s, s', n)
    ensures ModeOk(s'.events, AtomAt(s'.atoms, n), n)
  {
    WaitersAre(s, n);
    if n.guard.kind == ReadWriteKind {
      forall k | 0 <= k < |AtomAt(s'.atoms, n).waiters|
        ensures AskedAs(s'.events, AtomAt(s'.atoms, n).waiters[k])
      {
        assert AskedAs(s.events, AtomAt(s.atoms, n).waiters[k]);
      }
    }
  }

  lemma AllQuiet(s: State, s': State)
    requires PlacesInv(s) && ModesInv(s) && forall n :: Quiet(s, s', n)
    ensures ModesInv(s')
  {
    forall n
      ensures ModeOk(s'.events, AtomAt(s'.atoms, n), n)
    {
      QuietKeeps(s, s', n);
    }
  }

  // ---- acquiring ----

  lemma AskedOthers(s: State, s': State, e: EventId, i: nat, slot: Slot, n: Name, ok: bool, m: Name)
    requires Asked(s, s', e, i, slot, n, ok) && m != n
    ensures Quiet(s, s', m)
  {
    SlotSwap(s.events, e, i, s'.events[e]);
  }

  lemma AskedModes(s: State, s': State, e: EventId, i: nat, slot: Slot, n: Name, ok: bool)
    requires Inv(s) && ModesInv(s) && Asked(s, s', e, i, slot, n, ok)
    ensures ModesInv(s')
  {
    forall m | m != n
      ensures ModeOk(s'.events, AtomAt(s'.atoms, m), m)
    {
      AskedOthers(s, s', e, i, slot, n, ok, m);
      QuietKeeps(s, s', m);
    }
    if n.guard.kind == ReadWriteKind {
      AskedHoldersSuit(s, s', e, i, slot, n, ok);
      AskedWaiters(s, s', e, i, slot, n, ok);
    }
  }

  lemma AskedHoldersSuit(s: State, s': State, e: EventId, i: nat, slot: Slot, n: Name, ok: bool)
    requires Inv(s) && ModeOk(s.events, AtomAt(s.atoms, n), n) && Asked(s, s', e, i, slot, n, ok)
    requires n.guard.kind == ReadWriteKind
    ensures HoldersSuit(s'.events, AtomAt(s'.atoms, n), n)
  {
    var a := AtomAt(s.atoms, n);
    assert AtomOk(s.events, a, n);
    SlotSwap(s.events, e, i, s'.events[e]);
    forall x: EventId, j: nat | Holds(s'.events, x, j, n)
      ensures Suits(s'.events[x].slots[j].ref, AtomAt(s'.atoms, n))
    {
      if Holds(s.events, x, j, n) {
        assert (x, j) in Holders(s.events, n);
        assert Suits(s.events[x].slots[j].ref, a);
        assert s'.events[x].slots[j].ref == s.events[x].slots[j].ref;
      }
    }
  }

  lemma AskedWaiters(s: State, s': State, e: EventId, i: nat, slot: Slot, n: Name, ok: bool)
    requires Inv(s) && ModeOk(s.events, AtomAt(s.atoms, n), n) && Asked(s, s', e, i, slot, n, ok)
    requires n.guard.kind == ReadWriteKind
    ensures WaitersAsked(s'.events, AtomAt(s'.atoms, n))
  {
    var a := AtomAt(s.atoms, n);
    WaitersAre(s, n);
    forall k | 0 <= k < |AtomAt(s'.atoms, n).waiters|
      ensures AskedAs(s'.events, AtomAt(s'.atoms, n).waiters[k])
    {
      if k < |a.waiters| {
        assert AskedAs(s.events, a.waiters[k]);
      }
    }
  }

  lemma SkippedModes(s: State, e: EventId, i: nat)
    requires Inv(s) && ModesInv(s) && Working(s, e, i) && i < |s.events[e].slots|
    requires var slot := Built(s.events[e].slots[i], true); slot.have || slot.atom.None?
    ensures ModesInv(AcquireOne(s, e, i).0)
  {
    var ev := s.events[e];
    var slot := Built(ev.slots[i], true);
    var s' := AcquireOne(s, e, i).0;
    assert ev.slots[i := slot] == ev.slots;
    assert s'.events == s.events[e := ev.(at := Max(ev.at, i))];
    assert forall m :: AtomAt(s'.atoms, m) == AtomAt(s.atoms, m);
    InvPlaces(s);
    hide Inv, ModesInv, PlacesInv, AcquireOne, AtomAt, Built;
    AllQuiet(s, s');
  }

  lemma DoneModes(s: State, e: EventId)
    requires Inv(s) && ModesInv(s) && e in s.events && Working(s, e, |s.events[e].slots|)
    ensures ModesInv(AcquireFrom(s, e, |s.events[e].slots|))
  {
    var s' := AcquireFrom(s, e, |s.events[e].slots|);
    assert s'.atoms == s.atoms && s'.events == s.events[e := s.events[e].(place := Ready)];
    hide AcquireFrom, ModesInv;
    InvPlaces(s);
    PlacesOnly(s, s');
    AllQuiet(s, s');
  }

  // Only the places of events change.
  lemma PlacesOnly(s: State, s': State)
    requires s'.atoms == s.atoms && s'.events.Keys == s.events.Keys
    requires forall x :: x in s.events ==> s'.events[x].slots == s.events[x].slots && s'.events[x].at == s.events[x].at
    ensures forall n :: Quiet(s, s', n)
  {
  }

  lemma {:induction false} AcquireFromModes(s: State, e: EventId, i: nat)
    requires Inv(s) && ModesInv(s) && Working(s, e, i)
    ensures ModesInv(AcquireFrom(s, e, i))
    decreases |s.events[e].slots| - i
  {
    hide AcquireOne, Inv, ModesInv, Asked;
    if i == |s.events[e].slots| {
      DoneModes(s, e);
    } else {
      var slot := Built(s.events[e].slots[i], true);
      var (s', out) := AcquireOne(s, e, i);
      if slot.have || slot.atom.None? {
        SkippedModes(s, e, i);
      } else {
        AskStep(s, e, i, slot, NameOf(slot));
        AskedModes(s, s', e, i, slot, NameOf(slot), out.Continues?);
      }
      OneTurn(s, e, i);
      if out.Continues? {
        AcquireFromModes(s', e, i + 1);
      }
    }
  }

  lemma {:induction false} BuildEarlyModes(s: State, e: EventId, i: nat)
    requires Inv(s) && ModesInv(s) && Working(s, e, 0) && i <= |s.events[e].slots|
    ensures ModesInv(BuildEarly(s, e, i))
    decreases |s.events[e].slots| - i
  {
    if i < |s.events[e].slots| {
      var slot := Built(s.events[e].slots[i], false);
      var s1 := s.(events := s.events[e := WithSlot(s.events[e], i, slot)], atoms := FoundFor(s.atoms, slot));
      BuiltQuiet(s, e, i);
      hide Inv, ModesInv, Built, FoundFor, WithSlot, Working;
      BuildOneKeepsInv(s, e, i);
      AllQuiet(s, s1);
      BuildEarlyModes(s1, e, i + 1);
    }
  }

  lemma BuiltQuiet(s: State, e: EventId, i: nat)
    requires Working(s, e, 0) && i < |s.events[e].slots|
    ensures var slot := Built(s.events[e].slots[i], false);
            var s1 := s.(events := s.events[e := WithSlot(s.events[e], i, slot)], atoms := FoundFor(s.atoms, slot));
            i + 1 <= |s1.events[e].slots| && forall n :: Quiet(s, s1, n)
  {
    var slot := Built(s.events[e].slots[i], false);
    BuiltReached(s.events[e].slots, i, slot);
    BuiltHolds(s.events, e, i, slot);
    FoundForKeeps(s.atoms, slot);
  }

  lemma FoundForKeeps(atoms: map<Name, Atomic>, slot: Slot)
    ensures forall m :: AtomAt(FoundFor(atoms, slot), m) == AtomAt(atoms, m)
  {
  }

  lemma CreateModes(s: State, refs: seq<Ref>)
    requires Inv(s) && ModesInv(s) && s.hand == []
    ensures ModesInv(Create(s, refs))
  {
    hide BuildEarly, AcquireFrom, Inv, ModesInv, SameRefs;
    var e := s.nextId;
    var s1 := s.(events := s.events[e := NewEvent(refs)], nextId := e + 1, hand := [e]);
    assert [e] + s.hand == [e];
    NewModes(s, refs);
    NewKeepsInv(s, refs);
    BuildKeepsInv(s1, e, 0);
    BuildEarlyModes(s1, e, 0);
    AcquireFromModes(BuildEarly(s1, e, 0), e, 0);
  }

  lemma NewModes(s: State, refs: seq<Ref>)
    requires Inv(s) && ModesInv(s)
    ensures ModesInv(s.(events := s.events[s.nextId := NewEvent(refs)], nextId := s.nextId + 1, hand := [s.nextId]))
  {
    var e := s.nextId;
    var s' := s.(events := s.events[e := NewEvent(refs)], nextId := e + 1, hand := [e]);
    assert e !in s.events;
    hide Inv, ModesInv;
    InvPlaces(s);
    forall n
      ensures Quiet(s, s', n)
    {
      NewQuiet(s, s', refs, n);
    }
    AllQuiet(s, s');
  }

  lemma NewQuiet(s: State, s': State, refs: seq<Ref>, n: Name)
    requires s.nextId !in s.events
    requires s' == s.(events := s.events[s.nextId := NewEvent(refs)], nextId := s.nextId + 1, hand := [s.nextId])
    ensures Quiet(s, s', n)
  {
    assert forall i :: 0 <= i < |refs| ==> !NewEvent(refs).slots[i].have;
  }

  lemma {:induction false} CreateAllModes(s: State, succs: seq<seq<Ref>>)
    requires Inv(s) && ModesInv(s) && s.hand == []
    ensures ModesInv(CreateAll(s, succs))
    decreases |succs|
  {
    hide Create, Inv, ModesInv;
    if succs != [] {
      CreateModes(s, succs[0]);
      CreateKeepsInv(s, succs[0]);
      CreateAllModes(Create(s, succs[0]), succs[1..]);
    }
  }

  lemma {:induction false} ReacquireModes(s: State, rel: seq<EventId>)
    requires Inv(s) && ModesInv(s) && s.hand == rel
    ensures ModesInv(ReacquireAll(s, rel))
    decreases |rel|
  {
    hide AcquireFrom, Inv, ModesInv, SameRefs;
    if rel != [] {
      var e := rel[0];
      FrontWorks(s);
      AcquireKeepsInv(s, e, s.events[e].at);
      AcquireFromModes(s, e, s.events[e].at);
      ReacquireModes(Reacquire(s, e), rel[1..]);
    }
  }

  // ---- releasing ----

  lemma LetGoOthers(s: State, e: EventId, i: nat, n: Name, m: Name)
    requires Inv(s) && LetsGo(s, e, i, n) && m != n
    ensures Quiet(s, LetGoOf(s, e, i, n), m)
  {
    var s' := LetGoOf(s, e, i, n);
    HolderCounts(s, e, i, n);
    ReleasedWait(s, n);
    LetGoKeepsPlaces(s, e, i, n);
    forall x: EventId, j: nat | Holds(s'.events, x, j, m)
      ensures Holds(s.events, x, j, m) && s'.events[x].slots[j].ref == s.events[x].slots[j].ref
    {
      LetGoHolds(s, e, i, n, x, j, m);
      assert SameRefs(s.events[x].slots, s'.events[x].slots);
    }
  }

  // Who holds n after the release suits its new mode.
  lemma LetGoSuits(s: State, e: EventId, i: nat, n: Name, x: EventId, j: nat)
    requires Inv(s) && LetsGo(s, e, i, n) && n.guard.kind == ReadWriteKind
    requires ModeOk(s.events, AtomAt(s.atoms, n), n) && Holds(LetGoOf(s, e, i, n).events, x, j, n)
    ensures Suits(LetGoOf(s, e, i, n).events[x].slots[j].ref, AtomAt(LetGoOf(s, e, i, n).atoms, n))
  {
    var s', a := LetGoOf(s, e, i, n), AtomAt(s.atoms, n);
    assert AtomOk(s.events, a, n);
    LetGoHolds(s, e, i, n, x, j, n);
    assert SameRefs(s.events[x].slots, s'.events[x].slots);
    hide Inv, LetsGo, SameRefs;
    if Holds(s.events, x, j, n) && (x, j) != (e, i) {
      TwoHolders(s.events, n, e, i, x, j);
      assert Suits(s.events[x].slots[j].ref, a);
    } else {
      LetInSuits(s, n, x);
    }
  }

  lemma TwoHolders(events: map<EventId, Event>, n: Name, e: EventId, i: nat, x: EventId, j: nat)
    requires Holds(events, e, i, n) && Holds(events, x, j, n) && (x, j) != (e, i)
    ensures |Holders(events, n)| > 1
  {
    var hs := Holders(events, n);
    assert (e, i) in hs && (x, j) in hs - {(e, i)};
    assert |hs| == |hs - {(e, i)}| + 1;
  }

  lemma LetInSuits(s: State, n: Name, x: EventId)
    requires n.guard.kind == ReadWriteKind && AtomAt(s.atoms, n).held > 0 && x in Released(s, n)
    requires Sound(AtomAt(s.atoms, n), n.guard.kind) && WaitersAsked(s.events, AtomAt(s.atoms, n))
    ensures x in s.events && s.events[x].at < |s.events[x].slots|
    ensures Suits(s.events[x].slots[s.events[x].at].ref, Release(AtomAt(s.atoms, n), n.guard.kind).0)
  {
    var a := AtomAt(s.atoms, n);
    var k :| 0 <= k < |Released(s, n)| && Released(s, n)[k] == x;
    assert Release(a, n.guard.kind).1[k] == a.waiters[k];
    assert AskedAs(s.events, a.waiters[k]);
    LetGoFits(a, n.guard.kind, k);
  }

  lemma LetGoWaiters(s: State, e: EventId, i: nat, n: Name)
    requires Inv(s) && LetsGo(s, e, i, n) && WaitersAsked(s.events, AtomAt(s.atoms, n))
    ensures WaitersAsked(LetGoOf(s, e, i, n).events, AtomAt(LetGoOf(s, e, i, n).atoms, n))
  {
    var s', a := LetGoOf(s, e, i, n), AtomAt(s.atoms, n);
    var (a', ws) := Release(a, n.guard.kind);
    HolderCounts(s, e, i, n);
    assert AtomOk(s.events, a, n);
    ReleaseCounts(a, n.guard.kind);
    LetGoKeepsPlaces(s, e, i, n);
    LetGoPlaces(s, e, i, n);
    WaitersAre(s', n);
    WaitersAre(s, n);
    forall k | 0 <= k < |a'.waiters|
      ensures AskedAs(s'.events, a'.waiters[k])
    {
      var w := a'.waiters[k];
      assert a.waiters[|ws| + k] == w;
      assert AskedAs(s.events, w);
      assert IsAt(s'.events, w.event, Waiting(n));
      StillWaits(s, e, i, n, w.event);
    }
  }

  lemma StillWaits(s: State, e: EventId, i: nat, n: Name, x: EventId)
    requires Inv(s) && LetsGo(s, e, i, n) && IsAt(LetGoOf(s, e, i, n).events, x, Waiting(n))
    ensures x in s.events && LetGoOf(s, e, i, n).events[x] == s.events[x]
  {
    HolderCounts(s, e, i, n);
    ReleasedWait(s, n);
    LetGoKeepsPlaces(s, e, i, n);
    if x in Released(s, n) {
      HandOffFinds(s.events[x], n);
    }
  }

  lemma LetGoModes(s: State, e: EventId, i: nat, n: Name)
    requires Inv(s) && ModesInv(s) && LetsGo(s, e, i, n)
    ensures ModesInv(LetGoOf(s, e, i, n))
  {
    hide Inv, LetGoOf, Suits, AskedAs;
    var s' := LetGoOf(s, e, i, n);
    forall m
      ensures ModeOk(s'.events, AtomAt(s'.atoms, m), m)
    {
      assert ModeOk(s.events, AtomAt(s.atoms, m), m);
      if m != n {
        LetGoOthers(s, e, i, n, m);
        InvPlaces(s);
        QuietKeeps(s, s', m);
      } else if n.guard.kind == ReadWriteKind {
        forall x: EventId, j: nat | Holds(s'.events, x, j, n)
          ensures Suits(s'.events[x].slots[j].ref, AtomAt(s'.atoms, n))
        {
          LetGoSuits(s, e, i, n, x, j);
        }
        LetGoWaiters(s, e, i, n);
      }
    }
  }

  lemma InvPlaces(s: State)
    requires Inv(s)
    ensures PlacesInv(s)
  {
  }

  lemma CollectModes(s: State, n: Name)
    requires Inv(s) && ModesInv(s) && AtomAt(s.atoms, n).held == 0 && AtomAt(s.atoms, n).waiters == []
    ensures ModesInv(Collected(s, n))
  {
    assert AtomOk(s.events, AtomAt(s.atoms, n), n);
    assert forall m :: AtomAt(Collected(s, n).atoms, m) == AtomAt(s.atoms, m);
    AllQuiet(s, Collected(s, n));
  }

  lemma ReleaseOneModes(s: State, e: EventId, i: nat)
    requires Inv(s) && ModesInv(s) && Live(s, e, i) && s.events[e].place.Running?
    ensures ModesInv(ReleaseOne(s, e, i))
  {
    var slot := s.events[e].slots[i];
    if slot.have && slot.atom.Some? {
      var n := NameOf(slot);
      assert LetsGo(s, e, i, n);
      hide LetGoOf, Inv, LetsGo, ModesInv;
      LetGoModes(s, e, i, n);
      LetGoInv(s, e, i, n);
      var s' := LetGoOf(s, e, i, n);
      if AtomAt(s'.atoms, n).waiters == [] && AtomAt(s'.atoms, n).held == 0 {
        CollectModes(s', n);
      }
    }
  }

  lemma LetGoInv(s: State, e: EventId, i: nat, n: Name)
    requires Inv(s) && LetsGo(s, e, i, n)
    ensures Inv(LetGoOf(s, e, i, n))
  {
    hide LetGoOf, LetsGo;
    LetGoAtoms(s, e, i, n);
    LetGoPlaces(s, e, i, n);
    LetGoStaged(s, e, i, n);
  }

  lemma {:induction false} ReleaseDownModes(s: State, e: EventId, i: nat)
    requires Inv(s) && ModesInv(s) && e in s.events && i <= |s.events[e].slots| && s.events[e].place.Running?
    ensures ModesInv(ReleaseDown(s, e, i))
    decreases i
  {
    hide ReleaseOne, Inv, ModesInv, SameRefs;
    if i > 0 {
      ReleaseOneModes(s, e, i - 1);
      ReleaseOneStep(s, e, i - 1);
      ReleaseDownModes(ReleaseOne(s, e, i - 1), e, i - 1);
    }
  }

  // ---- handle and whole runs ----

  lemma HandledModes(s: State, t: ThreadId, succs: seq<seq<Ref>>)
    requires Good(s) && ModesInv(s) && Enabled(s, Handle(t, succs))
    ensures ModesInv(Handled(s, t, succs))
  {
    hide CreateAll, ReleaseDown, ReacquireAll, Inv, ModesInv, Enqueued, RunnersSettled, SameRefs;
    var e := s.threads[t].value;
    RunsIsOld(s, t, e);
    var s1 := CreateAll(s, succs);
    CreateAllKeepsInv(s, succs);
    CreateAllModes(s, succs);
    var i := |s1.events[e].slots|;
    var s2 := ReleaseDown(s1, e, i);
    ReleaseKeepsInv(s1, e, i);
    ReleaseDownModes(s1, e, i);
    var s3 := ReacquireAll(s2, s2.hand);
    ReacquireKeepsInv(s2, s2.hand);
    ReacquireModes(s2, s2.hand);
    HandleParts(s, t, succs);
    EndedModes(s3, t, e);
  }

  lemma EndedModes(s: State, t: ThreadId, e: EventId)
    requires Inv(s) && ModesInv(s) && t < |s.threads| && IsAt(s.events, e, Running(t))
    requires forall j :: 0 <= j < |s.events[e].slots| ==> s.events[e].slots[j].atom.None?
    ensures ModesInv(Enqueued(Ended(s, t, e)))
  {
    EndKeepsInv(s, t, e);
    AllQuiet(s, Ended(s, t, e));
    EnqueuedModes(Ended(s, t, e));
  }

  lemma EnqueuedModes(s: State)
    requires Inv(s) && ModesInv(s)
    ensures ModesInv(Enqueued(s))
  {
    AllQuiet(s, Enqueued(s));
  }

  lemma TakeModes(s: State, t: ThreadId)
    requires Good(s) && ModesInv(s) && Enabled(s, Take(t))
    ensures ModesInv(Do(s, Take(t)))
  {
    var s' := Do(s, Take(t));
    InvPlaces(s);
    assert s'.atoms == s.atoms;
    hide Inv, ModesInv, PlacesInv;
    PlacesOnly(s, s');
    AllQuiet(s, s');
  }

  lemma AssignModes(s: State, t: ThreadId, i: nat, data: Option<Data>)
    requires Good(s) && ModesInv(s) && Enabled(s, Assign(t, i, data))
    ensures ModesInv(Do(s, Assign(t, i, data)))
  {
    AllQuiet(s, Do(s, Assign(t, i, data)));
  }

  lemma StepKeepsModes(s: State, step: Step)
    requires Good(s) && ModesInv(s) && Enabled(s, step)
    ensures ModesInv(Do(s, step))
  {
    hide Inv, ModesInv, Handled, Create, Enqueued;
    match step
    case Inject(refs) =>
      CreateModes(s, refs);
      CreateKeepsInv(s, refs);
      EnqueuedModes(Create(s, refs));
    case Take(t) => TakeModes(s, t);
    case Assign(t, i, data) => AssignModes(s, t, i, data);
    case Handle(t, succs) => HandledModes(s, t, succs);
  }

  lemma {:induction false} RunKeepsModes(s: State, schedule: seq<Step>)
    requires Good(s) && ModesInv(s)
    ensures Exec(s, schedule).Some? ==> ModesInv(Exec(s, schedule).value)
    decreases |schedule|
  {
    hide Do, Good, ModesInv;
    if schedule != [] && Enabled(s, schedule[0]) {
      StepKeepsGood(s, schedule[0]);
      StepKeepsModes(s, schedule[0]);
      RunKeepsModes(Do(s, schedule[0]), schedule[1..]);
    }
  }

  // Two holders of a read/write atomic both read, or are upgradeables that joined
  // readers; so whoever holds it to write is its only holder.
  lemma WriterIsAlone(init: State, schedule: seq<Step>, s: State, n: Name, e: EventId, i: nat, x: EventId, j: nat)
    requires Init(init) && Exec(init, schedule) == Some(s) && n.guard.kind == ReadWriteKind
    requires Holds(s.events, e, i, n) && Holds(s.events, x, j, n) && (x, j) != (e, i)
    ensures s.events[e].slots[i].ref.wtype == Read || s.events[e].slots[i].ref.wtype == Upgradeable
    ensures s.events[x].slots[j].ref.wtype == Read || s.events[x].slots[j].ref.wtype == Upgradeable
  {
    InitIsGood(init);
    RunKeepsGood(init, schedule);
    assert ModesInv(init);
    RunKeepsModes(init, schedule);
    assert AtomOk(s.events, AtomAt(s.atoms, n), n);
    TwoHolders(s.events, n, e, i, x, j);
    assert ModeOk(s.events, AtomAt(s.atoms, n), n);
    assert Suits(s.events[e].slots[i].ref, AtomAt(s.atoms, n));
    assert Suits(s.events[x].slots[j].ref, AtomAt(s.atoms, n));
  }

  // An exclusive atomic has one holder.
  lemma ExclusiveIsAlone(init: State, schedule: seq<Step>, s: State, n: Name, e: EventId, i: nat, x: EventId, j: nat)
    requires Init(init) && Exec(init, schedule) == Some(s) && n.guard.kind == ExclusiveKind
    requires Holds(s.events, e, i, n) && Holds(s.events, x, j, n)
    ensures (x, j) == (e, i)
  {
    InitIsGood(init);
    RunKeepsGood(init, schedule);
    assert AtomOk(s.events, AtomAt(s.atoms, n), n);
    if (x, j) != (e, i) {
      TwoHolders(s.events, n, e, i, x, j);
    }
  }
}
