/**
 * The guard kernel of the classic runtime: events acquire keyed guards in order, wait
 * on the first one they cannot have, and hand their guards to waiters when they are
 * done.  The model follows src/runtime/atomic/OFluxAtomicHolder.cpp and the successor
 * and release part of RunTimeThread::handle.
 *
 * The manager lock makes each step of the machine atomic.  What user code decides (the
 * successors, the keys of their guards, what a guard's data becomes) is a parameter of
 * the step.
 */
module GuardKernel {
  import opened Basics
  import opened ClassicAtomics

  type Key = nat
  type ThreadId = nat

  datatype Guard = Guard(magic: nat, kind: Kind, gc: bool)

  // Which atomic: the guard's map has at most one for each key.
  datatype Name = Name(guard: Guard, key: Key)

  // A guard reference of a node with what its guard function answers for this event:
  // before anything is acquired, and when its turn comes.  None: the guard is skipped.
  datatype Ref = Ref(guard: Guard, wtype: Mode, late: bool, early: Option<Key>, turn: Option<Key>)

  // A HeldAtomic; atom is the pointer to the atomic of that key.
  datatype Slot = Slot(ref: Ref, atom: Option<Key>, have: bool)

  // Where an event is.
  datatype Place =
    | InHand                       // released or created, still acquiring
    | Ready                        // has everything, about to be queued
    | Queued
    | Running(t: ThreadId)
    | Waiting(n: Name)

  // `at` is _working_on; `place` is a record of where the event is and is never read.
  datatype Event = Event(slots: seq<Slot>, at: nat, place: Place)

  datatype State = State(
    events: map<EventId, Event>,
    atoms: map<Name, Atomic>,
    runq: seq<EventId>,
    threads: seq<Option<EventId>>,
    hand: seq<EventId>,            // handle's local vectors
    ready: seq<EventId>,
    nextId: EventId,               // the next new event
    collect: bool)                 // guards declared gc are really collected

  predicate Late(r: Ref) { r.late || r.guard.gc }

  function AtomAt(atoms: map<Name, Atomic>, n: Name): Atomic {
    if n in atoms then atoms[n] else Unused
  }

  // AtomicMapStdMap::get makes the atomic if the map does not have it.
  function Found(atoms: map<Name, Atomic>, n: Name): map<Name, Atomic> {
    if n in atoms then atoms else atoms[n := Unused]
  }

  function NameOf(slot: Slot): Name
    requires slot.atom.Some?
  {
    Name(slot.ref.guard, slot.atom.value)
  }

  predicate PointsTo(slot: Slot, n: Name) {
    slot.atom.Some? && NameOf(slot) == n
  }

  function WithSlot(ev: Event, i: nat, slot: Slot): Event
    requires i < |ev.slots|
  {
    ev.(slots := ev.slots[i := slot])
  }

  function Max(a: nat, b: nat): nat { if a < b then b else a }

  // HeldAtomic::build.
  function Built(slot: Slot, turn: bool): Slot {
    if slot.atom.Some? || (!turn && Late(slot.ref)) then slot
    else slot.(atom := if turn then slot.ref.turn else slot.ref.early)
  }

  function FoundFor(atoms: map<Name, Atomic>, slot: Slot): map<Name, Atomic> {
    if slot.atom.Some? then Found(atoms, NameOf(slot)) else atoms
  }

  // No event comes or goes, and none changes which guards it refers to.
  ghost predicate SameShape(events: map<EventId, Event>, events': map<EventId, Event>) {
    && events'.Keys == events.Keys
    && forall x :: x in events ==> SameRefs(events[x].slots, events'[x].slots)
  }

  ghost predicate SameRefs(slots: seq<Slot>, slots': seq<Slot>) {
    && |slots'| == |slots|
    && forall i :: 0 <= i < |slots| ==> slots'[i].ref == slots[i].ref
  }

  predicate Live(s: State, e: EventId, i: nat) {
    e in s.events && i < |s.events[e].slots|
  }

  // get_keys_sort: the guards that are not late are built at once.
  function BuildEarly(s: State, e: EventId, i: nat): (s': State)
    requires e in s.events && i <= |s.events[e].slots|
    ensures SameShape(s.events, s'.events) && s'.nextId == s.nextId
    decreases |s.events[e].slots| - i
  {
    var ev := s.events[e];
    if i == |ev.slots| then s
    else
      var slot := Built(ev.slots[i], false);
      BuildEarly(s.(events := s.events[e := WithSlot(ev, i, slot)], atoms := FoundFor(s.atoms, slot)), e, i + 1)
  }

  datatype Outcome = Continues | Waits

  // One turn of the loop of acquire_all_or_wait, for the event in front of the hand.
  function AcquireOne(s: State, e: EventId, i: nat): (r: (State, Outcome))
    requires Live(s, e, i)
    ensures SameShape(s.events, r.0.events)
  {
    var ev := s.events[e];
    var slot := Built(ev.slots[i], true);
    var at := Max(ev.at, i);
    var atoms := FoundFor(s.atoms, slot);
    if slot.have || slot.atom.None? then
      (s.(events := s.events[e := WithSlot(ev, i, slot).(at := at)], atoms := atoms), Continues)
    else
      var n := NameOf(slot);
      var (a, ok) := Acquire(AtomAt(atoms, n), n.guard.kind, e, slot.ref.wtype);
      if ok then
        var ev' := WithSlot(ev, i, slot.(have := true)).(at := at);
        (s.(events := s.events[e := ev'], atoms := atoms[n := a]), Continues)
      else
        (s.(events := s.events[e := WithSlot(ev, i, slot).(at := at, place := Waiting(n))], atoms := atoms[n := a],
            hand := if s.hand == [] then [] else s.hand[1..]),
         Waits)
  }

  function AcquireFrom(s: State, e: EventId, i: nat): (s': State)
    requires e in s.events && i <= |s.events[e].slots|
    ensures SameShape(s.events, s'.events) && s'.nextId == s.nextId
    decreases |s.events[e].slots| - i
  {
    if i == |s.events[e].slots| then
      s.(events := s.events[e := s.events[e].(place := Ready)],
         hand := if s.hand == [] then [] else s.hand[1..], ready := s.ready + [e])
    else
      var (s', out) := AcquireOne(s, e, i);
      if out.Waits? then s' else AcquireFrom(s', e, i + 1)
  }

  // acquire_all_or_wait for an event that was released by a guard's holder.
  function Reacquire(s: State, e: EventId): State
    requires e in s.events && s.events[e].at <= |s.events[e].slots|
  {
    AcquireFrom(s, e, s.events[e].at)
  }

  function NewEvent(refs: seq<Ref>): Event {
    Event(seq(|refs|, i requires 0 <= i < |refs| => Slot(refs[i], None, false)), 0, InHand)
  }

  // A new event, and acquire_all_or_wait for it.
  function Create(s: State, refs: seq<Ref>): (s': State)
    ensures s'.events.Keys == s.events.Keys + {s.nextId} && s'.nextId == s.nextId + 1
  {
    var e := s.nextId;
    var s1 := s.(events := s.events[e := NewEvent(refs)], nextId := e + 1, hand := [e] + s.hand);
    AcquireFrom(BuildEarly(s1, e, 0), e, 0)
  }

  function CreateAll(s: State, succs: seq<seq<Ref>>): (s': State)
    ensures s'.events.Keys >= s.events.Keys
    decreases |succs|
  {
    if succs == [] then s else CreateAll(Create(s, succs[0]), succs[1..])
  }

  // The slot through which an event waits for n: the first from _working_on on.
  function FindSlot(slots: seq<Slot>, n: Name, j: nat): (k: nat)
    requires j <= |slots|
    ensures j <= k <= |slots|
    ensures forall i :: j <= i < k ==> !PointsTo(slots[i], n)
    ensures k < |slots| ==> PointsTo(slots[k], n)
    decreases |slots| - j
  {
    if j == |slots| || PointsTo(slots[j], n) then j else FindSlot(slots, n, j + 1)
  }

  // halftakeit: the waiter owns the guard now, and goes on behind it.
  function HandedOff(ev: Event, n: Name): (ev': Event)
    ensures SameRefs(ev.slots, ev'.slots)
  {
    var j := if ev.at <= |ev.slots| then FindSlot(ev.slots, n, ev.at) else |ev.slots|;
    if j < |ev.slots| then
      WithSlot(ev, j, ev.slots[j].(have := true)).(at := if j == ev.at then j + 1 else ev.at, place := InHand)
    else ev
  }

  function EventsOf(ws: seq<Waiter>): (q: seq<EventId>)
    ensures |q| == |ws| && forall i :: 0 <= i < |q| ==> q[i] == ws[i].event
  {
    seq(|ws|, i requires 0 <= i < |ws| => ws[i].event)
  }

  function HandedOffAll(events: map<EventId, Event>, rel: seq<EventId>, n: Name): (events': map<EventId, Event>)
    ensures SameShape(events, events')
  {
    map x | x in events :: if x in rel then HandedOff(events[x], n) else events[x]
  }

  // Slot i lets go of its atomic n, which may let in some of those who wait for it.
  function LetGoOf(s: State, e: EventId, i: nat, n: Name): (s': State)
    requires Live(s, e, i)
    ensures SameShape(s.events, s'.events)
  {
    var ev := s.events[e];
    var (a, ws) := Release(AtomAt(s.atoms, n), n.guard.kind);
    var rel := EventsOf(ws);
    s.(events := HandedOffAll(s.events[e := WithSlot(ev, i, ev.slots[i].(atom := None))], rel, n),
       atoms := s.atoms[n := a], hand := s.hand + rel)
  }

  // HeldAtomic::garbage_collect.
  function Collected(s: State, n: Name): State {
    if AtomAt(s.atoms, n).data == None && n.guard.gc && s.collect then s.(atoms := s.atoms - {n}) else s
  }

  // One turn of the loop of AtomicsHolder::release.
  function ReleaseOne(s: State, e: EventId, i: nat): (s': State)
    requires Live(s, e, i)
    ensures SameShape(s.events, s'.events)
  {
    var slot := s.events[e].slots[i];
    if slot.have && slot.atom.Some? then
      var n := NameOf(slot);
      var s' := LetGoOf(s, e, i, n);
      var a := AtomAt(s'.atoms, n);
      if s'.hand == s.hand && a.waiters == [] && a.held == 0 then Collected(s', n) else s'
    else s
  }

  // Guards are released in reverse order.
  function ReleaseDown(s: State, e: EventId, i: nat): (s': State)
    requires e in s.events && i <= |s.events[e].slots|
    ensures SameShape(s.events, s'.events)
    decreases i
  {
    if i == 0 then s else ReleaseDown(ReleaseOne(s, e, i - 1), e, i - 1)
  }

  // The released events acquire the rest of what they need, in order.
  function ReacquireAll(s: State, rel: seq<EventId>): State
    decreases |rel|
  {
    if rel == [] then s
    else
      var e := rel[0];
      if e in s.events && s.events[e].at <= |s.events[e].slots| then ReacquireAll(Reacquire(s, e), rel[1..])
      else s
  }

  function Enqueued(s: State): State {
    s.(runq := s.runq + s.ready, ready := [],
       events := map x | x in s.events :: if x in s.ready then s.events[x].(place := Queued) else s.events[x])
  }

  // RunTimeThread::handle after the event has run: successors, release, re-acquire, enqueue.
  function Handled(s: State, t: ThreadId, succs: seq<seq<Ref>>): State
    requires t < |s.threads| && s.threads[t].Some? && s.threads[t].value in s.events
  {
    var e := s.threads[t].value;
    var s1 := CreateAll(s, succs);
    var s2 := ReleaseDown(s1, e, |s1.events[e].slots|);
    var s3 := ReacquireAll(s2, s2.hand);
    Enqueued(s3.(events := s3.events - {e}, threads := s.threads[t := None]))
  }

  // ---------------------------------------------------------------------------
  // The machine
  // ---------------------------------------------------------------------------

  datatype Step =
    | Inject(refs: seq<Ref>)                                  // an initial or source event
    | Take(t: ThreadId)                                       // a thread takes the next event
    | Assign(t: ThreadId, i: nat, data: Option<Data>)         // its code changes a guard's data
    | Handle(t: ThreadId, succs: seq<seq<Ref>>)

  predicate Enabled(s: State, step: Step) {
    match step
    case Inject(_) => true
    case Take(t) => t < |s.threads| && s.threads[t].None? && s.runq != []
    case Assign(t, i, _) =>
      && t < |s.threads| && s.threads[t].Some? && Live(s, s.threads[t].value, i)
      && var slot := s.events[s.threads[t].value].slots[i]; slot.have && slot.atom.Some?
    case Handle(t, _) => t < |s.threads| && s.threads[t].Some? && s.threads[t].value in s.events
  }

  function Do(s: State, step: Step): State
    requires Enabled(s, step)
  {
    match step
    case Inject(refs) => Enqueued(Create(s, refs))
    case Take(t) =>
      var e := s.runq[0];
      s.(runq := s.runq[1..], threads := s.threads[t := Some(e)],
         events := if e in s.events then s.events[e := s.events[e].(place := Running(t))] else s.events)
    case Assign(t, i, data) =>
      var n := NameOf(s.events[s.threads[t].value].slots[i]);
      s.(atoms := s.atoms[n := AtomAt(s.atoms, n).(data := data)])
    case Handle(t, succs) => Handled(s, t, succs)
  }

  function Exec(s: State, schedule: seq<Step>): Option<State>
    decreases |schedule|
  {
    if schedule == [] then Some(s)
    else if Enabled(s, schedule[0]) then Exec(Do(s, schedule[0]), schedule[1..])
    else None
  }

  predicate Init(s: State) {
    && s.events == map[] && s.atoms == map[] && s.runq == [] && s.hand == [] && s.ready == []
    && forall t :: 0 <= t < |s.threads| ==> s.threads[t].None?
  }

  // ---------------------------------------------------------------------------
  // The inductive invariant
  // ---------------------------------------------------------------------------

  function ListOf(s: State, p: Place): seq<EventId> {
    match p
    case InHand => s.hand
    case Ready => s.ready
    case Queued => s.runq
    case Running(t) => if t < |s.threads| && s.threads[t].Some? then [s.threads[t].value] else []
    case Waiting(n) => EventsOf(AtomAt(s.atoms, n).waiters)
  }

  ghost predicate Distinct(q: seq<EventId>) {
    forall i, j :: 0 <= i < j < |q| ==> q[i] != q[j]
  }

  predicate IsAt(events: map<EventId, Event>, e: EventId, p: Place) {
    e in events && events[e].place == p
  }

  ghost predicate PlacesInv(s: State) {
    && (forall p, e :: e in ListOf(s, p) <==> IsAt(s.events, e, p))
    && (forall p :: Distinct(ListOf(s, p)))
    && (forall e :: e in s.events ==> e < s.nextId)
  }

  // Acquired, or skipped.
  predicate Settled(slot: Slot) {
    if slot.have then slot.atom.Some? else slot.atom.None? && slot.ref.turn.None?
  }

  // Acquired and perhaps already released, or skipped.
  predicate Finishing(slot: Slot) { slot.have || (slot.atom.None? && slot.ref.turn.None?) }

  // Not acquired; no pointer to an atomic that could be collected.
  predicate Untouched(slot: Slot) { !slot.have && (slot.ref.guard.gc ==> slot.atom.None?) }

  ghost predicate AllSettled(slots: seq<Slot>) {
    forall i :: 0 <= i < |slots| ==> Settled(slots[i])
  }

  // Everything before i is settled, everything behind it untouched.
  ghost predicate Reached(slots: seq<Slot>, i: nat) {
    && i <= |slots|
    && (forall j :: 0 <= j < i ==> Settled(slots[j]))
    && (forall j :: i < j < |slots| ==> Untouched(slots[j]))
    && (i < |slots| ==> (slots[i].have && slots[i].atom.Some?) || Untouched(slots[i]))
  }

  ghost predicate Blocked(slots: seq<Slot>, i: nat, n: Name) {
    && i < |slots| && PointsTo(slots[i], n) && !slots[i].have
    && (forall j :: 0 <= j < i ==> Settled(slots[j]))
    && (forall j :: i < j < |slots| ==> Untouched(slots[j]))
  }

  // The key is one that the guard function gave.
  predicate Answered(slot: Slot) {
    slot.atom == slot.ref.early || slot.atom == slot.ref.turn
  }

  ghost predicate Pointing(slots: seq<Slot>, atoms: map<Name, Atomic>) {
    forall i :: 0 <= i < |slots| && slots[i].atom.Some? ==> NameOf(slots[i]) in atoms && Answered(slots[i])
  }

  ghost predicate Staged(ev: Event) {
    match ev.place
    case InHand => Reached(ev.slots, ev.at)
    case Waiting(n) => Blocked(ev.slots, ev.at, n)
    case Running(_) => forall i :: 0 <= i < |ev.slots| ==> Finishing(ev.slots[i])
    case _ => AllSettled(ev.slots)
  }

  ghost predicate EventsInv(s: State) {
    forall e :: e in s.events ==> Staged(s.events[e]) && Pointing(s.events[e].slots, s.atoms)
  }

  predicate Holds(events: map<EventId, Event>, e: EventId, i: nat, n: Name) {
    e in events && i < |events[e].slots| && events[e].slots[i].have && PointsTo(events[e].slots[i], n)
  }

  // Through which slots of which events n is held.
  function Holders(events: map<EventId, Event>, n: Name): set<(EventId, nat)> {
    set e, i | e in events && 0 <= i < |events[e].slots| && Holds(events, e, i, n) :: (e, i)
  }

  ghost predicate AtomOk(events: map<EventId, Event>, a: Atomic, n: Name) {
    Sound(a, n.guard.kind) && a.held == |Holders(events, n)|
  }

  ghost predicate AtomsInv(s: State) {
    forall n :: AtomOk(s.events, AtomAt(s.atoms, n), n)
  }

  ghost predicate Inv(s: State) {
    PlacesInv(s) && EventsInv(s) && AtomsInv(s)
  }

  // ---------------------------------------------------------------------------
  // Every operation keeps the invariant
  // ---------------------------------------------------------------------------

  lemma HoldersAre(events: map<EventId, Event>, n: Name, hs: set<(EventId, nat)>)
    requires forall e: EventId, i: nat :: (e, i) in hs <==> Holds(events, e, i, n)
    ensures Holders(events, n) == hs
  {
    forall p
      ensures p in Holders(events, n) <==> p in hs
    {
      assert p == (p.0, p.1);
    }
  }

  lemma HoldersKept(events: map<EventId, Event>, events': map<EventId, Event>, n: Name)
    requires forall e: EventId, i: nat :: Holds(events', e, i, n) <==> Holds(events, e, i, n)
    ensures Holders(events', n) == Holders(events, n)
  {
    HoldersAre(events', n, Holders(events, n));
  }

  // Only the holders of n, and only its atomic, change.
  ghost predicate Around(s: State, s': State, n: Name) {
    && (forall m :: m != n ==> AtomAt(s'.atoms, m) == AtomAt(s.atoms, m))
    && (forall e: EventId, i: nat, m: Name :: m != n ==> (Holds(s'.events, e, i, m) <==> Holds(s.events, e, i, m)))
  }

  lemma AtomsReassembled(s: State, s': State, n: Name)
    requires AtomsInv(s) && Around(s, s', n) && AtomOk(s'.events, AtomAt(s'.atoms, n), n)
    ensures AtomsInv(s')
  {
    forall m
      ensures AtomOk(s'.events, AtomAt(s'.atoms, m), m)
    {
      if m != n {
        HoldersKept(s.events, s'.events, m);
        assert AtomOk(s.events, AtomAt(s.atoms, m), m);
      }
    }
  }

  // Nobody holds more or less than before.
  lemma AtomsUnmoved(s: State, s': State)
    requires AtomsInv(s) && forall m :: AtomAt(s'.atoms, m) == AtomAt(s.atoms, m)
    requires forall e: EventId, i: nat, m: Name :: Holds(s'.events, e, i, m) <==> Holds(s.events, e, i, m)
    ensures AtomsInv(s')
  {
    forall m
      ensures AtomOk(s'.events, AtomAt(s'.atoms, m), m)
    {
      HoldersKept(s.events, s'.events, m);
      assert AtomOk(s.events, AtomAt(s.atoms, m), m);
    }
  }

  // The events in blocks go from src to dst.
  lemma PlacesMove(s: State, s': State, blocks: seq<EventId>, src: Place, dst: Place)
    requires PlacesInv(s) && src != dst && s'.nextId == s.nextId && s'.events.Keys == s.events.Keys
    requires forall e :: e in s.events ==> s'.events[e].place == if e in blocks then dst else s.events[e].place
    requires forall e :: e in blocks ==> IsAt(s.events, e, src)
    requires forall p :: p != src && p != dst ==> ListOf(s', p) == ListOf(s, p)
    requires Distinct(ListOf(s', src)) && forall e :: e in ListOf(s', src) <==> e in ListOf(s, src) && e !in blocks
    requires Distinct(ListOf(s', dst)) && forall e :: e in ListOf(s', dst) <==> e in ListOf(s, dst) || e in blocks
    ensures PlacesInv(s')
  {
    forall p, e
      ensures e in ListOf(s', p) <==> IsAt(s'.events, e, p)
    {
      assert e in ListOf(s, p) <==> IsAt(s.events, e, p);
    }
  }

  lemma PlacesStay(s: State, s': State)
    requires PlacesInv(s) && s'.nextId == s.nextId && s'.events.Keys == s.events.Keys
    requires forall e :: e in s.events ==> s'.events[e].place == s.events[e].place
    requires forall p :: ListOf(s', p) == ListOf(s, p)
    ensures PlacesInv(s')
  {
    forall p, e
      ensures e in ListOf(s', p) <==> IsAt(s'.events, e, p)
    {
      assert e in ListOf(s, p) <==> IsAt(s.events, e, p);
    }
  }

  // ---- acquiring ----

  // The event at the front of the hand has got as far as slot i.
  ghost predicate Working(s: State, e: EventId, i: nat) {
    && s.hand != [] && s.hand[0] == e && IsAt(s.events, e, InHand)
    && s.events[e].at <= i && Reached(s.events[e].slots, i)
  }

  lemma BuiltSlot(slot: Slot, turn: bool)
    ensures var slot' := Built(slot, turn);
            && slot'.have == slot.have && slot'.ref == slot.ref
            && (slot.atom.Some? ==> slot'.atom == slot.atom)
            && (!turn && Untouched(slot) ==> Untouched(slot'))
  {
  }

  lemma PointingKept(slots: seq<Slot>, atoms: map<Name, Atomic>, atoms': map<Name, Atomic>)
    requires Pointing(slots, atoms) && atoms.Keys <= atoms'.Keys
    ensures Pointing(slots, atoms')
  {
  }

  // What is held when slot i of e, through which nothing was held, changes.
  lemma SlotSwap(events: map<EventId, Event>, e: EventId, i: nat, ev': Event)
    requires e in events && i < |events[e].slots| == |ev'.slots| && !events[e].slots[i].have
    requires forall j :: 0 <= j < |ev'.slots| && j != i ==> ev'.slots[j] == events[e].slots[j]
    ensures forall x: EventId, j: nat, m: Name ::
              Holds(events[e := ev'], x, j, m) <==>
              Holds(events, x, j, m) || (x == e && j == i && ev'.slots[i].have && PointsTo(ev'.slots[i], m))
  {
    forall x: EventId, j: nat, m: Name
      ensures Holds(events[e := ev'], x, j, m) <==>
              Holds(events, x, j, m) || (x == e && j == i && ev'.slots[i].have && PointsTo(ev'.slots[i], m))
    {
      if x == e && j < |ev'.slots| && j != i {
        assert ev'.slots[j] == events[e].slots[j];
      }
    }
  }

  // The other events are as they were.
  lemma EventsReassembled(s: State, s': State, e: EventId)
    requires EventsInv(s) && s.atoms.Keys <= s'.atoms.Keys && e in s.events && e in s'.events
    requires s'.events == s.events[e := s'.events[e]]
    requires Staged(s'.events[e]) && Pointing(s'.events[e].slots, s'.atoms)
    ensures EventsInv(s')
  {
    forall x | x in s'.events
      ensures Staged(s'.events[x]) && Pointing(s'.events[x].slots, s'.atoms)
    {
      if x != e {
        PointingKept(s.events[x].slots, s.atoms, s'.atoms);
      }
    }
  }

  lemma SkipStep(s: State, e: EventId, i: nat)
    requires Inv(s) && Working(s, e, i) && i < |s.events[e].slots|
    requires var slot := Built(s.events[e].slots[i], true); slot.have || slot.atom.None?
    ensures var s' := AcquireOne(s, e, i).0;
            Inv(s') && Working(s', e, i + 1)
  {
    var ev := s.events[e];
    var slot := Built(ev.slots[i], true);
    var s' := AcquireOne(s, e, i).0;
    assert slot == ev.slots[i] && ev.slots[i := slot] == ev.slots;
    assert s'.events == s.events[e := ev.(at := Max(ev.at, i))];
    assert FoundFor(s.atoms, slot).Keys == s.atoms.Keys;
    PlacesStay(s, s');
    EventsReassembled(s, s', e);
    AtomsUnmoved(s, s');
  }

  // The slot that e asks with, and what it asks for.
  ghost predicate Asks(s: State, e: EventId, i: nat, slot: Slot, n: Name) {
    && Working(s, e, i) && i < |s.events[e].slots|
    && slot == Built(s.events[e].slots[i], true)
    && !slot.have && slot.atom.Some? && n == NameOf(slot)
  }

  // The new state after asking.
  ghost predicate Asked(s: State, s': State, e: EventId, i: nat, slot: Slot, n: Name, ok: bool) {
    && Asks(s, e, i, slot, n)
    && s'.atoms == s.atoms[n := Acquire(AtomAt(s.atoms, n), n.guard.kind, e, slot.ref.wtype).0]
    && ok == Acquire(AtomAt(s.atoms, n), n.guard.kind, e, slot.ref.wtype).1
    && s'.events == s.events[e := WithSlot(s.events[e], i, slot.(have := ok)).
                                    (at := i, place := if ok then InHand else Waiting(n))]
    && s' == s.(events := s'.events, atoms := s'.atoms, hand := if ok then s.hand else s.hand[1..])
  }

  lemma AskedState(s: State, e: EventId, i: nat, slot: Slot, n: Name)
    requires Asks(s, e, i, slot, n)
    ensures Asked(s, AcquireOne(s, e, i).0, e, i, slot, n, AcquireOne(s, e, i).1.Continues?)
  {
    assert AtomAt(FoundFor(s.atoms, slot), n) == AtomAt(s.atoms, n);
    assert FoundFor(s.atoms, slot)[n := Unused] == s.atoms[n := Unused];
  }

  lemma AskedHolders(events: map<EventId, Event>, events': map<EventId, Event>, e: EventId, i: nat, n: Name, ok: bool)
    requires !Holds(events, e, i, n)
    requires forall x: EventId, j: nat ::
               Holds(events', x, j, n) <==> Holds(events, x, j, n) || (x == e && j == i && ok)
    ensures |Holders(events', n)| == |Holders(events, n)| + if ok then 1 else 0
  {
    HoldersAre(events', n, Holders(events, n) + if ok then {(e, i)} else {});
  }

  lemma AskedAtoms(s: State, s': State, e: EventId, i: nat, slot: Slot, n: Name, ok: bool)
    requires AtomsInv(s) && Asked(s, s', e, i, slot, n, ok)
    ensures AtomsInv(s')
  {
    SlotSwap(s.events, e, i, s'.events[e]);
    assert Around(s, s', n);
    AskedHolders(s.events, s'.events, e, i, n, ok);
    AcquireKeepsSound(AtomAt(s.atoms, n), n.guard.kind, e, slot.ref.wtype);
    assert AtomOk(s.events, AtomAt(s.atoms, n), n);
    AtomsReassembled(s, s', n);
  }

  lemma AskedReached(slots: seq<Slot>, i: nat, slot: Slot, n: Name)
    requires Reached(slots, i) && i < |slots| && PointsTo(slot, n)
    ensures slot.have ==> Reached(slots[i := slot], i) && Reached(slots[i := slot], i + 1)
    ensures !slot.have ==> Blocked(slots[i := slot], i, n)
  {
  }

  lemma AskedPointing(slots: seq<Slot>, i: nat, slot: Slot, atoms: map<Name, Atomic>)
    requires Pointing(slots, atoms) && i < |slots| && slot.atom.Some? && NameOf(slot) in atoms && Answered(slot)
    ensures Pointing(slots[i := slot], atoms)
  {
  }

  lemma AskedEvents(s: State, s': State, e: EventId, i: nat, slot: Slot, n: Name, ok: bool)
    requires EventsInv(s) && Asked(s, s', e, i, slot, n, ok)
    ensures EventsInv(s') && (ok ==> Working(s', e, i + 1))
  {
    var slots := s.events[e].slots;
    PointingKept(slots, s.atoms, s'.atoms);
    AskedReached(slots, i, slot.(have := ok), n);
    assert Answered(slot);
    AskedPointing(slots, i, slot.(have := ok), s'.atoms);
    EventsReassembled(s, s', e);
  }

  lemma GrantPlaces(s: State, s': State, e: EventId, i: nat, slot: Slot, n: Name)
    requires PlacesInv(s) && Asked(s, s', e, i, slot, n, true)
    ensures PlacesInv(s')
  {
    assert EventsOf(AtomAt(s'.atoms, n).waiters) == EventsOf(AtomAt(s.atoms, n).waiters);
    PlacesStay(s, s');
  }

  lemma FrontLeaves(q: seq<EventId>)
    requires q != [] && Distinct(q)
    ensures Distinct(q[1..]) && forall e :: e in q[1..] <==> e in q && e != q[0]
  {
    assert q == [q[0]] + q[1..];
  }

  lemma OneJoins(q: seq<EventId>, e: EventId)
    requires Distinct(q) && e !in q
    ensures Distinct(q + [e])
  {
  }

  lemma WaitPlaces(s: State, s': State, e: EventId, i: nat, slot: Slot, n: Name)
    requires PlacesInv(s) && Asked(s, s', e, i, slot, n, false)
    ensures PlacesInv(s')
  {
    assert EventsOf(AtomAt(s'.atoms, n).waiters) == EventsOf(AtomAt(s.atoms, n).waiters) + [e];
    assert e in ListOf(s, InHand);
    assert e !in ListOf(s, Waiting(n));
    FrontLeaves(s.hand);
    OneJoins(ListOf(s, Waiting(n)), e);
    PlacesMove(s, s', [e], InHand, Waiting(n));
  }

  lemma AskStep(s: State, e: EventId, i: nat, slot: Slot, n: Name)
    requires Inv(s) && Asks(s, e, i, slot, n)
    ensures var (s', out) := AcquireOne(s, e, i);
            Inv(s') && Asked(s, s', e, i, slot, n, out.Continues?) && (out.Continues? ==> Working(s', e, i + 1))
  {
    var (s', out) := AcquireOne(s, e, i);
    AskedState(s, e, i, slot, n);
    hide AcquireOne, AtomsInv, PlacesInv, EventsInv, Asked, Asks, Working;
    AskedAtoms(s, s', e, i, slot, n, out.Continues?);
    AskedEvents(s, s', e, i, slot, n, out.Continues?);
    if out.Continues? {
      GrantPlaces(s, s', e, i, slot, n);
    } else {
      WaitPlaces(s, s', e, i, slot, n);
    }
  }

  // What acquiring for e leaves alone.
  ghost predicate OnlyMoved(s: State, s': State, e: EventId) {
    && s'.runq == s.runq && s'.threads == s.threads && s'.nextId == s.nextId && s'.collect == s.collect
    && s'.events.Keys == s.events.Keys
    && (forall x :: x in s.events && x != e ==> s'.events[x] == s.events[x])
  }

  lemma DoneStep(s: State, e: EventId)
    requires Inv(s) && e in s.events && Working(s, e, |s.events[e].slots|)
    ensures var s' := AcquireFrom(s, e, |s.events[e].slots|);
            Inv(s') && s'.hand == s.hand[1..] && s'.ready == s.ready + [e] && OnlyMoved(s, s', e)
  {
    var s' := AcquireFrom(s, e, |s.events[e].slots|);
    EventsReassembled(s, s', e);
    AtomsUnmoved(s, s');
    DonePlaces(s, s', e);
  }

  lemma DonePlaces(s: State, s': State, e: EventId)
    requires PlacesInv(s) && s.hand != [] && s.hand[0] == e && e in s.events
    requires s' == s.(events := s.events[e := s.events[e].(place := Ready)],
                      hand := s.hand[1..], ready := s.ready + [e])
    ensures PlacesInv(s')
  {
    assert e in ListOf(s, InHand) && IsAt(s.events, e, InHand);
    assert e !in ListOf(s, Ready);
    FrontLeaves(s.hand);
    OneJoins(s.ready, e);
    PlacesMove(s, s', [e], InHand, Ready);
  }

  lemma OneTurn(s: State, e: EventId, i: nat)
    requires Inv(s) && Working(s, e, i) && i < |s.events[e].slots|
    ensures var (s', out) := AcquireOne(s, e, i);
            && Inv(s') && OnlyMoved(s, s', e) && s'.ready == s.ready && SameShape(s.events, s'.events)
            && (if out.Waits? then s'.hand == s.hand[1..] else s'.hand == s.hand && Working(s', e, i + 1))
  {
    hide Inv, Reached;
    var slot := Built(s.events[e].slots[i], true);
    if slot.have || slot.atom.None? {
      SkipStep(s, e, i);
    } else {
      AskStep(s, e, i, slot, NameOf(slot));
    }
  }

  // acquire_all_or_wait: the event leaves the hand, ready or waiting.
  lemma {:induction false} AcquireKeepsInv(s: State, e: EventId, i: nat)
    requires Inv(s) && Working(s, e, i)
    ensures var s' := AcquireFrom(s, e, i);
            && Inv(s') && OnlyMoved(s, s', e) && s'.hand == s.hand[1..]
            && (s'.ready == s.ready || s'.ready == s.ready + [e])
    decreases |s.events[e].slots| - i
  {
    hide AcquireOne, Inv;
    if i == |s.events[e].slots| {
      DoneStep(s, e);
    } else {
      var (s', out) := AcquireOne(s, e, i);
      OneTurn(s, e, i);
      if out.Continues? {
        AcquireKeepsInv(s', e, i + 1);
      }
    }
  }

  // ---- releasing ----

  // A pointer to a collectable atomic is a pointer to one that is held or waited for.
  lemma PointerIsInUse(s: State, n: Name, e: EventId, i: nat)
    requires Inv(s) && n.guard.gc && Live(s, e, i) && PointsTo(s.events[e].slots[i], n)
    ensures n in s.atoms
    ensures if s.events[e].slots[i].have then s.atoms[n].held > 0
            else s.events[e].place == Waiting(n) && e in EventsOf(s.atoms[n].waiters)
  {
    var ev := s.events[e];
    assert Staged(ev) && Pointing(ev.slots, s.atoms);
    assert AtomOk(s.events, AtomAt(s.atoms, n), n);
    if ev.slots[i].have {
      assert (e, i) in Holders(s.events, n);
    } else {
      assert !Untouched(ev.slots[i]) && !Settled(ev.slots[i]) && !Finishing(ev.slots[i]);
      assert IsAt(s.events, e, Waiting(n));
      assert e in ListOf(s, Waiting(n));
    }
  }

  lemma CollectKeepsInv(s: State, n: Name)
    requires Inv(s) && AtomAt(s.atoms, n).held == 0 && AtomAt(s.atoms, n).waiters == []
    ensures Inv(Collected(s, n))
  {
    var s' := Collected(s, n);
    if s' != s {
      assert AtomOk(s.events, AtomAt(s.atoms, n), n);
      assert AtomAt(s.atoms, n) == Unused;
      assert forall m :: AtomAt(s'.atoms, m) == AtomAt(s.atoms, m);
      forall e | e in s.events
        ensures Pointing(s.events[e].slots, s'.atoms)
      {
        assert Pointing(s.events[e].slots, s.atoms);
        forall i | 0 <= i < |s.events[e].slots| && s.events[e].slots[i].atom.Some?
          ensures NameOf(s.events[e].slots[i]) in s'.atoms
        {
          if PointsTo(s.events[e].slots[i], n) {
            PointerIsInUse(s, n, e, i);
          }
        }
      }
      PlacesStay(s, s');
    }
  }

  // The release that follows is legal: the event that releases really holds the atomic.
  lemma HolderCounts(s: State, e: EventId, i: nat, n: Name)
    requires AtomsInv(s) && Holds(s.events, e, i, n)
    ensures AtomAt(s.atoms, n).held > 0
  {
    assert AtomOk(s.events, AtomAt(s.atoms, n), n);
    assert (e, i) in Holders(s.events, n);
  }

  // The slot found for a handoff is the one the event is working on.
  lemma HandOffFinds(ev: Event, n: Name)
    requires Blocked(ev.slots, ev.at, n)
    ensures HandedOff(ev, n) == WithSlot(ev, ev.at, ev.slots[ev.at].(have := true)).(at := ev.at + 1, place := InHand)
    ensures Staged(HandedOff(ev, n)) && HandedOff(ev, n).slots[ev.at].have
  {
    assert FindSlot(ev.slots, n, ev.at) == ev.at;
  }

  // Which slots the events in rel are waiting in.
  function WaitSlots(events: map<EventId, Event>, rel: seq<EventId>): set<(EventId, nat)>
    requires forall x :: x in rel ==> x in events
  {
    set x | x in rel :: (x, events[x].at)
  }

  lemma {:induction false} WaitSlotsCount(events: map<EventId, Event>, rel: seq<EventId>)
    requires Distinct(rel) && forall x :: x in rel ==> x in events
    ensures |WaitSlots(events, rel)| == |rel|
    decreases |rel|
  {
    if rel != [] {
      FrontLeaves(rel);
      WaitSlotsCount(events, rel[1..]);
      assert WaitSlots(events, rel) == WaitSlots(events, rel[1..]) + {(rel[0], events[rel[0]].at)};
      assert (rel[0], events[rel[0]].at) !in WaitSlots(events, rel[1..]);
    }
  }

  // e, running, lets go of n through slot i.
  ghost predicate LetsGo(s: State, e: EventId, i: nat, n: Name) {
    && Live(s, e, i) && s.events[e].place.Running? && Holds(s.events, e, i, n)
  }

  function Released(s: State, n: Name): seq<EventId> {
    EventsOf(Release(AtomAt(s.atoms, n), n.guard.kind).1)
  }

  lemma ReleasedWait(s: State, n: Name)
    requires Inv(s) && AtomAt(s.atoms, n).held > 0
    ensures var rel := Released(s, n);
            && Distinct(rel)
            && ListOf(s, Waiting(n)) == rel + EventsOf(Release(AtomAt(s.atoms, n), n.guard.kind).0.waiters)
            && forall x :: x in rel ==> IsAt(s.events, x, Waiting(n)) && Blocked(s.events[x].slots, s.events[x].at, n)
  {
    hide PlacesInv, EventsInv, Staged, Blocked, Release;
    assert Sound(AtomAt(s.atoms, n), n.guard.kind) by {
      assert AtomOk(s.events, AtomAt(s.atoms, n), n);
    }
    hide AtomsInv;
    ReleaseCounts(AtomAt(s.atoms, n), n.guard.kind);
    var (a, ws) := Release(AtomAt(s.atoms, n), n.guard.kind);
    EventsOfBoth(ws, a.waiters);
    var rel, q := Released(s, n), ListOf(s, Waiting(n));
    assert q == rel + EventsOf(a.waiters);
    assert rel == q[..|rel|];
    QueueIsDistinct(s, n);
    forall x | x in rel
      ensures IsAt(s.events, x, Waiting(n)) && Blocked(s.events[x].slots, s.events[x].at, n)
    {
      assert x in q;
      WaiterIsBlocked(s, n, x);
    }
  }

  lemma EventsOfBoth(a: seq<Waiter>, b: seq<Waiter>)
    ensures EventsOf(a + b) == EventsOf(a) + EventsOf(b)
  {
  }

  lemma QueueIsDistinct(s: State, n: Name)
    requires PlacesInv(s)
    ensures Distinct(ListOf(s, Waiting(n)))
  {
  }

  lemma WaiterIsBlocked(s: State, n: Name, x: EventId)
    requires PlacesInv(s) && EventsInv(s) && x in ListOf(s, Waiting(n))
    ensures IsAt(s.events, x, Waiting(n)) && Blocked(s.events[x].slots, s.events[x].at, n)
  {
    assert IsAt(s.events, x, Waiting(n));
    assert Staged(s.events[x]);
  }

  // Each event after the release.
  lemma LetGoKeepsPlaces(s: State, e: EventId, i: nat, n: Name)
    requires Inv(s) && LetsGo(s, e, i, n)
    ensures var s', rel, ev := LetGoOf(s, e, i, n), Released(s, n), s.events[e];
            && e !in rel && s'.events.Keys == s.events.Keys
            && s' == s.(events := s'.events, atoms := s'.atoms, hand := s.hand + rel)
            && s'.events[e] == WithSlot(ev, i, ev.slots[i].(atom := None))
            && (forall x :: x in rel ==> x in s.events && s'.events[x] == HandedOff(s.events[x], n))
            && (forall x :: x in s.events && x != e && x !in rel ==> s'.events[x] == s.events[x])
  {
    HolderCounts(s, e, i, n);
    ReleasedWait(s, n);
  }

  // Who holds what after the release.
  lemma LetGoHolds(s: State, e: EventId, i: nat, n: Name, x: EventId, j: nat, m: Name)
    requires Inv(s) && LetsGo(s, e, i, n)
    ensures forall y :: y in Released(s, n) ==> y in s.events
    ensures Holds(LetGoOf(s, e, i, n).events, x, j, m) <==>
              || (Holds(s.events, x, j, m) && (x, j) != (e, i))
              || (m == n && (x, j) in WaitSlots(s.events, Released(s, n)))
  {
    HolderCounts(s, e, i, n);
    ReleasedWait(s, n);
    LetGoKeepsPlaces(s, e, i, n);
    var rel := Released(s, n);
    if x in rel {
      HandOffFinds(s.events[x], n);
    }
  }

  lemma LetGoAtoms(s: State, e: EventId, i: nat, n: Name)
    requires Inv(s) && LetsGo(s, e, i, n)
    ensures AtomsInv(LetGoOf(s, e, i, n))
  {
    var s', rel, a := LetGoOf(s, e, i, n), Released(s, n), AtomAt(s.atoms, n);
    HolderCounts(s, e, i, n);
    ReleasedWait(s, n);
    assert AtomOk(s.events, a, n);
    ReleaseKeepsSound(a, n.guard.kind);
    ReleaseCounts(a, n.guard.kind);
    forall x: EventId, j: nat, m: Name
      ensures Holds(s'.events, x, j, m) <==>
                (Holds(s.events, x, j, m) && (x, j) != (e, i)) || (m == n && (x, j) in WaitSlots(s.events, rel))
    {
      LetGoHolds(s, e, i, n, x, j, m);
    }
    LetGoCount(s, s', e, i, n);
    forall x: EventId, j: nat, m: Name | m != n
      ensures Holds(s'.events, x, j, m) <==> Holds(s.events, x, j, m)
    {
      assert Holds(s.events, e, i, n);
    }
    AtomsReassembled(s, s', n);
  }

  lemma LetGoCount(s: State, s': State, e: EventId, i: nat, n: Name)
    requires Holds(s.events, e, i, n)
    requires Distinct(Released(s, n))
    requires forall x :: x in Released(s, n) ==> x in s.events && Blocked(s.events[x].slots, s.events[x].at, n)
    requires forall x: EventId, j: nat ::
               Holds(s'.events, x, j, n) <==>
               (Holds(s.events, x, j, n) && (x, j) != (e, i)) || (x, j) in WaitSlots(s.events, Released(s, n))
    ensures |Holders(s'.events, n)| == |Holders(s.events, n)| - 1 + |Released(s, n)|
  {
    var kept, added := Holders(s.events, n) - {(e, i)}, WaitSlots(s.events, Released(s, n));
    assert (e, i) in Holders(s.events, n);
    HoldersAre(s'.events, n, kept + added);
    WaitSlotsCount(s.events, Released(s, n));
    assert kept * added == {};
  }

  lemma LetGoPlaces(s: State, e: EventId, i: nat, n: Name)
    requires Inv(s) && LetsGo(s, e, i, n)
    ensures PlacesInv(LetGoOf(s, e, i, n))
  {
    var s', rel := LetGoOf(s, e, i, n), Released(s, n);
    HolderCounts(s, e, i, n);
    ReleasedWait(s, n);
    LetGoKeepsPlaces(s, e, i, n);
    forall x | x in rel
      ensures s'.events[x].place == InHand && x !in s.hand
    {
      HandOffFinds(s.events[x], n);
      assert x in ListOf(s, InHand) <==> IsAt(s.events, x, InHand);
    }
    var q, q' := ListOf(s, Waiting(n)), ListOf(s', Waiting(n));
    assert q == rel + q';
    Halves(q, rel, q');
    Joined(s.hand, rel);
    PlacesMove(s, s', rel, Waiting(n), InHand);
  }

  lemma Halves(q: seq<EventId>, a: seq<EventId>, b: seq<EventId>)
    requires Distinct(q) && q == a + b
    ensures Distinct(b) && forall x :: x in b <==> x in q && x !in a
  {
    forall i, j | 0 <= i < j < |b|
      ensures b[i] != b[j]
    {
      assert b[i] == q[|a| + i] && b[j] == q[|a| + j];
    }
    forall x | x in b
      ensures x !in a
    {
      var j :| 0 <= j < |b| && b[j] == x;
      forall k | 0 <= k < |a|
        ensures a[k] != x
      {
        assert a[k] == q[k] && q[|a| + j] == x;
      }
    }
  }

  lemma Joined(a: seq<EventId>, b: seq<EventId>)
    requires Distinct(a) && Distinct(b) && forall x :: x in b ==> x !in a
    ensures Distinct(a + b)
  {
    forall i, j | 0 <= i < j < |a + b|
      ensures (a + b)[i] != (a + b)[j]
    {
      if i < |a| <= j {
        assert b[j - |a|] in b && a[i] in a;
      }
    }
  }

  lemma LetGoStaged(s: State, e: EventId, i: nat, n: Name)
    requires Inv(s) && LetsGo(s, e, i, n)
    ensures EventsInv(LetGoOf(s, e, i, n))
  {
    var s' := LetGoOf(s, e, i, n);
    HolderCounts(s, e, i, n);
    ReleasedWait(s, n);
    LetGoKeepsPlaces(s, e, i, n);
    forall x | x in s'.events
      ensures Staged(s'.events[x]) && Pointing(s'.events[x].slots, s'.atoms)
    {
      PointingKept(s.events[x].slots, s.atoms, s'.atoms);
      if x in Released(s, n) {
        HandOffFinds(s.events[x], n);
      }
    }
  }

  // What releasing for e leaves alone.
  ghost predicate OnlyReleased(s: State, s': State, e: EventId) {
    && s'.runq == s.runq && s'.threads == s.threads && s'.nextId == s.nextId && s'.collect == s.collect
    && s'.ready == s.ready && s'.events.Keys == s.events.Keys
    && (forall x :: x in s.events && x != e && !s.events[x].place.Waiting? ==> s'.events[x] == s.events[x])
    && |s'.hand| >= |s.hand| && s'.hand[..|s.hand|] == s.hand
  }

  lemma ReleaseOneStep(s: State, e: EventId, i: nat)
    requires Inv(s) && Live(s, e, i) && s.events[e].place.Running?
    ensures var s' := ReleaseOne(s, e, i);
            && Inv(s') && OnlyReleased(s, s', e)
            && s'.events[e] == WithSlot(s.events[e], i, s.events[e].slots[i].(atom := None))
  {
    hide LetGoOf, HandedOff, AtomsInv, PlacesInv;
    var ev := s.events[e];
    var slot := ev.slots[i];
    assert Staged(ev) && Finishing(slot);
    if slot.have && slot.atom.Some? {
      var n := NameOf(slot);
      assert LetsGo(s, e, i, n);
      LetGoAtoms(s, e, i, n);
      LetGoPlaces(s, e, i, n);
      LetGoStaged(s, e, i, n);
      LetGoKeepsPlaces(s, e, i, n);
      HolderCounts(s, e, i, n);
      ReleasedWait(s, n);
      var s' := LetGoOf(s, e, i, n);
      if AtomAt(s'.atoms, n).waiters == [] && AtomAt(s'.atoms, n).held == 0 {
        CollectKeepsInv(s', n);
      }
    } else {
      assert ev.slots[i := slot.(atom := None)] == ev.slots;
    }
  }

  lemma NothingReleased(s: State, e: EventId)
    ensures OnlyReleased(s, s, e)
  {
  }

  lemma ReleasedTwice(s: State, s1: State, s2: State, e: EventId)
    requires OnlyReleased(s, s1, e) && OnlyReleased(s1, s2, e)
    ensures OnlyReleased(s, s2, e)
  {
    assert s2.hand[..|s.hand|] == s2.hand[..|s1.hand|][..|s.hand|];
  }

  // The slots of e from 0 to i are cleared.
  ghost predicate ClearedBelow(ev: Event, ev': Event, i: nat) {
    && ev'.place == ev.place && |ev'.slots| == |ev.slots|
    && (forall j :: 0 <= j < i && j < |ev.slots| ==> ev'.slots[j].atom.None?)
    && (forall j :: i <= j < |ev.slots| ==> ev'.slots[j] == ev.slots[j])
  }

  // release: afterwards e points to nothing.
  lemma {:induction false} ReleaseKeepsInv(s: State, e: EventId, i: nat)
    requires Inv(s) && e in s.events && i <= |s.events[e].slots| && s.events[e].place.Running?
    ensures var s' := ReleaseDown(s, e, i);
            Inv(s') && OnlyReleased(s, s', e) && ClearedBelow(s.events[e], s'.events[e], i)
    decreases i
  {
    hide ReleaseOne, Inv, SameRefs, OnlyReleased;
    NothingReleased(s, e);
    if i > 0 {
      var s1 := ReleaseOne(s, e, i - 1);
      ReleaseOneStep(s, e, i - 1);
      ReleaseKeepsInv(s1, e, i - 1);
      ReleasedTwice(s, s1, ReleaseDown(s1, e, i - 1), e);
    }
  }

  // ---- handle ----

  // What acquiring for the events of the hand leaves alone.
  ghost predicate OthersKept(s: State, s': State) {
    && s'.runq == s.runq && s'.threads == s.threads && s'.collect == s.collect
    && s.events.Keys <= s'.events.Keys && s.nextId <= s'.nextId
    && (forall x :: x in s.events && s.events[x].place != InHand ==> s'.events[x] == s.events[x])
  }

  lemma FrontWorks(s: State)
    requires Inv(s) && s.hand != []
    ensures s.hand[0] in s.events && Working(s, s.hand[0], s.events[s.hand[0]].at)
  {
    assert s.hand[0] in ListOf(s, InHand);
    assert IsAt(s.events, s.hand[0], InHand);
    assert Staged(s.events[s.hand[0]]);
  }

  lemma {:induction false} ReacquireKeepsInv(s: State, rel: seq<EventId>)
    requires Inv(s) && s.hand == rel
    ensures var s' := ReacquireAll(s, rel);
            Inv(s') && s'.hand == [] && OthersKept(s, s') && s'.events.Keys == s.events.Keys && s'.nextId == s.nextId
    decreases |rel|
  {
    hide AcquireFrom, Inv;
    if rel != [] {
      var e := rel[0];
      FrontWorks(s);
      AcquireKeepsInv(s, e, s.events[e].at);
      ReacquireKeepsInv(Reacquire(s, e), rel[1..]);
    }
  }

  lemma NewKeepsInv(s: State, refs: seq<Ref>)
    requires Inv(s) && s.hand == []
    ensures var e := s.nextId;
            var s' := s.(events := s.events[e := NewEvent(refs)], nextId := e + 1, hand := [e]);
            && Inv(s') && Working(s', e, 0) && OthersKept(s, s')
  {
    var e := s.nextId;
    var s' := s.(events := s.events[e := NewEvent(refs)], nextId := e + 1, hand := [e]);
    forall p, x
      ensures x in ListOf(s', p) <==> IsAt(s'.events, x, p)
    {
      assert x in ListOf(s, p) <==> IsAt(s.events, x, p);
    }
    assert forall p :: p != InHand ==> ListOf(s', p) == ListOf(s, p);
    AtomsUnmoved(s, s');
  }

  lemma BuiltReached(slots: seq<Slot>, i: nat, slot: Slot)
    requires Reached(slots, 0) && i < |slots| && slot == Built(slots[i], false)
    ensures Reached(slots[i := slot], 0) && slot.have == slots[i].have && (slot.have ==> slot == slots[i])
  {
    BuiltSlot(slots[i], false);
  }

  lemma BuiltPointing(slots: seq<Slot>, i: nat, slot: Slot, atoms: map<Name, Atomic>)
    requires Pointing(slots, atoms) && i < |slots| && slot == Built(slots[i], false)
    ensures Pointing(slots[i := slot], FoundFor(atoms, slot))
  {
  }

  lemma BuiltHolds(events: map<EventId, Event>, e: EventId, i: nat, slot: Slot)
    requires e in events && i < |events[e].slots|
    requires slot.have == events[e].slots[i].have && (slot.have ==> slot == events[e].slots[i])
    ensures forall x: EventId, j: nat, m: Name ::
              Holds(events[e := WithSlot(events[e], i, slot)], x, j, m) <==> Holds(events, x, j, m)
  {
    if slot.have {
      assert events[e].slots[i := slot] == events[e].slots;
      assert events[e := WithSlot(events[e], i, slot)] == events;
    } else {
      SlotSwap(events, e, i, WithSlot(events[e], i, slot));
    }
  }

  lemma BuildOneKeepsInv(s: State, e: EventId, i: nat)
    requires Inv(s) && Working(s, e, 0) && i < |s.events[e].slots|
    ensures var slot := Built(s.events[e].slots[i], false);
            var s' := s.(events := s.events[e := WithSlot(s.events[e], i, slot)], atoms := FoundFor(s.atoms, slot));
            && Inv(s') && Working(s', e, 0) && OnlyMoved(s, s', e) && |s'.events[e].slots| == |s.events[e].slots|
  {
    var ev := s.events[e];
    var slot := Built(ev.slots[i], false);
    var s' := s.(events := s.events[e := WithSlot(ev, i, slot)], atoms := FoundFor(s.atoms, slot));
    BuiltReached(ev.slots, i, slot);
    BuiltPointing(ev.slots, i, slot, s.atoms);
    BuiltHolds(s.events, e, i, slot);
    assert forall m :: AtomAt(s'.atoms, m) == AtomAt(s.atoms, m);
    hide Built, Holds, FoundFor, Pointing;
    EventsReassembled(s, s', e);
    PlacesStay(s, s');
    AtomsUnmoved(s, s');
  }

  lemma {:induction false} BuildKeepsInv(s: State, e: EventId, i: nat)
    requires Inv(s) && Working(s, e, 0) && i <= |s.events[e].slots|
    ensures var s' := BuildEarly(s, e, i);
            && Inv(s') && Working(s', e, 0) && OnlyMoved(s, s', e) && s'.hand == s.hand && s'.ready == s.ready
    decreases |s.events[e].slots| - i
  {
    hide Inv, Built, FoundFor, WithSlot;
    if i < |s.events[e].slots| {
      var slot := Built(s.events[e].slots[i], false);
      var s1 := s.(events := s.events[e := WithSlot(s.events[e], i, slot)], atoms := FoundFor(s.atoms, slot));
      BuildOneKeepsInv(s, e, i);
      BuildKeepsInv(s1, e, i + 1);
    }
  }

  lemma CreateKeepsInv(s: State, refs: seq<Ref>)
    requires Inv(s) && s.hand == []
    ensures var s' := Create(s, refs);
            Inv(s') && s'.hand == [] && OthersKept(s, s')
  {
    hide BuildEarly, AcquireFrom, Inv;
    var e := s.nextId;
    var s1 := s.(events := s.events[e := NewEvent(refs)], nextId := e + 1, hand := [e]);
    assert [e] + s.hand == [e];
    NewKeepsInv(s, refs);
    BuildKeepsInv(s1, e, 0);
    AcquireKeepsInv(BuildEarly(s1, e, 0), e, 0);
  }

  lemma {:induction false} CreateAllKeepsInv(s: State, succs: seq<seq<Ref>>)
    requires Inv(s) && s.hand == []
    ensures var s' := CreateAll(s, succs);
            Inv(s') && s'.hand == [] && OthersKept(s, s')
    decreases |succs|
  {
    hide Create, Inv;
    if succs != [] {
      CreateKeepsInv(s, succs[0]);
      CreateAllKeepsInv(Create(s, succs[0]), succs[1..]);
    }
  }

  function NewIds(from: nat, n: nat): (ids: set<nat>)
    ensures forall x :: x in ids <==> from <= x < from + n
    decreases n
  {
    if n == 0 then {} else {from} + NewIds(from + 1, n - 1)
  }

  lemma {:induction false} CreateAllIds(s: State, succs: seq<seq<Ref>>)
    ensures var s' := CreateAll(s, succs);
            s'.nextId == s.nextId + |succs| && s'.events.Keys == s.events.Keys + NewIds(s.nextId, |succs|)
    decreases |succs|
  {
    hide Create;
    if succs != [] {
      CreateAllIds(Create(s, succs[0]), succs[1..]);
    }
  }

  // An event that points to nothing ends.
  function Ended(s: State, t: ThreadId, e: EventId): State
    requires t < |s.threads|
  {
    s.(events := s.events - {e}, threads := s.threads[t := None])
  }

  lemma EndKeepsInv(s: State, t: ThreadId, e: EventId)
    requires Inv(s) && t < |s.threads| && IsAt(s.events, e, Running(t))
    requires forall j :: 0 <= j < |s.events[e].slots| ==> s.events[e].slots[j].atom.None?
    ensures Inv(Ended(s, t, e))
  {
    var s' := Ended(s, t, e);
    assert e in ListOf(s, Running(t));
    forall p, x
      ensures x in ListOf(s', p) <==> IsAt(s'.events, x, p)
    {
      assert x in ListOf(s, p) <==> IsAt(s.events, x, p);
    }
    forall p
      ensures Distinct(ListOf(s', p))
    {
      assert Distinct(ListOf(s, p));
    }
    AtomsUnmoved(s, s');
  }

  lemma EnqueueKeepsInv(s: State)
    requires Inv(s)
    ensures Inv(Enqueued(s)) && Enqueued(s).ready == [] && Enqueued(s).events.Keys == s.events.Keys
  {
    var s' := Enqueued(s);
    forall x | x in s.ready
      ensures x !in s.runq && IsAt(s.events, x, Ready)
    {
      assert x in ListOf(s, Ready);
      assert x in ListOf(s, Queued) <==> IsAt(s.events, x, Queued);
    }
    assert Distinct(ListOf(s, Queued)) && Distinct(ListOf(s, Ready));
    Joined(s.runq, s.ready);
    PlacesMove(s, s', s.ready, Ready, Queued);
    AtomsUnmoved(s, s');
  }

  // Between steps handle's vectors are empty, and no running event has released a guard.
  ghost predicate Good(s: State) {
    Inv(s) && s.hand == [] && s.ready == [] && RunnersSettled(s.events)
  }

  ghost predicate RunnersSettled(events: map<EventId, Event>) {
    forall e :: e in events && events[e].place.Running? ==> AllSettled(events[e].slots)
  }

  lemma RunnersKept(s: State, s': State)
    requires PlacesInv(s) && PlacesInv(s') && RunnersSettled(s.events)
    requires forall t :: ListOf(s', Running(t)) == ListOf(s, Running(t)) || ListOf(s', Running(t)) == []
    requires forall x ::
               x in s'.events && x in s.events && s.events[x].place.Running? ==> s'.events[x].slots == s.events[x].slots
    ensures RunnersSettled(s'.events)
  {
    forall e | e in s'.events && s'.events[e].place.Running?
      ensures AllSettled(s'.events[e].slots)
    {
      var p := s'.events[e].place;
      assert IsAt(s'.events, e, p);
      assert e in ListOf(s', p);
      assert e in ListOf(s, p);
      assert IsAt(s.events, e, p);
    }
  }

  // handle up to the end of the event.
  lemma HandleParts(s: State, t: ThreadId, succs: seq<seq<Ref>>)
    requires Good(s) && Enabled(s, Handle(t, succs))
    ensures var e, s1 := s.threads[t].value, CreateAll(s, succs);
            var s2 := ReleaseDown(s1, e, |s1.events[e].slots|);
            var s3 := ReacquireAll(s2, s2.hand);
            && Inv(s3) && s3.hand == [] && s3.threads == s.threads && IsAt(s3.events, e, Running(t))
            && s3.events.Keys == s1.events.Keys && s3.nextId == s1.nextId
            && (forall j :: 0 <= j < |s3.events[e].slots| ==> s3.events[e].slots[j].atom.None?)
            && (forall x :: x in s.events && x != e && s.events[x].place.Running? ==> s3.events[x] == s.events[x])
  {
    hide CreateAll, ReleaseDown, ReacquireAll, Inv;
    var e := s.threads[t].value;
    RunsIsOld(s, t, e);
    var s1 := CreateAll(s, succs);
    CreateAllKeepsInv(s, succs);
    var s2 := ReleaseDown(s1, e, |s1.events[e].slots|);
    ReleaseKeepsInv(s1, e, |s1.events[e].slots|);
    ReacquireKeepsInv(s2, s2.hand);
  }

  lemma OneLess(a: set<EventId>, b: set<EventId>, e: EventId)
    requires e !in b
    ensures (a + b) - {e} == a - {e} + b
  {
  }

  lemma RunsIsOld(s: State, t: ThreadId, e: EventId)
    requires Inv(s) && t < |s.threads| && s.threads[t] == Some(e)
    ensures IsAt(s.events, e, Running(t)) && e < s.nextId
  {
    assert e in ListOf(s, Running(t));
  }

  lemma EnqueuedSlots(s: State)
    ensures var s' := Enqueued(s);
            && s'.threads == s.threads && s'.hand == s.hand && s'.ready == [] && s'.events.Keys == s.events.Keys
            && forall x :: x in s.events ==> s'.events[x].slots == s.events[x].slots
  {
  }

  lemma HandleRunners(s: State, t: ThreadId, succs: seq<seq<Ref>>)
    requires Good(s) && Enabled(s, Handle(t, succs)) && Inv(Handled(s, t, succs))
    ensures RunnersSettled(Handled(s, t, succs).events)
  {
    HandleParts(s, t, succs);
    hide CreateAll, ReleaseDown, ReacquireAll, Enqueued, AtomsInv, EventsInv, PlacesInv, RunnersSettled;
    var e := s.threads[t].value;
    var s1 := CreateAll(s, succs);
    var s2 := ReleaseDown(s1, e, |s1.events[e].slots|);
    var s4 := Ended(ReacquireAll(s2, s2.hand), t, e);
    EnqueuedSlots(s4);
    RunnersKept(s, Handled(s, t, succs));
  }

  // handle: the event that ran is gone, and exactly its successors are new.
  lemma HandleStep(s: State, t: ThreadId, succs: seq<seq<Ref>>)
    requires Good(s) && Enabled(s, Handle(t, succs))
    ensures var (s', e) := (Handled(s, t, succs), s.threads[t].value);
            && Good(s')
            && s'.events.Keys == s.events.Keys - {e} + NewIds(s.nextId, |succs|)
            && s'.threads == s.threads[t := None] && s'.nextId == s.nextId + |succs|
  {
    hide CreateAll, ReleaseDown, ReacquireAll, Inv;
    var e := s.threads[t].value;
    var s1 := CreateAll(s, succs);
    var s2 := ReleaseDown(s1, e, |s1.events[e].slots|);
    var s3 := ReacquireAll(s2, s2.hand);
    HandleParts(s, t, succs);
    CreateAllIds(s, succs);
    EndKeepsInv(s3, t, e);
    EnqueueKeepsInv(Ended(s3, t, e));
    RunsIsOld(s, t, e);
    assert Inv(Handled(s, t, succs));
    HandleRunners(s, t, succs);
    OneLess(s.events.Keys, NewIds(s.nextId, |succs|), e);
  }

  lemma InjectStep(s: State, refs: seq<Ref>)
    requires Good(s)
    ensures Good(Do(s, Inject(refs)))
  {
    hide Create, Enqueued, AtomsInv, EventsInv, PlacesInv, RunnersSettled;
    CreateKeepsInv(s, refs);
    EnqueueKeepsInv(Create(s, refs));
    EnqueuedSlots(Create(s, refs));
    RunnersKept(s, Do(s, Inject(refs)));
  }

  lemma TakeStep(s: State, t: ThreadId)
    requires Good(s) && Enabled(s, Take(t))
    ensures Good(Do(s, Take(t)))
  {
    var s', e := Do(s, Take(t)), s.runq[0];
    assert e in ListOf(s, Queued);
    assert IsAt(s.events, e, Queued);
    assert Distinct(ListOf(s, Queued));
    FrontLeaves(s.runq);
    PlacesMove(s, s', [e], Queued, Running(t));
    assert Staged(s.events[e]);
    EventsReassembled(s, s', e);
    AtomsUnmoved(s, s');
  }

  lemma AssignStep(s: State, t: ThreadId, i: nat, data: Option<Data>)
    requires Good(s) && Enabled(s, Assign(t, i, data))
    ensures Good(Do(s, Assign(t, i, data)))
  {
    var s', e := Do(s, Assign(t, i, data)), s.threads[t].value;
    var n := NameOf(s.events[e].slots[i]);
    PlacesStay(s, s');
    assert Pointing(s.events[e].slots, s.atoms);
    assert AtomOk(s.events, AtomAt(s.atoms, n), n);
    AtomsReassembled(s, s', n);
  }

  lemma StepKeepsGood(s: State, step: Step)
    requires Good(s) && Enabled(s, step)
    ensures Good(Do(s, step))
  {
    match step
    case Inject(refs) => InjectStep(s, refs);
    case Take(t) => TakeStep(s, t);
    case Assign(t, i, data) => AssignStep(s, t, i, data);
    case Handle(t, succs) => HandleStep(s, t, succs);
  }

  lemma InitIsGood(s: State)
    requires Init(s)
    ensures Good(s)
  {
    forall m
      ensures AtomOk(s.events, AtomAt(s.atoms, m), m)
    {
      HoldersAre(s.events, m, {});
    }
  }

  lemma {:induction false} RunKeepsGood(s: State, schedule: seq<Step>)
    requires Good(s)
    ensures Exec(s, schedule).Some? ==> Good(Exec(s, schedule).value)
    decreases |schedule|
  {
    if schedule != [] && Enabled(s, schedule[0]) {
      StepKeepsGood(s, schedule[0]);
      RunKeepsGood(Do(s, schedule[0]), schedule[1..]);
    }
  }
}
