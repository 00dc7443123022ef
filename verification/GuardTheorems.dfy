/**
 * What the guard kernel promises over whole runs: no event is lost, an event that can
 * run holds its guards, guards exclude, events with ordered guards never deadlock and
 * all finish, and collecting guards cannot be noticed.
 */
module GuardTheorems {
  import opened Basics
  import opened ClassicAtomics
  import opened GuardKernel
  import Cycles

  // ---------------------------------------------------------------------------
  // Conservation
  // ---------------------------------------------------------------------------

  // e is in the list of p, and in no other.
  ghost predicate OnlyAt(s: State, e: EventId, p: Place) {
    && e in ListOf(s, p)
    && forall q :: e in ListOf(s, q) ==> q == p
  }

  // Every live event is in exactly one of the run queue, a thread's hands and one
  // guard's wait list, once, and nothing else is in them.
  lemma EachEventInOnePlace(init: State, schedule: seq<Step>, s: State)
    requires Init(init) && Exec(init, schedule) == Some(s)
    ensures forall e :: e in s.events ==> OnlyAt(s, e, s.events[e].place)
    ensures forall e :: e in s.events ==> s.events[e].place != InHand && s.events[e].place != Ready
    ensures forall p, e :: e in ListOf(s, p) ==> e in s.events
    ensures forall p :: Distinct(ListOf(s, p))
  {
    InitIsGood(init);
    RunKeepsGood(init, schedule);
    forall e | e in s.events
      ensures OnlyAt(s, e, s.events[e].place)
      ensures s.events[e].place != InHand && s.events[e].place != Ready
    {
      assert IsAt(s.events, e, s.events[e].place);
      assert e !in ListOf(s, InHand) && e !in ListOf(s, Ready);
    }
  }

  // No step but a handle ends an event, and that only the one that ran.
  lemma EventsEndOnlyByRunning(init: State, schedule: seq<Step>, s: State, step: Step, e: EventId)
    requires Init(init) && Exec(init, schedule) == Some(s) && Enabled(s, step)
    requires e in s.events && e !in Do(s, step).events
    ensures step.Handle? && s.threads[step.t] == Some(e)
  {
    InitIsGood(init);
    RunKeepsGood(init, schedule);
    if step.Handle? {
      HandleStep(s, step.t, step.succs);
    }
  }

  // The run queue is first in, first out: a thread takes the event in front, and events
  // are queued only behind those that are there.
  lemma RunQueueIsFifo(init: State, schedule: seq<Step>, s: State, step: Step)
    requires Init(init) && Exec(init, schedule) == Some(s) && Enabled(s, step)
    ensures var s' := Do(s, step);
            && (step.Take? ==> s'.runq == s.runq[1..] && s'.threads == s.threads[step.t := Some(s.runq[0])])
            && (!step.Take? ==> s.runq <= s'.runq)
  {
    InitIsGood(init);
    RunKeepsGood(init, schedule);
    match step
    case Inject(refs) => InjectedBehind(s, refs);
    case Take(_) =>
    case Assign(_, _, _) =>
    case Handle(t, succs) => HandledBehind(s, t, succs);
  }

  lemma InjectedBehind(s: State, refs: seq<Ref>)
    requires Good(s)
    ensures s.runq <= Do(s, Inject(refs)).runq
  {
    hide Create, Inv;
    CreateKeepsInv(s, refs);
  }

  lemma HandledBehind(s: State, t: ThreadId, succs: seq<seq<Ref>>)
    requires Good(s) && Enabled(s, Handle(t, succs))
    ensures s.runq <= Handled(s, t, succs).runq
  {
    hide CreateAll, ReleaseDown, ReacquireAll, Inv, SameRefs, RunnersSettled;
    var e := s.threads[t].value;
    RunsIsOld(s, t, e);
    var s1 := CreateAll(s, succs);
    CreateAllKeepsInv(s, succs);
    ReleaseKeepsInv(s1, e, |s1.events[e].slots|);
    var s2 := ReleaseDown(s1, e, |s1.events[e].slots|);
    ReacquireKeepsInv(s2, s2.hand);
  }

  // An event in the run queue or in a thread's hands holds every guard it did not skip,
  // and it skipped only those whose guard function said so.
  lemma RunnableHoldsItsGuards(init: State, schedule: seq<Step>, s: State, e: EventId, i: nat)
    requires Init(init) && Exec(init, schedule) == Some(s) && Live(s, e, i)
    requires e in s.runq || Some(e) in s.threads
    ensures var slot := s.events[e].slots[i];
            && (slot.have <==> slot.atom.Some?)
            && (slot.atom.None? ==> slot.ref.turn.None?)
            && (slot.have ==>
                  && NameOf(slot) in s.atoms && s.atoms[NameOf(slot)].held > 0
                  && (e, i) in Holders(s.events, NameOf(slot)))
  {
    InitIsGood(init);
    RunKeepsGood(init, schedule);
    RunnablePlace(s, e);
    assert Staged(s.events[e]) && Pointing(s.events[e].slots, s.atoms);
    assert Settled(s.events[e].slots[i]);
    if s.events[e].slots[i].atom.Some? {
      HolderCounts(s, e, i, NameOf(s.events[e].slots[i]));
    }
  }

  lemma RunnablePlace(s: State, e: EventId)
    requires PlacesInv(s) && e in s.events && (e in s.runq || Some(e) in s.threads)
    ensures s.events[e].place.Queued? || s.events[e].place.Running?
  {
    if e in s.runq {
      assert e in ListOf(s, Queued);
      assert IsAt(s.events, e, Queued);
    } else {
      var t :| 0 <= t < |s.threads| && s.threads[t] == Some(e);
      assert e in ListOf(s, Running(t));
      assert IsAt(s.events, e, Running(t));
    }
  }

  // An atomic counts its holders; an exclusive one has at most one, and waiters only
  // when it is held.
  lemma GuardsCountTheirHolders(init: State, schedule: seq<Step>, s: State, n: Name)
    requires Init(init) && Exec(init, schedule) == Some(s)
    ensures var a := AtomAt(s.atoms, n);
            && a.held == |Holders(s.events, n)|
            && (n.guard.kind == ExclusiveKind ==> a.held <= 1)
            && (a.waiters != [] ==> a.held > 0)
            && (a.held > 1 ==> a.mode == Some(Read))
  {
    InitIsGood(init);
    RunKeepsGood(init, schedule);
    assert AtomOk(s.events, AtomAt(s.atoms, n), n);
  }

  // ---------------------------------------------------------------------------
  // Deadlock
  // ---------------------------------------------------------------------------

  // The reference may ask for atomic n, early or when its turn has come.
  predicate MayBe(r: Ref, n: Name) {
    r.guard == n.guard && (r.early == Some(n.key) || r.turn == Some(n.key))
  }

  // The node refers to n and, further on, to m.
  ghost predicate RefersInOrder(refs: seq<Ref>, n: Name, m: Name) {
    exists i, j :: 0 <= i < j < |refs| && MayBe(refs[i], n) && MayBe(refs[j], m)
  }

  ghost predicate Precedes(nodes: set<seq<Ref>>, n: Name, m: Name) {
    exists refs :: refs in nodes && RefersInOrder(refs, n, m)
  }

  ghost function Order(nodes: set<seq<Ref>>): (Name, Name) -> bool {
    (n: Name, m: Name) => Precedes(nodes, n, m)
  }

  // No atomics n, m, ..., n such that some node refers to each before the next.
  ghost predicate Acyclic(nodes: set<seq<Ref>>) {
    Cycles.Acyclic(Order(nodes))
  }

  // The order that the runtime aims at: by guard, and within a guard by key.
  predicate Before(a: Name, b: Name) {
    a.guard.magic < b.guard.magic || (a.guard == b.guard && a.key < b.key)
  }

  ghost predicate Ascending(refs: seq<Ref>) {
    forall n, m {:trigger RefersInOrder(refs, n, m)} :: RefersInOrder(refs, n, m) ==> Before(n, m)
  }

  lemma {:induction false} WalkIsBefore(nodes: set<seq<Ref>>, w: seq<Name>)
    requires forall refs :: refs in nodes ==> Ascending(refs)
    requires |w| > 1 && Cycles.Walk(Order(nodes), w)
    ensures Before(w[0], w[|w| - 1])
    decreases |w|
  {
    assert Cycles.Linked(Order(nodes), w, 0);
    assert Precedes(nodes, w[0], w[1]);
    if |w| > 2 {
      Cycles.PartIsWalk(Order(nodes), w, 1, |w|);
      assert w[1..|w|] == w[1..];
      WalkIsBefore(nodes, w[1..]);
    }
  }

  // If all nodes ascend, there is no cycle.
  lemma AscendingIsAcyclic(nodes: set<seq<Ref>>)
    requires forall refs :: refs in nodes ==> Ascending(refs)
    ensures Acyclic(nodes)
  {
    forall w
      ensures !Cycles.Cycle(Order(nodes), w)
    {
      if Cycles.Cycle(Order(nodes), w) {
        WalkIsBefore(nodes, w);
      }
    }
  }

  // A node whose guards have distinct magic numbers, in the order of sortGuards.
  ghost predicate MagicAscends(refs: seq<Ref>) {
    forall i, j :: 0 <= i < j < |refs| ==> refs[i].guard.magic < refs[j].guard.magic
  }

  lemma DistinctMagicAscends(refs: seq<Ref>)
    requires MagicAscends(refs)
    ensures Ascending(refs)
  {
  }

  // HeldAtomic::compare, with the keys that are known when the guards are sorted.
  function ModeRank(m: Mode): nat {
    match m
    case Read => 1
    case Write => 2
    case Exclusive => 3
    case Upgradeable => 4
  }

  function CompareKeys(k1: Option<Key>, k2: Option<Key>): int {
    if k1 == k2 then 0
    else if k1.None? then -1
    else if k2.None? then 1
    else if k1.value < k2.value then -1 else 1
  }

  function Compare(r1: Ref, r2: Ref, ignoreLates: bool): int {
    if r1.guard.magic != r2.guard.magic then if r1.guard.magic < r2.guard.magic then -1 else 1
    else if ModeRank(r1.wtype) != ModeRank(r2.wtype) then if ModeRank(r1.wtype) < ModeRank(r2.wtype) then -1 else 1
    else if (!Late(r1) && !Late(r2)) || ignoreLates then
      CompareKeys(if Late(r1) then None else r1.early, if Late(r2) then None else r2.early)
    else if Late(r1) == Late(r2) then 0
    else if Late(r2) then -1 else 1
  }

  ghost predicate SortedByCompare(refs: seq<Ref>) {
    forall i, j :: 0 <= i < j < |refs| ==> Compare(refs[i], refs[j], false) < 0
  }

  // The comparison is an order to sort by: it never says two different things, and what is
  // not after another is not after anything that the other is not after.
  lemma CompareOrders(r1: Ref, r2: Ref, r3: Ref, ignoreLates: bool)
    ensures Compare(r1, r2, ignoreLates) == -Compare(r2, r1, ignoreLates)
    ensures Compare(r1, r2, ignoreLates) <= 0 && Compare(r2, r3, ignoreLates) <= 0 ==> Compare(r1, r3, ignoreLates) <= 0
  {
    if r1.guard.magic == r2.guard.magic == r3.guard.magic && r1.wtype == r2.wtype == r3.wtype {
      hide ModeRank;
    } else {
      hide CompareKeys, Late;
    }
  }

  // Once sorted, the references to one guard in one mode have those that are late or
  // collectable behind the others, and the others in the order of their keys.
  lemma LatesComeLast(refs: seq<Ref>, i: nat, j: nat)
    requires forall k, l :: 0 <= k < l < |refs| ==> Compare(refs[k], refs[l], false) <= 0
    requires i < j < |refs| && refs[i].guard.magic == refs[j].guard.magic && refs[i].wtype == refs[j].wtype
    ensures refs[i].late || refs[i].guard.gc ==> refs[j].late || refs[j].guard.gc
    ensures !refs[j].late && !refs[j].guard.gc && refs[i].early.Some? ==>
              refs[j].early.Some? && refs[i].early.value <= refs[j].early.value
  {
    assert Compare(refs[i], refs[j], false) <= 0;
  }

  // A node that refers to one guard several times is in order too, if it does so in one
  // mode, with keys that are known at once and differ.
  lemma OneModeAscends(refs: seq<Ref>)
    requires SortedByCompare(refs)
    requires forall i :: 0 <= i < |refs| ==> !Late(refs[i]) && refs[i].early.Some? && refs[i].turn == refs[i].early
    requires forall i, j :: 0 <= i < j < |refs| && refs[i].guard.magic == refs[j].guard.magic ==>
               refs[i].guard == refs[j].guard && refs[i].wtype == refs[j].wtype
    ensures Ascending(refs)
  {
    forall n, m | RefersInOrder(refs, n, m)
      ensures Before(n, m)
    {
      var i, j :| 0 <= i < j < |refs| && MayBe(refs[i], n) && MayBe(refs[j], m);
      assert Compare(refs[i], refs[j], false) < 0;
    }
  }

  function RefsOf(slots: seq<Slot>): (refs: seq<Ref>)
    ensures |refs| == |slots| && forall i :: 0 <= i < |refs| ==> refs[i] == slots[i].ref
  {
    seq(|slots|, i requires 0 <= i < |slots| => slots[i].ref)
  }

  // Each event is one of these nodes.
  ghost predicate AllFrom(events: map<EventId, Event>, nodes: set<seq<Ref>>) {
    forall e :: e in events ==> RefsOf(events[e].slots) in nodes
  }

  ghost predicate StepFrom(step: Step, nodes: set<seq<Ref>>) {
    match step
    case Inject(refs) => refs in nodes
    case Handle(_, succs) => forall i :: 0 <= i < |succs| ==> succs[i] in nodes
    case _ => true
  }

  lemma SameShapeFrom(events: map<EventId, Event>, events': map<EventId, Event>, nodes: set<seq<Ref>>)
    requires AllFrom(events, nodes) && SameShape(events, events')
    ensures AllFrom(events', nodes)
  {
    forall e | e in events'
      ensures RefsOf(events'[e].slots) in nodes
    {
      assert SameRefs(events[e].slots, events'[e].slots);
      assert RefsOf(events'[e].slots) == RefsOf(events[e].slots);
    }
  }

  lemma CreateFrom(s: State, refs: seq<Ref>, nodes: set<seq<Ref>>)
    requires AllFrom(s.events, nodes) && refs in nodes
    ensures AllFrom(Create(s, refs).events, nodes)
  {
    hide BuildEarly, AcquireFrom, SameRefs;
    var e := s.nextId;
    var s1 := s.(events := s.events[e := NewEvent(refs)], nextId := e + 1, hand := [e] + s.hand);
    assert RefsOf(NewEvent(refs).slots) == refs;
    assert AllFrom(s1.events, nodes);
    SameShapeFrom(s1.events, BuildEarly(s1, e, 0).events, nodes);
    SameShapeFrom(BuildEarly(s1, e, 0).events, Create(s, refs).events, nodes);
  }

  lemma {:induction false} CreateAllFrom(s: State, succs: seq<seq<Ref>>, nodes: set<seq<Ref>>)
    requires AllFrom(s.events, nodes) && forall i :: 0 <= i < |succs| ==> succs[i] in nodes
    ensures AllFrom(CreateAll(s, succs).events, nodes)
    decreases |succs|
  {
    hide Create;
    if succs != [] {
      CreateFrom(s, succs[0], nodes);
      CreateAllFrom(Create(s, succs[0]), succs[1..], nodes);
    }
  }

  lemma {:induction false} ReacquireAllFrom(s: State, rel: seq<EventId>, nodes: set<seq<Ref>>)
    requires AllFrom(s.events, nodes)
    ensures AllFrom(ReacquireAll(s, rel).events, nodes)
    decreases |rel|
  {
    hide AcquireFrom, SameRefs;
    if rel != [] {
      var e := rel[0];
      if e in s.events && s.events[e].at <= |s.events[e].slots| {
        SameShapeFrom(s.events, Reacquire(s, e).events, nodes);
        ReacquireAllFrom(Reacquire(s, e), rel[1..], nodes);
      }
    }
  }

  lemma HandledFrom(s: State, t: ThreadId, succs: seq<seq<Ref>>, nodes: set<seq<Ref>>)
    requires Enabled(s, Handle(t, succs)) && AllFrom(s.events, nodes) && StepFrom(Handle(t, succs), nodes)
    ensures AllFrom(Handled(s, t, succs).events, nodes)
  {
    hide CreateAll, ReleaseDown, ReacquireAll, SameRefs;
    var e := s.threads[t].value;
    var s1 := CreateAll(s, succs);
    CreateAllFrom(s, succs, nodes);
    var s2 := ReleaseDown(s1, e, |s1.events[e].slots|);
    SameShapeFrom(s1.events, s2.events, nodes);
    var s3 := ReacquireAll(s2, s2.hand);
    ReacquireAllFrom(s2, s2.hand, nodes);
    var s4 := s3.(events := s3.events - {e}, threads := s.threads[t := None]);
    EnqueuedFrom(s4, nodes);
  }

  lemma EnqueuedFrom(s: State, nodes: set<seq<Ref>>)
    requires AllFrom(s.events, nodes)
    ensures AllFrom(Enqueued(s).events, nodes)
  {
    SameShapeFrom(s.events, Enqueued(s).events, nodes);
  }

  lemma StepKeepsFrom(s: State, step: Step, nodes: set<seq<Ref>>)
    requires AllFrom(s.events, nodes) && Enabled(s, step) && StepFrom(step, nodes)
    ensures AllFrom(Do(s, step).events, nodes)
  {
    match step
    case Inject(refs) =>
      CreateFrom(s, refs, nodes);
      EnqueuedFrom(Create(s, refs), nodes);
    case Take(t) => SameShapeFrom(s.events, Do(s, step).events, nodes);
    case Assign(t, i, data) =>
    case Handle(t, succs) => HandledFrom(s, t, succs, nodes);
  }

  ghost predicate ScheduleFrom(schedule: seq<Step>, nodes: set<seq<Ref>>) {
    forall i :: 0 <= i < |schedule| ==> StepFrom(schedule[i], nodes)
  }

  lemma {:induction false} RunKeepsFrom(s: State, schedule: seq<Step>, nodes: set<seq<Ref>>)
    requires AllFrom(s.events, nodes) && ScheduleFrom(schedule, nodes)
    ensures Exec(s, schedule).Some? ==> AllFrom(Exec(s, schedule).value.events, nodes)
    decreases |schedule|
  {
    hide Do, AllFrom, StepFrom;
    if schedule != [] && Enabled(s, schedule[0]) {
      StepKeepsFrom(s, schedule[0], nodes);
      RunKeepsFrom(Do(s, schedule[0]), schedule[1..], nodes);
    }
  }

  // Who holds what a waiter waits for, is not behind it.
  lemma HolderOfAwaited(s: State, e: EventId) returns (h: EventId, j: nat)
    requires Good(s) && e in s.events && s.events[e].place.Waiting?
    ensures Holds(s.events, h, j, s.events[e].place.n)
  {
    var n := s.events[e].place.n;
    assert IsAt(s.events, e, Waiting(n));
    assert e in ListOf(s, Waiting(n));
    assert AtomOk(s.events, AtomAt(s.atoms, n), n);
    var p :| p in Holders(s.events, n);
    h, j := p.0, p.1;
  }

  // What a waiting event holds its node refers to before what it waits for.
  lemma HeldBeforeAwaited(s: State, h: EventId, j: nat, n: Name, nodes: set<seq<Ref>>)
    requires Good(s) && AllFrom(s.events, nodes) && Holds(s.events, h, j, n) && s.events[h].place.Waiting?
    ensures Precedes(nodes, n, s.events[h].place.n)
  {
    var ev := s.events[h];
    assert Staged(ev) && Pointing(ev.slots, s.atoms);
    assert Blocked(ev.slots, ev.at, ev.place.n);
    var refs := RefsOf(ev.slots);
    assert MayBe(refs[j], n) && MayBe(refs[ev.at], ev.place.n);
    assert RefersInOrder(refs, n, ev.place.n);
  }

  function Awaited(events: map<EventId, Event>): set<Name> {
    set e | e in events && events[e].place.Waiting? :: events[e].place.n
  }

  // If all wait, then each awaited atomic is held by someone who awaits another.
  lemma AllWaitIsCycle(s: State, nodes: set<seq<Ref>>)
    requires Good(s) && AllFrom(s.events, nodes) && s.events.Keys != {}
    requires forall e :: e in s.events ==> s.events[e].place.Waiting?
    ensures !Acyclic(nodes)
  {
    var u := Awaited(s.events);
    var e0 :| e0 in s.events;
    assert s.events[e0].place.n in u;
    forall n | n in u
      ensures Cycles.HasBefore(u, Cycles.Flipped(Order(nodes)), n)
    {
      var e :| e in s.events && s.events[e].place.Waiting? && s.events[e].place.n == n;
      var h, j := HolderOfAwaited(s, e);
      HeldBeforeAwaited(s, h, j, n, nodes);
      var m := s.events[h].place.n;
      assert m in u && Cycles.Flipped(Order(nodes))(m, n);
    }
    Cycles.AllHaveNextIsCycle(u, Order(nodes));
  }

  lemma Smaller(a: set<EventId>, b: set<EventId>, h: EventId)
    requires a <= b - {h} && h in b
    ensures |a| < |b|
  {
    Within(a, b - {h});
  }

  lemma {:induction false} Within(a: set<EventId>, b: set<EventId>)
    requires a <= b
    ensures |a| <= |b|
    decreases |a|
  {
    if a != {} {
      var x :| x in a;
      Within(a - {x}, b - {x});
    }
  }

  ghost predicate CanMove(s: State) {
    s.runq != [] || exists t :: 0 <= t < |s.threads| && s.threads[t].Some?
  }

  lemma LiveIsSomewhere(s: State, h: EventId)
    requires Good(s) && h in s.events && !s.events[h].place.Waiting?
    ensures CanMove(s)
  {
    var p := s.events[h].place;
    assert IsAt(s.events, h, p);
    assert h in ListOf(s, p);
  }

  lemma NoDeadlockHere(s: State, nodes: set<seq<Ref>>)
    requires Good(s) && AllFrom(s.events, nodes) && Acyclic(nodes) && s.events.Keys != {}
    ensures CanMove(s)
  {
    if e :| e in s.events && !s.events[e].place.Waiting? {
      LiveIsSomewhere(s, e);
    } else {
      AllWaitIsCycle(s, nodes);
    }
  }

  // If the nodes that occur refer to atomics without a cycle, no reachable state has
  // waiting events while no event can run or is running.
  lemma DeadlockFree(init: State, schedule: seq<Step>, s: State, nodes: set<seq<Ref>>)
    requires Init(init) && Exec(init, schedule) == Some(s)
    requires ScheduleFrom(schedule, nodes) && Acyclic(nodes) && s.events.Keys != {}
    ensures CanMove(s)
  {
    InitIsGood(init);
    RunKeepsGood(init, schedule);
    RunKeepsFrom(init, schedule, nodes);
    NoDeadlockHere(s, nodes);
  }

  // No deadlock if no node refers to one guard twice, whatever the keys turn out to be, and
  // whether they are known early or late.
  lemma SortedNeverDeadlocks(init: State, schedule: seq<Step>, s: State, nodes: set<seq<Ref>>)
    requires Init(init) && Exec(init, schedule) == Some(s) && s.events.Keys != {}
    requires ScheduleFrom(schedule, nodes) && forall refs :: refs in nodes ==> MagicAscends(refs)
    ensures CanMove(s)
  {
    forall refs | refs in nodes
      ensures Ascending(refs)
    {
      DistinctMagicAscends(refs);
    }
    AscendingIsAcyclic(nodes);
    DeadlockFree(init, schedule, s, nodes);
  }

  // ---------------------------------------------------------------------------
  // Completion
  // ---------------------------------------------------------------------------

  lemma IdleOrRunning(s: State, nodes: set<seq<Ref>>) returns (step: Step)
    requires Good(s) && CanMove(s) && |s.threads| > 0
    ensures Enabled(s, step) && StepFrom(step, nodes)
    ensures if step.Handle? then step.succs == []
            else step == Take(0) && forall t :: 0 <= t < |s.threads| ==> s.threads[t].None?
  {
    if t :| 0 <= t < |s.threads| && s.threads[t].Some? {
      RunsIsOld(s, t, s.threads[t].value);
      step := Handle(t, []);
    } else {
      step := Take(0);
    }
  }

  // If no more events come, then whatever state has been reached, running the events
  // that can run finishes all of them.
  lemma {:induction false} Drains(s: State, nodes: set<seq<Ref>>) returns (schedule: seq<Step>)
    requires Good(s) && AllFrom(s.events, nodes) && Acyclic(nodes) && |s.threads| > 0
    ensures Exec(s, schedule).Some? && Exec(s, schedule).value.events.Keys == {}
    ensures Good(Exec(s, schedule).value)
    decreases |s.events.Keys|, if forall t :: 0 <= t < |s.threads| ==> s.threads[t].None? then 1 else 0
  {
    hide AllFrom, Inv, Handled, Create, Acyclic;
    if s.events.Keys == {} {
      schedule := [];
    } else {
      NoDeadlockHere(s, nodes);
      var step := IdleOrRunning(s, nodes);
      var s' := Do(s, step);
      StepKeepsGood(s, step);
      StepKeepsFrom(s, step, nodes);
      if step.Handle? {
        HandleStep(s, step.t, []);
        Smaller(s'.events.Keys, s.events.Keys, s.threads[step.t].value);
      } else {
        TakenRuns(s);
      }
      var rest := Drains(s', nodes);
      schedule := [step] + rest;
      assert schedule[1..] == rest;
    }
  }

  lemma TakenRuns(s: State)
    requires Good(s) && Enabled(s, Take(0))
    ensures Do(s, Take(0)).events.Keys == s.events.Keys && Do(s, Take(0)).threads[0].Some?
  {
  }

  // Nothing is stuck: every reachable state can be run until no event is left, and
  // then no guard is held and nobody waits.
  lemma AllEventsCanFinish(init: State, schedule: seq<Step>, s: State, nodes: set<seq<Ref>>) returns (rest: seq<Step>)
    requires Init(init) && Exec(init, schedule) == Some(s)
    requires ScheduleFrom(schedule, nodes) && Acyclic(nodes) && |s.threads| > 0
    ensures Exec(s, rest).Some? && Exec(s, rest).value.events.Keys == {}
    ensures forall n ::
              AtomAt(Exec(s, rest).value.atoms, n).held == 0 && AtomAt(Exec(s, rest).value.atoms, n).waiters == []
  {
    InitIsGood(init);
    RunKeepsGood(init, schedule);
    RunKeepsFrom(init, schedule, nodes);
    rest := Drains(s, nodes);
    var s' := Exec(s, rest).value;
    forall n
      ensures AtomAt(s'.atoms, n).held == 0 && AtomAt(s'.atoms, n).waiters == []
    {
      assert AtomOk(s'.events, AtomAt(s'.atoms, n), n);
      HoldersAre(s'.events, n, {});
    }
  }

  function BuiltFrom(slots: seq<Slot>, i: nat): (slots': seq<Slot>)
    ensures |slots'| == |slots|
    ensures forall j :: 0 <= j < |slots| ==> slots'[j] == if j < i then slots[j] else Built(slots[j], false)
  {
    seq(|slots|, j requires 0 <= j < |slots| => if j < i then slots[j] else Built(slots[j], false))
  }

  // What get_keys_sort leaves: every guard that is not late has its atomic.
  lemma {:induction false} BuildEarlyBuilds(s: State, e: EventId, i: nat)
    requires e in s.events && i <= |s.events[e].slots|
    ensures var s', ev := BuildEarly(s, e, i), s.events[e];
            && s' == s.(events := s.events[e := ev.(slots := BuiltFrom(ev.slots, i))], atoms := s'.atoms)
            && forall m :: AtomAt(s'.atoms, m) == AtomAt(s.atoms, m)
    decreases |s.events[e].slots| - i
  {
    hide Built, FoundFor, SameRefs, SameShape, AtomAt;
    var ev := s.events[e];
    if i == |ev.slots| {
      assert BuiltFrom(ev.slots, i) == ev.slots;
    } else {
      var slot := Built(ev.slots[i], false);
      FoundKeeps(s.atoms, slot);
      var s1 := s.(events := s.events[e := WithSlot(ev, i, slot)], atoms := FoundFor(s.atoms, slot));
      assert BuildEarly(s, e, i) == BuildEarly(s1, e, i + 1);
      assert BuiltFrom(ev.slots[i := slot], i + 1) == BuiltFrom(ev.slots, i);
      hide BuildEarly, BuiltFrom;
      BuildEarlyBuilds(s1, e, i + 1);
      var all := ev.(slots := BuiltFrom(ev.slots, i));
      assert s1.events[e := all] == s.events[e := all];
    }
  }

  lemma FoundKeeps(atoms: map<Name, Atomic>, slot: Slot)
    ensures forall m :: AtomAt(FoundFor(atoms, slot), m) == AtomAt(atoms, m)
  {
  }
}
