/**
 * The cooperative executor of src/util/CircularBuffer.h as a state machine: any
 * number of threads call submit, every step makes at most one access to shared
 * memory, and memory is sequentially consistent.
 *
 * Main results, for every interleaving: at most one run2 is in progress, run2
 * calls happen in ticket order and exactly once per submitted item, and when no
 * submit is in progress nothing is left behind.
 */
module CircularBuffer {
  import opened Basics

  type Item = nat      // a pointer to a work item
  type ThreadId = nat
  type Ticket = nat    // the value of _in fetched by a submit

  // ---------------------------------------------------------------------------
  // Program counters, state and steps
  // ---------------------------------------------------------------------------

  datatype Pc =
    | Idle
    | Reserve(item: Item)                    // about to fetch and add _in
    | Run1(item: Item, k: Ticket)            // about to run1
    | PlantLook(item: Item, k: Ticket)       // about to read its slot
    // about to read whichever of _in and _out has not been read yet
    | PlantLoads(item: Item, k: Ticket, inSeen: Option<int>, outSeen: Option<int>)
    | PlantCas(item: Item, k: Ticket)        // about to CAS its slot
    | DrainOut(k: Ticket)                    // about to read _out
    | DrainSlot(k: Ticket)                   // about to read slot k
    | DrainPrev(k: Ticket, tmp: Item)        // about to read the slot before
    | DrainCas(k: Ticket, tmp: Item)         // about to CAS _half_out
    | DrainClear(k: Ticket, tmp: Item)       // about to clear slot k
    | DrainRun(k: Ticket, tmp: Item)         // about to enter run2
    | DrainRunning(k: Ticket, tmp: Item)     // inside run2
    | DrainFinish(k: Ticket)                 // about to CAS _out

  // The last four fields only record what has happened: the item of each ticket,
  // the tickets whose item is in the array, the tickets whose run1 is done, and the
  // run2 calls entered and left.  They never influence a step.
  datatype State = State(
    inn: nat,
    halfOut: nat,
    out: nat,
    slots: seq<Option<Item>>,
    threads: map<ThreadId, Pc>,
    items: seq<Item>,
    planted: set<Ticket>,
    ran1: set<Ticket>,
    entered: seq<Item>,
    left: seq<Item>)

  ghost predicate Init(s: State) {
    && s.inn == s.halfOut == s.out == 0
    && |s.slots| > 0 && (forall i :: 0 <= i < |s.slots| ==> s.slots[i] == None)
    && s.threads == map[] && s.items == [] && s.planted == {} && s.ran1 == {}
    && s.entered == [] && s.left == []
  }

  function PcOf(s: State, t: ThreadId): Pc {
    if t in s.threads then s.threads[t] else Idle
  }

  // `outFirst` resolves the unspecified order in which _in - _out reads its operands.
  datatype Step =
    | Submit(t: ThreadId, item: Item)
    | Advance(t: ThreadId, outFirst: bool)

  predicate Enabled(s: State, step: Step) {
    && |s.slots| > 0
    && match step
       case Submit(t, _) => PcOf(s, t).Idle?
       case Advance(t, _) => !PcOf(s, t).Idle?
  }

  function SlotOf(s: State, k: nat): nat
    requires |s.slots| > 0
  {
    k % |s.slots|
  }

  function Advanced(s: State, t: ThreadId, outFirst: bool): State
    requires Enabled(s, Advance(t, outFirst))
  {
    var sz := |s.slots|;
    match PcOf(s, t)
    case Reserve(item) =>
      s.(inn := s.inn + 1, items := s.items + [item], threads := s.threads[t := Run1(item, s.inn)])
    case Run1(item, k) =>
      s.(ran1 := s.ran1 + {k}, threads := s.threads[t := PlantLook(item, k)])
    case PlantLook(item, k) =>
      s.(threads := s.threads[t := if s.slots[SlotOf(s, k)].Some? then PlantLook(item, k)
                                   else PlantLoads(item, k, None, None)])
    case PlantLoads(item, k, inSeen, outSeen) =>
      var readsOut := inSeen.Some? || (outSeen.None? && outFirst);
      var inNow := if readsOut then inSeen else Some(s.inn);
      var outNow := if readsOut then Some(s.out) else outSeen;
      s.(threads := s.threads[t :=
        if inNow.None? || outNow.None? then PlantLoads(item, k, inNow, outNow)
        else if inNow.value - outNow.value > sz - 1 then PlantLook(item, k)
        else PlantCas(item, k)])
    case PlantCas(item, k) =>
      if s.slots[SlotOf(s, k)].None? then
        s.(slots := s.slots[SlotOf(s, k) := Some(item)], planted := s.planted + {k},
           threads := s.threads[t := DrainOut(k)])
      else
        s.(threads := s.threads[t := PlantLook(item, k)])
    case DrainOut(k) =>
      s.(threads := s.threads[t := if s.out == k then DrainSlot(k) else Idle])
    case DrainSlot(k) =>
      var tmp := s.slots[SlotOf(s, k)];
      s.(threads := s.threads[t := if tmp.None? then Idle
                                   else if k == 0 then DrainCas(k, tmp.value)
                                   else DrainPrev(k, tmp.value)])
    case DrainPrev(k, tmp) =>
      s.(threads := s.threads[t := if s.slots[SlotOf(s, k + sz - 1)].None? then DrainCas(k, tmp) else Idle])
    case DrainCas(k, tmp) =>
      if s.halfOut == k then
        s.(halfOut := k + 1, threads := s.threads[t := DrainClear(k, tmp)])
      else
        s.(threads := s.threads[t := Idle])
    case DrainClear(k, tmp) =>
      s.(slots := s.slots[SlotOf(s, k) := None], planted := s.planted - {k},
         threads := s.threads[t := DrainRun(k, tmp)])
    case DrainRun(k, tmp) =>
      s.(entered := s.entered + [tmp], threads := s.threads[t := DrainRunning(k, tmp)])
    case DrainRunning(k, tmp) =>
      s.(left := s.left + [tmp], threads := s.threads[t := DrainFinish(k)])
    case DrainFinish(k) =>
      s.(out := if s.out == k then k + 1 else s.out, threads := s.threads[t := DrainOut(k + 1)])
  }

  function Do(s: State, step: Step): State
    requires Enabled(s, step)
  {
    match step
    case Submit(t, item) => s.(threads := s.threads[t := Reserve(item)])
    case Advance(t, outFirst) => Advanced(s, t, outFirst)
  }

  function Exec(s: State, schedule: seq<Step>): Option<State>
    decreases |schedule|
  {
    if schedule == [] then Some(s)
    else if Enabled(s, schedule[0]) then Exec(Do(s, schedule[0]), schedule[1..])
    else None
  }

  // ---------------------------------------------------------------------------
  // The inductive invariant
  // ---------------------------------------------------------------------------

  // The thread holds ticket k and has not planted its item yet.
  predicate Holds(pc: Pc, k: Ticket) {
    (pc.Run1? || pc.PlantLook? || pc.PlantLoads? || pc.PlantCas?) && pc.k == k
  }

  // The thread has won the right to run ticket k.
  predicate Draining(pc: Pc, k: Ticket) {
    (pc.DrainClear? || pc.DrainRun? || pc.DrainRunning? || pc.DrainFinish?) && pc.k == k
  }

  // The thread is on its way to try to drain ticket k.
  predicate Trying(pc: Pc, k: Ticket) {
    (pc.DrainOut? || pc.DrainSlot? || pc.DrainPrev? || pc.DrainCas?) && pc.k == k
  }

  predicate Cleared(pc: Pc) {
    pc.DrainRun? || pc.DrainRunning? || pc.DrainFinish?
  }

  ghost predicate SomeHolds(threads: map<ThreadId, Pc>, k: Ticket) {
    exists t :: t in threads && Holds(threads[t], k)
  }

  ghost predicate SomeDrains(threads: map<ThreadId, Pc>, k: Ticket) {
    exists t :: t in threads && Draining(threads[t], k)
  }

  ghost predicate SomeTries(threads: map<ThreadId, Pc>, k: Ticket) {
    exists t :: t in threads && Trying(threads[t], k)
  }

  // What one thread knows.
  ghost predicate PcInv(s: State, pc: Pc) {
    && (pc.Run1? || pc.PlantLook? || pc.PlantLoads? || pc.PlantCas? ==>
          s.out <= pc.k < s.inn && pc.k !in s.planted && pc.k < |s.items| && s.items[pc.k] == pc.item
          && (pc.k == s.out ==> s.halfOut == s.out))
    && (pc.PlantLook? || pc.PlantLoads? || pc.PlantCas? ==> pc.k in s.ran1)
    && (pc.PlantLoads? ==>
          && (pc.inSeen.Some? ==> pc.k < pc.inSeen.value)
          && (pc.outSeen.Some? ==> pc.outSeen.value <= s.out))
    && (pc.PlantCas? ==> pc.k + 1 <= s.out + |s.slots| - 1)
    && (pc.DrainOut? ==> pc.k <= s.inn)
    && (pc.DrainSlot? || pc.DrainPrev? || pc.DrainCas? ==> pc.k <= s.out)
    && (pc.DrainPrev? || pc.DrainCas? ==>
          (s.halfOut == pc.k ==> pc.k in s.planted && pc.k < |s.items| && s.items[pc.k] == pc.tmp))
    && (pc.DrainClear? || pc.DrainRun? || pc.DrainRunning? || pc.DrainFinish? ==>
          pc.k == s.out && s.halfOut == s.out + 1 && pc.k < |s.items|)
    && (pc.DrainClear? || pc.DrainRun? || pc.DrainRunning? ==> s.items[pc.k] == pc.tmp)
    && (pc.DrainClear? ==> pc.k in s.planted)
    && (Cleared(pc) ==> pc.k !in s.planted)
    && (pc.DrainClear? || pc.DrainRun? ==> |s.entered| == s.out)
    && (pc.DrainRunning? || pc.DrainFinish? ==> |s.entered| == s.out + 1)
    && (pc.DrainClear? || pc.DrainRun? || pc.DrainRunning? ==> |s.left| == s.out)
    && (pc.DrainFinish? ==> |s.left| == s.out + 1)
  }

  // Planted tickets are in a window shorter than the array, and in their slots.
  ghost predicate SlotsInv(slots: seq<Option<Item>>, planted: set<Ticket>, items: seq<Item>, out: nat)
    requires |slots| > 0
  {
    && (forall k :: k in planted ==> out <= k <= out + |slots| - 2 && k < |items|)
    && (forall k :: k in planted ==> slots[k % |slots|] == Some(items[k]))
    && (forall i :: 0 <= i < |slots| && slots[i].Some? ==> exists k :: k in planted && k % |slots| == i)
  }

  ghost predicate CountersInv(s: State) {
    && s.out <= s.halfOut <= s.out + 1 && s.halfOut <= s.inn && |s.items| == s.inn
    && |s.entered| <= s.inn && s.entered == s.items[..|s.entered|]
    && |s.left| <= s.inn && s.left == s.items[..|s.left|]
    && (s.halfOut == s.out ==> |s.entered| == s.out && |s.left| == s.out)
    && (forall k :: 0 <= k < s.out || k in s.planted ==> k in s.ran1)
    && (forall k :: k in s.ran1 ==> k < s.inn)
    && (s.halfOut > s.out ==> s.out in s.ran1)
  }

  ghost predicate ThreadsInv(s: State) {
    && (forall t :: t in s.threads ==> PcInv(s, s.threads[t]))
    // tickets are private, and so is the right to drain
    && (forall t, u, k ::
          t in s.threads && u in s.threads && Holds(s.threads[t], k) && Holds(s.threads[u], k) ==> t == u)
    && (forall t, u, k ::
          t in s.threads && u in s.threads && Draining(s.threads[t], k) && Draining(s.threads[u], k) ==> t == u)
  }

  // Nothing is stranded: every ticket is accounted for, and the ticket at the out
  // end, once planted, always has a thread that will try to drain it.
  ghost predicate NotStranded(s: State) {
    && (forall k :: s.halfOut <= k < s.inn ==> k in s.planted || SomeHolds(s.threads, k))
    && (s.halfOut > s.out ==> SomeDrains(s.threads, s.out))
    && (s.halfOut == s.out && s.out in s.planted ==> SomeTries(s.threads, s.out))
  }

  ghost predicate Inv(s: State) {
    && |s.slots| > 0
    && CountersInv(s)
    && SlotsInv(s.slots, s.planted, s.items, s.out)
    && ThreadsInv(s)
    && NotStranded(s)
  }

  // ---------------------------------------------------------------------------
  // Every step keeps the invariant
  // ---------------------------------------------------------------------------

  // Enough to check the thread that moved, and what the others know.
  lemma ThreadsLift(s: State, s': State, t: ThreadId, pc: Pc)
    requires ThreadsInv(s) && s'.threads == s.threads[t := pc] && PcInv(s', pc)
    requires forall u :: u in s.threads && u != t ==> PcInv(s', s.threads[u])
    requires forall k :: Holds(pc, k) ==>
               (t in s.threads && Holds(s.threads[t], k)) || !SomeHolds(s.threads, k)
    requires forall k :: Draining(pc, k) ==>
               (t in s.threads && Draining(s.threads[t], k)) || !SomeDrains(s.threads, k)
    ensures ThreadsInv(s')
  {
  }

  // A witness among the other threads is still a witness, and so is the moved thread.
  lemma WitnessesKept(threads: map<ThreadId, Pc>, t: ThreadId, pc: Pc)
    ensures forall k ::
              SomeHolds(threads, k) && !(t in threads && Holds(threads[t], k)) ==> SomeHolds(threads[t := pc], k)
    ensures forall k ::
              SomeDrains(threads, k) && !(t in threads && Draining(threads[t], k)) ==> SomeDrains(threads[t := pc], k)
    ensures forall k ::
              SomeTries(threads, k) && !(t in threads && Trying(threads[t], k)) ==> SomeTries(threads[t := pc], k)
    ensures forall k :: Holds(pc, k) ==> SomeHolds(threads[t := pc], k)
    ensures forall k :: Draining(pc, k) ==> SomeDrains(threads[t := pc], k)
    ensures forall k :: Trying(pc, k) ==> SomeTries(threads[t := pc], k)
  {
    var after := threads[t := pc];
    assert t in after && after[t] == pc;
    assert forall u :: u in threads && u != t ==> u in after && after[u] == threads[u];
  }

  // The item found in the slot of the ticket at the out end is that ticket's item.
  lemma SlotHoldsOutTicket(s: State)
    requires |s.slots| > 0 && SlotsInv(s.slots, s.planted, s.items, s.out) && s.slots[SlotOf(s, s.out)].Some?
    ensures s.out in s.planted && s.slots[SlotOf(s, s.out)] == Some(s.items[s.out])
  {
    var k :| k in s.planted && k % |s.slots| == SlotOf(s, s.out);
    if s.out < k {
      NearbyDiffer(s.out, k, |s.slots|);
    }
  }

  // While _out is k the slot before k's is free, so that test never turns a drainer away.
  lemma PreviousSlotFree(s: State)
    requires |s.slots| > 0 && SlotsInv(s.slots, s.planted, s.items, s.out)
    ensures s.slots[SlotOf(s, s.out + |s.slots| - 1)].None?
  {
    var prev := s.out + |s.slots| - 1;
    if s.slots[SlotOf(s, prev)].Some? {
      var k :| k in s.planted && k % |s.slots| == SlotOf(s, prev);
      NearbyDiffer(k, prev, |s.slots|);
    }
  }

  lemma ReserveStep(s: State, t: ThreadId, f: bool)
    requires Inv(s) && Enabled(s, Advance(t, f)) && PcOf(s, t).Reserve?
    ensures Inv(Advanced(s, t, f))
  {
    var s' := Advanced(s, t, f);
    var pc := s'.threads[t];
    ThreadsLift(s, s', t, pc);
    WitnessesKept(s.threads, t, pc);
  }

  // Steps that change nothing but the thread's own counter.
  lemma LocalStep(s: State, t: ThreadId, pc: Pc)
    requires Inv(s) && t in s.threads && PcInv(s, pc)
    requires forall k :: Holds(pc, k) <==> Holds(s.threads[t], k)
    requires forall k :: Draining(pc, k) <==> Draining(s.threads[t], k)
    requires s.halfOut == s.out && s.out in s.planted && Trying(s.threads[t], s.out) ==> Trying(pc, s.out)
    ensures Inv(s.(threads := s.threads[t := pc]))
  {
    var s' := s.(threads := s.threads[t := pc]);
    forall u | u in s.threads
      ensures PcInv(s', s.threads[u])
    {
      assert PcInv(s, s.threads[u]);
    }
    assert PcInv(s', pc);
    ThreadsLift(s, s', t, pc);
    WitnessesKept(s.threads, t, pc);
  }

  lemma Run1Step(s: State, t: ThreadId, f: bool)
    requires Inv(s) && Enabled(s, Advance(t, f)) && PcOf(s, t).Run1?
    ensures Inv(Advanced(s, t, f))
  {
    var s' := Advanced(s, t, f);
    var pc := s'.threads[t];
    assert PcInv(s, s.threads[t]);
    ThreadsLift(s, s', t, pc);
    WitnessesKept(s.threads, t, pc);
  }

  lemma PlantedSlots(slots: seq<Option<Item>>, planted: set<Ticket>, items: seq<Item>, out: nat, k: Ticket)
    requires |slots| > 0 && SlotsInv(slots, planted, items, out)
    requires out <= k <= out + |slots| - 2 && k < |items| && slots[k % |slots|].None?
    ensures SlotsInv(slots[k % |slots| := Some(items[k])], planted + {k}, items, out)
  {
    var slots', planted' := slots[k % |slots| := Some(items[k])], planted + {k};
    assert forall j :: j in planted ==> slots'[j % |slots'|] == Some(items[j]);
    forall i | 0 <= i < |slots'| && slots'[i].Some?
      ensures exists j :: j in planted' && j % |slots'| == i
    {
      if i == k % |slots| {
        assert k in planted' && k % |slots'| == i;
      } else {
        var j :| j in planted && j % |slots| == i;
        assert j in planted' && j % |slots'| == i;
      }
    }
  }

  lemma PlantStep(s: State, t: ThreadId, f: bool)
    requires Inv(s) && Enabled(s, Advance(t, f)) && PcOf(s, t).PlantCas? && s.slots[SlotOf(s, PcOf(s, t).k)].None?
    ensures Inv(Advanced(s, t, f))
  {
    var s' := Advanced(s, t, f);
    var pc, k := s'.threads[t], s.threads[t].k;
    assert PcInv(s, s.threads[t]);
    forall u | u in s.threads && u != t
      ensures PcInv(s', s.threads[u])
    {
      assert PcInv(s, s.threads[u]);
      assert Holds(s.threads[t], k);
      assert !Holds(s.threads[u], k);
    }
    ThreadsLift(s, s', t, pc);
    PlantedSlots(s.slots, s.planted, s.items, s.out, k);
    WitnessesKept(s.threads, t, pc);
  }

  lemma DrainCasStep(s: State, t: ThreadId, f: bool)
    requires Inv(s) && Enabled(s, Advance(t, f)) && PcOf(s, t).DrainCas? && s.halfOut == PcOf(s, t).k
    ensures Inv(Advanced(s, t, f))
  {
    var s' := Advanced(s, t, f);
    var pc := s'.threads[t];
    assert PcInv(s, s.threads[t]);
    forall u | u in s.threads && u != t
      ensures PcInv(s', s.threads[u])
    {
      assert PcInv(s, s.threads[u]);
    }
    ThreadsLift(s, s', t, pc);
    WitnessesKept(s.threads, t, pc);
  }

  lemma DrainClearStep(s: State, t: ThreadId, f: bool)
    requires Inv(s) && Enabled(s, Advance(t, f)) && PcOf(s, t).DrainClear?
    ensures Inv(Advanced(s, t, f))
  {
    var s' := Advanced(s, t, f);
    var pc, k := s'.threads[t], s.threads[t].k;
    assert PcInv(s, s.threads[t]);
    forall u | u in s.threads && u != t
      ensures PcInv(s', s.threads[u])
    {
      assert PcInv(s, s.threads[u]);
      assert Draining(s.threads[t], k);
      assert !Draining(s.threads[u], k);
    }
    ThreadsLift(s, s', t, pc);
    assert SlotsInv(s'.slots, s'.planted, s'.items, s'.out) by {
      forall j | j in s'.planted
        ensures s'.slots[j % |s'.slots|] == Some(s'.items[j])
      {
        NearbyDiffer(k, j, |s.slots|);
      }
      forall i | 0 <= i < |s'.slots| && s'.slots[i].Some?
        ensures exists j :: j in s'.planted && j % |s'.slots| == i
      {
        var j :| j in s.planted && j % |s.slots| == i;
        assert j in s'.planted && j % |s'.slots| == i;
      }
    }
    WitnessesKept(s.threads, t, pc);
  }

  // Entering and leaving run2 by the one thread that may.
  lemma DrainRunStep(s: State, t: ThreadId, f: bool)
    requires Inv(s) && Enabled(s, Advance(t, f)) && (PcOf(s, t).DrainRun? || PcOf(s, t).DrainRunning?)
    ensures Inv(Advanced(s, t, f))
  {
    var s' := Advanced(s, t, f);
    var pc, k := s'.threads[t], s.threads[t].k;
    assert PcInv(s, s.threads[t]);
    forall u | u in s.threads && u != t
      ensures PcInv(s', s.threads[u])
    {
      assert PcInv(s, s.threads[u]);
      assert Draining(s.threads[t], k);
      assert !Draining(s.threads[u], k);
    }
    ThreadsLift(s, s', t, pc);
    WitnessesKept(s.threads, t, pc);
  }

  lemma DrainFinishStep(s: State, t: ThreadId, f: bool)
    requires Inv(s) && Enabled(s, Advance(t, f)) && PcOf(s, t).DrainFinish?
    ensures Inv(Advanced(s, t, f))
  {
    var s' := Advanced(s, t, f);
    var pc, k := s'.threads[t], s.threads[t].k;
    assert PcInv(s, s.threads[t]);
    forall u | u in s.threads && u != t
      ensures PcInv(s', s.threads[u])
    {
      assert PcInv(s, s.threads[u]);
      assert Draining(s.threads[t], k);
      assert !Draining(s.threads[u], k);
    }
    ThreadsLift(s, s', t, pc);
    WitnessesKept(s.threads, t, pc);
  }

  lemma StepKeepsInv(s: State, step: Step)
    requires Inv(s) && Enabled(s, step)
    ensures Inv(Do(s, step))
  {
    match step
    case Submit(t, item) => SubmitStep(s, t, item);
    case Advance(t, f) =>
      var s' := Do(s, step);
      assert PcInv(s, s.threads[t]);
      match s.threads[t]
      case Reserve(_) => ReserveStep(s, t, f);
      case Run1(_, _) => Run1Step(s, t, f);
      case PlantCas(_, k) =>
        if s.slots[SlotOf(s, k)].None? {
          PlantStep(s, t, f);
        } else {
          LocalStep(s, t, s'.threads[t]);
        }
      case DrainCas(k, _) =>
        if s.halfOut == k {
          DrainCasStep(s, t, f);
        } else {
          LocalStep(s, t, s'.threads[t]);
        }
      case DrainClear(_, _) => DrainClearStep(s, t, f);
      case DrainRun(_, _) => DrainRunStep(s, t, f);
      case DrainRunning(_, _) => DrainRunStep(s, t, f);
      case DrainFinish(_) => DrainFinishStep(s, t, f);
      case PlantLook(_, _) => PlantReadStep(s, t, f);
      case PlantLoads(_, _, _, _) => PlantReadStep(s, t, f);
      case _ => DrainReadStep(s, t, f);
  }

  lemma SubmitStep(s: State, t: ThreadId, item: Item)
    requires Inv(s) && Enabled(s, Submit(t, item))
    ensures Inv(Do(s, Submit(t, item)))
  {
    var s' := Do(s, Submit(t, item));
    var pc := Reserve(item);
    ThreadsLift(s, s', t, pc);
    WitnessesKept(s.threads, t, pc);
  }

  // The reading steps of the planting loop.
  lemma PlantReadStep(s: State, t: ThreadId, f: bool)
    requires Inv(s) && Enabled(s, Advance(t, f)) && (PcOf(s, t).PlantLook? || PcOf(s, t).PlantLoads?)
    ensures Inv(Advanced(s, t, f))
  {
    var pc := Advanced(s, t, f).threads[t];
    assert PcInv(s, s.threads[t]);
    assert PcInv(s, pc);
    assert Advanced(s, t, f) == s.(threads := s.threads[t := pc]);
    LocalStep(s, t, pc);
  }

  // The reading steps of the drain loop: what is read is true when it is read, and a
  // thread trying for the ticket at the out end, once planted, is never turned away.
  ghost predicate ReadsTrue(s: State, t: ThreadId, pc: Pc) {
    && t in s.threads && PcInv(s, pc)
    && (forall k :: Holds(pc, k) <==> Holds(s.threads[t], k))
    && (forall k :: Draining(pc, k) <==> Draining(s.threads[t], k))
    && (s.halfOut == s.out && s.out in s.planted && Trying(s.threads[t], s.out) ==> Trying(pc, s.out))
  }

  lemma DrainOutReadsTrue(s: State, t: ThreadId)
    requires Inv(s) && t in s.threads && s.threads[t].DrainOut?
    ensures var k := s.threads[t].k; ReadsTrue(s, t, if s.out == k then DrainSlot(k) else Idle)
  {
    assert PcInv(s, s.threads[t]);
  }

  lemma DrainSlotReadsTrue(s: State, t: ThreadId)
    requires Inv(s) && t in s.threads && s.threads[t].DrainSlot?
    ensures var k := s.threads[t].k;
            var tmp := s.slots[SlotOf(s, k)];
            var pc := if tmp.None? then Idle else if k == 0 then DrainCas(k, tmp.value) else DrainPrev(k, tmp.value);
            ReadsTrue(s, t, pc)
  {
    assert PcInv(s, s.threads[t]);
    if s.slots[SlotOf(s, s.out)].Some? {
      SlotHoldsOutTicket(s);
    }
  }

  lemma DrainPrevReadsTrue(s: State, t: ThreadId)
    requires Inv(s) && t in s.threads && s.threads[t].DrainPrev?
    ensures var DrainPrev(k, tmp) := s.threads[t];
            ReadsTrue(s, t, if s.slots[SlotOf(s, k + |s.slots| - 1)].None? then DrainCas(k, tmp) else Idle)
  {
    assert PcInv(s, s.threads[t]);
    PreviousSlotFree(s);
  }

  lemma DrainReadStep(s: State, t: ThreadId, f: bool)
    requires Inv(s) && Enabled(s, Advance(t, f))
    requires PcOf(s, t).DrainOut? || PcOf(s, t).DrainSlot? || PcOf(s, t).DrainPrev?
    ensures Inv(Advanced(s, t, f))
  {
    hide Inv, PcInv, Holds, Draining, Trying;
    match s.threads[t]
    case DrainOut(_) =>
      DrainOutReadsTrue(s, t);
      LocalStep(s, t, Advanced(s, t, f).threads[t]);
    case DrainSlot(_) =>
      DrainSlotReadsTrue(s, t);
      LocalStep(s, t, Advanced(s, t, f).threads[t]);
    case DrainPrev(_, _) =>
      DrainPrevReadsTrue(s, t);
      LocalStep(s, t, Advanced(s, t, f).threads[t]);
  }

  // ---------------------------------------------------------------------------
  // Whole runs
  // ---------------------------------------------------------------------------

  lemma {:induction false} ScheduleKeepsInv(s: State, schedule: seq<Step>)
    requires Inv(s) && Exec(s, schedule).Some?
    ensures Inv(Exec(s, schedule).value)
    decreases |schedule|
  {
    if schedule != [] {
      StepKeepsInv(s, schedule[0]);
      ScheduleKeepsInv(Do(s, schedule[0]), schedule[1..]);
    }
  }

  lemma Reachable(s0: State, schedule: seq<Step>, s: State)
    requires Init(s0) && Exec(s0, schedule) == Some(s)
    ensures Inv(s)
  {
    ScheduleKeepsInv(s0, schedule);
  }

  // At most one run2 is in progress, and it is for the ticket at the out end.
  lemma MutualExclusion(s0: State, schedule: seq<Step>, s: State, t: ThreadId, u: ThreadId)
    requires Init(s0) && Exec(s0, schedule) == Some(s)
    requires PcOf(s, t).DrainRunning? && PcOf(s, u).DrainRunning?
    ensures t == u && |s.entered| == |s.left| + 1
  {
    Reachable(s0, schedule, s);
    assert PcInv(s, s.threads[t]) && PcInv(s, s.threads[u]);
    assert Draining(s.threads[t], s.out) && Draining(s.threads[u], s.out);
  }

  // The run2 calls made so far are those of tickets 0, 1, 2, ... in that order, each
  // once and on that ticket's item, whichever threads made them; run1 came before.
  lemma TicketOrder(s0: State, schedule: seq<Step>, s: State)
    requires Init(s0) && Exec(s0, schedule) == Some(s)
    ensures |s.entered| <= |s.items| && s.entered == s.items[..|s.entered|]
    ensures |s.left| <= |s.entered| <= |s.left| + 1 && s.left == s.items[..|s.left|]
    ensures forall k :: 0 <= k < |s.entered| ==> k in s.ran1
  {
    Reachable(s0, schedule, s);
    if s.halfOut > s.out {
      var t :| t in s.threads && Draining(s.threads[t], s.out);
      assert PcInv(s, s.threads[t]);
    }
  }

  // ---- the submits of a schedule, and their tickets ----

  // The items that a schedule submits.
  function Submitted(schedule: seq<Step>): multiset<Item> {
    if schedule == [] then multiset{}
    else (if schedule[0].Submit? then multiset{schedule[0].item} else multiset{}) + Submitted(schedule[1..])
  }

  // The threads that have submitted x and are about to fetch a ticket for it.
  function Reserving(threads: map<ThreadId, Pc>, x: Item): set<ThreadId> {
    set t | t in threads && threads[t] == Reserve(x)
  }

  lemma ReservingMoves(threads: map<ThreadId, Pc>, t: ThreadId, pc: Pc, x: Item)
    ensures |Reserving(threads[t := pc], x)| ==
            |Reserving(threads, x)| - (if t in threads && threads[t] == Reserve(x) then 1 else 0)
            + (if pc == Reserve(x) then 1 else 0)
  {
    var was, now := Reserving(threads, x), Reserving(threads[t := pc], x);
    if pc == Reserve(x) {
      assert now == was + {t};
    } else {
      assert now == was - {t};
    }
  }

  // A submit is for its own item, and so is the ticket that is fetched for it.
  lemma StepSubmits(s: State, step: Step, x: Item)
    requires Enabled(s, step)
    ensures var s' := Do(s, step);
            multiset(s'.items)[x] + |Reserving(s'.threads, x)| ==
            multiset(s.items)[x] + |Reserving(s.threads, x)| + if step.Submit? && step.item == x then 1 else 0
  {
    var s' := Do(s, step);
    ReservingMoves(s.threads, step.t, s'.threads[step.t], x);
  }

  lemma {:induction false} ScheduleSubmits(s: State, schedule: seq<Step>, x: Item)
    requires Exec(s, schedule).Some?
    ensures var s' := Exec(s, schedule).value;
            multiset(s'.items)[x] + |Reserving(s'.threads, x)| ==
            multiset(s.items)[x] + |Reserving(s.threads, x)| + Submitted(schedule)[x]
    decreases |schedule|
  {
    if schedule != [] {
      hide Do, Enabled, Reserving;
      StepSubmits(s, schedule[0], x);
      ScheduleSubmits(Do(s, schedule[0]), schedule[1..], x);
    }
  }

  // Every interleaving: each item has as many tickets as it has been submitted, not counting
  // the submits that have not yet fetched theirs.
  lemma EverySubmitHasATicket(s0: State, schedule: seq<Step>, s: State, x: Item)
    requires Init(s0) && Exec(s0, schedule) == Some(s)
    ensures Submitted(schedule)[x] == multiset(s.items)[x] + |Reserving(s.threads, x)|
  {
    ScheduleSubmits(s0, schedule, x);
    assert Reserving(s0.threads, x) == {};
  }

  // The item that a thread runs run1 on, and plants, is that of its own ticket.
  lemma HoldsItsItem(s0: State, schedule: seq<Step>, s: State, t: ThreadId, k: Ticket)
    requires Init(s0) && Exec(s0, schedule) == Some(s) && Holds(PcOf(s, t), k)
    ensures k < |s.items| && s.items[k] == PcOf(s, t).item
  {
    Reachable(s0, schedule, s);
    assert PcInv(s, s.threads[t]);
  }

  // When no submit is in progress each item has been run as often as it was submitted, in
  // ticket order, and the buffer is empty: nothing is stranded.
  lemma NothingStranded(s0: State, schedule: seq<Step>, s: State)
    requires Init(s0) && Exec(s0, schedule) == Some(s)
    requires forall t :: PcOf(s, t).Idle?
    ensures s.out == s.inn && s.entered == s.left == s.items
    ensures multiset(s.entered) == multiset(s.left) == Submitted(schedule)
    ensures forall i :: 0 <= i < |s.slots| ==> s.slots[i].None?
  {
    Reachable(s0, schedule, s);
    assert forall t :: t in s.threads ==> PcOf(s, t).Idle?;
    assert !SomeDrains(s.threads, s.out) && !SomeTries(s.threads, s.out);
    assert !SomeHolds(s.threads, s.out);
    assert s.planted == {};
    AllSubmittedAreRun(s0, schedule, s);
  }

  lemma AllSubmittedAreRun(s0: State, schedule: seq<Step>, s: State)
    requires Init(s0) && Exec(s0, schedule) == Some(s)
    requires forall t :: t in s.threads ==> PcOf(s, t).Idle?
    ensures multiset(s.items) == Submitted(schedule)
  {
    forall x: Item
      ensures multiset(s.items)[x] == Submitted(schedule)[x]
    {
      EverySubmitHasATicket(s0, schedule, s, x);
      assert forall t :: t in s.threads ==> s.threads[t] == PcOf(s, t);
      assert Reserving(s.threads, x) == {};
    }
  }

  // With room for its ticket, a planter running on its own plants in four accesses.
  lemma PlantsWhenThereIsRoom(s: State, t: ThreadId, f: bool)
    requires Inv(s) && PcOf(s, t).PlantLook? && s.inn - s.out <= |s.slots| - 1
    ensures var PlantLook(item, k) := PcOf(s, t);
            Exec(s, [Advance(t, f), Advance(t, f), Advance(t, f), Advance(t, f)])
            == Some(At(s, t, DrainOut(k)).(slots := s.slots[SlotOf(s, k) := Some(item)], planted := s.planted + {k}))
  {
    var PlantLook(item, k) := PcOf(s, t);
    assert PcInv(s, s.threads[t]);
    OwnSlotFree(s, k);
    var step := Advance(t, f);
    ExecStep(s, step, [step, step, step]);
    LoadsAndCasPass(s, t, f, item, k);
  }

  lemma LoadsAndCasPass(s: State, t: ThreadId, f: bool, item: Item, k: Ticket)
    requires |s.slots| > 0 && s.inn - s.out <= |s.slots| - 1 && s.slots[SlotOf(s, k)].None?
    ensures Exec(At(s, t, PlantLoads(item, k, None, None)), [Advance(t, f), Advance(t, f), Advance(t, f)])
         == Some(At(s, t, DrainOut(k)).(slots := s.slots[SlotOf(s, k) := Some(item)], planted := s.planted + {k}))
  {
    var step := Advance(t, f);
    var s1 := At(s, t, PlantLoads(item, k, None, None));
    var pc2 := if f then PlantLoads(item, k, None, Some(s.out)) else PlantLoads(item, k, Some(s.inn), None);
    var s2 := At(s, t, pc2);
    var s3 := At(s, t, PlantCas(item, k));
    assert s1.threads[t := pc2] == s2.threads && s2.threads[t := PlantCas(item, k)] == s3.threads;
    assert s3.threads[t := DrainOut(k)] == s.threads[t := DrainOut(k)];
    ExecStep(s1, step, [step, step]);
    ExecStep(s2, step, [step]);
    ExecStep(s3, step, []);
  }

  function At(s: State, t: ThreadId, pc: Pc): State {
    s.(threads := s.threads[t := pc])
  }

  lemma ExecStep(s: State, step: Step, rest: seq<Step>)
    requires Enabled(s, step)
    ensures Exec(s, [step] + rest) == Exec(Do(s, step), rest)
  {
    assert ([step] + rest)[1..] == rest;
  }

  // No other ticket can be sitting in the slot of a ticket there is room for.
  lemma OwnSlotFree(s: State, k: Ticket)
    requires |s.slots| > 0 && SlotsInv(s.slots, s.planted, s.items, s.out)
    requires k !in s.planted && s.out <= k <= s.out + |s.slots| - 2
    ensures s.slots[SlotOf(s, k)].None?
  {
    if s.slots[SlotOf(s, k)].Some? {
      var j :| j in s.planted && j % |s.slots| == SlotOf(s, k);
      if j < k {
        NearbyDiffer(j, k, |s.slots|);
      } else {
        NearbyDiffer(k, j, |s.slots|);
      }
    }
  }

  // ---------------------------------------------------------------------------
  // A full buffer
  // ---------------------------------------------------------------------------

  // Thread t has the ticket at the out end and has not planted it, there are as many
  // tickets out as slots, and t has not yet passed the test for room.
  predicate Jammed(s: State, t: ThreadId) {
    && s.inn - s.out >= |s.slots|
    && match PcOf(s, t)
       case Run1(_, k) => k == s.out
       case PlantLook(_, k) => k == s.out
       case PlantLoads(_, k, inSeen, _) => k == s.out && (inSeen.Some? ==> inSeen.value - s.out >= |s.slots|)
       case _ => false
  }

  // Whoever steps, new submits included, the jam stays and _out does not move.
  lemma JamStays(s: State, step: Step, t: ThreadId)
    requires Inv(s) && Enabled(s, step) && Jammed(s, t)
    ensures Inv(Do(s, step)) && Jammed(Do(s, step), t) && Do(s, step).out == s.out
  {
    StepKeepsInv(s, step);
    JamKept(s, step, t);
  }

  lemma JamKept(s: State, step: Step, t: ThreadId)
    requires Inv(s) && Enabled(s, step) && Jammed(s, t)
    ensures Jammed(Do(s, step), t) && Do(s, step).out == s.out
  {
    assert PcInv(s, s.threads[t]) && Holds(s.threads[t], s.out);
    if step.Advance? && step.t != t {
      var u := s.threads[step.t];
      assert PcInv(s, u) && !Holds(u, s.out);
      hide Inv;
    }
  }

  lemma {:induction false} JamLasts(s: State, schedule: seq<Step>, t: ThreadId)
    requires Inv(s) && Jammed(s, t) && Exec(s, schedule).Some?
    ensures Exec(s, schedule).value.out == s.out
    decreases |schedule|
  {
    if schedule != [] {
      JamStays(s, schedule[0], t);
      JamLasts(Do(s, schedule[0]), schedule[1..], t);
    }
  }

  // Thread t is on its way to run the ticket at the out end.
  predicate OnItsWay(s: State, t: ThreadId) {
    && t in s.threads
    && var pc := s.threads[t];
       || (Holds(pc, s.out) && !Jammed(s, t))
       || (Trying(pc, s.out) && s.out in s.planted && s.halfOut == s.out)
       || Draining(pc, s.out)
  }

  // How far it is; what it has loaded may send it back to look again.
  function WayLeft(s: State, t: ThreadId): nat {
    match PcOf(s, t)
    case Run1(_, _) => 12
    case PlantLook(_, _) => 11
    case PlantLoads(_, _, inSeen, outSeen) =>
      var inNow := if inSeen.Some? then inSeen.value else s.inn;
      var outNow := if outSeen.Some? then outSeen.value else s.out;
      if inNow - outNow > |s.slots| - 1 then 13 + (if inSeen.None? && outSeen.None? then 1 else 0)
      else if inSeen.None? && outSeen.None? then 10 else 9
    case PlantCas(_, _) => 8
    case DrainOut(_) => 7
    case DrainSlot(_) => 6
    case DrainPrev(_, _) => 5
    case DrainCas(_, _) => 4
    case DrainClear(_, _) => 3
    case DrainRun(_, _) => 2
    case DrainRunning(_, _) => 1
    case _ => 0
  }

  lemma WhatIsKnown(s: State, t: ThreadId)
    requires Inv(s) && t in s.threads
    ensures PcInv(s, s.threads[t]) && |s.slots| > 0 && s.slots[SlotOf(s, s.out + |s.slots| - 1)].None?
    ensures s.out in s.planted ==> s.out < |s.items| && s.slots[SlotOf(s, s.out)] == Some(s.items[s.out])
    ensures s.out !in s.planted && |s.slots| > 1 ==> s.slots[SlotOf(s, s.out)].None?
  {
    PreviousSlotFree(s);
    if s.out !in s.planted && |s.slots| > 1 {
      OwnSlotFree(s, s.out);
    }
  }

  lemma HoldingStepOn(s: State, t: ThreadId)
    requires Inv(s) && OnItsWay(s, t) && Holds(s.threads[t], s.out) && |s.slots| > 0
    ensures var s' := Advanced(s, t, true); s'.out == s.out && OnItsWay(s', t) && WayLeft(s', t) < WayLeft(s, t)
  {
    WhatIsKnown(s, t);
    hide Inv;
  }

  lemma TryingStepOn(s: State, t: ThreadId)
    requires Inv(s) && OnItsWay(s, t) && Trying(s.threads[t], s.out) && s.out in s.planted && s.halfOut == s.out
    requires |s.slots| > 0
    ensures var s' := Advanced(s, t, true); s'.out == s.out && OnItsWay(s', t) && WayLeft(s', t) < WayLeft(s, t)
  {
    WhatIsKnown(s, t);
    hide Inv, PcInv;
  }

  lemma DrainingStepOn(s: State, t: ThreadId)
    requires Inv(s) && OnItsWay(s, t) && Draining(s.threads[t], s.out) && |s.slots| > 0
    ensures var s' := Advanced(s, t, true);
            if s.threads[t].DrainFinish? then s'.out == s.out + 1
            else s'.out == s.out && OnItsWay(s', t) && WayLeft(s', t) < WayLeft(s, t)
  {
    WhatIsKnown(s, t);
    hide Inv, PcInv;
  }

  lemma OneStepOn(s: State, t: ThreadId)
    requires Inv(s) && OnItsWay(s, t)
    ensures Enabled(s, Advance(t, true)) && Inv(Do(s, Advance(t, true)))
    ensures var s' := Do(s, Advance(t, true));
            if s.threads[t].DrainFinish? then s'.out == s.out + 1
            else s'.out == s.out && OnItsWay(s', t) && WayLeft(s', t) < WayLeft(s, t)
  {
    assert |s.slots| > 0 && !s.threads[t].Idle?;
    hide Inv, Advanced, WayLeft;
    StepKeepsInv(s, Advance(t, true));
    if Holds(s.threads[t], s.out) {
      HoldingStepOn(s, t);
    } else if Draining(s.threads[t], s.out) {
      DrainingStepOn(s, t);
    } else {
      TryingStepOn(s, t);
    }
  }

  lemma {:induction false} GetsThere(s: State, t: ThreadId) returns (schedule: seq<Step>)
    requires Inv(s) && OnItsWay(s, t)
    ensures Exec(s, schedule).Some? && Exec(s, schedule).value.out == s.out + 1
    decreases WayLeft(s, t)
  {
    hide OnItsWay, WayLeft, Inv, Do;
    var step := Advance(t, true);
    OneStepOn(s, t);
    ExecStep(s, step, []);
    schedule := [step] + [];
    if !s.threads[t].DrainFinish? {
      var rest := GetsThere(Do(s, step), t);
      ExecStep(s, step, rest);
      schedule := [step] + rest;
    }
  }

  // As long as the ticket at the out end is not planted, _out can move again if and only
  // if its holder is not jammed.
  lemma StuckExactlyWhenJammed(s0: State, schedule: seq<Step>, s: State, t: ThreadId)
    requires Init(s0) && Exec(s0, schedule) == Some(s) && Holds(PcOf(s, t), s.out)
    ensures Jammed(s, t) <==> forall more :: Exec(s, more).Some? ==> Exec(s, more).value.out == s.out
  {
    Reachable(s0, schedule, s);
    if Jammed(s, t) {
      forall more | Exec(s, more).Some?
        ensures Exec(s, more).value.out == s.out
      {
        JamLasts(s, more, t);
      }
    } else {
      var more := GetsThere(s, t);
      assert Exec(s, more).Some?;
    }
  }

  // It comes to that if as many threads as there are slots reserve before one plants.
  lemma {:induction false} JamIsReachable(s: State, t: ThreadId) returns (schedule: seq<Step>, s': State)
    requires |s.slots| > 0 && s.inn == t <= |s.slots| && s.out == 0 && forall u :: u >= t ==> PcOf(s, u).Idle?
    requires t > 0 ==> PcOf(s, 0) == Run1(0, 0)
    ensures Exec(s, schedule) == Some(s') && Jammed(s', 0)
    decreases |s.slots| - t
  {
    if t == |s.slots| {
      schedule, s' := [], s;
    } else {
      var s1 := Do(s, Submit(t, 0));
      var s2 := Do(s1, Advance(t, true));
      assert forall u :: u > t ==> PcOf(s2, u) == PcOf(s, u);
      var rest;
      rest, s' := JamIsReachable(s2, t + 1);
      ExecStep(s1, Advance(t, true), rest);
      ExecStep(s, Submit(t, 0), [Advance(t, true)] + rest);
      schedule := [Submit(t, 0)] + ([Advance(t, true)] + rest);
    }
  }
}
