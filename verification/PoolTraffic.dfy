/**
 * What the calls of the memory pool achieve: put hands a block back, to the caller's own
 * free list, into a mailbox, or to the heap; get returns one block to each call, and finds
 * the blocks that have been mailed home.
 */
module PoolTraffic {
  import opened Basics
  import opened MemoryPool

  // ---------------------------------------------------------------------------
  // What clients hold
  // ---------------------------------------------------------------------------

  // A client gains just what get returns and loses just what it puts.
  lemma HeldExactly(s: State, step: Step)
    requires Enabled(s, step)
    ensures Do(s, step).held ==
            if step.CallPut? then s.held - {step.b}
            else if Returned(s, step).Some? then s.held + {Returned(s, step).value}
            else s.held
  {
    if step.Advance? {
      AdvanceReturns(s, step.t, step.heapId);
    }
  }

  // A get hands out its block at its end; nothing else in a call changes what clients hold.
  lemma AdvanceReturns(s: State, t: ThreadId, heapId: nat)
    requires Enabled(s, Advance(t, heapId))
    ensures var s', r := Advanced(s, t, heapId), Returned(s, Advance(t, heapId));
            && s'.held == (if r.Some? then s.held + {r.value} else s.held)
            && |s'.pcs| == s.threads && (r.Some? ==> s'.pcs[t] == Idle && Getting(s.pcs[t]))
            && (r.None? ==> (Getting(s'.pcs[t]) <==> Getting(s.pcs[t])))
  {
    var pc := s.pcs[t];
    if AtShared(pc) {
      SharedReturns(s, t, heapId);
    } else if pc.GetLocal? {
      LocalReturns(s, t);
    } else if pc.PushTest? || pc.PushLink? || pc.PushHead? || pc.PushTail? {
      PushHandsNothing(s, t);
    } else {
      PullHandsNothing(s, t);
    }
  }

  lemma SharedReturns(s: State, t: ThreadId, heapId: nat)
    requires Enabled(s, Advance(t, heapId)) && AtShared(s.pcs[t])
    ensures var s', r := Advanced(s, t, heapId), Returned(s, Advance(t, heapId));
            && s'.held == (if r.Some? then s.held + {r.value} else s.held)
            && |s'.pcs| == s.threads && (r.Some? ==> s'.pcs[t] == Idle && Getting(s.pcs[t]))
            && (r.None? ==> (Getting(s'.pcs[t]) <==> Getting(s.pcs[t])))
  {
    hide Pulled, Pushed, GotLocal, Getting;
    SharedNext(s, t, heapId);
  }

  lemma SharedNext(s: State, t: ThreadId, heapId: nat)
    requires Enabled(s, Advance(t, heapId)) && AtShared(s.pcs[t])
    ensures var pc, pcs := s.pcs[t], Advanced(s, t, heapId).pcs;
            && |pcs| == s.threads && (Getting(pcs[t]) <==> Getting(pc) && !pc.Malloc?)
            && (pc.Malloc? ==> Getting(pc))
  {
    var next := Advanced(s, t, heapId).pcs[t];
    match s.pcs[t]
    case CollectTouch => assert next.Malloc? || next.PullHead?;
    case CollectDone(_) => assert next.Malloc? || next.GetLocal?;
    case Malloc => assert next.Idle?;
    case TouchRead(_, _) => assert next.TouchWrite?;
    case TouchWrite(_, _) => assert next.Idle?;
  }

  lemma LocalReturns(s: State, t: ThreadId)
    requires Enabled(s, Advance(t, 0)) && s.pcs[t].GetLocal?
    ensures var s', r := GotLocal(s, t), Returned(s, Advance(t, 0));
            && s'.held == (if r.Some? then s.held + {r.value} else s.held)
            && |s'.pcs| == s.threads && if r.Some? then s'.pcs[t] == Idle else Getting(s'.pcs[t])
  {
    hide ListAt, NextOf;
  }

  lemma PushHandsNothing(s: State, t: ThreadId)
    requires Shaped(s) && t < s.threads
    requires var pc := s.pcs[t];
             (pc.PushTest? || pc.PushLink? || pc.PushHead? || pc.PushTail?) && pc.b.Pooled?
    ensures var s' := Pushed(s, t);
            s'.held == s.held && |s'.pcs| == s.threads && !Getting(s'.pcs[t])
  {
  }

  lemma PullHandsNothing(s: State, t: ThreadId)
    requires Shaped(s) && t < s.threads
    requires var pc := s.pcs[t]; pc.PullHead? || pc.PullNext? || pc.PullCut? || pc.PullTail? || pc.Splice?
    ensures var s' := Pulled(s, t);
            s'.held == s.held && |s'.pcs| == s.threads && Getting(s'.pcs[t])
  {
    if s.pcs[t].Splice? || s.pcs[t].PullCut? {
      MovedHandsNothing(s, t);
    }
    assert Pulled(s, t).held == s.held;
  }

  lemma MovedHandsNothing(s: State, t: ThreadId)
    requires Shaped(s) && t < s.threads && (s.pcs[t].PullCut? || s.pcs[t].Splice?)
    ensures var s' := Pulled(s, t); s'.held == s.held && |s'.pcs| == s.threads && Getting(s'.pcs[t])
  {
    hide ListAt, Position, Moved;
  }

  predicate Getting(pc: Pc) {
    || pc.GetLocal? || pc.CollectTouch? || pc.PullHead? || pc.PullNext? || pc.PullCut? || pc.PullTail?
    || pc.Splice? || pc.CollectDone? || pc.Malloc? || pc.Failed?
  }

  // How often a schedule has t call get, and how often that returns a block.
  function GetCalls(schedule: seq<Step>, t: ThreadId): nat {
    if schedule == [] then 0 else (if schedule[0] == CallGet(t) then 1 else 0) + GetCalls(schedule[1..], t)
  }

  function GetReturns(s: State, schedule: seq<Step>, t: ThreadId): nat
    requires Exec(s, schedule).Some?
    decreases |schedule|
  {
    if schedule == [] then 0
    else (if schedule[0].t == t && Returned(s, schedule[0]).Some? then 1 else 0)
         + GetReturns(Do(s, schedule[0]), schedule[1..], t)
  }

  function InGet(s: State, t: ThreadId): nat {
    if t < |s.pcs| && Getting(s.pcs[t]) then 1 else 0
  }

  lemma StepGets(s: State, step: Step, t: ThreadId)
    requires Enabled(s, step)
    ensures InGet(Do(s, step), t) + (if step.t == t && Returned(s, step).Some? then 1 else 0) ==
            InGet(s, t) + if step == CallGet(t) then 1 else 0
  {
    OthersUntouched(s, step);
    if step.Advance? {
      AdvanceReturns(s, step.t, step.heapId);
    }
  }

  lemma {:induction false} ScheduleGets(s: State, schedule: seq<Step>, t: ThreadId)
    requires Exec(s, schedule).Some?
    ensures InGet(Exec(s, schedule).value, t) + GetReturns(s, schedule, t) == InGet(s, t) + GetCalls(schedule, t)
    decreases |schedule|
  {
    if schedule != [] {
      StepGets(s, schedule[0], t);
      ScheduleGets(Do(s, schedule[0]), schedule[1..], t);
    }
  }

  // For every interleaving: each get of each thread has returned one block, or goes on.
  lemma EveryGetReturnsOnce(init: State, schedule: seq<Step>, s: State, t: ThreadId)
    requires Init(init) && Exec(init, schedule) == Some(s)
    ensures GetCalls(schedule, t) == GetReturns(init, schedule, t) + InGet(s, t)
  {
    ScheduleGets(init, schedule, t);
    assert InGet(init, t) == 0;
  }

  // ---------------------------------------------------------------------------
  // Put
  // ---------------------------------------------------------------------------

  lemma PutHeap(s: State, t: ThreadId, b: Block)
    requires Enabled(s, CallPut(t, b)) && b.Heap?
    ensures Do(s, CallPut(t, b)) == s.(held := s.held - {b})
  {
  }

  // A schedule in which t does not step.
  predicate WithoutIt(schedule: seq<Step>, t: ThreadId) {
    forall i :: 0 <= i < |schedule| ==> schedule[i].t != t
  }

  lemma {:induction false} OthersKeepFree(s: State, schedule: seq<Step>, t: ThreadId)
    requires Exec(s, schedule).Some? && WithoutIt(schedule, t) && Shaped(s) && t < s.threads
    ensures var s' := Exec(s, schedule).value;
            Shaped(s') && s'.threads == s.threads && s'.pcs[t] == s.pcs[t] && s'.freeHead[t] == s.freeHead[t]
    decreases |schedule|
  {
    if schedule != [] {
      OthersUntouched(s, schedule[0]);
      OthersKeepFree(Do(s, schedule[0]), schedule[1..], t);
    }
  }

  // A block put by its owner is the first of the owner's free list ...
  lemma PutOwnIsFirst(s: State, t: ThreadId, b: Block)
    requires Inv(s) && Enabled(s, CallPut(t, b)) && b.Pooled? && b.owner == t
    ensures var s' := Do(s, CallPut(t, b));
            && Inv(s') && b !in s'.held && s'.pcs[t] == Idle && s'.freeHead[t] == Some(b)
            && ListAt(s'.lists, FreeList(t)) == [b] + ListAt(s.lists, FreeList(t))
  {
    StepKeepsInv(s, CallPut(t, b));
  }

  // ... and the next get of its owner returns it, whatever other threads do meanwhile.
  lemma PutThenGet(s: State, t: ThreadId, b: Block, a: seq<Step>, s1: State, c: seq<Step>, s2: State, heapId: nat)
    requires Inv(s) && Enabled(s, CallPut(t, b)) && b.Pooled? && b.owner == t
    requires WithoutIt(a, t) && WithoutIt(c, t) && Exec(Do(s, CallPut(t, b)), a) == Some(s1)
    requires Enabled(s1, CallGet(t)) && Exec(Do(s1, CallGet(t)), c) == Some(s2)
    ensures Enabled(s2, Advance(t, heapId)) && Returned(s2, Advance(t, heapId)) == Some(b)
  {
    PutOwnIsFirst(s, t, b);
    OthersKeepFree(Do(s, CallPut(t, b)), a, t);
    OthersKeepFree(Do(s1, CallGet(t)), c, t);
  }

  // How many steps of its own t takes in a call.
  function OwnSteps(schedule: seq<Step>, t: ThreadId): nat {
    if schedule == [] then 0
    else (if schedule[0].Advance? && schedule[0].t == t then 1 else 0) + OwnSteps(schedule[1..], t)
  }

  // t has taken n steps of putting b, a block of another thread.
  predicate PuttingAt(pc: Pc, b: Block, n: nat) {
    && b.Pooled?
    && match pc
       case PushTest(x) => n == 0 && x == b
       case PushLink(x, res) => n == 1 && x == b && !res
       case PushHead(x, res) => n == 2 && x == b && !res
       case TouchRead(dst, res) => n == 3 && dst == b.owner && !res
       case TouchWrite(dst, v) => n == 4 && dst == b.owner && !v
       case _ => false
  }

  ghost predicate Putting(s: State, t: ThreadId, b: Block, n: nat) {
    Inv(s) && t < s.threads && b.Pooled? && b.owner < s.threads && PuttingAt(s.pcs[t], b, n)
  }

  lemma PuttingMovesOn(s: State, step: Step, t: ThreadId, b: Block, n: nat)
    requires Putting(s, t, b, n) && Enabled(s, step)
    ensures var s' := Do(s, step);
            if step.t == t && step.Advance? then
              if n == 4 then Inv(s') && s'.threads == s.threads && s'.pcs[t].Idle? else Putting(s', t, b, n + 1)
            else Putting(s', t, b, n)
  {
    StepKeepsInv(s, step);
    OthersUntouched(s, step);
    if step.t == t {
      PutterStep(s, step, t, b, n);
    }
    hide Inv, OneBox, Do, PuttingAt;
  }

  lemma PutterStep(s: State, step: Step, t: ThreadId, b: Block, n: nat)
    requires Putting(s, t, b, n) && Enabled(s, step) && step.t == t
    ensures var s' := Do(s, step);
            && Shaped(s') && s'.threads == s.threads
            && if step.Join? then s'.pcs == s.pcs
               else step.Advance? && if n == 4 then s'.pcs[t].Idle? else PuttingAt(s'.pcs[t], b, n + 1)
  {
    assert OneThread(s, t);
    if step.Advance? {
      if AtShared(s.pcs[t]) {
      } else {
        PusherStep(s, t, b, n);
      }
    }
  }

  lemma PusherStep(s: State, t: ThreadId, b: Block, n: nat)
    requires Putting(s, t, b, n) && n <= 2
    ensures s.pcs[t].PushTest? || s.pcs[t].PushLink? || s.pcs[t].PushHead?
    ensures var s' := Pushed(s, t);
            Shaped(s') && s'.threads == s.threads && PuttingAt(s'.pcs[t], b, n + 1)
  {
    assert OneThread(s, t);
    assert OneBox(s, t, b.owner);
    hide Inv, OneBox, ListAt;
  }

  lemma {:induction false} PuttingRun(s: State, schedule: seq<Step>, t: ThreadId, b: Block, n: nat)
    requires Putting(s, t, b, n) && Exec(s, schedule).Some? && n + OwnSteps(schedule, t) <= 4
    ensures Putting(Exec(s, schedule).value, t, b, n + OwnSteps(schedule, t))
    decreases |schedule|
  {
    hide Putting, Do, Enabled, Inv, Shaped;
    if schedule != [] {
      PuttingMovesOn(s, schedule[0], t, b, n);
      var mine := if schedule[0].Advance? && schedule[0].t == t then 1 else 0;
      PuttingRun(Do(s, schedule[0]), schedule[1..], t, b, n + mine);
    }
  }

  // The third step of its own that the putter takes, whatever others do in between, brings
  // the block to the front of the mailbox to its owner.
  lemma PutDelivers(s: State, t: ThreadId, b: Block, schedule: seq<Step>, s1: State, heapId: nat)
    requires Inv(s) && Enabled(s, CallPut(t, b)) && b.Pooled? && b.owner != t
    requires Exec(Do(s, CallPut(t, b)), schedule) == Some(s1) && OwnSteps(schedule, t) == 2
    ensures Enabled(s1, Advance(t, heapId))
    ensures var s2, box := Do(s1, Advance(t, heapId)), Box(t, b.owner);
            && ListAt(s2.lists, box) == [b] + ListAt(s1.lists, box) && HeadOf(s2, t, b.owner) == Some(b)
            && b in s2.place && s2.place[b] == box && s2.held == s1.held
  {
    PutBegins(s, t, b, schedule, s1);
    assert OneThread(s1, t);
  }

  // From the call until then the block is with nobody, in no list and with no client.
  lemma PutBegins(s: State, t: ThreadId, b: Block, schedule: seq<Step>, s1: State)
    requires Inv(s) && Enabled(s, CallPut(t, b)) && b.Pooled? && b.owner != t
    requires Exec(Do(s, CallPut(t, b)), schedule) == Some(s1) && OwnSteps(schedule, t) <= 4
    ensures Putting(s1, t, b, OwnSteps(schedule, t))
    ensures OwnSteps(schedule, t) <= 2 ==> b !in s1.held && forall p :: IsList(p) ==> b !in ListAt(s1.lists, p)
  {
    hide Inv, PuttingAt, Putting, Do, Enabled, IsList, ListAt, Shaped, Exec, OwnSteps;
    PutStarts(s, t, b);
    PuttingRun(Do(s, CallPut(t, b)), schedule, t, b, 0);
    if OwnSteps(schedule, t) <= 2 {
      WithThePutter(s1, t, b, OwnSteps(schedule, t));
    }
  }

  lemma PutStarts(s: State, t: ThreadId, b: Block)
    requires Inv(s) && Enabled(s, CallPut(t, b)) && b.Pooled? && b.owner != t
    ensures Putting(Do(s, CallPut(t, b)), t, b, 0)
  {
    StepKeepsInv(s, CallPut(t, b));
    hide Inv;
  }

  lemma WithThePutter(s: State, t: ThreadId, b: Block, n: nat)
    requires Putting(s, t, b, n) && n <= 2
    ensures b !in s.held && forall p :: IsList(p) ==> b !in ListAt(s.lists, p)
  {
    assert OneThread(s, t);
    InNoList(s, t, b);
  }

  lemma InNoList(s: State, t: ThreadId, b: Block)
    requires Inv(s) && b.Pooled? && b in s.place && s.place[b] == Pushing(t)
    ensures b !in s.held && forall p :: IsList(p) ==> b !in ListAt(s.lists, p)
  {
  }

  // The fifth ends the call, and leaves word with the owner that there is mail.
  lemma PutNotifies(s: State, t: ThreadId, b: Block, schedule: seq<Step>, s1: State, heapId: nat)
    requires Inv(s) && Enabled(s, CallPut(t, b)) && b.Pooled? && b.owner != t
    requires Exec(Do(s, CallPut(t, b)), schedule) == Some(s1) && OwnSteps(schedule, t) == 4
    ensures Enabled(s1, Advance(t, heapId))
    ensures var s2 := Do(s1, Advance(t, heapId));
            Shaped(s2) && t < s2.threads && b.owner < s2.threads && s2.pcs[t].Idle? && !s2.touch[b.owner]
  {
    PutBegins(s, t, b, schedule, s1);
  }

  // ---------------------------------------------------------------------------
  // A get finds what has been mailed home
  // ---------------------------------------------------------------------------

  // Besides the block that always stays, there is mail from i for t.
  predicate Mail(s: State, i: ThreadId, t: ThreadId) {
    |ListAt(s.lists, Box(i, t))| >= 2
  }

  // No sender is about to put up the flag that keeps an owner from collecting.
  predicate FlagsGoDown(s: State) {
    forall u :: 0 <= u < |s.pcs| ==>
      (s.pcs[u].TouchRead? ==> !s.pcs[u].res) && (s.pcs[u].TouchWrite? ==> !s.pcs[u].v)
  }

  lemma FlagsStillGoDown(s: State, step: Step)
    requires Inv(s) && FlagsGoDown(s) && Enabled(s, step)
    ensures FlagsGoDown(Do(s, step))
  {
    OthersUntouched(s, step);
    assert step.t < s.threads ==> OneThread(s, step.t);
    OwnFlagGoesDown(s, step);
    hide Inv, Do;
  }

  lemma OwnFlagGoesDown(s: State, step: Step)
    requires FlagsGoDown(s) && Enabled(s, step) && OneThread(s, step.t)
    ensures var pcs := Do(s, step).pcs;
            && step.t < |pcs|
            && (pcs[step.t].TouchRead? ==> !pcs[step.t].res) && (pcs[step.t].TouchWrite? ==> !pcs[step.t].v)
  {
    if step.Advance? {
      AdvanceFlag(s, step.t, step.heapId);
    }
  }

  lemma AdvanceFlag(s: State, t: ThreadId, heapId: nat)
    requires FlagsGoDown(s) && Enabled(s, Advance(t, heapId)) && OneThread(s, t)
    ensures var pcs := Advanced(s, t, heapId).pcs;
            && |pcs| == s.threads
            && (pcs[t].TouchRead? ==> !pcs[t].res) && (pcs[t].TouchWrite? ==> !pcs[t].v)
  {
    hide FlagsGoDown, OneThread, GotLocal, Pulled, Pushed;
    var pc := s.pcs[t];
    if AtShared(pc) {
      SharedFlag(s, t, heapId);
    } else if pc.GetLocal? {
      LocalReturns(s, t);
    } else if pc.PushTest? || pc.PushLink? || pc.PushHead? || pc.PushTail? {
      PushFlag(s, t);
    } else {
      PullHandsNothing(s, t);
    }
  }

  lemma SharedFlag(s: State, t: ThreadId, heapId: nat)
    requires Enabled(s, Advance(t, heapId)) && AtShared(s.pcs[t]) && FlagsGoDown(s)
    ensures var pcs := Advanced(s, t, heapId).pcs;
            && |pcs| == s.threads
            && (pcs[t].TouchRead? ==> !pcs[t].res) && (pcs[t].TouchWrite? ==> !pcs[t].v)
  {
    var next := Advanced(s, t, heapId).pcs[t];
    match s.pcs[t]
    case CollectTouch => assert next.Malloc? || next.PullHead?;
    case CollectDone(_) => assert next.Malloc? || next.GetLocal?;
    case Malloc => assert next.Idle?;
    case TouchRead(dst, res) => assert next == TouchWrite(dst, s.touch[dst] && res);
    case TouchWrite(_, _) => assert next.Idle?;
  }

  lemma PushFlag(s: State, t: ThreadId)
    requires Shaped(s) && t < s.threads && OneThread(s, t)
    requires var pc := s.pcs[t];
             (pc.PushTest? || pc.PushLink? || pc.PushHead? || pc.PushTail?) && pc.b.Pooled?
    ensures var pcs := Pushed(s, t).pcs;
            |pcs| == s.threads && !pcs[t].TouchWrite? && (pcs[t].TouchRead? ==> !pcs[t].res)
  {
  }

  // q' is q, perhaps with a block before it.
  ghost predicate Grown(q: seq<Block>, q': seq<Block>) {
    q' == q || (|q'| == |q| + 1 && q'[1..] == q)
  }

  // What other threads do to t's mailboxes and flag.
  lemma OthersOnlyMail(s: State, step: Step, i: ThreadId, t: ThreadId)
    requires Shaped(s) && FlagsGoDown(s) && Enabled(s, step) && step.t != t && t < s.threads
    ensures Grown(ListAt(s.lists, Box(i, t)), ListAt(Do(s, step).lists, Box(i, t)))
    ensures Shaped(Do(s, step)) && Do(s, step).threads == s.threads
    ensures Do(s, step).touch[t] ==> s.touch[t]
    ensures Do(s, step).numThreads >= s.numThreads
  {
    OthersUntouched(s, step);
    if step.Advance? {
      var pc, u := s.pcs[step.t], step.t;
      if AtShared(pc) {
        SharedSparesBoxes(s, step, t);
      } else if pc.GetLocal? {
        LocalSparesBoxes(s, u, i, t);
      } else if pc.PushTest? || pc.PushLink? || pc.PushHead? || pc.PushTail? {
        PushGrowsBox(s, u, i, t);
      } else {
        PullSparesBoxes(s, u, i, t);
      }
    }
  }

  lemma SharedSparesBoxes(s: State, step: Step, t: ThreadId)
    requires Shaped(s) && FlagsGoDown(s) && Enabled(s, step) && step.Advance? && AtShared(s.pcs[step.t])
    requires step.t != t && t < s.threads
    ensures var s' := Advanced(s, step.t, step.heapId);
            && s'.lists == s.lists && |s'.touch| == s.threads && (s'.touch[t] ==> s.touch[t])
            && s'.numThreads == s.numThreads
  {
    match s.pcs[step.t]
    case CollectTouch =>
    case CollectDone(_) =>
    case Malloc =>
    case TouchRead(_, _) =>
    case TouchWrite(dst, v) => assert !v;
  }

  lemma LocalSparesBoxes(s: State, u: ThreadId, i: ThreadId, t: ThreadId)
    requires Shaped(s) && u < s.threads && s.pcs[u].GetLocal?
    ensures var s' := GotLocal(s, u);
            && ListAt(s'.lists, Box(i, t)) == ListAt(s.lists, Box(i, t))
            && s'.touch == s.touch && s'.numThreads == s.numThreads
  {
  }

  lemma PushGrowsBox(s: State, u: ThreadId, i: ThreadId, t: ThreadId)
    requires Shaped(s) && u < s.threads
    requires var pc := s.pcs[u];
             (pc.PushTest? || pc.PushLink? || pc.PushHead? || pc.PushTail?) && pc.b.Pooled?
    ensures var s' := Pushed(s, u);
            && Grown(ListAt(s.lists, Box(i, t)), ListAt(s'.lists, Box(i, t)))
            && s'.touch == s.touch && s'.numThreads == s.numThreads
  {
  }

  lemma PullSparesBoxes(s: State, u: ThreadId, i: ThreadId, t: ThreadId)
    requires Shaped(s) && u < s.threads && u != t
    requires var pc := s.pcs[u]; pc.PullHead? || pc.PullNext? || pc.PullCut? || pc.PullTail? || pc.Splice?
    ensures var s' := Pulled(s, u);
            && ListAt(s'.lists, Box(i, t)) == ListAt(s.lists, Box(i, t))
            && s'.touch == s.touch && s'.numThreads == s.numThreads
  {
    if s.pcs[u].PullCut? {
      CutSparesBoxes(s, u, i, t);
    }
  }

  lemma CutSparesBoxes(s: State, u: ThreadId, i: ThreadId, t: ThreadId)
    requires Shaped(s) && u < s.threads && u != t && s.pcs[u].PullCut?
    ensures var s' := Pulled(s, u);
            && ListAt(s'.lists, Box(i, t)) == ListAt(s.lists, Box(i, t))
            && s'.touch == s.touch && s'.numThreads == s.numThreads
  {
    hide Position, Moved;
  }

  // The get of t is bound to find a block: it has one, or it is on its way to a mailbox i
  // that has mail, or behind the block that it read there.
  ghost predicate WillFind(s: State, t: ThreadId, i: ThreadId)
    requires Shaped(s) && t < s.threads
  {
    match s.pcs[t]
    case GetLocal(again) => s.freeHead[t].Some? || (!again && !s.touch[t] && Mail(s, i, t))
    case CollectTouch => !s.touch[t] && Mail(s, i, t)
    case PullHead(j, got) => got || (j <= i && Mail(s, i, t))
    case PullNext(j, got, h) => got || (j < i && Mail(s, i, t)) || (j == i && !IsLast(ListAt(s.lists, Box(i, t)), h))
    case PullCut(j, got, _, hn) => got || (j < i && Mail(s, i, t)) || (j == i && hn.Some?)
    case PullTail(j, got, _, hn) => got || (j < i && Mail(s, i, t)) || (j == i && hn.Some?)
    case Splice(_, _, _, _) => true
    case CollectDone(got) => got
    case _ => false
  }

  predicate IsLast(q: seq<Block>, h: Option<Block>) {
    q != [] && h == Some(q[|q| - 1])
  }

  // While t gets a block, this is so.
  ghost predicate Finding(s: State, t: ThreadId, i: ThreadId) {
    Inv(s) && NoFailure(s) && FlagsGoDown(s) && t < s.threads && i < s.numThreads && WillFind(s, t, i)
  }

  lemma OthersKeepFinding(s: State, step: Step, t: ThreadId, i: ThreadId)
    requires Finding(s, t, i) && Enabled(s, step) && step.t != t
    ensures Finding(Do(s, step), t, i)
  {
    hide Inv, NoFailure, FlagsGoDown, Do, Enabled, WillFind;
    StepKeepsInv(s, step);
    StepKeepsNoFailure(s, step);
    FlagsStillGoDown(s, step);
    OthersKeepWillFind(s, step, t, i);
  }

  lemma OthersKeepWillFind(s: State, step: Step, t: ThreadId, i: ThreadId)
    requires Finding(s, t, i) && Enabled(s, step) && step.t != t
    ensures var s' := Do(s, step);
            Shaped(s') && t < s'.threads && s'.numThreads >= s.numThreads && WillFind(s', t, i)
  {
    hide Do, WillFind, NoFailure, FlagsGoDown;
    OthersUntouched(s, step);
    OthersOnlyMail(s, step, i, t);
    if s.pcs[t].PullNext? && !s.pcs[t].got && s.pcs[t].i == i {
      assert OneThread(s, t);
    }
    hide Inv, Enabled;
    WillFindKept(s, Do(s, step), t, i);
  }

  lemma WillFindKept(s: State, s': State, t: ThreadId, i: ThreadId)
    requires Shaped(s) && Shaped(s') && t < s.threads == s'.threads && WillFind(s, t, i)
    requires s'.pcs[t] == s.pcs[t] && s'.freeHead[t] == s.freeHead[t] && (s'.touch[t] ==> s.touch[t])
    requires Grown(ListAt(s.lists, Box(i, t)), ListAt(s'.lists, Box(i, t)))
    requires s.pcs[t].PullNext? && s.pcs[t].i == i && !s.pcs[t].got ==> ListAt(s.lists, Box(i, t)) != []
    ensures WillFind(s', t, i)
  {
    var q, q' := ListAt(s.lists, Box(i, t)), ListAt(s'.lists, Box(i, t));
    if q != [] && |q'| == |q| + 1 {
      assert q'[1..][|q| - 1] == q'[|q'| - 1];
    }
  }

  lemma SecondIsNotLast(s: State, i: ThreadId, t: ThreadId)
    requires Inv(s) && i < s.threads && t < s.threads && Mail(s, i, t)
    ensures !IsLast(ListAt(s.lists, Box(i, t)), HeadOf(s, i, t))
  {
    assert OneBox(s, i, t);
    assert NoRepeats(ListAt(s.lists, Box(i, t)));
  }

  lemma NotLastHasNext(s: State, i: ThreadId, t: ThreadId, h: Block)
    requires Inv(s) && i < s.threads && t < s.threads && h in ListAt(s.lists, Box(i, t))
    requires !IsLast(ListAt(s.lists, Box(i, t)), Some(h))
    ensures NextOf(s, h).Some?
  {
    assert OneBox(s, i, t);
    var q := ListAt(s.lists, Box(i, t));
    var k :| 0 <= k < |q| && q[k] == h;
    LinkAt(s.next, HeadOf(s, i, t), q, k);
  }

  lemma PullFinds(s: State, t: ThreadId, i: ThreadId)
    requires Finding(s, t, i)
    requires var pc := s.pcs[t]; pc.PullHead? || pc.PullNext? || pc.PullCut? || pc.PullTail? || pc.Splice?
    ensures Shaped(Pulled(s, t)) && Pulled(s, t).threads == s.threads && WillFind(Pulled(s, t), t, i)
  {
    assert OneThread(s, t);
    hide Pulled, WillFind, NoFailure, FlagsGoDown;
    match s.pcs[t]
    case PullHead(_, _) => HeadFinds(s, t, i);
    case PullNext(_, _, _) => NextFinds(s, t, i);
    case _ => CutFinds(s, t, i);
  }

  lemma HeadFinds(s: State, t: ThreadId, i: ThreadId)
    requires Inv(s) && i < s.numThreads && t < s.threads && s.pcs[t].PullHead? && WillFind(s, t, i)
    ensures Shaped(Pulled(s, t)) && Pulled(s, t).threads == s.threads && WillFind(Pulled(s, t), t, i)
  {
    if Mail(s, i, t) {
      SecondIsNotLast(s, i, t);
    }
    hide Inv;
  }

  lemma NextFinds(s: State, t: ThreadId, i: ThreadId)
    requires Inv(s) && i < s.threads && t < s.threads && OneThread(s, t) && s.pcs[t].PullNext? && WillFind(s, t, i)
    ensures Shaped(Pulled(s, t)) && Pulled(s, t).threads == s.threads && WillFind(Pulled(s, t), t, i)
  {
    var PullNext(j, _, h) := s.pcs[t];
    if !IsLast(ListAt(s.lists, Box(j, t)), h) {
      NotLastHasNext(s, j, t, h.value);
    }
    hide Inv;
  }

  lemma CutFinds(s: State, t: ThreadId, i: ThreadId)
    requires Shaped(s) && t < s.threads && WillFind(s, t, i)
    requires s.pcs[t].PullCut? || s.pcs[t].PullTail? || s.pcs[t].Splice?
    ensures Shaped(Pulled(s, t)) && Pulled(s, t).threads == s.threads && WillFind(Pulled(s, t), t, i)
  {
    hide Position, Moved;
  }

  lemma FreeIsOwn(s: State, t: ThreadId)
    requires Inv(s) && t < s.threads && s.freeHead[t].Some?
    ensures s.freeHead[t].value.Pooled? && s.freeHead[t].value.owner == t
  {
    var b, q := s.freeHead[t].value, ListAt(s.lists, FreeList(t));
    assert Linked(s.next, s.freeHead[t], q);
    assert b in q;
    assert b in s.place && HomeOk(b, s.place[b], s.threads, s.held, s.pcs);
  }

  // A step of t itself ends its get with a block of its own, or keeps it finding.
  lemma FinderMovesOn(s: State, step: Step, t: ThreadId, i: ThreadId)
    requires Finding(s, t, i) && Enabled(s, step) && step.t == t
    ensures if Returned(s, step).Some? then Returned(s, step).value.Pooled? && Returned(s, step).value.owner == t
            else Finding(Do(s, step), t, i)
  {
    StepKeepsInv(s, step);
    StepKeepsNoFailure(s, step);
    FlagsStillGoDown(s, step);
    OthersUntouched(s, step);
    if step.Advance? {
      if s.freeHead[t].Some? {
        FreeIsOwn(s, t);
      }
      if Returned(s, step).None? {
        FinderStep(s, t, step.heapId, i);
      }
    }
    hide Inv, NoFailure, FlagsGoDown, Advanced;
  }

  lemma FinderStep(s: State, t: ThreadId, heapId: nat, i: ThreadId)
    requires Finding(s, t, i) && Enabled(s, Advance(t, heapId)) && Returned(s, Advance(t, heapId)).None?
    ensures var s' := Advanced(s, t, heapId);
            Shaped(s') && s'.threads == s.threads && s'.numThreads == s.numThreads && WillFind(s', t, i)
  {
    assert GotOk(s.pcs[t], s.freeHead[t]);
    var pc := s.pcs[t];
    if pc.GetLocal? || pc.CollectTouch? || pc.CollectDone? {
    } else {
      PullFinds(s, t, i);
    }
  }

  // The first block that t is given in a run.
  function FirstReturned(s: State, schedule: seq<Step>, t: ThreadId): Option<Block>
    requires Exec(s, schedule).Some?
    decreases |schedule|
  {
    if schedule == [] then None
    else if schedule[0].t == t && Returned(s, schedule[0]).Some? then Returned(s, schedule[0])
    else FirstReturned(Do(s, schedule[0]), schedule[1..], t)
  }

  lemma {:induction false} FinderRuns(s: State, schedule: seq<Step>, t: ThreadId, i: ThreadId)
    requires Finding(s, t, i) && Exec(s, schedule).Some?
    ensures var first := FirstReturned(s, schedule, t);
            if first.Some? then first.value.Pooled? && first.value.owner == t
            else Finding(Exec(s, schedule).value, t, i)
    decreases |schedule|
  {
    hide Finding, Do, Enabled, Returned;
    if schedule != [] {
      var step := schedule[0];
      if step.t == t {
        FinderMovesOn(s, step, t, i);
      } else {
        OthersKeepFinding(s, step, t, i);
      }
      if !(step.t == t && Returned(s, step).Some?) {
        FinderRuns(Do(s, step), schedule[1..], t, i);
      }
    }
  }

  lemma {:induction false} RunKeepsFlags(s: State, schedule: seq<Step>)
    requires Inv(s) && NoFailure(s) && FlagsGoDown(s) && Exec(s, schedule).Some?
    ensures var s' := Exec(s, schedule).value; Inv(s') && NoFailure(s') && FlagsGoDown(s')
    decreases |schedule|
  {
    hide Inv, NoFailure, FlagsGoDown, Do, Enabled;
    if schedule != [] {
      StepKeepsInv(s, schedule[0]);
      StepKeepsNoFailure(s, schedule[0]);
      FlagsStillGoDown(s, schedule[0]);
      RunKeepsFlags(Do(s, schedule[0]), schedule[1..]);
    }
  }

  // In every reachable state: a get of t that begins while there is mail for t from a thread
  // that counts, and t's flag is down, ends with a block of t's own and never with one of the
  // heap, whatever all threads do meanwhile.
  lemma GetFindsMail(init: State, before: seq<Step>, s: State, t: ThreadId, i: ThreadId, schedule: seq<Step>, s': State)
    requires Init(init) && Exec(init, before) == Some(s) && Enabled(s, CallGet(t))
    requires i < s.numThreads && Mail(s, i, t) && t < |s.touch| && !s.touch[t]
    requires Exec(Do(s, CallGet(t)), schedule) == Some(s')
    ensures var first := FirstReturned(Do(s, CallGet(t)), schedule, t);
            if first.Some? then first.value.Pooled? && first.value.owner == t
            else t < |s'.pcs| && Getting(s'.pcs[t]) && !s'.pcs[t].Malloc?
  {
    InitIsGood(init);
    hide Inv, NoFailure, Do;
    RunKeepsFlags(init, before);
    hide FlagsGoDown, Enabled;
    GetFinds(s, t, i, schedule, s');
  }

  lemma GetFinds(s: State, t: ThreadId, i: ThreadId, schedule: seq<Step>, s': State)
    requires Inv(s) && NoFailure(s) && FlagsGoDown(s) && Enabled(s, CallGet(t))
    requires i < s.numThreads && Mail(s, i, t) && !s.touch[t] && Exec(Do(s, CallGet(t)), schedule) == Some(s')
    ensures var first := FirstReturned(Do(s, CallGet(t)), schedule, t);
            if first.Some? then first.value.Pooled? && first.value.owner == t
            else t < |s'.pcs| && Getting(s'.pcs[t]) && !s'.pcs[t].Malloc?
  {
    hide Inv, NoFailure, FlagsGoDown, Do, Enabled;
    GetBegins(s, t, i);
    FinderRuns(Do(s, CallGet(t)), schedule, t, i);
    if FirstReturned(Do(s, CallGet(t)), schedule, t).None? {
      FinderGets(s', t, i);
    }
  }

  lemma GetBegins(s: State, t: ThreadId, i: ThreadId)
    requires Inv(s) && NoFailure(s) && FlagsGoDown(s) && Enabled(s, CallGet(t))
    requires i < s.numThreads && Mail(s, i, t) && !s.touch[t]
    ensures Finding(Do(s, CallGet(t)), t, i)
  {
    StepKeepsInv(s, CallGet(t));
    StepKeepsNoFailure(s, CallGet(t));
    FlagsStillGoDown(s, CallGet(t));
    hide Inv, NoFailure, FlagsGoDown;
  }

  lemma FinderGets(s: State, t: ThreadId, i: ThreadId)
    requires Finding(s, t, i)
    ensures t < |s.pcs| && Getting(s.pcs[t]) && !s.pcs[t].Malloc?
  {
  }

  // While the owner of b is not looking, b's mailbox does not shrink.
  lemma {:induction false} MailStays(s: State, schedule: seq<Step>, t: ThreadId, b: Block, n: nat)
    requires Putting(s, t, b, n) && FlagsGoDown(s) && Exec(s, schedule).Some? && WithoutIt(schedule, b.owner)
    requires n + OwnSteps(schedule, t) <= 4 && (n >= 3 ==> Mail(s, t, b.owner))
    ensures n + OwnSteps(schedule, t) >= 3 ==> Mail(Exec(s, schedule).value, t, b.owner)
    ensures FlagsGoDown(Exec(s, schedule).value)
    decreases |schedule|
  {
    hide Putting, FlagsGoDown, Do, Enabled, Inv, Shaped, Mail;
    if schedule != [] {
      var step := schedule[0];
      PuttingMovesOn(s, step, t, b, n);
      MailStaysOnce(s, step, t, b, n);
      MailStays(Do(s, step), schedule[1..], t, b, n + if step.Advance? && step.t == t then 1 else 0);
    }
  }

  lemma MailStaysOnce(s: State, step: Step, t: ThreadId, b: Block, n: nat)
    requires Putting(s, t, b, n) && FlagsGoDown(s) && Enabled(s, step) && step.t != b.owner
    requires n >= 3 ==> Mail(s, t, b.owner)
    ensures FlagsGoDown(Do(s, step))
    ensures n >= 3 || (n == 2 && step.Advance? && step.t == t) ==> Mail(Do(s, step), t, b.owner)
  {
    FlagsStillGoDown(s, step);
    OthersOnlyMail(s, step, t, b.owner);
    if n == 2 && step.Advance? && step.t == t {
      assert OneBox(s, t, b.owner);
    }
    hide Inv, FlagsGoDown;
  }

  lemma CountGrows(s: State, step: Step)
    requires Enabled(s, step)
    ensures Do(s, step).numThreads == s.numThreads + if step.Join? then 1 else 0
  {
    if step.Advance? {
      assert Advanced(s, step.t, step.heapId).numThreads == s.numThreads;
    }
  }

  function Joins(schedule: seq<Step>): nat {
    if schedule == [] then 0 else (if schedule[0].Join? then 1 else 0) + Joins(schedule[1..])
  }

  // The threads that count are those that have counted themselves in.
  lemma {:induction false} CountGrowsAlong(s: State, schedule: seq<Step>)
    requires Exec(s, schedule).Some?
    ensures Exec(s, schedule).value.numThreads == s.numThreads + Joins(schedule)
    decreases |schedule|
  {
    hide Do, Enabled;
    if schedule != [] {
      CountGrows(s, schedule[0]);
      CountGrowsAlong(Do(s, schedule[0]), schedule[1..]);
    }
  }

  ghost predicate Going(s: State) {
    Inv(s) && NoFailure(s) && FlagsGoDown(s)
  }

  lemma GoingStep(s: State, step: Step)
    requires Going(s) && Enabled(s, step)
    ensures Going(Do(s, step)) && Do(s, step).numThreads >= s.numThreads
  {
    StepKeepsInv(s, step);
    StepKeepsNoFailure(s, step);
    FlagsStillGoDown(s, step);
    CountGrows(s, step);
    hide Inv, NoFailure, FlagsGoDown, Do;
  }

  // A put that ends while the owner is not looking leaves it mail, and word of it.
  lemma PutLeavesMail(s: State, t: ThreadId, b: Block, schedule: seq<Step>, s1: State, heapId: nat)
    requires Going(s) && Enabled(s, CallPut(t, b)) && b.Pooled? && b.owner != t
    requires Exec(Do(s, CallPut(t, b)), schedule) == Some(s1) && OwnSteps(schedule, t) == 4
    requires WithoutIt(schedule, b.owner) && Enabled(s1, Advance(t, heapId))
    ensures var s2 := Do(s1, Advance(t, heapId));
            && Going(s2) && s2.numThreads >= s.numThreads
            && Mail(s2, t, b.owner) && b.owner < |s2.touch| && !s2.touch[b.owner]
  {
    var s0 := Do(s, CallPut(t, b));
    GoingStep(s, CallPut(t, b));
    PutStarts(s, t, b);
    hide Do, Enabled, Putting, Mail, Inv, NoFailure, FlagsGoDown, WithoutIt, OwnSteps;
    MailStays(s0, schedule, t, b, 0);
    PuttingRun(s0, schedule, t, b, 0);
    RunKeepsFlags(s0, schedule);
    CountGrowsAlong(s0, schedule);
    GoingStep(s1, Advance(t, heapId));
    MailStaysOnce(s1, Advance(t, heapId), t, b, 4);
    PutNotifies(s, t, b, schedule, s1, heapId);
  }

  // So if the putter counts, the next get of the owner ends with a block of its own, even
  // if its own list is used up.
  lemma MailComesHome(init: State, before: seq<Step>, s: State, t: ThreadId, b: Block,
                      mailing: seq<Step>, s1: State, heapId: nat, getting: seq<Step>, s': State)
    requires Init(init) && Exec(init, before) == Some(s)
    requires Enabled(s, CallPut(t, b)) && b.Pooled? && b.owner != t && t < s.numThreads
    requires Exec(Do(s, CallPut(t, b)), mailing) == Some(s1) && OwnSteps(mailing, t) == 4
    requires WithoutIt(mailing, b.owner) && Enabled(s1, Advance(t, heapId))
    requires var s2 := Do(s1, Advance(t, heapId));
             Enabled(s2, CallGet(b.owner)) && Exec(Do(s2, CallGet(b.owner)), getting) == Some(s')
    ensures var first := FirstReturned(Do(Do(s1, Advance(t, heapId)), CallGet(b.owner)), getting, b.owner);
            if first.Some? then first.value.Pooled? && first.value.owner == b.owner
            else b.owner < |s'.pcs| && Getting(s'.pcs[b.owner]) && !s'.pcs[b.owner].Malloc?
  {
    InitIsGood(init);
    hide Inv, NoFailure, Do, Enabled, Mail, WithoutIt, OwnSteps;
    RunKeepsFlags(init, before);
    hide FlagsGoDown;
    PutLeavesMail(s, t, b, mailing, s1, heapId);
    GetFinds(Do(s1, Advance(t, heapId)), b.owner, t, getting, s');
  }

  // ---------------------------------------------------------------------------
  // Collecting is paid for
  // ---------------------------------------------------------------------------

  predicate Collecting(pc: Pc) {
    pc.PullHead? || pc.PullNext? || pc.PullCut? || pc.PullTail? || pc.Splice? || pc.CollectDone?
  }

  // The step makes t begin to visit its mailboxes.
  predicate StartsCollect(s: State, step: Step, t: ThreadId)
    requires Enabled(s, step)
  {
    step.t == t && t < |s.pcs| == |Do(s, step).pcs| && !Collecting(s.pcs[t]) && Collecting(Do(s, step).pcs[t])
  }

  // The step leaves word with t that there is mail.
  predicate LeavesWord(s: State, step: Step, t: ThreadId) {
    step.Advance? && step.t < |s.pcs| && s.pcs[step.t].TouchWrite? && s.pcs[step.t].dst == t
  }

  function CollectsOf(s: State, schedule: seq<Step>, t: ThreadId): nat
    requires Exec(s, schedule).Some?
    decreases |schedule|
  {
    if schedule == [] then 0
    else (if StartsCollect(s, schedule[0], t) then 1 else 0) + CollectsOf(Do(s, schedule[0]), schedule[1..], t)
  }

  function WordsFor(s: State, schedule: seq<Step>, t: ThreadId): nat
    requires Exec(s, schedule).Some?
    decreases |schedule|
  {
    if schedule == [] then 0
    else (if LeavesWord(s, schedule[0], t) then 1 else 0) + WordsFor(Do(s, schedule[0]), schedule[1..], t)
  }

  // 1 if t may begin to collect.
  function Credit(s: State, t: ThreadId): nat {
    if t < |s.touch| == |s.pcs| && (s.touch[t] || Collecting(s.pcs[t])) then 0 else 1
  }

  lemma StepIsPaidFor(s: State, step: Step, t: ThreadId)
    requires Enabled(s, step) && t < s.threads
    ensures (if StartsCollect(s, step, t) then 1 else 0) + Credit(Do(s, step), t) <=
            Credit(s, t) + if LeavesWord(s, step, t) then 1 else 0
    ensures Shaped(Do(s, step)) && Do(s, step).threads == s.threads
  {
    OthersUntouched(s, step);
    if step.Advance? {
      var pc, u := s.pcs[step.t], step.t;
      if AtShared(pc) {
        SharedPaid(s, u, step.heapId, t);
      } else if pc.GetLocal? {
        LocalPaid(s, u);
      } else if pc.PushTest? || pc.PushLink? || pc.PushHead? || pc.PushTail? {
        PushHandsNothing(s, u);
        PushGrowsBox(s, u, u, t);
      } else {
        PullPaid(s, u);
      }
    }
  }

  lemma SharedPaid(s: State, u: ThreadId, heapId: nat, t: ThreadId)
    requires Enabled(s, Advance(u, heapId)) && AtShared(s.pcs[u]) && t < s.threads
    ensures var s', word := Advanced(s, u, heapId), s.pcs[u].TouchWrite? && s.pcs[u].dst == t;
            && |s'.touch| == |s'.pcs| == s.threads
            && (!word ==> s'.touch[t] == (s.touch[t] || (u == t && s.pcs[u].CollectDone?)))
            && Collecting(s'.pcs[u]) == (s.pcs[u].CollectTouch? && !s.touch[u])
  {
    var next := Advanced(s, u, heapId).pcs[u];
    match s.pcs[u]
    case CollectTouch => assert if s.touch[u] then next.Malloc? else next.PullHead?;
    case CollectDone(_) => assert next.Malloc? || next.GetLocal?;
    case Malloc => assert next.Idle?;
    case TouchRead(_, _) => assert next.TouchWrite?;
    case TouchWrite(_, _) => assert next.Idle?;
  }

  lemma LocalPaid(s: State, u: ThreadId)
    requires Shaped(s) && u < s.threads && s.pcs[u].GetLocal?
    ensures var s' := GotLocal(s, u); s'.touch == s.touch && |s'.pcs| == s.threads && !Collecting(s'.pcs[u])
  {
    hide ListAt, NextOf;
  }

  lemma PullPaid(s: State, u: ThreadId)
    requires Shaped(s) && u < s.threads
    requires var pc := s.pcs[u]; pc.PullHead? || pc.PullNext? || pc.PullCut? || pc.PullTail? || pc.Splice?
    ensures var s' := Pulled(s, u); s'.touch == s.touch && |s'.pcs| == s.threads && Collecting(s'.pcs[u])
  {
    if s.pcs[u].PullCut? || s.pcs[u].Splice? {
      MovePaid(s, u);
    }
  }

  lemma MovePaid(s: State, u: ThreadId)
    requires Shaped(s) && u < s.threads && (s.pcs[u].PullCut? || s.pcs[u].Splice?)
    ensures var s' := Pulled(s, u); s'.touch == s.touch && |s'.pcs| == s.threads && Collecting(s'.pcs[u])
  {
    hide ListAt, NextOf, Position, Moved;
  }

  lemma {:induction false} RunIsPaidFor(s: State, schedule: seq<Step>, t: ThreadId)
    requires Exec(s, schedule).Some? && Shaped(s) && t < s.threads
    ensures CollectsOf(s, schedule, t) + Credit(Exec(s, schedule).value, t) <= Credit(s, t) + WordsFor(s, schedule, t)
    decreases |schedule|
  {
    hide Do, Enabled, Credit, StartsCollect, LeavesWord;
    if schedule != [] {
      StepIsPaidFor(s, schedule[0], t);
      RunIsPaidFor(Do(s, schedule[0]), schedule[1..], t);
    }
  }

  // For every interleaving: besides a first time, t goes through its mailboxes at most as
  // often as a put has left word that there is mail for it.
  lemma CollectsArePaidFor(init: State, schedule: seq<Step>, s: State, t: ThreadId)
    requires Init(init) && Exec(init, schedule) == Some(s) && t < init.threads
    ensures CollectsOf(init, schedule, t) <= 1 + WordsFor(init, schedule, t)
  {
    RunIsPaidFor(init, schedule, t);
  }
}
