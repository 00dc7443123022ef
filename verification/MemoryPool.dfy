/**
 * The per-thread memory pool of src/runtime/lockfree/allocator/OFluxLFMemoryPool.h as
 * a state machine.  Each thread owns an array of blocks, a private free list, and one
 * mailbox from each thread; a block freed by another thread is mailed home.  A mailbox
 * has one writer and one reader and is used without any atomic operation: every step
 * below makes at most one access to a word that another thread may be using.  What a
 * thread does with its own free list is one step, and so is its swap of a mailbox's
 * tail: a sender writes the tail only of an empty mailbox, and none ever is.
 *
 * Main result: under every interleaving each block is in exactly one place, and the
 * linked lists are exactly those places, so get never returns a block in use.
 */
module MemoryPool {
  import opened Basics

  type ThreadId = nat

  datatype Block =
    | Pooled(owner: ThreadId, index: nat)
    | Heap(id: nat)

  // Where an issued block of the pool is.
  datatype Place =
    | Hand                                   // with a client
    | Pushing(t: ThreadId)                   // t is mailing it home
    | FreeList(t: ThreadId)
    | Box(src: ThreadId, dst: ThreadId)      // mailbox from src to dst
    | Collected(t: ThreadId)                 // cut off a mailbox by t

  datatype Pc =
    | Idle
    // get()
    | GetLocal(again: bool)
    | CollectTouch                                                  // about to read collect_touch
    | PullHead(i: nat, got: bool)                                   // about to read _head of mailbox i
    | PullNext(i: nat, got: bool, h: Option<Block>)                 // about to read h->next
    | PullCut(i: nat, got: bool, h: Option<Block>, hn: Option<Block>) // about to write h->next
    | PullTail(i: nat, got: bool, h: Option<Block>, hn: Option<Block>) // about to swap _tail
    | Splice(i: nat, got: bool, first: Block, tt: Option<Block>)    // about to put the chain
    | CollectDone(got: bool)                                        // about to write collect_touch
    | Malloc
    | Failed                                                        // get's assertion after a collect
    // put(b) to another thread's mailbox
    | PushTest(b: Block)                     // about to test _head for NULL
    | PushLink(b: Block, res: bool)          // about to read _head into b->next
    | PushHead(b: Block, res: bool)          // about to write _head
    | PushTail(b: Block)                     // about to write _tail
    | TouchRead(dst: ThreadId, res: bool)    // about to read collect_touch
    | TouchWrite(dst: ThreadId, v: bool)     // about to write collect_touch

  // `place` and `lists` only record where blocks are; they never influence a step.
  datatype State = State(
    size: nat,                               // blocks per thread
    threads: nat,
    numThreads: nat,                         // mailboxes a collect visits
    next: map<Block, Option<Block>>,
    horizon: seq<nat>,
    freeHead: seq<Option<Block>>,
    head: map<(ThreadId, ThreadId), Option<Block>>,
    tail: map<(ThreadId, ThreadId), Option<Block>>,
    touch: seq<bool>,
    held: set<Block>,                        // what clients have
    pcs: seq<Pc>,
    place: map<Block, Place>,
    lists: map<Place, seq<Block>>)

  function NextOf(s: State, b: Block): Option<Block> {
    if b in s.next then s.next[b] else None
  }

  function HeadOf(s: State, i: ThreadId, j: ThreadId): Option<Block> {
    if (i, j) in s.head then s.head[(i, j)] else None
  }

  function TailOf(s: State, i: ThreadId, j: ThreadId): Option<Block> {
    if (i, j) in s.tail then s.tail[(i, j)] else None
  }

  function ListAt(lists: map<Place, seq<Block>>, p: Place): seq<Block> {
    if p in lists then lists[p] else []
  }

  datatype Step =
    | Join(t: ThreadId)                      // t counts itself in
    | CallGet(t: ThreadId)
    | CallPut(t: ThreadId, b: Block)
    | Advance(t: ThreadId, heapId: nat)      // heapId: what malloc would return

  predicate Shaped(s: State) {
    |s.horizon| == |s.freeHead| == |s.touch| == |s.pcs| == s.threads
  }

  predicate Enabled(s: State, step: Step) {
    && Shaped(s)
    && match step
       case Join(t) => t < s.threads && s.numThreads < s.threads
       case CallGet(t) => t < s.threads && s.pcs[t].Idle?
       case CallPut(t, b) => t < s.threads && s.pcs[t].Idle? && b in s.held && (b.Pooled? ==> b.owner < s.threads)
       case Advance(t, heapId) =>
         && t < s.threads && !s.pcs[t].Idle? && !s.pcs[t].Failed?
         && (s.pcs[t].Malloc? ==> Heap(heapId) !in s.held)
         && (s.pcs[t].TouchRead? || s.pcs[t].TouchWrite? ==> s.pcs[t].dst < s.threads)
         && (s.pcs[t].PushTest? || s.pcs[t].PushLink? || s.pcs[t].PushHead? || s.pcs[t].PushTail? ==>
               s.pcs[t].b.Pooled? && s.pcs[t].b.owner < s.threads)
  }

  // The block that the step hands to a client, if it does.
  function Returned(s: State, step: Step): Option<Block>
    requires Enabled(s, step)
  {
    if !step.Advance? then None
    else if s.pcs[step.t].GetLocal? then
      if s.freeHead[step.t].Some? then s.freeHead[step.t]
      else if s.horizon[step.t] < s.size then Some(Pooled(step.t, s.horizon[step.t]))
      else None
    else if s.pcs[step.t].Malloc? then Some(Heap(step.heapId))
    else None
  }

  // RawMemPool::get, on the caller's own array and free list.
  function GotLocal(s: State, t: ThreadId): State
    requires Shaped(s) && t < s.threads && s.pcs[t].GetLocal?
  {
    if s.freeHead[t].Some? then
      var res := s.freeHead[t].value;
      var free := ListAt(s.lists, FreeList(t));
      s.(freeHead := s.freeHead[t := NextOf(s, res)], held := s.held + {res}, pcs := s.pcs[t := Idle],
         place := s.place[res := Hand],
         lists := s.lists[FreeList(t) := if |free| > 0 then free[1..] else []])
    else if s.horizon[t] < s.size then
      var res := Pooled(t, s.horizon[t]);
      s.(horizon := s.horizon[t := s.horizon[t] + 1], held := s.held + {res}, pcs := s.pcs[t := Idle],
         place := s.place[res := Hand])
    else
      s.(pcs := s.pcs[t := if s.pcs[t].again then Failed else CollectTouch])
  }

  // The position of b in q, for recording where a list is cut.
  function Position(q: seq<Block>, b: Block): (k: nat)
    ensures k <= |q| && (b in q ==> k < |q| && q[k] == b)
  {
    if q == [] then 0 else if q[0] == b then 0 else 1 + Position(q[1..], b)
  }

  function Moved(place: map<Block, Place>, blocks: seq<Block>, p: Place): map<Block, Place> {
    map b | b in place.Keys + (set x | x in blocks) :: if b in blocks then p else place[b]
  }

  // collect and RawMemPoolElementList::pull, for the mailbox from i to t.
  function Pulled(s: State, t: ThreadId): State
    requires Shaped(s) && t < s.threads
    requires var pc := s.pcs[t]; pc.PullHead? || pc.PullNext? || pc.PullCut? || pc.PullTail? || pc.Splice?
  {
    match s.pcs[t]
    case PullHead(i, got) =>
      if i >= s.numThreads then
        s.(pcs := s.pcs[t := CollectDone(got)])
      else
        s.(pcs := s.pcs[t := PullNext(i, got, HeadOf(s, i, t))])
    case PullNext(i, got, h) =>
      s.(pcs := s.pcs[t := PullCut(i, got, h, if h.Some? then NextOf(s, h.value) else None)])
    case PullCut(i, got, h, hn) =>
      if h.Some? then
        var q := ListAt(s.lists, Box(i, t));
        var k := Position(q, h.value);
        var rest := if k < |q| then q[k + 1..] else [];
        s.(next := s.next[h.value := None], pcs := s.pcs[t := PullTail(i, got, h, hn)],
           lists := s.lists[Box(i, t) := if k < |q| then q[..k + 1] else q][Collected(t) := rest],
           place := Moved(s.place, rest, Collected(t)))
      else
        s.(pcs := s.pcs[t := PullTail(i, got, h, hn)])
    case PullTail(i, got, h, hn) =>
      s.(tail := s.tail[(i, t) := h],
         pcs := s.pcs[t := if hn.Some? then Splice(i, got, hn.value, TailOf(s, i, t)) else PullHead(i + 1, got)])
    case Splice(i, got, first, tt) =>
      var chain := ListAt(s.lists, Collected(t));
      s.(next := if tt.Some? then s.next[tt.value := s.freeHead[t]] else s.next,
         freeHead := s.freeHead[t := Some(first)],
         pcs := s.pcs[t := PullHead(i + 1, true)],
         lists := s.lists[FreeList(t) := chain + ListAt(s.lists, FreeList(t))][Collected(t) := []],
         place := Moved(s.place, chain, FreeList(t)))
    case _ => s
  }

  // RawMemPoolElementList::push, into the mailbox from t to the owner of b.
  function Pushed(s: State, t: ThreadId): State
    requires Shaped(s) && t < s.threads
    requires var pc := s.pcs[t];
             (pc.PushTest? || pc.PushLink? || pc.PushHead? || pc.PushTail?) && pc.b.Pooled?
  {
    match s.pcs[t]
    case PushTest(b) => s.(pcs := s.pcs[t := PushLink(b, HeadOf(s, t, b.owner).None?)])
    case PushLink(b, res) =>
      s.(next := s.next[b := HeadOf(s, t, b.owner)], pcs := s.pcs[t := PushHead(b, res)])
    case PushHead(b, res) =>
      s.(head := s.head[(t, b.owner) := Some(b)],
         pcs := s.pcs[t := if res then PushTail(b) else TouchRead(b.owner, res)],
         place := s.place[b := Box(t, b.owner)],
         lists := s.lists[Box(t, b.owner) := [b] + ListAt(s.lists, Box(t, b.owner))])
    case PushTail(b) =>
      s.(tail := s.tail[(t, b.owner) := HeadOf(s, t, b.owner)], pcs := s.pcs[t := TouchRead(b.owner, true)])
    case _ => s
  }

  function Advanced(s: State, t: ThreadId, heapId: nat): State
    requires Enabled(s, Advance(t, heapId))
  {
    match s.pcs[t]
    case GetLocal(_) => GotLocal(s, t)
    case CollectTouch => s.(pcs := s.pcs[t := if s.touch[t] then Malloc else PullHead(0, false)])
    case CollectDone(got) =>
      s.(touch := s.touch[t := true], pcs := s.pcs[t := if got then GetLocal(true) else Malloc])
    case Malloc => s.(held := s.held + {Heap(heapId)}, pcs := s.pcs[t := Idle])
    case TouchRead(dst, res) => s.(pcs := s.pcs[t := TouchWrite(dst, s.touch[dst] && res)])
    case TouchWrite(dst, v) => s.(touch := s.touch[dst := v], pcs := s.pcs[t := Idle])
    case PushTest(_) => Pushed(s, t)
    case PushLink(_, _) => Pushed(s, t)
    case PushHead(_, _) => Pushed(s, t)
    case PushTail(_) => Pushed(s, t)
    case PullHead(_, _) => Pulled(s, t)
    case PullNext(_, _, _) => Pulled(s, t)
    case PullCut(_, _, _, _) => Pulled(s, t)
    case PullTail(_, _, _, _) => Pulled(s, t)
    case Splice(_, _, _, _) => Pulled(s, t)
    case Idle => s
    case Failed => s
  }

  function PutCalled(s: State, t: ThreadId, b: Block): State
    requires Enabled(s, CallPut(t, b))
  {
    if b.Heap? then
      s.(held := s.held - {b})
    else if b.owner == t then
      s.(held := s.held - {b}, next := s.next[b := s.freeHead[t]], freeHead := s.freeHead[t := Some(b)],
         place := s.place[b := FreeList(t)],
         lists := s.lists[FreeList(t) := [b] + ListAt(s.lists, FreeList(t))])
    else
      s.(held := s.held - {b}, pcs := s.pcs[t := PushTest(b)], place := s.place[b := Pushing(t)])
  }

  function Do(s: State, step: Step): State
    requires Enabled(s, step)
  {
    match step
    case Join(t) => s.(numThreads := s.numThreads + 1)
    case CallGet(t) => s.(pcs := s.pcs[t := GetLocal(false)])
    case CallPut(t, b) => PutCalled(s, t, b)
    case Advance(t, heapId) => Advanced(s, t, heapId)
  }

  function Exec(s: State, schedule: seq<Step>): Option<State>
    decreases |schedule|
  {
    if schedule == [] then Some(s)
    else if Enabled(s, schedule[0]) then Exec(Do(s, schedule[0]), schedule[1..])
    else None
  }

  // Block x is alone in the mailbox from i to j.
  ghost predicate FirstMail(s: State, i: ThreadId, j: ThreadId) {
    var x := Pooled(j, i);
    && HeadOf(s, i, j) == Some(x) && TailOf(s, i, j) == Some(x)
    && x in s.next && s.next[x] == None
    && ListAt(s.lists, Box(i, j)) == [x]
  }

  // The constructor: one block of each thread in each of its mailboxes.
  ghost predicate Init(s: State) {
    && Shaped(s) && s.threads <= s.size && s.numThreads <= s.threads
    && (forall t :: 0 <= t < s.threads ==>
          s.horizon[t] == s.threads && s.freeHead[t].None? && s.pcs[t].Idle?)
    && s.held == {}
    && (forall i, j :: 0 <= i < s.threads && 0 <= j < s.threads ==> FirstMail(s, i, j))
    && (forall p :: p in s.lists ==> p.Box? && p.src < s.threads && p.dst < s.threads)
    && (forall b :: b in s.place <==> b.Pooled? && b.owner < s.threads && b.index < s.threads)
    && (forall b :: b in s.place ==> s.place[b] == Box(b.index, b.owner))
  }

  // ---------------------------------------------------------------------------
  // The inductive invariant
  // ---------------------------------------------------------------------------

  // Following next from the head visits exactly the blocks of q and stops.
  ghost predicate Linked(next: map<Block, Option<Block>>, head: Option<Block>, q: seq<Block>) {
    && (if q == [] then head == None else head == Some(q[0]))
    && (forall k :: 0 <= k < |q| ==> q[k] in next && next[q[k]] == if k + 1 < |q| then Some(q[k + 1]) else None)
  }

  predicate IsList(p: Place) {
    p.FreeList? || p.Box? || p.Collected?
  }

  // The recorded lists and places agree, without repetition.
  ghost predicate PlacesInv(place: map<Block, Place>, lists: map<Place, seq<Block>>) {
    && (forall p, b :: IsList(p) ==> (b in ListAt(lists, p) <==> b in place && place[b] == p))
    && (forall p :: IsList(p) ==> NoRepeats(ListAt(lists, p)))
  }

  ghost predicate NoRepeats(q: seq<Block>) {
    forall i, j :: 0 <= i < j < |q| ==> q[i] != q[j]
  }

  // Blocks go home: only t's blocks are in t's lists, and each is used by whom it may.
  ghost predicate HomeOk(b: Block, p: Place, threads: nat, held: set<Block>, pcs: seq<Pc>)
    requires b.Pooled? && |pcs| == threads
  {
    match p
    case Hand => b in held
    case Pushing(t) => t < threads && t != b.owner && PushedBlock(pcs[t]) == Some(b)
    case FreeList(t) => t == b.owner
    case Box(_, dst) => dst == b.owner
    case Collected(t) => t == b.owner
  }

  ghost predicate HomeInv(s: State)
    requires Shaped(s)
  {
    && (forall b :: b in s.place <==> b.Pooled? && b.owner < s.threads && b.index < s.horizon[b.owner])
    && (forall t :: 0 <= t < s.threads ==> s.horizon[t] <= s.size)
    && (forall b :: b in s.place ==> HomeOk(b, s.place[b], s.threads, s.held, s.pcs))
    && (forall b :: b in s.held && b.Pooled? ==> b in s.place && s.place[b] == Hand)
  }

  function PushedBlock(pc: Pc): Option<Block> {
    match pc
    case PushTest(b) => Some(b)
    case PushLink(b, _) => Some(b)
    case PushHead(b, _) => Some(b)
    case _ => None
  }

  // The reader has cut mailbox i and not yet repaired its tail.
  predicate Cutting(pc: Pc, i: ThreadId) {
    pc.PullTail? && pc.i == i && pc.h.Some?
  }

  // A mailbox is never empty; its tail is its last block, except that after a cut
  // the tail is still the last block of what was cut off.
  ghost predicate BoxOk(next: map<Block, Option<Block>>, head: Option<Block>, tail: Option<Block>,
                        q: seq<Block>, cut: seq<Block>, cutting: bool) {
    && q != [] && Linked(next, head, q)
    && tail == Some(if cutting && cut != [] then cut[|cut| - 1] else q[|q| - 1])
  }

  // What thread t knows.
  ghost predicate PcOk(pc: Pc, t: ThreadId, threads: nat, next: map<Block, Option<Block>>,
                       head: map<(ThreadId, ThreadId), Option<Block>>,
                       place: map<Block, Place>, lists: map<Place, seq<Block>>) {
    var cut := ListAt(lists, Collected(t));
    match pc
    case PullNext(i, _, h) => i < threads && cut == [] && h.Some? && h.value in ListAt(lists, Box(i, t))
    case PullCut(i, _, h, hn) =>
      && i < threads && cut == [] && h.Some? && h.value in ListAt(lists, Box(i, t))
      && h.value in next && next[h.value] == hn
    case PullTail(i, _, h, hn) =>
      var q := ListAt(lists, Box(i, t));
      i < threads && Linked(next, hn, cut) && q != [] && h == Some(q[|q| - 1])
    case Splice(i, _, first, tt) =>
      i < threads && Linked(next, Some(first), cut) && cut != [] && tt == Some(cut[|cut| - 1])
    case PushTest(b) => Mailing(b, t, threads, place) && cut == []
    case PushLink(b, res) => Mailing(b, t, threads, place) && !res && cut == []
    case PushHead(b, res) =>
      && Mailing(b, t, threads, place) && !res && cut == []
      && b in next && (t, b.owner) in head && next[b] == head[(t, b.owner)]
    case PushTail(_) => false
    case TouchRead(dst, _) => dst < threads && cut == []
    case TouchWrite(dst, _) => dst < threads && cut == []
    case _ => cut == []
  }

  ghost predicate Mailing(b: Block, t: ThreadId, threads: nat, place: map<Block, Place>) {
    b.Pooled? && b.owner < threads && b.owner != t && b in place && place[b] == Pushing(t)
  }

  ghost predicate OneBox(s: State, i: ThreadId, j: ThreadId)
    requires Shaped(s) && j < s.threads
  {
    BoxOk(s.next, HeadOf(s, i, j), TailOf(s, i, j), ListAt(s.lists, Box(i, j)),
          ListAt(s.lists, Collected(j)), Cutting(s.pcs[j], i))
  }

  ghost predicate BoxesInv(s: State)
    requires Shaped(s)
  {
    forall i, j :: 0 <= i < s.threads && 0 <= j < s.threads ==> OneBox(s, i, j)
  }

  ghost predicate PcsInv(s: State)
    requires Shaped(s)
  {
    forall t :: 0 <= t < s.threads ==> PcOk(s.pcs[t], t, s.threads, s.next, s.head, s.place, s.lists)
  }

  ghost predicate FreeInv(s: State)
    requires Shaped(s)
  {
    forall t :: 0 <= t < s.threads ==> Linked(s.next, s.freeHead[t], ListAt(s.lists, FreeList(t)))
  }

  ghost predicate Inv(s: State) {
    && Shaped(s) && s.numThreads <= s.threads
    && PlacesInv(s.place, s.lists)
    && HomeInv(s)
    && BoxesInv(s)
    && PcsInv(s)
    && FreeInv(s)
  }

  // ---------------------------------------------------------------------------
  // Every step keeps the invariant
  // ---------------------------------------------------------------------------

  // ---- lists and links ----

  // The link of the k-th block of a list.
  lemma LinkAt(next: map<Block, Option<Block>>, head: Option<Block>, q: seq<Block>, k: nat)
    requires Linked(next, head, q) && k < |q|
    ensures q[k] in next && next[q[k]] == if k + 1 < |q| then Some(q[k + 1]) else None
  {
  }

  lemma LinkedRest(next: map<Block, Option<Block>>, head: Option<Block>, q: seq<Block>)
    requires Linked(next, head, q) && q != [] && NoRepeats(q)
    ensures q[0] in next && Linked(next, next[q[0]], q[1..])
    ensures NoRepeats(q[1..]) && forall b :: b in q[1..] <==> b in q && b != q[0]
  {
    assert q == [q[0]] + q[1..];
    LinkAt(next, head, q, 0);
    forall k | 0 <= k < |q[1..]|
      ensures q[1..][k] in next && next[q[1..][k]] == if k + 1 < |q[1..]| then Some(q[1..][k + 1]) else None
    {
      LinkAt(next, head, q, k + 1);
    }
  }

  lemma LinkedCons(next: map<Block, Option<Block>>, head: Option<Block>, q: seq<Block>, b: Block)
    requires Linked(next, head, q) && NoRepeats(q) && b !in q
    ensures Linked(next[b := head], Some(b), [b] + q) && NoRepeats([b] + q)
  {
    var l, next' := [b] + q, next[b := head];
    LinkedFrame(next, next', b, head, q);
    forall k | 0 <= k < |l|
      ensures l[k] in next' && next'[l[k]] == if k + 1 < |l| then Some(l[k + 1]) else None
    {
      if k > 0 {
        LinkAt(next', head, q, k - 1);
        assert l[k] == q[k - 1] && (k + 1 < |l| ==> l[k + 1] == q[k]);
      } else {
        assert l[0] == b && (|q| > 0 ==> l[1] == q[0]);
      }
    }
    assert Linked(next', Some(b), l);
  }

  lemma PrependFresh(q: seq<Block>, b: Block)
    requires NoRepeats(q) && b !in q
    ensures NoRepeats([b] + q)
  {
  }

  lemma PartsDisjoint(q: seq<Block>, a: seq<Block>, c: seq<Block>)
    requires NoRepeats(q) && q == a + c
    ensures NoRepeats(a) && NoRepeats(c)
    ensures forall b :: b in a <==> b in q && b !in c
  {
    forall i, j | 0 <= i < j < |a|
      ensures a[i] != a[j]
    {
      assert a[i] == q[i] && a[j] == q[j];
    }
    forall i, j | 0 <= i < j < |c|
      ensures c[i] != c[j]
    {
      assert c[i] == q[|a| + i] && c[j] == q[|a| + j];
    }
    forall b | b in a
      ensures b !in c
    {
      var i :| 0 <= i < |a| && a[i] == b;
      forall j | 0 <= j < |c|
        ensures c[j] != b
      {
        assert c[j] == q[|a| + j] && q[i] == b;
      }
    }
  }

  lemma LinkedCut(next: map<Block, Option<Block>>, head: Option<Block>, q: seq<Block>, a: seq<Block>, c: seq<Block>)
    requires Linked(next, head, q) && NoRepeats(q) && q == a + c && a != []
    ensures var last := a[|a| - 1];
            && last in next
            && Linked(next[last := None], head, a) && Linked(next[last := None], next[last], c)
  {
    var last := a[|a| - 1];
    var next' := next[last := None];
    LinkAt(next, head, q, |a| - 1);
    PartsDisjoint(q, a, c);
    forall i | 0 <= i < |a|
      ensures a[i] in next' && next'[a[i]] == if i + 1 < |a| then Some(a[i + 1]) else None
    {
      LinkAt(next, head, q, i);
      assert a[i] == q[i] && (i + 1 < |a| ==> a[i + 1] == q[i + 1]);
    }
    forall i | 0 <= i < |c|
      ensures c[i] in next' && next'[c[i]] == if i + 1 < |c| then Some(c[i + 1]) else None
    {
      LinkAt(next, head, q, |a| + i);
      assert c[i] == q[|a| + i] && (i + 1 < |c| ==> c[i + 1] == q[|a| + i + 1]);
      assert c[i] in c && last in a;
    }
  }

  lemma LinkedJoin(next: map<Block, Option<Block>>, head: Option<Block>, q: seq<Block>,
                   head': Option<Block>, r: seq<Block>)
    requires Linked(next, head, q) && Linked(next, head', r) && q != [] && NoRepeats(q) && NoRepeats(r)
    requires forall b :: b in q ==> b !in r
    ensures Linked(next[q[|q| - 1] := head'], head, q + r) && NoRepeats(q + r)
  {
    var last := q[|q| - 1];
    var next' := next[last := head'];
    assert last in q;
    LinkedFrame(next, next', last, head', r);
    forall k | 0 <= k < |q + r|
      ensures (q + r)[k] in next' && next'[(q + r)[k]] == if k + 1 < |q + r| then Some((q + r)[k + 1]) else None
    {
      if k < |q| {
        LinkAt(next, head, q, k);
      } else {
        LinkAt(next', head', r, k - |q|);
      }
    }
    forall i, j | 0 <= i < j < |q + r|
      ensures (q + r)[i] != (q + r)[j]
    {
      if i < |q| <= j {
        assert q[i] in q && r[j - |q|] in r;
      }
    }
  }

  // Steps that touch neither links nor lists.
  lemma PcStep(s: State, t: ThreadId, pc: Pc, touch: seq<bool>, held: set<Block>)
    requires Inv(s) && t < s.threads && |touch| == s.threads
    requires PcOk(pc, t, s.threads, s.next, s.head, s.place, s.lists)
    requires PushedBlock(pc) == PushedBlock(s.pcs[t]) && !pc.PullTail? && !s.pcs[t].PullTail?
    requires forall b: Block :: b.Pooled? ==> (b in held <==> b in s.held)
    ensures Inv(s.(pcs := s.pcs[t := pc], touch := touch, held := held))
  {
    var s' := s.(pcs := s.pcs[t := pc], touch := touch, held := held);
    forall i, j | 0 <= i < s.threads && 0 <= j < s.threads
      ensures OneBox(s', i, j)
    {
      assert OneBox(s, i, j);
    }
  }

  lemma ReadStep(s: State, t: ThreadId, heapId: nat)
    requires Inv(s) && Enabled(s, Advance(t, heapId))
    requires var pc := s.pcs[t];
             pc.CollectTouch? || pc.CollectDone? || pc.PullHead? || pc.PullNext? || pc.PushTest?
             || pc.TouchRead? || pc.TouchWrite? || pc.Malloc?
    ensures Inv(Advanced(s, t, heapId))
  {
    var s' := Advanced(s, t, heapId);
    assert PcOk(s.pcs[t], t, s.threads, s.next, s.head, s.place, s.lists);
    hide PlacesInv;
    if s.pcs[t].PullHead? && s.pcs[t].i < s.numThreads {
      var i := s.pcs[t].i;
      assert OneBox(s, i, t);
    }
    if s.pcs[t].PullNext? {
      var i := s.pcs[t].i;
      assert OneBox(s, i, t);
    }
    if s.pcs[t].PushTest? {
      var j := s.pcs[t].b.owner;
      assert OneBox(s, t, j);
    }
    PcStep(s, t, s'.pcs[t], s'.touch, s'.held);
    assert s' == s.(pcs := s.pcs[t := s'.pcs[t]], touch := s'.touch, held := s'.held);
  }

  // Moving blocks from one place to another.
  lemma PlacesMove(place: map<Block, Place>, lists: map<Place, seq<Block>>, lists': map<Place, seq<Block>>,
                   blocks: seq<Block>, src: Place, dst: Place)
    requires PlacesInv(place, lists) && src != dst
    requires forall b :: b in blocks ==> b in place && place[b] == src
    requires forall p :: IsList(p) && p != src && p != dst ==> ListAt(lists', p) == ListAt(lists, p)
    requires IsList(src) ==> NoRepeats(ListAt(lists', src))
    requires IsList(src) ==> forall b :: b in ListAt(lists', src) <==> b in ListAt(lists, src) && b !in blocks
    requires IsList(dst) ==> NoRepeats(ListAt(lists', dst))
    requires IsList(dst) ==> forall b :: b in ListAt(lists', dst) <==> b in ListAt(lists, dst) || b in blocks
    ensures PlacesInv(Moved(place, blocks, dst), lists')
  {
    var place' := Moved(place, blocks, dst);
    forall p, b | IsList(p)
      ensures b in ListAt(lists', p) <==> b in place' && place'[b] == p
    {
      assert b in ListAt(lists, p) <==> b in place && place[b] == p;
    }
  }

  lemma MovedOne(place: map<Block, Place>, b: Block, p: Place)
    ensures place[b := p] == Moved(place, [b], p)
  {
  }

  // The step touches at most: block b's link, the lists and free list of thread t, the
  // mailbox (bi, bj), and t's own counter.
  ghost predicate Confined(s: State, s': State, t: ThreadId, b: Block, bi: ThreadId, bj: ThreadId)
    requires Shaped(s) && Shaped(s') && t < s.threads && s'.threads == s.threads
  {
    && SameLinksBut(s.next, s'.next, b)
    && (forall p :: IsList(p) && p != FreeList(t) && p != Collected(t) && p != Box(bi, bj) ==>
          ListAt(s'.lists, p) == ListAt(s.lists, p))
    && (forall i: ThreadId, j: ThreadId :: (i, j) != (bi, bj) ==>
          HeadOf(s', i, j) == HeadOf(s, i, j) && TailOf(s', i, j) == TailOf(s, i, j))
    && (forall u :: 0 <= u < s.threads && u != t ==> s'.pcs[u] == s.pcs[u] && s'.freeHead[u] == s.freeHead[u])
    && (forall i: ThreadId :: (i, t) != (bi, bj) ==> !Cutting(s'.pcs[t], i) && !Cutting(s.pcs[t], i))
    && (forall x, u ::
          u != t && x in s.place && s.place[x] == Pushing(u) ==> x in s'.place && s'.place[x] == Pushing(u))
    && (forall x :: x in s'.head.Keys <==> x in s.head.Keys || x == (bi, bj))
  }

  // The links agree except perhaps at b.
  ghost predicate SameLinksBut(next: map<Block, Option<Block>>, next': map<Block, Option<Block>>, b: Block) {
    forall x :: x in next && x != b ==> x in next' && next'[x] == next[x]
  }

  // Lists that b is not in keep their links.
  lemma LinkedFrame(next: map<Block, Option<Block>>, next': map<Block, Option<Block>>, b: Block,
                    head: Option<Block>, q: seq<Block>)
    requires SameLinksBut(next, next', b) && Linked(next, head, q) && b !in q
    ensures Linked(next', head, q)
  {
    forall k | 0 <= k < |q|
      ensures q[k] in next' && next'[q[k]] == if k + 1 < |q| then Some(q[k + 1]) else None
    {
      assert q[k] in q;
    }
  }

  ghost predicate BoxKept(s: State, s': State, t: ThreadId, bi: ThreadId, bj: ThreadId) {
    var q, q' := ListAt(s.lists, Box(bi, bj)), ListAt(s'.lists, Box(bi, bj));
    // a writer may only add in front, a reader leaves the head alone
    && (bj != t ==> q != [] && q' != [] && q'[|q'| - 1] == q[|q| - 1] && forall x :: x in q ==> x in q')
    && (bi != t ==> HeadOf(s', bi, bj) == HeadOf(s, bi, bj) && ((bi, bj) in s.head || (bi, bj) !in s'.head))
  }

  // What a thread knows survives changes to links, lists and heads it does not use.
  lemma PcKept(pc: Pc, u: ThreadId, threads: nat, b: Block,
               next: map<Block, Option<Block>>, next': map<Block, Option<Block>>,
               head: map<(ThreadId, ThreadId), Option<Block>>, head': map<(ThreadId, ThreadId), Option<Block>>,
               place: map<Block, Place>, place': map<Block, Place>,
               lists: map<Place, seq<Block>>, lists': map<Place, seq<Block>>)
    requires PcOk(pc, u, threads, next, head, place, lists) && SameLinksBut(next, next', b)
    requires ListAt(lists', Collected(u)) == ListAt(lists, Collected(u)) && b !in ListAt(lists, Collected(u))
    requires pc.PullNext? || pc.PullCut? || pc.PullTail? ==>
               var q, q' := ListAt(lists, Box(pc.i, u)), ListAt(lists', Box(pc.i, u));
               b !in q && (forall x :: x in q ==> x in q') && (q != [] ==> q' != [] && q'[|q'| - 1] == q[|q| - 1])
    requires PushedBlock(pc).Some? ==>
               var x := PushedBlock(pc).value;
               && x != b && (x in place && place[x] == Pushing(u) ==> x in place' && place'[x] == Pushing(u))
               && (x.Pooled? && (u, x.owner) in head ==>
                     (u, x.owner) in head' && head'[(u, x.owner)] == head[(u, x.owner)])
    ensures PcOk(pc, u, threads, next', head', place', lists')
  {
    match pc
    case PullTail(i, _, h, hn) => LinkedFrame(next, next', b, hn, ListAt(lists, Collected(u)));
    case Splice(i, _, first, tt) => LinkedFrame(next, next', b, Some(first), ListAt(lists, Collected(u)));
    case _ =>
  }

  lemma NotInList(s: State, b: Block, p: Place)
    requires PlacesInv(s.place, s.lists) && IsList(p) && (b in s.place ==> s.place[b] != p)
    ensures b !in ListAt(s.lists, p)
  {
    assert b in ListAt(s.lists, p) <==> b in s.place && s.place[b] == p;
  }

  // Block b is not in any list the step leaves alone.
  ghost predicate Local(place: map<Block, Place>, b: Block, t: ThreadId, bi: ThreadId, bj: ThreadId) {
    b in place ==>
      var p := place[b];
      p == Hand || p == Pushing(t) || p == FreeList(t) || p == Collected(t) || (p == Box(bi, bj) && bj == t)
  }

  lemma ReaderUndisturbed(s: State, s': State, t: ThreadId, u: ThreadId, i: ThreadId,
                          b: Block, bi: ThreadId, bj: ThreadId)
    requires Shaped(s) && Shaped(s') && s'.threads == s.threads && t < s.threads && u != t
    requires PlacesInv(s.place, s.lists)
    requires Confined(s, s', t, b, bi, bj) && BoxKept(s, s', t, bi, bj) && Local(s.place, b, t, bi, bj)
    ensures var q, q' := ListAt(s.lists, Box(i, u)), ListAt(s'.lists, Box(i, u));
            b !in q && (forall x :: x in q ==> x in q') && (q != [] ==> q' != [] && q'[|q'| - 1] == q[|q| - 1])
  {
    NotInList(s, b, Box(i, u));
    if Box(i, u) != Box(bi, bj) {
      assert ListAt(s'.lists, Box(i, u)) == ListAt(s.lists, Box(i, u));
    }
  }

  lemma MailerUndisturbed(s: State, s': State, t: ThreadId, u: ThreadId, x: Block, b: Block, bi: ThreadId, bj: ThreadId)
    requires Shaped(s) && Shaped(s') && s'.threads == s.threads && t < s.threads && u != t
    requires Confined(s, s', t, b, bi, bj) && BoxKept(s, s', t, bi, bj) && Local(s.place, b, t, bi, bj)
    requires x in s.place && s.place[x] == Pushing(u) && x.Pooled?
    ensures x != b && x in s'.place && s'.place[x] == Pushing(u)
    ensures (u, x.owner) in s.head ==> (u, x.owner) in s'.head && s'.head[(u, x.owner)] == s.head[(u, x.owner)]
  {
    if (u, x.owner) in s.head {
      assert HeadOf(s', u, x.owner) == HeadOf(s, u, x.owner);
      assert (u, x.owner) in s'.head.Keys;
    }
  }

  lemma OtherThreadKept(s: State, s': State, t: ThreadId, u: ThreadId, b: Block, bi: ThreadId, bj: ThreadId)
    requires Shaped(s) && Shaped(s') && s'.threads == s.threads && t < s.threads && u < s.threads && u != t
    requires PlacesInv(s.place, s.lists) && PcOk(s.pcs[u], u, s.threads, s.next, s.head, s.place, s.lists)
    requires Confined(s, s', t, b, bi, bj) && BoxKept(s, s', t, bi, bj) && Local(s.place, b, t, bi, bj)
    ensures PcOk(s'.pcs[u], u, s.threads, s'.next, s'.head, s'.place, s'.lists)
  {
    var pc := s.pcs[u];
    NotInList(s, b, Collected(u));
    assert ListAt(s'.lists, Collected(u)) == ListAt(s.lists, Collected(u));
    hide PlacesInv, PcOk, ListAt;
    if pc.PullNext? || pc.PullCut? || pc.PullTail? {
      ReaderUndisturbed(s, s', t, u, pc.i, b, bi, bj);
      PcKept(pc, u, s.threads, b, s.next, s'.next, s.head, s'.head, s.place, s'.place, s.lists, s'.lists);
    } else if PushedBlock(pc).Some? {
      MailerUndisturbed(s, s', t, u, PushedBlock(pc).value, b, bi, bj);
      PcKept(pc, u, s.threads, b, s.next, s'.next, s.head, s'.head, s.place, s'.place, s.lists, s'.lists);
    } else {
      PcKept(pc, u, s.threads, b, s.next, s'.next, s.head, s'.head, s.place, s'.place, s.lists, s'.lists);
    }
  }

  lemma OtherBoxKept(s: State, s': State, t: ThreadId, b: Block, bi: ThreadId, bj: ThreadId, i: ThreadId, j: ThreadId)
    requires Shaped(s) && Shaped(s') && s'.threads == s.threads && t < s.threads && i < s.threads && j < s.threads
    requires PlacesInv(s.place, s.lists) && (i, j) != (bi, bj)
    requires Confined(s, s', t, b, bi, bj) && Local(s.place, b, t, bi, bj)
    requires OneBox(s, i, j)
    ensures OneBox(s', i, j)
  {
    NotInList(s, b, Box(i, j));
    LinkedFrame(s.next, s'.next, b, HeadOf(s, i, j), ListAt(s.lists, Box(i, j)));
  }

  lemma OtherFreeKept(s: State, s': State, t: ThreadId, b: Block, bi: ThreadId, bj: ThreadId, u: ThreadId)
    requires Shaped(s) && Shaped(s') && s'.threads == s.threads && t < s.threads && u < s.threads && u != t
    requires PlacesInv(s.place, s.lists) && Confined(s, s', t, b, bi, bj) && Local(s.place, b, t, bi, bj)
    requires Linked(s.next, s.freeHead[u], ListAt(s.lists, FreeList(u)))
    ensures Linked(s'.next, s'.freeHead[u], ListAt(s'.lists, FreeList(u)))
  {
    NotInList(s, b, FreeList(u));
    LinkedFrame(s.next, s'.next, b, s.freeHead[u], ListAt(s.lists, FreeList(u)));
  }

  // What a step of t leaves alone, and what it must re-establish.
  ghost predicate Frame(s: State, s': State, t: ThreadId, b: Block, bi: ThreadId, bj: ThreadId)
    requires Shaped(s)
  {
    && Shaped(s') && s'.threads == s.threads && s'.numThreads == s.numThreads
    && t < s.threads && bi < s.threads && bj < s.threads
    && Confined(s, s', t, b, bi, bj) && BoxKept(s, s', t, bi, bj) && Local(s.place, b, t, bi, bj)
  }

  ghost predicate OneThread(s: State, t: ThreadId)
    requires Shaped(s) && t < s.threads
  {
    && PcOk(s.pcs[t], t, s.threads, s.next, s.head, s.place, s.lists)
    && Linked(s.next, s.freeHead[t], ListAt(s.lists, FreeList(t)))
  }

  lemma Reassemble(s: State, s': State, t: ThreadId, b: Block, bi: ThreadId, bj: ThreadId)
    requires Inv(s) && Frame(s, s', t, b, bi, bj)
    requires PlacesInv(s'.place, s'.lists) && HomeInv(s') && OneBox(s', bi, bj) && OneThread(s', t)
    ensures Inv(s')
  {
    BoxesReassembled(s, s', t, b, bi, bj);
    PcsReassembled(s, s', t, b, bi, bj);
    FreeReassembled(s, s', t, b, bi, bj);
  }

  lemma BoxesReassembled(s: State, s': State, t: ThreadId, b: Block, bi: ThreadId, bj: ThreadId)
    requires Shaped(s) && PlacesInv(s.place, s.lists) && BoxesInv(s) && Frame(s, s', t, b, bi, bj) && OneBox(s', bi, bj)
    ensures BoxesInv(s')
  {
    forall i, j | 0 <= i < s.threads && 0 <= j < s.threads && (i, j) != (bi, bj)
      ensures OneBox(s', i, j)
    {
      OtherBoxKept(s, s', t, b, bi, bj, i, j);
    }
  }

  lemma PcsReassembled(s: State, s': State, t: ThreadId, b: Block, bi: ThreadId, bj: ThreadId)
    requires Shaped(s) && PlacesInv(s.place, s.lists) && PcsInv(s) && Frame(s, s', t, b, bi, bj) && OneThread(s', t)
    ensures PcsInv(s')
  {
    forall u | 0 <= u < s.threads && u != t
      ensures PcOk(s'.pcs[u], u, s.threads, s'.next, s'.head, s'.place, s'.lists)
    {
      OtherThreadKept(s, s', t, u, b, bi, bj);
    }
  }

  lemma FreeReassembled(s: State, s': State, t: ThreadId, b: Block, bi: ThreadId, bj: ThreadId)
    requires Shaped(s) && PlacesInv(s.place, s.lists) && FreeInv(s) && Frame(s, s', t, b, bi, bj) && OneThread(s', t)
    ensures FreeInv(s')
  {
    forall u | 0 <= u < s.threads && u != t
      ensures Linked(s'.next, s'.freeHead[u], ListAt(s'.lists, FreeList(u)))
    {
      OtherFreeKept(s, s', t, b, bi, bj, u);
    }
  }

  // Moving blocks keeps everything at home, if they may be where they go.
  lemma HomeMove(s: State, s': State, t: ThreadId, blocks: seq<Block>, dst: Place)
    requires Shaped(s) && Shaped(s') && HomeInv(s) && t < s.threads
    requires s'.threads == s.threads && s'.size == s.size && s'.horizon == s.horizon
    requires s'.place == Moved(s.place, blocks, dst) && forall b :: b in blocks ==> b in s.place
    requires forall u :: 0 <= u < s.threads && u != t ==> s'.pcs[u] == s.pcs[u]
    requires forall b :: b in blocks ==> b.Pooled? && HomeOk(b, dst, s'.threads, s'.held, s'.pcs)
    requires forall b :: b in s.place && b !in blocks && s.place[b] == Pushing(t) ==> PushedBlock(s'.pcs[t]) == Some(b)
    requires forall b :: b in s.place && b !in blocks && s.place[b] == Hand ==> b in s'.held
    requires forall b: Block :: b in s'.held && b.Pooled? ==> if b in blocks then dst == Hand else b in s.held
    ensures HomeInv(s')
  {
    forall b | b in s'.place
      ensures b.Pooled? && HomeOk(b, s'.place[b], s'.threads, s'.held, s'.pcs)
    {
      if b !in blocks {
        assert HomeOk(b, s.place[b], s.threads, s.held, s.pcs);
      }
    }
  }

  // For steps that touch no mailbox.
  ghost predicate FrameLocal(s: State, s': State, t: ThreadId, b: Block)
    requires Shaped(s)
  {
    && Shaped(s') && s'.threads == s.threads && s'.numThreads == s.numThreads && t < s.threads
    && SameLinksBut(s.next, s'.next, b) && s'.head == s.head && s'.tail == s.tail
    && (forall p :: IsList(p) && p != FreeList(t) && p != Collected(t) ==> ListAt(s'.lists, p) == ListAt(s.lists, p))
    && (forall u :: 0 <= u < s.threads && u != t ==> s'.pcs[u] == s.pcs[u] && s'.freeHead[u] == s.freeHead[u])
    && !s.pcs[t].PullTail? && !s'.pcs[t].PullTail?
    && (forall x, u ::
          u != t && x in s.place && s.place[x] == Pushing(u) ==> x in s'.place && s'.place[x] == Pushing(u))
    && (b in s.place ==>
          s.place[b] == Hand || s.place[b] == Pushing(t) || s.place[b] == FreeList(t) || s.place[b] == Collected(t))
  }

  lemma LocalIsFrame(s: State, s': State, t: ThreadId, b: Block)
    requires Shaped(s) && FrameLocal(s, s', t, b) && OneBox(s, t, t)
    ensures Frame(s, s', t, b, t, t)
  {
  }

  lemma OwnBoxKept(s: State, s': State, t: ThreadId, b: Block)
    requires Shaped(s) && FrameLocal(s, s', t, b) && PlacesInv(s.place, s.lists) && OneBox(s, t, t)
    ensures OneBox(s', t, t)
  {
    NotInList(s, b, Box(t, t));
    LinkedFrame(s.next, s'.next, b, HeadOf(s, t, t), ListAt(s.lists, Box(t, t)));
  }

  lemma ReassembleLocal(s: State, s': State, t: ThreadId, b: Block)
    requires Inv(s) && FrameLocal(s, s', t, b)
    requires PlacesInv(s'.place, s'.lists) && HomeInv(s') && OneThread(s', t)
    ensures Inv(s')
  {
    assert OneBox(s, t, t);
    LocalIsFrame(s, s', t, b);
    OwnBoxKept(s, s', t, b);
    Reassemble(s, s', t, b, t, t);
  }

  // get from the free list.
  lemma GetFreeMoves(s: State, t: ThreadId)
    requires Shaped(s) && PlacesInv(s.place, s.lists) && HomeInv(s)
    requires t < s.threads && s.pcs[t].GetLocal? && s.freeHead[t].Some? && OneThread(s, t)
    ensures s.freeHead[t].value !in s.held
    ensures PlacesInv(GotLocal(s, t).place, GotLocal(s, t).lists) && HomeInv(GotLocal(s, t))
  {
    var s' := GotLocal(s, t);
    var res, q := s.freeHead[t].value, ListAt(s.lists, FreeList(t));
    assert q[0] == res && res in q;
    MovedOne(s.place, res, Hand);
    LinkedRest(s.next, s.freeHead[t], q);
    PlacesMove(s.place, s.lists, s'.lists, [res], FreeList(t), Hand);
    HomeMove(s, s', t, [res], Hand);
  }

  lemma GetFreeLinks(s: State, t: ThreadId)
    requires Shaped(s) && PlacesInv(s.place, s.lists)
    requires t < s.threads && s.pcs[t].GetLocal? && s.freeHead[t].Some? && OneThread(s, t)
    ensures FrameLocal(s, GotLocal(s, t), t, s.freeHead[t].value) && OneThread(GotLocal(s, t), t)
  {
    var q := ListAt(s.lists, FreeList(t));
    assert s.freeHead[t].value in q;
    LinkedRest(s.next, s.freeHead[t], q);
  }

  lemma GetFreeStep(s: State, t: ThreadId)
    requires Inv(s) && t < s.threads && s.pcs[t].GetLocal? && s.freeHead[t].Some?
    ensures Inv(GotLocal(s, t))
    ensures s.freeHead[t].value !in s.held
  {
    assert OneThread(s, t);
    GetFreeMoves(s, t);
    GetFreeLinks(s, t);
    ReassembleLocal(s, GotLocal(s, t), t, s.freeHead[t].value);
  }

  // get of a block never issued before.
  lemma GetFreshMoves(s: State, t: ThreadId)
    requires Shaped(s) && PlacesInv(s.place, s.lists) && HomeInv(s)
    requires t < s.threads && s.pcs[t].GetLocal? && s.freeHead[t].None? && s.horizon[t] < s.size
    ensures PlacesInv(GotLocal(s, t).place, GotLocal(s, t).lists) && HomeInv(GotLocal(s, t))
    ensures Pooled(t, s.horizon[t]) !in s.held && Pooled(t, s.horizon[t]) !in s.place
  {
    var s' := GotLocal(s, t);
    assert Pooled(t, s.horizon[t]) !in s.place;
    forall p, b | IsList(p)
      ensures b in ListAt(s'.lists, p) <==> b in s'.place && s'.place[b] == p
    {
      assert b in ListAt(s.lists, p) <==> b in s.place && s.place[b] == p;
    }
  }

  lemma GetFreshStep(s: State, t: ThreadId)
    requires Inv(s) && t < s.threads && s.pcs[t].GetLocal? && s.freeHead[t].None? && s.horizon[t] < s.size
    ensures Inv(GotLocal(s, t))
    ensures Pooled(t, s.horizon[t]) !in s.held
  {
    var s' := GotLocal(s, t);
    GetFreshMoves(s, t);
    assert OneThread(s, t);
    ReassembleLocal(s, s', t, Pooled(t, s.horizon[t]));
  }

  lemma GetFailStep(s: State, t: ThreadId)
    requires Inv(s) && t < s.threads && s.pcs[t].GetLocal? && s.freeHead[t].None? && s.horizon[t] >= s.size
    ensures Inv(GotLocal(s, t))
  {
    var s' := GotLocal(s, t);
    assert PcOk(s.pcs[t], t, s.threads, s.next, s.head, s.place, s.lists);
    PcStep(s, t, s'.pcs[t], s.touch, s.held);
  }

  // Freeing one's own block.
  lemma PutOwnMoves(s: State, t: ThreadId, b: Block)
    requires Enabled(s, CallPut(t, b)) && b.Pooled? && b.owner == t
    requires PlacesInv(s.place, s.lists) && HomeInv(s)
    ensures PlacesInv(PutCalled(s, t, b).place, PutCalled(s, t, b).lists) && HomeInv(PutCalled(s, t, b))
  {
    var s' := PutCalled(s, t, b);
    MovedOne(s.place, b, FreeList(t));
    NotInList(s, b, FreeList(t));
    PrependFresh(ListAt(s.lists, FreeList(t)), b);
    PlacesMove(s.place, s.lists, s'.lists, [b], Hand, FreeList(t));
    HomeMove(s, s', t, [b], FreeList(t));
  }

  lemma PutOwnLinks(s: State, t: ThreadId, b: Block)
    requires Enabled(s, CallPut(t, b)) && b.Pooled? && b.owner == t
    requires PlacesInv(s.place, s.lists) && OneThread(s, t) && b in s.place && s.place[b] == Hand
    ensures FrameLocal(s, PutCalled(s, t, b), t, b) && OneThread(PutCalled(s, t, b), t)
  {
    NotInList(s, b, FreeList(t));
    LinkedCons(s.next, s.freeHead[t], ListAt(s.lists, FreeList(t)), b);
  }

  lemma PutOwnStep(s: State, t: ThreadId, b: Block)
    requires Inv(s) && Enabled(s, CallPut(t, b)) && b.Pooled? && b.owner == t
    ensures Inv(PutCalled(s, t, b))
    ensures var s' := PutCalled(s, t, b);
            s'.held == s.held - {b} && ListAt(s'.lists, FreeList(t)) == [b] + ListAt(s.lists, FreeList(t))
  {
    assert OneThread(s, t);
    PutOwnMoves(s, t, b);
    PutOwnLinks(s, t, b);
    ReassembleLocal(s, PutCalled(s, t, b), t, b);
  }

  lemma PutMailMoves(s: State, t: ThreadId, b: Block)
    requires Enabled(s, CallPut(t, b)) && b.Pooled? && b.owner != t
    requires PlacesInv(s.place, s.lists) && HomeInv(s)
    ensures PlacesInv(PutCalled(s, t, b).place, PutCalled(s, t, b).lists) && HomeInv(PutCalled(s, t, b))
  {
    var s' := PutCalled(s, t, b);
    MovedOne(s.place, b, Pushing(t));
    PlacesMove(s.place, s.lists, s'.lists, [b], Hand, Pushing(t));
    HomeMove(s, s', t, [b], Pushing(t));
  }

  lemma PutMailStep(s: State, t: ThreadId, b: Block)
    requires Inv(s) && Enabled(s, CallPut(t, b)) && b.Pooled? && b.owner != t
    ensures Inv(PutCalled(s, t, b))
    ensures var s' := PutCalled(s, t, b);
            s'.held == s.held - {b} && PushedBlock(s'.pcs[t]) == Some(b)
            && forall p :: IsList(p) ==> b !in ListAt(s'.lists, p)
  {
    assert OneThread(s, t);
    PutMailMoves(s, t, b);
    ReassembleLocal(s, PutCalled(s, t, b), t, b);
  }

  // The link of the block being mailed is written while nobody else can see it.
  lemma PushLinkLinks(s: State, t: ThreadId)
    requires Shaped(s) && PlacesInv(s.place, s.lists) && t < s.threads && s.pcs[t].PushLink? && OneThread(s, t)
    requires s.pcs[t].b.Pooled? && s.pcs[t].b.owner < s.threads && OneBox(s, t, s.pcs[t].b.owner)
    ensures FrameLocal(s, Pushed(s, t), t, s.pcs[t].b) && OneThread(Pushed(s, t), t)
  {
    var b := s.pcs[t].b;
    NotInList(s, b, FreeList(t));
    LinkedFrame(s.next, Pushed(s, t).next, b, s.freeHead[t], ListAt(s.lists, FreeList(t)));
  }

  lemma PushLinkStep(s: State, t: ThreadId)
    requires Inv(s) && t < s.threads && s.pcs[t].PushLink?
    ensures s.pcs[t].b.Pooled? && Inv(Pushed(s, t))
  {
    assert OneThread(s, t);
    var b := s.pcs[t].b;
    assert OneBox(s, t, b.owner);
    PushLinkLinks(s, t);
    HomeMove(s, Pushed(s, t), t, [], Hand);
    ReassembleLocal(s, Pushed(s, t), t, b);
  }

  // Writing _head adds the block to the mailbox, whatever its reader is doing.
  lemma PushHeadMoves(s: State, t: ThreadId)
    requires Shaped(s) && PlacesInv(s.place, s.lists) && HomeInv(s) && t < s.threads && s.pcs[t].PushHead?
    requires OneThread(s, t)
    ensures s.pcs[t].b.Pooled?
    ensures PlacesInv(Pushed(s, t).place, Pushed(s, t).lists) && HomeInv(Pushed(s, t))
  {
    var b := s.pcs[t].b;
    var p := Box(t, b.owner);
    var q := ListAt(s.lists, p);
    var s' := Pushed(s, t);
    MovedOne(s.place, b, p);
    NotInList(s, b, p);
    PrependFresh(q, b);
    PlacesMove(s.place, s.lists, s'.lists, [b], Pushing(t), p);
    HomeMove(s, s', t, [b], p);
  }

  lemma PushHeadBox(s: State, t: ThreadId)
    requires Shaped(s) && PlacesInv(s.place, s.lists) && t < s.threads && s.pcs[t].PushHead? && OneThread(s, t)
    requires s.pcs[t].b.Pooled? && s.pcs[t].b.owner < s.threads && OneBox(s, t, s.pcs[t].b.owner)
    ensures OneBox(Pushed(s, t), t, s.pcs[t].b.owner)
  {
    var b := s.pcs[t].b;
    var j := b.owner;
    var q := ListAt(s.lists, Box(t, j));
    NotInList(s, b, Box(t, j));
    LinkedCons(s.next, HeadOf(s, t, j), q, b);
    assert s.next[b := HeadOf(s, t, j)] == s.next;
  }

  lemma PushHeadFrame(s: State, t: ThreadId)
    requires Shaped(s) && t < s.threads && s.pcs[t].PushHead? && OneThread(s, t)
    requires s.pcs[t].b.Pooled? && s.pcs[t].b.owner < s.threads && OneBox(s, t, s.pcs[t].b.owner)
    ensures Frame(s, Pushed(s, t), t, s.pcs[t].b, t, s.pcs[t].b.owner)
    ensures OneThread(Pushed(s, t), t)
  {
  }

  lemma PushHeadStep(s: State, t: ThreadId)
    requires Inv(s) && t < s.threads && s.pcs[t].PushHead?
    ensures s.pcs[t].b.Pooled? && Inv(Pushed(s, t))
  {
    assert OneThread(s, t);
    var b := s.pcs[t].b;
    assert OneBox(s, t, b.owner);
    PushHeadMoves(s, t);
    PushHeadBox(s, t);
    PushHeadFrame(s, t);
    Reassemble(s, Pushed(s, t), t, b, t, b.owner);
  }

  // Cutting the mailbox behind the block seen as its head.
  lemma PullCutPlaces(s: State, t: ThreadId)
    requires Shaped(s) && PlacesInv(s.place, s.lists) && t < s.threads && s.pcs[t].PullCut? && OneThread(s, t)
    ensures PlacesInv(Pulled(s, t).place, Pulled(s, t).lists)
  {
    var PullCut(i, got, h, hn) := s.pcs[t];
    var q := ListAt(s.lists, Box(i, t));
    var k := Position(q, h.value);
    assert k < |q| && ListAt(s.lists, Collected(t)) == [];
    var rest := q[k + 1..];
    assert Pulled(s, t).lists == s.lists[Box(i, t) := q[..k + 1]][Collected(t) := rest];
    assert Pulled(s, t).place == Moved(s.place, rest, Collected(t));
    hide PcOk, Pulled, Position, OneThread;
    assert q == q[..k + 1] + rest;
    PartsDisjoint(q, q[..k + 1], rest);
    assert forall b :: b in rest ==> b in q;
    PlacesMove(s.place, s.lists, Pulled(s, t).lists, rest, Box(i, t), Collected(t));
  }

  lemma PullCutHome(s: State, t: ThreadId)
    requires Shaped(s) && HomeInv(s) && t < s.threads && s.pcs[t].PullCut? && s.pcs[t].h.Some?
    requires var q := ListAt(s.lists, Box(s.pcs[t].i, t));
             s.pcs[t].h.value in q && forall b :: b in q ==> b in s.place && s.place[b] == Box(s.pcs[t].i, t)
    ensures HomeInv(Pulled(s, t))
  {
    var q := ListAt(s.lists, Box(s.pcs[t].i, t));
    var rest := q[Position(q, s.pcs[t].h.value) + 1..];
    assert forall b :: b in rest ==> b in q;
    HomeMove(s, Pulled(s, t), t, rest, Collected(t));
  }

  // The two halves of the mailbox as lists.
  lemma PullCutHalves(s: State, t: ThreadId)
    requires Shaped(s) && PlacesInv(s.place, s.lists) && t < s.threads && s.pcs[t].PullCut?
    requires PcOk(s.pcs[t], t, s.threads, s.next, s.head, s.place, s.lists) && OneBox(s, s.pcs[t].i, t)
    ensures var PullCut(i, got, h, hn), s' := s.pcs[t], Pulled(s, t);
            var q, q', cut := ListAt(s.lists, Box(i, t)), ListAt(s'.lists, Box(i, t)), ListAt(s'.lists, Collected(t));
            && q == q' + cut && q' != [] && q'[|q'| - 1] == h.value
            && Linked(s'.next, HeadOf(s, i, t), q') && Linked(s'.next, hn, cut)
  {
    var PullCut(i, got, h, hn) := s.pcs[t];
    var q := ListAt(s.lists, Box(i, t));
    var k := Position(q, h.value);
    assert q == q[..k + 1] + q[k + 1..];
    LinkedCut(s.next, HeadOf(s, i, t), q, q[..k + 1], q[k + 1..]);
  }

  lemma PullCutBox(s: State, t: ThreadId)
    requires Shaped(s) && PlacesInv(s.place, s.lists) && t < s.threads && s.pcs[t].PullCut?
    requires PcOk(s.pcs[t], t, s.threads, s.next, s.head, s.place, s.lists) && OneBox(s, s.pcs[t].i, t)
    ensures OneBox(Pulled(s, t), s.pcs[t].i, t)
    ensures var s' := Pulled(s, t); PcOk(s'.pcs[t], t, s.threads, s'.next, s'.head, s'.place, s'.lists)
  {
    PullCutHalves(s, t);
  }

  lemma PullCutFree(s: State, t: ThreadId)
    requires Shaped(s) && PlacesInv(s.place, s.lists) && t < s.threads && s.pcs[t].PullCut? && OneThread(s, t)
    ensures Linked(Pulled(s, t).next, Pulled(s, t).freeHead[t], ListAt(Pulled(s, t).lists, FreeList(t)))
  {
    var h := s.pcs[t].h;
    NotInList(s, h.value, FreeList(t));
    LinkedFrame(s.next, s.next[h.value := None], h.value, s.freeHead[t], ListAt(s.lists, FreeList(t)));
  }

  lemma PullCutConfined(s: State, t: ThreadId)
    requires Shaped(s) && t < s.threads && s.pcs[t].PullCut? && s.pcs[t].h.Some? && HeadOf(s, s.pcs[t].i, t).Some?
    requires forall b :: b in ListAt(s.lists, Box(s.pcs[t].i, t)) ==> b in s.place && s.place[b] == Box(s.pcs[t].i, t)
    ensures Shaped(Pulled(s, t)) && Confined(s, Pulled(s, t), t, s.pcs[t].h.value, s.pcs[t].i, t)
  {
    var PullCut(i, got, h, hn) := s.pcs[t];
    var q := ListAt(s.lists, Box(i, t));
    var k := Position(q, h.value);
    assert k < |q| ==> forall b :: b in q[k + 1..] ==> b in q;
  }

  lemma PullCutFrame(s: State, t: ThreadId)
    requires Shaped(s) && PlacesInv(s.place, s.lists) && t < s.threads && s.pcs[t].PullCut?
    requires OneThread(s, t) && OneBox(s, s.pcs[t].i, t)
    ensures Frame(s, Pulled(s, t), t, s.pcs[t].h.value, s.pcs[t].i, t)
  {
    PullCutConfined(s, t);
  }

  lemma InBox(s: State, t: ThreadId)
    requires Shaped(s) && PlacesInv(s.place, s.lists) && t < s.threads && s.pcs[t].PullCut? && OneThread(s, t)
    ensures s.pcs[t].h.Some?
    ensures var q := ListAt(s.lists, Box(s.pcs[t].i, t));
            s.pcs[t].h.value in q && forall b :: b in q ==> b in s.place && s.place[b] == Box(s.pcs[t].i, t)
  {
  }

  lemma PullCutStep(s: State, t: ThreadId)
    requires Inv(s) && t < s.threads && s.pcs[t].PullCut?
    ensures Inv(Pulled(s, t))
  {
    assert OneThread(s, t);
    assert OneBox(s, s.pcs[t].i, t);
    PullCutPlaces(s, t);
    InBox(s, t);
    PullCutHome(s, t);
    PullCutBox(s, t);
    PullCutFree(s, t);
    PullCutFrame(s, t);
    Reassemble(s, Pulled(s, t), t, s.pcs[t].h.value, s.pcs[t].i, t);
  }

  lemma PullTailBox(s: State, t: ThreadId)
    requires Shaped(s) && PlacesInv(s.place, s.lists) && t < s.threads && s.pcs[t].PullTail?
    requires OneThread(s, t) && OneBox(s, s.pcs[t].i, t) && HomeInv(s)
    ensures OneBox(Pulled(s, t), s.pcs[t].i, t) && OneThread(Pulled(s, t), t)
    ensures Frame(s, Pulled(s, t), t, Heap(0), s.pcs[t].i, t)
  {
    var q := ListAt(s.lists, Box(s.pcs[t].i, t));
    assert forall b :: b in q ==> s.place[b] == Box(s.pcs[t].i, t);
  }

  lemma PullTailStep(s: State, t: ThreadId)
    requires Inv(s) && t < s.threads && s.pcs[t].PullTail?
    ensures Inv(Pulled(s, t))
  {
    assert OneThread(s, t);
    assert OneBox(s, s.pcs[t].i, t);
    PullTailBox(s, t);
    HomeMove(s, Pulled(s, t), t, [], Hand);
    Reassemble(s, Pulled(s, t), t, Heap(0), s.pcs[t].i, t);
  }

  // The collected chain goes in front of the free list.
  lemma SpliceMoves(s: State, t: ThreadId)
    requires Shaped(s) && PlacesInv(s.place, s.lists) && HomeInv(s) && t < s.threads && s.pcs[t].Splice?
    requires OneThread(s, t)
    ensures PlacesInv(Pulled(s, t).place, Pulled(s, t).lists) && HomeInv(Pulled(s, t))
  {
    var chain, q := ListAt(s.lists, Collected(t)), ListAt(s.lists, FreeList(t));
    var s' := Pulled(s, t);
    ChainApart(s, t);
    LinkedJoin(s.next, Some(s.pcs[t].first), chain, s.freeHead[t], q);
    PlacesMove(s.place, s.lists, s'.lists, chain, Collected(t), FreeList(t));
    HomeMove(s, s', t, chain, FreeList(t));
  }

  lemma ChainApart(s: State, t: ThreadId)
    requires PlacesInv(s.place, s.lists)
    ensures forall b :: b in ListAt(s.lists, Collected(t)) ==>
              b in s.place && s.place[b] == Collected(t) && b !in ListAt(s.lists, FreeList(t))
  {
  }

  lemma SpliceLinks(s: State, t: ThreadId)
    requires Shaped(s) && PlacesInv(s.place, s.lists) && t < s.threads && s.pcs[t].Splice? && OneThread(s, t)
    ensures var last := ListAt(s.lists, Collected(t));
            last != [] && FrameLocal(s, Pulled(s, t), t, last[|last| - 1])
    ensures OneThread(Pulled(s, t), t)
  {
    var chain, q := ListAt(s.lists, Collected(t)), ListAt(s.lists, FreeList(t));
    ChainApart(s, t);
    LinkedJoin(s.next, Some(s.pcs[t].first), chain, s.freeHead[t], q);
    assert chain[|chain| - 1] in chain;
  }

  lemma SpliceStep(s: State, t: ThreadId)
    requires Inv(s) && t < s.threads && s.pcs[t].Splice?
    ensures Inv(Pulled(s, t))
  {
    assert OneThread(s, t);
    SpliceMoves(s, t);
    SpliceLinks(s, t);
    var chain := ListAt(s.lists, Collected(t));
    ReassembleLocal(s, Pulled(s, t), t, chain[|chain| - 1]);
  }

  // ---------------------------------------------------------------------------
  // Whole runs
  // ---------------------------------------------------------------------------

  lemma HeapPutStep(s: State, t: ThreadId, b: Block)
    requires Inv(s) && Enabled(s, CallPut(t, b)) && b.Heap?
    ensures Inv(PutCalled(s, t, b))
  {
    var s' := PutCalled(s, t, b);
    assert PcOk(s.pcs[t], t, s.threads, s.next, s.head, s.place, s.lists);
    PcStep(s, t, s.pcs[t], s.touch, s'.held);
    assert s' == s.(pcs := s.pcs[t := s.pcs[t]], touch := s.touch, held := s'.held);
  }

  lemma CallGetStep(s: State, t: ThreadId)
    requires Inv(s) && Enabled(s, CallGet(t))
    ensures Inv(Do(s, CallGet(t)))
  {
    assert PcOk(s.pcs[t], t, s.threads, s.next, s.head, s.place, s.lists);
    PcStep(s, t, GetLocal(false), s.touch, s.held);
    assert Do(s, CallGet(t)) == s.(pcs := s.pcs[t := GetLocal(false)], touch := s.touch, held := s.held);
  }

  lemma AdvanceStep(s: State, t: ThreadId, heapId: nat)
    requires Inv(s) && Enabled(s, Advance(t, heapId))
    ensures Inv(Advanced(s, t, heapId))
  {
    assert OneThread(s, t);
    match s.pcs[t]
    case GetLocal(_) =>
      if s.freeHead[t].Some? {
        GetFreeStep(s, t);
      } else if s.horizon[t] < s.size {
        GetFreshStep(s, t);
      } else {
        GetFailStep(s, t);
      }
    case PushLink(_, _) => PushLinkStep(s, t);
    case PushHead(_, _) => PushHeadStep(s, t);
    case PushTail(_) =>
    case PullCut(_, _, _, _) => PullCutStep(s, t);
    case PullTail(_, _, _, _) => PullTailStep(s, t);
    case Splice(_, _, _, _) => SpliceStep(s, t);
    case _ => ReadStep(s, t, heapId);
  }

  // One more thread counts: collects will visit one more mailbox, and look at
  // num_threads again each time.
  lemma JoinStep(s: State, s': State)
    requires Inv(s) && s.numThreads < s.threads && s' == s.(numThreads := s.numThreads + 1)
    ensures Inv(s')
  {
    forall i, j | 0 <= i < s.threads && 0 <= j < s.threads
      ensures OneBox(s', i, j)
    {
      assert OneBox(s, i, j);
    }
    forall t | 0 <= t < s.threads
      ensures OneThread(s', t)
    {
      assert OneThread(s, t);
    }
  }

  lemma StepKeepsInv(s: State, step: Step)
    requires Inv(s) && Enabled(s, step)
    ensures Inv(Do(s, step))
  {
    match step
    case Join(_) => JoinStep(s, Do(s, step));
    case CallGet(t) => CallGetStep(s, t);
    case CallPut(t, b) =>
      if b.Heap? {
        HeapPutStep(s, t, b);
      } else if b.owner == t {
        PutOwnStep(s, t, b);
      } else {
        PutMailStep(s, t, b);
      }
    case Advance(t, heapId) => AdvanceStep(s, t, heapId);
  }

  lemma FirstMailBox(s: State, i: ThreadId, j: ThreadId)
    requires Shaped(s) && j < s.threads && FirstMail(s, i, j) && s.pcs[j].Idle?
    ensures OneBox(s, i, j)
  {
  }

  lemma InitBoxes(s: State)
    requires Init(s)
    ensures BoxesInv(s)
  {
    forall i, j | 0 <= i < s.threads && 0 <= j < s.threads
      ensures OneBox(s, i, j)
    {
      FirstMailBox(s, i, j);
    }
  }

  lemma InitListAt(s: State, p: Place)
    requires Init(s) && IsList(p)
    ensures ListAt(s.lists, p) ==
            if p.Box? && p.src < s.threads && p.dst < s.threads then [Pooled(p.dst, p.src)] else []
  {
    if p.Box? && p.src < s.threads && p.dst < s.threads {
      assert FirstMail(s, p.src, p.dst);
    }
  }

  lemma InitPlaces(s: State)
    requires Init(s)
    ensures PlacesInv(s.place, s.lists)
  {
    forall p, b | IsList(p)
      ensures b in ListAt(s.lists, p) <==> b in s.place && s.place[b] == p
    {
      InitListAt(s, p);
    }
    forall p | IsList(p)
      ensures NoRepeats(ListAt(s.lists, p))
    {
      InitListAt(s, p);
    }
  }

  lemma InitThreads(s: State)
    requires Init(s)
    ensures PcsInv(s) && FreeInv(s) && NoFailure(s)
  {
    forall t | 0 <= t < s.threads
      ensures OneThread(s, t) && GotOk(s.pcs[t], s.freeHead[t])
    {
      InitListAt(s, FreeList(t));
      InitListAt(s, Collected(t));
    }
    assert forall t :: 0 <= t < s.threads ==> OneThread(s, t);
  }

  lemma InitIsGood(s: State)
    requires Init(s)
    ensures Inv(s) && NoFailure(s)
  {
    InitBoxes(s);
    InitPlaces(s);
    InitThreads(s);
    InitHome(s);
  }

  lemma InitHome(s: State)
    requires Init(s)
    ensures HomeInv(s)
  {
  }

  // collect found something: then the free list is not empty.
  ghost predicate GotOk(pc: Pc, free: Option<Block>) {
    && !pc.Failed?
    && (pc.GetLocal? && pc.again ==> free.Some?)
    && ((pc.PullHead? || pc.PullNext? || pc.PullCut? || pc.PullTail? || pc.Splice? || pc.CollectDone?) && pc.got ==>
          free.Some?)
  }

  ghost predicate NoFailure(s: State) {
    Shaped(s) && forall t :: 0 <= t < s.threads ==> GotOk(s.pcs[t], s.freeHead[t])
  }

  // The control of thread t moves on from s to s', and nothing of the others changes.
  ghost predicate MovesOn(s: State, s': State, t: ThreadId)
    requires Shaped(s) && t < s.threads
  {
    && Shaped(s') && s'.threads == s.threads
    && (forall u :: 0 <= u < s.threads && u != t ==> s'.pcs[u] == s.pcs[u] && s'.freeHead[u] == s.freeHead[u])
    && (GotOk(s.pcs[t], s.freeHead[t]) ==> GotOk(s'.pcs[t], s'.freeHead[t]))
  }

  lemma LocalMovesOn(s: State, t: ThreadId)
    requires Shaped(s) && t < s.threads && s.pcs[t].GetLocal?
    ensures MovesOn(s, GotLocal(s, t), t)
  {
  }

  lemma PulledMovesOn(s: State, t: ThreadId)
    requires Shaped(s) && t < s.threads
    requires var pc := s.pcs[t]; pc.PullHead? || pc.PullNext? || pc.PullCut? || pc.PullTail? || pc.Splice?
    ensures MovesOn(s, Pulled(s, t), t)
  {
    var s' := Pulled(s, t);
    if s.pcs[t].Splice? {
      SplicedMovesOn(s, t);
    } else if s.pcs[t].PullCut? {
      CutMovesOn(s, t);
    } else {
      assert s'.freeHead == s.freeHead && s'.pcs == s.pcs[t := s'.pcs[t]];
    }
  }

  lemma CutMovesOn(s: State, t: ThreadId)
    requires Shaped(s) && t < s.threads && s.pcs[t].PullCut?
    ensures MovesOn(s, Pulled(s, t), t)
  {
    hide ListAt, Position, Moved;
  }

  lemma SplicedMovesOn(s: State, t: ThreadId)
    requires Shaped(s) && t < s.threads && s.pcs[t].Splice?
    ensures MovesOn(s, Pulled(s, t), t)
  {
  }

  lemma PushedMovesOn(s: State, t: ThreadId)
    requires Shaped(s) && t < s.threads
    requires var pc := s.pcs[t];
             (pc.PushTest? || pc.PushLink? || pc.PushHead? || pc.PushTail?) && pc.b.Pooled?
    ensures MovesOn(s, Pushed(s, t), t)
  {
  }

  predicate AtShared(pc: Pc) {
    pc.CollectTouch? || pc.CollectDone? || pc.Malloc? || pc.TouchRead? || pc.TouchWrite?
  }

  lemma SharedMovesOn(s: State, t: ThreadId, heapId: nat)
    requires Enabled(s, Advance(t, heapId)) && AtShared(s.pcs[t])
    ensures MovesOn(s, Advanced(s, t, heapId), t)
  {
  }

  lemma PutMovesOn(s: State, t: ThreadId, b: Block)
    requires Enabled(s, CallPut(t, b))
    ensures MovesOn(s, PutCalled(s, t, b), t)
  {
  }

  lemma AdvanceMovesOn(s: State, t: ThreadId, heapId: nat)
    requires Enabled(s, Advance(t, heapId))
    ensures MovesOn(s, Advanced(s, t, heapId), t)
  {
    var pc := s.pcs[t];
    if AtShared(pc) {
      SharedMovesOn(s, t, heapId);
    } else if pc.GetLocal? {
      LocalMovesOn(s, t);
    } else if pc.PushTest? || pc.PushLink? || pc.PushHead? || pc.PushTail? {
      PushedMovesOn(s, t);
    } else {
      PulledMovesOn(s, t);
    }
  }

  lemma OthersUntouched(s: State, step: Step)
    requires Enabled(s, step)
    ensures MovesOn(s, Do(s, step), step.t)
  {
    match step
    case Join(_) =>
    case CallGet(t) =>
    case CallPut(t, b) => PutMovesOn(s, t, b);
    case Advance(t, heapId) => AdvanceMovesOn(s, t, heapId);
  }

  lemma StepKeepsNoFailure(s: State, step: Step)
    requires NoFailure(s) && Enabled(s, step)
    ensures NoFailure(Do(s, step))
  {
    OthersUntouched(s, step);
    var s' := Do(s, step);
    forall u | 0 <= u < s.threads
      ensures GotOk(s'.pcs[u], s'.freeHead[u])
    {
      assert GotOk(s.pcs[u], s.freeHead[u]);
    }
  }

  lemma {:induction false} RunKeepsInv(s: State, schedule: seq<Step>)
    requires Inv(s) && NoFailure(s)
    ensures Exec(s, schedule).Some? ==> Inv(Exec(s, schedule).value) && NoFailure(Exec(s, schedule).value)
    decreases |schedule|
  {
    if schedule != [] && Enabled(s, schedule[0]) {
      StepKeepsInv(s, schedule[0]);
      StepKeepsNoFailure(s, schedule[0]);
      RunKeepsInv(Do(s, schedule[0]), schedule[1..]);
    }
  }

  // The blocks met by following at most n links.
  function Walk(next: map<Block, Option<Block>>, head: Option<Block>, n: nat): seq<Block>
    decreases n
  {
    if head.None? || n == 0 then []
    else [head.value] + Walk(next, if head.value in next then next[head.value] else None, n - 1)
  }

  lemma {:induction false} WalkIsList(next: map<Block, Option<Block>>, head: Option<Block>, q: seq<Block>, n: nat)
    requires Linked(next, head, q) && NoRepeats(q) && n >= |q|
    ensures Walk(next, head, n) == q
    decreases |q|
  {
    if q != [] {
      LinkedRest(next, head, q);
      WalkIsList(next, next[q[0]], q[1..], n - 1);
    }
  }

  lemma FreeListWalk(s: State, t: ThreadId, n: nat)
    requires Inv(s) && t < s.threads && n >= |ListAt(s.lists, FreeList(t))|
    ensures Walk(s.next, s.freeHead[t], n) == ListAt(s.lists, FreeList(t))
  {
    WalkIsList(s.next, s.freeHead[t], ListAt(s.lists, FreeList(t)), n);
  }

  lemma BoxWalk(s: State, i: ThreadId, j: ThreadId, n: nat)
    requires Inv(s) && i < s.threads && j < s.threads && n >= |ListAt(s.lists, Box(i, j))|
    ensures Walk(s.next, HeadOf(s, i, j), n) == ListAt(s.lists, Box(i, j))
  {
    assert OneBox(s, i, j);
    WalkIsList(s.next, HeadOf(s, i, j), ListAt(s.lists, Box(i, j)), n);
  }

  // Where each block is, and that the memory's chains are the lists recorded for it.
  ghost predicate OnePlaceEach(s: State, n: nat) {
    && Shaped(s)
    && (forall b: Block :: b in s.place <==> b.Pooled? && b.owner < s.threads && b.index < s.horizon[b.owner])
    && (forall b: Block :: b.Pooled? ==> (b in s.held <==> b in s.place && s.place[b] == Hand))
    && (forall p, b :: IsList(p) ==> (b in ListAt(s.lists, p) <==> b in s.place && s.place[b] == p))
    && (forall t :: 0 <= t < s.threads && n >= |ListAt(s.lists, FreeList(t))| ==>
          Walk(s.next, s.freeHead[t], n) == ListAt(s.lists, FreeList(t)))
    && (forall i, j :: 0 <= i < s.threads && 0 <= j < s.threads && n >= |ListAt(s.lists, Box(i, j))| ==>
          Walk(s.next, HeadOf(s, i, j), n) == ListAt(s.lists, Box(i, j)))
  }

  lemma PlacedInHand(s: State)
    requires Shaped(s) && HomeInv(s)
    ensures forall b: Block :: b.Pooled? ==> (b in s.held <==> b in s.place && s.place[b] == Hand)
  {
    forall b: Block | b in s.place && s.place[b] == Hand
      ensures b in s.held
    {
      assert HomeOk(b, s.place[b], s.threads, s.held, s.pcs);
    }
  }

  lemma GoodIsOnePlaceEach(s: State, n: nat)
    requires Inv(s)
    ensures OnePlaceEach(s, n)
  {
    PlacedInHand(s);
    forall t | 0 <= t < s.threads && n >= |ListAt(s.lists, FreeList(t))|
      ensures Walk(s.next, s.freeHead[t], n) == ListAt(s.lists, FreeList(t))
    {
      FreeListWalk(s, t, n);
    }
    forall i, j | 0 <= i < s.threads && 0 <= j < s.threads && n >= |ListAt(s.lists, Box(i, j))|
      ensures Walk(s.next, HeadOf(s, i, j), n) == ListAt(s.lists, Box(i, j))
    {
      BoxWalk(s, i, j, n);
    }
  }

  // The free lists and mailboxes are finite chains without a cycle, no block is in two
  // of them, none of them holds a client's block, and no call has failed.
  lemma EachBlockInOnePlace(init: State, schedule: seq<Step>, s: State, n: nat)
    requires Init(init) && Exec(init, schedule) == Some(s)
    ensures OnePlaceEach(s, n)
    ensures forall t :: 0 <= t < s.threads ==> !s.pcs[t].Failed?
  {
    InitIsGood(init);
    RunKeepsInv(init, schedule);
    GoodIsOnePlaceEach(s, n);
    forall t | 0 <= t < s.threads
      ensures !s.pcs[t].Failed?
    {
      assert GotOk(s.pcs[t], s.freeHead[t]);
    }
  }

  // No mailbox is ever empty, so a sender never writes a tail.
  lemma SendersLeaveTheTail(init: State, schedule: seq<Step>, s: State, t: ThreadId)
    requires Init(init) && Exec(init, schedule) == Some(s) && t < s.threads == |s.pcs|
    ensures !s.pcs[t].PushTail?
    ensures forall i :: 0 <= i < s.threads ==> HeadOf(s, i, t).Some?
  {
    InitIsGood(init);
    RunKeepsInv(init, schedule);
    assert PcOk(s.pcs[t], t, s.threads, s.next, s.head, s.place, s.lists);
    forall i | 0 <= i < s.threads
      ensures HeadOf(s, i, t).Some?
    {
      assert OneBox(s, i, t);
    }
  }

  lemma ReturnedIsFree(s: State, step: Step)
    requires Inv(s) && Enabled(s, step) && Returned(s, step).Some?
    ensures var b := Returned(s, step).value;
            && b !in s.held
            && (b.Pooled? ==> b.owner == step.t && b in Do(s, step).place && Do(s, step).place[b] == Hand)
            && (b.Heap? ==> b !in s.place && Do(s, step).place == s.place)
            && Do(s, step).held == s.held + {b}
  {
    if s.pcs[step.t].GetLocal? {
      if s.freeHead[step.t].Some? {
        GetFreeStep(s, step.t);
        assert Linked(s.next, s.freeHead[step.t], ListAt(s.lists, FreeList(step.t)));
        assert s.freeHead[step.t].value in ListAt(s.lists, FreeList(step.t));
      } else {
        GetFreshMoves(s, step.t);
      }
    }
  }

  // get never returns a block in use, and never another thread's block.
  lemma GetIsExclusive(init: State, schedule: seq<Step>, s: State, step: Step)
    requires Init(init) && Exec(init, schedule) == Some(s)
    requires Enabled(s, step) && Returned(s, step).Some?
    ensures var b, s' := Returned(s, step).value, Do(s, step);
            && b !in s.held && s'.held == s.held + {b}
            && (b.Pooled? ==> b.owner == step.t)
            && (forall p :: IsList(p) ==> b !in ListAt(s'.lists, p))
  {
    hide Inv, Do, Init, Shaped, ListAt;
    InitIsGood(init);
    RunKeepsInv(init, schedule);
    ReturnedIsFree(s, step);
    StepKeepsInv(s, step);
    var b, s' := Returned(s, step).value, Do(s, step);
    forall p | IsList(p)
      ensures b !in ListAt(s'.lists, p)
    {
      NotInList(s', b, p);
    }
  }

  // How many steps a thread has left in its call, at most.
  function StepsLeft(pc: Pc, threads: nat): nat {
    match pc
    case Idle => 0
    case Failed => 0
    case GetLocal(again) => if again then 2 else 7 + 5 * threads
    case CollectTouch => 6 + 5 * threads
    case PullHead(i, _) => 5 + 5 * ToVisit(threads, i)
    case PullNext(i, _, _) => 4 + 5 * ToVisit(threads, i)
    case PullCut(i, _, _, _) => 3 + 5 * ToVisit(threads, i)
    case PullTail(i, _, _, _) => 2 + 5 * ToVisit(threads, i)
    case Splice(i, _, _, _) => 1 + 5 * ToVisit(threads, i)
    case CollectDone(_) => 4
    case Malloc => 1
    case PushTest(_) => 6
    case PushLink(_, _) => 5
    case PushHead(_, _) => 4
    case PushTail(_) => 3
    case TouchRead(_, _) => 2
    case TouchWrite(_, _) => 1
  }

  function ToVisit(threads: nat, i: nat): nat {
    if i < threads then threads - i else 0
  }

  lemma PullShortens(s: State, t: ThreadId)
    requires Shaped(s) && t < s.threads && s.numThreads <= s.threads
    requires var pc := s.pcs[t];
             pc.PullHead? || ((pc.PullNext? || pc.PullCut? || pc.PullTail? || pc.Splice?) && pc.i < s.threads)
    ensures |Pulled(s, t).pcs| == s.threads
    ensures StepsLeft(Pulled(s, t).pcs[t], s.threads) < StepsLeft(s.pcs[t], s.threads)
  {
    var next := Pulled(s, t).pcs[t];
    hide Pulled;
    match s.pcs[t]
    case PullHead(i, got) => assert next.CollectDone? || (next.PullNext? && next.i == i);
    case PullNext(i, got, h) => assert next.PullCut? && next.i == i;
    case PullCut(i, got, h, hn) => assert next.PullTail? && next.i == i;
    case PullTail(i, got, h, hn) => assert (next.Splice? && next.i == i) || (next.PullHead? && next.i == i + 1);
    case Splice(i, got, first, tt) => assert next.PullHead? && next.i == i + 1;
  }

  lemma PushShortens(s: State, t: ThreadId)
    requires Shaped(s) && t < s.threads
    requires var pc := s.pcs[t];
             (pc.PushTest? || pc.PushLink? || pc.PushHead? || pc.PushTail?) && pc.b.Pooled?
    ensures |Pushed(s, t).pcs| == s.threads
    ensures StepsLeft(Pushed(s, t).pcs[t], s.threads) < StepsLeft(s.pcs[t], s.threads)
  {
  }

  lemma GetShortens(s: State, t: ThreadId)
    requires Shaped(s) && t < s.threads && s.pcs[t].GetLocal?
    ensures |GotLocal(s, t).pcs| == s.threads
    ensures StepsLeft(GotLocal(s, t).pcs[t], s.threads) < StepsLeft(s.pcs[t], s.threads)
  {
  }

  lemma SharedShortens(s: State, t: ThreadId, heapId: nat)
    requires Enabled(s, Advance(t, heapId)) && AtShared(s.pcs[t])
    ensures |Advanced(s, t, heapId).pcs| == s.threads
    ensures StepsLeft(Advanced(s, t, heapId).pcs[t], s.threads) < StepsLeft(s.pcs[t], s.threads)
  {
    var next := Advanced(s, t, heapId).pcs[t];
    match s.pcs[t]
    case CollectTouch => assert next.Malloc? || (next.PullHead? && next.i == 0);
    case CollectDone(_) => assert next.Malloc? || (next.GetLocal? && next.again);
    case Malloc => assert next.Idle?;
    case TouchRead(_, _) => assert next.TouchWrite?;
    case TouchWrite(_, _) => assert next.Idle?;
  }

  lemma AdvanceShortens(s: State, t: ThreadId, heapId: nat)
    requires Enabled(s, Advance(t, heapId)) && OneThread(s, t) && s.numThreads <= s.threads
    ensures |Advanced(s, t, heapId).pcs| == s.threads
    ensures StepsLeft(Advanced(s, t, heapId).pcs[t], s.threads) < StepsLeft(s.pcs[t], s.threads)
  {
    var pc := s.pcs[t];
    if pc.GetLocal? {
      GetShortens(s, t);
    } else if AtShared(pc) {
      SharedShortens(s, t, heapId);
    } else if pc.PushTest? || pc.PushLink? || pc.PushHead? || pc.PushTail? {
      PushShortens(s, t);
    } else {
      PullShortens(s, t);
    }
  }

  lemma AlwaysEnabled(s: State, t: ThreadId, heapId: nat)
    requires Shaped(s) && t < s.threads && OneThread(s, t) && GotOk(s.pcs[t], s.freeHead[t])
    requires !s.pcs[t].Idle? && Heap(heapId) !in s.held
    ensures Enabled(s, Advance(t, heapId))
  {
  }

  // The pool is wait-free: a thread in a call can always step, its steps use up a
  // bound that depends only on the number of threads, and others do not slow it down.
  lemma WaitFree(init: State, schedule: seq<Step>, s: State, t: ThreadId, heapId: nat)
    requires Init(init) && Exec(init, schedule) == Some(s)
    requires t < s.threads == |s.pcs| && !s.pcs[t].Idle? && Heap(heapId) !in s.held
    ensures Enabled(s, Advance(t, heapId))
    ensures var s' := Do(s, Advance(t, heapId));
            && Shaped(s') && s'.threads == s.threads
            && StepsLeft(s'.pcs[t], s.threads) < StepsLeft(s.pcs[t], s.threads) <= 7 + 5 * s.threads
            && forall u :: 0 <= u < s.threads && u != t ==> s'.pcs[u] == s.pcs[u]
  {
    InitIsGood(init);
    RunKeepsInv(init, schedule);
    assert OneThread(s, t) && GotOk(s.pcs[t], s.freeHead[t]);
    AlwaysEnabled(s, t, heapId);
    AdvanceShortens(s, t, heapId);
    OthersUntouched(s, Advance(t, heapId));
  }
}
