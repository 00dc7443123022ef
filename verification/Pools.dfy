/**
 * Guards over a pool of resources.  The classic pool (src/runtime/atomic/OFluxAtomic.cpp)
 * keeps two deques; the lock-free one (src/runtime/lockfree/atomic/OFluxLFAtomicPooled.h),
 * called one operation at a time, keeps two growable arrays.  Both are proved against
 * the same functions.
 */
module Pools {
  import opened Basics
  import opened GrowableArray

  type Resource = nat

  // An AtomicPooled: what one event uses to hold one resource.
  class Pooled {
    var data: Option<Resource>

    constructor ()
      ensures data == None
    {
      data := None;
    }
  }

  // The value of a pool: what is free, and who waits.
  datatype Pool<P> = Pool(free: seq<Resource>, waiters: seq<P>)

  function Acquire<P>(p: Pool<P>, ap: P): (Pool<P>, Option<Resource>) {
    if p.free != [] then (p.(free := p.free[1..]), Some(p.free[0]))
    else (p.(waiters := p.waiters + [ap]), None)
  }

  // A resource comes back: the first waiter gets it, or it is free.
  function Release<P>(p: Pool<P>, r: Resource): (Pool<P>, Option<P>) {
    if p.waiters != [] then (p.(waiters := p.waiters[1..]), Some(p.waiters[0]))
    else (p.(free := p.free + [r]), None)
  }

  // ---------------------------------------------------------------------------
  // Histories of a pool
  // ---------------------------------------------------------------------------

  datatype Call = AcquireCall(ap: nat) | ReleaseCall(ap: nat)

  // `holds` is what each AtomicPooled has in its _data; requested and granted record
  // the history.
  datatype History = History(pool: Pool<nat>, holds: map<nat, Resource>, requested: seq<nat>, granted: seq<nat>)

  function Start(resources: seq<Resource>): History {
    History(Pool(resources, []), map[], [], [])
  }

  predicate Allowed(h: History, call: Call) {
    match call
    case AcquireCall(ap) => ap !in h.holds && ap !in h.pool.waiters
    case ReleaseCall(ap) => ap in h.holds
  }

  function Next(h: History, call: Call): History
    requires Allowed(h, call)
  {
    match call
    case AcquireCall(ap) =>
      var (p, got) := Acquire(h.pool, ap);
      if got.Some? then History(p, h.holds[ap := got.value], h.requested + [ap], h.granted + [ap])
      else History(p, h.holds, h.requested + [ap], h.granted)
    case ReleaseCall(ap) =>
      var r := h.holds[ap];
      var (p, woken) := Release(h.pool, r);
      if woken.Some? then History(p, (h.holds - {ap})[woken.value := r], h.requested, h.granted + [woken.value])
      else History(p, h.holds - {ap}, h.requested, h.granted)
  }

  function RunAll(h: History, calls: seq<Call>): Option<History>
    decreases |calls|
  {
    if calls == [] then Some(h)
    else if Allowed(h, calls[0]) then RunAll(Next(h, calls[0]), calls[1..])
    else None
  }

  function Users(holds: map<nat, Resource>, r: Resource): set<nat> {
    set ap | ap in holds && holds[ap] == r
  }

  // How many events have resource r in their hands.
  function InUse(holds: map<nat, Resource>, r: Resource): nat {
    |Users(holds, r)|
  }

  lemma InUseWithout(holds: map<nat, Resource>, ap: nat, r: Resource)
    requires ap in holds
    ensures InUse(holds, r) == InUse(holds - {ap}, r) + if holds[ap] == r then 1 else 0
  {
    assert Users(holds - {ap}, r) == Users(holds, r) - {ap};
  }

  lemma InUseWith(holds: map<nat, Resource>, ap: nat, r: Resource, x: Resource)
    requires ap !in holds
    ensures InUse(holds[ap := r], x) == InUse(holds, x) + if r == x then 1 else 0
  {
    InUseWithout(holds[ap := r], ap, x);
    assert holds[ap := r] - {ap} == holds;
  }

  ghost predicate Good(h: History, resources: multiset<Resource>) {
    // nobody waits while something is free
    && (h.pool.free == [] || h.pool.waiters == [])
    // every resource is free or in one event's hands
    && (forall r :: multiset(h.pool.free)[r] + InUse(h.holds, r) == resources[r])
    // resources are granted in the order of the requests
    && h.granted + h.pool.waiters == h.requested
    // nobody waits twice, or while holding
    && (forall i, j :: 0 <= i < j < |h.pool.waiters| ==> h.pool.waiters[i] != h.pool.waiters[j])
    && (forall ap :: ap in h.pool.waiters ==> ap !in h.holds)
  }

  lemma AcquireGood(h: History, ap: nat, resources: multiset<Resource>)
    requires Good(h, resources) && Allowed(h, AcquireCall(ap))
    ensures Good(Next(h, AcquireCall(ap)), resources)
  {
    var h' := Next(h, AcquireCall(ap));
    var free := h.pool.free;
    if free != [] {
      assert free == [free[0]] + free[1..];
      forall r
        ensures multiset(h'.pool.free)[r] + InUse(h'.holds, r) == resources[r]
      {
        InUseWith(h.holds, ap, free[0], r);
        assert multiset(h.pool.free)[r] + InUse(h.holds, r) == resources[r];
      }
    } else {
      assert h.granted + (h.pool.waiters + [ap]) == (h.granted + h.pool.waiters) + [ap];
    }
  }

  lemma ReleaseKeepsResources(h: History, ap: nat, r: Resource)
    requires Allowed(h, ReleaseCall(ap)) && (h.pool.waiters != [] ==> h.pool.waiters[0] !in h.holds)
    ensures var h' := Next(h, ReleaseCall(ap));
            multiset(h'.pool.free)[r] + InUse(h'.holds, r) == multiset(h.pool.free)[r] + InUse(h.holds, r)
  {
    InUseWithout(h.holds, ap, r);
    if h.pool.waiters != [] {
      InUseWith(h.holds - {ap}, h.pool.waiters[0], h.holds[ap], r);
    }
  }

  lemma ReleaseGood(h: History, ap: nat, resources: multiset<Resource>)
    requires Good(h, resources) && Allowed(h, ReleaseCall(ap))
    ensures Good(Next(h, ReleaseCall(ap)), resources)
  {
    var q, h' := h.pool.waiters, Next(h, ReleaseCall(ap));
    forall r
      ensures multiset(h'.pool.free)[r] + InUse(h'.holds, r) == resources[r]
    {
      ReleaseKeepsResources(h, ap, r);
      assert multiset(h.pool.free)[r] + InUse(h.holds, r) == resources[r];
    }
    if q != [] {
      assert q == [q[0]] + q[1..];
      assert h.granted + q == (h.granted + [q[0]]) + q[1..];
      forall x | x in q[1..]
        ensures x in q && x != q[0]
      {
        var i :| 0 <= i < |q[1..]| && q[1..][i] == x;
        assert q[i + 1] == x;
      }
    }
  }

  lemma CallGood(h: History, call: Call, resources: multiset<Resource>)
    requires Good(h, resources) && Allowed(h, call)
    ensures Good(Next(h, call), resources)
  {
    match call
    case AcquireCall(ap) => AcquireGood(h, ap, resources);
    case ReleaseCall(ap) => ReleaseGood(h, ap, resources);
  }

  lemma {:induction false} RunKeepsGood(h: History, calls: seq<Call>, resources: multiset<Resource>)
    requires Good(h, resources)
    ensures RunAll(h, calls).Some? ==> Good(RunAll(h, calls).value, resources)
    decreases |calls|
  {
    if calls != [] && Allowed(h, calls[0]) {
      CallGood(h, calls[0], resources);
      RunKeepsGood(Next(h, calls[0]), calls[1..], resources);
    }
  }

  lemma StartIsGood(resources: seq<Resource>)
    ensures Good(Start(resources), multiset(resources))
  {
  }

  // Over every history: resources are conserved, granted in the order of the requests,
  // and never free while somebody waits.
  lemma PoolGuarantees(resources: seq<Resource>, calls: seq<Call>)
    requires RunAll(Start(resources), calls).Some?
    ensures var h := RunAll(Start(resources), calls).value;
            && (h.pool.free == [] || h.pool.waiters == [])
            && (forall r :: multiset(h.pool.free)[r] + InUse(h.holds, r) == multiset(resources)[r])
            && h.granted + h.pool.waiters == h.requested
            && (forall ap :: ap in h.pool.waiters ==> ap !in h.holds)
  {
    StartIsGood(resources);
    RunKeepsGood(Start(resources), calls, multiset(resources));
  }

  function Requests(calls: seq<Call>): seq<nat> {
    if calls == [] then [] else (if calls[0].AcquireCall? then [calls[0].ap] else []) + Requests(calls[1..])
  }

  // The resources that requests took at once, and those that came back for nobody in particular.
  function Taken(h: History, calls: seq<Call>): seq<Resource>
    requires RunAll(h, calls).Some?
    decreases |calls|
  {
    if calls == [] then []
    else
      var got := if calls[0].AcquireCall? then Acquire(h.pool, calls[0].ap).1 else None;
      (if got.Some? then [got.value] else []) + Taken(Next(h, calls[0]), calls[1..])
  }

  function PutBack(h: History, calls: seq<Call>): seq<Resource>
    requires RunAll(h, calls).Some?
    decreases |calls|
  {
    if calls == [] then []
    else
      var idle := calls[0].ReleaseCall? && h.pool.waiters == [];
      (if idle then [h.holds[calls[0].ap]] else []) + PutBack(Next(h, calls[0]), calls[1..])
  }

  lemma {:induction false} RunRequests(h: History, calls: seq<Call>)
    requires RunAll(h, calls).Some?
    ensures RunAll(h, calls).value.requested == h.requested + Requests(calls)
    decreases |calls|
  {
    if calls == [] {
      assert h.requested + [] == h.requested;
    } else {
      RunRequests(Next(h, calls[0]), calls[1..]);
      var now := if calls[0].AcquireCall? then [calls[0].ap] else [];
      assert Next(h, calls[0]).requested == h.requested + now;
      assert (h.requested + now) + Requests(calls[1..]) == h.requested + (now + Requests(calls[1..]));
    }
  }

  lemma CallInTurn(h: History, call: Call)
    requires Allowed(h, call)
    ensures var got := if call.AcquireCall? then Acquire(h.pool, call.ap).1 else None;
            var out := if got.Some? then [got.value] else [];
            var back := if call.ReleaseCall? && h.pool.waiters == [] then [h.holds[call.ap]] else [];
            h.pool.free + back == out + Next(h, call).pool.free
  {
    assert h.pool.free != [] ==> h.pool.free == [h.pool.free[0]] + h.pool.free[1..];
  }

  lemma {:induction false} RunInTurn(h: History, calls: seq<Call>)
    requires RunAll(h, calls).Some?
    ensures h.pool.free + PutBack(h, calls) == Taken(h, calls) + RunAll(h, calls).value.pool.free
    decreases |calls|
  {
    if calls == [] {
      assert h.pool.free + [] == [] + h.pool.free;
    } else {
      var call, h' := calls[0], Next(h, calls[0]);
      CallInTurn(h, call);
      RunInTurn(h', calls[1..]);
      var got := if call.AcquireCall? then Acquire(h.pool, call.ap).1 else None;
      var out := if got.Some? then [got.value] else [];
      var back := if call.ReleaseCall? && h.pool.waiters == [] then [h.holds[call.ap]] else [];
      hide Next, Acquire, Release, Allowed;
      InTurn(h.pool.free, back, PutBack(h', calls[1..]), out, h'.pool.free, Taken(h', calls[1..]),
             RunAll(h', calls[1..]).value.pool.free);
    }
  }

  lemma InTurn<T>(free: seq<T>, b: seq<T>, bs: seq<T>, o: seq<T>, mid: seq<T>, os: seq<T>, end: seq<T>)
    requires free + b == o + mid && mid + bs == os + end
    ensures free + (b + bs) == (o + os) + end
  {
    assert free + (b + bs) == (free + b) + bs == o + (mid + bs);
    assert o + (os + end) == (o + os) + end;
  }

  // Over every history: the requests on record are those that were made, in order, and free
  // resources are taken in the order in which they were put in and came back.
  lemma ResourcesInTurn(resources: seq<Resource>, calls: seq<Call>)
    requires RunAll(Start(resources), calls).Some?
    ensures var h, h0 := RunAll(Start(resources), calls).value, Start(resources);
            && h.requested == Requests(calls)
            && resources + PutBack(h0, calls) == Taken(h0, calls) + h.pool.free
  {
    RunRequests(Start(resources), calls);
    RunInTurn(Start(resources), calls);
    assert [] + Requests(calls) == Requests(calls);
  }

  // What a call answers: the resource that a request got, or whom a release woke.
  datatype Answer = Got(r: Option<Resource>) | Woke(ap: Option<nat>)

  function Answered(h: History, call: Call): Answer
    requires Allowed(h, call)
  {
    match call
    case AcquireCall(ap) => Got(Acquire(h.pool, ap).1)
    case ReleaseCall(ap) => Woke(Release(h.pool, h.holds[ap]).1)
  }

  ghost function AnswersTo(h: History, calls: seq<Call>): seq<Answer>
    requires RunAll(h, calls).Some?
    decreases |calls|
  {
    if calls == [] then [] else [Answered(h, calls[0])] + AnswersTo(Next(h, calls[0]), calls[1..])
  }

  // The first i calls have been answered, and h is their history.
  ghost predicate OnTrack(h: History, resources: seq<Resource>, calls: seq<Call>, i: nat, answers: seq<Answer>)
    requires RunAll(Start(resources), calls).Some?
  {
    && i <= |calls| && Good(h, multiset(resources)) && RunAll(h, calls[i..]).Some?
    && answers + AnswersTo(h, calls[i..]) == AnswersTo(Start(resources), calls)
    && RunAll(h, calls[i..]) == RunAll(Start(resources), calls)
  }

  lemma StartOfCalls(resources: seq<Resource>, calls: seq<Call>)
    requires RunAll(Start(resources), calls).Some?
    ensures OnTrack(Start(resources), resources, calls, 0, [])
  {
    StartIsGood(resources);
    assert calls[0..] == calls;
  }

  lemma {:induction false} NextCall(h: History, resources: seq<Resource>, calls: seq<Call>, i: nat,
                                    answers: seq<Answer>)
    requires RunAll(Start(resources), calls).Some? && OnTrack(h, resources, calls, i, answers) && i < |calls|
    ensures Allowed(h, calls[i]) && Good(h, multiset(resources))
    ensures OnTrack(Next(h, calls[i]), resources, calls, i + 1, answers + [Answered(h, calls[i])])
  {
    assert calls[i..][0] == calls[i] && calls[i..][1..] == calls[i + 1..];
    CallGood(h, calls[i], multiset(resources));
    var h', answer := Next(h, calls[i]), Answered(h, calls[i]);
    var rest := AnswersTo(h', calls[i + 1..]);
    assert answers + ([answer] + rest) == (answers + [answer]) + rest;
  }

  lemma EndOfCalls(h: History, resources: seq<Resource>, calls: seq<Call>, answers: seq<Answer>)
    requires RunAll(Start(resources), calls).Some? && OnTrack(h, resources, calls, |calls|, answers)
    ensures AnswersTo(Start(resources), calls) == answers && RunAll(Start(resources), calls) == Some(h)
  {
    assert calls[|calls|..] == [] && answers + [] == answers;
  }

  // ---------------------------------------------------------------------------
  // The classic pool
  // ---------------------------------------------------------------------------

  class ClassicPool {
    var q: seq<Pooled>
    var dq: seq<Resource>

    function Value(): Pool<Pooled>
      reads this
    {
      Pool(dq, q)
    }

    constructor ()
      ensures Value() == Pool([], [])
    {
      q, dq := [], [];
    }

    // put_data
    method PutData(p: Resource)
      modifies this
      ensures q == old(q) && dq == old(dq) + [p]
    {
      dq := dq + [p];
    }

    // get_data
    method GetData() returns (ptr: Option<Resource>)
      modifies this
      ensures q == old(q)
      ensures if old(dq) == [] then ptr == None && dq == [] else ptr == Some(old(dq)[0]) && dq == old(dq)[1..]
    {
      ptr := None;
      if |dq| > 0 {
        ptr := Some(dq[0]);
        dq := dq[1..];
      }
    }

    method AcquireOrWait(ap: Pooled) returns (res: bool)
      modifies this, ap
      ensures Value() == Acquire(old(Value()), ap).0 && ap.data == Acquire(old(Value()), ap).1
      ensures res == ap.data.Some?
    {
      var got := GetData();
      ap.data := got;
      res := ap.data.Some?;
      if !res {
        q := q + [ap];
      }
    }

    method ReleaseFrom(ap: Pooled) returns (woken: Option<Pooled>)
      requires ap.data.Some? && ap !in q
      modifies this, ap, q
      ensures Value() == Release(old(Value()), old(ap.data.value)).0
      ensures woken == Release(old(Value()), old(ap.data.value)).1
      ensures ap.data == None && (woken.Some? ==> woken.value.data == old(ap.data))
      ensures forall x :: x in old(q) && Some(x) != woken ==> x.data == old(x.data)
    {
      woken := None;
      if |q| > 0 {
        var w := q[0];
        q := q[1..];
        w.data := ap.data;
        ap.data := None;
        woken := Some(w);
      } else {
        dq := dq + [ap.data.value];
        ap.data := None;
      }
    }
  }

  // ---------------------------------------------------------------------------
  // The lock-free pool
  // ---------------------------------------------------------------------------

  class PoolEventList {
    const evQ: CircularArray<Pooled>
    const rsQ: CircularArray<Resource>
    var evIn: nat
    var rsIn: nat
    var evOut: nat
    var rsOut: nat
    ghost var value: Pool<Pooled>

    ghost function Repr(): set<object>
      reads this, evQ, rsQ
    {
      {this, evQ, rsQ} + (set x: object | x in evQ.arrays) + (set x: object | x in rsQ.arrays)
    }

    ghost predicate Valid()
      reads this, evQ, rsQ, evQ.arrays, rsQ.arrays
    {
      && evQ.Valid() && rsQ.Valid()
      && (evQ as object) != (rsQ as object)
      && (forall x, y :: x in evQ.arrays && y in rsQ.arrays ==> (x as object) != (y as object))
      && evIn == evOut + |value.waiters| && rsIn == rsOut + |value.free|
      && Holds(evQ.Slots(), evOut, value.waiters)
      && Holds(rsQ.Slots(), rsOut, value.free)
      && (value.free == [] || value.waiters == [])
    }

    constructor ()
      ensures Valid() && value == Pool([], []) && fresh(Repr())
    {
      hide Holds, Empties, SlotsOf, CircularArray.Slots, CircularArray.Valid;
      evQ := new CircularArray();
      rsQ := new CircularArray();
      evIn, rsIn, evOut, rsOut := 0, 0, 0, 0;
      value := Pool([], []);
      EmptyHolds<Pooled>();
      EmptyHolds<Resource>();
    }
  
    // The first free resource.
    method PopResource() returns (r: Resource)
      requires Valid() && value.free != []
      modifies this, rsQ.arrays
      ensures Valid() && r == old(value.free[0]) && value == old(value).(free := old(value.free[1..]))
    {
      hide Holds, Found, Depth, ChainOk, Linked, SlotsOf, CircularArray.Valid;
      r := Peek(rsQ, rsOut, value.free);
      rsOut := rsOut + 1;
      Remove(rsQ, rsOut - 1, value.free, r);
      value := value.(free := value.free[1..]);
    }

    method PopWaiter() returns (w: Pooled)
      requires Valid() && value.waiters != []
      modifies this, evQ.arrays
      ensures Valid() && w == old(value.waiters[0]) && value == old(value).(waiters := old(value.waiters[1..]))
    {
      hide Holds, Found, Depth, ChainOk, Linked, SlotsOf, CircularArray.Valid;
      w := Peek(evQ, evOut, value.waiters);
      evOut := evOut + 1;
      Remove(evQ, evOut - 1, value.waiters, w);
      value := value.(waiters := value.waiters[1..]);
    }

    method PushWaiter(ev: Pooled)
      requires Valid() && value.free == []
      modifies this, evQ, evQ.arrays
      ensures Valid() && fresh(evQ.arrays - old(evQ.arrays))
      ensures value == old(value).(waiters := old(value.waiters) + [ev])
    {
      hide Holds, Found, Depth, ChainOk, Linked, SlotsOf, CircularArray.Valid;
      MakeRoom(evQ, evIn, evOut, value.waiters);
      evIn := evIn + 1;
      Insert(evQ, evIn - 1, evOut, value.waiters, ev);
      value := value.(waiters := value.waiters + [ev]);
    }

    method PushResource(r: Resource)
      requires Valid() && value.waiters == []
      modifies this, rsQ, rsQ.arrays
      ensures Valid() && fresh(rsQ.arrays - old(rsQ.arrays)) && value == old(value).(free := old(value.free) + [r])
    {
      hide Holds, Found, Depth, ChainOk, Linked, SlotsOf, CircularArray.Valid;
      MakeRoom(rsQ, rsIn, rsOut, value.free);
      rsIn := rsIn + 1;
      Insert(rsQ, rsIn - 1, rsOut, value.free, r);
      value := value.(free := value.free + [r]);
    }

    // A new resource, while nobody waits.
    method PutData(r: Resource)
      requires Valid() && value.waiters == []
      modifies Repr()
      ensures Valid() && fresh(Repr() - old(Repr()))
      ensures value == old(value).(free := old(value.free) + [r])
    {
      hide Holds, CircularArray.Valid;
      PushResource(r);
    }

    method AcquireOrWait(ev: Pooled) returns (res: bool)
      requires Valid()
      modifies Repr(), ev
      ensures Valid() && fresh(Repr() - old(Repr()))
      ensures value == Acquire(old(value), ev).0 && ev.data == Acquire(old(value), ev).1
      ensures res == ev.data.Some?
    {
      hide Holds, CircularArray.Valid;
      ev.data := None;
      if evIn - evOut <= 0 && rsIn - rsOut > 0 {
        var resource := PopResource();
        ev.data := Some(resource);
        res := true;
      } else {
        PushWaiter(ev);
        res := false;
      }
    }

    // Null: nobody waited, and the resource is free.
    method ReleaseFrom(ap: Pooled) returns (woken: Pooled?)
      requires Valid() && ap.data.Some? && ap !in value.waiters
      modifies Repr(), ap, value.waiters
      ensures Valid() && fresh(Repr() - old(Repr()))
      ensures value == Release(old(value), old(ap.data.value)).0
      ensures woken == match Release(old(value), old(ap.data.value)).1 case Some(w) => w case None => null
      ensures ap.data == None && (woken != null ==> woken.data == old(ap.data))
      ensures forall x :: x in old(value.waiters) && x != woken ==> x.data == old(x.data)
    {
      hide Holds, CircularArray.Valid;
      var resource := ap.data.value;
      ap.data := None;
      if evIn - evOut > 0 {
        woken := PopWaiter();
        woken.data := Some(resource);
      } else {
        PushResource(resource);
        woken := null;
      }
    }

    function WaiterCount(): nat
      requires Valid()
      reads this, evQ, rsQ, evQ.arrays, rsQ.arrays
      ensures WaiterCount() == |value.waiters|
    {
      evIn - evOut
    }
  }

  // ---------------------------------------------------------------------------
  // Both pools, run over histories
  // ---------------------------------------------------------------------------

  ghost predicate DistinctPooled(aps: seq<Pooled>) {
    forall i, j :: 0 <= i < j < |aps| ==> aps[i] != aps[j]
  }

  // p is the pool of the history, aps[k] being what event k uses.
  ghost predicate Stands(p: Pool<Pooled>, aps: seq<Pooled>, h: History)
    reads aps
  {
    && p.free == h.pool.free && |p.waiters| == |h.pool.waiters|
    && (forall i :: 0 <= i < |p.waiters| ==> h.pool.waiters[i] < |aps| && p.waiters[i] == aps[h.pool.waiters[i]])
    && (forall k :: 0 <= k < |aps| ==> aps[k].data == if k in h.holds then Some(h.holds[k]) else None)
  }

  method NewPooled(n: nat) returns (aps: seq<Pooled>)
    ensures |aps| == n && DistinctPooled(aps) && fresh(aps) && forall k :: 0 <= k < n ==> aps[k].data == None
  {
    aps := [];
    while |aps| < n
      invariant |aps| <= n && DistinctPooled(aps) && fresh(aps) && forall k :: 0 <= k < |aps| ==> aps[k].data == None
    {
      var ap := new Pooled();
      aps := aps + [ap];
    }
  }

  // Which event uses ap.
  method IndexOf(aps: seq<Pooled>, ap: Pooled) returns (k: nat)
    requires ap in aps
    ensures k < |aps| && aps[k] == ap
  {
    k := 0;
    while aps[k] != ap
      invariant k < |aps| && ap !in aps[..k]
      decreases |aps| - k
    {
      assert aps[..k + 1] == aps[..k] + [aps[k]] && aps[..|aps|] == aps;
      k := k + 1;
    }
  }

  lemma NotWaiting(p: Pool<Pooled>, aps: seq<Pooled>, h: History, ap: nat, resources: multiset<Resource>)
    requires Stands(p, aps, h) && DistinctPooled(aps) && Good(h, resources) && ap < |aps| && ap in h.holds
    ensures aps[ap] !in p.waiters && aps[ap].data == Some(h.holds[ap])
  {
    forall i | 0 <= i < |p.waiters|
      ensures p.waiters[i] != aps[ap]
    {
      assert h.pool.waiters[i] in h.pool.waiters;
    }
  }

  method CallClassic(p: ClassicPool, aps: seq<Pooled>, ghost h: History, call: Call,
                     ghost resources: multiset<Resource>)
    returns (answer: Answer)
    requires Stands(p.Value(), aps, h) && DistinctPooled(aps) && Good(h, resources)
    requires Allowed(h, call) && call.ap < |aps|
    modifies p, aps
    ensures Stands(p.Value(), aps, Next(h, call)) && answer == Answered(h, call)
  {
    hide Good;
    var ap := aps[call.ap];
    match call
    case AcquireCall(_) =>
      var res := p.AcquireOrWait(ap);
      answer := Got(ap.data);
    case ReleaseCall(_) =>
      NotWaiting(p.Value(), aps, h, call.ap, resources);
      var woken := p.ReleaseFrom(ap);
      if woken.Some? {
        var k := IndexOf(aps, woken.value);
        answer := Woke(Some(k));
      } else {
        answer := Woke(None);
      }
  }

  method CallLockFree(p: PoolEventList, aps: seq<Pooled>, ghost h: History, call: Call,
                      ghost resources: multiset<Resource>)
    returns (answer: Answer)
    requires p.Valid() && Stands(p.value, aps, h) && DistinctPooled(aps) && Good(h, resources)
    requires Allowed(h, call) && call.ap < |aps| && forall k :: 0 <= k < |aps| ==> aps[k] !in p.Repr()
    modifies p.Repr(), aps
    ensures p.Valid() && forall o :: o in p.Repr() && o !in old(p.Repr()) ==> fresh(o)
    ensures Stands(p.value, aps, Next(h, call)) && answer == Answered(h, call)
  {
    hide Good, PoolEventList.Valid, PoolEventList.Repr;
    var ap := aps[call.ap];
    match call
    case AcquireCall(_) =>
      var res := p.AcquireOrWait(ap);
      answer := Got(ap.data);
    case ReleaseCall(_) =>
      NotWaiting(p.value, aps, h, call.ap, resources);
      var woken := p.ReleaseFrom(ap);
      if woken != null {
        var k := IndexOf(aps, woken);
        answer := Woke(Some(k));
      } else {
        answer := Woke(None);
      }
  }

  // The classic pool with these resources, used by n events.
  method RunClassicPool(resources: seq<Resource>, n: nat, calls: seq<Call>) returns (answers: seq<Answer>, waiting: nat)
    requires RunAll(Start(resources), calls).Some? && forall i :: 0 <= i < |calls| ==> calls[i].ap < n
    ensures answers == AnswersTo(Start(resources), calls)
    ensures waiting == |RunAll(Start(resources), calls).value.pool.waiters|
  {
    var aps := NewPooled(n);
    var p := new ClassicPool();
    for i := 0 to |resources|
      invariant fresh(p) && p.Value() == Pool(resources[..i], [])
      invariant fresh(aps) && forall k :: 0 <= k < |aps| ==> aps[k].data == None
    {
      p.PutData(resources[i]);
    }
    answers := [];
    ghost var h := Start(resources);
    StartOfCalls(resources, calls);
    assert resources[..|resources|] == resources;
    assert Stands(p.Value(), aps, h);
    hide RunAll, AnswersTo, OnTrack, Good, Next, Allowed, Answered;
    for i := 0 to |calls|
      invariant fresh(p) && fresh(aps) && Stands(p.Value(), aps, h) && OnTrack(h, resources, calls, i, answers)
    {
      NextCall(h, resources, calls, i, answers);
      var x := CallClassic(p, aps, h, calls[i], multiset(resources));
      h := Next(h, calls[i]);
      answers := answers + [x];
    }
    EndOfCalls(h, resources, calls, answers);
    waiting := |p.q|;
  }

  method NewLockFreePool(resources: seq<Resource>) returns (p: PoolEventList)
    ensures p.Valid() && fresh(p.Repr()) && p.value == Pool(resources, [])
  {
    hide PoolEventList.Valid;
    p := new PoolEventList();
    for i := 0 to |resources|
      invariant p.Valid() && fresh(p.Repr()) && p.value == Pool(resources[..i], [])
    {
      p.PutData(resources[i]);
    }
    assert resources[..|resources|] == resources;
  }

  // The lock-free pool likewise.
  method RunLockFreePool(resources: seq<Resource>, n: nat, calls: seq<Call>)
    returns (answers: seq<Answer>, waiting: nat)
    requires RunAll(Start(resources), calls).Some? && forall i :: 0 <= i < |calls| ==> calls[i].ap < n
    ensures answers == AnswersTo(Start(resources), calls)
    ensures waiting == |RunAll(Start(resources), calls).value.pool.waiters|
  {
    hide PoolEventList.Valid, PoolEventList.Repr, RunAll, AnswersTo, OnTrack, Good, Next, Allowed, Answered;
    var aps := NewPooled(n);
    var p := NewLockFreePool(resources);
    answers := [];
    ghost var h := Start(resources);
    StartOfCalls(resources, calls);
    for i := 0 to |calls|
      invariant p.Valid() && fresh(p.Repr()) && fresh(aps) && (forall k :: 0 <= k < |aps| ==> aps[k] !in p.Repr())
      invariant Stands(p.value, aps, h) && OnTrack(h, resources, calls, i, answers)
    {
      NextCall(h, resources, calls, i, answers);
      var x := CallLockFree(p, aps, h, calls[i], multiset(resources));
      h := Next(h, calls[i]);
      answers := answers + [x];
    }
    EndOfCalls(h, resources, calls, answers);
    waiting := p.WaiterCount();
  }

  // The same resources and the same calls give the same answers: who gets which resource,
  // who is woken by whom, and how many wait.
  method Lockstep(resources: seq<Resource>, n: nat, calls: seq<Call>)
    returns (classic: seq<Answer>, lockFree: seq<Answer>, classicWaiting: nat, lockFreeWaiting: nat)
    requires RunAll(Start(resources), calls).Some? && forall i :: 0 <= i < |calls| ==> calls[i].ap < n
    ensures classic == lockFree == AnswersTo(Start(resources), calls)
    ensures classicWaiting == lockFreeWaiting == |RunAll(Start(resources), calls).value.pool.waiters|
  {
    classic, classicWaiting := RunClassicPool(resources, n, calls);
    lockFree, lockFreeWaiting := RunLockFreePool(resources, n, calls);
  }

  // ---------------------------------------------------------------------------
  // The classic pool's list of AtomicPooled objects to use again
  // ---------------------------------------------------------------------------

  class ListNode {
    var next: ListNode?

    constructor ()
      ensures next == null
    {
      next := null;
    }
  }

  class FreeList {
    var apList: ListNode?
    var apLast: ListNode?
    ghost var list: seq<ListNode>

    ghost predicate Valid()
      reads this, list
    {
      && (forall i, j :: 0 <= i < j < |list| ==> list[i] != list[j])
      && (forall i :: 0 <= i < |list| ==> list[i].next == After(list, i))
      && apList == (if list == [] then null else list[0])
      && apLast == (if list == [] then null else list[|list| - 1])
    }

    static ghost function After(list: seq<ListNode>, i: nat): ListNode? {
      if i + 1 < |list| then list[i + 1] else null
    }

    constructor ()
      ensures Valid() && list == []
    {
      apList, apLast, list := null, null, [];
    }

    // The node is the first of the list, or new; it is in the list no longer.
    method Get() returns (a: ListNode)
      requires Valid()
      modifies this, list
      ensures Valid() && a.next == null && a !in list
      ensures if old(list) == [] then fresh(a) && list == [] else a == old(list)[0] && list == old(list)[1..]
    {
      ghost var was := list;
      if apList != null {
        a := apList;
        assert was[0] == a && was[0].next == After(was, 0);
        apList := apList.next;
        if apList == null {
          apLast := null;
        }
        list := list[1..];
        a.next := null;
        forall i | 0 <= i < |list|
          ensures list[i].next == After(list, i)
        {
          assert list[i] == was[i + 1] && was[i + 1] != was[0] && After(was, i + 1) == After(list, i);
        }
      } else {
        a := new ListNode();
      }
    }

    // Putting back a node that is in the list already changes nothing: the last node is
    // recognised by apLast, the others by their links.
    method Put(ap: ListNode)
      requires Valid() && (ap !in list ==> ap.next == null)
      modifies this, ap
      ensures Valid() && list == if ap in old(list) then old(list) else [ap] + old(list)
    {
      ghost var was := list;
      if ap in list {
        var i :| 0 <= i < |list| && list[i] == ap;
        assert list[i].next == After(list, i);
      }
      if ap.next == null && ap != apLast {
        ap.next := apList;
        if apList == null {
          apLast := ap;
        }
        apList := ap;
        list := [ap] + list;
        forall i | 0 <= i < |list|
          ensures list[i].next == After(list, i)
        {
          assert i > 0 ==> list[i] == was[i - 1] && After(was, i - 1) == After(list, i);
        }
      }
    }
  }
}
