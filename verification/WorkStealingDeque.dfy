/**
 * The work-stealing deque of src/runtime/lockfree/OFluxWorkStealingDeque.h, as a
 * state machine: one owner pushes and pops at the bottom, any number of thieves
 * steal at the top, and every step makes at most one access to shared memory.
 * Memory is sequentially consistent and indices are unbounded integers.
 *
 * The main result is a refinement: every step of the protocol is a step of an
 * atomic double-ended queue.  Conservation of the pushed elements, across any
 * number of grows and any interleaving, follows from it.
 */
module WorkStealingDeque {
  import opened Basics

  // Elements are pointers in the source; only their identity matters.
  type Elem = nat
  type ThiefId = nat

  // ---------------------------------------------------------------------------
  // The circular array
  // ---------------------------------------------------------------------------

  datatype CircularArray = CircularArray(logSize: nat, data: seq<Elem>) {
    ghost predicate Valid() {
      |data| == Pow2(logSize)
    }

    function Size(): (n: nat)
      ensures n > 0
    {
      Pow2(logSize)
    }

    function Get(i: nat): Elem
      requires Valid()
    {
      data[i % Size()]
    }

    function Put(i: nat, e: Elem): (a: CircularArray)
      requires Valid()
      ensures a.Valid() && a.logSize == logSize
    {
      CircularArray(logSize, data[i % Size() := e])
    }
  }

  lemma GetAfterPut(a: CircularArray, i: nat, j: nat, e: Elem)
    requires a.Valid()
    requires i - j < a.Size() && j - i < a.Size()
    ensures a.Put(i, e).Get(j) == if i == j then e else a.Get(j)
  {
    if i < j {
      NearbyDiffer(i, j, a.Size());
    } else if j < i {
      NearbyDiffer(j, i, a.Size());
    }
  }

  // The array as the object it is: grow copies the live window in a loop.
  class ArrayObject {
    const logSize: nat
    const data: array<Elem>

    ghost predicate Valid() {
      data.Length == Pow2(logSize)
    }

    function Value(): CircularArray
      reads data
    {
      CircularArray(logSize, data[..])
    }

    constructor (scale: nat)
      ensures Valid() && logSize == scale && fresh(data)
    {
      logSize := scale;
      data := new Elem[Pow2(scale)];
    }

    method Put(i: nat, e: Elem)
      requires Valid()
      modifies data
      ensures Value() == old(Value()).Put(i, e)
    {
      data[i % data.Length] := e;
    }

    // A bigger array that agrees with this one on the indices from t to b.
    method Grow(b: nat, t: nat) returns (res: ArrayObject)
      requires Valid()
      ensures fresh(res) && fresh(res.data) && res.Valid() && res.logSize == logSize + 1
      ensures b - t <= 2 * data.Length ==> forall i :: t <= i < b ==> res.Value().Get(i) == Value().Get(i)
    {
      res := new ArrayObject(logSize + 1);
      var i := t;
      while i < b
        invariant t <= i && (t <= b ==> i <= b) && res.Valid() && fresh(res.data)
        invariant b - t <= 2 * data.Length ==> forall j :: t <= j < i ==> res.Value().Get(j) == Value().Get(j)
      {
        forall j | t <= j <= i && b - t <= 2 * data.Length
          ensures res.Value().Put(i, Value().Get(i)).Get(j) == if j == i then Value().Get(i) else res.Value().Get(j)
        {
          GetAfterPut(res.Value(), i, j, Value().Get(i));
        }
        res.Put(i, data[i % data.Length]);
        i := i + 1;
      }
    }
  }

  // ---------------------------------------------------------------------------
  // Program counters, state and steps
  // ---------------------------------------------------------------------------

  datatype OwnerPc =
    | OwnerIdle
    // pushBottom(e)
    | PushBottom(e: Elem)                                // about to read _bottom
    | PushTop(e: Elem, b: int)                           // about to read _top
    | PushArray(e: Elem, b: int, t: int)                 // about to read _active_array
    | PushCopy(e: Elem, b: int, t: int, i: int, bigger: CircularArray)
    | PushInstall(e: Elem, b: int, bigger: CircularArray) // about to write _active_array
    | PushPut(e: Elem, b: int)                           // about to write the slot
    | PushPublish(e: Elem, b: int)                       // about to write _bottom
    // popBottom()
    | PopArray                                           // about to read _active_array
    | PopBottom(a: nat)                                  // about to read _bottom
    | PopReserve(a: nat, b: int)                         // about to write _bottom = b
    | PopTop(a: nat, b: int)                             // about to read _top
    | PopUndo(t: int)                                    // about to write _bottom = t
    | PopGet(a: nat, b: int, t: int)                     // about to read the slot
    | PopCas(e: Elem, t: int)                            // about to CAS _top
    | PopFix(got: Option<Elem>, t: int)                  // about to write _bottom = t+1

  datatype ThiefPc =
    | ThiefIdle
    | StealTop(seen: nat)                      // about to read _top
    | StealBottom(seen: nat, t: int)           // about to read _bottom
    | StealArray(seen: nat, t: int)            // about to read _active_array
    | StealGet(seen: nat, t: int, a: nat)      // about to read the slot
    | StealCas(seen: nat, t: int, e: Elem)     // about to CAS _top

  // What a finished call returned.
  datatype Outcome =
    | Pushed(e: Elem)
    | Popped(e: Elem)
    | PopEmpty
    | Stolen(who: ThiefId, e: Elem)
    | StealEmpty(who: ThiefId)
    | StealAbort(who: ThiefId)

  // `arrays` holds every array ever made current; a thief may still be reading
  // an old one.  `log` records the outcome of each finished call, in order; the
  // `seen` field of a thief remembers how many removals had been decided when
  // its call began.  Neither influences a step.
  datatype State = State(
    bottom: int,
    top: int,
    active: nat,
    arrays: seq<CircularArray>,
    owner: OwnerPc,
    thieves: map<ThiefId, ThiefPc>,
    log: seq<Outcome>)

  function Thief(s: State, who: ThiefId): ThiefPc {
    if who in s.thieves then s.thieves[who] else ThiefIdle
  }

  datatype Step =
    | CallPush(e: Elem)
    | CallPop
    | OwnerStep(garbage: seq<Elem>)   // contents of freshly allocated memory
    | CallSteal(who: ThiefId)
    | ThiefStep(who: ThiefId)

  predicate ValidArrays(s: State) {
    && s.active < |s.arrays|
    && (forall a :: 0 <= a < |s.arrays| ==> |s.arrays[a].data| == Pow2(s.arrays[a].logSize))
  }

  const DEFAULT_LOG_SIZE: nat := 8

  ghost predicate Init(s: State) {
    && s.bottom == 0 && s.top == 0 && s.active == 0
    && |s.arrays| == 1 && s.arrays[0].logSize == DEFAULT_LOG_SIZE && s.arrays[0].Valid()
    && s.owner == OwnerIdle && s.thieves == map[] && s.log == []
  }

  // Whether the step can be taken; array indices used by the step must make sense.
  predicate Enabled(s: State, step: Step) {
    && ValidArrays(s)
    && match step
       case CallPush(_) => s.owner.OwnerIdle?
       case CallPop => s.owner.OwnerIdle?
       case OwnerStep(garbage) =>
         (match s.owner
          case OwnerIdle => false
          case PushArray(e, b, t) => |garbage| == Pow2(s.arrays[s.active].logSize + 1)
          case PushCopy(e, b, t, i, bigger) => |bigger.data| == Pow2(bigger.logSize) && i >= 0
          case PushPut(e, b) => b >= 0
          case PopGet(a, b, t) => a < |s.arrays| && b >= 0
          case _ => true)
       case CallSteal(who) => Thief(s, who).ThiefIdle?
       case ThiefStep(who) =>
         (match Thief(s, who)
          case ThiefIdle => false
          case StealGet(_, t, a) => a < |s.arrays| && t >= 0
          case _ => true)
  }

  // pushBottom and popBottom, one shared access at a time.
  function OwnerNext(s: State, garbage: seq<Elem>): State
    requires Enabled(s, OwnerStep(garbage))
  {
    match s.owner
    case PushBottom(e) => s.(owner := PushTop(e, s.bottom))
    case PushTop(e, b) => s.(owner := PushArray(e, b, s.top))
    case PushArray(e, b, t) =>
      if b - t >= s.arrays[s.active].Size() - 1 then
        var bigger := CircularArray(s.arrays[s.active].logSize + 1, garbage);
        s.(owner := if t < b && t >= 0 then PushCopy(e, b, t, t, bigger) else PushInstall(e, b, bigger))
      else
        s.(owner := PushPut(e, b))
    case PushCopy(e, b, t, i, bigger) =>
      var copied := bigger.Put(i, s.arrays[s.active].Get(i));
      s.(owner := if i + 1 < b then PushCopy(e, b, t, i + 1, copied) else PushInstall(e, b, copied))
    case PushInstall(e, b, bigger) =>
      s.(arrays := s.arrays + [bigger], active := |s.arrays|, owner := PushPut(e, b))
    case PushPut(e, b) =>
      s.(arrays := s.arrays[s.active := s.arrays[s.active].Put(b, e)], owner := PushPublish(e, b))
    case PushPublish(e, b) =>
      s.(bottom := b + 1, owner := OwnerIdle, log := s.log + [Pushed(e)])
    case PopArray => s.(owner := PopBottom(s.active))
    case PopBottom(a) => s.(owner := PopReserve(a, s.bottom - 1))
    case PopReserve(a, b) => s.(bottom := b, owner := PopTop(a, b))
    case PopTop(a, b) =>
      s.(owner := if b - s.top < 0 then PopUndo(s.top) else PopGet(a, b, s.top))
    case PopUndo(t) =>
      s.(bottom := t, owner := OwnerIdle, log := s.log + [PopEmpty])
    case PopGet(a, b, t) =>
      var e := s.arrays[a].Get(b);
      if b - t > 0 then
        s.(owner := OwnerIdle, log := s.log + [Popped(e)])
      else
        s.(owner := PopCas(e, t))
    case PopCas(e, t) =>
      if s.top == t then
        s.(top := t + 1, owner := PopFix(Some(e), t))
      else
        s.(owner := PopFix(None, t))
    case PopFix(e, t) =>
      s.(bottom := t + 1, owner := OwnerIdle,
         log := s.log + [if e.Some? then Popped(e.value) else PopEmpty])
  }

  // steal, one shared access at a time.
  function ThiefNext(s: State, who: ThiefId): State
    requires Enabled(s, ThiefStep(who))
  {
    match Thief(s, who)
    case StealTop(seen) => s.(thieves := s.thieves[who := StealBottom(seen, s.top)])
    case StealBottom(seen, t) =>
      if s.bottom - t <= 0 then
        s.(thieves := s.thieves[who := ThiefIdle], log := s.log + [StealEmpty(who)])
      else
        s.(thieves := s.thieves[who := StealArray(seen, t)])
    case StealArray(seen, t) => s.(thieves := s.thieves[who := StealGet(seen, t, s.active)])
    case StealGet(seen, t, a) => s.(thieves := s.thieves[who := StealCas(seen, t, s.arrays[a].Get(t))])
    case StealCas(seen, t, e) =>
      if s.top == t then
        s.(top := t + 1, thieves := s.thieves[who := ThiefIdle], log := s.log + [Stolen(who, e)])
      else
        s.(thieves := s.thieves[who := ThiefIdle], log := s.log + [StealAbort(who)])
  }

  function Do(s: State, step: Step): State
    requires Enabled(s, step)
  {
    match step
    case CallPush(e) => s.(owner := PushBottom(e))
    case CallPop => s.(owner := PopArray)
    case OwnerStep(garbage) => OwnerNext(s, garbage)
    case CallSteal(who) => s.(thieves := s.thieves[who := StealTop(Removals(s))])
    case ThiefStep(who) => ThiefNext(s, who)
  }

  // ---------------------------------------------------------------------------
  // The atomic deque that the protocol refines
  // ---------------------------------------------------------------------------

  // One past the last index that still holds an undecided element.
  function EndOf(pc: OwnerPc, bottom: int): int {
    match pc
    case PopTop(_, b) => b + 1
    case PopUndo(t) => t
    case PopGet(_, b, t) => if b - t > 0 then b else b + 1
    case PopCas(_, t) => t + 1
    case PopFix(_, t) => t + 1
    case _ => bottom
  }

  function End(s: State): int {
    EndOf(s.owner, s.bottom)
  }

  // The element the owner has secured but not yet returned.
  function HandOf(pc: OwnerPc, a: CircularArray): Option<Elem>
    requires a.Valid()
  {
    match pc
    case PopGet(_, b, t) => if b - t > 0 && b >= 0 then Some(a.Get(b)) else None
    case PopFix(got, _) => got
    case _ => None
  }

  function Hand(s: State): Option<Elem>
    requires ValidArrays(s)
  {
    HandOf(s.owner, s.arrays[s.active])
  }

  // The elements at indices top up to end, from the top to the bottom.
  function ItemsOf(a: CircularArray, top: int, end: int): seq<Elem>
    requires a.Valid() && 0 <= top <= end
  {
    seq<Elem>(end - top, k requires 0 <= k < end - top => a.Get(top + k))
  }

  function Items(s: State): seq<Elem>
    requires ValidArrays(s) && 0 <= s.top <= End(s)
  {
    ItemsOf(s.arrays[s.active], s.top, End(s))
  }

  // The number of removals decided so far: those returned, and the owner's.
  function Removals(s: State): nat
    requires ValidArrays(s)
  {
    |Taken(s.log)| + if Hand(s).Some? then 1 else 0
  }

  function PushedElems(log: seq<Outcome>): multiset<Elem> {
    if log == [] then multiset{} else
    var o := log[|log| - 1];
    PushedElems(log[..|log| - 1]) + if o.Pushed? then multiset{o.e} else multiset{}
  }

  function Taken(log: seq<Outcome>): multiset<Elem> {
    if log == [] then multiset{} else
    var o := log[|log| - 1];
    Taken(log[..|log| - 1]) + if o.Popped? || o.Stolen? then multiset{o.e} else multiset{}
  }

  datatype Deque = Deque(items: seq<Elem>, hand: Option<Elem>, log: seq<Outcome>)

  function Abs(s: State): Deque
    requires ValidArrays(s) && 0 <= s.top <= End(s)
  {
    Deque(Items(s), Hand(s), s.log)
  }

  // The owner takes the bottom element into its hand.
  ghost predicate Claims(d: Deque, d': Deque) {
    && d.hand.None? && |d.items| > 0
    && d' == d.(items := d.items[..|d.items| - 1], hand := Some(d.items[|d.items| - 1]))
  }

  // A call finishes with outcome o.
  ghost predicate Finishes(d: Deque, o: Outcome, d': Deque) {
    && d'.log == d.log + [o]
    && match o
       case Pushed(e) => d.hand.None? && d'.hand.None? && d'.items == d.items + [e]
       case Popped(e) => d.hand == Some(e) && d'.hand.None? && d'.items == d.items
       case PopEmpty => d.hand.None? && d'.hand.None? && d.items == [] && d'.items == []
       case Stolen(_, e) => |d.items| > 0 && e == d.items[0] && d'.items == d.items[1..] && d'.hand == d.hand
       case StealEmpty(_) => |d.items| <= 1 && d'.items == d.items && d'.hand == d.hand
       case StealAbort(_) => d'.items == d.items && d'.hand == d.hand
  }

  ghost predicate DequeNext(d: Deque, d': Deque) {
    || d' == d
    || Claims(d, d')
    || (|d'.log| == |d.log| + 1 && Finishes(d, d'.log[|d.log|], d'))
  }

  // ---------------------------------------------------------------------------
  // The inductive invariant
  // ---------------------------------------------------------------------------

  // What the owner knows at each point, given the shared words and the current array.
  ghost predicate OwnerInv(pc: OwnerPc, bottom: int, top: int, active: nat, a: CircularArray)
    requires a.Valid()
  {
    match pc
    case OwnerIdle => true
    case PushBottom(_) => true
    case PushTop(_, b) => b == bottom
    case PushArray(_, b, t) => b == bottom && 0 <= t <= top && b - t <= a.Size() - 1
    case PushCopy(_, b, t, i, bigger) =>
      && b == bottom && 0 <= t <= top && t <= i < b && b - t <= a.Size() - 1
      && bigger.Valid() && bigger.logSize == a.logSize + 1
      && (forall j: nat :: t <= j < i ==> bigger.Get(j) == a.Get(j))
    case PushInstall(_, b, bigger) =>
      && b == bottom && b - top <= a.Size() - 1
      && bigger.Valid() && bigger.logSize == a.logSize + 1
      && (forall j: nat :: top <= j < b ==> bigger.Get(j) == a.Get(j))
    case PushPut(_, b) => b == bottom && b - top < a.Size() - 1
    case PushPublish(e, b) => b == bottom && b - top < a.Size() - 1 && b >= 0 && a.Get(b) == e
    case PopArray => true
    case PopBottom(x) => x == active
    case PopReserve(x, b) => x == active && b == bottom - 1
    case PopTop(x, b) => x == active && b == bottom
    case PopUndo(t) => t == top && bottom == t - 1
    case PopGet(x, b, t) => x == active && b == bottom && 0 <= t <= b && t <= top
    case PopCas(e, t) => t == bottom && 0 <= t <= top && (top == t ==> e == a.Get(t))
    case PopFix(got, t) => t == bottom && top == t + 1
  }

  // A thief that has read _top == t holds a true claim for as long as _top stays t;
  // once _top has moved, some removal was decided after the thief's call began.
  ghost predicate ThiefInv(pc: ThiefPc, removals: nat, top: int, end: int,
                           arrays: seq<CircularArray>, active: nat)
    requires active < |arrays| && forall x :: 0 <= x < |arrays| ==> arrays[x].Valid()
  {
    && (pc.ThiefIdle? || pc.seen <= removals)
    && (pc.ThiefIdle? || pc.StealTop? || (0 <= pc.t <= top && (top != pc.t ==> pc.seen < removals)))
    && (pc.StealArray? || pc.StealGet? || pc.StealCas? ==> (top == pc.t ==> pc.t < end))
    && (pc.StealGet? ==> pc.a < |arrays| && (top == pc.t ==> arrays[pc.a].Get(pc.t) == arrays[active].Get(pc.t)))
    && (pc.StealCas? ==> (top == pc.t ==> pc.e == arrays[active].Get(pc.t)))
  }

  ghost predicate ThievesInv(thieves: map<ThiefId, ThiefPc>, removals: nat, top: int, end: int,
                             arrays: seq<CircularArray>, active: nat)
    requires active < |arrays| && forall x :: 0 <= x < |arrays| ==> arrays[x].Valid()
  {
    forall who :: who in thieves ==> ThiefInv(thieves[who], removals, top, end, arrays, active)
  }

  ghost predicate Inv(s: State) {
    && ValidArrays(s)
    && 0 <= s.top <= End(s)
    && End(s) - s.top <= s.arrays[s.active].Size() - 1
    && OwnerInv(s.owner, s.bottom, s.top, s.active, s.arrays[s.active])
    && ThievesInv(s.thieves, Removals(s), s.top, End(s), s.arrays, s.active)
  }

  // ---------------------------------------------------------------------------
  // Every step keeps the invariant and is a step of the atomic deque
  // ---------------------------------------------------------------------------

  lemma LogGrowth(log: seq<Outcome>, o: Outcome)
    ensures Taken(log + [o]) == Taken(log) + if o.Popped? || o.Stolen? then multiset{o.e} else multiset{}
    ensures PushedElems(log + [o]) == PushedElems(log) + if o.Pushed? then multiset{o.e} else multiset{}
  {
    assert (log + [o])[..|log|] == log;
  }

  // Copying one more element into the bigger array.
  lemma CopyStep(s: State, garbage: seq<Elem>)
    requires Inv(s) && s.owner.PushCopy? && Enabled(s, OwnerStep(garbage))
    ensures Inv(OwnerNext(s, garbage)) && Abs(OwnerNext(s, garbage)) == Abs(s)
  {
    var PushCopy(e, b, t, i, bigger) := s.owner;
    var a := s.arrays[s.active];
    var copied := bigger.Put(i, a.Get(i));
    forall j: nat | t <= j < i + 1
      ensures copied.Get(j) == a.Get(j)
    {
      GetAfterPut(bigger, i, j, a.Get(i));
    }
  }

  // Installing the bigger array leaves every live slot as it was.
  lemma InstallStep(s: State, garbage: seq<Elem>)
    requires Inv(s) && s.owner.PushInstall? && Enabled(s, OwnerStep(garbage))
    ensures Inv(OwnerNext(s, garbage)) && Abs(OwnerNext(s, garbage)) == Abs(s)
  {
    var s' := OwnerNext(s, garbage);
    assert forall x :: 0 <= x < |s.arrays| ==> s'.arrays[x] == s.arrays[x];
    assert Items(s') == Items(s);
  }

  // Writing the new element never touches a slot that is still in use.
  lemma PutStep(s: State, garbage: seq<Elem>)
    requires Inv(s) && s.owner.PushPut? && Enabled(s, OwnerStep(garbage))
    ensures Inv(OwnerNext(s, garbage)) && Abs(OwnerNext(s, garbage)) == Abs(s)
  {
    var s' := OwnerNext(s, garbage);
    var PushPut(e, b) := s.owner;
    var a := s.arrays[s.active];
    forall j: nat | s.top <= j < b
      ensures a.Put(b, e).Get(j) == a.Get(j)
    {
      GetAfterPut(a, b, j, e);
    }
    GetAfterPut(a, b, b, e);
    assert Items(s') == Items(s);
    assert Removals(s') == Removals(s);
    forall who | who in s.thieves
      ensures ThiefInv(s.thieves[who], Removals(s'), s.top, End(s'), s'.arrays, s.active)
    {
      assert ThiefInv(s.thieves[who], Removals(s), s.top, End(s), s.arrays, s.active);
    }
  }

  lemma PublishStep(s: State, garbage: seq<Elem>)
    requires Inv(s) && s.owner.PushPublish? && Enabled(s, OwnerStep(garbage))
    ensures Inv(OwnerNext(s, garbage)) && Finishes(Abs(s), Pushed(s.owner.e), Abs(OwnerNext(s, garbage)))
  {
    var s' := OwnerNext(s, garbage);
    LogGrowth(s.log, Pushed(s.owner.e));
    assert Items(s') == Items(s) + [s.owner.e];
  }

  // Reading _top decides whether popBottom has its element without a race.
  lemma PopTopStep(s: State, garbage: seq<Elem>)
    requires Inv(s) && s.owner.PopTop? && Enabled(s, OwnerStep(garbage))
    ensures Inv(OwnerNext(s, garbage))
    ensures var d, d' := Abs(s), Abs(OwnerNext(s, garbage));
            if s.owner.b > s.top then Claims(d, d') else d' == d
  {
    var s' := OwnerNext(s, garbage);
    if s.owner.b > s.top {
      assert Items(s') == Items(s)[..|Items(s)| - 1];
    } else {
      assert Items(s') == Items(s);
    }
  }

  // The last element: owner and thieves race with the CAS on _top.
  lemma PopCasStep(s: State, garbage: seq<Elem>)
    requires Inv(s) && s.owner.PopCas? && Enabled(s, OwnerStep(garbage))
    ensures Inv(OwnerNext(s, garbage))
    ensures var d, d' := Abs(s), Abs(OwnerNext(s, garbage));
            if s.top == s.owner.t then Claims(d, d') else d' == d
  {
    var s' := OwnerNext(s, garbage);
    if s.top == s.owner.t {
      assert Items(s) == [s.owner.e];
      assert Items(s') == [];
    } else {
      assert Items(s') == Items(s);
    }
  }

  // The steps of popBottom that only read, or only lower _bottom.
  lemma PopReadStep(s: State, garbage: seq<Elem>)
    requires Inv(s) && Enabled(s, OwnerStep(garbage))
    requires s.owner.PopArray? || s.owner.PopBottom? || s.owner.PopReserve?
    ensures Inv(OwnerNext(s, garbage)) && Abs(OwnerNext(s, garbage)) == Abs(s)
  {
    assert Items(OwnerNext(s, garbage)) == Items(s);
  }

  lemma PopUndoStep(s: State, garbage: seq<Elem>)
    requires Inv(s) && Enabled(s, OwnerStep(garbage)) && s.owner.PopUndo?
    ensures Inv(OwnerNext(s, garbage)) && Finishes(Abs(s), PopEmpty, Abs(OwnerNext(s, garbage)))
  {
    LogGrowth(s.log, PopEmpty);
    hide PushedElems, Taken;
    assert Items(s) == [] && Items(OwnerNext(s, garbage)) == [];
  }

  lemma PopGetStep(s: State, garbage: seq<Elem>)
    requires Inv(s) && Enabled(s, OwnerStep(garbage)) && s.owner.PopGet?
    ensures Inv(OwnerNext(s, garbage))
    ensures var d, d' := Abs(s), Abs(OwnerNext(s, garbage));
            if s.owner.b > s.owner.t then d.hand.Some? && Finishes(d, Popped(d.hand.value), d') else d' == d
  {
    var s' := OwnerNext(s, garbage);
    if s.owner.b > s.owner.t {
      LogGrowth(s.log, Popped(Hand(s).value));
      assert Removals(s') == Removals(s);
    }
    assert Items(s') == Items(s);
  }

  lemma PopFixStep(s: State, garbage: seq<Elem>)
    requires Inv(s) && Enabled(s, OwnerStep(garbage)) && s.owner.PopFix?
    ensures Inv(OwnerNext(s, garbage))
    ensures var got := s.owner.got;
            Finishes(Abs(s), if got.Some? then Popped(got.value) else PopEmpty, Abs(OwnerNext(s, garbage)))
  {
    var s' := OwnerNext(s, garbage);
    LogGrowth(s.log, s'.log[|s.log|]);
    assert Removals(s') == Removals(s);
    assert Items(s) == [] && Items(s') == [];
  }

  lemma PushOtherStep(s: State, garbage: seq<Elem>)
    requires Inv(s) && Enabled(s, OwnerStep(garbage))
    requires s.owner.PushBottom? || s.owner.PushTop? || s.owner.PushArray?
    ensures Inv(OwnerNext(s, garbage)) && Abs(OwnerNext(s, garbage)) == Abs(s)
  {
    assert Items(OwnerNext(s, garbage)) == Items(s);
  }

  lemma OwnerStepRefines(s: State, garbage: seq<Elem>)
    requires Inv(s) && Enabled(s, OwnerStep(garbage))
    ensures Inv(OwnerNext(s, garbage)) && DequeNext(Abs(s), Abs(OwnerNext(s, garbage)))
  {
    match s.owner
    case PushBottom(_) => PushOtherStep(s, garbage);
    case PushTop(_, _) => PushOtherStep(s, garbage);
    case PushArray(_, _, _) => PushOtherStep(s, garbage);
    case PushCopy(_, _, _, _, _) => CopyStep(s, garbage);
    case PushInstall(_, _, _) => InstallStep(s, garbage);
    case PushPut(_, _) => PutStep(s, garbage);
    case PushPublish(_, _) => PublishStep(s, garbage);
    case PopTop(_, _) => PopTopStep(s, garbage);
    case PopCas(_, _) => PopCasStep(s, garbage);
    case PopUndo(_) => PopUndoStep(s, garbage);
    case PopGet(_, _, _) => PopGetStep(s, garbage);
    case PopFix(_, _) => PopFixStep(s, garbage);
    case _ => PopReadStep(s, garbage);
  }

  // What is known about the thieves survives as long as the arrays stay, the end does
  // not retreat, and _top moves only when a removal is decided.
  lemma ThievesKept(thieves: map<ThiefId, ThiefPc>, arrays: seq<CircularArray>, active: nat,
                    removals: nat, top: int, end: int, removals': nat, top': int, end': int)
    requires active < |arrays| && forall x :: 0 <= x < |arrays| ==> arrays[x].Valid()
    requires ThievesInv(thieves, removals, top, end, arrays, active)
    requires top <= top' && removals <= removals' && end <= end' && (top < top' ==> removals < removals')
    ensures ThievesInv(thieves, removals', top', end', arrays, active)
  {
    forall who | who in thieves
      ensures ThiefInv(thieves[who], removals', top', end', arrays, active)
    {
      assert ThiefInv(thieves[who], removals, top, end, arrays, active);
    }
  }

  // Replacing one thief's counter by a true one keeps all the claims true.
  lemma ThiefMoves(s: State, who: ThiefId, pc: ThiefPc)
    requires Inv(s) && ThiefInv(pc, Removals(s), s.top, End(s), s.arrays, s.active)
    ensures ThievesInv(s.thieves[who := pc], Removals(s), s.top, End(s), s.arrays, s.active)
  {
    var thieves := s.thieves[who := pc];
    forall w | w in thieves
      ensures ThiefInv(thieves[w], Removals(s), s.top, End(s), s.arrays, s.active)
    {
      assert w != who ==> w in s.thieves && thieves[w] == s.thieves[w];
    }
  }

  // What a thief has read is true when it reads it.
  lemma ThiefReadsTrue(s: State, who: ThiefId)
    requires Inv(s) && Enabled(s, ThiefStep(who)) && !Thief(s, who).StealCas?
    ensures ThiefInv(ThiefNext(s, who).thieves[who], Removals(s), s.top, End(s), s.arrays, s.active)
  {
    assert ThiefInv(s.thieves[who], Removals(s), s.top, End(s), s.arrays, s.active);
    assert End(s) >= s.bottom;
  }

  predicate FindsEmpty(s: State, who: ThiefId) {
    Thief(s, who).StealBottom? && s.bottom <= Thief(s, who).t
  }

  // A thief's read changes nothing but its own counter.
  lemma ThiefReadStep(s: State, who: ThiefId)
    requires Inv(s) && Enabled(s, ThiefStep(who)) && !Thief(s, who).StealCas? && !FindsEmpty(s, who)
    ensures Inv(ThiefNext(s, who)) && Abs(ThiefNext(s, who)) == Abs(s)
  {
    var s' := ThiefNext(s, who);
    ThiefReadsTrue(s, who);
    ThiefMoves(s, who, s'.thieves[who]);
    assert s' == s.(thieves := s.thieves[who := s'.thieves[who]]);
  }

  // A steal gives up as empty only when at most one element is left, and then only
  // while the owner is racing for it.
  lemma StealEmptyStep(s: State, who: ThiefId)
    requires Inv(s) && Enabled(s, ThiefStep(who)) && FindsEmpty(s, who)
    ensures Inv(ThiefNext(s, who)) && Finishes(Abs(s), StealEmpty(who), Abs(ThiefNext(s, who)))
    ensures |Items(s)| == 1 ==> s.owner.PopTop? || s.owner.PopGet? || s.owner.PopCas?
  {
    var s' := ThiefNext(s, who);
    LogGrowth(s.log, StealEmpty(who));
    ThiefMoves(s, who, ThiefIdle);
    assert ThiefInv(s.thieves[who], Removals(s), s.top, End(s), s.arrays, s.active);
  }

  // A winning CAS takes the top element.
  lemma StealWins(s: State, who: ThiefId)
    requires Inv(s) && Enabled(s, ThiefStep(who)) && Thief(s, who).StealCas? && s.top == Thief(s, who).t
    ensures Inv(ThiefNext(s, who)) && Finishes(Abs(s), Stolen(who, Thief(s, who).e), Abs(ThiefNext(s, who)))
  {
    var s' := ThiefNext(s, who);
    assert ThiefInv(s.thieves[who], Removals(s), s.top, End(s), s.arrays, s.active);
    assert ThiefInv(ThiefIdle, Removals(s), s.top, End(s), s.arrays, s.active);
    assert s.thieves[who].e == Items(s)[0] && Items(s') == Items(s)[1..];
    LogGrowth(s.log, Stolen(who, s.thieves[who].e));
    hide PushedElems, Taken, ThiefInv, ItemsOf;
    ThiefMoves(s, who, ThiefIdle);
    assert Removals(s') == Removals(s) + 1;
    ThievesKept(s'.thieves, s.arrays, s.active, Removals(s), s.top, End(s), Removals(s'), s'.top, End(s));
  }

  // A losing CAS means that some removal was decided since the call began.
  lemma StealLoses(s: State, who: ThiefId)
    requires Inv(s) && Enabled(s, ThiefStep(who)) && Thief(s, who).StealCas? && s.top != Thief(s, who).t
    ensures Inv(ThiefNext(s, who)) && Finishes(Abs(s), StealAbort(who), Abs(ThiefNext(s, who)))
    ensures Thief(s, who).seen < Removals(s)
  {
    var s' := ThiefNext(s, who);
    assert ThiefInv(s.thieves[who], Removals(s), s.top, End(s), s.arrays, s.active);
    LogGrowth(s.log, StealAbort(who));
    ThiefMoves(s, who, ThiefIdle);
  }

  lemma CallStealStep(s: State, who: ThiefId)
    requires Inv(s) && Enabled(s, CallSteal(who))
    ensures Inv(Do(s, CallSteal(who))) && Abs(Do(s, CallSteal(who))) == Abs(s)
  {
    assert Items(Do(s, CallSteal(who))) == Items(s);
  }

  lemma StepRefines(s: State, step: Step)
    requires Inv(s) && Enabled(s, step)
    ensures Inv(Do(s, step)) && DequeNext(Abs(s), Abs(Do(s, step)))
  {
    match step
    case OwnerStep(garbage) => OwnerStepRefines(s, garbage);
    case ThiefStep(who) =>
      if Thief(s, who).StealCas? {
        if s.top == Thief(s, who).t {
          StealWins(s, who);
        } else {
          StealLoses(s, who);
        }
      } else if FindsEmpty(s, who) {
        StealEmptyStep(s, who);
      } else {
        ThiefReadStep(s, who);
      }
    case CallSteal(who) => CallStealStep(s, who);
    case _ => assert Items(Do(s, step)) == Items(s);
  }

  // ---------------------------------------------------------------------------
  // Whole runs
  // ---------------------------------------------------------------------------

  // The state after a schedule, if every step of the schedule can be taken.
  function Exec(s: State, schedule: seq<Step>): Option<State>
    decreases |schedule|
  {
    if schedule == [] then Some(s)
    else if Enabled(s, schedule[0]) then Exec(Do(s, schedule[0]), schedule[1..])
    else None
  }

  function HandBag(d: Deque): multiset<Elem> {
    if d.hand.Some? then multiset{d.hand.value} else multiset{}
  }

  ghost predicate Conserved(d: Deque) {
    PushedElems(d.log) == Taken(d.log) + multiset(d.items) + HandBag(d)
  }

  // The atomic deque neither loses nor duplicates anything.
  lemma DequeConserves(d: Deque, d': Deque)
    requires Conserved(d) && DequeNext(d, d')
    ensures Conserved(d')
  {
    if d' == d {
    } else if Claims(d, d') {
      assert d.items == d'.items + [d'.hand.value];
      assert multiset(d.items) == multiset(d'.items) + multiset{d'.hand.value};
    } else {
      FinishConserves(d, d'.log[|d.log|], d');
    }
  }

  lemma FinishConserves(d: Deque, o: Outcome, d': Deque)
    requires Conserved(d) && Finishes(d, o, d')
    ensures Conserved(d')
  {
    LogGrowth(d.log, o);
    hide PushedElems, Taken;
    match o
    case Pushed(e) => assert multiset(d'.items) == multiset(d.items) + multiset{e};
    case Stolen(_, e) =>
      assert d.items == [e] + d'.items;
      assert multiset(d.items) == multiset{e} + multiset(d'.items);
    case _ =>
  }

  ghost predicate Good(s: State) {
    Inv(s) && Conserved(Abs(s))
  }

  lemma StepKeepsGood(s: State, step: Step)
    requires Good(s) && Enabled(s, step)
    ensures Good(Do(s, step))
  {
    StepRefines(s, step);
    DequeConserves(Abs(s), Abs(Do(s, step)));
  }

  lemma {:induction false} ScheduleKeepsGood(s: State, schedule: seq<Step>)
    requires Good(s) && Exec(s, schedule).Some?
    ensures Good(Exec(s, schedule).value)
    decreases |schedule|
  {
    if schedule != [] {
      StepKeepsGood(s, schedule[0]);
      ScheduleKeepsGood(Do(s, schedule[0]), schedule[1..]);
    }
  }

  // ---- the calls of a schedule, and what became of them ----

  datatype OwnerCall = Push(e: Elem) | Pop

  function OwnerCallOf(step: Step): seq<OwnerCall> {
    match step
    case CallPush(e) => [Push(e)]
    case CallPop => [Pop]
    case _ => []
  }

  // The owner's calls in a schedule, in order, each with its argument.
  function OwnerCalls(schedule: seq<Step>): seq<OwnerCall> {
    if schedule == [] then [] else OwnerCallOf(schedule[0]) + OwnerCalls(schedule[1..])
  }

  function EndedBy(o: Outcome): seq<OwnerCall> {
    match o
    case Pushed(e) => [Push(e)]
    case Popped(_) => [Pop]
    case PopEmpty => [Pop]
    case _ => []
  }

  // The calls of the owner that have ended, in order, by what they returned.
  function Ended(log: seq<Outcome>): seq<OwnerCall> {
    if log == [] then [] else Ended(log[..|log| - 1]) + EndedBy(log[|log| - 1])
  }

  function InProgress(pc: OwnerPc): seq<OwnerCall> {
    if pc.OwnerIdle? then [] else if Pushing(pc) then [Push(pc.e)] else [Pop]
  }

  // How often a schedule has `who` call steal, and how often that has ended.
  function StealCalls(schedule: seq<Step>, who: ThiefId): nat {
    if schedule == [] then 0
    else (if schedule[0] == CallSteal(who) then 1 else 0) + StealCalls(schedule[1..], who)
  }

  predicate EndsSteal(o: Outcome, who: ThiefId) {
    (o.Stolen? || o.StealEmpty? || o.StealAbort?) && o.who == who
  }

  function StealsEnded(log: seq<Outcome>, who: ThiefId): nat {
    if log == [] then 0
    else StealsEnded(log[..|log| - 1], who) + if EndsSteal(log[|log| - 1], who) then 1 else 0
  }

  function Stealing(s: State, who: ThiefId): nat {
    if Thief(s, who).ThiefIdle? then 0 else 1
  }

  // A step ends at most one call, begins at most one, and changes no other.
  lemma StepAnswers(s: State, step: Step, who: ThiefId)
    requires Enabled(s, step)
    ensures var s', mine := Do(s, step), if step == CallSteal(who) then 1 else 0;
            || (s'.log == s.log
                && InProgress(s'.owner) == InProgress(s.owner) + OwnerCallOf(step)
                && Stealing(s', who) == Stealing(s, who) + mine)
            || (|s'.log| == |s.log| + 1 && s'.log == s.log + [s'.log[|s.log|]]
                && EndedBy(s'.log[|s.log|]) + InProgress(s'.owner) == InProgress(s.owner) + OwnerCallOf(step)
                && (if EndsSteal(s'.log[|s.log|], who) then 1 else 0) + Stealing(s', who) == Stealing(s, who) + mine)
  {
  }

  lemma StepCalls(s: State, step: Step, who: ThiefId)
    requires Enabled(s, step)
    ensures var s', mine := Do(s, step), if step == CallSteal(who) then 1 else 0;
            && Ended(s'.log) + InProgress(s'.owner) == Ended(s.log) + (InProgress(s.owner) + OwnerCallOf(step))
            && StealsEnded(s'.log, who) + Stealing(s', who) == StealsEnded(s.log, who) + Stealing(s, who) + mine
  {
    StepAnswers(s, step, who);
    var s' := Do(s, step);
    hide Do, Enabled, InProgress, OwnerCallOf, Stealing, EndsSteal, EndedBy;
    if |s'.log| == |s.log| + 1 {
      assert s'.log[..|s.log|] == s.log;
      hide Ended;
      assert Ended(s'.log) == Ended(s.log) + EndedBy(s'.log[|s.log|]) by {
        LogEnds(s'.log);
      }
      Regroup(Ended(s.log), EndedBy(s'.log[|s.log|]), InProgress(s'.owner));
    }
  }

  lemma LogEnds(log: seq<Outcome>)
    requires log != []
    ensures Ended(log) == Ended(log[..|log| - 1]) + EndedBy(log[|log| - 1])
  {
  }

  lemma {:induction false} ScheduleCalls(s: State, schedule: seq<Step>, who: ThiefId)
    requires Exec(s, schedule).Some?
    ensures var s' := Exec(s, schedule).value;
            && Ended(s'.log) + InProgress(s'.owner) == Ended(s.log) + InProgress(s.owner) + OwnerCalls(schedule)
            && StealsEnded(s'.log, who) + Stealing(s', who) ==
               StealsEnded(s.log, who) + Stealing(s, who) + StealCalls(schedule, who)
    decreases |schedule|
  {
    hide Do, Enabled, Ended, InProgress, StealsEnded, Stealing, OwnerCallOf;
    if schedule != [] {
      StepCalls(s, schedule[0], who);
      ScheduleCalls(Do(s, schedule[0]), schedule[1..], who);
      Regroup(Ended(s.log), InProgress(s.owner), OwnerCallOf(schedule[0]));
      Regroup(Ended(s.log) + InProgress(s.owner), OwnerCallOf(schedule[0]), OwnerCalls(schedule[1..]));
    }
  }

  // For every interleaving: the owner's calls, in order and with their arguments, are those
  // that have ended and the one in progress; each call of a thief has ended once or goes on.
  lemma EveryCallAnswered(s0: State, schedule: seq<Step>, s: State, who: ThiefId)
    requires Init(s0) && Exec(s0, schedule) == Some(s)
    ensures OwnerCalls(schedule) == Ended(s.log) + InProgress(s.owner)
    ensures StealCalls(schedule, who) == StealsEnded(s.log, who) + Stealing(s, who)
  {
    ScheduleCalls(s0, schedule, who);
    assert Ended(s0.log) + InProgress(s0.owner) + OwnerCalls(schedule) == OwnerCalls(schedule);
  }

  // What the pushes of a schedule were called with.
  function Arguments(calls: seq<OwnerCall>): multiset<Elem> {
    if calls == [] then multiset{}
    else (if calls[0].Push? then multiset{calls[0].e} else multiset{}) + Arguments(calls[1..])
  }

  lemma {:induction false} ArgumentsJoin(a: seq<OwnerCall>, b: seq<OwnerCall>)
    ensures Arguments(a + b) == Arguments(a) + Arguments(b)
    decreases |a|
  {
    if a == [] {
      assert a + b == b;
    } else {
      assert (a + b)[1..] == a[1..] + b;
      ArgumentsJoin(a[1..], b);
    }
  }

  lemma {:induction false} LoggedArguments(log: seq<Outcome>)
    ensures Arguments(Ended(log)) == PushedElems(log)
    decreases |log|
  {
    if log != [] {
      var o := log[|log| - 1];
      hide Arguments;
      LoggedArguments(log[..|log| - 1]);
      ArgumentsOfOne(EndedBy(o));
      ArgumentsJoin(Ended(log[..|log| - 1]), EndedBy(o));
    } else {
      ArgumentsOfOne([]);
    }
  }

  lemma ArgumentsOfOne(calls: seq<OwnerCall>)
    requires |calls| <= 1
    ensures Arguments(calls) == if |calls| == 1 && calls[0].Push? then multiset{calls[0].e} else multiset{}
  {
    assert calls != [] ==> calls[1..] == [];
  }

  // For every interleaving and across any number of grows: what pushBottom was called with
  // is what was returned, plus what is in the deque, plus what the owner carries: the element
  // of a push that has not ended, or the one that a pop has secured.
  lemma RunConserves(s0: State, schedule: seq<Step>, s: State)
    requires Init(s0) && Exec(s0, schedule) == Some(s)
    ensures Inv(s)
    ensures Arguments(OwnerCalls(schedule)) ==
            Taken(s.log) + multiset(Items(s)) + HandBag(Abs(s)) + Arguments(InProgress(s.owner))
    ensures PushedElems(s.log) == Taken(s.log) + multiset(Items(s)) + HandBag(Abs(s))
  {
    assert Items(s0) == [];
    ScheduleKeepsGood(s0, schedule);
    EveryCallAnswered(s0, schedule, s, 0);
    ArgumentsJoin(Ended(s.log), InProgress(s.owner));
    LoggedArguments(s.log);
  }

  // An element that pushBottom was called with once is in exactly one place: still on its way
  // in, in the deque, pending with the owner, or returned, by exactly one call.
  lemma EachElementOnce(s0: State, schedule: seq<Step>, s: State, e: Elem)
    requires Init(s0) && Exec(s0, schedule) == Some(s)
    requires Arguments(OwnerCalls(schedule))[e] == 1
    ensures Inv(s)
    ensures Taken(s.log)[e] + multiset(Items(s))[e] + HandBag(Abs(s))[e] + Arguments(InProgress(s.owner))[e] == 1
    ensures e in Items(s) <==>
            Taken(s.log)[e] == 0 && Hand(s) != Some(e) && InProgress(s.owner) != [Push(e)]
  {
    RunConserves(s0, schedule, s);
    assert e in Items(s) <==> multiset(Items(s))[e] > 0;
    CarriedOnly(s.owner, e);
  }

  lemma CarriedOnly(pc: OwnerPc, e: Elem)
    ensures Arguments(InProgress(pc))[e] == if InProgress(pc) == [Push(e)] then 1 else 0
  {
    ArgumentsOfOne(InProgress(pc));
  }

  // ---------------------------------------------------------------------------
  // Every call finishes, in a number of its own steps that no one else can raise
  // ---------------------------------------------------------------------------

  function OwnerStage(pc: OwnerPc): nat {
    match pc
    case OwnerIdle => 0
    case PushPublish(_, _) => 1
    case PushPut(_, _) => 2
    case PushInstall(_, _, _) => 3
    case PushCopy(_, _, _, _, _) => 4
    case PushArray(_, _, _) => 5
    case PushTop(_, _) => 6
    case PushBottom(_) => 7
    case PopUndo(_) => 1
    case PopFix(_, _) => 1
    case PopCas(_, _) => 2
    case PopGet(_, _, _) => 3
    case PopTop(_, _) => 4
    case PopReserve(_, _) => 5
    case PopBottom(_) => 6
    case PopArray => 7
  }

  function CopiesLeft(pc: OwnerPc): int {
    if pc.PushCopy? then pc.b - pc.i else 0
  }

  predicate Pushing(pc: OwnerPc) {
    || pc.PushBottom? || pc.PushTop? || pc.PushArray? || pc.PushCopy? || pc.PushInstall?
    || pc.PushPut? || pc.PushPublish?
  }

  // The owner's calls are wait-free: each step brings the call nearer to its end,
  // and a call ends with exactly one outcome, of its own kind and element.
  lemma OwnerAdvances(s: State, garbage: seq<Elem>)
    requires Inv(s) && Enabled(s, OwnerStep(garbage))
    ensures var pc, s' := s.owner, OwnerNext(s, garbage);
            && (OwnerStage(s'.owner) < OwnerStage(pc)
                || (OwnerStage(s'.owner) == OwnerStage(pc) && 0 <= CopiesLeft(s'.owner) < CopiesLeft(pc)))
            && (if s'.owner.OwnerIdle? then
                  |s'.log| == |s.log| + 1 && s.log == s'.log[..|s.log|]
                  && var o := s'.log[|s.log|];
                     if Pushing(pc) then o == Pushed(pc.e) else o.Popped? || o.PopEmpty?
                else
                  && s'.log == s.log
                  && (if Pushing(pc) then Pushing(s'.owner) && s'.owner.e == pc.e else !Pushing(s'.owner)))
  {
  }

  function ThiefStage(pc: ThiefPc): nat {
    match pc
    case ThiefIdle => 0
    case StealCas(_, _, _) => 1
    case StealGet(_, _, _) => 2
    case StealArray(_, _) => 3
    case StealBottom(_, _) => 4
    case StealTop(_) => 5
  }

  // A call never gets stuck: its next step makes sense, with every index in range.
  lemma NeverStuck(s: State, garbage: seq<Elem>, who: ThiefId)
    requires Inv(s)
    requires s.owner.PushArray? ==> |garbage| == Pow2(s.arrays[s.active].logSize + 1)
    ensures Enabled(s, OwnerStep(garbage)) <==> !s.owner.OwnerIdle?
    ensures Enabled(s, ThiefStep(who)) <==> !Thief(s, who).ThiefIdle?
  {
  }

  // A steal ends within five of its own steps, with exactly one outcome.
  lemma ThiefAdvances(s: State, who: ThiefId)
    requires Inv(s) && Enabled(s, ThiefStep(who))
    ensures var s' := ThiefNext(s, who);
            && ThiefStage(Thief(s', who)) == (if Thief(s', who).ThiefIdle? then 0 else ThiefStage(Thief(s, who)) - 1)
            && (if Thief(s', who).ThiefIdle? then
                  |s'.log| == |s.log| + 1
                  && var o := s'.log[|s.log|]; (o.Stolen? || o.StealEmpty? || o.StealAbort?) && o.who == who
                else s'.log == s.log)
            && (forall w :: w != who ==> Thief(s', w) == Thief(s, w)) && s'.owner == s.owner
  {
  }
}
