/**
 * The growable circular array of src/runtime/lockfree/atomic/OFluxGrowableCircularArray.h
 * and the queue built on it, called one operation at a time.  Growing puts a bigger
 * array, full of sentinels, in front of the old one; entries stay where they are and are
 * found by walking the chain past sentinels.
 */
module GrowableArray {
  import opened Basics

  datatype Ptr<+T> = Null | Uninit | Item(item: T)

  // `at` is the index the entry was written for; None stands for -1.
  datatype Entry<+T> = Entry(ptr: Ptr<T>, at: Option<nat>)

  const DefaultSize := 16

  // ---------------------------------------------------------------------------
  // Chains of arrays as values, newest first
  // ---------------------------------------------------------------------------

  ghost predicate ChainOk<T>(c: seq<seq<Entry<T>>>) {
    && c != []
    && (forall k :: 0 <= k < |c| ==> |c[k]| > 0)
    && NoSentinel(c[|c| - 1])
  }

  ghost predicate NoSentinel<T>(a: seq<Entry<T>>) {
    forall s :: 0 <= s < |a| ==> a[s].ptr != Uninit
  }

  lemma TailOk<T>(c: seq<seq<Entry<T>>>)
    requires ChainOk(c) && |c| > 1
    ensures ChainOk(c[1..])
  {
    var d := c[1..];
    assert forall k :: 0 <= k < |d| ==> d[k] == c[k + 1];
  }

  // The array in which index i is found.
  ghost function Depth<T>(c: seq<seq<Entry<T>>>, i: nat): (d: nat)
    requires ChainOk(c)
    ensures d < |c| && !c[d][Slot(i, |c[d]|)].ptr.Uninit?
    ensures forall k :: 0 <= k < d ==> c[k][Slot(i, |c[k]|)].ptr.Uninit?
    decreases |c|
  {
    if c[0][Slot(i, |c[0]|)].ptr.Uninit? then
      TailOk(c);
      var d := Depth(c[1..], i);
      assert c[1..][d] == c[d + 1];
      assert forall k :: 0 < k < d + 1 ==> c[k] == c[1..][k - 1];
      d + 1
    else 0
  }

  ghost function Found<T>(c: seq<seq<Entry<T>>>, i: nat): (e: Entry<T>)
    requires ChainOk(c)
    ensures e.ptr != Uninit
  {
    var d := Depth(c, i);
    c[d][Slot(i, |c[d]|)]
  }

  function Written<T>(c: seq<seq<Entry<T>>>, d: nat, s: nat, e: Entry<T>): seq<seq<Entry<T>>>
    requires d < |c| && s < |c[d]|
  {
    c[d := c[d][s := e]]
  }

  // The depth is determined by what it means.
  lemma DepthIs<T>(c: seq<seq<Entry<T>>>, i: nat, d: nat)
    requires ChainOk(c) && d < |c| && !c[d][Slot(i, |c[d]|)].ptr.Uninit?
    requires forall k :: 0 <= k < d ==> c[k][Slot(i, |c[k]|)].ptr.Uninit?
    ensures Depth(c, i) == d
  {
  }

  lemma WrittenOk<T>(c: seq<seq<Entry<T>>>, d: nat, s: nat, e: Entry<T>)
    requires ChainOk(c) && d < |c| && s < |c[d]| && e.ptr != Uninit
    ensures ChainOk(Written(c, d, s, e))
  {
  }

  // Writing an entry that is not a sentinel changes what is found at i only if it is
  // the entry found at i, or a sentinel before it.
  lemma FoundElsewhere<T>(c: seq<seq<Entry<T>>>, d: nat, s: nat, e: Entry<T>, i: nat)
    requires ChainOk(c) && d < |c| && s < |c[d]| && e.ptr != Uninit
    requires Slot(i, |c[d]|) != s || d > Depth(c, i)
    ensures ChainOk(Written(c, d, s, e)) && Depth(Written(c, d, s, e), i) == Depth(c, i)
    ensures Found(Written(c, d, s, e), i) == Found(c, i)
  {
    WrittenOk(c, d, s, e);
    DepthIs(Written(c, d, s, e), i, Depth(c, i));
  }

  lemma FoundHere<T>(c: seq<seq<Entry<T>>>, e: Entry<T>, i: nat)
    requires ChainOk(c) && e.ptr != Uninit
    ensures var d := Depth(c, i);
            var c' := Written(c, d, Slot(i, |c[d]|), e);
            ChainOk(c') && Depth(c', i) == d && Found(c', i) == e
  {
    var d := Depth(c, i);
    WrittenOk(c, d, Slot(i, |c[d]|), e);
    DepthIs(Written(c, d, Slot(i, |c[d]|), e), i, d);
  }

  function Grown<T>(c: seq<seq<Entry<T>>>): seq<seq<Entry<T>>>
    requires c != []
  {
    [Sentinels(2 * |c[0]|)] + c
  }

  function Sentinels<T>(n: nat): (a: seq<Entry<T>>)
    ensures |a| == n && forall s :: 0 <= s < n ==> a[s] == Entry(Uninit, None)
  {
    seq(n, _ => Entry(Uninit, None))
  }

  function Empties<T>(n: nat): (a: seq<Entry<T>>)
    ensures |a| == n && forall s :: 0 <= s < n ==> a[s] == Entry(Null, None)
  {
    seq(n, _ => Entry(Null, None))
  }

  lemma GrownFound<T>(c: seq<seq<Entry<T>>>, i: nat)
    requires ChainOk(c)
    ensures ChainOk(Grown(c)) && Depth(Grown(c), i) == Depth(c, i) + 1 && Found(Grown(c), i) == Found(c, i)
  {
    var g := Grown(c);
    assert forall k :: 0 < k < |g| ==> g[k] == c[k - 1];
    assert ChainOk(g);
    DepthIs(g, i, Depth(c, i) + 1);
  }

  // get with update: a sentinel in the newest array is replaced.
  ghost function Touched<T>(c: seq<seq<Entry<T>>>, i: nat): seq<seq<Entry<T>>>
    requires ChainOk(c)
  {
    var s := Slot(i, |c[0]|);
    if !c[0][s].ptr.Uninit? then c
    else if Found(c, i).at == Some(i) then Written(c, 0, s, Entry(Found(c, i).ptr, Some(i)))
    else Written(c, 0, s, Entry(Null, c[0][s].at))
  }

  // cas_from_null and cas_to_null.
  ghost function Filled<T>(c: seq<seq<Entry<T>>>, i: nat, n: T): seq<seq<Entry<T>>>
    requires ChainOk(c)
  {
    var d := Depth(c, i);
    var e := Found(c, i);
    Written(c, d, Slot(i, |c[d]|), Entry(if e.ptr.Null? then Item(n) else e.ptr, Some(i)))
  }

  ghost function Cleared<T>(c: seq<seq<Entry<T>>>, i: nat, o: T): seq<seq<Entry<T>>>
    requires ChainOk(c)
  {
    var d := Depth(c, i);
    var e := Found(c, i);
    Written(c, d, Slot(i, |c[d]|), Entry(if e.ptr == Item(o) then Null else e.ptr, None))
  }

  // ---------------------------------------------------------------------------
  // A chain as a queue
  // ---------------------------------------------------------------------------

  // The chain holds q at the indices from out.
  ghost predicate Holds<T>(c: seq<seq<Entry<T>>>, out: nat, q: seq<T>) {
    && ChainOk(c) && |q| < |c[0]|
    && (forall j :: out <= j < out + |q| ==> Found(c, j) == Entry(Item(q[j - out]), Some(j)))
    // no item is in the way of the next pushes
    && (forall i :: out + |q| <= i < out + |c[0]| ==> !c[0][Slot(i, |c[0]|)].ptr.Item?)
    && (forall k, s :: 0 <= k < |c| && 0 <= s < |c[k]| && c[k][s].at.Some? ==> c[k][s].at.value < out + |q|)
  }

  lemma EmptyHolds<T>()
    ensures Holds<T>([Empties(DefaultSize)], 0, [])
  {
  }

  lemma GrownHolds<T>(c: seq<seq<Entry<T>>>, out: nat, q: seq<T>)
    requires Holds(c, out, q)
    ensures Holds(Grown(c), out, q) && |Grown(c)[0]| == 2 * |c[0]| > |q| + 1
  {
    var g := Grown(c);
    GrownFound(c, 0);
    forall j | out <= j < out + |q|
      ensures Found(g, j) == Entry(Item(q[j - out]), Some(j))
    {
      GrownFound(c, j);
    }
    assert forall k :: 0 < k < |g| ==> g[k] == c[k - 1];
  }

  // After get(in) with update the newest array has an empty entry for the next push.
  lemma TouchedHolds<T>(c: seq<seq<Entry<T>>>, out: nat, q: seq<T>)
    requires Holds(c, out, q)
    ensures var c' := Touched(c, out + |q|);
            && Holds(c', out, q) && |c'[0]| == |c[0]|
            && Depth(c', out + |q|) == 0 && Found(c', out + |q|).ptr == Null
  {
    var i := out + |q|;
    var s := Slot(i, |c[0]|);
    assert !c[0][s].ptr.Item?;
    if c[0][s].ptr.Uninit? {
      var d := Depth(c, i);
      assert c[d][Slot(i, |c[d]|)].at != Some(i);
      var e := Entry(Null, c[0][s].at);
      assert Touched(c, i) == Written(c, 0, s, e);
      WriteHolds(c, out, q, s, e);
      DepthIs(Written(c, 0, s, e), i, 0);
    } else {
      DepthIs(c, i, 0);
    }
  }

  // Writing the newest array where the next push goes disturbs nothing.
  lemma WriteHolds<T>(c: seq<seq<Entry<T>>>, out: nat, q: seq<T>, s: nat, e: Entry<T>)
    requires Holds(c, out, q) && s == Slot(out + |q|, |c[0]|) && e.ptr.Null?
    requires e.at.Some? ==> e.at.value < out + |q|
    ensures Holds(Written(c, 0, s, e), out, q)
  {
    var c' := Written(c, 0, s, e);
    WrittenOk(c, 0, s, e);
    forall j | out <= j < out + |q|
      ensures Found(c', j) == Entry(Item(q[j - out]), Some(j))
    {
      NearbyDiffer(j, out + |q|, |c[0]|);
      FoundElsewhere(c, 0, s, e, j);
    }
  }

  // A push, once there is room in the newest array.
  lemma FilledHolds<T>(c: seq<seq<Entry<T>>>, out: nat, q: seq<T>, o: T)
    requires Holds(c, out, q) && |q| + 1 < |c[0]|
    requires Depth(c, out + |q|) == 0 && Found(c, out + |q|).ptr == Null
    ensures Holds(Filled(c, out + |q|, o), out, q + [o])
  {
    var i, s := out + |q|, Slot(out + |q|, |c[0]|);
    var e: Entry<T> := Entry(Item(o), Some(i));
    var c': seq<seq<Entry<T>>> := Filled(c, i, o);
    assert c' == Written(c, 0, s, e);
    FoundHere(c, e, i);
    forall j | out <= j < out + |q + [o]|
      ensures Found(c', j) == Entry(Item((q + [o])[j - out]), Some(j))
    {
      if j < i {
        NearbyDiffer(j, i, |c[0]|);
        FoundElsewhere(c, 0, s, e, j);
      }
    }
    forall k | out + |q + [o]| <= k < out + |c'[0]|
      ensures !c'[0][Slot(k, |c'[0]|)].ptr.Item?
    {
      NearbyDiffer(i, k, |c[0]|);
      assert !c[0][Slot(k, |c[0]|)].ptr.Item?;
    }
  }

  // A pop takes the oldest item, wherever it is.
  lemma ClearedHolds<T>(c: seq<seq<Entry<T>>>, out: nat, q: seq<T>)
    requires Holds(c, out, q) && q != []
    ensures Found(c, out).ptr == Item(q[0])
    ensures Holds(Cleared(c, out, q[0]), out + 1, q[1..])
  {
    var d := Depth(c, out);
    var s := Slot(out, |c[d]|);
    var e: Entry<T> := Entry(Null, None);
    var c': seq<seq<Entry<T>>> := Cleared(c, out, q[0]);
    assert Found(c, out) == Entry(Item(q[out - out]), Some(out));
    assert c' == Written(c, d, s, e);
    WrittenOk(c, d, s, e);
    forall j | out + 1 <= j < out + |q|
      ensures Found(c', j) == Entry(Item(q[1..][j - out - 1]), Some(j))
    {
      assert Found(c, j) == Entry(Item(q[j - out]), Some(j));
      assert Slot(j, |c[d]|) != s || Depth(c, j) < d;
      FoundElsewhere(c, d, s, e, j);
    }
    forall k | out + |q| <= k < out + 1 + |c'[0]|
      ensures !c'[0][Slot(k, |c'[0]|)].ptr.Item?
    {
      if k < out + |c[0]| {
        assert !c[0][Slot(k, |c[0]|)].ptr.Item?;
      } else {
        assert k == out + |c[0]|;
        OnceAround(out, |c[0]|);
      }
    }
  }

  // ---------------------------------------------------------------------------
  // The classes
  // ---------------------------------------------------------------------------

  class Implementation<T(==)> {
    const data: array<Entry<T>>
    const old_: Implementation?<T>

    constructor ()
      ensures old_ == null && fresh(data) && data.Length == DefaultSize
      ensures data[..] == Empties(DefaultSize)
    {
      data := new Entry<T>[DefaultSize](_ => Entry(Null, None));
      old_ := null;
    }

    constructor InFrontOf(o: Implementation<T>)
      ensures old_ == o && fresh(data) && data.Length == 2 * o.data.Length
      ensures data[..] == Sentinels(2 * o.data.Length)
    {
      data := new Entry<T>[2 * o.data.Length](_ => Entry(Uninit, None));
      old_ := o;
    }

    // The entry for i, in this array or behind a sentinel in the older ones.  chain is
    // this array and the older ones.
    method Find(i: nat, ghost chain: seq<Implementation<T>>) returns (r: Entry<T>)
      requires Linked(chain) && chain[0] == this && ChainOk(SlotsOf(chain))
      ensures r == Found(SlotsOf(chain), i)
      decreases |chain|
    {
      r := data[Slot(i, data.Length)];
      if r.ptr.Uninit? {
        OlderChain(chain, i);
        r := old_.Find(i, chain[1..]);
      }
    }

    // The same; with update, a sentinel in this array is replaced.
    method Get(i: nat, update: bool, ghost chain: seq<Implementation<T>>) returns (r: Entry<T>)
      requires Linked(chain) && chain[0] == this && ChainOk(SlotsOf(chain))
      modifies if update then {data} else {}
      ensures SlotsOf(chain) == if update then Touched(old(SlotsOf(chain)), i) else old(SlotsOf(chain))
      ensures r == if update then SlotsOf(chain)[0][Slot(i, data.Length)] else Found(old(SlotsOf(chain)), i)
    {
      var s := Slot(i, data.Length);
      r := data[s];
      if r.ptr.Uninit? {
        ghost var c: seq<seq<Entry<T>>> := SlotsOf(chain);
        OlderChain(chain, i);
        var rold := old_.Find(i, chain[1..]);
        if update {
          r := if rold.at == Some(i) then Entry(rold.ptr, Some(i)) else Entry(Null, data[s].at);
          data[s] := r;
          OneWritten(chain, c, s, r);
        } else {
          r := rold;
        }
      }
    }
  }

  // The newest array has been written at s.
  lemma OneWritten<T>(chain: seq<Implementation<T>>, c: seq<seq<Entry<T>>>, s: nat, r: Entry<T>)
    requires chain != [] && |c| == |chain| && s < |c[0]|
    requires chain[0].data[..] == c[0][s := r] && forall k :: 0 < k < |chain| ==> chain[k].data[..] == c[k]
    ensures SlotsOf(chain) == Written(c, 0, s, r)
  {
  }

  // Behind a sentinel there are older arrays, where the search goes on.
  lemma OlderChain<T>(chain: seq<Implementation<T>>, i: nat)
    requires Linked(chain) && ChainOk(SlotsOf(chain)) && SlotsOf(chain)[0][Slot(i, |SlotsOf(chain)[0]|)].ptr.Uninit?
    ensures |chain| > 1 && chain[0].old_ == chain[1] && Linked(chain[1..]) && ChainOk(SlotsOf(chain[1..]))
    ensures Found(SlotsOf(chain), i) == Found(SlotsOf(chain[1..]), i)
  {
    var c: seq<seq<Entry<T>>> := SlotsOf(chain);
    assert |chain| > 1 by {
      assert c[0][Slot(i, |c[0]|)].ptr.Uninit? && NoSentinel(c[|c| - 1]);
    }
    TailOk(c);
    LinkedTail(chain);
    assert SlotsOf(chain[1..]) == c[1..];
  }

  lemma LinkedTail<T>(chain: seq<Implementation<T>>)
    requires Linked(chain) && |chain| > 1
    ensures Linked(chain[1..]) && chain[0].old_ == chain[1]
  {
    var rest := chain[1..];
    assert forall k :: 0 <= k < |rest| ==> rest[k] == chain[k + 1];
    forall k | 0 <= k < |rest| - 1
      ensures rest[k].old_ == rest[k + 1]
    {
      assert chain[k + 1].old_ == chain[k + 2];
    }
  }

  ghost predicate DataIn<T>(chain: seq<Implementation<T>>, arrays: set<array<Entry<T>>>) {
    forall k :: 0 <= k < |chain| ==> chain[k].data in arrays
  }

  lemma ChainGrows<T>(n: Implementation<T>, chain: seq<Implementation<T>>, arrays: set<array<Entry<T>>>)
    requires Linked(chain) && n.old_ == chain[0] && ChainOk(SlotsOf(chain))
    requires DataIn(chain, arrays) && n.data !in arrays && n.data[..] == Sentinels(2 * |SlotsOf(chain)[0]|)
    ensures Linked([n] + chain) && DataIn([n] + chain, arrays + {n.data})
    ensures SlotsOf([n] + chain) == Grown(SlotsOf(chain)) && ChainOk(SlotsOf([n] + chain))
  {
    SlotsGrow(n, chain);
    GrownFound(SlotsOf(chain), 0);
    LinksGrow(n, chain, arrays);
  }

  lemma LinksGrow<T>(n: Implementation<T>, chain: seq<Implementation<T>>, arrays: set<array<Entry<T>>>)
    requires Linked(chain) && n.old_ == chain[0] && DataIn(chain, arrays) && n.data !in arrays
    ensures Linked([n] + chain) && DataIn([n] + chain, arrays + {n.data})
  {
    var g := [n] + chain;
    assert forall k :: 0 < k < |g| ==> g[k] == chain[k - 1];
    forall k | 0 <= k < |g| - 1
      ensures g[k].old_ == g[k + 1]
    {
      assert g[k + 1] == chain[k];
    }
  }

  lemma SlotsGrow<T>(n: Implementation<T>, chain: seq<Implementation<T>>)
    requires chain != [] && n.data[..] == Sentinels(2 * |SlotsOf(chain)[0]|)
    ensures SlotsOf([n] + chain) == Grown(SlotsOf(chain))
  {
    var g, c := [n] + chain, SlotsOf(chain);
    forall k | 0 <= k < |g|
      ensures SlotsOf(g)[k] == Grown(c)[k]
    {
      if k > 0 {
        assert g[k] == chain[k - 1] && Grown(c)[k] == c[k - 1];
      }
    }
  }

  // The arrays of a chain are linked, and distinct.
  ghost predicate Linked<T>(chain: seq<Implementation<T>>) {
    && chain != [] && chain[|chain| - 1].old_ == null
    && (forall k {:trigger chain[k].old_} :: 0 <= k < |chain| - 1 ==> chain[k].old_ == chain[k + 1])
    && (forall j, k :: 0 <= j < k < |chain| ==> chain[j].data != chain[k].data)
  }

  ghost function SlotsOf<T>(chain: seq<Implementation<T>>): (c: seq<seq<Entry<T>>>)
    reads set k | 0 <= k < |chain| :: chain[k].data
    ensures |c| == |chain| && forall k :: 0 <= k < |chain| ==> c[k] == chain[k].data[..]
  {
    seq(|chain|, k requires 0 <= k < |chain| reads set j | 0 <= j < |chain| :: chain[j].data => chain[k].data[..])
  }

  class CircularArray<T(==)> {
    var impl: Implementation<T>
    ghost var chain: seq<Implementation<T>>

    ghost var arrays: set<array<Entry<T>>>

    ghost predicate Owned()
      reads this
    {
      DataIn(chain, arrays)
    }

    ghost predicate Valid()
      reads this, arrays
    {
      Owned() && Linked(chain) && chain[0] == impl && ChainOk(Slots())
    }

    ghost function Slots(): seq<seq<Entry<T>>>
      requires Owned()
      reads this, arrays
    {
      SlotsOf(chain)
    }

    constructor ()
      ensures Valid() && fresh(arrays)
      ensures Slots() == [Empties(DefaultSize)]
    {
      var i := new Implementation();
      impl := i;
      chain := [i];
      arrays := {i.data};
    }

    function Size(): (n: nat)
      requires Valid()
      reads this, arrays
      ensures n == |Slots()[0]| > 0
    {
      impl.data.Length
    }

    method Get(i: nat, update: bool) returns (r: Entry<T>)
      requires Valid()
      modifies if update then arrays else {}
      ensures Valid() && unchanged(this)
      ensures Slots() == if update then Touched(old(Slots()), i) else old(Slots())
      ensures r == if update then Slots()[0][Slot(i, |Slots()[0]|)] else Found(old(Slots()), i)
    {
      assert chain[0].data in arrays;
      r := impl.Get(i, update, chain);
      if update {
        TouchedOk(old(Slots()), i);
      }
    }

    // The array in which index i is found.
    method Locate(i: nat) returns (at: Implementation<T>, ghost d: nat)
      requires Valid()
      ensures d == Depth(Slots(), i) && at == chain[d]
    {
      at := impl;
      d := 0;
      while at.data[Slot(i, at.data.Length)].ptr.Uninit?
        invariant d < |chain| && at == chain[d]
        invariant forall k :: 0 <= k < d ==> Slots()[k][Slot(i, |Slots()[k]|)].ptr.Uninit?
        decreases |chain| - d
      {
        assert NoSentinel(Slots()[|chain| - 1]);
        assert Slots()[d][Slot(i, |Slots()[d]|)].ptr.Uninit?;
        assert chain[d].old_ == chain[d + 1];
        at := at.old_;
        d := d + 1;
      }
      DepthIs(Slots(), i, d);
    }

    method CasFromNull(i: nat, n: T) returns (res: bool)
      requires Valid()
      modifies arrays
      ensures Valid() && unchanged(this) && Slots() == Filled(old(Slots()), i, n)
      ensures res == Found(old(Slots()), i).ptr.Null?
    {
      ghost var c: seq<seq<Entry<T>>> := Slots();
      var at, d := Locate(i);
      var s := Slot(i, at.data.Length);
      res := at.data[s].ptr.Null?;
      at.data[s] := Entry(if res then Item(n) else at.data[s].ptr, Some(i));
      assert Slots() == Written(c, d, s, at.data[s]);
      WrittenOk(c, d, s, at.data[s]);
    }

    method CasToNull(i: nat, o: T) returns (res: bool)
      requires Valid()
      modifies arrays
      ensures Valid() && unchanged(this) && Slots() == Cleared(old(Slots()), i, o)
      ensures res == (Found(old(Slots()), i).ptr == Item(o))
    {
      ghost var c: seq<seq<Entry<T>>> := Slots();
      var at, d := Locate(i);
      var s := Slot(i, at.data.Length);
      res := at.data[s].ptr == Item(o);
      at.data[s] := Entry(if res then Null else at.data[s].ptr, None);
      assert Slots() == Written(c, d, s, at.data[s]);
      WrittenOk(c, d, s, at.data[s]);
    }

    method Grow()
      requires Valid()
      modifies this
      ensures Valid() && fresh(arrays - old(arrays)) && Slots() == Grown(old(Slots()))
    {
      hide ChainOk, SlotsOf;
      assert impl.data.Length == |Slots()[0]|;
      var n := new Implementation.InFrontOf(impl);
      PutInFront(n);
    }

    // The compare-and-swap of the newest array.
    method PutInFront(n: Implementation<T>)
      requires Valid() && impl == n.old_ == chain[0] && n.data !in arrays && n.data[..] == Sentinels(2 * |Slots()[0]|)
      modifies this
      ensures Valid() && arrays == old(arrays) + {n.data} && Slots() == Grown(old(Slots()))
    {
      hide Linked, ChainOk, SlotsOf, DataIn, Grown;
      ChainGrows(n, chain, arrays);
      impl, chain, arrays := n, [n] + chain, arrays + {n.data};
    }
  }

  lemma FirstIsFound<T>(c: seq<seq<Entry<T>>>, i: nat)
    requires ChainOk(c) && Depth(c, i) == 0
    ensures Found(c, i) == c[0][Slot(i, |c[0]|)]
  {
  }

  lemma TouchedOk<T>(c: seq<seq<Entry<T>>>, i: nat)
    requires ChainOk(c)
    ensures ChainOk(Touched(c, i)) && |Touched(c, i)| == |c|
  {
    if c[0][Slot(i, |c[0]|)].ptr.Uninit? {
      var e := if Found(c, i).at == Some(i) then Entry(Found(c, i).ptr, Some(i))
               else Entry(Null, c[0][Slot(i, |c[0]|)].at);
      WrittenOk(c, 0, Slot(i, |c[0]|), e);
    }
  }

  // ---- a push and a pop, in their two steps ----

  // Room for one more, and an empty entry for it.
  method MakeRoom<T(==)>(a: CircularArray<T>, inn: nat, out: nat, ghost q: seq<T>)
    requires a.Valid() && Holds(a.Slots(), out, q) && inn == out + |q|
    modifies a, a.arrays
    ensures a.Valid() && Holds(a.Slots(), out, q) && fresh(a.arrays - old(a.arrays))
    ensures |q| + 1 < |a.Slots()[0]|
    ensures Depth(a.Slots(), inn) == 0 && Found(a.Slots(), inn).ptr == Null
  {
    hide Holds, Found, Depth, Touched, Grown, ChainOk, Linked;
    if inn - out + 1 >= a.Size() {
      GrownHolds(a.Slots(), out, q);
      a.Grow();
    }
    TouchedHolds(a.Slots(), out, q);
    var t := a.Get(inn, true);
    assert t.ptr.Null? by {
      FirstIsFound(a.Slots(), inn);
    }
  }

  method Insert<T(==)>(a: CircularArray<T>, i: nat, out: nat, ghost q: seq<T>, o: T)
    requires a.Valid() && Holds(a.Slots(), out, q) && i == out + |q| && |q| + 1 < |a.Slots()[0]|
    requires Depth(a.Slots(), i) == 0 && Found(a.Slots(), i).ptr == Null
    modifies a.arrays
    ensures a.Valid() && unchanged(a) && Holds(a.Slots(), out, q + [o])
  {
    FilledHolds(a.Slots(), out, q, o);
    hide Holds, Depth, Filled, ChainOk, Linked, SlotsOf;
    var res := a.CasFromNull(i, o);
    assert res;
  }

  method Peek<T(==)>(a: CircularArray<T>, out: nat, ghost q: seq<T>) returns (item: T)
    requires a.Valid() && Holds(a.Slots(), out, q) && q != []
    ensures item == q[0]
  {
    ClearedHolds(a.Slots(), out, q);
    var r := a.Get(out, false);
    item := r.ptr.item;
  }

  method Remove<T(==)>(a: CircularArray<T>, out: nat, ghost q: seq<T>, item: T)
    requires a.Valid() && Holds(a.Slots(), out, q) && q != [] && item == q[0]
    modifies a.arrays
    ensures a.Valid() && unchanged(a) && Holds(a.Slots(), out + 1, q[1..])
  {
    ClearedHolds(a.Slots(), out, q);
    hide Holds, Depth, Cleared, ChainOk, Linked, SlotsOf;
    var ok := a.CasToNull(out, item);
    assert ok;
  }

  class LFArrayQueue<T(==)> {
    const array_: CircularArray<T>
    var in_: nat
    var out: nat
    ghost var contents: seq<T>

    ghost function Repr(): set<object>
      reads this, array_
    {
      {this, array_} + array_.arrays
    }

    ghost predicate Valid()
      reads this, Repr()
    {
      array_.Valid() && Holds(array_.Slots(), out, contents) && in_ == out + |contents|
    }

    constructor ()
      ensures Valid() && contents == [] && fresh(Repr())
    {
      array_ := new CircularArray();
      in_, out, contents := 0, 0, [];
      EmptyHolds<T>();
    }

    method Push(o: T)
      requires Valid()
      modifies Repr()
      ensures Valid() && fresh(Repr() - old(Repr()))
      ensures contents == old(contents) + [o]
    {
      hide Holds, Found, Depth, ChainOk, Linked, SlotsOf;
      MakeRoom(array_, in_, out, contents);
      in_ := in_ + 1;
      Insert(array_, in_ - 1, out, contents, o);
      contents := contents + [o];
    }

    method Pop() returns (res: Option<T>)
      requires Valid()
      modifies Repr()
      ensures Valid() && fresh(Repr() - old(Repr()))
      ensures if old(contents) == [] then res == None && contents == []
              else res == Some(old(contents)[0]) && contents == old(contents)[1..]
    {
      hide Holds, Found, Depth, ChainOk, Linked, SlotsOf;
      res := None;
      if out < in_ {
        var item := Peek(array_, out, contents);
        out := out + 1;
        Remove(array_, out - 1, contents, item);
        contents := contents[1..];
        res := Some(item);
      }
    }

    function Size(): nat
      requires Valid()
      reads this, Repr()
      ensures Size() == |contents|
    {
      in_ - out
    }
  }
}
