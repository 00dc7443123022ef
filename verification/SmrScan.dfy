/**
 * The sequential part of the hazard-pointer scheme: the deferred list of one thread
 * and the scan that compacts it in place (src/runtime/lockfree/allocator/OFluxSMR.cpp
 * and .h), with its sorted list of hazard pointers and binary search.
 */
module SmrScan {
  import opened Basics
  import opened HazardPointers

  // An entry of the deferred list; the allocator it belongs to is just a name here.
  datatype Entry = Entry(v: Ptr, alloc: nat)

  // ---------------------------------------------------------------------------
  // What a scan should do
  // ---------------------------------------------------------------------------

  // The entries whose pointer is among the hazards, in order ...
  function Kept(d: seq<Entry>, hazards: set<Ptr>): seq<Entry> {
    if d == [] then []
    else
      var last := d[|d| - 1];
      Kept(d[..|d| - 1], hazards) + if last.v in hazards then [last] else []
  }

  // ... and the others, in order.
  function Reclaimed(d: seq<Entry>, hazards: set<Ptr>): seq<Entry> {
    if d == [] then []
    else
      var last := d[|d| - 1];
      Reclaimed(d[..|d| - 1], hazards) + if last.v in hazards then [] else [last]
  }

  lemma OneMore(d: seq<Entry>, i: nat, hazards: set<Ptr>)
    requires i < |d|
    ensures Kept(d[..i + 1], hazards) == Kept(d[..i], hazards) + if d[i].v in hazards then [d[i]] else []
    ensures Reclaimed(d[..i + 1], hazards) == Reclaimed(d[..i], hazards) + if d[i].v in hazards then [] else [d[i]]
  {
    assert d[..i + 1][..i] == d[..i];
  }

  // Every entry is either kept or handed back, exactly once, whichever it should be.
  lemma {:induction false} NothingLostOrDoubled(d: seq<Entry>, hazards: set<Ptr>)
    ensures multiset(d) == multiset(Kept(d, hazards)) + multiset(Reclaimed(d, hazards))
    ensures forall e :: e in Kept(d, hazards) <==> e in d && e.v in hazards
    ensures forall e :: e in Reclaimed(d, hazards) <==> e in d && e.v !in hazards
  {
    if d != [] {
      var shorter, last := d[..|d| - 1], d[|d| - 1];
      NothingLostOrDoubled(shorter, hazards);
      assert d == shorter + [last];
    }
  }

  predicate DistinctPtrs(d: seq<Entry>) {
    forall i, j :: 0 <= i < j < |d| ==> d[i].v != d[j].v
  }

  // For distinct pointers, no more entries are kept than there are hazards.
  lemma {:induction false} KeptFits(d: seq<Entry>, hazards: set<Ptr>)
    requires DistinctPtrs(d)
    ensures |Kept(d, hazards)| <= |hazards|
    ensures DistinctPtrs(Kept(d, hazards))
  {
    if d != [] {
      var shorter, last := d[..|d| - 1], d[|d| - 1];
      var rest := hazards - {last.v};
      KeptFits(shorter, rest);
      SameKept(shorter, hazards, rest);
      NothingLostOrDoubled(shorter, hazards);
    }
  }

  lemma {:induction false} SameKept(d: seq<Entry>, hazards: set<Ptr>, rest: set<Ptr>)
    requires forall i :: 0 <= i < |d| ==> (d[i].v in hazards <==> d[i].v in rest)
    ensures Kept(d, hazards) == Kept(d, rest)
  {
    if d != [] {
      SameKept(d[..|d| - 1], hazards, rest);
    }
  }

  // ---------------------------------------------------------------------------
  // The sorted list of hazard pointers
  // ---------------------------------------------------------------------------

  predicate Sorted(s: seq<Ptr>) {
    forall i, j :: 0 <= i < j < |s| ==> s[i] <= s[j]
  }

  // Stands for the library sort: any method with this contract would do.
  method Sort(s: seq<Ptr>) returns (r: seq<Ptr>)
    ensures Sorted(r) && |r| == |s| && (forall p :: p in r <==> p in s)
  {
    r := [];
    for i := 0 to |s|
      invariant Sorted(r) && |r| == i && (forall p :: p in r <==> p in s[..i])
    {
      var k := 0;
      while k < |r| && r[k] < s[i]
        invariant 0 <= k <= |r| && forall j :: 0 <= j < k ==> r[j] < s[i]
      {
        k := k + 1;
      }
      r := r[..k] + [s[i]] + r[k..];
      assert s[..i + 1] == s[..i] + [s[i]];
    }
  }

  method BinarySearch(x: Ptr, plist: seq<Ptr>) returns (res: bool)
    requires Sorted(plist)
    ensures res <==> x in plist
  {
    var low, high := 0, |plist| - 1;
    res := false;
    while low <= high
      invariant 0 <= low <= high + 1 <= |plist|
      invariant !res
      invariant forall i :: 0 <= i < low ==> plist[i] < x
      invariant forall i :: high < i < |plist| ==> x < plist[i]
      decreases high - low
    {
      var mid := (low + high) / 2;
      var v := plist[mid];
      if v == x {
        res := true;
        break;
      } else if v < x {
        low := mid + 1;
      } else {
        high := mid - 1;
      }
    }
  }

  method IsHazardous(v: Ptr, plist: seq<Ptr>) returns (res: bool)
    requires Sorted(plist)
    ensures res <==> v in plist
  {
    res := false;
    if |plist| > 0 {
      res := BinarySearch(v, plist);
    }
  }

  function SetOf(hazard: seq<Option<Ptr>>): set<Ptr> {
    set i | 0 <= i < |hazard| && hazard[i].Some? :: hazard[i].value
  }

  lemma {:induction false} SetOfFits(hazard: seq<Option<Ptr>>)
    ensures |SetOf(hazard)| <= |hazard|
  {
    if hazard != [] {
      var shorter, last := hazard[..|hazard| - 1], hazard[|hazard| - 1];
      SetOfFits(shorter);
      SetOfSnoc(shorter, last);
      assert hazard == shorter + [last];
    }
  }

  lemma SetOfSnoc(hazard: seq<Option<Ptr>>, h: Option<Ptr>)
    ensures SetOf(hazard + [h]) == SetOf(hazard) + if h.Some? then {h.value} else {}
  {
    var more := hazard + [h];
    forall p | p in SetOf(hazard)
      ensures p in SetOf(more)
    {
      var i :| 0 <= i < |hazard| && hazard[i] == Some(p);
      assert more[i] == Some(p);
    }
    assert more[|hazard|] == h;
  }

  // ---------------------------------------------------------------------------
  // The deferred list of one thread
  // ---------------------------------------------------------------------------

  // Stage 1 of the scan: the non-null hazard pointers.
  method CollectHazards(hazard: seq<Option<Ptr>>) returns (plist: seq<Ptr>)
    ensures forall p :: p in plist <==> p in SetOf(hazard)
  {
    plist := [];
    for k := 0 to |hazard|
      invariant forall p :: p in plist <==> p in SetOf(hazard[..k])
    {
      assert hazard[..k + 1] == hazard[..k] + [hazard[k]];
      SetOfSnoc(hazard[..k], hazard[k]);
      if hazard[k].Some? {
        plist := plist + [hazard[k].value];
      }
    }
    assert hazard[..|hazard|] == hazard;
  }

  function Values(s: seq<Option<Entry>>): (d: seq<Entry>)
    requires forall i :: 0 <= i < |s| ==> s[i].Some?
    ensures |d| == |s| && forall i :: 0 <= i < |d| ==> s[i] == Some(d[i])
  {
    if s == [] then [] else Values(s[..|s| - 1]) + [s[|s| - 1].value]
  }

  class PerThread {
    const dlist: array<Option<Entry>>
    var dcount: nat
    var handedBack: seq<Entry>     // the put calls made on allocators so far

    ghost predicate Valid()
      reads this, dlist
    {
      && dlist.Length == SMR_R && dcount < SMR_R
      && forall i :: 0 <= i < dcount ==> dlist[i].Some?
    }

    // The deferred entries, oldest first.
    ghost function Deferred(): seq<Entry>
      requires dcount <= dlist.Length && forall i :: 0 <= i < dcount ==> dlist[i].Some?
      reads this, dlist
    {
      Values(dlist[..dcount])
    }

    constructor ()
      ensures Valid() && fresh(dlist) && Deferred() == [] && handedBack == []
    {
      dlist := new Option<Entry>[SMR_R](_ => None);
      dcount := 0;
      handedBack := [];
    }

    // hazard: the slots of the threads that count, as read by this scan.
    method Scan(hazard: seq<Option<Ptr>>)
      requires dlist.Length == SMR_R && dcount <= SMR_R && forall i :: 0 <= i < dcount ==> dlist[i].Some?
      modifies this, dlist
      ensures dcount <= SMR_R && forall i :: 0 <= i < dcount ==> dlist[i].Some?
      ensures Deferred() == Kept(old(Deferred()), SetOf(hazard))
      ensures handedBack == old(handedBack) + Reclaimed(old(Deferred()), SetOf(hazard))
    {
      var plist := CollectHazards(hazard);  // stage 1
      plist := Sort(plist);                 // stage 2
      Compact(plist, SetOf(hazard));        // stages 3 and 4
    }

    // The first i of these entries are dealt with: the kept ones are in front.
    ghost predicate Sifted(was: seq<Entry>, i: nat, count: nat, hazards: set<Ptr>)
      reads dlist
    {
      && i <= |was| <= dlist.Length
      && count == |Kept(was[..i], hazards)| <= i
      && (forall j :: 0 <= j < count ==> dlist[j] == Some(Kept(was[..i], hazards)[j]))
      && (forall j :: i <= j < |was| ==> dlist[j] == Some(was[j]))
    }

    // Move entry i down to the end of the kept ones, or hand it back.
    method Place(i: nat, count: nat, hazardous: bool, ghost was: seq<Entry>, ghost hazards: set<Ptr>)
      returns (newCount: nat)
      requires i < |was| && Sifted(was, i, count, hazards)
      requires hazardous <==> was[i].v in hazards
      modifies this`handedBack, dlist
      ensures Sifted(was, i + 1, newCount, hazards)
      ensures handedBack == old(handedBack) + if hazardous then [] else [was[i]]
    {
      OneMore(was, i, hazards);
      hide Kept, Reclaimed;
      newCount := count;
      if hazardous {
        dlist[newCount] := dlist[i];
        newCount := newCount + 1;
      } else {
        handedBack := handedBack + [dlist[i].value];
        dlist[i] := None;
      }
    }

    lemma NoneSifted(hazards: set<Ptr>)
      requires dcount <= dlist.Length && forall i :: 0 <= i < dcount ==> dlist[i].Some?
      ensures Sifted(Deferred(), 0, 0, hazards) && Reclaimed(Deferred()[..0], hazards) == []
    {
    }

    lemma NextToSift(was: seq<Entry>, i: nat, count: nat, hazards: set<Ptr>)
      requires Sifted(was, i, count, hazards) && i < |was|
      ensures dlist[i] == Some(was[i])
    {
    }

    lemma AllSifted(was: seq<Entry>, count: nat, hazards: set<Ptr>)
      requires Sifted(was, |was|, count, hazards)
      ensures count <= |was| && forall i :: 0 <= i < count ==> dlist[i].Some?
      ensures Values(dlist[..count]) == Kept(was, hazards) && was[..|was|] == was
    {
      assert was[..|was|] == was;
    }

    // Keep the hazardous entries, in place, and hand the others back.
    method Compact(plist: seq<Ptr>, ghost hazards: set<Ptr>)
      requires dlist.Length == SMR_R && dcount <= SMR_R && forall i :: 0 <= i < dcount ==> dlist[i].Some?
      requires Sorted(plist) && forall p :: p in plist <==> p in hazards
      modifies this, dlist
      ensures dcount <= SMR_R && forall i :: 0 <= i < dcount ==> dlist[i].Some?
      ensures Deferred() == Kept(old(Deferred()), hazards)
      ensures handedBack == old(handedBack) + Reclaimed(old(Deferred()), hazards)
    {
      hide Kept, Reclaimed, Sorted, Values, Sifted;
      ghost var was, back := Deferred(), handedBack;
      var newCount := 0;
      NoneSifted(hazards);
      for i := 0 to dcount
        invariant dcount == |was| && Sifted(was, i, newCount, hazards)
        invariant handedBack == back + Reclaimed(was[..i], hazards)
      {
        OneMore(was, i, hazards);
        NextToSift(was, i, newCount, hazards);
        var hazardous := IsHazardous(dlist[i].value.v, plist);
        newCount := Place(i, newCount, hazardous, was, hazards);
      }
      AllSifted(was, newCount, hazards);
      dcount := newCount;
    }

    // Defer one more pointer.  With distinct pointers and no more than SMR_N hazards
    // the list is never full afterwards.
    method DeferPut(v: Ptr, alloc: nat, hazard: seq<Option<Ptr>>)
      requires Valid() && DistinctPtrs(Deferred() + [Entry(v, alloc)])
      requires |hazard| <= SMR_N
      modifies this, dlist
      ensures Valid() && DistinctPtrs(Deferred())
      ensures var d := old(Deferred()) + [Entry(v, alloc)];
              if |d| < SMR_R then Deferred() == d && handedBack == old(handedBack)
              else && Deferred() == Kept(d, SetOf(hazard)) && |Deferred()| <= SMR_N
                   && handedBack == old(handedBack) + Reclaimed(d, SetOf(hazard))
    {
      ghost var d := Deferred() + [Entry(v, alloc)];
      dlist[dcount] := Some(Entry(v, alloc));
      dcount := dcount + 1;
      assert Deferred() == d;
      if dcount >= SMR_R {
        Scan(hazard);
        KeptFits(d, SetOf(hazard));
        SetOfFits(hazard);
      }
    }
  }
}
