/**
 * The numbering of guards from the inequalities between them, src/runtime/OFluxOrderable.cpp.
 * The numbers it gives are the order in which events acquire guards.
 */
module MagicSorter {
  import Cycles

  type Name = nat

  datatype Inequality = Inequality(before: Name, after: Name)

  function Before(ineqs: seq<Inequality>): (Name, Name) -> bool {
    (p: Name, x: Name) => Inequality(p, x) in ineqs
  }

  ghost predicate Acyclic(ineqs: seq<Inequality>) {
    Cycles.Acyclic(Before(ineqs))
  }

  function Names(ineqs: seq<Inequality>): (names: set<Name>)
    ensures forall q :: q in ineqs ==> q.before in names && q.after in names
  {
    if ineqs == [] then {}
    else
      var rest := Names(ineqs[1..]);
      assert ineqs == [ineqs[0]] + ineqs[1..];
      assert ineqs[0] in ineqs;
      {ineqs[0].before, ineqs[0].after} + rest
  }

  function Number(magic: map<Name, nat>, x: Name): nat {
    if x in magic then magic[x] else 0
  }

  // Numbers below next, different where positive.
  ghost predicate Numbered(magic: map<Name, nat>, next: nat) {
    && next > 0
    && (forall x :: Number(magic, x) < next)
    && (forall x, y :: x != y && Number(magic, x) > 0 ==> Number(magic, x) != Number(magic, y))
  }

  // Whoever has a number has one greater than those before it.
  ghost predicate Respects(magic: map<Name, nat>, preds: map<Name, set<Name>>) {
    forall x, p :: x in preds && p in preds[x] && Number(magic, x) > 0 ==> 0 < Number(magic, p) < Number(magic, x)
  }

  // preds says what the inequalities say.
  ghost predicate Gathers(preds: map<Name, set<Name>>, ineqs: seq<Inequality>) {
    && preds.Keys == Names(ineqs)
    && (forall x, p :: x in preds ==> (p in preds[x] <==> Inequality(p, x) in ineqs))
  }

  // One of those before x has no number.
  ghost predicate Waits(magic: map<Name, nat>, preds: map<Name, set<Name>>, x: Name) {
    x in preds && exists p :: p in preds[x] && Number(magic, p) == 0
  }

  function Unnumbered(magic: map<Name, nat>, names: set<Name>): set<Name> {
    set x | x in names && Number(magic, x) == 0
  }

  // Numbers that grow along the inequalities exclude a cycle.
  lemma {:induction false} GrowsAlong(magic: map<Name, nat>, ineqs: seq<Inequality>, w: seq<Name>)
    requires forall q :: q in ineqs ==> Number(magic, q.before) < Number(magic, q.after)
    requires |w| > 1 && Cycles.Walk(Before(ineqs), w)
    ensures Number(magic, w[0]) < Number(magic, w[|w| - 1])
    decreases |w|
  {
    assert Cycles.Linked(Before(ineqs), w, 0);
    assert Inequality(w[0], w[1]) in ineqs;
    if |w| > 2 {
      Cycles.PartIsWalk(Before(ineqs), w, 1, |w|);
      assert w[1..|w|] == w[1..];
      GrowsAlong(magic, ineqs, w[1..]);
    }
  }

  lemma NumberedIsAcyclic(magic: map<Name, nat>, ineqs: seq<Inequality>)
    requires forall q :: q in ineqs ==> Number(magic, q.before) < Number(magic, q.after)
    ensures Acyclic(ineqs)
  {
    forall w
      ensures !Cycles.Cycle(Before(ineqs), w)
    {
      if Cycles.Cycle(Before(ineqs), w) {
        GrowsAlong(magic, ineqs, w);
      }
    }
  }

  // ---------------------------------------------------------------------------
  // The class
  // ---------------------------------------------------------------------------

  class MagicSorter {
    var inequalities: seq<Inequality>
    var points: seq<Name>
    var magic: map<Name, nat>

    constructor ()
      ensures inequalities == [] && points == [] && magic == map[]
    {
      inequalities, points, magic := [], [], map[];
    }

    method AddInequality(before: Name, after: Name)
      modifies this
      ensures inequalities == old(inequalities) + [Inequality(before, after)]
      ensures points == old(points) && magic == old(magic)
    {
      inequalities := inequalities + [Inequality(before, after)];
    }

    method AddPoint(pt: Name)
      modifies this
      ensures points == old(points) + [pt]
      ensures inequalities == old(inequalities) && magic == old(magic)
    {
      points := points + [pt];
    }

    // pred_map
    method Gather() returns (preds: map<Name, set<Name>>)
      ensures Gathers(preds, inequalities)
    {
      preds := map[];
      for i := 0 to |inequalities|
        invariant Gathers(preds, inequalities[..i])
      {
        var q := inequalities[i];
        GatherOne(preds, inequalities[..i], q);
        assert inequalities[..i + 1] == inequalities[..i] + [q];
        var old_ := if q.after in preds then preds[q.after] else {};
        preds := preds[q.after := old_ + {q.before}];
        if q.before !in preds {
          preds := preds[q.before := {}];
        }
      }
      assert inequalities[..|inequalities|] == inequalities;
    }

    method AllAssigned(s: set<Name>) returns (res: bool)
      ensures res <==> forall x :: x in s ==> Number(magic, x) > 0
    {
      res := true;
      var rest := s;
      while rest != {} && res
        invariant rest <= s
        invariant res ==> forall x :: x in s && x !in rest ==> Number(magic, x) > 0
        invariant !res ==> exists x :: x in s && Number(magic, x) == 0
        decreases |rest|
      {
        var x :| x in rest;
        res := Number(magic, x) > 0;
        rest := rest - {x};
      }
    }

    // One pass over the names, in any order.
    method Pass(preds: map<Name, set<Name>>, next: nat) returns (next': nat, nochange: bool, allassigned: bool)
      requires Numbered(magic, next) && Respects(magic, preds)
      modifies this`magic
      ensures Numbered(magic, next') && Respects(magic, preds)
      ensures nochange ==> magic == old(magic)
      ensures !nochange ==> Unnumbered(magic, preds.Keys) < Unnumbered(old(magic), preds.Keys)
      ensures nochange ==> (allassigned <==> Unnumbered(magic, preds.Keys) == {})
      ensures nochange ==>
                forall x {:trigger Waits(magic, preds, x)} ::
                  x in Unnumbered(magic, preds.Keys) ==> Waits(magic, preds, x)
      ensures forall x :: x !in preds.Keys ==> Number(magic, x) == old(Number(magic, x))
      ensures forall x :: Number(magic, x) == old(Number(magic, x)) ||
                          (old(Number(magic, x)) == 0 && Number(magic, x) >= next)
    {
      assert next > 0;
      hide Numbered, Respects;
      next', nochange, allassigned := next, true, true;
      var rest := preds.Keys;
      while rest != {}
        invariant rest <= preds.Keys && next' >= next > 0
        invariant Numbered(magic, next') && Respects(magic, preds)
        invariant nochange ==> magic == old(magic)
        invariant !nochange ==> Unnumbered(magic, preds.Keys) < Unnumbered(old(magic), preds.Keys)
        invariant nochange ==> (allassigned <==> forall x :: x in preds && x !in rest ==> Number(magic, x) > 0)
        invariant nochange ==>
                    forall x {:trigger Waits(magic, preds, x)} ::
                      x in preds && x !in rest && Number(magic, x) == 0 ==> Waits(magic, preds, x)
        invariant forall x :: x !in preds.Keys ==> Number(magic, x) == old(Number(magic, x))
        invariant forall x :: Number(magic, x) == old(Number(magic, x)) ||
                              (old(Number(magic, x)) == 0 && Number(magic, x) >= next)
        decreases |rest|
      {
        var x :| x in rest;
        rest := rest - {x};
        allassigned := allassigned && Number(magic, x) > 0;
        var before := AllAssigned(preds[x]);
        if Number(magic, x) == 0 && before {
          FewerUnnumbered(magic, preds.Keys, next', x);
          NumberGiven(magic, next', x);
          StillRespects(magic, preds, next', x);
          magic := magic[x := next'];
          next' := next' + 1;
          nochange := false;
        }
      }
    }

    /**
     * The assertion of the source, ok, holds exactly if the inequalities have no cycle;
     * then every name has its own positive number, smaller before greater.
     */
    method NumberAll() returns (ok: bool)
      requires magic == map[]
      modifies this`magic
      ensures ok <==> Acyclic(inequalities)
      ensures ok ==>
                && (forall q :: q in inequalities ==> 0 < Number(magic, q.before) < Number(magic, q.after))
                && (forall x :: x in points ==> Number(magic, x) > 0)
                && (forall x, y :: x != y && Number(magic, x) > 0 ==> Number(magic, x) != Number(magic, y))
    {
      var preds := Gather();
      var next, nochange := 1, false;
      assert Numbered(magic, next) && Respects(magic, preds);
      hide Respects, Acyclic, Gathers;
      ok := false;
      while !nochange
        invariant Numbered(magic, next) && Respects(magic, preds)
        invariant nochange ==> (ok <==> Unnumbered(magic, preds.Keys) == {})
        invariant nochange ==>
                    forall x {:trigger Waits(magic, preds, x)} ::
                      x in Unnumbered(magic, preds.Keys) ==> Waits(magic, preds, x)
        decreases !nochange, |Unnumbered(magic, preds.Keys)|
      {
        ghost var u := Unnumbered(magic, preds.Keys);
        next, nochange, ok := Pass(preds, next);
        if !nochange {
          SmallerSet(Unnumbered(magic, preds.Keys), u);
        }
      }
      if ok {
        AllRespected(magic, preds, inequalities);
        NumberedIsAcyclic(magic, inequalities);
        next := NumberPoints(next);
      } else {
        NobodyLeftIsCycle(magic, preds, inequalities);
      }
    }

    method NumberPoints(next: nat) returns (next': nat)
      requires Numbered(magic, next)
      modifies this`magic
      ensures Numbered(magic, next')
      ensures forall x :: x in points ==> Number(magic, x) > 0
      ensures forall x :: old(Number(magic, x)) > 0 ==> Number(magic, x) == old(Number(magic, x))
    {
      next' := next;
      for i := 0 to |points|
        invariant Numbered(magic, next')
        invariant forall j :: 0 <= j < i ==> Number(magic, points[j]) > 0
        invariant forall x :: old(Number(magic, x)) > 0 ==> Number(magic, x) == old(Number(magic, x))
      {
        if Number(magic, points[i]) == 0 {
          NumberGiven(magic, next', points[i]);
          magic := magic[points[i] := next'];
          next' := next' + 1;
        }
      }
    }
  }

  // From the declarations to the numbers.
  method NumberGuards(ineqs: seq<Inequality>, points: seq<Name>) returns (magic: map<Name, nat>, ok: bool)
    ensures ok <==> Acyclic(ineqs)
    ensures ok ==>
              && (forall q :: q in ineqs ==> 0 < Number(magic, q.before) < Number(magic, q.after))
              && (forall x :: x in points ==> Number(magic, x) > 0)
              && (forall x, y :: x != y && Number(magic, x) > 0 ==> Number(magic, x) != Number(magic, y))
  {
    var sorter := new MagicSorter();
    for i := 0 to |ineqs|
      invariant fresh(sorter) && sorter.inequalities == ineqs[..i] && sorter.points == [] && sorter.magic == map[]
    {
      sorter.AddInequality(ineqs[i].before, ineqs[i].after);
    }
    for i := 0 to |points|
      invariant fresh(sorter) && sorter.inequalities == ineqs && sorter.points == points[..i] && sorter.magic == map[]
    {
      sorter.AddPoint(points[i]);
    }
    ok := sorter.NumberAll();
    magic := sorter.magic;
  }

  lemma {:induction false} NamesGrow(ineqs: seq<Inequality>, q: Inequality)
    ensures Names(ineqs + [q]) == Names(ineqs) + {q.before, q.after}
    decreases |ineqs|
  {
    if ineqs != [] {
      assert (ineqs + [q])[1..] == ineqs[1..] + [q];
      NamesGrow(ineqs[1..], q);
    }
  }

  lemma GatherOne(preds: map<Name, set<Name>>, ineqs: seq<Inequality>, q: Inequality)
    requires Gathers(preds, ineqs)
    ensures var had := if q.after in preds then preds[q.after] else {};
            var preds1 := preds[q.after := had + {q.before}];
            Gathers(if q.before in preds1 then preds1 else preds1[q.before := {}], ineqs + [q])
  {
    NamesGrow(ineqs, q);
    var had := if q.after in preds then preds[q.after] else {};
    var preds1 := preds[q.after := had + {q.before}];
    var preds2 := if q.before in preds1 then preds1 else preds1[q.before := {}];
    forall x, p | x in preds2
      ensures p in preds2[x] <==> Inequality(p, x) in ineqs + [q]
    {
      assert x in preds || Inequality(p, x) !in ineqs;
    }
  }

  // One more number is given.
  lemma NumberGiven(magic: map<Name, nat>, next: nat, x: Name)
    requires Numbered(magic, next) && Number(magic, x) == 0
    ensures Numbered(magic[x := next], next + 1)
    ensures forall y :: Number(magic[x := next], y) == if y == x then next else Number(magic, y)
  {
    var magic' := magic[x := next];
    forall y
      ensures Number(magic', y) == if y == x then next else Number(magic, y)
      ensures Number(magic', y) < next + 1
    {
      assert Number(magic, y) < next;
    }
    forall y, z | y != z && Number(magic', y) > 0
      ensures Number(magic', y) != Number(magic', z)
    {
      assert Number(magic, y) < next && Number(magic, z) < next;
    }
  }

  lemma FewerUnnumbered(magic: map<Name, nat>, names: set<Name>, next: nat, x: Name)
    requires x in names && Number(magic, x) == 0 && next > 0
    ensures x in Unnumbered(magic, names)
    ensures Unnumbered(magic[x := next], names) == Unnumbered(magic, names) - {x}
  {
  }

  lemma NobodyLeftIsCycle(magic: map<Name, nat>, preds: map<Name, set<Name>>, ineqs: seq<Inequality>)
    requires Gathers(preds, ineqs) && Unnumbered(magic, preds.Keys) != {}
    requires forall x {:trigger Waits(magic, preds, x)} :: x in Unnumbered(magic, preds.Keys) ==> Waits(magic, preds, x)
    ensures !Acyclic(ineqs)
  {
    var u := Unnumbered(magic, preds.Keys);
    forall x | x in u
      ensures Cycles.HasBefore(u, Before(ineqs), x)
    {
      assert Waits(magic, preds, x);
      var p :| p in preds[x] && Number(magic, p) == 0;
      assert Before(ineqs)(p, x);
    }
    Cycles.StuckHasCycle(u, Before(ineqs));
  }

  lemma StillRespects(magic: map<Name, nat>, preds: map<Name, set<Name>>, next: nat, x: Name)
    requires Numbered(magic, next) && Respects(magic, preds) && Number(magic, x) == 0 && x in preds
    requires forall p :: p in preds[x] ==> Number(magic, p) > 0
    ensures Respects(magic[x := next], preds)
  {
    var magic' := magic[x := next];
    NumberGiven(magic, next, x);
    forall y, p | y in preds && p in preds[y] && Number(magic', y) > 0
      ensures 0 < Number(magic', p) < Number(magic', y)
    {
      assert Number(magic, p) < next;
    }
  }

  lemma SmallerSet(a: set<Name>, b: set<Name>)
    requires a < b
    ensures |a| < |b|
  {
    var x :| x in b && x !in a;
    Within(a, b - {x});
  }

  lemma {:induction false} Within(a: set<Name>, b: set<Name>)
    requires a <= b
    ensures |a| <= |b|
    decreases |a|
  {
    if a != {} {
      var x :| x in a;
      Within(a - {x}, b - {x});
    }
  }

  lemma AllRespected(magic: map<Name, nat>, preds: map<Name, set<Name>>, ineqs: seq<Inequality>)
    requires Respects(magic, preds) && Gathers(preds, ineqs) && Unnumbered(magic, preds.Keys) == {}
    ensures forall q :: q in ineqs ==> 0 < Number(magic, q.before) < Number(magic, q.after)
  {
    forall q | q in ineqs
      ensures 0 < Number(magic, q.before) < Number(magic, q.after)
    {
      assert q == Inequality(q.before, q.after);
      assert q.after !in Unnumbered(magic, preds.Keys);
      assert q.before in preds[q.after];
    }
  }
}
