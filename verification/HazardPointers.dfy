/**
 * Hazard-pointer reclamation (src/runtime/lockfree/allocator/OFluxSMR.h and .cpp)
 * as a state machine.  A thread publishes a pointer, checks that the shared location
 * still holds it, and then relies on it; nodes are retired only by the thread that
 * unlinked them (or that never linked them) and are not relinked; a scan reads the
 * hazard slots one by one while everything else goes on.  Freed nodes may be
 * allocated again.
 *
 * A scan reads the slots of the threads with an index below num_threads.  Thread 0 is
 * counted first, by the runtime's constructor; the others are given their index before
 * they count themselves in, so the model lets them register in any order.  Whether a
 * hazard slot protects what it publishes is decided when its owner loads the pointer:
 * it does exactly if the owner's index is below num_threads at that time.
 */
module HazardPointers {
  import opened Basics

  type Ptr = nat
  type Loc = nat
  type ThreadId = nat

  const SMR_P: nat := 32             // upper bound on threads
  const SMR_K: nat := 2              // hazard pointers per thread
  const SMR_N: nat := SMR_P * SMR_K  // hazard pointers in all
  const SMR_R: nat := 2 * SMR_N      // batch size

  // The life of a node.
  datatype Status =
    | Free                       // with its allocator
    | Private(t: ThreadId)       // allocated by t, never linked since
    | Linked                     // some shared location holds it
    | Unlinked(t: ThreadId)      // t removed the last link
    | Retired(t: ThreadId)       // in t's deferred list

  // What the owner of a hazard slot is doing with it.
  datatype Use =
    | Unused
    | Loaded(loc: Loc, h: Option<Ptr>)     // about to publish
    | Published(loc: Loc, h: Option<Ptr>)  // about to check the location again
    | Protected(p: Ptr)                    // checked: the owner may use p

  datatype ScanPc =
    | NotScanning
    | Reading(next: nat, plist: seq<Ptr>)       // next slot to read, pointers seen
    | Sweeping(plist: seq<Ptr>, kept: nat)      // entries before kept stay

  datatype State = State(
    registered: set<ThreadId>,
    numThreads: nat,
    hazard: seq<Option<Ptr>>,       // slot t * SMR_K + n is thread t's n-th
    uses: seq<Use>,
    links: map<Loc, Ptr>,
    status: map<Ptr, Status>,
    dlists: seq<seq<Ptr>>,
    scans: seq<ScanPc>)

  ghost predicate Init(s: State) {
    && s.registered == {} && s.numThreads == 0
    && |s.hazard| == |s.uses| == SMR_N && |s.dlists| == |s.scans| == SMR_P
    && (forall i :: 0 <= i < SMR_N ==> s.hazard[i] == None && s.uses[i] == Unused)
    && (forall t :: 0 <= t < SMR_P ==> s.dlists[t] == [] && s.scans[t] == NotScanning)
    && s.links == map[] && s.status == map[]
  }

  function StatusOf(s: State, p: Ptr): Status {
    if p in s.status then s.status[p] else Free
  }

  function Held(s: State, loc: Loc): Option<Ptr> {
    if loc in s.links then Some(s.links[loc]) else None
  }

  datatype Step =
    | Register(t: ThreadId)
    | Load(slot: nat, loc: Loc)
    | Publish(slot: nat)
    | Validate(slot: nat)
    | Release(slot: nat)
    | Alloc(t: ThreadId, p: Ptr)
    | Write(t: ThreadId, loc: Loc, to: Option<Ptr>)
    | DeferPut(t: ThreadId, p: Ptr)
    | ScanStep(t: ThreadId)

  predicate Shaped(s: State) {
    |s.hazard| == |s.uses| == SMR_N && |s.dlists| == |s.scans| == SMR_P
  }

  predicate OwnSlot(s: State, slot: nat) {
    slot < SMR_N && slot / SMR_K in s.registered
  }

  predicate Enabled(s: State, step: Step) {
    && Shaped(s)
    && match step
       case Register(t) =>
         && t < SMR_P && t !in s.registered && s.numThreads + 1 < SMR_P
         && (s.registered == {} ==> t == 0)
       case Load(slot, _) => OwnSlot(s, slot)
       case Publish(slot) => OwnSlot(s, slot) && s.uses[slot].Loaded?
       case Validate(slot) => OwnSlot(s, slot) && s.uses[slot].Published?
       case Release(slot) => OwnSlot(s, slot)
       case Alloc(t, p) => t in s.registered && StatusOf(s, p) == Free
       case Write(t, _, to) =>
         // a node that has been unlinked or retired is not linked again
         t in s.registered && (to.Some? ==> StatusOf(s, to.value) == Private(t) || StatusOf(s, to.value) == Linked)
       case DeferPut(t, p) =>
         && t in s.registered && t < SMR_P && s.scans[t] == NotScanning
         && (StatusOf(s, p) == Unlinked(t) || StatusOf(s, p) == Private(t))
       case ScanStep(t) =>
         && t in s.registered && t < SMR_P && !s.scans[t].NotScanning?
         && (s.scans[t].Reading? && s.scans[t].next < s.numThreads * SMR_K ==> s.scans[t].next < SMR_N)
  }

  function Written(s: State, t: ThreadId, loc: Loc, to: Option<Ptr>): State {
    var links := if to.Some? then s.links[loc := to.value] else s.links - {loc};
    var status := if to.Some? then s.status[to.value := Linked] else s.status;
    var was := Held(s, loc);
    s.(links := links,
       status := if was.Some? && was.value !in links.Values then status[was.value := Unlinked(t)] else status)
  }

  // One iteration of PerThread::scan.
  function Scanned(s: State, t: ThreadId): State
    requires Enabled(s, ScanStep(t))
  {
    match s.scans[t]
    case Reading(next, plist) =>
      if next < s.numThreads * SMR_K then
        var seen := if s.hazard[next].Some? then plist + [s.hazard[next].value] else plist;
        s.(scans := s.scans[t := Reading(next + 1, seen)])
      else
        s.(scans := s.scans[t := Sweeping(plist, 0)])
    case Sweeping(plist, kept) =>
      var d := s.dlists[t];
      if kept >= |d| then
        s.(scans := s.scans[t := NotScanning])
      else if d[kept] in plist then
        s.(scans := s.scans[t := Sweeping(plist, kept + 1)])
      else
        s.(dlists := s.dlists[t := d[..kept] + d[kept + 1..]], status := s.status[d[kept] := Free])
  }

  function Do(s: State, step: Step): State
    requires Enabled(s, step)
  {
    match step
    case Register(t) => s.(registered := s.registered + {t}, numThreads := s.numThreads + 1)
    case Load(slot, loc) => s.(uses := s.uses[slot := Loaded(loc, Held(s, loc))])
    case Publish(slot) =>
      var Loaded(loc, h) := s.uses[slot];
      s.(hazard := s.hazard[slot := h], uses := s.uses[slot := Published(loc, h)])
    case Validate(slot) =>
      var Published(loc, h) := s.uses[slot];
      s.(uses := s.uses[slot := if h.Some? && Held(s, loc) == h then Protected(h.value) else Unused])
    case Release(slot) => s.(hazard := s.hazard[slot := None], uses := s.uses[slot := Unused])
    case Alloc(t, p) => s.(status := s.status[p := Private(t)])
    case Write(t, loc, to) => Written(s, t, loc, to)
    case DeferPut(t, p) =>
      var d := s.dlists[t] + [p];
      s.(dlists := s.dlists[t := d], status := s.status[p := Retired(t)],
         scans := if |d| >= SMR_R then s.scans[t := Reading(0, [])] else s.scans)
    case ScanStep(t) => Scanned(s, t)
  }

  function Exec(s: State, schedule: seq<Step>): Option<State>
    decreases |schedule|
  {
    if schedule == [] then Some(s)
    else if Enabled(s, schedule[0]) then Exec(Do(s, schedule[0]), schedule[1..])
    else None
  }

  // ---------------------------------------------------------------------------
  // What every step keeps
  // ---------------------------------------------------------------------------

  ghost predicate LinksInv(links: map<Loc, Ptr>, status: map<Ptr, Status>) {
    forall loc :: loc in links ==> links[loc] in status && status[links[loc]] == Linked
  }

  ghost predicate Distinct(d: seq<Ptr>) {
    forall i, j :: 0 <= i < j < |d| ==> d[i] != d[j]
  }

  ghost predicate ListInv(d: seq<Ptr>, t: ThreadId, status: map<Ptr, Status>) {
    && Distinct(d)
    && (forall p :: p in d <==> p in status && status[p] == Retired(t))
  }

  ghost predicate ScanInv(pc: ScanPc, d: seq<Ptr>, numThreads: nat) {
    match pc
    case NotScanning => |d| < SMR_R
    case Reading(next, plist) => |d| == SMR_R && next <= numThreads * SMR_K && |plist| <= next
    case Sweeping(plist, kept) =>
      && |d| <= SMR_R && kept <= |d| && |plist| <= SMR_N
      && (forall i :: 0 <= i < kept ==> d[i] in plist)
  }

  // Thread 0 is the first to be counted, and only threads that are publish.
  ghost predicate RegisteredInv(s: State) {
    && s.numThreads < SMR_P
    && (s.registered != {} ==> 0 in s.registered && s.numThreads > 0)
    && (forall i :: 0 <= i < |s.hazard| && s.hazard[i].Some? ==> i / SMR_K in s.registered)
  }

  ghost predicate Inv(s: State) {
    && Shaped(s)
    && RegisteredInv(s)
    && LinksInv(s.links, s.status)
    && (forall t :: 0 <= t < SMR_P ==> ListInv(s.dlists[t], t, s.status))
    && (forall t :: 0 <= t < SMR_P ==> ScanInv(s.scans[t], s.dlists[t], s.numThreads))
  }

  // Changing the links and the status of nodes that are not retired.
  lemma StatusStep(s: State, links: map<Loc, Ptr>, status: map<Ptr, Status>)
    requires Inv(s) && LinksInv(links, status)
    requires forall t, p :: p in s.status && s.status[p] == Retired(t) ==> p in status && status[p] == Retired(t)
    requires forall t, p :: p in status && status[p] == Retired(t) ==> p in s.status && s.status[p] == Retired(t)
    ensures Inv(s.(links := links, status := status))
  {
    forall t | 0 <= t < SMR_P
      ensures ListInv(s.dlists[t], t, status)
    {
      assert ListInv(s.dlists[t], t, s.status);
    }
  }

  lemma WriteStep(s: State, t: ThreadId, loc: Loc, to: Option<Ptr>)
    requires Inv(s) && Enabled(s, Write(t, loc, to))
    ensures Inv(Do(s, Write(t, loc, to)))
  {
    var s' := Written(s, t, loc, to);
    forall l | l in s'.links
      ensures s'.links[l] in s'.status && s'.status[s'.links[l]] == Linked
    {
      assert s'.links[l] in s'.links.Values;
    }
    StatusStep(s, s'.links, s'.status);
  }

  lemma DeferStep(s: State, t: ThreadId, p: Ptr)
    requires Inv(s) && Enabled(s, DeferPut(t, p))
    ensures Inv(Do(s, DeferPut(t, p)))
  {
    var s' := Do(s, DeferPut(t, p));
    assert ListInv(s.dlists[t], t, s.status) && ScanInv(s.scans[t], s.dlists[t], s.numThreads);
    forall u | 0 <= u < SMR_P
      ensures ListInv(s'.dlists[u], u, s'.status)
    {
      assert ListInv(s.dlists[u], u, s.status);
    }
    assert |s'.dlists[t]| == |s.dlists[t]| + 1;
    forall u | 0 <= u < SMR_P
      ensures ScanInv(s'.scans[u], s'.dlists[u], s'.numThreads)
    {
      assert ScanInv(s.scans[u], s.dlists[u], s.numThreads);
    }
  }

  lemma ScanMoves(s: State, t: ThreadId)
    requires Inv(s) && Enabled(s, ScanStep(t)) && Scanned(s, t).dlists == s.dlists
    requires ScanInv(Scanned(s, t).scans[t], s.dlists[t], s.numThreads)
    ensures Inv(Scanned(s, t))
  {
    var s' := Scanned(s, t);
    forall u | 0 <= u < SMR_P
      ensures ScanInv(s'.scans[u], s'.dlists[u], s'.numThreads)
    {
      assert u != t ==> s'.scans[u] == s.scans[u];
    }
  }

  lemma ReadStep(s: State, t: ThreadId)
    requires Inv(s) && Enabled(s, ScanStep(t)) && s.scans[t].Reading?
    ensures Inv(Scanned(s, t))
  {
    assert ScanInv(s.scans[t], s.dlists[t], s.numThreads);
    ScanMoves(s, t);
  }

  // Distinct entries that all occur in another list are no more than that list.
  lemma {:induction false} DistinctFit(d: seq<Ptr>, plist: seq<Ptr>)
    requires Distinct(d) && forall i :: 0 <= i < |d| ==> d[i] in plist
    ensures |d| <= |plist|
  {
    if d != [] {
      var k :| 0 <= k < |plist| && plist[k] == d[0];
      var fewer := plist[..k] + plist[k + 1..];
      forall i | 0 <= i < |d[1..]|
        ensures d[1..][i] in fewer
      {
        assert d[i + 1] in plist && d[i + 1] != d[0];
      }
      DistinctFit(d[1..], fewer);
    }
  }

  // The end of a sweep: what is left fits well below the batch size.
  lemma SweepEnds(s: State, t: ThreadId)
    requires Inv(s) && Enabled(s, ScanStep(t)) && s.scans[t].Sweeping? && s.scans[t].kept >= |s.dlists[t]|
    ensures Inv(Scanned(s, t)) && |s.dlists[t]| <= SMR_N < SMR_R
  {
    var d := s.dlists[t];
    assert ScanInv(s.scans[t], d, s.numThreads) && ListInv(d, t, s.status);
    DistinctFit(d, s.scans[t].plist);
    ScanMoves(s, t);
  }

  lemma SweepKeeps(s: State, t: ThreadId)
    requires Inv(s) && Enabled(s, ScanStep(t)) && s.scans[t].Sweeping? && s.scans[t].kept < |s.dlists[t]|
    requires s.dlists[t][s.scans[t].kept] in s.scans[t].plist
    ensures Inv(Scanned(s, t))
  {
    assert ScanInv(s.scans[t], s.dlists[t], s.numThreads);
    ScanMoves(s, t);
  }

  lemma WithoutEntry(d: seq<Ptr>, k: nat, t: ThreadId, status: map<Ptr, Status>)
    requires k < |d| && ListInv(d, t, status)
    ensures ListInv(d[..k] + d[k + 1..], t, status[d[k] := Free])
    ensures forall p :: p in d[..k] + d[k + 1..] <==> p in d && p != d[k]
  {
    var d' := d[..k] + d[k + 1..];
    forall p
      ensures p in d' <==> p in d && p != d[k]
    {
      if p in d && p != d[k] {
        var i :| 0 <= i < |d| && d[i] == p;
        assert d'[if i < k then i else i - 1] == p;
      }
    }
  }

  // Handing a node back to its allocator takes it out of the list, and only it.
  lemma SweepReclaims(s: State, t: ThreadId)
    requires Inv(s) && Enabled(s, ScanStep(t)) && s.scans[t].Sweeping? && s.scans[t].kept < |s.dlists[t]|
    requires s.dlists[t][s.scans[t].kept] !in s.scans[t].plist
    ensures var p, s' := s.dlists[t][s.scans[t].kept], Scanned(s, t);
            && Inv(s') && s' == s.(dlists := s.dlists[t := s'.dlists[t]], status := s.status[p := Free])
            && |s'.dlists[t]| == |s.dlists[t]| - 1
            && forall q :: q in s'.dlists[t] <==> q in s.dlists[t] && q != p
  {
    var s' := Scanned(s, t);
    var kept, d, d' := s.scans[t].kept, s.dlists[t], s'.dlists[t];
    assert ScanInv(s.scans[t], d, s.numThreads) && ListInv(d, t, s.status);
    WithoutEntry(d, kept, t, s.status);
    forall u | 0 <= u < SMR_P
      ensures ListInv(s'.dlists[u], u, s'.status)
    {
      assert ListInv(s.dlists[u], u, s.status);
    }
    assert ScanInv(s'.scans[t], d', s.numThreads) by {
      assert forall i :: 0 <= i < kept ==> d'[i] == d[i];
    }
    forall u | 0 <= u < SMR_P
      ensures ScanInv(s'.scans[u], s'.dlists[u], s'.numThreads)
    {
      assert ScanInv(s.scans[u], s.dlists[u], s.numThreads);
    }
  }

  lemma StepKeepsInv(s: State, step: Step)
    requires Inv(s) && Enabled(s, step)
    ensures Inv(Do(s, step))
  {
    match step
    case Alloc(t, p) => StatusStep(s, s.links, s.status[p := Private(t)]);
    case Write(t, loc, to) => WriteStep(s, t, loc, to);
    case DeferPut(t, p) => DeferStep(s, t, p);
    case ScanStep(t) =>
      if s.scans[t].Reading? {
        ReadStep(s, t);
      } else if s.scans[t].kept >= |s.dlists[t]| {
        SweepEnds(s, t);
      } else if s.dlists[t][s.scans[t].kept] in s.scans[t].plist {
        SweepKeeps(s, t);
      } else {
        SweepReclaims(s, t);
      }
    case Register(_) =>
      forall u | 0 <= u < SMR_P
        ensures ScanInv(s.scans[u], s.dlists[u], s.numThreads + 1)
      {
        assert ScanInv(s.scans[u], s.dlists[u], s.numThreads);
      }
    case _ =>
  }

  lemma {:induction false} ScheduleKeepsInv(s: State, schedule: seq<Step>)
    requires Inv(s) && Exec(s, schedule).Some?
    ensures Inv(Exec(s, schedule).value)
    decreases |schedule|
  {
    if schedule != [] {
      StepKeepsInv(s, schedule[0]);
      ScheduleKeepsInv(Do(s, schedule[0]), schedule[1..]);
    }
  }

  lemma Reachable(s0: State, schedule: seq<Step>, s: State)
    requires Init(s0) && Exec(s0, schedule) == Some(s)
    ensures Inv(s)
  {
    ScheduleKeepsInv(s0, schedule);
  }

  // In every run retired nodes are in their retirer's list, once, and nowhere else; and
  // outside a scan every list has room for the next one.
  lemma RetiredExactlyOnce(s0: State, schedule: seq<Step>, s: State, t: ThreadId)
    requires Init(s0) && Exec(s0, schedule) == Some(s) && t < SMR_P
    ensures Shaped(s)
    ensures forall p :: StatusOf(s, p) == Retired(t) <==> p in s.dlists[t]
    ensures forall p :: p in s.dlists[t] ==> multiset(s.dlists[t])[p] == 1
    ensures s.scans[t].NotScanning? ==> |s.dlists[t]| < SMR_R
  {
    Reachable(s0, schedule, s);
    assert ListInv(s.dlists[t], t, s.status) && ScanInv(s.scans[t], s.dlists[t], s.numThreads);
    forall p | p in s.dlists[t]
      ensures multiset(s.dlists[t])[p] == 1
    {
      DistinctCount(s.dlists[t], p);
    }
  }

  lemma {:induction false} DistinctCount(d: seq<Ptr>, p: Ptr)
    requires Distinct(d)
    ensures multiset(d)[p] == if p in d then 1 else 0
  {
    if d != [] {
      DistinctCount(d[1..], p);
      assert d == [d[0]] + d[1..];
      assert multiset(d) == multiset{d[0]} + multiset(d[1..]);
    }
  }

  // ---------------------------------------------------------------------------
  // What one hazard slot is worth
  // ---------------------------------------------------------------------------

  // A slot's content follows its use; a protected node is not with its allocator and
  // not newly allocated.
  ghost predicate UseInv(use: Use, h: Option<Ptr>, status: map<Ptr, Status>) {
    match use
    case Published(_, p) => h == p
    case Protected(p) => h == Some(p) && p in status && !status[p].Free? && !status[p].Private?
    case _ => true
  }

  // A scan that is past the slot, of a list that has the protected node, has seen it.
  ghost predicate Seen(pc: ScanPc, d: seq<Ptr>, use: Use, slot: nat) {
    use.Protected? && use.p in d ==>
      match pc
      case NotScanning => true
      case Reading(next, plist) => slot < next ==> use.p in plist
      case Sweeping(plist, _) => use.p in plist
  }

  ghost predicate SlotInv(s: State, slot: nat)
    requires Shaped(s)
  {
    && slot < SMR_N
    && (s.uses[slot] != Unused ==> slot / SMR_K < s.numThreads)
    && UseInv(s.uses[slot], s.hazard[slot], s.status)
    && (forall t :: 0 <= t < SMR_P ==> Seen(s.scans[t], s.dlists[t], s.uses[slot], slot))
  }

  // If this step loads a pointer for that slot, scans read the slot.
  predicate CoveredLoad(s: State, step: Step, slot: nat) {
    step.Load? && step.slot == slot ==> slot / SMR_K < s.numThreads
  }

  lemma UseMoves(s: State, slot: nat, use: Use, h: Option<Ptr>)
    requires Inv(s) && slot < SMR_N && UseInv(use, h, s.status)
    requires use != Unused ==> slot / SMR_K < s.numThreads
    requires use.Protected? ==> s.status[use.p] == Linked
    ensures SlotInv(s.(uses := s.uses[slot := use], hazard := s.hazard[slot := h]), slot)
  {
    forall t | 0 <= t < SMR_P
      ensures Seen(s.scans[t], s.dlists[t], use, slot)
    {
      assert ListInv(s.dlists[t], t, s.status);
    }
  }

  lemma OwnStepKeepsSlot(s: State, step: Step, slot: nat)
    requires Inv(s) && SlotInv(s, slot) && Enabled(s, step) && CoveredLoad(s, step, slot)
    requires (step.Load? || step.Publish? || step.Validate? || step.Release?) && step.slot == slot
    ensures SlotInv(Do(s, step), slot)
  {
    var s' := Do(s, step);
    UseMoves(s, slot, s'.uses[slot], s'.hazard[slot]);
    assert s' == s.(uses := s.uses[slot := s'.uses[slot]], hazard := s.hazard[slot := s'.hazard[slot]]);
  }

  lemma DeferKeepsSlot(s: State, t: ThreadId, p: Ptr, slot: nat)
    requires Inv(s) && SlotInv(s, slot) && Enabled(s, DeferPut(t, p))
    ensures SlotInv(Do(s, DeferPut(t, p)), slot)
  {
    var s' := Do(s, DeferPut(t, p));
    forall u | 0 <= u < SMR_P
      ensures Seen(s'.scans[u], s'.dlists[u], s.uses[slot], slot)
    {
      assert u != t ==> s'.scans[u] == s.scans[u] && s'.dlists[u] == s.dlists[u];
      assert Seen(s.scans[u], s.dlists[u], s.uses[slot], slot);
    }
  }

  // A scan reads the slot before it ends its reading, and hands back nothing it has seen.
  lemma ScanKeepsSlot(s: State, t: ThreadId, slot: nat)
    requires Inv(s) && SlotInv(s, slot) && Enabled(s, ScanStep(t))
    ensures SlotInv(Scanned(s, t), slot)
  {
    var s' := Scanned(s, t);
    var use := s.uses[slot];
    assert ScanInv(s.scans[t], s.dlists[t], s.numThreads) && ListInv(s.dlists[t], t, s.status);
    assert Seen(s.scans[t], s.dlists[t], use, slot);
    if s.scans[t].Sweeping? && s.scans[t].kept < |s.dlists[t]| {
      var p := s.dlists[t][s.scans[t].kept];
      if p !in s.scans[t].plist {
        SweepReclaims(s, t);
        assert use.Protected? ==> use.p != p;
      }
    }
    assert slot / SMR_K < s.numThreads ==> slot < s.numThreads * SMR_K;
    forall u | 0 <= u < SMR_P
      ensures Seen(s'.scans[u], s'.dlists[u], use, slot)
    {
      assert Seen(s.scans[u], s.dlists[u], use, slot);
      assert u != t ==> s'.scans[u] == s.scans[u] && s'.dlists[u] == s.dlists[u];
    }
  }

  lemma StepKeepsSlot(s: State, step: Step, slot: nat)
    requires Inv(s) && SlotInv(s, slot) && Enabled(s, step) && CoveredLoad(s, step, slot)
    ensures Inv(Do(s, step)) && SlotInv(Do(s, step), slot)
  {
    StepKeepsInv(s, step);
    match step
    case DeferPut(t, p) => DeferKeepsSlot(s, t, p, slot);
    case ScanStep(t) => ScanKeepsSlot(s, t, slot);
    case Register(_) =>
    case Alloc(_, _) =>
    case Write(_, _, _) =>
    case _ =>
      if step.slot == slot {
        OwnStepKeepsSlot(s, step, slot);
      }
  }

  predicate LoadsCovered(s: State, schedule: seq<Step>, slot: nat)
    decreases |schedule|
  {
    schedule == []
    || (&& Enabled(s, schedule[0]) && CoveredLoad(s, schedule[0], slot)
        && LoadsCovered(Do(s, schedule[0]), schedule[1..], slot))
  }

  lemma {:induction false} ScheduleKeepsSlot(s: State, schedule: seq<Step>, slot: nat)
    requires Inv(s) && SlotInv(s, slot) && Exec(s, schedule).Some? && LoadsCovered(s, schedule, slot)
    ensures Inv(Exec(s, schedule).value) && SlotInv(Exec(s, schedule).value, slot)
    decreases |schedule|
  {
    if schedule != [] {
      StepKeepsSlot(s, schedule[0], slot);
      ScheduleKeepsSlot(Do(s, schedule[0]), schedule[1..], slot);
    }
  }

  // What the slot protects is neither with its allocator nor handed out again.
  predicate SlotSafe(s: State, slot: nat) {
    slot < |s.uses| && s.uses[slot].Protected? ==>
      !StatusOf(s, s.uses[slot].p).Free? && !StatusOf(s, s.uses[slot].p).Private?
  }

  // Hazard safety, slot by slot: in every run a slot whose loads were covered protects
  // its node, whatever threads that are not covered do with theirs.
  lemma HazardSafety(s0: State, schedule: seq<Step>, s: State, slot: nat)
    requires Init(s0) && Exec(s0, schedule) == Some(s) && LoadsCovered(s0, schedule, slot)
    ensures SlotSafe(s, slot)
  {
    if slot < SMR_N {
      ScheduleKeepsSlot(s0, schedule, slot);
    } else {
      Reachable(s0, schedule, s);
    }
  }

  predicate RegistersInOrder(s: State, schedule: seq<Step>)
    decreases |schedule|
  {
    schedule == []
    || (&& Enabled(s, schedule[0])
        && (schedule[0].Register? ==> schedule[0].t == s.numThreads)
        && RegistersInOrder(Do(s, schedule[0]), schedule[1..]))
  }

  // If the threads start one after the other, in index order, every load is covered.
  lemma {:induction false} IndexOrderCovers(s: State, schedule: seq<Step>, slot: nat)
    requires RegistersInOrder(s, schedule)
    requires forall t: ThreadId :: t in s.registered ==> t < s.numThreads
    ensures LoadsCovered(s, schedule, slot)
    decreases |schedule|
  {
    if schedule != [] {
      IndexOrderCovers(Do(s, schedule[0]), schedule[1..], slot);
    }
  }

  // ---------------------------------------------------------------------------
  // A load is worth something exactly if the owner's index is below num_threads
  // ---------------------------------------------------------------------------

  predicate NoLoad(schedule: seq<Step>, slot: nat) {
    forall i :: 0 <= i < |schedule| ==> !(schedule[i].Load? && schedule[i].slot == slot)
  }

  // Whatever happens from here on, the slot protects its node until it is loaded again.
  ghost predicate SafeFrom(s: State, slot: nat) {
    forall schedule :: Exec(s, schedule).Some? && NoLoad(schedule, slot) ==> SlotSafe(Exec(s, schedule).value, slot)
  }

  lemma {:induction false} NoLoadIsCovered(s: State, schedule: seq<Step>, slot: nat)
    requires NoLoad(schedule, slot) && Exec(s, schedule).Some?
    ensures LoadsCovered(s, schedule, slot)
    decreases |schedule|
  {
    if schedule != [] {
      assert NoLoad(schedule[1..], slot);
      NoLoadIsCovered(Do(s, schedule[0]), schedule[1..], slot);
    }
  }

  lemma CoveredIsSafe(s: State, slot: nat, loc: Loc)
    requires Inv(s) && Enabled(s, Load(slot, loc)) && slot / SMR_K < s.numThreads
    ensures SafeFrom(Do(s, Load(slot, loc)), slot)
  {
    var s1 := Do(s, Load(slot, loc));
    StepKeepsInv(s, Load(slot, loc));
    assert SlotInv(s1, slot);
    forall schedule | Exec(s1, schedule).Some? && NoLoad(schedule, slot)
      ensures SlotSafe(Exec(s1, schedule).value, slot)
    {
      NoLoadIsCovered(s1, schedule, slot);
      ScheduleKeepsSlot(s1, schedule, slot);
    }
  }

  lemma {:induction false} ExecConcat(s: State, a: seq<Step>, b: seq<Step>)
    requires Exec(s, a).Some?
    ensures Exec(s, a + b) == Exec(Exec(s, a).value, b)
    decreases |a|
  {
    if a == [] {
      assert a + b == b;
    } else {
      assert (a + b)[1..] == a[1..] + b;
      ExecConcat(Do(s, a[0]), a[1..], b);
    }
  }

  // From s to s' by a schedule that loads nothing.
  ghost predicate Leads(s: State, schedule: seq<Step>, s': State) {
    Exec(s, schedule) == Some(s') && forall i :: 0 <= i < |schedule| ==> !schedule[i].Load?
  }

  lemma OneStep(s: State, step: Step)
    requires Inv(s) && Enabled(s, step) && !step.Load?
    ensures Leads(s, [step], Do(s, step)) && Inv(Do(s, step))
  {
    StepKeepsInv(s, step);
    assert Exec(Do(s, step), []) == Some(Do(s, step));
  }

  lemma Then(s: State, a: seq<Step>, s1: State, b: seq<Step>, s2: State)
    requires Leads(s, a, s1) && Leads(s1, b, s2)
    ensures Leads(s, a + b, s2)
  {
    ExecConcat(s, a, b);
  }

  // The slot protects p, and no scan will read it.
  ghost predicate Exposed(s: State, slot: nat, p: Ptr) {
    && Inv(s) && slot < SMR_N && slot / SMR_K >= s.numThreads && 0 in s.registered
    && s.uses[slot] == Protected(p)
  }

  // No slot that a scan reads has p.
  ghost predicate Unread(s: State, p: Ptr)
    requires Shaped(s) && s.numThreads <= SMR_P
  {
    forall i :: 0 <= i < s.numThreads * SMR_K ==> s.hazard[i] != Some(p)
  }

  // 1. The load succeeds.
  lemma Protect(s: State, slot: nat, loc: Loc, p: Ptr) returns (schedule: seq<Step>, s': State)
    requires Inv(s) && Enabled(s, Load(slot, loc)) && slot / SMR_K >= s.numThreads && Held(s, loc) == Some(p)
    ensures Leads(Do(s, Load(slot, loc)), schedule, s')
    ensures Exposed(s', slot, p) && s'.links == s.links
  {
    StepKeepsInv(s, Load(slot, loc));
    var s1 := Do(s, Load(slot, loc));
    OneStep(s1, Publish(slot));
    var s2 := Do(s1, Publish(slot));
    OneStep(s2, Validate(slot));
    s' := Do(s2, Validate(slot));
    Then(s1, [Publish(slot)], s2, [Validate(slot)], s');
    schedule := [Publish(slot)] + [Validate(slot)];
  }

  // 2. The others that publish p, and are read by scans, let go of it.
  lemma {:induction false} OthersRelease(s: State, slot: nat, p: Ptr, i: nat) returns (schedule: seq<Step>, s': State)
    requires Exposed(s, slot, p) && i <= s.numThreads * SMR_K
    requires forall j :: 0 <= j < i ==> s.hazard[j] != Some(p)
    ensures Leads(s, schedule, s') && Exposed(s', slot, p) && Unread(s', p) && s'.links == s.links
    decreases s.numThreads * SMR_K - i
  {
    if i == s.numThreads * SMR_K {
      schedule, s' := [], s;
    } else {
      var s1, first := s, [];
      if s.hazard[i] == Some(p) {
        OneStep(s, Release(i));
        s1, first := Do(s, Release(i)), [Release(i)];
      }
      var rest, last := OthersRelease(s1, slot, p, i + 1);
      Then(s, first, s1, rest, last);
      schedule, s' := first + rest, last;
    }
  }

  // 3. Thread 0 finishes the scan it may be in.
  lemma {:induction false} FinishScan(s: State, slot: nat, p: Ptr) returns (schedule: seq<Step>, s': State)
    requires Exposed(s, slot, p) && Unread(s, p)
    ensures Leads(s, schedule, s') && Exposed(s', slot, p) && Unread(s', p)
    ensures s'.links == s.links && s'.scans[0].NotScanning?
    decreases s.scans[0].Reading?, s.scans[0].Sweeping?,
      if s.scans[0].Reading? then s.numThreads * SMR_K - s.scans[0].next
      else if s.scans[0].Sweeping? then |s.dlists[0]| - s.scans[0].kept else 0
  {
    if s.scans[0].NotScanning? {
      schedule, s' := [], s;
    } else {
      assert ScanInv(s.scans[0], s.dlists[0], s.numThreads);
      OneStep(s, ScanStep(0));
      var s1 := Do(s, ScanStep(0));
      var rest, last := FinishScan(s1, slot, p);
      Then(s, [ScanStep(0)], s1, rest, last);
      schedule, s' := [ScanStep(0)] + rest, last;
    }
  }

  // 4. Thread 0 takes p out of every location.
  lemma {:induction false} Unlink(s: State, slot: nat, p: Ptr) returns (schedule: seq<Step>, s': State)
    requires Exposed(s, slot, p) && Unread(s, p) && s.scans[0].NotScanning? && p in s.links.Values
    ensures Leads(s, schedule, s') && Exposed(s', slot, p) && Unread(s', p)
    ensures s'.scans[0].NotScanning? && StatusOf(s', p) == Unlinked(0)
    decreases |s.links|
  {
    var loc :| loc in s.links && s.links[loc] == p;
    var write := Write(0, loc, None);
    OneStep(s, write);
    var s1 := Do(s, write);
    assert s1.links == s.links - {loc};
    schedule, s' := [write], s1;
    if p in s1.links.Values {
      var rest, last := Unlink(s1, slot, p);
      Then(s, [write], s1, rest, last);
      schedule, s' := [write] + rest, last;
    }
  }

  lemma {:induction false} Fresh(used: set<Ptr>) returns (q: Ptr)
    ensures forall p :: p in used ==> p < q
  {
    q := 0;
    if used != {} {
      var p :| p in used;
      var rest := Fresh(used - {p});
      q := if p < rest then rest else p + 1;
      assert forall x :: x in used && x != p ==> x in used - {p};
    }
  }

  // 5. It retires p, and then nodes of its own until the batch is full.
  lemma {:induction false} Fill(s: State, slot: nat, p: Ptr) returns (schedule: seq<Step>, s': State)
    requires Exposed(s, slot, p) && Unread(s, p) && p in s.dlists[0]
    requires s.scans[0] == NotScanning || s.scans[0] == Reading(0, [])
    ensures Leads(s, schedule, s') && Exposed(s', slot, p) && Unread(s', p)
    ensures p in s'.dlists[0] && s'.scans[0] == Reading(0, [])
    decreases SMR_R - |s.dlists[0]|
  {
    if s.scans[0] != NotScanning {
      schedule, s' := [], s;
    } else {
      assert ScanInv(s.scans[0], s.dlists[0], s.numThreads);
      var q := Fresh(s.status.Keys);
      OneStep(s, Alloc(0, q));
      var s1 := Do(s, Alloc(0, q));
      OneStep(s1, DeferPut(0, q));
      var s2 := Do(s1, DeferPut(0, q));
      Then(s, [Alloc(0, q)], s1, [DeferPut(0, q)], s2);
      var two := [Alloc(0, q)] + [DeferPut(0, q)];
      var rest, last := Fill(s2, slot, p);
      Then(s, two, s2, rest, last);
      schedule, s' := two + rest, last;
    }
  }

  lemma Retire(s: State, slot: nat, p: Ptr) returns (schedule: seq<Step>, s': State)
    requires Exposed(s, slot, p) && Unread(s, p) && s.scans[0].NotScanning? && StatusOf(s, p) == Unlinked(0)
    ensures Leads(s, schedule, s') && Exposed(s', slot, p) && Unread(s', p)
    ensures p in s'.dlists[0] && s'.scans[0] == Reading(0, [])
  {
    OneStep(s, DeferPut(0, p));
    var s1 := Do(s, DeferPut(0, p));
    var rest, last := Fill(s1, slot, p);
    Then(s, [DeferPut(0, p)], s1, rest, last);
    schedule, s' := [DeferPut(0, p)] + rest, last;
  }

  // 6. The scan hands p back: wherever p is in the list, none of the slots read has it.
  lemma {:induction false} UncoveredIsReclaimed(s: State, slot: nat, p: Ptr) returns (schedule: seq<Step>, s': State)
    requires Exposed(s, slot, p) && Unread(s, p) && p in s.dlists[0]
    requires match s.scans[0]
             case NotScanning => false
             case Reading(_, plist) => p !in plist
             case Sweeping(plist, _) => p !in plist
    ensures Leads(s, schedule, s') && Exposed(s', slot, p) && StatusOf(s', p) == Free
    decreases s.scans[0].Reading?,
      if s.scans[0].Reading? then s.numThreads * SMR_K - s.scans[0].next
      else if s.scans[0].Sweeping? then |s.dlists[0]| - s.scans[0].kept else 0
  {
    assert ScanInv(s.scans[0], s.dlists[0], s.numThreads);
    OneStep(s, ScanStep(0));
    var s1 := Do(s, ScanStep(0));
    schedule, s' := [ScanStep(0)], s1;
    if p in s1.dlists[0] {
      if s.scans[0].Sweeping? {
        assert s.scans[0].kept < |s.dlists[0]|;
        assert s1.scans[0].Sweeping?;
      }
      var rest, last := UncoveredIsReclaimed(s1, slot, p);
      Then(s, [ScanStep(0)], s1, rest, last);
      schedule, s' := [ScanStep(0)] + rest, last;
    } else {
      assert s.scans[0].Sweeping? && s.dlists[0][s.scans[0].kept] == p;
    }
  }

  lemma UncoveredIsNotSafe(s: State, slot: nat, loc: Loc)
    requires Inv(s) && Enabled(s, Load(slot, loc)) && Held(s, loc).Some? && slot / SMR_K >= s.numThreads
    ensures !SafeFrom(Do(s, Load(slot, loc)), slot)
  {
    var p, s1 := Held(s, loc).value, Do(s, Load(slot, loc));
    var a, s2 := Protect(s, slot, loc, p);
    assert s2.links[loc] == p;
    var b, s3 := OthersRelease(s2, slot, p, 0);
    Then(s1, a, s2, b, s3);
    var c, s4 := FinishScan(s3, slot, p);
    Then(s1, a + b, s3, c, s4);
    assert p in s4.links.Values;
    var d, s5 := Unlink(s4, slot, p);
    Then(s1, a + b + c, s4, d, s5);
    var e, s6 := Retire(s5, slot, p);
    Then(s1, a + b + c + d, s5, e, s6);
    var f, s7 := UncoveredIsReclaimed(s6, slot, p);
    Then(s1, a + b + c + d + e, s6, f, s7);
    assert NoLoad(a + b + c + d + e + f, slot) && !SlotSafe(s7, slot);
  }

  // For every load of a pointer in every reachable state: the slot protects it, however
  // the run goes on, if and only if the index of its owner is below num_threads.
  lemma SafeExactlyIfCovered(s0: State, schedule: seq<Step>, s: State, slot: nat, loc: Loc)
    requires Init(s0) && Exec(s0, schedule) == Some(s)
    requires Enabled(s, Load(slot, loc)) && Held(s, loc).Some?
    ensures SafeFrom(Do(s, Load(slot, loc)), slot) <==> slot / SMR_K < s.numThreads
  {
    Reachable(s0, schedule, s);
    if slot / SMR_K < s.numThreads {
      CoveredIsSafe(s, slot, loc);
    } else {
      UncoveredIsNotSafe(s, slot, loc);
    }
  }

  // The condition can fail: threads 0 and 2 are counted before thread 1 is, and thread
  // 2, whose slots are 4 and 5, loads a node that thread 0 has linked.
  lemma EarlyThreadIsNotProtected(s0: State)
    requires Init(s0)
    ensures var schedule := [Register(0), Register(2), Alloc(0, 7), Write(0, 1, Some(7))];
            && Exec(s0, schedule).Some?
            && var s := Exec(s0, schedule).value;
               Enabled(s, Load(4, 1)) && Held(s, 1) == Some(7) && !SafeFrom(Do(s, Load(4, 1)), 4)
  {
    var schedule := [Register(0), Register(2), Alloc(0, 7), Write(0, 1, Some(7))];
    var s1 := Do(s0, Register(0));
    var s2 := Do(s1, Register(2));
    var s3 := Do(s2, Alloc(0, 7));
    var s := Do(s3, Write(0, 1, Some(7)));
    assert Exec(s3, schedule[3..]) == Exec(s, schedule[3..][1..]) == Some(s);
    assert Exec(s2, schedule[2..]) == Exec(s3, schedule[2..][1..]) && schedule[2..][1..] == schedule[3..];
    assert Exec(s1, schedule[1..]) == Exec(s2, schedule[1..][1..]) && schedule[1..][1..] == schedule[2..];
    SafeExactlyIfCovered(s0, schedule, s, 4, 1);
  }
}
