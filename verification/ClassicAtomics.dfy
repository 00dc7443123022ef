/**
 * The classic guards of src/runtime/atomic/OFluxAtomic.h: the exclusive and the
 * read/write atomic.  The two classes update their fields in place; each method is
 * proved against a function on the value of the atomic, and what the guards promise
 * is proved about those functions for whole histories of calls.
 */
module ClassicAtomics {
  import opened Basics

  type EventId = nat
  type Data = nat

  datatype Mode = Read | Write | Exclusive | Upgradeable

  datatype Waiter = Waiter(event: EventId, wtype: Mode)

  // The value of an atomic; the mode is used only by read/write atomics.
  datatype Atomic = Atomic(held: nat, mode: Option<Mode>, waiters: seq<Waiter>, data: Option<Data>)

  const Unused := Atomic(0, None, [], None)

  datatype Kind = ExclusiveKind | ReadWriteKind

  // May a waiter of this mode run beside readers?
  predicate Joins(w: Mode, data: Option<Data>) {
    w == Read || (w == Upgradeable && data.Some?)
  }

  function Acquire(a: Atomic, kind: Kind, e: EventId, w: Mode): (Atomic, bool) {
    match kind
    case ExclusiveKind =>
      if a.held == 0 then (a.(held := 1), true)
      else (a.(held := 1, waiters := a.waiters + [Waiter(e, Exclusive)]), false)
    case ReadWriteKind =>
      if a.held == 0 then (a.(held := 1, mode := Some(w)), true)
      else if a.mode == Some(Read) && a.waiters == [] && Joins(w, a.data) then (a.(held := a.held + 1), true)
      else (a.(waiters := a.waiters + [Waiter(e, w)]), false)
  }

  // How many waiters at the front may all run beside readers.
  function Batch(waiters: seq<Waiter>, data: Option<Data>): (n: nat)
    ensures n <= |waiters|
    ensures forall i :: 0 <= i < n ==> Joins(waiters[i].wtype, data)
    ensures n < |waiters| ==> !Joins(waiters[n].wtype, data)
  {
    if waiters == [] || !Joins(waiters[0].wtype, data) then 0 else 1 + Batch(waiters[1..], data)
  }

  // How many waiters a release lets go.
  function LetGo(a: Atomic, kind: Kind): (n: nat)
    ensures n <= |a.waiters|
  {
    if a.waiters == [] || (kind == ReadWriteKind && a.held > 1) then 0
    else if kind == ReadWriteKind && a.waiters[0].wtype == Read then 1 + Batch(a.waiters[1..], a.data)
    else 1
  }

  function Release(a: Atomic, kind: Kind): (Atomic, seq<Waiter>) {
    var n := LetGo(a, kind);
    match kind
    case ExclusiveKind => (a.(held := n, waiters := a.waiters[n..]), a.waiters[..n])
    case ReadWriteKind =>
      if a.held > 1 then (a.(held := a.held - 1), [])
      else
        (a.(held := n, mode := if n == 0 then None else Some(a.waiters[0].wtype), waiters := a.waiters[n..]),
         a.waiters[..n])
  }

  // ---------------------------------------------------------------------------
  // Histories of one atomic
  // ---------------------------------------------------------------------------

  datatype Call =
    | Request(w: Waiter)
    | Finish(w: Waiter)          // one of the holders releases
    | SetData(data: Option<Data>)

  // `requested`, `granted` and `holding` record the history; the calls do not read them.
  datatype History = History(a: Atomic, requested: seq<Waiter>, granted: seq<Waiter>, holding: multiset<Waiter>)

  const Fresh := History(Unused, [], [], multiset{})

  predicate Allowed(h: History, kind: Kind, call: Call) {
    match call
    case Request(w) => kind == ExclusiveKind <==> w.wtype == Exclusive
    case Finish(w) => w in h.holding
    case SetData(_) => true
  }

  function Run1(h: History, kind: Kind, call: Call): History
    requires Allowed(h, kind, call)
  {
    match call
    case Request(w) =>
      var (a, ok) := Acquire(h.a, kind, w.event, w.wtype);
      if ok then History(a, h.requested + [w], h.granted + [w], h.holding + multiset{w})
      else History(a, h.requested + [w], h.granted, h.holding)
    case Finish(w) =>
      var (a, rel) := Release(h.a, kind);
      History(a, h.requested, h.granted + rel, h.holding - multiset{w} + multiset(rel))
    case SetData(d) => h.(a := h.a.(data := d))
  }

  function RunAll(h: History, kind: Kind, calls: seq<Call>): Option<History>
    decreases |calls|
  {
    if calls == [] then Some(h)
    else if Allowed(h, kind, calls[0]) then RunAll(Run1(h, kind, calls[0]), kind, calls[1..])
    else None
  }

  // What is true of an atomic between calls.
  predicate Sound(a: Atomic, kind: Kind) {
    && (a.waiters != [] ==> a.held > 0)
    && (kind == ExclusiveKind ==> a.held <= 1 && a.mode == None)
    && (kind == ReadWriteKind ==>
          && (a.held == 0 <==> a.mode == None)
          && (a.held > 1 ==> a.mode == Some(Read))
          // the first waiter could not run now
          && (a.mode == Some(Read) && a.waiters != [] ==> a.waiters[0].wtype != Read))
  }

  lemma AcquireKeepsSound(a: Atomic, kind: Kind, e: EventId, w: Mode)
    requires Sound(a, kind)
    ensures Sound(Acquire(a, kind, e, w).0, kind)
  {
  }

  lemma ReleaseKeepsSound(a: Atomic, kind: Kind)
    requires Sound(a, kind) && a.held > 0
    ensures Sound(Release(a, kind).0, kind)
  {
  }

  // A release frees one place and fills one for each waiter it lets go.
  lemma ReleaseCounts(a: Atomic, kind: Kind)
    requires Sound(a, kind) && a.held > 0
    ensures var (a', rel) := Release(a, kind);
            a'.held == a.held - 1 + |rel| && rel + a'.waiters == a.waiters && a'.data == a.data
  {
  }

  // One writer, or one upgradeable that came first, or readers and those that joined them.
  predicate Fits(w: Waiter, a: Atomic, kind: Kind) {
    kind == ReadWriteKind ==> a.mode == Some(w.wtype) || (a.mode == Some(Read) && w.wtype == Upgradeable)
  }

  ghost predicate Recorded(h: History, kind: Kind) {
    && Sound(h.a, kind)
    // grants happen in exactly the order of the requests
    && h.granted + h.a.waiters == h.requested
    && |h.holding| == h.a.held
    && (forall w :: w in h.requested ==> (kind == ExclusiveKind <==> w.wtype == Exclusive))
    && (forall w :: w in h.holding ==> w in h.granted && Fits(w, h.a, kind))
  }

  lemma RequestKeepsRecorded(h: History, kind: Kind, w: Waiter)
    requires Recorded(h, kind) && Allowed(h, kind, Request(w))
    ensures Recorded(Run1(h, kind, Request(w)), kind)
  {
    var (a, ok) := Acquire(h.a, kind, w.event, w.wtype);
    AcquireKeepsSound(h.a, kind, w.event, w.wtype);
    if ok {
      assert h.a.waiters == [];
      if h.a.held == 0 {
        assert h.holding == multiset{};
      }
    } else {
      assert w == Waiter(w.event, w.wtype);
    }
  }

  lemma FinishKeepsRecorded(h: History, kind: Kind, w: Waiter)
    requires Recorded(h, kind) && Allowed(h, kind, Finish(w))
    ensures Recorded(Run1(h, kind, Finish(w)), kind)
  {
    var (a, rel) := Release(h.a, kind);
    ReleaseKeepsSound(h.a, kind);
    ReleaseCounts(h.a, kind);
    var h' := Run1(h, kind, Finish(w));
    FinishMovesOn(h.granted, rel, a.waiters);
    assert |h'.holding| == a.held;
    forall x | x in h'.holding
      ensures x in h'.granted && Fits(x, a, kind)
    {
      HolderFits(h, kind, w, x);
    }
  }

  lemma FinishMovesOn(granted: seq<Waiter>, rel: seq<Waiter>, waiters: seq<Waiter>)
    ensures granted + (rel + waiters) == (granted + rel) + waiters
  {
  }

  lemma HolderFits(h: History, kind: Kind, w: Waiter, x: Waiter)
    requires Recorded(h, kind) && w in h.holding && x in Run1(h, kind, Finish(w)).holding
    ensures x in Run1(h, kind, Finish(w)).granted && Fits(x, Release(h.a, kind).0, kind)
  {
    var rel := Release(h.a, kind).1;
    if x in rel {
      var i :| 0 <= i < |rel| && rel[i] == x;
      LetGoFits(h.a, kind, i);
    } else {
      assert x in h.holding - multiset{w};
      if h.a.held == 1 {
        OnlyOne(h.holding, w);
      }
      assert Fits(x, h.a, kind);
    }
  }

  lemma LetGoFits(a: Atomic, kind: Kind, i: nat)
    requires Sound(a, kind) && a.held > 0 && i < |Release(a, kind).1|
    ensures Fits(a.waiters[i], Release(a, kind).0, kind)
  {
    if kind == ReadWriteKind {
      LetGoJoins(a, i);
    }
  }

  lemma CallKeepsRecorded(h: History, kind: Kind, call: Call)
    requires Recorded(h, kind) && Allowed(h, kind, call)
    ensures Recorded(Run1(h, kind, call), kind)
    ensures call.Finish? ==> h.a.held > 0
  {
    match call
    case Request(w) => RequestKeepsRecorded(h, kind, w);
    case Finish(w) => FinishKeepsRecorded(h, kind, w);
    case SetData(d) =>
  }

  lemma {:induction false} HistoryIsRecorded(h: History, kind: Kind, calls: seq<Call>)
    requires Recorded(h, kind)
    ensures RunAll(h, kind, calls).Some? ==> Recorded(RunAll(h, kind, calls).value, kind)
    decreases |calls|
  {
    if calls != [] && Allowed(h, kind, calls[0]) {
      CallKeepsRecorded(h, kind, calls[0]);
      HistoryIsRecorded(Run1(h, kind, calls[0]), kind, calls[1..]);
    }
  }

  // The requests of a history, in order, and what its releases were called for.
  function Requests(calls: seq<Call>): seq<Waiter> {
    if calls == [] then [] else (if calls[0].Request? then [calls[0].w] else []) + Requests(calls[1..])
  }

  function Releases(calls: seq<Call>): multiset<Waiter> {
    if calls == [] then multiset{}
    else (if calls[0].Finish? then multiset{calls[0].w} else multiset{}) + Releases(calls[1..])
  }

  lemma CallRequests(h: History, kind: Kind, call: Call)
    requires Allowed(h, kind, call)
    ensures Run1(h, kind, call).requested == h.requested + (if call.Request? then [call.w] else [])
  {
    assert h.requested + [] == h.requested;
  }

  lemma CallRecords(h: History, kind: Kind, call: Call, done: multiset<Waiter>)
    requires Allowed(h, kind, call) && multiset(h.granted) == h.holding + done
    ensures var h' := Run1(h, kind, call);
            multiset(h'.granted) == h'.holding + (done + if call.Finish? then multiset{call.w} else multiset{})
  {
  }

  lemma {:induction false} RunRequests(h: History, kind: Kind, calls: seq<Call>)
    requires RunAll(h, kind, calls).Some?
    ensures RunAll(h, kind, calls).value.requested == h.requested + Requests(calls)
    decreases |calls|
  {
    if calls == [] {
      assert h.requested + [] == h.requested;
    } else {
      CallRequests(h, kind, calls[0]);
      hide Run1, Allowed;
      RunRequests(Run1(h, kind, calls[0]), kind, calls[1..]);
      Regroup(h.requested, if calls[0].Request? then [calls[0].w] else [], Requests(calls[1..]));
    }
  }

  lemma {:induction false} RunReleases(h: History, kind: Kind, calls: seq<Call>, done: multiset<Waiter>)
    requires RunAll(h, kind, calls).Some? && multiset(h.granted) == h.holding + done
    ensures var h' := RunAll(h, kind, calls).value; multiset(h'.granted) == h'.holding + (done + Releases(calls))
    decreases |calls|
  {
    hide Run1, Allowed;
    if calls != [] {
      var ended := if calls[0].Finish? then multiset{calls[0].w} else multiset{};
      CallRecords(h, kind, calls[0], done);
      RunReleases(Run1(h, kind, calls[0]), kind, calls[1..], done + ended);
      assert (done + ended) + Releases(calls[1..]) == done + (ended + Releases(calls[1..]));
    }
  }

  // Every history: the requests on record are those that were made, in order, and whoever
  // was granted the atomic holds it or has released it, once for each grant.
  lemma RecordedIsCalled(kind: Kind, calls: seq<Call>)
    requires RunAll(Fresh, kind, calls).Some?
    ensures var h := RunAll(Fresh, kind, calls).value;
            h.requested == Requests(calls) && multiset(h.granted) == h.holding + Releases(calls)
  {
    RunRequests(Fresh, kind, calls);
    RunReleases(Fresh, kind, calls, multiset{});
    assert [] + Requests(calls) == Requests(calls);
  }

  // Every history of a read/write atomic: grants follow the order of the requests,
  // nobody waits for an atomic that is free, several holders all read or joined
  // readers, and a writer is alone.
  lemma ReadWriteGuarantees(calls: seq<Call>)
    requires RunAll(Fresh, ReadWriteKind, calls).Some?
    ensures var h := RunAll(Fresh, ReadWriteKind, calls).value;
            && h.granted + h.a.waiters == h.requested
            && |h.holding| == h.a.held
            && (h.a.waiters != [] ==> h.a.held > 0)
            && (forall w :: w in h.holding && w.wtype == Write ==> h.holding == multiset{w})
            && (h.a.held > 1 ==>
                  h.a.mode == Some(Read) && forall w :: w in h.holding ==> w.wtype == Read || w.wtype == Upgradeable)
  {
    HistoryIsRecorded(Fresh, ReadWriteKind, calls);
    var h := RunAll(Fresh, ReadWriteKind, calls).value;
    forall w | w in h.holding && w.wtype == Write
      ensures h.holding == multiset{w}
    {
      assert Fits(w, h.a, ReadWriteKind);
      OnlyOne(h.holding, w);
    }
    forall w | h.a.held > 1 && w in h.holding
      ensures w.wtype == Read || w.wtype == Upgradeable
    {
      assert Fits(w, h.a, ReadWriteKind);
    }
  }

  lemma OnlyOne<T>(m: multiset<T>, w: T)
    requires |m| == 1 && w in m
    ensures m == multiset{w}
  {
    assert |m - multiset{w}| == 0;
  }

  lemma ExclusiveGuarantees(calls: seq<Call>)
    requires RunAll(Fresh, ExclusiveKind, calls).Some?
    ensures var h := RunAll(Fresh, ExclusiveKind, calls).value;
            && h.granted + h.a.waiters == h.requested
            && |h.holding| == h.a.held <= 1
            && (h.a.waiters != [] ==> h.a.held == 1)
  {
    HistoryIsRecorded(Fresh, ExclusiveKind, calls);
  }

  lemma LetGoOnNull(a: Atomic, i: nat)
    requires Sound(a, ReadWriteKind) && a.held > 0 && a.data == None
    requires i < |Release(a, ReadWriteKind).1| && Release(a, ReadWriteKind).1[i].wtype == Upgradeable
    ensures var (a', rel) := Release(a, ReadWriteKind);
            |rel| == 1 && a'.held == 1 && a'.mode == Some(Upgradeable)
  {
    LetGoJoins(a, i);
  }

  lemma LetGoJoins(a: Atomic, i: nat)
    requires a.held > 0 && i < |Release(a, ReadWriteKind).1|
    ensures i > 0 || a.waiters[0].wtype == Read ==> Joins(a.waiters[i].wtype, a.data)
  {
    if i > 0 {
      assert Joins(a.waiters[1..][i - 1].wtype, a.data);
    }
  }

  // An upgradeable that is let in while the data is null is alone ...
  lemma UpgradeableOnNullIsAlone(calls: seq<Call>, call: Call, w: Waiter)
    requires RunAll(Fresh, ReadWriteKind, calls).Some?
    requires Allowed(RunAll(Fresh, ReadWriteKind, calls).value, ReadWriteKind, call)
    requires var h := RunAll(Fresh, ReadWriteKind, calls).value;
             var h' := Run1(h, ReadWriteKind, call);
             h'.holding[w] > h.holding[w] && w.wtype == Upgradeable && h.a.data == None
    ensures var h' := Run1(RunAll(Fresh, ReadWriteKind, calls).value, ReadWriteKind, call);
            h'.holding == multiset{w} && h'.a.mode == Some(Upgradeable)
  {
    HistoryIsRecorded(Fresh, ReadWriteKind, calls);
    hide RunAll, Allowed, Recorded;
    var h := RunAll(Fresh, ReadWriteKind, calls).value;
    match call
    case Request(x) => RequestOnNullIsAlone(h, x, w);
    case Finish(x) => FinishOnNullIsAlone(h, x, w);
    case SetData(d) =>
  }

  lemma RequestOnNullIsAlone(h: History, x: Waiter, w: Waiter)
    requires Recorded(h, ReadWriteKind) && Allowed(h, ReadWriteKind, Request(x)) && h.a.data == None
    requires Run1(h, ReadWriteKind, Request(x)).holding[w] > h.holding[w] && w.wtype == Upgradeable
    ensures var h' := Run1(h, ReadWriteKind, Request(x));
            h'.holding == multiset{w} && h'.a.mode == Some(Upgradeable)
  {
    RequestKeepsRecorded(h, ReadWriteKind, x);
    OnlyOne(Run1(h, ReadWriteKind, Request(x)).holding, w);
  }

  lemma FinishOnNullIsAlone(h: History, x: Waiter, w: Waiter)
    requires Recorded(h, ReadWriteKind) && Allowed(h, ReadWriteKind, Finish(x)) && h.a.data == None
    requires Run1(h, ReadWriteKind, Finish(x)).holding[w] > h.holding[w] && w.wtype == Upgradeable
    ensures var h' := Run1(h, ReadWriteKind, Finish(x));
            h'.holding == multiset{w} && h'.a.mode == Some(Upgradeable)
  {
    FinishKeepsRecorded(h, ReadWriteKind, x);
    var rel := Release(h.a, ReadWriteKind).1;
    assert w in rel;
    var i :| 0 <= i < |rel| && rel[i] == w;
    LetGoOnNull(h.a, i);
    OnlyOne(Run1(h, ReadWriteKind, Finish(x)).holding, w);
  }

  // ... and so is every holder that is not a reader, until it releases.
  lemma AloneUntilDone(calls: seq<Call>, call: Call)
    requires RunAll(Fresh, ReadWriteKind, calls).Some? && !call.Finish?
    requires var h := RunAll(Fresh, ReadWriteKind, calls).value;
             Allowed(h, ReadWriteKind, call) && h.a.mode.Some? && h.a.mode != Some(Read)
    ensures var h := RunAll(Fresh, ReadWriteKind, calls).value;
            var h' := Run1(h, ReadWriteKind, call);
            h.a.held == 1 && h'.holding == h.holding && h'.a.mode == h.a.mode
  {
    HistoryIsRecorded(Fresh, ReadWriteKind, calls);
  }

  // The waiters let go together are the longest run of waiters that may share.
  lemma HandoffIsMaximal(a: Atomic)
    requires a.held == 1 && a.waiters != []
    ensures var (a', rel) := Release(a, ReadWriteKind);
            && rel + a'.waiters == a.waiters && rel != [] && a'.held == |rel|
            && (rel[0].wtype != Read ==> |rel| == 1)
            && (rel[0].wtype == Read ==>
                  && (forall i :: 0 <= i < |rel| ==> Joins(rel[i].wtype, a.data))
                  && (a'.waiters != [] ==> !Joins(a'.waiters[0].wtype, a.data)))
  {
    var rel := Release(a, ReadWriteKind).1;
    if rel[0].wtype == Read {
      forall i | 0 <= i < |rel|
        ensures Joins(rel[i].wtype, a.data)
      {
        LetGoJoins(a, i);
      }
    }
  }

  // ---------------------------------------------------------------------------
  // The classes
  // ---------------------------------------------------------------------------

  class AtomicExclusive {
    var data: Option<Data>
    var held: nat
    var waiters: seq<Waiter>

    function Value(): Atomic
      reads this
    {
      Atomic(held, None, waiters, data)
    }

    constructor ()
      ensures Value() == Unused
    {
      data, held, waiters := None, 0, [];
    }

    method AcquireOrWait(ev: EventId) returns (res: bool)
      modifies this
      ensures (Value(), res) == Acquire(old(Value()), ExclusiveKind, ev, Exclusive)
    {
      res := held == 0;
      held := 1;
      if !res {
        waiters := waiters + [Waiter(ev, Exclusive)];
      }
    }

    // rel_ev grows by the waiter that now holds the atomic.
    method ReleaseTo(rel_ev: seq<Waiter>) returns (rel_ev': seq<Waiter>)
      modifies this
      ensures Value() == Release(old(Value()), ExclusiveKind).0
      ensures rel_ev' == rel_ev + Release(old(Value()), ExclusiveKind).1
    {
      rel_ev' := rel_ev;
      held := 0;
      if |waiters| > 0 {
        rel_ev' := rel_ev' + [waiters[0]];
        waiters := waiters[1..];
        held := 1;
      }
    }
  }

  lemma OneMoreReader(rel_ev: seq<Waiter>, waiters: seq<Waiter>, k: nat, data: Option<Data>)
    requires k < |waiters| && Joins(waiters[k].wtype, data)
    ensures waiters[k..][1..] == waiters[k + 1..]
    ensures rel_ev + waiters[..k] + [waiters[k]] == rel_ev + waiters[..k + 1]
    ensures Batch(waiters[k..], data) == 1 + Batch(waiters[k + 1..], data)
  {
    assert waiters[k..][1..] == waiters[k + 1..];
  }

  class AtomicReadWrite {
    var data: Option<Data>
    var held: nat
    var waiters: seq<Waiter>
    var mode: Option<Mode>

    function Value(): Atomic
      reads this
    {
      Atomic(held, mode, waiters, data)
    }

    constructor ()
      ensures Value() == Unused
    {
      data, held, waiters, mode := None, 0, [], None;
    }

    method AcquireOrWait(ev: EventId, wtype: Mode) returns (res: bool)
      modifies this
      ensures (Value(), res) == Acquire(old(Value()), ReadWriteKind, ev, wtype)
    {
      res := false;
      if held == 0 {
        held := 1;
        // the mode that an upgradeable resolves to is overwritten at once
        mode := Some(if wtype == Upgradeable then if data.Some? then Read else Write else wtype);
        mode := Some(wtype);
        res := true;
      } else if mode == Some(Read) && |waiters| == 0
                && ((wtype == Upgradeable && data.Some?) || wtype == Read) {
        held := held + 1;
        res := true;
      }
      if !res {
        waiters := waiters + [Waiter(ev, wtype)];
      }
    }

    method ReleaseTo(rel_ev: seq<Waiter>) returns (rel_ev': seq<Waiter>)
      modifies this
      ensures Value() == Release(old(Value()), ReadWriteKind).0
      ensures rel_ev' == rel_ev + Release(old(Value()), ReadWriteKind).1
    {
      rel_ev' := rel_ev;
      held := if held - 1 > 0 then held - 1 else 0;
      if held == 0 {
        mode := None;
        if |waiters| > 0 {
          var aqe := waiters[0];
          mode := Some(aqe.wtype);
          rel_ev' := rel_ev' + [aqe];
          held := held + 1;
          waiters := waiters[1..];
          if mode == Some(Read) {
            rel_ev' := ReleaseReaders(rel_ev');
          }
        }
      }
    }

    method ReleaseReaders(rel_ev: seq<Waiter>) returns (rel_ev': seq<Waiter>)
      modifies this`waiters, this`held
      ensures var n := Batch(old(waiters), data);
              && rel_ev' == rel_ev + old(waiters)[..n]
              && waiters == old(waiters)[n..] && held == old(held) + n
    {
      hide Batch;
      rel_ev' := rel_ev;
      ghost var before := waiters;
      while |waiters| > 0 && (waiters[0].wtype == Read || (data.Some? && waiters[0].wtype == Upgradeable))
        invariant held >= old(held) && held - old(held) <= |before| && waiters == before[held - old(held)..]
        invariant rel_ev' == rel_ev + before[..held - old(held)]
        invariant Batch(before, data) == held - old(held) + Batch(waiters, data)
      {
        OneMoreReader(rel_ev, before, held - old(held), data);
        rel_ev' := rel_ev' + [waiters[0]];
        held := held + 1;
        waiters := waiters[1..];
      }
    }
  }

  // ---------------------------------------------------------------------------
  // Answers to whole histories
  // ---------------------------------------------------------------------------

  function Events(ws: seq<Waiter>): (q: seq<EventId>)
    ensures |q| == |ws| && forall i :: 0 <= i < |q| ==> q[i] == ws[i].event
  {
    seq(|ws|, i requires 0 <= i < |ws| => ws[i].event)
  }

  // What a call answers: whether a request was granted, or which events a release let go.
  datatype Answer = Granted(yes: bool) | LetGoEvents(events: seq<EventId>) | Nothing

  ghost function Answered(a: Atomic, kind: Kind, call: Call): (Atomic, Answer) {
    match call
    case Request(w) =>
      var (a', res) := Acquire(a, kind, w.event, w.wtype);
      (a', Granted(res))
    case Finish(_) =>
      var (a', rel) := Release(a, kind);
      (a', LetGoEvents(Events(rel)))
    case SetData(d) => (a.(data := d), Nothing)
  }

  // The answers to a history of calls, and the atomic's value after it.
  ghost function AnswersTo(h: History, kind: Kind, calls: seq<Call>): (seq<Answer>, Atomic)
    requires RunAll(h, kind, calls).Some?
    decreases |calls|
  {
    if calls == [] then ([], h.a)
    else
      var (rest, a) := AnswersTo(Run1(h, kind, calls[0]), kind, calls[1..]);
      ([Answered(h.a, kind, calls[0]).1] + rest, a)
  }

  // The first i calls have been answered, and h is their history.
  ghost predicate OnTrack(h: History, kind: Kind, calls: seq<Call>, i: nat, answers: seq<Answer>)
    requires RunAll(Fresh, kind, calls).Some?
  {
    && i <= |calls| && Recorded(h, kind) && RunAll(h, kind, calls[i..]).Some?
    && answers + AnswersTo(h, kind, calls[i..]).0 == AnswersTo(Fresh, kind, calls).0
    && AnswersTo(h, kind, calls[i..]).1 == AnswersTo(Fresh, kind, calls).1
  }

  lemma StartOfCalls(kind: Kind, calls: seq<Call>)
    requires RunAll(Fresh, kind, calls).Some?
    ensures OnTrack(Fresh, kind, calls, 0, [])
  {
    assert calls[0..] == calls;
  }

  // The next of the calls.
  lemma NextCall(h: History, kind: Kind, calls: seq<Call>, i: nat, answers: seq<Answer>)
    requires RunAll(Fresh, kind, calls).Some? && OnTrack(h, kind, calls, i, answers) && i < |calls|
    ensures Allowed(h, kind, calls[i]) && (calls[i].Finish? ==> h.a.held > 0)
    ensures var h' := Run1(h, kind, calls[i]);
            && h'.a == Answered(h.a, kind, calls[i]).0
            && OnTrack(h', kind, calls, i + 1, answers + [Answered(h.a, kind, calls[i]).1])
  {
    assert calls[i..][0] == calls[i] && calls[i..][1..] == calls[i + 1..];
    CallKeepsRecorded(h, kind, calls[i]);
    var h', answer := Run1(h, kind, calls[i]), Answered(h.a, kind, calls[i]).1;
    var rest := AnswersTo(h', kind, calls[i + 1..]).0;
    assert answers + ([answer] + rest) == (answers + [answer]) + rest;
  }

  lemma EndOfCalls(h: History, kind: Kind, calls: seq<Call>, answers: seq<Answer>)
    requires RunAll(Fresh, kind, calls).Some? && OnTrack(h, kind, calls, |calls|, answers)
    ensures AnswersTo(Fresh, kind, calls).0 == answers && AnswersTo(Fresh, kind, calls).1 == h.a
  {
    assert calls[|calls|..] == [] && answers + [] == answers;
  }

  method CallExclusive(a: AtomicExclusive, call: Call) returns (answer: Answer)
    modifies a
    ensures a.Value() == Answered(old(a.Value()), ExclusiveKind, call).0
    ensures answer == Answered(old(a.Value()), ExclusiveKind, call).1
  {
    match call
    case Request(w) =>
      var res := a.AcquireOrWait(w.event);
      answer := Granted(res);
    case Finish(_) =>
      var rel := a.ReleaseTo([]);
      answer := LetGoEvents(Events(rel));
    case SetData(d) =>
      a.data := d;
      answer := Nothing;
  }

  method CallReadWrite(a: AtomicReadWrite, call: Call) returns (answer: Answer)
    modifies a
    ensures a.Value() == Answered(old(a.Value()), ReadWriteKind, call).0
    ensures answer == Answered(old(a.Value()), ReadWriteKind, call).1
  {
    match call
    case Request(w) =>
      var res := a.AcquireOrWait(w.event, w.wtype);
      answer := Granted(res);
    case Finish(_) =>
      var rel := a.ReleaseTo([]);
      answer := LetGoEvents(Events(rel));
    case SetData(d) =>
      a.data := d;
      answer := Nothing;
  }

  // The classes, run over a history.
  method RunExclusive(calls: seq<Call>) returns (answers: seq<Answer>, held: nat)
    requires RunAll(Fresh, ExclusiveKind, calls).Some?
    ensures answers == AnswersTo(Fresh, ExclusiveKind, calls).0 && held == AnswersTo(Fresh, ExclusiveKind, calls).1.held
  {
    var a := new AtomicExclusive();
    answers := [];
    ghost var h := Fresh;
    StartOfCalls(ExclusiveKind, calls);
    hide Run1, OnTrack, Answered, AnswersTo, RunAll;
    for i := 0 to |calls|
      invariant fresh(a) && a.Value() == h.a && OnTrack(h, ExclusiveKind, calls, i, answers)
    {
      NextCall(h, ExclusiveKind, calls, i, answers);
      h := Run1(h, ExclusiveKind, calls[i]);
      var x := CallExclusive(a, calls[i]);
      answers := answers + [x];
    }
    EndOfCalls(h, ExclusiveKind, calls, answers);
    held := a.held;
  }

  method RunReadWrite(calls: seq<Call>) returns (answers: seq<Answer>, held: nat)
    requires RunAll(Fresh, ReadWriteKind, calls).Some?
    ensures answers == AnswersTo(Fresh, ReadWriteKind, calls).0 && held == AnswersTo(Fresh, ReadWriteKind, calls).1.held
  {
    var a := new AtomicReadWrite();
    answers := [];
    ghost var h := Fresh;
    StartOfCalls(ReadWriteKind, calls);
    hide Run1, OnTrack, Answered, AnswersTo, RunAll;
    for i := 0 to |calls|
      invariant fresh(a) && a.Value() == h.a && OnTrack(h, ReadWriteKind, calls, i, answers)
    {
      NextCall(h, ReadWriteKind, calls, i, answers);
      h := Run1(h, ReadWriteKind, calls[i]);
      var x := CallReadWrite(a, calls[i]);
      answers := answers + [x];
    }
    EndOfCalls(h, ReadWriteKind, calls, answers);
    held := a.held;
  }
}
