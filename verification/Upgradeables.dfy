/**
 * What the classic and the lock-free read/write guard make of upgradeable requests: when
 * the two give the same answers, and when an upgradeable comes to read null data.
 */
module Upgradeables {
  import opened Basics
  import opened ClassicAtomics
  import opened LockFreeReadWrite

  // ---------------------------------------------------------------------------
  // When the two guards agree
  // ---------------------------------------------------------------------------

  // What a request of this mode can be in the lock-free guard.
  predicate Becomes(mode: Mode, resolved: Mode) {
    if mode == Upgradeable then resolved == Read || resolved == Write else resolved == mode != Exclusive
  }

  // A classic guard c and a lock-free one l, on its abstract value, that have answered alike so far.
  ghost predicate Twins(c: Atomic, l: Atomic) {
    && Sound(c, ReadWriteKind) && Sound(l, ReadWriteKind)
    && c.held == l.held && c.data == l.data
    && (if c.mode == Some(Upgradeable) then c.held == 1 && l.mode.Some? && Becomes(Upgradeable, l.mode.value)
        else l.mode == c.mode)
    && TwinWaiters(c.waiters, l.waiters)
  }

  ghost predicate TwinWaiters(cq: seq<Waiter>, lq: seq<Waiter>) {
    && |cq| == |lq|
    && forall i :: 0 <= i < |cq| ==> cq[i].event == lq[i].event && Becomes(cq[i].wtype, lq[i].wtype)
  }

  // Behind waiters that join a reader in both guards, one that joins in just one of them.
  predicate FirstToDiffer(cq: seq<Waiter>, lq: seq<Waiter>, data: Option<Data>, j: nat) {
    && j < |cq| == |lq|
    && (forall i :: 0 <= i < j ==> Joins(cq[i].wtype, data) && lq[i].wtype == Read)
    && (Joins(cq[j].wtype, data) <==> lq[j].wtype != Read)
  }

  // Told before the call, from the fields of the guards: a request that would join an
  // upgradeable holder which reads in the lock-free guard, or a last release that one guard
  // lets more waiters go at than the other.
  ghost predicate Splits(c: Atomic, l: Atomic, call: Call) {
    match call
    case Request(w) =>
      c.held > 0 && c.waiters == [] && c.mode == Some(Upgradeable) && l.mode == Some(Read) && Joins(w.wtype, c.data)
    case Finish(_) =>
      && c.held == 1 && 0 < |c.waiters| == |l.waiters| && l.waiters[0].wtype == Read
      && if c.waiters[0].wtype == Upgradeable then |l.waiters| > 1 && l.waiters[1].wtype == Read
         else exists j :: FirstToDiffer(c.waiters[1..], l.waiters[1..], c.data, j)
    case SetData(_) => false
  }

  lemma RequestSplitsExactly(c: Atomic, l: Atomic, call: Call, resolved: Call)
    requires Twins(c, l) && ResolvesTo(call, resolved, c.data) && call.Request? && call.w.wtype != Exclusive
    ensures var (c', x) := Answered(c, ReadWriteKind, call);
            var (l', y) := Answered(l, ReadWriteKind, resolved);
            (x == y <==> !Splits(c, l, call)) && (x == y ==> Twins(c', l'))
  {
    AcquireKeepsSound(c, ReadWriteKind, call.w.event, call.w.wtype);
    AcquireKeepsSound(l, ReadWriteKind, resolved.w.event, resolved.w.wtype);
  }

  lemma BatchesDifferExactly(cq: seq<Waiter>, lq: seq<Waiter>, data: Option<Data>)
    requires TwinWaiters(cq, lq)
    ensures Batch(cq, data) != Batch(lq, data) <==> exists j :: FirstToDiffer(cq, lq, data, j)
  {
    var n, m := Batch(cq, data), Batch(lq, data);
    if n != m {
      assert FirstToDiffer(cq, lq, data, if n < m then n else m);
    }
  }

  lemma FinishSplitsExactly(c: Atomic, l: Atomic, call: Call, resolved: Call)
    requires Twins(c, l) && c.held > 0 && call.Finish? && resolved.Finish?
    ensures var (c', x) := Answered(c, ReadWriteKind, call);
            var (l', y) := Answered(l, ReadWriteKind, resolved);
            (x == y <==> !Splits(c, l, call)) && (x == y ==> Twins(c', l'))
  {
    ReleaseKeepsSound(c, ReadWriteKind);
    ReleaseKeepsSound(l, ReadWriteKind);
    LetGoSplitsExactly(c, l, call);
    var x, y := Events(Release(c, ReadWriteKind).1), Events(Release(l, ReadWriteKind).1);
    if |x| == |y| {
      assert x == y;
    }
  }

  lemma LetGoSplitsExactly(c: Atomic, l: Atomic, call: Call)
    requires Twins(c, l) && c.held > 0 && call.Finish?
    ensures LetGo(c, ReadWriteKind) == LetGo(l, ReadWriteKind) <==> !Splits(c, l, call)
    ensures |Release(c, ReadWriteKind).1| == LetGo(c, ReadWriteKind)
    ensures |Release(l, ReadWriteKind).1| == LetGo(l, ReadWriteKind)
  {
    if c.held == 1 && c.waiters != [] {
      var cq, lq := c.waiters[1..], l.waiters[1..];
      assert TwinWaiters(cq, lq);
      BatchesDifferExactly(cq, lq, c.data);
      assert |lq| > 0 ==> lq[0] == l.waiters[1];
    }
  }

  // One call of both guards: they answer alike if and only if it does not split them, and
  // then they are twins again.
  lemma CallSplitsExactly(c: Atomic, l: Atomic, call: Call, resolved: Call)
    requires Twins(c, l) && ResolvesTo(call, resolved, c.data)
    requires (call.Finish? ==> c.held > 0) && (call.Request? ==> call.w.wtype != Exclusive)
    ensures var (c', x) := Answered(c, ReadWriteKind, call);
            var (l', y) := Answered(l, ReadWriteKind, resolved);
            (x == y <==> !Splits(c, l, call)) && (x == y ==> Twins(c', l'))
  {
    match call
    case Request(_) => RequestSplitsExactly(c, l, call, resolved);
    case Finish(_) => FinishSplitsExactly(c, l, call, resolved);
    case SetData(_) =>
  }

  // No call of the history splits the two guards.
  ghost predicate NeverSplits(c: Atomic, l: Atomic, calls: seq<Call>, resolved: seq<Call>)
    requires |calls| == |resolved|
    decreases |calls|
  {
    calls == [] ||
    var c', l' := Answered(c, ReadWriteKind, calls[0]).0, Answered(l, ReadWriteKind, resolved[0]).0;
    !Splits(c, l, calls[0]) && NeverSplits(c', l', calls[1..], resolved[1..])
  }

  // Every history: all answers agree if and only if no call splits.
  lemma AgreeExactly(calls: seq<Call>, resolved: seq<Call>)
    requires Resolution(calls, resolved)
    requires RunAll(Fresh, ReadWriteKind, calls).Some? && RunAll(Fresh, ReadWriteKind, resolved).Some?
    ensures var (classic, c) := AnswersTo(Fresh, ReadWriteKind, calls);
            var (lockFree, l) := AnswersTo(Fresh, ReadWriteKind, resolved);
            && (classic == lockFree <==> NeverSplits(Unused, Unused, calls, resolved))
            && (classic == lockFree ==> Twins(c, l))
  {
    assert calls[0..] == calls && resolved[0..] == resolved;
    AgreeExactlyFrom(Fresh, Fresh, calls, resolved, 0);
  }

  lemma {:induction false} AgreeExactlyFrom(c: History, l: History, calls: seq<Call>, resolved: seq<Call>, i: nat)
    requires Resolution(calls, resolved) && i <= |calls|
    requires Recorded(c, ReadWriteKind) && Recorded(l, ReadWriteKind) && Twins(c.a, l.a)
    requires c.a.data == DataAt(resolved, i)
    requires RunAll(c, ReadWriteKind, calls[i..]).Some? && RunAll(l, ReadWriteKind, resolved[i..]).Some?
    ensures var (classic, a) := AnswersTo(c, ReadWriteKind, calls[i..]);
            var (lockFree, b) := AnswersTo(l, ReadWriteKind, resolved[i..]);
            && (classic == lockFree <==> NeverSplits(c.a, l.a, calls[i..], resolved[i..]))
            && (classic == lockFree ==> Twins(a, b))
    decreases |calls| - i
  {
    hide Run1, Recorded, Answered, Twins, Splits;
    if i < |calls| {
      NextAnswers(c, calls, i);
      NextAnswers(l, resolved, i);
      NotExclusive(l, calls, resolved, i);
      CallSplitsExactly(c.a, l.a, calls[i], resolved[i]);
      var c', l' := Run1(c, ReadWriteKind, calls[i]), Run1(l, ReadWriteKind, resolved[i]);
      SameSeq(Answered(c.a, ReadWriteKind, calls[i]).1, AnswersTo(c', ReadWriteKind, calls[i + 1..]).0,
              Answered(l.a, ReadWriteKind, resolved[i]).1, AnswersTo(l', ReadWriteKind, resolved[i + 1..]).0);
      if !Splits(c.a, l.a, calls[i]) {
        DataMovesOn(c.a, calls[i]);
        AgreeExactlyFrom(c', l', calls, resolved, i + 1);
      }
    }
  }

  lemma SameSeq<T>(x: T, xs: seq<T>, y: T, ys: seq<T>)
    ensures [x] + xs == [y] + ys <==> x == y && xs == ys
  {
    assert ([x] + xs)[0] == x && ([x] + xs)[1..] == xs;
    assert ([y] + ys)[0] == y && ([y] + ys)[1..] == ys;
  }

  lemma NextAnswers(h: History, calls: seq<Call>, i: nat)
    requires i < |calls| && Recorded(h, ReadWriteKind) && RunAll(h, ReadWriteKind, calls[i..]).Some?
    ensures Allowed(h, ReadWriteKind, calls[i]) && (calls[i].Finish? ==> h.a.held > 0)
    ensures calls[i..][0] == calls[i] && calls[i..][1..] == calls[i + 1..]
    ensures var h' := Run1(h, ReadWriteKind, calls[i]);
            && Recorded(h', ReadWriteKind)
            && h'.a == Answered(h.a, ReadWriteKind, calls[i]).0
            && RunAll(h', ReadWriteKind, calls[i + 1..]).Some?
            && AnswersTo(h, ReadWriteKind, calls[i..]).0 ==
               [Answered(h.a, ReadWriteKind, calls[i]).1] + AnswersTo(h', ReadWriteKind, calls[i + 1..]).0
            && AnswersTo(h, ReadWriteKind, calls[i..]).1 == AnswersTo(h', ReadWriteKind, calls[i + 1..]).1
  {
    assert calls[i..][0] == calls[i] && calls[i..][1..] == calls[i + 1..];
    CallKeepsRecorded(h, ReadWriteKind, calls[i]);
  }

  lemma DataMovesOn(a: Atomic, call: Call)
    ensures Answered(a, ReadWriteKind, call).0.data == if call.SetData? then call.data else a.data
  {
  }

  // Both guards run over the same history.
  method LockstepExactly(calls: seq<Call>, ghost resolved: seq<Call>)
    returns (classic: seq<Answer>, lockFree: seq<Answer>, classicHeld: nat, lockFreeHeld: nat)
    requires Resolution(calls, resolved)
    requires RunAll(Fresh, ReadWriteKind, calls).Some? && RunAll(Fresh, ReadWriteKind, resolved).Some?
    ensures classic == lockFree <==> NeverSplits(Unused, Unused, calls, resolved)
    ensures classic == lockFree ==> classicHeld == lockFreeHeld
  {
    classic, classicHeld := RunReadWrite(calls);
    lockFree, lockFreeHeld := RunLockFree(calls, resolved);
    AgreeExactly(calls, resolved);
  }

  // In particular the guards agree on every history in which the data stays null.
  lemma AgreeOnNullData(calls: seq<Call>, resolved: seq<Call>)
    requires Resolution(calls, resolved)
    requires RunAll(Fresh, ReadWriteKind, calls).Some? && RunAll(Fresh, ReadWriteKind, resolved).Some?
    requires forall i :: 0 <= i < |calls| && calls[i].SetData? ==> calls[i].data == None
    ensures AnswersTo(Fresh, ReadWriteKind, calls).0 == AnswersTo(Fresh, ReadWriteKind, resolved).0
  {
    assert calls[0..] == calls && resolved[0..] == resolved;
    NullDataNeverSplits(Fresh, Fresh, calls, resolved, 0);
    AgreeExactly(calls, resolved);
  }

  // While the data is null, all upgradeables are writers.
  ghost predicate NullTwins(c: Atomic, l: Atomic) {
    && Twins(c, l) && c.data == None
    && (c.mode == Some(Upgradeable) ==> l.mode == Some(Write))
    && forall i :: 0 <= i < |c.waiters| && c.waiters[i].wtype == Upgradeable ==> l.waiters[i].wtype == Write
  }

  lemma NullDataCall(c: Atomic, l: Atomic, call: Call, resolved: Call)
    requires NullTwins(c, l) && ResolvesTo(call, resolved, None) && (call.SetData? ==> call.data == None)
    requires (call.Finish? ==> c.held > 0) && (call.Request? ==> call.w.wtype != Exclusive)
    ensures !Splits(c, l, call)
    ensures NullTwins(Answered(c, ReadWriteKind, call).0, Answered(l, ReadWriteKind, resolved).0)
  {
    CallSplitsExactly(c, l, call, resolved);
    if call.Finish? {
      LetGoSplitsExactly(c, l, call);
    }
  }

  lemma {:induction false} NullDataNeverSplits(c: History, l: History, calls: seq<Call>, resolved: seq<Call>, i: nat)
    requires Resolution(calls, resolved) && i <= |calls|
    requires Recorded(c, ReadWriteKind) && Recorded(l, ReadWriteKind) && NullTwins(c.a, l.a)
    requires c.a.data == DataAt(resolved, i)
    requires RunAll(c, ReadWriteKind, calls[i..]).Some? && RunAll(l, ReadWriteKind, resolved[i..]).Some?
    requires forall k :: 0 <= k < |calls| && calls[k].SetData? ==> calls[k].data == None
    ensures NeverSplits(c.a, l.a, calls[i..], resolved[i..])
    decreases |calls| - i
  {
    hide Run1, Recorded, Answered, Twins, Splits;
    if i < |calls| {
      NextAnswers(c, calls, i);
      NextAnswers(l, resolved, i);
      NotExclusive(l, calls, resolved, i);
      NullDataCall(c.a, l.a, calls[i], resolved[i]);
      var c', l' := Run1(c, ReadWriteKind, calls[i]), Run1(l, ReadWriteKind, resolved[i]);
      NullDataNeverSplits(c', l', calls, resolved, i + 1);
    }
  }

  // ---------------------------------------------------------------------------
  // Reading null data
  // ---------------------------------------------------------------------------

  lemma {:induction false} RequestAt(calls: seq<Call>, i: nat)
    requires i < |calls| && calls[i].Request?
    ensures |Requests(calls[..i])| < |Requests(calls)| && Requests(calls)[|Requests(calls[..i])|] == calls[i].w
    decreases |calls|
  {
    if i > 0 {
      assert calls[..i][0] == calls[0] && calls[..i][1..] == calls[1..][..i - 1];
      RequestAt(calls[1..], i - 1);
    }
  }

  lemma {:induction false} DataOfRun(h: History, calls: seq<Call>, i: nat, k: nat)
    requires i <= k <= |calls| && RunAll(h, ReadWriteKind, calls[i..k]).Some? && h.a.data == DataAt(calls, i)
    ensures RunAll(h, ReadWriteKind, calls[i..k]).value.a.data == DataAt(calls, k)
    decreases k - i
  {
    if i < k {
      assert calls[i..k][0] == calls[i] && calls[i..k][1..] == calls[i + 1..k];
      DataOfRun(Run1(h, ReadWriteKind, calls[i]), calls, i + 1, k);
    }
  }

  // Those that a call grants the guard hold it in its mode, if none of them is upgradeable.
  lemma GrantedInMode(h: History, call: Call, n: nat)
    requires Recorded(h, ReadWriteKind) && Allowed(h, ReadWriteKind, call)
    requires forall w :: w in h.requested ==> w.wtype != Upgradeable
    requires call.Request? ==> call.w.wtype != Upgradeable
    requires |h.granted| <= n < |Run1(h, ReadWriteKind, call).granted|
    ensures var h' := Run1(h, ReadWriteKind, call);
            h'.a.mode == Some(h'.granted[n].wtype)
  {
    if call.Finish? {
      CallKeepsRecorded(h, ReadWriteKind, call);
      var k := n - |h.granted|;
      assert h.a.waiters[k] in h.requested;
      LetGoFits(h.a, ReadWriteKind, k);
    }
  }

  // The source promises that null data is not grabbed for Read.  An upgradeable request,
  // made by call i and granted by call k, reads null data if and only if there was data
  // when it was made and is none when it is granted.
  lemma ReadsNullExactly(calls: seq<Call>, resolved: seq<Call>, i: nat, k: nat)
    requires Resolution(calls, resolved) && i <= k < |calls|
    requires calls[i].Request? && calls[i].w.wtype == Upgradeable
    requires RunAll(Fresh, ReadWriteKind, resolved[..k]).Some?
    requires Allowed(RunAll(Fresh, ReadWriteKind, resolved[..k]).value, ReadWriteKind, resolved[k])
    requires var h := RunAll(Fresh, ReadWriteKind, resolved[..k]).value;
             |h.granted| <= |Requests(resolved[..i])| < |Run1(h, ReadWriteKind, resolved[k]).granted|
    ensures var a := Run1(RunAll(Fresh, ReadWriteKind, resolved[..k]).value, ReadWriteKind, resolved[k]).a;
            a.mode == Some(Read) && a.data == None <==> DataAt(resolved, i).Some? && DataAt(resolved, k) == None
  {
    var h := RunAll(Fresh, ReadWriteKind, resolved[..k]).value;
    hide Run1, RunAll, Requests, Sound;
    HistoryIsRecorded(Fresh, ReadWriteKind, resolved[..k]);
    DataOfRun(Fresh, resolved, 0, k);
    RecordedIsCalled(ReadWriteKind, resolved[..k]);
    GrantedIsRequested(h, calls, resolved, i, k);
    ResolvedAt(calls, resolved, i);
  }

  lemma ResolvedAt(calls: seq<Call>, resolved: seq<Call>, i: nat)
    requires Resolution(calls, resolved) && i < |calls|
    ensures resolved[i].Request? <==> calls[i].Request?
    ensures resolved[i].Request? ==> resolved[i].w.wtype != Upgradeable
    ensures calls[i].Request? && calls[i].w.wtype == Upgradeable ==>
              (resolved[i].w.wtype == Read <==> DataAt(resolved, i).Some?)
  {
    assert ResolvesTo(calls[i], resolved[i], DataAt(resolved, i));
  }

  lemma GrantedIsRequested(h: History, calls: seq<Call>, resolved: seq<Call>, i: nat, k: nat)
    requires Resolution(calls, resolved) && i <= k < |calls| && calls[i].Request?
    requires Recorded(h, ReadWriteKind) && h.requested == Requests(resolved[..k])
    requires Allowed(h, ReadWriteKind, resolved[k])
    requires |h.granted| <= |Requests(resolved[..i])| < |Run1(h, ReadWriteKind, resolved[k]).granted|
    ensures var h' := Run1(h, ReadWriteKind, resolved[k]);
            h'.a.mode == Some(resolved[i].w.wtype) && h'.a.data == h.a.data
  {
    assert |resolved| == |calls|;
    hide Requests, Allowed, Recorded, Run1, Resolution, DataAt;
    var n := |Requests(resolved[..i])|;
    ResolvedAt(calls, resolved, i);
    ResolvedAt(calls, resolved, k);
    NobodyUpgradeable(calls, resolved, k);
    GrantedInMode(h, resolved[k], n);
    GrantMovesOn(h, resolved[k], n);
    if i < k {
      assert resolved[..k][..i] == resolved[..i];
      RequestAt(resolved[..k], i);
    }
  }

  // What a call grants comes from the requests.
  lemma GrantMovesOn(h: History, call: Call, n: nat)
    requires Recorded(h, ReadWriteKind) && Allowed(h, ReadWriteKind, call)
    requires |h.granted| <= n < |Run1(h, ReadWriteKind, call).granted|
    ensures var h' := Run1(h, ReadWriteKind, call);
            && h'.a.data == h.a.data
            && n <= |h.requested| && (n == |h.requested| ==> call.Request?)
            && h'.granted[n] == if n < |h.requested| then h.requested[n] else call.w
  {
    CallKeepsRecorded(h, ReadWriteKind, call);
    CallRequests(h, ReadWriteKind, call);
    var h' := Run1(h, ReadWriteKind, call);
    hide Run1, Allowed;
    assert h'.granted + h'.a.waiters == h'.requested;
    assert h'.granted[n] == h'.requested[n];
  }

  lemma NobodyUpgradeable(calls: seq<Call>, resolved: seq<Call>, k: nat)
    requires Resolution(calls, resolved) && k <= |resolved|
    ensures forall w :: w in Requests(resolved[..k]) ==> w.wtype != Upgradeable
  {
    RequestsSound(resolved[..k]);
  }

  lemma {:induction false} RequestsSound(calls: seq<Call>)
    requires forall i :: 0 <= i < |calls| && calls[i].Request? ==> calls[i].w.wtype != Upgradeable
    ensures forall w :: w in Requests(calls) ==> w.wtype != Upgradeable
    decreases |calls|
  {
    if calls != [] {
      RequestsSound(calls[1..]);
    }
  }

  lemma RunFrom(h: History, calls: seq<Call>, i: nat)
    requires i <= |calls| && (i < |calls| ==> Allowed(h, ReadWriteKind, calls[i]))
    ensures RunAll(h, ReadWriteKind, calls[i..]) ==
            if i == |calls| then Some(h) else RunAll(Run1(h, ReadWriteKind, calls[i]), ReadWriteKind, calls[i + 1..])
  {
    assert i < |calls| ==> calls[i..][0] == calls[i] && calls[i..][1..] == calls[i + 1..];
  }

  lemma FiveCalls(h0: History, h1: History, h2: History, h3: History, h4: History, calls: seq<Call>)
    requires |calls| == 5 && Allowed(h0, ReadWriteKind, calls[0]) && Run1(h0, ReadWriteKind, calls[0]) == h1
    requires Allowed(h1, ReadWriteKind, calls[1]) && Run1(h1, ReadWriteKind, calls[1]) == h2
    requires Allowed(h2, ReadWriteKind, calls[2]) && Run1(h2, ReadWriteKind, calls[2]) == h3
    requires Allowed(h3, ReadWriteKind, calls[3]) && Run1(h3, ReadWriteKind, calls[3]) == h4
    requires Allowed(h4, ReadWriteKind, calls[4])
    ensures RunAll(h0, ReadWriteKind, calls) == Some(Run1(h4, ReadWriteKind, calls[4]))
  {
    hide Run1, Allowed, RunAll;
    assert calls[0..] == calls;
    RunFrom(h0, calls, 0);
    RunFrom(h1, calls, 1);
    RunFrom(h2, calls, 2);
    RunFrom(h3, calls, 3);
    RunFrom(h4, calls, 4);
    RunFrom(Run1(h4, ReadWriteKind, calls[4]), calls, 5);
  }

  lemma WriterThenReader(w: Waiter, r: Waiter, d: Data)
    requires w.wtype == Write && r.wtype == Read
    ensures var h1 := Fresh.(a := Unused.(data := Some(d)));
            var h2 := History(Atomic(1, Some(Write), [], Some(d)), [w], [w], multiset{w});
            var h3 := History(Atomic(1, Some(Write), [r], Some(d)), [w, r], [w], multiset{w});
            && Run1(Fresh, ReadWriteKind, SetData(Some(d))) == h1
            && Run1(h1, ReadWriteKind, Request(w)) == h2
            && Run1(h2, ReadWriteKind, Request(r)) == h3
            && Run1(h3, ReadWriteKind, SetData(None)) == h3.(a := h3.a.(data := None))
  {
    assert [] + [w] == [w] && [] + [r] == [r] && [w] + [r] == [w, r];
    assert Waiter(r.event, r.wtype) == r;
  }

  lemma HandsOver(h: History, w: Waiter, r: Waiter)
    requires h.a == Atomic(1, Some(Write), [r], None) && r.wtype == Read && h.holding == multiset{w}
    ensures var h' := Run1(h, ReadWriteKind, Finish(w));
            h'.a.mode == Some(Read) && h'.a.data == None && h'.holding == multiset{r}
  {
    assert [r][1..] == [] && [r][..1] == [r];
    assert multiset([r]) == multiset{r};
  }

  // Such a run: a writer clears the data while an upgradeable waits.
  lemma UpgradeableReadsNull(writer: EventId, up: EventId, d: Data)
    ensures var (w, u) := (Waiter(writer, Write), Waiter(up, Upgradeable));
            var calls := [SetData(Some(d)), Request(w), Request(u), SetData(None), Finish(w)];
            var resolved := [SetData(Some(d)), Request(w), Request(Waiter(up, Read)), SetData(None), Finish(w)];
            && Resolution(calls, resolved)
            && RunAll(Fresh, ReadWriteKind, resolved).Some?
            && var h := RunAll(Fresh, ReadWriteKind, resolved).value;
               h.a.mode == Some(Read) && h.a.data == None && h.holding == multiset{Waiter(up, Read)}
  {
    var w, u, r := Waiter(writer, Write), Waiter(up, Upgradeable), Waiter(up, Read);
    var d0, d1 := SetData(Some(d)), SetData(None);
    var calls, resolved := [d0, Request(w), Request(u), d1, Finish(w)], [d0, Request(w), Request(r), d1, Finish(w)];
    assert Resolution(calls, resolved) by {
      assert DataAt(resolved, 2) == DataAt(resolved, 1) == Some(d);
    }
    hide RunAll, Run1, Resolution, DataAt;
    var h1 := Fresh.(a := Unused.(data := Some(d)));
    var h2 := History(Atomic(1, Some(Write), [], Some(d)), [w], [w], multiset{w});
    var h3 := History(Atomic(1, Some(Write), [r], Some(d)), [w, r], [w], multiset{w});
    var h4 := h3.(a := h3.a.(data := None));
    WriterThenReader(w, r, d);
    HandsOver(h4, w, r);
    FiveCalls(Fresh, h1, h2, h3, h4, resolved);
  }
}
