/**
 * The hash table of src/runtime/lockfree/atomic/OFluxLFHashTable.h, called one operation
 * at a time: a chain of tables, each being copied into the next, entry by entry.  At
 * every stage of the copies the chain stands for one finite map.
 */
module HashTable {
  import opened Basics

  type Key = nat
  type Datum = nat
  type HashFunction = Key -> nat

  const MinScale := 4
  const EntriesPerBucket := 4
  const EntriesPerCopyChunk := 4

  // What the value word of an entry can be.  The tag is its lowest bit; Copied is the
  // tagged null.
  datatype Value =
    | DoesNotExist
    | Copied
    | TombStone
    | TaggedTombStone
    | Val(datum: Datum)
    | TaggedVal(datum: Datum)

  datatype Entry = Entry(key: Option<Key>, value: Value)

  // Cas_Expect: the words 0, -1 and -2, or a datum.
  datatype Expect = Whatever | Exists | NotThere | Is(datum: Datum)

  datatype Table = Table(scale: nat, entries: seq<Entry>, count: int, numCopied: nat, copyScan: nat)

  predicate Tagged(v: Value) {
    v.Copied? || v.TaggedTombStone? || v.TaggedVal?
  }

  // Moved on to the next table for good.
  predicate Done(v: Value) {
    v.Copied? || v.TaggedTombStone?
  }

  // ---------------------------------------------------------------------------
  // Probing
  // ---------------------------------------------------------------------------

  function ProbeCount(scale: nat): (n: nat)
    ensures n > 0
  {
    var probe, quarter := scale * 3 / 2 + 2, (if scale < 2 then 0 else Pow2(scale - 2)) / EntriesPerBucket;
    if probe > quarter && quarter > 4 then quarter else probe
  }

  // h >> n
  function Shifted(h: nat, n: nat): nat {
    if n == 0 then h else Shifted(h / 2, n - 1)
  }

  function NextIndex(index: nat, h: nat, scale: nat): (i: nat)
    ensures i < Pow2(scale)
  {
    var incr := Shifted(h, if scale < 32 then 32 - scale else 0);
    Slot(index + Stride(incr), Pow2(scale))
  }

  function Stride(incr: nat): nat {
    if incr < EntriesPerBucket then incr + EntriesPerBucket else incr
  }

  // The bucket of an index, starting from the index and wrapping around.
  function InBucket(index: nat, j: nat): nat {
    index / EntriesPerBucket * EntriesPerBucket + (index + j) % EntriesPerBucket
  }

  lemma PowerIsBuckets(scale: nat)
    requires scale >= 2
    ensures Pow2(scale) % EntriesPerBucket == 0
  {
    assert Pow2(scale) == 4 * Pow2(scale - 2);
  }

  lemma InBucketFits(index: nat, j: nat, scale: nat)
    requires index < Pow2(scale) && scale >= 2
    ensures InBucket(index, j) < Pow2(scale)
  {
    PowerIsBuckets(scale);
    var q := Pow2(scale) / EntriesPerBucket;
    assert Pow2(scale) == q * EntriesPerBucket;
    assert index / EntriesPerBucket < q;
  }

  ghost predicate InRange(path: seq<nat>, size: nat) {
    forall i :: 0 <= i < |path| ==> path[i] < size
  }

  function BucketPath(index: nat, j: nat): seq<nat>
    requires j <= EntriesPerBucket
    decreases EntriesPerBucket - j
  {
    if j == EntriesPerBucket then [] else [InBucket(index, j)] + BucketPath(index, j + 1)
  }

  function PathFrom(scale: nat, h: nat, index: nat, probes: nat): seq<nat>
    decreases probes
  {
    if probes == 0 then [] else BucketPath(index, 0) + PathFrom(scale, h, NextIndex(index, h, scale), probes - 1)
  }

  // The slots that lookUp visits, in order.
  function Path(scale: nat, h: nat): seq<nat> {
    PathFrom(scale, h, Slot(h, Pow2(scale)), ProbeCount(scale))
  }

  lemma {:induction false} BucketPathFits(index: nat, j: nat, scale: nat)
    requires index < Pow2(scale) && scale >= 2 && j <= EntriesPerBucket
    ensures InRange(BucketPath(index, j), Pow2(scale))
    decreases EntriesPerBucket - j
  {
    if j < EntriesPerBucket {
      InBucketFits(index, j, scale);
      BucketPathFits(index, j + 1, scale);
    }
  }

  lemma {:induction false} PathFits(scale: nat, h: nat, index: nat, probes: nat)
    requires index < Pow2(scale) && scale >= 2
    ensures InRange(PathFrom(scale, h, index, probes), Pow2(scale))
    decreases probes
  {
    hide Pow2, NextIndex, BucketPath;
    if probes > 0 {
      BucketPathFits(index, 0, scale);
      PathFits(scale, h, NextIndex(index, h, scale), probes - 1);
    }
  }

  datatype Spot = Found(slot: nat) | Empty(slot: nat) | Full

  // The first slot of the path that holds k or nothing.
  function Locate(entries: seq<Entry>, path: seq<nat>, k: Key): Spot
    decreases |path|
  {
    if path == [] then Full
    else if path[0] >= |entries| then Full
    else match entries[path[0]].key
      case None => Empty(path[0])
      case Some(x) => if x == k then Found(path[0]) else Locate(entries, path[1..], k)
  }

  function At(t: Table, k: Key, hash: HashFunction): Spot {
    Locate(t.entries, Path(t.scale, hash(k)), k)
  }

  lemma {:induction false} LocateSpot(entries: seq<Entry>, path: seq<nat>, k: Key)
    ensures match Locate(entries, path, k)
            case Found(s) => s < |entries| && entries[s].key == Some(k)
            case Empty(s) => s < |entries| && entries[s].key == None
            case Full => true
    decreases |path|
  {
    if path != [] && path[0] < |entries| && entries[path[0]].key.Some? && entries[path[0]].key.value != k {
      LocateSpot(entries, path[1..], k);
    }
  }

  // Only the keys matter.
  lemma {:induction false} LocateByKeys(entries: seq<Entry>, entries': seq<Entry>, path: seq<nat>, k: Key)
    requires |entries'| == |entries| && forall s :: 0 <= s < |entries| ==> entries'[s].key == entries[s].key
    ensures Locate(entries', path, k) == Locate(entries, path, k)
    decreases |path|
  {
    if path != [] && path[0] < |entries| && entries[path[0]].key.Some? && entries[path[0]].key.value != k {
      LocateByKeys(entries, entries', path[1..], k);
    }
  }

  predicate HeldBefore(entries: seq<Entry>, spot: Spot, x: Key) {
    spot.Found? ==> spot.slot < |entries| && entries[spot.slot].key == Some(x)
  }

  // k is put into slot s, which was empty.
  lemma {:induction false} LocateInstalled(entries: seq<Entry>, path: seq<nat>, x: Key, s: nat, k: Key, v: Value)
    requires s < |entries| && entries[s].key == None
    ensures var entries' := entries[s := Entry(Some(k), v)];
            match Locate(entries, path, x)
            case Full => Locate(entries', path, x) == Full
            case Found(r) => Locate(entries', path, x) == Found(r)
            case Empty(r) => if r != s then Locate(entries', path, x) == Empty(r)
                             else if x == k then Locate(entries', path, x) == Found(s)
                             else HeldBefore(entries, Locate(entries', path, x), x)
    decreases |path|
  {
    if path != [] && path[0] < |entries| {
      LocateInstalled(entries, path[1..], x, s, k, v);
      if path[0] == s && x != k {
        LocateSpot(entries[s := Entry(Some(k), v)], path[1..], x);
      }
    }
  }

  // ---------------------------------------------------------------------------
  // One table
  // ---------------------------------------------------------------------------

  // Every key in the table is where a search for it ends.
  ghost predicate TableOk(t: Table, hash: HashFunction) {
    && t.scale >= MinScale && |t.entries| == Pow2(t.scale)
    && (forall s :: 0 <= s < |t.entries| && t.entries[s].key.Some? ==>
          At(t, t.entries[s].key.value, hash) == Found(s) && t.entries[s].value != DoesNotExist)
    && (forall s :: 0 <= s < |t.entries| && t.entries[s].key.None? ==>
          t.entries[s].value == DoesNotExist || t.entries[s].value == Copied)
  }

  function Put(t: Table, s: nat, e: Entry): Table
    requires s < |t.entries|
  {
    t.(entries := t.entries[s := e])
  }

  // Searches are not disturbed by a change of value.
  lemma SetKeeps(t: Table, s: nat, e: Entry, hash: HashFunction)
    requires TableOk(t, hash) && s < |t.entries| && e.key == t.entries[s].key
    requires if e.key.Some? then e.value != DoesNotExist else e.value == DoesNotExist || e.value == Copied
    ensures TableOk(Put(t, s, e), hash)
    ensures forall x :: At(Put(t, s, e), x, hash) == At(t, x, hash)
  {
    hide Path;
    forall x
      ensures At(Put(t, s, e), x, hash) == At(t, x, hash)
    {
      LocateByKeys(t.entries, t.entries[s := e], Path(t.scale, hash(x)), x);
    }
  }

  // A new key is found where it was put; other searches end as before, or, if they
  // found nothing, still find nothing.
  lemma InstallKeeps(t: Table, s: nat, k: Key, v: Value, hash: HashFunction)
    requires TableOk(t, hash) && At(t, k, hash) == Empty(s) && v != DoesNotExist
    ensures s < |t.entries| && t.entries[s].key == None
    ensures var t' := Put(t, s, Entry(Some(k), v));
            && TableOk(t', hash) && At(t', k, hash) == Found(s)
            && forall x :: x != k ==>
                 if At(t, x, hash).Empty? then !At(t', x, hash).Found? else At(t', x, hash) == At(t, x, hash)
  {
    hide Path;
    LocateSpot(t.entries, Path(t.scale, hash(k)), k);
    var t' := Put(t, s, Entry(Some(k), v));
    forall x
      ensures x == k ==> At(t', x, hash) == Found(s)
      ensures x != k ==>
                if At(t, x, hash).Empty? then !At(t', x, hash).Found? else At(t', x, hash) == At(t, x, hash)
    {
      LocateInstalled(t.entries, Path(t.scale, hash(x)), x, s, k, v);
    }
  }

  // ---------------------------------------------------------------------------
  // A chain of tables
  // ---------------------------------------------------------------------------

  // A search for k goes on to the next table.
  predicate Passes(t: Table, k: Key, hash: HashFunction) {
    match At(t, k, hash)
    case Full => true
    case Empty(_) => false
    case Found(s) => s < |t.entries| && Tagged(t.entries[s].value)
  }

  predicate Holds(t: Table, k: Key, hash: HashFunction) {
    At(t, k, hash).Found?
  }

  ghost predicate Untagged(t: Table) {
    forall s :: 0 <= s < |t.entries| ==> !Tagged(t.entries[s].value)
  }

  ghost predicate ChainOk(c: seq<Table>, hash: HashFunction) {
    && c != []
    && (forall i :: 0 <= i < |c| ==> TableOk(c[i], hash))
    && Untagged(c[|c| - 1])
    // a key is in a later table only if searches pass the earlier ones
    && Onwards(c, hash)
  }

  ghost predicate Onwards(c: seq<Table>, hash: HashFunction) {
    forall i, j, k :: 0 <= i < j < |c| && Holds(c[j], k, hash) ==> Passes(c[i], k, hash)
  }

  // What the chain gives for k.
  function ValAt(c: seq<Table>, k: Key, hash: HashFunction): Option<Datum>
    decreases |c|
  {
    if c == [] then None
    else match At(c[0], k, hash)
      case Full => ValAt(c[1..], k, hash)
      case Empty(_) => None
      case Found(s) =>
        if s >= |c[0].entries| then None
        else match c[0].entries[s].value
          case Val(d) => Some(d)
          case TaggedVal(d) => Some(d)
          case Copied => ValAt(c[1..], k, hash)
          case TaggedTombStone => ValAt(c[1..], k, hash)
          case TombStone => None
          case DoesNotExist => None
  }

  lemma TailOk(c: seq<Table>, hash: HashFunction)
    requires ChainOk(c, hash) && |c| > 1
    ensures ChainOk(c[1..], hash)
  {
    hide Path;
    var d := c[1..];
    assert forall i :: 0 <= i < |d| ==> d[i] == c[i + 1];
  }

  lemma {:induction false} NowhereIsNone(c: seq<Table>, k: Key, hash: HashFunction)
    requires forall i :: 0 <= i < |c| ==> !Holds(c[i], k, hash)
    ensures ValAt(c, k, hash) == None
    decreases |c|
  {
    hide Path;
    if c != [] {
      assert !Holds(c[0], k, hash);
      NowhereIsNone(c[1..], k, hash);
    }
  }

  // Where a search stops, the key is in no later table.
  lemma StopsHere(c: seq<Table>, i: nat, k: Key, hash: HashFunction)
    requires ChainOk(c, hash) && i < |c| && !Passes(c[i], k, hash)
    ensures ValAt(c[i + 1..], k, hash) == None
    ensures forall j :: i < j < |c| ==> !Holds(c[j], k, hash)
  {
    hide Path;
    NowhereIsNone(c[i + 1..], k, hash);
  }

  // The table at i gets another entry for k at s.
  ghost predicate Fits(c: seq<Table>, i: nat, s: nat, e: Entry, k: Key, hash: HashFunction) {
    && ChainOk(c, hash) && i < |c| && s < |c[i].entries|
    && (At(c[i], k, hash) == Found(s) || At(c[i], k, hash) == Empty(s))
    && e.key == Some(k) && e.value != DoesNotExist && (Tagged(e.value) ==> i < |c| - 1)
    && (forall m :: 0 <= m < i ==> Passes(c[m], k, hash))
    && (Tagged(e.value) || forall j :: i < j < |c| ==> !Holds(c[j], k, hash))
  }

  lemma PutTable(t: Table, s: nat, e: Entry, k: Key, hash: HashFunction)
    requires TableOk(t, hash) && s < |t.entries| && e.key == Some(k) && e.value != DoesNotExist
    requires At(t, k, hash) == Found(s) || At(t, k, hash) == Empty(s)
    ensures var t' := Put(t, s, e);
            && TableOk(t', hash) && At(t', k, hash) == Found(s)
            && forall x :: x != k ==>
                 && (if At(t, x, hash).Empty? then !At(t', x, hash).Found? else At(t', x, hash) == At(t, x, hash))
                 && (At(t, x, hash).Found? ==> At(t, x, hash).slot != s && At(t, x, hash).slot < |t.entries|)
  {
    hide Path;
    LocateSpot(t.entries, Path(t.scale, hash(k)), k);
    if At(t, k, hash).Found? {
      SetKeeps(t, s, e, hash);
    } else {
      InstallKeeps(t, s, k, e.value, hash);
    }
    forall x | x != k && At(t, x, hash).Found?
      ensures At(t, x, hash).slot != s && At(t, x, hash).slot < |t.entries|
    {
      LocateSpot(t.entries, Path(t.scale, hash(x)), x);
    }
  }

  lemma PutPasses(t: Table, s: nat, e: Entry, k: Key, x: Key, hash: HashFunction)
    requires TableOk(t, hash) && s < |t.entries| && e.key == Some(k) && e.value != DoesNotExist
    requires At(t, k, hash) == Found(s) || At(t, k, hash) == Empty(s)
    ensures x != k && Passes(t, x, hash) ==> Passes(Put(t, s, e), x, hash)
    ensures x != k && Holds(Put(t, s, e), x, hash) ==> Holds(t, x, hash)
    ensures Passes(Put(t, s, e), k, hash) <==> Tagged(e.value)
  {
    hide Path;
    PutTable(t, s, e, k, hash);
  }

  lemma PutUntagged(t: Table, s: nat, e: Entry)
    requires s < |t.entries|
    ensures Untagged(t) && !Tagged(e.value) ==> Untagged(Put(t, s, e))
  {
    hide Path;
  }

  lemma PutKeepsOnwards(c: seq<Table>, i: nat, s: nat, e: Entry, k: Key, hash: HashFunction)
    requires Fits(c, i, s, e, k, hash)
    ensures Onwards(c[i := Put(c[i], s, e)], hash)
  {
    hide Path;
    var c' := c[i := Put(c[i], s, e)];
    forall a, b, x | 0 <= a < b < |c'| && Holds(c'[b], x, hash)
      ensures Passes(c'[a], x, hash)
    {
      PutPasses(c[i], s, e, k, x, hash);
      hide At, Passes, Holds, TableOk, Put, Untagged;
      if b == i && x == k {
        assert Passes(c[a], x, hash);
      } else {
        assert Holds(c[b], x, hash);
        assert Passes(c[a], x, hash);
      }
    }
  }

  lemma PutKeepsChain(c: seq<Table>, i: nat, s: nat, e: Entry, k: Key, hash: HashFunction)
    requires Fits(c, i, s, e, k, hash)
    ensures ChainOk(c[i := Put(c[i], s, e)], hash)
  {
    hide Path;
    var t' := Put(c[i], s, e);
    PutTable(c[i], s, e, k, hash);
    PutUntagged(c[i], s, e);
    PutKeepsOnwards(c, i, s, e, k, hash);
    OneReplaced(c, i, t', hash);
  }

  lemma OneReplaced(c: seq<Table>, i: nat, t': Table, hash: HashFunction)
    requires ChainOk(c, hash) && i < |c| && TableOk(t', hash) && (i == |c| - 1 ==> Untagged(t'))
    requires Onwards(c[i := t'], hash)
    ensures ChainOk(c[i := t'], hash)
  {
    hide Path, TableOk, Onwards, Untagged;
  }

  lemma PutKeepsOthersHere(c: seq<Table>, s: nat, e: Entry, k: Key, x: Key, hash: HashFunction)
    requires ChainOk(c, hash) && s < |c[0].entries| && e.key == Some(k) && e.value != DoesNotExist && x != k
    requires At(c[0], k, hash) == Found(s) || At(c[0], k, hash) == Empty(s)
    ensures ValAt([Put(c[0], s, e)] + c[1..], x, hash) == ValAt(c, x, hash)
  {
    hide Path;
    PutTable(c[0], s, e, k, hash);
    hide At, TableOk, Onwards;
    if At(c[0], x, hash).Empty? {
      StopsHere(c, 0, x, hash);
    }
  }

  lemma {:induction false} PutKeepsOthers(c: seq<Table>, i: nat, s: nat, e: Entry, k: Key, x: Key, hash: HashFunction)
    requires ChainOk(c, hash) && i < |c| && s < |c[i].entries| && e.key == Some(k) && e.value != DoesNotExist && x != k
    requires At(c[i], k, hash) == Found(s) || At(c[i], k, hash) == Empty(s)
    ensures ValAt(c[i := Put(c[i], s, e)], x, hash) == ValAt(c, x, hash)
    decreases i
  {
    hide Path, ChainOk, At, ValAt, Put;
    var c' := c[i := Put(c[i], s, e)];
    if i == 0 {
      PutKeepsOthersHere(c, s, e, k, x, hash);
      assert c' == [Put(c[0], s, e)] + c[1..];
    } else {
      TailOk(c, hash);
      PutKeepsOthers(c[1..], i - 1, s, e, k, x, hash);
      assert c'[1..] == c[1..][i - 1 := Put(c[i], s, e)];
      SameHead(c, c', x, hash);
    }
  }

  lemma SameHead(c: seq<Table>, c': seq<Table>, x: Key, hash: HashFunction)
    requires c != [] && c' != [] && c'[0] == c[0] && ValAt(c'[1..], x, hash) == ValAt(c[1..], x, hash)
    ensures ValAt(c', x, hash) == ValAt(c, x, hash)
  {
    hide Path;
  }

  // Searches for k go on past the first i tables.
  ghost predicate PassesAll(c: seq<Table>, i: nat, k: Key, hash: HashFunction) {
    i <= |c| && forall m :: 0 <= m < i ==> Passes(c[m], k, hash) && !HalfMoved(c[m], k, hash)
  }

  // Tagged, but not yet marked as copied.
  predicate HalfMoved(t: Table, k: Key, hash: HashFunction) {
    match At(t, k, hash)
    case Found(s) => s < |t.entries| && t.entries[s].value.TaggedVal?
    case _ => false
  }

  lemma {:induction false} SkipPassed(c: seq<Table>, i: nat, k: Key, hash: HashFunction)
    requires PassesAll(c, i, k, hash)
    ensures ValAt(c, k, hash) == ValAt(c[i..], k, hash)
    decreases i
  {
    hide Path;
    if i > 0 {
      assert Passes(c[0], k, hash) && !HalfMoved(c[0], k, hash);
      assert forall m :: 0 <= m < i - 1 ==> c[1..][m] == c[m + 1];
      SkipPassed(c[1..], i - 1, k, hash);
      assert c[1..][i - 1..] == c[i..];
    }
  }

  // A slot without a key is marked as copied.
  lemma {:induction false} MarkKeepsVals(c: seq<Table>, i: nat, s: nat, x: Key, hash: HashFunction)
    requires ChainOk(c, hash) && i < |c| - 1 && s < |c[i].entries| && c[i].entries[s].key == None
    ensures ValAt(c[i := Put(c[i], s, Entry(None, Copied))], x, hash) == ValAt(c, x, hash)
    decreases i
  {
    hide Path;
    var c' := c[i := Put(c[i], s, Entry(None, Copied))];
    if i == 0 {
      SetKeeps(c[0], s, Entry(None, Copied), hash);
      assert c'[1..] == c[1..];
      LocateSpot(c[0].entries, Path(c[0].scale, hash(x)), x);
    } else {
      TailOk(c, hash);
      MarkKeepsVals(c[1..], i - 1, s, x, hash);
      assert c'[1..] == c[1..][i - 1 := Put(c[i], s, Entry(None, Copied))];
      SameHead(c, c', x, hash);
    }
  }

  lemma MarkKeepsChain(c: seq<Table>, i: nat, s: nat, hash: HashFunction)
    requires ChainOk(c, hash) && i < |c| - 1 && s < |c[i].entries| && c[i].entries[s].key == None
    ensures ChainOk(c[i := Put(c[i], s, Entry(None, Copied))], hash)
  {
    hide Path;
    var t' := Put(c[i], s, Entry(None, Copied));
    var c' := c[i := t'];
    SetKeeps(c[i], s, Entry(None, Copied), hash);
    forall a, b, x | 0 <= a < b < |c'| && Holds(c'[b], x, hash)
      ensures Passes(c'[a], x, hash)
    {
      assert Holds(c[b], x, hash) && Passes(c[a], x, hash);
      LocateSpot(c[a].entries, Path(c[a].scale, hash(x)), x);
    }
    OneReplaced(c, i, t', hash);
  }

  // A new, empty table at the end.
  function NewTable(scale: nat): Table {
    Table(scale, seq(Pow2(scale), _ => Entry(None, DoesNotExist)), 0, 0, 0)
  }

  lemma NewIsEmpty(scale: nat, x: Key, hash: HashFunction)
    requires scale >= MinScale
    ensures At(NewTable(scale), x, hash).Empty?
    ensures TableOk(NewTable(scale), hash) && Untagged(NewTable(scale))
  {
    var h := hash(x);
    var index := Slot(h, Pow2(scale));
    PathFits(scale, h, index, ProbeCount(scale));
    assert BucketPath(index, 0) == [InBucket(index, 0)] + BucketPath(index, 1);
    assert Path(scale, h)[0] == InBucket(index, 0);
  }

  lemma {:induction false} AppendKeepsVals(c: seq<Table>, scale: nat, x: Key, hash: HashFunction)
    requires scale >= MinScale
    ensures ValAt(c + [NewTable(scale)], x, hash) == ValAt(c, x, hash)
    decreases |c|
  {
    hide Path, NewTable;
    var c' := c + [NewTable(scale)];
    NewIsEmpty(scale, x, hash);
    if c == [] {
      assert c' == [NewTable(scale)];
    } else {
      AppendKeepsVals(c[1..], scale, x, hash);
      assert c'[1..] == c[1..] + [NewTable(scale)];
      SameHead(c, c', x, hash);
    }
  }

  lemma AppendKeepsChain(c: seq<Table>, scale: nat, hash: HashFunction)
    requires ChainOk(c, hash) && scale >= MinScale
    ensures ChainOk(c + [NewTable(scale)], hash)
  {
    hide Path, NewTable, Passes, TableOk, Untagged;
    var c' := c + [NewTable(scale)];
    NewIsEmpty(scale, 0, hash);
    forall a, b, x | 0 <= a < b < |c'| && Holds(c'[b], x, hash)
      ensures Passes(c'[a], x, hash)
    {
      NewIsEmpty(scale, x, hash);
      assert Holds(c[b], x, hash);
    }
  }

  // A table that is copied completely can be unlinked.
  ghost predicate AllDone(t: Table) {
    forall s :: 0 <= s < |t.entries| ==> Done(t.entries[s].value)
  }

  lemma UnlinkKeepsVals(c: seq<Table>, x: Key, hash: HashFunction)
    requires ChainOk(c, hash) && |c| > 1 && AllDone(c[0])
    ensures ChainOk(c[1..], hash) && ValAt(c[1..], x, hash) == ValAt(c, x, hash)
  {
    hide Path;
    TailOk(c, hash);
    if At(c[0], x, hash).Empty? {
      StopsHere(c, 0, x, hash);
    } else if At(c[0], x, hash).Found? {
      LocateSpot(c[0].entries, Path(c[0].scale, hash(x)), x);
    }
  }

  // ---------------------------------------------------------------------------
  // Counting the entries that have moved
  // ---------------------------------------------------------------------------

  function DoneSlots(entries: seq<Entry>): set<nat> {
    set s | 0 <= s < |entries| && Done(entries[s].value)
  }

  lemma DoneAfter(entries: seq<Entry>, s: nat, e: Entry)
    requires s < |entries| && (Done(entries[s].value) ==> Done(e.value))
    ensures |DoneSlots(entries[s := e])| ==
            |DoneSlots(entries)| + if Done(e.value) && !Done(entries[s].value) then 1 else 0
  {
    var before, after := DoneSlots(entries), DoneSlots(entries[s := e]);
    if Done(e.value) && !Done(entries[s].value) {
      assert after == before + {s};
    } else {
      assert after == before;
    }
  }

  function UpTo(n: nat): (all: set<nat>)
    ensures |all| == n && forall x: nat :: x in all <==> x < n
  {
    if n == 0 then {} else UpTo(n - 1) + {n - 1}
  }

  lemma {:induction false} SubsetSize(a: set<nat>, b: set<nat>)
    requires a <= b
    ensures |a| <= |b| && (|a| == |b| ==> a == b)
    decreases |a|
  {
    if a != {} {
      var x :| x in a;
      SubsetSize(a - {x}, b - {x});
      assert a == a - {x} + {x} && b == b - {x} + {x};
    } else if b != {} {
      var y :| y in b;
      assert |b| == |b - {y}| + 1;
    }
  }

  lemma CountedAllDone(t: Table)
    ensures |DoneSlots(t.entries)| <= |t.entries|
    ensures AllDone(t) <==> |DoneSlots(t.entries)| == |t.entries|
  {
    var n := |t.entries|;
    SubsetSize(DoneSlots(t.entries), UpTo(n));
    if |DoneSlots(t.entries)| == n {
      forall s: nat | s < n
        ensures Done(t.entries[s].value)
      {
        assert s in UpTo(n) && s in DoneSlots(t.entries);
      }
    }
    if AllDone(t) {
      forall x: nat | x in UpTo(n)
        ensures x in DoneSlots(t.entries)
      {
      }
      SubsetSize(UpTo(n), DoneSlots(t.entries));
    }
  }

  // ---------------------------------------------------------------------------
  // Compare and swap, on one value
  // ---------------------------------------------------------------------------

  // The words are the same: -2 is both a tombstone and "does not exist".
  predicate SameWord(expected: Expect, v: Value) {
    match expected
    case Whatever => v.DoesNotExist?
    case Exists => v.TaggedTombStone?
    case NotThere => v.TombStone?
    case Is(d) => v == Val(d)
  }

  // What an untagged value becomes.
  function Swapped(v: Value, expected: Expect, new_: Option<Datum>): Value {
    if expected != Whatever && !SameWord(expected, v) && expected != (if v.Val? then Exists else NotThere) then v
    else if (new_.None? && !v.Val?) || (new_.Some? && v == Val(new_.value)) then v
    else if new_.None? then TombStone
    else Val(new_.value)
  }

  function Current(v: Value): Option<Datum> {
    if v.Val? then Some(v.datum) else None
  }

  predicate Accepts(expected: Expect, cur: Option<Datum>) {
    match expected
    case Whatever => true
    case Exists => cur.Some?
    case NotThere => cur.None?
    case Is(d) => cur == Some(d)
  }

  lemma SwapMeans(v: Value, expected: Expect, new_: Option<Datum>)
    requires !Tagged(v)
    ensures var v' := Swapped(v, expected, new_);
            && !Tagged(v') && (v' == DoesNotExist ==> v == DoesNotExist)
            && Current(v') == if Accepts(expected, Current(v)) then new_ else Current(v)
  {
  }

  // ---------------------------------------------------------------------------
  // Where a search for k has arrived
  // ---------------------------------------------------------------------------

  // No entry is half moved, and the counters are right; pending entries of the first
  // table have moved but are not counted yet.
  ghost predicate Clean(c: seq<Table>) {
    forall i, s :: 0 <= i < |c| && 0 <= s < |c[i].entries| ==> !c[i].entries[s].value.TaggedVal?
  }

  ghost predicate Counted(c: seq<Table>, pending: nat) {
    forall i :: 0 <= i < |c| ==>
      && c[i].numCopied + (if i == 0 then pending else 0) == |DoneSlots(c[i].entries)|
      && c[i].copyScan % EntriesPerCopyChunk == 0
  }

  lemma Arrived(c: seq<Table>, i: nat, k: Key, hash: HashFunction)
    requires ChainOk(c, hash) && Clean(c) && i < |c| && PassesAll(c, i, k, hash)
    ensures match At(c[i], k, hash)
            case Full => PassesAll(c, i + 1, k, hash) && (i == |c| - 1 ==> ValAt(c, k, hash) == None)
            case Empty(s) => s < |c[i].entries| && c[i].entries[s].key == None && ValAt(c, k, hash) == None
            case Found(s) =>
              && s < |c[i].entries| && c[i].entries[s].key == Some(k)
              && (if Tagged(c[i].entries[s].value) then i + 1 < |c| && PassesAll(c, i + 1, k, hash)
                  else ValAt(c, k, hash) == Current(c[i].entries[s].value))
  {
    hide Path;
    SkipPassed(c, i, k, hash);
    LocateSpot(c[i].entries, Path(c[i].scale, hash(k)), k);
    assert c[i..][0] == c[i] && c[i..][1..] == c[i + 1..];
    if At(c[i], k, hash).Full? && i == |c| - 1 {
      assert c[i + 1..] == [];
    }
  }

  // The first tables are as before, so searches still pass them.
  lemma StillPassed(c: seq<Table>, i: nat, t': Table, k: Key, hash: HashFunction)
    requires i < |c| && PassesAll(c, i, k, hash)
    ensures PassesAll(c[i := t'], i, k, hash)
  {
    hide Passes, HalfMoved;
    var c' := c[i := t'];
    forall m | 0 <= m < i
      ensures Passes(c'[m], k, hash) && !HalfMoved(c'[m], k, hash)
    {
      assert c'[m] == c[m];
      assert Passes(c[m], k, hash) && !HalfMoved(c[m], k, hash);
    }
  }

  // An untagged value is put where the search for k has arrived.
  lemma PutHere(c: seq<Table>, i: nat, s: nat, v: Value, k: Key, hash: HashFunction)
    requires ChainOk(c, hash) && i < |c| && PassesAll(c, i, k, hash) && s < |c[i].entries|
    requires At(c[i], k, hash) == Found(s) || At(c[i], k, hash) == Empty(s)
    requires !Passes(c[i], k, hash) && !Tagged(v) && v != DoesNotExist
    ensures var c' := c[i := Put(c[i], s, Entry(Some(k), v))];
            && ChainOk(c', hash) && ValAt(c', k, hash) == Current(v)
            && forall x :: x != k ==> ValAt(c', x, hash) == ValAt(c, x, hash)
  {
    hide Path;
    var e := Entry(Some(k), v);
    var t' := Put(c[i], s, e);
    var c' := c[i := t'];
    StopsHere(c, i, k, hash);
    assert forall m :: 0 <= m < i ==> Passes(c[m], k, hash);
    assert Fits(c, i, s, e, k, hash);
    PutKeepsChain(c, i, s, e, k, hash);
    PutTable(c[i], s, e, k, hash);
    StillPassed(c, i, t', k, hash);
    SkipPassed(c', i, k, hash);
    assert c'[i..][0] == t';
    forall x | x != k
      ensures ValAt(c', x, hash) == ValAt(c, x, hash)
    {
      PutKeepsOthers(c, i, s, e, k, x, hash);
    }
  }

  // A key is put into a slot that was already marked as copied.
  lemma PutCopied(c: seq<Table>, i: nat, s: nat, k: Key, hash: HashFunction)
    requires ChainOk(c, hash) && i < |c| - 1 && PassesAll(c, i, k, hash)
    requires At(c[i], k, hash) == Empty(s) && s < |c[i].entries|
    ensures var c' := c[i := Put(c[i], s, Entry(Some(k), Copied))];
            && ChainOk(c', hash) && PassesAll(c', i + 1, k, hash) && At(c'[i], k, hash) == Found(s)
            && forall x :: ValAt(c', x, hash) == ValAt(c, x, hash)
  {
    hide Path;
    var e := Entry(Some(k), Copied);
    var t' := Put(c[i], s, e);
    var c' := c[i := t'];
    assert forall m :: 0 <= m < i ==> Passes(c[m], k, hash);
    assert Fits(c, i, s, e, k, hash);
    PutKeepsChain(c, i, s, e, k, hash);
    PutTable(c[i], s, e, k, hash);
    StillPassed(c, i, t', k, hash);
    assert PassesAll(c', i + 1, k, hash);
    SkipPassed(c', i + 1, k, hash);
    SkipPassed(c, i, k, hash);
    StopsHere(c, i, k, hash);
    assert c[i..][0] == c[i] && c'[i + 1..] == c[i + 1..];
    forall x
      ensures ValAt(c', x, hash) == ValAt(c, x, hash)
    {
      if x != k {
        PutKeepsOthers(c, i, s, e, k, x, hash);
      }
    }
  }

  // ---------------------------------------------------------------------------
  // Moving an entry of the first table
  // ---------------------------------------------------------------------------

  ghost predicate Known(c: seq<Table>, x: Key, hash: HashFunction) {
    exists a :: 0 <= a < |c| && Holds(c[a], x, hash)
  }

  // c' knows no key that c does not, except k.
  ghost predicate NoNewKeys(c: seq<Table>, c': seq<Table>, k: Key, hash: HashFunction) {
    forall b, x :: 0 <= b < |c'| && x != k && Holds(c'[b], x, hash) ==> Known(c, x, hash)
  }

  lemma PutNoNewKeys(c0: seq<Table>, c: seq<Table>, i: nat, s: nat, v: Value, k: Key, hash: HashFunction)
    requires NoNewKeys(c0, c, k, hash) && i < |c| && TableOk(c[i], hash) && s < |c[i].entries| && v != DoesNotExist
    requires At(c[i], k, hash) == Found(s) || At(c[i], k, hash) == Empty(s)
    ensures NoNewKeys(c0, c[i := Put(c[i], s, Entry(Some(k), v))], k, hash)
  {
    hide Path;
    var c' := c[i := Put(c[i], s, Entry(Some(k), v))];
    forall b, x | 0 <= b < |c'| && x != k && Holds(c'[b], x, hash)
      ensures Known(c0, x, hash)
    {
      PutPasses(c[i], s, Entry(Some(k), v), k, x, hash);
      assert Holds(c[b], x, hash);
    }
  }

  lemma AppendNoNewKeys(c0: seq<Table>, c: seq<Table>, scale: nat, k: Key, hash: HashFunction)
    requires NoNewKeys(c0, c, k, hash) && scale >= MinScale
    ensures NoNewKeys(c0, c + [NewTable(scale)], k, hash)
  {
    hide Path, NewTable;
    var c' := c + [NewTable(scale)];
    forall b, x | 0 <= b < |c'| && x != k && Holds(c'[b], x, hash)
      ensures Known(c0, x, hash)
    {
      NewIsEmpty(scale, x, hash);
      assert Holds(c[b], x, hash);
    }
  }

  // The first table's entry for k is in the tables behind it, and can be marked.
  lemma HeadMoved(c: seq<Table>, s: nat, k: Key, tail: seq<Table>, hash: HashFunction)
    requires ChainOk(c, hash) && |c| > 1 && At(c[0], k, hash) == Found(s) && s < |c[0].entries|
    requires c[0].entries[s].key == Some(k) && c[0].entries[s].value.Val?
    requires ChainOk(tail, hash) && ValAt(tail, k, hash) == Some(c[0].entries[s].value.datum)
    requires NoNewKeys(c[1..], tail, k, hash) && forall x :: x != k ==> ValAt(tail, x, hash) == ValAt(c[1..], x, hash)
    ensures var c' := [Put(c[0], s, Entry(Some(k), Copied))] + tail;
            ChainOk(c', hash) && forall x :: ValAt(c', x, hash) == ValAt(c, x, hash)
  {
    hide Path;
    var e := Entry(Some(k), Copied);
    var t := Put(c[0], s, e);
    var c' := [t] + tail;
    PutTable(c[0], s, e, k, hash);
    forall b, x | 0 <= b < |tail| && Holds(tail[b], x, hash)
      ensures Passes(t, x, hash)
    {
      PutPasses(c[0], s, e, k, x, hash);
      if x != k {
        KnownPasses(c, x, hash);
      }
    }
    PrependOk(t, tail, hash);
    forall x
      ensures ValAt(c', x, hash) == ValAt(c, x, hash)
    {
      HeadMovedVal(c, s, k, tail, x, hash);
    }
  }

  lemma HeadMovedVal(c: seq<Table>, s: nat, k: Key, tail: seq<Table>, x: Key, hash: HashFunction)
    requires c != [] && TableOk(c[0], hash) && At(c[0], k, hash) == Found(s) && s < |c[0].entries|
    requires c[0].entries[s].key == Some(k) && c[0].entries[s].value.Val?
    requires ValAt(tail, x, hash) == if x == k then Some(c[0].entries[s].value.datum) else ValAt(c[1..], x, hash)
    ensures ValAt([Put(c[0], s, Entry(Some(k), Copied))] + tail, x, hash) == ValAt(c, x, hash)
  {
    hide Path;
    var e := Entry(Some(k), Copied);
    var c' := [Put(c[0], s, e)] + tail;
    SetKeeps(c[0], s, e, hash);
    assert c'[1..] == tail;
    LocateSpot(c[0].entries, Path(c[0].scale, hash(x)), x);
  }

  lemma KnownPasses(c: seq<Table>, x: Key, hash: HashFunction)
    requires ChainOk(c, hash) && |c| > 1 && Known(c[1..], x, hash)
    ensures Passes(c[0], x, hash)
  {
    hide Path;
    var a :| 0 <= a < |c[1..]| && Holds(c[1..][a], x, hash);
    assert c[1..][a] == c[a + 1];
  }

  lemma PrependOk(t: Table, tail: seq<Table>, hash: HashFunction)
    requires TableOk(t, hash) && ChainOk(tail, hash)
    requires forall b, x :: 0 <= b < |tail| && Holds(tail[b], x, hash) ==> Passes(t, x, hash)
    ensures ChainOk([t] + tail, hash)
  {
    hide Path, TableOk, Untagged;
    var c := [t] + tail;
    forall i, j, x | 0 <= i < j < |c| && Holds(c[j], x, hash)
      ensures Passes(c[i], x, hash)
    {
      assert c[j] == tail[j - 1] && (i > 0 ==> c[i] == tail[i - 1]);
    }
  }

  // A deleted entry of the first table is marked.
  lemma HeadBuried(c: seq<Table>, s: nat, k: Key, hash: HashFunction)
    requires ChainOk(c, hash) && |c| > 1 && At(c[0], k, hash) == Found(s) && s < |c[0].entries|
    requires c[0].entries[s] == Entry(Some(k), TombStone)
    ensures var c' := c[0 := Put(c[0], s, Entry(Some(k), TaggedTombStone))];
            ChainOk(c', hash) && forall x :: ValAt(c', x, hash) == ValAt(c, x, hash)
  {
    hide Path;
    var e := Entry(Some(k), TaggedTombStone);
    var c' := c[0 := Put(c[0], s, e)];
    assert Fits(c, 0, s, e, k, hash);
    PutKeepsChain(c, 0, s, e, k, hash);
    SetKeeps(c[0], s, e, hash);
    StopsHere(c, 0, k, hash);
    assert c'[1..] == c[1..];
    forall x
      ensures ValAt(c', x, hash) == ValAt(c, x, hash)
    {
      LocateSpot(c[0].entries, Path(c[0].scale, hash(x)), x);
    }
  }

  // The counters do not matter to searches.
  ghost predicate SameEntries(t: Table, t': Table) {
    t'.scale == t.scale && t'.entries == t.entries
  }

  lemma {:induction false} CountersKeepVals(c: seq<Table>, i: nat, t': Table, x: Key, hash: HashFunction)
    requires i < |c| && SameEntries(c[i], t')
    ensures ValAt(c[i := t'], x, hash) == ValAt(c, x, hash)
    decreases i
  {
    hide Path;
    var c' := c[i := t'];
    if i == 0 {
      assert c'[1..] == c[1..];
    } else {
      CountersKeepVals(c[1..], i - 1, t', x, hash);
      assert c'[1..] == c[1..][i - 1 := t'];
      SameHead(c, c', x, hash);
    }
  }

  lemma CountersKeepChain(c: seq<Table>, i: nat, t': Table, hash: HashFunction)
    requires ChainOk(c, hash) && i < |c| && SameEntries(c[i], t')
    ensures ChainOk(c[i := t'], hash)
  {
    hide Path;
    var c' := c[i := t'];
    forall a, b, x | 0 <= a < b < |c'| && Holds(c'[b], x, hash)
      ensures Passes(c'[a], x, hash)
    {
      assert Holds(c[b], x, hash) && Passes(c[a], x, hash);
    }
    OneReplaced(c, i, t', hash);
  }

  lemma AppendCounted(c: seq<Table>, pending: nat, scale: nat)
    requires Clean(c) && Counted(c, pending) && c != []
    ensures Clean(c + [NewTable(scale)]) && Counted(c + [NewTable(scale)], pending)
  {
    var c' := c + [NewTable(scale)];
    assert DoneSlots(NewTable(scale).entries) == {};
    forall i | 0 <= i < |c'|
      ensures c'[i].numCopied + (if i == 0 then pending else 0) == |DoneSlots(c'[i].entries)|
      ensures c'[i].copyScan % EntriesPerCopyChunk == 0
    {
      if i < |c| {
        assert c'[i] == c[i];
      }
    }
  }

  // One entry changes, and has or has not moved on as before.
  lemma PutCounted(c: seq<Table>, pending: nat, i: nat, s: nat, e: Entry, n: int)
    requires Clean(c) && Counted(c, pending) && i < |c| && s < |c[i].entries|
    requires !e.value.TaggedVal? && Done(e.value) == Done(c[i].entries[s].value)
    ensures var c' := c[i := Put(c[i], s, e).(count := n)];
            Clean(c') && Counted(c', pending)
  {
    DoneAfter(c[i].entries, s, e);
  }

  // startCopy's scale for the next table; its counter is an unsigned number.
  function NextScale(t: Table): (scale: nat)
    ensures t.scale >= MinScale ==> scale >= MinScale
  {
    if t.scale >= 3 && (t.count < 0 || t.count > Pow2(t.scale - 1) || t.count > Pow2(t.scale - 2) + Pow2(t.scale - 3))
    then t.scale + 1 else t.scale
  }

  // ---------------------------------------------------------------------------
  // The class
  // ---------------------------------------------------------------------------

  class HashTable {
    const hash: HashFunction
    var chain: seq<Table>

    ghost predicate Valid()
      reads this
    {
      ChainOk(chain, hash) && Clean(chain) && Counted(chain, 0)
    }

    // The map that the table is.
    ghost function Map(k: Key): Option<Datum>
      reads this
    {
      ValAt(chain, k, hash)
    }

    constructor (h: HashFunction)
      ensures Valid() && hash == h && forall k :: Map(k) == None
    {
      hash := h;
      chain := [NewTable(MinScale)];
      new;
      forall k
        ensures Map(k) == None
      {
        NewIsEmpty(MinScale, k, hash);
      }
      FirstTableOk(hash);
    }

    // lookUp, in one bucket; rest is the path behind it.
    static method LookInBucket(t: Table, k: Key, index: nat, ghost rest: seq<nat>) returns (spot: Option<Spot>)
      requires t.scale >= MinScale && |t.entries| == Pow2(t.scale) && index < Pow2(t.scale)
      ensures Locate(t.entries, BucketPath(index, 0) + rest, k) ==
              match spot case Some(x) => x case None => Locate(t.entries, rest, k)
    {
      hide Pow2, InBucket;
      ghost var goal := Locate(t.entries, BucketPath(index, 0) + rest, k);
      var j := 0;
      while j < EntriesPerBucket
        invariant j <= EntriesPerBucket
        invariant Locate(t.entries, BucketPath(index, j) + rest, k) == goal
      {
        var slot := InBucket(index, j);
        InBucketFits(index, j, t.scale);
        assert BucketPath(index, j) + rest == [slot] + (BucketPath(index, j + 1) + rest);
        match t.entries[slot].key {
          case None => return Some(Empty(slot));
          case Some(x) =>
            if x == k {
              return Some(Found(slot));
            }
        }
        j := j + 1;
      }
      assert BucketPath(index, j) + rest == rest;
      spot := None;
    }

    // lookUp
    static method LookUp(t: Table, k: Key, h: nat) returns (spot: Spot)
      requires t.scale >= MinScale && |t.entries| == Pow2(t.scale)
      ensures spot == Locate(t.entries, Path(t.scale, h), k)
    {
      var index: nat := Slot(h, Pow2(t.scale));
      var probe := ProbeCount(t.scale);
      hide Pow2, NextIndex, ProbeCount, BucketPath, Locate;
      ghost var goal := Locate(t.entries, Path(t.scale, h), k);
      var i := 0;
      while i < probe
        invariant i <= probe && index < Pow2(t.scale)
        invariant Locate(t.entries, PathFrom(t.scale, h, index, probe - i), k) == goal
      {
        ghost var rest := PathFrom(t.scale, h, NextIndex(index, h, t.scale), probe - i - 1);
        var here := LookInBucket(t, k, index, rest);
        if here.Some? {
          return here.value;
        }
        index := NextIndex(index, h, t.scale);
        i := i + 1;
      }
      NothingLeft(t.entries, k);
      spot := Full;
    }

    // The loop of copyEntry through the tables behind the one that is copied: k gets its
    // datum in the first of them that has room for it and is not itself copied there.
    static method MoveInto(tail: seq<Table>, k: Key, d: Datum, hash: HashFunction) returns (tail': seq<Table>)
      requires ChainOk(tail, hash) && Clean(tail) && Counted(tail, 0)
      requires forall b :: 0 <= b < |tail| ==> !Holds(tail[b], k, hash)
      ensures ChainOk(tail', hash) && Clean(tail') && Counted(tail', 0)
      ensures ValAt(tail', k, hash) == Some(d)
      ensures forall x :: x != k ==> ValAt(tail', x, hash) == ValAt(tail, x, hash)
      ensures NoNewKeys(tail, tail', k, hash)
    {
      hide Path, TableOk, ChainOk, Clean, Counted, NoNewKeys, PassesAll, ValAt, NewTable, Put;
      tail' := tail;
      var j := 0;
      StartsWell(tail, k, hash);
      while true
        invariant j < |tail'| <= |tail| + 1
        invariant ChainOk(tail', hash) && Clean(tail') && Counted(tail', 0)
        invariant PassesAll(tail', j, k, hash) && forall b :: j <= b < |tail'| ==> !Holds(tail'[b], k, hash)
        invariant |tail'| > |tail| ==> At(tail'[|tail'| - 1], k, hash).Empty?
        invariant forall x :: x != k ==> ValAt(tail', x, hash) == ValAt(tail, x, hash)
        invariant NoNewKeys(tail, tail', k, hash)
        decreases |tail| + 1 - j
      {
        SizeOk(tail', j, hash);
        var spot := LookUp(tail'[j], k, hash(k));
        Arrived(tail', j, k, hash);
        match spot {
          case Full =>
            if j == |tail'| - 1 {
              var scale := NextScale(tail'[j]);
              AppendMore(tail, tail', j, scale, k, hash);
              tail' := tail' + [NewTable(scale)];
            }
          case Found(_) => assert false;
          case Empty(s) =>
            if tail'[j].entries[s].value.Copied? {
              InstallMore(tail, tail', j, s, k, hash);
              tail' := tail'[j := Put(tail'[j], s, Entry(Some(k), Copied))];
            } else {
              LandMore(tail, tail', j, s, k, d, hash);
              tail' := tail'[j := Put(tail'[j], s, Entry(Some(k), Val(d))).(count := tail'[j].count + 1)];
              return;
            }
        }
        j := j + 1;
      }
    }

    method Get(k: Key) returns (r: Option<Datum>)
      requires Valid()
      ensures r == Map(k)
    {
      hide Path;
      var i := 0;
      while true
        invariant i < |chain| && PassesAll(chain, i, k, hash)
        decreases |chain| - i
      {
        var spot := LookUp(chain[i], k, hash(k));
        Arrived(chain, i, k, hash);
        match spot {
          case Full =>
            if i == |chain| - 1 {
              return None;
            }
          case Empty(_) => return None;
          case Found(s) =>
            var v := chain[i].entries[s].value;
            if !Tagged(v) {
              return if v.TombStone? || v.DoesNotExist? then None else Some(v.datum);
            }
        }
        i := i + 1;
      }
    }

    // startCopy, for the last table.
    method StartCopy()
      requires Valid()
      modifies this
      ensures Valid() && |chain| == old(|chain|) + 1 && chain[..|chain| - 1] == old(chain)
      ensures forall k :: Map(k) == old(Map(k))
      ensures var last := chain[|chain| - 1]; forall k :: At(last, k, hash).Empty?
    {
      hide Path, ChainOk, Clean, Counted, NewTable, ValAt;
      StartsWell(chain, 0, hash);
      SizeOk(chain, |chain| - 1, hash);
      var scale := NextScale(chain[|chain| - 1]);
      AppendKeepsChain(chain, scale, hash);
      AppendCounted(chain, 0, scale);
      forall k
        ensures ValAt(chain + [NewTable(scale)], k, hash) == ValAt(chain, k, hash)
      {
        AppendKeepsVals(chain, scale, k, hash);
      }
      forall k
        ensures At(NewTable(scale), k, hash).Empty?
      {
        NewIsEmpty(scale, k, hash);
      }
      chain := chain + [NewTable(scale)];
    }

    // compareAndSwap on the table at i.  Copied: the next table is to be asked.
    method CasIn(i: nat, k: Key, expected: Expect, new_: Option<Datum>) returns (r: Value)
      requires Valid() && i < |chain| && PassesAll(chain, i, k, hash)
      modifies this
      ensures Valid() && i < |chain|
      ensures r == Copied ==>
                i + 1 < |chain| && PassesAll(chain, i + 1, k, hash) && forall x :: Map(x) == old(Map(x))
      ensures r != Copied ==>
                && (r.Val? || r.TombStone? || r.DoesNotExist?) && Current(r) == old(Map(k))
                && Map(k) == (if Accepts(expected, old(Map(k))) then new_ else old(Map(k)))
                && forall x :: x != k ==> Map(x) == old(Map(x))
      // a table is added only at the end, and has room
      ensures r == Copied ==>
                if i == old(|chain|) - 1 then |chain| == i + 2 && At(chain[i + 1], k, hash).Empty?
                else |chain| == old(|chain|) && chain[|chain| - 1] == old(chain[|chain| - 1])
      ensures i == old(|chain|) - 1 && old(At(chain[i], k, hash)).Empty? ==> r != Copied
    {
      hide Path, ChainOk, Clean, Counted, ValAt, PassesAll, TableOk, Put, Passes;
      SizeOk(chain, i, hash);
      var spot := LookUp(chain[i], k, hash(k));
      Arrived(chain, i, k, hash);
      match spot {
        case Full =>
          if i == |chain| - 1 {
            StillPassedAppended(chain, i + 1, k, hash);
            StartCopy();
            assert Map(k) == old(Map(k)) && |chain| - 1 == i + 1;
            assert chain == chain[..|chain| - 1] + [chain[|chain| - 1]];
          }
          return Copied;
        case Empty(s) =>
          if (expected != NotThere && expected != Whatever) || new_ == None {
            return DoesNotExist;
          }
          if chain[i].entries[s].value.Copied? {
            InstallMore(chain, chain, i, s, k, hash);
            chain := chain[i := Put(chain[i], s, Entry(Some(k), Copied))];
            return Copied;
          }
          EmptyStops(chain, i, s, k, hash);
          LandAndCount(chain, 0, i, s, Val(new_.value), chain[i].count + 1, k, hash);
          chain := chain[i := Put(chain[i], s, Entry(Some(k), Val(new_.value))).(count := chain[i].count + 1)];
          return DoesNotExist;
        case Found(s) =>
          var v := chain[i].entries[s].value;
          if Tagged(v) {
            return Copied;
          }
          FoundStops(chain, i, s, k, hash);
          var v' := Swapped(v, expected, new_);
          SwapMeans(v, expected, new_);
          if v' != v {
            var count := chain[i].count + (if v'.Val? then 1 else 0) - (if v.Val? then 1 else 0);
            LandAndCount(chain, 0, i, s, v', count, k, hash);
            chain := chain[i := Put(chain[i], s, Entry(Some(k), v')).(count := count)];
          }
          return v;
      }
    }

    ghost predicate ValidBut(pending: nat)
      reads this
    {
      ChainOk(chain, hash) && Clean(chain) && Counted(chain, pending)
    }

    // copyEntry, for an entry of the first table: true if this call moved it.
    method CopyEntry(s: nat, ghost pending: nat) returns (did: bool)
      requires ValidBut(pending) && |chain| > 1 && s < |chain[0].entries|
      modifies this
      ensures ValidBut(if did then pending + 1 else pending) && |chain| > 1
      ensures SameCounters(old(chain[0]), chain[0]) && MovedAt(old(chain[0]), chain[0], s)
      ensures forall k :: Map(k) == old(Map(k))
    {
      hide Path, ChainOk, Clean, Counted, ValAt, TableOk, Put, NoNewKeys, Holds;
      var e := chain[0].entries[s];
      match e.value {
        case Copied => return false;
        case TaggedTombStone => return false;
        case DoesNotExist =>
          MarkStep(chain, s, pending, hash);
          chain := chain[0 := Put(chain[0], s, Entry(None, Copied))];
          return true;
        case TombStone =>
          BuryStep(chain, s, pending, hash);
          chain := chain[0 := Put(chain[0], s, Entry(e.key, TaggedTombStone))];
          return true;
        case Val(d) =>
          MoveStart(chain, s, hash);
          var tail := MoveInto(chain[1..], e.key.value, d, hash);
          MoveStep(chain, s, tail, pending, chain[0].count - 1, hash);
          chain := [Put(chain[0], s, Entry(e.key, Copied)).(count := chain[0].count - 1)] + tail;
          return true;
        case TaggedVal(_) =>
          NotHalfMoved(chain, s);
          return false;
      }
    }

    /**
     * helpCopy: some entries of the first table are moved on; true if all have been.
     * Each call goes on where the last one stopped; after two rounds it takes them all.
     */
    method HelpCopy() returns (done: bool)
      requires Valid() && |chain| > 1
      modifies this
      ensures Valid() && |chain| > 1 && forall k :: Map(k) == old(Map(k))
      ensures done <==> AllDone(chain[0])
      ensures |chain[0].entries| == old(|chain[0].entries|)
      ensures !done ==> chain[0].copyScan == old(chain[0].copyScan) + EntriesPerCopyChunk
                        && old(chain[0].copyScan) < 2 * |chain[0].entries|
    {
      hide Path, ChainOk, Clean, Counted, ValAt;
      SizeOk(chain, 0, hash);
      var size := |chain[0].entries|;
      var total := chain[0].numCopied;
      var x := chain[0].copyScan;
      CountIsRight(chain);
      if total != size {
        var num, n, from, limit := 0, 0, 0, size;
        if x < 2 * size {
          limit := EntriesPerCopyChunk;
          ScanFits(chain, hash);
          from := Slot(x, size);
          SetCounters(chain, 0, chain[0].(copyScan := x + EntriesPerCopyChunk), 0, hash);
          chain := chain[0 := chain[0].(copyScan := x + EntriesPerCopyChunk)];
        }
        while n < limit
          invariant n <= limit && from + limit <= size && |chain| > 1 && ValidBut(num)
          invariant |chain[0].entries| == size && chain[0].numCopied == total
          invariant chain[0].copyScan == if x < 2 * size then x + EntriesPerCopyChunk else x
          invariant forall r :: from <= r < from + n ==> Done(chain[0].entries[r].value)
          invariant forall k :: Map(k) == old(Map(k))
        {
          var did := CopyEntry(from + n, num);
          num := num + if did then 1 else 0;
          n := n + 1;
        }
        total := chain[0].numCopied + num;
        ScanIsMultiple(chain, num);
        SetCounters(chain, num, chain[0].(numCopied := total), 0, hash);
        chain := chain[0 := chain[0].(numCopied := total)];
        CountIsRight(chain);
        if x >= 2 * size {
          assert AllDone(chain[0]);
        }
      }
      done := total == size;
    }

    // Helping again and again moves the whole table; this is what an enumerator does first.
    method CompleteCopy()
      requires Valid() && |chain| > 1
      modifies this
      ensures Valid() && |chain| > 1 && AllDone(chain[0]) && forall k :: Map(k) == old(Map(k))
    {
      hide ChainOk, Clean, Counted, ValAt, AllDone;
      var done := false;
      ghost var size := |chain[0].entries|;
      while !done
        invariant Valid() && |chain| > 1 && |chain[0].entries| == size
        invariant done ==> AllDone(chain[0])
        invariant forall k :: Map(k) == old(Map(k))
        decreases !done, if 2 * size + 4 > chain[0].copyScan then 2 * size + 4 - chain[0].copyScan else 0
      {
        done := HelpCopy();
      }
    }

    // The first table is unlinked when it is copied completely.
    method Unlink()
      requires Valid() && |chain| > 1 && AllDone(chain[0])
      modifies this
      ensures Valid() && chain == old(chain)[1..] && forall k :: Map(k) == old(Map(k))
    {
      hide Path, ValAt;
      forall k
        ensures ValAt(chain[1..], k, hash) == ValAt(chain, k, hash)
      {
        UnlinkKeepsVals(chain, k, hash);
      }
      UnlinkKeepsVals(chain, 0, hash);
      TailCounted(chain, 0);
      chain := chain[1..];
    }

    // The loop through the tables, until one of them answers.
    method SwapLoop(k: Key, expected: Expect, new_: Option<Datum>) returns (before: Option<Datum>)
      requires Valid()
      modifies this
      ensures Valid() && before == old(Map(k))
      ensures Map(k) == if Accepts(expected, before) then new_ else before
      ensures forall x :: x != k ==> Map(x) == old(Map(x))
    {
      hide Path, ChainOk, Clean, Counted, ValAt, PassesAll, At;
      var i := 0;
      ghost var n := |chain|;
      StartsWell(chain, k, hash);
      while true
        invariant Valid() && i < |chain| <= n + 1 && PassesAll(chain, i, k, hash)
        invariant |chain| > n ==> At(chain[|chain| - 1], k, hash).Empty?
        invariant forall x :: Map(x) == old(Map(x))
        decreases n + 1 - i
      {
        var r := CasIn(i, k, expected, new_);
        if r != Copied {
          return if r.Val? then Some(r.datum) else None;
        }
        i := i + 1;
      }
    }

    /**
     * compareAndSwap: the datum of k before; it is replaced if it is as expected.
     */
    method CompareAndSwap(k: Key, expected: Expect, new_: Datum) returns (before: Option<Datum>)
      requires Valid()
      modifies this
      ensures Valid() && before == old(Map(k))
      ensures Map(k) == if Accepts(expected, before) then Some(new_) else before
      ensures forall x :: x != k ==> Map(x) == old(Map(x))
    {
      if |chain| > 1 {
        hide ChainOk, Clean, Counted, ValAt, AllDone;
        var done := HelpCopy();
        if done {
          Unlink();
        }
      }
      before := SwapLoop(k, expected, Some(new_));
    }

    method Remove(k: Key) returns (before: Option<Datum>)
      requires Valid()
      modifies this
      ensures Valid() && before == old(Map(k)) && Map(k) == None
      ensures forall x :: x != k ==> Map(x) == old(Map(x))
    {
      before := SwapLoop(k, Whatever, None);
    }
  }

  // ---------------------------------------------------------------------------
  // Any sequence of calls
  // ---------------------------------------------------------------------------

  datatype Call =
    | GetCall(k: Key)
    | SwapCall(k: Key, expected: Expect, new_: Datum)
    | RemoveCall(k: Key)

  // What a finite map answers, and becomes.
  function MapAfter(m: map<Key, Datum>, call: Call): map<Key, Datum> {
    match call
    case GetCall(_) => m
    case SwapCall(k, expected, new_) => if Accepts(expected, Lookup(m, k)) then m[k := new_] else m
    case RemoveCall(k) => m - {k}
  }

  function Lookup(m: map<Key, Datum>, k: Key): Option<Datum> {
    if k in m then Some(m[k]) else None
  }

  function Answers(m: map<Key, Datum>, calls: seq<Call>): seq<Option<Datum>>
    decreases |calls|
  {
    if calls == [] then []
    else [Lookup(m, calls[0].k)] + Answers(MapAfter(m, calls[0]), calls[1..])
  }

  ghost predicate IsMap(t: HashTable, m: map<Key, Datum>)
    reads t
  {
    forall k :: t.Map(k) == Lookup(m, k)
  }

  method CallOne(t: HashTable, ghost m: map<Key, Datum>, call: Call) returns (answer: Option<Datum>)
    requires t.Valid() && IsMap(t, m)
    modifies t
    ensures t.Valid() && IsMap(t, MapAfter(m, call))
    ensures answer == Lookup(m, call.k)
  {
    hide ChainOk, Clean, Counted, ValAt;
    match call
    case GetCall(k) => answer := t.Get(k);
    case SwapCall(k, expected, new_) => answer := t.CompareAndSwap(k, expected, new_);
    case RemoveCall(k) => answer := t.Remove(k);
  }

  lemma NextAnswer(m: map<Key, Datum>, calls: seq<Call>, i: nat, answers: seq<Option<Datum>>)
    requires i < |calls|
    ensures answers + Answers(m, calls[i..]) ==
            answers + [Lookup(m, calls[i].k)] + Answers(MapAfter(m, calls[i]), calls[i + 1..])
  {
    assert calls[i..][0] == calls[i] && calls[i..][1..] == calls[i + 1..];
  }

  // Whatever the calls, the hash function and the state of the copies, the table answers
  // as a finite map does.
  method RunCalls(hash: HashFunction, calls: seq<Call>) returns (answers: seq<Option<Datum>>)
    ensures answers == Answers(map[], calls)
  {
    var t := new HashTable(hash);
    answers := [];
    ghost var m: map<Key, Datum> := map[];
    assert calls[0..] == calls && IsMap(t, m);
    hide HashTable.Valid, IsMap, MapAfter, Answers, Lookup;
    for i := 0 to |calls|
      invariant fresh(t) && t.Valid() && IsMap(t, m)
      invariant answers + Answers(m, calls[i..]) == Answers(map[], calls)
    {
      NextAnswer(m, calls, i, answers);
      var r := CallOne(t, m, calls[i]);
      answers := answers + [r];
      m := MapAfter(m, calls[i]);
    }
    NoAnswers(m, calls, answers);
  }

  lemma NoAnswers(m: map<Key, Datum>, calls: seq<Call>, answers: seq<Option<Datum>>)
    ensures answers + Answers(m, calls[|calls|..]) == answers
  {
  }

  // ---- the steps of HelpCopy ----

  lemma CountIsRight(c: seq<Table>)
    requires Counted(c, 0) && c != []
    ensures AllDone(c[0]) <==> c[0].numCopied == |c[0].entries|
  {
    CountedAllDone(c[0]);
  }

  lemma ScanIsMultiple(c: seq<Table>, pending: nat)
    requires Counted(c, pending) && c != []
    ensures c[0].copyScan % EntriesPerCopyChunk == 0
  {
  }

  // A chunk does not run over the end of the table.
  lemma ScanFits(c: seq<Table>, hash: HashFunction)
    requires ChainOk(c, hash) && Counted(c, 0)
    ensures |c[0].entries| > 0 && c[0].copyScan % EntriesPerCopyChunk == 0
    ensures Slot(c[0].copyScan, |c[0].entries|) + EntriesPerCopyChunk <= |c[0].entries|
  {
    hide Path;
    assert TableOk(c[0], hash);
    PowerIsBuckets(c[0].scale);
    ChunkFits(c[0].copyScan, Pow2(c[0].scale));
  }

  lemma ChunkFits(x: nat, size: nat)
    requires x % 4 == 0 && size % 4 == 0 && size > 0
    ensures x % size + 4 <= size
  {
    var a, b, q := x / 4, size / 4, x / size;
    assert x == q * size + x % size;
    assert q * size == 4 * (q * b);
    assert (x % size) % 4 == 0;
  }

  // New counters for the first table.
  lemma SetCounters(c: seq<Table>, pending: nat, t: Table, pending': nat, hash: HashFunction)
    requires ChainOk(c, hash) && Clean(c) && Counted(c, pending) && SameEntries(c[0], t)
    requires t.numCopied + pending' == c[0].numCopied + pending && t.copyScan % EntriesPerCopyChunk == 0
    ensures var c' := c[0 := t];
            && ChainOk(c', hash) && Clean(c') && Counted(c', pending')
            && forall x :: ValAt(c', x, hash) == ValAt(c, x, hash)
  {
    hide Path, ValAt;
    CountersKeepChain(c, 0, t, hash);
    forall x
      ensures ValAt(c[0 := t], x, hash) == ValAt(c, x, hash)
    {
      CountersKeepVals(c, 0, t, x, hash);
    }
  }

  // ---- the steps of CopyEntry ----

  ghost predicate SameCounters(t: Table, t': Table) {
    t'.scale == t.scale && |t'.entries| == |t.entries| && t'.numCopied == t.numCopied && t'.copyScan == t.copyScan
  }

  // The entry at s has moved on, and none has come back.
  ghost predicate MovedAt(t: Table, t': Table, s: nat) {
    && |t'.entries| == |t.entries| && s < |t.entries| && Done(t'.entries[s].value)
    && forall r :: 0 <= r < |t.entries| && Done(t.entries[r].value) ==> Done(t'.entries[r].value)
  }

  lemma NotHalfMoved(c: seq<Table>, s: nat)
    requires Clean(c) && c != [] && s < |c[0].entries|
    ensures !c[0].entries[s].value.TaggedVal?
  {
  }

  // What a change of the first table's entry at s to a moved one does to the counters.
  lemma HeadCounted(c: seq<Table>, s: nat, e: Entry, n: int, tail: seq<Table>, pending: nat)
    requires Clean(c) && Counted(c, pending) && c != [] && s < |c[0].entries|
    requires Done(e.value) && !Done(c[0].entries[s].value) && Clean(tail) && Counted(tail, 0)
    ensures var c' := [Put(c[0], s, e).(count := n)] + tail;
            && Clean(c') && Counted(c', pending + 1)
            && SameCounters(c[0], c'[0]) && MovedAt(c[0], c'[0], s)
  {
    DoneAfter(c[0].entries, s, e);
    var c' := [Put(c[0], s, e).(count := n)] + tail;
    assert forall i :: 0 < i < |c'| ==> c'[i] == tail[i - 1];
  }

  lemma TailCounted(c: seq<Table>, pending: nat)
    requires Clean(c) && Counted(c, pending) && c != []
    ensures Clean(c[1..]) && Counted(c[1..], 0)
  {
    assert forall i :: 0 <= i < |c[1..]| ==> c[1..][i] == c[i + 1];
  }

  lemma HeadReplaced(c: seq<Table>, t: Table)
    requires c != []
    ensures c[0 := t] == [t] + c[1..]
  {
  }

  lemma MarkStep(c: seq<Table>, s: nat, pending: nat, hash: HashFunction)
    requires ChainOk(c, hash) && Clean(c) && Counted(c, pending) && |c| > 1 && s < |c[0].entries|
    requires c[0].entries[s].value == DoesNotExist
    ensures var c' := c[0 := Put(c[0], s, Entry(None, Copied))];
            && ChainOk(c', hash) && Clean(c') && Counted(c', pending + 1)
            && SameCounters(c[0], c'[0]) && MovedAt(c[0], c'[0], s)
            && forall x :: ValAt(c', x, hash) == ValAt(c, x, hash)
  {
    hide Path, ValAt;
    assert TableOk(c[0], hash);
    MarkKeepsChain(c, 0, s, hash);
    forall x
      ensures ValAt(c[0 := Put(c[0], s, Entry(None, Copied))], x, hash) == ValAt(c, x, hash)
    {
      MarkKeepsVals(c, 0, s, x, hash);
    }
    TailCounted(c, pending);
    hide ChainOk, Clean, Counted;
    HeadCounted(c, s, Entry(None, Copied), c[0].count, c[1..], pending);
    assert Put(c[0], s, Entry(None, Copied)).(count := c[0].count) == Put(c[0], s, Entry(None, Copied));
    HeadReplaced(c, Put(c[0], s, Entry(None, Copied)));
  }

  lemma KeyAt(c: seq<Table>, s: nat, hash: HashFunction)
    requires ChainOk(c, hash) && s < |c[0].entries|
    requires c[0].entries[s].value.TombStone? || c[0].entries[s].value.Val?
    ensures c[0].entries[s].key.Some? && At(c[0], c[0].entries[s].key.value, hash) == Found(s)
  {
    hide Path;
    assert TableOk(c[0], hash);
  }

  lemma BuryStep(c: seq<Table>, s: nat, pending: nat, hash: HashFunction)
    requires ChainOk(c, hash) && Clean(c) && Counted(c, pending) && |c| > 1 && s < |c[0].entries|
    requires c[0].entries[s].value == TombStone
    ensures var e := Entry(c[0].entries[s].key, TaggedTombStone);
            var c' := c[0 := Put(c[0], s, e)];
            && ChainOk(c', hash) && Clean(c') && Counted(c', pending + 1)
            && SameCounters(c[0], c'[0]) && MovedAt(c[0], c'[0], s)
            && forall x :: ValAt(c', x, hash) == ValAt(c, x, hash)
  {
    hide Path, ValAt, At;
    KeyAt(c, s, hash);
    var e := Entry(c[0].entries[s].key, TaggedTombStone);
    HeadBuried(c, s, e.key.value, hash);
    TailCounted(c, pending);
    hide ChainOk, Clean, Counted;
    HeadCounted(c, s, e, c[0].count, c[1..], pending);
    assert Put(c[0], s, e).(count := c[0].count) == Put(c[0], s, e);
    HeadReplaced(c, Put(c[0], s, e));
  }

  // The tables behind know nothing of a key that has not moved.
  lemma MoveStart(c: seq<Table>, s: nat, hash: HashFunction)
    requires ChainOk(c, hash) && Clean(c) && |c| > 1 && s < |c[0].entries| && c[0].entries[s].value.Val?
    requires exists pending :: Counted(c, pending)
    ensures c[0].entries[s].key.Some?
    ensures ChainOk(c[1..], hash) && Clean(c[1..]) && Counted(c[1..], 0)
    ensures forall b :: 0 <= b < |c[1..]| ==> !Holds(c[1..][b], c[0].entries[s].key.value, hash)
  {
    hide Path;
    KeyAt(c, s, hash);
    TailOk(c, hash);
    var pending :| Counted(c, pending);
    TailCounted(c, pending);
    StopsHere(c, 0, c[0].entries[s].key.value, hash);
  }

  lemma MoveStep(c: seq<Table>, s: nat, tail: seq<Table>, pending: nat, n: int, hash: HashFunction)
    requires ChainOk(c, hash) && Clean(c) && Counted(c, pending) && |c| > 1 && s < |c[0].entries|
    requires c[0].entries[s].value.Val? && c[0].entries[s].key.Some?
    requires var k, d := c[0].entries[s].key.value, c[0].entries[s].value.datum;
             && ChainOk(tail, hash) && Clean(tail) && Counted(tail, 0) && ValAt(tail, k, hash) == Some(d)
             && NoNewKeys(c[1..], tail, k, hash)
             && forall x :: x != k ==> ValAt(tail, x, hash) == ValAt(c[1..], x, hash)
    ensures var c' := [Put(c[0], s, Entry(c[0].entries[s].key, Copied)).(count := n)] + tail;
            && ChainOk(c', hash) && Clean(c') && Counted(c', pending + 1) && |c'| > 1
            && SameCounters(c[0], c'[0]) && MovedAt(c[0], c'[0], s)
            && forall x :: ValAt(c', x, hash) == ValAt(c, x, hash)
  {
    hide Path, ValAt, NoNewKeys, At;
    var k, e := c[0].entries[s].key.value, Entry(c[0].entries[s].key, Copied);
    KeyAt(c, s, hash);
    HeadMoved(c, s, k, tail, hash);
    StartsWell(tail, k, hash);
    hide ChainOk, Clean, Counted;
    HeadCounted(c, s, e, n, tail, pending);
    var t := Put(c[0], s, e);
    var c1, t' := [t] + tail, t.(count := n);
    CountersKeepChain(c1, 0, t', hash);
    assert c1[0 := t'] == [t'] + tail;
    forall x
      ensures ValAt([t'] + tail, x, hash) == ValAt(c, x, hash)
    {
      CountersKeepVals(c1, 0, t', x, hash);
    }
  }

  // ---- the steps of CasIn ----

  lemma StillPassedAppended(c: seq<Table>, i: nat, k: Key, hash: HashFunction)
    requires PassesAll(c, i, k, hash)
    ensures forall t :: PassesAll(c + [t], i, k, hash)
  {
    hide Passes, HalfMoved;
    forall t
      ensures PassesAll(c + [t], i, k, hash)
    {
      var c' := c + [t];
      assert forall m :: 0 <= m < i ==> c'[m] == c[m];
    }
  }

  lemma EmptyStops(c: seq<Table>, i: nat, s: nat, k: Key, hash: HashFunction)
    requires ChainOk(c, hash) && i < |c| && At(c[i], k, hash) == Empty(s) && s < |c[i].entries|
    requires c[i].entries[s].key == None && c[i].entries[s].value != Copied
    ensures !Passes(c[i], k, hash) && !Tagged(c[i].entries[s].value)
  {
    hide Path;
    assert TableOk(c[i], hash);
  }

  lemma FoundStops(c: seq<Table>, i: nat, s: nat, k: Key, hash: HashFunction)
    requires ChainOk(c, hash) && i < |c| && At(c[i], k, hash) == Found(s) && s < |c[i].entries|
    requires c[i].entries[s].key == Some(k) && !Tagged(c[i].entries[s].value)
    ensures !Passes(c[i], k, hash) && c[i].entries[s].value != DoesNotExist
  {
    hide Path;
    assert TableOk(c[i], hash);
  }

  // ---- the steps of MoveInto ----

  lemma StartsWell(tail: seq<Table>, k: Key, hash: HashFunction)
    requires ChainOk(tail, hash)
    ensures |tail| > 0 && PassesAll(tail, 0, k, hash) && NoNewKeys(tail, tail, k, hash)
  {
    hide Path, TableOk, Untagged;
  }

  lemma SizeOk(c: seq<Table>, i: nat, hash: HashFunction)
    requires ChainOk(c, hash) && i < |c|
    ensures c[i].scale >= MinScale && |c[i].entries| == Pow2(c[i].scale)
  {
    hide Path;
  }

  lemma AppendMore(tail: seq<Table>, c: seq<Table>, j: nat, scale: nat, k: Key, hash: HashFunction)
    requires ChainOk(c, hash) && Clean(c) && Counted(c, 0) && scale >= MinScale && j == |c| - 1
    requires PassesAll(c, j, k, hash) && Passes(c[j], k, hash) && !HalfMoved(c[j], k, hash)
    requires NoNewKeys(tail, c, k, hash)
    ensures var c' := c + [NewTable(scale)];
            && ChainOk(c', hash) && Clean(c') && Counted(c', 0) && NoNewKeys(tail, c', k, hash)
            && PassesAll(c', j + 1, k, hash) && At(c'[|c'| - 1], k, hash).Empty? && !Holds(c'[j + 1], k, hash)
            && forall x :: ValAt(c', x, hash) == ValAt(c, x, hash)
  {
    hide Path, NewTable, ChainOk, Clean, Counted, NoNewKeys, ValAt, Passes, HalfMoved;
    AppendKeepsChain(c, scale, hash);
    AppendCounted(c, 0, scale);
    AppendNoNewKeys(tail, c, scale, k, hash);
    NewIsEmpty(scale, k, hash);
    forall x
      ensures ValAt(c + [NewTable(scale)], x, hash) == ValAt(c, x, hash)
    {
      AppendKeepsVals(c, scale, x, hash);
    }
  }

  lemma InstallMore(tail: seq<Table>, c: seq<Table>, j: nat, s: nat, k: Key, hash: HashFunction)
    requires ChainOk(c, hash) && Clean(c) && Counted(c, 0) && NoNewKeys(tail, c, k, hash)
    requires j < |c| && PassesAll(c, j, k, hash) && At(c[j], k, hash) == Empty(s) && s < |c[j].entries|
    requires c[j].entries[s].value == Copied
    ensures var c' := c[j := Put(c[j], s, Entry(Some(k), Copied))];
            && j < |c| - 1
            && ChainOk(c', hash) && Clean(c') && Counted(c', 0) && NoNewKeys(tail, c', k, hash)
            && PassesAll(c', j + 1, k, hash)
            && forall x :: ValAt(c', x, hash) == ValAt(c, x, hash)
  {
    assert j < |c| - 1;
    hide Path, ValAt, PassesAll, NoNewKeys;
    PutCopied(c, j, s, k, hash);
    PutNoNewKeys(tail, c, j, s, Copied, k, hash);
    hide ChainOk;
    PutCounted(c, 0, j, s, Entry(Some(k), Copied), c[j].count);
    assert Put(c[j], s, Entry(Some(k), Copied)).(count := c[j].count) == Put(c[j], s, Entry(Some(k), Copied));
  }

  // A value is put at the end of a search, and the counter of its table changes.
  lemma LandAndCount(c: seq<Table>, pending: nat, i: nat, s: nat, v: Value, n: int, k: Key, hash: HashFunction)
    requires ChainOk(c, hash) && Clean(c) && Counted(c, pending)
    requires i < |c| && PassesAll(c, i, k, hash) && s < |c[i].entries|
    requires At(c[i], k, hash) == Found(s) || At(c[i], k, hash) == Empty(s)
    requires !Passes(c[i], k, hash) && !Tagged(v) && v != DoesNotExist && !Tagged(c[i].entries[s].value)
    ensures var c' := c[i := Put(c[i], s, Entry(Some(k), v)).(count := n)];
            && ChainOk(c', hash) && Clean(c') && Counted(c', pending)
            && ValAt(c', k, hash) == Current(v)
            && forall x :: x != k ==> ValAt(c', x, hash) == ValAt(c, x, hash)
  {
    hide Path, ValAt, PassesAll, Passes, ChainOk;
    PutHere(c, i, s, v, k, hash);
    PutCounted(c, pending, i, s, Entry(Some(k), v), n);
    var t := Put(c[i], s, Entry(Some(k), v));
    var c1 := c[i := t];
    var t' := t.(count := n);
    CountersKeepChain(c1, i, t', hash);
    assert c1[i := t'] == c[i := t'];
    forall x
      ensures ValAt(c[i := t'], x, hash) == ValAt(c1, x, hash)
    {
      CountersKeepVals(c1, i, t', x, hash);
    }
  }

  lemma LandMore(tail: seq<Table>, c: seq<Table>, j: nat, s: nat, k: Key, d: Datum, hash: HashFunction)
    requires ChainOk(c, hash) && Clean(c) && Counted(c, 0) && NoNewKeys(tail, c, k, hash)
    requires j < |c| && PassesAll(c, j, k, hash) && At(c[j], k, hash) == Empty(s) && s < |c[j].entries|
    requires c[j].entries[s].key == None && c[j].entries[s].value != Copied
    ensures var c' := c[j := Put(c[j], s, Entry(Some(k), Val(d))).(count := c[j].count + 1)];
            && ChainOk(c', hash) && Clean(c') && Counted(c', 0) && NoNewKeys(tail, c', k, hash)
            && ValAt(c', k, hash) == Some(d)
            && forall x :: x != k ==> ValAt(c', x, hash) == ValAt(c, x, hash)
  {
    hide Path, ValAt, PassesAll;
    assert TableOk(c[j], hash);
    LandAndCount(c, 0, j, s, Val(d), c[j].count + 1, k, hash);
    PutNoNewKeys(tail, c, j, s, Val(d), k, hash);
    SameKnown(tail, c[j := Put(c[j], s, Entry(Some(k), Val(d)))], j,
              Put(c[j], s, Entry(Some(k), Val(d))).(count := c[j].count + 1), k, hash);
  }

  lemma SameKnown(tail: seq<Table>, c: seq<Table>, j: nat, t': Table, k: Key, hash: HashFunction)
    requires NoNewKeys(tail, c, k, hash) && j < |c| && SameEntries(c[j], t')
    ensures NoNewKeys(tail, c[j := t'], k, hash)
  {
    hide Path;
    var c' := c[j := t'];
    forall b, x | 0 <= b < |c'| && x != k && Holds(c'[b], x, hash)
      ensures Known(tail, x, hash)
    {
      assert Holds(c[b], x, hash);
    }
  }

  lemma NothingLeft(entries: seq<Entry>, k: Key)
    ensures Locate(entries, [], k) == Full
  {
  }

  lemma FirstTableOk(hash: HashFunction)
    ensures ChainOk([NewTable(MinScale)], hash) && Clean([NewTable(MinScale)]) && Counted([NewTable(MinScale)], 0)
  {
    NewIsEmpty(MinScale, 0, hash);
    assert DoneSlots(NewTable(MinScale).entries) == {};
  }
}
