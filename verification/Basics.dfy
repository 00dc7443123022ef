/** Small definitions shared by the other modules. */
module Basics {

  datatype Option<+T> = None | Some(value: T)

  function Pow2(n: nat): (p: nat)
    ensures p > 0
  {
    if n == 0 then 1 else 2 * Pow2(n - 1)
  }

  // No multiple of size lies strictly between 0 and size.
  lemma MultipleOutOfReach(k: int, size: int, d: int)
    requires 0 < d < size
    ensures k * size != d
  {
    if k <= 0 {
      assert k * size <= 0;
    } else {
      assert k * size == size + (k - 1) * size;
      assert (k - 1) * size >= 0;
    }
  }

  // Where an index falls in a ring.
  function Slot(i: nat, size: nat): (s: nat)
    requires size > 0
    ensures s < size
  {
    i % size
  }

  // Two indices closer together than the size of a ring never share a slot.
  lemma NearbyDiffer(i: nat, j: nat, size: nat)
    requires i < j < i + size
    ensures Slot(i, size) != Slot(j, size)
  {
    var q, r := i / size, j / size;
    if i % size == j % size {
      assert i == q * size + i % size && j == r * size + j % size;
      MultipleOutOfReach(r - q, size, j - i);
    }
  }

  lemma OnceAround(i: nat, size: nat)
    requires size > 0
    ensures Slot(i + size, size) == Slot(i, size)
  {
    var q, q' := i / size, (i + size) / size;
    var r, r' := i % size, (i + size) % size;
    assert i == q * size + r && i + size == q' * size + r';
    assert (q + 1 - q') * size == r' - r && (q' - q - 1) * size == r - r';
    if r < r' {
      MultipleOutOfReach(q + 1 - q', size, r' - r);
    } else if r' < r {
      MultipleOutOfReach(q' - q - 1, size, r - r');
    }
  }

  lemma Regroup<T>(a: seq<T>, b: seq<T>, c: seq<T>)
    ensures (a + b) + c == a + (b + c)
  {
  }
}
