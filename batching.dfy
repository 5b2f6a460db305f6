/** Splitting a row list into consecutive batches of a fixed size: the
    reference against which the datastore upload loop is proved. */
module Batching {

  function Min(a: int, b: int): int { if a <= b then a else b }

  /** Consecutive pieces of `s`, each `size` long except possibly the last. */
  function Batches<T>(s: seq<T>, size: nat): seq<seq<T>>
    requires size > 0
    decreases |s|
  {
    if |s| == 0 then []
    else if |s| <= size then [s]
    else [s[..size]] + Batches(s[size..], size)
  }

  /** The pieces joined back together, in order. */
  function Flatten<T>(ss: seq<seq<T>>): seq<T>
    decreases |ss|
  {
    if ss == [] then [] else ss[0] + Flatten(ss[1..])
  }

  lemma FlattenCons<T>(x: seq<T>, r: seq<seq<T>>)
    ensures Flatten([x] + r) == x + Flatten(r)
  {
  }

  /** Joining the batches gives back the input: no element is dropped,
      duplicated or moved. */
  lemma {:induction false} FlattenBatches<T>(s: seq<T>, size: nat)
    requires size > 0
    ensures Flatten(Batches(s, size)) == s
    decreases |s|
  {
    if |s| == 0 {
    } else if |s| <= size {
      FlattenCons(s, []);
      assert s + [] == s;
    } else {
      FlattenBatches(s[size..], size);
      FlattenCons(s[..size], Batches(s[size..], size));
      assert s[..size] + s[size..] == s;
    }
  }

  /** Every batch is non-empty and at most `size` long; all but the last are
      exactly `size` long. */
  lemma {:induction false} BatchSizes<T>(s: seq<T>, size: nat)
    requires size > 0
    ensures forall j :: 0 <= j < |Batches(s, size)| ==> 0 < |Batches(s, size)[j]| <= size
    ensures forall j :: 0 <= j < |Batches(s, size)| - 1 ==> |Batches(s, size)[j]| == size
    decreases |s|
  {
    if |s| > size {
      var b := Batches(s, size);
      var rest := Batches(s[size..], size);
      assert b == [s[..size]] + rest;
      BatchSizes(s[size..], size);
      forall j | 0 <= j < |b|
        ensures 0 < |b[j]| <= size
        ensures j < |b| - 1 ==> |b[j]| == size
      {
        if j > 0 {
          assert b[j] == rest[j - 1];
        }
      }
    }
  }

  /** The number of batches is the ceiling of |s| / size: enough to hold every
      element, and one fewer would not be. */
  lemma {:induction false} BatchCount<T>(s: seq<T>, size: nat)
    requires size > 0
    ensures |Batches(s, size)| * size >= |s|
    ensures (|Batches(s, size)| - 1) * size < |s| || |s| == 0
    ensures |s| == 0 <==> Batches(s, size) == []
    decreases |s|
  {
    if |s| > size {
      var m := |Batches(s[size..], size)|;
      BatchCount(s[size..], size);
      assert |Batches(s, size)| == m + 1;
      assert (m + 1) * size == m * size + size;
      assert (m - 1) * size == m * size - size;
    }
  }

  lemma MulPred(i: nat, size: nat)
    requires i > 0
    ensures (i - 1) * size == i * size - size
  {
  }

  /** Batch `i` is the slice of `s` starting at `lo`, which is `i * size`,
      cut at `size` elements or at the end of `s`. */
  lemma {:induction false} BatchAt<T>(s: seq<T>, size: nat, i: nat, lo: nat)
    requires size > 0
    requires i < |Batches(s, size)|
    requires lo == i * size
    ensures lo < |s|
    ensures Batches(s, size)[i] == s[lo .. Min(lo + size, |s|)]
    decreases |s|
  {
    if i > 0 {
      MulPred(i, size);
      var t := s[size..];
      assert Batches(s, size) == [s[..size]] + Batches(t, size);
      BatchAt(t, size, i - 1, lo - size);
      assert t[lo - size..Min(lo, |t|)] == s[lo..Min(lo + size, |s|)];
    }
  }

  /** A cursor that has moved past `i` whole batches is still inside the
      sequence exactly when batch `i` exists. */
  lemma BatchCursor<T>(s: seq<T>, size: nat, i: nat)
    requires size > 0
    requires i <= |Batches(s, size)|
    ensures i * size < |s| <==> i < |Batches(s, size)|
  {
    BatchCount(s, size);
    if i < |Batches(s, size)| {
      assert i * size <= (|Batches(s, size)| - 1) * size;
    } else {
      assert i * size == |Batches(s, size)| * size;
    }
  }
}
