/** Vocabulary shared by every module: bytes, optional values, and the two
    measures of a queue of buffers (its concatenation and its total length). */
module Prelude {
  datatype Option<+T> = None | Some(value: T)

  type Byte = b: int | 0 <= b < 256

  type Blob = seq<Byte>

  const MIB: nat := 1024 * 1024

  function Concat(blobs: seq<Blob>): (all: Blob) {
    if blobs == [] then [] else blobs[0] + Concat(blobs[1..])
  }

  function Total(blobs: seq<Blob>): (n: nat) {
    if blobs == [] then 0 else |blobs[0]| + Total(blobs[1..])
  }

  lemma {:induction false} ConcatAppend(xs: seq<Blob>, ys: seq<Blob>)
    ensures Concat(xs + ys) == Concat(xs) + Concat(ys)
  {
    if xs == [] {
      assert xs + ys == ys;
    } else {
      ConcatAppend(xs[1..], ys);
      assert (xs + ys)[1..] == xs[1..] + ys;
      assert Concat(xs + ys) == xs[0] + (Concat(xs[1..]) + Concat(ys));
    }
  }

  lemma {:induction false} TotalAppend(xs: seq<Blob>, ys: seq<Blob>)
    ensures Total(xs + ys) == Total(xs) + Total(ys)
  {
    if xs == [] {
      assert xs + ys == ys;
    } else {
      TotalAppend(xs[1..], ys);
      assert (xs + ys)[1..] == xs[1..] + ys;
    }
  }

  lemma {:induction false} ConcatLength(xs: seq<Blob>)
    ensures |Concat(xs)| == Total(xs)
  {
    if xs != [] {
      ConcatLength(xs[1..]);
    }
  }

  lemma ConcatSnoc(xs: seq<Blob>, x: Blob)
    ensures Concat(xs + [x]) == Concat(xs) + x
  {
    ConcatAppend(xs, [x]);
    assert Concat([x]) == x + Concat([]);
  }

  lemma TotalSnoc(xs: seq<Blob>, x: Blob)
    ensures Total(xs + [x]) == Total(xs) + |x|
  {
    TotalAppend(xs, [x]);
    assert Total([x]) == |x| + Total([]);
  }

  lemma FrontAndLast<T>(xs: seq<T>, ys: seq<T>)
    requires ys != []
    ensures ys[..|ys| - 1] + [ys[|ys| - 1]] == ys && (xs + ys[..|ys| - 1]) + [ys[|ys| - 1]] == xs + ys
  {
  }
}
