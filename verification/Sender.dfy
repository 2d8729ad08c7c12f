/** The sender thread's coalescing loop (src/cli/script.rs). */
module Sender {
  import opened Prelude

  /** A batch this long takes in no further read. */
  const MAX_BATCH: nat := 64 * 1024

  /** The terminal is read this many bytes at a time. */
  const MAX_READ: nat := 4096

  /** The largest frame there is: one read past the last byte below the bound. */
  const MAX_FRAME: nat := MAX_BATCH - 1 + MAX_READ

  predicate AreReads(chunks: seq<Blob>) {
    forall i :: 0 <= i < |chunks| ==> |chunks[i]| <= MAX_READ
  }

  /** One batch: the first read and as many of the queued ones as it takes to
      reach the bound, in order and none skipped. */
  method Coalesce(first: Blob, queue: seq<Blob>) returns (batch: Blob, taken: nat)
    requires |first| <= MAX_READ && AreReads(queue)
    ensures taken <= |queue| && batch == first + Concat(queue[..taken])
    ensures |batch| <= MAX_FRAME == 69_631
    ensures taken < |queue| ==> |batch| >= MAX_BATCH
    ensures taken > 0 ==> |first + Concat(queue[..taken - 1])| < MAX_BATCH
  {
    batch, taken := first, 0;
    while |batch| < MAX_BATCH && taken < |queue|
      invariant taken <= |queue| && batch == first + Concat(queue[..taken])
      invariant |batch| <= MAX_FRAME
      invariant taken > 0 ==> |first + Concat(queue[..taken - 1])| < MAX_BATCH
    {
      ConcatSnoc(queue[..taken], queue[taken]);
      assert queue[..taken + 1] == queue[..taken] + [queue[taken]];
      assert queue[..taken + 1][..taken] == queue[..taken];
      batch := batch + queue[taken];
      taken := taken + 1;
    }
  }

  lemma QueueIsInput(input: seq<Blob>, from: nat, end: nat, taken: nat)
    requires from <= end <= |input| && taken <= end - from
    ensures input[from..end][..taken] == input[from..from + taken]
  {
  }

  lemma WholeInput(input: seq<Blob>, at: nat)
    requires at == |input|
    ensures input[..at] == input
  {
  }

  lemma BatchAdvances(batches: seq<Blob>, batch: Blob, input: seq<Blob>, at: nat, next: nat)
    requires at < next <= |input| && Concat(batches) == Concat(input[..at])
    requires batch == input[at] + Concat(input[at + 1..next])
    ensures Concat(batches + [batch]) == Concat(input[..next])
  {
    assert input[at..next][1..] == input[at + 1..next];
    assert Concat(input[at..next]) == batch;
    ConcatAppend(input[..at], input[at..next]);
    assert input[..next] == input[..at] + input[at..next];
    ConcatSnoc(batches, batch);
  }

  /** One turn: what was queued (`n` reads) behind the read at `at`. */
  method NextBatch(input: seq<Blob>, at: nat, n: nat) returns (batch: Blob, next: nat)
    requires AreReads(input) && at < |input|
    ensures at < next <= |input| && |batch| <= MAX_FRAME
    ensures batch == input[at] + Concat(input[at + 1..next])
  {
    var end := if at + 1 + n < |input| then at + 1 + n else |input|;
    var taken;
    batch, taken := Coalesce(input[at], input[at + 1..end]);
    next := at + 1 + taken;
    QueueIsInput(input, at + 1, end, taken);
  }

  /** Every read goes out once and in order however many were queued at each
      turn (`ready`), in batches within the bound. */
  method SendAll(input: seq<Blob>, ready: nat -> nat) returns (batches: seq<Blob>)
    requires AreReads(input)
    ensures Concat(batches) == Concat(input)
    ensures forall i :: 0 <= i < |batches| ==> |batches[i]| <= MAX_FRAME
  {
    batches := [];
    var at := 0;
    while at < |input|
      invariant 0 <= at <= |input|
      invariant Concat(batches) == Concat(input[..at])
      invariant forall i :: 0 <= i < |batches| ==> |batches[i]| <= MAX_FRAME
    {
      var batch, next := NextBatch(input, at, ready(|batches|));
      BatchAdvances(batches, batch, input, at, next);
      batches := batches + [batch];
      at := next;
    }
    WholeInput(input, at);
  }
}
