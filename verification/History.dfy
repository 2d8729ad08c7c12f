/** The bounded replay history of a room (src/protocol.rs).

    The specification says which chunks survive without saying how they are
    evicted: the longest suffix of the non-empty pushes that fits both caps. */
module History {
  import opened Prelude

  /** Both caps hold; a lone chunk may exceed the byte cap. */
  predicate Fits(chunks: seq<Blob>, maxMessages: nat, maxBytes: nat) {
    |chunks| <= maxMessages && (Total(chunks) <= maxBytes || |chunks| <= 1)
  }

  function NonEmpty(pushes: seq<Blob>): (kept: seq<Blob>)
    ensures forall c :: c in kept ==> c != []
  {
    if pushes == [] then []
    else
      var rest := NonEmpty(pushes[..|pushes| - 1]);
      var last := pushes[|pushes| - 1];
      if last == [] then rest else rest + [last]
  }

  lemma {:induction false} NonEmptyKeepsAll(pushes: seq<Blob>)
    requires forall i :: 0 <= i < |pushes| ==> pushes[i] != []
    ensures NonEmpty(pushes) == pushes
  {
    if pushes != [] {
      NonEmptyKeepsAll(pushes[..|pushes| - 1]);
      assert pushes == pushes[..|pushes| - 1] + [pushes[|pushes| - 1]];
    }
  }

  predicate IsSuffix<T(==)>(s: seq<T>, all: seq<T>) {
    |s| <= |all| && s == all[|all| - |s|..]
  }

  /** `chunks` is the longest suffix of `all` that fits. */
  ghost predicate LongestFit(chunks: seq<Blob>, all: seq<Blob>, maxMessages: nat, maxBytes: nat) {
    && IsSuffix(chunks, all)
    && Fits(chunks, maxMessages, maxBytes)
    && forall k {:trigger Fits(all[k..], maxMessages, maxBytes)} ::
         0 <= k < |all| - |chunks| ==> !Fits(all[k..], maxMessages, maxBytes)
  }

  lemma LongestFitUnique(c: seq<Blob>, d: seq<Blob>, all: seq<Blob>, maxMessages: nat, maxBytes: nat)
    requires LongestFit(c, all, maxMessages, maxBytes) && LongestFit(d, all, maxMessages, maxBytes)
    ensures c == d
  {
    assert Fits(all[|all| - |c|..], maxMessages, maxBytes);
    assert Fits(all[|all| - |d|..], maxMessages, maxBytes);
  }

  /** A suffix that did not fit cannot start to fit when a chunk is appended. */
  lemma StillTooLong(chunks: seq<Blob>, m: Blob, maxMessages: nat, maxBytes: nat)
    requires chunks != [] && !Fits(chunks, maxMessages, maxBytes)
    ensures !Fits(chunks + [m], maxMessages, maxBytes)
  {
    TotalSnoc(chunks, m);
  }

  /** The chunks a fitting history holds after one more push. */
  function Pushed(chunks: seq<Blob>, message: Blob, maxMessages: nat, maxBytes: nat): (after: seq<Blob>) {
    if message == [] then chunks else Trimmed(chunks + [message], maxMessages, maxBytes)
  }

  function Trimmed(chunks: seq<Blob>, maxMessages: nat, maxBytes: nat): (after: seq<Blob>) {
    if Fits(chunks, maxMessages, maxBytes) then chunks else Trimmed(chunks[1..], maxMessages, maxBytes)
  }

  lemma {:induction false} TrimmedIsLongestFit(chunks: seq<Blob>, maxMessages: nat, maxBytes: nat)
    ensures LongestFit(Trimmed(chunks, maxMessages, maxBytes), chunks, maxMessages, maxBytes)
  {
    if !Fits(chunks, maxMessages, maxBytes) {
      TrimmedIsLongestFit(chunks[1..], maxMessages, maxBytes);
      var after := Trimmed(chunks[1..], maxMessages, maxBytes);
      forall k | 0 <= k < |chunks| - |after| ensures !Fits(chunks[k..], maxMessages, maxBytes) {
        if k == 0 {
          assert chunks[0..] == chunks;
        } else {
          assert chunks[k..] == chunks[1..][k - 1..];
        }
      }
    }
  }

  function PushAll(pushes: seq<Blob>, maxMessages: nat, maxBytes: nat): (chunks: seq<Blob>) {
    if pushes == [] then []
    else Pushed(PushAll(pushes[..|pushes| - 1], maxMessages, maxBytes), pushes[|pushes| - 1], maxMessages, maxBytes)
  }

  /** One push keeps the longest fitting suffix longest. */
  lemma PushKeepsLongest(chunks: seq<Blob>, all: seq<Blob>, m: Blob, maxMessages: nat, maxBytes: nat)
    requires LongestFit(chunks, all, maxMessages, maxBytes) && m != []
    ensures LongestFit(Pushed(chunks, m, maxMessages, maxBytes), all + [m], maxMessages, maxBytes)
  {
    var after := Trimmed(chunks + [m], maxMessages, maxBytes);
    TrimmedIsLongestFit(chunks + [m], maxMessages, maxBytes);
    var cut := |all| - |chunks|;
    var full := all + [m];
    assert full[cut..] == chunks + [m];
    forall k | 0 <= k < |full| - |after| ensures !Fits(full[k..], maxMessages, maxBytes) {
      if k < cut {
        assert !Fits(all[k..], maxMessages, maxBytes);
        assert full[k..] == all[k..] + [m];
        StillTooLong(all[k..], m, maxMessages, maxBytes);
      } else {
        assert full[k..] == (chunks + [m])[k - cut..];
      }
    }
  }

  /** History is canonical: whatever was pushed, what is stored is exactly the
      longest suffix of the non-empty pushes that fits. Holds for every cap,
      including a message cap of zero, where nothing is ever stored. */
  lemma {:induction false} HistoryIsCanonical(pushes: seq<Blob>, maxMessages: nat, maxBytes: nat)
    ensures LongestFit(PushAll(pushes, maxMessages, maxBytes), NonEmpty(pushes), maxMessages, maxBytes)
  {
    if pushes != [] {
      var front, m := pushes[..|pushes| - 1], pushes[|pushes| - 1];
      HistoryIsCanonical(front, maxMessages, maxBytes);
      if m != [] {
        PushKeepsLongest(PushAll(front, maxMessages, maxBytes), NonEmpty(front), m, maxMessages, maxBytes);
      }
    }
  }

  /** The consequence late joiners rely on: a suffix of the pushes that fits
      is held whole, so anything in it is still replayed. */
  lemma FittingSuffixIsHeld(pushes: seq<Blob>, k: nat, maxMessages: nat, maxBytes: nat)
    requires k <= |NonEmpty(pushes)|
    requires Fits(NonEmpty(pushes)[k..], maxMessages, maxBytes)
    ensures IsSuffix(NonEmpty(pushes)[k..], PushAll(pushes, maxMessages, maxBytes))
  {
    HistoryIsCanonical(pushes, maxMessages, maxBytes);
    var all := NonEmpty(pushes);
    var held := PushAll(pushes, maxMessages, maxBytes);
    assert held[|held| - (|all| - k)..] == all[k..];
  }

  class MessageHistory {
    var chunks: seq<Blob>
    const maxMessages: nat
    const maxBytes: nat
    var bytes: nat
    /** Everything ever pushed. */
    ghost var pushes: seq<Blob>

    ghost predicate Valid() reads this {
      && bytes == Total(chunks)
      && chunks == PushAll(pushes, maxMessages, maxBytes)
    }

    constructor (maxMessages: nat, maxBytes: nat)
      ensures Valid() && pushes == [] && chunks == []
      ensures this.maxMessages == maxMessages && this.maxBytes == maxBytes
    {
      this.maxMessages, this.maxBytes := maxMessages, maxBytes;
      chunks, bytes, pushes := [], 0, [];
    }

    method Push(message: Blob)
      requires Valid()
      modifies this
      ensures Valid() && pushes == old(pushes) + [message]
      ensures LongestFit(chunks, NonEmpty(old(pushes) + [message]), maxMessages, maxBytes)
    {
      ghost var before, pushed := chunks, pushes + [message];
      assert pushed[..|pushed| - 1] == pushes;
      pushes := pushed;
      HistoryIsCanonical(pushed, maxMessages, maxBytes);
      if message == [] {
        return;
      }
      TotalSnoc(chunks, message);
      bytes := bytes + |message|;
      chunks := chunks + [message];
      while |chunks| > maxMessages || (bytes > maxBytes && |chunks| > 1)
        invariant bytes == Total(chunks) && pushes == pushed
        invariant Trimmed(chunks, maxMessages, maxBytes) == Pushed(before, message, maxMessages, maxBytes)
        decreases |chunks|
      {
        bytes := bytes - |chunks[0]|;
        chunks := chunks[1..];
      }
    }

    /** What a joiner is sent first: every chunk held, run together. */
    method Accumulated() returns (all: Option<Blob>)
      requires Valid()
      ensures all == if chunks == [] then None else Some(Concat(chunks))
      ensures all.Some? ==> |all.value| == bytes
    {
      if chunks == [] {
        return None;
      }
      var buffer: Blob := [];
      for i := 0 to |chunks|
        invariant buffer == Concat(chunks[..i])
      {
        ConcatSnoc(chunks[..i], chunks[i]);
        assert chunks[..i + 1] == chunks[..i] + [chunks[i]];
        buffer := buffer + chunks[i];
      }
      assert chunks[..|chunks|] == chunks;
      ConcatLength(chunks);
      return Some(buffer);
    }
  }
}
