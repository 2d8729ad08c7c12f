/** Sealed records and their two readers: the printer is `Encryptor::seal`
    (src/cli/crypto.rs), the readers are `decryptRecords` (public/javascript/room.js)
    and `decode` with its carry buffer (templates/agent.mjs).

    Layout: a big-endian u32 N, then N bytes: a 12-byte nonce, the ciphertext
    and a 16-byte tag. The cipher is a pair of functions; what is asked of it is
    asked record by record (`Opens`). */
module Records {
  import opened Prelude
  import History

  const NONCE_LEN: nat := 12
  const TAG_LEN: nat := 16
  /** The shortest record body: a nonce and a tag. */
  const MIN_BODY: nat := 28
  const U32_LIMIT: nat := 0x1_0000_0000

  datatype Cipher = Cipher(enc: (Blob, Blob, Blob) -> Blob, dec: (Blob, Blob, Blob) -> Option<Blob>)

  /** One sealed chunk: who sealed it, under which nonce, and what it says. */
  datatype Record = Record(key: Blob, nonce: Blob, plain: Blob)

  function ToBE(n: nat): (b: Blob)
    requires n < U32_LIMIT
    ensures |b| == 4
  {
    [n / 0x100_0000, n / 0x1_0000 % 0x100, n / 0x100 % 0x100, n % 0x100]
  }

  function FromBE(b: Blob): (n: nat)
    requires |b| >= 4
  {
    (b[0] as int) * 0x100_0000 + (b[1] as int) * 0x1_0000 + (b[2] as int) * 0x100 + b[3] as int
  }

  lemma LengthRoundTrips(n: nat, rest: Blob)
    requires n < U32_LIMIT
    ensures FromBE(ToBE(n) + rest) == n
  {
    var b := ToBE(n) + rest;
    assert b[0] == n / 0x100_0000 && b[1] == n / 0x1_0000 % 0x100 && b[2] == n / 0x100 % 0x100 && b[3] == n % 0x100;
    assert n == 0x100 * (n / 0x100) + n % 0x100;
    assert n / 0x100 == 0x100 * (n / 0x1_0000) + n / 0x100 % 0x100;
    assert n / 0x1_0000 == 0x100 * (n / 0x100_0000) + n / 0x1_0000 % 0x100;
  }

  function Sealed(c: Cipher, r: Record): (ciphertext: Blob) { c.enc(r.key, r.nonce, r.plain) }

  /** What sealing needs: a 12-byte nonce, a tag of 16 bytes, and a body whose
      length fits the prefix (the program panics otherwise). */
  predicate Sealable(c: Cipher, r: Record) {
    |r.nonce| == NONCE_LEN && |Sealed(c, r)| == |r.plain| + TAG_LEN && |r.plain| + MIN_BODY < U32_LIMIT
  }

  /** `key` opens the record exactly when it sealed it. */
  predicate Opens(c: Cipher, key: Blob, r: Record) {
    c.dec(key, r.nonce, Sealed(c, r)) == if r.key == key then Some(r.plain) else None
  }

  function Body(c: Cipher, r: Record): (b: Blob) { r.nonce + Sealed(c, r) }

  function Seal(c: Cipher, r: Record): (b: Blob)
    requires Sealable(c, r)
  {
    ToBE(NONCE_LEN + |Sealed(c, r)|) + r.nonce + Sealed(c, r)
  }

  predicate AllSealable(c: Cipher, recs: seq<Record>) {
    forall i :: 0 <= i < |recs| ==> Sealable(c, recs[i])
  }

  predicate AllOpen(c: Cipher, key: Blob, recs: seq<Record>) {
    forall i :: 0 <= i < |recs| ==> Opens(c, key, recs[i])
  }

  function Seals(c: Cipher, recs: seq<Record>): (chunks: seq<Blob>)
    requires AllSealable(c, recs)
    ensures |chunks| == |recs| && forall i :: 0 <= i < |recs| ==> chunks[i] == Seal(c, recs[i])
  {
    if recs == [] then [] else [Seal(c, recs[0])] + Seals(c, recs[1..])
  }

  function Bodies(c: Cipher, recs: seq<Record>): (bodies: seq<Blob>)
    ensures |bodies| == |recs| && forall i :: 0 <= i < |recs| ==> bodies[i] == Body(c, recs[i])
  {
    if recs == [] then [] else [Body(c, recs[0])] + Bodies(c, recs[1..])
  }

  /** The plaintexts a holder of `key` may read, in order. */
  function Readable(recs: seq<Record>, key: Blob): (plains: seq<Blob>) {
    if recs == [] then []
    else (if recs[0].key == key then [recs[0].plain] else []) + Readable(recs[1..], key)
  }

  // ---- Framing ----

  /** A whole record leads: a length prefix and that many bytes. */
  predicate Leads(bytes: Blob) {
    |bytes| >= 4 && MIN_BODY <= FromBE(bytes) <= |bytes| - 4
  }

  function Head(bytes: Blob): (body: Blob)
    requires Leads(bytes)
  {
    bytes[4..4 + FromBE(bytes)]
  }

  function Tail(bytes: Blob): (rest: Blob)
    requires Leads(bytes)
    ensures |rest| < |bytes|
  {
    bytes[4 + FromBE(bytes)..]
  }

  /** Cut bytes into record bodies; `None` when the framing is broken. */
  function Split(bytes: Blob): (bodies: Option<seq<Blob>>)
    decreases |bytes|
  {
    if bytes == [] then Some([])
    else if !Leads(bytes) then None
    else
      match Split(Tail(bytes))
      case None => None
      case Some(rest) => Some([Head(bytes)] + rest)
  }

  function Framed(bodies: seq<Blob>): (bytes: Blob)
    requires forall b :: b in bodies ==> |b| < U32_LIMIT
  {
    if bodies == [] then [] else ToBE(|bodies[0]|) + bodies[0] + Framed(bodies[1..])
  }

  lemma LeadingRecord(bytes: Blob)
    requires Leads(bytes)
    ensures MIN_BODY <= |Head(bytes)| < U32_LIMIT
    ensures bytes == ToBE(|Head(bytes)|) + Head(bytes) + Tail(bytes)
  {
    ToBEOfFrom(bytes);
    assert bytes == bytes[..4] + Head(bytes) + Tail(bytes);
  }

  /** The framing is exact: what splits is the framing of its pieces. */
  lemma {:induction false} SplitIsFramed(bytes: Blob, bodies: seq<Blob>)
    requires Split(bytes) == Some(bodies)
    ensures forall b :: b in bodies ==> MIN_BODY <= |b| < U32_LIMIT
    ensures Framed(bodies) == bytes
    decreases |bytes|
  {
    if bytes != [] {
      LeadingRecord(bytes);
      SplitIsFramed(Tail(bytes), bodies[1..]);
      assert bodies == [Head(bytes)] + bodies[1..];
    }
  }

  lemma ToBEOfFrom(bytes: Blob)
    requires |bytes| >= 4
    ensures FromBE(bytes) < U32_LIMIT && ToBE(FromBE(bytes)) == bytes[..4]
  {
    var n := FromBE(bytes);
    var b0: int, b1: int, b2: int := bytes[0], bytes[1], bytes[2];
    assert n / 0x100 == b0 * 0x1_0000 + b1 * 0x100 + b2;
    assert n / 0x1_0000 == b0 * 0x100 + b1;
    assert n / 0x100_0000 == b0;
  }

  lemma WrittenRecord(body: Blob, rest: Blob)
    requires MIN_BODY <= |body| < U32_LIMIT
    ensures var bytes := ToBE(|body|) + body + rest; Leads(bytes) && Head(bytes) == body && Tail(bytes) == rest
  {
    var bytes := ToBE(|body|) + body + rest;
    assert bytes == ToBE(|body|) + (body + rest);
    LengthRoundTrips(|body|, body + rest);
  }

  lemma SplitCons(body: Blob, rest: Blob)
    requires MIN_BODY <= |body| < U32_LIMIT
    ensures Split(ToBE(|body|) + body + rest) ==
            match Split(rest) case None => None case Some(more) => Some([body] + more)
  {
    WrittenRecord(body, rest);
  }

  /** Framing is read back as written. */
  lemma {:induction false} FramedSplits(bodies: seq<Blob>)
    requires forall b :: b in bodies ==> MIN_BODY <= |b| < U32_LIMIT
    ensures Split(Framed(bodies)) == Some(bodies)
  {
    if bodies != [] {
      assert bodies[0] in bodies;
      FramedSplits(bodies[1..]);
      SplitCons(bodies[0], Framed(bodies[1..]));
      assert [bodies[0]] + bodies[1..] == bodies;
    }
  }

  lemma LeadsStill(a: Blob, b: Blob)
    requires Leads(a)
    ensures Leads(a + b) && Head(a + b) == Head(a) && Tail(a + b) == Tail(a) + b
  {
    assert FromBE(a + b) == FromBE(a);
  }

  function After(body: Blob, rest: Option<seq<Blob>>): (bodies: Option<seq<Blob>>) {
    if rest.None? then None else Some([body] + rest.value)
  }

  lemma SplitStep(a: Blob, b: Blob)
    requires Leads(a)
    ensures Split(a) == After(Head(a), Split(Tail(a)))
    ensures Split(a + b) == After(Head(a), Split(Tail(a) + b))
  {
    LeadsStill(a, b);
  }

  /** A reader at a record boundary need not see where frames were joined. */
  lemma {:induction false} SplitConcat(a: Blob, b: Blob)
    requires Split(a).Some?
    ensures Split(a + b) == if Split(b).None? then None else Some(Split(a).value + Split(b).value)
    decreases |a|
  {
    if a == [] {
      assert a + b == b;
      assert Split(b).Some? ==> [] + Split(b).value == Split(b).value;
    } else {
      SplitStep(a, b);
      SplitConcat(Tail(a), b);
      if Split(b).Some? {
        Reassociate(Head(a), Split(Tail(a)).value, Split(b).value);
      }
    }
  }

  lemma Reassociate(x: Blob, ys: seq<Blob>, zs: seq<Blob>)
    ensures [x] + (ys + zs) == ([x] + ys) + zs
  {
  }

  /** What sealing adds: the length, the nonce and the tag. */
  const OVERHEAD: nat := 4 + NONCE_LEN + TAG_LEN

  lemma SealAdds(c: Cipher, r: Record)
    requires Sealable(c, r)
    ensures |Seal(c, r)| == |r.plain| + OVERHEAD == |r.plain| + 32
  {
  }

  lemma SealIsFramed(c: Cipher, r: Record)
    requires Sealable(c, r)
    ensures Seal(c, r) == ToBE(|Body(c, r)|) + Body(c, r) && MIN_BODY <= |Body(c, r)| < U32_LIMIT
  {
  }

  lemma {:induction false} SealsSplit(c: Cipher, recs: seq<Record>)
    requires AllSealable(c, recs)
    ensures Split(Concat(Seals(c, recs))) == Some(Bodies(c, recs))
  {
    if recs != [] {
      SealsSplit(c, recs[1..]);
      SealIsFramed(c, recs[0]);
      SplitCons(Body(c, recs[0]), Concat(Seals(c, recs[1..])));
    }
  }

  // ---- The page's reader ----

  /** The bodies that open under `key`, in order; the others are skipped. */
  function OpenAll(c: Cipher, key: Blob, bodies: seq<Blob>): (plains: seq<Blob>)
    requires forall b :: b in bodies ==> |b| >= NONCE_LEN
  {
    if bodies == [] then []
    else
      var plain := c.dec(key, bodies[0][..NONCE_LEN], bodies[0][NONCE_LEN..]);
      (if plain.Some? then [plain.value] else []) + OpenAll(c, key, bodies[1..])
  }

  lemma {:induction false} OpenAllAppend(c: Cipher, key: Blob, xs: seq<Blob>, ys: seq<Blob>)
    requires forall b :: b in xs + ys ==> |b| >= NONCE_LEN
    ensures forall b :: b in xs ==> |b| >= NONCE_LEN
    ensures forall b :: b in ys ==> |b| >= NONCE_LEN
    ensures OpenAll(c, key, xs + ys) == OpenAll(c, key, xs) + OpenAll(c, key, ys)
  {
    assert forall b :: b in xs || b in ys ==> b in xs + ys;
    if xs == [] {
      assert xs + ys == ys;
    } else {
      assert (xs + ys)[1..] == xs[1..] + ys;
      OpenAllAppend(c, key, xs[1..], ys);
    }
  }

  function Opened(c: Cipher, key: Blob, body: Blob): (plains: seq<Blob>)
    requires |body| >= NONCE_LEN
  {
    var plain := c.dec(key, body[..NONCE_LEN], body[NONCE_LEN..]);
    if plain.Some? then [plain.value] else []
  }

  lemma OpenAllSnoc(c: Cipher, key: Blob, xs: seq<Blob>, x: Blob)
    requires forall b :: b in xs ==> |b| >= NONCE_LEN
    requires |x| >= NONCE_LEN
    ensures forall b :: b in xs + [x] ==> |b| >= NONCE_LEN
    ensures OpenAll(c, key, xs + [x]) == OpenAll(c, key, xs) + Opened(c, key, x)
  {
    OpenAllAppend(c, key, xs, [x]);
    assert [x][1..] == [];
  }

  /** What the whole splits into, `taken` being off the front and `rest` to come. */
  function Join(taken: seq<Blob>, rest: Option<seq<Blob>>): (all: Option<seq<Blob>>) {
    if rest.None? then None else Some(taken + rest.value)
  }

  lemma JoinOn(bytes: Blob, offset: nat, n: nat, taken: seq<Blob>)
    requires offset <= |bytes| && Leads(bytes[offset..]) && n == FromBE(bytes[offset..])
    ensures offset + 4 + n <= |bytes| && |bytes[offset + 4..offset + 4 + n]| >= NONCE_LEN
    ensures Join(taken, Split(bytes[offset..])) ==
            Join(taken + [bytes[offset + 4..offset + 4 + n]], Split(bytes[offset + 4 + n..]))
  {
    var rest, next := bytes[offset..], offset + 4 + n;
    assert bytes[next..] == Tail(rest) && bytes[offset + 4..next] == Head(rest);
    if Split(Tail(rest)).Some? {
      var more := Split(Tail(rest)).value;
      assert taken + ([Head(rest)] + more) == (taken + [Head(rest)]) + more;
    }
  }

  /** Opening one more body; `plain` is what the cipher gave. */
  lemma OpenOn(c: Cipher, key: Blob, taken: seq<Blob>, bytes: Blob, body: nat, n: nat, plain: Option<Blob>)
    requires forall b :: b in taken ==> |b| >= NONCE_LEN
    requires NONCE_LEN <= n && body + n <= |bytes|
    requires plain == c.dec(key, bytes[body..body + NONCE_LEN], bytes[body + NONCE_LEN..body + n])
    ensures forall b :: b in taken + [bytes[body..body + n]] ==> |b| >= NONCE_LEN
    ensures OpenAll(c, key, taken + [bytes[body..body + n]]) ==
            OpenAll(c, key, taken) + if plain.Some? then [plain.value] else []
  {
    var whole := bytes[body..body + n];
    assert whole[..NONCE_LEN] == bytes[body..body + NONCE_LEN];
    assert whole[NONCE_LEN..] == bytes[body + NONCE_LEN..body + n];
    OpenAllSnoc(c, key, taken, whole);
  }

  lemma JoinEnds(bytes: Blob, taken: seq<Blob>)
    ensures Join([], Split(bytes[0..])) == Split(bytes)
    ensures Join(taken, Split(bytes[|bytes|..])) == Some(taken)
  {
    assert bytes[0..] == bytes && bytes[|bytes|..] == [] && taken + [] == taken;
    assert Split(bytes).Some? ==> [] + Split(bytes).value == Split(bytes).value;
  }

  /** Open the record at `offset`, `n` bytes long, behind what was `taken`. */
  method OpenRecord(c: Cipher, key: Blob, bytes: Blob, offset: nat, n: nat, chunks: seq<Blob>, ghost taken: seq<Blob>)
    returns (more: seq<Blob>, ghost taken': seq<Blob>)
    requires offset <= |bytes| && Leads(bytes[offset..]) && n == FromBE(bytes[offset..])
    requires (forall b :: b in taken ==> |b| >= NONCE_LEN) && chunks == OpenAll(c, key, taken)
    ensures offset + 4 + n <= |bytes|
    ensures Join(taken', Split(bytes[offset + 4 + n..])) == Join(taken, Split(bytes[offset..]))
    ensures (forall b :: b in taken' ==> |b| >= NONCE_LEN) && more == OpenAll(c, key, taken')
  {
    var body := offset + 4;
    JoinOn(bytes, offset, n, taken);
    var plain := c.dec(key, bytes[body..body + NONCE_LEN], bytes[body + NONCE_LEN..body + n]);
    OpenOn(c, key, taken, bytes, body, n, plain);
    taken' := taken + [bytes[body..body + n]];
    more := if plain.Some? then chunks + [plain.value] else chunks;
    assert chunks + [] == chunks;
  }

  /** Decrypt one binary message: `None` stands for a rejected promise. */
  method DecryptRecords(c: Cipher, key: Blob, bytes: Blob) returns (r: Option<seq<Blob>>)
    ensures r.Some? <==> Split(bytes).Some?
    ensures r.Some? ==>
              && (forall b :: b in Split(bytes).value ==> |b| >= NONCE_LEN)
              && r.value == OpenAll(c, key, Split(bytes).value)
  {
    var chunks: seq<Blob> := [];
    var offset := 0;
    ghost var taken: seq<Blob> := [];
    JoinEnds(bytes, taken);
    while offset < |bytes|
      invariant offset <= |bytes| && Split(bytes) == Join(taken, Split(bytes[offset..]))
      invariant forall b :: b in taken ==> |b| >= NONCE_LEN
      invariant chunks == OpenAll(c, key, taken)
      decreases |bytes| - offset
    {
      if |bytes| - offset < 4 {
        return None;
      }
      var n := FromBE(bytes[offset..]);
      if n < MIN_BODY || |bytes| - offset - 4 < n {
        return None;
      }
      chunks, taken := OpenRecord(c, key, bytes, offset, n, chunks, taken);
      offset := offset + 4 + n;
    }
    JoinEnds(bytes, taken);
    return Some(chunks);
  }

  lemma {:induction false} BodiesOpen(c: Cipher, key: Blob, recs: seq<Record>)
    requires AllSealable(c, recs) && AllOpen(c, key, recs)
    ensures forall b :: b in Bodies(c, recs) ==> |b| >= NONCE_LEN
    ensures OpenAll(c, key, Bodies(c, recs)) == Readable(recs, key)
  {
    if recs != [] {
      BodiesOpen(c, key, recs[1..]);
      assert Body(c, recs[0])[..NONCE_LEN] == recs[0].nonce;
      assert Body(c, recs[0])[NONCE_LEN..] == Sealed(c, recs[0]);
    }
  }

  /** What the page shows for one message. */
  function Shown(c: Cipher, key: Blob, bytes: Blob): (plains: seq<Blob>) {
    match Split(bytes)
    case None => []
    case Some(bodies) =>
      SplitIsFramed(bytes, bodies);
      OpenAll(c, key, bodies)
  }

  /** Sealed chunks, run together, read back as exactly the plaintexts sealed
      under the reader's key, in order; records of other keys are skipped and the
      message is never rejected. */
  lemma SealedChunksReadBack(c: Cipher, key: Blob, recs: seq<Record>)
    requires AllSealable(c, recs) && AllOpen(c, key, recs)
    ensures Split(Concat(Seals(c, recs))).Some?
    ensures Shown(c, key, Concat(Seals(c, recs))) == Readable(recs, key)
  {
    SealsSplit(c, recs);
    BodiesOpen(c, key, recs);
  }

  // ---- Joining and cutting at record boundaries ----

  function ShownAll(c: Cipher, key: Blob, frames: seq<Blob>): (plains: seq<Blob>) {
    if frames == [] then [] else Shown(c, key, frames[0]) + ShownAll(c, key, frames[1..])
  }

  lemma {:induction false} FramesReadAsOne(c: Cipher, key: Blob, frames: seq<Blob>)
    requires forall f :: f in frames ==> Split(f).Some?
    ensures Split(Concat(frames)).Some? && ShownAll(c, key, frames) == Shown(c, key, Concat(frames))
  {
    if frames != [] {
      var a, b := frames[0], Concat(frames[1..]);
      FramesReadAsOne(c, key, frames[1..]);
      SplitConcat(a, b);
      SplitIsFramed(a, Split(a).value);
      SplitIsFramed(b, Split(b).value);
      SplitIsFramed(a + b, Split(a + b).value);
      OpenAllAppend(c, key, Split(a).value, Split(b).value);
    }
  }

  /** However a run of sealed chunks is cut into frames that each split, reading
      the frames in turn yields exactly the readable plaintexts, in order. */
  lemma RegroupedChunksReadBack(c: Cipher, key: Blob, recs: seq<Record>, frames: seq<Blob>)
    requires AllSealable(c, recs) && AllOpen(c, key, recs)
    requires forall f :: f in frames ==> Split(f).Some?
    requires Concat(frames) == Concat(Seals(c, recs))
    ensures ShownAll(c, key, frames) == Readable(recs, key)
  {
    FramesReadAsOne(c, key, frames);
    SealedChunksReadBack(c, key, recs);
  }

  lemma {:induction false} WholeChunksSplit(c: Cipher, parts: seq<Blob>, recs: seq<Record>)
    requires AllSealable(c, recs) && forall p :: p in parts ==> p in Seals(c, recs)
    ensures Split(Concat(parts)).Some?
  {
    if parts != [] {
      WholeChunksSplit(c, parts[1..], recs);
      assert parts[0] in parts;
      var i :| 0 <= i < |recs| && Seals(c, recs)[i] == parts[0];
      SealIsFramed(c, recs[i]);
      assert parts[0] + [] == parts[0];
      SplitCons(Body(c, recs[i]), []);
      SplitConcat(parts[0], Concat(parts[1..]));
    }
  }

  /** The replay window of an encrypted room: whatever was trimmed, the history a
      joiner is sent reads back as the plaintexts of the newest records. */
  lemma HistoryReadsBack(c: Cipher, key: Blob, recs: seq<Record>, maxMessages: nat, maxBytes: nat) returns (k: nat)
    requires AllSealable(c, recs) && AllOpen(c, key, recs)
    ensures k <= |recs|
    ensures History.PushAll(Seals(c, recs), maxMessages, maxBytes) == Seals(c, recs)[k..]
    ensures Shown(c, key, Concat(Seals(c, recs)[k..])) == Readable(recs[k..], key)
  {
    k := HeldRecords(c, recs, maxMessages, maxBytes);
    SealsFrom(c, recs, k);
    SealedChunksReadBack(c, key, recs[k..]);
  }

  lemma HeldRecords(c: Cipher, recs: seq<Record>, maxMessages: nat, maxBytes: nat) returns (k: nat)
    requires AllSealable(c, recs)
    ensures k <= |recs|
    ensures History.PushAll(Seals(c, recs), maxMessages, maxBytes) == Seals(c, recs)[k..]
  {
    var pushes := Seals(c, recs);
    History.HistoryIsCanonical(pushes, maxMessages, maxBytes);
    History.NonEmptyKeepsAll(pushes);
    k := |recs| - |History.PushAll(pushes, maxMessages, maxBytes)|;
  }

  lemma SealsFrom(c: Cipher, recs: seq<Record>, k: nat)
    requires AllSealable(c, recs) && k <= |recs|
    ensures Seals(c, recs[k..]) == Seals(c, recs)[k..]
  {
  }
}
