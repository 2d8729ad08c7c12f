/** The command-line reader (templates/agent.mjs): `decode`, which stops at a
    partial record, and the follow handler, which carries the rest over. */
module Agent {
  import opened Prelude
  import opened Records

  datatype Decoded = Decoded(plain: Blob, consumed: nat) | WrongKey

  function Least(a: nat, b: nat): (m: nat) { if a < b then a else b }

  /** A slice whose bounds are clamped to the buffer. */
  function Sub(b: Blob, i: nat, j: nat): (s: Blob) {
    var hi := Least(j, |b|);
    var lo := Least(i, hi);
    b[lo..hi]
  }

  /** Whether a whole record, of whatever length it claims, is at hand. */
  predicate AtHand(b: Blob) {
    |b| >= 4 && FromBE(b) <= |b| - 4
  }

  /** Open what follows a nonce. Nothing at all has no tag, which is refused. */
  function Open(c: Cipher, key: Blob, nonce: Blob, body: Blob): (plain: Option<Blob>) {
    if body == [] then None else c.dec(key, nonce, body)
  }

  function OpenFirst(c: Cipher, key: Blob, b: Blob): (plain: Option<Blob>)
    requires AtHand(b)
  {
    Open(c, key, Sub(b, 4, 16), Sub(b, 16, 4 + FromBE(b)))
  }

  /** A decoding that comes after `plain`, said by `n` bytes. */
  function Before(plain: Blob, n: nat, rest: Decoded): (d: Decoded) {
    match rest
    case WrongKey => WrongKey
    case Decoded(more, consumed) => Decoded(plain + more, n + consumed)
  }

  function DecodeAll(c: Cipher, key: Blob, b: Blob): (d: Decoded)
    ensures d.Decoded? ==> d.consumed <= |b|
    decreases |b|
  {
    if !AtHand(b) then Decoded([], 0)
    else
      match OpenFirst(c, key, b)
      case None => WrongKey
      case Some(plain) => Before(plain, 4 + FromBE(b), DecodeAll(c, key, b[4 + FromBE(b)..]))
  }

  lemma BeforeTwice(p: Blob, m: nat, q: Blob, n: nat, rest: Decoded)
    ensures Before(p, m, Before(q, n, rest)) == Before(p + q, m + n, rest)
  {
  }

  lemma OpenAt(c: Cipher, key: Blob, buf: Blob, o: nat)
    requires o <= |buf| && AtHand(buf[o..])
    ensures var n := FromBE(buf[o..]);
            && OpenFirst(c, key, buf[o..]) == Open(c, key, Sub(buf, o + 4, o + 16), Sub(buf, o + 16, o + 4 + n))
            && buf[o..][4 + n..] == buf[o + 4 + n..]
  {
    SubFrom(buf, o, 4, 16);
    SubFrom(buf, o, 16, 4 + FromBE(buf[o..]));
  }

  /** The loop has said `out` for the first `o` bytes; the rest decides. */
  ghost predicate Reached(c: Cipher, key: Blob, buf: Blob, out: Blob, o: nat) {
    o <= |buf| && DecodeAll(c, key, buf) == Before(out, o, DecodeAll(c, key, buf[o..]))
  }

  lemma ReachedStart(c: Cipher, key: Blob, buf: Blob)
    ensures Reached(c, key, buf, [], 0)
  {
    assert buf[0..] == buf;
    var d := DecodeAll(c, key, buf);
    assert d.Decoded? ==> [] + d.plain == d.plain;
  }

  /** One turn of the loop: the record at `o` opens, or the key is wrong. */
  lemma ReachedTurn(c: Cipher, key: Blob, buf: Blob, out: Blob, o: nat, next: nat, plain: Option<Blob>)
    requires Reached(c, key, buf, out, o) && AtHand(buf[o..]) && next == o + 4 + FromBE(buf[o..])
    requires plain == Open(c, key, Sub(buf, o + 4, o + 16), Sub(buf, o + 16, next))
    ensures plain.None? ==> DecodeAll(c, key, buf) == WrongKey
    ensures plain.Some? ==> Reached(c, key, buf, out + plain.value, next)
  {
    OpenAt(c, key, buf, o);
    if plain.Some? {
      BeforeTwice(out, o, plain.value, next - o, DecodeAll(c, key, buf[next..]));
    }
  }

  lemma ReachedEnd(c: Cipher, key: Blob, buf: Blob, out: Blob, o: nat)
    requires Reached(c, key, buf, out, o) && !AtHand(buf[o..])
    ensures DecodeAll(c, key, buf) == Decoded(out, o)
  {
    assert out + [] == out;
  }

  /** What one turn of the loop finds: nothing whole, a record of another key, or a
      record that opens and ends at `next`. */
  datatype Turn = Partial | Foreign | Opened(next: nat, plain: Blob)

  method TakeTurn(c: Cipher, key: Blob, buf: Blob, o: nat, ghost out: Blob) returns (t: Turn)
    requires Reached(c, key, buf, out, o) && |buf| >= o + 4
    ensures t.Partial? ==> DecodeAll(c, key, buf) == Decoded(out, o)
    ensures t.Foreign? ==> DecodeAll(c, key, buf) == WrongKey
    ensures t.Opened? ==> o < t.next <= |buf| && Reached(c, key, buf, out + t.plain, t.next)
  {
    var next := o + 4 + FromBE(buf[o..]);
    if |buf| < next {
      ReachedEnd(c, key, buf, out, o);
      return Partial;
    }
    var plain := Open(c, key, Sub(buf, o + 4, o + 16), Sub(buf, o + 16, next));
    ReachedTurn(c, key, buf, out, o, next, plain);
    if plain.None? {
      return Foreign;
    }
    return Opened(next, plain.value);
  }

  /** The loop of `decode`. */
  method Decode(c: Cipher, key: Blob, buf: Blob) returns (d: Decoded)
    ensures d == DecodeAll(c, key, buf)
  {
    var out: Blob := [];
    var o := 0;
    ReachedStart(c, key, buf);
    while |buf| >= o + 4
      invariant o <= |buf| && Reached(c, key, buf, out, o)
      decreases |buf| - o
    {
      var turn := TakeTurn(c, key, buf, o, out);
      match turn {
        case Partial => return Decoded(out, o);
        case Foreign => return WrongKey;
        case Opened(next, plain) => out, o := out + plain, next;
      }
    }
    ReachedEnd(c, key, buf, out, o);
    return Decoded(out, o);
  }

  lemma SubFrom(buf: Blob, o: nat, i: nat, j: nat)
    requires o <= |buf|
    ensures Sub(buf, o + i, o + j) == Sub(buf[o..], i, j)
  {
  }

  /** Whether a buffer starts with a whole, plausible record. */
  predicate StartsFramed(b: Blob) {
    |b| >= 4 && FromBE(b) >= MIN_BODY && |b| >= FromBE(b) + 4
  }

  datatype Stop = NotEncrypted | BadKey

  /** The follow handler's state: the carry, whether the first message was looked
      at, the bytes handed to the text decoder, and why it stopped, if it did. */
  datatype Following = Following(buf: Blob, checked: bool, out: Blob, stopped: Option<Stop>)

  const LISTENING: Following := Following([], false, [], None)

  /** What the handler does with what its buffer decoded to. */
  function Settle(f: Following, buf: Blob, d: Decoded): (after: Following)
    requires d.Decoded? ==> d.consumed <= |buf|
  {
    match d
    case WrongKey => Following(buf, true, f.out, Some(BadKey))
    case Decoded(plain, consumed) => Following(buf[consumed..], true, f.out + plain, None)
  }

  /** One binary message. Nothing is handled once the reader stopped. */
  function Hear(c: Cipher, key: Blob, f: Following, data: Blob): (after: Following) {
    if f.stopped.Some? then f
    else
      var buf := f.buf + data;
      if !f.checked && buf != [] && !StartsFramed(buf) then Following(buf, true, f.out, Some(NotEncrypted))
      else Settle(f, buf, DecodeAll(c, key, buf))
  }

  class Follower {
    const cipher: Cipher
    const key: Blob
    var buf: Blob
    var checked: bool
    var out: Blob
    var stopped: Option<Stop>

    function Value(): (f: Following)
      reads this
    {
      Following(buf, checked, out, stopped)
    }

    constructor (cipher: Cipher, key: Blob)
      ensures this.cipher == cipher && this.key == key && Value() == LISTENING
    {
      this.cipher, this.key := cipher, key;
      buf, checked, out, stopped := [], false, [], None;
    }

    method OnBinary(data: Blob)
      modifies this
      ensures Value() == Hear(cipher, key, old(Value()), data)
    {
      if stopped.Some? {
        return;
      }
      buf := buf + data;
      if !checked {
        checked := true;
        if buf != [] && !StartsFramed(buf) {
          stopped := Some(NotEncrypted);
          return;
        }
      }
      var d := Decode(cipher, key, buf);
      if d.WrongKey? {
        stopped := Some(BadKey);
        return;
      }
      buf := buf[d.consumed..];
      out := out + d.plain;
    }
  }

  function HearAll(c: Cipher, key: Blob, pieces: seq<Blob>): (f: Following) {
    if pieces == [] then LISTENING
    else Hear(c, key, HearAll(c, key, pieces[..|pieces| - 1]), pieces[|pieces| - 1])
  }

  /** Plain text is noticed, and by the first message alone: the reader gives up for
      want of encryption exactly when that holds something but not a whole record of
      a plausible length, and then it has said nothing, whatever follows. */
  lemma {:induction false} TextIsNoticed(c: Cipher, key: Blob, pieces: seq<Blob>)
    requires pieces != []
    ensures HearAll(c, key, pieces).checked
    ensures var first, f := pieces[0], HearAll(c, key, pieces);
            && (f.stopped == Some(NotEncrypted) <==>
                first != [] && (|first| < 4 || FromBE(first) < 28 || |first| < 4 + FromBE(first)))
            && (f.stopped == Some(NotEncrypted) ==> f.out == [])
    decreases |pieces|
  {
    var front := pieces[..|pieces| - 1];
    if front == [] {
      assert LISTENING.buf + pieces[0] == pieces[0];
    } else {
      TextIsNoticed(c, key, front);
    }
  }

  // ---- Streaming is one-shot ----

  /** More bytes change nothing about a whole record at hand: if its body is not
      empty, its nonce is within it. */
  lemma AtHandStill(c: Cipher, key: Blob, a: Blob, b: Blob)
    requires AtHand(a)
    ensures AtHand(a + b) && FromBE(a + b) == FromBE(a)
    ensures OpenFirst(c, key, a + b) == OpenFirst(c, key, a)
    ensures (a + b)[4 + FromBE(a)..] == a[4 + FromBE(a)..] + b
  {
    var n := FromBE(a);
    assert FromBE(a + b) == n;
    assert Sub(a + b, 16, 4 + n) == Sub(a, 16, 4 + n);
    if n > NONCE_LEN {
      assert Sub(a + b, 4, 16) == Sub(a, 4, 16);
    }
  }

  /** Decoding `a`, then what it left together with `b`. */
  function Onward(c: Cipher, key: Blob, a: Blob, b: Blob): (d: Decoded) {
    match DecodeAll(c, key, a)
    case WrongKey => WrongKey
    case Decoded(plain, consumed) => Before(plain, consumed, DecodeAll(c, key, a[consumed..] + b))
  }

  /** The same in two parts: `k` bytes decoded behind the first `n`, then `rest`. */
  lemma OnwardBehind(c: Cipher, key: Blob, a: Blob, b: Blob, n: nat, plain: Blob, p: Blob, k: nat)
    requires n + k <= |a| && DecodeAll(c, key, a) == Decoded(plain + p, n + k)
    ensures Onward(c, key, a, b) == Before(plain, n, Before(p, k, DecodeAll(c, key, a[n + k..] + b)))
  {
    BeforeTwice(plain, n, p, k, DecodeAll(c, key, a[n + k..] + b));
  }

  lemma OnwardStep(c: Cipher, key: Blob, a: Blob, b: Blob, plain: Blob)
    requires AtHand(a) && OpenFirst(c, key, a) == Some(plain)
    ensures Onward(c, key, a, b) == Before(plain, 4 + FromBE(a), Onward(c, key, a[4 + FromBE(a)..], b))
  {
    var n := 4 + FromBE(a);
    var d := DecodeAll(c, key, a[n..]);
    assert DecodeAll(c, key, a) == Before(plain, n, d);
    if d.Decoded? {
      OnwardBehind(c, key, a, b, n, plain, d.plain, d.consumed);
      assert a[n..][d.consumed..] == a[n + d.consumed..];
    }
  }

  /** Decoding more bytes goes on from where decoding the first ones stopped. */
  lemma {:induction false} DecodeResumes(c: Cipher, key: Blob, a: Blob, b: Blob)
    ensures DecodeAll(c, key, a + b) == Onward(c, key, a, b)
    decreases |a|
  {
    if AtHand(a) {
      AtHandStill(c, key, a, b);
      DecodeResumes(c, key, a[4 + FromBE(a)..], b);
      if OpenFirst(c, key, a).Some? {
        OnwardStep(c, key, a, b, OpenFirst(c, key, a).value);
      }
    } else {
      assert a[0..] == a;
    }
  }

  /** The follower stands where decoding `bytes` in one go, to `d`, would leave it. */
  ghost predicate Matches(f: Following, bytes: Blob, d: Decoded)
    requires d.Decoded? ==> d.consumed <= |bytes|
  {
    match d
    case WrongKey => f.stopped == Some(BadKey)
    case Decoded(plain, consumed) => f.stopped.None? && f.out == plain && f.buf == bytes[consumed..]
  }

  lemma SettleMatches(f: Following, heard: Blob, data: Blob, m: nat, d: Decoded)
    requires m <= |heard| && f.buf == heard[m..] && (d.Decoded? ==> d.consumed <= |f.buf + data|)
    ensures var whole := Before(f.out, m, d);
            && (whole.Decoded? ==> whole.consumed <= |heard + data|)
            && Matches(Settle(f, f.buf + data, d), heard + data, whole)
  {
    if d.Decoded? {
      assert (heard[m..] + data)[d.consumed..] == (heard + data)[m + d.consumed..];
    }
  }

  ghost predicate AsOneShot(c: Cipher, key: Blob, f: Following, bytes: Blob) {
    Matches(f, bytes, DecodeAll(c, key, bytes))
  }

  lemma HearNext(c: Cipher, key: Blob, f: Following, heard: Blob, data: Blob)
    requires f.stopped.None? && AsOneShot(c, key, f, heard)
    requires f.checked || f.buf + data == [] || StartsFramed(f.buf + data)
    ensures AsOneShot(c, key, Hear(c, key, f, data), heard + data)
  {
    DecodeResumes(c, key, heard, data);
    SettleMatches(f, heard, data, DecodeAll(c, key, heard).consumed, DecodeAll(c, key, f.buf + data));
  }

  /** The first message passes for the start of an encrypted stream. */
  predicate FirstPasses(pieces: seq<Blob>) {
    pieces == [] || pieces[0] == [] || StartsFramed(pieces[0])
  }

  /** What the reader heard so far decides all it says: as one decoding would, or
      nothing at all when the first message did not pass. */
  ghost predicate Faithful(c: Cipher, key: Blob, f: Following, pieces: seq<Blob>) {
    if FirstPasses(pieces) then
      AsOneShot(c, key, f, Concat(pieces)) && (f.stopped.None? ==> f.checked == (pieces != []))
    else f.stopped == Some(NotEncrypted) && f.out == []
  }

  lemma FirstMessage(c: Cipher, key: Blob, data: Blob)
    ensures Faithful(c, key, Hear(c, key, LISTENING, data), [data])
  {
    assert [] + data == data && Concat([data]) == data + Concat([]) == data;
    var d := DecodeAll(c, key, data);
    assert d.Decoded? ==> [] + d.plain == d.plain;
  }

  lemma NextMessage(c: Cipher, key: Blob, f: Following, front: seq<Blob>, data: Blob)
    requires front != [] && Faithful(c, key, f, front)
    ensures Faithful(c, key, Hear(c, key, f, data), front + [data])
  {
    assert (front + [data])[0] == front[0];
    ConcatSnoc(front, data);
    if FirstPasses(front) {
      if f.stopped.None? {
        HearNext(c, key, f, Concat(front), data);
      } else {
        DecodeResumes(c, key, Concat(front), data);
      }
    }
  }

  /** Streaming against one-shot, for every cut into messages. If the first message
      is empty or starts with a whole record, the reader says, carries and rejects
      exactly what decoding everything at once would; if not, it takes the stream
      for an unencrypted one and says nothing, whatever follows. */
  lemma {:induction false} StreamingIsOneShot(c: Cipher, key: Blob, pieces: seq<Blob>)
    ensures Faithful(c, key, HearAll(c, key, pieces), pieces)
    decreases |pieces|
  {
    if pieces != [] {
      var front, data := pieces[..|pieces| - 1], pieces[|pieces| - 1];
      assert pieces == front + [data];
      ConcatSnoc(front, data);
      StreamingIsOneShot(c, key, front);
      if front == [] {
        FirstMessage(c, key, data);
      } else {
        NextMessage(c, key, HearAll(c, key, front), front, data);
      }
    }
  }

  /** Two cuttings of the same bytes: the readers reach the same verdict exactly
      when both first messages pass or neither does. Bytes said may then differ only
      when some record fails to open, where the text of a whole message is lost. */
  lemma TwoCutsAgree(c: Cipher, key: Blob, ps: seq<Blob>, qs: seq<Blob>)
    requires Concat(ps) == Concat(qs) && ps != [] && qs != []
    ensures var f, g := HearAll(c, key, ps), HearAll(c, key, qs);
            && (f.stopped == g.stopped <==> FirstPasses(ps) == FirstPasses(qs))
            && (f.stopped.None? && g.stopped.None? ==> f == g)
  {
    StreamingIsOneShot(c, key, ps);
    StreamingIsOneShot(c, key, qs);
  }

  // ---- Streams of sealed records ----

  /** The stream of one key's records. */
  function Stream(c: Cipher, recs: seq<Record>): (bytes: Blob)
    requires AllSealable(c, recs)
  {
    Concat(Seals(c, recs))
  }

  /** Every record was sealed under `key`. */
  predicate UnderKey(key: Blob, recs: seq<Record>) {
    forall i :: 0 <= i < |recs| ==> recs[i].key == key
  }

  /** How many whole records the first `t` bytes of the stream hold. */
  function WholeIn(c: Cipher, recs: seq<Record>, t: nat): (j: nat)
    requires AllSealable(c, recs)
    ensures j <= |recs|
  {
    if recs == [] || t < |Seal(c, recs[0])| then 0 else 1 + WholeIn(c, recs[1..], t - |Seal(c, recs[0])|)
  }

  function Said(recs: seq<Record>): (plain: Blob) {
    if recs == [] then [] else recs[0].plain + Said(recs[1..])
  }

  lemma FirstRecord(c: Cipher, recs: seq<Record>)
    requires AllSealable(c, recs) && recs != []
    ensures AllSealable(c, recs[1..])
    ensures Stream(c, recs) == Seal(c, recs[0]) + Stream(c, recs[1..])
  {
  }

  /** A cut inside the first record leaves nothing to decode. */
  lemma PartialFirst(c: Cipher, recs: seq<Record>, t: nat)
    requires AllSealable(c, recs) && recs != [] && t <= |Stream(c, recs)| && t < |Seal(c, recs[0])|
    ensures !AtHand(Stream(c, recs)[..t]) && !StartsFramed(Stream(c, recs)[..t])
  {
    FirstRecord(c, recs);
    var seal, part := Seal(c, recs[0]), Stream(c, recs)[..t];
    SealIsFramed(c, recs[0]);
    if t >= 4 {
      WrittenRecord(Body(c, recs[0]), []);
      assert seal + [] == seal;
      assert FromBE(part) == FromBE(seal);
    }
  }

  lemma WholeFirst(c: Cipher, key: Blob, recs: seq<Record>, t: nat)
    requires AllSealable(c, recs) && AllOpen(c, key, recs) && recs != []
    requires |Seal(c, recs[0])| <= t <= |Stream(c, recs)|
    ensures AllSealable(c, recs[1..]) && t - |Seal(c, recs[0])| <= |Stream(c, recs[1..])|
    ensures var part := Stream(c, recs)[..t];
            && AtHand(part) && StartsFramed(part)
            && 4 + FromBE(part) == |Seal(c, recs[0])|
            && OpenFirst(c, key, part) == (if recs[0].key == key then Some(recs[0].plain) else None)
            && part[4 + FromBE(part)..] == Stream(c, recs[1..])[..t - |Seal(c, recs[0])|]
  {
    FirstRecord(c, recs);
    var seal, rest := Seal(c, recs[0]), Stream(c, recs[1..]);
    var part, body := Stream(c, recs)[..t], Body(c, recs[0]);
    SealIsFramed(c, recs[0]);
    var tail := rest[..t - |seal|];
    assert part == seal + tail == ToBE(|body|) + body + tail;
    WrittenRecord(body, tail);
    assert Sub(part, 4, 16) == body[..NONCE_LEN] == recs[0].nonce;
    assert Sub(part, 16, 4 + FromBE(part)) == body[NONCE_LEN..] == Sealed(c, recs[0]);
    assert Opens(c, key, recs[0]);
  }

  /** What the first `t` bytes of a stream decode to: exactly the whole records among
      them, the rest left over, unless one of those is under another key. */
  function DecodingOf(c: Cipher, key: Blob, recs: seq<Record>, t: nat): (d: Decoded)
    requires AllSealable(c, recs)
  {
    var whole := recs[..WholeIn(c, recs, t)];
    if UnderKey(key, whole) then Decoded(Said(whole), |Stream(c, whole)|) else WrongKey
  }

  lemma {:induction false} DecodesWholeRecords(c: Cipher, key: Blob, recs: seq<Record>, t: nat)
    requires AllSealable(c, recs) && AllOpen(c, key, recs) && t <= |Stream(c, recs)|
    ensures DecodeAll(c, key, Stream(c, recs)[..t]) == DecodingOf(c, key, recs, t)
    decreases |recs|
  {
    if recs == [] {
      assert recs[..0] == [];
    } else if t < |Seal(c, recs[0])| {
      PartialFirst(c, recs, t);
      assert recs[..0] == [];
    } else {
      WholeFirst(c, key, recs, t);
      var u := t - |Seal(c, recs[0])|;
      DecodesWholeRecords(c, key, recs[1..], u);
      DecodingBehindFirst(c, key, recs, t, u);
    }
  }

  lemma DecodingBehindFirst(c: Cipher, key: Blob, recs: seq<Record>, t: nat, u: nat)
    requires AllSealable(c, recs) && recs != [] && t == |Seal(c, recs[0])| + u
    ensures AllSealable(c, recs[1..])
    ensures DecodingOf(c, key, recs, t) ==
            if recs[0].key == key then Before(recs[0].plain, |Seal(c, recs[0])|, DecodingOf(c, key, recs[1..], u))
            else WrongKey
  {
    var j := WholeIn(c, recs[1..], u);
    assert WholeIn(c, recs, t) == 1 + j;
    OneMoreRecord(c, recs, 1 + j);
    KeysBehindFirst(key, recs, j);
  }

  lemma KeysBehindFirst(key: Blob, recs: seq<Record>, j: nat)
    requires j < |recs|
    ensures UnderKey(key, recs[..1 + j]) <==> recs[0].key == key && UnderKey(key, recs[1..][..j])
  {
    assert recs[..1 + j] == [recs[0]] + recs[1..][..j];
    UnderKeyCons(key, recs[0], recs[1..][..j]);
  }

  lemma UnderKeyCons(key: Blob, first: Record, rest: seq<Record>)
    ensures UnderKey(key, [first] + rest) <==> first.key == key && UnderKey(key, rest)
  {
    var all := [first] + rest;
    assert all[0] == first && forall i :: 0 <= i < |rest| ==> all[i + 1] == rest[i];
    if UnderKey(key, all) {
      forall i | 0 <= i < |rest| ensures rest[i].key == key {
        assert all[i + 1].key == key;
      }
    }
  }

  /** What the first `j` records say and take, from what those behind the first do. */
  lemma OneMoreRecord(c: Cipher, recs: seq<Record>, j: nat)
    requires AllSealable(c, recs) && 0 < j <= |recs|
    ensures AllSealable(c, recs[1..][..j - 1])
    ensures Said(recs[..j]) == recs[0].plain + Said(recs[1..][..j - 1])
    ensures |Stream(c, recs[..j])| == |Seal(c, recs[0])| + |Stream(c, recs[1..][..j - 1])|
  {
    assert recs[..j][1..] == recs[1..][..j - 1];
    FirstRecord(c, recs[..j]);
  }

  /** The first message holds the first record whole, or nothing yet. */
  predicate FirstHoldsRecord(c: Cipher, recs: seq<Record>, pieces: seq<Blob>)
    requires AllSealable(c, recs)
  {
    pieces == [] || pieces[0] == [] || (recs != [] && |pieces[0]| >= |Seal(c, recs[0])|)
  }

  /** Only a front with the first record whole looks like an encrypted stream. */
  lemma FirstMessageDecides(c: Cipher, recs: seq<Record>, t: nat)
    requires AllSealable(c, recs) && recs != [] && t <= |Stream(c, recs)|
    ensures StartsFramed(Stream(c, recs)[..t]) <==> t >= |Seal(c, recs[0])|
  {
    if t < |Seal(c, recs[0])| {
      PartialFirst(c, recs, t);
    } else {
      FirstRecord(c, recs);
      var seal, rest := Seal(c, recs[0]), Stream(c, recs[1..]);
      SealedPasses(c, recs[0], rest[..t - |seal|]);
      assert Stream(c, recs)[..t] == seal + rest[..t - |seal|];
    }
  }

  lemma FirstOfStream(c: Cipher, recs: seq<Record>, pieces: seq<Blob>)
    requires AllSealable(c, recs) && Concat(pieces) <= Stream(c, recs)
    ensures FirstPasses(pieces) == FirstHoldsRecord(c, recs, pieces)
  {
    if pieces != [] && pieces[0] != [] {
      assert Concat(pieces) == pieces[0] + Concat(pieces[1..]);
      assert pieces[0] == Stream(c, recs)[..|pieces[0]|];
      FirstMessageDecides(c, recs, |pieces[0]|);
    }
  }

  /** For every way of cutting any front of a stream of sealed records, under whatever
      keys, the reader follows it exactly when its first message is empty or holds the
      first record whole, and every whole record received is under its key. It has
      then said exactly their plaintexts, in order, and carries the bytes of the next
      one. Otherwise it has stopped: taking the stream for an unencrypted one and
      having said nothing, or finding its key to be wrong. */
  lemma FollowedStream(c: Cipher, key: Blob, recs: seq<Record>, pieces: seq<Blob>)
    requires AllSealable(c, recs) && AllOpen(c, key, recs) && Concat(pieces) <= Stream(c, recs)
    ensures var f, j := HearAll(c, key, pieces), WholeIn(c, recs, |Concat(pieces)|);
            && (f.stopped.None? <==> FirstHoldsRecord(c, recs, pieces) && UnderKey(key, recs[..j]))
            && (f.stopped.None? ==>
                  && f.out == Said(recs[..j])
                  && |Stream(c, recs[..j])| <= |Concat(pieces)|
                  && f.buf == Concat(pieces)[|Stream(c, recs[..j])|..])
            && (!FirstHoldsRecord(c, recs, pieces) ==> f.stopped == Some(NotEncrypted) && f.out == [])
            && (FirstHoldsRecord(c, recs, pieces) && !UnderKey(key, recs[..j]) ==> f.stopped == Some(BadKey))
  {
    var t := |Concat(pieces)|;
    assert Concat(pieces) == Stream(c, recs)[..t];
    DecodesWholeRecords(c, key, recs, t);
    StreamingIsOneShot(c, key, pieces);
    FirstOfStream(c, recs, pieces);
  }

  /** Stopped or not, it has said nothing but records of its key that come before the
      first one under another. */
  lemma {:induction false} SaidBeforeForeign(c: Cipher, key: Blob, recs: seq<Record>, pieces: seq<Blob>)
    returns (i: nat)
    requires AllSealable(c, recs) && AllOpen(c, key, recs) && Concat(pieces) <= Stream(c, recs)
    ensures i <= |recs| && UnderKey(key, recs[..i]) && HearAll(c, key, pieces).out == Said(recs[..i])
    decreases |pieces|
  {
    if HearAll(c, key, pieces).stopped.None? {
      FollowedStream(c, key, recs, pieces);
      i := WholeIn(c, recs, |Concat(pieces)|);
    } else {
      StoppingSaysNothing(c, key, pieces);
      FrontOfStream(pieces);
      i := SaidBeforeForeign(c, key, recs, pieces[..|pieces| - 1]);
    }
  }

  lemma FrontOfStream(pieces: seq<Blob>)
    requires pieces != []
    ensures Concat(pieces[..|pieces| - 1]) <= Concat(pieces)
  {
    var front, last := pieces[..|pieces| - 1], pieces[|pieces| - 1];
    assert pieces == front + [last];
    ConcatSnoc(front, last);
  }

  /** The message a reader stops at adds nothing to what it said. */
  lemma StoppingSaysNothing(c: Cipher, key: Blob, pieces: seq<Blob>)
    requires HearAll(c, key, pieces).stopped.Some?
    ensures pieces != [] && HearAll(c, key, pieces).out == HearAll(c, key, pieces[..|pieces| - 1]).out
  {
  }

  /** A stream the reader gives up on although every byte of it arrives: the first
      message is cut one byte inside the first record, and the rest follows. */
  lemma CutInsideFirstRecord(c: Cipher, key: Blob, recs: seq<Record>)
    requires AllSealable(c, recs) && AllOpen(c, key, recs) && UnderKey(key, recs) && recs != []
    ensures var whole := Stream(c, recs);
            && |whole| > 1
            && HearAll(c, key, [whole[..1], whole[1..]]).stopped == Some(NotEncrypted)
            && HearAll(c, key, [whole]).stopped.None?
            && HearAll(c, key, [whole]).out == Said(recs[..WholeIn(c, recs, |whole|)])
  {
    var whole := Stream(c, recs);
    FirstRecord(c, recs);
    SealIsFramed(c, recs[0]);
    assert Concat([whole[1..]]) == whole[1..] + Concat([]) == whole[1..];
    assert Concat([whole[..1], whole[1..]]) == whole[..1] + Concat([whole[..1], whole[1..]][1..]);
    assert whole[..1] + whole[1..] == whole;
    FollowedStream(c, key, recs, [whole[..1], whole[1..]]);
    assert Concat([whole]) == whole + Concat([]) == whole;
    FollowedStream(c, key, recs, [whole]);
  }

  lemma {:induction false} WholeInAll(c: Cipher, recs: seq<Record>)
    requires AllSealable(c, recs)
    ensures WholeIn(c, recs, |Stream(c, recs)|) == |recs|
    decreases |recs|
  {
    if recs != [] {
      FirstRecord(c, recs);
      WholeInAll(c, recs[1..]);
    }
  }

  /** A frame that starts with a whole sealed record passes as a first message. */
  lemma SealedPasses(c: Cipher, r: Record, rest: Blob)
    requires Sealable(c, r)
    ensures StartsFramed(Seal(c, r) + rest)
  {
    SealIsFramed(c, r);
    WrittenRecord(Body(c, r), rest);
  }
}
