/** The broadcaster's replay buffer and its connection (src/cli/ws.rs).

    `Step` gives the effect of each atomic thing that can happen to a
    transport. The class below performs the source's loops; its invariant says
    that its state is always the result of a legal run of those steps, which is
    what `IngestProtocol` interleaves with the server. */
module Transport {
  import opened Prelude

  /** How many bytes of output the client keeps for replay. */
  const MAX_BUFFERED_BYTES: nat := MIB

  /** One buffered chunk. `id` numbers chunks in the order they were buffered;
      the program keeps no such number and nothing here branches on it. */
  datatype Chunk = Chunk(id: nat, bytes: Blob)

  datatype TermSize = TermSize(cols: nat, rows: nat)

  datatype Frame = Reset | SizeFrame(size: TermSize) | Data(chunk: Chunk) | Ping

  datatype Client = Client(
    connected: bool,
    pending: seq<Chunk>,
    unacked: seq<Chunk>,
    buffered: nat,
    connAcked: nat,
    droppedUnacked: nat,
    size: TermSize,
    sentSize: Option<TermSize>)
  {
    /** Everything still owed to the server, oldest first. */
    function Queue(): (q: seq<Chunk>) { unacked + pending }

    predicate Counted() { buffered == Bytes(unacked) + Bytes(pending) }
  }

  function Bytes(q: seq<Chunk>): (n: nat) {
    if q == [] then 0 else |q[0].bytes| + Bytes(q[1..])
  }

  lemma {:induction false} BytesAppend(p: seq<Chunk>, q: seq<Chunk>)
    ensures Bytes(p + q) == Bytes(p) + Bytes(q)
  {
    if p == [] {
      assert p + q == q;
    } else {
      BytesAppend(p[1..], q);
      assert (p + q)[1..] == p[1..] + q;
    }
  }

  lemma BytesSnoc(p: seq<Chunk>, c: Chunk)
    ensures Bytes(p + [c]) == Bytes(p) + |c.bytes|
  {
    BytesAppend(p, [c]);
    assert Bytes([c]) == |c.bytes| + Bytes([]);
  }

  lemma BytesSplit(q: seq<Chunk>, k: nat)
    requires k <= |q|
    ensures Bytes(q) == Bytes(q[..k]) + Bytes(q[k..])
  {
    BytesAppend(q[..k], q[k..]);
    assert q == q[..k] + q[k..];
  }

  /** How many of the oldest chunks the cap costs: the fewest whose loss fits. */
  function Overflow(q: seq<Chunk>): (k: nat)
    ensures k <= |q| && Bytes(q[k..]) <= MAX_BUFFERED_BYTES
    ensures k > 0 ==> Bytes(q[k - 1..]) > MAX_BUFFERED_BYTES
  {
    if Bytes(q) <= MAX_BUFFERED_BYTES then 0
    else
      var k := Overflow(q[1..]);
      assert q[1..][k..] == q[1 + k..];
      assert k > 0 ==> q[1..][k - 1..] == q[k..];
      1 + k
  }

  /** How many of the oldest written chunks an ack of `n` further bytes covers whole. */
  function Covered(q: seq<Chunk>, n: nat): (k: nat)
    ensures k <= |q|
  {
    if n == 0 || q == [] || |q[0].bytes| > n then 0
    else 1 + Covered(q[1..], n - |q[0].bytes|)
  }

  /** An ack of exactly the first `k` chunks releases exactly the first `k`. */
  lemma {:induction false} CoveredExactly(q: seq<Chunk>, k: nat)
    requires k <= |q| && forall c :: c in q ==> c.bytes != []
    ensures Covered(q, Bytes(q[..k])) == k
  {
    if k > 0 {
      assert q[..k][1..] == q[1..][..k - 1];
      CoveredExactly(q[1..], k - 1);
    }
  }

  function Enqueued(c: Client, chunk: Chunk): (after: Client) {
    c.(pending := c.pending + [chunk], buffered := c.buffered + |chunk.bytes|)
  }

  /** Lose the oldest chunk: one already written first, whose ack is still due. */
  function WithoutOldest(c: Client): (after: Client)
    requires c.Counted() && c.Queue() != []
    ensures after.Counted() && after.Queue() == c.Queue()[1..]
  {
    if c.unacked != [] then
      assert c.Queue()[1..] == c.unacked[1..] + c.pending;
      c.(unacked := c.unacked[1..],
         droppedUnacked := c.droppedUnacked + |c.unacked[0].bytes|,
         buffered := c.buffered - |c.unacked[0].bytes|)
    else
      assert c.Queue()[1..] == c.unacked + c.pending[1..];
      c.(pending := c.pending[1..], buffered := c.buffered - |c.pending[0].bytes|)
  }

  function Capped(c: Client): (after: Client)
    requires c.Counted()
    decreases |c.Queue()|
  {
    if c.buffered <= MAX_BUFFERED_BYTES || c.Queue() == [] then c else Capped(WithoutOldest(c))
  }

  function Buffered(c: Client, chunk: Chunk): (after: Client)
    requires c.Counted()
  {
    BytesSnoc(c.pending, chunk);
    Capped(Enqueued(c, chunk))
  }

  function Acked(c: Client, acked: nat): (after: Client)
    requires c.Counted()
  {
    var newly := if acked > c.connAcked then acked - c.connAcked else 0;
    var discarded := if newly <= c.droppedUnacked then newly else c.droppedUnacked;
    var k := Covered(c.unacked, newly - discarded);
    BytesSplit(c.unacked, k);
    c.(connAcked := c.connAcked + newly,
       droppedUnacked := c.droppedUnacked - discarded,
       unacked := c.unacked[k..],
       buffered := c.buffered - Bytes(c.unacked[..k]))
  }

  function Disconnected(c: Client): (after: Client) {
    c.(connected := false, pending := c.unacked + c.pending, unacked := [])
  }

  datatype Event =
    | Resized(size: TermSize)
    | Queued(chunk: Chunk)
    | AckRead(acked: nat)
    | Died
    | Connected
    | Wrote(frame: Frame)
    | WriteFailed(frame: Frame, arrived: bool)

  /** What the flush may write next: the size first, then the oldest chunk. */
  predicate CanWrite(c: Client, f: Frame) {
    match f
    case SizeFrame(size) => size == c.size && c.sentSize != Some(c.size)
    case Data(chunk) => c.sentSize == Some(c.size) && c.pending != [] && chunk == c.pending[0]
    case Reset => true
    case Ping => true
  }

  predicate Enabled(c: Client, e: Event) {
    match e
    case Resized(_) => true
    case Queued(_) => true
    case AckRead(_) => c.connected
    case Died => c.connected
    case Connected => !c.connected
    case Wrote(f) => c.connected && CanWrite(c, f)
    case WriteFailed(f, _) => c.connected && CanWrite(c, f)
  }

  function Step(c: Client, e: Event): (after: Client)
    requires c.Counted() && Enabled(c, e)
    ensures after.Counted()
  {
    match e
    case Resized(size) => c.(size := size)
    case Queued(chunk) => BufferedCounts(c, chunk); Buffered(c, chunk)
    case AckRead(acked) => AckedCounts(c, acked); Acked(c, acked)
    case Died => BytesAppend(c.unacked, c.pending); Disconnected(c)
    case Connected => c.(connected := true, sentSize := None, connAcked := 0, droppedUnacked := 0)
    case Wrote(f) =>
      (match f
       case SizeFrame(size) => c.(sentSize := Some(size))
       case Data(chunk) =>
         BytesSnoc(c.unacked, chunk);
         c.(pending := c.pending[1..], unacked := c.unacked + [chunk])
       case Reset => c
       case Ping => c)
    case WriteFailed(_, _) => BytesAppend(c.unacked, c.pending); Disconnected(c)
  }

  /** Capping keeps the youngest part of the queue, in order and untouched, and
      takes no more than it must. */
  lemma {:induction false} CappedKeepsYoungest(c: Client)
    requires c.Counted()
    ensures Capped(c).Counted() && Capped(c).buffered <= MAX_BUFFERED_BYTES
    ensures Capped(c).Queue() == c.Queue()[Overflow(c.Queue())..]
    decreases |c.Queue()|
  {
    BytesAppend(c.unacked, c.pending);
    if c.buffered > MAX_BUFFERED_BYTES && c.Queue() != [] {
      CappedKeepsYoungest(WithoutOldest(c));
    }
  }

  /** Written chunks go first, and their bytes stay accounted for. */
  lemma OldestLeavesTails(c: Client)
    requires c.Counted() && c.Queue() != []
    ensures var d := WithoutOldest(c);
            && IsTail(d.unacked, c.unacked) && IsTail(d.pending, c.pending)
            && d.droppedUnacked + Bytes(d.unacked) == c.droppedUnacked + Bytes(c.unacked)
  {
    if c.unacked != [] {
      assert Bytes(c.unacked) == |c.unacked[0].bytes| + Bytes(c.unacked[1..]);
      assert IsTail(c.unacked[1..], c.unacked);
    } else {
      assert IsTail(c.pending[1..], c.pending);
    }
  }

  lemma {:induction false} CappedKeepsLedger(c: Client)
    requires c.Counted()
    ensures Capped(c).droppedUnacked + Bytes(Capped(c).unacked) == c.droppedUnacked + Bytes(c.unacked)
    ensures IsTail(Capped(c).unacked, c.unacked) && IsTail(Capped(c).pending, c.pending)
    decreases |c.Queue()|
  {
    if c.buffered > MAX_BUFFERED_BYTES && c.Queue() != [] {
      var d := WithoutOldest(c);
      OldestLeavesTails(c);
      CappedKeepsLedger(d);
      TailTransitive(Capped(d).unacked, d.unacked, c.unacked);
      TailTransitive(Capped(d).pending, d.pending, c.pending);
    }
  }

  lemma {:induction false} CappedLeavesConnection(c: Client)
    requires c.Counted()
    ensures Capped(c).connected == c.connected && Capped(c).connAcked == c.connAcked
    ensures Capped(c).size == c.size && Capped(c).sentSize == c.sentSize
    decreases |c.Queue()|
  {
    if c.buffered > MAX_BUFFERED_BYTES && c.Queue() != [] {
      CappedLeavesConnection(WithoutOldest(c));
    }
  }

  lemma BufferedCounts(c: Client, chunk: Chunk)
    requires c.Counted()
    ensures Buffered(c, chunk).Counted() && Buffered(c, chunk).buffered <= MAX_BUFFERED_BYTES
    ensures var all := c.Queue() + [chunk]; Buffered(c, chunk).Queue() == all[Overflow(all)..]
  {
    BytesSnoc(c.pending, chunk);
    var d := Enqueued(c, chunk);
    assert d.Queue() == c.Queue() + [chunk];
    CappedKeepsYoungest(d);
  }

  lemma BufferedKeepsLedger(c: Client, chunk: Chunk)
    requires c.Counted()
    ensures var after := Buffered(c, chunk);
            && after.droppedUnacked + Bytes(after.unacked) == c.droppedUnacked + Bytes(c.unacked)
            && IsTail(after.unacked, c.unacked) && IsTail(after.pending, c.pending + [chunk])
            && after.connected == c.connected && after.connAcked == c.connAcked
            && after.size == c.size && after.sentSize == c.sentSize
  {
    BytesSnoc(c.pending, chunk);
    CappedKeepsLedger(Enqueued(c, chunk));
    CappedLeavesConnection(Enqueued(c, chunk));
  }

  lemma AckedCounts(c: Client, acked: nat)
    requires c.Counted()
    ensures Acked(c, acked).Counted()
    ensures IsTail(Acked(c, acked).Queue(), c.Queue())
  {
    var after := Acked(c, acked);
    var k := |c.unacked| - |after.unacked|;
    BytesSplit(c.unacked, k);
    assert after.Queue() == c.Queue()[k..];
  }

  predicate IsTail(q: seq<Chunk>, all: seq<Chunk>) {
    |q| <= |all| && q == all[|all| - |q|..]
  }

  lemma TailTransitive(p: seq<Chunk>, q: seq<Chunk>, r: seq<Chunk>)
    requires IsTail(p, q) && IsTail(q, r)
    ensures IsTail(p, r)
  {
  }

  predicate Move(c: Client, e: Event, after: Client) {
    c.Counted() && Enabled(c, e) && after == Step(c, e)
  }

  /** `states` is what `trace` does, one legal step at a time. */
  ghost predicate Behavior(states: seq<Client>, trace: seq<Event>) {
    && |states| == |trace| + 1
    && forall i :: 0 <= i < |trace| ==> Move(states[i], trace[i], states[i + 1])
  }

  lemma BehaviorSnoc(states: seq<Client>, trace: seq<Event>, e: Event, after: Client)
    requires Behavior(states, trace) && Move(states[|trace|], e, after)
    ensures Behavior(states + [after], trace + [e])
  {
    var longer := states + [after];
    forall i | 0 <= i < |trace + [e]| ensures Move(longer[i], (trace + [e])[i], longer[i + 1]) {
      if i < |trace| {
        assert Move(states[i], trace[i], states[i + 1]);
      }
    }
  }

  function Fresh(size: TermSize): (c: Client) {
    Client(false, [], [], 0, 0, 0, size, None)
  }

  datatype Shake = Accepted | Refused | Unreachable

  /** What the network does to one flush: the acks waiting to be read, whether
      reading then finds the connection dead, the backoff clock, the answer to
      a handshake, and how many writes succeed before one fails. */
  datatype Env = Env(acks: seq<nat>, dies: bool, backingOff: bool, shake: Shake, goodWrites: nat, arrives: bool)

  predicate IsReset(e: Event) {
    (e.Wrote? || e.WriteFailed?) && e.frame.Reset?
  }

  /** None of the steps from `n` on clears the room's history. */
  predicate NoResetFrom(trace: seq<Event>, n: nat) {
    forall i :: n <= i < |trace| ==> !IsReset(trace[i])
  }

  datatype Outcome = Ok | Unauthorized

  /** Whether a flush that found the transport so gets to write at all. */
  predicate Linked(wasConnected: bool, env: Env) {
    (wasConnected && !env.dies) || (!env.backingOff && env.shake.Accepted?)
  }

  /** Whether it must ask for a connection and is turned away. */
  predicate TurnedAway(wasConnected: bool, env: Env) {
    !(wasConnected && !env.dies) && !env.backingOff && env.shake.Refused?
  }

  function AckReads(acks: seq<nat>): (events: seq<Event>) {
    seq(|acks|, i requires 0 <= i < |acks| => AckRead(acks[i]))
  }

  lemma AckReadsSnoc(trace: seq<Event>, acks: seq<nat>, i: nat)
    requires i < |acks|
    ensures trace + AckReads(acks[..i + 1]) == (trace + AckReads(acks[..i])) + [AckRead(acks[i])]
  {
  }

  class Transport {
    var connected: bool
    var pending: seq<Chunk>
    var unacked: seq<Chunk>
    var bufferedBytes: nat
    var connAcked: nat
    var droppedUnacked: nat
    var size: TermSize
    var sentSize: Option<TermSize>
    /** Every step taken since construction, and the states between them. */
    ghost var trace: seq<Event>
    ghost var states: seq<Client>
    ghost const initial: TermSize

    function Value(): (c: Client)
      reads this
    {
      Client(connected, pending, unacked, bufferedBytes, connAcked, droppedUnacked, size, sentSize)
    }

    ghost predicate Valid()
      reads this
    {
      && Value().Counted()
      && Behavior(states, trace)
      && states[0] == Fresh(initial)
      && states[|trace|] == Value()
    }

    constructor (size: TermSize)
      ensures Valid() && Value() == Fresh(size) && trace == []
    {
      connected, pending, unacked := false, [], [];
      bufferedBytes, connAcked, droppedUnacked := 0, 0, 0;
      this.size, sentSize := size, None;
      trace, states, initial := [], [Fresh(size)], size;
    }

    /** The first connection. Only here is the room's old history cleared. */
    method Connect(shake: Shake, delivered: bool, arrives: bool) returns (ok: bool)
      requires Valid() && trace == []
      modifies this
      ensures Valid()
      ensures ok == shake.Accepted?
      ensures trace == if !ok then [] else
                [Event.Connected, if delivered then Wrote(Reset) else WriteFailed(Reset, arrives)]
    {
      ok := shake.Accepted?;
      if ok {
        Handshake();
        var _ := Write(Reset, delivered, arrives);
      }
    }

    /** Note a step about to be taken. */
    ghost method Record(e: Event, after: Client)
      requires Valid() && Move(Value(), e, after)
      modifies this`trace, this`states
      ensures trace == old(trace) + [e] && |states| == |trace| + 1 && states[|trace|] == after
      ensures Behavior(states, trace) && states[0] == Fresh(initial)
    {
      BehaviorSnoc(states, trace, e, after);
      trace, states := trace + [e], states + [after];
    }

    /** Queue a chunk; what no longer fits under the cap goes from the front. */
    method BufferChunk(chunk: Chunk)
      requires Valid()
      modifies this
      ensures Valid() && trace == old(trace) + [Queued(chunk)]
      ensures Value() == Buffered(old(Value()), chunk)
    {
      BufferedCounts(Value(), chunk);
      Record(Queued(chunk), Buffered(Value(), chunk));
      Enqueue(chunk);
    }

    method Enqueue(chunk: Chunk)
      requires Value().Counted()
      modifies this`unacked, this`pending, this`bufferedBytes, this`droppedUnacked
      ensures Value() == Buffered(old(Value()), chunk)
    {
      BytesSnoc(pending, chunk);
      bufferedBytes := bufferedBytes + |chunk.bytes|;
      pending := pending + [chunk];
      EvictExcess();
    }

    method EvictExcess()
      requires Value().Counted()
      modifies this`unacked, this`pending, this`bufferedBytes, this`droppedUnacked
      ensures Value() == Capped(old(Value()))
    {
      while bufferedBytes > MAX_BUFFERED_BYTES
        invariant Value().Counted() && Capped(Value()) == Capped(old(Value()))
        decreases |unacked| + |pending|
      {
        ghost var c := Value();
        if unacked != [] {
          var dropped := unacked[0];
          unacked := unacked[1..];
          droppedUnacked := droppedUnacked + |dropped.bytes|;
          bufferedBytes := bufferedBytes - |dropped.bytes|;
          assert Value() == WithoutOldest(c);
        } else if pending != [] {
          var dropped := pending[0];
          pending := pending[1..];
          bufferedBytes := bufferedBytes - |dropped.bytes|;
          assert Value() == WithoutOldest(c);
        } else {
          break;
        }
      }
    }

    /** Release the chunks a cumulative ack covers. */
    method ApplyAck(acked: nat)
      requires Valid() && connected
      modifies this
      ensures Valid() && trace == old(trace) + [AckRead(acked)]
      ensures Value() == Acked(old(Value()), acked)
      ensures connected && size == old(size) && sentSize == old(sentSize)
      ensures IsTail(Value().Queue(), old(Value().Queue()))
    {
      AckedCounts(Value(), acked);
      Record(AckRead(acked), Acked(Value(), acked));
      Credit(acked);
    }

    method Credit(acked: nat)
      requires Value().Counted()
      modifies this`connAcked, this`droppedUnacked, this`unacked, this`bufferedBytes
      ensures Value() == Acked(old(Value()), acked)
    {
      var newly := if acked > connAcked then acked - connAcked else 0;
      connAcked := if acked > connAcked then acked else connAcked;
      // what the cap dropped was written ahead of what still waits
      var discarded := if newly <= droppedUnacked then newly else droppedUnacked;
      droppedUnacked := droppedUnacked - discarded;
      Release(newly - discarded);
    }

    method Release(acked: nat)
      requires Value().Counted()
      modifies this`unacked, this`bufferedBytes
      ensures var k := Covered(old(unacked), acked);
              unacked == old(unacked)[k..] && bufferedBytes == old(bufferedBytes) - Bytes(old(unacked)[..k])
    {
      var newly: nat := acked;
      ghost var k := 0;
      while newly > 0 && unacked != []
        invariant k <= |old(unacked)| && unacked == old(unacked)[k..]
        invariant Covered(old(unacked), acked) == k + Covered(unacked, newly)
        invariant bufferedBytes == Bytes(unacked) + Bytes(pending)
        decreases |unacked|
      {
        var front := unacked[0];
        if |front.bytes| > newly {
          break;
        }
        newly := newly - |front.bytes|;
        bufferedBytes := bufferedBytes - |front.bytes|;
        unacked := unacked[1..];
        k := k + 1;
      }
      BytesSplit(old(unacked), k);
    }

    /** Give up the connection; everything unacknowledged is pending again. */
    method Disconnect(ghost why: Event)
      requires Valid() && Enabled(Value(), why) && (why.Died? || why.WriteFailed?)
      modifies this
      ensures Valid() && trace == old(trace) + [why]
      ensures Value() == Disconnected(old(Value()))
    {
      BytesAppend(unacked, pending);
      Record(why, Disconnected(Value()));
      connected := false;
      Requeue();
    }

    method Requeue()
      modifies this`unacked, this`pending
      ensures unacked == [] && pending == old(unacked) + old(pending)
    {
      while unacked != []
        invariant unacked + pending == old(unacked) + old(pending)
        decreases |unacked|
      {
        var last := |unacked| - 1;
        pending := [unacked[last]] + pending;
        unacked := unacked[..last];
      }
    }

    /** Send one frame; a failed write may or may not have reached the server. */
    method Write(frame: Frame, delivered: bool, arrives: bool) returns (ok: bool)
      requires Valid() && connected && CanWrite(Value(), frame) && !frame.Data? && !frame.SizeFrame?
      modifies this
      ensures Valid() && ok == delivered
      ensures trace == old(trace) + [if ok then Wrote(frame) else WriteFailed(frame, arrives)]
      ensures Value() == if ok then old(Value()) else Disconnected(old(Value()))
    {
      ok := delivered;
      if ok {
        Record(Wrote(frame), Value());
      } else {
        Disconnect(WriteFailed(frame, arrives));
      }
    }

    method Handshake()
      requires Valid() && !connected
      modifies this
      ensures Valid() && trace == old(trace) + [Event.Connected]
      ensures Value() == old(Value()).(connected := true, sentSize := None, connAcked := 0, droppedUnacked := 0)
    {
      Record(Event.Connected, Step(Value(), Event.Connected));
      connected, sentSize, connAcked, droppedUnacked := true, None, 0, 0;
    }

    method ApplyAcks(acks: seq<nat>)
      requires Valid() && connected
      modifies this
      ensures Valid() && connected && trace == old(trace) + AckReads(acks)
      ensures size == old(size) && sentSize == old(sentSize)
      ensures IsTail(Value().Queue(), old(Value().Queue()))
    {
      assert trace + AckReads(acks[..0]) == trace;
      for i := 0 to |acks|
        invariant Valid() && connected && trace == old(trace) + AckReads(acks[..i])
        invariant size == old(size) && sentSize == old(sentSize)
        invariant IsTail(Value().Queue(), old(Value().Queue()))
      {
        ghost var before := Value().Queue();
        ApplyAck(acks[i]);
        TailTransitive(Value().Queue(), before, old(Value().Queue()));
        AckReadsSnoc(old(trace), acks, i);
      }
      assert acks[..|acks|] == acks;
    }

    /** Apply the acks waiting on the connection; it may turn out to be dead. */
    method DrainAcks(env: Env)
      requires Valid()
      modifies this
      ensures Valid() && old(trace) <= trace && NoResetFrom(trace, |old(trace)|)
      ensures size == old(size) && (connected ==> sentSize == old(sentSize))
      ensures connected == (old(connected) && !env.dies)
      ensures old(connected) ==> trace == old(trace) + AckReads(env.acks) + if env.dies then [Died] else []
      ensures IsTail(Value().Queue(), old(Value().Queue()))
    {
      if !connected {
        return;
      }
      ApplyAcks(env.acks);
      assert trace + [] == trace;
      if env.dies {
        Disconnect(Died);
      }
    }

    /** Write the size message, or lose the connection trying. */
    method WriteSize(delivered: bool, arrives: bool) returns (ok: bool)
      requires Valid() && connected && sentSize != Some(size)
      modifies this
      ensures Valid() && ok == delivered
      ensures trace == old(trace) + [if ok then Wrote(SizeFrame(size)) else WriteFailed(SizeFrame(size), arrives)]
      ensures Value() == if ok then old(Value()).(sentSize := Some(size)) else Disconnected(old(Value()))
    {
      ok := delivered;
      if ok {
        Record(Wrote(SizeFrame(size)), Value().(sentSize := Some(size)));
        sentSize := Some(size);
      } else {
        Disconnect(WriteFailed(SizeFrame(size), arrives));
      }
    }

    /** Write the oldest pending chunk; it is pending until the write succeeds. */
    method WriteOldest(delivered: bool, arrives: bool) returns (ok: bool)
      requires Valid() && connected && sentSize == Some(size) && pending != []
      modifies this
      ensures Valid() && ok == delivered
      ensures var frame := Data(old(pending[0]));
              trace == old(trace) + [if ok then Wrote(frame) else WriteFailed(frame, arrives)]
      ensures Value() == if ok
                then old(Value()).(pending := old(pending)[1..], unacked := old(unacked) + [old(pending[0])])
                else Disconnected(old(Value()))
      ensures Value().Queue() == old(Value().Queue())
    {
      var chunk := pending[0];
      ok := delivered;
      if ok {
        Record(Wrote(Data(chunk)), Step(Value(), Wrote(Data(chunk))));
        pending := pending[1..];
        unacked := unacked + [chunk];
      } else {
        Disconnect(WriteFailed(Data(chunk), arrives));
      }
    }

    /** Write everything pending, stopping at the first failure. */
    method WritePending(goodWrites: nat, arrives: bool)
      requires Valid() && connected && sentSize == Some(size)
      modifies this
      ensures Valid() && old(trace) <= trace && NoResetFrom(trace, |old(trace)|) && size == old(size)
      ensures Value().Queue() == old(Value().Queue())
      ensures connected ==> pending == [] && sentSize == Some(size)
      ensures |old(pending)| <= goodWrites ==> connected
    {
      var writes := 0;
      while pending != []
        invariant Valid() && connected && old(trace) <= trace && size == old(size)
        invariant NoResetFrom(trace, |old(trace)|)
        invariant writes + |pending| == |old(pending)|
        invariant sentSize == Some(size) && Value().Queue() == old(Value().Queue())
        decreases |pending|
      {
        var ok := WriteOldest(writes < goodWrites, arrives);
        if !ok {
          return;
        }
        writes := writes + 1;
      }
    }

    /** Read what the server sent, and reconnect if that is needed and possible. */
    method Link(env: Env) returns (r: Outcome)
      requires Valid()
      modifies this
      ensures Valid() && old(trace) <= trace && NoResetFrom(trace, |old(trace)|) && size == old(size)
      ensures IsTail(Value().Queue(), old(Value().Queue()))
      ensures r.Unauthorized? <==> !(old(connected) && !env.dies) && !env.backingOff && env.shake.Refused?
      ensures connected <==> (old(connected) && !env.dies) || (!env.backingOff && env.shake.Accepted?)
    {
      DrainAcks(env);
      if !connected {
        if env.backingOff {
          return Ok;
        }
        match env.shake {
          case Accepted => Handshake();
          case Refused => return Unauthorized;
          case Unreachable => return Ok;
        }
      }
      return Ok;
    }

    /** Write the size if it changed, then everything pending. */
    method WriteAll(goodWrites: nat, arrives: bool)
      requires Valid() && connected
      modifies this
      ensures Valid() && old(trace) <= trace && NoResetFrom(trace, |old(trace)|) && size == old(size)
      ensures Value().Queue() == old(Value().Queue())
      ensures connected ==> pending == [] && sentSize == Some(size)
      ensures |old(pending)| < goodWrites ==> connected
    {
      var left: int := goodWrites;
      if sentSize != Some(size) {
        var ok := WriteSize(goodWrites > 0, arrives);
        if !ok {
          return;
        }
        left := left - 1;
      }
      WritePending(left, arrives);
    }

    /** Deliver the size and everything pending, reconnecting first if needed.
        Whatever the network does, nothing is lost: the queue only sheds a
        prefix, and only through acks. */
    method Flush(env: Env) returns (r: Outcome)
      requires Valid()
      modifies this
      ensures Valid() && old(trace) <= trace && NoResetFrom(trace, |old(trace)|) && size == old(size)
      ensures IsTail(Value().Queue(), old(Value().Queue()))
      ensures r.Unauthorized? <==> TurnedAway(old(connected), env)
      ensures connected ==> Linked(old(connected), env) && pending == [] && sentSize == Some(size)
      ensures Linked(old(connected), env) && |old(Value().Queue())| < env.goodWrites ==> connected
    {
      r := Link(env);
      if connected {
        WriteAll(env.goodWrites, env.arrives);
      }
    }

    /** Idle housekeeping: deliver what can be delivered, then keep alive. */
    method Tick(newSize: TermSize, env: Env, pingDue: bool, pinged: bool) returns (r: Outcome)
      requires Valid()
      modifies this
      ensures Valid() && old(trace) <= trace && NoResetFrom(trace, |old(trace)|) && size == newSize
      ensures IsTail(Value().Queue(), old(Value().Queue()))
      ensures r.Unauthorized? <==> TurnedAway(old(connected), env)
      ensures connected ==> Linked(old(connected), env) && pending == [] && sentSize == Some(newSize)
      ensures Linked(old(connected), env) && |old(Value().Queue())| < env.goodWrites && (pingDue ==> pinged)
              ==> connected
      ensures connected && pingDue ==> trace != [] && trace[|trace| - 1] == Wrote(Ping)
    {
      Resize(newSize);
      r := Flush(env);
      if connected && pingDue {
        var _ := Write(Ping, pinged, env.arrives);
      }
    }

    method Resize(newSize: TermSize)
      requires Valid()
      modifies this
      ensures Valid() && trace == old(trace) + [Resized(newSize)]
      ensures Value() == old(Value()).(size := newSize)
    {
      Record(Resized(newSize), Value().(size := newSize));
      size := newSize;
    }
  }
}
