/** Reliable delivery from the broadcaster to the server: the client of
    `Transport` (src/cli/ws.rs) against any number of ingest loops
    (`ws_ingest_loop` in src/server/mod.rs).

    Each connection is an append-only wire with a server-side cursor and a FIFO
    of acks on the way back. A failed write may still have reached the wire, and
    the loop of an old connection may go on consuming it after a new connection
    opened. Every interleaving of the steps below is a run. */
module IngestProtocol {
  import opened Prelude
  import opened Transport
  import Ingest

  const MAX_INGEST_FRAME: nat := Ingest.MAX_INGEST_FRAME

  /** A cumulative ack. `frames` counts the binary frames it stands for; only
      `bytes` travels. */
  datatype Ack = Ack(bytes: nat, frames: nat)

  datatype Conn = Conn(wire: seq<Frame>, cursor: nat, received: nat, acks: seq<Ack>, open: bool)

  /** `made`, `dropped`, `log` and `ackedFrames` record history: the chunks ever
      buffered, those the cap took, the frames the server stored in order, and
      how many frames of the current connection were acknowledged. */
  datatype World = World(
    client: Client,
    conns: seq<Conn>,
    made: seq<Chunk>,
    dropped: set<Chunk>,
    log: seq<Chunk>,
    ackedFrames: nat)

  /** The binary frames of a wire, in order. */
  function DataOf(wire: seq<Frame>): (chunks: seq<Chunk>)
    ensures |chunks| <= |wire|
  {
    if wire == [] then []
    else
      var rest := DataOf(wire[..|wire| - 1]);
      match wire[|wire| - 1]
      case Data(chunk) => rest + [chunk]
      case _ => rest
  }

  lemma DataOfSnoc(wire: seq<Frame>, f: Frame)
    ensures DataOf(wire + [f]) == DataOf(wire) + if f.Data? then [f.chunk] else []
  {
    assert (wire + [f])[..|wire|] == wire;
  }

  lemma {:induction false} DataOfPrefix(wire: seq<Frame>, k: nat)
    requires k <= |wire|
    ensures DataOf(wire[..k]) <= DataOf(wire)
    decreases |wire|
  {
    if k < |wire| {
      var front := wire[..|wire| - 1];
      DataOfPrefix(front, k);
      assert front[..k] == wire[..k];
    } else {
      assert wire[..k] == wire;
    }
  }

  /** What the server has taken off a connection's wire. */
  function Consumed(conn: Conn): (chunks: seq<Chunk>)
    requires conn.cursor <= |conn.wire|
  {
    DataOf(conn.wire[..conn.cursor])
  }

  function Last(w: World): (i: nat)
    requires w.conns != []
  {
    |w.conns| - 1
  }

  /** The chunks the cap takes when `chunk` is queued. */
  function Evicted(c: Client, chunk: Chunk): (lost: set<Chunk>) {
    var all := c.Queue() + [chunk];
    set e | e in all[..Overflow(all)]
  }

  function OnWire(w: World, f: Frame): (conns: seq<Conn>)
    requires w.conns != []
  {
    w.conns[Last(w) := w.conns[Last(w)].(wire := w.conns[Last(w)].wire + [f])]
  }

  /** A step of the broadcaster. */
  ghost predicate ClientMove(w: World, e: Event, v: World) {
    && Move(w.client, e, v.client)
    && (w.client.connected ==> w.conns != [])
    && match e
       case Resized(_) => v == w.(client := v.client)
       case Queued(chunk) =>
         chunk.id == |w.made| && chunk.bytes != [] &&
         v == w.(client := v.client, made := w.made + [chunk], dropped := w.dropped + Evicted(w.client, chunk))
       case AckRead(acked) =>
         var conn := w.conns[Last(w)];
         conn.acks != [] && conn.acks[0].bytes == acked &&
         v == w.(client := v.client, conns := w.conns[Last(w) := conn.(acks := conn.acks[1..])],
                 ackedFrames := conn.acks[0].frames)
       case Died => v == w.(client := v.client)
       case Connected =>
         v == w.(client := v.client, conns := w.conns + [Conn([], 0, 0, [], true)], ackedFrames := 0)
       case Wrote(f) => v == w.(client := v.client, conns := OnWire(w, f))
       case WriteFailed(f, arrived) =>
         v == w.(client := v.client, conns := if arrived then OnWire(w, f) else w.conns)
  }

  /** What one iteration of an ingest loop makes of the next frame, when the
      room accepts it: a binary frame is stored and its bytes counted; binary
      and size frames are acknowledged with the count so far. */
  function Served(conn: Conn, acked: bool): (after: Conn)
    requires conn.cursor < |conn.wire|
  {
    var f := conn.wire[conn.cursor];
    var received := conn.received + if f.Data? then |f.chunk.bytes| else 0;
    var frames := |DataOf(conn.wire[..conn.cursor + 1])|;
    conn.(cursor := conn.cursor + 1,
          received := received,
          acks := if acked && (f.Data? || f.SizeFrame?) then conn.acks + [Ack(received, frames)] else conn.acks,
          open := acked)
  }

  datatype ServerEvent =
    | Serve(i: nat, acked: bool) // `acked` is false when sending the ack fails
    | Close(i: nat)              // the loop ends: close, error, refusal, timeout

  ghost predicate ServerMove(w: World, e: ServerEvent, v: World) {
    && e.i < |w.conns| && w.conns[e.i].open
    && var conn := w.conns[e.i];
       match e
       case Serve(i, acked) =>
         && conn.cursor < |conn.wire|
         && (conn.wire[conn.cursor].Data? ==> |conn.wire[conn.cursor].chunk.bytes| <= MAX_INGEST_FRAME)
         && v == w.(conns := w.conns[i := Served(conn, acked)],
                    log := if conn.wire[conn.cursor].Data? then w.log + [conn.wire[conn.cursor].chunk] else w.log)
       case Close(i) => v == w.(conns := w.conns[i := conn.(open := false)])
  }

  ghost predicate Next(w: World, v: World) {
    || (exists e: Event :: ClientMove(w, e, v))
    || (exists e: ServerEvent :: ServerMove(w, e, v))
  }

  ghost predicate Start(w: World) {
    && w.client == Fresh(w.client.size)
    && w == World(w.client, [], [], {}, [], 0)
  }

  ghost predicate IsRun(run: seq<World>) {
    && run != [] && Start(run[0])
    && forall i :: 0 < i < |run| ==> StepsTo(run, i)
  }

  ghost predicate StepsTo(run: seq<World>, i: nat)
    requires 0 < i < |run|
  {
    Next(run[i - 1], run[i])
  }

  lemma RunStep(run: seq<World>, n: nat)
    requires IsRun(run) && 0 < n < |run|
    ensures Next(run[n - 1], run[n])
  {
    assert StepsTo(run, n);
  }

  // ---- The invariant ----

  ghost predicate MadeOk(made: seq<Chunk>) {
    forall i :: 0 <= i < |made| ==> made[i].id == i && made[i].bytes != []
  }

  ghost predicate Known(made: seq<Chunk>, q: seq<Chunk>) {
    forall c :: c in q ==> c.id < |made| && made[c.id] == c
  }

  ghost predicate Increasing(q: seq<Chunk>) {
    forall i, j :: 0 <= i < j < |q| ==> q[i].id < q[j].id
  }

  /** Settled: stored, or given up by the cap. */
  predicate Settled(w: World, c: Chunk) {
    c in w.log || c in w.dropped
  }

  ghost predicate ClientOk(c: Client, made: seq<Chunk>) {
    && c.Counted() && c.buffered <= MAX_BUFFERED_BYTES
    && Known(made, c.Queue()) && Increasing(c.Queue())
    && (!c.connected ==> c.unacked == [])
  }

  /** At-least-once: every chunk is settled or still owed. */
  ghost predicate Accounted(w: World) {
    forall i :: 0 <= i < |w.made| ==> Settled(w, w.made[i]) || w.made[i] in w.client.Queue()
  }

  /** Acks stand for stored frames, and later ones for no fewer. */
  ghost predicate AcksOk(acks: seq<Ack>, stored: seq<Chunk>) {
    && (forall k :: 0 <= k < |acks| ==>
          acks[k].frames <= |stored| && acks[k].bytes == Bytes(stored[..acks[k].frames]))
    && (forall j, k :: 0 <= j < k < |acks| ==> acks[j].frames <= acks[k].frames)
  }

  ghost predicate ConnOk(made: seq<Chunk>, log: seq<Chunk>, conn: Conn) {
    && conn.cursor <= |conn.wire|
    && Consumed(conn) <= DataOf(conn.wire)
    && Known(made, DataOf(conn.wire)) && Increasing(DataOf(conn.wire))
    && conn.received == Bytes(Consumed(conn))
    && (forall c :: c in Consumed(conn) ==> c in log)
    && AcksOk(conn.acks, Consumed(conn))
  }

  /** A chunk is on a wire only behind every older chunk that is not settled. */
  ghost predicate Ordered(w: World, data: seq<Chunk>) {
    forall p, j :: 0 <= p < |data| && 0 <= j < data[p].id && j < |w.made| ==>
      Settled(w, w.made[j]) || w.made[j] in data[..p]
  }

  /** The client's account of the current connection, whose binary frames are
      `data`, of which the first `acked` were acknowledged. */
  ghost predicate LedgerOk(data: seq<Chunk>, c: Client, acked: nat) {
    && IsTail(c.unacked, data)
    && acked <= |data| - |c.unacked|
    && c.connAcked == Bytes(data[..acked])
    && c.connAcked + c.droppedUnacked + Bytes(c.unacked) == Bytes(data)
    && Increasing(data + c.pending)
  }

  /** No waiting ack stands for fewer than `n` frames. */
  ghost predicate AcksFrom(acks: seq<Ack>, n: nat) {
    forall k :: 0 <= k < |acks| ==> n <= acks[k].frames
  }

  ghost predicate Ledger(w: World) {
    w.client.connected ==>
      && w.conns != []
      && LedgerOk(DataOf(w.conns[Last(w)].wire), w.client, w.ackedFrames)
      && w.conns[Last(w)].cursor <= |w.conns[Last(w)].wire|
      && w.ackedFrames <= |Consumed(w.conns[Last(w)])|
      && AcksFrom(w.conns[Last(w)].acks, w.ackedFrames)
  }

  /** Nothing newer is stored before an older chunk is settled. */
  ghost predicate StoredInOrder(w: World) {
    forall c, j :: c in w.log && 0 <= j < c.id && j < |w.made| ==> Settled(w, w.made[j])
  }

  ghost predicate ConnsOk(w: World) {
    && (forall i :: 0 <= i < |w.conns| ==> ConnOk(w.made, w.log, w.conns[i]))
    && (forall i :: 0 <= i < |w.conns| ==> Ordered(w, DataOf(w.conns[i].wire)))
  }

  ghost predicate Inv(w: World) {
    && MadeOk(w.made) && Known(w.made, w.log)
    && ClientOk(w.client, w.made) && Accounted(w) && Ledger(w) && StoredInOrder(w)
    && ConnsOk(w)
  }

  // ---- Facts about queues ----

  lemma BytesBetween(q: seq<Chunk>, i: nat, j: nat)
    requires i <= j <= |q|
    ensures Bytes(q[..j]) == Bytes(q[..i]) + Bytes(q[i..j])
  {
    BytesSplit(q[..j], i);
    assert q[..j][..i] == q[..i] && q[..j][i..] == q[i..j];
  }

  lemma InPart(q: seq<Chunk>, c: Chunk, k: nat)
    requires c in q && k <= |q|
    ensures c in q[..k] || c in q[k..]
  {
    assert q == q[..k] + q[k..];
  }

  // ---- Queuing a chunk ----

  /** What queuing does to the client, and what it costs. */
  ghost predicate QueuedEffect(c: Client, chunk: Chunk, d: Client) {
    var all := c.Queue() + [chunk];
    && d.Counted() && d.buffered <= MAX_BUFFERED_BYTES
    && d.Queue() == all[Overflow(all)..]
    && IsTail(d.unacked, c.unacked) && IsTail(d.pending, c.pending + [chunk])
    && d.droppedUnacked + Bytes(d.unacked) == c.droppedUnacked + Bytes(c.unacked)
    && d.connected == c.connected && d.connAcked == c.connAcked
  }

  lemma QueuedIsEffect(c: Client, chunk: Chunk)
    requires c.Counted()
    ensures QueuedEffect(c, chunk, Buffered(c, chunk))
  {
    BufferedCounts(c, chunk);
    BufferedKeepsLedger(c, chunk);
  }

  lemma KnownSnoc(q: seq<Chunk>, chunk: Chunk, made: seq<Chunk>)
    requires Known(made, q) && Increasing(q) && chunk.id == |made|
    ensures Known(made + [chunk], q + [chunk]) && Increasing(q + [chunk])
  {
    var all := q + [chunk];
    forall c | c in all ensures c.id < |made + [chunk]| && (made + [chunk])[c.id] == c {
      assert c in q || c == chunk;
    }
    forall i, j | 0 <= i < j < |all| ensures all[i].id < all[j].id {
      assert all[i] == q[i] && q[i] in q;
    }
  }

  lemma KnownTail(q: seq<Chunk>, tail: seq<Chunk>, made: seq<Chunk>)
    requires Known(made, q) && Increasing(q) && IsTail(tail, q)
    ensures Known(made, tail) && Increasing(tail)
  {
    var gap := |q| - |tail|;
    forall c | c in tail ensures c.id < |made| && made[c.id] == c {
      assert c in q;
    }
    forall i, j | 0 <= i < j < |tail| ensures tail[i].id < tail[j].id {
      assert tail[i] == q[i + gap] && tail[j] == q[j + gap];
    }
  }

  lemma QueuedClientOk(c: Client, chunk: Chunk, d: Client, made: seq<Chunk>)
    requires ClientOk(c, made) && chunk.id == |made| && QueuedEffect(c, chunk, d)
    ensures ClientOk(d, made + [chunk])
  {
    KnownSnoc(c.Queue(), chunk, made);
    KnownTail(c.Queue() + [chunk], d.Queue(), made + [chunk]);
  }

  lemma QueuedAccounted(w: World, chunk: Chunk, v: World)
    requires Accounted(w) && QueuedEffect(w.client, chunk, v.client)
    requires v.made == w.made + [chunk] && v.log == w.log && v.dropped == w.dropped + Evicted(w.client, chunk)
    ensures Accounted(v)
  {
    var all := w.client.Queue() + [chunk];
    var k := Overflow(all);
    forall i | 0 <= i < |v.made| ensures Settled(v, v.made[i]) || v.made[i] in v.client.Queue() {
      var m := v.made[i];
      if i < |w.made| {
        assert m == w.made[i];
      }
      if m in all {
        InPart(all, m, k);
      }
    }
  }

  lemma QueuedLedger(data: seq<Chunk>, c: Client, chunk: Chunk, d: Client, acked: nat, made: seq<Chunk>)
    requires LedgerOk(data, c, acked) && QueuedEffect(c, chunk, d)
    requires Known(made, data) && Known(made, c.Queue()) && chunk.id == |made|
    ensures LedgerOk(data, d, acked)
  {
    TailTransitive(d.unacked, c.unacked, data);
    var full := data + (c.pending + [chunk]);
    forall i | 0 <= i < |full| - 1 ensures full[i].id < chunk.id {
      if i < |data| {
        assert full[i] == data[i] && data[i] in data;
      } else {
        assert full[i] == c.pending[i - |data|] && c.pending[i - |data|] in c.Queue();
      }
    }
    forall i, j | 0 <= i < j < |full| ensures full[i].id < full[j].id {
      if j < |full| - 1 {
        assert full[i] == (data + c.pending)[i] && full[j] == (data + c.pending)[j];
      }
    }
    IncreasingWithout(data, c.pending + [chunk], d.pending);
  }

  lemma IncreasingWithout(data: seq<Chunk>, q: seq<Chunk>, tail: seq<Chunk>)
    requires Increasing(data + q) && IsTail(tail, q)
    ensures Increasing(data + tail)
  {
    var gap := |q| - |tail|;
    var whole, part := data + q, data + tail;
    forall i, j | 0 <= i < j < |part| ensures part[i].id < part[j].id {
      var i', j' := if i < |data| then i else i + gap, if j < |data| then j else j + gap;
      assert part[i] == whole[i'] && part[j] == whole[j'];
    }
  }

  // ---- Reading an ack ----

  /** What an ack of the first `f` frames leaves: it was all dropped before. */
  lemma LedgerWithin(data: seq<Chunk>, c: Client, d: Client, acked: nat, f: nat, n: nat)
    requires LedgerOk(data, c, acked) && f <= |data| - |c.unacked| && n == Bytes(data[..f])
    requires d.unacked == c.unacked && d.pending == c.pending
    requires d.connAcked == n && d.droppedUnacked == c.connAcked + c.droppedUnacked - n
    ensures LedgerOk(data, d, f)
  {
  }

  /** What it leaves when it releases the oldest `k` chunks still held. */
  lemma LedgerBeyond(data: seq<Chunk>, c: Client, d: Client, acked: nat, k: nat)
    requires LedgerOk(data, c, acked) && k <= |c.unacked|
    requires d.unacked == c.unacked[k..] && d.pending == c.pending && d.droppedUnacked == 0
    requires d.connAcked == Bytes(data[..|data| - |d.unacked|])
    ensures LedgerOk(data, d, |data| - |d.unacked|)
  {
    BytesSplit(data, |data| - |d.unacked|);
    assert d.unacked == data[|data| - |d.unacked|..];
  }

  /** An ack of no more than was dropped releases nothing. */
  lemma AckedWithin(c: Client, n: nat, d: Client)
    requires c.Counted() && c.connAcked <= n <= c.connAcked + c.droppedUnacked && d == Acked(c, n)
    ensures d.unacked == c.unacked && d.unacked == c.unacked[0..] && d.pending == c.pending
    ensures d.connAcked == n && d.droppedUnacked == c.connAcked + c.droppedUnacked - n
  {
    assert c.unacked[..0] == [] && c.unacked[0..] == c.unacked;
  }

  /** An ack beyond what was dropped releases the chunks it covers. */
  lemma AckedBeyond(c: Client, n: nat, k: nat, d: Client)
    requires c.Counted() && 0 < k <= |c.unacked| && d == Acked(c, n)
    requires n == c.connAcked + c.droppedUnacked + Bytes(c.unacked[..k])
    requires forall chunk :: chunk in c.unacked ==> chunk.bytes != []
    ensures d.unacked == c.unacked[k..] && d.pending == c.pending
    ensures d.connAcked == n && d.droppedUnacked == 0
  {
    CoveredExactly(c.unacked, k);
  }

  /** The bytes of the frames up to `f`, when the oldest still held comes later. */
  lemma SumsBehind(data: seq<Chunk>, q: seq<Chunk>, acked: nat, f: nat)
    requires IsTail(q, data) && acked <= f <= |data| - |q|
    ensures Bytes(data[..acked]) <= Bytes(data[..f]) <= Bytes(data[..|data| - |q|])
    ensures Bytes(data) == Bytes(data[..|data| - |q|]) + Bytes(q)
  {
    BytesBetween(data, acked, f);
    BytesBetween(data, f, |data| - |q|);
    BytesSplit(data, |data| - |q|);
  }

  /** And when the first `k` of those still held are among them. */
  lemma SumsAhead(data: seq<Chunk>, q: seq<Chunk>, k: nat)
    requires IsTail(q, data) && k <= |q|
    ensures Bytes(data[..|data| - |q| + k]) == Bytes(data[..|data| - |q|]) + Bytes(q[..k])
  {
    var u := |data| - |q|;
    assert q[..k] == data[u..u + k];
    BytesBetween(data, u, u + k);
  }

  lemma SumsWhole(data: seq<Chunk>, q: seq<Chunk>)
    requires IsTail(q, data)
    ensures Bytes(data) == Bytes(data[..|data| - |q|]) + Bytes(q)
  {
    BytesSplit(data, |data| - |q|);
  }

  /** What the ledger says was acked or dropped is what came before the held ones. */
  lemma AckedPart(data: seq<Chunk>, c: Client, acked: nat)
    requires LedgerOk(data, c, acked)
    ensures c.connAcked + c.droppedUnacked == Bytes(data[..|data| - |c.unacked|])
  {
    SumsWhole(data, c.unacked);
  }

  /** How many of the `held` newest of `all` frames an ack of the first `f` frees. */
  function Freed(all: nat, held: nat, f: nat): (k: nat)
    requires held <= all && f <= all
    ensures k <= held
  {
    if f <= all - held then 0 else f - (all - held)
  }

  lemma AckLedgerBehind(data: seq<Chunk>, c: Client, d: Client, acked: nat, f: nat, n: nat)
    requires LedgerOk(data, c, acked) && acked <= f <= |data| - |c.unacked| && c.Counted()
    requires n == Bytes(data[..f]) && d == Acked(c, n)
    ensures d.unacked == c.unacked[0..] && LedgerOk(data, d, f)
  {
    SumsBehind(data, c.unacked, acked, f);
    AckedWithin(c, n, d);
    LedgerWithin(data, c, d, acked, f, n);
  }

  lemma AckLedgerAhead(data: seq<Chunk>, c: Client, d: Client, acked: nat, k: nat, n: nat)
    requires LedgerOk(data, c, acked) && 0 < k <= |c.unacked| && c.Counted()
    requires forall chunk :: chunk in c.unacked ==> chunk.bytes != []
    requires n == Bytes(data[..|data| - |c.unacked| + k]) && d == Acked(c, n)
    ensures d.unacked == c.unacked[k..] && LedgerOk(data, d, |data| - |c.unacked| + k)
  {
    SumsAhead(data, c.unacked, k);
    AckedPart(data, c, acked);
    AckedBeyond(c, n, k, d);
    LedgerBeyond(data, c, d, acked, k);
  }

  /** An ack of the first `f` frames releases exactly the still-held ones among
      them, and keeps the ledger. */
  lemma AckLedger(data: seq<Chunk>, c: Client, d: Client, acked: nat, f: nat, n: nat)
    requires LedgerOk(data, c, acked) && acked <= f <= |data| && c.Counted()
    requires forall chunk :: chunk in c.unacked ==> chunk.bytes != []
    requires n == Bytes(data[..f]) && d == Acked(c, n)
    ensures d.unacked == c.unacked[Freed(|data|, |c.unacked|, f)..] && LedgerOk(data, d, f)
  {
    var u := |data| - |c.unacked|;
    if f <= u {
      AckLedgerBehind(data, c, d, acked, f, n);
    } else {
      AckLedgerAhead(data, c, d, acked, f - u, n);
    }
  }

  /** With every written byte acknowledged, nothing is left waiting. */
  lemma FullAckEmpties(data: seq<Chunk>, c: Client, acked: nat)
    requires LedgerOk(data, c, acked) && c.Counted()
    requires forall chunk :: chunk in c.unacked ==> chunk.bytes != []
    ensures Acked(c, Bytes(data)).unacked == []
  {
    assert data[..|data|] == data;
    AckLedger(data, c, Acked(c, Bytes(data)), acked, |data|, Bytes(data));
  }

  lemma TailClientOk(c: Client, d: Client, made: seq<Chunk>)
    requires ClientOk(c, made) && IsTail(d.Queue(), c.Queue())
    requires d.Counted() && d.buffered <= c.buffered && (!d.connected ==> d.unacked == [])
    ensures ClientOk(d, made)
  {
    KnownTail(c.Queue(), d.Queue(), made);
  }

  lemma AckAccounted(w: World, v: World, stored: seq<Chunk>, u: nat, n: nat)
    requires Accounted(w) && v.made == w.made && v.log == w.log && v.dropped == w.dropped
    requires n <= |w.client.Queue()| && v.client.Queue() == w.client.Queue()[n..]
    requires u + n <= |stored| && stored[u..u + n] == w.client.Queue()[..n]
    requires forall c :: c in stored ==> c in w.log
    ensures Accounted(v)
  {
    forall i | 0 <= i < |v.made| ensures Settled(v, v.made[i]) || v.made[i] in v.client.Queue() {
      var m := w.made[i];
      if m in w.client.Queue() {
        InPart(w.client.Queue(), m, n);
        if m in stored[u..u + n] {
          assert m in stored;
        }
      }
    }
  }

  /** The stored frames of a connection whose next ack covers `f` of them. */
  lemma AckReadAccounted(w: World, v: World, conn: Conn, d: Client, f: nat)
    requires Accounted(w) && ConnOk(w.made, w.log, conn) && f <= |Consumed(conn)|
    requires v.made == w.made && v.log == w.log && v.dropped == w.dropped && v.client == d
    requires IsTail(w.client.unacked, DataOf(conn.wire)) && d.pending == w.client.pending
    requires d.unacked == w.client.unacked[Freed(|DataOf(conn.wire)|, |w.client.unacked|, f)..]
    ensures Accounted(v)
  {
    var data, stored := DataOf(conn.wire), Consumed(conn);
    var u := |data| - |w.client.unacked|;
    var q := w.client.Queue();
    if f <= u {
      assert d.Queue() == q[0..] && q[..0] == [] == stored[0..0];
      AckAccounted(w, v, stored, 0, 0);
    } else {
      var n := f - u;
      assert q[..n] == w.client.unacked[..n] == data[u..f] == stored[u..u + n];
      assert d.Queue() == q[n..];
      AckAccounted(w, v, stored, u, n);
    }
  }

  lemma QueueNonEmpty(made: seq<Chunk>, c: Client)
    requires MadeOk(made) && Known(made, c.Queue())
    ensures forall chunk :: chunk in c.unacked ==> chunk.bytes != []
  {
    forall chunk | chunk in c.unacked ensures chunk.bytes != [] {
      assert chunk in c.Queue();
    }
  }

  lemma AckClientOk(c: Client, acked: nat, made: seq<Chunk>)
    requires ClientOk(c, made) && c.connected
    ensures ClientOk(Acked(c, acked), made)
  {
    AckedCounts(c, acked);
    TailClientOk(c, Acked(c, acked), made);
  }

  lemma ConsumedPrefix(made: seq<Chunk>, log: seq<Chunk>, conn: Conn, f: nat)
    requires ConnOk(made, log, conn) && f <= |Consumed(conn)|
    ensures f <= |DataOf(conn.wire)| && Bytes(Consumed(conn)[..f]) == Bytes(DataOf(conn.wire)[..f])
  {
    assert Consumed(conn)[..f] == DataOf(conn.wire)[..f];
  }

  /** What reading the next ack does to the client's own account. */
  lemma AckReadOwn(c: Client, d: Client, conn: Conn, acked: nat, made: seq<Chunk>, log: seq<Chunk>)
    requires MadeOk(made) && ClientOk(c, made) && c.connected
    requires LedgerOk(DataOf(conn.wire), c, acked) && ConnOk(made, log, conn)
    requires conn.acks != [] && acked <= conn.acks[0].frames && d == Acked(c, conn.acks[0].bytes)
    ensures var data, f := DataOf(conn.wire), conn.acks[0].frames;
            && ClientOk(d, made) && LedgerOk(data, d, f) && d.pending == c.pending
            && f <= |Consumed(conn)| && d.unacked == c.unacked[Freed(|data|, |c.unacked|, f)..]
  {
    var f := conn.acks[0].frames;
    ConsumedPrefix(made, log, conn, f);
    QueueNonEmpty(made, c);
    AckLedger(DataOf(conn.wire), c, d, acked, f, conn.acks[0].bytes);
    AckClientOk(c, conn.acks[0].bytes, made);
  }

  lemma AckReadKeeps(w: World, acked: nat, v: World)
    requires Inv(w) && ClientMove(w, AckRead(acked), v)
    ensures Inv(v)
  {
    assert ConnOk(w.made, w.log, w.conns[Last(w)]);
    var conn := w.conns[Last(w)];
    AckReadOwn(w.client, v.client, conn, w.ackedFrames, w.made, w.log);
    AckReadAccounted(w, v, conn, v.client, conn.acks[0].frames);
    PopAckConns(w, v);
    AcksGrow(w.conns[Last(w)].acks, Consumed(w.conns[Last(w)]));
    AckReadRest(w, acked, v);
  }

  lemma AckReadRest(w: World, acked: nat, v: World)
    requires StoredInOrder(w) && ClientMove(w, AckRead(acked), v)
    requires w.conns[Last(w)].cursor <= |w.conns[Last(w)].wire| && v.ackedFrames <= |Consumed(w.conns[Last(w)])|
    requires AcksFrom(w.conns[Last(w)].acks[1..], v.ackedFrames)
    requires LedgerOk(DataOf(w.conns[Last(w)].wire), v.client, v.ackedFrames)
    ensures Ledger(v) && StoredInOrder(v)
  {
    StillInOrder(w, v);
  }

  /** The acks behind the first stand for no fewer frames than it. */
  lemma AcksGrow(acks: seq<Ack>, stored: seq<Chunk>)
    requires AcksOk(acks, stored) && acks != []
    ensures AcksFrom(acks[1..], acks[0].frames) && acks[0].frames <= |stored|
  {
  }

  lemma StillInOrder(w: World, v: World)
    requires StoredInOrder(w) && v.made == w.made && v.log == w.log && v.dropped == w.dropped
    ensures StoredInOrder(v)
  {
    forall c, j | c in v.log && 0 <= j < c.id && j < |v.made| ensures Settled(v, v.made[j]) {
      assert Settled(w, w.made[j]);
    }
  }

  lemma PopAckConns(w: World, v: World)
    requires ConnsOk(w) && w.conns != [] && w.conns[Last(w)].acks != []
    requires v.made == w.made && v.log == w.log && v.dropped == w.dropped
    requires var conn := w.conns[Last(w)]; v.conns == w.conns[Last(w) := conn.(acks := conn.acks[1..])]
    ensures ConnsOk(v)
  {
    assert ConnOk(w.made, w.log, w.conns[Last(w)]);
  }

  // ---- Losing and opening connections ----

  lemma DisconnectKeeps(w: World, v: World)
    requires Inv(w) && v.client == Disconnected(w.client)
    requires v.made == w.made && v.log == w.log && v.dropped == w.dropped && ConnsOk(v)
    ensures Inv(v)
  {
    BytesAppend(w.client.unacked, w.client.pending);
    assert v.client.Queue() == w.client.Queue();
  }

  lemma ConnectConns(w: World, v: World)
    requires ConnsOk(w) && v.made == w.made && v.log == w.log && v.dropped == w.dropped
    requires v.conns == w.conns + [Conn([], 0, 0, [], true)]
    ensures ConnsOk(v)
  {
    var blank := Conn([], 0, 0, [], true);
    assert blank.wire[..blank.cursor] == [] && DataOf([]) == [];
    assert ConnOk(v.made, v.log, blank);
    forall i | 0 <= i < |v.conns| ensures ConnOk(v.made, v.log, v.conns[i]) && Ordered(v, DataOf(v.conns[i].wire)) {
      if i < |w.conns| {
        assert v.conns[i] == w.conns[i];
        assert ConnOk(w.made, w.log, w.conns[i]) && Ordered(w, DataOf(w.conns[i].wire));
      } else {
        assert v.conns[i] == blank;
      }
    }
  }

  lemma ConnectLedger(w: World, v: World)
    requires ClientMove(w, Connected, v) && w.client.unacked == [] && Increasing(w.client.Queue())
    ensures Ledger(v)
  {
    assert w.client.Queue() == [] + w.client.pending;
    assert DataOf([]) == [];
    assert LedgerOk([], v.client, 0);
  }

  lemma ConnectKeeps(w: World, v: World)
    requires Inv(w) && ClientMove(w, Connected, v)
    ensures Inv(v)
  {
    ConnectConns(w, v);
    ConnectLedger(w, v);
    assert v.client.Queue() == w.client.Queue();
    TailClientOk(w.client, v.client, w.made);
    SameHistory(w, v);
  }

  // ---- Writing ----

  /** Everything older than the oldest pending chunk is settled or on the wire. */
  lemma OldestOwed(w: World, data: seq<Chunk>, j: nat)
    requires Accounted(w) && IsTail(w.client.unacked, data) && Increasing(w.client.Queue()) && MadeOk(w.made)
    requires w.client.pending != [] && j < w.client.pending[0].id && j < |w.made|
    ensures Settled(w, w.made[j]) || w.made[j] in data
  {
    var q, u := w.client.Queue(), |w.client.unacked|;
    if w.made[j] in q {
      var p :| 0 <= p < |q| && q[p] == w.made[j];
      assert q[u] == w.client.pending[0];
      assert p < u;
      assert q[p] == data[|data| - u + p];
    }
  }

  lemma OrderedSnoc(w: World, data: seq<Chunk>, chunk: Chunk)
    requires Ordered(w, data)
    requires forall j :: 0 <= j < chunk.id && j < |w.made| ==> Settled(w, w.made[j]) || w.made[j] in data
    ensures Ordered(w, data + [chunk])
  {
    var longer := data + [chunk];
    forall p, j | 0 <= p < |longer| && 0 <= j < longer[p].id && j < |w.made|
      ensures Settled(w, w.made[j]) || w.made[j] in longer[..p]
    {
      if p < |data| {
        assert longer[..p] == data[..p];
      } else {
        assert longer[..p] == data;
      }
    }
  }

  lemma WireConnOk(made: seq<Chunk>, log: seq<Chunk>, conn: Conn, f: Frame)
    requires ConnOk(made, log, conn)
    requires f.Data? ==> Known(made, [f.chunk]) && Increasing(DataOf(conn.wire) + [f.chunk])
    ensures ConnOk(made, log, conn.(wire := conn.wire + [f]))
  {
    var next := conn.(wire := conn.wire + [f]);
    DataOfSnoc(conn.wire, f);
    assert next.wire[..next.cursor] == conn.wire[..conn.cursor];
    if f.Data? {
      assert f.chunk in [f.chunk];
    } else {
      assert DataOf(next.wire) == DataOf(conn.wire);
    }
  }

  lemma WireIncreasing(data: seq<Chunk>, pending: seq<Chunk>)
    requires Increasing(data + pending) && pending != []
    ensures Increasing(data + [pending[0]])
  {
    var longer := data + [pending[0]];
    forall i, j | 0 <= i < j < |longer| ensures longer[i].id < longer[j].id {
      assert longer[i] == (data + pending)[i] && longer[j] == (data + pending)[j];
    }
  }

  /** The oldest pending chunk may go behind what is on the wire. */
  lemma WireData(w: World, data: seq<Chunk>, chunk: Chunk, acked: nat)
    requires MadeOk(w.made) && ClientOk(w.client, w.made) && Accounted(w) && LedgerOk(data, w.client, acked)
    requires Ordered(w, data) && w.client.pending != [] && chunk == w.client.pending[0]
    ensures Known(w.made, [chunk]) && Increasing(data + [chunk]) && Ordered(w, data + [chunk])
  {
    assert chunk == w.client.Queue()[|w.client.unacked|];
    assert chunk in w.client.Queue();
    WireIncreasing(data, w.client.pending);
    forall j | 0 <= j < chunk.id && j < |w.made| ensures Settled(w, w.made[j]) || w.made[j] in data {
      OldestOwed(w, data, j);
    }
    OrderedSnoc(w, data, chunk);
  }

  /** The current wire stays sound whatever the flush writes on it. */
  lemma WireCurrent(w: World, conn: Conn, f: Frame)
    requires MadeOk(w.made) && ClientOk(w.client, w.made) && Accounted(w)
    requires LedgerOk(DataOf(conn.wire), w.client, w.ackedFrames) && CanWrite(w.client, f)
    requires ConnOk(w.made, w.log, conn) && Ordered(w, DataOf(conn.wire))
    ensures ConnOk(w.made, w.log, conn.(wire := conn.wire + [f])) && Ordered(w, DataOf(conn.wire + [f]))
  {
    DataOfSnoc(conn.wire, f);
    if f.Data? {
      WireData(w, DataOf(conn.wire), f.chunk, w.ackedFrames);
    } else {
      assert DataOf(conn.wire + [f]) == DataOf(conn.wire);
    }
    WireConnOk(w.made, w.log, conn, f);
  }

  lemma WireConns(w: World, f: Frame, v: World)
    requires MadeOk(w.made) && ClientOk(w.client, w.made) && Accounted(w) && Ledger(w) && ConnsOk(w)
    requires w.client.connected && CanWrite(w.client, f)
    requires v.made == w.made && v.log == w.log && v.dropped == w.dropped && v.conns == OnWire(w, f)
    ensures ConnsOk(v)
  {
    assert ConnOk(w.made, w.log, w.conns[Last(w)]) && Ordered(w, DataOf(w.conns[Last(w)].wire));
    WireCurrent(w, w.conns[Last(w)], f);
    forall i | 0 <= i < |v.conns| ensures ConnOk(v.made, v.log, v.conns[i]) && Ordered(v, DataOf(v.conns[i].wire)) {
      if i == Last(w) {
        assert v.conns[i] == w.conns[i].(wire := w.conns[i].wire + [f]);
      } else {
        assert ConnOk(w.made, w.log, w.conns[i]) && Ordered(w, DataOf(w.conns[i].wire));
      }
      OrderedSame(w, v, DataOf(v.conns[i].wire));
    }
  }

  lemma OrderedSame(w: World, v: World, data: seq<Chunk>)
    requires Ordered(w, data) && v.made == w.made && v.log == w.log && v.dropped == w.dropped
    ensures Ordered(v, data)
  {
    forall p, j | 0 <= p < |data| && 0 <= j < data[p].id && j < |v.made|
      ensures Settled(v, v.made[j]) || v.made[j] in data[..p]
    {
      assert Settled(w, w.made[j]) || w.made[j] in data[..p];
    }
  }

  lemma WroteLedger(data: seq<Chunk>, c: Client, acked: nat)
    requires LedgerOk(data, c, acked) && c.pending != []
    ensures LedgerOk(data + [c.pending[0]], c.(pending := c.pending[1..], unacked := c.unacked + [c.pending[0]]), acked)
  {
    var chunk := c.pending[0];
    BytesSnoc(data, chunk);
    BytesSnoc(c.unacked, chunk);
    assert (data + [chunk])[..acked] == data[..acked];
    assert (data + [chunk])[|data| - |c.unacked|..] == c.unacked + [chunk];
    assert (data + [chunk]) + c.pending[1..] == data + c.pending;
  }

  lemma WroteLedgerKeeps(w: World, f: Frame, v: World)
    requires Ledger(w) && w.client.connected && w.conns != [] && v.conns == OnWire(w, f)
    requires v.client.connected && v.ackedFrames == w.ackedFrames
    requires LedgerOk(DataOf(w.conns[Last(w)].wire + [f]), v.client, w.ackedFrames)
    ensures Ledger(v)
  {
    var conn := w.conns[Last(w)];
    var next := v.conns[Last(v)];
    assert next.wire[..next.cursor] == conn.wire[..conn.cursor];
  }

  lemma WroteDataLedger(w: World, chunk: Chunk, v: World)
    requires Ledger(w) && ClientMove(w, Wrote(Data(chunk)), v)
    ensures Ledger(v)
  {
    var data := DataOf(w.conns[Last(w)].wire);
    DataOfSnoc(w.conns[Last(w)].wire, Data(chunk));
    WroteLedger(data, w.client, w.ackedFrames);
    WroteLedgerKeeps(w, Data(chunk), v);
  }

  /** Anything but a chunk leaves the ledger as it was. */
  lemma OtherLedger(data: seq<Chunk>, c: Client, d: Client, acked: nat)
    requires LedgerOk(data, c, acked) && d.unacked == c.unacked && d.pending == c.pending
    requires d.connAcked == c.connAcked && d.droppedUnacked == c.droppedUnacked
    ensures LedgerOk(data + [], d, acked)
  {
    assert data + [] == data;
  }

  lemma WroteOtherLedger(w: World, f: Frame, v: World)
    requires Ledger(w) && ClientMove(w, Wrote(f), v) && !f.Data?
    ensures Ledger(v)
  {
    DataOfSnoc(w.conns[Last(w)].wire, f);
    OtherLedger(DataOf(w.conns[Last(w)].wire), w.client, v.client, w.ackedFrames);
    WroteLedgerKeeps(w, f, v);
  }

  lemma WroteClient(c: Client, f: Frame, d: Client, made: seq<Chunk>)
    requires ClientOk(c, made) && Move(c, Wrote(f), d)
    ensures ClientOk(d, made) && d.Queue() == c.Queue()
  {
    assert d.Queue() == c.Queue();
  }

  lemma WroteKeeps(w: World, f: Frame, v: World)
    requires Inv(w) && ClientMove(w, Wrote(f), v)
    ensures Inv(v)
  {
    WroteClient(w.client, f, v.client, w.made);
    match f {
      case Data(chunk) => WroteDataLedger(w, chunk, v);
      case _ => WroteOtherLedger(w, f, v);
    }
    WireConns(w, f, v);
    SameHistory(w, v);
  }

  lemma SameHistory(w: World, v: World)
    requires Accounted(w) && StoredInOrder(w) && v.client.Queue() == w.client.Queue()
    requires v.made == w.made && v.log == w.log && v.dropped == w.dropped
    ensures Accounted(v) && StoredInOrder(v)
  {
    forall i | 0 <= i < |v.made| ensures Settled(v, v.made[i]) || v.made[i] in v.client.Queue() {
      assert Settled(w, w.made[i]) || w.made[i] in w.client.Queue();
    }
    forall c, j | c in v.log && 0 <= j < c.id && j < |v.made| ensures Settled(v, v.made[j]) {
      assert Settled(w, w.made[j]);
    }
  }

  // ---- The server ----

  /** What one more frame does to the part of a wire already taken. */
  lemma OneMoreTaken(conn: Conn, acked: bool)
    requires conn.cursor < |conn.wire| && conn.received == Bytes(Consumed(conn))
    ensures var f, next := conn.wire[conn.cursor], Served(conn, acked);
            && Consumed(next) == (if f.Data? then Consumed(conn) + [f.chunk] else Consumed(conn))
            && Consumed(next) <= DataOf(next.wire)
            && next.received == Bytes(Consumed(next))
  {
    var f, next := conn.wire[conn.cursor], Served(conn, acked);
    assert next.wire[..next.cursor] == conn.wire[..conn.cursor] + [f];
    DataOfSnoc(conn.wire[..conn.cursor], f);
    DataOfPrefix(conn.wire, next.cursor);
    if f.Data? {
      BytesSnoc(Consumed(conn), f.chunk);
    }
  }

  lemma ServedAcks(conn: Conn, acked: bool, next: Conn)
    requires conn.cursor < |conn.wire| && next == Served(conn, acked) && next.received == Bytes(Consumed(next))
    ensures next.acks == conn.acks || next.acks == conn.acks + [Ack(Bytes(Consumed(next)), |Consumed(next)|)]
  {
  }

  lemma ServedConnOk(made: seq<Chunk>, log: seq<Chunk>, log': seq<Chunk>, conn: Conn, acked: bool)
    requires ConnOk(made, log, conn) && conn.cursor < |conn.wire| && log <= log'
    requires var f := conn.wire[conn.cursor]; f.Data? ==> f.chunk in log'
    ensures ConnOk(made, log', Served(conn, acked))
  {
    var next := Served(conn, acked);
    OneMoreTaken(conn, acked);
    ServedAcks(conn, acked, next);
    ServedAcksOk(conn.acks, Consumed(conn), Consumed(next));
    TakenIsStored(conn, log, log', Consumed(conn), Consumed(next));
  }

  lemma TakenIsStored(conn: Conn, log: seq<Chunk>, log': seq<Chunk>, before: seq<Chunk>, after: seq<Chunk>)
    requires conn.cursor < |conn.wire| && log <= log' && forall c :: c in before ==> c in log
    requires var f := conn.wire[conn.cursor];
             (f.Data? ==> f.chunk in log') && after == if f.Data? then before + [f.chunk] else before
    ensures forall c :: c in after ==> c in log'
  {
    forall c | c in after ensures c in log' {
      if c in before {
        assert c in log;
      }
    }
  }

  lemma ServedAcksOk(acks: seq<Ack>, stored: seq<Chunk>, stored': seq<Chunk>)
    requires AcksOk(acks, stored) && stored <= stored'
    ensures AcksOk(acks, stored')
    ensures AcksOk(acks + [Ack(Bytes(stored'), |stored'|)], stored')
  {
    forall k | 0 <= k < |acks| ensures stored'[..acks[k].frames] == stored[..acks[k].frames] {
    }
    assert stored'[..|stored'|] == stored';
  }

  /** Storing the next binary frame of any connection, however stale, finds
      every older chunk already settled. */
  lemma OlderSettled(w: World, conn: Conn, j: nat)
    requires ConnOk(w.made, w.log, conn) && Ordered(w, DataOf(conn.wire))
    requires conn.cursor < |conn.wire| && conn.wire[conn.cursor].Data?
    requires j < conn.wire[conn.cursor].chunk.id && j < |w.made|
    ensures Settled(w, w.made[j])
  {
    var f, data, p := conn.wire[conn.cursor], DataOf(conn.wire), |Consumed(conn)|;
    assert conn.wire[..conn.cursor + 1] == conn.wire[..conn.cursor] + [f];
    DataOfSnoc(conn.wire[..conn.cursor], f);
    DataOfPrefix(conn.wire, conn.cursor + 1);
    assert data[p] == f.chunk && data[..p] == Consumed(conn);
  }

  lemma FrameOnWire(conn: Conn)
    requires conn.cursor < |conn.wire| && conn.wire[conn.cursor].Data?
    ensures conn.wire[conn.cursor].chunk in DataOf(conn.wire)
  {
    var f := conn.wire[conn.cursor];
    assert conn.wire[..conn.cursor + 1] == conn.wire[..conn.cursor] + [f];
    DataOfSnoc(conn.wire[..conn.cursor], f);
    DataOfPrefix(conn.wire, conn.cursor + 1);
    var taken := DataOf(conn.wire[..conn.cursor + 1]);
    assert taken[|taken| - 1] == f.chunk;
  }

  lemma ServeConns(w: World, i: nat, acked: bool, v: World)
    requires ConnsOk(w) && ServerMove(w, Serve(i, acked), v)
    ensures ConnsOk(v)
  {
    assert ConnOk(w.made, w.log, w.conns[i]);
    ServedConnOk(w.made, w.log, v.log, w.conns[i], acked);
    forall k | 0 <= k < |v.conns| ensures ConnOk(v.made, v.log, v.conns[k]) && Ordered(v, DataOf(v.conns[k].wire)) {
      assert ConnOk(w.made, w.log, w.conns[k]) && Ordered(w, DataOf(w.conns[k].wire));
      assert v.conns[k].wire == w.conns[k].wire;
      OrderedLasts(w, v, DataOf(w.conns[k].wire));
    }
  }

  lemma OrderedLasts(w: World, v: World, data: seq<Chunk>)
    requires Ordered(w, data) && Known(w.made, data)
    requires w.made <= v.made && w.log <= v.log && w.dropped <= v.dropped
    ensures Ordered(v, data)
  {
    forall p, j | 0 <= p < |data| && 0 <= j < data[p].id && j < |v.made|
      ensures Settled(v, v.made[j]) || v.made[j] in data[..p]
    {
      assert data[p] in data;
      assert Settled(w, w.made[j]) || w.made[j] in data[..p];
    }
  }

  lemma ServeLog(w: World, i: nat, acked: bool, v: World)
    requires Inv(w) && ServerMove(w, Serve(i, acked), v)
    ensures Known(v.made, v.log) && Accounted(v) && StoredInOrder(v)
  {
    var conn := w.conns[i];
    assert ConnOk(w.made, w.log, conn) && Ordered(w, DataOf(conn.wire));
    if conn.wire[conn.cursor].Data? {
      FrameOnWire(conn);
    }
    forall c, j | c in v.log && 0 <= j < c.id && j < |v.made| ensures Settled(v, v.made[j]) {
      if c !in w.log {
        OlderSettled(w, conn, j);
      }
      assert Settled(w, w.made[j]);
    }
  }

  lemma ServeLedger(w: World, i: nat, acked: bool, v: World)
    requires Ledger(w) && ServerMove(w, Serve(i, acked), v)
    ensures Ledger(v)
  {
    if v.client.connected && i == Last(w) {
      LedgerServed(w.conns[i], acked, w.ackedFrames);
    }
  }

  lemma LedgerServed(conn: Conn, acked: bool, ackedFrames: nat)
    requires conn.cursor < |conn.wire| && ackedFrames <= |Consumed(conn)|
    requires AcksFrom(conn.acks, ackedFrames)
    ensures var after := Served(conn, acked);
            && after.wire == conn.wire && ackedFrames <= |Consumed(after)|
            && AcksFrom(after.acks, ackedFrames)
  {
    LedgerAckable(conn);
  }

  /** No more frames are acknowledged than the server has taken. */
  lemma LedgerAckable(conn: Conn)
    requires conn.cursor < |conn.wire|
    ensures |DataOf(conn.wire[..conn.cursor + 1])| >= |Consumed(conn)|
  {
    assert conn.wire[..conn.cursor + 1] == conn.wire[..conn.cursor] + [conn.wire[conn.cursor]];
    DataOfSnoc(conn.wire[..conn.cursor], conn.wire[conn.cursor]);
  }

  lemma CloseConns(w: World, i: nat, v: World)
    requires ConnsOk(w) && ServerMove(w, Close(i), v)
    ensures ConnsOk(v)
  {
    forall k | 0 <= k < |v.conns| ensures ConnOk(v.made, v.log, v.conns[k]) && Ordered(v, DataOf(v.conns[k].wire)) {
      assert ConnOk(w.made, w.log, w.conns[k]) && Ordered(w, DataOf(w.conns[k].wire));
      ClosedConnOk(w.made, w.log, w.conns[k], v.conns[k].open);
      OrderedSame(w, v, DataOf(v.conns[k].wire));
    }
  }

  lemma ClosedConnOk(made: seq<Chunk>, log: seq<Chunk>, conn: Conn, open: bool)
    requires ConnOk(made, log, conn)
    ensures ConnOk(made, log, conn.(open := open))
  {
  }

  lemma CloseKeeps(w: World, i: nat, v: World)
    requires Inv(w) && ServerMove(w, Close(i), v)
    ensures Inv(v)
  {
    SameHistory(w, v);
    CloseConns(w, i, v);
    CloseLedger(w, i, v);
  }

  lemma CloseLedger(w: World, i: nat, v: World)
    requires Ledger(w) && ServerMove(w, Close(i), v)
    ensures Ledger(v)
  {
    if w.client.connected {
      assert v.conns[Last(v)] == w.conns[Last(w)].(open := v.conns[Last(v)].open);
    }
  }

  lemma QueuedLedgerKeeps(w: World, chunk: Chunk, v: World)
    requires Inv(w) && ClientMove(w, Queued(chunk), v) && QueuedEffect(w.client, chunk, v.client)
    ensures Ledger(v)
  {
    if w.client.connected {
      assert ConnOk(w.made, w.log, w.conns[Last(w)]);
      QueuedLedger(DataOf(w.conns[Last(w)].wire), w.client, chunk, v.client, w.ackedFrames, w.made);
    }
  }

  lemma QueuedKeeps(w: World, chunk: Chunk, v: World)
    requires Inv(w) && ClientMove(w, Queued(chunk), v)
    ensures Inv(v)
  {
    QueuedIsEffect(w.client, chunk);
    QueuedLedgerKeeps(w, chunk, v);
    QueuedMadeOk(w, chunk, v);
    QueuedClientOk(w.client, chunk, v.client, w.made);
    QueuedAccounted(w, chunk, v);
    QueuedConns(w, v);
  }

  lemma QueuedMadeOk(w: World, chunk: Chunk, v: World)
    requires MadeOk(w.made) && Known(w.made, w.log) && StoredInOrder(w) && chunk.id == |w.made| && chunk.bytes != []
    requires v.made == w.made + [chunk] && v.log == w.log && w.dropped <= v.dropped
    ensures MadeOk(v.made) && Known(v.made, v.log) && StoredInOrder(v)
  {
    forall c, j | c in v.log && 0 <= j < c.id && j < |v.made| ensures Settled(v, v.made[j]) {
      assert c.id < |w.made| && v.made[j] == w.made[j];
      assert Settled(w, w.made[j]);
    }
  }

  lemma QueuedConns(w: World, v: World)
    requires ConnsOk(w) && w.made <= v.made && v.log == w.log && w.dropped <= v.dropped && v.conns == w.conns
    ensures ConnsOk(v)
  {
    forall k | 0 <= k < |v.conns| ensures ConnOk(v.made, v.log, v.conns[k]) && Ordered(v, DataOf(v.conns[k].wire)) {
      assert ConnOk(w.made, w.log, w.conns[k]) && Ordered(w, DataOf(w.conns[k].wire));
      OrderedLasts(w, v, DataOf(w.conns[k].wire));
    }
  }

  lemma ResizedKeeps(w: World, size: TermSize, v: World)
    requires Inv(w) && ClientMove(w, Resized(size), v)
    ensures Inv(v)
  {
    assert v.client.Queue() == w.client.Queue();
    SameHistory(w, v);
    QueuedConns(w, v);
    SameLedger(w, v);
  }

  lemma SameLedger(w: World, v: World)
    requires Ledger(w) && v.conns == w.conns && v.ackedFrames == w.ackedFrames
    requires v.client.connected == w.client.connected && v.client.unacked == w.client.unacked
    requires v.client.pending == w.client.pending && v.client.connAcked == w.client.connAcked
    requires v.client.droppedUnacked == w.client.droppedUnacked
    ensures Ledger(v)
  {
  }

  lemma DiedKeeps(w: World, v: World)
    requires Inv(w) && ClientMove(w, Died, v)
    ensures Inv(v)
  {
    QueuedConns(w, v);
    DisconnectKeeps(w, v);
  }

  lemma ClientMoveKeeps(w: World, e: Event, v: World)
    requires Inv(w) && ClientMove(w, e, v)
    ensures Inv(v)
  {
    match e {
      case Resized(size) => ResizedKeeps(w, size, v);
      case Queued(chunk) => QueuedKeeps(w, chunk, v);
      case AckRead(acked) => AckReadKeeps(w, acked, v);
      case Died => DiedKeeps(w, v);
      case Connected => ConnectKeeps(w, v);
      case Wrote(f) => WroteKeeps(w, f, v);
      case WriteFailed(f, arrived) =>
        if arrived {
          WireConns(w, f, v);
        } else {
          QueuedConns(w, v);
        }
        DisconnectKeeps(w, v);
    }
  }

  lemma ServerMoveKeeps(w: World, e: ServerEvent, v: World)
    requires Inv(w) && ServerMove(w, e, v)
    ensures Inv(v)
  {
    match e {
      case Serve(i, acked) =>
        ServeConns(w, i, acked, v);
        ServeLog(w, i, acked, v);
        ServeLedger(w, i, acked, v);
      case Close(i) => CloseKeeps(w, i, v);
    }
  }

  lemma NextKeeps(w: World, v: World)
    requires Inv(w) && Next(w, v)
    ensures Inv(v)
  {
    if e: Event :| ClientMove(w, e, v) {
      ClientMoveKeeps(w, e, v);
    } else {
      var e: ServerEvent :| ServerMove(w, e, v);
      ServerMoveKeeps(w, e, v);
    }
  }

  lemma StartInv(w: World)
    requires Start(w)
    ensures Inv(w) && SizeInv(w)
  {
  }

  lemma {:induction false} RunInv(run: seq<World>, n: nat, w: World)
    requires IsRun(run) && n < |run| && w == run[n]
    ensures Inv(w)
  {
    if n == 0 {
      StartInv(w);
    } else {
      var before := run[n - 1];
      RunInv(run, n - 1, before);
      RunStep(run, n);
      NextKeeps(before, w);
    }
  }

  /** A run that ends in `w`. */
  ghost predicate RunTo(run: seq<World>, w: World) {
    IsRun(run) && w == run[|run| - 1]
  }

  ghost predicate Reachable(w: World) {
    exists run: seq<World> :: RunTo(run, w)
  }

  lemma RunEndInv(run: seq<World>, w: World)
    requires RunTo(run, w)
    ensures Inv(w)
  {
    RunInv(run, |run| - 1, w);
  }

  lemma ReachableInv(w: World)
    requires Reachable(w)
    ensures Inv(w)
  {
    var run: seq<World> :| RunTo(run, w);
    RunEndInv(run, w);
  }

  // ---- What the protocol guarantees, over every run ----

  /** `v` stores one more chunk than `w`, one whose elders were all settled. */
  ghost predicate StoresInOrder(w: World, v: World) {
    && |v.log| == |w.log| + 1 && v.log[..|w.log|] == w.log
    && var stored := v.log[|w.log|];
       && stored.id < |w.made| && w.made[stored.id] == stored
       && forall elder :: elder in w.made && elder.id < stored.id ==> Settled(w, elder)
  }

  /** The frame a loop is about to store is no younger than what is unsettled. */
  lemma NextIsEldest(w: World, conn: Conn, stored: Chunk)
    requires MadeOk(w.made) && ConnOk(w.made, w.log, conn) && Ordered(w, DataOf(conn.wire))
    requires conn.cursor < |conn.wire| && conn.wire[conn.cursor] == Data(stored)
    ensures stored.id < |w.made| && w.made[stored.id] == stored
    ensures forall elder :: elder in w.made && elder.id < stored.id ==> Settled(w, elder)
  {
    FrameOnWire(conn);
    forall elder | elder in w.made && elder.id < stored.id ensures Settled(w, elder) {
      OlderSettled(w, conn, elder.id);
    }
  }

  lemma ServeStores(w: World, i: nat, acked: bool, v: World)
    requires MadeOk(w.made) && ConnsOk(w) && ServerMove(w, Serve(i, acked), v) && v.log != w.log
    ensures StoresInOrder(w, v) && v.made == w.made && v.dropped == w.dropped
  {
    var conn := w.conns[i];
    assert ConnOk(w.made, w.log, conn) && Ordered(w, DataOf(conn.wire));
    NextIsEldest(w, conn, conn.wire[conn.cursor].chunk);
  }

  lemma ClientKeepsLog(w: World, e: Event, v: World)
    requires ClientMove(w, e, v)
    ensures v.log == w.log
  {
  }

  lemma OnlyServersStore(w: World, v: World) returns (e: ServerEvent)
    requires Next(w, v) && v.log != w.log
    ensures ServerMove(w, e, v) && e.Serve?
  {
    if c: Event :| ClientMove(w, c, v) {
      ClientKeepsLog(w, c, v);
    }
    e :| ServerMove(w, e, v);
  }

  /** First-store order. Whenever a step stores a chunk, by whichever loop, every
      older chunk was by then already stored or already dropped by the cap. */
  lemma FirstStoreOrder(w: World, v: World)
    requires Reachable(w) && Next(w, v) && v.log != w.log
    ensures StoresInOrder(w, v)
  {
    ReachableInv(w);
    var e := OnlyServersStore(w, v);
    ServeStores(w, e.i, e.acked, v);
  }

  /** So a chunk stored for the first time behind a newer one is one the cap
      dropped: nothing else ever arrives out of order. */
  lemma {:induction false} OnlyDroppedAreLate(run: seq<World>, n: nat, k: nat, m: nat)
    requires IsRun(run) && n < |run| && k < m < |run[n].log|
    requires run[n].log[m].id < run[n].log[k].id && run[n].log[m] !in run[n].log[..m]
    ensures run[n].log[m] in run[n].dropped
    decreases n
  {
    if n > 0 {
      var w, v := run[n - 1], run[n];
      LogGrows(run, n);
      if m < |w.log| {
        assert v.log[..m] == w.log[..m];
        OnlyDroppedAreLate(run, n - 1, k, m);
      } else {
        RunInv(run, n - 1, w);
        RunStep(run, n);
        assert v.log[..m] == w.log;
        var e := OnlyServersStore(w, v);
        ServeStores(w, e.i, e.acked, v);
        LateIsDropped(w, v.log[m], w.log[k]);
      }
    }
  }

  lemma LateIsDropped(w: World, late: Chunk, newer: Chunk)
    requires Known(w.made, w.log) && StoredInOrder(w) && Known(w.made, [late])
    requires newer in w.log && late.id < newer.id && late !in w.log
    ensures late in w.dropped
  {
    assert late in [late];
    assert Settled(w, w.made[late.id]);
  }

  /** The log and the record of drops only grow, a frame at a time. */
  lemma LogGrows(run: seq<World>, n: nat)
    requires IsRun(run) && 0 < n < |run|
    ensures run[n - 1].log <= run[n].log && |run[n].log| <= |run[n - 1].log| + 1
    ensures run[n - 1].dropped <= run[n].dropped && run[n - 1].made <= run[n].made
  {
    RunStep(run, n);
  }

  /** At-least-once. In every reachable state each chunk ever buffered was stored,
      was dropped by the cap, or is still owed; what is owed is byte-identical,
      in the original order. */
  lemma AtLeastOnce(w: World)
    requires Reachable(w)
    ensures forall m :: m in w.made ==> m in w.log || m in w.dropped || m in w.client.Queue()
    ensures Known(w.made, w.client.Queue()) && Increasing(w.client.Queue())
    ensures Known(w.made, w.log)
  {
    ReachableInv(w);
    forall m | m in w.made ensures m in w.log || m in w.dropped || m in w.client.Queue() {
      var i :| 0 <= i < |w.made| && w.made[i] == m;
      assert Settled(w, m) || m in w.client.Queue();
    }
  }

  /** An ack releases a chunk only if that chunk was stored. */
  lemma AckReleasesOnlyStored(w: World, acked: nat, v: World, c: Chunk)
    requires Reachable(w) && ClientMove(w, AckRead(acked), v)
    requires c in w.client.Queue() && c !in v.client.Queue()
    ensures c in w.log
  {
    ReachableInv(w);
    var conn := w.conns[Last(w)];
    assert ConnOk(w.made, w.log, conn);
    ReleasedWasStored(w.client, v.client, conn, w.ackedFrames, w.made, w.log, c);
  }

  lemma ReleasedWasStored(c: Client, d: Client, conn: Conn, acked: nat, made: seq<Chunk>, log: seq<Chunk>, chunk: Chunk)
    requires MadeOk(made) && ClientOk(c, made) && c.connected
    requires LedgerOk(DataOf(conn.wire), c, acked) && ConnOk(made, log, conn)
    requires conn.acks != [] && acked <= conn.acks[0].frames && d == Acked(c, conn.acks[0].bytes)
    requires chunk in c.Queue() && chunk !in d.Queue()
    ensures chunk in log
  {
    AckReadOwn(c, d, conn, acked, made, log);
    ReleasedFrom(c, d, conn, conn.acks[0].frames, chunk);
  }

  lemma ReleasedFrom(c: Client, d: Client, conn: Conn, f: nat, chunk: Chunk)
    requires conn.cursor <= |conn.wire| && Consumed(conn) <= DataOf(conn.wire)
    requires IsTail(c.unacked, DataOf(conn.wire)) && f <= |Consumed(conn)| && d.pending == c.pending
    requires d.unacked == c.unacked[Freed(|DataOf(conn.wire)|, |c.unacked|, f)..]
    requires chunk in c.Queue() && chunk !in d.Queue()
    ensures chunk in Consumed(conn)
  {
    ReleasedAmongStored(c, d, DataOf(conn.wire), f, chunk);
    assert Consumed(conn)[..f] == DataOf(conn.wire)[..f];
  }

  lemma ReleasedAmongStored(c: Client, d: Client, data: seq<Chunk>, f: nat, chunk: Chunk)
    requires IsTail(c.unacked, data) && f <= |data| && d.pending == c.pending
    requires d.unacked == c.unacked[Freed(|data|, |c.unacked|, f)..]
    requires chunk in c.Queue() && chunk !in d.Queue()
    ensures chunk in data[..f]
  {
    var u := |data| - |c.unacked|;
    var n := Freed(|data|, |c.unacked|, f);
    assert chunk in c.unacked;
    InPart(c.unacked, chunk, n);
    var p :| 0 <= p < n && c.unacked[p] == chunk;
    assert data[..f][u + p] == chunk;
  }

  /** The ack ledger. While connected, the bytes acknowledged, the bytes dropped
      with their ack still due, and the bytes awaiting an ack make up what was
      written on this connection; the byte count is exact and within the cap;
      without a connection nothing awaits an ack; and no chunk is too large for
      the server, so none can block the replay. */
  lemma AckLedgerHolds(w: World)
    requires Reachable(w)
    ensures var c := w.client;
            && c.buffered == Bytes(c.unacked) + Bytes(c.pending) <= MAX_BUFFERED_BYTES
            && (!c.connected ==> c.unacked == [])
            && (c.connected ==>
                  && w.conns != []
                  && c.connAcked + c.droppedUnacked + Bytes(c.unacked) == Bytes(DataOf(w.conns[Last(w)].wire)))
    ensures forall chunk :: chunk in w.client.Queue() ==> |chunk.bytes| <= MAX_INGEST_FRAME
  {
    ReachableInv(w);
    var c := w.client;
    forall chunk | chunk in c.Queue() ensures |chunk.bytes| <= MAX_INGEST_FRAME {
      BytesAppend(c.unacked, c.pending);
      BytesAtLeast(c.Queue(), chunk);
    }
  }

  lemma {:induction false} BytesAtLeast(q: seq<Chunk>, chunk: Chunk)
    requires chunk in q
    ensures |chunk.bytes| <= Bytes(q)
  {
    if q[0] != chunk {
      BytesAtLeast(q[1..], chunk);
    }
  }

  ghost predicate LogFits(log: seq<Chunk>) {
    forall i :: 0 <= i < |log| ==> |log[i].bytes| <= MAX_INGEST_FRAME
  }

  lemma LogFitsNext(w: World, v: World)
    requires LogFits(w.log) && Next(w, v)
    ensures LogFits(v.log)
  {
  }

  lemma {:induction false} LogFitsRun(run: seq<World>, n: nat, w: World)
    requires IsRun(run) && n < |run| && w == run[n]
    ensures LogFits(w.log)
  {
    if n > 0 {
      var before := run[n - 1];
      LogFitsRun(run, n - 1, before);
      RunStep(run, n);
      LogFitsNext(before, w);
    }
  }

  /** Whatever the server stores is one non-empty chunk within its frame cap. */
  lemma StoredFramesFit(w: World, i: nat)
    requires Reachable(w) && i < |w.log|
    ensures 0 < |w.log[i].bytes| <= MAX_INGEST_FRAME
  {
    ReachableInv(w);
    assert w.log[i] in w.log;
    assert w.made[w.log[i].id] == w.log[i];
    var run: seq<World> :| RunTo(run, w);
    LogFitsRun(run, |run| - 1, w);
  }

  // ---- One connection, nothing lost ----

  /** While there is one connection, the log is what its loop has taken. */
  ghost predicate LogIsTaken(w: World) {
    |w.conns| <= 1 ==>
      if w.conns == [] then w.log == []
      else w.conns[0].cursor <= |w.conns[0].wire| && w.log == Consumed(w.conns[0])
  }

  lemma WireGrows(conn: Conn, f: Frame)
    requires conn.cursor <= |conn.wire|
    ensures Consumed(conn.(wire := conn.wire + [f])) == Consumed(conn)
  {
    assert (conn.wire + [f])[..conn.cursor] == conn.wire[..conn.cursor];
  }

  lemma ClientKeepsTaken(w: World, e: Event, v: World)
    requires LogIsTaken(w) && ClientMove(w, e, v)
    ensures LogIsTaken(v)
  {
    match e {
      case Wrote(f) =>
        if |w.conns| == 1 {
          WireGrows(w.conns[0], f);
        }
      case WriteFailed(f, _) =>
        if |w.conns| == 1 {
          WireGrows(w.conns[0], f);
        }
      case _ =>
    }
  }

  lemma ServerKeepsTaken(w: World, e: ServerEvent, v: World)
    requires LogIsTaken(w) && ServerMove(w, e, v)
    ensures LogIsTaken(v)
  {
    if e.Serve? && |w.conns| == 1 {
      var conn := w.conns[0];
      var f := conn.wire[conn.cursor];
      assert conn.wire[..conn.cursor + 1] == conn.wire[..conn.cursor] + [f];
      DataOfSnoc(conn.wire[..conn.cursor], f);
    }
  }

  lemma {:induction false} LogTakenRun(run: seq<World>, n: nat, w: World)
    requires IsRun(run) && n < |run| && w == run[n]
    ensures LogIsTaken(w)
  {
    if n > 0 {
      var before := run[n - 1];
      LogTakenRun(run, n - 1, before);
      RunStep(run, n);
      if e: Event :| ClientMove(before, e, w) {
        ClientKeepsTaken(before, e, w);
      } else {
        var e: ServerEvent :| ServerMove(before, e, w);
        ServerKeepsTaken(before, e, w);
      }
    }
  }

  /** Nothing is skipped on a wire whose front is the log. */
  lemma {:induction false} NoGapOnWire(w: World, data: seq<Chunk>, p: nat)
    requires MadeOk(w.made) && Known(w.made, data) && Increasing(data) && Ordered(w, data)
    requires w.log <= data && w.dropped == {} && p < |data|
    ensures data[p].id == p
  {
    var id := data[p].id;
    assert data[p] in data;
    if p > 0 {
      NoGapOnWire(w, data, p - 1);
      assert id >= p;
    }
    if id > p {
      assert Settled(w, w.made[p]) || w.made[p] in data[..p];
      assert w.made[p] in data;
      assert forall k :: p <= k < |data| ==> data[k].id > p;
      var k :| 0 <= k < |data| && data[k] == w.made[p];
      NoGapOnWire(w, data, k);
    }
  }

  lemma AtItsPlace(w: World, data: seq<Chunk>, p: nat)
    requires MadeOk(w.made) && Known(w.made, data) && Increasing(data) && Ordered(w, data)
    requires w.log <= data && w.dropped == {} && p < |data|
    ensures p < |w.made| && data[p] == w.made[p]
  {
    NoGapOnWire(w, data, p);
    assert data[p] in data;
  }

  /** On a first connection, with nothing dropped, the server's log is a front of what
      was buffered: each chunk once, none skipped. */
  lemma LogIsFront(w: World)
    requires Reachable(w) && |w.conns| <= 1 && w.dropped == {}
    ensures w.log <= w.made
  {
    var run: seq<World> :| RunTo(run, w);
    LogTakenRun(run, |run| - 1, w);
    ReachableInv(w);
    if w.log != [] {
      var data := DataOf(w.conns[0].wire);
      assert ConnOk(w.made, w.log, w.conns[0]) && Ordered(w, data);
      AtItsPlace(w, data, |w.log| - 1);
      forall i | 0 <= i < |w.log| ensures w.log[i] == w.made[i] {
        AtItsPlace(w, data, i);
      }
    }
  }

  /** Acknowledging every byte written on the connection leaves nothing waiting. */
  lemma FullAckReleasesAll(w: World)
    requires Reachable(w) && w.client.connected
    ensures w.conns != [] && w.client.Counted()
    ensures Acked(w.client, Bytes(DataOf(w.conns[Last(w)].wire))).unacked == []
  {
    ReachableInv(w);
    forall chunk | chunk in w.client.unacked ensures chunk.bytes != [] {
      assert chunk in w.client.Queue();
    }
    FullAckEmpties(DataOf(w.conns[Last(w)].wire), w.client, w.ackedFrames);
  }

  // ---- Size before content, on every wire ----

  ghost predicate Sized(wire: seq<Frame>) {
    exists p :: 0 <= p < |wire| && wire[p].SizeFrame?
  }

  /** No binary frame comes before the first size frame. */
  ghost predicate SizeFirst(wire: seq<Frame>) {
    forall p :: 0 <= p < |wire| && wire[p].Data? ==> Sized(wire[..p])
  }

  ghost predicate SizeInv(w: World) {
    && (forall i :: 0 <= i < |w.conns| ==> SizeFirst(w.conns[i].wire))
    && (w.client.connected ==> w.conns != [])
    && (w.client.connected && w.client.sentSize.Some? ==> Sized(w.conns[Last(w)].wire))
  }

  lemma SizeFirstSnoc(wire: seq<Frame>, f: Frame)
    requires SizeFirst(wire) && (f.Data? ==> Sized(wire))
    ensures SizeFirst(wire + [f]) && (Sized(wire) || f.SizeFrame? ==> Sized(wire + [f]))
  {
    var longer := wire + [f];
    forall p | 0 <= p < |longer| && longer[p].Data? ensures Sized(longer[..p]) {
      if p < |wire| {
        assert longer[..p] == wire[..p];
      } else {
        assert longer[..p] == wire;
      }
    }
    if Sized(wire) {
      var p :| 0 <= p < |wire| && wire[p].SizeFrame?;
      assert longer[p].SizeFrame?;
    } else if f.SizeFrame? {
      assert longer[|wire|].SizeFrame?;
    }
  }

  lemma SizeOnWire(w: World, f: Frame, conns: seq<Conn>)
    requires SizeInv(w) && w.client.connected && CanWrite(w.client, f) && conns == OnWire(w, f)
    ensures forall i :: 0 <= i < |conns| ==> SizeFirst(conns[i].wire)
    ensures w.client.sentSize.Some? || f.SizeFrame? ==> Sized(conns[Last(w)].wire)
  {
    SizeFirstSnoc(w.conns[Last(w)].wire, f);
  }

  lemma StepKeepsSize(c: Client, e: Event, d: Client)
    requires Move(c, e, d) && !e.Wrote? && !e.Connected?
    ensures d.sentSize == c.sentSize && (d.connected ==> c.connected)
  {
    if e.Queued? {
      BufferedKeepsLedger(c, e.chunk);
    }
  }

  lemma SizeClientMove(w: World, e: Event, v: World)
    requires SizeInv(w) && ClientMove(w, e, v)
    ensures SizeInv(v)
  {
    match e {
      case Wrote(f) => SizeWrote(w, f, v);
      case Connected => assert DataOf([]) == [];
      case WriteFailed(f, arrived) =>
        StepKeepsSize(w.client, e, v.client);
        if arrived {
          SizeOnWire(w, f, v.conns);
        }
      case _ =>
        StepKeepsSize(w.client, e, v.client);
        assert forall i :: 0 <= i < |v.conns| ==> v.conns[i].wire == w.conns[i].wire;
    }
  }

  lemma SizeWrote(w: World, f: Frame, v: World)
    requires SizeInv(w) && ClientMove(w, Wrote(f), v)
    ensures SizeInv(v)
  {
    SizeOnWire(w, f, v.conns);
  }

  lemma SizeNext(w: World, v: World)
    requires SizeInv(w) && Next(w, v)
    ensures SizeInv(v)
  {
    if e: Event :| ClientMove(w, e, v) {
      SizeClientMove(w, e, v);
    } else {
      var e: ServerEvent :| ServerMove(w, e, v);
      assert |v.conns| == |w.conns| && forall i :: 0 <= i < |v.conns| ==> v.conns[i].wire == w.conns[i].wire;
    }
  }

  lemma {:induction false} SizeRun(run: seq<World>, n: nat, w: World)
    requires IsRun(run) && n < |run| && w == run[n]
    ensures SizeInv(w)
  {
    if n == 0 {
      StartInv(w);
    } else {
      var before := run[n - 1];
      SizeRun(run, n - 1, before);
      RunStep(run, n);
      SizeNext(before, w);
    }
  }

  /** Every connection's wire, in every reachable state, carries a size frame
      before its first binary frame: reconnecting announces the size again. */
  lemma SizeBeforeContentOnWires(w: World, i: nat)
    requires Reachable(w) && i < |w.conns|
    ensures SizeFirst(w.conns[i].wire)
  {
    var run: seq<World> :| RunTo(run, w);
    SizeRun(run, |run| - 1, w);
  }
}
