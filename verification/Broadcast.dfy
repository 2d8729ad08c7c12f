/** One call of the broadcaster's `send` (src/cli/ws.rs): the keyframer decides
    what is buffered, the transport delivers it. */
module Broadcast {
  import opened Prelude
  import opened Transport
  import History
  import Ingest
  import P = IngestProtocol
  import Records
  import Rooms
  import S = Screen
  import Sender

  /** The chunks these outputs become, numbered from `first`. */
  function Sealed(outs: seq<S.Out>, first: nat, seal: Blob -> Blob): (chunks: seq<Chunk>) {
    seq(|outs|, i requires 0 <= i < |outs| => Chunk(first + i, seal(outs[i].bytes)))
  }

  function Queuings(chunks: seq<Chunk>): (events: seq<Event>) {
    seq(|chunks|, i requires 0 <= i < |chunks| => Queued(chunks[i]))
  }

  lemma SealedSnoc(outs: seq<S.Out>, out: S.Out, first: nat, seal: Blob -> Blob)
    ensures Sealed(outs + [out], first, seal) == Sealed(outs, first, seal) + [Chunk(first + |outs|, seal(out.bytes))]
  {
  }

  lemma QueuingsSnoc(chunks: seq<Chunk>, chunk: Chunk)
    ensures Queuings(chunks + [chunk]) == Queuings(chunks) + [Queued(chunk)]
  {
  }

  /** Of `trace`, what came after `before` queued exactly `chunks`; of what was
      owed and these, at most the oldest are gone from `queue`. */
  ghost predicate IsBehind(trace: seq<Event>, queue: seq<Chunk>, before: seq<Event>, owed: seq<Chunk>,
                           chunks: seq<Chunk>) {
    trace == before + Queuings(chunks) && IsTail(queue, owed + chunks)
  }

  lemma BehindSnoc(trace: seq<Event>, queue: seq<Chunk>, before: seq<Event>, owed: seq<Chunk>,
                   chunks: seq<Chunk>, chunk: Chunk)
    requires IsBehind(trace, queue, before, owed, chunks)
    ensures var all := queue + [chunk];
            IsBehind(trace + [Queued(chunk)], all[Overflow(all)..], before, owed, chunks + [chunk])
  {
    var all := queue + [chunk];
    QueuingsSnoc(chunks, chunk);
    assert (before + Queuings(chunks)) + [Queued(chunk)] == before + (Queuings(chunks) + [Queued(chunk)]);
    assert (owed + chunks) + [chunk] == owed + (chunks + [chunk]);
    assert IsTail(all, owed + (chunks + [chunk]));
    TailTransitive(all[Overflow(all)..], all, owed + (chunks + [chunk]));
  }

  /** A resize and a flush go on from there. */
  lemma BehindStill(trace: seq<Event>, queue: seq<Chunk>, before: seq<Event>, owed: seq<Chunk>, chunks: seq<Chunk>,
                    resized: Event, later: seq<Event>, left: seq<Chunk>)
    requires IsBehind(trace, queue, before, owed, chunks) && resized.Resized?
    requires trace + [resized] <= later && NoResetFrom(later, |trace + [resized]|) && IsTail(left, queue)
    ensures before + Queuings(chunks) <= later && NoResetFrom(later, |before|) && IsTail(left, owed + chunks)
  {
    TailTransitive(left, queue, owed + chunks);
    forall i | |before| <= i < |later| ensures !IsReset(later[i]) {
      if i < |trace + [resized]| {
        assert later[i] == (trace + [resized])[i];
      }
    }
  }

  function Optional<T>(out: Option<T>): (outs: seq<T>) { if out.Some? then [out.value] else [] }

  /** What a send buffers, one optional output at a time. */
  lemma BuffersAre(c: S.Cadence, call: S.Call, output: Option<S.Out>, keyframe: Option<S.Out>)
    requires output == if call.data == [] then None else Some(S.Output(call.data))
    requires var redraw := S.KeyframeOf(S.Counted(S.Resized(c, call.size), call.data), call.dump);
             keyframe == if redraw.None? then None else Some(S.Keyframe(redraw.value))
    ensures S.Buffers(c, call) == [] + Optional(output) + Optional(keyframe)
  {
  }

  lemma NothingYet(before: seq<Event>, owed: seq<Chunk>, first: nat, seal: Blob -> Blob)
    ensures before + Queuings(Sealed([], first, seal)) == before && owed + Sealed([], first, seal) == owed
  {
  }

  class Broadcaster {
    const transport: Transport
    const keyframer: S.Keyframer
    /** How many chunks were ever buffered. */
    var made: nat

    constructor (transport: Transport, keyframer: S.Keyframer)
      ensures this.transport == transport && this.keyframer == keyframer && made == 0
    {
      this.transport, this.keyframer, made := transport, keyframer, 0;
    }

    /** Since `before`, exactly `chunks` were queued, behind what was `owed`. */
    ghost predicate Behind(before: seq<Event>, owed: seq<Chunk>, chunks: seq<Chunk>) reads transport {
      transport.Valid() && IsBehind(transport.trace, transport.Value().Queue(), before, owed, chunks)
    }

    /** Queue one sealed output behind what `chunks` already were. */
    method BufferPlaintext(out: S.Out, seal: Blob -> Blob, ghost before: seq<Event>, ghost owed: seq<Chunk>,
                           ghost chunks: seq<Chunk>)
      requires Behind(before, owed, chunks)
      modifies this`made, transport
      ensures made == old(made) + 1 && transport.connected == old(transport.connected)
      ensures Behind(before, owed, chunks + [Chunk(old(made), seal(out.bytes))])
    {
      var chunk := Chunk(made, seal(out.bytes));
      BufferedCounts(transport.Value(), chunk);
      BufferedKeepsLedger(transport.Value(), chunk);
      BehindSnoc(transport.trace, transport.Value().Queue(), before, owed, chunks, chunk);
      transport.BufferChunk(chunk);
      made := made + 1;
    }

    /** Queue an output there may be, behind those queued already. */
    method BufferOptional(out: Option<S.Out>, seal: Blob -> Blob, ghost before: seq<Event>, ghost owed: seq<Chunk>,
                          ghost outs: seq<S.Out>, ghost first: nat)
      requires made == first + |outs| && Behind(before, owed, Sealed(outs, first, seal))
      modifies this`made, transport
      ensures var all := outs + Optional(out);
              made == first + |all| && Behind(before, owed, Sealed(all, first, seal))
      ensures transport.connected == old(transport.connected)
    {
      if out.Some? {
        BufferPlaintext(out.value, seal, before, owed, Sealed(outs, first, seal));
        SealedSnoc(outs, out.value, first, seal);
      } else {
        assert outs + [] == outs;
      }
    }

    /** Buffer the output, then the keyframe that includes it. */
    method BufferOutputs(data: Blob, size: TermSize, dump: Blob, seal: Blob -> Blob) returns (ghost chunks: seq<Chunk>)
      requires transport.Valid() && keyframer.Valid()
      modifies this`made, transport, keyframer
      ensures keyframer.Valid() && keyframer.Value() == S.Sent(old(keyframer.Value()), S.Call(data, size, dump))
      ensures chunks == Sealed(S.Buffers(old(keyframer.Value()), S.Call(data, size, dump)), old(made), seal)
      ensures made == old(made) + |chunks|
      ensures Behind(old(transport.trace), old(transport.Value().Queue()), chunks)
      ensures transport.connected == old(transport.connected)
    {
      ghost var before, owed, first := transport.trace, transport.Value().Queue(), made;
      NothingYet(before, owed, first, seal);
      keyframer.Feed(data, size);
      var output := if data == [] then None else Some(S.Output(data));
      BufferOptional(output, seal, before, owed, [], first);
      ghost var keyframe := BufferKeyframe(dump, seal, before, owed, [] + Optional(output), first);
      BuffersAre(old(keyframer.Value()), S.Call(data, size, dump), output, keyframe);
      chunks := Sealed([] + Optional(output) + Optional(keyframe), first, seal);
    }

    /** Buffer the keyframe that is due, if any, behind the outputs buffered already. */
    method BufferKeyframe(dump: Blob, seal: Blob -> Blob, ghost before: seq<Event>, ghost owed: seq<Chunk>,
                          ghost outs: seq<S.Out>, ghost first: nat) returns (ghost keyframe: Option<S.Out>)
      requires keyframer.Valid() && made == first + |outs| && Behind(before, owed, Sealed(outs, first, seal))
      modifies this`made, transport, keyframer
      ensures keyframer.Valid() && keyframer.Value() == S.Checked(old(keyframer.Value()))
      ensures keyframe == var redraw := S.KeyframeOf(old(keyframer.Value()), dump);
                          if redraw.None? then None else Some(S.Keyframe(redraw.value))
      ensures var all := outs + Optional(keyframe);
              made == first + |all| && Behind(before, owed, Sealed(all, first, seal))
      ensures transport.connected == old(transport.connected)
    {
      var redraw := keyframer.MaybeKeyframe(dump);
      var out := if redraw.None? then None else Some(S.Keyframe(redraw.value));
      keyframe := out;
      BufferOptional(out, seal, before, owed, outs, first);
    }

    /** One send: queue the output, then try to get the queue out. `chunks` are what
        this call made: of what was owed and these, only the oldest may be gone,
        dropped by the cap or released by an ack. */
    method Send(data: Blob, size: TermSize, dump: Blob, seal: Blob -> Blob, env: Env)
      returns (r: Outcome, ghost chunks: seq<Chunk>)
      requires transport.Valid() && keyframer.Valid()
      modifies this`made, transport, keyframer
      ensures transport.Valid() && keyframer.Valid()
      ensures keyframer.Value() == S.Sent(old(keyframer.Value()), S.Call(data, size, dump))
      ensures chunks == Sealed(S.Buffers(old(keyframer.Value()), S.Call(data, size, dump)), old(made), seal)
      ensures made == old(made) + |chunks|
      ensures old(transport.trace) + Queuings(chunks) <= transport.trace
      ensures NoResetFrom(transport.trace, |old(transport.trace)|)
      ensures IsTail(transport.Value().Queue(), old(transport.Value().Queue()) + chunks)
      ensures transport.size == size && (r.Unauthorized? <==> TurnedAway(old(transport.connected), env))
      ensures transport.connected ==> transport.pending == [] && transport.sentSize == Some(size)
      ensures Linked(old(transport.connected), env) && |old(transport.Value().Queue())| + |chunks| < env.goodWrites ==>
                transport.connected
    {
      chunks := BufferOutputs(data, size, dump, seal);
      r := Deliver(size, env, old(transport.trace), old(transport.Value().Queue()), chunks);
    }

    method Deliver(size: TermSize, env: Env, ghost before: seq<Event>, ghost owed: seq<Chunk>, ghost chunks: seq<Chunk>)
      returns (r: Outcome)
      requires Behind(before, owed, chunks)
      modifies transport
      ensures && transport.Valid() && before + Queuings(chunks) <= transport.trace
              && NoResetFrom(transport.trace, |before|)
      ensures IsTail(transport.Value().Queue(), owed + chunks)
      ensures transport.size == size && (r.Unauthorized? <==> TurnedAway(old(transport.connected), env))
      ensures transport.connected ==> transport.pending == [] && transport.sentSize == Some(size)
      ensures Linked(old(transport.connected), env) && |owed| + |chunks| < env.goodWrites ==> transport.connected
    {
      ghost var trace, queue := transport.trace, transport.Value().Queue();
      transport.Resize(size);
      r := transport.Flush(env);
      BehindStill(trace, queue, before, owed, chunks, Resized(size), transport.trace, transport.Value().Queue());
    }
  }

  // ---- From the terminal to the replay window ----

  /** The bytes of one output on the wire: as they are, or sealed. */
  ghost predicate Carries(cipher: Option<Records.Cipher>, bytes: Blob, plain: Blob) {
    match cipher
    case None => bytes == plain
    case Some(c) =>
      exists r: Records.Record :: Records.Sealable(c, r) && r.plain == plain && bytes == Records.Seal(c, r)
  }

  lemma CarriesAdds(cipher: Option<Records.Cipher>, bytes: Blob, plain: Blob)
    requires Carries(cipher, bytes, plain)
    ensures |bytes| <= |plain| + Records.OVERHEAD
  {
    if cipher.Some? {
      var r: Records.Record :|
        Records.Sealable(cipher.value, r) && r.plain == plain && bytes == Records.Seal(cipher.value, r);
      Records.SealAdds(cipher.value, r);
    }
  }

  /** Everything emitted that is not a keyframe is the data of some call. */
  lemma {:induction false} OutputIsData(start: S.Cadence, calls: seq<S.Call>, limit: nat, i: nat)
    requires i < |S.Emitted(start, calls)| && S.Emitted(start, calls)[i].Output?
    requires forall j :: 0 <= j < |calls| ==> |calls[j].data| <= limit
    ensures |S.Emitted(start, calls)[i].bytes| <= limit
    decreases |calls|
  {
    var front := calls[..|calls| - 1];
    if i < |S.Emitted(start, front)| {
      OutputIsData(start, front, limit, i);
    }
  }

  function LogBytes(w: P.World): (pushes: seq<Blob>) {
    seq(|w.log|, i requires 0 <= i < |w.log| => w.log[i].bytes)
  }

  /** The chunks made are the outputs emitted, on the wire. */
  ghost predicate Made(cipher: Option<Records.Cipher>, made: seq<Chunk>, emitted: seq<S.Out>) {
    |made| <= |emitted| && forall i :: 0 <= i < |made| ==> Carries(cipher, made[i].bytes, emitted[i].bytes)
  }

  ghost predicate BatchesFit(calls: seq<S.Call>) {
    forall j :: 0 <= j < |calls| ==> |calls[j].data| <= Sender.MAX_FRAME
  }

  lemma LogIsPushed(w: P.World, start: S.Cadence, calls: seq<S.Call>, stored: seq<S.Out>,
                    cipher: Option<Records.Cipher>)
    requires P.Reachable(w) && w.log <= w.made && Made(cipher, w.made, S.Emitted(start, calls)) && BatchesFit(calls)
    requires stored <= S.Emitted(start, calls) && |w.log| == |stored|
    ensures S.Pushed(LogBytes(w), stored)
  {
    forall i | 0 <= i < |stored|
      ensures LogBytes(w)[i] != []
      ensures |LogBytes(w)[i]| <=
              if stored[i].Output? then Sender.MAX_FRAME + Records.OVERHEAD else Ingest.MAX_INGEST_FRAME
    {
      P.StoredFramesFit(w, i);
      assert w.log[i] == w.made[i] && Carries(cipher, w.made[i].bytes, stored[i].bytes);
      if stored[i].Output? {
        OutputIsData(start, calls, Sender.MAX_FRAME, i);
        CarriesAdds(cipher, w.log[i].bytes, stored[i].bytes);
      }
    }
  }

  /** The keyframe is always there to replay. The chunks a client made are what its
      keyframer emitted, sealed or not, from batches no larger than the sender makes
      them. On its first connection, with nothing dropped, once a keyframe is stored,
      the room's history holds the newest one and everything after it. `stored` is the
      part of what was emitted that is stored: by then, as many as the log has. */
  lemma KeyframeIsReplayed(w: P.World, start: S.Cadence, calls: seq<S.Call>, stored: seq<S.Out>, p: nat,
                           cipher: Option<Records.Cipher>)
    requires P.Reachable(w) && |w.conns| <= 1 && w.dropped == {}
    requires Made(cipher, w.made, S.Emitted(start, calls)) && BatchesFit(calls) && !S.Due(start)
    requires stored <= S.Emitted(start, calls) && |w.log| == |stored|
    requires S.NewestKeyframe(stored, p) && S.StaysOnAlternate(start, calls, p)
    ensures w.log <= w.made
    ensures History.IsSuffix(LogBytes(w)[p..],
                             History.PushAll(LogBytes(w), Rooms.MAX_HISTORY_MESSAGES, Rooms.MAX_HISTORY_BYTES))
  {
    P.LogIsFront(w);
    LogIsPushed(w, start, calls, stored, cipher);
    S.NewestKeyframeIsHeld(start, calls, stored, p, LogBytes(w));
  }
}
