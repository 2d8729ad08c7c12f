/** Coalescing on the way to viewers (src/server/viewers.rs): the fan-out task
    merges the payloads queued for a room, and each viewer's relay merges again.

    The streams a viewer can tell apart are those with different token
    sequences: controls in place, and the bytes between them. */
module Fanout {
  import opened Prelude
  import opened Viewers

  const FANOUT_MAX_BATCH: nat := 64 * 1024
  const MAX_MERGED: nat := MIB

  /** What an ingest loop hands over for a room; the size goes ahead of the payload. */
  datatype Item = Item(room: string, size: Option<string>, payload: Option<Blob>)

  datatype Emit = Emit(room: string, msg: Msg)

  datatype Token = ByteToken(b: Byte) | ControlToken(json: string)

  function Announce(size: string): (json: string) { "{\"size\":" + size + "}" }

  /** The announcement carries the size, so no two sizes are announced alike. */
  lemma AnnouncementCarriesSize(size: string)
    ensures |Announce(size)| == |size| + 9 && Announce(size)[8..|Announce(size)| - 1] == size
  {
    assert Announce(size)[8..] == size + "}";
  }

  function ByteTokens(payload: Blob): (tokens: seq<Token>) {
    seq(|payload|, i requires 0 <= i < |payload| => ByteToken(payload[i]))
  }

  function Meaning(msg: Msg): (tokens: seq<Token>) {
    match msg
    case Bytes(payload) => ByteTokens(payload)
    case Control(json) => [ControlToken(json)]
  }

  /** What a stream of messages looks like to a viewer. */
  function Tokens(msgs: seq<Msg>): (tokens: seq<Token>) {
    if msgs == [] then [] else Tokens(msgs[..|msgs| - 1]) + Meaning(msgs[|msgs| - 1])
  }

  /** The messages of one room, in order. */
  function ForRoom(out: seq<Emit>, room: string): (msgs: seq<Msg>) {
    if out == [] then []
    else
      var front, last := ForRoom(out[..|out| - 1], room), out[|out| - 1];
      if last.room == room then front + [last.msg] else front
  }

  /** One item sent on its own. */
  function Separately(item: Item): (msgs: seq<Msg>)
    ensures item.size.Some? ==> msgs != [] && msgs[0] == Control(Announce(item.size.value))
    ensures item.payload.Some? ==> msgs != [] && msgs[|msgs| - 1] == Bytes(item.payload.value)
    ensures |msgs| == (if item.size.Some? then 1 else 0) + (if item.payload.Some? then 1 else 0)
  {
    (if item.size.Some? then [Control(Announce(item.size.value))] else [])
    + (if item.payload.Some? then [Bytes(item.payload.value)] else [])
  }

  /** Every item of a room sent on its own. */
  function Plain(batch: seq<Item>, room: string): (msgs: seq<Msg>) {
    if batch == [] then []
    else
      var front, last := Plain(batch[..|batch| - 1], room), batch[|batch| - 1];
      if last.room == room then front + Separately(last) else front
  }

  /** `frame` is made of whole `pieces`, none cut. */
  ghost predicate Whole(frame: Blob, pieces: set<Blob>) {
    exists parts: seq<Blob> :: (forall p :: p in parts ==> p in pieces) && frame == Concat(parts)
  }

  /** The binary messages of a stream, in order. */
  function Binaries(msgs: seq<Msg>): (frames: seq<Blob>) {
    if msgs == [] then []
    else
      var front, last := Binaries(msgs[..|msgs| - 1]), msgs[|msgs| - 1];
      if last.Bytes? then front + [last.payload] else front
  }

  function Flatten(groups: seq<seq<Msg>>): (msgs: seq<Msg>) {
    if groups == [] then [] else Flatten(groups[..|groups| - 1]) + groups[|groups| - 1]
  }

  /** `msg` is what one message of `group` is, or the payloads of several, whole
      and in order, within `limit`. */
  predicate Stands(msg: Msg, group: seq<Msg>, limit: nat) {
    && group != []
    && match msg
       case Control(_) => group == [msg]
       case Bytes(payload) =>
         && (forall i :: 0 <= i < |group| ==> group[i].Bytes?)
         && payload == Concat(Binaries(group))
         && (|group| == 1 || |payload| <= limit)
  }

  /** `merged` says `single` with each message standing for one of `groups`. */
  ghost predicate Regroups(merged: seq<Msg>, groups: seq<seq<Msg>>, single: seq<Msg>, limit: nat) {
    && |merged| == |groups| && Flatten(groups) == single
    && forall i :: 0 <= i < |merged| ==> Stands(merged[i], groups[i], limit)
  }

  // ---- Token algebra ----

  lemma ByteTokensConcat(a: Blob, b: Blob)
    ensures ByteTokens(a + b) == ByteTokens(a) + ByteTokens(b)
  {
  }

  lemma TokensSnoc(msgs: seq<Msg>, m: Msg)
    ensures Tokens(msgs + [m]) == Tokens(msgs) + Meaning(m)
  {
    assert (msgs + [m])[..|msgs|] == msgs;
  }

  lemma TokensAssociate(a: seq<Token>, b: seq<Token>, c: seq<Token>)
    ensures (a + b) + c == a + (b + c)
  {
  }

  lemma TokensAppendOne(xs: seq<Msg>, front: seq<Msg>, last: Msg)
    requires Tokens(xs + front) == Tokens(xs) + Tokens(front)
    ensures Tokens((xs + front) + [last]) == Tokens(xs) + Tokens(front + [last])
  {
    TokensSnoc(front, last);
    TokensSnoc(xs + front, last);
    TokensAssociate(Tokens(xs), Tokens(front), Meaning(last));
  }

  lemma {:induction false} TokensAppend(xs: seq<Msg>, ys: seq<Msg>)
    ensures Tokens(xs + ys) == Tokens(xs) + Tokens(ys)
    decreases |ys|
  {
    if ys == [] {
      assert xs + ys == xs && Tokens(ys) == [];
      assert Tokens(xs) + [] == Tokens(xs);
    } else {
      FrontAndLast(xs, ys);
      TokensAppend(xs, ys[..|ys| - 1]);
      TokensAppendOne(xs, ys[..|ys| - 1], ys[|ys| - 1]);
    }
  }

  lemma TokensPrefix(xs: seq<Msg>, ys: seq<Msg>)
    requires xs <= ys
    ensures Tokens(xs) <= Tokens(ys)
  {
    assert ys == xs + ys[|xs|..];
    TokensAppend(xs, ys[|xs|..]);
  }

  lemma PiecesAreWhole(parts: seq<Blob>, pieces: set<Blob>)
    requires forall p :: p in parts ==> p in pieces
    ensures Whole(Concat(parts), pieces)
  {
  }

  /** Merging whole frames makes a whole frame. */
  lemma {:induction false} MergedIsWhole(frames: seq<Blob>, pieces: set<Blob>)
    requires forall f :: f in frames ==> Whole(f, pieces)
    ensures Whole(Concat(frames), pieces)
  {
    if frames == [] {
      PiecesAreWhole([], pieces);
    } else {
      MergedIsWhole(frames[1..], pieces);
      assert frames[0] in frames;
      var first: seq<Blob> :| (forall p :: p in first ==> p in pieces) && frames[0] == Concat(first);
      var rest: seq<Blob> :| (forall p :: p in rest ==> p in pieces) && Concat(frames[1..]) == Concat(rest);
      ConcatAppend(first, rest);
      PiecesAreWhole(first + rest, pieces);
    }
  }

  // ---- What regrouping keeps ----

  lemma BinariesSnoc(msgs: seq<Msg>, m: Msg)
    ensures Binaries(msgs + [m]) == Binaries(msgs) + if m.Bytes? then [m.payload] else []
  {
    assert (msgs + [m])[..|msgs|] == msgs;
  }

  lemma {:induction false} BinariesAppend(xs: seq<Msg>, ys: seq<Msg>)
    ensures Binaries(xs + ys) == Binaries(xs) + Binaries(ys)
    decreases |ys|
  {
    if ys == [] {
      assert xs + ys == xs;
    } else {
      var front, last := ys[..|ys| - 1], ys[|ys| - 1];
      BinariesAppend(xs, front);
      assert ys == front + [last] && xs + ys == (xs + front) + [last];
      BinariesSnoc(front, last);
      BinariesSnoc(xs + front, last);
    }
  }

  lemma FlattenSnoc(groups: seq<seq<Msg>>, group: seq<Msg>)
    ensures Flatten(groups + [group]) == Flatten(groups) + group
  {
    assert (groups + [group])[..|groups|] == groups;
  }

  /** Binary messages run together say their payloads run together. */
  lemma {:induction false} TokensOfBytes(group: seq<Msg>)
    requires forall i :: 0 <= i < |group| ==> group[i].Bytes?
    ensures Tokens(group) == ByteTokens(Concat(Binaries(group)))
    decreases |group|
  {
    if group != [] {
      var front, last := group[..|group| - 1], group[|group| - 1];
      TokensOfBytes(front);
      ConcatSnoc(Binaries(front), last.payload);
      ByteTokensConcat(Concat(Binaries(front)), last.payload);
    }
  }

  lemma StandsSaysTheSame(msg: Msg, group: seq<Msg>, limit: nat)
    requires Stands(msg, group, limit)
    ensures Tokens(group) == Meaning(msg)
  {
    match msg
    case Control(_) =>
      TokensSnoc([], msg);
      assert [] + [msg] == group;
    case Bytes(_) =>
      TokensOfBytes(group);
  }

  /** A viewer cannot tell a regrouped stream from the single messages. */
  lemma {:induction false} RegroupingIsInvisible(merged: seq<Msg>, groups: seq<seq<Msg>>, single: seq<Msg>, limit: nat)
    requires Regroups(merged, groups, single, limit)
    ensures Tokens(merged) == Tokens(single)
    decreases |merged|
  {
    if merged != [] {
      var n := |merged| - 1;
      RegroupingIsInvisible(merged[..n], groups[..n], Flatten(groups[..n]), limit);
      StandsSaysTheSame(merged[n], groups[n], limit);
      TokensAppend(Flatten(groups[..n]), groups[n]);
    }
  }

  lemma RegroupsSnoc(merged: seq<Msg>, groups: seq<seq<Msg>>, single: seq<Msg>, msg: Msg, group: seq<Msg>, limit: nat)
    requires Regroups(merged, groups, single, limit) && Stands(msg, group, limit)
    ensures Regroups(merged + [msg], groups + [group], single + group, limit)
  {
    FlattenSnoc(groups, group);
  }

  lemma ControlStands(msg: Msg, limit: nat)
    requires msg.Control?
    ensures Stands(msg, [msg], limit)
  {
  }

  function Wrapped(chunks: seq<Blob>): (msgs: seq<Msg>) {
    seq(|chunks|, i requires 0 <= i < |chunks| => Bytes(chunks[i]))
  }

  lemma {:induction false} BinariesOfWrapped(chunks: seq<Blob>)
    ensures Binaries(Wrapped(chunks)) == chunks
    decreases |chunks|
  {
    if chunks != [] {
      var n := |chunks| - 1;
      BinariesOfWrapped(chunks[..n]);
      assert Wrapped(chunks)[..n] == Wrapped(chunks[..n]);
      assert chunks == chunks[..n] + [chunks[n]];
    }
  }

  /** What several payloads merge to stands for them. */
  lemma MergedStands(chunks: seq<Blob>, limit: nat)
    requires chunks != [] && (|chunks| == 1 || Total(chunks) <= limit)
    ensures Stands(Bytes(Concat(chunks)), Wrapped(chunks), limit)
  {
    BinariesOfWrapped(chunks);
    ConcatLength(chunks);
  }

  // ---- Nothing stands apart that fits together ----

  /** `payload` does not fit into the frame it would have to join, if there is one. */
  predicate Apart(frames: seq<Msg>, payload: Blob, limit: nat) {
    frames != [] && frames[|frames| - 1].Bytes? ==> |frames[|frames| - 1].payload| + |payload| > limit
  }

  predicate Idle(frames: seq<Msg>) { frames == [] || frames[|frames| - 1].Control? }

  /** Of two binary frames next to each other, the second starts with a payload the
      first had no space for. */
  predicate Tight(frames: seq<Msg>, groups: seq<seq<Msg>>, limit: nat)
    requires |frames| == |groups|
  {
    forall i :: 0 < i < |groups| && groups[i] != [] && groups[i][0].Bytes? && frames[i - 1].Bytes? ==>
      |frames[i - 1].payload| + |groups[i][0].payload| > limit
  }

  lemma TightSnoc(frames: seq<Msg>, groups: seq<seq<Msg>>, msg: Msg, group: seq<Msg>, limit: nat)
    requires |frames| == |groups| && Tight(frames, groups, limit)
    requires group != [] && group[0].Bytes? ==> Apart(frames, group[0].payload, limit)
    ensures Tight(frames + [msg], groups + [group], limit)
  {
  }

  // ---- The fan-out task ----

  /** What is held back for a room: the payloads and their total length. */
  datatype Pending = Pending(chunks: seq<Blob>, len: nat)

  predicate PendingOk(p: Pending, limit: nat) {
    p.chunks != [] && p.len == Total(p.chunks) && (p.len <= limit || |p.chunks| == 1)
  }

  function Held(pending: map<string, Pending>, room: string): (msgs: seq<Msg>) {
    if room in pending then Wrapped(pending[room].chunks) else []
  }

  /** The single messages that the emits of one room stand for, in order. */
  function Said(out: seq<Emit>, groups: seq<seq<Msg>>, room: string): (msgs: seq<Msg>)
    requires |out| == |groups|
  {
    if out == [] then []
    else
      var n := |out| - 1;
      Said(out[..n], groups[..n], room) + if out[n].room == room then groups[n] else []
  }

  /** What the emits of one room stand for, emit by emit. */
  function GroupsOf(out: seq<Emit>, groups: seq<seq<Msg>>, room: string): (ofRoom: seq<seq<Msg>>)
    requires |out| == |groups|
    ensures |ofRoom| == |ForRoom(out, room)|
  {
    if out == [] then []
    else
      var n := |out| - 1;
      GroupsOf(out[..n], groups[..n], room) + if out[n].room == room then [groups[n]] else []
  }

  predicate TightRoom(out: seq<Emit>, groups: seq<seq<Msg>>, room: string)
    requires |out| == |groups|
  {
    Tight(ForRoom(out, room), GroupsOf(out, groups, room), 64 * 1024)
  }

  /** Merging as far as the bound allows: in every room, what is held back starts
      with a payload the last frame had no space for. */
  ghost predicate Packed(out: seq<Emit>, groups: seq<seq<Msg>>, pending: map<string, Pending>) {
    && |out| == |groups| && (forall room :: TightRoom(out, groups, room))
    && forall room :: room in pending && pending[room].chunks != [] ==>
         Apart(ForRoom(out, room), pending[room].chunks[0], FANOUT_MAX_BATCH)
  }

  /** A room nothing is held back for has no frame that could take more. */
  ghost predicate Unheld(out: seq<Emit>, pending: map<string, Pending>) {
    forall room :: room !in pending ==> Idle(ForRoom(out, room))
  }

  lemma ForRoomSnoc(out: seq<Emit>, groups: seq<seq<Msg>>, e: Emit, group: seq<Msg>, room: string)
    requires |out| == |groups|
    ensures ForRoom(out + [e], room) == ForRoom(out, room) + if e.room == room then [e.msg] else []
    ensures GroupsOf(out + [e], groups + [group], room) ==
            GroupsOf(out, groups, room) + if e.room == room then [group] else []
  {
    assert (out + [e])[..|out|] == out && (groups + [group])[..|groups|] == groups;
  }

  /** One more emit, of a payload its room's last frame had no space for. */
  lemma EmitPacks(out: seq<Emit>, groups: seq<seq<Msg>>, pending: map<string, Pending>, e: Emit, group: seq<Msg>)
    requires Packed(out, groups, pending) && e.room !in pending
    requires group != [] && group[0].Bytes? ==> Apart(ForRoom(out, e.room), group[0].payload, FANOUT_MAX_BATCH)
    ensures Packed(out + [e], groups + [group], pending)
    ensures forall room :: ForRoom(out + [e], room) ==
                           ForRoom(out, room) + if e.room == room then [e.msg] else []
  {
    forall room
      ensures TightRoom(out + [e], groups + [group], room)
      ensures ForRoom(out + [e], room) == ForRoom(out, room) + if e.room == room then [e.msg] else []
    {
      ForRoomSnoc(out, groups, e, group, room);
      assert TightRoom(out, groups, room);
      if room == e.room {
        TightSnoc(ForRoom(out, room), GroupsOf(out, groups, room), e.msg, group, FANOUT_MAX_BATCH);
      }
    }
  }

  /** What is held for a room goes out as its last frame, of that length. */
  lemma FlushPacks(out: seq<Emit>, groups: seq<seq<Msg>>, pending: map<string, Pending>, q: string)
    requires Packed(out, groups, pending) && q in pending && PendingOk(pending[q], FANOUT_MAX_BATCH)
    ensures Packed(out + [Emit(q, Merged(pending[q]))], groups + [Held(pending, q)], pending - {q})
    ensures forall room :: room != q ==> ForRoom(out + [Emit(q, Merged(pending[q]))], room) == ForRoom(out, room)
    ensures var frames := ForRoom(out + [Emit(q, Merged(pending[q]))], q);
            frames != [] && frames[|frames| - 1].Bytes? && |frames[|frames| - 1].payload| == pending[q].len
  {
    assert Packed(out, groups, pending - {q});
    EmitPacks(out, groups, pending - {q}, Emit(q, Merged(pending[q])), Held(pending, q));
    ConcatLength(pending[q].chunks);
    forall room | room != q
      ensures ForRoom(out + [Emit(q, Merged(pending[q]))], room) == ForRoom(out, room)
    {
      assert ForRoom(out, room) + [] == ForRoom(out, room);
    }
  }

  /** Holding back a payload the room's last frame had no space for, or one more. */
  lemma AccumulatePacks(out: seq<Emit>, groups: seq<seq<Msg>>, pending: map<string, Pending>, room: string,
                        payload: Blob)
    requires Packed(out, groups, pending)
    requires room in pending ==> pending[room].chunks != []
    requires room !in pending ==> Apart(ForRoom(out, room), payload, FANOUT_MAX_BATCH)
    ensures Packed(out, groups, Accumulated(pending, room, payload))
  {
  }

  ghost predicate AllStand(out: seq<Emit>, groups: seq<seq<Msg>>) {
    |out| == |groups| && forall i :: 0 <= i < |out| ==> Stands(out[i].msg, groups[i], FANOUT_MAX_BATCH)
  }

  /** Every emit stands for single messages, and together those of each room are
      what sending every item on its own would send it. */
  ghost predicate Explains(out: seq<Emit>, groups: seq<seq<Msg>>, batch: seq<Item>) {
    AllStand(out, groups) && forall room :: Said(out, groups, room) == Plain(batch, room)
  }

  /** What was emitted for each room, with what is held back, is what the items
      handled so far say, and nothing held back is over-long. */
  ghost predicate InStep(out: seq<Emit>, groups: seq<seq<Msg>>, pending: map<string, Pending>, done: seq<Item>) {
    && AllStand(out, groups)
    && (forall room :: Said(out, groups, room) + Held(pending, room) == Plain(done, room))
    && (forall room :: room in pending ==> PendingOk(pending[room], FANOUT_MAX_BATCH))
  }

  /** The state of a pass: in step with what it has handled, and merging all it may. */
  ghost predicate Merging(out: seq<Emit>, groups: seq<seq<Msg>>, pending: map<string, Pending>, done: seq<Item>) {
    InStep(out, groups, pending, done) && Packed(out, groups, pending) && Unheld(out, pending)
  }

  lemma SaidSnoc(out: seq<Emit>, groups: seq<seq<Msg>>, e: Emit, group: seq<Msg>, room: string)
    requires |out| == |groups|
    ensures Said(out + [e], groups + [group], room) == Said(out, groups, room) + if e.room == room then group else []
  {
    assert (out + [e])[..|out|] == out && (groups + [group])[..|groups|] == groups;
  }

  lemma PlainSnoc(done: seq<Item>, item: Item, room: string)
    ensures Plain(done + [item], room) == Plain(done, room) + if item.room == room then Separately(item) else []
  {
    assert (done + [item])[..|done|] == done;
  }

  function Merged(p: Pending): (msg: Msg) { Bytes(Concat(p.chunks)) }

  /** Flushing what is held for a room keeps step. */
  lemma FlushKeepsStep(out: seq<Emit>, groups: seq<seq<Msg>>, pending: map<string, Pending>, done: seq<Item>, q: string)
    requires InStep(out, groups, pending, done) && q in pending
    ensures InStep(out + [Emit(q, Merged(pending[q]))], groups + [Held(pending, q)], pending - {q}, done)
  {
    var e, group := Emit(q, Merged(pending[q])), Held(pending, q);
    MergedStands(pending[q].chunks, FANOUT_MAX_BATCH);
    forall room ensures Said(out + [e], groups + [group], room) + Held(pending - {q}, room) == Plain(done, room) {
      FlushSays(out, groups, pending, q, room);
      assert Said(out, groups, room) + Held(pending, room) == Plain(done, room);
    }
  }

  /** Flushing says nothing new: what was held is now emitted. */
  lemma FlushSays(out: seq<Emit>, groups: seq<seq<Msg>>, pending: map<string, Pending>, q: string, room: string)
    requires |out| == |groups| && q in pending
    ensures Said(out + [Emit(q, Merged(pending[q]))], groups + [Held(pending, q)], room) + Held(pending - {q}, room)
            == Said(out, groups, room) + Held(pending, room)
  {
    SaidSnoc(out, groups, Emit(q, Merged(pending[q])), Held(pending, q), room);
    if room == q {
      assert Held(pending - {q}, room) == [];
      assert Said(out, groups, room) + Held(pending, room) + [] == Said(out, groups, room) + Held(pending, room);
    } else {
      assert Held(pending - {q}, room) == Held(pending, room);
      assert Said(out, groups, room) + [] == Said(out, groups, room);
    }
  }

  function Announcement(item: Item): (msgs: seq<Msg>) {
    if item.size.Some? then [Control(Announce(item.size.value))] else []
  }

  /** Announcing a size keeps step, nothing being held for its room. */
  lemma AnnounceKeepsStep(out: seq<Emit>, groups: seq<seq<Msg>>, pending: map<string, Pending>, done: seq<Item>,
                          item: Item)
    requires InStep(out, groups, pending, done) && item.size.Some? && item.room !in pending
    ensures var control := Control(Announce(item.size.value));
            InStep(out + [Emit(item.room, control)], groups + [[control]], pending, done + [item.(payload := None)])
  {
    var control := Control(Announce(item.size.value));
    var e := Emit(item.room, control);
    ControlStands(control, FANOUT_MAX_BATCH);
    forall room ensures Said(out + [e], groups + [[control]], room) + Held(pending, room)
                        == Plain(done + [item.(payload := None)], room) {
      SaidSnoc(out, groups, e, [control], room);
      PlainSnoc(done, item.(payload := None), room);
      assert Said(out, groups, room) + Held(pending, room) == Plain(done, room);
    }
  }

  function Accumulated(pending: map<string, Pending>, room: string, payload: Blob): (after: map<string, Pending>) {
    var p := if room in pending then pending[room] else Pending([], 0);
    pending[room := Pending(p.chunks + [payload], p.len + |payload|)]
  }

  lemma AccumulateHolds(pending: map<string, Pending>, room: string, payload: Blob, q: string)
    ensures Held(Accumulated(pending, room, payload), q) ==
            Held(pending, q) + if q == room then [Bytes(payload)] else []
  {
  }

  /** Holding back one more payload keeps step; `done` are the items before it,
      with the size it came with, if any. */
  lemma AccumulateKeepsStep(out: seq<Emit>, groups: seq<seq<Msg>>, pending: map<string, Pending>, done: seq<Item>,
                            room: string, payload: Blob)
    requires InStep(out, groups, pending, done)
    requires room in pending ==> pending[room].len + |payload| <= FANOUT_MAX_BATCH
    ensures InStep(out, groups, Accumulated(pending, room, payload), done + [Item(room, None, Some(payload))])
  {
    var item, pending' := Item(room, None, Some(payload)), Accumulated(pending, room, payload);
    forall q ensures Said(out, groups, q) + Held(pending', q) == Plain(done + [item], q) {
      PlainSnoc(done, item, q);
      AccumulateHolds(pending, room, payload, q);
      assert Said(out, groups, q) + Held(pending, q) == Plain(done, q);
    }
    TotalSnoc(if room in pending then pending[room].chunks else [], payload);
  }

  function SizeOnly(item: Item): (items: seq<Item>) {
    if item.size.Some? then [item.(payload := None)] else []
  }

  function PayloadOnly(item: Item): (items: seq<Item>) {
    if item.payload.Some? then [item.(size := None)] else []
  }

  lemma PlainSizeOnly(done: seq<Item>, item: Item, room: string)
    ensures Plain(done + SizeOnly(item), room) ==
            Plain(done, room) + if item.room == room then Announcement(item) else []
  {
    if item.size.Some? {
      PlainSnoc(done, item.(payload := None), room);
      assert Separately(item.(payload := None)) == Announcement(item) + [] == Announcement(item);
    } else {
      assert done + [] == done && Plain(done, room) + [] == Plain(done, room);
    }
  }

  lemma PlainPayloadOnly(done: seq<Item>, item: Item, room: string)
    ensures Plain(done + PayloadOnly(item), room) ==
            Plain(done, room) + if item.room == room && item.payload.Some? then [Bytes(item.payload.value)] else []
  {
    if item.payload.Some? {
      PlainSnoc(done, item.(size := None), room);
      assert Separately(item.(size := None)) == [Bytes(item.payload.value)];
    }
    assert done + [] == done && Plain(done, room) + [] == Plain(done, room);
  }

  /** An item says what its size and its payload say as items of their own. */
  lemma SizeThenPayload(done: seq<Item>, item: Item, room: string)
    ensures Plain((done + SizeOnly(item)) + PayloadOnly(item), room) == Plain(done + [item], room)
  {
    PlainSizeOnly(done, item, room);
    PlainPayloadOnly(done + SizeOnly(item), item, room);
    PlainSnoc(done, item, room);
  }

  lemma WholeItem(out: seq<Emit>, groups: seq<seq<Msg>>, pending: map<string, Pending>, done: seq<Item>, item: Item)
    requires Merging(out, groups, pending, (done + SizeOnly(item)) + PayloadOnly(item))
    ensures Merging(out, groups, pending, done + [item])
  {
    forall room ensures Said(out, groups, room) + Held(pending, room) == Plain(done + [item], room) {
      SizeThenPayload(done, item, room);
    }
  }

  /** Emit what is held back for a room, as one payload. */
  method FlushRoom(out: seq<Emit>, pending: map<string, Pending>, room: string,
                   ghost groups: seq<seq<Msg>>, ghost done: seq<Item>)
    returns (out': seq<Emit>, pending': map<string, Pending>, ghost groups': seq<seq<Msg>>)
    requires InStep(out, groups, pending, done) && room in pending && Packed(out, groups, pending)
    ensures InStep(out', groups', pending', done) && pending' == pending - {room} && Packed(out', groups', pending')
    ensures forall q :: q != room ==> ForRoom(out', q) == ForRoom(out, q)
    ensures var frames := ForRoom(out', room);
            frames != [] && frames[|frames| - 1].Bytes? && |frames[|frames| - 1].payload| == pending[room].len
  {
    FlushKeepsStep(out, groups, pending, done, room);
    FlushPacks(out, groups, pending, room);
    out' := out + [Emit(room, Merged(pending[room]))];
    groups' := groups + [Held(pending, room)];
    pending' := pending - {room};
  }

  /** The size of an item, if any: a barrier within its room. */
  method HandleSize(out: seq<Emit>, pending: map<string, Pending>, item: Item,
                    ghost groups: seq<seq<Msg>>, ghost done: seq<Item>)
    returns (out': seq<Emit>, pending': map<string, Pending>, ghost groups': seq<seq<Msg>>)
    requires Merging(out, groups, pending, done)
    ensures Merging(out', groups', pending', done + SizeOnly(item))
  {
    out', pending', groups' := out, pending, groups;
    if item.size.Some? {
      if item.room in pending {
        out', pending', groups' := FlushRoom(out, pending, item.room, groups, done);
      }
      AnnounceKeepsStep(out', groups', pending', done, item);
      var control := Control(Announce(item.size.value));
      EmitPacks(out', groups', pending', Emit(item.room, control), [control]);
      out', groups' := out' + [Emit(item.room, control)], groups' + [[control]];
    } else {
      assert done + SizeOnly(item) == done;
    }
  }

  /** The payload of an item, if any: held back, in place of what it would overfill. */
  method HandlePayload(out: seq<Emit>, pending: map<string, Pending>, item: Item,
                       ghost groups: seq<seq<Msg>>, ghost done: seq<Item>)
    returns (out': seq<Emit>, pending': map<string, Pending>, ghost groups': seq<seq<Msg>>)
    requires Merging(out, groups, pending, done)
    ensures Merging(out', groups', pending', done + PayloadOnly(item))
  {
    out', pending', groups' := out, pending, groups;
    if item.payload.Some? {
      if item.room in pending && pending[item.room].len + |item.payload.value| > FANOUT_MAX_BATCH {
        out', pending', groups' := FlushRoom(out, pending, item.room, groups, done);
      }
      AccumulateKeepsStep(out', groups', pending', done, item.room, item.payload.value);
      AccumulatePacks(out', groups', pending', item.room, item.payload.value);
      pending' := Accumulated(pending', item.room, item.payload.value);
    } else {
      assert done + PayloadOnly(item) == done;
    }
  }

  /** One pass of the fan-out task over the items it drained: what it emits, in
      order. Each emit stands for single messages of its room, `groups`, and those
      of a room are together exactly what sending every item on its own would send;
      so no viewer can tell. And nothing is sent apart that fits together. */
  method Coalesce(batch: seq<Item>) returns (out: seq<Emit>, ghost groups: seq<seq<Msg>>)
    ensures Explains(out, groups, batch)
    ensures forall room :: Tokens(ForRoom(out, room)) == Tokens(Plain(batch, room))
    ensures forall room :: TightRoom(out, groups, room)
  {
    out, groups := [], [];
    var pending: map<string, Pending> := map[];
    for i := 0 to |batch|
      invariant Merging(out, groups, pending, batch[..i])
    {
      ghost var done := batch[..i];
      out, pending, groups := HandleSize(out, pending, batch[i], groups, done);
      out, pending, groups := HandlePayload(out, pending, batch[i], groups, done + SizeOnly(batch[i]));
      WholeItem(out, groups, pending, done, batch[i]);
      assert batch[..i + 1] == done + [batch[i]];
    }
    assert batch[..|batch|] == batch;
    out, groups := FlushRest(out, pending, groups, batch);
    NothingHeld(out, groups, batch);
  }

  /** Emit what is held back for every room. */
  method FlushRest(out: seq<Emit>, pending: map<string, Pending>, ghost groups: seq<seq<Msg>>, ghost done: seq<Item>)
    returns (out': seq<Emit>, ghost groups': seq<seq<Msg>>)
    requires InStep(out, groups, pending, done) && Packed(out, groups, pending)
    ensures InStep(out', groups', map[], done) && Packed(out', groups', map[])
  {
    var left := pending;
    out', groups' := out, groups;
    while left != map[]
      invariant InStep(out', groups', left, done) && Packed(out', groups', left)
      decreases |left|
    {
      var room :| room in left;
      assert |(left - {room}).Keys| < |left.Keys|;
      out', left, groups' := FlushRoom(out', left, room, groups', done);
    }
  }

  lemma NothingHeld(out: seq<Emit>, groups: seq<seq<Msg>>, batch: seq<Item>)
    requires InStep(out, groups, map[], batch)
    ensures Explains(out, groups, batch)
    ensures forall room :: Tokens(ForRoom(out, room)) == Tokens(Plain(batch, room))
  {
    forall room ensures Said(out, groups, room) == Plain(batch, room) {
      assert Said(out, groups, room) + Held(map[], room) == Plain(batch, room);
    }
    forall room ensures Tokens(ForRoom(out, room)) == Tokens(Plain(batch, room)) {
      EmitsSayTheSame(out, groups, room);
    }
  }

  lemma {:induction false} EmitsSayTheSame(out: seq<Emit>, groups: seq<seq<Msg>>, room: string)
    requires AllStand(out, groups)
    ensures Tokens(ForRoom(out, room)) == Tokens(Said(out, groups, room))
    decreases |out|
  {
    if out != [] {
      var n := |out| - 1;
      EmitsSayTheSame(out[..n], groups[..n], room);
      if out[n].room == room {
        TokensSnoc(ForRoom(out[..n], room), out[n].msg);
        TokensAppend(Said(out[..n], groups[..n], room), groups[n]);
        StandsSaysTheSame(out[n].msg, groups[n], FANOUT_MAX_BATCH);
      } else {
        assert Said(out[..n], groups[..n], room) + [] == Said(out[..n], groups[..n], room);
      }
    }
  }

  // ---- What a pass leaves in the viewers' queues ----

  /** A hub after a sequence of emits. */
  function SendAll(h: Hub, out: seq<Emit>): (after: Hub) {
    if out == [] then h
    else
      var last := out[|out| - 1];
      Send(SendAll(h, out[..|out| - 1]), last.room, last.msg)
  }

  lemma SendOne(h: Hub, room: string, msg: Msg, id: nat)
    requires Sound(h) && id in h.queues
    ensures var v := Send(h, room, msg);
            && id in v.queues && v.home == h.home && v.relayed == h.relayed
            && v.sent[id] == h.sent[id] + (if h.home[id] == room then [msg] else [])
            && (Registered(v, id) ==> Registered(h, id))
  {
    assert h.sent[id] + [] == h.sent[id];
  }

  /** Every viewer's record grows by exactly the emits of its room. */
  lemma {:induction false} SendAllSends(h: Hub, out: seq<Emit>, id: nat)
    requires Sound(h) && id in h.queues
    ensures Sound(SendAll(h, out)) && id in SendAll(h, out).queues
    ensures SendAll(h, out).home == h.home && SendAll(h, out).relayed == h.relayed
    ensures SendAll(h, out).sent[id] == h.sent[id] + ForRoom(out, h.home[id])
    ensures Registered(SendAll(h, out), id) ==> Registered(h, id)
    decreases |out|
  {
    if out == [] {
      assert h.sent[id] + [] == h.sent[id];
    } else {
      var front, last := out[..|out| - 1], out[|out| - 1];
      SendAllSends(h, front, id);
      SendSound(SendAll(h, front), last.room, last.msg);
      SendOne(SendAll(h, front), last.room, last.msg, id);
    }
  }

  /** Emits are no more than the single messages they stand for. */
  lemma {:induction false} EmitsAreFewer(out: seq<Emit>, groups: seq<seq<Msg>>, room: string)
    requires AllStand(out, groups)
    ensures |ForRoom(out, room)| <= |Said(out, groups, room)|
    decreases |out|
  {
    if out != [] {
      var n := |out| - 1;
      EmitsAreFewer(out[..n], groups[..n], room);
      assert Stands(out[n].msg, groups[n], FANOUT_MAX_BATCH);
    }
  }

  /** A viewer that keeps its place has exactly the emits of its room put at the
      end of its queue; one that loses it on the way has the first of them. */
  lemma PassReachesViewer(h: Hub, out: seq<Emit>, id: nat)
    requires Sound(h) && id in h.queues && Registered(h, id)
    ensures id in SendAll(h, out).queues
    ensures SendAll(h, out).queues[id] <= h.queues[id] + ForRoom(out, h.home[id])
    ensures Registered(SendAll(h, out), id) ==>
              SendAll(h, out).queues[id] == h.queues[id] + ForRoom(out, h.home[id])
  {
    SendAllSends(h, out, id);
    var v := SendAll(h, out);
    assert NoHoles(h, id) && NoHoles(v, id);
    QueueGrows(h.relayed[id], h.queues[id], v.queues[id], ForRoom(out, h.home[id]), h.sent[id], v.sent[id]);
  }

  lemma QueueGrows(taken: seq<Msg>, queue: seq<Msg>, queue': seq<Msg>, emits: seq<Msg>, sent: seq<Msg>, sent': seq<Msg>)
    requires taken + queue == sent && sent' == sent + emits && taken + queue' <= sent'
    ensures queue' <= queue + emits && (taken + queue' == sent' ==> queue' == queue + emits)
  {
    assert sent' == taken + (queue + emits);
    assert (taken + queue')[|taken|..] == queue' && sent'[|taken|..] == queue + emits;
  }

  /** A viewer with room for all its room's emits keeps its place through them. */
  lemma {:induction false} PassKeepsPlace(h: Hub, out: seq<Emit>, id: nat)
    requires Sound(h) && id in h.queues && Registered(h, id)
    requires |h.queues[id]| + |ForRoom(out, h.home[id])| <= 2048
    ensures Registered(SendAll(h, out), id)
    decreases |out|
  {
    if out != [] {
      var front, last := out[..|out| - 1], out[|out| - 1];
      PassKeepsPlace(h, front, id);
      PassReachesViewer(h, front, id);
      SendAllSends(h, front, id);
      EmitKeepsPlace(SendAll(h, front), last, id);
    }
  }

  lemma EmitKeepsPlace(h: Hub, e: Emit, id: nat)
    requires Sound(h) && id in h.queues && Registered(h, id) && (h.home[id] == e.room ==> |h.queues[id]| < 2048)
    ensures Registered(Send(h, e.room, e.msg), id)
  {
    SendKeepsPlace(h, e.room, e.msg, id);
  }

  /** The pass with its sends, in order. A viewer that stays registered has been
      queued what says exactly the items of its room, each sent on its own. */
  method FanoutPass(batch: seq<Item>, viewers: Registry) returns (out: seq<Emit>, ghost groups: seq<seq<Msg>>)
    requires viewers.Valid()
    modifies viewers
    ensures viewers.Valid() && Explains(out, groups, batch) && viewers.hub == SendAll(old(viewers.hub), out)
    ensures forall id :: id in old(viewers.queues) && Registered(viewers.hub, id) ==>
              && id in viewers.queues && id in viewers.hub.home && old(viewers.queues)[id] <= viewers.queues[id]
              && Tokens(viewers.queues[id][|old(viewers.queues)[id]|..]) == Tokens(Plain(batch, viewers.hub.home[id]))
    ensures forall id :: id in old(viewers.queues) && Registered(old(viewers.hub), id)
                         && |old(viewers.queues)[id]| + |Plain(batch, old(viewers.hub).home[id])| <= 2048 ==>
              Registered(viewers.hub, id)
  {
    out, groups := Coalesce(batch);
    for i := 0 to |out|
      invariant viewers.Valid() && viewers.hub == SendAll(old(viewers.hub), out[..i])
    {
      assert out[..i + 1][..i] == out[..i];
      viewers.Broadcast(out[i].room, out[i].msg);
    }
    assert out[..|out|] == out;
    PassSays(old(viewers.hub), viewers.hub, out, batch);
    PassSpares(old(viewers.hub), out, groups, batch);
  }

  /** With room for every item of its room sent on its own, a viewer keeps its place. */
  lemma PassSpares(h: Hub, out: seq<Emit>, groups: seq<seq<Msg>>, batch: seq<Item>)
    requires Sound(h) && Explains(out, groups, batch)
    ensures forall id :: id in h.queues && Registered(h, id)
                         && |h.queues[id]| + |Plain(batch, h.home[id])| <= 2048 ==>
              Registered(SendAll(h, out), id)
  {
    forall id | id in h.queues && Registered(h, id) && |h.queues[id]| + |Plain(batch, h.home[id])| <= 2048
      ensures Registered(SendAll(h, out), id)
    {
      EmitsAreFewer(out, groups, h.home[id]);
      PassKeepsPlace(h, out, id);
    }
  }

  lemma PassSays(h: Hub, v: Hub, out: seq<Emit>, batch: seq<Item>)
    requires Sound(h) && v == SendAll(h, out)
    requires forall room :: Tokens(ForRoom(out, room)) == Tokens(Plain(batch, room))
    ensures forall id :: id in h.queues && Registered(v, id) ==>
              && id in v.queues && id in v.home && h.queues[id] <= v.queues[id]
              && Tokens(v.queues[id][|h.queues[id]|..]) == Tokens(Plain(batch, v.home[id]))
  {
    forall id | id in h.queues && Registered(v, id)
      ensures id in v.queues && id in v.home && h.queues[id] <= v.queues[id]
      ensures Tokens(v.queues[id][|h.queues[id]|..]) == Tokens(Plain(batch, v.home[id]))
    {
      SendAllSends(h, out, id);
      PassReachesViewer(h, out, id);
      assert v.queues[id][|h.queues[id]|..] == ForRoom(out, h.home[id]);
    }
  }

  // ---- The relay ----

  /** The frames the socket took: all of them, or up to the one that failed. */
  datatype Relayed = Relayed(frames: seq<Msg>, ok: bool)

  /** What went out and the chunks held back stand, in order, for what was taken
      off the queue. */
  ghost predicate RelayInStep(frames: seq<Msg>, groups: seq<seq<Msg>>, chunks: seq<Blob>, len: nat, taken: seq<Msg>) {
    && len == Total(chunks) && (len <= MAX_MERGED || |chunks| == 1)
    && Flatten(groups) + Wrapped(chunks) == taken
    && Regroups(frames, groups, Flatten(groups), MAX_MERGED)
  }

  /** Merging as far as the bound allows, here too. */
  ghost predicate RelayPacked(frames: seq<Msg>, groups: seq<seq<Msg>>, chunks: seq<Blob>) {
    && |frames| == |groups| && Tight(frames, groups, MAX_MERGED)
    && if chunks == [] then Idle(frames) else Apart(frames, chunks[0], MAX_MERGED)
  }

  /** The relay after `taken`: going on, or stopped by the write that failed. */
  ghost predicate Relaying(ok: bool, frames: seq<Msg>, groups: seq<seq<Msg>>, chunks: seq<Blob>, len: nat,
                           taken: seq<Msg>, fails: Option<nat>) {
    && RelayInStep(frames, groups, chunks, len, taken)
    && |frames| == |groups| && Tight(frames, groups, MAX_MERGED)
    && if ok then RelayPacked(frames, groups, chunks) else fails == Some(|frames|)
  }

  lemma RelayFlush(frames: seq<Msg>, groups: seq<seq<Msg>>, chunks: seq<Blob>, len: nat, taken: seq<Msg>)
    requires RelayInStep(frames, groups, chunks, len, taken) && chunks != [] && RelayPacked(frames, groups, chunks)
    ensures RelayInStep(frames + [Bytes(Concat(chunks))], groups + [Wrapped(chunks)], [], 0, taken)
    ensures Tight(frames + [Bytes(Concat(chunks))], groups + [Wrapped(chunks)], MAX_MERGED)
    ensures |Concat(chunks)| == len
  {
    MergedStands(chunks, MAX_MERGED);
    ConcatLength(chunks);
    TightSnoc(frames, groups, Bytes(Concat(chunks)), Wrapped(chunks), MAX_MERGED);
    RegroupsSnoc(frames, groups, Flatten(groups), Bytes(Concat(chunks)), Wrapped(chunks), MAX_MERGED);
    assert taken + Wrapped([]) == taken;
  }

  lemma RelayPush(frames: seq<Msg>, groups: seq<seq<Msg>>, chunks: seq<Blob>, len: nat, taken: seq<Msg>, payload: Blob)
    requires RelayInStep(frames, groups, chunks, len, taken)
    requires chunks == [] || len + |payload| <= MAX_MERGED
    ensures RelayInStep(frames, groups, chunks + [payload], len + |payload|, taken + [Bytes(payload)])
  {
    TotalSnoc(chunks, payload);
    assert Wrapped(chunks + [payload]) == Wrapped(chunks) + [Bytes(payload)];
    assert Flatten(groups) + Wrapped(chunks + [payload]) == taken + [Bytes(payload)];
  }

  lemma RelayControl(frames: seq<Msg>, groups: seq<seq<Msg>>, taken: seq<Msg>, control: Msg)
    requires RelayInStep(frames, groups, [], 0, taken) && control.Control?
    ensures RelayInStep(frames + [control], groups + [[control]], [], 0, taken + [control])
  {
    ControlStands(control, MAX_MERGED);
    assert Flatten(groups) == taken;
    RegroupsSnoc(frames, groups, taken, control, [control], MAX_MERGED);
    assert taken + [control] + Wrapped([]) == taken + [control];
  }

  /** What has been written, when a write fails: it stands for a front of the queue. */
  ghost predicate RelayedFront(frames: seq<Msg>, groups: seq<seq<Msg>>, queued: seq<Msg>) {
    Flatten(groups) <= queued && Regroups(frames, groups, Flatten(groups), MAX_MERGED)
  }

  /** Write what is held back as one frame, unless this write fails. */
  method WriteMerged(frames: seq<Msg>, chunks: seq<Blob>, len: nat, fails: Option<nat>,
                     ghost groups: seq<seq<Msg>>, ghost taken: seq<Msg>)
    returns (ok: bool, frames': seq<Msg>, ghost groups': seq<seq<Msg>>)
    requires RelayInStep(frames, groups, chunks, len, taken) && chunks != [] && RelayPacked(frames, groups, chunks)
    ensures ok == (fails != Some(|frames|))
    ensures if ok then RelayInStep(frames', groups', [], 0, taken) else frames' == frames && groups' == groups
    ensures |frames'| == |groups'| && Tight(frames', groups', MAX_MERGED)
    ensures ok ==> frames' != [] && frames'[|frames'| - 1].Bytes? && |frames'[|frames'| - 1].payload| == len
  {
    ok, frames', groups' := fails != Some(|frames|), frames, groups;
    if ok {
      RelayFlush(frames, groups, chunks, len, taken);
      frames', groups' := frames + [Bytes(Concat(chunks))], groups + [Wrapped(chunks)];
    }
  }

  /** Handle one message off the queue. */
  method RelayOne(frames: seq<Msg>, chunks: seq<Blob>, len: nat, msg: Msg, fails: Option<nat>,
                  ghost groups: seq<seq<Msg>>, ghost taken: seq<Msg>)
    returns (ok: bool, frames': seq<Msg>, chunks': seq<Blob>, len': nat, ghost groups': seq<seq<Msg>>)
    requires Relaying(true, frames, groups, chunks, len, taken, fails)
    ensures Relaying(ok, frames', groups', chunks', len', if ok then taken + [msg] else taken, fails)
  {
    ok, frames', chunks', len', groups' := true, frames, chunks, len, groups;
    if chunks != [] && (msg.Control? || len + |msg.payload| > MAX_MERGED) {
      ok, frames', groups' := WriteMerged(frames, chunks, len, fails, groups, taken);
      if !ok {
        return;
      }
      chunks', len' := [], 0;
    }
    if msg.Bytes? {
      RelayPush(frames', groups', chunks', len', taken, msg.payload);
      chunks', len' := chunks' + [msg.payload], len' + |msg.payload|;
    } else {
      ok := fails != Some(|frames'|);
      if ok {
        RelayControl(frames', groups', taken, msg);
        TightSnoc(frames', groups', msg, [msg], MAX_MERGED);
        frames', groups' := frames' + [msg], groups' + [[msg]];
      }
    }
  }

  /** Drain the queue message by message, up to a write that fails. */
  method RelayAll(queued: seq<Msg>, fails: Option<nat>)
    returns (ok: bool, frames: seq<Msg>, chunks: seq<Blob>, len: nat, ghost groups: seq<seq<Msg>>)
    ensures ok ==> Relaying(true, frames, groups, chunks, len, queued, fails)
    ensures RelayedFront(frames, groups, queued) && |frames| == |groups| && Tight(frames, groups, MAX_MERGED)
    ensures !ok ==> fails == Some(|frames|)
  {
    ok, frames, chunks, len, groups := true, [], [], 0, [];
    var waiting := queued;
    ghost var taken: seq<Msg> := [];
    while ok && waiting != []
      invariant taken + waiting == queued
      invariant Relaying(ok, frames, groups, chunks, len, taken, fails)
      decreases |waiting|, ok
    {
      var msg := waiting[0];
      ok, frames, chunks, len, groups := RelayOne(frames, chunks, len, msg, fails, groups, taken);
      if ok {
        OneTaken(taken, waiting, queued);
        taken, waiting := taken + [msg], waiting[1..];
      }
    }
    RelayEnds(ok, frames, groups, chunks, len, taken, waiting, queued, fails);
  }

  lemma OneTaken(taken: seq<Msg>, waiting: seq<Msg>, queued: seq<Msg>)
    requires waiting != [] && taken + waiting == queued
    ensures (taken + [waiting[0]]) + waiting[1..] == queued
  {
  }

  lemma RelayEnds(ok: bool, frames: seq<Msg>, groups: seq<seq<Msg>>, chunks: seq<Blob>, len: nat, taken: seq<Msg>,
                  waiting: seq<Msg>, queued: seq<Msg>, fails: Option<nat>)
    requires taken + waiting == queued && Relaying(ok, frames, groups, chunks, len, taken, fails)
    requires ok ==> waiting == []
    ensures ok ==> Relaying(true, frames, groups, chunks, len, queued, fails)
    ensures RelayedFront(frames, groups, queued) && |frames| == |groups| && Tight(frames, groups, MAX_MERGED)
    ensures !ok ==> fails == Some(|frames|)
  {
    if ok {
      assert taken == queued;
    }
    StepIsFront(frames, groups, chunks, len, taken, queued);
  }

  /** What a relay does with all that is queued when it wakes. `fails` says which write to
      the socket fails, if any. Each frame is one message of the queue, or several
      whole payloads within 1 MiB; the peer is shown what it would have been shown
      had every message been written on its own, or a front of it when a write
      fails. Two binary frames are apart only where the next payload did not fit. */
  method Relay(queued: seq<Msg>, fails: Option<nat>) returns (r: Relayed, ghost groups: seq<seq<Msg>>)
    requires queued != []
    ensures RelayedFront(r.frames, groups, queued)
    ensures r.ok ==> Flatten(groups) == queued && Tokens(r.frames) == Tokens(queued)
    ensures Tokens(r.frames) <= Tokens(queued)
    ensures !r.ok ==> fails == Some(|r.frames|)
    ensures |r.frames| == |groups| && Tight(r.frames, groups, 1024 * 1024)
  {
    var ok, frames, chunks, len;
    ok, frames, chunks, len, groups := RelayAll(queued, fails);
    if ok {
      if chunks == [] {
        StepIsFront(frames, groups, [], len, queued, queued);
      } else {
        ok, frames, groups := WriteMerged(frames, chunks, len, fails, groups, queued);
        if ok {
          StepIsFront(frames, groups, [], 0, queued, queued);
        } else {
          StepIsFront(frames, groups, chunks, len, queued, queued);
        }
      }
    }
    FrontSays(frames, groups, queued);
    return Relayed(frames, ok), groups;
  }

  lemma StepIsFront(frames: seq<Msg>, groups: seq<seq<Msg>>, chunks: seq<Blob>, len: nat, taken: seq<Msg>,
                    queued: seq<Msg>)
    requires taken <= queued && RelayInStep(frames, groups, chunks, len, taken)
    ensures RelayedFront(frames, groups, queued)
    ensures chunks == [] ==> Flatten(groups) == taken
  {
  }

  lemma FrontSays(frames: seq<Msg>, groups: seq<seq<Msg>>, queued: seq<Msg>)
    requires RelayedFront(frames, groups, queued)
    ensures Tokens(frames) <= Tokens(queued)
    ensures Flatten(groups) == queued ==> Tokens(frames) == Tokens(queued)
  {
    RegroupingIsInvisible(frames, groups, Flatten(groups), MAX_MERGED);
    TokensPrefix(Flatten(groups), queued);
  }
}
