/** Records across the whole path: one payload is one sealed record, and storing,
    fanning out and relaying only ever cut and merge between payloads, so the page's
    reader is never out of step (src/server/viewers.rs, public/javascript/room.js). */
module Path {
  import opened Prelude
  import opened Viewers
  import opened Fanout
  import opened Records
  import Agent
  import L = Live

  // ---- Bytes and pieces of a regrouped stream ----

  lemma {:induction false} RegroupedBytes(merged: seq<Msg>, groups: seq<seq<Msg>>, single: seq<Msg>, limit: nat)
    requires Regroups(merged, groups, single, limit)
    ensures Concat(Binaries(merged)) == Concat(Binaries(single))
    decreases |merged|
  {
    if merged != [] {
      var n := |merged| - 1;
      RegroupedBytes(merged[..n], groups[..n], Flatten(groups[..n]), limit);
      StandingBytes(merged[n], groups[n], limit);
      BinariesAppend(merged[..n], [merged[n]]);
      assert merged == merged[..n] + [merged[n]];
      ConcatAppend(Binaries(merged[..n]), Binaries([merged[n]]));
      BinariesAppend(Flatten(groups[..n]), groups[n]);
      ConcatAppend(Binaries(Flatten(groups[..n])), Binaries(groups[n]));
    }
  }

  lemma StandingBytes(msg: Msg, group: seq<Msg>, limit: nat)
    requires Stands(msg, group, limit)
    ensures Concat(Binaries([msg])) == Concat(Binaries(group))
  {
    BinariesSnoc([], msg);
    assert [] + [msg] == [msg];
    if msg.Bytes? {
      assert Binaries([msg]) == [] + [msg.payload] == [msg.payload];
      assert Concat([msg.payload]) == msg.payload + Concat([]);
    }
  }

  function PiecesOf(msgs: seq<Msg>): (pieces: set<Blob>) { set b | b in Binaries(msgs) }

  /** A binary message that stands for messages of `single` is made of their payloads. */
  lemma StandingIsWhole(msg: Msg, group: seq<Msg>, limit: nat)
    requires Stands(msg, group, limit) && msg.Bytes?
    ensures Whole(msg.payload, PiecesOf(group))
  {
    PiecesAreWhole(Binaries(group), PiecesOf(group));
  }

  lemma {:induction false} BinariesOf(msgs: seq<Msg>, f: Blob)
    ensures f in Binaries(msgs) <==> exists i :: 0 <= i < |msgs| && msgs[i] == Bytes(f)
    decreases |msgs|
  {
    if msgs != [] {
      var n := |msgs| - 1;
      BinariesOf(msgs[..n], f);
      if f in Binaries(msgs[..n]) {
        var i :| 0 <= i < n && msgs[..n][i] == Bytes(f);
        assert msgs[i] == Bytes(f);
      }
      if i :| 0 <= i < |msgs| && msgs[i] == Bytes(f) {
        assert i < n ==> msgs[..n][i] == Bytes(f);
      }
    }
  }

  lemma {:induction false} GroupInFlat(groups: seq<seq<Msg>>, i: nat)
    requires i < |groups|
    ensures PiecesOf(groups[i]) <= PiecesOf(Flatten(groups))
    decreases |groups|
  {
    var n := |groups| - 1;
    BinariesAppend(Flatten(groups[..n]), groups[n]);
    if i < n {
      GroupInFlat(groups[..n], i);
    }
  }

  lemma WholeInMore(frame: Blob, pieces: set<Blob>, more: set<Blob>)
    requires Whole(frame, pieces) && pieces <= more
    ensures Whole(frame, more)
  {
    var parts: seq<Blob> :| (forall p :: p in parts ==> p in pieces) && frame == Concat(parts);
    PiecesAreWhole(parts, more);
  }

  /** A frame whole in frames that are whole in chunks is whole in the chunks. */
  lemma WholeOfWhole(frame: Blob, middle: set<Blob>, pieces: set<Blob>)
    requires Whole(frame, middle) && forall m :: m in middle ==> Whole(m, pieces)
    ensures Whole(frame, pieces)
  {
    var parts: seq<Blob> :| (forall p :: p in parts ==> p in middle) && frame == Concat(parts);
    MergedIsWhole(parts, pieces);
  }

  /** Every frame of a regrouped stream is made of whole payloads of the single one. */
  lemma RegroupedIsWhole(merged: seq<Msg>, groups: seq<seq<Msg>>, single: seq<Msg>, limit: nat, f: Blob)
    requires Regroups(merged, groups, single, limit) && f in Binaries(merged)
    ensures Whole(f, PiecesOf(single))
  {
    BinariesOf(merged, f);
    var i :| 0 <= i < |merged| && merged[i] == Bytes(f);
    StandingIsWhole(merged[i], groups[i], limit);
    GroupInFlat(groups, i);
    WholeInMore(f, PiecesOf(groups[i]), PiecesOf(single));
  }

  // ---- What a viewer was sent, as sealed records ----

  function Groups(covers: seq<L.Cover>): (groups: seq<seq<Msg>>) {
    seq(|covers|, i requires 0 <= i < |covers| => covers[i].group)
  }

  lemma {:induction false} SpokenIsFlat(covers: seq<L.Cover>)
    ensures L.Spoken(covers) == Flatten(Groups(covers))
    decreases |covers|
  {
    if covers != [] {
      var n := |covers| - 1;
      SpokenIsFlat(covers[..n]);
      assert Groups(covers)[..n] == Groups(covers[..n]);
    }
  }

  lemma CoveredRegroups(sent: seq<Msg>, covers: seq<L.Cover>, k: nat)
    requires L.Covered(sent, covers) && k <= |sent|
    ensures Regroups(sent[..k], Groups(covers[..k]), L.Spoken(covers[..k]), FANOUT_MAX_BATCH)
  {
    SpokenIsFlat(covers[..k]);
    forall i | 0 <= i < k ensures Stands(sent[..k][i], Groups(covers[..k])[i], FANOUT_MAX_BATCH) {
      assert L.CoveredBy(sent[i], covers[i]);
    }
  }

  lemma {:induction false} SpokenPrefix(covers: seq<L.Cover>, k: nat)
    requires k <= |covers|
    ensures Binaries(L.Spoken(covers[..k])) <= Binaries(L.Spoken(covers))
    decreases |covers|
  {
    if k == |covers| {
      assert covers[..k] == covers;
    } else {
      var front := covers[..|covers| - 1];
      SpokenPrefix(front, k);
      assert front[..k] == covers[..k];
      BinariesAppend(L.Spoken(front), covers[|covers| - 1].group);
    }
  }

  lemma BypassCarriesNothing(msg: Msg, c: L.Cover)
    requires L.CoveredBy(msg, c) && c.bypass
    ensures Binaries(c.group) == []
  {
    BinariesSnoc([], msg);
    assert c.group == [] + [msg];
  }

  /** The controls that went past the queue carry no bytes. */
  lemma {:induction false} ThroughCarriesTheBytes(sent: seq<Msg>, covers: seq<L.Cover>)
    requires L.Covered(sent, covers)
    ensures Binaries(L.Through(covers)) == Binaries(L.Spoken(covers))
    decreases |covers|
  {
    if covers != [] {
      var n := |covers| - 1;
      ThroughCarriesTheBytes(sent[..n], covers[..n]);
      BinariesAppend(L.Spoken(covers[..n]), covers[n].group);
      if covers[n].bypass {
        BypassCarriesNothing(sent[n], covers[n]);
        assert L.Through(covers) == L.Through(covers[..n]) + [] == L.Through(covers[..n]);
        assert Binaries(L.Spoken(covers[..n])) + [] == Binaries(L.Spoken(covers[..n]));
      } else {
        BinariesAppend(L.Through(covers[..n]), covers[n].group);
      }
    }
  }

  lemma SealsTo(c: Cipher, recs: seq<Record>, j: nat)
    requires AllSealable(c, recs) && j <= |recs|
    ensures Seals(c, recs[..j]) == Seals(c, recs)[..j]
  {
  }

  /** The page never rejects the frame, and the command-line reader accepts it as
      the start of an encrypted stream. */
  predicate FrameReads(f: Blob) { Split(f).Some? && Agent.FirstPasses([f]) }

  /** A frame made of whole sealed records is never rejected by the page. */
  lemma WholeFrameSplits(c: Cipher, recs: seq<Record>, frame: Blob, pieces: set<Blob>)
    requires AllSealable(c, recs) && Whole(frame, pieces) && forall p :: p in pieces ==> p in Seals(c, recs)
    ensures Split(frame).Some?
  {
    var parts: seq<Blob> :| (forall p :: p in parts ==> p in pieces) && frame == Concat(parts);
    WholeChunksSplit(c, parts, recs);
  }

  lemma SpokenFront(c: Cipher, live: seq<Record>, covers: seq<L.Cover>, k: nat) returns (j: nat)
    requires AllSealable(c, live) && k <= |covers| && Binaries(L.Spoken(covers)) == Seals(c, live)
    ensures j <= |live| && Binaries(L.Spoken(covers[..k])) == Seals(c, live[..j])
    ensures k == |covers| ==> j == |live|
  {
    SpokenPrefix(covers, k);
    j := |Binaries(L.Spoken(covers[..k]))|;
    SealsTo(c, live, j);
    assert k == |covers| ==> covers[..k] == covers;
  }

  /** The bytes the socket took are those of a front of what was spoken. */
  lemma WrittenBytes(v: L.View, sent: seq<Msg>, k: nat)
    requires L.Covered(sent, v.covers) && k <= |sent| && Regroups(v.frames, v.groups, sent[..k], MAX_MERGED)
    ensures Concat(Binaries(v.frames)) == Concat(Binaries(L.Spoken(v.covers[..k])))
  {
    CoveredRegroups(sent, v.covers, k);
    RegroupedBytes(v.frames, v.groups, sent[..k], MAX_MERGED);
    RegroupedBytes(sent[..k], Groups(v.covers[..k]), L.Spoken(v.covers[..k]), FANOUT_MAX_BATCH);
  }

  /** And the command-line reader accepts it as a first message. */
  lemma WholeFramePasses(c: Cipher, recs: seq<Record>, frame: Blob, pieces: set<Blob>)
    requires AllSealable(c, recs) && Whole(frame, pieces) && forall p :: p in pieces ==> p in Seals(c, recs)
    ensures Agent.FirstPasses([frame])
  {
    var parts: seq<Blob> :| (forall p :: p in parts ==> p in pieces) && frame == Concat(parts);
    if parts != [] {
      assert parts[0] in parts;
      var i :| 0 <= i < |recs| && Seals(c, recs)[i] == parts[0];
      Agent.SealedPasses(c, recs[i], Concat(parts[1..]));
    }
  }

  /** What the socket took of a stream of sealed records: whole records only, the
      first `j` of them. */
  lemma WrittenRecords(c: Cipher, key: Blob, live: seq<Record>, v: L.View, sent: seq<Msg>, relayed: seq<Msg>)
    returns (j: nat)
    requires AllSealable(c, live) && AllOpen(c, key, live)
    requires L.Covered(sent, v.covers) && L.WrittenOk(v, relayed) && relayed <= sent
    requires Binaries(L.Spoken(v.covers)) == Seals(c, live)
    ensures j <= |live| && (forall f :: f in Binaries(v.frames) ==> FrameReads(f))
    ensures ShownAll(c, key, Binaries(v.frames)) == Readable(live[..j], key)
    ensures Concat(Binaries(v.frames)) == Concat(Seals(c, live[..j]))
    ensures Flatten(v.groups) == sent ==> j == |live|
  {
    var k := |Flatten(v.groups)|;
    assert Flatten(v.groups) == sent[..k];
    WrittenBytes(v, sent, k);
    j := SpokenFront(c, live, v.covers, k);
    forall f | f in Binaries(v.frames) ensures FrameReads(f) {
      FrameSplits(c, live, v, sent, k, f);
    }
    assert forall f :: f in Binaries(v.frames) ==> FrameReads(f);
    FramesRead(c, key, live[..j], Binaries(v.frames));
  }

  lemma FramesRead(c: Cipher, key: Blob, recs: seq<Record>, frames: seq<Blob>)
    requires AllSealable(c, recs) && AllOpen(c, key, recs) && (forall f :: f in frames ==> Split(f).Some?)
    requires Concat(frames) == Concat(Seals(c, recs))
    ensures ShownAll(c, key, frames) == Readable(recs, key)
  {
    RegroupedChunksReadBack(c, key, recs, frames);
  }

  lemma FrameSplits(c: Cipher, live: seq<Record>, v: L.View, sent: seq<Msg>, k: nat, f: Blob)
    requires AllSealable(c, live) && L.Covered(sent, v.covers) && k <= |sent|
    requires Regroups(v.frames, v.groups, sent[..k], MAX_MERGED)
    requires Binaries(L.Spoken(v.covers)) == Seals(c, live) && f in Binaries(v.frames)
    ensures FrameReads(f)
  {
    CoveredRegroups(sent, v.covers, k);
    SpokenPrefix(v.covers, k);
    RegroupedIsWhole(v.frames, v.groups, sent[..k], MAX_MERGED, f);
    forall m | m in PiecesOf(sent[..k]) ensures Whole(m, PiecesOf(L.Spoken(v.covers[..k]))) {
      RegroupedIsWhole(sent[..k], Groups(v.covers[..k]), L.Spoken(v.covers[..k]), FANOUT_MAX_BATCH, m);
    }
    WholeOfWhole(f, PiecesOf(sent[..k]), PiecesOf(L.Spoken(v.covers[..k])));
    WholeFrameSplits(c, live, f, PiecesOf(L.Spoken(v.covers[..k])));
    WholeFramePasses(c, live, f, PiecesOf(L.Spoken(v.covers[..k])));
  }

  /** The records a viewer's live stream is about: a stretch of the room's, from
      the first that had not been said when it registered. */
  lemma LiveStretch(c: Cipher, recs: seq<Record>, v: L.View, sent: seq<Msg>, inHand: seq<Msg>, items: seq<Msg>, q: nat)
    returns (m: nat)
    requires AllSealable(c, recs) && L.Covered(sent, v.covers) && v.missed + L.Through(v.covers) + inHand == items
    requires Binaries(items) <= Seals(c, recs) && q == |Binaries(v.missed)|
    ensures q + m <= |recs| && Binaries(L.Spoken(v.covers)) == Seals(c, recs[q..q + m])
    ensures m == |Binaries(L.Spoken(v.covers))|
  {
    ThroughCarriesTheBytes(sent, v.covers);
    BinariesAppend(v.missed + L.Through(v.covers), inHand);
    BinariesAppend(v.missed, L.Through(v.covers));
    m := |Binaries(L.Spoken(v.covers))|;
    Middle(Seals(c, recs), Binaries(v.missed), Binaries(L.Spoken(v.covers)), Binaries(inHand));
    SealsStretch(c, recs, q, q + m);
  }

  lemma Middle<T>(all: seq<T>, before: seq<T>, chunks: seq<T>, rest: seq<T>)
    requires (before + chunks) + rest <= all
    ensures |before| + |chunks| <= |all| && chunks == all[|before|..|before| + |chunks|]
  {
    assert (before + chunks) + rest == all[..|(before + chunks) + rest|];
    assert chunks == ((before + chunks) + rest)[|before|..|before| + |chunks|];
  }

  lemma StretchOk(c: Cipher, key: Blob, recs: seq<Record>, a: nat, b: nat)
    requires AllSealable(c, recs) && AllOpen(c, key, recs) && a <= b <= |recs|
    ensures AllSealable(c, recs[a..b]) && AllOpen(c, key, recs[a..b])
  {
  }

  /** No frame is rejected, and together they hold the records `recs[q..q + j]` and
      read as their plaintexts under `key`, in order. */
  ghost predicate ReadsStretch(c: Cipher, key: Blob, recs: seq<Record>, q: nat, j: nat, frames: seq<Blob>)
    requires AllSealable(c, recs)
  {
    && q + j <= |recs| && (forall f :: f in frames ==> FrameReads(f))
    && ShownAll(c, key, frames) == Readable(recs[q..q + j], key)
    && Concat(frames) == Concat(Seals(c, recs[q..q + j]))
  }

  /** Records survive. A room's payloads are one sealed record each, `recs`. In every
      run, whatever was merged and whether or not a write has failed, the page
      rejects no frame of a viewer's live stream and reads from it exactly the
      plaintexts of the records `recs[q..q + j]` under its key, in order, `q` being
      where the viewer registered; and all that were sent once it has caught up. */
  lemma RecordsSurvive(c: Cipher, key: Blob, recs: seq<Record>, states: seq<L.State>, events: seq<L.Event>,
                       n: nat, id: nat) returns (j: nat)
    requires AllSealable(c, recs) && AllOpen(c, key, recs) && L.IsRun(states, events) && n < |states|
    requires id in states[n].views && id in states[n].hub.home
    requires Binaries(Plain(states[n].items, states[n].hub.home[id])) <= Seals(c, recs)
    ensures var v := states[n].views[id]; var q := |Binaries(v.missed)|;
            && ReadsStretch(c, key, recs, q, j, Binaries(v.frames))
            && (L.CaughtUp(states[n], id) ==> j == |Binaries(L.Spoken(v.covers))|)
  {
    L.StreamIsTheItems(states, events, n, id);
    L.ViewerInRun(states, events, n, id);
    j := RecordsRead(c, key, recs, states[n], id);
  }

  lemma RecordsRead(c: Cipher, key: Blob, recs: seq<Record>, s: L.State, id: nat) returns (j: nat)
    requires AllSealable(c, recs) && AllOpen(c, key, recs) && id in s.views && L.ViewerOk(s, id)
    requires |s.outbox| == |s.outGroups|
    requires s.views[id].missed + L.Through(s.views[id].covers) + Said(s.outbox, s.outGroups, s.hub.home[id])
             == Plain(s.items, s.hub.home[id])
    requires Binaries(Plain(s.items, s.hub.home[id])) <= Seals(c, recs)
    ensures var v := s.views[id]; var q := |Binaries(v.missed)|;
            && ReadsStretch(c, key, recs, q, j, Binaries(v.frames))
            && (L.CaughtUp(s, id) ==> j == |Binaries(L.Spoken(v.covers))|)
  {
    var v, sent, relayed := s.views[id], s.hub.sent[id], s.hub.relayed[id];
    var inHand, items := Said(s.outbox, s.outGroups, s.hub.home[id]), Plain(s.items, s.hub.home[id]);
    j := ViewerReads(c, key, recs, v, sent, relayed, inHand, items, |Binaries(v.missed)|);
  }

  lemma ViewerReads(c: Cipher, key: Blob, recs: seq<Record>, v: L.View, sent: seq<Msg>, relayed: seq<Msg>,
                    inHand: seq<Msg>, items: seq<Msg>, q: nat) returns (j: nat)
    requires AllSealable(c, recs) && AllOpen(c, key, recs) && q == |Binaries(v.missed)|
    requires L.Covered(sent, v.covers) && L.WrittenOk(v, relayed) && relayed <= sent
    requires v.missed + L.Through(v.covers) + inHand == items && Binaries(items) <= Seals(c, recs)
    ensures ReadsStretch(c, key, recs, q, j, Binaries(v.frames))
    ensures Flatten(v.groups) == sent ==> j == |Binaries(L.Spoken(v.covers))|
  {
    var m := LiveStretch(c, recs, v, sent, inHand, items, q);
    StretchOk(c, key, recs, q, q + m);
    j := WrittenRecords(c, key, recs[q..q + m], v, sent, relayed);
    StretchFront(recs, q, m, j);
  }

  lemma StretchFront(recs: seq<Record>, q: nat, m: nat, j: nat)
    requires q + m <= |recs| && j <= m
    ensures recs[q..q + m][..j] == recs[q..q + j]
  {
  }

  /** The history frame of a snapshot; none when there is no history. */
  function CatchUp(history: seq<Blob>): (frames: seq<Blob>) {
    if history == [] then [] else [Concat(history)]
  }

  /** What a joined viewer has been sent: the history frame, then the live frames. */
  function Received(s: L.State, id: nat): (frames: seq<Blob>)
    requires id in s.snaps && id in s.views
  {
    CatchUp(s.snaps[id].history) + Binaries(s.views[id].frames)
  }

  /** What stands behind those frames: the records `snap.lo` up to `snap.hi` of those
      stored in the history, and `j` of those published, from `q` on, in the live stream. */
  ghost predicate Joined(c: Cipher, key: Blob, stored: seq<Record>, published: seq<Record>, snap: L.Snap, v: L.View,
                         q: nat, j: nat)
    requires AllSealable(c, stored) && AllSealable(c, published)
  {
    && q == |Binaries(v.missed)| && snap.lo <= snap.hi <= |stored|
    && snap.history == Seals(c, stored[snap.lo..snap.hi])
    && ReadsStretch(c, key, published, q, j, Binaries(v.frames))
  }

  /** A room's payloads are one sealed record each: `stored` in the order of the table,
      `published` in that of the fan-out queue. */
  ghost predicate SealedRoom(c: Cipher, key: Blob, stored: seq<Record>, published: seq<Record>, s: L.State,
                             room: string) {
    && AllSealable(c, stored) && AllOpen(c, key, stored) && L.Payloads(s.log, room) <= Seals(c, stored)
    && AllSealable(c, published) && AllOpen(c, key, published) && L.Payloads(s.items, room) <= Seals(c, published)
  }

  lemma JoinedInRun(c: Cipher, key: Blob, stored: seq<Record>, published: seq<Record>, states: seq<L.State>,
                    events: seq<L.Event>, n: nat, id: nat) returns (q: nat, j: nat)
    requires L.IsRun(states, events) && n < |states| && id in states[n].snaps && id in states[n].hub.home
    requires SealedRoom(c, key, stored, published, states[n], states[n].hub.home[id])
    ensures id in states[n].views
    ensures Joined(c, key, stored, published, states[n].snaps[id], states[n].views[id], q, j)
    ensures L.CaughtUp(states[n], id) ==> j == |Binaries(L.Spoken(states[n].views[id].covers))|
  {
    L.SnapshotIsStored(states, events, n);
    q := |Binaries(states[n].views[id].missed)|;
    j := RecordsSurvive(c, key, published, states, events, n, id);
    HistoryIsSeals(c, stored, states[n].snaps[id], L.Payloads(states[n].log, states[n].hub.home[id]));
  }

  lemma HistoryIsSeals(c: Cipher, recs: seq<Record>, snap: L.Snap, stored: seq<Blob>)
    requires AllSealable(c, recs) && stored <= Seals(c, recs)
    requires snap.lo <= snap.hi <= |stored| && snap.history == stored[snap.lo..snap.hi]
    ensures snap.hi <= |recs| && snap.history == Seals(c, recs[snap.lo..snap.hi])
  {
    SealsStretch(c, recs, snap.lo, snap.hi);
    assert stored == Seals(c, recs)[..|stored|];
    assert Seals(c, recs)[..|stored|][snap.lo..snap.hi] == Seals(c, recs)[snap.lo..snap.hi];
  }

  /** From the table to the page. A viewer joins, reads its snapshot and is relayed its
      queue. In every run, with any number of ingest loops, whatever was trimmed before
      the snapshot and however much has been relayed since, the page rejects nothing,
      and reads the records of the snapshot and then those of the live stream, from
      where the viewer registered. */
  lemma PageReads(c: Cipher, key: Blob, stored: seq<Record>, published: seq<Record>, states: seq<L.State>,
                  events: seq<L.Event>, n: nat, id: nat) returns (q: nat, j: nat)
    requires L.IsRun(states, events) && n < |states| && id in states[n].snaps && id in states[n].hub.home
    requires SealedRoom(c, key, stored, published, states[n], states[n].hub.home[id])
    ensures id in states[n].views && q == |Binaries(states[n].views[id].missed)|
    ensures var snap, page := states[n].snaps[id], Received(states[n], id);
            && snap.lo <= snap.hi <= |stored| && q + j <= |published|
            && (forall f :: f in page ==> FrameReads(f))
            && ShownAll(c, key, page) == Readable(stored[snap.lo..snap.hi], key) + Readable(published[q..q + j], key)
    ensures L.CaughtUp(states[n], id) ==> j == |Binaries(L.Spoken(states[n].views[id].covers))|
  {
    q, j := JoinedInRun(c, key, stored, published, states, events, n, id);
    JoinedReads(c, key, stored, published, states[n].snaps[id], states[n].views[id], q, j);
  }

  /** The whole path of a room with one ingest loop. The page reads `recs[snap.lo..snap.hi]`
      and then `recs[q..q + j]` with `q <= snap.hi`: from the snapshot's start on no
      record is missing up to the last one relayed. */
  lemma WholePath(c: Cipher, key: Blob, recs: seq<Record>, states: seq<L.State>, events: seq<L.Event>,
                  n: nat, id: nat, l: nat) returns (q: nat, j: nat)
    requires AllSealable(c, recs) && AllOpen(c, key, recs) && L.IsRun(states, events) && n < |states|
    requires id in states[n].snaps && id in states[n].hub.home && L.OneLoop(events, states[n].hub.home[id], l)
    requires L.Payloads(states[n].log, states[n].hub.home[id]) <= Seals(c, recs)
    ensures id in states[n].views
    ensures var snap, page := states[n].snaps[id], Received(states[n], id);
            && q <= snap.hi && snap.lo <= snap.hi <= |recs| && q + j <= |recs|
            && (forall f :: f in page ==> FrameReads(f))
            && ShownAll(c, key, page) == Readable(recs[snap.lo..snap.hi], key) + Readable(recs[q..q + j], key)
    ensures L.CaughtUp(states[n], id) ==> j == |Binaries(L.Spoken(states[n].views[id].covers))|
  {
    L.SnapshotMeetsStream(states, events, n, id, l);
    q, j := PageReads(c, key, recs, recs, states, events, n, id);
  }

  lemma JoinedReads(c: Cipher, key: Blob, stored: seq<Record>, published: seq<Record>, snap: L.Snap, v: L.View,
                    q: nat, j: nat)
    requires AllSealable(c, stored) && AllOpen(c, key, stored) && AllSealable(c, published)
    requires Joined(c, key, stored, published, snap, v, q, j)
    ensures var page := CatchUp(snap.history) + Binaries(v.frames);
            && (forall f :: f in page ==> FrameReads(f))
            && ShownAll(c, key, page) == Readable(stored[snap.lo..snap.hi], key) + Readable(published[q..q + j], key)
  {
    StretchOk(c, key, stored, snap.lo, snap.hi);
    ReadsOn(c, key, stored[snap.lo..snap.hi], Binaries(v.frames));
  }

  lemma ReadsOn(c: Cipher, key: Blob, held: seq<Record>, frames: seq<Blob>)
    requires AllSealable(c, held) && AllOpen(c, key, held) && forall f :: f in frames ==> FrameReads(f)
    ensures forall f :: f in CatchUp(Seals(c, held)) + frames ==> FrameReads(f)
    ensures ShownAll(c, key, CatchUp(Seals(c, held)) + frames) == Readable(held, key) + ShownAll(c, key, frames)
  {
    CatchUpReads(c, key, held);
    ReadOnAfter(c, key, held, frames);
  }

  lemma CatchUpReads(c: Cipher, key: Blob, held: seq<Record>)
    requires AllSealable(c, held) && AllOpen(c, key, held)
    ensures FrameReads(Concat(Seals(c, held)))
    ensures Shown(c, key, Concat(Seals(c, held))) == Readable(held, key)
  {
    if held != [] {
      Agent.SealedPasses(c, held[0], Concat(Seals(c, held)[1..]));
    }
    SealedChunksReadBack(c, key, held);
  }

  lemma ReadOnAfter(c: Cipher, key: Blob, held: seq<Record>, frames: seq<Blob>)
    requires AllSealable(c, held) && AllOpen(c, key, held)
    ensures ShownAll(c, key, CatchUp(Seals(c, held)) + frames) == Readable(held, key) + ShownAll(c, key, frames)
  {
    if held == [] {
      assert CatchUp(Seals(c, held)) + frames == frames;
    } else {
      CatchUpReads(c, key, held);
      var first := Concat(Seals(c, held));
      assert ([first] + frames)[1..] == frames;
    }
  }

  /** The command-line reader of the same room goes on exactly as long as every record
      it is sent, from the history and live, was sealed under its key. It has then said
      exactly those records with nothing left over. Otherwise it has stopped, finding
      its key to be wrong, and has said some of those before the first foreign one. */
  lemma FollowerReads(c: Cipher, key: Blob, stored: seq<Record>, published: seq<Record>, states: seq<L.State>,
                      events: seq<L.Event>, n: nat, id: nat) returns (q: nat, j: nat, i: nat)
    requires L.IsRun(states, events) && n < |states| && id in states[n].snaps && id in states[n].hub.home
    requires SealedRoom(c, key, stored, published, states[n], states[n].hub.home[id])
    ensures id in states[n].views && q == |Binaries(states[n].views[id].missed)|
    ensures var snap := states[n].snaps[id];
            && snap.lo <= snap.hi <= |stored| && q + j <= |published|
            && Followed(c, key, stored[snap.lo..snap.hi] + published[q..q + j], Received(states[n], id), i)
  {
    q, j := JoinedInRun(c, key, stored, published, states, events, n, id);
    var snap := states[n].snaps[id];
    StretchOk(c, key, stored, snap.lo, snap.hi);
    i := FollowsJoined(c, key, stored[snap.lo..snap.hi], published, q, j, Binaries(states[n].views[id].frames));
  }

  /** What the command-line reader does with frames that hold the records `sent`. */
  ghost predicate Followed(c: Cipher, key: Blob, sent: seq<Record>, frames: seq<Blob>, i: nat) {
    var f := Agent.HearAll(c, key, frames);
    && (f.stopped.None? <==> Agent.UnderKey(key, sent))
    && (f.stopped.None? ==> f.out == Agent.Said(sent) && f.buf == [])
    && (f.stopped.Some? ==> f.stopped == Some(Agent.BadKey))
    && i <= |sent| && Agent.UnderKey(key, sent[..i]) && f.out == Agent.Said(sent[..i])
  }

  lemma FollowsJoined(c: Cipher, key: Blob, held: seq<Record>, published: seq<Record>, q: nat, j: nat,
                      frames: seq<Blob>) returns (i: nat)
    requires AllSealable(c, held) && AllOpen(c, key, held) && AllSealable(c, published) && AllOpen(c, key, published)
    requires ReadsStretch(c, key, published, q, j, frames)
    ensures Followed(c, key, held + published[q..q + j], CatchUp(Seals(c, held)) + frames, i)
  {
    StretchOk(c, key, published, q, q + j);
    i := FollowsOn(c, key, held, published[q..q + j], frames);
  }

  /** After a history frame of `held`, live frames of `live`. */
  lemma FollowsOn(c: Cipher, key: Blob, held: seq<Record>, live: seq<Record>, frames: seq<Blob>) returns (i: nat)
    requires AllSealable(c, held) && AllSealable(c, live) && AllOpen(c, key, held) && AllOpen(c, key, live)
    requires Concat(frames) == Concat(Seals(c, live)) && forall f :: f in frames ==> FrameReads(f)
    ensures Followed(c, key, held + live, CatchUp(Seals(c, held)) + frames, i)
  {
    HeardBytes(c, key, held, frames);
    SealsAppend(c, held, live);
    ConcatAppend(Seals(c, held), Seals(c, live));
    i := FollowsWhole(c, key, held + live, CatchUp(Seals(c, held)) + frames);
  }

  lemma HeardBytes(c: Cipher, key: Blob, held: seq<Record>, frames: seq<Blob>)
    requires AllSealable(c, held) && AllOpen(c, key, held) && forall f :: f in frames ==> FrameReads(f)
    ensures Agent.FirstPasses(CatchUp(Seals(c, held)) + frames)
    ensures Concat(CatchUp(Seals(c, held)) + frames) == Concat(Seals(c, held)) + Concat(frames)
  {
    var heard := CatchUp(Seals(c, held)) + frames;
    if held == [] {
      assert heard == frames && [] + Concat(frames) == Concat(frames);
      if frames != [] {
        assert frames[0] in frames && [frames[0]][0] == frames[0];
      }
    } else {
      CatchUpReads(c, key, held);
      assert heard[1..] == frames && [heard[0]][0] == heard[0];
    }
  }

  lemma SealsAppend(c: Cipher, xs: seq<Record>, ys: seq<Record>)
    requires AllSealable(c, xs) && AllSealable(c, ys)
    ensures AllSealable(c, xs + ys) && Seals(c, xs + ys) == Seals(c, xs) + Seals(c, ys)
  {
  }

  /** A whole stream, however cut, is followed exactly when its records are all under
      the reader's key. */
  lemma FollowsWhole(c: Cipher, key: Blob, sent: seq<Record>, heard: seq<Blob>) returns (i: nat)
    requires AllSealable(c, sent) && AllOpen(c, key, sent)
    requires Agent.FirstPasses(heard) && Concat(heard) == Agent.Stream(c, sent)
    ensures Followed(c, key, sent, heard, i)
  {
    Agent.FollowedStream(c, key, sent, heard);
    Agent.FirstOfStream(c, sent, heard);
    Agent.WholeInAll(c, sent);
    assert sent[..|sent|] == sent;
    i := Agent.SaidBeforeForeign(c, key, sent, heard);
  }

  lemma SealsStretch(c: Cipher, recs: seq<Record>, a: nat, s: nat)
    requires AllSealable(c, recs) && a <= s <= |recs|
    ensures Seals(c, recs[a..s]) == Seals(c, recs)[a..s]
  {
  }
}
