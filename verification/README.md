# shellshare's live-stream path, verified

shellshare broadcasts a terminal: a command-line client reads output, seals it,
buffers it and writes it to a server over a WebSocket; the server stores a bounded
history per room and forwards frames to viewers; a web page or a command-line
reader opens the records and shows the bytes. Connections drop, several tasks
interleave, every queue is bounded, and frames are merged on the way. This project
models that path and proves what it guarantees.

Three kinds of module:

- Classes and methods in the source's own imperative form (`Transport`,
  `Broadcast`, `History`, `Rooms`, `Ingest`, `Viewers`, `Fanout`, `UserCount`,
  `Records`, `Agent`, `Screen`, `Sender`, `Stdin`, `Page`). Each method's contract
  ties the new state to a function of the old one.
- State machines over the same functions, in which every interleaving of the tasks
  is a run (`IngestProtocol`, `Delivery`, `Eviction`, `Segments`, `UserCount`,
  `Viewers`, `Live`, `Page`). The main theorems are invariants and consequences over all
  runs.
- Streaming against one-shot, printer against parser (`Utf8`, `Records`, `Agent`,
  `Stdin`, `Fanout`, `Path`).

How they meet:

- The invariant of the class `Transport.Transport` says that its state is the result
  of a legal run of `Transport.Step`; `IngestProtocol` interleaves exactly those
  steps with any number of server loops. What it proves of their wires is what
  `Delivery` asks of a connection (`Delivery.WiresAreSizeFirst`). `Vanishing` is one run of
  `Delivery`.
- `Rooms` calls `History.Pushed`; `Eviction`, `Segments`, `Ingest` and
  `Delivery.AppendLosesSize` run on the functions `Rooms` is proved equal to, and
  the timed loop of `Eviction` changes the table as the loop of `Ingest` does
  (`Eviction.HandlesAsIngest`).
- `Live` interleaves ingest loops that store and publish, what `Fanout.Coalesce` and
  `Fanout.Relay` promise, and viewers coming, taking their snapshot and going, over
  the hub of `Viewers`. `Path` follows the sealed records of `Records` through any run
  of `Live`, from the table to the page's reader and to the command-line reader of
  `Agent`. `UserCount` is joined to the same hub (`UserCount.RegistryIsCounted`).
- `Screen` composes the keyframe cadence with the history, and
  `Broadcast.KeyframeIsReplayed` takes the frames from the server's log of
  `IngestProtocol`, sealed or not, within the batch size `Sender` guarantees.
- The class `Rooms.Rooms` keeps what each room accepted since its claim or last clear;
  its invariant says of that what the room holds, with the caps written out.
- The class `Page.Room` keeps the run of events it has handled; after every handler
  `Page.ScreenIsPrefix` holds of it.

`dafny verify dfyconfig.toml` checks the whole project.

## What the proofs turned up

- A room's history can have 60 output frames behind its newest keyframe, not the 59
  that the comment in `src/server/rooms.rs:24-34` counts with
  (`Screen.SixtyDoFollow`). The conclusion drawn there still holds
  (`Screen.NewestKeyframeIsHeld`).
- `src/server/mod.rs:315-316` says that a loop whose room vanished before it attached
  ends on its first failed append. The append does not fail: it claims the room
  again, without a size unless it brings one (`Delivery.AppendLosesSize`). A viewer
  can then be sent content before any size, in its catch-up
  (`Vanishing.VanishedRoomLosesSize`) or, having joined before the claim, through its
  queue (`Vanishing.JoinedInBetweenLosesSize`). `Delivery.ContentFirstExactly` says
  exactly when, of all a viewer is sent: no size was stored between the room's last
  claim and the snapshot, and either a binary frame was stored since the history was
  last cleared or the queue starts with one. `Delivery.SizeBeforeContent` says that it
  cannot while the room lives.
- A live room is safe from the sweep exactly when the delay between an accepted
  handshake and its loop is at most 120 seconds (`Eviction.LiveRoomsAreSafeIff`).
  With a delay bounded by D, a live room was refreshed at most max(270, D + 180)
  seconds ago, against the 300 seconds of `BROADCASTER_GRACE`.
- The command-line reader does not follow every cut of an encrypted stream. It looks
  at its first message alone, and takes the stream for an unencrypted one unless that
  message is empty or holds the first record whole (`Agent.FollowedStream`, with the
  failing input in `Agent.CutInsideFirstRecord`). Every frame made of whole records
  passes (`Path.WholeFramePasses`), and a viewer of a room of sealed records is sent no
  other binary frame.
- It does not skip records under another key, as the page does, but stops at the first
  one. Behind this server it follows a room exactly as long as every record it is
  sent, from the history and live, is under its key (`Path.FollowerReads`).

## Model

| member | source | states |
|---|---|---|
| IngestProtocol.FirstStoreOrder | src/server/mod.rs:329-424 | In every reachable state, when any ingest loop, current or stale, stores a chunk, every older chunk is by then stored or was dropped by the client's cap |
| IngestProtocol.OnlyDroppedAreLate | src/cli/ws.rs:375-381 | Over every run, a chunk first stored behind a newer one is one the cap dropped; nothing else arrives out of order |
| IngestProtocol.AtLeastOnce | src/cli/ws.rs:204-225 | In every reachable state each chunk ever buffered was stored, was dropped by the cap, or is still owed, byte-identical and in original order |
| IngestProtocol.AckReleasesOnlyStored | src/cli/ws.rs:351-371 | A chunk that leaves the replay queue when an ack is read was stored by the server |
| IngestProtocol.AckLedgerHolds | src/cli/ws.rs:351-381 | In every reachable state the buffered byte count is exact and within 1 MiB; unacknowledged chunks exist only on a live connection, where acked, dropped and waiting bytes add up to the bytes written; no owed chunk exceeds the server's frame cap |
| IngestProtocol.FullAckReleasesAll | src/cli/ws.rs:351-371 | Acknowledging every byte written on the connection leaves nothing waiting |
| IngestProtocol.SizeBeforeContentOnWires | src/cli/ws.rs:275-302 | In every reachable state every connection's wire carries a size frame before its first binary frame |
| IngestProtocol.StoredFramesFit | src/server/mod.rs:329-424 | In every reachable state each stored chunk is non-empty and within the server's frame cap |
| IngestProtocol.LogIsFront | src/cli/ws.rs:275-302 | In every reachable state with at most one connection and nothing dropped, the server's log is a front of what was buffered: each chunk once, in order, none skipped |
| Transport.CappedKeepsYoungest | src/cli/ws.rs:212-224 | Over the cap, what stays is exactly the longest youngest part of the queue that fits, in order and untouched |
| Transport.BufferedKeepsLedger | src/cli/ws.rs:204-225 | Queuing a chunk moves written chunks into the dropped count byte for byte and leaves the connection alone |
| Transport.CoveredExactly | src/cli/ws.rs:358-371 | An ack of exactly the first k written chunks releases exactly those k |
| Transport.Transport.Connect | src/cli/ws.rs:133-177 | The first connection writes the reset frame; whether that write succeeds does not matter. The contracts of all later operations add no reset to the trace, so it is the only one |
| Transport.Transport.BufferChunk | src/cli/ws.rs:204-225 | The eviction loop leaves exactly the state `Buffered` gives, and the step joins the transport's run |
| Transport.Transport.ApplyAck | src/cli/ws.rs:351-371 | The release loop leaves exactly the state `Acked` gives: dropped bytes are credited before queued chunks |
| Transport.Transport.Disconnect | src/cli/ws.rs:375-381 | Everything unacknowledged is pending again, ahead of what was pending, in order |
| Transport.Transport.Handshake | src/cli/ws.rs:475-483 | A new connection starts with no size sent and both ack counters at zero |
| Transport.Transport.DrainAcks | src/cli/ws.rs:310-347 | Every waiting ack is applied, in order; the queue is only ever shortened from the front; the transport stays connected exactly when it was and reading found the connection alive |
| Transport.Transport.Link | src/cli/ws.rs:261-273 | A flush may write exactly when its connection survived reading or a handshake was tried and accepted; only a handshake that is tried and refused surfaces |
| Transport.Transport.WriteAll | src/cli/ws.rs:275-302 | With one more good write than pending chunks everything goes out behind the size; otherwise nothing owed is lost |
| Transport.Transport.Flush | src/cli/ws.rs:261-305 | Whatever the network does, the queue only loses a front part, and only through acks; given a connection and enough good writes everything is written behind the current size; exactly a refused handshake surfaces; no reset is written, on however many reconnects |
| Transport.Transport.Tick | src/cli/ws.rs:230-238 | Idle housekeeping loses nothing either, delivers what the network allows, and pings when a ping is due; it writes no reset |
| Broadcast.Broadcaster.Send | src/cli/ws.rs:182-195 | One send queues the sealed output and then the sealed keyframe, exactly when one is due; of what was owed and what is new only the oldest may be gone |
| Broadcast.KeyframeIsReplayed | src/server/rooms.rs:16-34 | When the chunks a client made are what its keyframer emitted, sealed or not, in batches as the sender makes them, then on a first connection with nothing dropped the newest stored keyframe and all behind it are in the history replayed to joiners |
| History.HistoryIsCanonical | src/protocol.rs:64-78 | After any pushes the stored chunks are exactly the longest suffix of the non-empty pushes that fits both caps, a lone chunk being allowed over the byte cap |
| History.LongestFitUnique | src/protocol.rs:64-78 | At most one sequence is the longest fitting suffix, so it says exactly what is stored |
| History.FittingSuffixIsHeld | src/protocol.rs:64-78 | Any suffix of the pushes that fits the caps is held whole |
| History.MessageHistory.Push | src/protocol.rs:64-78 | One push leaves the longest fitting suffix and keeps the byte counter exact |
| History.MessageHistory.Accumulated | src/protocol.rs:82-91 | The catch-up message is the concatenation of the stored chunks, or nothing when there are none |
| Rooms.Rooms.Record | src/server/rooms.rs:141-171 | Claims a free room or verifies its own, refreshes it, and adds size and message to what it has accepted, in one step; a foreign room is refused and unchanged, and so is every other room |
| Rooms.Rooms.HistoryIsNewest | src/server/rooms.rs:141-171 | Kept by every method: a room's history is the longest end of the messages it accepted since it was claimed or last cleared that fits 200 messages and 8 MiB, and its size the newest since its claim |
| Rooms.Rooms.SnapshotOf | src/server/rooms.rs:181-192 | A joiner is sent the newest size, the newest accepted messages that 200 messages and 8 MiB leave room for, run together, and whether somebody has been broadcasting within 300 seconds; reading refreshes nothing |
| Rooms.Rooms.Clear | src/server/rooms.rs:206-223 | Only the sole broadcaster's reset empties the history and refreshes; the size survives; any other changes nothing, and only a foreign password is refused |
| Rooms.Rooms.Connected | src/server/rooms.rs:230-241 | With the room's password one more broadcaster is counted, the first opening a live segment now; without it nothing happens |
| Rooms.Rooms.Disconnected | src/server/rooms.rs:251-268 | Detaching uncounts one, never below none, and with the last closes the live segment and returns its length; a foreign room is untouched |
| Rooms.Rooms.Remove | src/server/rooms.rs:273-287 | The room is gone, and the length of its open segment returned; only a foreign password is refused, and then nothing changes |
| Rooms.Rooms.EvictStale | src/server/rooms.rs:291-316 | Exactly the rooms used within the TTL, or with a broadcaster and used within 300 seconds, stay, each as it was; the rest are counted |
| Rooms.SweepLeaves | src/server/rooms.rs:297-313 | The same of the table a sweep computes, room by room, for every time and TTL |
| Segments.LiveExactlyWhileAttached | src/server/rooms.rs:225-287 | Over every run of attach, detach, reset, delete, reclaim and sweep, a segment is open exactly while a broadcaster is attached |
| Segments.SegmentsConserved | src/server/mod.rs:315-327 | Over every such run, segments started are those ended, still live or swept while live, and lived time is reported, running or swept time |
| Eviction.LiveRoomsAreSafe | src/server/mod.rs:284-438 | With upgrades within 120 s, in every reachable state a sweep at any TTL leaves every live room in the table as it was, the online dot is exact, and the attach count never exceeds the loops holding the password |
| Eviction.SweepSparesLive | src/server/rooms.rs:291-316 | The same over the step: in every such run, a sweep on the way leaves every live room as it was |
| Eviction.SweepIsExact | src/server/rooms.rs:291-316 | And of all rooms a sweep leaves exactly those used within the TTL, or live and used within 300 seconds |
| Eviction.LiveIsFresh | src/server/rooms.rs:291-316 | A room with a broadcaster counted was refreshed within max(270, upgrade + 180) seconds |
| Eviction.LateBroadcasterIsSwept | src/server/rooms.rs:206-223 | A concrete legal run, for every delay above 120 s, that ends with a broadcaster counted in a room that a sweep at TTL 0 takes out of the table |
| Eviction.HandlesAsIngest | src/server/mod.rs:329-424 | The timed loop changes the table, goes on, acknowledges and detaches as the loop of `Ingest` does for the same request |
| Eviction.LiveRoomsAreSafeIff | src/server/rooms.rs:36-42 | In all runs a sweep at any TTL leaves the live rooms if and only if the upgrade delay is at most 120 seconds |
| Ingest.Loop.Handle | src/server/mod.rs:329-424 | One turn of the loop, frame by frame: pings, pongs and texts that ask for nothing only refresh the room, a binary frame is added to what it accepted and published, a reset by the sole broadcaster empties the history, a full size is stored, a delete removes the room and reports its segment. The loop goes on exactly unless the connection or an over-long frame ends it, it deletes, the room is foreign, or a due ack fails |
| Ingest.FrameAsks | src/server/mod.rs:333-404 | Every frame is of exactly one kind: content, size, reset, delete, sign of life or end, by its length and its fields |
| Ingest.FrameDoes | src/server/mod.rs:333-404 | What each kind does to an admitted room, and that no other room notices |
| Ingest.Loop.Ingest | src/server/mod.rs:201-212 | Store first, publish only what was stored; the published payloads are the stored frames in order |
| Ingest.Loop.Begin | src/server/mod.rs:315-327 | Viewers are told of a broadcaster exactly when the attach counted; a segment is reported exactly when it was the first |
| Ingest.Loop.End | src/server/mod.rs:425-438 | Every loop ends with its detach; viewers are told exactly when no broadcaster is left, and a segment this closes is reported with its length |
| Ingest.Upgrade | src/server/mod.rs:241-266 | The handshake claims a free room, verifies its own, and refuses a foreign one unchanged |
| Ingest.StoredIsNewest | src/server/mod.rs:333-340 | After an accepted binary frame the room is owned, fresh, and has the frame as the newest of its history |
| Ingest.AcksStayCumulative | src/server/mod.rs:406-424 | Acks stay byte counts of a front part of the stored frames as more frames are stored |
| Viewers.ViewersHaveNoHoles | src/server/viewers.rs:56-97 | In every run, relayed plus queued is a prefix of everything sent to the room since the viewer registered, all of it while it is registered, never all of it once a full queue cost it its place |
| Viewers.Registry.Enter | src/server/viewers.rs:56-64 | Registration uses a new number, adds it to its room and starts with an empty queue |
| Viewers.Registry.Exit | src/server/viewers.rs:66-76 | Leaving removes the viewer from its room, and the room's entry with its last member; nobody else notices |
| Viewers.Registry.Count | src/server/viewers.rs:78-80 | The number of viewers registered for the room and not dropped since, which the room's entry indexes |
| Viewers.Registry.Broadcast | src/server/viewers.rs:93-97 | A member keeps its place and has the message at the end of its queue exactly when fewer than 2048 were waiting; otherwise it loses its place, and nobody else notices |
| Viewers.SendKeepsPlace | src/server/viewers.rs:93-97 | Viewer by viewer: registered after a message to a room if and only if it was, and, in that room, with fewer than 2048 waiting |
| Viewers.Registry.Receive | src/server/viewers.rs:248-285 | A viewer's task takes its queue from the front, one message at a time |
| Fanout.Coalesce | src/server/viewers.rs:316-380 | For any batch over any rooms, each emit stands for one single message, or for several whole payloads within 64 KiB, and those of a room are together exactly its items sent on their own; so the two streams show the same; two binary emits of a room are apart only where the next payload did not fit |
| Fanout.FanoutPass | src/server/viewers.rs:316-380 | A pass leaves in the queue of every viewer that stays registered what it held and then what shows exactly the items of the viewer's room, each sent on its own; a viewer with space for every item of its room keeps its place |
| Fanout.Relay | src/server/viewers.rs:444-496 | Each frame the socket takes stands for one message of the queue or several whole payloads within 1 MiB; together they stand for the queue, or for a front of it when a write fails, and show the same; two binary frames are apart only where the next payload did not fit |
| Fanout.RegroupingIsInvisible | src/server/viewers.rs:316-496 | Messages standing in order for groups of single ones show exactly what the single ones show |
| Fanout.SendAllSends | src/server/viewers.rs:85-97 | Every viewer's record of what was sent grows by exactly the emits of its room, in order, and no emit registers anyone |
| Fanout.PassReachesViewer | src/server/viewers.rs:93-97 | A viewer registered through a pass has exactly its room's emits added to its queue; one dropped on the way has the first of them |
| Fanout.PassKeepsPlace | src/server/viewers.rs:316-380 | A viewer whose queue has space for all the emits of its room is still registered after them |
| Fanout.AnnouncementCarriesSize | src/server/viewers.rs:352-355 | The size announced can be read off the announcement |
| Live.CoalescingIsInvisible | src/server/viewers.rs:316-496 | Over every interleaving of fan-out passes, sends, controls, joins, leaves, relay passes and failed writes, what a viewer's socket has taken shows a front of the stream sent item by item since it registered, and all of it once the viewer has caught up |
| Live.StreamIsTheItems | src/server/viewers.rs:316-380 | In every run that stream, without the controls that bypass the queue, is the room's items from where the viewer registered up to what the fan-out task has in hand |
| Live.SnapshotIsStored | src/server/viewers.rs:187-213 | In every run, with any number of ingest loops, a joiner's snapshot is a stretch of the payloads stored for its room |
| Live.SnapshotMeetsStream | src/server/viewers.rs:187-213 | With one ingest loop, in every run, a viewer's live stream has the order of what was stored and starts no later than where its snapshot ends |
| Fanout.MergedIsWhole | src/server/viewers.rs:450-463 | Merging frames made of whole payloads makes a frame of whole payloads |
| Delivery.JoinNeverMisses | src/server/viewers.rs:187-213 | Under every interleaving, each stored frame was trimmed or reset before the snapshot, is in the snapshot, in flight, waiting for the fan-out, or given to the viewer's queue, unless the viewer has lost its place |
| Delivery.SingleLoopHasNoGap | src/server/viewers.rs:187-213 | With one ingest loop, snapshot and queue are two consecutive stretches of the log that may overlap and leave no gap |
| Delivery.WiresAreSizeFirst | src/cli/ws.rs:275-302 | Every wire of every reachable state of `IngestProtocol` is one that a run of `Delivery` may attach |
| Delivery.SizeBeforeContent | src/server/viewers.rs:195-204 | While the room lives, every viewer is sent a size before its first binary frame, across reconnects, overlaps, resets, trims and joins |
| Delivery.AppendLosesSize | src/server/rooms.rs:141-171 | An accepted binary frame without a size leaves content without a size exactly when the room is new or had none, and claims it exactly when it is new |
| Delivery.BarrenExactly | src/server/viewers.rs:195-204 | Over every run, deletion and eviction under running loops included, a joiner's snapshot has content and no size exactly when no size was stored since the room's last claim and a binary frame was stored since its last clear |
| Delivery.ContentFirstExactly | src/server/viewers.rs:187-213 | Over every such run, of all a viewer is sent, catch-up and queue, a binary frame comes before any size exactly when no size was stored between the room's last claim and the snapshot, and a binary frame was stored since its last clear or is the first the queue was given |
| Delivery.LivingRoomIsNeverBarren | src/server/viewers.rs:195-204 | While the room lives no snapshot has content without a size |
| Vanishing.VanishedRoomLosesSize | src/server/mod.rs:315-316 | A concrete run in which a room vanishes under a running loop and a joiner's history is then content before any size |
| Vanishing.JoinedInBetweenLosesSize | src/server/mod.rs:315-316 | A concrete run in which a viewer joins between the vanishing and the next frame: its catch-up is empty and its queue brings content before any size |
| UserCount.CountsConverge | src/server/viewers.rs:391-403 | In every reachable state each room's members were last sent its exact size, or the room is queued or being processed, or an announcement is owed |
| UserCount.ExactAtQuiescence | src/server/viewers.rs:206-226 | With nothing queued, processed or owed, every viewer was last sent its room's exact size |
| UserCount.NothingExcluded | src/server/viewers.rs:56-97 | Whatever operation the registry may do next, the counts have a step for it |
| UserCount.RegistryIsCounted | src/server/viewers.rs:391-403 | Over every run of the registry, the tasks and the worker together, a full queue costing exactly the members the registry drops: with nothing outstanding every registered viewer was last told, and was sent, the size its room has in the registry |
| UserCount.UserCountPass | src/server/viewers.rs:391-403 | One pass over the announcements: each viewer of an announced room is sent one count, the number of viewers the room had, or loses its place to a full queue; nobody else notices |
| UserCount.DecimalReads | src/server/viewers.rs:399-400 | The digits written for a count read back as the count |
| UserCount.CountsDiffer | src/server/viewers.rs:399-400 | Two counts are never announced alike |
| Records.SplitIsFramed | public/javascript/room.js:113-149 | What the record parser splits is exactly the framing of the pieces it found |
| Records.FramedSplits | src/cli/crypto.rs:99-114 | Framed records are split back into the same records |
| Records.SplitConcat | public/javascript/room.js:113-149 | Splitting joined frames is splitting each, when the first is at a record boundary |
| Records.DecryptRecords | public/javascript/room.js:113-149 | The page's loop rejects exactly broken framing and otherwise yields the bodies that open, in order |
| Records.SealedChunksReadBack | src/cli/crypto.rs:99-114 | Sealed chunks, run together, are never rejected and read back as exactly the plaintexts under the reader's key, in order |
| Records.RegroupedChunksReadBack | public/javascript/room.js:107-149 | The same for every cut of the sealed chunks into frames that each split |
| Records.HistoryReadsBack | src/protocol.rs:54-78 | Whatever was trimmed, the replayed history of sealed chunks reads back as the plaintexts of the newest records |
| Records.SealAdds | src/cli/crypto.rs:99-114 | Sealing adds exactly 32 bytes |
| Path.RecordsSurvive | src/server/viewers.rs:316-496 | At any moment of any run of fan-out and relay, whatever was merged, whoever joined late and whichever write failed, no frame a viewer of an encrypted room was sent is rejected and they read as the records from where it registered up to some later one, in order; up to the last one sent once it has caught up |
| Path.PageReads | src/server/viewers.rs:187-213 | In every run, with any number of ingest loops, what a joined viewer was sent, history frame and live frames, is never rejected by the page and reads as the records of the snapshot and then those published from where it registered |
| Path.WholePath | src/server/viewers.rs:187-213 | With one ingest loop those are two stretches of one sequence, the second starting no later than the first ends: nothing from the snapshot's start to the last record relayed is missing |
| Path.FollowerReads | templates/agent.mjs:139-151 | The command-line reader sent the same frames goes on if and only if every record in them is under its key, having then said exactly those records with nothing left over; otherwise it stops with the wrong-key verdict, having said a front of those before the first foreign one |
| Path.WholeFramePasses | templates/agent.mjs:70-76 | A frame made of whole sealed records passes as the first message of an encrypted stream |
| Agent.Decode | templates/agent.mjs:48-66 | The loop with its clamped slices is the recursive decoding, and stops at a partial record |
| Agent.Follower.OnBinary | templates/agent.mjs:139-151 | One message: join the carry, look at the first message once, decode, keep the rest |
| Agent.StreamingIsOneShot | templates/agent.mjs:139-147 | However a stream is cut into messages: if the first message is empty or starts with a whole record, the reader says, carries and rejects what one decoding of the whole would; if not, it stops there and says nothing |
| Agent.TwoCutsAgree | templates/agent.mjs:139-147 | Two cuts of the same bytes lead to the same verdict if and only if both first messages pass or neither does, and to the same state when no reader stops |
| Agent.FollowedStream | templates/agent.mjs:139-147 | For every cut of any front of a stream of sealed records, under whatever keys, the reader follows it if and only if its first message is empty or holds the first record whole and every whole record received is under its key; it has then said exactly those and carries the rest, and otherwise has stopped with the verdict of the condition that failed |
| Agent.SaidBeforeForeign | templates/agent.mjs:48-66 | Stopped or not, the reader has said exactly a front of the records, all under its key |
| Agent.CutInsideFirstRecord | templates/agent.mjs:139-147 | The failing input: cut one byte into its first record, any stream under the reader's key, which would be followed whole, is given up |
| Agent.FirstMessageDecides | templates/agent.mjs:70-76 | A front of a sealed stream is taken for an encrypted stream exactly when it holds the first record whole |
| Agent.TextIsNoticed | templates/agent.mjs:70-76 | Whatever follows, the reader takes a stream for unencrypted exactly when its first message holds something but not a whole record claiming at least 28 bytes, and it has then said nothing |
| Utf8.ValidIsChar | src/cli/screen.rs:117-142 | A character is recognised exactly where the grammar of section 4 of RFC 3629 has one |
| Utf8.IncompleteIsUnfinished | src/cli/screen.rs:135-139 | A tail is called incomplete exactly when some bytes would complete it to a character |
| Utf8.InvalidIsMaximal | src/cli/screen.rs:140-141 | What is skipped is the longest part that could have started a character, or one byte, and holds no character |
| Utf8.SplitsDoNotMatter | src/cli/screen.rs:113-150 | For every split into frames the decoded text and the carry equal those of one pass over the whole stream |
| Utf8.ValidationMeaning | src/cli/screen.rs:117-142 | Feeding the valid part and going on behind the fault continues the one pass |
| Screen.Keyframer.Feed | src/cli/screen.rs:56-63 | A non-empty frame is counted and its text is that of one pass over carry and frame; the carry is at most 3 bytes |
| Screen.Keyframer.FeedBytes | src/cli/screen.rs:113-150 | The loop ends on every input, and the over-long carry is never cleared: what is carried is exactly the incomplete tail |
| Screen.Keyframer.MaybeKeyframe | src/cli/screen.rs:67-94 | A keyframe comes out exactly when sixty frames were counted and the dump enters the alternate screen without leaving it, non-empty and free of 8-bit CSI; a due check always resets the count |
| Screen.Keyframer.ApplyResize | src/cli/screen.rs:96-107 | Each dimension becomes the larger of what is given and one, and exactly a change makes a keyframe due |
| Screen.SendBrings | src/cli/screen.rs:56-107 | One send brings its data, if any, and behind it a redraw exactly when the size changed or the sixtieth frame is reached, on the alternate screen |
| Screen.ResizeBringsKeyframe | src/cli/screen.rs:96-107 | On the alternate screen the send after a change of size ends with the redraw, with or without data |
| Screen.NoKeyframeBefore | src/cli/screen.rs:67-70 | At an unchanged size and below sixty frames a send brings nothing but its data |
| Screen.RewrittenAt | src/cli/screen.rs:91-93 | The redraw differs from the dump exactly in the two bytes of each 8-bit CSI |
| Screen.NothingBanked | src/cli/screen.rs:71-74 | Between sends fewer frames are counted than a keyframe needs, whatever the screens were |
| Screen.AtMostSixtyFollow | src/cli/screen.rs:56-107 | Staying on the alternate screen, in any prefix of what is emitted at most 60 outputs follow the newest keyframe |
| Screen.SteadySends | src/cli/screen.rs:56-72 | After the send that brings a keyframe, the next 59 steady sends emit their output and nothing else |
| Screen.SixtyDoFollow | src/server/rooms.rs:20-34 | The bound of sixty is reached: a front of what 61 steady sends emit has 60 outputs behind its newest keyframe |
| Screen.NewestKeyframeIsHeld | src/server/rooms.rs:16-34 | Once a keyframe is stored, the newest one and everything after it is in the 200-message, 8 MiB history |
| Sender.Coalesce | src/cli/script.rs:223-236 | A batch is the first read and consecutive queued ones, stopping only at 64 KiB or an empty queue, and at most 69,631 bytes |
| Sender.SendAll | src/cli/script.rs:211-241 | However many reads are queued at each turn, all go out once and in order |
| Stdin.LfToCrlf | src/cli/mod.rs:389-398 | Converting a chunk with the one carried bit continues the one-shot conversion of all bytes so far |
| Stdin.NoBareLf | src/cli/mod.rs:380-398 | Every line feed of the result follows a carriage return |
| Stdin.AlreadyConverted | src/cli/mod.rs:380-398 | Input without bare line feeds is left alone |
| Stdin.ConvertingAgainChangesNothing | src/cli/mod.rs:380-398 | Conversion is idempotent |
| Stdin.OnlyLineEndingsChange | src/cli/mod.rs:380-398 | Undoing CRLF gives the same text on both sides: nothing but line endings changes |
| Stdin.StreamStdin | src/cli/mod.rs:411-517 | For every chunking and any idle ticks, the bytes given to the transport are the one-shot conversion of the bytes read; the loop ends exactly on a forced exit, end of input or a lost room, and only the last skips the flush |
| Stdin.Signals.OnSignal | src/cli/mod.rs:342-361 | An exit is forced exactly by a second signal or by any other than the interrupt |
| Stdin.Signals.OnCtrlC | src/cli/mod.rs:366-378 | On a console the second Ctrl+C forces the exit, and nothing else |
| Page.ScreenIsPrefix | public/javascript/room.js:160-196 | Over every interleaving, what is shown or pending since the last clear is the in-order plaintext of a prefix of the messages received since it: all but those still being decrypted |
| Page.ScreenShowsRecords | public/javascript/room.js:113-196 | When the messages are sealed records, however many were merged into each, the screen shows exactly the plaintexts of those under the page's key, of all messages since the last clear but the ones still being decrypted, in order |
| Page.KeylessShowsBytes | public/javascript/room.js:411-450 | A page without a key shows exactly the bytes received since the last clear and before it was told that the room is encrypted |
| Page.UnusableKeyShowsNothing | public/javascript/room.js:411-428 | With a broken key, or one that cannot be imported, nothing is ever shown |
| Page.Room.ClearScreen | public/javascript/room.js:327-334 | A clear starts a new epoch and chain, drops pending writes and queues the terminal reset |
| Page.Room.OnOpen | public/javascript/room.js:339-347 | Every opening but the first clears |
| Page.Room.OnMessage | public/javascript/room.js:411-428 | A message is queued for decryption, written, or dropped, by the link's key and the room's encryption |
| Page.Room.OnReset | public/javascript/room.js:370-372 | A reset control clears |
| Page.Room.OnSize | public/javascript/room.js:440-450 | An encrypted room's size makes a page without a key render no more bytes, and no other page any fewer |
| Page.Room.OnFinished | public/javascript/room.js:167-188 | The oldest job of a chain finishes; its chunks are written in order, and only in the current epoch |
| Page.Room.CreateTerminal | public/javascript/room.js:258-261 | The new terminal is first given everything pending, in order |
| Page.WrittenShows | public/javascript/room.js:190-196 | Writing appends to what is visible, whether or not the terminal exists |

## Left out

- Sockets, TLS, name resolution and dialling: a connection is a wire that delivers in order and may fail; backing off is an input of `Flush`, without its clock.
- `shutdown`'s timed wait for acks, and the window after it: the accounting theorems are about states before shutdown.
- A failed write whose frame still arrived appends to the same wire; frames the kernel loses behind it are a shorter wire.
- Cipher, key derivation and nonces: a pair of functions of which only `Sealable` and `Opens` are asked, record by record.
- A plaintext link opened by the command-line reader, its escape stripping and text decoding, and its live/ending timers: `Agent` follows the bytes of an encrypted stream.
- The terminal emulator: what its dump contains is an input of `MaybeKeyframe`, and the order of resizes against its text is not kept.
- JSON parsing and serialization: a control frame arrives as the fields the loop looks at.
- The order of `reset` and `broadcasting` controls against queued bytes: they bypass the fan-out queue by design, so nothing is claimed.
- A late reset can still clear a reconnected session's data once the older connection is gone: the guard counts connections, so no theorem says otherwise.
- Concurrency is modelled as state machines over atomic steps; the classes are the sequential code of each task.
- Counters are unbounded (`u64` byte counts do not wrap in the model); `frames_since` saturates as in the source.
- IngestProtocol.FirstStoreOrder: frames the room refuses end a loop and are not in the log; claims and passwords are in `Rooms`, `Ingest` and `Eviction`.
- Delivery.SizeBeforeContent: one room that is neither deleted nor evicted under a running loop, all of whose connections announce the size first; the exact condition without that is `Delivery.ContentFirstExactly`.
- Broadcast.KeyframeIsReplayed: on a first connection with nothing dropped by the client's cap; chunks stored again after a reconnect are not counted. That the chunks made are what the keyframer emitted is a hypothesis: `Broadcast.Broadcaster.Send` shows it of one send.
- Live.CoalescingIsInvisible: one fan-out task; the source runs several and assigns each room to one of them, so the items of a room never meet in two. Taking a batch off the queue and merging it is one step, and each send a step of its own.
- Path.WholePath: one ingest loop stores for the room; with several, the history has the order of storing and the live stream that of publishing (`Path.PageReads`), and what is not missed is `Delivery.JoinNeverMisses`. How much of the history was trimmed is left open. Controls go between the records and are not read as any.
- The runtime's ciphers: that an empty authentication tag is refused, which `Agent.Open` says, is a fact about Node.
- Eviction.LiveRoomsAreSafe: at most one reset a connection, which is what the client sends.
- Page.ScreenIsPrefix: the empty messages the page ignores are not counted among those received.
- Process, PTY, QR code, argument and tunnel handling, page rendering, binaries, themes and analytics delivery: nothing on the path of the stream depends on them beyond the parameters the model takes, a terminal's bytes and size, a room and its password, a key.
