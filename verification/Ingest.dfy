/** The receive loop of one broadcasting connection (`ws_ingest_loop` and its
    helpers in src/server/mod.rs).

    Other tasks may change the rooms table between any two frames, so nothing
    here relies on it staying as this loop left it. */
module Ingest {
  import opened Prelude
  import opened Rooms
  import opened Fanout
  import History

  const MAX_INGEST_FRAME: nat := MIB
  const MAX_CONTROL_FRAME: nat := 4 * 1024

  /** A `size` value is kept verbatim; it counts only with both dimensions. */
  datatype SizeValue = SizeValue(json: string, hasDimensions: bool)

  datatype Body = Body(delete: bool, reset: bool, size: Option<SizeValue>)

  /** What waiting for a frame gives; `body` is what the text parses to. */
  datatype Incoming =
    | Binary(bytes: Blob)
    | Text(length: nat, body: Option<Body>)
    | Ping
    | Pong
    | CloseFrame
    | Silence
    | Failure

  /** What a frame asks for. */
  datatype Request = Store(bytes: Blob) | Resize(json: string) | Refresh | Clear | Remove | Stop

  function Understood(f: Incoming): (r: Request) {
    match f
    case Binary(bytes) => if |bytes| > MAX_INGEST_FRAME then Stop else Store(bytes)
    case Text(length, body) =>
      if length > MAX_INGEST_FRAME then Stop
      else if length > MAX_CONTROL_FRAME || body.None? then Refresh
      else if body.value.delete then Remove
      else if body.value.reset then Clear
      else if body.value.size.Some? && body.value.size.value.hasDimensions then Resize(body.value.size.value.json)
      else Refresh
    case Ping => Refresh
    case Pong => Refresh
    case CloseFrame => Stop
    case Silence => Stop
    case Failure => Stop
  }

  /** The rooms table after a request; a refusal leaves it alone. */
  function TableAfter(db: Db, now: nat, id: string, secret: string, r: Request): (after: Db) {
    match r
    case Store(bytes) => Append(db, now, id, secret, None, Some(bytes)).0
    case Resize(json) => Append(db, now, id, secret, Some(json), None).0
    case Refresh => Append(db, now, id, secret, None, None).0
    case Clear => Reset(db, now, id, secret).0
    case Remove => Delete(db, now, id, secret).0
    case Stop => db
  }

  /** Nobody else holds the room. */
  predicate Admits(db: Db, id: string, secret: string) {
    id in db ==> db[id].password == secret
  }

  // ---- What each frame does ----

  predicate OverLong(f: Incoming) {
    (f.Binary? && |f.bytes| > 1024 * 1024) || (f.Text? && f.length > 1024 * 1024)
  }

  /** A text that is read: short enough, and parsed. */
  predicate Read(f: Incoming) { f.Text? && f.length <= 4096 && f.body.Some? }

  predicate Deletes(f: Incoming) { Read(f) && f.body.value.delete }

  predicate Resets(f: Incoming) { Read(f) && !f.body.value.delete && f.body.value.reset }

  predicate Sizes(f: Incoming) {
    && Read(f) && !f.body.value.delete && !f.body.value.reset
    && f.body.value.size.Some? && f.body.value.size.value.hasDimensions
  }

  /** The connection is over, or the frame ends it. */
  predicate Ends(f: Incoming) {
    f.CloseFrame? || f.Silence? || f.Failure? || OverLong(f) || Deletes(f)
  }

  /** Pings, pongs, and texts that ask for nothing. */
  predicate OnlyAlive(f: Incoming) {
    f.Ping? || f.Pong? || (f.Text? && !OverLong(f) && !Deletes(f) && !Resets(f) && !Sizes(f))
  }

  /** Every frame is of one kind. */
  lemma FrameAsks(f: Incoming)
    ensures var r := Understood(f);
            && (r.Store? <==> f.Binary? && !OverLong(f)) && (r.Store? ==> r.bytes == f.bytes)
            && (r.Resize? <==> Sizes(f)) && (r.Resize? ==> r.json == f.body.value.size.value.json)
            && (r.Clear? <==> Resets(f)) && (r.Remove? <==> Deletes(f)) && (r.Refresh? <==> OnlyAlive(f))
            && (r.Stop? <==> Ends(f) && !Deletes(f))
  {
  }

  /** A room that is only kept alive: claimed if it was free, else as it was. */
  predicate KeptAlive(before: Db, after: Db, now: nat, id: string, secret: string) {
    && id in after
    && after[id] == (if id in before then before[id] else Room(secret, [], None, None, 0, 0)).(lastActivity := now)
  }

  /** What an admitted frame does to its room, the frame read off directly. */
  ghost predicate FrameDone(before: Db, after: Db, now: nat, id: string, secret: string, f: Incoming) {
    && OthersStay(before, after, id)
    && (OnlyAlive(f) ==> KeptAlive(before, after, now, id, secret))
    && (Sizes(f) ==>
          && id in after && after[id].lastActivity == now && after[id].size == Some(f.body.value.size.value.json)
          && after[id].messages == (if id in before then before[id].messages else []))
    && (f.Binary? && !OverLong(f) ==>
          && id in after && after[id].lastActivity == now
          && after[id].size == (if id in before then before[id].size else None))
    && (Resets(f) && id in before && before[id].broadcasters <= 1 ==>
          id in after && after[id] == before[id].(messages := [], lastActivity := now))
    && (Resets(f) && (id in before ==> before[id].broadcasters > 1) ==> after == before)
    && (Deletes(f) ==> id !in after)
    && (Ends(f) && !Deletes(f) ==> after == before)
  }

  lemma FrameDoes(db: Db, now: nat, id: string, secret: string, f: Incoming)
    requires Admits(db, id, secret)
    ensures FrameDone(db, TableAfter(db, now, id, secret, Understood(f)), now, id, secret, f)
  {
    FrameAsks(f);
  }

  function PayloadsOf(items: seq<Item>): (payloads: seq<Blob>) {
    if items == [] then []
    else
      var front, last := PayloadsOf(items[..|items| - 1]), items[|items| - 1];
      if last.payload.Some? then front + [last.payload.value] else front
  }

  /** Exactly the stored frames went to this room's viewers, in that order. */
  ghost predicate Forwarded(published: seq<Item>, stored: seq<Blob>, id: string) {
    && PayloadsOf(published) == stored
    && forall i :: 0 <= i < |published| ==> published[i].room == id
  }

  lemma ForwardedOneMore(published: seq<Item>, stored: seq<Blob>, id: string, item: Item)
    requires Forwarded(published, stored, id) && item.room == id
    ensures Forwarded(published + [item], if item.payload.Some? then stored + [item.payload.value] else stored, id)
  {
    assert (published + [item])[..|published|] == published;
  }

  /** `n` is the byte count of the first few frames stored. */
  ghost predicate CountsStored(n: nat, stored: seq<Blob>) {
    exists k: nat :: k <= |stored| && n == Total(stored[..k])
  }

  /** Every ack is the byte count of the frames stored when it was sent. */
  ghost predicate AcksCumulative(acks: seq<nat>, stored: seq<Blob>) {
    forall i :: 0 <= i < |acks| ==> CountsStored(acks[i], stored)
  }

  lemma AcksStayCumulative(acks: seq<nat>, stored: seq<Blob>, more: Blob)
    requires AcksCumulative(acks, stored)
    ensures AcksCumulative(acks, stored + [more])
  {
    forall i | 0 <= i < |acks| ensures CountsStored(acks[i], stored + [more]) {
      var k: nat :| k <= |stored| && acks[i] == Total(stored[..k]);
      assert (stored + [more])[..k] == stored[..k];
    }
  }

  /** A storing request keeps the room: owned, fresh, and with the frame as the
      newest of its history. */
  lemma StoredIsNewest(db: Db, now: nat, id: string, secret: string, bytes: Blob)
    requires Admits(db, id, secret) && bytes != []
    ensures var after := TableAfter(db, now, id, secret, Store(bytes));
            && Owns(after, id, secret) && after[id].lastActivity == now
            && after[id].messages != [] && after[id].messages[|after[id].messages| - 1] == bytes
  {
    var before := if id in db then db[id].messages else [];
    var all := before + [bytes];
    History.TrimmedIsLongestFit(all, MAX_HISTORY_MESSAGES, MAX_HISTORY_BYTES);
    assert History.Fits(all[|all| - 1..], MAX_HISTORY_MESSAGES, MAX_HISTORY_BYTES);
  }

  function WithDuration(reported: seq<nat>, duration: Option<nat>): (after: seq<nat>) {
    if duration.Some? then reported + [duration.value] else reported
  }

  function Closed(d: Deletion): (duration: Option<nat>) { if d.Gone? then d.duration else None }

  class Loop {
    const rooms: Rooms
    const id: string
    const secret: string
    var receivedBytes: nat
    var acks: seq<nat>
    /** Items given to the fan-out, and resets announced to viewers. */
    var published: seq<Item>
    var resets: nat
    /** Lengths of the live segments this loop reported ended. */
    var ended: seq<nat>
    var running: bool
    /** Binary frames the room accepted. */
    ghost var stored: seq<Blob>

    /** Whatever other tasks do to the table: acks count stored bytes only, and
        exactly the stored frames went to viewers, in the order stored. */
    ghost predicate Valid() reads this {
      && receivedBytes == Total(stored)
      && AcksCumulative(acks, stored)
      && Forwarded(published, stored, id)
    }

    constructor (rooms: Rooms, id: string, secret: string)
      ensures Valid() && running && stored == [] && acks == [] && published == [] && ended == [] && resets == 0
      ensures this.rooms == rooms && this.id == id && this.secret == secret
    {
      this.rooms, this.id, this.secret := rooms, id, secret;
      receivedBytes, acks, published, resets, ended, running, stored := 0, [], [], 0, [], true, [];
    }

    /** Store and forward; `None` out of `size` and `message` just refreshes. */
    method Ingest(now: nat, size: Option<string>, message: Option<Blob>) returns (ok: bool)
      requires rooms.Valid() && Forwarded(published, stored, id)
      modifies rooms, this`published, this`stored
      ensures rooms.Valid()
      ensures ok ==> rooms.accepted == old(rooms.accepted)[id := old(Past()) + Kept(message)]
      ensures ok <==> old(Admits(rooms.inner, id, secret))
      ensures rooms.inner == Append(old(rooms.inner), now, id, secret, size, message).0
      ensures published == if ok then old(published) + [Item(id, size, message)] else old(published)
      ensures stored == if ok && message.Some? then old(stored) + [message.value] else old(stored)
      ensures Forwarded(published, stored, id)
    {
      var appended := rooms.Record(now, id, secret, size, message);
      ok := !appended.Unauthorized?;
      if ok {
        var item := Item(id, size, message);
        ForwardedOneMore(published, stored, id, item);
        published := published + [item];
        if message.Some? {
          stored := stored + [message.value];
        }
      }
    }

    /** What the room had accepted so far. */
    ghost function Past(): (messages: seq<Blob>) reads rooms {
      if id in rooms.inner && id in rooms.accepted then rooms.accepted[id] else []
    }

    method Refreshed(now: nat) returns (ok: bool)
      requires rooms.Valid()
      modifies rooms
      ensures rooms.Valid()
      ensures ok <==> old(Admits(rooms.inner, id, secret))
      ensures rooms.inner == TableAfter(old(rooms.inner), now, id, secret, Refresh)
    {
      var appended := rooms.Record(now, id, secret, None, None);
      ok := !appended.Unauthorized?;
    }

    /** One turn: handle what arrived at `now`; `sends` says whether an ack, if one is
        due, gets through. The loop goes on exactly when nothing ended it, the room is
        its own and a due ack got through. */
    method Handle(f: Incoming, now: nat, sends: bool)
      requires rooms.Valid() && Valid() && running
      modifies rooms, this
      ensures rooms.Valid() && Valid()
      ensures if old(id in rooms.inner && rooms.inner[id].password != secret) then rooms.inner == old(rooms.inner)
              else FrameDone(old(rooms.inner), rooms.inner, now, id, secret, f)
      ensures running <==>
                && !Ends(f) && !old(id in rooms.inner && rooms.inner[id].password != secret)
                && (f.Binary? || Sizes(f) ==> sends)
      ensures f.Binary? && !OverLong(f) && !old(id in rooms.inner && rooms.inner[id].password != secret) ==>
                && rooms.accepted == old(rooms.accepted)[id := old(Past()) + [f.bytes]]
                && published == old(published) + [Item(id, None, Some(f.bytes))]
      ensures ended == old(ended) + (if Deletes(f) && old(Owns(rooms.inner, id, secret))
                                     then Kept(LengthOf(old(rooms.inner)[id].liveSince, now)) else [])
      ensures rooms.inner == TableAfter(old(rooms.inner), now, id, secret, Understood(f))
      ensures var r, ok := Understood(f), old(Admits(rooms.inner, id, secret));
              && stored == (if ok && r.Store? then old(stored) + [r.bytes] else old(stored))
              && published == (if ok && r.Store? then old(published) + [Item(id, None, Some(r.bytes))]
                               else if ok && r.Resize? then old(published) + [Item(id, Some(r.json), None)]
                               else old(published))
              && acks == (if ok && sends && (r.Store? || r.Resize?) then old(acks) + [Total(stored)] else old(acks))
              && resets == old(resets) + (if ok && r.Clear? then 1 else 0)
              && running == (ok && !r.Stop? && !r.Remove? && ((r.Store? || r.Resize?) ==> sends))
      ensures ended == WithReport(old(ended), old(rooms.inner), now, Understood(f))
    {
      FrameAsks(f);
      if Admits(rooms.inner, id, secret) {
        FrameDoes(rooms.inner, now, id, secret, f);
      }
      match f {
        case Binary(bytes) =>
          if |bytes| > MAX_INGEST_FRAME {
            running := false;
          } else {
            HandleBinary(bytes, now, sends);
          }
        case Text(length, body) =>
          if length > MAX_INGEST_FRAME {
            running := false;
          } else if length > MAX_CONTROL_FRAME || body.None? {
            running := Refreshed(now);
          } else {
            HandleControl(body.value, now, sends);
          }
        case Ping =>
          running := Refreshed(now);
        case Pong =>
          running := Refreshed(now);
        case CloseFrame =>
          running := false;
        case Silence =>
          running := false;
        case Failure =>
          running := false;
      }
    }

    /** Deleting a live room reports its segment. */
    function WithReport(reported: seq<nat>, db: Db, now: nat, r: Request): (after: seq<nat>) {
      if !r.Remove? then reported else WithDuration(reported, Closed(Delete(db, now, id, secret).1))
    }

    method HandleBinary(bytes: Blob, now: nat, sends: bool)
      requires rooms.Valid() && Valid() && running
      modifies rooms, this`published, this`stored, this`receivedBytes, this`acks, this`running
      ensures rooms.Valid() && Valid()
      ensures old(Admits(rooms.inner, id, secret)) ==>
                rooms.accepted == old(rooms.accepted)[id := old(Past()) + [bytes]]
      ensures rooms.inner == TableAfter(old(rooms.inner), now, id, secret, Store(bytes))
      ensures var ok := old(Admits(rooms.inner, id, secret));
              && stored == (if ok then old(stored) + [bytes] else old(stored))
              && published == (if ok then old(published) + [Item(id, None, Some(bytes))] else old(published))
              && acks == (if ok && sends then old(acks) + [Total(stored)] else old(acks))
              && running == (ok && sends)
    {
      var ok := StoreFrame(bytes, now);
      if !ok {
        running := false;
        return;
      }
      Acknowledge(sends);
    }

    /** Store a frame and count its bytes. */
    method StoreFrame(bytes: Blob, now: nat) returns (ok: bool)
      requires rooms.Valid() && Valid()
      modifies rooms, this`published, this`stored, this`receivedBytes
      ensures rooms.Valid() && Valid() && ok == old(Admits(rooms.inner, id, secret))
      ensures ok ==> rooms.accepted == old(rooms.accepted)[id := old(Past()) + [bytes]]
      ensures rooms.inner == TableAfter(old(rooms.inner), now, id, secret, Store(bytes))
      ensures stored == (if ok then old(stored) + [bytes] else old(stored))
      ensures published == (if ok then old(published) + [Item(id, None, Some(bytes))] else old(published))
    {
      ok := Ingest(now, None, Some(bytes));
      if ok {
        TotalSnoc(old(stored), bytes);
        AcksStayCumulative(acks, old(stored), bytes);
        receivedBytes := receivedBytes + |bytes|;
      }
    }

    method Acknowledge(sends: bool)
      requires Valid()
      modifies this`acks, this`running
      ensures Valid() && acks == if sends then old(acks) + [Total(stored)] else old(acks)
      ensures running == (old(running) && sends)
    {
      if !sends {
        running := false;
        return;
      }
      assert stored[..|stored|] == stored;
      acks := acks + [receivedBytes];
    }

    method HandleControl(body: Body, now: nat, sends: bool)
      requires rooms.Valid() && Valid() && running
      modifies rooms, this
      ensures rooms.Valid() && Valid()
      ensures var r, ok := Understood(Text(0, Some(body))), old(Admits(rooms.inner, id, secret));
              && rooms.inner == TableAfter(old(rooms.inner), now, id, secret, r)
              && stored == old(stored)
              && published ==
                 (if ok && r.Resize? then old(published) + [Item(id, Some(r.json), None)] else old(published))
              && acks == (if ok && sends && r.Resize? then old(acks) + [Total(stored)] else old(acks))
              && resets == old(resets) + (if ok && r.Clear? then 1 else 0)
              && running == (ok && !r.Remove? && (r.Resize? ==> sends))
              && ended == WithReport(old(ended), old(rooms.inner), now, r)
    {
      if body.delete {
        HandleDelete(now);
      } else if body.reset {
        HandleReset(now);
      } else if body.size.Some? && body.size.value.hasDimensions {
        HandleSize(body.size.value.json, now, sends);
      } else {
        running := Refreshed(now);
      }
    }

    method HandleReset(now: nat)
      requires rooms.Valid() && Valid()
      modifies rooms, this`resets, this`running
      ensures rooms.Valid() && Valid() && running == old(Admits(rooms.inner, id, secret))
      ensures rooms.inner == TableAfter(old(rooms.inner), now, id, secret, Clear)
      ensures resets == old(resets) + (if running then 1 else 0)
    {
      running := rooms.Clear(now, id, secret);
      if running {
        resets := resets + 1;
      }
    }

    method HandleDelete(now: nat)
      requires rooms.Valid()
      modifies rooms, this`ended, this`running
      ensures rooms.Valid()
      ensures rooms.inner == TableAfter(old(rooms.inner), now, id, secret, Remove)
      ensures ended == WithReport(old(ended), old(rooms.inner), now, Remove) && !running
    {
      var deletion := rooms.Remove(now, id, secret);
      if deletion.Gone? && deletion.duration.Some? {
        ended := ended + [deletion.duration.value];
      }
      running := false;
    }

    method HandleSize(json: string, now: nat, sends: bool)
      requires rooms.Valid() && Valid() && running
      modifies rooms, this`published, this`stored, this`acks, this`running
      ensures rooms.Valid() && Valid()
      ensures rooms.inner == TableAfter(old(rooms.inner), now, id, secret, Resize(json))
      ensures var ok := old(Admits(rooms.inner, id, secret));
              && stored == old(stored)
              && published == (if ok then old(published) + [Item(id, Some(json), None)] else old(published))
              && acks == (if ok && sends then old(acks) + [Total(stored)] else old(acks))
              && running == (ok && sends)
    {
      running := Ingest(now, Some(json), None);
      if !running {
        return;
      }
      Acknowledge(sends);
    }

    /** Attach: `live` when viewers are told the room is live, `segment` when a
        new live segment is reported. */
    method Begin(now: nat) returns (live: bool, segment: bool)
      requires rooms.Valid()
      modifies rooms`inner
      ensures rooms.Valid()
      ensures rooms.inner == Attach(old(rooms.inner), now, id, secret).0
      ensures live <==> old(Owns(rooms.inner, id, secret))
      ensures segment <==> old(Owns(rooms.inner, id, secret) && rooms.inner[id].broadcasters == 0)
    {
      var count := rooms.Connected(now, id, secret);
      return count > 0, count == 1;
    }

    /** Detach: `offline` when viewers are told nobody broadcasts any more. */
    method End(now: nat) returns (offline: bool)
      requires rooms.Valid() && Valid()
      modifies rooms`inner, this`ended
      ensures rooms.Valid() && Valid()
      ensures rooms.inner == Detach(old(rooms.inner), now, id, secret).0
      ensures offline <==> old(id in rooms.inner ==>
                rooms.inner[id].broadcasters <= if rooms.inner[id].password == secret then 1 else 0)
      ensures ended == old(ended) + (if old(Owns(rooms.inner, id, secret) && rooms.inner[id].broadcasters <= 1)
                                     then Kept(LengthOf(old(rooms.inner)[id].liveSince, now)) else [])
    {
      var remaining, duration := rooms.Disconnected(now, id, secret);
      if duration.Some? {
        ended := ended + [duration.value];
      }
      return remaining == 0;
    }
  }

  /** The upgrade: claim the room or verify its password. */
  method Upgrade(rooms: Rooms, now: nat, id: string, secret: string) returns (claimed: Option<bool>)
    requires rooms.Valid()
    modifies rooms
    ensures rooms.Valid()
    ensures claimed.None? <==> old(!Admits(rooms.inner, id, secret))
    ensures claimed.None? ==> rooms.inner == old(rooms.inner)
    ensures claimed.Some? ==> Owns(rooms.inner, id, secret) && claimed.value == old(id !in rooms.inner)
    ensures rooms.inner == Append(old(rooms.inner), now, id, secret, None, None).0
  {
    var appended := rooms.Record(now, id, secret, None, None);
    match appended {
      case Claimed => return Some(true);
      case Verified => return Some(false);
      case Unauthorized => return None;
    }
  }
}
