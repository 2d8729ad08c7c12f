/** Room lifecycle (src/server/rooms.rs): claiming, history, attach counts and
    eviction. Every operation is one critical section on one room; `now` is the
    clock it reads. */
module Rooms {
  import opened Prelude
  import History

  const MAX_HISTORY_MESSAGES: nat := 200
  const MAX_HISTORY_BYTES: nat := 8 * MIB
  /** A live room's deadline is never shorter than this many seconds. */
  const BROADCASTER_GRACE: nat := 300

  datatype Room = Room(
    password: string,
    messages: seq<Blob>,
    size: Option<string>,
    liveSince: Option<nat>,
    lastActivity: nat,
    broadcasters: nat)

  type Db = map<string, Room>

  datatype Appending = Claimed | Verified | Unauthorized

  datatype Snapshot = Snapshot(size: Option<string>, history: Option<Blob>, broadcasting: bool)

  datatype Deletion = Gone(duration: Option<nat>) | Refused

  function NewRoom(now: nat, secret: string): (r: Room) {
    Room(secret, [], None, None, now, 0)
  }

  predicate Owns(db: Db, id: string, secret: string) {
    id in db && db[id].password == secret
  }

  function Elapsed(now: nat, since: nat): (d: nat) {
    if since <= now then now - since else 0
  }

  /** What an accepted append leaves of an entry. */
  function Updated(room: Room, now: nat, size: Option<string>, message: Option<Blob>): (after: Room) {
    room.(
      lastActivity := now,
      size := if size.Some? then size else room.size,
      messages := if message.Some?
                  then History.Pushed(room.messages, message.value, MAX_HISTORY_MESSAGES, MAX_HISTORY_BYTES)
                  else room.messages)
  }

  function Append(db: Db, now: nat, id: string, secret: string, size: Option<string>, message: Option<Blob>)
    : (r: (Db, Appending))
  {
    var room := if id in db then db[id] else NewRoom(now, secret);
    if room.password != secret then (db, Unauthorized)
    else
      (db[id := Updated(room, now, size, message)], if id in db then Verified else Claimed)
  }

  function Reset(db: Db, now: nat, id: string, secret: string): (r: (Db, bool)) {
    if id !in db then (db, true)
    else if db[id].password != secret then (db, false)
    else if db[id].broadcasters > 1 then (db, true)
    else (db[id := db[id].(messages := [], lastActivity := now)], true)
  }

  function Attach(db: Db, now: nat, id: string, secret: string): (r: (Db, nat)) {
    if !Owns(db, id, secret) then (db, 0)
    else
      var room := db[id];
      (db[id := room.(liveSince := if room.broadcasters == 0 then Some(now) else room.liveSince,
                      broadcasters := room.broadcasters + 1)],
       room.broadcasters + 1)
  }

  function Detach(db: Db, now: nat, id: string, secret: string): (r: (Db, nat, Option<nat>)) {
    if id !in db then (db, 0, None)
    else if db[id].password != secret then (db, db[id].broadcasters, None)
    else
      var room := db[id];
      var left := if room.broadcasters == 0 then 0 else room.broadcasters - 1;
      if left > 0 then (db[id := room.(broadcasters := left)], left, None)
      else
        (db[id := room.(broadcasters := 0, liveSince := None)], 0,
         if room.liveSince.Some? then Some(Elapsed(now, room.liveSince.value)) else None)
  }

  function Delete(db: Db, now: nat, id: string, secret: string): (r: (Db, Deletion)) {
    if id !in db then (db, Gone(None))
    else if db[id].password != secret then (db, Refused)
    else
      (db - {id}, Gone(if db[id].liveSince.Some? then Some(Elapsed(now, db[id].liveSince.value)) else None))
  }

  /** Whether a sweep at `now` keeps a room: a live one gets at least the grace. */
  predicate Keeps(room: Room, now: nat, ttl: nat) {
    var deadline := if room.broadcasters > 0 && ttl < BROADCASTER_GRACE then BROADCASTER_GRACE else ttl;
    Elapsed(now, room.lastActivity) <= deadline
  }

  function Evict(db: Db, now: nat, ttl: nat): (after: Db) {
    map id | id in db && Keeps(db[id], now, ttl) :: db[id]
  }

  function Look(db: Db, now: nat, id: string): (s: Option<Snapshot>) {
    if id !in db then None
    else
      var room := db[id];
      Some(Snapshot(
        room.size,
        if room.messages == [] then None else Some(Concat(room.messages)),
        room.broadcasters > 0 && Elapsed(now, room.lastActivity) <= BROADCASTER_GRACE))
  }

  // ---- What a room holds ----

  function Kept<T>(more: Option<T>): (items: seq<T>) { if more.Some? then [more.value] else [] }

  function NewestOf(sizes: seq<string>): (size: Option<string>) {
    if sizes == [] then None else Some(sizes[|sizes| - 1])
  }

  /** `chunks` are the newest of the messages accepted: as many as 200 and 8 MiB
      leave room for. */
  ghost predicate Replays(chunks: seq<Blob>, accepted: seq<Blob>) {
    History.LongestFit(chunks, History.NonEmpty(accepted), 200, 8 * 1024 * 1024)
  }

  function Pushes(accepted: seq<Blob>): (chunks: seq<Blob>) {
    History.PushAll(accepted, MAX_HISTORY_MESSAGES, MAX_HISTORY_BYTES)
  }

  lemma PushesReplay(chunks: seq<Blob>, accepted: seq<Blob>)
    ensures Replays(chunks, accepted) <==> chunks == Pushes(accepted)
  {
    History.HistoryIsCanonical(accepted, MAX_HISTORY_MESSAGES, MAX_HISTORY_BYTES);
    if Replays(chunks, accepted) {
      History.LongestFitUnique(chunks, Pushes(accepted), History.NonEmpty(accepted), MAX_HISTORY_MESSAGES,
                               MAX_HISTORY_BYTES);
    }
  }

  /** What a joiner is to be sent of a history. */
  predicate Sends(history: Option<Blob>, chunks: seq<Blob>) {
    if chunks == [] then history.None? else history == Some(Concat(chunks))
  }

  /** Whether a sweep has to spare a room: used within the TTL, or live and used
      within 300 seconds. */
  predicate Spared(room: Room, now: nat, ttl: nat) {
    || now - room.lastActivity <= ttl
    || (room.broadcasters > 0 && now - room.lastActivity <= 300)
  }

  /** A sweep leaves exactly the rooms it has to spare, each as it was. */
  lemma SweepLeaves(db: Db, now: nat, ttl: nat, id: string)
    ensures id in Evict(db, now, ttl) <==> id in db && Spared(db[id], now, ttl)
    ensures id in Evict(db, now, ttl) ==> Evict(db, now, ttl)[id] == db[id]
  {
  }

  /** All rooms but `id` are as they were. */
  ghost predicate OthersStay(before: Db, after: Db, id: string) {
    before - {id} == after - {id}
  }

  /** A room holds what it was sent: the newest messages and the newest size. */
  ghost predicate Holds(room: Room, accepted: seq<Blob>, sizes: seq<string>) {
    Replays(room.messages, accepted) && room.size == NewestOf(sizes)
  }

  ghost predicate AllHold(db: Db, accepted: map<string, seq<Blob>>, sizes: map<string, seq<string>>) {
    && db.Keys == accepted.Keys == sizes.Keys
    && forall id {:trigger Holds(db[id], accepted[id], sizes[id])} ::
         id in db ==> Holds(db[id], accepted[id], sizes[id])
  }

  lemma EntryHolds(db: Db, accepted: map<string, seq<Blob>>, sizes: map<string, seq<string>>, id: string,
                   room: Room, messages: seq<Blob>, grown: seq<string>)
    requires AllHold(db, accepted, sizes) && Holds(room, messages, grown)
    ensures AllHold(db[id := room], accepted[id := messages], sizes[id := grown])
  {
    var db', accepted', sizes' := db[id := room], accepted[id := messages], sizes[id := grown];
    forall k | k in db' ensures Holds(db'[k], accepted'[k], sizes'[k]) {
      assert k != id ==> Holds(db[k], accepted[k], sizes[k]);
    }
  }

  lemma RoomHolds(db: Db, accepted: map<string, seq<Blob>>, sizes: map<string, seq<string>>, id: string)
    requires AllHold(db, accepted, sizes) && id in db
    ensures Holds(db[id], accepted[id], sizes[id])
  {
  }

  /** A change of an entry that leaves what it holds. */
  lemma SameHolds(db: Db, accepted: map<string, seq<Blob>>, sizes: map<string, seq<string>>, id: string, room: Room)
    requires AllHold(db, accepted, sizes) && id in db
    requires room.messages == db[id].messages && room.size == db[id].size
    ensures AllHold(db[id := room], accepted, sizes)
  {
    RoomHolds(db, accepted, sizes, id);
    EntryHolds(db, accepted, sizes, id, room, accepted[id], sizes[id]);
    assert accepted[id := accepted[id]] == accepted && sizes[id := sizes[id]] == sizes;
  }

  lemma SweptHolds(db: Db, left: Db, accepted: map<string, seq<Blob>>, sizes: map<string, seq<string>>)
    requires AllHold(db, accepted, sizes) && left.Keys <= db.Keys && forall id :: id in left ==> left[id] == db[id]
    ensures AllHold(left, accepted - (accepted.Keys - left.Keys), sizes - (sizes.Keys - left.Keys))
  {
    var accepted', sizes' := accepted - (accepted.Keys - left.Keys), sizes - (sizes.Keys - left.Keys);
    forall id | id in left ensures Holds(left[id], accepted'[id], sizes'[id]) {
      assert Holds(db[id], accepted[id], sizes[id]);
    }
  }

  lemma ReplaysOneMore(chunks: seq<Blob>, accepted: seq<Blob>, message: Blob)
    requires Replays(chunks, accepted)
    ensures Replays(History.Pushed(chunks, message, MAX_HISTORY_MESSAGES, MAX_HISTORY_BYTES), accepted + [message])
  {
    var after := History.Pushed(chunks, message, MAX_HISTORY_MESSAGES, MAX_HISTORY_BYTES);
    assert after == Pushes(accepted + [message]) by {
      assert chunks == Pushes(accepted) by { PushesReplay(chunks, accepted); }
      assert (accepted + [message])[..|accepted|] == accepted;
    }
    PushesReplay(after, accepted + [message]);
  }

  lemma NoneKept<T>(items: seq<T>)
    ensures items + Kept(None) == items
  {
  }

  lemma NewestGrows(sizes: seq<string>, size: Option<string>)
    ensures NewestOf(sizes + Kept(size)) == if size.Some? then size else NewestOf(sizes)
  {
    NoneKept(sizes);
  }

  lemma UpdatedHolds(room: Room, messages: seq<Blob>, grown: seq<string>, now: nat, size: Option<string>,
                     message: Option<Blob>)
    requires Holds(room, messages, grown)
    ensures Holds(Updated(room, now, size, message), messages + Kept(message), grown + Kept(size))
  {
    NewestGrows(grown, size);
    if message.Some? {
      ReplaysOneMore(room.messages, messages, message.value);
    } else {
      NoneKept(messages);
    }
  }

  method Update(room: Room, now: nat, size: Option<string>, message: Option<Blob>,
                ghost messages: seq<Blob>, ghost grown: seq<string>) returns (entry: Room)
    requires Holds(room, messages, grown)
    ensures entry == Updated(room, now, size, message) && Holds(entry, messages + Kept(message), grown + Kept(size))
  {
    entry := room.(lastActivity := now);
    if size.Some? {
      entry := entry.(size := size);
    }
    if message.Some? {
      entry := entry.(messages :=
        History.Pushed(entry.messages, message.value, MAX_HISTORY_MESSAGES, MAX_HISTORY_BYTES));
    }
    UpdatedHolds(room, messages, grown, now, size, message);
  }

  /** The rooms table. Each method changes one entry in place. */
  class Rooms {
    var inner: Db
    /** The messages each room accepted since it was claimed or last cleared, and the
        sizes since it was claimed. */
    ghost var accepted: map<string, seq<Blob>>
    ghost var sizes: map<string, seq<string>>

    ghost predicate Valid() reads this { AllHold(inner, accepted, sizes) }

    /** Every room's history is the newest of the messages it accepted. */
    lemma HistoryIsNewest(id: string)
      requires Valid() && id in inner
      ensures Replays(inner[id].messages, accepted[id]) && inner[id].size == NewestOf(sizes[id])
    {
      RoomHolds(inner, accepted, sizes, id);
    }

    constructor ()
      ensures Valid() && inner == map[]
    {
      inner, accepted, sizes := map[], map[], map[];
    }

    method Record(now: nat, id: string, secret: string, size: Option<string>, message: Option<Blob>)
      returns (r: Appending)
      requires Valid()
      modifies this
      ensures Valid() && (inner, r) == Append(old(inner), now, id, secret, size, message)
      ensures r.Unauthorized? <==> old(id in inner && inner[id].password != secret)
      ensures r.Claimed? <==> old(id !in inner)
      ensures r.Unauthorized? ==> inner == old(inner) && accepted == old(accepted) && sizes == old(sizes)
      ensures !r.Unauthorized? ==>
                && OthersStay(old(inner), inner, id) && Owns(inner, id, secret) && inner[id].lastActivity == now
                && inner[id].broadcasters == (if r.Claimed? then 0 else old(inner)[id].broadcasters)
                && inner[id].liveSince == (if r.Claimed? then None else old(inner)[id].liveSince)
      ensures !r.Unauthorized? ==>
                && accepted == old(accepted)[id := (if r.Claimed? then [] else old(accepted)[id]) + Kept(message)]
                && sizes == old(sizes)[id := (if r.Claimed? then [] else old(sizes)[id]) + Kept(size)]
    {
      if id !in inner {
        PushesReplay([], []);
        Put(now, id, NewRoom(now, secret), size, message, [], []);
        return Claimed;
      }
      if inner[id].password != secret {
        return Unauthorized;
      }
      RoomHolds(inner, accepted, sizes, id);
      Put(now, id, inner[id], size, message, accepted[id], sizes[id]);
      return Verified;
    }

    /** Store a room with what it accepted just now. */
    method Put(now: nat, id: string, room: Room, size: Option<string>, message: Option<Blob>,
               ghost past: seq<Blob>, ghost grown: seq<string>)
      requires Valid() && Holds(room, past, grown)
      modifies this
      ensures Valid() && inner == old(inner)[id := Updated(room, now, size, message)]
      ensures accepted == old(accepted)[id := past + Kept(message)] && sizes == old(sizes)[id := grown + Kept(size)]
    {
      var entry := Update(room, now, size, message, past, grown);
      EntryHolds(inner, accepted, sizes, id, entry, past + Kept(message), grown + Kept(size));
      inner := inner[id := entry];
      accepted, sizes := accepted[id := past + Kept(message)], sizes[id := grown + Kept(size)];
    }

    /** Reading never refreshes a room, so no viewer can keep one alive. A joiner gets
        the newest size, the messages the history has room for run together, and
        whether somebody has been broadcasting within 300 seconds. */
    method SnapshotOf(now: nat, id: string) returns (s: Option<Snapshot>, ghost chunks: seq<Blob>)
      requires Valid()
      ensures s == Look(inner, now, id)
      ensures s.None? <==> id !in inner
      ensures s.Some? ==>
                && s.value.size == NewestOf(sizes[id])
                && Replays(chunks, accepted[id]) && Sends(s.value.history, chunks)
                && (s.value.broadcasting <==> inner[id].broadcasters > 0 && now - inner[id].lastActivity <= 300)
    {
      if id !in inner {
        return None, [];
      }
      HistoryIsNewest(id);
      var room := inner[id];
      var history := if room.messages == [] then None else Some(Concat(room.messages));
      return Some(Snapshot(room.size, history,
                           room.broadcasters > 0 && Elapsed(now, room.lastActivity) <= BROADCASTER_GRACE)),
             room.messages;
    }

    /** Only the sole broadcaster's reset clears; the size always survives. */
    method Clear(now: nat, id: string, secret: string) returns (ok: bool)
      requires Valid()
      modifies this
      ensures Valid() && (inner, ok) == Reset(old(inner), now, id, secret)
      ensures ok <==> old(id !in inner || inner[id].password == secret)
      ensures sizes == old(sizes)
      ensures if old(id in inner && inner[id].password == secret && inner[id].broadcasters <= 1)
              then inner == old(inner)[id := old(inner)[id].(messages := [], lastActivity := now)]
                   && accepted == old(accepted)[id := []]
              else inner == old(inner) && accepted == old(accepted)
    {
      if id !in inner {
        return true;
      }
      var entry := inner[id];
      if entry.password != secret {
        return false;
      }
      if entry.broadcasters > 1 {
        return true;
      }
      RoomHolds(inner, accepted, sizes, id);
      PushesReplay([], []);
      EntryHolds(inner, accepted, sizes, id, entry.(messages := [], lastActivity := now), [], sizes[id]);
      assert sizes[id := sizes[id]] == sizes;
      inner := inner[id := entry.(messages := [], lastActivity := now)];
      accepted := accepted[id := []];
      return true;
    }

    method Connected(now: nat, id: string, secret: string) returns (count: nat)
      requires Valid()
      modifies this`inner
      ensures Valid() && (inner, count) == Attach(old(inner), now, id, secret)
      ensures count > 0 <==> old(Owns(inner, id, secret))
      ensures if count == 0 then inner == old(inner)
              else count == old(inner)[id].broadcasters + 1
                   && inner == old(inner)[id := old(inner)[id].(
                        broadcasters := count,
                        liveSince := if count == 1 then Some(now) else old(inner)[id].liveSince)]
    {
      if id !in inner || inner[id].password != secret {
        return 0;
      }
      var entry := inner[id];
      if entry.broadcasters == 0 {
        entry := entry.(liveSince := Some(now));
      }
      entry := entry.(broadcasters := entry.broadcasters + 1);
      SameHolds(inner, accepted, sizes, id, entry);
      inner := inner[id := entry];
      return entry.broadcasters;
    }

    method Disconnected(now: nat, id: string, secret: string) returns (left: nat, duration: Option<nat>)
      requires Valid()
      modifies this`inner
      ensures Valid() && (inner, left, duration) == Detach(old(inner), now, id, secret)
      ensures if !old(Owns(inner, id, secret))
              then inner == old(inner) && duration.None? && left == (if id in inner then inner[id].broadcasters else 0)
              else OthersStay(old(inner), inner, id) && id in inner
                   && inner[id] == old(inner)[id].(
                        broadcasters := left, liveSince := if left == 0 then None else old(inner)[id].liveSince)
                   && (old(inner)[id].broadcasters > 0 ==> left == old(inner)[id].broadcasters - 1)
                   && (old(inner)[id].broadcasters == 0 ==> left == 0)
                   && duration == (if left == 0 then LengthOf(old(inner)[id].liveSince, now) else None)
    {
      if id !in inner {
        return 0, None;
      }
      var entry := inner[id];
      if entry.password != secret {
        return entry.broadcasters, None;
      }
      entry := entry.(broadcasters := if entry.broadcasters == 0 then 0 else entry.broadcasters - 1);
      duration := None;
      if entry.broadcasters == 0 {
        if entry.liveSince.Some? {
          duration := Some(Elapsed(now, entry.liveSince.value));
        }
        entry := entry.(liveSince := None);
      }
      SameHolds(inner, accepted, sizes, id, entry);
      inner := inner[id := entry];
      return entry.broadcasters, duration;
    }

    method Remove(now: nat, id: string, secret: string) returns (r: Deletion)
      requires Valid()
      modifies this
      ensures Valid() && (inner, r) == Delete(old(inner), now, id, secret)
      ensures r.Refused? <==> old(id in inner && inner[id].password != secret)
      ensures r.Refused? ==> inner == old(inner) && accepted == old(accepted) && sizes == old(sizes)
      ensures r.Gone? ==>
                && inner == old(inner) - {id} && accepted == old(accepted) - {id} && sizes == old(sizes) - {id}
                && r.duration == (if id in old(inner) then LengthOf(old(inner)[id].liveSince, now) else None)
    {
      if id !in inner {
        assert accepted - {id} == accepted && sizes - {id} == sizes && inner - {id} == inner;
        return Gone(None);
      }
      var entry := inner[id];
      if entry.password != secret {
        return Refused;
      }
      SweptHolds(inner, inner - {id}, accepted, sizes);
      assert accepted.Keys - (inner - {id}).Keys == {id} == sizes.Keys - (inner - {id}).Keys;
      inner, accepted, sizes := inner - {id}, accepted - {id}, sizes - {id};
      return Gone(if entry.liveSince.Some? then Some(Elapsed(now, entry.liveSince.value)) else None);
    }

    /** Sweep the table, counting each room removed. */
    method EvictStale(now: nat, ttl: nat) returns (evicted: nat)
      requires Valid()
      modifies this
      ensures Valid() && inner == Evict(old(inner), now, ttl)
      ensures forall id :: id in inner <==> id in old(inner) && Spared(old(inner)[id], now, ttl)
      ensures forall id :: id in inner ==>
                inner[id] == old(inner)[id] && accepted[id] == old(accepted)[id] && sizes[id] == old(sizes)[id]
      ensures evicted == |old(inner)| - |inner|
    {
      evicted := SweepRooms(now, ttl);
      SweptHolds(old(inner), inner, accepted, sizes);
      accepted, sizes := accepted - (accepted.Keys - inner.Keys), sizes - (sizes.Keys - inner.Keys);
    }

    method SweepRooms(now: nat, ttl: nat) returns (evicted: nat)
      modifies this`inner
      ensures inner == Evict(old(inner), now, ttl)
      ensures forall id :: id in inner <==> id in old(inner) && Spared(old(inner)[id], now, ttl)
      ensures forall id :: id in inner ==> inner[id] == old(inner)[id]
      ensures evicted == |old(inner)| - |inner|
    {
      evicted := 0;
      var left := inner.Keys;
      while left != {}
        invariant left <= old(inner).Keys
        invariant inner.Keys <= old(inner).Keys && left <= inner.Keys
        invariant forall id :: id in inner ==> inner[id] == old(inner)[id]
        invariant forall id :: id in old(inner) && id !in left ==> (id in inner <==> Keeps(old(inner)[id], now, ttl))
        invariant evicted + |inner.Keys| == |old(inner).Keys|
        decreases left
      {
        var id :| id in left;
        left := left - {id};
        if !Keeps(inner[id], now, ttl) {
          assert (inner - {id}).Keys == inner.Keys - {id};
          inner := inner - {id};
          evicted := evicted + 1;
        }
      }
      assert inner == Evict(old(inner), now, ttl);
      assert |inner.Keys| == |inner| && |old(inner).Keys| == |old(inner)|;
    }
  }

  /** How long a segment that began then has lasted. */
  function LengthOf(since: Option<nat>, now: nat): (length: Option<nat>) {
    if since.None? then None else Some(if since.value <= now then now - since.value else 0)
  }
}
