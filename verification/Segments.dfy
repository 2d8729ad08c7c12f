/** Live segments: what the server reports to analytics when broadcasts start and
    end, against what rooms actually lived (src/server/rooms.rs with its callers
    in src/server/mod.rs). */
module Segments {
  import opened Prelude
  import opened Rooms

  /** Sweeping a live room reports nothing; `lost` counts those segments. */
  datatype Books = Books(
    db: Db,
    now: nat,
    started: nat,
    ended: nat,
    lost: nat,
    reported: nat,
    lostTime: nat,
    livedTime: nat)

  datatype Event =
    | Tick(dt: nat)
    | Appends(id: string, secret: string, size: Option<string>, message: Option<Blob>)
    | Resets(id: string, secret: string)
    | Attaches(id: string, secret: string)
    | Detaches(id: string, secret: string)
    | Deletes(id: string, secret: string)
    | Sweeps(ttl: nat)

  predicate IsLive(room: Room) { room.liveSince.Some? }

  function Live(db: Db): (ids: set<string>) {
    set id | id in db && IsLive(db[id])
  }

  /** Time the rooms `ids` have been live so far. */
  ghost function Lived(db: Db, now: nat, ids: set<string>): (t: nat)
    requires ids <= Live(db)
  {
    if ids == {} then 0
    else
      var id :| id in ids;
      Elapsed(now, db[id].liveSince.value) + Lived(db, now, ids - {id})
  }

  ghost function Apply(b: Books, e: Event): (after: Books) {
    match e
    case Tick(dt) => b.(now := b.now + dt, livedTime := b.livedTime + dt * |Live(b.db)|)
    case Appends(id, secret, size, message) => b.(db := Append(b.db, b.now, id, secret, size, message).0)
    case Resets(id, secret) => b.(db := Reset(b.db, b.now, id, secret).0)
    case Attaches(id, secret) =>
      var (db, count) := Attach(b.db, b.now, id, secret);
      b.(db := db, started := b.started + if count == 1 then 1 else 0)
    case Detaches(id, secret) =>
      var (db, _, duration) := Detach(b.db, b.now, id, secret);
      Ended(b.(db := db), duration)
    case Deletes(id, secret) =>
      var (db, r) := Delete(b.db, b.now, id, secret);
      Ended(b.(db := db), if r.Gone? then r.duration else None)
    case Sweeps(ttl) =>
      var db := Evict(b.db, b.now, ttl);
      var gone := Live(b.db) - Live(db);
      b.(db := db, lost := b.lost + |gone|, lostTime := b.lostTime + Lived(b.db, b.now, gone))
  }

  function Ended(b: Books, duration: Option<nat>): (after: Books) {
    if duration.None? then b
    else b.(ended := b.ended + 1, reported := b.reported + duration.value)
  }

  ghost function Run(events: seq<Event>): (b: Books) {
    if events == [] then Books(map[], 0, 0, 0, 0, 0, 0, 0)
    else Apply(Run(events[..|events| - 1]), events[|events| - 1])
  }

  /** A segment is open exactly while somebody is attached, and not in the future. */
  ghost predicate SegmentsOpen(db: Db, now: nat) {
    forall id :: id in db ==>
      && (IsLive(db[id]) <==> db[id].broadcasters > 0)
      && (IsLive(db[id]) ==> db[id].liveSince.value <= now)
  }

  ghost predicate Conserved(b: Books) {
    && b.started == b.ended + b.lost + |Live(b.db)|
    && b.livedTime == b.reported + b.lostTime + Lived(b.db, b.now, Live(b.db))
  }

  // ---- Sums over rooms ----

  lemma {:induction false} LivedPick(db: Db, now: nat, ids: set<string>, id: string)
    requires ids <= Live(db) && id in ids
    ensures Lived(db, now, ids) == Elapsed(now, db[id].liveSince.value) + Lived(db, now, ids - {id})
    decreases ids
  {
    var first :| first in ids &&
      Lived(db, now, ids) == Elapsed(now, db[first].liveSince.value) + Lived(db, now, ids - {first});
    if first != id {
      LivedPick(db, now, ids - {first}, id);
      LivedPick(db, now, ids - {id}, first);
      assert ids - {first} - {id} == ids - {id} - {first};
    }
  }

  lemma {:induction false} LivedSplit(db: Db, now: nat, xs: set<string>, ys: set<string>)
    requires xs <= Live(db) && ys <= Live(db) && xs !! ys
    ensures Lived(db, now, xs + ys) == Lived(db, now, xs) + Lived(db, now, ys)
    decreases xs
  {
    if xs == {} {
      assert xs + ys == ys;
    } else {
      var id :| id in xs;
      LivedSplit(db, now, xs - {id}, ys);
      LivedPick(db, now, xs, id);
      LivedPick(db, now, xs + ys, id);
      assert xs + ys - {id} == (xs - {id}) + ys;
    }
  }

  lemma {:induction false} LivedSame(db: Db, db': Db, now: nat, ids: set<string>)
    requires ids <= Live(db) && ids <= Live(db')
    requires forall id :: id in ids ==> db[id].liveSince == db'[id].liveSince
    ensures Lived(db, now, ids) == Lived(db', now, ids)
    decreases ids
  {
    if ids != {} {
      var id :| id in ids;
      LivedPick(db, now, ids, id);
      LivedPick(db', now, ids, id);
      LivedSame(db, db', now, ids - {id});
    }
  }

  lemma OneMoreTick(dt: nat, n: nat)
    ensures dt * (n + 1) == dt * n + dt
  {
  }

  lemma {:induction false} LivedTick(db: Db, now: nat, dt: nat, ids: set<string>)
    requires ids <= Live(db) && SegmentsOpen(db, now)
    ensures Lived(db, now + dt, ids) == Lived(db, now, ids) + dt * |ids|
    decreases ids
  {
    if ids == {} {
      assert dt * |ids| == 0;
    } else {
      var id :| id in ids;
      LivedPick(db, now, ids, id);
      LivedPick(db, now + dt, ids, id);
      LivedTick(db, now, dt, ids - {id});
      assert |ids| == |ids - {id}| + 1;
      OneMoreTick(dt, |ids - {id}|);
    }
  }

  // ---- Each event conserves ----

  /** Changing one room without touching its segment changes no sum. */
  lemma SameSegments(b: Books, db: Db)
    requires Conserved(b) && Live(db) == Live(b.db)
    requires forall id :: id in Live(db) ==> db[id].liveSince == b.db[id].liveSince
    ensures Conserved(b.(db := db))
  {
    LivedSame(b.db, db, b.now, Live(db));
  }

  /** Opening the segment of one room. */
  lemma OneMore(b: Books, db: Db, id: string)
    requires Conserved(b) && id !in Live(b.db) && Live(db) == Live(b.db) + {id}
    requires forall k :: k in Live(b.db) ==> db[k].liveSince == b.db[k].liveSince
    requires db[id].liveSince == Some(b.now)
    ensures Conserved(b.(db := db, started := b.started + 1))
  {
    LivedPick(db, b.now, Live(db), id);
    assert Live(db) - {id} == Live(b.db);
    LivedSame(b.db, db, b.now, Live(b.db));
  }

  /** Closing the segment of one room, and reporting it. */
  lemma OneLess(b: Books, db: Db, id: string)
    requires Conserved(b) && id in Live(b.db) && Live(db) == Live(b.db) - {id}
    requires forall k :: k in Live(db) ==> db[k].liveSince == b.db[k].liveSince
    ensures Conserved(Ended(b.(db := db), Some(Elapsed(b.now, b.db[id].liveSince.value))))
  {
    LivedPick(b.db, b.now, Live(b.db), id);
    LivedSame(b.db, db, b.now, Live(db));
  }

  lemma AttachConserves(b: Books, id: string, secret: string)
    requires Conserved(b) && SegmentsOpen(b.db, b.now)
    ensures Conserved(Apply(b, Attaches(id, secret)))
  {
    var (db, count) := Attach(b.db, b.now, id, secret);
    if count == 1 {
      assert Live(db) == Live(b.db) + {id};
      OneMore(b, db, id);
    } else {
      assert Live(db) == Live(b.db);
      SameSegments(b, db);
    }
  }

  lemma DetachConserves(b: Books, id: string, secret: string)
    requires Conserved(b) && SegmentsOpen(b.db, b.now)
    ensures Conserved(Apply(b, Detaches(id, secret)))
  {
    var (db, _, duration) := Detach(b.db, b.now, id, secret);
    if duration.Some? {
      assert Live(db) == Live(b.db) - {id};
      OneLess(b, db, id);
    } else {
      assert Live(db) == Live(b.db);
      SameSegments(b, db);
    }
  }

  lemma DeleteConserves(b: Books, id: string, secret: string)
    requires Conserved(b) && SegmentsOpen(b.db, b.now)
    ensures Conserved(Apply(b, Deletes(id, secret)))
  {
    var (db, r) := Delete(b.db, b.now, id, secret);
    if r.Gone? && r.duration.Some? {
      assert Live(db) == Live(b.db) - {id};
      OneLess(b, db, id);
    } else {
      assert Live(db) == Live(b.db);
      SameSegments(b, db);
    }
  }

  lemma SweepConserves(b: Books, ttl: nat)
    requires Conserved(b)
    ensures Conserved(Apply(b, Sweeps(ttl)))
  {
    var db := Evict(b.db, b.now, ttl);
    var kept, gone := Live(db), Live(b.db) - Live(db);
    assert kept <= Live(b.db);
    assert kept + gone == Live(b.db);
    assert |Live(b.db)| == |kept| + |gone|;
    LivedSplit(b.db, b.now, kept, gone);
    LivedSame(b.db, db, b.now, kept);
  }

  lemma EventConserves(b: Books, e: Event)
    requires Conserved(b) && SegmentsOpen(b.db, b.now)
    ensures Conserved(Apply(b, e))
  {
    match e {
      case Tick(dt) => LivedTick(b.db, b.now, dt, Live(b.db));
      case Appends(id, secret, size, message) =>
        var db := Append(b.db, b.now, id, secret, size, message).0;
        assert Live(db) == Live(b.db);
        SameSegments(b, db);
      case Resets(id, secret) =>
        var db := Reset(b.db, b.now, id, secret).0;
        assert Live(db) == Live(b.db);
        SameSegments(b, db);
      case Attaches(id, secret) => AttachConserves(b, id, secret);
      case Detaches(id, secret) => DetachConserves(b, id, secret);
      case Deletes(id, secret) => DeleteConserves(b, id, secret);
      case Sweeps(ttl) => SweepConserves(b, ttl);
    }
  }

  lemma SweepOpens(db: Db, now: nat, ttl: nat)
    requires SegmentsOpen(db, now)
    ensures SegmentsOpen(Evict(db, now, ttl), now)
  {
  }

  lemma DetachOpens(db: Db, now: nat, id: string, secret: string)
    requires SegmentsOpen(db, now)
    ensures SegmentsOpen(Detach(db, now, id, secret).0, now)
    ensures SegmentsOpen(Delete(db, now, id, secret).0, now)
  {
  }

  lemma EventOpens(b: Books, e: Event)
    requires SegmentsOpen(b.db, b.now)
    ensures SegmentsOpen(Apply(b, e).db, Apply(b, e).now)
  {
    match e {
      case Tick(dt) =>
      case Appends(id, secret, size, message) =>
      case Resets(id, secret) =>
      case Attaches(id, secret) =>
      case Detaches(id, secret) => DetachOpens(b.db, b.now, id, secret);
      case Deletes(id, secret) => DetachOpens(b.db, b.now, id, secret);
      case Sweeps(ttl) => SweepOpens(b.db, b.now, ttl);
    }
  }

  /** In every run, `live_since` is set exactly while a broadcaster is attached. */
  lemma {:induction false} LiveExactlyWhileAttached(events: seq<Event>)
    ensures SegmentsOpen(Run(events).db, Run(events).now)
  {
    if events != [] {
      LiveExactlyWhileAttached(events[..|events| - 1]);
      EventOpens(Run(events[..|events| - 1]), events[|events| - 1]);
    }
  }

  /** Over every run, the segments reported started are those reported ended, those
      still live, and those evicted while live; and the time rooms really lived is
      the durations reported, plus what still runs, plus what eviction cut off. */
  lemma {:induction false} SegmentsConserved(events: seq<Event>)
    ensures Conserved(Run(events))
  {
    if events == [] {
      assert Live(map[]) == {};
    } else {
      var front := events[..|events| - 1];
      SegmentsConserved(front);
      LiveExactlyWhileAttached(front);
      EventConserves(Run(front), events[|events| - 1]);
    }
  }
}
