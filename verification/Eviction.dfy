/** Eviction against live broadcasts: ingest loops as timed tasks (src/server/mod.rs)
    over the rooms table (src/server/rooms.rs), with time in seconds.

    A loop waits at most `INGEST_IDLE_TIMEOUT` for a frame and as long again for
    its ack to leave; time cannot pass a running loop's deadline, so a loop that
    reaches it must act or end, and a loop that ends detaches. `upgrade` bounds
    the delay between a handshake and its loop. A connection sends at most one
    reset. */
module Eviction {
  import opened Prelude
  import opened Rooms
  import I = Ingest

  const INGEST_IDLE_TIMEOUT: nat := 90

  datatype Phase = Upgrading | Receiving | Acking

  /** `refreshed` is when this connection last refreshed its room. */
  datatype Loop = Loop(room: string, secret: string, phase: Phase, deadline: nat, refreshed: nat, resetUsed: bool)

  datatype State = State(db: Db, now: nat, loops: map<nat, Loop>)

  datatype Event =
    | Pass(dt: nat)
    | Handshake(k: nat, room: string, secret: string)
    | Abandon(k: nat)
    | Begin(k: nat)
    | Receive(k: nat, request: I.Request) // a frame, as `Ingest.Understood` reads it
    | AckSent(k: nat)
    | Leave(k: nat)
    | RemoveRoom(room: string, secret: string)
    | Sweep(ttl: nat)

  predicate Enabled(s: State, e: Event, upgrade: nat) {
    match e
    case Pass(dt) => forall k :: k in s.loops ==> s.now + dt <= s.loops[k].deadline
    case Handshake(k, _, _) => k !in s.loops
    case Abandon(k) => k in s.loops && s.loops[k].phase.Upgrading?
    case Begin(k) => k in s.loops && s.loops[k].phase.Upgrading?
    case Receive(k, request) =>
      k in s.loops && s.loops[k].phase.Receiving? && (request.Clear? ==> !s.loops[k].resetUsed)
    case AckSent(k) => k in s.loops && s.loops[k].phase.Acking?
    case Leave(k) => k in s.loops && !s.loops[k].phase.Upgrading?
    case RemoveRoom(_, _) => true
    case Sweep(_) => true
  }

  function Ended(s: State, k: nat): (after: State)
    requires k in s.loops
  {
    s.(db := Detach(s.db, s.now, s.loops[k].room, s.loops[k].secret).0, loops := s.loops - {k})
  }

  function Waiting(s: State, k: nat, l: Loop): (after: State) {
    s.(loops := s.loops[k := l.(phase := Receiving, deadline := s.now + INGEST_IDLE_TIMEOUT)])
  }

  /** Storing or resizing: an ack is due before the next frame is waited for. */
  function Kept(s: State, k: nat, size: Option<string>, message: Option<Blob>): (after: State)
    requires k in s.loops
  {
    var l := s.loops[k];
    var (db, r) := Append(s.db, s.now, l.room, l.secret, size, message);
    if r.Unauthorized? then Ended(s, k)
    else
      var acking := l.(phase := Acking, deadline := s.now + INGEST_IDLE_TIMEOUT, refreshed := s.now);
      s.(db := db, loops := s.loops[k := acking])
  }

  /** One frame, as the loop's body handles it. */
  function Handle(s: State, k: nat, request: I.Request): (after: State)
    requires k in s.loops
  {
    var l := s.loops[k];
    match request
    case Store(bytes) => Kept(s, k, None, Some(bytes))
    case Resize(json) => Kept(s, k, Some(json), None)
    case Refresh =>
      var (db, r) := Append(s.db, s.now, l.room, l.secret, None, None);
      if r.Unauthorized? then Ended(s, k)
      else Waiting(s.(db := db), k, l.(refreshed := s.now))
    case Clear =>
      var (db, ok) := Reset(s.db, s.now, l.room, l.secret);
      if !ok then Ended(s, k) else Waiting(s.(db := db), k, l.(resetUsed := true))
    case Remove => Ended(s.(db := Delete(s.db, s.now, l.room, l.secret).0), k)
    case Stop => Ended(s, k)
  }

  /** The timed loop treats the table as the loop of `Ingest` does: the same change
      for the same request, going on in the same cases, and detaching when it ends. */
  lemma HandlesAsIngest(s: State, k: nat, request: I.Request)
    requires k in s.loops
    ensures var t, l := Handle(s, k, request), s.loops[k];
            var db := I.TableAfter(s.db, s.now, l.room, l.secret, request);
            && (k in t.loops <==> I.Admits(s.db, l.room, l.secret) && !request.Remove? && !request.Stop?)
            && t.db == (if k in t.loops then db else Detach(db, s.now, l.room, l.secret).0)
            && (k in t.loops ==> (t.loops[k].phase.Acking? <==> request.Store? || request.Resize?))
  {
  }

  function Step(s: State, e: Event, upgrade: nat): (after: State)
    requires Enabled(s, e, upgrade)
  {
    match e
    case Pass(dt) => s.(now := s.now + dt)
    case Handshake(k, room, secret) =>
      var (db, r) := Append(s.db, s.now, room, secret, None, None);
      if r.Unauthorized? then s
      else s.(db := db, loops := s.loops[k := Loop(room, secret, Upgrading, s.now + upgrade, s.now, false)])
    case Abandon(k) => s.(loops := s.loops - {k})
    case Begin(k) =>
      Waiting(s.(db := Attach(s.db, s.now, s.loops[k].room, s.loops[k].secret).0), k, s.loops[k])
    case Receive(k, request) => Handle(s, k, request)
    case AckSent(k) => Waiting(s, k, s.loops[k])
    case Leave(k) => Ended(s, k)
    case RemoveRoom(room, secret) => s.(db := Delete(s.db, s.now, room, secret).0)
    case Sweep(ttl) => s.(db := Evict(s.db, s.now, ttl))
  }

  const START: State := State(map[], 0, map[])

  ghost predicate Legal(states: seq<State>, events: seq<Event>, upgrade: nat) {
    && |states| == |events| + 1 && states[0] == START
    && forall i :: 0 <= i < |events| ==>
         Enabled(states[i], events[i], upgrade) && states[i + 1] == Step(states[i], events[i], upgrade)
  }

  // ---- The invariant ----

  function Max(a: nat, b: nat): (m: nat) { if a > b then a else b }

  /** The longest a connection can go without refreshing its room. */
  function Slack(phase: Phase, resetUsed: bool, upgrade: nat): (s: nat) {
    match phase
    case Upgrading => upgrade
    case Acking => INGEST_IDLE_TIMEOUT
    case Receiving =>
      if resetUsed then Max(3 * INGEST_IDLE_TIMEOUT, upgrade + 2 * INGEST_IDLE_TIMEOUT)
      else Max(2 * INGEST_IDLE_TIMEOUT, upgrade + INGEST_IDLE_TIMEOUT)
  }

  function Bound(upgrade: nat): (s: nat) {
    Max(3 * INGEST_IDLE_TIMEOUT, upgrade + 2 * INGEST_IDLE_TIMEOUT)
  }

  ghost predicate LoopOk(s: State, l: Loop, upgrade: nat) {
    && l.refreshed <= s.now <= l.deadline <= l.refreshed + Slack(l.phase, l.resetUsed, upgrade)
    && (Owns(s.db, l.room, l.secret) ==> l.refreshed <= s.db[l.room].lastActivity)
  }

  /** The running loops that hold the room's password. */
  function Holders(s: State, room: string): (ks: set<nat>)
    requires room in s.db
  {
    set k | k in s.loops && !s.loops[k].phase.Upgrading? && s.loops[k].room == room
            && s.loops[k].secret == s.db[room].password
  }

  ghost predicate Counts(s: State) {
    forall room :: room in s.db ==>
      s.db[room].broadcasters <= |Holders(s, room)| && s.db[room].lastActivity <= s.now
  }

  ghost predicate Inv(s: State, upgrade: nat) {
    Counts(s) && forall k :: k in s.loops ==> LoopOk(s, s.loops[k], upgrade)
  }

  // ---- Preservation ----

  /** A room whose loops and count are untouched stays counted. */
  lemma SameHolders(s: State, v: State, room: string)
    requires Counts(s) && room in s.db && room in v.db
    requires Holders(v, room) >= Holders(s, room) && v.db[room].broadcasters <= s.db[room].broadcasters
    requires v.db[room].lastActivity <= v.now
    ensures v.db[room].broadcasters <= |Holders(v, room)|
  {
    var extra := Holders(v, room) - Holders(s, room);
    assert Holders(v, room) == Holders(s, room) + extra;
  }

  lemma EndedKeeps(s: State, k: nat, upgrade: nat)
    requires Inv(s, upgrade) && k in s.loops && !s.loops[k].phase.Upgrading?
    ensures Inv(Ended(s, k), upgrade)
  {
    var v, l := Ended(s, k), s.loops[k];
    forall room | room in v.db ensures v.db[room].broadcasters <= |Holders(v, room)| {
      if Owns(s.db, l.room, l.secret) && room == l.room {
        assert Holders(v, room) == Holders(s, room) - {k};
      } else {
        assert Holders(v, room) == Holders(s, room);
      }
    }
    forall j | j in v.loops ensures LoopOk(v, v.loops[j], upgrade) {
      assert LoopOk(s, s.loops[j], upgrade);
    }
  }

  lemma DeletedKeeps(s: State, room: string, secret: string, upgrade: nat)
    requires Inv(s, upgrade)
    ensures Inv(s.(db := Delete(s.db, s.now, room, secret).0), upgrade)
  {
    var v := s.(db := Delete(s.db, s.now, room, secret).0);
    forall r | r in v.db ensures v.db[r].broadcasters <= |Holders(v, r)| {
      SameHolders(s, v, r);
    }
    forall j | j in v.loops ensures LoopOk(v, v.loops[j], upgrade) {
      assert LoopOk(s, s.loops[j], upgrade);
    }
  }

  /** An accepted append refreshes the room; a room it claims has no loops counted. */
  lemma AppendedKeeps(s: State, room: string, secret: string, size: Option<string>, message: Option<Blob>, upgrade: nat)
    requires Inv(s, upgrade)
    ensures var (db, r) := Append(s.db, s.now, room, secret, size, message);
            && Inv(s.(db := db), upgrade)
            && (!r.Unauthorized? ==> Owns(db, room, secret) && db[room].lastActivity == s.now)
  {
    var v := s.(db := Append(s.db, s.now, room, secret, size, message).0);
    forall r | r in v.db ensures v.db[r].broadcasters <= |Holders(v, r)| {
      if r in s.db {
        SameHolders(s, v, r);
      }
    }
    forall j | j in v.loops ensures LoopOk(v, v.loops[j], upgrade) {
      assert LoopOk(s, s.loops[j], upgrade);
    }
  }

  lemma ResetKeeps(s: State, room: string, secret: string, upgrade: nat)
    requires Inv(s, upgrade)
    ensures Inv(s.(db := Reset(s.db, s.now, room, secret).0), upgrade)
  {
    var v := s.(db := Reset(s.db, s.now, room, secret).0);
    forall r | r in v.db ensures v.db[r].broadcasters <= |Holders(v, r)| {
      SameHolders(s, v, r);
    }
    forall j | j in v.loops ensures LoopOk(v, v.loops[j], upgrade) {
      assert LoopOk(s, s.loops[j], upgrade);
    }
  }

  lemma SweepKeeps(s: State, ttl: nat, upgrade: nat)
    requires Inv(s, upgrade)
    ensures Inv(s.(db := Evict(s.db, s.now, ttl)), upgrade)
  {
    var v := s.(db := Evict(s.db, s.now, ttl));
    forall r | r in v.db ensures v.db[r].broadcasters <= |Holders(v, r)| {
      SameHolders(s, v, r);
    }
    forall j | j in v.loops ensures LoopOk(v, v.loops[j], upgrade) {
      assert LoopOk(s, s.loops[j], upgrade);
    }
  }

  /** Moving one loop on, within its slack, changes no count. */
  lemma MovedKeeps(s: State, k: nat, l: Loop, upgrade: nat)
    requires Inv(s, upgrade) && LoopOk(s, l, upgrade)
    requires k in s.loops ==>
               s.loops[k].room == l.room && s.loops[k].secret == l.secret
               && (l.phase.Upgrading? ==> s.loops[k].phase.Upgrading?)
    ensures Inv(s.(loops := s.loops[k := l]), upgrade)
  {
    var v := s.(loops := s.loops[k := l]);
    forall r | r in v.db ensures v.db[r].broadcasters <= |Holders(v, r)| {
      SameHolders(s, v, r);
    }
    forall j | j in v.loops ensures LoopOk(v, v.loops[j], upgrade) {
      if j != k {
        assert LoopOk(s, s.loops[j], upgrade);
      }
    }
  }

  /** A loop that starts is one more holder for the one more attach it counts. */
  lemma BeginCounts(s: State, v: State, k: nat, room: string)
    requires Counts(s) && k in s.loops && s.loops[k].phase.Upgrading?
    requires var l := s.loops[k];
             && v.db == Attach(s.db, s.now, l.room, l.secret).0 && v.now == s.now
             && k in v.loops && v.loops == s.loops[k := v.loops[k]] && v.loops[k].phase.Receiving?
             && v.loops[k].room == l.room && v.loops[k].secret == l.secret
    requires room in v.db
    ensures v.db[room].broadcasters <= |Holders(v, room)| && v.db[room].lastActivity <= v.now
  {
    var l := s.loops[k];
    if Owns(s.db, l.room, l.secret) && room == l.room {
      assert Holders(v, room) == Holders(s, room) + {k};
    } else {
      assert Holders(v, room) == Holders(s, room);
    }
  }

  lemma BeginKeeps(s: State, k: nat, upgrade: nat)
    requires Inv(s, upgrade) && k in s.loops && s.loops[k].phase.Upgrading?
    ensures Inv(Step(s, Begin(k), upgrade), upgrade)
  {
    var v := Step(s, Begin(k), upgrade);
    forall room | room in v.db
      ensures v.db[room].broadcasters <= |Holders(v, room)| && v.db[room].lastActivity <= v.now
    {
      BeginCounts(s, v, k, room);
    }
    forall j | j in v.loops ensures LoopOk(v, v.loops[j], upgrade) {
      assert LoopOk(s, s.loops[j], upgrade);
    }
  }

  lemma AcceptedKeeps(s: State, k: nat, size: Option<string>, message: Option<Blob>, moved: Loop, upgrade: nat)
    requires Inv(s, upgrade) && k in s.loops && !s.loops[k].phase.Upgrading?
    requires var l := s.loops[k];
             && !Append(s.db, s.now, l.room, l.secret, size, message).1.Unauthorized?
             && moved.room == l.room && moved.secret == l.secret && moved.phase != Upgrading
             && moved.refreshed == s.now && moved.deadline == s.now + INGEST_IDLE_TIMEOUT
    ensures Inv(State(Append(s.db, s.now, s.loops[k].room, s.loops[k].secret, size, message).0, s.now,
                      s.loops[k := moved]), upgrade)
  {
    var l := s.loops[k];
    AppendedKeeps(s, l.room, l.secret, size, message, upgrade);
    var t := s.(db := Append(s.db, s.now, l.room, l.secret, size, message).0);
    MovedKeeps(t, k, moved, upgrade);
  }

  lemma ResetHandled(s: State, k: nat, upgrade: nat)
    requires Inv(s, upgrade) && k in s.loops && s.loops[k].phase.Receiving? && !s.loops[k].resetUsed
    ensures Inv(Handle(s, k, I.Clear), upgrade)
  {
    var l := s.loops[k];
    assert LoopOk(s, l, upgrade);
    var (db, ok) := Reset(s.db, s.now, l.room, l.secret);
    if !ok {
      EndedKeeps(s, k, upgrade);
    } else {
      ResetKeeps(s, l.room, l.secret, upgrade);
      var t := s.(db := db);
      var moved := l.(phase := Receiving, deadline := s.now + INGEST_IDLE_TIMEOUT, resetUsed := true);
      assert Handle(s, k, I.Clear) == t.(loops := t.loops[k := moved]);
      assert LoopOk(t, t.loops[k], upgrade);
      MovedKeeps(t, k, moved, upgrade);
    }
  }

  lemma KeptHandled(s: State, k: nat, size: Option<string>, message: Option<Blob>, upgrade: nat)
    requires Inv(s, upgrade) && k in s.loops && s.loops[k].phase.Receiving?
    ensures Inv(Kept(s, k, size, message), upgrade)
  {
    var l := s.loops[k];
    if Append(s.db, s.now, l.room, l.secret, size, message).1.Unauthorized? {
      EndedKeeps(s, k, upgrade);
    } else {
      var moved := l.(phase := Acking, deadline := s.now + INGEST_IDLE_TIMEOUT, refreshed := s.now);
      assert Kept(s, k, size, message) ==
             State(Append(s.db, s.now, l.room, l.secret, size, message).0, s.now, s.loops[k := moved]);
      AcceptedKeeps(s, k, size, message, moved, upgrade);
    }
  }

  lemma KeepAliveHandled(s: State, k: nat, upgrade: nat)
    requires Inv(s, upgrade) && k in s.loops && s.loops[k].phase.Receiving?
    ensures Inv(Handle(s, k, I.Refresh), upgrade)
  {
    var l := s.loops[k];
    if Append(s.db, s.now, l.room, l.secret, None, None).1.Unauthorized? {
      EndedKeeps(s, k, upgrade);
    } else {
      var moved := l.(phase := Receiving, deadline := s.now + INGEST_IDLE_TIMEOUT, refreshed := s.now);
      assert Handle(s, k, I.Refresh) ==
             State(Append(s.db, s.now, l.room, l.secret, None, None).0, s.now, s.loops[k := moved]);
      AcceptedKeeps(s, k, None, None, moved, upgrade);
    }
  }

  lemma DeleteHandled(s: State, k: nat, upgrade: nat)
    requires Inv(s, upgrade) && k in s.loops && s.loops[k].phase.Receiving?
    ensures Inv(Handle(s, k, I.Remove), upgrade)
  {
    var l := s.loops[k];
    DeletedKeeps(s, l.room, l.secret, upgrade);
    EndedKeeps(s.(db := Delete(s.db, s.now, l.room, l.secret).0), k, upgrade);
  }

  lemma HandshakeKeeps(s: State, k: nat, room: string, secret: string, upgrade: nat)
    requires Inv(s, upgrade) && Enabled(s, Handshake(k, room, secret), upgrade)
    ensures Inv(Step(s, Handshake(k, room, secret), upgrade), upgrade)
  {
    var (db, r) := Append(s.db, s.now, room, secret, None, None);
    if !r.Unauthorized? {
      assert Step(s, Handshake(k, room, secret), upgrade) ==
             State(db, s.now, s.loops[k := Loop(room, secret, Upgrading, s.now + upgrade, s.now, false)]);
      ClaimedKeeps(s, k, room, secret, upgrade);
    }
  }

  lemma ClaimedKeeps(s: State, k: nat, room: string, secret: string, upgrade: nat)
    requires Inv(s, upgrade) && k !in s.loops
    requires !Append(s.db, s.now, room, secret, None, None).1.Unauthorized?
    ensures Inv(State(Append(s.db, s.now, room, secret, None, None).0, s.now,
                      s.loops[k := Loop(room, secret, Upgrading, s.now + upgrade, s.now, false)]), upgrade)
  {
    AppendedKeeps(s, room, secret, None, None, upgrade);
    var t := s.(db := Append(s.db, s.now, room, secret, None, None).0);
    MovedKeeps(t, k, Loop(room, secret, Upgrading, s.now + upgrade, s.now, false), upgrade);
  }

  lemma HandledKeeps(s: State, k: nat, request: I.Request, upgrade: nat)
    requires Inv(s, upgrade) && Enabled(s, Receive(k, request), upgrade)
    ensures Inv(Handle(s, k, request), upgrade)
  {
    match request {
      case Store(bytes) => KeptHandled(s, k, None, Some(bytes), upgrade);
      case Resize(json) => KeptHandled(s, k, Some(json), None, upgrade);
      case Refresh => KeepAliveHandled(s, k, upgrade);
      case Clear => ResetHandled(s, k, upgrade);
      case Remove => DeleteHandled(s, k, upgrade);
      case Stop => EndedKeeps(s, k, upgrade);
    }
  }

  lemma AckSentKeeps(s: State, k: nat, upgrade: nat)
    requires Inv(s, upgrade) && Enabled(s, AckSent(k), upgrade)
    ensures Inv(Step(s, AckSent(k), upgrade), upgrade)
  {
    assert LoopOk(s, s.loops[k], upgrade);
    MovedKeeps(s, k, s.loops[k].(phase := Receiving, deadline := s.now + INGEST_IDLE_TIMEOUT), upgrade);
  }

  lemma StepKeeps(s: State, e: Event, upgrade: nat)
    requires Inv(s, upgrade) && Enabled(s, e, upgrade)
    ensures Inv(Step(s, e, upgrade), upgrade)
  {
    match e {
      case Pass(dt) => PassKeeps(s, dt, upgrade);
      case Handshake(k, room, secret) => HandshakeKeeps(s, k, room, secret, upgrade);
      case Abandon(k) => AbandonKeeps(s, k, upgrade);
      case Begin(k) => BeginKeeps(s, k, upgrade);
      case Receive(k, request) => HandledKeeps(s, k, request, upgrade);
      case AckSent(k) => AckSentKeeps(s, k, upgrade);
      case Leave(k) => EndedKeeps(s, k, upgrade);
      case RemoveRoom(room, secret) => DeletedKeeps(s, room, secret, upgrade);
      case Sweep(ttl) => SweepKeeps(s, ttl, upgrade);
    }
  }

  lemma PassKeeps(s: State, dt: nat, upgrade: nat)
    requires Inv(s, upgrade) && Enabled(s, Pass(dt), upgrade)
    ensures Inv(s.(now := s.now + dt), upgrade)
  {
    var v := s.(now := s.now + dt);
    forall r | r in v.db ensures v.db[r].broadcasters <= |Holders(v, r)| {
      SameHolders(s, v, r);
    }
    forall j | j in v.loops ensures LoopOk(v, v.loops[j], upgrade) {
      assert LoopOk(s, s.loops[j], upgrade);
    }
  }

  lemma AbandonKeeps(s: State, k: nat, upgrade: nat)
    requires Inv(s, upgrade) && k in s.loops && s.loops[k].phase.Upgrading?
    ensures Inv(s.(loops := s.loops - {k}), upgrade)
  {
    var v := s.(loops := s.loops - {k});
    forall r | r in v.db ensures v.db[r].broadcasters <= |Holders(v, r)| {
      SameHolders(s, v, r);
    }
    forall j | j in v.loops ensures LoopOk(v, v.loops[j], upgrade) {
      assert LoopOk(s, s.loops[j], upgrade);
    }
  }

  lemma {:induction false} RunInv(states: seq<State>, events: seq<Event>, upgrade: nat, n: nat)
    requires Legal(states, events, upgrade) && n < |states|
    ensures Inv(states[n], upgrade)
  {
    if n > 0 {
      RunInv(states, events, upgrade, n - 1);
      StepKeeps(states[n - 1], events[n - 1], upgrade);
    }
  }

  // ---- What follows ----

  /** A room somebody counts as attached to was refreshed not long ago. */
  lemma LiveIsFresh(s: State, upgrade: nat, room: string)
    requires Inv(s, upgrade) && room in s.db && s.db[room].broadcasters > 0
    ensures s.now <= s.db[room].lastActivity + Bound(upgrade)
  {
    assert Holders(s, room) != {};
    var k :| k in Holders(s, room);
    assert LoopOk(s, s.loops[k], upgrade);
  }

  /** A sweep at any TTL leaves the room in the table, as it was. */
  ghost predicate SweepProof(s: State, room: string)
    requires room in s.db
  {
    forall ttl: nat :: room in Evict(s.db, s.now, ttl) && Evict(s.db, s.now, ttl)[room] == s.db[room]
  }

  /** No live room is swept, at any TTL, and the online dot tells the truth. */
  ghost predicate LiveSafe(s: State) {
    forall room :: room in s.db ==>
      && (s.db[room].broadcasters > 0 ==> SweepProof(s, room))
      && Look(s.db, s.now, room).value.broadcasting == (s.db[room].broadcasters > 0)
      && s.db[room].broadcasters <= |Holders(s, room)|
  }

  lemma LiveRoomsAreSafe(states: seq<State>, events: seq<Event>, upgrade: nat, n: nat)
    requires upgrade <= 120 && Legal(states, events, upgrade) && n < |states|
    ensures LiveSafe(states[n])
  {
    RunInv(states, events, upgrade, n);
    var s := states[n];
    forall room | room in s.db && s.db[room].broadcasters > 0
      ensures Elapsed(s.now, s.db[room].lastActivity) <= BROADCASTER_GRACE && SweepProof(s, room)
    {
      LiveIsFresh(s, upgrade, room);
      forall ttl: nat ensures room in Evict(s.db, s.now, ttl) && Evict(s.db, s.now, ttl)[room] == s.db[room] {
        SweepLeaves(s.db, s.now, ttl, room);
      }
    }
  }

  /** Over the step itself: whatever the TTL, a sweep on the way leaves every live room
      in the table, as it was. */
  lemma SweepSparesLive(states: seq<State>, events: seq<Event>, upgrade: nat, n: nat, room: string)
    requires upgrade <= 120 && Legal(states, events, upgrade) && n < |events| && events[n].Sweep?
    requires room in states[n].db && states[n].db[room].broadcasters > 0
    ensures room in states[n + 1].db && states[n + 1].db[room] == states[n].db[room]
  {
    LiveRoomsAreSafe(states, events, upgrade, n);
    assert SweepProof(states[n], room);
    assert states[n + 1] == Step(states[n], events[n], upgrade);
  }

  /** And of all rooms a sweep leaves exactly those it has to spare. */
  lemma SweepIsExact(s: State, ttl: nat, upgrade: nat, room: string)
    ensures room in Step(s, Sweep(ttl), upgrade).db <==> room in s.db && Spared(s.db[room], s.now, ttl)
  {
    SweepLeaves(s.db, s.now, ttl, room);
  }

  // ---- 120 seconds is exact ----

  function Snap(now: nat, since: Option<nat>, broadcasters: nat, loops: map<nat, Loop>): (s: State) {
    State(map["r" := Room("k", [], None, since, 0, broadcasters)], now, loops)
  }

  function Run1(phase: Phase, deadline: nat, resetUsed: bool): (l: Loop) {
    Loop("r", "k", phase, deadline, 0, resetUsed)
  }

  /** The late broadcaster: it shakes hands at 0, its loop starts 121 seconds on,
      and its reset at 211 refreshes nothing because a second loop is counted. */
  function LateEvents(): (events: seq<Event>) {
    [Handshake(1, "r", "k"), Begin(1), Handshake(2, "r", "k"), Receive(1, I.Store([])),
     Pass(90), AckSent(1), Pass(31), Begin(2), Pass(59), Receive(1, I.Clear),
     Pass(31), Receive(2, I.Clear), Pass(59), Leave(1), Pass(31)]
  }

  function LateStates(upgrade: nat): (states: seq<State>) {
    var live := Some(0);
    var waiting := Run1(Upgrading, upgrade, false);
    [START,
     Snap(0, None, 0, map[1 := waiting]),
     Snap(0, live, 1, map[1 := Run1(Receiving, 90, false)]),
     Snap(0, live, 1, map[1 := Run1(Receiving, 90, false), 2 := waiting]),
     Snap(0, live, 1, map[1 := Run1(Acking, 90, false), 2 := waiting]),
     Snap(90, live, 1, map[1 := Run1(Acking, 90, false), 2 := waiting]),
     Snap(90, live, 1, map[1 := Run1(Receiving, 180, false), 2 := waiting]),
     Snap(121, live, 1, map[1 := Run1(Receiving, 180, false), 2 := waiting]),
     Snap(121, live, 2, map[1 := Run1(Receiving, 180, false), 2 := Run1(Receiving, 211, false)]),
     Snap(180, live, 2, map[1 := Run1(Receiving, 180, false), 2 := Run1(Receiving, 211, false)]),
     Snap(180, live, 2, map[1 := Run1(Receiving, 270, true), 2 := Run1(Receiving, 211, false)]),
     Snap(211, live, 2, map[1 := Run1(Receiving, 270, true), 2 := Run1(Receiving, 211, false)]),
     Snap(211, live, 2, map[1 := Run1(Receiving, 270, true), 2 := Run1(Receiving, 301, true)]),
     Snap(270, live, 2, map[1 := Run1(Receiving, 270, true), 2 := Run1(Receiving, 301, true)]),
     Snap(270, live, 1, map[2 := Run1(Receiving, 301, true)]),
     Snap(301, live, 1, map[2 := Run1(Receiving, 301, true)])]
  }

  predicate LateStep(upgrade: nat, i: nat)
    requires i < 15
  {
    && Enabled(LateStates(upgrade)[i], LateEvents()[i], upgrade)
    && LateStates(upgrade)[i + 1] == Step(LateStates(upgrade)[i], LateEvents()[i], upgrade)
  }

  lemma LateOpening(upgrade: nat, i: nat)
    requires upgrade > 120 && 0 <= i < 3
    ensures LateStep(upgrade, i)
  {
  }

  lemma LateContent(upgrade: nat)
    requires upgrade > 120
    ensures LateStep(upgrade, 3)
  {
  }

  lemma LateAck(upgrade: nat, i: nat)
    requires upgrade > 120 && 4 <= i < 6
    ensures LateStep(upgrade, i)
  {
  }

  lemma LateOverlap(upgrade: nat, i: nat)
    requires upgrade > 120 && 6 <= i < 9
    ensures LateStep(upgrade, i)
  {
  }

  lemma LateReset(upgrade: nat, i: nat)
    requires upgrade > 120 && 9 <= i < 12
    ensures LateStep(upgrade, i)
  {
  }

  lemma LateEnding(upgrade: nat, i: nat)
    requires upgrade > 120 && 12 <= i < 15
    ensures LateStep(upgrade, i)
  {
  }

  lemma LateBroadcasterIsSwept(upgrade: nat)
    requires upgrade > 120
    ensures Legal(LateStates(upgrade), LateEvents(), upgrade)
    ensures |LateStates(upgrade)| == 16 && !LiveSafe(LateStates(upgrade)[15])
    ensures var s := LateStates(upgrade)[15];
            "r" in s.db && s.db["r"].broadcasters > 0 && "r" !in Evict(s.db, s.now, 0)
  {
    forall i | 0 <= i < |LateEvents()|
      ensures Enabled(LateStates(upgrade)[i], LateEvents()[i], upgrade)
      ensures LateStates(upgrade)[i + 1] == Step(LateStates(upgrade)[i], LateEvents()[i], upgrade)
    {
      if i < 3 {
        LateOpening(upgrade, i);
      } else if i == 3 {
        LateContent(upgrade);
      } else if i < 6 {
        LateAck(upgrade, i);
      } else if i < 9 {
        LateOverlap(upgrade, i);
      } else if i < 12 {
        LateReset(upgrade, i);
      } else {
        LateEnding(upgrade, i);
      }
      assert LateStep(upgrade, i);
    }
    var s := LateStates(upgrade)[15];
    SweepLeaves(s.db, s.now, 0, "r");
    assert "r" in s.db && "r" !in Evict(s.db, s.now, 0);
    assert !SweepProof(s, "r");
  }

  /** Live rooms are safe in every run exactly when the upgrade delay is bounded
      by 120 seconds. */
  lemma LiveRoomsAreSafeIff(upgrade: nat)
    ensures (forall states: seq<State>, events: seq<Event>, n: nat ::
               Legal(states, events, upgrade) && n < |states| ==> LiveSafe(states[n]))
            <==> upgrade <= 120
  {
    if upgrade <= 120 {
      forall states: seq<State>, events: seq<Event>, n: nat | Legal(states, events, upgrade) && n < |states|
        ensures LiveSafe(states[n])
      {
        LiveRoomsAreSafe(states, events, upgrade, n);
      }
    } else {
      LateBroadcasterIsSwept(upgrade);
    }
  }
}
