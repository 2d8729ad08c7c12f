/** One room's live path while it exists: ingest loops store and then publish
    (`ingest` in src/server/mod.rs), the fan-out task emits, viewers register
    and then snapshot (`ViewerDelivery::join` in src/server/viewers.rs).

    A step is one atomic action of one task; every interleaving is a run. The log
    numbers accepted frames; a frame is known by its position in it. One emit
    carries any number of consecutive published frames, which covers every way
    the fan-out task coalesces them. */
module Delivery {
  import opened Prelude
  import History
  import IngestProtocol
  import Rooms
  import Transport

  datatype Kind = SizeKind | DataKind

  /** An ingest loop: the frames its connection delivers, how many it has stored,
      and the position it has stored but not yet published. */
  datatype Loop = Loop(wire: seq<Kind>, stored: nat, holding: Option<nat>)

  /** What a joiner read: whether the room had a size, and the history, which is
      the binary part of log positions `lo` up to `hi`. The room had been claimed at
      position `claimed` and its history last cleared at `cleared`. */
  datatype Snap = Snap(size: bool, lo: nat, hi: nat, claimed: nat, cleared: nat)

  /** A viewer's queue has been given the published frames `from` up to `upto`. */
  datatype Viewer = Viewer(registered: bool, from: nat, upto: nat, joinedAt: nat, snap: Option<Snap>)

  /** `cut` is where the room's history starts: trimming and resets move it on. A
      room that vanishes is forgotten, and the next frame claims a new one. */
  datatype State = State(
    log: seq<Kind>,
    cut: nat,
    claimed: nat,
    cleared: nat,
    hasSize: bool,
    published: seq<nat>,
    emitted: nat,
    loops: map<nat, Loop>,
    viewers: map<nat, Viewer>)

  const START: State := State([], 0, 0, 0, false, [], 0, map[], map[])

  datatype Event =
    | Attach(l: nat, wire: seq<Kind>)
    | Store(l: nat, cut: nat)
    | Publish(l: nat)
    | Emit(n: nat, lost: set<nat>)
    | ResetRoom
    | Vanish // deleted or evicted, under running loops
    | Register(v: nat)
    | Snapshot(v: nat)
    | Leave(v: nat)

  /** No binary frame comes before the first size frame. */
  ghost predicate SizeFirst(wire: seq<Kind>) {
    forall p :: 0 <= p < |wire| && wire[p].DataKind? ==> exists q :: 0 <= q < p && wire[q].SizeKind?
  }

  /** What a connection's wire holds for the room: resets and pings store nothing. */
  function Kinds(wire: seq<Transport.Frame>): (kinds: seq<Kind>) {
    if wire == [] then []
    else
      var rest := Kinds(wire[..|wire| - 1]);
      match wire[|wire| - 1]
      case SizeFrame(_) => rest + [SizeKind]
      case Data(_) => rest + [DataKind]
      case Reset => rest
      case Ping => rest
  }

  lemma {:induction false} SizedKinds(wire: seq<Transport.Frame>)
    requires IngestProtocol.Sized(wire)
    ensures exists q :: 0 <= q < |Kinds(wire)| && Kinds(wire)[q].SizeKind?
    decreases |wire|
  {
    var front := wire[..|wire| - 1];
    if wire[|wire| - 1].SizeFrame? {
      assert Kinds(wire)[|Kinds(front)|].SizeKind?;
    } else {
      var p :| 0 <= p < |wire| && wire[p].SizeFrame?;
      assert front[p].SizeFrame?;
      SizedKinds(front);
      var q :| 0 <= q < |Kinds(front)| && Kinds(front)[q].SizeKind?;
      assert Kinds(wire)[q] == Kinds(front)[q];
    }
  }

  lemma {:induction false} KindsSizeFirst(wire: seq<Transport.Frame>)
    requires IngestProtocol.SizeFirst(wire)
    ensures SizeFirst(Kinds(wire))
    decreases |wire|
  {
    if wire != [] {
      var front, last := wire[..|wire| - 1], wire[|wire| - 1];
      forall p | 0 <= p < |front| && front[p].Data? ensures IngestProtocol.Sized(front[..p]) {
        assert wire[p] == front[p] && wire[..p] == front[..p];
      }
      KindsSizeFirst(front);
      var kinds := Kinds(front);
      forall p | 0 <= p < |Kinds(wire)| && Kinds(wire)[p].DataKind?
        ensures exists q :: 0 <= q < p && Kinds(wire)[q].SizeKind?
      {
        if p < |kinds| {
          var q :| 0 <= q < p && kinds[q].SizeKind?;
          assert Kinds(wire)[q].SizeKind?;
        } else {
          assert IngestProtocol.Sized(wire[..|wire| - 1]);
          SizedKinds(front);
          var q :| 0 <= q < |kinds| && kinds[q].SizeKind?;
          assert Kinds(wire)[q].SizeKind?;
        }
      }
    }
  }

  /** What `Attach` asks of a connection's wire holds of every wire there is. */
  lemma WiresAreSizeFirst(w: IngestProtocol.World, i: nat)
    requires IngestProtocol.Reachable(w) && i < |w.conns|
    ensures SizeFirst(Kinds(w.conns[i].wire))
  {
    IngestProtocol.SizeBeforeContentOnWires(w, i);
    KindsSizeFirst(w.conns[i].wire);
  }

  ghost predicate Enabled(s: State, e: Event) {
    match e
    case Attach(l, wire) => l !in s.loops && SizeFirst(wire)
    case Store(l, cut) =>
      l in s.loops && s.loops[l].holding.None? && s.loops[l].stored < |s.loops[l].wire|
      && if s.loops[l].wire[s.loops[l].stored].DataKind? then s.cut <= cut <= |s.log| else cut == s.cut
    case Publish(l) => l in s.loops && s.loops[l].holding.Some?
    case Emit(n, _) => 0 < n <= |s.published| - s.emitted
    case ResetRoom => true
    case Vanish => true
    case Register(v) => v !in s.viewers
    case Snapshot(v) => v in s.viewers && s.viewers[v].snap.None?
    case Leave(v) => v in s.viewers
  }

  ghost function Step(s: State, e: Event): (after: State)
    requires Enabled(s, e)
  {
    match e
    case Attach(l, wire) => s.(loops := s.loops[l := Loop(wire, 0, None)])
    case Store(l, cut) =>
      var loop := s.loops[l];
      var kind := loop.wire[loop.stored];
      s.(log := s.log + [kind], cut := cut, hasSize := s.hasSize || kind.SizeKind?,
         loops := s.loops[l := loop.(stored := loop.stored + 1, holding := Some(|s.log|))])
    case Publish(l) =>
      s.(published := s.published + [s.loops[l].holding.value],
         loops := s.loops[l := s.loops[l].(holding := None)])
    case Emit(n, lost) =>
      s.(emitted := s.emitted + n,
         viewers := map v | v in s.viewers ::
           if !s.viewers[v].registered then s.viewers[v]
           else if v in lost then s.viewers[v].(registered := false)
           else s.viewers[v].(upto := s.emitted + n))
    case ResetRoom => s.(cut := |s.log|, cleared := |s.log|)
    case Vanish => s.(cut := |s.log|, claimed := |s.log|, cleared := |s.log|, hasSize := false)
    case Register(v) => s.(viewers := s.viewers[v := Viewer(true, s.emitted, s.emitted, |s.log|, None)])
    case Snapshot(v) =>
      var snap := Snap(s.hasSize, s.cut, |s.log|, s.claimed, s.cleared);
      s.(viewers := s.viewers[v := s.viewers[v].(snap := Some(snap))])
    case Leave(v) => s.(viewers := s.viewers[v := s.viewers[v].(registered := false)])
  }

  ghost predicate IsRun(states: seq<State>, events: seq<Event>) {
    && |states| == |events| + 1 && states[0] == START
    && forall i :: 0 <= i < |events| ==> Enabled(states[i], events[i]) && states[i + 1] == Step(states[i], events[i])
  }

  // ---- Nothing is missed ----

  ghost predicate InFlight(s: State, i: nat) {
    exists l :: l in s.loops && s.loops[l].holding == Some(i)
  }

  ghost predicate ViewerOk(s: State, v: Viewer) {
    && v.from <= v.upto <= s.emitted <= |s.published| && v.joinedAt <= |s.log|
    && (v.registered ==> v.upto == s.emitted)
    && (v.joinedAt == 0 ==> v.from == 0)
    && (forall k :: 0 <= k < v.from ==> s.published[k] < v.joinedAt)
    && (v.snap.Some? ==> v.joinedAt <= v.snap.value.hi <= |s.log| && v.snap.value.lo <= v.snap.value.hi)
  }

  ghost predicate Tracked(s: State) {
    && s.cut <= |s.log| && s.emitted <= |s.published| && (s.log == [] ==> s.published == [])
    && (forall k :: 0 <= k < |s.published| ==> s.published[k] < |s.log|)
    && (forall l :: l in s.loops && s.loops[l].holding.Some? ==> s.loops[l].holding.value < |s.log|)
    && (forall i :: 0 <= i < |s.log| ==> i in s.published || InFlight(s, i))
  }

  ghost predicate Inv(s: State) {
    Tracked(s) && forall v :: v in s.viewers ==> ViewerOk(s, s.viewers[v])
  }

  lemma StoreTracked(s: State, l: nat, cut: nat)
    requires Tracked(s) && Enabled(s, Store(l, cut))
    ensures Tracked(Step(s, Store(l, cut)))
  {
    var t := Step(s, Store(l, cut));
    forall i | 0 <= i < |t.log| ensures i in t.published || InFlight(t, i) {
      if i == |s.log| {
        assert t.loops[l].holding == Some(i);
      } else if i !in s.published {
        assert InFlight(s, i);
        var m :| m in s.loops && s.loops[m].holding == Some(i);
        assert t.loops[m].holding == Some(i);
      }
    }
  }

  lemma PublishTracked(s: State, l: nat)
    requires Tracked(s) && Enabled(s, Publish(l))
    ensures Tracked(Step(s, Publish(l)))
  {
    var t := Step(s, Publish(l));
    forall i | 0 <= i < |t.log| ensures i in t.published || InFlight(t, i) {
      if i == s.loops[l].holding.value {
        assert t.published[|s.published|] == i;
      } else if i in s.published {
        var k :| 0 <= k < |s.published| && s.published[k] == i;
        assert t.published[k] == i;
      } else {
        assert InFlight(s, i);
        var m :| m in s.loops && s.loops[m].holding == Some(i);
        assert t.loops[m].holding == Some(i);
      }
    }
  }

  lemma StepTracked(s: State, e: Event)
    requires Tracked(s) && Enabled(s, e)
    ensures Tracked(Step(s, e))
  {
    match e {
      case Store(l, cut) => StoreTracked(s, l, cut);
      case Publish(l) => PublishTracked(s, l);
      case _ =>
        var t := Step(s, e);
        forall i | 0 <= i < |t.log| ensures i in t.published || InFlight(t, i) {
          if i !in s.published {
            assert InFlight(s, i);
            var m :| m in s.loops && s.loops[m].holding == Some(i);
            assert t.loops[m].holding == Some(i);
          }
        }
    }
  }

  lemma StepKeeps(s: State, e: Event)
    requires Inv(s) && Enabled(s, e)
    ensures Inv(Step(s, e))
  {
    StepTracked(s, e);
    var t := Step(s, e);
    forall v | v in t.viewers ensures ViewerOk(t, t.viewers[v]) {
      if v in s.viewers {
        assert ViewerOk(s, s.viewers[v]);
      }
    }
  }

  lemma {:induction false} RunInv(states: seq<State>, events: seq<Event>, n: nat)
    requires IsRun(states, events) && n < |states|
    ensures Inv(states[n])
  {
    if n > 0 {
      RunInv(states, events, n - 1);
      StepKeeps(states[n - 1], events[n - 1]);
    }
  }

  /** Where an accepted frame is, seen from a viewer that has its snapshot. */
  ghost predicate NotMissed(s: State, v: Viewer, i: nat)
    requires v.snap.Some? && v.from <= v.upto <= |s.published| && s.emitted <= |s.published|
  {
    || i < v.snap.value.lo                                    // trimmed or reset before the snapshot
    || v.snap.value.lo <= i < v.snap.value.hi                 // in the snapshot
    || InFlight(s, i)                                         // stored, not yet published
    || i in s.published[s.emitted..]                          // waiting for the fan-out task
    || i in s.published[v.from..v.upto]                       // given to the viewer's queue
    || !v.registered                                          // the viewer has lost its place
  }

  /** Join never misses a frame, under every interleaving of storing, publishing,
      fanning out, registering and taking the snapshot. */
  lemma JoinNeverMisses(states: seq<State>, events: seq<Event>, n: nat, v: nat, i: nat)
    requires IsRun(states, events) && n < |states|
    requires v in states[n].viewers && states[n].viewers[v].snap.Some? && i < |states[n].log|
    ensures states[n].emitted <= |states[n].published|
    ensures states[n].viewers[v].from <= states[n].viewers[v].upto <= |states[n].published|
    ensures NotMissed(states[n], states[n].viewers[v], i)
  {
    RunInv(states, events, n);
    var s := states[n];
    assert ViewerOk(s, s.viewers[v]);
    PlaceOf(s, s.viewers[v], i);
  }

  lemma PlaceOf(s: State, v: Viewer, i: nat)
    requires Tracked(s) && ViewerOk(s, v) && v.snap.Some? && i < |s.log|
    ensures NotMissed(s, v, i)
  {
    if i in s.published && i >= v.snap.value.hi && v.registered {
      var k :| 0 <= k < |s.published| && s.published[k] == i;
      assert k >= v.from;
      if k < v.upto {
        assert s.published[v.from..v.upto][k - v.from] == i;
      } else {
        assert s.published[s.emitted..][k - s.emitted] == i;
      }
    }
  }

  // ---- With a single ingest loop ----

  ghost predicate OneLoop(states: seq<State>, l: nat) {
    forall i :: 0 <= i < |states| ==> states[i].loops.Keys <= {l}
  }

  ghost predicate InOrder(s: State, l: nat) {
    && s.loops.Keys <= {l}
    && (forall k :: 0 <= k < |s.published| ==> s.published[k] == k)
    && |s.log| == |s.published| + (if l in s.loops && s.loops[l].holding.Some? then 1 else 0)
    && (l in s.loops && s.loops[l].holding.Some? ==> s.loops[l].holding.value == |s.published|)
  }

  lemma {:induction false} OneLoopInOrder(states: seq<State>, events: seq<Event>, n: nat, l: nat)
    requires IsRun(states, events) && n < |states| && OneLoop(states, l)
    ensures InOrder(states[n], l)
  {
    if n > 0 {
      OneLoopInOrder(states, events, n - 1, l);
      assert Enabled(states[n - 1], events[n - 1]) && states[n] == Step(states[n - 1], events[n - 1]);
    }
  }

  /** With one ingest loop, a viewer gets `log[lo..hi]` from its snapshot and then
      `log[from..upto]` from its queue, with `from <= hi`: the two may overlap,
      but there is never a gap, and the queue follows the log's own order. */
  lemma SingleLoopHasNoGap(states: seq<State>, events: seq<Event>, n: nat, l: nat, v: nat)
    requires IsRun(states, events) && n < |states| && OneLoop(states, l)
    requires v in states[n].viewers && states[n].viewers[v].snap.Some?
    ensures var s := states[n]; var viewer := s.viewers[v];
            && viewer.from <= viewer.upto <= |s.published| <= |s.log| <= |s.published| + 1
            && viewer.from <= viewer.snap.value.hi <= |s.log|
            && (forall k :: viewer.from <= k < viewer.upto ==> s.published[k] == k)
  {
    RunInv(states, events, n);
    OneLoopInOrder(states, events, n, l);
    var s := states[n];
    var viewer := s.viewers[v];
    assert ViewerOk(s, viewer);
    if viewer.from > 0 {
      assert s.published[viewer.from - 1] < viewer.joinedAt;
    }
  }

  // ---- Size before content ----

  ghost predicate Sized(s: State)
    requires Tracked(s)
  {
    exists k :: 0 <= k < |s.published| && s.log[s.published[k]].SizeKind?
  }

  /** How many of a loop's frames are published. */
  function Done(loop: Loop): (n: int) {
    loop.stored - if loop.holding.Some? then 1 else 0
  }

  ghost predicate LoopSized(s: State, loop: Loop)
    requires Tracked(s) && (loop.holding.Some? ==> loop.holding.value < |s.log|)
  {
    && SizeFirst(loop.wire) && (loop.holding.Some? ==> loop.stored > 0) && loop.stored <= |loop.wire|
    && (forall j :: 0 <= j < loop.stored && loop.wire[j].SizeKind? ==> s.hasSize)
    && (forall j :: 0 <= j < Done(loop) && loop.wire[j].SizeKind? ==> Sized(s))
    && (loop.holding.Some? ==> s.log[loop.holding.value] == loop.wire[loop.stored - 1])
  }

  ghost predicate SizeInv(s: State)
    requires Tracked(s)
  {
    && (!s.hasSize ==> s.log == [])
    && (forall l :: l in s.loops ==> LoopSized(s, s.loops[l]))
    && (forall k :: 0 <= k < |s.published| && s.log[s.published[k]].DataKind? ==>
          exists j :: 0 <= j < k && s.log[s.published[j]].SizeKind?)
    && (forall v :: v in s.viewers && s.viewers[v].snap.Some? && !s.viewers[v].snap.value.size ==>
          s.viewers[v].snap.value.hi == 0)
  }

  lemma SizedLasts(s: State, t: State)
    requires Tracked(s) && Tracked(t) && Sized(s) && s.log <= t.log && s.published <= t.published
    ensures Sized(t)
  {
    var k :| 0 <= k < |s.published| && s.log[s.published[k]].SizeKind?;
    assert t.log[t.published[k]].SizeKind?;
  }

  lemma LoopSizedLasts(s: State, t: State, loop: Loop)
    requires Tracked(s) && Tracked(t) && (loop.holding.Some? ==> loop.holding.value < |s.log|)
    requires LoopSized(s, loop) && s.log <= t.log && s.published <= t.published && (s.hasSize ==> t.hasSize)
    ensures LoopSized(t, loop)
  {
    if Sized(s) {
      SizedLasts(s, t);
    }
  }

  lemma StoreSized(s: State, l: nat, cut: nat)
    requires Tracked(s) && SizeInv(s) && Enabled(s, Store(l, cut)) && Tracked(Step(s, Store(l, cut)))
    ensures SizeInv(Step(s, Store(l, cut)))
  {
    var t, loop := Step(s, Store(l, cut)), s.loops[l];
    assert LoopSized(s, loop);
    var kind := loop.wire[loop.stored];
    if kind.DataKind? {
      var q :| 0 <= q < loop.stored && loop.wire[q].SizeKind?;
      assert s.hasSize;
    }
    LoopSizedLasts(s, t, loop);
    forall m | m in t.loops ensures LoopSized(t, t.loops[m]) {
      if m != l {
        LoopSizedLasts(s, t, s.loops[m]);
      } else {
        assert Done(t.loops[l]) == Done(loop);
      }
    }
  }

  lemma PublishSized(s: State, l: nat)
    requires Tracked(s) && SizeInv(s) && Enabled(s, Publish(l)) && Tracked(Step(s, Publish(l)))
    ensures SizeInv(Step(s, Publish(l)))
  {
    var t, loop := Step(s, Publish(l)), s.loops[l];
    assert LoopSized(s, loop);
    var last, i := |s.published|, loop.holding.value;
    assert t.published[last] == i;
    forall k | 0 <= k < |t.published| && t.log[t.published[k]].DataKind?
      ensures exists j :: 0 <= j < k && t.log[t.published[j]].SizeKind?
    {
      if k < last {
        var j :| 0 <= j < k && s.log[s.published[j]].SizeKind?;
        assert t.log[t.published[j]].SizeKind?;
      } else {
        var q :| 0 <= q < loop.stored - 1 && loop.wire[q].SizeKind?;
        assert Sized(s);
        var j :| 0 <= j < |s.published| && s.log[s.published[j]].SizeKind?;
        assert t.log[t.published[j]].SizeKind?;
      }
    }
    PublishLoops(s, l);
  }

  lemma PublishLoops(s: State, l: nat)
    requires Tracked(s) && SizeInv(s) && Enabled(s, Publish(l)) && Tracked(Step(s, Publish(l)))
    ensures var t := Step(s, Publish(l)); forall m :: m in t.loops ==> LoopSized(t, t.loops[m])
  {
    var t := Step(s, Publish(l));
    forall m | m in t.loops ensures LoopSized(t, t.loops[m]) {
      LoopSizedLasts(s, t, s.loops[m]);
      if m == l && s.loops[l].wire[s.loops[l].stored - 1].SizeKind? {
        assert t.log[t.published[|s.published|]].SizeKind?;
        assert Sized(t);
      }
    }
  }

  lemma OtherSized(s: State, e: Event)
    requires Tracked(s) && SizeInv(s) && Enabled(s, e) && Tracked(Step(s, e))
    requires !e.Store? && !e.Publish? && !e.Vanish?
    ensures SizeInv(Step(s, e))
  {
    var t := Step(s, e);
    forall m | m in t.loops ensures LoopSized(t, t.loops[m]) {
      if m in s.loops {
        LoopSizedLasts(s, t, s.loops[m]);
      }
    }
  }

  /** The room is neither deleted nor evicted on the way. */
  ghost predicate RoomLives(events: seq<Event>) {
    forall i :: 0 <= i < |events| ==> !events[i].Vanish?
  }

  lemma {:induction false} RunSized(states: seq<State>, events: seq<Event>, n: nat)
    requires IsRun(states, events) && n < |states| && RoomLives(events)
    ensures Tracked(states[n]) && SizeInv(states[n])
  {
    RunInv(states, events, n);
    if n > 0 {
      RunSized(states, events, n - 1);
      var s, e := states[n - 1], events[n - 1];
      match e {
        case Store(l, cut) => StoreSized(s, l, cut);
        case Publish(l) => PublishSized(s, l);
        case _ => OtherSized(s, e);
      }
    }
  }

  /** What a viewer has been sent, in order: catch-up, then its queue. */
  function Stream(s: State, v: Viewer): (kinds: seq<Kind>)
    requires Tracked(s) && ViewerOk(s, v) && v.snap.Some?
  {
    (if v.snap.value.size then [SizeKind] else [])
    + (if DataKind in s.log[v.snap.value.lo..v.snap.value.hi] then [DataKind] else [])
    + seq(v.upto - v.from, k requires 0 <= k < v.upto - v.from => s.log[s.published[v.from + k]])
  }

  /** Size before content. In a room that lives, every viewer is sent a size
      frame before its first binary frame, whether from history or live, across
      reconnects, overlapping loops, resets, trims and concurrent joins. */
  lemma SizeBeforeContent(states: seq<State>, events: seq<Event>, n: nat, v: nat)
    requires IsRun(states, events) && n < |states| && RoomLives(events)
    requires v in states[n].viewers && states[n].viewers[v].snap.Some?
    ensures Tracked(states[n]) && ViewerOk(states[n], states[n].viewers[v])
    ensures SizeFirst(Stream(states[n], states[n].viewers[v]))
  {
    RunInv(states, events, n);
    RunSized(states, events, n);
    StreamSizeFirst(states[n], v);
  }

  lemma StreamSizeFirst(s: State, v: nat)
    requires Inv(s) && SizeInv(s) && v in s.viewers && s.viewers[v].snap.Some?
    ensures SizeFirst(Stream(s, s.viewers[v]))
  {
    var viewer := s.viewers[v];
    assert ViewerOk(s, viewer);
    var stream := Stream(s, viewer);
    forall p | 0 <= p < |stream| && stream[p].DataKind? ensures exists q :: 0 <= q < p && stream[q].SizeKind? {
      if viewer.snap.value.size {
        assert stream[0].SizeKind?;
      } else {
        assert s.log[s.published[p]].DataKind?;
        var j :| 0 <= j < p && s.log[s.published[j]].SizeKind?;
        assert stream[j] == s.log[s.published[viewer.from + j]];
      }
    }
  }

  // ---- When a room vanishes ----

  /** At the table: an accepted binary frame leaves content without a size exactly
      when the room is new or had none. */
  lemma AppendLosesSize(db: Rooms.Db, now: nat, id: string, secret: string, message: Blob)
    requires (id in db ==> db[id].password == secret) && message != []
    ensures var (after, r) := Rooms.Append(db, now, id, secret, None, Some(message));
            var snap := Rooms.Look(after, now, id);
            && snap.Some? && snap.value.history.Some?
            && (snap.value.size.None? <==> id !in db || db[id].size.None?)
            && (r.Claimed? <==> id !in db)
  {
    var before := if id in db then db[id].messages else [];
    History.TrimmedIsLongestFit(before + [message], Rooms.MAX_HISTORY_MESSAGES, Rooms.MAX_HISTORY_BYTES);
    var all := before + [message];
    assert History.Fits(all[|all| - 1..], Rooms.MAX_HISTORY_MESSAGES, Rooms.MAX_HISTORY_BYTES);
  }

  ghost predicate Has(log: seq<Kind>, kind: Kind, lo: nat, hi: nat) {
    exists i :: lo <= i < hi && i < |log| && log[i] == kind
  }

  /** Trimming never takes the newest chunk, so what the room still has is what was
      stored since it was claimed, or since its history was cleared. */
  ghost predicate RoomFaithful(s: State) {
    && s.claimed <= s.cleared <= s.cut <= |s.log|
    && (s.hasSize <==> Has(s.log, SizeKind, s.claimed, |s.log|))
    && (Has(s.log, DataKind, s.cut, |s.log|) <==> Has(s.log, DataKind, s.cleared, |s.log|))
  }

  ghost predicate SnapFaithful(log: seq<Kind>, snap: Snap) {
    && snap.claimed <= snap.cleared <= snap.lo <= snap.hi <= |log|
    && (snap.size <==> Has(log, SizeKind, snap.claimed, snap.hi))
    && (Has(log, DataKind, snap.lo, snap.hi) <==> Has(log, DataKind, snap.cleared, snap.hi))
  }

  ghost predicate Faithful(s: State) {
    && RoomFaithful(s)
    && forall v :: v in s.viewers && s.viewers[v].snap.Some? ==> SnapFaithful(s.log, s.viewers[v].snap.value)
  }

  lemma HasMore(log: seq<Kind>, kind: Kind, more: Kind, lo: nat)
    requires lo <= |log|
    ensures Has(log + [more], kind, lo, |log| + 1) <==> Has(log, kind, lo, |log|) || more == kind
  {
    if Has(log, kind, lo, |log|) {
      var i :| lo <= i < |log| && log[i] == kind;
      assert (log + [more])[i] == kind;
    }
    if more == kind {
      assert (log + [more])[|log|] == kind;
    }
    if Has(log + [more], kind, lo, |log| + 1) {
      var i :| lo <= i < |log| + 1 && (log + [more])[i] == kind;
      assert i < |log| ==> log[i] == kind;
    }
  }

  lemma HasUpTo(log: seq<Kind>, more: Kind, kind: Kind, lo: nat, hi: nat)
    requires hi <= |log|
    ensures Has(log + [more], kind, lo, hi) <==> Has(log, kind, lo, hi)
  {
    if Has(log, kind, lo, hi) {
      var i :| lo <= i < hi && log[i] == kind;
      assert (log + [more])[i] == kind;
    }
    if Has(log + [more], kind, lo, hi) {
      var i :| lo <= i < hi && (log + [more])[i] == kind;
      assert log[i] == kind;
    }
  }

  lemma StoreFaithful(s: State, kind: Kind, cut: nat)
    requires RoomFaithful(s) && if kind.DataKind? then s.cut <= cut <= |s.log| else cut == s.cut
    ensures RoomFaithful(s.(log := s.log + [kind], cut := cut, hasSize := s.hasSize || kind.SizeKind?))
  {
    HasMore(s.log, SizeKind, kind, s.claimed);
    HasMore(s.log, DataKind, kind, cut);
    HasMore(s.log, DataKind, kind, s.cleared);
  }

  lemma SnapLasts(log: seq<Kind>, more: Kind, snap: Snap)
    requires SnapFaithful(log, snap)
    ensures SnapFaithful(log + [more], snap)
  {
    HasUpTo(log, more, SizeKind, snap.claimed, snap.hi);
    HasUpTo(log, more, DataKind, snap.lo, snap.hi);
    HasUpTo(log, more, DataKind, snap.cleared, snap.hi);
  }

  lemma StepFaithful(s: State, e: Event, t: State)
    requires Faithful(s) && Enabled(s, e) && t == Step(s, e)
    ensures Faithful(t)
  {
    if e.Store? {
      var kind := s.loops[e.l].wire[s.loops[e.l].stored];
      StoreFaithful(s, kind, e.cut);
      forall v | v in t.viewers && t.viewers[v].snap.Some? ensures SnapFaithful(t.log, t.viewers[v].snap.value) {
        SnapLasts(s.log, kind, s.viewers[v].snap.value);
      }
    }
  }

  lemma {:induction false} RunFaithful(states: seq<State>, events: seq<Event>, n: nat)
    requires IsRun(states, events) && n < |states|
    ensures Faithful(states[n])
  {
    if n > 0 {
      RunFaithful(states, events, n - 1);
      StepFaithful(states[n - 1], events[n - 1], states[n]);
    }
  }

  /** The snapshot replays content that no size precedes. */
  ghost predicate Barren(log: seq<Kind>, snap: Snap) {
    Has(log, DataKind, snap.lo, snap.hi) && !snap.size
  }

  /** When a joiner's catch-up is content without a size. Over every run, whatever
      is trimmed, reset, deleted or evicted, the snapshot has content and no size
      exactly when no size was stored since the room was last claimed and a binary
      frame was stored since its history was last cleared. */
  lemma BarrenExactly(states: seq<State>, events: seq<Event>, n: nat, v: nat)
    requires IsRun(states, events) && n < |states|
    requires v in states[n].viewers && states[n].viewers[v].snap.Some?
    ensures var s, snap := states[n], states[n].viewers[v].snap.value;
            Barren(s.log, snap) <==>
              !Has(s.log, SizeKind, snap.claimed, snap.hi) && Has(s.log, DataKind, snap.cleared, snap.hi)
  {
    RunFaithful(states, events, n);
  }

  /** While the room lives no snapshot is like that. */
  lemma LivingRoomIsNeverBarren(states: seq<State>, events: seq<Event>, n: nat, v: nat)
    requires IsRun(states, events) && n < |states| && RoomLives(events)
    requires v in states[n].viewers && states[n].viewers[v].snap.Some?
    ensures !Barren(states[n].log, states[n].viewers[v].snap.value)
  {
    RunSized(states, events, n);
  }

  /** The first frame that the viewer's queue was given is a binary one. */
  predicate ContentQueuedFirst(s: State, w: Viewer)
    requires Tracked(s) && ViewerOk(s, w)
  {
    w.from < w.upto && s.log[s.published[w.from]].DataKind?
  }

  lemma StreamStarts(s: State, w: Viewer)
    requires Tracked(s) && ViewerOk(s, w) && w.snap.Some?
    ensures SizeFirst(Stream(s, w)) <==>
              w.snap.value.size || (!Barren(s.log, w.snap.value) && !ContentQueuedFirst(s, w))
  {
    var stream, snap := Stream(s, w), w.snap.value;
    ContentInHistory(s.log, snap.lo, snap.hi);
    if snap.size {
      assert stream[0].SizeKind?;
    } else if Barren(s.log, snap) || ContentQueuedFirst(s, w) {
      assert stream[0].DataKind?;
    } else {
      assert stream != [] ==> stream[0].SizeKind?;
    }
  }

  lemma ContentInHistory(log: seq<Kind>, lo: nat, hi: nat)
    requires lo <= hi <= |log|
    ensures DataKind in log[lo..hi] <==> Has(log, DataKind, lo, hi)
  {
    if i :| lo <= i < hi && log[i] == DataKind {
      assert log[lo..hi][i - lo] == DataKind;
    }
  }

  /** When content comes before any size, exactly. Over every run, of all a viewer
      is sent, catch-up and queue, a binary frame is the first exactly when no size
      was stored between the room's last claim and the snapshot, and either a binary
      frame was stored since its history was last cleared, or the queue starts with
      one. */
  lemma ContentFirstExactly(states: seq<State>, events: seq<Event>, n: nat, v: nat)
    requires IsRun(states, events) && n < |states|
    requires v in states[n].viewers && states[n].viewers[v].snap.Some?
    ensures Tracked(states[n]) && ViewerOk(states[n], states[n].viewers[v])
    ensures var s, w := states[n], states[n].viewers[v]; var snap := w.snap.value;
            !SizeFirst(Stream(s, w)) <==>
              && !Has(s.log, SizeKind, snap.claimed, snap.hi)
              && (Has(s.log, DataKind, snap.cleared, snap.hi) || ContentQueuedFirst(s, w))
  {
    RunInv(states, events, n);
    RunFaithful(states, events, n);
    var s := states[n];
    assert ViewerOk(s, s.viewers[v]) && SnapFaithful(s.log, s.viewers[v].snap.value);
    StreamStarts(s, s.viewers[v]);
  }
}
