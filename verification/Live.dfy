/** The live stream of every viewer (src/server/viewers.rs, src/server/mod.rs):
    ingest loops storing and then publishing, the fan-out task draining, merging and
    sending, controls that go past its queue, viewers coming, taking their snapshot
    and going, and each viewer's own relay passes, in every interleaving.

    A viewer's `covers` are what each message it was sent stands for; run together
    they are the stream it would have been sent item by item. */
module Live {
  import opened Prelude
  import opened Viewers
  import opened Fanout

  /** Single messages sent as one; `bypass` when they did not come off the queue. */
  datatype Cover = Cover(group: seq<Msg>, bypass: bool)

  /** `missed` is what had been said in the room before the viewer registered. The
      relay has taken `holding` messages it has not finished writing; `frames` is
      what the socket took, each frame standing for one of `groups`. */
  datatype View = View(
    covers: seq<Cover>,
    missed: seq<Msg>,
    holding: nat,
    frames: seq<Msg>,
    groups: seq<seq<Msg>>,
    broken: bool)

  /** What a joiner read of its room: the history, which is the payloads `lo` up to
      `hi` of those stored by then. */
  datatype Snap = Snap(history: seq<Blob>, lo: nat, hi: nat)

  /** `log` is what was stored, `holding` what each ingest loop has stored and not yet
      published, `queued` what the fan-out task has yet to take, `items` what it took. */
  datatype State = State(
    hub: Hub,
    log: seq<Item>,
    holding: map<nat, Item>,
    queued: seq<Item>,
    snaps: map<nat, Snap>,
    items: seq<Item>,
    shipped: seq<Emit>,
    shippedGroups: seq<seq<Msg>>,
    outbox: seq<Emit>,
    outGroups: seq<seq<Msg>>,
    views: map<nat, View>)

  const START: State := State(EMPTY, [], map[], [], map[], [], [], [], [], [], map[])

  datatype Event =
    | Stores(l: nat, item: Item)
    | Publishes(l: nat)
    | Snapshots(id: nat, lo: nat)
    | Joins(room: string, id: nat)
    | Leaves(room: string, id: nat)
    | Bypasses(room: string, json: string)
    | Drains(batch: seq<Item>, out: seq<Emit>, groups: seq<seq<Msg>>)
    | Ships
    | Takes(id: nat)
    | Finishes(id: nat, frames: seq<Msg>, groups: seq<seq<Msg>>, ok: bool)

  /** Everything a viewer would have been sent, each item and control on its own. */
  function Spoken(covers: seq<Cover>): (msgs: seq<Msg>) {
    if covers == [] then [] else Spoken(covers[..|covers| - 1]) + covers[|covers| - 1].group
  }

  /** The part of it that came off the queue. */
  function Through(covers: seq<Cover>): (msgs: seq<Msg>) {
    if covers == [] then []
    else
      var last := covers[|covers| - 1];
      Through(covers[..|covers| - 1]) + if last.bypass then [] else last.group
  }

  function Heard(views: map<nat, View>, home: map<nat, string>, room: string, c: Cover): (after: map<nat, View>) {
    map id | id in views ::
      if id in home && home[id] == room then views[id].(covers := views[id].covers + [c]) else views[id]
  }

  /** What one relay pass may have done with what it took: the contract of
      `Fanout.Relay`. */
  ghost predicate Passed(taken: seq<Msg>, frames: seq<Msg>, groups: seq<seq<Msg>>, ok: bool) {
    RelayedFront(frames, groups, taken) && (ok ==> Flatten(groups) == taken)
  }

  function Written(v: View, frames: seq<Msg>, groups: seq<seq<Msg>>, ok: bool): (after: View) {
    v.(holding := 0, frames := v.frames + frames, groups := v.groups + groups, broken := !ok)
  }

  predicate Holds(s: State, id: nat) {
    && id in s.views && id in s.hub.relayed
    && 0 < s.views[id].holding <= |s.hub.relayed[id]| && !s.views[id].broken
  }

  function Taken(s: State, id: nat): (msgs: seq<Msg>)
    requires Holds(s, id)
  {
    s.hub.relayed[id][|s.hub.relayed[id]| - s.views[id].holding..]
  }

  /** The payloads of a room among the items. */
  function Payloads(items: seq<Item>, room: string): (payloads: seq<Blob>) { Binaries(Plain(items, room)) }

  /** A snapshot is taken after joining. How much of the front was trimmed or cleared
      is left open. */
  ghost predicate Enabled(s: State, e: Event) {
    && |s.shipped| == |s.shippedGroups| && |s.outbox| == |s.outGroups|
    && match e
       case Stores(l, _) => l !in s.holding
       case Publishes(l) => l in s.holding
       case Snapshots(id, lo) =>
         id in s.views && id in s.hub.home && id !in s.snaps && lo <= |Payloads(s.log, s.hub.home[id])|
       case Joins(_, id) => id !in s.hub.queues
       case Leaves(room, id) => id in s.hub.home && s.hub.home[id] == room
       case Bypasses(_, _) => true
       case Drains(batch, out, groups) => s.outbox == [] && batch <= s.queued && Explains(out, groups, batch)
       case Ships => s.outbox != []
       case Takes(id) => Possible(s.hub, TakeOp(id)) && id in s.views && !s.views[id].broken
       case Finishes(id, frames, groups, ok) => Holds(s, id) && Passed(Taken(s, id), frames, groups, ok)
  }

  ghost function Step(s: State, e: Event): (after: State)
    requires Enabled(s, e)
  {
    match e
    case Stores(l, item) => s.(log := s.log + [item], holding := s.holding[l := item])
    case Publishes(l) => s.(queued := s.queued + [s.holding[l]], holding := s.holding - {l})
    case Snapshots(id, lo) =>
      var payloads := Payloads(s.log, s.hub.home[id]);
      s.(snaps := s.snaps[id := Snap(payloads[lo..], lo, |payloads|)])
    case Joins(room, id) =>
      s.(hub := Join(s.hub, room, id),
         views := s.views[id := View([], Said(s.shipped, s.shippedGroups, room), 0, [], [], false)])
    case Leaves(room, id) => s.(hub := Leave(s.hub, room, id))
    case Bypasses(room, json) =>
      s.(hub := Send(s.hub, room, Control(json)),
         views := Heard(s.views, s.hub.home, room, Cover([Control(json)], true)))
    case Drains(batch, out, groups) =>
      s.(queued := s.queued[|batch|..], items := s.items + batch, outbox := out, outGroups := groups)
    case Ships =>
      var emit, group := s.outbox[0], s.outGroups[0];
      s.(hub := Send(s.hub, emit.room, emit.msg),
         shipped := s.shipped + [emit], shippedGroups := s.shippedGroups + [group],
         outbox := s.outbox[1..], outGroups := s.outGroups[1..],
         views := Heard(s.views, s.hub.home, emit.room, Cover(group, false)))
    case Takes(id) =>
      s.(hub := Take(s.hub, id), views := s.views[id := s.views[id].(holding := s.views[id].holding + 1)])
    case Finishes(id, frames, groups, ok) =>
      var v := s.views[id];
      s.(views := s.views[id := Written(v, frames, groups, ok)])
  }

  ghost predicate IsRun(states: seq<State>, events: seq<Event>) {
    && |states| == |events| + 1 && states[0] == START
    && forall i :: 0 <= i < |events| ==> Enabled(states[i], events[i]) && states[i + 1] == Step(states[i], events[i])
  }

  // ---- The invariant ----

  /** Only controls go past the queue. */
  predicate CoveredBy(msg: Msg, c: Cover) {
    Stands(msg, c.group, FANOUT_MAX_BATCH) && (c.bypass ==> msg.Control?)
  }

  ghost predicate Covered(sent: seq<Msg>, covers: seq<Cover>) {
    |sent| == |covers| && forall i :: 0 <= i < |sent| ==> CoveredBy(sent[i], covers[i])
  }

  /** What was written stands for the front of what was taken, up to what is held;
      after a failed write, for some front of it. */
  ghost predicate WrittenOk(v: View, relayed: seq<Msg>) {
    && Regroups(v.frames, v.groups, Flatten(v.groups), MAX_MERGED)
    && Flatten(v.groups) <= relayed
    && (!v.broken ==> |Flatten(v.groups)| + v.holding == |relayed|)
  }

  ghost predicate ViewOk(v: View, sent: seq<Msg>, relayed: seq<Msg>, said: seq<Msg>) {
    Covered(sent, v.covers) && WrittenOk(v, relayed) && v.missed + Through(v.covers) == said
  }

  /** What had been said in `id`'s room, by the emits sent so far. */
  function SaidTo(home: map<nat, string>, shipped: seq<Emit>, groups: seq<seq<Msg>>, id: nat): (msgs: seq<Msg>)
    requires id in home && |shipped| == |groups|
  {
    Said(shipped, groups, home[id])
  }

  ghost predicate ViewsOk(views: map<nat, View>, sent: map<nat, seq<Msg>>, relayed: map<nat, seq<Msg>>,
                          home: map<nat, string>, shipped: seq<Emit>, groups: seq<seq<Msg>>) {
    && |shipped| == |groups|
    && forall id :: id in views ==>
         && id in sent && id in relayed && id in home
         && ViewOk(views[id], sent[id], relayed[id], SaidTo(home, shipped, groups, id))
  }

  /** What was sent and what is in hand is what the items say, room by room. */
  ghost predicate QueueOk(shipped: seq<Emit>, groups: seq<seq<Msg>>, outbox: seq<Emit>, outGroups: seq<seq<Msg>>,
                          items: seq<Item>) {
    && |shipped| == |groups| && AllStand(outbox, outGroups)
    && forall room :: Said(shipped, groups, room) + Said(outbox, outGroups, room) == Plain(items, room)
  }

  ghost predicate HubOk(s: State) {
    Sound(s.hub) && s.views.Keys == s.hub.queues.Keys
  }

  ghost predicate Inv(s: State) {
    && HubOk(s)
    && ViewsOk(s.views, s.hub.sent, s.hub.relayed, s.hub.home, s.shipped, s.shippedGroups)
    && QueueOk(s.shipped, s.shippedGroups, s.outbox, s.outGroups, s.items)
  }

  lemma CoverMore(sent: seq<Msg>, covers: seq<Cover>, msg: Msg, c: Cover)
    requires Covered(sent, covers) && CoveredBy(msg, c)
    ensures Covered(sent + [msg], covers + [c])
    ensures Through(covers + [c]) == Through(covers) + if c.bypass then [] else c.group
  {
    assert (covers + [c])[..|covers|] == covers;
  }

  /** One more message sent to the viewer's room. */
  lemma ViewHears(v: View, sent: seq<Msg>, relayed: seq<Msg>, said: seq<Msg>, msg: Msg, c: Cover)
    requires ViewOk(v, sent, relayed, said) && CoveredBy(msg, c)
    ensures ViewOk(v.(covers := v.covers + [c]), sent + [msg], relayed, said + if c.bypass then [] else c.group)
  {
    CoverMore(sent, v.covers, msg, c);
    var more := if c.bypass then [] else c.group;
    assert v.missed + (Through(v.covers) + more) == (v.missed + Through(v.covers)) + more;
  }

  lemma RegroupsAppend(frames: seq<Msg>, groups: seq<seq<Msg>>, frames': seq<Msg>, groups': seq<seq<Msg>>, limit: nat)
    requires Regroups(frames, groups, Flatten(groups), limit) && Regroups(frames', groups', Flatten(groups'), limit)
    ensures Regroups(frames + frames', groups + groups', Flatten(groups) + Flatten(groups'), limit)
  {
    FlattenAppend(groups, groups');
    var all, allGroups := frames + frames', groups + groups';
    forall i | 0 <= i < |all| ensures Stands(all[i], allGroups[i], limit) {
      if i < |frames| {
        assert all[i] == frames[i] && allGroups[i] == groups[i];
      } else {
        assert all[i] == frames'[i - |frames|] && allGroups[i] == groups'[i - |frames|];
      }
    }
  }

  /** Fronts of the two parts of what was taken. */
  lemma FrontGoesOn(front: seq<Msg>, more: seq<Msg>, all: seq<Msg>, held: nat)
    requires front <= all && |front| + held == |all| && more <= all[|all| - held..]
    ensures front + more <= all
  {
    assert all == front + all[|all| - held..];
  }

  lemma ViewFinishes(v: View, relayed: seq<Msg>, frames: seq<Msg>, groups: seq<seq<Msg>>, ok: bool)
    requires WrittenOk(v, relayed) && !v.broken && v.holding <= |relayed|
    requires Passed(relayed[|relayed| - v.holding..], frames, groups, ok)
    ensures WrittenOk(Written(v, frames, groups, ok), relayed)
  {
    RegroupsAppend(v.frames, v.groups, frames, groups, MAX_MERGED);
    FrontGoesOn(Flatten(v.groups), Flatten(groups), relayed, v.holding);
  }

  lemma {:induction false} FlattenAppend(xs: seq<seq<Msg>>, ys: seq<seq<Msg>>)
    ensures Flatten(xs + ys) == Flatten(xs) + Flatten(ys)
    decreases |ys|
  {
    if ys == [] {
      assert xs + ys == xs;
    } else {
      var front, last := ys[..|ys| - 1], ys[|ys| - 1];
      FlattenAppend(xs, front);
      assert ys == front + [last] && xs + ys == (xs + front) + [last];
      FlattenSnoc(front, last);
      FlattenSnoc(xs + front, last);
      assert Flatten(xs) + (Flatten(front) + last) == (Flatten(xs) + Flatten(front)) + last;
    }
  }

  lemma ViewTakes(v: View, sent: seq<Msg>, relayed: seq<Msg>, said: seq<Msg>, msg: Msg)
    requires ViewOk(v, sent, relayed, said)
    ensures ViewOk(v.(holding := v.holding + 1), sent, relayed + [msg], said)
  {
    assert relayed <= relayed + [msg];
  }

  lemma FreshView(said: seq<Msg>)
    ensures ViewOk(View([], said, 0, [], [], false), [], [], said)
  {
    assert said + [] == said;
  }

  // ---- Every step keeps it ----

  /** Only `id`'s view and records change. */
  lemma OneViewChanges(views: map<nat, View>, h: Hub, h': Hub, shipped: seq<Emit>, groups: seq<seq<Msg>>,
                       id: nat, v: View)
    requires ViewsOk(views, h.sent, h.relayed, h.home, shipped, groups)
    requires id in h'.sent && id in h'.relayed && id in h'.home
    requires h'.sent == h.sent[id := h'.sent[id]] && h'.relayed == h.relayed[id := h'.relayed[id]]
    requires h'.home == h.home[id := h'.home[id]]
    requires ViewOk(v, h'.sent[id], h'.relayed[id], SaidTo(h'.home, shipped, groups, id))
    ensures ViewsOk(views[id := v], h'.sent, h'.relayed, h'.home, shipped, groups)
  {
    var views' := views[id := v];
    forall k | k in views'
      ensures k in h'.sent && k in h'.relayed && k in h'.home
      ensures ViewOk(views'[k], h'.sent[k], h'.relayed[k], SaidTo(h'.home, shipped, groups, k))
    {
      if k != id {
        assert ViewOk(views[k], h.sent[k], h.relayed[k], SaidTo(h.home, shipped, groups, k));
      }
    }
  }

  lemma JoinViews(s: State, room: string, id: nat, h: Hub)
    requires h == Join(s.hub, room, id)
    requires ViewsOk(s.views, s.hub.sent, s.hub.relayed, s.hub.home, s.shipped, s.shippedGroups)
    ensures ViewsOk(s.views[id := View([], Said(s.shipped, s.shippedGroups, room), 0, [], [], false)],
                    h.sent, h.relayed, h.home, s.shipped, s.shippedGroups)
  {
    FreshView(Said(s.shipped, s.shippedGroups, room));
    OneViewChanges(s.views, s.hub, h, s.shipped, s.shippedGroups, id,
                   View([], Said(s.shipped, s.shippedGroups, room), 0, [], [], false));
  }

  /** Everybody in the room hears one more message, standing for `c`. */
  lemma SpeakViews(s: State, room: string, msg: Msg, c: Cover, h: Hub, shipped: seq<Emit>, groups: seq<seq<Msg>>)
    requires HubOk(s) && h == Send(s.hub, room, msg) && CoveredBy(msg, c)
    requires ViewsOk(s.views, s.hub.sent, s.hub.relayed, s.hub.home, s.shipped, s.shippedGroups)
    requires |shipped| == |groups|
    requires forall r :: Said(shipped, groups, r) ==
               Said(s.shipped, s.shippedGroups, r) + if r == room && !c.bypass then c.group else []
    ensures ViewsOk(Heard(s.views, s.hub.home, room, c), h.sent, h.relayed, h.home, shipped, groups)
  {
    forall id | id in s.views
      ensures id in h.sent && id in h.relayed && id in h.home
      ensures ViewOk(Heard(s.views, s.hub.home, room, c)[id], h.sent[id], h.relayed[id],
                     SaidTo(h.home, shipped, groups, id))
    {
      SendOne(s.hub, room, msg, id);
      SpokenTo(s.views[id], s.hub.sent[id], s.hub.relayed[id], SaidTo(s.hub.home, s.shipped, s.shippedGroups, id),
               s.hub.home[id] == room, msg, c);
    }
  }

  lemma SpokenTo(v: View, sent: seq<Msg>, relayed: seq<Msg>, said: seq<Msg>, here: bool, msg: Msg, c: Cover)
    requires ViewOk(v, sent, relayed, said) && CoveredBy(msg, c)
    ensures ViewOk(if here then v.(covers := v.covers + [c]) else v, sent + (if here then [msg] else []), relayed,
                   said + if here && !c.bypass then c.group else [])
  {
    assert said + [] == said && sent + [] == sent;
    if here {
      ViewHears(v, sent, relayed, said, msg, c);
    }
  }

  lemma TakeViews(s: State, id: nat, h: Hub)
    requires Possible(s.hub, TakeOp(id)) && h == Take(s.hub, id) && id in s.views
    requires ViewsOk(s.views, s.hub.sent, s.hub.relayed, s.hub.home, s.shipped, s.shippedGroups)
    ensures ViewsOk(s.views[id := s.views[id].(holding := s.views[id].holding + 1)],
                    h.sent, h.relayed, h.home, s.shipped, s.shippedGroups)
  {
    ViewTakes(s.views[id], s.hub.sent[id], s.hub.relayed[id], SaidTo(s.hub.home, s.shipped, s.shippedGroups, id),
              s.hub.queues[id][0]);
    OneViewChanges(s.views, s.hub, h, s.shipped, s.shippedGroups, id, s.views[id].(holding := s.views[id].holding + 1));
  }

  lemma FinishViews(s: State, id: nat, frames: seq<Msg>, groups: seq<seq<Msg>>, ok: bool)
    requires Holds(s, id) && Passed(Taken(s, id), frames, groups, ok)
    requires ViewsOk(s.views, s.hub.sent, s.hub.relayed, s.hub.home, s.shipped, s.shippedGroups)
    ensures var v := s.views[id];
            ViewsOk(s.views[id := Written(v, frames, groups, ok)],
                    s.hub.sent, s.hub.relayed, s.hub.home, s.shipped, s.shippedGroups)
  {
    var v := s.views[id];
    ViewFinishes(v, s.hub.relayed[id], frames, groups, ok);
    OneViewChanges(s.views, s.hub, s.hub, s.shipped, s.shippedGroups, id, Written(v, frames, groups, ok));
  }

  /** One message moves from what is in hand to what was said. */
  lemma ShipMoves(s: State, r: string)
    requires QueueOk(s.shipped, s.shippedGroups, s.outbox, s.outGroups, s.items) && s.outbox != []
    ensures var shipped, groups := s.shipped + [s.outbox[0]], s.shippedGroups + [s.outGroups[0]];
            && Said(shipped, groups, r) ==
               Said(s.shipped, s.shippedGroups, r) + (if r == s.outbox[0].room then s.outGroups[0] else [])
            && Said(shipped, groups, r) + Said(s.outbox[1..], s.outGroups[1..], r) == Plain(s.items, r)
  {
    var emit, group := s.outbox[0], s.outGroups[0];
    SaidSnoc(s.shipped, s.shippedGroups, emit, group, r);
    SaidHead(s.outbox, s.outGroups, r);
    var first := if r == emit.room then group else [];
    assert Said(s.shipped, s.shippedGroups, r) + Said(s.outbox, s.outGroups, r) == Plain(s.items, r);
    Associate(Said(s.shipped, s.shippedGroups, r), first, Said(s.outbox[1..], s.outGroups[1..], r));
  }

  lemma ShipQueue(s: State)
    requires QueueOk(s.shipped, s.shippedGroups, s.outbox, s.outGroups, s.items) && s.outbox != []
    ensures QueueOk(s.shipped + [s.outbox[0]], s.shippedGroups + [s.outGroups[0]],
                    s.outbox[1..], s.outGroups[1..], s.items)
    ensures forall r :: Said(s.shipped + [s.outbox[0]], s.shippedGroups + [s.outGroups[0]], r) ==
              Said(s.shipped, s.shippedGroups, r) + if r == s.outbox[0].room then s.outGroups[0] else []
  {
    forall r
      ensures Said(s.shipped + [s.outbox[0]], s.shippedGroups + [s.outGroups[0]], r) ==
              Said(s.shipped, s.shippedGroups, r) + if r == s.outbox[0].room then s.outGroups[0] else []
      ensures Said(s.shipped + [s.outbox[0]], s.shippedGroups + [s.outGroups[0]], r)
              + Said(s.outbox[1..], s.outGroups[1..], r) == Plain(s.items, r)
    {
      ShipMoves(s, r);
    }
  }

  lemma DrainQueue(s: State, batch: seq<Item>, out: seq<Emit>, groups: seq<seq<Msg>>)
    requires QueueOk(s.shipped, s.shippedGroups, [], [], s.items) && Explains(out, groups, batch)
    ensures QueueOk(s.shipped, s.shippedGroups, out, groups, s.items + batch)
  {
    forall room
      ensures Said(s.shipped, s.shippedGroups, room) + Said(out, groups, room) == Plain(s.items + batch, room)
    {
      assert Said(s.shipped, s.shippedGroups, room) + Said([], [], room) == Plain(s.items, room);
      assert Said(s.shipped, s.shippedGroups, room) + [] == Said(s.shipped, s.shippedGroups, room);
      PlainAppend(s.items, batch, room);
    }
  }

  lemma Associate(a: seq<Msg>, b: seq<Msg>, c: seq<Msg>)
    ensures a + (b + c) == (a + b) + c
  {
  }

  lemma {:induction false} SaidHead(out: seq<Emit>, groups: seq<seq<Msg>>, room: string)
    requires |out| == |groups| && out != []
    ensures Said(out, groups, room) ==
            (if out[0].room == room then groups[0] else []) + Said(out[1..], groups[1..], room)
    decreases |out|
  {
    var n := |out| - 1;
    if n > 0 {
      SaidHead(out[..n], groups[..n], room);
      assert out[..n][1..] == out[1..][..n - 1] && groups[..n][1..] == groups[1..][..n - 1];
      Associate(if out[0].room == room then groups[0] else [], Said(out[1..][..n - 1], groups[1..][..n - 1], room),
                if out[n].room == room then groups[n] else []);
    }
  }

  lemma {:induction false} PlainAppend(xs: seq<Item>, ys: seq<Item>, room: string)
    ensures Plain(xs + ys, room) == Plain(xs, room) + Plain(ys, room)
    decreases |ys|
  {
    if ys == [] {
      assert xs + ys == xs;
    } else {
      var front, last := ys[..|ys| - 1], ys[|ys| - 1];
      FrontAndLast(xs, ys);
      PlainAppend(xs, front, room);
      PlainAppendOne(xs, front, last, room);
    }
  }

  lemma PlainAppendOne(xs: seq<Item>, front: seq<Item>, last: Item, room: string)
    requires Plain(xs + front, room) == Plain(xs, room) + Plain(front, room)
    ensures Plain((xs + front) + [last], room) == Plain(xs, room) + Plain(front + [last], room)
  {
    PlainSnoc(front, last, room);
    PlainSnoc(xs + front, last, room);
    Associate(Plain(xs, room), Plain(front, room), if last.room == room then Separately(last) else []);
  }

  lemma HubStep(s: State, e: Event, t: State)
    requires HubOk(s) && Enabled(s, e) && t == Step(s, e)
    ensures HubOk(t)
  {
    match e {
      case Stores(_, _) =>
      case Publishes(_) =>
      case Snapshots(_, _) =>
      case Joins(room, id) => JoinSound(s.hub, room, id);
      case Leaves(room, id) => LeaveSound(s.hub, room, id);
      case Bypasses(room, json) =>
        SendSound(s.hub, room, Control(json));
        SendKeepsHomes(s.hub, room, Control(json));
      case Drains(_, _, _) =>
      case Ships =>
        SendSound(s.hub, s.outbox[0].room, s.outbox[0].msg);
        SendKeepsHomes(s.hub, s.outbox[0].room, s.outbox[0].msg);
      case Takes(id) =>
        TakeSound(s.hub, id);
        TakeKeepsHomes(s.hub, id);
      case Finishes(_, _, _, _) =>
    }
  }

  lemma QueueStep(s: State, e: Event, t: State)
    requires QueueOk(s.shipped, s.shippedGroups, s.outbox, s.outGroups, s.items)
    requires Enabled(s, e) && t == Step(s, e)
    ensures QueueOk(t.shipped, t.shippedGroups, t.outbox, t.outGroups, t.items)
  {
    if e.Ships? {
      ShipQueue(s);
    } else if e.Drains? {
      DrainQueue(s, e.batch, e.out, e.groups);
    }
  }

  lemma BypassViews(s: State, room: string, json: string, h: Hub)
    requires HubOk(s) && h == Send(s.hub, room, Control(json))
    requires ViewsOk(s.views, s.hub.sent, s.hub.relayed, s.hub.home, s.shipped, s.shippedGroups)
    ensures ViewsOk(Heard(s.views, s.hub.home, room, Cover([Control(json)], true)),
                    h.sent, h.relayed, h.home, s.shipped, s.shippedGroups)
  {
    ControlStands(Control(json), FANOUT_MAX_BATCH);
    forall r ensures Said(s.shipped, s.shippedGroups, r) == Said(s.shipped, s.shippedGroups, r) + [] {
    }
    SpeakViews(s, room, Control(json), Cover([Control(json)], true), h, s.shipped, s.shippedGroups);
  }

  lemma ShipViews(s: State, h: Hub)
    requires HubOk(s) && ViewsOk(s.views, s.hub.sent, s.hub.relayed, s.hub.home, s.shipped, s.shippedGroups)
    requires QueueOk(s.shipped, s.shippedGroups, s.outbox, s.outGroups, s.items)
    requires s.outbox != [] && h == Send(s.hub, s.outbox[0].room, s.outbox[0].msg)
    ensures ViewsOk(Heard(s.views, s.hub.home, s.outbox[0].room, Cover(s.outGroups[0], false)),
                    h.sent, h.relayed, h.home, s.shipped + [s.outbox[0]], s.shippedGroups + [s.outGroups[0]])
  {
    ShipQueue(s);
    SpeakViews(s, s.outbox[0].room, s.outbox[0].msg, Cover(s.outGroups[0], false), h,
               s.shipped + [s.outbox[0]], s.shippedGroups + [s.outGroups[0]]);
  }

  lemma LeaveViews(s: State, room: string, id: nat, h: Hub)
    requires h == Leave(s.hub, room, id)
    requires ViewsOk(s.views, s.hub.sent, s.hub.relayed, s.hub.home, s.shipped, s.shippedGroups)
    ensures ViewsOk(s.views, h.sent, h.relayed, h.home, s.shipped, s.shippedGroups)
  {
    assert h.sent == s.hub.sent && h.relayed == s.hub.relayed && h.home == s.hub.home;
  }

  lemma MemberStep(s: State, e: Event, t: State)
    requires ViewsOk(s.views, s.hub.sent, s.hub.relayed, s.hub.home, s.shipped, s.shippedGroups)
    requires Enabled(s, e) && t == Step(s, e) && (e.Joins? || e.Leaves?)
    ensures ViewsOk(t.views, t.hub.sent, t.hub.relayed, t.hub.home, t.shipped, t.shippedGroups)
  {
    if e.Joins? {
      JoinViews(s, e.room, e.id, t.hub);
    } else {
      LeaveViews(s, e.room, e.id, t.hub);
    }
  }

  lemma RelayStep(s: State, e: Event, t: State)
    requires ViewsOk(s.views, s.hub.sent, s.hub.relayed, s.hub.home, s.shipped, s.shippedGroups)
    requires Enabled(s, e) && t == Step(s, e) && (e.Takes? || e.Finishes?)
    ensures ViewsOk(t.views, t.hub.sent, t.hub.relayed, t.hub.home, t.shipped, t.shippedGroups)
  {
    if e.Takes? {
      TakeViews(s, e.id, t.hub);
    } else {
      FinishViews(s, e.id, e.frames, e.groups, e.ok);
    }
  }

  lemma SenderStep(s: State, e: Event, t: State)
    requires HubOk(s) && ViewsOk(s.views, s.hub.sent, s.hub.relayed, s.hub.home, s.shipped, s.shippedGroups)
    requires QueueOk(s.shipped, s.shippedGroups, s.outbox, s.outGroups, s.items)
    requires Enabled(s, e) && t == Step(s, e) && (e.Bypasses? || e.Drains? || e.Ships?)
    ensures ViewsOk(t.views, t.hub.sent, t.hub.relayed, t.hub.home, t.shipped, t.shippedGroups)
  {
    match e {
      case Bypasses(room, json) => BypassViews(s, room, json, t.hub);
      case Drains(_, _, _) =>
      case Ships => ShipViews(s, t.hub);
    }
  }

  lemma ViewsStep(s: State, e: Event, t: State)
    requires HubOk(s) && ViewsOk(s.views, s.hub.sent, s.hub.relayed, s.hub.home, s.shipped, s.shippedGroups)
    requires QueueOk(s.shipped, s.shippedGroups, s.outbox, s.outGroups, s.items)
    requires Enabled(s, e) && t == Step(s, e)
    ensures ViewsOk(t.views, t.hub.sent, t.hub.relayed, t.hub.home, t.shipped, t.shippedGroups)
  {
    if e.Bypasses? || e.Drains? || e.Ships? {
      SenderStep(s, e, t);
    } else if e.Joins? || e.Leaves? {
      MemberStep(s, e, t);
    } else if e.Takes? || e.Finishes? {
      RelayStep(s, e, t);
    }
  }

  lemma StepKeeps(s: State, e: Event, t: State)
    requires Inv(s) && Enabled(s, e) && t == Step(s, e)
    ensures Inv(t)
  {
    HubStep(s, e, t);
    QueueStep(s, e, t);
    ViewsStep(s, e, t);
  }

  lemma {:induction false} RunInv(states: seq<State>, events: seq<Event>, n: nat)
    requires IsRun(states, events) && n < |states|
    ensures Inv(states[n])
  {
    if n > 0 {
      RunInv(states, events, n - 1);
      StepKeeps(states[n - 1], events[n - 1], states[n]);
    }
  }

  // ---- What a viewer sees ----

  lemma {:induction false} CoversSayTheSame(sent: seq<Msg>, covers: seq<Cover>)
    requires Covered(sent, covers)
    ensures Tokens(sent) == Tokens(Spoken(covers))
    decreases |sent|
  {
    if sent != [] {
      var n := |sent| - 1;
      CoversSayTheSame(sent[..n], covers[..n]);
      StandsSaysTheSame(sent[n], covers[n].group, FANOUT_MAX_BATCH);
      TokensAppend(Spoken(covers[..n]), covers[n].group);
    }
  }

  /** Nothing is owed to the viewer that its socket has not taken. */
  predicate CaughtUp(s: State, id: nat) {
    && id in s.views && id in s.hub.queues && Registered(s.hub, id)
    && s.hub.queues[id] == [] && s.views[id].holding == 0 && !s.views[id].broken
  }

  /** What every run keeps of one viewer, in its own terms. */
  ghost predicate ViewerOk(s: State, id: nat)
    requires id in s.views
  {
    && id in s.hub.sent && id in s.hub.relayed && id in s.hub.home && id in s.hub.queues
    && Covered(s.hub.sent[id], s.views[id].covers)
    && WrittenOk(s.views[id], s.hub.relayed[id])
    && s.hub.relayed[id] <= s.hub.sent[id]
    && (CaughtUp(s, id) ==> Flatten(s.views[id].groups) == s.hub.sent[id])
  }

  lemma ViewerInRun(states: seq<State>, events: seq<Event>, n: nat, id: nat)
    requires IsRun(states, events) && n < |states| && id in states[n].views
    ensures ViewerOk(states[n], id)
  {
    RunInv(states, events, n);
    var s := states[n];
    assert ViewOk(s.views[id], s.hub.sent[id], s.hub.relayed[id], SaidTo(s.hub.home, s.shipped, s.shippedGroups, id));
    assert NoHoles(s.hub, id);
    RelayedOfSent(s.hub.relayed[id], s.hub.queues[id], s.hub.sent[id]);
  }

  lemma RelayedOfSent(relayed: seq<Msg>, queue: seq<Msg>, sent: seq<Msg>)
    requires relayed + queue <= sent
    ensures relayed <= sent
    ensures queue == [] && relayed + queue == sent ==> relayed == sent
  {
    assert relayed <= relayed + queue;
    assert relayed + [] == relayed;
  }

  /** Coalescing is invisible. In every run, what a viewer's socket has taken shows
      it a front of the stream in which every item of its room, and every control,
      is sent on its own, from the moment it registered; and all of that stream
      once it has caught up. */
  lemma CoalescingIsInvisible(states: seq<State>, events: seq<Event>, n: nat, id: nat)
    requires IsRun(states, events) && n < |states| && id in states[n].views
    ensures var s, v := states[n], states[n].views[id];
            && Tokens(v.frames) <= Tokens(Spoken(v.covers))
            && (CaughtUp(s, id) ==> Tokens(v.frames) == Tokens(Spoken(v.covers)))
  {
    ViewerInRun(states, events, n, id);
    var v, sent := states[n].views[id], states[n].hub.sent[id];
    RegroupingIsInvisible(v.frames, v.groups, Flatten(v.groups), MAX_MERGED);
    CoversSayTheSame(sent, v.covers);
    TokensPrefix(Flatten(v.groups), sent);
  }

  /** What that stream is: with the controls that went past the queue taken out, it
      is a stretch of the items of the room, from where the viewer registered to
      what the fan-out task still has in hand. */
  lemma StreamIsTheItems(states: seq<State>, events: seq<Event>, n: nat, id: nat)
    requires IsRun(states, events) && n < |states| && id in states[n].views
    ensures var s, v := states[n], states[n].views[id];
            && id in s.hub.home && |s.outbox| == |s.outGroups|
            && v.missed + Through(v.covers) + Said(s.outbox, s.outGroups, s.hub.home[id])
               == Plain(s.items, s.hub.home[id])
  {
    RunInv(states, events, n);
    var s, v := states[n], states[n].views[id];
    assert ViewOk(v, s.hub.sent[id], s.hub.relayed[id], SaidTo(s.hub.home, s.shipped, s.shippedGroups, id));
    assert Said(s.shipped, s.shippedGroups, s.hub.home[id]) + Said(s.outbox, s.outGroups, s.hub.home[id])
        == Plain(s.items, s.hub.home[id]);
  }

  // ---- The snapshot ----

  /** A snapshot is a stretch of what was stored. */
  ghost predicate SnapOk(snap: Snap, stored: seq<Blob>) {
    snap.lo <= snap.hi <= |stored| && snap.history == stored[snap.lo..snap.hi]
  }

  ghost predicate SnapsOk(s: State) {
    && s.snaps.Keys <= s.views.Keys
    && forall id :: id in s.snaps && id in s.hub.home ==> SnapOk(s.snaps[id], Payloads(s.log, s.hub.home[id]))
  }

  lemma PayloadsSnoc(items: seq<Item>, item: Item, room: string)
    ensures Payloads(items, room) <= Payloads(items + [item], room)
  {
    PlainSnoc(items, item, room);
    BinariesAppend(Plain(items, room), if item.room == room then Separately(item) else []);
  }

  /** More is stored behind what a snapshot read. */
  lemma SnapLasts(snap: Snap, stored: seq<Blob>, more: seq<Blob>)
    requires SnapOk(snap, stored) && stored <= more
    ensures SnapOk(snap, more)
  {
    assert more[..|stored|][snap.lo..snap.hi] == more[snap.lo..snap.hi];
  }

  lemma StoreSnaps(s: State, item: Item, t: State)
    requires SnapsOk(s) && t.log == s.log + [item]
    requires t.snaps == s.snaps && t.views == s.views && t.hub == s.hub
    ensures SnapsOk(t)
  {
    forall id | id in s.snaps && id in s.hub.home ensures SnapOk(s.snaps[id], Payloads(t.log, s.hub.home[id])) {
      PayloadsSnoc(s.log, item, s.hub.home[id]);
      SnapLasts(s.snaps[id], Payloads(s.log, s.hub.home[id]), Payloads(t.log, s.hub.home[id]));
    }
  }

  lemma FreshSnapOk(stored: seq<Blob>, lo: nat)
    requires lo <= |stored|
    ensures SnapOk(Snap(stored[lo..], lo, |stored|), stored)
  {
  }

  lemma SnapshotStep(s: State, id: nat, lo: nat)
    requires SnapsOk(s) && Enabled(s, Snapshots(id, lo))
    ensures SnapsOk(Step(s, Snapshots(id, lo)))
  {
    FreshSnapOk(Payloads(s.log, s.hub.home[id]), lo);
  }

  /** A viewer's room, and what it missed, are settled when it joins. */
  ghost predicate SameMissed(s: State, t: State) {
    forall id :: id in s.views && id in s.hub.home ==>
      id in t.views && id in t.hub.home && t.hub.home[id] == s.hub.home[id] && t.views[id].missed == s.views[id].missed
  }

  lemma MissedStays(s: State, e: Event, t: State)
    requires s.views.Keys == s.hub.queues.Keys && Enabled(s, e) && t == Step(s, e)
    ensures SameMissed(s, t)
  {
    if e.Joins? {
      JoinKeepsMissed(s, e, t);
    } else {
      assert t.hub.home == s.hub.home;
      OthersKeepMissed(s, e, t);
    }
  }

  lemma JoinKeepsMissed(s: State, e: Event, t: State)
    requires s.views.Keys == s.hub.queues.Keys && e.Joins? && Enabled(s, e) && t == Step(s, e)
    ensures SameMissed(s, t)
  {
  }

  lemma OthersKeepMissed(s: State, e: Event, t: State)
    requires !e.Joins? && Enabled(s, e) && t == Step(s, e) && t.hub.home == s.hub.home
    ensures SameMissed(s, t)
  {
  }

  lemma SnapsStay(s: State, t: State)
    requires SnapsOk(s) && SameMissed(s, t) && t.snaps == s.snaps && t.log == s.log
    requires s.views.Keys <= s.hub.home.Keys && s.views.Keys <= t.views.Keys
    ensures SnapsOk(t)
  {
  }

  lemma SnapsStep(s: State, e: Event, t: State)
    requires HubOk(s) && SnapsOk(s) && Enabled(s, e) && t == Step(s, e)
    ensures SnapsOk(t)
  {
    match e {
      case Stores(_, item) => StoreSnaps(s, item, t);
      case Snapshots(id, lo) => SnapshotStep(s, id, lo);
      case _ =>
        MissedStays(s, e, t);
        SnapsStay(s, t);
    }
  }

  /** In every run, with any number of ingest loops, a joiner's snapshot is a stretch
      of the payloads stored for its room. */
  lemma {:induction false} SnapshotIsStored(states: seq<State>, events: seq<Event>, n: nat)
    requires IsRun(states, events) && n < |states|
    ensures SnapsOk(states[n])
  {
    if n > 0 {
      SnapshotIsStored(states, events, n - 1);
      RunInv(states, events, n - 1);
      SnapsStep(states[n - 1], events[n - 1], states[n]);
    }
  }

  // ---- One ingest loop: the snapshot meets the stream ----

  /** Only loop `l` stores for the room. */
  ghost predicate OneLoop(events: seq<Event>, room: string, l: nat) {
    forall i :: 0 <= i < |events| && events[i].Stores? && events[i].item.room == room ==> events[i].l == l
  }

  /** What `l` has stored for the room and not yet published. */
  function Unpublished(holding: map<nat, Item>, l: nat, room: string): (msgs: seq<Msg>) {
    if l in holding && holding[l].room == room then Separately(holding[l]) else []
  }

  /** The room's items are taken, waiting or held, in the order they were stored. */
  ghost predicate StoredOk(s: State, room: string, l: nat) {
    && (forall k :: k in s.holding && s.holding[k].room == room ==> k == l)
    && Plain(s.items + s.queued, room) + Unpublished(s.holding, l, room) == Plain(s.log, room)
  }

  /** The live streams of the room's viewers start no later than their snapshots end. */
  ghost predicate NoGaps(s: State, room: string) {
    forall id :: id in s.snaps && id in s.views && id in s.hub.home && s.hub.home[id] == room ==>
      |Binaries(s.views[id].missed)| <= s.snaps[id].hi
  }

  lemma StoreKeepsOrder(s: State, room: string, l: nat, k: nat, item: Item)
    requires StoredOk(s, room, l) && Enabled(s, Stores(k, item)) && (item.room == room ==> k == l)
    ensures StoredOk(Step(s, Stores(k, item)), room, l)
  {
    PlainSnoc(s.log, item, room);
    assert Plain(s.items + s.queued, room) + [] == Plain(s.items + s.queued, room);
    assert Plain(s.log, room) + [] == Plain(s.log, room);
  }

  lemma PublishKeepsOrder(s: State, room: string, l: nat, k: nat)
    requires StoredOk(s, room, l) && Enabled(s, Publishes(k))
    ensures StoredOk(Step(s, Publishes(k)), room, l)
  {
    var item := s.holding[k];
    PlainSnoc(s.items + s.queued, item, room);
    assert s.items + (s.queued + [item]) == (s.items + s.queued) + [item];
    assert Plain(s.log, room) + [] == Plain(s.log, room);
    assert Plain(s.items + s.queued, room) + [] == Plain(s.items + s.queued, room);
  }

  lemma OrderStep(s: State, e: Event, t: State, room: string, l: nat)
    requires StoredOk(s, room, l) && Enabled(s, e) && t == Step(s, e)
    requires e.Stores? && e.item.room == room ==> e.l == l
    ensures StoredOk(t, room, l)
  {
    match e {
      case Stores(k, item) => StoreKeepsOrder(s, room, l, k, item);
      case Publishes(k) => PublishKeepsOrder(s, room, l, k);
      case Drains(batch, _, _) =>
        assert (s.items + batch) + s.queued[|batch|..] == s.items + s.queued;
      case _ =>
    }
  }

  lemma BinariesPrefix(xs: seq<Msg>, ys: seq<Msg>)
    requires xs <= ys
    ensures Binaries(xs) <= Binaries(ys)
  {
    assert ys == xs + ys[|xs|..];
    BinariesAppend(xs, ys[|xs|..]);
  }

  lemma ItemsAreStored(s: State, room: string, l: nat)
    requires StoredOk(s, room, l)
    ensures Plain(s.items, room) <= Plain(s.log, room) && Payloads(s.items, room) <= Payloads(s.log, room)
  {
    PlainAppend(s.items, s.queued, room);
    BinariesPrefix(Plain(s.items, room), Plain(s.log, room));
  }

  /** What had been said before a viewer registered is a front of the items. */
  lemma MissedIsFront(s: State, id: nat)
    requires ViewsOk(s.views, s.hub.sent, s.hub.relayed, s.hub.home, s.shipped, s.shippedGroups)
    requires QueueOk(s.shipped, s.shippedGroups, s.outbox, s.outGroups, s.items) && id in s.views
    ensures id in s.hub.home && s.views[id].missed <= Plain(s.items, s.hub.home[id])
  {
    var room, missed := s.hub.home[id], s.views[id].missed;
    assert ViewOk(s.views[id], s.hub.sent[id], s.hub.relayed[id], SaidTo(s.hub.home, s.shipped, s.shippedGroups, id));
    assert Said(s.shipped, s.shippedGroups, room) + Said(s.outbox, s.outGroups, room) == Plain(s.items, room);
  }

  /** So it was stored by now. */
  lemma MissedIsStored(s: State, room: string, missed: seq<Msg>, l: nat)
    requires StoredOk(s, room, l) && missed <= Plain(s.items, room)
    ensures |Binaries(missed)| <= |Payloads(s.log, room)|
  {
    ItemsAreStored(s, room, l);
    BinariesPrefix(missed, Plain(s.log, room));
  }

  lemma NoGapsStay(s: State, t: State, room: string)
    requires NoGaps(s, room) && SameMissed(s, t) && t.snaps == s.snaps
    requires s.snaps.Keys <= s.views.Keys <= s.hub.home.Keys
    ensures NoGaps(t, room)
  {
  }

  lemma NoGapsSnapshot(s: State, id: nat, lo: nat, room: string)
    requires NoGaps(s, room) && Enabled(s, Snapshots(id, lo))
    requires s.hub.home[id] == room ==> |Binaries(s.views[id].missed)| <= |Payloads(s.log, room)|
    ensures NoGaps(Step(s, Snapshots(id, lo)), room)
  {
  }

  lemma NoGapsStep(s: State, e: Event, t: State, room: string)
    requires NoGaps(s, room) && Enabled(s, e) && t == Step(s, e)
    requires s.snaps.Keys <= s.views.Keys == s.hub.queues.Keys && s.views.Keys <= s.hub.home.Keys
    requires e.Snapshots? && s.hub.home[e.id] == room ==>
               |Binaries(s.views[e.id].missed)| <= |Payloads(s.log, room)|
    ensures NoGaps(t, room)
  {
    if e.Snapshots? {
      NoGapsSnapshot(s, e.id, e.lo, room);
    } else {
      MissedStays(s, e, t);
      NoGapsStay(s, t, room);
    }
  }

  lemma {:induction false} RunStored(states: seq<State>, events: seq<Event>, n: nat, room: string, l: nat)
    requires IsRun(states, events) && n < |states| && OneLoop(events, room, l)
    ensures StoredOk(states[n], room, l) && NoGaps(states[n], room)
  {
    if n > 0 {
      var s, e := states[n - 1], events[n - 1];
      RunStored(states, events, n - 1, room, l);
      RunInv(states, events, n - 1);
      SnapshotIsStored(states, events, n - 1);
      OrderStep(s, e, states[n], room, l);
      if e.Snapshots? {
        MissedIsFront(s, e.id);
        if s.hub.home[e.id] == room {
          MissedIsStored(s, room, s.views[e.id].missed, l);
        }
      }
      NoGapsStep(s, e, states[n], room);
    }
  }

  /** The catch-up meets the stream. With one ingest loop, in every run, a viewer's
      live stream has the order of what was stored, and starts no later than where its
      snapshot ends. */
  lemma SnapshotMeetsStream(states: seq<State>, events: seq<Event>, n: nat, id: nat, l: nat)
    requires IsRun(states, events) && n < |states| && id in states[n].snaps && id in states[n].hub.home
    requires OneLoop(events, states[n].hub.home[id], l)
    ensures var s, room := states[n], states[n].hub.home[id];
            && id in s.views && |Binaries(s.views[id].missed)| <= s.snaps[id].hi <= |Payloads(s.log, room)|
            && Payloads(s.items, room) <= Payloads(s.log, room)
  {
    var s := states[n];
    SnapshotIsStored(states, events, n);
    RunStored(states, events, n, s.hub.home[id], l);
    ItemsAreStored(s, s.hub.home[id], l);
    assert SnapOk(s.snaps[id], Payloads(s.log, s.hub.home[id]));
  }
}
