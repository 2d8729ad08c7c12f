/** The viewer registry and each viewer's bounded queue (src/server/viewers.rs).

    `Hub` is the registry as a value, with a record of everything sent to a
    viewer's room since it registered and of what its task has taken off its
    queue. The class does the source's in-place updates and is proved to do
    exactly the `Hub` operations. */
module Viewers {
  import opened Prelude

  /** How many messages may wait for one viewer. */
  const VIEWER_QUEUE: nat := 2048

  datatype Msg = Bytes(payload: Blob) | Control(json: string)

  /** `dropped` are the viewers that lost their slot to a full queue. */
  datatype Hub = Hub(
    rooms: map<string, set<nat>>,
    queues: map<nat, seq<Msg>>,
    home: map<nat, string>,
    sent: map<nat, seq<Msg>>,
    relayed: map<nat, seq<Msg>>,
    dropped: set<nat>)

  const EMPTY: Hub := Hub(map[], map[], map[], map[], map[], {})

  function Members(h: Hub, room: string): (ids: set<nat>) {
    if room in h.rooms then h.rooms[room] else {}
  }

  predicate Registered(h: Hub, id: nat) {
    id in h.home && id in Members(h, h.home[id])
  }

  /** The members whose queue still has space. */
  function WithSpace(members: set<nat>, queues: map<nat, seq<Msg>>): (ids: set<nat>) {
    set id | id in members && id in queues && |queues[id]| < VIEWER_QUEUE
  }

  function Delivered(queues: map<nat, seq<Msg>>, ids: set<nat>, msg: Msg): (after: map<nat, seq<Msg>>) {
    map id | id in queues :: if id in ids then queues[id] + [msg] else queues[id]
  }

  function Join(h: Hub, room: string, id: nat): (after: Hub) {
    h.(rooms := h.rooms[room := Members(h, room) + {id}],
       queues := h.queues[id := []],
       home := h.home[id := room],
       sent := h.sent[id := []],
       relayed := h.relayed[id := []])
  }

  /** The entry goes with its last member. */
  function Leave(h: Hub, room: string, id: nat): (after: Hub) {
    if room !in h.rooms then h
    else if h.rooms[room] - {id} == {} then h.(rooms := h.rooms - {room})
    else h.(rooms := h.rooms[room := h.rooms[room] - {id}])
  }

  /** A member whose queue is full loses its place instead of the message. */
  function Send(h: Hub, room: string, msg: Msg): (after: Hub) {
    var keep := WithSpace(Members(h, room), h.queues);
    h.(rooms := if room in h.rooms then h.rooms[room := keep] else h.rooms,
       queues := Delivered(h.queues, keep, msg),
       sent := Delivered(h.sent, (set id | id in h.home && h.home[id] == room), msg),
       dropped := h.dropped + (Members(h, room) - keep))
  }

  function Take(h: Hub, id: nat): (after: Hub)
    requires id in h.queues && h.queues[id] != [] && id in h.relayed
  {
    h.(queues := h.queues[id := h.queues[id][1..]], relayed := h.relayed[id := h.relayed[id] + [h.queues[id][0]]])
  }

  datatype Op =
    | JoinOp(room: string, id: nat)
    | LeaveOp(room: string, id: nat)
    | SendOp(room: string, msg: Msg)
    | TakeOp(id: nat)

  predicate Possible(h: Hub, op: Op) {
    match op
    case JoinOp(_, id) => id !in h.queues
    case LeaveOp(room, id) => id in h.home && h.home[id] == room
    case SendOp(_, _) => true
    case TakeOp(id) => id in h.queues && h.queues[id] != [] && id in h.relayed
  }

  function Apply(h: Hub, op: Op): (after: Hub)
    requires Possible(h, op)
  {
    match op
    case JoinOp(room, id) => Join(h, room, id)
    case LeaveOp(room, id) => Leave(h, room, id)
    case SendOp(room, msg) => Send(h, room, msg)
    case TakeOp(id) => Take(h, id)
  }

  ghost predicate IsRun(hubs: seq<Hub>, ops: seq<Op>) {
    && |hubs| == |ops| + 1 && hubs[0] == EMPTY
    && forall i :: 0 <= i < |ops| ==> Possible(hubs[i], ops[i]) && hubs[i + 1] == Apply(hubs[i], ops[i])
  }

  /** What a viewer got and will get, of what its room was sent. */
  ghost predicate NoHoles(h: Hub, id: nat)
    requires id in h.queues && id in h.relayed && id in h.sent
  {
    var got := h.relayed[id] + h.queues[id];
    && got <= h.sent[id]
    && (Registered(h, id) ==> got == h.sent[id])
    && (id in h.dropped ==> !Registered(h, id) && got != h.sent[id])
  }

  ghost predicate Sound(h: Hub) {
    && h.queues.Keys == h.home.Keys == h.sent.Keys == h.relayed.Keys
    && h.dropped <= h.queues.Keys
    && (forall room, id :: room in h.rooms && id in h.rooms[room] ==> id in h.home && h.home[id] == room)
    && (forall id :: id in h.queues ==> |h.queues[id]| <= VIEWER_QUEUE && NoHoles(h, id))
  }

  lemma JoinKeepsOthers(h: Hub, room: string, id: nat, k: nat)
    requires Sound(h) && id !in h.queues && k in h.queues
    ensures k in Join(h, room, id).queues && NoHoles(Join(h, room, id), k)
    ensures Join(h, room, id).queues[k] == h.queues[k]
  {
    assert NoHoles(h, k) && Registered(Join(h, room, id), k) == Registered(h, k);
  }

  lemma JoinedIsFresh(h: Hub, room: string, id: nat)
    requires Sound(h) && id !in h.queues
    ensures NoHoles(Join(h, room, id), id)
  {
  }

  lemma JoinSound(h: Hub, room: string, id: nat)
    requires Sound(h) && id !in h.queues
    ensures Sound(Join(h, room, id))
  {
    var v := Join(h, room, id);
    JoinedIsFresh(h, room, id);
    forall k | k in v.queues ensures |v.queues[k]| <= VIEWER_QUEUE && NoHoles(v, k) {
      if k != id {
        JoinKeepsOthers(h, room, id, k);
      }
    }
  }

  lemma LeaveSound(h: Hub, room: string, id: nat)
    requires Sound(h)
    ensures Sound(Leave(h, room, id))
  {
    var v := Leave(h, room, id);
    forall k | k in v.queues ensures |v.queues[k]| <= VIEWER_QUEUE && NoHoles(v, k) {
      assert NoHoles(h, k) && (Registered(v, k) ==> Registered(h, k));
    }
  }

  /** A broadcast registers nobody and keeps every viewer's records. */
  lemma SendKeepsHomes(h: Hub, room: string, msg: Msg)
    requires Sound(h)
    ensures var v := Send(h, room, msg);
            && v.queues.Keys == v.home.Keys == v.sent.Keys == v.relayed.Keys == h.queues.Keys
            && v.dropped <= v.queues.Keys
            && forall r, id :: r in v.rooms && id in v.rooms[r] ==> id in v.home && v.home[id] == r
  {
    var v := Send(h, room, msg);
    forall r, id | r in v.rooms && id in v.rooms[r] ensures id in h.home && h.home[id] == r {
      assert r in h.rooms && id in h.rooms[r];
    }
  }

  lemma SendSound(h: Hub, room: string, msg: Msg)
    requires Sound(h)
    ensures Sound(Send(h, room, msg))
  {
    var v := Send(h, room, msg);
    SendKeepsHomes(h, room, msg);
    forall k | k in v.queues ensures |v.queues[k]| <= VIEWER_QUEUE && NoHoles(v, k) {
      SendKeepsPrefix(h, room, msg, k);
    }
  }

  /** Who keeps its place: exactly the members with fewer than 2048 messages waiting,
      and those have the new one waiting behind them. */
  lemma SendKeepsPlace(h: Hub, room: string, msg: Msg, id: nat)
    requires Sound(h) && id in h.queues
    ensures var v := Send(h, room, msg);
            && id in v.queues
            && (Registered(v, id) <==> Registered(h, id) && (h.home[id] == room ==> |h.queues[id]| < 2048))
            && v.queues[id] ==
               if Registered(h, id) && h.home[id] == room && |h.queues[id]| < 2048 then h.queues[id] + [msg]
               else h.queues[id]
  {
    assert room in h.rooms && id in h.rooms[room] ==> h.home[id] == room;
  }

  /** Viewer `id` is a member of `room` in these rooms. */
  predicate Member(rooms: map<string, set<nat>>, room: string, id: nat) { room in rooms && id in rooms[room] }

  /** A message to a room reaches every member with fewer than 2048 messages waiting;
      the others lose their place. Nobody else notices. */
  ghost predicate Reached(rooms: map<string, set<nat>>, queues: map<nat, seq<Msg>>, room: string, msg: Msg,
                          rooms': map<string, set<nat>>, queues': map<nat, seq<Msg>>) {
    && queues'.Keys == queues.Keys && rooms' - {room} == rooms - {room}
    && forall id :: id in queues ==>
         && (Member(rooms', room, id) <==> Member(rooms, room, id) && |queues[id]| < 2048)
         && queues'[id] == queues[id] + if Member(rooms', room, id) then [msg] else []
  }

  lemma SendReaches(h: Hub, room: string, msg: Msg)
    requires Sound(h)
    ensures Reached(h.rooms, h.queues, room, msg, Send(h, room, msg).rooms, Send(h, room, msg).queues)
  {
    var v := Send(h, room, msg);
    forall id | id in h.queues
      ensures Member(v.rooms, room, id) <==> Member(h.rooms, room, id) && |h.queues[id]| < 2048
      ensures v.queues[id] == h.queues[id] + if Member(v.rooms, room, id) then [msg] else []
    {
      assert h.queues[id] + [] == h.queues[id];
    }
  }

  lemma SendKeepsPrefix(h: Hub, room: string, msg: Msg, k: nat)
    requires Sound(h) && k in h.queues
    ensures |Send(h, room, msg).queues[k]| <= VIEWER_QUEUE && NoHoles(Send(h, room, msg), k)
  {
    var v := Send(h, room, msg);
    assert NoHoles(h, k);
    var got := h.relayed[k] + h.queues[k];
    if h.home[k] == room && k in WithSpace(Members(h, room), h.queues) {
      assert v.relayed[k] + v.queues[k] == got + [msg];
    } else {
      assert v.relayed[k] + v.queues[k] == got;
      if h.home[k] == room {
        assert got <= h.sent[k] + [msg] && got != h.sent[k] + [msg];
      }
    }
  }

  lemma TakeKeepsPrefix(h: Hub, id: nat, k: nat)
    requires Sound(h) && Possible(h, TakeOp(id)) && k in h.queues
    ensures NoHoles(Take(h, id), k) && |Take(h, id).queues[k]| <= VIEWER_QUEUE
  {
    var v := Take(h, id);
    assert NoHoles(h, k) && Registered(v, k) == Registered(h, k);
    assert v.relayed[k] + v.queues[k] == h.relayed[k] + h.queues[k];
  }

  lemma TakeKeepsHomes(h: Hub, id: nat)
    requires Sound(h) && Possible(h, TakeOp(id))
    ensures var v := Take(h, id);
            && v.queues.Keys == h.queues.Keys && v.relayed.Keys == h.relayed.Keys
            && v.home == h.home && v.sent == h.sent && v.rooms == h.rooms && v.dropped == h.dropped
  {
  }

  lemma TakeSound(h: Hub, id: nat)
    requires Sound(h) && Possible(h, TakeOp(id))
    ensures Sound(Take(h, id))
  {
    var v := Take(h, id);
    TakeKeepsHomes(h, id);
    forall k | k in v.queues ensures |v.queues[k]| <= VIEWER_QUEUE && NoHoles(v, k) {
      TakeKeepsPrefix(h, id, k);
    }
  }

  lemma ApplySound(h: Hub, op: Op)
    requires Sound(h) && Possible(h, op)
    ensures Sound(Apply(h, op))
  {
    match op {
      case JoinOp(room, id) => JoinSound(h, room, id);
      case LeaveOp(room, id) => LeaveSound(h, room, id);
      case SendOp(room, msg) => SendSound(h, room, msg);
      case TakeOp(id) => TakeSound(h, id);
    }
  }

  /** Hole-free viewers. In every run, what was relayed to a viewer plus what is
      queued for it is a prefix of everything sent to its room since it joined:
      all of it while it is registered, and never all of it once a full queue
      has cost it its place. */
  lemma {:induction false} ViewersHaveNoHoles(hubs: seq<Hub>, ops: seq<Op>, n: nat)
    requires IsRun(hubs, ops) && n < |hubs|
    ensures Sound(hubs[n])
  {
    if n > 0 {
      ViewersHaveNoHoles(hubs, ops, n - 1);
      ApplySound(hubs[n - 1], ops[n - 1]);
    }
  }

  /** Who is watching which room, each with a bounded queue. */
  class Registry {
    var rooms: map<string, set<nat>>
    var queues: map<nat, seq<Msg>>
    var nextId: nat
    ghost var hub: Hub

    ghost predicate Valid()
      reads this
    {
      && Sound(hub) && hub.rooms == rooms && hub.queues == queues
      && forall id :: id in queues ==> id < nextId
    }

    constructor ()
      ensures Valid() && hub == EMPTY
    {
      rooms, queues, nextId, hub := map[], map[], 0, EMPTY;
    }

    method Enter(room: string) returns (id: nat)
      requires Valid()
      modifies this
      ensures Valid() && old(id !in queues) && hub == Join(old(hub), room, id)
      ensures queues == old(queues)[id := []]
      ensures rooms == old(rooms)[room := (if room in old(rooms) then old(rooms)[room] else {}) + {id}]
    {
      id := nextId;
      nextId := nextId + 1;
      JoinSound(hub, room, id);
      hub := Join(hub, room, id);
      var members := if room in rooms then rooms[room] else {};
      rooms := rooms[room := members + {id}];
      queues := queues[id := []];
    }

    method Exit(room: string, id: nat)
      requires Valid()
      modifies this
      ensures Valid() && hub == Leave(old(hub), room, id) && queues == old(queues)
      ensures rooms - {room} == old(rooms) - {room}
      ensures room in rooms <==> room in old(rooms) && old(rooms)[room] - {id} != {}
      ensures room in rooms ==> rooms[room] == old(rooms)[room] - {id}
    {
      LeaveSound(hub, room, id);
      hub := Leave(hub, room, id);
      if room in rooms {
        rooms := rooms[room := rooms[room] - {id}];
        if rooms[room] == {} {
          rooms := rooms - {room};
        }
      }
    }

    /** The number of viewers registered for the room. */
    method Count(room: string) returns (n: nat)
      requires Valid()
      ensures n == |Members(hub, room)|
      ensures Members(hub, room) == set id | id in hub.home && hub.home[id] == room && Registered(hub, id)
    {
      n := if room in rooms then |rooms[room]| else 0;
    }

    /** Queue a message to every member, dropping those whose queue is full: a member
        loses its place exactly when 2048 messages wait for it, and otherwise has this
        one at the end of its queue. Nobody else notices. */
    method Broadcast(room: string, msg: Msg)
      requires Valid()
      modifies this
      ensures Valid() && hub == Send(old(hub), room, msg)
      ensures Reached(old(rooms), old(queues), room, msg, rooms, queues)
    {
      SendSound(hub, room, msg);
      SendReaches(hub, room, msg);
      hub := Send(hub, room, msg);
      Retain(room, msg);
    }

    method Retain(room: string, msg: Msg)
      requires forall id :: room in rooms && id in rooms[room] ==> id in queues
      modifies this`rooms, this`queues
      ensures var keep := WithSpace(if room in old(rooms) then old(rooms)[room] else {}, old(queues));
              && rooms == (if room in old(rooms) then old(rooms)[room := keep] else old(rooms))
              && queues == Delivered(old(queues), keep, msg)
    {
      if room !in rooms {
        return;
      }
      var todo, kept := rooms[room], {};
      while todo != {}
        invariant todo <= old(rooms)[room] && kept == WithSpace(old(rooms)[room] - todo, old(queues))
        invariant rooms == old(rooms) && queues == Delivered(old(queues), kept, msg)
        decreases todo
      {
        var id :| id in todo;
        todo := todo - {id};
        if |queues[id]| < VIEWER_QUEUE {
          queues := queues[id := queues[id] + [msg]];
          kept := kept + {id};
        }
      }
      assert old(rooms)[room] - todo == old(rooms)[room];
      rooms := rooms[room := kept];
    }

    /** The next message for a viewer's task: `None` once its queue is empty. */
    method Receive(id: nat) returns (msg: Option<Msg>)
      requires Valid() && id in queues
      modifies this
      ensures Valid()
      ensures msg.None? <==> old(queues[id]) == []
      ensures msg.Some? ==>
                msg.value == old(queues[id])[0] && Possible(old(hub), TakeOp(id)) && hub == Take(old(hub), id)
      ensures msg.None? ==> hub == old(hub)
    {
      if queues[id] == [] {
        return None;
      }
      TakeSound(hub, id);
      msg := Some(queues[id][0]);
      hub := Take(hub, id);
      queues := queues[id := queues[id][1..]];
    }
  }
}
