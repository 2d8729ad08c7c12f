/** The coalesced user count (`usercount_loop` and `ViewerDelivery::join` in
    src/server/viewers.rs).

    A connection task changes the membership of its room and later announces the
    room; the worker drains the announcements into a set, then for each room
    reads the count and sends it to the members, two separate actions between
    which anything may happen. */
module UserCount {
  import opened Prelude
  import Viewers

  /** `owes`: the task's membership changed, or it lost its place to a full
      queue, since it last announced its room. `last` is the last count queued
      to it. */
  datatype Task = Task(room: string, registered: bool, owes: bool, last: Option<nat>)

  datatype Job = Idle | Picked(room: string) | Counted(room: string, count: nat)

  datatype State = State(tasks: map<nat, Task>, queue: seq<string>, pending: set<string>, job: Job)

  const START: State := State(map[], [], {}, Idle)

  function Members(s: State, room: string): (ids: set<nat>) {
    set id | id in s.tasks && s.tasks[id].registered && s.tasks[id].room == room
  }

  datatype Event =
    | Register(id: nat, room: string)
    | Announce(id: nat)
    | Unregister(id: nat)
    | OtherSend(room: string, lost: set<nat>) // any other message to the room
    | Drain                                   // the worker takes one announcement
    | Pick(room: string)
    | Count
    | Tell(lost: set<nat>)

  predicate Enabled(s: State, e: Event) {
    match e
    case Register(id, _) => id !in s.tasks
    case Announce(id) => id in s.tasks
    case Unregister(id) => id in s.tasks
    case OtherSend(_, _) => true
    case Drain => s.job.Idle? && s.queue != []
    case Pick(room) => s.job.Idle? && room in s.pending
    case Count => s.job.Picked?
    case Tell(_) => s.job.Counted?
  }

  /** A send to a room: members with a full queue lose their place. */
  function Losing(tasks: map<nat, Task>, room: string, lost: set<nat>, told: Option<nat>): (after: map<nat, Task>) {
    map id | id in tasks ::
      var t := tasks[id];
      if !t.registered || t.room != room then t
      else if id in lost then t.(registered := false, owes := true)
      else if told.Some? then t.(last := told)
      else t
  }

  function Step(s: State, e: Event): (after: State)
    requires Enabled(s, e)
  {
    match e
    case Register(id, room) => s.(tasks := s.tasks[id := Task(room, true, true, None)])
    case Announce(id) =>
      s.(tasks := s.tasks[id := s.tasks[id].(owes := false)], queue := s.queue + [s.tasks[id].room])
    case Unregister(id) => s.(tasks := s.tasks[id := s.tasks[id].(registered := false, owes := true)])
    case OtherSend(room, lost) => s.(tasks := Losing(s.tasks, room, lost, None))
    case Drain => s.(queue := s.queue[1..], pending := s.pending + {s.queue[0]})
    case Pick(room) => s.(pending := s.pending - {room}, job := Picked(room))
    case Count => s.(job := Counted(s.job.room, |Members(s, s.job.room)|))
    case Tell(lost) => s.(tasks := Losing(s.tasks, s.job.room, lost, Some(s.job.count)), job := Idle)
  }

  ghost predicate IsRun(states: seq<State>, events: seq<Event>) {
    && |states| == |events| + 1 && states[0] == START
    && forall i :: 0 <= i < |events| ==> Enabled(states[i], events[i]) && states[i + 1] == Step(states[i], events[i])
  }

  ghost predicate Owed(s: State, room: string) {
    exists id :: id in s.tasks && s.tasks[id].room == room && s.tasks[id].owes
  }

  /** An announcement of the room is still to come, or still to be picked up. */
  ghost predicate Coming(s: State, room: string) {
    room in s.queue || room in s.pending || Owed(s, room)
  }

  ghost predicate Exact(s: State, room: string) {
    forall id :: id in Members(s, room) ==> s.tasks[id].last == Some(|Members(s, room)|)
  }

  /** Every room's count is exact, or about to be corrected. */
  ghost predicate Converging(s: State) {
    forall room :: Exact(s, room) || Coming(s, room) || (!s.job.Idle? && s.job.room == room)
  }

  /** A count that was read is still right, unless it is about to be corrected. */
  ghost predicate JobOk(s: State) {
    s.job.Counted? ==> s.job.count == |Members(s, s.job.room)| || Coming(s, s.job.room)
  }

  /** A step that keeps a room's members and their counts, or leaves word of the
      change, keeps the room converging. */
  lemma Undisturbed(s: State, t: State, room: string)
    requires Exact(s, room) || Coming(s, room)
    requires Members(t, room) == Members(s, room) || Coming(t, room)
    requires forall id :: id in Members(s, room) && id in Members(t, room) ==> t.tasks[id].last == s.tasks[id].last
    requires Coming(s, room) ==> Coming(t, room)
    ensures Exact(t, room) || Coming(t, room)
  {
  }

  lemma Lasts(s: State, t: State, room: string, id: nat)
    requires id in s.tasks && s.tasks[id].room == room && s.tasks[id].owes
    requires id in t.tasks && t.tasks[id].room == room && (t.tasks[id].owes || room in t.queue)
    ensures Coming(t, room)
  {
    if t.tasks[id].owes {
      assert Owed(t, room);
    }
  }

  /** Steps of the connection tasks, and other sends to the room. */
  lemma TaskStep(s: State, e: Event, room: string)
    requires Enabled(s, e) && (e.Register? || e.Announce? || e.Unregister? || e.OtherSend?)
    ensures var t := Step(s, e);
            && (Members(t, room) == Members(s, room) || Coming(t, room))
            && (forall id :: id in Members(s, room) && id in Members(t, room) ==> t.tasks[id].last == s.tasks[id].last)
            && (Coming(s, room) ==> Coming(t, room))
            && t.job == s.job
  {
    var t := Step(s, e);
    if Owed(s, room) {
      var id :| id in s.tasks && s.tasks[id].room == room && s.tasks[id].owes;
      Lasts(s, t, room, id);
    }
    if id :| id in t.tasks && t.tasks[id].room == room && (id in Members(s, room)) != (id in Members(t, room)) {
      assert t.tasks[id].owes;
      assert Owed(t, room);
    } else {
      assert Members(t, room) == Members(s, room);
    }
  }

  lemma WorkerStep(s: State, e: Event, room: string)
    requires Enabled(s, e) && (e.Drain? || e.Pick? || e.Count?)
    ensures var t := Step(s, e);
            && t.tasks == s.tasks
            && (Coming(s, room) ==> Coming(t, room) || (!t.job.Idle? && t.job.room == room))
  {
    var t := Step(s, e);
    assert Owed(s, room) ==> Owed(t, room);
    if room in s.queue && e.Drain? {
      assert room == s.queue[0] || room in s.queue[1..];
    }
  }

  lemma TellStep(s: State, lost: set<nat>)
    requires Converging(s) && JobOk(s) && Enabled(s, Tell(lost))
    ensures Converging(Step(s, Tell(lost)))
  {
    var t, told := Step(s, Tell(lost)), s.job.room;
    forall room ensures Exact(t, room) || Coming(t, room) {
      TellRoom(s, lost, room);
    }
  }

  lemma TellRoom(s: State, lost: set<nat>, room: string)
    requires Converging(s) && JobOk(s) && Enabled(s, Tell(lost))
    ensures var t := Step(s, Tell(lost)); Exact(t, room) || Coming(t, room)
  {
    var t, told := Step(s, Tell(lost)), s.job.room;
    if Owed(s, room) {
      var id :| id in s.tasks && s.tasks[id].room == room && s.tasks[id].owes;
      Lasts(s, t, room, id);
    }
    if id :| id in Members(s, told) && id in lost && told == room {
      assert t.tasks[id].owes;
      assert Owed(t, room);
    } else if told == room {
      assert Members(t, room) == Members(s, room);
    } else {
      assert Members(t, room) == Members(s, room);
      assert Exact(s, room) || Coming(s, room);
    }
  }

  lemma StepKeeps(s: State, e: Event)
    requires Converging(s) && JobOk(s) && Enabled(s, e)
    ensures Converging(Step(s, e)) && JobOk(Step(s, e))
  {
    var t := Step(s, e);
    if e.Tell? {
      TellStep(s, e.lost);
    } else if e.Drain? || e.Pick? || e.Count? {
      forall room ensures Exact(t, room) || Coming(t, room) || (!t.job.Idle? && t.job.room == room) {
        WorkerStep(s, e, room);
        assert Members(t, room) == Members(s, room);
      }
      assert e.Count? ==> Members(t, t.job.room) == Members(s, t.job.room);
    } else {
      forall room ensures Exact(t, room) || Coming(t, room) || (!t.job.Idle? && t.job.room == room) {
        TaskStep(s, e, room);
        if Exact(s, room) || Coming(s, room) {
          Undisturbed(s, t, room);
        }
      }
      if s.job.Counted? {
        TaskStep(s, e, s.job.room);
      }
    }
  }

  /** User counts converge. In every reachable state each room's members were last
      sent the room's exact size, or the room is queued or being processed, or
      some task has yet to announce a change of membership. */
  lemma {:induction false} CountsConverge(states: seq<State>, events: seq<Event>, n: nat)
    requires IsRun(states, events) && n < |states|
    ensures Converging(states[n]) && JobOk(states[n])
  {
    if n > 0 {
      CountsConverge(states, events, n - 1);
      StepKeeps(states[n - 1], events[n - 1]);
    }
  }

  /** At quiescence every viewer was last sent the exact size of its room. */
  lemma ExactAtQuiescence(states: seq<State>, events: seq<Event>, n: nat, id: nat)
    requires IsRun(states, events) && n < |states|
    requires var s := states[n];
             && s.queue == [] && s.pending == {} && s.job.Idle?
             && (forall k :: k in s.tasks ==> !s.tasks[k].owes)
             && id in s.tasks && s.tasks[id].registered
    ensures states[n].tasks[id].last == Some(|Members(states[n], states[n].tasks[id].room)|)
  {
    CountsConverge(states, events, n);
    var s := states[n];
    var room := s.tasks[id].room;
    assert Exact(s, room) || Coming(s, room);
    assert id in Members(s, room);
  }

  // ---- On the registry itself ----

  function Users(count: nat): (json: string) { "{\"usersCount\":" + Decimal(count) + "}" }

  function Decimal(n: nat): (digits: string) {
    var digit := ['0', '1', '2', '3', '4', '5', '6', '7', '8', '9'][n % 10];
    if n < 10 then [digit] else Decimal(n / 10) + [digit]
  }

  /** The tasks are the viewers of the registry, each in its room. */
  ghost predicate Mirrors(h: Viewers.Hub, s: State) {
    && s.tasks.Keys == h.home.Keys
    && forall id :: id in s.tasks ==>
         s.tasks[id].room == h.home[id] && (s.tasks[id].registered <==> Viewers.Registered(h, id))
  }

  /** The count a task was last told is a message its viewer was sent. */
  ghost predicate ToldOnHub(h: Viewers.Hub, s: State) {
    forall id :: id in s.tasks && s.tasks[id].last.Some? ==>
      id in h.sent && Viewers.Control(Users(s.tasks[id].last.value)) in h.sent[id]
  }

  lemma SameMembers(h: Viewers.Hub, s: State, room: string)
    requires Viewers.Sound(h) && Mirrors(h, s)
    ensures Members(s, room) == Viewers.Members(h, room)
  {
  }

  /** The members of a room that its next message costs their place. */
  function Crowded(h: Viewers.Hub, room: string): (ids: set<nat>) {
    Viewers.Members(h, room) - Viewers.WithSpace(Viewers.Members(h, room), h.queues)
  }

  datatype Joint = Joint(hub: Viewers.Hub, counts: State)

  /** An operation on the registry, or a step of the tasks and the worker that the
      registry does not see, or sees as the one message `Tell` sends. */
  datatype Act = Operates(op: Viewers.Op) | Works(e: Event)

  function Noticed(h: Viewers.Hub, op: Viewers.Op): (e: Event)
    requires !op.TakeOp?
  {
    match op
    case JoinOp(room, id) => Register(id, room)
    case LeaveOp(_, id) => Unregister(id)
    case SendOp(room, _) => OtherSend(room, Crowded(h, room))
  }

  predicate Legal(j: Joint, a: Act) {
    match a
    case Operates(op) => Viewers.Possible(j.hub, op) && (op.TakeOp? || Enabled(j.counts, Noticed(j.hub, op)))
    case Works(e) =>
      && Enabled(j.counts, e)
      && (e.Announce? || e.Drain? || e.Pick? || e.Count? || (e.Tell? && e.lost == Crowded(j.hub, j.counts.job.room)))
  }

  function Acted(j: Joint, a: Act): (after: Joint)
    requires Legal(j, a)
  {
    match a
    case Operates(op) =>
      Joint(Viewers.Apply(j.hub, op), if op.TakeOp? then j.counts else Step(j.counts, Noticed(j.hub, op)))
    case Works(e) =>
      var job := j.counts.job;
      Joint(if e.Tell? then Viewers.Send(j.hub, job.room, Viewers.Control(Users(job.count))) else j.hub,
            Step(j.counts, e))
  }

  ghost predicate IsJointRun(joints: seq<Joint>, acts: seq<Act>) {
    && |joints| == |acts| + 1 && joints[0] == Joint(Viewers.EMPTY, START)
    && forall i :: 0 <= i < |acts| ==> Legal(joints[i], acts[i]) && joints[i + 1] == Acted(joints[i], acts[i])
  }

  /** Whatever the registry may do, the counts can follow. */
  lemma NothingExcluded(j: Joint, op: Viewers.Op)
    requires Viewers.Sound(j.hub) && Mirrors(j.hub, j.counts) && Viewers.Possible(j.hub, op)
    ensures Legal(j, Operates(op))
  {
  }

  lemma SendRegisters(h: Viewers.Hub, room: string, msg: Viewers.Msg, id: nat)
    requires Viewers.Sound(h) && id in h.home
    ensures Viewers.Registered(Viewers.Send(h, room, msg), id) <==>
              Viewers.Registered(h, id) && id !in Crowded(h, room)
  {
  }

  lemma LeaveRegisters(h: Viewers.Hub, room: string, id: nat, k: nat)
    requires Viewers.Sound(h) && id in h.home && h.home[id] == room && k in h.home
    ensures Viewers.Registered(Viewers.Leave(h, room, id), k) <==> Viewers.Registered(h, k) && k !in {id}
  {
  }

  lemma JoinRegisters(h: Viewers.Hub, room: string, id: nat, k: nat)
    requires Viewers.Sound(h) && id !in h.queues && (k in h.home || k == id)
    ensures Viewers.Registered(Viewers.Join(h, room, id), k) <==> Viewers.Registered(h, k) || k == id
  {
  }

  /** The same viewers lose their place on both sides. */
  lemma LosingMirrors(h: Viewers.Hub, s: State, v: Viewers.Hub, t: State, gone: set<nat>)
    requires Mirrors(h, s) && v.home == h.home && t.tasks.Keys == s.tasks.Keys
    requires forall id :: id in h.home ==> (Viewers.Registered(v, id) <==> Viewers.Registered(h, id) && id !in gone)
    requires forall id :: id in s.tasks ==>
               && t.tasks[id].room == s.tasks[id].room
               && (t.tasks[id].registered <==> s.tasks[id].registered && id !in gone)
    ensures Mirrors(v, t)
  {
    forall id | id in t.tasks ensures t.tasks[id].registered <==> Viewers.Registered(v, id) {
      assert s.tasks[id].registered <==> Viewers.Registered(h, id);
    }
  }

  lemma SendMirrors(h: Viewers.Hub, s: State, room: string, msg: Viewers.Msg, told: Option<nat>, t: State)
    requires Viewers.Sound(h) && Mirrors(h, s) && t.tasks == Losing(s.tasks, room, Crowded(h, room), told)
    ensures Mirrors(Viewers.Send(h, room, msg), t)
  {
    forall id | id in h.home
      ensures Viewers.Registered(Viewers.Send(h, room, msg), id) <==>
                Viewers.Registered(h, id) && id !in Crowded(h, room)
    {
      SendRegisters(h, room, msg, id);
    }
    LosingRegisters(h, s, room, told, t);
    LosingMirrors(h, s, Viewers.Send(h, room, msg), t, Crowded(h, room));
  }

  lemma LosingRegisters(h: Viewers.Hub, s: State, room: string, told: Option<nat>, t: State)
    requires Viewers.Sound(h) && Mirrors(h, s) && t.tasks == Losing(s.tasks, room, Crowded(h, room), told)
    ensures forall id :: id in s.tasks ==>
              && t.tasks[id].room == s.tasks[id].room
              && (t.tasks[id].registered <==> s.tasks[id].registered && id !in Crowded(h, room))
  {
    forall id | id in s.tasks && id in Crowded(h, room) ensures s.tasks[id].room == room {
      assert room in h.rooms && id in h.rooms[room];
    }
  }

  lemma SendTold(h: Viewers.Hub, s: State, room: string, msg: Viewers.Msg, told: Option<nat>, t: State)
    requires Viewers.Sound(h) && Mirrors(h, s) && ToldOnHub(h, s)
    requires t.tasks == Losing(s.tasks, room, Crowded(h, room), told)
    requires told.Some? ==> msg == Viewers.Control(Users(told.value))
    ensures ToldOnHub(Viewers.Send(h, room, msg), t)
  {
    var v := Viewers.Send(h, room, msg);
    forall id | id in t.tasks && t.tasks[id].last.Some?
      ensures id in v.sent && Viewers.Control(Users(t.tasks[id].last.value)) in v.sent[id]
    {
      assert id in h.sent && v.sent[id] == if h.home[id] == room then h.sent[id] + [msg] else h.sent[id];
      if t.tasks[id].last != s.tasks[id].last {
        assert v.sent[id][|h.sent[id]|] == msg;
      }
    }
  }

  lemma JoinMirrors(h: Viewers.Hub, s: State, room: string, id: nat, t: State)
    requires Viewers.Sound(h) && Mirrors(h, s) && ToldOnHub(h, s) && id !in h.queues
    requires t.tasks == s.tasks[id := Task(room, true, true, None)]
    ensures Mirrors(Viewers.Join(h, room, id), t) && ToldOnHub(Viewers.Join(h, room, id), t)
  {
    var v := Viewers.Join(h, room, id);
    forall k | k in t.tasks ensures t.tasks[k].registered <==> Viewers.Registered(v, k) {
      JoinRegisters(h, room, id, k);
    }
  }

  lemma LeaveMirrors(h: Viewers.Hub, s: State, room: string, id: nat, t: State)
    requires Viewers.Sound(h) && Mirrors(h, s) && id in h.home && h.home[id] == room
    requires t.tasks == s.tasks[id := s.tasks[id].(registered := false, owes := true)]
    ensures Mirrors(Viewers.Leave(h, room, id), t)
  {
    LeaveKeepsOthers(h, room, id);
    LosingMirrors(h, s, Viewers.Leave(h, room, id), t, {id});
  }

  lemma LeaveKeepsOthers(h: Viewers.Hub, room: string, id: nat)
    requires Viewers.Sound(h) && id in h.home && h.home[id] == room
    ensures var v := Viewers.Leave(h, room, id);
            && v.home == h.home
            && forall k :: k in h.home ==> (Viewers.Registered(v, k) <==> Viewers.Registered(h, k) && k !in {id})
  {
    var v := Viewers.Leave(h, room, id);
    forall k | k in h.home ensures Viewers.Registered(v, k) <==> Viewers.Registered(h, k) && k !in {id} {
      LeaveRegisters(h, room, id, k);
    }
  }

  lemma LeaveTold(h: Viewers.Hub, s: State, room: string, id: nat, t: State)
    requires ToldOnHub(h, s) && id in s.tasks
    requires t.tasks == s.tasks[id := s.tasks[id].(registered := false, owes := true)]
    ensures ToldOnHub(Viewers.Leave(h, room, id), t)
  {
    assert Viewers.Leave(h, room, id).sent == h.sent;
  }

  lemma OperationMirrors(j: Joint, op: Viewers.Op)
    requires Viewers.Sound(j.hub) && Mirrors(j.hub, j.counts) && ToldOnHub(j.hub, j.counts) && Legal(j, Operates(op))
    ensures var k := Acted(j, Operates(op)); Mirrors(k.hub, k.counts) && ToldOnHub(k.hub, k.counts)
  {
    var k := Acted(j, Operates(op));
    match op {
      case JoinOp(room, id) => JoinMirrors(j.hub, j.counts, room, id, k.counts);
      case LeaveOp(room, id) =>
        LeaveMirrors(j.hub, j.counts, room, id, k.counts);
        LeaveTold(j.hub, j.counts, room, id, k.counts);
      case SendOp(room, msg) =>
        SendMirrors(j.hub, j.counts, room, msg, None, k.counts);
        SendTold(j.hub, j.counts, room, msg, None, k.counts);
      case TakeOp(_) =>
    }
  }

  lemma WorkMirrors(j: Joint, e: Event)
    requires Viewers.Sound(j.hub) && Mirrors(j.hub, j.counts) && ToldOnHub(j.hub, j.counts) && Legal(j, Works(e))
    ensures var k := Acted(j, Works(e));
            Viewers.Sound(k.hub) && Mirrors(k.hub, k.counts) && ToldOnHub(k.hub, k.counts)
  {
    if e.Tell? {
      var job := j.counts.job;
      var k, msg := Acted(j, Works(e)), Viewers.Control(Users(job.count));
      Viewers.SendSound(j.hub, job.room, msg);
      SendMirrors(j.hub, j.counts, job.room, msg, Some(job.count), k.counts);
      SendTold(j.hub, j.counts, job.room, msg, Some(job.count), k.counts);
    }
  }

  lemma ActKeeps(j: Joint, a: Act)
    requires Viewers.Sound(j.hub) && Mirrors(j.hub, j.counts) && ToldOnHub(j.hub, j.counts) && Legal(j, a)
    requires Converging(j.counts) && JobOk(j.counts)
    ensures var k := Acted(j, a);
            && Viewers.Sound(k.hub) && Mirrors(k.hub, k.counts) && ToldOnHub(k.hub, k.counts)
            && Converging(k.counts) && JobOk(k.counts)
  {
    match a {
      case Operates(op) =>
        Viewers.ApplySound(j.hub, op);
        OperationMirrors(j, op);
        if !op.TakeOp? {
          StepKeeps(j.counts, Noticed(j.hub, op));
        }
      case Works(e) =>
        WorkMirrors(j, e);
        StepKeeps(j.counts, e);
    }
  }

  lemma {:induction false} JointRun(joints: seq<Joint>, acts: seq<Act>, n: nat)
    requires IsJointRun(joints, acts) && n < |joints|
    ensures var j := joints[n];
            && Viewers.Sound(j.hub) && Mirrors(j.hub, j.counts) && ToldOnHub(j.hub, j.counts)
            && Converging(j.counts) && JobOk(j.counts)
  {
    if n > 0 {
      JointRun(joints, acts, n - 1);
      ActKeeps(joints[n - 1], acts[n - 1]);
    }
  }

  /** The counts are those of the registry. Over every run of the registry, the tasks
      and the worker together, where a full queue costs exactly the members the
      registry drops: with nothing queued, processed or owed, every registered viewer
      was last told the size its room has in the registry, and was sent that message. */
  lemma RegistryIsCounted(joints: seq<Joint>, acts: seq<Act>, n: nat, id: nat)
    requires IsJointRun(joints, acts) && n < |joints|
    requires var s := joints[n].counts;
             s.queue == [] && s.pending == {} && s.job.Idle? && forall k :: k in s.tasks ==> !s.tasks[k].owes
    requires Viewers.Registered(joints[n].hub, id)
    ensures var h, s := joints[n].hub, joints[n].counts;
            var size := |Viewers.Members(h, h.home[id])|;
            && id in s.tasks && s.tasks[id].last == Some(size)
            && id in h.sent && Viewers.Control(Users(size)) in h.sent[id]
  {
    JointRun(joints, acts, n);
    var h, s := joints[n].hub, joints[n].counts;
    var room := h.home[id];
    SameMembers(h, s, room);
    assert Exact(s, room) || Coming(s, room);
    assert id in Members(s, room);
  }

  // ---- The worker's pass ----

  /** The number a row of digits stands for. */
  function NumberOf(digits: string): (n: nat) {
    if digits == [] then 0
    else
      var d := digits[|digits| - 1];
      NumberOf(digits[..|digits| - 1]) * 10 + if '0' <= d <= '9' then d as int - '0' as int else 0
  }

  /** What is written reads back as the count. */
  lemma {:induction false} DecimalReads(n: nat)
    ensures NumberOf(Decimal(n)) == n
  {
    var digits := Decimal(n);
    if n < 10 {
      assert digits[..0] == [];
    } else {
      DecimalReads(n / 10);
      assert digits[..|digits| - 1] == Decimal(n / 10);
    }
  }

  /** Two counts are never announced alike. */
  lemma CountsDiffer(m: nat, n: nat)
    requires Users(m) == Users(n)
    ensures m == n
  {
    DecimalReads(m);
    DecimalReads(n);
    assert Decimal(m) == Users(m)[14..|Users(m)| - 1];
    assert Decimal(n) == Users(n)[14..|Users(n)| - 1];
  }

  /** Each room in turn is sent the size it has at that moment. */
  function Told(h: Viewers.Hub, order: seq<string>): (after: Viewers.Hub) {
    if order == [] then h
    else
      var before, room := Told(h, order[..|order| - 1]), order[|order| - 1];
      Viewers.Send(before, room, Viewers.Control(Users(|Viewers.Members(before, room)|)))
  }

  /** What a pass over `order` means for a viewer of a room: the room's size when the
      pass began, once, unless its queue is full, which costs it its place. */
  predicate CountReached(rooms: map<string, set<nat>>, queues: map<nat, seq<Viewers.Msg>>, order: seq<string>,
                         rooms': map<string, set<nat>>, queues': map<nat, seq<Viewers.Msg>>, room: string, id: nat)
    requires room in rooms && id in rooms[room]
  {
    && id in queues && id in queues'
    && if room !in order then room in rooms' && id in rooms'[room] && queues'[id] == queues[id]
       else if |queues[id]| < 2048 then
         && room in rooms' && id in rooms'[room]
         && queues'[id] == queues[id] + [Viewers.Control(Users(|rooms[room]|))]
       else !Viewers.Member(rooms', room, id) && queues'[id] == queues[id]
  }

  ghost predicate CountsReached(rooms: map<string, set<nat>>, queues: map<nat, seq<Viewers.Msg>>, order: seq<string>,
                                rooms': map<string, set<nat>>, queues': map<nat, seq<Viewers.Msg>>) {
    && queues'.Keys == queues.Keys
    && (forall room, id :: room in rooms && id in rooms[room] ==>
          CountReached(rooms, queues, order, rooms', queues', room, id))
    && (forall room :: room !in order ==> (room in rooms' <==> room in rooms))
    && (forall room :: room in rooms && room !in order ==> rooms'[room] == rooms[room])
  }

  /** Nobody watches two rooms. */
  predicate OneRoomEach(rooms: map<string, set<nat>>) {
    forall r, q, id :: r in rooms && id in rooms[r] && q in rooms && id in rooms[q] ==> r == q
  }

  /** The next room is told: nobody else notices. */
  lemma CountsReachOneMore(rooms: map<string, set<nat>>, queues: map<nat, seq<Viewers.Msg>>, order: seq<string>,
                           rooms1: map<string, set<nat>>, queues1: map<nat, seq<Viewers.Msg>>, next: string,
                           rooms2: map<string, set<nat>>, queues2: map<nat, seq<Viewers.Msg>>)
    requires OneRoomEach(rooms) && next !in order && CountsReached(rooms, queues, order, rooms1, queues1)
    requires var n := if next in rooms1 then |rooms1[next]| else 0;
             Viewers.Reached(rooms1, queues1, next, Viewers.Control(Users(n)), rooms2, queues2)
    requires next in rooms2 <==> next in rooms1
    ensures CountsReached(rooms, queues, order + [next], rooms2, queues2)
  {
    forall room | room != next
      ensures (room in rooms2 <==> room in rooms1) && (room in rooms1 ==> rooms2[room] == rooms1[room])
    {
      assert room in rooms2 <==> room in rooms2 - {next};
      assert room in rooms1 <==> room in rooms1 - {next};
      assert room in rooms1 ==> (rooms2 - {next})[room] == (rooms1 - {next})[room];
    }
    forall room, id | room in rooms && id in rooms[room]
      ensures CountReached(rooms, queues, order + [next], rooms2, queues2, room, id)
    {
      assert CountReached(rooms, queues, order, rooms1, queues1, room, id);
      assert id in queues1;
      if room != next {
        assert !Viewers.Member(rooms1, next, id);
        assert queues1[id] + [] == queues1[id];
      }
    }
  }

  lemma SoundOneRoomEach(h: Viewers.Hub)
    requires Viewers.Sound(h)
    ensures OneRoomEach(h.rooms)
  {
    forall r, q, id | r in h.rooms && id in h.rooms[r] && q in h.rooms && id in h.rooms[q] ensures r == q {
      assert h.home[id] == r && h.home[id] == q;
    }
  }

  /** The rooms announced, each once. */
  method Distinct(announced: seq<string>) returns (rooms: set<string>)
    ensures forall room :: room in rooms <==> room in announced
  {
    rooms := {};
    for i := 0 to |announced|
      invariant forall room :: room in rooms <==> room in announced[..i]
    {
      assert announced[..i + 1] == announced[..i] + [announced[i]];
      rooms := rooms + {announced[i]};
    }
    assert announced[..|announced|] == announced;
  }

  /** Tell one room its size. */
  method TellRoomSize(room: string, viewers: Viewers.Registry, ghost start: Viewers.Hub, ghost order: seq<string>)
    requires viewers.Valid() && viewers.hub == Told(start, order) && room !in order && Viewers.Sound(start)
    requires CountsReached(start.rooms, start.queues, order, viewers.rooms, viewers.queues)
    modifies viewers
    ensures viewers.Valid() && viewers.hub == Told(start, order + [room])
    ensures CountsReached(start.rooms, start.queues, order + [room], viewers.rooms, viewers.queues)
  {
    var count := viewers.Count(room);
    ghost var rooms, queues := viewers.rooms, viewers.queues;
    viewers.Broadcast(room, Viewers.Control(Users(count)));
    assert (order + [room])[..|order|] == order;
    SoundOneRoomEach(start);
    CountsReachOneMore(start.rooms, start.queues, order, rooms, queues, room, viewers.rooms, viewers.queues);
  }

  /** One pass over the drained announcements: one count per room, however often
      it was announced. */
  method UserCountPass(announced: seq<string>, viewers: Viewers.Registry) returns (order: seq<string>)
    requires viewers.Valid()
    modifies viewers
    ensures viewers.Valid() && viewers.hub == Told(old(viewers.hub), order)
    ensures forall room :: room in order <==> room in announced
    ensures forall i, j :: 0 <= i < j < |order| ==> order[i] != order[j]
    ensures CountsReached(old(viewers.rooms), old(viewers.queues), order, viewers.rooms, viewers.queues)
  {
    var rooms := Distinct(announced);
    order := [];
    while rooms != {}
      invariant viewers.Valid() && viewers.hub == Told(old(viewers.hub), order)
      invariant CountsReached(old(viewers.rooms), old(viewers.queues), order, viewers.rooms, viewers.queues)
      invariant forall room :: room in announced <==> room in order || room in rooms
      invariant forall room :: room in order ==> room !in rooms
      invariant forall i, j :: 0 <= i < j < |order| ==> order[i] != order[j]
      decreases rooms
    {
      var room :| room in rooms;
      rooms := rooms - {room};
      TellRoomSize(room, viewers, old(viewers.hub), order);
      order := order + [room];
    }
  }
}
