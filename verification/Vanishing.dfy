/** A room that vanishes under a running loop (src/server/mod.rs:315-316): the run of
    `Delivery` in which a joiner is shown content that no size came before. */
module Vanishing {
  import opened Prelude
  import opened Delivery

  const WIRE: seq<Kind> := [SizeKind, DataKind]

  function Alone(log: seq<Kind>, claimed: nat, hasSize: bool, published: seq<nat>,
                 loop: Loop, viewers: map<nat, Viewer>): (s: State) {
    State(log, claimed, claimed, claimed, hasSize, published, 0, map[0 := loop], viewers)
  }

  /** A size is stored, the room vanishes, and the loop's next frame claims it anew;
      then a viewer joins. */
  function VanishingEvents(): (events: seq<Event>) {
    [Attach(0, WIRE), Store(0, 0), Publish(0), Vanish, Store(0, 1), Register(7), Snapshot(7)]
  }

  function VanishingStates(): (states: seq<State>) {
    var joined := Viewer(true, 0, 0, 2, None);
    [START,
     Alone([], 0, false, [], Loop(WIRE, 0, None), map[]),
     Alone([SizeKind], 0, true, [], Loop(WIRE, 1, Some(0)), map[]),
     Alone([SizeKind], 0, true, [0], Loop(WIRE, 1, None), map[]),
     Alone([SizeKind], 1, false, [0], Loop(WIRE, 1, None), map[]),
     Alone(WIRE, 1, false, [0], Loop(WIRE, 2, Some(1)), map[]),
     Alone(WIRE, 1, false, [0], Loop(WIRE, 2, Some(1)), map[7 := joined]),
     Alone(WIRE, 1, false, [0], Loop(WIRE, 2, Some(1)), map[7 := joined.(snap := Some(Snap(false, 1, 2, 1, 1)))])]
  }

  lemma VanishingStep(i: nat)
    requires i < 7
    ensures Enabled(VanishingStates()[i], VanishingEvents()[i])
    ensures VanishingStates()[i + 1] == Step(VanishingStates()[i], VanishingEvents()[i])
  {
    if i == 0 {
      assert WIRE[0].SizeKind?;
    } else if i == 1 || i == 4 {
      assert [] + [SizeKind] == [SizeKind] && [SizeKind] + [DataKind] == WIRE;
    }
  }

  lemma VanishingRun()
    ensures IsRun(VanishingStates(), VanishingEvents())
  {
    forall i | 0 <= i < |VanishingEvents()|
      ensures Enabled(VanishingStates()[i], VanishingEvents()[i])
      ensures VanishingStates()[i + 1] == Step(VanishingStates()[i], VanishingEvents()[i])
    {
      VanishingStep(i);
    }
  }

  /** In this run the joiner's history is content that no size came before. */
  lemma VanishedRoomLosesSize()
    ensures IsRun(VanishingStates(), VanishingEvents()) && |VanishingStates()| == 8
    ensures var s := VanishingStates()[7];
            && Barren(s.log, s.viewers[7].snap.value)
            && Tracked(s) && ViewerOk(s, s.viewers[7]) && !SizeFirst(Stream(s, s.viewers[7]))
  {
    VanishingRun();
    var s := VanishingStates()[7];
    assert s.log[1].DataKind?;
    assert Has(s.log, DataKind, 1, 2);
    ContentFirstExactly(VanishingStates(), VanishingEvents(), 7, 7);
  }

  // ---- Joining in between ----

  /** The size has gone out, the room vanishes, and a viewer joins before the loop's
      next frame claims it anew. */
  function BetweenEvents(): (events: seq<Event>) {
    [Attach(0, WIRE), Store(0, 0), Publish(0), Emit(1, {}), Vanish, Register(7), Snapshot(7),
     Store(0, 1), Publish(0), Emit(1, {})]
  }

  function Between(log: seq<Kind>, claimed: nat, hasSize: bool, published: seq<nat>, emitted: nat,
                   loop: Loop, viewers: map<nat, Viewer>): (s: State) {
    Alone(log, claimed, hasSize, published, loop, viewers).(emitted := emitted)
  }

  function BetweenStates(): (states: seq<State>) {
    var waiting, joined := Loop(WIRE, 1, None), Viewer(true, 1, 1, 1, None);
    var caught := joined.(snap := Some(Snap(false, 1, 1, 1, 1)));
    [START,
     Between([], 0, false, [], 0, Loop(WIRE, 0, None), map[]),
     Between([SizeKind], 0, true, [], 0, Loop(WIRE, 1, Some(0)), map[]),
     Between([SizeKind], 0, true, [0], 0, waiting, map[]),
     Between([SizeKind], 0, true, [0], 1, waiting, map[]),
     Between([SizeKind], 1, false, [0], 1, waiting, map[]),
     Between([SizeKind], 1, false, [0], 1, waiting, map[7 := joined]),
     Between([SizeKind], 1, false, [0], 1, waiting, map[7 := caught]),
     Between(WIRE, 1, false, [0], 1, Loop(WIRE, 2, Some(1)), map[7 := caught]),
     Between(WIRE, 1, false, [0, 1], 1, Loop(WIRE, 2, None), map[7 := caught]),
     Between(WIRE, 1, false, [0, 1], 2, Loop(WIRE, 2, None), map[7 := caught.(upto := 2)])]
  }

  ghost predicate BetweenStep(i: nat)
    requires i < 10
  {
    && Enabled(BetweenStates()[i], BetweenEvents()[i])
    && BetweenStates()[i + 1] == Step(BetweenStates()[i], BetweenEvents()[i])
  }

  lemma BetweenOpening(i: nat)
    requires i < 3
    ensures BetweenStep(i)
  {
    assert i == 0 ==> WIRE[0].SizeKind?;
    assert i == 1 ==> [] + [SizeKind] == [SizeKind];
  }

  lemma BetweenVanishing(i: nat)
    requires 3 <= i < 5
    ensures BetweenStep(i)
  {
  }

  lemma BetweenJoining(i: nat)
    requires 5 <= i < 7
    ensures BetweenStep(i)
  {
  }

  lemma BetweenClaiming(i: nat)
    requires 7 <= i < 10
    ensures BetweenStep(i)
  {
    assert i == 7 ==> [SizeKind] + [DataKind] == WIRE;
  }

  /** In this run the joiner's catch-up is empty, and its queue brings it content that
      no size comes before. */
  lemma JoinedInBetweenLosesSize()
    ensures IsRun(BetweenStates(), BetweenEvents()) && |BetweenStates()| == 11
    ensures var s := BetweenStates()[10];
            && !Barren(s.log, s.viewers[7].snap.value)
            && Tracked(s) && ViewerOk(s, s.viewers[7]) && !SizeFirst(Stream(s, s.viewers[7]))
  {
    forall i | 0 <= i < |BetweenEvents()|
      ensures Enabled(BetweenStates()[i], BetweenEvents()[i])
      ensures BetweenStates()[i + 1] == Step(BetweenStates()[i], BetweenEvents()[i])
    {
      if i < 3 {
        BetweenOpening(i);
      } else if i < 5 {
        BetweenVanishing(i);
      } else if i < 7 {
        BetweenJoining(i);
      } else {
        BetweenClaiming(i);
      }
      assert BetweenStep(i);
    }
    ContentFirstExactly(BetweenStates(), BetweenEvents(), 10, 7);
  }
}
