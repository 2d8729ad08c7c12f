/** Keyframes for late joiners (src/cli/screen.rs).

    The emulator is an oracle: what its dump contains is an argument. Decoding is
    proved against `Utf8`, the cadence against `Sent`, and the cadence together
    with the history caps gives the property the caps were chosen for: the
    newest keyframe is always still there to be replayed. */
module Screen {
  import opened Prelude
  import Transport
  import opened Utf8
  import History
  import Ingest
  import Records
  import Rooms
  import Sender

  const FRAMES_PER_KEYFRAME: nat := 60
  const MAX_CARRY: nat := 8
  const U32_MAX: nat := 0xFFFF_FFFF

  // ---- What a dump says ----

  /** The 8-bit CSI, U+009B, as the dump's bytes hold it. */
  const CSI: Blob := [0xC2, 0x9B]
  const ESC_BRACKET: Blob := [0x1B, 0x5B]
  /** `?1047h` and `?1047l` behind the CSI: to the alternate screen and back. */
  const ENTER: Blob := CSI + [0x3F, 0x31, 0x30, 0x34, 0x37, 0x68]
  const LEAVE: Blob := CSI + [0x3F, 0x31, 0x30, 0x34, 0x37, 0x6C]

  predicate At(s: Blob, part: Blob, i: nat) {
    i + |part| <= |s| && forall k :: 0 <= k < |part| ==> s[i + k] == part[k]
  }

  predicate Contains(s: Blob, part: Blob) {
    exists i: nat :: i <= |s| && At(s, part, i)
  }

  /** The dump enters the alternate screen and does not leave it. */
  predicate OnAlternate(dump: Blob) {
    Contains(dump, ENTER) && !Contains(dump, LEAVE)
  }

  /** Every 8-bit CSI replaced by its 7-bit form. */
  function Rewritten(dump: Blob): (redraw: Blob)
    ensures |redraw| == |dump|
  {
    if |dump| < 2 then dump
    else if dump[..2] == CSI then ESC_BRACKET + Rewritten(dump[2..])
    else [dump[0]] + Rewritten(dump[1..])
  }

  predicate CsiAt(s: Blob, i: int) {
    0 <= i < |s| - 1 && s[i] == CSI[0] && s[i + 1] == CSI[1]
  }

  /** Exactly the two bytes of each 8-bit CSI differ. */
  lemma {:induction false} RewrittenAt(dump: Blob, i: nat)
    requires i < |dump|
    ensures Rewritten(dump)[i] ==
            if CsiAt(dump, i) then ESC_BRACKET[0] else if CsiAt(dump, i - 1) then ESC_BRACKET[1] else dump[i]
  {
    if |dump| >= 2 {
      assert dump[..2] == CSI <==> CsiAt(dump, 0);
      var k := if CsiAt(dump, 0) then 2 else 1;
      if i >= k {
        RewrittenAt(dump[k..], i - k);
        assert CsiAt(dump[k..], i - k) == CsiAt(dump, i);
        assert CsiAt(dump, i - 1) ==> CsiAt(dump[k..], i - k - 1) || i == k;
      }
    }
  }

  /** No 8-bit CSI is left for a viewer to trip over. */
  lemma RewrittenIsSevenBit(dump: Blob)
    ensures !Contains(Rewritten(dump), CSI)
  {
    var redraw := Rewritten(dump);
    forall i: nat | i <= |redraw| ensures !At(redraw, CSI, i) {
      if i + 1 < |redraw| {
        RewrittenAt(dump, i);
        RewrittenAt(dump, i + 1);
      }
    }
  }

  // ---- The cadence ----

  datatype Cadence = Cadence(cols: nat, rows: nat, framesSince: nat)

  /** One call to the transport's `send`, with what the emulator would dump. */
  datatype Call = Call(data: Blob, size: Transport.TermSize, dump: Blob)

  datatype Out = Output(bytes: Blob) | Keyframe(bytes: Blob)

  /** The larger of a dimension and one, as an emulator needs it. */
  function Dimension(n: nat): (d: nat)
    ensures d >= 1 && d >= n && (d == 1 || d == n)
  {
    if n == 0 then 1 else n
  }

  function Resized(c: Cadence, size: Transport.TermSize): (after: Cadence) {
    var cols, rows := Dimension(size.cols), Dimension(size.rows);
    if cols != c.cols || rows != c.rows then Cadence(cols, rows, FRAMES_PER_KEYFRAME) else c
  }

  function Counted(c: Cadence, data: Blob): (after: Cadence) {
    if data == [] || c.framesSince >= U32_MAX then c else c.(framesSince := c.framesSince + 1)
  }

  predicate Due(c: Cadence) { c.framesSince >= FRAMES_PER_KEYFRAME }

  function Checked(c: Cadence): (after: Cadence) {
    if Due(c) then c.(framesSince := 0) else c
  }

  function KeyframeOf(c: Cadence, dump: Blob): (k: Option<Blob>) {
    if Due(c) && OnAlternate(dump) then Some(Rewritten(dump)) else None
  }

  function Sent(c: Cadence, call: Call): (after: Cadence) {
    Checked(Counted(Resized(c, call.size), call.data))
  }

  /** What one send buffers: the data first, then the redraw that includes it. */
  function Buffers(c: Cadence, call: Call): (outs: seq<Out>) {
    var output := if call.data == [] then [] else [Output(call.data)];
    match KeyframeOf(Counted(Resized(c, call.size), call.data), call.dump)
    case None => output
    case Some(redraw) => output + [Keyframe(redraw)]
  }

  /** What a send brings, exactly: its data, if any, and behind it a redraw when the
      session is on the alternate screen and either the size changed or the sixtieth
      frame since the last check is reached. Then the count starts again. */
  lemma SendBrings(c: Cadence, call: Call)
    ensures var cols, rows := Dimension(call.size.cols), Dimension(call.size.rows);
            var frames := c.framesSince + if call.data == [] then 0 else 1;
            var due := cols != c.cols || rows != c.rows || frames >= 60;
            && Buffers(c, call) == (if call.data == [] then [] else [Output(call.data)])
                                   + (if due && OnAlternate(call.dump) then [Keyframe(Rewritten(call.dump))] else [])
            && Sent(c, call) == Cadence(cols, rows, if due then 0 else frames)
  {
  }

  /** A changed size brings a redraw with the very next send, empty or not. */
  lemma ResizeBringsKeyframe(c: Cadence, call: Call)
    requires Dimension(call.size.cols) != c.cols || Dimension(call.size.rows) != c.rows
    requires OnAlternate(call.dump)
    ensures Buffers(c, call) != []
    ensures Buffers(c, call)[|Buffers(c, call)| - 1] == Keyframe(Rewritten(call.dump))
  {
    SendBrings(c, call);
  }

  /** At an unchanged size nothing but the cadence brings one. */
  lemma NoKeyframeBefore(c: Cadence, call: Call, i: nat)
    requires Dimension(call.size.cols) == c.cols && Dimension(call.size.rows) == c.rows
    requires c.framesSince + (if call.data == [] then 0 else 1) < 60 && i < |Buffers(c, call)|
    ensures Buffers(c, call)[i] == Output(call.data) && call.data != []
  {
    SendBrings(c, call);
  }

  function Ran(start: Cadence, calls: seq<Call>): (c: Cadence) {
    if calls == [] then start else Sent(Ran(start, calls[..|calls| - 1]), calls[|calls| - 1])
  }

  function Emitted(start: Cadence, calls: seq<Call>): (outs: seq<Out>) {
    if calls == [] then []
    else
      var front := calls[..|calls| - 1];
      Emitted(start, front) + Buffers(Ran(start, front), calls[|calls| - 1])
  }

  /** No backlog is ever banked: between sends fewer frames are counted than a
      keyframe needs, whatever the screens were. */
  lemma {:induction false} NothingBanked(start: Cadence, calls: seq<Call>)
    requires !Due(start)
    ensures !Due(Ran(start, calls))
  {
    if calls != [] {
      NothingBanked(start, calls[..|calls| - 1]);
    }
  }

  ghost predicate NewestKeyframe(outs: seq<Out>, p: nat) {
    p < |outs| && outs[p].Keyframe? && forall i :: p < i < |outs| ==> outs[i].Output?
  }

  /** Every send that begins after output `p` finds the alternate screen. */
  ghost predicate StaysOnAlternate(start: Cadence, calls: seq<Call>, p: nat) {
    forall j :: 0 <= j < |calls| && |Emitted(start, calls[..j])| > p ==> OnAlternate(calls[j].dump)
  }

  lemma StaysOnAlternateFront(start: Cadence, calls: seq<Call>, p: nat)
    requires calls != [] && StaysOnAlternate(start, calls, p)
    ensures StaysOnAlternate(start, calls[..|calls| - 1], p)
  {
    var front := calls[..|calls| - 1];
    forall j | 0 <= j < |front| && |Emitted(start, front[..j])| > p ensures OnAlternate(front[j].dump) {
      assert front[..j] == calls[..j];
    }
  }

  /** While on the alternate screen the counter is the number of outputs since
      the newest keyframe. */
  lemma {:induction false} CounterCountsOutputs(start: Cadence, calls: seq<Call>, p: nat)
    requires !Due(start) && NewestKeyframe(Emitted(start, calls), p) && StaysOnAlternate(start, calls, p)
    ensures Ran(start, calls).framesSince == |Emitted(start, calls)| - 1 - p
  {
    var front, last := calls[..|calls| - 1], calls[|calls| - 1];
    var before := Emitted(start, front);
    NothingBanked(start, front);
    if p < |before| {
      StaysOnAlternateFront(start, calls, p);
      assert NewestKeyframe(before, p) by {
        assert forall i :: 0 <= i < |before| ==> before[i] == Emitted(start, calls)[i];
      }
      CounterCountsOutputs(start, front, p);
      assert OnAlternate(last.dump);
      assert Emitted(start, calls)[|Emitted(start, calls)| - 1].Output? || Buffers(Ran(start, front), last) == [];
    }
  }

  /** One more send, of which only a part may have been stored. */
  lemma OneMoreSend(before: seq<Out>, more: seq<Out>, stored: seq<Out>, p: nat)
    requires |before| < |stored| && stored <= before + more && p < |before| && NewestKeyframe(stored, p)
    requires |more| <= 2 && (|more| == 2 ==> more[1].Keyframe?)
    ensures NewestKeyframe(before, p) && |stored| == |before| + 1 && more[0].Output?
  {
    assert forall i :: 0 <= i < |before| ==> before[i] == stored[i];
    assert stored[|before|] == more[0];
    assert stored[|stored| - 1] == more[|stored| - 1 - |before|];
  }

  /** In any prefix of what is emitted, at most 60 outputs follow the newest
      keyframe. */
  lemma {:induction false} AtMostSixtyFollow(start: Cadence, calls: seq<Call>, stored: seq<Out>, p: nat)
    requires !Due(start) && stored <= Emitted(start, calls)
    requires NewestKeyframe(stored, p) && StaysOnAlternate(start, calls, p)
    ensures |stored| - 1 - p <= FRAMES_PER_KEYFRAME
    decreases |calls|
  {
    var front := calls[..|calls| - 1];
    var before := Emitted(start, front);
    StaysOnAlternateFront(start, calls, p);
    if |stored| <= |before| {
      AtMostSixtyFollow(start, front, stored, p);
    } else if p < |before| {
      OneMoreSend(before, Buffers(Ran(start, front), calls[|calls| - 1]), stored, p);
      NothingBanked(start, front);
      CounterCountsOutputs(start, front, p);
    }
  }

  /** Sends of some output at an unchanged size, on the alternate screen. */
  ghost predicate Steady(c: Cadence, calls: seq<Call>) {
    forall i :: 0 <= i < |calls| ==>
      calls[i].data != [] && Resized(c, calls[i].size) == c && OnAlternate(calls[i].dump)
  }

  function Outputs(calls: seq<Call>): (outs: seq<Out>) {
    seq(|calls|, i requires 0 <= i < |calls| => Output(calls[i].data))
  }

  lemma OutputsSnoc(head: seq<Out>, calls: seq<Call>, last: Call)
    ensures head + Outputs(calls + [last]) == (head + Outputs(calls)) + [Output(last.data)]
  {
  }

  lemma QuietSend(c: Cadence, call: Call)
    requires c.framesSince < FRAMES_PER_KEYFRAME - 1 && call.data != [] && Resized(c, call.size) == c
    ensures Buffers(c, call) == [Output(call.data)] && Sent(c, call) == c.(framesSince := c.framesSince + 1)
  {
  }

  /** Steady sends that start with a keyframe: the next 59 emit output only. */
  lemma {:induction false} SteadySends(c: Cadence, calls: seq<Call>)
    requires c.framesSince == FRAMES_PER_KEYFRAME - 1 && Steady(c, calls) && 1 <= |calls| <= FRAMES_PER_KEYFRAME
    ensures Emitted(c, calls) == [Output(calls[0].data), Keyframe(Rewritten(calls[0].dump))] + Outputs(calls[1..])
    ensures Ran(c, calls) == c.(framesSince := |calls| - 1)
  {
    var front, last := calls[..|calls| - 1], calls[|calls| - 1];
    if front == [] {
      assert Emitted(c, []) == [] && Ran(c, front) == c && Outputs(calls[1..]) == [];
    } else {
      SteadySends(c, front);
      QuietSend(Ran(c, front), last);
      OutputsSnoc([Output(calls[0].data), Keyframe(Rewritten(calls[0].dump))], front[1..], last);
      assert calls[1..] == front[1..] + [last];
    }
  }

  /** The bound is exact: sixty outputs do follow a keyframe whenever sixty-one
      steady sends start with it, until the last of them brings the next one. */
  lemma SixtyDoFollow(c: Cadence, calls: seq<Call>)
    requires c.framesSince == FRAMES_PER_KEYFRAME - 1 && Steady(c, calls) && |calls| == FRAMES_PER_KEYFRAME + 1
    ensures |Emitted(c, calls)| == FRAMES_PER_KEYFRAME + 3
    ensures var stored := Emitted(c, calls)[..FRAMES_PER_KEYFRAME + 2];
            NewestKeyframe(stored, 1) && |stored| - 1 - 1 == FRAMES_PER_KEYFRAME
  {
    var front := calls[..FRAMES_PER_KEYFRAME];
    SteadySends(c, front);
    assert Buffers(Ran(c, front), calls[FRAMES_PER_KEYFRAME]) ==
           [Output(calls[FRAMES_PER_KEYFRAME].data), Keyframe(Rewritten(calls[FRAMES_PER_KEYFRAME].dump))];
  }

  // ---- The keyframe stays in the replay window ----

  /** What the server was pushed for these outputs: a batch, with what sealing adds,
      or a redraw within the server's frame cap. */
  ghost predicate Pushed(pushes: seq<Blob>, outs: seq<Out>) {
    && |pushes| == |outs|
    && forall i :: 0 <= i < |outs| ==>
         && pushes[i] != []
         && |pushes[i]| <= (if outs[i].Output? then Sender.MAX_FRAME + Records.OVERHEAD else Ingest.MAX_INGEST_FRAME)
  }

  lemma {:induction false} FollowersFit(pushes: seq<Blob>, limit: nat)
    requires forall i :: 0 <= i < |pushes| ==> |pushes[i]| <= limit
    ensures Total(pushes) <= |pushes| * limit
  {
    if pushes != [] {
      FollowersFit(pushes[1..], limit);
      assert |pushes| * limit == limit + |pushes[1..]| * limit;
    }
  }

  /** Once a keyframe is stored, the newest one is in the replayed history, and
      so is everything after it. */
  lemma NewestKeyframeIsHeld(start: Cadence, calls: seq<Call>, stored: seq<Out>, p: nat, pushes: seq<Blob>)
    requires !Due(start) && stored <= Emitted(start, calls) && Pushed(pushes, stored)
    requires NewestKeyframe(stored, p) && StaysOnAlternate(start, calls, p)
    ensures History.IsSuffix(pushes[p..], History.PushAll(pushes, Rooms.MAX_HISTORY_MESSAGES, Rooms.MAX_HISTORY_BYTES))
  {
    AtMostSixtyFollow(start, calls, stored, p);
    History.NonEmptyKeepsAll(pushes);
    var kept := pushes[p..];
    FollowersFit(kept[1..], 69_663);
    assert Total(kept) == |kept[0]| + Total(kept[1..]);
    assert |kept[1..]| * 69_663 <= 60 * 69_663;
    History.FittingSuffixIsHeld(pushes, p, Rooms.MAX_HISTORY_MESSAGES, Rooms.MAX_HISTORY_BYTES);
  }

  // ---- The class ----

  class Keyframer {
    var cols: nat
    var rows: nat
    /** The unfinished character at the end of what was fed. */
    var carry: Blob
    /** How many frames were counted since a keyframe was last looked for. */
    var framesSince: nat
    /** All text given to the emulator. */
    var fed: Blob

    /** The carry is an incomplete tail, so it holds at most 3 bytes. */
    ghost predicate Valid() reads this {
      OneShot(carry) == Text([], carry) && cols > 0 && rows > 0
    }

    function Value(): (c: Cadence) reads this { Cadence(cols, rows, framesSince) }

    constructor (size: Transport.TermSize)
      ensures Valid() && carry == [] && fed == []
      ensures Value() == Cadence(Dimension(size.cols), Dimension(size.rows), 0) && !Due(Value())
    {
      cols, rows := Dimension(size.cols), Dimension(size.rows);
      carry, framesSince, fed := [], 0, [];
    }

    /** Feed one frame: the text is that of one pass over everything fed. */
    method Feed(data: Blob, size: Transport.TermSize)
      requires Valid()
      modifies this
      ensures Valid() && |carry| <= 3
      ensures Value() == Counted(Resized(old(Value()), size), data)
      ensures Text(fed, carry) == Before(old(fed), OneShot(old(carry) + data))
    {
      ApplyResize(size);
      assert fed + [] == fed;
      if data == [] {
        assert carry + data == carry;
        return;
      }
      FeedBytes(data);
      RestDecodesToNothing(old(carry) + data);
      if framesSince < U32_MAX {
        framesSince := framesSince + 1;
      }
    }

    /** Ask for a keyframe. When one is due the count restarts whether or not the
        dump is one of an alternate screen, and only such a dump yields one. */
    method MaybeKeyframe(dump: Blob) returns (keyframe: Option<Blob>)
      modifies this`framesSince
      ensures keyframe == KeyframeOf(old(Value()), dump) && Value() == Checked(old(Value()))
      ensures !Due(Value())
      ensures keyframe.Some? <==> old(framesSince) >= 60 && Contains(dump, ENTER) && !Contains(dump, LEAVE)
      ensures keyframe.Some? ==> keyframe.value != [] && !Contains(keyframe.value, CSI)
    {
      if framesSince < FRAMES_PER_KEYFRAME {
        return None;
      }
      framesSince := 0;
      if !Contains(dump, ENTER) || Contains(dump, LEAVE) {
        return None;
      }
      RewrittenIsSevenBit(dump);
      assert dump != [];
      return Some(Rewritten(dump));
    }

    method ApplyResize(size: Transport.TermSize)
      modifies this`cols, this`rows, this`framesSince
      ensures Value() == Resized(old(Value()), size) && cols > 0 && rows > 0
      ensures cols == Dimension(size.cols) && rows == Dimension(size.rows)
      ensures framesSince == if cols != old(cols) || rows != old(rows) then 60 else old(framesSince)
    {
      var newCols, newRows := Dimension(size.cols), Dimension(size.rows);
      if newCols != cols || newRows != rows {
        cols, rows := newCols, newRows;
        framesSince := FRAMES_PER_KEYFRAME;
      }
    }

    /** Validate from `from`: feed the valid part, and move past the fault. */
    method FeedValid(buf: Blob, from: nat) returns (next: nat, done: bool)
      requires from <= |buf|
      modifies this`fed
      ensures from <= next <= |buf| && (!done ==> from < next)
      ensures Before(old(fed), OneShot(buf[from..])) ==
              if done then Text(fed, buf[next..]) else Before(fed, OneShot(buf[next..]))
    {
      var rest := buf[from..];
      var v := FromUtf8(rest);
      ValidationMeaning(rest);
      ghost var was := fed;
      if v.Good? {
        if rest != [] {
          fed := fed + rest;
        }
        next, done := |buf|, true;
        assert fed == was + rest;
      } else {
        var valid := v.validUpTo;
        if valid > 0 {
          fed := fed + rest[..valid];
        }
        assert fed == was + rest[..valid];
        next, done := from + valid, v.errorLen.None?;
        if !done {
          next := next + v.errorLen.value;
        }
        ResumeAt(was, buf, from, v, next);
      }
    }

    /** The loop ends on every input, and an over-long carry is never dropped:
        what is carried is exactly the incomplete tail. */
    method FeedBytes(data: Blob)
      modifies this`carry, this`fed
      ensures Text(fed, carry) == Before(old(fed), OneShot(old(carry) + data))
    {
      ghost var was := fed;
      var buf := carry + data;
      var from, done := 0, false;
      assert buf[0..] == buf;
      while !done
        invariant 0 <= from <= |buf|
        invariant Before(was, OneShot(buf)) ==
                  if done then Text(fed, buf[from..]) else Before(fed, OneShot(buf[from..]))
        decreases !done, |buf| - from
      {
        from, done := FeedValid(buf, from);
      }
      carry := if |buf[from..]| > MAX_CARRY then [] else buf[from..];
    }
  }
}
