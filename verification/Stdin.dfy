/** Stream mode: line endings, the relay loop, and termination signals
    (src/cli/mod.rs).

    `Converted` looks at whole input at once and carries nothing; the code sees
    one chunk at a time and carries one bit. */
module Stdin {
  import opened Prelude

  const LF: Byte := 10
  const CR: Byte := 13

  predicate EndsWithCr(s: Blob) { s != [] && s[|s| - 1] == CR }

  /** The last byte of `s`, with the CR it lacks when it is a bare LF. */
  function LastPiece(s: Blob): (piece: Blob)
    requires s != []
  {
    if s[|s| - 1] == LF && !EndsWithCr(s[..|s| - 1]) then [CR, LF] else [s[|s| - 1]]
  }

  function Converted(s: Blob): (out: Blob) {
    if s == [] then [] else Converted(s[..|s| - 1]) + LastPiece(s)
  }

  lemma ConvertedSnoc(s: Blob, b: Byte)
    ensures Converted(s + [b]) == Converted(s) + if b == LF && !EndsWithCr(s) then [CR, LF] else [b]
    ensures EndsWithCr(s + [b]) == (b == CR)
  {
    assert (s + [b])[..|s|] == s;
  }

  /** The line feed at `i` does not follow a CR. */
  predicate BareLf(s: Blob, i: nat) {
    i < |s| && s[i] == LF && (i == 0 || s[i - 1] != CR)
  }

  ghost predicate EveryLfFollowsCr(s: Blob) {
    forall i: nat :: !BareLf(s, i)
  }

  /** No line feed of the result is bare, so no viewer sees a staircase. */
  lemma {:induction false} NoBareLf(s: Blob)
    ensures EveryLfFollowsCr(Converted(s))
    ensures EndsWithCr(Converted(s)) == EndsWithCr(s)
  {
    if s != [] {
      var done := Converted(s[..|s| - 1]);
      NoBareLf(s[..|s| - 1]);
      forall i: nat ensures !BareLf(Converted(s), i) {
        assert i < |done| ==> BareLf(Converted(s), i) == BareLf(done, i);
      }
    }
  }

  /** What needs no conversion is left alone. */
  lemma {:induction false} AlreadyConverted(s: Blob)
    requires EveryLfFollowsCr(s)
    ensures Converted(s) == s
  {
    if s != [] {
      var front, last := s[..|s| - 1], s[|s| - 1];
      FrontFollowsToo(s);
      AlreadyConverted(front);
      assert s == front + [last] && !BareLf(s, |s| - 1);
      ConvertedSnoc(front, last);
    }
  }

  lemma FrontFollowsToo(s: Blob)
    requires s != [] && EveryLfFollowsCr(s)
    ensures EveryLfFollowsCr(s[..|s| - 1])
  {
    var front := s[..|s| - 1];
    forall i: nat ensures !BareLf(front, i) {
      assert i < |front| ==> BareLf(s, i) == BareLf(front, i);
    }
  }

  lemma ConvertingAgainChangesNothing(s: Blob)
    ensures Converted(Converted(s)) == Converted(s)
  {
    NoBareLf(s);
    AlreadyConverted(Converted(s));
  }

  /** `s` with the CR of each CRLF removed. */
  function WithoutCrlf(s: Blob): (lines: Blob) {
    if s == [] then []
    else
      var front, last := s[..|s| - 1], s[|s| - 1];
      if last == LF && EndsWithCr(front) then WithoutCrlf(front[..|front| - 1]) + [LF]
      else WithoutCrlf(front) + [last]
  }

  lemma WithoutCrlfSnoc(s: Blob, b: Byte)
    ensures WithoutCrlf(s + [b]) ==
            if b == LF && EndsWithCr(s) then WithoutCrlf(s[..|s| - 1]) + [LF] else WithoutCrlf(s) + [b]
  {
    assert (s + [b])[..|s|] == s;
  }

  lemma CrlfIsOneEnding(s: Blob)
    ensures WithoutCrlf(s + [CR, LF]) == WithoutCrlf(s) + [LF]
  {
    WithoutCrlfSnoc(s + [CR], LF);
    assert (s + [CR])[..|s|] == s;
    assert s + [CR, LF] == (s + [CR]) + [LF];
  }

  /** Only line endings change: both sides have the same text between them. */
  lemma {:induction false} OnlyLineEndingsChange(s: Blob)
    ensures WithoutCrlf(Converted(s)) == WithoutCrlf(s)
    decreases |s|
  {
    if s != [] {
      var front, last := s[..|s| - 1], s[|s| - 1];
      OnlyLineEndingsChange(front);
      NoBareLf(front);
      var done := Converted(front);
      if last == LF && !EndsWithCr(front) {
        CrlfIsOneEnding(done);
      } else {
        WithoutCrlfSnoc(done, last);
        if last == LF {
          var earlier := front[..|front| - 1];
          assert done == Converted(earlier) + [CR];
          OnlyLineEndingsChange(earlier);
        }
      }
    }
  }

  /** `out` is what `part` becomes behind `before`; `cr` is all that is carried. */
  ghost predicate Translated(before: Blob, part: Blob, out: Blob, cr: bool) {
    && Converted(before + part) == Converted(before) + out
    && cr == EndsWithCr(before + part)
  }

  lemma TranslatedSnoc(before: Blob, part: Blob, out: Blob, cr: bool, b: Byte)
    requires Translated(before, part, out, cr)
    ensures Translated(before, part + [b], out + (if b == LF && !cr then [CR, LF] else [b]), b == CR)
  {
    ConvertedSnoc(before + part, b);
    assert before + (part + [b]) == (before + part) + [b];
  }

  lemma TranslatedNext(before: Blob, input: Blob, i: nat, out: Blob, cr: bool)
    requires i < |input| && Translated(before, input[..i], out, cr)
    ensures var b := input[i];
            Translated(before, input[..i + 1], (if b == LF && !cr then out + [CR] else out) + [b], b == CR)
  {
    TranslatedSnoc(before, input[..i], out, cr, input[i]);
    assert input[..i + 1] == input[..i] + [input[i]];
    assert out + [CR, LF] == (out + [CR]) + [LF];
  }

  /** Translate one chunk. `before` is everything translated so far; the code
      remembers only whether it ended in a CR. */
  method LfToCrlf(input: Blob, prevWasCr: bool, ghost before: Blob) returns (out: Blob, nowWasCr: bool)
    requires prevWasCr == EndsWithCr(before)
    ensures Converted(before + input) == Converted(before) + out
    ensures nowWasCr == EndsWithCr(before + input)
  {
    out, nowWasCr := [], prevWasCr;
    assert before + input[..0] == before;
    for i := 0 to |input|
      invariant Translated(before, input[..i], out, nowWasCr)
    {
      TranslatedNext(before, input, i, out, nowWasCr);
      if input[i] == LF && !nowWasCr {
        out := out + [CR];
      }
      out := out + [input[i]];
      nowWasCr := input[i] == CR;
    }
    assert input[..|input|] == input;
  }

  // ---- The relay loop ----

  datatype Wake = Chunk(bytes: Blob) | Idle | Eof

  /** One turn of the loop: whether an early exit was forced, what the wait for
      input gave, and whether the transport then reported the room lost. */
  datatype Turn = Turn(forced: bool, wake: Wake, refused: bool)

  datatype Ending = AtEof | Forced | Refused | Running

  function Chunks(turns: seq<Turn>): (chunks: seq<Blob>) {
    if turns == [] then []
    else
      var front, last := Chunks(turns[..|turns| - 1]), turns[|turns| - 1];
      if last.wake.Chunk? then front + [last.wake.bytes] else front
  }

  /** The loop goes past this turn. */
  predicate Continues(t: Turn) { !t.forced && !t.wake.Eof? && !t.refused }

  /** Everything read in these turns has been given to the transport, converted
      as one piece, one send for each chunk read. */
  ghost predicate Relayed(sent: seq<Blob>, turns: seq<Turn>) {
    && |sent| == |Chunks(turns)|
    && Concat(sent) == Converted(Concat(Chunks(turns)))
  }

  lemma RelayedOneMore(sent: seq<Blob>, turns: seq<Turn>, t: Turn, out: Blob)
    requires Relayed(sent, turns)
    requires t.wake.Chunk? ==>
               Converted(Concat(Chunks(turns)) + t.wake.bytes) == Converted(Concat(Chunks(turns))) + out
    ensures t.wake.Chunk? ==> Relayed(sent + [out], turns + [t])
    ensures t.wake.Chunk? ==> Concat(Chunks(turns + [t])) == Concat(Chunks(turns)) + t.wake.bytes
    ensures !t.wake.Chunk? ==> Chunks(turns + [t]) == Chunks(turns)
  {
    assert (turns + [t])[..|turns|] == turns;
    if t.wake.Chunk? {
      ConcatSnoc(sent, out);
      ConcatSnoc(Chunks(turns), t.wake.bytes);
    }
  }

  /** How the loop ends at turn `stop`. */
  function EndingAt(turns: seq<Turn>, stop: nat): (e: Ending)
    requires stop <= |turns|
  {
    if stop == |turns| then Running
    else if turns[stop].forced then Forced
    else if turns[stop].wake.Eof? then AtEof
    else Refused
  }

  /** Relay until the end of input, a forced exit or a lost room; `stop` is the
      turn that ended the loop. Whatever the chunking and however many idle
      ticks, the bytes given to the transport are the one-shot conversion of all
      the bytes read; only a lost room skips the closing flush. */
  method StreamStdin(turns: seq<Turn>)
    returns (sent: seq<Blob>, ticks: nat, stop: nat, ending: Ending, shutdown: bool)
    ensures stop <= |turns| && forall i :: 0 <= i < stop ==> Continues(turns[i])
    ensures stop < |turns| ==> !Continues(turns[stop])
    ensures ending == EndingAt(turns, stop)
    ensures var seen := turns[..if ending == Refused then stop + 1 else stop];
            Relayed(sent, seen) && |sent| + ticks == |seen|
    ensures shutdown <==> ending == AtEof || ending == Forced
  {
    sent, ticks, stop, ending, shutdown := [], 0, 0, Running, false;
    var prevWasCr := false;
    assert turns[..0] == [];
    while stop < |turns|
      invariant stop <= |turns| && forall i :: 0 <= i < stop ==> Continues(turns[i])
      invariant Relayed(sent, turns[..stop]) && |sent| + ticks == stop
      invariant prevWasCr == EndsWithCr(Concat(Chunks(turns[..stop])))
    {
      var turn := turns[stop];
      if turn.forced {
        return sent, ticks, stop, Forced, true;
      }
      if turn.wake.Eof? {
        return sent, ticks, stop, AtEof, true;
      }
      var more, nowWasCr, tick := Relay(turn, prevWasCr, turns[..stop], sent);
      assert turns[..stop + 1] == turns[..stop] + [turn];
      sent, prevWasCr := sent + more, nowWasCr;
      ticks := ticks + tick;
      if turn.refused {
        return sent, ticks, stop, Refused, false;
      }
      stop := stop + 1;
    }
  }

  /** Send what was read, or tick; `before` are the turns already taken. */
  method Relay(turn: Turn, prevWasCr: bool, ghost before: seq<Turn>, ghost sent: seq<Blob>)
    returns (more: seq<Blob>, nowWasCr: bool, tick: nat)
    requires Relayed(sent, before) && prevWasCr == EndsWithCr(Concat(Chunks(before)))
    requires !turn.wake.Eof?
    ensures Relayed(sent + more, before + [turn])
    ensures nowWasCr == EndsWithCr(Concat(Chunks(before + [turn])))
    ensures |more| + tick == 1
  {
    match turn.wake {
      case Chunk(bytes) =>
        var broadcast;
        broadcast, nowWasCr := LfToCrlf(bytes, prevWasCr, Concat(Chunks(before)));
        RelayedOneMore(sent, before, turn, broadcast);
        more, tick := [broadcast], 0;
      case Idle =>
        RelayedOneMore(sent, before, turn, []);
        assert sent + [] == sent;
        more, nowWasCr, tick := [], prevWasCr, 1;
    }
  }

  // ---- Signals ----

  datatype Signal = Interrupt | Terminate | HangUp

  class Signals {
    var running: bool
    var forced: bool
    /** Every signal delivered so far. */
    ghost var delivered: seq<Signal>

    constructor ()
      ensures running && !forced && delivered == []
    {
      running, forced, delivered := true, false, [];
    }

    ghost predicate Valid() reads this { running <==> delivered == [] }

    /** A first Ctrl+C only starts the drain; a second one, or any other signal,
        forces the exit. */
    ghost predicate Unix() reads this {
      && Valid()
      && (forced <==> |delivered| >= 2 || exists i :: 0 <= i < |delivered| && delivered[i] != Interrupt)
    }

    /** Every delivery is a Ctrl+C, and the second forces the exit. */
    ghost predicate Console() reads this { Valid() && (forced <==> |delivered| >= 2) }

    method OnSignal(signal: Signal)
      requires Unix()
      modifies this
      ensures Unix() && delivered == old(delivered) + [signal]
    {
      var alreadyStopping := !running;
      running := false;
      if alreadyStopping || signal != Interrupt {
        forced := true;
      }
      assert (delivered + [signal])[|delivered|] == signal;
      assert forall i :: 0 <= i < |delivered| ==> (delivered + [signal])[i] == delivered[i];
      delivered := delivered + [signal];
    }

    method OnCtrlC()
      requires Console()
      modifies this
      ensures Console() && delivered == old(delivered) + [Interrupt]
    {
      var wasRunning := running;
      running := false;
      if !wasRunning {
        forced := true;
      }
      delivered := delivered + [Interrupt];
    }
  }
}
