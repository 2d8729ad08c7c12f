/** UTF-8 decoding with a carry (`Keyframer::feed_bytes` in src/cli/screen.rs).

    `Classify` is how the standard library's validator judges the bytes at hand.
    It is proved against the grammar of section 4 of RFC 3629: a whole character
    is recognised as one, a tail that some bytes could still complete is
    incomplete, and otherwise the longest part that could have started a
    character is skipped. */
module Utf8 {
  import opened Prelude

  // ---- The grammar ----

  predicate In(b: Byte, lo: Byte, hi: Byte) { lo <= b <= hi }

  predicate Tail(b: Byte) { In(b, 0x80, 0xBF) }

  predicate IsChar(s: Blob) {
    || (|s| == 1 && s[0] <= 0x7F)
    || (|s| == 2 && In(s[0], 0xC2, 0xDF) && Tail(s[1]))
    || (|s| == 3 && Tail(s[2]) &&
         (|| (s[0] == 0xE0 && In(s[1], 0xA0, 0xBF))
          || (In(s[0], 0xE1, 0xEC) && Tail(s[1]))
          || (s[0] == 0xED && In(s[1], 0x80, 0x9F))
          || (In(s[0], 0xEE, 0xEF) && Tail(s[1]))))
    || (|s| == 4 && Tail(s[2]) && Tail(s[3]) &&
         (|| (s[0] == 0xF0 && In(s[1], 0x90, 0xBF))
          || (In(s[0], 0xF1, 0xF3) && Tail(s[1]))
          || (s[0] == 0xF4 && In(s[1], 0x80, 0x8F))))
  }

  /** Some further bytes would complete `s` to a character. */
  ghost predicate Unfinished(s: Blob) {
    exists t: Blob :: t != [] && IsChar(s + t)
  }

  // ---- The validator ----

  datatype Class = Valid(n: nat) | Invalid(n: nat) | Incomplete

  /** The length a first byte announces; 0 when no character starts with it. */
  function Width(b: Byte): (w: nat) {
    if b <= 0x7F then 1
    else if In(b, 0xC2, 0xDF) then 2
    else if In(b, 0xE0, 0xEF) then 3
    else if In(b, 0xF0, 0xF4) then 4
    else 0
  }

  predicate SecondOk(first: Byte, second: Byte) {
    if first == 0xE0 then In(second, 0xA0, 0xBF)
    else if first == 0xED then In(second, 0x80, 0x9F)
    else if first == 0xF0 then In(second, 0x90, 0xBF)
    else if first == 0xF4 then In(second, 0x80, 0x8F)
    else Tail(second)
  }

  function Classify(s: Blob): (c: Class)
    requires s != []
    ensures c.Valid? ==> 1 <= c.n <= |s| && c.n <= 4
    ensures c.Invalid? ==> 1 <= c.n <= |s| && c.n <= 3
    ensures c.Incomplete? ==> |s| <= 3
  {
    var w := Width(s[0]);
    if w == 0 then Invalid(1)
    else if w == 1 then Valid(1)
    else if |s| < 2 then Incomplete
    else if !SecondOk(s[0], s[1]) then Invalid(1)
    else if w == 2 then Valid(2)
    else if |s| < 3 then Incomplete
    else if !Tail(s[2]) then Invalid(2)
    else if w == 3 then Valid(3)
    else if |s| < 4 then Incomplete
    else if !Tail(s[3]) then Invalid(3)
    else Valid(4)
  }

  /** A character is recognised exactly when the grammar has one here. */
  lemma ValidIsChar(s: Blob, n: nat)
    requires s != [] && n <= |s|
    ensures IsChar(s[..n]) <==> Classify(s) == Valid(n)
  {
  }

  /** The bytes that complete a prefix the validator has not ruled out. */
  function Completion(s: Blob): (t: Blob)
    requires s != []
  {
    var second: Byte := if s[0] == 0xE0 then 0xA0 else if s[0] == 0xF0 then 0x90 else 0x80;
    var w := Width(s[0]);
    if w == 2 then [0x80]
    else if w == 3 then (if |s| == 1 then [second, 0x80] else [0x80])
    else (if |s| == 1 then [second, 0x80, 0x80] else if |s| == 2 then [0x80, 0x80] else [0x80])
  }

  lemma CompletionCompletes(s: Blob)
    requires s != [] && Classify(s).Incomplete?
    ensures IsChar(s + Completion(s))
  {
    var t := Completion(s);
    assert (s + t)[0] == s[0];
    assert forall k :: 0 <= k < |t| ==> (s + t)[|s| + k] == t[k];
    if |s| > 1 { assert (s + t)[1] == s[1]; }
    if |s| > 2 { assert (s + t)[2] == s[2]; }
  }

  /** Incomplete means exactly that some bytes could complete it. */
  lemma IncompleteIsUnfinished(s: Blob)
    requires s != []
    ensures Classify(s).Incomplete? <==> Unfinished(s)
  {
    if Classify(s).Incomplete? {
      CompletionCompletes(s);
      assert Completion(s) != [];
    }
    if Unfinished(s) {
      var t: Blob :| t != [] && IsChar(s + t);
      assert forall k :: 0 <= k < |s| ==> (s + t)[k] == s[k];
    }
  }

  /** What is skipped is the longest part that could have started a character, or
      one byte that could not. */
  lemma InvalidIsMaximal(s: Blob)
    requires s != [] && Classify(s).Invalid?
    ensures var n := Classify(s).n;
            && (n == 1 || Unfinished(s[..n]))
            && (n < |s| ==> !Unfinished(s[..n + 1]))
            && (forall m :: 0 <= m <= |s| ==> !IsChar(s[..m]))
  {
    var n := Classify(s).n;
    IncompleteIsUnfinished(s[..n]);
    if n < |s| {
      IncompleteIsUnfinished(s[..n + 1]);
    }
    forall m | 0 <= m <= |s| ensures !IsChar(s[..m]) {
      ValidIsChar(s, m);
    }
  }

  /** A verdict other than incomplete does not depend on what follows. */
  lemma ClassifyStable(s: Blob, t: Blob)
    requires s != [] && !Classify(s).Incomplete?
    ensures Classify(s + t) == Classify(s)
  {
  }

  // ---- One-shot decoding ----

  /** The valid text of some bytes, invalid sequences skipped, and the incomplete
      tail. */
  datatype Text = Text(fed: Blob, rest: Blob)

  function OneShot(s: Blob): (t: Text)
    ensures |t.rest| <= 3
    decreases |s|
  {
    if s == [] then Text([], [])
    else
      match Classify(s)
      case Valid(n) => var more := OneShot(s[n..]); Text(s[..n] + more.fed, more.rest)
      case Invalid(n) => OneShot(s[n..])
      case Incomplete => Text([], s)
  }

  /** The bytes one step of decoding moves past, and those of them it keeps. */
  lemma OneStep(s: Blob) returns (n: nat, kept: nat)
    requires s != [] && !Classify(s).Incomplete?
    ensures kept <= n <= |s| && 0 < n
    ensures OneShot(s) == Before(s[..kept], OneShot(s[n..]))
    ensures forall t: Blob :: OneShot(s + t) == Before(s[..kept], OneShot(s[n..] + t))
  {
    n := Classify(s).n;
    kept := if Classify(s).Valid? then n else 0;
    StepStable(s, n, kept, []);
    assert s + [] == s && s[n..] + [] == s[n..];
    forall t: Blob ensures OneShot(s + t) == Before(s[..kept], OneShot(s[n..] + t)) {
      StepStable(s, n, kept, t);
    }
  }

  lemma StepStable(s: Blob, n: nat, kept: nat, t: Blob)
    requires s != [] && !Classify(s).Incomplete? && n == Classify(s).n
    requires kept == if Classify(s).Valid? then n else 0
    ensures OneShot(s + t) == Before(s[..kept], OneShot(s[n..] + t))
  {
    ClassifyStable(s, t);
    assert (s + t)[n..] == s[n..] + t && (s + t)[..kept] == s[..kept];
    assert [] + OneShot(s[n..] + t).fed == OneShot(s[n..] + t).fed;
  }

  /** Decoding what was left over together with more bytes goes on seamlessly. */
  lemma {:induction false} OneShotResumes(a: Blob, b: Blob)
    ensures OneShot(a + b) == Before(OneShot(a).fed, OneShot(OneShot(a).rest + b))
    decreases |a|
  {
    if a == [] || Classify(a).Incomplete? {
      assert [] + b == b;
      assert [] + OneShot(a + b).fed == OneShot(a + b).fed;
    } else {
      var n, kept := OneStep(a);
      OneShotResumes(a[n..], b);
      BeforeBefore(a[..kept], OneShot(a[n..]).fed, OneShot(OneShot(a[n..]).rest + b));
    }
  }

  /** Feeding frames one at a time, carrying the incomplete tail. */
  function Fed(frames: seq<Blob>): (t: Text) {
    if frames == [] then Text([], [])
    else
      var before := Fed(frames[..|frames| - 1]);
      var next := OneShot(before.rest + frames[|frames| - 1]);
      Text(before.fed + next.fed, next.rest)
  }

  /** The text fed to the emulator does not depend on how the stream is split. */
  lemma {:induction false} SplitsDoNotMatter(frames: seq<Blob>)
    ensures Fed(frames) == OneShot(Concat(frames))
    decreases |frames|
  {
    if frames != [] {
      var front, last := frames[..|frames| - 1], frames[|frames| - 1];
      SplitsDoNotMatter(front);
      assert frames == front + [last];
      ConcatSnoc(front, last);
      OneShotResumes(Concat(front), last);
    }
  }

  // ---- The loop ----

  /** The result of validating a string: where it stops being valid, and by how
      many bytes the fault runs (`None` for an incomplete tail). */
  datatype Validation = Good | Bad(validUpTo: nat, errorLen: Option<nat>)

  predicate Within(s: Blob, v: Validation) {
    v.Bad? ==>
      && v.validUpTo <= |s|
      && (v.errorLen.Some? ==> 1 <= v.errorLen.value && v.validUpTo + v.errorLen.value <= |s|)
  }

  function FromUtf8(s: Blob): (v: Validation)
    ensures Within(s, v)
    decreases |s|
  {
    if s == [] then Good
    else
      match Classify(s)
      case Invalid(n) => Bad(0, Some(n))
      case Incomplete => Bad(0, None)
      case Valid(n) =>
        match FromUtf8(s[n..])
        case Good => Good
        case Bad(validUpTo, errorLen) => Bad(n + validUpTo, errorLen)
  }

  /** What one validation says about the decoded text; `more` is the text of the
      bytes behind the fault, if there is one. */
  function After(s: Blob, v: Validation, more: Text): (t: Text)
    requires Within(s, v)
  {
    match v
    case Good => Text(s, [])
    case Bad(valid, None) => Text(s[..valid], s[valid..])
    case Bad(valid, Some(n)) => Before(s[..valid], more)
  }

  /** Where decoding goes on after a validation. */
  function Behind(s: Blob, v: Validation): (rest: Blob)
    requires Within(s, v)
  {
    match v
    case Good => []
    case Bad(valid, None) => []
    case Bad(valid, Some(n)) => s[valid + n..]
  }

  function Before(s: Blob, t: Text): (u: Text) { Text(s + t.fed, t.rest) }

  function Shifted(n: nat, v: Validation): (w: Validation) {
    match v
    case Good => Good
    case Bad(valid, errorLen) => Bad(n + valid, errorLen)
  }

  lemma BeforeBefore(a: Blob, b: Blob, t: Text)
    ensures Before(a, Before(b, t)) == Before(a + b, t)
  {
    assert (a + b) + t.fed == a + (b + t.fed);
  }

  lemma AfterShifted(s: Blob, n: nat, v: Validation, more: Text)
    requires n <= |s| && Within(s[n..], v)
    ensures Within(s, Shifted(n, v)) && Behind(s, Shifted(n, v)) == Behind(s[n..], v)
    ensures After(s, Shifted(n, v), more) == Before(s[..n], After(s[n..], v, more))
  {
    if v.Good? {
      assert s == s[..n] + s[n..];
    } else {
      var valid := v.validUpTo;
      assert s[..n + valid] == s[..n] + s[n..][..valid];
      assert s[n..][valid..] == s[n + valid..];
      BeforeBefore(s[..n], s[n..][..valid], more);
    }
  }

  lemma ValidStep(s: Blob)
    requires s != [] && Classify(s).Valid?
    ensures var n := Classify(s).n;
            && OneShot(s) == Before(s[..n], OneShot(s[n..]))
            && FromUtf8(s) == Shifted(n, FromUtf8(s[n..]))
  {
  }

  lemma FaultStep(s: Blob)
    requires s == [] || !Classify(s).Valid?
    ensures OneShot(s) == After(s, FromUtf8(s), OneShot(Behind(s, FromUtf8(s))))
  {
    if s != [] && Classify(s).Invalid? {
      var n := Classify(s).n;
      assert FromUtf8(s) == Bad(0, Some(n)) && s[0 + n..] == s[n..];
      assert s[..0] + OneShot(s[n..]).fed == OneShot(s[n..]).fed;
    }
  }

  /** Decoding goes on after a fault exactly as one pass would. */
  lemma {:induction false} ValidationMeaning(s: Blob)
    ensures OneShot(s) == After(s, FromUtf8(s), OneShot(Behind(s, FromUtf8(s))))
    decreases |s|
  {
    if s == [] || !Classify(s).Valid? {
      FaultStep(s);
    } else {
      var n := Classify(s).n;
      var rest := s[n..];
      ValidationMeaning(rest);
      ValidStep(s);
      AfterShifted(s, n, FromUtf8(rest), OneShot(Behind(rest, FromUtf8(rest))));
    }
  }

  /** A validation from `from` on: what is fed, and where it goes on. */
  lemma ResumeAt(was: Blob, buf: Blob, from: nat, v: Validation, next: nat)
    requires from <= |buf| && v.Bad? && Within(buf[from..], v)
    requires next == from + v.validUpTo + (if v.errorLen.None? then 0 else v.errorLen.value)
    ensures var fed, rest := was + buf[from..][..v.validUpTo], buf[from..];
            Before(was, After(rest, v, OneShot(Behind(rest, v)))) ==
            if v.errorLen.None? then Text(fed, buf[next..]) else Before(fed, OneShot(buf[next..]))
  {
    var rest := buf[from..];
    assert rest[next - from..] == buf[next..];
    if v.errorLen.Some? {
      BeforeBefore(was, rest[..v.validUpTo], OneShot(buf[next..]));
    }
  }

  /** A carried tail decodes to nothing more until bytes follow it. */
  lemma {:induction false} RestDecodesToNothing(s: Blob)
    ensures OneShot(OneShot(s).rest) == Text([], OneShot(s).rest)
    decreases |s|
  {
    if s != [] && !Classify(s).Incomplete? {
      RestDecodesToNothing(s[Classify(s).n..]);
    }
  }
}
