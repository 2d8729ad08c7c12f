/** What the viewer page shows (public/javascript/room.js).

    Decryption is asynchronous. Each chain of promises finishes its messages in
    order, but chains left behind by a clear go on finishing too, in any order
    against the current one and against everything else the page does. */
module Page {
  import opened Prelude
  import Records

  /** What the link's fragment gave: no key, a usable one (its import may still
      fail), or a broken one. */
  datatype Mode = Keyless | Keyed(key: Blob, imports: bool) | BrokenKey

  datatype Job = Job(epoch: nat, bytes: Blob)

  /** What the terminal was told: some bytes, or the reset of a clear. */
  datatype Write = Text(bytes: Blob) | Ris

  datatype View = View(
    term: Option<seq<Write>>,
    pendingWrites: seq<Blob>,
    decryptEpoch: nat,
    chains: seq<seq<Job>>,
    encryptedWithoutKey: bool,
    joinedBefore: bool)

  datatype Event =
    | Opened
    | Message(bytes: Blob)
    | SizeControl(encrypted: bool)
    | ResetControl
    | TerminalReady
    | Finished(chain: nat)

  /** The chunks one message decrypts to; none when its framing is rejected. */
  function Decrypted(c: Records.Cipher, mode: Mode, bytes: Blob): (chunks: seq<Blob>) {
    if mode.Keyed? && mode.imports then Records.Shown(c, mode.key, bytes) else []
  }

  /** The plaintext one message stands for. */
  function Plain(c: Records.Cipher, mode: Mode, bytes: Blob): (text: Blob) {
    if mode.Keyless? then bytes else Concat(Decrypted(c, mode, bytes))
  }

  function PlainAll(c: Records.Cipher, mode: Mode, messages: seq<Blob>): (text: Blob) {
    if messages == [] then []
    else
      var n := |messages| - 1;
      PlainAll(c, mode, messages[..n]) + Plain(c, mode, messages[n])
  }

  /** What the terminal shows since it was last reset. */
  function SinceRis(writes: seq<Write>): (text: Blob) {
    if writes == [] || writes[|writes| - 1].Ris? then []
    else SinceRis(writes[..|writes| - 1]) + writes[|writes| - 1].bytes
  }

  /** Shown, or waiting for the terminal to exist. */
  function Visible(v: View): (text: Blob) {
    (if v.term.Some? then SinceRis(v.term.value) else []) + Concat(v.pendingWrites)
  }

  // ---- Steps ----

  function Texts(chunks: seq<Blob>): (writes: seq<Write>) {
    seq(|chunks|, i requires 0 <= i < |chunks| => Text(chunks[i]))
  }

  function Written(v: View, chunks: seq<Blob>): (after: View) {
    if v.term.Some? then v.(term := Some(v.term.value + Texts(chunks)))
    else v.(pendingWrites := v.pendingWrites + chunks)
  }

  function Cleared(v: View): (after: View) {
    v.(decryptEpoch := v.decryptEpoch + 1,
       chains := v.chains + [[]],
       pendingWrites := [],
       term := if v.term.Some? then Some(v.term.value + [Ris]) else None)
  }

  function Received(v: View, mode: Mode, bytes: Blob): (after: View)
    requires |v.chains| == v.decryptEpoch + 1
  {
    if bytes == [] then v
    else if mode.Keyed? then
      v.(chains := v.chains[v.decryptEpoch := v.chains[v.decryptEpoch] + [Job(v.decryptEpoch, bytes)]])
    else if mode.BrokenKey? || v.encryptedWithoutKey then v
    else Written(v, [bytes])
  }

  /** The oldest job of a chain finishes; only the current epoch is written. */
  function Resolved(c: Records.Cipher, v: View, mode: Mode, chain: nat): (after: View)
    requires chain < |v.chains| && v.chains[chain] != []
  {
    var job := v.chains[chain][0];
    var w := Popped(v, chain);
    if job.epoch == v.decryptEpoch then Written(w, Decrypted(c, mode, job.bytes)) else w
  }

  predicate Enabled(v: View, e: Event) {
    match e
    case TerminalReady => v.term.None?
    case Finished(chain) => chain < |v.chains| && v.chains[chain] != []
    case Message(_) => |v.chains| == v.decryptEpoch + 1
    case Opened => true
    case SizeControl(_) => true
    case ResetControl => true
  }

  function Next(c: Records.Cipher, v: View, mode: Mode, e: Event): (after: View)
    requires Enabled(v, e)
  {
    match e
    case Opened => (if v.joinedBefore then Cleared(v) else v).(joinedBefore := true)
    case Message(bytes) => Received(v, mode, bytes)
    case SizeControl(encrypted) => if encrypted && mode.Keyless? then v.(encryptedWithoutKey := true) else v
    case ResetControl => Cleared(v)
    case TerminalReady => v.(term := Some(Texts(v.pendingWrites)), pendingWrites := [])
    case Finished(chain) => Resolved(c, v, mode, chain)
  }

  function Blank(): (v: View) { View(None, [], 0, [[]], false, false) }

  ghost predicate Run(c: Records.Cipher, mode: Mode, events: seq<Event>, views: seq<View>) {
    && |views| == |events| + 1 && views[0] == Blank()
    && forall i :: 0 <= i < |events| ==>
         Enabled(views[i], events[i]) && views[i + 1] == Next(c, views[i], mode, events[i])
  }

  /** The non-empty messages received since the screen was last cleared: by a
      reset, or by a connection opening that is not the first. */
  function SinceClear(events: seq<Event>): (messages: seq<Blob>) {
    if events == [] then []
    else
      var front, last := events[..|events| - 1], events[|events| - 1];
      if last.ResetControl? || (last.Opened? && Opened in front) then []
      else if last.Message? && last.bytes != [] then SinceClear(front) + [last.bytes]
      else SinceClear(front)
  }

  // ---- The invariant ----

  /** Every job in a chain carries that chain's epoch; the current one is last. */
  predicate ChainsKeepEpochs(v: View) {
    && |v.chains| == v.decryptEpoch + 1
    && forall i, j :: 0 <= i < |v.chains| && 0 <= j < |v.chains[i]| ==> v.chains[i][j].epoch == i
  }

  /** The current chain holds exactly the messages not yet counted in `k`. */
  predicate InFlight(v: View, mode: Mode, since: seq<Blob>, k: nat)
    requires ChainsKeepEpochs(v) && k <= |since|
  {
    if mode.Keyed? then
      && |v.chains[v.decryptEpoch]| == |since| - k
      && forall j :: 0 <= j < |since| - k ==> v.chains[v.decryptEpoch][j].bytes == since[k + j]
    else forall i :: 0 <= i < |v.chains| ==> v.chains[i] == []
  }

  predicate Settled(v: View) { v.term.Some? ==> v.pendingWrites == [] }

  predicate Inv(c: Records.Cipher, v: View, mode: Mode, since: seq<Blob>, k: nat) {
    && k <= |since| && ChainsKeepEpochs(v) && Settled(v)
    && InFlight(v, mode, since, k)
    && (mode.Keyless? && !v.encryptedWithoutKey ==> k == |since|)
    && Visible(v) == PlainAll(c, mode, since[..k])
  }

  lemma {:induction false} TextsShow(writes: seq<Write>, chunks: seq<Blob>)
    ensures SinceRis(writes + Texts(chunks)) == SinceRis(writes) + Concat(chunks)
    decreases |chunks|
  {
    if chunks == [] {
      assert writes + Texts(chunks) == writes;
    } else {
      var front, last := chunks[..|chunks| - 1], chunks[|chunks| - 1];
      var all := writes + Texts(chunks);
      assert chunks == front + [last];
      assert all[..|all| - 1] == writes + Texts(front);
      TextsShow(writes, front);
      ConcatSnoc(front, last);
    }
  }

  lemma WrittenShows(v: View, chunks: seq<Blob>)
    requires Settled(v)
    ensures Visible(Written(v, chunks)) == Visible(v) + Concat(chunks) && Settled(Written(v, chunks))
  {
    if v.term.Some? {
      TextsShow(v.term.value, chunks);
    } else {
      ConcatAppend(v.pendingWrites, chunks);
    }
  }

  lemma WrittenOneMore(v: View, chunks: seq<Blob>, x: Blob)
    ensures Written(Written(v, chunks), [x]) == Written(v, chunks + [x])
  {
    assert Texts(chunks + [x]) == Texts(chunks) + Texts([x]);
    if v.term.Some? {
      assert v.term.value + (Texts(chunks) + Texts([x])) == (v.term.value + Texts(chunks)) + Texts([x]);
    }
  }

  lemma ClearedKeeps(c: Records.Cipher, v: View, mode: Mode, since: seq<Blob>, k: nat)
    requires Inv(c, v, mode, since, k)
    ensures Inv(c, Cleared(v), mode, [], 0)
  {
    var w := Cleared(v);
    assert forall i :: 0 <= i < |v.chains| ==> w.chains[i] == v.chains[i];
  }

  lemma PlainAllSnoc(c: Records.Cipher, mode: Mode, since: seq<Blob>, k: nat)
    requires k < |since|
    ensures PlainAll(c, mode, since[..k + 1]) == PlainAll(c, mode, since[..k]) + Plain(c, mode, since[k])
  {
    assert since[..k + 1][..k] == since[..k];
  }

  lemma ReceivedKeeps(c: Records.Cipher, v: View, mode: Mode, since: seq<Blob>, k: nat, bytes: Blob) returns (l: nat)
    requires Inv(c, v, mode, since, k) && bytes != []
    ensures Inv(c, Received(v, mode, bytes), mode, since + [bytes], l)
  {
    var longer := since + [bytes];
    assert longer[..k] == since[..k];
    l := k;
    if mode.Keyless? && !v.encryptedWithoutKey {
      l := k + 1;
      PlainAllSnoc(c, mode, longer, k);
      WrittenShows(v, [bytes]);
      assert Concat([bytes]) == bytes + Concat([]);
    }
  }

  function Popped(v: View, chain: nat): (after: View)
    requires chain < |v.chains| && v.chains[chain] != []
  {
    v.(chains := v.chains[chain := v.chains[chain][1..]])
  }

  lemma PoppedKeepsEpochs(v: View, chain: nat)
    requires ChainsKeepEpochs(v) && chain < |v.chains| && v.chains[chain] != []
    ensures ChainsKeepEpochs(Popped(v, chain))
    ensures v.chains[chain][0].epoch == chain
  {
    var w := Popped(v, chain);
    forall i, j | 0 <= i < |w.chains| && 0 <= j < |w.chains[i]| ensures w.chains[i][j].epoch == i {
      if i == chain {
        assert w.chains[i][j] == v.chains[i][j + 1];
      }
    }
  }

  /** The oldest message in flight lands: one more is counted. */
  lemma CurrentKeeps(c: Records.Cipher, v: View, mode: Mode, since: seq<Blob>, k: nat)
    requires Inv(c, v, mode, since, k) && v.chains[v.decryptEpoch] != []
    ensures Inv(c, Resolved(c, v, mode, v.decryptEpoch), mode, since, k + 1)
  {
    var w := Popped(v, v.decryptEpoch);
    PoppedKeepsEpochs(v, v.decryptEpoch);
    assert v.chains[v.decryptEpoch][0].bytes == since[k + 0];
    forall j | 0 <= j < |since| - (k + 1) ensures w.chains[v.decryptEpoch][j].bytes == since[k + 1 + j] {
      assert v.chains[v.decryptEpoch][j + 1].bytes == since[k + (j + 1)];
    }
    PlainAllSnoc(c, mode, since, k);
    WrittenShows(w, Decrypted(c, mode, since[k]));
  }

  lemma ResolvedKeeps(c: Records.Cipher, v: View, mode: Mode, since: seq<Blob>, k: nat, chain: nat) returns (l: nat)
    requires Inv(c, v, mode, since, k) && Enabled(v, Finished(chain))
    ensures Inv(c, Resolved(c, v, mode, chain), mode, since, l)
  {
    if chain == v.decryptEpoch {
      CurrentKeeps(c, v, mode, since, k);
      l := k + 1;
    } else {
      PoppedKeepsEpochs(v, chain);
      l := k;
    }
  }

  lemma ReadyKeeps(c: Records.Cipher, v: View, mode: Mode, since: seq<Blob>, k: nat)
    requires Inv(c, v, mode, since, k) && v.term.None?
    ensures Inv(c, Next(c, v, mode, TerminalReady), mode, since, k)
  {
    TextsShow([], v.pendingWrites);
    assert [] + Texts(v.pendingWrites) == Texts(v.pendingWrites);
  }

  lemma {:induction false} JoinedOnceOpened(c: Records.Cipher, mode: Mode, events: seq<Event>, views: seq<View>)
    requires Run(c, mode, events, views)
    ensures views[|events|].joinedBefore <==> Opened in events
  {
    if events != [] {
      var n := |events| - 1;
      JoinedOnceOpened(c, mode, events[..n], views[..n + 1]);
      assert events == events[..n] + [events[n]];
    }
  }

  /** What is shown or pending is the in-order plaintext of the first `k` messages
      received since the last clear: with a key, all but those still being
      decrypted; with a plaintext room, all of them. */
  ghost predicate ShowsFront(c: Records.Cipher, mode: Mode, events: seq<Event>, v: View, k: nat) {
    var since := SinceClear(events);
    && k <= |since|
    && Visible(v) == PlainAll(c, mode, since[..k])
    && |v.chains| == v.decryptEpoch + 1
    && (mode.Keyed? ==> k == |since| - |v.chains[v.decryptEpoch]|)
    && (mode.Keyless? && !v.encryptedWithoutKey ==> k == |since|)
  }

  /** Clear-screen ordering. After any interleaving of openings, messages, controls,
      terminal creation and decryptions finishing, the screen shows a front of what
      was received since the last clear; a rejected message contributes nothing. */
  lemma {:induction false} ScreenIsPrefix(c: Records.Cipher, mode: Mode, events: seq<Event>, views: seq<View>)
    returns (k: nat)
    requires Run(c, mode, events, views)
    ensures ShowsFront(c, mode, events, views[|events|], k)
  {
    k := RunInv(c, mode, events, views);
  }

  lemma {:induction false} RunInv(c: Records.Cipher, mode: Mode, events: seq<Event>, views: seq<View>) returns (k: nat)
    requires Run(c, mode, events, views)
    ensures Inv(c, views[|events|], mode, SinceClear(events), k)
  {
    if events == [] {
      k := 0;
    } else {
      var n := |events| - 1;
      var front, since := events[..n], SinceClear(events[..n]);
      k := RunInv(c, mode, front, views[..n + 1]);
      JoinedOnceOpened(c, mode, front, views[..n + 1]);
      k := NextKeeps(c, views[n], mode, since, k, events[n]);
    }
  }

  /** One event, whatever the state. */
  lemma NextKeeps(c: Records.Cipher, v: View, mode: Mode, since: seq<Blob>, k: nat, e: Event) returns (l: nat)
    requires Inv(c, v, mode, since, k) && Enabled(v, e)
    ensures Inv(c, Next(c, v, mode, e), mode, SinceAfter(since, e, v.joinedBefore), l)
  {
    l := k;
    match e
    case Opened =>
      if v.joinedBefore {
        ClearedKeeps(c, v, mode, since, k);
        l := 0;
      }
    case Message(bytes) =>
      if bytes != [] { l := ReceivedKeeps(c, v, mode, since, k, bytes); }
    case SizeControl(_) =>
    case ResetControl =>
      ClearedKeeps(c, v, mode, since, k);
      l := 0;
    case TerminalReady =>
      ReadyKeeps(c, v, mode, since, k);
    case Finished(chain) =>
      l := ResolvedKeeps(c, v, mode, since, k, chain);
  }

  function SinceAfter(since: seq<Blob>, e: Event, joined: bool): (after: seq<Blob>) {
    if e.ResetControl? || (e.Opened? && joined) then []
    else if e.Message? && e.bytes != [] then since + [e.bytes]
    else since
  }

  // ---- What that is, without the page's own functions ----

  /** The records of several messages, in order. */
  function InOrder(sent: seq<seq<Records.Record>>): (recs: seq<Records.Record>) {
    if sent == [] then [] else InOrder(sent[..|sent| - 1]) + sent[|sent| - 1]
  }

  /** The messages are sealed records run together, `sent[i]` in the `i`th. */
  ghost predicate Carry(c: Records.Cipher, key: Blob, messages: seq<Blob>, sent: seq<seq<Records.Record>>) {
    && |messages| == |sent|
    && forall i :: 0 <= i < |sent| ==>
         && Records.AllSealable(c, sent[i]) && Records.AllOpen(c, key, sent[i])
         && messages[i] == Concat(Records.Seals(c, sent[i]))
  }

  lemma ReadableOne(first: Records.Record, rest: seq<Records.Record>, key: Blob)
    ensures Records.Readable([first] + rest, key) == Records.Readable([first], key) + Records.Readable(rest, key)
  {
    assert ([first] + rest)[1..] == rest;
    assert [first][1..] == [];
  }

  lemma Associate(a: seq<Blob>, b: seq<Blob>, c: seq<Blob>)
    ensures a + (b + c) == (a + b) + c
  {
  }

  lemma {:induction false} ReadableAppend(xs: seq<Records.Record>, ys: seq<Records.Record>, key: Blob)
    ensures Records.Readable(xs + ys, key) == Records.Readable(xs, key) + Records.Readable(ys, key)
  {
    if xs == [] {
      assert xs + ys == ys;
    } else {
      ReadableAppend(xs[1..], ys, key);
      assert xs + ys == [xs[0]] + (xs[1..] + ys);
      ReadableOne(xs[0], xs[1..] + ys, key);
      Associate(Records.Readable([xs[0]], key), Records.Readable(xs[1..], key), Records.Readable(ys, key));
      ReadableOne(xs[0], xs[1..], key);
      assert xs == [xs[0]] + xs[1..];
    }
  }

  lemma {:induction false} PlainOfRecords(c: Records.Cipher, key: Blob, messages: seq<Blob>,
                                          sent: seq<seq<Records.Record>>)
    requires Carry(c, key, messages, sent)
    ensures PlainAll(c, Keyed(key, true), messages) == Concat(Records.Readable(InOrder(sent), key))
    decreases |messages|
  {
    if messages != [] {
      var n := |messages| - 1;
      PlainOfRecords(c, key, messages[..n], sent[..n]);
      Records.SealedChunksReadBack(c, key, sent[n]);
      ReadableAppend(InOrder(sent[..n]), sent[n], key);
      ConcatAppend(Records.Readable(InOrder(sent[..n]), key), Records.Readable(sent[n], key));
    }
  }

  /** The screen shows the records. Whatever was merged into each message: after any
      run in which every message since the last clear is sealed records run together,
      a page with a key shows exactly the plaintexts of the records under its key, of
      all those messages but the ones still being decrypted, in order. */
  lemma ScreenShowsRecords(c: Records.Cipher, key: Blob, events: seq<Event>, views: seq<View>,
                           sent: seq<seq<Records.Record>>) returns (k: nat)
    requires Run(c, Keyed(key, true), events, views) && Carry(c, key, SinceClear(events), sent)
    ensures var v := views[|events|];
            && v.decryptEpoch < |v.chains| && k + |v.chains[v.decryptEpoch]| == |sent|
            && Visible(v) == Concat(Records.Readable(InOrder(sent[..k]), key))
  {
    k := ScreenIsPrefix(c, Keyed(key, true), events, views);
    PlainOfRecords(c, key, SinceClear(events)[..k], sent[..k]);
  }

  /** What a page without a key renders: the messages since the last clear, up to the
      moment it is told that the room is encrypted. */
  function Rendered(events: seq<Event>): (messages: seq<Blob>) {
    if events == [] then []
    else
      var front, last := events[..|events| - 1], events[|events| - 1];
      if last.ResetControl? || (last.Opened? && Opened in front) then []
      else if last.Message? && SizeControl(true) !in front then Rendered(front) + [last.bytes]
      else Rendered(front)
  }

  lemma {:induction false} ToldOnce(c: Records.Cipher, events: seq<Event>, views: seq<View>)
    requires Run(c, Keyless, events, views)
    ensures views[|events|].encryptedWithoutKey <==> SizeControl(true) in events
  {
    if events != [] {
      var n := |events| - 1;
      ToldOnce(c, events[..n], views[..n + 1]);
      assert events == events[..n] + [events[n]];
    }
  }

  /** A page without a key shows exactly those bytes, at every moment of every run:
      once told that the room is encrypted it renders nothing more. */
  lemma {:induction false} KeylessShowsBytes(c: Records.Cipher, events: seq<Event>, views: seq<View>)
    requires Run(c, Keyless, events, views)
    ensures Visible(views[|events|]) == Concat(Rendered(events))
    decreases |events|
  {
    if events != [] {
      var n := |events| - 1;
      var front := events[..n];
      KeylessShowsBytes(c, front, views[..n + 1]);
      ToldOnce(c, front, views[..n + 1]);
      JoinedOnceOpened(c, Keyless, front, views[..n + 1]);
      var k := RunInv(c, Keyless, front, views[..n + 1]);
      KeylessStep(c, views[n], events[n], SinceClear(front), k);
      ConcatSnoc(Rendered(front), if events[n].Message? then events[n].bytes else []);
    }
  }

  /** What one event does to what a page without a key shows. */
  lemma KeylessStep(c: Records.Cipher, v: View, e: Event, since: seq<Blob>, k: nat)
    requires Inv(c, v, Keyless, since, k) && Enabled(v, e)
    ensures Visible(Next(c, v, Keyless, e)) ==
            if e.ResetControl? || (e.Opened? && v.joinedBefore) then []
            else if e.Message? && !v.encryptedWithoutKey then Visible(v) + e.bytes
            else Visible(v)
  {
    match e
    case Message(bytes) =>
      WrittenShows(v, [bytes]);
      assert Concat([bytes]) == bytes + Concat([]) == bytes;
      assert Visible(v) + [] == Visible(v);
    case TerminalReady =>
      TextsShow([], v.pendingWrites);
      assert [] + Texts(v.pendingWrites) == Texts(v.pendingWrites);
    case Opened =>
    case SizeControl(_) =>
    case ResetControl =>
    case Finished(_) =>
  }

  lemma {:induction false} NothingPlain(c: Records.Cipher, mode: Mode, messages: seq<Blob>)
    requires mode.BrokenKey? || (mode.Keyed? && !mode.imports)
    ensures PlainAll(c, mode, messages) == []
    decreases |messages|
  {
    if messages != [] {
      NothingPlain(c, mode, messages[..|messages| - 1]);
    }
  }

  /** A page whose key is broken or cannot be imported never shows anything. */
  lemma UnusableKeyShowsNothing(c: Records.Cipher, mode: Mode, events: seq<Event>, views: seq<View>)
    requires Run(c, mode, events, views) && (mode.BrokenKey? || (mode.Keyed? && !mode.imports))
    ensures Visible(views[|events|]) == []
  {
    var k := ScreenIsPrefix(c, mode, events, views);
    NothingPlain(c, mode, SinceClear(events)[..k]);
  }

  // ---- The page itself ----

  lemma RunSnoc(c: Records.Cipher, mode: Mode, events: seq<Event>, views: seq<View>, e: Event)
    requires Run(c, mode, events, views) && Enabled(views[|events|], e)
    ensures Run(c, mode, events + [e], views + [Next(c, views[|events|], mode, e)])
  {
    var longer, more := views + [Next(c, views[|events|], mode, e)], events + [e];
    forall i | 0 <= i < |more|
      ensures Enabled(longer[i], more[i]) && longer[i + 1] == Next(c, longer[i], mode, more[i])
    {
      if i < |events| {
        assert Enabled(views[i], events[i]) && views[i + 1] == Next(c, views[i], mode, events[i]);
      }
    }
  }

  class Room {
    const c: Records.Cipher
    const mode: Mode
    var term: Option<seq<Write>>
    var pendingWrites: seq<Blob>
    var decryptEpoch: nat
    var chains: seq<seq<Job>>
    var encryptedWithoutKey: bool
    var joinedBefore: bool
    /** Everything that happened to the page, and the views in between. */
    ghost var events: seq<Event>
    ghost var views: seq<View>

    function Value(): (v: View) reads this {
      View(term, pendingWrites, decryptEpoch, chains, encryptedWithoutKey, joinedBefore)
    }

    /** The page is where a run of its events leads. */
    ghost predicate Valid() reads this {
      Run(c, mode, events, views) && views[|events|] == Value()
    }

    ghost predicate Shows() reads this { exists k :: ShowsFront(c, mode, events, Value(), k) }

    constructor (c: Records.Cipher, mode: Mode)
      ensures this.c == c && this.mode == mode && Valid() && events == [] && Value() == Blank()
    {
      this.c, this.mode := c, mode;
      term, pendingWrites, decryptEpoch, chains := None, [], 0, [[]];
      encryptedWithoutKey, joinedBefore := false, false;
      events, views := [], [Blank()];
    }

    /** Note an event about to be handled. */
    ghost method Note(e: Event)
      requires Valid() && (e.Message? || Enabled(Value(), e))
      modifies this`events, this`views
      ensures events == old(events) + [e] && Run(c, mode, events, views)
      ensures Enabled(Value(), e) && views[|events|] == Next(c, Value(), mode, e)
      ensures exists k :: ShowsFront(c, mode, events, views[|events|], k)
    {
      var now := ScreenIsPrefix(c, mode, events, views);
      RunSnoc(c, mode, events, views, e);
      events, views := events + [e], views + [Next(c, Value(), mode, e)];
      var k := ScreenIsPrefix(c, mode, events, views);
    }

    method WriteBytes(bytes: Blob)
      modifies this`term, this`pendingWrites
      ensures Value() == Written(old(Value()), [bytes])
    {
      assert Texts([bytes]) == [Text(bytes)];
      if term.Some? {
        term := Some(term.value + [Text(bytes)]);
      } else {
        pendingWrites := pendingWrites + [bytes];
      }
    }

    method ClearScreen()
      modifies this`term, this`pendingWrites, this`decryptEpoch, this`chains
      ensures Value() == Cleared(old(Value()))
    {
      decryptEpoch := decryptEpoch + 1;
      chains := chains + [[]];
      pendingWrites := [];
      if term.Some? {
        term := Some(term.value + [Ris]);
      }
    }

    method OnOpen()
      requires Valid()
      modifies this
      ensures Valid() && events == old(events) + [Opened] && Shows()
      ensures Value() == Next(c, old(Value()), mode, Opened)
    {
      Note(Opened);
      if joinedBefore {
        ClearScreen();
      }
      joinedBefore := true;
    }

    method OnMessage(bytes: Blob)
      requires Valid()
      modifies this
      ensures Valid() && events == old(events) + [Message(bytes)] && Shows()
      ensures Enabled(old(Value()), Message(bytes)) && Value() == Next(c, old(Value()), mode, Message(bytes))
    {
      Note(Message(bytes));
      HandleMessage(bytes);
    }

    method HandleMessage(bytes: Blob)
      requires |chains| == decryptEpoch + 1
      modifies this`term, this`pendingWrites, this`chains
      ensures Value() == Received(old(Value()), mode, bytes)
    {
      if bytes == [] {
        return;
      }
      if !mode.Keyless? {
        if mode.Keyed? {
          EnqueueEncrypted(bytes);
        }
        return;
      }
      if encryptedWithoutKey {
        return;
      }
      WriteBytes(bytes);
    }

    method EnqueueEncrypted(bytes: Blob)
      requires |chains| == decryptEpoch + 1
      modifies this`chains
      ensures chains == old(chains)[decryptEpoch := old(chains)[decryptEpoch] + [Job(decryptEpoch, bytes)]]
    {
      chains := chains[decryptEpoch := chains[decryptEpoch] + [Job(decryptEpoch, bytes)]];
    }

    /** A decryption finishes: its chain's oldest. */
    method OnFinished(chain: nat)
      requires Valid() && Enabled(Value(), Finished(chain))
      modifies this
      ensures Valid() && events == old(events) + [Finished(chain)] && Shows()
      ensures Value() == Next(c, old(Value()), mode, Finished(chain))
    {
      Note(Finished(chain));
      Resolve(chain);
    }

    method Resolve(chain: nat)
      requires chain < |chains| && chains[chain] != []
      modifies this`term, this`pendingWrites, this`chains
      ensures Value() == Resolved(c, old(Value()), mode, chain)
    {
      var job := chains[chain][0];
      chains := chains[chain := chains[chain][1..]];
      if job.epoch != decryptEpoch {
        return;
      }
      var chunks := Decrypt(job.bytes);
      WriteChunks(chunks);
    }

    method Decrypt(bytes: Blob) returns (chunks: seq<Blob>)
      ensures chunks == Decrypted(c, mode, bytes)
    {
      chunks := [];
      if mode.Keyed? && mode.imports {
        var result := Records.DecryptRecords(c, mode.key, bytes);
        if result.Some? {
          chunks := result.value;
        }
      }
    }

    method WriteChunks(chunks: seq<Blob>)
      modifies this`term, this`pendingWrites
      ensures Value() == Written(old(Value()), chunks)
    {
      assert term.Some? ==> term.value + Texts(chunks[..0]) == term.value;
      for i := 0 to |chunks|
        invariant Value() == Written(old(Value()), chunks[..i])
      {
        WrittenOneMore(old(Value()), chunks[..i], chunks[i]);
        assert chunks[..i + 1] == chunks[..i] + [chunks[i]];
        WriteBytes(chunks[i]);
      }
      assert chunks[..|chunks|] == chunks;
    }

    method OnSize(encrypted: bool)
      requires Valid()
      modifies this
      ensures Valid() && events == old(events) + [SizeControl(encrypted)] && Shows()
      ensures Value() == Next(c, old(Value()), mode, SizeControl(encrypted))
    {
      Note(SizeControl(encrypted));
      if encrypted && mode.Keyless? && !encryptedWithoutKey {
        encryptedWithoutKey := true;
      }
    }

    method OnReset()
      requires Valid()
      modifies this
      ensures Valid() && events == old(events) + [ResetControl] && Shows()
      ensures Value() == Next(c, old(Value()), mode, ResetControl)
    {
      Note(ResetControl);
      ClearScreen();
    }

    method CreateTerminal()
      requires Valid() && term.None?
      modifies this
      ensures Valid() && events == old(events) + [TerminalReady] && Shows()
      ensures Value() == Next(c, old(Value()), mode, TerminalReady)
    {
      Note(TerminalReady);
      var writes: seq<Write> := [];
      for i := 0 to |pendingWrites|
        invariant writes == Texts(pendingWrites[..i])
      {
        writes := writes + [Text(pendingWrites[i])];
      }
      assert pendingWrites[..|pendingWrites|] == pendingWrites;
      term, pendingWrites := Some(writes), [];
    }
  }
}
