/**
 The PCM data path of a session (OutWritePcmData and InReadPcmData of
 bluetooth/audio/utils/aidl_session/BluetoothAudioSession.cpp): polling loops over a bounded byte
 queue, one thread writing and one reading.

 A channel is the queue with the write call and the read call in progress. A step is the begin of
 a call, one pass of its loop, or its return; the steps of the two sides interleave freely, and
 each pass finds the session ready or not and the queue operation failing or not.
 */
module PcmPath {
  import opened Options

  const TIMEOUT_MS: nat := 1000
  const POLL_MS: nat := 1

  datatype Ending = Complete | SessionLost | QueueFailed | TimedOut

  datatype WriteCall = WriteCall(buffer: seq<bv8>, written: nat, sleeps: nat, passes: nat, ending: Option<Ending>)

  datatype ReadCall = ReadCall(bytes: nat, data: seq<bv8>, sleeps: nat, passes: nat, ending: Option<Ending>)

  datatype Channel = Channel(
    capacity: nat,
    contents: seq<bv8>,
    writer: Option<WriteCall>,
    reader: Option<ReadCall>)

  datatype Event =
    | BeginWrite(buffer: seq<bv8>)
    | WritePass(ready: bool, fails: bool)
    | EndWrite(buffer: seq<bv8>, written: nat)
    | BeginRead(bytes: nat)
    | ReadPass(ready: bool, fails: bool)
    | EndRead(data: seq<bv8>)

  predicate OfWriter(e: Event) { e.BeginWrite? || e.WritePass? || e.EndWrite? }

  predicate OfReader(e: Event) { e.BeginRead? || e.ReadPass? || e.EndRead? }

  // ------------------------------------------------------------ steps

  function Least(a: nat, b: nat): nat { if a <= b then a else b }

  function NewWrite(buffer: seq<bv8>): WriteCall {
    WriteCall(buffer, 0, 0, 0, if buffer == [] then Some(Complete) else None)
  }

  function NewRead(bytes: nat): ReadCall {
    ReadCall(bytes, [], 0, 0, if bytes == 0 then Some(Complete) else None)
  }

  /** One pass of the writing loop, `room` bytes being free. */
  function PassWrite(w: WriteCall, room: nat, ready: bool, fails: bool): WriteCall
    requires w.written < |w.buffer|
  {
    var v := w.(passes := w.passes + 1);
    if !ready then v.(ending := Some(SessionLost))
    else if room > 0 then
      if fails then v.(ending := Some(QueueFailed))
      else
        var n := w.written + Least(room, |w.buffer| - w.written);
        v.(written := n, ending := if n < |w.buffer| then None else Some(Complete))
    else if TIMEOUT_MS - w.sleeps >= POLL_MS then v.(sleeps := w.sleeps + 1)
    else v.(ending := Some(TimedOut))
  }

  /** How many bytes a pass of the reading loop takes. */
  function Taken(r: ReadCall, contents: seq<bv8>, ready: bool, fails: bool): (n: nat)
    requires |r.data| < r.bytes
    ensures n <= |contents|
  {
    if ready && !fails then Least(|contents|, r.bytes - |r.data|) else 0
  }

  /** One pass of the reading loop. */
  function PassRead(r: ReadCall, contents: seq<bv8>, ready: bool, fails: bool): ReadCall
    requires |r.data| < r.bytes
  {
    var v := r.(passes := r.passes + 1);
    if !ready then v.(ending := Some(SessionLost))
    else if contents != [] then
      if fails then v.(ending := Some(QueueFailed))
      else
        var n := Taken(r, contents, ready, fails);
        v.(data := r.data + contents[..n], ending := if |r.data| + n < r.bytes then None else Some(Complete))
    else if TIMEOUT_MS - r.sleeps >= POLL_MS then v.(sleeps := r.sleeps + 1)
    else v.(ending := Some(TimedOut))
  }

  function Room(c: Channel): nat {
    if |c.contents| <= c.capacity then c.capacity - |c.contents| else 0
  }

  predicate Enabled(c: Channel, e: Event) {
    match e
    case BeginWrite(_) => c.writer.None?
    case WritePass(_, _) =>
      c.writer.Some? && c.writer.value.ending.None? && c.writer.value.written < |c.writer.value.buffer|
    case EndWrite(buffer, written) =>
      c.writer.Some? && c.writer.value.ending.Some?
      && c.writer.value.buffer == buffer && c.writer.value.written == written <= |buffer|
    case BeginRead(_) => c.reader.None?
    case ReadPass(_, _) =>
      c.reader.Some? && c.reader.value.ending.None? && |c.reader.value.data| < c.reader.value.bytes
    case EndRead(data) =>
      c.reader.Some? && c.reader.value.ending.Some? && c.reader.value.data == data
  }

  function Step(c: Channel, e: Event): Channel
    requires Enabled(c, e)
  {
    match e
    case BeginWrite(buffer) => c.(writer := Some(NewWrite(buffer)))
    case WritePass(ready, fails) =>
      var w := c.writer.value;
      var v := PassWrite(w, Room(c), ready, fails);
      c.(writer := Some(v), contents := c.contents + w.buffer[w.written..v.written])
    case EndWrite(_, _) => c.(writer := None)
    case BeginRead(bytes) => c.(reader := Some(NewRead(bytes)))
    case ReadPass(ready, fails) =>
      var r := c.reader.value;
      var v := PassRead(r, c.contents, ready, fails);
      c.(reader := Some(v), contents := c.contents[Taken(r, c.contents, ready, fails)..])
    case EndRead(_) => c.(reader := None)
  }

  ghost predicate Joined(cs: seq<Channel>, es: seq<Event>, i: int)
    requires |cs| == |es| + 1 && 0 <= i < |es|
  {
    Enabled(cs[i], es[i]) && cs[i + 1] == Step(cs[i], es[i])
  }

  /** A run on a queue that was empty when no call was in progress. */
  ghost predicate Run(cs: seq<Channel>, es: seq<Event>) {
    |cs| == |es| + 1 && cs[0] == Channel(cs[0].capacity, [], None, None)
    && forall i :: 0 <= i < |es| ==> Joined(cs, es, i)
  }

  // ------------------------------------------------------------ what every state keeps

  /** A pass that does not end the call sleeps or moves at least one byte. */
  predicate Bounded(moved: nat, asked: nat, sleeps: nat, passes: nat, ending: Option<Ending>) {
    moved <= asked && sleeps <= TIMEOUT_MS
    && (moved == asked <==> ending == Some(Complete))
    && (ending == Some(TimedOut) ==> sleeps == TIMEOUT_MS)
    && passes <= sleeps + moved + if ending.Some? then 1 else 0
  }

  predicate WriterOk(w: WriteCall) { Bounded(w.written, |w.buffer|, w.sleeps, w.passes, w.ending) }

  predicate ReaderOk(r: ReadCall) { Bounded(|r.data|, r.bytes, r.sleeps, r.passes, r.ending) }

  predicate Inv(c: Channel) {
    |c.contents| <= c.capacity
    && (c.writer.Some? ==> WriterOk(c.writer.value))
    && (c.reader.Some? ==> ReaderOk(c.reader.value))
  }

  lemma PassWriteOk(w: WriteCall, room: nat, ready: bool, fails: bool)
    requires WriterOk(w) && w.ending.None?
    ensures var v := PassWrite(w, room, ready, fails);
      WriterOk(v) && v.buffer == w.buffer && w.written <= v.written <= w.written + room
  {
  }

  lemma PassReadOk(r: ReadCall, contents: seq<bv8>, ready: bool, fails: bool)
    requires ReaderOk(r) && r.ending.None?
    ensures var v := PassRead(r, contents, ready, fails);
      ReaderOk(v) && v.data == r.data + contents[..Taken(r, contents, ready, fails)]
  {
  }

  lemma StepKeepsInv(c: Channel, e: Event)
    requires Inv(c) && Enabled(c, e)
    ensures Inv(Step(c, e))
  {
    match e
    case WritePass(ready, fails) => PassWriteOk(c.writer.value, Room(c), ready, fails);
    case ReadPass(ready, fails) => PassReadOk(c.reader.value, c.contents, ready, fails);
    case _ =>
  }

  lemma {:induction false} RunKeepsInv(cs: seq<Channel>, es: seq<Event>, i: nat)
    requires Run(cs, es) && i < |cs|
    ensures Inv(cs[i])
  {
    if i > 0 {
      RunKeepsInv(cs, es, i - 1);
      assert Joined(cs, es, i - 1);
      StepKeepsInv(cs[i - 1], es[i - 1]);
    }
  }

  /** In every run each call sleeps at most 1000 times and makes at most one pass more than it
      sleeps and moves bytes. */
  lemma CallsAreBounded(cs: seq<Channel>, es: seq<Event>, i: nat)
    requires Run(cs, es) && i < |cs|
    ensures cs[i].writer.Some? ==> var w := cs[i].writer.value;
      w.sleeps <= 1000 && w.passes <= 1001 + |w.buffer|
    ensures cs[i].reader.Some? ==> var r := cs[i].reader.value;
      r.sleeps <= 1000 && r.passes <= 1001 + r.bytes
  {
    RunKeepsInv(cs, es, i);
  }

  // ------------------------------------------------------------ what passes through

  /** The bytes that returned write calls put in the queue, all together. */
  function Written(es: seq<Event>): seq<bv8> {
    if es == [] then [] else Written(es[..|es| - 1]) + WrittenBy(es[|es| - 1])
  }

  function WrittenBy(e: Event): seq<bv8> {
    if e.EndWrite? && e.written <= |e.buffer| then e.buffer[..e.written] else []
  }

  /** The bytes that returned read calls gave back, all together. */
  function Read(es: seq<Event>): seq<bv8> {
    if es == [] then [] else Read(es[..|es| - 1]) + ReadBy(es[|es| - 1])
  }

  function ReadBy(e: Event): seq<bv8> {
    if e.EndRead? then e.data else []
  }

  /** What the write call in progress has put in the queue so far. */
  function Writing(c: Channel): seq<bv8> {
    if c.writer.Some? && c.writer.value.written <= |c.writer.value.buffer|
    then c.writer.value.buffer[..c.writer.value.written] else []
  }

  /** What the read call in progress has taken out so far. */
  function Reading(c: Channel): seq<bv8> {
    if c.reader.Some? then c.reader.value.data else []
  }

  ghost predicate Conserved(written: seq<bv8>, read: seq<bv8>, c: Channel) {
    written + Writing(c) == read + Reading(c) + c.contents
  }

  /** Bytes appended on one side are appended on the other. */
  lemma Appended(a: seq<bv8>, b: seq<bv8>, c: seq<bv8>, d: seq<bv8>, e: seq<bv8>, piece: seq<bv8>)
    requires a + b == c + d + e
    ensures a + (b + piece) == c + d + (e + piece)
  {
    assert a + (b + piece) == a + b + piece;
    assert c + d + (e + piece) == c + d + e + piece;
  }

  /** Bytes taken from the front of one part are appended to the part before it. */
  lemma MovedToFront(a: seq<bv8>, b: seq<bv8>, c: seq<bv8>, n: nat)
    requires n <= |c|
    ensures a + b + c == a + (b + c[..n]) + c[n..]
  {
    assert c == c[..n] + c[n..];
    assert a + (b + c[..n]) == a + b + c[..n];
  }

  lemma WritePassConserves(written: seq<bv8>, read: seq<bv8>, c: Channel, e: Event)
    requires Inv(c) && Enabled(c, e) && e.WritePass? && Conserved(written, read, c)
    ensures Conserved(written, read, Step(c, e))
  {
    var w, d := c.writer.value, Step(c, e);
    PassWriteOk(w, Room(c), e.ready, e.fails);
    var v := d.writer.value;
    var piece := w.buffer[w.written..v.written];
    Appended(written, Writing(c), read, Reading(c), c.contents, piece);
    assert Writing(d) == Writing(c) + piece;
  }

  lemma ReadPassConserves(written: seq<bv8>, read: seq<bv8>, c: Channel, e: Event)
    requires Inv(c) && Enabled(c, e) && e.ReadPass? && Conserved(written, read, c)
    ensures Conserved(written, read, Step(c, e))
  {
    var r, d := c.reader.value, Step(c, e);
    PassReadOk(r, c.contents, e.ready, e.fails);
    var n := Taken(r, c.contents, e.ready, e.fails);
    MovedToFront(read, r.data, c.contents, n);
  }

  lemma StepConserves(written: seq<bv8>, read: seq<bv8>, c: Channel, e: Event)
    requires Inv(c) && Enabled(c, e) && Conserved(written, read, c)
    ensures Conserved(written + WrittenBy(e), read + ReadBy(e), Step(c, e))
  {
    assert written + [] == written && read + [] == read;
    match e
    case WritePass(_, _) => WritePassConserves(written, read, c, e);
    case ReadPass(_, _) => ReadPassConserves(written, read, c, e);
    case _ =>
  }

  lemma {:induction false} RunConserves(cs: seq<Channel>, es: seq<Event>, i: nat)
    requires Run(cs, es) && i < |cs|
    ensures Conserved(Written(es[..i]), Read(es[..i]), cs[i])
  {
    if i > 0 {
      RunConserves(cs, es, i - 1);
      RunKeepsInv(cs, es, i - 1);
      assert Joined(cs, es, i - 1);
      StepConserves(Written(es[..i - 1]), Read(es[..i - 1]), cs[i - 1], es[i - 1]);
      assert es[..i][..i - 1] == es[..i - 1];
    }
  }

  lemma Prefixes(w: seq<bv8>, x: seq<bv8>, r: seq<bv8>, y: seq<bv8>, z: seq<bv8>)
    requires w + x == r + y + z
    ensures r <= w + x && (x == [] ==> r + y <= w)
  {
    assert r + y + z == r + (y + z);
    assert x == [] ==> w + x == w;
  }

  /** For every interleaving of the two loops and any number of calls, the bytes that reads gave
      back are a prefix of the bytes that writes put in: nothing is lost, repeated or reordered,
      and the queue holds the rest. */
  lemma ReadsArePrefixOfWrites(cs: seq<Channel>, es: seq<Event>)
    requires Run(cs, es)
    ensures var c, w, r := cs[|es|], Written(es), Read(es);
      w + Writing(c) == r + Reading(c) + c.contents
      && r <= w + Writing(c)
      && (c.writer.None? ==> r + Reading(c) <= w)
  {
    RunConserves(cs, es, |es|);
    assert es[..|es|] == es;
    var c, w, r := cs[|es|], Written(es), Read(es);
    assert Conserved(w, r, c);
    Prefixes(w, Writing(c), r, Reading(c), c.contents);
  }

  // ------------------------------------------------------------ why a call ends

  /** Event `e`, met in state `c`, ends a call for the stated reason. */
  predicate EndsWrite(c: Channel, e: Event, ending: Ending) {
    match ending
    case SessionLost => e.WritePass? && !e.ready
    case QueueFailed => e.WritePass? && e.ready && e.fails && Room(c) > 0
    case TimedOut => e.WritePass? && e.ready && Room(c) == 0
    case Complete => (e.WritePass? && e.ready && !e.fails && Room(c) > 0) || e == BeginWrite([])
  }

  predicate EndsRead(c: Channel, e: Event, ending: Ending) {
    match ending
    case SessionLost => e.ReadPass? && !e.ready
    case QueueFailed => e.ReadPass? && e.ready && e.fails && c.contents != []
    case TimedOut => e.ReadPass? && e.ready && c.contents == []
    case Complete => (e.ReadPass? && e.ready && !e.fails && c.contents != []) || e == BeginRead(0)
  }

  lemma StepEndsWrite(c: Channel, e: Event)
    requires Enabled(c, e) && Step(c, e).writer.Some? && Step(c, e).writer.value.ending.Some?
    ensures if OfWriter(e) then EndsWrite(c, e, Step(c, e).writer.value.ending.value)
            else Step(c, e).writer == c.writer
  {
  }

  lemma StepEndsRead(c: Channel, e: Event)
    requires Enabled(c, e) && Step(c, e).reader.Some? && Step(c, e).reader.value.ending.Some?
    ensures if OfReader(e) then EndsRead(c, e, Step(c, e).reader.value.ending.value)
            else Step(c, e).reader == c.reader
  {
  }

  /** The last step of the writer before its call was over is the cause of its ending. */
  lemma {:induction false} WriteEndingHasCause(cs: seq<Channel>, es: seq<Event>, n: nat) returns (k: nat)
    requires Run(cs, es) && n < |cs| && cs[n].writer.Some? && cs[n].writer.value.ending.Some?
    ensures k < n && EndsWrite(cs[k], es[k], cs[n].writer.value.ending.value)
    ensures forall j :: k < j < n ==> !OfWriter(es[j])
    ensures cs[n].writer.value.ending == Some(TimedOut) ==> cs[n].writer.value.sleeps == 1000
  {
    RunKeepsInv(cs, es, n);
    assert Joined(cs, es, n - 1);
    StepEndsWrite(cs[n - 1], es[n - 1]);
    if OfWriter(es[n - 1]) {
      k := n - 1;
    } else {
      k := WriteEndingHasCause(cs, es, n - 1);
    }
  }

  /** The same for the reader. */
  lemma {:induction false} ReadEndingHasCause(cs: seq<Channel>, es: seq<Event>, n: nat) returns (k: nat)
    requires Run(cs, es) && n < |cs| && cs[n].reader.Some? && cs[n].reader.value.ending.Some?
    ensures k < n && EndsRead(cs[k], es[k], cs[n].reader.value.ending.value)
    ensures forall j :: k < j < n ==> !OfReader(es[j])
    ensures cs[n].reader.value.ending == Some(TimedOut) ==> cs[n].reader.value.sleeps == 1000
  {
    RunKeepsInv(cs, es, n);
    assert Joined(cs, es, n - 1);
    StepEndsRead(cs[n - 1], es[n - 1]);
    if OfReader(es[n - 1]) {
      k := n - 1;
    } else {
      k := ReadEndingHasCause(cs, es, n - 1);
    }
  }

  /** A pass that finds the session ready moves all it can: after it the write is complete or the
      queue is full, the read is complete or the queue is empty. One that cannot move sleeps, until
      it has slept 1000 times. */
  lemma PassMovesAll(cs: seq<Channel>, es: seq<Event>, i: nat)
    requires Run(cs, es) && i < |es|
    ensures es[i].WritePass? ==> cs[i].writer.Some? && cs[i + 1].writer.Some?
    ensures es[i].ReadPass? ==> cs[i].reader.Some? && cs[i + 1].reader.Some?
    ensures es[i] == WritePass(true, false) ==>
      var c, d := cs[i], cs[i + 1];
      if |c.contents| < c.capacity then
        d.writer.value.ending == Some(Complete) || (d.writer.value.ending.None? && |d.contents| == d.capacity)
      else if c.writer.value.sleeps < 1000 then
        d == c.(writer := d.writer) && d.writer.value.sleeps == c.writer.value.sleeps + 1 && d.writer.value.ending.None?
      else d.writer.value.ending == Some(TimedOut)
    ensures es[i] == ReadPass(true, false) ==>
      var c, d := cs[i], cs[i + 1];
      if c.contents != [] then
        d.reader.value.ending == Some(Complete) || (d.reader.value.ending.None? && d.contents == [])
      else if c.reader.value.sleeps < 1000 then
        d == c.(reader := d.reader) && d.reader.value.sleeps == c.reader.value.sleeps + 1 && d.reader.value.ending.None?
      else d.reader.value.ending == Some(TimedOut)
  {
    RunKeepsInv(cs, es, i);
    assert Joined(cs, es, i);
  }

  // ------------------------------------------------------------ the loops

  datatype Record = Record(cs: seq<Channel>, es: seq<Event>)

  /** A run so far. */
  type History = r: Record | Run(r.cs, r.es) ghost witness Record([Channel(0, [], None, None)], [])

  ghost function Now(h: History): Channel { h.cs[|h.es|] }

  lemma Grow(h: History, e: Event) returns (h': History)
    requires Enabled(Now(h), e)
    ensures h'.es == h.es + [e] && Now(h') == Step(Now(h), e)
  {
    var cs, es := h.cs + [Step(Now(h), e)], h.es + [e];
    forall i | 0 <= i < |es|
      ensures Joined(cs, es, i)
    {
      assert i < |h.es| ==> Joined(h.cs, h.es, i);
    }
    h' := Record(cs, es);
  }

  /** Before pass `k` of a loop the other side makes some steps; the pass then finds the session
      ready or not, and its queue operation fails or not. */
  datatype Turn = Turn(ready: bool, fails: bool, peer: seq<Event>)

  /** The queue, with the calls in progress. */
  class DataMQ {
    const capacity: nat
    var contents: seq<bv8>
    var writer: Option<WriteCall>
    var reader: Option<ReadCall>

    function View(): Channel
      reads this
    {
      Channel(capacity, contents, writer, reader)
    }

    constructor (capacity: nat)
      ensures View() == Channel(capacity, [], None, None)
    {
      this.capacity, contents, writer, reader := capacity, [], None, None;
    }
  }

  /** The events were added by the other side of the queue. */
  ghost predicate Added(es: seq<Event>, es': seq<Event>, byReader: bool) {
    es <= es' && forall i :: |es| <= i < |es'| ==> if byReader then OfReader(es'[i]) else OfWriter(es'[i])
  }

  lemma {:induction false} AddedKeeps(es: seq<Event>, es': seq<Event>, byReader: bool)
    requires Added(es, es', byReader)
    ensures if byReader then Written(es') == Written(es) else Read(es') == Read(es)
    decreases |es'|
  {
    if |es'| > |es| {
      var rest := es'[..|es'| - 1];
      AddedKeeps(es, rest, byReader);
      assert OfReader(es'[|es'| - 1]) || OfWriter(es'[|es'| - 1]);
    } else {
      assert es == es';
    }
  }

  /** The other side makes those of the given steps that it can. */
  method OtherSide(mq: DataMQ, steps: seq<Event>, byReader: bool, ghost h: History) returns (ghost h': History)
    requires mq.View() == Now(h)
    modifies mq
    ensures mq.View() == Now(h') && Added(h.es, h'.es, byReader)
    ensures if byReader then mq.writer == old(mq.writer) else mq.reader == old(mq.reader)
  {
    h' := h;
    var i := 0;
    while i < |steps|
      invariant i <= |steps| && mq.View() == Now(h') && Added(h.es, h'.es, byReader)
      invariant if byReader then mq.writer == old(mq.writer) else mq.reader == old(mq.reader)
    {
      var e := steps[i];
      if (if byReader then OfReader(e) else OfWriter(e)) && Enabled(mq.View(), e) {
        var c := Step(mq.View(), e);
        mq.contents, mq.writer, mq.reader := c.contents, c.writer, c.reader;
        h' := Grow(h', e);
      }
      i := i + 1;
    }
  }

  /** A pass counts, and when it ends the call the turn is the cause. */
  predicate Follows(passes: nat, turn: Turn, passes': nat, ending: Option<Ending>) {
    passes' == passes + 1
    && (ending == Some(SessionLost) <==> !turn.ready)
    && (ending == Some(QueueFailed) ==> turn.fails)
  }

  /** A pass that does not end the call moves bytes or sleeps. */
  predicate Proceeds(moved: nat, sleeps: nat, moved': nat, sleeps': nat) {
    moved' > moved || (moved' == moved && sleeps' > sleeps)
  }

  lemma PassWriteFollows(w: WriteCall, room: nat, turn: Turn)
    requires WriterOk(w) && w.ending.None?
    ensures var v := PassWrite(w, room, turn.ready, turn.fails);
      Follows(w.passes, turn, v.passes, v.ending)
      && (v.ending.None? ==> Proceeds(w.written, w.sleeps, v.written, v.sleeps))
  {
  }

  lemma PassReadFollows(r: ReadCall, contents: seq<bv8>, turn: Turn)
    requires ReaderOk(r) && r.ending.None?
    ensures var v := PassRead(r, contents, turn.ready, turn.fails);
      Follows(r.passes, turn, v.passes, v.ending) && v.bytes == r.bytes
      && (v.ending.None? ==> Proceeds(|r.data|, r.sleeps, |v.data|, v.sleeps))
  {
  }

  /** The turns up to the one before last found the session ready; the last one is the cause. */
  ghost predicate LastTurnIs(env: nat -> Turn, passes: nat, ending: Option<Ending>) {
    (forall k :: 0 <= k < passes - 1 ==> env(k).ready)
    && (ending == Some(SessionLost) <==> passes > 0 && !env(passes - 1).ready)
    && (ending == Some(QueueFailed) ==> passes > 0 && env(passes - 1).fails)
  }

  ghost predicate AllReady(env: nat -> Turn, n: nat) {
    forall k :: 0 <= k < n ==> env(k).ready
  }

  lemma LastTurnNext(env: nat -> Turn, passes: nat, passes': nat, ending: Option<Ending>)
    requires AllReady(env, passes) && Follows(passes, env(passes), passes', ending)
    ensures LastTurnIs(env, passes', ending)
    ensures ending.None? ==> AllReady(env, passes')
  {
  }

  /** Only this call has written: it began, made passes, and returned `written`. */
  ghost predicate OneWrite(es: seq<Event>, es': seq<Event>, buffer: seq<bv8>, written: nat) {
    |es| + 2 <= |es'| && es <= es'
    && es'[|es|] == BeginWrite(buffer) && es'[|es'| - 1] == EndWrite(buffer, written)
    && forall i :: |es| < i < |es'| - 1 ==> es'[i].WritePass? || OfReader(es'[i])
  }

  ghost predicate InWrite(es: seq<Event>, es': seq<Event>, buffer: seq<bv8>) {
    |es| < |es'| && es <= es' && es'[|es|] == BeginWrite(buffer)
    && (forall i :: |es| < i < |es'| ==> es'[i].WritePass? || OfReader(es'[i]))
    && Written(es') == Written(es)
  }

  lemma InWriteNext(es: seq<Event>, es': seq<Event>, es'': seq<Event>, buffer: seq<bv8>, e: Event)
    requires InWrite(es, es', buffer) && Added(es', es'', true) && e.WritePass?
    ensures InWrite(es, es'' + [e], buffer)
  {
    AddedKeeps(es', es'', true);
    assert (es'' + [e])[..|es''|] == es'';
  }

  /** One pass of the writing loop. */
  method WriteOnce(mq: DataMQ, turn: Turn)
    requires Inv(mq.View()) && mq.writer.Some? && mq.writer.value.ending.None?
    modifies mq`contents, mq`writer
    ensures var w, v := old(mq.writer.value), PassWrite(old(mq.writer.value), Room(old(mq.View())), turn.ready, turn.fails);
      mq.writer == Some(v) && mq.contents == old(mq.contents) + w.buffer[w.written..v.written]
  {
    var w := mq.writer.value;
    var total, timeout, ending := w.written, TIMEOUT_MS - w.sleeps, w.ending;
    if !turn.ready {
      ending := Some(SessionLost);
    } else {
      var n := mq.capacity - |mq.contents|;
      if n != 0 {
        if n > |w.buffer| - total {
          n := |w.buffer| - total;
        }
        if turn.fails {
          ending := Some(QueueFailed);
        } else {
          mq.contents := mq.contents + w.buffer[total..total + n];
          total := total + n;
          ending := if total < |w.buffer| then None else Some(Complete);
        }
      } else if timeout >= POLL_MS {
        timeout := timeout - POLL_MS;
      } else {
        ending := Some(TimedOut);
      }
    }
    mq.writer := Some(WriteCall(w.buffer, total, TIMEOUT_MS - timeout, w.passes + 1, ending));
  }

  /** The other side's steps, then one pass. */
  method WriteTurn(mq: DataMQ, turn: Turn, ghost es: seq<Event>, ghost h: History) returns (ghost h': History)
    requires mq.View() == Now(h) && mq.writer.Some? && mq.writer.value.ending.None?
    requires WriterOk(mq.writer.value) && InWrite(es, h.es, mq.writer.value.buffer)
    modifies mq
    ensures mq.View() == Now(h') && mq.writer.Some? && WriterOk(mq.writer.value)
    ensures var w, v := old(mq.writer.value), mq.writer.value;
      v.buffer == w.buffer && Follows(w.passes, turn, v.passes, v.ending)
      && (v.ending.None? ==> Proceeds(w.written, w.sleeps, v.written, v.sleeps))
    ensures InWrite(es, h'.es, mq.writer.value.buffer)
  {
    ghost var w := mq.writer.value;
    ghost var g := OtherSide(mq, turn.peer, true, h);
    RunKeepsInv(g.cs, g.es, |g.es|);
    PassWriteOk(w, Room(mq.View()), turn.ready, turn.fails);
    PassWriteFollows(w, Room(mq.View()), turn);
    InWriteNext(es, h.es, g.es, w.buffer, WritePass(turn.ready, turn.fails));
    WriteOnce(mq, turn);
    h' := Grow(g, WritePass(turn.ready, turn.fails));
  }

  lemma WriteBegins(h: History, buffer: seq<bv8>) returns (h': History)
    requires Now(h).writer.None?
    ensures InWrite(h.es, h'.es, buffer) && Now(h') == Now(h).(writer := Some(NewWrite(buffer)))
  {
    h' := Grow(h, BeginWrite(buffer));
    assert h'.es[..|h.es|] == h.es;
  }

  lemma WriteEnds(es: seq<Event>, h: History, w: WriteCall) returns (h': History)
    requires InWrite(es, h.es, w.buffer) && Now(h).writer == Some(w) && w.ending.Some? && WriterOk(w)
    ensures OneWrite(es, h'.es, w.buffer, w.written) && Now(h') == Now(h).(writer := None)
    ensures Written(h'.es) == Written(es) + w.buffer[..w.written]
  {
    h' := Grow(h, EndWrite(w.buffer, w.written));
    assert h'.es[..|h.es|] == h.es;
  }

  /** Puts exactly the reported prefix of the buffer in the queue, in order, while the other side
      reads; sleeps at most 1000 times; and the last pass alone decides why it ends. */
  method OutWritePcmData(mq: DataMQ, buffer: seq<bv8>, env: nat -> Turn, ghost h: History)
    returns (written: nat, w: WriteCall, ghost h': History)
    requires mq.View() == Now(h) && mq.writer.None?
    modifies mq
    ensures mq.View() == Now(h') && mq.writer.None? && OneWrite(h.es, h'.es, buffer, written)
    ensures written <= |buffer| && Written(h'.es) == Written(h.es) + buffer[..written]
    ensures w.buffer == buffer && w.written == written && w.ending.Some? && WriterOk(w)
    ensures LastTurnIs(env, w.passes, w.ending)
  {
    h' := WriteBegins(h, buffer);
    w := NewWrite(buffer);
    mq.writer := Some(w);
    while w.ending.None?
      invariant mq.View() == Now(h') && mq.writer == Some(w) && w.buffer == buffer && WriterOk(w)
      invariant InWrite(h.es, h'.es, buffer) && LastTurnIs(env, w.passes, w.ending)
      invariant w.ending.None? ==> AllReady(env, w.passes)
      decreases w.ending.None?, |buffer| - w.written, TIMEOUT_MS - w.sleeps
    {
      h' := WriteTurn(mq, env(w.passes), h.es, h');
      LastTurnNext(env, w.passes, mq.writer.value.passes, mq.writer.value.ending);
      w := mq.writer.value;
    }
    mq.writer := None;
    written := w.written;
    h' := WriteEnds(h.es, h', w);
  }

  // The reading side.

  ghost predicate OneRead(es: seq<Event>, es': seq<Event>, bytes: nat, data: seq<bv8>) {
    |es| + 2 <= |es'| && es <= es'
    && es'[|es|] == BeginRead(bytes) && es'[|es'| - 1] == EndRead(data)
    && forall i :: |es| < i < |es'| - 1 ==> es'[i].ReadPass? || OfWriter(es'[i])
  }

  ghost predicate InRead(es: seq<Event>, es': seq<Event>, bytes: nat) {
    |es| < |es'| && es <= es' && es'[|es|] == BeginRead(bytes)
    && (forall i :: |es| < i < |es'| ==> es'[i].ReadPass? || OfWriter(es'[i]))
    && Read(es') == Read(es)
  }

  lemma InReadNext(es: seq<Event>, es': seq<Event>, es'': seq<Event>, bytes: nat, e: Event)
    requires InRead(es, es', bytes) && Added(es', es'', false) && e.ReadPass?
    ensures InRead(es, es'' + [e], bytes)
  {
    AddedKeeps(es', es'', false);
    assert (es'' + [e])[..|es''|] == es'';
  }

  /** One pass of the reading loop. */
  method ReadOnce(mq: DataMQ, turn: Turn)
    requires Inv(mq.View()) && mq.reader.Some? && mq.reader.value.ending.None?
    modifies mq`contents, mq`reader
    ensures mq.reader == Some(PassRead(old(mq.reader.value), old(mq.contents), turn.ready, turn.fails))
    ensures mq.contents == old(mq.contents)[Taken(old(mq.reader.value), old(mq.contents), turn.ready, turn.fails)..]
  {
    var r := mq.reader.value;
    var data, timeout, ending := r.data, TIMEOUT_MS - r.sleeps, r.ending;
    if !turn.ready {
      ending := Some(SessionLost);
    } else {
      var n := |mq.contents|;
      if n != 0 {
        if n > r.bytes - |data| {
          n := r.bytes - |data|;
        }
        if turn.fails {
          ending := Some(QueueFailed);
        } else {
          assert n == Taken(r, mq.contents, turn.ready, turn.fails);
          data := data + mq.contents[..n];
          mq.contents := mq.contents[n..];
          ending := if |data| < r.bytes then None else Some(Complete);
        }
      } else if timeout >= POLL_MS {
        timeout := timeout - POLL_MS;
      } else {
        ending := Some(TimedOut);
      }
    }
    mq.reader := Some(ReadCall(r.bytes, data, TIMEOUT_MS - timeout, r.passes + 1, ending));
  }

  method ReadTurn(mq: DataMQ, turn: Turn, ghost es: seq<Event>, ghost h: History) returns (ghost h': History)
    requires mq.View() == Now(h) && mq.reader.Some? && mq.reader.value.ending.None?
    requires ReaderOk(mq.reader.value) && InRead(es, h.es, mq.reader.value.bytes)
    modifies mq
    ensures mq.View() == Now(h') && mq.reader.Some? && ReaderOk(mq.reader.value)
    ensures var r, v := old(mq.reader.value), mq.reader.value;
      v.bytes == r.bytes && Follows(r.passes, turn, v.passes, v.ending)
      && (v.ending.None? ==> Proceeds(|r.data|, r.sleeps, |v.data|, v.sleeps))
    ensures InRead(es, h'.es, mq.reader.value.bytes)
  {
    ghost var r := mq.reader.value;
    ghost var g := OtherSide(mq, turn.peer, false, h);
    RunKeepsInv(g.cs, g.es, |g.es|);
    PassReadOk(r, mq.contents, turn.ready, turn.fails);
    PassReadFollows(r, mq.contents, turn);
    InReadNext(es, h.es, g.es, r.bytes, ReadPass(turn.ready, turn.fails));
    ReadOnce(mq, turn);
    h' := Grow(g, ReadPass(turn.ready, turn.fails));
  }

  lemma ReadBegins(h: History, bytes: nat) returns (h': History)
    requires Now(h).reader.None?
    ensures InRead(h.es, h'.es, bytes) && Now(h') == Now(h).(reader := Some(NewRead(bytes)))
  {
    h' := Grow(h, BeginRead(bytes));
    assert h'.es[..|h.es|] == h.es;
  }

  lemma ReadEnds(es: seq<Event>, h: History, r: ReadCall) returns (h': History)
    requires InRead(es, h.es, r.bytes) && Now(h).reader == Some(r) && r.ending.Some?
    ensures OneRead(es, h'.es, r.bytes, r.data) && Now(h') == Now(h).(reader := None)
    ensures Read(h'.es) == Read(es) + r.data
  {
    h' := Grow(h, EndRead(r.data));
    assert h'.es[..|h.es|] == h.es;
  }

  /** Gives back exactly the next bytes of the queue, in order, while the other side writes; sleeps
      at most 1000 times; and the last pass alone decides why it ends. */
  method InReadPcmData(mq: DataMQ, bytes: nat, env: nat -> Turn, ghost h: History)
    returns (data: seq<bv8>, r: ReadCall, ghost h': History)
    requires mq.View() == Now(h) && mq.reader.None?
    modifies mq
    ensures mq.View() == Now(h') && mq.reader.None? && OneRead(h.es, h'.es, bytes, data)
    ensures |data| <= bytes && Read(h'.es) == Read(h.es) + data
    ensures r.bytes == bytes && r.data == data && r.ending.Some? && ReaderOk(r)
    ensures LastTurnIs(env, r.passes, r.ending)
  {
    h' := ReadBegins(h, bytes);
    r := NewRead(bytes);
    mq.reader := Some(r);
    while r.ending.None?
      invariant mq.View() == Now(h') && mq.reader == Some(r) && r.bytes == bytes && ReaderOk(r)
      invariant InRead(h.es, h'.es, bytes) && LastTurnIs(env, r.passes, r.ending)
      invariant r.ending.None? ==> AllReady(env, r.passes)
      decreases r.ending.None?, bytes - |r.data|, TIMEOUT_MS - r.sleeps
    {
      h' := ReadTurn(mq, env(r.passes), h.es, h');
      LastTurnNext(env, r.passes, mq.reader.value.passes, mq.reader.value.ending);
      r := mq.reader.value;
    }
    mq.reader := None;
    data := r.data;
    h' := ReadEnds(h.es, h', r);
  }
}
