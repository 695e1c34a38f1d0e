/**
 The JSONL event reader: bytes arrive in chunks of any size, lines are cut at newlines, and each line is decoded and
 handed to a handler until the first error. Decoding and the handler are parameters.
 */
module EventReaders {
  import opened Primitives

  type Byte = b: int | 0 <= b < 256
  type Bytes = seq<Byte>

  const MAX_LINE: nat := 1024 * 1024
  const MAX_OUTPUT: nat := 64 * 1024 * 1024
  const NEWLINE: Byte := 10
  const RETURN: Byte := 13

  datatype Fault = LineTooLong | InvalidJson | InvalidShape | InvalidThread | HandlerFailed | OutputTooLong

  datatype Event = Event(kind: string, threadId: Option<string>, usage: Option<int>)

  datatype Decoded = Malformed | Shapeless | Decoded(event: Event)

  /** What lines decode to, and whether the handler fails on the last of the events delivered to it. */
  datatype World = World(decode: Bytes -> Decoded, fails: seq<Event> -> bool)

  /** `fault` is the error reported; `first` the earliest value it took. */
  datatype Reader = Reader(
    threadId: Option<string>, usage: Option<int>, completed: bool, turnFailed: bool,
    delivered: seq<Event>, fault: Option<Fault>, first: Option<Fault>)

  const INITIAL := Reader(None, None, false, false, [], None, None)

  function Report(r: Reader, f: Fault): Reader {
    r.(fault := Some(f), first := if r.first.Some? then r.first else Some(f))
  }

  function Trimmed(line: Bytes): Bytes {
    if line != [] && line[|line| - 1] == RETURN then line[..|line| - 1] else line
  }

  predicate ThreadFits(r: Reader, e: Event) {
    e.threadId.Some? && e.threadId.value != "" && (r.threadId.Some? ==> r.threadId == e.threadId)
  }

  function Noted(r: Reader, e: Event): Reader {
    if e.kind == "thread.started" then r.(threadId := e.threadId)
    else if e.kind == "turn.completed" then r.(completed := true, usage := if e.usage.Some? then e.usage else r.usage)
    else if e.kind == "turn.failed" then r.(turnFailed := true)
    else r
  }

  function Deliver(w: World, r: Reader, e: Event): Reader {
    var next := r.(delivered := r.delivered + [e]);
    if w.fails(next.delivered) then Report(next, HandlerFailed) else next
  }

  function AfterLine(w: World, r: Reader, line: Bytes): Reader {
    if r.fault.Some? then r
    else if |line| > MAX_LINE then Report(r, LineTooLong)
    else
      match w.decode(Trimmed(line))
      case Malformed => Report(r, InvalidJson)
      case Shapeless => Report(r, InvalidShape)
      case Decoded(e) =>
        if e.kind == "thread.started" && !ThreadFits(r, e) then Report(r, InvalidThread)
        else Deliver(w, Noted(r, e), e)
  }

  function AfterLines(w: World, r: Reader, lines: seq<Bytes>): Reader {
    if lines == [] then r
    else AfterLine(w, AfterLines(w, r, lines[..|lines| - 1]), lines[|lines| - 1])
  }

  // ---------------------------------------------------------------- lines

  /** The index of the first newline, or the length. */
  function FirstNewline(s: Bytes): (i: nat)
    ensures i <= |s| && (i < |s| ==> s[i] == NEWLINE)
  {
    if s == [] || s[0] == NEWLINE then 0 else 1 + FirstNewline(s[1..])
  }

  /** The lines that a newline ends. */
  function CompleteLines(s: Bytes): seq<Bytes> {
    var i := FirstNewline(s);
    if i == |s| then [] else [s[..i]] + CompleteLines(s[i + 1..])
  }

  /** What follows the last newline. */
  function Remainder(s: Bytes): Bytes {
    var i := FirstNewline(s);
    if i == |s| then s else Remainder(s[i + 1..])
  }

  /** The whole stream split at newlines, with a nonempty remainder as its last line. */
  function Lines(s: Bytes): seq<Bytes> {
    CompleteLines(s) + if Remainder(s) == [] then [] else [Remainder(s)]
  }

  /** What the reader owes for a stream, however it arrives. */
  function Expected(w: World, s: Bytes): Reader {
    AfterLines(w, INITIAL, Lines(s))
  }

  // ---------------------------------------------------------------- chunks

  datatype Buffered = Buffered(reader: Reader, total: nat, pending: Bytes)

  const EMPTY := Buffered(INITIAL, 0, [])

  function Allowed(total: nat, chunk: Bytes): (n: nat)
    ensures n <= |chunk|
  {
    if total >= MAX_OUTPUT then 0 else if |chunk| < MAX_OUTPUT - total then |chunk| else MAX_OUTPUT - total
  }

  function Feed(w: World, b: Buffered, chunk: Bytes): Buffered {
    var allowed := Allowed(b.total, chunk);
    var reader := if allowed < |chunk| && b.reader.fault.None? then Report(b.reader, OutputTooLong) else b.reader;
    if reader.fault.Some? || allowed == 0 then Buffered(reader, b.total + allowed, b.pending)
    else
      var combined := b.pending + chunk[..allowed];
      var processed := AfterLines(w, reader, CompleteLines(combined));
      var pending := Remainder(combined);
      Buffered(if |pending| > MAX_LINE then Report(processed, LineTooLong) else processed, b.total + allowed, pending)
  }

  function FeedAll(w: World, chunks: seq<Bytes>): Buffered {
    if chunks == [] then EMPTY else Feed(w, FeedAll(w, chunks[..|chunks| - 1]), chunks[|chunks| - 1])
  }

  function Finish(w: World, b: Buffered): Reader {
    if |b.pending| > 0 && b.reader.fault.None? then AfterLine(w, b.reader, b.pending) else b.reader
  }

  /** The specification of reading a stream that arrives as these chunks. */
  function Capture(w: World, chunks: seq<Bytes>): Reader {
    Finish(w, FeedAll(w, chunks))
  }

  function Concat(chunks: seq<Bytes>): Bytes {
    if chunks == [] then [] else Concat(chunks[..|chunks| - 1]) + chunks[|chunks| - 1]
  }

  // ---------------------------------------------------------------- the reader of the source

  lemma FirstLine(a: Bytes, i: nat, rest: Bytes)
    requires i < |a| && FirstNewline(a) == i && rest == a[i + 1..]
    ensures CompleteLines(a) == [a[..i]] + CompleteLines(rest) && Remainder(a) == Remainder(rest)
  {
  }

  lemma Regrouped(x: seq<Bytes>, y: seq<Bytes>, z: seq<Bytes>)
    ensures x + (y + z) == (x + y) + z
  {
  }

  /** A stream cut anywhere: its lines are those before the cut, then those of the remainder with the rest. */
  lemma {:induction false} SplitAppend(a: Bytes, b: Bytes)
    ensures CompleteLines(a + b) == CompleteLines(a) + CompleteLines(Remainder(a) + b)
    ensures Remainder(a + b) == Remainder(Remainder(a) + b)
  {
    var i := FirstNewline(a);
    if i == |a| {
      assert CompleteLines(a) == [] && Remainder(a) == a;
    } else {
      var rest := a[i + 1..];
      SplitAppend(rest, b);
      FirstLine(a, i, rest);
      FirstLineAppend(a, b);
      Regrouped([a[..i]], CompleteLines(rest), CompleteLines(Remainder(a) + b));
    }
  }

  /** The first line of a stream that has one does not depend on what follows it. */
  lemma FirstLineAppend(a: Bytes, b: Bytes)
    requires FirstNewline(a) < |a|
    ensures CompleteLines(a + b) == [a[..FirstNewline(a)]] + CompleteLines(a[FirstNewline(a) + 1..] + b)
    ensures Remainder(a + b) == Remainder(a[FirstNewline(a) + 1..] + b)
  {
    var i := FirstNewline(a);
    FirstNewlineAppend(a, b);
    assert (a + b)[..i] == a[..i] && (a + b)[i + 1..] == a[i + 1..] + b;
  }

  lemma {:induction false} FirstNewlineAppend(a: Bytes, b: Bytes)
    requires FirstNewline(a) < |a|
    ensures FirstNewline(a + b) == FirstNewline(a)
  {
    if a[0] != NEWLINE {
      assert (a + b)[1..] == a[1..] + b;
      FirstNewlineAppend(a[1..], b);
    }
  }

  lemma {:induction false} RemainderHasNoNewline(s: Bytes)
    ensures FirstNewline(Remainder(s)) == |Remainder(s)|
  {
    if FirstNewline(s) < |s| {
      RemainderHasNoNewline(s[FirstNewline(s) + 1..]);
    }
  }

  lemma {:induction false} NoNewlineAppend(a: Bytes, c: Byte)
    requires FirstNewline(a) == |a|
    ensures FirstNewline(a + [c]) == if c == NEWLINE then |a| else |a| + 1
  {
    if a == [] {
      assert a + [c] == [c];
    } else {
      assert (a + [c])[1..] == a[1..] + [c];
      NoNewlineAppend(a[1..], c);
    }
  }

  /** One more byte either ends a line or extends the remainder. */
  lemma OneMore(s: Bytes, c: Byte)
    ensures c == NEWLINE ==> CompleteLines(s + [c]) == CompleteLines(s) + [Remainder(s)] && Remainder(s + [c]) == []
    ensures c != NEWLINE ==> CompleteLines(s + [c]) == CompleteLines(s) && Remainder(s + [c]) == Remainder(s) + [c]
  {
    var r := Remainder(s);
    SplitAppend(s, [c]);
    RemainderHasNoNewline(s);
    NoNewlineAppend(r, c);
    if c == NEWLINE {
      assert (r + [c])[..|r|] == r && (r + [c])[|r| + 1..] == [];
      assert CompleteLines([]) == [] && Remainder([]) == [];
    } else {
      assert CompleteLines(s) + [] == CompleteLines(s);
    }
  }

  /** The same in the middle of a scan whose line began at `start`. */
  lemma NextByte(bytes: Bytes, start: nat, i: nat)
    requires start <= i < |bytes| && bytes[start..i] == Remainder(bytes[..i])
    ensures bytes[i] == NEWLINE ==>
              && CompleteLines(bytes[..i + 1]) == CompleteLines(bytes[..i]) + [bytes[start..i]]
              && Remainder(bytes[..i + 1]) == []
    ensures bytes[i] != NEWLINE ==>
              && CompleteLines(bytes[..i + 1]) == CompleteLines(bytes[..i])
              && Remainder(bytes[..i + 1]) == bytes[start..i + 1]
  {
    OneMore(bytes[..i], bytes[i]);
    assert bytes[..i + 1] == bytes[..i] + [bytes[i]];
  }

  lemma OneMoreLine(w: World, r: Reader, lines: seq<Bytes>, line: Bytes)
    ensures AfterLines(w, r, lines + [line]) == AfterLine(w, AfterLines(w, r, lines), line)
  {
    assert (lines + [line])[..|lines|] == lines;
  }

  class EventReader {
    const world: World
    var threadId: Option<string>
    var usage: Option<int>
    var completed: bool
    var turnFailed: bool
    var delivered: seq<Event>
    var outputError: Option<Fault>
    ghost var firstError: Option<Fault>

    constructor (world: World)
      ensures this.world == world && State() == INITIAL
    {
      this.world := world;
      threadId, usage, completed, turnFailed := None, None, false, false;
      delivered, outputError, firstError := [], None, None;
    }

    ghost function State(): Reader
      reads this
    {
      Reader(threadId, usage, completed, turnFailed, delivered, outputError, firstError)
    }

    method Fail(fault: Fault)
      modifies this
      ensures State() == Report(old(State()), fault)
    {
      outputError := Some(fault);
      if firstError.None? {
        firstError := Some(fault);
      }
    }

    method ProcessLine(line: Bytes)
      modifies this
      ensures State() == AfterLine(world, old(State()), line)
    {
      if outputError.Some? {
        return;
      }
      if |line| > MAX_LINE {
        Fail(LineTooLong);
        return;
      }
      var decoded := world.decode(if |line| > 0 && line[|line| - 1] == RETURN then line[..|line| - 1] else line);
      match decoded
      case Malformed =>
        Fail(InvalidJson);
      case Shapeless =>
        Fail(InvalidShape);
      case Decoded(event) =>
        if event.kind == "thread.started" {
          if event.threadId.None? || event.threadId.value == "" || (threadId.Some? && threadId != event.threadId) {
            Fail(InvalidThread);
            return;
          }
          threadId := event.threadId;
        } else if event.kind == "turn.completed" {
          completed := true;
          usage := if event.usage.Some? then event.usage else usage;
        } else if event.kind == "turn.failed" {
          turnFailed := true;
        }
        delivered := delivered + [event];
        if world.fails(delivered) {
          Fail(HandlerFailed);
        }
    }

    /** Scans the combined bytes once, processing each line as its newline is met; returns what is left over. */
    method ProcessLines(combined: Bytes) returns (pending: Bytes)
      modifies this
      ensures State() == AfterLines(world, old(State()), CompleteLines(combined))
      ensures pending == Remainder(combined)
    {
      var start := 0;
      for index := 0 to |combined|
        invariant start <= index && combined[start..index] == Remainder(combined[..index])
        invariant State() == AfterLines(world, old(State()), CompleteLines(combined[..index]))
      {
        NextByte(combined, start, index);
        if combined[index] == NEWLINE {
          OneMoreLine(world, old(State()), CompleteLines(combined[..index]), combined[start..index]);
          ProcessLine(combined[start..index]);
          start := index + 1;
        }
      }
      assert combined[..|combined|] == combined;
      pending := combined[start..];
    }

    method CaptureEvents(chunks: seq<Bytes>)
      requires State() == INITIAL
      modifies this
      ensures State() == Capture(world, chunks)
    {
      var total: nat, pending: Bytes := 0, [];
      for i := 0 to |chunks|
        invariant Buffered(State(), total, pending) == FeedAll(world, chunks[..i])
      {
        assert chunks[..i + 1][..i] == chunks[..i];
        var chunk := chunks[i];
        var allowed := Allowed(total, chunk);
        total := total + allowed;
        if allowed < |chunk| && outputError.None? {
          Fail(OutputTooLong);
        }
        if outputError.None? && allowed > 0 {
          pending := ProcessLines(pending + chunk[..allowed]);
          if |pending| > MAX_LINE {
            Fail(LineTooLong);
          }
        }
      }
      assert chunks[..|chunks|] == chunks;
      if |pending| > 0 && outputError.None? {
        ProcessLine(pending);
      }
    }
  }
}
