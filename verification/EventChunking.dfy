/**
 Within the output cap, what the event reader delivers and the first error it meets do not depend on how the stream was
 cut into chunks; the error it reports can, and so can the events beyond the cap: exactly when is stated here.
 */
module EventChunking {
  import opened Primitives
  import opened EventReaders

  // ---------------------------------------------------------------- lines in order

  lemma {:induction false} AfterAppend(w: World, r: Reader, a: seq<Bytes>, b: seq<Bytes>)
    ensures AfterLines(w, r, a + b) == AfterLines(w, AfterLines(w, r, a), b)
  {
    if b == [] {
      assert a + b == a;
    } else {
      var n := |b| - 1;
      AfterAppend(w, r, a, b[..n]);
      assert (a + b)[..|a| + n] == a + b[..n];
    }
  }

  /** After an error nothing changes. */
  lemma {:induction false} AfterFault(w: World, r: Reader, lines: seq<Bytes>)
    requires r.fault.Some?
    ensures AfterLines(w, r, lines) == r
  {
    if lines != [] {
      AfterFault(w, r, lines[..|lines| - 1]);
    }
  }

  lemma {:induction false} FirstIsFault(w: World, r: Reader, lines: seq<Bytes>)
    requires r.first == r.fault
    ensures AfterLines(w, r, lines).first == AfterLines(w, r, lines).fault
  {
    if lines != [] {
      FirstIsFault(w, r, lines[..|lines| - 1]);
    }
  }

  lemma AfterOne(w: World, r: Reader, line: Bytes)
    ensures AfterLines(w, r, [line]) == AfterLine(w, r, line)
  {
    var one: seq<Bytes> := [line];
    assert one[..0] == [];
  }

  /** A line longer than the limit is the error, whatever it holds. */
  lemma OverlongFirst(w: World, r: Reader, lines: seq<Bytes>)
    requires r.fault.None? && lines != [] && |lines[0]| > MAX_LINE
    ensures AfterLines(w, r, lines) == Report(r, LineTooLong)
  {
    assert lines == [lines[0]] + lines[1..];
    AfterAppend(w, r, [lines[0]], lines[1..]);
    AfterOne(w, r, lines[0]);
    AfterFault(w, Report(r, LineTooLong), lines[1..]);
  }

  // ---------------------------------------------------------------- what a prefix decides

  function Whole(w: World, s: Bytes): Reader {
    AfterLines(w, INITIAL, CompleteLines(s))
  }

  /** What is settled once these bytes have arrived: an unfinished line that is already too long counts. */
  function Outlook(w: World, s: Bytes): Reader {
    var r := Whole(w, s);
    if r.fault.None? && |Remainder(s)| > MAX_LINE then Report(r, LineTooLong) else r
  }

  lemma WholeAppend(w: World, s: Bytes, c: Bytes)
    ensures Whole(w, s + c) == AfterLines(w, Whole(w, s), CompleteLines(Remainder(s) + c))
    ensures Remainder(s + c) == Remainder(Remainder(s) + c)
  {
    SplitAppend(s, c);
    AfterAppend(w, INITIAL, CompleteLines(s), CompleteLines(Remainder(s) + c));
  }

  lemma {:induction false} NewlineFreeAppend(a: Bytes, b: Bytes)
    requires FirstNewline(a) == |a|
    ensures FirstNewline(a + b) == |a| + FirstNewline(b)
  {
    if a == [] {
      assert a + b == b;
    } else {
      assert (a + b)[1..] == a[1..] + b;
      NewlineFreeAppend(a[1..], b);
    }
  }

  /** The first line that continues a remainder extends it. */
  lemma ContinuedLine(s: Bytes, c: Bytes)
    ensures var lines := CompleteLines(Remainder(s) + c);
            if lines == [] then Remainder(s + c) == Remainder(s) + c
            else Remainder(s) <= lines[0]
  {
    var r := Remainder(s);
    RemainderHasNoNewline(s);
    SplitAppend(s, c);
    var i := FirstNewline(r + c);
    NewlineFreeAppend(r, c);
    if i < |r + c| {
      assert (r + c)[..|r|] == r;
      assert ((r + c)[..i])[..|r|] == r;
    }
  }

  /** Once settled, more bytes change nothing. */
  lemma OutlookStays(w: World, s: Bytes, c: Bytes)
    requires Outlook(w, s).fault.Some?
    ensures Outlook(w, s + c) == Outlook(w, s)
  {
    var more := CompleteLines(Remainder(s) + c);
    WholeAppend(w, s, c);
    if Whole(w, s).fault.Some? {
      AfterFault(w, Whole(w, s), more);
    } else {
      ContinuedLine(s, c);
      if more != [] {
        OverlongFirst(w, Whole(w, s), more);
      }
    }
  }

  lemma ExpectedIs(w: World, s: Bytes)
    ensures Expected(w, s) == if Remainder(s) == [] then Whole(w, s) else AfterLine(w, Whole(w, s), Remainder(s))
    ensures Outlook(w, s).fault.Some? ==> Expected(w, s) == Outlook(w, s)
  {
    if Remainder(s) == [] {
      assert CompleteLines(s) + [] == CompleteLines(s);
    } else {
      AfterAppend(w, INITIAL, CompleteLines(s), [Remainder(s)]);
      AfterOne(w, Whole(w, s), Remainder(s));
    }
  }

  // ---------------------------------------------------------------- one chunk

  /** There is a line too long behind an earlier error. */
  predicate LaterOverlong(w: World, s: Bytes) {
    exists j | 0 <= j < |Lines(s)| :: OverlongAt(w, s, j)
  }

  predicate OverlongAt(w: World, s: Bytes, j: nat)
    requires j < |Lines(s)|
  {
    |Lines(s)[j]| > MAX_LINE && AfterLines(w, INITIAL, Lines(s)[..j]).fault.Some?
  }

  /** A line keeps its place, and can only grow, as bytes arrive. */
  lemma LineGrows(s: Bytes, c: Bytes, j: nat)
    requires j < |Lines(s)|
    ensures j < |Lines(s + c)| && Lines(s)[j] <= Lines(s + c)[j] && Lines(s)[..j] == Lines(s + c)[..j]
  {
    SplitAppend(s, c);
    var n := |CompleteLines(s)|;
    if j < n {
      assert Lines(s)[..j] == CompleteLines(s)[..j] == Lines(s + c)[..j];
    } else {
      ContinuedLine(s, c);
      assert Lines(s)[..j] == CompleteLines(s) == Lines(s + c)[..j];
    }
  }

  lemma LaterOverlongStays(w: World, s: Bytes, c: Bytes)
    requires LaterOverlong(w, s)
    ensures LaterOverlong(w, s + c)
  {
    var j: nat :| j < |Lines(s)| && OverlongAt(w, s, j);
    LineGrows(s, c, j);
    assert OverlongAt(w, s + c, j);
  }

  /** An unfinished line that is too long, when a finished one was wrong already. */
  lemma OverlongRemainder(w: World, s: Bytes)
    requires Whole(w, s).fault.Some? && |Remainder(s)| > MAX_LINE
    ensures LaterOverlong(w, s)
  {
    var j := |CompleteLines(s)|;
    assert Lines(s)[..j] == CompleteLines(s);
    assert OverlongAt(w, s, j);
  }

  /** The reader with the first error in place of the reported one. */
  function AtFirst(r: Reader): Reader {
    r.(fault := r.first)
  }

  /** The reader agrees with what these bytes settle, except that it may report a later line's length. */
  ghost predicate Tracks(w: World, b: Buffered, s: Bytes) {
    && b.total == |s|
    && AtFirst(b.reader) == Outlook(w, s)
    && (b.reader.fault.None? <==> b.reader.first.None?)
    && (b.reader.fault.None? ==> b.pending == Remainder(s))
    && (b.reader.fault == b.reader.first || (b.reader.fault == Some(LineTooLong) && LaterOverlong(w, s)))
  }

  lemma FeedTracks(w: World, b: Buffered, s: Bytes, c: Bytes)
    requires Tracks(w, b, s) && |s + c| <= MAX_OUTPUT
    ensures Tracks(w, Feed(w, b, c), s + c)
  {
    assert Allowed(b.total, c) == |c| && c[..|c|] == c;
    if b.reader.fault.Some? {
      OutlookStays(w, s, c);
      if LaterOverlong(w, s) {
        LaterOverlongStays(w, s, c);
      }
    } else if c == [] {
      assert s + c == s;
    } else {
      WholeAppend(w, s, c);
      FirstIsFault(w, INITIAL, CompleteLines(s + c));
      if Whole(w, s + c).fault.Some? && |Remainder(s + c)| > MAX_LINE {
        OverlongRemainder(w, s + c);
      }
    }
  }

  lemma {:induction false} FeedAllTracks(w: World, chunks: seq<Bytes>)
    requires |Concat(chunks)| <= MAX_OUTPUT
    ensures Tracks(w, FeedAll(w, chunks), Concat(chunks))
  {
    if chunks == [] {
      assert CompleteLines([]) == [] && Remainder([]) == [];
    } else {
      var n := |chunks| - 1;
      FeedAllTracks(w, chunks[..n]);
      FeedTracks(w, FeedAll(w, chunks[..n]), Concat(chunks[..n]), chunks[n]);
    }
  }

  // ---------------------------------------------------------------- the results

  /**
   For every way of cutting a stream within the cap into chunks, the reader delivers the same events, learns the same
   thread, usage and turn outcome, and meets the same first error: those of splitting the whole stream at newlines.
   */
  lemma ChunkingIsIrrelevant(w: World, chunks: seq<Bytes>)
    requires |Concat(chunks)| <= MAX_OUTPUT
    ensures var r, e := Capture(w, chunks), Expected(w, Concat(chunks));
            && AtFirst(r) == e && e.first == e.fault
            && (r.fault.None? <==> e.fault.None?)
            && (r.fault == e.fault || (r.fault == Some(LineTooLong) && LaterOverlong(w, Concat(chunks))))
  {
    var s, b := Concat(chunks), FeedAll(w, chunks);
    FeedAllTracks(w, chunks);
    ExpectedIs(w, s);
    FirstIsFault(w, INITIAL, Lines(s));
  }

  /** Cutting inside line j leaves the lines before it, and what of it has arrived. */
  lemma {:induction false} CutInside(s: Bytes, j: nat, m: nat) returns (p: nat)
    requires j < |Lines(s)| && m <= |Lines(s)[j]|
    ensures p <= |s| && CompleteLines(s[..p]) == Lines(s)[..j] && Remainder(s[..p]) == Lines(s)[j][..m]
    decreases |s|
  {
    if j == |CompleteLines(s)| && m == |Remainder(s)| {
      p := |s|;
      assert s[..p] == s;
    } else {
      SomeLine(s, j);
      var init, c := s[..|s| - 1], s[|s| - 1];
      assert s == init + [c];
      if j < |Lines(init)| && m <= |Lines(init)[j]| {
        LineGrows(init, [c], j);
        p := CutInside(init, j, m);
        assert s[..p] == init[..p];
      } else {
        p := |s| - 1;
        LastLine(init, c, j, m);
      }
    }
  }

  lemma SomeLine(s: Bytes, j: nat)
    requires j < |Lines(s)|
    ensures s != []
  {
    assert CompleteLines([]) == [] && Remainder([]) == [];
  }

  /** A line that the last byte has just begun. */
  lemma LastLine(init: Bytes, c: Byte, j: nat, m: nat)
    requires j < |Lines(init + [c])| && m <= |Lines(init + [c])[j]|
    requires !(j < |Lines(init)| && m <= |Lines(init)[j]|)
    requires !(j == |CompleteLines(init + [c])| && m == |Remainder(init + [c])|)
    ensures CompleteLines(init) == Lines(init + [c])[..j] && Remainder(init) == Lines(init + [c])[j][..m]
  {
    OneMore(init, c);
  }

  lemma TwoChunks(w: World, a: Bytes, b: Bytes)
    ensures Concat([a]) == a && Concat([a, b]) == a + b
    ensures FeedAll(w, [a]) == Feed(w, EMPTY, a) && FeedAll(w, [a, b]) == Feed(w, Feed(w, EMPTY, a), b)
  {
    var none: seq<Bytes> := [];
    var one: seq<Bytes> := [a];
    var two: seq<Bytes> := [a, b];
    assert one[..0] == none && two[..1] == one;
    assert Concat(none) + a == a;
  }

  /** A whole chunk into an empty reader. */
  lemma FeedFirst(w: World, c: Bytes)
    requires 0 < |c| <= MAX_OUTPUT
    ensures Feed(w, EMPTY, c).reader ==
            if |Remainder(c)| > MAX_LINE then Report(Whole(w, c), LineTooLong) else Whole(w, c)
  {
    assert c[..|c|] == c && EMPTY.pending + c == c;
  }

  lemma FeedFaulty(w: World, b: Buffered, c: Bytes)
    requires b.reader.fault.Some?
    ensures Feed(w, b, c).reader == b.reader && Finish(w, Feed(w, b, c)) == b.reader
  {
  }

  /** Cutting just inside a line too long makes the reader report that line instead of the earlier error. */
  lemma OverlongChunks(w: World, s: Bytes) returns (chunks: seq<Bytes>)
    requires |s| <= MAX_OUTPUT && LaterOverlong(w, s)
    ensures Concat(chunks) == s && Capture(w, chunks).fault == Some(LineTooLong)
  {
    var j: nat :| j < |Lines(s)| && OverlongAt(w, s, j);
    var p := CutInside(s, j, MAX_LINE + 1);
    var head := s[..p];
    chunks := [head, s[p..]];
    TwoChunks(w, head, s[p..]);
    assert head + s[p..] == s;
    assert Remainder([]) == [];
    FeedFirst(w, head);
    FeedFaulty(w, Feed(w, EMPTY, head), s[p..]);
  }

  /**
   The reported error is the first one however the stream is cut, exactly when that first error is a line's length or
   no line behind an error is too long.
   */
  lemma ReportedExactly(w: World, s: Bytes)
    requires |s| <= MAX_OUTPUT
    ensures (forall chunks | Concat(chunks) == s :: Capture(w, chunks).fault == Expected(w, s).fault) <==>
            Expected(w, s).fault == Some(LineTooLong) || !LaterOverlong(w, s)
  {
    if Expected(w, s).fault == Some(LineTooLong) || !LaterOverlong(w, s) {
      forall chunks | Concat(chunks) == s ensures Capture(w, chunks).fault == Expected(w, s).fault {
        ChunkingIsIrrelevant(w, chunks);
      }
    } else {
      var chunks := OverlongChunks(w, s);
    }
  }

  lemma OneLine(w: World, line: Bytes)
    requires FirstNewline(line) == |line|
    ensures Whole(w, line + [NEWLINE]) == AfterLine(w, INITIAL, line) && Remainder(line + [NEWLINE]) == []
  {
    OneMore(line, NEWLINE);
    assert CompleteLines(line) == [] && Remainder(line) == line;
    AfterOne(w, INITIAL, line);
  }

  // ---------------------------------------------------------------- beyond the cap

  /** The reader stopped by the cap, after these bytes. */
  function CutOff(w: World, s: Bytes): Reader {
    var r := Outlook(w, s);
    if r.fault.Some? then r else Report(r, OutputTooLong)
  }

  predicate Stopped(w: World, b: Buffered, s: Bytes) {
    b.reader.fault.Some? && AtFirst(b.reader) == CutOff(w, s)
  }

  /** The chunk that crosses the cap is not read at all. */
  lemma Crossing(w: World, b: Buffered, s: Bytes, c: Bytes)
    requires Tracks(w, b, s) && |s| <= MAX_OUTPUT < |s + c|
    ensures Stopped(w, Feed(w, b, c), s)
  {
  }

  lemma {:induction false} StopsSomewhere(w: World, chunks: seq<Bytes>) returns (p: nat)
    requires |Concat(chunks)| > MAX_OUTPUT
    ensures p <= MAX_OUTPUT && Stopped(w, FeedAll(w, chunks), Concat(chunks)[..p])
  {
    var n := |chunks| - 1;
    var before := Concat(chunks[..n]);
    if |before| > MAX_OUTPUT {
      p := StopsSomewhere(w, chunks[..n]);
      FeedFaulty(w, FeedAll(w, chunks[..n]), chunks[n]);
      assert (before + chunks[n])[..p] == before[..p];
    } else {
      p := |before|;
      FeedAllTracks(w, chunks[..n]);
      Crossing(w, FeedAll(w, chunks[..n]), before, chunks[n]);
      assert (before + chunks[n])[..p] == before;
    }
  }

  /** A cut at p stops the reader there. */
  lemma StopsAt(w: World, s: Bytes, p: nat)
    requires p <= MAX_OUTPUT < |s|
    ensures var chunks := [s[..p], s[p..]];
            Concat(chunks) == s && Stopped(w, FeedAll(w, chunks), s[..p])
  {
    var a, b := s[..p], s[p..];
    TwoChunks(w, a, b);
    assert a + b == s;
    FeedAllTracks(w, [a]);
    Crossing(w, Feed(w, EMPTY, a), a, b);
  }

  /** The outcomes that a stream beyond the cap can have are those of stopping after some prefix within it. */
  lemma BeyondCap(w: World, s: Bytes, r: Reader)
    requires |s| > MAX_OUTPUT
    ensures (exists chunks | Concat(chunks) == s :: AtFirst(Capture(w, chunks)) == r) <==>
            (exists p | 0 <= p <= MAX_OUTPUT :: CutOff(w, s[..p]) == r)
  {
    forall chunks | Concat(chunks) == s
      ensures exists p | 0 <= p <= MAX_OUTPUT :: CutOff(w, s[..p]) == AtFirst(Capture(w, chunks))
    {
      var p := StopsSomewhere(w, chunks);
    }
    forall p | 0 <= p <= MAX_OUTPUT
      ensures exists chunks | Concat(chunks) == s :: AtFirst(Capture(w, chunks)) == CutOff(w, s[..p])
    {
      StopsAt(w, s, p);
      var chunks := [s[..p], s[p..]];
      assert Concat(chunks) == s && AtFirst(Capture(w, chunks)) == CutOff(w, s[..p]);
    }
  }

  /** A first line ends before the cap and delivers its event. */
  predicate FirstDelivers(w: World, s: Bytes) {
    FirstNewline(s) < MAX_OUTPUT && FirstNewline(s) < |s| && AfterLine(w, INITIAL, s[..FirstNewline(s)]).delivered != []
  }

  lemma {:induction false} NewlineFreePrefix(s: Bytes, p: nat)
    requires p <= FirstNewline(s)
    ensures FirstNewline(s[..p]) == p
  {
    if p > 0 {
      assert s[..p][1..] == s[1..][..p - 1];
      NewlineFreePrefix(s[1..], p - 1);
    }
  }

  /** A line that delivers nothing is an error. */
  lemma NothingDelivered(w: World, line: Bytes)
    ensures AfterLine(w, INITIAL, line).delivered == [] ==> AfterLine(w, INITIAL, line).fault.Some?
  {
  }

  /** A stream starts with its first line. */
  lemma FirstThenRest(w: World, line: Bytes, rest: Bytes)
    requires FirstNewline(line) == |line|
    ensures Whole(w, line + [NEWLINE] + rest) == AfterLines(w, AfterLine(w, INITIAL, line), CompleteLines(rest))
  {
    OneLine(w, line);
    WholeAppend(w, line + [NEWLINE], rest);
    assert [] + rest == rest;
  }

  lemma RestDelivers(w: World, r: Reader, lines: seq<Bytes>)
    requires r.delivered == [] ==> r.fault.Some?
    ensures r.delivered <= AfterLines(w, r, lines).delivered
    ensures r.delivered == [] ==> AfterLines(w, r, lines).delivered == []
  {
    DeliveredGrows(w, r, lines);
    if r.delivered == [] {
      AfterFault(w, r, lines);
    }
  }

  /** Before the first newline nothing is delivered. */
  lemma ShortPrefix(w: World, s: Bytes, p: nat)
    requires p <= FirstNewline(s)
    ensures Whole(w, s[..p]).delivered == []
  {
    NewlineFreePrefix(s, p);
  }

  lemma CutAround(s: Bytes, i: nat, p: nat)
    requires i < p <= |s|
    ensures s[..p] == s[..i] + [s[i]] + s[i + 1..p]
  {
    assert s[..p] == s[..i] + s[i..p];
    assert s[i..p] == [s[i]] + s[i + 1..p];
  }

  lemma CutAtLine(s: Bytes, p: nat)
    requires FirstNewline(s) < p <= |s|
    ensures var i := FirstNewline(s); FirstNewline(s[..i]) == i && s[..p] == s[..i] + [NEWLINE] + s[i + 1..p]
  {
    NewlineFreePrefix(s, FirstNewline(s));
    CutAround(s, FirstNewline(s), p);
  }

  /** Behind it the first line's event is delivered, or nothing. */
  lemma LinePrefix(w: World, line: Bytes, rest: Bytes, text: Bytes)
    requires FirstNewline(line) == |line| && text == line + [NEWLINE] + rest
    ensures var first := AfterLine(w, INITIAL, line).delivered;
            first <= Whole(w, text).delivered && (first == [] ==> Whole(w, text).delivered == [])
  {
    FirstThenRest(w, line, rest);
    NothingDelivered(w, line);
    RestDelivers(w, AfterLine(w, INITIAL, line), CompleteLines(rest));
  }

  lemma LongPrefix(w: World, s: Bytes, p: nat)
    requires FirstNewline(s) < p <= |s|
    ensures var first := AfterLine(w, INITIAL, s[..FirstNewline(s)]).delivered;
            first <= Whole(w, s[..p]).delivered && (first == [] ==> Whole(w, s[..p]).delivered == [])
  {
    var i := FirstNewline(s);
    CutAtLine(s, p);
    LinePrefix(w, s[..i], s[i + 1..p], s[..p]);
  }

  /** A line of its own that delivers makes the difference: cut off behind it, or before anything. */
  lemma CapDependsOnChunks(w: World, s: Bytes)
    requires |s| > MAX_OUTPUT && FirstDelivers(w, s)
    ensures var i := FirstNewline(s) + 1;
            && Concat([s[..0], s]) == s == Concat([s[..i], s[i..]])
            && Capture(w, [s[..0], s]).delivered == [] != Capture(w, [s[..i], s[i..]]).delivered
  {
    var i := FirstNewline(s) + 1;
    assert s[0..] == s;
    StopsAt(w, s, 0);
    StopsAt(w, s, i);
    ShortPrefix(w, s, 0);
    LongPrefix(w, s, i);
  }

  lemma NothingBeyondCap(w: World, s: Bytes, chunks: seq<Bytes>)
    requires |s| > MAX_OUTPUT && !FirstDelivers(w, s) && Concat(chunks) == s
    ensures Capture(w, chunks).delivered == []
  {
    var p := StopsSomewhere(w, chunks);
    if p <= FirstNewline(s) {
      ShortPrefix(w, s, p);
    } else {
      LongPrefix(w, s, p);
    }
  }

  /**
   Beyond the cap the delivered events are the same for every cut exactly when no first line that delivers an event ends
   before the cap; then there are none.
   */
  lemma CapExactly(w: World, s: Bytes)
    requires |s| > MAX_OUTPUT
    ensures (forall chunks, chunks' | Concat(chunks) == s && Concat(chunks') == s ::
               Capture(w, chunks).delivered == Capture(w, chunks').delivered)
            <==> !FirstDelivers(w, s)
    ensures !FirstDelivers(w, s) ==> forall chunks | Concat(chunks) == s :: Capture(w, chunks).delivered == []
  {
    if FirstDelivers(w, s) {
      CapDependsOnChunks(w, s);
    } else {
      forall chunks | Concat(chunks) == s ensures Capture(w, chunks).delivered == [] {
        NothingBeyondCap(w, s, chunks);
      }
    }
  }

  lemma {:induction false} DeliveredGrows(w: World, r: Reader, lines: seq<Bytes>)
    ensures r.delivered <= AfterLines(w, r, lines).delivered
  {
    if lines != [] {
      DeliveredGrows(w, r, lines[..|lines| - 1]);
    }
  }
}
