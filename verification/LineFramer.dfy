/** Messages over a stream: lines ended by CR LF, whatever pieces the network
    delivers the stream in. */
module LineFramers {
  import opened Outcome

  // ----- the stream as lines ---------------------------------------------------------------

  /** Complete non-empty lines, and the text after the last line end. */
  datatype Parsed = Parsed(replies: seq<string>, rest: string)

  predicate AtLineEnd(s: string)
  {
    |s| >= 2 && s[0] == '\r' && s[1] == '\n'
  }

  /** Reads s, having read `line` since the last line end. */
  function Scan(s: string, line: string): Parsed
    decreases |s|
  {
    if s == "" then Parsed([], line)
    else if AtLineEnd(s) then
      var p := Scan(s[2..], "");
      Parsed((if line != "" then [line] else []) + p.replies, p.rest)
    else Scan(s[1..], line + [s[0]])
  }

  function Lines(s: string): Parsed
  {
    Scan(s, "")
  }

  predicate NoLineEnd(s: string)
  {
    forall i :: 0 <= i < |s| - 1 ==> !(s[i] == '\r' && s[i + 1] == '\n')
  }

  /** No line end in the line so far, nor across the place where s follows it. */
  predicate Fits(line: string, s: string)
  {
    NoLineEnd(line) && !(line != "" && line[|line| - 1] == '\r' && s != "" && s[0] == '\n')
  }

  lemma FitsOn(line: string, s: string)
    requires Fits(line, s) && s != "" && !AtLineEnd(s)
    ensures Fits(line + [s[0]], s[1..])
  {
    var longer := line + [s[0]];
    forall i | 0 <= i < |longer| - 1 ensures !(longer[i] == '\r' && longer[i + 1] == '\n') {
      if i == |line| - 1 { assert longer[i] == line[|line| - 1]; }
    }
  }

  /** Text without a line end is just carried along. */
  lemma {:induction false} Carried(before: string, text: string, s: string)
    requires Fits(before + text, s)
    ensures Scan(text + s, before) == Scan(s, before + text)
    decreases |text|
  {
    if text == "" {
      assert text + s == s && before + text == before;
    } else {
      var more := before + [text[0]];
      assert before + text == more + text[1..];
      assert (text + s)[1..] == text[1..] + s;
      assert !AtLineEnd(text + s) by {
        var all := before + text;
        if |text| >= 2 {
          assert all[|before|] == text[0] && all[|before| + 1] == text[1];
        } else if s != "" {
          assert all[|all| - 1] == text[0] && (text + s)[1] == s[0];
        }
      }
      Carried(more, text[1..], s);
    }
  }

  function Joined(a: Parsed, b: Parsed): Parsed
  {
    Parsed(a.replies + b.replies, b.rest)
  }

  /** What one parse leaves in the buffer is parsed again with what comes next. */
  lemma {:induction false} SplitScan(a: string, b: string, line: string)
    requires Fits(line, a + b)
    ensures var p := Scan(a, line);
            Scan(a + b, line) == Joined(p, Lines(p.rest + b))
    decreases |a|
  {
    if a == "" {
      assert a + b == b && "" + line == line;
      Carried("", line, b);
      assert [] + Scan(b, line).replies == Scan(b, line).replies;
    } else if AtLineEnd(a) {
      SplitScan(a[2..], b, "");
      assert (a + b)[2..] == a[2..] + b && AtLineEnd(a + b);
      JoinedAfter(if line != "" then [line] else [], Scan(a[2..], ""), Lines(Scan(a[2..], "").rest + b));
    } else if AtLineEnd(a + b) {
      LineEndAcross(a, b, line);
    } else {
      FitsOn(line, a + b);
      assert (a + b)[1..] == a[1..] + b && (a + b)[0] == a[0];
      SplitScan(a[1..], b, line + [a[0]]);
    }
  }

  lemma JoinedAfter(head: seq<string>, a: Parsed, b: Parsed)
    ensures head + Joined(a, b).replies == (head + a.replies) + b.replies
  {
  }

  lemma StartsAlike(a: string, b: string)
    ensures a != "" ==> (a + b)[0] == a[0]
    ensures |a| >= 2 ==> (a + b)[1] == a[1]
  {
  }

  /** A carriage return at the end of one piece and the newline in the next. */
  lemma LineEndAcross(a: string, b: string, line: string)
    requires a != "" && !AtLineEnd(a) && AtLineEnd(a + b) && Fits(line, a + b)
    ensures a == "\r" && Scan(a, line) == Parsed([], line + a)
    ensures Scan(a + b, line) == Joined(Scan(a, line), Lines(Scan(a, line).rest + b))
  {
    StartsAlike(a, b);
    assert |a| == 1;
    assert a[0] == '\r' && a[1..] == "" && a == [a[0]];
    assert Scan(a[1..], line + [a[0]]) == Parsed([], line + [a[0]]);
    assert "" + line == line;
    Carried("", line, a + b);
    assert line + a + b == line + (a + b);
    assert [] + Scan(a + b, line).replies == Scan(a + b, line).replies;
  }

  /** Framing does not depend on how the stream is split: the replies to two pieces
      one after the other, the first one's leftover in front of the second, are
      those to the whole. */
  lemma SplittingChangesNothing(a: string, b: string)
    ensures Lines(a + b) == Joined(Lines(a), Lines(Lines(a).rest + b))
  {
    SplitScan(a, b, "");
  }

  /** The replies to any pieces, each parsed with the leftover of those before. */
  function Fed(rest: string, pieces: seq<string>): Parsed
    decreases |pieces|
  {
    if pieces == [] then Parsed([], rest)
    else
      var p := Lines(rest + pieces[0]);
      Joined(p, Fed(p.rest, pieces[1..]))
  }

  function Whole(pieces: seq<string>): string
  {
    if pieces == [] then "" else pieces[0] + Whole(pieces[1..])
  }

  lemma {:induction false} RestIsFixed(s: string, line: string)
    requires Fits(line, s)
    ensures NoLineEnd(Scan(s, line).rest)
    decreases |s|
  {
    if s != "" {
      if AtLineEnd(s) {
        RestIsFixed(s[2..], "");
      } else {
        FitsOn(line, s);
        RestIsFixed(s[1..], line + [s[0]]);
      }
    }
  }

  lemma UnendedLine(rest: string)
    requires NoLineEnd(rest)
    ensures Lines(rest) == Parsed([], rest)
  {
    assert rest + "" == rest && "" + rest == rest;
    Carried("", rest, "");
  }

  /** However many pieces the stream comes in, the replies are those to the whole. */
  lemma {:induction false} PiecesMakeTheWhole(rest: string, pieces: seq<string>)
    requires NoLineEnd(rest)
    ensures Fed(rest, pieces) == Lines(rest + Whole(pieces))
    decreases |pieces|
  {
    if pieces == [] {
      assert rest + "" == rest;
      UnendedLine(rest);
    } else {
      var a, b := rest + pieces[0], Whole(pieces[1..]);
      assert rest + Whole(pieces) == a + b;
      SplittingChangesNothing(a, b);
      RestIsFixed(a, "");
      PiecesMakeTheWhole(Lines(a).rest, pieces[1..]);
    }
  }

  // ----- messages ------------------------------------------------------------------------

  /** What send_line puts on the wire. */
  function Line(m: string): string
  {
    m + "\r\n"
  }

  function Wire(ms: seq<string>): string
  {
    if ms == [] then "" else Line(ms[0]) + Wire(ms[1..])
  }

  predicate Sendable(ms: seq<string>)
  {
    forall i :: 0 <= i < |ms| ==> ms[i] != "" && NoLineEnd(ms[i])
  }

  lemma LineIsRead(m: string, s: string)
    requires m != "" && NoLineEnd(m)
    ensures Lines(Line(m) + s) == Joined(Parsed([m], ""), Lines(s))
  {
    var end := "\r\n" + s;
    assert Line(m) + s == m + end && "" + m == m;
    Carried("", m, end);
    assert end[2..] == s;
  }

  lemma {:induction false} MessagesAreRead(ms: seq<string>)
    requires Sendable(ms)
    ensures Lines(Wire(ms)) == Parsed(ms, "")
    decreases |ms|
  {
    if ms != [] {
      LineIsRead(ms[0], Wire(ms[1..]));
      MessagesAreRead(ms[1..]);
      assert [ms[0]] + ms[1..] == ms;
    }
  }

  /** Replies are never empty, never contain a line end, and left room for theirs. */
  lemma {:induction false} RepliesAreSendable(s: string, line: string)
    requires Fits(line, s)
    ensures var p := Scan(s, line);
            Sendable(p.replies) && |p.rest| <= |line| + |s| &&
            (forall i :: 0 <= i < |p.replies| ==> |p.replies[i]| + 2 + |p.rest| <= |line| + |s|)
    decreases |s|
  {
    if s != "" {
      if AtLineEnd(s) {
        RepliesAreSendable(s[2..], "");
      } else {
        FitsOn(line, s);
        RepliesAreSendable(s[1..], line + [s[0]]);
      }
    }
  }

  /** Messages come back as sent exactly when none is empty or contains a line end. */
  lemma MessagesComeBack(ms: seq<string>)
    ensures Lines(Wire(ms)).replies == ms <==> Sendable(ms)
  {
    RepliesAreSendable(Wire(ms), "");
    if Sendable(ms) { MessagesAreRead(ms); }
  }

  // ----- a socket -------------------------------------------------------------------------

  /** What is buffered, queued, and still to come from the network. */
  datatype Link = Link(buf: string, replies: seq<string>, stream: string)

  function Min(a: nat, b: nat): nat
  {
    if a < b then a else b
  }

  /** How much an update takes when the network has n bytes: no more than there are
      and than the buffer has room for. */
  function Taken(k: Link, n: nat, max: nat): nat
  {
    Min(Min(n, |k.stream|), if |k.buf| < max then max - |k.buf| else 0)
  }

  /** An update: new data are buffered, and the queue becomes what can be parsed. */
  function Updated(k: Link, n: nat, max: nat): Link
  {
    var t := Taken(k, n, max);
    var p := Lines(k.buf + k.stream[..t]);
    Link(p.rest, p.replies, k.stream[t..])
  }

  /** The replies that have not been parsed yet. */
  function Future(k: Link): seq<string>
  {
    Lines(k.buf + k.stream).replies
  }

  predicate Good(k: Link, max: nat)
  {
    NoLineEnd(k.buf) && |k.buf| <= max && (k.replies != [] ==> |k.buf| < max)
  }

  /** Nothing is lost or made up by an update, but for what was still queued. */
  lemma UpdateKeepsFuture(k: Link, n: nat, max: nat)
    requires Good(k, max)
    ensures var u := Updated(k, n, max); Good(u, max) && u.replies + Future(u) == Future(k)
    ensures forall i :: 0 <= i < |Updated(k, n, max).replies| ==> |Updated(k, n, max).replies[i]| + 2 <= max
  {
    var t := Taken(k, n, max);
    var a, b := k.buf + k.stream[..t], k.stream[t..];
    assert k.stream == k.stream[..t] + k.stream[t..];
    assert k.buf + k.stream == a + b;
    SplittingChangesNothing(a, b);
    RestIsFixed(a, "");
    RepliesAreSendable(a, "");
    var p := Lines(a);
    assert p.replies != [] ==> |p.replies[0]| + 2 + |p.rest| <= |a|;
  }

  /** With the buffer full of a line that has no end, nothing more is ever read. */
  lemma FullIsStuck(k: Link, n: nat, max: nat)
    requires Good(k, max) && |k.buf| == max
    ensures Updated(k, n, max) == k.(replies := [])
  {
    assert k.buf + k.stream[..0] == k.buf && k.stream[0..] == k.stream;
    UnendedLine(k.buf);
  }

  // ----- what a reader gets --------------------------------------------------------------

  /** Everything iteration returns over a sequence of updates. */
  function Iterated(k: Link, arrivals: seq<nat>, max: nat): (r: (seq<string>, Link))
    decreases |arrivals|
  {
    if arrivals == [] then ([], k)
    else
      var u := Updated(k, arrivals[0], max);
      var (more, last) := Iterated(u.(replies := []), arrivals[1..], max);
      (u.replies + more, last)
  }

  lemma {:induction false} IterationKeepsAll(k: Link, arrivals: seq<nat>, max: nat)
    requires Good(k, max)
    ensures var (got, last) := Iterated(k, arrivals, max);
            Good(last, max) && got + Future(last) == Future(k) &&
            (forall i :: 0 <= i < |got| ==> |got[i]| + 2 <= max)
    decreases |arrivals|
  {
    if arrivals != [] {
      var u := Updated(k, arrivals[0], max);
      UpdateKeepsFuture(k, arrivals[0], max);
      IterationKeepsAll(u.(replies := []), arrivals[1..], max);
      var (more, last) := Iterated(u.(replies := []), arrivals[1..], max);
      assert u.replies + (more + Future(last)) == (u.replies + more) + Future(last);
    }
  }

  /** While no line is too long there is room, so every update takes something. */
  predicate Roomy(k: Link, max: nat)
  {
    max >= 2 && |Lines(k.buf + k.stream).rest| < max && forall i :: 0 <= i < |Future(k)| ==> |Future(k)[i]| + 2 <= max
  }

  lemma UpdateTakesSome(k: Link, n: nat, max: nat)
    requires Good(k, max) && Roomy(k, max) && n > 0
    ensures var u := Updated(k, n, max);
            Roomy(u.(replies := []), max) && (k.stream != "" ==> |u.stream| < |k.stream|)
  {
    var t := Taken(k, n, max);
    var a, b := k.buf + k.stream[..t], k.stream[t..];
    assert k.stream == k.stream[..t] + k.stream[t..];
    assert k.buf + k.stream == a + b;
    SplittingChangesNothing(a, b);
    LaterAreShort(Future(k), Lines(a), Lines(Lines(a).rest + b), max);
    if k.stream != "" { BufferHasRoom(k.buf, k.stream, max); }
  }

  lemma LaterAreShort(all: seq<string>, a: Parsed, b: Parsed, max: nat)
    requires all == a.replies + b.replies && forall i :: 0 <= i < |all| ==> |all[i]| + 2 <= max
    ensures forall i :: 0 <= i < |b.replies| ==> |b.replies[i]| + 2 <= max
  {
    forall i | 0 <= i < |b.replies| ensures |b.replies[i]| + 2 <= max {
      assert all[|a.replies| + i] == b.replies[i];
    }
  }

  /** The buffered text is the start of a line that is not too long. */
  lemma {:induction false} BufferHasRoom(buf: string, s: string, max: nat)
    requires NoLineEnd(buf) && |buf| <= max && s != "" && max >= 2
    requires |Lines(buf + s).rest| < max
    requires forall i :: 0 <= i < |Lines(buf + s).replies| ==> |Lines(buf + s).replies[i]| + 2 <= max
    ensures |buf| < max
  {
    LineContains(buf, s);
    var p := Lines(buf + s);
    assert p.replies != [] ==> |p.replies[0]| + 2 <= max;
  }

  /** Text without a line end, except perhaps half of one, starts the first line,
      or the leftover. */
  lemma LineContains(buf: string, s: string)
    requires NoLineEnd(buf)
    ensures var p := Lines(buf + s);
            |buf| <= |p.rest| || (p.replies != [] && |buf| <= |p.replies[0]| + 1) || |buf| <= 1
  {
    if Fits(buf, s) {
      assert "" + buf == buf;
      Carried("", buf, s);
      ScanContains(s, buf);
    } else {
      var head := buf[..|buf| - 1];
      assert buf == head + ['\r'] && NoLineEnd(head);
      assert "" + head == head && buf + s == head + (['\r'] + s);
      Carried("", head, ['\r'] + s);
      assert AtLineEnd(['\r'] + s);
    }
  }

  lemma {:induction false} ScanContains(s: string, line: string)
    ensures var p := Scan(s, line);
            |line| <= |p.rest| || (p.replies != [] && |line| <= |p.replies[0]|) || line == ""
    decreases |s|
  {
    if s != "" && !AtLineEnd(s) {
      ScanContains(s[1..], line + [s[0]]);
    }
  }

  lemma {:induction false} AllIsTaken(k: Link, arrivals: seq<nat>, max: nat)
    requires Good(k, max) && Roomy(k, max) && |arrivals| >= |k.stream|
    requires forall i :: 0 <= i < |arrivals| ==> arrivals[i] > 0
    ensures Iterated(k, arrivals, max).1.stream == ""
    decreases |arrivals|
  {
    if arrivals != [] {
      UpdateKeepsFuture(k, arrivals[0], max);
      UpdateTakesSome(k, arrivals[0], max);
      AllIsTaken(Updated(k, arrivals[0], max).(replies := []), arrivals[1..], max);
    }
  }

  /** No line is too long, and the network hands over something often enough. */
  predicate Flowing(k: Link, arrivals: seq<nat>, max: nat)
  {
    Roomy(k, max) && |arrivals| >= |k.stream| && forall i :: 0 <= i < |arrivals| ==> arrivals[i] > 0
  }

  lemma UpdateKeepsFlowing(k: Link, arrivals: seq<nat>, max: nat)
    requires Good(k, max) && Flowing(k, arrivals, max) && arrivals != []
    ensures Flowing(Updated(k, arrivals[0], max), arrivals[1..], max)
  {
    UpdateTakesSome(k, arrivals[0], max);
    var u := Updated(k, arrivals[0], max);
    assert Future(u) == Future(u.(replies := []));
  }

  /** With nothing left to arrive there is nothing left to come. */
  lemma NothingToCome(k: Link, max: nat)
    requires Good(k, max) && k.stream == ""
    ensures Future(k) == []
  {
    assert k.buf + "" == k.buf;
    UnendedLine(k.buf);
  }

  /** Messages sent over any network that keeps handing over at least a byte an
      update come back through iteration exactly when none is empty, contains a
      line end, or with its line end exceeds the buffer. */
  lemma IterationDelivers(ms: seq<string>, arrivals: seq<nat>, max: nat)
    requires max >= 2 && |arrivals| >= |Wire(ms)| && forall i :: 0 <= i < |arrivals| ==> arrivals[i] > 0
    ensures Iterated(Link("", [], Wire(ms)), arrivals, max).0 == ms
            <==> Sendable(ms) && forall i :: 0 <= i < |ms| ==> |ms[i]| + 2 <= max
  {
    var k := Link("", [], Wire(ms));
    var (got, last) := Iterated(k, arrivals, max);
    assert "" + Wire(ms) == Wire(ms);
    IterationKeepsAll(k, arrivals, max);
    MessagesComeBack(ms);
    RepliesAreSendable(Wire(ms), "");
    if Sendable(ms) && forall i :: 0 <= i < |ms| ==> |ms[i]| + 2 <= max {
      MessagesAreRead(ms);
      AllIsTaken(k, arrivals, max);
      assert last.buf + "" == last.buf;
      UnendedLine(last.buf);
      assert got + [] == got;
    } else if got == ms {
      PrefixIsSendable(got, Future(last));
    }
  }

  lemma PrefixIsSendable(a: seq<string>, b: seq<string>)
    requires Sendable(a + b)
    ensures Sendable(a)
  {
    forall i | 0 <= i < |a| ensures a[i] != "" && NoLineEnd(a[i]) {
      assert (a + b)[i] == a[i];
    }
  }

  // ----- receiving message by message --------------------------------------------------------

  /** The next message: updates until one is queued, or nothing arrives any more. */
  function Received(k: Link, arrivals: seq<nat>, max: nat): (r: (Option<string>, Link, seq<nat>))
    ensures |r.2| < |arrivals| || (r.2 == arrivals && (r.0.Some? ==> |r.1.replies| < |k.replies|))
    decreases |arrivals|
  {
    if k.replies != [] && |k.buf| < max then (Some(k.replies[0]), k.(replies := k.replies[1..]), arrivals)
    else if arrivals == [] then (None, k, [])
    else Received(Updated(k, arrivals[0], max), arrivals[1..], max)
  }

  /** Everything that receiving one message after the other gives. */
  function ReceivedAll(k: Link, arrivals: seq<nat>, max: nat): (seq<string>, Link)
    decreases |arrivals|, |k.replies|
  {
    var (m, next, left) := Received(k, arrivals, max);
    if m.None? then ([], next)
    else
      var (more, last) := ReceivedAll(next, left, max);
      ([m.value] + more, last)
  }

  predicate AllShort(ms: seq<string>, max: nat)
  {
    forall i :: 0 <= i < |ms| ==> |ms[i]| + 2 <= max
  }

  lemma {:induction false} ReceivedIsNext(k: Link, arrivals: seq<nat>, max: nat)
    requires Good(k, max) && AllShort(k.replies, max)
    ensures var (m, next, _) := Received(k, arrivals, max);
            Good(next, max) && AllShort(next.replies, max) &&
            match m
            case Some(m) => |m| + 2 <= max && [m] + (next.replies + Future(next)) == k.replies + Future(k)
            case None => next.replies == [] && Future(next) == k.replies + Future(k)
    decreases |arrivals|
  {
    if k.replies != [] && |k.buf| < max {
      assert k.replies == [k.replies[0]] + k.replies[1..];
    } else {
      assert [] + Future(k) == Future(k);
      if arrivals != [] {
        UpdateKeepsFuture(k, arrivals[0], max);
        ReceivedIsNext(Updated(k, arrivals[0], max), arrivals[1..], max);
      }
    }
  }

  lemma {:induction false} ReceivingFlows(k: Link, arrivals: seq<nat>, max: nat)
    requires Good(k, max) && Flowing(k, arrivals, max)
    ensures var (m, next, left) := Received(k, arrivals, max);
            Flowing(next, left, max) && (m.None? ==> Future(next) == [])
    decreases |arrivals|
  {
    if k.replies != [] && |k.buf| < max {
      assert Future(k.(replies := k.replies[1..])) == Future(k);
    } else {
      if arrivals == [] {
        NothingToCome(k, max);
      } else {
        UpdateKeepsFuture(k, arrivals[0], max);
        UpdateKeepsFlowing(k, arrivals, max);
        ReceivingFlows(Updated(k, arrivals[0], max), arrivals[1..], max);
      }
    }
  }

  lemma {:induction false} ReceivingKeepsAll(k: Link, arrivals: seq<nat>, max: nat)
    requires Good(k, max) && AllShort(k.replies, max)
    ensures var (got, last) := ReceivedAll(k, arrivals, max);
            got + Future(last) == k.replies + Future(k) && AllShort(got, max)
    decreases |arrivals|, |k.replies|
  {
    var (m, next, left) := Received(k, arrivals, max);
    ReceivedIsNext(k, arrivals, max);
    if m.None? {
      assert [] + Future(next) == Future(next);
    } else {
      ReceivingKeepsAll(next, left, max);
      var (more, last) := ReceivedAll(next, left, max);
      Attach(m.value, more, Future(last));
      Attach(m.value, next.replies, Future(next));
    }
  }

  lemma Attach(m: string, a: seq<string>, b: seq<string>)
    ensures [m] + (a + b) == ([m] + a) + b
  {
  }

  lemma {:induction false} ReceivingTakesAll(k: Link, arrivals: seq<nat>, max: nat)
    requires Good(k, max) && AllShort(k.replies, max) && Flowing(k, arrivals, max)
    ensures Future(ReceivedAll(k, arrivals, max).1) == []
    decreases |arrivals|, |k.replies|
  {
    var (m, next, left) := Received(k, arrivals, max);
    ReceivedIsNext(k, arrivals, max);
    ReceivingFlows(k, arrivals, max);
    if m.Some? { ReceivingTakesAll(next, left, max); }
  }

  /** Receiving message by message returns those sent exactly when iteration does:
      when none is empty, contains a line end, or with its line end exceeds the
      buffer. */
  lemma ReceivingDelivers(ms: seq<string>, arrivals: seq<nat>, max: nat)
    requires max >= 2 && |arrivals| >= |Wire(ms)| && forall i :: 0 <= i < |arrivals| ==> arrivals[i] > 0
    ensures ReceivedAll(Link("", [], Wire(ms)), arrivals, max).0 == ms <==> Sendable(ms) && AllShort(ms, max)
  {
    var k := Link("", [], Wire(ms));
    var (got, last) := ReceivedAll(k, arrivals, max);
    assert "" + Wire(ms) == Wire(ms) && [] + Future(k) == Future(k);
    ReceivingKeepsAll(k, arrivals, max);
    MessagesComeBack(ms);
    RepliesAreSendable(Wire(ms), "");
    if Sendable(ms) && AllShort(ms, max) {
      MessagesAreRead(ms);
      ReceivingTakesAll(k, arrivals, max);
      assert got + [] == got;
    } else if got == ms {
      PrefixIsSendable(got, Future(last));
    }
  }

  // ----- the socket object -------------------------------------------------------------------

  class Sock {
    const max: nat
    var buf: string
    var replies: seq<string>
    var stream: string
    var wire: string

    function View(): Link
      reads this
    {
      Link(buf, replies, stream)
    }

    ghost predicate Valid()
      reads this
    {
      Good(View(), max)
    }

    constructor (max: nat, stream: string)
      ensures Valid() && View() == Link("", [], stream) && wire == "" && this.max == max
    {
      this.max, this.stream := max, stream;
      buf, replies, wire := "", [], "";
    }

    /** Puts a message on the wire. */
    method SendLine(msg: string)
      modifies this`wire
      ensures wire == old(wire) + Line(msg)
    {
      var line := msg + "\r\n";
      wire := wire + line;
    }

    /** Takes the complete lines from the buffer. */
    method ParseBuf() returns (found: seq<string>)
      modifies this`buf
      ensures Parsed(found, buf) == Lines(old(buf))
    {
      found := [];
      var reply, chop, i := "", 0, 0;
      while i < |buf|
        invariant i <= |buf| && 0 <= chop <= i && reply == buf[chop..i] && buf == old(buf)
        invariant Joined(Parsed(found, reply), Scan(buf[i..], reply)) == Lines(buf)
      {
        ScanNext(buf, i, found, reply);
        if i + 1 < |buf| && buf[i] == '\r' && buf[i + 1] == '\n' {
          if reply != "" {
            found := found + [reply];
            reply := "";
          }
          assert buf[i + 2..i + 2] == "";
          chop := i + 2;
          i := i + 2;
        } else {
          assert buf[chop..i] + [buf[i]] == buf[chop..i + 1];
          reply := reply + [buf[i]];
          i := i + 1;
        }
      }
      assert buf[|buf|..] == "" && found + [] == found;
      if chop > 0 { buf := buf[chop..]; }
    }

    /** Receives what the network hands over, n bytes if there is room, and parses. */
    method Update(n: nat)
      requires Valid()
      modifies this`buf, this`replies, this`stream
      ensures Valid() && View() == Updated(old(View()), n, max)
    {
      UpdateKeepsFuture(View(), n, max);
      var room := if |buf| < max then max - |buf| else 0;
      var chunk := stream[..Min(Min(n, |stream|), room)];
      stream := stream[|chunk|..];
      buf := buf + chunk;
      replies := ParseBuf();
    }

    /** The next message, updating until there is one or nothing arrives any more;
        then, if no line was too long, all messages have been returned. */
    method RecvLine(arrivals: seq<nat>) returns (r: Option<string>, left: seq<nat>)
      requires Valid()
      modifies this`buf, this`replies, this`stream
      ensures Valid()
      ensures match r
              case Some(m) => [m] + replies + Future(View()) == old(replies + Future(View()))
              case None => left == [] && replies + Future(View()) == old(replies + Future(View()))
      ensures (r, View(), left) == Received(old(View()), arrivals, max)
      ensures Flowing(old(View()), arrivals, max) ==>
                Flowing(View(), left, max) && (r.None? ==> old(replies + Future(View())) == [])
    {
      left := arrivals;
      while replies == [] || |buf| >= max
        invariant Valid()
        invariant replies + Future(View()) == old(replies + Future(View()))
        invariant Received(View(), left, max) == Received(old(View()), arrivals, max)
        invariant Flowing(old(View()), arrivals, max) ==> Flowing(View(), left, max)
        decreases |left|
      {
        if left == [] {
          if stream == "" { NothingToCome(View(), max); }
          return None, left;
        }
        if Flowing(View(), left, max) { UpdateKeepsFlowing(View(), left, max); }
        UpdateKeepsFuture(View(), left[0], max);
        assert [] + Future(View()) == Future(View());
        Update(left[0]);
        left := left[1..];
      }
      var m := replies[0];
      replies := replies[1..];
      assert [m] + replies + Future(View()) == [m] + (replies + Future(View()));
      return Some(m), left;
    }

    /** Iterating updates once and hands over the queue. It gives all that was still
        to come, and only that: a queue that recv_line has left is lost. */
    method Iterate(n: nat) returns (got: seq<string>)
      requires Valid()
      modifies this`buf, this`replies, this`stream
      ensures Valid() && replies == []
      ensures got + Future(View()) == Future(old(View()))
      ensures got + Future(View()) == old(replies + Future(View())) <==> old(replies) == []
    {
      UpdateKeepsFuture(View(), n, max);
      Update(n);
      got := replies;
      replies := [];
      assert old(replies) == [] ==> old(replies + Future(View())) == old(Future(View()));
    }
  }

  lemma ScanNext(s: string, i: nat, found: seq<string>, reply: string)
    requires i < |s|
    ensures var p := Joined(Parsed(found, reply), Scan(s[i..], reply));
            if i + 1 < |s| && s[i] == '\r' && s[i + 1] == '\n'
            then p == Joined(Parsed(if reply != "" then found + [reply] else found, ""), Scan(s[i + 2..], ""))
            else p == Joined(Parsed(found, reply + [s[i]]), Scan(s[i + 1..], reply + [s[i]]))
  {
    assert s[i..][1..] == s[i + 1..];
    if i + 1 < |s| {
      assert s[i..][2..] == s[i + 2..];
      var rest := Scan(s[i + 2..], "").replies;
      assert found + ([reply] + rest) == (found + [reply]) + rest && [] + rest == rest;
    }
  }
}
