/** The decoder of a request body sent in chunks (section 3.6.1 of RFC 2616),
    reading from a source that may return less than it was asked for. */
module ChunkedBodies {
  import opened Outcome
  import KeyCompression

  const CRLF: string := "\r\n"

  function Min(a: int, b: int): int
  {
    if a < b then a else b
  }

  // ----- chunk headers --------------------------------------------------------------------

  predicate EndsLine(s: string, n: nat)
    requires n <= |s|
  {
    n >= 2 && s[n - 2] == '\r' && s[n - 1] == '\n'
  }

  /** Reading byte by byte, n bytes so far, to the end of the line: how many bytes
      that takes, unless the input or the limit ends first. */
  function HeaderLength(s: string, n: nat, bufsize: nat): (r: Option<nat>)
    requires n <= |s|
    ensures r.Some? ==> n <= r.value <= |s| && EndsLine(s, r.value) && (r.value == n || r.value <= bufsize)
    decreases |s| - n
  {
    if EndsLine(s, n) then Some(n)
    else if n == |s| || n + 1 > bufsize then None
    else HeaderLength(s, n + 1, bufsize)
  }

  function Header(s: string, bufsize: nat): (r: Option<nat>)
    ensures r.Some? ==> 2 <= r.value <= bufsize && r.value <= |s|
  {
    HeaderLength(s, if s == "" then 0 else 1, bufsize)
  }

  predicate IsSpace(c: char)
  {
    c == ' ' || c == '\t' || c == '\r' || c == '\n' || c == 0x0b as char || c == 0x0c as char
  }

  function StripLeft(s: string): string
  {
    if s != "" && IsSpace(s[0]) then StripLeft(s[1..]) else s
  }

  function StripRight(s: string): string
  {
    if s != "" && IsSpace(s[|s| - 1]) then StripRight(s[..|s| - 1]) else s
  }

  /** The text before the first semicolon. */
  function Partition(s: string): string
  {
    if s == "" || s[0] == ';' then "" else [s[0]] + Partition(s[1..])
  }

  function Digit(c: char): Option<KeyCompression.HexDigit>
  {
    if '0' <= c <= '9' then Some((c - '0') as int)
    else if 'a' <= c <= 'f' then Some(10 + (c - 'a') as int)
    else if 'A' <= c <= 'F' then Some(10 + (c - 'A') as int)
    else None
  }

  function Digits(s: string): Option<KeyCompression.Hex>
  {
    if s == "" then Some([])
    else if Digit(s[0]).None? || Digits(s[1..]).None? then None
    else Some([Digit(s[0]).value] + Digits(s[1..]).value)
  }

  /** An optional 0x, and at least one digit. */
  function ParseUnsigned(text: string): Option<nat>
  {
    var digits := if |text| >= 2 && text[0] == '0' && (text[1] == 'x' || text[1] == 'X') then text[2..] else text;
    if digits == "" || Digits(digits).None? then None else Some(KeyCompression.HexValue(Digits(digits).value))
  }

  /** int(s, 16) of text without surrounding space: an optional sign in front. */
  function ParseInt(s: string): Option<int>
  {
    var signed := s != "" && (s[0] == '-' || s[0] == '+');
    match ParseUnsigned(if signed then s[1..] else s)
    case None => None
    case Some(n) =>
      var value: int := n;
      Some(if signed && s[0] == '-' then -value else value)
  }

  /** The size a header announces. */
  function SizeOf(header: string): Option<int>
  {
    ParseInt(StripRight(StripLeft(Partition(header))))
  }

  // ----- decoding -------------------------------------------------------------------------

  /** What was decoded, what is left of the input, and whether it was well formed. */
  datatype Body = Body(data: string, rest: string, ok: bool)

  function Length(size: int): nat
  {
    if size < 0 then 0 else size
  }

  /** The data of a chunk, and the input after its line end if both are complete. */
  function ChunkData(after: string, size: int): (r: (string, Option<string>))
    ensures r.1.Some? ==> |r.1.value| < |after|
  {
    var length := Length(size);
    var data := after[..Min(length, |after|)];
    var rest := after[|data|..];
    (data, if |data| < length || |rest| < 2 || rest[..2] != CRLF then None else Some(rest[2..]))
  }

  function Decode(s: string, bufsize: nat): Body
    decreases |s|
  {
    var n := Header(s, bufsize);
    if n.None? then Body("", "", false)
    else
      var size := SizeOf(s[..n.value]);
      var after := s[n.value..];
      if size.None? then Body("", "", false)
      else if size.value == 0 then Body("", after, true)
      else
        var (data, rest) := ChunkData(after, size.value);
        if rest.None? then Body(data, "", false)
        else Following(data, Decode(rest.value, bufsize))
  }

  function Following(before: string, b: Body): Body
  {
    Body(before + b.data, b.rest, b.ok)
  }

  // ----- encoding --------------------------------------------------------------------------

  /** A header line, up to and including its line end, and the data it announces: none
      if the size is negative. */
  datatype Chunk = Chunk(header: string, data: string)

  predicate OneLine(header: string)
  {
    EndsLine(header, |header|) && forall n :: 0 <= n < |header| ==> !EndsLine(header, n)
  }

  predicate WellFormed(c: Chunk)
  {
    OneLine(c.header) && SizeOf(c.header).Some? && SizeOf(c.header).value != 0 &&
    |c.data| == Length(SizeOf(c.header).value)
  }

  predicate AllWellFormed(chunks: seq<Chunk>)
  {
    forall i :: 0 <= i < |chunks| ==> WellFormed(chunks[i])
  }

  function Encode(chunks: seq<Chunk>): string
  {
    if chunks == [] then "" else chunks[0].header + chunks[0].data + CRLF + Encode(chunks[1..])
  }

  function Data(chunks: seq<Chunk>): string
  {
    if chunks == [] then "" else chunks[0].data + Data(chunks[1..])
  }

  lemma {:induction false} HeaderIsFound(header: string, more: string, n: nat, bufsize: nat)
    requires OneLine(header) && n <= |header|
    ensures HeaderLength(header + more, n, bufsize) ==
            if n == |header| || |header| <= bufsize then Some(|header|) else None
    decreases |header| - n
  {
    var s := header + more;
    assert EndsLine(s, n) == EndsLine(header, n);
    if n < |header| && n + 1 <= bufsize {
      HeaderIsFound(header, more, n + 1, bufsize);
    }
  }

  lemma ChunkDecodes(c: Chunk, more: string, bufsize: nat)
    requires WellFormed(c)
    ensures Decode(c.header + c.data + CRLF + more, bufsize) ==
            if |c.header| > bufsize then Body("", "", false)
            else Following(c.data, Decode(more, bufsize))
  {
    var after := c.data + CRLF + more;
    assert c.header + c.data + CRLF + more == c.header + after;
    HeaderIsFound(c.header, after, 1, bufsize);
    if |c.header| <= bufsize {
      DataIsFound(c.data, more, SizeOf(c.header).value);
      HeaderEnds(c.header, after);
      DecodeNext(c.header + after, |c.header|, c.data, more, bufsize, SizeOf(c.header).value);
    }
  }

  lemma HeaderEnds(header: string, after: string)
    ensures (header + after)[..|header|] == header && (header + after)[|header|..] == after
  {
  }

  lemma DecodeNext(s: string, n: nat, data: string, more: string, bufsize: nat, size: int)
    requires n <= |s| && Header(s, bufsize) == Some(n) && size != 0 && SizeOf(s[..n]) == Some(size)
    requires ChunkData(s[n..], size) == (data, Some(more))
    ensures Decode(s, bufsize) == Following(data, Decode(more, bufsize))
  {
  }

  lemma DataIsFound(data: string, more: string, size: int)
    requires |data| == Length(size)
    ensures ChunkData(data + CRLF + more, size) == (data, Some(more))
  {
    var after := data + CRLF + more;
    assert after[..|data|] == data && after[|data|..] == CRLF + more;
    CrlfFirst(more);
  }

  lemma CrlfFirst(more: string)
    ensures |CRLF + more| >= 2 && (CRLF + more)[..2] == CRLF && (CRLF + more)[2..] == more
  {
  }

  lemma LastDecodes(last: string, tail: string, bufsize: nat)
    requires OneLine(last) && SizeOf(last) == Some(0)
    ensures Decode(last + tail, bufsize) ==
            if |last| > bufsize then Body("", "", false) else Body("", tail, true)
  {
    HeaderIsFound(last, tail, 1, bufsize);
    assert (last + tail)[..|last|] == last && (last + tail)[|last|..] == tail;
  }

  predicate AllFit(chunks: seq<Chunk>, last: string, bufsize: nat)
  {
    |last| <= bufsize && forall i :: 0 <= i < |chunks| ==> |chunks[i].header| <= bufsize
  }

  /** Decoding inverts encoding, for every division of a body into chunks and every
      extension text: the data come back and nothing after the last header is read,
      exactly when every header fits the buffer. */
  lemma {:induction false} EncodingIsDecoded(chunks: seq<Chunk>, last: string, tail: string, bufsize: nat)
    requires AllWellFormed(chunks) && OneLine(last) && SizeOf(last) == Some(0)
    ensures var r := Decode(Encode(chunks) + last + tail, bufsize);
            (r.ok <==> AllFit(chunks, last, bufsize)) &&
            (r.ok ==> r == Body(Data(chunks), tail, true))
    decreases |chunks|
  {
    if chunks == [] {
      assert Encode(chunks) + last + tail == last + tail;
      LastDecodes(last, tail, bufsize);
    } else {
      var c, rest := chunks[0], Encode(chunks[1..]) + last + tail;
      assert Encode(chunks) + last + tail == c.header + c.data + CRLF + rest;
      ChunkDecodes(c, rest, bufsize);
      EncodingIsDecoded(chunks[1..], last, tail, bufsize);
      assert AllFit(chunks, last, bufsize) <==> |c.header| <= bufsize && AllFit(chunks[1..], last, bufsize) by {
        assert forall i :: 0 < i < |chunks| ==> chunks[i] == chunks[1..][i - 1];
      }
    }
  }

  // ----- and back ------------------------------------------------------------------------------

  lemma {:induction false} HeaderIsLine(s: string, n: nat, bufsize: nat)
    requires n <= |s| && forall m :: 0 <= m < n ==> !EndsLine(s, m)
    ensures HeaderLength(s, n, bufsize).Some? ==> OneLine(s[..HeaderLength(s, n, bufsize).value])
    decreases |s| - n
  {
    if EndsLine(s, n) {
      assert forall m :: 0 <= m <= n ==> EndsLine(s[..n], m) == EndsLine(s, m);
    } else if n < |s| && n + 1 <= bufsize {
      HeaderIsLine(s, n + 1, bufsize);
    }
  }

  lemma DataAndRest(after: string, size: int)
    requires ChunkData(after, size).1.Some?
    ensures var (data, rest) := ChunkData(after, size);
            |data| == Length(size) && after == data + CRLF + rest.value
  {
    var rest := after[Length(size)..];
    assert after == after[..Length(size)] + rest && rest == rest[..2] + rest[2..];
  }

  lemma FirstHeader(s: string, bufsize: nat)
    requires Header(s, bufsize).Some?
    ensures var n := Header(s, bufsize).value;
            OneLine(s[..n]) && |s[..n]| <= bufsize && s == s[..n] + s[n..]
  {
    HeaderIsLine(s, if s == "" then 0 else 1, bufsize);
  }

  lemma OkHasHeader(s: string, bufsize: nat)
    requires Decode(s, bufsize).ok
    ensures Header(s, bufsize).Some? && SizeOf(s[..Header(s, bufsize).value]).Some?
  {
  }

  lemma OkHasNext(s: string, n: nat, size: int, bufsize: nat)
    requires Decode(s, bufsize).ok && Header(s, bufsize) == Some(n) && SizeOf(s[..n]) == Some(size) && size != 0
    ensures var (data, rest) := ChunkData(s[n..], size);
            rest.Some? && Decode(s, bufsize) == Following(data, Decode(rest.value, bufsize))
  {
  }

  /** The first chunk of a well formed body. */
  lemma FirstChunk(s: string, bufsize: nat) returns (c: Chunk, rest: string)
    requires Decode(s, bufsize).ok && SizeOf(s[..Header(s, bufsize).value]) != Some(0)
    ensures WellFormed(c) && |c.header| <= bufsize && s == c.header + c.data + CRLF + rest
    ensures Decode(s, bufsize) == Following(c.data, Decode(rest, bufsize)) && |rest| < |s|
  {
    OkHasHeader(s, bufsize);
    var n := Header(s, bufsize).value;
    var size := SizeOf(s[..n]).value;
    FirstHeader(s, bufsize);
    OkHasNext(s, n, size, bufsize);
    DataAndRest(s[n..], size);
    c, rest := Chunk(s[..n], ChunkData(s[n..], size).0), ChunkData(s[n..], size).1.value;
    Rejoin(c, rest);
  }

  lemma Rejoin(c: Chunk, rest: string)
    ensures c.header + (c.data + CRLF + rest) == c.header + c.data + CRLF + rest
  {
  }

  /** The input is the encoding of these chunks, with this last header, and what was
      left of it. */
  predicate Encodes(s: string, chunks: seq<Chunk>, last: string, body: Body, bufsize: nat)
  {
    AllWellFormed(chunks) && OneLine(last) && SizeOf(last) == Some(0) && AllFit(chunks, last, bufsize) &&
    s == Encode(chunks) + last + body.rest && Data(chunks) == body.data
  }

  lemma EncodesNext(c: Chunk, rest: string, chunks: seq<Chunk>, last: string, body: Body, bufsize: nat)
    requires WellFormed(c) && |c.header| <= bufsize && Encodes(rest, chunks, last, body, bufsize)
    ensures Encodes(c.header + c.data + CRLF + rest, [c] + chunks, last, Following(c.data, body), bufsize)
  {
    var all := [c] + chunks;
    assert all[1..] == chunks;
    assert forall i :: 0 < i < |all| ==> all[i] == chunks[i - 1];
    InFront(c.header + c.data + CRLF, Encode(chunks), last, body.rest);
  }

  lemma InFront(front: string, a: string, b: string, c: string)
    ensures front + (a + b + c) == (front + a) + b + c
  {
  }

  /** What is decoded is the encoding of what comes out: a well formed body is a
      sequence of chunks, each with its line end, and a last header of size zero. */
  lemma {:induction false} DecodedIsEncoded(s: string, bufsize: nat) returns (chunks: seq<Chunk>, last: string)
    requires Decode(s, bufsize).ok
    ensures Encodes(s, chunks, last, Decode(s, bufsize), bufsize)
    decreases |s|
  {
    var header := s[..Header(s, bufsize).value];
    if SizeOf(header) == Some(0) {
      FirstHeader(s, bufsize);
      chunks, last := [], header;
      assert Encode([]) + last == last;
    } else {
      var c, rest := FirstChunk(s, bufsize);
      var more;
      more, last := DecodedIsEncoded(rest, bufsize);
      chunks := [c] + more;
      EncodesNext(c, rest, more, last, Decode(rest, bufsize), bufsize);
    }
  }

  // ----- headers as clients write them ---------------------------------------------------------

  predicate IsHex(s: string)
  {
    forall i :: 0 <= i < |s| ==> Digit(s[i]).Some?
  }

  lemma {:induction false} HexHasDigits(s: string)
    requires IsHex(s)
    ensures Digits(s).Some? && |Digits(s).value| == |s|
    decreases |s|
  {
    if s != "" { HexHasDigits(s[1..]); }
  }

  lemma {:induction false} PartitionStops(s: string, extension: string)
    requires IsHex(s) && (extension == "" || extension[0] == ';')
    ensures Partition(s + extension) == s
    decreases |s|
  {
    if s == "" {
      assert s + extension == extension;
    } else {
      assert (s + extension)[1..] == s[1..] + extension && (s + extension)[0] == s[0];
      PartitionStops(s[1..], extension);
    }
  }

  lemma {:induction false} PartitionPasses(s: string, end: string)
    requires IsHex(s) && Partition(end) == end
    ensures Partition(s + end) == s + end
    decreases |s|
  {
    if s == "" {
      assert s + end == end;
    } else {
      assert (s + end)[1..] == s[1..] + end && (s + end)[0] == s[0];
      PartitionPasses(s[1..], end);
      assert [s[0]] + (s[1..] + end) == s + end;
    }
  }

  lemma StripsToDigits(s: string)
    requires s != "" && IsHex(s)
    ensures StripRight(StripLeft(s)) == s && StripRight(StripLeft(s + CRLF)) == s
  {
    assert Digit(s[0]).Some? && Digit(s[|s| - 1]).Some?;
    assert (s + CRLF)[0] == s[0];
    var t := s + "\r";
    assert (s + CRLF)[..|s| + 1] == t && t[..|s|] == s;
    assert StripRight(t) == StripRight(s);
  }

  /** A size in hexadecimal digits of either case, then nothing or a semicolon and
      any extension text, is a header for that size. */
  lemma StandardHeader(digits: string, extension: string)
    requires digits != "" && IsHex(digits) && (extension == "" || extension[0] == ';')
    requires Digits(digits).Some?
    ensures SizeOf(digits + extension + CRLF) == Some(KeyCompression.HexValue(Digits(digits).value))
  {
    if extension == "" {
      assert digits + extension + CRLF == digits + CRLF;
      assert Partition("\n") == "\n" && CRLF[1..] == "\n" by { assert "\n"[1..] == ""; }
      PartitionPasses(digits, CRLF);
    } else {
      assert digits + extension + CRLF == digits + (extension + CRLF);
      PartitionStops(digits, extension + CRLF);
    }
    StripsToDigits(digits);
    PlainDigits(digits);
  }

  lemma PlainDigits(digits: string)
    requires digits != "" && IsHex(digits) && Digits(digits).Some?
    ensures ParseInt(digits) == Some(KeyCompression.HexValue(Digits(digits).value))
  {
    assert Digit(digits[0]).Some? && (|digits| >= 2 ==> Digit(digits[1]).Some?);
  }

  lemma PrefixedDigits(digits: string, prefix: string)
    requires digits != "" && IsHex(digits) && Digits(digits).Some?
    requires prefix == "" || prefix == "0x" || prefix == "0X"
    ensures ParseUnsigned(prefix + digits) == Some(KeyCompression.HexValue(Digits(digits).value))
  {
    assert Digit(digits[0]).Some? && (|digits| >= 2 ==> Digit(digits[1]).Some?);
    var text := prefix + digits;
    assert if prefix == "" then text == digits else text[0] == '0' && text[1] == prefix[1] && text[2..] == digits;
  }

  /** Digits may have a 0x before them, and a sign before that. */
  lemma SignedDigits(digits: string, sign: string, prefix: string)
    requires digits != "" && IsHex(digits) && Digits(digits).Some?
    requires (sign == "" || sign == "+" || sign == "-") && (prefix == "" || prefix == "0x" || prefix == "0X")
    ensures var value: int := KeyCompression.HexValue(Digits(digits).value);
            ParseInt(sign + (prefix + digits)) == Some(if sign == "-" then -value else value)
  {
    PrefixedDigits(digits, prefix);
    StartsWithDigit(digits, prefix);
    SignIsRead(prefix + digits, sign);
  }

  lemma StartsWithDigit(digits: string, prefix: string)
    requires digits != "" && IsHex(digits) && (prefix != "" ==> prefix[0] == '0')
    ensures prefix + digits != "" && (prefix + digits)[0] != '-' && (prefix + digits)[0] != '+'
  {
    assert Digit(digits[0]).Some?;
  }

  lemma SignIsRead(text: string, sign: string)
    requires text != "" && text[0] != '-' && text[0] != '+' && ParseUnsigned(text).Some?
    requires sign == "" || sign == "+" || sign == "-"
    ensures var value: int := ParseUnsigned(text).value;
            ParseInt(sign + text) == Some(if sign == "-" then -value else value)
  {
    if sign == "" {
      assert sign + text == text;
    } else {
      assert (sign + text)[1..] == text && (sign + text)[0] == sign[0];
    }
  }

  // ----- reading ---------------------------------------------------------------------------

  /** The input. A read returns at least a byte while there is one, and may return
      less than asked for; only a line end is read in one piece. */
  class Reader {
    var stream: string

    constructor (stream: string)
      ensures this.stream == stream
    {
      this.stream := stream;
    }

    method Read(n: int) returns (s: string)
      modifies this
      ensures old(stream) == s + stream && |s| <= (if n < 0 then 0 else n)
      ensures n > 0 && old(stream) != "" ==> s != ""
    {
      var most := if n < 0 then 0 else Min(n, |stream|);
      var count: nat := most;
      if most > 0 {
        count :| 1 <= count <= most;
      }
      s := stream[..count];
      stream := stream[count..];
    }

    method ReadLineEnd() returns (s: string)
      modifies this
      ensures old(stream) == s + stream && |s| == Min(|CRLF|, |old(stream)|)
    {
      var count := Min(|CRLF|, |stream|);
      s := stream[..count];
      stream := stream[count..];
    }
  }

  method ReadHeader(reader: Reader, bufsize: nat) returns (header: Option<string>)
    modifies reader
    ensures match Header(old(reader.stream), bufsize)
            case None => header == None
            case Some(n) => header == Some(old(reader.stream)[..n]) && reader.stream == old(reader.stream)[n..]
  {
    ghost var all := reader.stream;
    var h := reader.Read(1);
    while !EndsLine(h, |h|)
      invariant all == h + reader.stream && (h == "" ==> reader.stream == "")
      invariant Header(all, bufsize) == HeaderLength(all, |h|, bufsize)
      decreases |reader.stream|
    {
      assert EndsLine(all, |h|) == EndsLine(h, |h|);
      var c := reader.Read(1);
      h := h + c;
      if c == "" { return None; }
      if |h| > bufsize { return None; }
    }
    assert EndsLine(all, |h|) == EndsLine(h, |h|);
    return Some(h);
  }

  function Concat(parts: seq<string>): string
  {
    if parts == [] then "" else Concat(parts[..|parts| - 1]) + parts[|parts| - 1]
  }

  lemma ConcatAppends(parts: seq<string>, part: string)
    ensures Concat(parts + [part]) == Concat(parts) + part
  {
    assert (parts + [part])[..|parts|] == parts;
  }

  /** The data of one chunk, in as many parts as the reads return. */
  method ReadData(reader: Reader, size: int, bufsize: nat, before: seq<string>)
      returns (parts: seq<string>, complete: bool)
    requires bufsize > 0
    modifies reader
    ensures var length := if size < 0 then 0 else size;
            var data := old(reader.stream)[..Min(length, |old(reader.stream)|)];
            Concat(parts) == Concat(before) + data && old(reader.stream) == data + reader.stream &&
            (complete <==> |data| == length)
    ensures forall i :: |before| <= i < |parts| ==> 0 < |parts[i]| <= bufsize
    ensures before <= parts
  {
    parts, complete := before, true;
    ghost var all := reader.stream;
    ghost var taken := "";
    var maxread := size;
    var buff := "";
    assert Concat(before) + "" == Concat(before);
    while maxread > 0
      invariant buff == "" && all == taken + reader.stream && Concat(parts) == Concat(before) + taken
      invariant |taken| + (if maxread < 0 then 0 else maxread) == if size < 0 then 0 else size
      invariant before <= parts && forall i :: |before| <= i < |parts| ==> 0 < |parts[i]| <= bufsize
      decreases maxread
    {
      if buff == "" { buff := reader.Read(Min(maxread, bufsize)); }
      var part := buff[..Min(maxread, |buff|)];
      buff := buff[Min(maxread, |buff|)..];
      if part == "" {
        assert all[..|taken|] == taken;
        return parts, false;
      }
      ConcatAppends(parts, part);
      assert Concat(before) + taken + part == Concat(before) + (taken + part);
      assert all == (taken + part) + reader.stream;
      taken := taken + part;
      parts := parts + [part];
      maxread := maxread - |part|;
    }
    assert all[..|taken|] == taken;
  }

  /** The data of one chunk and the line end after them. */
  method ReadChunk(reader: Reader, size: int, bufsize: nat, before: seq<string>) returns (parts: seq<string>, ok: bool)
    requires bufsize > 0
    modifies reader
    ensures var (data, rest) := ChunkData(old(reader.stream), size);
            Concat(parts) == Concat(before) + data && (ok <==> rest.Some?) && (ok ==> rest.value == reader.stream)
    ensures forall i :: |before| <= i < |parts| ==> 0 < |parts[i]| <= bufsize
    ensures before <= parts
  {
    var complete;
    parts, complete := ReadData(reader, size, bufsize, before);
    if !complete { return parts, false; }
    ghost var rest := reader.stream;
    var end := reader.ReadLineEnd();
    assert rest[..|end|] == end && rest[|end|..] == reader.stream;
    return parts, end == CRLF;
  }

  /** The generator run to its end: the parts it yields, and whether it raised.
      Whatever the reads return, the parts make up the decoded body. */
  method IterChunked(reader: Reader, bufsize: nat) returns (parts: seq<string>, ok: bool)
    modifies reader
    ensures var body := Decode(old(reader.stream), bufsize);
            Concat(parts) == body.data && ok == body.ok && (ok ==> reader.stream == body.rest)
    ensures forall i :: 0 <= i < |parts| ==> 0 < |parts[i]| <= bufsize
  {
    parts := [];
    ghost var goal := Decode(reader.stream, bufsize);
    assert Following(Concat(parts), goal) == goal;
    while true
      invariant goal == Following(Concat(parts), Decode(reader.stream, bufsize))
      invariant forall i :: 0 <= i < |parts| ==> 0 < |parts[i]| <= bufsize
      decreases |reader.stream|
    {
      var header := ReadHeader(reader, bufsize);
      if header == None { return parts, false; }
      var size := SizeOf(header.value);
      if size == None { return parts, false; }
      if size.value == 0 { return parts, true; }
      ghost var before, after := Concat(parts), reader.stream;
      parts, ok := ReadChunk(reader, size.value, bufsize, parts);
      FollowingJoins(before, ChunkData(after, size.value).0, Decode(reader.stream, bufsize));
      if !ok { return parts, false; }
    }
  }

  lemma FollowingJoins(a: string, b: string, c: Body)
    ensures Following(a, Following(b, c)) == Following(a + b, c)
  {
    assert a + (b + c.data) == (a + b) + c.data;
  }
}
