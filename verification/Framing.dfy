/**
 Newline-delimited messages under a size bound
 (agent/internal/gateway/scanner.go, the reading loop and the writer in client.go).

 The buffered reader hands a line over in pieces wherever its buffer happens to
 fill; where that is, is left open here. The messages are a function of the bytes
 alone.
 */
module Framing {
  newtype byte = x: int | 0 <= x < 256

  type Bytes = seq<byte>

  const NEWLINE: byte := 10

  // ---- trimming -------------------------------------------------------------------

  /** The encoding of one white space character: ASCII, Latin-1 and the general spaces in UTF-8. */
  predicate IsSpace(s: Bytes)
  {
    || (|s| == 1 && (9 <= s[0] <= 13 || s[0] == 32))
    || (|s| == 2 && s[0] == 0xC2 && (s[1] == 0x85 || s[1] == 0xA0))
    || (|s| == 3 && s[0] == 0xE1 && s[1] == 0x9A && s[2] == 0x80)
    || (|s| == 3 && s[0] == 0xE2 && s[1] == 0x80 &&
      (0x80 <= s[2] <= 0x8A || s[2] == 0xA8 || s[2] == 0xA9 || s[2] == 0xAF))
    || (|s| == 3 && s[0] == 0xE2 && s[1] == 0x81 && s[2] == 0x9F)
    || (|s| == 3 && s[0] == 0xE3 && s[1] == 0x80 && s[2] == 0x80)
  }

  /** How many bytes of white space a text begins with, for one character. */
  function SpaceInFront(s: Bytes): (n: nat)
    ensures n <= |s| && n <= 3
  {
    if |s| >= 1 && IsSpace(s[..1]) then 1
    else if |s| >= 2 && IsSpace(s[..2]) then 2
    else if |s| >= 3 && IsSpace(s[..3]) then 3
    else 0
  }

  function SpaceBehind(s: Bytes): (n: nat)
    ensures n <= |s| && n <= 3
  {
    if |s| >= 1 && IsSpace(s[|s| - 1..]) then 1
    else if |s| >= 2 && IsSpace(s[|s| - 2..]) then 2
    else if |s| >= 3 && IsSpace(s[|s| - 3..]) then 3
    else 0
  }

  function TrimFront(s: Bytes): Bytes
    decreases |s|
  {
    if SpaceInFront(s) == 0 then s else TrimFront(s[SpaceInFront(s)..])
  }

  function TrimBehind(s: Bytes): Bytes
    decreases |s|
  {
    if SpaceBehind(s) == 0 then s else TrimBehind(s[..|s| - SpaceBehind(s)])
  }

  function TrimSpace(s: Bytes): Bytes
  {
    TrimBehind(TrimFront(s))
  }

  /** A run of white space characters. */
  ghost predicate AllSpace(s: Bytes)
    decreases |s|
  {
    s == [] || exists n :: 1 <= n <= |s| && IsSpace(s[..n]) && AllSpace(s[n..])
  }

  lemma SpaceBeforeSpace(first: Bytes, rest: Bytes)
    requires IsSpace(first) && AllSpace(rest)
    ensures AllSpace(first + rest)
  {
    hide IsSpace;
    var s, n := first + rest, |first|;
    assert s[..n] == first && s[n..] == rest;
    assert n != 0 by { EmptyIsNoSpace(); }
  }

  lemma EmptyIsNoSpace()
    ensures !IsSpace([])
  {
  }

  lemma {:induction false} SpaceAfterSpace(s: Bytes, last: Bytes)
    requires AllSpace(s) && IsSpace(last)
    ensures AllSpace(s + last)
    decreases |s|
  {
    hide IsSpace;
    if s == [] {
      SpaceBeforeSpace(last, []);
      assert s + last == last + [];
    } else {
      var n :| 1 <= n <= |s| && IsSpace(s[..n]) && AllSpace(s[n..]);
      SpaceAfterSpace(s[n..], last);
      SpaceBeforeSpace(s[..n], s[n..] + last);
      Regrouped(s[..n], s[n..], last);
      assert s[..n] + s[n..] == s;
    }
  }

  lemma SpaceFound(s: Bytes)
    ensures SpaceInFront(s) > 0 ==> IsSpace(s[..SpaceInFront(s)])
    ensures SpaceBehind(s) > 0 ==> IsSpace(s[|s| - SpaceBehind(s)..])
  {
    hide IsSpace;
  }

  lemma {:induction false} TrimFrontMeans(s: Bytes) returns (front: Bytes)
    ensures s == front + TrimFront(s) && AllSpace(front) && SpaceInFront(TrimFront(s)) == 0
    decreases |s|
  {
    hide IsSpace, SpaceInFront, AllSpace;
    var n := SpaceInFront(s);
    front := [];
    NoSpaceYet();
    if n != 0 {
      var rest := TrimFrontMeans(s[n..]);
      SpaceFound(s);
      SpaceBeforeSpace(s[..n], rest);
      front := s[..n] + rest;
      Regrouped(s[..n], rest, TrimFront(s[n..]));
      assert s == s[..n] + s[n..];
    }
  }

  lemma Regrouped(a: Bytes, b: Bytes, c: Bytes)
    ensures a + (b + c) == (a + b) + c
  {
  }

  lemma NoSpaceYet()
    ensures AllSpace([])
  {
  }

  lemma {:induction false} TrimBehindMeans(s: Bytes) returns (behind: Bytes)
    ensures s == TrimBehind(s) + behind && AllSpace(behind) && SpaceBehind(TrimBehind(s)) == 0
    decreases |s|
  {
    hide IsSpace, SpaceBehind, AllSpace;
    var n := SpaceBehind(s);
    behind := [];
    NoSpaceYet();
    if n != 0 {
      var rest := TrimBehindMeans(s[..|s| - n]);
      SpaceFound(s);
      SpaceAfterSpace(rest, s[|s| - n..]);
      behind := rest + s[|s| - n..];
      Regrouped(TrimBehind(s[..|s| - n]), rest, s[|s| - n..]);
      assert s == s[..|s| - n] + s[|s| - n..];
    }
  }

  /** What a text does not begin with, no beginning of it begins with. */
  lemma BeginningsDoNot(whole: Bytes, part: Bytes)
    requires part <= whole && SpaceInFront(whole) == 0
    ensures SpaceInFront(part) == 0
  {
    hide IsSpace;
    assert forall k :: 0 <= k <= |part| ==> part[..k] == whole[..k];
  }

  /** Only white space goes, and none is left on either side. */
  lemma TrimSpaceMeans(s: Bytes) returns (front: Bytes, behind: Bytes)
    ensures s == front + TrimSpace(s) + behind && AllSpace(front) && AllSpace(behind)
    ensures SpaceInFront(TrimSpace(s)) == 0 && SpaceBehind(TrimSpace(s)) == 0
  {
    hide IsSpace, SpaceInFront, SpaceBehind, AllSpace, TrimFront, TrimBehind;
    front := TrimFrontMeans(s);
    behind := TrimBehindMeans(TrimFront(s));
    BeginningsDoNot(TrimFront(s), TrimSpace(s));
  }

  // ---- what the bytes say ------------------------------------------------------------

  /** Up to and including the first newline, or everything. */
  function FirstLine(s: Bytes): (line: Bytes)
    ensures |line| <= |s| && (s != [] ==> line != [])
  {
    if s == [] then [] else if s[0] == NEWLINE then [s[0]] else [s[0]] + FirstLine(s[1..])
  }

  /** A line runs to the first newline and no further, or to the end. */
  lemma {:induction false} FirstLineMeans(s: Bytes)
    ensures FirstLine(s) <= s && (FirstLine(s) == s || Terminated(FirstLine(s)))
    ensures forall i :: 0 <= i < |FirstLine(s)| - 1 ==> s[i] != NEWLINE
  {
    if s != [] && s[0] != NEWLINE {
      FirstLineMeans(s[1..]);
      assert s == [s[0]] + s[1..];
    }
  }

  predicate Terminated(line: Bytes)
  {
    line != [] && line[|line| - 1] == NEWLINE
  }

  datatype Ending = Closed | Broken

  datatype Got = Message(text: Bytes) | Blank | TooLarge | EndOfInput | Failed

  /** One call, from the bytes that are left and how the input ends. */
  function NextOf(s: Bytes, limit: nat, ending: Ending): Got
  {
    var line := FirstLine(s);
    if |line| > limit then TooLarge
    else if Terminated(line) || (ending == Closed && line != []) then
      if TrimSpace(line) == [] then Blank else Message(TrimSpace(line))
    else if ending == Closed then EndOfInput else Failed
  }

  /** The last line counts without a newline if the input was closed in order, and not if it broke off. */
  lemma NextMeans(s: Bytes, limit: nat, ending: Ending)
    ensures var line, got := FirstLine(s), NextOf(s, limit, ending);
      var complete := Terminated(line) || (ending == Closed && s != []);
      && (got == TooLarge <==> |line| > limit)
      && (got.Message? || got.Blank? <==> |line| <= limit && complete)
      && (got.Message? ==> got.text == TrimSpace(line) && got.text != []) && (got.Blank? ==> TrimSpace(line) == [])
      && (got == EndOfInput <==> s == [] && ending == Closed)
      && (got == Failed <==> |line| <= limit && !Terminated(line) && ending == Broken)
  {
  }

  lemma {:induction false} LinePieces(chunk: Bytes, rest: Bytes)
    requires NEWLINE !in chunk
    ensures FirstLine(chunk + rest) == chunk + FirstLine(rest)
  {
    if chunk == [] {
      assert chunk + rest == rest;
    } else {
      var whole, line := chunk + rest, FirstLine(rest);
      assert whole[1..] == chunk[1..] + rest && whole[0] == chunk[0] && chunk[0] in chunk;
      LinePieces(chunk[1..], rest);
      assert FirstLine(whole) == [chunk[0]] + (chunk[1..] + line);
    }
  }

  lemma {:induction false} LineEnds(chunk: Bytes, rest: Bytes)
    requires NEWLINE !in chunk
    ensures FirstLine(chunk + [NEWLINE] + rest) == chunk + [NEWLINE]
    ensures FirstLine(chunk) == chunk
  {
    LinePieces(chunk, [NEWLINE] + rest);
    LinePieces(chunk, []);
    assert chunk + [NEWLINE] + rest == chunk + ([NEWLINE] + rest);
    assert chunk + [] == chunk;
  }

  // ---- the buffered reader ---------------------------------------------------------------

  datatype Slice = Delimited | BufferFull | Exhausted

  class Reader {
    var rest: Bytes
    const ending: Ending

    constructor (rest: Bytes, ending: Ending)
      ensures this.rest == rest && this.ending == ending
    {
      this.rest, this.ending := rest, ending;
    }

    /** A piece that ends at the newline, where the buffer happened to fill, or with the input. */
    method ReadSlice() returns (chunk: Bytes, slice: Slice)
      modifies this
      ensures old(rest) == chunk + rest
      ensures slice == Delimited ==> chunk != [] && chunk[|chunk| - 1] == NEWLINE && NEWLINE !in chunk[..|chunk| - 1]
      ensures slice == BufferFull ==> chunk != [] && NEWLINE !in chunk
      ensures slice == Exhausted ==> rest == [] && NEWLINE !in chunk
    {
      var n := 0;
      while n < |rest| && rest[n] != NEWLINE
        invariant n <= |rest| && NEWLINE !in rest[..n]
      {
        assert rest[..n + 1] == rest[..n] + [rest[n]];
        n := n + 1;
        var full: bool := *;
        if full {
          chunk, rest := rest[..n], rest[n..];
          return chunk, BufferFull;
        }
      }
      if n == |rest| {
        chunk, rest := rest, [];
        return chunk, Exhausted;
      }
      assert rest[..n + 1][..n] == rest[..n];
      chunk, rest := rest[..n + 1], rest[n + 1..];
      return chunk, Delimited;
    }
  }

  // ---- the scanner ----------------------------------------------------------------------

  class LineScanner {
    const reader: Reader
    const limit: nat
    var buffer: Bytes

    constructor (reader: Reader, limit: nat)
      ensures this.reader == reader && this.limit == limit && buffer == []
    {
      this.reader, this.limit, buffer := reader, limit, [];
    }

    /** Wherever the pieces were cut, the answer and what is left depend on the bytes alone. */
    method Next() returns (got: Got)
      modifies this`buffer, reader
      ensures got == NextOf(old(reader.rest), limit, reader.ending)
      ensures got != TooLarge ==> reader.rest == old(reader.rest)[|FirstLine(old(reader.rest))|..]
      ensures |buffer| <= limit
    {
      hide TrimSpace, FirstLine, Terminated;
      buffer := [];
      assert buffer + reader.rest == reader.rest;
      ghost var stream := reader.rest;
      while true
        invariant NEWLINE !in buffer && stream == buffer + reader.rest && |buffer| <= limit
        decreases |reader.rest|
      {
        var chunk, slice := reader.ReadSlice();
        assert stream == buffer + (chunk + reader.rest);
        LineSoFar(stream, buffer, chunk, reader.rest, slice);
        if |buffer| + |chunk| > limit {
          return TooLarge;
        }
        buffer := buffer + chunk;
        if slice == BufferFull {
          continue;
        }
        if slice == Exhausted && !(reader.ending == Closed && |buffer| > 0) {
          return if reader.ending == Closed then EndOfInput else Failed;
        }
        var line := TrimSpace(buffer);
        if |line| == 0 {
          return Blank;
        }
        return Message(line);
      }
    }

    /** What the pieces read so far say about the line. */
    static lemma LineSoFar(stream: Bytes, buffer: Bytes, chunk: Bytes, rest: Bytes, slice: Slice)
      requires stream == buffer + (chunk + rest) && NEWLINE !in buffer
      requires slice == Delimited ==> chunk != [] && chunk[|chunk| - 1] == NEWLINE && NEWLINE !in chunk[..|chunk| - 1]
      requires slice == BufferFull ==> chunk != [] && NEWLINE !in chunk
      requires slice == Exhausted ==> rest == [] && NEWLINE !in chunk
      ensures |FirstLine(stream)| >= |buffer + chunk| && stream == (buffer + chunk) + rest
      ensures slice != BufferFull ==> FirstLine(stream) == buffer + chunk && stream[|buffer + chunk|..] == rest
      ensures slice == Exhausted ==> !Terminated(buffer + chunk)
      ensures slice == Delimited ==> Terminated(buffer + chunk)
      ensures slice == BufferFull ==> NEWLINE !in buffer + chunk
    {
      assert stream == (buffer + chunk) + rest;
      match slice
      case Delimited =>
        var text := buffer + chunk[..|chunk| - 1];
        assert buffer + chunk == text + [NEWLINE];
        LineEnds(text, rest);
      case BufferFull => LinePieces(buffer + chunk, rest);
      case Exhausted =>
        assert (buffer + chunk) + rest == buffer + chunk;
        LineEnds(buffer + chunk, []);
    }
  }

  // ---- a whole connection -------------------------------------------------------------------

  /** Everything read until something stops the reading, and what did; blank lines are skipped. */
  function Messages(s: Bytes, limit: nat, ending: Ending): (seq<Bytes>, Got)
    decreases |s|
  {
    var got := NextOf(s, limit, ending);
    if !got.Message? && !got.Blank? then ([], got)
    else
      var rest := Messages(s[|FirstLine(s)|..], limit, ending);
      (if got.Message? then [got.text] + rest.0 else rest.0, rest.1)
  }

  method ReadMessages(scanner: LineScanner) returns (messages: seq<Bytes>, stop: Got)
    modifies scanner, scanner.reader
    ensures (messages, stop) == Messages(old(scanner.reader.rest), scanner.limit, scanner.reader.ending)
  {
    hide NextOf;
    messages := [];
    ghost var limit, ending := scanner.limit, scanner.reader.ending;
    ghost var all := Messages(scanner.reader.rest, limit, ending);
    while true
      invariant messages + Messages(scanner.reader.rest, limit, ending).0 == all.0
      invariant Messages(scanner.reader.rest, limit, ending).1 == all.1
      decreases |scanner.reader.rest|
    {
      ghost var rest := scanner.reader.rest;
      LineIsRead(rest, limit, ending);
      var got := scanner.Next();
      if got.Message? {
        assert messages + ([got.text] + Messages(scanner.reader.rest, limit, ending).0) == all.0;
        messages := messages + [got.text];
      } else if !got.Blank? {
        assert Messages(rest, limit, ending) == ([], got) && messages + [] == messages;
        return messages, got;
      }
    }
  }

  lemma LineIsRead(s: Bytes, limit: nat, ending: Ending)
    ensures NextOf(s, limit, ending).Message? || NextOf(s, limit, ending).Blank? ==> s != []
  {
  }

  // ---- what the peer wrote --------------------------------------------------------------------

  /** An encoded object: braces around it and every line break escaped. */
  predicate Encoded(m: Bytes)
  {
    |m| >= 2 && m[0] == 123 && m[|m| - 1] == 125 && NEWLINE !in m
  }

  /** Each message followed by a newline. */
  function Written(messages: seq<Bytes>): Bytes
  {
    if messages == [] then [] else messages[0] + [NEWLINE] + Written(messages[1..])
  }

  lemma FrontStays(s: Bytes)
    requires s != [] && s[0] == 123
    ensures SpaceInFront(s) == 0 && TrimFront(s) == s
  {
    assert !IsSpace(s[..1]);
    assert |s| >= 2 ==> !IsSpace(s[..2]);
    assert |s| >= 3 ==> !IsSpace(s[..3]);
  }

  lemma BehindStays(s: Bytes)
    requires s != [] && s[|s| - 1] == 125
    ensures SpaceBehind(s) == 0 && TrimBehind(s) == s
  {
    assert !IsSpace(s[|s| - 1..]);
    assert |s| >= 2 ==> !IsSpace(s[|s| - 2..]);
    assert |s| >= 3 ==> !IsSpace(s[|s| - 3..]);
  }

  lemma NewlineGoes(s: Bytes)
    ensures TrimBehind(s + [NEWLINE]) == TrimBehind(s)
  {
    hide IsSpace;
    var line := s + [NEWLINE];
    assert line[|line| - 1..] == [NEWLINE];
    NewlineIsSpace();
    assert SpaceBehind(line) == 1;
    assert line[..|line| - 1] == s;
  }

  lemma NewlineIsSpace()
    ensures IsSpace([NEWLINE])
  {
  }

  lemma TrimsOnlyTheNewline(m: Bytes)
    requires Encoded(m)
    ensures TrimSpace(m + [NEWLINE]) == m
  {
    hide TrimFront, TrimBehind, SpaceInFront, SpaceBehind;
    FrontStays(m + [NEWLINE]);
    NewlineGoes(m);
    BehindStays(m);
  }

  /** One written message is the next one read, or is refused for its size. */
  lemma WrittenIsNext(m: Bytes, rest: Bytes, limit: nat, ending: Ending)
    requires Encoded(m)
    ensures NextOf(m + [NEWLINE] + rest, limit, ending) == if |m| + 1 <= limit then Message(m) else TooLarge
    ensures (m + [NEWLINE] + rest)[|FirstLine(m + [NEWLINE] + rest)|..] == rest
  {
    hide TrimSpace;
    LineEnds(m, rest);
    TrimsOnlyTheNewline(m);
  }

  /**
   What was written is read back unchanged, in order, up to the first message that
   is over the limit with its newline; if there is none, nothing is missing.
   */
  lemma {:induction false} ReadBack(messages: seq<Bytes>, limit: nat, n: nat)
    requires forall i :: 0 <= i < |messages| ==> Encoded(messages[i])
    requires n <= |messages| && (forall i :: 0 <= i < n ==> |messages[i]| + 1 <= limit)
    requires n < |messages| ==> |messages[n]| + 1 > limit
    ensures Messages(Written(messages), limit, Closed) ==
      (messages[..n], if n < |messages| then TooLarge else EndOfInput)
  {
    hide NextOf, Encoded;
    if messages == [] {
      NothingToRead(limit);
    } else {
      WrittenIsNext(messages[0], Written(messages[1..]), limit, Closed);
      if n > 0 {
        ReadBack(messages[1..], limit, n - 1);
        assert [messages[0]] + messages[1..][..n - 1] == messages[..n];
      }
    }
  }

  lemma NothingToRead(limit: nat)
    ensures NextOf([], limit, Closed) == EndOfInput
  {
  }
}
