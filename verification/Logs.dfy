/**
 Log lines from a container to a caller, with every lost line accounted for
 (agent/internal/docker/logs.go and api/src/logs/log-stream.service.ts).

 The batcher keeps a ghost copy of everything it was given and everything it
 handed on. A batch is the stretch of the input that begins where the previous
 one ended, after as many lines as it says were dropped.
 */
module Logs {
  import opened Wrappers

  const MAX_LINE_BYTES := 8192
  const MAX_BATCH_LINES := 200
  const MAX_BATCH_BYTES := 65536
  const MAX_TAIL := 5000

  /** Messages are bytes here; a character stands for one. */
  datatype LogLine = LogLine(stream: string, timestamp: string, message: string, truncated: bool)

  datatype LogBatch = LogBatch(lines: seq<LogLine>, dropped: nat)

  // ---- cutting one line -------------------------------------------------------------

  function Joined(lines: seq<LogLine>): string
  {
    if lines == [] then "" else Joined(lines[..|lines| - 1]) + lines[|lines| - 1].message
  }

  lemma JoinedNone()
    ensures Joined([]) == ""
  {
  }

  lemma JoinedAlone(line: LogLine)
    ensures Joined([line]) == line.message
  {
    assert [line][..0] == [];
  }

  lemma JoinedOneMore(lines: seq<LogLine>, line: LogLine, rest: string)
    ensures Joined(lines + [line]) + rest == Joined(lines) + (line.message + rest)
  {
    assert (lines + [line])[..|lines|] == lines;
  }

  /** Nothing of a long line is lost, no piece is over the limit, and every piece is marked. */
  method SplitOversized(text: string, stream: string) returns (lines: seq<LogLine>)
    ensures Joined(lines) == text
    ensures forall i :: 0 <= i < |lines| ==>
      |lines[i].message| <= MAX_LINE_BYTES && lines[i].stream == stream && lines[i].timestamp == ""
    ensures forall i :: 0 <= i < |lines| ==> (lines[i].truncated <==> |text| > MAX_LINE_BYTES)
    ensures forall i :: 0 <= i < |lines| - 1 ==> |lines[i].message| == MAX_LINE_BYTES
    ensures |text| <= MAX_LINE_BYTES ==> |lines| == 1
    ensures |text| > MAX_LINE_BYTES ==> forall i :: 0 <= i < |lines| ==> lines[i].message != ""
  {
    hide Joined;
    JoinedNone();
    if |text| <= MAX_LINE_BYTES {
      lines := [LogLine(stream, "", text, false)];
      JoinedAlone(lines[0]);
      return;
    }
    lines := [];
    var rest := text;
    while |rest| > 0
      invariant Joined(lines) + rest == text && (rest == "" ==> Joined(lines) == text)
      invariant forall i :: 0 <= i < |lines| ==> Piece(lines[i], stream)
      invariant forall i :: 0 <= i < |lines| && (i < |lines| - 1 || rest != "") ==> |lines[i].message| == MAX_LINE_BYTES
      decreases |rest|
    {
      var size := if |rest| < MAX_LINE_BYTES then |rest| else MAX_LINE_BYTES;
      JoinedOneMore(lines, LogLine(stream, "", rest[..size], true), rest[size..]);
      assert rest == rest[..size] + rest[size..];
      lines := lines + [LogLine(stream, "", rest[..size], true)];
      rest := rest[size..];
    }
  }

  /** One of the pieces of a line that was too long. */
  predicate Piece(line: LogLine, stream: string)
  {
    0 < |line.message| <= MAX_LINE_BYTES && line.stream == stream && line.timestamp == "" && line.truncated
  }

  /** The prefix up to the first blank, if it parses as a time. */
  function SplitTimestamp(message: string, parses: string -> bool): (r: (string, string))
    ensures r.0 == "" ==> r.1 == message
    ensures r.0 != "" ==> r.0 + " " + r.1 == message && ' ' !in r.0 && parses(r.0)
    ensures r.0 != "" <==>
      exists n :: 0 < n < |message| && message[n] == ' ' && ' ' !in message[..n] && parses(message[..n])
  {
    var space := FirstBlank(message);
    if space == 0 || space == |message| || !parses(message[..space]) then ("", message)
    else (message[..space], message[space + 1..])
  }

  function FirstBlank(message: string): (n: nat)
    ensures n <= |message| && (n < |message| ==> message[n] == ' ') && ' ' !in message[..n]
  {
    if message == "" || message[0] == ' ' then 0
    else
      var n := FirstBlank(message[1..]);
      assert message[..n + 1] == [message[0]] + message[1..][..n];
      n + 1
  }

  // ---- what was handed on -------------------------------------------------------------

  /** The lines a run of batches speaks for: delivered or reported as dropped. */
  function Covered(batches: seq<LogBatch>): nat
  {
    if batches == [] then 0
    else Covered(batches[..|batches| - 1]) + batches[|batches| - 1].dropped + |batches[|batches| - 1].lines|
  }

  function Bytes(lines: seq<LogLine>): nat
  {
    if lines == [] then 0 else Bytes(lines[..|lines| - 1]) + |lines[|lines| - 1].message|
  }

  ghost predicate Within(batch: LogBatch)
  {
    |batch.lines| <= MAX_BATCH_LINES && Bytes(batch.lines) <= MAX_BATCH_BYTES - 1 + MAX_LINE_BYTES
  }

  /** A batch holds the input that follows what came before it, after exactly the lines it reports lost. */
  ghost predicate Placed(batch: LogBatch, start: nat, input: seq<LogLine>)
  {
    && start + batch.dropped + |batch.lines| <= |input|
    && batch.lines == input[start + batch.dropped..start + batch.dropped + |batch.lines|]
  }

  ghost predicate AllPlaced(batches: seq<LogBatch>, input: seq<LogLine>)
  {
    forall k :: 0 <= k < |batches| ==> Placed(batches[k], Covered(batches[..k]), input) && Within(batches[k])
  }

  lemma MoreInput(batches: seq<LogBatch>, input: seq<LogLine>, line: LogLine)
    requires AllPlaced(batches, input)
    ensures AllPlaced(batches, input + [line])
  {
    forall k | 0 <= k < |batches|
      ensures Placed(batches[k], Covered(batches[..k]), input + [line])
    {
      assert Placed(batches[k], Covered(batches[..k]), input);
    }
  }

  lemma MoreDelivered(batches: seq<LogBatch>, batch: LogBatch, input: seq<LogLine>)
    requires AllPlaced(batches, input) && Placed(batch, Covered(batches), input) && Within(batch)
    ensures AllPlaced(batches + [batch], input)
    ensures Covered(batches + [batch]) == Covered(batches) + batch.dropped + |batch.lines|
  {
    var more := batches + [batch];
    assert more[..|batches|] == batches;
    forall k | 0 <= k < |more|
      ensures Placed(more[k], Covered(more[..k]), input) && Within(more[k])
    {
      assert more[..k] == batches[..k];
      assert batches[..|batches|] == batches;
    }
  }

  /** The lines that wait are the end of the input, after the drops nobody was told of. */
  lemma WaitingIsPlaced(lines: seq<LogLine>, dropped: nat, covered: nat, input: seq<LogLine>)
    requires |input| == covered + dropped + |lines| && lines == input[|input| - |lines|..]
    requires |lines| <= MAX_BATCH_LINES && Bytes(lines) <= MAX_BATCH_BYTES - 1 + MAX_LINE_BYTES
    ensures Placed(LogBatch(lines, dropped), covered, input) && Within(LogBatch(lines, dropped))
  {
  }

  lemma NothingWaits()
    ensures Bytes([]) == 0
  {
  }

  /** Lines added are the lines spoken for, the drops not yet reported and the lines waiting. */
  ghost predicate Accounts(input: seq<LogLine>, delivered: seq<LogBatch>, dropped: nat, lines: seq<LogLine>, bytes: nat)
  {
    && |input| == Covered(delivered) + dropped + |lines|
    && lines == input[|input| - |lines|..]
    && AllPlaced(delivered, input)
    && bytes == Bytes(lines)
    && |lines| <= MAX_BATCH_LINES && bytes <= MAX_BATCH_BYTES - 1 + MAX_LINE_BYTES
  }

  lemma NothingYet()
    ensures Accounts([], [], 0, [], 0)
  {
  }

  // ---- what the batcher does, without its account --------------------------------------

  /** What waits, what was lost and not yet reported, and what was handed on. */
  datatype Buffer = Buffer(lines: seq<LogLine>, dropped: nat, delivered: seq<LogBatch>)

  /** What waits goes out as one batch with the loss before it, or is lost as well. */
  function Flushed(b: Buffer, room: bool): Buffer
  {
    if b.lines == [] && b.dropped == 0 then b
    else if room then Buffer([], 0, b.delivered + [LogBatch(b.lines, b.dropped)])
    else Buffer([], b.dropped + |b.lines|, b.delivered)
  }

  /** A line waits; what waits goes out once it is 200 lines or 64 KiB. */
  function Added(b: Buffer, line: LogLine, room: bool): Buffer
  {
    var more := b.(lines := b.lines + [line]);
    if |more.lines| >= MAX_BATCH_LINES || Bytes(more.lines) >= MAX_BATCH_BYTES then Flushed(more, room) else more
  }

  /** Nothing was lost. */
  ghost predicate Whole(b: Buffer)
  {
    b.dropped == 0 && forall k :: 0 <= k < |b.delivered| ==> b.delivered[k].dropped == 0
  }

  /** With no drop reported, what was handed on is the input from its beginning. */
  lemma {:induction false} NothingMissing(batches: seq<LogBatch>, input: seq<LogLine>)
    requires AllPlaced(batches, input) && forall k :: 0 <= k < |batches| ==> batches[k].dropped == 0
    ensures Covered(batches) <= |input| && AllLines(batches) == input[..Covered(batches)]
  {
    hide AllPlaced, Within;
    if batches != [] {
      var n := |batches| - 1;
      FirstArePlaced(batches, input);
      NothingMissing(batches[..n], input);
      var c := Covered(batches[..n]);
      assert input[..c + |batches[n].lines|] == input[..c] + input[c..c + |batches[n].lines|];
    }
  }

  // ---- the batcher ----------------------------------------------------------------------

  class Batcher {
    const timestamps: bool
    const parses: string -> bool
    var lines: seq<LogLine>
    var bytes: nat
    var dropped: nat
    /** Everything added, as it was kept, and everything handed on. */
    ghost var input: seq<LogLine>
    ghost var delivered: seq<LogBatch>

    ghost predicate Valid()
      reads this
    {
      Accounts(input, delivered, dropped, lines, bytes)
    }

    /** Between calls there is room for at least one more line. */
    ghost predicate Ready()
      reads this
    {
      Valid() && |lines| < MAX_BATCH_LINES && bytes < MAX_BATCH_BYTES
    }

    constructor (timestamps: bool, parses: string -> bool)
      ensures Ready() && input == [] && delivered == [] && dropped == 0
      ensures this.timestamps == timestamps && this.parses == parses
    {
      hide Accounts;
      this.timestamps, this.parses := timestamps, parses;
      lines, bytes, dropped, input, delivered := [], 0, 0, [], [];
      NothingYet();
    }

    /** What a line becomes before it is kept. */
    function Kept(line: LogLine): (kept: LogLine)
      ensures |kept.message| <= |line.message| && kept.stream == line.stream && kept.truncated == line.truncated
      ensures !timestamps ==> kept == line
      ensures timestamps ==>
        line.message == if kept.timestamp == "" then kept.message else kept.timestamp + " " + kept.message
      ensures timestamps ==> (kept.timestamp, kept.message) == SplitTimestamp(line.message, parses)
    {
      if timestamps then
        var split := SplitTimestamp(line.message, parses);
        line.(timestamp := split.0, message := split.1)
      else line
    }

    ghost function Contents(): Buffer
      reads this
    {
      Buffer(lines, dropped, delivered)
    }

    /** What some signals make of an empty batcher. */
    ghost function After(signals: seq<Signal>): Buffer
    {
      if signals == [] then Buffer([], 0, [])
      else
        var before := After(signals[..|signals| - 1]);
        match signals[|signals| - 1]
        case Line(line, room) => Added(before, Kept(line), room)
        case Tick(room) => Flushed(before, room)
    }

    /** With room at every signal nothing is lost. */
    lemma {:induction false} RoomLosesNothing(signals: seq<Signal>)
      requires forall i :: 0 <= i < |signals| ==> signals[i].room
      ensures Whole(After(signals))
    {
      if signals != [] { RoomLosesNothing(signals[..|signals| - 1]); }
    }

    /** `room` says whether the consumer's queue takes the batch. */
    method Flush(room: bool)
      requires Valid()
      modifies this`lines, this`bytes, this`dropped, this`delivered
      ensures Ready() && lines == [] && Contents() == Flushed(old(Contents()), room)
      ensures old(|lines| == 0 && dropped == 0) || !room ==> delivered == old(delivered)
      ensures !old(|lines| == 0 && dropped == 0) && room ==>
        delivered == old(delivered) + [LogBatch(old(lines), old(dropped))] && dropped == 0
      ensures !room ==> dropped == old(dropped) + |old(lines)|
    {
      hide AllPlaced, Covered, Within, Placed;
      NothingWaits();
      if |lines| == 0 && dropped == 0 {
        return;
      }
      var batch := LogBatch(lines, dropped);
      if room {
        WaitingIsPlaced(lines, dropped, Covered(delivered), input);
        MoreDelivered(delivered, batch, input);
        delivered := delivered + [batch];
        dropped := 0;
      } else {
        dropped := dropped + |lines|;
      }
      lines := [];
      bytes := 0;
    }

    /** One more line of input; nothing already handed on changes. */
    method Add(line: LogLine, room: bool)
      requires Ready() && |line.message| <= MAX_LINE_BYTES
      modifies this`lines, this`bytes, this`dropped, this`input, this`delivered
      ensures Ready() && input == old(input) + [Kept(line)] && old(delivered) <= delivered
      ensures Contents() == Added(old(Contents()), Kept(line), room)
    {
      MoreInput(delivered, input, Kept(line));
      Keep(Kept(line));
      if |lines| >= MAX_BATCH_LINES || bytes >= MAX_BATCH_BYTES {
        Flush(room);
      }
    }

    method Keep(line: LogLine)
      requires Ready() && |line.message| <= MAX_LINE_BYTES
      requires AllPlaced(delivered, input + [line])
      modifies this`lines, this`bytes, this`input
      ensures Valid() && input == old(input) + [line] && lines == old(lines) + [line]
    {
      lines := lines + [line];
      bytes := bytes + |line.message|;
      input := input + [line];
      assert lines[..|lines| - 1] == old(lines);
    }
  }

  /** What the reading loop waits for; `room` is what the queue would say at that moment. */
  datatype Signal = Line(line: LogLine, room: bool) | Tick(room: bool)

  function LinesOf(signals: seq<Signal>): seq<LogLine>
  {
    if signals == [] then []
    else
      var last := signals[|signals| - 1];
      LinesOf(signals[..|signals| - 1]) + if last.Line? then [last.line] else []
  }

  /**
   The reading loop until the output closes or the stream is cancelled, either of
   which flushes once more. When that last flush finds room, every line that was
   ever read has been delivered or reported as dropped, and when every flush did,
   every line was delivered.
   */
  method ReadLogs(b: Batcher, signals: seq<Signal>, room: bool)
    requires b.Ready() && b.input == [] && b.dropped == 0 && b.delivered == []
    requires forall i :: 0 <= i < |signals| && signals[i].Line? ==> |signals[i].line.message| <= MAX_LINE_BYTES
    modifies b
    ensures b.Valid() && b.lines == [] && |b.input| == |LinesOf(signals)|
    ensures forall i :: 0 <= i < |b.input| ==> b.input[i] == b.Kept(LinesOf(signals)[i])
    ensures Covered(b.delivered) + b.dropped == |LinesOf(signals)|
    ensures room ==> b.dropped == 0
    ensures b.Contents() == Flushed(b.After(signals), room)
    ensures room && (forall i :: 0 <= i < |signals| ==> signals[i].room) ==>
      AllLines(b.delivered) == b.input && forall k :: 0 <= k < |b.delivered| ==> b.delivered[k].dropped == 0
  {
    hide Covered, AllPlaced, Batcher.Kept, AllLines, Bytes;
    for i := 0 to |signals|
      invariant b.Ready() && |b.input| == |LinesOf(signals[..i])| && b.Contents() == b.After(signals[..i])
      invariant forall k :: 0 <= k < |b.input| ==> b.input[k] == b.Kept(LinesOf(signals[..i])[k])
    {
      assert signals[..i + 1][..i] == signals[..i];
      match signals[i]
      case Line(line, space) => b.Add(line, space);
      case Tick(space) => b.Flush(space);
    }
    assert signals[..|signals|] == signals;
    b.Flush(room);
    if room && forall i :: 0 <= i < |signals| ==> signals[i].room {
      b.RoomLosesNothing(signals);
      NothingMissing(b.delivered, b.input);
      assert b.input[..|b.input|] == b.input;
    }
  }

  // ---- the server's side ---------------------------------------------------------------------

  /** A decoded JSON value, as far as it is looked at. */
  datatype Value = Absent | Text(text: string) | Flag(flag: bool) | Anything

  datatype Entry = NotAnObject | Entry(stream: Value, timestamp: Value, message: Value, truncated: Value)

  datatype Payload = NoLines | Entries(entries: seq<Entry>)

  datatype ShownLine = ShownLine(stderr: bool, timestamp: Option<string>, message: string, truncated: bool)

  /** What is read from an entry, whatever it holds; something that is no object is left out. */
  function ReadEntry(entry: Entry): seq<ShownLine>
  {
    match entry
    case NotAnObject => []
    case Entry(stream, timestamp, message, truncated) =>
      [ShownLine(
        stream == Text("stderr"),
        if timestamp.Text? then Some(timestamp.text) else None,
        if message.Text? then message.text else "",
        truncated == Flag(true))]
  }

  function ReadAll(entries: seq<Entry>): seq<ShownLine>
  {
    if entries == [] then [] else ReadAll(entries[..|entries| - 1]) + ReadEntry(entries[|entries| - 1])
  }

  method ReadLines(payload: Payload) returns (result: seq<ShownLine>)
    ensures result == if payload.NoLines? then [] else ReadAll(payload.entries)
  {
    if payload.NoLines? {
      return [];
    }
    result := [];
    for i := 0 to |payload.entries|
      invariant result == ReadAll(payload.entries[..i])
    {
      assert payload.entries[..i + 1][..i] == payload.entries[..i];
      var entry := payload.entries[i];
      if entry == NotAnObject {
        continue;
      }
      result := result + [ShownLine(
        entry.stream == Text("stderr"),
        if entry.timestamp.Text? then Some(entry.timestamp.text) else None,
        if entry.message.Text? then entry.message.text else "",
        entry.truncated == Flag(true))];
    }
    assert payload.entries[..|payload.entries|] == payload.entries;
  }

  /** Something that is no object shows nothing; any other entry one line, with what is unreadable left empty. */
  lemma EntryShows(entry: Entry)
    ensures |ReadEntry(entry)| == if entry == NotAnObject then 0 else 1
    ensures entry != NotAnObject ==>
      var line := ReadEntry(entry)[0];
      && (line.stderr <==> entry.stream == Text("stderr")) && (line.truncated <==> entry.truncated == Flag(true))
      && (forall text :: line.timestamp == Some(text) <==> entry.timestamp == Text(text))
      && (entry.message.Text? ==> line.message == entry.message.text) && (!entry.message.Text? ==> line.message == "")
  {
  }

  /** How the agent writes a line: an empty timestamp and an unset mark are left out. */
  function Encoded(line: LogLine): Entry
  {
    Entry(Text(line.stream), if line.timestamp == "" then Absent else Text(line.timestamp), Text(line.message),
          if line.truncated then Flag(true) else Absent)
  }

  function Encode(lines: seq<LogLine>): seq<Entry>
  {
    seq(|lines|, i requires 0 <= i < |lines| => Encoded(lines[i]))
  }

  function Shown(line: LogLine): ShownLine
  {
    ShownLine(line.stream == "stderr", if line.timestamp == "" then None else Some(line.timestamp),
      line.message, line.truncated)
  }

  /** Every line the agent sends is read back as it was, and none is left out. */
  lemma {:induction false} ReadsWhatWasSent(lines: seq<LogLine>)
    ensures |ReadAll(Encode(lines))| == |lines|
    ensures forall i :: 0 <= i < |lines| ==> ReadAll(Encode(lines))[i] == Shown(lines[i])
  {
    if lines != [] {
      var n := |lines| - 1;
      ReadsWhatWasSent(lines[..n]);
      assert Encode(lines)[..n] == Encode(lines[..n]);
    }
  }

  /** The lines of a run of batches, one after another. */
  function AllLines(batches: seq<LogBatch>): seq<LogLine>
  {
    if batches == [] then [] else AllLines(batches[..|batches| - 1]) + batches[|batches| - 1].lines
  }

  class Snapshot {
    var collected: seq<ShownLine>
    var dropped: nat

    constructor ()
      ensures collected == [] && dropped == 0
    {
      collected, dropped := [], 0;
    }

    /** One delivery: what the agent lost is added, then as many lines as still fit are kept. */
    method TakeChunk(payload: Payload, droppedByAgent: nat)
      requires |collected| <= MAX_TAIL
      modifies this
      ensures var lines := if payload.NoLines? then [] else ReadAll(payload.entries);
        && |collected| <= MAX_TAIL
        && collected == Fitting(old(collected) + lines)
        && |collected| + dropped == old(|collected| + dropped) + |lines| + droppedByAgent
    {
      hide Fitting;
      AllFit(collected);
      if droppedByAgent > 0 {
        dropped := dropped + droppedByAgent;
      }
      var lines := ReadLines(payload);
      for i := 0 to |lines|
        invariant |collected| <= MAX_TAIL && collected == Fitting(old(collected) + lines[..i])
        invariant |collected| + dropped == old(|collected| + dropped) + i + droppedByAgent
      {
        assert old(collected) + lines[..i + 1] == old(collected) + lines[..i] + [lines[i]];
        OneMoreFits(old(collected) + lines[..i], lines[i]);
        if |collected| < MAX_TAIL {
          collected := collected + [lines[i]];
        } else {
          dropped := dropped + 1;
        }
      }
      assert lines[..|lines|] == lines;
    }
  }

  function Fitting(lines: seq<ShownLine>): seq<ShownLine>
  {
    if |lines| <= MAX_TAIL then lines else lines[..MAX_TAIL]
  }

  lemma AllFit(lines: seq<ShownLine>)
    requires |lines| <= MAX_TAIL
    ensures Fitting(lines + []) == lines && lines + [] == lines
  {
  }

  lemma OneMoreFits(lines: seq<ShownLine>, line: ShownLine)
    ensures var fits := Fitting(lines);
      |fits| <= MAX_TAIL && Fitting(lines + [line]) == if |fits| < MAX_TAIL then fits + [line] else fits
  {
  }

  /** Where in the input a delivered line came from. */
  function Position(batches: seq<LogBatch>, i: nat): nat
    requires i < |AllLines(batches)|
  {
    var n := |batches| - 1;
    var before := |AllLines(batches[..n])|;
    if i < before then Position(batches[..n], i) else Covered(batches[..n]) + batches[n].dropped + (i - before)
  }

  lemma FirstArePlaced(batches: seq<LogBatch>, input: seq<LogLine>)
    requires AllPlaced(batches, input) && batches != []
    ensures var n := |batches| - 1;
      AllPlaced(batches[..n], input) && Placed(batches[n], Covered(batches[..n]), input)
  {
    var n := |batches| - 1;
    forall k | 0 <= k < n
      ensures Placed(batches[..n][k], Covered(batches[..n][..k]), input) && Within(batches[..n][k])
    {
      assert batches[..k] == batches[..n][..k];
      assert Placed(batches[k], Covered(batches[..k]), input);
    }
  }

  /** What is delivered comes from the input, at a place the batches so far speak for. */
  lemma {:induction false} DeliveredFromInput(batches: seq<LogBatch>, input: seq<LogLine>, i: nat)
    requires AllPlaced(batches, input) && i < |AllLines(batches)|
    ensures Position(batches, i) < Covered(batches) <= |input|
    ensures input[Position(batches, i)] == AllLines(batches)[i]
  {
    hide AllPlaced;
    FirstArePlaced(batches, input);
    var n := |batches| - 1;
    if i < |AllLines(batches[..n])| {
      DeliveredFromInput(batches[..n], input, i);
    }
  }

  /** What is delivered keeps the order of the input, so lines are missing only where drops are reported. */
  lemma {:induction false} DeliveredInOrder(batches: seq<LogBatch>, input: seq<LogLine>, i: nat)
    requires AllPlaced(batches, input) && 0 < i < |AllLines(batches)|
    ensures Position(batches, i - 1) < Position(batches, i)
  {
    hide AllPlaced;
    FirstArePlaced(batches, input);
    var n := |batches| - 1;
    var before := |AllLines(batches[..n])|;
    if i < before {
      DeliveredInOrder(batches[..n], input, i);
    } else if i == before {
      DeliveredFromInput(batches[..n], input, i - 1);
    }
  }

  /**
   A snapshot fed with the batches the agent delivered: lines kept and lines counted
   as lost together are exactly the input up to the end of the last batch.
   */
  method Collect(batches: seq<LogBatch>) returns (snapshot: Snapshot)
    ensures fresh(snapshot)
    ensures |snapshot.collected| + snapshot.dropped == Covered(batches)
    ensures |snapshot.collected| == if |AllLines(batches)| <= MAX_TAIL then |AllLines(batches)| else MAX_TAIL
    ensures forall i :: 0 <= i < |snapshot.collected| ==> snapshot.collected[i] == Shown(AllLines(batches)[i])
  {
    snapshot := new Snapshot();
    for k := 0 to |batches|
      invariant fresh(snapshot) && |snapshot.collected| + snapshot.dropped == Covered(batches[..k])
      invariant |snapshot.collected| ==
        if |AllLines(batches[..k])| <= MAX_TAIL then |AllLines(batches[..k])| else MAX_TAIL
      invariant forall i :: 0 <= i < |snapshot.collected| ==> snapshot.collected[i] == Shown(AllLines(batches[..k])[i])
    {
      assert batches[..k + 1][..k] == batches[..k];
      ReadsWhatWasSent(batches[k].lines);
      snapshot.TakeChunk(Entries(Encode(batches[k].lines)), batches[k].dropped);
    }
    assert batches[..|batches|] == batches;
  }

  // ---- a decimal argument ------------------------------------------------------------------

  function Decimal(digits: string): int
  {
    if digits == "" then 0 else Decimal(digits[..|digits| - 1]) * 10 + (digits[|digits| - 1] as int - '0' as int)
  }

  function Power10(n: nat): (p: nat)
    ensures p >= 1
  {
    if n == 0 then 1 else 10 * Power10(n - 1)
  }

  lemma {:induction false} PowersMultiply(a: nat, b: nat)
    ensures Power10(a + b) == Power10(a) * Power10(b)
  {
    if a > 0 {
      PowersMultiply(a - 1, b);
    }
  }

  lemma TwentyDigits()
    ensures Power10(20) > 0x8000_0000_0000_0000
  {
    assert Power10(5) == 100000 by {
      assert Power10(2) == 100;
      PowersMultiply(2, 3);
    }
    PowersMultiply(5, 5);
    PowersMultiply(10, 10);
  }

  /** What is already written stands for what was divided away. */
  lemma {:induction false} DigitInFront(c: char, digits: string)
    ensures Decimal([c] + digits) == (c as int - '0' as int) * Power10(|digits|) + Decimal(digits)
  {
    var k := c as int - '0' as int;
    if digits == "" {
      assert [c][..0] == "";
    } else {
      var n := |digits| - 1;
      var whole := [c] + digits;
      assert whole[..n + 1] == [c] + digits[..n] && whole[n + 1] == digits[n];
      DigitInFront(c, digits[..n]);
      TenTimes(k, Power10(n), Decimal(digits[..n]));
      assert Power10(n + 1) == 10 * Power10(n);
    }
  }

  lemma TenTimes(k: int, p: int, x: int)
    ensures (k * p + x) * 10 == k * (10 * p) + x * 10
  {
  }

  lemma Zero()
    ensures Decimal("") == 0 && Decimal("0") == 0 && Power10(0) == 1
  {
    assert "0"[..0] == "";
  }

  lemma OneDigit(v: nat, p: nat)
    ensures v * p == (v / 10) * (10 * p) + (v % 10) * p
  {
    assert v == (v / 10) * 10 + v % 10;
    assert v * p == ((v / 10) * 10) * p + (v % 10) * p;
  }

  /** Writing the last digit of what is left keeps the number. */
  lemma DigitWritten(value: int, v: nat, index: nat, written: string, c: char)
    requires 1 <= index <= 20 && |written| == 20 - index && v < Power10(index)
    requires value == v * Power10(20 - index) + Decimal(written) && c as int == '0' as int + v % 10
    ensures value == (v / 10) * Power10(21 - index) + Decimal([c] + written) && v / 10 < Power10(index - 1)
  {
    hide Decimal;
    DigitInFront(c, written);
    OneDigit(v, Power10(20 - index));
    assert Power10(21 - index) == 10 * Power10(20 - index);
  }

  /** A 64-bit number fits in twenty digits; it is written without leading zeros and reads back. */
  method Itoa(value: int) returns (s: string)
    requires value < 0x8000_0000_0000_0000
    ensures value >= 0 ==> Decimal(s) == value && s != "" && (s[0] == '0' ==> s == "0")
    ensures forall i :: 0 <= i < |s| ==> '0' <= s[i] <= '9'
    ensures value < 0 ==> s == ""
  {
    hide Power10, Decimal;
    Zero();
    if value == 0 {
      return "0";
    }
    var digits := new char[20];
    var index := digits.Length;
    var v := value;
    TwentyDigits();
    assert digits[20..] == "";
    while v > 0
      invariant 0 <= index <= 20 && v < Power10(index)
      invariant value > 0 ==> v >= 0 && value == v * Power10(20 - index) + Decimal(digits[index..])
      invariant value < 0 ==> index == 20
      invariant forall i :: index <= i < 20 ==> '0' <= digits[i] <= '9'
      invariant index < 20 && v == 0 ==> digits[index] != '0'
      decreases v
    {
      ghost var written := digits[index..];
      index := index - 1;
      digits[index] := ('0' as int + v % 10) as char;
      assert digits[index..] == [digits[index]] + written;
      DigitWritten(value, v, index + 1, written, digits[index]);
      v := v / 10;
    }
    s := digits[index..];
  }

  /** How many lines of history Docker is asked for; none for a count that is not positive. */
  method TailArgument(tail: int) returns (s: string)
    requires tail < 0x8000_0000_0000_0000
    ensures Decimal(s) == (if tail <= 0 then 0 else tail) && s != "" && (s[0] == '0' ==> s == "0")
    ensures forall i :: 0 <= i < |s| ==> '0' <= s[i] <= '9'
  {
    Zero();
    if tail <= 0 {
      return "0";
    }
    s := Itoa(tail);
  }
}
