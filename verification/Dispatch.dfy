/**
 Requests and streams over agent connections
 (api/src/agents/agent-dispatch.service.ts, and the numbering in
 agent/internal/gateway/streams.go).

 The dispatcher changes two maps in place; what it tells its callers is written
 to a log. Two small automata that know nothing of the maps say what a log may
 look like: a request is answered at most once and only by its own connection,
 and a stream delivers 0, 1, 2, ... and then ends, once.
 */
module Dispatch {
  import opened Wrappers

  /** A connection is an identity; a replaced connection is another one. */
  type Socket = nat

  datatype Event =
    | Asked(id: string, socket: Socket, capability: string)
    | Resolved(id: string, payload: string, socket: Socket, capability: string)
    | Rejected(id: string, code: string)
    | Opened(id: string, streamId: string, socket: Socket)
    | Started(id: string, streamId: string, socket: Socket)
    | Delivered(id: string, streamId: string, socket: Socket, number: nat, payload: string, dropped: nat)
    | Ended(id: string, reason: string)

  // ---- what a log may look like ---------------------------------------------------

  datatype RequestState = Unasked | Waiting(socket: Socket, capability: string) | Answered | Misanswered

  function RequestStep(s: RequestState, e: Event): RequestState
  {
    match e
    case Asked(_, socket, capability) => if s == Unasked then Waiting(socket, capability) else Misanswered
    case Resolved(_, _, socket, capability) => if s == Waiting(socket, capability) then Answered else Misanswered
    case Rejected(_, _) => if s.Waiting? then Answered else Misanswered
    case _ => s
  }

  function RequestIn(log: seq<Event>, id: string): RequestState
  {
    if log == [] then Unasked
    else
      var before, e := RequestIn(log[..|log| - 1], id), log[|log| - 1];
      if e.id == id then RequestStep(before, e) else before
  }

  datatype StreamState = Unopened | Running(streamId: string, socket: Socket, next: nat) | Over | Disordered

  function StreamStep(s: StreamState, e: Event): StreamState
  {
    match e
    case Opened(_, streamId, socket) => if s == Unopened then Running(streamId, socket, 0) else Disordered
    case Started(_, streamId, socket) =>
      if s.Running? && s.streamId == streamId && s.socket == socket then s else Disordered
    case Delivered(_, streamId, socket, number, _, _) =>
      if s == Running(streamId, socket, number) then s.(next := number + 1) else Disordered
    case Ended(_, _) => if s.Running? then Over else Disordered
    case _ => s
  }

  function StreamIn(log: seq<Event>, id: string): StreamState
  {
    if log == [] then Unopened
    else
      var before, e := StreamIn(log[..|log| - 1], id), log[|log| - 1];
      if e.id == id then StreamStep(before, e) else before
  }

  ghost predicate Orderly(log: seq<Event>)
  {
    forall id :: RequestIn(log, id) != Misanswered && StreamIn(log, id) != Disordered
  }

  /** What an event makes of a request, and of a stream, if it is about it. */
  function RequestAfter(log: seq<Event>, e: Event, id: string): RequestState
  {
    if e.id == id then RequestStep(RequestIn(log, id), e) else RequestIn(log, id)
  }

  function StreamAfter(log: seq<Event>, e: Event, id: string): StreamState
  {
    if e.id == id then StreamStep(StreamIn(log, id), e) else StreamIn(log, id)
  }

  lemma Appended(log: seq<Event>, e: Event, id: string)
    ensures RequestIn(log + [e], id) == RequestAfter(log, e, id)
    ensures StreamIn(log + [e], id) == StreamAfter(log, e, id)
  {
    assert (log + [e])[..|log|] == log;
  }

  // ---- what the automata mean -------------------------------------------------------

  predicate Settles(e: Event)
  {
    e.Resolved? || e.Rejected?
  }

  lemma {:induction false} OnceBadAlwaysBad(log: seq<Event>, id: string, n: nat)
    requires n <= |log|
    ensures RequestIn(log[..n], id) == Misanswered ==> RequestIn(log, id) == Misanswered
    ensures StreamIn(log[..n], id) == Disordered ==> StreamIn(log, id) == Disordered
  {
    if n < |log| {
      OnceBadAlwaysBad(log[..|log| - 1], id, n);
      assert log[..|log| - 1][..n] == log[..n];
    } else {
      assert log[..n] == log;
    }
  }

  /** Once settled, a request is settled for good, and nothing is said about it again. */
  lemma {:induction false} AnsweredStays(log: seq<Event>, id: string, n: nat)
    requires n <= |log| && RequestIn(log[..n], id) == Answered && RequestIn(log, id) != Misanswered
    ensures RequestIn(log, id) == Answered
    ensures forall k :: n <= k < |log| && log[k].id == id ==> !Settles(log[k]) && !log[k].Asked?
  {
    if n < |log| {
      var before := log[..|log| - 1];
      assert before[..n] == log[..n];
      AnsweredStays(before, id, n);
    } else {
      assert log[..n] == log;
    }
  }

  /** In an orderly log a request is settled at most once. */
  lemma SettledAtMostOnce(log: seq<Event>, i: nat, j: nat)
    requires Orderly(log) && i < j < |log| && Settles(log[i]) && log[j].id == log[i].id
    ensures !Settles(log[j])
  {
    var id := log[i].id;
    OnceBadAlwaysBad(log, id, i + 1);
    assert log[..i + 1][..i] == log[..i] && log[..i + 1][i] == log[i];
    AnsweredStays(log, id, i + 1);
  }

  lemma {:induction false} WaitingWasAsked(log: seq<Event>, id: string) returns (k: nat)
    requires RequestIn(log, id).Waiting?
    ensures k < |log| && log[k] == Asked(id, RequestIn(log, id).socket, RequestIn(log, id).capability)
  {
    k := |log| - 1;
    if log[k].id != id || !log[k].Asked? {
      k := WaitingWasAsked(log[..|log| - 1], id);
    }
  }

  /** A request resolves only from the connection it went out on, for the capability it asked. */
  lemma ResolvedByItsOwn(log: seq<Event>, i: nat) returns (k: nat)
    requires Orderly(log) && i < |log| && log[i].Resolved?
    ensures k < i && log[k] == Asked(log[i].id, log[i].socket, log[i].capability)
  {
    var id := log[i].id;
    OnceBadAlwaysBad(log, id, i + 1);
    assert log[..i + 1][..i] == log[..i] && log[..i + 1][i] == log[i];
    k := WaitingWasAsked(log[..i], id);
  }

  /** The numbers a stream delivered, in order. */
  function Numbers(log: seq<Event>, id: string): seq<nat>
  {
    if log == [] then []
    else
      var e := log[|log| - 1];
      Numbers(log[..|log| - 1], id) + if e.Delivered? && e.id == id then [e.number] else []
  }

  function Ends(log: seq<Event>, id: string): nat
  {
    if log == [] then 0
    else
      var e := log[|log| - 1];
      Ends(log[..|log| - 1], id) + if e.Ended? && e.id == id then 1 else 0
  }

  /** An orderly stream delivered 0, 1, 2, ... without gap or repeat, and ended at most once. */
  lemma {:induction false} GapFree(log: seq<Event>, id: string)
    requires StreamIn(log, id) != Disordered
    ensures forall k :: 0 <= k < |Numbers(log, id)| ==> Numbers(log, id)[k] == k
    ensures StreamIn(log, id).Running? ==> StreamIn(log, id).next == |Numbers(log, id)| && Ends(log, id) == 0
    ensures StreamIn(log, id) == Unopened ==> Numbers(log, id) == [] && Ends(log, id) == 0
    ensures StreamIn(log, id) == Over ==> Ends(log, id) == 1
  {
    if log != [] {
      GapFree(log[..|log| - 1], id);
    }
  }

  /** After the end nothing of the stream is delivered or said. */
  lemma {:induction false} SilentAfterEnd(log: seq<Event>, id: string, n: nat)
    requires n <= |log| && StreamIn(log[..n], id) == Over && StreamIn(log, id) != Disordered
    ensures StreamIn(log, id) == Over
    ensures forall k :: n <= k < |log| && log[k].id == id ==> !log[k].Delivered? && !log[k].Started? && !log[k].Ended?
  {
    if n < |log| {
      var before := log[..|log| - 1];
      assert before[..n] == log[..n];
      SilentAfterEnd(before, id, n);
    } else {
      assert log[..n] == log;
    }
  }

  lemma {:induction false} RunningWasOpened(log: seq<Event>, id: string) returns (k: nat)
    requires StreamIn(log, id).Running?
    ensures k < |log| && log[k] == Opened(id, StreamIn(log, id).streamId, StreamIn(log, id).socket)
  {
    k := |log| - 1;
    if log[k].id != id || !log[k].Opened? {
      k := RunningWasOpened(log[..|log| - 1], id);
    }
  }

  /** A chunk is delivered only from the connection, and under the identifier, the stream was opened with. */
  lemma DeliveredByItsOwn(log: seq<Event>, i: nat) returns (k: nat)
    requires Orderly(log) && i < |log| && (log[i].Delivered? || log[i].Started?)
    ensures k < i && log[k] == Opened(log[i].id, log[i].streamId, log[i].socket)
  {
    var id := log[i].id;
    OnceBadAlwaysBad(log, id, i + 1);
    assert log[..i + 1][..i] == log[..i] && log[..i + 1][i] == log[i];
    k := RunningWasOpened(log[..i], id);
  }

  // ---- the dispatcher -----------------------------------------------------------------

  datatype PendingRequest = PendingRequest(agentId: string, capability: string, socket: Socket)

  datatype RunningStream = RunningStream(
    agentId: string, capability: string, streamId: string, socket: Socket, next: nat, acknowledged: bool)

  /** Says that something which was open has failed. */
  predicate FailedHere(e: Event, pending: map<string, PendingRequest>, streams: map<string, RunningStream>)
  {
    || (e == Rejected(e.id, "AGENT_NOT_CONNECTED") && e.id in pending)
    || (e == Ended(e.id, "failed") && e.id in streams)
  }

  datatype Reply = Reply(id: string, capability: string, failed: bool, body: string)

  class Dispatcher {
    var pending: map<string, PendingRequest>
    var streams: map<string, RunningStream>
    /** Timers that are set: a request's fires without asking whether it is still pending. */
    var requestTimers: set<string>
    var streamTimers: set<string>
    ghost var log: seq<Event>

    /** The maps hold exactly what the log leaves open, and whatever waits for an answer has its timer. */
    ghost predicate Valid()
      reads this
    {
      && Orderly(log)
      && (forall id :: id in pending <==> RequestIn(log, id).Waiting?)
      && (forall id :: id in pending ==> RequestIn(log, id) == Waiting(pending[id].socket, pending[id].capability))
      && (forall id :: id in streams <==> StreamIn(log, id).Running?)
      && (forall id :: id in streams ==>
        StreamIn(log, id) == Running(streams[id].streamId, streams[id].socket, streams[id].next))
      && requestTimers == pending.Keys
      && (forall id :: id in streamTimers <==> id in streams && !streams[id].acknowledged)
    }

    constructor ()
      ensures Valid() && log == []
    {
      pending, streams, requestTimers, streamTimers, log := map[], map[], {}, {}, [];
    }

    /** Sends a request on the agent's connection, or refuses when there is none. */
    method Request(id: string, agentId: string, capability: string, connection: Option<Socket>) returns (sent: bool)
      requires Valid() && RequestIn(log, id) == Unasked
      modifies this
      ensures Valid() && sent == connection.Some? && streams == old(streams)
      ensures log == old(log) + if sent then [Asked(id, connection.value, capability)] else []
      ensures pending ==
        if sent then old(pending)[id := PendingRequest(agentId, capability, connection.value)] else old(pending)
    {
      hide RequestIn, StreamIn;
      if connection.None? {
        return false;
      }
      Note(Asked(id, connection.value, capability));
      pending := pending[id := PendingRequest(agentId, capability, connection.value)];
      requestTimers := requestTimers + {id};
      return true;
    }

    ghost method Note(e: Event)
      requires Orderly(log)
      requires RequestStep(RequestIn(log, e.id), e) != Misanswered && StreamStep(StreamIn(log, e.id), e) != Disordered
      modifies this`log
      ensures log == old(log) + [e] && Orderly(log)
      ensures forall id :: RequestIn(log, id) == RequestAfter(old(log), e, id)
      ensures forall id :: StreamIn(log, id) == StreamAfter(old(log), e, id)
    {
      forall id
        ensures RequestIn(log + [e], id) == RequestAfter(log, e, id)
        ensures StreamIn(log + [e], id) == StreamAfter(log, e, id)
      {
        Appended(log, e, id);
      }
      log := log + [e];
    }

    /** The timer of a request: it rejects whatever it finds, so it must have been cleared in time. */
    method RequestTimeout(id: string)
      requires Valid() && id in requestTimers
      modifies this
      ensures Valid() && streams == old(streams) && pending == old(pending) - {id}
      ensures log == old(log) + [Rejected(id, "AGENT_REQUEST_TIMEOUT")]
    {
      hide RequestIn, StreamIn;
      requestTimers := requestTimers - {id};
      pending := pending - {id};
      Note(Rejected(id, "AGENT_REQUEST_TIMEOUT"));
    }

    method SettleWithError(id: string, code: string)
      requires Valid()
      modifies this
      ensures Valid() && streams == old(streams) && pending == old(pending) - {id}
      ensures log == old(log) + if id in old(pending) then [Rejected(id, code)] else []
    {
      hide RequestIn, StreamIn;
      if id !in pending {
        return;
      }
      requestTimers := requestTimers - {id};
      pending := pending - {id};
      Note(Rejected(id, code));
    }

    /** A request is waiting for its reply on this connection. */
    predicate Expects(socket: Socket, id: string)
      reads this`pending
    {
      id in pending && pending[id].socket == socket
    }

    /** Matches a reply to its request; false means it cannot be accounted for. */
    method Settle(socket: Socket, message: Reply) returns (accepted: bool)
      requires Valid()
      modifies this
      ensures Valid() && streams == old(streams)
      ensures accepted <==>
        old(Expects(socket, message.id)) && old(pending)[message.id].capability == message.capability
      ensures pending == if old(Expects(socket, message.id)) then old(pending) - {message.id} else old(pending)
      ensures log == old(log) +
        if !old(Expects(socket, message.id)) then []
        else if !accepted then [Rejected(message.id, "AGENT_RESPONSE_INVALID")]
        else if message.failed then [Rejected(message.id, message.body)]
        else [Resolved(message.id, message.body, socket, message.capability)]
    {
      hide RequestIn, StreamIn;
      if !Expects(socket, message.id) {
        return false;
      }
      if pending[message.id].capability != message.capability {
        SettleWithError(message.id, "AGENT_RESPONSE_INVALID");
        return false;
      }
      requestTimers := requestTimers - {message.id};
      pending := pending - {message.id};
      if message.failed {
        Note(Rejected(message.id, message.body));
      } else {
        Note(Resolved(message.id, message.body, socket, message.capability));
      }
      return true;
    }

    // ---- streams ---------------------------------------------------------------------

    method OpenStream(id: string, streamId: string, agentId: string, capability: string, connection: Option<Socket>)
      returns (sent: bool)
      requires Valid() && StreamIn(log, id) == Unopened
      modifies this
      ensures Valid() && sent == connection.Some? && pending == old(pending)
      ensures log == old(log) + if sent then [Opened(id, streamId, connection.value)] else []
      ensures streams ==
        if sent then old(streams)[id := RunningStream(agentId, capability, streamId, connection.value, 0, false)]
        else old(streams)
    {
      hide RequestIn, StreamIn;
      if connection.None? {
        return false;
      }
      Note(Opened(id, streamId, connection.value));
      streamTimers := streamTimers + {id};
      streams := streams[id := RunningStream(agentId, capability, streamId, connection.value, 0, false)];
      return true;
    }

    /** The request, the stream identifier and the connection all have to agree. */
    predicate Belongs(socket: Socket, id: string, streamId: string)
      reads this`streams
    {
      id in streams && streams[id].streamId == streamId && streams[id].socket == socket
    }

    method AcceptStreamStart(socket: Socket, id: string, streamId: string, capability: string) returns (accepted: bool)
      requires Valid()
      modifies this
      ensures Valid() && pending == old(pending)
      ensures accepted <==> old(Belongs(socket, id, streamId)) && old(streams)[id].capability == capability
      ensures log == old(log) + if accepted then [Started(id, streamId, socket)] else []
      ensures streams ==
        if accepted then old(streams)[id := old(streams)[id].(acknowledged := true)] else old(streams)
    {
      hide RequestIn, StreamIn;
      if !Belongs(socket, id, streamId) || streams[id].capability != capability {
        return false;
      }
      streamTimers := streamTimers - {id};
      streams := streams[id := streams[id].(acknowledged := true)];
      Note(Started(id, streamId, socket));
      return true;
    }

    /** Delivers the chunk that is due; any other number ends the stream. */
    method AcceptStreamChunk(socket: Socket, id: string, streamId: string, number: nat, payload: string, dropped: nat)
      returns (accepted: bool)
      requires Valid()
      modifies this
      ensures Valid() && pending == old(pending)
      ensures accepted <==> old(Belongs(socket, id, streamId)) && number == old(streams)[id].next
      ensures streams ==
        if accepted then old(streams)[id := old(streams)[id].(next := number + 1)]
        else if old(Belongs(socket, id, streamId)) then old(streams) - {id} else old(streams)
      ensures log == old(log) +
        if accepted then [Delivered(id, streamId, socket, number, payload, dropped)]
        else if old(Belongs(socket, id, streamId)) then [Ended(id, "failed")] else []
    {
      hide RequestIn, StreamIn;
      if !Belongs(socket, id, streamId) {
        return false;
      }
      if number != streams[id].next {
        EndStream(id, "failed");
        return false;
      }
      streams := streams[id := streams[id].(next := number + 1)];
      Note(Delivered(id, streamId, socket, number, payload, dropped));
      return true;
    }

    method AcceptStreamEnd(socket: Socket, id: string, streamId: string, reason: string) returns (accepted: bool)
      requires Valid()
      modifies this
      ensures Valid() && pending == old(pending)
      ensures accepted <==> old(Belongs(socket, id, streamId))
      ensures streams == if accepted then old(streams) - {id} else old(streams)
      ensures log == old(log) + if accepted then [Ended(id, reason)] else []
    {
      hide RequestIn, StreamIn;
      if !Belongs(socket, id, streamId) {
        return false;
      }
      EndStream(id, reason);
      return true;
    }

    /** Ends the stream here whatever the agent answers; the message to the agent is not modelled. */
    method CancelStream(id: string)
      requires Valid()
      modifies this
      ensures Valid() && pending == old(pending) && streams == old(streams) - {id}
      ensures log == old(log) + if id in old(streams) then [Ended(id, "cancelled")] else []
    {
      hide RequestIn, StreamIn;
      if id !in streams {
        return;
      }
      EndStream(id, "cancelled");
    }

    method EndStream(id: string, reason: string)
      requires Valid()
      modifies this
      ensures Valid() && pending == old(pending) && requestTimers == old(requestTimers)
      ensures streams == old(streams) - {id}
      ensures log == old(log) + if id in old(streams) then [Ended(id, reason)] else []
    {
      hide RequestIn, StreamIn;
      if id !in streams {
        return;
      }
      streamTimers := streamTimers - {id};
      streams := streams - {id};
      Note(Ended(id, reason));
    }

    /** The agent did not accept the stream in time. */
    method StreamTimeout(id: string)
      requires Valid() && id in streamTimers
      modifies this
      ensures Valid() && pending == old(pending)
      ensures id in old(streams) && streams == old(streams) - {id} && log == old(log) + [Ended(id, "failed")]
    {
      hide RequestIn, StreamIn;
      if id in streams && !streams[id].acknowledged {
        EndStream(id, "failed");
      }
    }

    /** Fails everything still waiting on a connection that has gone away, and nothing else. */
    method Abandon(socket: Socket)
      requires Valid()
      modifies this
      ensures Valid() && old(log) <= log
      ensures pending == map id | id in old(pending) && old(pending)[id].socket != socket :: old(pending)[id]
      ensures streams == map id | id in old(streams) && old(streams)[id].socket != socket :: old(streams)[id]
      ensures forall k :: |old(log)| <= k < |log| ==> FailedHere(log[k], old(pending), old(streams))
    {
      hide Valid;
      RejectWhere(set id | id in pending && pending[id].socket == socket);
      EndWhere(set id | id in streams && streams[id].socket == socket);
    }

    method RejectWhere(which: set<string>)
      requires Valid() && which <= pending.Keys
      modifies this
      ensures Valid() && old(log) <= log && streams == old(streams) && pending == old(pending) - which
      ensures forall k :: |old(log)| <= k < |log| ==> FailedHere(log[k], old(pending), old(streams))
    {
      hide Valid;
      var ids := which;
      while ids != {}
        invariant Valid() && old(log) <= log && streams == old(streams)
        invariant forall k :: |old(log)| <= k < |log| ==> FailedHere(log[k], old(pending), old(streams))
        invariant ids <= which && pending == old(pending) - (which - ids)
        decreases |ids|
      {
        var id :| id in ids;
        SettleWithError(id, "AGENT_NOT_CONNECTED");
        ids := ids - {id};
      }
    }

    method EndWhere(which: set<string>)
      requires Valid() && which <= streams.Keys
      modifies this
      ensures Valid() && old(log) <= log && pending == old(pending) && streams == old(streams) - which
      ensures forall k :: |old(log)| <= k < |log| ==> FailedHere(log[k], old(pending), old(streams))
    {
      hide Valid;
      var ids := which;
      while ids != {}
        invariant Valid() && old(log) <= log && pending == old(pending)
        invariant forall k :: |old(log)| <= k < |log| ==> FailedHere(log[k], old(pending), old(streams))
        invariant ids <= which && streams == old(streams) - (which - ids)
        decreases |ids|
      {
        var id :| id in ids;
        EndStream(id, "failed");
        ids := ids - {id};
      }
    }

    /** Ends every stream of an agent whose credential was revoked, and says how many. */
    method EndStreamsOf(agentId: string) returns (ended: nat)
      requires Valid()
      modifies this
      ensures Valid() && old(log) <= log && pending == old(pending)
      ensures streams == map id | id in old(streams) && old(streams)[id].agentId != agentId :: old(streams)[id]
      ensures ended == |old(streams)| - |streams|
      ensures forall k :: |old(log)| <= k < |log| ==> FailedHere(log[k], old(pending), old(streams))
    {
      hide Valid;
      var which := set id | id in streams && streams[id].agentId == agentId;
      ended := |which|;
      CountLeft(streams, which);
      EndWhere(which);
    }
  }

  lemma CountLeft(m: map<string, RunningStream>, which: set<string>)
    requires which <= m.Keys
    ensures |m - which| == |m| - |which|
  {
    assert (m - which).Keys == m.Keys - which;
  }

  // ---- the agent's side -----------------------------------------------------------------

  datatype Chunk = Chunk(payload: string, dropped: nat)

  /** What the agent sends for a run of chunks: each takes the next number once it was sent. */
  datatype Sent = Sent(number: nat, chunk: Chunk)

  /** The agent numbers what it sends; the first failed write ends the stream. */
  method SendChunks(chunks: seq<Chunk>) returns (sent: seq<Sent>)
    ensures |sent| <= |chunks|
    ensures forall k :: 0 <= k < |sent| ==> sent[k] == Sent(k, chunks[k])
  {
    sent := [];
    var sequence := 0;
    for i := 0 to |chunks|
      invariant sequence == i == |sent|
      invariant forall k :: 0 <= k < |sent| ==> sent[k] == Sent(k, chunks[k])
    {
      var written: bool := *;
      if !written {
        return;
      }
      sent := sent + [Sent(sequence, chunks[i])];
      sequence := sequence + 1;
    }
  }

  /** A stream freshly opened takes everything the agent sends on its connection, in order. */
  method Carry(d: Dispatcher, socket: Socket, id: string, streamId: string, chunks: seq<Chunk>)
    returns (sent: seq<Sent>)
    requires d.Valid() && d.Belongs(socket, id, streamId) && d.streams[id].next == 0
    modifies d
    ensures d.Valid() && d.Belongs(socket, id, streamId) && d.streams[id].next == |sent|
    ensures |sent| <= |chunks| && d.log == old(d.log) +
      seq(|sent|, k requires 0 <= k < |sent| =>
        Delivered(id, streamId, socket, k, chunks[k].payload, chunks[k].dropped))
  {
    hide Dispatcher.Valid;
    sent := SendChunks(chunks);
    for i := 0 to |sent|
      invariant d.Valid() && d.Belongs(socket, id, streamId) && d.streams[id].next == i
      invariant d.log == old(d.log) +
        seq(i, k requires 0 <= k < i => Delivered(id, streamId, socket, k, chunks[k].payload, chunks[k].dropped))
    {
      var accepted := d.AcceptStreamChunk(socket, id, streamId, sent[i].number, sent[i].chunk.payload,
        sent[i].chunk.dropped);
    }
  }
}
