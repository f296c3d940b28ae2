/**
 Two peers over a pair of byte streams: the client sends a request, waits for
 the reply, and only then sends the next. Reads and writes move any number of
 bytes at a time and interleave freely.
 */
module Duplex {
  import opened BatcherTypes
  import opened Framing

  /** What the server does with a request: answer, possibly stopping afterwards, or fail without an answer. */
  datatype Answer = Reply(bytes: Bytes, last: bool) | Refuse

  type Handler = (nat, Bytes) -> Answer

  /** One conversation: the requests, how both directions are framed, and the server's answer to the k-th request. */
  datatype Talk = Talk(requests: seq<Bytes>, requestFrame: Format, replyFrame: Format, handler: Handler)
  {
    ghost predicate Valid() {
      && (forall k :: 0 <= k < |requests| ==> requestFrame.Whole(requests[k]))
      && (forall k: nat, r :: handler(k, r).Reply? ==> replyFrame.Whole(handler(k, r).bytes))
    }

    function AnswerTo(k: nat): Answer
      requires k < |requests|
    {
      handler(k, requests[k])
    }
  }

  datatype Client = Idle | Sending(rest: Bytes) | Receiving(got: Bytes)

  datatype Server = Reading(got: Bytes) | Writing(rest: Bytes, last: bool) | Halted

  datatype Sys = Sys(client: Client, server: Server, toServer: Bytes, toClient: Bytes, received: seq<Bytes>, results: seq<Bytes>)

  const START := Sys(Idle, Reading([]), [], [], [], [])

  datatype Move = Begin | ClientWrite(n: nat) | ServerRead(n: nat) | ServerWrite(n: nat) | ClientRead(n: nat)

  ghost predicate Enabled(t: Talk, s: Sys, m: Move) {
    match m
    case Begin => s.client.Idle? && |s.results| < |t.requests|
    case ClientWrite(n) => s.client.Sending? && 1 <= n <= |s.client.rest|
    case ServerRead(n) => s.server.Reading? && 1 <= n <= |s.toServer| && n <= t.requestFrame.Needed(s.server.got)
    case ServerWrite(n) => s.server.Writing? && 1 <= n <= |s.server.rest|
    case ClientRead(n) => s.client.Receiving? && 1 <= n <= |s.toClient| && n <= t.replyFrame.Needed(s.client.got)
  }

  ghost function Do(t: Talk, s: Sys, m: Move): Sys
    requires Enabled(t, s, m)
  {
    match m
    case Begin => s.(client := Sending(t.requests[|s.results|]))
    case ClientWrite(n) =>
      var rest := s.client.rest[n..];
      s.(client := if rest == [] then Receiving([]) else Sending(rest), toServer := s.toServer + s.client.rest[..n])
    case ServerRead(n) =>
      var got := s.server.got + s.toServer[..n];
      var s1 := s.(toServer := s.toServer[n..]);
      if t.requestFrame.Needed(got) != 0 then s1.(server := Reading(got))
      else
        var answer := t.handler(|s.received|, got);
        s1.(received := s.received + [got], server := if answer.Reply? then Writing(answer.bytes, answer.last) else Halted)
    case ServerWrite(n) =>
      var rest := s.server.rest[n..];
      s.(toClient := s.toClient + s.server.rest[..n],
         server := if rest != [] then Writing(rest, s.server.last) else if s.server.last then Halted else Reading([]))
    case ClientRead(n) =>
      var got := s.client.got + s.toClient[..n];
      var s1 := s.(toClient := s.toClient[n..]);
      if t.replyFrame.Needed(got) != 0 then s1.(client := Receiving(got))
      else s1.(client := Idle, results := s.results + [got])
  }

  // ---------------------------------------------------------------- the invariant

  /** Requests arrive in order and unchanged; each result is the answer to its request. */
  ghost predicate Faithful(t: Talk, s: Sys) {
    && |s.results| <= |s.received| <= |t.requests|
    && (forall k :: 0 <= k < |s.received| ==> s.received[k] == t.requests[k])
    && (forall k :: 0 <= k < |s.results| ==> t.AnswerTo(k).Reply? && s.results[k] == t.AnswerTo(k).bytes)
  }

  /** The server waits for a request, of which it has `got`. */
  ghost predicate Awaits(s: Sys, got: Bytes) {
    s.server == Reading(got) || (s.server == Halted && got == [])
  }

  /** No byte is lost or invented: each message is the parts at its reader, in the stream, and at its writer. */
  ghost predicate InFlight(t: Talk, s: Sys) {
    var k := |s.results|;
    match s.client
    case Idle =>
      |s.received| == k && s.toServer == [] && s.toClient == [] && Awaits(s, [])
    case Sending(rest) =>
      && k < |t.requests| && |s.received| == k && s.toClient == [] && rest != [] && !s.server.Writing?
      && t.requests[k] == (if s.server.Reading? then s.server.got else []) + s.toServer + rest
    case Receiving(got) =>
      && k < |t.requests|
      && (|| (&& |s.received| == k && got == [] && s.toClient == [] && s.toServer != [] && !s.server.Writing?
              && t.requests[k] == (if s.server.Reading? then s.server.got else []) + s.toServer)
          || (&& |s.received| == k + 1 && s.toServer == [] && Answering(t, s, got, t.AnswerTo(k))))
  }

  ghost predicate Answering(t: Talk, s: Sys, got: Bytes, a: Answer) {
    match a
    case Refuse => s.server == Halted && got == [] && s.toClient == []
    case Reply(bytes, last) =>
      match s.server
      case Writing(rest, l) => l == last && rest != [] && bytes == got + s.toClient + rest
      case Reading(g) => g == [] && !last && s.toClient != [] && bytes == got + s.toClient
      case Halted => last && s.toClient != [] && bytes == got + s.toClient
  }

  ghost predicate Inv(t: Talk, s: Sys) {
    Faithful(t, s) && InFlight(t, s)
  }

  lemma MoveKeeps(t: Talk, s: Sys, m: Move)
    requires t.Valid() && Inv(t, s) && Enabled(t, s, m)
    ensures Inv(t, Do(t, s, m))
  {
    match m
    case Begin => {}
    case ClientWrite(n) => ClientWriteKeeps(t, s, n);
    case ServerRead(n) => ServerReadKeeps(t, s, n);
    case ServerWrite(n) => ServerWriteKeeps(t, s, n);
    case ClientRead(n) => ClientReadKeeps(t, s, n);
  }

  lemma ClientWriteKeeps(t: Talk, s: Sys, n: nat)
    requires t.Valid() && Inv(t, s) && Enabled(t, s, ClientWrite(n))
    ensures Inv(t, Do(t, s, ClientWrite(n)))
  {
    hide Format.Whole, Format.Needed;
    var rest := s.client.rest;
    assert rest == rest[..n] + rest[n..];
    assert s.toServer + rest == (s.toServer + rest[..n]) + rest[n..];
  }

  lemma ServerWriteKeeps(t: Talk, s: Sys, n: nat)
    requires t.Valid() && Inv(t, s) && Enabled(t, s, ServerWrite(n))
    ensures Inv(t, Do(t, s, ServerWrite(n)))
  {
    hide Format.Whole, Format.Needed;
    AnswerWritten(t, s, n, s.client.got, t.AnswerTo(|s.results|));
  }

  /** What the server hands to the stream is what it no longer has to write. */
  lemma AnswerWritten(t: Talk, s: Sys, n: nat, got: Bytes, a: Answer)
    requires s.server.Writing? && 1 <= n <= |s.server.rest| && Answering(t, s, got, a)
    ensures Answering(t, Do(t, s, ServerWrite(n)), got, a)
  {
    var rest := s.server.rest;
    assert rest == rest[..n] + rest[n..];
    assert got + s.toClient + rest == got + (s.toClient + rest[..n]) + rest[n..];
  }

  lemma ServerReadKeeps(t: Talk, s: Sys, n: nat)
    requires t.Valid() && Inv(t, s) && Enabled(t, s, ServerRead(n))
    ensures Inv(t, Do(t, s, ServerRead(n)))
  {
    var got := s.server.got + s.toServer[..n];
    var k := |s.results|;
    var tail := s.toServer[n..] + (if s.client.Sending? then s.client.rest else []);
    assert s.toServer == s.toServer[..n] + s.toServer[n..];
    assert t.requests[k] == got + tail;
    PrefixNeeds(t.requestFrame, got, tail);
  }

  lemma ClientReadKeeps(t: Talk, s: Sys, n: nat)
    requires t.Valid() && Inv(t, s) && Enabled(t, s, ClientRead(n))
    ensures Inv(t, Do(t, s, ClientRead(n)))
  {
    hide Format.Whole, Format.Needed;
    var got := s.client.got + s.toClient[..n];
    var k := |s.results|;
    var reply := t.AnswerTo(k).bytes;
    var tail := s.toClient[n..] + (if s.server.Writing? then s.server.rest else []);
    assert reply == got + tail;
    PrefixNeeds(t.replyFrame, got, tail);
  }

  // ---------------------------------------------------------------- runs

  ghost predicate Leads(t: Talk, s: Sys, moves: seq<Move>, s': Sys)
    decreases |moves|
  {
    if moves == [] then s' == s else Enabled(t, s, moves[0]) && Leads(t, Do(t, s, moves[0]), moves[1..], s')
  }

  lemma {:induction false} RunKeeps(t: Talk, s: Sys, moves: seq<Move>, s': Sys)
    requires t.Valid() && Inv(t, s) && Leads(t, s, moves, s')
    ensures Inv(t, s')
    decreases |moves|
  {
    hide Inv, Do, Enabled;
    if moves != [] {
      MoveKeeps(t, s, moves[0]);
      RunKeeps(t, Do(t, s, moves[0]), moves[1..], s');
    }
  }

  /**
   For every interleaving and every fragmentation: requests reach the server in order and byte for byte, the k-th result
   is the server's answer to the k-th request, and both streams are empty whenever the client is between requests.
   */
  lemma EveryInterleaving(t: Talk, moves: seq<Move>, s: Sys)
    requires t.Valid() && Leads(t, START, moves, s)
    ensures Faithful(t, s)
    ensures s.client.Idle? ==> s.toServer == [] && s.toClient == [] && |s.received| == |s.results|
  {
    hide Leads;
    RunKeeps(t, START, moves, s);
  }

  ghost predicate Finished(t: Talk, s: Sys) {
    s.client.Idle? && |s.results| == |t.requests|
  }

  /** The server stopped without answering the request the client is waiting on. */
  ghost predicate Abandoned(s: Sys) {
    s.server.Halted? && s.client.Receiving? && s.toClient == []
  }

  /** No deadlock: unless all is done, or the server gave up, someone can move. */
  lemma NoDeadlock(t: Talk, s: Sys) returns (m: Move)
    requires t.Valid() && Inv(t, s) && !Finished(t, s) && !Abandoned(s)
    ensures Enabled(t, s, m)
  {
    var k := |s.results|;
    match s.client
    case Idle =>
      m := Begin;
    case Sending(_) =>
      m := ClientWrite(1);
    case Receiving(got) =>
      if s.toClient != [] {
        var tail := s.toClient + (if s.server.Writing? then s.server.rest else []);
        assert t.AnswerTo(k).bytes == got + tail;
        PrefixNeeds(t.replyFrame, got, tail);
        m := ClientRead(1);
      } else if s.server.Writing? {
        m := ServerWrite(1);
      } else {
        assert t.requests[k] == s.server.got + s.toServer;
        PrefixNeeds(t.requestFrame, s.server.got, s.toServer);
        m := ServerRead(1);
      }
  }

  // ---------------------------------------------------------------- every schedule ends

  ghost function ReplySize(t: Talk, k: nat): nat
    requires k < |t.requests|
  {
    if t.AnswerTo(k).Reply? then |t.AnswerTo(k).bytes| else 0
  }

  /** The moves the requests from the `k`-th on can take: one to begin, and two for each byte, to write and to read it. */
  ghost function Ahead(t: Talk, k: nat): nat
    requires k <= |t.requests|
    decreases |t.requests| - k
  {
    if k == |t.requests| then 0 else 1 + 2 * |t.requests[k]| + 2 * ReplySize(t, k) + Ahead(t, k + 1)
  }

  /** What is left to move: two for each byte not yet written, one for each byte in a stream. */
  ghost function Left(t: Talk, s: Sys): nat
    requires Inv(t, s)
  {
    var k := |s.results|;
    match s.client
    case Idle => Ahead(t, k)
    case Sending(rest) => 2 * |rest| + |s.toServer| + 2 * ReplySize(t, k) + Ahead(t, k + 1)
    case Receiving(_) =>
      |s.toServer| + Ahead(t, k + 1) +
      if |s.received| == k then 2 * ReplySize(t, k)
      else (if s.server.Writing? then 2 * |s.server.rest| else 0) + |s.toClient|
  }

  lemma MoveUses(t: Talk, s: Sys, m: Move)
    requires t.Valid() && Inv(t, s) && Enabled(t, s, m)
    ensures Inv(t, Do(t, s, m)) && Left(t, Do(t, s, m)) < Left(t, s)
  {
    hide Format.Needed, Format.Whole, Faithful, Talk.Valid;
    MoveKeeps(t, s, m);
  }

  lemma {:induction false} RunUses(t: Talk, s: Sys, moves: seq<Move>, s': Sys)
    requires t.Valid() && Inv(t, s) && Leads(t, s, moves, s')
    ensures Inv(t, s') && |moves| + Left(t, s') <= Left(t, s)
    decreases |moves|
  {
    hide Inv, Do, Enabled, Left;
    if moves != [] {
      MoveUses(t, s, moves[0]);
      RunUses(t, Do(t, s, moves[0]), moves[1..], s');
    }
  }

  /**
   No schedule goes on forever, and one that cannot go on has answered every request, or the server gave up: with
   `NoDeadlock`, every conversation comes to its end however the peers are scheduled.
   */
  lemma EveryScheduleEnds(t: Talk, moves: seq<Move>, s: Sys)
    requires t.Valid() && Leads(t, START, moves, s)
    ensures |moves| <= Ahead(t, 0)
    ensures (forall m :: !Enabled(t, s, m)) ==> Finished(t, s) || Abandoned(s)
  {
    hide Leads, Enabled;
    RunUses(t, START, moves, s);
    if !Finished(t, s) && !Abandoned(s) {
      var m := NoDeadlock(t, s);
    }
  }

  // ---------------------------------------------------------------- why a server stops

  /** The server stops only on its own account: it refused the last request it received, or meant its answer to be the last. */
  ghost predicate StopsForCause(t: Talk, s: Sys) {
    && |s.received| <= |t.requests|
    && (s.server.Halted? ==> s.received != [] && var a := t.AnswerTo(|s.received| - 1); a.Refuse? || a.last)
    && (s.server.Writing? ==> s.received != [] && var a := t.AnswerTo(|s.received| - 1); a.Reply? && a.last == s.server.last)
  }

  lemma {:induction false} RunStopsForCause(t: Talk, s: Sys, moves: seq<Move>, s': Sys)
    requires t.Valid() && Inv(t, s) && StopsForCause(t, s) && Leads(t, s, moves, s')
    ensures Inv(t, s') && StopsForCause(t, s')
    decreases |moves|
  {
    hide Inv, Do, Enabled, StopsForCause;
    if moves != [] {
      MoveKeeps(t, s, moves[0]);
      MoveStopsForCause(t, s, moves[0]);
      RunStopsForCause(t, Do(t, s, moves[0]), moves[1..], s');
    }
  }

  lemma MoveStopsForCause(t: Talk, s: Sys, m: Move)
    requires t.Valid() && Inv(t, s) && StopsForCause(t, s) && Enabled(t, s, m)
    ensures StopsForCause(t, Do(t, s, m))
  {
    hide InFlight, Format.Whole, Talk.Valid, Format.Needed;
    MoveKeeps(t, s, m);
  }

  /** A conversation is abandoned only by a server that refused the pending request, or said before that it would stop. */
  lemma AbandonedForCause(t: Talk, moves: seq<Move>, s: Sys)
    requires t.Valid() && Leads(t, START, moves, s) && Abandoned(s)
    ensures |s.results| < |t.requests|
    ensures || t.AnswerTo(|s.results|).Refuse?
            || (0 < |s.results| && t.AnswerTo(|s.results| - 1).Reply? && t.AnswerTo(|s.results| - 1).last)
  {
    hide Leads, Format.Whole, Talk.Valid;
    RunStopsForCause(t, START, moves, s);
  }
}
