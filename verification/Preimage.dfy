/**
 The pre-image oracle and its hints, as conversations over byte streams.
 */
module Preimage {
  import opened BatcherTypes
  import opened Framing
  import opened Duplex

  const KEY_SIZE: nat := 32
  const LENGTH_SIZE: nat := 8
  const HINT_LENGTH_SIZE: nat := 4
  const ACK: Bytes := [0]

  /** The server's pre-image for a key, if it has one. */
  type Getter = Bytes -> Option<Bytes>

  function Serve(get: Getter, key: Bytes): Answer {
    var value := get(key);
    if value.None? then Refuse else Reply(Prefix(LENGTH_SIZE, value.value), false)
  }

  function OracleTalk(keys: seq<Bytes>, get: Getter): Talk {
    Talk(keys, Fixed(KEY_SIZE), Prefixed(LENGTH_SIZE), (_, key) => Serve(get, key))
  }

  ghost predicate OracleOk(keys: seq<Bytes>, get: Getter) {
    && (forall k :: 0 <= k < |keys| ==> |keys[k]| == KEY_SIZE)
    && (forall key :: get(key).Some? ==> |get(key).value| < Pow256(LENGTH_SIZE))
  }

  lemma OracleValid(keys: seq<Bytes>, get: Getter)
    requires OracleOk(keys, get)
    ensures OracleTalk(keys, get).Valid()
  {
    hide Pow256, Prefix;
    var t := OracleTalk(keys, get);
    forall k: nat, r | t.handler(k, r).Reply?
      ensures t.replyFrame.Whole(t.handler(k, r).bytes)
    {
      PrefixWhole(LENGTH_SIZE, get(r).value);
    }
  }

  /** What the client hands to its caller: the reply without its length prefix. */
  function Payload(reply: Bytes, width: nat): Bytes {
    if |reply| < width then [] else reply[width..]
  }

  /** The k-th Get returns exactly the server's pre-image of the k-th key. */
  lemma OracleCorrect(keys: seq<Bytes>, get: Getter, moves: seq<Move>, s: Sys, k: nat)
    requires OracleOk(keys, get) && Leads(OracleTalk(keys, get), START, moves, s) && k < |s.results|
    ensures k < |keys| && get(keys[k]) == Some(Payload(s.results[k], LENGTH_SIZE))
    ensures s.client.Idle? ==> s.toServer == [] && s.toClient == []
  {
    hide Leads, Pow256;
    OracleValid(keys, get);
    EveryInterleaving(OracleTalk(keys, get), moves, s);
    assert OracleTalk(keys, get).AnswerTo(k) == Serve(get, keys[k]);
    PrefixWhole(LENGTH_SIZE, get(keys[k]).value);
  }

  /** A schedule that cannot go on has answered every Get, or the server has no pre-image for the next key. */
  lemma OracleCompletes(keys: seq<Bytes>, get: Getter, moves: seq<Move>, s: Sys)
    requires OracleOk(keys, get) && Leads(OracleTalk(keys, get), START, moves, s)
    requires forall m :: !Enabled(OracleTalk(keys, get), s, m)
    ensures |s.results| == |keys| || (|s.results| < |keys| && get(keys[|s.results|]).None?)
  {
    hide Leads, Enabled, Pow256, Prefix;
    var t := OracleTalk(keys, get);
    OracleValid(keys, get);
    EveryScheduleEnds(t, moves, s);
    if !Finished(t, s) {
      AbandonedForCause(t, moves, s);
    }
  }

  // ---------------------------------------------------------------- hints

  /** Every hint is acknowledged, handled or not; after a failure the reader stops. */
  function HintTalk(hints: seq<Bytes>, fails: Bytes -> bool): Talk {
    Talk(seq(|hints|, i requires 0 <= i < |hints| => Prefix(HINT_LENGTH_SIZE, hints[i])), Prefixed(HINT_LENGTH_SIZE), Fixed(1),
         (_, m) => Reply(ACK, fails(Payload(m, HINT_LENGTH_SIZE))))
  }

  /** The prefix holds lengths up to 2^32 - 1. */
  lemma HintLimit()
    ensures Pow256(HINT_LENGTH_SIZE) == 0x1_0000_0000
  {
    assert Pow256(0) == 1 && Pow256(1) == 256 && Pow256(2) == 0x1_0000 && Pow256(3) == 0x100_0000;
  }

  lemma HintValid(hints: seq<Bytes>, fails: Bytes -> bool)
    ensures HintTalk(hints, fails).Valid() <==> forall k :: 0 <= k < |hints| ==> |hints[k]| < Pow256(HINT_LENGTH_SIZE)
  {
    hide Pow256, Prefix;
    var t := HintTalk(hints, fails);
    forall k | 0 <= k < |hints|
      ensures t.requestFrame.Whole(t.requests[k]) <==> |hints[k]| < Pow256(HINT_LENGTH_SIZE)
    {
      PrefixWhole(HINT_LENGTH_SIZE, hints[k]);
    }
  }

  /** Each hint reaches the handler byte for byte, with exactly one acknowledgement, also when handling it fails. */
  lemma HintsCorrect(hints: seq<Bytes>, fails: Bytes -> bool, moves: seq<Move>, s: Sys, k: nat)
    requires forall k :: 0 <= k < |hints| ==> |hints[k]| < Pow256(HINT_LENGTH_SIZE)
    requires Leads(HintTalk(hints, fails), START, moves, s)
    ensures |s.results| <= |s.received| <= |hints|
    ensures k < |s.received| ==> Payload(s.received[k], HINT_LENGTH_SIZE) == hints[k]
    ensures k < |s.results| ==> s.results[k] == [0]
    ensures s.client.Idle? ==> s.toServer == [] && s.toClient == [] && |s.received| == |s.results|
  {
    hide Leads, Pow256;
    HintValid(hints, fails);
    EveryInterleaving(HintTalk(hints, fails), moves, s);
    if k < |s.received| {
      PrefixWhole(HINT_LENGTH_SIZE, hints[k]);
    }
  }

  lemma AnswerToHint(hints: seq<Bytes>, fails: Bytes -> bool, k: nat)
    requires k < |hints|
    ensures HintTalk(hints, fails).AnswerTo(k) == Reply(ACK, fails(hints[k]))
  {
    hide Pow256;
    PrefixWhole(HINT_LENGTH_SIZE, hints[k]);
    var m := Prefix(HINT_LENGTH_SIZE, hints[k]);
    assert HintTalk(hints, fails).requests[k] == m;
    assert Payload(m, HINT_LENGTH_SIZE) == hints[k];
  }

  /** A schedule that cannot go on has handled every hint, or stopped after one whose handling failed. */
  lemma HintsComplete(hints: seq<Bytes>, fails: Bytes -> bool, moves: seq<Move>, s: Sys)
    requires forall k :: 0 <= k < |hints| ==> |hints[k]| < Pow256(HINT_LENGTH_SIZE)
    requires Leads(HintTalk(hints, fails), START, moves, s)
    requires forall m :: !Enabled(HintTalk(hints, fails), s, m)
    ensures |s.results| == |hints| || (0 < |s.results| < |hints| && fails(hints[|s.results| - 1]))
  {
    hide Leads, Enabled, Pow256;
    var t := HintTalk(hints, fails);
    HintValid(hints, fails);
    EveryScheduleEnds(t, moves, s);
    if !Finished(t, s) {
      AbandonedForCause(t, moves, s);
      AnswerToHint(hints, fails, |s.results| - 1);
    }
  }

  /** A hint that is too long for its prefix reaches the handler cut short. */
  lemma HintCutShort(hint: Bytes, rest: seq<Bytes>, fails: Bytes -> bool) returns (moves: seq<Move>, s: Sys)
    requires Pow256(HINT_LENGTH_SIZE) <= |hint|
    ensures Leads(HintTalk([hint] + rest, fails), START, moves, s) && |s.received| == 1
    ensures Payload(s.received[0], HINT_LENGTH_SIZE) == hint[..|hint| % Pow256(HINT_LENGTH_SIZE)]
  {
    hide Pow256, BigEndian, ToBigEndian;
    var t := HintTalk([hint] + rest, fails);
    var m, n := Prefix(HINT_LENGTH_SIZE, hint), |hint| % Pow256(HINT_LENGTH_SIZE);
    assert t.requests[0] == m;
    var head := m[..HINT_LENGTH_SIZE];
    assert head == ToBigEndian(|hint|, HINT_LENGTH_SIZE) && m[HINT_LENGTH_SIZE..] == hint;
    BigEndianRoundTrip(|hint|, HINT_LENGTH_SIZE);
    var s1 := Do(t, START, Begin);
    var s2 := Do(t, s1, ClientWrite(|m|));
    assert s2.toServer == m;
    var s3 := Do(t, s2, ServerRead(HINT_LENGTH_SIZE));
    assert s3.toServer == hint && [] + m[..HINT_LENGTH_SIZE] == head && head[..HINT_LENGTH_SIZE] == head;
    moves, s := [], s3;
    if n != 0 {
      var got := head + hint[..n];
      assert got[..HINT_LENGTH_SIZE] == head;
      moves, s := [ServerRead(n)], Do(t, s3, ServerRead(n));
      assert moves[1..] == [];
    }
    assert Leads(t, s3, moves, s);
    moves := [ServerRead(HINT_LENGTH_SIZE)] + moves;
    assert moves[1..] == if n != 0 then [ServerRead(n)] else [];
    assert Leads(t, s2, moves, s);
    assert ([ClientWrite(|m|)] + moves)[1..] == moves;
    assert Leads(t, s1, [ClientWrite(|m|)] + moves, s);
    moves := [ClientWrite(|m|)] + moves;
    assert ([Begin] + moves)[1..] == moves;
    moves := [Begin] + moves;
  }

  /** The first hint arrives unchanged under every schedule if and only if its length fits the prefix. */
  lemma FirstHintExact(hint: Bytes, fails: Bytes -> bool)
    ensures (forall moves, s :: Leads(HintTalk([hint], fails), START, moves, s) && s.received != [] ==>
               Payload(s.received[0], HINT_LENGTH_SIZE) == hint)
      <==> |hint| < Pow256(HINT_LENGTH_SIZE)
  {
    hide Leads, Pow256;
    if |hint| < Pow256(HINT_LENGTH_SIZE) {
      forall moves, s | Leads(HintTalk([hint], fails), START, moves, s) && s.received != []
        ensures Payload(s.received[0], HINT_LENGTH_SIZE) == hint
      {
        HintsCorrect([hint], fails, moves, s, 0);
      }
    } else {
      var moves, s := HintCutShort(hint, [], fails);
      assert [hint] + [] == [hint];
    }
  }

  // ---------------------------------------------------------------- the serving side, read by read

  datatype ReadError = NoError | Eof | UnexpectedEof

  /** The bytes of one direction that are not read yet; an empty pipe is one whose writer has closed. */
  class Pipe {
    var data: Bytes

    constructor (bytes: Bytes)
      ensures data == bytes
    {
      data := bytes;
    }

    /** Any non-empty part of what is there, up to the size asked for. */
    method Read(max: nat) returns (chunk: Bytes)
      requires 1 <= max && data != []
      modifies this
      ensures 1 <= |chunk| <= max && chunk + data == old(data)
    {
      var n :| 1 <= n <= max && n <= |data|;
      chunk := data[..n];
      data := data[n..];
    }

    method Write(bytes: Bytes)
      modifies this
      ensures data == old(data) + bytes
    {
      data := data + bytes;
    }

    /** However the reads fall, exactly the first `n` bytes are taken, or all of them when there are fewer. */
    method ReadFull(n: nat) returns (bytes: Bytes, err: ReadError)
      modifies this
      ensures bytes + data == old(data)
      ensures |bytes| == if n <= |old(data)| then n else |old(data)|
      ensures err == if n <= |old(data)| then NoError else if old(data) == [] then Eof else UnexpectedEof
    {
      bytes := [];
      while |bytes| < n && data != []
        invariant bytes + data == old(data) && |bytes| <= n
        decreases |data|
      {
        ghost var before, left := bytes, data;
        var chunk := Read(n - |bytes|);
        bytes := bytes + chunk;
        assert before + (chunk + data) == before + chunk + data;
      }
      err := if |bytes| == n then NoError else if bytes == [] then Eof else UnexpectedEof;
    }
  }

  datatype Served = Done | ClosedStream | BrokenRequest | HandlerFailed

  /** The length first, then the value, which is not written when it is empty. */
  method WritePrefixed(output: Pipe, value: Bytes)
    modifies output
    ensures output.data == old(output.data) + Prefix(LENGTH_SIZE, value)
  {
    hide ToBigEndian;
    var length := ToBigEndian(|value|, LENGTH_SIZE);
    output.Write(length);
    if value != [] {
      output.Write(value);
    }
    assert old(output.data) + length + value == old(output.data) + (length + value);
  }

  /** One request: a whole key is read, and exactly its length-prefixed pre-image is written, or nothing. */
  method NextPreimageRequest(input: Pipe, output: Pipe, get: Getter) returns (r: Served)
    requires input != output
    modifies input, output
    ensures r == ClosedStream <==> old(input.data) == []
    ensures r == BrokenRequest <==> 0 < |old(input.data)| < KEY_SIZE
    ensures KEY_SIZE <= |old(input.data)| ==>
      var key := old(input.data)[..KEY_SIZE];
      && input.data == old(input.data)[KEY_SIZE..]
      && (r == HandlerFailed <==> Serve(get, key).Refuse?)
      && (r == Done ==> Serve(get, key).Reply? && output.data == old(output.data) + Serve(get, key).bytes)
    ensures r != Done ==> output.data == old(output.data)
  {
    var key, err := input.ReadFull(KEY_SIZE);
    if err != NoError {
      return if err == Eof then ClosedStream else BrokenRequest;
    }
    hide ToBigEndian;
    assert key == old(input.data)[..KEY_SIZE];
    var value := get(key);
    if value.None? {
      return HandlerFailed;
    }
    WritePrefixed(output, value.value);
    return Done;
  }

  /** One hint: a whole hint is read, handled, and acknowledged with one byte whether or not handling it fails. */
  method NextHint(input: Pipe, output: Pipe, fails: Bytes -> bool) returns (r: Served, hint: Bytes)
    requires input != output
    modifies input, output
    ensures r == ClosedStream <==> old(input.data) == []
    ensures Prefixed(HINT_LENGTH_SIZE).Needed(old(input.data)) <= 0 && HINT_LENGTH_SIZE <= |old(input.data)| <==>
      r == Done || r == HandlerFailed
    ensures r == Done || r == HandlerFailed ==>
      && HINT_LENGTH_SIZE + |hint| <= |old(input.data)|
      && Prefixed(HINT_LENGTH_SIZE).Whole(old(input.data)[..HINT_LENGTH_SIZE + |hint|])
      && old(input.data) == old(input.data)[..HINT_LENGTH_SIZE] + hint + input.data
      && (r == HandlerFailed <==> fails(hint))
      && output.data == old(output.data) + ACK
    ensures r == ClosedStream || r == BrokenRequest ==> output.data == old(output.data)
  {
    hint := [];
    var prefix, err := input.ReadFull(HINT_LENGTH_SIZE);
    if err != NoError {
      return if err == Eof then ClosedStream else BrokenRequest, [];
    }
    assert prefix == old(input.data)[..HINT_LENGTH_SIZE];
    var length := BigEndian(prefix);
    if 0 < length {
      hint, err := input.ReadFull(length);
      if err != NoError {
        return BrokenRequest, [];
      }
    }
    assert old(input.data) == prefix + hint + input.data;
    assert old(input.data)[..HINT_LENGTH_SIZE + |hint|] == prefix + hint;
    assert (prefix + hint)[..HINT_LENGTH_SIZE] == prefix;
    output.Write(ACK);
    r := if fails(hint) then HandlerFailed else Done;
  }
}
