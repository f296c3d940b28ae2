/**
 The txpool state machine: the publishing loop cancels a blocking transaction,
 the receipts loop notices blocks and finished cancellations. The receipts loop
 reads the state without the lock, so its reads and its write are separate steps.
 */
module Txpool {

  datatype Pool = Good | Blocked | CancelPending

  datatype Receipt = Receipt(isCancel: bool, isBlob: bool, reserved: bool)

  /** The publishing loop: between calls, or about to send the cancellation it has announced. */
  datatype Publisher = Ready | Cancelling(blockedBlob: bool)

  /** The receipts loop: waiting, about to test each condition in turn, or about to write the new state. */
  datatype Receiver =
    | Waiting
    | TestBlocked(receipt: Receipt)
    | TestCancelled(receipt: Receipt)
    | SetBlocked(isBlob: bool)
    | SetGood(blockedBlob: bool)

  datatype State = State(pool: Pool, blockedBlob: bool, publisher: Publisher, receiver: Receiver, cancelsInFlight: nat, othersInFlight: nat)

  const START := State(Good, false, Ready, Waiting, 0, 0)

  datatype Move =
    | CheckPool
    | SendCancel
    | SendOther
    | TakeReceipt(receipt: Receipt)
    | ReadFirst
    | ReadSecond
    | WriteState

  /** Each sent transaction produces one receipt. */
  predicate Enabled(s: State, m: Move) {
    match m
    case CheckPool => s.publisher.Ready?
    case SendCancel => s.publisher.Cancelling?
    case SendOther => true
    case TakeReceipt(r) => s.receiver.Waiting? && 1 <= (if r.isCancel then s.cancelsInFlight else s.othersInFlight)
    case ReadFirst => s.receiver.TestBlocked?
    case ReadSecond => s.receiver.TestCancelled?
    case WriteState => s.receiver.SetBlocked? || s.receiver.SetGood?
  }

  function Do(s: State, m: Move): State
    requires Enabled(s, m)
  {
    match m
    case CheckPool =>
      if s.pool == Blocked then s.(pool := CancelPending, publisher := Cancelling(s.blockedBlob)) else s
    case SendCancel => s.(publisher := Ready, cancelsInFlight := s.cancelsInFlight + 1)
    case SendOther => s.(othersInFlight := s.othersInFlight + 1)
    case TakeReceipt(r) =>
      if r.isCancel then s.(receiver := TestBlocked(r), cancelsInFlight := s.cancelsInFlight - 1)
      else s.(receiver := TestBlocked(r), othersInFlight := s.othersInFlight - 1)
    case ReadFirst =>
      var r := s.receiver.receipt;
      s.(receiver := if r.reserved && s.pool == Good then SetBlocked(r.isBlob) else TestCancelled(r))
    case ReadSecond =>
      var r := s.receiver.receipt;
      s.(receiver := if r.isCancel && s.pool == CancelPending then SetGood(s.blockedBlob) else Waiting)
    case WriteState =>
      if s.receiver.SetBlocked? then s.(pool := Blocked, blockedBlob := s.receiver.isBlob, receiver := Waiting)
      else s.(pool := Good, blockedBlob := s.receiver.blockedBlob, receiver := Waiting)
  }

  /** Cancellations announced and not yet reported back: about to be sent, in flight, or being handled. */
  function Outstanding(s: State): nat {
    (if s.publisher.Cancelling? then 1 else 0)
    + s.cancelsInFlight
    + (if (s.receiver.TestBlocked? || s.receiver.TestCancelled?) && s.receiver.receipt.isCancel then 1
       else if s.receiver.SetGood? then 1 else 0)
  }

  ghost predicate Inv(s: State) {
    && Outstanding(s) == (if s.pool == CancelPending then 1 else 0)
    && (s.receiver.SetBlocked? ==> s.pool == Good)
    && (s.publisher.Cancelling? ==> s.publisher.blockedBlob == s.blockedBlob)
    && (s.receiver.SetGood? ==> s.receiver.blockedBlob == s.blockedBlob)
  }

  ghost predicate Leads(s: State, moves: seq<Move>, s': State)
    decreases |moves|
  {
    if moves == [] then s' == s else Enabled(s, moves[0]) && Leads(Do(s, moves[0]), moves[1..], s')
  }

  lemma {:induction false} RunKeeps(s: State, moves: seq<Move>, s': State)
    requires Inv(s) && Leads(s, moves, s')
    ensures Inv(s')
    decreases |moves|
  {
    if moves != [] {
      RunKeeps(Do(s, moves[0]), moves[1..], s');
    }
  }

  /**
   Under every interleaving exactly one cancellation is outstanding while one is pending, and none otherwise, although
   the receipts loop decides on unlocked reads.
   */
  lemma OneCancellation(moves: seq<Move>, s: State)
    requires Leads(START, moves, s)
    ensures Outstanding(s) == (if s.pool == CancelPending then 1 else 0)
  {
    RunKeeps(START, moves, s);
  }

  /** Between the unlocked read and the locked write the state the decision was based on has not changed. */
  lemma WriteNotStale(moves: seq<Move>, s: State)
    requires Leads(START, moves, s)
    ensures s.receiver.SetBlocked? ==> s.pool == Good
    ensures s.receiver.SetGood? ==> s.pool == CancelPending
  {
    RunKeeps(START, moves, s);
  }

  /** The cancellation about to be sent is of the kind that blocks the pool. */
  lemma CancelsWhatBlocks(moves: seq<Move>, s: State)
    requires Leads(START, moves, s) && s.publisher.Cancelling?
    ensures s.publisher.blockedBlob == s.blockedBlob && s.pool == CancelPending
  {
    RunKeeps(START, moves, s);
  }

  /**
   The three transitions of the pool's state, each with the only move that makes it; the kind that blocks is that of the
   transaction whose receipt said so, and stays until the next block.
   */
  lemma TransitionsExact(moves: seq<Move>, s: State, m: Move)
    requires Leads(START, moves, s) && Enabled(s, m)
    ensures var s' := Do(s, m);
      && (s.pool != Blocked && s'.pool == Blocked <==> m.WriteState? && s.receiver.SetBlocked?)
      && (s.pool != CancelPending && s'.pool == CancelPending <==> m.CheckPool? && s.pool == Blocked)
      && (s.pool != Good && s'.pool == Good <==> m.WriteState? && s.receiver.SetGood?)
      && (s'.blockedBlob == if m.WriteState? && s.receiver.SetBlocked? then s.receiver.isBlob else s.blockedBlob)
  {
    RunKeeps(START, moves, s);
  }

  /** What the receipts loop decides on a receipt, by what it reads. */
  lemma DecisionsExact(s: State, m: Move)
    requires Enabled(s, m) && (m.ReadFirst? || m.ReadSecond?)
    ensures var r, next := s.receiver.receipt, Do(s, m).receiver;
      && (next.SetBlocked? <==> m.ReadFirst? && r.reserved && s.pool == Good)
      && (next.SetBlocked? ==> next.isBlob == r.isBlob)
      && (next.SetGood? <==> m.ReadSecond? && r.isCancel && s.pool == CancelPending)
  {
  }

  const NOT_RESERVED := Receipt(true, false, false)

  /** Blocked, cancelled and good again: the whole round is possible. */
  lemma RoundTrip(isBlob: bool)
    ensures var blocked := State(Blocked, isBlob, Ready, Waiting, 0, 0);
      && Leads(START, [SendOther, TakeReceipt(Receipt(false, isBlob, true)), ReadFirst, WriteState], blocked)
      && Leads(blocked, [CheckPool, SendCancel, TakeReceipt(NOT_RESERVED), ReadFirst, ReadSecond, WriteState],
               State(Good, isBlob, Ready, Waiting, 0, 0))
  {
    hide Leads;
    var r := Receipt(false, isBlob, true);
    var s1 := Do(START, SendOther);
    var s2 := Do(s1, TakeReceipt(r));
    var s3 := Do(s2, ReadFirst);
    var s4 := Do(s3, WriteState);
    LeadsNowhere(s4);
    LeadsFirst(s3, WriteState, [], s4);
    LeadsFirst(s2, ReadFirst, [WriteState] + [], s4);
    LeadsFirst(s1, TakeReceipt(r), [ReadFirst] + ([WriteState] + []), s4);
    LeadsFirst(START, SendOther, [TakeReceipt(r)] + ([ReadFirst] + ([WriteState] + [])), s4);
    assert [SendOther] + ([TakeReceipt(r)] + ([ReadFirst] + ([WriteState] + []))) == [SendOther, TakeReceipt(r), ReadFirst, WriteState];
    Cancelled(isBlob);
  }

  lemma Cancelled(isBlob: bool)
    ensures Leads(State(Blocked, isBlob, Ready, Waiting, 0, 0),
                  [CheckPool, SendCancel, TakeReceipt(NOT_RESERVED), ReadFirst, ReadSecond, WriteState],
                  State(Good, isBlob, Ready, Waiting, 0, 0))
  {
    hide Leads;
    var s := State(Blocked, isBlob, Ready, Waiting, 0, 0);
    var t1 := Do(s, CheckPool);
    var t2 := Do(t1, SendCancel);
    var t3 := Do(t2, TakeReceipt(NOT_RESERVED));
    var t4 := Do(t3, ReadFirst);
    var t5 := Do(t4, ReadSecond);
    var t6 := Do(t5, WriteState);
    LeadsNowhere(t6);
    LeadsFirst(t5, WriteState, [], t6);
    LeadsFirst(t4, ReadSecond, [WriteState] + [], t6);
    LeadsFirst(t3, ReadFirst, [ReadSecond] + ([WriteState] + []), t6);
    var moves := [ReadFirst] + ([ReadSecond] + ([WriteState] + []));
    LeadsFirst(t2, TakeReceipt(NOT_RESERVED), moves, t6);
    LeadsFirst(t1, SendCancel, [TakeReceipt(NOT_RESERVED)] + moves, t6);
    LeadsFirst(s, CheckPool, [SendCancel] + ([TakeReceipt(NOT_RESERVED)] + moves), t6);
    assert [CheckPool] + ([SendCancel] + ([TakeReceipt(NOT_RESERVED)] + moves))
        == [CheckPool, SendCancel, TakeReceipt(NOT_RESERVED), ReadFirst, ReadSecond, WriteState];
  }

  lemma LeadsNowhere(s: State)
    ensures Leads(s, [], s)
  {
  }

  lemma LeadsFirst(s: State, m: Move, moves: seq<Move>, s': State)
    requires Enabled(s, m) && Leads(Do(s, m), moves, s')
    ensures Leads(s, [m] + moves, s')
  {
    assert ([m] + moves)[1..] == moves;
  }
}
