/**
 The objects of src/connection_client.h and src/connection_transaction.h as their code updates
 them in place: one turn of the worker's loop, the queue, the log of round trip times, and
 `waitForFinish`. A turn is what the steps of `Connection` do when no other thread comes in
 between.
 */
module Worker {
  import opened Packets
  import opened Responses
  import opened Connection

  class ClientTransaction {
    const request: Packet
    const validator: AmcomTransaction
    var state: State
    var responseSize: nat
    var signal: nat

    constructor (request: Packet, validator: AmcomTransaction)
      ensures this.request == request && this.validator == validator
      ensures state == IDLE && responseSize == ResponseSize(request) && signal == 0
    {
      this.request, this.validator := request, validator;
      state, responseSize, signal := IDLE, ResponseSize(request), 0;
    }

    method Release()
      modifies this`signal
      ensures signal == old(signal) + 1
    {
      signal := signal + 1;
    }

    /** `waitUntil`: gives up only on a signal that is not there. */
    method WaitUntil() returns (ok: bool)
      modifies this`signal
      ensures signal == if old(signal) > 0 then old(signal) - 1 else 0
      ensures ok <==> old(signal) > 0 && state == DONE
    {
      if signal > 0 {
        signal := signal - 1;
        if state == DONE {
          return true;
        }
      }
      return false;
    }
  }

  /** What the socket, the deserializer and the clock do in one turn. */
  datatype Turn = Turn(written: bool, read: bool, delivered: seq<Delivered>, rtt: int)

  const RTT_LOG_SIZE := 10

  /** The newest entries, ten at most. */
  function Newest(log: seq<nat>): (r: seq<nat>) {
    if |log| <= RTT_LOG_SIZE then log else log[|log| - RTT_LOG_SIZE..]
  }

  function Sum(log: seq<nat>): nat {
    if log == [] then 0 else Sum(log[..|log| - 1]) + log[|log| - 1]
  }

  /** The round trip was timed, so a response was waited for. */
  predicate Timed(t: State, size: nat, turn: Turn) {
    t == SCHEDULED && turn.written && size > 0
  }

  /** The state a turn leaves a transaction in. */
  function StateAfter(t: State, size: nat, kind: nat, turn: Turn): State {
    if t != SCHEDULED then t
    else if !turn.written then TIMEOUT
    else if size == 0 then DONE
    else if turn.read && Accepts(kind, turn.delivered) then DONE
    else TIMEOUT
  }

  /** A turn that ends the connection: nothing could be written, or the response was invalid. */
  predicate Ends(t: State, size: nat, kind: nat, turn: Turn) {
    t == SCHEDULED && (!turn.written || (size > 0 && turn.read && !Accepts(kind, turn.delivered)))
  }

  /** The response size is cleared by an invalid response. */
  function SizeAfter(t: State, size: nat, kind: nat, turn: Turn): nat {
    if turn.written && Ends(t, size, kind, turn) then 0 else size
  }

  /** What was read is stored if it is accepted and the first for this client. */
  function StoreAfter(store: map<nat, Payload>, id: nat, t: State, size: nat, kind: nat, turn: Turn): map<nat, Payload> {
    if Timed(t, size, turn) && turn.read then Emplace(store, id, FirstAccepted(kind, turn.delivered)) else store
  }

  /** The round trip time is logged if a response was waited for. */
  function LogAfter(log: seq<nat>, t: State, size: nat, turn: Turn): seq<nat> {
    if Timed(t, size, turn) then Newest(log + [turn.rtt % 0x1_0000_0000]) else log
  }

  class ConnectionClient {
    const clientId: nat
    var active: bool
    var stopRequested: bool
    var transactions: seq<ClientTransaction>
    var rttLog: seq<nat>

    constructor (id: nat)
      ensures clientId == id && active && !stopRequested && transactions == [] && rttLog == []
    {
      clientId, active, stopRequested, transactions, rttLog := id, true, false, [], [];
    }

    method RunTransaction(t: ClientTransaction) returns (ok: bool)
      modifies this`transactions, t`state
      ensures ok == active
      ensures ok ==> t.state == SCHEDULED && transactions == old(transactions) + [t]
      ensures !ok ==> t.state == old(t.state) && transactions == old(transactions)
    {
      if active {
        t.state := SCHEDULED;
        transactions := transactions + [t];
        return true;
      }
      return false;
    }

    method NotifyRtt(rtt: int)
      modifies this`rttLog
      ensures rttLog == Newest(old(rttLog) + [rtt % 0x1_0000_0000])
    {
      rttLog := rttLog + [rtt % 0x1_0000_0000];
      ghost var all := rttLog;
      while |rttLog| > RTT_LOG_SIZE
        invariant |rttLog| <= |all| && rttLog == all[|all| - |rttLog|..]
        invariant |all| <= RTT_LOG_SIZE ==> rttLog == all
        invariant |all| > RTT_LOG_SIZE ==> |rttLog| >= RTT_LOG_SIZE
      {
        rttLog := rttLog[1..];
      }
    }

    method GetRtt() returns (rtt: nat)
      ensures rttLog == [] ==> rtt == 0
      ensures rttLog != [] ==> rtt == Sum(rttLog) % 0x1_0000_0000 / |rttLog|
    {
      if |rttLog| > 0 {
        var sum := 0;
        for n := 0 to |rttLog|
          invariant sum == Sum(rttLog[..n]) % 0x1_0000_0000
        {
          assert rttLog[..n + 1][..n] == rttLog[..n];
          AddWraps(Sum(rttLog[..n]), rttLog[n]);
          sum := (sum + rttLog[n]) % 0x1_0000_0000;
        }
        assert rttLog[..|rttLog|] == rttLog;
        return sum / |rttLog|;
      }
      return 0;
    }

    /** The body of the worker's loop once it has taken `t` from the queue. */
    method Serve(t: ClientTransaction, turn: Turn)
      modifies t`state, t`responseSize, t`signal, this`stopRequested, this`rttLog, t.validator`responses
      ensures t.state == StateAfter(old(t.state), old(t.responseSize), t.validator.responseType, turn)
      ensures t.signal == old(t.signal) + if old(t.state) == SCHEDULED then 1 else 0
      ensures t.responseSize == SizeAfter(old(t.state), old(t.responseSize), t.validator.responseType, turn)
      ensures stopRequested
           == (old(stopRequested) || Ends(old(t.state), old(t.responseSize), t.validator.responseType, turn))
      ensures t.validator.responses
           == StoreAfter(old(t.validator.responses), clientId, old(t.state), old(t.responseSize), t.validator.responseType, turn)
      ensures rttLog == LogAfter(old(rttLog), old(t.state), old(t.responseSize), turn)
    {
      if t.state == SCHEDULED {
        if !turn.written {
          t.state := TIMEOUT;
          t.Release();
          stopRequested := true;
        } else if t.responseSize > 0 {
          t.state := WAITING;
          if turn.read {
            var valid := t.validator.Validate(clientId, turn.delivered);
            if valid {
              t.state := DONE;
            } else {
              t.responseSize := 0;
              t.state := TIMEOUT;
            }
          } else {
            t.state := TIMEOUT;
          }
          NotifyRtt(turn.rtt);
          t.Release();
          if t.responseSize == 0 {
            stopRequested := true;
          }
        } else {
          t.state := DONE;
          t.Release();
        }
      }
    }

    /** One turn of the loop: take the oldest transaction, if there is one, and serve it. */
    method Loop(turn: Turn)
      modifies this`transactions, this`stopRequested, this`rttLog
      modifies transactions`state, transactions`responseSize, transactions`signal
      modifies set t | t in transactions :: t.validator
      ensures old(transactions) == [] ==> transactions == [] && stopRequested == old(stopRequested) && rttLog == old(rttLog)
      ensures old(transactions) != [] ==> transactions == old(transactions)[1..]
      ensures old(transactions) != [] ==>
        var t := old(transactions)[0];
        && t.state == StateAfter(old(t.state), old(t.responseSize), t.validator.responseType, turn)
        && t.signal == old(t.signal) + (if old(t.state) == SCHEDULED then 1 else 0)
        && t.responseSize == SizeAfter(old(t.state), old(t.responseSize), t.validator.responseType, turn)
        && stopRequested == (old(stopRequested) || Ends(old(t.state), old(t.responseSize), t.validator.responseType, turn))
        && t.validator.responses
        == StoreAfter(old(t.validator.responses), clientId, old(t.state), old(t.responseSize), t.validator.responseType, turn)
        && rttLog == LogAfter(old(rttLog), old(t.state), old(t.responseSize), turn)
      ensures forall t <- old(transactions) :: t != old(transactions)[0] ==>
        t.state == old(t.state) && t.responseSize == old(t.responseSize) && t.signal == old(t.signal)
    {
      if transactions != [] {
        var t := transactions[0];
        transactions := transactions[1..];
        Serve(t, turn);
      }
    }
  }

  lemma AddWraps(a: nat, b: nat)
    ensures (a % 0x1_0000_0000 + b) % 0x1_0000_0000 == (a + b) % 0x1_0000_0000
  {
  }

  // ---------- a turn is an uninterrupted run of steps ----------

  /** What the socket does in the step after `pc`. */
  function IoOf(pc: Pc, turn: Turn): Io {
    Io(if pc.Writing? then turn.written else turn.read, turn.delivered)
  }

  /** The worker is between the head of its loop and its next turn. */
  predicate Serving(k: Client) {
    Bounded(k) && (k.pc.Busy() || k.pc.SizeCheck? || k.pc.Stopping? || k.pc.AtLoop?)
  }

  lemma ServingKeeps(k: Client, io: Io)
    requires Serving(k) && !k.pc.AtLoop?
    ensures |WorkerStep(k, io).txs| == |k.txs| && WorkerStep(k, io).queue == k.queue
  {
    StepRecords(k, io);
    if Serves(k) {
      ServingFrame(k, io);
    } else {
      QuietFrame(k, io);
    }
  }

  lemma ServingPc(k: Client, io: Io)
    requires Serving(k) && !k.pc.AtLoop?
    ensures var pc := WorkerStep(k, io).pc;
      && (pc.Busy() || pc.SizeCheck? || pc.Stopping? || pc.AtLoop?)
      && (pc.Touches() ==> k.pc.Touches() && pc.tx == k.pc.tx)
  {
    match k.pc
    case Popped(_) =>
    case Writing(_) =>
    case Reading(_) =>
    case Validating(_) =>
    case Releasing(_, _) =>
    case SizeCheck(_) =>
    case Stopping =>
  }

  lemma ServingOn(k: Client, io: Io)
    requires Serving(k) && !k.pc.AtLoop?
    ensures Serving(WorkerStep(k, io)) && StepsLeft(WorkerStep(k, io).pc) < StepsLeft(k.pc)
    ensures |WorkerStep(k, io).txs| == |k.txs| && WorkerStep(k, io).queue == k.queue
  {
    ServingKeeps(k, io);
    ServingPc(k, io);
    StepCloser(k, io);
  }

  /** The worker's steps up to the head of its loop, nobody else moving. */
  function ToLoopHead(k: Client, turn: Turn): (n: Client)
    requires Serving(k)
    ensures n.pc.AtLoop? && |n.txs| == |k.txs| && n.queue == k.queue
    decreases StepsLeft(k.pc)
  {
    if k.pc.AtLoop? then k
    else
      ServingOn(k, IoOf(k.pc, turn));
      ToLoopHead(WorkerStep(k, IoOf(k.pc, turn)), turn)
  }

  /** Stopping, and going back to the head of the loop, touches no transaction and no response. */
  lemma StopTail(k: Client, turn: Turn)
    requires Serving(k) && (k.pc.Stopping? || k.pc.AtLoop?)
    ensures var n := ToLoopHead(k, turn); n.txs == k.txs && n.responses == k.responses && (n.stop <==> k.stop || k.pc.Stopping?)
  {
    if k.pc.Stopping? {
      assert ToLoopHead(k, turn) == WorkerStep(k, IoOf(k.pc, turn));
    }
  }

  lemma CheckTail(k: Client, turn: Turn)
    requires Serving(k) && k.pc.SizeCheck?
    ensures var n := ToLoopHead(k, turn);
      n.txs == k.txs && n.responses == k.responses && (n.stop <==> k.stop || k.txs[k.pc.tx].responseSize == 0)
  {
    StopTail(WorkerStep(k, IoOf(k.pc, turn)), turn);
  }

  /** From the verdict on: the signal is released, and some outcomes stop the worker. */
  lemma ReleaseTail(k: Client, turn: Turn)
    requires Serving(k) && k.pc.Releasing?
    ensures var n := ToLoopHead(k, turn); var t, u := k.txs[k.pc.tx], n.txs[k.pc.tx];
      && u.state == t.state && u.signal == t.signal + 1 && u.responseSize == t.responseSize && n.responses == k.responses
      && (n.stop <==> k.stop || k.pc.next.ToStop? || (k.pc.next.ToSizeCheck? && t.responseSize == 0))
  {
    var k1 := WorkerStep(k, IoOf(k.pc, turn));
    assert ToLoopHead(k, turn) == ToLoopHead(k1, turn);
    if k1.pc.SizeCheck? {
      CheckTail(k1, turn);
    } else {
      StopTail(k1, turn);
    }
  }

  lemma ValidateTail(k: Client, turn: Turn)
    requires Serving(k) && k.pc.Validating? && k.txs[k.pc.tx].responseSize > 0
    ensures var n := ToLoopHead(k, turn); var t, u := k.txs[k.pc.tx], n.txs[k.pc.tx]; var kind := ResponseType(t.request);
      && u.state == (if Accepts(kind, turn.delivered) then DONE else TIMEOUT) && u.signal == t.signal + 1
      && u.responseSize == (if Accepts(kind, turn.delivered) then t.responseSize else 0)
      && (n.stop <==> k.stop || !Accepts(kind, turn.delivered))
      && n.responses == Emplace(k.responses, t.owner, FirstAccepted(kind, turn.delivered))
  {
    ReleaseTail(WorkerStep(k, IoOf(k.pc, turn)), turn);
  }

  lemma ReadTail(k: Client, turn: Turn)
    requires Serving(k) && k.pc.Reading? && k.txs[k.pc.tx].responseSize > 0
    ensures var n := ToLoopHead(k, turn); var t, u := k.txs[k.pc.tx], n.txs[k.pc.tx]; var kind := ResponseType(t.request);
      && u.state == (if turn.read && Accepts(kind, turn.delivered) then DONE else TIMEOUT) && u.signal == t.signal + 1
      && u.responseSize == (if turn.read && !Accepts(kind, turn.delivered) then 0 else t.responseSize)
      && (n.stop <==> k.stop || (turn.read && !Accepts(kind, turn.delivered)))
      && n.responses == if turn.read then Emplace(k.responses, t.owner, FirstAccepted(kind, turn.delivered)) else k.responses
  {
    var k1 := WorkerStep(k, IoOf(k.pc, turn));
    assert ToLoopHead(k, turn) == ToLoopHead(k1, turn);
    if turn.read {
      ValidateTail(k1, turn);
    } else {
      ReleaseTail(k1, turn);
    }
  }

  /** The turn of the code does to the transaction, the stop flag and the response store what the steps do. */
  lemma TurnIsSteps(k: Client, turn: Turn)
    requires Serving(k) && k.pc.Popped? && k.txs[k.pc.tx].state.SCHEDULED?
    ensures var n := ToLoopHead(k, turn); var t, u := k.txs[k.pc.tx], n.txs[k.pc.tx]; var kind := ResponseType(t.request);
      && u.state == StateAfter(t.state, t.responseSize, kind, turn)
      && u.signal == t.signal + 1
      && u.responseSize == SizeAfter(t.state, t.responseSize, kind, turn)
      && (n.stop <==> k.stop || Ends(t.state, t.responseSize, kind, turn))
      && n.responses == StoreAfter(k.responses, t.owner, t.state, t.responseSize, kind, turn)
  {
    var k1 := WorkerStep(k, IoOf(k.pc, turn));
    var k2 := WorkerStep(k1, IoOf(k1.pc, turn));
    assert ToLoopHead(k, turn) == ToLoopHead(k1, turn) == ToLoopHead(k2, turn);
    if turn.written && k.txs[k.pc.tx].responseSize > 0 {
      ReadTail(k2, turn);
    } else {
      ReleaseTail(k2, turn);
    }
  }

  /**
   At the head of its loop a worker that need not stop takes the oldest transaction off its queue,
   or comes back for the next look.
   */
  lemma TakesOldest(k: Client, io: Io)
    requires Bounded(k) && k.pc.AtLoop? && !k.stop && k.lock.Nobody?
    ensures var k1 := WorkerStep(k, io);
      && Enabled(k1) && Bounded(k1) && var k2 := WorkerStep(k1, io);
      && Enabled(k2) && Bounded(k2) && var n := WorkerStep(k2, io);
      && n.lock.Nobody? && n.txs == k.txs && n.pushed == k.pushed
      && (k.queue == [] ==> n == k)
      && (k.queue != [] ==> n.pc == Popped(k.queue[0]) && k.queue == [k.queue[0]] + n.queue)
  {
  }

  // ---------- round trip times ----------

  function Notified(log: seq<nat>, rtts: seq<nat>): seq<nat> {
    if rtts == [] then log else Newest(Notified(log, rtts[..|rtts| - 1]) + [rtts[|rtts| - 1]])
  }

  /** After any number of turns the log holds the newest times, ten at most. */
  lemma {:induction false} LogIsNewest(rtts: seq<nat>)
    ensures Notified([], rtts) == Newest(rtts)
    decreases rtts
  {
    if rtts != [] {
      LogIsNewest(rtts[..|rtts| - 1]);
      assert rtts == rtts[..|rtts| - 1] + [rtts[|rtts| - 1]];
    }
  }

  lemma {:induction false} SumBounds(log: seq<nat>, low: nat, high: nat)
    requires forall n :: 0 <= n < |log| ==> low <= log[n] <= high
    ensures low * |log| <= Sum(log) <= high * |log|
    decreases log
  {
    if log != [] {
      var n := |log| - 1;
      SumBounds(log[..n], low, high);
      OneMoreTimes(low, n);
      OneMoreTimes(high, n);
    }
  }

  lemma OneMoreTimes(a: nat, n: nat)
    ensures a * (n + 1) == a * n + a
  {
  }

  /** The mean reported lies between the shortest and the longest time logged, unless their sum leaves 32 bits. */
  lemma MeanIsBetween(log: seq<nat>, low: nat, high: nat)
    requires log != [] && forall n :: 0 <= n < |log| ==> low <= log[n] <= high
    requires Sum(log) < 0x1_0000_0000
    ensures low <= Sum(log) % 0x1_0000_0000 / |log| <= high
  {
    SumBounds(log, low, high);
    QuotientBounds(Sum(log), |log|, low, high);
  }

  lemma Cancel(a: nat, b: nat, n: nat)
    requires a * n < b * n
    ensures a < b
  {
    assert (b - a) * n > 0;
  }

  lemma QuotientBounds(sum: nat, n: nat, low: nat, high: nat)
    requires n > 0 && low * n <= sum <= high * n
    ensures low <= sum / n <= high
  {
    var q := sum / n;
    assert q * n <= sum < (q + 1) * n;
    assert (high + 1) * n == high * n + n;
    Cancel(low, q + 1, n);
    Cancel(q, high + 1, n);
  }

  // ---------- waitForFinish ----------

  /** The transactions whose signal is there and whose state is DONE. */
  function Successes(ts: seq<ClientTransaction>): nat
    reads ts`signal, ts`state
  {
    if ts == [] then 0
    else
      var t := ts[|ts| - 1];
      Successes(ts[..|ts| - 1]) + if t.signal > 0 && t.state == DONE then 1 else 0
  }

  /** Takes every signal that is there, and counts the successes among them. */
  method WaitForFinish(ts: seq<ClientTransaction>) returns (successCount: nat)
    requires forall a, b :: 0 <= a < b < |ts| ==> ts[a] != ts[b]
    modifies ts`signal
    ensures successCount == old(Successes(ts))
    ensures forall a :: 0 <= a < |ts| ==> ts[a].signal == old(if ts[a].signal > 0 then ts[a].signal - 1 else 0)
  {
    successCount := 0;
    for n := 0 to |ts|
      invariant successCount == old(Successes(ts[..n]))
      invariant forall a :: 0 <= a < n ==> ts[a].signal == old(if ts[a].signal > 0 then ts[a].signal - 1 else 0)
      invariant forall a :: n <= a < |ts| ==> ts[a].signal == old(ts[a].signal)
    {
      assert ts[..n + 1][..n] == ts[..n];
      var ok := ts[n].WaitUntil();
      if ok {
        successCount := successCount + 1;
      }
    }
    assert ts[..|ts|] == ts;
  }
}
