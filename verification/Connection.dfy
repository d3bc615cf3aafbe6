/**
 One connected client (src/connection_client.cpp, src/connection_client.h): its worker thread
 as a step function with a program counter, the queue the game thread pushes onto, and every
 transaction ever created for the client. Sockets succeed, fail and deliver as they like.
 */
module Connection {
  import opened Basics
  import opened Packets
  import opened Responses

  datatype State = IDLE | SCHEDULED | WAITING | DONE | TIMEOUT

  /** How the worker's attempt ended. */
  datatype Outcome = Pending | Sent | Accepted | WriteFailed | ReadFailed | Invalid

  /**
   A `ClientTransaction`. `owner` is the transaction object it belongs to; `released` and
   `acquired` count what happened to its signal; `live` ends with its destruction.
   */
  datatype Tx = Tx(
    owner: nat,
    request: Packet,
    state: State,
    responseSize: nat,
    signal: nat,
    released: nat,
    acquired: nat,
    delivered: seq<Delivered>,
    outcome: Outcome,
    live: bool
  )

  function NewTx(owner: nat, request: Packet): Tx {
    Tx(owner, request, IDLE, ResponseSize(request), 0, 0, 0, [], Pending, true)
  }

  datatype Holder = Nobody | Worker | GameThread

  /** Where the worker goes once it has released the signal. */
  datatype Way = ToLoop | ToSizeCheck | ToStop

  datatype Pc =
    | AtLoop
    | Locking
    | Holding
    | Popped(tx: nat)
    | Writing(tx: nat)
    | Reading(tx: nat)
    | Validating(tx: nat)
    | Releasing(tx: nat, next: Way)
    | SizeCheck(tx: nat)
    | Stopping
    | Closing
    | Exited
  {
    /** The worker is serving a transaction whose signal it has not released yet. */
    predicate Busy() {
      Popped? || Writing? || Reading? || Validating? || Releasing?
    }

    /** The next step reads or writes the transaction `tx`. */
    predicate Touches() {
      Busy() || SizeCheck?
    }
  }

  /**
   `txs` holds every transaction created for this client; the queue refers into it. `pushed` and
   `attempted` record, in order, what was ever queued and what the worker tried to write, and
   `popped` counts what it took off the queue. `responses` are the entries of this client in the
   response stores, by transaction object. `queueGone` says that the queue and its mutex have been
   destroyed; a worker that uses them after that goes on here as if they were still there.
   */
  datatype Client = Client(
    pc: Pc,
    active: bool,
    stop: bool,
    evicted: bool,
    lock: Holder,
    queueGone: bool,
    txs: seq<Tx>,
    queue: seq<nat>,
    pushed: seq<nat>,
    popped: nat,
    attempted: seq<nat>,
    responses: map<nat, Payload>
  )

  function NewClient(): Client {
    Client(AtLoop, true, false, false, Nobody, false, [], [], [], 0, [], map[])
  }

  /** What the socket does in one step. */
  datatype Io = Io(ok: bool, delivered: seq<Delivered>)

  predicate Bounded(k: Client) {
    && (forall n :: 0 <= n < |k.queue| ==> k.queue[n] < |k.txs|)
    && (k.pc.Touches() ==> k.pc.tx < |k.txs|)
  }

  /** The worker can move, unless it waits for the queue's mutex or has returned. */
  predicate Enabled(k: Client) {
    !k.pc.Exited? && (k.pc.Locking? ==> k.lock.Nobody?)
  }

  function Put(k: Client, t: Tx, pc: Pc): Client
    requires k.pc.Touches() && k.pc.tx < |k.txs|
  {
    k.(txs := k.txs[k.pc.tx := t], pc := pc)
  }

  function Written(t: Tx, ok: bool): Tx {
    if !ok then t.(state := TIMEOUT, outcome := WriteFailed)
    else if t.responseSize > 0 then t.(state := WAITING)
    else t.(state := DONE, outcome := Sent)
  }

  function AfterWrite(t: Tx, i: nat, ok: bool): Pc {
    if !ok then Releasing(i, ToStop) else if t.responseSize > 0 then Reading(i) else Releasing(i, ToLoop)
  }

  function Validated(t: Tx, ds: seq<Delivered>): Tx {
    if Accepts(ResponseType(t.request), ds)
    then t.(state := DONE, outcome := Accepted, delivered := ds)
    else t.(state := TIMEOUT, outcome := Invalid, delivered := ds, responseSize := 0)
  }

  /** One step of the worker. */
  function WorkerStep(k: Client, io: Io): (n: Client)
    requires Bounded(k) && Enabled(k)
  {
    match k.pc
    case AtLoop => k.(pc := if k.stop then Closing else Locking)
    case Locking => k.(lock := Worker, pc := Holding)
    case Holding =>
      if k.queue == [] then k.(lock := Nobody, pc := AtLoop)
      else k.(lock := Nobody, queue := k.queue[1..], popped := k.popped + 1, pc := Popped(k.queue[0]))
    case Popped(i) => k.(pc := if k.txs[i].state.SCHEDULED? then Writing(i) else AtLoop)
    case Writing(i) => Put(k.(attempted := k.attempted + [i]), Written(k.txs[i], io.ok), AfterWrite(k.txs[i], i, io.ok))
    case Reading(i) =>
      if io.ok then k.(pc := Validating(i))
      else Put(k, k.txs[i].(state := TIMEOUT, outcome := ReadFailed), Releasing(i, ToSizeCheck))
    case Validating(i) =>
      var t := k.txs[i];
      Put(k.(responses := Emplace(k.responses, t.owner, FirstAccepted(ResponseType(t.request), io.delivered))),
          Validated(t, io.delivered), Releasing(i, ToSizeCheck))
    case Releasing(i, next) =>
      var t := k.txs[i];
      Put(k, t.(signal := t.signal + 1, released := t.released + 1),
          match next case ToLoop => AtLoop case ToSizeCheck => SizeCheck(i) case ToStop => Stopping)
    case SizeCheck(i) => k.(pc := if k.txs[i].responseSize == 0 then Stopping else AtLoop)
    case Stopping => k.(stop := true, pc := AtLoop)
    case Closing => k.(active := false, pc := Exited)
  }

  /** The worker's next step writes to the transaction it serves. */
  predicate Serves(k: Client) {
    k.pc.Writing? || k.pc.Reading? || k.pc.Validating? || k.pc.Releasing?
  }

  /** What that step makes of it. */
  function ServedTx(k: Client, io: Io): Tx
    requires Bounded(k) && Serves(k)
  {
    var t := k.txs[k.pc.tx];
    match k.pc
    case Writing(_) => Written(t, io.ok)
    case Reading(_) => if io.ok then t else t.(state := TIMEOUT, outcome := ReadFailed)
    case Validating(_) => Validated(t, io.delivered)
    case Releasing(_, _) => t.(signal := t.signal + 1, released := t.released + 1)
  }

  lemma ServingStep(k: Client, io: Io)
    requires Bounded(k) && Serves(k)
    ensures WorkerStep(k, io).txs == k.txs[k.pc.tx := ServedTx(k, io)]
  {
    match k.pc
    case Writing(_) =>
    case Reading(_) =>
    case Validating(_) =>
    case Releasing(_, _) =>
  }

  lemma QuietStep(k: Client, io: Io)
    requires Bounded(k) && Enabled(k) && !Serves(k)
    ensures WorkerStep(k, io).txs == k.txs && WorkerStep(k, io).responses == k.responses
  {
    match k.pc
    case AtLoop =>
    case Locking =>
    case Holding =>
    case Popped(_) =>
    case SizeCheck(_) =>
    case Stopping =>
    case Closing =>
  }

  /** A worker that serves a transaction touches neither its queue nor a flag. */
  lemma ServingFrame(k: Client, io: Io)
    requires Bounded(k) && Serves(k)
    ensures var n := WorkerStep(k, io);
      && n.queue == k.queue && n.pushed == k.pushed && n.popped == k.popped && n.lock == k.lock
      && n.active == k.active && n.stop == k.stop && n.evicted == k.evicted && n.queueGone == k.queueGone
  {
    match k.pc
    case Writing(_) =>
    case Reading(_) =>
    case Validating(_) =>
    case Releasing(_, _) =>
  }

  lemma QuietFrame(k: Client, io: Io)
    requires Bounded(k) && Enabled(k) && !Serves(k)
    ensures var n := WorkerStep(k, io);
      && n.pushed == k.pushed && n.attempted == k.attempted && n.evicted == k.evicted && n.queueGone == k.queueGone
      && (k.stop ==> n.stop)
      && (!k.pc.Holding? ==> n.queue == k.queue && n.popped == k.popped)
      && (n.lock == k.lock || (!k.lock.GameThread? && !n.lock.GameThread?) || k.pc.Holding?)
      && (k.pc.Holding? ==> n.lock.Nobody?)
  {
    match k.pc
    case AtLoop =>
    case Locking =>
    case Holding =>
    case Popped(_) =>
    case SizeCheck(_) =>
    case Stopping =>
    case Closing =>
  }

  /** What the worker never changes of a transaction. */
  predicate SameRecord(t: Tx, u: Tx) {
    u.owner == t.owner && u.request == t.request && u.acquired == t.acquired && u.live == t.live
  }

  lemma ServedRecord(k: Client, io: Io)
    requires Bounded(k) && Serves(k)
    ensures SameRecord(k.txs[k.pc.tx], ServedTx(k, io))
  {
  }

  /** A step of the worker changes no transaction but the one it serves, and keeps what that is about. */
  lemma StepRecords(k: Client, io: Io)
    requires Bounded(k) && Enabled(k)
    ensures var n := WorkerStep(k, io);
      && |n.txs| == |k.txs|
      && forall i :: 0 <= i < |k.txs| ==>
           SameRecord(k.txs[i], n.txs[i]) && ((Serves(k) && k.pc.tx == i) || n.txs[i] == k.txs[i])
  {
    if Serves(k) {
      ServingStep(k, io);
      ServedRecord(k, io);
    } else {
      QuietStep(k, io);
    }
  }

  // ---------- what the game thread does to a client ----------

  /** `try_emplace`: a fresh transaction, not yet scheduled. */
  function Created(k: Client, owner: nat, request: Packet): Client {
    k.(txs := k.txs + [NewTx(owner, request)])
  }

  function Scheduled(k: Client, i: nat): Client
    requires i < |k.txs|
  {
    k.(txs := k.txs[i := k.txs[i].(state := SCHEDULED)])
  }

  function QueueLocked(k: Client): Client {
    k.(lock := GameThread)
  }

  function QueuePushed(k: Client, i: nat): Client {
    k.(queue := k.queue + [i], pushed := k.pushed + [i], lock := Nobody)
  }

  function Acquired(k: Client, i: nat): Client
    requires i < |k.txs| && k.txs[i].signal > 0
  {
    var t := k.txs[i];
    k.(txs := k.txs[i := t.(signal := t.signal - 1, acquired := t.acquired + 1)])
  }

  /** The first thing the destructor of a client does: the queue and its mutex were declared after the thread. */
  function QueueDestroyed(k: Client): Client {
    k.(queueGone := true)
  }

  /** Then the thread is asked to stop. */
  function Evicted(k: Client): Client {
    k.(stop := true, evicted := true)
  }

  // ---------- the invariant ----------

  /** Untouched by the worker. */
  predicate Pristine(t: Tx) {
    && t.responseSize == ResponseSize(t.request) && t.delivered == [] && t.outcome.Pending?
    && t.signal == t.released == t.acquired == 0
    && (t.state.IDLE? || t.state.SCHEDULED?)
  }

  /** The final state, and why. */
  predicate Verdict(t: Tx) {
    match t.outcome
    case Pending => false
    case Sent => t.state.DONE? && t.responseSize == ResponseSize(t.request) == 0
    case Accepted =>
      && t.state.DONE? && t.responseSize == ResponseSize(t.request) > 0
      && Accepts(ResponseType(t.request), t.delivered)
    case WriteFailed => t.state.TIMEOUT? && t.responseSize == ResponseSize(t.request)
    case ReadFailed => t.state.TIMEOUT? && t.responseSize == ResponseSize(t.request) > 0
    case Invalid =>
      && t.state.TIMEOUT? && t.responseSize == 0 < ResponseSize(t.request)
      && !Accepts(ResponseType(t.request), t.delivered)
  }

  /** Finished: the verdict is in and the signal was released once; it is there or was taken once. */
  predicate Final(t: Tx) {
    Verdict(t) && t.released == 1 == t.signal + t.acquired
  }

  predicate Fatal(t: Tx) {
    t.outcome.WriteFailed? || t.outcome.Invalid?
  }

  /** The transaction the worker is serving. */
  predicate InService(pc: Pc, t: Tx)
    requires pc.Busy()
  {
    && t.signal == t.released == t.acquired == 0
    && match pc
       case Popped(_) => Pristine(t) && t.state.SCHEDULED?
       case Writing(_) => Pristine(t) && t.state.SCHEDULED?
       case Reading(_) => t.state.WAITING? && t.outcome.Pending? && t.responseSize == ResponseSize(t.request) > 0
       case Validating(_) => t.state.WAITING? && t.outcome.Pending? && t.responseSize == ResponseSize(t.request) > 0
       case Releasing(_, next) =>
         && Verdict(t)
         && (next == if t.outcome.WriteFailed? then ToStop else if t.outcome.Sent? then ToLoop else ToSizeCheck)
       case _ => true
  }

  /** How many of the pushed transactions are finished: all that were popped, but the one in service. */
  function FinishedCount(k: Client): int {
    if k.pc.Busy() then k.popped - 1 else k.popped
  }

  function AttemptedCount(k: Client): int {
    if k.pc.Popped? || k.pc.Writing? then k.popped - 1 else k.popped
  }

  predicate OrderInv(k: Client) {
    && Ascending(k.pushed)
    && (forall n :: 0 <= n < |k.pushed| ==> k.pushed[n] < |k.txs|)
    && k.popped <= |k.pushed| && k.queue == k.pushed[k.popped..]
    && (k.pc.Touches() ==> k.popped > 0 && k.pc.tx == k.pushed[k.popped - 1])
    && k.attempted == k.pushed[..AttemptedCount(k)]
  }

  predicate Queued(t: Tx) {
    Pristine(t) && t.state.SCHEDULED?
  }

  predicate TableInv(k: Client)
    requires OrderInv(k)
  {
    && (forall n :: 0 <= n < FinishedCount(k) ==> Final(k.txs[k.pushed[n]]))
    && (k.pc.Busy() ==> InService(k.pc, k.txs[k.pc.tx]))
    && (forall n :: k.popped <= n < |k.pushed| ==> Queued(k.txs[k.pushed[n]]))
    && (forall i :: 0 <= i < |k.txs| ==> i in k.pushed || Pristine(k.txs[i]))
  }

  /** The last transaction that was attempted ended the connection. */
  predicate Broken(k: Client)
    requires OrderInv(k)
  {
    AttemptedCount(k) > 0 && Fatal(k.txs[k.pushed[AttemptedCount(k) - 1]])
  }

  predicate AwaitedResponse(t: Tx) {
    t.outcome.Accepted? || t.outcome.ReadFailed? || t.outcome.Invalid?
  }

  /** The worker's control: where it can be, given whether its last attempt ended the connection. */
  predicate Control(k: Client, broken: bool) {
    && (broken ==>
          k.pc.Releasing? || k.pc.SizeCheck? || k.pc.Stopping? || (k.stop && (k.pc.AtLoop? || k.pc.Closing? || k.pc.Exited?)))
    && (k.stop ==> k.evicted || broken)
    && (k.pc.Stopping? ==> broken)
    && (k.pc.Closing? || k.pc.Exited? ==> k.stop)
    && (k.active <==> !k.pc.Exited?)
    && (k.lock.Worker? <==> k.pc.Holding?)
  }

  predicate StopInv(k: Client)
    requires OrderInv(k)
  {
    && (forall n :: 0 <= n < AttemptedCount(k) - 1 ==> !Fatal(k.txs[k.pushed[n]]))
    && (k.pc.SizeCheck? ==> AwaitedResponse(k.txs[k.pc.tx]))
    && Control(k, Broken(k))
  }

  /** The response stored for this client under an object is that of its first accepted transaction. */
  ghost predicate StoreInv(k: Client)
    requires OrderInv(k)
  {
    && (forall n :: 0 <= n < k.popped && k.txs[k.pushed[n]].outcome.Accepted? ==> k.txs[k.pushed[n]].owner in k.responses)
    && (forall o :: o in k.responses ==> exists n :: 0 <= n < k.popped && StoredFrom(k, o, n))
  }

  predicate StoredFrom(k: Client, o: nat, n: int)
    requires OrderInv(k) && 0 <= n < k.popped
  {
    && o in k.responses
    && var t := k.txs[k.pushed[n]];
    && t.outcome.Accepted? && t.owner == o
    && FirstAccepted(ResponseType(t.request), t.delivered) == Some(k.responses[o])
    && forall m :: 0 <= m < n && k.txs[k.pushed[m]].outcome.Accepted? ==> k.txs[k.pushed[m]].owner != o
  }

  ghost predicate ClientInv(k: Client) {
    OrderInv(k) && TableInv(k) && StopInv(k) && StoreInv(k)
  }

  lemma NewClientInv()
    ensures ClientInv(NewClient())
  {
  }

  lemma InvBounded(k: Client)
    requires OrderInv(k)
    ensures Bounded(k)
  {
  }

  // ---------- every step of the worker keeps it ----------

  /** Nothing but the program counter, the flags and the mutex changes. */
  predicate SameRecords(k: Client, n: Client) {
    && n.txs == k.txs && n.pushed == k.pushed && n.popped == k.popped && n.queue == k.queue
    && n.attempted == k.attempted && n.responses == k.responses
  }

  lemma QuietInv(k: Client, n: Client)
    requires ClientInv(k) && SameRecords(k, n)
    requires AttemptedCount(n) == AttemptedCount(k) && FinishedCount(n) == FinishedCount(k)
    requires n.pc.Touches() ==> k.pc.Touches() && n.pc.tx == k.pc.tx
    requires n.pc.Busy() ==> InService(n.pc, k.txs[n.pc.tx])
    requires n.pc.SizeCheck? ==> AwaitedResponse(k.txs[n.pc.tx])
    requires Control(n, Broken(k))
    ensures ClientInv(n)
  {
    StopKept(k, n);
    StoreKept(k, n);
  }

  predicate SameAnswer(t: Tx, u: Tx) {
    u.owner == t.owner && u.request == t.request && u.outcome == t.outcome && u.delivered == t.delivered
  }

  /** The store is right as long as the transactions popped so far keep their answers, and no newer one has any. */
  lemma StoreKept(k: Client, n: Client)
    requires OrderInv(k) && OrderInv(n) && StoreInv(k) && n.responses == k.responses && k.popped <= n.popped
    requires forall m :: 0 <= m < k.popped ==> SameAnswer(k.txs[k.pushed[m]], n.txs[n.pushed[m]])
    requires forall m :: k.popped <= m < n.popped ==> !n.txs[n.pushed[m]].outcome.Accepted?
    ensures StoreInv(n)
  {
    forall o | o in n.responses ensures exists m :: 0 <= m < n.popped && StoredFrom(n, o, m) {
      var m :| 0 <= m < k.popped && StoredFrom(k, o, m);
      StoredKept(k, n, o, m);
    }
  }

  lemma StoredKept(k: Client, n: Client, o: nat, m: nat)
    requires OrderInv(k) && OrderInv(n) && n.responses == k.responses && m < k.popped <= n.popped
    requires forall l :: 0 <= l < k.popped ==> SameAnswer(k.txs[k.pushed[l]], n.txs[n.pushed[l]])
    requires StoredFrom(k, o, m)
    ensures StoredFrom(n, o, m)
  {
    assert SameAnswer(k.txs[k.pushed[m]], n.txs[n.pushed[m]]);
  }

  lemma StopKept(k: Client, n: Client)
    requires OrderInv(k) && OrderInv(n) && StopInv(k) && AttemptedCount(n) == AttemptedCount(k)
    requires forall m :: 0 <= m < AttemptedCount(k) ==> SameAnswer(k.txs[k.pushed[m]], n.txs[n.pushed[m]])
    requires n.pc.SizeCheck? ==> AwaitedResponse(n.txs[n.pc.tx])
    requires Control(n, Broken(k))
    ensures StopInv(n) && Broken(n) == Broken(k)
  {
    if AttemptedCount(k) > 0 {
      var last := AttemptedCount(k) - 1;
      assert SameAnswer(k.txs[k.pushed[last]], n.txs[n.pushed[last]]);
    }
  }

  /** The transaction in service, and nothing else among the records, becomes `t`. */
  predicate ServedAs(k: Client, n: Client, t: Tx)
    requires k.pc.Busy() && k.pc.tx < |k.txs|
  {
    && n.txs == k.txs[k.pc.tx := t] && n.pushed == k.pushed && n.popped == k.popped && n.queue == k.queue
    && var was := k.txs[k.pc.tx];
    && t.owner == was.owner && t.request == was.request
    && (was.outcome.Accepted? ==> t.outcome.Accepted? && t.delivered == was.delivered)
    && n.responses == if t.outcome.Accepted?
                      then Emplace(k.responses, t.owner, FirstAccepted(ResponseType(t.request), t.delivered))
                      else k.responses
  }

  lemma PutTable(k: Client, n: Client, t: Tx)
    requires OrderInv(k) && TableInv(k) && OrderInv(n) && k.pc.Busy() && ServedAs(k, n, t)
    requires if n.pc.Busy() then InService(n.pc, t) else Final(t)
    ensures TableInv(n)
  {
    forall m | 0 <= m < |k.pushed| && m != k.popped - 1 ensures n.txs[n.pushed[m]] == k.txs[k.pushed[m]] {
    }
  }

  /** A stored response stays, and stays that of the first accepted transaction. */
  lemma PutStored(k: Client, n: Client, t: Tx, o: nat, m: nat)
    requires OrderInv(k) && OrderInv(n) && k.pc.Busy() && ServedAs(k, n, t)
    requires m < k.popped && StoredFrom(k, o, m)
    ensures StoredFrom(n, o, m)
  {
    forall l | 0 <= l < k.popped - 1 ensures n.txs[n.pushed[l]] == k.txs[k.pushed[l]] {
    }
  }

  lemma PutNew(k: Client, n: Client, t: Tx, o: nat)
    requires OrderInv(k) && StoreInv(k) && OrderInv(n) && k.pc.Busy() && ServedAs(k, n, t)
    requires o in n.responses && o !in k.responses
    ensures StoredFrom(n, o, k.popped - 1)
  {
    forall l | 0 <= l < k.popped - 1 ensures n.txs[n.pushed[l]] == k.txs[k.pushed[l]] {
    }
  }

  lemma PutKeys(k: Client, n: Client, t: Tx)
    requires OrderInv(k) && StoreInv(k) && OrderInv(n) && k.pc.Busy() && ServedAs(k, n, t)
    requires t.outcome.Accepted? ==> Accepts(ResponseType(t.request), t.delivered)
    ensures forall l :: 0 <= l < n.popped && n.txs[n.pushed[l]].outcome.Accepted? ==> n.txs[n.pushed[l]].owner in n.responses
  {
    forall l | 0 <= l < k.popped - 1 ensures n.txs[n.pushed[l]] == k.txs[k.pushed[l]] {
    }
  }

  lemma PutStore(k: Client, n: Client, t: Tx)
    requires OrderInv(k) && StoreInv(k) && OrderInv(n) && k.pc.Busy() && ServedAs(k, n, t)
    requires t.outcome.Accepted? ==> Accepts(ResponseType(t.request), t.delivered)
    ensures StoreInv(n)
  {
    PutKeys(k, n, t);
    forall o | o in n.responses ensures exists m :: 0 <= m < n.popped && StoredFrom(n, o, m) {
      if o in k.responses {
        var m :| 0 <= m < k.popped && StoredFrom(k, o, m);
        PutStored(k, n, t, o, m);
      } else {
        PutNew(k, n, t, o);
      }
    }
  }

  lemma PutInv(k: Client, n: Client, t: Tx)
    requires ClientInv(k) && k.pc.Busy() && !k.pc.Popped? && ServedAs(k, n, t)
    requires !n.pc.Popped? && !n.pc.Writing? && n.attempted == k.pushed[..k.popped]
    requires n.pc.Touches() ==> n.pc.tx == k.pc.tx
    requires if n.pc.Busy() then InService(n.pc, t) else Final(t)
    requires t.outcome.Accepted? ==> Accepts(ResponseType(t.request), t.delivered)
    requires n.pc.SizeCheck? ==> AwaitedResponse(t)
    requires Control(n, Fatal(t))
    ensures ClientInv(n)
  {
    PutTable(k, n, t);
    PutStore(k, n, t);
    PutStop(k, n, t);
  }

  lemma PutStop(k: Client, n: Client, t: Tx)
    requires OrderInv(k) && StopInv(k) && OrderInv(n) && k.pc.Busy() && !k.pc.Popped? && ServedAs(k, n, t)
    requires !n.pc.Popped? && !n.pc.Writing?
    requires n.pc.Touches() ==> n.pc.tx == k.pc.tx
    requires n.pc.SizeCheck? ==> AwaitedResponse(t)
    requires Control(n, Fatal(t))
    ensures StopInv(n)
  {
    assert k.pushed[k.popped - 1] == k.pc.tx;
    assert Broken(n) == Fatal(t);
    forall m | 0 <= m < k.popped - 1 ensures !Fatal(n.txs[n.pushed[m]]) {
      assert n.txs[n.pushed[m]] == k.txs[k.pushed[m]];
    }
  }

  // One lemma per place in the worker's loop.

  lemma AtLoopInv(k: Client, io: Io)
    requires ClientInv(k) && Bounded(k) && k.pc.AtLoop?
    ensures ClientInv(WorkerStep(k, io))
  {
    QuietInv(k, WorkerStep(k, io));
  }

  lemma LockingInv(k: Client, io: Io)
    requires ClientInv(k) && Bounded(k) && k.pc.Locking? && Enabled(k)
    ensures ClientInv(WorkerStep(k, io))
  {
    QuietInv(k, WorkerStep(k, io));
  }

  lemma PopInv(k: Client, io: Io)
    requires ClientInv(k) && Bounded(k) && k.pc.Holding? && k.queue != []
    ensures ClientInv(WorkerStep(k, io))
  {
    var n := WorkerStep(k, io);
    assert k.pushed[k.popped..][1..] == k.pushed[k.popped + 1..];
    assert TableInv(n);
    StopKept(k, n);
    StoreKept(k, n);
  }

  lemma HoldingInv(k: Client, io: Io)
    requires ClientInv(k) && Bounded(k) && k.pc.Holding?
    ensures ClientInv(WorkerStep(k, io))
  {
    if k.queue == [] {
      QuietInv(k, WorkerStep(k, io));
    } else {
      PopInv(k, io);
    }
  }

  lemma PoppedInv(k: Client, io: Io)
    requires ClientInv(k) && Bounded(k) && k.pc.Popped?
    ensures ClientInv(WorkerStep(k, io))
  {
    QuietInv(k, WorkerStep(k, io));
  }

  lemma WritingInv(k: Client, io: Io)
    requires ClientInv(k) && Bounded(k) && k.pc.Writing?
    ensures ClientInv(WorkerStep(k, io))
  {
    assert k.pushed[..k.popped] == k.pushed[..k.popped - 1] + [k.pc.tx];
    PutInv(k, WorkerStep(k, io), Written(k.txs[k.pc.tx], io.ok));
  }

  lemma ReadingInv(k: Client, io: Io)
    requires ClientInv(k) && Bounded(k) && k.pc.Reading?
    ensures ClientInv(WorkerStep(k, io))
  {
    if io.ok {
      QuietInv(k, WorkerStep(k, io));
    } else {
      PutInv(k, WorkerStep(k, io), k.txs[k.pc.tx].(state := TIMEOUT, outcome := ReadFailed));
    }
  }

  lemma ValidatingInv(k: Client, io: Io)
    requires ClientInv(k) && Bounded(k) && k.pc.Validating?
    ensures ClientInv(WorkerStep(k, io))
  {
    PutInv(k, WorkerStep(k, io), Validated(k.txs[k.pc.tx], io.delivered));
  }

  lemma ReleasingInv(k: Client, io: Io)
    requires ClientInv(k) && Bounded(k) && k.pc.Releasing?
    ensures ClientInv(WorkerStep(k, io))
  {
    var t := k.txs[k.pc.tx];
    ReleasingFatal(k);
    PutInv(k, WorkerStep(k, io), t.(signal := t.signal + 1, released := t.released + 1));
  }

  lemma ReleasingFatal(k: Client)
    requires OrderInv(k) && k.pc.Releasing?
    ensures Broken(k) == Fatal(k.txs[k.pc.tx])
  {
    assert k.pushed[k.popped - 1] == k.pc.tx;
  }

  lemma SizeCheckInv(k: Client, io: Io)
    requires ClientInv(k) && Bounded(k) && k.pc.SizeCheck?
    ensures ClientInv(WorkerStep(k, io))
  {
    assert k.pushed[k.popped - 1] == k.pc.tx;
    assert Broken(k) == (k.txs[k.pc.tx].responseSize == 0);
    QuietInv(k, WorkerStep(k, io));
  }

  lemma EndingInv(k: Client, io: Io)
    requires ClientInv(k) && Bounded(k) && (k.pc.Stopping? || k.pc.Closing?)
    ensures ClientInv(WorkerStep(k, io))
  {
    QuietInv(k, WorkerStep(k, io));
  }

  /** Whatever the socket does, a step of the worker keeps the invariant. */
  lemma StepInv(k: Client, io: Io)
    requires ClientInv(k) && Bounded(k) && Enabled(k)
    ensures ClientInv(WorkerStep(k, io))
  {
    match k.pc
    case AtLoop => AtLoopInv(k, io);
    case Locking => LockingInv(k, io);
    case Holding => HoldingInv(k, io);
    case Popped(_) => PoppedInv(k, io);
    case Writing(_) => WritingInv(k, io);
    case Reading(_) => ReadingInv(k, io);
    case Validating(_) => ValidatingInv(k, io);
    case Releasing(_, _) => ReleasingInv(k, io);
    case SizeCheck(_) => SizeCheckInv(k, io);
    case Stopping => EndingInv(k, io);
    case Closing => EndingInv(k, io);
  }

  // ---------- every operation of the game thread keeps it ----------

  /** `u` is `t` as the worker sees it. */
  predicate Similar(t: Tx, u: Tx) {
    && SameAnswer(t, u)
    && (Pristine(t) ==> Pristine(u))
    && (t.released == 0 && !t.state.IDLE? ==> u == t.(live := u.live))
    && (Final(t) ==> Final(u))
  }

  predicate SameButTxs(k: Client, n: Client) {
    && n.pc == k.pc && n.active == k.active && n.stop == k.stop && n.evicted == k.evicted && n.lock == k.lock
    && n.queue == k.queue && n.pushed == k.pushed && n.popped == k.popped && n.attempted == k.attempted
    && n.responses == k.responses && |n.txs| == |k.txs|
  }

  lemma SimilarTable(k: Client, n: Client)
    requires OrderInv(k) && OrderInv(n) && TableInv(k) && SameButTxs(k, n)
    requires forall i :: 0 <= i < |k.txs| ==> Similar(k.txs[i], n.txs[i])
    ensures TableInv(n)
  {
    assert k.pc.Busy() ==> Similar(k.txs[k.pc.tx], n.txs[k.pc.tx]);
    assert forall m :: 0 <= m < |k.pushed| ==> Similar(k.txs[k.pushed[m]], n.txs[k.pushed[m]]);
  }

  lemma SimilarInv(k: Client, n: Client)
    requires ClientInv(k) && SameButTxs(k, n)
    requires forall i :: 0 <= i < |k.txs| ==> Similar(k.txs[i], n.txs[i])
    ensures ClientInv(n)
  {
    assert OrderInv(n);
    SimilarTable(k, n);
    SimilarStop(k, n);
  }

  lemma SimilarStop(k: Client, n: Client)
    requires OrderInv(k) && OrderInv(n) && StopInv(k) && StoreInv(k) && SameButTxs(k, n)
    requires forall i :: 0 <= i < |k.txs| ==> Similar(k.txs[i], n.txs[i])
    ensures StopInv(n) && StoreInv(n)
  {
    forall m | 0 <= m < |k.pushed| ensures SameAnswer(k.txs[k.pushed[m]], n.txs[n.pushed[m]]) {
      assert Similar(k.txs[k.pushed[m]], n.txs[k.pushed[m]]);
    }
    assert k.pc.SizeCheck? ==> Similar(k.txs[k.pc.tx], n.txs[k.pc.tx]);
    StopKept(k, n);
    StoreKept(k, n);
  }

  lemma CreatedTable(k: Client, n: Client, t: Tx)
    requires OrderInv(k) && OrderInv(n) && TableInv(k) && Pristine(t)
    requires n.pc == k.pc && n.pushed == k.pushed && n.popped == k.popped && n.txs == k.txs + [t]
    ensures TableInv(n)
  {
  }

  lemma CreatedOrder(k: Client, owner: nat, request: Packet)
    requires OrderInv(k)
    ensures OrderInv(Created(k, owner, request))
  {
  }

  lemma CreatedInv(k: Client, owner: nat, request: Packet)
    requires ClientInv(k)
    ensures ClientInv(Created(k, owner, request))
  {
    var n := Created(k, owner, request);
    CreatedOrder(k, owner, request);
    CreatedTable(k, n, NewTx(owner, request));
    StopKept(k, n);
    StoreKept(k, n);
  }

  lemma ScheduledInv(k: Client, i: nat)
    requires ClientInv(k) && i < |k.txs| && i !in k.pushed && k.txs[i].state.IDLE?
    ensures ClientInv(Scheduled(k, i))
  {
    SimilarInv(k, Scheduled(k, i));
  }

  lemma QueueLockedInv(k: Client)
    requires ClientInv(k) && k.lock.Nobody?
    ensures ClientInv(QueueLocked(k))
  {
    QuietInv(k, QueueLocked(k));
  }

  lemma QueuePushedInv(k: Client, i: nat)
    requires ClientInv(k) && k.lock.GameThread? && |k.txs| == i + 1
    requires i !in k.pushed && k.txs[i].state.SCHEDULED?
    ensures ClientInv(QueuePushed(k, i))
  {
    PushedOrder(k, i);
    PushedTable(k, QueuePushed(k, i), i);
    PushedStop(k, QueuePushed(k, i), i);
  }

  lemma PushedStop(k: Client, n: Client, i: nat)
    requires OrderInv(k) && OrderInv(n) && StopInv(k) && StoreInv(k) && k.lock.GameThread? && n.lock.Nobody?
    requires n.pushed == k.pushed + [i] && n == k.(pushed := n.pushed, queue := n.queue, lock := Nobody)
    ensures StopInv(n) && StoreInv(n)
  {
    StopKept(k, n);
    StoreKept(k, n);
  }

  lemma PushedTable(k: Client, n: Client, i: nat)
    requires OrderInv(k) && OrderInv(n) && TableInv(k) && i < |k.txs| && Queued(k.txs[i])
    requires n.txs == k.txs && n.pc == k.pc && n.pushed == k.pushed + [i] && n.popped == k.popped
    ensures TableInv(n)
  {
  }

  lemma PushedOrder(k: Client, i: nat)
    requires OrderInv(k) && |k.txs| == i + 1 && i !in k.pushed
    ensures OrderInv(QueuePushed(k, i))
  {
    var n := QueuePushed(k, i);
    forall m | 0 <= m < |k.pushed| ensures k.pushed[m] < i {
      assert k.pushed[m] in k.pushed;
    }
    assert n.pushed[n.popped..] == k.pushed[k.popped..] + [i];
    assert n.pushed[..AttemptedCount(n)] == k.pushed[..AttemptedCount(k)];
  }

  /** A released signal is only ever found on a finished transaction. */
  lemma SignalledIsFinal(k: Client, i: nat)
    requires ClientInv(k) && i < |k.txs| && (k.txs[i].signal > 0 || k.txs[i].released > 0)
    ensures Final(k.txs[i])
  {
    var n :| 0 <= n < |k.pushed| && k.pushed[n] == i;
  }

  lemma AcquiredInv(k: Client, i: nat)
    requires ClientInv(k) && i < |k.txs| && k.txs[i].signal > 0
    ensures ClientInv(Acquired(k, i))
  {
    SignalledIsFinal(k, i);
    SimilarInv(k, Acquired(k, i));
  }

  lemma QueueDestroyedInv(k: Client)
    requires ClientInv(k)
    ensures ClientInv(QueueDestroyed(k))
  {
    QuietInv(k, QueueDestroyed(k));
  }

  lemma EvictedInv(k: Client)
    requires ClientInv(k)
    ensures ClientInv(Evicted(k))
  {
    QuietInv(k, Evicted(k));
  }

  // ---------- what the invariant means ----------

  /** Where a transaction can be. */
  datatype Place = NeverQueued | InQueue | InHand | Finished

  predicate IsAt(k: Client, i: nat, p: Place)
    requires i < |k.txs|
  {
    match p
    case NeverQueued => i !in k.pushed
    case InQueue => i in k.queue
    case InHand => k.pc.Busy() && k.pc.tx == i
    case Finished => Final(k.txs[i])
  }

  lemma PushedPlace(k: Client, n: nat)
    requires OrderInv(k) && TableInv(k) && n < |k.pushed|
    ensures IsAt(k, k.pushed[n], InQueue) <==> n >= k.popped
    ensures IsAt(k, k.pushed[n], InHand) <==> k.pc.Busy() && n == k.popped - 1
    ensures IsAt(k, k.pushed[n], Finished) <==> n < FinishedCount(k)
  {
    if n >= k.popped {
      assert k.queue[n - k.popped] == k.pushed[n];
    }
  }

  /**
   Every transaction is in exactly one place: never queued and untouched, queued and
   SCHEDULED, in the hands of the worker, or finished with its signal released.
   */
  lemma OnePlace(k: Client, i: nat)
    requires ClientInv(k) && i < |k.txs|
    ensures exists p :: IsAt(k, i, p)
    ensures forall p, q :: IsAt(k, i, p) && IsAt(k, i, q) ==> p == q
    ensures IsAt(k, i, InQueue) ==> Queued(k.txs[i])
    ensures IsAt(k, i, NeverQueued) ==> Pristine(k.txs[i])
  {
    if i in k.pushed {
      var n :| 0 <= n < |k.pushed| && k.pushed[n] == i;
      PushedPlace(k, n);
      assert IsAt(k, i, if n >= k.popped then InQueue else if n < FinishedCount(k) then Finished else InHand);
    } else {
      assert IsAt(k, i, NeverQueued);
    }
  }

  /** The signal is released at most once, after the verdict, and acquired at most once. */
  lemma SignalDiscipline(k: Client, i: nat)
    requires ClientInv(k) && i < |k.txs|
    ensures k.txs[i].signal + k.txs[i].acquired == k.txs[i].released <= 1
    ensures k.txs[i].released == 1 ==> Verdict(k.txs[i])
  {
    if i in k.pushed {
      var n :| 0 <= n < |k.pushed| && k.pushed[n] == i;
    }
  }

  /** A step of the worker writes to the transaction in service and to no other. */
  lemma OthersUntouched(k: Client, io: Io, i: nat)
    requires Bounded(k) && Enabled(k) && i < |k.txs| && !(k.pc.Busy() && k.pc.tx == i)
    ensures i < |WorkerStep(k, io).txs| && WorkerStep(k, io).txs[i] == k.txs[i]
  {
    StepRecords(k, io);
  }

  /** Two states of a transaction with the same verdict. */
  predicate SameVerdict(t: Tx, u: Tx) {
    SameAnswer(t, u) && u.state == t.state && u.responseSize == t.responseSize
  }

  lemma ReleaseKeepsVerdict(k: Client, io: Io)
    requires Bounded(k) && k.pc.Releasing?
    ensures k.pc.tx < |WorkerStep(k, io).txs| && SameVerdict(k.txs[k.pc.tx], WorkerStep(k, io).txs[k.pc.tx])
  {
  }

  /** A verdict never changes, whatever the worker does next. */
  lemma VerdictStable(k: Client, io: Io, i: nat)
    requires OrderInv(k) && TableInv(k) && Bounded(k) && Enabled(k) && i < |k.txs| && Verdict(k.txs[i])
    ensures i < |WorkerStep(k, io).txs| && SameVerdict(k.txs[i], WorkerStep(k, io).txs[i])
  {
    if k.pc.Busy() && k.pc.tx == i {
      ReleaseKeepsVerdict(k, io);
    } else {
      OthersUntouched(k, io, i);
    }
  }

  /** Once the signal is released the worker writes nothing to the transaction any more. */
  lemma FinalUntouched(k: Client, io: Io, i: nat)
    requires OrderInv(k) && TableInv(k) && Bounded(k) && Enabled(k) && i < |k.txs| && Final(k.txs[i])
    ensures i < |WorkerStep(k, io).txs| && WorkerStep(k, io).txs[i] == k.txs[i]
  {
    OthersUntouched(k, io, i);
  }

  /**
   A write failure or an invalid response is the last thing ever attempted; nothing else stops a
   worker that was not evicted.
   */
  lemma OnlyFailureStops(k: Client)
    requires ClientInv(k)
    ensures forall n :: 0 <= n < |k.attempted| && Fatal(k.txs[k.attempted[n]]) ==> n == |k.attempted| - 1
    ensures k.stop && !k.evicted ==> k.attempted != [] && Fatal(k.txs[k.attempted[|k.attempted| - 1]])
    ensures !k.active ==> k.stop
  {
  }

  /** How far a stopping worker is from its return, in its own steps. */
  function StepsLeft(pc: Pc): nat {
    match pc
    case Locking => 11
    case Holding => 10
    case Popped(_) => 9
    case Writing(_) => 8
    case Reading(_) => 7
    case Validating(_) => 6
    case Releasing(_, _) => 5
    case SizeCheck(_) => 4
    case Stopping => 3
    case AtLoop => 2
    case Closing => 1
    case Exited => 0
  }

  lemma ServingCloser(k: Client, io: Io)
    requires Bounded(k) && Serves(k)
    ensures StepsLeft(WorkerStep(k, io).pc) < StepsLeft(k.pc)
  {
    match k.pc
    case Writing(i) => assert WorkerStep(k, io).pc == AfterWrite(k.txs[i], i, io.ok);
    case Reading(i) => assert WorkerStep(k, io).pc == if io.ok then Validating(i) else Releasing(i, ToSizeCheck);
    case Validating(_) =>
    case Releasing(_, _) =>
  }

  /** Every step but that into the loop brings the worker closer to its return. */
  lemma StepCloser(k: Client, io: Io)
    requires Bounded(k) && Enabled(k) && (k.pc.AtLoop? ==> k.stop)
    ensures StepsLeft(WorkerStep(k, io).pc) < StepsLeft(k.pc)
  {
    if Serves(k) {
      ServingCloser(k, io);
    } else {
      match k.pc
      case AtLoop =>
      case Locking =>
      case Holding =>
      case Popped(_) =>
      case SizeCheck(_) =>
      case Stopping =>
      case Closing =>
    }
  }

  /** Once asked to stop, or once an attempt was fatal, every step of the worker brings it closer to its return. */
  lemma StoppingTerminates(k: Client, io: Io)
    requires Bounded(k) && Enabled(k) && OrderInv(k) && StopInv(k) && (k.stop || Broken(k))
    ensures StepsLeft(WorkerStep(k, io).pc) < StepsLeft(k.pc)
  {
    StepCloser(k, io);
  }

  /** After a fatal attempt nothing is written any more. */
  lemma BrokenStays(k: Client, io: Io)
    requires ClientInv(k) && Bounded(k) && Enabled(k) && Broken(k)
    ensures WorkerStep(k, io).attempted == k.attempted && ClientInv(WorkerStep(k, io)) && Broken(WorkerStep(k, io))
  {
    StepInv(k, io);
    var i := k.pushed[k.popped - 1];
    assert Verdict(k.txs[i]);
    VerdictStable(k, io, i);
    BrokenHistory(k, io);
  }

  lemma BrokenHistory(k: Client, io: Io)
    requires OrderInv(k) && Control(k, true) && Bounded(k) && Enabled(k)
    ensures var n := WorkerStep(k, io);
      && n.attempted == k.attempted && n.pushed == k.pushed && n.popped == k.popped
      && AttemptedCount(n) == AttemptedCount(k) == k.popped
  {
  }

  lemma DoneIsVerdict(k: Client, i: nat)
    requires OrderInv(k) && TableInv(k) && i < |k.txs| && k.txs[i].state.DONE?
    ensures Verdict(k.txs[i])
    ensures exists n :: 0 <= n < k.popped && k.pushed[n] == i
  {
    assert !Pristine(k.txs[i]);
    var n :| 0 <= n < |k.pushed| && k.pushed[n] == i;
    assert n < k.popped;
  }

  /**
   A finished transaction that awaited a response and got it has one stored, that of the first
   accepted under its object.
   */
  lemma DoneHasResponse(k: Client, i: nat)
    requires ClientInv(k) && i < |k.txs| && k.txs[i].state.DONE? && ResponseSize(k.txs[i].request) > 0
    ensures Accepts(ResponseType(k.txs[i].request), k.txs[i].delivered)
    ensures k.txs[i].owner in k.responses
    ensures exists n :: 0 <= n < k.popped && StoredFrom(k, k.txs[i].owner, n)
  {
    DoneIsVerdict(k, i);
  }

  /** A stored response is never overwritten. */
  lemma ResponsesKept(k: Client, io: Io, o: nat)
    requires Bounded(k) && Enabled(k) && o in k.responses
    ensures o in WorkerStep(k, io).responses && WorkerStep(k, io).responses[o] == k.responses[o]
  {
    if Serves(k) {
      match k.pc
      case Writing(_) =>
      case Reading(_) =>
      case Validating(_) =>
      case Releasing(_, _) =>
    } else {
      QuietStep(k, io);
    }
  }
}
