/** What holds in every run of the server, over all interleavings. */
module Runs {
  import opened Basics
  import opened Packets
  import opened Responses
  import opened Connection
  import opened Server

  predicate Legal(s: Server, steps: seq<Step>)
    decreases steps
  {
    steps == [] || (Sound(s) && Possible(s, steps[0]) && Legal(Next(s, steps[0]), steps[1..]))
  }

  function After(s: Server, steps: seq<Step>): (n: Server)
    requires Legal(s, steps)
    decreases steps
  {
    if steps == [] then s else After(Next(s, steps[0]), steps[1..])
  }

  /** No wait gives up on a transaction. */
  predicate Patient(step: Step) {
    step.GameMoves? ==> !step.expire
  }

  predicate AllPatient(steps: seq<Step>) {
    forall n :: 0 <= n < |steps| ==> Patient(steps[n])
  }

  lemma {:induction false} RunInv(s: Server, steps: seq<Step>)
    requires Inv(s) && Legal(s, steps)
    ensures Inv(After(s, steps))
    decreases steps
  {
    if steps != [] {
      NextInv(s, steps[0]);
      RunInv(Next(s, steps[0]), steps[1..]);
    }
  }

  /** Every state a server can get to satisfies the invariant, so no step is ever barred for want of what it refers to. */
  lemma ReachableInv(limit: nat, steps: seq<Step>)
    requires Legal(Start(limit), steps)
    ensures Inv(After(Start(limit), steps)) && Sound(After(Start(limit), steps))
  {
    StartInv(limit);
    RunInv(Start(limit), steps);
    InvSound(After(Start(limit), steps));
  }

  // ---------- the accept limit and identities ----------

  /** The client map never outgrows its limit, although its size is read before the lock is taken. */
  lemma AcceptLimit(limit: nat, steps: seq<Step>)
    requires Legal(Start(limit), steps)
    ensures |After(Start(limit), steps).members| <= limit
  {
    ReachableInv(limit, steps);
    LimitKept(Start(limit), steps);
  }

  lemma {:induction false} LimitKept(s: Server, steps: seq<Step>)
    requires Legal(s, steps)
    ensures After(s, steps).limit == s.limit
    decreases steps
  {
    if steps != [] {
      LimitKept(Next(s, steps[0]), steps[1..]);
    }
  }

  /** One step: only the next fresh number joins, and the counter never goes back. */
  lemma FreshIds(s: Server, step: Step)
    requires Sound(s) && Possible(s, step)
    ensures s.nextId <= Next(s, step).nextId <= s.nextId + 1
    ensures forall id :: id in Next(s, step).members && id !in s.members ==> s.nextId <= id < Next(s, step).nextId
  {
  }

  /** An identifier that has been given out and is not in the map any more never comes back. */
  lemma {:induction false} NeverReused(s: Server, steps: seq<Step>, id: nat)
    requires Legal(s, steps) && id < s.nextId && id !in s.members
    ensures id !in After(s, steps).members
    decreases steps
  {
    if steps != [] {
      FreshIds(s, steps[0]);
      NeverReused(Next(s, steps[0]), steps[1..], id);
    }
  }

  // ---------- transactions ----------

  lemma ReachableClient(limit: nat, steps: seq<Step>, id: nat)
    requires Legal(Start(limit), steps) && id in After(Start(limit), steps).clients
    ensures ClientInv(After(Start(limit), steps).clients[id])
  {
    ReachableInv(limit, steps);
  }

  /**
   In every state of every run, each transaction of each client is in exactly one place, was
   pushed at most once, and has its signal in order.
   */
  lemma EveryTransaction(limit: nat, steps: seq<Step>, id: nat, i: nat)
    requires Legal(Start(limit), steps) && id in After(Start(limit), steps).clients
    requires i < |After(Start(limit), steps).clients[id].txs|
    ensures var k := After(Start(limit), steps).clients[id];
      && (exists p :: IsAt(k, i, p))
      && (forall p, q :: IsAt(k, i, p) && IsAt(k, i, q) ==> p == q)
      && (IsAt(k, i, InQueue) ==> Queued(k.txs[i]))
      && (forall a, b :: 0 <= a < |k.pushed| && 0 <= b < |k.pushed| && k.pushed[a] == i && k.pushed[b] == i ==> a == b)
      && k.txs[i].signal + k.txs[i].acquired == k.txs[i].released <= 1
      && (k.txs[i].released == 1 ==> Verdict(k.txs[i]))
  {
    var k := After(Start(limit), steps).clients[id];
    ReachableClient(limit, steps, id);
    OnePlace(k, i);
    SignalDiscipline(k, i);
  }

  // ---------- waitForFinish ----------

  /** What a counted success means. */
  predicate Answered(k: Client, i: nat)
    requires i < |k.txs|
  {
    var t := k.txs[i];
    && t.state.DONE? && t.acquired == 1
    && (ResponseSize(t.request) == 0 || (Accepts(ResponseType(t.request), t.delivered) && t.owner in k.responses))
  }

  lemma SuccessIsAnswered(k: Client, i: nat)
    requires ClientInv(k) && i < |k.txs|
    ensures Successful(k.txs[i]) <==> Answered(k, i)
  {
    if Successful(k.txs[i]) && ResponseSize(k.txs[i].request) > 0 {
      DoneHasResponse(k, i);
    }
  }

  /** How many transactions of a batch were answered. */
  function AnsweredCount(clients: map<nat, Client>, batch: seq<Ref>): nat
    requires AllExist(clients, batch)
  {
    if batch == [] then 0
    else
      var r := batch[|batch| - 1];
      AnsweredCount(clients, batch[..|batch| - 1]) + if Answered(clients[r.client], r.tx) then 1 else 0
  }

  lemma {:induction false} CountsAgree(s: Server, batch: seq<Ref>)
    requires ClientsInv(s) && AllExist(s.clients, batch)
    ensures SuccessCount(s.clients, batch) == AnsweredCount(s.clients, batch)
    decreases batch
  {
    if batch != [] {
      var r := batch[|batch| - 1];
      SuccessIsAnswered(s.clients[r.client], r.tx);
      CountsAgree(s, batch[..|batch| - 1]);
    }
  }

  /**
   What `waitForFinish` returned is the number of clients of the batch whose signal was acquired
   and whose transaction was DONE; each of those either expected no response or has one that
   the validator accepted, and stored. Expired waits are allowed for.
   */
  lemma WaitIsExact(limit: nat, steps: seq<Step>)
    requires Legal(Start(limit), steps)
    requires var s := After(Start(limit), steps); s.game.Idle? && s.game.answer.Counted?
    ensures var s := After(Start(limit), steps);
      && AllExist(s.clients, s.game.answer.batch) && InOrder(s.game.answer.batch)
      && s.game.answer.count == AnsweredCount(s.clients, s.game.answer.batch)
  {
    ReachableInv(limit, steps);
    CountsAgree(After(Start(limit), steps), After(Start(limit), steps).game.answer.batch);
  }

  // ---------- deadlock freedom ----------

  datatype Thread = TheGame | TheAcceptor | TheWorker(id: nat)

  /** The thread that must move before this one can; none if it can move, has returned or has nothing to do. */
  function WaitsFor(s: Server, t: Thread): Option<Thread>
    requires Sound(s)
  {
    match t
    case TheGame =>
      if s.game.Calling? then
        (match s.lock case Free => None case ByGame => Some(TheGame) case ByAcceptor => Some(TheAcceptor))
      else if s.game.WantsQueue? then
        var id := s.game.Target().client;
        (match s.clients[id].lock case Nobody => None case Worker => Some(TheWorker(id)) case GameThread => Some(TheGame))
      else if s.game.Joining? && !s.clients[s.game.id].pc.Exited? then
        Some(TheWorker(s.game.id))
      else
        None
    case TheAcceptor =>
      if s.acceptor.WantsClients? then
        (match s.lock case Free => None case ByGame => Some(TheGame) case ByAcceptor => Some(TheAcceptor))
      else
        None
    case TheWorker(id) =>
      if id in s.clients && s.clients[id].pc.Locking? then
        (match s.clients[id].lock case Nobody => None case Worker => Some(TheWorker(id)) case GameThread => Some(TheGame))
      else
        None
  }

  predicate CanMove(s: Server, t: Thread)
    requires Sound(s)
  {
    match t
    case TheGame => GameCanMove(s, false) || GameCanMove(s, true)
    case TheAcceptor => Possible(s, AcceptorMoves(true, true))
    case TheWorker(id) => Possible(s, WorkerMoves(id, Io(true, [])))
  }

  lemma WorkerFree(s: Server, id: nat)
    requires Sound(s) && id in s.clients && !s.clients[id].pc.Locking? && !s.clients[id].pc.Exited?
    ensures CanMove(s, TheWorker(id))
  {
  }

  /** Whom a worker waits for can move: the game thread while it pushes onto the queue. */
  lemma WorkerChain(s: Server, id: nat)
    requires Inv(s) && Sound(s) && WaitsFor(s, TheWorker(id)).Some?
    ensures WaitsFor(s, TheWorker(id)) == Some(TheGame) && CanMove(s, TheGame)
  {
  }

  /** Whom the game thread waits for can move, or is the acceptor with the map in its hands. */
  lemma GameChain(s: Server)
    requires Inv(s) && Sound(s) && WaitsFor(s, TheGame).Some?
    ensures CanMove(s, WaitsFor(s, TheGame).value)
  {
    if s.game.WantsQueue? {
      WorkerFree(s, s.game.Target().client);
    }
  }

  lemma AcceptorChain(s: Server)
    requires Inv(s) && Sound(s) && WaitsFor(s, TheAcceptor).Some?
    ensures WaitsFor(s, TheAcceptor) == Some(TheGame)
    ensures WaitsFor(s, TheGame).None? ==> CanMove(s, TheGame)
  {
  }

  /**
   Waiting for a mutex or a join never goes round in a circle: after two hops at most it reaches a
   thread that can move.
   */
  lemma NoDeadlock(s: Server, t: Thread)
    requires Inv(s) && Sound(s) && WaitsFor(s, t).Some?
    ensures var u := WaitsFor(s, t).value; CanMove(s, u) || (WaitsFor(s, u).Some? && CanMove(s, WaitsFor(s, u).value))
  {
    match t
    case TheWorker(id) => WorkerChain(s, id);
    case TheGame => GameChain(s);
    case TheAcceptor =>
      AcceptorChain(s);
      if WaitsFor(s, TheGame).Some? {
        GameChain(s);
      }
  }

  /** So no run ever deadlocks. */
  lemma DeadlockFreedom(limit: nat, steps: seq<Step>, t: Thread)
    requires Legal(Start(limit), steps) && Sound(After(Start(limit), steps))
    requires WaitsFor(After(Start(limit), steps), t).Some?
    ensures var s := After(Start(limit), steps); var u := WaitsFor(s, t).value;
      CanMove(s, u) || (WaitsFor(s, u).Some? && CanMove(s, WaitsFor(s, u).value))
  {
    ReachableInv(limit, steps);
    NoDeadlock(After(Start(limit), steps), t);
  }

  /** A thread that waits for nobody can move, unless it has returned or is waiting to be called. */
  lemma WaitingForNobody(s: Server, t: Thread)
    requires Inv(s) && Sound(s) && WaitsFor(s, t).None?
    ensures match t
      case TheGame => CanMove(s, t) || s.game.Idle? || s.game.Thrown?
      case TheAcceptor => CanMove(s, t) || s.acceptor.AcceptFailed?
      case TheWorker(id) => CanMove(s, t) || id !in s.clients || s.clients[id].pc.Exited?
  {
  }

  /** The mutexes are only taken in one order, and a worker doing socket I/O or validating holds neither. */
  lemma LockOrder(s: Server, id: nat)
    requires Inv(s) && id in s.clients
    ensures s.clients[id].lock.GameThread? ==> s.lock.ByGame?
    ensures s.clients[id].pc.Touches() ==> !s.clients[id].lock.Worker?
  {
  }

  // ---------- order and stopping ----------

  /** In every run: a client's worker attempts what was scheduled for it in that order, and nothing after a fatal attempt. */
  lemma FifoAndStop(limit: nat, steps: seq<Step>, id: nat)
    requires Legal(Start(limit), steps) && id in After(Start(limit), steps).clients
    ensures var k := After(Start(limit), steps).clients[id];
      && Ascending(k.pushed) && k.attempted <= k.pushed
      && (forall n :: 0 <= n < |k.attempted| ==> k.attempted[n] < |k.txs|)
      && (forall n :: 0 <= n < |k.attempted| && Fatal(k.txs[k.attempted[n]]) ==> n == |k.attempted| - 1)
      && (k.stop && !k.evicted ==> k.attempted != [] && Fatal(k.txs[k.attempted[|k.attempted| - 1]]))
      && (!k.active ==> k.stop && k.pc.Exited?)
  {
    ReachableClient(limit, steps, id);
    OnlyFailureStops(After(Start(limit), steps).clients[id]);
  }

  /** What the other threads cannot change about a transaction: only an IDLE one gets a new state from them. */
  predicate LeavesTx(t: Tx, u: Tx) {
    && SameAnswer(t, u) && u.responseSize == t.responseSize && u.released == t.released
    && (!t.state.IDLE? ==> u.state == t.state)
  }

  /** What the other threads cannot change about a worker. */
  predicate LeavesWorker(k: Client, n: Client) {
    && n.pc == k.pc && n.active == k.active && n.popped == k.popped && n.attempted == k.attempted && n.responses == k.responses
    && (k.stop ==> n.stop)
    && k.pushed <= n.pushed && |k.txs| <= |n.txs|
    && (forall i :: 0 <= i < |k.txs| ==> LeavesTx(k.txs[i], n.txs[i]))
  }

  predicate LeavesWorkers(s: Server, n: Server) {
    forall id :: id in s.clients ==> id in n.clients && LeavesWorker(s.clients[id], n.clients[id])
  }

  lemma EnqueueLeaves(s: Server)
    requires s.game.InTransit() && Exists(s.clients, s.game.Target())
    requires s.game.Emplaced? ==> TxOf(s.clients, s.game.Target()).state.IDLE?
    ensures LeavesWorkers(s, Enqueue(s))
  {
  }

  lemma WaitLeaves(s: Server, expire: bool)
    requires s.game.Waiting? && Sound(s) && GameCanMove(s, expire)
    ensures LeavesWorkers(s, Wait(s, s.game.batch, s.game.next, s.game.count, expire))
  {
  }

  lemma ScheduleLeaves(s: Server, job: Job)
    requires job.todo != [] ==> job.todo[0] in s.clients
    ensures LeavesWorkers(s, Schedule(s, job))
  {
  }

  lemma BeginLeaves(s: Server, call: Call)
    ensures LeavesWorkers(s, Begin(s, call))
  {
  }

  lemma EraseLeaves(s: Server, todo: seq<nat>, onlyInactive: bool)
    requires todo != [] ==> todo[0] in s.clients
    ensures LeavesWorkers(s, Erase(s, todo, onlyInactive))
  {
  }

  lemma GameLeaves(s: Server, expire: bool)
    requires GameInv(s) && Sound(s) && GameCanMove(s, expire)
    ensures LeavesWorkers(s, GameStep(s, expire))
  {
    match s.game
    case Calling(call) => BeginLeaves(s, call);
    case Erasing(todo, onlyInactive) => EraseLeaves(s, todo, onlyInactive);
    case Scheduling(job) => ScheduleLeaves(s, job);
    case Emplaced(_) => EnqueueLeaves(s);
    case WantsQueue(_) => EnqueueLeaves(s);
    case HasQueue(_) => EnqueueLeaves(s);
    case Waiting(_, _, _) => WaitLeaves(s, expire);
    case _ =>
  }

  lemma OthersLeave(s: Server, step: Step)
    requires GameInv(s) && IdsInv(s) && Sound(s) && Possible(s, step) && !step.WorkerMoves?
    ensures LeavesWorkers(s, Next(s, step))
  {
    if step.GameMoves? {
      GameLeaves(s, step.expire);
    }
  }

  /** The last thing attempted was a failed write, or got an invalid response. */
  predicate Failed(k: Client) {
    && k.attempted != []
    && var i := k.attempted[|k.attempted| - 1];
    && i < |k.txs| && Fatal(k.txs[i])
  }

  lemma FailedIsBroken(k: Client)
    requires OrderInv(k)
    ensures Failed(k) <==> Broken(k)
  {
    assert |k.attempted| == AttemptedCount(k);
  }

  lemma FailedWorker(k: Client, io: Io)
    requires ClientInv(k) && Bounded(k) && Enabled(k) && Failed(k)
    ensures Failed(WorkerStep(k, io)) && WorkerStep(k, io).attempted == k.attempted
  {
    FailedIsBroken(k);
    BrokenStays(k, io);
    FailedIsBroken(WorkerStep(k, io));
  }

  /** What another thread does to a client one by one. */
  lemma OthersLeaveOne(s: Server, step: Step, id: nat)
    requires GameInv(s) && IdsInv(s) && Sound(s) && Possible(s, step) && id in s.clients
    requires step.WorkerMoves? ==> step.id != id
    ensures id in Next(s, step).clients && LeavesWorker(s.clients[id], Next(s, step).clients[id])
  {
    if !step.WorkerMoves? {
      OthersLeave(s, step);
    }
  }

  lemma FailedLeft(k: Client, n: Client)
    requires Failed(k) && LeavesWorker(k, n)
    ensures Failed(n) && n.attempted == k.attempted
  {
  }

  lemma FailedStep(s: Server, step: Step, id: nat)
    requires IdsInv(s) && GameInv(s) && Sound(s) && Possible(s, step) && id in s.clients && ClientInv(s.clients[id])
    requires Failed(s.clients[id])
    ensures id in Next(s, step).clients && Failed(Next(s, step).clients[id])
    ensures Next(s, step).clients[id].attempted == s.clients[id].attempted
  {
    if step.WorkerMoves? && step.id == id {
      FailedWorker(s.clients[id], step.io);
    } else {
      OthersLeaveOne(s, step, id);
      FailedLeft(s.clients[id], Next(s, step).clients[id]);
    }
  }

  /** After a failed write or an invalid response, nothing is ever written to that client again. */
  lemma {:induction false} NothingAfterFailure(s: Server, steps: seq<Step>, id: nat)
    requires Inv(s) && Legal(s, steps) && id in s.clients && Failed(s.clients[id])
    ensures id in After(s, steps).clients && After(s, steps).clients[id].attempted == s.clients[id].attempted
    decreases steps
  {
    if steps != [] {
      NextInv(s, steps[0]);
      FailedStep(s, steps[0], id);
      NothingAfterFailure(Next(s, steps[0]), steps[1..], id);
    }
  }

  /** A worker that has returned never runs again. */
  lemma {:induction false} NeverReactivated(s: Server, steps: seq<Step>, id: nat)
    requires Inv(s) && Legal(s, steps) && id in s.clients && !s.clients[id].active
    ensures id in After(s, steps).clients && !After(s, steps).clients[id].active
    ensures After(s, steps).clients[id].attempted == s.clients[id].attempted
    decreases steps
  {
    if steps != [] {
      NextInv(s, steps[0]);
      ReturnedStep(s, steps[0], id);
      NeverReactivated(Next(s, steps[0]), steps[1..], id);
    }
  }

  lemma ReturnedStep(s: Server, step: Step, id: nat)
    requires IdsInv(s) && GameInv(s) && Sound(s) && Possible(s, step)
    requires id in s.clients && ClientInv(s.clients[id]) && !s.clients[id].active
    ensures id in Next(s, step).clients && !Next(s, step).clients[id].active
    ensures Next(s, step).clients[id].attempted == s.clients[id].attempted
  {
    assert s.clients[id].pc.Exited?;
    if !step.WorkerMoves? {
      OthersLeaveOne(s, step, id);
    }
  }

  // ---------- for ever ----------

  lemma VerdictStep(s: Server, step: Step, id: nat, i: nat)
    requires IdsInv(s) && GameInv(s) && Sound(s) && Possible(s, step) && id in s.clients && ClientInv(s.clients[id])
    requires i < |s.clients[id].txs| && Connection.Final(s.clients[id].txs[i])
    ensures id in Next(s, step).clients && i < |Next(s, step).clients[id].txs|
    ensures var t, u := s.clients[id].txs[i], Next(s, step).clients[id].txs[i]; SameVerdict(t, u) && u.released == 1
  {
    if step.WorkerMoves? && step.id == id {
      FinalUntouched(s.clients[id], step.io, i);
    } else {
      OthersLeaveOne(s, step, id);
    }
  }

  /**
   Once the signal of a transaction has been released, its final state, its response size and
   what was delivered never change again, whatever any thread does: an acquired signal always
   reads a stable verdict.
   */
  lemma {:induction false} VerdictForever(s: Server, steps: seq<Step>, id: nat, i: nat)
    requires Inv(s) && Legal(s, steps) && id in s.clients && i < |s.clients[id].txs|
    requires s.clients[id].txs[i].released == 1
    ensures id in After(s, steps).clients && i < |After(s, steps).clients[id].txs|
    ensures var t, u := s.clients[id].txs[i], After(s, steps).clients[id].txs[i]; SameVerdict(t, u) && u.released == 1
    decreases steps
  {
    if steps != [] {
      NextInv(s, steps[0]);
      SignalledIsFinal(s.clients[id], i);
      VerdictStep(s, steps[0], id, i);
      VerdictForever(Next(s, steps[0]), steps[1..], id, i);
    }
  }

  lemma ResponseStep(s: Server, step: Step, id: nat, owner: nat)
    requires IdsInv(s) && GameInv(s) && Sound(s) && Possible(s, step) && id in s.clients
    requires owner in s.clients[id].responses
    ensures id in Next(s, step).clients && owner in Next(s, step).clients[id].responses
    ensures Next(s, step).clients[id].responses[owner] == s.clients[id].responses[owner]
  {
    if step.WorkerMoves? {
      if step.id == id {
        ResponsesKept(s.clients[id], step.io, owner);
      }
    } else {
      OthersLeaveOne(s, step, id);
    }
  }

  /** A stored response is there for good, and never overwritten. */
  lemma {:induction false} ResponseForever(s: Server, steps: seq<Step>, id: nat, owner: nat)
    requires Inv(s) && Legal(s, steps) && id in s.clients && owner in s.clients[id].responses
    ensures id in After(s, steps).clients && owner in After(s, steps).clients[id].responses
    ensures After(s, steps).clients[id].responses[owner] == s.clients[id].responses[owner]
    decreases steps
  {
    if steps != [] {
      NextInv(s, steps[0]);
      ResponseStep(s, steps[0], id, owner);
      ResponseForever(Next(s, steps[0]), steps[1..], id, owner);
    }
  }

  lemma PushedStep(s: Server, step: Step, id: nat)
    requires IdsInv(s) && GameInv(s) && Sound(s) && Possible(s, step) && id in s.clients
    ensures id in Next(s, step).clients && s.clients[id].pushed <= Next(s, step).clients[id].pushed
  {
    if step.WorkerMoves? && step.id == id {
      WorkerShape(s.clients[id], step.io);
    } else {
      OthersLeaveOne(s, step, id);
    }
  }

  lemma {:induction false} PushedGrows(s: Server, steps: seq<Step>, id: nat)
    requires Inv(s) && Legal(s, steps) && id in s.clients
    ensures id in After(s, steps).clients && s.clients[id].pushed <= After(s, steps).clients[id].pushed
    decreases steps
  {
    if steps != [] {
      NextInv(s, steps[0]);
      PushedStep(s, steps[0], id);
      PushedGrows(Next(s, steps[0]), steps[1..], id);
    }
  }

  /** The worker will never take anything off its queue again. */
  predicate Deaf(k: Client) {
    Failed(k) || !k.active
  }

  lemma DeafPopped(k: Client)
    requires OrderInv(k) && StopInv(k) && Deaf(k)
    ensures |k.attempted| == k.popped
  {
    FailedIsBroken(k);
  }

  lemma {:induction false} DeafForever(s: Server, steps: seq<Step>, id: nat)
    requires Inv(s) && Legal(s, steps) && id in s.clients && Deaf(s.clients[id])
    ensures id in After(s, steps).clients && Deaf(After(s, steps).clients[id])
    ensures After(s, steps).clients[id].attempted == s.clients[id].attempted
    decreases steps
  {
    if steps != [] {
      NextInv(s, steps[0]);
      if Failed(s.clients[id]) {
        FailedStep(s, steps[0], id);
      } else {
        ReturnedStep(s, steps[0], id);
      }
      DeafForever(Next(s, steps[0]), steps[1..], id);
    }
  }

  lemma StillQueued(k: Client, n: Client, i: nat)
    requires OrderInv(k) && OrderInv(n) && k.pushed <= n.pushed && n.popped == k.popped && i in k.queue
    ensures i in n.queue
  {
    var a :| 0 <= a < |k.queue| && k.queue[a] == i;
    assert n.queue[a] == n.pushed[n.popped + a] == k.pushed[k.popped + a];
  }

  /**
   What is queued for a worker that has returned, or whose last attempt was fatal, is never
   attempted, signalled or moved again: whoever waits for it waits until the deadline.
   */
  lemma StrandedForever(s: Server, steps: seq<Step>, r: Ref)
    requires Inv(s) && Legal(s, steps) && Exists(s.clients, r) && r.tx in s.clients[r.client].queue
    requires Deaf(s.clients[r.client])
    ensures Exists(After(s, steps).clients, r) && r.tx in After(s, steps).clients[r.client].queue
    ensures Queued(TxOf(After(s, steps).clients, r))
  {
    RunInv(s, steps);
    PushedGrows(s, steps, r.client);
    DeafForever(s, steps, r.client);
    DeafPopped(s.clients[r.client]);
    DeafPopped(After(s, steps).clients[r.client]);
    StillQueued(s.clients[r.client], After(s, steps).clients[r.client], r.tx);
    QueueIsQueued(After(s, steps).clients[r.client], r.tx);
  }

  lemma QueueIsQueued(k: Client, i: nat)
    requires OrderInv(k) && TableInv(k) && i in k.queue
    ensures i < |k.txs| && Queued(k.txs[i])
  {
    var a :| 0 <= a < |k.queue| && k.queue[a] == i;
    assert k.pushed[k.popped + a] == i;
  }

  // ---------- joining ----------

  /** How many of the steps are the worker's own. */
  function MovesOf(steps: seq<Step>, id: nat): nat {
    if steps == [] then 0
    else OwnMove(steps[0], id) + MovesOf(steps[1..], id)
  }

  function OwnMove(step: Step, id: nat): nat {
    if step.WorkerMoves? && step.id == id then 1 else 0
  }

  lemma StoppingWorker(k: Client, io: Io)
    requires OrderInv(k) && StopInv(k) && Bounded(k) && Enabled(k) && k.stop
    ensures WorkerStep(k, io).stop && StepsLeft(WorkerStep(k, io).pc) + 1 <= StepsLeft(k.pc)
  {
    WorkerShape(k, io);
    StoppingTerminates(k, io);
  }

  lemma StoppingStep(s: Server, step: Step, id: nat)
    requires IdsInv(s) && GameInv(s) && Sound(s) && Possible(s, step) && id in s.clients && ClientInv(s.clients[id])
    requires s.clients[id].stop
    ensures id in Next(s, step).clients && Next(s, step).clients[id].stop
    ensures StepsLeft(Next(s, step).clients[id].pc) + OwnMove(step, id) <= StepsLeft(s.clients[id].pc)
  {
    if step.WorkerMoves? && step.id == id {
      StoppingWorker(s.clients[id], step.io);
    } else {
      OthersLeaveOne(s, step, id);
    }
  }

  /** A worker asked to stop comes closer to its return with each step of its own, and no other thread takes it back. */
  lemma {:induction false} StopsWithin(s: Server, steps: seq<Step>, id: nat)
    requires Inv(s) && Legal(s, steps) && id in s.clients && s.clients[id].stop
    ensures id in After(s, steps).clients
    ensures StepsLeft(After(s, steps).clients[id].pc) + MovesOf(steps, id) <= StepsLeft(s.clients[id].pc)
    decreases steps
  {
    if steps != [] {
      NextInv(s, steps[0]);
      StoppingStep(s, steps[0], id);
      StopsWithin(Next(s, steps[0]), steps[1..], id);
    }
  }

  /**
   While a worker is joined under the map's mutex it is never blocked, and in any continuation
   in which it makes eleven steps it has returned. (A worker of an active client may use its
   queue although that has been destroyed; see `Removal`.)
   */
  lemma JoinTerminates(s: Server, id: nat, steps: seq<Step>)
    requires Inv(s) && s.game.Joining? && id == s.game.id && Legal(s, steps)
    ensures id in s.clients && (s.clients[id].pc.Exited? || Enabled(s.clients[id]))
    ensures id in After(s, steps).clients
    ensures MovesOf(steps, id) >= 11 ==> After(s, steps).clients[id].pc.Exited?
  {
    JoinedIsStopping(s);
    StopsWithin(s, steps, id);
    ElevenAtMost(s.clients[id].pc, After(s, steps).clients[id].pc, MovesOf(steps, id));
  }

  lemma ElevenAtMost(pc: Pc, after: Pc, moves: nat)
    requires StepsLeft(after) + moves <= StepsLeft(pc)
    ensures moves >= 11 ==> after.Exited?
  {
  }

  lemma JoinedIsStopping(s: Server)
    requires LocksInv(s) && GameInv(s) && s.game.Joining?
    ensures s.game.id in s.clients && s.clients[s.game.id].stop
    ensures ClientsInv(s) ==> s.clients[s.game.id].pc.Exited? || Enabled(s.clients[s.game.id])
  {
  }
}
