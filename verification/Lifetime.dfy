/**
 How long a transaction lives (src/connection_transaction.h, src/connection_client.cpp).

 The worker keeps a reference to a transaction owned by an object of the game thread. As long
 as no wait expires the game thread is slow enough, except in one place.
 */
module Lifetime {
  import opened Packets
  import opened Connection
  import opened Server
  import opened Runs
  import opened Scripts

  /** The game thread will still take the signal of `r` before it does anything else. */
  predicate Awaited(g: GamePc, r: Ref) {
    match g
    case Scheduling(job) => r in job.batch
    case Emplaced(job) => r in job.batch
    case WantsQueue(job) => r in job.batch
    case HasQueue(job) => r in job.batch
    case Waiting(batch, next, _) => next <= |batch| && r in batch[next..]
    case Judging(batch, next, _) => next < |batch| && r in batch[next + 1..]
    case _ => false
  }

  /** The worker has a reference to `r`, or is about to get one, and its signal has not been taken. */
  predicate Owed(s: Server, r: Ref) {
    && Exists(s.clients, r) && TxOf(s.clients, r).acquired == 0
    && (r.tx in s.clients[r.client].pushed || (s.game.InTransit() && s.game.Target() == r))
  }

  ghost predicate PatientInv(s: Server) {
    forall r :: Owed(s, r) ==> TxOf(s.clients, r).live && Awaited(s.game, r)
  }

  lemma StartPatient(limit: nat)
    ensures PatientInv(Start(limit))
  {
  }

  lemma WorkerOwes(s: Server, id: nat, io: Io, r: Ref)
    requires ClientsInv(s) && id in s.clients && Bounded(s.clients[id]) && Enabled(s.clients[id])
    requires Owed(s.(clients := s.clients[id := WorkerStep(s.clients[id], io)]), r)
    ensures Owed(s, r)
    ensures TxOf(s.clients, r).live == TxOf(s.clients[id := WorkerStep(s.clients[id], io)], r).live
  {
    WorkerEvolves(s.clients[id], io);
    WorkerLets(s.clients[id], io);
  }

  lemma WorkerLets(k: Client, io: Io)
    requires Bounded(k) && Enabled(k)
    ensures |WorkerStep(k, io).txs| == |k.txs|
    ensures forall i :: 0 <= i < |k.txs| ==> WorkerStep(k, io).txs[i].live == k.txs[i].live
  {
    StepRecords(k, io);
  }

  lemma WorkerPatient(s: Server, id: nat, io: Io)
    requires ClientsInv(s) && PatientInv(s) && id in s.clients && Bounded(s.clients[id]) && Enabled(s.clients[id])
    ensures PatientInv(s.(clients := s.clients[id := WorkerStep(s.clients[id], io)]))
  {
    var n := s.(clients := s.clients[id := WorkerStep(s.clients[id], io)]);
    forall r | Owed(n, r) ensures TxOf(n.clients, r).live && Awaited(n.game, r) {
      WorkerOwes(s, id, io, r);
    }
  }

  /** When nothing is pending nothing is owed, and whatever is destroyed then was done with. */
  lemma NothingOwed(s: Server, n: Server)
    requires PatientInv(s) && forall r :: !Awaited(s.game, r)
    requires s.clients.Keys == n.clients.Keys && !n.game.InTransit()
    requires forall id :: id in s.clients ==> n.clients[id].pushed == s.clients[id].pushed && |n.clients[id].txs| == |s.clients[id].txs|
    requires forall r :: Exists(s.clients, r) ==> TxOf(n.clients, r).acquired == TxOf(s.clients, r).acquired
    ensures PatientInv(n)
  {
    forall r | Owed(n, r) ensures Owed(s, r) {
      assert Exists(s.clients, r);
    }
  }

  lemma DroppedPatient(s: Server, owner: nat, n: Server)
    requires PatientInv(s) && (s.game.Idle? || s.game.Calling?) && !n.game.InTransit()
    requires n.clients == DroppedAll(s.clients, owner)
    ensures PatientInv(n)
  {
    NothingOwed(s, n);
  }

  lemma SchedulePatient(s: Server, job: Job)
    requires PatientInv(s) && s.game == Scheduling(job) && (job.todo != [] ==> job.todo[0] in s.clients)
    requires forall id :: id in s.clients ==> OrderInv(s.clients[id])
    ensures PatientInv(Schedule(s, job))
  {
    var n := Schedule(s, job);
    forall r | Owed(n, r) ensures TxOf(n.clients, r).live && Awaited(n.game, r) {
      if n.game.InTransit() && n.game.Target() == r {
        assert r in n.game.job.batch;
      } else {
        assert Owed(s, r);
      }
    }
  }

  lemma EnqueuePatient(s: Server)
    requires PatientInv(s) && (s.game.Emplaced? || s.game.WantsQueue? || s.game.HasQueue?)
    requires s.game.InTransit() && Exists(s.clients, s.game.Target())
    ensures PatientInv(Enqueue(s))
  {
    var n := Enqueue(s);
    forall r | Owed(n, r) ensures TxOf(n.clients, r).live && Awaited(n.game, r) {
      assert Owed(s, r);
    }
  }

  lemma TakePatient(s: Server)
    requires PatientInv(s) && s.game.Waiting? && s.game.next < |s.game.batch|
    requires Exists(s.clients, s.game.batch[s.game.next]) && TxOf(s.clients, s.game.batch[s.game.next]).signal > 0
    ensures PatientInv(Wait(s, s.game.batch, s.game.next, s.game.count, false))
  {
    var n := Wait(s, s.game.batch, s.game.next, s.game.count, false);
    assert s.game.batch[s.game.next..] == [s.game.batch[s.game.next]] + s.game.batch[s.game.next + 1..];
    forall r | Owed(n, r) ensures TxOf(n.clients, r).live && Awaited(n.game, r) {
      assert Owed(s, r);
    }
  }

  lemma WaitPatient(s: Server)
    requires PatientInv(s) && s.game.Waiting? && Sound(s) && GameCanMove(s, false)
    ensures PatientInv(Wait(s, s.game.batch, s.game.next, s.game.count, false))
  {
    if s.game.next < |s.game.batch| {
      TakePatient(s);
    } else {
      NothingOwed(s, Wait(s, s.game.batch, s.game.next, s.game.count, false));
    }
  }

  lemma JudgePatient(s: Server)
    requires PatientInv(s) && s.game.Judging? && Sound(s)
    ensures PatientInv(GameStep(s, false))
  {
    var n := GameStep(s, false);
    forall r | Owed(n, r) ensures TxOf(n.clients, r).live && Awaited(n.game, r) {
      assert Owed(s, r);
    }
  }

  lemma ErasePatient(s: Server)
    requires PatientInv(s) && (s.game.Erasing? || s.game.Unmaking? || s.game.Joining?) && Sound(s) && GameCanMove(s, false)
    ensures PatientInv(GameStep(s, false))
  {
    NothingOwed(s, GameStep(s, false));
  }

  lemma BeginPatient(s: Server, call: Call)
    requires PatientInv(s) && s.game.Calling?
    ensures PatientInv(Begin(s, call))
  {
    match call
    case Broadcast(owner, _) => DroppedPatient(s, owner, Begin(s, call));
    case Single(_, owner, _) => DroppedPatient(s, owner, Begin(s, call));
    case _ => NothingOwed(s, Begin(s, call));
  }

  lemma InsertPatient(s: Server, connection: bool, accepting: bool)
    requires PatientInv(s) && IdsInv(s) && !s.acceptor.AcceptFailed?
    ensures PatientInv(AcceptorStep(s, connection, accepting))
  {
    var n := AcceptorStep(s, connection, accepting);
    forall r | Owed(n, r) ensures TxOf(n.clients, r).live && Awaited(n.game, r) {
      assert Owed(s, r);
    }
  }

  lemma GamePatient(s: Server)
    requires Inv(s) && PatientInv(s) && Sound(s) && GameCanMove(s, false)
    ensures PatientInv(GameStep(s, false))
  {
    match s.game
    case Calling(call) => BeginPatient(s, call);
    case Scheduling(job) => SchedulePatient(s, job);
    case Emplaced(_) => EnqueuePatient(s);
    case WantsQueue(_) => EnqueuePatient(s);
    case HasQueue(_) => EnqueuePatient(s);
    case Waiting(_, _, _) => WaitPatient(s);
    case Judging(_, _, _) => JudgePatient(s);
    case Erasing(_, _) => ErasePatient(s);
    case Unmaking(_, _, _) => ErasePatient(s);
    case Joining(_, _, _) => ErasePatient(s);
  }

  lemma PatientStep(s: Server, step: Step)
    requires Inv(s) && PatientInv(s) && Sound(s) && Possible(s, step) && Patient(step)
    ensures PatientInv(Next(s, step))
  {
    match step
    case WorkerMoves(id, io) => WorkerPatient(s, id, io);
    case GameCalls(_) => NothingOwed(s, Next(s, step));
    case GameDestroys(owner) => DroppedPatient(s, owner, Next(s, step));
    case GameMoves(_) => GamePatient(s);
    case AcceptorMoves(connection, accepting) => InsertPatient(s, connection, accepting);
  }

  lemma {:induction false} PatientRun(s: Server, steps: seq<Step>)
    requires Inv(s) && PatientInv(s) && Legal(s, steps) && AllPatient(steps)
    ensures Inv(After(s, steps)) && PatientInv(After(s, steps))
    decreases steps
  {
    if steps != [] {
      assert Patient(steps[0]);
      NextInv(s, steps[0]);
      PatientStep(s, steps[0]);
      assert forall n :: 0 <= n < |steps[1..]| ==> steps[1..][n] == steps[n + 1];
      PatientRun(Next(s, steps[0]), steps[1..]);
    }
  }

  lemma BusyIsOwed(s: Server, id: nat)
    requires id in s.clients && OrderInv(s.clients[id]) && TableInv(s.clients[id]) && s.clients[id].pc.Busy()
    ensures s.clients[id].pc.tx < |s.clients[id].txs| && Owed(s, Ref(id, s.clients[id].pc.tx))
  {
    var k := s.clients[id];
    assert k.pushed[k.popped - 1] == k.pc.tx;
  }

  /**
   In a run in which no wait expires, a worker that pops, writes, reads, validates or releases a
   transaction finds it alive, and the game thread is still waiting to take its signal.
   */
  lemma AliveWhileInHand(limit: nat, steps: seq<Step>, id: nat)
    requires Legal(Start(limit), steps) && AllPatient(steps)
    requires var s := After(Start(limit), steps); id in s.clients && s.clients[id].pc.Busy()
    ensures var s := After(Start(limit), steps); var k := s.clients[id];
      k.pc.tx < |k.txs| && k.txs[k.pc.tx].live && Awaited(s.game, Ref(id, k.pc.tx))
  {
    StartInv(limit);
    StartPatient(limit);
    PatientRun(Start(limit), steps);
    BusyIsOwed(After(Start(limit), steps), id);
  }

  /** And everything still queued is alive too. */
  lemma AliveInQueue(limit: nat, steps: seq<Step>, r: Ref)
    requires Legal(Start(limit), steps) && AllPatient(steps)
    requires var s := After(Start(limit), steps); Exists(s.clients, r) && IsAt(s.clients[r.client], r.tx, InQueue)
    ensures TxOf(After(Start(limit), steps).clients, r).live
  {
    StartInv(limit);
    StartPatient(limit);
    PatientRun(Start(limit), steps);
    QueuedIsOwed(After(Start(limit), steps), r);
  }

  lemma QueuedIsOwed(s: Server, r: Ref)
    requires Exists(s.clients, r) && OrderInv(s.clients[r.client]) && TableInv(s.clients[r.client])
    requires IsAt(s.clients[r.client], r.tx, InQueue)
    ensures Owed(s, r)
  {
    var k := s.clients[r.client];
    var n :| 0 <= n < |k.queue| && k.queue[n] == r.tx;
    assert k.pushed[k.popped + n] == r.tx;
  }

  // ---------- the one exception ----------

  /** The worker's next step reads a transaction that has been destroyed. */
  predicate TouchesTheDead(s: Server, id: nat) {
    && id in s.clients
    && var k := s.clients[id];
    && k.pc.Touches() && k.pc.tx < |k.txs| && !k.txs[k.pc.tx].live
  }

  /** Having released the signal, the worker looks at `responseSize` once more; that look is the only one. */
  lemma OnlyTheSizeCheck(limit: nat, steps: seq<Step>, id: nat)
    requires Legal(Start(limit), steps) && AllPatient(steps) && TouchesTheDead(After(Start(limit), steps), id)
    ensures After(Start(limit), steps).clients[id].pc.SizeCheck?
  {
    if After(Start(limit), steps).clients[id].pc.Busy() {
      AliveWhileInHand(limit, steps, id);
    }
  }

  // Which requests it can happen to.

  /** A run without expiries in which the worker touches a destroyed transaction that carries `p`. */
  predicate DeadTouch(limit: nat, steps: seq<Step>, id: nat, p: Packet) {
    && Legal(Start(limit), steps) && AllPatient(steps)
    && TouchesTheDead(After(Start(limit), steps), id)
    && var k := After(Start(limit), steps).clients[id];
    && k.txs[k.pc.tx].request == p
  }

  lemma CheckedAwaited(k: Client)
    requires OrderInv(k) && TableInv(k) && StopInv(k) && k.pc.SizeCheck?
    ensures k.pc.tx < |k.txs| && ResponseSize(k.txs[k.pc.tx].request) > 0
    ensures Connection.Final(k.txs[k.pc.tx])
  {
    assert k.pushed[k.popped - 1] == k.pc.tx;
  }

  lemma DeadTouchAwaited(limit: nat, steps: seq<Step>, id: nat, p: Packet)
    requires DeadTouch(limit, steps, id, p)
    ensures ResponseSize(p) > 0
  {
    OnlyTheSizeCheck(limit, steps, id);
    ReachableClient(limit, steps, id);
    CheckedAwaited(After(Start(limit), steps).clients[id]);
  }

  /** A worker has served the only request there is, `p`, and released its signal. */
  lemma ServedRun(p: Packet) returns (a: seq<Step>, k: Client)
    requires ResponseSize(p) > 0
    ensures Reaches(1, a, Solo(1, k, Free, Waiting([Ref(0, 0)], 0, 0)))
    ensures k.pc == SizeCheck(0) && |k.txs| == 1 && k.txs[0].owner == 0 && k.txs[0].request == p && k.txs[0].signal == 1
  {
    var f := Fed(NewClient(), 0, p);
    var g := Waiting([Ref(0, 0)], 0, 0);
    var s := Solo(1, f, Free, g);
    a := FirstRequest(1, p);
    FirstIsFit(1, p);
    assert s.clients[0] == f;
    var b;
    b, k := CanCheck(s, 0, 0);
    SoloMoved(1, f, Free, g, k);
    ReachesOn(1, a, s, b, Solo(1, k, Free, g));
    CheckedAwaited(k);
    a := a + b;
  }

  /** The game thread takes the signal and destroys the transaction before the worker looks at it again. */
  lemma ReadAfterDestruction(p: Packet) returns (a: seq<Step>)
    requires ResponseSize(p) > 0
    ensures DeadTouch(1, a, 0, p)
  {
    var k;
    a, k := ServedRun(p);
    var m := if k.txs[0].state.DONE? then 1 else 0;
    var b := SoloTakes(1, k, 0, m);
    var s := Solo(1, Acquired(k, 0), Free, Idle(Counted([Ref(0, 0)], m)));
    ReachesOn(1, a, Solo(1, k, Free, Waiting([Ref(0, 0)], 0, 0)), b, s);
    InvSound(s);
    SoloDropped(Acquired(k, 0), 0);
    var n := Solo(1, Dropped(Acquired(k, 0), 0), Free, Idle(Counted([Ref(0, 0)], m)));
    ReachesBy(1, a + b, s, GameDestroys(0), n);
    a := a + b + [GameDestroys(0)];
    assert n.clients[0] == Dropped(Acquired(k, 0), 0);
  }

  /**
   Some run without expiries touches a destroyed transaction of request `p` if and only if `p`
   expects a response.
   */
  lemma DeadTouchIff(p: Packet)
    ensures (exists limit, steps, id :: DeadTouch(limit, steps, id, p)) <==> ResponseSize(p) > 0
  {
    if ResponseSize(p) > 0 {
      var a := ReadAfterDestruction(p);
    }
    forall limit, steps, id | DeadTouch(limit, steps, id, p) ensures ResponseSize(p) > 0 {
      DeadTouchAwaited(limit, steps, id, p);
    }
  }

  // When it happens.

  /** The step resets or destroys the transaction object `owner`. */
  predicate DropsNow(s: Server, step: Step, owner: nat) {
    || step == GameDestroys(owner)
    || (step.GameMoves? && s.game.Calling? && (s.game.call.Broadcast? || s.game.call.Single?) && s.game.call.owner == owner)
  }

  predicate Drops(s: Server, steps: seq<Step>, owner: nat)
    requires Legal(s, steps)
    decreases steps
  {
    steps != [] && (DropsNow(s, steps[0], owner) || Drops(Next(s, steps[0]), steps[1..], owner))
  }

  /** Only dropping its object ends the life of a transaction. */
  predicate LivesOn(k: Client, n: Client) {
    |k.txs| <= |n.txs| && forall i :: 0 <= i < |k.txs| ==> n.txs[i].live == k.txs[i].live && n.txs[i].owner == k.txs[i].owner
  }

  predicate AllLive(s: Server, n: Server) {
    forall id :: id in s.clients ==> id in n.clients && LivesOn(s.clients[id], n.clients[id])
  }

  lemma EnqueueLives(s: Server)
    requires s.game.InTransit() && Exists(s.clients, s.game.Target())
    ensures AllLive(s, Enqueue(s))
  {
  }

  lemma WaitLives(s: Server, expire: bool)
    requires s.game.Waiting? && Sound(s) && GameCanMove(s, expire)
    ensures AllLive(s, Wait(s, s.game.batch, s.game.next, s.game.count, expire))
  {
  }

  lemma ScheduleLives(s: Server, job: Job)
    requires job.todo != [] ==> job.todo[0] in s.clients
    ensures AllLive(s, Schedule(s, job))
  {
  }

  lemma EraseLives(s: Server, todo: seq<nat>, onlyInactive: bool)
    requires todo != [] ==> todo[0] in s.clients
    ensures AllLive(s, Erase(s, todo, onlyInactive))
  {
  }

  lemma GameLives(s: Server, expire: bool)
    requires Sound(s) && GameCanMove(s, expire) && !s.game.Calling?
    ensures AllLive(s, GameStep(s, expire))
  {
    match s.game
    case Scheduling(job) => ScheduleLives(s, job);
    case Emplaced(_) => EnqueueLives(s);
    case WantsQueue(_) => EnqueueLives(s);
    case HasQueue(_) => EnqueueLives(s);
    case Waiting(_, _, _) => WaitLives(s, expire);
    case Erasing(todo, onlyInactive) => EraseLives(s, todo, onlyInactive);
    case _ =>
  }

  lemma DropLives(s: Server, owner: nat, id: nat, i: nat)
    requires id in s.clients && i < |s.clients[id].txs|
    ensures var d := DroppedAll(s.clients, owner);
      && id in d && |d[id].txs| == |s.clients[id].txs| && d[id].txs[i].owner == s.clients[id].txs[i].owner
      && d[id].txs[i].live == (s.clients[id].txs[i].live && s.clients[id].txs[i].owner != owner)
  {
  }

  lemma CallLives(s: Server, id: nat, i: nat)
    requires s.game.Calling? && id in s.clients && i < |s.clients[id].txs|
    ensures var n := Begin(s, s.game.call); var t := s.clients[id].txs[i];
      && id in n.clients && i < |n.clients[id].txs| && n.clients[id].txs[i].owner == t.owner
      && n.clients[id].txs[i].live == (t.live && !DropsNow(s, GameMoves(false), t.owner))
  {
    if s.game.call.Broadcast? || s.game.call.Single? {
      DropLives(s, s.game.call.owner, id, i);
    }
  }

  lemma WorkerOwners(k: Client, io: Io)
    requires Bounded(k) && Enabled(k)
    ensures |WorkerStep(k, io).txs| == |k.txs|
    ensures forall i :: 0 <= i < |k.txs| ==> WorkerStep(k, io).txs[i].owner == k.txs[i].owner
  {
    StepRecords(k, io);
  }

  lemma WorkerLives(s: Server, w: nat, io: Io)
    requires w in s.clients && Bounded(s.clients[w]) && Enabled(s.clients[w])
    ensures AllLive(s, s.(clients := s.clients[w := WorkerStep(s.clients[w], io)]))
  {
    WorkerLets(s.clients[w], io);
    WorkerOwners(s.clients[w], io);
  }

  lemma LifeStep(s: Server, step: Step, id: nat, i: nat)
    requires IdsInv(s) && Sound(s) && Possible(s, step) && id in s.clients && i < |s.clients[id].txs|
    ensures var n := Next(s, step); var t := s.clients[id].txs[i];
      && id in n.clients && i < |n.clients[id].txs| && n.clients[id].txs[i].owner == t.owner
      && n.clients[id].txs[i].live == (t.live && !DropsNow(s, step, t.owner))
  {
    match step
    case WorkerMoves(w, io) => WorkerLives(s, w, io);
    case GameDestroys(owner) => DropLives(s, owner, id, i);
    case GameMoves(expire) =>
      if s.game.Calling? {
        CallLives(s, id, i);
      } else {
        GameLives(s, expire);
      }
    case _ =>
  }

  /**
   From the moment a worker stands before its last look, and as long as it does not move: the
   look is at a destroyed transaction exactly if its object has been reset or destroyed since.
   */
  lemma {:induction false} DeadSinceDropped(s: Server, c: seq<Step>, id: nat)
    requires Inv(s) && Legal(s, c) && MovesOf(c, id) == 0 && id in s.clients && s.clients[id].pc.SizeCheck?
    requires s.clients[id].pc.tx < |s.clients[id].txs| && s.clients[id].txs[s.clients[id].pc.tx].live
    ensures id in After(s, c).clients && After(s, c).clients[id].pc == s.clients[id].pc
    ensures TouchesTheDead(After(s, c), id) <==> Drops(s, c, s.clients[id].txs[s.clients[id].pc.tx].owner)
    decreases c
  {
    var i := s.clients[id].pc.tx;
    if c != [] {
      var n := Next(s, c[0]);
      NextInv(s, c[0]);
      OthersLeaveOne(s, c[0], id);
      LifeStep(s, c[0], id, i);
      if DropsNow(s, c[0], s.clients[id].txs[i].owner) {
        StaysDead(n, c[1..], id);
      } else {
        DeadSinceDropped(n, c[1..], id);
      }
    }
  }

  lemma {:induction false} StaysDead(s: Server, c: seq<Step>, id: nat)
    requires Inv(s) && Legal(s, c) && MovesOf(c, id) == 0 && TouchesTheDead(s, id)
    ensures TouchesTheDead(After(s, c), id) && After(s, c).clients[id].pc == s.clients[id].pc
    decreases c
  {
    if c != [] {
      NextInv(s, c[0]);
      OthersLeaveOne(s, c[0], id);
      LifeStep(s, c[0], id, s.clients[id].pc.tx);
      StaysDead(Next(s, c[0]), c[1..], id);
    }
  }

  lemma ReleaseKeepsLife(k: Client, io: Io)
    requires Bounded(k) && k.pc.Releasing? && k.pc.next.ToSizeCheck?
    ensures var n := WorkerStep(k, io);
      && n.pc == SizeCheck(k.pc.tx) && |n.txs| == |k.txs|
      && n.txs[k.pc.tx].live == k.txs[k.pc.tx].live && n.txs[k.pc.tx].owner == k.txs[k.pc.tx].owner
  {
  }

  /** In a run without expiries the worker arrives there with its transaction alive, so the above says when it is not. */
  lemma ArrivesAlive(limit: nat, steps: seq<Step>, id: nat, io: Io)
    requires Legal(Start(limit), steps) && AllPatient(steps)
    requires var s := After(Start(limit), steps);
      id in s.clients && s.clients[id].pc.Releasing? && s.clients[id].pc.next.ToSizeCheck?
    ensures var s := After(Start(limit), steps); Sound(s) && Possible(s, WorkerMoves(id, io))
    ensures var n := Next(After(Start(limit), steps), WorkerMoves(id, io)); var k := n.clients[id];
      Inv(n) && k.pc.SizeCheck? && k.pc.tx < |k.txs| && k.txs[k.pc.tx].live
  {
    var s := After(Start(limit), steps);
    ReachableInv(limit, steps);
    AliveWhileInHand(limit, steps, id);
    NextInv(s, WorkerMoves(id, io));
    ReleaseKeepsLife(s.clients[id], io);
  }
}
