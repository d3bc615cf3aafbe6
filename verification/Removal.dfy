/**
 Removing clients (src/connection_server.cpp:53-70, src/connection_client.h). The queue and its
 mutex are declared after the thread that uses them, so they are destroyed before it is stopped
 and joined.
 */
module Removal {
  import opened Connection
  import opened Server
  import opened Runs
  import opened Scripts

  /** The worker's next step locks the mutex of a queue that is gone, or uses that queue. */
  predicate UsesDeadQueue(k: Client) {
    k.queueGone && (k.pc.Locking? || k.pc.Holding?)
  }

  predicate Departing(s: Server, id: nat) {
    id !in s.members || ((s.game.Unmaking? || s.game.Joining?) && s.game.id == id)
  }

  /** Only a client that is being removed, or has been, is evicted or without its queue. */
  predicate TenureInv(s: Server) {
    forall id :: id in s.clients && (s.clients[id].evicted || s.clients[id].queueGone) ==> Departing(s, id)
  }

  // ---------- only removal evicts ----------

  predicate SameTenure(k: Client, n: Client) {
    n.evicted == k.evicted && n.queueGone == k.queueGone
  }

  predicate SameTenures(s: Server, n: Server) {
    forall id :: id in s.clients ==> id in n.clients && SameTenure(s.clients[id], n.clients[id])
  }

  lemma EnqueueTenure(s: Server)
    requires s.game.InTransit() && Exists(s.clients, s.game.Target())
    ensures SameTenures(s, Enqueue(s)) && Enqueue(s).clients.Keys == s.clients.Keys
  {
  }

  lemma WaitTenure(s: Server, expire: bool)
    requires s.game.Waiting? && Sound(s) && GameCanMove(s, expire)
    ensures var n := Wait(s, s.game.batch, s.game.next, s.game.count, expire); SameTenures(s, n) && n.clients.Keys == s.clients.Keys
  {
  }

  lemma ScheduleTenure(s: Server, job: Job)
    requires job.todo != [] ==> job.todo[0] in s.clients
    ensures SameTenures(s, Schedule(s, job)) && Schedule(s, job).clients.Keys == s.clients.Keys
  {
  }

  lemma BeginTenure(s: Server, call: Call)
    ensures SameTenures(s, Begin(s, call)) && Begin(s, call).clients.Keys == s.clients.Keys
  {
  }

  /** The game thread outside of removals. */
  predicate Tenured(g: GamePc) {
    !g.Erasing? && !g.Unmaking? && !g.Joining?
  }

  lemma GameTenure(s: Server, expire: bool)
    requires Sound(s) && GameCanMove(s, expire) && Tenured(s.game)
    ensures var n := GameStep(s, expire); SameTenures(s, n) && n.clients.Keys == s.clients.Keys && n.members == s.members
  {
    match s.game
    case Calling(call) => BeginTenure(s, call);
    case Scheduling(job) => ScheduleTenure(s, job);
    case Emplaced(_) => EnqueueTenure(s);
    case WantsQueue(_) => EnqueueTenure(s);
    case HasQueue(_) => EnqueueTenure(s);
    case Waiting(_, _, _) => WaitTenure(s, expire);
    case _ =>
  }

  lemma RemovalTenure(s: Server, expire: bool)
    requires Sound(s) && GameCanMove(s, expire) && !Tenured(s.game) && TenureInv(s)
    ensures TenureInv(GameStep(s, expire))
  {
  }

  lemma GameStepTenure(s: Server, expire: bool)
    requires Sound(s) && GameCanMove(s, expire) && TenureInv(s)
    ensures TenureInv(GameStep(s, expire))
  {
    if Tenured(s.game) {
      GameTenure(s, expire);
    } else {
      RemovalTenure(s, expire);
    }
  }

  lemma TenureStep(s: Server, step: Step)
    requires Sound(s) && Possible(s, step) && IdsInv(s) && TenureInv(s)
    ensures TenureInv(Next(s, step))
  {
    match step
    case WorkerMoves(id, io) => WorkerTenure(s.clients[id], io);
    case GameMoves(expire) => GameStepTenure(s, expire);
    case _ =>
  }

  lemma {:induction false} TenureRun(s: Server, steps: seq<Step>)
    requires Inv(s) && Legal(s, steps) && TenureInv(s)
    ensures Inv(After(s, steps)) && TenureInv(After(s, steps))
    decreases steps
  {
    if steps != [] {
      NextInv(s, steps[0]);
      TenureStep(s, steps[0]);
      TenureRun(Next(s, steps[0]), steps[1..]);
    }
  }

  lemma ReachableTenure(limit: nat, steps: seq<Step>)
    requires Legal(Start(limit), steps)
    ensures Inv(After(Start(limit), steps)) && Sound(After(Start(limit), steps))
    ensures TenureInv(After(Start(limit), steps))
  {
    StartInv(limit);
    TenureRun(Start(limit), steps);
    InvSound(After(Start(limit), steps));
  }

  /** A client that stays is fit for service unless its last attempt was fatal. */
  lemma FitOrFailed(s: Server, id: nat)
    requires Inv(s) && TenureInv(s) && id in s.clients && !Departing(s, id) && !s.game.HasQueue?
    ensures Fit(s.clients[id]) <==> !Failed(s.clients[id])
  {
    FailedIsBroken(s.clients[id]);
  }

  // ---------- a removal can pull the queue from under its worker ----------

  /** The game thread is about to destroy the queue of client `id`. */
  predicate AboutToDestroy(s: Server, id: nat) {
    && s.game.Erasing? && s.game.todo != [] && s.game.todo[0] == id && id in s.clients
    && !(s.game.onlyInactive && s.clients[id].active)
  }

  lemma DestroyedIsFit(k: Client)
    requires Fit(k)
    ensures Fit(QueueDestroyed(k))
  {
    QueueDestroyedInv(k);
  }

  lemma CanUseDeadQueue(s: Server, id: nat) returns (a: seq<Step>)
    requires Inv(s) && TenureInv(s) && AboutToDestroy(s, id) && !Failed(s.clients[id])
    ensures Sound(s) && GameCanMove(s, false) && Legal(GameStep(s, false), a)
    ensures id in After(GameStep(s, false), a).clients && UsesDeadQueue(After(GameStep(s, false), a).clients[id])
  {
    InvSound(s);
    GameStepInv(s, false);
    ErasedIsMember(s, id);
    FitOrFailed(s, id);
    DestroyedIsFit(s.clients[id]);
    var n;
    a, n := CanLock(GameStep(s, false), id);
  }

  lemma ErasedIsMember(s: Server, id: nat)
    requires GameInv(s) && AboutToDestroy(s, id)
    ensures !Departing(s, id)
  {
    assert s.game.todo[0] in s.game.todo;
  }

  lemma DeafUsesNothing(k: Client)
    requires ClientInv(k) && Deaf(k)
    ensures !UsesDeadQueue(k)
  {
    FailedIsBroken(k);
  }

  lemma NeverUsesDeadQueue(s: Server, id: nat, a: seq<Step>)
    requires Inv(s) && AboutToDestroy(s, id) && Failed(s.clients[id])
    requires Sound(s) && GameCanMove(s, false) && Legal(GameStep(s, false), a)
    ensures id in After(GameStep(s, false), a).clients && !UsesDeadQueue(After(GameStep(s, false), a).clients[id])
  {
    GameStepInv(s, false);
    FailedStays(s, id);
    DeafFrom(GameStep(s, false), id, a);
  }

  lemma FailedStays(s: Server, id: nat)
    requires AboutToDestroy(s, id) && Failed(s.clients[id]) && Sound(s) && GameCanMove(s, false)
    ensures id in GameStep(s, false).clients && Failed(GameStep(s, false).clients[id])
  {
  }

  lemma DeafFrom(n: Server, id: nat, a: seq<Step>)
    requires Inv(n) && Legal(n, a) && id in n.clients && Failed(n.clients[id])
    ensures id in After(n, a).clients && !UsesDeadQueue(After(n, a).clients[id])
  {
    DeafForever(n, a, id);
    RunInv(n, a);
    DeafUsesNothing(After(n, a).clients[id]);
  }

  lemma NobodyUsesIt(s: Server, id: nat)
    requires Inv(s) && AboutToDestroy(s, id) && Failed(s.clients[id]) && Sound(s) && GameCanMove(s, false)
    ensures forall a :: Legal(GameStep(s, false), a) && id in After(GameStep(s, false), a).clients
              ==> !UsesDeadQueue(After(GameStep(s, false), a).clients[id])
  {
    forall a | Legal(GameStep(s, false), a) && id in After(GameStep(s, false), a).clients
      ensures !UsesDeadQueue(After(GameStep(s, false), a).clients[id])
    {
      NeverUsesDeadQueue(s, id, a);
    }
  }

  /**
   In every run, when the queue of a client is destroyed: its worker can use the dead queue or
   its mutex in some continuation if and only if its last attempt was not fatal. A worker that has
   returned made a fatal one.
   */
  lemma DeadQueueUsed(limit: nat, steps: seq<Step>, id: nat)
    requires Legal(Start(limit), steps) && AboutToDestroy(After(Start(limit), steps), id)
    ensures var s := After(Start(limit), steps);
      && Sound(s) && GameCanMove(s, false)
      && (!Failed(s.clients[id]) <==>
          exists a :: Legal(GameStep(s, false), a) && id in After(GameStep(s, false), a).clients
                      && UsesDeadQueue(After(GameStep(s, false), a).clients[id]))
    ensures var k := After(Start(limit), steps).clients[id]; !k.active ==> Failed(k)
  {
    var s := After(Start(limit), steps);
    ReachableTenure(limit, steps);
    ErasedIsMember(s, id);
    if Failed(s.clients[id]) {
      NobodyUsesIt(s, id);
    } else {
      var a := CanUseDeadQueue(s, id);
    }
    if !s.clients[id].active {
      ReturnedFailed(s, id);
    }
  }

  lemma ReturnedFailed(s: Server, id: nat)
    requires Inv(s) && TenureInv(s) && id in s.clients && !Departing(s, id) && !s.clients[id].active
    ensures Failed(s.clients[id])
  {
    FailedIsBroken(s.clients[id]);
  }

  lemma ReachesGame(limit: nat, a: seq<Step>, s: Server, n: Server)
    requires Reaches(limit, a, s) && Sound(s) && GameCanMove(s, false) && GameStep(s, false) == n
    ensures Reaches(limit, a + [GAME], n)
  {
    ReachesBy(limit, a, s, GAME, n);
  }

  lemma RemoveBegins(k: Client)
    ensures Begin(Solo(1, k, Free, Calling(Remove(0))), Remove(0)) == Solo(1, k, ByGame, Erasing([0], false))
  {
  }

  lemma RemoveDestroys(k: Client)
    ensures Erase(Solo(1, k, ByGame, Erasing([0], false)), [0], false) == Solo(1, QueueDestroyed(k), ByGame, Unmaking(0, [], false))
  {
    assert [0][1..] == [];
    assert map[0 := k][0 := QueueDestroyed(k)] == map[0 := QueueDestroyed(k)];
  }

  lemma RemoveCalled() returns (a: seq<Step>)
    ensures Reaches(1, a, Solo(1, NewClient(), ByGame, Erasing([0], false)))
  {
    var k := NewClient();
    var s := Solo(1, k, Free, Calling(Remove(0)));
    Connects(1);
    a := [CONNECT, CONNECT, CONNECT];
    ReachesCall(1, a, Solo(1, k, Free, Idle(NoAnswer)), Remove(0));
    a := a + [GameCalls(Remove(0))];
    InvSound(s);
    RemoveBegins(k);
    ReachesGame(1, a, s, Solo(1, k, ByGame, Erasing([0], false)));
    a := a + [GAME];
  }

  /** The only client is removed: its queue goes while its worker still runs. */
  lemma QueueTaken() returns (a: seq<Step>)
    ensures Reaches(1, a, Solo(1, QueueDestroyed(NewClient()), ByGame, Unmaking(0, [], false)))
  {
    var k := NewClient();
    var s := Solo(1, k, ByGame, Erasing([0], false));
    a := RemoveCalled();
    InvSound(s);
    RemoveDestroys(k);
    ReachesGame(1, a, s, Solo(1, QueueDestroyed(k), ByGame, Unmaking(0, [], false)));
    a := a + [GAME];
  }

  /**
   A run in which `removeClient` is called for a connected client that has not failed, and its
   worker goes on to lock the mutex of the destroyed queue.
   */
  lemma DeadQueueRun() returns (a: seq<Step>)
    ensures Legal(Start(1), a) && AllPatient(a)
    ensures 0 in After(Start(1), a).clients && UsesDeadQueue(After(Start(1), a).clients[0])
  {
    var k := QueueDestroyed(NewClient());
    var s := Solo(1, k, ByGame, Unmaking(0, [], false));
    var step := WorkerMoves(0, Io(true, []));
    a := QueueTaken();
    InvSound(s);
    assert s.clients[0] == k;
    ReachesBy(1, a, s, step, Next(s, step));
    assert Next(s, step).clients[0] == k.(pc := Locking);
    a := a + [step];
  }

  // ---------- the program only removes inactive clients ----------

  predicate Sweeping(steps: seq<Step>) {
    forall n :: 0 <= n < |steps| && steps[n].GameCalls? ==> !steps[n].call.Remove?
  }

  predicate SweepInv(s: Server) {
    && (s.game.Calling? ==> !s.game.call.Remove?)
    && (s.game.Erasing? || s.game.Unmaking? || s.game.Joining? ==> s.game.onlyInactive)
    && (forall id :: id in s.clients && s.clients[id].queueGone ==> s.clients[id].pc.Exited?)
  }

  lemma SweepGame(s: Server, expire: bool)
    requires Sound(s) && GameCanMove(s, expire) && Tenured(s.game) && SweepInv(s) && GameInv(s)
    ensures SweepInv(GameStep(s, expire))
  {
    GameTenure(s, expire);
    GameLeaves(s, expire);
  }

  lemma SweepErase(s: Server)
    requires Sound(s) && s.game.Erasing? && SweepInv(s)
    requires forall id :: id in s.clients ==> (s.clients[id].active <==> !s.clients[id].pc.Exited?)
    ensures SweepInv(Erase(s, s.game.todo, s.game.onlyInactive))
  {
  }

  lemma SweepUnmake(s: Server)
    requires Sound(s) && GameCanMove(s, false) && (s.game.Unmaking? || s.game.Joining?) && SweepInv(s)
    ensures SweepInv(GameStep(s, false)) && GameStep(s, true) == GameStep(s, false)
  {
  }

  lemma SweepGameStep(s: Server, expire: bool)
    requires Inv(s) && Sound(s) && GameCanMove(s, expire) && SweepInv(s)
    ensures SweepInv(GameStep(s, expire))
  {
    if Tenured(s.game) {
      SweepGame(s, expire);
    } else if s.game.Erasing? {
      forall id | id in s.clients ensures s.clients[id].active <==> !s.clients[id].pc.Exited? {
        InactiveReturned(s, id);
      }
      SweepErase(s);
    } else {
      SweepUnmake(s);
    }
  }

  lemma SweepOthers(s: Server, step: Step)
    requires IdsInv(s) && Sound(s) && Possible(s, step) && SweepInv(s) && !step.GameMoves?
    requires step.GameCalls? ==> !step.call.Remove?
    ensures SweepInv(Next(s, step))
  {
    if step.WorkerMoves? {
      WorkerTenure(s.clients[step.id], step.io);
    }
  }

  lemma SweepStep(s: Server, step: Step)
    requires Inv(s) && Sound(s) && Possible(s, step) && SweepInv(s) && (step.GameCalls? ==> !step.call.Remove?)
    ensures SweepInv(Next(s, step))
  {
    if step.GameMoves? {
      SweepGameStep(s, step.expire);
    } else {
      SweepOthers(s, step);
    }
  }

  lemma {:induction false} SweepRun(s: Server, steps: seq<Step>)
    requires Inv(s) && SweepInv(s) && Legal(s, steps) && Sweeping(steps)
    ensures Inv(After(s, steps)) && SweepInv(After(s, steps))
    decreases steps
  {
    if steps != [] {
      NextInv(s, steps[0]);
      SweepStep(s, steps[0]);
      assert forall n :: 0 <= n < |steps[1..]| ==> steps[1..][n] == steps[n + 1];
      SweepRun(Next(s, steps[0]), steps[1..]);
    }
  }

  /**
   A run that only ever removes inactive clients, as the program does, never uses a dead queue,
   and never waits for a worker it joins: that has returned already.
   */
  lemma SweepsAreSafe(limit: nat, steps: seq<Step>, id: nat)
    requires Legal(Start(limit), steps) && Sweeping(steps) && id in After(Start(limit), steps).clients
    ensures var s := After(Start(limit), steps);
      !UsesDeadQueue(s.clients[id]) && (s.game.Joining? && s.game.id == id ==> s.clients[id].pc.Exited?)
  {
    StartInv(limit);
    SweepRun(Start(limit), steps);
    SweptFacts(After(Start(limit), steps), id);
  }

  lemma SweptFacts(s: Server, id: nat)
    requires GameInv(s) && SweepInv(s) && id in s.clients
    ensures !UsesDeadQueue(s.clients[id]) && (s.game.Joining? && s.game.id == id ==> s.clients[id].pc.Exited?)
  {
  }
}
