/**
 Transactions that are scheduled and never served (src/connection_client.cpp:19-28): the game
 thread looks at `active`, which a worker that has given up clears only when it returns.
 */
module Stranding {
  import opened Packets
  import opened Connection
  import opened Server
  import opened Runs
  import opened Scripts
  import opened Removal

  lemma PushedFacts(s: Server)
    requires Inv(s) && s.game.HasQueue?
    ensures s.game.InTransit() && Exists(s.clients, s.game.Target()) && s.game.Target().client in s.members
    ensures s.game.Target().tx !in s.clients[s.game.Target().client].pushed
    ensures s.clients[s.game.Target().client].lock.GameThread?
  {
  }

  /** The state right after the push. */
  lemma PushMade(s: Server)
    requires Inv(s) && s.game.HasQueue?
    ensures Sound(s) && GameCanMove(s, false) && Inv(GameStep(s, false)) && s.game.InTransit()
    ensures s.game.Target().client in s.clients
    ensures GameStep(s, false).game.Scheduling? && GameStep(s, false).members == s.members
    ensures var r := s.game.Target();
      && r.client in GameStep(s, false).clients
      && GameStep(s, false).clients[r.client] == QueuePushed(s.clients[r.client], r.tx)
  {
    InvSound(s);
    PushedFacts(s);
    GameStepInv(s, false);
  }

  lemma PushedFailed(k: Client, i: nat)
    ensures Failed(QueuePushed(k, i)) <==> Failed(k)
    ensures i in QueuePushed(k, i).queue
  {
    assert QueuePushed(k, i).queue[|k.queue|] == i;
  }

  lemma QueuedNotAttempted(k: Client, i: nat)
    requires OrderInv(k) && i in k.queue
    ensures i !in k.attempted
  {
    var a :| 0 <= a < |k.queue| && k.queue[a] == i;
    assert k.pushed[k.popped + a] == i;
  }

  lemma NeverAttempted(s: Server, id: nat, i: nat, a: seq<Step>)
    requires Inv(s) && id in s.clients && Failed(s.clients[id]) && i in s.clients[id].queue && Legal(s, a)
    ensures id in After(s, a).clients && i !in After(s, a).clients[id].attempted
  {
    NothingAfterFailure(s, a, id);
    QueuedNotAttempted(s.clients[id], i);
  }

  lemma NobodyAttempts(s: Server, id: nat, i: nat)
    requires Inv(s) && id in s.clients && Failed(s.clients[id]) && i in s.clients[id].queue
    ensures forall a :: Legal(s, a) && id in After(s, a).clients ==> i !in After(s, a).clients[id].attempted
  {
    forall a | Legal(s, a) && id in After(s, a).clients ensures i !in After(s, a).clients[id].attempted {
      NeverAttempted(s, id, i, a);
    }
  }

  lemma SomebodyAttempts(s: Server, id: nat, i: nat)
    requires Inv(s) && TenureInv(s) && id in s.members && id in s.clients && !Failed(s.clients[id])
    requires i in s.clients[id].queue
    requires s.game.Scheduling?
    ensures exists a :: Legal(s, a) && id in After(s, a).clients && i in After(s, a).clients[id].attempted
  {
    FitOrFailed(s, id);
    var a := CanAttempt(s, id, i);
  }

  lemma AttemptedIff(s: Server, id: nat, i: nat)
    requires Inv(s) && TenureInv(s) && id in s.members && id in s.clients && i in s.clients[id].queue
    requires s.game.Scheduling?
    ensures !Failed(s.clients[id]) <==> exists a :: Legal(s, a) && id in After(s, a).clients && i in After(s, a).clients[id].attempted
  {
    if Failed(s.clients[id]) {
      NobodyAttempts(s, id, i);
    } else {
      SomebodyAttempts(s, id, i);
    }
  }

  /**
   In every run, when a transaction is pushed onto a queue: some continuation attempts it if and
   only if the client's last attempt so far was neither a failed write nor got an invalid
   response.
   */
  lemma PushedIsAttempted(limit: nat, steps: seq<Step>)
    requires Legal(Start(limit), steps) && After(Start(limit), steps).game.HasQueue?
    ensures var s := After(Start(limit), steps);
      && Sound(s) && GameCanMove(s, false) && s.game.InTransit() && s.game.Target().client in s.clients
      && var r := s.game.Target(); var n := GameStep(s, false);
      && (!Failed(s.clients[r.client]) <==>
          exists a :: Legal(n, a) && r.client in After(n, a).clients && r.tx in After(n, a).clients[r.client].attempted)
  {
    var s := After(Start(limit), steps);
    ReachableTenure(limit, steps);
    PushMade(s);
    GameStepTenure(s, false);
    PushedFacts(s);
    PushedFailed(s.clients[s.game.Target().client], s.game.Target().tx);
    AttemptedIff(GameStep(s, false), s.game.Target().client, s.game.Target().tx);
  }

  // ---------- a run that strands a transaction ----------

  const MOVE := MoveRequest(0)

  const BAD := Io(false, [])

  /** The write of the first transaction fails ... */
  lemma WriteFails(k: Client)
    requires OrderInv(k) && TableInv(k) && Bounded(k) && k.pc == Writing(0)
    ensures Enabled(k) && var n := WorkerStep(k, BAD);
      && n.pc == Releasing(0, ToStop) && n.active == k.active && n.lock == k.lock && |n.txs| == |k.txs|
      && n.txs[0].state.TIMEOUT? && n.txs[0].signal == k.txs[0].signal && Failed(n)
  {
  }

  /** ... and its signal is released: the worker is about to stop, but still active. */
  lemma FailureReleased(k: Client)
    requires Bounded(k) && k.pc == Releasing(0, ToStop) && Failed(k)
    ensures Enabled(k) && var n := WorkerStep(k, BAD);
      && n.pc.Stopping? && n.active == k.active && n.lock == k.lock && |n.txs| == |k.txs|
      && n.txs[0].state == k.txs[0].state && n.txs[0].signal == k.txs[0].signal + 1 && Failed(n)
  {
  }

  /** One step of the only worker, as badly as can be. */
  lemma BadStep(limit: nat, a: seq<Step>, k: Client, g: GamePc) returns (b: seq<Step>)
    requires Reaches(limit, a, Solo(limit, k, Free, g)) && Bounded(k) && Enabled(k)
    ensures Reaches(limit, b, Solo(limit, WorkerStep(k, BAD), Free, g))
  {
    var s := Solo(limit, k, Free, g);
    InvSound(s);
    assert s.clients[0] == k;
    SoloMoved(limit, k, Free, g, WorkerStep(k, BAD));
    ReachesBy(limit, a, s, WorkerMoves(0, BAD), Solo(limit, WorkerStep(k, BAD), Free, g));
    b := a + [WorkerMoves(0, BAD)];
  }

  /** A run to the release of a transaction whose write failed. */
  lemma FailedRun() returns (a: seq<Step>, k: Client)
    ensures Reaches(1, a, Solo(1, k, Free, Waiting([Ref(0, 0)], 0, 0)))
    ensures k.pc.Stopping? && |k.txs| == 1 && k.txs[0].signal > 0 && k.txs[0].state.TIMEOUT? && Failed(k)
  {
    var f := Fed(NewClient(), 0, MOVE);
    var g := Waiting([Ref(0, 0)], 0, 0);
    a := FirstRequest(1, MOVE);
    FirstIsFit(1, MOVE);
    var s := Solo(1, f, Free, g);
    assert s.clients[0] == f;
    var b;
    b, k := CanWrite(s, 0, 0);
    SoloMoved(1, f, Free, g, k);
    ReachesOn(1, a, s, b, Solo(1, k, Free, g));
    SoloClient(1, k, g);
    WriteFails(k);
    a := BadStep(1, a + b, k, g);
    k := WorkerStep(k, BAD);
    SoloClient(1, k, g);
    FailureReleased(k);
    a := BadStep(1, a, k, g);
    k := WorkerStep(k, BAD);
  }

  /** The run goes on: the signal is taken, and the next request is pushed. */
  lemma NextRequest(a: seq<Step>, k: Client) returns (b: seq<Step>)
    requires Reaches(1, a, Solo(1, k, Free, Waiting([Ref(0, 0)], 0, 0)))
    requires k.pc.Stopping? && |k.txs| == 1 && k.txs[0].signal > 0 && k.txs[0].state.TIMEOUT?
    ensures Reaches(1, b, Solo(1, Fed(Dropped(Acquired(k, 0), 1), 1, MOVE), Free, Waiting([Ref(0, 1)], 0, 0)))
  {
    var k1 := Acquired(k, 0);
    var call := Broadcast(1, MOVE);
    var idle := Idle(Counted([Ref(0, 0)], 0));
    var c := SoloTakes(1, k, 0, 0);
    ReachesOn(1, a, Solo(1, k, Free, Waiting([Ref(0, 0)], 0, 0)), c, Solo(1, k1, Free, idle));
    ReachesCall(1, a + c, Solo(1, k1, Free, idle), call);
    SoloClient(1, k1, Calling(call));
    var d := Feeds(1, k1, call);
    ReachesOn(1, a + c + [GameCalls(call)], Solo(1, k1, Free, Calling(call)), d,
              Solo(1, Fed(Dropped(k1, 1), 1, MOVE), Free, Waiting([Ref(0, 1)], 0, 0)));
    b := a + c + [GameCalls(call)] + d;
  }

  lemma StillFailed(k: Client)
    requires Failed(k) && |k.txs| == 1 && k.txs[0].signal > 0
    ensures var f := Fed(Dropped(Acquired(k, 0), 1), 1, MOVE); Failed(f) && 1 in f.queue
  {
    var f := Fed(Dropped(Acquired(k, 0), 1), 1, MOVE);
    assert f.queue[|k.queue|] == 1;
  }

  /**
   Scheduled, queued and stranded: a run without expiries in which the write of a first
   transaction fails and a second is pushed before the worker returns. By `StrandedForever` it
   stays SCHEDULED in every continuation.
   */
  lemma StrandingRun() returns (a: seq<Step>)
    ensures Legal(Start(1), a) && AllPatient(a) && Inv(After(Start(1), a))
    ensures Exists(After(Start(1), a).clients, Ref(0, 1))
    ensures 1 in After(Start(1), a).clients[0].queue && Deaf(After(Start(1), a).clients[0])
  {
    var k;
    a, k := FailedRun();
    a := NextRequest(a, k);
    StillFailed(k);
  }
}
