/**
 The whole program (src/amgame.cpp over src/connection_server.cpp): the game thread runs a
 match through the server, one packet at a time, while workers and the acceptor go their own
 way. No wait expires; everything else is as free as in `Server`.
 */
module EndToEnd {
  import W = World
  import opened Packets
  import opened Connection
  import opened S = Server
  import opened Runs
  import opened Lifetime
  import M = Match

  /** Where the game thread is between its calls into the server. */
  datatype Flow =
    | Menu
    | Purging
    | Boundary
    | Listing
    | Asking(roster: seq<nat>, answered: seq<bool>, inCall: bool)
    | Streaming(outbox: seq<Packet>, inCall: bool)

  /**
   `sent` are the packets of the stages already closed, `log` everything broadcast so far, and
   `joined` says for each client how many broadcasts it had missed when it was inserted.
   */
  datatype System = System(srv: S.Server, m: M.Match, sent: seq<Packet>, log: seq<Packet>, flow: Flow, joined: map<nat, nat>)

  const CLIENT_LIMIT := 8

  function Boot(): System {
    System(Start(CLIENT_LIMIT), M.Fresh(), [], [], Menu, map[])
  }

  datatype Action =
    | Elsewhere(step: Step)
    | NewMatch
    | Purged
    | StartUpdate
    | RosterRead
    | Ask(owner: nat)
    | AskDone
    | SeatAll(playersAt: seq<W.Position>, foodAt: seq<W.Position>)
    | Send(owner: nat)
    | SendDone
    | CloseStage(steps: seq<W.Physics>)
    | Finish

  predicate Wellformed(x: System) {
    Sound(x.srv) && M.WellFormed(x.m) && M.Announceable(x.m)
  }

  predicate Legitimate(x: System, a: Action)
    requires Wellformed(x)
  {
    match a
    case Elsewhere(step) => !step.GameCalls? && Possible(x.srv, step) && Patient(step)
    case NewMatch => x.flow.Menu? && x.srv.game.Idle?
    case Purged => x.flow.Purging? && x.srv.game.Idle?
    case StartUpdate => x.flow.Boundary? && x.srv.game.Idle?
    case RosterRead => x.flow.Listing? && x.srv.game.Idle? && x.srv.game.answer.Roster?
    case Ask(_) => x.flow.Asking? && !x.flow.inCall && |x.flow.answered| < |x.flow.roster| && x.srv.game.Idle?
    case AskDone => x.flow.Asking? && x.flow.inCall && x.srv.game.Idle? && x.srv.game.answer.Counted?
    case SeatAll(playersAt, foodAt) =>
      && x.flow.Asking? && !x.flow.inCall && |x.flow.answered| == |x.flow.roster| && x.m.phase.NewGame?
      && |playersAt| == |x.m.players| + |M.Answering(x.flow.roster, x.flow.answered)|
      && |foodAt| == M.FOOD_PER_PLAYER * |playersAt|
    case Send(_) => x.flow.Streaming? && !x.flow.inCall && x.flow.outbox != [] && x.srv.game.Idle?
    case SendDone => x.flow.Streaming? && x.flow.inCall && x.srv.game.Idle?
    case CloseStage(steps) => x.flow.Streaming? && !x.flow.inCall && x.flow.outbox == [] && M.Plausible(x.m, steps)
    case Finish => x.flow.Boundary?
  }

  function Issue(x: System, call: Call): System {
    x.(srv := x.srv.(game := Calling(call)))
  }

  /** An update ends at the end of its stage, except that a MOVE goes on to announce the deaths. */
  function Resume(m: M.Match): Flow
    requires M.WellFormed(m) && M.Announceable(m)
  {
    if m.phase.Announce? then Streaming(M.Open(m), false) else Boundary
  }

  function Invitation(x: System): Packet
    requires x.flow.Asking?
  {
    NewGameRequest(|x.flow.answered| % 0x100, |x.flow.roster| % 0x100)
  }

  function Act(x: System, a: Action): System
    requires Wellformed(x) && Legitimate(x, a)
  {
    match a
    case Elsewhere(step) => Gone(x, Next(x.srv, step))
    case NewMatch => Issue(x.(flow := Purging), RemoveInactive)
    case Purged => x.(flow := Boundary, m := x.m.(phase := M.NewGame))
    case StartUpdate =>
      if x.m.phase.NewGame? then Issue(x.(flow := Listing), Snapshot)
      else x.(flow := Streaming(M.Open(x.m), false))
    case RosterRead => x.(flow := Asking(x.srv.game.answer.ids, [], false))
    case Ask(owner) =>
      Issue(x.(flow := Asking(x.flow.roster, x.flow.answered, true)),
            Single(x.flow.roster[|x.flow.answered|], owner, Invitation(x)))
    case AskDone => x.(flow := Asking(x.flow.roster, x.flow.answered + [x.srv.game.answer.count == 1], false))
    case SeatAll(playersAt, foodAt) =>
      x.(flow := Boundary, m := M.SetUp(x.m, x.flow.roster, x.flow.answered, playersAt, foodAt))
    case Send(owner) =>
      Issue(x.(flow := Streaming(x.flow.outbox[1..], true), log := x.log + [x.flow.outbox[0]]),
            Broadcast(owner, x.flow.outbox[0]))
    case SendDone => x.(flow := Streaming(x.flow.outbox, false))
    case CloseStage(steps) =>
      var n := M.Close(x.m, steps);
      x.(m := n, sent := x.sent + M.Open(x.m), flow := Resume(n))
    case Finish => x.(m := x.m.(phase := M.GameOver))
  }

  // ---------- what clients have been sent ----------

  /** Everything queued for a client so far, in order. */
  function Requests(k: Client): seq<Packet>
    requires OrderInv(k)
  {
    seq(|k.pushed|, n requires 0 <= n < |k.pushed| && k.pushed[n] < |k.txs| => k.txs[k.pushed[n]].request)
  }

  /** All but the NEW_GAME requests. */
  function Broadcasts(ps: seq<Packet>): seq<Packet> {
    if ps == [] then []
    else
      var last := ps[|ps| - 1];
      Broadcasts(ps[..|ps| - 1]) + if last.NewGameRequest? then [] else [last]
  }

  /** The current broadcast has not reached client `c` yet. */
  predicate Behind(g: GamePc, c: nat) {
    match g
    case Calling(call) => call.Broadcast?
    case Scheduling(job) => c in job.todo
    case Emplaced(job) => c in job.todo || (g.InTransit() && g.Target().client == c)
    case WantsQueue(job) => c in job.todo || (g.InTransit() && g.Target().client == c)
    case HasQueue(job) => c in job.todo || (g.InTransit() && g.Target().client == c)
    case _ => false
  }

  /** What client `c` has been sent by now. */
  function Due(x: System, c: nat): seq<Packet> {
    if x.flow.Streaming? && x.flow.inCall && x.log != [] && Behind(x.srv.game, c) then x.log[..|x.log| - 1] else x.log
  }

  /** The server went on to `n` by itself; a client it let in has missed what is not due to it. */
  function Gone(x: System, n: S.Server): System {
    x.(srv := n, joined := if n.nextId > x.srv.nextId then x.joined[x.srv.nextId := |Due(x, x.srv.nextId)|] else x.joined)
  }

  // ---------- the invariant ----------

  /** The server is busy with the broadcast of `p`, or done with it. */
  predicate Carries(g: GamePc, p: Packet) {
    match g
    case Idle(_) => true
    case Calling(call) => call.Broadcast? && call.request == p
    case Scheduling(job) => job.request == p
    case Emplaced(job) => job.request == p
    case WantsQueue(job) => job.request == p
    case HasQueue(job) => job.request == p
    case Waiting(_, _, _) => true
    case Judging(_, _, _) => true
    case _ => false
  }

  predicate OnlyTo(batch: seq<Ref>, id: nat) {
    forall m :: 0 <= m < |batch| ==> batch[m].client == id
  }

  predicate JobOnlyTo(job: Job, id: nat) {
    job.request.NewGameRequest? && OnlyTo(job.batch, id) && forall t :: t in job.todo ==> t == id
  }

  /** The server is busy inviting client `id`, or done with it. */
  predicate Invites(g: GamePc, id: nat) {
    match g
    case Idle(answer) => answer.Counted? && OnlyTo(answer.batch, id)
    case Calling(call) => call.Single? && call.id == id && call.request.NewGameRequest?
    case Scheduling(job) => JobOnlyTo(job, id)
    case Emplaced(job) => JobOnlyTo(job, id)
    case WantsQueue(job) => JobOnlyTo(job, id)
    case HasQueue(job) => JobOnlyTo(job, id)
    case Waiting(batch, _, _) => OnlyTo(batch, id)
    case Judging(batch, _, _) => OnlyTo(batch, id)
    case Thrown => true
    case _ => false
  }

  predicate FlowInv(x: System) {
    match x.flow
    case Menu => x.srv.game.Idle? && x.m.phase.MainMenu?
    case Purging =>
      && x.m.phase.MainMenu?
      && (x.srv.game == Calling(RemoveInactive)
          || x.srv.game.Idle? || x.srv.game.Erasing? || x.srv.game.Unmaking? || x.srv.game.Joining?)
    case Boundary => x.srv.game.Idle? && !x.m.phase.MainMenu? && !x.m.phase.Announce?
    case Listing =>
      && x.m.phase.NewGame?
      && (x.srv.game == Calling(Snapshot)
          || (x.srv.game.Idle? && x.srv.game.answer.Roster? && |x.srv.game.answer.ids| <= CLIENT_LIMIT))
    case Asking(roster, answered, inCall) =>
      && x.m.phase.NewGame? && |answered| <= |roster| <= CLIENT_LIMIT
      && (if inCall then |answered| < |roster| && Invites(x.srv.game, roster[|answered|]) else x.srv.game.Idle?)
    case Streaming(_, inCall) =>
      && !x.m.phase.MainMenu? && !x.m.phase.NewGame?
      && (if inCall then x.log != [] && Carries(x.srv.game, x.log[|x.log| - 1]) else x.srv.game.Idle?)
  }

  predicate LogInv(x: System)
    requires M.WellFormed(x.m) && M.Announceable(x.m)
  {
    if x.flow.Streaming? then
      && x.log + x.flow.outbox == x.sent + M.Open(x.m)
      && |x.sent| <= |x.log| && (x.flow.inCall ==> |x.sent| < |x.log|)
    else
      x.log == x.sent
  }

  predicate BeforeMatch(m: M.Match) {
    m.phase.MainMenu? || m.phase.NewGame?
  }

  /** What a client was sent is what is due to it, from its insertion on. */
  predicate UpToDate(x: System, c: nat, ps: seq<Packet>) {
    c in x.joined && x.joined[c] <= |Due(x, c)| && ps == Due(x, c)[x.joined[c]..]
  }

  predicate Ordered(s: S.Server) {
    forall c :: c in s.clients ==> OrderInv(s.clients[c])
  }

  /** Every client whose worker has not returned has been sent exactly what was broadcast since it was inserted. */
  ghost predicate HeardInv(x: System)
    requires Ordered(x.srv)
  {
    && x.joined.Keys == x.srv.clients.Keys
    && (BeforeMatch(x.m) ==> x.log == [] && forall c :: c in x.joined ==> x.joined[c] == 0)
    && (forall c :: c in x.srv.clients ==> HeardBy(x, c, x.srv.clients[c]))
  }

  /** What client `c`, being `k`, was sent is right: nothing before the match, and all that is due. */
  predicate HeardBy(x: System, c: nat, k: Client)
    requires OrderInv(k)
  {
    && (BeforeMatch(x.m) ==> Broadcasts(Requests(k)) == [])
    && (!k.pc.Exited? ==> UpToDate(x, c, Broadcasts(Requests(k))))
  }

  ghost predicate SystemInv(x: System) {
    && Inv(x.srv) && PatientInv(x.srv) && x.srv.limit == CLIENT_LIMIT
    && M.Inv(x.m, x.sent)
    && FlowInv(x) && LogInv(x) && HeardInv(x)
  }

  lemma BootInv()
    ensures SystemInv(Boot())
  {
    StartInv(CLIENT_LIMIT);
    StartPatient(CLIENT_LIMIT);
    M.FreshInv();
  }

  lemma BroadcastsMore(ps: seq<Packet>, p: Packet)
    ensures Broadcasts(ps + [p]) == Broadcasts(ps) + if p.NewGameRequest? then [] else [p]
  {
    assert (ps + [p])[..|ps|] == ps;
  }

  // ---------- steps elsewhere ----------

  /** Nothing was queued for the client, and its worker is where it was. */
  predicate SameRequests(k: Client, n: Client) {
    && n.pushed == k.pushed && |k.txs| <= |n.txs|
    && (forall i :: 0 <= i < |k.txs| ==> n.txs[i].request == k.txs[i].request)
    && (k.pc.Exited? ==> n.pc.Exited?)
  }

  lemma RequestsKept(k: Client, n: Client)
    requires OrderInv(k) && OrderInv(n) && SameRequests(k, n)
    ensures Requests(n) == Requests(k)
  {
  }

  lemma RequestsPushed(k: Client, i: nat)
    requires OrderInv(k) && OrderInv(QueuePushed(k, i)) && i < |k.txs|
    ensures Requests(QueuePushed(k, i)) == Requests(k) + [k.txs[i].request]
  {
  }

  /** What `HeardInv` needs of a step that queues nothing. */
  ghost predicate Unheard(x: System, y: System) {
    && y.m == x.m && y.log == x.log && y.flow == x.flow
    && y.joined.Keys == y.srv.clients.Keys
    && (forall c :: c in x.joined && c in y.joined ==> y.joined[c] == x.joined[c])
    && (forall c :: c in x.srv.clients ==> c in y.srv.clients && SameRequests(x.srv.clients[c], y.srv.clients[c]))
    && (forall c :: c in y.srv.clients && c !in x.srv.clients ==> y.joined[c] == |Due(y, c)| && y.srv.clients[c].pushed == [])
    && (forall c :: c in x.srv.clients && !y.srv.clients[c].pc.Exited? ==> Due(y, c) == Due(x, c))
  }

  lemma HeardKeptBy(x: System, y: System, c: nat)
    requires Ordered(x.srv) && Ordered(y.srv) && HeardInv(x) && Unheard(x, y) && c in y.srv.clients
    ensures HeardBy(y, c, y.srv.clients[c])
  {
    if c in x.srv.clients {
      RequestsKept(x.srv.clients[c], y.srv.clients[c]);
      if !y.srv.clients[c].pc.Exited? {
        SameDue(x, y, c, Broadcasts(Requests(x.srv.clients[c])));
      }
    } else {
      assert Requests(y.srv.clients[c]) == [];
      NothingDue(y, c);
    }
  }

  lemma HeardKept(x: System, y: System)
    requires Ordered(x.srv) && Ordered(y.srv) && HeardInv(x) && Unheard(x, y)
    ensures HeardInv(y)
  {
    forall c | c in y.srv.clients ensures HeardBy(y, c, y.srv.clients[c]) {
      HeardKeptBy(x, y, c);
    }
  }

  lemma SameDue(x: System, y: System, c: nat, ps: seq<Packet>)
    requires Due(y, c) == Due(x, c) && c in x.joined && c in y.joined && y.joined[c] == x.joined[c]
    ensures UpToDate(y, c, ps) <==> UpToDate(x, c, ps)
  {
  }

  lemma SameHearing(x: System, y: System, c: nat, k: Client)
    requires OrderInv(k) && HeardBy(x, c, k) && (BeforeMatch(y.m) ==> BeforeMatch(x.m))
    requires y.joined == x.joined && Due(y, c) == Due(x, c)
    ensures HeardBy(y, c, k)
  {
    if c in x.joined {
      SameDue(x, y, c, Broadcasts(Requests(k)));
    }
  }

  /** A client that has just joined has missed everything so far. */
  lemma NothingDue(x: System, c: nat)
    requires c in x.joined && x.joined[c] == |Due(x, c)|
    ensures UpToDate(x, c, [])
  {
  }

  lemma WorkerQueuesNothing(k: Client, io: Io)
    requires ClientInv(k) && Bounded(k) && Enabled(k)
    ensures SameRequests(k, WorkerStep(k, io))
  {
    WorkerEvolves(k, io);
  }

  /** The game thread did not move, and nobody joined. */
  lemma UnheardElsewhere(x: System, n: S.Server)
    requires n.game == x.srv.game && n.nextId == x.srv.nextId && n.clients.Keys == x.srv.clients.Keys
    requires x.joined.Keys == x.srv.clients.Keys
    requires forall c :: c in x.srv.clients ==> SameRequests(x.srv.clients[c], n.clients[c])
    ensures Unheard(x, Gone(x, n))
  {
  }

  lemma WorkerUnheard(x: System, id: nat, io: Io)
    requires id in x.srv.clients && Bounded(x.srv.clients[id]) && Enabled(x.srv.clients[id])
    requires SameRequests(x.srv.clients[id], WorkerStep(x.srv.clients[id], io)) && x.joined.Keys == x.srv.clients.Keys
    ensures Unheard(x, Gone(x, x.srv.(clients := x.srv.clients[id := WorkerStep(x.srv.clients[id], io)])))
  {
    UnheardElsewhere(x, x.srv.(clients := x.srv.clients[id := WorkerStep(x.srv.clients[id], io)]));
  }

  lemma DestroyUnheard(x: System, owner: nat)
    requires x.joined.Keys == x.srv.clients.Keys
    ensures Unheard(x, Gone(x, x.srv.(clients := DroppedAll(x.srv.clients, owner))))
  {
    UnheardElsewhere(x, x.srv.(clients := DroppedAll(x.srv.clients, owner)));
  }

  /** A client joins. */
  lemma InsertUnheard(x: System, n: S.Server)
    requires x.srv.nextId !in x.srv.clients && x.joined.Keys == x.srv.clients.Keys
    requires n.game == x.srv.game && n.nextId == x.srv.nextId + 1
    requires n.clients == x.srv.clients[x.srv.nextId := NewClient()]
    ensures Unheard(x, Gone(x, n))
  {
    var y := Gone(x, n);
    assert forall c: nat :: Due(y, c) == Due(x, c);
  }

  lemma AcceptorUnheard(x: System, connection: bool, accepting: bool)
    requires IdsInv(x.srv) && !x.srv.acceptor.AcceptFailed? && x.joined.Keys == x.srv.clients.Keys
    ensures Unheard(x, Gone(x, AcceptorStep(x.srv, connection, accepting)))
  {
    if x.srv.acceptor.Inserting? {
      InsertUnheard(x, AcceptorStep(x.srv, connection, accepting));
    } else {
      UnheardElsewhere(x, AcceptorStep(x.srv, connection, accepting));
    }
  }

  // The game thread's own steps inside the server.

  ghost predicate QueuesNothing(s: S.Server, n: S.Server) {
    n.clients.Keys == s.clients.Keys && n.nextId == s.nextId
    && forall c :: c in s.clients ==> SameRequests(s.clients[c], n.clients[c])
  }

  lemma EnqueueQuiet(s: S.Server)
    requires (s.game.Emplaced? || s.game.WantsQueue?) && s.game.InTransit() && Exists(s.clients, s.game.Target())
    ensures QueuesNothing(s, Enqueue(s))
  {
  }

  lemma WaitQuiet(s: S.Server)
    requires s.game.Waiting? && Sound(s) && GameCanMove(s, false)
    ensures QueuesNothing(s, Wait(s, s.game.batch, s.game.next, s.game.count, false))
  {
  }

  lemma ScheduleQuiet(s: S.Server, job: Job)
    requires job.todo != [] ==> job.todo[0] in s.clients
    ensures QueuesNothing(s, Schedule(s, job))
  {
  }

  lemma BeginQuiet(s: S.Server, call: Call)
    ensures QueuesNothing(s, Begin(s, call))
  {
  }

  lemma EraseQuiet(s: S.Server, todo: seq<nat>, onlyInactive: bool)
    requires todo != [] ==> todo[0] in s.clients
    ensures QueuesNothing(s, Erase(s, todo, onlyInactive))
  {
  }

  lemma GameQuiet(s: S.Server)
    requires Sound(s) && GameCanMove(s, false) && !s.game.HasQueue?
    ensures QueuesNothing(s, GameStep(s, false))
  {
    match s.game
    case Calling(call) => BeginQuiet(s, call);
    case Erasing(todo, onlyInactive) => EraseQuiet(s, todo, onlyInactive);
    case Scheduling(job) => ScheduleQuiet(s, job);
    case Emplaced(_) => EnqueueQuiet(s);
    case WantsQueue(_) => EnqueueQuiet(s);
    case Waiting(_, _, _) => WaitQuiet(s);
    case _ =>
  }

  lemma BehindBegin(s: S.Server, owner: nat, request: Packet, c: nat)
    requires IdsInv(s) && c in s.clients && !s.clients[c].pc.Exited?
    ensures Behind(Begin(s, Broadcast(owner, request)).game, c)
  {
    assert c in s.members && c < s.nextId;
  }

  lemma BehindSchedule(s: S.Server, job: Job, c: nat)
    requires job.todo != [] ==> job.todo[0] in s.clients
    requires c in s.clients && (s.clients[c].active <==> !s.clients[c].pc.Exited?) && !s.clients[c].pc.Exited?
    ensures Behind(Schedule(s, job).game, c) <==> c in job.todo
  {
    if job.todo != [] {
      assert job.todo == [job.todo[0]] + job.todo[1..];
    }
  }

  lemma BehindEnqueue(s: S.Server, c: nat)
    requires (s.game.Emplaced? || s.game.WantsQueue?) && s.game.InTransit() && Exists(s.clients, s.game.Target())
    requires c in s.clients && (s.clients[c].active <==> !s.clients[c].pc.Exited?) && !s.clients[c].pc.Exited?
    ensures Behind(Enqueue(s).game, c) == Behind(s.game, c)
  {
  }

  /** A client that the broadcast still has to reach stays so until its request is in its queue. */
  lemma BehindKept(s: S.Server, c: nat)
    requires IdsInv(s) && Sound(s) && GameCanMove(s, false) && !s.game.HasQueue?
    requires s.game.Calling? ==> s.game.call.Broadcast?
    requires c in s.clients && (s.clients[c].active <==> !s.clients[c].pc.Exited?) && !s.clients[c].pc.Exited?
    ensures Behind(GameStep(s, false).game, c) == Behind(s.game, c)
  {
    match s.game
    case Calling(call) => BehindBegin(s, call.owner, call.request, c);
    case Scheduling(job) => BehindSchedule(s, job, c);
    case Emplaced(_) => BehindEnqueue(s, c);
    case WantsQueue(_) => BehindEnqueue(s, c);
    case _ =>
  }

  lemma GameUnheard(x: System)
    requires FlowInv(x) && IdsInv(x.srv) && Sound(x.srv) && GameCanMove(x.srv, false) && !x.srv.game.HasQueue?
    requires x.joined.Keys == x.srv.clients.Keys
    requires forall c :: c in x.srv.clients ==> (x.srv.clients[c].active <==> !x.srv.clients[c].pc.Exited?)
    ensures Unheard(x, x.(srv := GameStep(x.srv, false)))
  {
    var n := GameStep(x.srv, false);
    GameQuiet(x.srv);
    forall c | c in x.srv.clients && !n.clients[c].pc.Exited? ensures Due(x.(srv := n), c) == Due(x, c) {
      if x.flow.Streaming? && x.flow.inCall {
        assert !x.srv.clients[c].pc.Exited?;
        BehindKept(x.srv, c);
      }
    }
  }

  lemma GameHeard(x: System)
    requires Inv(x.srv) && HeardInv(x) && FlowInv(x) && Sound(x.srv) && GameCanMove(x.srv, false)
    requires !x.srv.game.HasQueue?
    requires ClientsInv(GameStep(x.srv, false))
    ensures HeardInv(x.(srv := GameStep(x.srv, false)))
  {
    forall c | c in x.srv.clients ensures x.srv.clients[c].active <==> !x.srv.clients[c].pc.Exited? {
      InactiveReturned(x.srv, c);
    }
    GameUnheard(x);
    HeardKept(x, x.(srv := GameStep(x.srv, false)));
  }

  // The moment a request enters a queue.

  lemma NotTwice(s: S.Server)
    requires s.game.HasQueue? && s.game.InTransit() && JobInv(s, s.game.job)
    ensures s.game.Target().client !in s.game.job.todo
    ensures Exists(s.clients, s.game.Target()) && TxOf(s.clients, s.game.Target()).request == s.game.job.request
  {
  }

  lemma DueBefore(x: System)
    requires x.flow.Streaming? && x.flow.inCall && x.log != [] && x.srv.game.HasQueue? && x.srv.game.InTransit()
    ensures Due(x, x.srv.game.Target().client) == x.log[..|x.log| - 1]
  {
  }

  lemma DueAfter(x: System, y: System)
    requires x.srv.game.HasQueue? && x.srv.game.InTransit() && x.srv.game.Target().client !in x.srv.game.job.todo
    requires y == x.(srv := y.srv) && y.srv.game == Scheduling(x.srv.game.job)
    ensures Due(y, x.srv.game.Target().client) == x.log
  {
  }

  lemma PushedTarget(x: System, y: System, k: Client, n: Client)
    requires x.flow.Streaming? && x.flow.inCall && x.log != [] && x.srv.game.HasQueue? && x.srv.game.InTransit()
    requires y == x.(srv := y.srv) && y.srv.game == Scheduling(x.srv.game.job)
    requires x.srv.game.Target().client !in x.srv.game.job.todo
    requires var p := x.log[|x.log| - 1]; OrderInv(k) && OrderInv(n) && Requests(n) == Requests(k) + [p] && !p.NewGameRequest?
    requires UpToDate(x, x.srv.game.Target().client, Broadcasts(Requests(k)))
    ensures UpToDate(y, x.srv.game.Target().client, Broadcasts(Requests(n)))
  {
    DueBefore(x);
    DueAfter(x, y);
    assert x.log == x.log[..|x.log| - 1] + [x.log[|x.log| - 1]];
    BroadcastsMore(Requests(k), x.log[|x.log| - 1]);
    UpToDateMore(x, y, x.srv.game.Target().client, Broadcasts(Requests(k)), x.log[|x.log| - 1]);
  }

  lemma UpToDateMore(x: System, y: System, c: nat, ps: seq<Packet>, p: Packet)
    requires UpToDate(x, c, ps) && Due(y, c) == Due(x, c) + [p] && y.joined == x.joined
    ensures UpToDate(y, c, ps + [p])
  {
  }

  lemma PushedOthers(x: System, y: System, c: nat)
    requires x.srv.game.HasQueue? && x.srv.game.InTransit() && c != x.srv.game.Target().client
    requires y == x.(srv := y.srv) && y.srv.game == Scheduling(x.srv.game.job)
    ensures Due(y, c) == Due(x, c)
  {
  }

  lemma PushInvited(k: Client, n: Client, p: Packet)
    requires OrderInv(k) && OrderInv(n) && Requests(n) == Requests(k) + [p] && p.NewGameRequest?
    ensures Broadcasts(Requests(n)) == Broadcasts(Requests(k))
  {
    BroadcastsMore(Requests(k), p);
  }

  /** One client was sent something, and what it was sent is right again. */
  lemma OneHeard(x: System, y: System, d: nat, n: Client)
    requires Ordered(x.srv) && Ordered(y.srv) && OrderInv(n) && HeardInv(x) && d in x.srv.clients
    requires y == x.(srv := y.srv)
    requires y.srv.nextId == x.srv.nextId && y.srv.clients == x.srv.clients[d := n]
    requires forall c :: c in x.srv.clients && c != d ==> Due(y, c) == Due(x, c)
    requires HeardBy(y, d, n)
    ensures HeardInv(y)
  {
    forall c | c in y.srv.clients ensures HeardBy(y, c, y.srv.clients[c]) {
      if c != d {
        SameHearing(x, y, c, x.srv.clients[c]);
      }
    }
  }

  lemma PushStreamed(x: System)
    requires ClientsInv(x.srv) && Sound(x.srv) && HeardInv(x) && x.srv.game.HasQueue? && JobInv(x.srv, x.srv.game.job)
    requires x.flow.Streaming? && x.flow.inCall && x.log != [] && !BeforeMatch(x.m)
    requires x.srv.game.job.request == x.log[|x.log| - 1] && !x.log[|x.log| - 1].NewGameRequest?
    requires ClientsInv(Enqueue(x.srv))
    ensures HeardInv(x.(srv := Enqueue(x.srv)))
  {
    var y := x.(srv := Enqueue(x.srv));
    var r := x.srv.game.Target();
    var k := x.srv.clients[r.client];
    var n := QueuePushed(k, r.tx);
    assert y.srv.clients[r.client] == n;
    NotTwice(x.srv);
    RequestsPushed(k, r.tx);
    if !k.pc.Exited? {
      PushedTarget(x, y, k, n);
    }
    forall c | c != r.client ensures Due(y, c) == Due(x, c) {
      PushedOthers(x, y, c);
    }
    OneHeard(x, y, r.client, n);
  }

  lemma PushAsked(x: System)
    requires ClientsInv(x.srv) && Sound(x.srv) && HeardInv(x) && x.srv.game.HasQueue? && JobInv(x.srv, x.srv.game.job)
    requires BeforeMatch(x.m) && x.srv.game.job.request.NewGameRequest? && !x.flow.Streaming?
    requires ClientsInv(Enqueue(x.srv))
    ensures HeardInv(x.(srv := Enqueue(x.srv)))
  {
    var y := x.(srv := Enqueue(x.srv));
    var r := x.srv.game.Target();
    var k := x.srv.clients[r.client];
    var n := QueuePushed(k, r.tx);
    assert y.srv.clients[r.client] == n;
    NotTwice(x.srv);
    RequestsPushed(k, r.tx);
    PushInvited(k, n, x.srv.game.job.request);
    SameDue(x, y, r.client, Broadcasts(Requests(k)));
    forall c | c != r.client ensures Due(y, c) == Due(x, c) {
      PushedOthers(x, y, c);
    }
    OneHeard(x, y, r.client, n);
  }

  /** Requests are queued only while a packet is broadcast or a client is invited. */
  predicate Queueing(x: System, job: Job) {
    if x.flow.Streaming? then
      x.flow.inCall && x.log != [] && !BeforeMatch(x.m) && job.request == x.log[|x.log| - 1] && !job.request.NewGameRequest?
    else
      BeforeMatch(x.m) && job.request.NewGameRequest?
  }

  lemma FlowQueueing(x: System)
    requires FlowInv(x) && x.srv.game.HasQueue?
    requires x.flow.Streaming? && x.flow.inCall && x.log != [] ==> !x.log[|x.log| - 1].NewGameRequest?
    ensures Queueing(x, x.srv.game.job)
  {
  }

  lemma PushHeard(x: System)
    requires ClientsInv(x.srv) && Sound(x.srv) && HeardInv(x)
    requires x.srv.game.HasQueue? && JobInv(x.srv, x.srv.game.job) && Queueing(x, x.srv.game.job)
    requires ClientsInv(Enqueue(x.srv))
    ensures HeardInv(x.(srv := Enqueue(x.srv)))
  {
    if x.flow.Streaming? {
      PushStreamed(x);
    } else {
      PushAsked(x);
    }
  }

  // ---------- where the game thread is ----------

  lemma CarriesOn(s: S.Server, p: Packet)
    requires Carries(s.game, p) && Sound(s) && GameCanMove(s, false)
    ensures Carries(GameStep(s, false).game, p)
  {
  }

  lemma InvitesBegin(s: S.Server, id: nat, owner: nat, request: Packet)
    requires request.NewGameRequest?
    ensures Invites(Begin(s, Single(id, owner, request)).game, id)
  {
  }

  lemma InvitesSchedule(s: S.Server, id: nat, job: Job)
    requires JobOnlyTo(job, id) && (job.todo != [] ==> job.todo[0] in s.clients)
    ensures Invites(Schedule(s, job).game, id)
  {
    if job.todo != [] {
      assert job.todo[0] in job.todo;
      assert forall t :: t in job.todo[1..] ==> t in job.todo;
    }
  }

  lemma InvitesOn(s: S.Server, id: nat)
    requires Invites(s.game, id) && Sound(s) && GameCanMove(s, false)
    ensures Invites(GameStep(s, false).game, id)
  {
    match s.game
    case Calling(call) => InvitesBegin(s, id, call.owner, call.request);
    case Scheduling(job) => InvitesSchedule(s, id, job);
    case _ =>
  }

  lemma {:induction false} FewIds(members: set<nat>, n: nat)
    ensures |Ids(members, n)| <= |members|
    decreases n
  {
    if n > 0 {
      if n - 1 in members {
        FewIds(members - {n - 1}, n - 1);
        SameIds(members, members - {n - 1}, n - 1);
      } else {
        FewIds(members, n - 1);
      }
    }
  }

  lemma {:induction false} SameIds(a: set<nat>, b: set<nat>, n: nat)
    requires forall id :: id < n ==> (id in a <==> id in b)
    ensures Ids(a, n) == Ids(b, n)
    decreases n
  {
    if n > 0 {
      SameIds(a, b, n - 1);
    }
  }

  lemma GameFlow(x: System)
    requires FlowInv(x) && Sound(x.srv) && GameCanMove(x.srv, false) && |x.srv.members| <= CLIENT_LIMIT
    ensures FlowInv(x.(srv := GameStep(x.srv, false)))
  {
    match x.flow
    case Asking(roster, answered, true) => InvitesOn(x.srv, roster[|answered|]);
    case Streaming(_, true) => CarriesOn(x.srv, x.log[|x.log| - 1]);
    case Listing => FewIds(x.srv.members, x.srv.nextId);
    case _ =>
  }

  /** Only a MOVE stage sends MOVE requests, and no stage broadcasts NEW_GAME. */
  lemma OpenKinds(m: M.Match, i: nat)
    requires M.WellFormed(m) && M.Announceable(m) && i < |M.Open(m)|
    ensures !M.Open(m)[i].NewGameRequest?
    ensures M.Open(m)[i].MoveRequest? <==> m.phase.Move?
  {
  }

  /** The packet in flight belongs to the open stage. */
  lemma InFlight(x: System)
    requires M.WellFormed(x.m) && M.Announceable(x.m) && LogInv(x) && x.flow.Streaming? && x.flow.inCall
    ensures |x.sent| < |x.log| && |x.log| - |x.sent| - 1 < |M.Open(x.m)|
    ensures x.log[|x.log| - 1] == M.Open(x.m)[|x.log| - |x.sent| - 1]
    ensures x.log[..|x.sent|] == x.sent
  {
    var all := x.sent + M.Open(x.m);
    assert x.log + x.flow.outbox == all;
    assert x.log[|x.log| - 1] == (x.log + x.flow.outbox)[|x.log| - 1] == all[|x.log| - 1];
    assert x.log[..|x.sent|] == (x.log + x.flow.outbox)[..|x.sent|] == all[..|x.sent|];
  }

  lemma InFlightKind(x: System)
    requires M.WellFormed(x.m) && M.Announceable(x.m) && LogInv(x)
    ensures x.flow.Streaming? && x.flow.inCall && x.log != [] ==> !x.log[|x.log| - 1].NewGameRequest?
  {
    if x.flow.Streaming? && x.flow.inCall {
      InFlight(x);
      OpenKinds(x.m, |x.log| - |x.sent| - 1);
    }
  }

  // ---------- every action keeps the invariant ----------

  lemma MatchWellformed(m: M.Match, sent: seq<Packet>)
    requires M.Inv(m, sent)
    ensures M.WellFormed(m) && M.Announceable(m)
  {
  }

  /** The server moved on its own. */
  lemma ServerMoved(x: System, n: S.Server)
    requires SystemInv(x) && Inv(n) && PatientInv(n) && n.limit == x.srv.limit
    requires FlowInv(Gone(x, n)) && HeardInv(Gone(x, n))
    ensures SystemInv(Gone(x, n))
  {
    assert Gone(x, n).m == x.m;
  }

  lemma ServerStep(s: S.Server, step: Step)
    requires Inv(s) && PatientInv(s) && Sound(s) && Possible(s, step) && Patient(step)
    ensures Inv(Next(s, step)) && PatientInv(Next(s, step))
  {
    NextInv(s, step);
    PatientStep(s, step);
  }

  lemma LimitStep(s: S.Server, step: Step)
    requires Sound(s) && Possible(s, step)
    ensures Next(s, step).limit == s.limit
  {
  }

  lemma WorkerHeard(x: System, id: nat, io: Io, n: S.Server)
    requires ClientsInv(x.srv) && HeardInv(x) && id in x.srv.clients && Bounded(x.srv.clients[id])
    requires Enabled(x.srv.clients[id])
    requires n == x.srv.(clients := x.srv.clients[id := WorkerStep(x.srv.clients[id], io)]) && ClientsInv(n)
    ensures HeardInv(Gone(x, n))
  {
    WorkerQueuesNothing(x.srv.clients[id], io);
    WorkerUnheard(x, id, io);
    HeardKept(x, Gone(x, n));
  }

  lemma GameKeepsIds(s: S.Server)
    requires Sound(s) && GameCanMove(s, false)
    ensures GameStep(s, false).nextId == s.nextId
  {
  }

  lemma GameStepHeard(x: System, n: S.Server)
    requires Inv(x.srv) && HeardInv(x) && FlowInv(x) && Sound(x.srv) && GameCanMove(x.srv, false)
    requires x.srv.game.HasQueue? ==> Queueing(x, x.srv.game.job)
    requires n == GameStep(x.srv, false) && ClientsInv(n)
    ensures HeardInv(Gone(x, n))
  {
    GameKeepsIds(x.srv);
    assert Gone(x, n) == x.(srv := n);
    if x.srv.game.HasQueue? {
      PushHeard(x);
    } else {
      GameHeard(x);
    }
  }

  lemma StepHeard(x: System, step: Step, n: S.Server)
    requires Inv(x.srv) && HeardInv(x) && FlowInv(x) && Sound(x.srv) && Possible(x.srv, step) && Patient(step)
    requires !step.GameCalls?
    requires x.srv.game.HasQueue? ==> Queueing(x, x.srv.game.job)
    requires n == Next(x.srv, step) && ClientsInv(n)
    ensures HeardInv(Gone(x, n))
  {
    match step
    case WorkerMoves(id, io) => WorkerHeard(x, id, io, n);
    case GameDestroys(owner) =>
      DestroyUnheard(x, owner);
      HeardKept(x, Gone(x, n));
    case GameMoves(_) => GameStepHeard(x, n);
    case AcceptorMoves(connection, accepting) =>
      AcceptorUnheard(x, connection, accepting);
      HeardKept(x, Gone(x, n));
  }

  lemma StepFlow(x: System, step: Step, n: S.Server)
    requires FlowInv(x) && Sound(x.srv) && Possible(x.srv, step) && Patient(step) && !step.GameCalls?
    requires |x.srv.members| <= CLIENT_LIMIT && n == Next(x.srv, step)
    ensures FlowInv(Gone(x, n))
  {
    if step.GameMoves? {
      GameFlow(x);
    } else {
      assert n.game == x.srv.game;
      SameFlow(x, n);
    }
  }

  lemma SameFlow(x: System, n: S.Server)
    requires FlowInv(x) && n.game == x.srv.game
    ensures FlowInv(Gone(x, n))
  {
  }

  lemma FewMembers(s: S.Server)
    requires IdsInv(s) && s.limit == CLIENT_LIMIT
    ensures |s.members| <= CLIENT_LIMIT
  {
  }

  lemma ElsewhereFacts(x: System, step: Step, n: S.Server)
    requires SystemInv(x) && Sound(x.srv) && Possible(x.srv, step) && Patient(step) && !step.GameCalls?
    requires n == Next(x.srv, step) && Inv(n)
    ensures FlowInv(Gone(x, n)) && HeardInv(Gone(x, n))
  {
    FewMembers(x.srv);
    StepFlow(x, step, n);
    InFlightKind(x);
    if x.srv.game.HasQueue? {
      FlowQueueing(x);
    }
    StepHeard(x, step, n);
  }

  lemma ElsewhereInv(x: System, step: Step)
    requires SystemInv(x) && Sound(x.srv) && Possible(x.srv, step) && Patient(step) && !step.GameCalls?
    ensures SystemInv(Gone(x, Next(x.srv, step)))
  {
    ServerStep(x.srv, step);
    LimitStep(x.srv, step);
    ElsewhereFacts(x, step, Next(x.srv, step));
    ServerMoved(x, Next(x.srv, step));
  }

  // The game thread's own actions.

  lemma Issued(s: S.Server, call: Call)
    requires Inv(s) && PatientInv(s) && s.game.Idle?
    ensures Inv(s.(game := Calling(call))) && PatientInv(s.(game := Calling(call)))
  {
    CallInv(s, call);
    NothingOwed(s, s.(game := Calling(call)));
  }

  /** No client was touched. */
  lemma SameHeard(x: System, y: System)
    requires Ordered(x.srv) && HeardInv(x) && y.srv.clients == x.srv.clients && y.srv.nextId == x.srv.nextId
    requires y.joined == x.joined && (BeforeMatch(y.m) ==> BeforeMatch(x.m) && y.log == x.log)
    requires forall c: nat :: Due(y, c) == Due(x, c)
    ensures Ordered(y.srv) && HeardInv(y)
  {
    forall c | c in y.srv.clients ensures HeardBy(y, c, y.srv.clients[c]) {
      SameHearing(x, y, c, x.srv.clients[c]);
    }
  }

  lemma Turned(x: System, y: System)
    requires SystemInv(x) && Inv(y.srv) && PatientInv(y.srv) && y.srv.limit == x.srv.limit
    requires M.Inv(y.m, y.sent) && FlowInv(y) && LogInv(y) && HeardInv(y)
    ensures SystemInv(y)
  {
  }

  lemma NewMatchActs(x: System)
    requires SystemInv(x) && x.flow.Menu?
    ensures SystemInv(Issue(x.(flow := Purging), RemoveInactive))
  {
    var y := Issue(x.(flow := Purging), RemoveInactive);
    Issued(x.srv, RemoveInactive);
    SameHeard(x, y);
    Turned(x, y);
  }

  lemma NothingSent(m: M.Match, sent: seq<Packet>)
    requires M.Inv(m, sent) && BeforeMatch(m)
    ensures sent == [] && m.players == []
  {
  }

  lemma PurgedMatch(m: M.Match, sent: seq<Packet>)
    requires M.Inv(m, sent) && m.phase.MainMenu?
    ensures M.Inv(m.(phase := M.NewGame), sent)
  {
    NothingSent(m, sent);
    M.NewMatchInv(m);
  }

  lemma PurgedActs(x: System)
    requires SystemInv(x) && x.flow.Purging? && x.srv.game.Idle?
    ensures SystemInv(x.(flow := Boundary, m := x.m.(phase := M.NewGame)))
  {
    var y := x.(flow := Boundary, m := x.m.(phase := M.NewGame));
    PurgedMatch(x.m, x.sent);
    SameHeard(x, y);
    Turned(x, y);
  }

  lemma ListActs(x: System)
    requires SystemInv(x) && x.flow.Boundary? && x.m.phase.NewGame?
    ensures SystemInv(Issue(x.(flow := Listing), Snapshot))
  {
    var y := Issue(x.(flow := Listing), Snapshot);
    Issued(x.srv, Snapshot);
    SameHeard(x, y);
    Turned(x, y);
  }

  lemma StreamActs(x: System)
    requires SystemInv(x) && x.flow.Boundary? && !x.m.phase.NewGame?
    ensures M.WellFormed(x.m) && M.Announceable(x.m) && SystemInv(x.(flow := Streaming(M.Open(x.m), false)))
  {
    MatchWellformed(x.m, x.sent);
    var y := x.(flow := Streaming(M.Open(x.m), false));
    SameHeard(x, y);
    Turned(x, y);
  }

  lemma RosterActs(x: System)
    requires SystemInv(x) && x.flow.Listing? && x.srv.game.Idle? && x.srv.game.answer.Roster?
    ensures SystemInv(x.(flow := Asking(x.srv.game.answer.ids, [], false)))
  {
    var y := x.(flow := Asking(x.srv.game.answer.ids, [], false));
    SameHeard(x, y);
    Turned(x, y);
  }

  lemma AskActs(x: System, owner: nat)
    requires SystemInv(x) && x.flow.Asking? && !x.flow.inCall && |x.flow.answered| < |x.flow.roster|
    ensures SystemInv(Issue(x.(flow := Asking(x.flow.roster, x.flow.answered, true)),
                            Single(x.flow.roster[|x.flow.answered|], owner, Invitation(x))))
  {
    var call := Single(x.flow.roster[|x.flow.answered|], owner, Invitation(x));
    var y := Issue(x.(flow := Asking(x.flow.roster, x.flow.answered, true)), call);
    Issued(x.srv, call);
    SameHeard(x, y);
    Turned(x, y);
  }

  lemma AskDoneActs(x: System)
    requires SystemInv(x) && x.flow.Asking? && x.flow.inCall && x.srv.game.Idle? && x.srv.game.answer.Counted?
    ensures SystemInv(x.(flow := Asking(x.flow.roster, x.flow.answered + [x.srv.game.answer.count == 1], false)))
  {
    var y := x.(flow := Asking(x.flow.roster, x.flow.answered + [x.srv.game.answer.count == 1], false));
    SameHeard(x, y);
    Turned(x, y);
  }

  lemma SeatMatch(x: System, playersAt: seq<W.Position>, foodAt: seq<W.Position>)
    requires M.Inv(x.m, x.sent) && FlowInv(x) && Wellformed(x) && Legitimate(x, SeatAll(playersAt, foodAt))
    ensures x.sent == [] && M.Inv(M.SetUp(x.m, x.flow.roster, x.flow.answered, playersAt, foodAt), [])
  {
    NothingSent(x.m, x.sent);
    M.SetUpInv(x.m, x.flow.roster, x.flow.answered, playersAt, foodAt);
  }

  lemma SeatActs(x: System, playersAt: seq<W.Position>, foodAt: seq<W.Position>, y: System)
    requires Wellformed(x) && Legitimate(x, SeatAll(playersAt, foodAt))
    requires y == System(x.srv, M.SetUp(x.m, x.flow.roster, x.flow.answered, playersAt, foodAt), x.sent, x.log, Boundary, x.joined)
    requires SystemInv(x)
    ensures SystemInv(y)
  {
    SeatMatch(x, playersAt, foodAt);
    SameHeard(x, y);
    Turned(x, y);
  }

  /** The system once the next packet has been handed to the server. */
  predicate Sending(x: System, y: System, p: Packet, owner: nat) {
    && x.flow.Streaming? && x.flow.outbox != [] && p == x.flow.outbox[0]
    && y == System(x.srv.(game := Calling(Broadcast(owner, p))), x.m, x.sent, x.log + [p],
                   Streaming(x.flow.outbox[1..], true), x.joined)
  }

  lemma SendDue(x: System, y: System, p: Packet, owner: nat)
    requires Sending(x, y, p, owner) && !x.flow.inCall
    ensures forall c: nat :: Due(y, c) == Due(x, c)
  {
    assert y.log[..|y.log| - 1] == x.log;
  }

  lemma SendLog(x: System, y: System, p: Packet, owner: nat)
    requires M.WellFormed(x.m) && M.Announceable(x.m) && LogInv(x) && Sending(x, y, p, owner)
    ensures LogInv(y)
  {
    assert x.flow.outbox == [p] + x.flow.outbox[1..];
    assert y.log + y.flow.outbox == x.log + x.flow.outbox;
  }

  lemma SendFlow(x: System, y: System, p: Packet, owner: nat)
    requires FlowInv(x) && Sending(x, y, p, owner)
    ensures FlowInv(y)
  {
    assert y.log[|y.log| - 1] == p;
  }

  lemma SendActs(x: System, y: System, p: Packet, owner: nat)
    requires SystemInv(x) && Sending(x, y, p, owner) && !x.flow.inCall
    ensures SystemInv(y)
  {
    Issued(x.srv, Broadcast(owner, p));
    SendLog(x, y, p, owner);
    SendFlow(x, y, p, owner);
    SendDue(x, y, p, owner);
    SameHeard(x, y);
    Turned(x, y);
  }

  lemma SendDoneActs(x: System)
    requires SystemInv(x) && x.flow.Streaming? && x.flow.inCall && x.srv.game.Idle?
    ensures SystemInv(x.(flow := Streaming(x.flow.outbox, false)))
  {
    var y := x.(flow := Streaming(x.flow.outbox, false));
    SameHeard(x, y);
    Turned(x, y);
  }

  lemma ClosedPhase(m: M.Match, steps: seq<W.Physics>)
    requires M.WellFormed(m) && M.Plausible(m, steps) && !BeforeMatch(m)
    ensures !BeforeMatch(M.Close(m, steps))
  {
  }

  lemma CloseLog(x: System, y: System)
    requires M.WellFormed(x.m) && M.Announceable(x.m) && LogInv(x) && x.flow == Streaming([], false)
    requires M.WellFormed(y.m) && M.Announceable(y.m) && y.log == x.log && y.sent == x.sent + M.Open(x.m)
    requires y.flow == Resume(y.m)
    ensures LogInv(y)
  {
    assert x.log + [] == x.log;
  }

  lemma CloseMatch(x: System, steps: seq<W.Physics>, n: M.Match)
    requires M.Inv(x.m, x.sent) && M.Plausible(x.m, steps) && !BeforeMatch(x.m) && n == M.Close(x.m, steps)
    ensures M.Inv(n, x.sent + M.Open(x.m)) && !BeforeMatch(n)
  {
    M.CloseInv(x.m, x.sent, steps);
    ClosedPhase(x.m, steps);
  }

  lemma CloseActs(x: System, steps: seq<W.Physics>, y: System)
    requires M.WellFormed(x.m) && M.Announceable(x.m) && M.Plausible(x.m, steps) && x.flow == Streaming([], false)
    requires var n := M.Close(x.m, steps); y == System(x.srv, n, x.sent + M.Open(x.m), x.log, Resume(n), x.joined)
    requires SystemInv(x)
    ensures SystemInv(y)
  {
    CloseMatch(x, steps, y.m);
    CloseLog(x, y);
    SameHeard(x, y);
    Turned(x, y);
  }

  lemma FinishMatch(m: M.Match, sent: seq<Packet>)
    requires M.Inv(m, sent) && !m.phase.Announce?
    ensures M.Inv(m.(phase := M.GameOver), sent)
  {
    MatchWellformed(m, sent);
    M.FinishInv(m, sent);
  }

  lemma FinishActs(x: System)
    requires SystemInv(x) && x.flow.Boundary?
    ensures SystemInv(x.(m := x.m.(phase := M.GameOver)))
  {
    var y := x.(m := x.m.(phase := M.GameOver));
    FinishMatch(x.m, x.sent);
    SameHeard(x, y);
    Turned(x, y);
  }

  lemma LobbyActs(x: System, a: Action)
    requires SystemInv(x) && Wellformed(x) && Legitimate(x, a)
    requires a.NewMatch? || a.Purged? || a.StartUpdate? || a.RosterRead?
    ensures SystemInv(Act(x, a))
  {
    match a
    case NewMatch => NewMatchActs(x);
    case Purged => PurgedActs(x);
    case StartUpdate =>
      if x.m.phase.NewGame? {
        ListActs(x);
      } else {
        StreamActs(x);
      }
    case RosterRead => RosterActs(x);
  }

  lemma InvitingActs(x: System, a: Action)
    requires SystemInv(x) && Wellformed(x) && Legitimate(x, a)
    requires a.Ask? || a.AskDone? || a.SeatAll?
    ensures SystemInv(Act(x, a))
  {
    match a
    case Ask(owner) => AskActs(x, owner);
    case AskDone => AskDoneActs(x);
    case SeatAll(playersAt, foodAt) => SeatActs(x, playersAt, foodAt, Act(x, a));
  }

  lemma StreamingActs(x: System, a: Action)
    requires SystemInv(x) && Wellformed(x) && Legitimate(x, a)
    requires a.Send? || a.SendDone?
    ensures SystemInv(Act(x, a))
  {
    if a.Send? {
      SendActs(x, Act(x, a), x.flow.outbox[0], a.owner);
    } else {
      SendDoneActs(x);
    }
  }

  lemma StageActs(x: System, a: Action)
    requires SystemInv(x) && Wellformed(x) && Legitimate(x, a)
    requires a.CloseStage? || a.Finish?
    ensures SystemInv(Act(x, a))
  {
    if a.CloseStage? {
      CloseActs(x, a.steps, Act(x, a));
    } else {
      FinishActs(x);
    }
  }

  /** Every action of every thread keeps the invariant of the whole system. */
  lemma ActInv(x: System, a: Action)
    requires SystemInv(x) && Wellformed(x) && Legitimate(x, a)
    ensures SystemInv(Act(x, a))
  {
    if a.Elsewhere? {
      ElsewhereInv(x, a.step);
    } else if a.Ask? || a.AskDone? || a.SeatAll? {
      InvitingActs(x, a);
    } else if a.Send? || a.SendDone? {
      StreamingActs(x, a);
    } else if a.CloseStage? || a.Finish? {
      StageActs(x, a);
    } else {
      LobbyActs(x, a);
    }
  }

  // ---------- replica agreement ----------

  /** The packets the worker has tried to write to its client, in order. */
  function WrittenTo(k: Client): seq<Packet>
    requires OrderInv(k)
  {
    seq(|k.attempted|, n requires 0 <= n < |k.attempted| && k.attempted[n] in k.pushed => k.txs[k.attempted[n]].request)
  }

  /** A client learns nothing from an invitation. */
  lemma {:induction false} InvitationsTeachNothing(r: Replica, ps: seq<Packet>)
    ensures HearAll(r, Broadcasts(ps)) == HearAll(r, ps)
    decreases ps
  {
    if ps != [] {
      var before, last := ps[..|ps| - 1], ps[|ps| - 1];
      InvitationsTeachNothing(r, before);
      assert ps == before + [last];
      HearConcat(r, before, [last]);
      HearConcat(r, Broadcasts(before), if last.NewGameRequest? then [] else [last]);
    }
  }

  lemma AnnouncedMore(a: seq<Packet>, b: seq<Packet>, p: Packet)
    requires Announced(a) == Announced(b)
    ensures Announced(a + [p]) == Announced(b + [p])
  {
    AnnouncedConcat(a, [p]);
    AnnouncedConcat(b, [p]);
  }

  lemma InvitationAnnouncesNothing(ps: seq<Packet>, p: Packet)
    requires p.NewGameRequest?
    ensures Announced(ps + [p]) == Announced(ps)
  {
    AnnouncedConcat(ps, [p]);
    NothingAnnounced([p]);
  }

  lemma AnnouncedStep(ps: seq<Packet>, p: Packet)
    requires Announced(Broadcasts(ps)) == Announced(ps)
    ensures Announced(Broadcasts(ps + [p])) == Announced(ps + [p])
  {
    BroadcastsMore(ps, p);
    if p.NewGameRequest? {
      InvitationAnnouncesNothing(ps, p);
      assert Broadcasts(ps + [p]) == Broadcasts(ps);
    } else {
      AnnouncedMore(Broadcasts(ps), ps, p);
    }
  }

  /** Nor of any death. */
  lemma {:induction false} InvitationsAnnounceNothing(ps: seq<Packet>)
    ensures Announced(Broadcasts(ps)) == Announced(ps)
    decreases ps
  {
    if ps != [] {
      InvitationsAnnounceNothing(ps[..|ps| - 1]);
      AnnouncedStep(ps[..|ps| - 1], ps[|ps| - 1]);
      assert ps == ps[..|ps| - 1] + [ps[|ps| - 1]];
    }
  }

  /** The game thread never waits for two transactions of one client. */
  lemma OneAwaited(s: S.Server, r: Ref, q: Ref)
    requires GameInv(s) && Awaited(s.game, r) && Awaited(s.game, q) && r.client == q.client
    ensures r == q
  {
  }

  /** A client whose request is in its queue, or beyond, has been reached by the broadcast. */
  lemma AwaitedIsReached(s: S.Server, r: Ref)
    requires GameInv(s) && Sound(s) && Exists(s.clients, r) && Awaited(s.game, r) && r.tx in s.clients[r.client].pushed
    ensures !Behind(s.game, r.client)
  {
    if s.game.InTransit() && s.game.Target().client == r.client {
      OneAwaited(s, r, s.game.Target());
    }
  }

  lemma Unacquired(s: S.Server, c: nat, n: nat)
    requires PatientInv(s) && c in s.clients && OrderInv(s.clients[c]) && n < |s.clients[c].pushed|
    requires s.clients[c].txs[s.clients[c].pushed[n]].acquired == 0
    ensures Awaited(s.game, Ref(c, s.clients[c].pushed[n]))
  {
    assert Owed(s, Ref(c, s.clients[c].pushed[n]));
  }

  /** While the worker writes, nothing else is queued for it. */
  lemma NothingBehindIt(s: S.Server, c: nat)
    requires GameInv(s) && PatientInv(s) && c in s.clients && OrderInv(s.clients[c]) && TableInv(s.clients[c])
    requires s.clients[c].pc.Writing?
    ensures s.clients[c].popped == |s.clients[c].pushed| && Awaited(s.game, Ref(c, s.clients[c].pc.tx))
  {
    var k := s.clients[c];
    Unacquired(s, c, k.popped - 1);
    if k.popped < |k.pushed| {
      Unacquired(s, c, k.popped);
      OneAwaited(s, Ref(c, k.pushed[k.popped - 1]), Ref(c, k.pushed[k.popped]));
    }
  }

  lemma AwaitedStreams(x: System, r: Ref)
    requires FlowInv(x) && Awaited(x.srv.game, r) && !BeforeMatch(x.m)
    ensures x.flow.Streaming? && x.flow.inCall
  {
  }

  lemma WrittenSoFar(k: Client)
    requires OrderInv(k) && k.pc.Writing? && k.popped == |k.pushed|
    ensures Requests(k) == WrittenTo(k) + [k.txs[k.pc.tx].request]
  {
  }

  /** The worker of client `c` is about to write a MOVE request. */
  predicate WritesMove(s: S.Server, c: nat) {
    && c in s.clients
    && var k := s.clients[c];
    && k.pc.Writing? && k.pc.tx < |k.txs| && k.txs[k.pc.tx].request.MoveRequest?
  }

  /** What was written before it, with the request itself, is what was broadcast since the client was inserted. */
  lemma WrittenIsSent(x: System, c: nat)
    requires ClientsInv(x.srv) && GameInv(x.srv) && Sound(x.srv) && PatientInv(x.srv) && FlowInv(x) && HeardInv(x)
    requires WritesMove(x.srv, c)
    ensures x.flow.Streaming? && x.flow.inCall && c in x.joined && x.joined[c] <= |x.log|
    ensures var k := x.srv.clients[c]; Broadcasts(WrittenTo(k)) + [k.txs[k.pc.tx].request] == x.log[x.joined[c]..]
  {
    var k := x.srv.clients[c];
    var r := Ref(c, k.pc.tx);
    NothingBehindIt(x.srv, c);
    WrittenSoFar(k);
    BroadcastsMore(WrittenTo(k), k.txs[k.pc.tx].request);
    AwaitedStreams(x, r);
    AwaitedIsReached(x.srv, r);
  }

  /** A MOVE request is last in the log only while its stage is open, right after everything sent before. */
  lemma MoveIsOpen(x: System)
    requires M.WellFormed(x.m) && M.Announceable(x.m) && LogInv(x) && x.flow.Streaming? && x.flow.inCall
    requires x.log != [] && x.log[|x.log| - 1].MoveRequest?
    ensures x.m.phase.Move? && x.log[..|x.log| - 1] == x.sent
  {
    InFlight(x);
    OpenKinds(x.m, |x.log| - |x.sent| - 1);
  }

  lemma LastOff(a: seq<Packet>, p: Packet, b: seq<Packet>, j: nat)
    requires j <= |b| && a + [p] == b[j..]
    ensures b != [] && b[|b| - 1] == p && j <= |b| - 1 && a == b[..|b| - 1][j..]
  {
    assert (a + [p])[|a|] == p;
    assert (a + [p])[..|a|] == a;
  }

  /** So before a MOVE a client was written exactly what was sent since it was inserted. */
  lemma WrittenBeforeMove(x: System, c: nat)
    requires M.WellFormed(x.m) && M.Announceable(x.m) && LogInv(x)
    requires ClientsInv(x.srv) && GameInv(x.srv) && Sound(x.srv) && PatientInv(x.srv) && FlowInv(x) && HeardInv(x)
    requires WritesMove(x.srv, c)
    ensures x.m.phase.Move? && c in x.joined && x.joined[c] <= |x.sent|
    ensures Broadcasts(WrittenTo(x.srv.clients[c])) == x.sent[x.joined[c]..]
  {
    var k := x.srv.clients[c];
    WrittenIsSent(x, c);
    BeforeOpenMove(x, Broadcasts(WrittenTo(k)), k.txs[k.pc.tx].request, x.joined[c]);
  }

  lemma BeforeOpenMove(x: System, before: seq<Packet>, move: Packet, j: nat)
    requires M.WellFormed(x.m) && M.Announceable(x.m) && LogInv(x) && x.flow.Streaming? && x.flow.inCall
    requires j <= |x.log| && before + [move] == x.log[j..] && move.MoveRequest?
    ensures x.m.phase.Move? && j <= |x.sent| && before == x.sent[j..]
  {
    LastOff(before, move, x.log, j);
    MoveIsOpen(x);
  }

  // What hearing only the end of it teaches.

  /** Whatever `a` knows `b` knows too, and just the same. */
  ghost predicate Within(a: Replica, b: Replica) {
    && (forall j :: j in a.food ==> j in b.food && b.food[j] == a.food[j])
    && (forall i :: i in a.players ==> i in b.players && b.players[i] == a.players[i])
  }

  lemma {:induction false} LearnFoodWithin(a: map<nat, FoodState>, b: map<nat, FoodState>, rs: seq<FoodState>)
    requires forall j :: j in a ==> j in b && b[j] == a[j]
    ensures forall j :: j in LearnFood(a, rs) ==> j in LearnFood(b, rs) && LearnFood(b, rs)[j] == LearnFood(a, rs)[j]
    decreases rs
  {
    if rs != [] {
      LearnFoodWithin(a[rs[0].foodNo := rs[0]], b[rs[0].foodNo := rs[0]], rs[1..]);
    }
  }

  lemma {:induction false} LearnPlayersWithin(a: map<nat, PlayerState>, b: map<nat, PlayerState>, rs: seq<PlayerState>)
    requires forall i :: i in a ==> i in b && b[i] == a[i]
    ensures forall i :: i in LearnPlayers(a, rs) ==> i in LearnPlayers(b, rs) && LearnPlayers(b, rs)[i] == LearnPlayers(a, rs)[i]
    decreases rs
  {
    if rs != [] {
      LearnPlayersWithin(a[rs[0].playerNo := rs[0]], b[rs[0].playerNo := rs[0]], rs[1..]);
    }
  }

  lemma {:induction false} HearWithin(a: Replica, b: Replica, ps: seq<Packet>)
    requires Within(a, b)
    ensures Within(HearAll(a, ps), HearAll(b, ps))
    decreases ps
  {
    if ps != [] {
      match ps[0] {
        case FoodUpdate(food) => LearnFoodWithin(a.food, b.food, food);
        case PlayerUpdate(players) => LearnPlayersWithin(a.players, b.players, players);
        case _ =>
      }
      HearWithin(Hear(a, ps[0]), Hear(b, ps[0]), ps[1..]);
    }
  }

  /** Whoever came late knows less, but nothing else. */
  lemma LateWithin(ps: seq<Packet>, j: nat)
    requires j <= |ps|
    ensures Within(Fold(ps[j..]), Fold(ps))
  {
    assert ps == ps[..j] + ps[j..];
    HearConcat(BLANK, ps[..j], ps[j..]);
    HearWithin(BLANK, Fold(ps[..j]), ps[j..]);
  }

  /** Every record a client holds is true of the engine. */
  ghost predicate Truthful(r: Replica, m: M.Match)
    requires M.WellFormed(m)
  {
    && (forall j :: j in r.food ==> j < |m.world.food| && r.food[j].state == if m.world.food[j] > 0 then 1 else 0)
    && (forall i :: i in r.players ==> i < |m.players| && r.players[i] == PlayerState(i, m.world.players[i], m.playersAt[i]))
  }

  lemma WithinIsTruthful(r: Replica, all: Replica, m: M.Match)
    requires M.WellFormed(m) && M.FoodSeen(all, m) && M.PlayersSeen(all, m) && Within(r, all)
    ensures Truthful(r, m)
  {
  }

  // ---------- what a client that came late has missed ----------

  /** Every food listed in the first `j` packets was announced dead in none of them, and is dead now. */
  ghost predicate MissedFoodDied(m: M.Match, sent: seq<Packet>, j: nat)
    requires j <= |sent|
  {
    forall f: nat :: f < |m.world.food| && f in Listed(sent[..j]) ==> f !in Announced(sent[..j]) && m.world.food[f] <= 0
  }

  /** The players, if there are any, were sent after the first `j` packets. */
  ghost predicate PlayersSentSince(m: M.Match, sent: seq<Packet>, j: nat)
    requires j <= |sent|
  {
    m.players == [] || exists n :: j <= n < |sent| && sent[n].PlayerUpdate?
  }

  /** The food table is sent once, and every PLAYER_UPDATE is about all the players. */
  ghost predicate TablesInv(m: M.Match, sent: seq<Packet>) {
    && (m.phase.PlayerUpdates? || m.phase.Move? || m.phase.Announce? ==>
          |Listed(sent)| == |m.world.food| && forall f :: 0 <= f < |m.world.food| ==> Listed(sent)[f] == f)
    && (forall n :: 0 <= n < |sent| && sent[n].PlayerUpdate? ==> AboutAll(sent[n].players, |m.players|))
  }

  /** Records numbered from 0, one for each of `n` players. */
  predicate AboutAll(rs: seq<PlayerState>, n: nat) {
    0 < |rs| == n && forall i :: 0 <= i < n ==> rs[i].playerNo == i
  }

  lemma {:induction false} LearnFoodKeys(t: map<nat, FoodState>, rs: seq<FoodState>, f: nat)
    ensures f in LearnFood(t, rs) <==> f in t || f in LivingIn(rs) || f in DeadIn(rs)
    decreases rs
  {
    if rs != [] {
      LearnFoodKeys(t[rs[0].foodNo := rs[0]], rs[1..], f);
    }
  }

  /** A client has heard of the food that was listed or announced to it. */
  lemma {:induction false} HeardFood(r: Replica, ps: seq<Packet>, f: nat)
    ensures f in HearAll(r, ps).food <==> f in r.food || f in Listed(ps) || f in Announced(ps)
    decreases ps
  {
    if ps != [] {
      if ps[0].FoodUpdate? {
        LearnFoodKeys(r.food, ps[0].food, f);
      }
      HeardFood(Hear(r, ps[0]), ps[1..], f);
    }
  }

  lemma {:induction false} LearnPlayersKeep(t: map<nat, PlayerState>, rs: seq<PlayerState>, i: nat)
    requires i in t
    ensures i in LearnPlayers(t, rs)
    decreases rs
  {
    if rs != [] {
      LearnPlayersKeep(t[rs[0].playerNo := rs[0]], rs[1..], i);
    }
  }

  lemma LearnPlayersAll(t: map<nat, PlayerState>, rs: seq<PlayerState>, n: nat, i: nat)
    requires AboutAll(rs, n) && i < n
    ensures i in LearnPlayers(t, rs)
  {
    LearnPlayersAt(t, rs, i);
  }

  lemma {:induction false} PlayersKept(r: Replica, ps: seq<Packet>, i: nat)
    requires i in r.players
    ensures i in HearAll(r, ps).players
    decreases ps
  {
    if ps != [] {
      if ps[0].PlayerUpdate? {
        LearnPlayersKeep(r.players, ps[0].players, i);
      }
      PlayersKept(Hear(r, ps[0]), ps[1..], i);
    }
  }

  /** It has heard of all the players as soon as of any: with its first PLAYER_UPDATE. */
  lemma {:induction false} HeardPlayers(r: Replica, ps: seq<Packet>, n: nat, i: nat)
    requires forall k :: 0 <= k < |ps| && ps[k].PlayerUpdate? ==> AboutAll(ps[k].players, n)
    requires i < n && i !in r.players
    ensures i in HearAll(r, ps).players <==> exists k :: 0 <= k < |ps| && ps[k].PlayerUpdate?
    decreases ps
  {
    if ps != [] {
      if ps[0].PlayerUpdate? {
        LearnPlayersAll(r.players, ps[0].players, n, i);
        PlayersKept(Hear(r, ps[0]), ps[1..], i);
      } else {
        HeardPlayers(Hear(r, ps[0]), ps[1..], n, i);
        if k :| 0 <= k < |ps| && ps[k].PlayerUpdate? {
          assert ps[1..][k - 1] == ps[k];
        }
      }
    }
  }

  /** A food is heard of since `j` unless its only records were before. */
  lemma HeardOf(m: M.Match, sent: seq<Packet>, j: nat, f: nat)
    requires TablesInv(m, sent) && m.phase.Move? && M.ListsTheDead(Announced(sent), m) && j <= |sent|
    requires f < |m.world.food|
    ensures f in Fold(sent[j..]).food <==> (f in Listed(sent[..j]) ==> f !in Announced(sent[..j]) && m.world.food[f] <= 0)
  {
    var a, b := sent[..j], sent[j..];
    assert sent == a + b;
    HeardFood(BLANK, b, f);
    ListedConcat(a, b);
    AnnouncedConcat(a, b);
    ListedOnce(Listed(a), Listed(b), |m.world.food|, f);
    AnnouncedOnce(Announced(a), Announced(b), f);
  }

  lemma ListedOnce(a: seq<nat>, b: seq<nat>, n: nat, f: nat)
    requires |a + b| == n && (forall g :: 0 <= g < n ==> (a + b)[g] == g) && f < n
    ensures f in b <==> f !in a
  {
    if f < |a| {
      assert a[f] == (a + b)[f];
      forall g | 0 <= g < |b| ensures b[g] != f {
        assert b[g] == (a + b)[|a| + g];
      }
    } else {
      assert b[f - |a|] == (a + b)[f];
      forall g | 0 <= g < |a| ensures a[g] != f {
        assert a[g] == (a + b)[g];
      }
    }
  }

  lemma AnnouncedOnce(a: seq<nat>, b: seq<nat>, f: nat)
    requires forall g, h :: 0 <= g < h < |a + b| ==> (a + b)[g] != (a + b)[h]
    ensures f in b <==> f in a + b && f !in a
  {
    if f in a {
      var g :| 0 <= g < |a| && a[g] == f;
      forall h | 0 <= h < |b| ensures b[h] != f {
        assert (a + b)[g] == a[g] && (a + b)[|a| + h] == b[h];
      }
    }
  }

  /** A replica that holds nothing untrue is right exactly when it is whole. */
  lemma RightWhenWhole(r: Replica, m: M.Match)
    requires M.WellFormed(m) && Truthful(r, m)
    ensures M.FoodSeen(r, m) <==> forall f: nat :: f < |m.world.food| ==> f in r.food
    ensures M.PlayersSeen(r, m) <==> forall i: nat :: i < |m.players| ==> i in r.players
  {
  }

  lemma FoodSince(m: M.Match, sent: seq<Packet>, j: nat)
    requires TablesInv(m, sent) && m.phase.Move? && M.ListsTheDead(Announced(sent), m) && j <= |sent|
    ensures (forall f: nat :: f < |m.world.food| ==> f in Fold(sent[j..]).food)
       <==> MissedFoodDied(m, sent, j)
  {
    forall f: nat | f < |m.world.food|
      ensures f in Fold(sent[j..]).food <==> (f in Listed(sent[..j]) ==> f !in Announced(sent[..j]) && m.world.food[f] <= 0)
    {
      HeardOf(m, sent, j, f);
    }
  }

  lemma PlayersSince(m: M.Match, sent: seq<Packet>, j: nat)
    requires TablesInv(m, sent) && j <= |sent|
    ensures (forall i: nat :: i < |m.players| ==> i in Fold(sent[j..]).players)
       <==> PlayersSentSince(m, sent, j)
  {
    var b := sent[j..];
    assert forall k :: 0 <= k < |b| ==> b[k] == sent[j + k];
    forall i: nat | i < |m.players|
      ensures i in Fold(b).players <==> exists k :: 0 <= k < |b| && b[k].PlayerUpdate?
    {
      HeardPlayers(BLANK, b, |m.players|, i);
    }
    if n :| j <= n < |sent| && sent[n].PlayerUpdate? {
      assert b[n - j].PlayerUpdate?;
    }
    if m.players != [] && 0 in Fold(b).players {
      var k :| 0 <= k < |b| && b[k].PlayerUpdate?;
      assert sent[j + k].PlayerUpdate?;
    }
  }

  /** When what was sent after the first `j` packets reproduces the engine. */
  lemma AgreesSince(m: M.Match, sent: seq<Packet>, j: nat)
    requires M.Inv(m, sent) && m.phase.Move? && TablesInv(m, sent) && j <= |sent|
    ensures M.WellFormed(m) && Truthful(Fold(sent[j..]), m)
    ensures M.FoodSeen(Fold(sent[j..]), m) <==> MissedFoodDied(m, sent, j)
    ensures M.PlayersSeen(Fold(sent[j..]), m) <==> PlayersSentSince(m, sent, j)
  {
    MatchWellformed(m, sent);
    M.MoveKnowsAll(m, sent);
    MoveKnowsDeaths(m, sent);
    LateWithin(sent, j);
    WithinIsTruthful(Fold(sent[j..]), Fold(sent), m);
    RightWhenWhole(Fold(sent[j..]), m);
    FoodSince(m, sent, j);
    PlayersSince(m, sent, j);
  }

  /** Whoever has missed nothing knows it all. */
  lemma NothingMissed(m: M.Match, sent: seq<Packet>)
    requires M.Inv(m, sent) && m.phase.Move? && TablesInv(m, sent)
    ensures MissedFoodDied(m, sent, 0) && PlayersSentSince(m, sent, 0)
  {
    M.MoveKnowsAll(m, sent);
    assert sent[0..] == sent;
    AgreesSince(m, sent, 0);
  }

  lemma AgreementAt(x: System, c: nat)
    requires SystemInv(x) && Sound(x.srv) && TablesInv(x.m, x.sent) && WritesMove(x.srv, c)
    ensures M.WellFormed(x.m) && x.m.phase.Move? && c in x.joined && x.joined[c] <= |x.sent|
    ensures var r := Fold(WrittenTo(x.srv.clients[c]));
      && Truthful(r, x.m)
      && (M.FoodSeen(r, x.m) <==> MissedFoodDied(x.m, x.sent, x.joined[c]))
      && (M.PlayersSeen(r, x.m) <==> PlayersSentSince(x.m, x.sent, x.joined[c]))
    ensures x.joined[c] == 0 ==>
      && MissedFoodDied(x.m, x.sent, 0) && PlayersSentSince(x.m, x.sent, 0)
      && M.ListsTheDead(Announced(WrittenTo(x.srv.clients[c])), x.m)
  {
    var ps := WrittenTo(x.srv.clients[c]);
    MatchWellformed(x.m, x.sent);
    WrittenBeforeMove(x, c);
    InvitationsTeachNothing(BLANK, ps);
    InvitationsAnnounceNothing(ps);
    AgreesSince(x.m, x.sent, x.joined[c]);
    MoveKnowsDeaths(x.m, x.sent);
    NothingMissed(x.m, x.sent);
  }

  lemma MoveKnowsDeaths(m: M.Match, sent: seq<Packet>)
    requires M.Inv(m, sent) && m.phase.Move?
    ensures M.ListsTheDead(Announced(sent), m)
  {
    M.AnnouncedIsAll(m, sent);
  }

  // ---------- what the tables are ----------

  lemma {:induction false} AllLiving(rs: seq<FoodState>)
    requires forall k :: 0 <= k < |rs| ==> rs[k].state != 0
    ensures |LivingIn(rs)| == |rs| && forall k :: 0 <= k < |rs| ==> LivingIn(rs)[k] == rs[k].foodNo
    decreases rs
  {
    if rs != [] {
      AllLiving(rs[1..]);
      assert LivingIn(rs) == [rs[0].foodNo] + LivingIn(rs[1..]);
    }
  }

  lemma {:induction false} NoneLiving(rs: seq<FoodState>)
    requires forall k :: 0 <= k < |rs| ==> rs[k].state == 0
    ensures LivingIn(rs) == []
    decreases rs
  {
    if rs != [] {
      NoneLiving(rs[1..]);
    }
  }

  /** The food table lists every food once, in order. */
  lemma TableLists(m: M.Match)
    requires M.Sane(m) && m.phase.FoodUpdates? && forall f :: 0 <= f < |m.world.food| ==> m.world.food[f] == 1
    ensures |Listed(M.Open(m))| == |m.world.food| && forall f :: 0 <= f < |m.world.food| ==> Listed(M.Open(m))[f] == f
  {
    ListedInPackets(M.FoodTable(m));
    AllLiving(M.FoodTable(m));
  }

  /** No later stage lists any. */
  lemma OthersList(m: M.Match)
    requires M.WellFormed(m) && M.Announceable(m) && !m.phase.FoodUpdates?
    ensures Listed(M.Open(m)) == []
  {
    if m.phase.Announce? {
      ListedInPackets(M.DeathRecords(m, m.phase.dead));
      NoneLiving(M.DeathRecords(m, m.phase.dead));
    } else {
      NothingListed(M.Open(m));
    }
  }

  /** Eight players at most fit one packet. */
  lemma WholeTable(m: M.Match, n: nat)
    requires M.Sane(m) && M.Announceable(m) && n < |M.Open(m)| && M.Open(m)[n].PlayerUpdate?
    ensures AboutAll(M.Open(m)[n].players, |m.players|)
  {
    var rs := M.PlayerTable(m);
    assert Chunks(rs, MAX_PLAYER_UPDATES) == if rs == [] then [] else [rs];
  }

  lemma ClosedPlayers(m: M.Match, steps: seq<W.Physics>)
    requires M.WellFormed(m) && M.Plausible(m, steps)
    ensures M.Close(m, steps).players == m.players
  {
  }

  lemma CloseTables(m: M.Match, sent: seq<Packet>, steps: seq<W.Physics>)
    requires M.Inv(m, sent) && M.Plausible(m, steps) && TablesInv(m, sent)
    ensures TablesInv(M.Close(m, steps), sent + M.Open(m))
  {
    var all := sent + M.Open(m);
    ClosedPlayers(m, steps);
    forall n | 0 <= n < |all| && all[n].PlayerUpdate? ensures AboutAll(all[n].players, |m.players|) {
      if n >= |sent| {
        WholeTable(m, n - |sent|);
      }
    }
    ListedConcat(sent, M.Open(m));
    if m.phase.FoodUpdates? {
      TableLists(m);
      assert Listed(sent) == [];
    } else {
      OthersList(m);
    }
  }

  lemma ActTables(x: System, a: Action)
    requires M.Inv(x.m, x.sent) && TablesInv(x.m, x.sent) && Wellformed(x) && Legitimate(x, a)
    ensures TablesInv(Act(x, a).m, Act(x, a).sent)
  {
    if BeforeMatch(x.m) {
      NothingSent(x.m, x.sent);
    }
    if a.CloseStage? {
      CloseTables(x.m, x.sent, a.steps);
    }
  }

  // ---------- runs of the whole system ----------

  predicate LegalRun(x: System, actions: seq<Action>)
    decreases actions
  {
    actions == [] || (Wellformed(x) && Legitimate(x, actions[0]) && LegalRun(Act(x, actions[0]), actions[1..]))
  }

  function EndOf(x: System, actions: seq<Action>): (y: System)
    requires LegalRun(x, actions)
    decreases actions
  {
    if actions == [] then x else EndOf(Act(x, actions[0]), actions[1..])
  }

  lemma {:induction false} SystemRun(x: System, actions: seq<Action>)
    requires SystemInv(x) && LegalRun(x, actions)
    ensures SystemInv(EndOf(x, actions))
    decreases actions
  {
    if actions != [] {
      ActInv(x, actions[0]);
      SystemRun(Act(x, actions[0]), actions[1..]);
    }
  }

  lemma {:induction false} TablesRun(x: System, actions: seq<Action>)
    requires SystemInv(x) && TablesInv(x.m, x.sent) && LegalRun(x, actions)
    ensures TablesInv(EndOf(x, actions).m, EndOf(x, actions).sent)
    decreases actions
  {
    if actions != [] {
      ActInv(x, actions[0]);
      ActTables(x, actions[0]);
      TablesRun(Act(x, actions[0]), actions[1..]);
    }
  }

  /**
   In every run of the whole system in which no wait expires, whenever a worker writes a MOVE
   request: everything its client has been told so far is true of the engine at that moment. The
   updates written to it add up to the food table exactly if every food whose table record had been
   broadcast before the client was inserted was announced dead only since then, if at all, and is
   dead now; and to the players exactly if a PLAYER_UPDATE has been broadcast since. A client that
   had missed nothing knows both, and has been told of exactly the dead food, of each once.
   */
  lemma EndToEndAgreement(actions: seq<Action>, c: nat)
    requires LegalRun(Boot(), actions) && WritesMove(EndOf(Boot(), actions).srv, c)
    ensures var x := EndOf(Boot(), actions);
      && OrderInv(x.srv.clients[c]) && M.WellFormed(x.m) && x.m.phase.Move?
      && c in x.joined && x.joined[c] <= |x.sent|
    ensures var x := EndOf(Boot(), actions); var r := Fold(WrittenTo(x.srv.clients[c]));
      && Truthful(r, x.m)
      && (M.FoodSeen(r, x.m) <==> MissedFoodDied(x.m, x.sent, x.joined[c]))
      && (M.PlayersSeen(r, x.m) <==> PlayersSentSince(x.m, x.sent, x.joined[c]))
    ensures var x := EndOf(Boot(), actions);
      x.joined[c] == 0 ==>
        && MissedFoodDied(x.m, x.sent, 0) && PlayersSentSince(x.m, x.sent, 0)
        && M.ListsTheDead(Announced(WrittenTo(x.srv.clients[c])), x.m)
  {
    BootInv();
    SystemRun(Boot(), actions);
    TablesRun(Boot(), actions);
    InvSound(EndOf(Boot(), actions).srv);
    AgreementAt(EndOf(Boot(), actions), c);
  }

  // ---------- the players of the match ----------

  predicate AllJoined(x: System, ids: seq<nat>) {
    forall id :: id in ids ==> id in x.joined
  }

  predicate MissedNothing(x: System, ids: seq<nat>) {
    forall id :: id in ids ==> id in x.joined && x.joined[id] == 0
  }

  /** Whoever plays was inserted before anything was broadcast. */
  predicate RosterInv(x: System) {
    && (x.flow.Listing? && x.srv.game.Idle? && x.srv.game.answer.Roster? ==> AllJoined(x, x.srv.game.answer.ids))
    && (x.flow.Asking? ==> AllJoined(x, x.flow.roster))
    && MissedNothing(x, x.m.players)
  }

  lemma {:induction false} AnsweringOnRoster(roster: seq<nat>, answered: seq<bool>)
    requires |answered| <= |roster|
    ensures forall id :: id in M.Answering(roster, answered) ==> id in roster
    decreases answered
  {
    if answered != [] {
      AnsweringOnRoster(roster, answered[..|answered| - 1]);
    }
  }

  lemma ListingRoster(s: S.Server)
    requires s.game == Calling(Snapshot) && Sound(s) && GameCanMove(s, false)
    requires IdsInv(s)
    ensures GameStep(s, false).game.Idle? && GameStep(s, false).game.answer.Roster?
    ensures forall id :: id in GameStep(s, false).game.answer.ids ==> id in s.clients
  {
  }

  lemma ElsewhereRoster(x: System, step: Step)
    requires RosterInv(x) && FlowInv(x) && Sound(x.srv) && Possible(x.srv, step) && Patient(step) && !step.GameCalls?
    requires IdsInv(x.srv) && x.joined.Keys == x.srv.clients.Keys
    ensures RosterInv(Gone(x, Next(x.srv, step)))
  {
    var n := Next(x.srv, step);
    assert x.srv.nextId !in x.joined;
    if x.flow.Listing? && step.GameMoves? && x.srv.game == Calling(Snapshot) {
      ListingRoster(x.srv);
    }
    SameRoster(x, n);
  }

  lemma SameRoster(x: System, n: S.Server)
    requires RosterInv(x) && x.srv.nextId !in x.joined
    requires x.flow.Listing? && n.game.Idle? && n.game.answer.Roster? ==> AllJoined(x, n.game.answer.ids)
    ensures RosterInv(Gone(x, n))
  {
  }

  lemma ActRoster(x: System, a: Action)
    requires RosterInv(x) && FlowInv(x) && Wellformed(x) && Legitimate(x, a)
    requires IdsInv(x.srv) && x.joined.Keys == x.srv.clients.Keys
    requires BeforeMatch(x.m) ==> x.m.players == [] && forall id :: id in x.joined ==> x.joined[id] == 0
    ensures RosterInv(Act(x, a))
  {
    match a
    case Elsewhere(step) => ElsewhereRoster(x, step);
    case SeatAll(_, _) => AnsweringOnRoster(x.flow.roster, x.flow.answered);
    case CloseStage(steps) => ClosedPlayers(x.m, steps);
    case _ =>
  }

  lemma {:induction false} RosterRun(x: System, actions: seq<Action>)
    requires SystemInv(x) && RosterInv(x) && LegalRun(x, actions)
    ensures RosterInv(EndOf(x, actions))
    decreases actions
  {
    if actions != [] {
      if BeforeMatch(x.m) {
        NothingSent(x.m, x.sent);
      }
      ActInv(x, actions[0]);
      ActRoster(x, actions[0]);
      RosterRun(Act(x, actions[0]), actions[1..]);
    }
  }

  /** So the agreement is about every player of the match. */
  lemma PlayersAreAudience(actions: seq<Action>, id: nat)
    requires LegalRun(Boot(), actions) && id in EndOf(Boot(), actions).m.players
    ensures id in EndOf(Boot(), actions).joined && EndOf(Boot(), actions).joined[id] == 0
  {
    BootInv();
    RosterRun(Boot(), actions);
  }

  lemma TwoAreOutOfOrder(batch: seq<Ref>, id: nat)
    requires OnlyTo(batch, id) && |batch| > 1
    ensures !InOrder(batch)
  {
    assert batch[0].client == batch[1].client;
  }

  /** The batch of an invitation holds the transaction of that client, or nothing. */
  lemma InvitedBatch(x: System)
    requires FlowInv(x) && GameInv(x.srv) && x.flow.Asking? && x.flow.inCall && x.srv.game.Idle?
    requires x.srv.game.answer.Counted?
    ensures |x.flow.answered| < |x.flow.roster| && AllExist(x.srv.clients, x.srv.game.answer.batch)
    ensures var batch := x.srv.game.answer.batch;
      batch == [] || (|batch| == 1 && batch[0].client == x.flow.roster[|x.flow.answered|])
  {
    if |x.srv.game.answer.batch| > 1 {
      TwoAreOutOfOrder(x.srv.game.answer.batch, x.flow.roster[|x.flow.answered|]);
    }
  }

  lemma CountOfOne(s: S.Server, batch: seq<Ref>)
    requires ClientsInv(s) && AllExist(s.clients, batch) && |batch| <= 1
    ensures SuccessCount(s.clients, batch) == 1 <==> batch != [] && Runs.Answered(s.clients[batch[0].client], batch[0].tx)
  {
    CountsAgree(s, batch);
    if batch != [] {
      assert batch[..0] == [];
      assert AnsweredCount(s.clients, []) == 0;
    }
  }

  /**
   In every run: when NEW_GAME to a client has been waited for, it is made a player if and only if
   a transaction was scheduled for it, its signal was acquired, it is DONE and its response is
   stored.
   */
  lemma PlayersAnswered(actions: seq<Action>)
    requires LegalRun(Boot(), actions)
    requires var x := EndOf(Boot(), actions); Wellformed(x) && Legitimate(x, AskDone)
    ensures var x := EndOf(Boot(), actions); var batch := x.srv.game.answer.batch;
      && |x.flow.answered| < |x.flow.roster| && AllExist(x.srv.clients, batch)
      && (batch == [] || (|batch| == 1 && batch[0].client == x.flow.roster[|x.flow.answered|]))
      && Act(x, AskDone).flow.answered
      == x.flow.answered + [batch != [] && Runs.Answered(x.srv.clients[batch[0].client], batch[0].tx)]
  {
    BootInv();
    SystemRun(Boot(), actions);
    InvitedBatch(EndOf(Boot(), actions));
    CountOfOne(EndOf(Boot(), actions).srv, EndOf(Boot(), actions).srv.game.answer.batch);
  }
}
