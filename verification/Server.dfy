/**
 The connection server (src/connection_server.cpp, src/connection_transaction.h): the game
 thread, the acceptor thread and one worker per client, interleaved step by step. A step is
 one access to shared state; sockets and deadlines behave as they like.
 */
module Server {
  import opened Basics
  import opened Packets
  import opened Connection

  /** A `ClientTransaction` seen from the transaction object that holds it. */
  datatype Ref = Ref(client: nat, tx: nat)

  /** What the game thread asks of the server. A transaction is run and then waited for. */
  datatype Call =
    | Broadcast(owner: nat, request: Packet)
    | Single(id: nat, owner: nat, request: Packet)
    | Remove(id: nat)
    | RemoveInactive
    | Snapshot

  datatype Answer = NoAnswer | Counted(batch: seq<Ref>, count: nat) | Roster(ids: seq<nat>)

  /** A transaction being scheduled: clients still to visit, and what was emplaced so far. */
  datatype Job = Job(owner: nat, request: Packet, todo: seq<nat>, batch: seq<Ref>)

  datatype GamePc =
    | Idle(answer: Answer)
    | Calling(call: Call)
    | Scheduling(job: Job)
    | Emplaced(job: Job)
    | WantsQueue(job: Job)
    | HasQueue(job: Job)
    | Waiting(batch: seq<Ref>, next: nat, count: nat)
    | Judging(batch: seq<Ref>, next: nat, count: nat)
    | Erasing(todo: seq<nat>, onlyInactive: bool)
    | Unmaking(id: nat, todo: seq<nat>, onlyInactive: bool)
    | Joining(id: nat, todo: seq<nat>, onlyInactive: bool)
    | Thrown
  {
    predicate HoldsClients() {
      Scheduling? || Emplaced? || WantsQueue? || HasQueue? || Erasing? || Unmaking? || Joining?
    }

    /** A transaction has been emplaced and is on its way into its client's queue. */
    predicate InTransit() {
      (Emplaced? || WantsQueue? || HasQueue?) && job.batch != []
    }

    function Target(): Ref
      requires InTransit()
    {
      job.batch[|job.batch| - 1]
    }
  }

  datatype AcceptorPc = Accepting | WantsClients | Inserting | AcceptFailed

  datatype ClientsLock = Free | ByGame | ByAcceptor

  /**
   `members` are the keys of the client map. Records of removed clients stay in `clients`, so
   that what was sent to them can still be spoken of.
   */
  datatype Server = Server(
    limit: nat,
    members: set<nat>,
    clients: map<nat, Client>,
    nextId: nat,
    lock: ClientsLock,
    game: GamePc,
    acceptor: AcceptorPc
  )

  function Start(limit: nat): Server {
    Server(limit, {}, map[], 0, Free, Idle(NoAnswer), Accepting)
  }

  /** The members below `n`, in the order of the map. */
  function Ids(members: set<nat>, n: nat): (ids: seq<nat>)
    ensures Ascending(ids)
    ensures forall id :: id in ids <==> id in members && id < n
  {
    if n == 0 then []
    else
      var before := Ids(members, n - 1);
      assert forall a :: 0 <= a < |before| ==> before[a] in before;
      if n - 1 in members then before + [n - 1] else before
  }

  predicate Exists(clients: map<nat, Client>, r: Ref) {
    r.client in clients && r.tx < |clients[r.client].txs|
  }

  function TxOf(clients: map<nat, Client>, r: Ref): Tx
    requires Exists(clients, r)
  {
    clients[r.client].txs[r.tx]
  }

  /** `reset`, or the destructor: every transaction of the object is destroyed. */
  function Dropped(k: Client, owner: nat): Client {
    k.(txs := seq(|k.txs|, i requires 0 <= i < |k.txs| => if k.txs[i].owner == owner then k.txs[i].(live := false) else k.txs[i]))
  }

  function DroppedAll(clients: map<nat, Client>, owner: nat): map<nat, Client> {
    map id | id in clients :: Dropped(clients[id], owner)
  }

  datatype Step =
    | WorkerMoves(id: nat, io: Io)
    | GameCalls(call: Call)
    | GameDestroys(owner: nat)
    | GameMoves(expire: bool)
    | AcceptorMoves(connection: bool, accepting: bool)

  /** Everything a step refers to is there. */
  predicate Sound(s: Server) {
    && (forall id :: id in s.clients ==> Bounded(s.clients[id]))
    && (s.game.Emplaced? || s.game.WantsQueue? || s.game.HasQueue? ==> s.game.InTransit() && Exists(s.clients, s.game.Target()))
    && (s.game.Scheduling? && s.game.job.todo != [] ==> s.game.job.todo[0] in s.clients)
    && (s.game.Waiting? && s.game.next < |s.game.batch| ==> Exists(s.clients, s.game.batch[s.game.next]))
    && (s.game.Judging? ==> s.game.next < |s.game.batch| && Exists(s.clients, s.game.batch[s.game.next]))
    && (s.game.Erasing? && s.game.todo != [] ==> s.game.todo[0] in s.clients)
    && (s.game.Unmaking? || s.game.Joining? ==> s.game.id in s.clients)
  }

  /** Whether the game thread can move, and how: an expired wait is one whose signal is not there. */
  predicate GameCanMove(s: Server, expire: bool)
    requires Sound(s)
  {
    match s.game
    case Idle(_) => false
    case Thrown => false
    case Calling(_) => s.lock.Free?
    case WantsQueue(_) => s.clients[s.game.Target().client].lock.Nobody?
    case Waiting(batch, next, _) => next < |batch| ==> (TxOf(s.clients, batch[next]).signal == 0 <==> expire)
    case Joining(id, _, _) => s.clients[id].pc.Exited?
    case _ => true
  }

  predicate Possible(s: Server, step: Step)
    requires Sound(s)
  {
    match step
    case WorkerMoves(id, _) => id in s.clients && Enabled(s.clients[id])
    case GameCalls(_) => s.game.Idle?
    case GameDestroys(_) => s.game.Idle?
    case GameMoves(expire) => GameCanMove(s, expire)
    case AcceptorMoves(_, _) => !s.acceptor.AcceptFailed? && (s.acceptor.WantsClients? ==> s.lock.Free?)
  }

  function Begin(s: Server, call: Call): Server {
    match call
    case Broadcast(owner, request) =>
      s.(clients := DroppedAll(s.clients, owner), lock := ByGame,
         game := Scheduling(Job(owner, request, Ids(s.members, s.nextId), [])))
    case Single(id, owner, request) =>
      if id in s.members
      then s.(clients := DroppedAll(s.clients, owner), lock := ByGame, game := Scheduling(Job(owner, request, [id], [])))
      else s.(clients := DroppedAll(s.clients, owner), game := Thrown)
    case Remove(id) => s.(lock := ByGame, game := Erasing(if id in s.members then [id] else [], false))
    case RemoveInactive => s.(lock := ByGame, game := Erasing(Ids(s.members, s.nextId), true))
    case Snapshot => s.(game := Idle(Roster(Ids(s.members, s.nextId))))
  }

  /** The next client of the map: an active one gets a transaction of its own. */
  function Schedule(s: Server, job: Job): Server
    requires job.todo != [] ==> job.todo[0] in s.clients
  {
    if job.todo == [] then
      s.(lock := Free, game := Waiting(job.batch, 0, 0))
    else
      var id := job.todo[0];
      var k := s.clients[id];
      var rest := job.(todo := job.todo[1..]);
      if k.active then
        s.(clients := s.clients[id := Created(k, job.owner, job.request)],
           game := Emplaced(rest.(batch := job.batch + [Ref(id, |k.txs|)])))
      else
        s.(game := Scheduling(rest))
  }

  /** `ConnectionClient::runTransaction`, one access at a time; a client that went inactive meanwhile keeps it IDLE. */
  function Enqueue(s: Server): Server
    requires s.game.InTransit() && Exists(s.clients, s.game.Target())
  {
    var r := s.game.Target();
    var k := s.clients[r.client];
    match s.game
    case Emplaced(job) =>
      if k.active then s.(clients := s.clients[r.client := Scheduled(k, r.tx)], game := WantsQueue(job))
      else s.(game := Scheduling(job))
    case WantsQueue(job) => s.(clients := s.clients[r.client := QueueLocked(k)], game := HasQueue(job))
    case HasQueue(job) => s.(clients := s.clients[r.client := QueuePushed(k, r.tx)], game := Scheduling(job))
  }

  /** `waitForFinish`: take the signal of each transaction in turn, or give up on it. */
  function Wait(s: Server, batch: seq<Ref>, next: nat, count: nat, expire: bool): Server
    requires next < |batch| ==> Exists(s.clients, batch[next]) && (TxOf(s.clients, batch[next]).signal == 0 <==> expire)
  {
    if next >= |batch| then
      s.(game := Idle(Counted(batch, count)))
    else if expire then
      s.(game := Waiting(batch, next + 1, count))
    else
      var r := batch[next];
      s.(clients := s.clients[r.client := Acquired(s.clients[r.client], r.tx)], game := Judging(batch, next, count))
  }

  /** The next client is erased: its queue goes first, then its thread is stopped, then joined. */
  function Erase(s: Server, todo: seq<nat>, onlyInactive: bool): Server
    requires todo != [] ==> todo[0] in s.clients
  {
    if todo == [] then
      s.(lock := Free, game := Idle(NoAnswer))
    else
      var k := s.clients[todo[0]];
      if onlyInactive && k.active then
        s.(game := Erasing(todo[1..], onlyInactive))
      else
        s.(clients := s.clients[todo[0] := QueueDestroyed(k)], game := Unmaking(todo[0], todo[1..], onlyInactive))
  }

  function GameStep(s: Server, expire: bool): Server
    requires Sound(s) && GameCanMove(s, expire)
  {
    match s.game
    case Calling(call) => Begin(s, call)
    case Scheduling(job) => Schedule(s, job)
    case Emplaced(_) => Enqueue(s)
    case WantsQueue(_) => Enqueue(s)
    case HasQueue(_) => Enqueue(s)
    case Waiting(batch, next, count) => Wait(s, batch, next, count, expire)
    case Judging(batch, next, count) =>
      s.(game := Waiting(batch, next + 1, if TxOf(s.clients, batch[next]).state.DONE? then count + 1 else count))
    case Erasing(todo, onlyInactive) => Erase(s, todo, onlyInactive)
    case Unmaking(id, todo, onlyInactive) =>
      s.(clients := s.clients[id := Evicted(s.clients[id])], game := Joining(id, todo, onlyInactive))
    case Joining(id, todo, onlyInactive) => s.(members := s.members - {id}, game := Erasing(todo, onlyInactive))
  }

  /** The acceptor: the room is checked before the lock is taken. */
  function AcceptorStep(s: Server, connection: bool, accepting: bool): Server
    requires !s.acceptor.AcceptFailed?
  {
    match s.acceptor
    case Accepting =>
      s.(acceptor := if !connection then AcceptFailed else if accepting && |s.members| < s.limit then WantsClients else Accepting)
    case WantsClients => s.(lock := ByAcceptor, acceptor := Inserting)
    case Inserting =>
      s.(members := s.members + {s.nextId}, clients := s.clients[s.nextId := NewClient()], nextId := s.nextId + 1,
         lock := Free, acceptor := Accepting)
  }

  function Next(s: Server, step: Step): Server
    requires Sound(s) && Possible(s, step)
  {
    match step
    case WorkerMoves(id, io) => s.(clients := s.clients[id := WorkerStep(s.clients[id], io)])
    case GameCalls(call) => s.(game := Calling(call))
    case GameDestroys(owner) => s.(clients := DroppedAll(s.clients, owner))
    case GameMoves(expire) => GameStep(s, expire)
    case AcceptorMoves(connection, accepting) => AcceptorStep(s, connection, accepting)
  }

  // ---------- the invariant ----------

  ghost predicate ClientsInv(s: Server) {
    forall id :: id in s.clients ==> ClientInv(s.clients[id])
  }

  predicate IdsInv(s: Server) {
    && (forall id :: id in s.clients ==> id < s.nextId)
    && (forall id :: id in s.members ==> id in s.clients)
    && (forall id :: id in s.clients && id !in s.members ==> s.clients[id].pc.Exited?)
    && |s.members| <= s.limit
    && (s.acceptor.WantsClients? || s.acceptor.Inserting? ==> |s.members| < s.limit)
  }

  predicate LocksInv(s: Server) {
    && (s.lock.ByGame? <==> s.game.HoldsClients())
    && (s.lock.ByAcceptor? <==> s.acceptor.Inserting?)
    && (forall id :: id in s.clients ==>
          (s.clients[id].lock.GameThread? <==> s.game.HasQueue? && s.game.InTransit() && s.game.Target().client == id))
  }

  predicate AllExist(clients: map<nat, Client>, batch: seq<Ref>) {
    forall m :: 0 <= m < |batch| ==> Exists(clients, batch[m])
  }

  /** One transaction per client, in the order of the map. */
  predicate InOrder(batch: seq<Ref>) {
    forall a, b :: 0 <= a < b < |batch| ==> batch[a].client < batch[b].client
  }

  predicate NotAcquired(clients: map<nat, Client>, batch: seq<Ref>, from: nat)
    requires AllExist(clients, batch)
  {
    forall m :: from <= m < |batch| ==> TxOf(clients, batch[m]).acquired == 0
  }

  /** The signal was taken, and the verdict was success. */
  predicate Successful(t: Tx) {
    t.acquired == 1 && t.state.DONE?
  }

  function SuccessCount(clients: map<nat, Client>, batch: seq<Ref>): nat
    requires AllExist(clients, batch)
  {
    if batch == [] then 0
    else
      var n := |batch| - 1;
      SuccessCount(clients, batch[..n]) + if Successful(TxOf(clients, batch[n])) then 1 else 0
  }

  predicate JobInv(s: Server, job: Job) {
    && AllExist(s.clients, job.batch) && InOrder(job.batch) && NotAcquired(s.clients, job.batch, 0)
    && (forall m :: 0 <= m < |job.batch| ==>
          TxOf(s.clients, job.batch[m]).owner == job.owner && TxOf(s.clients, job.batch[m]).request == job.request)
    && Ascending(job.todo) && (forall id :: id in job.todo ==> id in s.members)
    && (forall m, id :: 0 <= m < |job.batch| && id in job.todo ==> job.batch[m].client < id)
  }

  /** The transaction on its way is the newest of its client and has not been queued. */
  predicate TransitInv(s: Server)
    requires s.game.InTransit() && Exists(s.clients, s.game.Target())
  {
    var r := s.game.Target();
    && r.client in s.members
    && |s.clients[r.client].txs| == r.tx + 1 && r.tx !in s.clients[r.client].pushed
    && (if s.game.Emplaced? then TxOf(s.clients, r).state.IDLE? else TxOf(s.clients, r).state.SCHEDULED?)
  }

  predicate GameInv(s: Server) {
    match s.game
    case Idle(answer) =>
      answer.Counted? ==>
        && AllExist(s.clients, answer.batch) && InOrder(answer.batch)
        && answer.count == SuccessCount(s.clients, answer.batch)
    case Scheduling(job) => JobInv(s, job)
    case Emplaced(job) => JobInv(s, job) && s.game.InTransit() && TransitInv(s)
    case WantsQueue(job) => JobInv(s, job) && s.game.InTransit() && TransitInv(s)
    case HasQueue(job) => JobInv(s, job) && s.game.InTransit() && TransitInv(s)
    case Waiting(batch, next, count) =>
      && AllExist(s.clients, batch) && InOrder(batch) && next <= |batch| && NotAcquired(s.clients, batch, next)
      && count == SuccessCount(s.clients, batch[..next])
    case Judging(batch, next, count) =>
      && AllExist(s.clients, batch) && InOrder(batch) && next < |batch| && NotAcquired(s.clients, batch, next + 1)
      && TxOf(s.clients, batch[next]).acquired == 1
      && count == SuccessCount(s.clients, batch[..next])
    case Erasing(todo, _) => Ascending(todo) && forall id :: id in todo ==> id in s.members
    case Unmaking(id, todo, onlyInactive) =>
      && id in s.members && id in s.clients && (onlyInactive ==> s.clients[id].pc.Exited?)
      && id !in todo && Ascending(todo) && forall x :: x in todo ==> x in s.members
    case Joining(id, todo, onlyInactive) =>
      && id in s.members && id in s.clients && s.clients[id].stop && (onlyInactive ==> s.clients[id].pc.Exited?)
      && id !in todo && Ascending(todo) && forall x :: x in todo ==> x in s.members
    case _ => true
  }

  /** Outside the queues, only the transaction on its way can be SCHEDULED. */
  predicate StrayInv(s: Server) {
    forall id, i :: id in s.clients && 0 <= i < |s.clients[id].txs| && i !in s.clients[id].pushed ==>
      || s.clients[id].txs[i].state.IDLE?
      || ((s.game.WantsQueue? || s.game.HasQueue?) && s.game.InTransit() && s.game.Target() == Ref(id, i))
  }

  ghost predicate Inv(s: Server) {
    ClientsInv(s) && IdsInv(s) && LocksInv(s) && GameInv(s) && StrayInv(s)
  }

  lemma StartInv(limit: nat)
    ensures Inv(Start(limit))
  {
  }

  lemma InvSound(s: Server)
    requires Inv(s)
    ensures Sound(s)
  {
    forall id | id in s.clients ensures Bounded(s.clients[id]) {
      InvBounded(s.clients[id]);
    }
  }

  // ---------- what a step of a worker can change ----------

  /** `u` is `t` as the game thread sees it: only a transaction still in the worker's hands changes. */
  predicate SameOutside(t: Tx, u: Tx) {
    && u.owner == t.owner && u.request == t.request && u.acquired == t.acquired
    && (t.acquired == 1 ==> u.state == t.state)
  }

  predicate Evolved(k: Client, n: Client) {
    && |n.txs| == |k.txs| && n.pushed == k.pushed
    && (n.lock.GameThread? <==> k.lock.GameThread?)
    && (k.stop ==> n.stop) && (k.pc.Exited? ==> n.pc.Exited?)
    && (forall i :: 0 <= i < |k.txs| ==> SameOutside(k.txs[i], n.txs[i]))
    && (forall i :: 0 <= i < |k.txs| && i !in k.pushed ==> n.txs[i].state == k.txs[i].state)
  }

  lemma WorkerShape(k: Client, io: Io)
    requires Bounded(k) && Enabled(k)
    ensures var n := WorkerStep(k, io);
      && |n.txs| == |k.txs| && n.pushed == k.pushed && (k.stop ==> n.stop)
      && (k.lock.GameThread? && !k.pc.Holding? ==> n.lock.GameThread?)
      && (!k.lock.GameThread? ==> !n.lock.GameThread?)
  {
    StepRecords(k, io);
    if Serves(k) {
      ServingFrame(k, io);
    } else {
      QuietFrame(k, io);
    }
  }

  /** The game thread sees of a transaction in service only what the worker never changes. */
  lemma ServedOutside(k: Client, io: Io)
    requires Bounded(k) && Enabled(k) && k.pc.Busy() && InService(k.pc, k.txs[k.pc.tx])
    ensures |WorkerStep(k, io).txs| == |k.txs| && SameOutside(k.txs[k.pc.tx], WorkerStep(k, io).txs[k.pc.tx])
  {
    StepRecords(k, io);
  }

  lemma WorkerEvolves(k: Client, io: Io)
    requires ClientInv(k) && Bounded(k) && Enabled(k)
    ensures Evolved(k, WorkerStep(k, io))
  {
    var n := WorkerStep(k, io);
    WorkerShape(k, io);
    forall i | 0 <= i < |k.txs|
      ensures SameOutside(k.txs[i], n.txs[i]) && (i !in k.pushed ==> n.txs[i].state == k.txs[i].state)
    {
      if k.pc.Busy() && k.pc.tx == i {
        ServedOutside(k, io);
      } else {
        OthersUntouched(k, io, i);
      }
    }
  }

  /** The clients moved on by themselves; everything else is as it was. */
  predicate AllEvolved(s: Server, n: Server) {
    && n == s.(clients := n.clients)
    && s.clients.Keys == n.clients.Keys
    && (forall id :: id in s.clients ==> Evolved(s.clients[id], n.clients[id]))
  }

  /** Transactions known to the game thread are still there, as it knew them. */
  predicate Grown(k: Client, n: Client) {
    |k.txs| <= |n.txs| && forall i :: 0 <= i < |k.txs| ==> SameOutside(k.txs[i], n.txs[i])
  }

  predicate AllGrown(c: map<nat, Client>, d: map<nat, Client>) {
    forall id :: id in c ==> id in d && Grown(c[id], d[id])
  }

  lemma ExistKept(c: map<nat, Client>, d: map<nat, Client>, batch: seq<Ref>)
    requires AllGrown(c, d) && AllExist(c, batch)
    ensures AllExist(d, batch)
    ensures forall m :: 0 <= m < |batch| ==> SameOutside(TxOf(c, batch[m]), TxOf(d, batch[m]))
  {
  }

  lemma {:induction false} CountKept(c: map<nat, Client>, d: map<nat, Client>, batch: seq<Ref>)
    requires AllGrown(c, d) && AllExist(c, batch)
    ensures AllExist(d, batch) && SuccessCount(d, batch) == SuccessCount(c, batch)
    decreases batch
  {
    ExistKept(c, d, batch);
    if batch != [] {
      CountKept(c, d, batch[..|batch| - 1]);
      var r := batch[|batch| - 1];
      assert SameOutside(TxOf(c, r), TxOf(d, r));
    }
  }

  lemma JobKept(s: Server, n: Server, job: Job)
    requires AllGrown(s.clients, n.clients) && JobInv(s, job) && s.members <= n.members
    ensures JobInv(n, job)
  {
    ExistKept(s.clients, n.clients, job.batch);
  }

  lemma GameKept(s: Server, n: Server)
    requires AllEvolved(s, n) && GameInv(s)
    ensures GameInv(n)
  {
    match s.game
    case Idle(answer) => if answer.Counted? { CountKept(s.clients, n.clients, answer.batch); }
    case Scheduling(job) => JobKept(s, n, job);
    case Emplaced(job) => JobKept(s, n, job);
    case WantsQueue(job) => JobKept(s, n, job);
    case HasQueue(job) => JobKept(s, n, job);
    case Waiting(batch, next, _) => WaitKept(s.clients, n.clients, batch, next);
    case Judging(batch, next, _) => WaitKept(s.clients, n.clients, batch, next);
    case _ =>
  }

  lemma WaitKept(c: map<nat, Client>, d: map<nat, Client>, batch: seq<Ref>, next: nat)
    requires AllGrown(c, d) && AllExist(c, batch) && next <= |batch|
    ensures AllExist(d, batch) && SuccessCount(d, batch[..next]) == SuccessCount(c, batch[..next])
    ensures forall m :: 0 <= m < |batch| ==> TxOf(d, batch[m]).acquired == TxOf(c, batch[m]).acquired
  {
    ExistKept(c, d, batch);
    CountKept(c, d, batch[..next]);
  }

  lemma SharedKept(s: Server, n: Server)
    requires AllEvolved(s, n) && IdsInv(s) && LocksInv(s) && StrayInv(s)
    ensures IdsInv(n) && LocksInv(n) && StrayInv(n)
  {
    forall id, i | id in n.clients && 0 <= i < |n.clients[id].txs| && i !in n.clients[id].pushed
      ensures n.clients[id].txs[i].state == s.clients[id].txs[i].state
    {
    }
  }

  /** The clients moved on, each keeping its own invariant: so does the server. */
  lemma EvolvedInv(s: Server, n: Server)
    requires IdsInv(s) && LocksInv(s) && GameInv(s) && StrayInv(s) && AllEvolved(s, n)
    ensures IdsInv(n) && LocksInv(n) && GameInv(n) && StrayInv(n)
  {
    GameKept(s, n);
    SharedKept(s, n);
  }

  lemma OneClient(s: Server, n: Server, id: nat, k: Client)
    requires ClientsInv(s) && id in s.clients && ClientInv(k) && n.clients == s.clients[id := k]
    ensures ClientsInv(n)
  {
    forall x | x in n.clients ensures ClientInv(n.clients[x]) {
      if x != id {
        assert n.clients[x] == s.clients[x];
      }
    }
  }

  lemma OneEvolved(s: Server, n: Server, id: nat, k: Client)
    requires id in s.clients && Evolved(s.clients[id], k) && n == s.(clients := s.clients[id := k])
    ensures AllEvolved(s, n)
  {
  }

  lemma WorkerMovesInv(s: Server, id: nat, io: Io)
    requires Inv(s) && id in s.clients && Bounded(s.clients[id]) && Enabled(s.clients[id])
    ensures Inv(s.(clients := s.clients[id := WorkerStep(s.clients[id], io)]))
  {
    var n := s.(clients := s.clients[id := WorkerStep(s.clients[id], io)]);
    StepInv(s.clients[id], io);
    WorkerEvolves(s.clients[id], io);
    OneClient(s, n, id, n.clients[id]);
    OneEvolved(s, n, id, n.clients[id]);
    EvolvedInv(s, n);
  }

  lemma DroppedSimilar(k: Client, owner: nat)
    ensures SameButTxs(k, Dropped(k, owner))
    ensures forall i :: 0 <= i < |k.txs| ==> Similar(k.txs[i], Dropped(k, owner).txs[i])
  {
  }

  lemma DroppedInv(k: Client, owner: nat)
    requires ClientInv(k)
    ensures ClientInv(Dropped(k, owner))
  {
    DroppedSimilar(k, owner);
    SimilarInv(k, Dropped(k, owner));
  }

  lemma DroppedEvolves(k: Client, owner: nat)
    ensures Evolved(k, Dropped(k, owner))
  {
  }

  lemma DroppedClients(s: Server, n: Server, owner: nat)
    requires ClientsInv(s) && n.clients == DroppedAll(s.clients, owner)
    ensures ClientsInv(n)
  {
    forall id | id in n.clients ensures ClientInv(n.clients[id]) {
      DroppedInv(s.clients[id], owner);
    }
  }

  lemma DroppedAllInv(s: Server, owner: nat)
    requires Inv(s)
    ensures Inv(s.(clients := DroppedAll(s.clients, owner)))
  {
    var n := s.(clients := DroppedAll(s.clients, owner));
    DroppedClients(s, n, owner);
    DroppedAllEvolves(s, n, owner);
    EvolvedInv(s, n);
  }

  lemma DroppedAllEvolves(s: Server, n: Server, owner: nat)
    requires n == s.(clients := DroppedAll(s.clients, owner))
    ensures AllEvolved(s, n)
  {
    forall id | id in s.clients ensures Evolved(s.clients[id], n.clients[id]) {
      DroppedEvolves(s.clients[id], owner);
    }
  }

  lemma InsertedIds(s: Server, n: Server)
    requires IdsInv(s) && s.acceptor.Inserting? && n == AcceptorStep(s, true, true)
    ensures s.nextId !in s.clients && IdsInv(n)
  {
    assert s.nextId !in s.clients;
    assert |n.members| == |s.members| + 1;
  }

  lemma InsertedInv(s: Server)
    requires Inv(s) && s.acceptor.Inserting?
    ensures Inv(AcceptorStep(s, true, true))
  {
    var n := AcceptorStep(s, true, true);
    InsertedIds(s, n);
    InsertedGame(s, n);
    InsertedClients(s, n);
    InsertedStray(s, n);
  }

  lemma InsertedClients(s: Server, n: Server)
    requires ClientsInv(s) && n.clients == s.clients[s.nextId := NewClient()]
    ensures ClientsInv(n)
  {
    NewClientInv();
    forall x | x in n.clients ensures ClientInv(n.clients[x]) {
      if x != s.nextId {
        assert n.clients[x] == s.clients[x];
      }
    }
  }

  lemma InsertedStray(s: Server, n: Server)
    requires LocksInv(s) && StrayInv(s) && s.acceptor.Inserting? && n == AcceptorStep(s, true, true)
    ensures LocksInv(n) && StrayInv(n)
  {
  }

  lemma AcceptorChecks(s: Server, n: Server)
    requires IdsInv(s) && LocksInv(s) && n == s.(acceptor := n.acceptor, lock := n.lock)
    requires n.lock == s.lock || (s.lock.Free? && n.lock.ByAcceptor?)
    requires n.lock.ByAcceptor? <==> n.acceptor.Inserting?
    requires n.acceptor.WantsClients? || n.acceptor.Inserting? ==> |s.members| < s.limit
    ensures IdsInv(n) && LocksInv(n)
  {
  }

  lemma SameClients(s: Server, n: Server)
    requires Inv(s) && n.clients == s.clients && n.members == s.members && n.game == s.game
    requires IdsInv(n) && LocksInv(n)
    ensures Inv(n)
  {
    SameGame(s, n);
  }

  lemma SameGame(s: Server, n: Server)
    requires GameInv(s) && StrayInv(s) && n.clients == s.clients && n.members == s.members && n.game == s.game
    ensures GameInv(n) && StrayInv(n)
  {
  }

  /** Only the acceptor inserts, so the room it checked is still there when it has the lock. */
  lemma AcceptorMovesInv(s: Server, connection: bool, accepting: bool)
    requires Inv(s) && !s.acceptor.AcceptFailed? && (s.acceptor.WantsClients? ==> s.lock.Free?)
    ensures Inv(AcceptorStep(s, connection, accepting))
  {
    if s.acceptor.Inserting? {
      InsertedInv(s);
    } else {
      var n := AcceptorStep(s, connection, accepting);
      AcceptorChecks(s, n);
      SameClients(s, n);
    }
  }

  /** A new client touches none of the transactions the game thread knows. */
  lemma InsertedGame(s: Server, n: Server)
    requires GameInv(s) && s.nextId !in s.clients && !s.game.HoldsClients()
    requires n.game == s.game && n.clients == s.clients[s.nextId := NewClient()] && n.members == s.members + {s.nextId}
    ensures GameInv(n)
  {
    assert AllGrown(s.clients, n.clients);
    match s.game
    case Idle(answer) => if answer.Counted? { CountKept(s.clients, n.clients, answer.batch); }
    case Waiting(batch, next, _) => WaitKept(s.clients, n.clients, batch, next);
    case Judging(batch, next, _) => WaitKept(s.clients, n.clients, batch, next);
    case _ =>
  }

  // ---------- the game thread's steps ----------

  /** The game thread moved without touching a client. */
  lemma GameTurns(s: Server, n: Server)
    requires Inv(s) && n == s.(game := n.game, lock := n.lock)
    requires (n.lock.ByGame? <==> n.game.HoldsClients()) && !s.game.HasQueue? && !n.game.HasQueue?
    requires n.lock.ByAcceptor? <==> s.lock.ByAcceptor?
    requires GameInv(n) && !s.game.WantsQueue? && !n.game.WantsQueue?
    ensures Inv(n)
  {
  }

  lemma CallInv(s: Server, call: Call)
    requires Inv(s) && s.game.Idle?
    ensures Inv(s.(game := Calling(call)))
  {
    GameTurns(s, s.(game := Calling(call)));
  }

  /** The object is reset and the map is locked; nobody has been visited yet. */
  lemma RunBegins(s: Server, owner: nat, request: Packet, todo: seq<nat>)
    requires Inv(s) && s.game.Calling? && s.lock.Free? && Ascending(todo) && forall id :: id in todo ==> id in s.members
    ensures Inv(s.(clients := DroppedAll(s.clients, owner), lock := ByGame, game := Scheduling(Job(owner, request, todo, []))))
  {
    DroppedAllInv(s, owner);
    var d := s.(clients := DroppedAll(s.clients, owner));
    GameTurns(d, d.(lock := ByGame, game := Scheduling(Job(owner, request, todo, []))));
  }

  lemma RunThrows(s: Server, owner: nat)
    requires Inv(s) && s.game.Calling? && s.lock.Free?
    ensures Inv(s.(clients := DroppedAll(s.clients, owner), game := Thrown))
  {
    DroppedAllInv(s, owner);
    var d := s.(clients := DroppedAll(s.clients, owner));
    GameTurns(d, d.(game := Thrown));
  }

  lemma EraseBegins(s: Server, todo: seq<nat>, onlyInactive: bool)
    requires Inv(s) && s.game.Calling? && s.lock.Free? && Ascending(todo) && forall id :: id in todo ==> id in s.members
    ensures Inv(s.(lock := ByGame, game := Erasing(todo, onlyInactive)))
  {
    GameTurns(s, s.(lock := ByGame, game := Erasing(todo, onlyInactive)));
  }

  lemma SnapshotInv(s: Server, ids: seq<nat>)
    requires Inv(s) && s.game.Calling? && s.lock.Free?
    ensures Inv(s.(game := Idle(Roster(ids))))
  {
    GameTurns(s, s.(game := Idle(Roster(ids))));
  }

  lemma SingleBegins(s: Server, id: nat, owner: nat, request: Packet)
    requires Inv(s) && s.game.Calling? && s.lock.Free?
    ensures Inv(Begin(s, Single(id, owner, request)))
  {
    if id in s.members {
      RunBegins(s, owner, request, [id]);
    } else {
      RunThrows(s, owner);
    }
  }

  lemma BroadcastBegins(s: Server, owner: nat, request: Packet)
    requires Inv(s) && s.game.Calling? && s.lock.Free?
    ensures Inv(Begin(s, Broadcast(owner, request)))
  {
    RunBegins(s, owner, request, Ids(s.members, s.nextId));
  }

  lemma BeginInv(s: Server, call: Call)
    requires Inv(s) && s.game.Calling? && s.lock.Free?
    ensures Inv(Begin(s, call))
  {
    match call
    case Broadcast(owner, request) => BroadcastBegins(s, owner, request);
    case Single(id, owner, request) => SingleBegins(s, id, owner, request);
    case Remove(id) => EraseBegins(s, if id in s.members then [id] else [], false);
    case RemoveInactive => EraseBegins(s, Ids(s.members, s.nextId), true);
    case Snapshot => SnapshotInv(s, Ids(s.members, s.nextId));
  }

  lemma ScheduledAllInv(s: Server, job: Job)
    requires Inv(s) && s.game == Scheduling(job) && job.todo == []
    ensures Inv(Schedule(s, job))
  {
    GameTurns(s, Schedule(s, job));
  }

  lemma SkippedInv(s: Server, job: Job)
    requires Inv(s) && Sound(s) && s.game == Scheduling(job) && job.todo != [] && !s.clients[job.todo[0]].active
    ensures Inv(Schedule(s, job))
  {
    SkippedTo(s, job);
  }

  lemma SkippedTo(s: Server, job: Job)
    requires Inv(s) && s.game == Scheduling(job) && job.todo != []
    ensures Inv(s.(game := Scheduling(job.(todo := job.todo[1..]))))
  {
    var n := s.(game := Scheduling(job.(todo := job.todo[1..])));
    JobShrinks(s, job);
    SameJob(s, n, n.game.job);
    GameTurns(s, n);
  }

  lemma SameJob(s: Server, n: Server, job: Job)
    requires JobInv(s, job) && n.clients == s.clients && n.members == s.members
    ensures JobInv(n, job)
  {
  }

  lemma JobShrinks(s: Server, job: Job)
    requires JobInv(s, job) && job.todo != []
    ensures JobInv(s, job.(todo := job.todo[1..]))
    ensures job.todo[0] in s.members && forall m :: 0 <= m < |job.batch| ==> job.batch[m].client < job.todo[0]
    ensures forall id :: id in job.todo[1..] ==> job.todo[0] < id
  {
    assert job.todo[0] in job.todo;
    forall id | id in job.todo[1..] ensures id in job.todo && job.todo[0] < id {
      var a :| 0 <= a < |job.todo[1..]| && job.todo[1..][a] == id;
      assert job.todo[a + 1] == id;
    }
  }

  lemma CreatedGame(s: Server, n: Server, job: Job)
    requires JobInv(s, job) && job.todo != [] && job.todo[0] in s.clients
    requires IdsInv(s) && OrderInv(s.clients[job.todo[0]]) && s.game == Scheduling(job)
    requires s.clients[job.todo[0]].active && n == Schedule(s, job)
    ensures GameInv(n)
  {
    var id := job.todo[0];
    var r := Ref(id, |s.clients[id].txs|);
    CreatedRest(s, n, job);
    CreatedTx(s, n, job);
    assert n.game.job == job.(todo := job.todo[1..], batch := job.batch + [r]);
    assert n.game.Target() == r;
  }

  /** What was emplaced before stays so. */
  lemma CreatedRest(s: Server, n: Server, job: Job)
    requires JobInv(s, job) && job.todo != [] && job.todo[0] in s.clients
    requires s.clients[job.todo[0]].active && n == Schedule(s, job)
    ensures JobInv(n, job.(todo := job.todo[1..]))
    ensures job.todo[0] in n.members && forall m :: 0 <= m < |job.batch| ==> job.batch[m].client < job.todo[0]
    ensures forall id :: id in job.todo[1..] ==> job.todo[0] < id
  {
    JobShrinks(s, job);
    assert AllGrown(s.clients, n.clients);
    JobKept(s, n, job.(todo := job.todo[1..]));
  }

  lemma CreatedTx(s: Server, n: Server, job: Job)
    requires job.todo != [] && job.todo[0] in s.clients && OrderInv(s.clients[job.todo[0]])
    requires s.clients[job.todo[0]].active && n == Schedule(s, job)
    ensures var k := s.clients[job.todo[0]]; var r := Ref(job.todo[0], |k.txs|);
      && Exists(n.clients, r) && |n.clients[r.client].txs| == r.tx + 1 && r.tx !in n.clients[r.client].pushed
      && TxOf(n.clients, r) == NewTx(job.owner, job.request)
  {
    var k := s.clients[job.todo[0]];
    assert |k.txs| !in k.pushed;
  }

  lemma CreatedStray(s: Server, n: Server, job: Job)
    requires StrayInv(s) && LocksInv(s) && IdsInv(s) && job.todo != [] && job.todo[0] in s.clients
    requires s.game == Scheduling(job)
    requires s.clients[job.todo[0]].active && n == Schedule(s, job)
    ensures StrayInv(n) && LocksInv(n) && IdsInv(n)
  {
  }

  lemma ScheduleInv(s: Server, job: Job)
    requires Inv(s) && Sound(s) && s.game == Scheduling(job) && job.todo != [] && s.clients[job.todo[0]].active
    ensures Inv(Schedule(s, job))
  {
    var n := Schedule(s, job);
    var id := job.todo[0];
    CreatedInv(s.clients[id], job.owner, job.request);
    OneClient(s, n, id, Created(s.clients[id], job.owner, job.request));
    CreatedGame(s, n, job);
    CreatedStray(s, n, job);
  }

  // The transaction on its way: scheduled, then queued.

  lemma TransitFacts(s: Server)
    requires Inv(s) && s.game.InTransit()
    ensures JobInv(s, s.game.job) && Exists(s.clients, s.game.Target()) && TransitInv(s) && s.lock.ByGame?
    ensures s.game.HasQueue? ==> s.clients[s.game.Target().client].lock.GameThread?
  {
  }

  /** It is still on its way, and still the newest of its client. */
  lemma TransitOn(s: Server, n: Server, k: Client)
    requires s.game.InTransit() && Exists(s.clients, s.game.Target()) && TransitInv(s)
    requires n.game.InTransit() && !n.game.Emplaced? && n.game.job == s.game.job && n.members == s.members
    requires n.clients == s.clients[s.game.Target().client := k] && k.pushed == s.clients[s.game.Target().client].pushed
    requires |k.txs| == |s.clients[s.game.Target().client].txs| && k.txs[s.game.Target().tx].state.SCHEDULED?
    ensures Exists(n.clients, n.game.Target()) && TransitInv(n)
  {
  }

  /** The client the transaction on its way is for changes; every transaction keeps its identity. */
  lemma TransitJob(s: Server, n: Server, k: Client)
    requires s.game.InTransit() && JobInv(s, s.game.job) && Exists(s.clients, s.game.Target())
    requires n.clients == s.clients[s.game.Target().client := k] && n.members == s.members
    requires Grown(s.clients[s.game.Target().client], k)
    ensures JobInv(n, s.game.job)
  {
    assert AllGrown(s.clients, n.clients);
    JobKept(s, n, s.game.job);
  }

  lemma TransitClient(s: Server, n: Server, k: Client)
    requires ClientsInv(s) && ClientInv(k)
    requires s.game.InTransit() && JobInv(s, s.game.job) && Exists(s.clients, s.game.Target())
    requires n.clients == s.clients[s.game.Target().client := k] && n.members == s.members
    requires Grown(s.clients[s.game.Target().client], k)
    ensures ClientsInv(n) && JobInv(n, s.game.job)
  {
    OneClient(s, n, s.game.Target().client, k);
    TransitJob(s, n, k);
  }

  lemma AbandonedInv(s: Server)
    requires Inv(s) && s.game.Emplaced?
    ensures Inv(s.(game := Scheduling(s.game.job)))
  {
    GameTurns(s, s.(game := Scheduling(s.game.job)));
  }

  lemma MarkedShared(s: Server, n: Server)
    requires IdsInv(s) && LocksInv(s) && StrayInv(s) && s.game.Emplaced? && s.game.InTransit()
    requires Exists(s.clients, s.game.Target())
    requires var r := s.game.Target();
      n == s.(clients := s.clients[r.client := Scheduled(s.clients[r.client], r.tx)], game := WantsQueue(s.game.job))
    ensures IdsInv(n) && LocksInv(n) && StrayInv(n)
  {
  }

  lemma MarkedTo(s: Server, n: Server)
    requires Inv(s) && s.game.Emplaced? && s.game.InTransit() && Exists(s.clients, s.game.Target())
    requires var r := s.game.Target();
      n == s.(clients := s.clients[r.client := Scheduled(s.clients[r.client], r.tx)], game := WantsQueue(s.game.job))
    ensures Inv(n)
  {
    var r := s.game.Target();
    TransitFacts(s);
    ScheduledInv(s.clients[r.client], r.tx);
    TransitClient(s, n, Scheduled(s.clients[r.client], r.tx));
    TransitOn(s, n, Scheduled(s.clients[r.client], r.tx));
    MarkedShared(s, n);
  }

  lemma MarkedInv(s: Server)
    requires Inv(s) && Sound(s) && s.game.Emplaced? && s.clients[s.game.Target().client].active
    ensures Inv(Enqueue(s))
  {
    MarkedTo(s, Enqueue(s));
  }

  lemma LockedShared(s: Server, n: Server)
    requires IdsInv(s) && LocksInv(s) && StrayInv(s) && s.game.WantsQueue? && s.game.InTransit()
    requires Exists(s.clients, s.game.Target())
    requires var r := s.game.Target();
      n == s.(clients := s.clients[r.client := QueueLocked(s.clients[r.client])], game := HasQueue(s.game.job))
    ensures IdsInv(n) && LocksInv(n) && StrayInv(n)
  {
  }

  lemma LockedTo(s: Server, n: Server)
    requires Inv(s) && s.game.WantsQueue? && s.game.InTransit() && Exists(s.clients, s.game.Target())
    requires var r := s.game.Target(); s.clients[r.client].lock.Nobody?
    requires var r := s.game.Target();
      n == s.(clients := s.clients[r.client := QueueLocked(s.clients[r.client])], game := HasQueue(s.game.job))
    ensures Inv(n)
  {
    var r := s.game.Target();
    TransitFacts(s);
    QueueLockedInv(s.clients[r.client]);
    TransitClient(s, n, QueueLocked(s.clients[r.client]));
    TransitOn(s, n, QueueLocked(s.clients[r.client]));
    LockedShared(s, n);
  }

  lemma LockedInv(s: Server)
    requires Inv(s) && Sound(s) && s.game.WantsQueue? && s.clients[s.game.Target().client].lock.Nobody?
    ensures Inv(Enqueue(s))
  {
    LockedTo(s, Enqueue(s));
  }

  lemma QueuedShared(s: Server, n: Server)
    requires IdsInv(s) && LocksInv(s) && StrayInv(s) && s.game.HasQueue? && s.game.InTransit()
    requires Exists(s.clients, s.game.Target())
    requires var r := s.game.Target();
      n == s.(clients := s.clients[r.client := QueuePushed(s.clients[r.client], r.tx)], game := Scheduling(s.game.job))
    ensures IdsInv(n) && LocksInv(n) && StrayInv(n)
  {
    var r := s.game.Target();
    assert r.tx in n.clients[r.client].pushed;
    forall i | i in s.clients[r.client].pushed ensures i in n.clients[r.client].pushed {
    }
  }

  lemma QueuedTo(s: Server, n: Server)
    requires Inv(s) && s.game.HasQueue? && s.game.InTransit() && Exists(s.clients, s.game.Target())
    requires var r := s.game.Target();
      n == s.(clients := s.clients[r.client := QueuePushed(s.clients[r.client], r.tx)], game := Scheduling(s.game.job))
    ensures Inv(n)
  {
    var r := s.game.Target();
    TransitFacts(s);
    QueuePushedInv(s.clients[r.client], r.tx);
    TransitClient(s, n, QueuePushed(s.clients[r.client], r.tx));
    QueuedShared(s, n);
  }

  lemma QueuedInv(s: Server)
    requires Inv(s) && Sound(s) && s.game.HasQueue?
    ensures Inv(Enqueue(s))
  {
    QueuedTo(s, Enqueue(s));
  }

  // Waiting for the batch.

  lemma NextCount(clients: map<nat, Client>, batch: seq<Ref>, next: nat)
    requires AllExist(clients, batch) && next < |batch|
    ensures SuccessCount(clients, batch[..next + 1])
         == SuccessCount(clients, batch[..next]) + if Successful(TxOf(clients, batch[next])) then 1 else 0
  {
    assert batch[..next + 1][..next] == batch[..next];
  }

  lemma WaitedInv(s: Server)
    requires Inv(s) && s.game.Waiting? && s.game.next >= |s.game.batch|
    ensures Inv(s.(game := Idle(Counted(s.game.batch, s.game.count))))
  {
    assert s.game.batch[..s.game.next] == s.game.batch;
    GameTurns(s, s.(game := Idle(Counted(s.game.batch, s.game.count))));
  }

  lemma ExpiredInv(s: Server)
    requires Inv(s) && s.game.Waiting? && s.game.next < |s.game.batch|
    ensures Inv(s.(game := Waiting(s.game.batch, s.game.next + 1, s.game.count)))
  {
    NextCount(s.clients, s.game.batch, s.game.next);
    GameTurns(s, s.(game := Waiting(s.game.batch, s.game.next + 1, s.game.count)));
  }

  lemma JudgedInv(s: Server)
    requires Inv(s) && Sound(s) && s.game.Judging?
    ensures Inv(GameStep(s, false))
  {
    JudgedTo(s, if TxOf(s.clients, s.game.batch[s.game.next]).state.DONE? then s.game.count + 1 else s.game.count);
  }

  lemma JudgedTo(s: Server, count: nat)
    requires Inv(s) && s.game.Judging? && s.game.next < |s.game.batch| && Exists(s.clients, s.game.batch[s.game.next])
    requires count == if TxOf(s.clients, s.game.batch[s.game.next]).state.DONE? then s.game.count + 1 else s.game.count
    ensures Inv(s.(game := Waiting(s.game.batch, s.game.next + 1, count)))
  {
    NextCount(s.clients, s.game.batch, s.game.next);
    GameTurns(s, s.(game := Waiting(s.game.batch, s.game.next + 1, count)));
  }

  /** Taking one signal leaves every other transaction of the batch as it was. */
  lemma TakenRefs(c: map<nat, Client>, d: map<nat, Client>, batch: seq<Ref>, next: nat)
    requires AllExist(c, batch) && InOrder(batch) && next < |batch| && TxOf(c, batch[next]).signal > 0
    requires var r := batch[next]; d == c[r.client := Acquired(c[r.client], r.tx)]
    ensures AllExist(d, batch)
    ensures forall m :: 0 <= m < |batch| && m != next ==> TxOf(d, batch[m]) == TxOf(c, batch[m])
    ensures TxOf(d, batch[next]).acquired == TxOf(c, batch[next]).acquired + 1
  {
  }

  lemma {:induction false} SameCount(c: map<nat, Client>, d: map<nat, Client>, batch: seq<Ref>)
    requires AllExist(c, batch) && AllExist(d, batch)
    requires forall m :: 0 <= m < |batch| ==> TxOf(d, batch[m]) == TxOf(c, batch[m])
    ensures SuccessCount(d, batch) == SuccessCount(c, batch)
    decreases batch
  {
    if batch != [] {
      SameCount(c, d, batch[..|batch| - 1]);
    }
  }

  lemma TakenGame(s: Server, n: Server)
    requires GameInv(s) && s.game.Waiting? && s.game.next < |s.game.batch|
    requires TxOf(s.clients, s.game.batch[s.game.next]).signal > 0
    requires n == Wait(s, s.game.batch, s.game.next, s.game.count, false)
    ensures GameInv(n)
  {
    TakenRefs(s.clients, n.clients, s.game.batch, s.game.next);
    SameCount(s.clients, n.clients, s.game.batch[..s.game.next]);
  }

  lemma TakenShared(s: Server, n: Server)
    requires IdsInv(s) && LocksInv(s) && StrayInv(s) && s.game.Waiting? && s.game.next < |s.game.batch|
    requires Exists(s.clients, s.game.batch[s.game.next]) && TxOf(s.clients, s.game.batch[s.game.next]).signal > 0
    requires n == Wait(s, s.game.batch, s.game.next, s.game.count, false)
    ensures IdsInv(n) && LocksInv(n) && StrayInv(n)
  {
  }

  lemma TakenInv(s: Server)
    requires Inv(s) && Sound(s) && s.game.Waiting? && s.game.next < |s.game.batch|
    requires TxOf(s.clients, s.game.batch[s.game.next]).signal > 0
    ensures Inv(Wait(s, s.game.batch, s.game.next, s.game.count, false))
  {
    var n := Wait(s, s.game.batch, s.game.next, s.game.count, false);
    var r := s.game.batch[s.game.next];
    AcquiredInv(s.clients[r.client], r.tx);
    OneClient(s, n, r.client, Acquired(s.clients[r.client], r.tx));
    TakenGame(s, n);
    TakenShared(s, n);
  }

  lemma WaitInv(s: Server, expire: bool)
    requires Inv(s) && Sound(s) && s.game.Waiting? && GameCanMove(s, expire)
    ensures Inv(Wait(s, s.game.batch, s.game.next, s.game.count, expire))
  {
    if s.game.next >= |s.game.batch| {
      WaitedInv(s);
    } else if expire {
      ExpiredInv(s);
    } else {
      TakenInv(s);
    }
  }

  // Removing clients.

  lemma TodoShrinks(s: Server, todo: seq<nat>)
    requires Ascending(todo) && todo != [] && forall id :: id in todo ==> id in s.members
    ensures Ascending(todo[1..]) && todo[0] in s.members && todo[0] !in todo[1..] && forall id :: id in todo[1..] ==> id in s.members
  {
    assert todo[0] in todo;
    forall id | id in todo[1..] ensures id in todo && id != todo[0] {
      var a :| 0 <= a < |todo[1..]| && todo[1..][a] == id;
      assert todo[a + 1] == id;
    }
  }

  lemma EraseSkips(s: Server)
    requires Inv(s) && Sound(s) && s.game.Erasing?
    requires s.game.todo == [] || (s.game.onlyInactive && s.clients[s.game.todo[0]].active)
    ensures Inv(Erase(s, s.game.todo, s.game.onlyInactive))
  {
    if s.game.todo != [] {
      TodoShrinks(s, s.game.todo);
    }
    GameTurns(s, Erase(s, s.game.todo, s.game.onlyInactive));
  }

  lemma EvictedEvolves(k: Client)
    ensures Evolved(k, Evicted(k))
  {
  }

  /** Asking a worker to stop is nothing its client's invariant minds. */
  lemma EvictedAllInv(s: Server, id: nat)
    requires Inv(s) && id in s.clients
    ensures Inv(s.(clients := s.clients[id := Evicted(s.clients[id])]))
  {
    var n := s.(clients := s.clients[id := Evicted(s.clients[id])]);
    Connection.EvictedInv(s.clients[id]);
    OneClient(s, n, id, Evicted(s.clients[id]));
    EvictedEvolves(s.clients[id]);
    OneEvolved(s, n, id, Evicted(s.clients[id]));
    EvolvedInv(s, n);
  }

  lemma DestroyedEvolves(k: Client)
    ensures Evolved(k, QueueDestroyed(k))
  {
  }

  lemma DestroyedAllInv(s: Server, id: nat)
    requires Inv(s) && id in s.clients
    ensures Inv(s.(clients := s.clients[id := QueueDestroyed(s.clients[id])]))
  {
    var n := s.(clients := s.clients[id := QueueDestroyed(s.clients[id])]);
    QueueDestroyedInv(s.clients[id]);
    OneClient(s, n, id, QueueDestroyed(s.clients[id]));
    DestroyedEvolves(s.clients[id]);
    OneEvolved(s, n, id, QueueDestroyed(s.clients[id]));
    EvolvedInv(s, n);
  }

  /** A worker whose client is inactive has returned. */
  lemma InactiveReturned(s: Server, id: nat)
    requires ClientsInv(s) && id in s.clients
    ensures s.clients[id].active <==> !s.clients[id].pc.Exited?
  {
  }

  lemma EraseStops(s: Server)
    requires Inv(s) && Sound(s) && s.game.Erasing?
    requires s.game.todo != [] && !(s.game.onlyInactive && s.clients[s.game.todo[0]].active)
    ensures Inv(Erase(s, s.game.todo, s.game.onlyInactive))
  {
    var id := s.game.todo[0];
    TodoShrinks(s, s.game.todo);
    InactiveReturned(s, id);
    DestroyedAllInv(s, id);
    GameTurns(s.(clients := s.clients[id := QueueDestroyed(s.clients[id])]), Erase(s, s.game.todo, s.game.onlyInactive));
  }

  lemma UnmadeInv(s: Server)
    requires Inv(s) && s.game.Unmaking?
    ensures Inv(s.(clients := s.clients[s.game.id := Evicted(s.clients[s.game.id])],
                   game := Joining(s.game.id, s.game.todo, s.game.onlyInactive)))
  {
    var n := s.(clients := s.clients[s.game.id := Evicted(s.clients[s.game.id])]);
    EvictedAllInv(s, s.game.id);
    GameTurns(n, n.(game := Joining(s.game.id, s.game.todo, s.game.onlyInactive)));
  }

  lemma JoinedIds(s: Server, n: Server, id: nat)
    requires IdsInv(s) && id in s.members && s.clients[id].pc.Exited?
    requires n == s.(members := s.members - {id}, game := n.game)
    ensures IdsInv(n)
  {
    assert |n.members| == |s.members| - 1;
  }

  lemma JoinedInv(s: Server)
    requires Inv(s) && s.game.Joining? && s.clients[s.game.id].pc.Exited?
    ensures Inv(s.(members := s.members - {s.game.id}, game := Erasing(s.game.todo, s.game.onlyInactive)))
  {
    var n := s.(members := s.members - {s.game.id}, game := Erasing(s.game.todo, s.game.onlyInactive));
    JoinedIds(s, n, s.game.id);
    JoinedShared(s, n);
  }

  lemma JoinedShared(s: Server, n: Server)
    requires ClientsInv(s) && LocksInv(s) && StrayInv(s) && s.game.Joining?
    requires n == s.(members := n.members, game := Erasing(s.game.todo, s.game.onlyInactive))
    ensures ClientsInv(n) && LocksInv(n) && StrayInv(n)
  {
  }

  lemma EnqueueInv(s: Server)
    requires Inv(s) && Sound(s) && (s.game.Emplaced? || s.game.WantsQueue? || s.game.HasQueue?) && GameCanMove(s, false)
    ensures Inv(Enqueue(s))
  {
    if s.game.WantsQueue? {
      LockedInv(s);
    } else if s.game.HasQueue? {
      QueuedInv(s);
    } else if s.clients[s.game.Target().client].active {
      MarkedInv(s);
    } else {
      AbandonedInv(s);
    }
  }

  lemma ScheduleStepInv(s: Server)
    requires Inv(s) && Sound(s) && s.game.Scheduling?
    ensures Inv(Schedule(s, s.game.job))
  {
    if s.game.job.todo == [] {
      ScheduledAllInv(s, s.game.job);
    } else if s.clients[s.game.job.todo[0]].active {
      ScheduleInv(s, s.game.job);
    } else {
      SkippedInv(s, s.game.job);
    }
  }

  lemma EraseInv(s: Server)
    requires Inv(s) && Sound(s) && s.game.Erasing?
    ensures Inv(Erase(s, s.game.todo, s.game.onlyInactive))
  {
    if s.game.todo == [] || (s.game.onlyInactive && s.clients[s.game.todo[0]].active) {
      EraseSkips(s);
    } else {
      EraseStops(s);
    }
  }

  lemma GameStepInv(s: Server, expire: bool)
    requires Inv(s) && Sound(s) && GameCanMove(s, expire)
    ensures Inv(GameStep(s, expire))
  {
    if s.game.Scheduling? || s.game.Emplaced? || s.game.WantsQueue? || s.game.HasQueue? {
      JobStepInv(s, expire);
    } else if s.game.Erasing? || s.game.Unmaking? || s.game.Joining? {
      RemovalStepInv(s, expire);
    } else {
      match s.game
      case Calling(call) => BeginInv(s, call);
      case Waiting(_, _, _) => WaitInv(s, expire);
      case Judging(_, _, _) => JudgedInv(s);
    }
  }

  lemma JobStepInv(s: Server, expire: bool)
    requires Inv(s) && Sound(s) && GameCanMove(s, expire)
    requires s.game.Scheduling? || s.game.Emplaced? || s.game.WantsQueue? || s.game.HasQueue?
    ensures Inv(GameStep(s, expire))
  {
    if s.game.Scheduling? {
      ScheduleStepInv(s);
    } else {
      EnqueueInv(s);
    }
  }

  lemma RemovalStepInv(s: Server, expire: bool)
    requires Inv(s) && Sound(s) && GameCanMove(s, expire)
    requires s.game.Erasing? || s.game.Unmaking? || s.game.Joining?
    ensures Inv(GameStep(s, expire))
  {
    match s.game
    case Erasing(_, _) => EraseInv(s);
    case Unmaking(_, _, _) => UnmadeInv(s);
    case Joining(_, _, _) => JoinedInv(s);
  }

  /** Every step of every thread keeps the invariant. */
  lemma NextInv(s: Server, step: Step)
    requires Inv(s) && Sound(s) && Possible(s, step)
    ensures Inv(Next(s, step))
  {
    match step
    case WorkerMoves(id, io) => WorkerMovesInv(s, id, io);
    case GameCalls(call) => CallInv(s, call);
    case GameDestroys(owner) => DroppedAllInv(s, owner);
    case GameMoves(expire) => GameStepInv(s, expire);
    case AcceptorMoves(connection, accepting) => AcceptorMovesInv(s, connection, accepting);
  }
}
