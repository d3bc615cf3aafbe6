/**
 A run of the whole program in which a client that came late is asked to move without knowing
 the food or the players.
 */
module LateClient {
  import opened Packets
  import opened Connection
  import opened S = Server
  import opened Runs
  import opened Scripts
  import opened EndToEnd

  // ---------- runs ----------

  /** The actions lead from the start of the program to `x`. */
  ghost predicate Comes(a: seq<Action>, x: System) {
    LegalRun(Boot(), a) && EndOf(Boot(), a) == x && SystemInv(x)
  }

  lemma {:induction false} RunJoined(x: System, a: seq<Action>, b: seq<Action>)
    requires LegalRun(x, a) && LegalRun(EndOf(x, a), b)
    ensures LegalRun(x, a + b) && EndOf(x, a + b) == EndOf(EndOf(x, a), b)
    decreases a
  {
    if a == [] {
      assert a + b == b;
    } else {
      assert (a + b)[1..] == a[1..] + b;
      RunJoined(Act(x, a[0]), a[1..], b);
    }
  }

  lemma ComesWellformed(a: seq<Action>, x: System)
    requires Comes(a, x)
    ensures Wellformed(x)
  {
    InvSound(x.srv);
    MatchWellformed(x.m, x.sent);
  }

  lemma OneAct(x: System, act: Action)
    requires Wellformed(x) && Legitimate(x, act)
    ensures LegalRun(x, [act]) && EndOf(x, [act]) == Act(x, act)
  {
    assert [act][1..] == [];
  }

  /** One more action. */
  lemma ComesBy(a: seq<Action>, x: System, act: Action, y: System) returns (b: seq<Action>)
    requires Comes(a, x) && Wellformed(x) && Legitimate(x, act) && Act(x, act) == y
    ensures Comes(b, y)
  {
    ActInv(x, act);
    OneAct(x, act);
    RunJoined(Boot(), a, [act]);
    b := a + [act];
  }

  function Elsewheres(steps: seq<Step>): seq<Action> {
    if steps == [] then [] else [Elsewhere(steps[0])] + Elsewheres(steps[1..])
  }

  lemma InnerAct(x: System, step: Step)
    requires SystemInv(x) && Sound(x.srv) && Possible(x.srv, step) && Patient(step) && !step.GameCalls?
    requires !step.AcceptorMoves?
    ensures Wellformed(x) && Legitimate(x, Elsewhere(step))
    ensures Act(x, Elsewhere(step)) == x.(srv := Next(x.srv, step)) && SystemInv(x.(srv := Next(x.srv, step)))
  {
    MatchWellformed(x.m, x.sent);
    ActInv(x, Elsewhere(step));
    NobodyJoins(x.srv, step);
    Stays(x, Next(x.srv, step));
  }

  lemma NobodyJoins(s: S.Server, step: Step)
    requires Sound(s) && Possible(s, step) && Patient(step) && !step.GameCalls? && !step.AcceptorMoves?
    ensures Next(s, step).nextId == s.nextId
  {
  }

  lemma Stays(x: System, n: S.Server)
    requires n.nextId == x.srv.nextId
    ensures Gone(x, n) == x.(srv := n)
  {
  }

  lemma InnerRest(steps: seq<Step>)
    requires Inner(steps) && steps != []
    ensures var step := steps[0]; Patient(step) && !step.GameCalls? && !step.AcceptorMoves?
    ensures Inner(steps[1..])
  {
    assert forall n :: 0 <= n < |steps[1..]| ==> steps[1..][n] == steps[n + 1];
  }

  /** What the server does by itself is a run of the program. */
  lemma {:induction false} InnerRun(x: System, steps: seq<Step>)
    requires SystemInv(x) && Legal(x.srv, steps) && Inner(steps)
    ensures LegalRun(x, Elsewheres(steps)) && EndOf(x, Elsewheres(steps)) == x.(srv := After(x.srv, steps))
    ensures SystemInv(x.(srv := After(x.srv, steps)))
    decreases steps
  {
    if steps != [] {
      InnerAct(x, steps[0]);
      InnerRest(steps);
      InnerRun(x.(srv := Next(x.srv, steps[0])), steps[1..]);
      assert Elsewheres(steps)[1..] == Elsewheres(steps[1..]);
    }
  }

  lemma ComesOn(a: seq<Action>, x: System, steps: seq<Step>, n: S.Server) returns (b: seq<Action>)
    requires Comes(a, x) && Leads(x.srv, steps, n)
    ensures Comes(b, x.(srv := n))
  {
    InnerRun(x, steps);
    RunJoined(Boot(), a, Elsewheres(steps));
    b := a + Elsewheres(steps);
  }

  // ---------- a client connects ----------

  function LetIn(x: System): System {
    var s := x.srv;
    x.(srv := s.(members := s.members + {s.nextId}, clients := s.clients[s.nextId := NewClient()], nextId := s.nextId + 1,
                 lock := Free, acceptor := Accepting),
       joined := x.joined[s.nextId := |Due(x, s.nextId)|])
  }

  /** One step of the server. */
  lemma ComesElsewhere(a: seq<Action>, x: System, step: Step, n: S.Server) returns (b: seq<Action>)
    requires Comes(a, x) && Sound(x.srv) && Possible(x.srv, step) && Patient(step) && !step.GameCalls?
    requires Next(x.srv, step) == n
    ensures Comes(b, Gone(x, n)) && Sound(n)
  {
    ComesWellformed(a, x);
    b := ComesBy(a, x, Elsewhere(step), Gone(x, n));
    ComesWellformed(b, Gone(x, n));
  }

  lemma Asks(s: S.Server)
    requires Sound(s) && s.acceptor.Accepting? && |s.members| < s.limit
    ensures Possible(s, CONNECT) && Next(s, CONNECT) == s.(acceptor := WantsClients)
  {
  }

  lemma Enters(s: S.Server)
    requires Sound(s) && s.acceptor.WantsClients? && s.lock.Free?
    ensures Possible(s, CONNECT) && Next(s, CONNECT) == s.(lock := ByAcceptor, acceptor := Inserting)
  {
  }

  lemma LetsIn(a: seq<Action>, x: System) returns (b: seq<Action>)
    requires Comes(a, x) && x.srv.acceptor.Accepting? && x.srv.lock.Free? && |x.srv.members| < x.srv.limit
    ensures Comes(b, LetIn(x))
  {
    var n1 := x.srv.(acceptor := WantsClients);
    ComesWellformed(a, x);
    Asks(x.srv);
    b := ComesElsewhere(a, x, CONNECT, n1);
    Stays(x, n1);
    b := Entered(b, x.(srv := n1));
    LetInIsGone(x, x.(srv := n1.(lock := ByAcceptor, acceptor := Inserting)));
  }

  lemma Entered(a: seq<Action>, x: System) returns (b: seq<Action>)
    requires Comes(a, x) && Sound(x.srv) && x.srv.acceptor.WantsClients? && x.srv.lock.Free?
    ensures var y := x.(srv := x.srv.(lock := ByAcceptor, acceptor := Inserting)); Comes(b, Gone(y, LetIn(y).srv))
  {
    var n := x.srv.(lock := ByAcceptor, acceptor := Inserting);
    Enters(x.srv);
    b := ComesElsewhere(a, x, CONNECT, n);
    Stays(x, n);
    Inserts(n);
    b := ComesElsewhere(b, x.(srv := n), CONNECT, LetIn(x.(srv := n)).srv);
  }

  lemma Inserts(s: S.Server)
    requires Sound(s) && s.acceptor.Inserting?
    ensures Possible(s, CONNECT)
    ensures Next(s, CONNECT) == s.(members := s.members + {s.nextId}, clients := s.clients[s.nextId := NewClient()],
                                   nextId := s.nextId + 1, lock := Free, acceptor := Accepting)
  {
  }

  lemma LetInIsGone(x: System, y: System)
    requires y.srv == x.srv.(lock := y.srv.lock, acceptor := y.srv.acceptor) && y == x.(srv := y.srv)
    requires x.srv.lock.Free? && x.srv.acceptor.Accepting?
    ensures Gone(y, LetIn(x).srv) == LetIn(x)
  {
  }

  // ---------- the first client is invited ----------

  lemma GameGoes(s: S.Server, n: S.Server)
    requires Inv(s) && Sound(s) && GameCanMove(s, false) && GameStep(s, false) == n
    ensures Goes(s, n)
  {
    NextInv(s, GAME);
  }

  /** Nobody is inactive on an empty server. */
  lemma PurgesNobody(limit: nat)
    ensures Leads(Start(limit).(game := Calling(RemoveInactive)), [GAME] + [GAME], Start(limit))
  {
    var s := Start(limit).(game := Calling(RemoveInactive));
    var s1 := Start(limit).(lock := ByGame, game := Erasing([], true));
    StartInv(limit);
    CallInv(Start(limit), RemoveInactive);
    GameGoes(s, s1);
    GameGoes(s1, Start(limit));
    TwoGo(s, s1, Start(limit));
  }

  const INVITING := M.Fresh().(phase := M.NewGame)

  /** A match has been started. */
  lemma Begun() returns (a: seq<Action>)
    ensures Comes(a, System(Start(CLIENT_LIMIT), INVITING, [], [], Boundary, map[]))
  {
    var x := Boot().(flow := Purging);
    var x1 := x.(srv := Start(CLIENT_LIMIT).(game := Calling(RemoveInactive)));
    BootInv();
    a := [];
    ComesWellformed(a, Boot());
    a := ComesBy(a, Boot(), NewMatch, x1);
    PurgesNobody(CLIENT_LIMIT);
    a := ComesOn(a, x1, [GAME] + [GAME], Start(CLIENT_LIMIT));
    ComesWellformed(a, x);
    a := ComesBy(a, x, Purged, x.(flow := Boundary, m := INVITING));
  }

  /** The program while its only client is `k`. */
  function Alone(k: Client, game: GamePc, m: M.Match, sent: seq<Packet>, log: seq<Packet>, flow: Flow): System {
    System(Solo(CLIENT_LIMIT, k, Free, game), m, sent, log, flow, map[0 := 0])
  }

  lemma FirstIn() returns (a: seq<Action>)
    ensures Comes(a, Alone(NewClient(), Idle(NoAnswer), INVITING, [], [], Boundary))
  {
    var x := System(Start(CLIENT_LIMIT), INVITING, [], [], Boundary, map[]);
    a := Begun();
    a := LetsIn(a, x);
    assert LetIn(x).srv == Solo(CLIENT_LIMIT, NewClient(), Free, Idle(NoAnswer));
    assert LetIn(x).joined == map[0 := 0];
  }

  lemma SnapshotStep(limit: nat, k: Client)
    ensures Begin(Solo(limit, k, Free, Calling(Snapshot)), Snapshot) == Solo(limit, k, Free, Idle(Roster([0])))
  {
    assert Ids({0}, 1) == [0];
  }

  lemma SnapshotGoes(limit: nat, k: Client)
    requires Inv(Solo(limit, k, Free, Calling(Snapshot)))
    ensures Goes(Solo(limit, k, Free, Calling(Snapshot)), Solo(limit, k, Free, Idle(Roster([0]))))
  {
    InvSound(Solo(limit, k, Free, Calling(Snapshot)));
    BeginInv(Solo(limit, k, Free, Calling(Snapshot)), Snapshot);
    SnapshotStep(limit, k);
  }

  /** The roster has been taken. */
  lemma Rostered() returns (a: seq<Action>)
    ensures Comes(a, Alone(NewClient(), Idle(Roster([0])), INVITING, [], [], Asking([0], [], false)))
  {
    var k := NewClient();
    var x := Alone(k, Idle(NoAnswer), INVITING, [], [], Boundary);
    var x1 := Alone(k, Calling(Snapshot), INVITING, [], [], Listing);
    var x2 := Alone(k, Idle(Roster([0])), INVITING, [], [], Listing);
    a := FirstIn();
    ComesWellformed(a, x);
    a := ComesBy(a, x, StartUpdate, x1);
    SnapshotGoes(CLIENT_LIMIT, k);
    OneGoes(x1.srv, x2.srv);
    a := ComesOn(a, x1, [GAME], x2.srv);
    ComesWellformed(a, x2);
    a := ComesBy(a, x2, RosterRead, Alone(k, Idle(Roster([0])), INVITING, [], [], Asking([0], [], false)));
  }

  lemma NewIsReady()
    ensures Ready(NewClient())
  {
  }

  /** The program has made a call, and its one client has answered. */
  lemma CallDone(a: seq<Action>, k: Client, call: Call, m: M.Match, sent: seq<Packet>, log: seq<Packet>, flow: Flow)
    returns (b: seq<Action>, n: Client)
    requires Comes(a, Alone(k, Calling(call), m, sent, log, flow)) && ToSolo(call) && Ready(k)
    ensures Comes(b, Alone(n, Idle(Counted([Ref(0, |k.txs|)], 1)), m, sent, log, flow)) && Ready(n)
  {
    var steps;
    var x := Alone(k, Calling(call), m, sent, log, flow);
    steps, n := Round(CLIENT_LIMIT, k, call);
    b := ComesOn(a, x, steps, Solo(CLIENT_LIMIT, n, Free, Idle(Counted([Ref(0, |k.txs|)], 1))));
  }

  const HELLO := NewGameRequest(0, 1)

  lemma Invites(a: seq<Action>, x: System, roster: seq<nat>, owner: nat) returns (b: seq<Action>)
    requires Comes(a, x) && x.flow == Asking(roster, [], false) && |roster| == 1 && x.srv.game.Idle?
    ensures Comes(b, Issue(x.(flow := Asking(roster, [], true)), Single(roster[0], owner, HELLO)))
  {
    ComesWellformed(a, x);
    b := ComesBy(a, x, Ask(owner), Issue(x.(flow := Asking(roster, [], true)), Single(roster[0], owner, HELLO)));
  }

  lemma AskedOne(x: System, roster: seq<nat>)
    requires x.flow == Asking(roster, [], true) && x.srv.game.Idle? && x.srv.game.answer.Counted?
    requires x.srv.game.answer.count == 1
    requires Wellformed(x)
    ensures Act(x, AskDone) == x.(flow := Asking(roster, [true], false))
  {
    var one := x.srv.game.answer.count == 1;
    assert [] + [one] == [true];
  }

  lemma Counts(a: seq<Action>, x: System, roster: seq<nat>) returns (b: seq<Action>)
    requires Comes(a, x) && x.flow == Asking(roster, [], true)
    requires x.srv.game.Idle? && x.srv.game.answer.Counted? && x.srv.game.answer.count == 1
    ensures Comes(b, x.(flow := Asking(roster, [true], false)))
  {
    ComesWellformed(a, x);
    AskedOne(x, roster);
    b := ComesBy(a, x, AskDone, x.(flow := Asking(roster, [true], false)));
  }

  /** The client has answered NEW_GAME. */
  lemma Invited() returns (a: seq<Action>, k: Client)
    ensures Comes(a, Alone(k, Idle(Counted([Ref(0, 0)], 1)), INVITING, [], [], Asking([0], [true], false))) && Ready(k)
  {
    a := Rostered();
    a := Invites(a, Alone(NewClient(), Idle(Roster([0])), INVITING, [], [], Asking([0], [], false)), [0], 0);
    NewIsReady();
    a, k := CallDone(a, NewClient(), Single(0, 0, HELLO), INVITING, [], [], Asking([0], [], true));
    a := Counts(a, Alone(k, Idle(Counted([Ref(0, 0)], 1)), INVITING, [], [], Asking([0], [], true)), [0]);
  }

  // ---------- and the match begins ----------

  const HERE := W.Position(0.0, 0.0)

  const PLAYERS_AT := [HERE]

  const FOOD_AT := [HERE, HERE, HERE, HERE, HERE, HERE]

  const SEATED := M.SetUp(INVITING, [0], [true], PLAYERS_AT, FOOD_AT)

  lemma SeatedFacts()
    ensures M.Sane(SEATED) && SEATED.phase.FoodUpdates? && SEATED.players == [0]
    ensures forall f :: 0 <= f < 6 ==> SEATED.world.food[f] == 1
  {
    assert M.Answering([0], [true]) == [0];
    M.SetUpWorld(INVITING, [0], [true], PLAYERS_AT, FOOD_AT);
  }

  lemma Seated() returns (a: seq<Action>, k: Client)
    ensures Comes(a, Alone(k, Idle(Counted([Ref(0, 0)], 1)), SEATED, [], [], Boundary)) && Ready(k)
  {
    a, k := Invited();
    var x := Alone(k, Idle(Counted([Ref(0, 0)], 1)), INVITING, [], [], Asking([0], [true], false));
    ComesWellformed(a, x);
    assert M.Answering([0], [true]) == [0];
    a := ComesBy(a, x, SeatAll(PLAYERS_AT, FOOD_AT), Alone(k, Idle(Counted([Ref(0, 0)], 1)), SEATED, [], [], Boundary));
  }

  lemma Opens(a: seq<Action>, x: System, p: Packet) returns (b: seq<Action>)
    requires Comes(a, x) && x.flow.Boundary? && x.srv.game.Idle? && !x.m.phase.NewGame?
    requires M.WellFormed(x.m) && M.Announceable(x.m) && M.Open(x.m) == [p]
    ensures Comes(b, x.(flow := Streaming([p], false)))
  {
    ComesWellformed(a, x);
    b := ComesBy(a, x, StartUpdate, x.(flow := Streaming([p], false)));
  }

  lemma Sends(a: seq<Action>, x: System, owner: nat, p: Packet) returns (b: seq<Action>)
    requires Comes(a, x) && x.flow == Streaming([p], false) && x.srv.game.Idle?
    ensures Comes(b, Issue(x.(flow := Streaming([], true), log := x.log + [p]), Broadcast(owner, p)))
  {
    ComesWellformed(a, x);
    assert [p][1..] == [];
    b := ComesBy(a, x, Send(owner), Issue(x.(flow := Streaming([], true), log := x.log + [p]), Broadcast(owner, p)));
  }

  lemma Waits(a: seq<Action>, x: System) returns (b: seq<Action>)
    requires Comes(a, x) && x.flow == Streaming([], true) && x.srv.game.Idle?
    ensures Comes(b, x.(flow := Streaming([], false)))
  {
    ComesWellformed(a, x);
    b := ComesBy(a, x, SendDone, x.(flow := Streaming([], false)));
  }

  lemma Closes(a: seq<Action>, x: System, steps: seq<W.Physics>) returns (b: seq<Action>)
    requires Comes(a, x) && x.flow == Streaming([], false) && (x.m.phase.FoodUpdates? || x.m.phase.PlayerUpdates?)
    requires M.WellFormed(x.m) && M.Announceable(x.m) && M.Plausible(x.m, steps)
    ensures Comes(b, x.(m := M.Close(x.m, steps), sent := x.sent + M.Open(x.m), flow := Boundary))
  {
    ComesWellformed(a, x);
    b := ComesBy(a, x, CloseStage(steps), x.(m := M.Close(x.m, steps), sent := x.sent + M.Open(x.m), flow := Boundary));
  }

  /** A table of one packet is broadcast, and received. */
  lemma TableSent(a: seq<Action>, k: Client, g: GamePc, m: M.Match, sent: seq<Packet>, owner: nat,
                  steps: seq<W.Physics>, p: Packet)
    returns (b: seq<Action>, n: Client, h: GamePc)
    requires Comes(a, Alone(k, g, m, sent, sent, Boundary)) && g.Idle? && Ready(k)
    requires m.phase.FoodUpdates? || m.phase.PlayerUpdates?
    requires M.WellFormed(m) && M.Open(m) == [p] && M.Plausible(m, steps)
    ensures Comes(b, Alone(n, h, M.Close(m, steps), sent + [p], sent + [p], Boundary)) && h.Idle? && Ready(n)
  {
    b := Opens(a, Alone(k, g, m, sent, sent, Boundary), p);
    b := Sends(b, Alone(k, g, m, sent, sent, Streaming([p], false)), owner, p);
    b, n := CallDone(b, k, Broadcast(owner, p), m, sent, sent + [p], Streaming([], true));
    h := Idle(Counted([Ref(0, |k.txs|)], 1));
    b := Waits(b, Alone(n, h, m, sent, sent + [p], Streaming([], true)));
    b := Closes(b, Alone(n, h, m, sent, sent + [p], Streaming([], false)), steps);
  }

  const STILL := W.Physics([], [], PLAYERS_AT, FOOD_AT)

  const STEPS := [STILL, STILL, STILL, STILL, STILL]

  const LISTED := FoodUpdate(M.FoodTable(SEATED))

  const LISTING := M.Close(SEATED, STEPS)

  const TOLD := PlayerUpdate(M.PlayerTable(LISTING))

  const MOVING := M.Close(LISTING, STEPS)

  lemma FoodOpen()
    ensures M.WellFormed(SEATED) && M.Announceable(SEATED) && M.Plausible(SEATED, STEPS) && M.Open(SEATED) == [LISTED]
  {
    SeatedFacts();
    var rs := M.FoodTable(SEATED);
    assert Chunks(rs, MAX_FOOD_UPDATES) == [rs];
  }

  lemma PlayersOpen()
    ensures LISTING.phase.PlayerUpdates? && LISTING.players == [0] && LISTING.world == SEATED.world
    ensures M.WellFormed(LISTING) && M.Announceable(LISTING) && M.Plausible(LISTING, STEPS) && M.Open(LISTING) == [TOLD]
  {
    SeatedFacts();
    var rs := M.PlayerTable(LISTING);
    assert Chunks(rs, MAX_PLAYER_UPDATES) == [rs];
  }

  const TABLES := [LISTED] + [TOLD]

  lemma FoodHeard() returns (a: seq<Action>, k: Client, g: GamePc)
    ensures Comes(a, Alone(k, g, LISTING, [LISTED], [LISTED], Boundary)) && g.Idle? && Ready(k)
  {
    a, k := Seated();
    SeatedFacts();
    FoodOpen();
    a, k, g := TableSent(a, k, Idle(Counted([Ref(0, 0)], 1)), SEATED, [], 1, STEPS, LISTED);
    assert [] + [LISTED] == [LISTED];
  }

  /** Both tables have been broadcast to the first client. */
  lemma Listened() returns (a: seq<Action>, k: Client, g: GamePc)
    ensures Comes(a, Alone(k, g, MOVING, TABLES, TABLES, Boundary)) && g.Idle? && Ready(k)
  {
    a, k, g := FoodHeard();
    PlayersOpen();
    a, k, g := TableSent(a, k, g, LISTING, [LISTED], 2, STEPS, TOLD);
  }

  // ---------- another client connects, and is asked to move ----------

  const MOVE := MoveRequest(0)

  /** The server with a second client that has just connected. */
  function Pair(k: Client, game: GamePc): S.Server {
    S.Server(CLIENT_LIMIT, {0, 1}, map[0 := k, 1 := NewClient()], 2, Free, game, Accepting)
  }

  function Late(k: Client, game: GamePc, log: seq<Packet>, flow: Flow): System {
    System(Pair(k, game), MOVING, TABLES, log, flow, map[0 := 0, 1 := 2])
  }

  lemma SecondIn(k: Client, g: GamePc)
    requires g.Idle?
    ensures LetIn(Alone(k, g, MOVING, TABLES, TABLES, Boundary)) == Late(k, g, TABLES, Boundary)
  {
    var x := LetIn(Alone(k, g, MOVING, TABLES, TABLES, Boundary));
    assert x.srv.members == {0, 1};
    assert x.srv.clients == map[0 := k, 1 := NewClient()];
    assert x.joined == map[0 := 0, 1 := 2];
  }

  lemma MoveOpen()
    ensures M.WellFormed(MOVING) && M.Announceable(MOVING) && M.Open(MOVING) == [MOVE] && MOVING.players == [0]
    ensures |MOVING.world.food| == 6 && MOVING.world.food[0] == 1
  {
    SeatedFacts();
    PlayersOpen();
  }

  /** The second client has connected. */
  lemma SecondLetIn() returns (a: seq<Action>, k: Client, g: GamePc)
    ensures Comes(a, Late(k, g, TABLES, Boundary)) && g.Idle? && Ready(k)
  {
    a, k, g := Listened();
    a := LetsIn(a, Alone(k, g, MOVING, TABLES, TABLES, Boundary));
    SecondIn(k, g);
  }

  /** The MOVE request is handed to the server. */
  lemma MoveSent() returns (a: seq<Action>, k: Client)
    ensures Comes(a, Late(k, Calling(Broadcast(3, MOVE)), TABLES + [MOVE], Streaming([], true))) && Ready(k)
  {
    var g;
    a, k, g := SecondLetIn();
    MoveOpen();
    a := Opens(a, Late(k, g, TABLES, Boundary), MOVE);
    a := Sends(a, Late(k, g, TABLES, Streaming([MOVE], false)), 3, MOVE);
  }

  /** The server while the first client, `k`, is to get the request, and then the second. */
  function AskingBoth(k: Client): S.Server {
    Pair(k, Scheduling(Job(3, MOVE, [0] + [1], []))).(lock := ByGame)
  }

  lemma PairBegun(k: Client)
    ensures Begin(Pair(k, Calling(Broadcast(3, MOVE))), Broadcast(3, MOVE)) == AskingBoth(Dropped(k, 3))
  {
    assert DroppedAll(map[0 := k, 1 := NewClient()], 3) == map[0 := Dropped(k, 3), 1 := NewClient()];
    assert Ids({0, 1}, 2) == [0] + [1];
  }

  lemma PairBegins(k: Client)
    requires Inv(Pair(k, Calling(Broadcast(3, MOVE))))
    ensures Goes(Pair(k, Calling(Broadcast(3, MOVE))), AskingBoth(Dropped(k, 3)))
  {
    var s := Pair(k, Calling(Broadcast(3, MOVE)));
    InvSound(s);
    BeginInv(s, Broadcast(3, MOVE));
    PairBegun(k);
  }

  lemma ReadyClient(s: S.Server, id: nat)
    requires Inv(s) && id in s.clients && s.clients[id].pc.AtLoop? && !s.clients[id].lock.GameThread?
    ensures s.clients[id].active && s.clients[id].lock.Nobody?
  {
  }

  /** The first client gets the request. */
  lemma FirstAsked(k: Client) returns (a: seq<Step>, n: S.Server)
    requires Inv(AskingBoth(k)) && k.pc.AtLoop? && !k.lock.GameThread?
    ensures Leads(AskingBoth(k), a, n) && Inv(n) && 1 in n.clients && n.clients[1] == NewClient()
    ensures n.game == Scheduling(Job(3, MOVE, [1], [Ref(0, |k.txs|)]))
  {
    ReadyClient(AskingBoth(k), 0);
    a := Pushes(AskingBoth(k), 0, 3, MOVE, [1], []);
    n := Transit(AskingBoth(k), 0, Fed(k, 3, MOVE), Scheduling(Job(3, MOVE, [1], [] + [Ref(0, |k.txs|)])));
    assert [] + [Ref(0, |k.txs|)] == [Ref(0, |k.txs|)];
  }

  /** Both clients get the request; the second one's worker comes to write it. */
  lemma PairAsked(k: Client) returns (a: seq<Step>, n: S.Server)
    requires Inv(Pair(k, Calling(Broadcast(3, MOVE)))) && Ready(k)
    ensures Leads(Pair(k, Calling(Broadcast(3, MOVE))), a, n) && WritesMove(n, 1)
  {
    var s := Pair(k, Calling(Broadcast(3, MOVE)));
    PairBegins(k);
    OneGoes(s, AskingBoth(Dropped(k, 3)));
    var b, m := FirstAsked(Dropped(k, 3));
    Then(s, [GAME], AskingBoth(Dropped(k, 3)), b, m);
    var c;
    c, n := SecondAsked(m, [Ref(0, |k.txs|)]);
    Then(s, [GAME] + b, m, c, n);
    a := [GAME] + b + c;
  }

  lemma SecondAsked(s: S.Server, batch: seq<Ref>) returns (a: seq<Step>, n: S.Server)
    requires Inv(s) && 1 in s.clients && s.clients[1] == NewClient() && s.game == Scheduling(Job(3, MOVE, [1], batch))
    ensures Leads(s, a, n) && WritesMove(n, 1)
  {
    var f := Fed(NewClient(), 3, MOVE);
    assert [1] + [] == [1];
    var b := Pushes(s, 1, 3, MOVE, [], batch);
    var s1 := Transit(s, 1, f, Scheduling(Job(3, MOVE, [], batch + [Ref(1, 0)])));
    assert s1.clients[1] == f;
    FreshFit(s1, f);
    var c, k := CanWrite(s1, 1, 0);
    n := Moved(s1, 1, k);
    Then(s, b, s1, c, n);
    a := b + c;
  }

  lemma FreshFit(s: S.Server, f: Client)
    requires Inv(s) && 1 in s.clients && s.clients[1] == f && f == Fed(NewClient(), 3, MOVE)
    ensures Fit(f) && Coming(f, 0)
  {
    NewIsReady();
    assert Dropped(NewClient(), 3) == NewClient();
    FedPleased(NewClient(), 3, MOVE);
    FedFit(NewClient(), f);
    assert f.queue == [0];
  }

  /** What the second client has missed. */
  lemma MissedTables()
    requires TablesInv(MOVING, TABLES)
    ensures !MissedFoodDied(MOVING, TABLES, 2) && !PlayersSentSince(MOVING, TABLES, 2)
  {
    MoveOpen();
    assert MOVING.phase.Move?;
    assert TABLES[..2] == TABLES;
    assert Listed(TABLES)[0] == 0;
  }

  /**
   A run without expiries in which the worker of client 1, which connected after the tables had
   been sent, writes a MOVE request although the client knows neither the food nor the players.
   */
  lemma LateClientRun() returns (a: seq<Action>)
    ensures LegalRun(Boot(), a) && WritesMove(EndOf(Boot(), a).srv, 1)
    ensures var x := EndOf(Boot(), a);
      && M.WellFormed(x.m) && OrderInv(x.srv.clients[1])
      && !M.FoodSeen(Fold(WrittenTo(x.srv.clients[1])), x.m) && !M.PlayersSeen(Fold(WrittenTo(x.srv.clients[1])), x.m)
  {
    var k, steps, n;
    a, k := MoveSent();
    steps, n := PairAsked(k);
    var x := Late(k, Calling(Broadcast(3, MOVE)), TABLES + [MOVE], Streaming([], true));
    a := ComesOn(a, x, steps, n);
    BootInv();
    TablesRun(Boot(), a);
    EndToEndAgreement(a, 1);
    MissedTables();
  }
}
