/**
 The match as the game thread runs it (src/amgame.cpp), on values, one stage at a time:
 a stage broadcasts some packets (`Open`) and then moves on (`Close`). A MOVE update is
 two stages, the request before the world is stepped and the deaths announced after.
 */
module Match {
  import opened Basics
  import opened HitPoints
  import opened World
  import opened Packets

  datatype Phase =
    | MainMenu
    | NewGame
    | FoodUpdates
    | PlayerUpdates
    | Move
    | Announce(dead: seq<nat>)
    | GameOver
    | GameEnd

  datatype Match = Match(
    phase: Phase,
    players: seq<nat>,
    world: HitPoints.Tally,
    playersAt: seq<Position>,
    foodAt: seq<Position>,
    shown: seq<bool>,
    gameTime: nat
  )

  const FOOD_PER_PLAYER := 6

  const STEPS_PER_MOVE := 5

  function Fresh(): Match {
    Match(MainMenu, [], HitPoints.Tally([], []), [], [], [], 0)
  }

  predicate WellFormed(m: Match) {
    && |m.players| == |m.world.players| == |m.playersAt|
    && |m.world.food| == |m.foodAt| == |m.shown|
  }

  // ---------- the players of a match ----------

  /** The clients that answered NEW_GAME, in roster order. */
  function Answering(roster: seq<nat>, answered: seq<bool>): (ids: seq<nat>)
    requires |answered| <= |roster|
    ensures |ids| <= |answered|
  {
    if answered == [] then []
    else
      var n := |answered| - 1;
      Answering(roster, answered[..n]) + if answered[n] then [roster[n]] else []
  }

  /** What the NEW_GAME phase leaves: the answering players, six food each, everything where it was put. */
  function SetUp(m: Match, roster: seq<nat>, answered: seq<bool>, playersAt: seq<Position>, foodAt: seq<Position>): Match
    requires |answered| <= |roster|
  {
    var players := m.players + Answering(roster, answered);
    var born := Spawn(|Answering(roster, answered)|, FOOD_PER_PLAYER * |players|);
    m.(phase := FoodUpdates,
       players := players,
       world := HitPoints.Tally(m.world.players + born.players, m.world.food + born.food),
       playersAt := playersAt,
       foodAt := m.foodAt + foodAt,
       shown := Edges(m.world.food, m.shown) + seq(FOOD_PER_PLAYER * |players|, j => true))
  }

  // ---------- records ----------

  function FoodRecord(m: Match, j: nat, state: int): FoodState
    requires WellFormed(m) && j < |m.world.food|
  {
    FoodState(j % 0x1_0000, state % 0x100, m.foodAt[j])
  }

  function FoodTable(m: Match): (rs: seq<FoodState>)
    requires WellFormed(m)
    ensures |rs| == |m.world.food|
  {
    seq(|m.world.food|, j requires 0 <= j < |m.world.food| && WellFormed(m) => FoodRecord(m, j, m.world.food[j]))
  }

  function PlayerRecord(m: Match, i: nat): PlayerState
    requires WellFormed(m) && i < |m.players|
  {
    PlayerState(i % 0x100, m.world.players[i] % 0x1_0000, m.playersAt[i])
  }

  function PlayerTable(m: Match): (rs: seq<PlayerState>)
    requires WellFormed(m)
    ensures |rs| == |m.players|
  {
    seq(|m.players|, i requires 0 <= i < |m.players| && WellFormed(m) => PlayerRecord(m, i))
  }

  function DeathRecords(m: Match, dead: seq<nat>): (rs: seq<FoodState>)
    requires WellFormed(m) && forall k :: 0 <= k < |dead| ==> dead[k] < |m.world.food|
    ensures |rs| == |dead|
  {
    seq(|dead|, k requires 0 <= k < |dead| && WellFormed(m) && dead[k] < |m.world.food| => FoodRecord(m, dead[k], 0))
  }

  /** The food below `n` whose sprite is still shown although it is dead: what `updateSprite` reports. */
  function NewlyDead(food: seq<int>, shown: seq<bool>, n: nat): (dead: seq<nat>)
    requires |food| == |shown| && n <= |food|
    ensures forall k :: 0 <= k < |dead| ==> dead[k] < n
  {
    if n == 0 then []
    else NewlyDead(food, shown, n - 1) + if shown[n - 1] && food[n - 1] <= 0 then [n - 1] else []
  }

  /** The records announcing the newly dead food below `n`. */
  function DeathsUpTo(m: Match, n: nat): seq<FoodState>
    requires WellFormed(m) && n <= |m.world.food|
  {
    DeathRecords(m, NewlyDead(m.world.food, m.shown, n))
  }

  /** Exactly the food that is still shown and dead, in index order. */
  lemma {:induction false} NewlyDeadExactly(food: seq<int>, shown: seq<bool>, n: nat)
    requires |food| == |shown| && n <= |food|
    ensures Ascending(NewlyDead(food, shown, n))
    ensures forall j: nat :: j in NewlyDead(food, shown, n) <==> j < n && shown[j] && food[j] <= 0
    decreases n
  {
    if n > 0 {
      NewlyDeadExactly(food, shown, n - 1);
    }
  }

  /** The sprites left shown by one call of `updateSprite` on every food. */
  function Edges(food: seq<int>, shown: seq<bool>): (after: seq<bool>) {
    seq(|shown|, j requires 0 <= j < |shown| => shown[j] && (j < |food| ==> food[j] > 0))
  }

  // ---------- stages ----------

  predicate Announceable(m: Match) {
    m.phase.Announce? ==> forall k :: 0 <= k < |m.phase.dead| ==> m.phase.dead[k] < |m.world.food|
  }

  /** The packets a stage broadcasts, in order. */
  function Open(m: Match): seq<Packet>
    requires WellFormed(m) && Announceable(m)
  {
    match m.phase
    case FoodUpdates => FoodPackets(FoodTable(m))
    case PlayerUpdates => PlayerPackets(PlayerTable(m))
    case Move => [MoveRequest(m.gameTime)]
    case Announce(dead) => FoodPackets(DeathRecords(m, dead))
    case GameOver => GameOverPackets(PlayerTable(m))
    case _ => []
  }

  function AllMeetings(steps: seq<Physics>): seq<Meeting> {
    if steps == [] then [] else AllMeetings(steps[..|steps| - 1]) + StepMeetings(steps[|steps| - 1])
  }

  predicate AllPossible(t: HitPoints.Tally, steps: seq<Physics>) {
    forall k :: 0 <= k < |steps| ==> Possible(t, steps[k])
  }

  lemma {:induction false} AllMeetingsInWorld(t: HitPoints.Tally, steps: seq<Physics>)
    requires AllPossible(t, steps)
    ensures InWorld(t, AllMeetings(steps))
    decreases steps
  {
    if steps != [] {
      AllMeetingsInWorld(t, steps[..|steps| - 1]);
      SweptInWorld(t, steps[|steps| - 1].ongoing);
    }
  }

  /** The world after some steps. */
  function Stepped(t: HitPoints.Tally, steps: seq<Physics>): (u: HitPoints.Tally)
    requires AllPossible(t, steps)
    ensures SameObjects(t, u)
  {
    AllMeetingsInWorld(t, steps);
    Run(t, AllMeetings(steps))
  }

  lemma AllMeetingsMore(steps: seq<Physics>, n: nat)
    requires n < |steps|
    ensures AllMeetings(steps[..n + 1]) == AllMeetings(steps[..n]) + StepMeetings(steps[n])
  {
    var some := steps[..n + 1];
    assert some[..n] == steps[..n] && some[n] == steps[n];
  }

  lemma PossibleAfter(t: HitPoints.Tally, u: HitPoints.Tally, physics: Physics)
    requires Possible(t, physics) && SameObjects(t, u)
    ensures Possible(u, physics) && InWorld(t, StepMeetings(physics))
  {
    SweptInWorld(t, physics.ongoing);
  }

  lemma SteppedOneMore(t: HitPoints.Tally, steps: seq<Physics>, n: nat)
    requires AllPossible(t, steps) && n < |steps|
    ensures AllPossible(t, steps[..n]) && AllPossible(t, steps[..n + 1])
    ensures InWorld(t, StepMeetings(steps[n])) && Possible(Stepped(t, steps[..n]), steps[n])
    ensures Stepped(t, steps[..n + 1]) == Run(Stepped(t, steps[..n]), StepMeetings(steps[n]))
  {
    PossibleAfter(t, Stepped(t, steps[..n]), steps[n]);
    AllMeetingsMore(steps, n);
    AllMeetingsInWorld(t, steps[..n]);
    RunConcat(t, AllMeetings(steps[..n]), StepMeetings(steps[n]));
  }

  predicate Plausible(m: Match, steps: seq<Physics>) {
    |steps| == STEPS_PER_MOVE && AllPossible(m.world, steps)
  }

  /** Where a stage leads once its packets have been sent and waited for. */
  function Close(m: Match, steps: seq<Physics>): (n: Match)
    requires WellFormed(m) && Plausible(m, steps)
    ensures WellFormed(n) && Announceable(n) && Plausible(n, steps)
  {
    match m.phase
    case FoodUpdates => m.(phase := PlayerUpdates)
    case PlayerUpdates => m.(phase := Move)
    case Move =>
      var u := Stepped(m.world, steps);
      m.(phase := Announce(NewlyDead(u.food, m.shown, |m.shown|)),
         world := u,
         playersAt := steps[STEPS_PER_MOVE - 1].playersAt,
         foodAt := steps[STEPS_PER_MOVE - 1].foodAt,
         shown := Edges(u.food, m.shown),
         gameTime := (m.gameTime + 1) % 0x1_0000_0000)
    case Announce(_) => m.(phase := PlayerUpdates)
    case GameOver => m.(phase := GameEnd)
    case _ => m
  }

  // ---------- what a client that heard everything knows ----------

  ghost predicate FoodSeen(r: Replica, m: Match) {
    && (forall k: nat :: k in r.food <==> k < |m.world.food|)
    && (forall j :: 0 <= j < |m.world.food| ==> r.food[j].state == if m.world.food[j] > 0 then 1 else 0)
  }

  ghost predicate PlayersSeen(r: Replica, m: Match)
    requires WellFormed(m)
  {
    && (forall k: nat :: k in r.players <==> k < |m.players|)
    && (forall i :: 0 <= i < |m.players| ==> r.players[i] == PlayerState(i, m.world.players[i], m.playersAt[i]))
  }

  predicate OnlyPlayers(r: Replica, m: Match) {
    forall k :: k in r.players ==> k < |m.players|
  }

  /** `dead` lists exactly the dead food, each once. */
  ghost predicate ListsTheDead(dead: seq<nat>, m: Match) {
    && (forall a, b :: 0 <= a < b < |dead| ==> dead[a] != dead[b])
    && (forall j: nat :: j in dead <==> j < |m.world.food| && m.world.food[j] <= 0)
  }

  /** Facts about the engine kept by every stage. */
  predicate Sane(m: Match) {
    && WellFormed(m)
    && |m.players| <= 8 && |m.world.food| == FOOD_PER_PLAYER * |m.players|
    && Healthy(m.world) && FoodIsOneOrNone(m.world)
    && Total(m.world) <= (INITIAL_PLAYER_HP + FOOD_PER_PLAYER) * |m.players|
  }

  predicate SpritesMatch(m: Match)
    requires WellFormed(m)
  {
    forall j :: 0 <= j < |m.shown| ==> m.shown[j] == (m.world.food[j] > 0)
  }

  function PendingDead(m: Match): seq<nat> {
    if m.phase.Announce? then m.phase.dead else []
  }

  /** What holds between stages, `sent` being everything broadcast so far. */
  ghost predicate Inv(m: Match, sent: seq<Packet>) {
    && Sane(m) && Announceable(m) && SpritesMatch(m)
    && DeathsInv(m, sent)
    && ReplicaInv(m, sent, Fold(sent))
  }

  /** Every death so far is announced once, or about to be. */
  ghost predicate DeathsInv(m: Match, sent: seq<Packet>) {
    ListsTheDead(Announced(sent) + PendingDead(m), m)
  }

  /** What a client that heard everything (`r`) knows, stage by stage. */
  ghost predicate ReplicaInv(m: Match, sent: seq<Packet>, r: Replica)
    requires WellFormed(m) && Announceable(m)
  {
    match m.phase
    case MainMenu => m.players == [] && sent == []
    case NewGame => m.players == [] && sent == []
    case FoodUpdates => sent == [] && forall j :: 0 <= j < |m.world.food| ==> m.world.food[j] == 1
    case PlayerUpdates => FoodSeen(r, m) && OnlyPlayers(r, m)
    case Move => FoodSeen(r, m) && PlayersSeen(r, m)
    case Announce(_) => FoodSeen(HearAll(r, Open(m)), m) && OnlyPlayers(r, m)
    case _ => true
  }

  // ---------- every stage keeps the invariant ----------

  lemma FreshInv()
    ensures Inv(Fresh(), [])
  {
    assert Announced([]) + PendingDead(Fresh()) == [];
  }

  lemma NewMatchInv(m: Match)
    requires Inv(m, []) && m.phase.MainMenu?
    ensures Inv(m.(phase := NewGame), [])
  {
    assert Announced([]) + PendingDead(m) == [] == Announced([]) + PendingDead(m.(phase := NewGame));
  }

  lemma SetUpWorld(m: Match, roster: seq<nat>, answered: seq<bool>, playersAt: seq<Position>, foodAt: seq<Position>)
    requires m.players == [] && WellFormed(m) && m.world.food == [] && |answered| <= |roster| <= 8
    requires |playersAt| == |Answering(roster, answered)| && |foodAt| == FOOD_PER_PLAYER * |playersAt|
    ensures var n := SetUp(m, roster, answered, playersAt, foodAt);
      && Sane(n) && SpritesMatch(n) && n.world == Spawn(|n.players|, FOOD_PER_PLAYER * |n.players|)
  {
    var n := SetUp(m, roster, answered, playersAt, foodAt);
    assert n.players == Answering(roster, answered);
    assert n.world == Spawn(|n.players|, FOOD_PER_PLAYER * |n.players|);
    SpawnTotal(|n.players|, FOOD_PER_PLAYER * |n.players|);
  }

  lemma SpawnTotal(players: nat, food: nat)
    ensures var t := Spawn(players, food); Healthy(t) && FoodIsOneOrNone(t) && Total(t) == INITIAL_PLAYER_HP * players + food
  {
    EqualElements(Spawn(players, food).players, INITIAL_PLAYER_HP);
    EqualElements(Spawn(players, food).food, INITIAL_FOOD_HP);
  }

  /** A fresh match after the NEW_GAME phase. */
  lemma SetUpInv(m: Match, roster: seq<nat>, answered: seq<bool>, playersAt: seq<Position>, foodAt: seq<Position>)
    requires Inv(m, []) && m.phase.NewGame? && |answered| <= |roster| <= 8
    requires |playersAt| == |Answering(roster, answered)| && |foodAt| == FOOD_PER_PLAYER * |playersAt|
    ensures Inv(SetUp(m, roster, answered, playersAt, foodAt), [])
  {
    SetUpWorld(m, roster, answered, playersAt, foodAt);
    assert Announced([]) + PendingDead(SetUp(m, roster, answered, playersAt, foodAt)) == [];
  }

  lemma {:induction false} NoneDead(rs: seq<FoodState>)
    requires forall i :: 0 <= i < |rs| ==> rs[i].state == 1
    ensures DeadIn(rs) == []
    decreases rs
  {
    if rs != [] {
      NoneDead(rs[1..]);
    }
  }

  /** Hearing the whole food table leaves exactly that table. */
  lemma FoodTableSeen(m: Match)
    requires Sane(m)
    ensures FoodSeen(Replica(LearnFood(map[], FoodTable(m)), map[]), m)
  {
    var rs := FoodTable(m);
    var t := LearnFood(map[], rs);
    assert forall j :: 0 <= j < |rs| ==> rs[j].foodNo == j;
    forall j | 0 <= j < |rs| ensures j in t && t[j].state == m.world.food[j] {
      LearnFoodAt(map[], rs, j);
    }
    forall k: nat | k >= |rs| ensures k !in t {
      LearnFoodOthers(map[], rs, k);
    }
  }

  // One lemma per stage: what it does to the replica, and what it announces.

  lemma CloseFoodUpdates(m: Match)
    requires Sane(m) && m.phase.FoodUpdates? && forall j :: 0 <= j < |m.world.food| ==> m.world.food[j] == 1
    ensures FoodSeen(Fold(Open(m)), m) && OnlyPlayers(Fold(Open(m)), m)
    ensures Announced(Open(m)) == []
  {
    var rs := FoodTable(m);
    HearFoodPackets(BLANK, rs);
    FoodTableSeen(m);
    AnnouncedInPackets(rs);
    NoneDead(rs);
  }

  /** Hearing the player table leaves exactly that table, whatever was known before. */
  lemma PlayerTableSeen(m: Match, t: map<nat, PlayerState>, food: map<nat, FoodState>)
    requires Sane(m) && OnlyPlayers(Replica(food, t), m)
    ensures PlayersSeen(Replica(food, LearnPlayers(t, PlayerTable(m))), m)
  {
    var rs := PlayerTable(m);
    forall i | 0 <= i < |rs| ensures rs[i] == PlayerState(i, m.world.players[i], m.playersAt[i]) {
      NonNegativeSum(m.world.players, i);
      SumIsNonNegative(m.world.food);
    }
    forall i | 0 <= i < |rs| ensures i in LearnPlayers(t, rs) && LearnPlayers(t, rs)[i] == rs[i] {
      LearnPlayersAt(t, rs, i);
    }
    forall k: nat | k >= |rs| ensures k !in LearnPlayers(t, rs) {
      LearnPlayersOthers(t, rs, k);
    }
  }

  lemma ClosePlayerUpdates(m: Match, r: Replica)
    requires Sane(m) && m.phase.PlayerUpdates? && FoodSeen(r, m) && OnlyPlayers(r, m)
    ensures FoodSeen(HearAll(r, Open(m)), m) && PlayersSeen(HearAll(r, Open(m)), m)
    ensures Announced(Open(m)) == []
  {
    HearPlayerPackets(r, PlayerTable(m));
    PlayerTableSeen(m, r.players, r.food);
    NothingAnnounced(Open(m));
  }

  // The deaths of a MOVE stage.

  lemma {:induction false} DeadNumbers(m: Match, dead: seq<nat>)
    requires Sane(m) && forall k :: 0 <= k < |dead| ==> dead[k] < |m.world.food|
    ensures DeadIn(DeathRecords(m, dead)) == dead
    decreases dead
  {
    if dead != [] {
      var n := |dead| - 1;
      DeadNumbers(m, dead[..n]);
      assert DeathRecords(m, dead) == DeathRecords(m, dead[..n]) + [FoodRecord(m, dead[n], 0)];
      DeadInConcat(DeathRecords(m, dead[..n]), [FoodRecord(m, dead[n], 0)]);
      assert DeadIn([FoodRecord(m, dead[n], 0)]) == [dead[n]];
    }
  }

  lemma DeathsLearnt(before: seq<int>, after: seq<int>, rs: seq<FoodState>, t: map<nat, FoodState>, j: nat)
    requires |before| == |after|
    requires forall k: nat :: k in t <==> k < |before|
    requires forall k :: 0 <= k < |before| ==> t[k].state == if before[k] > 0 then 1 else 0
    requires forall a, b :: 0 <= a < b < |rs| ==> rs[a].foodNo != rs[b].foodNo
    requires forall k :: 0 <= k < |rs| ==> rs[k].state == 0 && rs[k].foodNo < |after| && after[rs[k].foodNo] <= 0
    requires j < |after| && before[j] > 0 && after[j] <= 0 ==> exists k :: 0 <= k < |rs| && rs[k].foodNo == j
    requires j < |after| && before[j] <= 0 ==> after[j] <= 0
    ensures j in LearnFood(t, rs) <==> j < |after|
    ensures j < |after| ==> LearnFood(t, rs)[j].state == if after[j] > 0 then 1 else 0
  {
    if k :| 0 <= k < |rs| && rs[k].foodNo == j {
      LearnFoodAt(t, rs, k);
    } else {
      LearnFoodOthers(t, rs, j);
    }
  }

  /** A client that knew the food before the step and hears the deaths knows the food after it. */
  lemma DeathsSeen(m: Match, n: Match, dead: seq<nat>, r: Replica, rs: seq<FoodState>)
    requires DiedBetween(dead, m, n) && FoodSeen(r, m)
    requires |rs| == |dead| && forall k :: 0 <= k < |rs| ==> rs[k].foodNo == dead[k] && rs[k].state == 0
    ensures FoodSeen(Replica(LearnFood(r.food, rs), r.players), n)
  {
    forall k | 0 <= k < |rs| ensures rs[k].foodNo in dead {
    }
    forall j: nat
      ensures j in LearnFood(r.food, rs) <==> j < |n.world.food|
      ensures j < |n.world.food| ==> LearnFood(r.food, rs)[j].state == if n.world.food[j] > 0 then 1 else 0
    {
      if j in dead {
        var k :| 0 <= k < |dead| && dead[k] == j;
        assert rs[k].foodNo == j;
      }
      DeathsLearnt(m.world.food, n.world.food, rs, r.food, j);
    }
  }

  lemma DeathRecordsNumbers(m: Match, dead: seq<nat>)
    requires Sane(m) && forall k :: 0 <= k < |dead| ==> dead[k] < |m.world.food|
    ensures forall k :: 0 <= k < |dead| ==> DeathRecords(m, dead)[k].foodNo == dead[k] && DeathRecords(m, dead)[k].state == 0
  {
  }

  lemma SteppedSane(m: Match, steps: seq<Physics>)
    requires Sane(m) && Plausible(m, steps)
    ensures var u := Stepped(m.world, steps);
      && Healthy(u) && FoodIsOneOrNone(u) && Total(u) <= Total(m.world)
      && (forall j :: 0 <= j < |u.food| && m.world.food[j] <= 0 ==> u.food[j] <= 0)
  {
    AllMeetingsInWorld(m.world, steps);
    RunBalance(m.world, AllMeetings(steps));
    forall j | 0 <= j < |m.world.food| && m.world.food[j] <= 0 ensures Stepped(m.world, steps).food[j] <= 0 {
      NoRevival(m.world, AllMeetings(steps), HitPoints.Object.Food(j));
    }
  }

  /** `dead` is exactly the food that was alive in `m` and is dead in `n`. */
  ghost predicate DiedBetween(dead: seq<nat>, m: Match, n: Match) {
    && |m.world.food| == |n.world.food|
    && Ascending(dead)
    && (forall j: nat :: j in dead <==> j < |n.world.food| && m.world.food[j] > 0 && n.world.food[j] <= 0)
    && (forall j :: 0 <= j < |m.world.food| && m.world.food[j] <= 0 ==> n.world.food[j] <= 0)
  }

  /** What stepping the world during a MOVE does to the facts kept here. */
  lemma MoveEngine(m: Match, n: Match, steps: seq<Physics>)
    requires Sane(m) && SpritesMatch(m) && m.phase.Move? && Plausible(m, steps) && n == Close(m, steps)
    ensures Sane(n) && SpritesMatch(n) && n.phase.Announce? && DiedBetween(n.phase.dead, m, n)
  {
    SteppedSane(m, steps);
    NewlyDeadExactly(n.world.food, m.shown, |m.shown|);
  }

  lemma DeadAfterMove(before: seq<nat>, dead: seq<nat>, m: Match, n: Match)
    requires ListsTheDead(before, m) && DiedBetween(dead, m, n)
    ensures ListsTheDead(before + dead, n)
  {
    var both := before + dead;
    forall a, b | 0 <= a < b < |both| ensures both[a] != both[b] {
      if a < |before| <= b {
        assert both[a] in before && both[b] in dead;
      }
    }
  }

  lemma CloseAnnounce(m: Match)
    requires Sane(m) && Announceable(m) && m.phase.Announce?
    ensures Announced(Open(m)) == m.phase.dead
  {
    AnnouncedInPackets(DeathRecords(m, m.phase.dead));
    DeadNumbers(m, m.phase.dead);
  }

  lemma CloseKeepsEngine(m: Match, steps: seq<Physics>)
    requires Sane(m) && SpritesMatch(m) && Plausible(m, steps)
    ensures Sane(Close(m, steps)) && SpritesMatch(Close(m, steps))
  {
    if m.phase.Move? {
      MoveEngine(m, Close(m, steps), steps);
    }
  }

  lemma MoveKeepsDeaths(m: Match, n: Match, sent: seq<Packet>, steps: seq<Physics>)
    requires Sane(m) && SpritesMatch(m) && m.phase.Move? && Plausible(m, steps) && n == Close(m, steps)
    requires DeathsInv(m, sent)
    ensures ListsTheDead(Announced(sent) + n.phase.dead, n)
  {
    MoveEngine(m, n, steps);
    assert Announced(sent) + PendingDead(m) == Announced(sent);
    DeadAfterMove(Announced(sent), n.phase.dead, m, n);
  }

  lemma CloseKeepsDeaths(m: Match, n: Match, sent: seq<Packet>, steps: seq<Physics>)
    requires Sane(m) && Announceable(m) && SpritesMatch(m) && Plausible(m, steps) && n == Close(m, steps)
    requires m.phase.FoodUpdates? ==> forall j :: 0 <= j < |m.world.food| ==> m.world.food[j] == 1
    requires DeathsInv(m, sent)
    ensures DeathsInv(n, sent + Open(m))
  {
    AnnouncedConcat(sent, Open(m));
    if m.phase.Move? {
      NothingAnnounced(Open(m));
      MoveKeepsDeaths(m, n, sent, steps);
      assert Announced(sent + Open(m)) == Announced(sent);
    } else {
      OthersAnnounce(m);
      OthersKeepDeaths(m, n, sent, steps);
    }
  }

  lemma OthersKeepDeaths(m: Match, n: Match, sent: seq<Packet>, steps: seq<Physics>)
    requires WellFormed(m) && Announceable(m) && Plausible(m, steps) && n == Close(m, steps) && !m.phase.Move?
    requires Announced(sent + Open(m)) == Announced(sent) + PendingDead(m) && DeathsInv(m, sent)
    ensures DeathsInv(n, sent + Open(m))
  {
    assert PendingDead(n) == [] && n.world == m.world;
    assert Announced(sent + Open(m)) + [] == Announced(sent) + PendingDead(m);
  }

  /** Outside the stepping of the world, the packets of a stage announce exactly the pending deaths. */
  lemma OthersAnnounce(m: Match)
    requires Sane(m) && Announceable(m)
    requires m.phase.FoodUpdates? ==> forall j :: 0 <= j < |m.world.food| ==> m.world.food[j] == 1
    ensures Announced(Open(m)) == PendingDead(m)
  {
    if m.phase.FoodUpdates? {
      CloseFoodUpdates(m);
    } else if m.phase.Announce? {
      CloseAnnounce(m);
    } else {
      NothingAnnounced(Open(m));
    }
  }

  /** Once the deaths announced after a move are heard, the food table is right again. */
  lemma MoveKeepsReplica(m: Match, n: Match, r: Replica)
    requires Sane(n) && n.phase.Announce? && DiedBetween(n.phase.dead, m, n) && FoodSeen(r, m)
    ensures Announceable(n) && FoodSeen(HearAll(r, Open(n)), n)
  {
    var dead := n.phase.dead;
    forall k | 0 <= k < |dead| ensures dead[k] < |n.world.food| {
      assert dead[k] in dead;
    }
    DeathRecordsNumbers(n, dead);
    DeathsSeen(m, n, dead, r, DeathRecords(n, dead));
    HearFoodPackets(r, DeathRecords(n, dead));
  }

  lemma CloseKeepsReplica(m: Match, sent: seq<Packet>, r: Replica, steps: seq<Physics>)
    requires Sane(m) && Announceable(m) && SpritesMatch(m) && Plausible(m, steps)
    requires ReplicaInv(m, sent, r) && (sent == [] ==> r == BLANK)
    ensures ReplicaInv(Close(m, steps), sent + Open(m), HearAll(r, Open(m)))
  {
    var n := Close(m, steps);
    if m.phase.Move? {
      MoveEngine(m, n, steps);
      MoveKeepsReplica(m, n, r);
      MoveTeachesNothing(r, m.gameTime);
    } else {
      TablesKeepReplica(m, sent, r);
      SamePhaseless(m, n.phase, HearAll(r, Open(m)));
    }
  }

  lemma MoveTeachesNothing(r: Replica, gameTime: nat)
    ensures HearAll(r, [MoveRequest(gameTime)]) == r
  {
    assert HearAll(r, []) == r;
  }

  lemma SamePhaseless(m: Match, phase: Phase, r: Replica)
    requires WellFormed(m)
    ensures var n := m.(phase := phase);
      && (FoodSeen(r, m) ==> FoodSeen(r, n)) && (OnlyPlayers(r, m) ==> OnlyPlayers(r, n))
      && (PlayersSeen(r, m) ==> PlayersSeen(r, n))
  {
  }

  lemma TablesKeepReplica(m: Match, sent: seq<Packet>, r: Replica)
    requires Sane(m) && Announceable(m) && !m.phase.Move?
    requires ReplicaInv(m, sent, r) && (sent == [] ==> r == BLANK)
    ensures m.phase.FoodUpdates? || m.phase.PlayerUpdates? || m.phase.Announce? ==>
              FoodSeen(HearAll(r, Open(m)), m) && OnlyPlayers(HearAll(r, Open(m)), m)
    ensures m.phase.PlayerUpdates? ==> PlayersSeen(HearAll(r, Open(m)), m)
  {
    match m.phase
    case FoodUpdates => CloseFoodUpdates(m);
    case PlayerUpdates => ClosePlayerUpdates(m, r);
    case Announce(dead) => HearFoodPackets(r, DeathRecords(m, dead));
    case _ =>
  }

  /** Closing any stage keeps the invariant, with its packets added to what was sent. */
  lemma CloseInv(m: Match, sent: seq<Packet>, steps: seq<Physics>)
    requires Inv(m, sent) && Plausible(m, steps)
    ensures Inv(Close(m, steps), sent + Open(m))
  {
    var n := Close(m, steps);
    CloseKeepsEngine(m, steps);
    CloseKeepsDeaths(m, n, sent, steps);
    CloseKeepsReplica(m, sent, Fold(sent), steps);
    HearConcat(BLANK, sent, Open(m));
  }

  // ---------- whole updates and whole matches ----------

  /** Everything the outside contributes to one call of `update`. */
  datatype Env = Env(
    roster: seq<nat>,
    answered: seq<bool>,
    playersAt: seq<Position>,
    foodAt: seq<Position>,
    steps: seq<Physics>
  )

  predicate Supports(m: Match, env: Env) {
    && (m.phase.NewGame? ==>
          && |env.answered| == |env.roster|
          && |env.playersAt| == |m.players| + |Answering(env.roster, env.answered)|
          && |env.foodAt| == FOOD_PER_PLAYER * |env.playersAt|)
    && (!m.phase.NewGame? ==> Plausible(m, env.steps))
  }

  /** One call of `update`; a MOVE runs through the announcement of the deaths. */
  function Updated(m: Match, env: Env): (n: Match)
    requires WellFormed(m) && Supports(m, env)
    ensures WellFormed(n) && Announceable(n)
  {
    match m.phase
    case NewGame => SetUp(m, env.roster, env.answered, env.playersAt, env.foodAt)
    case Move => Close(Close(m, env.steps), env.steps)
    case _ => Close(m, env.steps)
  }

  /** Everything broadcast once one call of `update` is done, after `sent`. */
  function UpdateSends(m: Match, sent: seq<Packet>, env: Env): seq<Packet>
    requires WellFormed(m) && Announceable(m) && Supports(m, env)
  {
    match m.phase
    case NewGame => sent
    case Move => sent + Open(m) + Open(Close(m, env.steps))
    case _ => sent + Open(m)
  }

  /** What one call of `update` sends to single clients: NEW_GAME counts all clients of the roster. */
  function Invitations(roster: seq<nat>): seq<(nat, Packet)> {
    seq(|roster|, k requires 0 <= k < |roster| => (roster[k], NewGameRequest(k % 0x100, |roster| % 0x100)))
  }

  datatype Call = Update(env: Env) | Finish

  predicate Legal(m: Match, c: Call) {
    match c
    case Update(env) => Supports(m, env) && (m.phase.NewGame? ==> |env.roster| <= 8)
    case Finish => true
  }

  function Step(m: Match, c: Call): (n: Match)
    requires WellFormed(m) && Legal(m, c)
    ensures WellFormed(n) && Announceable(n)
  {
    match c
    case Update(env) => Updated(m, env)
    case Finish => m.(phase := GameOver)
  }

  function StepSends(m: Match, sent: seq<Packet>, c: Call): seq<Packet>
    requires WellFormed(m) && Announceable(m) && Legal(m, c)
  {
    match c
    case Update(env) => UpdateSends(m, sent, env)
    case Finish => sent
  }

  /** Between calls the match is never in the middle of a MOVE. */
  predicate BetweenCalls(m: Match) {
    WellFormed(m) && !m.phase.Announce?
  }

  lemma NewGameInv(m: Match, env: Env)
    requires Inv(m, []) && m.phase.NewGame? && Supports(m, env) && |env.roster| <= 8
    ensures Inv(Updated(m, env), [])
  {
    SetUpInv(m, env.roster, env.answered, env.playersAt, env.foodAt);
  }

  lemma MoveInv(m: Match, sent: seq<Packet>, env: Env)
    requires Inv(m, sent) && m.phase.Move? && Supports(m, env)
    ensures Inv(Updated(m, env), UpdateSends(m, sent, env))
  {
    CloseInv(m, sent, env.steps);
    CloseInv(Close(m, env.steps), sent + Open(m), env.steps);
  }

  lemma FinishInv(m: Match, sent: seq<Packet>)
    requires Inv(m, sent) && BetweenCalls(m)
    ensures Inv(m.(phase := GameOver), sent)
  {
    assert Announced(sent) + PendingDead(m) == Announced(sent) + PendingDead(m.(phase := GameOver));
  }

  lemma NothingSentYet(m: Match, sent: seq<Packet>)
    requires Inv(m, sent) && m.phase.NewGame?
    ensures sent == []
  {
  }

  lemma StepInv(m: Match, sent: seq<Packet>, c: Call)
    requires Inv(m, sent) && BetweenCalls(m) && Legal(m, c)
    ensures Inv(Step(m, c), StepSends(m, sent, c))
  {
    if c.Finish? {
      FinishInv(m, sent);
    } else if m.phase.NewGame? {
      NothingSentYet(m, sent);
      NewGameInv(m, c.env);
    } else if m.phase.Move? {
      MoveInv(m, sent, c.env);
    } else {
      CloseInv(m, sent, c.env.steps);
    }
  }

  /** A run of the game thread after `newMatch` on a fresh game. */
  predicate LegalRun(m: Match, calls: seq<Call>)
    decreases calls
  {
    calls == [] || (BetweenCalls(m) && Legal(m, calls[0]) && LegalRun(Step(m, calls[0]), calls[1..]))
  }

  function After(m: Match, calls: seq<Call>): (n: Match)
    requires LegalRun(m, calls)
    decreases calls
  {
    if calls == [] then m else After(Step(m, calls[0]), calls[1..])
  }

  /** Everything broadcast by the end of a run, after `sent`. */
  function AllSent(m: Match, sent: seq<Packet>, calls: seq<Call>): seq<Packet>
    requires LegalRun(m, calls) && Announceable(m)
    decreases calls
  {
    if calls == [] then sent else AllSent(Step(m, calls[0]), StepSends(m, sent, calls[0]), calls[1..])
  }

  lemma {:induction false} RunInv(m: Match, sent: seq<Packet>, calls: seq<Call>)
    requires Inv(m, sent) && LegalRun(m, calls)
    ensures Inv(After(m, calls), AllSent(m, sent, calls))
    decreases calls
  {
    if calls != [] {
      StepInv(m, sent, calls[0]);
      RunInv(Step(m, calls[0]), StepSends(m, sent, calls[0]), calls[1..]);
    }
  }

  function NewMatch(): Match {
    Fresh().(phase := NewGame)
  }

  lemma MatchInv(calls: seq<Call>)
    requires LegalRun(NewMatch(), calls)
    ensures Inv(After(NewMatch(), calls), AllSent(NewMatch(), [], calls))
  {
    FreshInv();
    NewMatchInv(Fresh());
    RunInv(NewMatch(), [], calls);
  }

  lemma MoveKnowsAll(m: Match, sent: seq<Packet>)
    requires Inv(m, sent) && m.phase.Move?
    ensures FoodSeen(Fold(sent), m) && PlayersSeen(Fold(sent), m)
  {
  }

  /** In every match: whenever a MOVE is about to be requested, everything broadcast so far reproduces the engine. */
  lemma ReplicaAgreement(calls: seq<Call>)
    requires LegalRun(NewMatch(), calls) && After(NewMatch(), calls).phase.Move?
    ensures WellFormed(After(NewMatch(), calls))
    ensures FoodSeen(Fold(AllSent(NewMatch(), [], calls)), After(NewMatch(), calls))
    ensures PlayersSeen(Fold(AllSent(NewMatch(), [], calls)), After(NewMatch(), calls))
  {
    MatchInv(calls);
    MoveKnowsAll(After(NewMatch(), calls), AllSent(NewMatch(), [], calls));
  }

  /** In every match, between any two calls: the deaths announced are exactly the dead food, each announced once. */
  lemma ExactlyOnceAnnouncement(calls: seq<Call>)
    requires LegalRun(NewMatch(), calls) && BetweenCalls(After(NewMatch(), calls))
    ensures ListsTheDead(Announced(AllSent(NewMatch(), [], calls)), After(NewMatch(), calls))
  {
    MatchInv(calls);
    AnnouncedIsAll(After(NewMatch(), calls), AllSent(NewMatch(), [], calls));
  }

  lemma AnnouncedIsAll(m: Match, sent: seq<Packet>)
    requires DeathsInv(m, sent) && !m.phase.Announce?
    ensures ListsTheDead(Announced(sent), m)
  {
    assert Announced(sent) + PendingDead(m) == Announced(sent);
  }

  // ---------- the two numberings of the players ----------

  /** Nobody answers after somebody failed to. */
  predicate AnswersArePrefix(answered: seq<bool>) {
    forall a, b :: 0 <= a < b < |answered| && answered[b] ==> answered[a]
  }

  /** PLAYER_UPDATE number `i` belongs to the client that NEW_GAME numbered `i`, for every player. */
  predicate NumberingsAgree(roster: seq<nat>, answered: seq<bool>)
    requires |answered| == |roster|
  {
    forall i :: 0 <= i < |Answering(roster, answered)| ==> i < |roster| && Answering(roster, answered)[i] == roster[i]
  }

  lemma {:induction false} PrefixAnswers(roster: seq<nat>, answered: seq<bool>)
    requires |answered| <= |roster| && AnswersArePrefix(answered)
    ensures Answering(roster, answered) <= roster
    ensures answered != [] && answered[|answered| - 1] ==> |Answering(roster, answered)| == |answered|
    decreases answered
  {
    if answered != [] {
      var n := |answered| - 1;
      PrefixAnswers(roster, answered[..n]);
      if answered[n] {
        assert n > 0 ==> answered[..n][n - 1];
        assert |Answering(roster, answered[..n])| == n;
      }
    }
  }

  lemma {:induction false} LateAnswer(roster: seq<nat>, answered: seq<bool>)
    requires |answered| <= |roster| && !AnswersArePrefix(answered)
    requires forall a, b :: 0 <= a < b < |roster| ==> roster[a] != roster[b]
    ensures exists i :: 0 <= i < |Answering(roster, answered)| && Answering(roster, answered)[i] != roster[i]
    decreases answered
  {
    var n := |answered| - 1;
    var before := Answering(roster, answered[..n]);
    if AnswersArePrefix(answered[..n]) {
      assert answered[n];
      MissingAnswer(roster, answered[..n]);
      assert Answering(roster, answered)[|before|] == roster[n];
    } else {
      LateAnswer(roster, answered[..n]);
      var i :| 0 <= i < |before| && before[i] != roster[i];
      assert Answering(roster, answered)[i] == before[i];
    }
  }

  lemma {:induction false} MissingAnswer(roster: seq<nat>, answered: seq<bool>)
    requires |answered| <= |roster| && exists a :: 0 <= a < |answered| && !answered[a]
    ensures |Answering(roster, answered)| < |answered|
    decreases answered
  {
    var n := |answered| - 1;
    var a :| 0 <= a < |answered| && !answered[a];
    if a < n {
      assert !answered[..n][a];
      MissingAnswer(roster, answered[..n]);
    }
  }

  lemma {:induction false} EveryoneAnswers(roster: seq<nat>, answered: seq<bool>)
    requires |answered| <= |roster| && forall a :: 0 <= a < |answered| ==> answered[a]
    ensures |Answering(roster, answered)| == |answered|
    decreases answered
  {
    if answered != [] {
      EveryoneAnswers(roster, answered[..|answered| - 1]);
    }
  }

  /**
   The numbers announced in NEW_GAME are the numbers used in PLAYER_UPDATE exactly when no
   client answers after one that did not; the announced number of players is right exactly
   when everyone answers.
   */
  lemma Numberings(roster: seq<nat>, answered: seq<bool>)
    requires |answered| == |roster|
    requires forall a, b :: 0 <= a < b < |roster| ==> roster[a] != roster[b]
    ensures NumberingsAgree(roster, answered) <==> AnswersArePrefix(answered)
    ensures |Answering(roster, answered)| == |roster| <==> forall a :: 0 <= a < |answered| ==> answered[a]
  {
    if AnswersArePrefix(answered) {
      PrefixAnswers(roster, answered);
    } else {
      LateAnswer(roster, answered);
    }
    if forall a :: 0 <= a < |answered| ==> answered[a] {
      EveryoneAnswers(roster, answered);
    } else {
      MissingAnswer(roster, answered);
    }
  }
}
