/**
 The game thread (src/amgame.cpp, src/food.cpp) as it updates its objects in place. Every
 method is tied to the functions of `Match` on the view of the game it starts from.
 */
module Game {
  import opened HitPoints
  import opened World
  import opened Packets
  import M = Match

  class Food {
    const engineFood: Mortal
    var isAlive: bool

    constructor (f: Mortal)
      ensures engineFood == f && isAlive
    {
      engineFood := f;
      isAlive := true;
    }

    /** Reports a death the first time it is seen, and only then. */
    method UpdateSprite() returns (died: bool)
      modifies this`isAlive
      ensures isAlive == (old(isAlive) && engineFood.Alive())
      ensures died == (old(isAlive) && !engineFood.Alive())
    {
      if isAlive {
        if !engineFood.Alive() {
          isAlive := false;
          return true;
        }
      }
      return false;
    }
  }

  /** Which sprites are still shown. */
  function SpritesOf(food: seq<Food>): (shown: seq<bool>)
    reads food`isAlive
    ensures |shown| == |food| && forall j :: 0 <= j < |food| ==> shown[j] == food[j].isAlive
  {
    if food == [] then [] else SpritesOf(food[..|food| - 1]) + [food[|food| - 1].isAlive]
  }

  class Player {
    const enginePlayer: Mortal
    const clientId: nat

    constructor (p: Mortal, id: nat)
      ensures enginePlayer == p && clientId == id
    {
      enginePlayer := p;
      clientId := id;
    }
  }

  function ClientIdsOf(players: seq<Player>): (ids: seq<nat>)
    ensures |ids| == |players|
  {
    seq(|players|, i requires 0 <= i < |players| => players[i].clientId)
  }

  /** The record buffer of the update transactions. */
  class Buffer<R> {
    const limit: nat
    var records: seq<R>

    constructor (limit: nat)
      ensures this.limit == limit && records == []
    {
      this.limit := limit;
      records := [];
    }

    method Add(r: R)
      modifies this
      ensures records == old(records) + [r]
    {
      records := records + [r];
    }

    predicate IsFull()
      reads this
    {
      |records| == limit
    }

    predicate IsEmpty()
      reads this
    {
      |records| == 0
    }

    method Clear()
      modifies this
      ensures records == []
    {
      records := [];
    }
  }

  /** The server as the game thread sees it: what it was asked to run, in order. */
  class Server {
    var broadcasts: seq<Packet>
    var directed: seq<(nat, Packet)>

    constructor ()
      ensures broadcasts == [] && directed == []
    {
      broadcasts, directed := [], [];
    }

    method RunTransaction(p: Packet)
      modifies this`broadcasts
      ensures broadcasts == old(broadcasts) + [p]
    {
      broadcasts := broadcasts + [p];
    }

    method RunTransactionWithSingleClient(id: nat, p: Packet)
      modifies this`directed
      ensures directed == old(directed) + [(id, p)]
    {
      directed := directed + [(id, p)];
    }
  }

  /** A sixteen-bit counter follows an unbounded one. */
  lemma NextNumber(n: nat)
    ensures (n % 0x1_0000 + 1) % 0x1_0000 == (n + 1) % 0x1_0000
  {
  }

  class Game {
    var phase: M.Phase
    var players: seq<Player>
    var food: seq<Food>
    var gameTime: nat
    const world: World
    const server: Server

    ghost predicate Valid()
      reads this, world
    {
      && world.Valid()
      && |players| == |world.players| && |food| == |world.food|
      && (forall i :: 0 <= i < |players| ==> players[i].enginePlayer == world.players[i])
      && (forall j :: 0 <= j < |food| ==> food[j].engineFood == world.food[j])
      && (forall a, b :: 0 <= a < b < |food| ==> food[a] != food[b])
      && !phase.Announce?
    }

    function ClientIds(): (ids: seq<nat>)
      reads this`players
      ensures |ids| == |players|
    {
      ClientIdsOf(players)
    }

    /** The game as the match sees it, but for its phase and time. */
    function ViewAt(phase: M.Phase, time: nat): (m: M.Match)
      reads this`players, this`food, world, world.players`hitpoints, world.players`position
      reads world.food`hitpoints, world.food`position, food`isAlive
    {
      M.Match(phase, ClientIds(), world.Tally(), PositionsOf(world.players), PositionsOf(world.food), SpritesOf(food), time)
    }

    function View(): (m: M.Match)
      reads this, world, world.players`hitpoints, world.players`position, world.food`hitpoints, world.food`position, food`isAlive
    {
      ViewAt(phase, gameTime)
    }

    constructor ()
      ensures Valid() && View() == M.Fresh() && fresh(server) && server.broadcasts == []
    {
      phase, players, food, gameTime := M.MainMenu, [], [], 0;
      world := new World();
      server := new Server();
      new;
      assert View() == M.Fresh();
    }

    method Finish()
      requires Valid()
      modifies this`phase
      ensures Valid() && View() == old(View()).(phase := M.GameOver)
    {
      phase := M.GameOver;
    }

    /** One food record through the buffer; a full buffer, or the last record, is sent. */
    method QueueFood(t: Buffer<FoodState>, r: FoodState, last: bool,
                     ghost seen: seq<FoodState>, ghost before: seq<Packet>, ghost sent: seq<seq<FoodState>>)
      returns (ghost now: seq<seq<FoodState>>)
      requires t.limit == MAX_FOOD_UPDATES && Buffered(seen, MAX_FOOD_UPDATES, sent, t.records)
      requires server.broadcasts == before + FoodPacketsOf(sent)
      modifies t, server`broadcasts
      ensures !last ==> Buffered(seen + [r], MAX_FOOD_UPDATES, now, t.records)
      ensures last ==> now == Chunks(seen + [r], MAX_FOOD_UPDATES)
      ensures server.broadcasts == before + FoodPacketsOf(now)
    {
      now := sent;
      SendStep(seen, MAX_FOOD_UPDATES, sent, t.records, r);
      t.Add(r);
      if t.IsFull() || last {
        server.RunTransaction(FoodUpdate(t.records));
        now := sent + [t.records];
        assert FoodPacketsOf(now) == FoodPacketsOf(sent) + [FoodUpdate(t.records)];
        t.Clear();
      }
    }

    // Records as the loops below build them from the live objects.

    function FoodRow(j: nat): FoodState
      requires j < |food|
      reads this, food[j].engineFood`hitpoints, food[j].engineFood`position
    {
      var f := food[j].engineFood;
      FoodState(j % 0x1_0000, f.hitpoints % 0x100, f.position)
    }

    function PlayerRow(i: nat): PlayerState
      requires i < |players|
      reads this, players[i].enginePlayer`hitpoints, players[i].enginePlayer`position
    {
      var p := players[i].enginePlayer;
      PlayerState((i % 0x1_0000) % 0x100, p.hitpoints % 0x1_0000, p.position)
    }

    lemma FoodRowsAreTable()
      requires Valid() && M.WellFormed(View())
      ensures forall j :: 0 <= j < |food| ==> M.FoodTable(View())[j] == FoodRow(j)
    {
    }

    lemma PlayerRowsAreTable()
      requires Valid() && M.WellFormed(View())
      ensures forall i :: 0 <= i < |players| ==> M.PlayerTable(View())[i] == PlayerRow(i)
    {
    }

    /** Streams the whole food table, sixteen records at a time. */
    method SendFoodTable(ghost table: seq<FoodState>)
      requires |table| == |food| && forall j :: 0 <= j < |food| ==> table[j] == FoodRow(j)
      modifies server`broadcasts
      ensures server.broadcasts == old(server.broadcasts) + FoodPackets(table)
    {
      ghost var before, sent: seq<seq<FoodState>> := server.broadcasts, [];
      var t := new Buffer<FoodState>(MAX_FOOD_UPDATES);
      var foodNo := 0;
      assert table[..0] == [];
      for n := 0 to |food|
        invariant foodNo == n % 0x1_0000
        invariant n < |food| ==> Buffered(table[..n], MAX_FOOD_UPDATES, sent, t.records)
        invariant n == |food| ==> sent == Chunks(table, MAX_FOOD_UPDATES)
        invariant server.broadcasts == before + FoodPacketsOf(sent)
      {
        var f := food[n].engineFood;
        var r := FoodState(foodNo, f.hitpoints % 0x100, f.position);
        assert r == FoodRow(n);
        assert table[..n + 1] == table[..n] + [r];
        assert n == |food| - 1 ==> table[..n + 1] == table;
        NextNumber(n);
        sent := QueueFood(t, r, n == |food| - 1, table[..n], before, sent);
        foodNo := (foodNo + 1) % 0x1_0000;
      }
    }

    /** One player record through the buffer of a PLAYER_UPDATE transaction. */
    method QueuePlayerTable(t: Buffer<PlayerState>, r: PlayerState, last: bool,
                            ghost seen: seq<PlayerState>, ghost before: seq<Packet>, ghost sent: seq<seq<PlayerState>>)
      returns (ghost now: seq<seq<PlayerState>>)
      requires t.limit == MAX_PLAYER_UPDATES && Buffered(seen, MAX_PLAYER_UPDATES, sent, t.records)
      requires server.broadcasts == before + PlayerPacketsOf(sent)
      modifies t, server`broadcasts
      ensures !last ==> Buffered(seen + [r], MAX_PLAYER_UPDATES, now, t.records)
      ensures last ==> now == Chunks(seen + [r], MAX_PLAYER_UPDATES)
      ensures server.broadcasts == before + PlayerPacketsOf(now)
    {
      now := sent;
      SendStep(seen, MAX_PLAYER_UPDATES, sent, t.records, r);
      t.Add(r);
      if t.IsFull() || last {
        server.RunTransaction(PlayerUpdate(t.records));
        now := sent + [t.records];
        assert PlayerPacketsOf(now) == PlayerPacketsOf(sent) + [PlayerUpdate(t.records)];
        t.Clear();
      }
    }

    /** Streams the whole player table, eight records at a time. */
    method SendPlayerTable(ghost table: seq<PlayerState>)
      requires |table| == |players| && forall i :: 0 <= i < |players| ==> table[i] == PlayerRow(i)
      modifies server`broadcasts
      ensures server.broadcasts == old(server.broadcasts) + PlayerPackets(table)
    {
      ghost var before, sent: seq<seq<PlayerState>> := server.broadcasts, [];
      var t := new Buffer<PlayerState>(MAX_PLAYER_UPDATES);
      var playerNo := 0;
      assert table[..0] == [];
      for n := 0 to |players|
        invariant playerNo == n % 0x1_0000
        invariant n < |players| ==> Buffered(table[..n], MAX_PLAYER_UPDATES, sent, t.records)
        invariant n == |players| ==> sent == Chunks(table, MAX_PLAYER_UPDATES)
        invariant server.broadcasts == before + PlayerPacketsOf(sent)
      {
        var p := players[n].enginePlayer;
        var r := PlayerState(playerNo % 0x100, p.hitpoints % 0x1_0000, p.position);
        assert r == PlayerRow(n);
        assert table[..n + 1] == table[..n] + [r];
        assert n == |players| - 1 ==> table[..n + 1] == table;
        NextNumber(n);
        sent := QueuePlayerTable(t, r, n == |players| - 1, table[..n], before, sent);
        playerNo := (playerNo + 1) % 0x1_0000;
      }
    }

    /** One player record through the buffer of a GAME_OVER transaction. */
    method QueueStandings(t: Buffer<PlayerState>, r: PlayerState, last: bool,
                          ghost seen: seq<PlayerState>, ghost before: seq<Packet>, ghost sent: seq<seq<PlayerState>>)
      returns (ghost now: seq<seq<PlayerState>>)
      requires t.limit == MAX_PLAYER_UPDATES && Buffered(seen, MAX_PLAYER_UPDATES, sent, t.records)
      requires server.broadcasts == before + GameOverPacketsOf(sent)
      modifies t, server`broadcasts
      ensures !last ==> Buffered(seen + [r], MAX_PLAYER_UPDATES, now, t.records)
      ensures last ==> now == Chunks(seen + [r], MAX_PLAYER_UPDATES)
      ensures server.broadcasts == before + GameOverPacketsOf(now)
    {
      now := sent;
      SendStep(seen, MAX_PLAYER_UPDATES, sent, t.records, r);
      t.Add(r);
      if t.IsFull() || last {
        server.RunTransaction(GameOverRequest(t.records));
        now := sent + [t.records];
        assert GameOverPacketsOf(now) == GameOverPacketsOf(sent) + [GameOverRequest(t.records)];
        t.Clear();
      }
    }

    /** Streams the final standings, eight records at a time. */
    method SendStandings(ghost table: seq<PlayerState>)
      requires |table| == |players| && forall i :: 0 <= i < |players| ==> table[i] == PlayerRow(i)
      modifies server`broadcasts
      ensures server.broadcasts == old(server.broadcasts) + GameOverPackets(table)
    {
      ghost var before, sent: seq<seq<PlayerState>> := server.broadcasts, [];
      var t := new Buffer<PlayerState>(MAX_PLAYER_UPDATES);
      var playerNo := 0;
      assert table[..0] == [];
      for n := 0 to |players|
        invariant playerNo == n % 0x1_0000
        invariant n < |players| ==> Buffered(table[..n], MAX_PLAYER_UPDATES, sent, t.records)
        invariant n == |players| ==> sent == Chunks(table, MAX_PLAYER_UPDATES)
        invariant server.broadcasts == before + GameOverPacketsOf(sent)
      {
        var p := players[n].enginePlayer;
        var r := PlayerState(playerNo % 0x100, p.hitpoints % 0x1_0000, p.position);
        assert r == PlayerRow(n);
        assert table[..n + 1] == table[..n] + [r];
        assert n == |players| - 1 ==> table[..n + 1] == table;
        NextNumber(n);
        sent := QueueStandings(t, r, n == |players| - 1, table[..n], before, sent);
        playerNo := (playerNo + 1) % 0x1_0000;
      }
    }

    /** One food of the MOVE phase: queued only if it just died; a full buffer, or anything left at the end, is sent. */
    method QueueDeath(t: Buffer<FoodState>, died: bool, r: FoodState, last: bool,
                      ghost seen: seq<FoodState>, ghost before: seq<Packet>, ghost sent: seq<seq<FoodState>>)
      returns (ghost now: seq<seq<FoodState>>)
      requires t.limit == MAX_FOOD_UPDATES && Buffered(seen, MAX_FOOD_UPDATES, sent, t.records)
      requires server.broadcasts == before + FoodPacketsOf(sent)
      modifies t, server`broadcasts
      ensures !last ==> Buffered(seen + if died then [r] else [], MAX_FOOD_UPDATES, now, t.records)
      ensures last ==> now == Chunks(seen + if died then [r] else [], MAX_FOOD_UPDATES)
      ensures server.broadcasts == before + FoodPacketsOf(now)
    {
      now := sent;
      assert seen + [] == seen;
      BufferedIsChunks(seen, MAX_FOOD_UPDATES, sent, t.records);
      SendStep(seen, MAX_FOOD_UPDATES, sent, t.records, r);
      if died {
        t.Add(r);
      }
      if t.IsFull() || (last && !t.IsEmpty()) {
        server.RunTransaction(FoodUpdate(t.records));
        now := sent + [t.records];
        assert FoodPacketsOf(now) == FoodPacketsOf(sent) + [FoodUpdate(t.records)];
        t.Clear();
      }
    }

    /** Whether sprites below `n` have been brought up to date with `m`, and the others not yet. */
    ghost predicate SpritesUpTo(m: M.Match, n: nat)
      requires |m.shown| == |food| == |m.world.food|
      reads this, food`isAlive
    {
      forall j :: 0 <= j < |food| ==> food[j].isAlive == (m.shown[j] && (j < n ==> m.world.food[j] > 0))
    }

    method AnnounceOne(t: Buffer<FoodState>, n: nat, foodNo: nat, ghost m: M.Match,
                       ghost before: seq<Packet>, ghost sent: seq<seq<FoodState>>)
      returns (ghost now: seq<seq<FoodState>>)
      requires M.WellFormed(m) && |food| == |m.world.food| && n < |food| && foodNo == n % 0x1_0000
      requires forall a, b :: 0 <= a < b < |food| ==> food[a] != food[b]
      requires food[n].engineFood.hitpoints == m.world.food[n] && food[n].engineFood.position == m.foodAt[n]
      requires SpritesUpTo(m, n) && t.limit == MAX_FOOD_UPDATES
      requires Buffered(M.DeathsUpTo(m, n), MAX_FOOD_UPDATES, sent, t.records)
      requires server.broadcasts == before + FoodPacketsOf(sent)
      modifies t, food`isAlive, server`broadcasts
      ensures SpritesUpTo(m, n + 1)
      ensures n + 1 < |food| ==>
                Buffered(M.DeathsUpTo(m, n + 1), MAX_FOOD_UPDATES, now, t.records)
      ensures n + 1 == |food| ==> now == Chunks(M.DeathsUpTo(m, n + 1), MAX_FOOD_UPDATES)
      ensures server.broadcasts == before + FoodPacketsOf(now)
    {
      var died := food[n].UpdateSprite();
      var r := FoodState(foodNo, 0, food[n].engineFood.position);
      OneMoreDeath(m, n);
      now := QueueDeath(t, died, r, n == |food| - 1, M.DeathsUpTo(m, n), before, sent);
    }

    method AnnounceLoop(ghost m: M.Match)
      requires M.WellFormed(m) && |food| == |m.world.food|
      requires forall a, b :: 0 <= a < b < |food| ==> food[a] != food[b]
      requires forall j :: 0 <= j < |food| ==>
                 food[j].engineFood.hitpoints == m.world.food[j] && food[j].engineFood.position == m.foodAt[j]
      requires SpritesUpTo(m, 0)
      modifies food`isAlive, server`broadcasts
      ensures SpritesUpTo(m, |food|)
      ensures server.broadcasts == old(server.broadcasts)
                                 + FoodPackets(M.DeathsUpTo(m, |food|))
    {
      ghost var before, sent: seq<seq<FoodState>> := server.broadcasts, [];
      var t := new Buffer<FoodState>(MAX_FOOD_UPDATES);
      var foodNo := 0;
      NoDeathsYet(m);
      for n := 0 to |food|
        invariant foodNo == n % 0x1_0000 && SpritesUpTo(m, n)
        invariant n < |food| ==> Buffered(M.DeathsUpTo(m, n), MAX_FOOD_UPDATES, sent, t.records)
        invariant n == |food| ==> sent == Chunks(M.DeathsUpTo(m, n), MAX_FOOD_UPDATES)
        invariant server.broadcasts == before + FoodPacketsOf(sent)
      {
        sent := AnnounceOne(t, n, foodNo, m, before, sent);
        foodNo := NextFoodNo(foodNo, n);
      }
    }

    method NextFoodNo(foodNo: nat, ghost n: nat) returns (next: nat)
      requires foodNo == n % 0x1_0000
      ensures next == (n + 1) % 0x1_0000
    {
      NextNumber(n);
      next := (foodNo + 1) % 0x1_0000;
    }

    method StepOnce(steps: seq<Physics>, n: nat, ghost t: HitPoints.Tally)
      requires world.Valid() && n < |steps| && M.AllPossible(t, steps)
      requires M.AllPossible(t, steps[..n]) && world.Tally() == M.Stepped(t, steps[..n])
      modifies world.players, world.food
      ensures M.AllPossible(t, steps[..n + 1]) && world.Tally() == M.Stepped(t, steps[..n + 1])
      ensures world.Placed(steps[n])
    {
      M.SteppedOneMore(t, steps, n);
      world.Step(steps[n]);
    }

    /** The five world steps of a MOVE. */
    method StepWorld(steps: seq<Physics>)
      requires world.Valid() && |steps| == M.STEPS_PER_MOVE && M.AllPossible(world.Tally(), steps)
      modifies world.players, world.food
      ensures world.Tally() == M.Stepped(old(world.Tally()), steps)
      ensures world.Placed(steps[M.STEPS_PER_MOVE - 1])
    {
      ghost var t := world.Tally();
      for n := 0 to M.STEPS_PER_MOVE - 1
        invariant M.AllPossible(t, steps[..n]) && world.Tally() == M.Stepped(t, steps[..n])
      {
        StepOnce(steps, n, t);
      }
      StepOnce(steps, M.STEPS_PER_MOVE - 1, t);
      assert steps[..M.STEPS_PER_MOVE] == steps;
    }

    // ---------- NEW_GAME ----------

    /** The players are the clients `ids`, with hit points `hp`. */
    ghost predicate Roll(ids: seq<nat>, hp: seq<int>)
      reads this`players, world`players, world.players`hitpoints
    {
      && |players| == |world.players| == |ids| == |hp|
      && forall i :: 0 <= i < |ids| ==>
           players[i].enginePlayer == world.players[i] && players[i].clientId == ids[i] && world.players[i].hitpoints == hp[i]
    }

    /** The food has hit points `hp`, lies at `places`, and shows the sprites `shown`. */
    ghost predicate Larder(hp: seq<int>, places: seq<Position>, shown: seq<bool>)
      reads this`food, world`food, world.food`hitpoints, world.food`position, food`isAlive
    {
      && |food| == |world.food| == |hp| == |places| == |shown|
      && (forall a, b :: 0 <= a < b < |food| ==> food[a] != food[b])
      && forall j :: 0 <= j < |hp| ==>
           && food[j].engineFood == world.food[j] && food[j].isAlive == shown[j]
           && world.food[j].hitpoints == hp[j] && world.food[j].position == places[j]
    }

    lemma RollAndLarder(m: M.Match)
      requires Valid() && m == View()
      ensures Roll(m.players, m.world.players) && Larder(m.world.food, m.foodAt, m.shown)
    {
    }

    lemma ViewOf(m: M.Match)
      requires world.Valid() && !m.phase.Announce? && m.phase == phase && m.gameTime == gameTime
      requires Roll(m.players, m.world.players) && Larder(m.world.food, m.foodAt, m.shown)
      requires |m.playersAt| == |world.players|
      requires forall i :: 0 <= i < |m.playersAt| ==> world.players[i].position == m.playersAt[i]
      ensures Valid() && View() == m
    {
      assert ClientIds() == m.players;
      assert HitPointsOf(world.players) == m.world.players && HitPointsOf(world.food) == m.world.food;
      assert PositionsOf(world.players) == m.playersAt && PositionsOf(world.food) == m.foodAt;
      assert SpritesOf(food) == m.shown;
    }

    method AcceptPlayer(id: nat, ghost ids: seq<nat>, ghost hp: seq<int>)
      requires world.Valid() && Roll(ids, hp)
      modifies this`players, world`players
      ensures world.Valid() && Roll(ids + [id], hp + [INITIAL_PLAYER_HP])
      ensures forall i :: 0 <= i < |world.players| ==> world.players[i] in old(world.players) || fresh(world.players[i])
    {
      var body := world.AddPlayer(ORIGIN);
      var p := new Player(body, id);
      players := players + [p];
    }

    /** NEW_GAME to every client of the roster in turn; those who answer become players. */
    method InviteClients(roster: seq<nat>, answered: seq<bool>, ghost ids: seq<nat>, ghost hp: seq<int>)
      requires world.Valid() && |answered| == |roster| && Roll(ids, hp)
      modifies this`players, world`players, server`directed
      ensures world.Valid()
      ensures server.directed == old(server.directed) + M.Invitations(roster)
      ensures Roll(ids + M.Answering(roster, answered), hp + Spawn(|M.Answering(roster, answered)|, 0).players)
      ensures forall i :: 0 <= i < |world.players| ==> world.players[i] in old(world.players) || fresh(world.players[i])
    {
      ghost var nowIds, nowHp := ids, hp;
      for k := 0 to |roster|
        invariant world.Valid() && Roll(nowIds, nowHp)
        invariant server.directed == old(server.directed) + M.Invitations(roster)[..k]
        invariant nowIds == ids + M.Answering(roster, answered[..k])
        invariant nowHp == hp + Spawn(|M.Answering(roster, answered[..k])|, 0).players
        invariant forall i :: 0 <= i < |world.players| ==> world.players[i] in old(world.players) || fresh(world.players[i])
      {
        assert answered[..k + 1][..k] == answered[..k];
        server.RunTransactionWithSingleClient(roster[k], NewGameRequest(k % 0x100, |roster| % 0x100));
        if answered[k] {
          AcceptPlayer(roster[k], nowIds, nowHp);
          nowIds, nowHp := nowIds + [roster[k]], nowHp + [INITIAL_PLAYER_HP];
        }
      }
      assert answered[..|roster|] == answered;
    }

    method PositionPlayers(at: seq<Position>)
      requires world.Valid() && |at| == |world.players|
      modifies world.players`position
      ensures forall i :: 0 <= i < |at| ==> world.players[i].position == at[i]
    {
      for n := 0 to |at|
        invariant forall i :: 0 <= i < n ==> world.players[i].position == at[i]
      {
        world.players[n].position := at[n];
      }
    }

    method DropFood(at: Position, ghost hp: seq<int>, ghost places: seq<Position>, ghost shown: seq<bool>)
      requires world.Valid() && Larder(hp, places, shown)
      modifies this`food, world`food
      ensures world.Valid() && Larder(hp + [INITIAL_FOOD_HP], places + [at], shown + [true])
      ensures forall j :: 0 <= j < |world.food| ==> world.food[j] in old(world.food) || fresh(world.food[j])
      ensures forall j :: 0 <= j < |food| ==> food[j] in old(food) || fresh(food[j])
    {
      var body := world.AddFood(at);
      var f := new Food(body);
      food := food + [f];
    }

    /** One piece of food at every place given. */
    method PositionFood(at: seq<Position>, ghost hp: seq<int>, ghost places: seq<Position>, ghost shown: seq<bool>)
      requires world.Valid() && Larder(hp, places, shown)
      modifies this`food, world`food
      ensures world.Valid()
      ensures Larder(hp + Spawn(0, |at|).food, places + at, shown + seq(|at|, j => true))
      ensures forall j :: 0 <= j < |world.food| ==> world.food[j] in old(world.food) || fresh(world.food[j])
      ensures forall j :: 0 <= j < |food| ==> food[j] in old(food) || fresh(food[j])
    {
      ghost var nowHp, nowPlaces, nowShown := hp, places, shown;
      for n := 0 to |at|
        invariant world.Valid() && Larder(nowHp, nowPlaces, nowShown)
        invariant nowHp == hp + Spawn(0, n).food && nowPlaces == places + at[..n] && nowShown == shown + seq(n, j => true)
        invariant forall j :: 0 <= j < |world.food| ==> world.food[j] in old(world.food) || fresh(world.food[j])
        invariant forall j :: 0 <= j < |food| ==> food[j] in old(food) || fresh(food[j])
      {
        DropFood(at[n], nowHp, nowPlaces, nowShown);
        nowHp, nowPlaces, nowShown := nowHp + [INITIAL_FOOD_HP], nowPlaces + [at[n]], nowShown + [true];
      }
      assert at[..|at|] == at;
    }

    method UpdateSprites(ghost hp: seq<int>, ghost places: seq<Position>, ghost shown: seq<bool>)
      requires Larder(hp, places, shown)
      modifies food`isAlive
      ensures Larder(hp, places, M.Edges(hp, shown))
    {
      for n := 0 to |food|
        invariant forall j :: 0 <= j < n ==> food[j].isAlive == (shown[j] && hp[j] > 0)
        invariant forall j :: n <= j < |food| ==> food[j].isAlive == shown[j]
      {
        var died := food[n].UpdateSprite();
      }
    }

    method SeatPlayers(env: M.Env, ghost ids: seq<nat>, ghost hp: seq<int>)
      requires world.Valid() && |env.answered| == |env.roster| && Roll(ids, hp)
      requires |env.playersAt| == |players| + |M.Answering(env.roster, env.answered)|
      modifies this`players, world`players, world.players`position, server`directed
      ensures world.Valid()
      ensures server.directed == old(server.directed) + M.Invitations(env.roster)
      ensures Roll(ids + M.Answering(env.roster, env.answered), hp + Spawn(|M.Answering(env.roster, env.answered)|, 0).players)
      ensures forall i :: 0 <= i < |world.players| ==> world.players[i] in old(world.players) || fresh(world.players[i])
      ensures |env.playersAt| == |world.players|
      ensures forall i :: 0 <= i < |env.playersAt| ==> world.players[i].position == env.playersAt[i]
    {
      InviteClients(env.roster, env.answered, ids, hp);
      PositionPlayers(env.playersAt);
    }

    /** Every body and every sprite is brought up to date. */
    method ShowAll(ghost hp: seq<int>, ghost places: seq<Position>, ghost shown: seq<bool>)
      requires world.Valid() && Larder(hp, places, shown)
      modifies food`isAlive, world.players`radius, world.players`enabled, world.food`radius, world.food`enabled
      ensures Larder(hp, places, M.Edges(hp, shown))
    {
      world.Init();
      UpdateSprites(hp, places, shown);
    }

    /** Six food for every player, and everything shown. A food already dead would go unannounced here. */
    method LayOut(at: seq<Position>, ghost hp: seq<int>, ghost places: seq<Position>, ghost shown: seq<bool>)
      requires world.Valid() && Larder(hp, places, shown)
      modifies this`food, world`food, food`isAlive
      modifies world.players`radius, world.players`enabled, world.food`radius, world.food`enabled
      ensures world.Valid()
      ensures Larder(hp + Spawn(0, |at|).food, places + at, M.Edges(hp, shown) + seq(|at|, j => true))
    {
      PositionFood(at, hp, places, shown);
      ShowAll(hp + Spawn(0, |at|).food, places + at, shown + seq(|at|, j => true));
      EdgesOfNewFood(hp, shown, |at|);
    }

    method SetUp(env: M.Env, ghost m: M.Match, ghost n: M.Match)
      requires world.Valid() && Roll(m.players, m.world.players) && Larder(m.world.food, m.foodAt, m.shown)
      requires m.phase.NewGame? && M.WellFormed(m) && M.Supports(m, env)
      requires n == M.SetUp(m, env.roster, env.answered, env.playersAt, env.foodAt)
      modifies this`players, this`food, world, world.players, world.food, food, server`directed
      ensures world.Valid() && Roll(n.players, n.world.players) && Larder(n.world.food, n.foodAt, n.shown)
      ensures |n.playersAt| == |world.players|
      ensures forall i :: 0 <= i < |n.playersAt| ==> world.players[i].position == n.playersAt[i]
      ensures server.directed == old(server.directed) + M.Invitations(env.roster)
    {
      SeatPlayers(env, m.players, m.world.players);
      LayOut(env.foodAt, m.world.food, m.foodAt, m.shown);
    }

    /** The NEW_GAME phase; the answers come from `env`. */
    method StartMatch(env: M.Env, ghost m: M.Match)
      requires Valid() && phase.NewGame? && m == View() && M.WellFormed(m) && M.Supports(m, env)
      modifies this, world, world.players, world.food, food, server`directed
      ensures Valid() && View() == M.SetUp(m, env.roster, env.answered, env.playersAt, env.foodAt)
      ensures server.directed == old(server.directed) + M.Invitations(env.roster)
    {
      RollAndLarder(m);
      ghost var n := M.SetUp(m, env.roster, env.answered, env.playersAt, env.foodAt);
      SetUp(env, m, n);
      phase := M.FoodUpdates;
      ViewOf(n);
    }

    /** Players and food are emptied by nobody here: a match is started on whatever is there. */
    method NewMatch()
      requires Valid()
      modifies this`phase
      ensures Valid() && View() == old(View()).(phase := M.NewGame)
    {
      phase := M.NewGame;
    }

    // ---------- one call of update ----------

    /** The world steps of a MOVE, as the match sees them. */
    method StepMatch(steps: seq<Physics>, ghost m: M.Match)
      requires Valid() && m == View() && M.Plausible(m, steps)
      modifies world.players, world.food
      ensures Valid() && View() == AfterSteps(m, steps)
    {
      StepWorld(steps);
      assert PositionsOf(world.players) == steps[M.STEPS_PER_MOVE - 1].playersAt;
      assert PositionsOf(world.food) == steps[M.STEPS_PER_MOVE - 1].foodAt;
    }

    method SetPhase(next: M.Phase, ghost m: M.Match)
      requires Valid() && m == View() && !next.Announce?
      modifies this`phase
      ensures Valid() && View() == m.(phase := next)
    {
      phase := next;
    }

    /** Announces every food whose sprite is still shown although it is dead, and hides those sprites. */
    method AnnounceDeaths(ghost m: M.Match)
      requires M.WellFormed(m) && Larder(m.world.food, m.foodAt, m.shown)
      modifies food`isAlive, server`broadcasts
      ensures Larder(m.world.food, m.foodAt, M.Edges(m.world.food, m.shown))
      ensures server.broadcasts == old(server.broadcasts) + FoodPackets(M.DeathsUpTo(m, |m.shown|))
    {
      AnnounceLoop(m);
    }

    method HideTheDead(ghost m: M.Match)
      requires Valid() && m == View() && M.WellFormed(m)
      modifies food`isAlive, server`broadcasts
      ensures Valid() && View() == m.(shown := M.Edges(m.world.food, m.shown))
      ensures server.broadcasts == old(server.broadcasts) + FoodPackets(M.DeathsUpTo(m, |m.shown|))
    {
      RollAndLarder(m);
      AnnounceDeaths(m);
      ViewOf(m.(shown := M.Edges(m.world.food, m.shown)));
    }

    /** The MOVE request, and the steps of the world it is for. */
    method MoveWorld(steps: seq<Physics>, ghost m: M.Match)
      requires Valid() && phase.Move? && m == View() && M.Plausible(m, steps)
      modifies this`gameTime, world.players, world.food, server`broadcasts
      ensures Valid() && View() == AfterSteps(Ticked(m), steps)
      ensures server.broadcasts == old(server.broadcasts) + [MoveRequest(m.gameTime)]
    {
      RequestMove(m);
      StepMatch(steps, Ticked(m));
    }

    method SettleMove(ghost v: M.Match)
      requires Valid() && v == View() && M.WellFormed(v)
      modifies this`phase, food`isAlive, server`broadcasts
      ensures Valid() && View() == v.(shown := M.Edges(v.world.food, v.shown), phase := M.PlayerUpdates)
      ensures server.broadcasts == old(server.broadcasts) + FoodPackets(M.DeathsUpTo(v, |v.shown|))
    {
      HideTheDead(v);
      SetPhase(M.PlayerUpdates, v.(shown := M.Edges(v.world.food, v.shown)));
    }

    /** MOVE.request, five steps of the world, and the deaths they caused. */
    method MoveAll(steps: seq<Physics>, ghost m: M.Match)
      requires Valid() && phase.Move? && m == View() && M.WellFormed(m) && M.Plausible(m, steps)
      modifies this`phase, this`gameTime, world.players, world.food, food`isAlive, server`broadcasts
      ensures Valid() && View() == Moved(m, steps)
      ensures server.broadcasts == old(server.broadcasts) + [MoveRequest(m.gameTime)] + FoodPackets(MoveDeaths(m, steps))
    {
      MoveWorld(steps, m);
      SettleMove(AfterSteps(Ticked(m), steps));
    }

    method MovePlayers(env: M.Env, ghost m: M.Match)
      requires Valid() && phase.Move? && m == View() && M.WellFormed(m) && M.Supports(m, env)
      modifies this`phase, this`gameTime, world.players, world.food, food`isAlive, server`broadcasts
      ensures Valid() && View() == M.Updated(m, env)
      ensures server.broadcasts == M.UpdateSends(m, old(server.broadcasts), env)
    {
      MoveUnfolded(m, env);
      MoveSends(m, env, server.broadcasts);
      MoveAll(env.steps, m);
    }

    method RequestMove(ghost m: M.Match)
      requires Valid() && m == View()
      modifies this`gameTime, server`broadcasts
      ensures Valid() && View() == Ticked(m)
      ensures server.broadcasts == old(server.broadcasts) + [MoveRequest(m.gameTime)]
    {
      var request := MoveRequest(gameTime);
      Tick(m);
      server.RunTransaction(request);
    }

    method Tick(ghost m: M.Match)
      requires Valid() && m == View()
      modifies this`gameTime
      ensures Valid() && View() == Ticked(m)
    {
      gameTime := (gameTime + 1) % 0x1_0000_0000;
    }

    method UpdateFood(ghost m: M.Match)
      requires Valid() && m == View() && phase.FoodUpdates? && M.WellFormed(m)
      modifies this`phase, server`broadcasts
      ensures Valid() && View() == m.(phase := M.PlayerUpdates)
      ensures server.broadcasts == old(server.broadcasts) + M.Open(m)
    {
      FoodRowsAreTable();
      SendFoodTable(M.FoodTable(m));
      phase := M.PlayerUpdates;
    }

    method UpdatePlayers(ghost m: M.Match)
      requires Valid() && m == View() && phase.PlayerUpdates? && M.WellFormed(m)
      modifies this`phase, server`broadcasts
      ensures Valid() && View() == m.(phase := M.Move)
      ensures server.broadcasts == old(server.broadcasts) + M.Open(m)
    {
      PlayerRowsAreTable();
      SendPlayerTable(M.PlayerTable(m));
      phase := M.Move;
    }

    method EndGame(ghost m: M.Match)
      requires Valid() && m == View() && phase.GameOver? && M.WellFormed(m)
      modifies this`phase, server`broadcasts
      ensures Valid() && View() == m.(phase := M.GameEnd)
      ensures server.broadcasts == old(server.broadcasts) + M.Open(m)
    {
      PlayerRowsAreTable();
      SendStandings(M.PlayerTable(m));
      phase := M.GameEnd;
    }

    method Play(env: M.Env, ghost m: M.Match)
      requires Valid() && m == View() && !phase.NewGame? && M.WellFormed(m) && M.Supports(m, env)
      modifies this`phase, this`gameTime, world.players, world.food, food`isAlive, server`broadcasts
      ensures Valid() && View() == M.Updated(m, env)
      ensures server.broadcasts == M.UpdateSends(m, old(server.broadcasts), env)
    {
      match phase
      case FoodUpdates => UpdateFood(m);
      case PlayerUpdates => UpdatePlayers(m);
      case Move => MovePlayers(env, m);
      case GameOver => EndGame(m);
      case _ =>
    }

    method Update(env: M.Env, ghost m: M.Match)
      requires Valid() && m == View() && M.WellFormed(m) && M.Supports(m, env)
      modifies this, world, world.players, world.food, food, server
      ensures Valid() && View() == M.Updated(m, env)
      ensures server.broadcasts == M.UpdateSends(m, old(server.broadcasts), env)
      ensures server.directed == old(server.directed) + if m.phase.NewGame? then M.Invitations(env.roster) else []
    {
      if phase.NewGame? {
        StartMatch(env, m);
      } else {
        Play(env, m);
      }
    }
  }

  function Ticked(m: M.Match): M.Match {
    m.(gameTime := (m.gameTime + 1) % 0x1_0000_0000)
  }

  /** A match whose world has been stepped and not yet looked at. */
  ghost function AfterSteps(m: M.Match, steps: seq<Physics>): (n: M.Match)
    requires M.Plausible(m, steps)
    ensures M.WellFormed(m) ==> M.WellFormed(n)
  {
    var last := steps[M.STEPS_PER_MOVE - 1];
    m.(world := M.Stepped(m.world, steps), playersAt := last.playersAt, foodAt := last.foodAt)
  }

  /** What a MOVE leaves: the stepped world, and no dead food shown. */
  ghost function Moved(m: M.Match, steps: seq<Physics>): M.Match
    requires M.Plausible(m, steps)
  {
    var v := AfterSteps(Ticked(m), steps);
    v.(shown := M.Edges(v.world.food, m.shown), phase := M.PlayerUpdates)
  }

  /** The records announcing the deaths of a MOVE. */
  ghost function MoveDeaths(m: M.Match, steps: seq<Physics>): seq<FoodState>
    requires M.WellFormed(m) && M.Plausible(m, steps)
  {
    M.DeathsUpTo(AfterSteps(Ticked(m), steps), |m.shown|)
  }

  /** A MOVE as two stages is its steps followed by what `updateSprite` does. */
  lemma MoveUnfolded(m: M.Match, env: M.Env)
    requires m.phase.Move? && M.WellFormed(m) && M.Supports(m, env)
    ensures M.Updated(m, env) == Moved(m, env.steps)
  {
  }

  lemma MoveSends(m: M.Match, env: M.Env, sent: seq<Packet>)
    requires m.phase.Move? && M.WellFormed(m) && M.Supports(m, env)
    ensures M.UpdateSends(m, sent, env) == sent + [MoveRequest(m.gameTime)] + FoodPackets(MoveDeaths(m, env.steps))
  {
    var n := M.Close(m, env.steps);
    assert M.DeathRecords(n, n.phase.dead) == MoveDeaths(m, env.steps);
  }

  lemma EdgesOfNewFood(hp: seq<int>, shown: seq<bool>, n: nat)
    requires |hp| == |shown|
    ensures M.Edges(hp + Spawn(0, n).food, shown + seq(n, j => true)) == M.Edges(hp, shown) + seq(n, j => true)
  {
  }

  const ORIGIN := Position(0.0, 0.0)

  lemma NoDeathsYet(m: M.Match)
    requires M.WellFormed(m)
    ensures M.DeathsUpTo(m, 0) == [] && Chunks(M.DeathsUpTo(m, 0), MAX_FOOD_UPDATES) == []
    ensures Buffered(M.DeathsUpTo(m, 0), MAX_FOOD_UPDATES, [], [])
  {
  }

  lemma OneMoreDeath(m: M.Match, n: nat)
    requires M.WellFormed(m) && n < |m.world.food|
    ensures M.DeathsUpTo(m, n + 1) ==
            M.DeathsUpTo(m, n) +
            if m.shown[n] && m.world.food[n] <= 0 then [M.FoodRecord(m, n, 0)] else []
  {
  }
}
