/**
 Requests, their split into packets, and what a client learns from them
 (src/amcom_packets.h, src/amcom_transactions.h, src/amgame.cpp).
 */
module Packets {
  import opened World

  const MAX_PLAYER_UPDATES := 8

  const MAX_FOOD_UPDATES := 16

  const PACKET_OVERHEAD := 5

  datatype FoodState = FoodState(foodNo: nat, state: int, at: Position)

  datatype PlayerState = PlayerState(playerNo: nat, hp: int, at: Position)

  datatype Packet =
    | NewGameRequest(playerNumber: nat, numberOfPlayers: nat)
    | FoodUpdate(food: seq<FoodState>)
    | PlayerUpdate(players: seq<PlayerState>)
    | MoveRequest(gameTime: nat)
    | GameOverRequest(standings: seq<PlayerState>)

  /** The size of the response a transaction waits for; 0 means it waits for none. */
  function ResponseSize(p: Packet): nat {
    match p
    case NewGameRequest(_, _) => PACKET_OVERHEAD + 127
    case MoveRequest(_) => PACKET_OVERHEAD + 4
    case GameOverRequest(_) => PACKET_OVERHEAD + 127
    case _ => 0
  }

  /** The packet type a response must carry. */
  function ResponseType(p: Packet): nat {
    match p
    case NewGameRequest(_, _) => 4
    case MoveRequest(_) => 10
    case GameOverRequest(_) => 12
    case _ => 0
  }

  // ---------- batching ----------

  /** Full batches of `n` records, then what is left. */
  function Chunks<R>(s: seq<R>, n: nat): (bs: seq<seq<R>>)
    requires n > 0
    decreases |s|
  {
    if s == [] then [] else if |s| <= n then [s] else [s[..n]] + Chunks(s[n..], n)
  }

  function Flatten<R>(bs: seq<seq<R>>): seq<R> {
    if bs == [] then [] else bs[0] + Flatten(bs[1..])
  }

  /** Batching loses, repeats and reorders nothing, and never sends an empty or an overfull batch. */
  lemma {:induction false} BatchingIsLossless<R>(s: seq<R>, n: nat)
    requires n > 0
    ensures Flatten(Chunks(s, n)) == s
    ensures forall b :: b in Chunks(s, n) ==> 0 < |b| <= n
    ensures forall k :: 0 <= k < |Chunks(s, n)| - 1 ==> |Chunks(s, n)[k]| == n
    decreases |s|
  {
    if |s| > n {
      BatchingIsLossless(s[n..], n);
      assert s == s[..n] + s[n..];
    } else if s != [] {
      assert Flatten([s]) == s + Flatten([]);
    }
  }

  lemma {:induction false} FlattenConcat<R>(a: seq<seq<R>>, b: seq<seq<R>>)
    ensures Flatten(a + b) == Flatten(a) + Flatten(b)
    decreases a
  {
    if a == [] {
      assert a + b == b;
    } else {
      assert (a + b)[1..] == a[1..] + b;
      FlattenConcat(a[1..], b);
    }
  }

  /** What a send loop has done after some records: full batches sent, the rest in the buffer. */
  ghost predicate Buffered<R>(s: seq<R>, n: nat, sent: seq<seq<R>>, buffer: seq<R>) {
    && Flatten(sent) + buffer == s
    && |buffer| < n
    && (forall k :: 0 <= k < |sent| ==> |sent[k]| == n)
  }

  /** Flushing what is left at the last record gives exactly the batches. */
  lemma {:induction false} BufferedIsChunks<R>(s: seq<R>, n: nat, sent: seq<seq<R>>, buffer: seq<R>)
    requires n > 0 && Buffered(s, n, sent, buffer)
    ensures Chunks(s, n) == sent + if buffer == [] then [] else [buffer]
    decreases sent
  {
    if sent == [] {
      assert s == buffer;
    } else {
      var rest := Flatten(sent[1..]) + buffer;
      assert s == sent[0] + rest;
      assert s[..n] == sent[0] && s[n..] == rest;
      BufferedIsChunks(rest, n, sent[1..], buffer);
      if rest == [] {
        assert Chunks(rest, n) == [];
        assert sent[1..] == [] && buffer == [];
        assert s == sent[0];
      }
    }
  }

  /** One more record through the buffer: flushing it now would give exactly the batches so far. */
  lemma {:induction false} SendStep<R>(s: seq<R>, n: nat, sent: seq<seq<R>>, buffer: seq<R>, r: R)
    requires Buffered(s, n, sent, buffer)
    ensures Chunks(s + [r], n) == sent + [buffer + [r]]
    ensures |buffer| + 1 < n ==> Buffered(s + [r], n, sent, buffer + [r])
    ensures |buffer| + 1 == n ==> Buffered(s + [r], n, sent + [buffer + [r]], [])
  {
    var all := s + [r];
    assert all == Flatten(sent) + (buffer + [r]);
    if |buffer| + 1 < n {
      BufferedIsChunks(all, n, sent, buffer + [r]);
    } else {
      var flushed := sent + [buffer + [r]];
      FlattenConcat(sent, [buffer + [r]]);
      assert Flatten([buffer + [r]]) == buffer + [r] + Flatten([]);
      assert Flatten(flushed) + [] == all;
      BufferedIsChunks(all, n, flushed, []);
    }
  }

  function FoodPackets(records: seq<FoodState>): seq<Packet> {
    FoodPacketsOf(Chunks(records, MAX_FOOD_UPDATES))
  }

  function FoodPacketsOf(bs: seq<seq<FoodState>>): seq<Packet> {
    seq(|bs|, k requires 0 <= k < |bs| => FoodUpdate(bs[k]))
  }

  function PlayerPackets(records: seq<PlayerState>): seq<Packet> {
    PlayerPacketsOf(Chunks(records, MAX_PLAYER_UPDATES))
  }

  function PlayerPacketsOf(bs: seq<seq<PlayerState>>): seq<Packet> {
    seq(|bs|, k requires 0 <= k < |bs| => PlayerUpdate(bs[k]))
  }

  function GameOverPackets(records: seq<PlayerState>): seq<Packet> {
    GameOverPacketsOf(Chunks(records, MAX_PLAYER_UPDATES))
  }

  function GameOverPacketsOf(bs: seq<seq<PlayerState>>): seq<Packet> {
    seq(|bs|, k requires 0 <= k < |bs| => GameOverRequest(bs[k]))
  }

  // ---------- what a client learns ----------

  /** A client's tables: the latest record heard for every number. */
  datatype Replica = Replica(food: map<nat, FoodState>, players: map<nat, PlayerState>)

  const BLANK := Replica(map[], map[])

  function LearnFood(t: map<nat, FoodState>, rs: seq<FoodState>): map<nat, FoodState>
    decreases rs
  {
    if rs == [] then t else LearnFood(t[rs[0].foodNo := rs[0]], rs[1..])
  }

  function LearnPlayers(t: map<nat, PlayerState>, rs: seq<PlayerState>): map<nat, PlayerState>
    decreases rs
  {
    if rs == [] then t else LearnPlayers(t[rs[0].playerNo := rs[0]], rs[1..])
  }

  function Hear(r: Replica, p: Packet): Replica {
    match p
    case FoodUpdate(food) => r.(food := LearnFood(r.food, food))
    case PlayerUpdate(players) => r.(players := LearnPlayers(r.players, players))
    case _ => r
  }

  function HearAll(r: Replica, ps: seq<Packet>): Replica
    decreases ps
  {
    if ps == [] then r else HearAll(Hear(r, ps[0]), ps[1..])
  }

  /** Everything learnt from the packets written so far. */
  function Fold(ps: seq<Packet>): Replica {
    HearAll(BLANK, ps)
  }

  lemma {:induction false} HearConcat(r: Replica, ps: seq<Packet>, qs: seq<Packet>)
    ensures HearAll(r, ps + qs) == HearAll(HearAll(r, ps), qs)
    decreases ps
  {
    if ps == [] {
      assert ps + qs == qs;
    } else {
      assert (ps + qs)[1..] == ps[1..] + qs;
      HearConcat(Hear(r, ps[0]), ps[1..], qs);
    }
  }

  lemma {:induction false} LearnFoodConcat(t: map<nat, FoodState>, a: seq<FoodState>, b: seq<FoodState>)
    ensures LearnFood(t, a + b) == LearnFood(LearnFood(t, a), b)
    decreases a
  {
    if a == [] {
      assert a + b == b;
    } else {
      assert (a + b)[1..] == a[1..] + b;
      LearnFoodConcat(t[a[0].foodNo := a[0]], a[1..], b);
    }
  }

  lemma {:induction false} LearnPlayersConcat(t: map<nat, PlayerState>, a: seq<PlayerState>, b: seq<PlayerState>)
    ensures LearnPlayers(t, a + b) == LearnPlayers(LearnPlayers(t, a), b)
    decreases a
  {
    if a == [] {
      assert a + b == b;
    } else {
      assert (a + b)[1..] == a[1..] + b;
      LearnPlayersConcat(t[a[0].playerNo := a[0]], a[1..], b);
    }
  }

  lemma {:induction false} HearFoodBatches(r: Replica, bs: seq<seq<FoodState>>)
    ensures HearAll(r, FoodPacketsOf(bs)) == r.(food := LearnFood(r.food, Flatten(bs)))
    decreases bs
  {
    if bs != [] {
      assert FoodPacketsOf(bs)[1..] == FoodPacketsOf(bs[1..]);
      HearFoodBatches(Hear(r, FoodUpdate(bs[0])), bs[1..]);
      LearnFoodConcat(r.food, bs[0], Flatten(bs[1..]));
    }
  }

  lemma {:induction false} HearPlayerBatches(r: Replica, bs: seq<seq<PlayerState>>)
    ensures HearAll(r, PlayerPacketsOf(bs)) == r.(players := LearnPlayers(r.players, Flatten(bs)))
    decreases bs
  {
    if bs != [] {
      assert PlayerPacketsOf(bs)[1..] == PlayerPacketsOf(bs[1..]);
      HearPlayerBatches(Hear(r, PlayerUpdate(bs[0])), bs[1..]);
      LearnPlayersConcat(r.players, bs[0], Flatten(bs[1..]));
    }
  }

  /** Hearing the packets of a table is learning its records, however they were batched. */
  lemma HearFoodPackets(r: Replica, rs: seq<FoodState>)
    ensures HearAll(r, FoodPackets(rs)) == r.(food := LearnFood(r.food, rs))
  {
    HearFoodBatches(r, Chunks(rs, MAX_FOOD_UPDATES));
    BatchingIsLossless(rs, MAX_FOOD_UPDATES);
  }

  lemma HearPlayerPackets(r: Replica, rs: seq<PlayerState>)
    ensures HearAll(r, PlayerPackets(rs)) == r.(players := LearnPlayers(r.players, rs))
  {
    HearPlayerBatches(r, Chunks(rs, MAX_PLAYER_UPDATES));
    BatchingIsLossless(rs, MAX_PLAYER_UPDATES);
  }

  lemma {:induction false} LearnFoodOthers(t: map<nat, FoodState>, rs: seq<FoodState>, k: nat)
    requires forall i :: 0 <= i < |rs| ==> rs[i].foodNo != k
    ensures (k in LearnFood(t, rs) <==> k in t) && (k in t ==> LearnFood(t, rs)[k] == t[k])
    decreases rs
  {
    if rs != [] {
      LearnFoodOthers(t[rs[0].foodNo := rs[0]], rs[1..], k);
    }
  }

  lemma {:induction false} LearnFoodAt(t: map<nat, FoodState>, rs: seq<FoodState>, i: nat)
    requires i < |rs| && forall a, b :: 0 <= a < b < |rs| ==> rs[a].foodNo != rs[b].foodNo
    ensures rs[i].foodNo in LearnFood(t, rs) && LearnFood(t, rs)[rs[i].foodNo] == rs[i]
    decreases rs
  {
    var u := t[rs[0].foodNo := rs[0]];
    if i == 0 {
      LearnFoodOthers(u, rs[1..], rs[0].foodNo);
    } else {
      LearnFoodAt(u, rs[1..], i - 1);
    }
  }

  lemma {:induction false} LearnPlayersOthers(t: map<nat, PlayerState>, rs: seq<PlayerState>, k: nat)
    requires forall i :: 0 <= i < |rs| ==> rs[i].playerNo != k
    ensures (k in LearnPlayers(t, rs) <==> k in t) && (k in t ==> LearnPlayers(t, rs)[k] == t[k])
    decreases rs
  {
    if rs != [] {
      LearnPlayersOthers(t[rs[0].playerNo := rs[0]], rs[1..], k);
    }
  }

  lemma {:induction false} LearnPlayersAt(t: map<nat, PlayerState>, rs: seq<PlayerState>, i: nat)
    requires i < |rs| && forall a, b :: 0 <= a < b < |rs| ==> rs[a].playerNo != rs[b].playerNo
    ensures rs[i].playerNo in LearnPlayers(t, rs) && LearnPlayers(t, rs)[rs[i].playerNo] == rs[i]
    decreases rs
  {
    var u := t[rs[0].playerNo := rs[0]];
    if i == 0 {
      LearnPlayersOthers(u, rs[1..], rs[0].playerNo);
    } else {
      LearnPlayersAt(u, rs[1..], i - 1);
    }
  }

  // ---------- deaths announced ----------

  /** The food numbers of all records that announce a death, in order. */
  function DeadIn(rs: seq<FoodState>): seq<nat> {
    if rs == [] then [] else (if rs[0].state == 0 then [rs[0].foodNo] else []) + DeadIn(rs[1..])
  }

  function Announced(ps: seq<Packet>): seq<nat> {
    if ps == [] then []
    else (match ps[0] case FoodUpdate(food) => DeadIn(food) case _ => []) + Announced(ps[1..])
  }

  lemma {:induction false} AnnouncedConcat(ps: seq<Packet>, qs: seq<Packet>)
    ensures Announced(ps + qs) == Announced(ps) + Announced(qs)
    decreases ps
  {
    if ps == [] {
      assert ps + qs == qs;
    } else {
      assert (ps + qs)[1..] == ps[1..] + qs;
      AnnouncedConcat(ps[1..], qs);
    }
  }

  lemma {:induction false} DeadInConcat(a: seq<FoodState>, b: seq<FoodState>)
    ensures DeadIn(a + b) == DeadIn(a) + DeadIn(b)
    decreases a
  {
    if a == [] {
      assert a + b == b;
    } else {
      assert (a + b)[0] == a[0] && (a + b)[1..] == a[1..] + b;
      DeadInConcat(a[1..], b);
    }
  }

  // ---------- food listed ----------

  /** The food numbers of all records of living food, in order. */
  function LivingIn(rs: seq<FoodState>): seq<nat> {
    if rs == [] then [] else (if rs[0].state != 0 then [rs[0].foodNo] else []) + LivingIn(rs[1..])
  }

  function Listed(ps: seq<Packet>): seq<nat> {
    if ps == [] then []
    else (match ps[0] case FoodUpdate(food) => LivingIn(food) case _ => []) + Listed(ps[1..])
  }

  lemma {:induction false} ListedConcat(ps: seq<Packet>, qs: seq<Packet>)
    ensures Listed(ps + qs) == Listed(ps) + Listed(qs)
    decreases ps
  {
    if ps == [] {
      assert ps + qs == qs;
    } else {
      assert (ps + qs)[1..] == ps[1..] + qs;
      ListedConcat(ps[1..], qs);
    }
  }

  lemma {:induction false} LivingInConcat(a: seq<FoodState>, b: seq<FoodState>)
    ensures LivingIn(a + b) == LivingIn(a) + LivingIn(b)
    decreases a
  {
    if a == [] {
      assert a + b == b;
    } else {
      assert (a + b)[0] == a[0] && (a + b)[1..] == a[1..] + b;
      LivingInConcat(a[1..], b);
    }
  }

  lemma {:induction false} ListedInBatches(bs: seq<seq<FoodState>>)
    ensures Listed(FoodPacketsOf(bs)) == LivingIn(Flatten(bs))
    decreases bs
  {
    if bs != [] {
      assert FoodPacketsOf(bs)[1..] == FoodPacketsOf(bs[1..]);
      ListedInBatches(bs[1..]);
      LivingInConcat(bs[0], Flatten(bs[1..]));
    }
  }

  lemma ListedInPackets(rs: seq<FoodState>)
    ensures Listed(FoodPackets(rs)) == LivingIn(rs)
  {
    ListedInBatches(Chunks(rs, MAX_FOOD_UPDATES));
    BatchingIsLossless(rs, MAX_FOOD_UPDATES);
  }

  lemma {:induction false} NothingListed(ps: seq<Packet>)
    requires forall k :: 0 <= k < |ps| ==> !ps[k].FoodUpdate?
    ensures Listed(ps) == []
    decreases ps
  {
    if ps != [] {
      NothingListed(ps[1..]);
    }
  }

  lemma {:induction false} AnnouncedInBatches(bs: seq<seq<FoodState>>)
    ensures Announced(FoodPacketsOf(bs)) == DeadIn(Flatten(bs))
    decreases bs
  {
    if bs != [] {
      assert FoodPacketsOf(bs)[1..] == FoodPacketsOf(bs[1..]);
      AnnouncedInBatches(bs[1..]);
      DeadInConcat(bs[0], Flatten(bs[1..]));
    }
  }

  lemma AnnouncedInPackets(rs: seq<FoodState>)
    ensures Announced(FoodPackets(rs)) == DeadIn(rs)
  {
    AnnouncedInBatches(Chunks(rs, MAX_FOOD_UPDATES));
    BatchingIsLossless(rs, MAX_FOOD_UPDATES);
  }

  lemma {:induction false} NothingAnnounced(ps: seq<Packet>)
    requires forall k :: 0 <= k < |ps| ==> !ps[k].FoodUpdate?
    ensures Announced(ps) == []
    decreases ps
  {
    if ps != [] {
      NothingAnnounced(ps[1..]);
    }
  }
}
