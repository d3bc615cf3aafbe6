/**
 What contacts do to hit points (src/engine/engine.cpp), on values.

 The physics is an arbitrary sequence of contacts. `Contact` is the double dispatch of
 the contact listener; everything else here is about runs of it.
 */
module HitPoints {

  /** What the user data of a body in contact points at; indices count players and food separately. */
  datatype Object = Null | Boundaries | Food(index: nat) | Player(index: nat)

  datatype Tally = Tally(players: seq<int>, food: seq<int>)

  datatype Meeting = Meeting(first: Object, second: Object)

  const INITIAL_FOOD_HP := 1

  const INITIAL_PLAYER_HP := 2

  function Spawn(players: nat, food: nat): (t: Tally)
    ensures |t.players| == players && |t.food| == food
    ensures forall i :: 0 <= i < players ==> t.players[i] == INITIAL_PLAYER_HP
    ensures forall j :: 0 <= j < food ==> t.food[j] == INITIAL_FOOD_HP
  {
    Tally(seq(players, i => INITIAL_PLAYER_HP), seq(food, j => INITIAL_FOOD_HP))
  }

  predicate Exists(t: Tally, o: Object) {
    match o
    case Food(j) => j < |t.food|
    case Player(i) => i < |t.players|
    case _ => true
  }

  predicate InWorld(t: Tally, ms: seq<Meeting>) {
    forall k :: 0 <= k < |ms| ==> Exists(t, ms[k].first) && Exists(t, ms[k].second)
  }

  /** Same objects, whatever their hit points. */
  predicate SameObjects(t: Tally, u: Tally) {
    |t.players| == |u.players| && |t.food| == |u.food|
  }

  // ---------- one contact ----------

  function MeetBoundaries(t: Tally, j: nat): Tally
    requires j < |t.food|
  {
    t.(food := t.food[j := 0])
  }

  function MeetFood(t: Tally, j: nat, i: nat): Tally
    requires j < |t.food| && i < |t.players|
  {
    if t.food[j] > 0 && t.players[i] > 0
    then Tally(t.players[i := t.players[i] + t.food[j]], t.food[j := 0])
    else t
  }

  function MeetPlayer(t: Tally, i: nat, k: nat): Tally
    requires i < |t.players| && k < |t.players|
  {
    var a, b := t.players[i], t.players[k];
    if a > 0 && b > 0 && a > b then t.(players := t.players[i := a + b][k := 0])
    else if a > 0 && b > 0 && b > a then t.(players := t.players[k := a + b][i := 0])
    else t
  }

  function Contact(t: Tally, m: Meeting): (u: Tally)
    requires Exists(t, m.first) && Exists(t, m.second)
    ensures SameObjects(t, u)
  {
    match (m.first, m.second)
    case (Boundaries, Food(j)) => MeetBoundaries(t, j)
    case (Food(j), Boundaries) => MeetBoundaries(t, j)
    case (Food(j), Player(i)) => MeetFood(t, j, i)
    case (Player(i), Food(j)) => MeetFood(t, j, i)
    case (Player(i), Player(k)) => MeetPlayer(t, i, k)
    case (_, _) => t
  }

  /** All contacts of a run, in order. */
  function Run(t: Tally, ms: seq<Meeting>): (u: Tally)
    requires InWorld(t, ms)
    ensures SameObjects(t, u)
  {
    if ms == [] then t else Contact(Run(t, ms[..|ms| - 1]), ms[|ms| - 1])
  }

  lemma {:induction false} RunConcat(t: Tally, ms: seq<Meeting>, ns: seq<Meeting>)
    requires InWorld(t, ms) && InWorld(t, ns)
    ensures InWorld(t, ms + ns) && Run(t, ms + ns) == Run(Run(t, ms), ns)
    decreases ns
  {
    if ns == [] {
      assert ms + ns == ms;
    } else {
      assert (ms + ns)[..|ms + ns| - 1] == ms + ns[..|ns| - 1];
      RunConcat(t, ms, ns[..|ns| - 1]);
    }
  }

  // ---------- who absorbed whom ----------

  /** `victim` lost its last hit point to `killer` (the boundaries absorb nothing). */
  datatype Death = Death(victim: Object, killer: Object)

  function Deaths(t: Tally, m: Meeting): (ds: seq<Death>)
    requires Exists(t, m.first) && Exists(t, m.second)
    ensures |ds| <= 1
  {
    match (m.first, m.second)
    case (Boundaries, Food(j)) => if t.food[j] > 0 then [Death(Food(j), Boundaries)] else []
    case (Food(j), Boundaries) => if t.food[j] > 0 then [Death(Food(j), Boundaries)] else []
    case (Food(j), Player(i)) => if t.food[j] > 0 && t.players[i] > 0 then [Death(Food(j), Player(i))] else []
    case (Player(i), Food(j)) => if t.food[j] > 0 && t.players[i] > 0 then [Death(Food(j), Player(i))] else []
    case (Player(i), Player(k)) =>
      var a, b := t.players[i], t.players[k];
      if a > 0 && b > 0 && a > b then [Death(Player(k), Player(i))]
      else if a > 0 && b > 0 && b > a then [Death(Player(i), Player(k))]
      else []
    case (_, _) => []
  }

  /** All deaths of a run, in order. */
  function DeathLog(t: Tally, ms: seq<Meeting>): seq<Death>
    requires InWorld(t, ms)
  {
    if ms == [] then []
    else DeathLog(t, ms[..|ms| - 1]) + Deaths(Run(t, ms[..|ms| - 1]), ms[|ms| - 1])
  }

  /** Where the hit points of `o` ended up: follow the victims to their killers through time. */
  function Holder(log: seq<Death>, o: Object): Object {
    if log == [] then o
    else Holder(log[1..], if log[0].victim == o then log[0].killer else o)
  }

  lemma {:induction false} HolderAppend(log: seq<Death>, d: Death, o: Object)
    ensures Holder(log + [d], o) == if Holder(log, o) == d.victim then d.killer else Holder(log, o)
    decreases log
  {
    if log == [] {
      assert log + [d] == [d];
      assert Holder([d][1..], o) == o;
    } else {
      assert (log + [d])[1..] == log[1..] + [d];
      HolderAppend(log[1..], d, if log[0].victim == o then log[0].killer else o);
    }
  }

  /** The hit points of an object; the boundaries hold what was lost to them. */
  function HpOf(t: Tally, o: Object): int
    requires Exists(t, o)
  {
    match o
    case Food(j) => t.food[j]
    case Player(i) => t.players[i]
    case _ => 0
  }

  /** The sum of `hp` over the indices whose holder is `x`. */
  function Held(hp: seq<int>, holders: seq<Object>, x: Object): int
    requires |hp| == |holders|
  {
    if hp == [] then 0 else (if holders[0] == x then hp[0] else 0) + Held(hp[1..], holders[1..], x)
  }

  function FoodHolders(log: seq<Death>, n: nat): seq<Object> {
    seq(n, j requires 0 <= j < n => Holder(log, Food(j)))
  }

  function PlayerHolders(log: seq<Death>, n: nat): seq<Object> {
    seq(n, i requires 0 <= i < n => Holder(log, Player(i)))
  }

  /** The initial hit points of everything that ended up, transitively, with `x`. */
  function Group(t: Tally, log: seq<Death>, x: Object): int {
    Held(t.players, PlayerHolders(log, |t.players|), x) + Held(t.food, FoodHolders(log, |t.food|), x)
  }

  /** Replacing holder `v` by `k` everywhere moves `v`'s share to `k`. */
  lemma {:induction false} HeldMoves(hp: seq<int>, before: seq<Object>, after: seq<Object>, v: Object, k: Object, x: Object)
    requires |hp| == |before| == |after| && v != k
    requires forall i :: 0 <= i < |hp| ==> after[i] == if before[i] == v then k else before[i]
    ensures Held(hp, after, x) ==
      if x == v then 0 else if x == k then Held(hp, before, k) + Held(hp, before, v) else Held(hp, before, x)
    decreases hp
  {
    if hp != [] {
      HeldMoves(hp[1..], before[1..], after[1..], v, k, x);
    }
  }

  lemma GroupMoves(t: Tally, log: seq<Death>, d: Death, x: Object)
    requires d.victim != d.killer
    ensures Group(t, log + [d], x) ==
            if x == d.victim then 0
            else if x == d.killer then Group(t, log, d.killer) + Group(t, log, d.victim)
            else Group(t, log, x)
  {
    var p, f := |t.players|, |t.food|;
    forall o: Object
      ensures Holder(log + [d], o) == if Holder(log, o) == d.victim then d.killer else Holder(log, o)
    {
      HolderAppend(log, d, o);
    }
    HeldMoves(t.players, PlayerHolders(log, p), PlayerHolders(log + [d], p), d.victim, d.killer, x);
    HeldMoves(t.food, FoodHolders(log, f), FoodHolders(log + [d], f), d.victim, d.killer, x);
  }

  lemma {:induction false} HeldByItself(hp: seq<int>, holders: seq<Object>, x: Object, i: nat)
    requires |hp| == |holders| && i < |hp|
    requires forall k :: 0 <= k < |hp| ==> (holders[k] == x <==> k == i)
    ensures Held(hp, holders, x) == hp[i]
    decreases hp
  {
    if i == 0 {
      HeldByNobody(hp[1..], holders[1..], x);
    } else {
      HeldByItself(hp[1..], holders[1..], x, i - 1);
    }
  }

  lemma {:induction false} HeldByNobody(hp: seq<int>, holders: seq<Object>, x: Object)
    requires |hp| == |holders| && x !in holders
    ensures Held(hp, holders, x) == 0
    decreases hp
  {
    if hp != [] {
      assert holders[0] in holders;
      HeldByNobody(hp[1..], holders[1..], x);
    }
  }

  lemma InitialGroups(t: Tally, x: Object)
    requires Exists(t, x)
    ensures Group(t, [], x) == HpOf(t, x)
  {
    var ps, fs := PlayerHolders([], |t.players|), FoodHolders([], |t.food|);
    match x
    case Player(i) =>
      HeldByItself(t.players, ps, x, i);
      HeldByNobody(t.food, fs, x);
    case Food(j) =>
      HeldByNobody(t.players, ps, x);
      HeldByItself(t.food, fs, x, j);
    case _ =>
      HeldByNobody(t.players, ps, x);
      HeldByNobody(t.food, fs, x);
  }

  predicate Healthy(t: Tally) {
    && (forall i :: 0 <= i < |t.players| ==> t.players[i] >= 0)
    && (forall j :: 0 <= j < |t.food| ==> t.food[j] >= 0)
  }

  predicate Mortal(t: Tally, o: Object) {
    (o.Food? || o.Player?) && Exists(t, o)
  }

  predicate Alive(t: Tally, o: Object) {
    Mortal(t, o) && HpOf(t, o) > 0
  }

  /**
   One contact changes hit points exactly when it logs a death. The death has a living
   victim and either the boundaries or a living player as killer, who has strictly more
   if the victim is a player; the victim's points move to the killer and nothing else moves.
   */
  lemma ContactMoves(t: Tally, m: Meeting)
    requires Exists(t, m.first) && Exists(t, m.second) && Healthy(t)
    ensures Healthy(Contact(t, m))
    ensures Contact(t, m) != t <==> Deaths(t, m) != []
    ensures Deaths(t, m) != [] ==>
              var d := Deaths(t, m)[0];
              && Alive(t, d.victim) && d.victim != d.killer
              && (d.killer == Boundaries || (d.killer.Player? && Alive(t, d.killer)))
              && (d.killer == Boundaries ==> d.victim.Food?)
              && (d.victim.Player? ==> HpOf(t, d.killer) > HpOf(t, d.victim))
              && forall o | Mortal(t, o) ::
                   HpOf(Contact(t, m), o) ==
                   if o == d.victim then 0 else if o == d.killer then HpOf(t, o) + HpOf(t, d.victim) else HpOf(t, o)
  {
    var u := Contact(t, m);
    if Deaths(t, m) != [] {
      var d := Deaths(t, m)[0];
      assert HpOf(u, d.victim) != HpOf(t, d.victim);
    } else {
      match (m.first, m.second)
      case (Boundaries, Food(j)) => assert u.food == t.food;
      case (Food(j), Boundaries) => assert u.food == t.food;
      case _ =>
    }
  }

  // ---------- the absorption partition ----------

  /** Everything the partition theorem says about a run from `t` that logged `log` and ended in `u`. */
  ghost predicate Partitioned(t: Tally, log: seq<Death>, u: Tally) {
    && SameObjects(t, u) && Healthy(u)
    && (forall o | Mortal(t, o) :: HpOf(u, o) == Group(t, log, o))
    && (forall o | Mortal(t, o) :: Alive(u, o) <==> Holder(log, o) == o)
    && (forall o | Mortal(t, o) :: Holder(log, o) == Boundaries || Alive(u, Holder(log, o)))
    && (forall o | Mortal(t, o) :: Holder(log, o).Food? ==> Holder(log, o) == o)
  }

  /** The effect of one logged death on a single object. */
  lemma PartitionStepAt(t: Tally, log: seq<Death>, u: Tally, d: Death, v: Tally, o: Object)
    requires Partitioned(t, log, u) && SameObjects(u, v) && Mortal(t, o)
    requires Alive(u, d.victim) && d.victim != d.killer
    requires d.killer == Boundaries || (d.killer.Player? && Alive(u, d.killer))
    requires forall x | Mortal(u, x) :: HpOf(v, x) ==
               if x == d.victim then 0 else if x == d.killer then HpOf(u, x) + HpOf(u, d.victim) else HpOf(u, x)
    ensures HpOf(v, o) == Group(t, log + [d], o)
    ensures Alive(v, o) <==> Holder(log + [d], o) == o
    ensures Holder(log + [d], o) == Boundaries || Alive(v, Holder(log + [d], o))
    ensures Holder(log + [d], o).Food? ==> Holder(log + [d], o) == o
  {
    GroupMoves(t, log, d, o);
    HolderAppend(log, d, o);
    assert Mortal(t, d.victim);
    var h := Holder(log, o);
    if h != Boundaries {
      assert Alive(u, h) && Mortal(t, h);
    }
    if o == d.killer {
      assert HpOf(u, d.victim) > 0;
    }
  }

  lemma PartitionStep(t: Tally, log: seq<Death>, u: Tally, m: Meeting)
    requires Partitioned(t, log, u) && Exists(u, m.first) && Exists(u, m.second)
    ensures Partitioned(t, log + Deaths(u, m), Contact(u, m))
  {
    ContactMoves(u, m);
    if Deaths(u, m) == [] {
      assert log + Deaths(u, m) == log;
    } else {
      var d, v := Deaths(u, m)[0], Contact(u, m);
      assert Deaths(u, m) == [d];
      forall o | Mortal(t, o)
        ensures HpOf(v, o) == Group(t, log + [d], o)
        ensures Alive(v, o) <==> Holder(log + [d], o) == o
        ensures Holder(log + [d], o) == Boundaries || Alive(v, Holder(log + [d], o))
        ensures Holder(log + [d], o).Food? ==> Holder(log + [d], o) == o
      {
        PartitionStepAt(t, log, u, d, v, o);
      }
    }
  }

  lemma {:induction false} PartitionAlongRun(t: Tally, ms: seq<Meeting>)
    requires InWorld(t, ms) && Partitioned(t, [], t)
    ensures Partitioned(t, DeathLog(t, ms), Run(t, ms))
    decreases ms
  {
    if ms != [] {
      PartitionAlongRun(t, ms[..|ms| - 1]);
      PartitionStep(t, DeathLog(t, ms[..|ms| - 1]), Run(t, ms[..|ms| - 1]), ms[|ms| - 1]);
    }
  }

  /**
   After any sequence of contacts every object belongs to exactly one group, that of its
   holder: a living player, an uneaten food (alone in its group) or the boundaries. Each
   object has exactly the initial hit points of its group, and is alive exactly when it
   holds itself.
   */
  lemma AbsorptionPartition(players: nat, food: nat, ms: seq<Meeting>)
    requires InWorld(Spawn(players, food), ms)
    ensures var t := Spawn(players, food); Partitioned(t, DeathLog(t, ms), Run(t, ms))
  {
    var t := Spawn(players, food);
    forall o | Mortal(t, o) ensures HpOf(t, o) == Group(t, [], o) {
      InitialGroups(t, o);
    }
    PartitionAlongRun(t, ms);
  }

  // ---------- conservation, range, survival ----------

  function Sum(s: seq<int>): int {
    if s == [] then 0 else s[0] + Sum(s[1..])
  }

  function Living(s: seq<int>): (n: nat)
    ensures n <= |s|
  {
    if s == [] then 0 else (if s[0] > 0 then 1 else 0) + Living(s[1..])
  }

  function Lost(log: seq<Death>): nat {
    if log == [] then 0 else Lost(log[..|log| - 1]) + if log[|log| - 1].killer == Boundaries then 1 else 0
  }

  lemma {:induction false} UpdateOne(s: seq<int>, i: nat, v: int)
    requires i < |s|
    ensures Sum(s[i := v]) == Sum(s) - s[i] + v
    ensures Living(s[i := v]) == Living(s) - (if s[i] > 0 then 1 else 0) + (if v > 0 then 1 else 0)
    decreases s
  {
    if i == 0 {
      assert s[i := v][1..] == s[1..];
    } else {
      assert s[i := v][1..] == s[1..][i - 1 := v];
      UpdateOne(s[1..], i - 1, v);
    }
  }

  lemma {:induction false} EqualElements(s: seq<int>, v: int)
    requires v > 0 && forall i :: 0 <= i < |s| ==> s[i] == v
    ensures Sum(s) == v * |s| && Living(s) == |s|
    decreases s
  {
    if s != [] {
      EqualElements(s[1..], v);
    }
  }

  lemma {:induction false} NonNegativeSum(s: seq<int>, i: nat)
    requires i < |s| && forall k :: 0 <= k < |s| ==> s[k] >= 0
    ensures 0 <= s[i] <= Sum(s)
    decreases s
  {
    if i == 0 {
      SumIsNonNegative(s[1..]);
    } else {
      NonNegativeSum(s[1..], i - 1);
    }
  }

  lemma {:induction false} SumIsNonNegative(s: seq<int>)
    requires forall k :: 0 <= k < |s| ==> s[k] >= 0
    ensures Sum(s) >= 0
    decreases s
  {
    if s != [] {
      SumIsNonNegative(s[1..]);
    }
  }

  lemma {:induction false} SomeLiving(s: seq<int>, i: nat)
    requires i < |s| && s[i] > 0
    ensures Living(s) >= 1
    decreases s
  {
    if i > 0 {
      SomeLiving(s[1..], i - 1);
    }
  }

  function Total(t: Tally): int {
    Sum(t.players) + Sum(t.food)
  }

  function LivingObjects(t: Tally): nat {
    Living(t.players) + Living(t.food)
  }

  predicate FoodIsOneOrNone(t: Tally) {
    forall j :: 0 <= j < |t.food| ==> 0 <= t.food[j] <= INITIAL_FOOD_HP
  }

  predicate SomePlayerLives(t: Tally) {
    exists i :: 0 <= i < |t.players| && t.players[i] > 0
  }

  lemma ContactBalance(t: Tally, m: Meeting)
    requires Exists(t, m.first) && Exists(t, m.second) && Healthy(t) && FoodIsOneOrNone(t)
    ensures var u, ds := Contact(t, m), Deaths(t, m);
      && FoodIsOneOrNone(u)
      && Total(u) + Lost(ds) == Total(t)
      && LivingObjects(u) + |ds| == LivingObjects(t)
      && (SomePlayerLives(t) ==> SomePlayerLives(u))
  {
    match (m.first, m.second)
    case (Boundaries, Food(j)) => BoundaryBalance(t, m, j);
    case (Food(j), Boundaries) => BoundaryBalance(t, m, j);
    case (Food(j), Player(i)) => FoodBalance(t, j, i);
    case (Player(i), Food(j)) => FoodBalance(t, j, i);
    case (Player(i), Player(k)) => PlayerBalance(t, i, k);
    case (_, _) =>
  }

  lemma BoundaryBalance(t: Tally, m: Meeting, j: nat)
    requires Exists(t, m.first) && Exists(t, m.second) && Healthy(t) && FoodIsOneOrNone(t)
    requires (m.first == Boundaries && m.second == Food(j)) || (m.first == Food(j) && m.second == Boundaries)
    ensures var u, ds := Contact(t, m), Deaths(t, m);
      && FoodIsOneOrNone(u)
      && Total(u) + Lost(ds) == Total(t)
      && LivingObjects(u) + |ds| == LivingObjects(t)
      && (SomePlayerLives(t) ==> SomePlayerLives(u))
  {
    UpdateOne(t.food, j, 0);
  }

  lemma FoodBalance(t: Tally, j: nat, i: nat)
    requires j < |t.food| && i < |t.players| && FoodIsOneOrNone(t)
    ensures var u := MeetFood(t, j, i);
      && Total(u) == Total(t)
      && LivingObjects(u) == LivingObjects(t) - (if t.food[j] > 0 && t.players[i] > 0 then 1 else 0)
      && (SomePlayerLives(t) ==> SomePlayerLives(u))
  {
    if t.food[j] > 0 && t.players[i] > 0 {
      UpdateOne(t.players, i, t.players[i] + t.food[j]);
      UpdateOne(t.food, j, 0);
      assert MeetFood(t, j, i).players[i] > 0;
    }
  }

  lemma PlayerBalance(t: Tally, i: nat, k: nat)
    requires i < |t.players| && k < |t.players|
    ensures var u, a, b := MeetPlayer(t, i, k), t.players[i], t.players[k];
      && Total(u) == Total(t)
      && u.food == t.food
      && Living(u.players) == Living(t.players) - (if a > 0 && b > 0 && a != b then 1 else 0)
      && (SomePlayerLives(t) ==> SomePlayerLives(u))
  {
    var a, b := t.players[i], t.players[k];
    var u := MeetPlayer(t, i, k);
    if a > 0 && b > 0 && a > b {
      UpdateOne(t.players, i, a + b);
      UpdateOne(t.players[i := a + b], k, 0);
      assert u.players[i] > 0;
    } else if a > 0 && b > 0 && b > a {
      UpdateOne(t.players, k, a + b);
      UpdateOne(t.players[k := a + b], i, 0);
      assert u.players[k] > 0;
    }
  }

  lemma {:induction false} LostConcat(log: seq<Death>, ds: seq<Death>)
    requires |ds| <= 1
    ensures Lost(log + ds) == Lost(log) + Lost(ds)
  {
    if ds == [] {
      assert log + ds == log;
    } else {
      assert (log + ds)[..|log + ds| - 1] == log;
    }
  }

  /** The balance of a run from any tally: no point appears, and each death costs one living object. */
  lemma {:induction false} RunBalance(t: Tally, ms: seq<Meeting>)
    requires InWorld(t, ms) && Healthy(t) && FoodIsOneOrNone(t)
    ensures var u, log := Run(t, ms), DeathLog(t, ms);
      && Healthy(u) && FoodIsOneOrNone(u)
      && Total(u) + Lost(log) == Total(t)
      && LivingObjects(u) + |log| == LivingObjects(t)
      && (SomePlayerLives(t) ==> SomePlayerLives(u))
    decreases ms
  {
    if ms != [] {
      var before, m := ms[..|ms| - 1], ms[|ms| - 1];
      RunBalance(t, before);
      ContactMoves(Run(t, before), m);
      ContactBalance(Run(t, before), m);
      LostConcat(DeathLog(t, before), Deaths(Run(t, before), m));
    }
  }

  /** The group of the boundaries is exactly the food counted as lost. */
  lemma {:induction false} BoundaryGroup(players: nat, food: nat, ms: seq<Meeting>)
    requires InWorld(Spawn(players, food), ms)
    ensures var t := Spawn(players, food); Group(t, DeathLog(t, ms), Boundaries) == Lost(DeathLog(t, ms))
    decreases ms
  {
    var t := Spawn(players, food);
    if ms == [] {
      InitialGroups(t, Boundaries);
    } else {
      var before, m := ms[..|ms| - 1], ms[|ms| - 1];
      var u, log := Run(t, before), DeathLog(t, before);
      BoundaryGroup(players, food, before);
      AbsorptionPartition(players, food, before);
      RunBalance(t, before);
      ContactMoves(u, m);
      LostConcat(log, Deaths(u, m));
      if Deaths(u, m) == [] {
        assert log + Deaths(u, m) == log;
      } else {
        var d := Deaths(u, m)[0];
        assert Deaths(u, m) == [d] && Mortal(t, d.victim);
        GroupMoves(t, log, d, Boundaries);
      }
    }
  }

  /**
   Conservation and range: hit points of players and food sum to `2P + F` less the food
   killed at the boundaries; every value lies in `0..2P + F` and food never exceeds one.
   */
  lemma Conservation(players: nat, food: nat, ms: seq<Meeting>)
    requires InWorld(Spawn(players, food), ms)
    ensures var t := Spawn(players, food); var u := Run(t, ms);
      && Total(u) == 2 * players + food - Lost(DeathLog(t, ms))
      && (forall i :: 0 <= i < players ==> 0 <= u.players[i] <= 2 * players + food)
      && (forall j :: 0 <= j < food ==> 0 <= u.food[j] <= 1)
  {
    var t := Spawn(players, food);
    var u := Run(t, ms);
    EqualElements(t.players, INITIAL_PLAYER_HP);
    EqualElements(t.food, INITIAL_FOOD_HP);
    RunBalance(t, ms);
    SumIsNonNegative(u.food);
    forall i | 0 <= i < players ensures 0 <= u.players[i] <= 2 * players + food {
      NonNegativeSum(u.players, i);
    }
  }

  /** With six food per player and at most eight players every value fits its packet field. */
  lemma FitsPackets(players: nat, ms: seq<Meeting>)
    requires players <= 8 && InWorld(Spawn(players, 6 * players), ms)
    ensures var u := Run(Spawn(players, 6 * players), ms);
      && (forall i :: 0 <= i < players ==> 0 <= u.players[i] <= 64)
      && (forall j :: 0 <= j < 6 * players ==> 0 <= u.food[j] <= 1)
  {
    Conservation(players, 6 * players, ms);
  }

  /** The dead stay dead, whatever happens next. */
  lemma {:induction false} NoRevival(t: Tally, ms: seq<Meeting>, o: Object)
    requires InWorld(t, ms) && Healthy(t) && Mortal(t, o) && !Alive(t, o)
    ensures !Alive(Run(t, ms), o) && HpOf(Run(t, ms), o) == 0 && Healthy(Run(t, ms))
    decreases ms
  {
    if ms != [] {
      NoRevival(t, ms[..|ms| - 1], o);
      ContactMoves(Run(t, ms[..|ms| - 1]), ms[|ms| - 1]);
    }
  }

  /** The contacts of a run that change anything. */
  function Effective(t: Tally, ms: seq<Meeting>): nat
    requires InWorld(t, ms)
  {
    if ms == [] then 0
    else
      var u := Run(t, ms[..|ms| - 1]);
      Effective(t, ms[..|ms| - 1]) + if Contact(u, ms[|ms| - 1]) != u then 1 else 0
  }

  lemma {:induction false} EffectiveIsDeaths(t: Tally, ms: seq<Meeting>)
    requires InWorld(t, ms) && Healthy(t)
    ensures Effective(t, ms) == |DeathLog(t, ms)| && Healthy(Run(t, ms))
    decreases ms
  {
    if ms != [] {
      EffectiveIsDeaths(t, ms[..|ms| - 1]);
      ContactMoves(Run(t, ms[..|ms| - 1]), ms[|ms| - 1]);
    }
  }

  /**
   Survival and termination: with at least one player some player always lives, and a run
   of any length has at most `F + P - 1` contacts that change anything, each of which
   kills exactly one object.
   */
  lemma Survival(players: nat, food: nat, ms: seq<Meeting>)
    requires players >= 1 && InWorld(Spawn(players, food), ms)
    ensures var t := Spawn(players, food); var u := Run(t, ms);
      && SomePlayerLives(u)
      && Effective(t, ms) == players + food - LivingObjects(u)
      && Effective(t, ms) <= food + players - 1
  {
    var t := Spawn(players, food);
    EqualElements(t.players, INITIAL_PLAYER_HP);
    EqualElements(t.food, INITIAL_FOOD_HP);
    assert t.players[0] > 0;
    RunBalance(t, ms);
    EffectiveIsDeaths(t, ms);
    var u := Run(t, ms);
    var i :| 0 <= i < |u.players| && u.players[i] > 0;
    SomeLiving(u.players, i);
  }

  // ---------- the sweep over ongoing contacts ----------

  datatype Ongoing = Ongoing(touching: bool, first: Object, second: Object)

  predicate Handled(c: Ongoing) {
    c.touching && c.first.Player? && c.second.Player?
  }

  predicate OngoingInWorld(t: Tally, cs: seq<Ongoing>) {
    forall k :: 0 <= k < |cs| ==> Exists(t, cs[k].first) && Exists(t, cs[k].second)
  }

  /** The contacts the sweep handles: touching pairs of players, in list order. */
  function Swept(cs: seq<Ongoing>): (ms: seq<Meeting>)
    ensures forall k :: 0 <= k < |ms| ==> ms[k].first.Player? && ms[k].second.Player?
    ensures forall k :: 0 <= k < |ms| ==> Ongoing(true, ms[k].first, ms[k].second) in cs
    ensures forall c :: c in cs && Handled(c) ==> Meeting(c.first, c.second) in ms
  {
    if cs == [] then []
    else
      var c := cs[|cs| - 1];
      Swept(cs[..|cs| - 1]) + if Handled(c) then [Meeting(c.first, c.second)] else []
  }

  lemma SweptInWorld(t: Tally, cs: seq<Ongoing>)
    requires OngoingInWorld(t, cs)
    ensures InWorld(t, Swept(cs))
  {
  }

  function Sweep(t: Tally, cs: seq<Ongoing>): (u: Tally)
    requires OngoingInWorld(t, cs)
    ensures SameObjects(t, u)
  {
    SweptInWorld(t, cs);
    Run(t, Swept(cs))
  }

  /** Every touching pair of living players has equal hit points. */
  predicate Settled(t: Tally, cs: seq<Ongoing>)
    requires OngoingInWorld(t, cs)
  {
    forall k :: 0 <= k < |cs| && Handled(cs[k]) && Alive(t, cs[k].first) && Alive(t, cs[k].second)
            ==> HpOf(t, cs[k].first) == HpOf(t, cs[k].second)
  }

  predicate Quiet(t: Tally, m: Meeting)
    requires Exists(t, m.first) && Exists(t, m.second)
  {
    Alive(t, m.first) && Alive(t, m.second) ==> HpOf(t, m.first) == HpOf(t, m.second)
  }

  lemma {:induction false} QuietRun(t: Tally, ms: seq<Meeting>)
    requires InWorld(t, ms)
    requires forall k :: 0 <= k < |ms| ==> ms[k].first.Player? && ms[k].second.Player? && Quiet(t, ms[k])
    ensures Run(t, ms) == t
    decreases ms
  {
    if ms != [] {
      var before, m := ms[..|ms| - 1], ms[|ms| - 1];
      QuietRun(t, before);
      assert Quiet(t, m);
      PlayerBalance(t, m.first.index, m.second.index);
    }
  }

  /** A run of player contacts loses living players unless every contact in it was quiet from the start. */
  lemma {:induction false} PlayerRun(t: Tally, ms: seq<Meeting>)
    requires InWorld(t, ms)
    requires forall k :: 0 <= k < |ms| ==> ms[k].first.Player? && ms[k].second.Player?
    ensures var u := Run(t, ms);
      && Living(u.players) <= Living(t.players)
      && (Living(u.players) == Living(t.players) ==> u == t && forall k :: 0 <= k < |ms| ==> Quiet(t, ms[k]))
      && (SomePlayerLives(t) ==> SomePlayerLives(u))
    decreases ms
  {
    if ms != [] {
      var before, m := ms[..|ms| - 1], ms[|ms| - 1];
      PlayerRun(t, before);
      PlayerBalance(Run(t, before), m.first.index, m.second.index);
      if Living(Run(t, ms).players) == Living(t.players) {
        assert Quiet(t, m);
        forall k | 0 <= k < |ms| ensures Quiet(t, ms[k]) {
          if k < |before| {
            assert before[k] == ms[k];
          }
        }
      }
    }
  }

  /**
   A sweep leaves all hit points unchanged exactly when every touching living pair already
   has equal hit points; otherwise it strictly reduces the number of living players.
   */
  lemma SweepFixedPoint(t: Tally, cs: seq<Ongoing>)
    requires OngoingInWorld(t, cs)
    ensures Sweep(t, cs) == t <==> Settled(t, cs)
    ensures Sweep(t, cs) != t <==> Living(Sweep(t, cs).players) < Living(t.players)
    ensures SomePlayerLives(t) ==> SomePlayerLives(Sweep(t, cs))
  {
    var ms := Swept(cs);
    SweptInWorld(t, cs);
    PlayerRun(t, ms);
    if Settled(t, cs) {
      forall k | 0 <= k < |ms| ensures Quiet(t, ms[k]) {
        var i :| 0 <= i < |cs| && cs[i] == Ongoing(true, ms[k].first, ms[k].second);
        assert Handled(cs[i]);
      }
      QuietRun(t, ms);
    }
    if Sweep(t, cs) == t {
      forall k | 0 <= k < |cs| && Handled(cs[k])
        ensures Quiet(t, Meeting(cs[k].first, cs[k].second))
      {
        assert cs[k] in cs;
        var i :| 0 <= i < |ms| && ms[i] == Meeting(cs[k].first, cs[k].second);
      }
      assert Settled(t, cs);
    }
  }

  function Sweeps(t: Tally, cs: seq<Ongoing>, n: nat): (u: Tally)
    requires OngoingInWorld(t, cs)
    ensures SameObjects(t, u)
  {
    if n == 0 then t else Sweep(Sweeps(t, cs, n - 1), cs)
  }

  /** A settled list stays settled; any other costs a living player. */
  lemma SweepShrinks(t: Tally, cs: seq<Ongoing>)
    requires OngoingInWorld(t, cs)
    ensures Settled(t, cs) ==> Settled(Sweep(t, cs), cs)
    ensures !Settled(t, cs) ==> Living(Sweep(t, cs).players) < Living(t.players)
    ensures SomePlayerLives(t) ==> SomePlayerLives(Sweep(t, cs))
  {
    SweepFixedPoint(t, cs);
  }

  /** `n` passes have settled the list, or cost `n` living players out of `living`. */
  predicate Shrunk(u: Tally, cs: seq<Ongoing>, n: nat, living: nat)
    requires OngoingInWorld(u, cs)
  {
    Settled(u, cs) || Living(u.players) + n <= living
  }

  lemma OneMoreSweep(u: Tally, cs: seq<Ongoing>, n: nat, living: nat)
    requires OngoingInWorld(u, cs) && Shrunk(u, cs, n, living)
    ensures Shrunk(Sweep(u, cs), cs, n + 1, living)
  {
    SweepShrinks(u, cs);
  }

  lemma {:induction false} SweepsShrink(t: Tally, cs: seq<Ongoing>, n: nat)
    requires OngoingInWorld(t, cs) && SomePlayerLives(t)
    ensures SomePlayerLives(Sweeps(t, cs, n))
    ensures Shrunk(Sweeps(t, cs, n), cs, n, Living(t.players))
    decreases n
  {
    if n > 0 {
      var u := Sweeps(t, cs, n - 1);
      SweepsShrink(t, cs, n - 1);
      SweepShrinks(u, cs);
      OneMoreSweep(u, cs, n - 1, Living(t.players));
      assert Sweeps(t, cs, n) == Sweep(u, cs);
    }
  }

  lemma {:induction false} OnlyOneLiving(s: seq<int>, i: nat, k: nat)
    requires i < k < |s| && s[i] > 0 && s[k] > 0
    ensures Living(s) >= 2
    decreases s
  {
    if i > 0 {
      OnlyOneLiving(s[1..], i - 1, k - 1);
    } else {
      SomeLiving(s[1..], k - 1);
    }
  }

  predicate AllTouch(t: Tally, cs: seq<Ongoing>) {
    forall i, k :: 0 <= i < k < |t.players| ==>
                     Ongoing(true, Player(i), Player(k)) in cs || Ongoing(true, Player(k), Player(i)) in cs
  }

  /** An unsettled list has two living players. */
  lemma UnsettledLiving(u: Tally, cs: seq<Ongoing>)
    requires OngoingInWorld(u, cs) && !Settled(u, cs)
    ensures Living(u.players) >= 2
  {
    var k :| 0 <= k < |cs| && Handled(cs[k]) && Alive(u, cs[k].first) && Alive(u, cs[k].second)
             && HpOf(u, cs[k].first) != HpOf(u, cs[k].second);
    var a, b := cs[k].first.index, cs[k].second.index;
    OnlyOneLiving(u.players, if a < b then a else b, if a < b then b else a);
  }

  /** In a settled list, living players that touch are equal. */
  lemma SettledPair(u: Tally, cs: seq<Ongoing>, i: nat, k: nat)
    requires OngoingInWorld(u, cs) && Settled(u, cs) && AllTouch(u, cs)
    requires i < k < |u.players| && u.players[i] > 0 && u.players[k] > 0
    ensures u.players[i] == u.players[k]
  {
    var c :| c in [Ongoing(true, Player(i), Player(k)), Ongoing(true, Player(k), Player(i))] && c in cs;
    var x :| 0 <= x < |cs| && cs[x] == c;
    assert Handled(cs[x]) && Alive(u, cs[x].first) && Alive(u, cs[x].second);
  }

  lemma SettledAfter(t: Tally, cs: seq<Ongoing>, n: nat)
    requires OngoingInWorld(t, cs) && SomePlayerLives(t) && n >= |t.players| - 1
    ensures Settled(Sweeps(t, cs, n), cs)
  {
    SweepsShrink(t, cs, n);
    if !Settled(Sweeps(t, cs, n), cs) {
      UnsettledLiving(Sweeps(t, cs, n), cs);
    }
  }

  /**
   Repeating one contact list stabilises after at most `P - 1` passes; if all players
   touch, the survivors then have equal hit points.
   */
  lemma SweepsStabilise(t: Tally, cs: seq<Ongoing>, n: nat)
    requires OngoingInWorld(t, cs) && SomePlayerLives(t)
    requires n >= |t.players| - 1
    ensures Settled(Sweeps(t, cs, n), cs)
    ensures Sweep(Sweeps(t, cs, n), cs) == Sweeps(t, cs, n)
    ensures AllTouch(t, cs) ==>
              forall i, k :: 0 <= i < |t.players| && 0 <= k < |t.players| ==>
                Sweeps(t, cs, n).players[i] > 0 && Sweeps(t, cs, n).players[k] > 0 ==>
                  Sweeps(t, cs, n).players[i] == Sweeps(t, cs, n).players[k]
  {
    var u := Sweeps(t, cs, n);
    SettledAfter(t, cs, n);
    SweepFixedPoint(u, cs);
    if AllTouch(t, cs) {
      forall i, k | 0 <= i < k < |t.players| && u.players[i] > 0 && u.players[k] > 0
        ensures u.players[i] == u.players[k]
      {
        SettledPair(u, cs, i, k);
      }
    }
  }
}
