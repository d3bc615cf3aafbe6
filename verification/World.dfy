/**
 The physics world and its contact listener (src/engine), as objects updated in place.

 Box2D is replaced by its observable effect: the contacts that begin during a step, the
 list of ongoing contacts after it, and the positions bodies end up at.
 */
module World {
  import opened HitPoints

  const MIN_RADIUS := 25.0

  datatype Position = Position(x: real, y: real)

  /** What one call of `b2World::Step` reports. */
  datatype Physics = Physics(begins: seq<Meeting>, ongoing: seq<Ongoing>, playersAt: seq<Position>, foodAt: seq<Position>)

  /** World object that has hit points. */
  class Mortal {
    var hitpoints: int
    var radius: real
    var enabled: bool
    var position: Position

    constructor (initialHP: int, p: Position)
      ensures hitpoints == initialHP && position == p && enabled
    {
      hitpoints := initialHP;
      radius := initialHP as real;
      enabled := true;
      position := p;
    }

    predicate Alive()
      reads this`hitpoints
    {
      hitpoints > 0
    }

    method Harm(damage: int)
      modifies this`hitpoints
      ensures hitpoints == old(hitpoints) - damage
    {
      hitpoints := hitpoints - damage;
    }

    method Kill()
      modifies this`hitpoints
      ensures hitpoints == 0
    {
      Harm(hitpoints);
    }

    method Heal(healPower: int)
      modifies this`hitpoints
      ensures hitpoints == old(hitpoints) + healPower
    {
      hitpoints := hitpoints + healPower;
    }

    /** The body shows its hit points, and takes part in the physics only while alive. */
    predicate Shown()
      reads this
    {
      radius == MIN_RADIUS + hitpoints as real && enabled == Alive()
    }

    method Update()
      modifies this`radius, this`enabled
      ensures Shown()
    {
      radius := MIN_RADIUS + hitpoints as real;
      enabled := Alive();
    }
  }

  // ---------- the contact listener ----------

  method HandleBoundariesFood(o2: Mortal)
    modifies o2`hitpoints
    ensures o2.hitpoints == 0
  {
    o2.Kill();
  }

  method HandleFoodPlayer(o1: Mortal, o2: Mortal)
    requires o1 != o2
    modifies o1`hitpoints, o2`hitpoints
    ensures old(o1.Alive() && o2.Alive()) ==> o1.hitpoints == 0 && o2.hitpoints == old(o2.hitpoints + o1.hitpoints)
    ensures !old(o1.Alive() && o2.Alive()) ==> o1.hitpoints == old(o1.hitpoints) && o2.hitpoints == old(o2.hitpoints)
  {
    if o1.Alive() && o2.Alive() {
      o2.Heal(o1.hitpoints);
      o1.Kill();
    }
  }

  /** The one with strictly more takes everything; equals, or anything with a dead body, leave each other alone. */
  method HandlePlayers(o1: Mortal, o2: Mortal)
    modifies o1`hitpoints, o2`hitpoints
    ensures old(o1.Alive() && o2.Alive() && o1.hitpoints > o2.hitpoints) ==>
              o1.hitpoints == old(o1.hitpoints + o2.hitpoints) && o2.hitpoints == 0
    ensures old(o1.Alive() && o2.Alive() && o2.hitpoints > o1.hitpoints) ==>
              o2.hitpoints == old(o2.hitpoints + o1.hitpoints) && o1.hitpoints == 0
    ensures old(!o1.Alive() || !o2.Alive() || o1.hitpoints == o2.hitpoints) ==>
              o1.hitpoints == old(o1.hitpoints) && o2.hitpoints == old(o2.hitpoints)
  {
    if o1.Alive() && o2.Alive() {
      if o1.hitpoints > o2.hitpoints {
        o1.Heal(o2.hitpoints);
        o2.Kill();
      } else if o2.hitpoints > o1.hitpoints {
        o2.Heal(o1.hitpoints);
        o1.Kill();
      }
    }
  }

  // ---------- the world ----------

  function HitPointsOf(bodies: seq<Mortal>): (hp: seq<int>)
    reads bodies`hitpoints
    ensures |hp| == |bodies| && forall i :: 0 <= i < |hp| ==> hp[i] == bodies[i].hitpoints
  {
    if bodies == [] then [] else HitPointsOf(bodies[..|bodies| - 1]) + [bodies[|bodies| - 1].hitpoints]
  }

  function PositionsOf(bodies: seq<Mortal>): (ps: seq<Position>)
    reads bodies`position
    ensures |ps| == |bodies| && forall i :: 0 <= i < |ps| ==> ps[i] == bodies[i].position
  {
    if bodies == [] then [] else PositionsOf(bodies[..|bodies| - 1]) + [bodies[|bodies| - 1].position]
  }

  class World {
    var food: seq<Mortal>
    var players: seq<Mortal>

    ghost predicate Valid()
      reads this
    {
      && (forall i, j :: 0 <= i < j < |players| ==> players[i] != players[j])
      && (forall i, j :: 0 <= i < j < |food| ==> food[i] != food[j])
      && (forall i, j :: 0 <= i < |players| && 0 <= j < |food| ==> players[i] != food[j])
    }

    function Tally(): (t: Tally)
      reads this, players`hitpoints, food`hitpoints
      ensures |t.players| == |players| && |t.food| == |food|
    {
      HitPoints.Tally(HitPointsOf(players), HitPointsOf(food))
    }

    constructor ()
      ensures Valid() && food == [] && players == []
    {
      food, players := [], [];
    }

    method AddFood(p: Position) returns (f: Mortal)
      requires Valid()
      modifies this`food
      ensures Valid() && fresh(f) && food == old(food) + [f]
      ensures f.hitpoints == INITIAL_FOOD_HP && f.position == p
    {
      f := new Mortal(INITIAL_FOOD_HP, p);
      food := food + [f];
    }

    method AddPlayer(p: Position) returns (m: Mortal)
      requires Valid()
      modifies this`players
      ensures Valid() && fresh(m) && players == old(players) + [m]
      ensures m.hitpoints == INITIAL_PLAYER_HP && m.position == p
    {
      m := new Mortal(INITIAL_PLAYER_HP, p);
      players := players + [m];
    }

    // The typed handlers, seen from the world: which two bodies of the lists they touch.

    method FoodHitsBoundaries(j: nat)
      requires Valid() && j < |food|
      modifies food`hitpoints
      ensures Tally() == MeetBoundaries(old(Tally()), j)
    {
      HandleBoundariesFood(food[j]);
      assert Tally().food == old(Tally().food)[j := 0];
      assert Tally().players == old(Tally().players);
    }

    method FoodHitsPlayer(j: nat, i: nat)
      requires Valid() && j < |food| && i < |players|
      modifies players`hitpoints, food`hitpoints
      ensures Tally() == MeetFood(old(Tally()), j, i)
    {
      ghost var t := Tally();
      HandleFoodPlayer(food[j], players[i]);
      if t.food[j] > 0 && t.players[i] > 0 {
        assert Tally().food == t.food[j := 0];
        assert Tally().players == t.players[i := t.players[i] + t.food[j]];
      } else {
        assert Tally().food == t.food && Tally().players == t.players;
      }
    }

    method PlayerHitsPlayer(i: nat, k: nat)
      requires Valid() && i < |players| && k < |players|
      modifies players`hitpoints
      ensures Tally() == MeetPlayer(old(Tally()), i, k)
    {
      ghost var t := Tally();
      HandlePlayers(players[i], players[k]);
      ghost var u := MeetPlayer(t, i, k);
      forall x | 0 <= x < |players| ensures players[x].hitpoints == u.players[x] {
        if x != i && x != k {
          assert players[x] != players[i] && players[x] != players[k];
        }
      }
      assert Tally().players == u.players;
      forall j | 0 <= j < |food| ensures food[j].hitpoints == t.food[j] {
        assert food[j] !in players;
      }
      assert Tally().food == u.food;
    }

    /** Double dispatch on the two types; the mirrored cases call the same handler with arguments swapped. */
    method BeginContact(m: Meeting)
      requires Valid() && Exists(Tally(), m.first) && Exists(Tally(), m.second)
      modifies players`hitpoints, food`hitpoints
      ensures Tally() == Contact(old(Tally()), m)
    {
      match (m.first, m.second)
      case (Boundaries, Food(j)) => FoodHitsBoundaries(j);
      case (Food(j), Boundaries) => FoodHitsBoundaries(j);
      case (Food(j), Player(i)) => FoodHitsPlayer(j, i);
      case (Player(i), Food(j)) => FoodHitsPlayer(j, i);
      case (Player(i), Player(k)) => PlayerHitsPlayer(i, k);
      case (_, _) =>
    }

    method BeginContacts(ms: seq<Meeting>)
      requires Valid() && InWorld(Tally(), ms)
      modifies players`hitpoints, food`hitpoints
      ensures Tally() == Run(old(Tally()), ms)
    {
      ghost var t := Tally();
      for n := 0 to |ms|
        invariant Tally() == Run(t, ms[..n])
      {
        assert ms[..n + 1] == ms[..n] + [ms[n]];
        RunOneMore(t, ms[..n], ms[n]);
        BeginContact(ms[n]);
      }
      assert ms[..|ms|] == ms;
    }

    method ProcessContact(c: Ongoing)
      requires Valid() && Exists(Tally(), c.first) && Exists(Tally(), c.second)
      modifies players`hitpoints, food`hitpoints
      ensures Tally() == AfterOngoing(old(Tally()), c)
    {
      if c.touching && c.first.Player? && c.second.Player? {
        PlayerHitsPlayer(c.first.index, c.second.index);
      }
    }

    /** One entry more of the contact list. */
    method ProcessNext(contacts: seq<Ongoing>, n: nat, ghost t: HitPoints.Tally)
      requires Valid() && n < |contacts| && OngoingInWorld(t, contacts)
      requires Tally() == Sweep(t, contacts[..n])
      modifies players`hitpoints, food`hitpoints
      ensures Tally() == Sweep(t, contacts[..n + 1])
    {
      assert contacts[..n + 1] == contacts[..n] + [contacts[n]];
      SweepOneMore(t, contacts[..n], contacts[n]);
      ProcessContact(contacts[n]);
    }

    /** The sweep: only touching pairs of players, in list order. */
    method ProcessOngoingContacts(contacts: seq<Ongoing>)
      requires Valid() && OngoingInWorld(Tally(), contacts)
      modifies players`hitpoints, food`hitpoints
      ensures Tally() == Sweep(old(Tally()), contacts)
    {
      ghost var t := Tally();
      for n := 0 to |contacts|
        invariant Tally() == Sweep(t, contacts[..n])
      {
        ProcessNext(contacts, n, t);
      }
      assert contacts[..|contacts|] == contacts;
    }

    method UpdateAll()
      modifies players`radius, players`enabled, food`radius, food`enabled
      ensures Tally() == old(Tally())
      ensures forall b :: b in players ==> b.Shown()
      ensures forall b :: b in food ==> b.Shown()
    {
      for n := 0 to |players|
        invariant forall i :: 0 <= i < n ==> players[i].Shown()
      {
        players[n].Update();
      }
      for n := 0 to |food|
        invariant forall b :: b in players ==> b.Shown()
        invariant forall i :: 0 <= i < n ==> food[i].Shown()
      {
        food[n].Update();
      }
    }

    method Init()
      modifies players`radius, players`enabled, food`radius, food`enabled
      ensures Tally() == old(Tally())
      ensures forall b :: b in players ==> b.Shown()
      ensures forall b :: b in food ==> b.Shown()
    {
      UpdateAll();
    }

    /** Bodies are where the physics put them. */
    predicate Placed(physics: Physics)
      reads this, players`position, food`position
    {
      && |physics.playersAt| == |players| && |physics.foodAt| == |food|
      && (forall i :: 0 <= i < |players| ==> players[i].position == physics.playersAt[i])
      && (forall j :: 0 <= j < |food| ==> food[j].position == physics.foodAt[j])
    }

    method Place(physics: Physics)
      requires Valid() && |physics.playersAt| == |players| && |physics.foodAt| == |food|
      modifies players`position, food`position
      ensures Tally() == old(Tally())
      ensures Placed(physics)
    {
      for n := 0 to |players|
        invariant forall i :: 0 <= i < n ==> players[i].position == physics.playersAt[i]
      {
        players[n].position := physics.playersAt[n];
      }
      for n := 0 to |food|
        invariant forall i :: 0 <= i < |players| ==> players[i].position == physics.playersAt[i]
        invariant forall j :: 0 <= j < n ==> food[j].position == physics.foodAt[j]
      {
        food[n].position := physics.foodAt[n];
      }
    }

    /** What `b2World::Step` does here: call back for the contacts that begin, and move the bodies. */
    method Simulate(physics: Physics)
      requires Valid() && Possible(Tally(), physics)
      modifies players`hitpoints, food`hitpoints, players`position, food`position
      ensures Tally() == Run(old(Tally()), physics.begins)
      ensures Placed(physics)
    {
      BeginContacts(physics.begins);
      Place(physics);
    }

    /** All the contacts of a step: those that begin, then the sweep. */
    method Collide(physics: Physics)
      requires Valid() && Possible(Tally(), physics)
      modifies players`hitpoints, food`hitpoints, players`position, food`position
      ensures Tally() == Run(old(Tally()), StepMeetings(physics))
      ensures Placed(physics)
    {
      ghost var t := Tally();
      Simulate(physics);
      ProcessOngoingContacts(physics.ongoing);
      SweptInWorld(t, physics.ongoing);
      RunConcat(t, physics.begins, Swept(physics.ongoing));
    }

    /** One step: the contacts that begin, then the sweep, then every body is brought up to date. */
    method Step(physics: Physics)
      requires Valid() && Possible(Tally(), physics)
      modifies players, food
      ensures Tally() == Run(old(Tally()), StepMeetings(physics))
      ensures Placed(physics)
      ensures forall b :: b in players ==> b.Shown()
      ensures forall b :: b in food ==> b.Shown()
    {
      Collide(physics);
      UpdateAll();
    }
  }

  /** The effect of one entry of the contact list. */
  function AfterOngoing(t: HitPoints.Tally, c: Ongoing): (u: HitPoints.Tally)
    requires Exists(t, c.first) && Exists(t, c.second)
    ensures SameObjects(t, u)
  {
    if Handled(c) then MeetPlayer(t, c.first.index, c.second.index) else t
  }

  lemma SweepOneMore(t: HitPoints.Tally, cs: seq<Ongoing>, c: Ongoing)
    requires OngoingInWorld(t, cs) && Exists(t, c.first) && Exists(t, c.second)
    ensures OngoingInWorld(t, cs + [c])
    ensures Sweep(t, cs + [c]) == AfterOngoing(Sweep(t, cs), c)
  {
    var m := Meeting(c.first, c.second);
    assert cs == (cs + [c])[..|cs + [c]| - 1];
    assert Swept(cs + [c]) == Swept(cs) + if Handled(c) then [m] else [];
    SweptInWorld(t, cs);
    if Handled(c) {
      RunOneMore(t, Swept(cs), m);
    } else {
      assert Swept(cs + [c]) == Swept(cs);
    }
  }

  lemma RunOneMore(t: HitPoints.Tally, ms: seq<Meeting>, m: Meeting)
    requires InWorld(t, ms) && Exists(t, m.first) && Exists(t, m.second)
    ensures InWorld(t, ms + [m]) && Run(t, ms + [m]) == Contact(Run(t, ms), m)
  {
    assert (ms + [m])[..|ms|] == ms;
  }

  /** The physics only ever reports contacts and positions of existing bodies. */
  predicate Possible(t: HitPoints.Tally, physics: Physics) {
    && InWorld(t, physics.begins) && OngoingInWorld(t, physics.ongoing)
    && |physics.playersAt| == |t.players| && |physics.foodAt| == |t.food|
  }

  /** The contacts of one step, in the order they take effect. */
  function StepMeetings(physics: Physics): seq<Meeting> {
    physics.begins + Swept(physics.ongoing)
  }
}
