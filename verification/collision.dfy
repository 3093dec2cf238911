/**
 * The collision and scoring rules of one resolve pass: which coins the
 * player picks up, which obstacles the player hits, the score and speed
 * after the hits, and the off-road test. The pass itself, which changes
 * the game state, is `Simulation.Game.CheckCollisions`; this module holds
 * the functions its contract is stated with and their properties.
 */
module Collision {
  import opened Numeric
  import opened World

  /** The player's hitbox is this far ahead of the camera. */
  const PlayerLead: real := 380.0
  const CoinReachZ: real := 120.0
  const CoinReachX: real := 0.22
  const CoinReward: real := 35.0
  const HitReachZ: real := 140.0
  const HitReachX: real := 0.25
  const HitPenalty: real := 60.0
  const HitSlowdown: real := 0.65
  const MinHitSpeed: real := 120.0
  /** Beyond this lateral offset the run is reset. */
  const OffRoadLimit: real := 1.05

  /** A coin not yet taken, inside both tolerances of the hitbox (px, pz). */
  predicate CoinInReach(c: Coin, px: real, pz: real)
  {
    !c.taken && Abs(c.z - pz) < CoinReachZ && Abs(c.x - px) < CoinReachX
  }

  predicate ObstacleInReach(o: Obstacle, px: real, pz: real)
  {
    !o.hit && Abs(o.z - pz) < HitReachZ && Abs(o.x - px) < HitReachX
  }

  predicate OffRoad(px: real)
  {
    Abs(px) > OffRoadLimit
  }

  /** A coin after the pickup test: marked taken when in reach. */
  function Take(c: Coin, px: real, pz: real): Coin
  {
    if CoinInReach(c, px, pz) then c.(taken := true) else c
  }

  /** An obstacle after the hit test: marked hit when in reach. */
  function Mark(o: Obstacle, px: real, pz: real): Obstacle
  {
    if ObstacleInReach(o, px, pz) then o.(hit := true) else o
  }

  /** The coin list after the pickup loop, which tests each coin in turn. */
  function Collect(coins: seq<Coin>, px: real, pz: real): (r: seq<Coin>)
    ensures |r| == |coins|
  {
    if coins == [] then []
    else Collect(coins[..|coins| - 1], px, pz) + [Take(coins[|coins| - 1], px, pz)]
  }

  /** The obstacle list after the hit loop. */
  function MarkHits(obstacles: seq<Obstacle>, px: real, pz: real): (r: seq<Obstacle>)
    ensures |r| == |obstacles|
  {
    if obstacles == [] then []
    else MarkHits(obstacles[..|obstacles| - 1], px, pz) + [Mark(obstacles[|obstacles| - 1], px, pz)]
  }

  /** How many coins the pickup loop takes. */
  function PickupCount(coins: seq<Coin>, px: real, pz: real): (n: nat)
    ensures n <= |coins|
  {
    if coins == [] then 0
    else PickupCount(coins[..|coins| - 1], px, pz) + if CoinInReach(coins[|coins| - 1], px, pz) then 1 else 0
  }

  /** How many obstacles the hit loop hits. */
  function HitCount(obstacles: seq<Obstacle>, px: real, pz: real): (n: nat)
    ensures n <= |obstacles|
  {
    if obstacles == [] then 0
    else HitCount(obstacles[..|obstacles| - 1], px, pz) + if ObstacleInReach(obstacles[|obstacles| - 1], px, pz) then 1 else 0
  }

  function TakenCount(coins: seq<Coin>): nat
  {
    if coins == [] then 0
    else TakenCount(coins[..|coins| - 1]) + if coins[|coins| - 1].taken then 1 else 0
  }

  function HitFlagCount(obstacles: seq<Obstacle>): nat
  {
    if obstacles == [] then 0
    else HitFlagCount(obstacles[..|obstacles| - 1]) + if obstacles[|obstacles| - 1].hit then 1 else 0
  }

  /** Score after h hits, each `Math.max(0, score - 60)`. */
  function Penalize(score: real, h: nat): (r: real)
    ensures 0 < h ==> 0.0 <= r
    ensures 0.0 <= score ==> 0.0 <= r
  {
    if h == 0 then score else Max(0.0, Penalize(score, h - 1) - HitPenalty)
  }

  /** Speed after h hits, each `Math.max(120, speed * 0.65)`. */
  function SlowDown(speed: real, h: nat): (r: real)
    ensures 0 < h ==> MinHitSpeed <= r
    ensures r <= Max(MinHitSpeed, speed)
  {
    if h == 0 then speed else Max(MinHitSpeed, SlowDown(speed, h - 1) * HitSlowdown)
  }

  // ---------------------------------------------------------------------
  // The two loops of the collision pass

  /** The pickup loop: every coin in reach is marked taken, and counted. */
  method PickUp(coins: seq<Coin>, px: real, pz: real) returns (cs: seq<Coin>, picked: nat)
    ensures cs == Collect(coins, px, pz)
    ensures picked == PickupCount(coins, px, pz)
  {
    cs, picked := coins, 0;
    var i := 0;
    while i < |cs|
      invariant 0 <= i <= |cs| == |coins|
      invariant forall k :: 0 <= k < i ==> cs[k] == Take(coins[k], px, pz)
      invariant forall k :: i <= k < |cs| ==> cs[k] == coins[k]
      invariant picked == PickupCount(coins[..i], px, pz)
    {
      PickupCountStep(coins, i, px, pz);
      var c := cs[i];
      if !c.taken {
        var dz := Abs(c.z - pz);
        if dz < CoinReachZ && Abs(c.x - px) < CoinReachX {
          cs := cs[i := c.(taken := true)];
          picked := picked + 1;
        }
      }
      i := i + 1;
    }
    assert coins[..|coins|] == coins;
    CollectPointwise(coins, px, pz);
  }

  /** The hit loop: every obstacle in reach is marked hit, and each hit
      floors the speed at 120 after scaling it by 0.65 and takes 60 off
      the score, not below zero. */
  method Strike(obstacles: seq<Obstacle>, speed: real, score: real, px: real, pz: real)
    returns (os: seq<Obstacle>, hits: nat, spd: real, sc: real)
    ensures os == MarkHits(obstacles, px, pz)
    ensures hits == HitCount(obstacles, px, pz)
    ensures spd == SlowDown(speed, hits) && sc == Penalize(score, hits)
  {
    os, hits, spd, sc := obstacles, 0, speed, score;
    var i := 0;
    while i < |os|
      invariant 0 <= i <= |os| == |obstacles|
      invariant forall k :: 0 <= k < i ==> os[k] == Mark(obstacles[k], px, pz)
      invariant forall k :: i <= k < |os| ==> os[k] == obstacles[k]
      invariant hits == HitCount(obstacles[..i], px, pz)
      invariant spd == SlowDown(speed, hits) && sc == Penalize(score, hits)
    {
      HitCountStep(obstacles, i, px, pz);
      var o := os[i];
      if !o.hit {
        var dz := Abs(o.z - pz);
        if dz < HitReachZ && Abs(o.x - px) < HitReachX {
          os := os[i := o.(hit := true)];
          hits := hits + 1;
          spd := Max(MinHitSpeed, spd * HitSlowdown);
          sc := Max(0.0, sc - HitPenalty);
        }
      }
      i := i + 1;
    }
    assert obstacles[..|obstacles|] == obstacles;
    MarkHitsPointwise(obstacles, px, pz);
  }

  /** One more iteration of the pickup loop counts the next coin. */
  lemma PickupCountStep(s: seq<Coin>, i: nat, px: real, pz: real)
    requires i < |s|
    ensures PickupCount(s[..i + 1], px, pz) == PickupCount(s[..i], px, pz) + if CoinInReach(s[i], px, pz) then 1 else 0
  {
    assert s[..i + 1][..i] == s[..i];
  }

  lemma HitCountStep(s: seq<Obstacle>, i: nat, px: real, pz: real)
    requires i < |s|
    ensures HitCount(s[..i + 1], px, pz) == HitCount(s[..i], px, pz) + if ObstacleInReach(s[i], px, pz) then 1 else 0
  {
    assert s[..i + 1][..i] == s[..i];
  }

  // ---------------------------------------------------------------------
  // Properties

  /** The pickup pass treats each coin on its own: a coin ends up taken
      exactly when it was taken or in reach, and nothing else about it
      changes. */
  lemma {:induction false} CollectPointwise(coins: seq<Coin>, px: real, pz: real)
    ensures forall k :: 0 <= k < |coins| ==>
              Collect(coins, px, pz)[k] == Take(coins[k], px, pz)
              && Collect(coins, px, pz)[k].taken == (coins[k].taken || CoinInReach(coins[k], px, pz))
              && Collect(coins, px, pz)[k] == coins[k].(taken := Collect(coins, px, pz)[k].taken)
  {
    if coins != [] {
      var n := |coins| - 1;
      CollectPointwise(coins[..n], px, pz);
      forall k | 0 <= k < n
        ensures Collect(coins, px, pz)[k] == Take(coins[k], px, pz)
      {
        assert coins[..n][k] == coins[k];
      }
    }
  }

  /** Each obstacle ends up hit exactly when it was hit or in reach, and
      nothing else about it changes. */
  lemma {:induction false} MarkHitsPointwise(obstacles: seq<Obstacle>, px: real, pz: real)
    ensures forall k :: 0 <= k < |obstacles| ==>
              MarkHits(obstacles, px, pz)[k] == Mark(obstacles[k], px, pz)
              && MarkHits(obstacles, px, pz)[k].hit == (obstacles[k].hit || ObstacleInReach(obstacles[k], px, pz))
              && MarkHits(obstacles, px, pz)[k] == obstacles[k].(hit := MarkHits(obstacles, px, pz)[k].hit)
  {
    if obstacles != [] {
      var n := |obstacles| - 1;
      MarkHitsPointwise(obstacles[..n], px, pz);
      forall k | 0 <= k < n
        ensures MarkHits(obstacles, px, pz)[k] == Mark(obstacles[k], px, pz)
      {
        assert obstacles[..n][k] == obstacles[k];
      }
    }
  }

  /** Prefixes of the pickup result are the pickup results of prefixes. */
  lemma CollectPrefix(coins: seq<Coin>, px: real, pz: real, n: nat)
    requires n <= |coins|
    ensures Collect(coins, px, pz)[..n] == Collect(coins[..n], px, pz)
  {
    CollectPointwise(coins, px, pz);
    CollectPointwise(coins[..n], px, pz);
  }

  lemma MarkHitsPrefix(obstacles: seq<Obstacle>, px: real, pz: real, n: nat)
    requires n <= |obstacles|
    ensures MarkHits(obstacles, px, pz)[..n] == MarkHits(obstacles[..n], px, pz)
  {
    MarkHitsPointwise(obstacles, px, pz);
    MarkHitsPointwise(obstacles[..n], px, pz);
  }

  /** Every coin taken by the pass adds exactly one to the taken coins. */
  lemma {:induction false} CollectCountsPickups(coins: seq<Coin>, px: real, pz: real)
    ensures TakenCount(Collect(coins, px, pz)) == TakenCount(coins) + PickupCount(coins, px, pz)
  {
    if coins != [] {
      var n := |coins| - 1;
      var r := Collect(coins, px, pz);
      CollectPrefix(coins, px, pz, n);
      CollectCountsPickups(coins[..n], px, pz);
    }
  }

  lemma {:induction false} MarkHitsCountsHits(obstacles: seq<Obstacle>, px: real, pz: real)
    ensures HitFlagCount(MarkHits(obstacles, px, pz)) == HitFlagCount(obstacles) + HitCount(obstacles, px, pz)
  {
    if obstacles != [] {
      var n := |obstacles| - 1;
      MarkHitsPrefix(obstacles, px, pz, n);
      MarkHitsCountsHits(obstacles[..n], px, pz);
    }
  }

  /** No coin is in reach after a pass, so a second pass from the same
      hitbox takes nothing and changes nothing. */
  lemma {:induction false} CollectIdempotent(coins: seq<Coin>, px: real, pz: real)
    ensures PickupCount(Collect(coins, px, pz), px, pz) == 0
    ensures Collect(Collect(coins, px, pz), px, pz) == Collect(coins, px, pz)
  {
    if coins != [] {
      var n := |coins| - 1;
      CollectPrefix(coins, px, pz, n);
      CollectIdempotent(coins[..n], px, pz);
    }
  }

  /** A hit obstacle never penalizes again: a second pass hits nothing. */
  lemma {:induction false} MarkHitsIdempotent(obstacles: seq<Obstacle>, px: real, pz: real)
    ensures HitCount(MarkHits(obstacles, px, pz), px, pz) == 0
    ensures MarkHits(MarkHits(obstacles, px, pz), px, pz) == MarkHits(obstacles, px, pz)
  {
    if obstacles != [] {
      var n := |obstacles| - 1;
      MarkHitsPrefix(obstacles, px, pz, n);
      MarkHitsIdempotent(obstacles[..n], px, pz);
    }
  }

  /** A coin exactly at the hitbox and not yet taken is picked up. */
  lemma {:induction false} CoinAtHitboxPicked(coins: seq<Coin>, k: nat, px: real, pz: real)
    requires k < |coins| && !coins[k].taken && coins[k].x == px && coins[k].z == pz
    ensures Collect(coins, px, pz)[k].taken
    ensures PickupCount(coins, px, pz) >= 1
  {
    var n := |coins| - 1;
    if k < n {
      CoinAtHitboxPicked(coins[..n], k, px, pz);
    }
  }

  /** h successive penalties floor the score at zero: the result is
      `max(0, score - 60 h)`. */
  lemma {:induction false} PenalizeClosedForm(score: real, h: nat)
    requires 0 < h
    ensures Penalize(score, h) == Max(0.0, score - h as real * HitPenalty)
  {
    if h > 1 {
      PenalizeClosedForm(score, h - 1);
    }
  }

  /** `speed * 0.65^h`, the speed after h slowdowns without the floor. */
  function Decayed(speed: real, h: nat): (r: real)
    ensures 0.0 <= speed ==> 0.0 <= r <= speed
  {
    if h == 0 then speed else Decayed(speed, h - 1) * HitSlowdown
  }

  /** h successive slowdowns give `max(120, speed * 0.65^h)`: the floor
      applies once, to the undamped product. */
  lemma {:induction false} SlowDownClosedForm(speed: real, h: nat)
    requires 0 < h
    ensures SlowDown(speed, h) == Max(MinHitSpeed, Decayed(speed, h))
  {
    if h > 1 {
      SlowDownClosedForm(speed, h - 1);
    }
  }
}
