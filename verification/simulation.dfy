/**
 * The shared game record and the operations that change it frame by frame:
 * the spawn pass, the collision pass with its off-road reset, the state
 * part of the update step, and the run controller (start, reset, stop).
 *
 * Audio calls are kept as an event log `sounds`; the screen size that
 * anchors score popups is a `Viewport` parameter. The smoothing factors
 * `1 - 0.0001^dt` and `1 - 0.001^dt` are parameters in [0,1].
 */
module Simulation {
  import opened Numeric
  import opened World
  import opened Collision
  import opened Shop

  const BaseSpeed: real := 220.0
  const MaxSpeed: real := 720.0
  /** The steering clamp on the lateral offset, wider than the off-road limit. */
  const SteerClamp: real := 1.35
  const SteerGain: real := 1.15
  const DistanceRamp: real := 0.06
  const DistanceScore: real := 0.02
  const CoinSpin: real := 5.2
  /** The frame driver clamps dt to [0, 0.033]. */
  const MaxDt: real := 0.033
  const ShakeFrom: real := 260.0
  const ShakeMax: real := 10.0

  /** The audio events the simulation fires. */
  datatype Sfx = CoinSfx | HitSfx | ResetSfx

  datatype Viewport = Viewport(width: real, height: real)

  function CoinPopup(view: Viewport): Popup
  {
    Popup("+35", view.width * 0.5, view.height * 0.55, 0.0, "#7cffb3")
  }

  function HitPopup(view: Viewport): Popup
  {
    Popup("-60", view.width * 0.5, view.height * 0.57, 0.0, "#ff5e7a")
  }

  /** n copies of x. */
  function Repeat<T>(x: T, n: nat): (r: seq<T>)
    ensures |r| == n
  {
    if n == 0 then [] else Repeat(x, n - 1) + [x]
  }

  /** Net steering intent from the held directions: -1, 0 or +1. */
  function SteerTarget(left: bool, right: bool): (t: real)
    ensures -1.0 <= t <= 1.0
    ensures left == right ==> t == 0.0
    ensures left && !right ==> t == -1.0
    ensures right && !left ==> t == 1.0
  {
    (if left then -1.0 else 0.0) + (if right then 1.0 else 0.0)
  }

  /** The cruise speed the car accelerates toward, growing with distance. */
  function DesiredBase(distance: real): (v: real)
    ensures BaseSpeed <= v <= MaxSpeed
    ensures 0.0 <= distance ==> v == Min(MaxSpeed, BaseSpeed + distance * DistanceRamp)
  {
    Clamp(BaseSpeed + distance * DistanceRamp, BaseSpeed, MaxSpeed)
  }

  /** Speed above 260 as a fraction of the range up to the maximum. */
  function SpeedNorm(speed: real): (n: real)
    ensures 0.0 <= n <= 1.0
  {
    Clamp((speed - ShakeFrom) / (MaxSpeed - ShakeFrom), 0.0, 1.0)
  }

  /** Every coin's rotation advanced by delta. */
  function Spun(coins: seq<Coin>, delta: real): seq<Coin>
  {
    seq(|coins|, k requires 0 <= k < |coins| => coins[k].(rot := coins[k].rot + delta))
  }

  class Game {
    var running: bool
    /** Lateral position on the road. */
    var playerX: real
    /** The smoothed steering value of the input record. */
    var steer: real
    var speed: real
    var shake: real
    var score: real
    var runCoins: nat
    var distance: real
    /** Camera forward position. */
    var z: real
    var coins: seq<Coin>
    var obstacles: seq<Obstacle>
    var popups: seq<Popup>
    var sounds: seq<Sfx>

    ghost predicate Valid()
      reads this
    {
      && CoinsSpaced(coins)
      && ObstaclesSpaced(obstacles)
      && CoinsInView(coins, z)
      && ObstaclesInView(obstacles, z)
      && -SteerClamp <= playerX <= SteerClamp
      && -1.0 <= steer <= 1.0
      && 0.0 <= speed <= MaxSpeed
      && 0.0 <= shake <= ShakeMax
      && 0.0 <= score
      && 0.0 <= z && distance == z
    }

    /** What a spawn pass leaves behind: nothing at or behind the pruning
        bound, so no more objects than fit in the live window. */
    ghost predicate Settled()
      reads this
    {
      && CoinsAhead(coins, z) && |coins| <= MaxLiveCoins
      && ObstaclesAhead(obstacles, z) && |obstacles| <= MaxLiveObstacles
    }

    /** The state right after a run starts or is reset: the car at the
        start line at base speed, nothing scored, and the world holding
        exactly what a spawn pass over the first `drawDist` segments
        generates on an empty road (the camera's segment is 0 at z = 0). */
    ghost predicate FreshRun(sine: real -> real, random: (int, Draw) -> real)
      reads this
    {
      && IsUnitDraw(random)
      && playerX == 0.0 && speed == BaseSpeed && score == 0.0 && runCoins == 0
      && distance == 0.0 && z == 0.0
      && coins == SpawnCoins([], CamSeg(z), CamSeg(z) + DrawDist, sine, random)
      && obstacles == SpawnObstacles([], CamSeg(z), CamSeg(z) + DrawDist, sine, random)
      && popups == []
    }

    /** The record before the first run. */
    constructor ()
      ensures Valid()
      ensures !running && playerX == 0.0 && steer == 0.0 && speed == 0.0 && shake == 0.0
      ensures score == 0.0 && runCoins == 0 && distance == 0.0 && z == 0.0
      ensures coins == [] && obstacles == [] && popups == [] && sounds == []
    {
      running := false;
      playerX, steer, speed, shake := 0.0, 0.0, 0.0, 0.0;
      score, runCoins, distance, z := 0.0, 0, 0.0, 0.0;
      coins, obstacles, popups, sounds := [], [], [], [];
    }

    // -------------------------------------------------------------------
    // World generation

    /** Prunes far-behind objects and expired popups, then walks the
        segments from the camera's to `drawDist` ahead, appending each
        segment's coin and obstacle unless one of the same kind is near. */
    method SpawnAhead(sine: real -> real, random: (int, Draw) -> real)
      requires Valid() && IsUnitDraw(random)
      modifies this
      ensures Valid() && Settled()
      ensures coins == SpawnPassCoins(old(coins), z, sine, random)
      ensures obstacles == SpawnPassObstacles(old(obstacles), z, sine, random)
      ensures popups == PrunePopups(old(popups))
      ensures (running, playerX, steer, speed, shake, score, runCoins, distance, z, sounds)
           == old((running, playerX, steer, speed, shake, score, runCoins, distance, z, sounds))
    {
      var cs, os := SpawnPass(coins, obstacles, z, sine, random);
      coins, obstacles, popups := cs, os, PrunePopups(popups);
    }

    // -------------------------------------------------------------------
    // Collisions

    /** The pickup loop of `checkCollisions`: every untaken coin within
        reach of the car is taken and pays out. */
    method TakeCoins(view: Viewport)
      requires Valid()
      modifies this
      ensures Valid()
      ensures old(Settled()) ==> Settled()
      ensures var k := PickupCount(old(coins), old(playerX), old(z) + PlayerLead);
              && coins == Collect(old(coins), old(playerX), old(z) + PlayerLead)
              && runCoins == old(runCoins) + k
              && score == old(score) + k as real * CoinReward
              && popups == old(popups) + Repeat(CoinPopup(view), k)
              && sounds == old(sounds) + Repeat(CoinSfx, k)
      ensures (running, playerX, steer, speed, shake, distance, z, obstacles)
           == old((running, playerX, steer, speed, shake, distance, z, obstacles))
    {
      var cs, picked := PickUp(coins, playerX, z + PlayerLead);
      assert CoinsSpaced(cs) && CoinsInView(cs, z) && (CoinsAhead(coins, z) ==> CoinsAhead(cs, z)) by {
        CollectKeepsShape(coins, playerX, z + PlayerLead, z);
      }
      coins, runCoins, score := cs, runCoins + picked, score + picked as real * CoinReward;
      Announce(CoinPopup(view), CoinSfx, picked);
    }

    /** The hit loop of `checkCollisions`: every obstacle within reach of
        the car that was not hit before is marked hit, slows the car and
        costs score. */
    method HitObstacles(view: Viewport)
      requires Valid()
      modifies this
      ensures Valid()
      ensures old(Settled()) ==> Settled()
      ensures var h := HitCount(old(obstacles), old(playerX), old(z) + PlayerLead);
              && obstacles == MarkHits(old(obstacles), old(playerX), old(z) + PlayerLead)
              && score == Penalize(old(score), h)
              && speed == SlowDown(old(speed), h)
              && popups == old(popups) + Repeat(HitPopup(view), h)
              && sounds == old(sounds) + Repeat(HitSfx, h)
      ensures (running, playerX, steer, shake, runCoins, distance, z, coins)
           == old((running, playerX, steer, shake, runCoins, distance, z, coins))
    {
      var os, hits, spd, sc := Strike(obstacles, speed, score, playerX, z + PlayerLead);
      assert ObstaclesSpaced(os) && ObstaclesInView(os, z) && (ObstaclesAhead(obstacles, z) ==> ObstaclesAhead(os, z)) by {
        MarkHitsKeepsShape(obstacles, playerX, z + PlayerLead, z);
      }
      assert 0.0 <= spd <= MaxSpeed by {
        SlowDownBounded(speed, hits);
      }
      obstacles, speed, score := os, spd, sc;
      Announce(HitPopup(view), HitSfx, hits);
    }

    /** n score popups and n sound events, one per pickup or hit. */
    method Announce(p: Popup, sfx: Sfx, n: nat)
      requires Valid()
      modifies this
      ensures Valid()
      ensures popups == old(popups) + Repeat(p, n) && sounds == old(sounds) + Repeat(sfx, n)
      ensures (running, playerX, steer, speed, shake, score, runCoins, distance, z, coins, obstacles)
           == old((running, playerX, steer, speed, shake, score, runCoins, distance, z, coins, obstacles))
    {
      popups, sounds := popups + Repeat(p, n), sounds + Repeat(sfx, n);
    }

    /** `checkCollisions`: pickups, then hits, then the off-road test, which
        banks the run's coins (this frame's pickups included) and restarts
        the run in place. */
    method CheckCollisions(view: Viewport, sine: real -> real, random: (int, Draw) -> real, save: Save)
      requires Valid() && save.Valid() && IsUnitDraw(random)
      modifies this, save
      ensures Valid() && save.Valid()
      ensures old(Settled()) ==> Settled()
      ensures save.selectedStyle == old(save.selectedStyle) && save.unlockedStyles == old(save.unlockedStyles)
      ensures running == old(running) && steer == old(steer) && shake == old(shake)
      ensures var px, pz := old(playerX), old(z) + PlayerLead;
              var k, h := PickupCount(old(coins), px, pz), HitCount(old(obstacles), px, pz);
              if OffRoad(px) then
                && FreshRun(sine, random)
                && save.coinsTotal == old(save.coinsTotal) + old(runCoins) + k
                && sounds == old(sounds) + Repeat(CoinSfx, k) + Repeat(HitSfx, h) + [ResetSfx]
              else
                && coins == Collect(old(coins), px, pz)
                && obstacles == MarkHits(old(obstacles), px, pz)
                && runCoins == old(runCoins) + k
                && score == Penalize(old(score) + k as real * CoinReward, h)
                && speed == SlowDown(old(speed), h)
                && popups == old(popups) + Repeat(CoinPopup(view), k) + Repeat(HitPopup(view), h)
                && sounds == old(sounds) + Repeat(CoinSfx, k) + Repeat(HitSfx, h)
                && playerX == old(playerX) && z == old(z) && distance == old(distance)
                && save.coinsTotal == old(save.coinsTotal)
    {
      TakeCoins(view);
      HitObstacles(view);
      if OffRoad(playerX) {
        ResetRun(sine, random, save);
      }
    }

    // -------------------------------------------------------------------
    // Update step

    /** The state part of `update(dt)`: steering, lateral clamp, speed
        toward the distance-driven target, shake, and forward travel. */
    method Advance(dt: real, left: bool, right: bool, steerAlpha: real, speedAlpha: real)
      requires Valid()
      requires 0.0 <= dt <= MaxDt
      requires 0.0 <= steerAlpha <= 1.0 && 0.0 <= speedAlpha <= 1.0
      modifies this
      ensures Valid()
      ensures steer == Lerp(old(steer), SteerTarget(left, right), steerAlpha)
      ensures playerX == Clamp(old(playerX) + Mul(steer, dt) * SteerGain, -SteerClamp, SteerClamp)
      ensures speed == Lerp(old(speed), DesiredBase(old(distance)), speedAlpha)
      ensures Min(old(speed), DesiredBase(old(distance))) <= speed <= Max(old(speed), DesiredBase(old(distance)))
      ensures Abs(DesiredBase(old(distance)) - speed) <= Abs(DesiredBase(old(distance)) - old(speed))
      ensures shake == Lerp(old(shake), SpeedNorm(speed) * ShakeMax, speedAlpha)
      ensures z == old(z) + Mul(speed, dt) && distance == old(distance) + Mul(speed, dt)
      ensures score == old(score) + Mul(speed, dt) * DistanceScore
      ensures old(z) <= z
      ensures coins == Spun(old(coins), dt * CoinSpin)
      ensures (running, runCoins, obstacles, popups, sounds) == old((running, runCoins, obstacles, popups, sounds))
    {
      Drive(dt, left, right, steerAlpha, speedAlpha);
      Travel(dt);
      SpinCoins(dt * CoinSpin);
    }

    /** The coin-spin loop (cosmetic): every coin's rotation phase
        advances by delta. */
    method SpinCoins(delta: real)
      requires Valid()
      modifies this
      ensures Valid()
      ensures coins == Spun(old(coins), delta)
      ensures (running, playerX, steer, speed, shake, score, runCoins, distance, z, obstacles, popups, sounds)
           == old((running, playerX, steer, speed, shake, score, runCoins, distance, z, obstacles, popups, sounds))
    {
      var i := 0;
      while i < |coins|
        invariant 0 <= i <= |coins| == |old(coins)|
        invariant forall k :: 0 <= k < i ==> coins[k] == old(coins)[k].(rot := old(coins)[k].rot + delta)
        invariant forall k :: i <= k < |coins| ==> coins[k] == old(coins)[k]
        invariant (running, playerX, steer, speed, shake, score, runCoins, distance, z, obstacles, popups, sounds)
               == old((running, playerX, steer, speed, shake, score, runCoins, distance, z, obstacles, popups, sounds))
      {
        coins := coins[i := coins[i].(rot := coins[i].rot + delta)];
        i := i + 1;
      }
      assert coins == Spun(old(coins), delta);
      assert CoinsSpaced(coins) && CoinsInView(coins, z) by { SpunKeepsShape(old(coins), delta, z, z); }
    }

    /** Steering and speed: the smoothed steering input moves the car
        sideways within the clamp, the speed eases toward the target of
        the distance covered so far, and the shake follows the speed. */
    method Drive(dt: real, left: bool, right: bool, steerAlpha: real, speedAlpha: real)
      requires Valid()
      requires 0.0 <= dt <= MaxDt
      requires 0.0 <= steerAlpha <= 1.0 && 0.0 <= speedAlpha <= 1.0
      modifies this
      ensures Valid()
      ensures steer == Lerp(old(steer), SteerTarget(left, right), steerAlpha)
      ensures playerX == Clamp(old(playerX) + Mul(steer, dt) * SteerGain, -SteerClamp, SteerClamp)
      ensures speed == Lerp(old(speed), DesiredBase(old(distance)), speedAlpha)
      ensures shake == Lerp(old(shake), SpeedNorm(speed) * ShakeMax, speedAlpha)
      ensures (running, score, runCoins, distance, z, coins, obstacles, popups, sounds)
           == old((running, score, runCoins, distance, z, coins, obstacles, popups, sounds))
    {
      var st := Lerp(steer, SteerTarget(left, right), steerAlpha);
      var spd := Lerp(speed, DesiredBase(distance), speedAlpha);
      steer, playerX, speed, shake :=
        st, Clamp(playerX + Mul(st, dt) * SteerGain, -SteerClamp, SteerClamp),
        spd, Lerp(shake, SpeedNorm(spd) * ShakeMax, speedAlpha);
    }

    /** Forward travel at the current speed, and the distance score. */
    method Travel(dt: real)
      requires Valid() && 0.0 <= dt
      modifies this
      ensures Valid()
      ensures z == old(z) + Mul(speed, dt) && distance == old(distance) + Mul(speed, dt)
      ensures score == old(score) + Mul(speed, dt) * DistanceScore
      ensures old(z) <= z
      ensures (running, playerX, steer, speed, shake, runCoins, coins, obstacles, popups, sounds)
           == old((running, playerX, steer, speed, shake, runCoins, coins, obstacles, popups, sounds))
    {
      var dz := Mul(speed, dt);
      assert 0.0 <= dz by { MulNonneg(speed, dt); }
      assert Horizon(z) <= Horizon(z + dz) by { HorizonMonotone(z, z + dz); }
      z, distance, score := z + dz, distance + dz, score + dz * DistanceScore;
    }

    /** One frame: advance, spawn, then resolve collisions. */
    method Update(dt: real, left: bool, right: bool, steerAlpha: real, speedAlpha: real, view: Viewport,
                  sine: real -> real, spawnRandom: (int, Draw) -> real, resetRandom: (int, Draw) -> real, save: Save)
      requires Valid() && save.Valid() && IsUnitDraw(spawnRandom) && IsUnitDraw(resetRandom)
      requires 0.0 <= dt <= MaxDt
      requires 0.0 <= steerAlpha <= 1.0 && 0.0 <= speedAlpha <= 1.0
      modifies this, save
      ensures Valid() && save.Valid() && Settled()
      ensures |coins| <= MaxLiveCoins && |obstacles| <= MaxLiveObstacles
      ensures old(save.coinsTotal) <= save.coinsTotal
      ensures save.selectedStyle == old(save.selectedStyle) && save.unlockedStyles == old(save.unlockedStyles)
      ensures running == old(running)
    {
      Advance(dt, left, right, steerAlpha, speedAlpha);
      SpawnAhead(sine, spawnRandom);
      CheckCollisions(view, sine, resetRandom, save);
    }

    // -------------------------------------------------------------------
    // Run controller

    /** Puts the player back at the start of an empty road and regenerates
        the world ahead. */
    method RestartWorld(sine: real -> real, random: (int, Draw) -> real)
      requires Valid() && IsUnitDraw(random)
      modifies this
      ensures Valid() && Settled() && FreshRun(sine, random)
      ensures (running, steer, shake, sounds) == old((running, steer, shake, sounds))
    {
      ClearObjects();
      ToStartLine();
      SpawnAhead(sine, random);
    }

    /** Empties the coin, obstacle and popup lists. */
    method ClearObjects()
      requires Valid()
      modifies this
      ensures Valid()
      ensures coins == [] && obstacles == [] && popups == []
      ensures (running, playerX, steer, speed, shake, score, runCoins, distance, z, sounds)
           == old((running, playerX, steer, speed, shake, score, runCoins, distance, z, sounds))
    {
      coins, obstacles, popups := [], [], [];
    }

    /** Resets the run statistics and puts the car back at the start line.
        The game's code resets these before emptying the lists; the two groups
        of assignments touch different fields, so the order does not
        change the resulting state. */
    method ToStartLine()
      requires Valid() && coins == [] && obstacles == []
      modifies this
      ensures Valid()
      ensures playerX == 0.0 && speed == BaseSpeed && score == 0.0 && runCoins == 0 && distance == 0.0 && z == 0.0
      ensures (running, steer, shake, coins, obstacles, popups, sounds)
           == old((running, steer, shake, coins, obstacles, popups, sounds))
    {
      playerX, speed, score, runCoins, distance, z := 0.0, BaseSpeed, 0.0, 0, 0.0, 0.0;
    }

    /** `startRun`: running, with fresh run statistics and world. */
    method StartRun(sine: real -> real, random: (int, Draw) -> real)
      requires Valid() && IsUnitDraw(random)
      modifies this
      ensures Valid() && Settled() && FreshRun(sine, random)
      ensures running
      ensures (steer, shake, sounds) == old((steer, shake, sounds))
    {
      running := true;
      RestartWorld(sine, random);
    }

    /** `resetRun`: banks the run's coins and restarts within the run. */
    method ResetRun(sine: real -> real, random: (int, Draw) -> real, save: Save)
      requires Valid() && save.Valid() && IsUnitDraw(random)
      modifies this, save
      ensures Valid() && save.Valid() && Settled() && FreshRun(sine, random)
      ensures save.coinsTotal == old(save.coinsTotal) + old(runCoins)
      ensures save.selectedStyle == old(save.selectedStyle) && save.unlockedStyles == old(save.unlockedStyles)
      ensures sounds == old(sounds) + [ResetSfx]
      ensures (running, steer, shake) == old((running, steer, shake))
    {
      sounds := sounds + [ResetSfx];
      save.Bank(runCoins);
      RestartWorld(sine, random);
    }

    /** `stopRunToMenu`: banks the run's coins and stops. The run's
        statistics and objects stay as they are until the next start. */
    method StopRunToMenu(save: Save)
      requires Valid() && save.Valid()
      modifies this, save
      ensures Valid() && save.Valid()
      ensures save.coinsTotal == old(save.coinsTotal) + old(runCoins)
      ensures save.selectedStyle == old(save.selectedStyle) && save.unlockedStyles == old(save.unlockedStyles)
      ensures !running
      ensures (playerX, steer, speed, shake, score, runCoins, distance, z, coins, obstacles, popups, sounds)
           == old((playerX, steer, speed, shake, score, runCoins, distance, z, coins, obstacles, popups, sounds))
    {
      save.Bank(runCoins);
      running := false;
    }
  }

  // ---------------------------------------------------------------------
  // Proof helpers

  /** Marking coins taken moves none of them, so lanes, horizon, pruning
      bound and spacing all carry over. */
  lemma CollectKeepsShape(coins: seq<Coin>, px: real, pz: real, z: real)
    ensures var r := Collect(coins, px, pz);
            && (CoinsSpaced(coins) ==> CoinsSpaced(r))
            && (CoinsInView(coins, z) ==> CoinsInView(r, z))
            && (CoinsAhead(coins, z) ==> CoinsAhead(r, z))
  {
    var r := Collect(coins, px, pz);
    CollectPointwise(coins, px, pz);
    assert CoinPositions(r) == CoinPositions(coins);
  }

  lemma MarkHitsKeepsShape(obstacles: seq<Obstacle>, px: real, pz: real, z: real)
    ensures var r := MarkHits(obstacles, px, pz);
            && (ObstaclesSpaced(obstacles) ==> ObstaclesSpaced(r))
            && (ObstaclesInView(obstacles, z) ==> ObstaclesInView(r, z))
            && (ObstaclesAhead(obstacles, z) ==> ObstaclesAhead(r, z))
  {
    var r := MarkHits(obstacles, px, pz);
    MarkHitsPointwise(obstacles, px, pz);
    assert ObstaclePositions(r) == ObstaclePositions(obstacles);
  }

  /** Spinning moves no coin, and a camera moving forward only pushes the
      horizon out, so spacing and view carry over. */
  lemma SpunKeepsShape(coins: seq<Coin>, delta: real, z0: real, z1: real)
    requires z0 <= z1
    ensures CoinsSpaced(coins) ==> CoinsSpaced(Spun(coins, delta))
    ensures CoinsInView(coins, z0) ==> CoinsInView(Spun(coins, delta), z1)
  {
    assert CoinPositions(Spun(coins, delta)) == CoinPositions(coins);
    HorizonMonotone(z0, z1);
  }

  /** Hits never raise the speed above the larger of its old value and
      the floor, so the speed bound survives any number of hits. */
  lemma SlowDownBounded(speed: real, h: nat)
    requires 0.0 <= speed <= MaxSpeed
    ensures 0.0 <= SlowDown(speed, h) <= MaxSpeed
  {
  }
}
