/**
 * The world generator of the driving game: the coin and obstacle records,
 * the segment-indexed spatial hash, one spawn decision per road segment,
 * the pruning filters, the spacing invariant that the spawn guard keeps,
 * and the bound on the number of live objects that follows from it.
 *
 * `Math.sin` inside the hash and `Math.random` inside `rand` are not
 * modelled: the sine is a parameter `sine`, and every `Math.random()`
 * draw of one spawn pass is `random(segment, channel)`, a value in [0,1).
 */
module World {
  import opened Numeric

  datatype Option<T> = None | Some(value: T)

  /** A coin; `taken` is set on pickup, the coin stays in the list. */
  datatype Coin = Coin(x: real, y: real, z: real, r: real, rot: real, taken: bool)

  datatype ObstacleKind = Cone | Block

  /** An obstacle; `hit` is set on collision, the obstacle stays in the list. */
  datatype Obstacle = Obstacle(x: real, y: real, z: real, w: real, h: real, kind: ObstacleKind, hit: bool)

  /** A score popup; its age `t` is advanced by the renderer. */
  datatype Popup = Popup(text: string, x: real, y: real, t: real, col: string)

  /** The `Math.random()` calls of one segment in one spawn pass. */
  datatype Draw = CoinZ | CoinRot | ObstacleZ

  const SegLength: real := 160.0
  const DrawDist: int := 220
  /** Objects more than this many segments behind the camera are pruned. */
  const KeepBehind: real := 10.0
  const CoinGap: real := 40.0
  const ObstacleGap: real := 80.0
  const CoinLaneLimit: real := 0.75
  const ObstacleLaneLimit: real := 0.8
  /** `Math.PI * 2` as a double. */
  const Tau: real := 6.283185307179586

  /** `hash(n)`: the fractional part of `sin(n * 999.1337) * 10000`. */
  function Hash(sine: real -> real, n: real): (r: real)
    ensures 0.0 <= r < 1.0
  {
    Frac(sine(n * 999.1337) * 10000.0)
  }

  ghost predicate IsUnitDraw(random: (int, Draw) -> real)
  {
    forall i, d :: 0.0 <= random(i, d) < 1.0
  }

  /** The segment the camera is in: `Math.floor(z / segLength)`. */
  function CamSeg(z: real): (s: int)
    ensures s as real * SegLength <= z < (s + 1) as real * SegLength
  {
    (z / SegLength).Floor
  }

  lemma CamSegMonotone(z1: real, z2: real)
    requires z1 <= z2
    ensures CamSeg(z1) <= CamSeg(z2)
  {
  }

  /** Start of the segment after segment i: `(i + 1) * segLength`. */
  function SegmentEnd(i: int): real
  {
    (i + 1) as real * SegLength
  }

  /** Forward positions at or below this are pruned: `z - segLength * 10`. */
  function BehindZ(z: real): real
  {
    z - SegLength * KeepBehind
  }

  /** Every object the generator creates while the camera is at z, or was
      at any smaller z, lies strictly before this forward position. */
  function Horizon(z: real): (h: real)
    ensures z < h <= z + (DrawDist + 1) as real * SegLength
  {
    (CamSeg(z) + DrawDist + 1) as real * SegLength
  }

  lemma HorizonMonotone(z1: real, z2: real)
    requires z1 <= z2
    ensures Horizon(z1) <= Horizon(z2)
  {
    CamSegMonotone(z1, z2);
  }

  ghost predicate InCoinLanes(c: Coin)
  {
    -CoinLaneLimit <= c.x <= CoinLaneLimit
  }

  ghost predicate NewCoin(c: Coin)
  {
    !c.taken && InCoinLanes(c) && c.y == 0.0 && c.r == 26.0
  }

  /** Footprint by kind, and the lateral clamp of obstacles. */
  ghost predicate WellShaped(o: Obstacle)
  {
    && -ObstacleLaneLimit <= o.x <= ObstacleLaneLimit
    && (o.kind == Cone ==> o.w == 40.0 && o.h == 58.0)
    && (o.kind == Block ==> o.w == 80.0 && o.h == 50.0)
  }

  ghost predicate NewObstacle(o: Obstacle)
  {
    !o.hit && WellShaped(o) && o.y == 0.0
  }

  /** How far apart the i-th and j-th points lie. */
  function Apart(zs: seq<real>, i: int, j: int): real
    requires 0 <= i < |zs| && 0 <= j < |zs|
  {
    Abs(zs[i] - zs[j])
  }

  /** Points that pairwise lie at least `gap` apart. */
  ghost predicate Spaced(zs: seq<real>, gap: real)
  {
    forall i, j {:trigger Apart(zs, i, j)} :: 0 <= i < |zs| && 0 <= j < |zs| && i != j ==> Apart(zs, i, j) >= gap
  }

  /** The forward positions of the coins, in list order. */
  function CoinPositions(coins: seq<Coin>): (zs: seq<real>)
    ensures |zs| == |coins|
  {
    seq(|coins|, k requires 0 <= k < |coins| => coins[k].z)
  }

  function ObstaclePositions(obstacles: seq<Obstacle>): (zs: seq<real>)
    ensures |zs| == |obstacles|
  {
    seq(|obstacles|, k requires 0 <= k < |obstacles| => obstacles[k].z)
  }

  /** No two distinct coins lie closer than the coin spacing. */
  ghost predicate CoinsSpaced(coins: seq<Coin>)
  {
    Spaced(CoinPositions(coins), CoinGap)
  }

  ghost predicate ObstaclesSpaced(obstacles: seq<Obstacle>)
  {
    Spaced(ObstaclePositions(obstacles), ObstacleGap)
  }

  /** Spacing stated pair by pair on the list itself. */
  lemma CoinsSpacedPairs(coins: seq<Coin>)
    ensures CoinsSpaced(coins) <==>
            forall i, j :: 0 <= i < |coins| && 0 <= j < |coins| && i != j ==> Abs(coins[i].z - coins[j].z) >= CoinGap
  {
    var zs := CoinPositions(coins);
    forall i, j | 0 <= i < |coins| && 0 <= j < |coins|
      ensures Apart(zs, i, j) == Abs(coins[i].z - coins[j].z)
    {
    }
  }

  lemma ObstaclesSpacedPairs(obstacles: seq<Obstacle>)
    ensures ObstaclesSpaced(obstacles) <==>
            forall i, j :: 0 <= i < |obstacles| && 0 <= j < |obstacles| && i != j ==> Abs(obstacles[i].z - obstacles[j].z) >= ObstacleGap
  {
    var zs := ObstaclePositions(obstacles);
    forall i, j | 0 <= i < |obstacles| && 0 <= j < |obstacles|
      ensures Apart(zs, i, j) == Abs(obstacles[i].z - obstacles[j].z)
    {
    }
  }

  /** Appending a coin that keeps its distance from every coin keeps the
      list spaced. */
  lemma CoinsSpacedAppend(coins: seq<Coin>, c: Coin)
    ensures CoinsSpaced(coins) && (forall k :: 0 <= k < |coins| ==> Abs(coins[k].z - c.z) >= CoinGap)
            ==> CoinsSpaced(coins + [c])
  {
    CoinsSpacedPairs(coins);
    CoinsSpacedPairs(coins + [c]);
  }

  /** In a spaced list, the last coin keeps its distance from every earlier one. */
  lemma CoinsSpacedFromLast(coins: seq<Coin>)
    requires |coins| > 0
    ensures CoinsSpaced(coins) ==> forall c :: c in coins[..|coins| - 1] ==> Abs(c.z - coins[|coins| - 1].z) >= CoinGap
  {
    CoinsSpacedPairs(coins);
    if CoinsSpaced(coins) {
      forall c | c in coins[..|coins| - 1] ensures Abs(c.z - coins[|coins| - 1].z) >= CoinGap {
        var j :| 0 <= j < |coins| - 1 && coins[j] == c;
      }
    }
  }

  lemma ObstaclesSpacedAppend(obstacles: seq<Obstacle>, o: Obstacle)
    ensures ObstaclesSpaced(obstacles) && (forall k :: 0 <= k < |obstacles| ==> Abs(obstacles[k].z - o.z) >= ObstacleGap)
            ==> ObstaclesSpaced(obstacles + [o])
  {
    ObstaclesSpacedPairs(obstacles);
    ObstaclesSpacedPairs(obstacles + [o]);
  }

  lemma ObstaclesSpacedFromLast(obstacles: seq<Obstacle>)
    requires |obstacles| > 0
    ensures ObstaclesSpaced(obstacles) ==> forall o :: o in obstacles[..|obstacles| - 1] ==> Abs(o.z - obstacles[|obstacles| - 1].z) >= ObstacleGap
  {
    ObstaclesSpacedPairs(obstacles);
    if ObstaclesSpaced(obstacles) {
      forall o | o in obstacles[..|obstacles| - 1] ensures Abs(o.z - obstacles[|obstacles| - 1].z) >= ObstacleGap {
        var j :| 0 <= j < |obstacles| - 1 && obstacles[j] == o;
      }
    }
  }

  // ---------------------------------------------------------------------
  // One segment's spawn decision

  /** The coin segment i offers, if its spawn gate opens: a lane side, a
      small spread, and a forward jitter of 20 to 120 past the segment. */
  function CoinCandidate(i: int, sine: real -> real, random: (int, Draw) -> real): (r: Option<Coin>)
    requires IsUnitDraw(random)
    ensures r.Some? <==> Hash(sine, i as real * 3.1) < 0.08
    ensures r.Some? ==> NewCoin(r.value)
    ensures r.Some? ==> SegmentEnd(i) + 20.0 <= r.value.z < SegmentEnd(i) + 120.0
  {
    if Hash(sine, i as real * 3.1) < 0.08 then
      var lane := if Hash(sine, i as real * 7.7) < 0.5 then -0.5 else 0.5;
      var spread := (Hash(sine, i as real * 2.9) - 0.5) * 0.2;
      var z := SegmentEnd(i) + Rand(20.0, 120.0, random(i, CoinZ));
      Some(Coin(Clamp(lane + spread, -CoinLaneLimit, CoinLaneLimit), 0.0, z, 26.0,
                Rand(0.0, Tau, random(i, CoinRot)), false))
    else
      None
  }

  /** The obstacle segment i offers, if its spawn gate opens. */
  function ObstacleCandidate(i: int, sine: real -> real, random: (int, Draw) -> real): (r: Option<Obstacle>)
    requires IsUnitDraw(random)
    ensures r.Some? <==> Hash(sine, i as real * 5.2) < 0.055
    ensures r.Some? ==> NewObstacle(r.value)
    ensures r.Some? ==> (r.value.kind == Cone <==> Hash(sine, i as real * 13.3) < 0.5)
    ensures r.Some? ==> SegmentEnd(i) + 30.0 <= r.value.z < SegmentEnd(i) + 140.0
  {
    if Hash(sine, i as real * 5.2) < 0.055 then
      var lane := if Hash(sine, i as real * 11.2) < 0.5 then -0.55 else 0.55;
      var z := SegmentEnd(i) + Rand(30.0, 140.0, random(i, ObstacleZ));
      var kind := if Hash(sine, i as real * 13.3) < 0.5 then Cone else Block;
      Some(Obstacle(Clamp(lane + (Hash(sine, i as real * 4.4) - 0.5) * 0.25, -ObstacleLaneLimit, ObstacleLaneLimit),
                    0.0, z,
                    if kind == Cone then 40.0 else 80.0,
                    if kind == Cone then 58.0 else 50.0,
                    kind, false))
    else
      None
  }

  /** `game.coins.some(c => Math.abs(c.z - z) < 40)`: taken coins count too. */
  predicate CoinNear(coins: seq<Coin>, z: real)
  {
    exists k :: 0 <= k < |coins| && Abs(coins[k].z - z) < CoinGap
  }

  predicate ObstacleNear(obstacles: seq<Obstacle>, z: real)
  {
    exists k :: 0 <= k < |obstacles| && Abs(obstacles[k].z - z) < ObstacleGap
  }

  /** The coin guard is exactly the spacing condition: on a spaced list,
      appending a coin keeps the list spaced if and only if no coin, taken
      or not, is near it. */
  lemma CoinNearKeepsSpacing(coins: seq<Coin>, c: Coin)
    requires CoinsSpaced(coins)
    ensures CoinsSpaced(coins + [c]) <==> !CoinNear(coins, c.z)
  {
    CoinsSpacedPairs(coins + [c]);
    if CoinNear(coins, c.z) {
      var k :| 0 <= k < |coins| && Abs(coins[k].z - c.z) < CoinGap;
      assert (coins + [c])[k] == coins[k] && (coins + [c])[|coins|] == c;
    } else {
      CoinsSpacedAppend(coins, c);
    }
  }

  /** The obstacle guard is exactly the spacing condition for obstacles. */
  lemma ObstacleNearKeepsSpacing(obstacles: seq<Obstacle>, o: Obstacle)
    requires ObstaclesSpaced(obstacles)
    ensures ObstaclesSpaced(obstacles + [o]) <==> !ObstacleNear(obstacles, o.z)
  {
    ObstaclesSpacedPairs(obstacles + [o]);
    if ObstacleNear(obstacles, o.z) {
      var k :| 0 <= k < |obstacles| && Abs(obstacles[k].z - o.z) < ObstacleGap;
      assert (obstacles + [o])[k] == obstacles[k] && (obstacles + [o])[|obstacles|] == o;
    } else {
      ObstaclesSpacedAppend(obstacles, o);
    }
  }

  /** The coin list after segment i's coin decision: the candidate is
      appended only when no coin (taken or not) lies within the spacing. */
  function CoinStep(coins: seq<Coin>, i: int, sine: real -> real, random: (int, Draw) -> real): seq<Coin>
    requires IsUnitDraw(random)
  {
    match CoinCandidate(i, sine, random)
    case None => coins
    case Some(c) => if CoinNear(coins, c.z) then coins else coins + [c]
  }

  function ObstacleStep(obstacles: seq<Obstacle>, i: int, sine: real -> real, random: (int, Draw) -> real): seq<Obstacle>
    requires IsUnitDraw(random)
  {
    match ObstacleCandidate(i, sine, random)
    case None => obstacles
    case Some(o) => if ObstacleNear(obstacles, o.z) then obstacles else obstacles + [o]
  }

  /** One segment's decision keeps every coin already placed, adds at most
      the segment's candidate, adds it exactly when the gate opens and no
      coin is near, and keeps the list spaced. */
  lemma CoinStepAppends(coins: seq<Coin>, i: int, sine: real -> real, random: (int, Draw) -> real)
    requires IsUnitDraw(random)
    ensures var r := CoinStep(coins, i, sine, random);
            && (r == coins || (|r| == |coins| + 1 && r[..|coins|] == coins))
            && (|r| > |coins| <==> CoinCandidate(i, sine, random).Some? && !CoinNear(coins, CoinCandidate(i, sine, random).value.z))
            && (|r| > |coins| ==> r[|coins|] == CoinCandidate(i, sine, random).value)
            && (CoinsSpaced(coins) ==> CoinsSpaced(r))
  {
    match CoinCandidate(i, sine, random)
    case None =>
    case Some(c) =>
      if !CoinNear(coins, c.z) {
        assert (coins + [c])[..|coins|] == coins;
        CoinsSpacedAppend(coins, c);
      }
  }

  lemma ObstacleStepAppends(obstacles: seq<Obstacle>, i: int, sine: real -> real, random: (int, Draw) -> real)
    requires IsUnitDraw(random)
    ensures var r := ObstacleStep(obstacles, i, sine, random);
            && (r == obstacles || (|r| == |obstacles| + 1 && r[..|obstacles|] == obstacles))
            && (|r| > |obstacles| <==> ObstacleCandidate(i, sine, random).Some? && !ObstacleNear(obstacles, ObstacleCandidate(i, sine, random).value.z))
            && (|r| > |obstacles| ==> r[|obstacles|] == ObstacleCandidate(i, sine, random).value)
            && (ObstaclesSpaced(obstacles) ==> ObstaclesSpaced(r))
  {
    match ObstacleCandidate(i, sine, random)
    case None =>
    case Some(o) =>
      if !ObstacleNear(obstacles, o.z) {
        assert (obstacles + [o])[..|obstacles|] == obstacles;
        ObstaclesSpacedAppend(obstacles, o);
      }
  }

  // ---------------------------------------------------------------------
  // The spawn loop over segments lo .. hi-1

  /** The coin list after the spawn loop has run over segments lo .. hi-1,
      starting from `coins`: segment lo decides first, then the rest.
      The list is part of the termination measure so that a pass over
      fixed segment numbers is unfolded only one segment at a time. */
  function SpawnCoins(coins: seq<Coin>, lo: int, hi: int, sine: real -> real, random: (int, Draw) -> real): seq<Coin>
    requires IsUnitDraw(random)
    decreases hi - lo, coins
  {
    if hi <= lo then coins
    else SpawnCoins(CoinStep(coins, lo, sine, random), lo + 1, hi, sine, random)
  }

  function SpawnObstacles(obstacles: seq<Obstacle>, lo: int, hi: int, sine: real -> real, random: (int, Draw) -> real): seq<Obstacle>
    requires IsUnitDraw(random)
    decreases hi - lo, obstacles
  {
    if hi <= lo then obstacles
    else SpawnObstacles(ObstacleStep(obstacles, lo, sine, random), lo + 1, hi, sine, random)
  }

  /** The segment loop of the spawn pass: for each segment from lo up to
      hi-1, append its coin and its obstacle unless one of the same kind
      is already near. */
  method SpawnSegments(coins: seq<Coin>, obstacles: seq<Obstacle>, lo: int, hi: int,
                       sine: real -> real, random: (int, Draw) -> real)
    returns (cs: seq<Coin>, os: seq<Obstacle>)
    requires IsUnitDraw(random)
    ensures cs == SpawnCoins(coins, lo, hi, sine, random)
    ensures os == SpawnObstacles(obstacles, lo, hi, sine, random)
  {
    cs, os := coins, obstacles;
    var i := lo;
    while i < hi
      invariant lo <= i
      invariant SpawnCoins(cs, i, hi, sine, random) == SpawnCoins(coins, lo, hi, sine, random)
      invariant SpawnObstacles(os, i, hi, sine, random) == SpawnObstacles(obstacles, lo, hi, sine, random)
      decreases hi - i
    {
      cs := CoinStep(cs, i, sine, random);
      os := ObstacleStep(os, i, sine, random);
      i := i + 1;
    }
  }

  /** A spawn pass over segments lo .. hi-1 keeps the list it starts from
      as a prefix and keeps it spaced. */
  lemma {:induction false} SpawnCoinsExtends(coins: seq<Coin>, lo: int, hi: int, sine: real -> real, random: (int, Draw) -> real)
    requires IsUnitDraw(random)
    ensures var r := SpawnCoins(coins, lo, hi, sine, random);
            && |coins| <= |r| && r[..|coins|] == coins
            && (CoinsSpaced(coins) ==> CoinsSpaced(r))
    decreases hi - lo
  {
    if lo < hi {
      var next := CoinStep(coins, lo, sine, random);
      CoinStepAppends(coins, lo, sine, random);
      SpawnCoinsExtends(next, lo + 1, hi, sine, random);
      var r := SpawnCoins(next, lo + 1, hi, sine, random);
      assert r[..|coins|] == r[..|next|][..|coins|];
    }
  }

  /** A spawn pass over segments lo .. hi-1 keeps the list it starts from
      as a prefix and keeps it spaced. */
  lemma {:induction false} SpawnObstaclesExtends(obstacles: seq<Obstacle>, lo: int, hi: int, sine: real -> real, random: (int, Draw) -> real)
    requires IsUnitDraw(random)
    ensures var r := SpawnObstacles(obstacles, lo, hi, sine, random);
            && |obstacles| <= |r| && r[..|obstacles|] == obstacles
            && (ObstaclesSpaced(obstacles) ==> ObstaclesSpaced(r))
    decreases hi - lo
  {
    if lo < hi {
      var next := ObstacleStep(obstacles, lo, sine, random);
      ObstacleStepAppends(obstacles, lo, sine, random);
      SpawnObstaclesExtends(next, lo + 1, hi, sine, random);
      var r := SpawnObstacles(next, lo + 1, hi, sine, random);
      assert r[..|obstacles|] == r[..|next|][..|obstacles|];
    }
  }

  /** Everything a spawn pass over segments lo .. hi-1 adds is a fresh
      coin. */
  lemma {:induction false} SpawnCoinsAdded(coins: seq<Coin>, lo: int, hi: int, sine: real -> real, random: (int, Draw) -> real)
    requires IsUnitDraw(random)
    ensures var r := SpawnCoins(coins, lo, hi, sine, random);
            forall k :: |coins| <= k < |r| ==> NewCoin(r[k])
    decreases hi - lo
  {
    if lo < hi {
      var next := CoinStep(coins, lo, sine, random);
      CoinStepAppends(coins, lo, sine, random);
      SpawnCoinsAdded(next, lo + 1, hi, sine, random);
      SpawnCoinsExtends(next, lo + 1, hi, sine, random);
      var r := SpawnCoins(next, lo + 1, hi, sine, random);
      forall k | |coins| <= k < |next|
        ensures NewCoin(r[k])
      {
        assert r[k] == r[..|next|][k] == next[k] == CoinCandidate(lo, sine, random).value;
      }
    }
  }

  /** Everything a spawn pass over segments lo .. hi-1 adds lies at or
      after 20 past the end of segment lo and before 120 past the
      start of segment hi, so within any window [zlo, zhi) that covers
      that span. */
  lemma {:induction false} SpawnCoinsPlaced(coins: seq<Coin>, lo: int, hi: int, zlo: real, zhi: real,
                                          sine: real -> real, random: (int, Draw) -> real)
    requires IsUnitDraw(random)
    requires zlo <= SegmentEnd(lo) + 20.0 && SegmentEnd(hi - 1) + 120.0 <= zhi
    ensures var r := SpawnCoins(coins, lo, hi, sine, random);
            forall k :: |coins| <= k < |r| ==> zlo <= r[k].z < zhi
    decreases hi - lo
  {
    if lo < hi {
      var next := CoinStep(coins, lo, sine, random);
      CoinStepAppends(coins, lo, sine, random);
      assert SegmentEnd(lo) <= SegmentEnd(lo + 1) && SegmentEnd(lo) <= SegmentEnd(hi - 1);
      SpawnCoinsPlaced(next, lo + 1, hi, zlo, zhi, sine, random);
      SpawnCoinsExtends(next, lo + 1, hi, sine, random);
      var r := SpawnCoins(next, lo + 1, hi, sine, random);
      forall k | |coins| <= k < |next|
        ensures zlo <= r[k].z < zhi
      {
        assert r[k] == r[..|next|][k] == next[k] == CoinCandidate(lo, sine, random).value;
      }
    }
  }

  /** Everything a spawn pass over segments lo .. hi-1 adds is a fresh
      obstacle. */
  lemma {:induction false} SpawnObstaclesAdded(obstacles: seq<Obstacle>, lo: int, hi: int, sine: real -> real, random: (int, Draw) -> real)
    requires IsUnitDraw(random)
    ensures var r := SpawnObstacles(obstacles, lo, hi, sine, random);
            forall k :: |obstacles| <= k < |r| ==> NewObstacle(r[k])
    decreases hi - lo
  {
    if lo < hi {
      var next := ObstacleStep(obstacles, lo, sine, random);
      ObstacleStepAppends(obstacles, lo, sine, random);
      SpawnObstaclesAdded(next, lo + 1, hi, sine, random);
      SpawnObstaclesExtends(next, lo + 1, hi, sine, random);
      var r := SpawnObstacles(next, lo + 1, hi, sine, random);
      forall k | |obstacles| <= k < |next|
        ensures NewObstacle(r[k])
      {
        assert r[k] == r[..|next|][k] == next[k] == ObstacleCandidate(lo, sine, random).value;
      }
    }
  }

  /** Everything a spawn pass over segments lo .. hi-1 adds lies at or
      after 30 past the end of segment lo and before 140 past the
      start of segment hi, so within any window [zlo, zhi) that covers
      that span. */
  lemma {:induction false} SpawnObstaclesPlaced(obstacles: seq<Obstacle>, lo: int, hi: int, zlo: real, zhi: real,
                                          sine: real -> real, random: (int, Draw) -> real)
    requires IsUnitDraw(random)
    requires zlo <= SegmentEnd(lo) + 30.0 && SegmentEnd(hi - 1) + 140.0 <= zhi
    ensures var r := SpawnObstacles(obstacles, lo, hi, sine, random);
            forall k :: |obstacles| <= k < |r| ==> zlo <= r[k].z < zhi
    decreases hi - lo
  {
    if lo < hi {
      var next := ObstacleStep(obstacles, lo, sine, random);
      ObstacleStepAppends(obstacles, lo, sine, random);
      assert SegmentEnd(lo) <= SegmentEnd(lo + 1) && SegmentEnd(lo) <= SegmentEnd(hi - 1);
      SpawnObstaclesPlaced(next, lo + 1, hi, zlo, zhi, sine, random);
      SpawnObstaclesExtends(next, lo + 1, hi, sine, random);
      var r := SpawnObstacles(next, lo + 1, hi, sine, random);
      forall k | |obstacles| <= k < |next|
        ensures zlo <= r[k].z < zhi
      {
        assert r[k] == r[..|next|][k] == next[k] == ObstacleCandidate(lo, sine, random).value;
      }
    }
  }

  // ---------------------------------------------------------------------
  // Pruning (`Array.prototype.filter`)

  /** `coins.filter(o => o.z > behind)`. */
  function PruneCoins(coins: seq<Coin>, behind: real): (r: seq<Coin>)
    ensures |r| <= |coins|
    ensures forall c :: c in r <==> c in coins && c.z > behind
  {
    if coins == [] then []
    else
      var init := coins[..|coins| - 1];
      var last := coins[|coins| - 1];
      assert coins == init + [last];
      var rest := PruneCoins(init, behind);
      if last.z > behind then
        rest + [last]
      else
        rest
  }
  /** Filtering keeps the spacing: it only removes elements. */
  lemma {:induction false} PruneCoinsSpaced(coins: seq<Coin>, behind: real)
    requires CoinsSpaced(coins)
    ensures CoinsSpaced(PruneCoins(coins, behind))
  {
    if coins != [] {
      var init := coins[..|coins| - 1];
      var last := coins[|coins| - 1];
      CoinsSpacedPairs(coins);
      CoinsSpacedPairs(init);
      assert CoinsSpaced(init);
      PruneCoinsSpaced(init, behind);
      CoinsSpacedFromLast(coins);
      CoinsSpacedAppend(PruneCoins(init, behind), last);
    }
  }


  function PruneObstacles(obstacles: seq<Obstacle>, behind: real): (r: seq<Obstacle>)
    ensures |r| <= |obstacles|
    ensures forall o :: o in r <==> o in obstacles && o.z > behind
  {
    if obstacles == [] then []
    else
      var init := obstacles[..|obstacles| - 1];
      var last := obstacles[|obstacles| - 1];
      assert obstacles == init + [last];
      var rest := PruneObstacles(init, behind);
      if last.z > behind then
        rest + [last]
      else
        rest
  }
  /** Filtering keeps the spacing: it only removes elements. */
  lemma {:induction false} PruneObstaclesSpaced(obstacles: seq<Obstacle>, behind: real)
    requires ObstaclesSpaced(obstacles)
    ensures ObstaclesSpaced(PruneObstacles(obstacles, behind))
  {
    if obstacles != [] {
      var init := obstacles[..|obstacles| - 1];
      var last := obstacles[|obstacles| - 1];
      ObstaclesSpacedPairs(obstacles);
      ObstaclesSpacedPairs(init);
      assert ObstaclesSpaced(init);
      PruneObstaclesSpaced(init, behind);
      ObstaclesSpacedFromLast(obstacles);
      ObstaclesSpacedAppend(PruneObstacles(init, behind), last);
    }
  }

  /** The filter keeps every coin strictly ahead of the bound with all its
      copies, and no copy of any other. */
  lemma {:induction false} PruneCoinsCounts(coins: seq<Coin>, behind: real)
    ensures forall c :: multiset(PruneCoins(coins, behind))[c] == if c.z > behind then multiset(coins)[c] else 0
  {
    if coins != [] {
      var init := coins[..|coins| - 1];
      assert coins == init + [coins[|coins| - 1]];
      PruneCoinsCounts(init, behind);
    }
  }

  /** The filter keeps every obstacle strictly ahead of the bound with all
      its copies, and no copy of any other. */
  lemma {:induction false} PruneObstaclesCounts(obstacles: seq<Obstacle>, behind: real)
    ensures forall o :: multiset(PruneObstacles(obstacles, behind))[o] == if o.z > behind then multiset(obstacles)[o] else 0
  {
    if obstacles != [] {
      var init := obstacles[..|obstacles| - 1];
      assert obstacles == init + [obstacles[|obstacles| - 1]];
      PruneObstaclesCounts(init, behind);
    }
  }


  /** `popups.filter(p => p.t < 1)`. */
  function PrunePopups(popups: seq<Popup>): (r: seq<Popup>)
    ensures |r| <= |popups|
    ensures forall p :: p in r <==> p in popups && p.t < 1.0
  {
    if popups == [] then []
    else
      var init := popups[..|popups| - 1];
      var last := popups[|popups| - 1];
      assert popups == init + [last];
      PrunePopups(init) + if last.t < 1.0 then [last] else []
  }

  /** Identical popups (two pickups in one frame push equal records) all
      survive together: every popup younger than 1 keeps all its copies,
      and no copy of an older one is kept. */
  lemma {:induction false} PrunePopupsCounts(popups: seq<Popup>)
    ensures forall p :: multiset(PrunePopups(popups))[p] == if p.t < 1.0 then multiset(popups)[p] else 0
  {
    if popups != [] {
      var init := popups[..|popups| - 1];
      assert popups == init + [popups[|popups| - 1]];
      PrunePopupsCounts(init);
    }
  }

  // ---------------------------------------------------------------------
  // Bounded memory: spaced objects in a window of fixed length

  /** Most coins that can be live after a spawn pass. */
  const MaxLiveCoins: int := 925
  /** Most obstacles that can be live after a spawn pass. */
  const MaxLiveObstacles: int := 463

  /** The index of a largest element. */
  function ArgMax(zs: seq<real>): (m: nat)
    requires |zs| > 0
    ensures m < |zs| && forall k :: 0 <= k < |zs| ==> zs[k] <= zs[m]
  {
    if |zs| == 1 then 0
    else
      var m := ArgMax(zs[..|zs| - 1]);
      if zs[|zs| - 1] > zs[m] then |zs| - 1 else m
  }

  /** Removing a largest point of a spaced set in (lo, hi] leaves a spaced
      set whose points lie in (lo, top - gap], where top <= hi is the
      removed point. */
  lemma DropLargest(zs: seq<real>, lo: real, hi: real, gap: real) returns (rest: seq<real>, top: real)
    requires |zs| > 0 && Spaced(zs, gap)
    requires forall k :: 0 <= k < |zs| ==> lo < zs[k] <= hi
    ensures |rest| == |zs| - 1 && Spaced(rest, gap)
    ensures top <= hi
    ensures forall k :: 0 <= k < |rest| ==> lo < rest[k] <= top - gap
  {
    var m := ArgMax(zs);
    top := zs[m];
    rest := zs[..m] + zs[m + 1..];
    forall k | 0 <= k < |rest|
      ensures rest[k] == zs[Skip(k, m)] && Skip(k, m) != m
      ensures rest[k] <= top - gap
    {
      assert Apart(zs, Skip(k, m), m) >= gap;
      if k < m {
        assert rest[k] == zs[..m][k];
      } else {
        assert rest[k] == zs[m + 1..][k - m];
      }
    }
    forall i, j | 0 <= i < |rest| && 0 <= j < |rest| && i != j
      ensures Apart(rest, i, j) >= gap
    {
      assert Apart(zs, Skip(i, m), Skip(j, m)) >= gap;
    }
  }

  /** The index in the original list of position k once index m is removed. */
  function Skip(k: nat, m: nat): nat
  {
    if k < m then k else k + 1
  }

  lemma MulSucc(n: nat, gap: real)
    ensures (n + 1) as real * gap == n as real * gap + gap
  {
  }

  /** Points in (lo, hi] that are pairwise at least `gap` apart number at
      most (hi - lo) / gap + 1. */
  lemma {:induction false} SpacedCount(zs: seq<real>, lo: real, hi: real, gap: real)
    requires 0.0 < gap && lo <= hi
    requires forall k :: 0 <= k < |zs| ==> lo < zs[k] <= hi
    requires Spaced(zs, gap)
    ensures |zs| as real * gap <= hi - lo + gap
    decreases |zs|
  {
    if |zs| > 0 {
      var rest, top := DropLargest(zs, lo, hi, gap);
      MulSucc(|rest|, gap);
      if |rest| > 0 {
        assert lo < rest[0];
        SpacedCount(rest, lo, top - gap, gap);
      }
    }
  }

  /** After a spawn pass every live coin lies in a window of fixed length
      ahead of the pruning bound, so the list holds at most 925 coins. */
  lemma LiveCoinsBounded(coins: seq<Coin>, z: real)
    requires CoinsSpaced(coins)
    requires forall k :: 0 <= k < |coins| ==> BehindZ(z) < coins[k].z < Horizon(z)
    ensures |coins| <= MaxLiveCoins
  {
    var zs := CoinPositions(coins);
    SpacedCount(zs, BehindZ(z), z + (DrawDist + 1) as real * SegLength, CoinGap);
  }

  /** The same bound for obstacles: at most 463 live obstacles. */
  lemma LiveObstaclesBounded(obstacles: seq<Obstacle>, z: real)
    requires ObstaclesSpaced(obstacles)
    requires forall k :: 0 <= k < |obstacles| ==> BehindZ(z) < obstacles[k].z < Horizon(z)
    ensures |obstacles| <= MaxLiveObstacles
  {
    var zs := ObstaclePositions(obstacles);
    SpacedCount(zs, BehindZ(z), z + (DrawDist + 1) as real * SegLength, ObstacleGap);
  }
  // ---------------------------------------------------------------------
  // One spawn pass as a whole: prune, then walk the segments ahead

  /** Every coin is in the coin lanes and before the horizon of camera z. */
  ghost predicate CoinsInView(coins: seq<Coin>, z: real)
  {
    forall k :: 0 <= k < |coins| ==> InCoinLanes(coins[k]) && coins[k].z < Horizon(z)
  }

  ghost predicate ObstaclesInView(obstacles: seq<Obstacle>, z: real)
  {
    forall k :: 0 <= k < |obstacles| ==> WellShaped(obstacles[k]) && obstacles[k].z < Horizon(z)
  }

  /** Nothing lies at or behind the pruning bound of camera z. */
  ghost predicate CoinsAhead(coins: seq<Coin>, z: real)
  {
    forall k :: 0 <= k < |coins| ==> BehindZ(z) < coins[k].z
  }

  ghost predicate ObstaclesAhead(obstacles: seq<Obstacle>, z: real)
  {
    forall k :: 0 <= k < |obstacles| ==> BehindZ(z) < obstacles[k].z
  }

  /** The coin list after a spawn pass with the camera at z. */
  function SpawnPassCoins(coins: seq<Coin>, z: real, sine: real -> real, random: (int, Draw) -> real): seq<Coin>
    requires IsUnitDraw(random)
  {
    SpawnCoins(PruneCoins(coins, BehindZ(z)), CamSeg(z), CamSeg(z) + DrawDist, sine, random)
  }

  function SpawnPassObstacles(obstacles: seq<Obstacle>, z: real, sine: real -> real, random: (int, Draw) -> real): seq<Obstacle>
    requires IsUnitDraw(random)
  {
    SpawnObstacles(PruneObstacles(obstacles, BehindZ(z)), CamSeg(z), CamSeg(z) + DrawDist, sine, random)
  }

  /** A spawn pass keeps the coins spaced and in view, leaves nothing
      behind the pruning bound, and so leaves at most 925 coins. */
  lemma SpawnPassCoinsLive(coins: seq<Coin>, z: real, sine: real -> real, random: (int, Draw) -> real)
    requires IsUnitDraw(random)
    requires CoinsSpaced(coins) && CoinsInView(coins, z)
    ensures var r := SpawnPassCoins(coins, z, sine, random);
            CoinsSpaced(r) && CoinsInView(r, z) && CoinsAhead(r, z) && |r| <= MaxLiveCoins
  {
    var kept := PruneCoins(coins, BehindZ(z));
    var r := SpawnPassCoins(coins, z, sine, random);
    PruneCoinsSpaced(coins, BehindZ(z));
    SpawnCoinsExtends(kept, CamSeg(z), CamSeg(z) + DrawDist, sine, random);
    SpawnCoinsAdded(kept, CamSeg(z), CamSeg(z) + DrawDist, sine, random);
    SpawnCoinsPlaced(kept, CamSeg(z), CamSeg(z) + DrawDist, SegmentEnd(CamSeg(z)) + 20.0, Horizon(z), sine, random);
    forall k | 0 <= k < |r|
      ensures InCoinLanes(r[k]) && BehindZ(z) < r[k].z < Horizon(z)
    {
      if k < |kept| {
        assert r[k] == kept[k] && kept[k] in kept;
        var j :| 0 <= j < |coins| && coins[j] == kept[k];
      }
    }
    LiveCoinsBounded(r, z);
  }

  /** The world part of the spawn pass with the camera at z: prune what
      is far behind, then walk the segments from the camera's to
      `drawDist` ahead. */
  method SpawnPass(coins: seq<Coin>, obstacles: seq<Obstacle>, z: real,
                   sine: real -> real, random: (int, Draw) -> real)
    returns (cs: seq<Coin>, os: seq<Obstacle>)
    requires IsUnitDraw(random)
    requires CoinsSpaced(coins) && CoinsInView(coins, z)
    requires ObstaclesSpaced(obstacles) && ObstaclesInView(obstacles, z)
    ensures cs == SpawnPassCoins(coins, z, sine, random)
    ensures os == SpawnPassObstacles(obstacles, z, sine, random)
    ensures CoinsSpaced(cs) && CoinsInView(cs, z) && CoinsAhead(cs, z) && |cs| <= MaxLiveCoins
    ensures ObstaclesSpaced(os) && ObstaclesInView(os, z) && ObstaclesAhead(os, z) && |os| <= MaxLiveObstacles
  {
    var camSeg := CamSeg(z);
    var behindZ := BehindZ(z);
    cs, os := SpawnSegments(PruneCoins(coins, behindZ), PruneObstacles(obstacles, behindZ),
                            camSeg, camSeg + DrawDist, sine, random);
    SpawnPassCoinsLive(coins, z, sine, random);
    SpawnPassObstaclesLive(obstacles, z, sine, random);
  }

  lemma SpawnPassObstaclesLive(obstacles: seq<Obstacle>, z: real, sine: real -> real, random: (int, Draw) -> real)
    requires IsUnitDraw(random)
    requires ObstaclesSpaced(obstacles) && ObstaclesInView(obstacles, z)
    ensures var r := SpawnPassObstacles(obstacles, z, sine, random);
            ObstaclesSpaced(r) && ObstaclesInView(r, z) && ObstaclesAhead(r, z) && |r| <= MaxLiveObstacles
  {
    var kept := PruneObstacles(obstacles, BehindZ(z));
    var r := SpawnPassObstacles(obstacles, z, sine, random);
    PruneObstaclesSpaced(obstacles, BehindZ(z));
    SpawnObstaclesExtends(kept, CamSeg(z), CamSeg(z) + DrawDist, sine, random);
    SpawnObstaclesAdded(kept, CamSeg(z), CamSeg(z) + DrawDist, sine, random);
    SpawnObstaclesPlaced(kept, CamSeg(z), CamSeg(z) + DrawDist, SegmentEnd(CamSeg(z)) + 30.0, Horizon(z), sine, random);
    forall k | 0 <= k < |r|
      ensures WellShaped(r[k]) && BehindZ(z) < r[k].z < Horizon(z)
    {
      if k < |kept| {
        assert r[k] == kept[k] && kept[k] in kept;
        var j :| 0 <= j < |obstacles| && obstacles[j] == kept[k];
      }
    }
    LiveObstaclesBounded(r, z);
  }
}
