# Driving game simulation core, in Dafny

This project models the simulation of a browser arcade driving game. The
game keeps one shared `game` record and one `save` profile. Each frame it:

- steers the car and eases its speed toward a target that grows with the
  distance driven;
- moves the camera forward;
- prunes objects left far behind and walks the road segments ahead of the
  camera, placing coins and obstacles at pseudo-random positions;
- resolves pickups, hits and falling off the road.

A run starts from the menu with fresh statistics and no coins. It restarts
in place when the car leaves the road, and goes back to the menu on request.
The restart and the return to the menu each add the run's coins to the
profile. The shop spends banked coins to unlock body styles.

The modules follow that structure:

- `Numeric`: `clamp`, `lerp`, `rand`, `Math.abs`/`max`/`min` and the
  fractional part the hash uses. All numbers are `real`.
- `Projection`: `project`, the pseudo-3D projection, with its scale bounds,
  monotonicity in depth, and which side of the screen centre a point lands.
- `World`:
  - the coin, obstacle and popup records and the segment-indexed hash;
  - one segment's spawn decision (`CoinStep`, `ObstacleStep`) and the
    segment loop (`SpawnSegments`), specified by `SpawnCoins` and
    `SpawnObstacles`;
  - pruning, and the whole spawn pass (`SpawnPass`).

  The key invariant is spacing: no two coins are less than 40 apart in
  depth, and no two obstacles less than 80. The spawn guard keeps this
  invariant. Together with the pruning bound it caps the number of live
  objects (`LiveCoinsBounded`, `LiveObstaclesBounded`). So the lists stay
  bounded however long a run lasts: at most 925 coins and 463 obstacles.
- `Collision`: the pickup and hit loops (`PickUp`, `Strike`). They are
  specified by `Collect`/`MarkHits` and the counts `PickupCount`/`HitCount`,
  with their properties:
  - each object is handled on its own;
  - every pickup is counted exactly once;
  - both passes are idempotent;
  - repeated hit penalties have a closed form.
- `Shop`: the `save` profile as a class, and the style click handler.
  `Purchase` is the pure transaction behind the handler.
- `Simulation`: the `game` record as the class `Game`.
  - Its `Valid()` invariant holds spacing, lanes and the horizon for every
    object, the clamp ranges of the car, a non-negative score, and
    `distance == z`.
  - The methods `SpawnAhead`, `CheckCollisions` (built from `TakeCoins`,
    `HitObstacles` and `Announce`), `Advance` (built from `Drive`, `Travel`
    and `SpinCoins`) and `Update` change the game state each frame.
  - The run controller is `StartRun`, `ResetRun` and `StopRunToMenu`.

`Math.sin` inside the hash is the parameter `sine`, left unconstrained: the
hash lies in [0,1) whatever the sine returns. Every `Math.random()`
draw of a spawn pass is `random(segment, channel)`, a value in [0,1). The
smoothing factors `1 - 0.0001^dt` and `1 - 0.001^dt` are parameters in
[0,1]. The frame driver clamps `dt` to [0, 0.033]; that clamp is a
precondition of `Update`. Sounds are kept as an event log.

Some behaviours of the code differ from what one might expect, and the
model follows the code:

- A picked-up coin stays in the list with `taken` set until it is pruned.
  It still counts for the spacing guard.
- `stopRunToMenu` banks the run's coins but does not zero `runCoins` or
  clear the world. Those are reset by the next `startRun`.
- The off-road reset banks the coins picked up in the same frame as well.
  This is because the pickup loop runs before the off-road test.
- The spacing guard tests the coins present at that moment. It does not
  remember which segments already spawned. A later frame therefore draws a
  new jitter for the same segment and may add a second coin for it, at
  least 40 away from the first.
- The shop's click handler tests a flag `unlocked` captured when the shop
  was last rebuilt. The model reads the current profile instead. The flag
  depends only on the unlocked set and the price, not on the banked coins.
  The unlocked set changes only by a purchase, or by marking the free style,
  which the flag counts as unlocked anyway. The shop is rebuilt after
  each purchase (game.js:1083) and each time it opens (game.js:1262). So the
  captured flag always equals the current one.

## Model

| member | source | states |
|---|---|---|
| Numeric.Clamp | game.js:54 | the result lies in [lo, hi]; it is v inside the range, lo below it and hi above it |
| Numeric.Lerp | game.js:55 | for t in [0,1] the result lies between a and b and is no farther from b than a; t = 0 gives a, t = 1 gives b |
| Numeric.Rand | game.js:56 | for a draw in [0,1), `rand(a, b)` lies in [a, b), or is exactly a when a == b |
| World.Hash | game.js:252-256 | the hash lies in [0,1) whatever the sine returns |
| World.CamSeg | game.js:259 | the camera segment is the one whose span [s·160, (s+1)·160) holds z |
| Projection.Project | game.js:230-236 | for a positive camera depth the scale lies in (0, camDepth/0.0001]; it is exactly the cap at or behind the camera; a point on the camera's axis lands at the screen centre |
| Projection.ScaleNonIncreasing | game.js:231-232 | a point farther ahead never gets a larger scale |
| Projection.ProjectSides | game.js:233-234 | a point right of the camera lands right of the centre, and a point above it lands above the centre, and conversely |
| World.CoinCandidate | game.js:271-285 | a segment offers a coin exactly when its hash gate is below 0.08; the coin is untaken, in the lanes [-0.75, 0.75], of radius 26, 20 to 120 past the segment's end |
| World.ObstacleCandidate | game.js:288-302 | a segment offers an obstacle exactly when its gate is below 0.055; it is not hit, in [-0.8, 0.8], a cone (40×58) exactly when the type hash is below 0.5 and otherwise a block (80×50), 30 to 140 past the segment's end |
| World.CoinNearKeepsSpacing | game.js:275 | on a spaced list, appending a coin keeps it spaced if and only if the guard finds no coin, taken or not, within 40 |
| World.ObstacleNearKeepsSpacing | game.js:291 | on a spaced list, appending an obstacle keeps it spaced if and only if the guard finds no obstacle, hit or not, within 80 |
| World.CoinStepAppends | game.js:271-285 | one segment's coin decision keeps the list as a prefix and appends at most its candidate; it appends exactly when the gate opens and no coin is near; spacing is kept |
| World.ObstacleStepAppends | game.js:288-302 | the same for obstacles, with the 80 spacing |
| World.SpawnSegments | game.js:269-304 | the segment loop computes the spawn-pass functions `SpawnCoins` and `SpawnObstacles` over segments lo to hi-1 |
| World.SpawnCoinsExtends | game.js:269-285 | a pass over any run of segments keeps the starting list as a prefix and keeps coins spaced |
| World.SpawnObstaclesExtends | game.js:269-304 | a pass keeps the starting obstacles as a prefix and keeps them spaced |
| World.SpawnCoinsAdded | game.js:276-283 | every coin a pass adds is untaken, in the lanes, on the road surface, of radius 26 |
| World.SpawnObstaclesAdded | game.js:292-300 | every obstacle a pass adds is not hit, in [-0.8, 0.8], with the footprint of its kind |
| World.SpawnCoinsPlaced | game.js:274 | every coin a pass adds lies between 20 past the first segment and 120 past the last |
| World.SpawnObstaclesPlaced | game.js:290 | every obstacle a pass adds lies between 30 past the first segment and 140 past the last |
| World.PruneCoins | game.js:263-264 | the filter keeps exactly the coins strictly ahead of the bound, and never grows the list |
| World.PruneCoinsCounts | game.js:264 | each coin strictly ahead of the bound keeps all its copies, and no copy of any other coin is kept |
| World.PruneObstacles | game.js:263-265 | the filter keeps exactly the obstacles strictly ahead of the bound, and never grows the list |
| World.PruneObstaclesCounts | game.js:265 | each obstacle strictly ahead of the bound keeps all its copies, and no copy of any other obstacle is kept |
| World.PrunePopups | game.js:266 | the filter keeps exactly the popups with age below 1, and never grows the list |
| World.PrunePopupsCounts | game.js:266 | each popup with age below 1 keeps all its copies (equal "+35" records included), and no copy of an older one is kept |
| World.PruneCoinsSpaced | game.js:264 | pruning keeps the coins spaced |
| World.PruneObstaclesSpaced | game.js:265 | pruning keeps the obstacles spaced |
| World.CoinsSpacedPairs | game.js:275 | spacing holds exactly when every two distinct coins are at least 40 apart |
| World.ObstaclesSpacedPairs | game.js:291 | spacing holds exactly when every two distinct obstacles are at least 80 apart |
| World.SpacedCount | game.js:275 | points in a window of length L that are pairwise at least gap apart number at most L/gap + 1 |
| World.LiveCoinsBounded | game.js:263-274 | spaced coins between the pruning bound and the spawn horizon number at most 925 |
| World.LiveObstaclesBounded | game.js:263-290 | spaced obstacles in that window number at most 463 |
| World.SpawnPassCoinsLive | game.js:258-286 | after a pass, every coin is spaced, in its lanes, strictly ahead of `z - 1600` and before the horizon, and there are at most 925 |
| World.SpawnPassObstaclesLive | game.js:258-303 | the same for obstacles, with at most 463 |
| World.SpawnPass | game.js:258-305 | prune-then-walk computes the spawn-pass functions, and its result is spaced, in view, ahead of the pruning bound and bounded in size |
| Collision.PickUp | game.js:861-871 | the pickup loop marks exactly the coins `Collect` marks and counts exactly `PickupCount` pickups |
| Collision.Strike | game.js:874-884 | the hit loop marks exactly the obstacles `MarkHits` marks, counts the hits, and leaves speed and score at h successive slowdowns and penalties |
| Collision.Penalize | game.js:881 | after at least one hit the score is non-negative, and a non-negative score stays non-negative |
| Collision.SlowDown | game.js:880 | after at least one hit the speed is at least 120, and it never exceeds max(120, old speed) |
| Collision.CollectPointwise | game.js:861-865 | each coin ends up taken exactly when it was taken or in reach, and nothing else about it changes |
| Collision.MarkHitsPointwise | game.js:874-878 | each obstacle ends up hit exactly when it was hit or in reach, and nothing else about it changes |
| Collision.CollectPrefix | game.js:861 | the pickup result of a prefix is the prefix of the pickup result |
| Collision.MarkHitsPrefix | game.js:874 | the hit result of a prefix is the prefix of the hit result |
| Collision.CollectCountsPickups | game.js:865-866 | the taken coins grow by exactly the pickup count |
| Collision.MarkHitsCountsHits | game.js:878 | the hit obstacles grow by exactly the hit count |
| Collision.CollectIdempotent | game.js:862 | a second pickup pass from the same hitbox takes nothing and changes nothing |
| Collision.MarkHitsIdempotent | game.js:875 | a second hit pass hits nothing and changes nothing |
| Collision.CoinAtHitboxPicked | game.js:862-865 | an untaken coin exactly at the hitbox is taken, and the pickup count is at least 1 |
| Collision.PenalizeClosedForm | game.js:881 | h penalties give `max(0, score - 60h)` |
| Collision.SlowDownClosedForm | game.js:880 | h slowdowns give `max(120, speed·0.65^h)` |
| Collision.Decayed | game.js:880 | `speed·0.65^h` lies in [0, speed] for a non-negative speed |
| Shop.Price | game.js:139-143 | only the hatch is free |
| Shop.Purchase | game.js:1061-1089 | selects an unlocked or free style; otherwise buys it exactly when the coins cover the price, deducting exactly the price and adding it to the unlocked set; otherwise changes nothing; coins never go negative |
| Shop.Save.constructor | game.js:147-153 | the default profile: no coins, hatch selected, only the hatch unlocked |
| Shop.Save.Bank | game.js:966 | adds the run's coins and leaves the styles alone |
| Shop.Save.UnlockFreeStyles | game.js:1062 | the free style is unlocked and nothing else changes |
| Shop.Save.ClickStyle | game.js:1067-1089 | the click's outcome, coins and unlocked set are those of `Purchase`; the style is selected unless the coins fall short, in which case the profile is unchanged |
| Simulation.SteerTarget | game.js:895 | the steering intent is -1, 0 or +1, according to the held keys |
| Simulation.DesiredBase | game.js:900 | the target speed lies in [220, 720]; for a non-negative distance it is `min(720, 220 + 0.06·distance)` |
| Simulation.SpeedNorm | game.js:904 | the shake factor lies in [0,1] |
| Simulation.Game.constructor | game.js:185-216 | the record before the first run: not running, everything zero and empty |
| Simulation.Game.SpawnAhead | game.js:258-305 | the lists become the spawn-pass functions of the old lists and popups are pruned; the record stays valid, and afterwards nothing is behind the pruning bound and the lists are bounded; nothing else changes |
| Simulation.Game.TakeCoins | game.js:861-871 | coins become `Collect` of the old coins; each pickup adds 1 run coin, 35 score, one "+35" popup and one coin sound; nothing else changes |
| Simulation.Game.HitObstacles | game.js:874-884 | obstacles become `MarkHits`; speed and score are slowed down and penalized once per hit; one "-60" popup and one hit sound per hit; nothing else changes |
| Simulation.Game.Announce | game.js:868-869 | appends n copies of the popup and n sound events and changes nothing else; it is used for the pickup sound and popup (868-869) and for the hit sound and popup (879, 882) |
| Simulation.Game.CheckCollisions | game.js:855-890 | off road: a fresh run, with the old run coins plus this frame's pickups banked and the sounds of the pickups, hits and reset logged; on the road: pickups then hits, with the combined score, speed, popups and sounds, and the profile untouched |
| Simulation.Game.Drive | game.js:895-905 | steering eases toward the held direction; the car moves by the new steering within ±1.35; speed eases toward the target from the old distance; shake follows the new speed |
| Simulation.Game.Travel | game.js:907-911 | z and distance advance by the same `speed·dt`, the score by 0.02 of it, and z never moves back |
| Simulation.Game.SpinCoins | game.js:914 | every coin's rotation advances by delta and nothing else changes |
| Simulation.Game.Advance | game.js:895-914 | the composed state step: steering, lateral clamp, speed between the old speed and the target and no farther from the target, shake, forward travel, coin spin; the record stays valid |
| Simulation.Game.Update | game.js:893-917 | one frame keeps the record and the profile valid, leaves the lists settled and bounded, never decreases the banked coins and never touches the styles |
| Simulation.Game.ClearObjects | game.js:952-954 | the three object lists become empty and nothing else changes |
| Simulation.Game.ToStartLine | game.js:945-950 | the car is at the start line at base speed with zero score, run coins, distance and z |
| Simulation.Game.RestartWorld | game.js:945-956 | a fresh run: start line, empty lists, then one spawn pass from segment 0 |
| Simulation.Game.StartRun | game.js:939-960 | running, with a fresh run |
| Simulation.Game.ResetRun | game.js:962-980 | banks exactly the run coins, logs the reset sound, and leaves a fresh run with `running` unchanged |
| Simulation.Game.StopRunToMenu | game.js:982-989 | banks exactly the run coins and stops running; no other field changes |
| Simulation.CollectKeepsShape | game.js:865 | marking coins taken moves none, so spacing, view and the pruning bound carry over |
| Simulation.MarkHitsKeepsShape | game.js:878 | marking obstacles hit moves none, so the same carries over |
| Simulation.SpunKeepsShape | game.js:914 | spinning moves no coin, and a forward camera only widens the view |
| Simulation.SlowDownBounded | game.js:880 | hits keep the speed within [0, 720] |

## Left out

- Rendering (canvas drawing, colour blending, the preview) is not modelled. It draws and changes no game state.
- Audio is not modelled beyond the event log `sounds`. The log records the coin, hit and reset sounds, but not the shop's click sound.
- Persistence (`localStorage`, JSON) is not modelled. The profile lives in memory, and every `saveSave` call is left out.
- The DOM, input wiring, screens, toasts and HUD text are not modelled. The held keys and the viewport size are parameters.
- The `requestAnimationFrame` driver and `lastT` are not modelled. The `dt` clamp it applies is a precondition of `Update`.
- Colour and wheel selection and night mode are not modelled. They set `save.selectedColor`, `save.selectedWheel` (game.js:1026, 1050) and `game.night` (game.js:993). They are read only for drawing, the car preview and on-screen labels (for example game.js:397, 699-700, 994), so no modelled operation depends on them.
- `Math.sin` is an unconstrained parameter. `Math.random` and `Math.pow` are parameters with their ranges. Numbers are reals, so IEEE rounding is not modelled.
- The popup age advance (done by the renderer) is not modelled. The model only prunes popups by age.
- Simulation.Game.Update: states the invariants one frame keeps, not the composed new state. That state is the composition of the contracts of `Advance`, `SpawnAhead` and `CheckCollisions`.
- Simulation.Game.ToStartLine: the game's code resets these fields before it empties the lists, and the model empties the lists first. The two groups of fields are disjoint, so the end state is the same.
- Projection.Project: requires a non-zero screen width and height. For a zero-size canvas the game's code divides by zero and yields NaN or Infinity, which reals cannot represent.
