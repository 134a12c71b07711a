# Arena fight model

A Dafny model of the arena fight in the game's `ArenaWidget` (main.py).
A green player box and a red enemy box stand in a rectangular arena. Every
frame the attack cooldown runs down, the player moves from the held
direction buttons, the enemy takes one step toward the player on each axis,
both boxes are clamped into the arena, and if they touch the player loses
one hit point and the enemy is thrown away. When the hit points run out the
game screen receives a failure notification with the score; otherwise it
receives a display refresh. When its cooldown has run out, the attack button
restarts a 0.35-second cooldown; if the enemy is within range it also scores a
point and knocks the enemy back.

Files:

- `geometry.dfy` (module `Geometry`): positions and sizes, the clamp into
  the arena (`_clamp_in_bounds`) and the rectangle collision test
  (`_rect_hit`), with their properties.
- `arena.dfy` (module `Arena`): the game state as a value, the pure functions
  `AttackStep` and `StepFrame` giving the effect of one attack and one frame,
  and the class `ArenaWidget`, whose fields hold the state and whose methods
  update them in place. Each method is proved to change its fields exactly as
  the matching function says.
- `frames.dfy` (module `Play`): any sequence of frames and attacks, and what
  such a sequence can do to the state: at most one point per cooldown, at
  most one hit point per frame, boxes that stay inside the arena.

Units. The source writes every length as `dp(k)`, k density-independent
pixels times the screen density. The model measures all lengths in
density-independent pixels. Every operation compares lengths, adds them or
scales them by a dimensionless factor, and the attack range compares a
squared distance with a squared range, so the behaviour at density d is the
modelled behaviour with every length multiplied by d.

Frames and callbacks. `update` reports to the game screen by calling
`on_fail` or `on_hud` when such an attribute exists and is callable. The
model returns the notification as an `Event` value instead. The fields
`failHandler` and `hudHandler` say whether the callbacks are attached.

## Model

| member | source | states |
|---|---|---|
| Geometry.ClampAxis | main.py:289-294 | One clamped coordinate is never negative and at most a non-negative limit; an input in [0, limit] is kept, a negative input becomes 0, an input above a non-negative limit becomes the limit, and a negative limit gives 0. |
| Geometry.Clamp | main.py:289-294 | The clamped position has non-negative coordinates; when the box fits the arena it lies inside the arena; a box already inside is not moved. |
| Geometry.ClampIdempotent | main.py:289-294 | Clamping an already clamped position changes nothing, for any arena and box size. |
| Geometry.RectHit | main.py:368-374 | The hit test holds exactly when the boxes overlap on the x axis and on the y axis, which for non-negative sizes means the two closed intervals share a point on each axis. |
| Geometry.RectHitSymmetric | main.py:368-374 | The hit test gives the same answer with its two boxes swapped. |
| Geometry.RectHitTouching | main.py:368-374 | Boxes whose edges only touch (x1 + w1 == x2) count as a hit, because every comparison in the test is strict. |
| Geometry.RectHitIffSharedPoint | main.py:368-374 | For boxes of non-negative size, the hit test holds exactly when the two closed boxes share a point. |
| Arena.DifficultyOf | main.py:273-283 | The easy name gives (1.8, 0.85), the hard name (3.2, 1.25), every other string, the normal name included, (2.2, 1.0); speed and aggressiveness are always positive. |
| Arena.DifficultyOrdersChaseSpeed | main.py:273-283 | The enemy's step per frame is strictly smaller on easy than on normal, and on normal than on hard. |
| Arena.InRangeSymmetric | main.py:302-306 | The squared-distance range test does not depend on which box is the player. |
| Arena.InRangeWithinBox | main.py:302-306 | An enemy within range is at most 80 away along each axis. |
| Arena.KnockbackShort | main.py:306-310 | An attack that lands pushes the enemy, before clamping, at most 12 along each axis (0.15 of the 80 range). |
| Arena.Knockback | main.py:309-310 | The knocked-back enemy lies on the line from the player through the enemy, 1.15 times as far from the player. |
| Arena.AttackStep | main.py:296-311 | During a running cooldown nothing changes. Otherwise the cooldown becomes 0.35, the player and hit points stay, and the score rises by exactly one iff the enemy is in range; then the enemy is knocked back and clamped, out of range it stays. Validity and containment are kept. |
| Arena.CooldownAfter | main.py:314-316 | A running cooldown becomes max(0, cooldown - dt); one at zero stays at zero; a non-negative cooldown stays non-negative and never grows for dt >= 0. |
| Arena.Velocity | main.py:318-328 | Each velocity component is -1, 0 or 1; it is +1 exactly when only the positive button of that axis is held and -1 exactly when only the negative one is. |
| Arena.MovedPlayer | main.py:330-332 | The player moves `PlayerSpeed` (4) along each held axis in the direction of `Velocity`, exactly so whenever that position is inside the arena; the result is never negative, lies inside an arena that fits it, and an inside player holding no direction stays put. |
| Arena.ChaseAxis | main.py:334-344 | Each enemy coordinate changes by exactly +step, 0 or -step before clamping, from the two sequential tests. |
| Arena.ChaseAxisCases | main.py:334-344 | For a positive step: an enemy at least one step below the player steps up; one less than a step below stays put; one above always steps down; from below it never passes the player. |
| Arena.ChasedEnemy | main.py:334-346 | The enemy takes one `ChaseAxis` step of speed times aggressiveness toward the moved player on each axis, exactly so whenever that position is inside the arena; the result is never negative and lies inside an arena that fits it. |
| Arena.Bounced | main.py:349-354 | A collision throws the enemy +60 on both axes, exactly so whenever that position is inside the arena; an enemy that was inside never moves down or left, and the result lies inside an arena that fits it. |
| Arena.HudOf | main.py:362-366 | The display refresh is sent exactly when its callback is attached, and then carries the current hit points and score; otherwise nothing is sent. |
| Arena.StepFrame | main.py:313-366 | One frame: cooldown as `CooldownAfter`, player as `MovedPlayer`; the score and difficulty never change; exactly one hit point is lost iff the boxes touch after both moves; the failure notification is sent iff a callback is attached and the hit leaves at most zero hit points, carrying the score, and then no display refresh is sent; validity is kept and both boxes end inside an arena that fits them. |
| Arena.StartApart | main.py:220-226 | The two start positions do not touch, so a new game does not lose a hit point before anything moves. |
| Arena.ArenaWidget.constructor | main.py:216-250 | A new widget has the start positions, 3 hit points, score 0, cooldown 0, the normal difficulty and no button held. |
| Arena.ArenaWidget.Reset | main.py:265-271 | Positions, hit points, score and cooldown return to their start values; the difficulty is not touched. |
| Arena.ArenaWidget.SetDifficulty | main.py:273-283 | The enemy's speed and aggressiveness become `DifficultyOf(diff)`. |
| Arena.ArenaWidget.PlayerAttack | main.py:296-311 | The fields change exactly as `AttackStep` says. |
| Arena.ArenaWidget.RunDownCooldown | main.py:314-316 | The cooldown becomes `CooldownAfter(cooldown, dt)`; the state stays valid. |
| Arena.ArenaWidget.MovePlayer | main.py:318-332 | The player position becomes `MovedPlayer` of the old position and the held buttons; the state stays valid. |
| Arena.ArenaWidget.ChaseEnemy | main.py:334-346 | The enemy position becomes `ChasedEnemy` toward the moved player; the state stays valid. |
| Arena.ArenaWidget.Collide | main.py:348-366 | On a hit one hit point is lost and the enemy bounces; the returned event is the failure notification when hit points ran out, the display refresh otherwise; the state stays valid. |
| Arena.ArenaWidget.Update | main.py:313-366 | The new fields and the returned event are exactly `StepFrame` of the old state, and the state stays valid. |
| Play.RunBounds | main.py:296-366 | Any sequence of frames and attacks keeps the state valid and the difficulty fixed, loses at most one hit point per frame and gains at most one point per attack, never gaining hit points or losing score; hit points lost plus points gained are at most the number of calls. |
| Play.RunPlaced | main.py:289-354 | In an arena that fits both boxes, boxes that start inside stay inside through any sequence of calls. |
| Play.CoolingIgnoresAttacks | main.py:296-300 | While less time has passed than the running cooldown, every attack is ignored and the cooldown has dropped by exactly the time passed. |
| Play.OnePointPerCooldown | main.py:296-316 | Any stretch of calls covering less than 0.35 seconds adds at most one point, from any state. |
| Play.FramesNeverScore | main.py:313-366 | Any sequence of frames without an attack leaves the score unchanged. |
| Play.FewerThanThreeFramesSurvive | main.py:222 | From the 3 hit points a game starts with, any sequence of calls with fewer than three frames, and any number of attacks, leaves the player above zero hit points. |

## Left out

- Screens and widgets (`MenuScreen`, `SettingsScreen`, `GameScreen`, `PauseScreen`, `FailScreen`, `ui_btn`, `MyGameApp`): layout and navigation only. The game screen's button bindings are modelled as the `hold` field, and its attached callbacks as `failHandler` and `hudHandler`.
- Frame scheduling (`start`, `stop`, `Clock.schedule_interval`): timing belongs to the framework. A frame is one call of `Update` with its `dt`, and `Play.Run` applies any sequence of calls. The game screen stops the frames after a failure; the lemmas hold for every sequence, including ones that go on after it.
- Drawing (`_redraw`, `_apply_rects`, the canvas rectangles): rendering only.
- `GameConfig` and its `JsonStore` persistence: file I/O. Its defaults are music on, volume 0.8, difficulty "普通".
- `MusicBus`, `SoundLoader` and the volume clamp: calls into the audio library.
- `asset_path` and `pick_font`: filesystem lookups.
- Floating point: all quantities are exact reals, with no IEEE rounding.
- Screen density: lengths are in density-independent pixels, as explained above, instead of k times a symbolic density.
- `ArenaWidget.player_size`, `enemy_size` and `player_speed`: the source never changes these fields after construction, so they are the constants `PlayerSize`, `EnemySize` and `PlayerSpeed`.
- Layout changes of `width` and `height`: the framework sets them; the model reads them as fields and no method changes them.
- Arena.ArenaWidget.Update: split into the stages `RunDownCooldown`, `MovePlayer`, `ChaseEnemy` and `Collide`, which run in the source's order; the in-place updates of the position lists are assignments of whole `Vec` values.
- Arena.ArenaWidget.Update: the callbacks themselves are not run; the returned `Event` says which one `update` would call and with what arguments.
