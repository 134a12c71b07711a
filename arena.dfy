/**
 The arena fight: a player box and an enemy box in a rectangular arena.
 Each frame the attack cooldown runs down, the player moves from the held
 direction buttons, the enemy steps toward the player, both are clamped into
 the arena, and touching boxes cost the player one hit point and knock the
 enemy away. A separate attack button scores when the enemy is close enough.

 The pure functions `StepFrame` and `AttackStep` say what one frame and one
 attack do to the `State`; the class `ArenaWidget` holds that state in
 fields and its methods are proved to update them exactly as those functions
 say.

 All lengths (positions, sizes, speeds, the arena's width and height) are in
 density-independent pixels. Every operation here compares lengths, adds
 them, or multiplies them by a dimensionless number, and the attack range
 compares a squared length with a squared length, so the behaviour on a
 screen of density d is this behaviour with every length multiplied by d.
 */
module Arena {
  import opened Geometry

  /** Seconds for which a started attack blocks the next one. */
  const AttackCooldown: real := 0.35

  /** Hit points at the start of a game. */
  const StartHp: int := 3

  /** Where the player and the enemy stand when a game starts. */
  const StartPlayer: Vec := Vec(60.0, 200.0)
  const StartEnemy: Vec := Vec(260.0, 420.0)

  /** Both boxes are 44 by 44; the player moves 4 per frame along each held axis. */
  const PlayerSize: Vec := Vec(44.0, 44.0)
  const EnemySize: Vec := Vec(44.0, 44.0)
  const PlayerSpeed: real := 4.0

  /** The attack reaches 80; a collision throws the enemy 60 along both axes. */
  const AttackRange: real := 80.0
  const Bounce: real := 60.0

  /** The direction buttons the player holds down. */
  datatype Keys = Keys(up: bool, down: bool, left: bool, right: bool)

  const NoKeys: Keys := Keys(false, false, false, false)

  /** The notification a frame sends to the game screen. */
  datatype Event =
    | Quiet                       // no callback is attached for what happened
    | Hud(hp: int, score: int)    // refresh the hit-point and score display
    | Fail(score: int)            // the player has lost, with the final score

  /** Everything a frame or an attack may change. */
  datatype State = State(
    player: Vec,
    enemy: Vec,
    hp: int,
    score: int,
    attackCd: real,
    enemySpeed: real,
    enemyAggressive: real)

  /** What frames read but never change: the layout's size and which callbacks are attached. */
  datatype Env = Env(width: real, height: real, failHandler: bool, hudHandler: bool)

  /** The new state after a frame and the notification it sends. */
  datatype Outcome = Outcome(next: State, event: Event)

  /** The cooldown is never negative and the enemy always moves forward. */
  predicate ValidState(s: State)
  {
    s.attackCd >= 0.0 && s.enemySpeed > 0.0 && s.enemyAggressive > 0.0
  }

  /** The arena is large enough for both boxes to fit. */
  predicate Roomy(env: Env)
  {
    env.width >= PlayerSize.x && env.height >= PlayerSize.y &&
    env.width >= EnemySize.x && env.height >= EnemySize.y
  }

  /** Both boxes lie inside the arena. */
  predicate Placed(s: State, env: Env)
  {
    InBounds(env.width, env.height, s.player, PlayerSize) &&
    InBounds(env.width, env.height, s.enemy, EnemySize)
  }

  // ---------------------------------------------------------------------------
  // Difficulty

  /**
   The enemy's speed (per frame) and aggressiveness for a difficulty name.
   Every name other than the easy and the hard one, the normal one and any
   unknown name included, gets the normal pair.
   */
  function DifficultyOf(diff: string): (r: (real, real))
    ensures r.0 > 0.0 && r.1 > 0.0
    ensures diff == "简单" ==> r == (1.8, 0.85)
    ensures diff == "困难" ==> r == (3.2, 1.25)
    ensures diff != "简单" && diff != "困难" ==> r == (2.2, 1.0)
  {
    if diff == "简单" then (1.8, 0.85)
    else if diff == "困难" then (3.2, 1.25)
    else (2.2, 1.0)
  }

  /** The enemy's step per frame: speed times aggressiveness. */
  function ChaseSpeed(enemySpeed: real, enemyAggressive: real): real
  {
    enemySpeed * enemyAggressive
  }

  /** The enemy's step per frame strictly grows from easy through normal to hard. */
  lemma DifficultyOrdersChaseSpeed(other: string)
    requires other != "简单" && other != "困难"
    ensures var e, n, h := DifficultyOf("简单"), DifficultyOf(other), DifficultyOf("困难");
      ChaseSpeed(e.0, e.1) < ChaseSpeed(n.0, n.1) < ChaseSpeed(h.0, h.1)
  {
    assert DifficultyOf(other) == (2.2, 1.0);
    assert ChaseSpeed(1.8, 0.85) == 1.53;
    assert ChaseSpeed(3.2, 1.25) == 4.0;
  }

  // ---------------------------------------------------------------------------
  // Attack

  /** The enemy is within the attack range of the player: a squared-distance test. */
  predicate InRange(player: Vec, enemy: Vec)
  {
    var dx, dy := player.x - enemy.x, player.y - enemy.y;
    dx * dx + dy * dy <= AttackRange * AttackRange
  }

  /** The range test does not depend on which box is the player. */
  lemma InRangeSymmetric(a: Vec, b: Vec)
    ensures InRange(a, b) == InRange(b, a)
  {
    var dx, dy := a.x - b.x, a.y - b.y;
    assert (b.x - a.x) * (b.x - a.x) == dx * dx;
    assert (b.y - a.y) * (b.y - a.y) == dy * dy;
  }

  /** An enemy in range is at most the attack range away along each axis. */
  lemma InRangeWithinBox(player: Vec, enemy: Vec)
    requires InRange(player, enemy)
    ensures -AttackRange <= player.x - enemy.x <= AttackRange
    ensures -AttackRange <= player.y - enemy.y <= AttackRange
  {
    var dx, dy := player.x - enemy.x, player.y - enemy.y;
    assert dx * dx <= AttackRange * AttackRange && dy * dy <= AttackRange * AttackRange by {
      assert dx * dx >= 0.0 && dy * dy >= 0.0;
    }
    SquareBound(dx, AttackRange);
    SquareBound(dy, AttackRange);
  }

  /** A number whose square is at most R * R, R >= 0, lies in [-R, R]. */
  lemma SquareBound(v: real, R: real)
    requires R >= 0.0
    requires v * v <= R * R
    ensures -R <= v <= R
  {
    var a := if v >= 0.0 then v else -v;
    assert a * a == v * v;
    assert (a - R) * (a + R) == a * a - R * R;
    if a + R > 0.0 {
      assert (a - R) * (a + R) <= 0.0;
    }
  }

  /**
   Where an attack pushes the enemy before clamping: 15 percent of the
   player-to-enemy offset farther from the player, along the same line.
   */
  function Knockback(player: Vec, enemy: Vec): (r: Vec)
    ensures r.x - player.x == 1.15 * (enemy.x - player.x)
    ensures r.y - player.y == 1.15 * (enemy.y - player.y)
  {
    Vec(enemy.x - (player.x - enemy.x) * 0.15, enemy.y - (player.y - enemy.y) * 0.15)
  }

  /** A landed attack pushes the enemy, before clamping, at most 12 along each axis. */
  lemma KnockbackShort(player: Vec, enemy: Vec)
    requires InRange(player, enemy)
    ensures -12.0 <= Knockback(player, enemy).x - enemy.x <= 12.0
    ensures -12.0 <= Knockback(player, enemy).y - enemy.y <= 12.0
  {
    InRangeWithinBox(player, enemy);
  }

  /**
   The attack button. While the cooldown is running nothing changes at all.
   Otherwise the cooldown restarts, the player stays put, and the score rises
   by exactly one iff the enemy is in range, in which case the enemy is also
   knocked away and clamped; out of range the score and the enemy stay.
   */
  function AttackStep(s: State, env: Env): (r: State)
    ensures s.attackCd > 0.0 ==> r == s
    ensures s.attackCd <= 0.0 ==>
      r.attackCd == AttackCooldown && r.player == s.player && r.hp == s.hp &&
      r.enemySpeed == s.enemySpeed && r.enemyAggressive == s.enemyAggressive
    ensures s.attackCd <= 0.0 ==> (r.score == s.score + 1 <==> InRange(s.player, s.enemy))
    ensures s.attackCd <= 0.0 && InRange(s.player, s.enemy) ==>
      r.enemy == Clamp(env.width, env.height, Knockback(s.player, s.enemy), EnemySize)
    ensures !InRange(s.player, s.enemy) ==> r.score == s.score && r.enemy == s.enemy
    ensures r.score == s.score || r.score == s.score + 1
    ensures ValidState(s) ==> ValidState(r)
    ensures Roomy(env) && Placed(s, env) ==> Placed(r, env)
  {
    if s.attackCd > 0.0 then s
    else if InRange(s.player, s.enemy) then
      s.(attackCd := AttackCooldown, score := s.score + 1,
         enemy := Clamp(env.width, env.height, Knockback(s.player, s.enemy), EnemySize))
    else
      s.(attackCd := AttackCooldown)
  }

  // ---------------------------------------------------------------------------
  // One frame

  /**
   The cooldown after a frame of `dt` seconds: a running cooldown drops by dt
   but not below zero; one that has run out stays where it is.
   */
  function CooldownAfter(cd: real, dt: real): (r: real)
    ensures cd > 0.0 ==> r == Max(0.0, cd - dt)
    ensures cd <= 0.0 ==> r == cd
    ensures cd >= 0.0 ==> r >= 0.0
    ensures cd >= 0.0 && dt >= 0.0 ==> r <= cd
    ensures dt >= 0.0 ==> r >= cd - dt
  {
    if cd > 0.0 then Max(0.0, cd - dt) else cd
  }

  /**
   The held direction as (vx, vy): right is +x, up is +y, and opposite
   buttons held together cancel.
   */
  function Velocity(hold: Keys): (v: (int, int))
    ensures -1 <= v.0 <= 1 && -1 <= v.1 <= 1
    ensures v.0 == 1 <==> hold.right && !hold.left
    ensures v.0 == -1 <==> hold.left && !hold.right
    ensures v.1 == 1 <==> hold.up && !hold.down
    ensures v.1 == -1 <==> hold.down && !hold.up
  {
    ((if hold.right then 1 else 0) - (if hold.left then 1 else 0),
     (if hold.up then 1 else 0) - (if hold.down then 1 else 0))
  }

  /** The player's position after its move: speed times velocity added, then clamped. */
  function MovedPlayer(player: Vec, env: Env, hold: Keys): (r: Vec)
    ensures r.x >= 0.0 && r.y >= 0.0
    ensures Roomy(env) ==> InBounds(env.width, env.height, r, PlayerSize)
    ensures Velocity(hold) == (0, 0) && InBounds(env.width, env.height, player, PlayerSize) ==> r == player
    ensures var v := Velocity(hold);
      var t := Vec(player.x + v.0 as real * PlayerSpeed, player.y + v.1 as real * PlayerSpeed);
      InBounds(env.width, env.height, t, PlayerSize) ==> r == t
  {
    var v := Velocity(hold);
    Clamp(env.width, env.height,
          Vec(player.x + v.0 as real * PlayerSpeed, player.y + v.1 as real * PlayerSpeed),
          PlayerSize)
  }

  /**
   One coordinate of the enemy's chase: step up by `step` when the player is
   above, then, testing the already stepped coordinate, step down when the
   player is below. The net change is always +step, 0 or -step.
   */
  function ChaseAxis(p: real, e: real, step: real): (r: real)
    ensures r == e + step || r == e || r == e - step
  {
    var e1 := if p > e then e + step else e;
    if p < e1 then e1 - step else e1
  }

  /**
   The chase case by case, for a positive step: from below the enemy never
   passes the player (a step that would overshoot is undone by the second
   test), from above it always steps down, even past the player.
   */
  lemma ChaseAxisCases(p: real, e: real, step: real)
    requires step > 0.0
    ensures p >= e + step ==> ChaseAxis(p, e, step) == e + step
    ensures e <= p < e + step ==> ChaseAxis(p, e, step) == e
    ensures p < e ==> ChaseAxis(p, e, step) == e - step
    ensures e <= p ==> e <= ChaseAxis(p, e, step) <= p
  {
  }

  /** The enemy's position after its chase step toward `player` and the clamp, before any collision. */
  function ChasedEnemy(s: State, env: Env, player: Vec): (r: Vec)
    ensures r.x >= 0.0 && r.y >= 0.0
    ensures Roomy(env) ==> InBounds(env.width, env.height, r, EnemySize)
    ensures var k := ChaseSpeed(s.enemySpeed, s.enemyAggressive);
      var t := Vec(ChaseAxis(player.x, s.enemy.x, k), ChaseAxis(player.y, s.enemy.y, k));
      InBounds(env.width, env.height, t, EnemySize) ==> r == t
  {
    var k := ChaseSpeed(s.enemySpeed, s.enemyAggressive);
    Clamp(env.width, env.height, Vec(ChaseAxis(player.x, s.enemy.x, k), ChaseAxis(player.y, s.enemy.y, k)), EnemySize)
  }

  /** Where a collision throws the enemy: up and right by the bounce distance, clamped. */
  function Bounced(env: Env, enemy: Vec): (r: Vec)
    ensures Roomy(env) ==> InBounds(env.width, env.height, r, EnemySize)
    ensures var t := Vec(enemy.x + Bounce, enemy.y + Bounce);
      InBounds(env.width, env.height, t, EnemySize) ==> r == t
    ensures InBounds(env.width, env.height, enemy, EnemySize) ==> r.x >= enemy.x && r.y >= enemy.y
  {
    Clamp(env.width, env.height, Vec(enemy.x + Bounce, enemy.y + Bounce), EnemySize)
  }

  /** The display refresh, sent only when a callback for it is attached. */
  function HudOf(env: Env, s: State): (e: Event)
    ensures e.Hud? <==> env.hudHandler
    ensures e == Quiet || e == Hud(s.hp, s.score)
  {
    if env.hudHandler then Hud(s.hp, s.score) else Quiet
  }

  /** The two boxes touch after both have moved in this frame. */
  predicate Collides(s: State, env: Env, hold: Keys)
  {
    var player := MovedPlayer(s.player, env, hold);
    RectHit(player, PlayerSize, ChasedEnemy(s, env, player), EnemySize)
  }

  /**
   One frame of `dt` seconds with the direction buttons `hold` held.
   A frame never changes the score or the enemy's speed; it costs exactly one
   hit point when the boxes touch after both have moved, and none otherwise.
   A frame whose hit leaves the player at zero or fewer hit points sends the
   failure notification with the score, if one is attached, and never the
   display refresh; every other frame sends the refresh, if one is attached.
   */
  function StepFrame(s: State, env: Env, hold: Keys, dt: real): (o: Outcome)
    ensures o.next.attackCd == CooldownAfter(s.attackCd, dt)
    ensures o.next.player == MovedPlayer(s.player, env, hold)
    ensures o.next.score == s.score
    ensures o.next.enemySpeed == s.enemySpeed && o.next.enemyAggressive == s.enemyAggressive
    ensures o.next.hp == if Collides(s, env, hold) then s.hp - 1 else s.hp
    ensures s.hp - 1 <= o.next.hp <= s.hp
    ensures !Collides(s, env, hold) ==> o.next.enemy == ChasedEnemy(s, env, o.next.player)
    ensures Collides(s, env, hold) ==> o.next.enemy == Bounced(env, ChasedEnemy(s, env, o.next.player))
    ensures o.event.Fail? <==> env.failHandler && Collides(s, env, hold) && o.next.hp <= 0
    ensures o.event.Fail? ==> o.event.score == s.score
    ensures o.event.Hud? <==> env.hudHandler && !(Collides(s, env, hold) && o.next.hp <= 0)
    ensures o.event.Hud? ==> o.event == Hud(o.next.hp, o.next.score)
    ensures ValidState(s) ==> ValidState(o.next)
    ensures Roomy(env) ==> Placed(o.next, env)
  {
    var cd := CooldownAfter(s.attackCd, dt);
    var player := MovedPlayer(s.player, env, hold);
    var chased := ChasedEnemy(s, env, player);
    if RectHit(player, PlayerSize, chased, EnemySize) then
      var next := s.(player := player, enemy := Bounced(env, chased), hp := s.hp - 1, attackCd := cd);
      if next.hp <= 0 then Outcome(next, if env.failHandler then Fail(next.score) else Quiet)
      else Outcome(next, HudOf(env, next))
    else
      var next := s.(player := player, enemy := chased, attackCd := cd);
      Outcome(next, HudOf(env, next))
  }

  /**
   A state and an event that agree with `StepFrame` on every part it
   determines are that frame's outcome.
   */
  lemma FrameOutcome(s: State, env: Env, hold: Keys, dt: real, next: State, ev: Event)
    requires next.attackCd == CooldownAfter(s.attackCd, dt)
    requires next.player == MovedPlayer(s.player, env, hold)
    requires next.score == s.score
    requires next.enemySpeed == s.enemySpeed && next.enemyAggressive == s.enemyAggressive
    requires next.hp == if Collides(s, env, hold) then s.hp - 1 else s.hp
    requires next.enemy == if Collides(s, env, hold) then Bounced(env, ChasedEnemy(s, env, next.player))
                           else ChasedEnemy(s, env, next.player)
    requires ev == if Collides(s, env, hold) && next.hp <= 0 then (if env.failHandler then Fail(s.score) else Quiet)
                   else HudOf(env, next)
    ensures StepFrame(s, env, hold, dt) == Outcome(next, ev)
  {
  }

  /** A new game does not start with the two boxes touching. */
  lemma StartApart()
    ensures !RectHit(StartPlayer, PlayerSize, StartEnemy, EnemySize)
  {
  }

  // ---------------------------------------------------------------------------
  // The widget

  /**
   The arena widget: the game state as fields, updated in place. Its fixed
   box sizes and player speed are the module constants above.
   */
  class ArenaWidget {
    // The layout's current size of the widget.
    var width: real
    var height: real

    var playerPos: Vec
    var enemyPos: Vec
    var playerHp: int
    var score: int
    var enemySpeed: real
    var enemyAggressive: real
    var attackCd: real

    // Which direction buttons are held down; the game screen sets these.
    var hold: Keys
    // Whether the game screen has attached the failure and display callbacks.
    var failHandler: bool
    var hudHandler: bool

    function Snapshot(): State
      reads this
    {
      State(playerPos, enemyPos, playerHp, score, attackCd, enemySpeed, enemyAggressive)
    }

    function Context(): Env
      reads this
    {
      Env(width, height, failHandler, hudHandler)
    }

    ghost predicate Valid()
      reads this
    {
      ValidState(Snapshot())
    }

    /** A fresh widget: start positions, three hit points, no score, normal difficulty. */
    constructor (width: real, height: real)
      ensures Valid()
      ensures this.width == width && this.height == height
      ensures Snapshot() == State(StartPlayer, StartEnemy, StartHp, 0, 0.0, 2.2, 1.0)
      ensures hold == NoKeys && !failHandler && !hudHandler
    {
      this.width := width;
      this.height := height;
      playerPos := StartPlayer;
      enemyPos := StartEnemy;
      playerHp := StartHp;
      score := 0;
      enemySpeed := 2.2;
      enemyAggressive := 1.0;
      attackCd := 0.0;
      hold := NoKeys;
      failHandler := false;
      hudHandler := false;
    }

    /** Starts a new game: positions, hit points, score and cooldown; the difficulty stays. */
    method Reset()
      requires Valid()
      modifies this`playerPos, this`enemyPos, this`playerHp, this`score, this`attackCd
      ensures Valid()
      ensures Snapshot() == old(Snapshot()).(player := StartPlayer, enemy := StartEnemy,
                                             hp := StartHp, score := 0, attackCd := 0.0)
    {
      playerPos := StartPlayer;
      enemyPos := StartEnemy;
      playerHp := StartHp;
      score := 0;
      attackCd := 0.0;
    }

    /** Sets the enemy's speed and aggressiveness from a difficulty name. */
    method SetDifficulty(diff: string)
      requires Valid()
      modifies this`enemySpeed, this`enemyAggressive
      ensures Valid()
      ensures (enemySpeed, enemyAggressive) == DifficultyOf(diff)
    {
      if diff == "简单" {
        enemySpeed := 1.8;
        enemyAggressive := 0.85;
      } else if diff == "困难" {
        enemySpeed := 3.2;
        enemyAggressive := 1.25;
      } else {
        enemySpeed := 2.2;
        enemyAggressive := 1.0;
      }
    }

    /** The attack button, as `AttackStep` describes it. */
    method PlayerAttack()
      requires Valid()
      modifies this`attackCd, this`score, this`enemyPos
      ensures Valid()
      ensures Snapshot() == AttackStep(old(Snapshot()), Context())
    {
      if attackCd > 0.0 {
        return;
      }
      attackCd := AttackCooldown;
      var dx := playerPos.x - enemyPos.x;
      var dy := playerPos.y - enemyPos.y;
      if InRange(playerPos, enemyPos) {
        score := score + 1;
        enemyPos := Vec(enemyPos.x - dx * 0.15, enemyPos.y - dy * 0.15);
        assert enemyPos == Knockback(playerPos, old(enemyPos));
        enemyPos := Clamp(width, height, enemyPos, EnemySize);
      }
    }

    /** The first part of a frame: a running cooldown drops by `dt`, not below zero. */
    method RunDownCooldown(dt: real)
      requires Valid()
      modifies this`attackCd
      ensures Valid()
      ensures attackCd == CooldownAfter(old(attackCd), dt)
    {
      if attackCd > 0.0 {
        attackCd := Max(0.0, attackCd - dt);
      }
    }

    /** The second part of a frame: the player moves from the held buttons and is clamped. */
    method MovePlayer()
      requires Valid()
      modifies this`playerPos
      ensures Valid()
      ensures playerPos == MovedPlayer(old(playerPos), Context(), hold)
    {
      var vx, vy := 0, 0;
      if hold.left { vx := vx - 1; }
      if hold.right { vx := vx + 1; }
      if hold.up { vy := vy + 1; }
      if hold.down { vy := vy - 1; }
      assert (vx, vy) == Velocity(hold);
      playerPos := Vec(playerPos.x + vx as real * PlayerSpeed, playerPos.y + vy as real * PlayerSpeed);
      playerPos := Clamp(width, height, playerPos, PlayerSize);
    }

    /** The third part of a frame: the enemy steps toward the player on each axis and is clamped. */
    method ChaseEnemy()
      requires Valid()
      modifies this`enemyPos
      ensures Valid()
      ensures enemyPos == ChasedEnemy(old(Snapshot()), Context(), playerPos)
    {
      var step := ChaseSpeed(enemySpeed, enemyAggressive);
      var ex, ey := enemyPos.x, enemyPos.y;
      if playerPos.x > ex { ex := ex + step; }
      if playerPos.x < ex { ex := ex - step; }
      assert ex == ChaseAxis(playerPos.x, enemyPos.x, step);
      if playerPos.y > ey { ey := ey + step; }
      if playerPos.y < ey { ey := ey - step; }
      assert ey == ChaseAxis(playerPos.y, enemyPos.y, step);
      enemyPos := Clamp(width, height, Vec(ex, ey), EnemySize);
    }

    /**
     The collision stage of a frame: on a hit the player loses one point of
     health and the enemy bounces away; the event is the failure report when
     health has run out, the HUD refresh otherwise.
     */
    method Collide() returns (ev: Event)
      requires Valid()
      modifies this`enemyPos, this`playerHp
      ensures Valid()
      ensures var hit := RectHit(playerPos, PlayerSize, old(enemyPos), EnemySize);
        && playerHp == (if hit then old(playerHp) - 1 else old(playerHp))
        && enemyPos == (if hit then Bounced(Context(), old(enemyPos)) else old(enemyPos))
        && ev == if hit && playerHp <= 0 then (if failHandler then Fail(score) else Quiet)
                 else HudOf(Context(), Snapshot())
    {
      if RectHit(playerPos, PlayerSize, enemyPos, EnemySize) {
        playerHp := playerHp - 1;
        enemyPos := Vec(enemyPos.x + Bounce, enemyPos.y + Bounce);
        enemyPos := Clamp(width, height, enemyPos, EnemySize);
        if playerHp <= 0 {
          ev := if failHandler then Fail(score) else Quiet;
          return;
        }
      }
      ev := if hudHandler then Hud(playerHp, score) else Quiet;
    }

    /**
     One frame of `dt` seconds, as `StepFrame` describes it: the three stages
     above, then the collision; returns the notification sent.
     */
    method Update(dt: real) returns (ev: Event)
      requires Valid()
      modifies this`attackCd, this`playerPos, this`enemyPos, this`playerHp
      ensures Valid()
      ensures Outcome(Snapshot(), ev) == StepFrame(old(Snapshot()), Context(), hold, dt)
    {
      ghost var s0, env := Snapshot(), Context();
      RunDownCooldown(dt);
      MovePlayer();
      assert playerPos == MovedPlayer(s0.player, env, hold);
      ChaseEnemy();
      assert enemyPos == ChasedEnemy(s0, env, playerPos);
      assert RectHit(playerPos, PlayerSize, enemyPos, EnemySize) == Collides(s0, env, hold);
      ev := Collide();
      FrameOutcome(s0, env, hold, dt, Snapshot(), ev);
    }
  }
}
