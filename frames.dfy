/**
 Whole games: a sequence of calls into the arena, each either a frame of
 `dt` seconds with some buttons held or a press of the attack button, and
 what any such sequence can and cannot do to the state.
 */
module Play {
  import opened Geometry
  import opened Arena

  /** One call into the arena widget. */
  datatype Input =
    | Tick(hold: Keys, dt: real)   // one scheduled frame
    | Attack                       // the attack button

  /** The state after one call. */
  function Apply(s: State, env: Env, i: Input): State
  {
    match i
    case Tick(hold, dt) => StepFrame(s, env, hold, dt).next
    case Attack => AttackStep(s, env)
  }

  /** The state after the calls `ins`, in order. */
  function Run(s: State, env: Env, ins: seq<Input>): State
    decreases |ins|
  {
    if |ins| == 0 then s else Run(Apply(s, env, ins[0]), env, ins[1..])
  }

  /** How many of the calls are frames. */
  function Ticks(ins: seq<Input>): nat
  {
    if |ins| == 0 then 0 else (if ins[0].Tick? then 1 else 0) + Ticks(ins[1..])
  }

  /** How many of the calls are attacks. */
  function Attacks(ins: seq<Input>): (n: nat)
    ensures n + Ticks(ins) == |ins|
  {
    if |ins| == 0 then 0 else (if ins[0].Attack? then 1 else 0) + Attacks(ins[1..])
  }

  /** The seconds the frames among the calls cover. */
  function Elapsed(ins: seq<Input>): real
  {
    if |ins| == 0 then 0.0 else (if ins[0].Tick? then ins[0].dt else 0.0) + Elapsed(ins[1..])
  }

  /** No frame runs time backwards. */
  predicate ForwardTime(ins: seq<Input>)
  {
    forall i :: 0 <= i < |ins| && ins[i].Tick? ==> ins[i].dt >= 0.0
  }

  /**
   Any sequence of calls keeps the state valid and leaves the difficulty
   alone; it costs at most one hit point per frame and gains at most one
   point per attack, and never loses score or restores health. As no call
   both costs a hit point and scores, hit points lost plus points gained are
   at most the number of calls.
   */
  lemma {:induction false} RunBounds(s: State, env: Env, ins: seq<Input>)
    requires ValidState(s)
    ensures var r := Run(s, env, ins);
      && ValidState(r)
      && r.enemySpeed == s.enemySpeed && r.enemyAggressive == s.enemyAggressive
      && s.hp - Ticks(ins) <= r.hp <= s.hp
      && s.score <= r.score <= s.score + Attacks(ins)
      && (s.hp - r.hp) + (r.score - s.score) <= |ins|
    decreases |ins|
  {
    if |ins| > 0 {
      RunBounds(Apply(s, env, ins[0]), env, ins[1..]);
    }
  }

  /** In an arena that fits both boxes, boxes that start inside stay inside. */
  lemma {:induction false} RunPlaced(s: State, env: Env, ins: seq<Input>)
    requires Roomy(env) && Placed(s, env)
    ensures Placed(Run(s, env, ins), env)
    decreases |ins|
  {
    if |ins| > 0 {
      RunPlaced(Apply(s, env, ins[0]), env, ins[1..]);
    }
  }

  /**
   While less time has passed than the cooldown that was running, every
   attack is ignored: the score stays and the cooldown has dropped by exactly
   the time passed.
   */
  lemma {:induction false} CoolingIgnoresAttacks(s: State, env: Env, ins: seq<Input>)
    requires ForwardTime(ins)
    requires Elapsed(ins) < s.attackCd
    ensures Run(s, env, ins).score == s.score
    ensures Run(s, env, ins).attackCd == s.attackCd - Elapsed(ins)
    decreases |ins|
  {
    if |ins| > 0 {
      var rest := ins[1..];
      ElapsedNonneg(rest);
      ForwardTimeRest(ins);
      var t := Apply(s, env, ins[0]);
      assert t.score == s.score && t.attackCd == s.attackCd - (Elapsed(ins) - Elapsed(rest));
      CoolingIgnoresAttacks(t, env, rest);
    }
  }

  /** Dropping the first call keeps time running forward. */
  lemma ForwardTimeRest(ins: seq<Input>)
    requires |ins| > 0 && ForwardTime(ins)
    ensures ForwardTime(ins[1..])
  {
    forall i | 0 <= i < |ins| - 1 && ins[1..][i].Tick? ensures ins[1..][i].dt >= 0.0 {
      assert ins[1..][i] == ins[i + 1];
    }
  }

  /** Frames that do not run time backwards cover a non-negative time. */
  lemma {:induction false} ElapsedNonneg(ins: seq<Input>)
    requires ForwardTime(ins)
    ensures Elapsed(ins) >= 0.0
    decreases |ins|
  {
    if |ins| > 0 {
      var rest := ins[1..];
      ForwardTimeRest(ins);
      ElapsedNonneg(rest);
    }
  }

  /**
   Scoring attacks are at least the cooldown apart: the calls of any span
   of time shorter than the cooldown add at most one point, whatever state
   they start from.
   */
  lemma {:induction false} OnePointPerCooldown(s: State, env: Env, ins: seq<Input>)
    requires ForwardTime(ins)
    requires Elapsed(ins) < AttackCooldown
    ensures Run(s, env, ins).score <= s.score + 1
    decreases |ins|
  {
    if |ins| > 0 {
      var rest := ins[1..];
      ForwardTimeRest(ins);
      ElapsedNonneg(rest);
      var t := Apply(s, env, ins[0]);
      if t.score == s.score {
        OnePointPerCooldown(t, env, rest);
      } else {
        // a scoring attack has just restarted the cooldown
        assert ins[0].Attack? && t.attackCd == AttackCooldown;
        CoolingIgnoresAttacks(t, env, rest);
      }
    }
  }

  /** Frames alone, without any attack, never change the score. */
  lemma FramesNeverScore(s: State, env: Env, ins: seq<Input>)
    requires ValidState(s)
    requires Ticks(ins) == |ins|
    ensures Run(s, env, ins).score == s.score
  {
    RunBounds(s, env, ins);
  }

  /**
   A game that starts from three hit points survives any sequence of calls
   with fewer than three frames in it, whatever the attacks between them.
   */
  lemma FewerThanThreeFramesSurvive(s: State, env: Env, ins: seq<Input>)
    requires ValidState(s) && s.hp == StartHp
    requires Ticks(ins) < StartHp
    ensures Run(s, env, ins).hp > 0
  {
    RunBounds(s, env, ins);
  }
}
