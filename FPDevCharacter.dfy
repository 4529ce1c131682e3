/**
 * The fire controller of `AFPDevCharacter`: a queue of shot tokens, the time
 * since the last accepted trigger pull, the time since the last drain, and
 * whether the trigger is held. The pure functions below give the exact step
 * semantics; the class's methods are proved to follow them.
 */
module Character {
  import opened Wrappers
  import opened Mechanic
  import opened Spread

  /** The controller's own state. */
  datatype FireState = FireState(queue: seq<bool>, sinceFire: real, sinceSpawn: real, triggerHeld: bool)

  /**
   * What the engine supplies to one call: whether a gun is attached, whether a
   * projectile class and a world are available, and the grid height and cell
   * size the weapon mechanic reports.
   */
  datatype Engine = Engine(hasGun: bool, hasProjectileClass: bool, hasWorld: bool, spreadHeight: int, cellDim: real)

  /** The state after a step and the projectiles spawned during it, in spawn order. */
  datatype Step = Step(next: FireState, spawns: seq<Spawn>)

  /** The `n` tokens one trigger pull enqueues; none when `n` is not positive. */
  function Tokens(n: int): (t: seq<bool>)
    ensures |t| == if n > 0 then n else 0
  {
    if n <= 0 then [] else seq(n, _ => true)
  }

  /** The state right after `BeginPlay`. */
  function Initial(): FireState
  {
    FireState([], 0.0, 0.0, false)
  }

  /** A trigger pull is accepted when a gun is attached and the cooldown has strictly elapsed. */
  predicate Accepts(s: FireState, mech: Option<FireParams>, hasGun: bool)
    requires hasGun ==> mech.Some?
  {
    hasGun && s.sinceFire > mech.value.fireDelay
  }

  /** `OnFire`: an accepted pull appends the multiplier's tokens and restarts the cooldown. */
  function OnFireNext(s: FireState, mech: Option<FireParams>, hasGun: bool): FireState
    requires hasGun ==> mech.Some?
  {
    if Accepts(s, mech, hasGun) then
      s.(queue := s.queue + Tokens(mech.value.shotMultiplier), sinceFire := 0.0)
    else s
  }

  /** The Fire input flips the held flag, on press and on release alike. */
  function Toggle(s: FireState): FireState
  {
    s.(triggerHeld := !s.triggerHeld)
  }

  /** The drain gate: a token is waiting and the inter-shot delay has strictly elapsed. */
  predicate GateOpen(s: FireState, mech: Option<FireParams>)
    requires |s.queue| > 0 ==> mech.Some?
  {
    |s.queue| > 0 && s.sinceSpawn > mech.value.multiplierDelay
  }

  /** A drain happens when the gate is open and both a projectile class and a world exist. */
  predicate Drains(s: FireState, mech: Option<FireParams>, env: Engine)
    requires |s.queue| > 0 ==> mech.Some?
  {
    GateOpen(s, mech) && env.hasProjectileClass && env.hasWorld
  }

  /** What `FireWeapon` needs: a mechanic whenever the queue is read, a drawable pattern whenever it drains. */
  predicate FireWeaponReady(s: FireState, mech: Option<FireParams>, env: Engine)
  {
    (|s.queue| > 0 ==> mech.Some?) &&
    (Drains(s, mech, env) ==> CanDraw(mech.value.spreadPattern, mech.value.spreadWidth))
  }

  /**
   * `FireWeapon(dt)`: a closed gate accumulates `dt` into both timers; an open
   * gate with a projectile class and a world fires the whole pattern, pops the
   * front token and restarts the inter-shot timer; an open gate without them
   * changes nothing.
   */
  function FireWeaponStep(s: FireState, mech: Option<FireParams>, env: Engine, dt: real): Step
    requires FireWeaponReady(s, mech, env)
  {
    if GateOpen(s, mech) then
      if env.hasProjectileClass && env.hasWorld then
        var m := mech.value;
        Step(s.(queue := s.queue[1..], sinceSpawn := 0.0),
             PatternSpawns(m.spreadPattern, m.spreadWidth, env.spreadHeight, env.cellDim, m.spreadDepth))
      else Step(s, [])
    else Step(s.(sinceSpawn := s.sinceSpawn + dt, sinceFire := s.sinceFire + dt), [])
  }

  predicate TickReady(s: FireState, mech: Option<FireParams>, env: Engine)
  {
    FireWeaponReady(s, mech, env) && (s.triggerHeld ==> mech.Some?)
  }

  /** `Tick(dt)`: fire first, then re-trigger when the trigger is held on a full-automatic weapon. */
  function TickStep(s: FireState, mech: Option<FireParams>, env: Engine, dt: real): Step
    requires TickReady(s, mech, env)
  {
    var fired := FireWeaponStep(s, mech, env, dt);
    if s.triggerHeld && mech.value.fullAutomatic then
      Step(OnFireNext(fired.next, mech, env.hasGun), fired.spawns)
    else fired
  }

  /** `n` copies of one pattern's spawns, one after another. */
  function Repeat(p: seq<Spawn>, n: nat): seq<Spawn>
  {
    if n == 0 then [] else p + Repeat(p, n - 1)
  }

  /** A sequence of ticks with frame times `dts` on one mechanic and one engine. */
  function Run(s: FireState, m: FireParams, env: Engine, dts: seq<real>): Step
    requires CanDraw(m.spreadPattern, m.spreadWidth)
    decreases |dts|
  {
    if |dts| == 0 then Step(s, [])
    else
      var first := TickStep(s, Some(m), env, dts[0]);
      var rest := Run(first.next, m, env, dts[1..]);
      Step(rest.next, first.spawns + rest.spawns)
  }

  class FPDevCharacter {
    var FireQueue: seq<bool>
    var TimeSinceFire: real
    var TimeSinceBulletSpawn: real
    var TriggerHeld: bool
    /** The active weapon mechanic; shared, not owned, and possibly null. */
    var WeaponFunction: WeaponMechanic?
    /** Whether `FP_Gun` is set. */
    var HasGun: bool
    /** Whether `ProjectileClass` is set. */
    var HasProjectileClass: bool

    function State(): FireState
      reads this
    {
      FireState(FireQueue, TimeSinceFire, TimeSinceBulletSpawn, TriggerHeld)
    }

    function Mech(): Option<FireParams>
      reads this, WeaponFunction
    {
      if WeaponFunction == null then None else Some(WeaponFunction.Params())
    }

    function Env(hasWorld: bool, spreadHeight: int, cellDim: real): Engine
      reads this
    {
      Engine(HasGun, HasProjectileClass, hasWorld, spreadHeight, cellDim)
    }

    /** The fire-state part of `BeginPlay`: a fresh default mechanic, empty queue, zero timers, trigger up. */
    method BeginPlay()
      modifies this`WeaponFunction, this`FireQueue, this`TimeSinceFire, this`TimeSinceBulletSpawn, this`TriggerHeld
      ensures WeaponFunction != null && fresh(WeaponFunction) && WeaponFunction.IsDefault()
      ensures State() == Initial()
    {
      WeaponFunction := new WeaponMechanic();
      TimeSinceFire := 0.0;
      FireQueue := [];
      TimeSinceBulletSpawn := 0.0;
      TriggerHeld := false;
    }

    method SetWeaponFunction(newWeaponFunction: WeaponMechanic?)
      modifies this`WeaponFunction
      ensures WeaponFunction == newWeaponFunction
    {
      WeaponFunction := newWeaponFunction;
    }

    method ToggleTrigger()
      modifies this`TriggerHeld
      ensures State() == Toggle(old(State()))
    {
      TriggerHeld := !TriggerHeld;
    }

    method OnFire()
      requires HasGun ==> WeaponFunction != null
      modifies this`FireQueue, this`TimeSinceFire
      ensures State() == OnFireNext(old(State()), Mech(), HasGun)
    {
      if HasGun {
        if TimeSinceFire > WeaponFunction.FireDelay {
          var i := 0;
          while i < WeaponFunction.ShotMultiplier
            invariant 0 <= i
            invariant i <= WeaponFunction.ShotMultiplier || i == 0
            invariant FireQueue == old(FireQueue) + Tokens(i)
          {
            FireQueue := FireQueue + [true];
            i := i + 1;
          }
          TimeSinceFire := 0.0;
        }
      }
    }

    /** The Fire key going down: both `OnFire` and `ToggleTrigger` are bound to it. */
    method FirePressed()
      requires HasGun ==> WeaponFunction != null
      modifies this`FireQueue, this`TimeSinceFire, this`TriggerHeld
      ensures State() == Toggle(OnFireNext(old(State()), Mech(), HasGun))
    {
      OnFire();
      ToggleTrigger();
    }

    /** The Fire key going up: only `ToggleTrigger` is bound to it. */
    method FireReleased()
      modifies this`TriggerHeld
      ensures State() == Toggle(old(State()))
    {
      ToggleTrigger();
    }

    method FireWeapon(dt: real, hasWorld: bool, spreadHeight: int, cellDim: real) returns (spawns: seq<Spawn>)
      requires FireWeaponReady(State(), Mech(), Env(hasWorld, spreadHeight, cellDim))
      modifies this`FireQueue, this`TimeSinceFire, this`TimeSinceBulletSpawn
      ensures Step(State(), spawns) == FireWeaponStep(old(State()), Mech(), Env(hasWorld, spreadHeight, cellDim), dt)
    {
      spawns := [];
      if |FireQueue| > 0 && TimeSinceBulletSpawn > WeaponFunction.MultiplierDelay {
        if HasProjectileClass {
          if hasWorld {
            spawns := SpawnPattern(WeaponFunction.SpreadPattern, WeaponFunction.SpreadWidth,
                                   spreadHeight, cellDim, WeaponFunction.SpreadDepth);
            FireQueue := FireQueue[1..];
            TimeSinceBulletSpawn := 0.0;
          }
        }
      } else {
        TimeSinceBulletSpawn := TimeSinceBulletSpawn + dt;
        TimeSinceFire := TimeSinceFire + dt;
      }
    }

    method Tick(dt: real, hasWorld: bool, spreadHeight: int, cellDim: real) returns (spawns: seq<Spawn>)
      requires TickReady(State(), Mech(), Env(hasWorld, spreadHeight, cellDim))
      modifies this`FireQueue, this`TimeSinceFire, this`TimeSinceBulletSpawn
      ensures Step(State(), spawns) == TickStep(old(State()), Mech(), Env(hasWorld, spreadHeight, cellDim), dt)
    {
      spawns := FireWeapon(dt, hasWorld, spreadHeight, cellDim);
      if TriggerHeld && WeaponFunction.FullAutomatic {
        OnFire();
      }
    }
  }

  // The lemmas below that assume a non-negative delay hold for every mechanic
  // the class builds: its constructors and methods keep NonNegativeDelays.

  /** Right after `BeginPlay` the cooldown has not elapsed, so the first pull is dropped. */
  lemma FirstPullAfterBeginPlayDropped(m: FireParams, hasGun: bool)
    requires m.fireDelay >= 0.0
    ensures OnFireNext(Initial(), Some(m), hasGun) == Initial()
  {
  }

  /**
   * An accepted pull appends exactly the multiplier's tokens (none for a
   * non-positive multiplier) behind the waiting ones and restarts the
   * cooldown; a rejected pull changes nothing.
   */
  lemma OnFireEnqueues(s: FireState, m: FireParams, hasGun: bool)
    ensures var t := OnFireNext(s, Some(m), hasGun);
      if hasGun && s.sinceFire > m.fireDelay then
        |t.queue| == |s.queue| + (if m.shotMultiplier > 0 then m.shotMultiplier else 0) &&
        t.queue[..|s.queue|] == s.queue && t.sinceFire == 0.0 &&
        t.sinceSpawn == s.sinceSpawn && t.triggerHeld == s.triggerHeld
      else t == s
  {
  }

  /** A second pull straight after an accepted one is dropped: the cooldown is strict. */
  lemma SecondPullDropped(s: FireState, m: FireParams, hasGun: bool)
    requires m.fireDelay >= 0.0
    requires Accepts(s, Some(m), hasGun)
    ensures var t := OnFireNext(s, Some(m), hasGun);
      OnFireNext(t, Some(m), hasGun) == t
  {
  }

  /** The press's two bindings commute, so their order does not matter. */
  lemma PressBindingsCommute(s: FireState, mech: Option<FireParams>, hasGun: bool)
    requires hasGun ==> mech.Some?
    ensures Toggle(OnFireNext(s, mech, hasGun)) == OnFireNext(Toggle(s), mech, hasGun)
  {
  }

  /** A press followed by a release restores the held flag and never removes a queued token. */
  lemma PressReleaseKeepsQueue(s: FireState, mech: Option<FireParams>, hasGun: bool)
    requires hasGun ==> mech.Some?
    ensures var t := Toggle(Toggle(OnFireNext(s, mech, hasGun)));
      t.triggerHeld == s.triggerHeld && |t.queue| >= |s.queue| && t.queue[..|s.queue|] == s.queue
  {
  }

  /**
   * The three outcomes of `FireWeapon`: while the gate is closed both timers
   * advance by `dt` and nothing is spawned; a drain removes exactly the front
   * token, restarts the inter-shot timer, leaves the cooldown timer alone and
   * spawns the whole pattern, one projectile per true cell, whatever the
   * queue length; an open gate without a projectile class or a world changes
   * nothing.
   */
  lemma FireWeaponOutcomes(s: FireState, m: FireParams, env: Engine, dt: real)
    requires FireWeaponReady(s, Some(m), env)
    ensures var st := FireWeaponStep(s, Some(m), env, dt);
      st.next.triggerHeld == s.triggerHeld &&
      (!GateOpen(s, Some(m)) ==>
         st.next == s.(sinceSpawn := s.sinceSpawn + dt, sinceFire := s.sinceFire + dt) && st.spawns == []) &&
      (Drains(s, Some(m), env) ==>
         |st.next.queue| == |s.queue| - 1 && st.next.queue == s.queue[1..] &&
         st.next.sinceSpawn == 0.0 && st.next.sinceFire == s.sinceFire &&
         st.spawns == PatternSpawns(m.spreadPattern, m.spreadWidth, env.spreadHeight, env.cellDim, m.spreadDepth) &&
         |st.spawns| == multiset(m.spreadPattern)[true]) &&
      (GateOpen(s, Some(m)) && !(env.hasProjectileClass && env.hasWorld) ==> st == Step(s, []))
  {
    if Drains(s, Some(m), env) {
      SpawnCount(m.spreadPattern, m.spreadWidth, env.spreadHeight, env.cellDim, m.spreadDepth);
    }
  }

  /** The inter-shot delay is strict: a timer that equals the delay does not open the gate. */
  lemma ExactDelayDoesNotDrain(s: FireState, m: FireParams, env: Engine, dt: real)
    requires s.sinceSpawn == m.multiplierDelay
    ensures FireWeaponStep(s, Some(m), env, dt) == Step(s.(sinceSpawn := s.sinceSpawn + dt, sinceFire := s.sinceFire + dt), [])
  {
  }

  /**
   * A tick removes at most the front token: the remaining tokens keep their
   * order at the front of the queue, and any re-triggered tokens go behind them.
   */
  lemma TickIsFifo(s: FireState, mech: Option<FireParams>, env: Engine, dt: real)
    requires TickReady(s, mech, env)
    ensures var d := if Drains(s, mech, env) then 1 else 0;
      var t := TickStep(s, mech, env, dt).next;
      d <= |s.queue| && |t.queue| >= |s.queue| - d && t.queue[..|s.queue| - d] == s.queue[d..]
  {
  }

  /** After a drain, the very next tick cannot drain again (for a non-negative delay). */
  lemma NoBackToBackDrains(s: FireState, m: FireParams, env: Engine, dt: real)
    requires TickReady(s, Some(m), env)
    requires m.multiplierDelay >= 0.0
    requires Drains(s, Some(m), env)
    ensures !GateOpen(TickStep(s, Some(m), env, dt).next, Some(m))
  {
  }

  /**
   * With the trigger not re-firing, enough ticks empty the queue and the log
   * is one copy of the pattern's spawns per queued token. Frames may be
   * shorter than the inter-shot delay: every frame lasts at least `eps`, and
   * `n` such frames outlast the delay, so after a drain the gate reopens
   * within `n` closed ticks and each token costs at most `n + 1` ticks. The
   * counter `b` is how many closed ticks the first token may still wait
   * (the inter-shot timer already holds `n - b` frames' worth).
   */
  lemma {:induction false} QueueDrainsCompletely(s: FireState, m: FireParams, env: Engine, dts: seq<real>,
                                                 eps: real, n: nat, b: nat)
    requires CanDraw(m.spreadPattern, m.spreadWidth)
    requires env.hasProjectileClass && env.hasWorld
    requires !(s.triggerHeld && m.fullAutomatic)
    requires eps > 0.0 && n as real * eps > m.multiplierDelay
    requires b <= n && s.sinceSpawn >= (n - b) as real * eps
    requires forall k | 0 <= k < |dts| :: dts[k] >= eps
    requires |s.queue| > 0 ==> |dts| >= b + 1 + (n + 1) * (|s.queue| - 1)
    ensures Run(s, m, env, dts).next.queue == []
    ensures Run(s, m, env, dts).spawns ==
      Repeat(PatternSpawns(m.spreadPattern, m.spreadWidth, env.spreadHeight, env.cellDim, m.spreadDepth), |s.queue|)
    ensures |Run(s, m, env, dts).spawns| == |s.queue| * multiset(m.spreadPattern)[true]
  {
    DrainsAll(s, m, env, dts, eps, n, b);
    var p := PatternSpawns(m.spreadPattern, m.spreadWidth, env.spreadHeight, env.cellDim, m.spreadDepth);
    SpawnCount(m.spreadPattern, m.spreadWidth, env.spreadHeight, env.cellDim, m.spreadDepth);
    RepeatLength(p, |s.queue|);
  }

  /**
   * The drain budget: the inter-shot timer holds at least `n - b` frames of
   * `eps`, and `ticks` covers `b + 1` ticks for the front token plus `n + 1`
   * for each one behind it.
   */
  ghost predicate OnBudget(s: FireState, ticks: nat, eps: real, n: nat, b: nat)
  {
    b <= n && s.sinceSpawn >= (n - b) as real * eps &&
    (|s.queue| > 0 ==> ticks >= b + 1 + (n + 1) * (|s.queue| - 1))
  }

  /** The closed ticks the front token may still wait after one more tick. */
  function NextWait(s: FireState, m: FireParams, n: nat, b: nat): nat
  {
    if GateOpen(s, Some(m)) then n else if |s.queue| == 0 || b == 0 then b else b - 1
  }

  /** One tick keeps the drain budget, one tick smaller. */
  lemma BudgetKept(s: FireState, m: FireParams, env: Engine, dt: real, ticks: nat, eps: real, n: nat, b: nat)
    requires CanDraw(m.spreadPattern, m.spreadWidth)
    requires env.hasProjectileClass && env.hasWorld
    requires eps > 0.0 && n as real * eps > m.multiplierDelay && dt >= eps
    requires ticks > 0 && OnBudget(s, ticks, eps, n, b)
    ensures OnBudget(FireWeaponStep(s, Some(m), env, dt).next, ticks - 1, eps, n, NextWait(s, m, n, b))
  {
    FireWeaponOutcomes(s, m, env, dt);
    if GateOpen(s, Some(m)) {
      BudgetAfterDrain(|s.queue|, ticks, n, b);
    } else if |s.queue| > 0 {
      TimerAdvances(s.sinceSpawn, m.multiplierDelay, dt, eps, n, b);
    }
  }

  /** The induction behind `QueueDrainsCompletely`, one tick at a time. */
  lemma {:induction false} DrainsAll(s: FireState, m: FireParams, env: Engine, dts: seq<real>,
                                     eps: real, n: nat, b: nat)
    requires CanDraw(m.spreadPattern, m.spreadWidth)
    requires env.hasProjectileClass && env.hasWorld
    requires !(s.triggerHeld && m.fullAutomatic)
    requires eps > 0.0 && n as real * eps > m.multiplierDelay
    requires forall k | 0 <= k < |dts| :: dts[k] >= eps
    requires OnBudget(s, |dts|, eps, n, b)
    ensures Run(s, m, env, dts).next.queue == []
    ensures Run(s, m, env, dts).spawns ==
      Repeat(PatternSpawns(m.spreadPattern, m.spreadWidth, env.spreadHeight, env.cellDim, m.spreadDepth), |s.queue|)
    decreases |dts|
  {
    if |dts| == 0 {
      assert |s.queue| == 0;
    } else {
      var first := FireWeaponStep(s, Some(m), env, dts[0]);
      BudgetKept(s, m, env, dts[0], |dts|, eps, n, b);
      assert forall k | 0 <= k < |dts[1..]| :: dts[1..][k] >= eps by {
        forall k | 0 <= k < |dts[1..]| ensures dts[1..][k] >= eps {
          assert dts[1..][k] == dts[k + 1];
        }
      }
      DrainsAll(first.next, m, env, dts[1..], eps, n, NextWait(s, m, n, b));
      LogAfterTick(s, m, env, dts);
    }
  }

  /** One tick in front of a run that fires the rest of the queue fires the whole queue. */
  lemma {:induction false} LogAfterTick(s: FireState, m: FireParams, env: Engine, dts: seq<real>)
    requires CanDraw(m.spreadPattern, m.spreadWidth)
    requires env.hasProjectileClass && env.hasWorld
    requires !(s.triggerHeld && m.fullAutomatic)
    requires |dts| > 0
    requires var first := FireWeaponStep(s, Some(m), env, dts[0]);
      var rest := Run(first.next, m, env, dts[1..]);
      rest.next.queue == [] &&
      rest.spawns == Repeat(PatternSpawns(m.spreadPattern, m.spreadWidth, env.spreadHeight, env.cellDim, m.spreadDepth), |first.next.queue|)
    ensures Run(s, m, env, dts).next.queue == []
    ensures Run(s, m, env, dts).spawns ==
      Repeat(PatternSpawns(m.spreadPattern, m.spreadWidth, env.spreadHeight, env.cellDim, m.spreadDepth), |s.queue|)
  {
    var first := FireWeaponStep(s, Some(m), env, dts[0]);
    var rest := Run(first.next, m, env, dts[1..]);
    var p := PatternSpawns(m.spreadPattern, m.spreadWidth, env.spreadHeight, env.cellDim, m.spreadDepth);
    TickWithoutRetrigger(s, m, env, dts[0]);
    RunFirst(s, m, env, dts);
    FireWeaponOutcomes(s, m, env, dts[0]);
    LogCompose(s.queue, GateOpen(s, Some(m)), first, rest, p);
  }

  /**
   * A tick that either fires the log `p` off the front of the queue or fires
   * nothing and keeps the queue, followed by a run that fires one `p` per
   * remaining token, fires one `p` per token of the whole queue.
   */
  lemma LogCompose(queue: seq<bool>, drained: bool, first: Step, rest: Step, p: seq<Spawn>)
    requires drained ==> |queue| > 0 && first.spawns == p && |first.next.queue| == |queue| - 1
    requires !drained ==> first.spawns == [] && first.next.queue == queue
    requires rest.spawns == Repeat(p, |first.next.queue|)
    ensures first.spawns + rest.spawns == Repeat(p, |queue|)
  {
    if !drained {
      assert first.spawns + rest.spawns == rest.spawns;
    }
  }

  /** `n` copies of a log are `n` times as long. */
  lemma {:induction false} RepeatLength(p: seq<Spawn>, k: nat)
    ensures |Repeat(p, k)| == k * |p|
  {
    if k > 0 {
      RepeatLength(p, k - 1);
      assert (k - 1) * |p| + |p| == k * |p|;
    }
  }

  /**
   * While the gate stays closed on a non-empty queue, the timer has not yet
   * passed the delay, so it holds less than `n` frames' worth, and one more
   * frame of at least `eps` moves it a frame closer.
   */
  lemma TimerAdvances(since: real, delay: real, dt: real, eps: real, n: nat, b: nat)
    requires eps > 0.0 && n as real * eps > delay
    requires b <= n && since >= (n - b) as real * eps && dt >= eps
    requires !(since > delay)
    ensures b > 0
    ensures since + dt >= (n - (b - 1)) as real * eps
  {
    assert (n - (b - 1)) as real * eps == (n - b) as real * eps + eps;
  }

  /** After a drain the remaining tokens fit in the remaining ticks, each waiting at most `n` closed ticks. */
  lemma BudgetAfterDrain(q: nat, ticks: nat, n: nat, b: nat)
    requires q > 0 && ticks >= b + 1 + (n + 1) * (q - 1)
    ensures q - 1 > 0 ==> ticks - 1 >= n + 1 + (n + 1) * (q - 1 - 1)
  {
    if q > 1 {
      assert (n + 1) * (q - 1) == (n + 1) * (q - 2) + n + 1;
    }
  }

  /** Without a re-trigger, a tick is just `FireWeapon`. */
  lemma TickWithoutRetrigger(s: FireState, m: FireParams, env: Engine, dt: real)
    requires FireWeaponReady(s, Some(m), env)
    requires !(s.triggerHeld && m.fullAutomatic)
    ensures TickStep(s, Some(m), env, dt) == FireWeaponStep(s, Some(m), env, dt)
  {
  }

  lemma RunFirst(s: FireState, m: FireParams, env: Engine, dts: seq<real>)
    requires CanDraw(m.spreadPattern, m.spreadWidth)
    requires |dts| > 0
    ensures var first := TickStep(s, Some(m), env, dts[0]);
      var rest := Run(first.next, m, env, dts[1..]);
      Run(s, m, env, dts) == Step(rest.next, first.spawns + rest.spawns)
  {
  }

  /**
   * Releasing the trigger does not flush the queue: after the release toggles
   * a held trigger up, `(n + 1) * |queue|` ticks fire every token, where every
   * frame lasts at least `eps` and `n` such frames outlast the inter-shot delay.
   */
  lemma ReleasedQueueStillFires(s: FireState, m: FireParams, env: Engine, dts: seq<real>, eps: real, n: nat)
    requires CanDraw(m.spreadPattern, m.spreadWidth)
    requires env.hasProjectileClass && env.hasWorld
    requires s.triggerHeld
    requires eps > 0.0 && n as real * eps > m.multiplierDelay && s.sinceSpawn >= 0.0
    requires forall k | 0 <= k < |dts| :: dts[k] >= eps
    requires |dts| >= (n + 1) * |s.queue|
    ensures Toggle(s).queue == s.queue
    ensures Run(Toggle(s), m, env, dts).next.queue == []
    ensures Run(Toggle(s), m, env, dts).spawns ==
      Repeat(PatternSpawns(m.spreadPattern, m.spreadWidth, env.spreadHeight, env.cellDim, m.spreadDepth), |s.queue|)
    ensures |Run(Toggle(s), m, env, dts).spawns| == |s.queue| * multiset(m.spreadPattern)[true]
  {
    assert (n - n) as real * eps == 0.0;
    if |s.queue| > 0 {
      assert (n + 1) * |s.queue| == n + 1 + (n + 1) * (|s.queue| - 1);
    }
    QueueDrainsCompletely(Toggle(s), m, env, dts, eps, n, n);
  }

  /**
   * `ChangePattern` accepts a zero width, after which a drain of a pattern
   * with a true cell would divide by zero when mapping the cell to the grid.
   */
  method ZeroWidthPatternAccepted() returns (ok: bool, drawable: bool)
    ensures ok && !drawable
  {
    var w := new WeaponMechanic();
    ok := w.ChangePattern([true], 0);
    assert w.SpreadWidth == 0 && w.SpreadPattern[0];
    drawable := CanDraw(w.SpreadPattern, w.SpreadWidth);
  }
}
