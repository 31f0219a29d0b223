/**
 * main.cpp's global game state and the three routines that change it:
 * initialise (the constructor of Game), process_input and update.
 *
 * The entity routines declared in Entity.h and defined outside main.cpp and
 * Entity.h (Entity::update, ai_slime_move, regular_move, check_collision)
 * are not covered by this model: update records each call it makes to them
 * in the ghost log `calls`, may change the entities in any way, and the
 * collision answers come in as the `contact` input (see ProcessMachine).
 * The SDL clock, event queue and keyboard become parameters.
 */
module GameLoop {
  import opened Constants
  import opened CMath
  import opened Entities
  import opened Scheduler
  import opened ProcessMachine

  // ----- the calls one simulation step makes into entity code -----

  datatype Call =
    | SlimeMove(enemy: nat)                                    // enemies[i].ai_slime_move(player)
    | UpdateEnemy(enemy: nat)                                  // enemies[i].update(FIXED_TIMESTEP)
    | PatrolMove(platform: nat, rightBound: real, leftBound: real)  // platforms[i].regular_move(...)
    | UpdatePlatform(platform: nat)                            // platforms[i].update(FIXED_TIMESTEP)
    | UpdatePlayer                                             // player->update(FIXED_TIMESTEP, ...)

  /** Each of the first `n` enemies, in index order, makes its ai_slime_move(player) call and then its update call. */
  function EnemyCalls(n: nat): (r: seq<Call>)
    ensures |r| == 2 * n
    ensures forall j :: 0 <= j < n ==> r[2 * j] == SlimeMove(j) && r[2 * j + 1] == UpdateEnemy(j)
    ensures UpdatePlayer !in r
  {
    seq(2 * n, k requires 0 <= k < 2 * n => if k % 2 == 0 then SlimeMove(k / 2) else UpdateEnemy(k / 2))
  }

  /** The enemy calls grow by one enemy's pair of calls at a time. */
  lemma EnemyCallsNext(n: nat)
    ensures EnemyCalls(n + 1) == EnemyCalls(n) + [SlimeMove(n), UpdateEnemy(n)]
  {
    var longer, shorter := EnemyCalls(n + 1), EnemyCalls(n) + [SlimeMove(n), UpdateEnemy(n)];
    forall k | 0 <= k < 2 * n + 2
      ensures longer[k] == shorter[k]
    {
      if k < 2 * n {
        assert longer[k] == EnemyCalls(n)[k];
      }
    }
  }

  /** The two moving platforms patrol between -2 and 2, then are updated. */
  const PATROL_CALLS: seq<Call> :=
    [ PatrolMove(PLATFORM_COUNT - 1, 2.0, -2.0), PatrolMove(PLATFORM_COUNT - 2, 2.0, -2.0),
      UpdatePlatform(PLATFORM_COUNT - 1), UpdatePlatform(PLATFORM_COUNT - 2) ]

  /** The enemy and platform calls of one step: made only while the game is running. */
  function WorldCalls(p: GameProcess): seq<Call>
  {
    if p == Running then EnemyCalls(ENEMIES_COUNT) + PATROL_CALLS else []
  }

  /** The calls of one step: the world moves only while running; the player always does. */
  function StepCalls(p: GameProcess): seq<Call>
  {
    WorldCalls(p) + [UpdatePlayer]
  }

  /** The calls of the first `n` steps of a frame that starts in process `p`. */
  function FrameCalls(p: GameProcess, contact: (nat, Target) -> bool, n: nat): seq<Call>
  {
    if n == 0 then [] else FrameCalls(p, contact, n - 1) + StepCalls(ProcessAfter(p, contact, n - 1))
  }

  /** Appending one step's calls to a log that ends with a frame's first `n` steps. */
  lemma AppendStepCalls(log: seq<Call>, p: GameProcess, contact: (nat, Target) -> bool, n: nat)
    ensures log + FrameCalls(p, contact, n) + StepCalls(ProcessAfter(p, contact, n))
         == log + FrameCalls(p, contact, n + 1)
  {
  }

  /** The calls of a frame's first steps are a prefix of the calls of its later ones. */
  lemma {:induction false} FrameCallsGrow(p: GameProcess, contact: (nat, Target) -> bool, m: nat, n: nat)
    requires m <= n
    ensures FrameCalls(p, contact, m) <= FrameCalls(p, contact, n)
  {
    if m < n {
      FrameCallsGrow(p, contact, m, n - 1);
      assert FrameCalls(p, contact, n - 1) <= FrameCalls(p, contact, n);
    }
  }

  /**
   * The player entity is updated in every step, running or not: the last
   * call of step `s` is the player's update.
   */
  lemma PlayerUpdatedEveryStep(p: GameProcess, contact: (nat, Target) -> bool, s: nat, n: nat)
    requires s < n
    ensures var end := |FrameCalls(p, contact, s + 1)|;
            0 < end <= |FrameCalls(p, contact, n)| && FrameCalls(p, contact, n)[end - 1] == UpdatePlayer
  {
    FrameCallsGrow(p, contact, s + 1, n);
  }

  /**
   * After the game is over, no enemy or platform is moved or updated any
   * more: every later step makes the player's update call and nothing else.
   */
  lemma {:induction false} GameOverOnlyUpdatesPlayer(p: GameProcess, contact: (nat, Target) -> bool, m: nat, n: nat)
    requires m <= n
    requires ProcessAfter(p, contact, m) != Running
    ensures FrameCalls(p, contact, n) == FrameCalls(p, contact, m) + seq(n - m, _ => UpdatePlayer)
  {
    if m < n {
      GameOverOnlyUpdatesPlayer(p, contact, m, n - 1);
      GameOverIsFinal(p, contact, m, n - 1);
      assert StepCalls(ProcessAfter(p, contact, n - 1)) == [UpdatePlayer];
      assert FrameCalls(p, contact, n) == FrameCalls(p, contact, n - 1) + [UpdatePlayer];
      assert seq(n - m, _ => UpdatePlayer) == seq(n - 1 - m, _ => UpdatePlayer) + [UpdatePlayer];
    }
  }

  // ----- the keyboard -----

  /** The four arrow keys as SDL_GetKeyboardState reports them. */
  datatype Keys = Keys(left: bool, right: bool, up: bool, down: bool)

  /** glm::length of a vector (x, 0, 0). */
  function AxisLength(x: real): (l: real)
    ensures l >= 0.0 && (l == x || l == -x)
  {
    if x < 0.0 then -x else x
  }

  /** Dividing a non-zero x by its length gives its direction, 1 or -1. */
  lemma DirectionOf(x: real)
    requires AxisLength(x) > 1.0
    ensures x / AxisLength(x) == if x > 0.0 then 1.0 else -1.0
  {
    if x > 0.0 {
      assert AxisLength(x) == x;
    } else {
      var l := AxisLength(x);
      assert l == -x;
      assert (-l) / l == -1.0;
    }
  }

  /**
   * The x component after process_input's normalisation of a vector
   * (x, 0, 0): one longer than 1 becomes x / |x|, a unit vector in the same
   * direction; a shorter one is kept.
   */
  function AxisNormalise(x: real): (r: real)
    ensures -1.0 <= r <= 1.0
    ensures x > 1.0 ==> r == 1.0
    ensures x < -1.0 ==> r == -1.0
    ensures -1.0 <= x <= 1.0 ==> r == x
  {
    if AxisLength(x) > 1.0 then
      DirectionOf(x);
      x / AxisLength(x)
    else x
  }

  /**
   * The player's acceleration after one call of process_input: reset to
   * zero, then at most one horizontal thrust, normalised when it is longer
   * than 1, then at most one vertical thrust, each only with fuel left.
   * Left wins over right and up over down.
   */
  function ThrustAcceleration(keys: Keys, fuel: int, power: real): (a: Vec3)
    ensures a.z == 0.0
    ensures fuel <= 0 ==> a == ZERO
    ensures -1.0 <= a.x <= 1.0
    ensures fuel > 0 && keys.left ==> a.x == AxisNormalise(-power)
    ensures fuel > 0 && !keys.left && keys.right ==> a.x == AxisNormalise(power)
    ensures fuel > 0 && (keys.left || keys.right) && -1.0 <= power <= 1.0 ==>
              a.x == if keys.left then -power else power
    ensures !keys.left && !keys.right ==> a.x == 0.0
    ensures fuel > 0 && keys.up ==> a.y == power - GRAVITY
    ensures fuel > 0 && !keys.up && keys.down ==> a.y == -power - GRAVITY
    ensures !keys.up && !keys.down ==> a.y == 0.0
  {
    var x := if fuel > 0 && keys.left then -power else if fuel > 0 && keys.right then power else 0.0;
    var y := if fuel > 0 && keys.up then power - GRAVITY else if fuel > 0 && keys.down then -power - GRAVITY else 0.0;
    Vec3(AxisNormalise(x), y, 0.0)
  }

  /** Whether process_input issues any thrust, which raises the fuel-in-use flag. */
  predicate UsesFuel(keys: Keys, fuel: int)
  {
    fuel > 0 && (keys.left || keys.right || keys.up || keys.down)
  }

  // ----- initialise() helpers: each builds fresh entities and touches nothing else -----

  /** A platform entity as initialise sets one up: unit size, at the given position. */
  method NewPlatform(texture: nat, position: Vec3) returns (e: Entity)
    ensures fresh(e)
    ensures e.position == position && e.width == 1.0 && e.height == 1.0
    ensures e.entityType == Platform && e.textureId == texture
  {
    e := new Entity();
    e.SetTextureId(texture);
    e.SetPosition(position);
    e.SetWidth(1.0);
    e.SetHeight(1.0);
    e.SetEntityType(Platform);
  }

  /** The floor: PLATFORM_COUNT - 2 unit tiles side by side along y = -3.8. */
  method NewFloorTiles(texture: nat) returns (tiles: seq<Entity>)
    ensures |tiles| == PLATFORM_COUNT - 2
    ensures forall i :: 0 <= i < |tiles| ==> fresh(tiles[i])
    ensures forall i, j :: 0 <= i < j < |tiles| ==> tiles[i] != tiles[j]
    ensures forall i :: 0 <= i < PLATFORM_COUNT - 2 ==>
              tiles[i].position == Vec3(i as real - 4.5, -3.8, 0.0) &&
              tiles[i].width == 1.0 && tiles[i].height == 1.0 &&
              tiles[i].entityType == Platform && tiles[i].textureId == texture
  {
    tiles := [];
    for i := 0 to PLATFORM_COUNT - 2
      invariant |tiles| == i
      invariant forall j :: 0 <= j < i ==> fresh(tiles[j])
      invariant forall j, k :: 0 <= j < k < i ==> tiles[j] != tiles[k]
      invariant forall j :: 0 <= j < i ==>
                  tiles[j].position == Vec3(j as real - 4.5, -3.8, 0.0) &&
                  tiles[j].width == 1.0 && tiles[j].height == 1.0 &&
                  tiles[j].entityType == Platform && tiles[j].textureId == texture
    {
      var tile := NewPlatform(texture, Vec3(i as real - 4.5, -3.8, 0.0));
      tiles := tiles + [tile];
    }
  }

  /**
   * initialise's platform array: the floor tiles, then the high moving
   * platform at index PLATFORM_COUNT - 2 and the low one at PLATFORM_COUNT - 1,
   * their x positions drawn from rand() as `-rand() % 3` and `rand() % 3`.
   */
  method NewPlatforms(texture: nat, rand1: nat, rand2: nat) returns (platforms: array<Entity>)
    ensures fresh(platforms) && platforms.Length == PLATFORM_COUNT
    ensures forall i :: 0 <= i < PLATFORM_COUNT ==> fresh(platforms[i])
    ensures forall i, j :: 0 <= i < j < PLATFORM_COUNT ==> platforms[i] != platforms[j]
    ensures forall i :: 0 <= i < PLATFORM_COUNT - 2 ==>
              platforms[i].position == Vec3(i as real - 4.5, -3.8, 0.0)
    ensures platforms[PLATFORM_COUNT - 1].position == Vec3((rand1 % 3) as real, -1.8, 0.0)
    ensures platforms[PLATFORM_COUNT - 2].position == Vec3(-((rand2 % 3) as real), 1.8, 0.0)
    ensures forall i :: 0 <= i < PLATFORM_COUNT ==>
              platforms[i].width == 1.0 && platforms[i].height == 1.0 &&
              platforms[i].entityType == Platform && platforms[i].textureId == texture
  {
    var tiles := NewFloorTiles(texture);
    var low := NewPlatform(texture, Vec3(TruncMod(rand1, 3) as real, -1.8, 0.0));
    var negated := -(rand2 as int);
    var high := NewPlatform(texture, Vec3(TruncMod(negated, 3) as real, 1.8, 0.0));
    var all := tiles + [high, low];
    platforms := new Entity[PLATFORM_COUNT](i requires 0 <= i < PLATFORM_COUNT => all[i]);
  }

  /** The enemies: half-size slimes two units apart along y = -3.1. */
  method NewEnemies(texture: nat) returns (enemies: array<Entity>)
    ensures fresh(enemies) && enemies.Length == ENEMIES_COUNT
    ensures forall i :: 0 <= i < ENEMIES_COUNT ==> fresh(enemies[i])
    ensures forall i, j :: 0 <= i < j < ENEMIES_COUNT ==> enemies[i] != enemies[j]
    ensures forall i :: 0 <= i < ENEMIES_COUNT ==>
              enemies[i].position == Vec3(2.0 * i as real - 4.5, -3.1, 0.0) &&
              enemies[i].width == 0.5 && enemies[i].height == 0.5 &&
              enemies[i].entityType == Enemy && enemies[i].textureId == texture &&
              enemies[i].scale == Vec3(0.5, 0.5, 0.5)
  {
    var slimes: seq<Entity> := [];
    for i := 0 to ENEMIES_COUNT
      invariant |slimes| == i
      invariant forall j :: 0 <= j < i ==> fresh(slimes[j])
      invariant forall j, k :: 0 <= j < k < i ==> slimes[j] != slimes[k]
      invariant forall j :: 0 <= j < i ==>
                  slimes[j].position == Vec3(2.0 * j as real - 4.5, -3.1, 0.0) &&
                  slimes[j].width == 0.5 && slimes[j].height == 0.5 &&
                  slimes[j].entityType == Enemy && slimes[j].textureId == texture &&
                  slimes[j].scale == Vec3(0.5, 0.5, 0.5)
    {
      var slime := new Entity();
      slime.SetTextureId(texture);
      slime.SetPosition(Vec3(2.0 * i as real - 4.5, -3.1, 0.0));
      slime.SetWidth(0.5);
      slime.SetHeight(0.5);
      slime.SetEntityType(Enemy);
      slime.SetScale(Vec3(0.5, 0.5, 0.5));
      slimes := slimes + [slime];
    }
    enemies := new Entity[ENEMIES_COUNT](i requires 0 <= i < ENEMIES_COUNT => slimes[i]);
  }

  // ----- the game state -----

  class Game {
    const player: Entity
    const platforms: array<Entity>
    const enemies: array<Entity>
    var process: GameProcess          // game_process
    var isRunning: bool               // g_game_is_running
    var previousTicks: real           // g_previous_ticks, in seconds
    var accumulator: real             // g_accumulator
    ghost var calls: seq<Call>

    /**
     * The arrays have their fixed sizes, the accumulator holds less than one
     * step, and every platform, enemy and the player is a separate entity.
     */
    ghost predicate Valid()
      reads this, platforms, enemies
    {
      platforms.Length == PLATFORM_COUNT &&
      enemies.Length == ENEMIES_COUNT &&
      0.0 <= accumulator < FIXED_TIMESTEP &&
      (forall i, j :: 0 <= i < j < platforms.Length ==> platforms[i] != platforms[j]) &&
      (forall i, j :: 0 <= i < j < enemies.Length ==> enemies[i] != enemies[j]) &&
      (forall i, j :: 0 <= i < platforms.Length && 0 <= j < enemies.Length ==> platforms[i] != enemies[j]) &&
      (forall i :: 0 <= i < platforms.Length ==> platforms[i] != player) &&
      (forall j :: 0 <= j < enemies.Length ==> enemies[j] != player)
    }

    /** Every entity of the game: the player, the platforms and the enemies. */
    ghost function World(): set<Entity>
      reads this, platforms, enemies
    {
      {player} + (set i | 0 <= i < platforms.Length :: platforms[i])
               + (set j | 0 <= j < enemies.Length :: enemies[j])
    }

    /**
     * initialise(): ten floor tiles in a row, two moving platforms at
     * positions drawn from rand(), six enemies spaced two units apart and
     * the player high above with a full tank. The texture ids and the two
     * rand() results are inputs. The player's seven-argument constructor is
     * defined outside main.cpp and Entity.h and this model does not cover it,
     * so only what initialise sets after it is promised.
     */
    constructor (platformTexture: nat, enemyTexture: nat, rand1: nat, rand2: nat)
      ensures Valid()
      ensures fresh(platforms) && fresh(enemies) && fresh(player)
      ensures forall i :: 0 <= i < platforms.Length ==> fresh(platforms[i])
      ensures forall j :: 0 <= j < enemies.Length ==> fresh(enemies[j])
      ensures process == Running && isRunning && previousTicks == 0.0 && accumulator == 0.0
      ensures calls == []
      ensures forall i :: 0 <= i < PLATFORM_COUNT - 2 ==>
                platforms[i].position == Vec3(i as real - 4.5, -3.8, 0.0) &&
                platforms[i].width == 1.0 && platforms[i].height == 1.0 &&
                platforms[i].entityType == Platform && platforms[i].textureId == platformTexture
      ensures platforms[PLATFORM_COUNT - 1].position == Vec3((rand1 % 3) as real, -1.8, 0.0)
      ensures platforms[PLATFORM_COUNT - 2].position == Vec3(-((rand2 % 3) as real), 1.8, 0.0)
      ensures forall i :: PLATFORM_COUNT - 2 <= i < PLATFORM_COUNT ==>
                platforms[i].width == 1.0 && platforms[i].height == 1.0 &&
                platforms[i].entityType == Platform && platforms[i].textureId == platformTexture
      ensures forall i :: 0 <= i < ENEMIES_COUNT ==>
                enemies[i].position == Vec3(2.0 * i as real - 4.5, -3.1, 0.0) &&
                enemies[i].width == 0.5 && enemies[i].height == 0.5 &&
                enemies[i].entityType == Enemy && enemies[i].textureId == enemyTexture &&
                enemies[i].scale == Vec3(0.5, 0.5, 0.5)
      ensures player.scale == Vec3(0.5, 0.5, 0.5)
      ensures player.position == Vec3(0.0, 3.6, 0.0)
      ensures player.fuel == FUEL_AMOUNT
    {
      var floor := NewPlatforms(platformTexture, rand1, rand2);
      var slimes := NewEnemies(enemyTexture);
      platforms, enemies := floor, slimes;

      var lander := new Entity();
      lander.SetScale(Vec3(0.5, 0.5, 0.5));
      lander.SetPosition(Vec3(0.0, 3.6, 0.0));
      lander.SetFuel(FUEL_AMOUNT);
      player := lander;

      process := Running;
      isRunning := true;
      previousTicks := 0.0;
      accumulator := 0.0;
      calls := [];
    }

    /**
     * process_input(): a quit event (window closed or the q key) stops the
     * main loop; the arrow keys set the player's thrust from scratch (a
     * horizontal thrust longer than 1 is normalised before the vertical one
     * is added), and every thrust issued raises the fuel-in-use flag, an upward one also the
     * ascending flag. Fuel itself is not spent here.
     */
    method ProcessInput(quit: bool, keys: Keys)
      modifies this`isRunning, player`acceleration, player`isAscending, player`fuelIsUsing
      ensures isRunning == (old(isRunning) && !quit)
      ensures player.acceleration == ThrustAcceleration(keys, player.fuel, player.ascPower)
      ensures player.fuelIsUsing == (old(player.fuelIsUsing) || UsesFuel(keys, player.fuel))
      ensures player.isAscending == (old(player.isAscending) || (player.fuel > 0 && keys.up))
    {
      player.SetAcceleration(ZERO);
      if quit {
        isRunning := false;
      }
      if keys.left {
        if player.GetFuel() > 0 {
          player.FuelUsing();
          player.AccelerateLeft();
        }
      } else if keys.right {
        if player.GetFuel() > 0 {
          player.FuelUsing();
          player.AccelerateRight();
        }
      }
      // Only the x component can be non-zero here, so glm::length is |x| and
      // glm::normalize gives (x / |x|, 0, 0).
      var a := player.GetAcceleration();
      if AxisLength(a.x) > 1.0 {
        player.SetAcceleration(Vec3(a.x / AxisLength(a.x), a.y, a.z));
      }
      if keys.up {
        if player.GetFuel() > 0 {
          player.FuelUsing();
          player.PowerUp();
          player.AccelerateUp();
        }
      } else if keys.down {
        if player.GetFuel() > 0 {
          player.FuelUsing();
          player.AccelerateDown();
        }
      }
    }

    /**
     * One pass of update()'s loop body: while running, the platform checks
     * (any touch sets LOSE), then each enemy moves, is updated and is
     * checked (any touch sets WIN), then the two moving platforms patrol and
     * are updated; in every state the player is then updated.
     */
    method SimulateStep(step: nat, contact: (nat, Target) -> bool)
      modifies this`process, this`calls, World()
      ensures process == Step(old(process), contact, step)
      ensures calls == old(calls) + StepCalls(old(process))
    {
      if process == Running {
        for i := 0 to PLATFORM_COUNT
          invariant process == if TouchesPlatformAmong(contact, step, i) then Lose else Running
          invariant calls == old(calls)
        {
          TouchesPlatformAmongNext(contact, step, i);
          if contact(step, PlatformAt(i)) {
            process := Lose;
          }
        }
        ghost var afterPlatforms := process;
        for i := 0 to ENEMIES_COUNT
          invariant process == if TouchesEnemyAmong(contact, step, i) then Win else afterPlatforms
          invariant calls == old(calls) + EnemyCalls(i)
        {
          EnemyCallsNext(i);
          TouchesEnemyAmongNext(contact, step, i);
          calls := calls + [SlimeMove(i), UpdateEnemy(i)];
          if contact(step, EnemyAt(i)) {
            process := Win;
          }
        }
        calls := calls + PATROL_CALLS;
      }
      calls := calls + [UpdatePlayer];
    }

    /**
     * update()'s while loop: fixed steps run while at least one step of time
     * is left; each advances the game process and makes its entity calls.
     * It returns what is left, below one step, and how many steps ran.
     */
    method RunSteps(total: real, contact: (nat, Target) -> bool) returns (leftover: real, steps: nat)
      requires total >= 0.0
      modifies this`process, this`calls, World()
      ensures steps as real * FIXED_TIMESTEP + leftover == total
      ensures 0.0 <= leftover < FIXED_TIMESTEP
      ensures process == ProcessAfter(old(process), contact, steps)
      ensures calls == old(calls) + FrameCalls(old(process), contact, steps)
    {
      ghost var start, log := process, calls;
      ghost var bound := WholeSteps(total);
      leftover, steps := total, 0;
      while leftover >= FIXED_TIMESTEP
        invariant steps as real * FIXED_TIMESTEP + leftover == total
        invariant leftover >= 0.0
        invariant steps <= bound
        invariant process == ProcessAfter(start, contact, steps)
        invariant calls == log + FrameCalls(start, contact, steps)
        decreases bound - steps
      {
        AnotherStepFits(total, steps, leftover);
        SimulateStep(steps, contact);
        AppendStepCalls(log, start, contact, steps);
        leftover := leftover - FIXED_TIMESTEP;
        steps := steps + 1;
      }
    }

    /**
     * update(): the time since the last frame (`ticks` is the SDL clock in
     * seconds) is added to the accumulator; below one fixed step nothing is
     * simulated and the sum is carried; otherwise RunFrame's whole number of
     * steps run, each advancing the game process and making its entity
     * calls, and the leftover is carried. The entities may change in any way.
     */
    method Update(ticks: real, contact: (nat, Target) -> bool)
      requires Valid()
      requires ticks >= previousTicks
      modifies this`previousTicks, this`accumulator, this`process, this`calls, World()
      ensures Valid()
      ensures previousTicks == ticks
      ensures var f := RunFrame(old(accumulator), ticks - old(previousTicks));
              && accumulator == f.leftover
              && process == ProcessAfter(old(process), contact, f.steps)
              && calls == old(calls) + FrameCalls(old(process), contact, f.steps)
    {
      ghost var carried, elapsed := accumulator, ticks - previousTicks;
      var deltaTime := ticks - previousTicks;
      previousTicks := ticks;
      deltaTime := deltaTime + accumulator;
      if deltaTime < FIXED_TIMESTEP {
        accumulator := deltaTime;
        return;
      }
      var leftover, steps := RunSteps(deltaTime, contact);
      accumulator := leftover;
      RunFrameIsTheSplit(carried, elapsed, steps, leftover);
    }
  }
}
