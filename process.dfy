/**
 * The game-process state machine of main.cpp (Game_Process): RUNNING moves
 * to LOSE when the player touches a platform and to WIN when the player
 * touches an enemy; both are final.
 *
 * Entity::check_collision is declared without its body, so the collision
 * outcomes are an input: `contact(s, t)` is what the player's collision test
 * against target `t` answers in the s-th simulation step of a frame.
 */
module ProcessMachine {
  import opened Constants

  datatype GameProcess = Running | Lose | Win

  /** A collision target: an index into the platform or the enemy array. */
  datatype Target = PlatformAt(index: nat) | EnemyAt(index: nat)

  /** The player touches one of the first `n` platforms in step `step`. */
  predicate TouchesPlatformAmong(contact: (nat, Target) -> bool, step: nat, n: nat)
  {
    exists i :: 0 <= i < n && contact(step, PlatformAt(i))
  }

  /** The player touches one of the first `n` enemies in step `step`. */
  predicate TouchesEnemyAmong(contact: (nat, Target) -> bool, step: nat, n: nat)
  {
    exists i :: 0 <= i < n && contact(step, EnemyAt(i))
  }

  /** Checking one more platform adds exactly that platform's answer. */
  lemma TouchesPlatformAmongNext(contact: (nat, Target) -> bool, step: nat, n: nat)
    ensures TouchesPlatformAmong(contact, step, n + 1)
        <==> TouchesPlatformAmong(contact, step, n) || contact(step, PlatformAt(n))
  {
  }

  /** Checking one more enemy adds exactly that enemy's answer. */
  lemma TouchesEnemyAmongNext(contact: (nat, Target) -> bool, step: nat, n: nat)
    ensures TouchesEnemyAmong(contact, step, n + 1)
        <==> TouchesEnemyAmong(contact, step, n) || contact(step, EnemyAt(n))
  {
  }

  predicate TouchesPlatform(contact: (nat, Target) -> bool, step: nat)
  {
    TouchesPlatformAmong(contact, step, PLATFORM_COUNT)
  }

  predicate TouchesEnemy(contact: (nat, Target) -> bool, step: nat)
  {
    TouchesEnemyAmong(contact, step, ENEMIES_COUNT)
  }

  /**
   * One simulation step. Outside RUNNING nothing is evaluated. In a running
   * step the platform checks run first and may set LOSE, and the enemy
   * checks run after them and may set WIN, so an enemy touch decides the
   * step whatever the platforms did.
   */
  function Step(p: GameProcess, contact: (nat, Target) -> bool, step: nat): (q: GameProcess)
    ensures q == Win <==> p == Win || (p == Running && TouchesEnemy(contact, step))
    ensures q == Lose <==> p == Lose || (p == Running && TouchesPlatform(contact, step) && !TouchesEnemy(contact, step))
    ensures q == Running <==> p == Running && !TouchesPlatform(contact, step) && !TouchesEnemy(contact, step)
  {
    if p != Running then p
    else if TouchesEnemy(contact, step) then Win
    else if TouchesPlatform(contact, step) then Lose
    else Running
  }

  /** The process after the first `n` steps of a frame, starting from `p`. */
  function ProcessAfter(p: GameProcess, contact: (nat, Target) -> bool, n: nat): GameProcess
  {
    if n == 0 then p else Step(ProcessAfter(p, contact, n - 1), contact, n - 1)
  }

  /** LOSE and WIN are final: once reached, later steps leave the process as it is. */
  lemma {:induction false} GameOverIsFinal(p: GameProcess, contact: (nat, Target) -> bool, m: nat, n: nat)
    requires m <= n
    requires ProcessAfter(p, contact, m) != Running
    ensures ProcessAfter(p, contact, n) == ProcessAfter(p, contact, m)
  {
    if m < n {
      GameOverIsFinal(p, contact, m, n - 1);
    }
  }

  /** The game is still running after `n` steps exactly when none of them touched anything. */
  lemma {:induction false} RunningIffNoContact(contact: (nat, Target) -> bool, n: nat)
    ensures ProcessAfter(Running, contact, n) == Running
        <==> forall s :: 0 <= s < n ==> !TouchesPlatform(contact, s) && !TouchesEnemy(contact, s)
  {
    if n > 0 {
      RunningIffNoContact(contact, n - 1);
    }
  }

  /**
   * The first step with any contact decides the game: WIN if an enemy was
   * touched in it (whatever the platforms did), LOSE otherwise.
   */
  lemma FirstContactDecides(contact: (nat, Target) -> bool, s: nat, n: nat)
    requires s < n
    requires forall t :: 0 <= t < s ==> !TouchesPlatform(contact, t) && !TouchesEnemy(contact, t)
    requires TouchesPlatform(contact, s) || TouchesEnemy(contact, s)
    ensures ProcessAfter(Running, contact, n) == if TouchesEnemy(contact, s) then Win else Lose
  {
    RunningIffNoContact(contact, s);
    GameOverIsFinal(Running, contact, s + 1, n);
  }
}
