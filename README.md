# Lunar lander game loop, modelled in Dafny

This project models the core of a small 2D lunar-lander platformer written in C++
with SDL and OpenGL. The player steers a fuel-limited lander over ten floor
tiles and two platforms that move back and forth. Six slimes are placed two units
apart along y = -3.1; in every running step each slime's `ai_slime_move(player)` and then its
`update` run. Touching an enemy wins the game and touching a
platform loses it.

The model covers:

- **`Entity` (Entity.h)**: the class whose fields the game overwrites in place.
  It is modelled as a Dafny `class Entity` with the same fields except `m_model_matrix` and the animation fields. Each setter and
  each thrust or move command may write only the field it names (a
  field-granular ``modifies this`f`` frame). The getters are functions that read
  one field each. Gravity is 0.2, and `move_left`/`move_right` set a horizontal
  speed of 0.15.
- **The fixed-timestep scheduler (`update` in main.cpp)**: frame time is added
  to a carried accumulator, as many whole steps as fit are run, and the leftover
  is carried. `Scheduler.RunFrame` is the specification of one frame.
  `Game.Update` and `Game.RunSteps` run the program's `while` loop and are proved against it. The
  lemmas show that the split into steps and leftover is unique, and that the
  step count does not depend on how the same total time is cut into frames.
- **The game-process state machine (`Game_Process`)**: RUNNING moves to LOSE
  when the player touches a platform and to WIN when the player touches an
  enemy. Both end states are final.
- **Keyboard-to-thrust mapping (`process_input`)**: the acceleration is reset
  every frame, left beats right, up beats down, and every thrust needs fuel
  above zero. A horizontal thrust longer than 1 is normalised to length 1.
- **The glyph buffers of `draw_text`**: each character adds twelve vertex
  floats and twelve texture floats, and six vertices per character are drawn.
- **`initialise`**: the layout of the platforms, the enemies and the player.

Some entity routines are declared in Entity.h and defined outside main.cpp and
Entity.h: `check_collision`, both `update` overloads, `ai_slime_move`,
`regular_move` and the constructors. This model does not cover their
definitions and treats them as follows:

- The answers of the player's collision test are an input, `contact(s, t)`:
  whether the player touches target `t` (a platform or enemy index) in the
  `s`-th step of the frame.
- Every other call is recorded, in order, in the ghost log `Game.calls`. So
  the model states which entity routines a step calls and when, but not what
  they do to the entities: a step may change the player, the platforms and
  the enemies in any way, and nothing is promised about their fields
  afterwards.
- The SDL clock, the event queue, the keyboard state, `rand()` and the texture
  loader become method parameters.

C++ `float`s are modelled as Dafny `real`s. The C++ `/` and `%` on integers
round toward zero. They are modelled explicitly in `CMath`, because the game
applies them to values that can be negative:

- `-rand() % 3` parses as `(-rand()) % 3`, so its value lies between -2 and 0.
- `(int)text[i]` is a signed `char`.

## Model

| member | source | states |
|---|---|---|
| `CMath.TruncMod` | main.cpp:144 | C++ `%` with a positive divisor: the remainder has the dividend's sign and a smaller magnitude than the divisor |
| `CMath.TruncDiv` | main.cpp:145 | C++ `/` with a positive divisor: quotient times divisor plus the truncating remainder gives back the dividend; the quotient has the dividend's sign |
| `Entities.Entity.constructor` | Entity.h:39-47 | a default-constructed entity has width and height 1, all four collision flags false and `isMoveRight` true |
| `Entities.Entity.AccelerateLeft` | Entity.h:69 | acceleration.x becomes -asc_power; y, z and every other field stay unchanged |
| `Entities.Entity.AccelerateRight` | Entity.h:70 | acceleration.x becomes +asc_power; y, z and every other field stay unchanged |
| `Entities.Entity.AccelerateUp` | Entity.h:71 | acceleration.y becomes asc_power - GRAVITY (0.2); x, z and every other field stay unchanged |
| `Entities.Entity.AccelerateDown` | Entity.h:72 | acceleration.y becomes -asc_power - GRAVITY; x, z and every other field stay unchanged |
| `Entities.Entity.MoveLeft` | Entity.h:73 | velocity.x becomes exactly -0.15; nothing else changes |
| `Entities.Entity.MoveRight` | Entity.h:74 | velocity.x becomes exactly 0.15; nothing else changes |
| `Entities.Entity.PowerUp` | Entity.h:80 | the ascending flag becomes true whatever it was, so calling it twice is the same as once; nothing else changes |
| `Entities.Entity.FuelUsing` | Entity.h:81 | the fuel-in-use flag becomes true whatever it was, so calling it twice is the same as once; nothing else changes |
| `Entities.Entity.SetEntityType` | Entity.h:101 | writes the entity type and no other field |
| `Entities.Entity.SetPosition` | Entity.h:102 | writes the position and no other field |
| `Entities.Entity.SetVelocity` | Entity.h:103 | writes the velocity and no other field |
| `Entities.Entity.SetAcceleration` | Entity.h:104 | writes the acceleration and no other field |
| `Entities.Entity.SetScale` | Entity.h:105 | writes the scale and no other field |
| `Entities.Entity.SetTextureId` | Entity.h:106 | writes the texture id and no other field |
| `Entities.Entity.SetSpeed` | Entity.h:107 | writes the speed and no other field |
| `Entities.Entity.SetAscPower` | Entity.h:108 | writes the thrust power and no other field |
| `Entities.Entity.SetWidth` | Entity.h:109 | writes the width and no other field |
| `Entities.Entity.SetHeight` | Entity.h:110 | writes the height and no other field |
| `Entities.Entity.SetFuel` | Entity.h:111 | writes the fuel as given, negative values included (no clamping), and no other field |
| `Entities.SettersThenGetters` | Entity.h:84-111 | after every setter that has a getter (all but set_asc_power) is applied to one entity, each getter returns exactly the value its setter wrote: no setter disturbs another field and nothing is clamped |
| `Scheduler.WholeSteps` | main.cpp:375-398 | the number of whole fixed steps in a non-negative time: k steps fit and k + 1 do not |
| `Scheduler.SplitIsUnique` | main.cpp:375-401 | a time splits in only one way into whole steps plus a leftover in [0, FIXED_TIMESTEP) |
| `Scheduler.AnotherStepFits` | main.cpp:375-398 | while at least one step of time remains, the steps run so far are fewer than the whole steps in the total, so the loop ends |
| `Scheduler.RunFrame` | main.cpp:367-401 | one frame: steps x FIXED_TIMESTEP + leftover equals old accumulator + frame time; the leftover is below one step and not negative when the sum is not; no step runs exactly when the sum is below one step, and then the whole sum is carried |
| `Scheduler.RunFrameIsTheSplit` | main.cpp:367-401 | any split of the summed time into whole steps and a leftover in [0, FIXED_TIMESTEP) is the one RunFrame returns |
| `Scheduler.Sum` | main.cpp:364-367 | the total of a run of frame times is not negative when no frame time is |
| `Scheduler.TwoFramesAsOne` | main.cpp:361-404 | two successive frames run as many steps, and leave the same accumulator, as one frame of their combined time |
| `Scheduler.FramesAsOne` | main.cpp:361-404 | any run of frames, from a valid accumulator and with non-negative frame times, ends exactly as one frame of the summed time |
| `Scheduler.StepsOfFrames` | main.cpp:361-404 | over any run of frames the number of steps executed is the number of whole steps in accumulator + total time, however the time was sliced |
| `ProcessMachine.Step` | main.cpp:377-390 | one step: WIN iff already WIN or running and an enemy is touched; LOSE iff already LOSE or running and a platform but no enemy is touched; RUNNING iff running and nothing is touched (so a step touching both ends in WIN) |
| `ProcessMachine.GameOverIsFinal` | main.cpp:377 | once the process is LOSE or WIN it never changes in any later step |
| `ProcessMachine.RunningIffNoContact` | main.cpp:377-390 | the game is still RUNNING after n steps exactly when none of them touched a platform or an enemy |
| `ProcessMachine.FirstContactDecides` | main.cpp:378-390 | the first step with any contact decides the game for good: WIN if an enemy was touched in it, LOSE otherwise |
| `GameLoop.EnemyCalls` | main.cpp:384-390 | enemy i's slime move comes right before its update, in index order, and no player update is among them |
| `GameLoop.PlayerUpdatedEveryStep` | main.cpp:397 | the last call of every step, running or not, is the player's update |
| `GameLoop.GameOverOnlyUpdatesPlayer` | main.cpp:377-397 | after the game is over, no enemy or moving platform is moved or updated again; each later step only updates the player |
| `GameLoop.AxisLength` | main.cpp:340 | the length of a vector (x, 0, 0) is the absolute value of x: non-negative and equal to x or -x |
| `GameLoop.AxisNormalise` | main.cpp:340-343 | normalising (x, 0, 0) when its length exceeds 1: the result lies in [-1, 1], is 1 for x > 1, -1 for x < -1, and x itself otherwise |
| `GameLoop.ThrustAcceleration` | main.cpp:295-358 | the acceleration is zero without fuel; otherwise x is the normalised -power on left (even if right is held), the normalised +power on right alone, 0 with neither, always in [-1, 1] and exactly ∓power when power is at most 1 in size; y is power - GRAVITY on up (even if down is held), -power - GRAVITY on down alone, 0 with neither; z is 0 |
| `GameLoop.NewPlatform` | main.cpp:238-243 | a fresh platform entity with the given texture and position, width and height 1 and type PLATFORM |
| `GameLoop.NewFloorTiles` | main.cpp:228-236 | PLATFORM_COUNT - 2 fresh, pairwise distinct tiles; tile i sits at (i - 4.5, -3.8, 0) with width and height 1, type PLATFORM and the platform texture |
| `GameLoop.NewPlatforms` | main.cpp:224-250 | a fresh array of PLATFORM_COUNT fresh, pairwise distinct platforms: the floor tiles first, then index PLATFORM_COUNT - 2 at (-(rand2 mod 3), 1.8, 0) and index PLATFORM_COUNT - 1 at (rand1 mod 3, -1.8, 0), all of unit size, type PLATFORM and the platform texture |
| `GameLoop.NewEnemies` | main.cpp:225-262 | a fresh array of six fresh, pairwise distinct enemies; enemy i sits at (2i - 4.5, -3.1, 0) with width, height and scale 0.5, type ENEMY and the enemy texture |
| `GameLoop.Game.constructor` | main.cpp:221-286 | initialise's layout: floor tiles and enemies as above; the moving platforms at (rand1 mod 3, -1.8) and (-(rand2 mod 3), 1.8); the player at (0, 3.6, 0) with scale 0.5 and fuel FUEL_AMOUNT = 5000; the game RUNNING with a zero accumulator; Valid holds, so the player, every platform and every enemy are distinct fresh objects |
| `GameLoop.Game.ProcessInput` | main.cpp:293-359 | a quit event stops the main loop; the player's acceleration is ThrustAcceleration of the keys, fuel and power (the normalisation applied as glm::normalize does, dividing x by its absolute value); the fuel-in-use flag is raised iff some thrust is issued with fuel above zero, the ascending flag iff up is; fuel and all other fields are untouched |
| `GameLoop.Game.SimulateStep` | main.cpp:377-397 | one loop pass advances the process by ProcessMachine.Step and makes, in order, the enemy, patrol and platform calls (only while running) and then the player's update; the entities may change in any way |
| `GameLoop.Game.RunSteps` | main.cpp:375-399 | the while loop: steps x FIXED_TIMESTEP + leftover equals the time it started with, the leftover lies in [0, FIXED_TIMESTEP), and the process and call log are those of exactly that many steps |
| `GameLoop.Game.Update` | main.cpp:361-404 | with the clock not running backwards, Valid is kept (accumulator in [0, FIXED_TIMESTEP), entities distinct); previous ticks become the new ticks; the accumulator becomes RunFrame's leftover; the process is the process after RunFrame's number of steps; the call log grows by exactly those steps' calls |
| `Text.AsciiGlyphCell` | main.cpp:140-145 | for a non-negative character code the glyph is cell (code mod 16, code div 16) of the font bank, and its texture rectangle lies inside the texture |
| `Text.QuadCornersMatch` | main.cpp:148-164 | each of the quad's six vertices takes the texture corner on its own side (left with left, top with top), so no glyph is mirrored |
| `Text.FlattenGroups` | main.cpp:148-164 | a buffer built by appending twelve-float groups holds group i at floats 12 i to 12 i + 11 |
| `Text.DrawText` | main.cpp:137-182 | the vertex and texture buffers each hold 12 floats per character, group i is character i's quad at x-offset (font_size + spacing) x i with texture cell (c % 16, c / 16) / 16 under C++'s truncating operators, which equal mod and div for codes 0..127 (`Text.AsciiGlyphCell`), and 6 x length vertices are drawn |

## Left out

- Window and GL context creation, shaders, `render`, `Entity::render`, `draw_sprite_from_texture_atlas`, the `m_model_matrix` field, the animation fields (Entity.h:31-37) and the GL upload and draw calls in `draw_text` (main.cpp:168-185): graphics plumbing with no game logic. `Text.DrawText` returns the buffers and the draw count that these calls receive.
- `load_texture` and the stb_image decoding: these are a foreign library plus file I/O. Texture ids are constructor parameters.
- The audio constants: the game logic never uses them.
- `SDL_GetTicks`, `SDL_PollEvent` and `SDL_GetKeyboardState`. They become parameters: `ticks`, `quit` and `Keys`.
- `main`, `shutdown` and the `delete[]` calls: process lifecycle only.
- `check_collision`, both `Entity::update` overloads, `ai_slime_move`, `regular_move`, the constructors and the fuel drain: defined outside main.cpp and Entity.h, so this model does not cover their definitions. Collisions are the `contact` input and the other calls are recorded in `Game.calls`. `Game.Update`, `Game.RunSteps` and `Game.SimulateStep` may change every field of the player, the platforms and the enemies, and promise nothing about the new values (gravity, movement, landing, fuel use).
- `Entity::normalise_acceleration` (Entity.h:67) on a general vector: that needs a square root. It is modelled only at its one call site (main.cpp:340-343, in `GameLoop.Game.ProcessInput` and `GameLoop.ThrustAcceleration`), where the vector is (x, 0, 0), so its length is |x| and `glm::normalize` gives (x / |x|, 0, 0).
- GameLoop.Game.constructor: does not model the player's seven-argument constructor. The player is built with the default constructor, and only what `initialise` sets afterwards (scale, position, fuel) is promised. The `update(0.0f, NULL, NULL, 0)` calls on new platforms and enemies are not recorded either.
- GameLoop.Game.Update: time is a `real`, so the single-precision rounding of `ticks`, of `FIXED_TIMESTEP = 0.0166666f` and of `delta_time -= FIXED_TIMESTEP` is not modelled. Each pass of the float loop rounds the same way within one power-of-two range of `delta_time`, so the error accumulates: the number of steps the program runs drifts away from `RunFrame`'s count as the frame time grows, by far more than one step for frames of many seconds.
- GameLoop.Game.Update: `requires ticks >= previousTicks` excludes the wrap-around of SDL_GetTicks' 32-bit millisecond counter (after about 49.7 days). After a wrap the program stores a negative `g_accumulator` (main.cpp:364-371), which the model's `Valid()` rules out.
- GameLoop.Game.RunSteps: always ends with the exact split of its time into whole steps and a leftover. The float loop at main.cpp:375-399 drifts from that split as the time grows, and never ends when `delta_time` is 2^19 s or more (see below).
- GameLoop.NewPlatform: does not make the `update(0.0f, NULL, NULL, 0)` call of main.cpp:243 and 250; its layout ensures assume that call leaves position, size, type and texture as the setters left them.
- GameLoop.NewFloorTiles: does not make the `update(0.0f, NULL, NULL, 0)` call of main.cpp:235; its layout ensures assume that call leaves position, size, type and texture as the setters left them.
- GameLoop.NewPlatforms: does not make the `update(0.0f, NULL, NULL, 0)` calls of main.cpp:235, 243 and 250; its layout ensures assume those calls leave position, size, type and texture as the setters left them.
- GameLoop.NewEnemies: does not make the `update(0.0f, NULL, NULL, 0)` call of main.cpp:261; its layout ensures assume that call leaves position, size, scale, type and texture as the setters left them.
- Text.DrawText: the `(int)` cast of `text.size() * 6` could overflow for strings of more than about 357 million characters. The model treats the draw count as unbounded.

## Behaviour of the code worth noting

- `set_fuel` stores any `int`, negative values included (`Entities.Entity.SetFuel`).
- In a running step, an enemy touch overrides a platform touch from the same step, so the step ends in WIN (`ProcessMachine.Step`).
- After the game ends, the player is still updated every step (`GameLoop.GameOverOnlyUpdatesPlayer`) and `process_input` keeps running.
- The fixed-step loop in `update` does not end once `delta_time` reaches 2^19 s (about six days of frame time). From there the gap between neighbouring single-precision floats is 2^-4 s. Half of that gap is more than `FIXED_TIMESTEP`, so `delta_time -= FIXED_TIMESTEP` (main.cpp:398) rounds back to the same value, and the condition at main.cpp:375 stays true. The model's loop, over reals, always ends (`GameLoop.Game.RunSteps`).
