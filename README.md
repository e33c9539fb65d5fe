# Air-hockey match core, modelled in Dafny

This project models the discrete game logic of a two-player Unity air-hockey
game (three C# scripts):

- **GameManager** keeps `player1Score`, `player2Score` and the `winScore`
  threshold (5 by default). `AddScore(player)` credits one goal: player 1 if
  the argument is 1, and player 2 for any other number. If either score has
  then reached `winScore`, `EndGame` sets `Time.timeScale` to 0 and shows the
  win panel. Otherwise the puck is reset. Nothing rejects goals after the
  game has ended: such a goal still counts and runs `EndGame` again.
- **PuckController** maps goal triggers to scorers. `GoalLeft` is a point for
  player 2 and `GoalRight` a point for player 1. Collisions are ignored while
  the rigidbody is kinematic. The hit sound waits for a start-up grace flag
  that is only ever switched on. Velocity is rewritten only on `Wall`
  contacts. `ResetPuck` stops the puck on the start position that `Start`
  recorded.
- **PlayerController** has a dash ability. A key press while `canDash` holds
  multiplies `moveSpeed` once. After `dashDuration` the saved speed is written
  back exactly. After a further `dashCooldown`, `canDash` is set again.
  `FixedUpdate` keeps the vertical velocity, and `ResetPosition` stops the
  player on its start point.

Layout, one module per file:

- `vectors.dfy` (`Vectors`): `Vector3` as a triple of reals.
- `scoring.dfy` (`Scoring`): the score arithmetic of `AddScore` as functions.
  It also has lemmas about whole runs of goals: the tally, monotonicity, when
  the game ends, and that game over is sticky.
- `puck.dfy` (`Puck`): the `GoalScorer` tag map and the `PuckController` class.
- `game.dfy` (`Game`): the `GameManager` class. It also holds the puck's
  `OnTriggerEnter`, because that handler calls into `GameManager`.
- `dash.dfy` (`Dash`): the dash coroutine as a tick-driven state machine
  (Ready, Dashing, Cooldown), with lemmas about its timeline and about
  arbitrary interleavings of key presses and ticks.
- `player.dfy` (`Player`): the `PlayerController` class. Its dash fields
  follow the `Dash` functions step for step.

Engine state (transform position, rigidbody velocities, the kinematic flag,
`Time.timeScale`, the win panel's active flag) is held in plain fields.
Calls to `AudioManager`, hit-effect spawns, `EndGame` and `ResetPuck` are
counted in ghost fields, so "called" and "not called" can be stated.

`AddScore` has no game-over guard. No script freezes the puck or repositions
the players after a goal. `ResetPuck` works on a moving puck: it needs neither
a frozen nor a kinematic rigidbody.

## Model

| member | source | states |
|---|---|---|
| `Scoring.Credit` | Assets/Scripts/GameManager.cs:16-19 | exactly one score goes up, by exactly one: player 1's iff the argument is 1, player 2's for every other argument; neither decreases |
| `Scoring.GoalsTally` | Assets/Scripts/GameManager.cs:16-19 | after any run of goals, player 1 has gained one point per goal numbered 1 and player 2 one per every other goal |
| `Scoring.ScoresNeverDecrease` | Assets/Scripts/GameManager.cs:16-27 | along any run of goals, neither score is ever lower after a later call than after an earlier one |
| `Scoring.BranchAt` | Assets/Scripts/GameManager.cs:23-26 | the i-th call ends the game iff, after its own increment, either score is at least winScore; otherwise it resets the puck |
| `Scoring.EndGameSticky` | Assets/Scripts/GameManager.cs:16-27 | no game-over guard: once a call has ended the game, every later call ends it again and never resets the puck |
| `Scoring.FirstEndGameAtThreshold` | Assets/Scripts/GameManager.cs:23 | from scores below winScore, the first call that ends the game is the one where a score equals winScore exactly; no earlier call ends it |
| `Game.GameManager.constructor` | Assets/Scripts/GameManager.cs:8-12 | a match starts at 0–0 with the given winScore, time running and the win panel hidden |
| `Game.GameManager.AddScore` | Assets/Scripts/GameManager.cs:16-27 | `AddedScore`: the new scores are `Credit` of the old and winScore is kept. If a score has reached winScore: time scale 0, win panel shown, EndGame counted once, puck untouched. Otherwise: time scale and panel untouched, and the puck reset exactly once |
| `Game.GameManager.EndGame` | Assets/Scripts/GameManager.cs:35-39 | time scale becomes 0 and the win panel active; the scores are untouched |
| `Game.OnTriggerEnter` | Assets/Scripts/PuckController.cs:45-55 | a GoalLeft trigger runs all of AddScore(2) and a GoalRight trigger all of AddScore(1) (`AddedScore`: the credit, then EndGame or the puck reset); so GoalLeft adds one to player 2's score only and GoalRight one to player 1's only; any other tag changes nothing in the game or the puck |
| `Puck.GoalScorer` | Assets/Scripts/PuckController.cs:45-55 | the scorer is 2 iff the tag is GoalLeft and 1 iff it is GoalRight; there is no scorer for any other tag |
| `Puck.PuckController.constructor` | Assets/Scripts/PuckController.cs:9-22 | Start fixes StartPosition at the spawn position (a const, never written again); the grace flag starts false |
| `Puck.PuckController.EnableSound` | Assets/Scripts/PuckController.cs:25-28 | the grace flag becomes true; nothing else changes |
| `Puck.PuckController.FixedUpdate` | Assets/Scripts/PuckController.cs:31-34 | lastVelocity becomes the current velocity; nothing else changes |
| `Puck.PuckController.ResetPuck` | Assets/Scripts/PuckController.cs:37-42 | velocity and angular velocity become zero and position becomes StartPosition; the reset is counted once; nothing else changes |
| `Puck.PuckController.OnCollisionEnter` | Assets/Scripts/PuckController.cs:58-90 | while kinematic, nothing changes. Otherwise one hit effect is spawned and a hit sound plays iff the grace flag is set. The velocity changes only on a Wall contact. Position, grace flag and lastVelocity stay as they were |
| `Dash.Request` | Assets/Scripts/PlayerController.cs:33-50 | a request when canDash is false, or without a key press, changes nothing. An accepted one clears canDash, saves the old speed and multiplies moveSpeed by the multiplier once. It keeps the reachable-state invariant and the base speed |
| `Dash.Tick` | Assets/Scripts/PlayerController.cs:61-65 | an idle machine is untouched; moveSpeed changes only when the dash wait ends, and then to the saved speed; canDash changes only as the cooldown wait ends, and only to true; keeps the invariant and the base speed |
| `Dash.CountDown` | Assets/Scripts/PlayerController.cs:61-64 | inside a wait, ticks only count the wait down; speed, canDash and the saved speed stay put |
| `Dash.WaitEnds` | Assets/Scripts/PlayerController.cs:61-64 | a wait with k ticks left resumes the coroutine after exactly k ticks |
| `Dash.DashTimeline` | Assets/Scripts/PlayerController.cs:45-65 | after a dash starts from Ready, the speed is the pre-dash speed times the multiplier for exactly dashDuration ticks, then exactly the pre-dash speed; canDash is true iff dashDuration plus dashCooldown ticks have passed |
| `Dash.RunKeepsBase` | Assets/Scripts/PlayerController.cs:33-65 | any interleaving of key presses and ticks keeps the machine in its reachable states and leaves the base (non-dash) speed unchanged |
| `Dash.NeverStacks` | Assets/Scripts/PlayerController.cs:33-65 | after any interleaving of presses and ticks, the speed is the base speed times the multiplier while dashing and the base speed otherwise; multipliers never stack |
| `Player.PlayerController.constructor` | Assets/Scripts/PlayerController.cs:6-27 | Start records startPosition; canDash is true and no dash is running |
| `Player.PlayerController.Update` | Assets/Scripts/PlayerController.cs:29-35 | the input direction (horizontal, 0, vertical) is stored, and the dash fields move exactly as `Dash.Request` says. The dash sound plays iff a dash starts. The body's position and velocities stay as they were |
| `Player.PlayerController.Tick` | Assets/Scripts/PlayerController.cs:61-65 | the dash fields move exactly as `Dash.Tick` says, keeping the invariant; nothing else changes |
| `Player.PlayerController.FixedUpdate` | Assets/Scripts/PlayerController.cs:37-41 | the new velocity takes x and z from the horizontal target and keeps the old y; the dash state is untouched |
| `Player.PlayerController.ResetPosition` | Assets/Scripts/PlayerController.cs:68-73 | velocities become zero and position becomes startPosition; canDash, moveSpeed and a dash in progress are untouched |

## Left out

- Puck.PuckController.OnCollisionEnter: the wall-bounce velocity is a parameter. It stands for the reflection of lastVelocity about the contact normal, biased outwards by 0.2 of the normal and rescaled to the old speed. `Vector3.Reflect`, `normalized` and `magnitude` are floating-point operations needing a square root. Speed preservation and the outward bias are therefore not stated.
- Player.PlayerController.FixedUpdate: the horizontal target (the normalised input direction times moveSpeed) is a parameter, for the same reason. Only the preservation of the vertical component is stated.
- Scoring.Credit: scores are unbounded integers. C#'s 32-bit `int` would wrap after 2^31 - 1 goals, since there is no game-over guard. That is out of reach in play.
- Dash: `moveSpeed * dashSpeedMultiplier` is real multiplication, not single-precision float. Restoring the speed is an assignment of the saved value, so it is exact either way.
- Timing: `WaitForSeconds`, the `Invoke` delay of `EnableSound` and the coroutine scheduler become explicit calls. The dash waits are counts of `Tick` calls, each at least one. The grace period is the point where `EnableSound` is called.
- Input: the values of `Input.GetAxisRaw` for the two axes and of `Input.GetKeyDown` are parameters of `Update`.
- Visual effects: the hit and dash particle effects and their rotations are left out; hit effects are only counted. The dash effect is not recorded.
- Audio: `AudioManager` playback is recorded only as ghost counters of hit and dash sounds.
- Unity wiring: the `GameManager.Instance` and `AudioManager.Instance` singletons are left out; the game manager is passed to the trigger handler. Null references (an unset puck, panel, audio manager or hit-effect prefab) and an empty contact list are not modelled. With `hitEffectPrefab` unset, `Instantiate` would throw before the Wall branch and leave the velocity as it was; the model always applies the bounce.
- Score text: `UpdateScoreUI` has an empty body and changes nothing, so it is not modelled.
- Pause menu and restart: Assets/Scripts/UIManager.cs is UI and scene loading and is not part of this model.
- `isKinematic` is a field that no modelled code writes; the shown scripts never set it.
