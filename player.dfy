/** PlayerController: the dash trigger in Update, the Dash coroutine resumed
    tick by tick, the vertical-velocity-preserving FixedUpdate and
    ResetPosition. Its dash fields are tied to the Dash state machine. */
module Player {
  import opened Vectors
  import opened Dash

  class PlayerController {
    var moveSpeed: real
    /** Inspector settings; no code writes them. */
    const dashSpeedMultiplier: real
    const dashDuration: WaitTicks
    const dashCooldown: WaitTicks

    var canDash: bool
    /** Where the Dash coroutine is suspended (Ready: not running), the ticks
        left in its current wait, and its local originalSpeed. */
    var phase: Phase
    var ticksLeft: nat
    var originalSpeed: real

    var inputDir: Vec3
    var position: Vec3
    var linearVelocity: Vec3
    var angularVelocity: Vec3
    /** Set once, by Start. */
    const startPosition: Vec3

    /** Calls to AudioManager.PlayDash. */
    ghost var dashSounds: nat

    function Params(): DashParams {
      DashParams(dashSpeedMultiplier, dashDuration, dashCooldown)
    }

    function State(): DashState
      reads this
    {
      DashState(canDash, moveSpeed, phase, ticksLeft, originalSpeed)
    }

    ghost predicate Valid()
      reads this
    {
      Inv(Params(), State())
    }

    /** Start: remember where the player was placed; no dash is running. */
    constructor (position: Vec3, moveSpeed: real, dashSpeedMultiplier: real,
                 dashDuration: WaitTicks, dashCooldown: WaitTicks)
      ensures Valid() && canDash && phase == Ready
      ensures this.moveSpeed == moveSpeed && Params() == DashParams(dashSpeedMultiplier, dashDuration, dashCooldown)
      ensures this.position == position && startPosition == position
      ensures linearVelocity == ZERO && angularVelocity == ZERO && inputDir == ZERO
      ensures dashSounds == 0
    {
      this.moveSpeed := moveSpeed;
      this.dashSpeedMultiplier := dashSpeedMultiplier;
      this.dashDuration := dashDuration;
      this.dashCooldown := dashCooldown;
      canDash := true;
      phase, ticksLeft, originalSpeed := Ready, 0, moveSpeed;
      inputDir := ZERO;
      this.position := position;
      startPosition := position;
      linearVelocity, angularVelocity := ZERO, ZERO;
      dashSounds := 0;
    }

    /** Reads the input direction from the horizontal and vertical axes (it lies
        in the table plane) and, on a dash key press while canDash, starts the
        Dash coroutine up to its first wait. */
    method Update(horizontal: real, vertical: real, dashKeyDown: bool)
      requires Valid()
      modifies this
      ensures Valid()
      ensures inputDir == Vec3(horizontal, 0.0, vertical)
      ensures State() == Request(Params(), old(State()), dashKeyDown)
      ensures dashSounds == old(dashSounds) + (if dashKeyDown && old(canDash) then 1 else 0)
      ensures position == old(position) && linearVelocity == old(linearVelocity)
      ensures angularVelocity == old(angularVelocity)
    {
      inputDir := Vec3(horizontal, 0.0, vertical);
      if dashKeyDown && canDash {
        canDash := false;
        dashSounds := dashSounds + 1;
        originalSpeed := moveSpeed;
        moveSpeed := moveSpeed * dashSpeedMultiplier;
        phase, ticksLeft := Dashing, dashDuration;
      }
    }

    /** One scheduler tick for the suspended Dash coroutine. */
    method Tick()
      requires Valid()
      modifies this
      ensures Valid()
      ensures State() == Dash.Tick(Params(), old(State()))
      ensures inputDir == old(inputDir) && position == old(position)
      ensures linearVelocity == old(linearVelocity) && angularVelocity == old(angularVelocity)
      ensures dashSounds == old(dashSounds)
    {
      match phase
      case Ready =>
      case Dashing =>
        if ticksLeft <= 1 {
          moveSpeed := originalSpeed;
          phase, ticksLeft := Cooldown, dashCooldown;
        } else {
          ticksLeft := ticksLeft - 1;
        }
      case Cooldown =>
        if ticksLeft <= 1 {
          canDash := true;
          phase, ticksLeft := Ready, 0;
        } else {
          ticksLeft := ticksLeft - 1;
        }
    }

    /** Sets the horizontal velocity and keeps the vertical one. The horizontal
        target (the normalised input direction times moveSpeed) is
        floating-point geometry and is supplied as move. */
    method FixedUpdate(move: Vec3)
      modifies this
      ensures linearVelocity == Vec3(move.x, old(linearVelocity).y, move.z)
      ensures State() == old(State()) && inputDir == old(inputDir)
      ensures position == old(position) && angularVelocity == old(angularVelocity)
      ensures dashSounds == old(dashSounds)
    {
      linearVelocity := Vec3(move.x, linearVelocity.y, move.z);
    }

    /** Puts the player back at rest on its start point; a dash or cooldown in
        progress carries on. */
    method ResetPosition()
      modifies this
      ensures linearVelocity == ZERO && angularVelocity == ZERO && position == startPosition
      ensures State() == old(State()) && inputDir == old(inputDir)
      ensures dashSounds == old(dashSounds)
    {
      linearVelocity := ZERO;
      angularVelocity := ZERO;
      position := startPosition;
    }
  }
}
