/** PuckController: the goal-trigger tag map, the collision guards, the
    start-up sound grace flag and the puck reset. Rigidbody and transform state
    are plain fields; calls out to AudioManager and effect spawning are ghost
    counters so that "called / not called" can be stated. */
module Puck {
  import opened Vectors

  datatype Option<T> = None | Some(value: T)

  /** The player OnTriggerEnter credits for a trigger tag: the left goal is
      player 2's point, the right goal player 1's, any other tag no one's. */
  function GoalScorer(tag: string): (r: Option<int>)
    ensures r == Some(2) <==> tag == "GoalLeft"
    ensures r == Some(1) <==> tag == "GoalRight"
    ensures r.Some? ==> r.value == 1 || r.value == 2
  {
    if tag == "GoalLeft" then Some(2)
    else if tag == "GoalRight" then Some(1)
    else None
  }

  class PuckController {
    /** Set once, by Start; the property has a private setter and nothing else writes it. */
    const StartPosition: Vec3

    var position: Vec3
    var linearVelocity: Vec3
    var angularVelocity: Vec3
    var isKinematic: bool
    /** The velocity sampled by the last FixedUpdate. */
    var lastVelocity: Vec3
    /** The start-up grace flag: false until EnableSound runs. */
    var canPlaySound: bool

    /** Calls to AudioManager.PlayHit. */
    ghost var hitSounds: nat
    /** Hit effects spawned. */
    ghost var hitEffects: nat
    /** Completed calls of ResetPuck. */
    ghost var resets: nat

    /** Start: remember where the puck was placed; the sound stays off until EnableSound. */
    constructor (position: Vec3, isKinematic: bool)
      ensures StartPosition == position && this.position == position
      ensures linearVelocity == ZERO && angularVelocity == ZERO && lastVelocity == ZERO
      ensures this.isKinematic == isKinematic
      ensures !canPlaySound
      ensures hitSounds == 0 && hitEffects == 0 && resets == 0
    {
      StartPosition := position;
      this.position := position;
      linearVelocity, angularVelocity, lastVelocity := ZERO, ZERO, ZERO;
      this.isKinematic := isKinematic;
      canPlaySound := false;
      hitSounds, hitEffects, resets := 0, 0, 0;
    }

    /** The end of the grace period: the only write to canPlaySound after Start,
        and it only ever sets it. */
    method EnableSound()
      modifies this
      ensures canPlaySound
      ensures position == old(position) && linearVelocity == old(linearVelocity)
      ensures angularVelocity == old(angularVelocity) && lastVelocity == old(lastVelocity)
      ensures isKinematic == old(isKinematic)
      ensures hitSounds == old(hitSounds) && hitEffects == old(hitEffects) && resets == old(resets)
    {
      canPlaySound := true;
    }

    /** Samples the velocity the next wall bounce will be computed from. */
    method FixedUpdate()
      modifies this
      ensures lastVelocity == old(linearVelocity)
      ensures position == old(position) && linearVelocity == old(linearVelocity)
      ensures angularVelocity == old(angularVelocity) && isKinematic == old(isKinematic)
      ensures canPlaySound == old(canPlaySound)
      ensures hitSounds == old(hitSounds) && hitEffects == old(hitEffects) && resets == old(resets)
    {
      lastVelocity := linearVelocity;
    }

    /** What ResetPuck leaves behind: the puck at rest on its start point, and
        nothing else of it touched. */
    twostate predicate JustReset()
      reads this
    {
      && position == StartPosition
      && linearVelocity == ZERO
      && angularVelocity == ZERO
      && resets == old(resets) + 1
      && isKinematic == old(isKinematic)
      && lastVelocity == old(lastVelocity)
      && canPlaySound == old(canPlaySound)
      && hitSounds == old(hitSounds)
      && hitEffects == old(hitEffects)
    }

    method ResetPuck()
      modifies this
      ensures JustReset()
    {
      linearVelocity := ZERO;
      angularVelocity := ZERO;
      position := StartPosition;
      resets := resets + 1;
    }

    /** A physical contact with an object tagged otherTag. The bounce velocity
        for a Wall contact (a reflection of lastVelocity about the contact
        normal, biased outwards and rescaled to the old speed) is floating-point
        geometry and is supplied as bounce. */
    method OnCollisionEnter(otherTag: string, bounce: Vec3)
      modifies this
      ensures old(isKinematic) ==> unchanged(this)
      ensures !old(isKinematic) ==>
        && hitSounds == old(hitSounds) + (if old(canPlaySound) then 1 else 0)
        && hitEffects == old(hitEffects) + 1
        && linearVelocity == (if otherTag == "Wall" then bounce else old(linearVelocity))
      ensures position == old(position) && angularVelocity == old(angularVelocity)
      ensures lastVelocity == old(lastVelocity) && isKinematic == old(isKinematic)
      ensures canPlaySound == old(canPlaySound) && resets == old(resets)
    {
      if isKinematic {
        return;
      }
      if canPlaySound {
        hitSounds := hitSounds + 1;
      }
      hitEffects := hitEffects + 1;
      if otherTag == "Wall" {
        linearVelocity := bounce;
      }
    }
  }
}
