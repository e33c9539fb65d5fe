/** The dash ability of PlayerController as a tick-driven state machine. The
    Dash coroutine's two WaitForSeconds become countdowns of whole ticks; its
    resume point becomes phase and its local originalSpeed a field of the state.
    Ready -> Dashing -> Cooldown -> Ready. */
module Dash {

  /** A wait in ticks. A WaitForSeconds always suspends for at least one frame. */
  type WaitTicks = n: nat | 1 <= n witness 1

  datatype Phase = Ready | Dashing | Cooldown

  /** dashSpeedMultiplier, dashDuration and dashCooldown. */
  datatype DashParams = DashParams(multiplier: real, duration: WaitTicks, cooldown: WaitTicks)

  /** canDash and moveSpeed are the controller's fields; phase, ticksLeft and
      originalSpeed are the suspended coroutine's position, remaining wait and local. */
  datatype DashState = DashState(canDash: bool, moveSpeed: real, phase: Phase, ticksLeft: nat, originalSpeed: real)

  /** The states the machine can reach from a Ready start. */
  ghost predicate Inv(p: DashParams, s: DashState) {
    && (s.canDash <==> s.phase == Ready)
    && match s.phase
       case Ready => s.ticksLeft == 0
       case Dashing => 1 <= s.ticksLeft <= p.duration && s.moveSpeed == s.originalSpeed * p.multiplier
       case Cooldown => 1 <= s.ticksLeft <= p.cooldown && s.moveSpeed == s.originalSpeed
  }

  /** The speed the player moves at outside a dash. */
  function BaseSpeed(s: DashState): real {
    if s.phase == Ready then s.moveSpeed else s.originalSpeed
  }

  /** Update's dash trigger: a key press while canDash starts the coroutine,
      which runs up to its first wait at once. Anything else is ignored, with no
      queueing and no restart. */
  function Request(p: DashParams, s: DashState, dashKeyDown: bool): (r: DashState)
    ensures !(dashKeyDown && s.canDash) ==> r == s
    ensures dashKeyDown && s.canDash ==>
      && !r.canDash && r.phase == Dashing && r.ticksLeft == p.duration
      && r.originalSpeed == s.moveSpeed && r.moveSpeed == s.moveSpeed * p.multiplier
    ensures Inv(p, s) ==> Inv(p, r) && BaseSpeed(r) == BaseSpeed(s)
  {
    if dashKeyDown && s.canDash then
      DashState(false, s.moveSpeed * p.multiplier, Dashing, p.duration, s.moveSpeed)
    else s
  }

  /** One tick of the coroutine scheduler. When the dash wait runs out the saved
      speed is written back and the cooldown wait begins; when that runs out
      canDash is set again. */
  function Tick(p: DashParams, s: DashState): (r: DashState)
    ensures s.phase == Ready ==> r == s
    ensures r.moveSpeed != s.moveSpeed ==> s.phase == Dashing && r.moveSpeed == s.originalSpeed
    ensures r.canDash != s.canDash ==> s.phase == Cooldown && s.ticksLeft <= 1 && r.canDash
    ensures Inv(p, s) ==> Inv(p, r) && BaseSpeed(r) == BaseSpeed(s)
  {
    match s.phase
    case Ready => s
    case Dashing =>
      if s.ticksLeft <= 1 then s.(moveSpeed := s.originalSpeed, phase := Cooldown, ticksLeft := p.cooldown)
      else s.(ticksLeft := s.ticksLeft - 1)
    case Cooldown =>
      if s.ticksLeft <= 1 then s.(canDash := true, phase := Ready, ticksLeft := 0)
      else s.(ticksLeft := s.ticksLeft - 1)
  }

  /** n ticks with no key press. */
  function Ticks(p: DashParams, s: DashState, n: nat): DashState {
    if n == 0 then s else Tick(p, Ticks(p, s, n - 1))
  }

  /** What the machine sees: an Update (with or without the dash key down) or a
      scheduler tick. */
  datatype Event = Update(dashKeyDown: bool) | SchedulerTick

  function Step(p: DashParams, s: DashState, e: Event): DashState {
    match e
    case Update(k) => Request(p, s, k)
    case SchedulerTick => Tick(p, s)
  }

  function Run(p: DashParams, s: DashState, events: seq<Event>): DashState
    decreases |events|
  {
    if events == [] then s else Run(p, Step(p, s, events[0]), events[1..])
  }

  lemma {:induction false} TicksAdd(p: DashParams, s: DashState, a: nat, b: nat)
    ensures Ticks(p, s, a + b) == Ticks(p, Ticks(p, s, a), b)
  {
    if b > 0 {
      TicksAdd(p, s, a, b - 1);
    }
  }

  /** Inside a wait nothing but the countdown moves. */
  lemma {:induction false} CountDown(p: DashParams, s: DashState, n: nat)
    requires s.phase != Ready && n < s.ticksLeft
    ensures Ticks(p, s, n) == s.(ticksLeft := s.ticksLeft - n)
  {
    if n > 0 {
      CountDown(p, s, n - 1);
    }
  }

  /** A Ready machine stays as it is under ticks alone. */
  lemma {:induction false} ReadyStays(p: DashParams, s: DashState, n: nat)
    requires s.phase == Ready
    ensures Ticks(p, s, n) == s
  {
    if n > 0 {
      ReadyStays(p, s, n - 1);
    }
  }

  /** The end of a wait: after exactly ticksLeft ticks the machine resumes. */
  lemma WaitEnds(p: DashParams, s: DashState)
    requires s.phase != Ready && s.ticksLeft >= 1
    ensures Ticks(p, s, s.ticksLeft) == Tick(p, s.(ticksLeft := 1))
  {
    CountDown(p, s, s.ticksLeft - 1);
  }

  /** The timeline of one dash started from Ready: the multiplied speed holds
      for exactly duration ticks, then the exact pre-dash speed is back, and
      canDash is false until duration and then cooldown ticks have both passed. */
  lemma DashTimeline(p: DashParams, s: DashState, n: nat)
    requires Inv(p, s) && s.canDash
    ensures Ticks(p, Request(p, s, true), n).moveSpeed
         == if n < p.duration then s.moveSpeed * p.multiplier else s.moveSpeed
    ensures Ticks(p, Request(p, s, true), n).canDash <==> n >= p.duration + p.cooldown
  {
    var d := Request(p, s, true);
    if n < p.duration {
      CountDown(p, d, n);
    } else {
      WaitEnds(p, d);
      var c := Ticks(p, d, p.duration);
      assert c == d.(moveSpeed := s.moveSpeed, phase := Cooldown, ticksLeft := p.cooldown);
      TicksAdd(p, d, p.duration, n - p.duration);
      if n - p.duration < p.cooldown {
        CountDown(p, c, n - p.duration);
      } else {
        WaitEnds(p, c);
        var r := Ticks(p, c, p.cooldown);
        assert r.phase == Ready && r.canDash && r.moveSpeed == s.moveSpeed;
        TicksAdd(p, c, p.cooldown, n - p.duration - p.cooldown);
        ReadyStays(p, r, n - p.duration - p.cooldown);
      }
    }
  }

  /** Under any interleaving of key presses and ticks the machine stays within
      its reachable states and the base speed never drifts. */
  lemma {:induction false} RunKeepsBase(p: DashParams, s: DashState, events: seq<Event>)
    requires Inv(p, s)
    decreases |events|
    ensures Inv(p, Run(p, s, events)) && BaseSpeed(Run(p, s, events)) == BaseSpeed(s)
  {
    if events != [] {
      var next := Step(p, s, events[0]);
      assert Inv(p, next) && BaseSpeed(next) == BaseSpeed(s);
      RunKeepsBase(p, next, events[1..]);
    }
  }

  /** So the multiplier is never applied twice: the speed is the base speed,
      times the multiplier exactly while a dash is in flight. */
  lemma NeverStacks(p: DashParams, s: DashState, events: seq<Event>)
    requires Inv(p, s)
    ensures Run(p, s, events).moveSpeed
         == if Run(p, s, events).phase == Dashing then BaseSpeed(s) * p.multiplier else BaseSpeed(s)
  {
    RunKeepsBase(p, s, events);
  }
}
