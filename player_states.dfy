/** The player's seven-state machine: what each state's `enter` installs and which state its
    `handleInput` picks next. The decision is pure; the Player applies it (module Engine).
    The contracts of the seven `Handle*` functions together are the transition table, key by
    key and state by state; `HandleInput` states what holds across all states. */
module PlayerStates {
  import opened Keys
  import opened Particles

  /** `states`: SITTING = 0, RUNNING = 1, JUMPING = 2, FALLING = 3, ROLLING = 4, DIVING = 5, HIT = 6. */
  datatype State = Sitting | Running | Jumping | Falling | Rolling | Diving | Hit

  /** The last sprite frame and the sprite row a state's `enter` installs. */
  datatype Pose = Pose(maxFrame: int, frameY: int)

  function PoseOf(s: State): Pose {
    match s
    case Sitting => Pose(4, 5)
    case Running => Pose(8, 3)
    case Jumping => Pose(6, 1)
    case Falling => Pose(6, 2)
    case Rolling => Pose(6, 6)
    case Diving => Pose(6, 2)
    case Hit => Pose(10, 4)
  }

  const JumpImpulse: real := 27.0
  const DiveVelocity: real := 15.0
  const SplashCount: nat := 30

  /** The vertical velocity after a state's `enter`: Jumping kicks upward only from the
      ground (so re-entering Jumping in the air is no double jump), Diving forces a fixed
      downward speed, every other state leaves it alone. */
  function EnterVelocity(s: State, onGround: bool, velocityY: real): (v: real)
    ensures s == Jumping && onGround ==> v == velocityY - JumpImpulse
    ensures s == Diving ==> v == DiveVelocity
    ensures s != Diving && !(s == Jumping && onGround) ==> v == velocityY
  {
    match s
    case Jumping => if onGround then velocityY - JumpImpulse else velocityY
    case Diving => DiveVelocity
    case _ => velocityY
  }

  /** The scroll-speed multiplier every call of `setState` passes along with its target state. */
  function Multiplier(s: State): int {
    match s
    case Sitting => 0
    case Running => 1
    case Jumping => 1
    case Falling => 1
    case Rolling => 2
    case Diving => 0
    case Hit => 0
  }

  /** The transition table: the states each state's `handleInput` may switch to. */
  predicate Edge(from: State, to: State) {
    match from
    case Sitting => to == Running || to == Rolling
    case Running => to == Sitting || to == Jumping || to == Rolling
    case Jumping => to == Falling || to == Rolling || to == Diving
    case Falling => to == Running || to == Diving
    case Rolling => to == Running || to == Falling || to == Diving
    case Diving => to == Running || to == Rolling
    case Hit => to == Running || to == Falling
  }

  /** What `handleInput` does to the state: nothing, `setState(next, speed)`, or (Rolling
      only) an upward kick of the vertical velocity without leaving the state. */
  datatype Change = Stay | Switch(next: State, speed: int) | Leap

  /** Everything one `handleInput` call does: the particles it unshifts, in call order,
      whether it pushes the 'Energy' message, and the change of state. */
  datatype Reaction = Reaction(emitted: seq<ParticleKind>, lowEnergy: bool, change: Change)

  function Splashes(n: nat): (s: seq<ParticleKind>)
    ensures |s| == n && forall k :: 0 <= k < n ==> s[k] == Splash
  {
    if n == 0 then [] else Splashes(n - 1) + [Splash]
  }

  /** The energy gate the space key passes through in four states: roll when energy exceeds
      1, otherwise stay put and show the 'Energy' message. */
  function TryRoll(emitted: seq<ParticleKind>, energy: real): (r: Reaction)
    ensures r.emitted == emitted
    ensures energy > 1.0 <==> r.change == Switch(Rolling, 2)
    ensures energy <= 1.0 <==> r.lowEnergy
    ensures r.change == Stay || r.change == Switch(Rolling, 2)
  {
    if energy > 1.0 then Reaction(emitted, false, Switch(Rolling, 2))
    else Reaction(emitted, true, Stay)
  }

  /** Sitting: left or right starts running, and is checked before space. */
  function HandleSitting(input: seq<Key>, energy: real): (r: Reaction)
    ensures r.emitted == []
    ensures ArrowLeft in input || ArrowRight in input ==> r.change == Switch(Running, 1) && !r.lowEnergy
    ensures ArrowLeft !in input && ArrowRight !in input && Space in input ==> r == TryRoll([], energy)
    ensures ArrowLeft !in input && ArrowRight !in input && Space !in input ==> r == Reaction([], false, Stay)
  {
    if ArrowLeft in input || ArrowRight in input then Reaction([], false, Switch(Running, 1))
    else if Space in input then TryRoll([], energy)
    else Reaction([], false, Stay)
  }

  /** Running: always one Dust particle; then down beats up, and up beats space. */
  function HandleRunning(input: seq<Key>, energy: real): (r: Reaction)
    ensures r.emitted == [Dust]
    ensures ArrowDown in input ==> r.change == Switch(Sitting, 0) && !r.lowEnergy
    ensures ArrowDown !in input && ArrowUp in input ==> r.change == Switch(Jumping, 1) && !r.lowEnergy
    ensures ArrowDown !in input && ArrowUp !in input && Space in input ==> r == TryRoll([Dust], energy)
    ensures ArrowDown !in input && ArrowUp !in input && Space !in input ==> r.change == Stay && !r.lowEnergy
  {
    if ArrowDown in input then Reaction([Dust], false, Switch(Sitting, 0))
    else if ArrowUp in input then Reaction([Dust], false, Switch(Jumping, 1))
    else if Space in input then TryRoll([Dust], energy)
    else Reaction([Dust], false, Stay)
  }

  /** Jumping: the apex (vertical velocity above the weight) turns into Falling whatever is
      held; then space; then down dives. */
  function HandleJumping(input: seq<Key>, energy: real, velocityY: real, weight: real): (r: Reaction)
    ensures r.emitted == []
    ensures velocityY > weight ==> r.change == Switch(Falling, 1) && !r.lowEnergy
    ensures velocityY <= weight && Space in input ==> r == TryRoll([], energy)
    ensures velocityY <= weight && Space !in input && ArrowDown in input ==> r.change == Switch(Diving, 0) && !r.lowEnergy
    ensures velocityY <= weight && Space !in input && ArrowDown !in input ==> r.change == Stay && !r.lowEnergy
  {
    if velocityY > weight then Reaction([], false, Switch(Falling, 1))
    else if Space in input then TryRoll([], energy)
    else if ArrowDown in input then Reaction([], false, Switch(Diving, 0))
    else Reaction([], false, Stay)
  }

  /** Falling: landing always wins; in the air, down dives. */
  function HandleFalling(input: seq<Key>, onGround: bool): (r: Reaction)
    ensures r.emitted == [] && !r.lowEnergy
    ensures onGround ==> r.change == Switch(Running, 1)
    ensures !onGround && ArrowDown in input ==> r.change == Switch(Diving, 0)
    ensures !onGround && ArrowDown !in input ==> r.change == Stay
  {
    if onGround then Reaction([], false, Switch(Running, 1))
    else if ArrowDown in input then Reaction([], false, Switch(Diving, 0))
    else Reaction([], false, Stay)
  }

  /** Rolling: one Fire particle; releasing space ends the roll (Running on the ground,
      Falling in the air); space with up on the ground kicks upward and keeps rolling;
      down in the air dives. */
  function HandleRolling(input: seq<Key>, onGround: bool): (r: Reaction)
    ensures r.emitted == [Fire] && !r.lowEnergy
    ensures Space !in input ==> r.change == Switch(if onGround then Running else Falling, 1)
    ensures Space in input && ArrowUp in input && onGround ==> r.change == Leap
    ensures Space in input && ArrowDown in input && !onGround ==> r.change == Switch(Diving, 0)
    ensures Space in input && (ArrowUp !in input || !onGround) && (ArrowDown !in input || onGround) ==> r.change == Stay
  {
    if Space !in input && onGround then Reaction([Fire], false, Switch(Running, 1))
    else if Space !in input && !onGround then Reaction([Fire], false, Switch(Falling, 1))
    else if Space in input && ArrowUp in input && onGround then Reaction([Fire], false, Leap)
    else if ArrowDown in input && !onGround then Reaction([Fire], false, Switch(Diving, 0))
    else Reaction([Fire], false, Stay)
  }

  /** Diving: one Fire particle; landing switches to Running and adds thirty Splash
      particles; releasing space in the air rolls again if energy allows. */
  function HandleDiving(input: seq<Key>, energy: real, onGround: bool): (r: Reaction)
    ensures onGround ==> r == Reaction([Fire] + Splashes(SplashCount), false, Switch(Running, 1))
    ensures !onGround && Space !in input ==> r == TryRoll([Fire], energy)
    ensures !onGround && Space in input ==> r == Reaction([Fire], false, Stay)
  {
    if onGround then Reaction([Fire] + Splashes(SplashCount), false, Switch(Running, 1))
    else if Space !in input && !onGround then TryRoll([Fire], energy)
    else Reaction([Fire], false, Stay)
  }

  /** Hit: no input is read; once the hit animation has reached its last frame the player
      gets up (Running) or keeps falling (Falling). */
  function HandleHit(onGround: bool, frameX: int, maxFrame: int): (r: Reaction)
    ensures r.emitted == [] && !r.lowEnergy
    ensures frameX < maxFrame <==> r.change == Stay
    ensures frameX >= maxFrame ==> r.change == Switch(if onGround then Running else Falling, 1)
  {
    if frameX >= maxFrame && onGround then Reaction([], false, Switch(Running, 1))
    else if frameX >= maxFrame && !onGround then Reaction([], false, Switch(Falling, 1))
    else Reaction([], false, Stay)
  }

  /** `currentState.handleInput(input)`, dispatched on the state tag. Every switch follows the
      transition table with the multiplier of its target; rolling is only ever entered with
      energy above 1; the 'Energy' message is only shown when space asked for a roll that
      energy did not allow (space held, or for Diving space released in the air);
      the upward kick only happens while rolling on the ground with
      space and up held; Hit does nothing but (eventually) leave. */
  function HandleInput(s: State, input: seq<Key>, energy: real, onGround: bool, velocityY: real,
                       weight: real, frameX: int, maxFrame: int): (r: Reaction)
    ensures r.change.Switch? ==> Edge(s, r.change.next) && r.change.speed == Multiplier(r.change.next)
    ensures r.change == Switch(Rolling, 2) ==> energy > 1.0
    ensures r.lowEnergy ==> energy <= 1.0 && r.change == Stay
    ensures r.lowEnergy ==> if s == Diving then Space !in input && !onGround
                            else (s == Sitting || s == Running || s == Jumping) && Space in input
    ensures r.change == Leap ==> s == Rolling && onGround && Space in input && ArrowUp in input
    ensures |r.emitted| == (if s == Running || s == Rolling then 1
                            else if s == Diving then (if onGround then 1 + SplashCount else 1) else 0)
    ensures s == Hit ==> r == HandleHit(onGround, frameX, maxFrame)
  {
    match s
    case Sitting => HandleSitting(input, energy)
    case Running => HandleRunning(input, energy)
    case Jumping => HandleJumping(input, energy, velocityY, weight)
    case Falling => HandleFalling(input, onGround)
    case Rolling => HandleRolling(input, onGround)
    case Diving => HandleDiving(input, energy, onGround)
    case Hit => HandleHit(onGround, frameX, maxFrame)
  }
}
