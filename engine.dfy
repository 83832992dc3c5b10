/** The per-tick simulation: the Game that owns the entity pools and the score ledger, and
    the Player that it drives. Both live in one module because each reads and writes the
    other's fields. */
module Engine {
  import opened Keys
  import opened Randomness
  import opened Geometry
  import opened Animation
  import opened Pools
  import opened PlayerStates
  import opened PlayerRules
  import Particles
  import Enemies
  import Replenishments
  import CollisionAnimations
  import FloatingMessages

  /** The player's own fields, as one value. */
  datatype Body = Body(x: real, y: real, velocityX: real, velocityY: real, frameX: int, frameY: int,
                       maxFrame: int, frameTimer: real, state: State)

  /** The animation fields agree with the state: the frame is on the sprite row that the
      state's `enter` installed, and not past its last frame. */
  predicate Posed(b: Body) {
    0 <= b.frameX <= b.maxFrame && Pose(b.maxFrame, b.frameY) == PoseOf(b.state)
  }

  /** `currentState = s; s.enter()`: restart the animation on the state's sprite row and
      apply the state's velocity impulse. */
  function Entered(b: Body, s: State, onGround: bool): (r: Body)
    ensures Posed(r) && r.state == s && r.frameX == 0
    ensures r.velocityY == EnterVelocity(s, onGround, b.velocityY)
    ensures r.x == b.x && r.y == b.y && r.velocityX == b.velocityX && r.frameTimer == b.frameTimer
  {
    b.(state := s, frameX := 0, maxFrame := PoseOf(s).maxFrame, frameY := PoseOf(s).frameY,
       velocityY := EnterVelocity(s, onGround, b.velocityY))
  }

  /** The body after a `handleInput` whose decision was `c`. */
  function Reacted(b: Body, c: Change, onGround: bool): (r: Body)
    ensures Posed(b) ==> Posed(r)
    ensures r.x == b.x && r.y == b.y && r.velocityX == b.velocityX && r.frameTimer == b.frameTimer
    ensures c.Stay? ==> r == b
    ensures c.Leap? ==> r == b.(velocityY := b.velocityY - JumpImpulse)
    ensures c.Switch? ==> r.state == c.next && r.frameX == 0
  {
    match c
    case Stay => b
    case Switch(next, _) => Entered(b, next, onGround)
    case Leap => b.(velocityY := b.velocityY - JumpImpulse)
  }

  /** Entering a state other than Jumping a second time changes nothing more. */
  lemma EnteredAgain(b: Body, s: State, onGround: bool)
    requires s != Jumping
    ensures Entered(Entered(b, s, onGround), s, onGround) == Entered(b, s, onGround)
  {
  }

  /** `s` is `s0` with entities appended, and has no duplicate when `s0` has none (the
      appended entities are new objects). */
  ghost predicate Appended(s0: seq<object>, s: seq<object>) {
    |s0| <= |s| && s[..|s0|] == s0 && (Distinct(s0) ==> Distinct(s))
  }

  /** Every entity of `s` was already in `s0` or was created during the call. */
  twostate predicate Grew(s0: seq<object>, new s: seq<object>) {
    forall x :: x in s ==> x in s0 || fresh(x)
  }

  /** An explosion as `new CollisionAnimation(game, cx, cy)` leaves it: scaled by a factor
      in [0.5, 1.5), centred on (cx, cy), on its first frame with a zero clock, not retired. */
  ghost predicate Explosion(b: CollisionAnimations.CollisionAnimation, cx: real, cy: real)
    reads b
  {
    && 0.5 <= b.sizeModifier < 1.5
    && b.x + b.width * 0.5 == cx && b.y + b.height * 0.5 == cy
    && b.frameX == 0 && b.frameTimer == 0.0 && !b.markedForDeletion
  }

  /** A message as `new FloatingMessage(text, x, y, 0, 0)` leaves it: shown at (x, y) with a
      zero timer, gliding toward the screen point (0, 0). */
  ghost predicate Drifting(m: FloatingMessages.FloatingMessage, text: string, x: real, y: real)
    reads m
  {
    m.value == text && m.kind == FloatingMessages.Dynamic(0.0, 0.0) &&
    m.View() == FloatingMessages.Motion(x, y, 0, false)
  }

  /** What a pass over the enemies starts from: the ledger, the player's body, whether it
      stood on the ground, the scroll speed, which enemies overlap it, their marks, and the
      explosion and message pools. */
  datatype StrikePass = StrikePass(start: Ledger, body: Body, onGround: bool, speed: real, touch: seq<bool>,
                                   marks: seq<bool>, collisions: seq<object>, messages: seq<object>)

  /** What a pass over the pickups starts from. */
  datatype CollectPass = CollectPass(start: Ledger, touch: seq<bool>, marks: seq<bool>,
                                     collisions: seq<object>, messages: seq<object>)

  /** Appending twice is appending: the pools of a pass that calls several pushes in a row
      still start with what they held before the pass. */
  lemma AppendedTrans(s0: seq<object>, s1: seq<object>, s2: seq<object>)
    requires Appended(s0, s1) && Appended(s1, s2)
    ensures Appended(s0, s2)
  {
    assert s2[..|s0|] == s2[..|s1|][..|s0|];
  }

  /** Appending new explosions to a pool without duplicates leaves none. */
  lemma CollisionsStayDistinct(s0: seq<CollisionAnimations.CollisionAnimation>,
                               s: seq<CollisionAnimations.CollisionAnimation>)
    requires Appended(s0, s) && Distinct(s0)
    ensures Distinct(s)
  {
    DistinctIndices<object>(s0);
    DistinctIndices(s0);
    DistinctIndices<object>(s);
    DistinctIndices(s);
  }

  /** The same for the message pool. */
  lemma MessagesStayDistinct(s0: seq<FloatingMessages.FloatingMessage>, s: seq<FloatingMessages.FloatingMessage>)
    requires Appended(s0, s) && Distinct(s0)
    ensures Distinct(s)
  {
    DistinctIndices<object>(s0);
    DistinctIndices(s0);
    DistinctIndices<object>(s);
    DistinctIndices(s);
  }

  /** The scroll speed that goes with a state: the multiple of the maximum that every
      `setState` into that state passes along, written without a product of two unknowns. */
  function ScrollSpeed(maxBackgroundSpeed: real, s: State): real {
    if Multiplier(s) == 0 then 0.0
    else if Multiplier(s) == 1 then maxBackgroundSpeed
    else 2.0 * maxBackgroundSpeed
  }

  class Player {
    const width: real
    const height: real
    const fps: real
    const frameInterval: real
    const maxVelocityX: real
    const weight: real
    var x: real
    var y: real
    var frameX: int
    var frameY: int
    var maxFrame: int
    var frameTimer: real
    var velocityX: real
    var velocityY: real
    var currentState: State

    function View(): Body
      reads this
    {
      Body(x, y, velocityX, velocityY, frameX, frameY, maxFrame, frameTimer, currentState)
    }

    predicate Valid()
      reads this
    {
      Posed(View())
    }

    function Bounds(): Box
      reads this`x, this`y
    {
      Box(x, y, width, height)
    }

    /** The player starts at the left edge standing on the ground line. Its state is set by
        the game right after (the source starts with no state at all). */
    constructor (gameHeight: real, groundMargin: real)
      ensures width == 100.0 && height == 91.3 && frameInterval == 50.0
      ensures maxVelocityX == 10.0 && weight == 1.0
      ensures View() == Body(0.0, gameHeight - 91.3 - groundMargin, 0.0, 0.0, 0, 0, 5, 0.0, Sitting)
    {
      width, height := 100.0, 91.3;
      x, y := 0.0, gameHeight - 91.3 - groundMargin;
      frameX, frameY, maxFrame := 0, 0, 5;
      fps := 20.0;
      frameInterval := 1000.0 / 20.0;
      frameTimer := 0.0;
      velocityX, maxVelocityX, velocityY, weight := 0.0, 10.0, 0.0, 1.0;
      currentState := Sitting;
    }

    /** The y coordinate at which the player stands on the ground. */
    function GroundLine(game: Game): real {
      game.height - height - game.groundMargin
    }

    predicate IsOnGround(game: Game)
      reads this`y
    {
      y >= GroundLine(game)
    }

    /** `currentState.enter()`. */
    method Enter(game: Game)
      modifies this`velocityY, this`frameX, this`frameY, this`maxFrame
      ensures View() == Entered(old(View()), old(currentState), old(IsOnGround(game)))
    {
      if currentState == Jumping && IsOnGround(game) {
        velocityY := velocityY - JumpImpulse;
      }
      if currentState == Diving {
        velocityY := DiveVelocity;
      }
      frameX := 0;
      maxFrame := PoseOf(currentState).maxFrame;
      frameY := PoseOf(currentState).frameY;
    }

    /** `setState(state, backgroundSpeed)`: switch, set the scroll speed to the given multiple
        of its maximum, then run the new state's `enter`. */
    method SetState(game: Game, s: State, speed: int)
      modifies this`currentState, this`velocityY, this`frameX, this`frameY, this`maxFrame,
               game`backgroundSpeed
      ensures game.backgroundSpeed == game.maxBackgroundSpeed * speed as real
      ensures View() == Entered(old(View()), s, old(IsOnGround(game)))
    {
      currentState := s;
      game.backgroundSpeed := game.maxBackgroundSpeed * speed as real;
      Enter(game);
    }

    /** What one overlapping enemy does to the game (the body of the first loop of
        `checkCollision`): the enemy is marked, an explosion is appended centred on it, and
        the ledger moves by `StrikeEnemy`; a rolling or diving player also gets a '+1'
        message drifting from the enemy's corner, any other player is put in Hit through
        `setState(HIT, 0)`. */
    method StrikeOne(game: Game, e: Enemies.Enemy, rng: Rng)
      requires game.player == this && rng.Valid()
      modifies this`currentState, this`velocityY, this`frameX, this`frameY, this`maxFrame,
               game`backgroundSpeed, game`score, game`lives, game`energy, game`gameOver,
               game`enemiesDestroyed, game`collisions, game`floatingMessages, rng`used
      ensures game.CurrentLedger() == StrikeEnemy(old(game.CurrentLedger()), game.debug)
      ensures Invulnerable(old(currentState)) ==>
                View() == old(View()) && game.backgroundSpeed == old(game.backgroundSpeed)
      ensures !Invulnerable(old(currentState)) ==>
                View() == Entered(old(View()), Hit, old(IsOnGround(game))) && game.backgroundSpeed == 0.0
      ensures Appended(old(game.collisions), game.collisions)
      ensures |game.collisions| == |old(game.collisions)| + 1
      ensures Appended(old(game.floatingMessages), game.floatingMessages)
      ensures |game.floatingMessages| == |old(game.floatingMessages)| + (if Invulnerable(old(currentState)) then 1 else 0)
      ensures var b := game.collisions[|old(game.collisions)|];
        fresh(b) && Explosion(b, e.x + e.width * 0.5, e.y + e.height * 0.5)
      ensures Invulnerable(old(currentState)) ==>
        var m := game.floatingMessages[|old(game.floatingMessages)|];
        fresh(m) && Drifting(m, "+1", e.x, e.y)
      ensures Grew(old(game.collisions), game.collisions) && Grew(old(game.floatingMessages), game.floatingMessages)
    {
      game.enemiesDestroyed := game.enemiesDestroyed + 1;
      game.AddCollision(e.x + e.width * 0.5, e.y + e.height * 0.5, rng);
      if currentState == Rolling || currentState == Diving {
        Reward(game, e.x, e.y);
      } else {
        Penalise(game);
      }
    }

    /** A rolling or diving player destroying an enemy at (x, y): a point, a '+1' message
        drifting from there, and one energy. */
    method Reward(game: Game, x: real, y: real)
      modifies game`score, game`floatingMessages, game`energy
      ensures game.score == old(game.score) + 1 && game.energy == old(game.energy) + 1.0
      ensures Appended(old(game.floatingMessages), game.floatingMessages)
      ensures |game.floatingMessages| == |old(game.floatingMessages)| + 1
      ensures var m := game.floatingMessages[|old(game.floatingMessages)|];
        fresh(m) && Drifting(m, "+1", x, y)
      ensures Grew(old(game.floatingMessages), game.floatingMessages)
    {
      game.score := game.score + 1;
      var message := new FloatingMessages.FloatingMessage.DynamicMessage("+1", x, y, 0.0, 0.0);
      game.floatingMessages := game.floatingMessages + [message];
      game.energy := game.energy + 1.0;
    }

    /** Any other player meeting an enemy: put in Hit, a point and a life lost, and the game
        over when no life is left (unless in debug mode). */
    method Penalise(game: Game)
      modifies this`currentState, this`velocityY, this`frameX, this`frameY, this`maxFrame,
               game`backgroundSpeed, game`score, game`lives, game`gameOver
      ensures View() == Entered(old(View()), Hit, old(IsOnGround(game))) && game.backgroundSpeed == 0.0
      ensures game.score == old(game.score) - 1 && game.lives == old(game.lives) - 1
      ensures game.gameOver <==> old(game.gameOver) || (game.lives <= 0 && !game.debug)
    {
      SetState(game, Hit, 0);
      game.score := game.score - 1;
      game.lives := game.lives - 1;
      if game.lives <= 0 && !game.debug {
        game.gameOver := true;
      }
    }

    /** What one overlapping pickup does (the body of the second loop of `checkCollision`):
        the pickup is marked, an explosion is appended centred on it, the ledger moves by
        `Collect`, and a 'life +1' message drifts from the pickup's corner. */
    method CollectOne(game: Game, c: Replenishments.Carrot, rng: Rng)
      requires game.player == this && rng.Valid()
      modifies game`lives, game`energy, game`collisions, game`floatingMessages, rng`used
      ensures game.CurrentLedger() == Collect(old(game.CurrentLedger()), game.maxLives)
      ensures Appended(old(game.collisions), game.collisions)
      ensures |game.collisions| == |old(game.collisions)| + 1
      ensures Appended(old(game.floatingMessages), game.floatingMessages)
      ensures |game.floatingMessages| == |old(game.floatingMessages)| + 1
      ensures var b := game.collisions[|old(game.collisions)|];
        fresh(b) && Explosion(b, c.x + c.width * 0.5, c.y + c.height * 0.5)
      ensures var m := game.floatingMessages[|old(game.floatingMessages)|];
        fresh(m) && Drifting(m, "life +1", c.x, c.y)
      ensures Grew(old(game.collisions), game.collisions) && Grew(old(game.floatingMessages), game.floatingMessages)
    {
      game.AddCollision(c.x + c.width * 0.5, c.y + c.height * 0.5, rng);
      if game.lives < game.maxLives {
        game.lives := game.lives + 1;
      }
      game.energy := game.energy + 2.0;
      var message := new FloatingMessages.FloatingMessage.DynamicMessage("life +1", c.x, c.y, 0.0, 0.0);
      game.floatingMessages := game.floatingMessages + [message];
    }

    /** Everything one pass over the enemies keeps fixed, as it stood before the pass. */
    ghost predicate StruckUpTo(game: Game, p: StrikePass, i: nat)
      reads this, game, game.player
      requires i <= |p.touch|
    {
      var h := CountBelow(p.touch, i);
      var shielded := Invulnerable(p.start.state);
      && game.CurrentLedger() == Strikes(p.start, game.debug, h)
      && View() == (if h > 0 && !shielded then Entered(p.body, Hit, p.onGround) else p.body)
      && game.backgroundSpeed == (if h > 0 && !shielded then 0.0 else p.speed)
      && |game.collisions| == |p.collisions| + h
      && |game.floatingMessages| == |p.messages| + (if shielded then h else 0)
      && Appended(p.collisions, game.collisions)
      && Appended(p.messages, game.floatingMessages)
    }

    /** The enemy loop of `checkCollision`. */
    method StrikeAll(game: Game, box: Box, rng: Rng, ghost p: StrikePass)
      requires game.player == this && rng.Valid() && Distinct(game.enemies)
      requires |game.enemies| == |p.marks| && Enemies.Touches(box, game.enemies, p.touch)
      requires StruckUpTo(game, p, 0) && Enemies.MarkedUpTo(game.enemies, p.marks, p.touch, 0)
      requires box == Box(p.body.x, p.body.y, width, height) && p.onGround == (p.body.y >= GroundLine(game))
      modifies this`currentState, this`velocityY, this`frameX, this`frameY, this`maxFrame,
               game`backgroundSpeed, game`score, game`lives, game`energy, game`gameOver,
               game`enemiesDestroyed, game`collisions, game`floatingMessages, game.enemies`markedForDeletion, rng`used
      ensures StruckUpTo(game, p, |p.touch|) && Enemies.MarkedUpTo(game.enemies, p.marks, p.touch, |p.touch|)
      ensures Grew(old(game.collisions), game.collisions) && Grew(old(game.floatingMessages), game.floatingMessages)
    {
      var i := 0;
      while i < |game.enemies|
        invariant i <= |game.enemies|
        invariant Grew(old(game.collisions), game.collisions) && Grew(old(game.floatingMessages), game.floatingMessages)
        invariant StruckUpTo(game, p, i) && Enemies.MarkedUpTo(game.enemies, p.marks, p.touch, i)
      {
        StrikeAt(game, i, box, rng, p);
        i := i + 1;
      }
    }

    /** One step of `StrikeAll`: the `i`-th enemy is struck when it overlaps. */
    method StrikeAt(game: Game, i: nat, box: Box, rng: Rng, ghost p: StrikePass)
      requires game.player == this && rng.Valid() && Distinct(game.enemies)
      requires i < |game.enemies| == |p.touch| == |p.marks|
      requires p.touch[i] == Overlaps(box, game.enemies[i].Bounds())
      requires StruckUpTo(game, p, i) && Enemies.MarkedUpTo(game.enemies, p.marks, p.touch, i)
      requires p.onGround == (p.body.y >= GroundLine(game))
      modifies this`currentState, this`velocityY, this`frameX, this`frameY, this`maxFrame,
               game`backgroundSpeed, game`score, game`lives, game`energy, game`gameOver,
               game`enemiesDestroyed, game`collisions, game`floatingMessages, {game.enemies[i]}`markedForDeletion, rng`used
      ensures StruckUpTo(game, p, i + 1) && Enemies.MarkedUpTo(game.enemies, p.marks, p.touch, i + 1)
      ensures Grew(old(game.collisions), game.collisions) && Grew(old(game.floatingMessages), game.floatingMessages)
    {
      if Overlaps(box, game.enemies[i].Bounds()) {
        Enemies.MarkAt(game.enemies, i, p.marks, p.touch);
        StrikeHit(game, i, rng, p);
      }
    }

    /** The overlapping case of `StrikeAt`. */
    method StrikeHit(game: Game, i: nat, rng: Rng, ghost p: StrikePass)
      requires game.player == this && rng.Valid() && Distinct(game.enemies)
      requires i < |game.enemies| && i < |p.touch| && p.touch[i]
      requires StruckUpTo(game, p, i) && p.onGround == (p.body.y >= GroundLine(game))
      modifies this`currentState, this`velocityY, this`frameX, this`frameY, this`maxFrame,
               game`backgroundSpeed, game`score, game`lives, game`energy, game`gameOver,
               game`enemiesDestroyed, game`collisions, game`floatingMessages, rng`used
      ensures StruckUpTo(game, p, i + 1)
      ensures Grew(old(game.collisions), game.collisions) && Grew(old(game.floatingMessages), game.floatingMessages)
    {
      ghost var h := CountBelow(p.touch, i);
      ghost var cs, ms := game.collisions, game.floatingMessages;
      StrikesState(p.start, game.debug, h);
      StrikeOne(game, game.enemies[i], rng);
      EnteredAgain(p.body, Hit, p.onGround);
      AppendedTrans(p.collisions, cs, game.collisions);
      AppendedTrans(p.messages, ms, game.floatingMessages);
    }

    ghost predicate CollectedUpTo(game: Game, p: CollectPass, i: nat)
      reads game, game.player
      requires i <= |p.touch|
    {
      var h := CountBelow(p.touch, i);
      && game.CurrentLedger() == Collects(p.start, game.maxLives, h)
      && |game.collisions| == |p.collisions| + h && |game.floatingMessages| == |p.messages| + h
      && Appended(p.collisions, game.collisions)
      && Appended(p.messages, game.floatingMessages)
    }

    /** The pickup loop of `checkCollision`. */
    method CollectAll(game: Game, box: Box, rng: Rng, ghost p: CollectPass)
      requires game.player == this && rng.Valid() && Distinct(game.replenishments)
      requires |game.replenishments| == |p.marks| && Replenishments.Touches(box, game.replenishments, p.touch)
      requires CollectedUpTo(game, p, 0) && Replenishments.MarkedUpTo(game.replenishments, p.marks, p.touch, 0)
      modifies game`lives, game`energy, game`collisions, game`floatingMessages,
               game.replenishments`markedForDeletion, rng`used
      ensures CollectedUpTo(game, p, |p.touch|)
      ensures Replenishments.MarkedUpTo(game.replenishments, p.marks, p.touch, |p.touch|)
      ensures Grew(old(game.collisions), game.collisions) && Grew(old(game.floatingMessages), game.floatingMessages)
    {
      var i := 0;
      while i < |game.replenishments|
        invariant i <= |game.replenishments|
        invariant Grew(old(game.collisions), game.collisions) && Grew(old(game.floatingMessages), game.floatingMessages)
        invariant CollectedUpTo(game, p, i) && Replenishments.MarkedUpTo(game.replenishments, p.marks, p.touch, i)
      {
        CollectAt(game, i, box, rng, p);
        i := i + 1;
      }
    }

    /** One step of `CollectAll`: the `i`-th pickup is collected when it overlaps. */
    method CollectAt(game: Game, i: nat, box: Box, rng: Rng, ghost p: CollectPass)
      requires game.player == this && rng.Valid() && Distinct(game.replenishments)
      requires i < |game.replenishments| == |p.touch| == |p.marks|
      requires p.touch[i] == Overlaps(box, game.replenishments[i].Bounds())
      requires CollectedUpTo(game, p, i) && Replenishments.MarkedUpTo(game.replenishments, p.marks, p.touch, i)
      modifies game`lives, game`energy, game`collisions, game`floatingMessages,
               {game.replenishments[i]}`markedForDeletion, rng`used
      ensures CollectedUpTo(game, p, i + 1) && Replenishments.MarkedUpTo(game.replenishments, p.marks, p.touch, i + 1)
      ensures Grew(old(game.collisions), game.collisions) && Grew(old(game.floatingMessages), game.floatingMessages)
    {
      var c := game.replenishments[i];
      if Overlaps(box, c.Bounds()) {
        Replenishments.MarkAt(game.replenishments, i, p.marks, p.touch);
        ghost var cs, ms := game.collisions, game.floatingMessages;
        CollectOne(game, c, rng);
        AppendedTrans(p.collisions, cs, game.collisions);
        AppendedTrans(p.messages, ms, game.floatingMessages);
      }
    }

    /** The decision the current state's `handleInput` takes on this input. */
    function Decision(game: Game, input: seq<Key>): Reaction
      reads this, game
    {
      PlayerStates.HandleInput(currentState, input, game.energy, IsOnGround(game), velocityY, weight,
                               frameX, maxFrame)
    }

    /** `currentState.handleInput(input)`: unshift the emitted particles (so the newest ends
        up first), push the 'Energy' message when a roll was refused, and apply the change of
        state (through `setState`) or the rolling leap. */
    method HandleInput(game: Game, input: seq<Key>)
      modifies this`currentState, this`velocityY, this`frameX, this`frameY, this`maxFrame,
               game`backgroundSpeed, game`particles, game`floatingMessages
      ensures var r := old(Decision(game, input));
        && View() == Reacted(old(View()), r.change, old(IsOnGround(game)))
        && (r.change.Switch? ==> game.backgroundSpeed == game.maxBackgroundSpeed * r.change.speed as real)
        && (!r.change.Switch? ==> game.backgroundSpeed == old(game.backgroundSpeed))
        && |game.particles| == |old(game.particles)| + |r.emitted|
        && game.particles[|r.emitted|..] == old(game.particles)
        && (forall k :: 0 <= k < |r.emitted| ==>
              fresh(game.particles[k]) && game.particles[k].kind == r.emitted[|r.emitted| - 1 - k])
        && (r.lowEnergy ==> |game.floatingMessages| == |old(game.floatingMessages)| + 1)
        && (!r.lowEnergy ==> game.floatingMessages == old(game.floatingMessages))
        && game.floatingMessages[..|old(game.floatingMessages)|] == old(game.floatingMessages)
      ensures var n := |old(game.floatingMessages)|;
        forall k :: n <= k < |game.floatingMessages| ==>
          fresh(game.floatingMessages[k]) && game.floatingMessages[k].value == "Energy" &&
          game.floatingMessages[k].kind == FloatingMessages.Static &&
          game.floatingMessages[k].View() == FloatingMessages.Motion(24.0, 107.0, 0, false)
      ensures Distinct(old(game.particles)) ==> Distinct(game.particles)
      ensures Distinct(old(game.floatingMessages)) ==> Distinct(game.floatingMessages)
      ensures Grew(old(game.floatingMessages), game.floatingMessages)
    {
      var r := Decision(game, input);
      game.AddParticles(r.emitted);
      match r.change {
        case Stay =>
        case Switch(next, speed) => SetState(game, next, speed);
        case Leap => velocityY := velocityY - JumpImpulse;
      }
      if r.lowEnergy {
        game.WarnEnergy();
      }
    }

    /** The enemy loop of `checkCollision` over the box `box` the player had before it: the
        ledger moves by `Strikes` over the enemies that overlap `box`, and exactly those get
        marked. */
    method CheckEnemies(game: Game, box: Box, rng: Rng, ghost boxes: seq<Box>)
      requires game.player == this && rng.Valid() && Distinct(game.enemies) && box == Bounds()
      requires boxes == Enemies.Boxes(game.enemies)
      modifies this`currentState, this`velocityY, this`frameX, this`frameY, this`maxFrame,
               game`backgroundSpeed, game`score, game`lives, game`energy, game`gameOver,
               game`enemiesDestroyed, game`collisions, game`floatingMessages, game.enemies`markedForDeletion, rng`used
      ensures var struck := Hits(box, boxes);
              var hurt := struck > 0 && !Invulnerable(old(currentState));
        && game.CurrentLedger() == Strikes(old(game.CurrentLedger()), game.debug, struck)
        && View() == (if hurt then Entered(old(View()), Hit, old(IsOnGround(game))) else old(View()))
        && game.backgroundSpeed == (if hurt then 0.0 else old(game.backgroundSpeed))
        && |game.collisions| == |old(game.collisions)| + struck
        && |game.floatingMessages| == |old(game.floatingMessages)| + (if Invulnerable(old(currentState)) then struck else 0)
      ensures forall j :: 0 <= j < |game.enemies| ==>
                game.enemies[j].markedForDeletion == (old(game.enemies[j].markedForDeletion) || Overlaps(box, boxes[j]))
      ensures Appended(old(game.collisions), game.collisions)
      ensures Appended(old(game.floatingMessages), game.floatingMessages)
      ensures Grew(old(game.collisions), game.collisions) && Grew(old(game.floatingMessages), game.floatingMessages)
    {
      ghost var touch := Touching(box, boxes);
      ghost var p := StrikePass(game.CurrentLedger(), View(), IsOnGround(game), game.backgroundSpeed, touch,
                                Enemies.Marks(game.enemies), game.collisions, game.floatingMessages);
      StrikeAll(game, box, rng, p);
    }

    /** The pickup loop of `checkCollision` over the box `box`: the ledger moves by `Collects`
        over the pickups that overlap `box`, and exactly those get marked (no pickup moves). */
    method CheckPickups(game: Game, box: Box, rng: Rng, ghost boxes: seq<Box>)
      requires game.player == this && rng.Valid() && Distinct(game.replenishments)
      requires boxes == Replenishments.Boxes(game.replenishments)
      modifies game`lives, game`energy, game`collisions, game`floatingMessages,
               game.replenishments`markedForDeletion, rng`used
      ensures var collected := Hits(box, boxes);
        && game.CurrentLedger() == Collects(old(game.CurrentLedger()), game.maxLives, collected)
        && |game.collisions| == |old(game.collisions)| + collected
        && |game.floatingMessages| == |old(game.floatingMessages)| + collected
      ensures forall j :: 0 <= j < |game.replenishments| ==>
                game.replenishments[j].markedForDeletion ==
                  (old(game.replenishments[j].markedForDeletion) || Overlaps(box, boxes[j]))
      ensures Appended(old(game.collisions), game.collisions)
      ensures Appended(old(game.floatingMessages), game.floatingMessages)
      ensures Grew(old(game.collisions), game.collisions) && Grew(old(game.floatingMessages), game.floatingMessages)
    {
      ghost var touch := Touching(box, boxes);
      ghost var p := CollectPass(game.CurrentLedger(), touch, Replenishments.Marks(game.replenishments),
                                 game.collisions, game.floatingMessages);
      CollectAll(game, box, rng, p);
    }

    /** `checkCollision`: the enemy pass, then the pickup pass, with the player's box as it
        was before either. The ledger moves by `Strikes` over the overlapping enemies, then by
        `Collects` over the overlapping pickups. Which entities each pass marks is stated by
        `CheckEnemies` and `CheckPickups`. */
    method CheckCollision(game: Game, rng: Rng)
      requires game.player == this && rng.Valid() && Distinct(game.enemies) && Distinct(game.replenishments)
      modifies this`currentState, this`velocityY, this`frameX, this`frameY, this`maxFrame,
               game`backgroundSpeed, game`score, game`lives, game`energy, game`gameOver,
               game`enemiesDestroyed, game`collisions, game`floatingMessages,
               game.enemies`markedForDeletion, game.replenishments`markedForDeletion, rng`used
      ensures var struck := Hits(old(Bounds()), old(Enemies.Boxes(game.enemies)));
              var collected := Hits(old(Bounds()), old(Replenishments.Boxes(game.replenishments)));
              var hurt := struck > 0 && !Invulnerable(old(currentState));
        && game.CurrentLedger() == Collects(Strikes(old(game.CurrentLedger()), game.debug, struck), game.maxLives, collected)
        && View() == (if hurt then Entered(old(View()), Hit, old(IsOnGround(game))) else old(View()))
        && game.backgroundSpeed == (if hurt then 0.0 else old(game.backgroundSpeed))
        && |game.collisions| == |old(game.collisions)| + struck + collected
        && |game.floatingMessages| ==
             |old(game.floatingMessages)| + (if Invulnerable(old(currentState)) then struck else 0) + collected
      ensures Appended(old(game.collisions), game.collisions)
      ensures Appended(old(game.floatingMessages), game.floatingMessages)
      ensures Grew(old(game.collisions), game.collisions) && Grew(old(game.floatingMessages), game.floatingMessages)
    {
      var box := Bounds();
      ghost var cs, ms := game.collisions, game.floatingMessages;
      ghost var pickups := Replenishments.Boxes(game.replenishments);
      CheckEnemies(game, box, rng, Enemies.Boxes(game.enemies));
      ghost var cs1, ms1 := game.collisions, game.floatingMessages;
      CheckPickups(game, box, rng, pickups);
      AppendedTrans(cs, cs1, game.collisions);
      AppendedTrans(ms, ms1, game.floatingMessages);
    }

    /** The movement part of `update`: x moves by the velocity of the previous frame and is
        held inside the world, then the new horizontal velocity is read from the keys; y
        moves and falls as `Fall` says. */
    method Move(game: Game, input: seq<Key>)
      modifies this`x, this`y, this`velocityX, this`velocityY
      ensures x == ClampX(old(x) + old(velocityX), game.width, width)
      ensures velocityX == SteerX(input, currentState, maxVelocityX)
      ensures Vertical(y, velocityY) == Fall(old(y), old(velocityY), GroundLine(game), weight)
    {
      x := x + velocityX;
      if ArrowRight in input && currentState != Hit {
        velocityX := maxVelocityX;
      } else if ArrowLeft in input && currentState != Hit {
        velocityX := -maxVelocityX;
      } else {
        velocityX := 0.0;
      }
      if x < 0.0 {
        x := 0.0;
      }
      if x > game.width - width {
        x := game.width - width;
      }
      y := y + velocityY;
      if !IsOnGround(game) {
        velocityY := velocityY + weight;
      } else {
        velocityY := 0.0;
      }
      if y > GroundLine(game) {
        y := GroundLine(game);
      }
    }

    /** The sprite clock of `update`: once the timer has passed the interval the frame
        advances (wrapping after the last), a rolling player pays 0.25 energy unless in
        debug mode, and the timer restarts; otherwise the timer accumulates. */
    method Animate(game: Game, deltaTime: real)
      modifies this`frameX, this`frameTimer, game`energy
      ensures old(frameTimer) > frameInterval ==>
                frameX == Wrap(old(frameX), maxFrame) && frameTimer == 0.0 &&
                game.energy == old(game.energy) - (if currentState == Rolling && !game.debug then 0.25 else 0.0)
      ensures old(frameTimer) <= frameInterval ==>
                frameX == old(frameX) && frameTimer == old(frameTimer) + deltaTime && game.energy == old(game.energy)
    {
      if frameTimer > frameInterval {
        if frameX < maxFrame {
          frameX := frameX + 1;
        } else {
          frameX := 0;
        }
        if currentState == Rolling && !game.debug {
          game.energy := game.energy - 0.25;
        }
        frameTimer := 0.0;
      } else {
        frameTimer := frameTimer + deltaTime;
      }
    }

    /** `update(input, deltaTime)`: the collision check, the state's reaction to the keys,
        the movement, the sprite clock and the forced exit from a drained roll, in that order.
        The animation keeps agreeing with the state, the scroll speed with the state's
        multiplier and lives with their maximum; the player ends inside the world
        horizontally, never below the ground line and never rolling without energy. */
    method Update(game: Game, input: seq<Key>, deltaTime: real, rng: Rng)
      requires game.player == this && rng.Valid() && game.Coherent()
      modifies this`x, this`y, this`velocityX, this`velocityY, this`currentState, this`frameX, this`frameY,
               this`maxFrame, this`frameTimer,
               game`backgroundSpeed, game`score, game`lives, game`energy, game`gameOver,
               game`enemiesDestroyed, game`collisions, game`floatingMessages, game`particles,
               game.enemies`markedForDeletion, game.replenishments`markedForDeletion, rng`used
      ensures game.Coherent() && (old(game.gameOver) ==> game.gameOver)
      ensures game.width >= width ==> 0.0 <= x <= game.width - width
      ensures y <= GroundLine(game)
      ensures currentState == Rolling ==> game.energy > 0.0
      ensures ArrowRight !in input && ArrowLeft !in input ==> velocityX == 0.0
      ensures frameTimer == if old(frameTimer) > frameInterval then 0.0 else old(frameTimer) + deltaTime
      ensures Grew(old(game.collisions), game.collisions) && Grew(old(game.floatingMessages), game.floatingMessages)
    {
      Collide(game, rng);
      Respond(game, input, deltaTime);
    }

    /** The collision check as `update` runs it: it keeps the animation in step with the
        state, the scroll speed with the state's multiplier and lives within their maximum. */
    method Collide(game: Game, rng: Rng)
      requires game.player == this && rng.Valid() && game.Coherent()
      modifies this`currentState, this`velocityY, this`frameX, this`frameY, this`maxFrame,
               game`backgroundSpeed, game`score, game`lives, game`energy, game`gameOver,
               game`enemiesDestroyed, game`collisions, game`floatingMessages,
               game.enemies`markedForDeletion, game.replenishments`markedForDeletion, rng`used
      ensures game.Coherent() && (old(game.gameOver) ==> game.gameOver)
      ensures var struck := Hits(old(Bounds()), old(Enemies.Boxes(game.enemies)));
              var collected := Hits(old(Bounds()), old(Replenishments.Boxes(game.replenishments)));
              var hurt := struck > 0 && !Invulnerable(old(currentState));
        && game.CurrentLedger() == Collects(Strikes(old(game.CurrentLedger()), game.debug, struck), game.maxLives, collected)
        && View() == (if hurt then Entered(old(View()), Hit, old(IsOnGround(game))) else old(View()))
        && game.backgroundSpeed == (if hurt then 0.0 else old(game.backgroundSpeed))
      ensures Grew(old(game.collisions), game.collisions) && Grew(old(game.floatingMessages), game.floatingMessages)
    {
      ghost var cs, ms := game.collisions, game.floatingMessages;
      ghost var l0, b0, bg0 := game.CurrentLedger(), View(), game.backgroundSpeed;
      ghost var box := Bounds();
      ghost var struck := Hits(box, Enemies.Boxes(game.enemies));
      ghost var collected := Hits(box, Replenishments.Boxes(game.replenishments));
      ghost var hurt := struck > 0 && !Invulnerable(currentState);
      ghost var es, rs, ps := game.enemies, game.replenishments, game.particles;
      CheckCollision(game, rng);
      assert game.enemies == es && game.replenishments == rs && game.particles == ps;
      LivesStayBounded(l0, game.debug, game.maxLives, struck, collected);
      if l0.gameOver {
        GameOverStays(l0, game.debug, game.maxLives, struck, collected);
      }
      assert game.lives == game.CurrentLedger().lives <= game.maxLives;
      if hurt {
        assert currentState == Hit && Posed(View()) && game.backgroundSpeed == 0.0;
      } else {
        assert View() == b0 && game.backgroundSpeed == bg0;
      }
      if Distinct(cs) {
        CollisionsStayDistinct(cs, game.collisions);
      }
      if Distinct(ms) {
        MessagesStayDistinct(ms, game.floatingMessages);
      }
    }

    /** The rest of `update` after the collision check: the state's reaction to the keys,
        then movement, the sprite clock and the exit from a drained roll. The invariant is
        kept and the player ends in bounds. */
    method Respond(game: Game, input: seq<Key>, deltaTime: real)
      requires game.player == this && game.Coherent()
      modifies this`x, this`y, this`velocityX, this`velocityY, this`currentState, this`frameX, this`frameY,
               this`maxFrame, this`frameTimer,
               game`backgroundSpeed, game`energy, game`particles, game`floatingMessages
      ensures game.Coherent()
      ensures game.energy == old(game.energy) || game.energy == old(game.energy) - 0.25
      ensures game.width >= width ==> 0.0 <= x <= game.width - width
      ensures y <= GroundLine(game)
      ensures currentState == Rolling ==> game.energy > 0.0
      ensures ArrowRight !in input && ArrowLeft !in input ==> velocityX == 0.0
      ensures frameTimer == if old(frameTimer) > frameInterval then 0.0 else old(frameTimer) + deltaTime
      ensures Grew(old(game.floatingMessages), game.floatingMessages)
    {
      React(game, input);
      Settle(game, input, deltaTime);
    }

    /** The state's reaction to the keys as `update` runs it: a change of state comes with
        the scroll speed of the new state, so the animation and the scroll speed stay in step
        with the state. */
    method React(game: Game, input: seq<Key>)
      requires game.player == this && Valid() && game.Steady()
      modifies this`currentState, this`velocityY, this`frameX, this`frameY, this`maxFrame,
               game`backgroundSpeed, game`particles, game`floatingMessages
      ensures Valid() && game.Steady()
      ensures var r := old(Decision(game, input));
        && View() == Reacted(old(View()), r.change, old(IsOnGround(game)))
        && |game.particles| == |old(game.particles)| + |r.emitted|
        && game.particles[|r.emitted|..] == old(game.particles)
        && |game.floatingMessages| == |old(game.floatingMessages)| + (if r.lowEnergy then 1 else 0)
      ensures Distinct(old(game.particles)) ==> Distinct(game.particles)
      ensures Distinct(old(game.floatingMessages)) ==> Distinct(game.floatingMessages)
      ensures Grew(old(game.floatingMessages), game.floatingMessages)
    {
      HandleInput(game, input);
    }

    /** The rest of `update`: movement, the sprite clock and the exit from a drained roll.
        The player ends inside the world horizontally, not below the ground line, and not
        rolling without energy. */
    method Settle(game: Game, input: seq<Key>, deltaTime: real)
      requires game.player == this && Valid() && game.Steady()
      modifies this`x, this`y, this`velocityX, this`velocityY, this`currentState, this`frameX, this`frameY,
               this`maxFrame, this`frameTimer, game`backgroundSpeed, game`energy
      ensures Valid() && game.Steady()
      ensures x == ClampX(old(x) + old(velocityX), game.width, width)
      ensures velocityX == SteerX(input, old(currentState), maxVelocityX)
      ensures Vertical(y, velocityY) == Fall(old(y), old(velocityY), GroundLine(game), weight)
      ensures var fired := old(frameTimer) > frameInterval;
              var drained := old(currentState) == Rolling && game.energy <= 0.0;
        && game.energy == old(game.energy) - (if fired && old(currentState) == Rolling && !game.debug then 0.25 else 0.0)
        && currentState == (if !drained then old(currentState) else if IsOnGround(game) then Sitting else Falling)
        && frameX == (if drained then 0 else if fired then Wrap(old(frameX), maxFrame) else old(frameX))
      ensures game.width >= width ==> 0.0 <= x <= game.width - width
      ensures y <= GroundLine(game)
      ensures currentState == Rolling ==> game.energy > 0.0
      ensures ArrowRight !in input && ArrowLeft !in input ==> velocityX == 0.0
      ensures frameTimer == if old(frameTimer) > frameInterval then 0.0 else old(frameTimer) + deltaTime
    {
      Move(game, input);
      Animate(game, deltaTime);
      ExitDrainedRoll(game);
    }

    /** The end of `update`: a rolling player out of energy sits down on the ground or falls
        in the air. Afterwards the player is never rolling without energy. */
    method ExitDrainedRoll(game: Game)
      modifies this`currentState, this`velocityY, this`frameX, this`frameY, this`maxFrame,
               game`backgroundSpeed
      ensures var drained := old(currentState) == Rolling && game.energy <= 0.0;
              var landed := old(IsOnGround(game));
        && (drained ==> View() == Entered(old(View()), if landed then Sitting else Falling, landed) &&
                        game.backgroundSpeed == game.maxBackgroundSpeed * (if landed then 0.0 else 1.0))
        && (!drained ==> View() == old(View()) && game.backgroundSpeed == old(game.backgroundSpeed))
      ensures currentState == Rolling ==> game.energy > 0.0
    {
      if currentState == Rolling && game.energy <= 0.0 {
        if IsOnGround(game) {
          SetState(game, Sitting, 0);
        } else {
          SetState(game, Falling, 1);
        }
      }
    }
  }

  class Game {
    const width: real
    const height: real
    const groundMargin: real
    const maxBackgroundSpeed: real
    const player: Player
    const enemyInterval: real
    const maxParticles: nat
    const replenishmentInterval: real
    const maxLives: int
    const winningScore: int
    const maxTime: real
    var backgroundSpeed: real
    var enemies: seq<Enemies.Enemy>
    var enemyTimer: real
    var enemiesDestroyed: int
    var particles: seq<Particles.Particle>
    var collisions: seq<CollisionAnimations.CollisionAnimation>
    var floatingMessages: seq<FloatingMessages.FloatingMessage>
    var replenishments: seq<Replenishments.Carrot>
    var replenishmentTimer: real
    var replenishmentCount: int
    var lives: int
    var energy: real
    var debug: bool
    var score: int
    var time: real
    var gameOver: bool

    /** The part of the state a collision changes. */
    function CurrentLedger(): Ledger
      reads this, player
    {
      Ledger(player.currentState, score, lives, energy, gameOver, enemiesDestroyed)
    }

    /** What holds between ticks: everything `Coherent` says, and the particle pool is
        within its cap. */
    ghost predicate Valid()
      reads this, player
    {
      Coherent() && |particles| <= maxParticles
    }

    /** What holds all through a tick: the world has a size, the player's animation agrees
        with its state, the scroll speed is the multiple of its maximum that the state was
        entered with, lives never exceed their maximum, and no entity occurs twice in a pool.
        The particle cap is left out: the player adds particles before `update` trims them. */
    ghost predicate Coherent()
      reads this, player
    {
      Settled() &&
      Distinct(enemies) && Distinct(replenishments) && Distinct(particles) &&
      Distinct(collisions) && Distinct(floatingMessages)
    }

    /** The part of `Coherent` that does not look at the pools. */
    ghost predicate Settled()
      reads this`backgroundSpeed, this`lives, player
    {
      0.0 <= width && 0.0 <= height && player.Valid() && Steady()
    }

    predicate Steady()
      reads this`backgroundSpeed, this`lives, player`currentState
    {
      backgroundSpeed == ScrollSpeed(maxBackgroundSpeed, player.currentState) &&
      lives <= maxLives
    }

    /** Unshifts one new particle per kind of `kinds`, in order, so the last one ends up first. */
    method AddParticles(kinds: seq<Particles.ParticleKind>)
      modifies this`particles
      ensures |particles| == |old(particles)| + |kinds|
      ensures particles[|kinds|..] == old(particles)
      ensures forall k :: 0 <= k < |kinds| ==>
                fresh(particles[k]) && particles[k].kind == kinds[|kinds| - 1 - k]
      ensures Distinct(old(particles)) ==> Distinct(particles)
    {
      var i := 0;
      while i < |kinds|
        invariant 0 <= i <= |kinds|
        invariant |particles| == |old(particles)| + i
        invariant particles[i..] == old(particles)
        invariant forall k :: 0 <= k < i ==> fresh(particles[k]) && particles[k].kind == kinds[i - 1 - k]
        invariant Distinct(old(particles)) ==> Distinct(particles)
      {
        var p := new Particles.Particle(kinds[i]);
        if Distinct(particles) {
          DistinctUnshift(p, particles);
        }
        particles := [p] + particles;
        i := i + 1;
      }
    }

    /** The 'Energy' warning a refused roll pushes: a static message at (24, 107). */
    method WarnEnergy()
      modifies this`floatingMessages
      ensures |floatingMessages| == |old(floatingMessages)| + 1
      ensures floatingMessages[..|old(floatingMessages)|] == old(floatingMessages)
      ensures var m := floatingMessages[|old(floatingMessages)|];
        fresh(m) && m.value == "Energy" && m.kind == FloatingMessages.Static &&
        m.View() == FloatingMessages.Motion(24.0, 107.0, 0, false)
      ensures Distinct(old(floatingMessages)) ==> Distinct(floatingMessages)
    {
      var message := new FloatingMessages.FloatingMessage.StaticMessage("Energy", 24.0, 107.0);
      floatingMessages := floatingMessages + [message];
    }

    /** `collisions.push(new CollisionAnimation(this, centreX, centreY))`. */
    method AddCollision(centreX: real, centreY: real, rng: Rng)
      requires rng.Valid()
      modifies this`collisions, rng`used
      ensures Appended(old(collisions), collisions) && |collisions| == |old(collisions)| + 1
      ensures var b := collisions[|old(collisions)|]; fresh(b) && Explosion(b, centreX, centreY)
      ensures rng.used == old(rng.used) + 2
      ensures Grew(old(collisions), collisions)
    {
      var boom := new CollisionAnimations.CollisionAnimation(centreX, centreY, rng);
      collisions := collisions + [boom];
    }

    /** A new game: three lives of at most ten, five energy, no score, no time, empty pools,
        the player sitting on the ground with the Sitting animation installed. */
    constructor (width: real, height: real)
      requires 0.0 <= width && 0.0 <= height
      ensures this.width == width && this.height == height && groundMargin == 80.0
      ensures maxBackgroundSpeed == 5.0 && enemyInterval == 1000.0 && maxParticles == 50
      ensures replenishmentInterval == 5000.0 && maxLives == 10 && winningScore == 40
      ensures maxTime == 100000.0
      ensures CurrentLedger() == Ledger(Sitting, 0, 3, 5.0, false, 0)
      ensures backgroundSpeed == 0.0 && time == 0.0 && !debug
      ensures enemyTimer == 0.0 && replenishmentTimer == 0.0 && replenishmentCount == 0
      ensures enemies == [] && particles == [] && collisions == [] && floatingMessages == []
      ensures replenishments == []
      ensures player.View() == Body(0.0, player.GroundLine(this), 0.0, 0.0, 0, 5, 4, 0.0, Sitting)
      ensures fresh(player) && Valid()
    {
      this.width, this.height := width, height;
      groundMargin := 80.0;
      backgroundSpeed, maxBackgroundSpeed := 0.0, 5.0;
      player := new Player(height, 80.0);
      enemies, enemyTimer, enemyInterval, enemiesDestroyed := [], 0.0, 1000.0, 0;
      particles, maxParticles := [], 50;
      collisions, floatingMessages := [], [];
      replenishments, replenishmentTimer, replenishmentInterval := [], 0.0, 5000.0;
      replenishmentCount := 0;
      lives, maxLives := 3, 10;
      energy := 5.0;
      debug := false;
      score, winningScore := 0, 40;
      time, maxTime := 0.0, 100.0 * 1000.0;
      gameOver := false;
      new;
      player.currentState := Sitting;
      player.Enter(this);
    }

    /** `update(deltaTime)`: the clock, the player, the enemy clock and the enemies, the
        pickup clock and the pickups, the messages, the particle cap, the explosions, and last
        the compaction of every pool. The invariant is kept, the clocks move as the source
        says and the game once over stays over. */
    method Update(input: seq<Key>, deltaTime: real, rng: Rng, sin: real -> real)
      requires Valid() && rng.Valid()
      modifies this, player, enemies, replenishments, floatingMessages, collisions, rng
      ensures Valid()
      ensures time == old(time) + deltaTime
      ensures old(gameOver) || (time > maxTime && !debug) ==> gameOver
      ensures enemyTimer == if old(enemyTimer) > enemyInterval then 0.0 else old(enemyTimer) + deltaTime
      ensures replenishmentTimer ==
                if old(replenishmentTimer) > replenishmentInterval then 0.0 else old(replenishmentTimer) + deltaTime
    {
      Play(input, deltaTime, rng);
      StepPools(deltaTime, rng, sin);
      Finish(deltaTime);
    }

    /** The start of `update`: the clock, then the player's own update against this game.
        The player may leave more particles than the cap allows. */
    method Play(input: seq<Key>, deltaTime: real, rng: Rng)
      requires Valid() && rng.Valid()
      modifies this`time, this`gameOver, this`energy, this`backgroundSpeed, this`score, this`lives,
               this`enemiesDestroyed, this`collisions, this`floatingMessages, this`particles,
               player, enemies`markedForDeletion, replenishments`markedForDeletion, rng`used
      ensures Coherent()
      ensures time == old(time) + deltaTime
      ensures old(gameOver) || (time > maxTime && !debug) ==> gameOver
      ensures width >= player.width ==> 0.0 <= player.x <= width - player.width
      ensures player.y <= player.GroundLine(this)
      ensures player.currentState == Rolling ==> energy > 0.0
      ensures enemyTimer == old(enemyTimer) && replenishmentTimer == old(replenishmentTimer)
      ensures Grew(old(collisions), collisions) && Grew(old(floatingMessages), floatingMessages)
    {
      Tick(deltaTime);
      player.Update(this, input, deltaTime, rng);
    }

    /** The two clocks of `update` with their pools: the enemy clock and the enemies, then
        the pickup clock and the pickups. */
    method StepPools(deltaTime: real, rng: Rng, sin: real -> real)
      requires Coherent() && rng.Valid()
      modifies this`enemies, this`enemyTimer, this`replenishments, this`replenishmentTimer,
               enemies, replenishments, rng`used
      ensures Coherent()
      ensures enemyTimer == if old(enemyTimer) > enemyInterval then 0.0 else old(enemyTimer) + deltaTime
      ensures replenishmentTimer ==
                if old(replenishmentTimer) > replenishmentInterval then 0.0 else old(replenishmentTimer) + deltaTime
      ensures forall e :: e in enemies ==> e in old(enemies) || fresh(e)
      ensures forall e :: e in old(enemies) ==>
                e in enemies && e.View() == e.Stepped(old(e.View()), deltaTime, backgroundSpeed, height, groundMargin, sin)
      ensures forall c :: c in replenishments ==> c in old(replenishments) || fresh(c)
      ensures forall c :: c in old(replenishments) ==>
                c in replenishments && c.View() == c.Stepped(old(c.View()), deltaTime, backgroundSpeed, sin)
      ensures time == old(time) && gameOver == old(gameOver)
    {
      StepEnemies(deltaTime, rng, sin);
      StepPickups(deltaTime, rng, sin);
    }

    /** The end of `update`: the effects with the particle cap, then the compaction. The
        player may have left more particles than the cap; the invariant holds afterwards. */
    method Finish(deltaTime: real)
      requires Coherent()
      modifies this`enemies, this`replenishments, this`particles, this`floatingMessages, this`collisions,
               (set m | m in floatingMessages), (set c | c in collisions)
      ensures Valid()
      ensures time == old(time) && gameOver == old(gameOver)
      ensures enemyTimer == old(enemyTimer) && replenishmentTimer == old(replenishmentTimer)
    {
      StepEffects(deltaTime);
      Compact();
    }

    /** The enemy block of `update`: the enemy clock, which may add enemies, then one step
        of every enemy, the new ones included. */
    method StepEnemies(deltaTime: real, rng: Rng, sin: real -> real)
      requires Coherent() && rng.Valid()
      modifies this`enemies, this`enemyTimer, enemies, rng`used
      ensures Coherent()
      ensures enemyTimer == if old(enemyTimer) > enemyInterval then 0.0 else old(enemyTimer) + deltaTime
      ensures forall e :: e in enemies ==> e in old(enemies) || fresh(e)
      ensures forall e :: e in old(enemies) ==>
                e in enemies && e.View() == e.Stepped(old(e.View()), deltaTime, backgroundSpeed, height, groundMargin, sin)
    {
      SpawnEnemies(deltaTime, rng);
      Enemies.UpdateAll(enemies, deltaTime, backgroundSpeed, height, groundMargin, sin);
    }

    /** The pickup block of `update`: the pickup clock, which may add a carrot, then one step
        of every carrot, the new one included. */
    method StepPickups(deltaTime: real, rng: Rng, sin: real -> real)
      requires Coherent() && rng.Valid()
      modifies this`replenishments, this`replenishmentTimer, replenishments, rng`used
      ensures Coherent()
      ensures replenishmentTimer ==
                if old(replenishmentTimer) > replenishmentInterval then 0.0 else old(replenishmentTimer) + deltaTime
      ensures forall c :: c in replenishments ==> c in old(replenishments) || fresh(c)
      ensures forall c :: c in old(replenishments) ==>
                c in replenishments && c.View() == c.Stepped(old(c.View()), deltaTime, backgroundSpeed, sin)
    {
      SpawnPickups(deltaTime, rng);
      Replenishments.UpdateAll(replenishments, deltaTime, backgroundSpeed, sin);
    }

    /** The rest of `update` before the filters: one step of every message, the particle cap,
        and one step of every explosion. */
    method StepEffects(deltaTime: real)
      requires Coherent()
      modifies this`particles, (set m | m in floatingMessages), (set c | c in collisions)
      ensures Valid()
      ensures forall j :: 0 <= j < |floatingMessages| ==>
                floatingMessages[j].View() == floatingMessages[j].Stepped(old(floatingMessages[j].View()))
      ensures particles == if |old(particles)| > maxParticles then old(particles)[..maxParticles] else old(particles)
      ensures forall j :: 0 <= j < |collisions| ==>
                collisions[j].View() == collisions[j].Stepped(old(collisions[j].View()), deltaTime, backgroundSpeed)
    {
      FloatingMessages.UpdateAll(floatingMessages);
      CapParticles();
      CollisionAnimations.UpdateAll(collisions, deltaTime, backgroundSpeed);
    }

    /** The clock at the start of `update`: time advances, the game is over once the time
        limit is passed (never in debug mode), and energy regenerates by 0.001 per ms. */
    method Tick(deltaTime: real)
      modifies this`time, this`gameOver, this`energy
      ensures time == old(time) + deltaTime && energy == old(energy) + deltaTime * 0.001
      ensures gameOver <==> old(gameOver) || (time > maxTime && !debug)
    {
      time := time + deltaTime;
      if time > maxTime && !debug {
        gameOver := true;
      }
      energy := energy + deltaTime * 0.001;
    }

    /** `addEnemy`: while the world scrolls, a ground enemy (first draw below 0.5) or else a
        climbing one; then, always, a flying enemy. The new enemies are appended. */
    method AddEnemy(rng: Rng)
      requires rng.Valid() && 0.0 <= width && 0.0 <= height
      modifies this`enemies, rng`used
      ensures var n := |old(enemies)|;
        && |enemies| == n + (if backgroundSpeed > 0.0 then 2 else 1)
        && enemies[..n] == old(enemies)
        && fresh(enemies[|enemies| - 1]) && !enemies[|enemies| - 1].markedForDeletion
        && enemies[|enemies| - 1].kind == Enemies.Flying
        && (backgroundSpeed > 0.0 ==>
              fresh(enemies[n]) && !enemies[n].markedForDeletion &&
              enemies[n].kind == if rng.draws(old(rng.used)) < 0.5 then Enemies.Ground else Enemies.Climbing)
      ensures Distinct(old(enemies)) ==> Distinct(enemies)
    {
      if backgroundSpeed > 0.0 {
        var r := rng.Next();
        var e;
        if r < 0.5 {
          e := new Enemies.Enemy.GroundEnemy(width, height, groundMargin);
        } else {
          e := new Enemies.Enemy.ClimbingEnemy(width, height, rng);
        }
        if Distinct(enemies) {
          DistinctPush(enemies, e);
        }
        enemies := enemies + [e];
      }
      var flyer := new Enemies.Enemy.FlyingEnemy(width, height, rng);
      if Distinct(enemies) {
        DistinctPush(enemies, flyer);
      }
      enemies := enemies + [flyer];
    }

    /** The enemy clock of `update`: past the interval `addEnemy` runs and the clock restarts,
        otherwise the clock accumulates. */
    method SpawnEnemies(deltaTime: real, rng: Rng)
      requires rng.Valid() && 0.0 <= width && 0.0 <= height
      modifies this`enemies, this`enemyTimer, rng`used
      ensures old(enemyTimer) > enemyInterval ==> enemyTimer == 0.0 && |enemies| > |old(enemies)|
      ensures old(enemyTimer) <= enemyInterval ==>
                enemyTimer == old(enemyTimer) + deltaTime && enemies == old(enemies)
      ensures |old(enemies)| <= |enemies| && enemies[..|old(enemies)|] == old(enemies)
      ensures forall k :: |old(enemies)| <= k < |enemies| ==> fresh(enemies[k]) && !enemies[k].markedForDeletion
      ensures Distinct(old(enemies)) ==> Distinct(enemies)
    {
      if enemyTimer > enemyInterval {
        AddEnemy(rng);
        enemyTimer := 0.0;
      } else {
        enemyTimer := enemyTimer + deltaTime;
      }
    }

    /** The pickup clock of `update`: past the interval a carrot is appended on a draw below
        0.5 and the clock restarts, otherwise the clock accumulates. */
    method SpawnPickups(deltaTime: real, rng: Rng)
      requires rng.Valid() && 0.0 <= width && 0.0 <= height
      modifies this`replenishments, this`replenishmentTimer, rng`used
      ensures var n := |old(replenishments)|;
        && (old(replenishmentTimer) > replenishmentInterval ==>
              replenishmentTimer == 0.0 &&
              |replenishments| == n + (if rng.draws(old(rng.used)) < 0.5 then 1 else 0))
        && (old(replenishmentTimer) <= replenishmentInterval ==>
              replenishmentTimer == old(replenishmentTimer) + deltaTime && replenishments == old(replenishments))
        && n <= |replenishments| && replenishments[..n] == old(replenishments)
        && (forall k :: n <= k < |replenishments| ==>
              fresh(replenishments[k]) && !replenishments[k].markedForDeletion)
      ensures Distinct(old(replenishments)) ==> Distinct(replenishments)
    {
      if replenishmentTimer > replenishmentInterval {
        var r := rng.Next();
        if r < 0.5 {
          var c := new Replenishments.Carrot(width, height, rng);
          if Distinct(replenishments) {
            DistinctPush(replenishments, c);
          }
          replenishments := replenishments + [c];
        }
        replenishmentTimer := 0.0;
      } else {
        replenishmentTimer := replenishmentTimer + deltaTime;
      }
    }

    /** `particles.length = maxParticles` when the pool is over its cap: the newest particles,
        which sit at the front, are the ones kept. */
    method CapParticles()
      modifies this`particles
      ensures |old(particles)| > maxParticles ==> particles == old(particles)[..maxParticles]
      ensures |old(particles)| <= maxParticles ==> particles == old(particles)
      ensures |particles| <= maxParticles
      ensures Distinct(old(particles)) ==> Distinct(particles)
    {
      if |particles| > maxParticles {
        if Distinct(particles) {
          DistinctPrefix(particles, maxParticles);
        }
        particles := particles[..maxParticles];
      }
    }

    /** The five `filter` calls that end `update`, one per pool: no pool gains a duplicate
        and the particle pool does not grow. Which entities survive is stated pool by pool by
        the methods called. */
    method Compact()
      requires Distinct(enemies) && Distinct(replenishments) && Distinct(floatingMessages)
      requires Distinct(particles) && Distinct(collisions)
      modifies this`enemies, this`replenishments, this`floatingMessages, this`particles, this`collisions
      ensures Distinct(enemies) && Distinct(replenishments) && Distinct(floatingMessages)
      ensures Distinct(particles) && Distinct(collisions)
      ensures |particles| <= |old(particles)|
    {
      CompactEnemies();
      CompactPickups();
      CompactMessages();
      CompactParticles();
      CompactCollisions();
    }

    /** `enemies = enemies.filter(x => !x.markedForDeletion)`: the enemies whose flag is clear, in their order. */
    method CompactEnemies()
      requires Distinct(enemies)
      modifies this`enemies
      ensures enemies == Retain(old(enemies), old(Enemies.Marks(enemies)))
      ensures forall e :: e in enemies <==> e in old(enemies) && !e.markedForDeletion
      ensures Distinct(enemies)
    {
      Enemies.Survivors(enemies);
      RetainDistinct(enemies, Enemies.Marks(enemies));
      enemies := Retain(enemies, Enemies.Marks(enemies));
    }

    /** `replenishments = replenishments.filter(x => !x.markedForDeletion)`: the pickups whose flag is clear, in their order. */
    method CompactPickups()
      requires Distinct(replenishments)
      modifies this`replenishments
      ensures replenishments == Retain(old(replenishments), old(Replenishments.Marks(replenishments)))
      ensures forall c :: c in replenishments <==> c in old(replenishments) && !c.markedForDeletion
      ensures Distinct(replenishments)
    {
      Replenishments.Survivors(replenishments);
      RetainDistinct(replenishments, Replenishments.Marks(replenishments));
      replenishments := Retain(replenishments, Replenishments.Marks(replenishments));
    }

    /** `floatingMessages = floatingMessages.filter(x => !x.markedForDeletion)`: the messages whose flag is clear, in their order. */
    method CompactMessages()
      requires Distinct(floatingMessages)
      modifies this`floatingMessages
      ensures floatingMessages == Retain(old(floatingMessages), old(FloatingMessages.Marks(floatingMessages)))
      ensures forall m :: m in floatingMessages <==> m in old(floatingMessages) && !m.markedForDeletion
      ensures Distinct(floatingMessages)
    {
      FloatingMessages.Survivors(floatingMessages);
      RetainDistinct(floatingMessages, FloatingMessages.Marks(floatingMessages));
      floatingMessages := Retain(floatingMessages, FloatingMessages.Marks(floatingMessages));
    }

    /** `particles = particles.filter(x => !x.markedForDeletion)`: the particles whose flag is clear, in their order. */
    method CompactParticles()
      requires Distinct(particles)
      modifies this`particles
      ensures particles == Retain(old(particles), old(Particles.Marks(particles)))
      ensures forall p :: p in particles <==> p in old(particles) && !p.markedForDeletion
      ensures Distinct(particles)
    {
      Particles.Survivors(particles);
      RetainDistinct(particles, Particles.Marks(particles));
      particles := Retain(particles, Particles.Marks(particles));
    }

    /** `collisions = collisions.filter(x => !x.markedForDeletion)`: the explosions whose flag is clear, in their order. */
    method CompactCollisions()
      requires Distinct(collisions)
      modifies this`collisions
      ensures collisions == Retain(old(collisions), old(CollisionAnimations.Marks(collisions)))
      ensures forall c :: c in collisions <==> c in old(collisions) && !c.markedForDeletion
      ensures Distinct(collisions)
    {
      CollisionAnimations.Survivors(collisions);
      RetainDistinct(collisions, CollisionAnimations.Marks(collisions));
      collisions := Retain(collisions, CollisionAnimations.Marks(collisions));
    }
  }
}
