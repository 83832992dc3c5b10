/** The arithmetic of the player's update and the outcome policy of its collision check,
    as pure functions; the Player class (module Engine) runs them on its fields. */
module PlayerRules {
  import opened Keys
  import opened PlayerStates

  /** The left and right boundaries: first pull up to 0, then down to worldWidth - width. */
  function ClampX(x: real, worldWidth: real, width: real): (r: real)
    ensures width <= worldWidth ==> 0.0 <= r <= worldWidth - width
    ensures 0.0 <= x <= worldWidth - width ==> r == x
    ensures r == x || r == 0.0 || r == worldWidth - width
  {
    var left := if x < 0.0 then 0.0 else x;
    if left > worldWidth - width then worldWidth - width else left
  }

  /** The horizontal velocity chosen from the held keys: right beats left, and a player in
      Hit cannot steer. */
  function SteerX(input: seq<Key>, s: State, maxVelocityX: real): (v: real)
    ensures v == maxVelocityX || v == -maxVelocityX || v == 0.0
    ensures s == Hit ==> v == 0.0
    ensures s != Hit && ArrowRight in input ==> v == maxVelocityX
    ensures s != Hit && ArrowRight !in input && ArrowLeft in input ==> v == -maxVelocityX
    ensures ArrowRight !in input && ArrowLeft !in input ==> v == 0.0
  {
    if ArrowRight in input && s != Hit then maxVelocityX
    else if ArrowLeft in input && s != Hit then -maxVelocityX
    else 0.0
  }

  /** Vertical movement: move by the velocity, then the velocity stops on the ground and
      grows by `weight` in the air, then the position is held at the ground line. */
  datatype Vertical = Vertical(y: real, velocityY: real)

  function Fall(y: real, velocityY: real, groundLine: real, weight: real): (r: Vertical)
    ensures r.y <= groundLine
    ensures y + velocityY >= groundLine ==> r.y == groundLine && r.velocityY == 0.0
    ensures y + velocityY < groundLine ==> r.y == y + velocityY && r.velocityY == velocityY + weight
  {
    var moved := y + velocityY;
    var v := if !(moved >= groundLine) then velocityY + weight else 0.0;
    Vertical(if moved > groundLine then groundLine else moved, v)
  }

  /** The part of the game state a collision changes. */
  datatype Ledger = Ledger(state: State, score: int, lives: int, energy: real, gameOver: bool, enemiesDestroyed: int)

  predicate Invulnerable(s: State) {
    s == Rolling || s == Diving
  }

  /** One enemy overlapping the player: it is always destroyed; a rolling or diving player
      scores and gains energy, any other player is hit, loses a point and a life, and the
      game ends when lives reach 0 unless in debug mode. */
  function StrikeEnemy(l: Ledger, debug: bool): (r: Ledger)
    ensures r.enemiesDestroyed == l.enemiesDestroyed + 1
    ensures Invulnerable(l.state) ==> r.lives == l.lives && r.score == l.score + 1 && r.energy == l.energy + 1.0
    ensures !Invulnerable(l.state) ==> r.state == Hit && r.lives == l.lives - 1 && r.score == l.score - 1 && r.energy == l.energy
    ensures r.gameOver <==> l.gameOver || (!Invulnerable(l.state) && l.lives - 1 <= 0 && !debug)
  {
    if Invulnerable(l.state) then
      l.(score := l.score + 1, energy := l.energy + 1.0, enemiesDestroyed := l.enemiesDestroyed + 1)
    else
      l.(state := Hit, score := l.score - 1, lives := l.lives - 1,
         gameOver := l.gameOver || (l.lives - 1 <= 0 && !debug),
         enemiesDestroyed := l.enemiesDestroyed + 1)
  }

  /** `n` overlapping enemies met one after the other in one pass. */
  function Strikes(l: Ledger, debug: bool, n: nat): Ledger {
    if n == 0 then l else StrikeEnemy(Strikes(l, debug, n - 1), debug)
  }

  /** One pass over `n` overlapping enemies in closed form. The state is re-read for every
      enemy, so once the first hit has put the player in Hit every later overlap in the same
      pass is a hit as well; a rolling or diving player is never hurt in the pass. */
  lemma {:induction false} StrikesClosedForm(l: Ledger, debug: bool, n: nat)
    ensures Strikes(l, debug, n) ==
      if n == 0 then l
      else if Invulnerable(l.state) then
        l.(score := l.score + n, energy := l.energy + n as real, enemiesDestroyed := l.enemiesDestroyed + n)
      else
        l.(state := Hit, score := l.score - n, lives := l.lives - n,
           gameOver := l.gameOver || (!debug && l.lives - n <= 0),
           enemiesDestroyed := l.enemiesDestroyed + n)
  {
    if n > 1 {
      StrikesClosedForm(l, debug, n - 1);
    }
  }

  /** After `n` strikes the player is in Hit, unless there were none or it was rolling or
      diving throughout. */
  lemma {:induction false} StrikesState(l: Ledger, debug: bool, n: nat)
    ensures Strikes(l, debug, n).state == (if n > 0 && !Invulnerable(l.state) then Hit else l.state)
  {
    if n > 0 {
      StrikesState(l, debug, n - 1);
    }
  }

  /** One pickup overlapping the player: a life if below the maximum, and two energy. */
  function Collect(l: Ledger, maxLives: int): (r: Ledger)
    ensures r.energy == l.energy + 2.0
    ensures l.lives < maxLives ==> r.lives == l.lives + 1
    ensures l.lives >= maxLives ==> r.lives == l.lives
    ensures r.state == l.state && r.score == l.score && r.gameOver == l.gameOver
    ensures r.enemiesDestroyed == l.enemiesDestroyed
  {
    l.(lives := if l.lives < maxLives then l.lives + 1 else l.lives, energy := l.energy + 2.0)
  }

  function Collects(l: Ledger, maxLives: int, n: nat): Ledger {
    if n == 0 then l else Collect(Collects(l, maxLives, n - 1), maxLives)
  }

  /** `n` pickups in one pass: lives rise by one per pickup up to the maximum and never
      beyond it, energy rises by two per pickup, nothing else changes. */
  lemma {:induction false} CollectsClosedForm(l: Ledger, maxLives: int, n: nat)
    ensures Collects(l, maxLives, n) ==
      l.(lives := if l.lives >= maxLives then l.lives
                  else if l.lives + n <= maxLives then l.lives + n else maxLives,
         energy := l.energy + 2.0 * n as real)
  {
    if n > 0 {
      CollectsClosedForm(l, maxLives, n - 1);
    }
  }

  /** Neither kind of pass can lift lives above the maximum. */
  lemma LivesStayBounded(l: Ledger, debug: bool, maxLives: int, hits: nat, pickups: nat)
    requires l.lives <= maxLives
    ensures Strikes(l, debug, hits).lives <= maxLives
    ensures Collects(Strikes(l, debug, hits), maxLives, pickups).lives <= maxLives
  {
    StrikesClosedForm(l, debug, hits);
    CollectsClosedForm(Strikes(l, debug, hits), maxLives, pickups);
  }

  /** Once over, the game stays over through both kinds of pass. */
  lemma GameOverStays(l: Ledger, debug: bool, maxLives: int, hits: nat, pickups: nat)
    requires l.gameOver
    ensures Collects(Strikes(l, debug, hits), maxLives, pickups).gameOver
  {
    StrikesClosedForm(l, debug, hits);
    CollectsClosedForm(Strikes(l, debug, hits), maxLives, pickups);
  }
}
