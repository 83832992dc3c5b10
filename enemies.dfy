/** Enemies: one class with a variant tag for the flying, ground and climbing kinds.
    Like every entity module, it repeats the pool helpers (`Marks`, `UpdateAll`, `Survivors`
    and their kin) for its own element type, since the pool code is the same for each kind. */
module Enemies {
  import opened Randomness
  import opened Geometry
  import opened Animation
  import opened Pools

  datatype Kind = Flying | Ground | Climbing

  /** The fields of an enemy that `update` changes. */
  datatype Motion = Motion(x: real, y: real, velocityY: real, frameX: int, frameTimer: real,
                           angle: real, markedForDeletion: bool)

  class Enemy {
    const kind: Kind
    const width: real
    const height: real
    const velocityX: real
    const maxFrame: int
    const fps: real
    const frameInterval: real
    /** Flying only: how fast the phase of the sine bob advances (0 for the other kinds). */
    const angleVelocity: real
    var x: real
    var y: real
    var velocityY: real
    var frameX: int
    var frameTimer: real
    var angle: real
    var markedForDeletion: bool

    function View(): Motion
      reads this
    {
      Motion(x, y, velocityY, frameX, frameTimer, angle, markedForDeletion)
    }

    function Bounds(): Box
      reads this`x, this`y
    {
      Box(x, y, width, height)
    }

    /** A flying enemy enters somewhere in the half-screen right of the world, in the upper
        half, drifting left at a speed in (1, 2]. Draws: x, y, velocityX, angleVelocity. */
    constructor FlyingEnemy(worldWidth: real, worldHeight: real, rng: Rng)
      requires rng.Valid() && worldWidth >= 0.0 && worldHeight >= 0.0
      modifies rng`used
      ensures kind == Flying && width == 60.0 && height == 44.0 && maxFrame == 5
      ensures frameInterval == 50.0 && frameX == 0 && frameTimer == 0.0 && !markedForDeletion
      ensures worldWidth <= x <= worldWidth * 1.5 && 0.0 <= y <= worldHeight * 0.5
      ensures -2.0 < velocityX <= -1.0 && velocityY == 0.0
      ensures angle == 0.0 && 0.1 <= angleVelocity < 0.2
      ensures rng.used == old(rng.used) + 4
    {
      var rx := rng.Next();
      var ry := rng.Next();
      var rv := rng.Next();
      var ra := rng.Next();
      kind, width, height := Flying, 60.0, 44.0;
      x := worldWidth + rx * worldWidth * 0.5;
      y := ry * worldHeight * 0.5;
      velocityX, velocityY := -(rv + 1.0), 0.0;
      angle, angleVelocity := 0.0, ra * 0.1 + 0.1;
      maxFrame, fps := 5, 20.0;
      frameInterval := 1000.0 / 20.0;
      frameX, frameTimer, markedForDeletion := 0, 0.0, false;
      ScaledBelow(rx, worldWidth);
      ScaledBelow(ry, worldHeight);
    }

    /** A ground enemy stands on the ground line at the right edge and does not move by
        itself, so only the scrolling carries it. */
    constructor GroundEnemy(worldWidth: real, worldHeight: real, groundMargin: real)
      ensures kind == Ground && width == 60.0 && height == 87.0 && maxFrame == 1
      ensures frameInterval == 50.0 && frameX == 0 && frameTimer == 0.0 && !markedForDeletion
      ensures x == worldWidth && y == worldHeight - height - groundMargin
      ensures velocityX == 0.0 && velocityY == 0.0 && angle == 0.0 && angleVelocity == 0.0
    {
      kind, width, height := Ground, 60.0, 87.0;
      x, y := worldWidth, worldHeight - 87.0 - groundMargin;
      velocityX, velocityY := 0.0, 0.0;
      angle, angleVelocity := 0.0, 0.0;
      maxFrame, fps := 1, 20.0;
      frameInterval := 1000.0 / 20.0;
      frameX, frameTimer, markedForDeletion := 0, 0.0, false;
    }

    /** A climbing enemy hangs at the right edge in the upper half and moves straight up or
        down at speed 1. Draws: y, then the direction. */
    constructor ClimbingEnemy(worldWidth: real, worldHeight: real, rng: Rng)
      requires rng.Valid() && worldHeight >= 0.0
      modifies rng`used
      ensures kind == Climbing && width == 120.0 && height == 144.0 && maxFrame == 5
      ensures frameInterval == 50.0 && frameX == 0 && frameTimer == 0.0 && !markedForDeletion
      ensures x == worldWidth && 0.0 <= y <= worldHeight * 0.5
      ensures velocityX == 0.0 && (velocityY == 1.0 || velocityY == -1.0)
      ensures angle == 0.0 && angleVelocity == 0.0
      ensures rng.used == old(rng.used) + 2
    {
      var ry := rng.Next();
      var rd := rng.Next();
      kind, width, height := Climbing, 120.0, 144.0;
      x, y := worldWidth, ry * worldHeight * 0.5;
      velocityX := 0.0;
      velocityY := if rd > 0.5 then 1.0 else -1.0;
      angle, angleVelocity := 0.0, 0.0;
      maxFrame, fps := 5, 20.0;
      frameInterval := 1000.0 / 20.0;
      frameX, frameTimer, markedForDeletion := 0, 0.0, false;
      ScaledBelow(ry, worldHeight);
    }

    /** One `update(deltaTime)`: drift by the own velocity minus the scroll speed, advance
        the sprite clock, and retire the enemy once it is off the left edge; a flying enemy
        then bobs by `sin` of its phase, a climbing enemy turns back below the ground line
        and is also retired once it has climbed above the top. */
    function Stepped(m: Motion, dt: real, scroll: real, worldHeight: real, groundMargin: real,
                     sin: real -> real): (r: Motion)
      ensures r.x == m.x + velocityX - scroll
      ensures kind != Flying ==> r.y == m.y + m.velocityY && r.angle == m.angle
      ensures m.frameTimer > frameInterval ==> r.frameTimer == 0.0 && r.frameX == Wrap(m.frameX, maxFrame)
      ensures m.frameTimer <= frameInterval ==> r.frameTimer == m.frameTimer + dt && r.frameX == m.frameX
      ensures 0 <= m.frameX <= maxFrame ==> 0 <= r.frameX <= maxFrame
      ensures r.markedForDeletion <==>
                m.markedForDeletion || r.x + width < 0.0 || (kind == Climbing && r.y < -height)
      ensures kind != Climbing ==> r.velocityY == m.velocityY
      ensures kind == Climbing ==>
                r.velocityY == if m.y + m.velocityY > worldHeight - height - groundMargin then -m.velocityY else m.velocityY
    {
      var x' := m.x + velocityX - scroll;
      var y' := m.y + m.velocityY;
      var fired := m.frameTimer > frameInterval;
      var timer := if fired then 0.0 else m.frameTimer + dt;
      var frame := if fired then Wrap(m.frameX, maxFrame) else m.frameX;
      var marked := m.markedForDeletion || x' + width < 0.0;
      match kind
      case Flying =>
        var a := m.angle + angleVelocity;
        Motion(x', y' + sin(a), m.velocityY, frame, timer, a, marked)
      case Ground =>
        Motion(x', y', m.velocityY, frame, timer, m.angle, marked)
      case Climbing =>
        var v := if y' > worldHeight - height - groundMargin then -m.velocityY else m.velocityY;
        Motion(x', y', v, frame, timer, m.angle, marked || y' < -height)
    }

    method Update(dt: real, scroll: real, worldHeight: real, groundMargin: real, sin: real -> real)
      modifies this
      ensures View() == Stepped(old(View()), dt, scroll, worldHeight, groundMargin, sin)
    {
      x := x + velocityX - scroll;
      y := y + velocityY;
      if frameTimer > frameInterval {
        frameTimer := 0.0;
        if frameX < maxFrame {
          frameX := frameX + 1;
        } else {
          frameX := 0;
        }
      } else {
        frameTimer := frameTimer + dt;
      }
      if x + width < 0.0 {
        markedForDeletion := true;
      }
      match kind
      case Flying =>
        angle := angle + angleVelocity;
        y := y + sin(angle);
      case Ground =>
      case Climbing =>
        if y > worldHeight - height - groundMargin {
          velocityY := -velocityY;
        }
        if y < -height {
          markedForDeletion := true;
        }
    }

    /** `n` updates with the same time step and scroll speed. */
    function Run(m: Motion, n: nat, dt: real, scroll: real, worldHeight: real, groundMargin: real,
                 sin: real -> real): Motion
    {
      if n == 0 then m
      else Stepped(Run(m, n - 1, dt, scroll, worldHeight, groundMargin, sin), dt, scroll, worldHeight, groundMargin, sin)
    }

    /** Over `n` updates an enemy drifts by exactly n * (velocityX - scroll). */
    lemma {:induction false} RunDrift(m: Motion, n: nat, dt: real, scroll: real, worldHeight: real,
                                      groundMargin: real, sin: real -> real)
      ensures Run(m, n, dt, scroll, worldHeight, groundMargin, sin).x == m.x + (n as real) * (velocityX - scroll)
    {
      if n > 0 {
        RunDrift(m, n - 1, dt, scroll, worldHeight, groundMargin, sin);
      }
    }

    /** A climbing enemy moves at speed 1 up or down forever: turning back only flips the
        sign of its vertical velocity. */
    lemma {:induction false} RunClimbSpeed(m: Motion, n: nat, dt: real, scroll: real, worldHeight: real,
                                           groundMargin: real, sin: real -> real)
      requires kind == Climbing && (m.velocityY == 1.0 || m.velocityY == -1.0)
      ensures var r := Run(m, n, dt, scroll, worldHeight, groundMargin, sin);
        r.velocityY == 1.0 || r.velocityY == -1.0
    {
      if n > 0 {
        RunClimbSpeed(m, n - 1, dt, scroll, worldHeight, groundMargin, sin);
      }
    }

    /** Once the removal flag is set no update clears it. */
    lemma {:induction false} RunKeepsMark(m: Motion, n: nat, dt: real, scroll: real, worldHeight: real,
                                          groundMargin: real, sin: real -> real)
      requires m.markedForDeletion
      ensures Run(m, n, dt, scroll, worldHeight, groundMargin, sin).markedForDeletion
    {
      if n > 0 {
        RunKeepsMark(m, n - 1, dt, scroll, worldHeight, groundMargin, sin);
      }
    }

    /** An enemy that does not move right is retired once the world has scrolled past its
        right edge: after `n` updates at a positive scroll speed with
        n * scroll > x + width it is marked for deletion. */
    lemma ScrollsOff(m: Motion, n: nat, dt: real, scroll: real, worldHeight: real,
                     groundMargin: real, sin: real -> real)
      requires velocityX <= 0.0 && scroll > 0.0 && n >= 1
      requires m.x + width < (n as real) * scroll
      ensures Run(m, n, dt, scroll, worldHeight, groundMargin, sin).markedForDeletion
    {
      var before := Run(m, n - 1, dt, scroll, worldHeight, groundMargin, sin);
      RunDrift(m, n, dt, scroll, worldHeight, groundMargin, sin);
      assert (n as real) * velocityX <= 0.0 by {
        NonPositiveProduct(n as real, velocityX);
      }
    }
  }

  lemma NonPositiveProduct(a: real, b: real)
    requires a >= 0.0 && b <= 0.0
    ensures a * b <= 0.0
  {
  }

  /** The removal flags of a pool, position by position. */
  function Marks(s: seq<Enemy>): (m: seq<bool>)
    reads s`markedForDeletion
    ensures |m| == |s| && forall i :: 0 <= i < |s| ==> m[i] == s[i].markedForDeletion
  {
    if s == [] then [] else Marks(s[..|s| - 1]) + [s[|s| - 1].markedForDeletion]
  }

  /** The boxes of a pool, position by position. */
  function Boxes(s: seq<Enemy>): (b: seq<Box>)
    reads s`x, s`y
    ensures |b| == |s| && forall i :: 0 <= i < |s| ==> b[i] == s[i].Bounds()
  {
    if s == [] then [] else Boxes(s[..|s| - 1]) + [s[|s| - 1].Bounds()]
  }

  /** The boxes of a pool stay the same while no entity of it moves. */
  twostate lemma {:induction false} BoxesKept(s: seq<Enemy>)
    requires forall j :: 0 <= j < |s| ==> s[j].x == old(s[j].x) && s[j].y == old(s[j].y)
    ensures Boxes(s) == old(Boxes(s))
  {
    if s != [] {
      BoxesKept(s[..|s| - 1]);
    }
  }

  /** `touch` flags, position by position, the entities of `s` whose box overlaps `box`. */
  ghost predicate Touches(box: Box, s: seq<Enemy>, touch: seq<bool>)
    reads s`x, s`y
  {
    |touch| == |s| && forall j :: 0 <= j < |s| ==> touch[j] == Overlaps(box, s[j].Bounds())
  }

  /** Partway through a pass over a pool: of the first `i` entities those that were hit are
      marked, and every other entity keeps the flag it had before the pass. */
  ghost predicate MarkedUpTo(s: seq<Enemy>, marks: seq<bool>, hit: seq<bool>, i: nat)
    reads s`markedForDeletion
    requires |marks| == |hit| == |s| && i <= |s|
  {
    forall j :: 0 <= j < |s| ==> s[j].markedForDeletion == (marks[j] || (j < i && hit[j]))
  }

  /** Marks the `i`-th entity of a pass, which was hit, for removal. */
  method MarkAt(s: seq<Enemy>, i: nat, ghost marks: seq<bool>, ghost hit: seq<bool>)
    requires Distinct(s) && |marks| == |hit| == |s| && i < |s| && hit[i]
    requires MarkedUpTo(s, marks, hit, i)
    modifies {s[i]}`markedForDeletion
    ensures MarkedUpTo(s, marks, hit, i + 1)
  {
    DistinctIndices(s);
    s[i].markedForDeletion := true;
  }

  /** `enemies.forEach(enemy => enemy.update(deltaTime))`: every enemy of the pool takes one
      step with the game's scroll speed, height and ground margin. */
  method UpdateAll(s: seq<Enemy>, dt: real, scroll: real, worldHeight: real, groundMargin: real,
                   sin: real -> real)
    requires Distinct(s)
    modifies set x | x in s
    ensures forall j :: 0 <= j < |s| ==>
              s[j].View() == s[j].Stepped(old(s[j].View()), dt, scroll, worldHeight, groundMargin, sin)
  {
    DistinctIndices(s);
    var i := 0;
    while i < |s|
      invariant 0 <= i <= |s|
      invariant forall j :: 0 <= j < i ==>
                  s[j].View() == s[j].Stepped(old(s[j].View()), dt, scroll, worldHeight, groundMargin, sin)
      invariant forall j :: i <= j < |s| ==> s[j].View() == old(s[j].View())
    {
      s[i].Update(dt, scroll, worldHeight, groundMargin, sin);
      i := i + 1;
    }
  }

  /** `s.filter(x => !x.markedForDeletion)` keeps exactly the enemies whose flag is clear. */
  lemma Survivors(s: seq<Enemy>)
    ensures forall x :: x in Retain(s, Marks(s)) <==> x in s && !x.markedForDeletion
  {
    forall x
      ensures x in Retain(s, Marks(s)) <==> x in s && !x.markedForDeletion
    {
      RetainMembers(s, Marks(s), x);
    }
  }
}
