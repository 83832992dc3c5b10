/** Replenishments: the carrot, a pickup that restores lives and energy.
    Like every entity module, it repeats the pool helpers (`Marks`, `UpdateAll`, `Survivors`
    and their kin) for its own element type, since the pool code is the same for each kind. */
module Replenishments {
  import opened Randomness
  import opened Geometry
  import opened Animation
  import opened Pools

  /** The fields of a carrot that `update` changes. */
  datatype Motion = Motion(x: real, y: real, frameX: int, frameTimer: real, angle: real,
                           markedForDeletion: bool)

  class Carrot {
    const width: real
    const height: real
    const velocityX: real
    const velocityY: real
    const angleVelocity: real
    const maxFrame: int
    const fps: real
    const frameInterval: real
    var x: real
    var y: real
    var frameX: int
    var frameTimer: real
    var angle: real
    var markedForDeletion: bool

    function View(): Motion
      reads this
    {
      Motion(x, y, frameX, frameTimer, angle, markedForDeletion)
    }

    function Bounds(): Box
      reads this`x, this`y
    {
      Box(x, y, width, height)
    }

    /** A carrot enters like a flying enemy; half of the carrots also drift vertically,
        half of those upwards at a speed in (0, 1] and half downwards at a speed in [1, 2).
        Draws: x, y, velocityX, one coin, then (when the coin is below 0.5) a second coin
        and a speed, and last the phase speed. */
    constructor (worldWidth: real, worldHeight: real, rng: Rng)
      requires rng.Valid() && worldWidth >= 0.0 && worldHeight >= 0.0
      modifies rng`used
      ensures width == 61.2 && height == 60.0 && maxFrame == 19 && frameInterval == 50.0
      ensures frameX == 0 && frameTimer == 0.0 && angle == 0.0 && !markedForDeletion
      ensures worldWidth <= x <= worldWidth * 1.5 && 0.0 <= y <= worldHeight * 0.5
      ensures -2.0 < velocityX <= -1.0 && 0.1 <= angleVelocity < 0.2
      ensures velocityY == 0.0 || -1.0 <= velocityY < 0.0 || 1.0 <= velocityY < 2.0
      ensures rng.draws(old(rng.used) + 3) >= 0.5 <==> velocityY == 0.0
      ensures rng.used == old(rng.used) + (if velocityY == 0.0 then 5 else 7)
    {
      var rx := rng.Next();
      var ry := rng.Next();
      var rv := rng.Next();
      var c1 := rng.Next();
      var vy := 0.0;
      if c1 < 0.5 {
        var c2 := rng.Next();
        var s := rng.Next();
        vy := if c2 < 0.5 then s - 1.0 else s + 1.0;
      }
      var ra := rng.Next();
      width, height := 61.2, 60.0;
      x := worldWidth + rx * worldWidth * 0.5;
      y := ry * worldHeight * 0.5;
      velocityX, velocityY := -(rv + 1.0), vy;
      angle, angleVelocity := 0.0, ra * 0.1 + 0.1;
      maxFrame, fps := 19, 20.0;
      frameInterval := 1000.0 / 20.0;
      frameX, frameTimer, markedForDeletion := 0, 0.0, false;
      ScaledBelow(rx, worldWidth);
      ScaledBelow(ry, worldHeight);
    }

    /** One `update(deltaTime)`: drift by the own velocity minus the scroll speed, advance
        the sprite clock, retire the carrot once it is off the left edge, then bob by `sin`
        of the advanced phase. */
    function Stepped(m: Motion, dt: real, scroll: real, sin: real -> real): (r: Motion)
      ensures r.x == m.x + velocityX - scroll
      ensures r.angle == m.angle + angleVelocity && r.y == m.y + velocityY + sin(r.angle)
      ensures m.frameTimer > frameInterval ==> r.frameTimer == 0.0 && r.frameX == Wrap(m.frameX, maxFrame)
      ensures m.frameTimer <= frameInterval ==> r.frameTimer == m.frameTimer + dt && r.frameX == m.frameX
      ensures 0 <= m.frameX <= maxFrame ==> 0 <= r.frameX <= maxFrame
      ensures r.markedForDeletion <==> m.markedForDeletion || r.x + width < 0.0
    {
      var x' := m.x + velocityX - scroll;
      var fired := m.frameTimer > frameInterval;
      var a := m.angle + angleVelocity;
      Motion(x', m.y + velocityY + sin(a),
             if fired then Wrap(m.frameX, maxFrame) else m.frameX,
             if fired then 0.0 else m.frameTimer + dt,
             a, m.markedForDeletion || x' + width < 0.0)
    }

    method Update(dt: real, scroll: real, sin: real -> real)
      modifies this
      ensures View() == Stepped(old(View()), dt, scroll, sin)
    {
      x := x + velocityX - scroll;
      y := y + velocityY;
      if frameTimer > frameInterval {
        frameTimer := 0.0;
        if frameX < maxFrame {
          frameX := frameX + 1;
        } else {
          frameX := 0;
        }
      } else {
        frameTimer := frameTimer + dt;
      }
      if x + width < 0.0 {
        markedForDeletion := true;
      }
      angle := angle + angleVelocity;
      y := y + sin(angle);
    }

    /** `n` updates with the same time step and scroll speed. */
    function Run(m: Motion, n: nat, dt: real, scroll: real, sin: real -> real): Motion
    {
      if n == 0 then m else Stepped(Run(m, n - 1, dt, scroll, sin), dt, scroll, sin)
    }

    /** Over `n` updates a carrot drifts by exactly n * (velocityX - scroll) and its
        phase advances by n * angleVelocity. */
    lemma {:induction false} RunDrift(m: Motion, n: nat, dt: real, scroll: real, sin: real -> real)
      ensures Run(m, n, dt, scroll, sin).x == m.x + (n as real) * (velocityX - scroll)
      ensures Run(m, n, dt, scroll, sin).angle == m.angle + (n as real) * angleVelocity
    {
      if n > 0 {
        RunDrift(m, n - 1, dt, scroll, sin);
      }
    }

    /** A carrot moving left is retired once it has drifted past the left edge: after `n`
        updates with n * (scroll - velocityX) > x + width it is marked for deletion. */
    lemma ScrollsOff(m: Motion, n: nat, dt: real, scroll: real, sin: real -> real)
      requires n >= 1 && m.x + width < (n as real) * (scroll - velocityX)
      ensures Run(m, n, dt, scroll, sin).markedForDeletion
    {
      RunDrift(m, n, dt, scroll, sin);
    }
  }

  /** The removal flags of a pool, position by position. */
  function Marks(s: seq<Carrot>): (m: seq<bool>)
    reads s`markedForDeletion
    ensures |m| == |s| && forall i :: 0 <= i < |s| ==> m[i] == s[i].markedForDeletion
  {
    if s == [] then [] else Marks(s[..|s| - 1]) + [s[|s| - 1].markedForDeletion]
  }

  /** The boxes of a pool, position by position. */
  function Boxes(s: seq<Carrot>): (b: seq<Box>)
    reads s`x, s`y
    ensures |b| == |s| && forall i :: 0 <= i < |s| ==> b[i] == s[i].Bounds()
  {
    if s == [] then [] else Boxes(s[..|s| - 1]) + [s[|s| - 1].Bounds()]
  }

  /** The boxes of a pool stay the same while no entity of it moves. */
  twostate lemma {:induction false} BoxesKept(s: seq<Carrot>)
    requires forall j :: 0 <= j < |s| ==> s[j].x == old(s[j].x) && s[j].y == old(s[j].y)
    ensures Boxes(s) == old(Boxes(s))
  {
    if s != [] {
      BoxesKept(s[..|s| - 1]);
    }
  }

  /** `touch` flags, position by position, the entities of `s` whose box overlaps `box`. */
  ghost predicate Touches(box: Box, s: seq<Carrot>, touch: seq<bool>)
    reads s`x, s`y
  {
    |touch| == |s| && forall j :: 0 <= j < |s| ==> touch[j] == Overlaps(box, s[j].Bounds())
  }

  /** Partway through a pass over a pool: of the first `i` entities those that were hit are
      marked, and every other entity keeps the flag it had before the pass. */
  ghost predicate MarkedUpTo(s: seq<Carrot>, marks: seq<bool>, hit: seq<bool>, i: nat)
    reads s`markedForDeletion
    requires |marks| == |hit| == |s| && i <= |s|
  {
    forall j :: 0 <= j < |s| ==> s[j].markedForDeletion == (marks[j] || (j < i && hit[j]))
  }

  /** Marks the `i`-th entity of a pass, which was hit, for removal. */
  method MarkAt(s: seq<Carrot>, i: nat, ghost marks: seq<bool>, ghost hit: seq<bool>)
    requires Distinct(s) && |marks| == |hit| == |s| && i < |s| && hit[i]
    requires MarkedUpTo(s, marks, hit, i)
    modifies {s[i]}`markedForDeletion
    ensures MarkedUpTo(s, marks, hit, i + 1)
  {
    DistinctIndices(s);
    s[i].markedForDeletion := true;
  }

  /** `replenishments.forEach(rep => rep.update(deltaTime))`: every carrot of the pool takes
      one step with the game's scroll speed. */
  method UpdateAll(s: seq<Carrot>, dt: real, scroll: real, sin: real -> real)
    requires Distinct(s)
    modifies set x | x in s
    ensures forall j :: 0 <= j < |s| ==> s[j].View() == s[j].Stepped(old(s[j].View()), dt, scroll, sin)
  {
    DistinctIndices(s);
    var i := 0;
    while i < |s|
      invariant 0 <= i <= |s|
      invariant forall j :: 0 <= j < i ==> s[j].View() == s[j].Stepped(old(s[j].View()), dt, scroll, sin)
      invariant forall j :: i <= j < |s| ==> s[j].View() == old(s[j].View())
    {
      s[i].Update(dt, scroll, sin);
      i := i + 1;
    }
  }

  /** `s.filter(x => !x.markedForDeletion)` keeps exactly the carrots whose flag is clear. */
  lemma Survivors(s: seq<Carrot>)
    ensures forall x :: x in Retain(s, Marks(s)) <==> x in s && !x.markedForDeletion
  {
    forall x
      ensures x in Retain(s, Marks(s)) <==> x in s && !x.markedForDeletion
    {
      RetainMembers(s, Marks(s), x);
    }
  }
}
