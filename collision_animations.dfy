/** The explosion sprite played where the player met an enemy or a pickup. It stays where it
    was spawned in world terms, plays its five frames once, and is then retired.
    Like every entity module, it repeats the pool helpers (`Marks`, `UpdateAll`, `Survivors`
    and their kin) for its own element type, since the pool code is the same for each kind. */
module CollisionAnimations {
  import opened Randomness
  import opened Pools

  /** The fields of a collision animation that `update` changes. */
  datatype Motion = Motion(x: real, frameX: int, frameTimer: real, markedForDeletion: bool)

  class CollisionAnimation {
    const spriteWidth: real
    const spriteHeight: real
    const sizeModifier: real
    const width: real
    const height: real
    const y: real
    const maxFrame: int
    const fps: real
    const frameInterval: real
    var x: real
    var frameX: int
    var frameTimer: real
    var markedForDeletion: bool

    function View(): Motion
      reads this
    {
      Motion(x, frameX, frameTimer, markedForDeletion)
    }

    /** The sprite is scaled by a random factor in [0.5, 1.5) and centred on the given point;
        it plays at a random rate in [5, 15) frames per second. Draws: size, then rate. */
    constructor (centreX: real, centreY: real, rng: Rng)
      requires rng.Valid()
      modifies rng`used
      ensures spriteWidth == 100.0 && spriteHeight == 90.0 && 0.5 <= sizeModifier < 1.5
      ensures width == spriteWidth * sizeModifier && height == spriteHeight * sizeModifier
      ensures x + width * 0.5 == centreX && y + height * 0.5 == centreY
      ensures 5.0 <= fps < 15.0 && frameInterval == 1000.0 / fps
      ensures 1000.0 / 15.0 < frameInterval <= 200.0
      ensures maxFrame == 4 && frameX == 0 && frameTimer == 0.0 && !markedForDeletion
      ensures rng.used == old(rng.used) + 2
    {
      var rs := rng.Next();
      var rf := rng.Next();
      spriteWidth, spriteHeight := 100.0, 90.0;
      sizeModifier := rs + 0.5;
      width, height := 100.0 * (rs + 0.5), 90.0 * (rs + 0.5);
      x := centreX - 100.0 * (rs + 0.5) * 0.5;
      y := centreY - 90.0 * (rs + 0.5) * 0.5;
      maxFrame := 4;
      fps := rf * 10.0 + 5.0;
      frameInterval := 1000.0 / (rf * 10.0 + 5.0);
      frameX, frameTimer, markedForDeletion := 0, 0.0, false;
      IntervalBounds(rf * 10.0 + 5.0);
    }

    /** One `update(deltaTime)`: shift left with the scroll so that the effect stays where it
        happened, advance the frame (without wrapping) when the clock has run past the
        interval, and retire the effect once the last frame has been passed. */
    function Stepped(m: Motion, dt: real, scroll: real): (r: Motion)
      ensures r.x == m.x - scroll
      ensures m.frameTimer > frameInterval ==> r.frameX == m.frameX + 1 && r.frameTimer == 0.0
      ensures m.frameTimer <= frameInterval ==> r.frameX == m.frameX && r.frameTimer == m.frameTimer + dt
      ensures r.markedForDeletion <==> m.markedForDeletion || r.frameX > maxFrame
    {
      var fired := m.frameTimer > frameInterval;
      var frame := if fired then m.frameX + 1 else m.frameX;
      Motion(m.x - scroll, frame, if fired then 0.0 else m.frameTimer + dt,
             m.markedForDeletion || frame > maxFrame)
    }

    method Update(dt: real, scroll: real)
      modifies this
      ensures View() == Stepped(old(View()), dt, scroll)
    {
      x := x - scroll;
      if frameTimer > frameInterval {
        frameX := frameX + 1;
        frameTimer := 0.0;
      } else {
        frameTimer := frameTimer + dt;
      }
      if frameX > maxFrame {
        markedForDeletion := true;
      }
    }

    /** `n` updates with the same time step and scroll speed. */
    function Run(m: Motion, n: nat, dt: real, scroll: real): Motion
    {
      if n == 0 then m else Stepped(Run(m, n - 1, dt, scroll), dt, scroll)
    }

    lemma {:induction false} RunSplit(m: Motion, a: nat, b: nat, dt: real, scroll: real)
      ensures Run(m, a + b, dt, scroll) == Run(Run(m, a, dt, scroll), b, dt, scroll)
    {
      if b > 0 {
        RunSplit(m, a, b - 1, dt, scroll);
      }
    }

    /** Over `n` updates the frame never goes back and advances at most once per update;
        while it has not advanced the clock has simply accumulated; the clock stays
        non-negative for non-negative steps; and the flag is set exactly when the last frame
        has been passed (or was set already), once at least one update has run. */
    lemma {:induction false} RunFrames(m: Motion, n: nat, dt: real, scroll: real)
      ensures m.frameX <= Run(m, n, dt, scroll).frameX <= m.frameX + n
      ensures Run(m, n, dt, scroll).frameX == m.frameX ==>
                Run(m, n, dt, scroll).frameTimer == m.frameTimer + (n as real) * dt
      ensures dt >= 0.0 && m.frameTimer >= 0.0 ==> Run(m, n, dt, scroll).frameTimer >= 0.0
      ensures n > 0 ==> (Run(m, n, dt, scroll).markedForDeletion <==>
                           m.markedForDeletion || Run(m, n, dt, scroll).frameX > maxFrame)
    {
      if n > 0 {
        RunFrames(m, n - 1, dt, scroll);
        var p := Run(m, n - 1, dt, scroll);
        assert Run(m, n, dt, scroll) == Stepped(p, dt, scroll);
        assert p.frameX <= Stepped(p, dt, scroll).frameX;
      }
    }

    /** A fresh effect survives its first `maxFrame` updates, whatever the time steps. */
    lemma ShownForAllFrames(m: Motion, n: nat, dt: real, scroll: real)
      requires m.frameX == 0 && !m.markedForDeletion && n <= maxFrame
      ensures !Run(m, n, dt, scroll).markedForDeletion
    {
      RunFrames(m, n, dt, scroll);
    }

    /** The frame advances within `n` updates once the clock would have passed the interval
        after `n - 1` of them. */
    lemma Advances(m: Motion, n: nat, dt: real, scroll: real)
      requires n >= 1 && m.frameTimer + ((n - 1) as real) * dt > frameInterval
      ensures Run(m, n, dt, scroll).frameX > m.frameX
    {
      var p := Run(m, n - 1, dt, scroll);
      RunFrames(m, n - 1, dt, scroll);
    }

    /** With a non-negative step `dt` and `k` steps worth more than one interval, a block of
        k + 1 updates advances the frame and leaves the clock non-negative. */
    lemma Block(m: Motion, k: nat, dt: real, scroll: real)
      requires dt >= 0.0 && m.frameTimer >= 0.0 && (k as real) * dt > frameInterval
      ensures Run(m, k + 1, dt, scroll).frameX > m.frameX
      ensures Run(m, k + 1, dt, scroll).frameTimer >= 0.0
    {
      Advances(m, k + 1, dt, scroll);
      RunFrames(m, k + 1, dt, scroll);
    }

    /** Hence every block of k + 1 updates advances the frame at least once. */
    lemma {:induction false} Paced(m: Motion, j: nat, k: nat, dt: real, scroll: real)
      requires dt >= 0.0 && m.frameTimer >= 0.0 && (k as real) * dt > frameInterval
      ensures Run(m, j * (k + 1), dt, scroll).frameX >= m.frameX + j
      ensures Run(m, j * (k + 1), dt, scroll).frameTimer >= 0.0
    {
      if j > 0 {
        var before := (j - 1) * (k + 1);
        Paced(m, j - 1, k, dt, scroll);
        MultipleStep(j, k + 1);
        RunSplit(m, before, k + 1, dt, scroll);
        Block(Run(m, before, dt, scroll), k, dt, scroll);
      }
    }

    /** ... so the effect is always retired: after (maxFrame + 1) * (k + 1) updates it is
        marked for deletion. */
    lemma Finishes(m: Motion, k: nat, dt: real, scroll: real)
      requires m.frameX >= 0 && m.frameTimer >= 0.0 && dt >= 0.0 && (k as real) * dt > frameInterval
      requires maxFrame >= 0
      ensures Run(m, (maxFrame + 1) * (k + 1), dt, scroll).markedForDeletion
    {
      Paced(m, maxFrame + 1, k, dt, scroll);
      MultipleStep(maxFrame + 1, k + 1);
      RunFrames(m, (maxFrame + 1) * (k + 1), dt, scroll);
    }
  }

  /** 1000 / fps for a rate in [5, 15) lies in (1000 / 15, 200]. */
  lemma IntervalBounds(fps: real)
    requires 5.0 <= fps < 15.0
    ensures 1000.0 / 15.0 < 1000.0 / fps <= 200.0
  {
  }

  lemma MultipleStep(j: nat, k: nat)
    requires j > 0
    ensures j * k == (j - 1) * k + k
  {
  }

  /** The removal flags of a pool, position by position. */
  function Marks(s: seq<CollisionAnimation>): (m: seq<bool>)
    reads s`markedForDeletion
    ensures |m| == |s| && forall i :: 0 <= i < |s| ==> m[i] == s[i].markedForDeletion
  {
    if s == [] then [] else Marks(s[..|s| - 1]) + [s[|s| - 1].markedForDeletion]
  }

  /** `collisions.forEach(collision => collision.update(deltaTime))`: every explosion of the
      pool takes one step with the game's scroll speed. */
  method UpdateAll(s: seq<CollisionAnimation>, dt: real, scroll: real)
    requires Distinct(s)
    modifies set x | x in s
    ensures forall j :: 0 <= j < |s| ==> s[j].View() == s[j].Stepped(old(s[j].View()), dt, scroll)
  {
    DistinctIndices(s);
    var i := 0;
    while i < |s|
      invariant 0 <= i <= |s|
      invariant forall j :: 0 <= j < i ==> s[j].View() == s[j].Stepped(old(s[j].View()), dt, scroll)
      invariant forall j :: i <= j < |s| ==> s[j].View() == old(s[j].View())
    {
      s[i].Update(dt, scroll);
      i := i + 1;
    }
  }

  /** `s.filter(x => !x.markedForDeletion)` keeps exactly the explosions whose flag is clear. */
  lemma Survivors(s: seq<CollisionAnimation>)
    ensures forall x :: x in Retain(s, Marks(s)) <==> x in s && !x.markedForDeletion
  {
    forall x
      ensures x in Retain(s, Marks(s)) <==> x in s && !x.markedForDeletion
    {
      RetainMembers(s, Marks(s), x);
    }
  }
}
