/** Floating text: a message that stays where it was shown (static) or glides toward a
    target point (dynamic), and is retired after 100 updates.
    Like every entity module, it repeats the pool helpers (`Marks`, `UpdateAll`, `Survivors`
    and their kin) for its own element type, since the pool code is the same for each kind. */
module FloatingMessages {
  import opened Pools

  const Lifetime: int := 100
  const Easing: real := 0.03

  datatype Kind = Static | Dynamic(targetX: real, targetY: real)

  /** The fields of a message that `update` changes. */
  datatype Motion = Motion(x: real, y: real, timer: int, markedForDeletion: bool)

  /** One easing step: cover 3% of the remaining distance to the target. */
  function Approach(p: real, target: real): (q: real)
    ensures target - q == (1.0 - Easing) * (target - p)
    ensures p <= target ==> p <= q <= target
    ensures target <= p ==> target <= q <= p
  {
    p + (target - p) * Easing
  }

  /** (1 - Easing) to the power n: the share of the distance still to cover after n steps. */
  function Remaining(n: nat): (f: real)
    ensures 0.0 < f <= 1.0
  {
    if n == 0 then 1.0 else (1.0 - Easing) * Remaining(n - 1)
  }

  class FloatingMessage {
    const value: string
    const kind: Kind
    var x: real
    var y: real
    var timer: int
    var markedForDeletion: bool

    function View(): Motion
      reads this
    {
      Motion(x, y, timer, markedForDeletion)
    }

    constructor StaticMessage(value: string, x: real, y: real)
      ensures this.value == value && kind == Static
      ensures View() == Motion(x, y, 0, false)
    {
      this.value, kind := value, Static;
      this.x, this.y := x, y;
      timer, markedForDeletion := 0, false;
    }

    constructor DynamicMessage(value: string, x: real, y: real, targetX: real, targetY: real)
      ensures this.value == value && kind == Dynamic(targetX, targetY)
      ensures View() == Motion(x, y, 0, false)
    {
      this.value, kind := value, Dynamic(targetX, targetY);
      this.x, this.y := x, y;
      timer, markedForDeletion := 0, false;
    }

    /** One `update()`: count one tick, retire the message past its lifetime, and (dynamic
        only) ease the position toward the target. */
    function Stepped(m: Motion): (r: Motion)
      ensures r.timer == m.timer + 1
      ensures r.markedForDeletion <==> m.markedForDeletion || r.timer > Lifetime
      ensures kind.Static? ==> r.x == m.x && r.y == m.y
      ensures kind.Dynamic? ==> r.x == Approach(m.x, kind.targetX) && r.y == Approach(m.y, kind.targetY)
    {
      var t := m.timer + 1;
      var marked := m.markedForDeletion || t > Lifetime;
      match kind
      case Static => Motion(m.x, m.y, t, marked)
      case Dynamic(tx, ty) => Motion(Approach(m.x, tx), Approach(m.y, ty), t, marked)
    }

    method Update()
      modifies this
      ensures View() == Stepped(old(View()))
    {
      timer := timer + 1;
      if timer > Lifetime {
        markedForDeletion := true;
      }
      match kind
      case Static =>
      case Dynamic(tx, ty) =>
        x := x + (tx - x) * Easing;
        y := y + (ty - y) * Easing;
    }

    /** `n` updates. */
    function Run(m: Motion, n: nat): Motion
    {
      if n == 0 then m else Stepped(Run(m, n - 1))
    }

    /** After `n` updates the timer has counted them, and the message is retired exactly when
        some update took the timer past the lifetime (or it was retired already). */
    lemma {:induction false} RunTimer(m: Motion, n: nat)
      ensures Run(m, n).timer == m.timer + n
      ensures Run(m, n).markedForDeletion <==> m.markedForDeletion || (n > 0 && m.timer + n > Lifetime)
    {
      if n > 0 {
        RunTimer(m, n - 1);
      }
    }

    /** A fresh message is shown for exactly 100 updates: it is retired by the 101st update
        and not before. */
    lemma ShownForLifetime(m: Motion, n: nat)
      requires m.timer == 0 && !m.markedForDeletion
      ensures Run(m, n).markedForDeletion <==> n > Lifetime
    {
      RunTimer(m, n);
    }

    /** A static message never moves. */
    lemma {:induction false} StaticStill(m: Motion, n: nat)
      requires kind.Static?
      ensures Run(m, n).x == m.x && Run(m, n).y == m.y
    {
      if n > 0 {
        StaticStill(m, n - 1);
      }
    }

    /** A dynamic message's remaining distance to the target shrinks geometrically: after `n`
        updates it is (1 - Easing)^n of the initial distance, on both axes. */
    lemma {:induction false} EasesGeometrically(m: Motion, n: nat)
      requires kind.Dynamic?
      ensures kind.targetX - Run(m, n).x == Remaining(n) * (kind.targetX - m.x)
      ensures kind.targetY - Run(m, n).y == Remaining(n) * (kind.targetY - m.y)
    {
      if n > 0 {
        EasesGeometrically(m, n - 1);
        var p := Run(m, n - 1);
        assert kind.targetX - Run(m, n).x == (1.0 - Easing) * (kind.targetX - p.x);
        assert kind.targetY - Run(m, n).y == (1.0 - Easing) * (kind.targetY - p.y);
      }
    }

    /** ... so it never overshoots: it stays between its start and the target, and a message
        that starts on its target stays there. */
    lemma NoOvershoot(m: Motion, n: nat)
      requires kind.Dynamic?
      ensures m.x <= kind.targetX ==> m.x <= Run(m, n).x <= kind.targetX
      ensures kind.targetX <= m.x ==> kind.targetX <= Run(m, n).x <= m.x
      ensures m.y <= kind.targetY ==> m.y <= Run(m, n).y <= kind.targetY
      ensures kind.targetY <= m.y ==> kind.targetY <= Run(m, n).y <= m.y
    {
      EasesGeometrically(m, n);
      var f := Remaining(n);
      Between(m.x, kind.targetX, Run(m, n).x, f);
      Between(m.y, kind.targetY, Run(m, n).y, f);
    }
  }

  /** A point whose distance to the target is a share f in (0, 1] of the start's distance
      lies between the start and the target. */
  lemma Between(start: real, target: real, p: real, f: real)
    requires 0.0 < f <= 1.0 && target - p == f * (target - start)
    ensures start <= target ==> start <= p <= target
    ensures target <= start ==> target <= p <= start
  {
    if start <= target {
      var d := target - start;
      Shrinks(f, d);
      assert target - p == f * d;
    } else {
      var d := start - target;
      Shrinks(f, d);
      assert p - target == f * d;
    }
  }

  lemma Shrinks(f: real, d: real)
    requires 0.0 < f <= 1.0 && d >= 0.0
    ensures 0.0 <= f * d <= d
  {
  }

  /** The removal flags of a pool, position by position. */
  function Marks(s: seq<FloatingMessage>): (m: seq<bool>)
    reads s`markedForDeletion
    ensures |m| == |s| && forall i :: 0 <= i < |s| ==> m[i] == s[i].markedForDeletion
  {
    if s == [] then [] else Marks(s[..|s| - 1]) + [s[|s| - 1].markedForDeletion]
  }

  /** `floatingMessages.forEach(message => message.update())`: every message of the pool
      takes one step. */
  method UpdateAll(s: seq<FloatingMessage>)
    requires Distinct(s)
    modifies set x | x in s
    ensures forall j :: 0 <= j < |s| ==> s[j].View() == s[j].Stepped(old(s[j].View()))
  {
    DistinctIndices(s);
    var i := 0;
    while i < |s|
      invariant 0 <= i <= |s|
      invariant forall j :: 0 <= j < i ==> s[j].View() == s[j].Stepped(old(s[j].View()))
      invariant forall j :: i <= j < |s| ==> s[j].View() == old(s[j].View())
    {
      s[i].Update();
      i := i + 1;
    }
  }

  /** `s.filter(x => !x.markedForDeletion)` keeps exactly the messages whose flag is clear. */
  lemma Survivors(s: seq<FloatingMessage>)
    ensures forall x :: x in Retain(s, Marks(s)) <==> x in s && !x.markedForDeletion
  {
    forall x
      ensures x in Retain(s, Marks(s)) <==> x in s && !x.markedForDeletion
    {
      RetainMembers(s, Marks(s), x);
    }
  }
}
