/** The three particle kinds the player states emit. Their own motion and lifetime live in a
    file that is not part of this model, so a particle is its kind and its removal flag.
    Like every entity module, it repeats the pool helpers (`Marks`, `UpdateAll`, `Survivors`
    and their kin) for its own element type, since the pool code is the same for each kind. */
module Particles {
  import opened Pools

  datatype ParticleKind = Dust | Fire | Splash

  class Particle {
    const kind: ParticleKind
    var markedForDeletion: bool

    constructor (kind: ParticleKind)
      ensures this.kind == kind && !markedForDeletion
    {
      this.kind := kind;
      markedForDeletion := false;
    }
  }

  /** The removal flags of a pool, position by position. */
  function Marks(s: seq<Particle>): (m: seq<bool>)
    reads s`markedForDeletion
    ensures |m| == |s| && forall i :: 0 <= i < |s| ==> m[i] == s[i].markedForDeletion
  {
    if s == [] then [] else Marks(s[..|s| - 1]) + [s[|s| - 1].markedForDeletion]
  }

  /** `s.filter(x => !x.markedForDeletion)` keeps exactly the particles whose flag is clear. */
  lemma Survivors(s: seq<Particle>)
    ensures forall x :: x in Retain(s, Marks(s)) <==> x in s && !x.markedForDeletion
  {
    forall x
      ensures x in Retain(s, Marks(s)) <==> x in s && !x.markedForDeletion
    {
      RetainMembers(s, Marks(s), x);
    }
  }
}
