/**
 * The drifting particle field behind the landing page (class ParticleBackground,
 * app.js). Drawing, random initialisation and resizing are not modelled; what is
 * kept is the per-frame move and wrap-around of every particle.
 */
module Particles {

  /** Number of particles the field creates on start. */
  const ParticleCount: nat := 80

  /** One particle: position, velocity, radius and the alpha of its white fill. */
  datatype Particle = Particle(x: real, y: real, speedX: real, speedY: real, size: real, alpha: real)

  /**
   * The wrap rule for one coordinate that has just moved to `v` on an axis of
   * length `limit`: past the far edge it restarts at 0, below 0 it restarts at the
   * far edge (the two tests run one after the other, as `animate` does in app.js).
   */
  function Wrap(v: real, limit: real): (r: real)
    ensures 0.0 <= limit ==> 0.0 <= r <= limit
    ensures limit < v ==> r == 0.0
    ensures v < 0.0 && 0.0 <= limit ==> r == limit
    ensures 0.0 <= v <= limit ==> r == v
  {
    var afterFar := if v > limit then 0.0 else v;
    if afterFar < 0.0 then limit else afterFar
  }

  /** A particle lies on the canvas, edges included. */
  predicate Inside(p: Particle, width: real, height: real)
  {
    0.0 <= p.x <= width && 0.0 <= p.y <= height
  }

  /** One frame for one particle: move by its velocity, then wrap each axis. */
  function Advance(p: Particle, width: real, height: real): Particle
  {
    p.(x := Wrap(p.x + p.speedX, width), y := Wrap(p.y + p.speedY, height))
  }

  /** Whatever its position before, a particle is on the canvas after one frame. */
  lemma AdvanceInside(p: Particle, width: real, height: real)
    requires 0.0 <= width && 0.0 <= height
    ensures Inside(Advance(p, width, height), width, height)
  {
  }

  /**
   * A frame changes only the position: velocity, size and colour stay, and a
   * particle whose move stays on the canvas is not disturbed by the wrap.
   */
  lemma AdvanceKeepsMotion(p: Particle, width: real, height: real)
    ensures var q := Advance(p, width, height);
      q.speedX == p.speedX && q.speedY == p.speedY && q.size == p.size && q.alpha == p.alpha
    ensures Inside(p.(x := p.x + p.speedX, y := p.y + p.speedY), width, height) ==>
      Advance(p, width, height) == p.(x := p.x + p.speedX, y := p.y + p.speedY)
  {
  }

  /** The particle field: the canvas size and the fixed array of particles. */
  class ParticleBackground {
    var width: nat
    var height: nat
    const particles: array<Particle>

    /**
     * Start the field with the given canvas size and (randomly chosen)
     * particles, then run the first frame, as `init` does before returning.
     */
    constructor (width: nat, height: nat, initial: seq<Particle>)
      requires |initial| == ParticleCount
      ensures this.width == width && this.height == height
      ensures fresh(particles) && particles.Length == |initial|
      ensures forall i :: 0 <= i < |initial| ==>
        particles[i] == Advance(initial[i], width as real, height as real)
    {
      this.width := width;
      this.height := height;
      particles := new Particle[|initial|](i requires 0 <= i < |initial| => initial[i]);
      new;
      Animate();
    }

    /** One animation frame: every particle moves and wraps, in place. */
    method Animate()
      modifies particles
      ensures forall i :: 0 <= i < particles.Length ==>
        particles[i] == Advance(old(particles[i]), width as real, height as real)
      ensures forall i :: 0 <= i < particles.Length ==>
        Inside(particles[i], width as real, height as real)
    {
      for i := 0 to particles.Length
        invariant forall j :: 0 <= j < i ==>
          particles[j] == Advance(old(particles[j]), width as real, height as real)
        invariant forall j :: i <= j < particles.Length ==> particles[j] == old(particles[j])
      {
        particles[i] := Advance(particles[i], width as real, height as real);
      }
      forall i | 0 <= i < particles.Length
        ensures Inside(particles[i], width as real, height as real)
      {
        AdvanceInside(old(particles[i]), width as real, height as real);
      }
    }
  }
}
