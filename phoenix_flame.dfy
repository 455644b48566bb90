/**
 * The flame screen (src/screens/PhoenixFlameScreen.ts): a pool of animated
 * particles cut from a four-frame sprite sheet, switched on one by one,
 * drifting up and fading each frame and recycled to the flame's base when
 * they fade out or leave the top of the screen.
 *
 * `Math.random`, `Math.sin` and `Math.cos` are not modelled: every random
 * number the screen draws is an input, and each frame's displacement of a
 * particle is given as an input too.
 */
module PhoenixFlame {
  import opened Common

  const ParticleCount: nat := 10
  const FrameWidth: int := 128
  const FrameHeight: int := 128
  const FrameCount: nat := 4
  const AnimationSpeed: real := 0.5
  /** The delay between switching on one particle and the next, in milliseconds. */
  const ActivationStepMs: nat := 200

  /** A frame rectangle in the sprite sheet. */
  datatype Rect = Rect(x: int, y: int, width: int, height: int)

  /** Cuts the sprite sheet into its frames, left to right along the top row. */
  method CreateFrames() returns (frames: seq<Rect>)
    ensures |frames| == FrameCount
    ensures forall i :: 0 <= i < |frames| ==> frames[i] == Rect(i * FrameWidth, 0, FrameWidth, FrameHeight)
  {
    frames := [];
    var i := 0;
    while i < FrameCount
      invariant 0 <= i <= FrameCount && |frames| == i
      invariant forall j :: 0 <= j < i ==> frames[j] == Rect(j * FrameWidth, 0, FrameWidth, FrameHeight)
    {
      frames := frames + [Rect(i * FrameWidth, 0, FrameWidth, FrameHeight)];
      i := i + 1;
    }
  }

  /** The three `Math.random()` results one configuration draws, for scale, alpha and y. */
  datatype Draws = Draws(forScale: real, forAlpha: real, forY: real)

  /** Each draw lies in `[0, 1)`, as `Math.random` promises. */
  predicate ValidDraws(d: Draws) {
    0.0 <= d.forScale < 1.0 && 0.0 <= d.forAlpha < 1.0 && 0.0 <= d.forY < 1.0
  }

  datatype ParticleConfig = ParticleConfig(scale: real, alpha: real, x: real, y: real, animationSpeed: real)

  /**
   * A fresh particle configuration: scale in `[2, 2.25)`, alpha in
   * `[0.7, 1)`, centred horizontally, and up to 10 pixels below 60% of the
   * screen height.
   */
  function GetParticleConfig(screenWidth: real, screenHeight: real, d: Draws): (c: ParticleConfig)
    ensures c.x == screenWidth * 0.5 && c.animationSpeed == AnimationSpeed
    ensures ValidDraws(d) ==>
              2.0 <= c.scale < 2.25 && 0.7 <= c.alpha < 1.0 &&
              screenHeight * 0.6 <= c.y < screenHeight * 0.6 + 10.0
  {
    ParticleConfig(2.0 + d.forScale * 0.25, 0.7 + d.forAlpha * 0.3, screenWidth * 0.5,
                   screenHeight * 0.6 + d.forY * 10.0, AnimationSpeed)
  }

  /** The ranges are exact: every scale, alpha and y in them is produced by some draws. */
  lemma ConfigRangesReached(screenWidth: real, screenHeight: real, scale: real, alpha: real, y: real)
    requires 2.0 <= scale < 2.25 && 0.7 <= alpha < 1.0 && screenHeight * 0.6 <= y < screenHeight * 0.6 + 10.0
    ensures var d := Draws((scale - 2.0) / 0.25, (alpha - 0.7) / 0.3, (y - screenHeight * 0.6) / 10.0);
            ValidDraws(d) &&
            GetParticleConfig(screenWidth, screenHeight, d) == ParticleConfig(scale, alpha, screenWidth * 0.5, y, AnimationSpeed)
  {
  }

  /** What the update loop reads and writes of a particle. */
  datatype ParticleState = ParticleState(x: real, y: real, alpha: real, scale: real, active: bool)

  /**
   * One frame's random input for one particle: the displacement
   * `sin(angle) * speed * deltaTime` across and `cos(angle) * speed * deltaTime`
   * upwards, and the draws a recycle would use.
   */
  datatype Motion = Motion(dx: real, rise: real, reset: Draws)

  /** `updateParticlePosition`: drift across and up. */
  function Move(p: ParticleState, m: Motion): ParticleState {
    p.(x := p.x + m.dx, y := p.y - m.rise)
  }

  /** `updateParticleAlpha`: fade by a hundredth per unit of frame time. */
  function Fade(p: ParticleState, deltaTime: real): ParticleState {
    p.(alpha := p.alpha - 0.01 * deltaTime)
  }

  /** A particle that has faded out or left the top of the screen is due for recycling. */
  predicate Spent(p: ParticleState) {
    p.alpha <= 0.0 || p.y < 0.0
  }

  /** `checkAndResetParticle`: a spent particle gets a fresh position, alpha and scale; any other stays as it is. */
  function Recycle(p: ParticleState, screenWidth: real, screenHeight: real, d: Draws): ParticleState {
    if Spent(p) then
      var c := GetParticleConfig(screenWidth, screenHeight, d);
      p.(x := c.x, y := c.y, alpha := c.alpha, scale := c.scale)
    else p
  }

  /** One frame of one pool particle: an inactive particle is skipped, an active one moves, fades and is recycled if spent. */
  function Advance(p: ParticleState, deltaTime: real, m: Motion, screenWidth: real, screenHeight: real): (q: ParticleState)
    ensures !p.active ==> q == p
    ensures q.active == p.active
    ensures p.active && !Spent(Fade(Move(p, m), deltaTime)) ==>
              q.x == p.x + m.dx && q.y == p.y - m.rise && q.alpha == p.alpha - 0.01 * deltaTime && q.scale == p.scale
    ensures p.active && Spent(Fade(Move(p, m), deltaTime)) && ValidDraws(m.reset) ==>
              q.x == screenWidth * 0.5 && screenHeight * 0.6 <= q.y < screenHeight * 0.6 + 10.0 &&
              0.7 <= q.alpha < 1.0 && 2.0 <= q.scale < 2.25
  {
    if p.active then Recycle(Fade(Move(p, m), deltaTime), screenWidth, screenHeight, m.reset) else p
  }

  /** A particle in a drawable state: scale as configured, partly opaque, and not above the top of the screen. */
  predicate Sane(p: ParticleState) {
    2.0 <= p.scale < 2.25 && 0.0 < p.alpha < 1.0 && p.y >= 0.0
  }

  /** A frame keeps every particle sane: a spent particle is always recycled, into the configured ranges. */
  lemma AdvanceKeepsSane(p: ParticleState, deltaTime: real, m: Motion, screenWidth: real, screenHeight: real)
    requires Sane(p) && deltaTime >= 0.0 && screenHeight >= 0.0 && ValidDraws(m.reset)
    ensures Sane(Advance(p, deltaTime, m, screenWidth, screenHeight))
  {
  }

  /** A freshly configured particle is sane. */
  lemma ConfigIsSane(screenWidth: real, screenHeight: real, d: Draws)
    requires ValidDraws(d) && screenHeight >= 0.0
    ensures var c := GetParticleConfig(screenWidth, screenHeight, d);
            Sane(ParticleState(c.x, c.y, c.alpha, c.scale, false))
  {
  }

  /** An animated sprite of the flame. */
  class Particle {
    const frames: seq<Rect>
    const animationSpeed: real
    var x: real
    var y: real
    var alpha: real
    var scale: real
    /** The flag the update loop gates on; set by the activation timer. */
    var active: bool
    var playing: bool

    /** `createParticle`: a stopped, inactive sprite with the configuration's values. */
    constructor (frames: seq<Rect>, c: ParticleConfig)
      ensures this.frames == frames && animationSpeed == c.animationSpeed
      ensures x == c.x && y == c.y && alpha == c.alpha && scale == c.scale
      ensures !active && !playing
    {
      this.frames, animationSpeed := frames, c.animationSpeed;
      x, y, alpha, scale := c.x, c.y, c.alpha, c.scale;
      active, playing := false, false;
    }

    function State(): ParticleState
      reads this
    {
      ParticleState(x, y, alpha, scale, active)
    }

    /** Just created from `c` and started: playing, not yet active, with the configuration's values. */
    ghost predicate Spawned(frames: seq<Rect>, c: ParticleConfig)
      reads this
    {
      this.frames == frames && animationSpeed == c.animationSpeed &&
      State() == ParticleState(c.x, c.y, c.alpha, c.scale, false) && playing
    }

    /** Starts cycling through the frames. */
    method Play()
      modifies this`playing
      ensures playing
    {
      playing := true;
    }
  }

  /** A pending `setTimeout`: the particle to switch on and the delay. */
  datatype Activation = Activation(particle: Particle, delayMs: nat)

  class PhoenixFlameScreen {
    /** The pool the update loop walks. */
    var fireParticles: seq<Particle>
    /** The particle container's children. */
    var container: seq<Particle>
    /** Activations scheduled so far, in scheduling order. */
    var timers: seq<Activation>

    constructor ()
      ensures fireParticles == [] && container == [] && timers == []
    {
      fireParticles, container, timers := [], [], [];
    }

    /** No particle appears twice in the container or in the pool. */
    predicate Valid()
      reads this
    {
      Distinct(container) && Distinct(fireParticles)
    }

    /** Every pool particle is sane. */
    ghost predicate PoolSane()
      reads this, fireParticles
    {
      forall i :: 0 <= i < |fireParticles| ==> Sane(fireParticles[i].State())
    }

    /**
     * Creates ten particles from `draws` (one configuration each) and starts
     * them playing; all ten join the container, all but the first join the
     * pool, and particle `i` is scheduled to switch on after `200 i` ms.
     * Nothing is cleared first.
     */
    method CreateParticles(frames: seq<Rect>, screenWidth: real, screenHeight: real, draws: seq<Draws>)
      requires |draws| == ParticleCount
      requires Valid()
      modifies this
      ensures Valid()
      ensures |container| == |old(container)| + ParticleCount && container[..|old(container)|] == old(container)
      ensures fireParticles == old(fireParticles) + container[|old(container)| + 1..]
      ensures container[|old(container)|] !in fireParticles
      ensures |timers| == |old(timers)| + ParticleCount && timers[..|old(timers)|] == old(timers)
      ensures forall k :: |old(timers)| <= k < |timers| ==>
                var i := k - |old(timers)|;
                timers[k] == Activation(container[|old(container)| + i], i * ActivationStepMs)
      ensures forall k :: |old(container)| <= k < |container| ==>
                fresh(container[k]) &&
                container[k].Spawned(frames, GetParticleConfig(screenWidth, screenHeight, draws[k - |old(container)|]))
      ensures (forall i :: 0 <= i < ParticleCount ==> ValidDraws(draws[i])) && screenHeight >= 0.0 && old(PoolSane()) ==>
                PoolSane()
    {
      ghost var n0 := |container|;
      var i := 0;
      while i < ParticleCount
        invariant 0 <= i <= ParticleCount
        invariant |container| == n0 + i && container[..n0] == old(container)
        invariant i == 0 ==> fireParticles == old(fireParticles)
        invariant i > 0 ==> fireParticles == old(fireParticles) + container[n0 + 1..]
        invariant |timers| == |old(timers)| + i && timers[..|old(timers)|] == old(timers)
        invariant forall k :: |old(timers)| <= k < |timers| ==>
                    var j := k - |old(timers)|;
                    timers[k] == Activation(container[n0 + j], j * ActivationStepMs)
        invariant Distinct(container) && Distinct(fireParticles)
        invariant forall k :: n0 <= k < |container| ==>
                    fresh(container[k]) && container[k].Spawned(frames, GetParticleConfig(screenWidth, screenHeight, draws[k - n0]))
        invariant i > 0 ==> container[n0] !in fireParticles
      {
        var config := GetParticleConfig(screenWidth, screenHeight, draws[i]);
        var particle := new Particle(frames, config);
        particle.Play();
        if i > 0 {
          fireParticles := fireParticles + [particle];
        }
        container := container + [particle];
        timers := timers + [Activation(particle, i * ActivationStepMs)];
        i := i + 1;
      }
      if (forall i :: 0 <= i < ParticleCount ==> ValidDraws(draws[i])) && screenHeight >= 0.0 && old(PoolSane()) {
        forall k | 0 <= k < |fireParticles|
          ensures Sane(fireParticles[k].State())
        {
          if k >= |old(fireParticles)| {
            var j := k - |old(fireParticles)| + 1;
            assert fireParticles[k] == container[n0 + j];
            assert container[n0 + j].Spawned(frames, GetParticleConfig(screenWidth, screenHeight, draws[j]));
            ConfigIsSane(screenWidth, screenHeight, draws[j]);
          }
        }
      }
    }

    /** The activation timer's callback: switches the particle on. */
    method AnimateParticle(particle: Particle)
      modifies particle`active
      ensures particle.active
    {
      particle.active := true;
    }

    /** `updateParticlePosition`. */
    method UpdateParticlePosition(particle: Particle, m: Motion)
      modifies particle`x, particle`y
      ensures particle.State() == Move(old(particle.State()), m)
    {
      particle.x := particle.x + m.dx;
      particle.y := particle.y - m.rise;
    }

    /** `updateParticleAlpha`. */
    method UpdateParticleAlpha(particle: Particle, deltaTime: real)
      modifies particle`alpha
      ensures particle.State() == Fade(old(particle.State()), deltaTime)
    {
      particle.alpha := particle.alpha - 0.01 * deltaTime;
    }

    /** `checkAndResetParticle`, drawing `d` for the new configuration. */
    method CheckAndResetParticle(particle: Particle, screenWidth: real, screenHeight: real, d: Draws)
      modifies particle`x, particle`y, particle`alpha, particle`scale
      ensures particle.State() == Recycle(old(particle.State()), screenWidth, screenHeight, d)
    {
      if particle.alpha <= 0.0 || particle.y < 0.0 {
        var config := GetParticleConfig(screenWidth, screenHeight, d);
        particle.x := config.x;
        particle.y := config.y;
        particle.alpha := config.alpha;
        particle.scale := config.scale;
      }
    }

    /**
     * One frame over the pool: each active particle moves, fades and is
     * recycled if spent, with its own motion; inactive particles are left
     * as they are.
     */
    method UpdateParticles(deltaTime: real, motions: seq<Motion>, screenWidth: real, screenHeight: real)
      requires |motions| == |fireParticles| && Distinct(fireParticles)
      modifies set p | p in fireParticles
      ensures forall i :: 0 <= i < |fireParticles| ==>
                fireParticles[i].State() == Advance(old(fireParticles[i].State()), deltaTime, motions[i], screenWidth, screenHeight)
      ensures forall p :: p in fireParticles ==> p.playing == old(p.playing)
      ensures ((forall i :: 0 <= i < |motions| ==> ValidDraws(motions[i].reset)) &&
               deltaTime >= 0.0 && screenHeight >= 0.0 && old(PoolSane())) ==> PoolSane()
    {
      var i := 0;
      while i < |fireParticles|
        invariant 0 <= i <= |fireParticles|
        invariant forall p :: p in fireParticles ==> p.playing == old(p.playing)
        invariant forall j :: 0 <= j < i ==>
                    fireParticles[j].State() == Advance(old(fireParticles[j].State()), deltaTime, motions[j], screenWidth, screenHeight)
        invariant forall j :: i <= j < |fireParticles| ==> fireParticles[j].State() == old(fireParticles[j].State())
      {
        var particle := fireParticles[i];
        if particle.active {
          UpdateParticlePosition(particle, motions[i]);
          UpdateParticleAlpha(particle, deltaTime);
          CheckAndResetParticle(particle, screenWidth, screenHeight, motions[i].reset);
        }
        i := i + 1;
      }
      if (forall i :: 0 <= i < |motions| ==> ValidDraws(motions[i].reset)) &&
         deltaTime >= 0.0 && screenHeight >= 0.0 && old(PoolSane()) {
        forall i | 0 <= i < |fireParticles|
          ensures Sane(fireParticles[i].State())
        {
          AdvanceKeepsSane(old(fireParticles[i].State()), deltaTime, motions[i], screenWidth, screenHeight);
        }
      }
    }

    /** The resize hook: every pool particle moves to the flame's base; nothing else changes. */
    method OnResize(screenWidth: real, screenHeight: real)
      requires Distinct(fireParticles)
      modifies set p | p in fireParticles
      ensures forall i :: 0 <= i < |fireParticles| ==>
                fireParticles[i].State() == old(fireParticles[i].State()).(x := screenWidth * 0.5, y := screenHeight * 0.75)
      ensures forall p :: p in fireParticles ==> p.playing == old(p.playing)
      ensures forall p :: p in container && p !in fireParticles ==> p.State() == old(p.State())
    {
      var i := 0;
      while i < |fireParticles|
        invariant 0 <= i <= |fireParticles|
        invariant forall p :: p in fireParticles ==> p.playing == old(p.playing)
        invariant forall j :: 0 <= j < i ==>
                    fireParticles[j].State() == old(fireParticles[j].State()).(x := screenWidth * 0.5, y := screenHeight * 0.75)
        invariant forall j :: i <= j < |fireParticles| ==> fireParticles[j].State() == old(fireParticles[j].State())
      {
        var particle := fireParticles[i];
        particle.x := screenWidth * 0.5;
        particle.y := screenHeight * 0.75;
        i := i + 1;
      }
    }
  }
}
