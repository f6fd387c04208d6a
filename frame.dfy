/**
 * main.cpp, render loop: the edge-triggered key toggles (R switches bloom,
 * Space pauses) and the guarded dispatch of the physics compute shader.
 * The shader itself is a parameter: physics.comp is not part of this model.
 */
module Frame {
  import opened Glm

  /**
   * A toggled flag and the "still down" flag of its key: use_bloom with
   * r_still_down, paused with space_still_down.
   */
  datatype Latch = Latch(on: bool, stillDown: bool)

  /**
   * One frame's poll of a key: a press while the key was up flips the flag
   * and marks the key down; a release marks it up; a held key does nothing.
   */
  function Poll(l: Latch, pressed: bool): (l': Latch)
    ensures l'.on != l.on <==> pressed && !l.stillDown
    ensures l'.stillDown == pressed
  {
    if pressed && !l.stillDown then Latch(!l.on, true)
    else if !pressed then Latch(l.on, false)
    else l
  }

  /** The latch after polling the key states of successive frames. */
  function Run(l: Latch, keys: seq<bool>): Latch
    decreases |keys|
  {
    if keys == [] then l else Run(Poll(l, keys[0]), keys[1..])
  }

  /** The number of frames that see the key pressed after a frame that saw it up. */
  function Presses(stillDown: bool, keys: seq<bool>): nat
    decreases |keys|
  {
    if keys == [] then 0
    else (if keys[0] && !stillDown then 1 else 0) + Presses(keys[0], keys[1..])
  }

  /**
   * Over any sequence of frames the flag has flipped once per press: it ends
   * different from where it started exactly when the number of presses is
   * odd, and the key is remembered as down exactly when the last frame saw it down.
   */
  lemma {:induction false} RunFlipsOncePerPress(l: Latch, keys: seq<bool>)
    ensures Run(l, keys).on == (l.on != (Presses(l.stillDown, keys) % 2 == 1))
    ensures Run(l, keys).stillDown == (if keys == [] then l.stillDown else keys[|keys| - 1])
    decreases |keys|
  {
    if keys != [] {
      RunFlipsOncePerPress(Poll(l, keys[0]), keys[1..]);
    }
  }

  /** Frames with the key held throughout. */
  function Held(k: nat): (keys: seq<bool>)
    ensures |keys| == k && forall i :: 0 <= i < k ==> keys[i]
  {
    seq(k, _ => true)
  }

  /** Holding a key that is already down never flips the flag. */
  lemma {:induction false} HoldingNeverFlips(l: Latch, k: nat)
    requires l.stillDown
    ensures Run(l, Held(k)) == l
  {
    if k > 0 {
      assert Held(k)[1..] == Held(k - 1);
      HoldingNeverFlips(l, k - 1);
    }
  }

  /** Pressing and holding flips the flag once, however long the key is held. */
  lemma PressAndHoldFlipsOnce(l: Latch, k: nat)
    requires !l.stillDown && 0 < k
    ensures Run(l, Held(k)) == Latch(!l.on, true)
  {
    assert Held(k)[1..] == Held(k - 1);
    HoldingNeverFlips(Latch(!l.on, true), k - 1);
  }

  /** physics_shader_local_group_size_x. */
  const LOCAL_GROUP_SIZE_X: nat := 64

  /** std::ceil of a non-negative real. */
  function Ceil(x: real): (c: int)
    ensures c as real - 1.0 < x <= c as real
  {
    -((-x).Floor)
  }

  /**
   * The work-group count of the dispatch: ceil(n / groupSize). The groups
   * cover all n particles, and one group fewer would not.
   */
  function WorkGroups(n: nat, groupSize: nat): (groups: nat)
    requires 0 < groupSize
    ensures n <= groups * groupSize
    ensures groups == 0 || (groups - 1) * groupSize < n
  {
    var x := n as real / groupSize as real;
    CeilCovers(n, groupSize, x, Ceil(x));
    CeilIsLeast(n, groupSize, x, Ceil(x));
    Ceil(x)
  }

  /** From n / g <= c back to whole numbers: c groups of g cover n. */
  lemma CeilCovers(n: nat, g: nat, x: real, c: int)
    requires 0 < g && x == n as real / g as real && c as real - 1.0 < x <= c as real
    ensures 0 <= c && n <= c * g
  {
    assert x * g as real == n as real;
    ScaleLe(x, c as real, g as real);
    MulCast(c, g);
  }

  /** From c - 1 < n / g back to whole numbers: c - 1 groups of g fall short of n. */
  lemma CeilIsLeast(n: nat, g: nat, x: real, c: int)
    requires 0 < g && x == n as real / g as real && c as real - 1.0 < x <= c as real
    ensures (c - 1) * g < n
  {
    assert x * g as real == n as real;
    assert (c - 1) as real == c as real - 1.0;
    ScaleLt((c - 1) as real, x, g as real);
    MulCast(c - 1, g);
  }

  lemma ScaleLe(x: real, c: real, g: real)
    requires 0.0 < g && x <= c
    ensures x * g <= c * g
  {
    assert 0.0 <= (c - x) * g;
  }

  lemma ScaleLt(x: real, c: real, g: real)
    requires 0.0 < g && x < c
    ensures x * g < c * g
  {
    assert 0.0 < (c - x) * g;
  }

  /** The conversion to real distributes over an integer product. */
  lemma {:induction false} MulCast(a: int, b: nat)
    ensures (a * b) as real == a as real * b as real
  {
    if b > 0 {
      MulCast(a, b - 1);
      assert a * b == a * (b - 1) + a;
    }
  }

  /** The uniforms physics.comp is given: G, particle_mass, particle_light_strength, delta_time and n_particles. */
  datatype Uniforms = Uniforms(g: real, particleMass: real, lightStrength: real, deltaTime: real, nParticles: nat)

  /** The shader storage buffers physics.comp writes: positions, velocities and lighting. */
  datatype Buffers = Buffers(positions: seq<Vec4>, velocities: seq<Vec4>, lighting: seq<Vec4>)

  /** The effect of one dispatch of physics.comp with the given uniforms and work-group count. */
  type Kernel = (Uniforms, nat, Buffers) -> Buffers

  /** The per-frame state of the render loop that the toggles and the dispatch touch. */
  class Simulation {
    var useBloom: bool
    var rStillDown: bool
    var paused: bool
    var spaceStillDown: bool
    var buffers: Buffers
    const particleMass: real
    const nParticles: nat

    /** The flags as main sets them before the loop: bloom on, not paused, no key down. */
    constructor(particleMass: real, nParticles: nat, buffers: Buffers)
      ensures useBloom && !rStillDown && !paused && !spaceStillDown
      ensures this.buffers == buffers
      ensures this.particleMass == particleMass && this.nParticles == nParticles
    {
      useBloom := true;
      rStillDown := false;
      paused := false;
      spaceStillDown := false;
      this.buffers := buffers;
      this.particleMass := particleMass;
      this.nParticles := nParticles;
    }

    function Bloom(): Latch
      reads this
    {
      Latch(useBloom, rStillDown)
    }

    function Pause(): Latch
      reads this
    {
      Latch(paused, spaceStillDown)
    }

    /** The R and Space polls of one frame; the buffers are not touched. */
    method PollKeys(rPressed: bool, spacePressed: bool)
      modifies this
      ensures Bloom() == Poll(old(Bloom()), rPressed)
      ensures Pause() == Poll(old(Pause()), spacePressed)
      ensures buffers == old(buffers)
    {
      if rPressed && !rStillDown {
        useBloom := !useBloom;
        rStillDown := true;
      } else if !rPressed {
        rStillDown := false;
      }
      if spacePressed && !spaceStillDown {
        paused := !paused;
        spaceStillDown := true;
      } else if !spacePressed {
        spaceStillDown := false;
      }
    }

    /**
     * The physics step: when not paused, the kernel is dispatched over
     * ceil(n / 64) work groups; when paused, nothing is dispatched (0 groups)
     * and the buffers keep their contents.
     */
    method DispatchPhysics(kernel: Kernel, deltaTime: real) returns (groups: nat)
      modifies this
      ensures paused ==> groups == 0 && buffers == old(buffers)
      ensures !paused ==> groups == WorkGroups(nParticles, LOCAL_GROUP_SIZE_X)
      ensures !paused ==> buffers == kernel(Uniforms(1.0, particleMass, 0.5, deltaTime, nParticles), groups, old(buffers))
      ensures Bloom() == old(Bloom()) && Pause() == old(Pause())
    {
      groups := 0;
      if !paused {
        var uniforms := Uniforms(1.0, particleMass, 0.5, deltaTime, nParticles);
        groups := WorkGroups(nParticles, LOCAL_GROUP_SIZE_X);
        buffers := kernel(uniforms, groups, buffers);
      }
    }

    /**
     * One frame: the keys are polled before the dispatch, so a Space press
     * stops the physics in the very frame it is seen.
     */
    method Step(rPressed: bool, spacePressed: bool, kernel: Kernel, deltaTime: real) returns (groups: nat)
      modifies this
      ensures Bloom() == Poll(old(Bloom()), rPressed)
      ensures Pause() == Poll(old(Pause()), spacePressed)
      ensures groups == 0 <==> paused || nParticles == 0
      ensures paused ==> buffers == old(buffers)
      ensures !paused ==> groups == WorkGroups(nParticles, LOCAL_GROUP_SIZE_X)
      ensures !paused ==> buffers == kernel(Uniforms(1.0, particleMass, 0.5, deltaTime, nParticles), groups, old(buffers))
    {
      PollKeys(rPressed, spacePressed);
      groups := DispatchPhysics(kernel, deltaTime);
    }
  }
}
