/** The simulator as the viewpoint generator uses it: an articulated agent
    whose base pose is set directly, a scripted navmesh sampler and random
    source, and a renderer that returns one observation per step. */
module Simulation {
  import opened Floats
  import opened Orientation

  /** A bounding box `(x, y, w, h)`. */
  datatype BBox = BBox(x: real, y: real, w: real, h: real)

  /** The apparent size `w * h`. */
  function Area(b: BBox): real {
    b.w * b.h
  }

  /** What one step returns: the first receptacle and target bounding boxes,
      the names of the observation channels present, and the localization
      sensor reading. */
  datatype Observation = Observation(
    recBox: BBox,
    targetBox: BBox,
    channels: set<string>,
    localization: seq<real>)

  /** The agent's stored base rotation: a one-element list kept as given, or
      the yaw extracted from a quaternion. */
  datatype BaseRot = RotList(angles: seq<Float>) | RotYaw(yaw: Float)

  /** The scene of one episode, as an oracle. `near(center, radius, k)` and
      `anywhere(k)` are the navmesh samples on the k-th draw of the path
      finder's random source, `uniform(k)` the k-th NumPy draw on [0, 2*pi),
      `render` the observation at a pose, and `ends` whether that step would
      mark the episode over. */
  datatype Scene = Scene(
    near: (Vec3, real, nat) -> Vec3,
    anywhere: nat -> Vec3,
    uniform: nat -> real,
    render: (Vec3, BaseRot) -> Observation,
    ends: (Vec3, BaseRot) -> bool)

  /** Everything the generator can change in the simulator: the agent pose,
      how many draws each random source has given, and the episode-over flag. */
  datatype SimState = SimState(pos: Vec3, rot: BaseRot, navDraws: nat, npDraws: nat, over: bool)

  /** The encodings `set_articulated_agent_base_state` dispatches on: a
      one-element list or a four-element quaternion. */
  predicate ValidRotation(rot: seq<Float>) {
    |rot| == 1 || |rot| == 4
  }

  /** The rotations it stores without raising: SciPy also refuses a
      quaternion whose components are all zero. */
  predicate Settable(rot: seq<Float>) {
    |rot| == 1 || (|rot| == 4 && !ZeroNorm(rot))
  }

  /** What `set_articulated_agent_base_state` stores for an accepted rotation. */
  function StoredRotation(m: Maths, rot: seq<Float>): BaseRot
    requires ValidRotation(rot)
  {
    if |rot| == 1 then RotList(rot) else RotYaw(m.eulerY(rot))
  }

  /** Both orientation builders produce a four-element encoding, converted
      to a yaw; it is stored without error exactly when it is not all zero. */
  lemma YawOnlyIsStoredAsYaw(m: Maths, q: seq<Float>)
    requires YawOnly(q)
    ensures ValidRotation(q) && StoredRotation(m, q) == RotYaw(m.eulerY(q))
    ensures Settable(q) <==> !ZeroNorm(q)
  {
  }

  /** An aimed orientation is stored without error. */
  lemma AimSettable(m: Maths, position: Vec3, goal: Vec3)
    requires SinCosNeverBothZero(m)
    ensures Settable(CalculateOrientationXZ(m, position, goal))
  {
    YawQuaternionNotZeroNorm(m, Apply2(m.atan2, Sub(goal.z, position.z), Sub(goal.x, position.x)));
  }

  /** A drawn orientation is stored without error. */
  lemma DrawnSettable(m: Maths, theta: real)
    requires SinCosNeverBothZero(m)
    ensures Settable(RandomQuaternionXZ(m, theta))
  {
    YawQuaternionNotZeroNorm(m, Num(theta));
  }

  /** The state after setting the pose `(pos, rot)`, stepping once and forcing
      the episode active, with the observation that step returned. */
  function Visit(s: Scene, m: Maths, st: SimState, pos: Vec3, rot: seq<Float>): (SimState, Observation)
    requires ValidRotation(rot)
  {
    var r := StoredRotation(m, rot);
    (st.(pos := pos, rot := r, over := false), s.render(pos, r))
  }

  /** The articulated agent whose base the generator places. */
  class Agent {
    var basePos: Vec3
    var baseRot: BaseRot

    constructor (pos: Vec3, rot: BaseRot)
      ensures basePos == pos && baseRot == rot
    {
      basePos := pos;
      baseRot := rot;
    }
  }

  datatype SetResult = Applied | ValueError

  /** `set_articulated_agent_base_state`: the position is stored first, then
      the rotation is dispatched on its length. Any other length, and a
      quaternion that `R.from_quat` refuses, raise `ValueError` after the
      position has already been overwritten. */
  method SetArticulatedAgentBaseState(agent: Agent, basePos: Vec3, baseRot: seq<Float>, m: Maths)
    returns (r: SetResult)
    modifies agent
    ensures agent.basePos == basePos
    ensures r == Applied <==> Settable(baseRot)
    ensures |baseRot| == 1 ==> agent.baseRot == RotList(baseRot)
    ensures Settable(baseRot) && |baseRot| == 4 ==> agent.baseRot == RotYaw(m.eulerY(baseRot))
    ensures !Settable(baseRot) ==> agent.baseRot == old(agent.baseRot)
  {
    agent.basePos := basePos;
    if |baseRot| == 1 {
      agent.baseRot := RotList(baseRot);
      r := Applied;
    } else if |baseRot| == 4 {
      if ZeroNorm(baseRot) {
        r := ValueError;
      } else {
        agent.baseRot := RotYaw(m.eulerY(baseRot));
        r := Applied;
      }
    } else {
      r := ValueError;
    }
  }

  /** The environment around one agent: the current scene, the agent, the
      positions of the two random sources, and `env._episode_over`. */
  class Simulator {
    var scene: Scene
    const agent: Agent
    var navDraws: nat
    var npDraws: nat
    var episodeOver: bool

    constructor (scene: Scene, agent: Agent)
      ensures this.scene == scene && this.agent == agent
      ensures navDraws == 0 && npDraws == 0 && !episodeOver
    {
      this.scene := scene;
      this.agent := agent;
      navDraws, npDraws := 0, 0;
      episodeOver := false;
    }

    function State(): SimState
      reads this, agent
    {
      SimState(agent.basePos, agent.baseRot, navDraws, npDraws, episodeOver)
    }

    /** `env.reset()`: load the next episode's scene and mark it active. */
    method Reset(next: Scene)
      modifies this`scene, this`episodeOver
      ensures scene == next && !episodeOver
    {
      scene := next;
      episodeOver := false;
    }

    /** `pathfinder.get_random_navigable_point_near(center, radius)`. */
    method RandomNavigablePointNear(center: Vec3, radius: real) returns (p: Vec3)
      modifies this`navDraws
      ensures p == scene.near(center, radius, old(navDraws))
      ensures navDraws == old(navDraws) + 1
    {
      p := scene.near(center, radius, navDraws);
      navDraws := navDraws + 1;
    }

    /** `pathfinder.get_random_navigable_point()`. */
    method RandomNavigablePoint() returns (p: Vec3)
      modifies this`navDraws
      ensures p == scene.anywhere(old(navDraws))
      ensures navDraws == old(navDraws) + 1
    {
      p := scene.anywhere(navDraws);
      navDraws := navDraws + 1;
    }

    /** `np.random.uniform(0, 2 * np.pi)`. */
    method Uniform() returns (theta: real)
      modifies this`npDraws
      ensures theta == scene.uniform(old(npDraws))
      ensures npDraws == old(npDraws) + 1
    {
      theta := scene.uniform(npDraws);
      npDraws := npDraws + 1;
    }

    /** `env.step` with the empty action; the environment refuses to step an
      episode that is over. */
    method Step() returns (obs: Observation)
      requires !episodeOver
      modifies this`episodeOver
      ensures obs == scene.render(agent.basePos, agent.baseRot)
      ensures episodeOver == scene.ends(agent.basePos, agent.baseRot)
    {
      obs := scene.render(agent.basePos, agent.baseRot);
      episodeOver := scene.ends(agent.basePos, agent.baseRot);
    }
  }

  /** The sequence the generator repeats for every pose it tries: set the base
      state, step once, and force `env._episode_over = False`. */
  method Observe(sim: Simulator, m: Maths, pos: Vec3, rot: seq<Float>) returns (obs: Observation)
    requires Settable(rot) && !sim.episodeOver
    modifies sim`episodeOver, sim.agent
    ensures (sim.State(), obs) == Visit(sim.scene, m, old(sim.State()), pos, rot)
  {
    var _ := SetArticulatedAgentBaseState(sim.agent, pos, rot, m);
    obs := sim.Step();
    sim.episodeOver := false;
  }
}
