/** The bounded retry/backoff search that places a viewpoint near a start or
    goal position: sample near the centre, aim at it, observe, accept when the
    NaN test and the apparent-size range pass, otherwise widen the radius by
    0.1 and try again, keeping the last sample when the budget runs out. */
module ViewpointSearch {
  import opened Floats
  import opened Orientation
  import opened Simulation

  /** The bounding box a search reads: the start search reads
      `rec_bounding_box`, the goal search `target_bounding_box`. */
  datatype BoxKind = RecBox | TargetBox

  /** The point whose x coordinate the NaN test reads: the sampled point
      itself, or a fixed point (the goal search reads the start search's point). */
  datatype NanGuard = OwnPoint | FixedPoint(p: Vec3)

  datatype SearchConfig = SearchConfig(
    distToTarget: real,
    maxTrials: nat,
    bboxRangeMin: real,
    bboxRangeMax: real)

  /** The last sampled point and its orientation, the final `n_trial` and
      `radius`, and whether the loop left through `break`. */
  datatype SearchOutcome = SearchOutcome(
    point: Vec3,
    orientation: seq<Float>,
    trials: nat,
    radius: real,
    accepted: bool)

  function BoxOf(obs: Observation, kind: BoxKind): BBox {
    if kind.RecBox? then obs.recBox else obs.targetBox
  }

  function Checked(guard: NanGuard, sampled: Vec3): Vec3 {
    if guard.OwnPoint? then sampled else guard.p
  }

  /** The acceptance test of one trial at sampled point `p`, aimed at `center`. */
  predicate Passes(s: Scene, m: Maths, center: Vec3, kind: BoxKind, guard: NanGuard, cfg: SearchConfig, p: Vec3) {
    var obs := s.render(p, RotYaw(m.eulerY(CalculateOrientationXZ(m, p, center))));
    !Checked(guard, p).x.NaN? && InRange(Area(BoxOf(obs, kind)), cfg.bboxRangeMin, cfg.bboxRangeMax)
  }

  /** The point sampled on the j-th trial of a loop that started at `radius0`
      on draw `draw0`. */
  function TrialPoint(s: Scene, center: Vec3, radius0: real, draw0: nat, j: nat): Vec3 {
    s.near(center, radius0 + 0.1 * j as real, draw0 + j)
  }

  /** The loop from a state with `left` trials still allowed, `trials` done so
      far and the current `radius`. */
  function SearchLoop(s: Scene, m: Maths, st: SimState, center: Vec3, kind: BoxKind, guard: NanGuard,
                      cfg: SearchConfig, left: nat, trials: nat, radius: real): (SearchOutcome, SimState)
    requires left >= 1
    decreases left
  {
    var p := s.near(center, radius, st.navDraws);
    var q := CalculateOrientationXZ(m, p, center);
    var st1 := Visit(s, m, st.(navDraws := st.navDraws + 1), p, q).0;
    if Passes(s, m, center, kind, guard, cfg, p) then
      (SearchOutcome(p, q, trials, radius, true), st1)
    else if left == 1 then
      (SearchOutcome(p, q, trials + 1, radius + 0.1, false), st1)
    else
      SearchLoop(s, m, st1, center, kind, guard, cfg, left - 1, trials + 1, radius + 0.1)
  }

  /** The whole search: `n_trial = 0`, `radius = dist_to_target`. */
  function Search(s: Scene, m: Maths, st: SimState, center: Vec3, kind: BoxKind, guard: NanGuard,
                  cfg: SearchConfig): (r: (SearchOutcome, SimState))
    requires cfg.maxTrials >= 1
    ensures r.0.trials <= cfg.maxTrials
    ensures r.0.orientation == CalculateOrientationXZ(m, r.0.point, center)
    ensures r.1.navDraws > st.navDraws && !r.1.over
  {
    SearchLoopShape(s, m, st, center, kind, guard, cfg, cfg.maxTrials, 0, cfg.distToTarget);
    SearchLoop(s, m, st, center, kind, guard, cfg, cfg.maxTrials, 0, cfg.distToTarget)
  }

  /** Counting, radius growth, the pose left on the agent and the draws used. */
  lemma {:induction false} SearchLoopShape(s: Scene, m: Maths, st: SimState, center: Vec3, kind: BoxKind,
                                           guard: NanGuard, cfg: SearchConfig, left: nat, trials: nat, radius: real)
    requires left >= 1
    ensures var o := SearchLoop(s, m, st, center, kind, guard, cfg, left, trials, radius).0;
      && trials <= o.trials <= trials + left
      && (o.accepted <==> o.trials < trials + left)
      && o.radius == radius + 0.1 * (o.trials - trials) as real
      && o.orientation == CalculateOrientationXZ(m, o.point, center)
      && SearchLoop(s, m, st, center, kind, guard, cfg, left, trials, radius).1
         == st.(pos := o.point, rot := RotYaw(m.eulerY(o.orientation)),
                navDraws := st.navDraws + (o.trials - trials) + (if o.accepted then 1 else 0),
                over := false)
    decreases left
  {
    var p := s.near(center, radius, st.navDraws);
    var q := CalculateOrientationXZ(m, p, center);
    var st1 := Visit(s, m, st.(navDraws := st.navDraws + 1), p, q).0;
    if !Passes(s, m, center, kind, guard, cfg, p) && left > 1 {
      SearchLoopShape(s, m, st1, center, kind, guard, cfg, left - 1, trials + 1, radius + 0.1);
    }
  }

  /** Every trial before the one the loop stopped at failed. */
  lemma {:induction false} SearchLoopEarlierTrialsFail(s: Scene, m: Maths, st: SimState, center: Vec3, kind: BoxKind,
                                                       guard: NanGuard, cfg: SearchConfig, left: nat, trials: nat, radius: real)
    requires left >= 1
    ensures var o := SearchLoop(s, m, st, center, kind, guard, cfg, left, trials, radius).0;
      forall j: nat :: trials + j < o.trials && j < left ==>
        !Passes(s, m, center, kind, guard, cfg, TrialPoint(s, center, radius, st.navDraws, j))
    decreases left
  {
    var p := s.near(center, radius, st.navDraws);
    var q := CalculateOrientationXZ(m, p, center);
    var st1 := Visit(s, m, st.(navDraws := st.navDraws + 1), p, q).0;
    assert p == TrialPoint(s, center, radius, st.navDraws, 0);
    if !Passes(s, m, center, kind, guard, cfg, p) && left > 1 {
      SearchLoopEarlierTrialsFail(s, m, st1, center, kind, guard, cfg, left - 1, trials + 1, radius + 0.1);
      var o := SearchLoop(s, m, st1, center, kind, guard, cfg, left - 1, trials + 1, radius + 0.1).0;
      forall j: nat | trials + j < o.trials && j < left
        ensures !Passes(s, m, center, kind, guard, cfg, TrialPoint(s, center, radius, st.navDraws, j))
      {
        if j > 0 {
          assert TrialPoint(s, center, radius, st.navDraws, j)
              == TrialPoint(s, center, radius + 0.1, st1.navDraws, j - 1);
        }
      }
    }
  }

  lemma TrialPointShift(s: Scene, center: Vec3, radius: real, draw: nat, j: nat)
    requires j >= 1
    ensures TrialPoint(s, center, radius, draw, j) == TrialPoint(s, center, radius + 0.1, draw + 1, j - 1)
  {
  }

  /** An accepted loop ends on the sample that passed. */
  lemma {:induction false} SearchLoopAcceptedPoint(s: Scene, m: Maths, st: SimState, center: Vec3, kind: BoxKind,
                                                   guard: NanGuard, cfg: SearchConfig, left: nat, trials: nat, radius: real)
    requires left >= 1
    ensures var o := SearchLoop(s, m, st, center, kind, guard, cfg, left, trials, radius).0;
      o.accepted ==> trials <= o.trials
                     && o.point == TrialPoint(s, center, radius, st.navDraws, o.trials - trials)
                     && Passes(s, m, center, kind, guard, cfg, o.point)
    decreases left
  {
    var p := s.near(center, radius, st.navDraws);
    var q := CalculateOrientationXZ(m, p, center);
    var st1 := Visit(s, m, st.(navDraws := st.navDraws + 1), p, q).0;
    if !Passes(s, m, center, kind, guard, cfg, p) && left > 1 {
      SearchLoopAcceptedPoint(s, m, st1, center, kind, guard, cfg, left - 1, trials + 1, radius + 0.1);
      var o := SearchLoop(s, m, st1, center, kind, guard, cfg, left - 1, trials + 1, radius + 0.1).0;
      if o.accepted {
        TrialPointShift(s, center, radius, st.navDraws, o.trials - trials);
      }
    }
  }

  /** A loop that exhausts its budget ends on its last sample. */
  lemma {:induction false} SearchLoopLastPoint(s: Scene, m: Maths, st: SimState, center: Vec3, kind: BoxKind,
                                               guard: NanGuard, cfg: SearchConfig, left: nat, trials: nat, radius: real)
    requires left >= 1
    ensures var o := SearchLoop(s, m, st, center, kind, guard, cfg, left, trials, radius).0;
      !o.accepted ==> o.point == TrialPoint(s, center, radius, st.navDraws, left - 1)
    decreases left
  {
    var p := s.near(center, radius, st.navDraws);
    var q := CalculateOrientationXZ(m, p, center);
    var st1 := Visit(s, m, st.(navDraws := st.navDraws + 1), p, q).0;
    if !Passes(s, m, center, kind, guard, cfg, p) && left > 1 {
      SearchLoopLastPoint(s, m, st1, center, kind, guard, cfg, left - 1, trials + 1, radius + 0.1);
      TrialPointShift(s, center, radius, st.navDraws, left - 1);
    }
  }

  /** The search runs at most `max_trials` trials; the radius has grown by 0.1
      per rejected trial; the agent is left at the returned pose, which faces
      the centre. */
  lemma SearchWithinBudget(s: Scene, m: Maths, st: SimState, center: Vec3, kind: BoxKind, guard: NanGuard,
                           cfg: SearchConfig)
    requires cfg.maxTrials >= 1
    ensures var (o, st') := Search(s, m, st, center, kind, guard, cfg);
      && o.trials <= cfg.maxTrials
      && (o.accepted <==> o.trials < cfg.maxTrials)
      && o.radius == cfg.distToTarget + 0.1 * o.trials as real
      && o.orientation == CalculateOrientationXZ(m, o.point, center)
      && YawOnly(o.orientation)
      && st' == st.(pos := o.point, rot := RotYaw(m.eulerY(o.orientation)),
                    navDraws := st.navDraws + o.trials + (if o.accepted then 1 else 0),
                    over := false)
  {
    SearchLoopShape(s, m, st, center, kind, guard, cfg, cfg.maxTrials, 0, cfg.distToTarget);
  }

  /** An accepted point passed the NaN test and its observed box area lies
      strictly inside `(bbox_range_min, bbox_range_max)`. */
  lemma SearchAcceptsOnlyInRange(s: Scene, m: Maths, st: SimState, center: Vec3, kind: BoxKind, guard: NanGuard,
                                 cfg: SearchConfig)
    requires cfg.maxTrials >= 1
    ensures var o := Search(s, m, st, center, kind, guard, cfg).0;
      o.accepted ==>
        && !Checked(guard, o.point).x.NaN?
        && InRange(Area(BoxOf(s.render(o.point, RotYaw(m.eulerY(o.orientation))), kind)),
                   cfg.bboxRangeMin, cfg.bboxRangeMax)
  {
    SearchLoopShape(s, m, st, center, kind, guard, cfg, cfg.maxTrials, 0, cfg.distToTarget);
    SearchLoopAcceptedPoint(s, m, st, center, kind, guard, cfg, cfg.maxTrials, 0, cfg.distToTarget);
  }

  /** The search accepts exactly when some trial within the budget passes, and
      then it keeps the first trial that passed. */
  lemma SearchAcceptsFirstPassingTrial(s: Scene, m: Maths, st: SimState, center: Vec3, kind: BoxKind,
                                       guard: NanGuard, cfg: SearchConfig)
    requires cfg.maxTrials >= 1
    ensures var o := Search(s, m, st, center, kind, guard, cfg).0;
      && (o.accepted <==>
            exists j: nat :: j < cfg.maxTrials &&
              Passes(s, m, center, kind, guard, cfg, TrialPoint(s, center, cfg.distToTarget, st.navDraws, j)))
      && (o.accepted ==> o.point == TrialPoint(s, center, cfg.distToTarget, st.navDraws, o.trials))
      && (forall j: nat :: j < o.trials && j < cfg.maxTrials ==>
            !Passes(s, m, center, kind, guard, cfg, TrialPoint(s, center, cfg.distToTarget, st.navDraws, j)))
  {
    var o := Search(s, m, st, center, kind, guard, cfg).0;
    SearchLoopShape(s, m, st, center, kind, guard, cfg, cfg.maxTrials, 0, cfg.distToTarget);
    SearchLoopAcceptedPoint(s, m, st, center, kind, guard, cfg, cfg.maxTrials, 0, cfg.distToTarget);
    SearchLoopEarlierTrialsFail(s, m, st, center, kind, guard, cfg, cfg.maxTrials, 0, cfg.distToTarget);
  }

  /** Budget exhausted: `n_trial == max_trials`, the radius is
      `dist_to_target + 0.1 * max_trials`, every trial failed, and the last
      sample and its orientation are kept. */
  lemma SearchFallback(s: Scene, m: Maths, st: SimState, center: Vec3, kind: BoxKind, guard: NanGuard,
                       cfg: SearchConfig)
    requires cfg.maxTrials >= 1
    ensures var o := Search(s, m, st, center, kind, guard, cfg).0;
      !o.accepted ==>
        && o.trials == cfg.maxTrials
        && o.radius == cfg.distToTarget + 0.1 * cfg.maxTrials as real
        && o.point == TrialPoint(s, center, cfg.distToTarget, st.navDraws, cfg.maxTrials - 1)
        && o.orientation == CalculateOrientationXZ(m, o.point, center)
        && (forall j: nat :: j < cfg.maxTrials ==>
              !Passes(s, m, center, kind, guard, cfg, TrialPoint(s, center, cfg.distToTarget, st.navDraws, j)))
  {
    SearchLoopShape(s, m, st, center, kind, guard, cfg, cfg.maxTrials, 0, cfg.distToTarget);
    SearchLoopLastPoint(s, m, st, center, kind, guard, cfg, cfg.maxTrials, 0, cfg.distToTarget);
    SearchLoopEarlierTrialsFail(s, m, st, center, kind, guard, cfg, cfg.maxTrials, 0, cfg.distToTarget);
  }

  /** The goal search tests the start point's x for NaN: when that is NaN no
      goal trial can pass, and the goal search always falls back. */
  lemma GoalSearchAfterNaNStartFallsBack(s: Scene, m: Maths, st: SimState, goal: Vec3, start: Vec3,
                                         cfg: SearchConfig)
    requires cfg.maxTrials >= 1
    requires start.x.NaN?
    ensures var o := Search(s, m, st, goal, TargetBox, FixedPoint(start), cfg).0;
      !o.accepted && o.trials == cfg.maxTrials
  {
    SearchLoopShape(s, m, st, goal, TargetBox, FixedPoint(start), cfg, cfg.maxTrials, 0, cfg.distToTarget);
    SearchLoopAcceptedPoint(s, m, st, goal, TargetBox, FixedPoint(start), cfg, cfg.maxTrials, 0, cfg.distToTarget);
  }

  /** ...and, with a finite start point, a goal sample whose own x is NaN is
      accepted as soon as the target box is in range. */
  lemma GoalSearchAcceptsNaNGoalSample(s: Scene, m: Maths, st: SimState, goal: Vec3, start: Vec3,
                                       cfg: SearchConfig)
    requires cfg.maxTrials >= 1
    requires !start.x.NaN?
    requires s.near(goal, cfg.distToTarget, st.navDraws).x.NaN?
    requires var p := s.near(goal, cfg.distToTarget, st.navDraws);
      InRange(Area(s.render(p, RotYaw(m.eulerY(CalculateOrientationXZ(m, p, goal)))).targetBox),
              cfg.bboxRangeMin, cfg.bboxRangeMax)
    ensures var o := Search(s, m, st, goal, TargetBox, FixedPoint(start), cfg).0;
      o.accepted && o.trials == 0 && o.point.x.NaN?
  {
  }

  /** With the defaults `dist_to_target = 6.0` and `max_trials = 60`, a search
      whose trials all fail stops after 60 trials with radius 12.0. */
  lemma SearchExhaustedAtDefaults(s: Scene, m: Maths, st: SimState, center: Vec3, kind: BoxKind, guard: NanGuard,
                                  cfg: SearchConfig)
    requires cfg.distToTarget == 6.0 && cfg.maxTrials == 60
    requires forall j: nat :: j < 60 ==>
      !Passes(s, m, center, kind, guard, cfg, TrialPoint(s, center, 6.0, st.navDraws, j))
    ensures var o := Search(s, m, st, center, kind, guard, cfg).0;
      !o.accepted && o.trials == 60 && o.radius == 12.0
  {
    SearchAcceptsFirstPassingTrial(s, m, st, center, kind, guard, cfg);
    SearchWithinBudget(s, m, st, center, kind, guard, cfg);
  }

  /** The `while n_trial < max_trials` loop of the start and goal searches. */
  method SearchNear(sim: Simulator, m: Maths, center: Vec3, kind: BoxKind, guard: NanGuard, cfg: SearchConfig)
    returns (out: SearchOutcome)
    requires cfg.maxTrials >= 1
    requires !sim.episodeOver && SinCosNeverBothZero(m)
    modifies sim`navDraws, sim`episodeOver, sim.agent
    ensures (out, sim.State()) == Search(sim.scene, m, old(sim.State()), center, kind, guard, cfg)
    ensures !sim.episodeOver
  {
    ghost var goal := Search(sim.scene, m, sim.State(), center, kind, guard, cfg);
    var nTrial := 0;
    var radius := cfg.distToTarget;
    out := SearchOutcome(center, [], 0, radius, false);
    while nTrial < cfg.maxTrials
      invariant nTrial <= cfg.maxTrials
      invariant !sim.episodeOver
      invariant nTrial < cfg.maxTrials ==>
        SearchLoop(sim.scene, m, sim.State(), center, kind, guard, cfg, cfg.maxTrials - nTrial, nTrial, radius) == goal
      invariant nTrial == cfg.maxTrials ==> (out, sim.State()) == goal
    {
      var point := sim.RandomNavigablePointNear(center, radius);
      var orientation := CalculateOrientationXZ(m, point, center);
      AimSettable(m, point, center);
      var obs := Observe(sim, m, point, orientation);
      var box := BoxOf(obs, kind);
      if !Checked(guard, point).x.NaN? && InRange(Area(box), cfg.bboxRangeMin, cfg.bboxRangeMax) {
        out := SearchOutcome(point, orientation, nTrial, radius, true);
        break;
      }
      radius := radius + 0.1;
      nTrial := nTrial + 1;
      out := SearchOutcome(point, orientation, nTrial, radius, false);
    }
  }
}
