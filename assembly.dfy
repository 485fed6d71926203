/** Per-episode assembly of the viewpoint graph: a start/goal pair per target
    from the bounded search, then random fill viewpoints until the graph holds
    `max_images` entries. The graph is the three parallel lists
    `graph_positions`, `graph_orientations` and `graph_annotations`. */
module GraphAssembly {
  import opened Floats
  import opened Orientation
  import opened Simulation
  import opened ViewpointSearch

  /** `{"obj_start_rec": ...}`, `{"obj_goal_rec": ...}` and `{"item": None}`
      in `main`; plain tags such as `"start_rec"` in `generate_scene_graph`. */
  datatype Annotation =
    | ObjStartRec(receptacles: seq<string>)
    | ObjGoalRec(receptacles: seq<string>)
    | NoItem
    | Tag(text: string)

  /** A target object's start position and goal position. */
  datatype Target = Target(start: Vec3, goal: Vec3)

  datatype Graph = Graph(positions: seq<Vec3>, orientations: seq<seq<Float>>, annotations: seq<Annotation>)

  function EmptyGraph(): Graph {
    Graph([], [], [])
  }

  /** The three lists have one entry per viewpoint, and every orientation is a
      yaw-only quaternion. */
  ghost predicate WellFormed(g: Graph) {
    && |g.positions| == |g.orientations| == |g.annotations|
    && forall i :: 0 <= i < |g.orientations| ==> YawOnly(g.orientations[i])
  }

  function Size(g: Graph): nat {
    |g.positions|
  }

  /** No orientation of the graph is one that `set_articulated_agent_base_state`
      refuses. */
  ghost predicate RotationsSettable(g: Graph) {
    forall i :: 0 <= i < |g.orientations| ==> Settable(g.orientations[i])
  }

  /** `g` is unchanged at the front of `r`. */
  ghost predicate Extends(r: Graph, g: Graph) {
    && |g.positions| <= |r.positions| && r.positions[..|g.positions|] == g.positions
    && |g.orientations| <= |r.orientations| && r.orientations[..|g.orientations|] == g.orientations
    && |g.annotations| <= |r.annotations| && r.annotations[..|g.annotations|] == g.annotations
  }

  // ---------------------------------------------------------------- targets

  function AppendPair(g: Graph, start: SearchOutcome, goal: SearchOutcome, startNote: Annotation, goalNote: Annotation): Graph {
    Graph(g.positions + [start.point, goal.point],
          g.orientations + [start.orientation, goal.orientation],
          g.annotations + [startNote, goalNote])
  }

  /** How many entries the targeted loop adds for `n` targets: a pair per
      target, or none when `max_trials` is zero. */
  function TargetedCount(cfg: SearchConfig, n: nat): nat {
    if cfg.maxTrials == 0 then 0 else 2 * n
  }

  /** The `for idx, (start_pos, goal_pos)` loop from graph `g` onwards: a start
      search on the receptacle box, then a goal search on the target box whose
      NaN test reads the start point, then one pair appended. With
      `max_trials == 0` neither search loop runs, so the `extend` calls read
      names that were never bound; the `UnboundLocalError` is caught by the bare
      `except: continue` and the target is skipped. */
  function TargetedFrom(s: Scene, m: Maths, st: SimState, targets: seq<Target>, cfg: SearchConfig,
                        startNote: Annotation, goalNote: Annotation, g: Graph): (r: (Graph, SimState))
    ensures cfg.maxTrials == 0 ==> r == (g, st)
    decreases |targets|
  {
    if targets == [] then (g, st)
    else if cfg.maxTrials == 0 then
      TargetedFrom(s, m, st, targets[1..], cfg, startNote, goalNote, g)
    else
      var (so, st1) := Search(s, m, st, targets[0].start, RecBox, OwnPoint, cfg);
      var (go, st2) := Search(s, m, st1, targets[0].goal, TargetBox, FixedPoint(so.point), cfg);
      TargetedFrom(s, m, st2, targets[1..], cfg, startNote, goalNote, AppendPair(g, so, go, startNote, goalNote))
  }

  lemma ExtendsTransitive(r: Graph, g1: Graph, g: Graph)
    requires Extends(r, g1) && Extends(g1, g)
    ensures Extends(r, g)
  {
    assert r.positions[..|g1.positions|][..|g.positions|] == r.positions[..|g.positions|];
    assert r.orientations[..|g1.orientations|][..|g.orientations|] == r.orientations[..|g.orientations|];
    assert r.annotations[..|g1.annotations|][..|g.annotations|] == r.annotations[..|g.annotations|];
  }

  lemma AppendPairFacts(m: Maths, g: Graph, so: SearchOutcome, go: SearchOutcome, startNote: Annotation, goalNote: Annotation)
    requires WellFormed(g) && YawOnly(so.orientation) && YawOnly(go.orientation)
    ensures WellFormed(AppendPair(g, so, go, startNote, goalNote))
    ensures Extends(AppendPair(g, so, go, startNote, goalNote), g)
  {
    var g' := AppendPair(g, so, go, startNote, goalNote);
    forall i | 0 <= i < |g'.orientations| ensures YawOnly(g'.orientations[i]) {
      if i < |g.orientations| {
        assert g'.orientations[i] == g.orientations[i];
      }
    }
    assert g'.positions[..|g.positions|] == g.positions;
    assert g'.orientations[..|g.orientations|] == g.orientations;
    assert g'.annotations[..|g.annotations|] == g.annotations;
  }

  /** Each target adds exactly two entries to each list (none when
      `max_trials` is zero), and the earlier entries stay. */
  lemma {:induction false} TargetedPairs(s: Scene, m: Maths, st: SimState, targets: seq<Target>, cfg: SearchConfig,
                                         startNote: Annotation, goalNote: Annotation, g: Graph)
    requires WellFormed(g)
    ensures var r := TargetedFrom(s, m, st, targets, cfg, startNote, goalNote, g).0;
      WellFormed(r) && Extends(r, g) && Size(r) == Size(g) + TargetedCount(cfg, |targets|)
    decreases |targets|
  {
    if cfg.maxTrials == 0 {
      assert g.positions[..|g.positions|] == g.positions;
      assert g.orientations[..|g.orientations|] == g.orientations;
      assert g.annotations[..|g.annotations|] == g.annotations;
    } else if targets != [] {
      var (so, st1) := Search(s, m, st, targets[0].start, RecBox, OwnPoint, cfg);
      var (go, st2) := Search(s, m, st1, targets[0].goal, TargetBox, FixedPoint(so.point), cfg);
      var g' := AppendPair(g, so, go, startNote, goalNote);
      AppendPairFacts(m, g, so, go, startNote, goalNote);
      TargetedPairs(s, m, st2, targets[1..], cfg, startNote, goalNote, g');
      ExtendsTransitive(TargetedFrom(s, m, st2, targets[1..], cfg, startNote, goalNote, g').0, g', g);
    }
  }

  /** Entries `k` and `k + 1` of `r` are the start and goal viewpoints of
      target `t`: each faces its own target position and carries its note. */
  ghost predicate PairAt(m: Maths, r: Graph, k: nat, t: Target, startNote: Annotation, goalNote: Annotation) {
    && WellFormed(r) && k + 1 < Size(r)
    && r.orientations[k] == CalculateOrientationXZ(m, r.positions[k], t.start)
    && r.orientations[k + 1] == CalculateOrientationXZ(m, r.positions[k + 1], t.goal)
    && r.annotations[k] == startNote && r.annotations[k + 1] == goalNote
  }

  /** A pair appended to `g` stays in place in every extension. */
  lemma PairAtAppended(m: Maths, r: Graph, g: Graph, so: SearchOutcome, go: SearchOutcome, t: Target,
                       startNote: Annotation, goalNote: Annotation)
    requires WellFormed(g) && WellFormed(r)
    requires so.orientation == CalculateOrientationXZ(m, so.point, t.start)
    requires go.orientation == CalculateOrientationXZ(m, go.point, t.goal)
    requires Extends(r, AppendPair(g, so, go, startNote, goalNote))
    ensures PairAt(m, r, Size(g), t, startNote, goalNote)
  {
    var g' := AppendPair(g, so, go, startNote, goalNote);
    assert r.positions[Size(g)] == r.positions[..Size(g')][Size(g)];
    assert r.positions[Size(g) + 1] == r.positions[..Size(g')][Size(g) + 1];
    assert r.orientations[Size(g)] == r.orientations[..|g'.orientations|][Size(g)];
    assert r.orientations[Size(g) + 1] == r.orientations[..|g'.orientations|][Size(g) + 1];
    assert r.annotations[Size(g)] == r.annotations[..|g'.annotations|][Size(g)];
    assert r.annotations[Size(g) + 1] == r.annotations[..|g'.annotations|][Size(g) + 1];
  }

  /** Entry `2i` is target i's start viewpoint and entry `2i + 1` its goal
      viewpoint: each faces its own target position and carries its note. */
  lemma {:induction false} TargetedFacing(s: Scene, m: Maths, st: SimState, targets: seq<Target>, cfg: SearchConfig,
                                          startNote: Annotation, goalNote: Annotation, g: Graph, i: nat)
    requires cfg.maxTrials >= 1
    requires WellFormed(g)
    requires i < |targets|
    ensures PairAt(m, TargetedFrom(s, m, st, targets, cfg, startNote, goalNote, g).0, Size(g) + 2 * i, targets[i],
                   startNote, goalNote)
    decreases |targets|
  {
    var (so, st1) := Search(s, m, st, targets[0].start, RecBox, OwnPoint, cfg);
    var (go, st2) := Search(s, m, st1, targets[0].goal, TargetBox, FixedPoint(so.point), cfg);
    var g' := AppendPair(g, so, go, startNote, goalNote);
    AppendPairFacts(m, g, so, go, startNote, goalNote);
    var r := TargetedFrom(s, m, st2, targets[1..], cfg, startNote, goalNote, g').0;
    assert TargetedFrom(s, m, st, targets, cfg, startNote, goalNote, g).0 == r;
    if i == 0 {
      TargetedPairs(s, m, st2, targets[1..], cfg, startNote, goalNote, g');
      ExtendsTransitive(r, g', g');
      PairAtAppended(m, r, g, so, go, targets[0], startNote, goalNote);
    } else {
      TargetedFacing(s, m, st2, targets[1..], cfg, startNote, goalNote, g', i - 1);
      assert Size(g) + 2 * i == Size(g') + 2 * (i - 1);
      assert targets[i] == targets[1..][i - 1];
    }
  }

  /** A target's pair is built by the two searches, whose orientations are
      aimed quaternions, so no targeted entry is refused when it is revisited. */
  lemma {:induction false} TargetedRotationsSettable(s: Scene, m: Maths, st: SimState, targets: seq<Target>, cfg: SearchConfig,
                                                     startNote: Annotation, goalNote: Annotation, g: Graph)
    requires SinCosNeverBothZero(m) && RotationsSettable(g)
    ensures RotationsSettable(TargetedFrom(s, m, st, targets, cfg, startNote, goalNote, g).0)
    decreases |targets|
  {
    if targets != [] && cfg.maxTrials >= 1 {
      var (so, st1) := Search(s, m, st, targets[0].start, RecBox, OwnPoint, cfg);
      var (go, st2) := Search(s, m, st1, targets[0].goal, TargetBox, FixedPoint(so.point), cfg);
      AimSettable(m, so.point, targets[0].start);
      AimSettable(m, go.point, targets[0].goal);
      var g' := AppendPair(g, so, go, startNote, goalNote);
      forall i | 0 <= i < |g'.orientations| ensures Settable(g'.orientations[i]) {
        if i < |g.orientations| {
          assert g'.orientations[i] == g.orientations[i];
        }
      }
      TargetedRotationsSettable(s, m, st2, targets[1..], cfg, startNote, goalNote, g');
    }
  }

  /** The two searches for one target: the start search, then the goal search
      whose NaN test reads the start point. */
  method SearchPair(sim: Simulator, m: Maths, target: Target, cfg: SearchConfig)
    returns (start: SearchOutcome, goalView: SearchOutcome)
    requires cfg.maxTrials >= 1
    requires !sim.episodeOver && SinCosNeverBothZero(m)
    modifies sim`navDraws, sim`episodeOver, sim.agent
    ensures (start, goalView) == (Search(sim.scene, m, old(sim.State()), target.start, RecBox, OwnPoint, cfg).0,
                                  Search(sim.scene, m, Search(sim.scene, m, old(sim.State()), target.start, RecBox, OwnPoint, cfg).1,
                                         target.goal, TargetBox, FixedPoint(start.point), cfg).0)
    ensures sim.State() == Search(sim.scene, m, Search(sim.scene, m, old(sim.State()), target.start, RecBox, OwnPoint, cfg).1,
                                  target.goal, TargetBox, FixedPoint(start.point), cfg).1
    ensures !sim.episodeOver
  {
    start := SearchNear(sim, m, target.start, RecBox, OwnPoint, cfg);
    goalView := SearchNear(sim, m, target.goal, TargetBox, FixedPoint(start.point), cfg);
  }

  /** The start/goal loop of `main`. */
  method AssembleTargeted(sim: Simulator, m: Maths, targets: seq<Target>, cfg: SearchConfig,
                          startNote: Annotation, goalNote: Annotation)
    returns (positions: seq<Vec3>, orientations: seq<seq<Float>>, annotations: seq<Annotation>)
    requires !sim.episodeOver && SinCosNeverBothZero(m)
    modifies sim`navDraws, sim`episodeOver, sim.agent
    ensures (Graph(positions, orientations, annotations), sim.State())
         == TargetedFrom(sim.scene, m, old(sim.State()), targets, cfg, startNote, goalNote, EmptyGraph())
    ensures !sim.episodeOver
  {
    ghost var goal := TargetedFrom(sim.scene, m, sim.State(), targets, cfg, startNote, goalNote, EmptyGraph());
    positions, orientations, annotations := [], [], [];
    for idx := 0 to |targets|
      invariant !sim.episodeOver
      invariant TargetedFrom(sim.scene, m, sim.State(), targets[idx..], cfg, startNote, goalNote,
                             Graph(positions, orientations, annotations)) == goal
    {
      assert targets[idx..][1..] == targets[idx + 1..];
      if cfg.maxTrials >= 1 {
        ghost var g := Graph(positions, orientations, annotations);
        ghost var before := sim.State();
        var start, goalView := SearchPair(sim, m, targets[idx], cfg);
        positions := positions + [start.point, goalView.point];
        orientations := orientations + [start.orientation, goalView.orientation];
        annotations := annotations + [startNote, goalNote];
        assert TargetedFrom(sim.scene, m, before, targets[idx..], cfg, startNote, goalNote, g)
            == TargetedFrom(sim.scene, m, sim.State(), targets[idx + 1..], cfg, startNote, goalNote,
                            Graph(positions, orientations, annotations));
      }
    }
  }

  // ---------------------------------------------------------------- fill

  datatype FillConfig = FillConfig(maxImages: nat, minPointDis: real, randomMinBbox: real)

  /** `np.sqrt((x1 - x2) ** 2 + (z1 - z2) ** 2) < min_point_dis`, written
      without the square root (see `SqrtComparison`); false when a coordinate
      is NaN, as every NaN comparison is. */
  predicate TooClose(p: Vec3, q: Vec3, minPointDis: real)
    ensures TooClose(p, q, minPointDis) ==> p.x.Num? && p.z.Num? && q.x.Num? && q.z.Num? && 0.0 < minPointDis
  {
    && p.x.Num? && p.z.Num? && q.x.Num? && q.z.Num?
    && var dx := p.x.val - q.x.val;
       var dz := p.z.val - q.z.val;
       0.0 < minPointDis && dx * dx + dz * dz < minPointDis * minPointDis
  }

  /** For the square root `r` of `d2`, `r < m` holds exactly when `m` is
      positive and `d2 < m * m`. */
  lemma SqrtComparison(r: real, d2: real, m: real)
    requires 0.0 <= r && r * r == d2
    ensures r < m <==> 0.0 < m && d2 < m * m
  {
    var rr, rm, mm := r * r, r * m, m * m;
    if r < m {
      assert rr <= rm by { assert r * (m - r) >= 0.0; }
      assert rm < mm by { assert m * (m - r) > 0.0; }
    } else if 0.0 < m {
      assert mm <= rm by { assert m * (r - m) >= 0.0; }
      assert rm <= rr by { assert r * (r - m) >= 0.0; }
    }
  }

  /** Some item of `items` is closer than `min_point_dis`. */
  predicate NearAny(p: Vec3, items: seq<Vec3>, minPointDis: real) {
    exists item :: item in items && TooClose(p, item, minPointDis)
  }

  /** `graph_positions[:2]`. */
  function FirstTwo(ps: seq<Vec3>): seq<Vec3> {
    if |ps| <= 2 then ps else ps[..2]
  }

  /** Both the target's and the receptacle's apparent areas are below the cap. */
  predicate LowSalience(obs: Observation, cap: real) {
    Area(obs.targetBox) < cap && Area(obs.recBox) < cap
  }

  function AppendOne(g: Graph, p: Vec3, q: seq<Float>, note: Annotation): Graph {
    Graph(g.positions + [p], g.orientations + [q], g.annotations + [note])
  }

  /** The point and orientation an iteration draws. */
  function FillPoint(s: Scene, st: SimState): Vec3 {
    s.anywhere(st.navDraws)
  }

  function FillOrientation(s: Scene, m: Maths, st: SimState): seq<Float> {
    RandomQuaternionXZ(m, s.uniform(st.npDraws))
  }

  /** Whether an iteration appends its candidate: far enough from
      `graph_positions[:2]`, and low salience where it was observed. */
  predicate FillAccepts(s: Scene, m: Maths, st: SimState, g: Graph, cfg: FillConfig) {
    var p := FillPoint(s, st);
    && !NearAny(p, FirstTwo(g.positions), cfg.minPointDis)
    && LowSalience(s.render(p, RotYaw(m.eulerY(FillOrientation(s, m, st)))), cfg.randomMinBbox)
  }

  /** The simulator after one iteration: both draws taken, and the candidate
      observed unless the distance test rejected it first. */
  function FillNext(s: Scene, m: Maths, st: SimState, g: Graph, cfg: FillConfig): (r: SimState)
    ensures r.navDraws == st.navDraws + 1 && r.npDraws == st.npDraws + 1
    ensures NearAny(FillPoint(s, st), FirstTwo(g.positions), cfg.minPointDis) ==> r.pos == st.pos && r.rot == st.rot
    ensures !NearAny(FillPoint(s, st), FirstTwo(g.positions), cfg.minPointDis) ==> r.pos == FillPoint(s, st) && !r.over
  {
    var p := FillPoint(s, st);
    var st1 := st.(navDraws := st.navDraws + 1, npDraws := st.npDraws + 1);
    if NearAny(p, FirstTwo(g.positions), cfg.minPointDis) then st1
    else Visit(s, m, st1, p, FillOrientation(s, m, st)).0
  }

  /** The `while max_images > len(graph_positions)` loop with at most `fuel`
      iterations left; the flag says whether the graph reached `max_images`. */
  function FillLoop(s: Scene, m: Maths, st: SimState, g: Graph, cfg: FillConfig, note: Annotation, fuel: nat)
    : (Graph, SimState, bool)
    decreases fuel
  {
    if Size(g) >= cfg.maxImages then (g, st, true)
    else if fuel == 0 then (g, st, false)
    else
      var g' := if FillAccepts(s, m, st, g, cfg)
                then AppendOne(g, FillPoint(s, st), FillOrientation(s, m, st), note)
                else g;
      FillLoop(s, m, FillNext(s, m, st, g, cfg), g', cfg, note, fuel - 1)
  }

  lemma AppendOneFacts(g: Graph, p: Vec3, q: seq<Float>, note: Annotation)
    requires WellFormed(g) && YawOnly(q)
    ensures WellFormed(AppendOne(g, p, q, note)) && Extends(AppendOne(g, p, q, note), g)
  {
    var g' := AppendOne(g, p, q, note);
    forall i | 0 <= i < |g'.orientations| ensures YawOnly(g'.orientations[i]) {
      if i < |g.orientations| {
        assert g'.orientations[i] == g.orientations[i];
      }
    }
    assert g'.positions[..|g.positions|] == g.positions;
    assert g'.orientations[..|g.orientations|] == g.orientations;
    assert g'.annotations[..|g.annotations|] == g.annotations;
  }

  /** Each iteration appends at most one viewpoint and nothing is removed; the
      loop reports success exactly when the graph holds `max_images` entries,
      and from below that count it stops at exactly `max_images`. */
  lemma {:induction false} FillCount(s: Scene, m: Maths, st: SimState, g: Graph, cfg: FillConfig, note: Annotation, fuel: nat)
    requires WellFormed(g)
    ensures var (r, _, filled) := FillLoop(s, m, st, g, cfg, note, fuel);
      && WellFormed(r) && Extends(r, g)
      && Size(r) <= Size(g) + fuel
      && (filled <==> Size(r) >= cfg.maxImages)
      && (Size(g) >= cfg.maxImages ==> r == g)
      && (Size(g) < cfg.maxImages ==> Size(r) <= cfg.maxImages)
      && (forall k :: Size(g) <= k < Size(r) ==> r.annotations[k] == note)
    decreases fuel
  {
    if Size(g) < cfg.maxImages && fuel > 0 {
      var st' := FillNext(s, m, st, g, cfg);
      if FillAccepts(s, m, st, g, cfg) {
        var g' := AppendOne(g, FillPoint(s, st), FillOrientation(s, m, st), note);
        AppendOneFacts(g, FillPoint(s, st), FillOrientation(s, m, st), note);
        FillCount(s, m, st', g', cfg, note, fuel - 1);
        var r := FillLoop(s, m, st', g', cfg, note, fuel - 1).0;
        ExtendsTransitive(r, g', g);
        assert r.annotations[Size(g)] == r.annotations[..|g'.annotations|][Size(g)];
      } else {
        FillCount(s, m, st', g, cfg, note, fuel - 1);
      }
    }
  }

  /** Viewpoint `k` of `r` kept its distance from the first two entries
      before it, and both apparent areas at its pose were below the cap. */
  ghost predicate AcceptedFill(s: Scene, m: Maths, cfg: FillConfig, r: Graph, k: nat) {
    && k < |r.positions| && k < |r.orientations|
    && !NearAny(r.positions[k], FirstTwo(r.positions[..k]), cfg.minPointDis)
    && LowSalience(s.render(r.positions[k], RotYaw(m.eulerY(r.orientations[k]))), cfg.randomMinBbox)
  }

  /** Every appended viewpoint was, when appended, no closer than
      `min_point_dis` to each of the graph's first two entries at that time,
      and both apparent areas at its pose were below `random_min_bbox`. */
  lemma {:induction false} FillSeparation(s: Scene, m: Maths, st: SimState, g: Graph, cfg: FillConfig, note: Annotation, fuel: nat)
    requires WellFormed(g)
    ensures var r := FillLoop(s, m, st, g, cfg, note, fuel).0;
      && WellFormed(r)
      && forall k :: Size(g) <= k < Size(r) ==>
        && !NearAny(r.positions[k], FirstTwo(r.positions[..k]), cfg.minPointDis)
        && LowSalience(s.render(r.positions[k], RotYaw(m.eulerY(r.orientations[k]))), cfg.randomMinBbox)
  {
    FillCount(s, m, st, g, cfg, note, fuel);
    FillAcceptedFrom(s, m, st, g, cfg, note, fuel);
    var r := FillLoop(s, m, st, g, cfg, note, fuel).0;
    forall k | Size(g) <= k < Size(r)
      ensures !NearAny(r.positions[k], FirstTwo(r.positions[..k]), cfg.minPointDis)
      ensures LowSalience(s.render(r.positions[k], RotYaw(m.eulerY(r.orientations[k]))), cfg.randomMinBbox)
    {
      assert AcceptedFill(s, m, cfg, r, k);
    }
  }

  /** The induction behind `FillSeparation`, over `AcceptedFill`. */
  lemma {:induction false} FillAcceptedFrom(s: Scene, m: Maths, st: SimState, g: Graph, cfg: FillConfig, note: Annotation, fuel: nat)
    requires WellFormed(g)
    ensures var r := FillLoop(s, m, st, g, cfg, note, fuel).0;
      forall k :: Size(g) <= k < Size(r) ==> AcceptedFill(s, m, cfg, r, k)
    decreases fuel
  {
    if Size(g) < cfg.maxImages && fuel > 0 {
      var st' := FillNext(s, m, st, g, cfg);
      if FillAccepts(s, m, st, g, cfg) {
        var p, q := FillPoint(s, st), FillOrientation(s, m, st);
        var g' := AppendOne(g, p, q, note);
        AppendOneFacts(g, p, q, note);
        FillAcceptedFrom(s, m, st', g', cfg, note, fuel - 1);
        FillCount(s, m, st', g', cfg, note, fuel - 1);
        var r := FillLoop(s, m, st', g', cfg, note, fuel - 1).0;
        assert r.positions[Size(g)] == r.positions[..Size(g')][Size(g)] == p;
        assert r.orientations[Size(g)] == r.orientations[..|g'.orientations|][Size(g)] == q;
        assert r.positions[..Size(g)] == r.positions[..Size(g')][..Size(g)] == g.positions;
        assert AcceptedFill(s, m, cfg, r, Size(g));
        assert FillLoop(s, m, st, g, cfg, note, fuel).0 == r;
      } else {
        assert FillLoop(s, m, st, g, cfg, note, fuel) == FillLoop(s, m, st', g, cfg, note, fuel - 1);
        FillAcceptedFrom(s, m, st', g, cfg, note, fuel - 1);
        assert var r := FillLoop(s, m, st', g, cfg, note, fuel - 1).0;
          forall k :: Size(g) <= k < Size(r) ==> AcceptedFill(s, m, cfg, r, k);
      }
    }
  }

  /** Fill viewpoints carry drawn quaternions, which are never all zero. */
  lemma {:induction false} FillRotationsSettable(s: Scene, m: Maths, st: SimState, g: Graph, cfg: FillConfig,
                                                 note: Annotation, fuel: nat)
    requires SinCosNeverBothZero(m) && RotationsSettable(g)
    ensures RotationsSettable(FillLoop(s, m, st, g, cfg, note, fuel).0)
    decreases fuel
  {
    if Size(g) < cfg.maxImages && fuel > 0 {
      var st' := FillNext(s, m, st, g, cfg);
      if FillAccepts(s, m, st, g, cfg) {
        var q := FillOrientation(s, m, st);
        DrawnSettable(m, s.uniform(st.npDraws));
        var g' := AppendOne(g, FillPoint(s, st), q, note);
        forall i | 0 <= i < |g'.orientations| ensures Settable(g'.orientations[i]) {
          if i < |g.orientations| {
            assert g'.orientations[i] == g.orientations[i];
          }
        }
        FillRotationsSettable(s, m, st', g', cfg, note, fuel - 1);
      } else {
        FillRotationsSettable(s, m, st', g, cfg, note, fuel - 1);
      }
    }
  }

  /** The `min_dis_flag` test: a non-empty graph's first two positions are
      scanned in order, stopping at the first one that is too close. */
  method CloseToFirstTwo(point: Vec3, positions: seq<Vec3>, minPointDis: real) returns (tooClose: bool)
    ensures tooClose <==> NearAny(point, FirstTwo(positions), minPointDis)
  {
    tooClose := false;
    if |positions| != 0 {
      var items := FirstTwo(positions);
      var j := 0;
      while j < |items|
        invariant 0 <= j <= |items|
        invariant !tooClose
        invariant forall k :: 0 <= k < j ==> !TooClose(point, items[k], minPointDis)
      {
        if TooClose(point, items[j], minPointDis) {
          assert items[j] in items;
          tooClose := true;
          break;
        }
        j := j + 1;
      }
    }
  }

  /** One iteration of `main`'s fill loop: draw a point and a yaw, skip the
      point when it is too close to the first two entries, otherwise observe
      it and keep it when both apparent areas are below the cap. */
  method FillStep(sim: Simulator, m: Maths, g: Graph, cfg: FillConfig, note: Annotation) returns (r: Graph)
    requires !sim.episodeOver && SinCosNeverBothZero(m)
    modifies sim`navDraws, sim`npDraws, sim`episodeOver, sim.agent
    ensures sim.State() == FillNext(sim.scene, m, old(sim.State()), g, cfg)
    ensures r == if FillAccepts(sim.scene, m, old(sim.State()), g, cfg)
                 then AppendOne(g, FillPoint(sim.scene, old(sim.State())), FillOrientation(sim.scene, m, old(sim.State())), note)
                 else g
    ensures !sim.episodeOver
  {
    ghost var before := sim.State();
    var point := sim.RandomNavigablePoint();
    var theta := sim.Uniform();
    var orientation := RandomQuaternionXZ(m, theta);
    var tooClose := CloseToFirstTwo(point, g.positions, cfg.minPointDis);
    assert point == FillPoint(sim.scene, before) && orientation == FillOrientation(sim.scene, m, before);
    r := g;
    if !tooClose {
      DrawnSettable(m, theta);
      var obs := Observe(sim, m, point, orientation);
      if LowSalience(obs, cfg.randomMinBbox) {
        r := AppendOne(g, point, orientation, note);
      }
    }
  }

  /** `main`'s fill loop. The source loop has no bound; here it stops after
      `fuel` iterations and `filled` says whether it reached `max_images`. */
  method FillViewpoints(sim: Simulator, m: Maths, positions0: seq<Vec3>, orientations0: seq<seq<Float>>,
                        annotations0: seq<Annotation>, cfg: FillConfig, note: Annotation, fuel: nat)
    returns (positions: seq<Vec3>, orientations: seq<seq<Float>>, annotations: seq<Annotation>, filled: bool)
    requires !sim.episodeOver && SinCosNeverBothZero(m)
    modifies sim`navDraws, sim`npDraws, sim`episodeOver, sim.agent
    ensures (Graph(positions, orientations, annotations), sim.State(), filled)
         == FillLoop(sim.scene, m, old(sim.State()), Graph(positions0, orientations0, annotations0), cfg, note, fuel)
    ensures !sim.episodeOver
  {
    ghost var goal := FillLoop(sim.scene, m, sim.State(), Graph(positions0, orientations0, annotations0), cfg, note, fuel);
    positions, orientations, annotations := positions0, orientations0, annotations0;
    var budget := fuel;
    if |positions| < cfg.maxImages {
      while cfg.maxImages > |positions| && budget > 0
        invariant !sim.episodeOver
        invariant FillLoop(sim.scene, m, sim.State(), Graph(positions, orientations, annotations), cfg, note, budget) == goal
        decreases budget
      {
        var g := FillStep(sim, m, Graph(positions, orientations, annotations), cfg, note);
        positions, orientations, annotations := g.positions, g.orientations, g.annotations;
        budget := budget - 1;
      }
    }
    filled := |positions| >= cfg.maxImages;
  }

  /** When the graph already holds a start/goal pair, every fill viewpoint keeps
      `min_point_dis` from the first two entries, and only from those. */
  lemma FillKeepsDistanceFromFirstPair(s: Scene, m: Maths, st: SimState, g: Graph, cfg: FillConfig,
                                       note: Annotation, fuel: nat)
    requires WellFormed(g) && Size(g) >= 2
    ensures var r := FillLoop(s, m, st, g, cfg, note, fuel).0;
      forall k :: Size(g) <= k < Size(r) ==>
        && !TooClose(r.positions[k], g.positions[0], cfg.minPointDis)
        && !TooClose(r.positions[k], g.positions[1], cfg.minPointDis)
  {
    FillCount(s, m, st, g, cfg, note, fuel);
    FillSeparation(s, m, st, g, cfg, note, fuel);
    var r := FillLoop(s, m, st, g, cfg, note, fuel).0;
    forall k | Size(g) <= k < Size(r)
      ensures !TooClose(r.positions[k], g.positions[0], cfg.minPointDis)
      ensures !TooClose(r.positions[k], g.positions[1], cfg.minPointDis)
    {
      var first := FirstTwo(r.positions[..k]);
      assert first == r.positions[..2];
      assert r.positions[0] == r.positions[..Size(g)][0] == g.positions[0];
      assert r.positions[1] == r.positions[..Size(g)][1] == g.positions[1];
      assert g.positions[0] in first && g.positions[1] in first;
    }
  }

  /** For finite points whose x-z distance is `r`, passing the distance test
      means `r >= min_point_dis`. */
  lemma NotTooCloseMeansFarEnough(p: Vec3, q: Vec3, minPointDis: real, r: real)
    requires p.x.Num? && p.z.Num? && q.x.Num? && q.z.Num?
    requires 0.0 <= r
    requires r * r == (p.x.val - q.x.val) * (p.x.val - q.x.val) + (p.z.val - q.z.val) * (p.z.val - q.z.val)
    ensures !TooClose(p, q, minPointDis) <==> r >= minPointDis
  {
    SqrtComparison(r, r * r, minPointDis);
  }

  /** The smallest integer not below `x`. */
  function Ceiling(x: real): int {
    if x.Floor as real == x then x.Floor else x.Floor + 1
  }

  /** `generate_scene_graph`'s distance test,
      `int(np.sqrt((x1 - x2) ** 2 + (z1 - z2) ** 2)) < min_dis`, for finite
      points, without the square root (see `TruncatedComparison`). */
  predicate TruncatedTooClose(p: Vec3, q: Vec3, minDis: real)
    requires p.x.Num? && p.z.Num? && q.x.Num? && q.z.Num?
  {
    var dx := p.x.val - q.x.val;
    var dz := p.z.val - q.z.val;
    var c := Ceiling(minDis);
    0 < c && dx * dx + dz * dz < (c * c) as real
  }

  /** For the square root `r` of `d2`, truncating it and comparing with `m`
      is comparing `d2` with the square of `m` rounded up. */
  lemma TruncatedComparison(r: real, d2: real, m: real)
    requires 0.0 <= r && r * r == d2
    ensures (r.Floor as real < m) <==> (0 < Ceiling(m) && d2 < (Ceiling(m) * Ceiling(m)) as real)
  {
    var c := Ceiling(m);
    assert (r.Floor as real < m) <==> r.Floor < c;
    assert r.Floor < c <==> r < c as real;
    SqrtComparison(r, d2, c as real);
    assert (c as real) * (c as real) == (c * c) as real;
  }

  /** The truncated test rejects every candidate the real-distance test
      rejects: a point it lets through is also at least `min_dis` away. */
  lemma TruncatedIsStricter(p: Vec3, q: Vec3, minDis: real)
    requires p.x.Num? && p.z.Num? && q.x.Num? && q.z.Num?
    ensures TooClose(p, q, minDis) ==> TruncatedTooClose(p, q, minDis)
  {
    var c := Ceiling(minDis);
    if 0.0 < minDis {
      assert minDis <= c as real;
      var cr := c as real;
      var d := cr - minDis;
      assert 0.0 <= d;
      assert 0.0 <= minDis * d;
      assert 0.0 <= cr * d;
      assert minDis * minDis <= cr * minDis;
      assert cr * minDis <= cr * cr;
      assert cr * cr == (c * c) as real;
    }
  }

  // ---------------------------------------------------------------- episode

  /** One episode's graph: the targeted pairs from an empty graph, then fill. */
  function EpisodeGraph(s: Scene, m: Maths, st: SimState, targets: seq<Target>, scfg: SearchConfig, fcfg: FillConfig,
                        startNote: Annotation, goalNote: Annotation, fillNote: Annotation, fuel: nat): (Graph, SimState, bool)
  {
    var (g, st1) := TargetedFrom(s, m, st, targets, scfg, startNote, goalNote, EmptyGraph());
    FillLoop(s, m, st1, g, fcfg, fillNote, fuel)
  }

  /** A filled episode graph holds `max(t, max_images)` viewpoints, where `t`
      is the number of targeted entries (two per target, none without
      trials): the targeted pairs first, then fill viewpoints carrying the
      fill note. */
  lemma EpisodeGraphLayout(s: Scene, m: Maths, st: SimState, targets: seq<Target>, scfg: SearchConfig, fcfg: FillConfig,
                           startNote: Annotation, goalNote: Annotation, fillNote: Annotation, fuel: nat)
    ensures var (r, _, filled) := EpisodeGraph(s, m, st, targets, scfg, fcfg, startNote, goalNote, fillNote, fuel);
      var t := TargetedCount(scfg, |targets|);
      && WellFormed(r)
      && Size(r) >= t
      && (filled ==> Size(r) == if t < fcfg.maxImages then fcfg.maxImages else t)
      && (scfg.maxTrials >= 1 ==> forall i :: 0 <= i < |targets| ==>
            r.annotations[2 * i] == startNote && r.annotations[2 * i + 1] == goalNote)
      && (forall k :: t <= k < Size(r) ==> r.annotations[k] == fillNote)
  {
    var (g, st1) := TargetedFrom(s, m, st, targets, scfg, startNote, goalNote, EmptyGraph());
    TargetedPairs(s, m, st, targets, scfg, startNote, goalNote, EmptyGraph());
    TargetedNotes(s, m, st, targets, scfg, startNote, goalNote);
    FillCount(s, m, st1, g, fcfg, fillNote, fuel);
    NotesKept(FillLoop(s, m, st1, g, fcfg, fillNote, fuel).0, g, |targets|, scfg, startNote, goalNote);
  }

  /** The targeted pass from an empty graph puts the start note at every even
      entry and the goal note at every odd one. */
  lemma TargetedNotes(s: Scene, m: Maths, st: SimState, targets: seq<Target>, scfg: SearchConfig,
                      startNote: Annotation, goalNote: Annotation)
    ensures var g := TargetedFrom(s, m, st, targets, scfg, startNote, goalNote, EmptyGraph()).0;
      scfg.maxTrials >= 1 ==> forall i :: 0 <= i < |targets| ==>
        2 * i + 1 < |g.annotations| && g.annotations[2 * i] == startNote && g.annotations[2 * i + 1] == goalNote
  {
    var g := TargetedFrom(s, m, st, targets, scfg, startNote, goalNote, EmptyGraph()).0;
    forall i | 0 <= i < |targets| && scfg.maxTrials >= 1
      ensures 2 * i + 1 < |g.annotations| && g.annotations[2 * i] == startNote && g.annotations[2 * i + 1] == goalNote
    {
      TargetedFacing(s, m, st, targets, scfg, startNote, goalNote, EmptyGraph(), i);
      assert PairAt(m, g, 2 * i, targets[i], startNote, goalNote);
    }
  }

  /** Notes at the front of `g` are still there in an extension `r`. */
  lemma NotesKept(r: Graph, g: Graph, n: nat, scfg: SearchConfig, startNote: Annotation, goalNote: Annotation)
    requires Extends(r, g)
    requires scfg.maxTrials >= 1 ==> forall i :: 0 <= i < n ==>
      2 * i + 1 < |g.annotations| && g.annotations[2 * i] == startNote && g.annotations[2 * i + 1] == goalNote
    ensures scfg.maxTrials >= 1 ==> forall i :: 0 <= i < n ==>
      r.annotations[2 * i] == startNote && r.annotations[2 * i + 1] == goalNote
  {
    forall i | 0 <= i < n && scfg.maxTrials >= 1
      ensures r.annotations[2 * i] == startNote && r.annotations[2 * i + 1] == goalNote
    {
      assert r.annotations[2 * i] == r.annotations[..|g.annotations|][2 * i];
      assert r.annotations[2 * i + 1] == r.annotations[..|g.annotations|][2 * i + 1];
    }
  }

  /** With `max_images = 10` and two targets, a filled graph has four targeted
      viewpoints followed by exactly six fill viewpoints. */
  lemma TwoTargetsTenImages(s: Scene, m: Maths, st: SimState, targets: seq<Target>, scfg: SearchConfig, fcfg: FillConfig,
                            startNote: Annotation, goalNote: Annotation, fillNote: Annotation, fuel: nat)
    requires scfg.maxTrials >= 1 && |targets| == 2 && fcfg.maxImages == 10
    ensures var (r, _, filled) := EpisodeGraph(s, m, st, targets, scfg, fcfg, startNote, goalNote, fillNote, fuel);
      filled ==> |r.annotations| == Size(r) == 10 && forall k :: 4 <= k < 10 ==> r.annotations[k] == fillNote
  {
    EpisodeGraphLayout(s, m, st, targets, scfg, fcfg, startNote, goalNote, fillNote, fuel);
  }

  /** Every orientation of an episode graph is stored without error when the
      recording pass revisits it. */
  lemma EpisodeRotationsSettable(s: Scene, m: Maths, st: SimState, targets: seq<Target>, scfg: SearchConfig, fcfg: FillConfig,
                                 startNote: Annotation, goalNote: Annotation, fillNote: Annotation, fuel: nat)
    requires SinCosNeverBothZero(m)
    ensures RotationsSettable(EpisodeGraph(s, m, st, targets, scfg, fcfg, startNote, goalNote, fillNote, fuel).0)
  {
    var (g, st1) := TargetedFrom(s, m, st, targets, scfg, startNote, goalNote, EmptyGraph());
    TargetedRotationsSettable(s, m, st, targets, scfg, startNote, goalNote, EmptyGraph());
    FillRotationsSettable(s, m, st1, g, fcfg, fillNote, fuel);
  }

  /** The graph-building part of one episode of `main`. */
  method BuildEpisodeGraph(sim: Simulator, m: Maths, targets: seq<Target>, scfg: SearchConfig, fcfg: FillConfig,
                           startNote: Annotation, goalNote: Annotation, fillNote: Annotation, fuel: nat)
    returns (g: Graph, filled: bool)
    requires !sim.episodeOver && SinCosNeverBothZero(m)
    modifies sim`navDraws, sim`npDraws, sim`episodeOver, sim.agent
    ensures (g, sim.State(), filled)
         == EpisodeGraph(sim.scene, m, old(sim.State()), targets, scfg, fcfg, startNote, goalNote, fillNote, fuel)
    ensures !sim.episodeOver
  {
    var positions, orientations, annotations := AssembleTargeted(sim, m, targets, scfg, startNote, goalNote);
    positions, orientations, annotations, filled :=
      FillViewpoints(sim, m, positions, orientations, annotations, fcfg, fillNote, fuel);
    g := Graph(positions, orientations, annotations);
  }
}
