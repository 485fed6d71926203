/** The recording pass of `main`: one metadata record per viewpoint of the
    episode graph, naming the image files written for the requested
    observation keys, and the loop over episodes that gathers them. */
module Recording {
  import opened Floats
  import opened Orientation
  import opened Simulation
  import opened ViewpointSearch
  import opened GraphAssembly

  // ---------------------------------------------------------------- names

  predicate IsDigit(c: char) {
    '0' <= c <= '9'
  }

  predicate IsDigits(s: string) {
    forall i :: 0 <= i < |s| ==> IsDigit(s[i])
  }

  function Digit(d: nat): char
    requires d < 10
  {
    ('0' as int + d) as char
  }

  function DigitValue(c: char): nat
    requires IsDigit(c)
  {
    c as int - '0' as int
  }

  /** Python's decimal rendering of a non-negative int, as in an f-string:
      digits only, and no leading zero unless the number is zero. */
  function NatToString(n: nat): (r: string)
    ensures |r| >= 1 && IsDigits(r)
    ensures n == 0 <==> r == "0"
    ensures n > 0 ==> r[0] != '0'
    decreases n
  {
    if n < 10 then [Digit(n)] else NatToString(n / 10) + [Digit(n % 10)]
  }

  /** Reads a digit string back as a number. */
  function ParseNat(s: string): nat
    requires IsDigits(s)
  {
    if |s| == 0 then 0 else ParseNat(s[..|s| - 1]) * 10 + DigitValue(s[|s| - 1])
  }

  /** The index written into a file name can be read back from it. */
  lemma {:induction false} ParseNatToString(n: nat)
    ensures ParseNat(NatToString(n)) == n
    decreases n
  {
    var r := NatToString(n);
    if n >= 10 {
      var prefix := NatToString(n / 10);
      assert r[..|r| - 1] == prefix;
      ParseNatToString(n / 10);
    }
  }

  /** The file name `episode_{episode_id}_{obs_key}_{idx}.png`: it starts
      with the episode, ends with the index and the PNG extension, and always
      names the key. */
  function ImageFileName(episodeId: string, key: string, idx: nat): (r: string)
    ensures |r| >= 8 + |episodeId| + |key| + 7
    ensures r[..8] == "episode_" && r[8..8 + |episodeId|] == episodeId
    ensures r[|r| - 4..] == ".png" && IsDigit(r[|r| - 5])
  {
    "episode_" + episodeId + "_" + key + "_" + NatToString(idx) + ".png"
  }

  /** In `a + "_" + d` with `d` made of digits, the last underscore separates
      `a` from `d`, so both can be recovered. */
  lemma SplitAtLastUnderscore(a: string, d: string, b: string, e: string)
    requires IsDigits(d) && IsDigits(e)
    requires a + "_" + d == b + "_" + e
    ensures a == b && d == e
  {
    var x := a + "_" + d;
    assert x[|a|] == '_' && x[|b|] == '_';
    assert forall j :: |a| < j < |x| ==> x[j] == d[j - |a| - 1];
    assert forall j :: |b| < j < |x| ==> x[j] == e[j - |b| - 1];
    assert |a| == |b|;
    assert a == x[..|a|] == b;
    assert d == x[|a| + 1..] == e;
  }

  /** Within one episode, different keys or indices never share a file name. */
  lemma ImageFileNameInjective(episodeId: string, k1: string, i1: nat, k2: string, i2: nat)
    ensures ImageFileName(episodeId, k1, i1) == ImageFileName(episodeId, k2, i2) ==> k1 == k2 && i1 == i2
  {
    var prefix := "episode_" + episodeId + "_";
    var d1, d2 := NatToString(i1), NatToString(i2);
    var n1, n2 := ImageFileName(episodeId, k1, i1), ImageFileName(episodeId, k2, i2);
    if n1 == n2 {
      var mid1, mid2 := k1 + "_" + d1, k2 + "_" + d2;
      assert n1 == prefix + mid1 + ".png";
      assert n2 == prefix + mid2 + ".png";
      assert mid1 == n1[|prefix|..|n1| - 4];
      assert mid2 == n2[|prefix|..|n2| - 4];
      SplitAtLastUnderscore(k1, d1, k2, d2);
      ParseNatToString(i1);
      ParseNatToString(i2);
    }
  }

  /** `obs_file_list` for viewpoint `idx`: a name for each requested key the
      observation holds, in the order of the requested keys. */
  function ObsFiles(episodeId: string, keys: seq<string>, channels: set<string>, idx: nat): (r: seq<string>)
    ensures |r| <= |keys|
    ensures forall j :: 0 <= j < |r| ==> |r[j]| >= 4 && r[j][|r[j]| - 4..] == ".png"
  {
    if |keys| == 0 then []
    else
      var last := keys[|keys| - 1];
      ObsFiles(episodeId, keys[..|keys| - 1], channels, idx)
        + (if last in channels then [ImageFileName(episodeId, last, idx)] else [])
  }

  /** The list is built key by key: the files for `a + b` are those for `a`
      followed by those for `b`. */
  lemma {:induction false} ObsFilesConcat(episodeId: string, a: seq<string>, b: seq<string>, channels: set<string>, idx: nat)
    ensures ObsFiles(episodeId, a + b, channels, idx)
         == ObsFiles(episodeId, a, channels, idx) + ObsFiles(episodeId, b, channels, idx)
    decreases |b|
  {
    if |b| == 0 {
      assert a + b == a;
    } else {
      var ab, init, last := a + b, b[..|b| - 1], b[|b| - 1];
      var tail := if last in channels then [ImageFileName(episodeId, last, idx)] else [];
      assert ab[..|ab| - 1] == a + init && ab[|ab| - 1] == last;
      assert ObsFiles(episodeId, ab, channels, idx) == ObsFiles(episodeId, a + init, channels, idx) + tail;
      assert ObsFiles(episodeId, b, channels, idx) == ObsFiles(episodeId, init, channels, idx) + tail;
      ObsFilesConcat(episodeId, a, init, channels, idx);
    }
  }

  /** A single key contributes its file exactly when the observation has it. */
  lemma ObsFilesOne(episodeId: string, key: string, channels: set<string>, idx: nat)
    ensures ObsFiles(episodeId, [key], channels, idx)
         == if key in channels then [ImageFileName(episodeId, key, idx)] else []
  {
    assert [key][..0] == [];
  }

  /** A file is listed exactly when it is named after a requested key that the
      observation holds. */
  lemma ObsFilesMembers(episodeId: string, keys: seq<string>, channels: set<string>, idx: nat, f: string)
    ensures f in ObsFiles(episodeId, keys, channels, idx)
        <==> exists k :: k in keys && k in channels && f == ImageFileName(episodeId, k, idx)
  {
    if f in ObsFiles(episodeId, keys, channels, idx) {
      ObsFilesListedKey(episodeId, keys, channels, idx, f);
    }
    if exists k :: k in keys && k in channels && f == ImageFileName(episodeId, k, idx) {
      var k :| k in keys && k in channels && f == ImageFileName(episodeId, k, idx);
      ObsFilesKeyListed(episodeId, keys, channels, idx, k);
    }
  }

  /** Every listed file is named after a requested key the observation holds. */
  lemma {:induction false} ObsFilesListedKey(episodeId: string, keys: seq<string>, channels: set<string>, idx: nat, f: string)
    requires f in ObsFiles(episodeId, keys, channels, idx)
    ensures exists k :: k in keys && k in channels && f == ImageFileName(episodeId, k, idx)
    decreases |keys|
  {
    var init, last := keys[..|keys| - 1], keys[|keys| - 1];
    if f in ObsFiles(episodeId, init, channels, idx) {
      ObsFilesListedKey(episodeId, init, channels, idx, f);
      var k :| k in init && k in channels && f == ImageFileName(episodeId, k, idx);
      assert k in keys;
    } else {
      assert last in keys && last in channels && f == ImageFileName(episodeId, last, idx);
    }
  }

  /** Every requested key the observation holds has its file listed. */
  lemma {:induction false} ObsFilesKeyListed(episodeId: string, keys: seq<string>, channels: set<string>, idx: nat, k: string)
    requires k in keys && k in channels
    ensures ImageFileName(episodeId, k, idx) in ObsFiles(episodeId, keys, channels, idx)
    decreases |keys|
  {
    var init, last := keys[..|keys| - 1], keys[|keys| - 1];
    assert keys == init + [last];
    if k != last {
      assert k in init;
      ObsFilesKeyListed(episodeId, init, channels, idx, k);
    }
  }

  /** Every key is listed, in order, when the observation holds all of them. */
  lemma {:induction false} ObsFilesAllPresent(episodeId: string, keys: seq<string>, channels: set<string>, idx: nat)
    requires forall k :: k in keys ==> k in channels
    ensures |ObsFiles(episodeId, keys, channels, idx)| == |keys|
    ensures forall j :: 0 <= j < |keys| ==> ObsFiles(episodeId, keys, channels, idx)[j] == ImageFileName(episodeId, keys[j], idx)
    decreases |keys|
  {
    if |keys| > 0 {
      var init := keys[..|keys| - 1];
      assert forall k :: k in init ==> k in keys;
      ObsFilesAllPresent(episodeId, init, channels, idx);
      assert keys[|keys| - 1] in keys;
    }
  }

  /** Two different viewpoints of one episode never list the same file. */
  lemma ObsFilesDisjoint(episodeId: string, keys: seq<string>, c1: set<string>, i1: nat, c2: set<string>, i2: nat)
    requires i1 != i2
    ensures forall f :: f in ObsFiles(episodeId, keys, c1, i1) ==> f !in ObsFiles(episodeId, keys, c2, i2)
  {
    forall f | f in ObsFiles(episodeId, keys, c1, i1)
      ensures f !in ObsFiles(episodeId, keys, c2, i2)
    {
      ObsFilesMembers(episodeId, keys, c1, i1, f);
      ObsFilesMembers(episodeId, keys, c2, i2, f);
      var k1 :| k1 in keys && k1 in c1 && f == ImageFileName(episodeId, k1, i1);
      if f in ObsFiles(episodeId, keys, c2, i2) {
        var k2 :| k2 in keys && k2 in c2 && f == ImageFileName(episodeId, k2, i2);
        ImageFileNameInjective(episodeId, k1, i1, k2, i2);
      }
    }
  }

  // ---------------------------------------------------------------- records

  /** One entry of `metadata`. */
  datatype ManifestRecord = ManifestRecord(
    episodeId: string,
    obsFiles: seq<string>,
    localization: seq<real>,
    annotation: Annotation)

  /** The record written for viewpoint `k` of graph `g`. */
  function RecordAt(s: Scene, m: Maths, episodeId: string, keys: seq<string>, g: Graph, k: nat): (r: ManifestRecord)
    requires WellFormed(g) && k < Size(g)
    ensures r.episodeId == episodeId && r.annotation == g.annotations[k]
    ensures |r.obsFiles| <= |keys|
  {
    var obs := s.render(g.positions[k], StoredRotation(m, g.orientations[k]));
    ManifestRecord(episodeId, ObsFiles(episodeId, keys, obs.channels, k), obs.localization, g.annotations[k])
  }

  /** The simulator state after visiting every viewpoint of `g` in order: the
      agent stands at the last one. */
  function AfterRecording(m: Maths, st: SimState, g: Graph): SimState
    requires WellFormed(g)
  {
    if Size(g) == 0 then st
    else st.(pos := g.positions[Size(g) - 1], rot := StoredRotation(m, g.orientations[Size(g) - 1]), over := false)
  }

  /** The recording loop over `zip(graph_positions, graph_orientations,
      graph_annotations)`: place the agent, step, and append one record. */
  method RecordViewpoints(sim: Simulator, m: Maths, episodeId: string, obsKeys: seq<string>, g: Graph)
    returns (records: seq<ManifestRecord>)
    requires WellFormed(g) && RotationsSettable(g) && !sim.episodeOver
    modifies sim`episodeOver, sim.agent
    ensures |records| == Size(g)
    ensures forall k :: 0 <= k < Size(g) ==> records[k] == RecordAt(sim.scene, m, episodeId, obsKeys, g, k)
    ensures sim.State() == AfterRecording(m, old(sim.State()), g)
  {
    ghost var st0 := sim.State();
    records := [];
    var idx := 0;
    while idx < |g.positions| && idx < |g.orientations| && idx < |g.annotations|
      invariant 0 <= idx <= Size(g)
      invariant |records| == idx
      invariant forall k :: 0 <= k < idx ==> records[k] == RecordAt(sim.scene, m, episodeId, obsKeys, g, k)
      invariant !sim.episodeOver
      invariant sim.State() == AfterRecording(m, st0, Graph(g.positions[..idx], g.orientations[..idx], g.annotations[..idx]))
      invariant sim.scene == old(sim.scene)
    {
      var obs := Observe(sim, m, g.positions[idx], g.orientations[idx]);
      var obsFileList := [];
      var locSensor := obs.localization;
      for j := 0 to |obsKeys|
        invariant obsFileList == ObsFiles(episodeId, obsKeys[..j], obs.channels, idx)
      {
        assert obsKeys[..j + 1][..j] == obsKeys[..j];
        if obsKeys[j] in obs.channels {
          obsFileList := obsFileList + [ImageFileName(episodeId, obsKeys[j], idx)];
        }
      }
      assert obsKeys[..|obsKeys|] == obsKeys;
      records := records + [ManifestRecord(episodeId, obsFileList, locSensor, g.annotations[idx])];
      idx := idx + 1;
    }
    assert g.positions[..idx] == g.positions && g.orientations[..idx] == g.orientations
        && g.annotations[..idx] == g.annotations;
  }

  /** Records of different viewpoints of one graph name disjoint files. */
  lemma RecordFilesDisjoint(s: Scene, m: Maths, episodeId: string, keys: seq<string>, g: Graph, k1: nat, k2: nat)
    requires WellFormed(g) && k1 < Size(g) && k2 < Size(g) && k1 != k2
    ensures forall f :: f in RecordAt(s, m, episodeId, keys, g, k1).obsFiles ==> f !in RecordAt(s, m, episodeId, keys, g, k2).obsFiles
  {
    var o1 := s.render(g.positions[k1], StoredRotation(m, g.orientations[k1]));
    var o2 := s.render(g.positions[k2], StoredRotation(m, g.orientations[k2]));
    ObsFilesDisjoint(episodeId, keys, o1.channels, k1, o2.channels, k2);
  }

  // ---------------------------------------------------------------- episodes

  /** What the generator reads from one dataset episode. */
  datatype Episode = Episode(
    id: string,
    scene: Scene,
    targets: seq<Target>,
    targetReceptacles: seq<string>,
    goalReceptacles: seq<string>)

  /** The command-line settings `main` uses; `fuel` bounds the fill loop. */
  datatype RunConfig = RunConfig(search: SearchConfig, fill: FillConfig, obsKeys: seq<string>, fuel: nat)

  /** The graph `main` builds for one episode after the reset. */
  function GraphOf(m: Maths, st: SimState, ep: Episode, cfg: RunConfig): (Graph, SimState, bool)
  {
    EpisodeGraph(ep.scene, m, st.(over := false), ep.targets, cfg.search, cfg.fill,
                 ObjStartRec(ep.targetReceptacles), ObjGoalRec(ep.goalReceptacles), NoItem, cfg.fuel)
  }

  /** The metadata of one episode, the state it leaves and whether its graph
      reached `max_images`. */
  function EpisodeRun(m: Maths, st: SimState, ep: Episode, cfg: RunConfig): (seq<ManifestRecord>, SimState, bool)
  {
    var (g, st1, filled) := GraphOf(m, st, ep, cfg);
    EpisodeGraphLayout(ep.scene, m, st.(over := false), ep.targets, cfg.search, cfg.fill,
                       ObjStartRec(ep.targetReceptacles), ObjGoalRec(ep.goalReceptacles), NoItem, cfg.fuel);
    (seq(Size(g), k requires 0 <= k < Size(g) => RecordAt(ep.scene, m, ep.id, cfg.obsKeys, g, k)),
     AfterRecording(m, st1, g).(over := true),
     filled)
  }

  /** `main`'s loop over the dataset's episodes: the whole metadata list, the
      final state, and how many episodes reached `max_images`. */
  function RunFrom(m: Maths, st: SimState, episodes: seq<Episode>, cfg: RunConfig): (seq<ManifestRecord>, SimState, nat)
    decreases |episodes|
  {
    if |episodes| == 0 then ([], st, 0)
    else
      var (records, st1, filled) := EpisodeRun(m, st, episodes[0], cfg);
      var (rest, st2, count) := RunFrom(m, st1, episodes[1..], cfg);
      (records + rest, st2, count + if filled then 1 else 0)
  }

  /** The records of one episode follow its graph: a start/goal pair per
      target (none when `max_trials` is zero), then fill viewpoints, each
      record tagged with the episode id; a filled graph gives `max(t,
      max_images)` records for `t` targeted entries. */
  lemma EpisodeRunLayout(m: Maths, st: SimState, ep: Episode, cfg: RunConfig)
    ensures var (records, st1, filled) := EpisodeRun(m, st, ep, cfg);
      var t := TargetedCount(cfg.search, |ep.targets|);
      && st1.over
      && |records| >= t
      && (filled ==> |records| == if t < cfg.fill.maxImages then cfg.fill.maxImages else t)
      && (forall k :: 0 <= k < |records| ==> records[k].episodeId == ep.id)
      && (cfg.search.maxTrials >= 1 ==> forall i :: 0 <= i < |ep.targets| ==>
            records[2 * i].annotation == ObjStartRec(ep.targetReceptacles)
            && records[2 * i + 1].annotation == ObjGoalRec(ep.goalReceptacles))
      && (forall k :: t <= k < |records| ==> records[k].annotation == NoItem)
  {
    EpisodeGraphLayout(ep.scene, m, st.(over := false), ep.targets, cfg.search, cfg.fill,
                       ObjStartRec(ep.targetReceptacles), ObjGoalRec(ep.goalReceptacles), NoItem, cfg.fuel);
  }

  /** An episode whose graph filled contributes at least `max_images` records. */
  lemma FilledEpisodeSize(m: Maths, st: SimState, ep: Episode, cfg: RunConfig)
    ensures EpisodeRun(m, st, ep, cfg).2 ==> |EpisodeRun(m, st, ep, cfg).0| >= cfg.fill.maxImages
  {
    EpisodeGraphLayout(ep.scene, m, st.(over := false), ep.targets, cfg.search, cfg.fill,
                       ObjStartRec(ep.targetReceptacles), ObjGoalRec(ep.goalReceptacles), NoItem, cfg.fuel);
  }

  /** At most one filled episode per episode, and at least `max_images`
      records for each episode that filled. */
  lemma {:induction false} RunFromCounts(m: Maths, st: SimState, episodes: seq<Episode>, cfg: RunConfig)
    ensures var (metadata, _, filledCount) := RunFrom(m, st, episodes, cfg);
      && filledCount <= |episodes|
      && |metadata| >= filledCount * cfg.fill.maxImages
    decreases |episodes|
  {
    if |episodes| > 0 {
      var (records, st1, filled) := EpisodeRun(m, st, episodes[0], cfg);
      var (rest, st2, count) := RunFrom(m, st1, episodes[1..], cfg);
      assert RunFrom(m, st, episodes, cfg) == (records + rest, st2, count + if filled then 1 else 0);
      FilledEpisodeSize(m, st, episodes[0], cfg);
      RunFromCounts(m, st1, episodes[1..], cfg);
      var mi := cfg.fill.maxImages;
      assert (count + 1) * mi == count * mi + mi;
    }
  }

  /** Every record comes from one of the dataset's episodes. */
  lemma {:induction false} RunFromEpisodeIds(m: Maths, st: SimState, episodes: seq<Episode>, cfg: RunConfig)
    ensures forall r :: r in RunFrom(m, st, episodes, cfg).0 ==>
      exists i :: 0 <= i < |episodes| && r.episodeId == episodes[i].id
    decreases |episodes|
  {
    if |episodes| > 0 {
      var (records, st1, filled) := EpisodeRun(m, st, episodes[0], cfg);
      EpisodeRunLayout(m, st, episodes[0], cfg);
      RunFromEpisodeIds(m, st1, episodes[1..], cfg);
      var rest := RunFrom(m, st1, episodes[1..], cfg).0;
      forall r | r in records + rest
        ensures exists i :: 0 <= i < |episodes| && r.episodeId == episodes[i].id
      {
        if r in records {
          var k :| 0 <= k < |records| && records[k] == r;
          assert r.episodeId == episodes[0].id;
        } else {
          var i :| 0 <= i < |episodes[1..]| && r.episodeId == episodes[1..][i].id;
          assert r.episodeId == episodes[i + 1].id;
        }
      }
    }
  }

  /** When every episode fills its graph, `metadata.json` holds at least
      `max_images` records per episode. */
  lemma AllFilledMeansEnoughRecords(m: Maths, st: SimState, episodes: seq<Episode>, cfg: RunConfig)
    requires RunFrom(m, st, episodes, cfg).2 == |episodes|
    ensures |RunFrom(m, st, episodes, cfg).0| >= |episodes| * cfg.fill.maxImages
  {
    RunFromCounts(m, st, episodes, cfg);
  }

  /** One pass of `main`'s episode body, as the methods perform it, gives
      exactly `EpisodeRun`. */
  lemma EpisodeRunSteps(m: Maths, before: SimState, ep: Episode, cfg: RunConfig,
                        g: Graph, st1: SimState, filled: bool, records: seq<ManifestRecord>)
    requires (g, st1, filled) == GraphOf(m, before, ep, cfg)
    requires WellFormed(g) && |records| == Size(g)
    requires forall k :: 0 <= k < Size(g) ==> records[k] == RecordAt(ep.scene, m, ep.id, cfg.obsKeys, g, k)
    ensures EpisodeRun(m, before, ep, cfg) == (records, AfterRecording(m, st1, g).(over := true), filled)
  {
    assert records == seq(Size(g), k requires 0 <= k < Size(g) => RecordAt(ep.scene, m, ep.id, cfg.obsKeys, g, k));
  }

  /** One iteration of `main`'s episode loop: reset to the episode's scene,
      build its graph, record every viewpoint, and mark the episode over. */
  method RunEpisode(sim: Simulator, m: Maths, episode: Episode, cfg: RunConfig) returns (records: seq<ManifestRecord>)
    requires SinCosNeverBothZero(m)
    modifies sim`scene, sim`navDraws, sim`npDraws, sim`episodeOver, sim.agent
    ensures records == EpisodeRun(m, old(sim.State()), episode, cfg).0
    ensures sim.State() == EpisodeRun(m, old(sim.State()), episode, cfg).1
    ensures sim.scene == episode.scene
  {
    ghost var before := sim.State();
    sim.Reset(episode.scene);
    var g, filled := BuildEpisodeGraph(sim, m, episode.targets, cfg.search, cfg.fill,
                                        ObjStartRec(episode.targetReceptacles), ObjGoalRec(episode.goalReceptacles),
                                        NoItem, cfg.fuel);
    ghost var st1 := sim.State();
    EpisodeGraphLayout(episode.scene, m, before.(over := false), episode.targets, cfg.search, cfg.fill,
                       ObjStartRec(episode.targetReceptacles), ObjGoalRec(episode.goalReceptacles), NoItem, cfg.fuel);
    EpisodeRotationsSettable(episode.scene, m, before.(over := false), episode.targets, cfg.search, cfg.fill,
                             ObjStartRec(episode.targetReceptacles), ObjGoalRec(episode.goalReceptacles), NoItem, cfg.fuel);
    records := RecordViewpoints(sim, m, episode.id, cfg.obsKeys, g);
    sim.episodeOver := true;
    EpisodeRunSteps(m, before, episode, cfg, g, st1, filled, records);
  }

  /** The episode loop from episode `e` on is episode `e`'s run followed by
      the loop from episode `e + 1` on. */
  lemma RunFromUnfold(m: Maths, st: SimState, episodes: seq<Episode>, e: nat, cfg: RunConfig)
    requires e < |episodes|
    ensures var next := EpisodeRun(m, st, episodes[e], cfg);
      && RunFrom(m, st, episodes[e..], cfg).0 == next.0 + RunFrom(m, next.1, episodes[e + 1..], cfg).0
      && RunFrom(m, st, episodes[e..], cfg).1 == RunFrom(m, next.1, episodes[e + 1..], cfg).1
  {
    assert episodes[e..][1..] == episodes[e + 1..];
  }

  /** `main`'s loop over `dataset.episodes`: reset, build the graph, record
      every viewpoint, and mark the episode over; returns the metadata list
      that is written to `metadata.json`. */
  method RunMain(sim: Simulator, m: Maths, episodes: seq<Episode>, cfg: RunConfig) returns (metadata: seq<ManifestRecord>)
    requires SinCosNeverBothZero(m)
    modifies sim`scene, sim`navDraws, sim`npDraws, sim`episodeOver, sim.agent
    ensures metadata == RunFrom(m, old(sim.State()), episodes, cfg).0
    ensures sim.State() == RunFrom(m, old(sim.State()), episodes, cfg).1
    ensures |episodes| == 0 ==> sim.scene == old(sim.scene)
    ensures |episodes| > 0 ==> sim.scene == episodes[|episodes| - 1].scene
  {
    ghost var goal := RunFrom(m, sim.State(), episodes, cfg);
    metadata := [];
    assert episodes[0..] == episodes;
    assert metadata + goal.0 == goal.0;
    for e := 0 to |episodes|
      invariant goal.0 == metadata + RunFrom(m, sim.State(), episodes[e..], cfg).0
      invariant goal.1 == RunFrom(m, sim.State(), episodes[e..], cfg).1
      invariant e == 0 ==> sim.scene == old(sim.scene)
      invariant e > 0 ==> sim.scene == episodes[e - 1].scene
    {
      RunFromUnfold(m, sim.State(), episodes, e, cfg);
      var records := RunEpisode(sim, m, episodes[e], cfg);
      metadata := metadata + records;
    }
    assert episodes[|episodes|..] == [];
  }
}
