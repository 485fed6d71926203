# Viewpoint-graph generation and agent message routing, in Dafny

This project models two parts of a habitat-lab / habitat-mas code base.

**The viewpoint-graph generator** is `generate_episode_graph_images.py`. For every episode of a rearrangement dataset it builds a small graph of camera viewpoints and records what the agent sees at each one:

- **Targeted viewpoints.** For every target object, a bounded search samples navigable points near the object's start position and near its goal position. Each sample is aimed at its centre and kept once the observed bounding box has the right apparent size. Each search grows its radius by 0.1 per failed trial. When the trial budget runs out it keeps the last sample.
- **Fill viewpoints.** A rejection-sampling loop adds random viewpoints until the graph holds `max_images` of them. A candidate must be at least `min_point_dis` away from the first two graph positions, and both of its boxes must be small.
- **Recording pass.** Each viewpoint yields one metadata record: the episode id, the image files named `episode_{id}_{key}_{idx}.png` for the requested observation keys, the localization reading and the annotation.

**The agents' message routing** is `CrabAgent.chat` in `crab_agent.py`. All agents share one class-level table of FIFO queues, keyed by agent name. Before consulting its language model, an agent drains its own queue into the observation. It then turns the model's chosen action into a result:

- a `send_request` posts a formatted message to the target agent's queue;
- navigation and manipulation actions are tagged with the robot's name.

The model is organised as follows:

- `Floats` gives floating-point values a NaN, so that the NaN tests keep their meaning. Every comparison involving NaN is false, as in NumPy.
- `Maths` carries sine, cosine, `arctan2` and SciPy's quaternion-to-yaw conversion as uninterpreted functions.
- `Simulation` stands in for the simulator. A `Scene` is an oracle indexed by how many draws each random source has made. The classes `Simulator` and `Agent` hold the state that the generator mutates:
  - the agent's base pose;
  - the draw counters;
  - the episode-over flag.
- `ViewpointSearch` and `GraphAssembly` state each loop as a pure function over a `SimState` value. They prove the source's promises as lemmas about those functions. Methods that mirror the Python loops are proved to compute exactly those functions.
- `Recording` does the same for the recording pass and the loop over episodes.
- `CrabAgents` models the queue table as a `MessagePipe` object that each `CrabAgent` holds; sharing it between agents is up to the caller. `CrabAgent.Chat` changes only that table, and its specification is `Drain` followed by `Route`.

## Model

| member | source | states |
|---|---|---|
| Orientation.InRange | habitat-lab/habitat/datasets/rearrange/generate_episode_graph_images.py:26-27 | a value in range implies a non-empty interval and differs from both ends |
| Orientation.InRangeExcludesEnds | habitat-lab/habitat/datasets/rearrange/generate_episode_graph_images.py:26-27 | `inrange` holds exactly when `lo < s < hi`; both ends are rejected, and an accepted value implies `lo < hi` |
| Orientation.YawQuaternion | habitat-lab/habitat/datasets/rearrange/generate_episode_graph_images.py:66-73 | the built quaternion has four components with x and z exactly zero, and its y and w components are NaN exactly when the angle is |
| Orientation.RandomQuaternionXZ | habitat-lab/habitat/datasets/rearrange/generate_episode_graph_images.py:45-55 | yaw-only quaternion with `qy = sin(theta/2)` and `qw = cos(theta/2)` for the drawn angle |
| Orientation.CalculateOrientationXZ | habitat-lab/habitat/datasets/rearrange/generate_episode_graph_images.py:57-75 | yaw-only quaternion; its components are finite exactly when the x and z coordinates of both points are |
| Orientation.AimIsYawTowardsGoal | habitat-lab/habitat/datasets/rearrange/generate_episode_graph_images.py:57-75 | for finite points, aiming is the random builder applied to the angle `arctan2(dz, dx)` |
| Orientation.AimIsHorizontalAndTranslationInvariant | habitat-lab/habitat/datasets/rearrange/generate_episode_graph_images.py:61-65 | the orientation depends only on the horizontal offset between the points: heights and a common x-z shift do not change it |
| Orientation.YawQuaternionNotZeroNorm | habitat-lab/habitat/datasets/rearrange/generate_episode_graph_images.py:45-75 | when sine and cosine never vanish together, neither builder returns the all-zero quaternion that `R.from_quat` refuses |
| Simulation.YawOnlyIsStoredAsYaw | habitat-lab/habitat/datasets/rearrange/generate_episode_graph_images.py:86-92 | a yaw-only quaternion is dispatched as a quaternion and stored as its converted yaw; it is stored without error exactly when it is not all zero |
| Simulation.AimSettable | habitat-lab/habitat/datasets/rearrange/generate_episode_graph_images.py:57-75 | an aimed orientation is never refused by `set_articulated_agent_base_state` |
| Simulation.DrawnSettable | habitat-lab/habitat/datasets/rearrange/generate_episode_graph_images.py:45-55 | a drawn orientation is never refused by `set_articulated_agent_base_state` |
| Simulation.SetArticulatedAgentBaseState | habitat-lab/habitat/datasets/rearrange/generate_episode_graph_images.py:77-95 | the position is overwritten in every case; a one-element rotation is stored as given and a four-element one as its yaw; any other length, and a quaternion whose components are all zero (refused by `R.from_quat`), raise `ValueError` with the old rotation left in place |
| Simulation.Observe | habitat-lab/habitat/datasets/rearrange/generate_episode_graph_images.py:334-336 | setting the pose, stepping and forcing the episode active leaves the agent at the pose and returns the observation rendered there |
| ViewpointSearch.Search | habitat-lab/habitat/datasets/rearrange/generate_episode_graph_images.py:327-343 | the search runs at most `max_trials` trials, keeps an orientation that faces the centre, and leaves the episode active |
| ViewpointSearch.SearchLoopShape | habitat-lab/habitat/datasets/rearrange/generate_episode_graph_images.py:329-343 | the loop counts its trials within the remaining budget, grows the radius by 0.1 per failed trial, aims every sample at the centre and uses one navmesh draw per trial |
| ViewpointSearch.SearchLoopEarlierTrialsFail | habitat-lab/habitat/datasets/rearrange/generate_episode_graph_images.py:329-343 | every trial before the one the loop stops at fails the test |
| ViewpointSearch.SearchLoopAcceptedPoint | habitat-lab/habitat/datasets/rearrange/generate_episode_graph_images.py:338-339 | an accepted loop ends on the sample that passed, at the radius of that trial |
| ViewpointSearch.SearchLoopLastPoint | habitat-lab/habitat/datasets/rearrange/generate_episode_graph_images.py:340-343 | a loop that exhausts its budget ends on its last sample |
| ViewpointSearch.SearchWithinBudget | habitat-lab/habitat/datasets/rearrange/generate_episode_graph_images.py:327-343 | at most `max_trials` trials, `radius == dist_to_target + 0.1 * n_trial`, and the kept orientation faces the centre |
| ViewpointSearch.SearchAcceptsOnlyInRange | habitat-lab/habitat/datasets/rearrange/generate_episode_graph_images.py:337-339 | an accepted point passed the NaN test and its box area lies strictly inside `(bbox_range_min, bbox_range_max)` |
| ViewpointSearch.SearchAcceptsFirstPassingTrial | habitat-lab/habitat/datasets/rearrange/generate_episode_graph_images.py:329-343 | the search accepts exactly when some trial within the budget passes, and it then keeps the first one that passed |
| ViewpointSearch.SearchFallback | habitat-lab/habitat/datasets/rearrange/generate_episode_graph_images.py:329-343 | when no trial passes, `n_trial == max_trials`, `radius == dist_to_target + 0.1 * max_trials`, and the last sample and its orientation are kept |
| ViewpointSearch.GoalSearchAfterNaNStartFallsBack | habitat-lab/habitat/datasets/rearrange/generate_episode_graph_images.py:355-356 | the goal loop tests the start point's x: with a NaN start point no goal trial passes and the goal search always falls back |
| ViewpointSearch.GoalSearchAcceptsNaNGoalSample | habitat-lab/habitat/datasets/rearrange/generate_episode_graph_images.py:355-356 | with a finite start point, a goal sample whose own x is NaN is accepted on the first trial when the target box is in range |
| ViewpointSearch.SearchExhaustedAtDefaults | habitat-lab/habitat/datasets/rearrange/generate_episode_graph_images.py:459-460 | with the defaults `dist_to_target = 6.0` and `max_trials = 60`, an exhausted search stops after 60 trials at radius 12.0 |
| ViewpointSearch.SearchNear | habitat-lab/habitat/datasets/rearrange/generate_episode_graph_images.py:327-361 | the `while n_trial < max_trials` loop computes exactly the search specification, including the simulator state it leaves |
| GraphAssembly.TargetedFrom | habitat-lab/habitat/datasets/rearrange/generate_episode_graph_images.py:325-368 | with `max_trials == 0` neither search loop runs, the `extend` calls raise on unbound names and the bare `except: continue` skips every target, so the graph and the simulator are unchanged |
| GraphAssembly.TargetedPairs | habitat-lab/habitat/datasets/rearrange/generate_episode_graph_images.py:325-368 | each target appends exactly two entries to each of the three lists (none when `max_trials` is zero), which stay equal in length; earlier entries are untouched |
| GraphAssembly.TargetedFacing | habitat-lab/habitat/datasets/rearrange/generate_episode_graph_images.py:364-366 | entries `2i` and `2i+1` are target `i`'s start and goal viewpoints, facing their centres and carrying the start and goal annotations |
| GraphAssembly.TargetedNotes | habitat-lab/habitat/datasets/rearrange/generate_episode_graph_images.py:363-366 | with at least one trial, the targeted pass puts the start annotation at every even entry and the goal annotation at every odd one |
| GraphAssembly.TargetedRotationsSettable | habitat-lab/habitat/datasets/rearrange/generate_episode_graph_images.py:325-368 | every targeted orientation is one that `set_articulated_agent_base_state` accepts |
| GraphAssembly.SearchPair | habitat-lab/habitat/datasets/rearrange/generate_episode_graph_images.py:327-361 | the start search and then the goal search, whose NaN test reads the start point, compute exactly the two search specifications in sequence and leave the episode active |
| GraphAssembly.AssembleTargeted | habitat-lab/habitat/datasets/rearrange/generate_episode_graph_images.py:325-368 | the per-target loop of `main` computes exactly the targeted-assembly specification, skipping every target when `max_trials` is zero |
| GraphAssembly.TooClose | habitat-lab/habitat/datasets/rearrange/generate_episode_graph_images.py:384-391 | a NaN coordinate on either point, or a non-positive `min_point_dis`, never counts as too close |
| GraphAssembly.SqrtComparison | habitat-lab/habitat/datasets/rearrange/generate_episode_graph_images.py:389 | for the square root `r` of `d2`, `r < m` holds exactly when `0 < m` and `d2 < m*m` |
| GraphAssembly.FillNext | habitat-lab/habitat/datasets/rearrange/generate_episode_graph_images.py:375-396 | every iteration takes one navmesh draw and one angle draw; a candidate rejected by the distance test leaves the agent where it was, and any other candidate is visited, leaving the agent at it with the episode active |
| GraphAssembly.CloseToFirstTwo | habitat-lab/habitat/datasets/rearrange/generate_episode_graph_images.py:380-391 | the `min_dis_flag` scan over `graph_positions[:2]`, with its early `break`, sets the flag exactly when some position among the first two is too close |
| GraphAssembly.FillCount | habitat-lab/habitat/datasets/rearrange/generate_episode_graph_images.py:373-402 | each iteration appends at most one entry to each list; the loop reports filled exactly when the count reaches `max_images`; it adds nothing to a graph already that large and never goes past `max_images` otherwise; every fill entry carries the fill annotation |
| GraphAssembly.FillSeparation | habitat-lab/habitat/datasets/rearrange/generate_episode_graph_images.py:382-400 | every fill entry was not too close to the first two positions before it and had both box areas strictly below `random_min_bbox` at its pose |
| GraphAssembly.FillStep | habitat-lab/habitat/datasets/rearrange/generate_episode_graph_images.py:376-402 | one iteration takes exactly the draws and visit of the fill specification, and appends the candidate exactly when it passes the distance and salience tests |
| GraphAssembly.FillViewpoints | habitat-lab/habitat/datasets/rearrange/generate_episode_graph_images.py:373-402 | the fill loop computes exactly the fill specification |
| GraphAssembly.FillRotationsSettable | habitat-lab/habitat/datasets/rearrange/generate_episode_graph_images.py:377-400 | every fill orientation is one that `set_articulated_agent_base_state` accepts |
| GraphAssembly.FillKeepsDistanceFromFirstPair | habitat-lab/habitat/datasets/rearrange/generate_episode_graph_images.py:383-391 | once a start/goal pair is in the graph, no fill viewpoint is too close to the first two positions |
| GraphAssembly.NotTooCloseMeansFarEnough | habitat-lab/habitat/datasets/rearrange/generate_episode_graph_images.py:389 | for finite points at x-z distance `r`, passing the distance test means `r >= min_point_dis` |
| GraphAssembly.TruncatedComparison | habitat-lab/habitat/datasets/rearrange/generate_episode_graph_images.py:226 | `int(sqrt(d2)) < min_dis` holds exactly when `d2` is below the square of `min_dis` rounded up |
| GraphAssembly.TruncatedIsStricter | habitat-lab/habitat/datasets/rearrange/generate_episode_graph_images.py:226 | every candidate that the real-distance test rejects is also rejected by the truncated test |
| GraphAssembly.EpisodeGraphLayout | habitat-lab/habitat/datasets/rearrange/generate_episode_graph_images.py:325-402 | an episode graph is well formed; with `t` targeted entries (two per target, none when `max_trials` is zero) it starts with the start/goal pairs, then holds fill entries; a filled graph has `max(t, max_images)` entries |
| GraphAssembly.EpisodeRotationsSettable | habitat-lab/habitat/datasets/rearrange/generate_episode_graph_images.py:325-414 | every orientation of an episode graph is accepted when the recording pass revisits it |
| GraphAssembly.TwoTargetsTenImages | habitat-lab/habitat/datasets/rearrange/generate_episode_graph_images.py:373-402 | with two targets and `max_images = 10`, a filled graph has four targeted entries followed by exactly six fill entries |
| GraphAssembly.BuildEpisodeGraph | habitat-lab/habitat/datasets/rearrange/generate_episode_graph_images.py:311-402 | targeted assembly followed by fill computes exactly the episode-graph specification |
| Recording.ImageFileName | habitat-lab/habitat/datasets/rearrange/generate_episode_graph_images.py:425 | a file name starts with `episode_` and the episode id, and ends with a digit and `.png` |
| Recording.NatToString | habitat-lab/habitat/datasets/rearrange/generate_episode_graph_images.py:425 | the index in a file name is a non-empty digit string with no leading zero, and `"0"` exactly for zero |
| Recording.ParseNatToString | habitat-lab/habitat/datasets/rearrange/generate_episode_graph_images.py:425 | the index written into a file name reads back as the same number |
| Recording.SplitAtLastUnderscore | habitat-lab/habitat/datasets/rearrange/generate_episode_graph_images.py:425 | in `key_digits`, the last underscore separates the key from the index |
| Recording.ImageFileNameInjective | habitat-lab/habitat/datasets/rearrange/generate_episode_graph_images.py:425 | within one episode, two file names are equal only for the same key and the same index |
| Recording.ObsFiles | habitat-lab/habitat/datasets/rearrange/generate_episode_graph_images.py:420-428 | at most one file per requested key, each a `.png` name |
| Recording.ObsFilesConcat | habitat-lab/habitat/datasets/rearrange/generate_episode_graph_images.py:422-428 | the file list for `a + b` is the list for `a` followed by the list for `b`, so files follow the order of `obs_keys` |
| Recording.ObsFilesOne | habitat-lab/habitat/datasets/rearrange/generate_episode_graph_images.py:423-428 | one key contributes its file exactly when the observation holds it |
| Recording.ObsFilesMembers | habitat-lab/habitat/datasets/rearrange/generate_episode_graph_images.py:422-428 | a file is listed exactly when it is named after a requested key that the observation holds |
| Recording.ObsFilesListedKey | habitat-lab/habitat/datasets/rearrange/generate_episode_graph_images.py:422-428 | every listed file is named after a requested key that the observation holds |
| Recording.ObsFilesKeyListed | habitat-lab/habitat/datasets/rearrange/generate_episode_graph_images.py:422-428 | every requested key that the observation holds has its file listed |
| Recording.ObsFilesAllPresent | habitat-lab/habitat/datasets/rearrange/generate_episode_graph_images.py:422-428 | when every requested key is present, the list has one file per key, in order |
| Recording.ObsFilesDisjoint | habitat-lab/habitat/datasets/rearrange/generate_episode_graph_images.py:425 | two different viewpoint indices never list the same file |
| Recording.RecordAt | habitat-lab/habitat/datasets/rearrange/generate_episode_graph_images.py:412-440 | the record of viewpoint `k` carries the episode id and the annotation of viewpoint `k`, and lists at most one file per requested key |
| Recording.RecordViewpoints | habitat-lab/habitat/datasets/rearrange/generate_episode_graph_images.py:412-440 | one record per zipped viewpoint, in order; record `k` holds the files, the localization and the annotation of viewpoint `k`; the agent ends at the last viewpoint |
| Recording.RecordFilesDisjoint | habitat-lab/habitat/datasets/rearrange/generate_episode_graph_images.py:412-440 | records of different viewpoints of one episode name disjoint files |
| Recording.EpisodeRunLayout | habitat-lab/habitat/datasets/rearrange/generate_episode_graph_images.py:302-442 | an episode's records carry its id and follow its graph: start/goal annotations per target (none when `max_trials` is zero), then `{"item": None}` fill records; a filled episode gives `max(t, max_images)` records for `t` targeted entries; the episode ends marked over |
| Recording.FilledEpisodeSize | habitat-lab/habitat/datasets/rearrange/generate_episode_graph_images.py:373-440 | an episode that filled its graph contributes at least `max_images` records |
| Recording.RunFromCounts | habitat-lab/habitat/datasets/rearrange/generate_episode_graph_images.py:302-442 | the metadata holds at least `max_images` records for every episode that filled |
| Recording.RunFromEpisodeIds | habitat-lab/habitat/datasets/rearrange/generate_episode_graph_images.py:432-433 | every record names one of the dataset's episodes |
| Recording.AllFilledMeansEnoughRecords | habitat-lab/habitat/datasets/rearrange/generate_episode_graph_images.py:302-442 | when every episode fills, the metadata holds at least `episodes * max_images` records |
| Recording.RunEpisode | habitat-lab/habitat/datasets/rearrange/generate_episode_graph_images.py:302-442 | one episode (reset, build the graph, record every viewpoint, mark over) computes exactly that episode's records and final state, and leaves the episode's scene loaded |
| Recording.RunMain | habitat-lab/habitat/datasets/rearrange/generate_episode_graph_images.py:300-442 | the loop over episodes (reset, build, record, mark over) computes exactly the metadata specification; afterwards the last episode's scene is loaded, or the old scene when there are no episodes |
| CrabAgents.Drain | habitat-mas/habitat_mas/agents/crab_agent.py:84-87 | the table keeps its agents; the caller's queue ends up empty and every other queue is unchanged; the prompt starts with the observation |
| CrabAgents.Route | habitat-mas/habitat_mas/agents/crab_agent.py:89-112 | routing never raises `AttributeError`, never changes the caller's own queue, and only adds queues or appends to the end of existing ones |
| CrabAgents.ChatStep | habitat-mas/habitat_mas/agents/crab_agent.py:83-112 | a call fails with `AttributeError` exactly when there is no model; afterwards the caller's queue is empty and no agent's queue has disappeared |
| CrabAgents.JoinConcat | habitat-mas/habitat_mas/agents/crab_agent.py:85 | joining two non-empty lists is joining each with one separator between them |
| CrabAgents.DrainIdempotent | habitat-mas/habitat_mas/agents/crab_agent.py:84-87 | after a drain the agent's queue is empty, so a second drain changes neither the observation nor the table |
| CrabAgents.DrainReadsOwnQueue | habitat-mas/habitat_mas/agents/crab_agent.py:84-87 | a missing or empty queue leaves the observation and the table unchanged; otherwise the observation gains a space and the queue joined by spaces, the queue is emptied and no other queue changes |
| CrabAgents.SelfRequestDropped | habitat-mas/habitat_mas/agents/crab_agent.py:90-93 | a request to oneself returns `None` and changes no queue, whether or not it has a `request` key |
| CrabAgents.RequestAppendsToTarget | habitat-mas/habitat_mas/agents/crab_agent.py:94-99 | a request to another agent creates the target's queue if needed, appends exactly one `REQUEST_TEMPLATE` message at its end, leaves every other queue unchanged and returns `wait` with `["100"]` |
| CrabAgents.OnlyRequestsPost | habitat-mas/habitat_mas/agents/crab_agent.py:90-112 | only a `send_request` with both keys and another agent as target changes the table |
| CrabAgents.ActionResults | habitat-mas/habitat_mas/agents/crab_agent.py:100-112 | `wait` returns `["100"]`; the five navigation and manipulation actions keep their name and arguments with `"robot"` set to the agent; any other action passes through unchanged |
| CrabAgents.RequestDeliveredInOrder | habitat-mas/habitat_mas/agents/crab_agent.py:84-98 | a request reaches the receiver on its next call, after the messages already waiting, and the receiver's queue is emptied again |
| CrabAgents.CrabAgent.constructor | habitat-mas/habitat_mas/agents/crab_agent.py:25-39 | a new agent has no model and is not initialized |
| CrabAgents.CrabAgent.InitAgent | habitat-mas/habitat_mas/agents/crab_agent.py:44-81 | afterwards the agent has its model and is initialized; the chat history is injected only when one is given; the logging settings go to the model while the agent's own settings from `__init__` stay as they were |
| CrabAgents.CrabAgent.Chat | habitat-mas/habitat_mas/agents/crab_agent.py:83-112 | a call changes only the shared table, and computes exactly drain-then-route over it with the model's reply to the drained prompt; a valid agent fails with `AttributeError` exactly when it was never initialized |
| CrabAgents.ChatBeforeInit | habitat-mas/habitat_mas/agents/crab_agent.py:38-89 | an agent that was never initialized empties its own queue on its first `chat`, leaves every other queue as it was, and raises `AttributeError` |

## Behaviour of the code worth noting

The model follows the code in each of these cases.

- **Separation of fill viewpoints.** A fill candidate is compared only against `graph_positions[:2]`, which is the first target's start/goal pair when a pair was added, and otherwise the first fill viewpoints (with no targets, or with `max_trials == 0`). Later targeted viewpoints play no part in the test. The model proves separation from the first two positions only (`FillSeparation`, `FillKeepsDistanceFromFirstPair`).
- **Annotations.** `main` writes `{"obj_start_rec": …}`, `{"obj_goal_rec": …}` and `{"item": None}`. `generate_scene_graph` writes the plain strings `"start_rec"`, `"goal_rec"` and `"random"`. Annotations are therefore a parameter of the assembly.
- **NaN test.** The goal loop tests the start point's x for NaN, not the goal sample's, at lines 197 and 356. A NaN start point makes every goal trial fail, and a goal sample with a NaN x can be accepted (`GoalSearchAfterNaNStartFallsBack`, `GoalSearchAcceptsNaNGoalSample`).
- **Record contents.** The fields for the pose in each metadata record are commented out. The record holds the localization sensor reading instead.
- **The `try` around a pair.** In `main` the `try` at lines 363-368 covers only the three `extend` calls, not the searches. With `max_trials == 0` the searches never bind their points, the `extend` calls raise, and every target is skipped (`TargetedFrom`).

## Left out

- **Simulator internals.** The simulator, the environment, navmesh sampling, rendering and `get_target_objects_info` (lines 97-118) are not modelled. A `Scene` oracle indexed by draw counts replaces them. The episode's reset pose and the largest-island lookup are not modelled either.
- **Numerics.** Trigonometry and SciPy's `as_euler` are uninterpreted functions, so no numeric yaw values are proved. `radius += 0.1` is exact real arithmetic, not IEEE accumulation.
- **Randomness.** NumPy's and the path finder's random sources are the oracle's draw-indexed functions.
- **I/O.** `save_image`, `os.makedirs`, `json.dump` with `NumpyEncoder`, `parse_args` and `get_hssd_single_agent_config` are not modelled. The metadata list is returned instead of written.
- **Shared pipe.** `message_pipe` is a class attribute, so every agent in the process shares one table. In the model each agent holds a reference to a `MessagePipe` given to its constructor. Nothing forces two agents to hold the same one; a caller that builds them with the same pipe gets the source's sharing.
- **Negative `max_trials` and `max_images`.** The command line accepts negative integers. Both loops then behave as with zero: `while n_trial < max_trials` never runs and `len(graph_positions) < max_images` never holds. The model's configuration fields are natural numbers, so a negative value is represented by 0.
- **agent_id.** The generator always places agent 0, so there is a single agent.
- **Targeted-assembly exception path.** When `episode.target_receptacles` is missing, the `try`/`except` at lines 363-368 leaves the positions and orientations extended but the annotations not. Only the path where the attribute exists is modelled.
- **Missing bounding boxes and sensor.** An empty bounding-box list raises `IndexError`, and a missing `localization_sensor` raises `KeyError`. Observations in the model always carry both.
- **ViewpointSearch.Search:** requires `max_trials >= 1`. It is only reached with at least one trial: with zero trials `main` skips every target (`TargetedFrom`).
- **Simulation.Observe:** requires a rotation that `set_articulated_agent_base_state` accepts. The loops meet this through `SinCosNeverBothZero`, a property of NumPy's sine and cosine that the uninterpreted functions are required to have. If a rotation were refused, `ValueError` would end the program; that path is not modelled.
- **GraphAssembly.FillViewpoints:** stops after `fuel` iterations and reports whether `max_images` was reached. The source loop has no bound, and its termination depends on the scene. An episode whose fill loop runs out of fuel is still recorded, and the run goes on to the next episode. The source never gets there: it keeps sampling.
- **`generate_scene_graph`.** Its searches and pair assembly are the same functions, with plain-string annotations. Four parts are not modelled:
  - its fill loop, of which only the truncated distance test at line 226 is modelled (`TruncatedComparison`, `TruncatedIsStricter`);
  - the `ValueError` that `int(sqrt(nan))` raises on a NaN candidate;
  - its recording pass, which reads an undefined `obs_keys` at line 260;
  - the `UnboundLocalError` that its unprotected `extend` at line 204 raises when `max_trials` is zero.
- **CrabAgents.CrabAgent.Chat:** the `parameters` dictionary is a value. The in-place write at line 109 appears as the updated map in the result, and holders of the dictionary the model returned are not modelled.
- **CrabAgents.Reply:** argument values are strings. The model's function-call arguments can hold other JSON values, such as numbers or lists, but `chat` only reads `target_agent` and `request` and copies the others unchanged.
- **The language-model layer.** `OpenAIModel`, token usage and the system-prompt wording are not modelled. The model is a function from prompt to `(action_name, parameters)`. Its chat history is recorded only as the history injected by `init_agent`. Its logging settings are recorded only as the two values `init_agent` gives it; no logging happens.
