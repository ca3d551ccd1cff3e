/**
 * The rollout engine: `rollout` and `test_policy_sys`
 * (imitation_learning/dagger.py:9-59).
 *
 * The collaborators are values: the system is a script of replies, the policy
 * and the expert's action are functions, and the shared random generator is
 * the sequence of its draws, `rand(k)` being the k-th one.
 */
module Rollouts {
  import opened Basics
  import opened Data

  /**
   * A policy maps the current observation to an action. The rollout reads an
   * observation as (field, value) pairs (imitation_learning/dagger.py:39),
   * while a KerasLearner's policy indexes it by field (learners.py:160), so
   * here an observation is a pairs sequence and `Learners.Predict` takes a
   * map: the two shapes differ in the source as well.
   */
  type Policy = Obs -> Action

  /** The expert: its action on an observation, and whether it drives the system unsupervised. */
  datatype Expert = Expert(action: Obs -> Action, autonomous: bool)

  /** What `system.step` returns. */
  datatype StepResult = StepResult(obs: Obs, reward: real, done: bool)

  /**
   * A deterministic system: `start(w, autonomous)` is what its w-th
   * `wait_for_rollout(autonomous)` returns; `reply(w, sent)` is what a `step`
   * of episode w returns when `sent` are the targets sent in that episode so
   * far, the one of this step last.
   */
  datatype System = System(start: (nat, bool) -> Obs, reply: (nat, seq<Action>) -> StepResult)

  /** How many episodes the system has begun, and how many random draws have been taken. */
  datatype Cursor = Cursor(episodes: nat, draws: nat)

  /** The arguments of one `rollout` call, with the system and the random draws. */
  datatype Setup = Setup(
    sys: System, policy: Policy, T: nat, N: nat,
    expert: Option<Expert>, mixing: real, mixWithin: bool,
    rand: nat -> real)

  /**
   * One executed step: the observation acted on, the learner's action, whether
   * the expert drove, the target sent to the system and the system's reply.
   */
  datatype Step = Step(obs: Obs, action: Action, byExpert: bool, target: Action, result: StepResult)

  /**
   * `mix` (imitation_learning/dagger.py:20): an expert is configured and the
   * mixing probability is not 0 (`np.isclose` is modelled as an exact test).
   */
  predicate Mixes(s: Setup) {
    s.expert.Some? && s.mixing != 0.0
  }

  /**
   * The mixing decision on draw k: the expert drives exactly when mixing is on
   * and the draw is below the mixing probability. The source's lines 23 and 34
   * compare the function `np.random.random` rather than a draw; this is the
   * evident intent (see LearnerDrivesAsWritten).
   */
  predicate ExpertDrives(s: Setup, k: nat) {
    Mixes(s) && s.rand(k) < s.mixing
  }

  /** Draws one episode consumes: one at its start, and one per step when mixing within the rollout. */
  function PerEpisode(s: Setup): nat {
    if !Mixes(s) then 0 else if s.mixWithin then s.T + 1 else 1
  }

  /** The draw that decides step t of an episode whose draws start at `base`. */
  function DecidingDraw(s: Setup, base: nat, t: nat): nat {
    if s.mixWithin then base + 1 + t else base
  }

  /**
   * The flag passed to `wait_for_rollout` (imitation_learning/dagger.py:24):
   * the learner drives first, or the expert operates autonomously. The source
   * reads `expert.autonomous` without calling it (see StartsAutonomousAsWritten).
   */
  function StartsAutonomous(s: Setup, base: nat): bool {
    !ExpertDrives(s, base) || s.expert.value.autonomous
  }

  /**
   * Step t of an episode whose draws start at `base` decides as the source
   * does (imitation_learning/dagger.py:32-36): the policy is queried, the
   * decision comes from the right draw, and the expert's action is the target
   * exactly when the expert drives.
   */
  predicate StepFaithful(s: Setup, base: nat, t: nat, e: Step) {
    && e.action == s.policy(e.obs)
    && e.byExpert == ExpertDrives(s, DecidingDraw(s, base, t))
    && e.target == (if e.byExpert then s.expert.value.action(e.obs) else e.action)
  }

  /** The observation step t of episode w acts on: what `wait_for_rollout` returned, then what the previous step returned. */
  function ObservedBefore(s: Setup, w: nat, base: nat, ep: seq<Step>, t: nat): Obs
    requires t <= |ep|
  {
    if t == 0 then s.sys.start(w, StartsAutonomous(s, base)) else ep[t - 1].result.obs
  }

  /**
   * The steps so far of episode w are what the source does
   * (imitation_learning/dagger.py:24-43): each step is faithful, acts on the
   * observation before it, and its reply is the system's answer to the
   * targets sent so far, its own last.
   */
  predicate StepsFaithful(s: Setup, w: nat, base: nat, ep: seq<Step>) {
    ep == [] ||
    var t := |ep| - 1;
    && StepsFaithful(s, w, base, ep[..t])
    && StepFaithful(s, base, t, ep[t])
    && ep[t].obs == ObservedBefore(s, w, base, ep, t)
    && ep[t].result == s.sys.reply(w, Targets(ep))
  }

  /** An episode is T faithful steps. */
  predicate EpisodeFaithful(s: Setup, w: nat, base: nat, ep: seq<Step>) {
    |ep| == s.T && StepsFaithful(s, w, base, ep)
  }

  /** What faithfulness says about step t of the episode. */
  lemma {:induction false} StepsFaithfulAt(s: Setup, w: nat, base: nat, ep: seq<Step>, t: nat)
    requires StepsFaithful(s, w, base, ep)
    requires t < |ep|
    ensures StepFaithful(s, base, t, ep[t])
    ensures ep[t].obs == ObservedBefore(s, w, base, ep, t)
    ensures ep[t].result == s.sys.reply(w, Targets(ep[..t + 1]))
  {
    if t < |ep| - 1 {
      var prefix := ep[..|ep| - 1];
      StepsFaithfulAt(s, w, base, prefix, t);
      assert prefix[..t + 1] == ep[..t + 1];
    } else {
      assert ep[..t + 1] == ep;
    }
  }

  /** Each of the episodes so far, and its `wait_for_rollout` flag, is what `rollout` produces from cursor `at`. */
  predicate EpisodesFaithful(s: Setup, at: Cursor, autonomy: seq<bool>, trace: seq<seq<Step>>) {
    && |autonomy| == |trace|
    && (trace == [] ||
        var n := |trace| - 1;
        && EpisodesFaithful(s, at, autonomy[..n], trace[..n])
        && autonomy[n] == StartsAutonomous(s, EpisodeBase(s, at, n))
        && EpisodeFaithful(s, at.episodes + n, EpisodeBase(s, at, n), trace[n]))
  }

  /** What faithfulness says about episode r. */
  lemma {:induction false} EpisodesFaithfulAt(s: Setup, at: Cursor, autonomy: seq<bool>, trace: seq<seq<Step>>, r: nat)
    requires EpisodesFaithful(s, at, autonomy, trace)
    requires r < |trace|
    ensures autonomy[r] == StartsAutonomous(s, EpisodeBase(s, at, r))
    ensures EpisodeFaithful(s, at.episodes + r, EpisodeBase(s, at, r), trace[r])
  {
    var n := |trace| - 1;
    if r < n {
      EpisodesFaithfulAt(s, at, autonomy[..n], trace[..n], r);
      assert autonomy[..n][r] == autonomy[r] && trace[..n][r] == trace[r];
    }
  }

  /** The N episodes and their `wait_for_rollout` flags are what `rollout` produces from cursor `at`. */
  predicate RolloutFaithful(s: Setup, at: Cursor, autonomy: seq<bool>, trace: seq<seq<Step>>) {
    |trace| == s.N && EpisodesFaithful(s, at, autonomy, trace)
  }

  /** What a step adds to the dataset: a full record when it is not done, nothing otherwise. */
  function Keep(d: Dataset, e: Step): Dataset {
    if e.result.done then d else Record(d, e.result.obs, e.target, e.action, e.result.reward)
  }

  /** The dataset after keeping the steps in order. */
  function Collect(d: Dataset, steps: seq<Step>): Dataset {
    if steps == [] then d else Keep(Collect(d, steps[..|steps| - 1]), steps[|steps| - 1])
  }

  /** The dataset after keeping the steps of each episode in order. */
  function CollectEpisodes(d: Dataset, eps: seq<seq<Step>>): Dataset {
    if eps == [] then d else Collect(CollectEpisodes(d, eps[..|eps| - 1]), eps[|eps| - 1])
  }

  /** Collecting one more step is keeping it after the others. */
  lemma CollectSnoc(d: Dataset, steps: seq<Step>, e: Step)
    ensures Collect(d, steps + [e]) == Keep(Collect(d, steps), e)
  {
    assert (steps + [e])[..|steps|] == steps;
  }

  /** Collecting one more episode is collecting its steps after the others. */
  lemma CollectEpisodesSnoc(d: Dataset, eps: seq<seq<Step>>, ep: seq<Step>)
    ensures CollectEpisodes(d, eps + [ep]) == Collect(CollectEpisodes(d, eps), ep)
  {
    assert (eps + [ep])[..|eps|] == eps;
  }

  /** Appending a step that is faithful at its position keeps the steps faithful. */
  lemma StepsSnoc(s: Setup, w: nat, base: nat, ep: seq<Step>, e: Step)
    requires StepsFaithful(s, w, base, ep)
    requires StepFaithful(s, base, |ep|, e)
    requires e.obs == ObservedBefore(s, w, base, ep, |ep|)
    requires e.result == s.sys.reply(w, Targets(ep) + [e.target])
    ensures StepsFaithful(s, w, base, ep + [e])
  {
    assert (ep + [e])[..|ep|] == ep;
  }

  /** The number of draws taken before episode r of a rollout that starts at `at`. */
  function EpisodeBase(s: Setup, at: Cursor, r: nat): nat {
    if r == 0 then at.draws else EpisodeBase(s, at, r - 1) + PerEpisode(s)
  }

  /**
   * Episode r starts after r episodes' worth of draws: none without mixing,
   * r with one decision per rollout, r * (T + 1) with one per step as well.
   */
  lemma {:induction false} EpisodeBaseIsLinear(s: Setup, at: Cursor, r: nat)
    ensures EpisodeBase(s, at, r) == at.draws + r * PerEpisode(s)
  {
    if r > 0 {
      EpisodeBaseIsLinear(s, at, r - 1);
      assert r * PerEpisode(s) == (r - 1) * PerEpisode(s) + PerEpisode(s);
    }
  }

  /** Appending a faithful episode keeps the earlier episodes faithful. */
  lemma EpisodesSnoc(s: Setup, at: Cursor, autonomy: seq<bool>, trace: seq<seq<Step>>, w: nat, base: nat, a: bool, ep: seq<Step>)
    requires EpisodesFaithful(s, at, autonomy, trace)
    requires w == at.episodes + |trace| && base == EpisodeBase(s, at, |trace|)
    requires a == StartsAutonomous(s, base)
    requires EpisodeFaithful(s, w, base, ep)
    ensures EpisodesFaithful(s, at, autonomy + [a], trace + [ep])
  {
    assert (autonomy + [a])[..|trace|] == autonomy && (trace + [ep])[..|trace|] == trace;
  }

  /**
   * Appends every `(field, value)` pair of `obs` to its field's list
   * (the loop at imitation_learning/dagger.py:39-40).
   */
  method AppendObservation(columns: map<Field, seq<Value>>, obs: Obs) returns (result: map<Field, seq<Value>>)
    ensures result == AppendFields(columns, obs)
  {
    result := columns;
    for i := 0 to |obs|
      invariant result == AppendFields(columns, obs[..i])
    {
      assert obs[..i + 1][..i] == obs[..i];
      var (field, value) := obs[i];
      result := result[field := Column(result, field) + [value]];
    }
    assert obs[..|obs|] == obs;
  }

  /**
   * One mixing decision (imitation_learning/dagger.py:23 and 34): a draw is
   * taken from the random stream only when mixing is on.
   */
  method Decide(s: Setup, k: nat) returns (byExpert: bool)
    ensures byExpert == ExpertDrives(s, k)
  {
    byExpert := false;
    if Mixes(s) {
      byExpert := s.rand(k) < s.mixing;
    }
  }

  /**
   * One episode of `rollout` (imitation_learning/dagger.py:23-43): the
   * decision at its start, the `wait_for_rollout` flag, then T steps, each
   * recorded into `data` unless done. `base` counts the draws taken before it.
   */
  method RunEpisode(s: Setup, w: nat, base: nat, data: Dataset)
    returns (ep: seq<Step>, autonomous: bool, result: Dataset, draws: nat)
    ensures EpisodeFaithful(s, w, base, ep)
    ensures autonomous == StartsAutonomous(s, base)
    ensures result == Collect(data, ep)
    ensures draws == base + PerEpisode(s)
  {
    var mix := Mixes(s);
    draws := base;
    var byExpert := Decide(s, draws);
    if mix {
      draws := draws + 1;
    }
    autonomous := !byExpert || s.expert.value.autonomous;
    var obs := s.sys.start(w, autonomous);
    var sent: seq<Action> := [];
    ep, result := [], data;
    for t := 0 to s.T
      invariant |ep| == t
      invariant draws == base + (if mix then 1 + (if s.mixWithin then t else 0) else 0)
      invariant !s.mixWithin ==> byExpert == ExpertDrives(s, base)
      invariant StepsFaithful(s, w, base, ep)
      invariant sent == Targets(ep)
      invariant obs == ObservedBefore(s, w, base, ep, t)
      invariant result == Collect(data, ep)
    {
      if s.mixWithin {
        byExpert := Decide(s, draws);
        if mix {
          draws := draws + 1;
        }
      }
      var e;
      e, result := RunStep(s, w, base, t, obs, byExpert, sent, result);
      CollectSnoc(data, ep, e);
      StepsSnoc(s, w, base, ep, e);
      sent := sent + [e.target];
      assert Targets(ep + [e]) == sent;
      ep := ep + [e];
      obs := e.result.obs;
    }
  }

  /**
   * One step of an episode (imitation_learning/dagger.py:35-43): the policy's
   * action, the target chosen by the step's decision, the system's reply to
   * it, and the record kept when the reply is not done.
   */
  method RunStep(s: Setup, w: nat, base: nat, t: nat, obs: Obs, byExpert: bool, sent: seq<Action>, before: Dataset)
    returns (e: Step, after: Dataset)
    requires byExpert == ExpertDrives(s, DecidingDraw(s, base, t))
    ensures StepFaithful(s, base, t, e)
    ensures e.obs == obs && e.result == s.sys.reply(w, sent + [e.target])
    ensures after == Keep(before, e)
  {
    var action := s.policy(obs);
    var target := if !byExpert then action else s.expert.value.action(obs);
    var reply := s.sys.reply(w, sent + [target]);
    after := before;
    if !reply.done {
      var columns := AppendObservation(before.observations, reply.obs);
      after := Dataset(columns, before.targets + [target], before.actions + [action], before.rewards + [reply.reward]);
    }
    e := Step(obs, action, byExpert, target, reply);
  }

  /**
   * `rollout` (imitation_learning/dagger.py:9-48): N episodes of T steps. The
   * dataset holds a record for exactly the steps that were not done; a done step
   * is skipped but does not end the episode. Also returns the flag of each
   * `wait_for_rollout` call, the steps themselves and the advanced cursor.
   */
  method Rollout(s: Setup, at: Cursor)
    returns (data: Dataset, autonomy: seq<bool>, trace: seq<seq<Step>>, next: Cursor)
    ensures RolloutFaithful(s, at, autonomy, trace)
    ensures next == Cursor(at.episodes + s.N, EpisodeBase(s, at, s.N))
    ensures data == CollectEpisodes(Empty, trace)
  {
    data, autonomy, trace := Empty, [], [];
    var draws := at.draws;
    for r := 0 to s.N
      invariant |trace| == r
      invariant draws == EpisodeBase(s, at, r)
      invariant EpisodesFaithful(s, at, autonomy, trace)
      invariant data == CollectEpisodes(Empty, trace)
    {
      var ep, autonomous, base := [], false, draws;
      ep, autonomous, data, draws := RunEpisode(s, at.episodes + r, base, data);
      EpisodesSnoc(s, at, autonomy, trace, at.episodes + r, base, autonomous, ep);
      CollectEpisodesSnoc(Empty, trace, ep);
      trace := trace + [ep];
      autonomy := autonomy + [autonomous];
    }
    next := Cursor(at.episodes + s.N, draws);
  }

  /**
   * `test_policy_sys` (imitation_learning/dagger.py:51-59) as far as it is
   * modelled: a rollout with no expert, so the policy drives every step, no
   * random draw is taken and every recorded target is the recorded action.
   */
  method TestPolicy(sys: System, policy: Policy, T: nat, N: nat, rand: nat -> real, at: Cursor)
    returns (data: Dataset, autonomy: seq<bool>, trace: seq<seq<Step>>, next: Cursor, raised: bool)
    ensures RolloutFaithful(Setup(sys, policy, T, N, None, 0.0, false, rand), at, autonomy, trace)
    ensures data == CollectEpisodes(Empty, trace)
    ensures next == Cursor(at.episodes + N, at.draws)
    ensures data.targets == data.actions
    ensures raised <==> StatisticsRaise(data, N)
    ensures raised <==> |Live(Flatten(trace))| < N
  {
    var s := Setup(sys, policy, T, N, None, 0.0, false, rand);
    data, autonomy, trace, next := Rollout(s, at);
    EpisodeBaseIsLinear(s, at, N);
    NoMixingRecordsLearnerActions(s, at, autonomy, trace, data);
    raised := StatisticsRaise(data, N);
    TestRaisesWhenShort(s, at, autonomy, trace, data);
  }

  /**
   * The reward statistics of `test_policy_sys` (imitation_learning/dagger.py:55)
   * read `data['rewards'][roll]` for every rollout number `roll` below N, so
   * they raise IndexError when fewer than N rewards were recorded.
   */
  predicate StatisticsRaise(data: Dataset, N: nat) {
    |data.rewards| < N
  }

  lemma {:induction false} RewardsLength(steps: seq<Step>)
    ensures |Rewards(steps)| == |steps|
  {
    if steps != [] {
      RewardsLength(steps[..|steps| - 1]);
    }
  }

  /**
   * A test's statistics raise exactly when it recorded fewer live steps than
   * rollouts; with no timestep at all, a test of one or more rollouts always raises.
   */
  lemma TestRaisesWhenShort(s: Setup, at: Cursor, autonomy: seq<bool>, trace: seq<seq<Step>>, data: Dataset)
    requires RolloutFaithful(s, at, autonomy, trace)
    requires data == CollectEpisodes(Empty, trace)
    ensures StatisticsRaise(data, s.N) <==> |Live(Flatten(trace))| < s.N
    ensures s.T == 0 && s.N > 0 ==> StatisticsRaise(data, s.N)
  {
    RolloutRecordsLiveSteps(s, at, autonomy, trace, data);
    RewardsLength(Live(Flatten(trace)));
  }

  // ---------------------------------------------------------------------------
  // What a rollout records

  /** The steps whose `step` call returned done = false, in order. */
  function Live(steps: seq<Step>): seq<Step> {
    if steps == [] then []
    else Live(steps[..|steps| - 1]) + (if steps[|steps| - 1].result.done then [] else [steps[|steps| - 1]])
  }

  /** The targets sent in the steps, in order. */
  function Targets(steps: seq<Step>): seq<Action> {
    if steps == [] then [] else Targets(steps[..|steps| - 1]) + [steps[|steps| - 1].target]
  }

  function Actions(steps: seq<Step>): seq<Action> {
    if steps == [] then [] else Actions(steps[..|steps| - 1]) + [steps[|steps| - 1].action]
  }

  function Rewards(steps: seq<Step>): seq<real> {
    if steps == [] then [] else Rewards(steps[..|steps| - 1]) + [steps[|steps| - 1].result.reward]
  }

  /** The values the steps' returned observations carry for `f`, step after step. */
  function FieldColumn(steps: seq<Step>, f: Field): seq<Value> {
    if steps == [] then [] else FieldColumn(steps[..|steps| - 1], f) + ValuesOf(steps[|steps| - 1].result.obs, f)
  }

  /** The fields the steps' returned observations mention. */
  function SeenFields(steps: seq<Step>): set<Field> {
    if steps == [] then {} else SeenFields(steps[..|steps| - 1]) + FieldsOf(steps[|steps| - 1].result.obs)
  }

  /** All the steps of all the episodes, in order. */
  function Flatten(eps: seq<seq<Step>>): seq<Step> {
    if eps == [] then [] else Flatten(eps[..|eps| - 1]) + eps[|eps| - 1]
  }

  lemma ProjectionsSnoc(steps: seq<Step>, e: Step)
    ensures Targets(steps + [e]) == Targets(steps) + [e.target]
    ensures Actions(steps + [e]) == Actions(steps) + [e.action]
    ensures Rewards(steps + [e]) == Rewards(steps) + [e.result.reward]
    ensures SeenFields(steps + [e]) == SeenFields(steps) + FieldsOf(e.result.obs)
    ensures forall f :: FieldColumn(steps + [e], f) == FieldColumn(steps, f) + ValuesOf(e.result.obs, f)
  {
    assert (steps + [e])[..|steps|] == steps;
  }

  /**
   * The dataset holds exactly the non-done steps, in order: their targets,
   * learner actions and rewards (imitation_learning/dagger.py:38, 41-43).
   */
  lemma {:induction false} CollectRecordsLiveSteps(d: Dataset, steps: seq<Step>)
    ensures Collect(d, steps).targets == d.targets + Targets(Live(steps))
    ensures Collect(d, steps).actions == d.actions + Actions(Live(steps))
    ensures Collect(d, steps).rewards == d.rewards + Rewards(Live(steps))
  {
    if steps != [] {
      var init, e := steps[..|steps| - 1], steps[|steps| - 1];
      CollectRecordsLiveSteps(d, init);
      var r, c, live := Collect(d, init), Collect(d, steps), Live(init);
      if e.result.done {
        assert c == r;
        assert Live(steps) == live + [] == live;
      } else {
        assert c.targets == r.targets + [e.target];
        assert c.actions == r.actions + [e.action];
        assert c.rewards == r.rewards + [e.result.reward];
        assert Live(steps) == live + [e];
        ProjectionsSnoc(live, e);
      }
    }
  }

  /**
   * Each field's list gains the values of that field from the non-done steps'
   * returned observations, in order, and nothing else
   * (imitation_learning/dagger.py:38-40).
   */
  lemma {:induction false} CollectRecordsLiveFields(d: Dataset, steps: seq<Step>)
    ensures Collect(d, steps).observations.Keys == d.observations.Keys + SeenFields(Live(steps))
    ensures forall f :: Column(Collect(d, steps).observations, f) == Column(d.observations, f) + FieldColumn(Live(steps), f)
  {
    if steps != [] {
      var init, e := steps[..|steps| - 1], steps[|steps| - 1];
      CollectRecordsLiveFields(d, init);
      if e.result.done {
        assert Collect(d, steps) == Collect(d, init);
        assert Live(steps) == Live(init) + [];
        assert Live(init) + [] == Live(init);
      } else {
        var before := Collect(d, init).observations;
        ProjectionsSnoc(Live(init), e);
        AppendFieldsAdds(before, e.result.obs);
        assert Collect(d, steps).observations == AppendFields(before, e.result.obs);
        assert Live(steps) == Live(init) + [e];
      }
    }
  }

  /** Filtering done steps distributes over concatenation. */
  lemma {:induction false} LiveAppend(a: seq<Step>, b: seq<Step>)
    ensures Live(a + b) == Live(a) + Live(b)
  {
    if b == [] {
      assert a + b == a;
    } else {
      assert (a + b)[..|a + b| - 1] == a + b[..|b| - 1];
      LiveAppend(a, b[..|b| - 1]);
    }
  }

  /**
   * Step k contributes one record, at its place, exactly when it is not done;
   * a done step does not stop the later steps from being recorded.
   */
  lemma {:induction false} LiveAt(steps: seq<Step>, k: nat)
    requires k < |steps|
    ensures Live(steps) == Live(steps[..k]) + (if steps[k].result.done then [] else [steps[k]]) + Live(steps[k + 1..])
  {
    var a, e, b := steps[..k], steps[k], steps[k + 1..];
    assert steps == (a + [e]) + b;
    LiveAppend(a + [e], b);
    LiveAppend(a, [e]);
    assert [e][..0] == [];
    assert Live([e]) == Live([]) + (if e.result.done then [] else [e]);
    assert Live(steps) == Live(a) + Live([e]) + Live(b);
  }

  /** Keeping `b` after `a` is keeping `a + b`. */
  lemma {:induction false} CollectAppend(d: Dataset, a: seq<Step>, b: seq<Step>)
    ensures Collect(d, a + b) == Collect(Collect(d, a), b)
  {
    if b == [] {
      assert a + b == a;
    } else {
      assert (a + b)[..|a + b| - 1] == a + b[..|b| - 1];
      CollectAppend(d, a, b[..|b| - 1]);
    }
  }

  /** Collecting episode by episode is collecting all their steps in order. */
  lemma {:induction false} CollectEpisodesFlat(d: Dataset, eps: seq<seq<Step>>)
    ensures CollectEpisodes(d, eps) == Collect(d, Flatten(eps))
  {
    if eps != [] {
      CollectEpisodesFlat(d, eps[..|eps| - 1]);
      CollectAppend(d, Flatten(eps[..|eps| - 1]), eps[|eps| - 1]);
    }
  }

  /** N episodes of T steps make N * T steps. */
  lemma {:induction false} FlattenLength(eps: seq<seq<Step>>, T: nat)
    requires forall r :: 0 <= r < |eps| ==> |eps[r]| == T
    ensures |Flatten(eps)| == |eps| * T
  {
    if eps != [] {
      FlattenLength(eps[..|eps| - 1], T);
      assert |eps| * T == (|eps| - 1) * T + T;
    }
  }

  /**
   * A rollout's dataset is exactly its non-done steps: `targets`, `actions`
   * and `rewards` each have one entry per such step, so at most N * T entries,
   * and each field's list has that field's values from those steps' returned
   * observations (imitation_learning/dagger.py:31, 37-43).
   */
  lemma RolloutRecordsLiveSteps(s: Setup, at: Cursor, autonomy: seq<bool>, trace: seq<seq<Step>>, data: Dataset)
    requires RolloutFaithful(s, at, autonomy, trace)
    requires data == CollectEpisodes(Empty, trace)
    ensures var live := Live(Flatten(trace));
      && data.targets == Targets(live) && data.actions == Actions(live) && data.rewards == Rewards(live)
      && |data.targets| == |live| <= s.N * s.T
      && data.observations.Keys == SeenFields(live)
      && forall f :: Column(data.observations, f) == FieldColumn(live, f)
  {
    CollectEpisodesFlat(Empty, trace);
    CollectRecordsLiveSteps(Empty, Flatten(trace));
    CollectRecordsLiveFields(Empty, Flatten(trace));
    forall r | 0 <= r < |trace| ensures |trace[r]| == s.T {
      EpisodesFaithfulAt(s, at, autonomy, trace, r);
    }
    FlattenLength(trace, s.T);
    LiveLength(Flatten(trace));
    TargetsLength(Live(Flatten(trace)));
  }

  lemma {:induction false} TargetsLength(steps: seq<Step>)
    ensures |Targets(steps)| == |steps|
  {
    if steps != [] { TargetsLength(steps[..|steps| - 1]); }
  }

  /** At most every step is recorded. */
  lemma {:induction false} LiveLength(steps: seq<Step>)
    ensures |Live(steps)| <= |steps|
  {
    if steps != [] { LiveLength(steps[..|steps| - 1]); }
  }

  /** Keeping steps whose target is the learner's action keeps `targets` equal to `actions`. */
  lemma {:induction false} CollectLearnerTargets(d: Dataset, steps: seq<Step>)
    requires d.targets == d.actions
    requires forall i :: 0 <= i < |steps| ==> steps[i].target == steps[i].action
    ensures Collect(d, steps).targets == Collect(d, steps).actions
  {
    if steps != [] {
      CollectLearnerTargets(d, steps[..|steps| - 1]);
    }
  }

  /**
   * With no expert, or a mixing probability of 0, no step is driven by the
   * expert and every recorded target is the recorded learner action
   * (imitation_learning/dagger.py:20, 23, 36).
   */
  lemma NoMixingRecordsLearnerActions(s: Setup, at: Cursor, autonomy: seq<bool>, trace: seq<seq<Step>>, data: Dataset)
    requires !Mixes(s)
    requires EpisodesFaithful(s, at, autonomy, trace)
    requires data == CollectEpisodes(Empty, trace)
    ensures forall r, t :: 0 <= r < |trace| && 0 <= t < |trace[r]| ==> !trace[r][t].byExpert
    ensures data.targets == data.actions
  {
    forall r, t | 0 <= r < |trace| && 0 <= t < |trace[r]| ensures !trace[r][t].byExpert {
      EpisodesFaithfulAt(s, at, autonomy, trace, r);
      StepsFaithfulAt(s, at.episodes + r, EpisodeBase(s, at, r), trace[r], t);
    }
    NoMixingTargets(s, at, autonomy, trace);
  }

  /** Without mixing, the data of faithful episodes has the learner's actions as its targets. */
  lemma {:induction false} NoMixingTargets(s: Setup, at: Cursor, autonomy: seq<bool>, trace: seq<seq<Step>>)
    requires !Mixes(s)
    requires EpisodesFaithful(s, at, autonomy, trace)
    ensures CollectEpisodes(Empty, trace).targets == CollectEpisodes(Empty, trace).actions
  {
    if trace != [] {
      var n := |trace| - 1;
      NoMixingTargets(s, at, autonomy[..n], trace[..n]);
      var ep := trace[n];
      forall i | 0 <= i < |ep| ensures ep[i].target == ep[i].action {
        StepsFaithfulAt(s, at.episodes + n, EpisodeBase(s, at, n), ep, i);
      }
      CollectLearnerTargets(CollectEpisodes(Empty, trace[..n]), ep);
    }
  }

  /** An observation that carries exactly the fields `fields`, each once. */
  predicate Uniform(obs: Obs, fields: set<Field>) {
    FieldsOf(obs) == fields && forall f :: f in fields ==> |ValuesOf(obs, f)| == 1
  }

  /** Keeping steps whose returned observations are uniform keeps the dataset aligned. */
  lemma {:induction false} CollectAligned(d: Dataset, steps: seq<Step>, fields: set<Field>)
    requires Aligned(d, fields)
    requires forall i :: 0 <= i < |steps| && !steps[i].result.done ==> Uniform(steps[i].result.obs, fields)
    ensures Aligned(Collect(d, steps), fields)
  {
    if steps != [] {
      var init, e := steps[..|steps| - 1], steps[|steps| - 1];
      assert forall i :: 0 <= i < |init| ==> init[i] == steps[i];
      CollectAligned(d, init, fields);
      if !e.result.done {
        assert Uniform(e.result.obs, fields);
        AppendFieldsAdds(Collect(d, init).observations, e.result.obs);
      }
    }
  }

  /**
   * If every observation the system returns on a non-done step carries the
   * same fields once each, every field's list of the rollout's dataset is as
   * long as `targets`, `actions` and `rewards` (imitation_learning/dagger.py:39-43).
   */
  lemma {:induction false} RolloutAligned(s: Setup, at: Cursor, autonomy: seq<bool>, trace: seq<seq<Step>>, data: Dataset, fields: set<Field>)
    requires EpisodesFaithful(s, at, autonomy, trace)
    requires data == CollectEpisodes(Empty, trace)
    requires forall w, sent :: !s.sys.reply(w, sent).done ==> Uniform(s.sys.reply(w, sent).obs, fields)
    ensures Aligned(data, fields)
  {
    if trace != [] {
      var n := |trace| - 1;
      RolloutAligned(s, at, autonomy[..n], trace[..n], CollectEpisodes(Empty, trace[..n]), fields);
      var ep := trace[n];
      forall i | 0 <= i < |ep| && !ep[i].result.done ensures Uniform(ep[i].result.obs, fields) {
        StepsFaithfulAt(s, at.episodes + n, EpisodeBase(s, at, n), ep, i);
      }
      CollectAligned(CollectEpisodes(Empty, trace[..n]), ep, fields);
    }
  }

  /**
   * With an expert and a mixing probability of 1.0, every draw in [0, 1) is
   * below it: the expert drives every step and every target is the expert's
   * action on that step's observation, whatever the learner proposed.
   */
  lemma ExpertForcedDrivesEveryStep(s: Setup, at: Cursor, autonomy: seq<bool>, trace: seq<seq<Step>>)
    requires s.expert.Some? && s.mixing == 1.0
    requires forall k :: 0.0 <= s.rand(k) < 1.0
    requires EpisodesFaithful(s, at, autonomy, trace)
    ensures forall r, t :: 0 <= r < |trace| && 0 <= t < |trace[r]| ==>
      trace[r][t].byExpert && trace[r][t].target == s.expert.value.action(trace[r][t].obs)
  {
    forall r, t | 0 <= r < |trace| && 0 <= t < |trace[r]|
      ensures trace[r][t].byExpert && trace[r][t].target == s.expert.value.action(trace[r][t].obs)
    {
      EpisodesFaithfulAt(s, at, autonomy, trace, r);
      StepsFaithfulAt(s, at.episodes + r, EpisodeBase(s, at, r), trace[r], t);
    }
  }

  /**
   * Without `mix_within_rollout` the decision drawn at the start of an episode
   * drives all of its steps; with it, each step has a draw of its own, taken
   * after the episode's first.
   */
  lemma ChoiceGranularity(s: Setup, at: Cursor, autonomy: seq<bool>, trace: seq<seq<Step>>, r: nat, t: nat)
    requires EpisodesFaithful(s, at, autonomy, trace)
    requires r < |trace| && t < |trace[r]|
    ensures !s.mixWithin ==> trace[r][t].byExpert == ExpertDrives(s, EpisodeBase(s, at, r))
    ensures !s.mixWithin && !s.expert.Some? ==> !trace[r][t].byExpert && autonomy[r]
    ensures s.mixWithin ==> trace[r][t].byExpert == ExpertDrives(s, EpisodeBase(s, at, r) + 1 + t)
  {
    var base := EpisodeBase(s, at, r);
    EpisodesFaithfulAt(s, at, autonomy, trace, r);
    StepsFaithfulAt(s, at.episodes + r, base, trace[r], t);
    assert trace[r][t].byExpert == ExpertDrives(s, DecidingDraw(s, base, t));
  }

  // ---------------------------------------------------------------------------
  // Lines 23-24 and 34 as written

  /**
   * The decision at imitation_learning/dagger.py:23 and :34 as written:
   * `np.random.random < mixing` compares the function object itself with a
   * number. Python 2 orders every number below every other object, so the
   * test is false and the learner drives whatever the draw and the mixing
   * probability (Python 3 raises TypeError instead). ExpertDrives is the intent.
   */
  function LearnerDrivesAsWritten(mix: bool, mixing: real): (useLearner: bool)
    ensures useLearner
  {
    var functionBelowNumber := false;
    !(mix && functionBelowNumber)
  }

  /** A draw the intended rule hands to the expert is still driven by the learner as written. */
  lemma ExpertNeverDrivesAsWritten(s: Setup, k: nat)
    requires s.expert.Some? && s.mixing == 1.0 && 0.0 <= s.rand(k) < 1.0
    ensures ExpertDrives(s, k)
    ensures LearnerDrivesAsWritten(Mixes(s), s.mixing)
  {
  }

  /**
   * The flag at imitation_learning/dagger.py:24 as written:
   * `use_imlearn or expert.autonomous` reads the bound method without calling
   * it, and a bound method is always true. StartsAutonomous is the intent.
   */
  function StartsAutonomousAsWritten(useLearner: bool, expert: Option<Expert>): (autonomous: bool)
    requires useLearner || expert.Some?
    ensures autonomous
  {
    useLearner || expert.Some?
  }

  /** An expert that needs supervision is still announced as autonomous as written. */
  lemma SupervisedExpertAsWritten(s: Setup, base: nat)
    requires s.expert.Some? && !s.expert.value.autonomous && ExpertDrives(s, base)
    ensures !StartsAutonomous(s, base)
    ensures StartsAutonomousAsWritten(false, s.expert)
  {
  }
}
