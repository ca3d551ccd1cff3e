/**
 * The DAgger driver, `dagger` (imitation_learning/dagger.py:90-240): optional
 * tests of the expert and of the initial policy, optional pretraining on
 * expert rollouts, then `iterations` rounds of mixed rollouts, dataset
 * aggregation, refitting and optional testing, and an optional final test.
 *
 * The learner is an abstract state `L` with its `fit` and `get_policy` given
 * as functions. Saving is recorded in a log of events instead of files; the
 * timestamp a save reads is `clock(i)`, `i` being the position of the event
 * it produces in the log.
 */
module Driver {
  import opened Basics
  import opened Data
  import opened Naming
  import opened Rollouts

  /** Keyword arguments handed through to the learner's `fit`. */
  type FitOptions = map<string, string>

  /** The learner's `fit`: the learner after fitting on observations and targets, with optional keyword arguments. */
  type Trainer<!L> = (L, map<Field, seq<Value>>, seq<Action>, Option<FitOptions>) -> L

  /** The keyword `options` of `dagger` (imitation_learning/dagger.py:142-234); None is a missing key. */
  datatype Options = Options(
    dataSavePath: Option<string>,       // 'data_save_path'
    modelSavePath: Option<string>,      // 'model_save_path'
    testT: Option<nat>,                 // 'T_test'
    testN: Option<nat>,                 // 'n_roll_test'
    initialT: Option<nat>,              // 'timesteps_initial'
    initialN: Option<nat>,              // 'rollouts_initial'
    pretrainT: Option<nat>,             // 'timesteps_pretrain'
    pretrainN: Option<nat>,             // 'rollouts_pretrain'
    pretrainFit: Option<FitOptions>,    // 'options_pretrain'
    trainFit: Option<FitOptions>,       // 'options_train'
    mixWithinRollout: Option<bool>,     // 'mix_within_rollout'
    finalT: Option<nat>,                // 'timesteps_final'
    finalN: Option<nat>)                // 'rollouts_final'

  /** The arguments of `dagger`; `loaded` is the content of the `loaded_data` file, if one is given. */
  datatype Config = Config(
    T: nat, N: nat, iterations: nat, mixingRate: real, loaded: Option<Dataset>,
    pretrain: bool, testExpert: bool, testInitial: bool, testPolicy: bool, testFinal: bool,
    options: Options)

  function TestT(c: Config): nat { c.options.testT.GetOr(c.T) }
  function TestN(c: Config): nat { c.options.testN.GetOr(c.N) }
  function InitialT(c: Config): nat { c.options.initialT.GetOr(c.T) }
  function InitialN(c: Config): nat { c.options.initialN.GetOr(c.N) }
  function PretrainT(c: Config): nat { c.options.pretrainT.GetOr(c.T) }
  function PretrainN(c: Config): nat { c.options.pretrainN.GetOr(c.N) }
  function FinalT(c: Config): nat { c.options.finalT.GetOr(c.T) }
  function FinalN(c: Config): nat { c.options.finalN.GetOr(c.N) }
  function MixWithin(c: Config): bool { c.options.mixWithinRollout.GetOr(true) }

  /**
   * The dataset before any rollout: the loaded one, or an empty one. The
   * source's empty dataset has the key 'targets:' (imitation_learning/dagger.py:166);
   * here it has a `targets` list, as the rest of the loop uses.
   */
  function Init(c: Config): Dataset { c.loaded.GetOr(Empty) }

  /** How many fits come before the first DAgger iteration's: one when pretraining. */
  function Offset(c: Config): nat { if c.pretrain then 1 else 0 }

  /** The keyword arguments of fit number j. */
  function FitOptionsAt(c: Config, j: nat): Option<FitOptions> {
    if j < Offset(c) then c.options.pretrainFit else c.options.trainFit
  }

  /** The arguments of a `test_policy_sys` call: a rollout with no expert and no mixing. */
  function TestSetup(sys: System, policy: Policy, T: nat, N: nat, rand: nat -> real): Setup {
    Setup(sys, policy, T, N, None, 0.0, false, rand)
  }

  /** One `rollout` call: its arguments, its starting cursor, and what it did. */
  datatype Run = Run(setup: Setup, at: Cursor, autonomy: seq<bool>, trace: seq<seq<Step>>)

  predicate Faithful(run: Run) {
    RolloutFaithful(run.setup, run.at, run.autonomy, run.trace)
  }

  /** Where the system's episodes and the random draws stand after a run. */
  function End(run: Run): Cursor {
    Cursor(run.at.episodes + run.setup.N, EpisodeBase(run.setup, run.at, run.setup.N))
  }

  /** The data a run returns. */
  function Batch(run: Run): Dataset {
    CollectEpisodes(Empty, run.trace)
  }

  /**
   * What `dagger` does that outlives it: the rollouts that train the learner,
   * the policy tests, the data saves and the model saves.
   */
  datatype Event<L> =
    | RolledOut(run: Run)
    | Tested(kind: string, run: Run)
    | DataSaved(file: string, prefix: Option<string>, suffix: Option<string>, data: Dataset)
    | ModelSaved(dir: string, name: string, learner: L)

  /**
   * Where the system's episodes and the random draws stand after the runs of
   * the log, counting from the start of `dagger`.
   */
  function Reached<L>(log: seq<Event<L>>): Cursor {
    if log == [] then Cursor(0, 0)
    else match log[|log| - 1]
      case RolledOut(run) => End(run)
      case Tested(_, run) => End(run)
      case _ => Reached(log[..|log| - 1])
  }

  /**
   * A run was faithful and began where the runs before it left the system and
   * the draws; a save used the name built from the configured path and its
   * timestamp.
   */
  predicate EventSound<L>(e: Event<L>, o: Options, stamp: string, from: Cursor) {
    match e
    case RolledOut(run) => Faithful(run) && run.at == from
    case Tested(_, run) => Faithful(run) && run.at == from
    case DataSaved(file, prefix, suffix, _) => DataFile(o.dataSavePath, stamp, prefix, suffix) == Some(file)
    case ModelSaved(dir, name, _) => ModelTarget(o.modelSavePath, stamp) == Some((dir, name))
  }

  /** Every event of the log is sound, event i reading the timestamp clock(i) and following the runs before it. */
  predicate Sound<L>(log: seq<Event<L>>, o: Options, clock: nat -> string) {
    log == [] || (Sound(log[..|log| - 1], o, clock) && EventSound(log[|log| - 1], o, clock(|log| - 1), Reached(log[..|log| - 1])))
  }

  /** What soundness says about event i. */
  lemma {:induction false} SoundAt<L>(log: seq<Event<L>>, o: Options, clock: nat -> string, i: nat)
    requires Sound(log, o, clock)
    requires i < |log|
    ensures EventSound(log[i], o, clock(i), Reached(log[..i]))
  {
    if i < |log| - 1 {
      var prefix := log[..|log| - 1];
      SoundAt(prefix, o, clock, i);
      assert prefix[i] == log[i] && prefix[..i] == log[..i];
    }
  }

  /** A sound event appended at the end keeps the log sound. */
  lemma SoundSnoc<L>(log: seq<Event<L>>, o: Options, clock: nat -> string, e: Event<L>)
    requires Sound(log, o, clock)
    requires EventSound(e, o, clock(|log|), Reached(log))
    ensures Sound(log + [e], o, clock)
  {
    assert (log + [e])[..|log|] == log;
  }

  /** A run appended at the end moves the cursor to the run's end; any other event leaves it. */
  lemma ReachedSnoc<L>(log: seq<Event<L>>, e: Event<L>)
    ensures Reached(log + [e]) == if e.RolledOut? || e.Tested? then End(e.run) else Reached(log)
  {
    assert (log + [e])[..|log|] == log;
  }

  /** `save_data` (imitation_learning/dagger.py:62-75): one event when a path is configured, none otherwise. */
  function SaveData<L>(log: seq<Event<L>>, path: Option<string>, clock: nat -> string,
                       data: Dataset, prefix: Option<string>, suffix: Option<string>): seq<Event<L>> {
    match DataFile(path, clock(|log|), prefix, suffix)
    case None => log
    case Some(file) => log + [DataSaved(file, prefix, suffix, data)]
  }

  /** `save_model` (imitation_learning/dagger.py:78-87): one event when a path is configured, none otherwise. */
  function SaveModel<L>(log: seq<Event<L>>, path: Option<string>, clock: nat -> string, learner: L): seq<Event<L>> {
    match ModelTarget(path, clock(|log|))
    case None => log
    case Some((dir, name)) => log + [ModelSaved(dir, name, learner)]
  }

  // ---------------------------------------------------------------------------
  // Views of the log

  /** A run as the view shows it: a training rollout in full, a test by its kind and its arguments. */
  datatype Activity = Training(run: Run) | Testing(kind: string, setup: Setup)

  /** An event as the order of the log shows it: a rollout, a test of a kind, a data save with its tags, a model save. */
  datatype Mark = RunMark | TestMark(kind: string) | DataMark(prefix: Option<string>, suffix: Option<string>) | ModelMark

  /**
   * What the log shows, in order: the saved models, the data saved during
   * training, the runs (rollouts and tests, interleaved as they happened),
   * the suffixes of the data saved after tests, and the marks of all events,
   * which fix how the saves interleave with the runs.
   */
  datatype LogView<L> = LogView(models: seq<L>, training: seq<Dataset>, runs: seq<Activity>, suffixes: seq<Option<string>>,
                                order: seq<Mark>)

  /**
   * Where a data save shows: in the training data when it has no prefix or
   * the prefix 'pretrain'; otherwise it is a test's save, and its suffix shows.
   */
  function NoteData<L>(v: LogView<L>, prefix: Option<string>, suffix: Option<string>, data: Dataset): LogView<L> {
    var v' := v.(order := v.order + [DataMark(prefix, suffix)]);
    if prefix.None? || prefix == Some("pretrain") then v'.(training := v.training + [data])
    else v'.(suffixes := v.suffixes + [suffix])
  }

  function Note<L>(v: LogView<L>, e: Event<L>): LogView<L> {
    match e
    case RolledOut(run) => v.(runs := v.runs + [Training(run)], order := v.order + [RunMark])
    case Tested(kind, run) => v.(runs := v.runs + [Testing(kind, run.setup)], order := v.order + [TestMark(kind)])
    case DataSaved(_, prefix, suffix, data) => NoteData(v, prefix, suffix, data)
    case ModelSaved(_, _, learner) => AddModel(v, learner)
  }

  /** A saved model shows among the models and in the order. */
  function AddModel<L>(v: LogView<L>, learner: L): LogView<L> {
    v.(models := v.models + [learner], order := v.order + [ModelMark])
  }

  function ViewOf<L>(log: seq<Event<L>>): LogView<L> {
    if log == [] then LogView([], [], [], [], []) else Note(ViewOf(log[..|log| - 1]), log[|log| - 1])
  }

  /** The view after `save_data`: unchanged when no path is configured. */
  function AfterSaveData<L>(v: LogView<L>, path: Option<string>, prefix: Option<string>, suffix: Option<string>,
                            data: Dataset): LogView<L> {
    if path.Some? then NoteData(v, prefix, suffix, data) else v
  }

  /** The view after `save_model`: the learner added to the models when a path is configured. */
  function AfterSaveModel<L>(v: LogView<L>, path: Option<string>, learner: L): LogView<L> {
    if path.Some? then AddModel(v, learner) else v
  }

  lemma ViewSnoc<L>(log: seq<Event<L>>, e: Event<L>)
    ensures ViewOf(log + [e]) == Note(ViewOf(log), e)
  {
    assert (log + [e])[..|log|] == log;
  }

  /** The mark an event leaves in the order. */
  function MarkOf<L>(e: Event<L>): Mark {
    match e
    case RolledOut(_) => RunMark
    case Tested(kind, _) => TestMark(kind)
    case DataSaved(_, prefix, suffix, _) => DataMark(prefix, suffix)
    case ModelSaved(_, _, _) => ModelMark
  }

  /** The order of a view is the log itself, one mark per event, position by position. */
  lemma {:induction false} ViewOrderIsLog<L>(log: seq<Event<L>>)
    ensures |ViewOf(log).order| == |log|
    ensures forall i :: 0 <= i < |log| ==> ViewOf(log).order[i] == MarkOf(log[i])
  {
    if log != [] {
      var init := log[..|log| - 1];
      ViewOrderIsLog(init);
      assert ViewOf(log).order == ViewOf(init).order + [MarkOf(log[|log| - 1])];
    }
  }

  /** A `save_data` call shows in the view as AfterSaveData says, whatever name the file gets, and runs nothing. */
  lemma SaveDataView<L>(log: seq<Event<L>>, path: Option<string>, clock: nat -> string,
                        data: Dataset, prefix: Option<string>, suffix: Option<string>)
    ensures ViewOf(SaveData(log, path, clock, data, prefix, suffix)) == AfterSaveData(ViewOf(log), path, prefix, suffix, data)
    ensures Reached(SaveData(log, path, clock, data, prefix, suffix)) == Reached(log)
  {
    if path.Some? {
      var e := DataSaved(DataFile(path, clock(|log|), prefix, suffix).value, prefix, suffix, data);
      ViewSnoc(log, e);
      ReachedSnoc(log, e);
    }
  }

  /** A `save_model` call adds the saved learner to the models when a path is configured, shows nowhere else, and runs nothing. */
  lemma SaveModelView<L>(log: seq<Event<L>>, path: Option<string>, clock: nat -> string, learner: L)
    ensures ViewOf(SaveModel(log, path, clock, learner)) == AfterSaveModel(ViewOf(log), path, learner)
    ensures Reached(SaveModel(log, path, clock, learner)) == Reached(log)
  {
    if path.Some? {
      var (dir, name) := ModelTarget(path, clock(|log|)).value;
      ViewSnoc(log, ModelSaved(dir, name, learner));
      ReachedSnoc(log, ModelSaved(dir, name, learner));
    }
  }

  lemma SaveDataSound<L>(log: seq<Event<L>>, o: Options, clock: nat -> string,
                         data: Dataset, prefix: Option<string>, suffix: Option<string>)
    requires Sound(log, o, clock)
    ensures Sound(SaveData(log, o.dataSavePath, clock, data, prefix, suffix), o, clock)
  {
    if o.dataSavePath.Some? {
      SoundSnoc(log, o, clock, DataSaved(DataFile(o.dataSavePath, clock(|log|), prefix, suffix).value, prefix, suffix, data));
    }
  }

  lemma SaveModelSound<L>(log: seq<Event<L>>, o: Options, clock: nat -> string, learner: L)
    requires Sound(log, o, clock)
    ensures Sound(SaveModel(log, o.modelSavePath, clock, learner), o, clock)
  {
    if o.modelSavePath.Some? {
      var (dir, name) := ModelTarget(o.modelSavePath, clock(|log|)).value;
      SoundSnoc(log, o, clock, ModelSaved(dir, name, learner));
    }
  }

  // ---------------------------------------------------------------------------
  // What the tests save

  /** The kind and the data of every test in the log, in order. */
  function TestedData<L>(log: seq<Event<L>>): seq<(string, Dataset)> {
    if log == [] then []
    else TestedData(log[..|log| - 1]) + (match log[|log| - 1] case Tested(kind, run) => [(kind, Batch(run))] case _ => [])
  }

  /** The prefix and the data of every save of a test (a prefix other than none and 'pretrain'), in order. */
  function SavedTestData<L>(log: seq<Event<L>>): seq<(string, Dataset)> {
    if log == [] then []
    else SavedTestData(log[..|log| - 1]) + (match log[|log| - 1]
                                            case DataSaved(_, Some(kind), _, data) => if kind != "pretrain" then [(kind, data)] else []
                                            case _ => [])
  }

  /**
   * With a data path, the data of every test is saved under the test's kind,
   * in the order of the tests; without one, no test data is saved
   * (imitation_learning/dagger.py:152-153, 161-162, 225-227, 235-236).
   */
  predicate TestsSaved<L>(log: seq<Event<L>>, path: Option<string>) {
    SavedTestData(log) == if path.Some? then TestedData(log) else []
  }

  lemma TestDataSnoc<L>(log: seq<Event<L>>, e: Event<L>)
    ensures TestedData(log + [e]) == TestedData(log) + (if e.Tested? then [(e.kind, Batch(e.run))] else [])
    ensures SavedTestData(log + [e])
         == SavedTestData(log) + (if e.DataSaved? && e.prefix.Some? && e.prefix.value != "pretrain" then [(e.prefix.value, e.data)] else [])
  {
    assert (log + [e])[..|log|] == log;
  }

  /** A training save or a model save leaves what the tests ran and saved unchanged. */
  lemma TrainingSavesUntested<L>(log: seq<Event<L>>, o: Options, clock: nat -> string, data: Dataset,
                                 prefix: Option<string>, learner: L)
    requires prefix.None? || prefix == Some("pretrain")
    ensures var saved := SaveData(log, o.dataSavePath, clock, data, prefix, None);
      && TestedData(SaveModel(saved, o.modelSavePath, clock, learner)) == TestedData(log)
      && SavedTestData(SaveModel(saved, o.modelSavePath, clock, learner)) == SavedTestData(log)
  {
    var saved := SaveData(log, o.dataSavePath, clock, data, prefix, None);
    if o.dataSavePath.Some? {
      TestDataSnoc(log, DataSaved(DataFile(o.dataSavePath, clock(|log|), prefix, None).value, prefix, None, data));
    }
    if o.modelSavePath.Some? {
      var (dir, name) := ModelTarget(o.modelSavePath, clock(|saved|)).value;
      TestDataSnoc(saved, ModelSaved(dir, name, learner));
    }
  }

  /**
   * A test appended to the log and its data saved under the test's kind: it
   * shows as the test and its save, moves the cursor to the test's end, keeps
   * the log sound when it starts where the log stands, and keeps every
   * test's data saved.
   */
  lemma TestLogged<L>(log: seq<Event<L>>, o: Options, clock: nat -> string, kind: string, run: Run, suffix: Option<string>)
    ensures var log' := SaveData(log + [Tested(kind, run)], o.dataSavePath, clock, Batch(run), Some(kind), suffix);
      && ViewOf(log') == AfterSaveData(Note(ViewOf(log), Tested(kind, run)), o.dataSavePath, Some(kind), suffix, Batch(run))
      && Reached(log') == End(run)
      && (Sound(log, o, clock) && Faithful(run) && run.at == Reached(log) ==> Sound(log', o, clock))
      && (kind != "pretrain" && TestsSaved(log, o.dataSavePath) ==> TestsSaved(log', o.dataSavePath))
  {
    var e := Tested(kind, run);
    var tested := log + [e];
    ViewSnoc(log, e);
    ReachedSnoc(log, e);
    TestDataSnoc(log, e);
    if Sound(log, o, clock) && Faithful(run) && run.at == Reached(log) {
      SoundSnoc(log, o, clock, e);
      SaveDataSound(tested, o, clock, Batch(run), Some(kind), suffix);
    }
    SaveDataView(tested, o.dataSavePath, clock, Batch(run), Some(kind), suffix);
    if o.dataSavePath.Some? {
      TestDataSnoc(tested, DataSaved(DataFile(o.dataSavePath, clock(|tested|), Some(kind), suffix).value, Some(kind), suffix, Batch(run)));
    }
  }

  /**
   * A training rollout appended to the log, then the merged data saved with
   * the given prefix and the refitted learner saved: the view shows the
   * rollout and both saves, the cursor moves to the rollout's end, soundness
   * is kept when the rollout starts where the log stands, and the tests'
   * saves are untouched.
   */
  lemma TrainingLogged<L>(log: seq<Event<L>>, o: Options, clock: nat -> string, run: Run, data: Dataset,
                          prefix: Option<string>, learner: L)
    requires prefix.None? || prefix == Some("pretrain")
    ensures var log' := SaveModel(SaveData(log + [RolledOut(run)], o.dataSavePath, clock, data, prefix, None),
                                  o.modelSavePath, clock, learner);
      && ViewOf(log') == AfterSaveModel(AfterSaveData(Note(ViewOf(log), RolledOut(run)), o.dataSavePath, prefix, None, data),
                                        o.modelSavePath, learner)
      && Reached(log') == End(run)
      && (Sound(log, o, clock) && Faithful(run) && run.at == Reached(log) ==> Sound(log', o, clock))
      && (TestsSaved(log, o.dataSavePath) ==> TestsSaved(log', o.dataSavePath))
  {
    var e := RolledOut(run);
    var rolled := log + [e];
    var saved := SaveData(rolled, o.dataSavePath, clock, data, prefix, None);
    ViewSnoc(log, e);
    ReachedSnoc(log, e);
    TestDataSnoc(log, e);
    SaveDataView(rolled, o.dataSavePath, clock, data, prefix, None);
    SaveModelView(saved, o.modelSavePath, clock, learner);
    TrainingSavesUntested(rolled, o, clock, data, prefix, learner);
    if Sound(log, o, clock) && Faithful(run) && run.at == Reached(log) {
      SoundSnoc(log, o, clock, e);
      SaveDataSound(rolled, o, clock, data, prefix, None);
      SaveModelSound(saved, o, clock, learner);
    }
  }

  // ---------------------------------------------------------------------------
  // The mixing schedule

  function Pow(r: real, k: nat): real {
    if k == 0 then 1.0 else Pow(r, k - 1) * r
  }

  /** `mixing *= mixing_rate` (imitation_learning/dagger.py:206): the mixing of the next iteration. */
  method DecayMixing(mixing: real, rate: real, ghost k: nat) returns (next: real)
    requires mixing == Pow(rate, k)
    ensures next == Pow(rate, k + 1)
  {
    next := mixing * rate;
  }

  /**
   * Mixing starts at 1.0 and is multiplied by the rate before each iteration
   * (imitation_learning/dagger.py:200, 206), so iteration k (from 0) mixes
   * with rate^(k+1). For a rate in [0, 1] this stays in [0, 1] and never
   * grows; for a rate strictly between 0 and 1 it decreases strictly and stays
   * positive; a rate of 0 switches mixing off from the first iteration on,
   * and a rate of 1 keeps it at 1.
   */
  lemma {:induction false} MixingDecays(r: real, k: nat)
    requires 0.0 <= r <= 1.0
    ensures 0.0 <= Pow(r, k) <= 1.0
    ensures Pow(r, k + 1) <= Pow(r, k)
    ensures 0.0 < r < 1.0 ==> 0.0 < Pow(r, k + 1) < Pow(r, k)
    ensures r == 0.0 ==> Pow(r, k + 1) == 0.0
    ensures r == 1.0 ==> Pow(r, k) == 1.0
  {
    if k > 0 {
      MixingDecays(r, k - 1);
    }
    var p := Pow(r, k);
    assert Pow(r, k + 1) == p * r;
    assert p * r <= p by {
      assert p * (1.0 - r) >= 0.0;
    }
    if 0.0 < r < 1.0 {
      assert 0.0 < p;
      assert p * r < p by {
        assert p * (1.0 - r) > 0.0;
      }
    }
  }

  // ---------------------------------------------------------------------------
  // The 'iter' suffix of policy tests

  /** `str(n)` for a natural number: its decimal digits, with no leading zero. */
  function NatToString(n: nat): (s: string)
    ensures |s| > 0 && forall i :: 0 <= i < |s| ==> '0' <= s[i] <= '9'
    ensures |s| > 1 ==> s[0] != '0'
  {
    if n < 10 then [(48 + n) as char] else NatToString(n / 10) + [(48 + n % 10) as char]
  }

  /** The number a string of decimal digits denotes. */
  function ParseNat(s: string): nat
    requires forall i :: 0 <= i < |s| ==> '0' <= s[i] <= '9'
  {
    if s == [] then 0 else ParseNat(s[..|s| - 1]) * 10 + (s[|s| - 1] as int - 48)
  }

  lemma {:induction false} NatToStringRoundTrip(n: nat)
    ensures ParseNat(NatToString(n)) == n
  {
    var s := NatToString(n);
    if n < 10 {
      assert s[..0] == [];
    } else {
      NatToStringRoundTrip(n / 10);
      assert s[..|s| - 1] == NatToString(n / 10);
    }
  }

  /** Different iterations save their policy tests under different suffixes. */
  lemma IterSuffixInjective(i: nat, j: nat)
    requires "iter" + NatToString(i) == "iter" + NatToString(j)
    ensures i == j
  {
    var a, b := "iter" + NatToString(i), "iter" + NatToString(j);
    assert NatToString(i) == a[4..] && NatToString(j) == b[4..];
    NatToStringRoundTrip(i);
    NatToStringRoundTrip(j);
  }

  /**
   * The policy-test files of two different iterations never share a name,
   * even when their timestamps are equal.
   */
  lemma PolicyTestFilesDistinct(path: string, s1: string, s2: string, i: nat, j: nat)
    requires |s1| == |s2| && i != j
    ensures DataFile(Some(path), s1, Some("policy_test"), Some("iter" + NatToString(i)))
         != DataFile(Some(path), s2, Some("policy_test"), Some("iter" + NatToString(j)))
  {
    var p, x1, x2 := Some("policy_test"), Some("iter" + NatToString(i)), Some("iter" + NatToString(j));
    if DataFile(Some(path), s1, p, x1) == DataFile(Some(path), s2, p, x2) {
      DataFileDistinguishesStamps(path, s1, s2, p, x1, p, x2);
      TagsSuffix(p, x1.value);
      TagsSuffix(p, x2.value);
      IterSuffixInjective(i, j);
    }
  }

  function IterSuffixes(k: nat): seq<Option<string>> {
    if k == 0 then [] else IterSuffixes(k - 1) + [Some("iter" + NatToString(k - 1))]
  }

  // ---------------------------------------------------------------------------
  // What the training produces

  /** The learner before fit j: the initial one, or the one fit j - 1 produced. */
  function Before<L>(l0: L, learners: seq<L>, j: nat): L
    requires j <= |learners|
  {
    if j == 0 then l0 else learners[j - 1]
  }

  function Last<L>(l0: L, learners: seq<L>): L {
    Before(l0, learners, |learners|)
  }

  /** The batches in the order they are merged: the pretraining batch, then one per iteration. */
  function Batches(pre: Option<Run>, iters: seq<Run>): seq<Dataset> {
    if iters == [] then (if pre.Some? then [Batch(pre.value)] else [])
    else Batches(pre, iters[..|iters| - 1]) + [Batch(iters[|iters| - 1])]
  }

  /** The dataset after each merge: entry j is the initial data with batches 0..j merged in. */
  function Accumulated(init: Dataset, batches: seq<Dataset>): seq<Dataset> {
    if batches == [] then []
    else Accumulated(init, batches[..|batches| - 1]) + [MergeAll(init, batches)]
  }

  /** The learners the fits produce, each fitted from the one before on the accumulated dataset. */
  function Refits<L>(c: Config, fit: Trainer<L>, l0: L, acc: seq<Dataset>): seq<L> {
    if acc == [] then []
    else
      var prev := Refits(c, fit, l0, acc[..|acc| - 1]);
      var d := acc[|acc| - 1];
      prev + [fit(Last(l0, prev), d.observations, d.targets, FitOptionsAt(c, |acc| - 1))]
  }

  lemma {:induction false} AccumulatedAt(init: Dataset, batches: seq<Dataset>, j: nat)
    requires j < |batches|
    ensures |Accumulated(init, batches)| == |batches|
    ensures Accumulated(init, batches)[j] == MergeAll(init, batches[..j + 1])
  {
    var n := |batches| - 1;
    var prev := Accumulated(init, batches[..n]);
    assert Accumulated(init, batches) == prev + [MergeAll(init, batches)];
    AccumulatedLength(init, batches[..n]);
    if j < n {
      AccumulatedAt(init, batches[..n], j);
      assert batches[..n][..j + 1] == batches[..j + 1];
      assert Accumulated(init, batches)[j] == prev[j];
    } else {
      assert batches[..j + 1] == batches;
    }
  }

  lemma {:induction false} RefitsPrefix<L>(c: Config, fit: Trainer<L>, l0: L, acc: seq<Dataset>, j: nat)
    requires j <= |acc|
    ensures |Refits(c, fit, l0, acc)| == |acc|
    ensures Refits(c, fit, l0, acc)[..j] == Refits(c, fit, l0, acc[..j])
  {
    if acc != [] {
      var n := |acc| - 1;
      if j <= n {
        RefitsPrefix(c, fit, l0, acc[..n], j);
        assert acc[..n][..j] == acc[..j];
      } else {
        RefitsPrefix(c, fit, l0, acc[..n], n);
        assert acc[..j] == acc;
      }
    }
  }

  /**
   * Fit j starts from the learner fit j - 1 produced (the initial learner for
   * j = 0) and is fitted on the initial data merged with batches 0..j, with
   * the pretraining keyword arguments for the pretraining fit and the
   * training ones otherwise (imitation_learning/dagger.py:193-196, 217-220).
   */
  lemma RefitsAt<L>(c: Config, fit: Trainer<L>, l0: L, init: Dataset, batches: seq<Dataset>, j: nat)
    requires j < |batches|
    ensures var learners := Refits(c, fit, l0, Accumulated(init, batches));
      var d := MergeAll(init, batches[..j + 1]);
      && |learners| == |batches|
      && learners[j] == fit(Before(l0, learners, j), d.observations, d.targets, FitOptionsAt(c, j))
  {
    var acc := Accumulated(init, batches);
    AccumulatedAt(init, batches, j);
    RefitsPrefix(c, fit, l0, acc, j + 1);
    RefitsPrefix(c, fit, l0, acc, j);
    RefitsPrefix(c, fit, l0, acc[..j + 1], j);
    assert acc[..j + 1][..j] == acc[..j];
    var learners := Refits(c, fit, l0, acc);
    assert learners[j] == learners[..j + 1][j];
    if j > 0 {
      assert learners[j - 1] == learners[..j][j - 1];
    }
  }

  /**
   * Iteration k's rollout: driven by the policy of the learner fitted just
   * before it, mixed with the expert at rate^(k+1), with the configured
   * granularity (imitation_learning/dagger.py:202-208, 222).
   */
  ghost predicate IterationsFaithful<L>(c: Config, sys: System, expert: Expert, policyOf: L -> Policy, rand: nat -> real,
                                  l0: L, learners: seq<L>, iters: seq<Run>) {
    && Offset(c) + |iters| <= |learners|
    && forall k :: 0 <= k < |iters| ==>
         && Faithful(iters[k])
         && iters[k].setup == Setup(sys, policyOf(Before(l0, learners, Offset(c) + k)), c.T, c.N,
                                    Some(expert), Pow(c.mixingRate, k + 1), MixWithin(c), rand)
  }

  /** The tests before training: of the expert's own action, then of the initial learner's policy. */
  function EarlyTests<L>(c: Config, sys: System, expert: Expert, policyOf: L -> Policy, rand: nat -> real, l0: L): seq<Activity> {
    (if c.testExpert then [Testing("expert_test", TestSetup(sys, expert.action, TestT(c), TestN(c), rand))] else [])
    + (if c.testInitial then [Testing("initial_test", TestSetup(sys, policyOf(l0), InitialT(c), InitialN(c), rand))] else [])
  }

  /** The suffixes of the early tests' saves: none. */
  function EarlySuffixes(c: Config): seq<Option<string>> {
    (if c.testExpert then [None] else []) + (if c.testInitial then [None] else [])
  }

  /** The view after the early tests: nothing saved for training, the tests, their suffixes and their order. */
  function EarlyView<L>(c: Config, sys: System, expert: Expert, policyOf: L -> Policy, rand: nat -> real, l0: L): LogView<L> {
    LogView([], [], EarlyTests(c, sys, expert, policyOf, rand, l0),
            if c.options.dataSavePath.Some? then EarlySuffixes(c) else [], EarlyMarks(c))
  }

  /** The pretraining rollout, if there was one. */
  function Pretraining(pre: Option<Run>): seq<Activity> {
    if pre.Some? then [Training(pre.value)] else []
  }

  /**
   * The runs of the iterations, in order: each iteration's rollout, then,
   * when asked, the test of the learner that iteration fitted.
   */
  function Rounds<L>(c: Config, sys: System, policyOf: L -> Policy, rand: nat -> real, learners: seq<L>, iters: seq<Run>): seq<Activity> {
    if iters == [] then []
    else
      var k := |iters| - 1;
      Rounds(c, sys, policyOf, rand, learners, iters[..k]) + [Training(iters[k])]
      + (if c.testPolicy && Offset(c) + k < |learners|
         then [Testing("policy_test", TestSetup(sys, policyOf(learners[Offset(c) + k]), TestT(c), TestN(c), rand))]
         else [])
  }

  /** The test that follows an iteration when policies are tested. */
  function PolicyTest<L>(c: Config, sys: System, policyOf: L -> Policy, rand: nat -> real, fitted: L): seq<Activity> {
    if c.testPolicy then [Testing("policy_test", TestSetup(sys, policyOf(fitted), TestT(c), TestN(c), rand))] else []
  }

  /** A test, then the save of its data when a data path is configured (imitation_learning/dagger.py:152-153, 224-227). */
  function TestMarks(path: Option<string>, kind: string, suffix: Option<string>): seq<Mark> {
    [TestMark(kind)] + (if path.Some? then [DataMark(Some(kind), suffix)] else [])
  }

  /**
   * A training rollout, then the save of the merged data, then the save of
   * the refitted model, each save when its path is configured
   * (imitation_learning/dagger.py:185-197, 207-221).
   */
  function TrainingMarks(o: Options, prefix: Option<string>): seq<Mark> {
    [RunMark] + (if o.dataSavePath.Some? then [DataMark(prefix, None)] else []) + (if o.modelSavePath.Some? then [ModelMark] else [])
  }

  /** The order of the early tests' events. */
  function EarlyMarks(c: Config): seq<Mark> {
    (if c.testExpert then TestMarks(c.options.dataSavePath, "expert_test", None) else [])
    + (if c.testInitial then TestMarks(c.options.dataSavePath, "initial_test", None) else [])
  }

  /** The order of the pretraining's events, if there was one. */
  function PretrainMarks(o: Options, pre: Option<Run>): seq<Mark> {
    if pre.Some? then TrainingMarks(o, Some("pretrain")) else []
  }

  /** The order of iteration k's events: its training, then its policy test when asked. */
  function IterationMarks(c: Config, k: nat): seq<Mark> {
    TrainingMarks(c.options, None)
    + (if c.testPolicy then TestMarks(c.options.dataSavePath, "policy_test", Some("iter" + NatToString(k))) else [])
  }

  /** The order of the events of the first n iterations. */
  function IterationsMarks(c: Config, n: nat): seq<Mark> {
    if n == 0 then [] else IterationsMarks(c, n - 1) + IterationMarks(c, n - 1)
  }

  /** A learner fitted after the iterations so far does not change how they show. */
  lemma {:induction false} RoundsExtend<L>(c: Config, sys: System, policyOf: L -> Policy, rand: nat -> real,
                                           learners: seq<L>, iters: seq<Run>, fitted: L)
    requires Offset(c) + |iters| <= |learners|
    ensures Rounds(c, sys, policyOf, rand, learners + [fitted], iters) == Rounds(c, sys, policyOf, rand, learners, iters)
  {
    if iters != [] {
      var k := |iters| - 1;
      RoundsExtend(c, sys, policyOf, rand, learners, iters[..k], fitted);
      assert (learners + [fitted])[Offset(c) + k] == learners[Offset(c) + k];
    }
  }

  /** One more iteration adds its rollout and, when asked, the test of the learner it fitted. */
  lemma RoundsSnoc<L>(c: Config, sys: System, policyOf: L -> Policy, rand: nat -> real,
                      learners: seq<L>, iters: seq<Run>, run: Run, fitted: L)
    requires |learners| == Offset(c) + |iters|
    ensures Rounds(c, sys, policyOf, rand, learners + [fitted], iters + [run])
         == Rounds(c, sys, policyOf, rand, learners, iters) + [Training(run)] + PolicyTest(c, sys, policyOf, rand, fitted)
  {
    RoundsExtend(c, sys, policyOf, rand, learners, iters, fitted);
    assert (iters + [run])[..|iters|] == iters;
  }

  lemma BatchesSnoc(c: Config, pre: Option<Run>, iters: seq<Run>, run: Run)
    ensures var bs := Batches(pre, iters);
      && Batches(pre, iters + [run]) == bs + [Batch(run)]
      && MergeAll(Init(c), bs + [Batch(run)]) == Merge(MergeAll(Init(c), bs), Batch(run))
      && Accumulated(Init(c), bs + [Batch(run)]) == Accumulated(Init(c), bs) + [MergeAll(Init(c), bs + [Batch(run)])]
  {
    var bs := Batches(pre, iters);
    assert (iters + [run])[..|iters|] == iters;
    assert (bs + [Batch(run)])[..|bs|] == bs;
  }

  lemma RefitsSnoc<L>(c: Config, fit: Trainer<L>, l0: L, acc: seq<Dataset>, d: Dataset)
    ensures Refits(c, fit, l0, acc + [d])
         == Refits(c, fit, l0, acc) + [fit(Last(l0, Refits(c, fit, l0, acc)), d.observations, d.targets, FitOptionsAt(c, |acc|))]
  {
    assert (acc + [d])[..|acc|] == acc;
  }

  lemma IterationsSnoc<L>(c: Config, sys: System, expert: Expert, policyOf: L -> Policy, rand: nat -> real,
                          l0: L, iters: seq<Run>, learners: seq<L>, run: Run, fitted: L)
    requires |learners| == Offset(c) + |iters|
    requires IterationsFaithful(c, sys, expert, policyOf, rand, l0, learners, iters)
    requires Faithful(run)
    requires run.setup == Setup(sys, policyOf(Last(l0, learners)), c.T, c.N, Some(expert),
                                Pow(c.mixingRate, |iters| + 1), MixWithin(c), rand)
    ensures IterationsFaithful(c, sys, expert, policyOf, rand, l0, learners + [fitted], iters + [run])
  {
    var ls, its := learners + [fitted], iters + [run];
    forall k | 0 <= k < |its|
      ensures Faithful(its[k])
      ensures its[k].setup == Setup(sys, policyOf(Before(l0, ls, Offset(c) + k)), c.T, c.N,
                                    Some(expert), Pow(c.mixingRate, k + 1), MixWithin(c), rand)
    {
      assert Before(l0, ls, Offset(c) + k) == Before(l0, learners, Offset(c) + k);
    }
  }

  /**
   * What holds after the pretraining and every completed iteration: the data
   * is the initial data with every batch merged in, every fit is a refit on
   * the data accumulated so far, and every iteration ran the policy of the
   * latest learner.
   */
  ghost predicate Learned<L>(c: Config, sys: System, expert: Expert, fit: Trainer<L>, policyOf: L -> Policy,
                             rand: nat -> real, l0: L, pre: Option<Run>, iters: seq<Run>, learners: seq<L>, data: Dataset) {
    && |learners| == Offset(c) + |iters|
    && data == MergeAll(Init(c), Batches(pre, iters))
    && learners == Refits(c, fit, l0, Accumulated(Init(c), Batches(pre, iters)))
    && IterationsFaithful(c, sys, expert, policyOf, rand, l0, learners, iters)
  }

  /**
   * The view of the log after the pretraining and every completed iteration:
   * one saved model per fit, one saved dataset per merge (each the data
   * accumulated so far), the early tests, the pretraining rollout and each
   * iteration's rollout followed by its policy test, and the suffixes of the
   * early tests' and policy tests' saves.
   */
  ghost function Expected<L>(c: Config, sys: System, expert: Expert, policyOf: L -> Policy, rand: nat -> real, l0: L,
                             pre: Option<Run>, iters: seq<Run>, learners: seq<L>): LogView<L> {
    LogView(
      if c.options.modelSavePath.Some? then learners else [],
      if c.options.dataSavePath.Some? then Accumulated(Init(c), Batches(pre, iters)) else [],
      EarlyTests(c, sys, expert, policyOf, rand, l0) + Pretraining(pre) + Rounds(c, sys, policyOf, rand, learners, iters),
      if c.options.dataSavePath.Some? then EarlySuffixes(c) + (if c.testPolicy then IterSuffixes(|iters|) else []) else [],
      EarlyMarks(c) + PretrainMarks(c.options, pre) + IterationsMarks(c, |iters|))
  }

  /**
   * The log is as the runs and saves so far leave it: its events come in the
   * expected order and show the expected models, datasets, runs and
   * suffixes; every run is faithful and starts where the one before it
   * ended; every test's data is saved under its kind; every save is under
   * the name the configured paths and its timestamp give.
   */
  ghost predicate Logged<L>(c: Config, sys: System, expert: Expert, policyOf: L -> Policy,
                            rand: nat -> real, clock: nat -> string, l0: L,
                            pre: Option<Run>, iters: seq<Run>, learners: seq<L>, log: seq<Event<L>>) {
    && Sound(log, c.options, clock)
    && TestsSaved(log, c.options.dataSavePath)
    && ViewOf(log) == Expected(c, sys, expert, policyOf, rand, l0, pre, iters, learners)
  }

  /**
   * The view after iteration k (imitation_learning/dagger.py:207-227): its
   * rollout; the merged data and the refitted learner saved when paths are
   * configured; when the policy is tested, its test and, with a data path,
   * the iteration's suffix.
   */
  function IterationView<L>(c: Config, sys: System, policyOf: L -> Policy, rand: nat -> real,
                            v: LogView<L>, k: nat, run: Run, merged: Dataset, fitted: L): LogView<L> {
    var rolled := Note(v, RolledOut(run));
    var saved := AfterSaveModel(AfterSaveData(rolled, c.options.dataSavePath, None, None, merged), c.options.modelSavePath, fitted);
    saved.(runs := saved.runs + PolicyTest(c, sys, policyOf, rand, fitted),
           suffixes := saved.suffixes + (if c.testPolicy && c.options.dataSavePath.Some? then [Some("iter" + NatToString(k))] else []),
           order := saved.order
                    + (if c.testPolicy then TestMarks(c.options.dataSavePath, "policy_test", Some("iter" + NatToString(k))) else []))
  }

  /** The fit of one iteration is the next refit on the data accumulated so far. */
  lemma RefitStep<L>(c: Config, fit: Trainer<L>, l0: L, pre: Option<Run>, iters: seq<Run>, learners: seq<L>,
                     run: Run, merged: Dataset, fitted: L)
    requires learners == Refits(c, fit, l0, Accumulated(Init(c), Batches(pre, iters)))
    requires |learners| == Offset(c) + |iters|
    requires merged == MergeAll(Init(c), Batches(pre, iters) + [Batch(run)])
    requires fitted == fit(Last(l0, learners), merged.observations, merged.targets, c.options.trainFit)
    ensures learners + [fitted] == Refits(c, fit, l0, Accumulated(Init(c), Batches(pre, iters + [run])))
  {
    BatchesSnoc(c, pre, iters, run);
    var bs := Batches(pre, iters);
    var acc := Accumulated(Init(c), bs);
    RefitsSnoc(c, fit, l0, acc, merged);
    assert FitOptionsAt(c, |acc|) == c.options.trainFit by {
      AccumulatedLength(Init(c), bs);
      BatchesLength(pre, iters);
    }
  }

  /** One iteration moves the expected view as IterationView says. */
  lemma ExpectedStep<L>(c: Config, sys: System, expert: Expert, policyOf: L -> Policy, rand: nat -> real, l0: L,
                        pre: Option<Run>, iters: seq<Run>, learners: seq<L>, run: Run, merged: Dataset, fitted: L)
    requires |learners| == Offset(c) + |iters|
    requires merged == MergeAll(Init(c), Batches(pre, iters) + [Batch(run)])
    ensures Expected(c, sys, expert, policyOf, rand, l0, pre, iters + [run], learners + [fitted])
         == IterationView(c, sys, policyOf, rand, Expected(c, sys, expert, policyOf, rand, l0, pre, iters, learners),
                          |iters|, run, merged, fitted)
  {
    var v := Expected(c, sys, expert, policyOf, rand, l0, pre, iters, learners);
    var v' := Expected(c, sys, expert, policyOf, rand, l0, pre, iters + [run], learners + [fitted]);
    var w := IterationView(c, sys, policyOf, rand, v, |iters|, run, merged, fitted);
    SavesStep(c, sys, policyOf, rand, v, pre, iters, learners, run, merged, fitted);
    RunsStep(c, sys, policyOf, rand, v, EarlyTests(c, sys, expert, policyOf, rand, l0) + Pretraining(pre), learners, iters,
             run, merged, fitted);
    SuffixesStep(c, sys, policyOf, rand, v, |iters|, run, merged, fitted);
    OrderStep(c, sys, policyOf, rand, v, EarlyMarks(c) + PretrainMarks(c.options, pre), |iters|, run, merged, fitted);
    ViewsEqual(v', w);
  }

  lemma ViewsEqual<L>(v: LogView<L>, w: LogView<L>)
    requires v.models == w.models && v.training == w.training && v.runs == w.runs && v.suffixes == w.suffixes
    requires v.order == w.order
    ensures v == w
  {
  }

  /** The models and the training data of one iteration. */
  lemma SavesStep<L>(c: Config, sys: System, policyOf: L -> Policy, rand: nat -> real, v: LogView<L>,
                     pre: Option<Run>, iters: seq<Run>, learners: seq<L>, run: Run, merged: Dataset, fitted: L)
    requires v.models == (if c.options.modelSavePath.Some? then learners else [])
    requires v.training == (if c.options.dataSavePath.Some? then Accumulated(Init(c), Batches(pre, iters)) else [])
    requires merged == MergeAll(Init(c), Batches(pre, iters) + [Batch(run)])
    ensures IterationView(c, sys, policyOf, rand, v, |iters|, run, merged, fitted).models
         == (if c.options.modelSavePath.Some? then learners + [fitted] else [])
    ensures IterationView(c, sys, policyOf, rand, v, |iters|, run, merged, fitted).training
         == (if c.options.dataSavePath.Some? then Accumulated(Init(c), Batches(pre, iters + [run])) else [])
  {
    BatchesSnoc(c, pre, iters, run);
  }

  /** The runs of one iteration: its rollout, then its policy test when asked. */
  lemma RunsStep<L>(c: Config, sys: System, policyOf: L -> Policy, rand: nat -> real, v: LogView<L>,
                    before: seq<Activity>, learners: seq<L>, iters: seq<Run>, run: Run, merged: Dataset, fitted: L)
    requires |learners| == Offset(c) + |iters|
    requires v.runs == before + Rounds(c, sys, policyOf, rand, learners, iters)
    ensures IterationView(c, sys, policyOf, rand, v, |iters|, run, merged, fitted).runs
         == before + Rounds(c, sys, policyOf, rand, learners + [fitted], iters + [run])
  {
    RoundsSnoc(c, sys, policyOf, rand, learners, iters, run, fitted);
    var r := Rounds(c, sys, policyOf, rand, learners, iters);
    var t := PolicyTest(c, sys, policyOf, rand, fitted);
    assert before + r + [Training(run)] + t == before + (r + [Training(run)] + t);
  }

  /** The suffixes of one iteration: 'iter' and its number, when policies are tested and data saved. */
  lemma SuffixesStep<L>(c: Config, sys: System, policyOf: L -> Policy, rand: nat -> real,
                        v: LogView<L>, k: nat, run: Run, merged: Dataset, fitted: L)
    requires v.suffixes == (if c.options.dataSavePath.Some? then EarlySuffixes(c) + (if c.testPolicy then IterSuffixes(k) else []) else [])
    ensures IterationView(c, sys, policyOf, rand, v, k, run, merged, fitted).suffixes
         == (if c.options.dataSavePath.Some? then EarlySuffixes(c) + (if c.testPolicy then IterSuffixes(k + 1) else []) else [])
  {
    var x := Some("iter" + NatToString(k));
    assert IterSuffixes(k + 1) == IterSuffixes(k) + [x];
    assert EarlySuffixes(c) + IterSuffixes(k) + [x] == EarlySuffixes(c) + (IterSuffixes(k) + [x]);
  }

  /** The order of one iteration's events: its training marks, then its test's marks when asked. */
  lemma OrderStep<L>(c: Config, sys: System, policyOf: L -> Policy, rand: nat -> real,
                     v: LogView<L>, before: seq<Mark>, k: nat, run: Run, merged: Dataset, fitted: L)
    requires v.order == before + IterationsMarks(c, k)
    ensures IterationView(c, sys, policyOf, rand, v, k, run, merged, fitted).order == before + IterationsMarks(c, k + 1)
  {
    var o := c.options;
    TrainingOrder(o, v, run, None, merged, fitted);
    var tested := if c.testPolicy then TestMarks(o.dataSavePath, "policy_test", Some("iter" + NatToString(k))) else [];
    var ms := IterationsMarks(c, k);
    assert IterationMarks(c, k) == TrainingMarks(o, None) + tested;
    assert before + ms + TrainingMarks(o, None) + tested == before + (ms + (TrainingMarks(o, None) + tested));
  }

  lemma {:induction false} BatchesLength(pre: Option<Run>, iters: seq<Run>)
    ensures |Batches(pre, iters)| == (if pre.Some? then 1 else 0) + |iters|
  {
    if iters != [] {
      BatchesLength(pre, iters[..|iters| - 1]);
    }
  }

  lemma {:induction false} AccumulatedLength(init: Dataset, batches: seq<Dataset>)
    ensures |Accumulated(init, batches)| == |batches|
  {
    if batches != [] {
      AccumulatedLength(init, batches[..|batches| - 1]);
    }
  }

  /**
   * With a mixing rate of 0 every iteration's mixing probability is 0, so no
   * step of any iteration is driven by the expert and every recorded target
   * is the learner's own action.
   */
  lemma ZeroRateRecordsLearnerActions<L>(c: Config, sys: System, expert: Expert, policyOf: L -> Policy, rand: nat -> real,
                                         l0: L, learners: seq<L>, iters: seq<Run>, k: nat)
    requires c.mixingRate == 0.0
    requires IterationsFaithful(c, sys, expert, policyOf, rand, l0, learners, iters)
    requires k < |iters|
    ensures forall r, t :: 0 <= r < |iters[k].trace| && 0 <= t < |iters[k].trace[r]| ==> !iters[k].trace[r][t].byExpert
    ensures Batch(iters[k]).targets == Batch(iters[k]).actions
  {
    MixingDecays(c.mixingRate, k);
    var run := iters[k];
    NoMixingRecordsLearnerActions(run.setup, run.at, run.autonomy, run.trace, Batch(run));
  }

  /**
   * With a mixing rate of 1 and draws in [0, 1), every iteration's mixing
   * probability is 1, so the expert drives every step and every recorded
   * target is the expert's action.
   */
  lemma FullRateExpertDrives<L>(c: Config, sys: System, expert: Expert, policyOf: L -> Policy, rand: nat -> real,
                                l0: L, learners: seq<L>, iters: seq<Run>, k: nat)
    requires c.mixingRate == 1.0 && forall n :: 0.0 <= rand(n) < 1.0
    requires IterationsFaithful(c, sys, expert, policyOf, rand, l0, learners, iters)
    requires k < |iters|
    ensures forall r, t :: 0 <= r < |iters[k].trace| && 0 <= t < |iters[k].trace[r]| ==>
      iters[k].trace[r][t].byExpert && iters[k].trace[r][t].target == expert.action(iters[k].trace[r][t].obs)
  {
    MixingDecays(c.mixingRate, k + 1);
    var run := iters[k];
    ExpertForcedDrivesEveryStep(run.setup, run.at, run.autonomy, run.trace);
  }

  lemma {:induction false} BatchesAligned(pre: Option<Run>, iters: seq<Run>, sys: System, fields: set<Field>)
    requires forall w, sent :: !sys.reply(w, sent).done ==> Uniform(sys.reply(w, sent).obs, fields)
    requires pre.Some? ==> Faithful(pre.value) && pre.value.setup.sys == sys
    requires forall k :: 0 <= k < |iters| ==> Faithful(iters[k]) && iters[k].setup.sys == sys
    ensures forall j :: 0 <= j < |Batches(pre, iters)| ==> Aligned(Batches(pre, iters)[j], fields)
  {
    if iters == [] {
      if pre.Some? {
        var run := pre.value;
        RolloutAligned(run.setup, run.at, run.autonomy, run.trace, Batch(run), fields);
      }
    } else {
      var n := |iters| - 1;
      BatchesAligned(pre, iters[..n], sys, fields);
      var run := iters[n];
      RolloutAligned(run.setup, run.at, run.autonomy, run.trace, Batch(run), fields);
    }
  }

  /**
   * When the initial data is aligned and every reply to a step that is not
   * done carries each of `fields` exactly once, the aggregated data stays
   * aligned: each field's list is as long as the targets, actions and rewards.
   */
  lemma AggregateAligned(c: Config, sys: System, pre: Option<Run>, iters: seq<Run>, fields: set<Field>)
    requires Aligned(Init(c), fields)
    requires forall w, sent :: !sys.reply(w, sent).done ==> Uniform(sys.reply(w, sent).obs, fields)
    requires pre.Some? ==> Faithful(pre.value) && pre.value.setup.sys == sys
    requires forall k :: 0 <= k < |iters| ==> Faithful(iters[k]) && iters[k].setup.sys == sys
    ensures Aligned(MergeAll(Init(c), Batches(pre, iters)), fields)
  {
    BatchesAligned(pre, iters, sys, fields);
    MergeAllAligned(Init(c), Batches(pre, iters), fields);
  }

  // ---------------------------------------------------------------------------
  // The phases of `dagger`

  /**
   * `test_policy_sys` followed by `save_data` under the test's kind
   * (imitation_learning/dagger.py:150-162, 223-236): the test starts at the
   * given cursor, and its data is what is saved.
   */
  method RunTest<L>(sys: System, policy: Policy, T: nat, N: nat, rand: nat -> real, at: Cursor,
                    o: Options, clock: nat -> string, log: seq<Event<L>>, kind: string, suffix: Option<string>)
    returns (run: Run, log': seq<Event<L>>, next: Cursor, raised: bool)
    ensures Faithful(run) && run.at == at && run.setup == TestSetup(sys, policy, T, N, rand)
    ensures raised <==> StatisticsRaise(Batch(run), N)
    ensures Batch(run).targets == Batch(run).actions
    ensures next == End(run) && next == Cursor(at.episodes + N, at.draws)
    ensures log' == SaveData(log + [Tested(kind, run)], o.dataSavePath, clock, Batch(run), Some(kind), suffix)
    ensures ViewOf(log') == AfterSaveData(Note(ViewOf(log), Tested(kind, run)), o.dataSavePath, Some(kind), suffix, Batch(run))
    ensures Reached(log') == next
    ensures Sound(log, o, clock) && Reached(log) == at ==> Sound(log', o, clock)
    ensures kind != "pretrain" && TestsSaved(log, o.dataSavePath) ==> TestsSaved(log', o.dataSavePath)
  {
    var data, autonomy, trace;
    data, autonomy, trace, next, raised := TestPolicy(sys, policy, T, N, rand, at);
    run := Run(TestSetup(sys, policy, T, N, rand), at, autonomy, trace);
    assert data == Batch(run);
    EpisodeBaseIsLinear(run.setup, at, N);
    log' := SaveData(log + [Tested(kind, run)], o.dataSavePath, clock, data, Some(kind), suffix);
    TestLogged(log, o, clock, kind, run, suffix);
  }

  /**
   * The tests before training (imitation_learning/dagger.py:145-162). The
   * expert test runs the expert's action: the source passes the expert
   * object itself as the policy (line 152).
   */
  method TestFirst<L>(c: Config, sys: System, expert: Expert, policyOf: L -> Policy, rand: nat -> real,
                      clock: nat -> string, learner0: L)
    returns (expertTest: Option<Run>, initialTest: Option<Run>, log: seq<Event<L>>, at: Cursor)
    ensures expertTest.Some? <==> c.testExpert
    ensures expertTest.Some? ==> && Faithful(expertTest.value) && expertTest.value.at == Cursor(0, 0)
                                 && expertTest.value.setup == TestSetup(sys, expert.action, TestT(c), TestN(c), rand)
    ensures initialTest.Some? <==> c.testInitial
    ensures initialTest.Some? ==> && Faithful(initialTest.value)
                                  && initialTest.value.at == Cursor(if c.testExpert then TestN(c) else 0, 0)
                                  && initialTest.value.setup == TestSetup(sys, policyOf(learner0), InitialT(c), InitialN(c), rand)
    ensures log == TestedAndSaved(TestedAndSaved([], c.options.dataSavePath, clock, "expert_test", expertTest),
                                  c.options.dataSavePath, clock, "initial_test", initialTest)
    ensures Sound(log, c.options, clock) && TestsSaved(log, c.options.dataSavePath)
    ensures ViewOf(log) == EarlyView(c, sys, expert, policyOf, rand, learner0)
    ensures at == Reached(log)
    ensures at == Cursor((if c.testExpert then TestN(c) else 0) + (if c.testInitial then InitialN(c) else 0), 0)
  {
    var early;
    expertTest, early, at := MaybeTest(c.testExpert, sys, expert.action, TestT(c), TestN(c), rand, Cursor(0, 0),
                                       c.options, clock, [], "expert_test");
    initialTest, log, at := MaybeTest(c.testInitial, sys, policyOf(learner0), InitialT(c), InitialN(c), rand, at,
                                      c.options, clock, early, "initial_test");
    EarlyViewSteps(c, sys, expert, policyOf, rand, learner0);
  }

  /** The view after a test that runs only when asked for: the test and the save of its data under its kind. */
  function AfterTest<L>(v: LogView<L>, ask: bool, path: Option<string>, kind: string, setup: Setup): LogView<L> {
    if !ask then v
    else v.(runs := v.runs + [Testing(kind, setup)], suffixes := v.suffixes + (if path.Some? then [None] else []),
            order := v.order + TestMarks(path, kind, None))
  }

  /** The expected view after the early tests is the expert test, then the initial-policy test, each when asked. */
  lemma EarlyViewSteps<L>(c: Config, sys: System, expert: Expert, policyOf: L -> Policy, rand: nat -> real, l0: L)
    ensures EarlyView(c, sys, expert, policyOf, rand, l0)
         == AfterTest(AfterTest(ViewOf<L>([]), c.testExpert, c.options.dataSavePath, "expert_test",
                                TestSetup(sys, expert.action, TestT(c), TestN(c), rand)),
                      c.testInitial, c.options.dataSavePath, "initial_test",
                      TestSetup(sys, policyOf(l0), InitialT(c), InitialN(c), rand))
  {
    var path := c.options.dataSavePath;
    var v := AfterTest(AfterTest(ViewOf<L>([]), c.testExpert, path, "expert_test",
                                 TestSetup(sys, expert.action, TestT(c), TestN(c), rand)),
                       c.testInitial, path, "initial_test", TestSetup(sys, policyOf(l0), InitialT(c), InitialN(c), rand));
    var e := EarlyView(c, sys, expert, policyOf, rand, l0);
    assert v.runs == e.runs;
    assert v.suffixes == e.suffixes;
    assert v.order == e.order;
    ViewsEqual(v, e);
  }

  /**
   * A test that runs only when asked for, the expert, initial-policy and
   * final tests (imitation_learning/dagger.py:150-162, 230-236): the test
   * from the given cursor and the save of its data under its kind.
   */
  method MaybeTest<L>(ask: bool, sys: System, policy: Policy, T: nat, N: nat, rand: nat -> real, at: Cursor,
                      o: Options, clock: nat -> string, log: seq<Event<L>>, kind: string)
    returns (test: Option<Run>, log': seq<Event<L>>, next: Cursor)
    requires kind != "pretrain" && Reached(log) == at
    ensures test.Some? <==> ask
    ensures test.Some? ==> && Faithful(test.value) && test.value.at == at
                           && test.value.setup == TestSetup(sys, policy, T, N, rand)
    ensures next == if ask then Cursor(at.episodes + N, at.draws) else at
    ensures log' == TestedAndSaved(log, o.dataSavePath, clock, kind, test)
    ensures ViewOf(log') == AfterTest(ViewOf(log), ask, o.dataSavePath, kind, TestSetup(sys, policy, T, N, rand))
    ensures Reached(log') == next
    ensures Sound(log, o, clock) ==> Sound(log', o, clock)
    ensures TestsSaved(log, o.dataSavePath) ==> TestsSaved(log', o.dataSavePath)
  {
    if ask {
      var run, raised;
      run, log', next, raised := RunTest(sys, policy, T, N, rand, at, o, clock, log, kind, None);
      TestView(ViewOf(log), o.dataSavePath, kind, None, run, Batch(run));
      test := Some(run);
    } else {
      test, log', next := None, log, at;
    }
  }

  /** The log after a test of the given kind, when there was one, and the save of its data. */
  function TestedAndSaved<L>(log: seq<Event<L>>, path: Option<string>, clock: nat -> string, kind: string,
                             test: Option<Run>): seq<Event<L>> {
    if test.None? then log else SaveData(log + [Tested(kind, test.value)], path, clock, Batch(test.value), Some(kind), None)
  }

  /**
   * A test followed by the save of its data shows as that test, then, with a
   * data path, as a save of the test's kind whose suffix is the one given.
   */
  lemma TestView<L>(v: LogView<L>, path: Option<string>, kind: string, suffix: Option<string>, run: Run, data: Dataset)
    requires kind != "pretrain"
    ensures AfterSaveData(Note(v, Tested(kind, run)), path, Some(kind), suffix, data)
         == v.(runs := v.runs + [Testing(kind, run.setup)], suffixes := v.suffixes + (if path.Some? then [suffix] else []),
               order := v.order + TestMarks(path, kind, suffix))
  {
  }

  /**
   * Pretraining (imitation_learning/dagger.py:180-197): rollouts driven by
   * the expert's own action, merged into the data, the data saved, the
   * learner fitted with the pretraining keyword arguments, the model saved.
   * The source passes the expert object itself as the policy (line 185).
   */
  method Pretrain<L>(c: Config, sys: System, expert: Expert, fit: Trainer<L>, rand: nat -> real, clock: nat -> string,
                     data: Dataset, learner: L, log: seq<Event<L>>, at: Cursor)
    returns (run: Run, merged: Dataset, fitted: L, log': seq<Event<L>>, next: Cursor)
    ensures Faithful(run) && run.at == at
    ensures run.setup == TestSetup(sys, expert.action, PretrainT(c), PretrainN(c), rand)
    ensures Batch(run).targets == Batch(run).actions
    ensures next == End(run) && next == Cursor(at.episodes + PretrainN(c), at.draws)
    ensures merged == Merge(data, Batch(run))
    ensures fitted == fit(learner, merged.observations, merged.targets, c.options.pretrainFit)
    ensures log' == SaveModel(SaveData(log + [RolledOut(run)], c.options.dataSavePath, clock, merged, Some("pretrain"), None),
                              c.options.modelSavePath, clock, fitted)
    ensures ViewOf(log') == AfterSaveModel(AfterSaveData(Note(ViewOf(log), RolledOut(run)), c.options.dataSavePath,
                                                         Some("pretrain"), None, merged),
                                           c.options.modelSavePath, fitted)
    ensures Reached(log') == next
    ensures Sound(log, c.options, clock) && Reached(log) == at ==> Sound(log', c.options, clock)
    ensures TestsSaved(log, c.options.dataSavePath) ==> TestsSaved(log', c.options.dataSavePath)
  {
    var s := TestSetup(sys, expert.action, PretrainT(c), PretrainN(c), rand);
    var batch, autonomy, trace;
    batch, autonomy, trace, next := Rollout(s, at);
    run := Run(s, at, autonomy, trace);
    EpisodeBaseIsLinear(s, at, s.N);
    NoMixingRecordsLearnerActions(s, at, autonomy, trace, batch);
    // Line 186 iterates the observations dict without `.items()`; Extend goes through its (field, values) pairs.
    merged := Extend(data, batch);
    var saved := SaveData(log + [RolledOut(run)], c.options.dataSavePath, clock, merged, Some("pretrain"), None);
    fitted := fit(learner, merged.observations, merged.targets, c.options.pretrainFit);
    log' := SaveModel(saved, c.options.modelSavePath, clock, fitted);
    TrainingLogged(log, c.options, clock, run, merged, Some("pretrain"), fitted);
  }

  /**
   * One DAgger iteration (imitation_learning/dagger.py:206-227), with the
   * mixing probability already multiplied by the rate: a rollout of the
   * current policy mixed with the expert, merged into the data, the data
   * saved, the learner refitted with the training keyword arguments, the
   * model saved and, when asked, the new policy tested right after the
   * rollout and its data saved under the iteration's suffix.
   */
  method Iterate<L>(c: Config, sys: System, expert: Expert, fit: Trainer<L>, policyOf: L -> Policy,
                    rand: nat -> real, clock: nat -> string, k: nat, mixing: real,
                    data: Dataset, learner: L, log: seq<Event<L>>, at: Cursor)
    returns (run: Run, merged: Dataset, fitted: L, test: Option<Run>, log': seq<Event<L>>, next: Cursor)
    ensures Faithful(run) && run.at == at
    ensures run.setup == Setup(sys, policyOf(learner), c.T, c.N, Some(expert), mixing, MixWithin(c), rand)
    ensures next == if c.testPolicy then Cursor(End(run).episodes + TestN(c), End(run).draws) else End(run)
    ensures merged == Merge(data, Batch(run))
    ensures fitted == fit(learner, merged.observations, merged.targets, c.options.trainFit)
    ensures test.Some? <==> c.testPolicy
    ensures test.Some? ==> && Faithful(test.value) && test.value.at == End(run)
                           && test.value.setup == TestSetup(sys, policyOf(fitted), TestT(c), TestN(c), rand)
    ensures var trained := SaveModel(SaveData(log + [RolledOut(run)], c.options.dataSavePath, clock, merged, None, None),
                                     c.options.modelSavePath, clock, fitted);
      log' == if test.None? then trained
              else SaveData(trained + [Tested("policy_test", test.value)], c.options.dataSavePath, clock, Batch(test.value),
                            Some("policy_test"), Some("iter" + NatToString(k)))
    ensures ViewOf(log') == IterationView(c, sys, policyOf, rand, ViewOf(log), k, run, merged, fitted)
    ensures Reached(log') == next
    ensures Sound(log, c.options, clock) && Reached(log) == at ==> Sound(log', c.options, clock)
    ensures TestsSaved(log, c.options.dataSavePath) ==> TestsSaved(log', c.options.dataSavePath)
  {
    var s := Setup(sys, policyOf(learner), c.T, c.N, Some(expert), mixing, MixWithin(c), rand);
    var batch, autonomy, trace, cursor;
    // Line 207 passes `expert` in the place of `T`; the call here follows `rollout`'s parameter order.
    batch, autonomy, trace, cursor := Rollout(s, at);
    run := Run(s, at, autonomy, trace);
    // Line 210 iterates the observations dict without `.items()`; Extend goes through its (field, values) pairs.
    merged := Extend(data, batch);
    var saved := SaveData(log + [RolledOut(run)], c.options.dataSavePath, clock, merged, None, None);
    fitted := fit(learner, merged.observations, merged.targets, c.options.trainFit);
    var modelled := SaveModel(saved, c.options.modelSavePath, clock, fitted);
    TrainingLogged(log, c.options, clock, run, merged, None, fitted);
    ghost var w := IterationView(c, sys, policyOf, rand, ViewOf(log), k, run, merged, fitted);
    log', next, test := modelled, cursor, None;
    if c.testPolicy {
      var tested;
      var suffix := Some("iter" + NatToString(k));
      var raised;
      tested, log', next, raised := RunTest(sys, policyOf(fitted), TestT(c), TestN(c), rand, cursor,
                                    c.options, clock, modelled, "policy_test", suffix);
      test := Some(tested);
      assert Some("policy_test") != Some("pretrain");
      TestView(ViewOf(modelled), c.options.dataSavePath, "policy_test", suffix, tested, Batch(tested));
    } else {
      ViewsEqual(w, ViewOf(modelled));
    }
  }

  /**
   * Everything before the DAgger iterations (imitation_learning/dagger.py:136-197):
   * the early tests, the initial dataset, and the pretraining when asked.
   */
  method Prepare<L>(c: Config, sys: System, expert: Expert, learner0: L, fit: Trainer<L>, policyOf: L -> Policy,
                    rand: nat -> real, clock: nat -> string)
    returns (data: Dataset, learner: L, pre: Option<Run>, learners: seq<L>, log: seq<Event<L>>, at: Cursor)
    ensures pre.Some? <==> c.pretrain
    ensures pre.Some? ==> && Faithful(pre.value)
                          && pre.value.setup == TestSetup(sys, expert.action, PretrainT(c), PretrainN(c), rand)
                          && Batch(pre.value).targets == Batch(pre.value).actions
    ensures Learned(c, sys, expert, fit, policyOf, rand, learner0, pre, [], learners, data)
    ensures Logged(c, sys, expert, policyOf, rand, clock, learner0, pre, [], learners, log)
    ensures learner == Last(learner0, learners) && at == Reached(log)
  {
    var expertTest, initialTest;
    expertTest, initialTest, log, at := TestFirst(c, sys, expert, policyOf, rand, clock, learner0);
    data, learner, learners, pre := Init(c), learner0, [], None;
    if c.pretrain {
      var run;
      run, data, learner, log, at := Pretrain(c, sys, expert, fit, rand, clock, data, learner, log, at);
      pre, learners := Some(run), [learner];
      PretrainAccumulated(c, run, data);
      PretrainedView(c, sys, expert, policyOf, rand, learner0, run, data, learner);
    } else {
      Untrained(c, sys, expert, fit, policyOf, rand, learner0);
    }
  }

  /** Without pretraining, the state before the iterations: no fit, the initial data, the early tests. */
  lemma Untrained<L>(c: Config, sys: System, expert: Expert, fit: Trainer<L>, policyOf: L -> Policy, rand: nat -> real, l0: L)
    requires !c.pretrain
    ensures Learned(c, sys, expert, fit, policyOf, rand, l0, None, [], [], Init(c))
    ensures Expected(c, sys, expert, policyOf, rand, l0, None, [], []) == EarlyView(c, sys, expert, policyOf, rand, l0)
  {
    var early := EarlyTests(c, sys, expert, policyOf, rand, l0);
    assert early + Pretraining(None) + Rounds(c, sys, policyOf, rand, [], []) == early;
    assert EarlySuffixes(c) + [] == EarlySuffixes(c);
    assert EarlyMarks(c) + PretrainMarks(c.options, None) + IterationsMarks(c, 0) == EarlyMarks(c);
  }

  /**
   * With pretraining, the view before the iterations: the early tests, the
   * pretraining rollout, then the merged data saved with prefix 'pretrain'
   * and the fitted model saved.
   */
  lemma PretrainedView<L>(c: Config, sys: System, expert: Expert, policyOf: L -> Policy, rand: nat -> real, l0: L,
                          run: Run, merged: Dataset, fitted: L)
    requires c.pretrain
    requires merged == Merge(Init(c), Batch(run))
    ensures Expected(c, sys, expert, policyOf, rand, l0, Some(run), [], [fitted])
         == AfterSaveModel(AfterSaveData(Note(EarlyView(c, sys, expert, policyOf, rand, l0), RolledOut(run)),
                                         c.options.dataSavePath, Some("pretrain"), None, merged),
                           c.options.modelSavePath, fitted)
  {
    PretrainAccumulated(c, run, merged);
    var o := c.options;
    var early := EarlyView(c, sys, expert, policyOf, rand, l0);
    var e := Expected(c, sys, expert, policyOf, rand, l0, Some(run), [], [fitted]);
    var v := AfterSaveModel(AfterSaveData(Note(early, RolledOut(run)), o.dataSavePath, Some("pretrain"), None, merged),
                            o.modelSavePath, fitted);
    assert v.models == e.models;
    assert v.training == e.training;
    assert v.runs == early.runs + [Training(run)];
    assert e.runs == v.runs by {
      assert Rounds(c, sys, policyOf, rand, [fitted], []) == [];
    }
    assert v.suffixes == early.suffixes;
    assert e.suffixes == v.suffixes by {
      assert EarlySuffixes(c) + [] == EarlySuffixes(c);
    }
    TrainingOrder(o, early, run, Some("pretrain"), merged, fitted);
    assert e.order == v.order by {
      assert EarlyMarks(c) + PretrainMarks(o, Some(run)) + IterationsMarks(c, 0)
          == EarlyMarks(c) + TrainingMarks(o, Some("pretrain"));
    }
    ViewsEqual(e, v);
  }

  /** A training rollout, the save of its merged data and the save of the refitted model leave their marks in this order. */
  lemma TrainingOrder<L>(o: Options, v: LogView<L>, run: Run, prefix: Option<string>, merged: Dataset, fitted: L)
    ensures AfterSaveModel(AfterSaveData(Note(v, RolledOut(run)), o.dataSavePath, prefix, None, merged), o.modelSavePath, fitted).order
         == v.order + TrainingMarks(o, prefix)
  {
    var rolled := Note(v, RolledOut(run));
    var saved := AfterSaveData(rolled, o.dataSavePath, prefix, None, merged);
    assert saved.order == v.order + [RunMark] + (if o.dataSavePath.Some? then [DataMark(prefix, None)] else []);
  }

  /** After the pretraining, the data is the initial data merged with its batch, and the only accumulated dataset. */
  lemma PretrainAccumulated(c: Config, run: Run, merged: Dataset)
    requires merged == Merge(Init(c), Batch(run))
    ensures MergeAll(Init(c), Batches(Some(run), [])) == merged
    ensures Accumulated(Init(c), Batches(Some(run), [])) == [merged]
  {
    assert Batches(Some(run), []) == [Batch(run)];
    assert MergeAll(Init(c), [Batch(run)]) == Merge(MergeAll(Init(c), []), Batch(run));
  }

  /**
   * Iterate, seen from the loop: it keeps Learned and Logged, so the
   * iteration's rollout starts where the runs before it ended, its test's
   * data is saved, and its fit becomes the latest learner.
   */
  method Round<L>(c: Config, sys: System, expert: Expert, fit: Trainer<L>, policyOf: L -> Policy,
                  rand: nat -> real, clock: nat -> string, l0: L,
                  pre: Option<Run>, iters: seq<Run>, learners: seq<L>,
                  mixing: real, data: Dataset, learner: L, log: seq<Event<L>>, at: Cursor)
    returns (run: Run, merged: Dataset, fitted: L, log': seq<Event<L>>, next: Cursor)
    requires Learned(c, sys, expert, fit, policyOf, rand, l0, pre, iters, learners, data)
    requires Logged(c, sys, expert, policyOf, rand, clock, l0, pre, iters, learners, log)
    requires learner == Last(l0, learners) && mixing == Pow(c.mixingRate, |iters| + 1) && at == Reached(log)
    ensures Learned(c, sys, expert, fit, policyOf, rand, l0, pre, iters + [run], learners + [fitted], merged)
    ensures Logged(c, sys, expert, policyOf, rand, clock, l0, pre, iters + [run], learners + [fitted], log')
    ensures fitted == Last(l0, learners + [fitted]) && next == Reached(log')
  {
    var test;
    run, merged, fitted, test, log', next := Iterate(c, sys, expert, fit, policyOf, rand, clock, |iters|, mixing, data, learner, log, at);
    BatchesSnoc(c, pre, iters, run);
    RefitStep(c, fit, l0, pre, iters, learners, run, merged, fitted);
    IterationsSnoc(c, sys, expert, policyOf, rand, l0, iters, learners, run, fitted);
    ExpectedStep(c, sys, expert, policyOf, rand, l0, pre, iters, learners, run, merged, fitted);
  }

  /**
   * Everything `dagger` does before its final test (imitation_learning/dagger.py:136-227):
   * the preparation, then `iterations` rounds.
   */
  method Train<L>(c: Config, sys: System, expert: Expert, learner0: L, fit: Trainer<L>, policyOf: L -> Policy,
                  rand: nat -> real, clock: nat -> string)
    returns (policy: Policy, data: Dataset, learner: L, pre: Option<Run>, iters: seq<Run>, learners: seq<L>,
             log: seq<Event<L>>, at: Cursor)
    ensures pre.Some? <==> c.pretrain
    ensures pre.Some? ==> && Faithful(pre.value)
                          && pre.value.setup == TestSetup(sys, expert.action, PretrainT(c), PretrainN(c), rand)
                          && Batch(pre.value).targets == Batch(pre.value).actions
    ensures |iters| == c.iterations
    ensures Learned(c, sys, expert, fit, policyOf, rand, learner0, pre, iters, learners, data)
    ensures Logged(c, sys, expert, policyOf, rand, clock, learner0, pre, iters, learners, log)
    ensures learner == Last(learner0, learners) && policy == policyOf(learner) && at == Reached(log)
  {
    data, learner, pre, learners, log, at := Prepare(c, sys, expert, learner0, fit, policyOf, rand, clock);
    iters := [];
    var mixing := 1.0;
    policy := policyOf(learner);
    var k := 0;
    while k < c.iterations
      invariant k <= c.iterations && |iters| == k
      invariant Learned(c, sys, expert, fit, policyOf, rand, learner0, pre, iters, learners, data)
      invariant Logged(c, sys, expert, policyOf, rand, clock, learner0, pre, iters, learners, log)
      invariant learner == Last(learner0, learners) && policy == policyOf(learner) && at == Reached(log)
      invariant mixing == Pow(c.mixingRate, k)
    {
      mixing := DecayMixing(mixing, c.mixingRate, k);
      var run, fitted;
      run, data, fitted, log, at := Round(c, sys, expert, fit, policyOf, rand, clock, learner0, pre, iters, learners,
                                          mixing, data, learner, log, at);
      iters, learners, learner := iters + [run], learners + [fitted], fitted;
      policy := policyOf(learner);
      k := k + 1;
    }
  }

  /** The view of the whole log: the expected view after the iterations, then the final test when asked. */
  ghost function Concluded<L>(c: Config, sys: System, expert: Expert, policyOf: L -> Policy, rand: nat -> real, l0: L,
                              pre: Option<Run>, iters: seq<Run>, learners: seq<L>): LogView<L> {
    AfterTest(Expected(c, sys, expert, policyOf, rand, l0, pre, iters, learners), c.testFinal, c.options.dataSavePath,
              "final_test", TestSetup(sys, policyOf(Last(l0, learners)), FinalT(c), FinalN(c), rand))
  }

  /**
   * `dagger` (imitation_learning/dagger.py:90-240). It returns the latest
   * policy and the aggregated data; the pretraining run, the iterations'
   * runs, the learners the fits produced and the log are returned beside
   * them so that the contract can speak of them.
   */
  method Dagger<L>(c: Config, sys: System, expert: Expert, learner0: L, fit: Trainer<L>, policyOf: L -> Policy,
                   rand: nat -> real, clock: nat -> string)
    returns (policy: Policy, data: Dataset, learner: L, pre: Option<Run>, iters: seq<Run>, learners: seq<L>, log: seq<Event<L>>)
    ensures pre.Some? <==> c.pretrain
    ensures pre.Some? ==> && Faithful(pre.value)
                          && pre.value.setup == TestSetup(sys, expert.action, PretrainT(c), PretrainN(c), rand)
                          && Batch(pre.value).targets == Batch(pre.value).actions
    ensures |iters| == c.iterations
    ensures Learned(c, sys, expert, fit, policyOf, rand, learner0, pre, iters, learners, data)
    ensures Sound(log, c.options, clock) && TestsSaved(log, c.options.dataSavePath)
    ensures ViewOf(log) == Concluded(c, sys, expert, policyOf, rand, learner0, pre, iters, learners)
    ensures learner == Last(learner0, learners) && policy == policyOf(learner)
  {
    var at, final;
    policy, data, learner, pre, iters, learners, log, at := Train(c, sys, expert, learner0, fit, policyOf, rand, clock);
    final, log, at := MaybeTest(c.testFinal, sys, policyOf(learner), FinalT(c), FinalN(c), rand, at,
                                c.options, clock, log, "final_test");
  }
}
