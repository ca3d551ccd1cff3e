# DAgger orchestration, modelled in Dafny

This project models the core of `imitation_learning`, a small Python library for
imitation learning with the DAgger algorithm (dataset aggregation). It covers:

- **Rollouts** (`rollout`, `test_policy_sys`). N episodes of T steps are run on a
  system. At each decision point, either the learner's policy or an expert drives.
  The decision is made once per episode, or once per step with `mix_within_rollout`.
  Each step that does not return `done` is recorded: its observation fields, the
  executed target, the learner's action and the reward.
- **The DAgger driver** (`dagger`). It runs:
  - optional tests of the expert and of the initial policy;
  - optional pretraining on expert rollouts;
  - `iterations` rounds, each of which:
    - runs mixed rollouts at mixing probability `mixing_rate^(k+1)`;
    - merges the new batch into the aggregated dataset;
    - saves the data;
    - refits the learner and saves the model;
    - optionally tests the new policy;
  - an optional final test.
- **File names** built by `save_data` and `save_model`, and by
  `KerasLearner._get_path_names`.
- **The parts of `KerasLearner` that do not call into Keras**:
  - selecting the configured fields when fitting and predicting;
  - the field metadata that `save` writes and `load` reads back.

How the model is built:

- **Rollouts and the DAgger loop are imperative**: methods with loops that carry
  invariants. Each is proved against a specification function:
  - `EpisodesFaithful`, `Collect` and `CollectEpisodes` for rollouts;
  - `MergeAll`, `Accumulated` and `Refits` for the aggregated data and the learners
    the fits produce;
  - `Sound`, `Reached`, `TestsSaved` and `ViewOf` for the log of runs, saves and tests,
    and for the order in which they happen.
    Soundness chains the runs: each starts where the one before it left the system's
    episodes and the random draws.
- **Collaborators are values:**
  - the system is a deterministic script;
  - the policy and the expert's action are functions;
  - the random generator is the sequence of its draws `rand(k)`;
  - the learner is an abstract state `L`, with `fit` and `get_policy` passed as functions;
  - the clock is a function from the position of a save in the log to its timestamp.
- **Saves are events in a log** rather than files.

The modules are:

| file | module | covers |
|---|---|---|
| `basics.dfy` | `Basics` | `Option` and `Result` |
| `data.dfy` | `Data` | the dataset, recording a step, merging batches |
| `naming.dfy` | `Naming` | directory normalisation, data and model file names |
| `rollout.dfy` | `Rollouts` | `rollout` and `test_policy_sys` |
| `learners.dfy` | `Learners` | `KerasLearner` field selection, path names, options save/load |
| `dagger.dfy` | `Driver` | `dagger`, `save_data` and `save_model` as log events, the mixing schedule |

## Departures from the code as written

The code has several defects that would crash it or make it ignore its arguments.
The model follows the evident intent in each case:

- **Random draw (`dagger.py:23`, `:34`).** The code compares the function
  `np.random.random` instead of a draw. The model compares a draw; see Findings.
- **Autonomous flag (`dagger.py:24`).** The code reads `expert.autonomous` without
  calling it. The model calls it; see Findings.
- **Dict key typo (`dagger.py:166`).** The key is `'targets:'`. The model gives the
  dataset a `targets` list from the start.
- **Dict iteration (`dagger.py:186`, `:210`).** The code iterates the observations
  dict without `.items()`. The model iterates its `(field, values)` pairs.
- **Pretraining policy (`dagger.py:185`).** The code passes the expert object as
  the policy. The model uses `expert.action`, with no mixing, as in `test_policy_sys`.
- **Expert test policy (`dagger.py:152`).** The code passes the expert object as
  the policy. The model tests `expert.action`.
- **Argument order (`dagger.py:207`).** The code passes `expert` where `T` is
  expected. The model calls `rollout` with `T, N, expert, mixing, mix_within_rollout`.
- **Base constructor call (`learners.py:37`).** The code leaves out `model`, so each
  argument lands one parameter early. `Learners.KerasLearner` holds the attributes as
  intended; the code as written is modelled beside it; see Findings.

A step that returns `done` is not recorded, but it does not end its episode: the
loop at `dagger.py:31-43` has no `break`, so later steps are still run and recorded.
The model follows the code here.

An observation has two shapes. `Rollouts.Policy` takes it as a sequence of
`(field, value)` pairs, because `dagger.py:39` iterates it as pairs. `Learners.Predict`
takes it as a map, because `learners.py:160` indexes it by field. The source has the
same mismatch between the rollout and the learner's policy.

## Model

| member | source | states |
|---|---|---|
| Naming.Directory | imitation_learning/dagger.py:66-67 | the result ends with '/', equals the path exactly when the path already ends with '/', and otherwise is the path plus one character |
| Naming.DirectoryIdempotent | imitation_learning/learners.py:119-120 | normalising a normalised directory changes nothing |
| Naming.DataFile | imitation_learning/dagger.py:64-74 | a file name exists exactly when a path is configured, so `save_data` with no path saves nothing |
| Naming.ModelTarget | imitation_learning/dagger.py:80-86 | a target exists exactly when a model path is configured |
| Naming.ModelTargetLayout | imitation_learning/dagger.py:80-86 | a model is saved in the normalised directory under 'model_' followed by its timestamp, which can be read back off the name; two timestamps give the same target exactly when they are equal |
| Naming.DataFileLayout | imitation_learning/dagger.py:66-74 | a data file name reads: the normalised directory, 'data_', the timestamp, then '_'+prefix and '_'+suffix when given |
| Naming.DataFileEndsWithSuffix | imitation_learning/dagger.py:72-73 | a file saved with a suffix ends with '_' and that suffix, whatever the prefix |
| Naming.TagsSuffix | imitation_learning/dagger.py:70-73 | the suffix can be read back after the prefix tag and one underscore |
| Naming.DataFileDistinguishesStamps | imitation_learning/dagger.py:68-74 | in one directory, two data files with timestamps of the same width share a name only if they share the timestamp and the tags |
| Data.AppendFieldsAdds | imitation_learning/dagger.py:39-40 | appending an observation adds exactly its fields, and each field's list gains exactly that field's values, in order |
| Data.AppendFieldsColumn | imitation_learning/dagger.py:39-40 | each field's list becomes the old list followed by the observation's values for that field |
| Data.AppendFieldsKeys | imitation_learning/dagger.py:39-40 | the fields after appending are the old fields plus those the observation mentions |
| Data.MergeColumns | imitation_learning/dagger.py:186-188 | the merged fields are the union, and each field's list is the old list followed by the batch's list (empty when absent) |
| Data.MergeAppends | imitation_learning/dagger.py:186-191 | merging leaves every existing entry in place and puts the batch's entries right after, in every list |
| Data.MergeAligned | imitation_learning/dagger.py:210-215 | merging two aligned datasets over the same fields gives an aligned dataset |
| Data.MergeEmpty | imitation_learning/dagger.py:164-169 | the empty dataset is a left and right identity of merging |
| Data.MergeAssociative | imitation_learning/dagger.py:210-215 | merging batch by batch equals merging the batches' merge once |
| Data.MergeAllAligned | imitation_learning/dagger.py:210-215 | accumulating aligned batches into an aligned dataset keeps it aligned |
| Data.ExtendStep | imitation_learning/dagger.py:186-188 | extending one more field's list keeps every other field as it was and extends that one by the batch's list |
| Data.Extend | imitation_learning/dagger.py:186-191 | extending the dataset field by field, then the three lists, gives the merge of the dataset and the batch |
| Rollouts.StepsFaithfulAt | imitation_learning/dagger.py:31-37 | step t queried the policy on the observation before it, chose the source by its deciding draw, and got the system's reply to the targets sent so far |
| Rollouts.EpisodesFaithfulAt | imitation_learning/dagger.py:21-43 | episode r announced the autonomous flag of its first draw and ran T faithful steps from its draw base |
| Rollouts.EpisodeBaseIsLinear | imitation_learning/dagger.py:23-34 | episode r starts after r times the per-episode draws: none without mixing, one per episode, or T + 1 per episode when mixing per step |
| Rollouts.AppendObservation | imitation_learning/dagger.py:39-40 | the loop over `(field, value)` pairs computes AppendFields |
| Rollouts.Decide | imitation_learning/dagger.py:23 | the expert drives exactly when mixing is on and the draw is below the mixing probability |
| Rollouts.RunStep | imitation_learning/dagger.py:35-43 | the step is faithful, acts on the given observation, is the reply to the targets sent plus its own, and is recorded exactly when not done |
| Rollouts.RunEpisode | imitation_learning/dagger.py:23-43 | the episode is T faithful steps, its flag is the intended autonomous flag, the data is its steps collected, and the draws advance by one episode's worth |
| Rollouts.Rollout | imitation_learning/dagger.py:9-48 | N faithful episodes, the data collected from them, and the cursor advanced by N episodes and their draws |
| Rollouts.TestPolicy | imitation_learning/dagger.py:51-59 | a faithful rollout with no expert that takes no draw and records targets equal to actions; it reports that the reward statistics raise exactly when fewer rewards, or fewer live steps, were recorded than rollouts |
| Rollouts.TestRaisesWhenShort | imitation_learning/dagger.py:51-56 | the statistics index one reward per rollout number, so they raise IndexError exactly when fewer live steps than rollouts were recorded; with T = 0 and N >= 1 they always raise |
| Rollouts.CollectRecordsLiveSteps | imitation_learning/dagger.py:38-43 | targets, actions and rewards gain exactly those of the non-done steps, in order |
| Rollouts.CollectRecordsLiveFields | imitation_learning/dagger.py:38-40 | each field's list gains exactly that field's values from the non-done steps' observations, in order |
| Rollouts.LiveAt | imitation_learning/dagger.py:37-38 | step k contributes one record at its place exactly when it is not done; a done step does not stop later ones |
| Rollouts.RolloutRecordsLiveSteps | imitation_learning/dagger.py:31-43 | a rollout's lists hold exactly its non-done steps, at most N * T of them, and each field's list holds that field's values from those steps |
| Rollouts.NoMixingRecordsLearnerActions | imitation_learning/dagger.py:20-36 | with no expert or mixing 0, no step is driven by the expert and every recorded target is the recorded action |
| Rollouts.NoMixingTargets | imitation_learning/dagger.py:36-42 | without mixing, the collected targets equal the collected actions |
| Rollouts.CollectAligned | imitation_learning/dagger.py:39-43 | recording steps whose observations carry the same fields once each keeps the dataset aligned |
| Rollouts.RolloutAligned | imitation_learning/dagger.py:39-43 | if every non-done reply carries the same fields once each, every field's list is as long as the targets, actions and rewards |
| Rollouts.ExpertForcedDrivesEveryStep | imitation_learning/dagger.py:23-36 | with an expert, mixing 1.0 and draws in [0, 1), the expert drives every step and every target is the expert's action on that step's observation |
| Rollouts.ChoiceGranularity | imitation_learning/dagger.py:23-34 | without mix_within_rollout every step follows the episode's first draw; with it, step t follows draw t + 1 of the episode |
| Rollouts.LearnerDrivesAsWritten | imitation_learning/dagger.py:23 | as written, the learner always drives |
| Rollouts.ExpertNeverDrivesAsWritten | imitation_learning/dagger.py:34 | a draw that the intended rule gives to the expert is still driven by the learner as written |
| Rollouts.StartsAutonomousAsWritten | imitation_learning/dagger.py:24 | as written, the flag passed to wait_for_rollout is always true |
| Rollouts.SupervisedExpertAsWritten | imitation_learning/dagger.py:24-25 | an expert that is not autonomous and drives gets false as intended, but true as written |
| Learners.PathNames | imitation_learning/learners.py:117-124 | the three paths are normalised directory + name followed by '.json', '_options.json' and '_weights.h5', and are pairwise distinct |
| Learners.PathNamesNormalised | imitation_learning/learners.py:119-120 | a directory with or without its trailing '/' gives the same three paths |
| Learners.PathNamesInjective | imitation_learning/learners.py:121-123 | in one directory, different names never share any of the three files |
| Learners.ModelFilesApartFromData | imitation_learning/dagger.py:69-86 | in the same directory, a saved model's files never coincide with a saved data file |
| Learners.Select | imitation_learning/learners.py:139 | one entry per configured field, in order, when all are present; otherwise the first missing field |
| Learners.Fit | imitation_learning/learners.py:137-145 | fitting proceeds exactly when the field list is non-empty and all fields are present, with one input per field in order, the targets unchanged and the first input's length as sample count; otherwise a missing field or no inputs |
| Learners.Filled | imitation_learning/learners.py:139 | reading every configured field of a `defaultdict(list)` inserts exactly the missing fields, each with an empty list, and changes no list |
| Learners.FitDefaultDict | imitation_learning/learners.py:137-145 | on the aggregated data `dagger` passes, a defaultdict, fitting fails only for an empty field list; otherwise one input per field in order, an absent field as an empty input, the targets unchanged, the first input's length as sample count, and the absent fields inserted |
| Learners.FitDefaultDictAgrees | imitation_learning/learners.py:137-145 | when the data holds every configured field, the defaultdict makes no difference |
| Learners.Predict | imitation_learning/learners.py:159-164 | None exactly when a configured field is missing; otherwise the model's prediction on one input per field, in order |
| Learners.SaveOptions | imitation_learning/learners.py:104-107 | the options hold exactly field_names and field_dims, one entry per field and per dims |
| Learners.LoadOptions | imitation_learning/learners.py:94-95 | a missing field_names or field_dims key is reported as that key |
| Learners.OptionsRoundTrip | imitation_learning/learners.py:104-107 | reading back saved options gives the learner's own field names and dims |
| Learners.Save | imitation_learning/learners.py:100-115 | exactly three files: the structure, the weights and the options |
| Learners.Load | imitation_learning/learners.py:84-98 | the corrected load: a missing structure file is reported first, then a missing weights file; with all three files present, it succeeds exactly when the options read back, and otherwise fails with the options' error; a loaded learner has the structure file's model and the fields and dims of its options file |
| Learners.SaveLoadRoundTrip | imitation_learning/learners.py:84-115 | with the constructor as intended, loading what save wrote, from the directory with or without '/', gives back the saved learner |
| Learners.ConstructAsWritten | imitation_learning/learners.py:37 | as written, the constructor stores the field dims as the fields and the logger name as the dims, and drops the field names |
| Learners.LoadAsWritten | imitation_learning/learners.py:84-98 | as written, load succeeds exactly when the three files and both option keys are present, with the structure's model, the saved dims as the fields and the logger name as the dims |
| Learners.SaveLoadAsWritten | imitation_learning/learners.py:37 | as written, loading a saved learner gives its dims back as its fields and the logger name, a string, as its dims, so it never gives back the saved learner |
| Driver.ReachedSnoc | imitation_learning/dagger.py:21-43 | a rollout or test appended to the log moves the cursor (episodes run on the system, random draws taken) to where that run ended; a save leaves it where it was |
| Driver.SoundAt | imitation_learning/dagger.py:21-74 | event i of a sound log is a faithful run that begins where the runs before it left the system and the draws, or a save under the name its timestamp gives |
| Driver.ViewOrderIsLog | imitation_learning/dagger.py:150-236 | the order a view records is the log itself: one mark per event, position by position |
| Driver.SaveDataView | imitation_learning/dagger.py:62-75 | a data save shows in the view only when a path is configured, as training data under no prefix or 'pretrain' and as a test's suffix otherwise, and it moves no cursor |
| Driver.SaveModelView | imitation_learning/dagger.py:78-87 | a model save adds the learner to the saved models only when a path is configured, and it moves no cursor |
| Driver.SaveDataSound | imitation_learning/dagger.py:64-74 | a data save keeps every event named as the configured path and its timestamp give |
| Driver.SaveModelSound | imitation_learning/dagger.py:80-86 | a model save keeps every event named as the configured path and its timestamp give |
| Driver.TrainingSavesUntested | imitation_learning/dagger.py:192-197 | a training data save and a model save change neither the tests that ran nor the test data that was saved |
| Driver.TestLogged | imitation_learning/dagger.py:223-227 | a test and the save of its data: the view gains the test and, with a data path, its suffix; the cursor moves to the test's end; the log stays sound when the test starts where the log stands; every test's data is still saved under its kind |
| Driver.TrainingLogged | imitation_learning/dagger.py:207-221 | a training rollout, the data save and the model save: the view gains exactly these; the cursor moves to the rollout's end; soundness is kept when the rollout starts where the log stands; the tests' saves are untouched |
| Driver.DecayMixing | imitation_learning/dagger.py:206 | multiplying by the rate moves mixing from rate^k to rate^(k+1) |
| Driver.MixingDecays | imitation_learning/dagger.py:200-206 | for a rate in [0, 1], mixing stays in [0, 1] and never grows; it decreases strictly for a rate in (0, 1), is 0 from the first iteration for rate 0, and stays 1 for rate 1 |
| Driver.NatToString | imitation_learning/dagger.py:227 | `str(k)` is a non-empty string of decimal digits without a leading zero |
| Driver.NatToStringRoundTrip | imitation_learning/dagger.py:227 | the digits of `str(k)` denote k |
| Driver.IterSuffixInjective | imitation_learning/dagger.py:226-227 | different iterations have different 'iter' suffixes |
| Driver.PolicyTestFilesDistinct | imitation_learning/dagger.py:226-227 | policy-test files of two iterations never share a name, even with equal timestamps |
| Driver.AccumulatedAt | imitation_learning/dagger.py:210-216 | the j-th saved training dataset is the initial data with batches 0..j merged in |
| Driver.RefitsAt | imitation_learning/dagger.py:217-220 | fit j starts from the learner fit j - 1 produced and is fitted on the data accumulated up to batch j, with the pretraining or training arguments |
| Driver.RefitStep | imitation_learning/dagger.py:217-220 | an iteration's fit is the next refit on the data accumulated so far |
| Driver.RoundsSnoc | imitation_learning/dagger.py:205-227 | one more iteration appends its rollout to the runs and then, when policy tests are on, the test of its own fit |
| Driver.ExpectedStep | imitation_learning/dagger.py:210-227 | one iteration adds its model, its merged data, its rollout followed by its policy test, its suffix, and the marks of its events in order to the expected view |
| Driver.OrderStep | imitation_learning/dagger.py:205-227 | the order after iteration k is the order before it followed by that iteration's rollout, data save, model save and policy test with its save |
| Driver.ZeroRateRecordsLearnerActions | imitation_learning/dagger.py:205-208 | with mixing rate 0, no iteration's step is driven by the expert and its targets are its actions |
| Driver.FullRateExpertDrives | imitation_learning/dagger.py:200-208 | with mixing rate 1 and draws in [0, 1), the expert drives every step of every iteration |
| Driver.AggregateAligned | imitation_learning/dagger.py:186-215 | aligned initial data and uniform replies keep the aggregated data aligned |
| Driver.RunTest | imitation_learning/dagger.py:223-227 | a faithful no-expert run from the given cursor whose targets are its actions, appended as a test and followed by the save of exactly its data under the test's kind and suffix; the cursor moves by N episodes and no draw; it reports whether the reward statistics raise; soundness and the saving of every test's data are kept |
| Driver.TestFirst | imitation_learning/dagger.py:145-162 | the log is exactly the expert test and the save of its data, then the initial-policy test and the save of its data, each test when asked and from where the one before it ended; the view shows them in that order; the cursor stands after their episodes, with no draw taken |
| Driver.MaybeTest | imitation_learning/dagger.py:150-162 | a test runs exactly when asked, from the given cursor; the log gains exactly that test and the save of its data under its kind; the cursor moves by its episodes; soundness and the saving of every test's data are kept |
| Driver.EarlyViewSteps | imitation_learning/dagger.py:145-162 | the view expected after the early tests is the expert test and then the initial-policy test, each when asked, with their saves right after them |
| Driver.TestView | imitation_learning/dagger.py:150-162 | a test followed by the save of its data shows as that test and, with a data path, as a save of its kind under the given suffix, in that order |
| Driver.Pretrain | imitation_learning/dagger.py:180-197 | expert rollouts without mixing from the given cursor, ending after their episodes with no draw taken; merged into the data; the learner fitted with the pretraining arguments; the log gains exactly the rollout, then the data save with prefix 'pretrain', then the model save |
| Driver.PretrainAccumulated | imitation_learning/dagger.py:186-192 | after pretraining, the data is the initial data merged with its batch, and it is the only saved training dataset |
| Driver.Untrained | imitation_learning/dagger.py:164-177 | without pretraining there are no fits, the data is the loaded data or empty, and the expected view, its order included, is the early tests alone |
| Driver.PretrainedView | imitation_learning/dagger.py:180-197 | with pretraining, the view before the iterations is the early tests, then the pretraining rollout, then the merged data saved with prefix 'pretrain', then the fitted model saved, each save only when its path is configured |
| Driver.TrainingOrder | imitation_learning/dagger.py:185-197 | a training rollout, the save of its merged data and the save of the refitted model leave their marks in that order |
| Driver.Prepare | imitation_learning/dagger.py:136-197 | pretraining happens exactly when asked; the data and the learners are as expected before the iterations; the log's events are the early tests and the pretraining, with their saves, in the order the source makes them; the cursor is where the log's runs left it |
| Driver.Iterate | imitation_learning/dagger.py:205-227 | a rollout of the current policy mixed with the expert, from the given cursor; merged and refitted with the training arguments; the log gains exactly the rollout, the data save, the model save and, when asked, the test of the new policy from the rollout's end and the save of its data with suffix 'iter'+k; soundness and the saving of every test's data are kept |
| Driver.Round | imitation_learning/dagger.py:205-227 | one iteration keeps the data and fits as expected, the log sound with every run starting where the one before ended, every test's data saved, and the view, with the order of all events, as expected; its fit becomes the latest learner |
| Driver.Train | imitation_learning/dagger.py:136-227 | pretraining happens exactly when asked; exactly `iterations` iterations run; afterwards the data, the learners and the log are as expected, its events in the order the source makes them; the cursor is where the log's runs left it, and the returned policy is the latest learner's |
| Driver.Dagger | imitation_learning/dagger.py:90-240 | exactly `iterations` iterations run, each a faithful rollout of the latest policy mixed with the expert at rate^(k+1); the data is the initial data with every batch merged; there is one fit per iteration plus one for pretraining, each on the data accumulated so far; every run starts where the one before it ended; every test's data is saved under its kind when a data path is configured; the log's events come in the source's order (early tests, pretraining, then per iteration rollout, data save, model save and policy test, then the final test), each with the run, data, model or suffix expected; the returned policy is the latest learner's |

## Left out

- Keras: compiling the model, `fit`, `predict`, `model_from_json`, and the weights
  format. The model is a type parameter, and fit and predict are function parameters.
- File I/O: `np.savez`, `np.load`, `open`, `json.dump` and `json.load`.
  - Saves are events in a log.
  - The files of a saved learner are a map from path to contents.
  - The loaded data is given as a dataset value (`Config.loaded`).
- The clock: `datetime.fromtimestamp(time())` is the parameter `clock`.
- Random draws: `np.random.random` is the parameter `rand`.
- `np.isclose(mixing, 0.0)` is modelled as an exact test for 0.
- `test_policy_sys`'s reward mean and variance (`dagger.py:55-58`) are not computed.
  They are floating-point statistics for a log line. `test_policy_sys` is modelled as a
  rollout with no expert.
- Rollouts.TestPolicy: the indexing at `dagger.py:55` takes one reward per rollout number
  from the flat list of rewards. It raises IndexError when fewer than N rewards were
  recorded, for instance with T = 0 and N >= 1, or when every step returns `done`. The model
  reports this as the `raised` result (`Rollouts.StatisticsRaise`) instead of stopping.
- Driver.Dagger: a test whose statistics raise ends the source's `dagger` with IndexError at
  that test. The model's driver reports it from each `RunTest` call, but it does not stop:
  it runs the remaining phases, so its contract covers the runs the source never reaches.
- Logging, `imitation_learning/util.py` and the logger name `log_name`.
- The system is modelled as deterministic per episode: a reply depends only on the
  episode's index and the targets sent so far in that episode. A system with hidden
  state shared across episodes is not modelled.
- `KerasLearner.__init__` is modelled only for the two attributes `save` writes
  (`Learners.ConstructAsWritten`); compiling the model is left out with Keras.
- Learners.Load: the logger name, and the keyword options that `load` forwards to the
  constructor, are not modelled. `Learners.LoadAsWritten` keeps the logger name because
  the constructor as written stores it.
- Learners.LoadOptions: the source's `load` accepts whatever JSON values the two keys hold
  and hands them to the constructor. The model accepts only a list of strings and a list of
  integer lists, and returns Malformed for anything else.
- Learners.OptionsRoundTrip: JSON writes tuples as lists, so a learner whose field names or
  dims are tuples reads back lists. The model's sequences do not tell a tuple from a list.
- Learners.SaveLoadRoundTrip: the same holds for the learner that `load` gives back. The
  round trip is stated for the constructor as intended; see Findings for the one as written.
- Learners.Fit: this is the call on a plain dict, where a missing field is an error value. In
  the source, the KeyError is logged first, and the failure is the later use of the unbound
  `inputs`. `dagger` passes a `defaultdict(list)`, which Learners.FitDefaultDict models.
- Driver.Dagger: the learner is abstract, so the fields that `fit` inserts into the
  aggregated observations when they are read from the defaultdict are not in the returned
  or saved data. Those inserted fields hold empty lists.
- Floating point: observations, actions, rewards, the mixing probability and the draws are
  exact reals. Rounding in `mixing *= mixing_rate` and in numpy arrays is not modelled.
- Exceptions from collaborators are not modelled. In the source, an error raised by the
  system, the expert, the policy, the learner or a file write propagates out of `dagger`;
  in the model these are total functions.
- The `**options` dict's unknown keys, and the docstring's option names that differ
  from the ones read (`roll_pretrain` vs `rollouts_pretrain`). The model reads the
  keys the code reads.
- Concurrency and the blocking of `wait_for_rollout` are not modelled.

## Findings

| source | as written | input that shows it | evidently intended | confidence | as-written member | corrected member |
|---|---|---|---|---|---|---|
| imitation_learning/dagger.py:23 | `np.random.random < mixing` compares the function object with a number. Under Python 2 that is always false, so the learner always drives. Python 3 raises TypeError, but only when `mix` holds, because `and` short-circuits | an expert, mixing 1.0 and any draw in [0, 1): the expert should drive, but the learner does | compare a fresh draw `np.random.random()` with `mixing` | high, not executed | Rollouts.ExpertNeverDrivesAsWritten | Rollouts.ExpertForcedDrivesEveryStep |
| imitation_learning/dagger.py:24 | `use_imlearn or expert.autonomous` reads the bound method without calling it, and a bound method is always true | an expert that is not autonomous and drives the episode: `wait_for_rollout` gets the bound method, which is truthy, instead of False. The defect is latent while line 23 never lets the expert drive | call `expert.autonomous()` | high, not executed | Rollouts.SupervisedExpertAsWritten | Rollouts.RunEpisode |
| imitation_learning/learners.py:37 | `super(KerasLearner, self).__init__(field_names, field_dims, log_name)` leaves out `model`. Against `Learner.__init__(self, model, field_names, field_dims, log_name)` (learner.py:11, 26-27), `self.fields` becomes the field dims and `self.dims` becomes the logger name. Every `KerasLearner` is built this way, including the one `load` returns | any learner saved and loaded with the default logger name: its fields come back as its dims, and its dims as the string 'imlearn' | pass `model` on: `__init__(model, field_names, field_dims, log_name)` | high, not executed | Learners.SaveLoadAsWritten | Learners.SaveLoadRoundTrip |
