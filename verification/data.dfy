/**
 * The dataset that rollouts produce and the DAgger loop accumulates
 * (imitation_learning/dagger.py). In Python it is a dict holding a
 * `defaultdict(list)` of per-field observation lists and three plain lists:
 * `targets`, `actions` and `rewards`.
 */
module Data {

  type Field = string

  /** One sample of one observation field (a numpy array in the source). */
  type Value = seq<real>

  /** A control action (a numpy array in the source). */
  type Action = seq<real>

  /** An observation as the system returns it: `(field, value)` pairs, iterated in order. */
  type Obs = seq<(Field, Value)>

  datatype Dataset = Dataset(
    observations: map<Field, seq<Value>>,
    targets: seq<Action>,
    actions: seq<Action>,
    rewards: seq<real>)

  /**
   * The dataset a rollout or the DAgger loop starts from, with a `targets`
   * list (imitation_learning/dagger.py:166 spells that key 'targets:').
   */
  const Empty: Dataset := Dataset(map[], [], [], [])

  /** The list a `defaultdict(list)` hands out for `f`: the stored one, or a fresh empty one. */
  function Column(m: map<Field, seq<Value>>, f: Field): seq<Value> {
    if f in m then m[f] else []
  }

  /** The fields that an observation mentions. */
  function FieldsOf(obs: Obs): set<Field> {
    set i | 0 <= i < |obs| :: obs[i].0
  }

  /** The values that `obs` carries for `f`, in order. */
  function ValuesOf(obs: Obs, f: Field): (vs: seq<Value>)
    ensures |vs| <= |obs|
  {
    if obs == [] then []
    else ValuesOf(obs[..|obs| - 1], f) + (if obs[|obs| - 1].0 == f then [obs[|obs| - 1].1] else [])
  }

  /**
   * The observation lists after `for field, value in obs:
   * observations[field].append(value)` (imitation_learning/dagger.py:39-40).
   */
  function AppendFields(m: map<Field, seq<Value>>, obs: Obs): map<Field, seq<Value>> {
    if obs == [] then m
    else
      var m' := AppendFields(m, obs[..|obs| - 1]);
      var f := obs[|obs| - 1].0;
      m'[f := Column(m', f) + [obs[|obs| - 1].1]]
  }

  /**
   * Appending an observation adds exactly the fields it mentions, and each
   * field's list gains exactly the values the observation carries for it, in order.
   */
  lemma AppendFieldsAdds(m: map<Field, seq<Value>>, obs: Obs)
    ensures AppendFields(m, obs).Keys == m.Keys + FieldsOf(obs)
    ensures forall f :: Column(AppendFields(m, obs), f) == Column(m, f) + ValuesOf(obs, f)
  {
    AppendFieldsKeys(m, obs);
    forall f ensures Column(AppendFields(m, obs), f) == Column(m, f) + ValuesOf(obs, f) {
      AppendFieldsColumn(m, obs, f);
    }
  }

  lemma {:induction false} AppendFieldsKeys(m: map<Field, seq<Value>>, obs: Obs)
    ensures AppendFields(m, obs).Keys == m.Keys + FieldsOf(obs)
  {
    if obs != [] {
      var init := obs[..|obs| - 1];
      AppendFieldsKeys(m, init);
      FieldsOfSnoc(obs);
    }
  }

  lemma FieldsOfSnoc(obs: Obs)
    requires obs != []
    ensures FieldsOf(obs) == FieldsOf(obs[..|obs| - 1]) + {obs[|obs| - 1].0}
  {
    var init := obs[..|obs| - 1];
    forall g | g in FieldsOf(obs) ensures g in FieldsOf(init) + {obs[|obs| - 1].0} {
      var i :| 0 <= i < |obs| && obs[i].0 == g;
      if i < |obs| - 1 { assert init[i] == obs[i]; }
    }
    forall g | g in FieldsOf(init) ensures g in FieldsOf(obs) {
      var i :| 0 <= i < |init| && init[i].0 == g;
      assert obs[i] == init[i];
    }
  }

  lemma {:induction false} AppendFieldsColumn(m: map<Field, seq<Value>>, obs: Obs, f: Field)
    ensures Column(AppendFields(m, obs), f) == Column(m, f) + ValuesOf(obs, f)
  {
    if obs != [] {
      var init, x := obs[..|obs| - 1], obs[|obs| - 1];
      AppendFieldsColumn(m, init, f);
      if x.0 == f {
        assert Column(m, f) + ValuesOf(init, f) + [x.1] == Column(m, f) + (ValuesOf(init, f) + [x.1]);
      } else {
        assert ValuesOf(obs, f) == ValuesOf(init, f) + [];
      }
    }
  }

  /**
   * One recorded timestep: every field of the returned observation, then the
   * executed target, the learner's action and the reward
   * (imitation_learning/dagger.py:39-43).
   */
  function Record(d: Dataset, obs: Obs, target: Action, action: Action, reward: real): Dataset {
    Dataset(AppendFields(d.observations, obs), d.targets + [target], d.actions + [action], d.rewards + [reward])
  }

  /** Two maps of field lists are equal when they have the same fields and the same lists. */
  lemma ColumnsEqual(m: map<Field, seq<Value>>, n: map<Field, seq<Value>>)
    requires m.Keys == n.Keys
    requires forall f :: Column(m, f) == Column(n, f)
    ensures m == n
  {
    forall f | f in m.Keys ensures m[f] == n[f] {
      assert Column(m, f) == Column(n, f);
    }
  }

  /** Each field's list of `m` extended by that field's list of `n`; fields new to `m` start empty. */
  function MergeColumns(m: map<Field, seq<Value>>, n: map<Field, seq<Value>>): (r: map<Field, seq<Value>>)
    ensures r.Keys == m.Keys + n.Keys
    ensures forall f :: Column(r, f) == Column(m, f) + Column(n, f)
  {
    map f | f in m.Keys + n.Keys :: Column(m, f) + Column(n, f)
  }

  /**
   * The dataset after extending each of its lists with a batch's lists
   * (imitation_learning/dagger.py:186-191 and 210-215); a field new to the
   * dataset gets a fresh list, as the defaultdict gives it.
   */
  function Merge(d: Dataset, b: Dataset): Dataset {
    Dataset(MergeColumns(d.observations, b.observations),
      d.targets + b.targets, d.actions + b.actions, d.rewards + b.rewards)
  }

  /** The dataset after merging a sequence of batches, first to last. */
  function MergeAll(d: Dataset, batches: seq<Dataset>): Dataset {
    if batches == [] then d else Merge(MergeAll(d, batches[..|batches| - 1]), batches[|batches| - 1])
  }

  /**
   * Every index of every list refers to the same timestep: the field lists
   * (only fields in `fields` may occur) are as long as `targets`, and so are
   * `actions` and `rewards`.
   */
  predicate Aligned(d: Dataset, fields: set<Field>) {
    && d.observations.Keys <= fields
    && |d.actions| == |d.targets|
    && |d.rewards| == |d.targets|
    && forall f :: f in fields ==> |Column(d.observations, f)| == |d.targets|
  }

  /**
   * Merging leaves every existing entry where it was and puts the batch's
   * entries right after, so each list grows by exactly the batch's length.
   */
  lemma MergeAppends(d: Dataset, b: Dataset)
    ensures var r := Merge(d, b);
      && r.targets[..|d.targets|] == d.targets && r.targets[|d.targets|..] == b.targets
      && r.actions[..|d.actions|] == d.actions && r.actions[|d.actions|..] == b.actions
      && r.rewards[..|d.rewards|] == d.rewards && r.rewards[|d.rewards|..] == b.rewards
      && r.observations.Keys == d.observations.Keys + b.observations.Keys
      && forall f :: var c := Column(r.observations, f);
           && |c| == |Column(d.observations, f)| + |Column(b.observations, f)|
           && c[..|Column(d.observations, f)|] == Column(d.observations, f)
           && c[|Column(d.observations, f)|..] == Column(b.observations, f)
  {
  }

  /** Merging two aligned datasets over the same fields gives an aligned dataset. */
  lemma MergeAligned(d: Dataset, b: Dataset, fields: set<Field>)
    requires Aligned(d, fields) && Aligned(b, fields)
    ensures Aligned(Merge(d, b), fields)
  {
  }

  /** The empty dataset is the identity of merging, on both sides. */
  lemma MergeEmpty(d: Dataset)
    ensures Merge(d, Empty) == d && Merge(Empty, d) == d
  {
    ColumnsEqual(Merge(d, Empty).observations, d.observations);
    ColumnsEqual(Merge(Empty, d).observations, d.observations);
  }

  /** Merging is associative: merging batch by batch equals merging their merge once. */
  lemma MergeAssociative(a: Dataset, b: Dataset, c: Dataset)
    ensures Merge(Merge(a, b), c) == Merge(a, Merge(b, c))
  {
    MergeColumnsAssociative(a.observations, b.observations, c.observations);
    AppendAssociative(a.targets, b.targets, c.targets);
    AppendAssociative(a.actions, b.actions, c.actions);
    AppendAssociative(a.rewards, b.rewards, c.rewards);
  }

  lemma AppendAssociative<T>(a: seq<T>, b: seq<T>, c: seq<T>)
    ensures (a + b) + c == a + (b + c)
  {
  }

  lemma MergeColumnsAssociative(m: map<Field, seq<Value>>, n: map<Field, seq<Value>>, o: map<Field, seq<Value>>)
    ensures MergeColumns(MergeColumns(m, n), o) == MergeColumns(m, MergeColumns(n, o))
  {
    var l, r := MergeColumns(MergeColumns(m, n), o), MergeColumns(m, MergeColumns(n, o));
    forall f ensures Column(l, f) == Column(r, f) {
      AppendAssociative(Column(m, f), Column(n, f), Column(o, f));
    }
    assert l.Keys == r.Keys == m.Keys + n.Keys + o.Keys;
    ColumnsEqual(l, r);
  }

  /** Accumulating batches into an aligned dataset keeps it aligned. */
  lemma {:induction false} MergeAllAligned(d: Dataset, batches: seq<Dataset>, fields: set<Field>)
    requires Aligned(d, fields)
    requires forall i :: 0 <= i < |batches| ==> Aligned(batches[i], fields)
    ensures Aligned(MergeAll(d, batches), fields)
  {
    if batches != [] {
      MergeAllAligned(d, batches[..|batches| - 1], fields);
      MergeAligned(MergeAll(d, batches[..|batches| - 1]), batches[|batches| - 1], fields);
    }
  }

  /** The field lists of `data`, those of the fields in `done` extended by the batch's lists. */
  ghost predicate ExtendedOn(data: Dataset, batch: Dataset, obs: map<Field, seq<Value>>, done: set<Field>) {
    && done <= batch.observations.Keys
    && obs.Keys == data.observations.Keys + done
    && forall f :: Column(obs, f) == Column(data.observations, f) + (if f in done then batch.observations[f] else [])
  }

  /** Extending one more field's list keeps ExtendedOn, with that field done. */
  lemma ExtendStep(data: Dataset, batch: Dataset, obs: map<Field, seq<Value>>, done: set<Field>, f: Field)
    requires ExtendedOn(data, batch, obs, done)
    requires f in batch.observations.Keys - done
    ensures ExtendedOn(data, batch, obs[f := Column(obs, f) + batch.observations[f]], done + {f})
  {
    var obs' := obs[f := Column(obs, f) + batch.observations[f]];
    forall g ensures Column(obs', g) == Column(data.observations, g) + (if g in done + {f} then batch.observations[g] else []) {
      if g == f {
        assert Column(obs, f) == Column(data.observations, f) + [] == Column(data.observations, f);
        assert Column(obs', f) == Column(obs, f) + batch.observations[f];
      } else {
        assert Column(obs', g) == Column(obs, g);
      }
    }
    assert obs'.Keys == obs.Keys + {f};
  }

  /**
   * Extends `data` by `batch` field by field, as the loop at
   * imitation_learning/dagger.py:186-191 (and 210-215) does.
   */
  method Extend(data: Dataset, batch: Dataset) returns (merged: Dataset)
    ensures merged == Merge(data, batch)
  {
    var obs := data.observations;
    var pending := batch.observations.Keys;
    while pending != {}
      invariant pending <= batch.observations.Keys
      invariant ExtendedOn(data, batch, obs, batch.observations.Keys - pending)
      decreases pending
    {
      var f :| f in pending;
      ExtendStep(data, batch, obs, batch.observations.Keys - pending, f);
      obs := obs[f := Column(obs, f) + batch.observations[f]];
      assert batch.observations.Keys - (pending - {f}) == (batch.observations.Keys - pending) + {f};
      pending := pending - {f};
    }
    merged := Dataset(obs, data.targets + batch.targets, data.actions + batch.actions, data.rewards + batch.rewards);
    ColumnsEqual(obs, Merge(data, batch).observations);
  }
}
