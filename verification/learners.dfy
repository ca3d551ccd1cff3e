/**
 * The parts of `KerasLearner` (imitation_learning/learners.py) that do not
 * call into Keras: the file names of a saved learner, the selection of the
 * configured observation fields when fitting and predicting, and the field
 * metadata written by `save` and read back by `load`. The Keras model is a
 * type parameter `M` whose fit and predict are supplied by the caller.
 */
module Learners {
  import opened Basics
  import opened Data
  import opened Naming

  /** A learner's configuration: its model and the fields it consumes with their dimensions. */
  datatype KerasLearner<M> = KerasLearner(model: M, fields: seq<Field>, dims: seq<seq<int>>)

  /**
   * The structure, options and weights files of a learner saved as `name`
   * under directory `path` (imitation_learning/learners.py:117-124).
   */
  function PathNames(path: string, name: string): (paths: (string, string, string))
    ensures var stem := Directory(path) + name;
      && |paths.0| == |stem| + 5 && paths.0[..|stem|] == stem && paths.0[|stem|..] == ".json"
      && |paths.1| == |stem| + 13 && paths.1[..|stem|] == stem && paths.1[|stem|..] == "_options.json"
      && |paths.2| == |stem| + 11 && paths.2[..|stem|] == stem && paths.2[|stem|..] == "_weights.h5"
    ensures paths.0 != paths.1 && paths.1 != paths.2 && paths.0 != paths.2
  {
    var stem := Directory(path) + name;
    (stem + ".json", stem + "_options.json", stem + "_weights.h5")
  }

  /** A path with or without its trailing '/' names the same three files. */
  lemma PathNamesNormalised(path: string, name: string)
    ensures PathNames(Directory(path), name) == PathNames(path, name)
  {
    DirectoryIdempotent(path);
  }

  /** Within one directory, different names never share a structure, options or weights file. */
  lemma {:induction false} PathNamesInjective(path: string, n1: string, n2: string)
    requires PathNames(path, n1).0 == PathNames(path, n2).0
          || PathNames(path, n1).1 == PathNames(path, n2).1
          || PathNames(path, n1).2 == PathNames(path, n2).2
    ensures n1 == n2
  {
    var dir := Directory(path);
    var p1, p2 := PathNames(path, n1), PathNames(path, n2);
    assert n1 == p1.0[|dir|..|p1.0| - 5] == p1.1[|dir|..|p1.1| - 13] == p1.2[|dir|..|p1.2| - 11];
    assert n2 == p2.0[|dir|..|p2.0| - 5] == p2.1[|dir|..|p2.1| - 13] == p2.2[|dir|..|p2.2| - 11];
  }

  /**
   * The files of a learner saved by `save_model` never coincide with a file
   * of `save_data` in the same directory: after the directory, one name
   * starts with 'data_' and the other with 'model_'.
   */
  lemma ModelFilesApartFromData(path: string, stamp: string, dataStamp: string, prefix: Option<string>, suffix: Option<string>)
    ensures var (dir, name) := ModelTarget(Some(path), stamp).value;
      var file := DataFile(Some(path), dataStamp, prefix, suffix).value;
      var paths := PathNames(dir, name);
      file != paths.0 && file != paths.1 && file != paths.2
  {
    var (dir, name) := ModelTarget(Some(path), stamp).value;
    var file := DataFile(Some(path), dataStamp, prefix, suffix).value;
    var paths := PathNames(dir, name);
    DataFileLayout(path, dataStamp, prefix, suffix);
    DirectoryIdempotent(path);
    assert dir == Directory(path) && Directory(dir) == dir;
    assert file[|dir|] == 'd';
    assert paths.0[|dir|] == 'm' && paths.1[|dir|] == 'm' && paths.2[|dir|] == 'm';
  }

  /**
   * `[columns[field] for field in fields]`: the entry of every field in
   * order, or the position of the first field that is missing, where the
   * comprehension raises KeyError.
   */
  function Select<V>(columns: map<Field, V>, fields: seq<Field>): (r: Result<seq<V>, nat>)
    ensures r.Ok? <==> forall i :: 0 <= i < |fields| ==> fields[i] in columns
    ensures r.Ok? ==> |r.value| == |fields| && forall i :: 0 <= i < |fields| ==> r.value[i] == columns[fields[i]]
    ensures r.Err? ==> (r.error < |fields| && fields[r.error] !in columns
                        && forall j :: 0 <= j < r.error ==> fields[j] in columns)
  {
    if fields == [] then Ok([])
    else if fields[0] !in columns then Err(0)
    else match Select(columns, fields[1..])
      case Ok(rest) => Ok([columns[fields[0]]] + rest)
      case Err(i) => Err(i + 1)
  }

  /** Why `fit` stops before the model is fitted. */
  datatype FitError = MissingField(field: Field) | NoInputs

  /** The arguments `fit` passes to the Keras model, and the sample count it logs. */
  datatype FitCall = FitCall(inputs: seq<seq<Value>>, targets: seq<Action>, samples: nat)

  /**
   * `KerasLearner.fit` up to the Keras call (imitation_learning/learners.py:137-145).
   * A missing field is logged and then fails on the unbound `inputs`; an
   * empty field list fails on `inputs[0]`. Otherwise the model is fitted on
   * one input per configured field, in order, and the first input's length
   * is logged as the sample count.
   */
  function Fit<M>(l: KerasLearner<M>, observations: map<Field, seq<Value>>, targets: seq<Action>): (r: Result<FitCall, FitError>)
    ensures r.Ok? <==> |l.fields| > 0 && forall i :: 0 <= i < |l.fields| ==> l.fields[i] in observations
    ensures r.Ok? ==> && |r.value.inputs| == |l.fields|
                      && (forall i :: 0 <= i < |l.fields| ==> r.value.inputs[i] == observations[l.fields[i]])
                      && r.value.targets == targets
                      && r.value.samples == |observations[l.fields[0]]|
    ensures r.Err? && r.error.MissingField? ==> r.error.field in l.fields && r.error.field !in observations
    ensures r.Err? && r.error.NoInputs? ==> l.fields == []
  {
    match Select(observations, l.fields)
    case Err(i) => Err(MissingField(l.fields[i]))
    case Ok(inputs) =>
      if inputs == [] then Err(NoInputs) else Ok(FitCall(inputs, targets, |inputs[0]|))
  }

  /**
   * The observations after `observations[field]` is read for every field of
   * `fields` on a `defaultdict(list)`: every missing field is inserted with
   * an empty list, and no list changes.
   */
  function Filled(observations: map<Field, seq<Value>>, fields: seq<Field>): (r: map<Field, seq<Value>>)
    ensures r.Keys == observations.Keys + (set g | g in fields)
    ensures forall f :: Column(r, f) == Column(observations, f)
    ensures (forall i :: 0 <= i < |fields| ==> fields[i] in observations) ==> r == observations
  {
    if fields == [] then observations
    else
      var init := fields[..|fields| - 1];
      var before := Filled(observations, init);
      var f := fields[|fields| - 1];
      assert fields == init + [f];
      assert (set g | g in fields) == (set g | g in init) + {f};
      var r := if f in before then before else before[f := []];
      assert r.Keys == before.Keys + {f};
      assert forall g :: Column(r, g) == Column(before, g);
      r
  }

  /**
   * `KerasLearner.fit` as `dagger` calls it (imitation_learning/dagger.py:193-196, 217-220),
   * on the aggregated observations, a `defaultdict(list)` (dagger.py:164-165):
   * a field the data lacks reads as an empty input and is inserted into the
   * data, so no KeyError arises and only an empty field list fails. Returns
   * the call and the observations as the reads leave them.
   */
  function FitDefaultDict<M>(l: KerasLearner<M>, observations: map<Field, seq<Value>>, targets: seq<Action>)
    : (r: (Result<FitCall, FitError>, map<Field, seq<Value>>))
    ensures r.0.Ok? <==> |l.fields| > 0
    ensures r.0.Ok? ==> && |r.0.value.inputs| == |l.fields|
                        && (forall i :: 0 <= i < |l.fields| ==> r.0.value.inputs[i] == Column(observations, l.fields[i]))
                        && r.0.value.targets == targets
                        && r.0.value.samples == |Column(observations, l.fields[0])|
    ensures r.0.Err? ==> r.0.error == NoInputs
    ensures r.1.Keys == observations.Keys + (set g | g in l.fields)
    ensures forall f :: Column(r.1, f) == Column(observations, f)
  {
    var filled := Filled(observations, l.fields);
    (Fit(l, filled, targets), filled)
  }

  /** When the data holds every configured field, the default dict makes no difference: the call is Fit's and nothing is inserted. */
  lemma FitDefaultDictAgrees<M>(l: KerasLearner<M>, observations: map<Field, seq<Value>>, targets: seq<Action>)
    requires forall i :: 0 <= i < |l.fields| ==> l.fields[i] in observations
    ensures FitDefaultDict(l, observations, targets) == (Fit(l, observations, targets), observations)
  {
  }

  /**
   * The policy `get_policy` returns, applied to one observation
   * (imitation_learning/learners.py:150-164): the model's prediction on one
   * input per configured field, in order, or None when a field is missing.
   */
  function Predict<M>(l: KerasLearner<M>, predict: (M, seq<Value>) -> Action, observation: map<Field, Value>): (r: Option<Action>)
    ensures r.None? <==> exists i :: 0 <= i < |l.fields| && l.fields[i] !in observation
    ensures r.Some? ==> exists inputs: seq<Value> ::
      && |inputs| == |l.fields|
      && (forall i :: 0 <= i < |l.fields| ==> inputs[i] == observation[l.fields[i]])
      && r.value == predict(l.model, inputs)
  {
    match Select(observation, l.fields)
    case Err(_) => None
    case Ok(inputs) => Some(predict(l.model, inputs))
  }

  /** The JSON values the options file holds. */
  datatype Json = JInt(n: int) | JString(s: string) | JArray(items: seq<Json>)

  function Strings(ss: seq<string>): (js: seq<Json>)
    ensures |js| == |ss|
  {
    if ss == [] then [] else Strings(ss[..|ss| - 1]) + [JString(ss[|ss| - 1])]
  }

  function Ints(ns: seq<int>): (js: seq<Json>)
    ensures |js| == |ns|
  {
    if ns == [] then [] else Ints(ns[..|ns| - 1]) + [JInt(ns[|ns| - 1])]
  }

  function Dims(dims: seq<seq<int>>): (js: seq<Json>)
    ensures |js| == |dims|
  {
    if dims == [] then [] else Dims(dims[..|dims| - 1]) + [JArray(Ints(dims[|dims| - 1]))]
  }

  function AsStrings(js: seq<Json>): Option<seq<string>> {
    if js == [] then Some([])
    else match (AsStrings(js[..|js| - 1]), js[|js| - 1])
      case (Some(ss), JString(s)) => Some(ss + [s])
      case _ => None
  }

  function AsInts(js: seq<Json>): Option<seq<int>> {
    if js == [] then Some([])
    else match (AsInts(js[..|js| - 1]), js[|js| - 1])
      case (Some(ns), JInt(n)) => Some(ns + [n])
      case _ => None
  }

  function AsDims(js: seq<Json>): Option<seq<seq<int>>> {
    if js == [] then Some([])
    else match (AsDims(js[..|js| - 1]), js[|js| - 1])
      case (Some(ds), JArray(items)) =>
        (match AsInts(items) case Some(ns) => Some(ds + [ns]) case None => None)
      case _ => None
  }

  /** The options file `save` writes: the field names and field dims, and nothing else (imitation_learning/learners.py:104-107). */
  function SaveOptions<M>(l: KerasLearner<M>): (options: map<string, Json>)
    ensures options.Keys == {"field_names", "field_dims"}
    ensures options["field_names"].JArray? && |options["field_names"].items| == |l.fields|
    ensures options["field_dims"].JArray? && |options["field_dims"].items| == |l.dims|
  {
    map["field_names" := JArray(Strings(l.fields)), "field_dims" := JArray(Dims(l.dims))]
  }

  /** Why `load` fails. */
  datatype LoadError = MissingFile(path: string) | MissingKey(key: string) | Malformed(key: string)

  /**
   * The field metadata `load` reads from an options file
   * (imitation_learning/learners.py:94-95): a missing key raises KeyError.
   */
  function LoadOptions(options: map<string, Json>): (r: Result<(seq<Field>, seq<seq<int>>), LoadError>)
    ensures r.Err? && r.error.MissingKey? ==> r.error.key !in options
    ensures "field_names" !in options ==> r == Err(MissingKey("field_names"))
    ensures "field_names" in options && "field_dims" !in options ==> r == Err(MissingKey("field_dims"))
  {
    if "field_names" !in options then Err(MissingKey("field_names"))
    else if "field_dims" !in options then Err(MissingKey("field_dims"))
    else match (options["field_names"], options["field_dims"])
      case (JArray(names), JArray(dims)) =>
        (match (AsStrings(names), AsDims(dims))
         case (Some(fields), Some(ds)) => Ok((fields, ds))
         case (None, _) => Err(Malformed("field_names"))
         case (_, None) => Err(Malformed("field_dims")))
      case (JArray(_), _) => Err(Malformed("field_dims"))
      case _ => Err(Malformed("field_names"))
  }

  lemma {:induction false} StringsRoundTrip(ss: seq<string>)
    ensures AsStrings(Strings(ss)) == Some(ss)
  {
    if ss != [] {
      StringsRoundTrip(ss[..|ss| - 1]);
      var js := Strings(ss);
      assert js[..|js| - 1] == Strings(ss[..|ss| - 1]);
      assert ss[..|ss| - 1] + [ss[|ss| - 1]] == ss;
    }
  }

  lemma {:induction false} IntsRoundTrip(ns: seq<int>)
    ensures AsInts(Ints(ns)) == Some(ns)
  {
    if ns != [] {
      IntsRoundTrip(ns[..|ns| - 1]);
      var js := Ints(ns);
      assert js[..|js| - 1] == Ints(ns[..|ns| - 1]);
      assert ns[..|ns| - 1] + [ns[|ns| - 1]] == ns;
    }
  }

  lemma {:induction false} DimsRoundTrip(dims: seq<seq<int>>)
    ensures AsDims(Dims(dims)) == Some(dims)
  {
    if dims != [] {
      DimsRoundTrip(dims[..|dims| - 1]);
      IntsRoundTrip(dims[|dims| - 1]);
      var js := Dims(dims);
      assert js[..|js| - 1] == Dims(dims[..|dims| - 1]);
      assert dims[..|dims| - 1] + [dims[|dims| - 1]] == dims;
    }
  }

  /** Reading back the options `save` wrote gives the learner's own field names and dims. */
  lemma OptionsRoundTrip<M>(l: KerasLearner<M>)
    ensures LoadOptions(SaveOptions(l)) == Ok((l.fields, l.dims))
  {
    StringsRoundTrip(l.fields);
    DimsRoundTrip(l.dims);
  }

  /** What a saved file holds: the model's structure, its weights, or the options. */
  datatype Saved<M> = Structure(model: M) | Weights(model: M) | Options(options: map<string, Json>)

  /** The three files `save` writes, as a map from path to contents (imitation_learning/learners.py:100-115). */
  function Save<M>(l: KerasLearner<M>, path: string, name: string): (files: map<string, Saved<M>>)
    ensures var (s, o, w) := PathNames(path, name);
      && files.Keys == {s, o, w}
      && files[s] == Structure(l.model) && files[w] == Weights(l.model) && files[o] == Options(SaveOptions(l))
  {
    var (s, o, w) := PathNames(path, name);
    map[s := Structure(l.model), w := Weights(l.model), o := Options(SaveOptions(l))]
  }

  /**
   * `KerasLearner.load` over a map of files (imitation_learning/learners.py:84-98):
   * the structure, then the weights, then the options must be present, and
   * the options must carry both keys.
   */
  function Load<M>(files: map<string, Saved<M>>, path: string, name: string): (r: Result<KerasLearner<M>, LoadError>)
    ensures var (s, o, w) := PathNames(path, name);
      && (s !in files ==> r == Err(MissingFile(s)))
      && (s in files && files[s].Structure? && w !in files ==> r == Err(MissingFile(w)))
      && (r.Ok? ==> s in files && o in files && w in files
                    && files[s].Structure? && files[w].Weights? && files[o].Options?
                    && r.value.model == files[s].model
                    && LoadOptions(files[o].options) == Ok((r.value.fields, r.value.dims)))
      && (s in files && w in files && o in files && files[s].Structure? && files[w].Weights? && files[o].Options?
          ==> (r.Ok? <==> LoadOptions(files[o].options).Ok?)
              && (r.Err? ==> r == Err(LoadOptions(files[o].options).error)))
  {
    var (s, o, w) := PathNames(path, name);
    if s !in files || !files[s].Structure? then Err(MissingFile(s))
    else if w !in files || !files[w].Weights? then Err(MissingFile(w))
    else if o !in files || !files[o].Options? then Err(MissingFile(o))
    else match LoadOptions(files[o].options)
      case Ok((fields, dims)) => Ok(KerasLearner(files[s].model, fields, dims))
      case Err(e) => Err(e)
  }

  /**
   * Loading what `save` wrote, from the same directory written with or
   * without its trailing '/', gives back the learner that was saved.
   */
  // ---------------------------------------------------------------------------
  // The constructor as written

  /**
   * The two attributes a `KerasLearner` ends up with, as JSON values: what
   * `save` writes under "field_names" and "field_dims".
   */
  datatype Attributes = Attributes(fields: Json, dims: Json)

  /**
   * `KerasLearner.__init__` as written (imitation_learning/learners.py:37):
   * the call to the base constructor leaves out `model`, so against
   * `Learner.__init__(self, model, field_names, field_dims, log_name)`
   * (imitation_learning/learner.py:11, 26-27) every argument binds one
   * parameter early. `fields` receives the field dimensions, `dims` receives
   * the logger name, and the field names are dropped.
   */
  function ConstructAsWritten(fieldNames: Json, fieldDims: Json, logName: string): (a: Attributes)
    ensures a.fields == fieldDims && a.dims == JString(logName)
  {
    Attributes(fieldDims, JString(logName))
  }

  /**
   * `KerasLearner.load` through the constructor as written
   * (imitation_learning/learners.py:84-98): the same files are required, the
   * options are passed on as read, and the constructor shifts them.
   */
  function LoadAsWritten<M>(files: map<string, Saved<M>>, path: string, name: string, logName: string)
    : (r: Result<(M, Attributes), LoadError>)
    ensures var (s, o, w) := PathNames(path, name);
      && (r.Ok? <==> s in files && w in files && o in files
                     && files[s].Structure? && files[w].Weights? && files[o].Options?
                     && "field_names" in files[o].options && "field_dims" in files[o].options)
      && (r.Ok? ==> r.value.0 == files[s].model
                    && r.value.1 == Attributes(files[o].options["field_dims"], JString(logName)))
  {
    var (s, o, w) := PathNames(path, name);
    if s !in files || !files[s].Structure? then Err(MissingFile(s))
    else if w !in files || !files[w].Weights? then Err(MissingFile(w))
    else if o !in files || !files[o].Options? then Err(MissingFile(o))
    else if "field_names" !in files[o].options then Err(MissingKey("field_names"))
    else if "field_dims" !in files[o].options then Err(MissingKey("field_dims"))
    else Ok((files[s].model, ConstructAsWritten(files[o].options["field_names"], files[o].options["field_dims"], logName)))
  }

  /**
   * As written, loading a saved learner does not give it back: its fields
   * come back as the saved dimensions, and its dimensions as the logger name,
   * never as a list, whatever the learner was.
   */
  lemma SaveLoadAsWritten<M>(l: KerasLearner<M>, path: string, name: string, logName: string)
    ensures var r := LoadAsWritten(Save(l, path, name), path, name, logName);
      && r == Ok((l.model, Attributes(JArray(Dims(l.dims)), JString(logName))))
      && r.value.1 != Attributes(JArray(Strings(l.fields)), JArray(Dims(l.dims)))
  {
    var (s, o, w) := PathNames(path, name);
    assert SaveOptions(l)["field_dims"] == JArray(Dims(l.dims));
  }

  lemma SaveLoadRoundTrip<M>(l: KerasLearner<M>, path: string, name: string)
    ensures Load(Save(l, path, name), path, name) == Ok(l)
    ensures Load(Save(l, path, name), Directory(path), name) == Ok(l)
  {
    OptionsRoundTrip(l);
    PathNamesNormalised(path, name);
  }
}
