/**
 * The names under which data and models are saved: `save_data` and
 * `save_model` (imitation_learning/dagger.py:62-87), and the directory
 * normalisation they share with `KerasLearner._get_path_names`
 * (imitation_learning/learners.py:118-120). The timestamp is a parameter.
 */
module Naming {
  import opened Basics

  predicate EndsWithSlash(s: string) {
    |s| > 0 && s[|s| - 1] == '/'
  }

  /** `path` with a '/' appended exactly when it does not already end with one. */
  function Directory(path: string): (dir: string)
    ensures EndsWithSlash(dir)
    ensures dir == path <==> EndsWithSlash(path)
    ensures |dir| == |path| + (if EndsWithSlash(path) then 0 else 1)
    ensures dir[..|path|] == path
  {
    if EndsWithSlash(path) then path else path + "/"
  }

  /** Normalising twice is normalising once. */
  lemma DirectoryIdempotent(path: string)
    ensures Directory(Directory(path)) == Directory(path)
  {
  }

  /** `'_' + tag` for a given tag, nothing for None (imitation_learning/dagger.py:70-73). */
  function Tag(tag: Option<string>): string {
    if tag.Some? then "_" + tag.value else ""
  }

  /** The prefix tag, then the suffix tag (imitation_learning/dagger.py:70-73). */
  function Tags(prefix: Option<string>, suffix: Option<string>): string {
    Tag(prefix) + Tag(suffix)
  }

  /**
   * The name `save_data` hands to `np.savez`: the normalised directory,
   * 'data_', the timestamp and the tags; None when there is no path, in which
   * case nothing is saved (imitation_learning/dagger.py:64-74).
   */
  function DataFile(path: Option<string>, stamp: string, prefix: Option<string>, suffix: Option<string>): (file: Option<string>)
    ensures file.None? <==> path.None?
  {
    if path.None? then None else Some(Directory(path.value) + "data_" + stamp + Tags(prefix, suffix))
  }

  /**
   * The directory and name `save_model` hands to `learner.save`: the
   * normalised directory and 'model_' followed by the timestamp; None when
   * there is no path (imitation_learning/dagger.py:80-86).
   */
  function ModelTarget(path: Option<string>, stamp: string): (target: Option<(string, string)>)
    ensures target.None? <==> path.None?
  {
    if path.None? then None else Some((Directory(path.value), "model_" + stamp))
  }

  /**
   * A model is saved in the normalised directory under 'model_' followed by
   * its timestamp, so the timestamp can be read back off the name and two
   * saves under different timestamps never share a name.
   */
  lemma ModelTargetLayout(path: string, stamp: string, other: string)
    ensures var (dir, name) := ModelTarget(Some(path), stamp).value;
      && dir == Directory(path) && EndsWithSlash(dir) && dir[..|path|] == path
      && |name| == 6 + |stamp| && name[..6] == "model_" && name[6..] == stamp
      && (ModelTarget(Some(path), other) == ModelTarget(Some(path), stamp) <==> other == stamp)
  {
    var name, name' := "model_" + stamp, "model_" + other;
    assert name[6..] == stamp;
    assert name'[6..] == other;
  }

  /** The four parts of a concatenation can be read back off it by position. */
  lemma ConcatParts(a: string, b: string, c: string, d: string)
    ensures var x := a + b + c + d;
      && |x| == |a| + |b| + |c| + |d|
      && x[..|a|] == a
      && x[|a|..|a| + |b|] == b
      && x[|a| + |b|..|a| + |b| + |c|] == c
      && x[|a| + |b| + |c|..] == d
  {
    var ab := a + b;
    var abc := ab + c;
    assert abc[..|ab|] == ab;
    assert ab[..|a|] == a && ab[|a|..] == b;
    assert (abc + d)[..|abc|] == abc && (abc + d)[|abc|..] == d;
    assert abc[|ab|..] == c;
  }

  /**
   * A data file name reads, left to right: the directory with its '/', then
   * 'data_', the timestamp, and the tags.
   */
  lemma DataFileLayout(path: string, stamp: string, prefix: Option<string>, suffix: Option<string>)
    ensures var file, dir := DataFile(Some(path), stamp, prefix, suffix).value, Directory(path);
      && |file| == |dir| + 5 + |stamp| + |Tags(prefix, suffix)|
      && file[..|dir|] == dir
      && file[|dir|..|dir| + 5] == "data_"
      && file[|dir| + 5..|dir| + 5 + |stamp|] == stamp
      && file[|dir| + 5 + |stamp|..] == Tags(prefix, suffix)
  {
    ConcatParts(Directory(path), "data_", stamp, Tags(prefix, suffix));
  }

  /** A data file saved with a suffix ends with '_' and the suffix, whatever the prefix. */
  lemma DataFileEndsWithSuffix(path: string, stamp: string, prefix: Option<string>, suffix: string)
    ensures var file := DataFile(Some(path), stamp, prefix, Some(suffix)).value;
      |file| > |suffix| && file[|file| - |suffix| - 1..] == "_" + suffix
  {
    var front, tail := Directory(path) + "data_" + stamp, "_" + suffix;
    assert DataFile(Some(path), stamp, prefix, Some(suffix)).value == front + (Tag(prefix) + tail);
    ConcatTail(front, Tag(prefix), tail);
  }

  /** The last part of a concatenation starts after the other two. */
  lemma ConcatTail(a: string, b: string, c: string)
    ensures (a + (b + c))[|a| + |b|..] == c
  {
    assert (a + (b + c))[|a|..] == b + c;
  }

  /** The suffix can be read back from the tags: it follows the prefix tag and an underscore. */
  lemma TagsSuffix(prefix: Option<string>, suffix: string)
    ensures Tags(prefix, Some(suffix))[|Tag(prefix)| + 1..] == suffix
  {
    assert Tags(prefix, Some(suffix))[|Tag(prefix)|..] == "_" + suffix;
  }

  /**
   * In one directory, data files saved with timestamps of the same width
   * (the format '%Y%m%d-%H%M%S' always has 15 characters) share a name only
   * when they share the timestamp and the tags.
   */
  lemma DataFileDistinguishesStamps(path: string, s1: string, s2: string,
                                    p1: Option<string>, x1: Option<string>, p2: Option<string>, x2: Option<string>)
    requires |s1| == |s2|
    requires DataFile(Some(path), s1, p1, x1) == DataFile(Some(path), s2, p2, x2)
    ensures s1 == s2
    ensures Tags(p1, x1) == Tags(p2, x2)
  {
    ConcatCancel(Directory(path) + "data_", s1, Tags(p1, x1), s2, Tags(p2, x2));
  }

  /** Behind a common front, parts of equal length are equal, and so is what follows them. */
  lemma ConcatCancel(a: string, b1: string, c1: string, b2: string, c2: string)
    requires a + b1 + c1 == a + b2 + c2
    requires |b1| == |b2|
    ensures b1 == b2 && c1 == c2
  {
    var x, i, j := a + b1 + c1, |a|, |a| + |b1|;
    assert x[i..j] == b1 && x[j..] == c1;
    assert (a + b2 + c2)[i..j] == b2 && (a + b2 + c2)[j..] == c2;
  }
}
