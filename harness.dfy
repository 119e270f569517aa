/**
 * The driver loop: for each scenario file, load it, reset the renderer cache
 * unless renderers are recycled, derive the test name, consult the ignore
 * list, run the scenario unless it is to be skipped, and classify the result.
 */
module Harness {
  import opened Wrappers
  import opened Strings
  import opened Host
  import opened Metadata
  import Parser
  import Renderer
  import Runner

  /**
   * The name of the test in directory `dir` (which ends in a separator):
   * the first occurrence of the root path and the separator after it are
   * erased, then the last character is dropped.
   */
  function TestName(dir: string, root: string): (name: string)
    requires Find(dir, root) >= 0
  {
    var i := Find(dir, root);
    var n := if |root| + 1 <= |dir| - i then |root| + 1 else |dir| - i;
    var erased := dir[..i] + dir[i + n..];
    if |erased| == 0 then erased else erased[..|erased| - 1]
  }

  /** The root occurs first at the start of a path that begins with it. */
  lemma FindAtStart(root: string, rest: string)
    ensures Find(root + rest, root) == 0
  {
    assert (root + rest)[0..|root|] == root;
    assert OccursAt(root, root + rest, 0);
  }

  /** The directory `root/name/` is named `name`. */
  lemma TestNameOfDirectory(root: string, name: string)
    ensures Find(root + "/" + name + "/", root) == 0
    ensures TestName(root + "/" + name + "/", root) == name
  {
    var tail := "/" + name + "/";
    var dir := root + tail;
    assert root + "/" + name + "/" == dir;
    FindAtStart(root, tail);
    assert dir[|root|..] == tail;
    assert tail[1..] == name + "/";
    assert dir[|root| + 1..] == tail[1..];
    assert dir[..0] + dir[|root| + 1..] == name + "/";
  }

  /** The scenario file `root/name/style.json` is named `name`. */
  lemma TestNameOfScenario(root: string, name: string)
    ensures var dir := RemoveFilename(root + "/" + name + "/style.json");
      Find(dir, root) >= 0 && TestName(dir, root) == name
  {
    var base := root + "/" + name;
    assert root + "/" + name + "/style.json" == base + "/" + "style.json";
    PathOfFileInDir(base, "style.json");
    TestNameOfDirectory(root, name);
  }

  function IgnoreKey(name: string): string {
    "render-tests/" + name
  }

  /** The reason of the first ignore entry whose key is `key`. */
  function FindIgnore(ignores: seq<(string, string)>, key: string): (r: Option<string>)
    ensures r.None? <==> forall j :: 0 <= j < |ignores| ==> ignores[j].0 != key
    ensures r.Some? ==> exists j :: (0 <= j < |ignores| && ignores[j] == (key, r.value)
      && forall k :: 0 <= k < j ==> ignores[k].0 != key)
  {
    if ignores == [] then None
    else if ignores[0].0 == key then Some(ignores[0].1)
    else
      var r := FindIgnore(ignores[1..], key);
      if r.Some? then
        var j :| 0 <= j < |ignores[1..]| && ignores[1..][j] == (key, r.value)
          && forall k :: 0 <= k < j ==> ignores[1..][k].0 != key;
        assert ignores[j + 1] == (key, r.value);
        r
      else r
  }

  /** An ignore reason starting with "skip" means the scenario is not run at all. */
  predicate IsSkip(reason: string) {
    IsPrefix("skip", reason)
  }

  datatype Verdict =
    | Passed
    | Failed
    | IgnoredPassed(reason: string)
    | IgnoredFailed(reason: string)

  datatype Outcome =
    | NotParsed(path: string)
    | Skipped(name: string, reason: string)
    | Ran(name: string, score: Runner.Score, verdict: Verdict)

  /** An ignored scenario is reported as ignored whether it passed or not. */
  function Classify(passed: bool, ignore: Option<string>): (v: Verdict)
    ensures ignore.None? ==> (v == Passed <==> passed) && (v == Failed <==> !passed)
    ensures ignore.Some? ==> v == (if passed then IgnoredPassed(ignore.value) else IgnoredFailed(ignore.value))
  {
    match ignore
    case None => if passed then Passed else Failed
    case Some(reason) => if passed then IgnoredPassed(reason) else IgnoredFailed(reason)
  }

  type Cache = map<Runner.RendererKey, Renderer.MapInstance>

  /** Whether the scenario file's directory lies under the root, as every traversed file's does. */
  predicate UnderRoot(path: string, root: string) {
    Find(RemoveFilename(path), root) >= 0
  }

  /** One iteration of the driver loop: the outcome and the renderer cache afterwards. */
  function Scenario(env: Env, e: Renderer.Engine, cache: Cache, ignores: seq<(string, string)>,
                    root: string, path: string, recycleMap: bool): (Outcome, Cache)
    requires UnderRoot(path, root)
  {
    match Parser.ParsedMetadata(env, path)
    case None => (NotParsed(path), cache)
    case Some(md) =>
      var cache' := if recycleMap then cache else map[];
      var name := TestName(RemoveFilename(path), root);
      var ignore := FindIgnore(ignores, IgnoreKey(name));
      if ignore.Some? && IsSkip(ignore.value) then (Skipped(name, ignore.value), cache')
      else
        var result := Runner.RunScenario(env, e, cache', md);
        (Ran(name, result.score, Classify(Runner.Passes(result.score, md.allowed), ignore)), result.cache)
  }

  method RunTest(runner: Runner.TestRunner, env: Env, e: Renderer.Engine, ignores: seq<(string, string)>,
                 root: string, path: string, recycleMap: bool) returns (outcome: Outcome)
    requires UnderRoot(path, root)
    modifies runner
    ensures (outcome, runner.maps) == Scenario(env, e, old(runner.maps), ignores, root, path, recycleMap)
  {
    var metadata := Parser.ParseTestMetadata(env, path);
    if metadata.None? {
      return NotParsed(path);
    }
    if !recycleMap {
      runner.Reset();
    }
    var testName := TestName(RemoveFilename(path), root);
    var ignoreReason := FindIgnore(ignores, IgnoreKey(testName));
    if ignoreReason.Some? && IsSkip(ignoreReason.value) {
      return Skipped(testName, ignoreReason.value);
    }
    var diff, _ := runner.Run(env, e, metadata.value);
    var passed := Runner.Passes(diff, metadata.value.allowed);
    outcome := Ran(testName, diff, Classify(passed, ignoreReason));
  }

  /** The whole loop, scenario by scenario, threading the renderer cache. */
  function RunAll(env: Env, e: Renderer.Engine, cache: Cache, ignores: seq<(string, string)>,
                  root: string, paths: seq<string>, recycleMap: bool): (r: (seq<Outcome>, Cache))
    requires forall p <- paths :: UnderRoot(p, root)
    ensures |r.0| == |paths|
  {
    if paths == [] then ([], cache)
    else
      var before := RunAll(env, e, cache, ignores, root, paths[..|paths| - 1], recycleMap);
      var (outcome, cache') := Scenario(env, e, before.1, ignores, root, paths[|paths| - 1], recycleMap);
      (before.0 + [outcome], cache')
  }

  method RunTests(runner: Runner.TestRunner, env: Env, e: Renderer.Engine, ignores: seq<(string, string)>,
                  root: string, paths: seq<string>, recycleMap: bool) returns (outcomes: seq<Outcome>)
    requires forall p <- paths :: UnderRoot(p, root)
    modifies runner
    ensures (outcomes, runner.maps) == RunAll(env, e, old(runner.maps), ignores, root, paths, recycleMap)
  {
    outcomes := [];
    var i := 0;
    while i < |paths|
      invariant 0 <= i <= |paths|
      invariant (outcomes, runner.maps) == RunAll(env, e, old(runner.maps), ignores, root, paths[..i], recycleMap)
    {
      assert paths[..i + 1][..i] == paths[..i];
      var outcome := RunTest(runner, env, e, ignores, root, paths[i], recycleMap);
      outcomes := outcomes + [outcome];
      i := i + 1;
    }
    assert paths[..|paths|] == paths;
  }

  // ---------------------------------------------------------------------
  // What the loop promises
  // ---------------------------------------------------------------------

  /** A scenario that does not load is reported as such, and nothing is reset or run. */
  lemma UnparsedScenarioDoesNothing(env: Env, e: Renderer.Engine, cache: Cache, ignores: seq<(string, string)>,
                                    root: string, path: string, recycleMap: bool)
    requires UnderRoot(path, root) && Parser.ParsedMetadata(env, path).None?
    ensures Scenario(env, e, cache, ignores, root, path, recycleMap) == (NotParsed(path), cache)
  {
  }

  /**
   * A scenario whose first matching ignore reason starts with "skip" is
   * reported skipped and never run; without recycling the cache is still
   * emptied, since the reset comes first.
   */
  lemma SkippedScenarioNeverRuns(env: Env, e: Renderer.Engine, cache: Cache, ignores: seq<(string, string)>,
                                 root: string, path: string, recycleMap: bool)
    requires UnderRoot(path, root) && Parser.ParsedMetadata(env, path).Some?
    requires var ignore := FindIgnore(ignores, IgnoreKey(TestName(RemoveFilename(path), root)));
      ignore.Some? && IsSkip(ignore.value)
    ensures var (outcome, cache') := Scenario(env, e, cache, ignores, root, path, recycleMap);
      outcome.Skipped? && cache' == (if recycleMap then cache else map[])
  {
  }

  /**
   * A scenario that runs is reported passed exactly when its score is at
   * most its allowed difference, and as ignored exactly when the ignore list
   * names it.
   */
  lemma VerdictOfRunScenario(env: Env, e: Renderer.Engine, cache: Cache, ignores: seq<(string, string)>,
                             root: string, path: string, recycleMap: bool)
    requires UnderRoot(path, root)
    ensures var (outcome, _) := Scenario(env, e, cache, ignores, root, path, recycleMap);
      outcome.Ran? ==>
        var md := Parser.ParsedMetadata(env, path).value;
        var ignore := FindIgnore(ignores, IgnoreKey(outcome.name));
        && outcome.name == TestName(RemoveFilename(path), root)
        && (outcome.verdict.Passed? || outcome.verdict.IgnoredPassed?) == Runner.Passes(outcome.score, md.allowed)
        && (outcome.verdict.IgnoredPassed? || outcome.verdict.IgnoredFailed?) == ignore.Some?
  {
  }

  /** Without recycling, a scenario's outcome does not depend on the cache it starts with. */
  lemma OutcomeIgnoresCacheWithoutRecycling(env: Env, e: Renderer.Engine, cache: Cache,
                                            ignores: seq<(string, string)>, root: string, path: string)
    requires UnderRoot(path, root)
    ensures Scenario(env, e, cache, ignores, root, path, false).0 == Scenario(env, e, map[], ignores, root, path, false).0
  {
  }

  /**
   * Without recycling, every scenario's outcome is the one it has when run
   * alone: neither earlier scenarios nor the order of the list affect it.
   */
  lemma {:induction false} ScenariosAreIsolatedWithoutRecycling(env: Env, e: Renderer.Engine, cache: Cache,
                                                                ignores: seq<(string, string)>, root: string,
                                                                paths: seq<string>, i: int)
    requires forall p <- paths :: UnderRoot(p, root)
    requires 0 <= i < |paths|
    ensures RunAll(env, e, cache, ignores, root, paths, false).0[i]
         == Scenario(env, e, map[], ignores, root, paths[i], false).0
  {
    var last := |paths| - 1;
    var prefix := paths[..last];
    assert forall p <- prefix :: UnderRoot(p, root);
    var before := RunAll(env, e, cache, ignores, root, prefix, false);
    if i < last {
      ScenariosAreIsolatedWithoutRecycling(env, e, cache, ignores, root, prefix, i);
      assert prefix[i] == paths[i];
    } else {
      OutcomeIgnoresCacheWithoutRecycling(env, e, before.1, ignores, root, paths[last]);
    }
  }
}
