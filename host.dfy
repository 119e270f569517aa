/**
 * What the harness sees of the machine it runs on, fixed for one run: the
 * checkout root, which paths exist, which files read and parse as JSON, which
 * files read and decode as images, and whether the UPDATE variable is set.
 */
module Host {
  import opened Wrappers
  import opened Strings
  import opened Json

  /** A decoded raster: its size and its pixel data. */
  datatype Raster = Raster(width: nat, height: nat, pixels: seq<int>)

  datatype Env = Env(
    root: string,
    existing: set<string>,
    json: map<string, Value>,
    images: map<string, Raster>,
    updateMode: bool)

  /** The existence probe of the file system. */
  predicate Exists(env: Env, path: string) {
    path in env.existing
  }

  /** Reading and parsing a JSON file; `None` when it cannot be opened or does not parse. */
  function ReadJson(env: Env, path: string): Option<Value> {
    if path in env.json then Some(env.json[path]) else None
  }

  /** Directory of the harness's own fixtures. */
  function VendorDir(env: Env): string {
    env.root + "/vendor/"
  }

  /** Directory of the shared integration suite. */
  function IntegrationDir(env: Env): string {
    env.root + "/mapbox-gl-js/test/integration/"
  }

  /**
   * Everything before the last separator: the path's parent directory. This
   * agrees with `std::filesystem::path::parent_path` on the paths the runner
   * builds, which lie under an absolute root and hold no doubled separator;
   * it differs on "/x" (giving "" where that gives "/") and on "a//b"
   * (giving "a/" where that gives "a").
   */
  function ParentPath(p: string): string {
    var i := LastIndexOf(p, '/');
    if i < 0 then "" else p[..i]
  }

  /** Everything up to and including the last separator: the path without its file name. */
  function RemoveFilename(p: string): string {
    var i := LastIndexOf(p, '/');
    if i < 0 then "" else p[..i + 1]
  }

  lemma LastSeparator(dir: string, name: string)
    requires '/' !in name
    ensures LastIndexOf(dir + "/" + name, '/') == |dir|
  {
    var p := dir + "/" + name;
    var i := LastIndexOf(p, '/');
    assert p[|dir|] == '/';
  }

  /** The parent of `dir/name` is `dir`, and removing its file name leaves `dir/`. */
  lemma PathOfFileInDir(dir: string, name: string)
    requires '/' !in name
    ensures ParentPath(dir + "/" + name) == dir
    ensures RemoveFilename(dir + "/" + name) == dir + "/"
  {
    LastSeparator(dir, name);
    var p := dir + "/" + name;
    assert p[..|dir|] == dir;
    assert p[..|dir| + 1] == dir + "/";
  }
}
