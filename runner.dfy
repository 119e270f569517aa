/**
 * The test runner: a cache of renderers keyed by the values a renderer is
 * created with, preparing a cached or new renderer for a scenario,
 * replaying the scenario's operations on it, and scoring the rendered image
 * against the expected one.
 */
module Runner {
  import opened Wrappers
  import opened Json
  import opened Host
  import opened Metadata
  import Parser
  import Renderer
  import Operations

  /** Map mode, pixel ratio and cross-source collisions: what a renderer is created with. */
  datatype RendererKey = RendererKey(mode: MapMode, pixelRatio: real, crossSourceCollisions: bool)

  function KeyOf(md: TestMetadata): RendererKey {
    RendererKey(md.mapMode, md.pixelRatio, md.crossSourceCollisions)
  }

  /** A renderer created for a scenario, before anything is set on it. */
  function NewInstance(md: TestMetadata): (m: Renderer.MapInstance)
    ensures RendererKey(m.mode, m.pixelRatio, m.crossSourceCollisions) == KeyOf(md)
  {
    Renderer.MapInstance(md.mapMode, md.pixelRatio, md.crossSourceCollisions, md.size,
      Renderer.Projection(false, 0.0, 1.0), {}, Renderer.EmptyStyle, Renderer.InitialCamera)
  }

  /**
   * What is set on a renderer before the operations: size, projection, debug
   * flags, the scenario's style, and a jump to the style's default camera.
   */
  function Prepare(e: Renderer.Engine, m: Renderer.MapInstance, md: TestMetadata): Renderer.MapInstance {
    var style := e.loadStyle(md.document);
    m.(size := md.size,
       projection := Renderer.Projection(md.axonometric, md.xSkew, md.ySkew),
       debug := md.debug,
       style := style,
       camera := Renderer.JumpTo(m.camera, style.defaultCamera))
  }

  // ---------------------------------------------------------------------
  // The operation list inside the scenario document
  // ---------------------------------------------------------------------

  /** `metadata.test.operations`, or nothing when any step is missing or it is not an array. */
  function OpsOf(doc: Value): seq<Value> {
    match Parser.TestBlock(doc)
    case Some(test) => if Get(test, "operations").Array? then Get(test, "operations").items else []
    case None => []
  }

  /** The document with `metadata.test.operations` replaced. */
  function WithOps(doc: Value, ops: seq<Value>): Value {
    var metadata := Get(doc, "metadata");
    var test := Get(metadata, "test");
    SetMember(doc, "metadata", SetMember(metadata, "test", SetMember(test, "operations", Array(ops))))
  }

  /** The document after a replay: the entries applied are erased from its list. */
  function AfterOps(doc: Value, r: Operations.Replayed): Value {
    if r.remaining == OpsOf(doc) then doc else WithOps(doc, r.remaining)
  }

  /** Writing a list into a document that has one and reading it back gives that list. */
  lemma OpsOfWithOps(doc: Value, ops: seq<Value>)
    requires OpsOf(doc) != []
    ensures OpsOf(WithOps(doc, ops)) == ops
  {
    var metadata := Get(doc, "metadata");
    var test := Get(metadata, "test");
    var test' := SetMember(test, "operations", Array(ops));
    var metadata' := SetMember(metadata, "test", test');
    SetMemberLookup(test, "operations", Array(ops), "operations");
    SetMemberLookup(metadata, "test", test', "test");
    SetMemberLookup(doc, "metadata", metadata', "metadata");
  }

  /** Writing a list twice is writing the second one. */
  lemma WithOpsTwice(doc: Value, a: seq<Value>, b: seq<Value>)
    requires OpsOf(doc) != []
    ensures WithOps(WithOps(doc, a), b) == WithOps(doc, b)
  {
    var metadata := Get(doc, "metadata");
    var test := Get(metadata, "test");
    var testA := SetMember(test, "operations", Array(a));
    var metadataA := SetMember(metadata, "test", testA);
    SetMemberLookup(metadata, "test", testA, "test");
    SetMemberLookup(doc, "metadata", metadataA, "metadata");
    SetMemberTwice(test, "operations", Array(a), Array(b));
    SetMemberTwice(metadata, "test", testA, SetMember(test, "operations", Array(b)));
    SetMemberTwice(doc, "metadata", metadataA, SetMember(metadata, "test", SetMember(test, "operations", Array(b))));
  }

  /** After a replay, the document's list holds exactly the entries left unapplied. */
  lemma RemainingOpsStayInDocument(env: Env, e: Renderer.Engine, m: Renderer.MapInstance, doc: Value)
    ensures var r := Operations.Replay(env, e, m, OpsOf(doc));
      OpsOf(AfterOps(doc, r)) == r.remaining
  {
    var r := Operations.Replay(env, e, m, OpsOf(doc));
    if r.remaining != OpsOf(doc) {
      Operations.ReplayRemainder(env, e, m, OpsOf(doc));
      OpsOfWithOps(doc, r.remaining);
    }
  }

  /** What replaying a document's list does: the renderer afterwards and the document afterwards. */
  function RunOps(env: Env, e: Renderer.Engine, m: Renderer.MapInstance, doc: Value): (Renderer.MapInstance, Value) {
    var r := Operations.Replay(env, e, m, OpsOf(doc));
    (r.instance, AfterOps(doc, r))
  }

  /**
   * Running the list is applying its first entry and either stopping with
   * renderer and document untouched, or running the rest from a document
   * whose list has that entry erased.
   */
  lemma RunOpsStep(env: Env, e: Renderer.Engine, m: Renderer.MapInstance, doc: Value)
    requires OpsOf(doc) != []
    ensures var ops := OpsOf(doc);
      var s := Operations.Apply(env, e, m, Operations.Decode(ops[0]));
      RunOps(env, e, m, doc) ==
        if s.Halt? then (m, doc) else RunOps(env, e, s.next, WithOps(doc, ops[1..]))
  {
    var ops := OpsOf(doc);
    Operations.ReplayStep(env, e, m, ops);
    var s := Operations.Apply(env, e, m, Operations.Decode(ops[0]));
    if s.Continue? {
      OpsOfWithOps(doc, ops[1..]);
      Operations.ReplayRemainder(env, e, s.next, ops[1..]);
      var r := Operations.Replay(env, e, s.next, ops[1..]);
      if r.remaining != ops[1..] {
        WithOpsTwice(doc, ops[1..], r.remaining);
      }
    }
  }

  /** An empty or missing list leaves renderer and document as they are. */
  lemma RunOpsEmpty(env: Env, e: Renderer.Engine, m: Renderer.MapInstance, doc: Value)
    requires OpsOf(doc) == []
    ensures RunOps(env, e, m, doc) == (m, doc)
  {
  }

  /** `RunOpsStep`, split by whether the first entry halts, with the shortened list read back. */
  lemma RunOpsFirst(env: Env, e: Renderer.Engine, m: Renderer.MapInstance, doc: Value)
    requires OpsOf(doc) != []
    ensures var ops := OpsOf(doc);
      var s := Operations.Apply(env, e, m, Operations.Decode(ops[0]));
      && (s.Halt? ==> RunOps(env, e, m, doc) == (m, doc))
      && (s.Continue? ==> RunOps(env, e, m, doc) == RunOps(env, e, s.next, WithOps(doc, ops[1..])))
      && OpsOf(WithOps(doc, ops[1..])) == ops[1..]
  {
    RunOpsStep(env, e, m, doc);
    OpsOfWithOps(doc, OpsOf(doc)[1..]);
  }

  // ---------------------------------------------------------------------
  // Scoring
  // ---------------------------------------------------------------------

  /** The fraction of differing pixels, or a value that is not a finite number (0/0 or x/0). */
  datatype Score = Ratio(value: real) | NotFinite

  /** A scenario passes when its score is at most the allowed difference; a non-finite score never does. */
  predicate Passes(score: Score, allowed: real) {
    score.Ratio? && score.value <= allowed
  }

  function ExpectedFile(base: string): string {
    base + "/expected.png"
  }

  /**
   * In update mode the score is 1 (`true`). A missing expected image and a
   * size mismatch score 0 (`false`). Otherwise the score is the number of
   * differing pixels over the number of pixels, a product of two 32-bit
   * unsigned dimensions that wraps modulo 2^32; a product of 0 makes the
   * quotient infinite or undefined.
   */
  function CheckImage(env: Env, e: Renderer.Engine, actual: Raster, base: string): (r: Score)
    ensures r.Ratio? ==> r.value >= 0.0
  {
    if env.updateMode then Ratio(1.0)
    else if ExpectedFile(base) !in env.images then Ratio(0.0)
    else
      var expected := env.images[ExpectedFile(base)];
      if expected.width != actual.width || expected.height != actual.height then Ratio(0.0)
      else
        var area := Parser.ToUint32(expected.width * expected.height);
        if area == 0 then NotFinite
        else Ratio(e.pixelmatch(actual, expected) as real / area as real)
  }

  lemma FractionAtMostOne(a: real, b: real)
    requires 0.0 <= a <= b && b > 0.0
    ensures 0.0 <= a / b <= 1.0
  {
    assert (a / b) * b == a;
  }

  /**
   * When the comparison counts at most every pixel, the score is never
   * negative, and it is at most 1 unless the pixel count wrapped.
   */
  lemma ScoreWithinUnitInterval(env: Env, e: Renderer.Engine, actual: Raster, base: string)
    requires ExpectedFile(base) in env.images ==>
      e.pixelmatch(actual, env.images[ExpectedFile(base)]) <= actual.width * actual.height
    ensures var r := CheckImage(env, e, actual, base);
      r.Ratio? ==> 0.0 <= r.value && (actual.width * actual.height < Parser.Uint32Range ==> r.value <= 1.0)
  {
    var r := CheckImage(env, e, actual, base);
    if !env.updateMode && ExpectedFile(base) in env.images && actual.width * actual.height < Parser.Uint32Range {
      var expected := env.images[ExpectedFile(base)];
      if expected.width == actual.width && expected.height == actual.height {
        var area := Parser.ToUint32(expected.width * expected.height);
        if area != 0 {
          var px := e.pixelmatch(actual, expected);
          FractionAtMostOne(px as real, area as real);
        }
      }
    }
  }

  /**
   * Images of 65536 by 65536 pixels have a pixel count that wraps to 0, so
   * two such images of the same size never score a finite ratio.
   */
  lemma WrappedPixelCountNotFinite(env: Env, e: Renderer.Engine, actual: Raster, base: string)
    requires !env.updateMode && ExpectedFile(base) in env.images
    requires env.images[ExpectedFile(base)].width == actual.width == 0x1_0000
    requires env.images[ExpectedFile(base)].height == actual.height == 0x1_0000
    ensures CheckImage(env, e, actual, base) == NotFinite
  {
    assert Parser.ToUint32(0x1_0000 * 0x1_0000) == 0;
  }

  /**
   * For images of the same size whose wrapped pixel count is not 0, a
   * scenario passes exactly when the differing pixels are at most the
   * allowed fraction of that count.
   */
  lemma PassesIffFewDifferences(env: Env, e: Renderer.Engine, actual: Raster, base: string, allowed: real)
    requires !env.updateMode && ExpectedFile(base) in env.images
    requires env.images[ExpectedFile(base)].width == actual.width
    requires env.images[ExpectedFile(base)].height == actual.height
    requires Parser.ToUint32(actual.width * actual.height) > 0
    ensures Passes(CheckImage(env, e, actual, base), allowed) <==>
      e.pixelmatch(actual, env.images[ExpectedFile(base)]) as real
        <= allowed * Parser.ToUint32(actual.width * actual.height) as real
  {
    var area := Parser.ToUint32(actual.width * actual.height) as real;
    var px := e.pixelmatch(actual, env.images[ExpectedFile(base)]) as real;
    assert CheckImage(env, e, actual, base) == Ratio(px / area);
    assert px / area <= allowed <==> px <= allowed * area;
  }

  /**
   * A missing expected image, or one of another size, scores 0: outside
   * update mode such a scenario passes for any allowed difference.
   */
  lemma MissingOrMismatchedExpectationPasses(env: Env, e: Renderer.Engine, actual: Raster, base: string, allowed: real)
    requires !env.updateMode && allowed >= 0.0
    requires ExpectedFile(base) !in env.images
      || env.images[ExpectedFile(base)].width != actual.width
      || env.images[ExpectedFile(base)].height != actual.height
    ensures Passes(CheckImage(env, e, actual, base), allowed)
  {
  }

  /** In update mode every scenario scores 1, so it fails whenever less than 1 is allowed. */
  lemma UpdateModeFails(env: Env, e: Renderer.Engine, actual: Raster, base: string, allowed: real)
    requires env.updateMode
    ensures Passes(CheckImage(env, e, actual, base), allowed) <==> allowed >= 1.0
  {
  }

  // ---------------------------------------------------------------------
  // Running one scenario
  // ---------------------------------------------------------------------

  /** The renderer a scenario uses: the cached one for its key, or a new one. */
  function Instance(cache: map<RendererKey, Renderer.MapInstance>, md: TestMetadata): Renderer.MapInstance {
    if KeyOf(md) in cache then cache[KeyOf(md)] else NewInstance(md)
  }

  datatype RunResult = RunResult(
    cache: map<RendererKey, Renderer.MapInstance>,
    score: Score,
    metadata: TestMetadata)

  /**
   * One scenario: prepare the renderer, replay the operations, render, and
   * score the image against the expectation next to the scenario file. The
   * record comes back with its path cut to the directory and its list cut
   * to the entries left unapplied.
   */
  function RunScenario(env: Env, e: Renderer.Engine, cache: map<RendererKey, Renderer.MapInstance>,
                       md: TestMetadata): RunResult
  {
    var (m, doc) := RunOps(env, e, Prepare(e, Instance(cache, md), md), md.document);
    RunResult(
      cache[KeyOf(md) := m],
      CheckImage(env, e, e.render(m), RemoveFilename(md.path)),
      md.(path := RemoveFilename(md.path), document := doc))
  }

  /** A run stores its renderer under its own key and leaves every other renderer alone. */
  lemma RunTouchesOnlyItsKey(env: Env, e: Renderer.Engine, cache: map<RendererKey, Renderer.MapInstance>,
                             md: TestMetadata, k: RendererKey)
    ensures var c := RunScenario(env, e, cache, md).cache;
      && c.Keys == cache.Keys + {KeyOf(md)}
      && (k != KeyOf(md) && k in cache ==> c[k] == cache[k])
  {
  }

  /**
   * A scenario whose key has no cached renderer (after a reset, say) runs
   * exactly as it would on an empty cache: earlier scenarios cannot affect it.
   */
  lemma FreshRendererIgnoresHistory(env: Env, e: Renderer.Engine, cache: map<RendererKey, Renderer.MapInstance>,
                                    md: TestMetadata)
    requires KeyOf(md) !in cache
    ensures RunScenario(env, e, cache, md).score == RunScenario(env, e, map[], md).score
    ensures RunScenario(env, e, cache, md).metadata == RunScenario(env, e, map[], md).metadata
  {
  }

  /**
   * A recycled renderer keeps the camera fields the new style's default
   * camera leaves out, so a scenario can see the previous one's pitch.
   */
  lemma RecycledRendererKeepsCamera(e: Renderer.Engine, cache: map<RendererKey, Renderer.MapInstance>, md: TestMetadata)
    requires KeyOf(md) in cache
    requires e.loadStyle(md.document).defaultCamera.pitch.None?
    ensures Prepare(e, Instance(cache, md), md).camera.pitch == cache[KeyOf(md)].camera.pitch
  {
  }

  /**
   * One step of the recursion: `done` when the list is empty or its first
   * entry halts, otherwise the renderer after that entry and the document
   * with it erased.
   */
  method FirstOperation(env: Env, e: Renderer.Engine, m: Renderer.MapInstance, doc: Value)
    returns (done: bool, next: Renderer.MapInstance, rest: Value)
    ensures done ==> RunOps(env, e, m, doc) == (m, doc)
    ensures !done ==> RunOps(env, e, m, doc) == RunOps(env, e, next, rest) && |OpsOf(rest)| < |OpsOf(doc)|
  {
    var ops := OpsOf(doc);
    if ops == [] {
      RunOpsEmpty(env, e, m, doc);
      return true, m, doc;
    }
    var step := Operations.Apply(env, e, m, Operations.Decode(ops[0]));
    RunOpsFirst(env, e, m, doc);
    done := step.Halt?;
    next := if step.Continue? then step.next else m;
    rest := WithOps(doc, ops[1..]);
  }

  class TestRunner {
    var maps: map<RendererKey, Renderer.MapInstance>

    constructor()
      ensures maps == map[]
    {
      maps := map[];
    }

    /** Drops every cached renderer. */
    method Reset()
      modifies this
      ensures maps == map[]
    {
      maps := map[];
    }

    /**
     * Applies the first entry of the list, erases it, and recurses; an image
     * operation whose file is missing ends the recursion with that entry
     * still in the list.
     */
    method RunOperations(env: Env, e: Renderer.Engine, key: RendererKey, doc: Value) returns (doc': Value)
      requires key in maps
      modifies this
      ensures maps == old(maps)[key := RunOps(env, e, old(maps)[key], doc).0]
      ensures doc' == RunOps(env, e, old(maps)[key], doc).1
      decreases |OpsOf(doc)|
    {
      var done, next, rest := FirstOperation(env, e, maps[key], doc);
      if done {
        return doc;
      }
      maps := maps[key := next];
      doc' := RunOperations(env, e, key, rest);
    }

    /** Runs one scenario on the renderer for its key, creating that renderer when there is none. */
    method Run(env: Env, e: Renderer.Engine, md: TestMetadata) returns (score: Score, md': TestMetadata)
      modifies this
      ensures var result := RunScenario(env, e, old(maps), md);
        maps == result.cache && score == result.score && md' == result.metadata
    {
      var key := KeyOf(md);
      if key !in maps {
        maps := maps[key := NewInstance(md)];
      }
      assert maps[key] == Instance(old(maps), md);
      var prepared := Prepare(e, maps[key], md);
      maps := maps[key := prepared];
      assert maps == old(maps)[key := prepared];
      var doc := RunOperations(env, e, key, md.document);
      ghost var ran := RunOps(env, e, prepared, md.document);
      assert maps == old(maps)[key := ran.0] && doc == ran.1;
      var actual := e.render(maps[key]);
      score := CheckImage(env, e, actual, RemoveFilename(md.path));
      md' := md.(path := RemoveFilename(md.path), document := doc);
      assert RunScenario(env, e, old(maps), md) == RunResult(maps, score, md');
    }
  }
}
