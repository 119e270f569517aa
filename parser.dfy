/**
 * The scenario loader: localizing every reference inside a style document,
 * reading the `metadata.test` block into a test record, and reading the
 * ignore list.
 */
module Parser {
  import opened Wrappers
  import opened Strings
  import opened Json
  import opened Host
  import opened Resolver
  import opened Metadata

  // ---------------------------------------------------------------------
  // Localizing a source object and a whole style (specification functions)
  // ---------------------------------------------------------------------

  /** A string entry becomes its localized reference; other entries are left alone. */
  function LocalizeItem(env: Env, kind: UrlKind, v: Value): Value {
    if v.Str? then Str(Localized(env, kind, v.s)) else v
  }

  function LocalizeItems(env: Env, kind: UrlKind, items: seq<Value>): seq<Value> {
    seq(|items|, i requires 0 <= i < |items| => LocalizeItem(env, kind, items[i]))
  }

  function WithLocalUrls(env: Env, src: Value): Value {
    if Get(src, "urls").Array?
    then SetMember(src, "urls", Array(LocalizeItems(env, TilesetUrl, Get(src, "urls").items)))
    else src
  }

  predicate IsMedia(src: Value) {
    Get(src, "type") == Str("image") || Get(src, "type") == Str("video")
  }

  /**
   * The `url` member is localized; then, unless the source is an image or a
   * video, the tileset manifest it names is read and, when it parses, its
   * `tiles` are appended to the source and `url` is removed.
   */
  function WithLocalUrl(env: Env, src: Value): Value {
    if !Get(src, "url").Str? then src
    else
      var path := Localized(env, TilesetUrl, Get(src, "url").s);
      var s1 := SetMember(src, "url", Str(path));
      if IsMedia(s1) then s1
      else
        match ReadJson(env, StripFileScheme(path))
        case None => s1
        case Some(tileset) => RemoveMember(AddMember(s1, "tiles", Get(tileset, "tiles")), "url")
  }

  function WithLocalTiles(env: Env, src: Value): Value {
    if Get(src, "tiles").Array?
    then SetMember(src, "tiles", Array(LocalizeItems(env, TileTemplate, Get(src, "tiles").items)))
    else src
  }

  function WithLocalData(env: Env, src: Value): Value {
    if Get(src, "data").Str?
    then SetMember(src, "data", Str(Localized(env, DataUrl, Get(src, "data").s)))
    else src
  }

  /** One source object with `urls`, `url`, `tiles` and `data` localized, in that order. */
  function LocalizeSource(env: Env, src: Value): Value {
    WithLocalData(env, WithLocalTiles(env, WithLocalUrl(env, WithLocalUrls(env, src))))
  }

  function LocalizeSourceMembers(env: Env, ms: seq<Member>): seq<Member> {
    seq(|ms|, i requires 0 <= i < |ms| => Member(ms[i].name, LocalizeSource(env, ms[i].value)))
  }

  function WithLocalSources(env: Env, style: Value): Value {
    if Get(style, "sources").Object?
    then SetMember(style, "sources", Object(LocalizeSourceMembers(env, Get(style, "sources").members)))
    else style
  }

  function WithLocalGlyphs(env: Env, style: Value): Value {
    if Get(style, "glyphs").Str?
    then SetMember(style, "glyphs", Str(Localized(env, GlyphsUrl, Get(style, "glyphs").s)))
    else style
  }

  function WithLocalSprite(env: Env, style: Value): Value {
    if Get(style, "sprite").Str?
    then SetMember(style, "sprite", Str(Localized(env, SpriteUrl, Get(style, "sprite").s)))
    else style
  }

  /** Every source, then `glyphs`, then `sprite`. */
  function LocalizeStyle(env: Env, style: Value): Value {
    WithLocalSprite(env, WithLocalGlyphs(env, WithLocalSources(env, style)))
  }

  // ---------------------------------------------------------------------
  // The same, as the loops that edit the document
  // ---------------------------------------------------------------------

  /** Localizes every string entry of an array, one entry at a time. */
  method LocalizeArray(env: Env, kind: UrlKind, items: seq<Value>) returns (out: seq<Value>)
    ensures out == LocalizeItems(env, kind, items)
  {
    out := items;
    var i := 0;
    while i < |out|
      invariant 0 <= i <= |items| == |out|
      invariant forall j :: 0 <= j < i ==> out[j] == LocalizeItem(env, kind, items[j])
      invariant forall j :: i <= j < |items| ==> out[j] == items[j]
    {
      ghost var prev := out;
      out := out[i := LocalizeItem(env, kind, out[i])];
      assert forall j :: 0 <= j < |out| && j != i ==> out[j] == prev[j];
      i := i + 1;
    }
  }

  method LocalizeSourceURLs(env: Env, root: Value) returns (r: Value)
    ensures r == LocalizeSource(env, root)
  {
    r := root;
    if Get(r, "urls").Array? {
      var urls := LocalizeArray(env, TilesetUrl, Get(r, "urls").items);
      r := SetMember(r, "urls", Array(urls));
    }
    if Get(r, "url").Str? {
      var path := Localized(env, TilesetUrl, Get(r, "url").s);
      r := SetMember(r, "url", Str(path));
      if !IsMedia(r) {
        var tilesetPath := StripFileScheme(path);
        var maybeTileset := ReadJson(env, tilesetPath);
        if maybeTileset.Some? {
          r := AddMember(r, "tiles", Get(maybeTileset.value, "tiles"));
          r := RemoveMember(r, "url");
        }
      }
    }
    if Get(r, "tiles").Array? {
      var tiles := LocalizeArray(env, TileTemplate, Get(r, "tiles").items);
      r := SetMember(r, "tiles", Array(tiles));
    }
    if Get(r, "data").Str? {
      r := SetMember(r, "data", Str(Localized(env, DataUrl, Get(r, "data").s)));
    }
  }

  method LocalizeStyleURLs(env: Env, root: Value) returns (r: Value)
    ensures r == LocalizeStyle(env, root)
  {
    r := root;
    if Get(r, "sources").Object? {
      var sources := Get(r, "sources").members;
      ghost var original := sources;
      var i := 0;
      while i < |sources|
        invariant 0 <= i <= |sources| == |original|
        invariant forall j :: 0 <= j < i ==> sources[j] == Member(original[j].name, LocalizeSource(env, original[j].value))
        invariant forall j :: i <= j < |sources| ==> sources[j] == original[j]
      {
        var localized := LocalizeSourceURLs(env, sources[i].value);
        sources := sources[i := Member(sources[i].name, localized)];
        i := i + 1;
      }
      assert sources == LocalizeSourceMembers(env, original);
      r := SetMember(r, "sources", Object(sources));
    }
    if Get(r, "glyphs").Str? {
      r := SetMember(r, "glyphs", Str(Localized(env, GlyphsUrl, Get(r, "glyphs").s)));
    }
    if Get(r, "sprite").Str? {
      r := SetMember(r, "sprite", Str(Localized(env, SpriteUrl, Get(r, "sprite").s)));
    }
  }

  // ---------------------------------------------------------------------
  // What localizing a source and a style does to each member
  // ---------------------------------------------------------------------

  /** The manifest a source's `url` names, as a path on disk. */
  function ManifestPath(env: Env, u: string): (r: string)
    ensures StripFileScheme(Localized(env, TilesetUrl, u)) == r
  {
    Resolve(env, TilesetUrl, u).GetOr(u)
  }

  /** The `url` stage leaves every name other than `url` and `tiles` reading as before. */
  lemma UrlStageKeepsOthers(env: Env, s: Value, k: string)
    requires k != "url" && k != "tiles"
    ensures HasMember(WithLocalUrl(env, s), k) == HasMember(s, k)
    ensures Get(WithLocalUrl(env, s), k) == Get(s, k)
  {
    if Get(s, "url").Str? {
      var path := Localized(env, TilesetUrl, Get(s, "url").s);
      var s1 := SetMember(s, "url", Str(path));
      SetMemberLookup(s, "url", Str(path), k);
      SetMemberLookup(s, "url", Str(path), "url");
      if !IsMedia(s1) && ReadJson(env, StripFileScheme(path)).Some? {
        var tileset := ReadJson(env, StripFileScheme(path)).value;
        AddThenRemoveOthers(s1, "tiles", Get(tileset, "tiles"), "url", k);
      }
    }
  }

  /** The `tiles` and `data` stages leave every other name reading as before. */
  lemma LastStagesKeepOthers(env: Env, s: Value, k: string)
    requires k != "tiles" && k != "data"
    ensures HasMember(WithLocalData(env, WithLocalTiles(env, s)), k) == HasMember(s, k)
    ensures Get(WithLocalData(env, WithLocalTiles(env, s)), k) == Get(s, k)
  {
    var s2 := WithLocalTiles(env, s);
    if Get(s, "tiles").Array? {
      SetMemberLookup(s, "tiles", Array(LocalizeItems(env, TileTemplate, Get(s, "tiles").items)), k);
    }
    if Get(s2, "data").Str? {
      SetMemberLookup(s2, "data", Str(Localized(env, DataUrl, Get(s2, "data").s)), k);
    }
  }

  /** Every string in `urls` is localized as a tileset reference. */
  lemma SourceUrlsLocalized(env: Env, src: Value, xs: seq<Value>)
    requires Get(src, "urls") == Array(xs)
    ensures Get(LocalizeSource(env, src), "urls") == Array(LocalizeItems(env, TilesetUrl, xs))
  {
    var s0 := WithLocalUrls(env, src);
    SetMemberLookup(src, "urls", Array(LocalizeItems(env, TilesetUrl, xs)), "urls");
    UrlStageKeepsOthers(env, s0, "urls");
    LastStagesKeepOthers(env, WithLocalUrl(env, s0), "urls");
  }

  /** A string `data` is localized; data of any other type is left untouched. */
  lemma SourceDataLocalized(env: Env, src: Value)
    ensures Get(src, "data").Str? ==>
      Get(LocalizeSource(env, src), "data") == Str(Localized(env, DataUrl, Get(src, "data").s))
    ensures !Get(src, "data").Str? ==> Get(LocalizeSource(env, src), "data") == Get(src, "data")
  {
    var s0 := WithLocalUrls(env, src);
    if Get(src, "urls").Array? {
      SetMemberLookup(src, "urls", Array(LocalizeItems(env, TilesetUrl, Get(src, "urls").items)), "data");
    }
    UrlStageKeepsOthers(env, s0, "data");
    var s1 := WithLocalUrl(env, s0);
    var s2 := WithLocalTiles(env, s1);
    if Get(s1, "tiles").Array? {
      SetMemberLookup(s1, "tiles", Array(LocalizeItems(env, TileTemplate, Get(s1, "tiles").items)), "data");
    }
    if Get(s2, "data").Str? {
      SetMemberLookup(s2, "data", Str(Localized(env, DataUrl, Get(s2, "data").s)), "data");
    }
  }

  /** The first two stages keep `url` and `type`, and the `url` stage sees the original `url`. */
  lemma UrlsStageKeepsUrlAndType(env: Env, src: Value)
    ensures Get(WithLocalUrls(env, src), "url") == Get(src, "url")
    ensures Get(WithLocalUrls(env, src), "type") == Get(src, "type")
    ensures HasMember(WithLocalUrls(env, src), "tiles") == HasMember(src, "tiles")
    ensures Get(WithLocalUrls(env, src), "tiles") == Get(src, "tiles")
  {
    if Get(src, "urls").Array? {
      var x := Array(LocalizeItems(env, TilesetUrl, Get(src, "urls").items));
      SetMemberLookup(src, "urls", x, "url");
      SetMemberLookup(src, "urls", x, "type");
      SetMemberLookup(src, "urls", x, "tiles");
    }
  }

  /**
   * An image or video source, or one whose manifest cannot be read, keeps
   * its `url`, now localized.
   */
  lemma SourceUrlKept(env: Env, src: Value, u: string)
    requires Get(src, "url") == Str(u)
    requires IsMedia(src) || ReadJson(env, ManifestPath(env, u)).None?
    ensures Get(LocalizeSource(env, src), "url") == Str(Localized(env, TilesetUrl, u))
  {
    var s0 := WithLocalUrls(env, src);
    UrlsStageKeepsUrlAndType(env, src);
    var path := Localized(env, TilesetUrl, u);
    var s1 := SetMember(s0, "url", Str(path));
    SetMemberLookup(s0, "url", Str(path), "url");
    SetMemberLookup(s0, "url", Str(path), "type");
    assert WithLocalUrl(env, s0) == s1;
    LastStagesKeepOthers(env, s1, "url");
  }

  /**
   * A tile source whose manifest can be read loses its `url` and gains the
   * manifest's `tiles`, each localized as a tile template.
   */
  lemma SourceManifestSpliced(env: Env, src: Value, u: string, tileset: Value)
    requires UniqueNames(src) && !HasMember(src, "tiles")
    requires Get(src, "url") == Str(u) && !IsMedia(src)
    requires ReadJson(env, ManifestPath(env, u)) == Some(tileset)
    ensures !HasMember(LocalizeSource(env, src), "url")
    ensures Get(tileset, "tiles").Array? ==>
      Get(LocalizeSource(env, src), "tiles") == Array(LocalizeItems(env, TileTemplate, Get(tileset, "tiles").items))
    ensures !Get(tileset, "tiles").Array? ==> Get(LocalizeSource(env, src), "tiles") == Get(tileset, "tiles")
  {
    var s0 := WithLocalUrls(env, src);
    UrlsStageKeepsUrlAndType(env, src);
    if Get(src, "urls").Array? {
      SetMemberKeepsUnique(src, "urls", Array(LocalizeItems(env, TilesetUrl, Get(src, "urls").items)));
    }
    var path := Localized(env, TilesetUrl, u);
    var s1 := SetMember(s0, "url", Str(path));
    SetMemberLookup(s0, "url", Str(path), "url");
    SetMemberLookup(s0, "url", Str(path), "type");
    SetMemberLookup(s0, "url", Str(path), "tiles");
    SetMemberKeepsUnique(s0, "url", Str(path));
    var t := Get(tileset, "tiles");
    var w := RemoveMember(AddMember(s1, "tiles", t), "url");
    AddThenRemove(s1, "tiles", t, "url");
    assert WithLocalUrl(env, s0) == w;
    var s3 := WithLocalTiles(env, w);
    if t.Array? {
      SetMemberLookup(w, "tiles", Array(LocalizeItems(env, TileTemplate, t.items)), "tiles");
      SetMemberLookup(w, "tiles", Array(LocalizeItems(env, TileTemplate, t.items)), "url");
    }
    if Get(s3, "data").Str? {
      var d := Str(Localized(env, DataUrl, Get(s3, "data").s));
      SetMemberLookup(s3, "data", d, "tiles");
      SetMemberLookup(s3, "data", d, "url");
    }
  }

  /**
   * When no manifest is spliced in, the source's own `tiles` are localized
   * as tile templates.
   */
  lemma SourceTilesLocalized(env: Env, src: Value, ts: seq<Value>)
    requires Get(src, "tiles") == Array(ts)
    requires !Get(src, "url").Str? || IsMedia(src) || ReadJson(env, ManifestPath(env, Get(src, "url").s)).None?
    ensures Get(LocalizeSource(env, src), "tiles") == Array(LocalizeItems(env, TileTemplate, ts))
  {
    var s0 := WithLocalUrls(env, src);
    UrlsStageKeepsUrlAndType(env, src);
    var s1 := WithLocalUrl(env, s0);
    if Get(s0, "url").Str? {
      var path := Localized(env, TilesetUrl, Get(s0, "url").s);
      SetMemberLookup(s0, "url", Str(path), "tiles");
      SetMemberLookup(s0, "url", Str(path), "type");
      assert s1 == SetMember(s0, "url", Str(path));
    }
    var x := Array(LocalizeItems(env, TileTemplate, ts));
    SetMemberLookup(s1, "tiles", x, "tiles");
    var s2 := WithLocalTiles(env, s1);
    if Get(s2, "data").Str? {
      SetMemberLookup(s2, "data", Str(Localized(env, DataUrl, Get(s2, "data").s)), "tiles");
    }
  }

  /**
   * Localizing a style touches `sources`, `glyphs` and `sprite` only: every
   * other member, the test metadata among them, reads as before.
   */
  lemma StyleKeepsOthers(env: Env, style: Value, k: string)
    requires k != "sources" && k != "glyphs" && k != "sprite"
    ensures HasMember(LocalizeStyle(env, style), k) == HasMember(style, k)
    ensures Get(LocalizeStyle(env, style), k) == Get(style, k)
  {
    var s1 := WithLocalSources(env, style);
    var s2 := WithLocalGlyphs(env, s1);
    if Get(style, "sources").Object? {
      SetMemberLookup(style, "sources", Object(LocalizeSourceMembers(env, Get(style, "sources").members)), k);
    }
    if Get(s1, "glyphs").Str? {
      SetMemberLookup(s1, "glyphs", Str(Localized(env, GlyphsUrl, Get(s1, "glyphs").s)), k);
    }
    if Get(s2, "sprite").Str? {
      SetMemberLookup(s2, "sprite", Str(Localized(env, SpriteUrl, Get(s2, "sprite").s)), k);
    }
  }

  /** Every source, the glyphs template and the sprite prefix are localized. */
  lemma StyleReferencesLocalized(env: Env, style: Value)
    ensures Get(style, "sources").Object? ==>
      Get(LocalizeStyle(env, style), "sources") == Object(LocalizeSourceMembers(env, Get(style, "sources").members))
    ensures Get(style, "glyphs").Str? ==>
      Get(LocalizeStyle(env, style), "glyphs") == Str(Localized(env, GlyphsUrl, Get(style, "glyphs").s))
    ensures Get(style, "sprite").Str? ==>
      Get(LocalizeStyle(env, style), "sprite") == Str(Localized(env, SpriteUrl, Get(style, "sprite").s))
  {
    var s1 := WithLocalSources(env, style);
    var s2 := WithLocalGlyphs(env, s1);
    if Get(style, "sources").Object? {
      var x := Object(LocalizeSourceMembers(env, Get(style, "sources").members));
      SetMemberLookup(style, "sources", x, "sources");
      SetMemberLookup(style, "sources", x, "glyphs");
      SetMemberLookup(style, "sources", x, "sprite");
    }
    if Get(s1, "glyphs").Str? {
      var x := Str(Localized(env, GlyphsUrl, Get(s1, "glyphs").s));
      SetMemberLookup(s1, "glyphs", x, "sources");
      SetMemberLookup(s1, "glyphs", x, "glyphs");
      SetMemberLookup(s1, "glyphs", x, "sprite");
    }
    if Get(s2, "sprite").Str? {
      var x := Str(Localized(env, SpriteUrl, Get(s2, "sprite").s));
      SetMemberLookup(s2, "sprite", x, "sources");
      SetMemberLookup(s2, "sprite", x, "glyphs");
      SetMemberLookup(s2, "sprite", x, "sprite");
    }
  }

  // ---------------------------------------------------------------------
  // The `metadata.test` block
  // ---------------------------------------------------------------------

  const Uint32Range: nat := 0x1_0000_0000

  /** A signed integer stored into an unsigned 32-bit field. */
  function ToUint32(i: int): (r: nat)
    ensures r < Uint32Range
    ensures 0 <= i < Uint32Range ==> r == i
    ensures (r - i) % Uint32Range == 0
  {
    i % Uint32Range
  }

  predicate IsIntegral(x: real) {
    x == x.Floor as real
  }

  /** The test block, when the document has `metadata` holding `test`. */
  function TestBlock(doc: Value): (r: Option<Value>)
    ensures r.Some? <==> HasMember(doc, "metadata") && HasMember(Get(doc, "metadata"), "test")
  {
    if HasMember(doc, "metadata") && HasMember(Get(doc, "metadata"), "test")
    then Some(Get(Get(doc, "metadata"), "test"))
    else None
  }

  /** Test options the runner does not implement: a scenario using one is not run. */
  predicate Unsupported(test: Value) {
    HasMember(test, "fadeDuration") || HasMember(test, "addFakeCanvas")
  }

  function DimensionOr(test: Value, k: string, d: nat): nat {
    var v := Get(test, k);
    if v.Number? && IsIntegral(v.n) then ToUint32(v.n.Floor) else d
  }

  function NumberOr(test: Value, k: string, d: real): real {
    if Get(test, k).Number? then Get(test, k).n else d
  }

  function StringOr(test: Value, k: string, d: string): string {
    if Get(test, k).Str? then Get(test, k).s else d
  }

  function BoolOr(test: Value, k: string, d: bool): bool {
    if Get(test, k).Bool? then Get(test, k).b else d
  }

  function ModeOr(test: Value, d: MapMode): MapMode {
    if !Get(test, "mapMode").Str? then d
    else if Get(test, "mapMode").s == "tile" then Tile
    else Static
  }

  /** A debug flag is switched on by the mere presence of its member. */
  function WithFlag(flags: set<DebugFlag>, test: Value, k: string, f: DebugFlag): (r: set<DebugFlag>)
    ensures f in r <==> f in flags || HasMember(test, k)
    ensures forall g :: g != f ==> (g in r <==> g in flags)
  {
    if HasMember(test, k) then flags + {f} else flags
  }

  function SkewOr(test: Value, i: nat, d: real): real {
    var skew := Get(test, "skew");
    if skew.Array? && i < |skew.items| && skew.items[i].Number? then skew.items[i].n else d
  }

  function ReadSize(md: TestMetadata, test: Value): TestMetadata {
    md.(size := Size(DimensionOr(test, "width", md.size.width), DimensionOr(test, "height", md.size.height)))
  }

  function ReadRendering(md: TestMetadata, test: Value): TestMetadata {
    md.(
      pixelRatio := NumberOr(test, "pixelRatio", md.pixelRatio),
      allowed := NumberOr(test, "allowed", md.allowed),
      description := StringOr(test, "description", md.description),
      mapMode := ModeOr(test, md.mapMode))
  }

  function ReadDebug(md: TestMetadata, test: Value): TestMetadata {
    md.(debug := WithFlag(WithFlag(WithFlag(md.debug, test, "debug", TileBorders),
      test, "collisionDebug", Collision), test, "showOverdrawInspector", Overdraw))
  }

  function ReadProjection(md: TestMetadata, test: Value): TestMetadata {
    md.(
      crossSourceCollisions := BoolOr(test, "crossSourceCollisions", md.crossSourceCollisions),
      axonometric := BoolOr(test, "axonometric", md.axonometric),
      xSkew := SkewOr(test, 0, md.xSkew),
      ySkew := SkewOr(test, 1, md.ySkew))
  }

  /** The record after the members of the test block are read into it, in the order they are read. */
  function ApplyTestBlock(md: TestMetadata, test: Value): TestMetadata {
    ReadProjection(ReadDebug(ReadRendering(ReadSize(md, test), test), test), test)
  }

  /** The record for the scenario at `path` whose localized document is `doc`. */
  function FromDocument(path: string, doc: Value): Option<TestMetadata> {
    var md := Defaults.(path := path, document := doc);
    match TestBlock(doc)
    case None => Some(md)
    case Some(test) => if Unsupported(test) then None else Some(ApplyTestBlock(md, test))
  }

  /** What reading the scenario file at `path` yields. */
  function ParsedMetadata(env: Env, path: string): Option<TestMetadata> {
    match ReadJson(env, path)
    case None => None
    case Some(raw) => FromDocument(path, LocalizeStyle(env, raw))
  }

  /** Reads `width` and `height`. */
  method ReadSizeOptions(md0: TestMetadata, test: Value) returns (md: TestMetadata)
    ensures md == ReadSize(md0, test)
  {
    md := md0;
    var width := Get(test, "width");
    if width.Number? && IsIntegral(width.n) {
      md := md.(size := md.size.(width := ToUint32(width.n.Floor)));
    }
    var height := Get(test, "height");
    if height.Number? && IsIntegral(height.n) {
      md := md.(size := md.size.(height := ToUint32(height.n.Floor)));
    }
  }

  /** Reads `pixelRatio`, `allowed`, `description` and `mapMode`. */
  method ReadRenderingOptions(md0: TestMetadata, test: Value) returns (md: TestMetadata)
    ensures md == ReadRendering(md0, test)
  {
    md := md0;
    if Get(test, "pixelRatio").Number? {
      md := md.(pixelRatio := Get(test, "pixelRatio").n);
    }
    if Get(test, "allowed").Number? {
      md := md.(allowed := Get(test, "allowed").n);
    }
    if Get(test, "description").Str? {
      md := md.(description := Get(test, "description").s);
    }
    if Get(test, "mapMode").Str? {
      md := md.(mapMode := if Get(test, "mapMode").s == "tile" then Tile else Static);
    }
  }

  /** Sets one debug flag per debug member present. */
  method ReadDebugOptions(md0: TestMetadata, test: Value) returns (md: TestMetadata)
    ensures md == ReadDebug(md0, test)
  {
    md := md0;
    if HasMember(test, "debug") {
      md := md.(debug := md.debug + {TileBorders});
    }
    if HasMember(test, "collisionDebug") {
      md := md.(debug := md.debug + {Collision});
    }
    if HasMember(test, "showOverdrawInspector") {
      md := md.(debug := md.debug + {Overdraw});
    }
  }

  /** Reads `crossSourceCollisions`, `axonometric` and `skew`. */
  method ReadProjectionOptions(md0: TestMetadata, test: Value) returns (md: TestMetadata)
    ensures md == ReadProjection(md0, test)
  {
    md := md0;
    if Get(test, "crossSourceCollisions").Bool? {
      md := md.(crossSourceCollisions := Get(test, "crossSourceCollisions").b);
    }
    if Get(test, "axonometric").Bool? {
      md := md.(axonometric := Get(test, "axonometric").b);
    }
    var skew := Get(test, "skew");
    if skew.Array? {
      if 0 < |skew.items| && skew.items[0].Number? {
        md := md.(xSkew := skew.items[0].n);
      }
      if 1 < |skew.items| && skew.items[1].Number? {
        md := md.(ySkew := skew.items[1].n);
      }
    }
  }

  method ParseTestMetadata(env: Env, path: string) returns (r: Option<TestMetadata>)
    ensures r == ParsedMetadata(env, path)
  {
    var md := Defaults.(path := path);
    var maybeJson := ReadJson(env, path);
    if maybeJson.None? {
      return None;
    }
    var document := LocalizeStyleURLs(env, maybeJson.value);
    md := md.(document := document);
    if !HasMember(document, "metadata") {
      return Some(md);
    }
    var metadataValue := Get(document, "metadata");
    if !HasMember(metadataValue, "test") {
      return Some(md);
    }
    var test := Get(metadataValue, "test");
    md := ReadSizeOptions(md, test);
    md := ReadRenderingOptions(md, test);
    md := ReadDebugOptions(md, test);
    md := ReadProjectionOptions(md, test);
    if HasMember(test, "fadeDuration") {
      return None;
    }
    if HasMember(test, "addFakeCanvas") {
      return None;
    }
    return Some(md);
  }

  /** Localizing the references never moves or alters the test block. */
  lemma LocalizeKeepsTestBlock(env: Env, raw: Value)
    ensures TestBlock(LocalizeStyle(env, raw)) == TestBlock(raw)
  {
    StyleKeepsOthers(env, raw, "metadata");
  }

  /**
   * A scenario fails to load exactly when its file cannot be read or its
   * test block asks for an option the runner does not implement.
   */
  lemma ParseFailsExactly(env: Env, path: string)
    ensures ParsedMetadata(env, path).None? <==>
      ReadJson(env, path).None?
      || (TestBlock(ReadJson(env, path).value).Some? && Unsupported(TestBlock(ReadJson(env, path).value).value))
  {
    if ReadJson(env, path).Some? {
      LocalizeKeepsTestBlock(env, ReadJson(env, path).value);
    }
  }

  /**
   * A readable scenario without a test block loads as the defaults, with its
   * path and its localized document.
   */
  lemma NoTestBlockGivesDefaults(env: Env, path: string, raw: Value)
    requires ReadJson(env, path) == Some(raw) && TestBlock(raw).None?
    ensures ParsedMetadata(env, path) == Some(Defaults.(path := path, document := LocalizeStyle(env, raw)))
  {
    LocalizeKeepsTestBlock(env, raw);
  }

  /**
   * What each option of the test block sets: the map mode is tile exactly
   * for "tile", each debug flag exactly when its member is present, a
   * whole-number dimension is stored modulo 2^32 (so unchanged when it fits
   * in 32 bits), every other member of the right type is stored as given,
   * and an absent member leaves its default.
   */
  lemma TestBlockOptions(env: Env, path: string, raw: Value, test: Value)
    requires ReadJson(env, path) == Some(raw) && TestBlock(raw) == Some(test) && !Unsupported(test)
    ensures ParsedMetadata(env, path).Some?
    ensures var md := ParsedMetadata(env, path).value;
      && md.path == path
      && md.document == LocalizeStyle(env, raw)
      && (md.mapMode == Tile <==> Get(test, "mapMode") == Str("tile"))
      && (TileBorders in md.debug <==> HasMember(test, "debug"))
      && (Collision in md.debug <==> HasMember(test, "collisionDebug"))
      && (Overdraw in md.debug <==> HasMember(test, "showOverdrawInspector"))
      && (!HasMember(test, "width") ==> md.size.width == 512)
      && (Get(test, "width").Number? && IsIntegral(Get(test, "width").n)
          ==> md.size.width == ToUint32(Get(test, "width").n.Floor))
      && (Get(test, "width").Number? && 0.0 <= Get(test, "width").n < Uint32Range as real && IsIntegral(Get(test, "width").n)
          ==> md.size.width == Get(test, "width").n.Floor)
      && (Get(test, "height").Number? && IsIntegral(Get(test, "height").n)
          ==> md.size.height == ToUint32(Get(test, "height").n.Floor))
      && (!HasMember(test, "height") ==> md.size.height == 512)
      && (Get(test, "pixelRatio").Number? ==> md.pixelRatio == Get(test, "pixelRatio").n)
      && (!HasMember(test, "pixelRatio") ==> md.pixelRatio == 1.0)
      && (Get(test, "allowed").Number? ==> md.allowed == Get(test, "allowed").n)
      && (!HasMember(test, "allowed") ==> md.allowed == 0.00015)
      && (Get(test, "description").Str? ==> md.description == Get(test, "description").s)
      && (!HasMember(test, "description") ==> md.description == "")
      && (Get(test, "crossSourceCollisions").Bool? ==> md.crossSourceCollisions == Get(test, "crossSourceCollisions").b)
      && (!HasMember(test, "crossSourceCollisions") ==> md.crossSourceCollisions)
      && (Get(test, "axonometric").Bool? ==> md.axonometric == Get(test, "axonometric").b)
      && (!HasMember(test, "axonometric") ==> !md.axonometric)
      && (var skew := Get(test, "skew");
          skew.Array? && |skew.items| >= 2 && skew.items[0].Number? && skew.items[1].Number?
          ==> md.xSkew == skew.items[0].n && md.ySkew == skew.items[1].n)
      && (!HasMember(test, "skew") ==> md.xSkew == 0.0 && md.ySkew == 1.0)
      && md.fadeDuration == 0 && !md.addFakeCanvas
  {
    LocalizeKeepsTestBlock(env, raw);
    DocumentOptions(path, LocalizeStyle(env, raw), test);
  }

  /** The same, for the record built from a localized document holding the test block. */
  lemma DocumentOptions(path: string, doc: Value, test: Value)
    requires TestBlock(doc) == Some(test) && !Unsupported(test)
    ensures FromDocument(path, doc).Some?
    ensures var md := FromDocument(path, doc).value;
      && md.path == path
      && md.document == doc
      && (md.mapMode == Tile <==> Get(test, "mapMode") == Str("tile"))
      && (TileBorders in md.debug <==> HasMember(test, "debug"))
      && (Collision in md.debug <==> HasMember(test, "collisionDebug"))
      && (Overdraw in md.debug <==> HasMember(test, "showOverdrawInspector"))
      && (!HasMember(test, "width") ==> md.size.width == 512)
      && (Get(test, "width").Number? && IsIntegral(Get(test, "width").n)
          ==> md.size.width == ToUint32(Get(test, "width").n.Floor))
      && (Get(test, "width").Number? && 0.0 <= Get(test, "width").n < Uint32Range as real && IsIntegral(Get(test, "width").n)
          ==> md.size.width == Get(test, "width").n.Floor)
      && (Get(test, "height").Number? && IsIntegral(Get(test, "height").n)
          ==> md.size.height == ToUint32(Get(test, "height").n.Floor))
      && (!HasMember(test, "height") ==> md.size.height == 512)
      && (Get(test, "pixelRatio").Number? ==> md.pixelRatio == Get(test, "pixelRatio").n)
      && (!HasMember(test, "pixelRatio") ==> md.pixelRatio == 1.0)
      && (Get(test, "allowed").Number? ==> md.allowed == Get(test, "allowed").n)
      && (!HasMember(test, "allowed") ==> md.allowed == 0.00015)
      && (Get(test, "description").Str? ==> md.description == Get(test, "description").s)
      && (!HasMember(test, "description") ==> md.description == "")
      && (Get(test, "crossSourceCollisions").Bool? ==> md.crossSourceCollisions == Get(test, "crossSourceCollisions").b)
      && (!HasMember(test, "crossSourceCollisions") ==> md.crossSourceCollisions)
      && (Get(test, "axonometric").Bool? ==> md.axonometric == Get(test, "axonometric").b)
      && (!HasMember(test, "axonometric") ==> !md.axonometric)
      && (var skew := Get(test, "skew");
          skew.Array? && |skew.items| >= 2 && skew.items[0].Number? && skew.items[1].Number?
          ==> md.xSkew == skew.items[0].n && md.ySkew == skew.items[1].n)
      && (!HasMember(test, "skew") ==> md.xSkew == 0.0 && md.ySkew == 1.0)
      && md.fadeDuration == 0 && !md.addFakeCanvas
  {
    var md0 := Defaults.(path := path, document := doc);
    ApplyTestBlockFields(md0, test);
    assert FromDocument(path, doc).value.size.width == DimensionOr(test, "width", 512);
  }

  /** Which member of the test block each field of the record comes from. */
  lemma ApplyTestBlockFields(md0: TestMetadata, test: Value)
    ensures var md := ApplyTestBlock(md0, test);
      && md.path == md0.path && md.document == md0.document
      && md.size.width == DimensionOr(test, "width", md0.size.width)
      && md.size.height == DimensionOr(test, "height", md0.size.height)
      && md.pixelRatio == NumberOr(test, "pixelRatio", md0.pixelRatio)
      && md.allowed == NumberOr(test, "allowed", md0.allowed)
      && md.description == StringOr(test, "description", md0.description)
      && md.mapMode == ModeOr(test, md0.mapMode)
      && md.crossSourceCollisions == BoolOr(test, "crossSourceCollisions", md0.crossSourceCollisions)
      && md.axonometric == BoolOr(test, "axonometric", md0.axonometric)
      && md.xSkew == SkewOr(test, 0, md0.xSkew) && md.ySkew == SkewOr(test, 1, md0.ySkew)
      && (TileBorders in md.debug <==> TileBorders in md0.debug || HasMember(test, "debug"))
      && (Collision in md.debug <==> Collision in md0.debug || HasMember(test, "collisionDebug"))
      && (Overdraw in md.debug <==> Overdraw in md0.debug || HasMember(test, "showOverdrawInspector"))
      && md.fadeDuration == md0.fadeDuration && md.addFakeCanvas == md0.addFakeCanvas
  {
  }

  /** An empty test block leaves every field at its default. */
  lemma EmptyTestBlockKeepsDefaults(env: Env, path: string, raw: Value)
    requires ReadJson(env, path) == Some(raw) && TestBlock(raw) == Some(Object([]))
    ensures ParsedMetadata(env, path) == Some(Defaults.(path := path, document := LocalizeStyle(env, raw)))
  {
    LocalizeKeepsTestBlock(env, raw);
  }

  // ---------------------------------------------------------------------
  // The ignore list
  // ---------------------------------------------------------------------

  function IgnoresPath(env: Env): string {
    env.root + "/platform/node/test/ignores.json"
  }

  /** One (test id, reason) pair per member whose value is a string. */
  function IgnoreEntries(ms: seq<Member>): seq<(string, string)> {
    if ms == [] then []
    else
      var last := ms[|ms| - 1];
      IgnoreEntries(ms[..|ms| - 1]) + (if last.value.Str? then [(last.name, last.value.s)] else [])
  }

  /** The ignore list: empty when the file is missing or not an object. */
  function Ignores(env: Env): seq<(string, string)> {
    match ReadJson(env, IgnoresPath(env))
    case Some(Object(ms)) => IgnoreEntries(ms)
    case _ => []
  }

  method ParseIgnores(env: Env) returns (ignores: seq<(string, string)>)
    ensures ignores == Ignores(env)
  {
    ignores := [];
    var maybeIgnores := ReadJson(env, IgnoresPath(env));
    if maybeIgnores.Some? && maybeIgnores.value.Object? {
      var ms := maybeIgnores.value.members;
      var i := 0;
      while i < |ms|
        invariant 0 <= i <= |ms|
        invariant ignores == IgnoreEntries(ms[..i])
      {
        assert ms[..i + 1][..i] == ms[..i];
        if ms[i].value.Str? {
          ignores := ignores + [(ms[i].name, ms[i].value.s)];
        }
        i := i + 1;
      }
      assert ms[..|ms|] == ms;
    }
  }

  /**
   * When every reason is a string, the list holds every member of the file,
   * in file order.
   */
  lemma {:induction false} IgnoreEntriesAllStrings(ms: seq<Member>)
    requires forall j :: 0 <= j < |ms| ==> ms[j].value.Str?
    ensures |IgnoreEntries(ms)| == |ms|
    ensures forall j :: 0 <= j < |ms| ==> IgnoreEntries(ms)[j] == (ms[j].name, ms[j].value.s)
  {
    if ms != [] {
      IgnoreEntriesAllStrings(ms[..|ms| - 1]);
    }
  }
}
