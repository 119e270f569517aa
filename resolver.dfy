/**
 * Rewriting of resource references found in a style (`local://`,
 * `http://localhost:2900`, `mapbox://`) into paths under the harness's
 * vendor directory or the integration suite. A rewrite is kept only when the
 * existence probe accepts its parent directory (or, for glyph ranges, the
 * parent of that); the rules are tried in a fixed order and the first kept
 * rewrite wins.
 */
module Resolver {
  import opened Wrappers
  import opened Strings
  import opened Host

  const LocalScheme := "local://"
  const LocalhostOrigin := "http://localhost:2900"
  const MapboxScheme := "mapbox://"
  const MapboxFonts := "mapbox://fonts"
  const FileScheme := "file://"

  /** The text before the first '?', or the whole text when it has none. */
  function RemoveURLArguments(url: string): (r: string)
    ensures IsPrefix(r, url)
    ensures '?' !in r
    ensures |r| < |url| ==> url[|r|] == '?'
    ensures '?' !in url ==> r == url
  {
    var i := Find(url, "?");
    assert forall j :: 0 <= j < |url| ==> (OccursAt("?", url, j) <==> url[j] == '?') by {
      forall j | 0 <= j < |url| ensures OccursAt("?", url, j) <==> url[j] == '?' {
        assert url[j..j + 1] == [url[j]];
      }
    }
    if i >= 0 then url[..i] else url
  }

  function PrependFileScheme(url: string): string {
    FileScheme + url
  }

  /** Dropping the first seven characters, as done to turn a `file://` reference back into a path. */
  function StripFileScheme(p: string): string {
    if |p| <= 7 then "" else p[7..]
  }

  lemma FileSchemeRoundTrip(url: string)
    ensures StripFileScheme(PrependFileScheme(url)) == url
    ensures IsPrefix(FileScheme, PrependFileScheme(url))
  {
    assert |FileScheme| == 7;
    if |url| == 0 {
      assert PrependFileScheme(url) == FileScheme;
    }
  }

  /** The existence test a rewritten path must pass. */
  predicate Probe(env: Env, file: string, glyphs: bool) {
    Exists(env, ParentPath(file)) || (glyphs && Exists(env, ParentPath(ParentPath(file))))
  }

  /**
   * Shared shape of the vendor and integration lookups: replace the pattern
   * by `base`, keep the result only if the probe accepts it, and strip the
   * query string. The probe sees the path before the query is stripped.
   */
  function Rewrite(env: Env, url: string, pat: string, base: string, glyphs: bool): (r: Option<string>)
    requires |pat| > 0
    ensures r.Some? <==> Probe(env, ReplaceAll(url, pat, base), glyphs)
    ensures r.Some? ==> '?' !in r.value && IsPrefix(r.value, ReplaceAll(url, pat, base))
  {
    var file := ReplaceAll(url, pat, base);
    if Exists(env, ParentPath(file)) then Some(RemoveURLArguments(file))
    else if glyphs && Exists(env, ParentPath(ParentPath(file))) then Some(RemoveURLArguments(file))
    else None
  }

  function VendorPath(env: Env, url: string, pat: string, glyphs: bool): Option<string>
    requires |pat| > 0
  {
    Rewrite(env, url, pat, VendorDir(env), glyphs)
  }

  function IntegrationPath(env: Env, url: string, parent: string, pat: string, glyphs: bool): Option<string>
    requires |pat| > 0
  {
    Rewrite(env, url, pat, IntegrationDir(env) + parent, glyphs)
  }

  function LocalizeLocalURL(env: Env, url: string, glyphs: bool): Option<string> {
    VendorPath(env, url, LocalScheme, glyphs).Or(IntegrationPath(env, url, "", LocalScheme, glyphs))
  }

  function LocalizeHttpURL(env: Env, url: string): Option<string> {
    VendorPath(env, url, LocalhostOrigin, false).Or(IntegrationPath(env, url, "", LocalhostOrigin, false))
  }

  function LocalizeMapboxSpriteURL(env: Env, url: string): Option<string> {
    IntegrationPath(env, url, "", MapboxScheme, false)
  }

  function LocalizeMapboxFontsURL(env: Env, url: string): Option<string> {
    IntegrationPath(env, url, "glyphs/", MapboxFonts, true)
  }

  function LocalizeMapboxTilesURL(env: Env, url: string): Option<string> {
    VendorPath(env, url, MapboxScheme, false).Or(IntegrationPath(env, url, "tiles/", MapboxScheme, false))
  }

  function LocalizeMapboxTilesetURL(env: Env, url: string): Option<string> {
    IntegrationPath(env, url, "tilesets/", MapboxScheme, false)
  }

  /**
   * Resolution of a style given by path (the `setStyle` operation): the
   * `local://` rules, else the reference unchanged, without `file://`.
   */
  function LocalizeURL(env: Env, url: string): (r: string)
    ensures r == url || '?' !in r
    ensures Probe(env, ReplaceAll(url, LocalScheme, VendorDir(env)), false)
      ==> r == RemoveURLArguments(ReplaceAll(url, LocalScheme, VendorDir(env)))
    ensures !Probe(env, ReplaceAll(url, LocalScheme, VendorDir(env)), false)
      && Probe(env, ReplaceAll(url, LocalScheme, IntegrationDir(env)), false)
      ==> r == RemoveURLArguments(ReplaceAll(url, LocalScheme, IntegrationDir(env)))
    ensures (!Probe(env, ReplaceAll(url, LocalScheme, VendorDir(env)), false)
             && !Probe(env, ReplaceAll(url, LocalScheme, IntegrationDir(env)), false)) ==> r == url
  {
    assert IntegrationDir(env) + "" == IntegrationDir(env);
    var vendor := VendorPath(env, url, LocalScheme, false);
    if vendor.Some? then vendor.value
    else IntegrationPath(env, url, "", LocalScheme, false).GetOr(url)
  }

  /** Which field of a style a reference comes from; each has its own chain of rules. */
  datatype UrlKind =
    | TilesetUrl    // a source's `url` and `urls` entries
    | TileTemplate  // a source's `tiles` entries
    | DataUrl       // a source's string `data`
    | GlyphsUrl     // the style's `glyphs`
    | SpriteUrl     // the style's `sprite`

  /** The first rule of the field's chain that yields a rewrite. */
  function Resolve(env: Env, kind: UrlKind, url: string): (r: Option<string>)
    ensures r.Some? ==> '?' !in r.value
  {
    match kind
    case TilesetUrl => LocalizeMapboxTilesetURL(env, url).Or(LocalizeLocalURL(env, url, false))
    case TileTemplate =>
      LocalizeMapboxTilesURL(env, url).Or(LocalizeLocalURL(env, url, false)).Or(LocalizeHttpURL(env, url))
    case DataUrl => LocalizeLocalURL(env, url, false)
    case GlyphsUrl => LocalizeMapboxFontsURL(env, url).Or(LocalizeLocalURL(env, url, true))
    case SpriteUrl => LocalizeMapboxSpriteURL(env, url).Or(LocalizeLocalURL(env, url, false))
  }

  /**
   * The value written back into the style: `file://` followed by the first
   * successful rewrite, or by the original reference when none succeeds.
   */
  function Localized(env: Env, kind: UrlKind, url: string): (r: string)
    ensures IsPrefix(FileScheme, r)
    ensures StripFileScheme(r) == Resolve(env, kind, url).GetOr(url)
  {
    FileSchemeRoundTrip(Resolve(env, kind, url).GetOr(url));
    PrependFileScheme(Resolve(env, kind, url).GetOr(url))
  }

  /**
   * A reference made of the pattern followed by a rest that does not repeat
   * it is rewritten to `base` + rest, kept iff the probe accepts that path.
   */
  lemma SchemeRewrite(env: Env, pat: string, rest: string, base: string, glyphs: bool)
    requires |pat| > 0 && !Occurs(pat, rest)
    ensures Rewrite(env, pat + rest, pat, base, glyphs)
         == if Probe(env, base + rest, glyphs) then Some(RemoveURLArguments(base + rest)) else None
  {
    ReplaceLeadingOccurrence(pat, rest, base);
  }

  /** `local://` references: the vendor directory first, then the suite's root. */
  lemma LocalPrefersVendor(env: Env, rest: string, glyphs: bool)
    requires !Occurs(LocalScheme, rest)
    ensures LocalizeLocalURL(env, LocalScheme + rest, glyphs)
         == if Probe(env, VendorDir(env) + rest, glyphs) then Some(RemoveURLArguments(VendorDir(env) + rest))
            else if Probe(env, IntegrationDir(env) + rest, glyphs) then Some(RemoveURLArguments(IntegrationDir(env) + rest))
            else None
  {
    SchemeRewrite(env, LocalScheme, rest, VendorDir(env), glyphs);
    SchemeRewrite(env, LocalScheme, rest, IntegrationDir(env) + "", glyphs);
    assert IntegrationDir(env) + "" == IntegrationDir(env);
  }

  /** `http://localhost:2900` references: the vendor directory first, then the suite's root. */
  lemma HttpPrefersVendor(env: Env, rest: string)
    requires !Occurs(LocalhostOrigin, rest)
    ensures LocalizeHttpURL(env, LocalhostOrigin + rest)
         == if Probe(env, VendorDir(env) + rest, false) then Some(RemoveURLArguments(VendorDir(env) + rest))
            else if Probe(env, IntegrationDir(env) + rest, false) then Some(RemoveURLArguments(IntegrationDir(env) + rest))
            else None
  {
    SchemeRewrite(env, LocalhostOrigin, rest, VendorDir(env), false);
    SchemeRewrite(env, LocalhostOrigin, rest, IntegrationDir(env) + "", false);
    assert IntegrationDir(env) + "" == IntegrationDir(env);
  }

  /** `mapbox://` tile templates: the vendor directory first, then the suite's `tiles/`. */
  lemma MapboxTilesPreferVendor(env: Env, rest: string)
    requires !Occurs(MapboxScheme, rest)
    ensures LocalizeMapboxTilesURL(env, MapboxScheme + rest)
         == if Probe(env, VendorDir(env) + rest, false) then Some(RemoveURLArguments(VendorDir(env) + rest))
            else if Probe(env, IntegrationDir(env) + "tiles/" + rest, false)
            then Some(RemoveURLArguments(IntegrationDir(env) + "tiles/" + rest))
            else None
  {
    SchemeRewrite(env, MapboxScheme, rest, VendorDir(env), false);
    SchemeRewrite(env, MapboxScheme, rest, IntegrationDir(env) + "tiles/", false);
  }

  /**
   * Sprite, font and tileset references under `mapbox://` have no vendor
   * stage: they go to the suite's root, `glyphs/` or `tilesets/` only.
   */
  lemma MapboxSuiteOnlyRules(env: Env, rest: string)
    requires !Occurs(MapboxScheme, rest) && !Occurs(MapboxFonts, rest)
    ensures LocalizeMapboxSpriteURL(env, MapboxScheme + rest)
         == if Probe(env, IntegrationDir(env) + rest, false) then Some(RemoveURLArguments(IntegrationDir(env) + rest)) else None
    ensures LocalizeMapboxTilesetURL(env, MapboxScheme + rest)
         == if Probe(env, IntegrationDir(env) + "tilesets/" + rest, false)
            then Some(RemoveURLArguments(IntegrationDir(env) + "tilesets/" + rest)) else None
    ensures LocalizeMapboxFontsURL(env, MapboxFonts + rest)
         == if Probe(env, IntegrationDir(env) + "glyphs/" + rest, true)
            then Some(RemoveURLArguments(IntegrationDir(env) + "glyphs/" + rest)) else None
  {
    SchemeRewrite(env, MapboxScheme, rest, IntegrationDir(env) + "", false);
    assert IntegrationDir(env) + "" == IntegrationDir(env);
    SchemeRewrite(env, MapboxScheme, rest, IntegrationDir(env) + "tilesets/", false);
    SchemeRewrite(env, MapboxFonts, rest, IntegrationDir(env) + "glyphs/", true);
  }

  /**
   * Localizing is not idempotent: a reference that no rule rewrites comes
   * back with `file://` in front, and localizing that again adds a second one.
   */
  lemma {:induction false} LocalizationNotIdempotent(env: Env, kind: UrlKind, url: string)
    requires Resolve(env, kind, url).None?
    requires Resolve(env, kind, Localized(env, kind, url)).None?
    ensures Localized(env, kind, Localized(env, kind, url)) == FileScheme + FileScheme + url
    ensures Localized(env, kind, Localized(env, kind, url)) != Localized(env, kind, url)
  {
    var once := Localized(env, kind, url);
    assert once == FileScheme + url;
    var twice := Localized(env, kind, once);
    assert twice == FileScheme + once;
    assert |twice| == |once| + 7;
  }
}
