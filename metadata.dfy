/** The per-scenario test record and the values it starts from. */
module Metadata {
  import opened Json

  datatype MapMode = Static | Tile

  /** One bit of the renderer's debug bitset; the empty set is "no debug". */
  datatype DebugFlag = TileBorders | Collision | Overdraw

  /** Output size in pixels (unsigned 32-bit in the renderer). */
  datatype Size = Size(width: nat, height: nat)

  datatype TestMetadata = TestMetadata(
    path: string,
    document: Value,
    size: Size,
    pixelRatio: real,
    allowed: real,
    description: string,
    mapMode: MapMode,
    debug: set<DebugFlag>,
    crossSourceCollisions: bool,
    axonometric: bool,
    xSkew: real,
    ySkew: real,
    fadeDuration: nat,
    addFakeCanvas: bool)

  /** The member initializers of the record. */
  const Defaults := TestMetadata(
    path := "",
    document := Null,
    size := Size(512, 512),
    pixelRatio := 1.0,
    allowed := 0.00015,
    description := "",
    mapMode := Static,
    debug := {},
    crossSourceCollisions := true,
    axonometric := false,
    xSkew := 0.0,
    ySkew := 1.0,
    fadeDuration := 0,
    addFakeCanvas := false)
}
