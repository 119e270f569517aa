/**
 * The rendering engine as the harness drives it: a map instance holding a
 * style (layers, sources, images, light) and a camera, and the engine
 * services the harness calls but does not implement, passed in as functions.
 */
module Renderer {
  import opened Wrappers
  import opened Strings
  import opened Json
  import opened Host
  import opened Metadata

  datatype LatLng = LatLng(latitude: real, longitude: real)

  datatype Camera = Camera(center: LatLng, zoom: real, bearing: real, pitch: real)

  /** A partial camera: only the fields that are present are applied. */
  datatype CameraOptions = CameraOptions(
    center: Option<LatLng>,
    zoom: Option<real>,
    bearing: Option<real>,
    pitch: Option<real>)

  const NoCameraOptions := CameraOptions(None, None, None, None)

  const InitialCamera := Camera(LatLng(0.0, 0.0), 0.0, 0.0, 0.0)

  /** Moves the camera to the given options, keeping every field they leave out. */
  function JumpTo(c: Camera, o: CameraOptions): (r: Camera)
    ensures o.center.None? ==> r.center == c.center
    ensures o.zoom.None? ==> r.zoom == c.zoom
    ensures o.bearing.None? ==> r.bearing == c.bearing
    ensures o.pitch.None? ==> r.pitch == c.pitch
    ensures o.center.Some? ==> r.center == o.center.value
    ensures o.zoom.Some? ==> r.zoom == o.zoom.value
    ensures o.bearing.Some? ==> r.bearing == o.bearing.value
    ensures o.pitch.Some? ==> r.pitch == o.pitch.value
  {
    Camera(o.center.GetOr(c.center), o.zoom.GetOr(c.zoom), o.bearing.GetOr(c.bearing), o.pitch.GetOr(c.pitch))
  }

  datatype Layer = Layer(
    id: string,
    filter: Option<Value>,
    minZoom: real,
    maxZoom: real,
    paint: map<string, Value>,
    layout: map<string, Value>)

  datatype Source = Source(id: string, definition: Value)

  datatype Image = Image(name: string, raster: Raster, pixelRatio: real, sdf: bool)

  datatype StyleState = StyleState(
    layers: seq<Layer>,
    sources: map<string, Source>,
    images: map<string, Image>,
    light: Option<Value>,
    defaultCamera: CameraOptions)

  const EmptyStyle := StyleState([], map[], map[], None, NoCameraOptions)

  datatype Projection = Projection(axonometric: bool, xSkew: real, ySkew: real)

  /** One renderer: what it was created with, and what the harness sets on it. */
  datatype MapInstance = MapInstance(
    mode: MapMode,
    pixelRatio: real,
    crossSourceCollisions: bool,
    size: Size,
    projection: Projection,
    debug: set<DebugFlag>,
    style: StyleState,
    camera: Camera)

  /**
   * Engine services: loading a style document, the conversions that turn
   * JSON into style objects (`None` where the conversion reports an error),
   * whether a layer accepts a property value, rendering, and the pixel
   * comparison, which counts the pixels that differ.
   */
  datatype Engine = Engine(
    loadStyle: Value -> StyleState,
    convertFilter: Value -> Option<Value>,
    convertLight: Value -> Option<Value>,
    convertLayer: Value -> Option<Layer>,
    convertSource: (string, Value) -> Option<Source>,
    acceptsProperty: (string, Value) -> bool,
    render: MapInstance -> Raster,
    pixelmatch: (Raster, Raster) -> nat)

  // ---------------------------------------------------------------------
  // Style edits
  // ---------------------------------------------------------------------

  function LayerIds(layers: seq<Layer>): seq<string> {
    seq(|layers|, i requires 0 <= i < |layers| => layers[i].id)
  }

  /** Position of the layer a lookup by id finds, or -1. */
  function FindLayer(st: StyleState, id: string): (r: int)
    ensures -1 <= r < |st.layers|
    ensures r >= 0 ==> st.layers[r].id == id
    ensures r < 0 ==> forall j :: 0 <= j < |st.layers| ==> st.layers[j].id != id
  {
    var ids := LayerIds(st.layers);
    assert forall j :: 0 <= j < |st.layers| ==> ids[j] == st.layers[j].id;
    FirstIndex(ids, id)
  }

  /** A layer is added on top unless one with its id already exists. */
  function AddLayer(st: StyleState, l: Layer): StyleState {
    if FindLayer(st, l.id) >= 0 then st else st.(layers := st.layers + [l])
  }

  function RemoveLayer(st: StyleState, id: string): StyleState {
    var i := FindLayer(st, id);
    if i < 0 then st else st.(layers := st.layers[..i] + st.layers[i + 1..])
  }

  /** Replaces the layer at position `i`. */
  function ReplaceLayer(st: StyleState, i: nat, l: Layer): StyleState
    requires i < |st.layers|
  {
    st.(layers := st.layers[i := l])
  }

  /** A source is added unless one with its id already exists. */
  function AddSource(st: StyleState, id: string, s: Source): StyleState {
    if id in st.sources then st else st.(sources := st.sources[id := s])
  }

  function RemoveSource(st: StyleState, id: string): StyleState {
    st.(sources := st.sources - {id})
  }

  /** Adding an image under a name already in use replaces it. */
  function AddImage(st: StyleState, img: Image): StyleState {
    st.(images := st.images[img.name := img])
  }

  function RemoveImage(st: StyleState, name: string): StyleState {
    st.(images := st.images - {name})
  }

  /** Adding a layer with a new id and removing it by that id restores the style. */
  lemma AddLayerThenRemove(st: StyleState, l: Layer)
    requires FindLayer(st, l.id) < 0
    ensures RemoveLayer(AddLayer(st, l), l.id) == st
  {
    var st' := AddLayer(st, l);
    var i := FindLayer(st', l.id);
    assert st'.layers[|st.layers|].id == l.id;
    assert i == |st.layers|;
    assert st'.layers[..i] == st.layers;
  }

  /** After a layer is added, a lookup of its id finds it. */
  lemma AddLayerFinds(st: StyleState, l: Layer)
    requires FindLayer(st, l.id) < 0
    ensures var st' := AddLayer(st, l);
      FindLayer(st', l.id) == |st.layers| && st'.layers[|st.layers|] == l
  {
    var st' := AddLayer(st, l);
    assert st'.layers[|st.layers|].id == l.id;
  }

  /** After a layer is removed, no layer with that id remains when ids were unique. */
  lemma RemoveLayerRemoves(st: StyleState, id: string)
    requires forall i, j :: 0 <= i < j < |st.layers| ==> st.layers[i].id != st.layers[j].id
    ensures FindLayer(RemoveLayer(st, id), id) < 0
    ensures |RemoveLayer(st, id).layers| == |st.layers| - (if FindLayer(st, id) >= 0 then 1 else 0)
  {
    var i := FindLayer(st, id);
    if i >= 0 {
      var st' := RemoveLayer(st, id);
      forall j | 0 <= j < |st'.layers| ensures st'.layers[j].id != id {
        if j < i {
          assert st'.layers[j] == st.layers[j];
        } else {
          assert st'.layers[j] == st.layers[j + 1];
        }
      }
    }
  }

  /** Adding a source under a new id and removing it restores the style. */
  lemma AddSourceThenRemove(st: StyleState, id: string, s: Source)
    requires id !in st.sources
    ensures id in AddSource(st, id, s).sources && AddSource(st, id, s).sources[id] == s
    ensures RemoveSource(AddSource(st, id, s), id) == st
  {
    assert st.sources[id := s] - {id} == st.sources;
  }

  /** Adding an image under a new name and removing it restores the style. */
  lemma AddImageThenRemove(st: StyleState, img: Image)
    requires img.name !in st.images
    ensures RemoveImage(AddImage(st, img), img.name) == st
  {
    assert st.images[img.name := img] - {img.name} == st.images;
  }
}
