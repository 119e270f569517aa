/**
 * The operations a scenario's test block lists (`metadata.test.operations`):
 * decoding one JSON entry, applying it to a map instance, and replaying the
 * list front to back, stopping early only when an image file is missing.
 */
module Operations {
  import opened Wrappers
  import opened Strings
  import opened Json
  import opened Host
  import opened Resolver
  import Parser
  import Renderer

  /** How long `sleep` waits when no duration is given. */
  const DefaultSleepMillis: nat := 5000

  datatype Op =
    | Wait
    | Sleep(millis: nat)
    | AddImage(name: string, path: string, pixelRatio: real, sdf: bool)  // `addImage` and `updateImage`
    | RemoveImage(name: string)
    | SetStyleUrl(url: string)
    | SetStyleInline(document: Value)
    | SetCenter(center: Renderer.LatLng)
    | SetZoom(zoom: real)
    | SetBearing(bearing: real)
    | SetFilter(layer: string, filter: Value)
    | SetLayerZoomRange(layer: string, minZoom: real, maxZoom: real)
    | SetLight(light: Value)
    | AddLayer(definition: Value)
    | RemoveLayer(id: string)
    | AddSource(id: string, definition: Value)
    | RemoveSource(id: string)
    | SetPaintProperty(layer: string, property: string, value: Value)
    | SetLayoutProperty(layer: string, property: string, value: Value)
    | Unsupported(command: string)
    | Malformed  // an entry whose shape the runner asserts against

  /** The command names the runner understands. */
  const Commands: set<string> := {
    "wait", "sleep", "addImage", "updateImage", "removeImage", "setStyle", "setCenter",
    "setZoom", "setBearing", "setFilter", "setLayerZoomRange", "setLight", "addLayer",
    "removeLayer", "addSource", "removeSource", "setPaintProperty", "setLayoutProperty"}

  predicate IsNaturalNumber(v: Value) {
    v.Number? && v.n >= 0.0 && Parser.IsIntegral(v.n)
  }

  /** Decodes one operation entry: an array whose first item names the command. */
  function Decode(v: Value): (r: Op)
    ensures !v.Array? || |v.items| == 0 || !v.items[0].Str? ==> r == Malformed
    ensures r.Unsupported? <==> v.Array? && |v.items| > 0 && v.items[0].Str? && v.items[0].s !in Commands
    ensures r.Unsupported? ==> r.command == v.items[0].s
    ensures r.AddImage? ==> '"' !in r.name && '"' !in r.path
  {
    if !v.Array? || |v.items| == 0 || !v.items[0].Str? then Malformed
    else
      var a := v.items;
      var command := a[0].s;
      if command == "wait" then Wait
      else if command == "sleep" then
        if |a| < 2 then Sleep(DefaultSleepMillis)
        else if IsNaturalNumber(a[1]) then Sleep(a[1].n.Floor)
        else Malformed
      else if command == "addImage" || command == "updateImage" then
        if |a| < 3 || !a[1].Str? || !a[2].Str? || (|a| == 4 && !a[3].Object?) then Malformed
        else
          var options := if |a| == 4 then a[3] else Object([]);
          AddImage(RemoveAll(a[1].s, '"'), RemoveAll(a[2].s, '"'),
            Parser.NumberOr(options, "pixelRatio", 1.0), Parser.BoolOr(options, "sdf", false))
      else if command == "removeImage" then
        if |a| < 2 || !a[1].Str? then Malformed else RemoveImage(a[1].s)
      else if command == "setStyle" then
        if |a| < 2 then Malformed
        else if a[1].Str? then SetStyleUrl(a[1].s)
        else SetStyleInline(a[1])
      else if command == "setCenter" then
        if |a| < 2 || !a[1].Array? || |a[1].items| != 2 || !a[1].items[0].Number? || !a[1].items[1].Number?
        then Malformed
        else SetCenter(Renderer.LatLng(a[1].items[1].n, a[1].items[0].n))
      else if command == "setZoom" then
        if |a| < 2 || !a[1].Number? then Malformed else SetZoom(a[1].n)
      else if command == "setBearing" then
        if |a| < 2 || !a[1].Number? then Malformed else SetBearing(a[1].n)
      else if command == "setFilter" then
        if |a| < 3 || !a[1].Str? then Malformed else SetFilter(a[1].s, a[2])
      else if command == "setLayerZoomRange" then
        if |a| < 4 || !a[1].Str? || !a[2].Number? || !a[3].Number? then Malformed
        else SetLayerZoomRange(a[1].s, a[2].n, a[3].n)
      else if command == "setLight" then
        if |a| < 2 || !a[1].Object? then Malformed else SetLight(a[1])
      else if command == "addLayer" then
        if |a| < 2 || !a[1].Object? then Malformed else AddLayer(a[1])
      else if command == "removeLayer" then
        if |a| < 2 || !a[1].Str? then Malformed else RemoveLayer(a[1].s)
      else if command == "addSource" then
        if |a| < 3 || !a[1].Str? || !a[2].Object? then Malformed else AddSource(a[1].s, a[2])
      else if command == "removeSource" then
        if |a| < 2 || !a[1].Str? then Malformed else RemoveSource(a[1].s)
      else if command == "setPaintProperty" then
        if |a| < 4 || !a[1].Str? || !a[2].Str? then Malformed else SetPaintProperty(a[1].s, a[2].s, a[3])
      else if command == "setLayoutProperty" then
        if |a| < 4 || !a[1].Str? || !a[2].Str? then Malformed else SetLayoutProperty(a[1].s, a[2].s, a[3])
      else Unsupported(command)
  }

  /** The entry a scenario author writes for an operation. */
  function Encode(op: Op): Value {
    match op
    case Wait => Array([Str("wait")])
    case Sleep(ms) => Array([Str("sleep"), Number(ms as real)])
    case AddImage(name, path, pr, sdf) =>
      Array([Str("addImage"), Str(name), Str(path),
        Object([Member("pixelRatio", Number(pr)), Member("sdf", Bool(sdf))])])
    case RemoveImage(name) => Array([Str("removeImage"), Str(name)])
    case SetStyleUrl(url) => Array([Str("setStyle"), Str(url)])
    case SetStyleInline(doc) => Array([Str("setStyle"), doc])
    case SetCenter(c) => Array([Str("setCenter"), Array([Number(c.longitude), Number(c.latitude)])])
    case SetZoom(z) => Array([Str("setZoom"), Number(z)])
    case SetBearing(b) => Array([Str("setBearing"), Number(b)])
    case SetFilter(id, f) => Array([Str("setFilter"), Str(id), f])
    case SetLayerZoomRange(id, lo, hi) => Array([Str("setLayerZoomRange"), Str(id), Number(lo), Number(hi)])
    case SetLight(l) => Array([Str("setLight"), l])
    case AddLayer(l) => Array([Str("addLayer"), l])
    case RemoveLayer(id) => Array([Str("removeLayer"), Str(id)])
    case AddSource(id, s) => Array([Str("addSource"), Str(id), s])
    case RemoveSource(id) => Array([Str("removeSource"), Str(id)])
    case SetPaintProperty(id, p, x) => Array([Str("setPaintProperty"), Str(id), Str(p), x])
    case SetLayoutProperty(id, p, x) => Array([Str("setLayoutProperty"), Str(id), Str(p), x])
    case Unsupported(command) => Array([Str(command)])
    case Malformed => Null
  }

  /** The operations an entry can express: what `Decode` can return, `Malformed` aside. */
  predicate Expressible(op: Op) {
    match op
    case AddImage(name, path, _, _) => '"' !in name && '"' !in path
    case SetStyleInline(doc) => !doc.Str?
    case SetLight(l) => l.Object?
    case AddLayer(l) => l.Object?
    case AddSource(_, s) => s.Object?
    case Unsupported(command) => command !in Commands
    case Malformed => false
    case _ => true
  }

  /** Decoding the entry written for an operation gives that operation back. */
  lemma DecodeEncode(op: Op)
    requires Expressible(op)
    ensures Decode(Encode(op)) == op
  {
    match op
    case Sleep(ms) =>
      assert (ms as real).Floor == ms;
    case AddImage(name, path, pr, sdf) =>
      DecodeEncodeImage(name, path, pr, sdf);
    case Wait =>
    case RemoveImage(_) =>
    case Unsupported(_) =>
    case SetStyleUrl(_) => DecodeEncodeView(op);
    case SetStyleInline(_) => DecodeEncodeView(op);
    case SetCenter(_) => DecodeEncodeView(op);
    case SetZoom(_) => DecodeEncodeView(op);
    case SetBearing(_) => DecodeEncodeView(op);
    case SetFilter(_, _) => DecodeEncodeLayerEdits(op);
    case SetLayerZoomRange(_, _, _) => DecodeEncodeLayerEdits(op);
    case SetPaintProperty(_, _, _) => DecodeEncodeLayerEdits(op);
    case SetLayoutProperty(_, _, _) => DecodeEncodeLayerEdits(op);
    case _ => DecodeEncodeStyleEdits(op);
  }

  lemma DecodeEncodeImage(name: string, path: string, pr: real, sdf: bool)
    requires '"' !in name && '"' !in path
    ensures Decode(Encode(AddImage(name, path, pr, sdf))) == AddImage(name, path, pr, sdf)
  {
    var options := Object([Member("pixelRatio", Number(pr)), Member("sdf", Bool(sdf))]);
    assert Names(options.members) == ["pixelRatio", "sdf"];
    assert "pixelRatio"[0] != "sdf"[0];
    assert FirstIndex(["sdf"], "sdf") == 0;
    assert Names(options.members)[1..] == ["sdf"];
    assert Parser.NumberOr(options, "pixelRatio", 1.0) == pr;
    assert Parser.BoolOr(options, "sdf", false) == sdf;
  }

  lemma DecodeEncodeView(op: Op)
    requires Expressible(op)
    requires op.SetStyleUrl? || op.SetStyleInline? || op.SetCenter? || op.SetZoom? || op.SetBearing?
    ensures Decode(Encode(op)) == op
  {
  }

  lemma DecodeEncodeLayerEdits(op: Op)
    requires op.SetFilter? || op.SetLayerZoomRange? || op.SetPaintProperty? || op.SetLayoutProperty?
    ensures Decode(Encode(op)) == op
  {
  }

  lemma DecodeEncodeStyleEdits(op: Op)
    requires Expressible(op)
    requires op.SetLight? || op.AddLayer? || op.RemoveLayer? || op.AddSource? || op.RemoveSource?
    ensures Decode(Encode(op)) == op
  {
  }

  /**
   * An image entry names its image and file by the given strings with every
   * '"' erased and nothing else changed; without an options object the
   * pixel ratio is 1 and `sdf` is off.
   */
  lemma DecodeImageEntry(v: Value)
    requires v.Array? && |v.items| >= 3
    requires v.items[0] == Str("addImage") || v.items[0] == Str("updateImage")
    requires v.items[1].Str? && v.items[2].Str? && (|v.items| == 4 ==> v.items[3].Object?)
    ensures Decode(v).AddImage?
    ensures Decode(v).name == RemoveAll(v.items[1].s, '"')
    ensures Decode(v).path == RemoveAll(v.items[2].s, '"')
    ensures |v.items| != 4 ==> Decode(v).pixelRatio == 1.0 && !Decode(v).sdf
  {
  }

  // ---------------------------------------------------------------------
  // Applying one operation
  // ---------------------------------------------------------------------

  datatype LogEntry =
    | ConversionFailed(what: string)
    | LayerNotFound(id: string)
    | ImageNotFound(path: string)
    | UnsupportedOperation(command: string)
    | MalformedOperation

  /** Either the next map state and what was logged, or the replay stops here. */
  datatype Step =
    | Continue(next: Renderer.MapInstance, log: seq<LogEntry>)
    | Halt(log: seq<LogEntry>)

  /** The file an image operation reads. */
  function ImageFile(env: Env, path: string): string {
    IntegrationDir(env) + path
  }

  function Jump(m: Renderer.MapInstance, o: Renderer.CameraOptions): Renderer.MapInstance {
    m.(camera := Renderer.JumpTo(m.camera, o))
  }

  function Restyle(m: Renderer.MapInstance, st: Renderer.StyleState): Renderer.MapInstance {
    m.(style := st)
  }

  /** Applies `f` to the layer a lookup of `id` finds, or logs that there is none. */
  function EditLayer(m: Renderer.MapInstance, id: string, f: Renderer.Layer -> Renderer.Layer): Step {
    var i := Renderer.FindLayer(m.style, id);
    if i < 0 then Continue(m, [LayerNotFound(id)])
    else Continue(Restyle(m, Renderer.ReplaceLayer(m.style, i, f(m.style.layers[i]))), [])
  }

  /** A property is set only when the layer accepts the value; a rejected value changes nothing. */
  function SetProperty(props: map<string, Value>, accepted: bool, name: string, x: Value): map<string, Value> {
    if accepted then props[name := x] else props
  }

  function Apply(env: Env, e: Renderer.Engine, m: Renderer.MapInstance, op: Op): Step {
    match op
    case Wait => Continue(m, [])
    case Sleep(_) => Continue(m, [])
    case AddImage(name, path, pr, sdf) =>
      var file := ImageFile(env, path);
      if file !in env.images then Halt([ImageNotFound(file)])
      else Continue(Restyle(m, Renderer.AddImage(m.style, Renderer.Image(name, env.images[file], pr, sdf))), [])
    case RemoveImage(name) => Continue(Restyle(m, Renderer.RemoveImage(m.style, name)), [])
    case SetStyleUrl(url) =>
      (match ReadJson(env, LocalizeURL(env, url))
       case None => Continue(m, [])
       case Some(doc) => Continue(Restyle(m, e.loadStyle(Parser.LocalizeStyle(env, doc))), []))
    case SetStyleInline(doc) => Continue(Restyle(m, e.loadStyle(Parser.LocalizeStyle(env, doc))), [])
    case SetCenter(c) => Continue(Jump(m, Renderer.NoCameraOptions.(center := Some(c))), [])
    case SetZoom(z) => Continue(Jump(m, Renderer.NoCameraOptions.(zoom := Some(z))), [])
    case SetBearing(b) => Continue(Jump(m, Renderer.NoCameraOptions.(bearing := Some(b))), [])
    case SetFilter(id, f) =>
      (match e.convertFilter(f)
       case None => Continue(m, [ConversionFailed("filter")])
       case Some(converted) => EditLayer(m, id, (l: Renderer.Layer) => l.(filter := Some(converted))))
    case SetLayerZoomRange(id, lo, hi) => EditLayer(m, id, (l: Renderer.Layer) => l.(minZoom := lo, maxZoom := hi))
    case SetLight(v) =>
      (match e.convertLight(v)
       case None => Continue(m, [ConversionFailed("light")])
       case Some(light) => Continue(Restyle(m, m.style.(light := Some(light))), []))
    case AddLayer(v) =>
      (match e.convertLayer(v)
       case None => Continue(m, [ConversionFailed("layer")])
       case Some(layer) => Continue(Restyle(m, Renderer.AddLayer(m.style, layer)), []))
    case RemoveLayer(id) => Continue(Restyle(m, Renderer.RemoveLayer(m.style, id)), [])
    case AddSource(id, v) =>
      (match e.convertSource(id, Parser.LocalizeSource(env, v))
       case None => Continue(m, [ConversionFailed("source")])
       case Some(source) => Continue(Restyle(m, Renderer.AddSource(m.style, id, source)), []))
    case RemoveSource(id) => Continue(Restyle(m, Renderer.RemoveSource(m.style, id)), [])
    case SetPaintProperty(id, p, x) =>
      EditLayer(m, id, (l: Renderer.Layer) => l.(paint := SetProperty(l.paint, e.acceptsProperty(p, x), p, x)))
    case SetLayoutProperty(id, p, x) =>
      EditLayer(m, id, (l: Renderer.Layer) => l.(layout := SetProperty(l.layout, e.acceptsProperty(p, x), p, x)))
    case Unsupported(command) => Continue(m, [UnsupportedOperation(command)])
    case Malformed => Continue(m, [MalformedOperation])
  }

  /** The replay stops at an operation exactly when it adds an image whose file is missing. */
  lemma HaltsOnlyOnMissingImage(env: Env, e: Renderer.Engine, m: Renderer.MapInstance, op: Op)
    ensures Apply(env, e, m, op).Halt? <==> op.AddImage? && ImageFile(env, op.path) !in env.images
  {
  }

  /** Camera operations move only the camera, and only the field they name. */
  lemma CameraOperationsAreLocal(env: Env, e: Renderer.Engine, m: Renderer.MapInstance, op: Op)
    requires op.SetCenter? || op.SetZoom? || op.SetBearing?
    ensures Apply(env, e, m, op).Continue?
    ensures var m' := Apply(env, e, m, op).next;
      && m'.style == m.style && m'.size == m.size && m'.debug == m.debug && m'.projection == m.projection
      && m'.camera.pitch == m.camera.pitch
      && m'.camera.center == (if op.SetCenter? then op.center else m.camera.center)
      && m'.camera.zoom == (if op.SetZoom? then op.zoom else m.camera.zoom)
      && m'.camera.bearing == (if op.SetBearing? then op.bearing else m.camera.bearing)
  {
  }

  /**
   * An operation on a named layer changes at most the layer a lookup of
   * that name finds: the layer order, every other layer, the rest of the
   * style and every other field of the map stay as they were, and a missing
   * layer is logged.
   */
  lemma LayerOperationsAreLocal(env: Env, e: Renderer.Engine, m: Renderer.MapInstance, op: Op)
    requires op.SetFilter? || op.SetLayerZoomRange? || op.SetPaintProperty? || op.SetLayoutProperty?
    ensures Apply(env, e, m, op).Continue?
    ensures var m' := Apply(env, e, m, op).next;
      var i := Renderer.FindLayer(m.style, op.layer);
      && m' == m.(style := m.style.(layers := m'.style.layers))
      && |m'.style.layers| == |m.style.layers|
      && (forall j :: 0 <= j < |m.style.layers| && j != i ==> m'.style.layers[j] == m.style.layers[j])
      && (i >= 0 ==> m'.style.layers[i].id == op.layer)
    ensures var i := Renderer.FindLayer(m.style, op.layer);
      i < 0 && !(op.SetFilter? && e.convertFilter(op.filter).None?) ==>
        Apply(env, e, m, op) == Continue(m, [LayerNotFound(op.layer)])
  {
  }

  /** An unsupported command is logged and leaves the map as it was. */
  lemma UnsupportedIsSkipped(env: Env, e: Renderer.Engine, m: Renderer.MapInstance, v: Value)
    requires v.Array? && |v.items| > 0 && v.items[0].Str? && v.items[0].s !in Commands
    ensures Apply(env, e, m, Decode(v)) == Continue(m, [UnsupportedOperation(v.items[0].s)])
  {
  }

  // ---------------------------------------------------------------------
  // Replaying the list
  // ---------------------------------------------------------------------

  /** The map after the replay, the entries left unapplied, and what was logged. */
  datatype Replayed = Replayed(instance: Renderer.MapInstance, remaining: seq<Value>, log: seq<LogEntry>)

  /** Applies the entries front to back, stopping at the first one that halts. */
  function Replay(env: Env, e: Renderer.Engine, m: Renderer.MapInstance, ops: seq<Value>): Replayed
    decreases |ops|
  {
    if ops == [] then Replayed(m, [], [])
    else
      match Apply(env, e, m, Decode(ops[0]))
      case Halt(log) => Replayed(m, ops, log)
      case Continue(m', log) =>
        var r := Replay(env, e, m', ops[1..]);
        Replayed(r.instance, r.remaining, log + r.log)
  }

  /**
   * The entries left over are a suffix of the list, and when there are any
   * the first of them is an image operation whose file is missing: it stays
   * in the list, with everything after it.
   */
  lemma {:induction false} ReplayRemainder(env: Env, e: Renderer.Engine, m: Renderer.MapInstance, ops: seq<Value>)
    ensures var r := Replay(env, e, m, ops);
      && |r.remaining| <= |ops| && r.remaining == ops[|ops| - |r.remaining|..]
      && (r.remaining != [] ==>
            var op := Decode(r.remaining[0]);
            op.AddImage? && ImageFile(env, op.path) !in env.images)
    decreases |ops|
  {
    if ops != [] {
      ReplayStep(env, e, m, ops);
      var s := Apply(env, e, m, Decode(ops[0]));
      if s.Halt? {
        HaltsOnlyOnMissingImage(env, e, m, Decode(ops[0]));
        assert Replay(env, e, m, ops).remaining == ops;
      } else {
        ReplayRemainder(env, e, s.next, ops[1..]);
        var r := Replay(env, e, s.next, ops[1..]);
        assert Replay(env, e, m, ops).remaining == r.remaining;
        assert ops[1..][|ops[1..]| - |r.remaining|..] == ops[|ops| - |r.remaining|..];
      }
    }
  }

  /** One step of a replay: the first entry halts it or leads to a replay of the rest. */
  lemma ReplayStep(env: Env, e: Renderer.Engine, m: Renderer.MapInstance, ops: seq<Value>)
    requires ops != []
    ensures var s := Apply(env, e, m, Decode(ops[0]));
      Replay(env, e, m, ops) ==
        if s.Halt? then Replayed(m, ops, s.log)
        else
          var r := Replay(env, e, s.next, ops[1..]);
          Replayed(r.instance, r.remaining, s.log + r.log)
  {
  }

  /**
   * Replaying a list is replaying its first part and then, when that ran to
   * the end, the second part from the map the first part left.
   */
  lemma {:induction false} ReplayAppend(env: Env, e: Renderer.Engine, m: Renderer.MapInstance, xs: seq<Value>, ys: seq<Value>)
    ensures var r := Replay(env, e, m, xs);
      Replay(env, e, m, xs + ys) ==
        if r.remaining == [] then
          var s := Replay(env, e, r.instance, ys);
          Replayed(s.instance, s.remaining, r.log + s.log)
        else Replayed(r.instance, r.remaining + ys, r.log)
    decreases |xs|
  {
    if xs == [] {
      assert xs + ys == ys;
    } else {
      assert (xs + ys)[0] == xs[0];
      assert (xs + ys)[1..] == xs[1..] + ys;
      match Apply(env, e, m, Decode(xs[0]))
      case Halt(_) =>
      case Continue(m', log) =>
        ReplayAppend(env, e, m', xs[1..], ys);
        var s := Replay(env, e, Replay(env, e, m', xs[1..]).instance, ys);
        assert log + (Replay(env, e, m', xs[1..]).log + s.log) == (log + Replay(env, e, m', xs[1..]).log) + s.log;
    }
  }

  /** A list with no image operation is always replayed to the end. */
  lemma ReplayWithoutImagesCompletes(env: Env, e: Renderer.Engine, m: Renderer.MapInstance, ops: seq<Value>)
    requires forall i :: 0 <= i < |ops| ==> !Decode(ops[i]).AddImage?
    ensures Replay(env, e, m, ops).remaining == []
  {
    ReplayRemainder(env, e, m, ops);
  }

  /** Zooming to 5 and centring on longitude 10, latitude 20: both land, nothing is left or logged. */
  lemma ZoomThenCenter(env: Env, e: Renderer.Engine, m: Renderer.MapInstance)
    ensures var ops := [Array([Str("setZoom"), Number(5.0)]),
                        Array([Str("setCenter"), Array([Number(10.0), Number(20.0)])])];
      var r := Replay(env, e, m, ops);
      && r.instance.camera == m.camera.(zoom := 5.0, center := Renderer.LatLng(20.0, 10.0))
      && r.instance.style == m.style
      && r.remaining == [] && r.log == []
  {
    var zoom := Array([Str("setZoom"), Number(5.0)]);
    var center := Array([Str("setCenter"), Array([Number(10.0), Number(20.0)])]);
    assert Decode(zoom) == SetZoom(5.0);
    assert Decode(center) == SetCenter(Renderer.LatLng(20.0, 10.0));
    var m1 := Apply(env, e, m, SetZoom(5.0)).next;
    assert [zoom, center][1..] == [center];
    assert [center][1..] == [];
  }
}
