/** `validate(data)` of the scene-project validator: fail-fast checks of the
    root, the project settings, the layer tree, the hotspot shapes and their
    actions over the raw scene JSON. The validator returns nothing; an
    `Outcome` stands for returning or raising. Each loop is a method proved
    equal to a specification function; the lemmas in SceneValidatorProps say
    what those functions accept. */
module SceneValidator {
  import opened Strings
  import opened JsonValue

  // ---------------------------------------------------------------------------
  // The checking helpers

  /** `f"{v}"`, the value as the messages print it: a string as itself,
      integers, booleans and None as Python writes them. Python's `str` of
      a float, a list or a dict is its own and is given as `show`. */
  function Display(show: Json -> string, v: Json): (r: string)
    ensures v.JStr? ==> r == v.s
    ensures !(v.JStr? || v.JInt? || v.JBool? || v.JNull?) ==> r == show(v)
  {
    match v
    case JStr(s) => s
    case JInt(i) => IntToString(i)
    case JBool(b) => if b then "True" else "False"
    case JNull => "None"
    case _ => show(v)
  }

  /** The repr of a list of strings: `['a', 'b']`. */
  function ListRepr(items: seq<string>): string
  {
    "[" + Join(Quoted(items), ", ") + "]"
  }

  function Quoted(items: seq<string>): (r: seq<string>)
    ensures |r| == |items| && forall k :: 0 <= k < |items| ==> r[k] == "'" + items[k] + "'"
  {
    if items == [] then [] else ["'" + items[0] + "'"] + Quoted(items[1..])
  }

  /** `_expect_in(val, allowed, ctx)`: membership by equality. */
  function ExpectIn(show: Json -> string, v: Json, allowed: seq<string>, ctx: string): (r: Outcome)
    ensures r.Pass? <==> v.JStr? && v.s in allowed
    ensures r.Fail? ==> r.failure == Invalid(ctx + ": expected one of " + ListRepr(allowed) + ", got " + Display(show, v))
  {
    if v.JStr? && v.s in allowed then Pass
    else Fail(Invalid(ctx + ": expected one of " + ListRepr(allowed) + ", got " + Display(show, v)))
  }

  predicate IsHexDigit(c: char)
  {
    c in "0123456789abcdefABCDEF"
  }

  /** `_is_color(s)`: a string, "#" and then 3, 4, 6 or 8 hex digits. */
  predicate IsColor(v: Json)
  {
    && v.JStr? && StartsWith(v.s, "#")
    && |v.s[1..]| in {3, 4, 6, 8}
    && forall k :: 0 <= k < |v.s[1..]| ==> IsHexDigit(v.s[1..][k])
  }

  /** `_expect_color(s, ctx)` */
  function ExpectColor(show: Json -> string, v: Json, ctx: string): (r: Outcome)
    ensures r.Pass? <==> IsColor(v)
    ensures r.Fail? ==> r.failure == Invalid(ctx + ": expected hex color like #RRGGBB or #RRGGBBAA, got " + Display(show, v))
  {
    if IsColor(v) then Pass
    else Fail(Invalid(ctx + ": expected hex color like #RRGGBB or #RRGGBBAA, got " + Display(show, v)))
  }

  /** `_expect_number_range(val, lo, hi, ctx)`: a number, and then
      `lo <= float(val) <= hi`. The source only passes the bounds 0.0 and
      1.0, whole numbers, which the message prints with ".0". */
  function ExpectNumberRange(show: Json -> string, v: Json, lo: int, hi: int, ctx: string): (r: Outcome)
    ensures r.Pass? <==> IsInstance(v, NumberType) && lo as real <= NumValue(v) <= hi as real
    ensures r.Fail? ==> r.failure.Invalid?
    ensures !IsInstance(v, NumberType) ==> r == Fail(Invalid(TypeMessage(v, NumberType, ctx)))
    ensures IsInstance(v, NumberType) && r.Fail? ==>
              r.failure == Invalid(ctx + ": expected in range [" + IntToString(lo) + ".0.." + IntToString(hi) + ".0], got "
                                   + Display(show, v))
  {
    var o := ExpectType(v, NumberType, ctx);
    if o.Fail? then o
    else if !(lo as real <= NumValue(v) <= hi as real) then
      Fail(Invalid(ctx + ": expected in range [" + IntToString(lo) + ".0.." + IntToString(hi) + ".0], got " + Display(show, v)))
    else Pass
  }

  /** Run b only when a passed. */
  function AndThen(a: Outcome, b: Outcome): (r: Outcome)
    ensures r.Pass? <==> a.Pass? && b.Pass?
  {
    if a.Fail? then a else b
  }

  /** `_expect_type(v[key], typ, ctx)`: the subscript may raise first. */
  function ExpectTypeAt(v: Json, key: string, t: PyType, ctx: string): (r: Outcome)
    ensures r.Pass? <==> v.JDict? && key in v.fields && IsInstance(v.fields[key], t)
  {
    match Get(v, key)
    case Err(f) => Fail(f)
    case Ok(x) => ExpectType(x, t, ctx)
  }

  // ---------------------------------------------------------------------------
  // The project settings

  /** `_validate_project(project)` */
  function ValidateProject(show: Json -> string, project: Json): Outcome
  {
    var o := ExpectKeys(project, ["reference_resolution", "coords_mode"], "project");
    if o.Fail? then o
    else
      match Get(project, "reference_resolution")
      case Err(f) => Fail(f)
      case Ok(rr) =>
        var ctx := "project.reference_resolution";
        var o1 := ExpectType(rr, DictType, ctx);
        if o1.Fail? then o1
        else
          var o2 := ExpectKeys(rr, ["width", "height"], ctx);
          if o2.Fail? then o2
          else
            var o3 := AndThen(ExpectTypeAt(rr, "width", NumberType, ctx + ".width"),
                              ExpectTypeAt(rr, "height", NumberType, ctx + ".height"));
            if o3.Fail? then o3
            else
              match Get(project, "coords_mode")
              case Err(f) => Fail(f)
              case Ok(mode) => ExpectIn(show, mode, ["relative", "absolute"], "project.coords_mode")
  }

  // ---------------------------------------------------------------------------
  // Layers

  function IdOf(v: Json): string
  {
    if v.JDict? && "id" in v.fields && v.fields["id"].JStr? then v.fields["id"].s else ""
  }

  /** The loop over `layer["variants"]` from index j on. */
  function VariantsFrom(vs: seq<Json>, j: nat, lctx: string): Outcome
    requires j <= |vs|
    decreases |vs| - j
  {
    if j == |vs| then Pass
    else
      var v := vs[j];
      var vctx := Index(lctx + ".variants", j);
      var o := ExpectKeys(v, ["if", "image"], vctx);
      if o.Fail? then o
      else
        var o1 := AndThen(ExpectTypeAt(v, "if", StrType, vctx + ".if"), ExpectTypeAt(v, "image", StrType, vctx + ".image"));
        if o1.Fail? then o1 else VariantsFrom(vs, j + 1, lctx)
  }

  /** The checks that depend on the layer type; a group's children are a
      fresh sibling list. */
  function LayerBody(show: Json -> string, layer: Json, ltype: string, lctx: string): Outcome
    requires layer.JDict?
    decreases layer, 0
  {
    if ltype == "image" then
      var o := ExpectKeys(layer, ["image"], lctx + " (image layer)");
      if o.Fail? then o else ExpectTypeAt(layer, "image", StrType, lctx + ".image")
    else if ltype == "color" then
      var o := ExpectKeys(layer, ["color", "alpha"], lctx + " (color layer)");
      if o.Fail? then o
      else
        match Get(layer, "color")
        case Err(f) => Fail(f)
        case Ok(color) =>
          var o1 := ExpectColor(show, color, lctx + ".color");
          if o1.Fail? then o1
          else
            match Get(layer, "alpha")
            case Err(f) => Fail(f)
            case Ok(alpha) => ExpectNumberRange(show, alpha, 0, 1, lctx + ".alpha")
    else if ltype == "group" then
      var o := ExpectKeys(layer, ["children"], lctx + " (group layer)");
      if o.Fail? then o
      else
        var o1 := ExpectTypeAt(layer, "children", ListType, lctx + ".children");
        if o1.Fail? then o1 else LayersFrom(show, layer.fields["children"].items, 0, lctx + ".children", {})
    else Pass
  }

  /** The checks of a layer before its type-specific ones: the required
      keys, a fresh string id, a known type and a numeric z-order. Yields
      the type. */
  function LayerHead(show: Json -> string, layer: Json, lctx: string, seen: set<string>): (r: Result<string>)
    ensures r.Ok? ==> layer.JDict?
  {
    var o := ExpectKeys(layer, ["id", "type", "zorder"], lctx);
    if o.Fail? then Err(o.failure)
    else
      match Get(layer, "id")
      case Err(f) => Err(f)
      case Ok(id) =>
        var o1 := ExpectType(id, StrType, lctx + ".id");
        if o1.Fail? then Err(o1.failure)
        else if id.s in seen then Err(Invalid(lctx + ".id duplicated: " + id.s))
        else
          match Get(layer, "type")
          case Err(f) => Err(f)
          case Ok(ltype) =>
            var o2 := ExpectIn(show, ltype, ["image", "color", "group"], lctx + ".type");
            if o2.Fail? then Err(o2.failure)
            else
              var o3 := ExpectTypeAt(layer, "zorder", NumberType, lctx + ".zorder");
              if o3.Fail? then Err(o3.failure) else Ok(ltype.s)
  }

  /** The optional `variants` list. */
  function LayerVariants(layer: Json, lctx: string): Outcome
    requires layer.JDict?
  {
    if "variants" in layer.fields then
      var o := ExpectType(layer.fields["variants"], ListType, lctx + ".variants");
      if o.Fail? then o else VariantsFrom(layer.fields["variants"].items, 0, lctx)
    else Pass
  }

  /** One iteration of the layer loop, with the sibling ids seen so far. */
  function LayerCheck(show: Json -> string, layer: Json, lctx: string, seen: set<string>): Outcome
    decreases layer, 1
  {
    match LayerHead(show, layer, lctx, seen)
    case Err(f) => Fail(f)
    case Ok(ltype) =>
      var o := LayerBody(show, layer, ltype, lctx);
      if o.Fail? then o else LayerVariants(layer, lctx)
  }

  /** `_validate_layers(layers, ctx)` from index i on, with the ids of the
      siblings before i. */
  function LayersFrom(show: Json -> string, layers: seq<Json>, i: nat, ctx: string, seen: set<string>): Outcome
    requires i <= |layers|
    decreases layers, |layers| - i
  {
    if i == |layers| then Pass
    else
      var o := LayerCheck(show, layers[i], Index(ctx, i), seen);
      if o.Fail? then o else LayersFrom(show, layers, i + 1, ctx, seen + {IdOf(layers[i])})
  }

  // ---------------------------------------------------------------------------
  // Hotspots

  /** The loop over the components of a rect or circle, from index i on. */
  function ComponentsFrom(show: Json -> string, obj: Json, keys: seq<string>, i: nat, ctx: string, mode: Json): Outcome
    requires i <= |keys|
    decreases |keys| - i
  {
    if i == |keys| then Pass
    else
      match Get(obj, keys[i])
      case Err(f) => Fail(f)
      case Ok(v) =>
        var kctx := ctx + "." + keys[i];
        var o := ExpectType(v, NumberType, kctx);
        if o.Fail? then o
        else
          var o1 := if mode == JStr("relative") then ExpectNumberRange(show, v, 0, 1, kctx) else Pass;
          if o1.Fail? then o1 else ComponentsFrom(show, obj, keys, i + 1, ctx, mode)
  }

  /** The loop over the points of a polygon, from index i on. */
  function PointsFrom(show: Json -> string, pts: seq<Json>, i: nat, ctx: string, mode: Json): Outcome
    requires i <= |pts|
    decreases |pts| - i
  {
    if i == |pts| then Pass
    else
      var p := pts[i];
      var pctx := Index(ctx + ".points", i);
      if !p.JList? || |p.items| != 2 then Fail(Invalid(pctx + " must be [x,y]"))
      else
        var x := p.items[0];
        var y := p.items[1];
        var o := AndThen(ExpectType(x, NumberType, pctx + ".x"), ExpectType(y, NumberType, pctx + ".y"));
        if o.Fail? then o
        else
          var o1 := if mode == JStr("relative") then
                      AndThen(ExpectNumberRange(show, x, 0, 1, pctx + ".x"), ExpectNumberRange(show, y, 0, 1, pctx + ".y"))
                    else Pass;
          if o1.Fail? then o1 else PointsFrom(show, pts, i + 1, ctx, mode)
  }

  /** The checks of a hotspot's shape before its coordinates: yields the
      rect or circle object, or the polygon's point list. Any shape but
      "rect" and "polygon" is taken as a circle. */
  function ShapeObject(h: Json, shape: string, ctx: string): Result<Json>
  {
    if shape == "rect" then
      var o := ExpectKeys(h, ["rect"], ctx + " rect");
      if o.Fail? then Err(o.failure)
      else
        match Get(h, "rect")
        case Err(f) => Err(f)
        case Ok(rect) =>
          var o1 := ExpectKeys(rect, ["x", "y", "w", "h"], ctx + ".rect");
          if o1.Fail? then Err(o1.failure) else Ok(rect)
    else if shape == "polygon" then
      var o := ExpectKeys(h, ["points"], ctx + " polygon");
      if o.Fail? then Err(o.failure)
      else
        match Get(h, "points")
        case Err(f) => Err(f)
        case Ok(pts) =>
          var o1 := ExpectType(pts, ListType, ctx + ".points");
          if o1.Fail? then Err(o1.failure)
          else if |pts.items| < 3 then Err(Invalid(ctx + ".points must have >=3 points"))
          else Ok(pts)
    else
      var o := ExpectKeys(h, ["circle"], ctx + " circle");
      if o.Fail? then Err(o.failure)
      else
        match Get(h, "circle")
        case Err(f) => Err(f)
        case Ok(c) =>
          var o1 := ExpectKeys(c, ["cx", "cy", "r"], ctx + ".circle");
          if o1.Fail? then Err(o1.failure) else Ok(c)
  }

  /** The components checked for a rect and for a circle. */
  function ShapeKeys(shape: string): seq<string>
  {
    if shape == "rect" then ["x", "y", "w", "h"] else ["cx", "cy", "r"]
  }

  function ShapeCtx(shape: string, ctx: string): string
  {
    if shape == "rect" then ctx + ".rect" else ctx + ".circle"
  }

  /** The shape-specific checks of a hotspot. */
  function ShapeCheck(show: Json -> string, h: Json, shape: string, ctx: string, mode: Json): Outcome
  {
    match ShapeObject(h, shape, ctx)
    case Err(f) => Fail(f)
    case Ok(obj) =>
      if shape == "polygon" then PointsFrom(show, obj.items, 0, ctx, mode)
      else ComponentsFrom(show, obj, ShapeKeys(shape), 0, ShapeCtx(shape, ctx), mode)
  }

  /** The key each action type requires. */
  function ActionKey(t: string): string
  {
    if t == "go_scene" then "scene_id"
    else if t == "jump_label" || t == "call_label" then "label"
    else if t == "call_screen" then "screen"
    else "name"
  }

  const ActionTypes: seq<string> := ["go_scene", "jump_label", "call_label", "call_screen", "function"]

  /** The checks of `h["action"]`. */
  function ActionCheck(show: Json -> string, act: Json, ctx: string): Outcome
  {
    var actx := ctx + ".action";
    var o := ExpectType(act, DictType, actx);
    if o.Fail? then o
    else
      var o1 := ExpectKeys(act, ["type"], actx);
      if o1.Fail? then o1
      else
        match Get(act, "type")
        case Err(f) => Fail(f)
        case Ok(t) =>
          var o2 := ExpectIn(show, t, ActionTypes, actx + ".type");
          if o2.Fail? then o2
          else ExpectKeys(act, [ActionKey(t.s)], actx + "(" + t.s + ")")
  }

  /** The checks of a hotspot before its shape: yields the shape. */
  function HotspotHead(show: Json -> string, h: Json, ctx: string): Result<string>
  {
    var o := ExpectKeys(h, ["id", "shape", "action"], ctx);
    if o.Fail? then Err(o.failure)
    else
      var o1 := ExpectTypeAt(h, "id", StrType, ctx + ".id");
      if o1.Fail? then Err(o1.failure)
      else
        match Get(h, "shape")
        case Err(f) => Err(f)
        case Ok(shape) =>
          var o2 := ExpectIn(show, shape, ["rect", "polygon", "circle"], ctx + ".shape");
          if o2.Fail? then Err(o2.failure) else Ok(shape.s)
  }

  function ActionAt(show: Json -> string, h: Json, ctx: string): Outcome
  {
    match Get(h, "action")
    case Err(f) => Fail(f)
    case Ok(act) => ActionCheck(show, act, ctx)
  }

  /** `_validate_hotspot(h, coords_mode, ctx)`; only the mode "relative"
      adds the range checks. */
  function HotspotCheck(show: Json -> string, h: Json, mode: Json, ctx: string): Outcome
  {
    match HotspotHead(show, h, ctx)
    case Err(f) => Fail(f)
    case Ok(shape) =>
      var o := ShapeCheck(show, h, shape, ctx, mode);
      if o.Fail? then o else ActionAt(show, h, ctx)
  }

  // ---------------------------------------------------------------------------
  // Scenes

  /** The loop over a scene's hotspots from index j on. */
  function HotspotsFrom(show: Json -> string, hs: seq<Json>, j: nat, sctx: string, mode: Json): Outcome
    requires j <= |hs|
    decreases |hs| - j
  {
    if j == |hs| then Pass
    else
      var hctx := Index(sctx + ".hotspots", j);
      var o := ExpectType(hs[j], DictType, hctx);
      if o.Fail? then o
      else
        var o1 := HotspotCheck(show, hs[j], mode, hctx);
        if o1.Fail? then o1 else HotspotsFrom(show, hs, j + 1, sctx, mode)
  }

  /** The checks of a scene before its layers: yields the layer list. */
  function SceneHead(sc: Json, sctx: string, seen: set<string>): (r: Result<seq<Json>>)
    ensures r.Ok? ==> sc.JDict?
  {
    var o := ExpectKeys(sc, ["id", "layers", "hotspots"], sctx);
    if o.Fail? then Err(o.failure)
    else
      match Get(sc, "id")
      case Err(f) => Err(f)
      case Ok(id) =>
        var o1 := ExpectType(id, StrType, sctx + ".id");
        if o1.Fail? then Err(o1.failure)
        else if id.s in seen then Err(Invalid(sctx + ".id duplicated: " + id.s))
        else
          var o2 := ExpectTypeAt(sc, "layers", ListType, sctx + ".layers");
          if o2.Fail? then Err(o2.failure) else Ok(sc.fields["layers"].items)
  }

  /** The hotspot list of a scene must be a list. */
  function HotspotsAt(sc: Json, sctx: string): (r: Result<seq<Json>>)
  {
    var o := ExpectTypeAt(sc, "hotspots", ListType, sctx + ".hotspots");
    if o.Fail? then Err(o.failure) else Ok(sc.fields["hotspots"].items)
  }

  /** One iteration of the scene loop, with the scene ids seen so far. */
  function SceneCheck(show: Json -> string, sc: Json, sctx: string, mode: Json, seen: set<string>): Outcome
  {
    match SceneHead(sc, sctx, seen)
    case Err(f) => Fail(f)
    case Ok(layers) =>
      var o := LayersFrom(show, layers, 0, sctx + ".layers", {});
      if o.Fail? then o
      else
        match HotspotsAt(sc, sctx)
        case Err(f) => Fail(f)
        case Ok(hs) => HotspotsFrom(show, hs, 0, sctx, mode)
  }

  function ScenesFrom(show: Json -> string, scenes: seq<Json>, i: nat, mode: Json, seen: set<string>): Outcome
    requires i <= |scenes|
    decreases |scenes| - i
  {
    if i == |scenes| then Pass
    else
      var o := SceneCheck(show, scenes[i], Index("scenes", i), mode, seen);
      if o.Fail? then o else ScenesFrom(show, scenes, i + 1, mode, seen + {IdOf(scenes[i])})
  }

  /** The checks of the root and the project: yields the scene list and the
      coordinate mode. */
  function RootHead(show: Json -> string, data: Json): Result<(seq<Json>, Json)>
  {
    var o := ExpectKeys(data, ["version", "project", "scenes"], "root");
    if o.Fail? then Err(o.failure)
    else
      var o1 := ExpectTypeAt(data, "version", StrType, "version");
      if o1.Fail? then Err(o1.failure)
      else
        match Get(data, "project")
        case Err(f) => Err(f)
        case Ok(project) =>
          var o2 := ValidateProject(show, project);
          if o2.Fail? then Err(o2.failure)
          else
            var o3 := ExpectTypeAt(data, "scenes", ListType, "scenes");
            if o3.Fail? then Err(o3.failure)
            else
              match Get(project, "coords_mode")
              case Err(f) => Err(f)
              case Ok(mode) => Ok((data.fields["scenes"].items, mode))
  }

  /** `validate(data)` */
  function ValidateSpec(show: Json -> string, data: Json): Outcome
  {
    match RootHead(show, data)
    case Err(f) => Fail(f)
    case Ok(root) => ScenesFrom(show, root.0, 0, root.1, {})
  }

  // ---------------------------------------------------------------------------
  // The validator's loops

  /** `_validate_layers(layers, ctx)` */
  method CheckLayers(show: Json -> string, layers: seq<Json>, ctx: string) returns (o: Outcome)
    ensures o == LayersFrom(show, layers, 0, ctx, {})
    decreases layers, 2
  {
    var seenIds: set<string> := {};
    for i := 0 to |layers|
      invariant LayersFrom(show, layers, 0, ctx, {}) == LayersFrom(show, layers, i, ctx, seenIds)
    {
      var layer := layers[i];
      o := CheckLayer(show, layer, Index(ctx, i), seenIds);
      if o.Fail? {
        return;
      }
      seenIds := seenIds + {IdOf(layer)};
    }
    o := Pass;
  }

  /** The body of the layer loop. */
  method CheckLayer(show: Json -> string, layer: Json, lctx: string, seen: set<string>) returns (o: Outcome)
    ensures o == LayerCheck(show, layer, lctx, seen)
    decreases layer, 1
  {
    var head := LayerHead(show, layer, lctx, seen);
    if head.Err? {
      return Fail(head.failure);
    }
    var ltype := head.value;
    if ltype == "group" {
      var k := ExpectKeys(layer, ["children"], lctx + " (group layer)");
      if k.Fail? {
        return k;
      }
      var t := ExpectTypeAt(layer, "children", ListType, lctx + ".children");
      if t.Fail? {
        return t;
      }
      o := CheckLayers(show, layer.fields["children"].items, lctx + ".children");
    } else {
      o := LayerBody(show, layer, ltype, lctx);
    }
    if o.Fail? {
      return;
    }
    if "variants" in layer.fields {
      o := ExpectType(layer.fields["variants"], ListType, lctx + ".variants");
      if o.Fail? {
        return;
      }
      o := CheckVariants(layer.fields["variants"].items, lctx);
    }
  }

  /** The loop over a layer's variants. */
  method CheckVariants(vs: seq<Json>, lctx: string) returns (o: Outcome)
    ensures o == VariantsFrom(vs, 0, lctx)
  {
    for j := 0 to |vs|
      invariant VariantsFrom(vs, 0, lctx) == VariantsFrom(vs, j, lctx)
    {
      var v := vs[j];
      var vctx := Index(lctx + ".variants", j);
      o := ExpectKeys(v, ["if", "image"], vctx);
      if o.Fail? {
        return;
      }
      o := ExpectTypeAt(v, "if", StrType, vctx + ".if");
      if o.Fail? {
        return;
      }
      o := ExpectTypeAt(v, "image", StrType, vctx + ".image");
      if o.Fail? {
        return;
      }
    }
    o := Pass;
  }

  /** The loop over the components of a rect or a circle. */
  method CheckComponents(show: Json -> string, obj: Json, keys: seq<string>, ctx: string, mode: Json) returns (o: Outcome)
    ensures o == ComponentsFrom(show, obj, keys, 0, ctx, mode)
  {
    for i := 0 to |keys|
      invariant ComponentsFrom(show, obj, keys, 0, ctx, mode) == ComponentsFrom(show, obj, keys, i, ctx, mode)
    {
      var v := Get(obj, keys[i]);
      if v.Err? {
        return Fail(v.failure);
      }
      var kctx := ctx + "." + keys[i];
      o := ExpectType(v.value, NumberType, kctx);
      if o.Fail? {
        return;
      }
      if mode == JStr("relative") {
        o := ExpectNumberRange(show, v.value, 0, 1, kctx);
        if o.Fail? {
          return;
        }
      }
    }
    o := Pass;
  }

  /** The loop over the points of a polygon. */
  method CheckPoints(show: Json -> string, pts: seq<Json>, ctx: string, mode: Json) returns (o: Outcome)
    ensures o == PointsFrom(show, pts, 0, ctx, mode)
  {
    for i := 0 to |pts|
      invariant PointsFrom(show, pts, 0, ctx, mode) == PointsFrom(show, pts, i, ctx, mode)
    {
      var p := pts[i];
      var pctx := Index(ctx + ".points", i);
      if !p.JList? || |p.items| != 2 {
        return Fail(Invalid(pctx + " must be [x,y]"));
      }
      var x, y := p.items[0], p.items[1];
      o := ExpectType(x, NumberType, pctx + ".x");
      if o.Fail? {
        return;
      }
      o := ExpectType(y, NumberType, pctx + ".y");
      if o.Fail? {
        return;
      }
      if mode == JStr("relative") {
        o := ExpectNumberRange(show, x, 0, 1, pctx + ".x");
        if o.Fail? {
          return;
        }
        o := ExpectNumberRange(show, y, 0, 1, pctx + ".y");
        if o.Fail? {
          return;
        }
      }
    }
    o := Pass;
  }

  /** `_validate_hotspot(h, coords_mode, ctx)` */
  method CheckHotspot(show: Json -> string, h: Json, mode: Json, ctx: string) returns (o: Outcome)
    ensures o == HotspotCheck(show, h, mode, ctx)
  {
    var head := HotspotHead(show, h, ctx);
    if head.Err? {
      return Fail(head.failure);
    }
    var shape := head.value;
    var obj := ShapeObject(h, shape, ctx);
    if obj.Err? {
      return Fail(obj.failure);
    }
    if shape == "polygon" {
      o := CheckPoints(show, obj.value.items, ctx, mode);
    } else {
      o := CheckComponents(show, obj.value, ShapeKeys(shape), ShapeCtx(shape, ctx), mode);
    }
    if o.Fail? {
      return;
    }
    o := ActionAt(show, h, ctx);
  }

  /** `validate(data)`: the loop over the scenes and, within each, over its
      hotspots. */
  method Validate(show: Json -> string, data: Json) returns (o: Outcome)
    ensures o == ValidateSpec(show, data)
  {
    var root := RootHead(show, data);
    if root.Err? {
      return Fail(root.failure);
    }
    var (scenes, mode) := root.value;
    var sceneIds: set<string> := {};
    for i := 0 to |scenes|
      invariant ScenesFrom(show, scenes, 0, mode, {}) == ScenesFrom(show, scenes, i, mode, sceneIds)
    {
      o := CheckScene(show, scenes[i], Index("scenes", i), mode, sceneIds);
      if o.Fail? {
        return;
      }
      sceneIds := sceneIds + {IdOf(scenes[i])};
    }
    o := Pass;
  }

  /** One iteration of the scene loop: the scene's own keys, its layers and
      its hotspots. */
  method CheckScene(show: Json -> string, sc: Json, sctx: string, mode: Json, sceneIds: set<string>) returns (o: Outcome)
    ensures o == SceneCheck(show, sc, sctx, mode, sceneIds)
  {
    hide HotspotCheck, LayersFrom;
    var head := SceneHead(sc, sctx, sceneIds);
    if head.Err? {
      return Fail(head.failure);
    }
    o := CheckLayers(show, head.value, sctx + ".layers");
    if o.Fail? {
      return;
    }
    var hs := HotspotsAt(sc, sctx);
    if hs.Err? {
      return Fail(hs.failure);
    }
    for j := 0 to |hs.value|
      invariant HotspotsFrom(show, hs.value, 0, sctx, mode) == HotspotsFrom(show, hs.value, j, sctx, mode)
    {
      var h := hs.value[j];
      var hctx := Index(sctx + ".hotspots", j);
      o := ExpectType(h, DictType, hctx);
      if o.Fail? {
        return;
      }
      o := CheckHotspot(show, h, mode, hctx);
      if o.Fail? {
        return;
      }
    }
    o := Pass;
  }
}
