/** What the scene-project validator accepts, stated declaratively: a
    well-formed project, layer trees with ids unique per sibling list, hotspot
    shapes whose coordinates respect the coordinate mode, and actions with
    their required keys. Each lemma proves a checking function of
    SceneValidator passes exactly on the inputs the declarative predicate
    describes. */
module SceneValidatorProps {
  import opened Strings
  import opened JsonValue
  import opened SceneValidator

  // ---------------------------------------------------------------------------
  // Field tests

  predicate HasStr(v: Json, key: string)
  {
    v.JDict? && key in v.fields && v.fields[key].JStr?
  }

  predicate HasNumber(v: Json, key: string)
  {
    v.JDict? && key in v.fields && IsInstance(v.fields[key], NumberType)
  }

  predicate HasList(v: Json, key: string)
  {
    v.JDict? && key in v.fields && v.fields[key].JList?
  }

  /** No two elements from index i on share an id, and none of them has an
      id in seen. */
  predicate FreshFrom(xs: seq<Json>, i: nat, seen: set<string>)
  {
    && (forall k :: i <= k < |xs| ==> IdOf(xs[k]) !in seen)
    && (forall k, m :: i <= k < m < |xs| ==> IdOf(xs[k]) != IdOf(xs[m]))
  }

  predicate UniqueIds(xs: seq<Json>)
  {
    forall k, m :: 0 <= k < m < |xs| ==> IdOf(xs[k]) != IdOf(xs[m])
  }

  /** The step of the id scan: element i is fresh and the rest is fresh with
      its id added. */
  lemma FreshFromStep(xs: seq<Json>, i: nat, seen: set<string>)
    requires i < |xs|
    ensures FreshFrom(xs, i, seen) <==> IdOf(xs[i]) !in seen && FreshFrom(xs, i + 1, seen + {IdOf(xs[i])})
  {
  }

  // ---------------------------------------------------------------------------
  // Colours and ranges

  /** `_is_color`, character by character: "#" followed by 3, 4, 6 or 8 hex
      digits. */
  lemma IsColorMeans(s: string)
    ensures IsColor(JStr(s)) <==>
              && |s| in {4, 5, 7, 9} && s[0] == '#'
              && forall k :: 1 <= k < |s| ==> IsHexDigit(s[k])
  {
    if IsColor(JStr(s)) {
      forall k | 1 <= k < |s| ensures IsHexDigit(s[k]) {
        assert s[k] == s[1..][k - 1];
      }
    }
    if |s| in {4, 5, 7, 9} && s[0] == '#' && forall k :: 1 <= k < |s| ==> IsHexDigit(s[k]) {
      assert s[..1] == "#";
      forall k | 0 <= k < |s[1..]| ensures IsHexDigit(s[1..][k]) {
        assert s[1..][k] == s[k + 1];
      }
    }
  }

  /** Pins the accepted lengths and the case rule of a colour: three, six and
      eight hex digits of either case after the hash. */
  lemma IsColorExamples()
    ensures IsColor(JStr("#fff")) && IsColor(JStr("#1a2B3c")) && IsColor(JStr("#FFAA00CC"))
  {
    IsColorMeans("#fff");
    IsColorMeans("#1a2B3c");
    IsColorMeans("#FFAA00CC");
  }

  /** Only strings are colours; the hash, a permitted length and hex digits
      are all required. */
  lemma IsColorRejects()
    ensures !IsColor(JStr("#12345")) && !IsColor(JStr("fff")) && !IsColor(JStr("#ggg"))
    ensures !IsColor(JInt(0)) && !IsColor(JNull)
  {
    IsColorMeans("#12345");
    IsColorMeans("#ggg");
    assert !IsHexDigit("#ggg"[1]);
  }

  /** A coordinate component: a number, and within [0, 1] in relative mode. */
  predicate CoordOk(v: Json, mode: Json)
  {
    IsInstance(v, NumberType) && (mode == JStr("relative") ==> 0.0 <= NumValue(v) <= 1.0)
  }

  /** The range test that the relative mode adds is exactly the [0, 1] range
      check. */
  lemma CoordOkRange(show: Json -> string, v: Json, mode: Json, ctx: string)
    ensures CoordOk(v, mode) <==>
              ExpectType(v, NumberType, ctx).Pass? && (mode == JStr("relative") ==> ExpectNumberRange(show, v, 0, 1, ctx).Pass?)
  {
  }

  // ---------------------------------------------------------------------------
  // The project settings

  predicate ProjectOk(p: Json)
  {
    && p.JDict? && "reference_resolution" in p.fields && "coords_mode" in p.fields
    && HasNumber(p.fields["reference_resolution"], "width")
    && HasNumber(p.fields["reference_resolution"], "height")
    && p.fields["coords_mode"] in {JStr("relative"), JStr("absolute")}
  }

  /** `_validate_project` passes iff both keys are present, the reference
      resolution has numeric width and height and the mode is "relative" or
      "absolute"; on a dict every failure is a ValidationError. */
  lemma ValidateProjectMeans(show: Json -> string, p: Json)
    ensures ValidateProject(show, p).Pass? <==> ProjectOk(p)
    ensures p.JDict? && ValidateProject(show, p).Fail? ==> ValidateProject(show, p).failure.Invalid?
  {
    hide TypeMessage;
    if p.JDict? {
      ExpectKeysDict(p, ["reference_resolution", "coords_mode"], "project");
      if "reference_resolution" in p.fields && p.fields["reference_resolution"].JDict? {
        var rr := p.fields["reference_resolution"];
        ExpectKeysDict(rr, ["width", "height"], "project.reference_resolution");
      }
    } else {
      assert Get(p, "reference_resolution").Err?;
    }
  }

  // ---------------------------------------------------------------------------
  // Layers

  predicate VariantOk(v: Json)
  {
    HasStr(v, "if") && HasStr(v, "image")
  }

  /** The optional `variants` key holds a list of {if, image} strings. */
  predicate VariantsOk(layer: Json)
    requires layer.JDict?
  {
    "variants" in layer.fields ==>
      && layer.fields["variants"].JList?
      && forall j :: 0 <= j < |layer.fields["variants"].items| ==> VariantOk(layer.fields["variants"].items[j])
  }

  /** A string id, a known type and a numeric z-order. */
  predicate LayerHeadOk(layer: Json)
  {
    && HasStr(layer, "id") && HasStr(layer, "type") && HasNumber(layer, "zorder")
    && layer.fields["type"].s in {"image", "color", "group"}
  }

  /** What each layer type requires. */
  predicate LayerBodyOk(layer: Json, t: string)
    requires layer.JDict?
    decreases layer, 0
  {
    && (t == "image" ==> HasStr(layer, "image"))
    && (t == "color" ==>
          && "color" in layer.fields && IsColor(layer.fields["color"])
          && "alpha" in layer.fields && IsInstance(layer.fields["alpha"], NumberType)
          && 0.0 <= NumValue(layer.fields["alpha"]) <= 1.0)
    && (t == "group" ==> HasList(layer, "children") && LayersOk(layer.fields["children"].items))
  }

  predicate LayerOk(layer: Json)
    decreases layer, 1
  {
    LayerHeadOk(layer) && LayerBodyOk(layer, layer.fields["type"].s) && VariantsOk(layer)
  }

  /** A sibling list: every layer well-formed and the ids unique within the
      list (a group's children are a separate list). */
  predicate LayersOk(layers: seq<Json>)
    decreases layers, 2
  {
    (forall k :: 0 <= k < |layers| ==> LayerOk(layers[k])) && UniqueIds(layers)
  }

  lemma LayerHeadMeans(show: Json -> string, layer: Json, lctx: string, seen: set<string>)
    ensures LayerHead(show, layer, lctx, seen).Ok? <==> LayerHeadOk(layer) && IdOf(layer) !in seen
    ensures LayerHead(show, layer, lctx, seen).Ok? ==> LayerHead(show, layer, lctx, seen).value == layer.fields["type"].s
  {
    if layer.JDict? {
      ExpectKeysDict(layer, ["id", "type", "zorder"], lctx);
    }
  }

  lemma {:induction false} VariantsFromMeans(vs: seq<Json>, j: nat, lctx: string)
    requires j <= |vs|
    ensures VariantsFrom(vs, j, lctx).Pass? <==> forall k :: j <= k < |vs| ==> VariantOk(vs[k])
    decreases |vs| - j
  {
    if j < |vs| {
      VariantsFromMeans(vs, j + 1, lctx);
      var vctx := Index(lctx + ".variants", j);
      if vs[j].JDict? {
        ExpectKeysDict(vs[j], ["if", "image"], vctx);
      } else {
        assert ExpectTypeAt(vs[j], "if", StrType, vctx + ".if").Fail?;
      }
    }
  }

  lemma LayerVariantsMeans(layer: Json, lctx: string)
    requires layer.JDict?
    ensures LayerVariants(layer, lctx).Pass? <==> VariantsOk(layer)
  {
    if "variants" in layer.fields && layer.fields["variants"].JList? {
      VariantsFromMeans(layer.fields["variants"].items, 0, lctx);
    }
  }

  lemma {:induction false} LayerBodyMeans(show: Json -> string, layer: Json, t: string, lctx: string)
    requires layer.JDict?
    ensures LayerBody(show, layer, t, lctx).Pass? <==> LayerBodyOk(layer, t)
    decreases layer, 0
  {
    hide Index, TypeMessage, LayersFrom;
    if t == "image" {
      ExpectKeysDict(layer, ["image"], lctx + " (image layer)");
    } else if t == "color" {
      ExpectKeysDict(layer, ["color", "alpha"], lctx + " (color layer)");
    } else if t == "group" {
      ExpectKeysDict(layer, ["children"], lctx + " (group layer)");
      if HasList(layer, "children") {
        LayersFromMeans(show, layer.fields["children"].items, 0, lctx + ".children", {});
      }
    }
  }

  /** One layer passes iff it is well-formed and its id is new among its
      siblings. */
  lemma {:induction false} LayerCheckMeans(show: Json -> string, layer: Json, lctx: string, seen: set<string>)
    ensures LayerCheck(show, layer, lctx, seen).Pass? <==> LayerOk(layer) && IdOf(layer) !in seen
    decreases layer, 1
  {
    LayerHeadMeans(show, layer, lctx, seen);
    if LayerHead(show, layer, lctx, seen).Ok? {
      var t := layer.fields["type"].s;
      LayerBodyMeans(show, layer, t, lctx);
      LayerVariantsMeans(layer, lctx);
    }
  }

  /** The layer loop from index i on passes iff those layers are well-formed
      and their ids are distinct and not among the earlier siblings'. */
  lemma {:induction false} LayersFromMeans(show: Json -> string, layers: seq<Json>, i: nat, ctx: string, seen: set<string>)
    requires i <= |layers|
    ensures LayersFrom(show, layers, i, ctx, seen).Pass? <==>
              (forall k :: i <= k < |layers| ==> LayerOk(layers[k])) && FreshFrom(layers, i, seen)
    decreases layers, |layers| - i
  {
    if i < |layers| {
      LayerCheckMeans(show, layers[i], Index(ctx, i), seen);
      LayersFromMeans(show, layers, i + 1, ctx, seen + {IdOf(layers[i])});
      FreshFromStep(layers, i, seen);
    }
  }

  /** `_validate_layers(layers, ctx)` passes iff the list is well-formed: ids
      are unique per sibling list, each group's children checked as a fresh
      list. */
  lemma LayersValid(show: Json -> string, layers: seq<Json>, ctx: string)
    ensures LayersFrom(show, layers, 0, ctx, {}).Pass? <==> LayersOk(layers)
  {
    LayersFromMeans(show, layers, 0, ctx, {});
  }

  /** A layer id may recur in a different sibling list: a group may hold a
      child with its own id. */
  lemma NestedIdMayRepeat()
    ensures LayersOk([JDict(map["id" := JStr("a"), "type" := JStr("group"), "zorder" := JInt(0),
                                "children" := JList([JDict(map["id" := JStr("a"), "type" := JStr("image"),
                                                               "zorder" := JInt(1), "image" := JStr("x.png")])])])])
  {
    var child := JDict(map["id" := JStr("a"), "type" := JStr("image"), "zorder" := JInt(1), "image" := JStr("x.png")]);
    assert LayerOk(child);
    assert LayersOk([child]);
  }

  // ---------------------------------------------------------------------------
  // Hotspots

  /** Each of keys is present in obj and a valid coordinate. */
  predicate ComponentsOk(obj: Json, keys: seq<string>, mode: Json)
  {
    obj.JDict? && forall k :: k in keys ==> k in obj.fields && CoordOk(obj.fields[k], mode)
  }

  predicate PointOk(p: Json, mode: Json)
  {
    p.JList? && |p.items| == 2 && CoordOk(p.items[0], mode) && CoordOk(p.items[1], mode)
  }

  /** What each shape requires: a rect {x, y, w, h}, a list of at least three
      points [x, y], or a circle {cx, cy, r}. */
  predicate ShapeOk(h: Json, shape: string, mode: Json)
    requires h.JDict?
  {
    if shape == "rect" then
      "rect" in h.fields && ComponentsOk(h.fields["rect"], ["x", "y", "w", "h"], mode)
    else if shape == "polygon" then
      && HasList(h, "points") && |h.fields["points"].items| >= 3
      && forall k :: 0 <= k < |h.fields["points"].items| ==> PointOk(h.fields["points"].items[k], mode)
    else
      "circle" in h.fields && ComponentsOk(h.fields["circle"], ["cx", "cy", "r"], mode)
  }

  /** A dict action of a known type holding the key its type requires. */
  predicate ActionOk(act: Json)
  {
    && HasStr(act, "type")
    && var t := act.fields["type"].s;
    && t in {"go_scene", "jump_label", "call_label", "call_screen", "function"}
    && (t == "go_scene" ==> "scene_id" in act.fields)
    && (t == "jump_label" || t == "call_label" ==> "label" in act.fields)
    && (t == "call_screen" ==> "screen" in act.fields)
    && (t == "function" ==> "name" in act.fields)
  }

  predicate HotspotOk(h: Json, mode: Json)
  {
    && HasStr(h, "id") && HasStr(h, "shape") && "action" in h.fields
    && h.fields["shape"].s in {"rect", "polygon", "circle"}
    && ShapeOk(h, h.fields["shape"].s, mode)
    && ActionOk(h.fields["action"])
  }

  lemma {:induction false} ComponentsFromMeans(show: Json -> string, obj: Json, keys: seq<string>, i: nat, ctx: string, mode: Json)
    requires i <= |keys|
    ensures ComponentsFrom(show, obj, keys, i, ctx, mode).Pass? <==>
              (i < |keys| ==> obj.JDict?) &&
              forall k :: i <= k < |keys| ==> obj.JDict? && keys[k] in obj.fields && CoordOk(obj.fields[keys[k]], mode)
    decreases |keys| - i
  {
    if i < |keys| {
      ComponentsFromMeans(show, obj, keys, i + 1, ctx, mode);
    }
  }

  lemma {:induction false} PointsFromMeans(show: Json -> string, pts: seq<Json>, i: nat, ctx: string, mode: Json)
    requires i <= |pts|
    ensures PointsFrom(show, pts, i, ctx, mode).Pass? <==> forall k :: i <= k < |pts| ==> PointOk(pts[k], mode)
    decreases |pts| - i
  {
    hide PointsFrom, PointOk;
    if i < |pts| {
      PointStepMeans(show, pts, i, ctx, mode);
      PointsFromMeans(show, pts, i + 1, ctx, mode);
      assert (forall k :: i <= k < |pts| ==> PointOk(pts[k], mode))
             <==> PointOk(pts[i], mode) && (forall k :: i + 1 <= k < |pts| ==> PointOk(pts[k], mode));
    } else {
      assert PointsFrom(show, pts, i, ctx, mode) == Pass by {
        PointsEnd(show, pts, ctx, mode);
      }
    }
  }

  lemma PointsEnd(show: Json -> string, pts: seq<Json>, ctx: string, mode: Json)
    ensures PointsFrom(show, pts, |pts|, ctx, mode) == Pass
  {
  }

  /** One step of the point loop passes exactly when that point is well formed. */
  lemma PointStepMeans(show: Json -> string, pts: seq<Json>, i: nat, ctx: string, mode: Json)
    requires i < |pts|
    ensures PointsFrom(show, pts, i, ctx, mode).Pass? <==> PointOk(pts[i], mode) && PointsFrom(show, pts, i + 1, ctx, mode).Pass?
  {
  }

  lemma ComponentsCheckMeans(show: Json -> string, obj: Json, keys: seq<string>, ctx: string, mode: Json)
    requires |keys| > 0
    ensures ComponentsFrom(show, obj, keys, 0, ctx, mode).Pass? <==> ComponentsOk(obj, keys, mode)
  {
    ComponentsFromMeans(show, obj, keys, 0, ctx, mode);
    if ComponentsFrom(show, obj, keys, 0, ctx, mode).Pass? {
      forall key | key in keys ensures key in obj.fields && CoordOk(obj.fields[key], mode) {
        var k :| 0 <= k < |keys| && keys[k] == key;
      }
    }
  }

  /** A rect must hold x, y, w and h. */
  lemma RectShapeMeans(show: Json -> string, h: Json, ctx: string, mode: Json)
    requires h.JDict?
    ensures ShapeCheck(show, h, "rect", ctx, mode).Pass? <==> ShapeOk(h, "rect", mode)
  {
    if ShapeCheck(show, h, "rect", ctx, mode).Pass? {
      RectPassIsOk(show, h, ctx, mode);
    } else if ShapeOk(h, "rect", mode) {
      RectOkPasses(show, h, ctx, mode);
    }
  }

  lemma RectPassIsOk(show: Json -> string, h: Json, ctx: string, mode: Json)
    requires h.JDict? && ShapeCheck(show, h, "rect", ctx, mode).Pass?
    ensures "rect" in h.fields && ComponentsOk(h.fields["rect"], ["x", "y", "w", "h"], mode)
  {
    ExpectKeysDict(h, ["rect"], ctx + " rect");
    ComponentsCheckMeans(show, h.fields["rect"], ["x", "y", "w", "h"], ctx + ".rect", mode);
  }

  lemma RectOkPasses(show: Json -> string, h: Json, ctx: string, mode: Json)
    requires h.JDict? && "rect" in h.fields && ComponentsOk(h.fields["rect"], ["x", "y", "w", "h"], mode)
    ensures ShapeCheck(show, h, "rect", ctx, mode).Pass?
  {
    var obj := h.fields["rect"];
    ExpectKeysDict(h, ["rect"], ctx + " rect");
    ComponentsCheckMeans(show, obj, ["x", "y", "w", "h"], ctx + ".rect", mode);
    ExpectKeysDict(obj, ["x", "y", "w", "h"], ctx + ".rect");
  }

  /** A circle (any shape other than rect and polygon) must hold cx, cy and
      r. */
  lemma CircleShapeMeans(show: Json -> string, h: Json, shape: string, ctx: string, mode: Json)
    requires h.JDict? && shape != "rect" && shape != "polygon"
    ensures ShapeCheck(show, h, shape, ctx, mode).Pass? <==> ShapeOk(h, shape, mode)
  {
    if ShapeCheck(show, h, shape, ctx, mode).Pass? {
      CirclePassIsOk(show, h, shape, ctx, mode);
    } else if ShapeOk(h, shape, mode) {
      CircleOkPasses(show, h, shape, ctx, mode);
    }
  }

  lemma CirclePassIsOk(show: Json -> string, h: Json, shape: string, ctx: string, mode: Json)
    requires h.JDict? && shape != "rect" && shape != "polygon"
    requires ShapeCheck(show, h, shape, ctx, mode).Pass?
    ensures "circle" in h.fields && ComponentsOk(h.fields["circle"], ["cx", "cy", "r"], mode)
  {
    ExpectKeysDict(h, ["circle"], ctx + " circle");
    ComponentsCheckMeans(show, h.fields["circle"], ["cx", "cy", "r"], ctx + ".circle", mode);
  }

  lemma CircleOkPasses(show: Json -> string, h: Json, shape: string, ctx: string, mode: Json)
    requires h.JDict? && shape != "rect" && shape != "polygon"
    requires "circle" in h.fields && ComponentsOk(h.fields["circle"], ["cx", "cy", "r"], mode)
    ensures ShapeCheck(show, h, shape, ctx, mode).Pass?
  {
    var obj := h.fields["circle"];
    ExpectKeysDict(h, ["circle"], ctx + " circle");
    ComponentsCheckMeans(show, obj, ["cx", "cy", "r"], ctx + ".circle", mode);
    ExpectKeysDict(obj, ["cx", "cy", "r"], ctx + ".circle");
  }

  lemma PolygonShapeMeans(show: Json -> string, h: Json, ctx: string, mode: Json)
    requires h.JDict?
    ensures ShapeCheck(show, h, "polygon", ctx, mode).Pass? <==> ShapeOk(h, "polygon", mode)
  {
    ExpectKeysDict(h, ["points"], ctx + " polygon");
    if HasList(h, "points") {
      PointsFromMeans(show, h.fields["points"].items, 0, ctx, mode);
    }
  }

  lemma ShapeCheckMeans(show: Json -> string, h: Json, shape: string, ctx: string, mode: Json)
    requires h.JDict?
    ensures ShapeCheck(show, h, shape, ctx, mode).Pass? <==> ShapeOk(h, shape, mode)
  {
    if shape == "rect" {
      RectShapeMeans(show, h, ctx, mode);
    } else if shape == "polygon" {
      PolygonShapeMeans(show, h, ctx, mode);
    } else {
      CircleShapeMeans(show, h, shape, ctx, mode);
    }
  }

  /** The action check passes iff the action is a dict of one of the five
      types holding that type's required key. */
  lemma ActionCheckMeans(show: Json -> string, act: Json, ctx: string)
    ensures ActionCheck(show, act, ctx).Pass? <==> ActionOk(act)
  {
    if act.JDict? {
      ExpectKeysDict(act, ["type"], ctx + ".action");
      if HasStr(act, "type") {
        var t := act.fields["type"].s;
        ExpectKeysDict(act, [ActionKey(t)], ctx + ".action" + "(" + t + ")");
      }
    }
  }

  /** `_validate_hotspot` passes exactly on well-formed hotspots. */
  lemma HotspotCheckMeans(show: Json -> string, h: Json, mode: Json, ctx: string)
    requires h.JDict?
    ensures HotspotCheck(show, h, mode, ctx).Pass? <==> HotspotOk(h, mode)
  {
    hide ShapeCheck, ShapeOk, ActionCheck, ActionOk;
    ExpectKeysDict(h, ["id", "shape", "action"], ctx);
    if HotspotHead(show, h, ctx).Ok? {
      ShapeCheckMeans(show, h, h.fields["shape"].s, ctx, mode);
      ActionCheckMeans(show, h.fields["action"], ctx);
    }
  }

  /** A polygon of fewer than three points fails with its own message,
      whatever the points are. */
  lemma PolygonTooFew(show: Json -> string, h: Json, mode: Json, ctx: string)
    requires HasStr(h, "id") && "action" in h.fields && "shape" in h.fields && h.fields["shape"] == JStr("polygon")
    requires HasList(h, "points") && |h.fields["points"].items| < 3
    ensures HotspotCheck(show, h, mode, ctx) == Fail(Invalid(ctx + ".points must have >=3 points"))
  {
    ExpectKeysDict(h, ["id", "shape", "action"], ctx);
    ExpectKeysDict(h, ["points"], ctx + " polygon");
  }

  /** A point that is not a two-element list fails with its own message. */
  lemma BadPointFails(show: Json -> string, pts: seq<Json>, i: nat, ctx: string, mode: Json)
    requires i < |pts| && (!pts[i].JList? || |pts[i].items| != 2)
    ensures PointsFrom(show, pts, i, ctx, mode) == Fail(Invalid(Index(ctx + ".points", i) + " must be [x,y]"))
  {
  }

  /** Absolute mode checks only the numeric type: a hotspot valid in relative
      mode is valid in absolute mode, and in absolute mode coordinates out of
      [0, 1] are accepted. */
  lemma RelativeStricter(h: Json)
    requires HotspotOk(h, JStr("relative"))
    ensures HotspotOk(h, JStr("absolute"))
  {
    var shape := h.fields["shape"].s;
    if shape == "polygon" {
      var pts := h.fields["points"].items;
      forall k | 0 <= k < |pts| ensures PointOk(pts[k], JStr("absolute")) {
        assert PointOk(pts[k], JStr("relative"));
      }
    }
  }

  /** Pins the difference between the two coordinate modes: an absolute
      coordinate is any number, a relative one a number in [0, 1], and a
      numeric string is neither. */
  lemma AbsoluteAcceptsAnyNumber()
    ensures CoordOk(JInt(640), JStr("absolute")) && !CoordOk(JInt(640), JStr("relative"))
    ensures CoordOk(JFloat(0.5), JStr("relative")) && !CoordOk(JStr("0.5"), JStr("absolute"))
  {
  }

  lemma HotspotsFromStep(show: Json -> string, hs: seq<Json>, j: nat, sctx: string, mode: Json)
    requires j < |hs|
    ensures HotspotsFrom(show, hs, j, sctx, mode).Pass? <==> HotspotOk(hs[j], mode) && HotspotsFrom(show, hs, j + 1, sctx, mode).Pass?
  {
    if hs[j].JDict? {
      HotspotCheckMeans(show, hs[j], mode, Index(sctx + ".hotspots", j));
    }
  }

  lemma {:induction false} HotspotsFromMeans(show: Json -> string, hs: seq<Json>, j: nat, sctx: string, mode: Json)
    requires j <= |hs|
    ensures HotspotsFrom(show, hs, j, sctx, mode).Pass? <==> forall k :: j <= k < |hs| ==> HotspotOk(hs[k], mode)
    decreases |hs| - j
  {
    hide HotspotOk, HotspotCheck, ExpectType;
    if j < |hs| {
      HotspotsFromMeans(show, hs, j + 1, sctx, mode);
      HotspotsFromStep(show, hs, j, sctx, mode);
      AllFromStep(hs, j, mode);
    }
  }

  lemma AllFromStep(hs: seq<Json>, j: nat, mode: Json)
    requires j < |hs|
    ensures (forall k :: j <= k < |hs| ==> HotspotOk(hs[k], mode)) <==>
              HotspotOk(hs[j], mode) && forall k :: j + 1 <= k < |hs| ==> HotspotOk(hs[k], mode)
  {
  }

  // ---------------------------------------------------------------------------
  // Scenes and the whole project

  predicate SceneOk(sc: Json, mode: Json)
  {
    && HasStr(sc, "id") && HasList(sc, "layers") && HasList(sc, "hotspots")
    && LayersOk(sc.fields["layers"].items)
    && forall k :: 0 <= k < |sc.fields["hotspots"].items| ==> HotspotOk(sc.fields["hotspots"].items[k], mode)
  }

  lemma SceneCheckMeans(show: Json -> string, sc: Json, sctx: string, mode: Json, seen: set<string>)
    ensures SceneCheck(show, sc, sctx, mode, seen).Pass? <==> SceneOk(sc, mode) && IdOf(sc) !in seen
  {
    if SceneCheck(show, sc, sctx, mode, seen).Pass? {
      ScenePassIsOk(show, sc, sctx, mode, seen);
    } else if SceneOk(sc, mode) && IdOf(sc) !in seen {
      SceneOkPasses(show, sc, sctx, mode, seen);
    }
  }

  lemma ScenePassIsOk(show: Json -> string, sc: Json, sctx: string, mode: Json, seen: set<string>)
    requires SceneCheck(show, sc, sctx, mode, seen).Pass?
    ensures SceneOk(sc, mode) && IdOf(sc) !in seen
  {
    ExpectKeysDict(sc, ["id", "layers", "hotspots"], sctx);
    LayersValid(show, sc.fields["layers"].items, sctx + ".layers");
    HotspotsFromMeans(show, sc.fields["hotspots"].items, 0, sctx, mode);
  }

  lemma SceneOkPasses(show: Json -> string, sc: Json, sctx: string, mode: Json, seen: set<string>)
    requires SceneOk(sc, mode) && IdOf(sc) !in seen
    ensures SceneCheck(show, sc, sctx, mode, seen).Pass?
  {
    ExpectKeysDict(sc, ["id", "layers", "hotspots"], sctx);
    LayersValid(show, sc.fields["layers"].items, sctx + ".layers");
    HotspotsFromMeans(show, sc.fields["hotspots"].items, 0, sctx, mode);
  }

  lemma {:induction false} ScenesFromMeans(show: Json -> string, scenes: seq<Json>, i: nat, mode: Json, seen: set<string>)
    requires i <= |scenes|
    ensures ScenesFrom(show, scenes, i, mode, seen).Pass? <==>
              (forall k :: i <= k < |scenes| ==> SceneOk(scenes[k], mode)) && FreshFrom(scenes, i, seen)
    decreases |scenes| - i
  {
    if i < |scenes| {
      SceneCheckMeans(show, scenes[i], Index("scenes", i), mode, seen);
      ScenesFromMeans(show, scenes, i + 1, mode, seen + {IdOf(scenes[i])});
      FreshFromStep(scenes, i, seen);
    }
  }

  /** The whole project as `validate` accepts it. */
  predicate ProjectFileOk(data: Json)
  {
    && HasStr(data, "version") && "project" in data.fields && HasList(data, "scenes")
    && ProjectOk(data.fields["project"])
    && var scenes := data.fields["scenes"].items;
    && (forall k :: 0 <= k < |scenes| ==> SceneOk(scenes[k], data.fields["project"].fields["coords_mode"]))
    && UniqueIds(scenes)
  }

  lemma RootHeadMeans(show: Json -> string, data: Json)
    ensures RootHead(show, data).Ok? <==>
              && HasStr(data, "version") && "project" in data.fields && HasList(data, "scenes")
              && ProjectOk(data.fields["project"])
    ensures RootHead(show, data).Ok? ==>
              RootHead(show, data).value == (data.fields["scenes"].items, data.fields["project"].fields["coords_mode"])
  {
    if data.JDict? {
      ExpectKeysDict(data, ["version", "project", "scenes"], "root");
      if "project" in data.fields {
        ValidateProjectMeans(show, data.fields["project"]);
      }
    }
  }

  /** `validate(data)` returns normally iff the project is well-formed:
      string version, valid settings, unique scene ids, valid layers and
      hotspots in every scene under the project's coordinate mode. */
  lemma ValidateSpecMeans(show: Json -> string, data: Json)
    ensures ValidateSpec(show, data).Pass? <==> ProjectFileOk(data)
  {
    RootHeadMeans(show, data);
    if RootHead(show, data).Ok? {
      var (scenes, mode) := RootHead(show, data).value;
      ScenesFromMeans(show, scenes, 0, mode, {});
    }
  }

  /** The root must be a mapping: any other value is rejected, though a list
      or string root fails by a TypeError from the subscript or a
      ValidationError from the key test and a number root by a TypeError
      from `in`. */
  lemma NonDictRootFails(show: Json -> string, data: Json)
    requires !data.JDict?
    ensures ValidateSpec(show, data).Fail?
    ensures !(data.JList? || data.JStr?) ==> ValidateSpec(show, data).failure.Crash?
  {
    RootHeadMeans(show, data);
    assert Contains(data, "version").Err? <==> !(data.JList? || data.JStr?);
  }
}
