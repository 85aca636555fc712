/** `generate_rpy(data)` of the scene generator: from a validated scene
    project to one Ren'Py file per scene plus a shared helper file. The
    project is taken in a typed view of the fields the generator reads;
    values it only prints are carried as their printed text. Coordinates are
    exact reals, converted by RoundHalfEven and Trunc. */
module SceneGenerator {
  import opened Strings
  import opened JsonValue
  import opened Numbers
  import opened GeneratedText

  // ---------------------------------------------------------------------------
  // The typed view of a scene project

  /** A Python dict from strings to strings as its items in insertion
      order: the settings the generator only looks up and prints (each
      value held as its printed text `f"{v}"`), and the file map it
      returns. */
  type TextDict = seq<(string, string)>

  predicate HasKey(d: TextDict, key: string)
  {
    exists k :: 0 <= k < |d| && d[k].0 == key
  }

  /** `d.get(key, default)`: the value of the first item with that key. */
  function DictGet(d: TextDict, key: string, default: string): string
  {
    if d == [] then default
    else if d[0].0 == key then d[0].1
    else DictGet(d[1..], key, default)
  }

  /** The default for a missing key, otherwise the value of an item with
      that key. */
  lemma {:induction false} DictGetMeans(d: TextDict, key: string, default: string)
    ensures !HasKey(d, key) ==> DictGet(d, key, default) == default
    ensures HasKey(d, key) ==> exists k :: 0 <= k < |d| && d[k] == (key, DictGet(d, key, default))
  {
    if d != [] && d[0].0 != key {
      DictGetMeans(d[1..], key, default);
      assert forall k :: 0 <= k < |d| - 1 ==> d[1..][k] == d[k + 1];
      if HasKey(d, key) {
        var k :| 0 <= k < |d| && d[k].0 == key;
        assert d[1..][k - 1].0 == key;
      }
    }
  }

  /** `d[key] = value`: an existing key keeps its place and takes the new
      value, a new key goes last. */
  function DictPut(d: TextDict, key: string, value: string): (r: TextDict)
    ensures |r| == if HasKey(d, key) then |d| else |d| + 1
  {
    if d == [] then [(key, value)]
    else if d[0].0 == key then [(key, value)] + d[1..]
    else
      assert forall k :: 0 <= k < |d| - 1 ==> d[1..][k] == d[k + 1];
      [d[0]] + DictPut(d[1..], key, value)
  }

  datatype Point = Point(x: real, y: real)
  datatype Rect = Rect(x: real, y: real, w: real, h: real)
  datatype Circle = Circle(cx: real, cy: real, r: real)

  /** The points of a polygon: `min(xs)` of the bounding box raises on an
      empty list, and the validator lets only polygons of three points or
      more through. */
  type Points = ps: seq<Point> | |ps| > 0 witness [Point(0.0, 0.0)]

  /** The shape of a hotspot with the key that shape reads. */
  datatype Shape =
    | RectShape(rect: Rect)
    | PolygonShape(points: Points)
    | CircleShape(circle: Circle)

  /** An action by its `type`, with the keys that type reads; `params` and
      `kwargs` are dict items in order (key, repr of the value), `args` the
      reprs of the arguments. */
  datatype Action =
    | GoScene(sceneId: string, transition: Option<TextDict>)
    | JumpLabel(labelName: string)
    | CallLabel(labelName: string)
    | CallScreen(screen: string, params: seq<(string, string)>)
    | CallFunction(name: string, args: seq<string>, kwargs: seq<(string, string)>)
    | OtherAction(atype: string)

  /** `hover_effect`: `highlight` (False when absent) and the printed
      `opacity`, if given. */
  datatype Hover = Hover(highlight: bool, opacity: Option<string>)

  /** A hotspot; an absent or empty tooltip is "". */
  datatype Hotspot = Hotspot(id: string, shape: Shape, tooltip: string, hover: Hover, action: Action)

  datatype Variant = Variant(cond: string, image: string)

  /** `transform["pos"]` with its optional coordinates. */
  datatype Pos = Pos(x: Option<real>, y: Option<real>)

  /** A number of the input together with the text `str` prints for it. */
  datatype PrintedReal = PrintedReal(value: real, text: string)

  /** `layer["transform"]`: the position is computed with, zoom and rotation
      are only printed. The anchor is printed and also fed to `round` for the
      offsets `ax` and `ay`, whose values the generator never uses: an
      anchor coordinate is therefore a number here, with its printed text,
      and that computation always succeeds without changing the output. An
      absent transform has every part None. */
  datatype Transform = Transform(pos: Option<Pos>, anchorX: Option<PrintedReal>, anchorY: Option<PrintedReal>,
                                 zoom: Option<string>, rotate: Option<string>)

  /** A layer. An absent type or visibility condition is "", an absent
      `variants` list is empty; the image, colour and alpha are printed. */
  datatype Layer = Layer(ltype: string, zorder: Option<real>, visIf: string, transform: Transform,
                         image: string, variants: seq<Variant>, color: string, alpha: string,
                         children: seq<Layer>)

  datatype Scene = Scene(id: string, enterTransition: Option<TextDict>, layers: seq<Layer>, hotspots: seq<Hotspot>)

  datatype SceneProject = SceneProject(width: real, height: real, coordsMode: string, scenes: seq<Scene>)

  // ---------------------------------------------------------------------------
  // Coordinates

  /** `_px(val, ref, relative)`: scaled by the reference size and rounded in
      relative mode, rounded as it is in absolute mode. */
  function Px(v: real, ref: int, relative: bool): (r: int)
    ensures relative ==> r as real - 0.5 <= v * ref as real <= r as real + 0.5
    ensures !relative ==> r as real - 0.5 <= v <= r as real + 0.5
  {
    if relative then RoundHalfEven(v * ref as real) else RoundHalfEven(v)
  }

  /** `_coords_rect`: x and w against the reference width, y and h against
      the reference height. */
  function CoordsRect(rect: Rect, refw: int, refh: int, relative: bool): (int, int, int, int)
  {
    (Px(rect.x, refw, relative), Px(rect.y, refh, relative), Px(rect.w, refw, relative), Px(rect.h, refh, relative))
  }

  function MinOf(xs: seq<int>): (m: int)
    requires |xs| > 0
    ensures m in xs && forall k :: 0 <= k < |xs| ==> m <= xs[k]
  {
    if |xs| == 1 then xs[0]
    else
      var rest := MinOf(xs[1..]);
      assert forall k :: 1 <= k < |xs| ==> xs[k] == xs[1..][k - 1];
      if xs[0] <= rest then xs[0] else rest
  }

  function MaxOf(xs: seq<int>): (m: int)
    requires |xs| > 0
    ensures m in xs && forall k :: 0 <= k < |xs| ==> xs[k] <= m
  {
    if |xs| == 1 then xs[0]
    else
      var rest := MaxOf(xs[1..]);
      assert forall k :: 1 <= k < |xs| ==> xs[k] == xs[1..][k - 1];
      if xs[0] >= rest then xs[0] else rest
  }

  function XsOf(points: seq<Point>, refw: int, relative: bool): (r: seq<int>)
    ensures |r| == |points| && forall k :: 0 <= k < |points| ==> r[k] == Px(points[k].x, refw, relative)
  {
    seq(|points|, k requires 0 <= k < |points| => Px(points[k].x, refw, relative))
  }

  function YsOf(points: seq<Point>, refh: int, relative: bool): (r: seq<int>)
    ensures |r| == |points| && forall k :: 0 <= k < |points| ==> r[k] == Px(points[k].y, refh, relative)
  {
    seq(|points|, k requires 0 <= k < |points| => Px(points[k].y, refh, relative))
  }

  /** `_bbox_points`: the smallest box holding every converted point. */
  function BBoxPoints(points: seq<Point>, refw: int, refh: int, relative: bool): (r: (int, int, int, int))
    requires |points| > 0
    ensures r.2 >= 0 && r.3 >= 0
    ensures forall k :: 0 <= k < |points| ==>
              && r.0 <= Px(points[k].x, refw, relative) <= r.0 + r.2
              && r.1 <= Px(points[k].y, refh, relative) <= r.1 + r.3
    ensures exists k :: 0 <= k < |points| && Px(points[k].x, refw, relative) == r.0
    ensures exists k :: 0 <= k < |points| && Px(points[k].x, refw, relative) == r.0 + r.2
    ensures exists k :: 0 <= k < |points| && Px(points[k].y, refh, relative) == r.1
    ensures exists k :: 0 <= k < |points| && Px(points[k].y, refh, relative) == r.1 + r.3
  {
    var xs := XsOf(points, refw, relative);
    var ys := YsOf(points, refh, relative);
    var x := MinOf(xs);
    var y := MinOf(ys);
    (x, y, MaxOf(xs) - x, MaxOf(ys) - y)
  }

  /** `_bbox_circle`: the square around the converted centre whose half side
      is the radius converted against the reference width. */
  function BBoxCircle(c: Circle, refw: int, refh: int, relative: bool): (r: (int, int, int, int))
    ensures r.2 == r.3 && r.2 % 2 == 0
    ensures r.0 + r.2 / 2 == Px(c.cx, refw, relative) && r.1 + r.3 / 2 == Px(c.cy, refh, relative)
    ensures r.2 / 2 == Px(c.r, refw, relative)
  {
    var cx := Px(c.cx, refw, relative);
    var cy := Px(c.cy, refh, relative);
    var rad := if relative then RoundHalfEven(c.r * refw as real) else RoundHalfEven(c.r);
    (cx - rad, cy - rad, 2 * rad, 2 * rad)
  }

  /** The bounding box of a hotspot's shape, as the button draws it. */
  function ShapeBox(s: Shape, refw: int, refh: int, relative: bool): (int, int, int, int)
  {
    match s
    case RectShape(rect) => CoordsRect(rect, refw, refh, relative)
    case PolygonShape(points) => BBoxPoints(points, refw, refh, relative)
    case CircleShape(c) => BBoxCircle(c, refw, refh, relative)
  }

  // ---------------------------------------------------------------------------
  // Transitions and actions

  const SlideNames: seq<string> := ["wipeleft", "wiperight", "wipeup", "wipedown", "slideright", "slideleft"]

  /** The `mapping` table of `_transition_code`. */
  const TransitionClasses: TextDict :=
    [("fade", "Fade"), ("dissolve", "Dissolve"),
     ("wipeleft", "SlideTransition"), ("wiperight", "SlideTransition"),
     ("wipeup", "SlideTransition"), ("wipedown", "SlideTransition"),
     ("slideright", "SlideTransition"), ("slideleft", "SlideTransition")]

  /** The push side of a slide, by the name's suffix. */
  function SlideSide(ttype: string): string
  {
    if EndsWith(ttype, "left") then "left"
    else if EndsWith(ttype, "right") then "right"
    else if EndsWith(ttype, "up") then "top"
    else "bottom"
  }

  /** `_transition_code(t)`: "" for a missing or empty transition; the type
      defaults to dissolve and the duration to 0.2. */
  function TransitionCode(t: Option<TextDict>): string
  {
    if t.None? || |t.value| == 0 then ""
    else
      var ttype := DictGet(t.value, "type", "dissolve");
      var dur := DictGet(t.value, "duration", "0.2");
      if ttype in SlideNames then
        "with SlideTransition(push_side='" + SlideSide(ttype) + "', duration=" + dur + ")"
      else
        var klass := DictGet(TransitionClasses, ttype, "Dissolve");
        "with " + klass + "(" + dur + ")"
  }

  /** `k=v` for dict items given as (key, repr of value). */
  function KwArgs(items: seq<(string, string)>): (r: seq<string>)
    ensures |r| == |items| && forall k :: 0 <= k < |items| ==> r[k] == items[k].0 + "=" + items[k].1
  {
    seq(|items|, k requires 0 <= k < |items| => items[k].0 + "=" + items[k].1)
  }

  /** `[s for s in parts if s]` */
  function NonEmpty(parts: seq<string>): (r: seq<string>)
    ensures forall s :: s in r <==> s in parts && s != ""
  {
    if parts == [] then []
    else (if parts[0] != "" then [parts[0]] else []) + NonEmpty(parts[1..])
  }

  /** `_action_to_code(act)`. The go_scene transition is computed by the
      source and then not used, so it is not read here. */
  function ActionToCode(a: Action): string
  {
    match a
    case GoScene(sceneId, _) => "[SetField(store,'_next_scene','" + sceneId + "'), Jump('scene__internal__go')]"
    case JumpLabel(name) => "Jump('" + name + "')"
    case CallLabel(name) => "Call('" + name + "')"
    case CallScreen(screen, params) =>
      if |params| > 0 then "CallScreen('" + screen + "', " + Join(KwArgs(params), ", ") + ")"
      else "CallScreen('" + screen + "')"
    case CallFunction(name, args, kwargs) =>
      var argsText := Join(args, ", ");
      var kwargsText := Join(KwArgs(kwargs), ", ");
      var joined := Join(NonEmpty([argsText, kwargsText]), ", ");
      "Function(" + name + (if joined != "" then ", " + joined else "") + ")"
    case OtherAction(_) => "NullAction()"
  }

  // ---------------------------------------------------------------------------
  // Hotspot buttons

  /** The outline (and, with highlight, the overlay) drawn on hover. */
  function HoverLines(w: int, h: int, hover: Hover): seq<string>
  {
    (if hover.highlight then [FillLine(w, h, HoverOpacity(hover))] else [])
    + [TopLine(w), BottomLine(w, h), LeftLine(h), RightLine(w, h)]
  }

  /** `hover.get("opacity", 0.12)`, printed. */
  function HoverOpacity(hover: Hover): string
  {
    if hover.opacity.Some? then hover.opacity.value else "0.12"
  }

  /** The semi-transparent overlay and the four sides of the outline. */
  function FillLine(w: int, h: int, opacity: string): string
  {
    "add Solid('#FFFFFF', xysize (" + IntToString(w) + "," + IntToString(h) + ")) alpha " + opacity
  }

  function TopLine(w: int): string
  {
    "add Solid('#FFFFFF', xysize (" + IntToString(w) + ",1))"
  }

  function BottomLine(w: int, h: int): string
  {
    "add Solid('#FFFFFF', xysize (" + IntToString(w) + ",1)) ypos " + IntToString(h - 1)
  }

  function LeftLine(h: int): string
  {
    "add Solid('#FFFFFF', xysize (1," + IntToString(h) + "))"
  }

  function RightLine(w: int, h: int): string
  {
    "add Solid('#FFFFFF', xysize (1," + IntToString(h) + ")) xpos " + IntToString(w - 1)
  }

  function TooltipText(tooltip: string): string
  {
    if tooltip != "" then
      "hovered SetField(store, 'scene_tooltip', _('" + tooltip + "')) unhovered SetField(store, 'scene_tooltip', None)"
    else ""
  }

  function AsLines(texts: seq<string>, depth: nat): (r: seq<Line>)
    ensures |r| == |texts| && forall k :: 0 <= k < |texts| ==> r[k] == Line(depth, texts[k])
  {
    seq(|texts|, k requires 0 <= k < |texts| => Line(depth, texts[k]))
  }

  /** `_hotspot_button(rect, tooltip, hover, action_code, name)`: the button
      template, which opens with an empty line, with the hover lines joined
      and indented by 16 at its end. Its `rstrip()` removes only the
      template's last newline and spaces, since the last outline line ends
      in a digit. */
  function ButtonLines(box: (int, int, int, int), tooltip: string, hover: Hover, actionCode: string): seq<Line>
  {
    var (x, y, w, h) := box;
    [Line(0, ""),
     Line(8, "button:"),
     Line(12, "xpos " + IntToString(x) + " ypos " + IntToString(y) + " xsize " + IntToString(w) + " ysize " + IntToString(h)),
     Line(12, "focus_mask True"),
     Line(12, TooltipText(tooltip)),
     Line(12, "action " + actionCode),
     Line(12, "hovered:"),
     Line(16, "fixed:")]
    + Indent(AsLines(HoverLines(w, h, hover), 0), 16)
  }

  method HotspotButton(box: (int, int, int, int), tooltip: string, hover: Hover, actionCode: string, name: string)
    returns (lines: seq<Line>)
    ensures lines == ButtonLines(box, tooltip, hover, actionCode)
  {
    var (x, y, w, h) := box;
    var hoverLines := BuildHoverLines(w, h, hover);
    var tooltipLines := "";
    if tooltip != "" {
      tooltipLines := "hovered SetField(store, 'scene_tooltip', _('" + tooltip + "')) unhovered SetField(store, 'scene_tooltip', None)";
    }
    assert tooltipLines == TooltipText(tooltip);
    lines := [Line(0, ""),
              Line(8, "button:"),
              Line(12, "xpos " + IntToString(x) + " ypos " + IntToString(y) + " xsize " + IntToString(w) + " ysize " + IntToString(h)),
              Line(12, "focus_mask True"),
              Line(12, tooltipLines),
              Line(12, "action " + actionCode),
              Line(12, "hovered:"),
              Line(16, "fixed:")]
             + Indent(AsLines(hoverLines, 0), 16);
  }

  /** The hover outline of a button, appended line by line. */
  method BuildHoverLines(w: int, h: int, hover: Hover) returns (hoverLines: seq<string>)
    ensures hoverLines == HoverLines(w, h, hover)
  {
    hoverLines := [];
    if hover.highlight {
      hoverLines := hoverLines + [FillLine(w, h, HoverOpacity(hover))];
    }
    hoverLines := hoverLines + [TopLine(w)];
    hoverLines := hoverLines + [BottomLine(w, h)];
    hoverLines := hoverLines + [LeftLine(h)];
    hoverLines := hoverLines + [RightLine(w, h)];
  }

  /** The button of a hotspot, indented into the screen. */
  function HotspotLines(h: Hotspot, refw: int, refh: int, relative: bool): seq<Line>
  {
    Indent(ButtonLines(ShapeBox(h.shape, refw, refh, relative), h.tooltip, h.hover, ActionToCode(h.action)), 4)
  }

  // ---------------------------------------------------------------------------
  // Layers

  /** The position of a layer, `int(round(...))` of pos.x or pos.y: a
      missing `pos` is {x: 0.5, y: 0.5}; a missing coordinate of a given
      `pos` is 0.5 in relative mode and 0 in absolute mode. */
  function PosCoord(pos: Option<Pos>, useX: bool, ref: int, relative: bool): int
  {
    var p := if pos.Some? then pos.value else Pos(Some(0.5), Some(0.5));
    var c := if useX then p.x else p.y;
    if relative then RoundHalfEven((if c.Some? then c.value else 0.5) * ref as real)
    else RoundHalfEven(if c.Some? then c.value else 0.0)
  }

  function OrText(o: Option<string>, default: string): string
  {
    if o.Some? then o.value else default
  }

  /** `anchor.get(axis, 0.5)` as the f-string prints it. */
  function AnchorText(a: Option<PrintedReal>): string
  {
    if a.Some? then a.value.text else "0.5"
  }

  /** The `at Transform(...)` clause of a non-group layer. */
  function TransformText(tx: Transform, refw: int, refh: int, relative: bool): string
  {
    "at Transform(xpos=" + IntToString(PosCoord(tx.pos, true, refw, relative))
    + ", ypos=" + IntToString(PosCoord(tx.pos, false, refh, relative))
    + ", anchor=( " + AnchorText(tx.anchorX) + ", " + AnchorText(tx.anchorY)
    + " ), zoom=" + OrText(tx.zoom, "1.0") + ", rotate=" + OrText(tx.rotate, "0") + ")"
  }

  function VariantLine(v: Variant): string
  {
    "\"" + v.cond + "\", \"" + v.image + "\","
  }

  /** The `add` statement of a non-group layer: a ConditionSwitch over the
      variants with the base image last, the image, a Solid of the
      reference size, or nothing for another type. */
  function AddLines(l: Layer, refw: int, refh: int): (r: seq<Line>)
    ensures |r| > 0 && r[0].depth == 0
  {
    if l.ltype == "image" then
      if |l.variants| > 0 then
        [Line(0, "add ConditionSwitch(")]
        + seq(|l.variants|, k requires 0 <= k < |l.variants| => Line(4, VariantLine(l.variants[k])))
        + [Line(4, "True, \"" + l.image + "\")")]
      else [Line(0, "add \"" + l.image + "\"")]
    else if l.ltype == "color" then
      [Line(0, "add Solid(\"" + l.color + "\", xysize (" + IntToString(refw) + "," + IntToString(refh) + ")) alpha " + l.alpha)]
    else [Line(0, "")]
  }

  /** `f"if {vis_if}:\n    {body}"`: the condition, then the body with only
      its first line indented. */
  function VisWrap(vis: string, body: seq<Line>): seq<Line>
    requires |body| > 0
  {
    if vis != "" then [Line(0, "if " + vis + ":"), Line(body[0].depth + 4, body[0].text)] + body[1..]
    else body
  }

  /** The lines of a group: `fixed:` (under the visibility condition, if
      any) and then each child's lines indented, in the listed order. */
  function GroupHead(vis: string): seq<Line>
  {
    if vis != "" then [Line(0, "if " + vis + ":"), Line(4, "fixed:")] else [Line(0, "fixed:")]
  }

  /** `_layer_to_code(layer, refw, refh, relative)`: a non-group layer's
      code ends with a newline, the empty last line here. */
  function LayerCode(l: Layer, refw: int, refh: int, relative: bool): (r: seq<Line>)
    ensures |r| > 0
    decreases l, 1
  {
    if l.ltype == "group" then
      GroupHead(l.visIf) + Flatten(ChildParts(l.children, refw, refh, relative))
    else
      var add := AddLines(l, refw, refh);
      var last := add[|add| - 1];
      var body := add[..|add| - 1] + [Line(last.depth, last.text + " " + TransformText(l.transform, refw, refh, relative))];
      VisWrap(l.visIf, body + [Line(0, "")])
  }

  /** Each child's lines, indented by four. */
  function ChildParts(children: seq<Layer>, refw: int, refh: int, relative: bool): (r: seq<seq<Line>>)
    ensures |r| == |children|
    decreases children, 0
  {
    seq(|children|, k requires 0 <= k < |children| => Indent(LayerCode(children[k], refw, refh, relative), 4))
  }

  /** `_layer_to_code` with its loops: the variants of an image layer and
      the children of a group. */
  method LayerToCode(l: Layer, refw: int, refh: int, relative: bool) returns (code: seq<Line>)
    ensures code == LayerCode(l, refw, refh, relative)
    decreases l, 1
  {
    if l.ltype == "group" {
      code := GroupToCode(l, refw, refh, relative);
      return;
    }
    var add := BuildAddLines(l, refw, refh);
    var tr := TransformText(l.transform, refw, refh, relative);
    var last := add[|add| - 1];
    var body := add[..|add| - 1] + [Line(last.depth, last.text + " " + tr)];
    code := VisWrap(l.visIf, body + [Line(0, "")]);
  }

  /** The group branch: `fixed:` and then each child's code, indented. */
  method GroupToCode(l: Layer, refw: int, refh: int, relative: bool) returns (code: seq<Line>)
    requires l.ltype == "group"
    ensures code == GroupHead(l.visIf) + Flatten(ChildParts(l.children, refw, refh, relative))
    decreases l, 0
  {
    var body := [];
    ghost var parts := ChildParts(l.children, refw, refh, relative);
    for i := 0 to |l.children|
      invariant body == Flatten(parts[..i])
    {
      var child := LayerToCode(l.children[i], refw, refh, relative);
      FlattenSnoc(parts, i);
      assert parts[i] == Indent(child, 4);
      body := body + Indent(child, 4);
    }
    assert parts[..|l.children|] == parts;
    code := GroupHead(l.visIf) + body;
  }

  /** The `add` statement built line by line, over the variants. */
  method BuildAddLines(l: Layer, refw: int, refh: int) returns (add: seq<Line>)
    ensures add == AddLines(l, refw, refh)
  {
    if l.ltype == "image" {
      if |l.variants| > 0 {
        add := [Line(0, "add ConditionSwitch(")];
        for j := 0 to |l.variants|
          invariant add == [Line(0, "add ConditionSwitch(")]
                           + seq(j, k requires 0 <= k < j => Line(4, VariantLine(l.variants[k])))
        {
          add := add + [Line(4, VariantLine(l.variants[j]))];
        }
        add := add + [Line(4, "True, \"" + l.image + "\")")];
      } else {
        add := [Line(0, "add \"" + l.image + "\"")];
      }
    } else if l.ltype == "color" {
      add := [Line(0, "add Solid(\"" + l.color + "\", xysize (" + IntToString(refw) + "," + IntToString(refh) + ")) alpha " + l.alpha)];
    } else {
      add := [Line(0, "")];
    }
  }

  // ---------------------------------------------------------------------------
  // Layer order and the background

  /** The sort key `int(L.get("zorder", 0))`. */
  function ZKey(l: Layer): int
  {
    if l.zorder.Some? then Trunc(l.zorder.value) else 0
  }

  predicate ZSorted(ls: seq<Layer>)
  {
    forall i, j :: 0 <= i < j < |ls| ==> ZKey(ls[i]) <= ZKey(ls[j])
  }

  /** Insert l after every layer whose key is not greater: the insertion
      step of a stable sort. */
  function InsertZ(l: Layer, ls: seq<Layer>): seq<Layer>
  {
    if ls == [] then [l]
    else if ZKey(l) < ZKey(ls[0]) then [l] + ls
    else [ls[0]] + InsertZ(l, ls[1..])
  }

  /** `sorted(layers, key=lambda L: int(L.get("zorder", 0)))`: each layer
      inserted in turn, so equal keys keep their listed order. */
  function SortZ(ls: seq<Layer>): seq<Layer>
  {
    if ls == [] then [] else InsertZ(ls[|ls| - 1], SortZ(ls[..|ls| - 1]))
  }

  /** Inserting into a sorted sequence keeps it sorted and adds exactly l. */
  lemma {:induction false} InsertZSorted(l: Layer, ls: seq<Layer>)
    requires ZSorted(ls)
    ensures ZSorted(InsertZ(l, ls))
    ensures multiset(InsertZ(l, ls)) == multiset(ls) + multiset{l}
  {
    if ls == [] {
    } else if ZKey(l) < ZKey(ls[0]) {
      ConsSorted(l, ls);
    } else {
      var rest := InsertZ(l, ls[1..]);
      InsertZSorted(l, ls[1..]);
      assert ls == [ls[0]] + ls[1..];
      KeyBelowAll(ls[0], l, ls[1..], rest);
      ConsSorted(ls[0], rest);
    }
  }

  /** A layer whose key is not above any key of a sorted sequence can go
      in front of it. */
  lemma ConsSorted(h: Layer, rest: seq<Layer>)
    requires ZSorted(rest)
    requires rest != [] ==> ZKey(h) <= ZKey(rest[0])
    ensures ZSorted([h] + rest)
  {
    var r := [h] + rest;
    forall i, j | 0 <= i < j < |r| ensures ZKey(r[i]) <= ZKey(r[j]) {
      assert r[j] == rest[j - 1];
      if i > 0 {
        assert r[i] == rest[i - 1];
      }
    }
  }

  /** A key not above l nor above any layer of tail is not above any layer
      of a permutation of tail and l. */
  lemma KeyBelowAll(h: Layer, l: Layer, tail: seq<Layer>, rest: seq<Layer>)
    requires multiset(rest) == multiset(tail) + multiset{l}
    requires ZKey(h) <= ZKey(l) && forall k :: 0 <= k < |tail| ==> ZKey(h) <= ZKey(tail[k])
    ensures forall k :: 0 <= k < |rest| ==> ZKey(h) <= ZKey(rest[k])
    ensures rest != [] ==> ZKey(h) <= ZKey(rest[0])
  {
    forall k | 0 <= k < |rest| ensures ZKey(h) <= ZKey(rest[k]) {
      assert rest[k] in multiset(rest);
      if rest[k] != l {
        assert rest[k] in tail;
      }
    }
  }

  /** The sort returns the layers in ascending key order, each layer as
      many times as it was given. */
  lemma {:induction false} SortZSorted(ls: seq<Layer>)
    ensures ZSorted(SortZ(ls))
    ensures multiset(SortZ(ls)) == multiset(ls)
    decreases |ls|
  {
    if ls != [] {
      SortZSorted(ls[..|ls| - 1]);
      InsertZSorted(ls[|ls| - 1], SortZ(ls[..|ls| - 1]));
      assert ls == ls[..|ls| - 1] + [ls[|ls| - 1]];
    }
  }

  /** The image of the first image layer, if there is one. */
  function FirstImage(ls: seq<Layer>): Option<string>
  {
    if ls == [] then None
    else if ls[0].ltype == "image" then Some(ls[0].image)
    else FirstImage(ls[1..])
  }

  /** The background search of `generate_rpy`: the first image layer, with
      `break`. */
  method FindBackground(sorted: seq<Layer>) returns (bg: Option<string>)
    ensures bg == FirstImage(sorted)
  {
    bg := None;
    var i := 0;
    while i < |sorted|
      invariant 0 <= i <= |sorted|
      invariant FirstImage(sorted) == FirstImage(sorted[i..])
    {
      assert sorted[i..][1..] == sorted[i + 1..];
      if sorted[i].ltype == "image" {
        bg := Some(sorted[i].image);
        break;
      }
      i := i + 1;
    }
  }

  // ---------------------------------------------------------------------------
  // Files

  const Banner: string := "# AUTOGENERATED \U{2013} DO NOT EDIT"

  /** The key of the helper file and of each scene's file. */
  const HelpersPath: string := "_gen/scene_helpers.rpy"

  function SceneFileName(sid: string): string
  {
    "_gen/scene_" + sid + ".rpy"
  }

  /** The helper file: the init block, the tooltip overlay screen and the
      `scene__internal__go` label that go_scene actions jump to. */
  function HelpersText(): string
  {
    Join(HelpersLines, "\n") + "\n"
  }

  const HelpersLines: seq<string> :=
    [Banner,
     "init python:",
     "    scene_tooltip = None",
     "    _next_scene = None",
     "screen scene_tooltip_overlay():",
     "    if scene_tooltip:",
     "        frame:",
     "            align (0.98, 0.06)",
     "            padding (8,6)",
     "            text scene_tooltip",
     "label scene__internal__go:",
     "    # Internal redirect used by go_scene actions",
     "    if _next_scene is None:",
     "        return",
     "    $ _sc = _next_scene",
     "    $ _next_scene = None",
     "    jump expression f\"show_{_sc}\""]

  function ScreenHead(sid: string): seq<Line>
  {
    [Line(0, Banner), Line(0, "screen scene_" + sid + "():"), Line(4, "zorder 10"), Line(4, "fixed:")]
  }

  /** The blocks of the layers (in z-order) and of the hotspots, as indented
      into the screen. */
  function LayerParts(sorted: seq<Layer>, refw: int, refh: int, relative: bool): (r: seq<seq<Line>>)
    ensures |r| == |sorted|
  {
    seq(|sorted|, k requires 0 <= k < |sorted| => Indent(LayerCode(sorted[k], refw, refh, relative), 8))
  }

  function HotspotParts(hs: seq<Hotspot>, refw: int, refh: int, relative: bool): (r: seq<seq<Line>>)
    ensures |r| == |hs|
  {
    seq(|hs|, k requires 0 <= k < |hs| => HotspotLines(hs[k], refw, refh, relative))
  }

  /** The scene's screen: header, layers in z-order, hotspots in order. */
  function ScreenLines(sc: Scene, refw: int, refh: int, relative: bool): seq<Line>
  {
    Screen(sc.id, LayerParts(SortZ(sc.layers), refw, refh, relative), HotspotParts(sc.hotspots, refw, refh, relative))
  }

  /** A screen around given layer and hotspot blocks. */
  function Screen(sid: string, layerBlocks: seq<seq<Line>>, hotspotBlocks: seq<seq<Line>>): seq<Line>
  {
    ScreenHead(sid) + Flatten(layerBlocks) + [Line(4, "# Hotspots")] + Flatten(hotspotBlocks) + [Line(0, "")]
  }

  /** The line that sets the background: the first image layer in z-order
      with the scene's enter transition, or a comment when there is none
      (or its image is ""). */
  function SceneLine(bg: Option<string>, enter: string): string
  {
    if bg.Some? && bg.value != "" then RStrip("    scene " + bg.value + " " + enter)
    else "    # scene has no base image layer"
  }

  /** The `show_<id>` label. */
  function LabelLines(sid: string, bg: Option<string>, enter: string): seq<string>
  {
    ["label show_" + sid + ":", SceneLine(bg, enter),
     "    show screen scene_" + sid, "    show screen scene_tooltip_overlay",
     "    $ renpy.pause(0)  # allow interaction", "    return"]
  }

  function SceneFile(sc: Scene, refw: int, refh: int, relative: bool): string
  {
    var sorted := SortZ(sc.layers);
    Render(ScreenLines(sc, refw, refh, relative)) + "\n\n"
    + Join(LabelLines(sc.id, FirstImage(sorted), TransitionCode(sc.enterTransition)), "\n") + "\n"
  }

  function RefW(p: SceneProject): int { Trunc(p.width) }
  function RefH(p: SceneProject): int { Trunc(p.height) }
  predicate Relative(p: SceneProject) { p.coordsMode == "relative" }

  /** Each scene's file name and text, in the listed order. */
  function SceneNames(p: SceneProject): (r: seq<string>)
    ensures |r| == |p.scenes|
  {
    seq(|p.scenes|, k requires 0 <= k < |p.scenes| => SceneFileName(p.scenes[k].id))
  }

  function SceneTexts(p: SceneProject): (r: seq<string>)
    ensures |r| == |p.scenes|
  {
    TextsOf(p.scenes, RefW(p), RefH(p), Relative(p))
  }

  function TextsOf(scenes: seq<Scene>, refw: int, refh: int, relative: bool): (r: seq<string>)
    ensures |r| == |scenes|
  {
    if scenes == [] then []
    else TextsOf(scenes[..|scenes| - 1], refw, refh, relative) + [SceneFile(scenes[|scenes| - 1], refw, refh, relative)]
  }

  /** The i-th of the texts is the i-th scene's file. */
  lemma {:induction false} TextsOfAt(scenes: seq<Scene>, refw: int, refh: int, relative: bool, i: nat)
    requires i < |scenes|
    ensures TextsOf(scenes, refw, refh, relative)[i] == SceneFile(scenes[i], refw, refh, relative)
    decreases |scenes|
  {
    if i < |scenes| - 1 {
      TextsOfAt(scenes[..|scenes| - 1], refw, refh, relative, i);
    }
  }

  /** The files after the first n scenes: the initial files, then each
      scene's file under its name, a later scene replacing an earlier file
      of the same name. */
  function FilesAfter(init: TextDict, names: seq<string>, texts: seq<string>, n: nat): TextDict
    requires n <= |names| == |texts|
  {
    if n == 0 then init
    else DictPut(FilesAfter(init, names, texts, n - 1), names[n - 1], texts[n - 1])
  }

  /** The helper file alone, which the loop over the scenes starts from. */
  function HelperFiles(): TextDict
  {
    [(HelpersPath, HelpersText())]
  }

  /** `generate_rpy(data)` */
  function GenerateSpec(p: SceneProject): TextDict
  {
    FilesAfter(HelperFiles(), SceneNames(p), SceneTexts(p), |p.scenes|)
  }

  /** The layers of a screen, appended block by block in z-order. */
  method BuildLayerBlocks(sorted: seq<Layer>, refw: int, refh: int, relative: bool) returns (body: seq<Line>)
    ensures body == Flatten(LayerParts(sorted, refw, refh, relative))
  {
    body := [];
    ghost var parts := LayerParts(sorted, refw, refh, relative);
    for k := 0 to |sorted|
      invariant body == Flatten(parts[..k])
    {
      var code := LayerToCode(sorted[k], refw, refh, relative);
      FlattenSnoc(parts, k);
      assert parts[k] == Indent(code, 8);
      body := body + Indent(code, 8);
    }
    assert parts[..|sorted|] == parts;
  }

  /** The hotspot buttons of a screen, appended one by one in order. */
  method BuildHotspotBlocks(hs: seq<Hotspot>, refw: int, refh: int, relative: bool) returns (body: seq<Line>)
    ensures body == Flatten(HotspotParts(hs, refw, refh, relative))
  {
    body := [];
    ghost var parts := HotspotParts(hs, refw, refh, relative);
    for j := 0 to |hs|
      invariant body == Flatten(parts[..j])
    {
      var block := HotspotBlock(hs[j], refw, refh, relative);
      HotspotStep(hs, refw, refh, relative, j, body, block);
      body := body + block;
    }
    assert parts[..|hs|] == parts;
  }

  lemma HotspotStep(hs: seq<Hotspot>, refw: int, refh: int, relative: bool, j: nat, body: seq<Line>, block: seq<Line>)
    requires j < |hs|
    requires body == Flatten(HotspotParts(hs, refw, refh, relative)[..j])
    requires block == HotspotLines(hs[j], refw, refh, relative)
    ensures body + block == Flatten(HotspotParts(hs, refw, refh, relative)[..j + 1])
  {
    FlattenSnoc(HotspotParts(hs, refw, refh, relative), j);
  }

  /** One hotspot: its action code, its box, its button, indented by four. */
  method HotspotBlock(h: Hotspot, refw: int, refh: int, relative: bool) returns (block: seq<Line>)
    ensures block == HotspotLines(h, refw, refh, relative)
  {
    var act := ActionToCode(h.action);
    var box := ShapeBox(h.shape, refw, refh, relative);
    var btn := HotspotButton(box, h.tooltip, h.hover, act, h.id);
    block := Indent(btn, 4);
  }

  /** The screen of one scene: header, the layers, the hotspots. */
  method BuildScreen(sc: Scene, sorted: seq<Layer>, refw: int, refh: int, relative: bool) returns (lines: seq<Line>)
    requires sorted == SortZ(sc.layers)
    ensures lines == ScreenLines(sc, refw, refh, relative)
  {
    var layerLines := BuildLayerBlocks(sorted, refw, refh, relative);
    var hotspotLines := BuildHotspotBlocks(sc.hotspots, refw, refh, relative);
    lines := ScreenHead(sc.id) + layerLines + [Line(4, "# Hotspots")] + hotspotLines + [Line(0, "")];
  }

  /** The `show_<id>` label, built by appending. */
  method BuildLabel(sid: string, bg: Option<string>, enter: string) returns (lbl: seq<string>)
    ensures lbl == LabelLines(sid, bg, enter)
  {
    lbl := ["label show_" + sid + ":"];
    if bg.Some? && bg.value != "" {
      lbl := lbl + [RStrip("    scene " + bg.value + " " + enter)];
    } else {
      lbl := lbl + ["    # scene has no base image layer"];
    }
    lbl := lbl + ["    show screen scene_" + sid];
    lbl := lbl + ["    show screen scene_tooltip_overlay"];
    lbl := lbl + ["    $ renpy.pause(0)  # allow interaction"];
    lbl := lbl + ["    return"];
  }

  /** The text of one scene's file: its screen, a blank line and its
      label. */
  method BuildSceneFile(sc: Scene, refw: int, refh: int, relative: bool) returns (text: string)
    ensures text == SceneFile(sc, refw, refh, relative)
  {
    var enter := TransitionCode(sc.enterTransition);
    var sorted := SortZ(sc.layers);
    var lines := BuildScreen(sc, sorted, refw, refh, relative);
    var bg := FindBackground(sorted);
    var lbl := BuildLabel(sc.id, bg, enter);
    text := Render(lines) + "\n\n" + Join(lbl, "\n") + "\n";
  }

  /** texts holds the file of every scene, in order. The trigger keeps the
      file texts folded until a scene's file is at hand. */
  predicate RenderedAll(p: SceneProject, texts: seq<string>)
  {
    && |texts| == |p.scenes|
    && forall k {:trigger SceneFile(p.scenes[k], RefW(p), RefH(p), Relative(p))} :: 0 <= k < |texts| ==>
         texts[k] == SceneFile(p.scenes[k], RefW(p), RefH(p), Relative(p))
  }

  lemma TextsRendered(p: SceneProject)
    ensures RenderedAll(p, SceneTexts(p))
  {
    forall k | 0 <= k < |p.scenes|
      ensures SceneTexts(p)[k] == SceneFile(p.scenes[k], RefW(p), RefH(p), Relative(p))
    {
      TextsOfAt(p.scenes, RefW(p), RefH(p), Relative(p), k);
    }
  }

  /** The file of the i-th scene, as the loop of `generate_rpy` builds it. */
  method SceneFileAt(p: SceneProject, i: nat, ghost texts: seq<string>) returns (text: string)
    requires RenderedAll(p, texts) && i < |p.scenes|
    ensures text == texts[i]
  {
    text := BuildSceneFile(p.scenes[i], RefW(p), RefH(p), Relative(p));
  }

  /** The loop of `generate_rpy` over the scenes, writing each scene's
      file into the map. */
  method AddSceneFiles(p: SceneProject, init: TextDict, ghost texts: seq<string>) returns (files: TextDict)
    requires RenderedAll(p, texts)
    ensures files == FilesAfter(init, SceneNames(p), texts, |p.scenes|)
  {
    ghost var names := SceneNames(p);
    files := init;
    for i := 0 to |p.scenes|
      invariant files == FilesAfter(init, names, texts, i)
    {
      var text := SceneFileAt(p, i, texts);
      var name := SceneFileName(p.scenes[i].id);
      assert names[i] == name;
      files := DictPut(files, name, text);
    }
  }

  /** `generate_rpy`: the helper file, then the file of every scene. */
  method GenerateRpy(p: SceneProject) returns (files: TextDict)
    ensures files == GenerateSpec(p)
  {
    TextsRendered(p);
    files := [(HelpersPath, HelpersText())];
    files := AddSceneFiles(p, files, SceneTexts(p));
  }
}
