/** What the scene generator promises: the coordinate conversions, the
    transition and action texts, the stable z-order, the background choice,
    the placement of each block in the screen and the keys and texts of the
    returned file map. */
module SceneGeneratorProps {
  import opened Strings
  import opened JsonValue
  import opened Numbers
  import opened GeneratedText
  import opened SceneGenerator

  // ---------------------------------------------------------------------------
  // Coordinates

  /** In absolute mode an integer coordinate comes out unchanged, whatever
      the reference size. */
  lemma PxAbsoluteInt(n: int, ref: int)
    ensures Px(n as real, ref, false) == n
  {
    RoundInt(n);
  }

  /** In relative mode a coordinate is the rounded product with the
      reference size: exact when the product is an integer, halves going to
      the even neighbour. */
  lemma PxRelativeExact(v: real, ref: int, n: int)
    requires v * ref as real == n as real
    ensures Px(v, ref, true) == n
  {
    RoundInt(n);
  }

  /** Pins the tie-break of a relative coordinate: an exact product is kept,
      and a product ending in .5 rounds to the even pixel (2.5 to 2, 3.5 to 4). */
  lemma PxRelativeExamples()
    ensures Px(0.5, 1920, true) == 960 && Px(0.25, 1080, true) == 270
    ensures Px(0.5, 5, true) == 2 && Px(0.5, 7, true) == 4
  {
    PxRelativeExact(0.5, 1920, 960);
    PxRelativeExact(0.25, 1080, 270);
    RoundHalfEvenUnique(2.5, 2);
    RoundHalfEvenUnique(3.5, 4);
  }

  /** Pins the position defaults: without `pos` a layer sits at 0.5 of the
      reference in relative mode, and at round(0.5) = 0 in absolute mode,
      where a given `pos` missing that coordinate also gives 0. */
  lemma PosCoordDefaults(useX: bool, ref: int)
    ensures PosCoord(None, useX, ref, true) == RoundHalfEven(0.5 * ref as real)
    ensures PosCoord(None, useX, ref, false) == 0
    ensures PosCoord(Some(Pos(None, None)), useX, ref, false) == 0
  {
    RoundHalfEvenUnique(0.5, 0);
    RoundInt(0);
  }

  /** x and w are scaled by the reference width only, y and h by the
      reference height only. */
  lemma CoordsRectAxes(rect: Rect, refw: int, refh: int, refw2: int, refh2: int, relative: bool)
    ensures CoordsRect(rect, refw, refh, relative).0 == CoordsRect(rect, refw, refh2, relative).0
    ensures CoordsRect(rect, refw, refh, relative).2 == CoordsRect(rect, refw, refh2, relative).2
    ensures CoordsRect(rect, refw, refh, relative).1 == CoordsRect(rect, refw2, refh, relative).1
    ensures CoordsRect(rect, refw, refh, relative).3 == CoordsRect(rect, refw2, refh, relative).3
  {
  }

  /** In absolute mode the reference size plays no part at all. */
  lemma CoordsRectAbsolute(rect: Rect, refw: int, refh: int, refw2: int, refh2: int)
    ensures CoordsRect(rect, refw, refh, false) == CoordsRect(rect, refw2, refh2, false)
  {
  }

  /** In relative mode each part is within half a pixel of the scaled
      value. */
  lemma CoordsRectRelative(rect: Rect, refw: int, refh: int)
    ensures var (x, y, w, h) := CoordsRect(rect, refw, refh, true);
            && x as real - 0.5 <= rect.x * refw as real <= x as real + 0.5
            && y as real - 0.5 <= rect.y * refh as real <= y as real + 0.5
            && w as real - 0.5 <= rect.w * refw as real <= w as real + 0.5
            && h as real - 0.5 <= rect.h * refh as real <= h as real + 0.5
  {
  }

  /** A box holds every converted point of a polygon. */
  predicate BoxHolds(box: (int, int, int, int), points: seq<Point>, refw: int, refh: int, relative: bool)
  {
    forall k :: 0 <= k < |points| ==>
      && box.0 <= Px(points[k].x, refw, relative) <= box.0 + box.2
      && box.1 <= Px(points[k].y, refh, relative) <= box.1 + box.3
  }

  /** The bounding box of a polygon holds its points, and every box that
      holds them holds the bounding box: it is the smallest. */
  lemma BBoxPointsSmallest(points: seq<Point>, refw: int, refh: int, relative: bool, box: (int, int, int, int))
    requires |points| > 0
    ensures BoxHolds(BBoxPoints(points, refw, refh, relative), points, refw, refh, relative)
    ensures BoxHolds(box, points, refw, refh, relative) ==>
              var r := BBoxPoints(points, refw, refh, relative);
              box.0 <= r.0 && r.0 + r.2 <= box.0 + box.2 && box.1 <= r.1 && r.1 + r.3 <= box.1 + box.3
  {
    var r := BBoxPoints(points, refw, refh, relative);
    if BoxHolds(box, points, refw, refh, relative) {
      var a :| 0 <= a < |points| && Px(points[a].x, refw, relative) == r.0;
      var b :| 0 <= b < |points| && Px(points[b].x, refw, relative) == r.0 + r.2;
      var c :| 0 <= c < |points| && Px(points[c].y, refh, relative) == r.1;
      var d :| 0 <= d < |points| && Px(points[d].y, refh, relative) == r.1 + r.3;
    }
  }

  /** A polygon of one repeated point has an empty box at that point. */
  lemma BBoxPointsSame(p: Point, points: seq<Point>, refw: int, refh: int, relative: bool)
    requires |points| > 0 && forall k :: 0 <= k < |points| ==> points[k] == p
    ensures BBoxPoints(points, refw, refh, relative) == (Px(p.x, refw, relative), Px(p.y, refh, relative), 0, 0)
  {
  }

  /** With integer centre and radius in absolute mode the circle's box is
      `(cx - r, cy - r, 2r, 2r)`. */
  lemma BBoxCircleAbsolute(cx: int, cy: int, r: int, refw: int, refh: int)
    ensures BBoxCircle(Circle(cx as real, cy as real, r as real), refw, refh, false) == (cx - r, cy - r, 2 * r, 2 * r)
  {
    PxAbsoluteInt(cx, refw);
    PxAbsoluteInt(cy, refh);
    PxAbsoluteInt(r, refw);
  }

  /** The radius is scaled by the reference width, never by the height. */
  lemma BBoxCircleRadiusByWidth(c: Circle, refw: int, refh: int, refh2: int, relative: bool)
    ensures BBoxCircle(c, refw, refh, relative).2 == BBoxCircle(c, refw, refh2, relative).2
  {
  }

  // ---------------------------------------------------------------------------
  // Dict lookups

  /** The keys of a dict. */
  function Keys(d: TextDict): (r: set<string>)
    ensures forall key :: key in r <==> HasKey(d, key)
  {
    set k | 0 <= k < |d| :: d[k].0
  }

  /** No key appears twice. */
  predicate DistinctKeys(d: TextDict)
  {
    forall i, j :: 0 <= i < j < |d| ==> d[i].0 != d[j].0
  }

  /** With distinct keys, the value of a key is the value of its item. */
  lemma {:induction false} DictGetItem(d: TextDict, k: nat, default: string)
    requires DistinctKeys(d) && k < |d|
    ensures DictGet(d, d[k].0, default) == d[k].1
    decreases |d|
  {
    if k > 0 {
      assert d[0].0 != d[k].0;
      assert DistinctKeys(d[1..]) && d[1..][k - 1] == d[k];
      DictGetItem(d[1..], k - 1, default);
    }
  }

  /** After `d[key] = value` the key holds the value and every other key
      keeps its value. */
  lemma {:induction false} DictPutGet(d: TextDict, key: string, value: string)
    ensures DictGet(DictPut(d, key, value), key, "") == value
    ensures forall other, default :: other != key ==>
              DictGet(DictPut(d, key, value), other, default) == DictGet(d, other, default)
    decreases |d|
  {
    if d != [] && d[0].0 != key {
      DictPutGet(d[1..], key, value);
      assert DictPut(d, key, value)[1..] == DictPut(d[1..], key, value);
    } else if d != [] {
      assert DictPut(d, key, value)[1..] == d[1..];
    }
  }

  /** The first item stays first: the helper file keeps its place. */
  lemma DictPutFirst(d: TextDict, key: string, value: string)
    requires d != []
    ensures DictPut(d, key, value)[0].0 == d[0].0
  {
  }

  /** The keys after `d[key] = value` are the old keys and the new one. */
  lemma {:induction false} DictPutKeys(d: TextDict, key: string, value: string)
    ensures Keys(DictPut(d, key, value)) == Keys(d) + {key}
    decreases |d|
  {
    if d != [] && d[0].0 != key {
      var r := DictPut(d, key, value);
      var rest := DictPut(d[1..], key, value);
      DictPutKeys(d[1..], key, value);
      assert r[1..] == rest;
      KeysCons(d);
      KeysCons(r);
    } else if d != [] {
      var r := DictPut(d, key, value);
      assert r[0].0 == key == d[0].0 && r[1..] == d[1..];
      KeysCons(d);
      KeysCons(r);
    } else {
      assert DictPut(d, key, value)[0].0 == key;
    }
  }

  lemma KeysCons(d: TextDict)
    requires d != []
    ensures Keys(d) == {d[0].0} + Keys(d[1..])
  {
    forall x | x in Keys(d) ensures x in {d[0].0} + Keys(d[1..]) {
      var k :| 0 <= k < |d| && d[k].0 == x;
      if k > 0 { assert d[1..][k - 1].0 == x; }
    }
    forall x | x in Keys(d[1..]) ensures x in Keys(d) {
      var k :| 0 <= k < |d| - 1 && d[1..][k].0 == x;
      assert d[k + 1].0 == x;
    }
  }

  /** Distinct keys stay distinct. */
  lemma {:induction false} DictPutDistinct(d: TextDict, key: string, value: string)
    requires DistinctKeys(d)
    ensures DistinctKeys(DictPut(d, key, value))
    decreases |d|
  {
    if d != [] {
      var r := DictPut(d, key, value);
      KeysCons(r);
      if d[0].0 != key {
        var rest := DictPut(d[1..], key, value);
        assert DistinctKeys(d[1..]);
        DictPutDistinct(d[1..], key, value);
        DictPutKeys(d[1..], key, value);
        assert r[1..] == rest;
        assert d[0].0 !in Keys(d[1..]) by {
          forall k | 0 <= k < |d| - 1 ensures d[1..][k].0 != d[0].0 {
            assert d[1..][k] == d[k + 1];
          }
        }
        ConsDistinct(r);
      } else {
        assert r[1..] == d[1..];
        KeysCons(d);
        assert d[0].0 !in Keys(d[1..]) by {
          forall k | 0 <= k < |d| - 1 ensures d[1..][k].0 != d[0].0 {
            assert d[1..][k] == d[k + 1];
          }
        }
        assert DistinctKeys(d[1..]);
        ConsDistinct(r);
      }
    }
  }

  /** Distinct keys of a dict whose first key is not among the rest and
      whose rest has distinct keys. */
  lemma ConsDistinct(d: TextDict)
    requires d != [] && d[0].0 !in Keys(d[1..]) && DistinctKeys(d[1..])
    ensures DistinctKeys(d)
  {
    forall i, j | 0 <= i < j < |d| ensures d[i].0 != d[j].0 {
      assert d[j] == d[1..][j - 1];
      if i > 0 {
        assert d[i] == d[1..][i - 1];
      }
    }
  }

  // ---------------------------------------------------------------------------
  // Transitions

  /** A transition writes nothing exactly when it is missing or empty. */
  lemma TransitionAbsent(t: Option<TextDict>)
    ensures TransitionCode(t) == "" <==> t.None? || |t.value| == 0
  {
  }

  /** The push side of each slide name, by its suffix. */
  lemma SlideSides()
    ensures SlideSide("wipeleft") == "left" && SlideSide("slideleft") == "left"
    ensures SlideSide("wiperight") == "right" && SlideSide("slideright") == "right"
    ensures SlideSide("wipeup") == "top" && SlideSide("wipedown") == "bottom"
  {
    assert "wipeleft"[4..] == "left" && "slideleft"[5..] == "left";
    assert "wiperight"[4..] == "right" && "slideright"[5..] == "right";
    assert "wipeup"[3..] != "left" && "wipeup"[1..] != "right" && "wipeup"[4..] == "up";
    assert "wipedown"[4..] != "left" && "wipedown"[3..] != "right" && "wipedown"[6..] != "up";
  }

  /** A type that is not a slide is written as Fade when it is `fade` and as
      Dissolve otherwise (`dissolve` or any unknown name). */
  lemma TransitionClassMeans(ttype: string)
    requires ttype !in SlideNames
    ensures DictGet(TransitionClasses, ttype, "Dissolve") == if ttype == "fade" then "Fade" else "Dissolve"
  {
    var m := TransitionClasses;
    assert DistinctKeys(m);
    if ttype == "fade" {
      DictGetItem(m, 0, "Dissolve");
    } else if ttype == "dissolve" {
      DictGetItem(m, 1, "Dissolve");
    } else {
      assert !HasKey(m, ttype);
      DictGetMeans(m, ttype, "Dissolve");
    }
  }

  /** The transition text of a non-empty transition: a slide with its side,
      or Fade for `fade`, or Dissolve; the type defaults to dissolve and the
      duration to 0.2. */
  lemma TransitionCodeMeans(t: TextDict)
    requires t != []
    ensures var ttype := DictGet(t, "type", "dissolve");
            var dur := DictGet(t, "duration", "0.2");
            TransitionCode(Some(t)) ==
              if ttype in SlideNames then "with SlideTransition(push_side='" + SlideSide(ttype) + "', duration=" + dur + ")"
              else if ttype == "fade" then "with Fade(" + dur + ")"
              else "with Dissolve(" + dur + ")"
  {
    var ttype := DictGet(t, "type", "dissolve");
    if ttype !in SlideNames {
      TransitionClassMeans(ttype);
    }
  }

  /** A transition that names neither type nor duration is a 0.2 second
      dissolve. */
  lemma TransitionDefaults(t: TextDict)
    requires t != [] && !HasKey(t, "type") && !HasKey(t, "duration")
    ensures TransitionCode(Some(t)) == "with Dissolve(0.2)"
  {
    DictGetMeans(t, "type", "dissolve");
    DictGetMeans(t, "duration", "0.2");
    TransitionCodeMeans(t);
  }

  /** Pins how a given type and duration replace the defaults "dissolve" and
      "0.2": the type is looked up in the table of transition classes and the
      duration is written as given. */
  lemma FadeExample()
    ensures TransitionCode(Some([("type", "fade"), ("duration", "0.5")])) == "with Fade(0.5)"
  {
    var t := [("type", "fade"), ("duration", "0.5")];
    assert DistinctKeys(t);
    DictGetItem(t, 0, "dissolve");
    DictGetItem(t, 1, "0.2");
    TransitionCodeMeans(t);
  }

  // ---------------------------------------------------------------------------
  // Actions

  /** `NullAction()` is written exactly for an action of an unknown type. */
  lemma NullActionOnlyForOther(a: Action)
    ensures ActionToCode(a) == "NullAction()" <==> a.OtherAction?
  {
    var code := ActionToCode(a);
    match a {
      case GoScene(_, _) => assert code[0] == '[';
      case JumpLabel(_) => assert code[0] == 'J';
      case CallLabel(_) => assert code[0] == 'C';
      case CallScreen(_, params) => assert code[0] == 'C';
      case CallFunction(_, _, _) => assert code[0] == 'F';
      case OtherAction(_) =>
    }
  }

  /** go_scene ignores its transition: the code is the same whatever it is. */
  lemma GoSceneIgnoresTransition(sid: string, t1: Option<TextDict>, t2: Option<TextDict>)
    ensures ActionToCode(GoScene(sid, t1)) == ActionToCode(GoScene(sid, t2))
  {
  }

  /** go_scene stores the target in `_next_scene` and jumps to the label the
      helper file defines. */
  lemma GoSceneJumpsToHelper(sid: string, t: Option<TextDict>)
    ensures StartsWith(ActionToCode(GoScene(sid, t)), "[SetField(store,'_next_scene','" + sid + "')")
    ensures EndsWith(ActionToCode(GoScene(sid, t)), "Jump('scene__internal__go')]")
    ensures "label scene__internal__go:" in HelpersLines
  {
    var head := "[SetField(store,'_next_scene','" + sid + "')";
    var tail := "Jump('scene__internal__go')]";
    assert ActionToCode(GoScene(sid, t)) == head + ", " + tail;
    assert (head + ", " + tail)[..|head|] == head;
    assert (head + ", " + tail)[|head + ", "|..] == tail;
    assert HelpersLines[10] == "label scene__internal__go:";
  }

  /** call_screen without params names the screen alone. */
  lemma CallScreenNoParams(screen: string)
    ensures ActionToCode(CallScreen(screen, [])) == "CallScreen('" + screen + "')"
  {
  }

  /** A function call lists the positional arguments and then the keyword
      arguments, with ", " between the non-empty parts and nothing after
      the name when both are empty. */
  lemma FunctionCallText(name: string, args: seq<string>, kwargs: seq<(string, string)>)
    ensures var a := Join(args, ", ");
            var k := Join(KwArgs(kwargs), ", ");
            var joined := if a != "" && k != "" then a + ", " + k else if a != "" then a else k;
            ActionToCode(CallFunction(name, args, kwargs)) ==
              "Function(" + name + (if joined != "" then ", " + joined else "") + ")"
  {
    var a := Join(args, ", ");
    var k := Join(KwArgs(kwargs), ", ");
    NonEmptyPair(a, k);
    if a != "" && k != "" {
      assert [a, k][1..] == [k];
    }
  }

  lemma NonEmptyPair(a: string, k: string)
    ensures NonEmpty([a, k]) == (if a != "" then [a] else []) + (if k != "" then [k] else [])
  {
    assert [a, k][1..] == [k];
    assert [k][1..] == [];
    assert NonEmpty([k]) == (if k != "" then [k] else []) + NonEmpty([]);
  }

  /** Pins the layout of the call: no separator after the name when there are
      no arguments, and positional arguments before keyword arguments, all
      separated by ", ". */
  lemma FunctionCallExamples()
    ensures ActionToCode(CallFunction("f", [], [])) == "Function(f)"
    ensures ActionToCode(CallFunction("f", ["1", "'a'"], [("x", "2")])) == "Function(f, 1, 'a', x=2)"
  {
    FunctionCallText("f", [], []);
    FunctionCallText("f", ["1", "'a'"], [("x", "2")]);
    assert ["1", "'a'"][1..] == ["'a'"];
    assert Join(["1", "'a'"], ", ") == "1, 'a'";
    var kw := KwArgs([("x", "2")]);
    assert |kw| == 1 && kw[0] == "x=2";
  }

  // ---------------------------------------------------------------------------
  // Layer order and the background

  /** The layers with key z, in their order. */
  function WithKey(ls: seq<Layer>, z: int): (r: seq<Layer>)
    ensures forall k :: 0 <= k < |r| ==> ZKey(r[k]) == z
  {
    if ls == [] then [] else (if ZKey(ls[0]) == z then [ls[0]] else []) + WithKey(ls[1..], z)
  }

  lemma {:induction false} WithKeyAppend(a: seq<Layer>, b: seq<Layer>, z: int)
    ensures WithKey(a + b, z) == WithKey(a, z) + WithKey(b, z)
    decreases |a|
  {
    if a != [] {
      assert (a + b)[1..] == a[1..] + b;
      WithKeyAppend(a[1..], b, z);
    } else {
      assert a + b == b;
    }
  }

  /** In a sorted sequence whose first key is above z no layer has key z. */
  lemma NoneWithKey(ls: seq<Layer>, z: int)
    requires ZSorted(ls) && ls != [] && z < ZKey(ls[0])
    ensures WithKey(ls, z) == []
  {
    var r := WithKey(ls, z);
    if r != [] {
      WithKeyIn(ls, z, r[0]);
    }
  }

  lemma {:induction false} WithKeyIn(ls: seq<Layer>, z: int, l: Layer)
    requires l in WithKey(ls, z)
    ensures l in ls
    decreases |ls|
  {
    if ls != [] && !(ZKey(ls[0]) == z && l == ls[0]) {
      WithKeyIn(ls[1..], z, l);
    }
  }

  /** Inserting l adds it after the layers of its own key and leaves the
      other keys' layers as they were. */
  lemma {:induction false} InsertZWithKey(l: Layer, ls: seq<Layer>, z: int)
    requires ZSorted(ls)
    ensures WithKey(InsertZ(l, ls), z) == WithKey(ls, z) + (if ZKey(l) == z then [l] else [])
    decreases |ls|
  {
    if ls == [] {
    } else if ZKey(l) < ZKey(ls[0]) {
      assert ([l] + ls)[1..] == ls;
      if ZKey(l) == z {
        NoneWithKey(ls, z);
      }
    } else {
      assert ZSorted(ls[1..]);
      InsertZWithKey(l, ls[1..], z);
      assert ([ls[0]] + InsertZ(l, ls[1..]))[1..] == InsertZ(l, ls[1..]);
    }
  }

  /** The sort is stable: for every key, the layers of that key come out in
      the order they were listed. */
  lemma {:induction false} SortZStable(ls: seq<Layer>, z: int)
    ensures WithKey(SortZ(ls), z) == WithKey(ls, z)
    decreases |ls|
  {
    if ls != [] {
      var init := ls[..|ls| - 1];
      var last := ls[|ls| - 1];
      var sorted := SortZ(init);
      assert SortZ(ls) == InsertZ(last, sorted);
      assert ZSorted(sorted) by { SortZSorted(init); }
      InsertZWithKey(last, sorted, z);
      SortZStable(init, z);
      WithKeySnoc(init, last, z);
      assert init + [last] == ls;
    }
  }

  lemma WithKeySnoc(init: seq<Layer>, last: Layer, z: int)
    ensures WithKey(init + [last], z) == WithKey(init, z) + (if ZKey(last) == z then [last] else [])
  {
    WithKeyAppend(init, [last], z);
    assert WithKey([last], z) == (if ZKey(last) == z then [last] else []) + WithKey([], z);
  }

  /** The first image layer, or None exactly when there is no image
      layer. */
  lemma {:induction false} FirstImageMeans(ls: seq<Layer>)
    ensures FirstImage(ls).None? <==> forall k :: 0 <= k < |ls| ==> ls[k].ltype != "image"
    ensures FirstImage(ls).Some? ==>
              exists k :: 0 <= k < |ls| && ls[k].ltype == "image" && FirstImage(ls) == Some(ls[k].image)
                          && forall j :: 0 <= j < k ==> ls[j].ltype != "image"
    decreases |ls|
  {
    if ls != [] && ls[0].ltype != "image" {
      FirstImageMeans(ls[1..]);
      assert forall k :: 1 <= k < |ls| ==> ls[k] == ls[1..][k - 1];
      if FirstImage(ls).Some? {
        var k :| 0 <= k < |ls[1..]| && ls[1..][k].ltype == "image" && FirstImage(ls[1..]) == Some(ls[1..][k].image)
                 && forall j :: 0 <= j < k ==> ls[1..][j].ltype != "image";
        assert ls[k + 1] == ls[1..][k];
      }
    }
  }

  /** The label sets the background from the first image layer in z-order,
      with the enter transition, and writes a comment when there is none or
      when that layer's image is empty (a later image layer is not tried). */
  lemma SceneLineMeans(sc: Scene, enter: string)
    ensures var bg := FirstImage(SortZ(sc.layers));
            && (bg.None? ==> SceneLine(bg, enter) == "    # scene has no base image layer")
            && (bg == Some("") ==> SceneLine(bg, enter) == "    # scene has no base image layer")
            && (bg.Some? && bg.value != "" ==>
                  SceneLine(bg, enter) == RStrip("    scene " + bg.value + " " + enter)
                  && exists k :: 0 <= k < |sc.layers| && sc.layers[k].ltype == "image" && sc.layers[k].image == bg.value)
  {
    var sorted := SortZ(sc.layers);
    FirstImageMeans(sorted);
    SortZSorted(sc.layers);
    if FirstImage(sorted).Some? {
      var k :| 0 <= k < |sorted| && sorted[k].ltype == "image" && FirstImage(sorted) == Some(sorted[k].image);
      assert sorted[k] in multiset(sc.layers);
      var j :| 0 <= j < |sc.layers| && sc.layers[j] == sorted[k];
    }
  }

  // ---------------------------------------------------------------------------
  // Where each block lands

  /** Each child's code, indented by four, sits whole in the group's code
      after the `fixed:` head, at the child's offset among the children's
      blocks (which follow one another in their listed order, by
      FlattenBlock). */
  lemma GroupChildBlock(l: Layer, refw: int, refh: int, relative: bool, k: nat)
    requires l.ltype == "group" && k < |l.children|
    ensures BlockAt(LayerCode(l, refw, refh, relative), Indent(LayerCode(l.children[k], refw, refh, relative), 4),
                    |GroupHead(l.visIf)| + Offset(ChildParts(l.children, refw, refh, relative), k))
  {
    var parts := ChildParts(l.children, refw, refh, relative);
    var head := GroupHead(l.visIf);
    FlattenBlockAt(parts, k);
    BlockAfterPrefix(head, Flatten(parts), parts[k], Offset(parts, k));
    var code := LayerCode(l, refw, refh, relative);
    assert code == head + Flatten(parts);
    assert parts[k] == Indent(LayerCode(l.children[k], refw, refh, relative), 4);
  }

  /** In the screen of a scene, whose layer blocks are LayerParts of its
      layers in z-order and whose hotspot blocks are HotspotParts of its
      hotspots, block k of the layers sits right after the four head
      lines and the blocks before it. */
  lemma ScreenLayerBlock(sid: string, layerBlocks: seq<seq<Line>>, hotspotBlocks: seq<seq<Line>>, k: nat)
    requires k < |layerBlocks|
    ensures BlockAt(Screen(sid, layerBlocks, hotspotBlocks), layerBlocks[k], 4 + Offset(layerBlocks, k))
  {
    var head := ScreenHead(sid);
    var at := Offset(layerBlocks, k);
    FlattenBlockAt(layerBlocks, k);
    BlockAfterPrefix(head, Flatten(layerBlocks), layerBlocks[k], at);
    BlockBeforeSuffix(head + Flatten(layerBlocks), [Line(4, "# Hotspots")], layerBlocks[k], 4 + at);
    BlockBeforeSuffix(head + Flatten(layerBlocks) + [Line(4, "# Hotspots")], Flatten(hotspotBlocks), layerBlocks[k], 4 + at);
    BlockBeforeSuffix(head + Flatten(layerBlocks) + [Line(4, "# Hotspots")] + Flatten(hotspotBlocks), [Line(0, "")],
                      layerBlocks[k], 4 + at);
  }

  /** The `# Hotspots` comment follows the layer blocks. */
  lemma ScreenHotspotsComment(sid: string, layerBlocks: seq<seq<Line>>, hotspotBlocks: seq<seq<Line>>)
    ensures Screen(sid, layerBlocks, hotspotBlocks)[4 + |Flatten(layerBlocks)|] == Line(4, "# Hotspots")
  {
    var head := ScreenHead(sid) + Flatten(layerBlocks) + [Line(4, "# Hotspots")];
    assert head[4 + |Flatten(layerBlocks)|] == Line(4, "# Hotspots");
  }

  /** The hotspot blocks follow that comment in their listed order. */
  lemma ScreenHotspotBlock(sid: string, layerBlocks: seq<seq<Line>>, hotspotBlocks: seq<seq<Line>>, j: nat)
    requires j < |hotspotBlocks|
    ensures BlockAt(Screen(sid, layerBlocks, hotspotBlocks), hotspotBlocks[j],
                    5 + |Flatten(layerBlocks)| + Offset(hotspotBlocks, j))
  {
    var head := ScreenHead(sid) + Flatten(layerBlocks) + [Line(4, "# Hotspots")];
    FlattenBlockAt(hotspotBlocks, j);
    BlockBetween(head, Flatten(hotspotBlocks), [Line(0, "")], hotspotBlocks[j], Offset(hotspotBlocks, j),
                 5 + |Flatten(layerBlocks)|);
  }

  /** A layer that is not a group renders as `f"{add_line} {tr}\n"`, under
      `f"if {vis_if}:\n    "` when it has a visibility condition. */
  lemma LayerText(l: Layer, refw: int, refh: int, relative: bool)
    requires l.ltype != "group"
    ensures Render(LayerCode(l, refw, refh, relative))
            == (if l.visIf != "" then "if " + l.visIf + ":\n    " else "")
               + Render(AddLines(l, refw, refh)) + " " + TransformText(l.transform, refw, refh, relative) + "\n"
  {
    hide LayerCode, AddLines, TransformText, Render, LayerBody, VisWrap;
    var add := AddLines(l, refw, refh);
    var tr := TransformText(l.transform, refw, refh, relative);
    var b := LayerBody(add, tr);
    LayerCodeIsBody(l, refw, refh, relative);
    BodyText(add, tr);
    VisWrapText(l.visIf, b);
  }

  /** The body of a non-group layer: the add lines with the transform on the
      last one, then the empty line after the final newline. */
  function LayerBody(add: seq<Line>, tr: string): (b: seq<Line>)
    requires add != []
    ensures b != []
  {
    var last := add[|add| - 1];
    add[..|add| - 1] + [Line(last.depth, last.text + " " + tr)] + [Line(0, "")]
  }

  lemma LayerCodeIsBody(l: Layer, refw: int, refh: int, relative: bool)
    requires l.ltype != "group"
    ensures LayerCode(l, refw, refh, relative) == VisWrap(l.visIf, LayerBody(AddLines(l, refw, refh), TransformText(l.transform, refw, refh, relative)))
  {
  }

  lemma BodyText(add: seq<Line>, tr: string)
    requires add != []
    ensures Render(LayerBody(add, tr)) == Render(add) + " " + tr + "\n"
  {
    var last := add[|add| - 1];
    var body := add[..|add| - 1] + [Line(last.depth, last.text + (" " + tr))];
    var blank := Line(0, "");
    assert last.text + " " + tr == last.text + (" " + tr);
    assert LayerBody(add, tr) == body + [blank];
    assert RenderLine(blank) == "";
    hide LayerBody, Render, RenderLine;
    RenderAppendText(add, " " + tr);
    RenderOne(blank);
    RenderConcat(body, [blank]);
    assert Render(add) + (" " + tr) + "\n" + "" == Render(add) + " " + tr + "\n";
  }

  lemma VisWrapText(vis: string, b: seq<Line>)
    requires b != []
    ensures Render(VisWrap(vis, b)) == (if vis != "" then "if " + vis + ":\n    " else "") + Render(b)
  {
    hide Render;
    if vis == "" {
      assert VisWrap(vis, b) == b;
    } else {
      var cond := Line(0, "if " + vis + ":");
      var shifted := [Line(b[0].depth + 4, b[0].text)] + b[1..];
      assert VisWrap(vis, b) == [cond] + shifted;
      assert RenderLine(cond) == "if " + vis + ":";
      hide VisWrap, RenderLine;
      RenderShiftFirst(b);
      RenderOne(cond);
      RenderConcat([cond], shifted);
      assert "if " + vis + ":" + "\n" + ("    " + Render(b)) == "if " + vis + ":\n    " + Render(b);
    }
  }

  /** A layer's code is never empty: a group starts with its head line, any
      other layer has its body and the final newline. */
  lemma LayerCodeNonEmpty(l: Layer, refw: int, refh: int, relative: bool)
    ensures Render(LayerCode(l, refw, refh, relative)) != ""
  {
    var code := LayerCode(l, refw, refh, relative);
    if l.ltype == "group" {
      assert code[0] == GroupHead(l.visIf)[0];
    } else {
      assert |code| >= 2;
    }
    RenderNonEmpty(code);
  }

  /** Every block the screen appends has at least one line. */
  lemma BlocksNonEmpty(sc: Scene, refw: int, refh: int, relative: bool)
    ensures forall k :: 0 <= k < |SortZ(sc.layers)| ==> LayerParts(SortZ(sc.layers), refw, refh, relative)[k] != []
    ensures forall k :: 0 <= k < |sc.hotspots| ==> HotspotParts(sc.hotspots, refw, refh, relative)[k] != []
  {
    hide Indent, LayerCode, ButtonLines;
    var sorted := SortZ(sc.layers);
    forall k | 0 <= k < |sorted| ensures LayerParts(sorted, refw, refh, relative)[k] != [] {
      LayerCodeNonEmpty(sorted[k], refw, refh, relative);
      IndentNonEmpty(LayerCode(sorted[k], refw, refh, relative), 8);
    }
    forall k | 0 <= k < |sc.hotspots| ensures HotspotParts(sc.hotspots, refw, refh, relative)[k] != [] {
      var h := sc.hotspots[k];
      var b := ButtonLines(ShapeBox(h.shape, refw, refh, relative), h.tooltip, h.hover, ActionToCode(h.action));
      ButtonParts(ShapeBox(h.shape, refw, refh, relative), h.tooltip, h.hover, ActionToCode(h.action));
      RenderNonEmpty(b);
      IndentNonEmpty(b, 4);
    }
  }

  /** The text of a scene's screen is `"\n".join` of what the generator
      appends: the four head lines, each layer's code indented by eight in
      z-order, the hotspot comment, each hotspot's button indented by four,
      and an empty line. */
  lemma ScreenText(sc: Scene, refw: int, refh: int, relative: bool)
    ensures Render(ScreenLines(sc, refw, refh, relative))
            == Join(HeadTexts(sc.id) + Texts(LayerParts(SortZ(sc.layers), refw, refh, relative)) + ["    # Hotspots"]
                    + Texts(HotspotParts(sc.hotspots, refw, refh, relative)) + [""], "\n")
  {
    hide Indent, LayerCode, ButtonLines, LayerParts, HotspotParts;
    BlocksNonEmpty(sc, refw, refh, relative);
    ScreenJoin(sc.id, LayerParts(SortZ(sc.layers), refw, refh, relative), HotspotParts(sc.hotspots, refw, refh, relative));
  }

  /** The head lines of a scene's screen, as text. */
  function HeadTexts(sid: string): seq<string>
  {
    [Banner, "screen scene_" + sid + "():", "    zorder 10", "    fixed:"]
  }

  /** A screen around blocks none of which is empty is the join of the head
      lines, the blocks' texts and the lines between them. */
  lemma ScreenJoin(sid: string, ls: seq<seq<Line>>, hs: seq<seq<Line>>)
    requires forall k :: 0 <= k < |ls| ==> ls[k] != []
    requires forall k :: 0 <= k < |hs| ==> hs[k] != []
    ensures Render(Screen(sid, ls, hs)) == Join(HeadTexts(sid) + Texts(ls) + ["    # Hotspots"] + Texts(hs) + [""], "\n")
  {
    hide Render, Texts, Flatten, Screen, Join, HeadTexts, ScreenHead;
    var head := ScreenHead(sid);
    var comment, blank := Line(4, "# Hotspots"), Line(0, "");
    var parts := [head] + ls + [[comment]] + hs + [[blank]];
    ScreenBlocks(sid, ls, hs);
    ScreenHeadNonEmpty(sid);
    ScreenPartsNonEmpty(head, ls, [comment], hs, [blank]);
    RenderFlatten(parts);
    ScreenPartTexts(sid, ls, hs);
    var headTexts := HeadTexts(sid);
    var rest := Texts(ls) + ["    # Hotspots"] + Texts(hs) + [""];
    assert [Join(headTexts, "\n")] + Texts(ls) + ["    # Hotspots"] + Texts(hs) + [""] == [Join(headTexts, "\n")] + rest;
    JoinConcat([Join(headTexts, "\n")], rest, "\n");
    ScreenHeadTexts(sid);
    JoinConcat(headTexts, rest, "\n");
    assert headTexts + rest == headTexts + Texts(ls) + ["    # Hotspots"] + Texts(hs) + [""];
  }

  lemma ScreenHeadNonEmpty(sid: string)
    ensures ScreenHead(sid) != []
  {
  }

  lemma ScreenHeadTexts(sid: string)
    ensures HeadTexts(sid) != [] && Join([Join(HeadTexts(sid), "\n")], "\n") == Join(HeadTexts(sid), "\n")
  {
  }

  lemma ScreenPartsNonEmpty(a: seq<Line>, ls: seq<seq<Line>>, b: seq<Line>, hs: seq<seq<Line>>, c: seq<Line>)
    requires a != [] && b != [] && c != []
    requires forall k :: 0 <= k < |ls| ==> ls[k] != []
    requires forall k :: 0 <= k < |hs| ==> hs[k] != []
    ensures var parts := [a] + ls + [b] + hs + [c]; forall k :: 0 <= k < |parts| ==> parts[k] != []
  {
    var parts := [a] + ls + [b] + hs + [c];
    forall k | 0 <= k < |parts| ensures parts[k] != [] {
      if 1 <= k <= |ls| {
        assert parts[k] == ls[k - 1];
      } else if |ls| + 2 <= k < |ls| + 2 + |hs| {
        assert parts[k] == hs[k - |ls| - 2];
      }
    }
  }

  /** The texts of a screen's parts: its head as one text, the blocks' texts
      and the two single lines. */
  lemma ScreenPartTexts(sid: string, ls: seq<seq<Line>>, hs: seq<seq<Line>>)
    ensures Texts([ScreenHead(sid)] + ls + [[Line(4, "# Hotspots")]] + hs + [[Line(0, "")]])
            == [Join(HeadTexts(sid), "\n")] + Texts(ls) + ["    # Hotspots"] + Texts(hs) + [""]
  {
    var head := ScreenHead(sid);
    var comment, blank := Line(4, "# Hotspots"), Line(0, "");
    RenderOne(comment);
    RenderOne(blank);
    assert Spaces(4) == "    " && Spaces(0) == "";
    assert RenderLine(comment) == "    # Hotspots";
    HeadRender(sid);
    TextsConcat([head] + ls + [[comment]] + hs, [[blank]]);
    TextsConcat([head] + ls + [[comment]], hs);
    TextsConcat([head] + ls, [[comment]]);
    TextsConcat([head], ls);
    assert Texts([head]) == [Render(head)] && Texts([[comment]]) == ["    # Hotspots"] && Texts([[blank]]) == [""];
  }

  /** The screen's head renders as its four texts joined. */
  lemma HeadRender(sid: string)
    ensures Render(ScreenHead(sid)) == Join(HeadTexts(sid), "\n")
  {
    var head := ScreenHead(sid);
    var t := seq(|head|, k requires 0 <= k < |head| => RenderLine(head[k]));
    assert Spaces(4) == "    " && Spaces(0) == "";
    assert t[0] == Banner && t[1] == "screen scene_" + sid + "():";
    assert t[2] == "    zorder 10" && t[3] == "    fixed:";
    assert t == HeadTexts(sid);
  }

  /** A screen is its head, its blocks and its two single lines, appended. */
  lemma ScreenBlocks(sid: string, ls: seq<seq<Line>>, hs: seq<seq<Line>>)
    ensures Flatten([ScreenHead(sid)] + ls + [[Line(4, "# Hotspots")]] + hs + [[Line(0, "")]]) == Screen(sid, ls, hs)
  {
    var head := ScreenHead(sid);
    var comment, blank := Line(4, "# Hotspots"), Line(0, "");
    FlattenConcat([head] + ls + [[comment]] + hs, [[blank]]);
    FlattenConcat([head] + ls + [[comment]], hs);
    FlattenConcat([head] + ls, [[comment]]);
    FlattenConcat([head], ls);
    FlattenOne(head);
    FlattenOne([comment]);
    FlattenOne([blank]);
  }

  /** A block stays whole between a head (of length base) and a tail. */
  lemma BlockBetween(head: seq<Line>, lines: seq<Line>, tail: seq<Line>, block: seq<Line>, at: int, base: int)
    requires BlockAt(lines, block, at) && base == |head|
    ensures BlockAt(head + lines + tail, block, base + at)
  {
    BlockAfterPrefix(head, lines, block, at);
    BlockBeforeSuffix(head + lines, tail, block, base + at);
  }

  /** A button places the shape's box, then the tooltip hooks, then the
      action, and ends with the hover lines indented by 16: one line each,
      and one more when highlighted, unless the opacity text breaks a line. */
  lemma ButtonParts(box: (int, int, int, int), tooltip: string, hover: Hover, actionCode: string)
    ensures var b := ButtonLines(box, tooltip, hover, actionCode);
            && |b| >= 8
            && b[2] == Line(12, "xpos " + IntToString(box.0) + " ypos " + IntToString(box.1)
                                + " xsize " + IntToString(box.2) + " ysize " + IntToString(box.3))
            && b[4] == Line(12, TooltipText(tooltip))
            && b[5] == Line(12, "action " + actionCode)
            && b[8..] == Indent(AsLines(HoverLines(box.2, box.3, hover), 0), 16)
            && (NoBreak(HoverOpacity(hover)) ==> |b| == 8 + (if hover.highlight then 5 else 4))
  {
    hide Indent, AsLines, HoverLines, IntToString, TooltipText;
    var (x, y, w, h) := box;
    var b := ButtonLines(box, tooltip, hover, actionCode);
    var hov := Indent(AsLines(HoverLines(w, h, hover), 0), 16);
    var head := [Line(0, ""), Line(8, "button:"),
                 Line(12, "xpos " + IntToString(x) + " ypos " + IntToString(y) + " xsize " + IntToString(w) + " ysize " + IntToString(h)),
                 Line(12, "focus_mask True"), Line(12, TooltipText(tooltip)), Line(12, "action " + actionCode),
                 Line(12, "hovered:"), Line(16, "fixed:")];
    assert b == head + hov;
    assert b[8..] == hov;
    if NoBreak(HoverOpacity(hover)) {
      HoverBlockLength(w, h, hover);
    }
  }

  /** Without a break in the opacity, the hover block has one line per
      hover line. */
  lemma HoverBlockLength(w: int, h: int, hover: Hover)
    requires NoBreak(HoverOpacity(hover))
    ensures |Indent(AsLines(HoverLines(w, h, hover), 0), 16)| == if hover.highlight then 5 else 4
  {
    hide Indent, FillLine, TopLine, BottomLine, LeftLine, RightLine;
    HoverNoBreak(w, h, hover);
    IndentLines(AsLines(HoverLines(w, h, hover), 0), 16);
  }

  /** The hover lines hold no break when the opacity holds none, and the
      last of them is not empty. */
  lemma HoverNoBreak(w: int, h: int, hover: Hover)
    requires NoBreak(HoverOpacity(hover))
    ensures var ls := AsLines(HoverLines(w, h, hover), 0);
            && (forall k :: 0 <= k < |ls| ==> NoBreak(ls[k].text))
            && ls != [] && !Blank(ls[|ls| - 1])
  {
    hide FillLine, TopLine, BottomLine, LeftLine;
    FillNoBreak(w, h, HoverOpacity(hover));
    OutlineNoBreak(w, h);
  }

  lemma FillNoBreak(w: int, h: int, opacity: string)
    requires NoBreak(opacity)
    ensures NoBreak(FillLine(w, h, opacity))
  {
    hide IntToString, NoBreak;
    var s1 := OutlineHead + IntToString(w);
    var s2 := s1 + "," + IntToString(h);
    OutlineTextsNoBreak();
    IntNoBreak(w);
    IntNoBreak(h);
    NoBreakConcat(OutlineHead, IntToString(w));
    NoBreakConcat(s1, ",");
    NoBreakConcat(s1 + ",", IntToString(h));
    NoBreakConcat(s2, ")) alpha ");
    NoBreakConcat(s2 + ")) alpha ", opacity);
  }

  const OutlineHead := "add Solid('#FFFFFF', xysize ("

  lemma OutlineTextsNoBreak()
    ensures NoBreak(OutlineHead) && NoBreak(OutlineHead + "1,") && NoBreak(",") && NoBreak(")) alpha ")
    ensures NoBreak(",1))") && NoBreak(",1)) ypos ") && NoBreak("))") && NoBreak(")) xpos ")
  {
  }

  lemma OutlineNoBreak(w: int, h: int)
    ensures NoBreak(TopLine(w)) && NoBreak(BottomLine(w, h)) && NoBreak(LeftLine(h)) && NoBreak(RightLine(w, h))
  {
    hide IntToString, NoBreak;
    var t := OutlineHead + IntToString(w);
    var l := OutlineHead + "1," + IntToString(h);
    OutlineTextsNoBreak();
    IntNoBreak(w);
    IntNoBreak(h);
    IntNoBreak(w - 1);
    IntNoBreak(h - 1);
    NoBreakConcat(OutlineHead, IntToString(w));
    NoBreakConcat(t, ",1))");
    NoBreakConcat(t, ",1)) ypos ");
    NoBreakConcat(t + ",1)) ypos ", IntToString(h - 1));
    assert OutlineHead + "1," == "add Solid('#FFFFFF', xysize (1,";
    NoBreakConcat(OutlineHead + "1,", IntToString(h));
    NoBreakConcat(l, "))");
    NoBreakConcat(l, ")) xpos ");
    NoBreakConcat(l + ")) xpos ", IntToString(w - 1));
  }

  // ---------------------------------------------------------------------------
  // The file map

  /** The keys after the first n scenes: the initial keys and the first n
      names. */
  lemma {:induction false} FilesAfterKeys(init: TextDict, names: seq<string>, texts: seq<string>, n: nat)
    requires n <= |names| == |texts|
    ensures Keys(FilesAfter(init, names, texts, n)) == Keys(init) + set k | 0 <= k < n :: names[k]
  {
    if n > 0 {
      FilesAfterKeys(init, names, texts, n - 1);
      DictPutKeys(FilesAfter(init, names, texts, n - 1), names[n - 1], texts[n - 1]);
      assert (set k | 0 <= k < n :: names[k]) == (set k | 0 <= k < n - 1 :: names[k]) + {names[n - 1]};
    }
  }

  /** The first initial item keeps its place. */
  lemma {:induction false} FilesAfterFirst(init: TextDict, names: seq<string>, texts: seq<string>, n: nat)
    requires n <= |names| == |texts| && init != []
    ensures FilesAfter(init, names, texts, n) != [] && FilesAfter(init, names, texts, n)[0].0 == init[0].0
  {
    if n > 0 {
      FilesAfterFirst(init, names, texts, n - 1);
      DictPutFirst(FilesAfter(init, names, texts, n - 1), names[n - 1], texts[n - 1]);
    }
  }

  /** No file name appears twice. */
  lemma {:induction false} FilesAfterDistinct(init: TextDict, names: seq<string>, texts: seq<string>, n: nat)
    requires n <= |names| == |texts| && DistinctKeys(init)
    ensures DistinctKeys(FilesAfter(init, names, texts, n))
  {
    if n > 0 {
      FilesAfterDistinct(init, names, texts, n - 1);
      DictPutDistinct(FilesAfter(init, names, texts, n - 1), names[n - 1], texts[n - 1]);
    }
  }

  /** A name holds the text written with it last. */
  lemma {:induction false} FilesAfterGet(init: TextDict, names: seq<string>, texts: seq<string>, n: nat, i: nat)
    requires n <= |names| == |texts| && i < n
    requires forall m :: i < m < n ==> names[m] != names[i]
    ensures DictGet(FilesAfter(init, names, texts, n), names[i], "") == texts[i]
  {
    DictPutGet(FilesAfter(init, names, texts, n - 1), names[n - 1], texts[n - 1]);
    if i < n - 1 {
      FilesAfterGet(init, names, texts, n - 1, i);
    }
  }

  /** A name that none of the first n carries keeps its initial text. */
  lemma {:induction false} FilesAfterGetOther(init: TextDict, names: seq<string>, texts: seq<string>, n: nat,
                                             key: string, default: string)
    requires n <= |names| == |texts|
    requires forall m :: 0 <= m < n ==> names[m] != key
    ensures DictGet(FilesAfter(init, names, texts, n), key, default) == DictGet(init, key, default)
  {
    if n > 0 {
      DictPutGet(FilesAfter(init, names, texts, n - 1), names[n - 1], texts[n - 1]);
      FilesAfterGetOther(init, names, texts, n - 1, key, default);
    }
  }

  /** With distinct keys there are as many items as keys. */
  lemma {:induction false} DistinctKeysCount(d: TextDict)
    requires DistinctKeys(d)
    ensures |Keys(d)| == |d|
    decreases |d|
  {
    if d != [] {
      KeysCons(d);
      assert DistinctKeys(d[1..]);
      DistinctKeysCount(d[1..]);
      assert d[0].0 !in Keys(d[1..]) by {
        forall k | 0 <= k < |d| - 1 ensures d[1..][k].0 != d[0].0 {
          assert d[1..][k] == d[k + 1];
        }
      }
    }
  }

  /** Different scene ids give different file names. */
  lemma SceneFileNameInjective(a: string, b: string)
    ensures SceneFileName(a) == SceneFileName(b) <==> a == b
  {
    if SceneFileName(a) == SceneFileName(b) {
      var prefix := "_gen/scene_";
      assert |a| == |b|;
      assert a == SceneFileName(a)[|prefix|..|prefix| + |a|];
      assert b == SceneFileName(b)[|prefix|..|prefix| + |b|];
    }
  }

  /** Only a scene with id `helpers` is written to the helper file's
      name. */
  lemma SceneFileNameHelpers(sid: string)
    ensures SceneFileName(sid) == HelpersPath <==> sid == "helpers"
  {
    assert SceneFileName("helpers") == HelpersPath;
    SceneFileNameInjective(sid, "helpers");
  }

  /** The returned file names: the helper file and one per scene id. */
  lemma GenerateKeys(p: SceneProject)
    ensures Keys(GenerateSpec(p)) == {HelpersPath} + set k | 0 <= k < |p.scenes| :: SceneFileName(p.scenes[k].id)
  {
    var names := SceneNames(p);
    FilesAfterKeys(HelperFiles(), names, SceneTexts(p), |p.scenes|);
    var h := HelperFiles();
    KeysCons(h);
    assert h[1..] == [];
    var viaNames := set k | 0 <= k < |p.scenes| :: names[k];
    var viaIds := set k | 0 <= k < |p.scenes| :: SceneFileName(p.scenes[k].id);
    forall x | x in viaNames ensures x in viaIds {
      var k :| 0 <= k < |p.scenes| && names[k] == x;
      assert SceneFileName(p.scenes[k].id) == x;
    }
    forall x | x in viaIds ensures x in viaNames {
      var k :| 0 <= k < |p.scenes| && SceneFileName(p.scenes[k].id) == x;
      assert names[k] == x;
    }
  }

  /** The helper file comes first, no file name appears twice, and there are
      as many files as names. */
  lemma GenerateLayout(p: SceneProject)
    ensures GenerateSpec(p) != [] && GenerateSpec(p)[0].0 == HelpersPath
    ensures DistinctKeys(GenerateSpec(p))
    ensures |GenerateSpec(p)| == |Keys(GenerateSpec(p))|
  {
    FilesAfterFirst(HelperFiles(), SceneNames(p), SceneTexts(p), |p.scenes|);
    FilesAfterDistinct(HelperFiles(), SceneNames(p), SceneTexts(p), |p.scenes|);
    DistinctKeysCount(GenerateSpec(p));
  }

  /** A scene whose id no later scene repeats has its own file under its
      name. */
  lemma GenerateSceneFile(p: SceneProject, i: nat)
    requires i < |p.scenes|
    requires forall m :: i < m < |p.scenes| ==> p.scenes[m].id != p.scenes[i].id
    ensures DictGet(GenerateSpec(p), SceneFileName(p.scenes[i].id), "")
            == SceneFile(p.scenes[i], RefW(p), RefH(p), Relative(p))
  {
    var names := SceneNames(p);
    forall m | i < m < |p.scenes| ensures names[m] != names[i] {
      SceneFileNameInjective(p.scenes[m].id, p.scenes[i].id);
    }
    FilesAfterGet(HelperFiles(), names, SceneTexts(p), |p.scenes|, i);
    TextsOfAt(p.scenes, RefW(p), RefH(p), Relative(p), i);
  }

  /** Unless a scene is called `helpers`, the helper file holds the helper
      text. */
  lemma GenerateHelpers(p: SceneProject)
    requires forall k :: 0 <= k < |p.scenes| ==> p.scenes[k].id != "helpers"
    ensures DictGet(GenerateSpec(p), HelpersPath, "") == HelpersText()
  {
    var names := SceneNames(p);
    forall m | 0 <= m < |p.scenes| ensures names[m] != HelpersPath {
      SceneFileNameHelpers(p.scenes[m].id);
    }
    FilesAfterGetOther(HelperFiles(), names, SceneTexts(p), |p.scenes|, HelpersPath, "");
  }
}
