/** The sheet editor component: the canvas scene and the interaction state it keeps
    between events, and its three event handlers (scene setup when a sheet arrives,
    a click on a question in the side list, and a pointer release on the canvas).

    The drawing engine is reduced to "the scene is this sequence of elements";
    reports to the row navigator (`onDataChange`) are returned as `Change` values. */
module Canvas {
  import opened Common
  import opened Geometry
  import opened Scene
  import opened Interaction
  import opened Differ

  class Annotator {
    /** The elements on the canvas, in the drawing engine's order. */
    var scene: seq<Element>
    /** Whether the next rectangle drawn answers a question. */
    var mode: Mode
    /** The canvas tool in use. */
    var tool: Tool
    /** The question highlighted in the side list. */
    var selected: Option<nat>
    /** The ids of the canvas elements selected in the drawing engine. */
    var picked: set<ElementId>
    /** The (proxied) URL of the image most recently loaded into the scene. */
    var lastImageUrl: Option<string>

    constructor ()
      ensures scene == [] && mode == Viewing && tool == Selection
      ensures selected == None && picked == {} && lastImageUrl == None
    {
      scene, mode, tool := [], Viewing, Selection;
      selected, picked, lastImageUrl := None, {}, None;
    }

    /** Installs the scene for the first sheet of `data`. `imageSize` is the loaded
        image's natural size (`None` when loading failed, which abandons the setup)
        and `dataUrl` its encoded content (empty when fetching it failed). When the
        image URL differs from the last one loaded and the content is missing, the
        setup is abandoned too. Returns whether the viewport was re-centred. */
    method SetupScene(data: seq<Sheet>, appWidth: real, appHeight: real, imageSize: Option<Size>, dataUrl: string)
      returns (scrolled: bool)
      modifies this
      ensures mode == old(mode) && tool == old(tool) && selected == old(selected) && picked == old(picked)
      ensures data == [] || imageSize.None? ==>
        scene == old(scene) && lastImageUrl == old(lastImageUrl) && !scrolled
      ensures data != [] && imageSize.Some? ==>
        var url := ProxiedUrl(data[0].imageUrl);
        var imageChanged := old(lastImageUrl) != Some(url);
        if imageChanged && dataUrl == "" then
          scene == old(scene) && lastImageUrl == old(lastImageUrl) && !scrolled
        else
          && scene == BuildScene(data[0], old(scene), appWidth, appHeight, imageSize.value)
          && lastImageUrl == Some(url) && scrolled == imageChanged
    {
      scrolled := false;
      if data == [] || imageSize.None? {
        return;
      }
      var url := ProxiedUrl(data[0].imageUrl);
      var imageChanged := lastImageUrl != Some(url);
      if imageChanged {
        if dataUrl == "" {
          return;
        }
        lastImageUrl := Some(url);
      }
      scene := BuildScene(data[0], scene, appWidth, appHeight, imageSize.value);
      scrolled := imageChanged;
    }

    /** A click on question `i` in the side list. If the canvas has `highlight-i`,
        the highlights and labels are recoloured, the labels moved back above their
        highlights and `highlight-i` selected; otherwise drawing mode starts for `i`
        with the rectangle tool. */
    method QuestionClick(i: nat)
      modifies this
      ensures selected == Some(i) && lastImageUrl == old(lastImageUrl)
      ensures IndexOfId(old(scene), Highlight(i)).Some? ==>
        && scene == ResyncLabels(Recolour(old(scene), i)) && picked == {Highlight(i)}
        && mode == old(mode) && tool == old(tool)
      ensures IndexOfId(old(scene), Highlight(i)).None? ==>
        scene == old(scene) && picked == old(picked) && mode == Drawing(i) && tool == RectangleTool
    {
      selected := Some(i);
      if IndexOfId(scene, Highlight(i)).Some? {
        scene := ResyncLabels(Recolour(scene, i));
        picked := {Highlight(i)};
      } else {
        mode := Drawing(i);
        tool := RectangleTool;
      }
    }

    /** A pointer release on the canvas, with `data` the sheets currently shown.
        Without a sheet or without the background image nothing happens. In drawing
        mode for question `qi` the first rectangle that is not a highlight is adopted
        as `highlight-qi` and its read-back location stored for `qi`; the mode returns
        to viewing whether or not such a rectangle exists. In viewing mode every
        highlight's read-back location replaces the stored one where they differ, and
        a report is made when anything was replaced. A highlight or a drawing target
        naming a question the sheet does not have makes the source throw: nothing
        changes and nothing is reported. */
    method PointerUp(data: seq<Sheet>) returns (report: Option<Change>)
      modifies this
      ensures selected == old(selected) && picked == old(picked) && lastImageUrl == old(lastImageUrl)
      ensures data == [] || IndexOfId(old(scene), Background).None? ==>
        scene == old(scene) && mode == old(mode) && tool == old(tool) && report == None
      ensures data != [] && IndexOfId(old(scene), Background).Some? ==>
        var anchor := old(scene)[IndexOfId(old(scene), Background).value].box;
        var qs := data[0].questions;
        match old(mode)
        case Drawing(qi) =>
          (match FindFirst(old(scene), IsUnnamedRect)
           case None =>
             scene == old(scene) && mode == Viewing && tool == Selection && report == None
           case Some(k) =>
             if qi < |qs| then
               && scene == Adopt(old(scene), k, qi) && mode == Viewing && tool == Selection
               && report == Some(Change([data[0].(questions := qs[qi := qs[qi].(location := ReadLocation(old(scene)[k], anchor))])]
                                        + data[1..], 1))
             else
               scene == old(scene) && mode == old(mode) && tool == old(tool) && report == None)
        case Viewing =>
          && scene == old(scene) && mode == old(mode) && tool == old(tool)
          && report == (if HasStrayHighlight(old(scene), |qs|) || !AnyMoved(qs, old(scene), anchor) then None
                        else Some(Change([data[0].(questions := ApplyMoves(qs, old(scene), anchor))] + data[1..], 1)))
    {
      report := None;
      if data == [] {
        return;
      }
      var found := IndexOfId(scene, Background);
      if found.None? {
        return;
      }
      var anchor := scene[found.value].box;
      var qs := data[0].questions;
      match mode {
        case Drawing(qi) =>
          var drawn := FindFirst(scene, IsUnnamedRect);
          if drawn.Some? {
            var k := drawn.value;
            if qi >= |qs| {
              return;
            }
            var location := ReadLocation(scene[k], anchor);
            report := Some(Change([data[0].(questions := qs[qi := qs[qi].(location := location)])] + data[1..], 1));
            scene := Adopt(scene, k, qi);
          }
          mode := Viewing;
          tool := Selection;
        case Viewing =>
          var d := ReadBackHighlights(qs, scene, anchor);
          if d.Diffed? && d.changed {
            report := Some(Change([data[0].(questions := d.questions)] + data[1..], 1));
          }
      }
    }
  }

  /** The scenario of a first answer: a sheet with one question and no location;
      clicking the question starts drawing, and a 100 by 50 rectangle drawn at
      (110, 160) over an image anchored at (10, 10) stores [100, 150, 200, 200]. */
  method FirstAnswerScenario() returns (report: Option<Change>)
    ensures report == Some(Change([Sheet("img", [Question("q", At(Region(100.0, 150.0, 200.0, 200.0)), false)])], 1))
  {
    var a := new Annotator();
    var image := Element(Background, Image, Box(10.0, 10.0, 800.0, 600.0), TRANSPARENT, "");
    var sheet := Sheet("img", [Question("q", Absent, false)]);
    a.scene := [image];
    a.QuestionClick(0);
    assert a.mode == Drawing(0);
    var drawn := Element(Other("user-shape"), Rectangle, Box(110.0, 160.0, 100.0, 50.0), RED, "");
    a.scene := a.scene + [drawn];
    assert IsUnnamedRect(a.scene[1]) && !IsUnnamedRect(a.scene[0]);
    assert FindFirst(a.scene, IsUnnamedRect) == Some(1);
    assert IndexOfId(a.scene, Background) == Some(0);
    assert ReadBack(drawn.box, image.box) == Region(100.0, 150.0, 200.0, 200.0);
    ghost var before := a.scene;
    var answered := Question("q", At(Region(100.0, 150.0, 200.0, 200.0)), false);
    assert ReadLocation(before[1], before[0].box) == answered.location;
    assert sheet.questions[0 := sheet.questions[0].(location := answered.location)] == [answered];
    assert [sheet.(questions := [answered])] + [sheet][1..] == [Sheet("img", [answered])];
    assert a.mode == Drawing(0);
    report := a.PointerUp([sheet]);
    assert a.mode == Viewing;
  }
}
