/** The pure parts of the side list's interaction with the canvas: recolouring the
    highlights when a question is picked, moving labels back above their highlights,
    and flipping a question's skip flag. */
module Interaction {
  import opened Common
  import opened Geometry
  import opened Scene

  /** Whether the next rectangle the user draws answers a question. */
  datatype Mode = Viewing | Drawing(question: nat)

  /** The canvas tool that is active. */
  datatype Tool = Selection | RectangleTool

  /** A report to the row navigator: the new sheet list and a completion level
      (0 nothing, 1 edited, 2 confirmed). */
  datatype Change = Change(data: seq<Sheet>, isComplete: int)

  // ---------------------------------------------------------------------------
  // Recolouring

  function Repaint(e: Element, i: nat): Element {
    match e.id
    case Highlight(j) => e.(stroke := if j == i then BLUE else RED)
    case Label(j) => e.(stroke := if j == i then BLUE else RED)
    case _ => e
  }

  /** Picking question `i` paints its highlight and label blue and every other
      highlight and label red; nothing else about any element changes. */
  function Recolour(scene: seq<Element>, i: nat): (r: seq<Element>)
    ensures |r| == |scene|
    ensures forall k :: 0 <= k < |r| ==>
      r[k].id == scene[k].id && r[k].kind == scene[k].kind && r[k].box == scene[k].box && r[k].text == scene[k].text
    ensures forall k :: 0 <= k < |r| && (scene[k].id == Highlight(i) || scene[k].id == Label(i)) ==> r[k].stroke == BLUE
    ensures forall k :: 0 <= k < |r| && (scene[k].id.Highlight? || scene[k].id.Label?) && scene[k].id.index != i ==>
      r[k].stroke == RED
    ensures forall k :: 0 <= k < |r| && (scene[k].id.Background? || scene[k].id.Other?) ==> r[k] == scene[k]
  {
    seq(|scene|, k requires 0 <= k < |scene| => Repaint(scene[k], i))
  }

  // ---------------------------------------------------------------------------
  // Label re-synchronisation

  /** Label `j` moved to sit above the first element with id `highlight-j`, if any. */
  function Resynced(scene: seq<Element>, e: Element): Element {
    match e.id
    case Label(j) =>
      (match IndexOfId(scene, Highlight(j))
       case Some(h) =>
         var (x, y) := LabelCorner(scene[h].box);
         e.(box := e.box.(x := x, y := y))
       case None => e)
    case _ => e
  }

  /** Every label whose highlight exists is moved to its place above that highlight
      (keeping its own size); every other element is left as it is. */
  function ResyncLabels(scene: seq<Element>): (r: seq<Element>)
    ensures |r| == |scene|
    ensures forall k :: 0 <= k < |r| ==>
      && r[k].id == scene[k].id && r[k].kind == scene[k].kind && r[k].stroke == scene[k].stroke
      && r[k].text == scene[k].text
      && r[k].box.width == scene[k].box.width && r[k].box.height == scene[k].box.height
    ensures forall k :: 0 <= k < |r| && !scene[k].id.Label? ==> r[k] == scene[k]
    ensures forall k :: 0 <= k < |r| && scene[k].id.Label? && IndexOfId(scene, Highlight(scene[k].id.index)).None? ==>
      r[k] == scene[k]
    ensures forall k :: 0 <= k < |r| && scene[k].id.Label? && IndexOfId(scene, Highlight(scene[k].id.index)).Some? ==>
      (r[k].box.x, r[k].box.y) == LabelCorner(scene[IndexOfId(scene, Highlight(scene[k].id.index)).value].box)
  {
    seq(|scene|, k requires 0 <= k < |scene| => Resynced(scene, scene[k]))
  }

  /** Two scenes with the same ids in the same places find the same first element
      for any id. */
  lemma {:induction false} IndexOfIdSameIds(s: seq<Element>, t: seq<Element>, id: ElementId)
    requires |s| == |t|
    requires forall k :: 0 <= k < |s| ==> s[k].id == t[k].id
    ensures IndexOfId(s, id) == IndexOfId(t, id)
  {
    if s != [] && s[0].id != id {
      IndexOfIdSameIds(s[1..], t[1..], id);
    }
  }

  /** Moving the labels is idempotent: highlights do not move, so labels already in
      place stay there. */
  lemma ResyncIdempotent(scene: seq<Element>)
    ensures ResyncLabels(ResyncLabels(scene)) == ResyncLabels(scene)
  {
    var r := ResyncLabels(scene);
    var rr := ResyncLabels(r);
    forall k | 0 <= k < |r| ensures rr[k] == r[k] {
      if r[k].id.Label? {
        var j := r[k].id.index;
        IndexOfIdSameIds(scene, r, Highlight(j));
      }
    }
  }

  /** Recolouring and moving labels act on different fields, so their order does
      not matter. */
  lemma ResyncRecolourCommute(scene: seq<Element>, i: nat)
    ensures ResyncLabels(Recolour(scene, i)) == Recolour(ResyncLabels(scene), i)
  {
    var c := Recolour(scene, i);
    var lhs := ResyncLabels(c);
    var rhs := Recolour(ResyncLabels(scene), i);
    forall k | 0 <= k < |scene| ensures lhs[k] == rhs[k] {
      if scene[k].id.Label? {
        IndexOfIdSameIds(scene, c, Highlight(scene[k].id.index));
      }
    }
  }

  /** In a freshly built scene every label already sits above its highlight, so
      re-synchronising the labels changes nothing. */
  lemma ResyncBuiltScene(sheet: Sheet, scene: seq<Element>, w: real, h: real, size: Size)
    ensures var built := BuildScene(sheet, scene, w, h, size);
      ResyncLabels(built) == built
  {
    var a := Anchor(scene, w, h, size);
    QuestionElementsFor(sheet.questions, a.box);
    QuestionElementsComplete(sheet.questions, a.box);
    AnchoredLabelsInPlace(sheet.questions, a, QuestionElements(sheet.questions, a.box));
  }

  /** The anchor followed by every question's elements: re-synchronising the labels
      changes nothing. */
  lemma AnchoredLabelsInPlace(qs: seq<Question>, a: Element, tail: seq<Element>)
    requires a.id == Background
    requires AllFor(qs, a.box, tail) && HasAllPairs(qs, a.box, tail)
    ensures ResyncLabels([a] + tail) == [a] + tail
  {
    forall k | 0 <= k < |tail| + 1 ensures ResyncLabels([a] + tail)[k] == ([a] + tail)[k] {
      ElementInPlace(qs, a, tail, k);
    }
  }

  /** In the anchor followed by the builder's elements, each element sits where
      re-synchronisation would put it: a label is above the first highlight of its
      question. */
  lemma ElementInPlace(qs: seq<Question>, a: Element, tail: seq<Element>, k: nat)
    requires a.id == Background
    requires AllFor(qs, a.box, tail) && HasAllPairs(qs, a.box, tail)
    requires k < |tail| + 1
    ensures ResyncLabels([a] + tail)[k] == ([a] + tail)[k]
  {
    var built := [a] + tail;
    if built[k].id.Label? {
      var e := tail[k - 1];
      assert built[k] == e;
      var j := e.id.index;
      assert ElementFor(qs, a.box, e);
      var hl := HighlightOf(j, qs[j].location.region, a.box);
      assert hl in tail;
      var m :| 0 <= m < |tail| && tail[m] == hl;
      assert built[m + 1] == hl;
      var found := IndexOfId(built, Highlight(j));
      assert found.Some?;
      var f := found.value;
      assert f >= 1 && built[f] == tail[f - 1];
      assert ElementFor(qs, a.box, tail[f - 1]);
    }
  }

  // ---------------------------------------------------------------------------
  // Skip flag

  /** Flipping the skip flag of question `i` of the first sheet, reported as an edit
      (level 1). Nothing is reported when there is no sheet, nor when the sheet has no
      question `i` (the source throws there before reporting). */
  function ToggleFilter(data: seq<Sheet>, i: nat): (r: Option<Change>)
    ensures r.None? <==> data == [] || i >= |data[0].questions|
    ensures r.Some? ==> r.value.isComplete == 1
    ensures r.Some? ==>
      var d := r.value.data;
      && |d| == |data| && d[1..] == data[1..] && d[0].imageUrl == data[0].imageUrl
      && |d[0].questions| == |data[0].questions|
      && d[0].questions[i] == data[0].questions[i].(filter := !data[0].questions[i].filter)
      && forall j :: 0 <= j < |d[0].questions| && j != i ==> d[0].questions[j] == data[0].questions[j]
  {
    if data == [] || i >= |data[0].questions| then None
    else
      var qs := data[0].questions;
      Some(Change([data[0].(questions := qs[i := qs[i].(filter := !qs[i].filter)])] + data[1..], 1))
  }

  /** Toggling the same question twice gives back the original sheet list. */
  lemma ToggleTwice(data: seq<Sheet>, i: nat)
    requires data != [] && i < |data[0].questions|
    ensures ToggleFilter(ToggleFilter(data, i).value.data, i) == Some(Change(data, 1))
  {
    var once := ToggleFilter(data, i).value.data;
    var twice := ToggleFilter(once, i).value.data;
    assert twice[0].questions == data[0].questions;
    assert twice[0] == data[0];
    assert twice == [data[0]] + data[1..] == data;
  }
}
