/** Reading the canvas back into the question sheet after a pointer release.

    In viewing mode every highlight rectangle `highlight-i` is read back into image
    coordinates and, when that differs from question `i`'s stored location, replaces
    it; a `changed` flag records whether anything was replaced. The work is done on a
    copy of the sheet: here, on a `seq` value. In drawing mode the first rectangle that
    is not yet a highlight is adopted for the question being drawn. */
module Differ {
  import opened Common
  import opened Geometry
  import opened Scene

  predicate IsHighlightRect(e: Element) {
    e.id.Highlight? && e.kind == Rectangle
  }

  /** `e` is a highlight rectangle of question `j`. */
  predicate HighlightsQuestion(e: Element, j: nat) {
    IsHighlightRect(e) && e.id.index == j
  }

  /** The location the differ reads from `e`. */
  function ReadLocation(e: Element, anchor: Box): Location {
    At(ReadBack(e.box, anchor))
  }

  // ---------------------------------------------------------------------------
  // Viewing mode: specification

  /** The sheet's questions after the differ has visited `els` in order: each
      highlight rectangle of an existing question stores its read-back location there. */
  function ApplyMoves(qs: seq<Question>, els: seq<Element>, anchor: Box): (r: seq<Question>)
    ensures |r| == |qs|
    ensures forall j :: 0 <= j < |qs| ==> r[j].question == qs[j].question && r[j].filter == qs[j].filter
    decreases |els|
  {
    if els == [] then qs
    else
      var before := ApplyMoves(qs, els[..|els| - 1], anchor);
      var e := els[|els| - 1];
      if IsHighlightRect(e) && e.id.index < |qs| then
        before[e.id.index := before[e.id.index].(location := ReadLocation(e, anchor))]
      else before
  }

  /** Whether some visit in `els` found a location different from the one stored at
      that moment: the differ's `changed` flag. */
  function AnyMoved(qs: seq<Question>, els: seq<Element>, anchor: Box): bool
    decreases |els|
  {
    if els == [] then false
    else
      var e := els[|els| - 1];
      || AnyMoved(qs, els[..|els| - 1], anchor)
      || (&& IsHighlightRect(e) && e.id.index < |qs|
          && ApplyMoves(qs, els[..|els| - 1], anchor)[e.id.index].location != ReadLocation(e, anchor))
  }

  /** Some highlight names a question the sheet does not have: the source then
      indexes past the end of the question list and throws. */
  predicate HasStrayHighlight(els: seq<Element>, n: nat) {
    exists k :: 0 <= k < |els| && IsHighlightRect(els[k]) && els[k].id.index >= n
  }

  /** At most one highlight rectangle per question. */
  predicate UniqueHighlights(els: seq<Element>) {
    forall a, b :: 0 <= a < b < |els| && IsHighlightRect(els[a]) && IsHighlightRect(els[b]) ==>
      els[a].id.index != els[b].id.index
  }

  // ---------------------------------------------------------------------------
  // Viewing mode: the loop

  datatype Diff = Threw | Diffed(questions: seq<Question>, changed: bool)

  /** The viewing-mode loop of the pointer-release handler, on a copy of the questions. */
  method ReadBackHighlights(qs: seq<Question>, els: seq<Element>, anchor: Box) returns (d: Diff)
    ensures d.Threw? <==> HasStrayHighlight(els, |qs|)
    ensures d.Diffed? ==> d.questions == ApplyMoves(qs, els, anchor) && d.changed == AnyMoved(qs, els, anchor)
  {
    var result := qs;
    var changed := false;
    var k := 0;
    while k < |els|
      invariant 0 <= k <= |els|
      invariant result == ApplyMoves(qs, els[..k], anchor)
      invariant changed == AnyMoved(qs, els[..k], anchor)
      invariant forall m :: 0 <= m < k ==> !(IsHighlightRect(els[m]) && els[m].id.index >= |qs|)
    {
      var e := els[k];
      assert els[..k + 1][..k] == els[..k] && els[..k + 1][k] == e;
      if IsHighlightRect(e) {
        var i := e.id.index;
        if i >= |result| {
          assert HasStrayHighlight(els, |qs|) by { assert IsHighlightRect(els[k]) && els[k].id.index >= |qs|; }
          return Threw;
        }
        var location := ReadLocation(e, anchor);
        if location != result[i].location {
          result := result[i := result[i].(location := location)];
          changed := true;
        } else {
          assert result[i := result[i].(location := location)] == result;
        }
      }
      k := k + 1;
    }
    assert els[..k] == els;
    return Diffed(result, changed);
  }

  // ---------------------------------------------------------------------------
  // Viewing mode: properties

  /** A question with no highlight rectangle keeps its location. */
  lemma {:induction false} UntouchedWithoutHighlight(qs: seq<Question>, els: seq<Element>, anchor: Box, j: nat)
    requires j < |qs|
    requires forall k :: 0 <= k < |els| ==> !HighlightsQuestion(els[k], j)
    ensures ApplyMoves(qs, els, anchor)[j] == qs[j]
    decreases |els|
  {
    if els != [] {
      UntouchedWithoutHighlight(qs, els[..|els| - 1], anchor, j);
    }
  }

  /** A question takes the location read from its last highlight rectangle. */
  lemma {:induction false} LastHighlightWins(qs: seq<Question>, els: seq<Element>, anchor: Box, k: nat)
    requires k < |els| && IsHighlightRect(els[k]) && els[k].id.index < |qs|
    requires forall m :: k < m < |els| ==> !HighlightsQuestion(els[m], els[k].id.index)
    ensures ApplyMoves(qs, els, anchor)[els[k].id.index].location == ReadLocation(els[k], anchor)
    decreases |els|
  {
    if k < |els| - 1 {
      LastHighlightWins(qs, els[..|els| - 1], anchor, k);
    }
  }

  /** When the `changed` flag stays down, the sheet is unchanged. */
  lemma {:induction false} UnchangedWhenNotMoved(qs: seq<Question>, els: seq<Element>, anchor: Box)
    requires !AnyMoved(qs, els, anchor)
    ensures ApplyMoves(qs, els, anchor) == qs
    decreases |els|
  {
    if els != [] {
      var before := els[..|els| - 1];
      UnchangedWhenNotMoved(qs, before, anchor);
      var e := els[|els| - 1];
      if IsHighlightRect(e) && e.id.index < |qs| {
        assert qs[e.id.index := qs[e.id.index].(location := ReadLocation(e, anchor))] == qs;
      }
    }
  }

  /** If every highlight already reads back as its question's stored location, the
      differ changes nothing and reports nothing. */
  lemma {:induction false} NothingMovesWhenAllMatch(qs: seq<Question>, els: seq<Element>, anchor: Box)
    requires forall k :: 0 <= k < |els| && IsHighlightRect(els[k]) && els[k].id.index < |qs| ==>
      ReadLocation(els[k], anchor) == qs[els[k].id.index].location
    ensures ApplyMoves(qs, els, anchor) == qs
    ensures !AnyMoved(qs, els, anchor)
    decreases |els|
  {
    if els != [] {
      var before := els[..|els| - 1];
      NothingMovesWhenAllMatch(qs, before, anchor);
      var e := els[|els| - 1];
      if IsHighlightRect(e) && e.id.index < |qs| {
        assert qs[e.id.index := qs[e.id.index].(location := ReadLocation(e, anchor))] == qs;
      }
    }
  }

  /** The highlight at position `k` reads back differently from its question's
      stored location. */
  predicate MovedAt(qs: seq<Question>, els: seq<Element>, anchor: Box, k: int) {
    && 0 <= k < |els| && IsHighlightRect(els[k]) && els[k].id.index < |qs|
    && ReadLocation(els[k], anchor) != qs[els[k].id.index].location
  }

  /** With one highlight per question, the `changed` flag is raised exactly when some
      highlight reads back differently from its question's stored location. */
  lemma {:induction false} ChangedIffSomeMoved(qs: seq<Question>, els: seq<Element>, anchor: Box)
    requires UniqueHighlights(els)
    ensures AnyMoved(qs, els, anchor) <==> exists k :: MovedAt(qs, els, anchor, k)
    decreases |els|
  {
    if els != [] {
      var n := |els| - 1;
      var before := els[..n];
      var e := els[n];
      assert UniqueHighlights(before);
      ChangedIffSomeMoved(qs, before, anchor);
      if IsHighlightRect(e) && e.id.index < |qs| {
        forall m | 0 <= m < |before| ensures !HighlightsQuestion(before[m], e.id.index) {
          assert before[m] == els[m];
        }
        UntouchedWithoutHighlight(qs, before, anchor, e.id.index);
      }
      if exists k :: MovedAt(qs, before, anchor, k) {
        var k :| MovedAt(qs, before, anchor, k);
        assert MovedAt(qs, els, anchor, k);
      }
      if exists k :: MovedAt(qs, els, anchor, k) {
        var k :| MovedAt(qs, els, anchor, k);
        if k < n {
          assert MovedAt(qs, before, anchor, k);
        } else {
          assert ApplyMoves(qs, before, anchor)[e.id.index].location != ReadLocation(e, anchor);
        }
        assert AnyMoved(qs, els, anchor);
      }
      if AnyMoved(qs, els, anchor) && !AnyMoved(qs, before, anchor) {
        assert MovedAt(qs, els, anchor, n);
      }
    }
  }

  /** With one highlight per question, the `changed` flag is raised exactly when the
      sheet really differs afterwards. */
  lemma ChangedIffDiffers(qs: seq<Question>, els: seq<Element>, anchor: Box)
    requires UniqueHighlights(els)
    ensures AnyMoved(qs, els, anchor) <==> ApplyMoves(qs, els, anchor) != qs
  {
    ChangedIffSomeMoved(qs, els, anchor);
    if AnyMoved(qs, els, anchor) {
      var k :| MovedAt(qs, els, anchor, k);
      LastHighlightWins(qs, els, anchor, k);
    } else {
      UnchangedWhenNotMoved(qs, els, anchor);
    }
  }

  /** With one highlight per question, running the differ again on its own output,
      over the same scene, changes nothing and raises no flag. */
  lemma ViewingIdempotent(qs: seq<Question>, els: seq<Element>, anchor: Box)
    requires UniqueHighlights(els)
    ensures var once := ApplyMoves(qs, els, anchor);
      ApplyMoves(once, els, anchor) == once && !AnyMoved(once, els, anchor)
  {
    var once := ApplyMoves(qs, els, anchor);
    forall k | 0 <= k < |els| && IsHighlightRect(els[k]) && els[k].id.index < |once|
      ensures ReadLocation(els[k], anchor) == once[els[k].id.index].location
    {
      forall m | k < m < |els| ensures !HighlightsQuestion(els[m], els[k].id.index) { }
      LastHighlightWins(qs, els, anchor, k);
    }
    NothingMovesWhenAllMatch(once, els, anchor);
  }

  /** A freshly built scene whose regions all lie inside the image reads back as the
      sheet it was built from: the differ reports nothing. */
  lemma BuiltSceneReadsBack(sheet: Sheet, scene: seq<Element>, w: real, h: real, size: Size)
    requires var anchor := Anchor(scene, w, h, size).box;
      forall i :: 0 <= i < |sheet.questions| && sheet.questions[i].location.At? ==>
        InImage(sheet.questions[i].location.region, anchor)
    ensures var built := BuildScene(sheet, scene, w, h, size);
      && ApplyMoves(sheet.questions, built, built[0].box) == sheet.questions
      && !AnyMoved(sheet.questions, built, built[0].box)
  {
    var built := BuildScene(sheet, scene, w, h, size);
    var qs := sheet.questions;
    var anchor := built[0].box;
    BuildSceneShape(sheet, scene, w, h, size);
    forall k | 0 <= k < |built| && IsHighlightRect(built[k]) && built[k].id.index < |qs|
      ensures ReadLocation(built[k], anchor) == qs[built[k].id.index].location
    {
      assert k >= 1;
      assert ElementFor(qs, anchor, built[k]);
      RoundTrip(qs[built[k].id.index].location.region, anchor);
    }
    NothingMovesWhenAllMatch(qs, built, anchor);
  }

  // ---------------------------------------------------------------------------
  // Drawing mode

  /** A rectangle that is not yet any question's highlight. */
  predicate IsUnnamedRect(e: Element) {
    !e.id.Highlight? && e.kind == Rectangle
  }

  /** Keeps the elements whose id is not `id`. */
  function Keeping(id: ElementId): Element -> bool {
    (e: Element) => e.id != id
  }

  /** The scene after adopting element `k` for question `qi`: every element with its
      id is removed, the others keep their order, and the element is appended,
      renamed `highlight-qi` and blue. */
  function Adopt(scene: seq<Element>, k: nat, qi: nat): (r: seq<Element>)
    requires k < |scene|
    ensures |r| >= 1 && r[|r| - 1] == scene[k].(id := Highlight(qi), stroke := BLUE)
    ensures forall m :: 0 <= m < |r| - 1 ==> r[m] in scene && r[m].id != scene[k].id
    ensures forall m :: 0 <= m < |scene| && scene[m].id != scene[k].id ==> scene[m] in r[..|r| - 1]
  {
    FilterMembers(scene, Keeping(scene[k].id));
    Filter(scene, Keeping(scene[k].id)) + [scene[k].(id := Highlight(qi), stroke := BLUE)]
  }

  /** No element other than the `k`-th carries its id. */
  predicate UniqueId(scene: seq<Element>, k: nat)
    requires k < |scene|
  {
    forall m :: 0 <= m < |scene| && m != k ==> scene[m].id != scene[k].id
  }

  /** When no other element shares the drawn element's id, adopting it leaves the
      rest of the scene in its original order and appends the renamed element. */
  lemma AdoptKeepsOrder(scene: seq<Element>, k: nat, qi: nat)
    requires k < |scene| && UniqueId(scene, k)
    ensures Adopt(scene, k, qi) == scene[..k] + scene[k + 1..] + [scene[k].(id := Highlight(qi), stroke := BLUE)]
  {
    DropUnique(scene, k);
  }

  /** Filtering out the only element with the `k`-th element's id removes exactly it. */
  lemma DropUnique(scene: seq<Element>, k: nat)
    requires k < |scene| && UniqueId(scene, k)
    ensures Filter(scene, Keeping(scene[k].id)) == scene[..k] + scene[k + 1..]
  {
    var keep := Keeping(scene[k].id);
    forall m | 0 <= m < |scene| && m != k ensures keep(scene[m]) {
    }
    FilterDropsAt(scene, k, keep);
  }
}
