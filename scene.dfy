/** The question sheet and the canvas scene built from it.

    A sheet is an image URL and an ordered list of questions, each with an optional
    answer region and a skip flag. The scene is the ordered list of canvas elements:
    the background image (the anchor of the coordinate mapping), then a red rectangle
    `highlight-i` and a text label `text-i` for every question `i` that has a region. */
module Scene {
  import opened Common
  import opened Geometry

  /** Element ids. The drawing engine uses strings (`background-image`, `highlight-3`,
      `text-3`, or a random id for a shape the user drew); `Other` stands for any id
      that is none of the first three forms. */
  datatype ElementId = Background | Highlight(index: nat) | Label(index: nat) | Other(name: string)

  datatype Kind = Image | Rectangle | Text

  /** The part of a drawing-engine element that this system reads or writes. */
  datatype Element = Element(id: ElementId, kind: Kind, box: Box, stroke: string, text: string)

  datatype Question = Question(question: string, location: Location, filter: bool)

  datatype Sheet = Sheet(imageUrl: string, questions: seq<Question>)

  /** Natural pixel size of a loaded image. */
  datatype Size = Size(width: real, height: real)

  const RED := "#ff0000"
  const BLUE := "#007bff"
  const LABEL_INK := "#7c0202ff"
  const TRANSPARENT := "transparent"
  const LABEL_WIDTH := 40.0
  const LABEL_HEIGHT := 20.0
  const LABEL_PREFIX := "题目"
  const S3_PREFIX := "https://" + "algo-public.s3.cn-north-1.amazonaws.com.cn"
  const PROXY_PREFIX := "/s3-proxy"

  // ---------------------------------------------------------------------------
  // Image URL rewriting

  /** An image stored on the public S3 bucket is fetched through the `/s3-proxy`
      route; every other URL is used as it is. */
  function ProxiedUrl(url: string): (r: string)
    ensures S3_PREFIX <= url ==> r == PROXY_PREFIX + url[|S3_PREFIX|..]
    ensures !(S3_PREFIX <= url) ==> r == url
  {
    if S3_PREFIX <= url then PROXY_PREFIX + url[|S3_PREFIX|..] else url
  }

  /** A proxied URL is never rewritten again. */
  lemma ProxiedUrlIdempotent(url: string)
    ensures ProxiedUrl(ProxiedUrl(url)) == ProxiedUrl(url)
  {
    if S3_PREFIX <= url {
      assert ProxiedUrl(url)[0] == '/' && S3_PREFIX[0] == 'h';
    }
  }

  // ---------------------------------------------------------------------------
  // Label text

  function Digit(d: nat): char
    requires d < 10
  {
    "0123456789"[d]
  }

  /** The decimal numeral of `n`, as JavaScript's template strings print it. */
  function Decimal(n: nat): (s: string)
    ensures |s| >= 1
    ensures forall k :: 0 <= k < |s| ==> '0' <= s[k] <= '9'
  {
    if n < 10 then [Digit(n)] else Decimal(n / 10) + [Digit(n % 10)]
  }

  /** The value of a string of decimal digits. */
  function DecimalValue(s: string): nat
    requires forall k :: 0 <= k < |s| ==> '0' <= s[k] <= '9'
  {
    if s == [] then 0 else DecimalValue(s[..|s| - 1]) * 10 + (s[|s| - 1] - '0') as nat
  }

  /** The numeral printed by `Decimal` denotes `n`. */
  lemma {:induction false} DecimalRoundTrip(n: nat)
    ensures DecimalValue(Decimal(n)) == n
  {
    var s := Decimal(n);
    var d := n % 10;
    assert (Digit(d) - '0') as nat == d;
    if n < 10 {
      assert s == [Digit(n)] && d == n;
      assert s[..|s| - 1] == [];
    } else {
      var front := Decimal(n / 10);
      assert s == front + [Digit(d)];
      assert s[..|s| - 1] == front && s[|s| - 1] == Digit(d);
      DecimalRoundTrip(n / 10);
      assert DecimalValue(s) == (n / 10) * 10 + d;
    }
  }

  /** The label of question `i` reads `题目{i+1}`: question numbers are 1-based. */
  function LabelText(i: nat): string {
    LABEL_PREFIX + Decimal(i + 1)
  }

  // ---------------------------------------------------------------------------
  // The side list's notion of an answered question

  /** The side list shows a question as answered when its location has four numbers
      and at least one of them is non-zero. */
  function HasValidAnswerLocation(loc: Location): (b: bool)
    ensures b <==> loc.At? && loc.region != Region(0.0, 0.0, 0.0, 0.0)
  {
    match loc
    case Absent => false
    case At(r) => r.x1 != 0.0 || r.y1 != 0.0 || r.x2 != 0.0 || r.y2 != 0.0
  }

  // ---------------------------------------------------------------------------
  // Scene building

  function HighlightOf(i: nat, r: Region, anchor: Box): Element {
    Element(Highlight(i), Rectangle, ToCanvas(r, anchor), RED, "")
  }

  function LabelOf(i: nat, r: Region, anchor: Box): Element {
    var (x, y) := LabelCorner(ToCanvas(r, anchor));
    Element(Label(i), Text, Box(x, y, LABEL_WIDTH, LABEL_HEIGHT), LABEL_INK, LabelText(i))
  }

  /** The elements the builder emits for question `i`: none without a region. */
  function PairFor(i: nat, q: Question, anchor: Box): seq<Element> {
    match q.location
    case Absent => []
    case At(r) => [HighlightOf(i, r, anchor), LabelOf(i, r, anchor)]
  }

  /** Position of an element id in the scene's order: highlight `i` comes right
      before label `i`, and both come before anything of question `i + 1`. */
  function Rank(id: ElementId): nat {
    match id
    case Highlight(i) => 2 * i
    case Label(i) => 2 * i + 1
    case _ => 0
  }

  /** `e` is exactly the highlight or the label the builder makes for one of the
      questions of `qs` that has a region. */
  predicate ElementFor(qs: seq<Question>, anchor: Box, e: Element) {
    match e.id
    case Highlight(i) => i < |qs| && qs[i].location.At? && e == HighlightOf(i, qs[i].location.region, anchor)
    case Label(i) => i < |qs| && qs[i].location.At? && e == LabelOf(i, qs[i].location.region, anchor)
    case _ => false
  }

  /** The highlights and labels of a question list: the builder's per-question
      element lists, concatenated in question order. */
  function QuestionElements(qs: seq<Question>, anchor: Box): seq<Element>
    decreases |qs|
  {
    if qs == [] then [] else QuestionElements(qs[..|qs| - 1], anchor) + PairFor(|qs| - 1, qs[|qs| - 1], anchor)
  }

  /** `r` holds exactly one highlight and one label for each question of `qs` that has
      a region, and nothing else, each id once, in question order. */
  predicate ExactlyTheQuestionElements(qs: seq<Question>, anchor: Box, r: seq<Element>) {
    && (forall k :: 0 <= k < |r| ==> ElementFor(qs, anchor, r[k]))
    && (forall a, b :: 0 <= a < b < |r| ==> Rank(r[a].id) < Rank(r[b].id))
    && (forall i :: 0 <= i < |qs| && qs[i].location.At? ==>
          HighlightOf(i, qs[i].location.region, anchor) in r && LabelOf(i, qs[i].location.region, anchor) in r)
  }

  /** What the builder emits for the questions is exactly their highlights and labels. */
  lemma QuestionElementsSpec(qs: seq<Question>, anchor: Box)
    ensures ExactlyTheQuestionElements(qs, anchor, QuestionElements(qs, anchor))
  {
    QuestionElementsFor(qs, anchor);
    QuestionElementsRanked(qs, anchor);
    QuestionElementsComplete(qs, anchor);
  }

  /** The builder emits nothing but the questions' highlights and labels, each ranked
      below the next question's. */
  lemma {:induction false} QuestionElementsFor(qs: seq<Question>, anchor: Box)
    ensures AllFor(qs, anchor, QuestionElements(qs, anchor))
    decreases |qs|
  {
    if qs != [] {
      var n := |qs| - 1;
      var pre := qs[..n];
      var front := QuestionElements(pre, anchor);
      var pair := PairFor(n, qs[n], anchor);
      var r := QuestionElements(qs, anchor);
      QuestionElementsFor(pre, anchor);
      assert AllFor(pre, anchor, front);
      assert r == front + pair;
      forall k | 0 <= k < |r| ensures ElementFor(qs, anchor, r[k]) && Rank(r[k].id) < 2 * |qs| {
        if k < |front| {
          var e := front[k];
          assert r[k] == e && ElementFor(pre, anchor, e) && Rank(e.id) < 2 * n;
          match e.id {
            case Highlight(i) => assert pre[i] == qs[i];
            case Label(i) => assert pre[i] == qs[i];
          }
        } else {
          assert r[k] == pair[k - |front|];
        }
      }
    }
  }

  /** Every element of `r` is one the builder makes for `qs`. */
  predicate AllFor(qs: seq<Question>, anchor: Box, r: seq<Element>) {
    forall k :: 0 <= k < |r| ==> ElementFor(qs, anchor, r[k]) && Rank(r[k].id) < 2 * |qs|
  }

  /** The ids of `r` come in strictly increasing rank. */
  predicate Ranked(r: seq<Element>) {
    forall a, b :: 0 <= a < b < |r| ==> Rank(r[a].id) < Rank(r[b].id)
  }

  /** The builder's elements come in strictly increasing rank. */
  lemma {:induction false} QuestionElementsRanked(qs: seq<Question>, anchor: Box)
    ensures Ranked(QuestionElements(qs, anchor))
    decreases |qs|
  {
    if qs != [] {
      var n := |qs| - 1;
      var pre := qs[..n];
      var front := QuestionElements(pre, anchor);
      var pair := PairFor(n, qs[n], anchor);
      var r := QuestionElements(qs, anchor);
      QuestionElementsRanked(pre, anchor);
      QuestionElementsFor(pre, anchor);
      assert AllFor(pre, anchor, front) && Ranked(front);
      assert r == front + pair;
      forall a, b | 0 <= a < b < |r| ensures Rank(r[a].id) < Rank(r[b].id) {
        if b >= |front| {
          assert r[b] == pair[b - |front|];
          if a >= |front| {
            assert r[a] == pair[a - |front|];
          } else {
            assert r[a] == front[a] && Rank(front[a].id) < 2 * n;
          }
        } else {
          assert r[a] == front[a] && r[b] == front[b] && Rank(front[a].id) < Rank(front[b].id);
        }
      }
    }
  }

  /** Every question of `qs` with a region has its highlight and its label in `r`. */
  predicate HasAllPairs(qs: seq<Question>, anchor: Box, r: seq<Element>) {
    forall i :: 0 <= i < |qs| && qs[i].location.At? ==>
      HighlightOf(i, qs[i].location.region, anchor) in r && LabelOf(i, qs[i].location.region, anchor) in r
  }

  /** Every question with a region has its highlight and its label among the
      builder's elements. */
  lemma {:induction false} QuestionElementsComplete(qs: seq<Question>, anchor: Box)
    ensures HasAllPairs(qs, anchor, QuestionElements(qs, anchor))
    decreases |qs|
  {
    if qs != [] {
      var n := |qs| - 1;
      var pre := qs[..n];
      var front := QuestionElements(pre, anchor);
      var pair := PairFor(n, qs[n], anchor);
      var r := QuestionElements(qs, anchor);
      QuestionElementsComplete(pre, anchor);
      assert HasAllPairs(pre, anchor, front);
      assert r == front + pair;
      forall i | 0 <= i < |qs| && qs[i].location.At?
        ensures HighlightOf(i, qs[i].location.region, anchor) in r && LabelOf(i, qs[i].location.region, anchor) in r
      {
        if i < n {
          assert pre[i] == qs[i];
          assert HighlightOf(i, qs[i].location.region, anchor) in front;
          assert LabelOf(i, qs[i].location.region, anchor) in front;
        } else {
          assert pair == [HighlightOf(i, qs[i].location.region, anchor), LabelOf(i, qs[i].location.region, anchor)];
          assert r[|front|] == pair[0] && r[|front| + 1] == pair[1];
        }
      }
    }
  }

  /** Whether an element carries `id`. */
  function HasId(id: ElementId): Element -> bool {
    (e: Element) => e.id == id
  }

  /** The index of the first element carrying `id`, as `elements.find(el => el.id === id)`. */
  function IndexOfId(scene: seq<Element>, id: ElementId): (r: Option<nat>)
    ensures r.Some? ==> r.value < |scene| && scene[r.value].id == id
    ensures r.Some? ==> forall k :: 0 <= k < r.value ==> scene[k].id != id
    ensures r.None? ==> forall k :: 0 <= k < |scene| ==> scene[k].id != id
  {
    FindFirst(scene, HasId(id))
  }

  /** The coordinate anchor: the scene's existing background image if there is one,
      otherwise a new image element at natural size, centred in the canvas. */
  function Anchor(scene: seq<Element>, appWidth: real, appHeight: real, size: Size): (a: Element)
    ensures a.id == Background
    ensures IndexOfId(scene, Background).Some? ==> a == scene[IndexOfId(scene, Background).value]
    ensures IndexOfId(scene, Background).None? ==>
      a.kind == Image && a.stroke == TRANSPARENT &&
      a.box == Box((appWidth - size.width) / 2.0, (appHeight - size.height) / 2.0, size.width, size.height)
  {
    match IndexOfId(scene, Background)
    case Some(k) => scene[k]
    case None =>
      Element(Background, Image,
              Box((appWidth - size.width) / 2.0, (appHeight - size.height) / 2.0, size.width, size.height),
              TRANSPARENT, "")
  }

  /** The scene the builder installs for `sheet`, given the scene it finds. */
  function BuildScene(sheet: Sheet, scene: seq<Element>, appWidth: real, appHeight: real, size: Size): seq<Element> {
    var anchor := Anchor(scene, appWidth, appHeight, size);
    [anchor] + QuestionElements(sheet.questions, anchor.box)
  }

  // ---------------------------------------------------------------------------
  // Properties of the built scene

  /** The built scene starts with the anchor, which keeps an existing background
      image unchanged and otherwise centres a new one; all other elements are the
      highlights and labels of the sheet, each id at most once, in question order. */
  lemma BuildSceneShape(sheet: Sheet, scene: seq<Element>, appWidth: real, appHeight: real, size: Size)
    ensures var r := BuildScene(sheet, scene, appWidth, appHeight, size);
      && |r| >= 1 && r[0].id == Background
      && (IndexOfId(scene, Background).Some? ==> r[0] == scene[IndexOfId(scene, Background).value])
      && (IndexOfId(scene, Background).None? ==>
            r[0].box == Box((appWidth - size.width) / 2.0, (appHeight - size.height) / 2.0, size.width, size.height))
      && (forall k :: 1 <= k < |r| ==> ElementFor(sheet.questions, r[0].box, r[k]))
      && (forall a, b :: 1 <= a < b < |r| ==> Rank(r[a].id) < Rank(r[b].id))
  {
    var anchor := Anchor(scene, appWidth, appHeight, size);
    var tail := QuestionElements(sheet.questions, anchor.box);
    var r := BuildScene(sheet, scene, appWidth, appHeight, size);
    QuestionElementsSpec(sheet.questions, anchor.box);
    assert r[1..] == tail;
    forall k | 1 <= k < |r| ensures ElementFor(sheet.questions, r[0].box, r[k]) {
      assert r[k] == tail[k - 1];
    }
    forall a, b | 1 <= a < b < |r| ensures Rank(r[a].id) < Rank(r[b].id) {
      assert r[a] == tail[a - 1] && r[b] == tail[b - 1];
    }
  }

  /** Question `i` gets a highlight exactly when its location is present, whatever
      its four numbers are; the highlight is the region shifted by the anchor. */
  lemma {:induction false} HighlightIff(qs: seq<Question>, anchor: Box, i: nat)
    ensures var r := QuestionElements(qs, anchor);
      (exists k :: 0 <= k < |r| && r[k].id == Highlight(i)) <==> i < |qs| && qs[i].location.At?
    ensures var r := QuestionElements(qs, anchor);
      forall k :: 0 <= k < |r| && r[k].id == Highlight(i) ==>
        r[k].kind == Rectangle && r[k].box == ToCanvas(qs[i].location.region, anchor)
  {
    var r := QuestionElements(qs, anchor);
    QuestionElementsSpec(qs, anchor);
    if i < |qs| && qs[i].location.At? {
      var h := HighlightOf(i, qs[i].location.region, anchor);
      var k :| 0 <= k < |r| && r[k] == h;
      assert r[k].id == Highlight(i);
    }
    forall k | 0 <= k < |r| && r[k].id == Highlight(i)
      ensures i < |qs| && qs[i].location.At?
      ensures r[k].kind == Rectangle && r[k].box == ToCanvas(qs[i].location.region, anchor)
    {
      assert ElementFor(qs, anchor, r[k]);
    }
  }

  /** The highlight of an all-zero location: the side list calls the question
      unanswered, yet the builder still draws a zero-size rectangle for it. */
  lemma ZeroLocationStillDrawn(i: nat, q: Question, anchor: Box)
    requires q.location == At(Region(0.0, 0.0, 0.0, 0.0))
    ensures !HasValidAnswerLocation(q.location)
    ensures PairFor(i, q, anchor)[0] == Element(Highlight(i), Rectangle, Box(anchor.x, anchor.y, 0.0, 0.0), RED, "")
  {
  }

  /** Rebuilding from the scene the builder produced gives the same scene: the anchor
      is found again and nothing depends on the window or image size any more. */
  lemma RebuildIsStable(sheet: Sheet, scene: seq<Element>, w: real, h: real, size: Size, w': real, h': real, size': Size)
    ensures var first := BuildScene(sheet, scene, w, h, size);
      BuildScene(sheet, first, w', h', size') == first
  {
    var first := BuildScene(sheet, scene, w, h, size);
    assert IndexOfId(first, Background) == Some(0);
  }

  /** An existing background image is reused as it stands, whatever the size of the
      image now shown: a new image takes over the old one's position and size. */
  lemma ExistingBackgroundKept(sheet: Sheet, scene: seq<Element>, w: real, h: real, size: Size)
    requires IndexOfId(scene, Background).Some?
    ensures BuildScene(sheet, scene, w, h, size)[0] == scene[IndexOfId(scene, Background).value]
  {
  }
}
