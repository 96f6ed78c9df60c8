/**
 * Geometric helpers over object-detector output
 * (src/api/app/utils/object_detection_utils.py): selecting boxes by class
 * name, intersection over union, the "biggest" box, the four box-relation
 * validators, and the coordinate arithmetic of the square crop.
 *
 * Coordinates are exact reals; the JSON decoding of a prediction is left out,
 * so a prediction is an already-parsed sequence of detections.
 */
module DetectionUtils {
  import opened Wrappers

  /** A bounding box `x1, y1, x2, y2`. */
  datatype Box = Box(x1: real, y1: real, x2: real, y2: real)

  /** One detected object: its class name and its box. */
  datatype Detection = Detection(name: string, box: Box)

  function Max(a: real, b: real): real { if a >= b then a else b }
  function Min(a: real, b: real): real { if a <= b then a else b }
  function Abs(a: real): real { if a >= 0.0 then a else -a }

  // ---------------------------------------------------------------------------
  // get_objects

  /** The boxes of the detections named `objType`. */
  function Objects(dets: seq<Detection>, objType: string): seq<Box>
  {
    if dets == [] then []
    else (if dets[0].name == objType then [dets[0].box] else []) + Objects(dets[1..], objType)
  }

  /** A box is selected exactly when some detection of that name has it. */
  lemma {:induction false} ObjectsMembers(dets: seq<Detection>, objType: string, b: Box)
    ensures |Objects(dets, objType)| <= |dets|
    ensures b in Objects(dets, objType) <==> exists d :: d in dets && d.name == objType && d.box == b
  {
    if dets != [] {
      ObjectsMembers(dets[1..], objType, b);
      if b in Objects(dets[1..], objType) {
        var d :| d in dets[1..] && d.name == objType && d.box == b;
        assert d in dets;
      }
      forall d | d in dets && d.name == objType && d.box == b && d != dets[0]
        ensures b in Objects(dets[1..], objType)
      {
        assert d in dets[1..];
      }
    }
  }

  /** Selection commutes with concatenation, so input order is kept. */
  lemma {:induction false} ObjectsAppend(a: seq<Detection>, b: seq<Detection>, objType: string)
    ensures Objects(a + b, objType) == Objects(a, objType) + Objects(b, objType)
  {
    if a == [] {
      assert a + b == b;
    } else {
      assert (a + b)[1..] == a[1..] + b;
      ObjectsAppend(a[1..], b, objType);
    }
  }

  // ---------------------------------------------------------------------------
  // calculate_iou

  function Area(b: Box): real {
    (b.x2 - b.x1) * (b.y2 - b.y1)
  }

  function Intersection(a: Box, b: Box): real {
    Max(0.0, Min(a.x2, b.x2) - Max(a.x1, b.x1)) * Max(0.0, Min(a.y2, b.y2) - Max(a.y1, b.y1))
  }

  function Union(a: Box, b: Box): real {
    Area(a) + Area(b) - Intersection(a, b)
  }

  /** Intersection over union; the source divides by zero when the union is 0. */
  function Iou(a: Box, b: Box): real
    requires Union(a, b) != 0.0
  {
    Intersection(a, b) / Union(a, b)
  }

  predicate PositiveArea(b: Box) {
    b.x1 < b.x2 && b.y1 < b.y2
  }

  lemma MulMono(a: real, b: real, c: real, d: real)
    requires 0.0 <= a <= c && 0.0 <= b <= d
    ensures 0.0 <= a * b <= c * d
  {
    assert a * b <= c * b;
    assert c * b <= c * d;
  }

  /** The intersection term is never negative, and it is symmetric. */
  lemma IntersectionNonNegative(a: Box, b: Box)
    ensures Intersection(a, b) >= 0.0
    ensures Intersection(a, b) == Intersection(b, a)
  {
    var w := Max(0.0, Min(a.x2, b.x2) - Max(a.x1, b.x1));
    var h := Max(0.0, Min(a.y2, b.y2) - Max(a.y1, b.y1));
    MulMono(w, h, w, h);
  }

  /** IoU does not depend on the order of its two boxes. */
  lemma IouSymmetric(a: Box, b: Box)
    requires Union(a, b) != 0.0
    ensures Union(b, a) != 0.0 && Iou(a, b) == Iou(b, a)
  {
    IntersectionNonNegative(a, b);
  }

  /** The overlap of two boxes is at most the area of the first one. */
  lemma IntersectionAtMostArea(a: Box, b: Box)
    requires PositiveArea(a)
    ensures Intersection(a, b) <= Area(a)
  {
    var w := Max(0.0, Min(a.x2, b.x2) - Max(a.x1, b.x1));
    var h := Max(0.0, Min(a.y2, b.y2) - Max(a.y1, b.y1));
    MulMono(w, h, a.x2 - a.x1, a.y2 - a.y1);
  }

  lemma MulPos(a: real, b: real)
    requires a > 0.0 && b > 0.0
    ensures a * b > 0.0
  {
  }

  lemma AreaPositive(b: Box)
    requires PositiveArea(b)
    ensures Area(b) > 0.0
  {
    MulPos(b.x2 - b.x1, b.y2 - b.y1);
  }

  lemma RatioAtMostOne(i: real, u: real)
    requires 0.0 <= i <= u && u > 0.0
    ensures 0.0 <= i / u <= 1.0
  {
    var q := i / u;
    assert q * u == i;
  }

  /** For boxes of positive area the union is positive and IoU lies in [0, 1]. */
  lemma IouBounds(a: Box, b: Box)
    requires PositiveArea(a) && PositiveArea(b)
    ensures Union(a, b) > 0.0
    ensures 0.0 <= Iou(a, b) <= 1.0
  {
    AreaPositive(b);
    IntersectionNonNegative(a, b);
    IntersectionAtMostArea(a, b);
    IntersectionAtMostArea(b, a);
    RatioAtMostOne(Intersection(a, b), Union(a, b));
  }

  /** Boxes that do not overlap along either axis have IoU 0. */
  lemma IouDisjoint(a: Box, b: Box)
    requires Union(a, b) != 0.0
    requires Min(a.x2, b.x2) <= Max(a.x1, b.x1) || Min(a.y2, b.y2) <= Max(a.y1, b.y1)
    ensures Iou(a, b) == 0.0
  {
  }

  /** A box of positive area has IoU 1 with itself. */
  lemma IouSelf(a: Box)
    requires PositiveArea(a)
    ensures Union(a, a) == Area(a) > 0.0
    ensures Iou(a, a) == 1.0
  {
    AreaPositive(a);
    assert Intersection(a, a) == Area(a);
    assert Union(a, a) == Area(a);
    var x := Area(a);
    assert Iou(a, a) == x / x;
    assert x / x * x == x;
  }

  // ---------------------------------------------------------------------------
  // get_biggest_boxes

  /**
   * The source builds its array of areas from a generator, which makes a 0-d
   * object array whose argmax is 0; so the box picked is always the first one,
   * and the area expression (itself mis-parenthesised) plays no part.
   */
  function BiggestBox(boxes: seq<Box>): (r: Box)
    requires |boxes| > 0
    ensures r in boxes
  {
    boxes[0]
  }

  /** Boxes after the first never change the pick. */
  lemma BiggestBoxIgnoresLater(boxes: seq<Box>, more: seq<Box>)
    requires |boxes| > 0
    ensures BiggestBox(boxes + more) == BiggestBox(boxes)
  {
  }

  // ---------------------------------------------------------------------------
  // get_valid_flask, get_valid_tile, get_valid_funnel, get_valid_beaker

  /** The four box relations the validators test. */
  datatype Relation = FlaskUnderBurette | TileUnderFlask | FunnelOnBurette | BeakerNearBurette

  /** The class name of the boxes a validator returns. */
  function CandidateName(rel: Relation): string {
    match rel
    case FlaskUnderBurette => "Conical-flask"
    case TileUnderFlask => "White-tile"
    case FunnelOnBurette => "Funnel"
    case BeakerNearBurette => "Beaker"
  }

  /** The class name of the boxes a candidate is tested against. */
  function AnchorName(rel: Relation): string {
    match rel
    case FlaskUnderBurette => "Burette"
    case TileUnderFlask => "Conical-flask"
    case FunnelOnBurette => "Burette"
    case BeakerNearBurette => "Burette"
  }

  /** Whether the validator's outer loop runs over the candidates (else over the anchors). */
  predicate CandidateOuter(rel: Relation) {
    rel == FlaskUnderBurette || rel == FunnelOnBurette
  }

  function MidX(b: Box): real { (b.x1 + b.x2) / 2.0 }
  function MidY(b: Box): real { (b.y1 + b.y2) / 2.0 }

  /** The relation between a candidate box and an anchor box, each strict. */
  predicate Related(rel: Relation, cand: Box, anchor: Box) {
    match rel
    case FlaskUnderBurette =>
      cand.x1 < MidX(anchor) < cand.x2
    case TileUnderFlask =>
      cand.x1 < MidX(anchor) < cand.x2
    case FunnelOnBurette =>
      cand.x1 < MidX(anchor) < cand.x2 && cand.y1 > anchor.y1 * 0.8
    case BeakerNearBurette =>
      var threshold := 2.5 * Abs(cand.x2 - cand.x1);
      Abs(MidX(cand) - MidX(anchor)) < threshold && Abs(MidY(cand) - anchor.y1) < threshold
  }

  /** What one inner-loop step appends for the pair (`o` outer, `i` inner). */
  function Hit(rel: Relation, o: Box, i: Box): seq<Box> {
    if CandidateOuter(rel) then (if Related(rel, o, i) then [o] else [])
    else (if Related(rel, i, o) then [i] else [])
  }

  /** What the inner loop appends for the outer box `o`. */
  function Row(rel: Relation, o: Box, inner: seq<Box>): seq<Box>
  {
    if inner == [] then []
    else Row(rel, o, inner[..|inner| - 1]) + Hit(rel, o, inner[|inner| - 1])
  }

  /** The list of valid boxes both loops collect, in loop order. */
  function Collect(rel: Relation, outer: seq<Box>, inner: seq<Box>): seq<Box>
  {
    if outer == [] then []
    else Collect(rel, outer[..|outer| - 1], inner) + Row(rel, outer[|outer| - 1], inner)
  }

  /** A candidate qualifies when some anchor is in the relation with it. */
  predicate Qualifies(rel: Relation, cand: Box, anchors: seq<Box>) {
    exists a :: a in anchors && Related(rel, cand, a)
  }

  lemma {:induction false} RowMembers(rel: Relation, o: Box, inner: seq<Box>, c: Box)
    ensures c in Row(rel, o, inner) <==>
            if CandidateOuter(rel) then c == o && Qualifies(rel, o, inner)
            else c in inner && Related(rel, c, o)
  {
    if inner != [] {
      var init, last := inner[..|inner| - 1], inner[|inner| - 1];
      RowMembers(rel, o, init, c);
      assert inner == init + [last];
      if CandidateOuter(rel) && c == o && Qualifies(rel, o, inner) {
        var a :| a in inner && Related(rel, o, a);
        if a != last {
          assert a in init;
        }
      }
    }
  }

  /**
   * A box is collected exactly when it is a candidate and some anchor is in the
   * relation with it, whichever loop order the validator uses.
   */
  lemma {:induction false} CollectMembers(rel: Relation, outer: seq<Box>, inner: seq<Box>, c: Box)
    ensures c in Collect(rel, outer, inner) <==>
            if CandidateOuter(rel) then c in outer && Qualifies(rel, c, inner)
            else c in inner && Qualifies(rel, c, outer)
  {
    if outer != [] {
      var init, last := outer[..|outer| - 1], outer[|outer| - 1];
      CollectMembers(rel, init, inner, c);
      RowMembers(rel, last, inner, c);
      assert outer == init + [last];
      if !CandidateOuter(rel) && c in inner && Qualifies(rel, c, outer) {
        var a :| a in outer && Related(rel, c, a);
        if a != last {
          assert a in init;
        }
      }
    }
  }

  /** The candidate boxes of a prediction. */
  function Candidates(rel: Relation, dets: seq<Detection>): seq<Box> {
    Objects(dets, CandidateName(rel))
  }

  /** The anchor boxes of a prediction. */
  function Anchors(rel: Relation, dets: seq<Detection>): seq<Box> {
    Objects(dets, AnchorName(rel))
  }

  /** The loops' collected list for a prediction. */
  function ValidList(rel: Relation, dets: seq<Detection>): seq<Box> {
    if CandidateOuter(rel) then Collect(rel, Candidates(rel, dets), Anchors(rel, dets))
    else Collect(rel, Anchors(rel, dets), Candidates(rel, dets))
  }

  /**
   * A validator's answer: None when no candidate has an anchor in the relation,
   * else a candidate that has one.
   */
  function ValidBox(rel: Relation, dets: seq<Detection>): (r: Option<Box>)
    ensures r.None? <==> forall c :: c in Candidates(rel, dets) ==> !Qualifies(rel, c, Anchors(rel, dets))
    ensures r.Some? ==> r.value in Candidates(rel, dets) && Qualifies(rel, r.value, Anchors(rel, dets))
  {
    var valid := ValidList(rel, dets);
    forall c ensures c in valid <==> c in Candidates(rel, dets) && Qualifies(rel, c, Anchors(rel, dets)) {
      if CandidateOuter(rel) {
        CollectMembers(rel, Candidates(rel, dets), Anchors(rel, dets), c);
      } else {
        CollectMembers(rel, Anchors(rel, dets), Candidates(rel, dets), c);
      }
    }
    if |valid| == 0 then None else Some(BiggestBox(valid))
  }

  lemma RowStep(rel: Relation, o: Box, inner: seq<Box>, j: nat)
    requires j < |inner|
    ensures Row(rel, o, inner[..j + 1]) == Row(rel, o, inner[..j]) + Hit(rel, o, inner[j])
  {
    assert inner[..j + 1][..j] == inner[..j];
  }

  lemma CollectStep(rel: Relation, outer: seq<Box>, inner: seq<Box>, i: nat)
    requires i < |outer|
    ensures Collect(rel, outer[..i + 1], inner) == Collect(rel, outer[..i], inner) + Row(rel, outer[i], inner)
  {
    assert outer[..i + 1][..i] == outer[..i];
  }

  /** The inner loop of the validators: one outer box against every inner box, in order. */
  method CollectRow(rel: Relation, o: Box, inner: seq<Box>) returns (row: seq<Box>)
    ensures row == Row(rel, o, inner)
  {
    row := [];
    var j := 0;
    while j < |inner|
      invariant 0 <= j <= |inner|
      invariant row == Row(rel, o, inner[..j])
    {
      RowStep(rel, o, inner, j);
      if CandidateOuter(rel) {
        if Related(rel, o, inner[j]) {
          row := row + [o];
        }
      } else {
        if Related(rel, inner[j], o) {
          row := row + [inner[j]];
        }
      }
      j := j + 1;
    }
    assert inner[..j] == inner;
  }

  /** The nested loops of the validators: every (outer, inner) pair in order. */
  method CollectValid(rel: Relation, outer: seq<Box>, inner: seq<Box>) returns (valid: seq<Box>)
    ensures valid == Collect(rel, outer, inner)
  {
    valid := [];
    var i := 0;
    while i < |outer|
      invariant 0 <= i <= |outer|
      invariant valid == Collect(rel, outer[..i], inner)
    {
      var row := CollectRow(rel, outer[i], inner);
      valid := valid + row;
      CollectStep(rel, outer, inner, i);
      i := i + 1;
    }
    assert outer[..i] == outer;
  }

  method GetValid(rel: Relation, dets: seq<Detection>) returns (r: Option<Box>)
    ensures r == ValidBox(rel, dets)
  {
    var candidates := Objects(dets, CandidateName(rel));
    var anchors := Objects(dets, AnchorName(rel));
    var valid;
    if CandidateOuter(rel) {
      valid := CollectValid(rel, candidates, anchors);
    } else {
      valid := CollectValid(rel, anchors, candidates);
    }
    if |valid| == 0 {
      r := None;
    } else {
      r := Some(BiggestBox(valid));
    }
  }

  /** A flask with a burette's x-midpoint strictly inside its x-range. */
  method GetValidFlask(dets: seq<Detection>) returns (r: Option<Box>)
    ensures r == ValidBox(FlaskUnderBurette, dets)
    ensures r.Some? ==> r.value in Objects(dets, "Conical-flask")
    ensures r.None? <==> forall f, b :: f in Objects(dets, "Conical-flask") && b in Objects(dets, "Burette")
                                        ==> !(f.x1 < MidX(b) < f.x2)
  {
    r := GetValid(FlaskUnderBurette, dets);
  }

  /** A tile with a flask's x-midpoint strictly inside its x-range. */
  method GetValidTile(dets: seq<Detection>) returns (r: Option<Box>)
    ensures r == ValidBox(TileUnderFlask, dets)
    ensures r.Some? ==> r.value in Objects(dets, "White-tile")
    ensures r.None? <==> forall t, f :: t in Objects(dets, "White-tile") && f in Objects(dets, "Conical-flask")
                                        ==> !(t.x1 < MidX(f) < t.x2)
  {
    r := GetValid(TileUnderFlask, dets);
  }

  /** A funnel over a burette's x-midpoint whose top is below 0.8 of the burette's top. */
  method GetValidFunnel(dets: seq<Detection>) returns (r: Option<Box>)
    ensures r == ValidBox(FunnelOnBurette, dets)
    ensures r.Some? ==> r.value in Objects(dets, "Funnel")
    ensures r.None? <==> forall f, b :: f in Objects(dets, "Funnel") && b in Objects(dets, "Burette")
                                        ==> !(f.x1 < MidX(b) < f.x2 && f.y1 > b.y1 * 0.8)
  {
    r := GetValid(FunnelOnBurette, dets);
  }

  /** A beaker whose centre is within 2.5 widths of a burette's top-centre on both axes. */
  method GetValidBeaker(dets: seq<Detection>) returns (r: Option<Box>)
    ensures r == ValidBox(BeakerNearBurette, dets)
    ensures r.Some? ==> r.value in Objects(dets, "Beaker")
    ensures r.None? <==> forall k, b :: k in Objects(dets, "Beaker") && b in Objects(dets, "Burette")
                                        ==> !(Abs(MidX(k) - MidX(b)) < 2.5 * Abs(k.x2 - k.x1)
                                              && Abs(MidY(k) - b.y1) < 2.5 * Abs(k.x2 - k.x1))
  {
    r := GetValid(BeakerNearBurette, dets);
  }

  // ---------------------------------------------------------------------------
  // square_crop: the integer box arithmetic

  /** Python's `int()` of a number: truncation toward zero. */
  function Trunc(r: real): int {
    if r >= 0.0 then r.Floor else -((-r).Floor)
  }

  function IMax(a: int, b: int): int { if a >= b then a else b }
  function IMin(a: int, b: int): int { if a <= b then a else b }

  datatype PixelBox = PixelBox(x1: int, y1: int, x2: int, y2: int)

  /** A padding amount: `int(span * fraction)`. */
  function PadAmount(span: int, fraction: real): int {
    Trunc(span as real * fraction)
  }

  /** The truncated box after the vertical padding (lines 166, 170-171). */
  function PaddedBox(box: Box, frameHeight: nat, padTop: real, padBottom: real): PixelBox {
    var x1, y1, x2, y2 := Trunc(box.x1), Trunc(box.y1), Trunc(box.x2), Trunc(box.y2);
    var y1' := IMax(0, y1 - PadAmount(y2 - y1, padTop));
    PixelBox(x1, y1', x2, IMin(frameHeight, y2 + PadAmount(y2 - y1', padBottom)))
  }

  /** The squaring step (lines 174-181): the shorter side grows by half the difference each way. */
  function Squared(p: PixelBox, frameWidth: nat, frameHeight: nat): PixelBox {
    if p.y2 - p.y1 > p.x2 - p.x1 then
      var diff := p.y2 - p.y1 - (p.x2 - p.x1);
      PixelBox(IMax(0, p.x1 - diff / 2), p.y1, IMin(frameWidth, p.x2 + diff / 2), p.y2)
    else
      var diff := p.x2 - p.x1 - (p.y2 - p.y1);
      PixelBox(p.x1, IMax(0, p.y1 - diff / 2), p.x2, IMin(frameHeight, p.y2 + diff / 2))
  }

  function SquaredBox(box: Box, frameWidth: nat, frameHeight: nat, padTop: real, padBottom: real): PixelBox {
    Squared(PaddedBox(box, frameHeight, padTop, padBottom), frameWidth, frameHeight)
  }

  /** Clamps `v` into [0, size - 1] the way lines 184-187 do. */
  function ClampCoord(v: int, size: nat): (r: int)
    ensures 0 <= r && (size >= 1 ==> r <= size - 1)
    ensures size >= 1 && 0 <= v <= size - 1 ==> r == v
  {
    IMax(0, IMin(v, size - 1))
  }

  method SquareCropBox(box: Box, frameWidth: nat, frameHeight: nat, padTop: real, padBottom: real)
    returns (x1: int, y1: int, x2: int, y2: int)
    ensures var s := SquaredBox(box, frameWidth, frameHeight, padTop, padBottom);
            x1 == ClampCoord(s.x1, frameWidth) && x2 == ClampCoord(s.x2, frameWidth)
            && y1 == ClampCoord(s.y1, frameHeight) && y2 == ClampCoord(s.y2, frameHeight)
    ensures 0 <= x1 && 0 <= x2 && 0 <= y1 && 0 <= y2
    ensures frameWidth >= 1 ==> x1 <= frameWidth - 1 && x2 <= frameWidth - 1
    ensures frameHeight >= 1 ==> y1 <= frameHeight - 1 && y2 <= frameHeight - 1
  {
    x1, y1, x2, y2 := Trunc(box.x1), Trunc(box.y1), Trunc(box.x2), Trunc(box.y2);
    y1 := IMax(0, y1 - PadAmount(y2 - y1, padTop));
    y2 := IMin(frameHeight, y2 + PadAmount(y2 - y1, padBottom));
    ghost var padded := PixelBox(x1, y1, x2, y2);
    assert padded == PaddedBox(box, frameHeight, padTop, padBottom);
    if y2 - y1 > x2 - x1 {
      var diff := y2 - y1 - (x2 - x1);
      x1 := IMax(0, x1 - diff / 2);
      x2 := IMin(frameWidth, x2 + diff / 2);
    } else {
      var diff := x2 - x1 - (y2 - y1);
      y1 := IMax(0, y1 - diff / 2);
      y2 := IMin(frameHeight, y2 + diff / 2);
    }
    assert PixelBox(x1, y1, x2, y2) == Squared(padded, frameWidth, frameHeight);
    x1 := IMax(0, IMin(x1, frameWidth - 1));
    x2 := IMax(0, IMin(x2, frameWidth - 1));
    y1 := IMax(0, IMin(y1, frameHeight - 1));
    y2 := IMax(0, IMin(y2, frameHeight - 1));
  }

  /**
   * When the squaring step clips nothing, width and height of the squared box
   * differ by at most one pixel (the halving of an odd difference).
   */
  lemma SquaredNearlySquare(p: PixelBox, frameWidth: nat, frameHeight: nat)
    requires var d := (p.y2 - p.y1) - (p.x2 - p.x1);
             if d > 0 then 0 <= p.x1 - d / 2 && p.x2 + d / 2 <= frameWidth
             else 0 <= p.y1 - (-d) / 2 && p.y2 + (-d) / 2 <= frameHeight
    ensures var s := Squared(p, frameWidth, frameHeight);
            -1 <= (s.x2 - s.x1) - (s.y2 - s.y1) <= 1
  {
  }
}
