/**
 * Concrete scenarios for the annotation rules, evaluated on the
 * specification functions of PostAnalysis.
 */
module PostAnalysisExamples {
  import opened Wrappers
  import opened AnnotationSchema
  import opened DetectionUtils
  import opened PostAnalysis

  /** A detected record with no boxes at all. */
  function Seen(start: nat, action: Option<Action>): SegmentRecord {
    SegmentRecord(start, start + 4, Some([]), action)
  }

  /** A record whose segment could not be decoded. */
  function Unseen(start: nat): SegmentRecord {
    SegmentRecord(start, start + 4, None, None)
  }

  /** A record whose face and goggles boxes do not overlap (IoU 0). */
  function BadGoggles(start: nat): SegmentRecord {
    SegmentRecord(start, start + 4,
                  Some([Detection("Face", FaceBox), Detection("Lab-goggles", GogglesBox)]),
                  None)
  }

  lemma NoBoxes(rel: Relation)
    ensures ValidBox(rel, []) == None
  {
    assert Objects([], CandidateName(rel)) == [];
  }

  /** Tile: a span of exactly 6 seconds is not emitted; 7 is. */
  lemma TileThresholdIsStrict()
    ensures GroupOutput(WhiteTile, [Seen(0, Some(Correct)), Seen(6, None)]) == []
    ensures GroupOutput(WhiteTile, [Seen(0, Some(Correct)), Seen(7, None)]) == [Finding(WhiteTile, 0, 7)]
  {
    NoBoxes(TileUnderFlask);
    var a, b, c := Seen(0, Some(Correct)), Seen(6, None), Seen(7, None);
    assert [a, b][..1] == [a] && [a, c][..1] == [a] && [a][..0] == [];
    assert GroupFold(WhiteTile, [a]) == GroupState(true, 0, []);
  }

  /**
   * Tile: `group_start` follows every triggering record, so a run from 0 to 8
   * closed at 12 spans 4 seconds, not 12, and nothing is emitted.
   */
  lemma TileStartOverwritten()
    ensures GroupOutput(WhiteTile, [Seen(0, Some(Correct)), Seen(4, Some(Correct)),
                                    Seen(8, Some(Incorrect)), Seen(12, None)]) == []
  {
    NoBoxes(TileUnderFlask);
    var a, b, c, d := Seen(0, Some(Correct)), Seen(4, Some(Correct)), Seen(8, Some(Incorrect)), Seen(12, None);
    assert [a, b, c, d][..3] == [a, b, c] && [a, b, c][..2] == [a, b] && [a, b][..1] == [a] && [a][..0] == [];
    assert GroupFold(WhiteTile, [a]) == GroupState(true, 0, []);
    assert GroupFold(WhiteTile, [a, b]) == GroupState(true, 4, []);
    assert GroupFold(WhiteTile, [a, b, c]) == GroupState(true, 8, []);
  }

  /** Tile: the end-of-list check uses the last record even when the loop skipped it. */
  lemma TileEndCheckUsesSkippedLast()
    ensures GroupOutput(WhiteTile, [Seen(0, Some(Correct)), Unseen(7)]) == [Finding(WhiteTile, 0, 7)]
  {
    NoBoxes(TileUnderFlask);
    var a, b := Seen(0, Some(Correct)), Unseen(7);
    assert [a, b][..1] == [a] && [a][..0] == [];
    assert GroupFold(WhiteTile, [a]) == GroupState(true, 0, []);
  }

  /**
   * Swirling, segments (0, Correct), (4, Correct), then one without
   * detections at 8: the interval opened at 0 is not open by truthiness, the
   * one reopened at 4 spans only 4 seconds at the end, so nothing is emitted.
   */
  lemma SwirlZeroStartScenario()
    ensures SwirlOutput([Seen(0, Some(Correct)), Seen(4, Some(Correct)), Unseen(8)]) == []
  {
    var a, b, c := Seen(0, Some(Correct)), Seen(4, Some(Correct)), Unseen(8);
    assert [a, b, c][..2] == [a, b] && [a, b][..1] == [a] && [a][..0] == [];
    var info := Some("info");
    var msg := Some("Correct swirling detected");
    assert SwirlFold([a]) == SwirlState(Some(Correct), Some(0), info, msg, []);
    assert SwirlFold([a, b]) == SwirlState(Some(Correct), Some(4), info, msg, []);
  }

  /**
   * Swirling: a change of label closes the interval; because the run began
   * at 0, the annotation starts at the next labelled record (4), not at 0.
   */
  lemma SwirlLabelChangeCloses()
    ensures SwirlOutput([Seen(0, Some(Correct)), Seen(4, Some(Correct)), Seen(8, Some(Correct)),
                         Seen(12, None)])
            == [Annotation("info", "conical flask", "Correct swirling detected", 4, 12)]
  {
    var a, b, c, d := Seen(0, Some(Correct)), Seen(4, Some(Correct)), Seen(8, Some(Correct)), Seen(12, None);
    assert [a, b, c, d][..3] == [a, b, c] && [a, b, c][..2] == [a, b] && [a, b][..1] == [a] && [a][..0] == [];
    var info := Some("info");
    var msg := Some("Correct swirling detected");
    assert SwirlFold([a]) == SwirlState(Some(Correct), Some(0), info, msg, []);
    assert SwirlFold([a, b]) == SwirlState(Some(Correct), Some(4), info, msg, []);
    assert SwirlFold([a, b, c]) == SwirlState(Some(Correct), Some(4), info, msg, []);
  }

  const FaceBox := Box(0.0, 0.0, 10.0, 10.0)
  const GogglesBox := Box(20.0, 20.0, 30.0, 30.0)

  lemma BadGogglesBoxes(start: nat)
    ensures Faces(BadGoggles(start)) == [FaceBox]
    ensures Goggles(BadGoggles(start)) == [GogglesBox]
  {
    var dg := Detection("Lab-goggles", GogglesBox);
    assert "Face" != "Lab-goggles" by {
      assert "Face"[0] != "Lab-goggles"[0];
    }
    assert [dg][1..] == [];
    assert Objects([dg], "Face") == [];
    assert Objects([dg], "Lab-goggles") == [GogglesBox];
  }

  // Arithmetic scaffolding for the goggles traces below: these lemmas only
  // compute the IoU of the two fixed boxes and model nothing of their own.

  lemma SquareArea(b: Box)
    requires b.x2 - b.x1 == 10.0 && b.y2 - b.y1 == 10.0
    ensures Area(b) == 100.0
  {
  }

  lemma FaceGogglesApart()
    ensures Min(FaceBox.x2, GogglesBox.x2) <= Max(FaceBox.x1, GogglesBox.x1)
    ensures Intersection(FaceBox, GogglesBox) == 0.0
  {
    assert Max(0.0, Min(FaceBox.x2, GogglesBox.x2) - Max(FaceBox.x1, GogglesBox.x1)) == 0.0;
  }

  lemma FaceGogglesUnion()
    ensures Intersection(FaceBox, GogglesBox) == 0.0
    ensures Union(FaceBox, GogglesBox) == 200.0
  {
    FaceGogglesApart();
    SquareArea(FaceBox);
    SquareArea(GogglesBox);
  }

  lemma FaceGogglesIou()
    ensures Union(FaceBox, GogglesBox) == 200.0
    ensures Iou(FaceBox, GogglesBox) == 0.0
  {
    FaceGogglesUnion();
    NoOverlapIou(FaceBox, GogglesBox);
  }

  lemma NoOverlapIou(a: Box, b: Box)
    requires Intersection(a, b) == 0.0 && Union(a, b) > 0.0
    ensures Iou(a, b) == 0.0
  {
  }

  lemma BadGogglesImproper(start: nat)
    ensures IouDefined(BadGoggles(start)) && FaceAndGoggles(BadGoggles(start)) && Improper(BadGoggles(start))
  {
    BadGogglesBoxes(start);
    FaceGogglesIou();
  }

  /** An improperly worn record opens (or re-opens) the interval at its start. */
  lemma BadGogglesStep(s: GroupState, start: nat)
    ensures IouDefined(BadGoggles(start))
    ensures GogglesStep(s, BadGoggles(start)) == GroupState(true, start, s.out)
  {
    BadGogglesImproper(start);
  }

  /**
   * Goggles worn improperly at 0, 4 and 8 and missing at 12: `group_start`
   * is 8 when the interval closes, 12 - 8 is not over 10, so nothing is emitted.
   */
  lemma GogglesScenario()
    ensures GogglesDefined([BadGoggles(0), BadGoggles(4), BadGoggles(8), Seen(12, None)])
    ensures GogglesOutput([BadGoggles(0), BadGoggles(4), BadGoggles(8), Seen(12, None)]) == []
  {
    var a, b, c, d := BadGoggles(0), BadGoggles(4), BadGoggles(8), Seen(12, None);
    BadGogglesStep(GroupState(false, 0, []), 0);
    BadGogglesStep(GroupState(true, 0, []), 4);
    BadGogglesStep(GroupState(true, 4, []), 8);
    assert Faces(d) == [];
    var rs := [a, b, c, d];
    assert GogglesDefined(rs);
    assert rs[..3] == [a, b, c] && [a, b, c][..2] == [a, b] && [a, b][..1] == [a] && [a][..0] == [];
    assert GogglesFold([a]) == GroupState(true, 0, []);
    assert GogglesFold([a, b]) == GroupState(true, 4, []);
    assert GogglesFold([a, b, c]) == GroupState(true, 8, []);
    assert GogglesFold(rs) == GogglesClose(GroupState(true, 8, []), 12);
  }

  /** Goggles: an interval closed 11 seconds after its last improper record is emitted. */
  lemma GogglesEmits()
    ensures GogglesDefined([BadGoggles(0), Seen(11, None)])
    ensures GogglesOutput([BadGoggles(0), Seen(11, None)]) == [GogglesFinding(0, 11)]
  {
    var a, b := BadGoggles(0), Seen(11, None);
    BadGogglesImproper(0);
    assert Faces(b) == [];
    assert GogglesDefined([a, b]);
    assert [a, b][..1] == [a] && [a][..0] == [];
    assert GogglesFold([a]) == GroupState(true, 0, []);
  }
}
