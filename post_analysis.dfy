/**
 * The annotation compiler (src/api/app/services/video_post_analysis.py):
 * five rules, each a small open/close machine run once over the ordered
 * per-segment records of one video, whose findings are concatenated.
 *
 * Each rule is a method with the source's loop, proved equal to a
 * specification: a step function folded over the records, then the rule's
 * end-of-list check. The rules are modelled as written, including
 *  - `group_start` being overwritten by every triggering record;
 *  - the swirling rule's truthiness tests, under which a start of 0 is
 *    "no open interval";
 *  - the goggles end-of-list check, which subtracts in reverse order;
 *  - every end-of-list check reading the LAST record, even a skipped one.
 */
module PostAnalysis {
  import opened Wrappers
  import opened AnnotationSchema
  import opened DetectionUtils

  /** The action classifier's labels. */
  datatype Action = Correct | Incorrect | Stationary

  /**
   * One segment's record. The object prediction is the parsed detector
   * output, or None when the segment could not be decoded; the source's JSON
   * string for an empty detection list is still truthy, so only None is skipped.
   */
  datatype SegmentRecord = SegmentRecord(
    startSeconds: nat,
    endSeconds: nat,
    objectPred: Option<seq<Detection>>,
    actionPred: Option<Action>)

  predicate Detected(rec: SegmentRecord) {
    rec.objectPred.Some?
  }

  /** The records every rule actually looks at, in order. */
  function DetectedOnly(rs: seq<SegmentRecord>): (r: seq<SegmentRecord>)
    ensures forall x :: x in r ==> x in rs && Detected(x)
  {
    if rs == [] then []
    else DetectedOnly(rs[..|rs| - 1]) + (if Detected(rs[|rs| - 1]) then [rs[|rs| - 1]] else [])
  }

  function Last(rs: seq<SegmentRecord>): SegmentRecord
    requires |rs| > 0
  {
    rs[|rs| - 1]
  }

  predicate SortedByStart(rs: seq<SegmentRecord>) {
    forall i, j :: 0 <= i <= j < |rs| ==> rs[i].startSeconds <= rs[j].startSeconds
  }

  // ===========================================================================
  // White tile, funnel left on the burette, beaker pouring (process_tile,
  // process_funnel, process_beaker): one machine with a per-rule trigger.

  datatype GroupRule = WhiteTile | FunnelLeft | BeakerPouring

  /** Spans must exceed this, strictly. */
  function Threshold(rule: GroupRule): nat {
    match rule
    case WhiteTile => 6
    case FunnelLeft => 6
    case BeakerPouring => 2
  }

  const TileMessage: string := "Conical flask should be placed on the white tile during titration"
  const FunnelLeftMessage: string := "Filter funnel should not be left on the burette during titration"
  const FunnelMissingMessage: string := "Filter funnel should be used when pouring solution into burette"

  /** The fixed annotation each rule emits. */
  function Finding(rule: GroupRule, start: int, end: int): Annotation {
    match rule
    case WhiteTile => Annotation("error", "white tile", TileMessage, start, end)
    case FunnelLeft => Annotation("error", "funnel", FunnelLeftMessage, start, end)
    case BeakerPouring => Annotation("error", "funnel", FunnelMissingMessage, start, end)
  }

  predicate Titrating(rec: SegmentRecord) {
    rec.actionPred == Some(Correct) || rec.actionPred == Some(Incorrect)
  }

  /** Whether a detected record opens (or re-opens) the rule's interval. */
  predicate Triggered(rule: GroupRule, rec: SegmentRecord)
    requires Detected(rec)
  {
    var dets := rec.objectPred.value;
    match rule
    case WhiteTile => Titrating(rec) && ValidBox(TileUnderFlask, dets).None?
    case FunnelLeft => Titrating(rec) && ValidBox(FunnelOnBurette, dets).Some?
    case BeakerPouring => ValidBox(BeakerNearBurette, dets).Some? && ValidBox(FunnelOnBurette, dets).None?
  }

  /** `group_flag`, `group_start` and the annotations so far. */
  datatype GroupState = GroupState(open: bool, start: int, out: seq<Annotation>)

  /** A detected record at time `t`, which triggers the rule or not. */
  function GroupAdvance(rule: GroupRule, s: GroupState, t: int, triggered: bool): GroupState {
    if triggered then GroupState(true, t, s.out)
    else if s.open && t - s.start > Threshold(rule) then
      GroupState(false, s.start, s.out + [Finding(rule, s.start, t)])
    else s
  }

  function GroupStep(rule: GroupRule, s: GroupState, rec: SegmentRecord): GroupState {
    if !Detected(rec) then s
    else GroupAdvance(rule, s, rec.startSeconds, Triggered(rule, rec))
  }

  function GroupFold(rule: GroupRule, rs: seq<SegmentRecord>): GroupState {
    if rs == [] then GroupState(false, 0, [])
    else GroupStep(rule, GroupFold(rule, rs[..|rs| - 1]), Last(rs))
  }

  /** The rule's output: the loop's annotations, then the end-of-list check. */
  function GroupOutput(rule: GroupRule, rs: seq<SegmentRecord>): seq<Annotation> {
    var s := GroupFold(rule, rs);
    if s.open && |rs| > 0 && Last(rs).startSeconds - s.start > Threshold(rule) then
      s.out + [Finding(rule, s.start, Last(rs).startSeconds)]
    else s.out
  }

  /** What every emitted annotation of a rule looks like. */
  predicate GroupEmitted(rule: GroupRule, a: Annotation) {
    a == Finding(rule, a.startSeconds, a.endSeconds) && a.endSeconds - a.startSeconds > Threshold(rule)
  }

  /** One step keeps every emitted annotation well-formed. */
  lemma FindingEmitted(rule: GroupRule, start: int, end: int)
    requires end - start > Threshold(rule)
    ensures GroupEmitted(rule, Finding(rule, start, end))
  {
    match rule
    case WhiteTile =>
    case FunnelLeft =>
    case BeakerPouring =>
  }

  lemma GroupAdvanceFacts(rule: GroupRule, s: GroupState, t: int, triggered: bool)
    requires forall a :: a in s.out ==> GroupEmitted(rule, a)
    ensures forall a :: a in GroupAdvance(rule, s, t, triggered).out ==> GroupEmitted(rule, a)
  {
    if !triggered && s.open && t - s.start > Threshold(rule) {
      var f := Finding(rule, s.start, t);
      FindingEmitted(rule, s.start, t);
      assert GroupAdvance(rule, s, t, triggered).out == s.out + [f];
    }
  }

  lemma {:induction false} GroupFoldFacts(rule: GroupRule, rs: seq<SegmentRecord>)
    ensures forall a :: a in GroupFold(rule, rs).out ==> GroupEmitted(rule, a)
    ensures GroupFold(rule, rs).open ==> |rs| > 0
  {
    if rs != [] {
      var prev := GroupFold(rule, rs[..|rs| - 1]);
      GroupFoldFacts(rule, rs[..|rs| - 1]);
      if Detected(Last(rs)) {
        GroupAdvanceFacts(rule, prev, Last(rs).startSeconds, Triggered(rule, Last(rs)));
      }
    }
  }

  /**
   * Every annotation a rule emits is that rule's fixed finding, and its span
   * exceeds the rule's threshold strictly (a span equal to it is never emitted).
   */
  lemma GroupOutputEmitted(rule: GroupRule, rs: seq<SegmentRecord>)
    ensures forall a :: a in GroupOutput(rule, rs) ==> GroupEmitted(rule, a)
  {
    var s := GroupFold(rule, rs);
    GroupFoldFacts(rule, rs);
    if s.open && |rs| > 0 && Last(rs).startSeconds - s.start > Threshold(rule) {
      var f := Finding(rule, s.start, Last(rs).startSeconds);
      FindingEmitted(rule, s.start, Last(rs).startSeconds);
      assert GroupOutput(rule, rs) == s.out + [f];
    } else {
      assert GroupOutput(rule, rs) == s.out;
    }
  }

  lemma DetectedOnlySnoc(rs: seq<SegmentRecord>, rec: SegmentRecord)
    ensures DetectedOnly(rs + [rec]) == DetectedOnly(rs) + (if Detected(rec) then [rec] else [])
  {
    assert (rs + [rec])[..|rs|] == rs;
  }

  /** Records without detections neither open nor close an interval. */
  lemma {:induction false} GroupSkipsUndetected(rule: GroupRule, rs: seq<SegmentRecord>)
    ensures GroupFold(rule, DetectedOnly(rs)) == GroupFold(rule, rs)
  {
    if rs != [] {
      var init := rs[..|rs| - 1];
      GroupSkipsUndetected(rule, init);
      assert rs == init + [Last(rs)];
      DetectedOnlySnoc(init, Last(rs));
      if Detected(Last(rs)) {
        var d := DetectedOnly(init) + [Last(rs)];
        assert d[..|d| - 1] == DetectedOnly(init);
        assert GroupFold(rule, d) == GroupStep(rule, GroupFold(rule, DetectedOnly(init)), Last(rs));
        assert DetectedOnly(rs) == d;
        assert GroupFold(rule, rs) == GroupStep(rule, GroupFold(rule, init), Last(rs));
      } else {
        assert DetectedOnly(rs) == DetectedOnly(init);
        assert GroupFold(rule, rs) == GroupStep(rule, GroupFold(rule, init), Last(rs));
      }
    }
  }

  /** On an empty list the flag short-circuits the end-of-list check. */
  lemma GroupEmpty(rule: GroupRule)
    ensures GroupOutput(rule, []) == []
  {
  }

  /** Evaluates the rule's trigger with the validator methods, as the loop does. */
  method IsTriggered(rule: GroupRule, rec: SegmentRecord) returns (b: bool)
    requires Detected(rec)
    ensures b == Triggered(rule, rec)
  {
    var dets := rec.objectPred.value;
    match rule {
      case WhiteTile =>
        b := false;
        if Titrating(rec) {
          var tile := GetValidTile(dets);
          b := tile.None?;
        }
      case FunnelLeft =>
        b := false;
        if Titrating(rec) {
          var funnel := GetValidFunnel(dets);
          b := funnel.Some?;
        }
      case BeakerPouring =>
        var beaker := GetValidBeaker(dets);
        b := false;
        if beaker.Some? {
          var funnel := GetValidFunnel(dets);
          b := funnel.None?;
        }
    }
  }

  lemma GroupFoldPrefix(rule: GroupRule, rs: seq<SegmentRecord>, i: nat)
    requires i < |rs|
    ensures GroupFold(rule, rs[..i + 1]) == GroupStep(rule, GroupFold(rule, rs[..i]), rs[i])
  {
    assert rs[..i + 1][..i] == rs[..i];
  }

  method ProcessGroupRule(rule: GroupRule, rs: seq<SegmentRecord>) returns (annotations: seq<Annotation>)
    ensures annotations == GroupOutput(rule, rs)
  {
    annotations := [];
    var groupFlag := false;
    var groupStart := 0;
    for i := 0 to |rs|
      invariant GroupState(groupFlag, groupStart, annotations) == GroupFold(rule, rs[..i])
      invariant groupFlag ==> i > 0
    {
      var result := rs[i];
      GroupFoldPrefix(rule, rs, i);
      if result.objectPred.None? {
        continue;
      }
      var triggered := IsTriggered(rule, result);
      if triggered {
        groupFlag := true;
        groupStart := result.startSeconds;
      } else if groupFlag && result.startSeconds - groupStart > Threshold(rule) {
        annotations := annotations + [Finding(rule, groupStart, result.startSeconds)];
        groupFlag := false;
      }
    }
    assert rs[..|rs|] == rs;
    if groupFlag && rs[|rs| - 1].startSeconds - groupStart > Threshold(rule) {
      annotations := annotations + [Finding(rule, groupStart, rs[|rs| - 1].startSeconds)];
    }
  }

  method ProcessTile(rs: seq<SegmentRecord>) returns (annotations: seq<Annotation>)
    ensures annotations == GroupOutput(WhiteTile, rs)
  {
    annotations := ProcessGroupRule(WhiteTile, rs);
  }

  method ProcessFunnel(rs: seq<SegmentRecord>) returns (annotations: seq<Annotation>)
    ensures annotations == GroupOutput(FunnelLeft, rs)
  {
    annotations := ProcessGroupRule(FunnelLeft, rs);
  }

  method ProcessBeaker(rs: seq<SegmentRecord>) returns (annotations: seq<Annotation>)
    ensures annotations == GroupOutput(BeakerPouring, rs)
  {
    annotations := ProcessGroupRule(BeakerPouring, rs);
  }

  // ===========================================================================
  // Swirling (process_swirling)

  function SwirlKind(a: Action): string {
    match a
    case Correct => "info"
    case Incorrect => "error"
    case Stationary => "warning"
  }

  const SwirlCorrectMessage: string := "Correct swirling detected"
  const SwirlGrindMessage: string := "Conical flask should not be grinded on the white tile"
  const SwirlStillMessage: string := "Conical flask should be swirled to ensure proper mixing"

  function SwirlMessage(a: Action): string {
    match a
    case Correct => SwirlCorrectMessage
    case Incorrect => SwirlGrindMessage
    case Stationary => SwirlStillMessage
  }

  /** `group_type`, `group_start`, `ann_type`, `message` (None: unset) and the annotations so far. */
  datatype SwirlState = SwirlState(
    groupType: Option<Action>,
    groupStart: Option<int>,
    kind: Option<string>,
    message: Option<string>,
    out: seq<Annotation>)

  /** Python truthiness of `group_start`: None and 0 are false. */
  predicate Truthy(g: Option<int>) {
    g.Some? && g.value != 0
  }

  /** While an interval is open, `ann_type` and `message` belong to its label. */
  predicate SwirlInv(s: SwirlState) {
    Truthy(s.groupStart) ==>
      s.groupType.Some? && s.kind == Some(SwirlKind(s.groupType.value))
      && s.message == Some(SwirlMessage(s.groupType.value))
  }

  function SwirlFinding(s: SwirlState, end: int): Annotation
    requires SwirlInv(s) && Truthy(s.groupStart)
  {
    Annotation(s.kind.value, "conical flask", s.message.value, s.groupStart.value, end)
  }

  function SwirlStep(s: SwirlState, rec: SegmentRecord): (r: SwirlState)
    requires SwirlInv(s)
    ensures SwirlInv(r)
  {
    if !Detected(rec) then s
    else
      var closes := rec.actionPred != s.groupType;
      var out := if closes && Truthy(s.groupStart) && rec.startSeconds - s.groupStart.value > 6
                 then s.out + [SwirlFinding(s, rec.startSeconds)] else s.out;
      var start := if closes then None else s.groupStart;
      if rec.actionPred.Some? then
        var a := rec.actionPred.value;
        SwirlState(rec.actionPred, if !Truthy(start) then Some(rec.startSeconds) else start,
                   Some(SwirlKind(a)), Some(SwirlMessage(a)), out)
      else
        SwirlState(rec.actionPred, start, s.kind, None, out)
  }

  function SwirlFold(rs: seq<SegmentRecord>): (r: SwirlState)
    ensures SwirlInv(r)
  {
    if rs == [] then SwirlState(None, None, None, None, [])
    else SwirlStep(SwirlFold(rs[..|rs| - 1]), Last(rs))
  }

  /** The end-of-list check reads the last record, which must exist. */
  function SwirlOutput(rs: seq<SegmentRecord>): seq<Annotation>
    requires |rs| > 0
  {
    var s := SwirlFold(rs);
    if Last(rs).actionPred != s.groupType && Truthy(s.groupStart)
       && Last(rs).startSeconds - s.groupStart.value > 6
    then s.out + [SwirlFinding(s, Last(rs).startSeconds)]
    else s.out
  }

  /** What every swirling annotation looks like. */
  predicate SwirlEmitted(a: Annotation) {
    && a.category == "conical flask"
    && (exists l: Action :: a.kind == SwirlKind(l) && a.message == SwirlMessage(l))
    && a.endSeconds - a.startSeconds > 6
    && a.startSeconds != 0
  }

  lemma {:induction false} SwirlFoldEmitted(rs: seq<SegmentRecord>)
    ensures forall a :: a in SwirlFold(rs).out ==> SwirlEmitted(a)
  {
    if rs != [] {
      var s := SwirlFold(rs[..|rs| - 1]);
      SwirlFoldEmitted(rs[..|rs| - 1]);
      if Truthy(s.groupStart) {
        var l := s.groupType.value;
        assert SwirlKind(l) == s.kind.value && SwirlMessage(l) == s.message.value;
      }
    }
  }

  /**
   * Every swirling annotation has category "conical flask", the kind and
   * message of one label, a span over 6 seconds, and a start that is not 0
   * (an interval starting at 0 is not open, by truthiness).
   */
  lemma SwirlOutputEmitted(rs: seq<SegmentRecord>)
    requires |rs| > 0
    ensures forall a :: a in SwirlOutput(rs) ==> SwirlEmitted(a)
  {
    SwirlFoldEmitted(rs);
    var s := SwirlFold(rs);
    if Truthy(s.groupStart) {
      var l := s.groupType.value;
      assert SwirlKind(l) == s.kind.value && SwirlMessage(l) == s.message.value;
    }
  }

  /** Records without detections do not change the swirling machine's state. */
  lemma {:induction false} SwirlSkipsUndetected(rs: seq<SegmentRecord>)
    ensures SwirlFold(DetectedOnly(rs)) == SwirlFold(rs)
  {
    if rs != [] {
      var init := rs[..|rs| - 1];
      SwirlSkipsUndetected(init);
      assert rs == init + [Last(rs)];
      DetectedOnlySnoc(init, Last(rs));
      if Detected(Last(rs)) {
        var d := DetectedOnly(init) + [Last(rs)];
        assert d[..|d| - 1] == DetectedOnly(init);
        assert SwirlFold(d) == SwirlStep(SwirlFold(DetectedOnly(init)), Last(rs));
        assert DetectedOnly(rs) == d;
        assert SwirlFold(rs) == SwirlStep(SwirlFold(init), Last(rs));
      } else {
        assert DetectedOnly(rs) == DetectedOnly(init);
        assert SwirlFold(rs) == SwirlStep(SwirlFold(init), Last(rs));
      }
    }
  }

  method ProcessSwirling(rs: seq<SegmentRecord>) returns (annotations: seq<Annotation>)
    requires |rs| > 0
    ensures annotations == SwirlOutput(rs)
  {
    annotations := [];
    var message: Option<string> := None;
    var groupType: Option<Action> := None;
    var groupStart: Option<int> := None;
    var annType: Option<string> := None;
    for i := 0 to |rs|
      invariant SwirlState(groupType, groupStart, annType, message, annotations) == SwirlFold(rs[..i])
    {
      var result := rs[i];
      assert rs[..i + 1][..i] == rs[..i];
      if result.objectPred.None? {
        continue;
      }
      if result.actionPred != groupType {
        if Truthy(groupStart) && result.startSeconds - groupStart.value > 6 {
          annotations := annotations + [Annotation(annType.value, "conical flask", message.value,
                                                   groupStart.value, result.startSeconds)];
        }
        groupStart := None;
      }
      if result.actionPred.Some? {
        annType := Some(SwirlKind(result.actionPred.value));
        message := Some(SwirlMessage(result.actionPred.value));
        if !Truthy(groupStart) {
          groupStart := Some(result.startSeconds);
        }
      } else {
        message := None;
      }
      groupType := result.actionPred;
    }
    assert rs[..|rs|] == rs;
    var result := rs[|rs| - 1];
    if result.actionPred != groupType && Truthy(groupStart) && result.startSeconds - groupStart.value > 6 {
      annotations := annotations + [Annotation(annType.value, "conical flask", message.value,
                                               groupStart.value, result.startSeconds)];
    }
  }

  // ===========================================================================
  // Goggles (process_goggles)

  const GogglesMessage: string := "Goggles should be worn properly"

  function GogglesFinding(start: int, end: int): Annotation {
    Annotation("error", "lab goggles", GogglesMessage, start, end)
  }

  function Faces(rec: SegmentRecord): seq<Box>
    requires Detected(rec)
  {
    Objects(rec.objectPred.value, "Face")
  }

  function Goggles(rec: SegmentRecord): seq<Box>
    requires Detected(rec)
  {
    Objects(rec.objectPred.value, "Lab-goggles")
  }

  predicate FaceAndGoggles(rec: SegmentRecord) {
    Detected(rec) && |Faces(rec)| > 0 && |Goggles(rec)| > 0
  }

  /** The IoU of the record's face and goggles boxes is defined (no division by zero). */
  predicate IouDefined(rec: SegmentRecord) {
    FaceAndGoggles(rec) ==> Union(BiggestBox(Faces(rec)), BiggestBox(Goggles(rec))) != 0.0
  }

  predicate GogglesDefined(rs: seq<SegmentRecord>) {
    forall i :: 0 <= i < |rs| ==> IouDefined(rs[i])
  }

  /** The goggles sit improperly: IoU of face and goggles below 0.1. */
  predicate Improper(rec: SegmentRecord)
    requires FaceAndGoggles(rec) && IouDefined(rec)
  {
    Iou(BiggestBox(Faces(rec)), BiggestBox(Goggles(rec))) < 0.1
  }

  /** Closes an open interval at `end`, emitting it only when it spans over 10 seconds. */
  function GogglesClose(s: GroupState, end: int): GroupState {
    GroupState(false, s.start, if end - s.start > 10 then s.out + [GogglesFinding(s.start, end)] else s.out)
  }

  function GogglesStep(s: GroupState, rec: SegmentRecord): GroupState
    requires IouDefined(rec)
  {
    if !Detected(rec) then s
    else if FaceAndGoggles(rec) && Improper(rec) then GroupState(true, rec.startSeconds, s.out)
    else if s.open then GogglesClose(s, rec.startSeconds)
    else s
  }

  function GogglesFold(rs: seq<SegmentRecord>): GroupState
    requires GogglesDefined(rs)
  {
    if rs == [] then GroupState(false, 0, [])
    else GogglesStep(GogglesFold(rs[..|rs| - 1]), Last(rs))
  }

  /** The end-of-list check computes `group_start - last start`, the reverse of the loop's test. */
  function GogglesOutput(rs: seq<SegmentRecord>): seq<Annotation>
    requires |rs| > 0 && GogglesDefined(rs)
  {
    var s := GogglesFold(rs);
    if s.start - Last(rs).startSeconds > 10 then s.out + [GogglesFinding(s.start, Last(rs).startSeconds)]
    else s.out
  }

  /** Records without detections neither open nor close a goggles interval. */
  lemma {:induction false} GogglesSkipsUndetected(rs: seq<SegmentRecord>)
    requires GogglesDefined(rs)
    ensures GogglesDefined(DetectedOnly(rs))
    ensures GogglesFold(DetectedOnly(rs)) == GogglesFold(rs)
  {
    var d := DetectedOnly(rs);
    forall i | 0 <= i < |d| ensures IouDefined(d[i]) {
      assert d[i] in d;
      var j :| 0 <= j < |rs| && rs[j] == d[i];
    }
    if rs != [] {
      var init := rs[..|rs| - 1];
      assert GogglesDefined(init) by {
        forall i | 0 <= i < |init| ensures IouDefined(init[i]) {
          assert init[i] == rs[i];
        }
      }
      GogglesSkipsUndetected(init);
      assert rs == init + [Last(rs)];
      DetectedOnlySnoc(init, Last(rs));
      assert GogglesFold(rs) == GogglesStep(GogglesFold(init), Last(rs));
      if Detected(Last(rs)) {
        assert d == DetectedOnly(init) + [Last(rs)];
        assert d[..|d| - 1] == DetectedOnly(init);
      } else {
        assert d == DetectedOnly(init);
      }
    }
  }

  /** `group_start` is 0 or the start of some record. */
  lemma {:induction false} GogglesFoldFacts(rs: seq<SegmentRecord>)
    requires GogglesDefined(rs)
    ensures forall a :: a in GogglesFold(rs).out ==>
              a == GogglesFinding(a.startSeconds, a.endSeconds) && a.endSeconds - a.startSeconds > 10
    ensures GogglesFold(rs).start == 0
            || exists i :: 0 <= i < |rs| && GogglesFold(rs).start == rs[i].startSeconds
  {
    if rs != [] {
      var init := rs[..|rs| - 1];
      GogglesFoldFacts(init);
      var s := GogglesFold(init);
      if s.start != 0 {
        var i :| 0 <= i < |init| && s.start == init[i].startSeconds;
        assert rs[i] == init[i];
      }
    }
  }

  /**
   * Every goggles annotation is the fixed finding and spans more than 10
   * seconds in one direction or the other (the end-of-list one is reversed).
   */
  lemma GogglesOutputEmitted(rs: seq<SegmentRecord>)
    requires |rs| > 0 && GogglesDefined(rs)
    ensures forall a :: a in GogglesOutput(rs) ==>
              a == GogglesFinding(a.startSeconds, a.endSeconds)
              && (a.endSeconds - a.startSeconds > 10 || a.startSeconds - a.endSeconds > 10)
  {
    GogglesFoldFacts(rs);
  }

  /**
   * With start times in non-decreasing order the end-of-list check never
   * fires, so every goggles annotation spans more than 10 seconds forward.
   */
  lemma GogglesSortedNoEndEmission(rs: seq<SegmentRecord>)
    requires |rs| > 0 && GogglesDefined(rs) && SortedByStart(rs)
    ensures GogglesOutput(rs) == GogglesFold(rs).out
    ensures forall a :: a in GogglesOutput(rs) ==> a.endSeconds - a.startSeconds > 10
  {
    GogglesFoldFacts(rs);
    var s := GogglesFold(rs);
    if s.start != 0 {
      var i :| 0 <= i < |rs| && s.start == rs[i].startSeconds;
      assert rs[i].startSeconds <= rs[|rs| - 1].startSeconds;
    }
  }

  method ProcessGoggles(rs: seq<SegmentRecord>) returns (annotations: seq<Annotation>)
    requires |rs| > 0 && GogglesDefined(rs)
    ensures annotations == GogglesOutput(rs)
  {
    annotations := [];
    var groupFlag := false;
    var groupStart := 0;
    for i := 0 to |rs|
      invariant GroupState(groupFlag, groupStart, annotations) == GogglesFold(rs[..i])
    {
      var result := rs[i];
      assert rs[..i + 1][..i] == rs[..i];
      assert IouDefined(result);
      if result.objectPred.None? {
        continue;
      }
      var faces := Objects(result.objectPred.value, "Face");
      var goggles := Objects(result.objectPred.value, "Lab-goggles");
      if |faces| > 0 && |goggles| > 0 {
        var face := BiggestBox(faces);
        var goggle := BiggestBox(goggles);
        var iou := Iou(face, goggle);
        if iou < 0.1 {
          groupStart := result.startSeconds;
          groupFlag := true;
        } else if groupFlag {
          groupFlag := false;
          if result.startSeconds - groupStart > 10 {
            annotations := annotations + [GogglesFinding(groupStart, result.startSeconds)];
          }
        }
      } else if groupFlag {
        groupFlag := false;
        if result.startSeconds - groupStart > 10 {
          annotations := annotations + [GogglesFinding(groupStart, result.startSeconds)];
        }
      }
    }
    assert rs[..|rs|] == rs;
    var result := rs[|rs| - 1];
    if groupStart - result.startSeconds > 10 {
      annotations := annotations + [GogglesFinding(groupStart, result.startSeconds)];
    }
  }

  // ===========================================================================
  // compile_annotations

  function ToDicts(anns: seq<Annotation>): (r: seq<Dict>)
    ensures |r| == |anns|
    ensures forall i :: 0 <= i < |anns| ==> r[i] == ToDict(anns[i])
  {
    seq(|anns|, i requires 0 <= i < |anns| => ToDict(anns[i]))
  }

  /** The five rules' findings, in the order they are concatenated. */
  function Compiled(rs: seq<SegmentRecord>): seq<Annotation>
    requires |rs| > 0 && GogglesDefined(rs)
  {
    SwirlOutput(rs) + GogglesOutput(rs) + GroupOutput(BeakerPouring, rs)
    + GroupOutput(FunnelLeft, rs) + GroupOutput(WhiteTile, rs)
  }

  /** Every compiled annotation carries one of the three valid kinds. */
  lemma CompiledKindsValid(rs: seq<SegmentRecord>)
    requires |rs| > 0 && GogglesDefined(rs)
    ensures forall a :: a in Compiled(rs) ==> ValidKind(a.kind)
  {
    SwirlOutputEmitted(rs);
    GogglesOutputEmitted(rs);
    GroupOutputEmitted(BeakerPouring, rs);
    GroupOutputEmitted(FunnelLeft, rs);
    GroupOutputEmitted(WhiteTile, rs);
  }

  /**
   * The concatenation of swirling, goggles, beaker, funnel and tile findings,
   * each as its `to_dict` projection; every one has a valid `type`.
   */
  method CompileAnnotations(rs: seq<SegmentRecord>) returns (dicts: seq<Dict>)
    requires |rs| > 0 && GogglesDefined(rs)
    ensures dicts == ToDicts(Compiled(rs))
    ensures forall d :: d in dicts ==> HasValidType(d)
  {
    var annotations: seq<Annotation> := [];
    var swirling := ProcessSwirling(rs);
    annotations := annotations + swirling;
    var goggles := ProcessGoggles(rs);
    annotations := annotations + goggles;
    var beaker := ProcessBeaker(rs);
    annotations := annotations + beaker;
    var funnel := ProcessFunnel(rs);
    annotations := annotations + funnel;
    var tile := ProcessTile(rs);
    annotations := annotations + tile;
    assert annotations == Compiled(rs);
    dicts := seq(|annotations|, i requires 0 <= i < |annotations| => ToDict(annotations[i]));
    CompiledKindsValid(rs);
    forall d | d in dicts ensures HasValidType(d) {
      var i :| 0 <= i < |dicts| && dicts[i] == d;
      assert annotations[i] in Compiled(rs);
    }
  }
}
