/**
 * The per-device video store (src/api/app/services/video_json_manager.py).
 *
 * The document maps a device id to an ordered list of video entries, and
 * keeps a second map of active task handles (device -> video name -> task id).
 * Every per-video mutator returns either a not-found message or a patch; the
 * patch is modelled as the pair (list before, list after) from which the JSON
 * Patch library computes its diff.
 *
 * The first half of the module is a pure model of the document and of each
 * operation; the class `VideoJsonManager` at the end holds the two maps as
 * fields and implements each operation by updating them in place, proved
 * equal to the pure model.
 */
module VideoJson {
  import opened Wrappers
  import opened AnnotationSchema

  // ---------------------------------------------------------------------------
  // Video entries
  // ---------------------------------------------------------------------------

  /** The `status_counts` record of an entry. */
  datatype Counts = Counts(info: nat, warning: nat, error: nat)

  const ZeroCounts: Counts := Counts(0, 0, 0)

  /** One video entry of a device's list. */
  datatype Video = Video(
    fileName: string,
    filePath: string,
    statusList: seq<string>,
    annotations: seq<Dict>,
    statusCounts: Counts)

  /** An entry built from the video template: no statuses, no annotations, zero counts. */
  function NewVideo(fileName: string, filePath: string): Video {
    Video(fileName, filePath, [], [], ZeroCounts)
  }

  /** The kind stored under an annotation's "type" key, or "" when it has none. */
  function KindOf(a: Dict): string {
    if "type" in a && a["type"].Str? then a["type"].s else ""
  }

  /** `status_counts[kind] += 1`; a kind outside the three leaves the counts alone. */
  function Bump(c: Counts, kind: string): Counts {
    if kind == "info" then c.(info := c.info + 1)
    else if kind == "warning" then c.(warning := c.warning + 1)
    else if kind == "error" then c.(error := c.error + 1)
    else c
  }

  /** The counts obtained by bumping once per annotation, in order. */
  function Tally(anns: seq<Dict>): Counts {
    if |anns| == 0 then ZeroCounts
    else Bump(Tally(anns[..|anns| - 1]), KindOf(anns[|anns| - 1]))
  }

  /** The kinds of a list of annotations, in order. */
  function KindsOf(anns: seq<Dict>): seq<string> {
    if |anns| == 0 then []
    else KindsOf(anns[..|anns| - 1]) + [KindOf(anns[|anns| - 1])]
  }

  /** Each count of `Tally` is the number of annotations of that kind. */
  lemma {:induction false} TallyCountsKinds(anns: seq<Dict>)
    ensures Tally(anns).info == multiset(KindsOf(anns))["info"]
    ensures Tally(anns).warning == multiset(KindsOf(anns))["warning"]
    ensures Tally(anns).error == multiset(KindsOf(anns))["error"]
  {
    if |anns| > 0 {
      TallyCountsKinds(anns[..|anns| - 1]);
    }
  }

  /** A valid `type` entry is exactly a `KindOf` among the three kinds. */
  lemma KindOfValid(a: Dict)
    ensures HasValidType(a) <==> ValidKind(KindOf(a))
  {
    assert !ValidKind("");
  }

  /** The entry's counts agree with its annotations. */
  predicate Counted(v: Video) {
    v.statusCounts == Tally(v.annotations)
  }

  // ---------------------------------------------------------------------------
  // Edits of one entry
  // ---------------------------------------------------------------------------

  /** The four in-place changes the mutators make to the entry they find. */
  datatype Edit =
    | AppendStatus(status: string)
    | ResetStatus
    | AppendAnnotation(annotation: Dict)
    | ResetAnnotations

  /** An annotation whose type is not one of the three makes `add_annotation` raise. */
  predicate EditOk(e: Edit) {
    e.AppendAnnotation? ==> HasValidType(e.annotation)
  }

  predicate EditsOk(es: seq<Edit>) {
    forall k :: 0 <= k < |es| ==> EditOk(es[k])
  }

  function ApplyEdit(v: Video, e: Edit): Video
    requires EditOk(e)
  {
    match e
    case AppendStatus(s) => v.(statusList := v.statusList + [s])
    case ResetStatus => v.(statusList := [])
    case AppendAnnotation(a) =>
      v.(annotations := v.annotations + [a], statusCounts := Bump(v.statusCounts, KindOf(a)))
    case ResetAnnotations => v.(annotations := [], statusCounts := ZeroCounts)
  }

  function ApplyEdits(v: Video, es: seq<Edit>): Video
    requires EditsOk(es)
  {
    if |es| == 0 then v
    else ApplyEdit(ApplyEdits(v, es[..|es| - 1]), es[|es| - 1])
  }

  /**
   * Every edit keeps an entry's counts in step with its annotations, never
   * changes its name or path, and status edits never touch the annotations
   * while annotation edits never touch the statuses.
   */
  lemma EditKeepsCounted(v: Video, e: Edit)
    requires EditOk(e)
    ensures Counted(v) ==> Counted(ApplyEdit(v, e))
    ensures ApplyEdit(v, e).fileName == v.fileName && ApplyEdit(v, e).filePath == v.filePath
    ensures (e.AppendStatus? || e.ResetStatus?) ==>
              ApplyEdit(v, e).annotations == v.annotations && ApplyEdit(v, e).statusCounts == v.statusCounts
    ensures (e.AppendAnnotation? || e.ResetAnnotations?) ==> ApplyEdit(v, e).statusList == v.statusList
  {
    if e.AppendAnnotation? {
      assert (v.annotations + [e.annotation])[..|v.annotations|] == v.annotations;
    }
  }

  /** The same for any sequence of edits: starting from the template, counts always equal the tally. */
  lemma {:induction false} EditsKeepCounted(v: Video, es: seq<Edit>)
    requires EditsOk(es)
    ensures Counted(v) ==> Counted(ApplyEdits(v, es))
    ensures ApplyEdits(v, es).fileName == v.fileName && ApplyEdits(v, es).filePath == v.filePath
  {
    if |es| > 0 {
      EditsKeepCounted(v, es[..|es| - 1]);
      EditKeepsCounted(ApplyEdits(v, es[..|es| - 1]), es[|es| - 1]);
    }
  }

  function StatusEdits(labels: seq<string>): (es: seq<Edit>)
    ensures |es| == |labels| && EditsOk(es)
  {
    if |labels| == 0 then []
    else StatusEdits(labels[..|labels| - 1]) + [AppendStatus(labels[|labels| - 1])]
  }

  function AnnotationEdits(anns: seq<Dict>): (es: seq<Edit>)
    requires forall k :: 0 <= k < |anns| ==> HasValidType(anns[k])
    ensures |es| == |anns| && EditsOk(es)
  {
    if |anns| == 0 then []
    else AnnotationEdits(anns[..|anns| - 1]) + [AppendAnnotation(anns[|anns| - 1])]
  }

  /** Appending labels one at a time appends them all, in order, and changes nothing else. */
  lemma {:induction false} StatusEditsAppend(v: Video, labels: seq<string>)
    ensures ApplyEdits(v, StatusEdits(labels)) == v.(statusList := v.statusList + labels)
  {
    if |labels| > 0 {
      var init := labels[..|labels| - 1];
      StatusEditsAppend(v, init);
      assert StatusEdits(labels)[..|labels| - 1] == StatusEdits(init);
      assert v.statusList + init + [labels[|labels| - 1]] == v.statusList + labels;
    }
  }

  /** Appending annotations one at a time appends them all, in order, and bumps the counts. */
  lemma {:induction false} AnnotationEditsAppend(v: Video, anns: seq<Dict>)
    requires forall k :: 0 <= k < |anns| ==> HasValidType(anns[k])
    ensures ApplyEdits(v, AnnotationEdits(anns)).annotations == v.annotations + anns
    ensures ApplyEdits(v, AnnotationEdits(anns)).statusList == v.statusList
    ensures Counted(v) ==> Counted(ApplyEdits(v, AnnotationEdits(anns)))
  {
    EditsKeepCounted(v, AnnotationEdits(anns));
    if |anns| > 0 {
      var init := anns[..|anns| - 1];
      AnnotationEditsAppend(v, init);
      assert AnnotationEdits(anns)[..|anns| - 1] == AnnotationEdits(init);
      assert v.annotations + init + [anns[|anns| - 1]] == v.annotations + anns;
    }
  }

  // ---------------------------------------------------------------------------
  // Lookup by name: `any(...)` and `next(...)`
  // ---------------------------------------------------------------------------

  /** The index `next` finds: the first entry with that name, if any. */
  function FirstIndex(vs: seq<Video>, name: string): (r: Option<nat>)
    ensures r.Some? ==> r.value < |vs| && vs[r.value].fileName == name
                        && forall j :: 0 <= j < r.value ==> vs[j].fileName != name
    ensures r.None? <==> forall j :: 0 <= j < |vs| ==> vs[j].fileName != name
  {
    if |vs| == 0 then None
    else if vs[0].fileName == name then Some(0)
    else match FirstIndex(vs[1..], name)
      case None => None
      case Some(i) => Some(i + 1)
  }

  /** The first match depends on the names only. */
  lemma FirstIndexSameNames(a: seq<Video>, b: seq<Video>, name: string)
    requires |a| == |b| && forall j :: 0 <= j < |a| ==> a[j].fileName == b[j].fileName
    ensures FirstIndex(a, name) == FirstIndex(b, name)
  {
  }

  /** Appending an entry leaves an existing first match alone; otherwise the new entry may become it. */
  lemma FirstIndexAppend(vs: seq<Video>, x: Video, name: string)
    ensures FirstIndex(vs + [x], name)
            == if FirstIndex(vs, name).Some? then FirstIndex(vs, name)
               else if x.fileName == name then Some(|vs|)
               else None
  {
    var ws := vs + [x];
    assert forall j :: 0 <= j < |vs| ==> ws[j] == vs[j];
    assert ws[|vs|] == x;
  }

  /** Two updates at the same position: the second one wins. */
  lemma UpdateTwice<T>(a: seq<T>, i: nat, x: T, y: T)
    requires i < |a|
    ensures a[i := x][i := y] == a[i := y]
  {
  }

  /** Two updates of the same key: the second one wins. */
  lemma MapUpdateTwice<K, V>(m: map<K, V>, k: K, x: V, y: V)
    ensures m[k := x][k := y] == m[k := y]
  {
  }

  // ---------------------------------------------------------------------------
  // The document
  // ---------------------------------------------------------------------------

  type Store = map<string, seq<Video>>
  type Tasks = map<string, map<string, string>>

  /** Every entry's counts agree with its annotations. */
  predicate StoreCounted(s: Store) {
    forall d, j :: d in s && 0 <= j < |s[d]| ==> Counted(s[d][j])
  }

  /** Replacing one entry by a counted one keeps the whole store counted. */
  lemma StoreCountedUpdate(s: Store, deviceId: string, i: nat, v: Video)
    requires StoreCounted(s) && deviceId in s && i < |s[deviceId]| && Counted(v)
    ensures StoreCounted(s[deviceId := s[deviceId][i := v]])
  {
  }

  /** A mutator's return value: the patch's two snapshots, or the not-found message. */
  datatype Outcome = Patch(before: seq<Video>, after: seq<Video>) | NotFound(message: string)

  /** The store after a mutator, and what it returned. */
  datatype Updated = Updated(store: Store, outcome: Outcome)

  /** `remove_device` and `clear_annotations` capitalise "Device"; the others do not. */
  function DeviceNotFound(capital: bool, deviceId: string): string {
    (if capital then "Device ID " else "device ID ") + deviceId + " not found"
  }

  function VideoNotFound(videoName: string, deviceId: string): string {
    "Video " + videoName + " not found for device " + deviceId
  }

  /** `get_device_videos`: the device's list, or empty for an unknown device. */
  function DeviceVideos(s: Store, deviceId: string): seq<Video> {
    if deviceId in s then s[deviceId] else []
  }

  /**
   * `add_status`, `clear_status`, `add_annotation` and `clear_annotations`:
   * check the device, check the name, then edit the first entry of that name.
   */
  function EditVideo(s: Store, deviceId: string, videoName: string, e: Edit): Updated
    requires EditOk(e)
  {
    if deviceId !in s then Updated(s, NotFound(DeviceNotFound(e.ResetAnnotations?, deviceId)))
    else match FirstIndex(s[deviceId], videoName)
      case None => Updated(s, NotFound(VideoNotFound(videoName, deviceId)))
      case Some(i) =>
        var after := s[deviceId][i := ApplyEdit(s[deviceId][i], e)];
        Updated(s[deviceId := after], Patch(s[deviceId], after))
  }

  /**
   * An edit reports not-found exactly when the device is unknown or holds no
   * entry of that name, and then leaves the document unchanged.
   */
  lemma EditVideoNotFound(s: Store, deviceId: string, videoName: string, e: Edit)
    requires EditOk(e)
    ensures EditVideo(s, deviceId, videoName, e).outcome.NotFound?
            <==> deviceId !in s || forall j :: 0 <= j < |s[deviceId]| ==> s[deviceId][j].fileName != videoName
    ensures EditVideo(s, deviceId, videoName, e).outcome.NotFound? ==> EditVideo(s, deviceId, videoName, e).store == s
    ensures deviceId !in s ==>
              EditVideo(s, deviceId, videoName, e).outcome.message == DeviceNotFound(e.ResetAnnotations?, deviceId)
  {
  }

  /**
   * A found edit changes only the first entry of that name on that device,
   * keeps every name (so later lookups find the same entry), keeps counts in
   * step, and its patch runs from the old list to the new one.
   */
  lemma EditVideoFound(s: Store, deviceId: string, videoName: string, e: Edit, i: nat)
    requires EditOk(e)
    requires deviceId in s && FirstIndex(s[deviceId], videoName) == Some(i)
    ensures var r := EditVideo(s, deviceId, videoName, e);
            r.store.Keys == s.Keys
            && (forall d :: d in s && d != deviceId ==> r.store[d] == s[d])
            && |r.store[deviceId]| == |s[deviceId]|
            && (forall j :: 0 <= j < |s[deviceId]| && j != i ==> r.store[deviceId][j] == s[deviceId][j])
            && r.store[deviceId][i] == ApplyEdit(s[deviceId][i], e)
            && r.outcome == Patch(s[deviceId], r.store[deviceId])
            && (forall n :: FirstIndex(r.store[deviceId], n) == FirstIndex(s[deviceId], n))
            && (StoreCounted(s) ==> StoreCounted(r.store))
  {
    var list := s[deviceId];
    var after := list[i := ApplyEdit(list[i], e)];
    assert EditVideo(s, deviceId, videoName, e) == Updated(s[deviceId := after], Patch(list, after));
    EditKeepsCounted(list[i], e);
    forall n ensures FirstIndex(after, n) == FirstIndex(list, n) {
      FirstIndexSameNames(after, list, n);
    }
    if StoreCounted(s) {
      StoreCountedUpdate(s, deviceId, i, ApplyEdit(list[i], e));
    }
  }

  /** Every edit, found or not, keeps the counts of every entry in step. */
  lemma EditVideoKeepsCounted(s: Store, deviceId: string, videoName: string, e: Edit)
    requires EditOk(e)
    ensures StoreCounted(s) ==> StoreCounted(EditVideo(s, deviceId, videoName, e).store)
  {
    if deviceId in s && FirstIndex(s[deviceId], videoName).Some? {
      EditVideoFound(s, deviceId, videoName, e, FirstIndex(s[deviceId], videoName).value);
    }
  }

  /** Several edits of the same video, one call each, as `add_video` and the progress sweep make them. */
  function EditVideoAll(s: Store, deviceId: string, videoName: string, es: seq<Edit>): Store
    requires EditsOk(es)
  {
    if |es| == 0 then s
    else EditVideo(EditVideoAll(s, deviceId, videoName, es[..|es| - 1]), deviceId, videoName, es[|es| - 1]).store
  }

  /** Repeated calls all edit the same entry: the one first found by name. */
  lemma {:induction false} EditVideoAllFound(s: Store, deviceId: string, videoName: string, es: seq<Edit>, i: nat)
    requires EditsOk(es)
    requires deviceId in s && FirstIndex(s[deviceId], videoName) == Some(i)
    ensures EditVideoAll(s, deviceId, videoName, es)
            == s[deviceId := s[deviceId][i := ApplyEdits(s[deviceId][i], es)]]
  {
    if |es| > 0 {
      var init := es[..|es| - 1];
      var last := es[|es| - 1];
      var list := s[deviceId];
      var a := ApplyEdits(list[i], init);
      var b := ApplyEdit(a, last);
      var mid := EditVideoAll(s, deviceId, videoName, init);
      EditVideoAllFound(s, deviceId, videoName, init, i);
      assert mid == s[deviceId := list[i := a]];
      EditsKeepCounted(list[i], init);
      FirstIndexSameNames(list[i := a], list, videoName);
      assert EditVideo(mid, deviceId, videoName, last).store == mid[deviceId := list[i := a][i := b]];
      UpdateTwice(list, i, a, b);
      MapUpdateTwice(s, deviceId, list[i := a], list[i := b]);
      assert b == ApplyEdits(list[i], es);
    } else {
      assert s[deviceId][i := s[deviceId][i]] == s[deviceId];
      assert s[deviceId := s[deviceId]] == s;
    }
  }

  /** Edits of an unknown device or an absent name change nothing. */
  lemma {:induction false} EditVideoAllNotFound(s: Store, deviceId: string, videoName: string, es: seq<Edit>)
    requires EditsOk(es)
    requires deviceId !in s || FirstIndex(s[deviceId], videoName).None?
    ensures EditVideoAll(s, deviceId, videoName, es) == s
  {
    if |es| > 0 {
      EditVideoAllNotFound(s, deviceId, videoName, es[..|es| - 1]);
    }
  }

  // ---------------------------------------------------------------------------
  // Devices and videos
  // ---------------------------------------------------------------------------

  /** `add_device`: create an empty list only for an unknown device. */
  function AddDeviceTo(s: Store, deviceId: string): Updated {
    var t := if deviceId in s then s else s[deviceId := []];
    Updated(t, Patch([], t[deviceId]))
  }

  /** `add_device` never clears an existing list, and its patch adds the whole list. */
  lemma AddDeviceKeepsList(s: Store, deviceId: string)
    ensures deviceId in s ==> AddDeviceTo(s, deviceId) == Updated(s, Patch([], s[deviceId]))
    ensures deviceId !in s ==> AddDeviceTo(s, deviceId).store == s[deviceId := []]
    ensures AddDeviceTo(s, deviceId).store.Keys == s.Keys + {deviceId}
  {
  }

  /** `remove_device`. */
  function RemoveDeviceFrom(s: Store, deviceId: string): Updated {
    if deviceId !in s then Updated(s, NotFound(DeviceNotFound(true, deviceId)))
    else Updated(s - {deviceId}, Patch(s[deviceId], []))
  }

  /** `remove_device` deletes exactly that key, or reports not-found and changes nothing. */
  lemma RemoveDeviceDeletes(s: Store, deviceId: string)
    ensures RemoveDeviceFrom(s, deviceId).outcome.NotFound? <==> deviceId !in s
    ensures RemoveDeviceFrom(s, deviceId).store.Keys == s.Keys - {deviceId}
    ensures forall d :: d in RemoveDeviceFrom(s, deviceId).store ==> RemoveDeviceFrom(s, deviceId).store[d] == s[d]
  {
  }

  /** The label list `add_video` uses when it is given no other. */
  const DefaultStatus: seq<string> := ["uploaded"]

  function OrEmpty<T>(o: Option<seq<T>>): seq<T> {
    if o.Some? then o.value else []
  }

  predicate AllValidTypes(anns: seq<Dict>) {
    forall k :: 0 <= k < |anns| ==> HasValidType(anns[k])
  }

  /**
   * `add_video`: append a template entry, then add each status and each
   * annotation by name, which lands on the FIRST entry of that name.
   */
  function AddVideoTo(s: Store, deviceId: string, videoName: string, videoPath: string,
                      status: Option<seq<string>>, annotations: Option<seq<Dict>>): Updated
    requires AllValidTypes(OrEmpty(annotations))
  {
    var before := DeviceVideos(s, deviceId);
    var after := AppendVideo(before, videoName, videoPath, OrEmpty(status), OrEmpty(annotations));
    Updated(s[deviceId := after], Patch(before, after))
  }

  /** The device's list after `add_video`. */
  function AppendVideo(before: seq<Video>, videoName: string, videoPath: string,
                       labels: seq<string>, anns: seq<Dict>): (after: seq<Video>)
    requires AllValidTypes(anns)
    ensures |after| == |before| + 1
  {
    var appended := before + [NewVideo(videoName, videoPath)];
    FirstIndexAppend(before, NewVideo(videoName, videoPath), videoName);
    var i := FirstIndex(appended, videoName).value;
    appended[i := ApplyEdits(ApplyEdits(appended[i], StatusEdits(labels)), AnnotationEdits(anns))]
  }

  /** The template entry with the statuses and then the annotations applied holds exactly those, with matching counts. */
  lemma EditedTemplate(videoName: string, videoPath: string, labels: seq<string>, anns: seq<Dict>)
    requires AllValidTypes(anns)
    ensures ApplyEdits(ApplyEdits(NewVideo(videoName, videoPath), StatusEdits(labels)), AnnotationEdits(anns))
            == Video(videoName, videoPath, labels, anns, Tally(anns))
  {
    var v0 := NewVideo(videoName, videoPath);
    StatusEditsAppend(v0, labels);
    var v1 := ApplyEdits(v0, StatusEdits(labels));
    assert v1 == Video(videoName, videoPath, labels, [], ZeroCounts);
    AnnotationEditsAppend(v1, anns);
    EditsKeepCounted(v1, AnnotationEdits(anns));
  }

  /**
   * `add_video` creates the device if needed and appends exactly one entry;
   * its patch runs from the list before to the list after.
   */
  lemma AddVideoShape(s: Store, deviceId: string, videoName: string, videoPath: string,
                      status: Option<seq<string>>, annotations: Option<seq<Dict>>)
    requires AllValidTypes(OrEmpty(annotations))
    ensures var r := AddVideoTo(s, deviceId, videoName, videoPath, status, annotations);
            r.store.Keys == s.Keys + {deviceId}
            && (forall d :: d in s && d != deviceId ==> r.store[d] == s[d])
            && r.outcome == Patch(DeviceVideos(s, deviceId), r.store[deviceId])
  {
  }

  /**
   * For a new name, the rest of the list is unchanged and the appended entry
   * holds the given statuses and annotations in order, with matching counts.
   */
  lemma AddVideoNewName(s: Store, deviceId: string, videoName: string, videoPath: string,
                        status: Option<seq<string>>, annotations: Option<seq<Dict>>)
    requires AllValidTypes(OrEmpty(annotations))
    requires FirstIndex(DeviceVideos(s, deviceId), videoName).None?
    ensures var r := AddVideoTo(s, deviceId, videoName, videoPath, status, annotations);
            var n := |DeviceVideos(s, deviceId)|;
            r.store[deviceId] == DeviceVideos(s, deviceId)
                                 + [Video(videoName, videoPath, OrEmpty(status), OrEmpty(annotations),
                                          Tally(OrEmpty(annotations)))]
  {
    var before := DeviceVideos(s, deviceId);
    FirstIndexAppend(before, NewVideo(videoName, videoPath), videoName);
    EditedTemplate(videoName, videoPath, OrEmpty(status), OrEmpty(annotations));
  }

  /**
   * For a name already on the device, the appended entry stays as the
   * template made it: the statuses and annotations go to the earlier entry.
   */
  lemma AddVideoDuplicateName(s: Store, deviceId: string, videoName: string, videoPath: string,
                              status: Option<seq<string>>, annotations: Option<seq<Dict>>)
    requires AllValidTypes(OrEmpty(annotations))
    requires FirstIndex(DeviceVideos(s, deviceId), videoName).Some?
    ensures var r := AddVideoTo(s, deviceId, videoName, videoPath, status, annotations);
            var before := DeviceVideos(s, deviceId);
            var i := FirstIndex(before, videoName).value;
            r.store[deviceId][|before|] == NewVideo(videoName, videoPath)
            && r.store[deviceId][i].statusList == before[i].statusList + OrEmpty(status)
            && r.store[deviceId][i].annotations == before[i].annotations + OrEmpty(annotations)
  {
    var before := DeviceVideos(s, deviceId);
    var i := FirstIndex(before, videoName).value;
    var appended := before + [NewVideo(videoName, videoPath)];
    FirstIndexAppend(before, NewVideo(videoName, videoPath), videoName);
    StatusEditsAppend(appended[i], OrEmpty(status));
    var v1 := ApplyEdits(appended[i], StatusEdits(OrEmpty(status)));
    AnnotationEditsAppend(v1, OrEmpty(annotations));
  }

  /**
   * `add_video` as the source performs it: append the template entry, then
   * one `add_status` call per label and one `add_annotation` call per
   * annotation, each by name.
   */
  lemma AddVideoByEdits(start: Store, deviceId: string, before: seq<Video>, videoName: string, videoPath: string,
                        labels: seq<string>, anns: seq<Dict>)
    requires AllValidTypes(anns)
    requires deviceId in start && start[deviceId] == before + [NewVideo(videoName, videoPath)]
    ensures var mid := EditVideoAll(start, deviceId, videoName, StatusEdits(labels));
            EditVideoAll(mid, deviceId, videoName, AnnotationEdits(anns))
            == start[deviceId := AppendVideo(before, videoName, videoPath, labels, anns)]
  {
    var appended := start[deviceId];
    FirstIndexAppend(before, NewVideo(videoName, videoPath), videoName);
    var i := FirstIndex(appended, videoName).value;
    EditVideoAllFound(start, deviceId, videoName, StatusEdits(labels), i);
    var mid := EditVideoAll(start, deviceId, videoName, StatusEdits(labels));
    EditsKeepCounted(appended[i], StatusEdits(labels));
    FirstIndexSameNames(mid[deviceId], appended, videoName);
    EditVideoAllFound(mid, deviceId, videoName, AnnotationEdits(anns), i);
    var v1 := ApplyEdits(appended[i], StatusEdits(labels));
    var v2 := ApplyEdits(v1, AnnotationEdits(anns));
    assert mid[deviceId] == appended[i := v1];
    UpdateTwice(appended, i, v1, v2);
    assert AppendVideo(before, videoName, videoPath, labels, anns) == appended[i := v2];
    MapUpdateTwice(start, deviceId, appended[i := v1], appended[i := v2]);
  }

  /** Everything but the entries matching `name`, in their original order. */
  function WithoutName(vs: seq<Video>, name: string): seq<Video> {
    if |vs| == 0 then []
    else if vs[|vs| - 1].fileName == name then WithoutName(vs[..|vs| - 1], name)
    else WithoutName(vs[..|vs| - 1], name) + [vs[|vs| - 1]]
  }

  /** The kept entries are exactly those with another name. */
  lemma {:induction false} WithoutNameMembers(vs: seq<Video>, name: string, v: Video)
    ensures v in WithoutName(vs, name) <==> v in vs && v.fileName != name
    ensures |WithoutName(vs, name)| <= |vs|
  {
    if |vs| > 0 {
      WithoutNameMembers(vs[..|vs| - 1], name, v);
      assert vs == vs[..|vs| - 1] + [vs[|vs| - 1]];
    }
  }

  /** Filtering keeps the original order: it distributes over concatenation. */
  lemma {:induction false} WithoutNameAppend(a: seq<Video>, b: seq<Video>, name: string)
    ensures WithoutName(a + b, name) == WithoutName(a, name) + WithoutName(b, name)
  {
    if |b| > 0 {
      var init := b[..|b| - 1];
      WithoutNameAppend(a, init, name);
      assert (a + b)[..|a + b| - 1] == a + init;
    } else {
      assert a + b == a;
    }
  }

  /** A list with no entry of that name is left as it is. */
  lemma {:induction false} WithoutNameAbsent(vs: seq<Video>, name: string)
    requires forall j :: 0 <= j < |vs| ==> vs[j].fileName != name
    ensures WithoutName(vs, name) == vs
  {
    if |vs| > 0 {
      WithoutNameAbsent(vs[..|vs| - 1], name);
    }
  }

  /** `remove_video`. */
  function RemoveVideoFrom(s: Store, deviceId: string, videoName: string): Updated {
    if deviceId !in s then Updated(s, NotFound(DeviceNotFound(false, deviceId)))
    else if FirstIndex(s[deviceId], videoName).None? then Updated(s, NotFound(VideoNotFound(videoName, deviceId)))
    else
      var after := WithoutName(s[deviceId], videoName);
      Updated(s[deviceId := after], Patch(s[deviceId], after))
  }

  /**
   * `remove_video` drops every entry of that name from that device and keeps
   * the rest, or reports not-found and changes nothing.
   */
  lemma RemoveVideoDrops(s: Store, deviceId: string, videoName: string)
    ensures var r := RemoveVideoFrom(s, deviceId, videoName);
            (r.outcome.NotFound? <==> deviceId !in s || forall j :: 0 <= j < |s[deviceId]| ==> s[deviceId][j].fileName != videoName)
            && (r.outcome.NotFound? ==> r.store == s)
            && r.store.Keys == s.Keys
            && (forall d :: d in s && d != deviceId ==> r.store[d] == s[d])
            && (deviceId in s ==> forall v :: v in r.store[deviceId] <==> v in s[deviceId] && v.fileName != videoName)
            && (StoreCounted(s) ==> StoreCounted(r.store))
  {
    var r := RemoveVideoFrom(s, deviceId, videoName);
    if deviceId in s {
      forall v ensures v in r.store[deviceId] <==> v in s[deviceId] && v.fileName != videoName {
        WithoutNameMembers(s[deviceId], videoName, v);
        if FirstIndex(s[deviceId], videoName).None? {
          WithoutNameAbsent(s[deviceId], videoName);
        }
      }
      if StoreCounted(s) {
        forall d, j | d in r.store && 0 <= j < |r.store[d]| ensures Counted(r.store[d][j]) {
          if d == deviceId {
            WithoutNameMembers(s[deviceId], videoName, r.store[d][j]);
          }
        }
      }
    }
  }

  // ---------------------------------------------------------------------------
  // Task handles
  // ---------------------------------------------------------------------------

  /** `add_task`: create the device's map if needed, then set (or overwrite) the handle. */
  function WithTask(t: Tasks, deviceId: string, videoName: string, taskId: string): Tasks {
    var handles := if deviceId in t then t[deviceId] else map[];
    t[deviceId := handles[videoName := taskId]]
  }

  /** `get_task`. */
  function TaskOf(t: Tasks, deviceId: string, videoName: string): Option<string> {
    if deviceId in t && videoName in t[deviceId] then Some(t[deviceId][videoName]) else None
  }

  /** `remove_task`: delete the handle if it is there. */
  function WithoutTask(t: Tasks, deviceId: string, videoName: string): Tasks {
    if deviceId in t && videoName in t[deviceId] then t[deviceId := t[deviceId] - {videoName}] else t
  }

  /** `get_task` after `add_task` returns the new id, whatever was there before; other handles are untouched. */
  lemma GetAfterAdd(t: Tasks, deviceId: string, videoName: string, taskId: string)
    ensures TaskOf(WithTask(t, deviceId, videoName, taskId), deviceId, videoName) == Some(taskId)
    ensures forall d, n :: (d, n) != (deviceId, videoName) ==>
              TaskOf(WithTask(t, deviceId, videoName, taskId), d, n) == TaskOf(t, d, n)
  {
  }

  /** `get_task` after `remove_task` returns None; other handles are untouched. */
  lemma GetAfterRemove(t: Tasks, deviceId: string, videoName: string)
    ensures TaskOf(WithoutTask(t, deviceId, videoName), deviceId, videoName) == None
    ensures forall d, n :: (d, n) != (deviceId, videoName) ==>
              TaskOf(WithoutTask(t, deviceId, videoName), d, n) == TaskOf(t, d, n)
  {
  }

  /** Removing an absent handle is a no-op, and removing an added handle undoes the add when it was new. */
  lemma RemoveTaskUndoes(t: Tasks, deviceId: string, videoName: string, taskId: string)
    ensures TaskOf(t, deviceId, videoName).None? ==> WithoutTask(t, deviceId, videoName) == t
    ensures deviceId in t && TaskOf(t, deviceId, videoName).None? ==>
              WithoutTask(WithTask(t, deviceId, videoName, taskId), deviceId, videoName) == t
  {
    if deviceId in t && TaskOf(t, deviceId, videoName).None? {
      assert t[deviceId][videoName := taskId] - {videoName} == t[deviceId];
    }
  }

  // ---------------------------------------------------------------------------
  // Reconciling with the files on disk
  // ---------------------------------------------------------------------------

  /** `list.remove`: drop the first element equal to `x`. */
  function RemoveFirst(vs: seq<Video>, x: Video): (r: seq<Video>)
    requires x in vs
    ensures |r| == |vs| - 1
    ensures multiset(r) == multiset(vs) - multiset{x}
  {
    if vs[0] == x then
      assert vs == [vs[0]] + vs[1..];
      vs[1..]
    else
      assert vs == [vs[0]] + vs[1..];
      [vs[0]] + RemoveFirst(vs[1..], x)
  }

  /**
   * The loop of `sync_videos` over one device's list from position `i` on:
   * it removes the entry at `i` from the list it is iterating over whenever
   * the file is missing, and moves on to position `i + 1` either way.
   * `existing` holds the (device, file name) pairs whose file exists.
   */
  function SyncFrom(deviceId: string, vs: seq<Video>, i: nat, existing: set<(string, string)>): seq<Video>
    decreases |vs| - i
  {
    if i >= |vs| then vs
    else if (deviceId, vs[i].fileName) in existing then SyncFrom(deviceId, vs, i + 1, existing)
    else SyncFrom(deviceId, RemoveFirst(vs, vs[i]), i + 1, existing)
  }

  function SyncList(deviceId: string, vs: seq<Video>, existing: set<(string, string)>): seq<Video> {
    SyncFrom(deviceId, vs, 0, existing)
  }

  function SyncStore(s: Store, existing: set<(string, string)>): Store {
    map d | d in s :: SyncList(d, s[d], existing)
  }

  /**
   * The sweep only removes entries, only entries whose file is missing, and
   * never an entry whose file exists.
   */
  lemma {:induction false} SyncFromOnlyRemovesMissing(deviceId: string, vs: seq<Video>, i: nat,
                                                       existing: set<(string, string)>)
    ensures multiset(SyncFrom(deviceId, vs, i, existing)) <= multiset(vs)
    ensures forall v: Video :: (deviceId, v.fileName) in existing ==>
              multiset(SyncFrom(deviceId, vs, i, existing))[v] == multiset(vs)[v]
    decreases |vs| - i
  {
    if i < |vs| {
      if (deviceId, vs[i].fileName) in existing {
        SyncFromOnlyRemovesMissing(deviceId, vs, i + 1, existing);
      } else {
        SyncFromOnlyRemovesMissing(deviceId, RemoveFirst(vs, vs[i]), i + 1, existing);
      }
    }
  }

  /** Every entry the sweep keeps was in the list before. */
  lemma SyncListSubset(deviceId: string, vs: seq<Video>, existing: set<(string, string)>)
    ensures forall v :: v in SyncList(deviceId, vs, existing) ==> v in vs
  {
    SyncFromOnlyRemovesMissing(deviceId, vs, 0, existing);
    forall v | v in SyncList(deviceId, vs, existing) ensures v in vs {
      assert multiset(SyncList(deviceId, vs, existing))[v] > 0;
    }
  }

  /** The sweep keeps counts in step, since it only removes entries. */
  lemma SyncStoreKeepsCounted(s: Store, existing: set<(string, string)>)
    ensures SyncStore(s, existing).Keys == s.Keys
    ensures StoreCounted(s) ==> StoreCounted(SyncStore(s, existing))
  {
    var r := SyncStore(s, existing);
    if StoreCounted(s) {
      forall d, j | d in r && 0 <= j < |r[d]| ensures Counted(r[d][j]) {
        SyncListSubset(d, s[d], existing);
        assert r[d][j] in s[d];
      }
    }
  }

  /**
   * Removing from the list being iterated skips the next entry: with two
   * entries whose files are both missing, the second one survives the sweep.
   */
  lemma SyncSkipsAfterRemove(deviceId: string, a: Video, b: Video)
    requires a != b
    ensures SyncList(deviceId, [a, b], {}) == [b]
  {
    assert RemoveFirst([a, b], a) == [b];
    assert SyncFrom(deviceId, [b], 1, {}) == [b];
  }

  // ---------------------------------------------------------------------------
  // The store object
  // ---------------------------------------------------------------------------

  /** Answer of `get_video`: the entry, or the not-found message. */
  datatype Lookup = Found(video: Video) | Missing(message: string)

  /**
   * The manager of the document. Loading and saving the JSON file are left
   * out: the constructor takes the document's two maps directly.
   */
  class VideoJsonManager {
    var videos: Store
    var activeTasks: Tasks

    /** Every entry's counts agree with its annotations. */
    ghost predicate Valid()
      reads this
    {
      StoreCounted(videos)
    }

    constructor (videos: Store, activeTasks: Tasks)
      ensures this.videos == videos && this.activeTasks == activeTasks
      ensures StoreCounted(videos) ==> Valid()
    {
      this.videos := videos;
      this.activeTasks := activeTasks;
    }

    /** The shared body of the four per-video mutators. */
    method EditEntry(deviceId: string, videoName: string, e: Edit) returns (r: Outcome)
      requires EditOk(e)
      modifies this
      ensures Updated(videos, r) == EditVideo(old(videos), deviceId, videoName, e)
      ensures activeTasks == old(activeTasks)
      ensures old(Valid()) ==> Valid()
    {
      EditVideoKeepsCounted(videos, deviceId, videoName, e);
      if deviceId !in videos {
        return NotFound(DeviceNotFound(e.ResetAnnotations?, deviceId));
      }
      var found := FirstIndex(videos[deviceId], videoName);
      if found.None? {
        return NotFound(VideoNotFound(videoName, deviceId));
      }
      var before := videos[deviceId];
      var i := found.value;
      var list := before[i := ApplyEdit(before[i], e)];
      videos := videos[deviceId := list];
      r := Patch(before, list);
    }

    method ClearStatus(deviceId: string, videoName: string) returns (r: Outcome)
      modifies this
      ensures Updated(videos, r) == EditVideo(old(videos), deviceId, videoName, ResetStatus)
      ensures activeTasks == old(activeTasks)
      ensures old(Valid()) ==> Valid()
    {
      r := EditEntry(deviceId, videoName, ResetStatus);
    }

    method AddStatus(deviceId: string, videoName: string, status: string) returns (r: Outcome)
      modifies this
      ensures Updated(videos, r) == EditVideo(old(videos), deviceId, videoName, AppendStatus(status))
      ensures activeTasks == old(activeTasks)
      ensures old(Valid()) ==> Valid()
    {
      r := EditEntry(deviceId, videoName, AppendStatus(status));
    }

    method AddAnnotation(deviceId: string, videoName: string, annotation: Dict) returns (r: Outcome)
      requires HasValidType(annotation)
      modifies this
      ensures Updated(videos, r) == EditVideo(old(videos), deviceId, videoName, AppendAnnotation(annotation))
      ensures activeTasks == old(activeTasks)
      ensures old(Valid()) ==> Valid()
    {
      r := EditEntry(deviceId, videoName, AppendAnnotation(annotation));
    }

    method ClearAnnotations(deviceId: string, videoName: string) returns (r: Outcome)
      modifies this
      ensures Updated(videos, r) == EditVideo(old(videos), deviceId, videoName, ResetAnnotations)
      ensures activeTasks == old(activeTasks)
      ensures old(Valid()) ==> Valid()
    {
      r := EditEntry(deviceId, videoName, ResetAnnotations);
    }

    method AddDevice(deviceId: string) returns (r: Outcome)
      modifies this
      ensures Updated(videos, r) == AddDeviceTo(old(videos), deviceId)
      ensures activeTasks == old(activeTasks)
      ensures old(Valid()) ==> Valid()
    {
      if deviceId !in videos {
        videos := videos[deviceId := []];
      }
      r := Patch([], videos[deviceId]);
    }

    method RemoveDevice(deviceId: string) returns (r: Outcome)
      modifies this
      ensures Updated(videos, r) == RemoveDeviceFrom(old(videos), deviceId)
      ensures activeTasks == old(activeTasks)
      ensures old(Valid()) ==> Valid()
    {
      if deviceId !in videos {
        return NotFound(DeviceNotFound(true, deviceId));
      }
      var before := videos[deviceId];
      videos := videos - {deviceId};
      r := Patch(before, []);
    }

    /** One `add_status` call per label, in order. */
    method AddStatuses(deviceId: string, videoName: string, labels: seq<string>)
      modifies this
      ensures videos == EditVideoAll(old(videos), deviceId, videoName, StatusEdits(labels))
      ensures activeTasks == old(activeTasks)
      ensures old(Valid()) ==> Valid()
    {
      for k := 0 to |labels|
        invariant videos == EditVideoAll(old(videos), deviceId, videoName, StatusEdits(labels[..k]))
        invariant activeTasks == old(activeTasks)
        invariant old(Valid()) ==> Valid()
      {
        assert labels[..k + 1][..k] == labels[..k];
        var _ := AddStatus(deviceId, videoName, labels[k]);
      }
      assert labels[..|labels|] == labels;
    }

    /** One `add_annotation` call per annotation, in order. */
    method AddAnnotations(deviceId: string, videoName: string, anns: seq<Dict>)
      requires AllValidTypes(anns)
      modifies this
      ensures videos == EditVideoAll(old(videos), deviceId, videoName, AnnotationEdits(anns))
      ensures activeTasks == old(activeTasks)
      ensures old(Valid()) ==> Valid()
    {
      for k := 0 to |anns|
        invariant videos == EditVideoAll(old(videos), deviceId, videoName, AnnotationEdits(anns[..k]))
        invariant activeTasks == old(activeTasks)
        invariant old(Valid()) ==> Valid()
      {
        assert anns[..k + 1][..k] == anns[..k];
        var _ := AddAnnotation(deviceId, videoName, anns[k]);
      }
      assert anns[..|anns|] == anns;
    }

    method AddVideo(deviceId: string, videoName: string, videoPath: string,
                    status: Option<seq<string>>, annotations: Option<seq<Dict>>) returns (r: Outcome)
      requires AllValidTypes(OrEmpty(annotations))
      modifies this
      ensures Updated(videos, r) == AddVideoTo(old(videos), deviceId, videoName, videoPath, status, annotations)
      ensures activeTasks == old(activeTasks)
      ensures old(Valid()) ==> Valid()
    {
      if deviceId !in videos {
        videos := videos[deviceId := []];
      }
      var before := videos[deviceId];
      var appended := before + [NewVideo(videoName, videoPath)];
      videos := videos[deviceId := appended];
      ghost var start := videos;
      MapUpdateTwice(old(videos), deviceId, [], appended);
      assert Valid() <== old(Valid());
      AddStatuses(deviceId, videoName, OrEmpty(status));
      AddAnnotations(deviceId, videoName, OrEmpty(annotations));
      AddVideoByEdits(start, deviceId, before, videoName, videoPath, OrEmpty(status), OrEmpty(annotations));
      MapUpdateTwice(old(videos), deviceId, appended, videos[deviceId]);
      r := Patch(before, videos[deviceId]);
    }

    method RemoveVideo(deviceId: string, videoName: string) returns (r: Outcome)
      modifies this
      ensures Updated(videos, r) == RemoveVideoFrom(old(videos), deviceId, videoName)
      ensures activeTasks == old(activeTasks)
      ensures old(Valid()) ==> Valid()
    {
      RemoveVideoDrops(videos, deviceId, videoName);
      if deviceId !in videos {
        return NotFound(DeviceNotFound(false, deviceId));
      }
      if FirstIndex(videos[deviceId], videoName).None? {
        return NotFound(VideoNotFound(videoName, deviceId));
      }
      var before := videos[deviceId];
      videos := videos[deviceId := WithoutName(before, videoName)];
      r := Patch(before, videos[deviceId]);
    }

    method AddTask(deviceId: string, videoName: string, taskId: string)
      modifies this
      ensures activeTasks == WithTask(old(activeTasks), deviceId, videoName, taskId)
      ensures videos == old(videos)
    {
      if deviceId !in activeTasks {
        activeTasks := activeTasks[deviceId := map[]];
      }
      activeTasks := activeTasks[deviceId := activeTasks[deviceId][videoName := taskId]];
    }

    method GetTask(deviceId: string, videoName: string) returns (r: Option<string>)
      ensures r.Some? <==> deviceId in activeTasks && videoName in activeTasks[deviceId]
      ensures r.Some? ==> r.value == activeTasks[deviceId][videoName]
    {
      if deviceId in activeTasks && videoName in activeTasks[deviceId] {
        return Some(activeTasks[deviceId][videoName]);
      }
      return None;
    }

    method RemoveTask(deviceId: string, videoName: string)
      modifies this
      ensures activeTasks == WithoutTask(old(activeTasks), deviceId, videoName)
      ensures videos == old(videos)
    {
      if deviceId in activeTasks && videoName in activeTasks[deviceId] {
        activeTasks := activeTasks[deviceId := activeTasks[deviceId] - {videoName}];
      }
    }

    /** `get_video`: the first entry of that name, or the not-found message. */
    method GetVideo(deviceId: string, videoName: string) returns (r: Lookup)
      ensures r.Missing? <==> deviceId !in videos
                              || forall j :: 0 <= j < |videos[deviceId]| ==> videos[deviceId][j].fileName != videoName
      ensures deviceId !in videos ==> r == Missing(DeviceNotFound(false, deviceId))
      ensures deviceId in videos && FirstIndex(videos[deviceId], videoName).None? ==>
                r == Missing(VideoNotFound(videoName, deviceId))
      ensures r.Found? ==> exists i :: 0 <= i < |videos[deviceId]| && r.video == videos[deviceId][i]
                                       && r.video.fileName == videoName
                                       && forall j :: 0 <= j < i ==> videos[deviceId][j].fileName != videoName
    {
      if deviceId !in videos {
        return Missing(DeviceNotFound(false, deviceId));
      }
      var found := FirstIndex(videos[deviceId], videoName);
      if found.None? {
        return Missing(VideoNotFound(videoName, deviceId));
      }
      r := Found(videos[deviceId][found.value]);
    }

    method GetDeviceVideos(deviceId: string) returns (r: seq<Video>)
      ensures deviceId in videos ==> r == videos[deviceId]
      ensures deviceId !in videos ==> r == []
    {
      if deviceId !in videos {
        return [];
      }
      return videos[deviceId];
    }

    /**
     * `sync_videos`: for each device, walk its list by position and remove
     * each entry whose file is missing from the list being walked.
     */
    method SyncVideos(existing: set<(string, string)>)
      modifies this
      ensures videos == SyncStore(old(videos), existing)
      ensures activeTasks == old(activeTasks)
      ensures old(Valid()) ==> Valid()
    {
      ghost var start := videos;
      var pending := videos.Keys;
      while pending != {}
        invariant pending <= start.Keys && videos.Keys == start.Keys
        invariant forall d :: d in start ==>
                    videos[d] == (if d in pending then start[d] else SyncList(d, start[d], existing))
        invariant activeTasks == old(activeTasks)
        decreases pending
      {
        var d :| d in pending;
        var list := videos[d];
        var i: nat := 0;
        while i < |list|
          invariant SyncFrom(d, list, i, existing) == SyncList(d, start[d], existing)
          decreases |list| - i
        {
          var video := list[i];
          if (d, video.fileName) !in existing {
            list := RemoveFirst(list, video);
          }
          i := i + 1;
        }
        videos := videos[d := list];
        pending := pending - {d};
      }
      SyncStoreKeepsCounted(start, existing);
    }
  }
}
