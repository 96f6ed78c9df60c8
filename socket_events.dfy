/**
 * One pass of the background progress updater
 * (src/api/app/routes/socket_events.py): for every device with active task
 * handles, poll each task, rewrite the video's status to one mapped label,
 * drop the handle once the task is finished, clear or fill the annotations,
 * and emit a patch for the device when its list changed.
 *
 * The endless loop, the sleep between passes and the socket emission are
 * left out: a pass returns the patches it would emit. The job backend is a
 * map from task id to job; dictionary iteration order is given as
 * parameters.
 */
module SocketEvents {
  import opened Wrappers
  import opened AnnotationSchema
  import opened VideoJson
  import opened TaskManager

  /** `status_map`: the label shown for each job state the updater expects. */
  const StatusMap: map<string, string> :=
    map["PENDING" := "predicting", "STARTED" := "predicting",
        "SUCCESS" := "complete", "FAILURE" := "warnings-present"]

  predicate Finished(state: string) { state == "SUCCESS" || state == "FAILURE" }

  predicate InFlight(state: string) { state == "PENDING" || state == "STARTED" }

  /**
   * A status the updater can process: its state has a label (any other
   * state raises at the `status_map` lookup), it carries results exactly
   * when it is a success, as `get_task_status` answers, and a success's
   * annotations have valid types (any other raises in `add_annotation`).
   */
  predicate Sweepable(st: TaskStatus) {
    st.state in StatusMap
    && (st.state == "SUCCESS" <==> st.payload.Results?)
    && (st.payload.Results? ==> AllValidTypes(st.payload.items))
  }

  /**
   * The statuses `get_task_status` answers that a pass can process: those
   * whose state has a label, so a "RETRY" or unknown state raises at the
   * lookup, and a success's items must all have valid types.
   */
  lemma SweepableStates(job: Job)
    ensures Sweepable(GetTaskStatus(job))
            <==> job.state in StatusMap && (job.state == "SUCCESS" ==> AllValidTypes(job.items))
    ensures !Sweepable(GetTaskStatus(Job("RETRY", job.items)))
  {
  }

  /** The two maps of the document. */
  datatype Doc = Doc(videos: Store, tasks: Tasks)

  /** The calls made for one task, in the source's order. */
  function SweepTask(doc: Doc, deviceId: string, videoName: string, st: TaskStatus): Doc
    requires Sweepable(st)
  {
    var v1 := EditVideo(doc.videos, deviceId, videoName, ResetStatus).store;
    var v2 := EditVideo(v1, deviceId, videoName, AppendStatus(StatusMap[st.state])).store;
    var t := if Finished(st.state) then WithoutTask(doc.tasks, deviceId, videoName) else doc.tasks;
    var v3 :=
      if InFlight(st.state) then EditVideo(v2, deviceId, videoName, ResetAnnotations).store
      else if st.state == "SUCCESS" then EditVideoAll(v2, deviceId, videoName, AnnotationEdits(st.payload.items))
      else v2;
    Doc(v3, t)
  }

  /** The job of the task behind a handle can be processed. */
  predicate Runnable(jobs: map<string, Job>, taskId: string) {
    taskId in jobs && Sweepable(GetTaskStatus(jobs[taskId]))
  }

  /** Every name in `names` has a handle whose job can be processed. */
  predicate NamesReady(names: seq<string>, handles: map<string, string>, jobs: map<string, Job>) {
    forall j :: 0 <= j < |names| ==> names[j] in handles && Runnable(jobs, handles[names[j]])
  }

  /** The tasks of one device, visited in `names` order over the copy `handles` of its map. */
  function SweepNames(doc: Doc, deviceId: string, names: seq<string>, handles: map<string, string>,
                      jobs: map<string, Job>): Doc
    requires NamesReady(names, handles, jobs)
  {
    if |names| == 0 then doc
    else
      var name := names[|names| - 1];
      SweepTask(SweepNames(doc, deviceId, names[..|names| - 1], handles, jobs), deviceId, name,
                GetTaskStatus(jobs[handles[name]]))
  }

  /** A patch emitted for one device. */
  datatype DevicePatch = DevicePatch(deviceId: string, patch: Outcome)

  /** The document after the pass, and the patches emitted, in device order. */
  datatype Swept = Swept(doc: Doc, patches: seq<DevicePatch>)

  /** Every device listed has a handle map and a visiting order whose tasks can all be processed. */
  predicate DevicesReady(tasks: Tasks, devices: seq<string>, order: map<string, seq<string>>, jobs: map<string, Job>) {
    forall k :: 0 <= k < |devices| ==>
      devices[k] in tasks && devices[k] in order && NamesReady(order[devices[k]], tasks[devices[k]], jobs)
  }

  /**
   * The pass over `devices`, each visited with the handle map it had when the
   * pass started (`tasks0`). A device's patch runs from its list before its
   * tasks were visited to its list after, and is emitted only when they differ.
   */
  function SweepAll(doc: Doc, tasks0: Tasks, devices: seq<string>, order: map<string, seq<string>>,
                    jobs: map<string, Job>): Swept
    requires DevicesReady(tasks0, devices, order, jobs)
  {
    if |devices| == 0 then Swept(doc, [])
    else
      var prev := SweepAll(doc, tasks0, devices[..|devices| - 1], order, jobs);
      var d := devices[|devices| - 1];
      var one := SweepOne(prev.doc, d, order[d], tasks0[d], jobs);
      Swept(one.doc, prev.patches + one.patches)
  }

  /** One device of the pass: its tasks, then its patch if its list changed. */
  function SweepOne(doc: Doc, deviceId: string, names: seq<string>, handles: map<string, string>,
                    jobs: map<string, Job>): Swept
    requires NamesReady(names, handles, jobs)
  {
    var next := SweepNames(doc, deviceId, names, handles, jobs);
    var before := DeviceVideos(doc.videos, deviceId);
    var after := DeviceVideos(next.videos, deviceId);
    Swept(next, if before != after then [DevicePatch(deviceId, Patch(before, after))] else [])
  }

  predicate Distinct(xs: seq<string>) {
    forall a, b :: 0 <= a < b < |xs| ==> xs[a] != xs[b]
  }

  /** `xs` lists the keys of a map once each, as iterating over the map does. */
  predicate Enumerates<V>(xs: seq<string>, m: map<string, V>) {
    Distinct(xs) && (forall x :: x in xs ==> x in m) && (forall x :: x in m ==> x in xs)
  }

  /**
   * What the pass needs: the device order enumerates the handle map, each
   * device's order enumerates its handles, and every job can be processed.
   */
  predicate SweepReady(tasks: Tasks, devices: seq<string>, order: map<string, seq<string>>, jobs: map<string, Job>) {
    Enumerates(devices, tasks)
    && (forall d :: d in tasks ==> d in order && Enumerates(order[d], tasks[d]))
    && DevicesReady(tasks, devices, order, jobs)
  }

  // ---------------------------------------------------------------------------
  // What one task visit does
  // ---------------------------------------------------------------------------

  /** The entry a visit leaves behind, given the entry it found. */
  function SweptEntry(v: Video, st: TaskStatus): Video
    requires Sweepable(st)
  {
    var v2 := ApplyEdit(ApplyEdit(v, ResetStatus), AppendStatus(StatusMap[st.state]));
    if InFlight(st.state) then ApplyEdit(v2, ResetAnnotations)
    else if st.state == "SUCCESS" then ApplyEdits(v2, AnnotationEdits(st.payload.items))
    else v2
  }

  /**
   * A visit leaves exactly one status label, the mapped one; in-flight
   * states clear the annotations and counts, a success appends its
   * annotations after the existing ones, a failure keeps them; the counts
   * stay in step with the annotations.
   */
  lemma SweptEntryFacts(v: Video, st: TaskStatus)
    requires Sweepable(st)
    ensures SweptEntry(v, st).statusList == [StatusMap[st.state]]
    ensures SweptEntry(v, st).fileName == v.fileName && SweptEntry(v, st).filePath == v.filePath
    ensures InFlight(st.state) ==> SweptEntry(v, st).annotations == [] && SweptEntry(v, st).statusCounts == ZeroCounts
    ensures st.state == "SUCCESS" ==> SweptEntry(v, st).annotations == v.annotations + st.payload.items
    ensures st.state == "FAILURE" ==> SweptEntry(v, st).annotations == v.annotations
                                      && SweptEntry(v, st).statusCounts == v.statusCounts
    ensures Counted(v) ==> Counted(SweptEntry(v, st))
  {
    var v2 := ApplyEdit(ApplyEdit(v, ResetStatus), AppendStatus(StatusMap[st.state]));
    EditKeepsCounted(v, ResetStatus);
    EditKeepsCounted(ApplyEdit(v, ResetStatus), AppendStatus(StatusMap[st.state]));
    EditKeepsCounted(v2, ResetAnnotations);
    if st.state == "SUCCESS" {
      AnnotationEditsAppend(v2, st.payload.items);
      EditsKeepCounted(v2, AnnotationEdits(st.payload.items));
    }
  }

  /** The two status calls of a visit, on a video that exists. */
  lemma StatusCallsFound(s0: Store, deviceId: string, videoName: string, mapped: string, i: nat)
    requires deviceId in s0 && FirstIndex(s0[deviceId], videoName) == Some(i)
    ensures var s1 := EditVideo(s0, deviceId, videoName, ResetStatus).store;
            var s2 := EditVideo(s1, deviceId, videoName, AppendStatus(mapped)).store;
            var v2 := ApplyEdit(ApplyEdit(s0[deviceId][i], ResetStatus), AppendStatus(mapped));
            s2 == s0[deviceId := s0[deviceId][i := v2]]
            && FirstIndex(s2[deviceId], videoName) == Some(i)
  {
    var v1 := ApplyEdit(s0[deviceId][i], ResetStatus);
    var v2 := ApplyEdit(v1, AppendStatus(mapped));
    EditVideoFound(s0, deviceId, videoName, ResetStatus, i);
    var s1 := EditVideo(s0, deviceId, videoName, ResetStatus).store;
    assert s1 == s0[deviceId := s0[deviceId][i := v1]];
    EditVideoFound(s1, deviceId, videoName, AppendStatus(mapped), i);
    UpdateTwice(s0[deviceId], i, v1, v2);
    MapUpdateTwice(s0, deviceId, s0[deviceId][i := v1], s0[deviceId][i := v2]);
    FirstIndexSameNames(s0[deviceId][i := v2], s0[deviceId], videoName);
  }

  /**
   * On a video that exists, a visit changes only the first entry of that
   * name on that device, into `SweptEntry` of it.
   */
  lemma SweepTaskFound(doc: Doc, deviceId: string, videoName: string, st: TaskStatus, i: nat)
    requires Sweepable(st)
    requires deviceId in doc.videos && FirstIndex(doc.videos[deviceId], videoName) == Some(i)
    ensures SweepTask(doc, deviceId, videoName, st).videos
            == doc.videos[deviceId := doc.videos[deviceId][i := SweptEntry(doc.videos[deviceId][i], st)]]
  {
    var s0 := doc.videos;
    var mapped := StatusMap[st.state];
    StatusCallsFound(s0, deviceId, videoName, mapped, i);
    var v2 := ApplyEdit(ApplyEdit(s0[deviceId][i], ResetStatus), AppendStatus(mapped));
    var s2 := s0[deviceId := s0[deviceId][i := v2]];
    var v3 := SweptEntry(s0[deviceId][i], st);
    if InFlight(st.state) {
      EditVideoFound(s2, deviceId, videoName, ResetAnnotations, i);
    } else if st.state == "SUCCESS" {
      EditVideoAllFound(s2, deviceId, videoName, AnnotationEdits(st.payload.items), i);
    } else {
      assert v3 == v2;
    }
    UpdateTwice(s0[deviceId], i, v2, v3);
    MapUpdateTwice(s0, deviceId, s0[deviceId][i := v2], s0[deviceId][i := v3]);
  }

  /** A visit to a device or video the store does not hold changes no entry. */
  lemma SweepTaskMissing(doc: Doc, deviceId: string, videoName: string, st: TaskStatus)
    requires Sweepable(st)
    requires deviceId !in doc.videos || FirstIndex(doc.videos[deviceId], videoName).None?
    ensures SweepTask(doc, deviceId, videoName, st).videos == doc.videos
  {
    var s0 := doc.videos;
    EditVideoNotFound(s0, deviceId, videoName, ResetStatus);
    EditVideoNotFound(s0, deviceId, videoName, AppendStatus(StatusMap[st.state]));
    EditVideoNotFound(s0, deviceId, videoName, ResetAnnotations);
    if st.state == "SUCCESS" {
      EditVideoAllNotFound(s0, deviceId, videoName, AnnotationEdits(st.payload.items));
    }
  }

  /**
   * A finished task loses its handle, a running one keeps it, and no other
   * handle changes; a handle once gone never comes back.
   */
  lemma SweepTaskHandles(doc: Doc, deviceId: string, videoName: string, st: TaskStatus)
    requires Sweepable(st)
    ensures var r := SweepTask(doc, deviceId, videoName, st);
            (Finished(st.state) ==> TaskOf(r.tasks, deviceId, videoName).None?)
            && (!Finished(st.state) ==> r.tasks == doc.tasks)
            && (forall d, n :: (d, n) != (deviceId, videoName) ==> TaskOf(r.tasks, d, n) == TaskOf(doc.tasks, d, n))
            && r.tasks.Keys == doc.tasks.Keys
  {
    GetAfterRemove(doc.tasks, deviceId, videoName);
  }

  /** Every visit keeps the counts of every entry in step with its annotations. */
  lemma SweepTaskKeepsCounted(doc: Doc, deviceId: string, videoName: string, st: TaskStatus)
    requires Sweepable(st)
    ensures StoreCounted(doc.videos) ==> StoreCounted(SweepTask(doc, deviceId, videoName, st).videos)
  {
    var s0 := doc.videos;
    var mapped := StatusMap[st.state];
    EditVideoKeepsCounted(s0, deviceId, videoName, ResetStatus);
    var s1: Store := EditVideo(s0, deviceId, videoName, ResetStatus).store;
    EditVideoKeepsCounted(s1, deviceId, videoName, AppendStatus(mapped));
    var s2: Store := EditVideo(s1, deviceId, videoName, AppendStatus(mapped)).store;
    EditVideoKeepsCounted(s2, deviceId, videoName, ResetAnnotations);
    if st.state == "SUCCESS" {
      EditVideoAllKeepsCounted(s2, deviceId, videoName, AnnotationEdits(st.payload.items));
    }
  }

  lemma {:induction false} EditVideoAllKeepsCounted(s: Store, deviceId: string, videoName: string, es: seq<Edit>)
    requires EditsOk(es)
    ensures StoreCounted(s) ==> StoreCounted(EditVideoAll(s, deviceId, videoName, es))
  {
    if |es| > 0 {
      EditVideoAllKeepsCounted(s, deviceId, videoName, es[..|es| - 1]);
      EditVideoKeepsCounted(EditVideoAll(s, deviceId, videoName, es[..|es| - 1]), deviceId, videoName, es[|es| - 1]);
    }
  }

  // ---------------------------------------------------------------------------
  // What a pass does
  // ---------------------------------------------------------------------------

  /**
   * Visiting a device's tasks removes the handle of every finished task
   * visited, never restores a removed handle, keeps the handle map's keys,
   * and leaves the other devices' videos and handles alone.
   */
  lemma {:induction false} SweepNamesHandles(doc: Doc, deviceId: string, names: seq<string>,
                                             handles: map<string, string>, jobs: map<string, Job>)
    requires NamesReady(names, handles, jobs)
    ensures var r := SweepNames(doc, deviceId, names, handles, jobs);
            r.tasks.Keys == doc.tasks.Keys
            && (forall n :: TaskOf(doc.tasks, deviceId, n).None? ==> TaskOf(r.tasks, deviceId, n).None?)
            && (forall j :: 0 <= j < |names| && Finished(jobs[handles[names[j]]].state) ==>
                  TaskOf(r.tasks, deviceId, names[j]).None?)
            && (forall d :: d in doc.tasks && d != deviceId ==> r.tasks[d] == doc.tasks[d])
            && (forall d :: d in doc.videos && d != deviceId ==> d in r.videos && r.videos[d] == doc.videos[d])
  {
    if |names| > 0 {
      var init := names[..|names| - 1];
      var name := names[|names| - 1];
      SweepNamesHandles(doc, deviceId, init, handles, jobs);
      var mid := SweepNames(doc, deviceId, init, handles, jobs);
      var st := GetTaskStatus(jobs[handles[name]]);
      SweepTaskHandles(mid, deviceId, name, st);
      SweepTaskFrame(mid, deviceId, name, st);
      forall j | 0 <= j < |names| && Finished(jobs[handles[names[j]]].state)
        ensures TaskOf(SweepNames(doc, deviceId, names, handles, jobs).tasks, deviceId, names[j]).None?
      {
        if j < |names| - 1 {
          assert names[j] == init[j];
        }
      }
    }
  }

  /** A visit touches only its own device's list. */
  lemma SweepTaskFrame(doc: Doc, deviceId: string, videoName: string, st: TaskStatus)
    requires Sweepable(st)
    ensures var r := SweepTask(doc, deviceId, videoName, st);
            forall d :: d in doc.videos && d != deviceId ==> d in r.videos && r.videos[d] == doc.videos[d]
  {
    var s0 := doc.videos;
    if deviceId in s0 && FirstIndex(s0[deviceId], videoName).Some? {
      SweepTaskFound(doc, deviceId, videoName, st, FirstIndex(s0[deviceId], videoName).value);
    } else {
      SweepTaskMissing(doc, deviceId, videoName, st);
    }
  }

  /** A pass keeps every entry's counts in step with its annotations. */
  lemma {:induction false} SweepNamesKeepsCounted(doc: Doc, deviceId: string, names: seq<string>,
                                                  handles: map<string, string>, jobs: map<string, Job>)
    requires NamesReady(names, handles, jobs)
    ensures StoreCounted(doc.videos) ==> StoreCounted(SweepNames(doc, deviceId, names, handles, jobs).videos)
  {
    if |names| > 0 {
      var init := names[..|names| - 1];
      SweepNamesKeepsCounted(doc, deviceId, init, handles, jobs);
      SweepTaskKeepsCounted(SweepNames(doc, deviceId, init, handles, jobs), deviceId, names[|names| - 1],
                            GetTaskStatus(jobs[handles[names[|names| - 1]]]));
    }
  }

  /** Every emitted patch runs between two different lists. */
  lemma {:induction false} SweepAllPatchesDiffer(doc: Doc, tasks0: Tasks, devices: seq<string>,
                                                 order: map<string, seq<string>>, jobs: map<string, Job>)
    requires DevicesReady(tasks0, devices, order, jobs)
    ensures var r := SweepAll(doc, tasks0, devices, order, jobs);
            |r.patches| <= |devices|
            && forall k :: 0 <= k < |r.patches| ==>
                 r.patches[k].patch.Patch? && r.patches[k].patch.before != r.patches[k].patch.after
                 && r.patches[k].deviceId in devices
  {
    if |devices| > 0 {
      SweepAllPatchesDiffer(doc, tasks0, devices[..|devices| - 1], order, jobs);
    }
  }

  /**
   * After a pass in which every visited job had finished, no device has a
   * handle left: the next pass visits nothing.
   */
  lemma {:induction false} SweepAllFinishes(doc: Doc, tasks0: Tasks, devices: seq<string>,
                                            order: map<string, seq<string>>, jobs: map<string, Job>)
    requires DevicesReady(tasks0, devices, order, jobs)
    requires forall k, j :: 0 <= k < |devices| && 0 <= j < |order[devices[k]]| ==>
               Finished(jobs[tasks0[devices[k]][order[devices[k]][j]]].state)
    ensures var r := SweepAll(doc, tasks0, devices, order, jobs);
            r.doc.tasks.Keys == doc.tasks.Keys
            && (forall d, n :: TaskOf(doc.tasks, d, n).None? ==> TaskOf(r.doc.tasks, d, n).None?)
            && forall k, j :: 0 <= k < |devices| && 0 <= j < |order[devices[k]]| ==>
                 TaskOf(r.doc.tasks, devices[k], order[devices[k]][j]).None?
  {
    if |devices| > 0 {
      var init := devices[..|devices| - 1];
      var d := devices[|devices| - 1];
      SweepAllFinishes(doc, tasks0, init, order, jobs);
      var prev := SweepAll(doc, tasks0, init, order, jobs);
      SweepNamesHandles(prev.doc, d, order[d], tasks0[d], jobs);
      var r := SweepAll(doc, tasks0, devices, order, jobs);
      forall d', n | TaskOf(prev.doc.tasks, d', n).None? ensures TaskOf(r.doc.tasks, d', n).None? {
        if d' != d && d' in prev.doc.tasks {
          assert r.doc.tasks[d'] == prev.doc.tasks[d'];
        }
      }
      forall k, j | 0 <= k < |devices| && 0 <= j < |order[devices[k]]|
        ensures TaskOf(r.doc.tasks, devices[k], order[devices[k]][j]).None?
      {
        if k < |devices| - 1 {
          assert devices[k] == init[k];
        }
      }
    }
  }

  /** A pass with no handles to visit changes nothing and emits nothing. */
  lemma {:induction false} SweepAllIdle(doc: Doc, tasks0: Tasks, devices: seq<string>,
                                        order: map<string, seq<string>>, jobs: map<string, Job>)
    requires DevicesReady(tasks0, devices, order, jobs)
    requires forall k :: 0 <= k < |devices| ==> order[devices[k]] == []
    ensures SweepAll(doc, tasks0, devices, order, jobs) == Swept(doc, [])
  {
    if |devices| > 0 {
      SweepAllIdle(doc, tasks0, devices[..|devices| - 1], order, jobs);
    }
  }

  /**
   * When every handle present was visited and all of them are gone
   * afterwards, and no handle appeared, every device's handle map is empty.
   */
  lemma NoHandlesLeft(before: Tasks, after: Tasks, devices: seq<string>, order: map<string, seq<string>>)
    requires forall d :: d in before ==> d in devices && d in order && forall n :: n in before[d] ==> n in order[d]
    requires forall d, n :: TaskOf(before, d, n).None? ==> TaskOf(after, d, n).None?
    requires forall k, j :: 0 <= k < |devices| && devices[k] in order && 0 <= j < |order[devices[k]]| ==>
               TaskOf(after, devices[k], order[devices[k]][j]).None?
    ensures forall d :: d in after ==> after[d].Keys == {}
  {
    forall d | d in after ensures after[d].Keys == {} {
      if n :| n in after[d] && TaskOf(after, d, n).Some? {
        assert false;
      }
    }
  }

  /** Scaffolding for EmptyOrders: a non-empty sequence contains its head. */
  lemma HeadIn<T>(xs: seq<T>)
    ensures |xs| == 0 || xs[0] in xs
  {
  }

  /** An order that enumerates an empty handle map is empty. */
  lemma EmptyOrders(tasks: Tasks, devices: seq<string>, order: map<string, seq<string>>)
    requires forall d :: d in devices ==> d in tasks
    requires forall d :: d in tasks ==> d in order && forall n :: n in order[d] ==> n in tasks[d]
    requires forall d :: d in tasks ==> tasks[d].Keys == {}
    ensures forall k :: 0 <= k < |devices| ==> order[devices[k]] == []
  {
    forall k | 0 <= k < |devices| ensures order[devices[k]] == [] {
      var od := order[devices[k]];
      if n :| n in od {
        assert false;
      }
      HeadIn(od);
    }
  }

  /**
   * Running the pass again after every job finished: the handle maps are
   * empty, so the second pass changes nothing and emits nothing, and no
   * annotation is added twice.
   */
  lemma SecondSweepIdle(doc: Doc, devices: seq<string>, order: map<string, seq<string>>,
                        devices2: seq<string>, order2: map<string, seq<string>>, jobs: map<string, Job>)
    requires SweepReady(doc.tasks, devices, order, jobs)
    requires forall k, j :: 0 <= k < |devices| && 0 <= j < |order[devices[k]]| ==>
               Finished(jobs[doc.tasks[devices[k]][order[devices[k]][j]]].state)
    requires var first := SweepAll(doc, doc.tasks, devices, order, jobs).doc;
             SweepReady(first.tasks, devices2, order2, jobs)
    ensures var first := SweepAll(doc, doc.tasks, devices, order, jobs).doc;
            SweepAll(first, first.tasks, devices2, order2, jobs) == Swept(first, [])
  {
    var first := SweepAll(doc, doc.tasks, devices, order, jobs).doc;
    SweepAllFinishes(doc, doc.tasks, devices, order, jobs);
    NoHandlesLeft(doc.tasks, first.tasks, devices, order);
    EmptyOrders(first.tasks, devices2, order2);
    SweepAllIdle(first, first.tasks, devices2, order2, jobs);
  }

  // ---------------------------------------------------------------------------
  // The pass over the store object
  // ---------------------------------------------------------------------------

  /** The calls made for one task: reset its status, add the mapped label, then handle and annotations. */
  method VisitTask(vjm: VideoJsonManager, deviceId: string, videoName: string, st: TaskStatus)
    requires Sweepable(st)
    modifies vjm
    ensures Doc(vjm.videos, vjm.activeTasks) == SweepTask(Doc(old(vjm.videos), old(vjm.activeTasks)), deviceId, videoName, st)
    ensures old(vjm.Valid()) ==> vjm.Valid()
  {
    var _ := vjm.ClearStatus(deviceId, videoName);
    var _ := vjm.AddStatus(deviceId, videoName, StatusMap[st.state]);
    if Finished(st.state) {
      vjm.RemoveTask(deviceId, videoName);
    }
    if InFlight(st.state) {
      var _ := vjm.ClearAnnotations(deviceId, videoName);
    } else if st.state == "SUCCESS" {
      vjm.AddAnnotations(deviceId, videoName, st.payload.items);
    }
  }

  /** The inner loop: one device's tasks, in `names` order, over the copy `handles` of its map. */
  method SweepDeviceTasks(vjm: VideoJsonManager, deviceId: string, names: seq<string>,
                          handles: map<string, string>, jobs: map<string, Job>)
    requires NamesReady(names, handles, jobs)
    modifies vjm
    ensures Doc(vjm.videos, vjm.activeTasks)
            == SweepNames(Doc(old(vjm.videos), old(vjm.activeTasks)), deviceId, names, handles, jobs)
    ensures old(vjm.Valid()) ==> vjm.Valid()
  {
    for j := 0 to |names|
      invariant Doc(vjm.videos, vjm.activeTasks)
                == SweepNames(Doc(old(vjm.videos), old(vjm.activeTasks)), deviceId, names[..j], handles, jobs)
      invariant old(vjm.Valid()) ==> vjm.Valid()
    {
      assert names[..j + 1][..j] == names[..j];
      var name := names[j];
      VisitTask(vjm, deviceId, name, GetTaskStatus(jobs[handles[name]]));
    }
    assert names[..|names|] == names;
  }

  /** One device of the pass: snapshot its list, visit its tasks, emit a patch if the list changed. */
  method SweepDevice(vjm: VideoJsonManager, deviceId: string, names: seq<string>,
                     handles: map<string, string>, jobs: map<string, Job>) returns (emitted: seq<DevicePatch>)
    requires NamesReady(names, handles, jobs)
    modifies vjm
    ensures Swept(Doc(vjm.videos, vjm.activeTasks), emitted)
            == SweepOne(Doc(old(vjm.videos), old(vjm.activeTasks)), deviceId, names, handles, jobs)
    ensures vjm.activeTasks.Keys == old(vjm.activeTasks).Keys
    ensures forall d :: d in old(vjm.activeTasks) && d != deviceId ==> vjm.activeTasks[d] == old(vjm.activeTasks)[d]
    ensures old(vjm.Valid()) ==> vjm.Valid()
  {
    var before := vjm.GetDeviceVideos(deviceId);
    SweepNamesHandles(Doc(vjm.videos, vjm.activeTasks), deviceId, names, handles, jobs);
    SweepDeviceTasks(vjm, deviceId, names, handles, jobs);
    var after := vjm.GetDeviceVideos(deviceId);
    emitted := if before != after then [DevicePatch(deviceId, Patch(before, after))] else [];
  }

  /** The pass over the first k + 1 devices is the pass over the first k followed by device k. */
  lemma SweepAllPrefix(doc: Doc, tasks0: Tasks, devices: seq<string>, order: map<string, seq<string>>,
                       jobs: map<string, Job>, k: nat)
    requires DevicesReady(tasks0, devices, order, jobs) && k < |devices|
    ensures DevicesReady(tasks0, devices[..k], order, jobs)
    ensures var prev := SweepAll(doc, tasks0, devices[..k], order, jobs);
            var one := SweepOne(prev.doc, devices[k], order[devices[k]], tasks0[devices[k]], jobs);
            SweepAll(doc, tasks0, devices[..k + 1], order, jobs) == Swept(one.doc, prev.patches + one.patches)
  {
    assert devices[..k + 1][..k] == devices[..k];
  }

  /**
   * One pass of `progress_updater` over the store, calling its methods as
   * the source does; it returns the patches it emits.
   */
  method ProgressSweep(vjm: VideoJsonManager, jobs: map<string, Job>, devices: seq<string>,
                       order: map<string, seq<string>>) returns (patches: seq<DevicePatch>)
    requires SweepReady(vjm.activeTasks, devices, order, jobs)
    modifies vjm
    ensures Swept(Doc(vjm.videos, vjm.activeTasks), patches)
            == SweepAll(Doc(old(vjm.videos), old(vjm.activeTasks)), old(vjm.activeTasks), devices, order, jobs)
    ensures old(vjm.Valid()) ==> vjm.Valid()
  {
    ghost var doc0 := Doc(vjm.videos, vjm.activeTasks);
    ghost var tasks0 := vjm.activeTasks;
    patches := [];
    for k := 0 to |devices|
      invariant Swept(Doc(vjm.videos, vjm.activeTasks), patches) == SweepAll(doc0, tasks0, devices[..k], order, jobs)
      invariant vjm.activeTasks.Keys == tasks0.Keys
      invariant forall j :: k <= j < |devices| ==> vjm.activeTasks[devices[j]] == tasks0[devices[j]]
      invariant old(vjm.Valid()) ==> vjm.Valid()
    {
      var d := devices[k];
      SweepAllPrefix(doc0, tasks0, devices, order, jobs, k);
      var emitted := SweepDevice(vjm, d, order[d], vjm.activeTasks[d], jobs);
      patches := patches + emitted;
      forall j | k + 1 <= j < |devices|
        ensures vjm.activeTasks[devices[j]] == tasks0[devices[j]]
      {
        assert devices[j] != d;
      }
    }
    assert devices[..|devices|] == devices;
  }
}
