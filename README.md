# LabAssist backend core in Dafny

This project models the core of the LabAssist API. LabAssist watches a titration
experiment on video and annotates the clip with safety and technique findings.
There is one Dafny module per source file.

- `AnnotationSchema` (`annotation_schema.dfy`) covers the `Annotation` record.
  - Its constructor asserts the type is `info`, `error` or `warning`; that assertion becomes an `Option` result.
  - `to_dict` is modelled together with the inverse reading.
- `DetectionUtils` (`detection_utils.dfy`) covers the object-detection helpers:
  - `get_objects`, intersection-over-union (IoU), `get_biggest_boxes`;
  - the four "valid object" searches: flask under a burette, tile under a flask, funnel on a burette, beaker near a burette;
  - `square_crop`'s box arithmetic.
  - Each search keeps the source's nested loops: a method `CollectValid` with an inner method `CollectRow`.
  - Those methods are proved against the fold `Collect`.
  - Coordinates are exact reals.
- `PostAnalysis` (`post_analysis.dfy`) covers the rules that turn per-segment predictions into annotations:
  - white tile, funnel left on the burette, and beaker pouring without a funnel, which share one shape (`GroupRule`);
  - swirling;
  - goggles;
  - `compile_annotations`.
  - Every rule is a `method` with the source's loop.
  - Each method's result is tied to a fold function (`GroupOutput`, `SwirlOutput`, `GogglesOutput`), and the lemmas speak about that fold.
- `PostAnalysisExamples` (`post_analysis_examples.dfy`) holds concrete traces. They pin down the edge cases of the rules as written.
- `VideoJson` (`video_json.dfy`) covers `VideoJSONManager`. It is a class whose fields are the two maps of the document: `videos` and `active_tasks`.
  - Each mutator's new state and answer (a patch, or a not-found message) is tied to a pure function of the old state.
  - Every mutator keeps the invariant `Valid()`: each entry's `status_counts` equal the tally of its annotations' types.
- `TaskManager` (`task_manager.dfy`) covers:
  - the loop that cuts a clip into frame windows;
  - `get_task_status`.
- `SocketEvents` (`socket_events.dfy`) covers one pass of the background `progress_updater`.
  - The pass calls the store's methods in the source's order.
  - It is proved equal to a pure function `SweepAll`.
  - Lemmas state what the pass does to each entry, to the task handles and to the emitted patches.

Modelling conventions:

- A patch produced by `jsonpatch` is represented by the pair of lists it was computed from (`Outcome.Patch(before, after)`).
- A dict annotation is a map from its key to a `Value`.
- Inputs that make the source raise are preconditions. Examples: a job state missing from `status_map`, an annotation whose type has no counter, an empty result list for the rules that read the loop variable after the loop.

### Edge cases of the code as written

- A run of correct swirling that starts at second 0 produces no annotation, because a start of 0 is falsy (`PostAnalysisExamples.SwirlZeroStartScenario`).
- Improper goggles over consecutive segments produce nothing. Each improper segment overwrites `group_start`, so the closing check measures only from the last improper segment (`PostAnalysisExamples.GogglesScenario`).
- The updater labels PENDING jobs "predicting". The source's own comment at socket_events.py:59 says it should be "queued"; the model keeps "predicting".

## Model

| member | source | states |
|---|---|---|
| AnnotationSchema.NewAnnotation | src/api/app/schemas/annotation.py:3-16 | an annotation is built exactly when its type is info, error or warning, and it keeps every given field unchanged |
| AnnotationSchema.ToDictRoundTrip | src/api/app/schemas/annotation.py:24-31 | `to_dict` yields exactly the five keys, and reading them back gives the same annotation |
| AnnotationSchema.FromDictToDict | src/api/app/schemas/annotation.py:24-31 | any dict that reads as an annotation is that annotation's `to_dict` (the other direction of the round trip) |
| AnnotationSchema.ToDictTypeValid | src/api/app/schemas/annotation.py:11-31 | the dict of a constructed annotation always has a countable type |
| AnnotationSchema.StartAfterEndAccepted | src/api/app/schemas/annotation.py:3-16 | the constructor does not check start_seconds <= end_seconds |
| DetectionUtils.ObjectsMembers | src/api/app/utils/object_detection_utils.py:82-83 | `get_objects` keeps exactly the boxes of detections with that name, and no more boxes than detections |
| DetectionUtils.ObjectsAppend | src/api/app/utils/object_detection_utils.py:82-83 | the filter distributes over concatenation, so order is preserved |
| DetectionUtils.IntersectionNonNegative | src/api/app/utils/object_detection_utils.py:67-72 | the clipped intersection area is non-negative and symmetric |
| DetectionUtils.IouSymmetric | src/api/app/utils/object_detection_utils.py:67-76 | IoU is defined for (b, a) when it is for (a, b), and the two are equal |
| DetectionUtils.IntersectionAtMostArea | src/api/app/utils/object_detection_utils.py:67-73 | the intersection never exceeds the area of a box with positive area |
| DetectionUtils.IouBounds | src/api/app/utils/object_detection_utils.py:67-76 | for two boxes of positive area the union is positive and 0 <= IoU <= 1 |
| DetectionUtils.IouDisjoint | src/api/app/utils/object_detection_utils.py:67-76 | boxes separated along x or y have IoU 0 |
| DetectionUtils.IouSelf | src/api/app/utils/object_detection_utils.py:67-76 | a box with positive area has IoU 1 with itself |
| DetectionUtils.BiggestBox | src/api/app/utils/object_detection_utils.py:78-80 | the chosen box is one of the candidates |
| DetectionUtils.BiggestBoxIgnoresLater | src/api/app/utils/object_detection_utils.py:78-80 | as written the choice depends only on the first box: appending boxes never changes it |
| DetectionUtils.RowMembers | src/api/app/utils/object_detection_utils.py:93-97 | the inner loop appends the outer box exactly when it is related to some inner box |
| DetectionUtils.CollectMembers | src/api/app/utils/object_detection_utils.py:92-97 | the nested loops collect exactly the candidates related to some anchor |
| DetectionUtils.ValidBox | src/api/app/utils/object_detection_utils.py:85-157 | None exactly when no candidate qualifies; otherwise a candidate that qualifies |
| DetectionUtils.CollectRow | src/api/app/utils/object_detection_utils.py:93-97 | the inner loop, shared by all four searches, computes that candidate's row of hits |
| DetectionUtils.CollectValid | src/api/app/utils/object_detection_utils.py:90-97 | the nested loops, shared by all four searches, compute the collected list |
| DetectionUtils.GetValid | src/api/app/utils/object_detection_utils.py:85-102 | a search returns `ValidBox` of its relation |
| DetectionUtils.GetValidFlask | src/api/app/utils/object_detection_utils.py:85-102 | the result is a conical flask; None exactly when no burette midpoint lies strictly inside any flask's x-range |
| DetectionUtils.GetValidTile | src/api/app/utils/object_detection_utils.py:104-119 | the result is a white tile; None exactly when no flask midpoint lies strictly inside any tile's x-range |
| DetectionUtils.GetValidFunnel | src/api/app/utils/object_detection_utils.py:121-136 | the result is a funnel; None exactly when no funnel has a burette midpoint inside it and y1 > 0.8 * the burette's y1 |
| DetectionUtils.GetValidBeaker | src/api/app/utils/object_detection_utils.py:138-157 | the result is a beaker; None exactly when no beaker centre is within 2.5 beaker-widths of a burette top in both x and y |
| DetectionUtils.ClampCoord | src/api/app/utils/object_detection_utils.py:184-187 | the coordinate ends in [0, size-1] and is unchanged when already inside |
| DetectionUtils.SquareCropBox | src/api/app/utils/object_detection_utils.py:165-187 | the crop box is the padded, squared box clamped into the frame, and every coordinate is inside the frame |
| DetectionUtils.SquaredNearlySquare | src/api/app/utils/object_detection_utils.py:173-181 | when clamping does not bite, squaring leaves width and height differing by at most 1 (the odd half of `diff // 2`) |
| PostAnalysis.DetectedOnly | src/api/app/services/video_post_analysis.py:18-20 | only records with a detection remain, all taken from the input |
| PostAnalysis.GroupFoldFacts | src/api/app/services/video_post_analysis.py:85-93 | every annotation a group rule adds inside its loop has the rule's type, category and message, and lasts longer than its threshold |
| PostAnalysis.GroupOutputEmitted | src/api/app/services/video_post_analysis.py:81-130 | the same holds for the rule's whole output, including the after-loop check |
| PostAnalysis.GroupSkipsUndetected | src/api/app/services/video_post_analysis.py:85-87 | records without detections do not affect the loop state |
| PostAnalysis.GroupEmpty | src/api/app/services/video_post_analysis.py:81-96 | no records yield no annotations |
| PostAnalysis.IsTriggered | src/api/app/services/video_post_analysis.py:88 | decides each rule's trigger (tile: titrating without a valid tile; funnel: titrating with a valid funnel; beaker: a valid beaker without a valid funnel) |
| PostAnalysis.ProcessGroupRule | src/api/app/services/video_post_analysis.py:81-96 | the loop and after-loop check compute the rule's output fold |
| PostAnalysis.ProcessTile | src/api/app/services/video_post_analysis.py:81-96 | `process_tile` is the group rule for the white tile |
| PostAnalysis.ProcessFunnel | src/api/app/services/video_post_analysis.py:98-113 | `process_funnel` is the group rule for a funnel left on the burette |
| PostAnalysis.ProcessBeaker | src/api/app/services/video_post_analysis.py:115-130 | `process_beaker` is the group rule for pouring without a funnel |
| PostAnalysis.SwirlStep | src/api/app/services/video_post_analysis.py:55-76 | one iteration keeps the invariant: an open group has a label, and the pending message is the one for that label |
| PostAnalysis.SwirlFold | src/api/app/services/video_post_analysis.py:55-76 | the state after the loop satisfies the same invariant |
| PostAnalysis.SwirlFoldEmitted | src/api/app/services/video_post_analysis.py:58-60 | every annotation added when the label changes is a conical-flask finding with some label's type and message, a non-zero start and a span over 6 seconds |
| PostAnalysis.SwirlOutputEmitted | src/api/app/services/video_post_analysis.py:50-79 | the same holds for the whole output, including the after-loop check |
| PostAnalysis.SwirlSkipsUndetected | src/api/app/services/video_post_analysis.py:55-57 | records without detections do not affect the swirling state |
| PostAnalysis.ProcessSwirling | src/api/app/services/video_post_analysis.py:50-79 | `process_swirling`'s loop computes the swirling fold |
| PostAnalysis.GogglesSkipsUndetected | src/api/app/services/video_post_analysis.py:18-20 | records without detections do not affect the goggles state |
| PostAnalysis.GogglesFoldFacts | src/api/app/services/video_post_analysis.py:18-44 | every goggles annotation added in the loop lasts more than 10 seconds, and the group start is 0 or some record's start |
| PostAnalysis.GogglesOutputEmitted | src/api/app/services/video_post_analysis.py:14-48 | every output annotation is the goggles error, and start and end differ by more than 10 in one direction or the other |
| PostAnalysis.GogglesSortedNoEndEmission | src/api/app/services/video_post_analysis.py:45-46 | on records sorted by start, the reversed after-loop check never fires, so every annotation runs forward by more than 10 seconds |
| PostAnalysis.ProcessGoggles | src/api/app/services/video_post_analysis.py:14-48 | `process_goggles`'s loop computes the goggles fold |
| PostAnalysis.ToDicts | src/api/app/services/video_post_analysis.py:12 | one dict per annotation, in order, each that annotation's `to_dict` |
| PostAnalysis.CompiledKindsValid | src/api/app/services/video_post_analysis.py:5-12 | every compiled annotation has a valid type |
| PostAnalysis.CompileAnnotations | src/api/app/services/video_post_analysis.py:5-12 | output is swirling, goggles, beaker, funnel, tile in that order, as dicts, each with a countable type |
| PostAnalysisExamples.NoBoxes | src/api/app/utils/object_detection_utils.py:99-100 | with no detections every search returns None |
| PostAnalysisExamples.TileThresholdIsStrict | src/api/app/services/video_post_analysis.py:91-95 | a 6-second gap emits nothing and a 7-second gap emits, since the test is strictly greater |
| PostAnalysisExamples.TileStartOverwritten | src/api/app/services/video_post_analysis.py:88-91 | each triggering record restarts the group |
| PostAnalysisExamples.TileEndCheckUsesSkippedLast | src/api/app/services/video_post_analysis.py:94-95 | the after-loop check uses the last record even when the loop skipped it |
| PostAnalysisExamples.SwirlZeroStartScenario | src/api/app/services/video_post_analysis.py:58-78 | a correct-swirling run starting at second 0 yields no annotation, because a start of 0 is falsy |
| PostAnalysisExamples.SwirlLabelChangeCloses | src/api/app/services/video_post_analysis.py:58-61 | a label change closes a group whose start is non-zero and whose span exceeds 6 |
| PostAnalysisExamples.BadGogglesImproper | src/api/app/services/video_post_analysis.py:25-32 | a face and goggles boxes that do not overlap count as improper (IoU < 0.1) |
| PostAnalysisExamples.BadGogglesStep | src/api/app/services/video_post_analysis.py:32-36 | an improper record restarts the goggles group at its own start |
| PostAnalysisExamples.GogglesScenario | src/api/app/services/video_post_analysis.py:32-46 | improper goggles at 0, 4 and 8 closed at 12 yield nothing |
| PostAnalysisExamples.GogglesEmits | src/api/app/services/video_post_analysis.py:41-44 | improper goggles at 0 closed at 11 yield one goggles error from 0 to 11 |
| VideoJson.TallyCountsKinds | src/api/app/services/video_json_manager.py:114-115 | the counters equal the number of annotations of each type |
| VideoJson.KindOfValid | src/api/app/services/video_json_manager.py:115 | an annotation has a counter for its type exactly when its type is valid |
| VideoJson.EditKeepsCounted | src/api/app/services/video_json_manager.py:83-133 | each per-video mutation keeps counts in step with annotations and keeps name and path; status edits leave annotations alone, and annotation edits leave statuses alone |
| VideoJson.EditsKeepCounted | src/api/app/services/video_json_manager.py:83-133 | any sequence of these mutations keeps the counts in step |
| VideoJson.StatusEditsAppend | src/api/app/services/video_json_manager.py:64-66 | repeated `add_status` appends the labels in order |
| VideoJson.AnnotationEditsAppend | src/api/app/services/video_json_manager.py:67-69 | repeated `add_annotation` appends the annotations in order, keeps statuses and keeps counts in step |
| VideoJson.FirstIndex | src/api/app/services/video_json_manager.py:86-89 | the index `next` finds is the first entry with that name; None exactly when no entry has it |
| VideoJson.FirstIndexSameNames | src/api/app/services/video_json_manager.py:89 | lists with the same names in the same order find the same entry |
| VideoJson.FirstIndexAppend | src/api/app/services/video_json_manager.py:63 | appending an entry does not change which earlier entry a name finds |
| VideoJson.EditVideoNotFound | src/api/app/services/video_json_manager.py:84-87 | a mutator reports not-found exactly when the device or the name is missing, and then changes nothing |
| VideoJson.EditVideoFound | src/api/app/services/video_json_manager.py:88-92 | otherwise only the first entry of that name changes, the patch runs from the old list to the new one, and counts stay in step |
| VideoJson.EditVideoKeepsCounted | src/api/app/services/video_json_manager.py:105-117 | a mutator keeps every entry's counts in step |
| VideoJson.EditVideoAllFound | src/api/app/services/video_json_manager.py:64-69 | repeated calls by name all land on the same first entry |
| VideoJson.EditVideoAllNotFound | src/api/app/services/video_json_manager.py:64-69 | repeated calls on a missing device or name change nothing |
| VideoJson.AddDeviceKeepsList | src/api/app/services/video_json_manager.py:42-46 | `add_device` keeps an existing list and creates an empty one otherwise |
| VideoJson.RemoveDeviceDeletes | src/api/app/services/video_json_manager.py:48-54 | `remove_device` deletes exactly that device and fails only when it is absent |
| VideoJson.AppendVideo | src/api/app/services/video_json_manager.py:56-69 | `add_video` grows the device list by exactly one entry |
| VideoJson.EditedTemplate | src/api/app/services/video_json_manager.py:12-22 | the template with the statuses and annotations added holds exactly those, with matching counts |
| VideoJson.AddVideoShape | src/api/app/services/video_json_manager.py:56-71 | `add_video` creates the device if needed, leaves the other devices alone, and patches from the old list to the new |
| VideoJson.AddVideoNewName | src/api/app/services/video_json_manager.py:56-71 | for a new name the list becomes the old list plus one entry with the given statuses, annotations and counts |
| VideoJson.AddVideoDuplicateName | src/api/app/services/video_json_manager.py:63-69 | for a duplicate name the new entry stays blank and the statuses and annotations go to the earlier entry |
| VideoJson.AddVideoByEdits | src/api/app/services/video_json_manager.py:63-69 | the per-item calls made after appending produce exactly `AppendVideo` |
| VideoJson.WithoutNameMembers | src/api/app/services/video_json_manager.py:79 | the comprehension keeps exactly the entries with another name |
| VideoJson.RemoveVideoDrops | src/api/app/services/video_json_manager.py:73-81 | `remove_video` drops every entry of that name from that device only, or reports not-found and changes nothing; counts stay in step |
| VideoJson.GetAfterAdd | src/api/app/services/video_json_manager.py:135-143 | `get_task` after `add_task` returns the new id, and other handles are unchanged |
| VideoJson.GetAfterRemove | src/api/app/services/video_json_manager.py:140-147 | `get_task` after `remove_task` returns None, and other handles are unchanged |
| VideoJson.RemoveTaskUndoes | src/api/app/services/video_json_manager.py:135-147 | removing an absent handle is a no-op, and removing a newly added handle undoes the add |
| VideoJson.RemoveFirst | src/api/app/services/video_json_manager.py:39 | `list.remove` removes exactly one occurrence |
| VideoJson.SyncFromOnlyRemovesMissing | src/api/app/services/video_json_manager.py:35-39 | the sync only removes entries, and never an entry whose file exists |
| VideoJson.SyncListSubset | src/api/app/services/video_json_manager.py:36-39 | every entry kept was there before |
| VideoJson.SyncStoreKeepsCounted | src/api/app/services/video_json_manager.py:35-39 | the sync keeps the devices and keeps counts in step |
| VideoJson.SyncSkipsAfterRemove | src/api/app/services/video_json_manager.py:37-39 | removing while iterating skips the next entry: of two missing files, the second survives |
| VideoJson.VideoJsonManager.constructor | src/api/app/services/video_json_manager.py:9-11 | the manager holds the given document, and `Valid` holds from the start when the given store keeps counts in step |
| VideoJson.VideoJsonManager.EditEntry | src/api/app/services/video_json_manager.py:83-133 | the shared body of the four per-video mutators updates the store as `EditVideo` does and keeps `Valid` |
| VideoJson.VideoJsonManager.ClearStatus | src/api/app/services/video_json_manager.py:83-92 | empties the first matching entry's statuses, or reports not-found |
| VideoJson.VideoJsonManager.AddStatus | src/api/app/services/video_json_manager.py:94-103 | appends the label to the first matching entry, or reports not-found |
| VideoJson.VideoJsonManager.AddAnnotation | src/api/app/services/video_json_manager.py:105-117 | appends the annotation and increments its type's counter, or reports not-found |
| VideoJson.VideoJsonManager.ClearAnnotations | src/api/app/services/video_json_manager.py:119-133 | empties annotations and resets counters, or reports not-found (capitalised message) |
| VideoJson.VideoJsonManager.AddDevice | src/api/app/services/video_json_manager.py:42-46 | creates the device if absent and patches from [] to its list |
| VideoJson.VideoJsonManager.RemoveDevice | src/api/app/services/video_json_manager.py:48-54 | deletes the device and patches its list to [], or reports not-found |
| VideoJson.VideoJsonManager.AddStatuses | src/api/app/services/video_json_manager.py:64-66 | the status loop of `add_video` is that many `add_status` calls |
| VideoJson.VideoJsonManager.AddAnnotations | src/api/app/services/video_json_manager.py:67-69 | the annotation loop of `add_video` is that many `add_annotation` calls |
| VideoJson.VideoJsonManager.AddVideo | src/api/app/services/video_json_manager.py:56-71 | `add_video` updates the store as `AddVideoTo` does and keeps `Valid` |
| VideoJson.VideoJsonManager.RemoveVideo | src/api/app/services/video_json_manager.py:73-81 | `remove_video` updates the store as `RemoveVideoFrom` does and keeps `Valid` |
| VideoJson.VideoJsonManager.AddTask | src/api/app/services/video_json_manager.py:135-138 | sets or overwrites the handle and changes nothing else |
| VideoJson.VideoJsonManager.GetTask | src/api/app/services/video_json_manager.py:140-143 | returns the handle exactly when the device and name are present |
| VideoJson.VideoJsonManager.RemoveTask | src/api/app/services/video_json_manager.py:145-147 | deletes the handle if present and changes nothing else |
| VideoJson.VideoJsonManager.GetVideo | src/api/app/services/video_json_manager.py:149-154 | returns the first entry with that name; otherwise the device message for an unknown device, or the video message for a known device without that name |
| VideoJson.VideoJsonManager.GetDeviceVideos | src/api/app/services/video_json_manager.py:156-159 | returns the device's list, or [] for an unknown device |
| VideoJson.VideoJsonManager.SyncVideos | src/api/app/services/video_json_manager.py:35-40 | the nested loop computes `SyncStore` and keeps `Valid` |
| TaskManager.SegmentWindows | src/api/app/services/video_task_manager.py:29-33 | windows start at 0, are contiguous and non-empty, cover [0, frame_count) and each has length at most step |
| TaskManager.WindowCountIsCeiling | src/api/app/services/video_task_manager.py:29 | the number of windows is ceil(frame_count / step) |
| TaskManager.GetTaskStatus | src/api/app/services/video_task_manager.py:43-64 | the state passes through; results come exactly for SUCCESS; the "unknown" message comes exactly for states outside the five known ones |
| TaskManager.MessagesTellStatesApart | src/api/app/services/video_task_manager.py:52-64 | distinct non-success states get distinct payloads unless both are unknown |
| SocketEvents.SweepableStates | src/api/app/routes/socket_events.py:58-77 | a status can be processed exactly when its state has a label and a success's items have valid types; RETRY never can be |
| SocketEvents.SweptEntryFacts | src/api/app/routes/socket_events.py:69-77 | a visited entry ends with exactly one label, the mapped one; in-flight states clear annotations, a success appends, a failure keeps them; counts stay in step |
| SocketEvents.StatusCallsFound | src/api/app/routes/socket_events.py:69-70 | the two status calls change only the first matching entry, which the name then still finds |
| SocketEvents.SweepTaskFound | src/api/app/routes/socket_events.py:68-77 | a visit changes only the first matching entry of that device, into `SweptEntry` of it |
| SocketEvents.SweepTaskMissing | src/api/app/routes/socket_events.py:69-77 | a visit to a missing device or video changes no entry |
| SocketEvents.SweepTaskHandles | src/api/app/routes/socket_events.py:71-72 | a finished task loses its handle, a running one keeps it, and no other handle changes |
| SocketEvents.SweepTaskKeepsCounted | src/api/app/routes/socket_events.py:69-77 | a visit keeps every entry's counts in step |
| SocketEvents.EditVideoAllKeepsCounted | src/api/app/routes/socket_events.py:76-77 | the per-annotation calls keep counts in step |
| SocketEvents.SweepNamesHandles | src/api/app/routes/socket_events.py:67-77 | visiting a device's tasks removes every finished task's handle, never restores one, and leaves other devices alone |
| SocketEvents.SweepTaskFrame | src/api/app/routes/socket_events.py:69-77 | a visit changes no other device's list |
| SocketEvents.SweepNamesKeepsCounted | src/api/app/routes/socket_events.py:67-77 | visiting a device's tasks keeps counts in step |
| SocketEvents.SweepAllPatchesDiffer | src/api/app/routes/socket_events.py:78-82 | at most one patch per device, each for a listed device and between two different lists |
| SocketEvents.SweepAllFinishes | src/api/app/routes/socket_events.py:65-77 | when every visited job has finished, every visited handle is gone and none appears |
| SocketEvents.SweepAllIdle | src/api/app/routes/socket_events.py:65-82 | a pass with no handles changes nothing and emits nothing |
| SocketEvents.NoHandlesLeft | src/api/app/routes/socket_events.py:65-72 | if all handles were visited, gone afterwards, and none appeared, every handle map is empty |
| SocketEvents.SecondSweepIdle | src/api/app/routes/socket_events.py:64-83 | after a pass in which every job finished, the next pass is idle: no annotation is added twice |
| SocketEvents.VisitTask | src/api/app/routes/socket_events.py:68-77 | the store calls for one task produce `SweepTask` |
| SocketEvents.SweepDeviceTasks | src/api/app/routes/socket_events.py:67-77 | the loop over the copied handle map produces `SweepNames` |
| SocketEvents.SweepDevice | src/api/app/routes/socket_events.py:66-82 | one device's snapshot, visits and patch produce `SweepOne`; handle keys and other devices' handles are kept |
| SocketEvents.ProgressSweep | src/api/app/routes/socket_events.py:65-82 | one pass of the updater produces `SweepAll` and keeps `Valid` |

## Left out

- Persistence is not modelled (`load_json`, `save_json`, `reset_json`, video_json_manager.py:176-193). The constructor takes the two maps directly, and saving is a no-op.
- `create_patch` is represented by the pair of lists it diffs. The RFC 6902 operations `jsonpatch` would compute are not modelled.
- `apply_patch` (video_json_manager.py:167-174) is not modelled. It runs an arbitrary `jsonpatch` application.
- `get_all_videos` is not modelled. It only returns the `videos` field.
- The unused `annotation_template` is not modelled.
- The HTTP routes, Celery, the ML models, OpenCV decoding, the crop's `cv2.resize` and the frame slicing are outside this model.
- `AsyncResult` lookups are a `jobs` map from task id to `Job`.
- The frame count and the window step `int(interval * fps)` are parameters.
- The socket updater's endless loop, `socketio.sleep`, `emit` and the debug `print` are left out. A pass returns its patches instead of emitting them.
- Concurrency between the updater and the routes is not modelled.
- Dict iteration order is supplied as parameters (`devices`, `order`). They must enumerate the maps' keys once each.
- `sync_videos`'s `os.path.exists` is a set of existing (device, file name) pairs.
- Video entries are values, so aliasing between the store and values handed out by `get_video` is not captured.
- `json.loads` of `object_pred` is not modelled. A record holds its parsed detections, or None for a prediction the loops skip as falsy.
- Coordinates and IoU are exact reals, not floating point.
- `square_crop`: `int()` truncation toward zero is modelled. Reading the frame's shape and the pixel slice are not.
- DetectionUtils.BiggestBox: modelled as written. The areas are built from a generator, so `np.argmax` sees a 0-d array and always picks the first box. The contract therefore states membership, not maximality.
- `process_goggles`, `process_swirling` and `compile_annotations` read the loop variable after the loop and raise on an empty list. The model requires a non-empty list.
- `process_goggles` requires non-zero IoU unions on the records it compares.
- `add_annotation` raises on an annotation type that has no counter. The model requires a valid type.
- The updater raises on a state missing from `status_map` (RETRY or unknown). The model requires every visited job to be processable.
- A window step of 0 makes `range` raise. The model requires a positive step.
- Annotation seconds are natural numbers, because the source derives them from non-negative frame indices.
- `add_video`'s default status list `["uploaded"]` is the constant `DefaultStatus`. Callers pass it explicitly; an `Option` stands for passing `None`.
