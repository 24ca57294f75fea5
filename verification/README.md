# A verified model of filetwist

filetwist is a self-hosted service that takes uploads, offers the conversions that
suit each file, and runs them with FFmpeg and libvips.  This project models the parts
of it whose correctness is not visible from one function at a time, and proves what
they promise:

- the **job engine** (`internal/jobs`): uploads, starts, cancels, deletes, expiry
  sweeps, downloads, workers and shutdown share one mutex, a table of per-job locks, a
  lease table, a bounded queue, a process semaphore and a byte account.  `Engine` is a
  transition system over any number of threads in which every critical section, every
  access to the job tree and every channel or context operation is one step; disk,
  clock and converter answer as they like.  `EngineInvariants`, `EngineMoves` and
  `EngineSteps` hold its inductive invariant, `EngineTheorems`, `EngineFiles` and
  `EngineProgress` what follows for every run, and `EngineRuns` concrete runs for the
  promises that have an exception.  `Manager` is the manager object itself, each method
  tied to the section of `Engine` it performs; `Manifests` and `ManifestLoops` are the
  changes to a job's record and the loops that make them; `JobLocks` is the
  reference-counted lock table, `UploadAccount` the byte account, `Intake` the upload
  loop, `Names` the stored names, and `RemoveFile` the removal of one input down to
  what a crash can leave behind;
- the **media planner** (`internal/media`): `Streams` selects streams, `MediaPlan` and
  `MediaBuilder` turn a request into a command and an output contract, `MediaMeaning`
  interprets the command and compares software with hardware, `Validate` checks an
  output against the contract, `Metadata` the names of its tags, `Mp4` walks its boxes,
  and `Convert` runs a plan with at most one fallback and publishes without replacing
  anything;
- the **image planner** (`internal/imageconv`): `ImagePlan` builds chains of commands,
  and `Dimensions` is the arithmetic of both planners;
- **inspection** (`internal/conversion`, `internal/profiles`): `Inspect` and
  `ProfileRegistry` decide which operations a file is offered;
- the **release push** (`scripts/container-image.py`): `RegistryPush` is one push under
  every crash, `RegistryWriters` any number of pushes whose requests mix.

`dafny verify dfyconfig.toml` checks everything.

## Model

| member | source | states |
|---|---|---|
| EngineTheorems.OneOwner | internal/jobs/manager.go:336-392 | In every state of every run a started job is in the queue at most once, not both queued and held, and held by at most one thread. |
| EngineTheorems.OwnerFitsState | internal/jobs/manager.go:658-715 | A stored queued job is in the queue or with a worker that has not claimed it, a running one is with the worker that claimed it, and a pending one is with nobody; the exception is named by the history set `dropped`, and such a job, while stored as active, is not queued and nobody has it but possibly the worker that has given it up. |
| EngineTheorems.RunningFilesExact | internal/jobs/manager.go:717-821 | The files marked running in a running job are exactly the one its worker is at and those whose result could not be saved, so at most one when every result was saved. |
| EngineTheorems.DrainedIsEmpty | internal/jobs/manager.go:637-656 | When `drained` is observed the queue is empty and no thread answers for a job. |
| EngineTheorems.DrainedActiveIff | internal/jobs/manager.go:637-715 | After the drain a job is still stored as queued or running if and only if a worker failed to read or save it and nobody canceled it afterwards. |
| EngineTheorems.DrainedMeansDone | internal/jobs/manager.go:859-900 | Without such failures no stored job is queued or running after the drain. |
| EngineTheorems.EnqueuedAtMostOnce | internal/jobs/manager.go:336-392 | Over a whole run each job identifier is sent on the queue at most once. |
| EngineTheorems.RemovalUnleasedIff | internal/jobs/manager.go:442-482 | Whichever step makes a stored job disappear, its lease count is zero and no thread holds a lease on it, except exactly when the step is an upload rolling back its own job. |
| EngineTheorems.LeasesExact | internal/jobs/manager.go:269-303 | The lease count of every job always equals the number of threads that hold a lease on it. |
| EngineTheorems.StoredManifestsConsistent | internal/jobs/storage/manifest.go:27-91 | Every stored record of every reachable state: in a terminal job all files are terminal; finish time, output and error are there exactly for the states that have them; completed and failed jobs have the files their state claims; the total is the sum of sizes; queued, running and completed files have a selected operation among the compatible ones. |
| EngineTheorems.TerminalJobsAreFrozen | internal/jobs/storage/manifest.go:46-54 | Over any stretch of a run a terminal job keeps its state, and once it lists files its whole record. |
| EngineFiles.FinishedFilesAbsorb | internal/jobs/storage/manifest.go:83-91 | Over any stretch of a run a file that was finished and is listed later is the identical record, whatever arrives late and however often its removal was tried and rolled back. |
| EngineFiles.FinishedSettled | internal/jobs/remove.go:56-68 | When a file is finished, every copy of its record that some request still remembers agrees with it. |
| EngineTheorems.StartNeverBlocks | internal/jobs/manager.go:336-392 | The send in Start always finds the free slot that was checked and an open channel, so it neither blocks nor panics. |
| EngineTheorems.GaugesExact | internal/jobs/manager.go:238-265 | While the mutex is free `queued` is the queue length plus the workers between receive and decrement, `running` the workers after it, and the process ceiling and the queue bound hold. |
| EngineTheorems.NothingJoinsAfterShutdown | internal/jobs/upload.go:148-184 | Once shutdown has begun no thread joins the wait group and no start begins to send. |
| EngineTheorems.CancelReachesWorker | internal/jobs/manager.go:396-437 | While a worker has a job that is still stored, signaling the control registered for the job cancels the very context the worker converts under. |
| EngineProgress.NeverStuck | internal/jobs/manager.go:305-392 | In every state of every run, whatever a busy thread waits for, and whatever that waits for, within four hands there is a thread that has a step without timing out; a thread awaits another one when it has no step and would have one without it, or when it deletes a job that the other one leases. So nobody waits in a circle for job locks, the mutex, process slots, leases or the queue. |
| EngineProgress.LocksAreShort | internal/jobs/manager.go:305-331 | Every step of a job lock's holder brings it nearer to unlocking, at most six of them, and no other thread's step moves it. |
| EngineProgress.HolderSteps | internal/jobs/manager.go:305-331 | Whoever holds a job lock can step as soon as the mutex is free: locks are taken job lock first, mutex second, and never the other way round. |
| EngineRuns.DrainMayLeaveQueued | internal/jobs/manager.go:679-683 | A concrete run in which a worker cannot read its job and the drain completes with that job still queued. |
| EngineRuns.RollbackMayRemoveLeased | internal/jobs/upload.go:100-106 | A concrete run in which a rejected upload removes its job while a download holds a lease on it. |
| EngineRuns.TwoFilesMayRun | internal/jobs/manager.go:789-857 | A concrete run in which two files of one job are stored as running, because the first one's result could not be saved. |
| EngineInvariants.ShapeKeeps | internal/jobs/manager.go:86-118 | A step of the permitted shape keeps all thirteen parts of the invariant (locks, mutex, leases, gauges, known identifiers, places, records, uploads, seen leases, held jobs, remembered records, controls, shutdown). |
| EngineSteps.StepHasShape | internal/jobs/manager.go:336-900 | Every step of every kind of thread has that shape. |
| EngineSteps.RunKeeps | internal/jobs/manager.go:133-202 | Hence the invariant holds in every state of every run from startup. |
| Manifests.StartKeeps | internal/jobs/manager.go:348-379 | Starting a sound pending record gives a sound queued one that absorbs finished files and has none running. |
| Manifests.CancelKeeps | internal/jobs/manager.go:414-436 | Canceling gives a sound terminal record and changes nothing that was finished. |
| Manifests.BeginFileKeeps | internal/jobs/manager.go:717-740 | Beginning a file keeps the record sound and adds exactly that file to the running ones. |
| Manifests.RecordKeeps | internal/jobs/manager.go:789-857 | Recording any outcome keeps the record sound, removes exactly that file from the running ones, and never touches a finished file or a terminal job. |
| Manifests.FinalizeKeeps | internal/jobs/manager.go:859-900 | Finalizing gives a sound terminal record: completed needs a completed file, failed needs a failed and no completed one. |
| Manifests.MergeKeeps | internal/jobs/upload.go:114-134 | Publishing an upload's probed files keeps the record sound, also when the job was canceled while probing. |
| Manifests.RemovalKeeps | internal/jobs/remove.go:56-61 | Taking one file out of a pending record keeps it sound, and its total is still the sum of sizes. |
| Manifests.InterruptAbsorbsIff | internal/jobs/manager.go:519-557 | Recovery's update absorbs terminal states if and only if the job is not terminal (or already interrupted): it relies on running before anything else. |
| ManifestLoops.StartLoop | internal/jobs/manager.go:352-370 | The in-place loop computes `StartFiles`, counts what is convertible, and stops at the first refused selection with that error. |
| ManifestLoops.FinalizeLoop | internal/jobs/manager.go:859-900 | One pass over the files both cancels what is unfinished and determines the final state. |
| ManifestLoops.StartErrorStays | internal/jobs/manager.go:352-370 | The first refused selection is the error whatever files follow. |
| Manager.Started | internal/jobs/manager.go:347-379 | The mutation Start hands to the store, from the pending check to the queue check, in its order of errors. |
| Manager.Manager.Start | internal/jobs/manager.go:336-392 | Either the job is stored as queued, counted, given a control and put at the end of the queue, or nothing at all changes and the error is the one of the first failed check. |
| Manager.Manager.Cancel | internal/jobs/manager.go:396-437 | All outcomes: unknown, unreadable, already terminal (untouched), canceled, and signaled but not saved. |
| Manager.Manager.ReleaseLease | internal/jobs/manager.go:288-296 | Releasing lowers exactly one job's count by one, never below zero, and drops the entry at zero. |
| Manager.LeaseUndone | internal/jobs/manager.go:282-296 | Releasing undoes acquiring, up to an entry of zero that goes away. |
| Manager.Manager.ConvertFiles | internal/jobs/manager.go:705-713 | The worker's loop gives every claimed file its own outcome and touches no other. |
| Manager.ProcessedResult | internal/jobs/manager.go:679-715 | A job processed without interference ends completed exactly when some conversion succeeded and otherwise failed exactly when some file failed, at probing or later; files that were already finished are untouched. |
| Manager.Manager.CleanupExpired | internal/jobs/manager.go:561-609 | An undisturbed sweep removes exactly the expired, inactive, unleased jobs, with their controls. |
| Manager.Manager.RecoverInterrupted | internal/jobs/manager.go:519-557 | Recovery interrupts exactly the unfinished jobs and leaves every stored job sound and terminal. |
| JobLocks.MutualExclusion | internal/jobs/manager.go:305-324 | In every interleaving at most one thread is inside a job's section, and threads concerned with one job share one lock object, although lock objects come and go. |
| JobLocks.EntryIffUsed | internal/jobs/manager.go:305-324 | The table has an entry for a job exactly while somebody uses its lock, and the entry counts those users. |
| JobLocks.RefinesOneLock | internal/jobs/manager.go:305-324 | A waiting thread can go in exactly when nobody is inside: the table behaves like one plain lock per job. |
| JobLocks.LockTable.Enter | internal/jobs/manager.go:305-313 | Entering finds or makes the lock object and raises exactly its count. |
| JobLocks.LockTable.Leave | internal/jobs/manager.go:315-323 | Leaving lowers the count and deletes the entry exactly when it was the last user. |
| UploadAccount.FloorHolds | internal/jobs/upload.go:148-184 | No interleaving of measurements, reservations, partial writes and releases takes free space from at or above the floor to below it, although uploads write between a measurement and its reservation. |
| UploadAccount.AccountExact | internal/jobs/upload.go:171-182 | `uploads` is always the sum of the live budgets, each at least one byte and at most the upload ceiling. |
| UploadAccount.RefusedIffNothingLeft | internal/jobs/upload.go:159-170 | In every run, a reservation is refused exactly when at the moment of its measurement not one byte more could be promised above the floor; otherwise it gets all that could be, up to the ceiling. |
| UploadAccount.Account.Reserve | internal/jobs/upload.go:148-184 | The reservation in 64-bit arithmetic: every step stays in range whatever free space is reported, and the result is the one of the unbounded specification. |
| Intake.Intake.Receive | internal/jobs/upload.go:186-287 | A body is accepted exactly when every part is; then the job lists one file per file part, in order, with its size and a name of its own, and at every moment the upload holds at most its budget on disk. |
| Intake.Intake.ReceiveFile | internal/jobs/upload.go:231-275 | One file part is stored whole within what remains or refused with nothing published. |
| Intake.WritePart | internal/jobs/upload.go:292-334 | A part goes through exactly when it is readable, not empty and fits; the byte that shows it to be too long is never written. |
| Intake.Intake.Publish | internal/jobs/upload.go:235-274 | Publishing a received part replaces no earlier input, and keeps the total equal to the sum of sizes. |
| Intake.ReceivedIsFresh | internal/jobs/upload.go:266-274 | What intake lists is what the engine assumes of an upload: distinct identifiers, sound records, nothing probed yet. |
| Names.SanitizeToken | internal/jobs/storage/names.go:63-85 | The loop keeps every ASCII letter and digit, in order and lower case, and single separators only between them. |
| Names.SafeFileName | internal/jobs/storage/names.go:19-61 | The result is a safe bounded name; short names lose no letter or digit, and the fallback is used exactly when the stem has none. |
| Names.NameTable.UniqueFileName | internal/jobs/storage/names.go:89-106 | Terminates because only finitely many names are taken; returns the wanted name if free, else the first free numbered variant, and records it. |
| Names.VariantSafeIff | internal/jobs/storage/names.go:97-105 | A numbered variant of a safe name has safe characters, and stays within the documented bound if and only if the suffix fits beside the name. |
| Names.VariantTooLong | internal/jobs/storage/names.go:12-13 | A safe name of full length whose second variant exceeds the bound. |
| Names.ResolveIffPlain | internal/jobs/storage/store.go:279-311 | A name resolves exactly when it is plain, and then to the file of that name in the directory. |
| Names.SafeNamesResolveApart | internal/jobs/storage/store.go:279-311 | Distinct safe names resolve to distinct files. |
| RemoveFile.JobDir.RemoveFile | internal/jobs/remove.go:16-90 | From any state an earlier call or crash may have left: every branch, and at every moment no manifest that is visible or could come back lists an input that is gone or missing. |
| RemoveFile.JobDir.RemoveFiles | internal/jobs/remove.go:16-90 | The same for any sequence of calls, retries after failed ones included. |
| RemoveFile.JobDir.Reboot | internal/jobs/storage/store.go:193-198 | And after a crash that brings back any of the manifests that might be found. |
| RemoveFile.JobDir.Exclude | internal/jobs/remove.go:63-80 | Persist, then unlink, else restore: nothing is unlinked unless the shorter manifest is certain to survive. |
| RemoveFile.JobDir.Delete | internal/jobs/storage/store.go:251-275 | Removing a job whose manifest lists nothing leaves no job or its empty manifest, wherever it stops. |
| RemoveFile.RemovedIsConsistent | internal/jobs/remove.go:56-61 | The shorter manifest has the other files in order, a total that is the sum of sizes, and is empty exactly when the file was the only one. |
| RemoveFile.SharedNameIsUnsafe | internal/jobs/upload.go:235-241 | The crash safety of removal needs the distinct stored names that intake gives. |
| MediaMeaning.AutoMeansCPU | internal/media/plan.go:124-293 | For every request, and every source and device as reported, automatic mode succeeds exactly when software mode does, with the same rejection, warnings and contract; its arguments, applied to the source as it is turned and laid out, have the same visible effect, and the retained software arguments are the software plan's. |
| MediaMeaning.HardwareDecodeMeansIff | internal/media/plan.go:281-291 | Decoding on a device has the visible effect of decoding in software exactly for the upright sources without high dynamic range that the device can decode; the guard is enough for that on every device that decodes at least what its probe decoded. |
| MediaMeaning.GuardIsExact | internal/media/plan.go:281-291 | The guard lets a source through if and only if hardware decoding is harmless on every device that the acceleration report may be of. |
| MediaMeaning.VAAPIAddsOneRejection | internal/media/plan.go:264-278 | Required hardware adds exactly one rejection, acceleration unavailable for a video; otherwise it plans what automatic mode plans. |
| MediaMeaning.PlansKeepContract | internal/media/plan.go:295-564 | The arguments of every plan, and those kept for its retry, map exactly the demanded streams, drop all metadata, and produce upright frames, sizes, colors and sound as the contract will check them, for every source and device as reported. |
| MediaMeaning.PlansWriteLast | internal/media/plan.go:295-564 | Every builder names the output path last and nowhere else. |
| MediaMeaning.VideoArgsMean | internal/media/plan.go:376-449 | What the software arguments do, whatever the source. |
| MediaMeaning.VAAPIArgsMean | internal/media/plan.go:295-374 | What the hardware arguments do, with either decoder, whatever the source. |
| MediaBuilder.BuildPlan | internal/media/plan.go:124-253 | The builder, with its checks in order and its fields assigned in place, computes the plan that these lemmas are about. |
| MediaBuilder.Builder.ApplyAcceleration | internal/media/plan.go:255-293 | Which of arguments, path, fallback and retained arguments change in each mode and readiness, and to what. |
| Dimensions.FittedWidth | internal/media/plan.go:617-625 | The fitted width is even, at least two, inside the box, and within one pixel of the scaled width exactly when that is at least one. |
| Dimensions.FittedHeight | internal/media/plan.go:617-625 | The same for the height. |
| Dimensions.FitScaleTight | internal/media/plan.go:617-621 | A video is scaled exactly when it does not fit, and then one side of the box is met. |
| Dimensions.NearestEvenExact | internal/media/plan.go:623-625 | The nearest even number of at least two: within one of the value exactly when that is at least one, and below any even bound the value is below. |
| Dimensions.EvenFloorExact | internal/media/plan.go:610-615 | The even floor exceeds its value exactly for sides below two. |
| Dimensions.LongestEdgeScale | internal/imageconv/plan.go:304-317 | An image is scaled exactly when its longest edge exceeds the maximum, and never up. |
| Dimensions.LongestEdgeWidth | internal/imageconv/plan.go:304-317 | The width stays, or shrinks to the nearest whole number of at least one, exactly the maximum when it was the longest edge. |
| Dimensions.LongestEdgeHeight | internal/imageconv/plan.go:304-317 | The same for the height. |
| Dimensions.DividedPixelCheck | internal/imageconv/plan.go:40-43 | The divided pixel check is equivalent to comparing the product, which is never formed. |
| Streams.SelectStreams | internal/media/selection.go:59-91 | The loop picks the first usable video and the first supported audio stream, and warns in order about every other audio stream. |
| Streams.WarningsCountDropped | internal/media/selection.go:59-91 | There are exactly as many warnings as audio streams that were not selected. |
| Streams.OtherStreamsIgnored | internal/media/selection.go:59-91 | Streams of other kinds influence neither selection nor warnings. |
| Validate.ValidateProbe | internal/media/validate.go:65-250 | Over stream lists of any length, an issue code is reported exactly when its clause of the contract is violated. |
| Validate.AcceptedMeans | internal/media/validate.go:65-287 | No issue means exactly: the declared streams and no others, no tag of the container or of any stream named after a place, a camera record, an edit history or a gain map, and container, duration and box order as declared. |
| Metadata.DetectSensitiveMetadata | internal/media/metadata.go:16-34 | Over tags in any order, the container's and every stream's, each category is found exactly when the lower-case name of some tag contains one of its words. |
| Validate.SensitiveIff | internal/media/validate.go:68-82 | One of the four categories is found exactly when some tag contains one of the seven words. |
| Validate.StreamClausesMean | internal/media/validate.go:65-250 | The separate stream clauses together say that the streams are exactly the declared ones. |
| Validate.ValidateOutput | internal/media/validate.go:253-287 | The probe issues and the box order together decide. |
| Validate.ContainerMatches | internal/media/validate.go:289-310 | The search in the list of format names finds the declared container exactly when it is there. |
| Mp4.HasFastStart | internal/media/mp4.go:11-60 | Terminates on every input, reads nothing at or past the size, and computes the walk. |
| Mp4.WalkExact | internal/media/mp4.go:11-60 | An error exactly when a malformed box comes before any media data; true exactly when media data comes after a movie box. |
| Mp4.SerializedFastStart | internal/media/mp4.go:11-60 | For every list of boxes, serialized with any mix of the 32-bit, 64-bit and to-end sizes of section 4.2 of ISO/IEC 14496-12, the answer is whether a movie box precedes the first media data. |
| Mp4.BoxReadsBack | internal/media/mp4.go:25-49 | The header of a serialized box reads back wherever it stands in the file. |
| Convert.ConvertPlan | internal/media/convert.go:90-150 | At most two attempts, the second exactly after a recognized hardware encode exit; success exactly with a new file whose bytes the last attempt's checks accepted. Whatever files others create between any two operations, none is ever changed: what a path holds stays, an existing output is there at every moment, and the output path always holds what was there, what others put there, or a complete accepted file. |
| Convert.ConvertOnce | internal/media/convert.go:216-306 | The same for one attempt, and that its temporary file is gone when it fails; a checked file goes unpublished only when linking fails or somebody else's file is there by then. |
| Convert.PublishNoReplace | internal/media/convert.go:308-329 | The temporary file becomes the output when linking works and nothing is there at that very moment; otherwise linking failed or something is there, which stays. |
| Convert.RedirectedWrites | internal/media/convert.go:249-258 | Because the output path is last, replacing the last argument makes the tool write to the temporary file only. |
| ImagePlan.BuildPlan | internal/imageconv/plan.go:64-297 | Refuses exactly what a check refuses, with the first check's error; otherwise a chain in which each command reads its predecessor's output, temporary paths are distinct and exactly the intermediates, flatten, normalization and resize each occur exactly when the image asks for it and in that order, with the background, full opacity, profile, depth and scale that the image asks for. |
| ImagePlan.FlattensOnWhiteIff | internal/imageconv/plan.go:430-469 | A JPEG plan of an image with alpha flattens exactly once, and onto white in the samples that the flatten reads if and only if color is normalized or the color space is a 16-bit one exactly when the samples are. |
| ImagePlan.WideGreyOnBlack | internal/imageconv/plan.go:459-469 | An accepted image every plan of which flattens onto 255 of 65535. |
| ImagePlan.LosslessPrecisionIff | internal/imageconv/plan.go:145-184 | The samples that the chain of a lossless copy writes are those its check expects if and only if the color space is not a perceptual one or converting to sRGB by numbers gives the samples of the file. |
| ImagePlan.WidePerceptualRefused | internal/imageconv/plan.go:174-184 | An accepted 16-bit image every lossless plan of which writes samples that its own check refuses, if sRGB has 8 bits. |
| ImagePlan.AcceptedContentFits | internal/imageconv/plan.go:21-45 | Of otherwise acceptable content exactly that within all limits is accepted, the pixel count included. |
| ImagePlan.FlattenFirst | internal/imageconv/plan.go:116-144 | JPEG alpha is dropped before normalization exactly when there is both. |
| ImagePlan.NormalizeColor | internal/imageconv/plan.go:145-184 | One normalization exactly when it is needed, and whether a profile remains. |
| ImagePlan.FlattenLast | internal/imageconv/plan.go:186-198 | The later flatten happens exactly when nothing was normalized. |
| Inspect.InspectDetected | internal/conversion/inspect.go:53-81 | A detected file is offered exactly the plannable operations of its kind, in registry order, and recommended the preferred one, or the first offered one when that is not among them; it is rejected exactly when there are none. |
| Inspect.OfferedIffPlannable | internal/conversion/inspect.go:83-138 | Over all operations, offered means plannable. |
| Inspect.OfferedCanBePlanned | internal/conversion/inspect.go:83-138 | What inspection offers for audio or video can be planned on the worker's real paths, with any acceleration report. |
| Inspect.OfferedImageCanBePlanned | internal/conversion/inspect.go:83-138 | The same for images. |
| Inspect.NeverMisconfigured | internal/conversion/inspect.go:83-138 | The placeholder request of inspection is never itself the reason for a refusal, for any registered operation. |
| ProfileRegistry.LookupExact | internal/profiles/profiles.go:208-232 | Lookup finds exactly the listed operations, each listed once. |
| ProfileRegistry.Compatible | internal/profiles/profiles.go:244-252 | The loop lists the accepting profiles in registry order. |
| ProfileRegistry.FindRecommended | internal/profiles/profiles.go:255-262 | Every kind of media has a recommendation. |
| RegistryPush.ExistingExact | scripts/container-image.py:258-274 | A tag passes the look exactly when it is free or already the attested candidate. |
| RegistryPush.Registry.Push | scripts/container-image.py:346-386 | One push, stopped after any number of requests: it only adds, manifests after their blobs and the tag last; a tag that exists is never replaced, and a different one stops the push before any upload. |
| RegistryPush.AlwaysClosed | scripts/container-image.py:346-386 | Over any number of pushes, each stopped anywhere, whatever a tag resolves to is completely stored. |
| RegistryPush.TagsAreImmutable | scripts/container-image.py:374-386 | While pushes take turns a published tag never changes. |
| RegistryWriters.MixedStaysClosed | scripts/container-image.py:346-386 | The same closure when the requests of any number of writers mix in any order and each may stop anywhere. |
| RegistryWriters.ReplacesIff | scripts/container-image.py:374-382 | An assignment replaces a published tag by another index if and only if others assigned it between the writer's second look and its assignment, the last of them with another candidate. |
| RegistryWriters.TurnsKeepTag | scripts/container-image.py:374-382 | If never two writers of one tag are between look and assignment, its published value never changes. |
| RegistryWriters.InterleavedWritersReplace | scripts/container-image.py:374-382 | For any two different candidates pushed to one free tag, some order of their requests publishes the one and replaces it by the other. |

## Findings

Promises that the code does not keep as documented, each with a concrete instance and
the exact condition under which it is kept.

- *A drained service has finished every started job* (internal/jobs/manager.go:637-656).
  It has not when a worker cannot read its job, or cannot save its claim or its final
  state: nothing retries, and the job stays queued or running
  (`EngineRuns.DrainMayLeaveQueued`).  Exactly those jobs are left, less those canceled
  later (`EngineTheorems.DrainedActiveIff`).
- *At most one file of a job runs* (internal/jobs/manager.go:705-713).  A second one is
  marked running when the first one's result could not be saved
  (`EngineRuns.TwoFilesMayRun`); the running files are exactly the current one and those
  (`EngineTheorems.RunningFilesExact`).
- *A leased job is never removed* (internal/jobs/manager.go:267-296).  A rejected upload
  removes its own job without looking at other leases
  (`EngineRuns.RollbackMayRemoveLeased`); no other step does
  (`EngineTheorems.RemovalUnleasedIff`).
- *A stored file name has at most 100 characters*
  (internal/jobs/storage/names.go:12-13).  The numbered variant of a long name is not
  shortened (`Names.VariantTooLong`); it fits exactly when the suffix does
  (`Names.VariantSafeIff`).
- *JPEG alpha is flattened onto white* (internal/imageconv/plan.go:459-469).  Without a
  color normalization the color space alone decides what white is, so 16-bit samples in
  an 8-bit space are flattened onto near-black (`ImagePlan.WideGreyOnBlack`); exactly
  when space and samples agree it is white (`ImagePlan.FlattensOnWhiteIff`).
- *A lossless copy preserves 16-bit precision* (docs/web.md:88,
  internal/imageconv/plan.go:174-184).  A 16-bit image in a perceptual color space is
  offered the copy, but if converting to sRGB gives 8-bit samples, its check refuses
  every result (`ImagePlan.WidePerceptualRefused`); the copy keeps its precision exactly
  for other color spaces, or when that conversion does
  (`ImagePlan.LosslessPrecisionIff`).
- *A published tag is never replaced* (scripts/container-image.py:374-382).  The second
  look does not close the window before the assignment: any two writers can replace one
  another (`RegistryWriters.InterleavedWritersReplace`), exactly when both are in the
  window (`RegistryWriters.ReplacesIff`).  The comment in the script relies on the
  workflow to serialize them.
- *Terminal states absorb* holds for recovery only because it runs before the server
  listens (cmd/filetwist-server/main.go:105): its update does not look at the state
  again (`Manifests.InterruptAbsorbsIff`).

## Left out

- EngineProgress.NeverStuck: finds a thread that can step at the end of every chain of waiting, not that a fair scheduler finishes every thread; wall-clock bounds are left out.
- UploadAccount.FloorHolds: counts uploads as the only consumers of disk space; conversions write outputs without reserving.
- Metadata.DetectSensitiveMetadata: tag names are lower-cased as ASCII; the few other characters whose lower case is an ASCII letter are left out.
- Convert.ConvertPlan: other processes create files; that they replace or remove the output, or use the attempts' random hidden names, is left out.
- MediaMeaning.AutoMeansCPU: compares everything that can be seen of the output except rate control, where `-crf` and `-qp` get the same number but mean different things; a device is taken to decode the plain 4:2:0 form of every codec its probe decoded.
- Dimensions.FittedWidth: scale factors are exact numbers; the rounding of floating-point division is left out.
- RegistryPush.ExistingExact: content is identified by value, so digests never collide, and headers that disagree with their content are left out.
- Names.SafeFileName: names are sequences of characters, and lengths are counted in them; what is stored is ASCII unless the caller's fallback is not.
- Job identifiers are numbers, and a fresh one is taken to differ from every earlier one (the code draws 16 random bytes); `ValidateID` and `ValidateFileID` are left out.
- Saving a manifest is all-or-nothing in the engine; that it can fail after the rename is modeled in `RemoveFile`.  A `store.Update` under a job lock is one step.
- Timestamps other than a file's start and finish and a job's expiry are left out; times are arbitrary.
- The expiry sweep visits jobs one at a time in any order; skipping one after its unlocked first look is the same as not visiting it.
- Recovery skips job directories it cannot read; they are taken not to exist.
- An upload cannot be aborted by its client inside a probe; probing may fail in any way instead.
- A panic in a handler or worker, and a process killed in the middle of the engine, are left out of the engine; a new start is a new run.
- JobCompleted's list of outputs, archives, downloads' contents, the HTTP layer, templates, configuration, logging, and the runner's process control are left out.
- FFmpeg, ffprobe, libvips and VA-API probing are foreign: their results are arbitrary, their arguments are interpreted as the model says.
- `internal/imageconv/converter.go` and `internal/conversion/service.go` publish like `internal/media/convert.go` and are left out.
- Image inputs whose path is also a work path are left out.
- Archives and receipts of `scripts/container-image.py`, and `scripts/container-sources.py`, are left out.
