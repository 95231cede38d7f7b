# A model of snapshot transfer and job supervision

This project models two components of the node agent and proves what holds over
their whole runs.

**Snapshot transfer.** A directory is cut into chunks, each chunk is read through
an encoder and a digest and uploaded, and the manifest that describes the chunks
is published. A download fetches each chunk in bounded ranges, decodes it, cuts
the stream into file parts, and many workers feed one writer, which keeps a
bounded table of open files and logs finished chunks, so that an interrupted run
can resume.

| module | what it models |
|---|---|
| `Layout` | files, file locations, and the *cells* (byte positions) they denote |
| `Blueprint` | `sources_list`, `build_destinations`, `prepare_manifest_blueprint`, the automatic number of slots |
| `Compression` | the `Coder` protocol as a record of operations with a promise about them; `NoCoder` proved to keep it |
| `ChunkReader`, `ChunkUpload`, `UploadRun` | `DestinationsReader` and `consume_reader`; `upload_chunk`; slots, parallel uploads, resuming and `Uploader::run` |
| `ChunkDownload` | `DestinationsIter`, `send_to_writer`, `download_part`, `download_chunk` |
| `FileWriter` | `Writer`, over a directory of names and file contents |
| `ChunkQueue` | the two `launch_more` and the indexes they account for |
| `DownloadRun`, `DownloadSafety`, `DownloadProof`, `DownloadProgress` | `ClientDownloader::run` as a transition system: main loop, workers, bounded channel, writer, run flags, crashes; its invariant, and its termination |
| `Transfer` | the results on whole transfers |
| `DownloadOutcome` | when a download returns Ok, and that one can, from wherever earlier runs left off |
| `DiskSpace` | `required_disk_space` |

**Job supervision.** A registry of jobs is changed by the requests of clients and by
the passes of a manager, each under one lock; runner processes, status files and
config files are its environment.

| module | what it models |
|---|---|
| `Jobs` | jobs, status files, `deps_finished`, and what is done to one job (`start_job`, `handle_stopped_job`, `stop_job`, ...) |
| `JobsManager` | the registry as a class; every operation is proved equal to a function on the world |
| `JobsSafety` | one runner per job, and agreement of memory and status files, over every run |
| `JobsLiveness` | repeated passes: fixpoint, no deadlock, cycles of needs |
| `JobsOutcome` | what becomes of one job: a job that reported its end, one whose runner is gone, and the effect of each request |
| `Plugin` | the plugin configuration, `validate`, `default_init`, `default_upload` and the calls they make |
| `Gating`, `UploadExclusion`, `UploadRace`, `Stages` | those functions interleaved with manager passes and runners |
| `RestartBackoff` | `Backoff`, `JobBackoff`, `ArchiveJobRunner::try_run_job` |

Both components meet their environment through parameters: server replies, I/O
outcomes, the order in which tasks finish, process ids, clocks and run flags are
arguments or nondeterministic choices, and the results hold for all of them.

## Findings

Where a property is not true of the code as it stands, the model keeps the code
and states exactly when the property holds.

- The manifest is a partition of the sources if and only if the number of slots
  fits (`Blueprint.SlotsFit`): no bytes at all, no more slots than bytes, one
  slot, or two slots with an empty file read first. Otherwise files are left over,
  although the published total counts them (`DiskSpace.PublishedTotal`).
- The automatic number of slots always fits, except where its cast to 32 bits
  gives 0 (`Blueprint.AutomaticSlotsFit`).
- The client downloader keeps its indexes apart if and only if each reply has no
  repeats and names only remaining indexes (`ChunkQueue.AnyConservesIff`); an
  index that a reply repeats is launched twice.
- A download that ends with Ok is complete if and only if its last launch did not
  get an empty reply while indexes remained and nothing was in flight
  (`Transfer.SuccessMeansComplete`). Its files are the source files if and only if
  the destination held nothing else before, because nothing is removed or cut
  short (`Transfer.SuccessMeansSameFiles`).
- Without a configured runner a download cannot begin: a channel without capacity
  cannot be created, and the run panics. In the model such a run has no first step.
- An upload that starts over does not remove the log of an earlier one. A manifest
  has every chunk uploaded if and only if, for each chunk, the last entry of the
  log that the run found is absent or one of this upload (`UploadRun.Uploader.Run`);
  a log with an entry for no chunk makes every resume fail.
  `UploadRun.StaleLogIsSent` is a pair of runs that sends a stale log.
- An upload without runners sends the manifest without having uploaded anything
  (`UploadRun.UnfinishedIsNotUploaded`).
- A job that is not to be restarted and whose runner left no status is finished in
  memory only (`JobsSafety.JobsGetLost`); after a restart of the jobs manager it is
  pending again. Of the jobs that are not to run, these are exactly the ones that a
  restart changes (`JobsSafety.ShutdownThenStartup`).
- The services that `default_upload` restarts are held back during the upload if
  some post-upload job comes to the upload in its needs without passing a job that
  may fail earlier (`UploadExclusion.HasGuard`). Where the first needs are the
  upload or jobs that the plan does not create this is also necessary, and an
  execution shows the services beside the upload (`UploadRace.ExclusionIffGuard`).

## Model

| member | source | states |
|---|---|---|
| Blueprint.ListSources | babel/src/utils.rs:194-223 | the sources are the files that no pattern excludes, whole and in order, and the total is the sum of their sizes |
| Blueprint.ListedAre | babel/src/utils.rs:197-218 | the list has each file that is not excluded, whole, nothing else, and no path twice |
| Blueprint.SourcesList.BuildDestinations | babel/src/upload_job.rs:836-863 | one chunk takes from the top of the stack what `Fill` takes, and leaves the same stack; the loop ends by a lexicographic measure |
| Blueprint.FillAmount | babel/src/upload_job.rs:836-863 | a chunk takes as many bytes as fit, stops only at a non-empty file, and gets nothing exactly when it cannot start |
| Blueprint.SourcesList.PrepareManifestBlueprint | babel/src/upload_job.rs:341-378 | the chunks are numbered in order, without url, checksum or size, and hold the destinations of the plan; what is not planned stays in the sources |
| Blueprint.PartitionIffSlotsFit | babel/src/upload_job.rs:347-372 | the manifest covers the same bytes in the same order, and a zero-size destination for exactly the empty files, if and only if the slots fit; then nothing is left over; no chunk is without destinations |
| Blueprint.ManifestTilesEveryFile | babel/src/upload_job.rs:341-378 | when the slots fit, every byte of every file is in exactly one place of the manifest and nothing else is |
| Blueprint.ChunkSizes | babel/src/upload_job.rs:347-349 | every chunk but the last holds exactly the quotient of bytes by slots, the last one the remainder as well; one chunk to each slot if there is a byte for each |
| Blueprint.AutomaticSlotsFit | babel/src/upload_job.rs:320-326 | the automatic number of slots fits whenever the 32-bit cast does not give 0, and exactly when it gives 0 |
| Compression.NoCoderKeeps | babel/src/compression.rs:26-39 | without compression output equals input, for any sequence of feeds with a consume in between |
| Compression.FeedingOverDataLosesIt | babel/src/compression.rs:27-30 | feeding over unconsumed data keeps it only if there was none |
| Compression.NoCoder.Feed | babel/src/compression.rs:27-30 | replaces the buffer |
| Compression.NoCoder.Consume | babel/src/compression.rs:32-34 | hands out the buffer and empties it |
| Compression.NoCoder.Finalize | babel/src/compression.rs:36-38 | hands out what is left |
| ChunkReader.SlicesAreCells | babel/src/upload_job.rs:1275-1310 | the bytes of a chunk are the files' bytes at the cells of its destinations |
| ChunkReader.OpenReader | babel/src/upload_job.rs:1185-1223 | fails exactly for an empty chunk or a missing first file |
| ChunkReader.DestinationsReader.ReadData | babel/src/upload_job.rs:1275-1310 | a buffer holds the next bytes of the destinations, across file boundaries; it is short only at the end of the chunk, and an error only if a slice cannot be read |
| ChunkReader.DestinationsReader.Advance | babel/src/upload_job.rs:1229-1268 | one buffer through the encoder, which holds nothing unconsumed when it is fed; the last one is finalized and the digest published |
| ChunkReader.DestinationsReader.TryNext | babel/src/upload_job.rs:1225-1273 | the next part extends what was emitted; the iterator ends exactly after the finalized part and always terminates, with zero-size destinations too |
| ChunkReader.DestinationsReader.ConsumeReader | babel/src/upload_job.rs:1145-1162 | the parts together are the coder's output for all slices of the chunk, their total is its length, and the published checksum is its digest; it fails only for an unreadable slice, a failing coder or a stop |
| ChunkUpload.UploadChunk | babel/src/upload_job.rs:1062-1142 | what is sent is the stored object under the chunk's url, with its length; without data nothing is sent and the chunk is uploaded; with data it is uploaded if and only if the request was accepted; every other failure has its cause |
| ChunkUpload.UploadPlain | babel/src/upload_job.rs:1076-1085 | without compression, a readable chunk with a url is always sent, as the bytes of its slices |
| ChunkUpload.Published | babel/src/upload_job.rs:1062-1142 | what an uploaded chunk becomes describes the stored object, and there is none exactly for an unreadable chunk or a missing url |
| UploadRun.AssignSlots | babel/src/upload_job.rs:291-298 | each chunk gets key and url of the last slot for its index, the others stay |
| UploadRun.AnsweredHasUrls | babel/src/upload_job.rs:246-266 | a reply with every requested slot gives a url to the chunks that are next |
| UploadRun.ChunkUploaders.constructor | babel/src/upload_job.rs:888-908 | as many runners as files may be opened at most, and the chunks without a size |
| UploadRun.ChunkUploaders.UpdateSlots | babel/src/upload_job.rs:910-924 | slots are requested exactly when the next chunk has no url |
| UploadRun.ChunkUploaders.LaunchMore | babel/src/upload_job.rs:926-938 | launches from the end until the runners are busy or nothing is left; every chunk stays accounted for, and with enough urls each launched chunk has one |
| UploadRun.Uploader.Resume | babel/src/upload_job.rs:144-154 | the saved manifest with the last log entry of each chunk; an entry for a chunk that does not exist, or an unreadable log, is an error |
| UploadRun.Uploader.StartOver | babel/src/upload_job.rs:126-142 | the manifest is saved before it gets its first slots; every url in it was granted together with its key |
| UploadRun.Uploader.Start | babel/src/upload_job.rs:114-154 | new or resumed, the next launches have urls or request them; there is a manifest exactly if the log can be read and names only chunks, or slots were answered and the blueprint saved |
| UploadRun.Uploader.Launch | babel/src/upload_job.rs:187-193 | free runners get chunks that have a url, whose key and url come from one slot; slots are requested exactly when the next chunk has no url, for the last chunks that wait; it fails exactly if they are refused |
| UploadRun.Uploader.FinishOne | babel/src/upload_job.rs:163-175 | one upload in flight is taken; it succeeds exactly if the upload did, could be described and was recorded; it is logged, then marked; any failure leaves only uploaded chunks added to the log |
| UploadRun.Uploader.Turn | babel/src/upload_job.rs:180-210 | one turn of the loop keeps every chunk accounted for while there is no error, takes one upload unless nothing is in flight, and turns into an error exactly if slots were refused or that upload failed |
| UploadRun.Uploader.UploadAll | babel/src/upload_job.rs:180-210 | the loop ends without an error if and only if in no turn slots were refused or an upload failed; then, unless stopped, every chunk without a size was uploaded; whatever was launched is waited for unless the loop was stopped; an error is recoverable as the first trouble was |
| UploadRun.Uploader.Cleanup | babel/src/upload_job.rs:71-91 | the blueprint goes before the log |
| UploadRun.Uploader.Conclude | babel/src/upload_job.rs:211-242 | what follows the loop: a crash leaves the files, an error cleans up if it cannot be recovered from, an interruption keeps the files, otherwise the manifest is sent and the files removed |
| UploadRun.Uploader.Run | babel/src/upload_job.rs:113-243 | with a runner, the manifest that is sent has every chunk uploaded (final size, checksum of the stored object, no url) if and only if, for each chunk, the last entry of the log found is absent or one of this upload; each outcome has its cause, both ways: no manifest to start with, the time of a crash or an interruption, trouble in some turn, the manifest refused, the cleanup failed; otherwise it is sent; if nothing interferes and the log found fits, it is sent with every chunk uploaded; each chunk with an object was found or has the key of the slot under whose url it was sent; a log with an entry for no chunk fails every resume; the saved files go exactly after the manifest was sent or after an error that cannot be recovered from |
| UploadRun.FreshUploadIsSent | babel/src/upload_job.rs:113-243 | a new upload with a runner, of readable files, that nothing interferes with is sent with every chunk uploaded |
| UploadRun.UploadedIffLogFits | babel/src/upload_job.rs:123-175 | when everything is done, all chunks are uploaded if and only if the log found fits |
| UploadRun.EntriesRepair | babel/src/upload_job.rs:163-165 | for each chunk, the last entry is the one found or an uploaded one: runs only repair a log |
| UploadRun.StaleLogIsSent | babel/src/upload_job.rs:116-154 | two runs: one starts over on any log that names every chunk and crashes, the next one sends what that log says, which is all uploaded if and only if the log fits |
| UploadRun.UnfinishedIsNotUploaded | babel/src/upload_job.rs:896-898 | the manifest that a new upload starts with, and sends when no runner is allowed, has no uploaded chunk |
| ChunkDownload.DestinationsIter.Next | babel/src/download_job.rs:1245-1264 | the next location and the remaining stack |
| ChunkDownload.SplitWrites | babel/src/download_job.rs:1203-1224 | a buffer is written to the next cells of the destinations, in order, byte for byte |
| ChunkDownload.SplitTouches | babel/src/download_job.rs:1209-1219 | every destination is opened, empty ones as soon as they are reached |
| ChunkDownload.CutsDoNotMatter | babel/src/download_job.rs:1203-1264 | two cuts of the same bytes into buffers succeed together, exactly when the bytes do not exceed the destinations, and write the same |
| ChunkDownload.TiledOnce | babel/src/download_job.rs:1167-1179 | the inclusive ranges requested (section 14.1.2 of RFC 9110) ask for each byte of the object once and for no other |
| ChunkDownload.ChunkDownloader.DownloadPart | babel/src/download_job.rs:1166-1200 | one bounded range; anything but exactly the bytes asked for is an error |
| ChunkDownload.ChunkDownloader.SendToWriter | babel/src/download_job.rs:1203-1224 | sends the parts of one buffer; fails exactly when bytes are left over |
| ChunkDownload.ChunkDownloader.Deliver | babel/src/download_job.rs:1139-1140 | one more buffer: too long exactly when the bytes so far exceed the destinations |
| ChunkDownload.ChunkDownloader.Round | babel/src/download_job.rs:1131-1140 | one range fetched in order, decoded and sent; each error has its cause |
| ChunkDownload.ChunkDownloader.FinishChunk | babel/src/download_job.rs:1145-1155 | the end marker is sent only after the checksum matched and everything decoded was sent |
| ChunkDownload.ChunkDownloader.DownloadChunk | babel/src/download_job.rs:1119-1156 | success: ranges tile the object, its digest is the published one, the decoded bytes were written to the destinations in order, the end marker is last; failure: only cells of this chunk were written, and each error has its cause |
| FileWriter.Writer.Oldest | babel/src/download_job.rs:1396-1401 | the least recently used open file |
| FileWriter.Writer.Evict | babel/src/download_job.rs:1394-1419 | closes a file exactly when the table is full; files on disk are unchanged |
| FileWriter.Writer.Open | babel/src/download_job.rs:1421-1454 | a missing file is created, an existing one is not truncated; the file counts as used now |
| FileWriter.Writer.WriteThrough | babel/src/download_job.rs:1456-1461 | through the handle, the file that the path names is written |
| FileWriter.Writer.WriteOpened | babel/src/download_job.rs:1382-1390 | an open file is written without opening another, and counts as used now unless the part is empty |
| FileWriter.Writer.WriteToFile | babel/src/download_job.rs:1376-1464 | writing through the bounded table equals writing directly at the offset; the table never exceeds its limit (one if the limit is 0); only a full table loses a file, the least recently used one |
| FileWriter.Writer.HandleChunkData | babel/src/download_job.rs:1355-1374 | a chunk is logged by its end marker only |
| FileWriter.Writer.Run | babel/src/download_job.rs:1300-1353 | for any messages, clocks and faults: the files are those of direct writes of what was handled; an error is the effect of the first failing message |
| ChunkQueue.ChunkDownloaders.constructor | babel/src/download_job.rs:968-998 | what remains is every index not recorded |
| ChunkQueue.ChunkDownloaders.Request | babel/src/download_job.rs:1003-1008 | different remaining indexes, as many as there are runners |
| ChunkQueue.ChunkDownloaders.LaunchMore | babel/src/download_job.rs:901-1038 | both variants: when a request is made, what is launched, and at most as many in flight as runners |
| ChunkQueue.RemainingConserves | babel/src/download_job.rs:919-938 | the parallel variant: launched, remaining and recorded indexes partition all indexes, whatever the server answers; none is launched twice |
| ChunkQueue.AnyConserves | babel/src/download_job.rs:1019-1035 | the client variant: the same when replies have no repeats and name remaining indexes |
| ChunkQueue.AnyConservesIff | babel/src/download_job.rs:1019-1035 | the client variant conserves the indexes if and only if what it takes from the reply has no repeats and still remains |
| ChunkQueue.AnyConservesIffBufferRemains | babel/src/download_job.rs:1019-1035 | with room for all, if and only if the whole reply has no repeats and remains |
| ChunkQueue.ExactIsUsable | babel/src/download_job.rs:1003-1017 | exact replies are such replies, and not empty while anything remains |
| ChunkQueue.IdleMeansDoneOrUselessReply | babel/src/download_job.rs:901-1038 | an idle downloader launches nothing if and only if the reply was useless to it |
| ChunkQueue.RepeatedIndexLaunchedTwice | babel/src/download_job.rs:1019-1035 | an index that a reply repeats is launched twice by the client variant, and once by the parallel one, in every state |
| DownloadProof.StepKeeps | babel/src/download_job.rs:512-561 | every step of main loop, workers, channel, writer and flags, and every crash, keeps the invariant |
| DownloadProof.ExecutionKeeps | babel/src/download_job.rs:512-561 | the invariant holds after any number of runs and crashes |
| DownloadProgress.NeverStuck | babel/src/download_job.rs:540-553 | while a run goes on some step is possible: no deadlock over the bounded channel |
| DownloadProgress.EveryRunEnds | babel/src/download_job.rs:540-560 | however its steps are scheduled, a run ends |
| Transfer.StepIsSafe | babel/src/download_job.rs:1355-1374 | the log only grows and no byte of a recorded chunk changes, whatever fault interrupts the writer |
| Transfer.NoWriteTouchesRecorded | babel/src/download_job.rs:980-981 | no part that reaches the writer overlaps a recorded chunk |
| Transfer.RecordedStaysRecorded | babel/src/jobs.rs:325-360 | over any number of interrupted runs, a recorded chunk stays recorded, once, and stays right on disk |
| Transfer.ResumeSkipsRecorded | babel/src/download_job.rs:516-535 | a run starts with exactly the chunks that are not recorded |
| Transfer.SuccessMeansComplete | babel/src/download_job.rs:540-560 | a run that returns Ok has recorded no index twice, and every index if and only if its last launch did not get an empty reply with indexes remaining and nothing in flight; for every order of errors, stops and partial replies |
| Transfer.StarvedIffEmptyReply | babel/src/download_job.rs:540-553 | what ends such a run is exactly that empty reply |
| Transfer.ExactRepliesNeverStarve | babel/src/download_job.rs:1003-1017 | a server that answers exactly never ends a run this way |
| Transfer.SuccessMeansSameFiles | babel/src/download_job.rs:512-561 | and then the files are the source files, byte for byte, no file missing and none besides, if and only if the destination held nothing else before the first run |
| Transfer.EmptyReplyEndsWithOk | babel/src/download_job.rs:1011-1037 | an execution in which one empty reply ends the run with Ok and nothing recorded |
| Transfer.ManifestIsSoundIff | babel/src/upload_job.rs:341-378 | the manifest of a directory places each byte once and names each file, if and only if the slots fit |
| Transfer.BodyDecodes | babel/src/upload_job.rs:1062-1142 | a stored object decodes to the bytes of the chunk's cells, as many as the destinations hold |
| Transfer.FetchChunk | babel/src/download_job.rs:1088-1156 | whatever the server sends, the messages of a chunk's worker are as `Fetched` says |
| Transfer.FetchedIsLegit | babel/src/download_job.rs:1119-1156 | the worker of an uploaded chunk is a legitimate one: a wrong object is caught by the digest before the end marker |
| Transfer.DownloadIsExecution | babel/src/download_job.rs:512-561 | any number of runs that download an uploaded manifest are executions of the transition system |
| Transfer.SourcesAreListing | babel/src/utils.rs:194-223 | a walk that meets each path once lists exactly the files that are not excluded, as the round trip requires |
| Transfer.RoundTrip | babel/src/download_job.rs:512-561 | directory, plan, uploaded manifest, any number of runs and crashes that download it, the last one with Ok: the same directory, empty files included, if and only if the destination held nothing else before |
| DownloadOutcome.OkIffNothingWentWrong | babel/src/download_job.rs:537-561 | a run has returned Ok if and only if it came to its end and, since it began, nobody stopped it, every request for chunks was answered, every worker launched delivered its whole chunk, and the writer met no fault that affects what it handled |
| DownloadOutcome.InFlightIsBounded | babel/src/download_job.rs:517 | never more messages wait than runners are configured, nor more workers run than runners and open files allow |
| DownloadOutcome.RunCanEndWell | babel/src/download_job.rs:537-561 | from every state of a run in which nothing went wrong, the run can end with Ok and every chunk recorded |
| DownloadOutcome.NextRunCanSucceed | babel/src/download_job.rs:512-561 | wherever earlier runs left off, crashed or failed, the next run can return Ok with every chunk recorded and the files complete; so can the first one |
| DownloadOutcome.RoundTripTakesPlace | babel/src/download_job.rs:512-561 | every uploaded manifest of a plan that fits has a download that returns Ok with the files |
| DiskSpace.RequiredIsExact | babel/src/download_job.rs:839-855 | never an error and exactly the bytes of the chunks not recorded, for any duplicate-free recorded chunks |
| DiskSpace.PublishedTotal | babel/src/upload_job.rs:373-377 | the published total is the sum over the chunks if and only if the slots fit |
| DiskSpace.RecordedTwice | babel/src/download_job.rs:839-855 | a chunk recorded twice can make it an error |
| Jobs.DepsFinished | babel/src/jobs_manager.rs:739-784 | needs before awaited jobs, each in order, up to the first that decides |
| Jobs.AllDoneIff | babel/src/jobs_manager.rs:745-783 | a job may start if and only if all it needs succeeded and all it waits for ended |
| Jobs.FirstNeedDecides | babel/src/jobs_manager.rs:745-765 | the first needed job that has not succeeded decides: failure if it is undefined or over, waiting otherwise |
| Jobs.FirstAwaitedDecides | babel/src/jobs_manager.rs:767-782 | once all needs succeeded, so does the first awaited job that is not over |
| Jobs.NotYetBecause | babel/src/jobs_manager.rs:745-783 | a job that has to wait does so for a defined job that is not over |
| JobsManager.JobsRegistry.StartJob | babel/src/jobs_manager.rs:689-721 | status cleared, runner spawned, or the failure recorded |
| JobsManager.JobsRegistry.SaveStatusOf | babel/src/jobs.rs:140-157 | the status file of an inactive job is written, or cleared when it is to run |
| JobsManager.JobsRegistry.StopJob | babel/src/jobs_manager.rs:431-437 | the runner is terminated before the status changes |
| JobsManager.JobsRegistry.HandleStoppedJob | babel/src/jobs_manager.rs:652-687 | takes the status that the runner left, restarts, or gives up a job that is not to be restarted |
| JobsManager.JobsRegistry.UpdateActiveJobs | babel/src/jobs_manager.rs:580-597 | every active job without a process, whatever the order of the registry |
| JobsManager.JobsRegistry.CheckInactiveJobs | babel/src/jobs_manager.rs:599-650 | every inactive job, judged by the registry as it was, whatever its order |
| JobsManager.JobsRegistry.CheckInactiveJob | babel/src/jobs_manager.rs:609-647 | pending jobs by their dependencies, jobs to run by their status |
| JobsManager.JobsRegistry.UpdateJobs | babel/src/jobs_manager.rs:562-578 | one pass |
| JobsManager.JobsRegistry.LoadJobs | babel/src/jobs_manager.rs:91-161 | every job with a config file gets the state found for it |
| JobsManager.JobsRegistry.StartupManager | babel/src/jobs_manager.rs:205-212 | loads, then is ready |
| JobsManager.JobsRegistry.ShutdownManager | babel/src/jobs_manager.rs:234-260 | active jobs end one by one up to the first that would not terminate |
| JobsManager.JobsRegistry.CreateJob | babel/src/jobs_manager.rs:276-301 | terminates, saves, registers; or fails at one of these, or at the limit |
| JobsManager.JobsRegistry.StartRequest | babel/src/jobs_manager.rs:303-322 | an inactive job becomes pending |
| JobsManager.JobsRegistry.StopRequest | babel/src/jobs_manager.rs:344-353 | the job is terminated and stopped |
| JobsManager.JobsRegistry.StopAll | babel/src/jobs_manager.rs:355-362 | all jobs, up to the first failure |
| JobsManager.JobsRegistry.SkipRequest | babel/src/jobs_manager.rs:364-380 | the job is terminated and finished with 0 |
| JobsSafety.StepKeepsOneRunner | babel/src/jobs_manager.rs:234-380 | requests, passes, restarts and process exits keep the ownership of runners |
| JobsSafety.RunsKeepOneRunner | babel/src/jobs_manager.rs:580-721 | in every run a job has at most one live runner; once loaded, an inactive job has none and a live one is the one stored |
| JobsSafety.RunsKeepStatusFiles | babel/src/jobs.rs:140-157 | in every run without I/O errors each pending, finished or stopped job has its status on disk, except one that was loaded without a status file and a lost one |
| JobsSafety.ShutdownThenStartup | babel/src/jobs_manager.rs:133-158 | shutting down and starting up keeps saved statuses and makes active jobs without one pending; of the jobs that are not to run, exactly the lost ones change |
| JobsSafety.JobsGetLost | babel/src/jobs_manager.rs:652-680 | a run without I/O errors that loses a job |
| JobsLiveness.PassSlot | babel/src/jobs_manager.rs:562-650 | a pass leaves settled jobs alone and settles every job that it changes |
| JobsLiveness.FixpointIffQuiet | babel/src/jobs_manager.rs:562-650 | a pass changes nothing if and only if every job is settled or waiting |
| JobsLiveness.PassesReachFixpoint | babel/src/jobs_manager.rs:562-650 | after as many passes as there are jobs nothing changes any more |
| JobsLiveness.WaitsForARunningJob | babel/src/jobs_manager.rs:739-784 | at the fixpoint of an acyclic graph every job that is not over waits, in the end, for one that runs |
| JobsLiveness.NoDeadlock | babel/src/jobs_manager.rs:503-508 | and if none runs, every job is over |
| JobsLiveness.CycleIsNeverLaunched | babel/src/jobs_manager.rs:745-765 | in every run, jobs that need each other are never launched, through any requests, passes, exits and restarts, unless one is skipped or given other needs |
| JobsOutcome.ReportedJobIsNotRunAgain | babel/src/jobs_manager.rs:652-687 | in every run, a job that reported its end keeps the report and gets no new runner, through passes, other requests, shutdowns and restarts of the manager, while its file can be read and nothing is asked of it |
| JobsOutcome.ReportedJobIsOver | babel/src/jobs_manager.rs:675-679 | once its runner has exited and a pass has missed it, the job is inactive with just the reported status, and stays so |
| JobsOutcome.PassRelaunchesIff | babel/src/jobs_manager.rs:580-687 | a pass gives an active job a new runner if and only if its process is gone, no readable status says that it ended, and it may be restarted if nothing is readable; otherwise it is given up with what was reported, or left alone |
| JobsOutcome.PassRunsLeftJobIff | babel/src/jobs_manager.rs:642-645 | the same for a job that an earlier manager left to be run |
| JobsOutcome.StartMakesPending | babel/src/jobs_manager.rs:303-322 | a start makes any inactive job pending, in memory and on disk, also one that is over, and touches no other |
| JobsOutcome.PendingIsLaunched | babel/src/jobs_manager.rs:614-622 | a pass launches a pending job whose needs have succeeded and whose awaited jobs are over; one that cannot be launched has failed |
| JobsOutcome.PendingFails | babel/src/jobs_manager.rs:623-641 | a pass ends a pending job with a recorded failure, without an exit code, if something it depends on cannot be satisfied any more |
| JobsOutcome.StartedJobIsLaunched | babel/src/jobs_manager.rs:303-322 | a job that is over is run again after a start |
| JobsOutcome.EndIff | babel/src/jobs_manager.rs:344-380 | a stop or a skip fails exactly without such a job, if its runner does not end or the status cannot be saved; otherwise the runner is gone and the status is in memory and on disk |
| JobsOutcome.SkippedCountsAsSuccess | babel/src/jobs_manager.rs:371-374 | for every job that needs or awaits it, a skipped job has succeeded |
| JobsOutcome.CreateIff | babel/src/jobs_manager.rs:276-301 | a create fails exactly at the limit of jobs, if the old runner does not end or a file cannot be saved; otherwise the job is stopped, with the new config and without the old runner |
| Plugin.Validate | babel_api/src/plugin_config.rs:46-129 | accepts exactly the configurations with unique names over all sections and well-formed services |
| Plugin.UniqueSections | babel_api/src/plugin_config.rs:55-127 | names inserted section by section are unique exactly when all names together are |
| Plugin.ValidateServices | babel_api/src/plugin_config.rs:91-115 | archived services have a store key; directories and keys are well-formed |
| Plugin.BarePlugin.CreateAndStartJob | babel_api/src/rhai_plugin.rs:651-655 | a job is started only after it was created, and the result is that of the last call made |
| Plugin.BarePlugin.RunActions | babel_api/src/rhai_plugin.rs:556-568 | a command that fails ends the function and no job is created; otherwise the jobs are created and started up to the first call that fails |
| Plugin.BarePlugin.StartAuxServices | babel_api/src/rhai_plugin.rs:606-633 | auxiliary services depend on nothing |
| Plugin.BarePlugin.RunJobs | babel_api/src/rhai_plugin.rs:570-591 | jobs add their own needs before those of their stage; the next stage needs them, or what they needed |
| Plugin.BarePlugin.StartServices | babel_api/src/rhai_plugin.rs:635-649 | only services on protocol data get needs and awaited jobs |
| Plugin.BarePlugin.StartDataJobs | babel_api/src/rhai_plugin.rs:668-699 | which job brings the data, and what its stage leaves to need |
| Plugin.BarePlugin.StopServices | babel_api/src/rhai_plugin.rs:720-723 | the services on protocol data are stopped one by one |
| Plugin.BarePlugin.StartUploadJob | babel_api/src/rhai_plugin.rs:726-754 | an upload job exactly when some service is archived |
| Plugin.BarePlugin.DefaultInit | babel_api/src/rhai_plugin.rs:657-712 | the calls made are those of the plan after stopping all jobs, up to the first that fails, which is the result; a failed command or an unknown data stamp ends it before the jobs of that stage |
| Plugin.BarePlugin.DefaultUpload | babel_api/src/rhai_plugin.rs:715-760 | the calls made stop the services on protocol data and follow the upload plan, up to the first that fails, which is the result; a failed command ends it after the services were stopped |
| Gating.StopAllStops | babel/src/jobs_manager.rs:355-362 | a successful stop of all jobs leaves all stopped |
| Gating.InitPlanIsDistinct | babel_api/src/plugin_config.rs:56-89 | a valid configuration gives no name to two jobs of the init plan |
| Gating.ExecutionIsGated | babel_api/src/rhai_plugin.rs:657-712 | at every moment, a job that runs or succeeded has all it needs, with passes and runners interleaved with the calls |
| Gating.NeedsAreTransitive | babel/src/jobs_manager.rs:745-765 | on every path of needs from such a job all jobs have succeeded |
| Gating.ServicesWaitForData | babel_api/src/rhai_plugin.rs:667-701 | no service on protocol data is launched before the data job and the post-download jobs succeeded |
| Stages.DataJobIff | babel_api/src/rhai_plugin.rs:666-699 | there is a data job exactly for services with stores of their own, or without a data stamp if an alternative download or a cold init is configured; it needs all of `init` and is restarted as that source says |
| Stages.PostDownloadIff | babel_api/src/rhai_plugin.rs:678-691 | post-download jobs are created exactly after a download, not after a cold init |
| Stages.DataWaitsForInit | babel_api/src/rhai_plugin.rs:664-697 | the data job is not launched before all of `init` has succeeded, and not at all where none is called for |
| Stages.ServicesWaitForInit | babel_api/src/rhai_plugin.rs:664-701 | nor is a service on protocol data, with or without a data job |
| Stages.PostsWaitForInit | babel_api/src/rhai_plugin.rs:678-691 | nor is a post-download job, which also waits for the data job |
| Stages.InitConfigs | babel_api/src/plugin_config.rs:352-372 | auxiliary services are always restarted and need nothing; jobs of `init` are restarted only if they say so |
| Stages.ServiceConfigs | babel_api/src/plugin_config.rs:462-492 | services are always restarted; those on protocol data need the last stage that has jobs, the others nothing |
| Stages.HasUploadIff | babel_api/src/rhai_plugin.rs:726-754 | there is an upload job exactly if a service on protocol data is archived in a store of its own |
| Stages.ExecutionKeepsBehind | babel_api/src/rhai_plugin.rs:570-655 | in any execution of stops and planned jobs, from any registry, a job that needs an earlier one of the plan is not launched before that has succeeded |
| Stages.UploadWaitsForPre | babel_api/src/rhai_plugin.rs:724-752 | the upload is not launched before all pre-upload jobs have succeeded |
| Stages.PostsWaitForUpload | babel_api/src/rhai_plugin.rs:752-757 | no post-upload job is launched before the upload has succeeded, or without one, before the pre-upload jobs have |
| Stages.UploadConfigs | babel_api/src/plugin_config.rs:352-592 | when all calls were made: the upload is restarted on failure, plain jobs only if they say so, services always, and these wait for the last stage |
| UploadExclusion.UploadPlanIsDistinct | babel_api/src/plugin_config.rs:56-127 | a valid configuration gives no name to two jobs of the upload plan |
| UploadExclusion.PassHoldsBack | babel/src/jobs_manager.rs:599-650 | a pass launches no service while the upload is not over: its guard neither starts nor fails before |
| UploadExclusion.GuardIsGuard | babel_api/src/rhai_plugin.rs:756-758 | every restarted service waits for a job that is not over before the upload is |
| UploadExclusion.UploadExcludesServices | babel_api/src/rhai_plugin.rs:715-760 | while the upload job is pending or running, no restarted service is launched, whether upload and post-upload jobs succeed or fail |
| UploadExclusion.LaterNeedIsNoGuard | babel/src/jobs_manager.rs:745-765 | a post-upload job that needs a later one of the upload's needs may be over while the upload still waits |
| UploadRace.ServiceRunsBesideUpload | babel_api/src/rhai_plugin.rs:715-760 | an execution of the calls of `default_upload` that launches a service while the upload is pending or running, for every plain configuration whose post-upload jobs start with a job that nobody creates |
| UploadRace.ExclusionIffGuard | babel_api/src/rhai_plugin.rs:715-760 | for plain configurations whose post-upload jobs first need the upload or a job the plan does not create: the exclusion holds in all executions if and only if one of them comes to the upload |
| RestartBackoff.Backoff.CheckTimeout | babel/src/utils.rs:108-117 | the counter is reset exactly after more than the window |
| RestartBackoff.Backoff.BackOff | babel/src/utils.rs:119-125 | sleeps by the counter, then counts |
| RestartBackoff.Backoff.Wait | babel/src/utils.rs:88-92 | without a limit: a reset or a sleep |
| RestartBackoff.Backoff.WaitWithLimit | babel/src/utils.rs:97-106 | exceeded only without a reset, and then without sleeping |
| RestartBackoff.JobBackoff.Stopped | babel/src/job_runner.rs:508-551 | whether the job goes on, and the sleep before it does, by the history of its attempts |
| RestartBackoff.TryRunJob | babel/src/job_runner.rs:422-441 | attempts go on until the job is over by its policy or is stopped, and no longer, and are separated by the sleeps stated |
| RestartBackoff.NeverIsTriedOnce | babel/src/job_runner.rs:476-482 | a job that is never restarted is tried once, unless stopped before |
| RestartBackoff.SuccessIsLast | babel/src/job_runner.rs:513-550 | a job that is restarted on failure is not tried again after a success, which is its result |
| RestartBackoff.NoLimitNoFailure | babel/src/job_runner.rs:535-540 | without a limit, a job that is always restarted never ends, and one restarted on failure ends only with a success, and does so at the first one |
| RestartBackoff.EndsWhenUsedUp | babel/src/job_runner.rs:526-534 | with `m` retries a job ends otherwise exactly with the first `m + 1` attempts in a row within the window |
| RestartBackoff.ExitCodesDoNotMatter | babel/src/job_runner.rs:513 | for a job that is always restarted only the durations of its attempts count |
| RestartBackoff.ShortAttemptsBounded | babel/src/utils.rs:97-106 | never more than `m + 1` short attempts in a row |
| RestartBackoff.ShortFailuresEndAfter | babel/src/job_runner.rs:508-551 | attempts that all fail within the window are exactly `m + 1` |
| RestartBackoff.LongAttemptResets | babel/src/utils.rs:108-117 | an attempt that outlasts the window resets the count without a sleep |
| RestartBackoff.SleptIsGeometric | bv_utils/src/lib.rs:11-13 | the sleeps since the last reset sum to `base * (2^k - 1)` |

## Left out

- HTTP, gRPC, presigned urls, timeouts and the retry macros: a request succeeds with some reply or fails.
- The internals of zstd and of the digests: a coder is a record of operations with a promise that its output, taken together, is a function of its input; decoding is assumed to undo encoding and to turn no bytes into no bytes; a digest is a function that is assumed not to collide on the stored objects.
- Durability under power loss and flushing: only process crashes are modelled, and a log line or status file is written whole or not at all.
- 64-bit overflow of sizes and of the backoff delay; sizes and delays are unbounded here. The cast of the automatic number of slots to 32 bits is modelled.
- Directory creation, absolute and relative paths, the sorting of sources, permissions and file times.
- `Downloader`, which treats every fetched chunk as recorded; the results on whole downloads are about `ClientDownloader`.
- `ClientUploader` and the wrappers for several clients: the same loops on one store each. The choice between a multi-client and a single-client job type is not visible in a job's dependencies.
- ChunkUpload.UploadChunk: an uncompressed body is streamed while it is sent; the model drains the reader and then sends, so it does not capture a server that accepts a request before the body was read to its end.
- UploadRun.Uploader.Run: an outcome of one upload is chosen when it finishes, so the order of requests of parallel uploads is not captured.
- The parts log of the parallel downloader and its I/O errors.
- JobsSafety.RunsKeepStatusFiles: assumes no I/O errors; config files that become unreadable, and are then removed on load, are not modelled. A process id is not reused by another job.
- JobsLiveness.NoDeadlock: is about repeated passes; the manager itself waits for a request after a pass that leaves no active job.
- UploadRace.ExclusionIffGuard: is stated for plans that fit into the registry, whose pre-upload jobs have no needs and whose post-upload jobs first need the upload or a job the plan does not create. Needs among the plan's own jobs can form any graph: whether such a job can end before the upload depends on which of them can fail first, and a cycle never ends at all, so there is no condition on the first needs alone.
- DownloadOutcome.OkIffNothingWentWrong: a run that fails while it gets its metadata or checks the disk space has no step in the model, and the file times set at the end are left out.
- Transfer.RoundTrip: the download starts without a log and a saved header; what the destination holds is arbitrary.
- Shell commands of init and upload actions: only whether they succeed.
- Job logs, restart counts, progress files, job timestamps, one-time jobs and the cleanup request.
- Scheduled tasks, templates, the script engine, and everything outside the two components.
