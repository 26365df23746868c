# Agent platform models

A Dafny model of the protocols and algorithms that decide whether the agent platform loses,
repeats or mixes up work, with proofs over every run, every interleaving and every input.

| file | what it models |
|---|---|
| `StackAlertMonitor.dfy`, `DurableTaskOwner.dfy` | a monitor that may stop between any two durable effects, delivering into an owner that accepts a request once; the owner's bounded progress log and a paging reader |
| `DockerJobStore.dfy`, `ProgressLog.dfy` | job handlers, uploads, one worker and progress writers under one lock; the bounded log tail and the polling client |
| `ComposeHandoff.dfy`, `CacheImport.dfy`, `ComposeCache.dfy` | the producer of a Compose cache handoff and the importer that verifies and publishes it on a disk that may stop after any write |
| `CanonicalJson.dfy`, `TextOrder.dfy`, `JsonGrammar.dfy`, `EscapeRoundTrip.dfy` | the canonical serializer behind artifact versions, sorting by key, its text against the grammar of RFC 8259, and its strings read back by the decoder of the voice edge |
| `SpokenExtractor.dfy`, `BoundedValue.dfy` | the streaming decoder of the spoken text, and the bounds on presentation values |
| `RemoteTask.dfy`, `PublicTranscript.dfy`, `SerialExecutor.dfy`, `OperationQueue.dfy`, `VoiceSession.dfy` | the voice agent: remote task client, browser transcript, the promise chain and the operation queue it refines, session replacement |
| `McpFraming.dfy`, `WindowSearch.dfy`, `ReviewQueue.dfy` | newline framing of the guest's byte stream, the loudest-window search, journal review queues |
| `Collections.dfy`, `Decimals.dfy` | shared vocabulary |

Each module states what a component does as functions over values, proves its properties over all
runs of those functions, and, where the original changes fields in place, has a class whose methods
are proved to do what the functions say. Hashes, parsers, clocks, UUIDs and Docker answers are
parameters. Where a promise does not hold of the code as it stands, the code is kept and the exact
condition under which it holds is proved:

- A state of an import is unsound if and only if the old index is still installed and a shared archive to
  which the new index gives another checksum has been replaced. So an import keeps the installed index
  sound when the new index agrees with it on the checksums of the archives they share, one that
  completes does so only then, and one that fails before its first such rename always does. A
  re-exported image keeps its archive name (a hash of reference and image ID) but may get different
  bytes; `ReexportDisagrees` is a disk where that has happened.
- A handoff passes the importer if and only if the job caches no service with the empty name.
- The extractor is independent of chunking if and only if its marker is at most 65 characters wide, and
  outputs the JSON string if and only if no surrogate pair is written as escapes.
- A `createJob` for a new Compose run sends under the lock the worker needs. Some schedule gets the store
  stuck for good before it has sent if and only if more than 64 jobs are queued, waiting to be sent or
  held by the worker when the request comes in; with at most 64 the lock can always be given back.
  `StuckIsReachable` is a run from the empty store.
- A journal correction writes to the position that is current when the gateway answers. It replaces
  exactly the item it was begun on if and only if that position is current again (or both items already
  are what it writes), and loses no decision if and only if, besides, no decision or other correction
  was written to that item during the await; keeping decisions, moves and corrections off the queue
  until the answer is enough for that. The review shows the correction if and only if, in addition, it
  was not rendered anew. Item IDs may repeat, so they do not tell.
- A tool's end looks for its call ID, cut to 128 characters. While its own entry is in the window and
  running, it settles exactly that entry if and only if the call ID is not empty and no tool entry that
  held the cut ID at the start is still in the window; once a reset, a replacement or 200 later entries
  have removed its entry, it settles another tool's or nothing. `SecondEndSettlesTheFirst` is a run.
- The answer that `send` returns is that of the connection its prompt went to if and only if no
  connection was made between the two responses; `TextFromAnotherTask` is a run.
- Log output is gap-free if and only if no poll finds more than 131072 new bytes.

`dafny verify dfyconfig.toml` checks the whole project.

## Model

| member | source | states |
|---|---|---|
| `StackAlertMonitors.EveryAlertRun` | products/voice-agent/tools/ops/stack_alert_monitor.py:188-237 | Over every sequence of polls, each stopped after any number of durable effects, with a clock that never goes back: the owner reports no conflict, an episode (key, first_seen) has at most one task, two tasks of one key are at least 1800 s apart, and the task of the current episode carries the input its row still holds |
| `StackAlertMonitors.PollKeepsInv` | products/voice-agent/tools/ops/stack_alert_monitor.py:188-237 | One poll, stopped anywhere, keeps the invariant between incident rows and owner entries; a poll that completes leaves every firing incident active, submitted and known to the owner |
| `StackAlertMonitors.PollDoes` | products/voice-agent/tools/ops/stack_alert_monitor.py:188-237 | What a completed poll does to every incident: a firing one ends active and submitted, with a new first_seen, the instruction rendered for its first alert and a task created now exactly when it is new or was inactive, submitted and at least 1800 s past its last submission, and otherwise with its episode and instruction kept; one that does not fire is inactive afterwards if the poll clears, and otherwise unchanged; the rules of exactly the incidents submitted now are returned |
| `StackAlertMonitors.PollCompletes` | products/voice-agent/tools/ops/stack_alert_monitor.py:188-237 | Three durable effects for each alert and one for clearing are enough for a poll to complete, as long as no rule UID holds a colon |
| `StackAlertMonitors.FiringAgainGetsATask` | products/voice-agent/tools/ops/stack_alert_monitor.py:214-235 | An incident that fires, is absent from a clearing poll and fires again at least 1800 s after the first poll has a second task, created then, besides the first |
| `StackAlertMonitors.SubmitKeepsInv` | products/voice-agent/tools/ops/stack_alert_monitor.py:225-226 | A submission for the row's episode is accepted, creates a task only if there is none yet, and keeps tasks of one key a cooldown apart |
| `StackAlertMonitors.SeenRowKeepsInv` | products/voice-agent/tools/ops/stack_alert_monitor.py:205-222 | Writing the row of a firing alert keeps the invariant: a new episode starts only a cooldown after the last submission, so its first_seen is new to the owner |
| `StackAlertMonitors.MarkKeepsInv` | products/voice-agent/tools/ops/stack_alert_monitor.py:227-230 | Marking a row submitted is right whenever the owner holds its request, however often it is repeated |
| `StackAlertMonitors.ClearKeepsInv` | products/voice-agent/tools/ops/stack_alert_monitor.py:232-235 | Deactivating incidents that no longer fire (which `PollDoes` states) keeps every episode's submission record |
| `StackAlertMonitors.ComputeIncidentKey` | products/voice-agent/tools/ops/stack_alert_monitor.py:104-121 | The statements produce a key exactly for an opted-in, firing alert that some rule is for, and then that rule's UID, a colon and the alert's fingerprint |
| `StackAlertMonitors.FindRule` | products/voice-agent/tools/ops/stack_alert_monitor.py:110-115 | The UID found is the rule the alert names if it is configured, else the one rule whose title is the alert's name, and none is found when no or several rules have that title |
| `StackAlertMonitors.MatchTitles` | products/voice-agent/tools/ops/stack_alert_monitor.py:112 | Whatever the order of the rules, the loop collects exactly the UIDs with the title, once each |
| `StackAlertMonitors.RuleIsUnique` | products/voice-agent/tools/ops/stack_alert_monitor.py:109-115 | At most one rule can be the rule of an alert, and it is a configured one |
| `StackAlertMonitors.BeforeColonOfKey` | products/voice-agent/tools/ops/stack_alert_monitor.py:121 | The text before the first colon of a key is the rule UID exactly when the UID holds no colon |
| `StackAlertMonitors.KeyNamesItsRule` | products/voice-agent/tools/ops/stack_alert_monitor.py:202-212 | As long as no rule UID holds a colon, the text before the first colon of any key names a configured rule, so rendering an instruction for it cannot fail |
| `StackAlertMonitors.RequestIdInjective` | products/voice-agent/tools/ops/stack_alert_monitor.py:225 | Two episodes share a request ID only if they are the same episode, although key and time are joined by a colon that keys may contain |
| `StackAlertMonitors.StackAlertMonitor.ProcessKey` | products/voice-agent/tools/ops/stack_alert_monitor.py:202-231 | The row, submit and mark steps in place, stopping when the effects run out, end in the state the poll function gives |
| `StackAlertMonitors.StackAlertMonitor.ProcessAlerts` | products/voice-agent/tools/ops/stack_alert_monitor.py:188-237 | The alert loop over the stored rows and the owner object ends in the state, and returns the rule UIDs, of the poll function whose runs are proved safe and whose effect `PollDoes` states |
| `DurableTaskOwners.FirstSubmissionWins` | platform/agent-execution/pi-durable-task/owner.ts:214-231 | Over any history of submissions a valid request ID owns exactly one task, the one its first submission created, and a later submission is accepted if and only if it repeats that input |
| `DurableTaskOwners.RequestsAreValid` | platform/agent-execution/pi-durable-task/owner.ts:214-231 | Over any history the requests stored are exactly the valid request IDs that were submitted |
| `DurableTaskOwners.SubmittedKeepsWellFormed` | platform/agent-execution/pi-durable-task/owner.ts:214-231 | Requests and tasks stay in bijection and a task keeps the input its request was accepted with |
| `DurableTaskOwners.EntriesPersist` | platform/agent-execution/pi-durable-task/owner.ts:214-231 | No later submission changes or removes an accepted request or its task |
| `DurableTaskOwners.DurableTaskOwner.Submit` | platform/agent-execution/pi-durable-task/owner.ts:214-231 | A submission is refused as invalid exactly for an invalid request ID and as a conflict exactly for a known one with another input, and then changes nothing; a new request is stored with one new task |
| `DurableTaskOwners.DurableTaskOwner.CommitProgress` | platform/agent-execution/pi-durable-task/owner.ts:108-121 | A progress commit changes one entry's progress, appends one capped event, and fails exactly when the request is missing |
| `DurableTaskOwners.DurableTaskOwner.Progress` | platform/agent-execution/pi-durable-task/owner.ts:263-267 | The filtering loop returns the first `limit` events above the cursor, nothing for an unknown request |
| `DurableTaskOwners.EveryPagingRun` | platform/agent-execution/pi-durable-task/owner.ts:108-121 | Interleaving commits and page reads in any way: what was committed is numbered consecutively with at most the last 2000 kept, the reader's IDs strictly increase and its events are unaltered, it lacks only events the cap had dropped, and it has everything exactly when no page jumped |
| `DurableTaskOwners.PageFromTail` | platform/agent-execution/pi-durable-task/owner.ts:263-267 | A page is a gap-free run of the full numbered history, as long as the limit or what there is, starting after the cursor or after what the cap dropped |
| `ProgressLogs.EveryProgressRun` | platform/agent-execution/gondolin-session/image-builder/image_build_api.go:318-329 | For any interleaving of log writes, polls and failed polls: printed text lies in what was written, in order and without repeats, printed plus reported-truncated bytes equal the last offset seen, a poll reaches the end of the log, and the print is gap-free if and only if no poll found more than 131072 new bytes |
| `ProgressLogs.SnapshotAdvances` | platform/agent-execution/gondolin-session/image-builder/image_build_api.go:318-329 | One snapshot moves the client exactly to the end of the stream and reports exactly the bytes the tail no longer holds |
| `ProgressLogs.CoverageAccounts` | platform/agent-execution/gondolin-session/image-builder/image_build_api.go:318-329 | Output that walks from one offset to another accounts for every byte between them, and is the stream itself when nothing was truncated |
| `ProgressLogs.PrintNewProgress` | platform/agent-execution/gondolin-session/image-builder/image_build_api.go:318-329 | A stale or malformed snapshot prints nothing; any other prints what it holds beyond the offset seen, reports exactly what it no longer holds, and moves to its offset |
| `ProgressLogs.JobProgressWriter.Write` | platform/agent-execution/gondolin-session/image-builder/docker_job_api.go:112-128 | After every write the writer and the job show the last 131072 bytes of everything ever written, and its full length as the offset |
| `ProgressLogs.PollImageBuildJob` | platform/agent-execution/gondolin-session/image-builder/image_build_api.go:283-316 | The loop ends at the first answer within 1440 attempts that is the twelfth unreadable one in a row or a job that is not pending: with the result for a succeeded job that has one, and with the matching error for a succeeded job without, a failed job, an unknown status or unreadable answers; it times out only when there is none |
| `ProgressLogs.AttemptPrints` | platform/agent-execution/gondolin-session/image-builder/image_build_api.go:286-301 | Each attempt prints after all that was printed before: new progress, or, exactly at the first unreadable answer in a row, that the client retries |
| `ProgressLogs.GivingUpTakesTwelve` | platform/agent-execution/gondolin-session/image-builder/image_build_api.go:288-295 | The status is given up if and only if this and the eleven answers before it were all unreadable |
| `ProgressLogs.PollingPrintsTheLog` | platform/agent-execution/gondolin-session/image-builder/image_build_api.go:283-316 | Whatever answers fail in between, the loop's whole output walks through the growing log, and reaches its end after every readable answer |
| `DockerJobStores.EveryStoreRun` | platform/agent-execution/gondolin-session/image-builder/docker_job_api.go:315-456 | In every reachable store and from it to every later one: run IDs and jobs are one-to-one, a job enters the queue at most once, an image build that is queued or being built has the context its manifest declares, requests never change, status only moves forward, terminal jobs are final despite progress writes |
| `DockerJobStores.StepKeepsInv` | platform/agent-execution/gondolin-session/image-builder/docker_job_api.go:315-456 | Each locked region, channel operation, upload step and worker step keeps the store invariant |
| `DockerJobStores.StepKeepsBuildsReady` | platform/agent-execution/gondolin-session/image-builder/docker_job_api.go:943-955 | Committing an upload, cleaning up and all other steps keep a ready context for every job that builds or will build |
| `DockerJobStores.StepKeepsChannel` | platform/agent-execution/gondolin-session/image-builder/docker_job_api.go:330-353 | Where a job is (being sent, queued, held by the worker, done) and what its status says stay in agreement, and no job is sent twice |
| `DockerJobStores.StepMovesForward` | platform/agent-execution/gondolin-session/image-builder/docker_job_api.go:425-456 | No step changes a request or moves a status backwards, and none touches a finished job's outcome |
| `DockerJobStores.OutcomeIsTheBuilds` | platform/agent-execution/gondolin-session/image-builder/docker_job_api.go:425-456 | In every run a job is recorded as succeeded exactly when the worker has ended its build without error and put it down, and as failed exactly when the build ended in an error |
| `DockerJobStores.ImageBuildEnds` | platform/agent-execution/gondolin-session/image-builder/docker_job_api.go:315-456 | From the empty store: an image build whose declared context arrives in two pieces is queued, built and recorded as succeeded or failed as the build ended, with no upload, staging file or context left behind |
| `DockerJobStores.StepTouches` | platform/agent-execution/gondolin-session/image-builder/docker_job_api.go:120-456 | A new run is stored as it was requested; after that only progress writers change a job's progress, only the first commit its context, and only that commit and the worker holding the job its status |
| `DockerJobStores.InstalledIsReceived` | platform/agent-execution/gondolin-session/image-builder/docker_job_api.go:899-942 | In every run an upload that opens its staging file, receives data in any number of pieces between other steps and is installed has put exactly those pieces on disk, of the length and digest the manifest declares |
| `DockerJobStores.InvariantMeans` | platform/agent-execution/gondolin-session/image-builder/docker_job_api.go:425-431 | A job is running exactly while the worker builds it, and a queued or building image build has on disk a context of the length and digest that its manifest declares and its job records |
| `DockerJobStores.CreatingCanStickIff` | platform/agent-execution/gondolin-session/image-builder/docker_job_api.go:330-353 | Before the call: some schedule gets a new Compose creation stuck before it has sent, if and only if more than 64 jobs are queued, waiting to be sent (from any handler) or held by the worker when the request comes in |
| `DockerJobStores.LockComesBackIff` | platform/agent-execution/gondolin-session/image-builder/docker_job_api.go:330-353 | Whatever happens while the creator holds the lock, it can still be given back, if and only if at most 64 jobs are queued, waiting or held when the request comes in |
| `DockerJobStores.StuckIsReachable` | platform/agent-execution/gondolin-session/image-builder/docker_job_api.go:384-395 | From the empty store a run of compatibility requests and one creation gets the store stuck |
| `DockerJobStores.LockReleasableUnlessStuck` | platform/agent-execution/gondolin-session/image-builder/docker_job_api.go:351-353 | From any one reachable store some schedule releases the lock if and only if it is not the case that a creator sends on a full queue while the worker is busy |
| `DockerJobStores.StuckForGood` | platform/agent-execution/gondolin-session/image-builder/docker_job_api.go:351-353 | Once that case arises no schedule whatever changes any job again |
| `DockerJobStores.Handler.CreateJob` | platform/agent-execution/gondolin-session/image-builder/docker_job_api.go:326-355 | A known run is answered with its job or with a conflict exactly when the request differs; a new run is stored once, as requested and in the right first status, and its sender keeps the lock exactly for a Compose job with an engine |
| `DockerJobStores.Handler.PrepareCompat` | platform/agent-execution/gondolin-session/image-builder/docker_job_api.go:384-395 | A known run answers with its status whatever the new request says; a new one is stored and sent after the lock is released |
| `DockerJobStores.Handler.InstallContext` | platform/agent-execution/gondolin-session/image-builder/docker_job_api.go:925-942 | A staged upload is installed if and only if its length and digest match the manifest, and is discarded otherwise |
| `DockerJobStores.Handler.CommitUpload` | platform/agent-execution/gondolin-session/image-builder/docker_job_api.go:943-955 | Only the first upload to get here queues the job |
| `DockerJobStores.Handler.TakeAndStart` | platform/agent-execution/gondolin-session/image-builder/docker_job_api.go:426-431 | The worker takes the head of the queue and marks that job running, and no other job changes |
| `DockerJobStores.Handler.FinishJob` | platform/agent-execution/gondolin-session/image-builder/docker_job_api.go:440-454 | The worker drops the context and records succeeded for a build without error and failed otherwise, on the stored job with its request, context and progress as they are |
| `DockerJobStores.Handler.WriteJobProgress` | platform/agent-execution/gondolin-session/image-builder/docker_job_api.go:120-126 | A progress write touches no field of the stored job but its progress |
| `CacheImports.Disk.ImportComposeCache` | platform/agent-execution/gondolin-session/image-builder/compose_cache_import.go:30-134 | In every durable state of an import that may fail at any operation, no handoff archive is gone before the shared store holds a copy the new index verifies; a state is sound if and only if no archive to which the installed and the new index give different checksums has been replaced under the installed one, so every state is sound when they agree, and for an import that completes only then; a new index is installed after its override, a new cache ID after its index, and handoff archives go only after both; a handoff that fails the checks changes nothing, and one that passes them is imported, unless a file operation fails of itself, exactly when all its archives are intact, and then removed from the handoff |
| `CacheImports.Disk.ImportEach` | platform/agent-execution/gondolin-session/image-builder/compose_cache_import.go:30-134 | Over any number of handoffs, each import stopped anywhere, the installed index names only archives in the shared store with their listed checksums, in every state of the whole history |
| `CacheImports.SoundUnlessOverwritten` | platform/agent-execution/gondolin-session/image-builder/compose_cache_import.go:93-131 | Wherever an import stops, a state after a sound start is unsound if and only if the old index is still installed and the shared archive of some disagreeing entry has been replaced |
| `CacheImports.SafeIsSound` | platform/agent-execution/gondolin-session/image-builder/compose_cache_import.go:93-131 | A state between start and end of an import is sound when the start was and both indexes agree |
| `CacheImports.DisagreementIsUnsound` | platform/agent-execution/gondolin-session/image-builder/compose_cache_import.go:109-112 | Once all archives are in place under an old index that gives one of them another checksum, the old index is broken |
| `CacheImports.ReexportDisagrees` | platform/agent-execution/gondolin-session/image-builder/compose_cache_import.go:93-131 | There is a disk whose installed index is sound and whose handoff passes every check, archives included, although the two indexes disagree |
| `CacheImports.CollectArchives` | platform/agent-execution/gondolin-session/image-builder/compose_cache_import.go:79-89 | In whatever order the services are visited, the entry and conflict checks accept exactly the indexes whose entries are well formed and give each archive one checksum, and list exactly the archives named |
| `ComposeCaches.EntryMeans` | platform/agent-execution/gondolin-session/image-builder/compose_cache_import.go:18-83 | An index entry is well formed exactly when it names a service, an archive and a tag made of the same 24 lower-case hexadecimal digits, and a checksum of 64 |
| `CacheImports.Disk.CopyArchive` | platform/agent-execution/gondolin-session/image-builder/compose_cache_import.go:94-112 | Copying one archive verifies the source, keeps everything verified before, and on success leaves a verified shared archive; no durable state on the way is unsafe |
| `CacheImports.Disk.InstallCopy` | platform/agent-execution/gondolin-session/image-builder/compose_cache_import.go:105-112 | A copy is renamed over the shared archive only after it verified, and otherwise removed |
| `CacheImports.Disk.CopyArchives` | platform/agent-execution/gondolin-session/image-builder/compose_cache_import.go:93-113 | The copy loop, in any order, ends with every archive of the index verified in the shared store |
| `CacheImports.Disk.WriteNew` | platform/agent-execution/gondolin-session/image-builder/compose_cache_import.go:177-198 | Exclusive creation and piecewise writing, failing anywhere, touches the temporary file only |
| `CacheImports.Disk.WriteAtomic` | platform/agent-execution/gondolin-session/image-builder/compose_cache_import.go:208-229 | A published file changes from old to new content in one step and no other published file changes |
| `CacheImports.Disk.PruneLocalArchives` | platform/agent-execution/gondolin-session/image-builder/compose_cache_import.go:230-243 | A completed prune leaves no archive beside the index and touches no published file and no other file there |
| `CacheImports.LocalArchiveMeans` | platform/agent-execution/gondolin-session/image-builder/compose_cache_import.go:235 | The archives pruned are those named by 24 hexadecimal digits, .tar and perhaps .zst |
| `CacheImports.Disk.DeleteHandoffArchives` | platform/agent-execution/gondolin-session/image-builder/compose_cache_import.go:129-131 | Deleting handoff archives once index and cache ID are published keeps every state safe, whichever deletions fail; if none fails all are gone |
| `CacheImports.StoringIsSafe` | platform/agent-execution/gondolin-session/image-builder/compose_cache_import.go:105-112 | Renaming a verified partial file over a shared archive keeps the state safe |
| `CacheImports.PublishingIsSafe` | platform/agent-execution/gondolin-session/image-builder/compose_cache_import.go:117-125 | Publishing override, index and cache ID in that order is safe, with every archive the index names already verified |
| `ComposeHandoffs.DeliveredHandoffImports` | platform/agent-execution/gondolin-session/image-builder/docker_job_api.go:593-607 | End to end: the importer's checks accept a delivered handoff if and only if the job caches no service with the empty name, and every archive its index names then verifies |
| `ComposeHandoffs.CompletedIsAdmissible` | platform/agent-execution/gondolin-session/image-builder/compose_cache_import.go:71-89 | A completed index passes the name, tag, digest and conflict checks exactly when the job has no service with the empty name or skips it |
| `ComposeHandoffs.UnnamedIsRefused` | platform/agent-execution/gondolin-session/image-builder/compose_cache_import.go:71-78 | There is a job whose services all resolve and whose completed handoff the importer refuses, because it caches a service with the empty name |
| `ComposeHandoffs.CacheIdNamesTheImages` | platform/agent-execution/gondolin-session/image-builder/docker_job_api.go:523-542 | Handoffs for the same set of images get the same cache ID, whatever the service names, the number of services per image and the iteration orders; different sets get different IDs unless the digests of their rows collide |
| `ComposeHandoffs.ServicesShareArchivesIff` | platform/agent-execution/gondolin-session/image-builder/docker_job_api.go:505-526 | Unless two images share a tag, two services share an archive exactly when they have the same reference and the same image ID |
| `ComposeHandoffs.ImagesMean` | platform/agent-execution/gondolin-session/image-builder/docker_job_api.go:483-518 | A service is handed off exactly when it has an image reference and an image it stands for: if built, the non-empty ID of its build, found on the host; else what its reference names there, pulled only when missing; archive and tag are made of 24 digits of the hash of reference, newline and that ID |
| `ComposeHandoffs.UnresolvableMeans` | platform/agent-execution/gondolin-session/image-builder/docker_job_api.go:483-521 | Resolution fails exactly when a service that is not left out stands for no image, or all services are left out |
| `ComposeHandoffs.TagsDistinguishIff` | platform/agent-execution/gondolin-session/image-builder/docker_job_api.go:516-518 | With no newline in a reference, tags tell the images in use apart exactly when the hashes of no two different reference and image ID pairs in use begin with the same 24 digits |
| `ComposeHandoffs.ArchivesAreOwnExports` | platform/agent-execution/gondolin-session/image-builder/docker_job_api.go:559-598 | Unless two images share a tag, the archive a service is given is the export of its own image |
| `ComposeHandoffs.RowsDetermined` | platform/agent-execution/gondolin-session/image-builder/docker_job_api.go:523-538 | The sorted rows are the same exactly for the same set of distinct images |
| `ComposeHandoffs.ResolveServices` | platform/agent-execution/gondolin-session/image-builder/docker_job_api.go:483-522 | In any order of services, resolution fails exactly when a service that is not skipped cannot be resolved or nothing is left, and otherwise gives the image of each service that is not skipped |
| `ComposeHandoffs.UniqueByTag` | platform/agent-execution/gondolin-session/image-builder/docker_job_api.go:523-526 | One image is kept for each tag in use, and it is one of the images in use |
| `ComposeHandoffs.SortedRows` | platform/agent-execution/gondolin-session/image-builder/docker_job_api.go:527-531 | The rows are the entries of the map, once each, in tag order, from any iteration order |
| `ComposeHandoffs.ExportImages` | platform/agent-execution/gondolin-session/image-builder/docker_job_api.go:559-592 | The export loop succeeds only with every image's own validated export on disk, and fails only when some image has none |
| `ComposeHandoffs.ExportMeans` | platform/agent-execution/gondolin-session/image-builder/docker_job_api.go:559-583 | An export is valid, is the engine's whenever that one is valid, and Buildx's only when the engine's is incomplete; there is none only when tagging or the engine fails or both archives are invalid |
| `ComposeHandoffs.PrepareComposeCache` | platform/agent-execution/gondolin-session/image-builder/docker_job_api.go:464-614 | A handoff is produced with an index, an override and a valid archive for exactly the services that were resolved, and none is produced only when a service cannot be resolved, nothing is left, or some image can be exported neither by the engine nor by Buildx |
| `TextOrder.SortedUnique` | platform/agent-execution/gondolin-session/image-builder/docker_job_api.go:531 | Entries with distinct keys can be sorted in one way only |
| `TextOrder.LeIsLexical` | platform/agent-execution/gondolin-session/image-builder/image_build_api.go:49 | Keys are in dictionary order: a beginning comes first, otherwise the first difference decides |
| `CanonicalJson.CanonicalIffSameMeaning` | platform/agent-execution/gondolin-session/image-builder/image_build_api.go:42-79 | Two decoded values get the same text if and only if they are equal as values, with objects as finite maps: the serializer is injective and independent of map iteration order |
| `JsonGrammar.CanonicalIsJson` | platform/agent-execution/gondolin-session/image-builder/image_build_api.go:42-79 | The serializer's text is, by the grammar in sections 2 to 7 of RFC 8259, a JSON text of the same value with the members of every object in ascending order of key |
| `JsonGrammar.EscapesOnlyWhatItMust` | platform/agent-execution/gondolin-session/image-builder/image_build_api.go:50-79 | A character is escaped exactly when it is a control character, quote, backslash or line separator, or for HTML an angle bracket or ampersand: by its letter if there is one, otherwise by four lower-case digits |
| `JsonGrammar.OnlyKeysAreEscapedForHtml` | platform/agent-execution/gondolin-session/image-builder/image_build_api.go:52-75 | Keys are escaped for HTML and string values are not |
| `EscapeRoundTrip.QuotedTextReadsBack` | platform/agent-execution/gondolin-session/image-builder/image_build_api.go:50-79 | An independent reader of JSON strings reads back from a quoted key or value exactly the string that was written, with and without HTML escaping |
| `CanonicalJson.PrintUnique` | platform/agent-execution/gondolin-session/image-builder/image_build_api.go:42-79 | Printed text can be read back: a printed value followed by anything that can follow it determines the value and the rest |
| `CanonicalJson.CanonicalPrintsNormal` | platform/agent-execution/gondolin-session/image-builder/image_build_api.go:44-60 | The serializer prints the value with every object's members sorted by key |
| `CanonicalJson.NormalMeansTheSame` | platform/agent-execution/gondolin-session/image-builder/image_build_api.go:44-60 | Sorting members changes no value and leaves them sorted at every depth |
| `CanonicalJson.NormalDetermined` | platform/agent-execution/gondolin-session/image-builder/image_build_api.go:44-60 | A value determines its sorted form |
| `CanonicalJson.QuoteUnique` | platform/agent-execution/gondolin-session/image-builder/image_build_api.go:50-56 | A quoted string can be told from what follows it, with and without HTML escaping |
| `SpokenExtractors.ExtractsTheString` | products/voice-agent/apps/edge/presentation_response.py:72-111 | For any legal mix of escapes under section 7 of RFC 8259 and any chunking, the output is the spelled code units and nothing after the closing quote; it is the JSON string if and only if no surrogate pair is written as escapes |
| `SpokenExtractors.MatchMeans` | products/voice-agent/apps/edge/presentation_response.py:76 | A match is exactly what the pattern says: the quoted key, white space, a colon, white space and a quote |
| `SpokenExtractors.SpacesAre` | products/voice-agent/apps/edge/presentation_response.py:76 | White space in the pattern is exactly the 29 characters that Python counts as such |
| `SpokenExtractors.SplitDoesNotMatter` | products/voice-agent/apps/edge/presentation_response.py:72-111 | Any split of a text whose leftmost marker is at most 65 characters wide gives the output of the whole text |
| `SpokenExtractors.SplitsAgreeIffNarrow` | products/voice-agent/apps/edge/presentation_response.py:76-83 | All splits of all continuations agree with the whole text if and only if the leftmost marker is at most 65 characters wide |
| `SpokenExtractors.WideMarkerIsLost` | products/voice-agent/apps/edge/presentation_response.py:76-80 | A wider marker is lost when its last character comes in a later chunk |
| `SpokenExtractors.SixtySpacesLoseTheString` | products/voice-agent/apps/edge/presentation_response.py:76-83 | With sixty spaces before the colon and a cut before the opening quote nothing is extracted, although the whole text gives the string |
| `SpokenExtractors.MeaningIsEachUnlessPaired` | products/voice-agent/apps/edge/presentation_response.py:87-96 | Decoding escape by escape gives the JSON string exactly when no high and low surrogate escapes stand together |
| `SpokenExtractors.SearchingStep` | products/voice-agent/apps/edge/presentation_response.py:75-83 | The kept 64 characters and the next chunk find what the whole text so far would find |
| `SpokenExtractors.StreamingSpokenExtractor.Feed` | products/voice-agent/apps/edge/presentation_response.py:72-111 | Feeding a chunk to the object changes its fields and returns text as the stream function says, whose splits are proved irrelevant |
| `SpokenExtractors.StreamingSpokenExtractor.DecodeChunk` | products/voice-agent/apps/edge/presentation_response.py:85-111 | The character loop decodes like the one-character function and stops at the closing quote |
| `BoundedValues.BoundingProjects` | products/voice-agent/apps/edge/presentation_response.py:336-360 | Bounding leaves a value alone if and only if it is within the depth, string, number, list and object limits, and a second pass changes nothing |
| `BoundedValues.BoundingKeeps` | products/voice-agent/apps/edge/presentation_response.py:336-360 | What a value becomes, level by level: dropped exactly when nested too deeply or of no kind shown; else a text its first 240 characters, a number the closest within 10000 of zero, a list the kept ones of its first 128 items in order, an object under each shortened key the last of its first 32 members that is kept there |
| `BoundedValues.PutPlaces` | products/voice-agent/apps/edge/presentation_response.py:357-358 | A member put under a known key takes that member's place, any other goes to the end |
| `BoundedValues.BoundedStaysWithin` | products/voice-agent/apps/edge/presentation_response.py:336-360 | Whatever is kept is within every limit, also when shortened keys collide |
| `RemoteTasks.EverySessionRun` | products/voice-agent/apps/pi-agent/voice-agent/remote-task-session.ts:73-261 | In every run of socket events, reconnections, operations, timeouts and failures: a prompt is sent only after the task's state has come, only an accepted prompt is waited for, and only a response with a text ends an operation well; the answer is fetched only after a settled record numbered above the record that answered the prompt; that settled record, and likewise the record that carries the answer, came on the prompt's own connection if and only if no connection was made between the two; no operation waits for a settled record that has already arrived, no request is pending without a socket, and a failure or detach leaves nothing waiting |
| `RemoteTasks.TextFromAnotherTask` | products/voice-agent/apps/pi-agent/voice-agent/remote-task-session.ts:94-113 | A run from the start: a connection made between the settled record and the resumed operation, whose answer then comes from the new connection's task |
| `RemoteTasks.ChunksJoin` | products/voice-agent/apps/pi-agent/voice-agent/remote-task-session.ts:217-238 | However a text is cut into two chunks, the session is the same, as long as what is buffered stays within the limit; a connection that fails on the way differs at most in what is left in its buffer |
| `RemoteTasks.LineMeans` | products/voice-agent/apps/pi-agent/voice-agent/remote-task-session.ts:224-250 | A line, ended by a newline with or without a carriage return, is accepted as a record when it is a JSON object, ignored when it is empty or another value, and ends the connection when it is not JSON |
| `RemoteTasks.OversizeEnds` | products/voice-agent/apps/pi-agent/voice-agent/remote-task-session.ts:220-223 | A connection that lets more be buffered than 1000000 bytes is ended, and nothing waits for it any more |
| `RemoteTasks.SameConnectionIff` | products/voice-agent/apps/pi-agent/voice-agent/remote-task-session.ts:239-242 | The record number and the last settled record outlive a connection: two records came on one connection exactly when none was made between them |
| `RemoteTasks.StaleSocketsChangeNothing` | products/voice-agent/apps/pi-agent/voice-agent/remote-task-session.ts:217-218 | Dropping all events of a replaced or dropped socket from any run gives the same final state |
| `RemoteTasks.StepKeepsInv` | products/voice-agent/apps/pi-agent/voice-agent/remote-task-session.ts:134-261 | Every event keeps pending requests and awaiting operations in one-to-one correspondence and every phase true to the record log |
| `RemoteTasks.RecordKeepsInv` | products/voice-agent/apps/pi-agent/voice-agent/remote-task-session.ts:239-250 | Numbering a record, remembering a settled one, resolving its request and notifying listeners keeps the invariant |
| `RemoteTasks.DroppingKeepsInv` | products/voice-agent/apps/pi-agent/voice-agent/remote-task-session.ts:254-270 | After a failure no request is pending and no operation waits for a response or a settled record |
| `RemoteTasks.AwaitingKeepsInv` | products/voice-agent/apps/pi-agent/voice-agent/remote-task-session.ts:202-215 | A waiter that registers after the await misses no settled record that came in between |
| `RemoteTasks.RemoteTaskSession.Consume` | products/voice-agent/apps/pi-agent/voice-agent/remote-task-session.ts:217-252 | Appending a chunk and taking complete lines off the buffer has the effect of the line function, size limit and invalid JSON included |
| `RemoteTasks.RemoteTaskSession.Accept` | products/voice-agent/apps/pi-agent/voice-agent/remote-task-session.ts:239-250 | One record changes sequence, lastSettled, pending and the operations as the record function says |
| `RemoteTasks.RemoteTaskSession.Fail` | products/voice-agent/apps/pi-agent/voice-agent/remote-task-session.ts:254-261 | Failing the current socket leaves nothing waiting, failing any other changes nothing |
| `RemoteTasks.RemoteTaskSession.Detach` | products/voice-agent/apps/pi-agent/voice-agent/remote-task-session.ts:123-132 | Detaching clears socket and buffer and leaves nothing waiting |
| `RemoteTasks.RemoteTaskSession.Connect` | products/voice-agent/apps/pi-agent/voice-agent/remote-task-session.ts:40-49 | A new socket takes over with the record count and the last settled record kept |
| `RemoteTasks.RemoteTaskSession.WaitForAfter` | products/voice-agent/apps/pi-agent/voice-agent/remote-task-session.ts:202-215 | The operation goes on waiting exactly when no settled record numbered above its prompt's response has arrived |
| `RemoteTasks.RemoteTaskSession.Resume` | products/voice-agent/apps/pi-agent/voice-agent/remote-task-session.ts:94-113 | An operation's continuation after each await moves it as the phase function says |
| `RemoteTasks.RemoteTaskSession.Request` | products/voice-agent/apps/pi-agent/voice-agent/remote-task-session.ts:134-168 | A request registers its operation under a new ID, or fails it when no socket is attached |
| `PublicTranscripts.EveryTranscript` | products/voice-agent/apps/pi-agent/voice-agent/public-transcript.ts:38-88 | From the empty transcript on, the window is exactly the end of the unbounded history after the evicted entries, each text cut to its first 24000 characters, when every event suits (generated IDs for user and assistant entries, new IDs for tools) |
| `PublicTranscripts.EventShows` | products/voice-agent/apps/pi-agent/voice-agent/public-transcript.ts:38-88 | Each event keeps the window equal to the end of the history as long as IDs are unique per role |
| `PublicTranscripts.AppendMeans` | products/voice-agent/apps/pi-agent/voice-agent/public-transcript.ts:38-50 | An entry comes last with its text cut to 24000 characters, the oldest of 200 goes, and no other moves or changes |
| `PublicTranscripts.UpdatesMean` | products/voice-agent/apps/pi-agent/voice-agent/public-transcript.ts:63-87 | A delta extends the text of the first assistant entry with the ID if it is running, cut to 24000 characters; an end of text removes that entry when its text is blank and completes it otherwise; an end of tool completes or fails the first tool entry with the ID; nothing else changes |
| `PublicTranscripts.NothingToUpdate` | products/voice-agent/apps/pi-agent/voice-agent/public-transcript.ts:63-67 | A delta or an end for an ID that no entry of the role has changes nothing, the revision included |
| `PublicTranscripts.SuitedStaysUnique` | products/voice-agent/apps/pi-agent/voice-agent/public-transcript.ts:98-112 | Suiting events keep IDs unique per role: generated decimal IDs never repeat |
| `PublicTranscripts.ToolFinishPartsIff` | products/voice-agent/apps/pi-agent/voice-agent/public-transcript.ts:63-87 | With any IDs, repeated ones included: when a tool finishes, window and history part if and only if the first holder of its ID is evicted while a later holder in the window has another status than the tool's end gives |
| `PublicTranscripts.ToolEndsItsOwnIff` | products/voice-agent/apps/pi-agent/voice-agent/public-transcript.ts:45-87 | A tool is started in any transcript, and any events follow: while its own entry is in the window and running, the end settles exactly it if and only if the call ID is not empty and no tool entry that held the cut ID when it started is still in the window; once the entry is gone (reset, replacement, eviction) the end changes nothing exactly when no tool entry holds the cut ID, and otherwise settles another tool's entry |
| `PublicTranscripts.ToolEndsItsOwnEntry` | products/voice-agent/apps/pi-agent/voice-agent/public-transcript.ts:130-140 | What a caller can see to: started under an ID no tool entry holds, with fewer than 200 later entries, nothing cleared and no other end under the ID, the own entry is there, running and first, and its end settles it alone exactly when the call ID is not empty, also when the ID is started again in between |
| `PublicTranscripts.SecondEndSettlesTheFirst` | products/voice-agent/apps/pi-agent/voice-agent/public-transcript.ts:102-140 | From the empty transcript: of two tools started under call IDs with the same first 128 characters, the end of the second completes the first and leaves its own running |
| `PublicTranscripts.RevisionsNameEntries` | products/voice-agent/apps/pi-agent/voice-agent/public-transcript.ts:38-88 | Along a run the revision never decreases, and two states with equal revisions are equal |
| `PublicTranscripts.DeltasAccumulate` | products/voice-agent/apps/pi-agent/voice-agent/public-transcript.ts:68-75 | However a text is cut into deltas, a running assistant entry ends with the first 24000 characters of their concatenation and nothing else changes |
| `PublicTranscripts.FoundInWindow` | products/voice-agent/apps/pi-agent/voice-agent/public-transcript.ts:63-66 | With unique IDs the bounded search finds the entry the unbounded one finds, unless it is evicted |
| `PublicTranscripts.SafeToolName` | products/voice-agent/apps/pi-agent/voice-agent/public-transcript.ts:90-92 | A tool name is never empty, has at most 80 characters and only safe ones |
| `PublicTranscripts.ToolCharsFilter` | products/voice-agent/apps/pi-agent/voice-agent/public-transcript.ts:90-92 | Of a tool name exactly the letters, digits, underscores, points, colons and hyphens are kept, in order |
| `PublicTranscripts.SafeNamesStay` | products/voice-agent/apps/pi-agent/voice-agent/public-transcript.ts:90-92 | A name that is already safe and short is kept as it is |
| `PublicTranscripts.PublicTranscript.Append` | products/voice-agent/apps/pi-agent/voice-agent/public-transcript.ts:98-112 | The ID returned is the requested one cut to 128 characters or the next decimal, and the state moves as the reducer says for that ID |
| `PublicTranscripts.PublicTranscript.AddUser` | products/voice-agent/apps/pi-agent/voice-agent/public-transcript.ts:114-116 | A user entry always suits, whatever the history |
| `PublicTranscripts.PublicTranscript.BeginAssistant` | products/voice-agent/apps/pi-agent/voice-agent/public-transcript.ts:118-120 | An assistant entry always suits, and its ID is returned |
| `PublicTranscripts.PublicTranscript.AppendAssistantText` | products/voice-agent/apps/pi-agent/voice-agent/public-transcript.ts:122-124 | A delta is reduced in place; no other entry, no count and no ID changes |
| `PublicTranscripts.PublicTranscript.FinishAssistant` | products/voice-agent/apps/pi-agent/voice-agent/public-transcript.ts:126-128 | Finishing is reduced in place; an entry is removed exactly when its text is blank |
| `PublicTranscripts.PublicTranscript.StartTool` | products/voice-agent/apps/pi-agent/voice-agent/public-transcript.ts:130-132 | The last entry is then a running tool under the call ID cut to 128 characters, or under a generated ID when that is empty |
| `PublicTranscripts.PublicTranscript.FinishTool` | products/voice-agent/apps/pi-agent/voice-agent/public-transcript.ts:134-140 | The first tool entry that has the cut call ID ends, as failed or completed, and no other changes; nothing changes exactly when none has it |
| `PublicTranscripts.PublicTranscript.Reset` | products/voice-agent/apps/pi-agent/voice-agent/public-transcript.ts:149-151 | A reset empties the transcript under a new revision, and generated IDs go on where they were |
| `PublicTranscripts.PublicTranscript.Replace` | products/voice-agent/apps/pi-agent/voice-agent/public-transcript.ts:153-155 | A replacement leaves the last 200 of the given entries under a new revision, and generated IDs go on where they were |
| `McpFraming.QuietIffWellFormed` | platform/agent-execution/gondolin-session/session.ts:205-222 | For any split of the byte stream, no error is emitted if and only if every line parses and fits; then the messages are those of all lines in order and the buffer is what follows the last newline |
| `McpFraming.EveryStream` | platform/agent-execution/gondolin-session/session.ts:205-222 | For any stream, malformed lines included, no byte is lost or repeated and the emitted messages are those of the lines taken off, in order |
| `McpFraming.ReadAdds` | platform/agent-execution/gondolin-session/session.ts:205-222 | A read emits messages and after them at most one error; without an error it has taken every complete line and what is left fits |
| `McpFraming.OversizeBlocks` | platform/agent-execution/gondolin-session/session.ts:209-211 | A line that has outgrown the limit is never taken off: every later read only repeats the error |
| `McpFraming.DrainIsQuiet` | platform/agent-execution/gondolin-session/session.ts:208-218 | Draining the buffer is silent exactly on well-formed bytes and then leaves the unfinished line |
| `McpFraming.GondolinMcpTransport.Read` | platform/agent-execution/gondolin-session/session.ts:205-222 | The loop over the buffer field agrees with the stream function, and what it consumed plus what it keeps is what came in |
| `SerialExecutors.EveryExecutorRun` | products/voice-agent/apps/pi-agent/voice-agent/serial-executor.ts:3-20 | In every run of the promise chain, whatever the operations return or throw: at most one operation runs, everything submitted before it has ended, the executor is not busy exactly when every operation's finally handler has run, the queue promise is never rejected, and each caller gets the outcome of its own operation |
| `SerialExecutors.IdleBeforeTheCallerKnows` | products/voice-agent/apps/pi-agent/voice-agent/serial-executor.ts:15-17 | The executor can be idle while the promise it gave to the caller has not settled yet |
| `SerialExecutors.OutcomesDoNotMatter` | products/voice-agent/apps/pi-agent/voice-agent/serial-executor.ts:13-14 | Exchange the outcomes of any operations of a run for any others: order, phases and counters are the same |
| `SerialExecutors.FailureBlocksNothing` | products/voice-agent/apps/pi-agent/voice-agent/serial-executor.ts:13-14 | Once an operation has settled either way, two handlers later the next one runs |
| `SerialExecutors.OutcomeReachesTheCaller` | products/voice-agent/apps/pi-agent/voice-agent/serial-executor.ts:13-18 | Whatever a running operation ends with, its finally handler and then the settling of the promise it was given bring exactly that to its caller |
| `SerialExecutors.StepRefines` | products/voice-agent/apps/pi-agent/voice-agent/serial-executor.ts:11-18 | Every submission, handler and end of an operation in the promise chain is one step of the operation queue, or none |
| `SerialExecutors.ResultsAreOwn` | products/voice-agent/apps/pi-agent/voice-agent/serial-executor.ts:13-15 | A result settles only with the outcome its own operation ended with |
| `OperationQueues.StartsInSubmissionOrder` | products/voice-agent/apps/pi-agent/voice-agent/serial-executor.ts:13-14 | An operation can start exactly when it is queued and all submitted before it have ended |
| `OperationQueues.OneAtATime` | products/voice-agent/apps/pi-agent/voice-agent/serial-executor.ts:13-14 | While one operation runs all earlier ones have ended and all later ones are queued |
| `OperationQueues.BusyMeansOpen` | products/voice-agent/apps/pi-agent/voice-agent/serial-executor.ts:8-10 | The two counters are zero exactly when every operation is settled and released |
| `OperationQueues.StepKeepsInv` | products/voice-agent/apps/pi-agent/voice-agent/serial-executor.ts:7-18 | Submitting, starting, ending and releasing keep chain, order and counters right |
| `SerialExecutors.SerialExecutor.IsBusy` | products/voice-agent/apps/pi-agent/voice-agent/serial-executor.ts:8-10 | Busy is reported exactly while some operation is not released |
| `SerialExecutors.SerialExecutor.Run` | products/voice-agent/apps/pi-agent/voice-agent/serial-executor.ts:11-18 | The statements count the submission, chain it to the queue with both handlers, make the new queue promise and return the third, which is a submission to the operation queue |
| `VoiceSessions.EveryVoiceRun` | products/voice-agent/apps/pi-agent/voice-agent/voice-agent.ts:308-439 | In every run the session an operation works on is the current one, not disposed, and on the conversation the operation started on |
| `VoiceSessions.RunningKeepsConversation` | products/voice-agent/apps/pi-agent/voice-agent/voice-agent.ts:308-342 | While a turn or compaction runs, no event replaces its conversation, and none replaces or disposes the session it uses |
| `VoiceSessions.TurnKeepsItsPrompt` | products/voice-agent/apps/pi-agent/voice-agent/voice-agent.ts:392-436 | Whatever happens while a local turn is at work, it stays on the conversation it found, under its own system prompt and off the remote task |
| `VoiceSessions.TwoTurns` | products/voice-agent/apps/pi-agent/voice-agent/voice-agent.ts:392-436 | Two turns of a new agent, from submission to end: the second uses the session of the first exactly when both have one system prompt, and otherwise disposes it and opens one on the same conversation |
| `VoiceSessions.TurnGoesToTheTask` | products/voice-agent/apps/pi-agent/voice-agent/voice-agent.ts:308-398 | A turn goes to the remote task when one was attached and nothing since could detach it, and to the agent's own session when the task was detached, or a conversation started or resumed on an idle executor, with none attached since |
| `VoiceSessions.ExecutorFollows` | products/voice-agent/apps/pi-agent/voice-agent/voice-agent.ts:371-436 | The executor moves exactly as submissions, starts of operations of the right kind, ends and finally handlers say, and no other event moves it |
| `VoiceSessions.FreshSessionIffIdle` | products/voice-agent/apps/pi-agent/voice-agent/voice-agent.ts:308-342 | Starting or resuming begins another conversation exactly when nothing is queued, running or settling |
| `VoiceSessions.StepKeepsInv` | products/voice-agent/apps/pi-agent/voice-agent/voice-agent.ts:218-439 | Every event keeps the running operation's session current and live |
| `VoiceSessions.VoiceAgent.StartFreshSession` | products/voice-agent/apps/pi-agent/voice-agent/voice-agent.ts:308-320 | It succeeds exactly on an idle executor, with no operation at work, and then leaves an unbound new conversation, the old session disposed and the remote task detached; otherwise nothing changes |
| `VoiceSessions.VoiceAgent.ResumeSession` | products/voice-agent/apps/pi-agent/voice-agent/voice-agent.ts:322-342 | It succeeds exactly when the session is found and the executor is idle; an idle executor detaches the remote task either way, a busy one changes nothing |
| `VoiceSessions.VoiceAgent.BeginTurn` | products/voice-agent/apps/pi-agent/voice-agent/voice-agent.ts:392-420 | A malformed turn ends at once; with a remote task attached the turn goes there; otherwise it reuses the active session exactly under the same system prompt and else disposes it and opens one on the same conversation under its own |
| `VoiceSessions.VoiceAgent.BeginCompaction` | products/voice-agent/apps/pi-agent/voice-agent/voice-agent.ts:371-380 | A compaction uses the active session, or opens one on the same conversation and system prompt exactly when none is active |
| `WindowSearch.MaterializeVoiceSample` | products/voice-agent/tools/config/init_secrets.py:22-58 | A sample is refused for its format exactly when the header check fails, refused as silent exactly when every whole frame read is silent, and otherwise the 48000 samples kept are the leftmost loudest aligned window inside the recording |
| `WindowSearch.LoudestWindow` | products/voice-agent/tools/config/init_secrets.py:46-53 | The rolling search returns the leftmost 300-frame window of greatest energy, with its energy |
| `WindowSearch.WindowSlides` | products/voice-agent/tools/config/init_secrets.py:50 | Adding the entering frame and subtracting the leaving one gives the next window's energy |
| `WindowSearch.BestOfSilence` | products/voice-agent/tools/config/init_secrets.py:54-55 | The greatest window energy is not positive exactly when every whole frame is silent |
| `WindowSearch.BestIsUnique` | products/voice-agent/tools/config/init_secrets.py:46-53 | There is only one leftmost loudest window |
| `ReviewQueues.EveryReviewRun` | products/voice-agent/apps/journal-review-mcp/src/server.ts:144-369 | In every run of renders, reviews, navigation and corrections in flight, each queue's index is in range and every piece of evidence is its transcript's slice |
| `ReviewQueues.ReviewsFinish` | products/voice-agent/apps/journal-review-mcp/src/server.ts:255-293 | n accepted decisions on the active item, whatever type, statement, topics or evidence they change, leave n fewer pending items and a pending active item while any is left: the queue is done after exactly as many reviews as were pending |
| `ReviewQueues.FreshQueueFinishes` | products/voice-agent/apps/journal-review-mcp/src/server.ts:192-293 | A freshly rendered queue of n items in any run of the server, with only decisions accepted on it: it is done exactly when n have been accepted, and shows a pending item until then |
| `ReviewQueues.DecisionsFinish` | products/voice-agent/apps/journal-review-mcp/src/server.ts:255-293 | In any server run every accepted decision on a queue that shows a pending item settles one more, whatever is refused and whatever happens on other queues |
| `ReviewQueues.ReviewSettlesOne` | products/voice-agent/apps/journal-review-mcp/src/server.ts:269-290 | An accepted review changes the active item alone, lowers the pending count by one exactly if it was pending, and moves to a pending item if any is left |
| `ReviewQueues.RunKeepsItems` | products/voice-agent/apps/journal-review-mcp/src/server.ts:192-368 | In no run of renders, decisions, moves and corrections begun does a queue gain, lose, reorder or rename an item, or change its source or transcript, as long as no correction is saved to it |
| `ReviewQueues.NextActiveIsPending` | products/voice-agent/apps/journal-review-mcp/src/server.ts:281-290 | Searching after the current item and then before it reaches a pending item whenever there is one |
| `ReviewQueues.NextActiveIsNext` | products/voice-agent/apps/journal-review-mcp/src/server.ts:281-290 | The next active item is the first pending one after the current, else the first from the front, else the current one |
| `ReviewQueues.ReviewMeans` | products/voice-agent/apps/journal-review-mcp/src/server.ts:255-290 | A review is accepted exactly for the active item with no evidence or a non-empty exact quote; it then sets the outcome and those parts of the suggestion that were given, and moves to the next pending item; refused, it changes nothing |
| `ReviewQueues.QuotesMeans` | products/voice-agent/apps/journal-review-mcp/src/server.ts:208-264 | Evidence matches exactly when its quote is, character by character, the transcript between the offsets as far as that reaches |
| `ReviewQueues.StepWrites` | products/voice-agent/apps/journal-review-mcp/src/server.ts:255-368 | In the server a decision, a saved correction and a move write to their queue what they say and nothing else |
| `ReviewQueues.RenderMakesAQueue` | products/voice-agent/apps/journal-review-mcp/src/server.ts:192-216 | A render gives the review a new queue of its items, all pending, with the first one active, and leaves other queues alone |
| `ReviewQueues.CorrectionAcrossTheAwait` | products/voice-agent/apps/journal-review-mcp/src/server.ts:313-336 | From an accepted correction of item i, through any events, to the gateway's answer: it replaces exactly item i if and only if i is the current position again (or both items are already what it writes), and it loses no decision or other correction if and only if i is the current position again and none of those has written item i in between |
| `ReviewQueues.QuietAwaitIsSafe` | products/voice-agent/apps/journal-review-mcp/src/server.ts:313-336 | With no accepted decision, move or saved correction on the queue during the await, the correction replaces exactly the item it was begun on and loses nothing, and the review ID still opens that queue if and only if it was not rendered anew |
| `ReviewQueues.ReviewShowsTheCorrection` | products/voice-agent/apps/journal-review-mcp/src/server.ts:192-336 | Whatever happens during the await, the review shows the written correction at its current position if and only if no render of that review was accepted meanwhile |
| `ReviewQueues.VersionTells` | products/voice-agent/apps/journal-review-mcp/src/server.ts:255-336 | In any run an item is the same as before unless a decision or a correction was written to its position, and its version tells which |
| `ReviewQueues.MoveLosesTheOtherItem` | products/voice-agent/apps/journal-review-mcp/src/server.ts:313-368 | From no reviews: a move during the await makes the correction of the first item overwrite the second, also when both have one ID |
| `ReviewQueues.RejectionIsOverwritten` | products/voice-agent/apps/journal-review-mcp/src/server.ts:255-336 | From no reviews: a rejection of the same item during the await is overwritten by the correction |
| `ReviewQueues.RenderHidesTheCorrection` | products/voice-agent/apps/journal-review-mcp/src/server.ts:192-336 | From no reviews: a new render during the await leaves the correction in a queue that the review ID no longer opens, and the review shows the item pending |
| `ReviewQueues.StepKeepsServerOk` | products/voice-agent/apps/journal-review-mcp/src/server.ts:192-369 | Every handler keeps all queues and all corrections in flight in order |
| `ReviewQueues.ReviewQueue.Present` | products/voice-agent/apps/journal-review-mcp/src/server.ts:144-161 | What is shown has valid evidence, a position inside the queue, and reviewed plus pending items make up the total |
| `ReviewQueues.ReviewQueue.ReviewActive` | products/voice-agent/apps/journal-review-mcp/src/server.ts:255-293 | In place: accepted exactly for the active item with no evidence or an exact quote; the item then has the outcome and the given parts of the suggestion, each in its field, and the next pending item is active; refused, nothing changes |
| `ReviewQueues.ReviewQueue.NavigateReview` | products/voice-agent/apps/journal-review-mcp/src/server.ts:353-368 | Navigation moves one forward or back from the active item, stops at both ends and changes no item |
| `ReviewQueues.ReviewQueue.BeginCorrection` | products/voice-agent/apps/journal-review-mcp/src/server.ts:313-328 | The statements before the await accept exactly the active item with no evidence or an exact quote; what will be written has the given type, text and topics in these fields, the given evidence or the old, the outcome edited, and the item's identity and transcript |
| `ReviewQueues.ReviewQueue.SaveCorrection` | products/voice-agent/apps/journal-review-mcp/src/server.ts:324-328 | The statement after the await replaces the item at the position that is current by then, and no other |

## Left out

- HTTP servers, sockets, Docker Engine and Buildx, SQLite, git, VM start: steps that succeed, fail or stop, or answers given by parameters.
- Hashes, UUIDs and regular expressions: parameters. `StackAlertMonitors.ValidEnv` takes the request ID function as injective and its results as valid owner IDs; the fixed-width form of a UUID (and so the chance of a collision) is not modelled.
- The alert monitor's clock is taken not to go back and the owner identity not to change; with a clock that goes back the cooldown would not hold. `.lower()` is modelled on ASCII letters.
- Owner: durable task execution, resume, retry, abort and cancellation, and clients other than `submit` and `progress`.
- File-lock leases: removing a stale lock is not atomic with checking it, so they do not exclude each other over all interleavings.
- Progress log: the JSON hop changes the length of a multi-byte character cut by the tail, so a character stands for one ASCII byte.
- Job store: the field checks of `validateJob` beyond the manifest, request bodies, the legacy status names, and what building an image does.
- The context file of a finished job is removed outside the lock; its removal is taken to succeed.
- Cache import: symbolic links and other irregular files, directory creation, file modes, `--help` text; read errors other than a failed verification. The three roots are taken as distinct.
- Compose handoff: the staging directory (its rename is one step), file writing errors, logging, and the marshalling of rows, which is a parameter.
- Canonical JSON: numbers are their printed numerals (the float formatting is not modelled); strings hold Unicode scalar values, as decoded JSON does; non-finite floats, which the encoder refuses.
- Extractor: `int(_, 16)` on four characters is a parameter, constrained on hexadecimal digits only, because Python also accepts signs, spaces, underscores and other decimal digits.
- Bounded values: integers too large for a float, on which `math.isfinite` raises, and non-string keys, which JSON does not have.
- Remote task: the wait for `remote_attached` inside `attach` (its detach and connect are separate events here), the streaming of deltas, message trimming, and UTF-8 characters cut between chunks. `fail` does not clear the buffer; the detach that precedes every connection does.
- Remote task: a waiter that registers after its socket has failed stays until its timeout or the next detach; `NothingWaits` is stated at the failure itself.
- Transcript: JavaScript's UTF-16 code units are modelled as characters. Blank texts are removed by looking at the kept 24000 characters, as the code does. `EveryTranscript` asks replaced entries to be short, which `publicSessionTranscript` ensures.
- Voice session: `VoiceAgent.close`, which is not serialized with turns; context usage and compaction counters; the extension binding after a session is created.
- MCP framing: a malformed line leaves later lines buffered until the next chunk, so only well-formed streams are chunk-independent in what they have emitted; `EveryStream` covers the rest. `close` and `send`.
- Window search: WAV parsing and writing; a recording shorter than its header says.
- Review queue: string and size limits of the input schemas, the gateway call, the journal entry ID pattern, and the built-in fixture review, which enters as a rendered queue.
- Presentation fallback, Excalidraw repair, browser apps, audio filters, configuration and login scripts: user interface or plumbing.
