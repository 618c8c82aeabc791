# MediaInterlock, verified

MediaInterlock coordinates media acquisition with three owners. The Fence decides whether a torrent
may exist and run, and drives qBittorrent. The Publisher takes custody of finished transfers and
publishes one asset generation per slot. The Reconciler decides what to search and asks Arr to grab.
Each follows the same rule: record the intent durably, cause the effect, observe it, record the
confirmation durably. This project models that logic and proves what it promises wherever a run is
interrupted.

## How it is built

* `common`, `fence_entry`, `fence_ledger`: one reservation with its adoption and candidate records,
  the effect of every transition on it, and the whole ledger as a value.
* `fence_state`: the mutable ledger object and its loading loops, each method proved against its
  transition. `fence_reload`, `fence_reload_steps`, `fence_reload_runs`: what a reload accepts and
  exactly which transitions keep a saved ledger reloadable. `fence_capacity`, `headroom`: the sums.
* `qbittorrent`, `fence_machine`: the world and the Fence as steps of one durable write or one effect,
  with lost replies, crashes and a changing environment. `fence_driver_facts`, `fence_polls`,
  `fence_batches` and `fence_service` hold the service: every method extends a legal run of the machine.
  `fence_health`: what polling a video candidate concludes, in one poll and in every run of polls.
  `fence_runs` states what every run guarantees, and `fence_sights` what the world must have shown
  before the ledger says that a transfer is stopped, accounted, running, paused, frozen or downloaded.
* `arr`, `fence_intake`, `arr_imports`: reading Arr's history for grabs and for imports.
* `custody`, `custody_handoff`: the custody contract, and the Fence and Publisher pair refining it.
* `publisher_model`, `publisher_machine`, `publisher_service`: publications, slot pointers,
  generations and the exchanges with the catalog. `publisher_catalog`: what the catalog showed before a
  publication counts as delivered. `publisher_reload`: which publications can be read back, per
  transition and per run.
* `reconciler_model`, `reconciler_machine`, `reconciler_service`: at most one grab request.
* `music_schedule`, `music_scheduler`, `search_budget`, `fair_order`: album cycles and the verdict
  handshake, search budgets, and the round-robin order. `upgrade_schedule`, `upgrade_runs`: when an
  entity is searched again, and how often and how far apart in every run.

`dafny verify dfyconfig.toml` checks everything.

## What the model assumes

* Each service call is one sequence of steps with a single writer per owner.
* A save is atomic: it happens or it does not, and a failed save changes nothing durable. A lease
  section, an exchange of a pointer and the appearance of a complete generation are atomic.
* Only the Fence writes `fence:` tags, and nobody else removes a torrent that carries one. Everything
  else about torrents may change between any two steps.
* Hashes, UUIDs and file contents are opaque. A digest is a function given from outside.
* Nobody passes a v1 adoption to `bind_grab` or asks for its resume; the ledger would accept both
  (`FenceRuns.ResumeStrandsAdoption`).
* A conclusive answer of qBittorrent about a torrent is what the torrent is at that moment; any answer
  may also be missing or prove nothing. A step of the machine that confirms something rests on such an
  answer given since the last write or effect (`FenceMachine.Warranted`).
* Answers of Arr, Jellyfin, Prowlarr and the clock are arbitrary. The grabs that Arr showed, the
  rejections it confirmed and what passed between the Publisher and the catalog are kept in the run, and
  the steps that rest on them need them there. A call that raises inside a `try` of the source is an
  answer that proves nothing; a call that raises outside one makes the method answer `Raised`.
* To the Reconciler the Fence is its ledger: between any two steps it takes any transitions, and it
  answers a binding with true only for what its ledger holds, as `FenceService.BindGrab` promises.

## Where a property holds only under a condition

Each of these has a lemma with a failing input or with the exact condition, most have both.

* A pause keeps a live candidate that reload then refuses; so do a clock that steps back between
  metadata observations, a resume of a v1 adoption, a second reservation of a historical hash, and a
  Lidarr album id that is not a positive decimal (`FenceReloadSteps.ReloadStepIff` gives the condition
  of every transition).
* Recovery of a quiescing ledger, which every start after a close begins with, can raise: at an unadopted
  operation that is stopped or tag-intended once capacity and headroom are ready, and at a running one with
  a candidate, whose pause also makes every later working copy fail.
* A historical import is published under a version 5 id, and its slot then shows it for ever.
* A video candidate judged dead is released only by the poll that judges it. If the blocklisting, the
  deletion, a save or a crash cuts that poll short, every later poll that sees the torrent tries to take
  down its health, which raises for a candidate no longer probed (`FenceService.PollVideoCandidate`).
* Any exception inside a poll of video candidates leaves the poll: its handler names an exception class
  that the module does not import. The replacement work of that poll is then lost for good.
* The progress timeout of video candidates works only under a minimum of one failure
  (`FenceHealth.StallNeedsMinimumOne`).
* A bundle that lists its payload with another size or digest is accepted by the publication's
  transition and then refused by every working copy (`PublisherReload.StepLoadsIff`).
* The age bound of the import reconciliation holds for the first page only.
* A clock that steps back by more than 23 hours can make the pruned budget log forget a search of
  the last hour, and one that steps back at all a search of the last day.
* A reconciliation item stays blocked by its open search only as long as no sibling search of it closes.
* Enough failures of a replacement make recording the next one raise: of the three growing delays only
  that one is not guarded against overflow.

## Model

| member | source | states |
|---|---|---|
| FenceRuns.TagAtMostOnce | src/media_interlock/fence/service.py:511-560 | In every run, whatever crashes and lost replies it has, the tag of an operation is sent at most once. |
| FenceRuns.TagAfterDurableIntent | src/media_interlock/fence/service.py:761-776 | The step that sends a tag finds its tag intent durable, no tag of that operation sent before, the torrent carrying no fence tag, and a sight of it stopped and untagged in its place since that intent; afterwards the torrent has the tag or is untouched, whatever was answered. |
| FenceRuns.OwnersDistinct | src/media_interlock/fence/model.py:456-469 | No two operations between tag observation and release, with no candidate judged dead, share a torrent hash, although the ledger never compares hashes there. |
| FenceRuns.OneTagPerTorrent | src/media_interlock/adapters/qbittorrent.py:135-188 | Every torrent carries at most one fence tag, and the torrent of an owned operation carries exactly its own. |
| FenceRuns.StartSafety | src/media_interlock/fence/service.py:346-354 | A start happens only with the resume or activation intent of that operation durable, the ledger not quiescing and within capacity, headroom accepted, and the torrent owned and seen stopped since the last write, in the sealed size for a historical adoption; never for a v1 adoption. |
| FenceRuns.SealedNeverStarted | src/media_interlock/fence/service.py:856-858 | An operation that is a v1 adoption was never started at any earlier point of the run. |
| FenceRuns.CapacityHolds | src/media_interlock/fence/model.py:236-242 | At every point of every run requested bytes are at most capacity, inflight is at most its maximum, and reserved bytes exceed capacity by no more than recorded size growth. |
| FenceRuns.AdmittedWithRoom | src/media_interlock/fence/service.py:369-373 | In every run a step that adds a reservation leaves a ledger that headroom accepted, new reservation included, for free bytes that were observed. |
| FenceRuns.LogGrows | src/media_interlock/fence/service.py:316-318 | Later states of a run extend the effects of earlier ones. |
| FenceRuns.PauseStrandsCandidate | src/media_interlock/fence/model.py:498-502 | Concrete ledger entry: pausing a transfer whose video candidate is still probed leaves an entry that a reload refuses. |
| FenceRuns.ClockStepStrandsCandidate | src/media_interlock/fence/model.py:690-701 | Concrete ledger entry: a clock that steps back between two metadata observations leaves an entry that a reload refuses. |
| FenceRuns.ResumeStrandsAdoption | src/media_interlock/fence/model.py:471-475 | A resume of any stopped v1 adoption is accepted by the ledger and leaves an entry that a reload refuses. |
| FenceRuns.ClashStrandsAdoption | src/media_interlock/fence/model.py:325-353 | An external grab with the hash of a historical adoption is admitted, and the hash is then no longer unique as reload demands. |
| FenceRuns.QuiescingRecoveryRaises | src/media_interlock/fence/service.py:853-866 | For every policy with room: a healthy quiescing ledger, within capacity and ready by headroom, whose recovery reaches a resume that raises. |
| FenceRuns.QuiescingPauseRaises | src/media_interlock/fence/service.py:817-823 | A healthy quiescing ledger whose recovery records the pause of a probed transfer, after which no working copy can be made, so the confirmation raises. |
| FenceRuns.WordedAlbumStrandsCandidate | src/media_interlock/fence/model.py:965 | Concrete ledger entry: probing a Lidarr transfer whose album id is no positive decimal leaves an entry that a reload refuses. |
| FenceRuns.StopSafety | src/media_interlock/fence/service.py:93-156 | In every run a stop happens only with the pause or freeze intent of that operation durable and its torrent seen running since, or with the verdict on the video candidate of its running transfer durable, and only on a torrent that carries its tag and no other. |
| FenceRuns.DeleteSafety | src/media_interlock/fence/service.py:140-203 | In every run a deletion happens only with the verdict on that candidate durable and its torrent seen in its place under its tag since; of a video its very grab was rejected in Arr just before; the files go exactly where the candidate says so; and no other operation's torrent goes. |
| FenceRuns.CrashReloads | src/media_interlock/fence/model.py:733-806 | At every index of every run whose durable writes meet their reload conditions, what the store holds reloads to the very same ledger. |
| FenceSights.StepReaches | src/media_interlock/fence/service.py:502-509 | Per transition: reaching stopped, paused, frozen, active, managed or terminal, or being past the tag intent, rests on a sight of its torrent in its place under its own tag alone and in the state that is confirmed. |
| FenceSights.ReachedOnSight | src/media_interlock/fence/service.py:897-978 | In every stretch of a legal run that begins with nothing in sight, what the durable ledger newly says of a transfer the world showed at a point of that stretch: stopped, running, seeding and complete, or of at most the reserved size. |
| FenceSights.AlwaysAccounted | src/media_interlock/fence/service.py:774-777 | At every index of every run, each transfer past its tag intent had its torrent seen stopped under its own tag, and holds at least the size seen then; the requested size stands in only for a magnet without metadata. |
| FenceSights.StartAccounted | src/media_interlock/fence/service.py:785-806 | Every start of every run follows such a sight and finds a reservation of at least the size seen. |
| FenceSights.AnnouncedDownloaded | src/media_interlock/fence/service.py:911-919 | In every run a video transfer is terminal, frozen after it or released only after its torrent was seen complete and seeding in its place under its own tag alone. |
| FenceSights.AccountedExactly | src/media_interlock/fence/service.py:774-777 | The step that accounts a tag finds the torrent at a point since the last write or effect, and records exactly the larger of the bytes reserved and those seen, and the bytes still to come that were reported. |
| FenceSights.SightTaken | src/media_interlock/fence/service.py:316-318 | What a process remembers of a torrent was taken from the world at one point since it remembered nothing, and nothing was written or sent in between. |
| FenceSights.CallShows | src/media_interlock/fence/service.py:646-692 | For a call that began with nothing in sight: every milestone that any operation reached by its end the world showed within that call. |
| FenceSights.BindingStays | src/media_interlock/fence/model.py:430-448 | Along a run a bound operation keeps its download id and torrent hash. |
| FenceLedger.ApplyKeepsBinding | src/media_interlock/fence/model.py:430-448 | No transition takes a binding back or changes its download id or torrent hash. |
| FenceMachine.StepKeepsInv | src/media_interlock/fence/service.py:316-318 | Every single durable write, effect, crash or change of the world keeps the tag, ownership and never-started invariants. |
| FenceMachine.AlwaysSafe | src/media_interlock/fence/service.py:808-875 | Those invariants hold at every point of every run, so at every point a crash can strike. |
| FenceMachine.CommitKeepsTagInv | src/media_interlock/fence/model.py:450-454 | A ledger transition never takes an operation back before its tag intent, and a new tag intent means nothing was sent. |
| FenceMachine.CommitKeepsOwnerInv | src/media_interlock/fence/model.py:456-469 | A ledger transition makes an operation an owner only where its tag was just observed. |
| FenceMachine.CommitKeepsNeverStarted | src/media_interlock/fence/model.py:471-475 | As long as no resume is asked for it, a v1 adoption stays bound, tag-intended or stopped. |
| FenceMachine.TagKeepsInv | src/media_interlock/adapters/qbittorrent.py:163-170 | Sending a tag to a torrent without fence tags takes no other operation's torrent. |
| FenceMachine.DeleteKeepsInv | src/media_interlock/adapters/qbittorrent.py:258-269 | Deleting the torrent of a candidate judged dead takes no owned torrent. |
| FenceMachine.StartKeepsInv | src/media_interlock/fence/service.py:877-895 | A start keeps ownership and never concerns a v1 adoption. |
| FenceHealth.PollJudges | src/media_interlock/fence/service.py:118-138 | The transitions of a poll succeed exactly on a probed candidate no younger than the clock, and together have the effect of one closed form: what is noted, and the verdict with its exact condition. |
| FenceHealth.VerdictIff | src/media_interlock/fence/service.py:118-138 | Over any run of polls of a fresh candidate: it is judged dead exactly when some beginning of what was seen is hopeless, which is said of the answers alone (silence for the minimum number of answers past the metadata timeout, or a stall at the peak past the progress timeout under a minimum of one). |
| FenceHealth.StallNeedsMinimumOne | src/media_interlock/fence/model.py:690-701 | No run of polls gives the verdict of no progress under a minimum above one, because each answer with metadata takes back the failures counted before. |
| FenceHealth.LookRemembered | src/media_interlock/fence/model.py:684-701 | The stored counters are exact: after each answer they hold the peak, its time and the length of the silence, and condemn exactly where the answers call the candidate hopeless. |
| FenceBatches.StepsReach | src/media_interlock/fence/service.py:316-318 | Several transitions under one save move exactly one entry through all of them, or raise together. |
| FenceBatches.LegalSteps | src/media_interlock/fence/service.py:316-318 | A save of several transitions is a legal run of single durable writes with the same end, so what holds in every run covers it. |
| FenceDriver.FenceService.BindGrab | src/media_interlock/fence/service.py:717-806 | Each call extends a legal run; unless it is only a re-observation it changes one operation and sends at most that operation's tag and then its start; true means the ledger holds this operation bound to this download and torrent, and success of a fresh drive leaves it running, its torrent seen stopped under its own tag during the call with at least its size reserved; whatever else it confirms was shown during the call; for a healthy ledger it raises only when a save failed, or when it re-observes through a recovery that is obstructed. |
| FenceDriver.FenceService.Recover | src/media_interlock/fence/service.py:808-875 | Terminates, extends a legal run and keeps the set of operations; when it returns, qBittorrent was asked during the call about every tag, pause and freeze whose outcome was open, and in a closing ledger nothing that ran with a known torrent still counts as running; whatever it confirms was shown during the call; for a healthy ledger it raises only when a save failed, or when the ledger was quiescing and held an unadopted operation stopped or tag-intended, or a running one with a candidate. |
| FenceDriver.FenceService.HandleRecord | src/media_interlock/fence/service.py:812-875 | Given a record whose snapshot is current, only that operation changes and effects concern only it; a tag is sent only from the state before the tag intent; an open outcome was asked for; it raises only on a failed save or on that operation's own obstruction, and only a pause while quiescing can spoil the ledger. |
| FenceDriver.FenceService.RecoverTag | src/media_interlock/fence/service.py:833-855 | A tag of unknown outcome is asked for, accounted only on sight of the torrent stopped under it and with what that sight reported, never sent again; then at most one start. |
| FenceDriver.FenceService.ResumeStopped | src/media_interlock/fence/service.py:856-864 | On a healthy quiescing ledger it changes nothing and raises exactly when capacity and headroom were found ready; otherwise it raises only on a failed save. |
| FenceDriver.FenceService.ClaimPostPnr | src/media_interlock/fence/service.py:511-543 | A claim is answered as admitted only when the adoption is durably stopped and tagged, and was seen so during the call if the call made it so; a tag is sent only from the bound state. |
| FenceDriver.FenceService.RecoverPostPnrTag | src/media_interlock/fence/service.py:545-560 | Asks for the tag of an adoption, accounts it only on sight and sends nothing. |
| FenceDriver.FenceService.RecoverHistoricalActivation | src/media_interlock/fence/service.py:611-634 | Answers true only when the activation is durably managed; at most one start, and only after the torrent was seen stopped, tagged and of exactly the sealed size during the call. |
| FenceDriver.FenceService.ActivateHistorical | src/media_interlock/fence/service.py:582-609 | An explicit activation is admitted only when durably managed, and was seen running during the call if the call made it so. |
| FenceDriver.FenceService.RecoverResume | src/media_interlock/fence/service.py:877-895 | A durable resume intent is re-observed first; at most one start is sent, and activity is recorded only on sight of the torrent running under its own tag (the machine accepts the write in no other case). |
| FenceDriver.FenceService.RecoverPause | src/media_interlock/fence/service.py:694-715 | The outcome is asked for; true is answered only when the operation is durably paused, which is written only on sight of its torrent stopped; at most one stop is sent. |
| FenceDriver.FenceService.RecoverFreeze | src/media_interlock/fence/service.py:957-978 | The outcome is asked for; true is answered only when the operation is durably frozen, which is written only on sight of its torrent stopped; at most one stop is sent. |
| FenceDriver.FenceService.Quiesce | src/media_interlock/fence/service.py:646-692 | True means: closing paused all that ran, reopening runs all that was paused, and nothing else changed; each transfer that the call paused or resumed was seen stopped or running under its own tag during the call; a healthy ledger raises only on a failed save, or when closing meets a running operation with a candidate, and closing such a ledger never answers true. |
| FenceDriver.FenceService.PauseAll | src/media_interlock/fence/service.py:648-667 | True means every operation that was active or managed is paused and every other is as it was. A healthy ledger raises only on a failed save or when the pause of some running operation spoils it, and in that last case true is never answered. |
| FenceDriver.FenceService.ResumeAll | src/media_interlock/fence/service.py:668-692 | True means every operation that was paused runs and every other is as it was; for a healthy ledger it raises only when a save failed. |
| FenceDriver.FenceService.Observe | src/media_interlock/fence/service.py:897-919 | A terminal message is answered only from a durably completed reservation and is the message of that reservation; a transfer that the call completes was seen complete and seeding under its own tag during the call. |
| FenceDriver.FenceService.Freeze | src/media_interlock/fence/service.py:939-955 | True means the operation is durably frozen; if the call froze it, its torrent was seen stopped under its own tag during the call. |
| FenceDriver.FenceService.TakeReceipt | src/media_interlock/fence/service.py:986-991 | A receipt is answered true only when the release to that Publisher reservation is durable. |
| FenceDriver.FenceService.ReleaseInvalidMusic | src/media_interlock/fence/service.py:176-203 | At most one deletion, only for a candidate already durably judged dead and with the files as its policy said; true means the candidate is durably released, and the ledger changes only after a deletion. |
| FenceDriver.FenceService.RecordHealth | src/media_interlock/fence/service.py:118-139 | The second save of a poll is one write of all its transitions: on success the candidate is the judged one and nothing else of the ledger changed, on any failure nothing changed; it is refused only for a candidate that is not probed or that is younger than the clock. |
| FenceDriver.FenceService.WatchVideo | src/media_interlock/fence/service.py:110-139 | Opens and judges one candidate: only the candidate of that operation changes, no effect is sent, the verdict is that of what its torrent reported, under its own tag, at a point of the call, and a candidate already judged dead stays as it is and is never judged again. |
| FenceDriver.FenceService.GiveUpVideo | src/media_interlock/fence/service.py:140-153 | At most one stop, then the confirmed rejection of the grab in Arr, then one deletion, with the files exactly if there was metadata, for a durable verdict; the reservation is invalidated exactly when replacement work is answered, which follows all three and names its source and media. |
| FenceDriver.FenceService.PollVideoCandidate | src/media_interlock/fence/service.py:100-156 | A stop and a deletion follow only a verdict that this very poll made durable, from what the torrent reported during it; a transfer whose verdict was durable before, and not released by the poll that gave it, is never stopped, deleted or released by any later poll. Replacement work is answered exactly when the transfer went from active to invalidated. |
| FenceDriver.FenceService.PollVideoCandidateHealth | src/media_interlock/fence/service.py:93-156 | A poll that returns answers exactly the transfers it gave up, in order; each effect is the only stop, rejection or deletion of an operation it condemned; other sources, states and verdicts stay as they were. A poll that raises, as every exception inside it makes it do, answers nothing for what it gave up before, and those are then spared by every later poll. |
| FenceDriver.FenceService.PreAdmit | src/media_interlock/fence/service.py:356-373 | An admitted request is durably held with the same source, media id, size, fingerprint and watermark; any refusal changes nothing. A new reservation is written only after headroom accepted the ledger that holds it (`FenceRuns.AdmittedWithRoom`). |
| FenceDriver.FenceService.AdoptExternalGrab | src/media_interlock/fence/service.py:387-402 | Success means a reservation with the fingerprint of the grab exists; no observation is forgotten. |
| FenceDriver.FenceService.PollSource | src/media_interlock/fence/service.py:404-444 | The watermark of the source stays, is first set to the highest id of the fetched history, or moves past grabs that are all reserved; what was done is work that forgets no observation and then at most that one write. |
| FenceDriver.FenceService.PollExternal | src/media_interlock/fence/service.py:404-444 | The same for every source of a poll, whether the poll succeeds or stops half way. |
| FenceDriver.FenceService.Persist | src/media_interlock/fence/service.py:316-318 | A saved transition is one durable write and one replacement of memory; a failed save changes neither. |
| FenceDriver.FenceService.PhysicallyReady | src/media_interlock/fence/service.py:320-335 | Answers exactly whether every source has its pools and headroom accepts the records. |
| FenceDriver.FenceService.Record | src/media_interlock/fence/service.py:316-318 | Clone, one transition, save: written, refused with nothing changed, or not written; only that operation changes. |
| FenceDriverFacts.CloneExact | src/media_interlock/fence/model.py:796-806 | A working copy of a ledger whose candidates stand where transitions put them is either exact or fails, and fails exactly when an entry is unacceptable. |
| FenceDriverFacts.HealthKept | src/media_interlock/fence/model.py:796-806 | Under their stated conditions transitions keep every later working copy possible. |
| FenceDriverFacts.StillCurrent | src/media_interlock/fence/service.py:808-816 | Handling one record leaves the rest of the snapshot current. |
| FenceDriverFacts.HealthyResumes | src/media_interlock/fence/model.py:471-475 | A healthy stopped transfer can record its resume intent exactly while the ledger is not quiescing. |
| FenceDriverFacts.PauseSpoilsIff | src/media_interlock/fence/model.py:498-502 | After the pause of a running transfer of a healthy ledger, working copies stay possible exactly when the transfer has no candidate. |
| FenceDriverFacts.SweepStops | src/media_interlock/fence/service.py:808-816 | What obstructs a recovery half way was in the ledger when it began. |
| FenceDriverFacts.ResumeKeepsReadiness | src/media_interlock/fence/service.py:785-806 | Recording a resume intent changes neither the capacity nor the headroom decision taken just before it. |
| FenceReload.ReloadIff | src/media_interlock/fence/model.py:850-992 | A saved snapshot reloads to the same ledger exactly when every entry, hash and watermark satisfies the stated invariant. |
| FenceReload.CloneIff | src/media_interlock/fence/model.py:796-806 | A working copy succeeds with the same ledger exactly when every reservation and candidate is acceptable. |
| FenceReloadSteps.ReloadStepIff | src/media_interlock/fence/model.py:430-731 | For each of the transitions of one operation: from a reloadable entry, the result is reloadable exactly when its caller-visible condition holds. |
| FenceReloadSteps.CloneStepIff | src/media_interlock/fence/model.py:564-731 | The same for what a working copy checks. |
| FenceReloadSteps.AdoptionStepIff | src/media_interlock/fence/model.py:874-935 | The same for what adoptions are checked for. |
| FenceReloadSteps.StepKeepsSeal | src/media_interlock/fence/model.py:430-557 | No transition changes what a reservation was requested or adopted for. |
| FenceReloadRuns.ReloadApplyIff | src/media_interlock/fence/model.py:298-428 | For every transition of the whole ledger, admissions included: the result reloads exactly when its condition holds. |
| FenceReloadRuns.RunReloads | src/media_interlock/fence/model.py:733-806 | Every run that meets the conditions saves a snapshot that reloads to the same ledger. |
| FenceCapacity.ApplyKeepsCapacity | src/media_interlock/fence/model.py:236-242 | Every transition keeps the capacity invariant, and only a tag observation can push a ledger over capacity. |
| FenceCapacity.RunKeepsCapacity | src/media_interlock/fence/model.py:283-288 | After any run: requested bytes fit, inflight fits, and reserved bytes are requested bytes plus growth. |
| FenceCapacity.AdmissionKeepsCapacity | src/media_interlock/fence/model.py:314-322 | An admission fits what was left, by sum and by count. |
| FenceLedger.ApplyKeyed | src/media_interlock/fence/model.py:222-234 | Records stay under their own ids and nothing is kept for an operation without a reservation. |
| FenceLedger.ApplyFrame | src/media_interlock/fence/model.py:430-731 | A transition touches at most one operation and forgets none. |
| FenceModel.FenceState.FromSnapshot | src/media_interlock/fence/model.py:850-992 | Rebuilds the ledger, or raises exactly when the specification does. |
| FenceModel.FenceState.Clone | src/media_interlock/fence/model.py:796-806 | A fresh object with the same ledger except candidates a copy drops. |
| FenceModel.FenceState.ReplaceWith | src/media_interlock/fence/model.py:808-816 | Takes over every field of the other state. |
| FenceModel.FenceState.RecordWatermark | src/media_interlock/fence/model.py:290-296 | A watermark is only ever raised. |
| FenceModel.FenceState.PreAdmit | src/media_interlock/fence/model.py:298-323 | Decides in the order of the source, counting reservations and summing bytes in loops, and reserves only what it admits. |
| FenceModel.FenceState.AdoptExternal | src/media_interlock/fence/model.py:325-353 | Finds an earlier reservation by operation or by fingerprint, else decides on room, and reserves only what it admits. |
| FenceModel.FenceState.CountInflight | src/media_interlock/fence/model.py:283-288 | The loop over the reservations counts exactly the specified inflight operations. |
| FenceModel.FenceState.SumReserved | src/media_interlock/fence/model.py:236-242 | The loop over the reservations sums exactly the specified live bytes. |
| FenceModel.FenceState.FindObservation | src/media_interlock/fence/model.py:261-267 | The scan answers the first reservation in order that carries the fingerprint. |
| FenceModel.FenceState.AdoptPostPnr | src/media_interlock/fence/model.py:355-386 | Decides and admits as the ledger transition. |
| FenceModel.FenceState.AdoptHistorical | src/media_interlock/fence/model.py:388-428 | Decides and admits as the ledger transition. |
| FenceModel.FenceState.BindObservedGrab | src/media_interlock/fence/model.py:430-448 | Binds the observed grab as the transition, or raises with nothing changed. |
| FenceModel.FenceState.RequestTag | src/media_interlock/fence/model.py:450-454 | Records the tag intent as the transition, or raises with nothing changed. |
| FenceModel.FenceState.MarkQbittorrentTagged | src/media_interlock/fence/model.py:456-469 | Accounts the observed size as the transition and answers whether capacity still suffices; a refused remaining size leaves at most the recorded size behind. |
| FenceModel.FenceState.RequestResume | src/media_interlock/fence/model.py:471-475 | Records the resume intent as the transition, or raises with nothing changed. |
| FenceModel.FenceState.RequestHistoricalActivation | src/media_interlock/fence/model.py:477-489 | Records the activation intent as the transition, or raises with nothing changed. |
| FenceModel.FenceState.MarkHistoricalManaged | src/media_interlock/fence/model.py:491-496 | Confirms the activation as the transition, or raises with nothing changed. |
| FenceModel.FenceState.RequestPause | src/media_interlock/fence/model.py:498-502 | Records the pause intent as the transition, or raises with nothing changed. |
| FenceModel.FenceState.MarkQbittorrentPaused | src/media_interlock/fence/model.py:504-508 | Confirms the pause as the transition, or raises with nothing changed. |
| FenceModel.FenceState.MarkQbittorrentActive | src/media_interlock/fence/model.py:510-514 | Confirms activity as the transition, or raises with nothing changed. |
| FenceModel.FenceState.RequestFreeze | src/media_interlock/fence/model.py:516-520 | Records the freeze intent as the transition, or raises with nothing changed. |
| FenceModel.FenceState.MarkQbittorrentFrozen | src/media_interlock/fence/model.py:522-526 | Confirms the freeze as the transition, or raises with nothing changed. |
| FenceModel.FenceState.CompleteTransfer | src/media_interlock/fence/model.py:528-541 | Completes as the transition and answers the terminal message; a malformed message is found only after the state changed. |
| FenceModel.FenceState.AcceptCustody | src/media_interlock/fence/model.py:543-557 | Releases as the transition, once per Publisher reservation. |
| FenceModel.FenceState.EnsureMusicCandidate | src/media_interlock/fence/model.py:564-577 | Opens a music candidate as the transition. |
| FenceModel.FenceState.RecordMusicCandidateProgress | src/media_interlock/fence/model.py:586-595 | Records progress as the transition and answers whether anything changed. |
| FenceModel.FenceState.CompleteMusicCandidate | src/media_interlock/fence/model.py:607-611 | Closes a candidate as succeeded, as the transition. |
| FenceModel.FenceState.InvalidateMusicCandidate | src/media_interlock/fence/model.py:613-627 | Judges a candidate dead as the transition, once. |
| FenceModel.FenceState.MarkMusicCandidateDeleted | src/media_interlock/fence/model.py:629-634 | Releases a dead candidate as the transition. |
| FenceModel.FenceState.AcknowledgeMusicInvalidation | src/media_interlock/fence/model.py:662-667 | Acknowledges exactly the verdict that was issued. |
| FenceModel.FenceState.EnsureVideoCandidate | src/media_interlock/fence/model.py:669-675 | Opens a video candidate as the transition. |
| FenceModel.FenceState.RecordVideoCandidateFailure | src/media_interlock/fence/model.py:684-688 | Counts a failed observation as the transition. |
| FenceModel.FenceState.RecordVideoCandidateMetadata | src/media_interlock/fence/model.py:690-701 | Records metadata and progress as the transition. |
| FenceModel.FenceState.InvalidateVideoCandidate | src/media_interlock/fence/model.py:703-712 | Judges a video candidate dead as the transition. |
| FenceModel.FenceState.ReleaseInvalidatedVideoCandidate | src/media_interlock/fence/model.py:714-719 | Gives up a dead video candidate as the transition. |
| FenceModel.LoadReservations | src/media_interlock/fence/model.py:757-793 | The loading loop accepts exactly acceptable, distinct records and keeps their order. |
| FenceModel.LoadVideo | src/media_interlock/fence/model.py:937-962 | The loading loop drops candidates of finished transfers and refuses any in another wrong state. |
| FenceModel.LoadMusic | src/media_interlock/fence/model.py:963-990 | The loading loop accepts exactly acceptable music candidates. |
| FenceIntake.IntakeLosesNothing | src/media_interlock/fence/service.py:404-444 | In every run in which Arr only appends, sizes are stable and every poll acts on what it fetched at that or any earlier time, each grab after the baseline and at or below the watermark has a reservation, and none has two. |
| FenceIntake.PollContinuesRun | src/media_interlock/fence/service.py:404-444 | What a poll of one source is proved to do continues every such run that came to its ledger, whatever was appended after the fetch. |
| FenceIntake.TraceContinuesRun | src/media_interlock/fence/service.py:808-875 | Every stretch of a legal run of the machine that moves no watermark continues every intake run that came to its ledger, so intake runs are made of polls and of whatever the service does in between. |
| FenceIntake.ViewIsComplete | src/media_interlock/adapters/arr.py:475-514 | A fetched history, however old, lacks no record at or below an id that it holds. |
| FenceIntake.WatermarkNeverDecreases | src/media_interlock/fence/model.py:290-296 | Watermarks only grow along a run. |
| FenceIntake.ApplyKeepsIntake | src/media_interlock/fence/model.py:325-353 | Every transition keeps one reservation per fingerprint and forgets no observation. |
| FenceIntake.AlwaysUnique | src/media_interlock/fence/model.py:325-353 | One reservation per fingerprint holds at every point of every run of the machine. |
| FenceIntake.LookupFinds | src/media_interlock/fence/model.py:260-266 | The lookup by fingerprint finds a reservation exactly when there is one. |
| FenceIntake.UnstableSizeReservesAgain | src/media_interlock/fence/service.py:375-402 | Stable sizes are needed: the same grab seen with another size is admitted a second time. |
| Arr.ExternalGrabsAfter | src/media_interlock/adapters/arr.py:456-514 | Answers exactly the specified grabs and watermark, or nothing. |
| Arr.PollComplete | src/media_interlock/adapters/arr.py:475-514 | A trusted answer contains every grab above the watermark and nothing else, and its watermark covers the whole history. |
| Arr.GrabsComplete | src/media_interlock/adapters/arr.py:481-513 | Trusted records have distinct ids, each grabbed record yields its grab, and no hash appears twice. |
| Arr.BaselineCoversHistory | src/media_interlock/adapters/arr.py:356-364 | The first watermark is at least every id there is. |
| ArrImports.ImportedAfter | src/media_interlock/adapters/arr.py:698-759 | One call answers exactly the specified page, or nothing. |
| ArrImports.PagedEqualsUnpaged | src/media_interlock/adapters/arr.py:698-759 | Over a fixed history and bound, whenever one unbounded call succeeds, paging from its own cursor with any positive maximum reads the same events in order and ends at the same cursor. |
| ArrImports.EventsIncrease | src/media_interlock/adapters/arr.py:727-759 | Events of a page come in strictly increasing id order between the old and the new cursor, so each exactly once. |
| ArrImports.PageMissesNothing | src/media_interlock/adapters/arr.py:727-759 | Every importable record up to the new cursor is in the page. |
| ArrImports.BoundDroppedIff | src/media_interlock/runtime.py:309-321 | The runtime applies the age bound to the first page only; later pages then read the same as with the bound exactly when no older importable or untrustworthy record lies beyond the first page. |
| ArrImports.BoundDroppedExample | src/media_interlock/runtime.py:309-321 | Concrete history on which the second page reads an import that the bound excludes. |
| Headroom.PhysicalHeadroom.Allows | src/media_interlock/fence/headroom.py:51-82 | True exactly when every live record is well formed and each pool has its minimum, margin and summed claims in observed free bytes, in unbounded integers; what a claim is, `Headroom.AllowedIff` says without it. |
| Headroom.TotalByUse | src/media_interlock/fence/headroom.py:58-69 | For sources with distinct pools the total of a pool is what is still to come into it as a download pool, plus the whole requested size of every live record that has it as a later pool. |
| Headroom.AllowedIff | src/media_interlock/fence/headroom.py:51-82 | The decision without any bookkeeping: allowed exactly when each live record is acceptable and each pool has its minimum, its margin, all that is still to come into it and every whole copy in observed free bytes. |
| Headroom.EachHasRoom | src/media_interlock/fence/headroom.py:51-82 | What a caller sees: when allowed, each download pool of a live record has room for what is still to come, and each later pool for a whole copy of the record, beyond minimum and margin. |
| Headroom.OverflowRefused | src/media_interlock/fence/headroom.py:45-50 | An accumulation refused by the 63-bit guard already refutes the unbounded decision. |
| Headroom.OrderIrrelevant | src/media_interlock/fence/headroom.py:51-82 | The order of the records does not matter. |
| Custody.CustodyLedger.AnnounceTerminal | src/media_interlock/contracts.py:529-532 | Announces once, while Fence is active. |
| Custody.CustodyLedger.ReservePublisher | src/media_interlock/contracts.py:534-537 | Reserves once, only after the announcement. |
| Custody.CustodyLedger.AcceptReceipt | src/media_interlock/contracts.py:539-545 | Releases only on the receipt of the reservation held. |
| Custody.CustodyLedger.Snapshot | src/media_interlock/contracts.py:547-548 | At least one side counts the acquisition at every moment. |
| Custody.TransitionKeepsInv | src/media_interlock/contracts.py:519-548 | Every transition keeps: a reservation follows an announcement, and a release follows a reservation. |
| Custody.ReleaseIsFinal | src/media_interlock/contracts.py:519-548 | After the release no transition changes anything. |
| CustodyHandoff.Refines | src/media_interlock/contracts.py:519-548 | With lost, delayed and repeated messages and crashes, each step of the Fence and Publisher pair is, for each video operation, no step or one step of the contract. |
| CustodyHandoff.PairAlways | src/media_interlock/fence/service.py:897-919 | The pair invariant holds at every point of every run. |
| CustodyHandoff.TerminalIsStable | src/media_interlock/fence/model.py:528-541 | All terminal messages ever sent for an operation are the same message, also across a freeze. |
| CustodyHandoff.CustodyNeverLost | src/media_interlock/fence/model.py:543-557 | A released video acquisition is durably held by the Publisher under the announced identity. |
| CustodyHandoff.ReleaseByReceiptOnly | src/media_interlock/fence/model.py:543-557 | Only a receipt releases a video transfer, and nothing takes a release back. |
| CustodyHandoff.AdoptedFromFence | src/media_interlock/publisher/model.py:66-89 | An adopted terminal, fresh or redelivered, is held under its own reservation and never under a local intake. |
| PublisherMachine.SlotProtocol | src/media_interlock/publisher/service.py:277-322 | Per slot at most one publication is between intent and delivery; the slot shows it or its recorded predecessor, which still exists. |
| PublisherMachine.PointerNeverReturns | src/media_interlock/publisher/generation.py:272-292 | A slot that moved on from a generation never shows it again. |
| PublisherMachine.PointerNeverDangles | src/media_interlock/publisher/generation.py:583-613 | The visible generation always exists. |
| PublisherMachine.CollectionKeeps | src/media_interlock/publisher/service.py:439-452 | Collection removes neither the visible generation, nor an undelivered prepared generation, nor a recorded predecessor. |
| PublisherMachine.InterruptedPublishResumes | src/media_interlock/publisher/service.py:297-322 | Wherever a publish was interrupted, preparing again and swapping completes it. |
| PublisherMachine.IntentAcceptedIff | src/media_interlock/publisher/model.py:173-186 | An intent is accepted exactly when the slot shows nothing or another publication with a version 4 id. |
| PublisherMachine.ClosedForever | src/media_interlock/publisher/model.py:173-186 | In every run, a slot that shows a generation whose id is no version 4 UUID, with no intent open, shows it for ever and never gets another intent. |
| PublisherMachine.ImportCloses | src/media_interlock/publisher/model.py:381-388 | Publishing any verified publication under such an id into a fresh slot is a run that closes the slot. |
| PublisherMachine.HistoricalImportCloses | src/media_interlock/runtime.py:330 | Every import adopted under a version 5 id, as history imports are given, with any slot, item, bundle and owner that adoption accepts, is stored as the record that closes the slot it is the first to be published into. |
| PublisherMachine.LibraryAlways | src/media_interlock/publisher/service.py:277-322 | The library invariant holds at every point of every run. |
| PublisherCatalog.DeliveredWasPlayed | src/media_interlock/publisher/service.py:324-376 | At every point of every run a delivered publication was shown by the catalog under exactly its library, path, type, provider ids and size, and that item was played afterwards as exactly its sealed bytes and digest. |
| PublisherCatalog.SlotKeepsItem | src/media_interlock/publisher/service.py:409-418 | In every run, however often a slot is published again, each publication of it is delivered as the same catalog item as those delivered before. |
| PublisherCatalog.SubmittedAfterAttempt | src/media_interlock/publisher/service.py:349-361 | In every run an update is sent to the catalog only for an operation whose attempt is durable. |
| PublisherCatalog.StepKeepsCatalogInv | src/media_interlock/publisher/service.py:324-376 | Every step keeps what records owe to the exchanges with the catalog, and that all publications of a slot that have an item share it. |
| PublisherModel.PublisherState.AdoptTerminal | src/media_interlock/publisher/model.py:66-89 | Reserves once, answers the same receipt to a redelivery, and raises on a conflict with nothing changed. |
| PublisherModel.PublisherState.Update | src/media_interlock/publisher/model.py:94-259 | Checks each transition and overwrites one publication with its outcome, or raises with nothing changed. |
| PublisherModel.PublisherState.AdoptBootstrap | src/media_interlock/publisher/model.py:119-133 | Stores a new operation as the bootstrap record of exactly this source, media, digest, bundle and asset, sealed; a repetition must match and changes nothing. |
| PublisherModel.PublisherState.RecordAssistedIntent | src/media_interlock/publisher/model.py:135-143 | Stores a new operation as the reserved assisted record of exactly this source, media, size and digest; a repetition must match, and a raise changes nothing. |
| PublisherModel.PublisherState.CompleteAssisted | src/media_interlock/publisher/model.py:145-156 | Only for the recorded digest and size: seals a reserved record with exactly this bundle and asset; a repetition must match and changes nothing. |
| PublisherModel.StepKeepsCustody | src/media_interlock/publisher/model.py:94-259 | No transition changes what custody was taken for. |
| PublisherModel.PublisherState.FromRecords | src/media_interlock/publisher/model.py:260-346 | The loading loop accepts exactly records that all pass their checks under distinct ids, and builds their table in order. |
| PublisherModel.PublisherState.Clone | src/media_interlock/publisher/model.py:348-349 | A working copy is the same table, and is made exactly when every publication can be read back. |
| PublisherReload.StepLoadsIff | src/media_interlock/publisher/model.py:94-258 | Per transition: the result of a readable publication can be read back exactly under the stated condition on the record and the arguments. |
| PublisherReload.SealedLoadsIff | src/media_interlock/publisher/model.py:119-136 | A sealed import can be read back exactly when its bundle lists its payload with the same size and digest and its other members are sound. |
| PublisherReload.TerminalLoadsIff | src/media_interlock/publisher/model.py:66-91 | A new reservation can be read back exactly when the fields of its terminal are filled. |
| PublisherReload.MislistedBundleStrands | src/media_interlock/publisher/model.py:100-111 | For every payload, a bundle listing it with another size is accepted, after which no working copy of the table can be made. |
| PublisherReload.LibraryStepLoadsIff | src/media_interlock/publisher/model.py:260-349 | From a readable table each step of the library leads to a readable one exactly when its durable write can be read back. |
| PublisherReload.RunReadsBack | src/media_interlock/publisher/model.py:260-349 | Along a run of such steps the table read back at any interruption is the table that was written. |
| PublisherDriver.PublisherService.AcceptTerminal | src/media_interlock/publisher/service.py:115-120 | A receipt is answered only for a durable reservation of exactly that terminal. |
| PublisherDriver.PublisherService.CommitAssetGeneration | src/media_interlock/publisher/service.py:277-286 | Records the durable intent before publishing; success means the generation is committed and visible. |
| PublisherDriver.PublisherService.FinishAssetGeneration | src/media_interlock/publisher/service.py:297-322 | Success means the generation is committed and visible. |
| PublisherDriver.PublisherService.Publish | src/media_interlock/publisher/generation.py:230-302 | The pointer stays, or moves from the recorded predecessor to this complete generation; no generation is lost and no other slot touched. |
| PublisherDriver.PublisherService.AssetHasUnresolvedOperation | src/media_interlock/publisher/service.py:288-295 | Answers exactly whether another publication of the slot is undelivered. |
| PublisherDriver.PublisherService.ObserveAndDeliverAsset | src/media_interlock/publisher/service.py:324-376 | Success means delivered, with the catalog's last two answers of this very call showing the item for exactly this publication and playing it as the sealed payload; an update is submitted only after its attempt is durable, and no other publication changes. |
| PublisherDriver.PublisherService.KnownItem | src/media_interlock/publisher/service.py:409-418 | Answers exactly the items that other publications of the slot were delivered as. |
| PublisherDriver.PublisherService.GarbageCollectAssets | src/media_interlock/publisher/service.py:439-452 | Moves no pointer and touches no unknown slot; success leaves in each known slot exactly the visible generation and what an undelivered publication still needs. |
| PublisherDriver.AssetGenerations.VisibleGeneration | src/media_interlock/publisher/generation.py:583-613 | Answers the generation of the pointer, and never one that is gone. |
| PublisherDriver.AssetGenerations.SwapPointer | src/media_interlock/publisher/generation.py:272-292 | Exchanges the pointer only while it shows the expected predecessor; a failure may come after the exchange. |
| ReconcilerMachine.GrabAtMostOnce | src/media_interlock/reconciler/service.py:62-126 | Across restarts, lost replies and any mix of calls, the grab request of an operation is sent at most once. |
| ReconcilerMachine.GrabIsBacked | src/media_interlock/reconciler/service.py:136-207 | When a grab request is sent and ever after, Fence holds a reservation with the same source, media id, fingerprint, size and watermark. |
| ReconcilerMachine.ClosedOnlyBound | src/media_interlock/reconciler/service.py:112-125 | In every run an intent is closed as completed, in memory or in the store, only if Arr showed a grab for it and Fence holds the operation bound to just that download and torrent, then and ever after. |
| ReconcilerMachine.DeskStepKeepsInv | src/media_interlock/reconciler/service.py:46-126 | Every step keeps the reconciler invariant, memory ahead of the store included. |
| ReconcilerMachine.FenceKeepsRequests | src/media_interlock/fence/model.py:430-557 | No Fence transition forgets a reservation or changes what it was requested for. |
| ReconcilerModel.ReconciliationState.RecordIntent | src/media_interlock/reconciler/model.py:95-106 | Records an intent once and refuses a conflicting one. |
| ReconcilerModel.ReconciliationState.RecordGrabIntent | src/media_interlock/reconciler/model.py:117-127 | Records a grab once, only for its own search. |
| ReconcilerModel.ReconciliationState.MarkGrabAttempted | src/media_interlock/reconciler/model.py:132-135 | Marks an attempt only for a recorded grab. |
| ReconcilerModel.ReconciliationState.MarkObserved | src/media_interlock/reconciler/model.py:151-160 | Closes an intent and counts the attempt. |
| ReconcilerModel.ReconciliationState.Eligible | src/media_interlock/reconciler/model.py:140-149 | Eligible exactly when the item is not uncertain and the call is forced, or attempts are left and the cooldown since the last one is over. |
| ReconcilerModel.RecordingKeepsUncertain | src/media_interlock/reconciler/model.py:95-138 | Recording intents, grabs and attempts keeps every item with an open search uncertain, so not eligible. |
| ReconcilerModel.ClosingKeepsUncertainIff | src/media_interlock/reconciler/model.py:151-160 | Closing one search keeps that exactly when its item has no other open search. |
| ReconcilerDriver.ReconcilerService.RequestOnce | src/media_interlock/reconciler/service.py:98-113 | Sends at most one request, only for an attempt not remembered before, after admission and a durable attempt. |
| ReconcilerDriver.ReconcilerService.RecoverIntent | src/media_interlock/reconciler/service.py:62-126 | Extends a legal run; at most one request, none for a remembered attempt; bound means that Arr showed a grab, that Fence holds the operation bound to it, and that the closing is durable. |
| ReconcilerDriver.ReconcilerService.Execute | src/media_interlock/reconciler/service.py:136-207 | The same for a fresh execution: bound only for a grab that Arr showed and Fence holds bound. |
| ReconcilerDriver.ReconcilerService.ExecuteSelected | src/media_interlock/reconciler/service.py:209-248 | The same for an already selected release. |
| ReconcilerDriver.ReconcilerService.Recover | src/media_interlock/reconciler/service.py:128-134 | Resumes every open intent and sends nothing for attempts remembered before. |
| MusicHandshake.VerdictExactlyOnce | src/media_interlock/reconciler/music.py:429-446 | Under redelivery and crashes a verdict changes its album at most once, and is acknowledged only when the change is durable. |
| MusicHandshake.RejectedNeverActive | src/media_interlock/reconciler/music.py:114-165 | What was durably rejected for an album is never its active release again, in memory or in the store. |
| MusicHandshake.DeskReloads | src/media_interlock/reconciler/music.py:297-395 | Along a run whose changes meet that condition, memory and store can be read back wherever the run is cut. |
| MusicHandshake.DeskStepKeepsInv | src/media_interlock/runtime.py:516-534 | Every delivery, save, acknowledgement and restart keeps the handshake invariant. |
| MusicHandshake.MusicScheduler.ApplyFenceInvalidation | src/media_interlock/reconciler/music.py:429-446 | True is answered only after the applied verdict is durable. |
| MusicHandshake.MusicScheduler.HandleInvalidation | src/media_interlock/runtime.py:518-534 | A verdict is acknowledged only after it is durable. |
| MusicHandshake.MusicScheduler.Run | src/media_interlock/reconciler/music.py:448-525 | The recovered candidates are exactly the active ones that are still missing, or all active ones without an answer; of the others exactly those with a known import are given up; each searched album is missing, monitored and was due, and none that was due is left unless a limit is reached; grabs stay within their limit beyond what was recovered, searches within theirs, and every hour or day window that the log still covers within its maximum, whatever the clock. |
| MusicHandshake.MusicScheduler.Allowed | src/media_interlock/reconciler/music.py:497-501 | Keeps exactly the releases not rejected for the album. |
| MusicSchedule.MusicScheduleState.ApplyFenceInvalidation | src/media_interlock/reconciler/music.py:234-283 | Changes the album only for a new verdict that names the active candidate. |
| MusicSchedule.MusicScheduleState.StartCandidate | src/media_interlock/reconciler/music.py:120-165 | Starts a candidate as specified, and never a rejected one. |
| MusicSchedule.MusicScheduleState.Due | src/media_interlock/reconciler/music.py:77-103 | Answers exactly whether the album is due, cooldown included, and raises exactly where the source does; a running candidate always blocks. |
| MusicSchedule.DueAsUpgrade | src/media_interlock/reconciler/music.py:77-103 | Between cycles an album is due exactly when it is not finished and the upgrade schedule would search an entity with the same release time and history, minimum age, cooldown, attempts and final search included; a cycle begun goes on at any age while it has candidates left. |
| MusicSchedule.MusicScheduleState.ConfirmImported | src/media_interlock/reconciler/music.py:183-194 | Clears the active candidate of an imported album. |
| MusicSchedule.MusicScheduleState.CompleteCycle | src/media_interlock/reconciler/music.py:105-112 | Closes a cycle as specified. |
| MusicSchedule.ChangeRemembers | src/media_interlock/reconciler/music.py:196-283 | No change forgets a rejection or an applied verdict, or makes a rejected release active. |
| MusicSchedule.VerdictIsRemembered | src/media_interlock/reconciler/music.py:234-283 | An applied verdict is remembered and a remembered one changes nothing. |
| MusicSchedule.VerdictReloadsIff | src/media_interlock/reconciler/music.py:330-395 | A verdict keeps its album reloadable exactly when it does not close the cycle before the release time. |
| MusicSchedule.ChangeReloadsIff | src/media_interlock/reconciler/music.py:297-395 | For every change of a readable schedule, not only verdicts: the result can be read back exactly under the stated condition, such as a release with well-formed hashes or a cycle that closes no sooner than its release. |
| SearchBudget.AnyWindowBounded | src/media_interlock/reconciler/music.py:285-295 | When each search was allowed by the searches before it, no window of that width ever holds more than the maximum, in whatever order the clock stamped them. |
| SearchBudget.LogExactIff | src/media_interlock/reconciler/scheduler.py:244-254 | For every history in any clock order, the pruned log counts exactly what the history holds after a cutoff if and only if none of it was a day old when a later search was recorded. |
| SearchBudget.ExactWhileNotFarBehind | src/media_interlock/reconciler/music.py:285-295 | The hour count is exact while the clock is at most 23 hours behind the latest recorded search, the day count while it is not behind at all. |
| SearchBudget.LogCountsNoMore | src/media_interlock/reconciler/scheduler.py:251-254 | The pruned log never counts more than the history. |
| SearchBudget.OrderedLog | src/media_interlock/reconciler/scheduler.py:244-249 | Under a non-decreasing clock the log is the whole history pruned once. |
| SearchBudget.BudgetLog.WithinBudget | src/media_interlock/reconciler/music.py:290-295 | Under any clock the pruned log is never stricter than the full search history, and decides the same for each window that it still covers. |
| SearchBudget.BudgetLog.RecordEvent | src/media_interlock/reconciler/scheduler.py:244-249 | Keeps the log what the history of searches leaves after each pruned to the day before itself, under any clock. |
| SearchBudget.BudgetLog.Search | src/media_interlock/reconciler/music.py:483-498 | Under any clock a search is made only within the logged budget; while the log covers the window before it, every window of that width stays within its maximum. |
| SearchBudget.ClockStepBackForgets | src/media_interlock/reconciler/scheduler.py:244-254 | Concrete log: when the clock steps back by more than 23 hours, the hour count misses an earlier search. |
| FairOrder.Order | src/media_interlock/reconciler/scheduler.py:224-239 | Terminates with a permutation of its input in which every entity comes in its turn: of the scopes with work left it is from one with the fewest turns so far, the first of those counted from the cursor on. Each scope keeps its order, and in every prefix no scope is more than one ahead of a scope that still has work. |
| FairOrder.Group | src/media_interlock/reconciler/scheduler.py:226-231 | Groups the input by scope without losing or reordering anything, the scopes in the order of their first entity. |
| FairOrder.CursorLeads | src/media_interlock/reconciler/scheduler.py:219-239 | The first entity belongs to the scope at the place of the cursor, so over as many successive cursors as there are scopes each leads once. |
| FairOrder.NextCursor | src/media_interlock/reconciler/scheduler.py:219-222 | The cursor, even a loaded one of any size, moves by one and wraps below 2^31 - 1. |
| UpgradeRuns.SearchesBounded | src/media_interlock/reconciler/scheduler.py:113-176 | In every run, of the completed searches since the entity last had another generation, those that no replacement forced and that were begun before the horizon are at most the allowed attempts, and those begun after it at most one. |
| UpgradeRuns.SearchesSpaced | src/media_interlock/reconciler/scheduler.py:141-147 | In every run, failed searches and their retries included, a search before the horizon that no replacement forces begins no sooner after the last completed one than the cooldown of the whole streak. |
| UpgradeRuns.FinalSearchOnce | src/media_interlock/reconciler/scheduler.py:132-138 | After the horizon a search that no replacement forces begins only when the final search is allowed and no completed search of the streak, forced or not, was begun after the horizon. |
| UpgradeRuns.StepKeepsInv | src/media_interlock/reconciler/scheduler.py:436-510 | Beginning, completing, abandoning and failing a search, finding a candidate dead and the passing of time keep what checkpoints, open searches and retries mean. |
| UpgradeSchedule.BeyondHorizonSame | src/media_interlock/reconciler/scheduler.py:84-90 | Replacing an overflowing cooldown by one just beyond the horizon is unobservable: any two such cooldowns lead to the same decisions at every time. |
| UpgradeSchedule.CooldownGrows | src/media_interlock/reconciler/scheduler.py:78-93 | Cooldowns never shrink with the number of searches, as far as the horizon lets them matter, overflow included. |
| UpgradeSchedule.FailurePostponesBriefly | src/media_interlock/reconciler/scheduler.py:178-194 | A transient failure postpones a due entity, and until the horizon for at most the maximum. |
| UpgradeSchedule.OthersUntouched | src/media_interlock/reconciler/scheduler.py:451-471 | What is recorded for one entity changes no decision about another, so an order of due entities computed once stays valid for the whole run. |
| UpgradeSchedule.EnoughFailuresRaise | src/media_interlock/reconciler/scheduler.py:207-214 | With a multiplier above one, after some number of failures every further failure of a replacement overflows, whatever its maximum delay. |
| UpgradeSchedule.FailureRaisesIff | src/media_interlock/reconciler/scheduler.py:178-214 | Recording a failure raises exactly when the entity has a replacement whose next delay overflows. |
| UpgradeSchedule.ScheduleState.NextSearchAt | src/media_interlock/reconciler/scheduler.py:113-147 | Decides as the specification that the run results are about. |
| UpgradeSchedule.ScheduleState.RecordCompleted | src/media_interlock/reconciler/scheduler.py:153-176 | Replaces the checkpoint and forgets retry and replacement of the entity, or raises with nothing changed. |
| UpgradeSchedule.ScheduleState.RecordTransientFailure | src/media_interlock/reconciler/scheduler.py:178-194 | Postpones the replacement if there is one, else the retry; raises with nothing changed. |
| UpgradeSchedule.ScheduleState.RecordCandidateInvalidated | src/media_interlock/reconciler/scheduler.py:196-202 | Records a replacement once; an invalid event raises with nothing changed. |

## Left out

- FenceDriver.FenceService.BindGrab: v1 adoptions, which the source does not refuse there, are excluded; says what a success means and bounds every effect, but promises no progress, because any answer of qBittorrent may be missing.
- FenceDriver.FenceService.Observe: raises where the source raises on a malformed terminal; which reservations have one is not derived from admission.
- FenceIntake.IntakeLosesNothing: assumes that new history records have higher ids than all earlier ones and that sizes are stable; without the latter `FenceIntake.UnstableSizeReservesAgain` applies.
- FenceModel.FenceState.FromSnapshot: table records arrive already typed, keyed by operation and in no order; field types, unknown fields and legacy shapes are not modelled.
- CustodyHandoff.CustodyNeverLost: a video operation given up as invalidated is outside the handoff and is not counted as held.
- PublisherDriver.PublisherService.Publish: copying, sealing, routes, modes and catalog files are one nondeterministic preparation; the legacy slot pointer and its migration are not modelled, and slots start empty.
- PublisherDriver.PublisherService.ObserveAndDeliverAsset: which item the catalog shows and whether it plays are arbitrary answers, except that an item shown where one is known is that one, as the adapter filters (src/media_interlock/adapters/jellyfin.py:166-202); its paging is not modelled.
- PublisherDriver.PublisherService.GarbageCollectAssets: directories with unsafe names, which make the source raise, are not modelled.
- PublisherModel.PublisherState.AdoptBootstrap: inspection evidence and member inodes of a bundle are reduced to paths, sizes and digests.
- ReconcilerDriver.ReconcilerService.Recover: the selection and ranking of releases is an arbitrary answer of the adapter.
- MusicHandshake.MusicScheduler.Run: albums are searched in the order given, which the source sorts by release time and id; what is proved holds for every order. The outcome of executing a release is arbitrary.
- MusicSchedule.MusicScheduleState.Due: rounding of the cooldown, which the source computes in floating point, is not modelled, only its overflow.
- FenceMachine.CommitKeepsOwnerInv: the machine completes a transfer only under its tag; `FenceService.complete` (src/media_interlock/fence/service.py:980-984) completes without any observation, is called from nowhere, and is not modelled.
- FenceDriver.FenceService.PollVideoCandidateHealth: whether Arr confirms a rejection is arbitrary, and one that it does not confirm leaves no trace; the poll raises where the source leaves it by an exception.
- PublisherReload.StepLoadsIff: evidence of the inspection, allocation, inode and time of bundle members, unknown fields and field types are not modelled.
- Reload of reconciliation intents and of the video upgrade schedule: a working copy is exact or fails.
- The polling loop that judges music candidates: only the transitions it uses and the release of a dead candidate are modelled.
- The admission halves of the two deployment-authorised adoptions in the service: their ledger transitions and the claim that follows are modelled.
- UpgradeRuns.SearchesBounded: entities of one source under one policy; a completed search is one whose completion was recorded, so a search lost in a crash is not counted; rounding of float products is not modelled, only their overflow.
- The loop of the video upgrade scheduler: its order, budgets, decisions and records are modelled, its counters are not.
- Unicode digits: decimal texts are ASCII digits only.
- Interleaving of threads inside one owner: the code has no lock there and the single-writer contract is modelled instead.
- Liveness of publication.
- HTTP, authentication, paging of responses, JSON, framing, SQLite, file locks, configuration, command line, observability and readiness probes.
