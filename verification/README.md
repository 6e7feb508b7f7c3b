# Firmflow rollout engine: a verified model

Firmflow delivers firmware to fleets of devices. This project models its rollout engine and the state
that engine rests on, in Dafny, and proves what each part promises.

**The rollout engine, at two grains.** A campaign has a lifecycle and one assignment per targeted device.
Polls, binary-protocol reports, HTTP version reports, operators and a scheduler all change these rows,
mostly as sequences of single guarded updates. `Machine` and `System` model the engine as the database
sees it: any number of operations in flight, each a program counter carrying what it has read so far,
one repository call per step, beside a monotone clock and the rest of the product. `Evolution` is the
relation every write keeps, whoever issues it; arguments about stale reads rest on it alone.
`CampaignOps` gives the service operations as wholes and proves each to be the uninterrupted run of its
machine counterpart, token issue and redemption included; `Refinement` turns every history of whole
operations into an interleaved run.

* Under every interleaving: completed campaigns are finished (`CompletionSafety`), a served firmware is
  traced back to the campaign, the device and its type (`Provenance`), a download token is redeemed
  exactly once (`Redemption`), assignments only climb (`AssignmentHistory`), statuses follow the documented
  state machine (`Lifecycle`), and the status counts always sum to the target (`Conservation`).
* For whole operations: completion is exact, inactive campaigns are frozen, terminal statuses absorb
  (`ServiceLaws`), a repeated report changes nothing (`ReportLaws`), polls serve a queue (`PollQueue`).
* For the three laws of `ServiceLaws`, and the law that deleted projects keep no unfinished
  campaign, it is proved for every run exactly when interleaving breaks them. An assignment is rewritten if and
  only if one of three named writes meets its guard, a terminal status is lost if and only if a version report
  forces a failure, and a deleted project gains a campaign if and only if a creation inserts it after the
  deletion (`Interference`). A finished campaign with a live firmware row is left uncompleted if and only if
  the last attempt to complete it met it paused or cancelled (`Stranding`). `Races` exhibits runs in which
  these happen, and a finished campaign left active by whole operations because its firmware row was deleted.

**What each operation comes to.** The operations are compositions of queries, guards and writes, and the laws above
speak through those. `RolloutEffects`, `SessionEffects`, `AccessEffects` and `OwnershipEffects` describe each whole
operation a second time, by the columns of the tables and the octets on the wire alone, and prove the two descriptions
equal on all inputs: which devices a percentage rollout reaches, what a status octet of a report stores, which reply a
poll or a login gets, who may change which membership.

**The code in its own form.** `Repositories` is a class whose fields are the tables and whose methods change
them in place; `CampaignService`, `Downloads`, `Handler`, `Projects`, `Ownership` and `Bulk` hold the service
classes. Each method is proved to leave exactly the tables, and to return exactly the result, of the function
whose laws are proved, through its loops, early returns and error order.

**The binary protocol.** `Frames` and `Payloads` model the codecs over octet buffers; `Session` and `Handler`
model one connection, with arbitrary changes to the tables between two frames; `Announcements` ties what a
device decodes from a poll reply to the token that opens the announced firmware. `SessionRuns` shows that serving
connections is part of the engine: the tables a connection leaves are those of a run. `Silence` exhibits the
one way a frame goes unanswered, with its exact condition.

**Supporting state.** `DeviceTokens` (session token chains), `Projects` (archive and delete gating),
`LateGates` (when overlapping archivings, deletions and registrations leave a device out of step with its project),
`Ownership` (owners and roles, and when overlapping removals lose the last owner or overlapping role deletions leave
a dead role in use), `Bulk` (bulk device operations).

Conventions: a UUID is the 128-bit number its octets spell, and generated ids are never the nil one; a Go string or byte slice is a sequence of octets;
the clock counts nanoseconds; a nullable column is an `Option`; a map iteration or an unordered query yields
some order of a set. Hashing, trimming, UTF-8 repair, case folding, fresh ids and random secrets are parameters.

Where code and documentation disagree the model follows the code: the frame reader accepts any flags octet
although `docs/device-tcp-protocol.md` says it must be 0 (`Frames.FlagsAreIgnored`). The poll response encoder
would append every field even with its flag down, which the documented layout does not allow
(`Payloads.OnlyAvailableResponsesFollowTheDocument`), but its only caller always raises the flag, so no such
response is ever sent.

`dafny verify dfyconfig.toml` checks the whole project. Nothing of the original program was executed.

## Model

| member | source | states |
|---|---|---|
| Selection.TextOrderIsByteOrder | internal/domain/campaign/service/selection.go:9-13 | comparing UUID texts, comparing their octets and comparing the numbers are one order, both directions |
| Selection.SortUuids | internal/domain/campaign/service/selection.go:9-13 | the sorted copy is the one ascending permutation of the ids |
| Selection.AscendingIsUnique | internal/domain/campaign/service/selection.go:9-13 | two ascending lists with the same elements are equal, so the sort algorithm does not matter |
| Selection.TakeStablePercentage | internal/domain/campaign/service/selection.go:17-37 | the copied buffer is the stable prefix for the clamped percentage, empty input included |
| Selection.StableCountIsExactCeiling | internal/domain/campaign/service/selection.go:27-33 | for 1..100 percent of n > 0 devices the count is the least k with 100k >= n*p, and 1 <= k <= n |
| Selection.SelectionIsStableAndNested | internal/domain/campaign/service/selection.go:15-37 | the chosen subset is the same for every listing order, and a larger percentage extends it as a prefix |
| Selection.ChosenComeFirst | internal/domain/campaign/service/selection.go:15-37 | every device left out comes after every chosen one in UUID-text order |
| CampaignState.LeadsToIsPathExistence | internal/domain/campaign/model/state.go:40-58 | the closed form of reachability holds exactly when a path of allowed transitions connects two statuses |
| System.EveryWriteGuarantees | internal/domain/campaign/repository/repository.go:148-328 | every write of every operation, on any tables and however stale its decision, moves campaigns along the lifecycle and assignments upward and keeps all identity columns |
| System.TraceEvolves | internal/domain/campaign/repository/repository.go:148-328 | along any run every earlier value of the tables evolves into every later one |
| CompletionSafety.AllTerminalIsStable | internal/domain/campaign/service/service.go:383-388 | a campaign seen finished stays finished whatever happens before the stale reader acts |
| CompletionSafety.CompletedMeansFinished | internal/domain/campaign/service/service.go:375-391 | in every state reachable by interleaved operations a completed campaign has only installed and failed assignments |
| Provenance.FilterIsSound | internal/domain/device/repository/campaign_scope.go:40-53 | what creation chooses out of its scope reads are devices of the project whose type the firmware supports |
| Provenance.ServedFirmwareIsTheCampaigns | internal/domain/firmware/service/ota_download.go:57-95 | whenever a download serves a firmware it is the one of the token's campaign, in the device's project, for the device's type, and at an earlier point of the run the device's assignment was offered |
| Redemption.ConsumedExactlyOnce | internal/domain/device/repository/ota_download_token.go:55-67 | under any interleaving of downloads a token is consumed if and only if exactly one operation redeemed it |
| Redemption.RedemptionWasLegitimate | internal/domain/device/repository/ota_download_token.go:27-74 | every redemption is four events of its own operation, in order: it began at its clock reading, then read the token unspent and unexpired, then found that device in the project and unblocked, then took the token from unspent to spent |
| Redemption.ConsumedForever | internal/domain/device/repository/ota_download_token.go:55-67 | a consumed token is never usable again, at any later point of the run |
| AssignmentHistory.AtMostFourChangesEach | internal/domain/campaign/repository/ota_report.go:64-86 | in any run a campaign with n targets sees at most 4n effective status changes |
| AssignmentHistory.InstalledWasOffered | internal/domain/campaign/service/service.go:394-414 | an installed assignment was offered at some earlier point of the run |
| AssignmentHistory.OnlyForcingLeavesFailed | internal/domain/campaign/repository/repository.go:164-178 | the only write that can leave `failed` is the unguarded one of the version report, and it leads to `installed` |
| Interference.RowChangesExactly | internal/domain/campaign/repository/ota_report.go:34-86 | in any state an event changes an assignment if and only if it runs a poll's offer, a report's write or a version report's write on that row and its guard holds |
| Interference.FailureIsLeftExactlyByForcing | internal/domain/campaign/repository/repository.go:164-178 | a failed assignment stops being failed if and only if the event is a version report's unguarded write to it |
| Interference.TerminalStatusIsKeptExactly | internal/domain/campaign/service/service.go:417-445 | between any two points of any run a terminal status is kept, except exactly when it was failed and a version report forced it in between |
| Interference.RowIsFrozenExactly | internal/domain/campaign/repository/ota_report.go:34-86 | a row is the same at every point of a stretch of a run if and only if none of the three writes hits it there |
| Interference.WritersSawActive | internal/domain/campaign/repository/ota_report.go:34-62 | whoever is about to write an assignment read its campaign as active at an earlier point of the run |
| Lifecycle.StatusesFollowTheLifecycle | internal/domain/campaign/model/state.go:40-58 | the status history of every campaign of every run is a path of the documented state machine, though no operation consults it |
| Lifecycle.EndStatesAbsorb | internal/domain/campaign/repository/repository.go:253-328 | a completed or cancelled campaign keeps that status for the rest of any run |
| Lifecycle.RunsAreTimely | internal/domain/campaign/service/service.go:220-241 | in every reachable state scheduled implies a start and no activation, completed_at and cancelled_at are set exactly in those states, and activation is never before the scheduled start |
| Lifecycle.NeverActiveEarly | internal/domain/campaign/repository/repository.go:213-240 | no campaign is active before its scheduled start |
| Lifecycle.TickActivatesExactlyTheDue | internal/domain/campaign/repository/repository.go:213-240 | one tick activates exactly the due scheduled campaigns, leaves none due, and a second tick changes nothing |
| Conservation.BundleIsCounted | internal/domain/campaign/repository/repository.go:47-67 | the inserted assignments are one per chosen device, as many as the target count says |
| Conservation.ProgressIsConserved | internal/domain/campaign/service/service.go:308-325 | in every reachable state the five counts sum to the target, 0 <= success <= completion <= 100, and completion is 100 exactly when all assignments are terminal |
| Conservation.CompletionNeverDecreases | internal/domain/campaign/service/service.go:308-325 | along any run the completion percentage of a campaign never decreases |
| CampaignOps.RunsToIsDeterministic | internal/domain/campaign/service/service.go:375-445 | an operation left alone has exactly one result |
| CampaignOps.IssueAlone | internal/domain/firmware/service/ota_download.go:23-54 | issuing a token as a whole is the uninterrupted run of the two issuing steps, both refusals included |
| CampaignOps.PollAlone | internal/domain/campaign/service/service.go:394-414 | the whole poll, with or without a token to issue, is the uninterrupted run of the poll operation, with its outcome |
| CampaignOps.RedeemAlone | internal/domain/device/repository/ota_download_token.go:27-74 | redeeming a hash as a whole is the uninterrupted run of the download operation, with its outcome |
| CampaignOps.ReportAlone | internal/domain/campaign/service/ota_report.go:25-77 | the whole report is the uninterrupted run of the report operation, early returns included |
| CampaignOps.TrimmingStoredVersions | internal/domain/campaign/service/ota_report.go:49-60 | where versions are stored trimmed, trimming them again when a report reads them changes nothing |
| CampaignOps.VersionReportAlone | internal/domain/campaign/service/service.go:417-445 | the whole version report is the uninterrupted run of its operation |
| CampaignOps.CreateAlone | internal/domain/campaign/service/service.go:127-253 | the whole creation is the uninterrupted run of the creation operation, through all its checks and scope reads |
| Refinement.HistoriesAreRuns | internal/domain/campaign/service/service.go:127-445 | every history of whole operations, token issues and redemptions among them, is reproduced by an interleaved run ending in the same tables |
| RolloutEffects.CreationEffect | internal/domain/campaign/service/service.go:127-253 | a creation changes the tables if and only if every check holds; it then stores the campaign as asked and one pending assignment per device reached: every compatible device in scope, or for p percent of n the least k with 100k >= n*p, smaller ids first |
| RolloutEffects.PollEffect | internal/domain/campaign/service/service.go:394-414 | a poll finds nothing exactly when no active campaign with live firmware has the device pending or offered; else it offers the first by creation and id, pending ones before offered, and writes that one status only |
| RolloutEffects.CompletionEffect | internal/domain/campaign/service/service.go:375-391 | a completion attempt sets status and completed_at exactly when the campaign is active, has targets and all are installed or failed |
| RolloutEffects.ReportEffect | internal/domain/campaign/service/ota_report.go:25-77 | a report rewrites its row exactly when the campaign of the project is active and the status fits, an installed one also the version of the device; the campaign is completed if that finished it, unless the report had to stop |
| RolloutEffects.VersionReportEffect | internal/domain/campaign/service/service.go:417-445 | a version report installs the first update the device is in the middle of, if and only if it names its version, and completes the campaign if that finished it |
| RolloutEffects.OperatorEffects | internal/domain/campaign/repository/repository.go:253-328 | pause, resume and cancel by status and timestamp; resuming undoes pausing |
| RolloutEffects.TickEffect | internal/domain/campaign/repository/repository.go:213-240 | a tick activates each scheduled campaign whose start is not after now, and touches no other column or row |
| RolloutEffects.ProgressIsRight | internal/domain/campaign/service/service.go:308-325 | each of the five counts is of the assignments with its own status, and the percentages times the target are a hundred times the counts |
| RolloutEffects.IssueEffect | internal/domain/firmware/service/ota_download.go:23-54 | a token is stored exactly for live firmware of the project under a new hash, with its expiry |
| RolloutEffects.RedemptionEffect | internal/domain/device/repository/ota_download_token.go:27-74 | redeeming spends exactly the unspent, unexpired tokens of unblocked devices, and serves the firmware if its row is live |
| ServiceLaws.InactiveCampaignsAreFrozen | internal/domain/campaign/repository/ota_report.go:34-62 | no whole operation changes an assignment of a campaign that is not active |
| ServiceLaws.TerminalStatusesAbsorb | internal/domain/campaign/repository/ota_report.go:64-86 | an installed or failed assignment keeps its status under every whole operation |
| ServiceLaws.PollNeverCompletes | internal/domain/campaign/service/service.go:399-407 | the completion attempt inside a poll is a no-op |
| ServiceLaws.CompletedExactlyWhenFinished | internal/domain/campaign/service/ota_report.go:42-75 | after any history of whole operations a campaign with a live firmware row is completed if and only if all its assignments are terminal |
| ReportLaws.RepeatedReportChangesNothing | internal/domain/campaign/service/ota_report.go:25-77 | sending the same report again, at any later time, changes no campaign and no assignment |
| ReportLaws.FinishingReportCompletesExactly | internal/domain/campaign/service/ota_report.go:42-75 | a report that finishes the last device completes the campaign exactly when it is not an `installed` one about a firmware whose row is gone |
| PollQueue.QueueLaw | internal/domain/campaign/repository/repository.go:189-211 | m pending updates are the replies to a device's first m polls in (created_at, id) order; each later poll gets the oldest open offer |
| PollQueue.NewRepliesComeInOrder | internal/domain/campaign/repository/repository.go:189-211 | of two polls that each announce something new, the earlier one announces the campaign with the earlier created_at, or the smaller id at the same instant |
| PollQueue.DrainedPollsChangeNothing | internal/domain/campaign/service/service.go:394-414 | polls never change a campaign, and once the queue is drained they change nothing |
| PollQueue.QueueExists | internal/domain/campaign/repository/repository.go:189-211 | every device in every state has such a queue |
| Interference.BlockingAppearsExactlyByInsertion | internal/domain/campaign/service/service.go:127-253 | at any point of any run at which a project has no unfinished campaign, an event gives it one if and only if the event is a creation's insert for that project and the bundle fits |
| Interference.DeletedProjectsStayOverExactly | internal/domain/rbac/repository/project_queries.go:114-139 | a deleted project never has an unfinished campaign in a run if and only if no creation inserts one after the deletion |
| Interference.DeletionIsClean | internal/domain/rbac/repository/project_queries.go:114-139 | the deletion transaction buries a project only when nothing unfinished is in it, and unburies none |
| Races.StaleVersionReportOverwritesFailure | internal/domain/campaign/service/service.go:439-445 | a concrete run in which a stale version report turns failed into installed in a completed campaign |
| Stranding.FinishedIsCompletedExactly | internal/domain/campaign/service/service.go:375-391 | at any point of any run with nothing under way, a campaign is completed if and only if the last attempt on it met it finished and active, or completed already |
| Stranding.StrandedExactly | internal/domain/campaign/service/service.go:375-391 | at any such point a finished campaign with a live firmware row is not completed if and only if the last attempt to complete it met it finished but paused or cancelled |
| Stranding.OwedUntilAttempted | internal/domain/campaign/service/ota_report.go:42-75 | at any point of any run, for a finished campaign with a live firmware row, an operation under way still owes an attempt to complete it or an attempt on it finished has been made |
| Stranding.FinishedMeansStarted | internal/domain/campaign/repository/ota_report.go:34-62 | a campaign all of whose assignments are finished is active, paused, completed or cancelled |
| Races.FinishedWhilePaused | internal/domain/campaign/service/service.go:327-391 | a concrete run, with nothing left under way and a live firmware row, in which a campaign paused between a report's write and its completion attempt and then resumed stays active with every device finished |
| Races.FinishedButNotCompleted | internal/domain/campaign/service/ota_report.go:49-60 | a concrete history that leaves a campaign active with every device finished, its firmware row having been deleted |
| Races.ProjectDeletedDuringCreation | internal/domain/campaign/service/service.go:131-133 | a concrete run that leaves an active campaign in a deleted project |
| Repositories.Repository.CreateCampaignBundle | internal/domain/campaign/repository/repository.go:21-70 | the transaction succeeds exactly when no key repeats or exists, and inserts the campaign with one pending row per device, else changes nothing |
| Repositories.InsertInBatches | internal/domain/campaign/repository/repository.go:47-67 | inserting 200 rows at a time succeeds exactly when the whole list fits, and adds exactly one row per device |
| Repositories.RowsFitConcat | internal/domain/campaign/repository/repository.go:47-67 | a list can be inserted at once exactly when its front can and then its back can |
| Repositories.Repository.FindActivePendingOffer | internal/domain/campaign/repository/repository.go:189-211 | the first row of the ordered join is the oldest pending offer, or without one the oldest offered |
| Repositories.FirstOfferIsFindOffer | internal/domain/campaign/repository/repository.go:200-204 | the CASE ordering is the two-stage search |
| Repositories.Repository.FindOldestInFlight | internal/domain/campaign/service/service.go:417-431 | the first row is the oldest campaign the device has been offered or has downloaded |
| Repositories.Repository.ActivateDueScheduledCampaigns | internal/domain/campaign/repository/repository.go:213-240 | pluck then update activates exactly the due campaigns and returns their ids, each once |
| Repositories.Repository.MarkCampaignCompleted | internal/domain/campaign/repository/repository.go:253-269 | the guarded update of completion and whether it found its row |
| Repositories.Repository.PauseCampaign | internal/domain/campaign/repository/repository.go:271-287 | the guarded update and whether it found its row |
| Repositories.Repository.ResumeCampaign | internal/domain/campaign/repository/repository.go:289-305 | the guarded update, clearing paused_at |
| Repositories.Repository.CancelCampaign | internal/domain/campaign/repository/repository.go:307-328 | the guarded update from the four cancellable statuses |
| Repositories.Repository.CountAssignmentsByStatus | internal/domain/campaign/repository/repository.go:119-138 | exactly the statuses that occur, each with the number of its assignments |
| Repositories.Repository.UpdateAssignmentStatus | internal/domain/campaign/repository/repository.go:148-162 | the update guarded by the expected status |
| Repositories.Repository.SetAssignmentStatus | internal/domain/campaign/repository/repository.go:164-178 | the update without a status guard |
| Repositories.Repository.ApplyAssignmentStatus | internal/domain/campaign/repository/ota_report.go:34-62 | one row changes exactly when the campaign is active in the project and the status is in the from-set; the report columns are overwritten |
| Repositories.Repository.ApplyOtaDownloaded | internal/domain/campaign/repository/ota_report.go:64-69 | from offered or downloaded, clearing code and message |
| Repositories.Repository.ApplyOtaInstalled | internal/domain/campaign/repository/ota_report.go:71-77 | from offered, downloaded or installed, clearing code and message |
| Repositories.Repository.ApplyOtaFailed | internal/domain/campaign/repository/ota_report.go:79-86 | from pending, offered, downloaded or failed, with code and message |
| Repositories.Repository.ListDeviceIDsInGroupsForProject | internal/domain/device/repository/campaign_scope.go:13-25 | the project's devices in any listed group, each once |
| Repositories.Repository.ListDeviceIDsExplicitInProject | internal/domain/device/repository/campaign_scope.go:28-37 | the listed devices that are in the project, each once |
| Repositories.Repository.FilterDeviceIDsByCompatibleTypes | internal/domain/device/repository/campaign_scope.go:40-53 | those of the given devices whose type is allowed, each once |
| Repositories.Repository.InsertOtaDownloadToken | internal/domain/device/repository/ota_download_token.go:21-23 | a token is stored unless its hash exists |
| Repositories.Repository.ConsumeOtaDownloadTokenTx | internal/domain/device/repository/ota_download_token.go:27-74 | the four errors in the order of the checks, and on success the one row marked consumed now |
| Repositories.Repository.UpdateDeviceSeenAndFirmware | internal/domain/device/repository/repository.go:352-365 | last seen is set, and the version only when one is given, for a device of the project |
| Repositories.Repository.CreateDeviceAndAuthTokenTx | internal/domain/device/repository/repository.go:197-256 | device and first token appear together or not at all |
| Repositories.Repository.RotateDeviceAuthTokenTx | internal/domain/device/repository/repository.go:291-345 | every live token of the device is revoked and linked to the new one, which becomes active |
| Repositories.Repository.SetDeviceBlockedTx | internal/domain/device/repository/repository.go:258-288 | the block flag of a device of the project |
| Repositories.Repository.GetDeviceByActiveTokenHash | internal/domain/device/repository/repository.go:147-174 | the device behind a live token, or the first closed gate |
| CampaignService.Service.TryAutoComplete | internal/domain/campaign/service/service.go:375-391 | completes exactly an active campaign with targets and no unfinished assignment |
| CampaignService.Service.BuildProgress | internal/domain/campaign/service/service.go:308-325 | the five counts, absent statuses as zero, and the two exact percentages |
| CampaignService.Service.BuildPollOffer | internal/domain/campaign/service/service.go:394-414 | the code path leaves the tables and the offer of the whole poll |
| CampaignService.Service.ApplyOtaDeviceReport | internal/domain/campaign/service/ota_report.go:25-77 | the code path leaves the tables and the result of the whole report, the message trimmed and cut to 256 octets |
| CampaignService.Service.OnDeviceReportFirmware | internal/domain/campaign/service/service.go:417-445 | the code path is the whole version report with trimmed, case-folded comparison |
| CampaignService.InputVerdict | internal/domain/campaign/service/service.go:134-156 | an input is rejected unless it is valid, with the first failing check as the error |
| CampaignService.CreateVerdict | internal/domain/campaign/service/service.go:127-213 | no error exactly when creation may reach its insert, else the first failing check |
| CampaignService.RefusedForTheFirstLack | internal/domain/campaign/service/service.go:127-218 | a creation is refused exactly when something it needs is lacking in the request or the tables, and with the error of the first such thing |
| CampaignService.SortIgnoresListingOrder | internal/domain/campaign/service/service.go:195-210 | the targets do not depend on map iteration or query order |
| CampaignService.Service.ListCompatible | internal/domain/campaign/service/service.go:187-213 | the compatible devices in scope, sorted, empty exactly when there are none |
| CampaignService.Service.CreateCampaign | internal/domain/campaign/service/service.go:127-253 | the code path leaves the tables of the whole creation, returns the first error in order, and the progress of the new campaign |
| CampaignService.Service.PauseCampaign | internal/domain/campaign/service/service.go:327-339 | pauses an active campaign or refuses |
| CampaignService.Service.ResumeCampaign | internal/domain/campaign/service/service.go:341-353 | resumes a paused campaign or refuses |
| CampaignService.Service.CancelCampaign | internal/domain/campaign/service/service.go:355-367 | cancels a campaign that is not over or refuses |
| CampaignService.Service.ActivateDueCampaigns | internal/domain/campaign/service/service.go:370-373 | activates the due campaigns and names them |
| Downloads.RawToken | internal/domain/firmware/service/ota_download.go:34-38 | the hexadecimal text of 32 random octets passes the endpoint's format check |
| Downloads.OpenAlone | internal/domain/firmware/service/ota_download.go:57-95 | opening with a well-formed token is the uninterrupted run of the download operation, success, refusal and burnt token |
| Downloads.HonouredExactly | internal/domain/firmware/service/ota_download.go:57-95 | a stored token opens its firmware exactly when unspent, in time, its device unblocked and its firmware live |
| Downloads.OpeningEffect | internal/domain/firmware/service/ota_download.go:57-95 | opening spends the token exactly when the secret is well-formed and the token spendable, answers the firmware if its row is live, and otherwise changes nothing |
| Downloads.IssuedTokenOpensOnce | internal/domain/firmware/service/ota_download.go:23-95 | over any later evolution the secret handed out opens the firmware it was issued for, exactly under those conditions, and after one success never again |
| Downloads.FirmwareService.IssueOtaDownloadToken | internal/domain/firmware/service/ota_download.go:23-54 | the stored row, the returned secret and expiry, the default lifetime, and both errors |
| Downloads.FirmwareService.OpenFirmwareWithOtaDownloadToken | internal/domain/firmware/service/ota_download.go:57-95 | the character loop and the calls compute opening, one error for every refusal |
| Frames.WrittenFramesParse | internal/transport/devotcp/protocol.go:55-102 | a written frame followed by anything reads back as that frame with the rest untouched |
| Frames.ParseInvertsFramed | internal/transport/devotcp/protocol.go:55-102 | the reader yields a frame exactly when the input is what the writer sends for it, flags octet aside, followed by the rest |
| Frames.FlagsAreIgnored | internal/transport/devotcp/protocol.go:60-68 | no flags octet changes what is read |
| Frames.NoProperPrefixParses | internal/transport/devotcp/protocol.go:55-80 | a frame cut short anywhere is an end of input, and which kind |
| Frames.WrittenStreamsParse | internal/transport/devotcp/protocol.go:55-102 | reading the concatenation of any written frames yields exactly them, nothing left over |
| Frames.StreamRoundTrip | internal/transport/devotcp/protocol.go:55-102 | the same in front of any tail, which then reads as it would alone |
| Frames.WritingIsInjective | internal/transport/devotcp/protocol.go:82-102 | two lists of frames written the same way are the same list |
| Frames.Connection.ReadFrame | internal/transport/devotcp/protocol.go:55-80 | the buffer reader returns and consumes what the specification says, errors included |
| Frames.Connection.WriteFrame | internal/transport/devotcp/protocol.go:82-102 | the filled header and the payload are appended, or nothing when the payload is too long |
| BigEndian.DecodeEncode | internal/transport/devotcp/protocol.go:66-68 | decoding a big-endian word gives the number encoded |
| BigEndian.EncodeDecode | internal/transport/devotcp/protocol.go:91-93 | every word is the encoding of the number it decodes to |
| Payloads.AuthDecodesExactly | internal/transport/devotcp/protocol.go:118-131 | an auth payload is accepted exactly when it starts with a length-prefixed token, and every such payload yields that token cleaned |
| Payloads.AuthRoundTrip | internal/transport/devotcp/protocol.go:118-131 | a clean token survives, whatever follows it |
| Payloads.DecodeAuthPayload | internal/transport/devotcp/protocol.go:118-131 | the decoder, on every octet sequence |
| Payloads.PollDecodesLayout | internal/transport/devotcp/protocol.go:133-158 | every payload of either layout decodes, trimmed only without the optional part, repaired and trimmed with it |
| Payloads.PollNeedsLayout | internal/transport/devotcp/protocol.go:133-158 | nothing else is accepted |
| Payloads.PollRoundTrip | internal/transport/devotcp/protocol.go:133-158 | clean texts survive in both layouts |
| Payloads.DecodePollPayload | internal/transport/devotcp/protocol.go:133-158 | the decoder, on every octet sequence |
| Payloads.ReportDecodesLayout | internal/transport/devotcp/protocol.go:160-194 | every payload of either layout decodes to its fields, the message untouched without the optional part |
| Payloads.ReportNeedsLayout | internal/transport/devotcp/protocol.go:160-194 | nothing else is accepted |
| Payloads.ReportRoundTrip | internal/transport/devotcp/protocol.go:160-194 | clean reports survive in both layouts |
| Payloads.DecodeReportPayload | internal/transport/devotcp/protocol.go:160-194 | the decoder, on every octet sequence |
| Payloads.EncodePollResponse | internal/transport/devotcp/protocol.go:196-226 | the buffer filled at a moving offset holds the fields in order, or nothing when a text is too long |
| Payloads.ResponseRoundTrip | docs/device-tcp-protocol.md:91-110 | a decoder written from the documented layout inverts the encoder on every update |
| Payloads.OnlyAvailableResponsesFollowTheDocument | internal/transport/devotcp/protocol.go:196-226 | the encoder's output follows the documented layout exactly when the update flag is up, as its one caller has it |
| Payloads.DecodedResponsesReencode | docs/device-tcp-protocol.md:91-110 | only the encoder's octets decode to an update |
| Payloads.ErrorsAreReadable | internal/transport/devotcp/protocol.go:104-116 | error payloads fit in 518 octets and their code and text can be read back |
| Payloads.WriteErr | internal/transport/devotcp/protocol.go:104-116 | one error frame with the request's id is sent, the text cut to 512 octets |
| Payloads.HexRoundTrip | internal/transport/devotcp/protocol.go:228-236 | hexadecimal decoding inverts encoding |
| Payloads.HexDecodesExactly | internal/transport/devotcp/protocol.go:228-236 | a text decodes to octets exactly when it spells them, two digits each in either case |
| Payloads.StoredChecksumsDecode | internal/transport/devotcp/protocol.go:228-236 | a checksum stored as clean lower-case hexadecimal reaches the device as the digest |
| Session.OnlyLongAnnouncementsAreDropped | internal/transport/devotcp/handler.go:154-171 | an announcement is lost exactly when both texts are allowed but 73 plus their lengths exceeds 8192 |
| Session.PollIsSilentExactly | internal/transport/devotcp/handler.go:119-172 | a poll gets no reply if and only if the update it is about to announce has allowed texts and is longer than a frame |
| Session.LongAnnouncementsAreSilentExactly | internal/transport/devotcp/handler.go:154-171 | the same in terms of the base URL: it fits by itself but not together with the version |
| Silence.LongBasesSilencePollsExactly | internal/transport/devotcp/handler.go:154-171 | one campaign over a firmware whose version has 128 octets: every well-formed poll is unanswered if and only if the base URL has 7889 to 8089 octets, and from correspondingly more with a shorter version |
| Silence.SilenceHappens | internal/transport/devotcp/handler.go:154-171 | a history of whole operations, a configuration and a poll that is left without a reply |
| Session.AnswersFit | internal/transport/devotcp/handler.go:119-232 | with a base URL of at most 7888 octets and versions of at most 128 every answer fits in a frame |
| SessionEffects.NoUpdateExactly | internal/transport/devotcp/handler.go:119-153 | a poll is answered `no update` if and only if it decodes, the device may poll, and nothing is open for it or a service is not wired |
| SessionEffects.QuietPollsLeave | internal/transport/devotcp/handler.go:119-153 | what such a poll leaves: the device seen, and an offer made all the same when only the firmware service is missing |
| SessionEffects.OpenPollsAnnounce | internal/transport/devotcp/handler.go:139-171 | a poll that finds something open is answered with an update that decodes to the campaign, firmware, version and checksum of the row, its expiry and a URL carrying its token, with the token stored; or, in order, with the error that stood in the way |
| SessionEffects.RefusedPolls | internal/transport/devotcp/handler.go:119-128 | a malformed poll, or one of a blocked or foreign device, changes nothing and is answered with code 4 or 5 |
| SessionEffects.ReportFrameEffect | internal/transport/devotcp/handler.go:174-232 | from the octets of a report to the tables and the reply: 1 is downloaded, 2 installed, 3 failed with code and message, anything else changes nothing |
| SessionEffects.ReportedRows | internal/transport/devotcp/handler.go:174-232 | in an active campaign with a fitting status, octet 1 leaves the row downloaded, 2 installed, 3 failed with the code (none for 0) and the trimmed message cut to 256 octets; no other row changes |
| SessionEffects.InstallingSetsTheVersion | internal/domain/campaign/service/ota_report.go:42-75 | an accepted installed report over live firmware leaves that firmware's trimmed version on the device, or the reported one if that is empty |
| SessionEffects.MalformedReports | internal/transport/devotcp/handler.go:174-179 | a malformed report changes nothing and is answered with code 4 |
| SessionEffects.UnservedReports | internal/transport/devotcp/handler.go:180-232 | without a campaign service a well-formed report is a sighting of the device, with the version it names |
| SessionEffects.FramesAreDispatched | internal/transport/devotcp/handler.go:73-87 | type 2 is a poll, type 3 a report, any other type is answered with code 4 and changes nothing |
| SessionEffects.ServedExactly | internal/transport/devotcp/handler.go:33-60 | a device is served if and only if the first readable frame is of type 1 and presents a non-empty secret that authenticates it |
| SessionEffects.RefusalsAreNamed | internal/transport/devotcp/handler.go:37-117 | every refused login is answered with the code and text of its reason |
| SessionEffects.HoldersAreServed | internal/transport/devotcp/handler.go:33-60 | after any history of registrations, rotations and blocks, the clean secret of an ungated device's active token is let in and answered first with type 128 |
| SessionEffects.ServingIsFrameByFrame | internal/transport/devotcp/handler.go:62-89 | a connection handles the frames of its input one after the other, each on the tables the last one and the others left |
| SessionEffects.FramesOnTheWire | internal/transport/devotcp/protocol.go:82-102 | a written frame octet by octet: "FRM1", 1, 0, and type, request id and length in big-endian order |
| SessionEffects.ReadingByOctets | internal/transport/devotcp/protocol.go:55-80 | what reading makes of any input, from its octets, every error included |
| SessionEffects.ReportsOnTheWire | internal/transport/devotcp/protocol.go:160-194 | where campaign, status and code stand in a report |
| Session.SlashesAreTrimmed | internal/transport/devotcp/handler.go:160 | exactly the slashes at the end of the base URL are cut off |
| Session.ServedConnectionsAreAnsweredInOrder | internal/transport/devotcp/handler.go:33-89 | a served connection gets exactly one reply per readable frame, in order, with the request ids and a fitting type, the login's first, whatever is sent and whatever others do to the tables between its frames; each frame's own effect is one step |
| Session.NothingHappensBeforeLogin | internal/transport/devotcp/handler.go:33-55 | a connection that is not authenticated changes nothing and gets one error at most |
| Session.ServedDevicesAuthenticated | internal/transport/devotcp/handler.go:41-60 | whoever is served is a device authenticated by the secret in the first frame |
| SessionRuns.ConnectionsAreRuns | internal/transport/devotcp/handler.go:33-232 | whatever a device sends, the tables its connection leaves are those of a run of the interleaved engine, if what others do in between is |
| Announcements.AnnouncementsAreRedeemable | internal/transport/devotcp/handler.go:119-172 | an update decoded from a poll reply is true of the tables, and the secret in its URL opens that firmware |
| Announcements.PollLeavesStandingOffer | internal/domain/campaign/service/service.go:394-414 | after a poll with an offer the campaign is active and the device offered its stored firmware |
| Handler.Handler.HandlePoll | internal/transport/devotcp/handler.go:119-172 | effects and reply of a poll, every early exit |
| Handler.Handler.HandleReport | internal/transport/devotcp/handler.go:174-232 | effects and reply of a report, every early exit |
| Handler.Handler.RecordConnection | internal/domain/device/service/service.go:463-489 | touches a device of the project that is not blocked |
| Handler.Handler.FailLogin | internal/transport/devotcp/handler.go:103-117 | the error code of each authentication failure |
| Handler.Handler.Login | internal/transport/devotcp/handler.go:37-60 | accepts exactly what authenticates, and answers every refusal |
| Handler.Handler.ServeConn | internal/transport/devotcp/handler.go:33-89 | the connection loop leaves the tables and the output of the session specification |
| DeviceTokens.ExactlyOneLiveToken | internal/domain/device/repository/repository.go:291-345 | after any history a device has exactly one token that is not revoked, its active one |
| DeviceTokens.ChainLeadsToTheActiveToken | internal/domain/device/repository/repository.go:303-323 | following replaced_by from the i-th token issued reaches the active one in exactly as many hops as tokens were issued after it, through revoked tokens only |
| DeviceTokens.OnlyTheActiveTokenAuthenticates | internal/domain/device/repository/repository.go:147-174 | a secret authenticates a device exactly when its hash is the active token's and no gate is closed |
| AccessEffects.RegistrationEffect | internal/domain/device/repository/repository.go:197-256 | registering stores one unblocked device never seen and its one live token, or nothing on a conflict |
| AccessEffects.RotationEffect | internal/domain/device/repository/repository.go:291-345 | rotating revokes the live tokens of the device, points them at the new one and makes it the active one |
| AccessEffects.BlockingEffect | internal/domain/device/repository/repository.go:258-289 | blocking changes one flag of a device of the project |
| AccessEffects.SightingEffect | internal/domain/device/service/service.go:463-489 | a sighting sets last_seen, and the version if one is known |
| AccessEffects.AuthenticationEffect | internal/domain/device/repository/repository.go:147-174 | the outcome of an authentication: the least live token of the hash, then blocked, revoked and disabled in that order |
| Projects.DeletedProjectsStayOver | internal/domain/rbac/repository/project_queries.go:114-139 | once deleted a project stays deleted, its campaigns are completed or cancelled and none of its devices authenticates, under any later operations |
| Projects.PollingIsDisabledExactlyWhileArchived | internal/domain/rbac/service/project_service.go:155-181 | in a live project polling is disabled exactly while it is archived |
| AccessEffects.ArchivingEffect | internal/domain/rbac/service/project_service.go:155-181 | a live project in the other state changes its flag and the polling gate of its devices, nothing else |
| AccessEffects.DeletionEffect | internal/domain/rbac/repository/project_queries.go:85-139 | refused while a campaign is neither completed nor cancelled; else the row is deleted and its devices revoked and disabled |
| LateGates.PollingFollowsExactly | internal/domain/rbac/service/project_service.go:155-181 | however the two writes of any archivings and unarchivings fall, a device's polling ends up following its project's archiving if and only if the last sweep carried the flag marked last |
| LateGates.InsertedPollingFollowsExactly | internal/domain/device/service/service.go:262-315 | the same for a device registered on the way, which starts out enabled and misses earlier sweeps |
| LateGates.CrossedArchivingShutsDevices | internal/domain/rbac/service/project_service.go:155-181 | an archiving overtaken by an unarchiving leaves an open project with its devices shut |
| LateGates.WritesMakeOperations | internal/domain/rbac/service/project_service.go:155-181 | with nothing in between, the two writes are the archiving and the one write is the deletion |
| LateGates.LateInsertionIsGatedExactly | internal/domain/device/repository/repository.go:199-259 | a registration that inserts after its check leaves a device in step with its project if and only if the project is still neither deleted nor archived |
| LateGates.DevicesOutliveDeletionExactly | internal/domain/rbac/repository/project_queries.go:114-139 | through any late writes a deleted project's device stays revoked, unless, and exactly if, one of them registers it and no deletion follows |
| LateGates.LateDevicesAuthenticate | internal/domain/device/repository/repository.go:147-174 | the secret of a device registered late authenticates, whatever has become of the project |
| Projects.ProjectService.ArchiveProject | internal/domain/rbac/service/project_service.go:155-181 | the two updates, or nothing when the state is already right |
| Projects.ProjectService.DeleteProject | internal/domain/rbac/repository/project_queries.go:85-139 | refused while a campaign is unfinished, else revokes the devices and buries the project, if it has a row |
| Ownership.EveryProjectHasAnOwner | internal/domain/rbac/service/project_service.go:252-442 | after any history every project ever created has an owner |
| Ownership.EveryMembershipHasAUsableRole | internal/domain/rbac/repository/repository.go:324-337 | after any history every membership's role is live and predefined or of the same project |
| Ownership.OnlyOwnersMakeOwners | internal/domain/rbac/service/project_service.go:264-272 | nobody becomes an owner of an existing project except by the hand of an owner |
| Ownership.TransferHandsOver | internal/domain/rbac/repository/repository.go:339-370 | the giver becomes admin, the receiver owner, nobody else changes, and the number of owners drops only for a co-owner |
| OwnershipEffects.OperationsDoAsAllowed | internal/domain/rbac/service/project_service.go:43-508 | every operation on memberships and roles succeeds exactly when the rows allow it, and then changes exactly the rows it is about |
| OwnershipEffects.RefusalsAreTruthful | internal/domain/rbac/service/project_service.go:252-508 | what a refusal names is so |
| Ownership.LateSurrendersLoseTheLastOwnerExactly | internal/domain/rbac/service/project_service.go:307-405 | when any number of removals and demotions write after their checks, whatever has become of the roles since, no owner is left if and only if every owner is among those written |
| Ownership.CrossedRemovalsLoseTheLastOwnerExactly | internal/domain/rbac/service/project_service.go:383-399 | two removals each allowed by what it read leave no owner if and only if they remove two distinct owners and there are exactly two |
| Ownership.CrossedRemovalsLoseTheLastOwner | internal/domain/rbac/service/project_service.go:383-399 | the condition is met: two owners removing each other, counts before deletes, leave no owner |
| Ownership.LateDeletionBreaksSeatsExactly | internal/domain/rbac/repository/repository.go:324-337 | a role deletion that writes after its count keeps every membership usable if and only if nobody holds the role by then |
| Ownership.LateGiftIsSoundExactly | internal/domain/rbac/service/project_service.go:252-365 | an invitation or role change that writes after its checks leaves a usable membership if and only if the role is still live |
| Ownership.LateRolesBreakSeatsExactly | internal/domain/rbac/repository/repository.go:324-337 | after any number of late gifts and deletions of roles, every membership is usable if and only if none ends with a role deleted among them |
| Ownership.CrossedGiftAndDeletionExactly | internal/domain/rbac/repository/repository.go:324-337 | an invitation or role change and a role deletion, both allowed by what they read, leave an unusable membership in either order if and only if they are about the same role |
| Ownership.CrossedGiftLeavesADeadRole | internal/domain/rbac/repository/repository.go:324-337 | the condition is met: an owner deletes a custom role while inviting somebody into it |
| Ownership.ProjectService.CreateProject | internal/domain/rbac/service/project_service.go:43-69 | project and owner membership appear together |
| Ownership.ProjectService.InviteMember | internal/domain/rbac/service/project_service.go:252-305 | the new membership or the first failing check |
| Ownership.ProjectService.UpdateMemberRole | internal/domain/rbac/service/project_service.go:307-365 | the changed role or the first failing check |
| Ownership.ProjectService.RemoveMember | internal/domain/rbac/service/project_service.go:367-405 | the removed membership or the first failing check |
| Ownership.ProjectService.TransferOwnership | internal/domain/rbac/service/project_service.go:407-442 | both memberships rewritten or the first failing check |
| Ownership.ProjectService.CreateCustomRole | internal/domain/rbac/service/project_service.go:451-470 | a role of this project or the first failing check |
| Ownership.ProjectService.UpdateCustomRole | internal/domain/rbac/service/project_service.go:472-489 | permissions, when given, replace the role's own exactly when it is live, custom and of this project, else the first failing check |
| Ownership.ProjectService.DeleteCustomRole | internal/domain/rbac/service/project_service.go:491-508 | the role is soft-deleted exactly when custom, of this project and unassigned |
| Bulk.EveryDeviceIsAccountedFor | internal/domain/device/service/device_groups_bulk.go:489-568 | succeeded plus failed is the number processed for all five actions, duplicates and foreign ids included |
| Bulk.ActionsActRight | internal/domain/device/service/device_groups_bulk.go:489-568 | after block (unblock) exactly the listed devices of the project are blocked (not blocked); after add (remove) exactly they are members (no members) of the group; after a rotation each secret lets its device in as far as its gates are open; nothing else changes |
| Bulk.RotatedDevicesAreLetIn | internal/domain/device/service/device_groups_bulk.go:533-552 | after any history of registrations, rotations and blocks each secret in the result of a rotation authenticates its device if and only if the device's gates are open |
| Bulk.OnlyForeignersFail | internal/domain/device/service/device_groups_bulk.go:489-568 | exactly the ids that are not devices of the project fail, in order, with the code of the action; a rotation with fresh tokens gives every other one a secret |
| Bulk.RefusedForTheFirstWrong | internal/domain/device/service/device_groups_bulk.go:417-487 | a bulk request is refused exactly when something is wrong with it, and with the error of the first such thing |
| Bulk.RotatedSecretsAreTheOnlyLiveOnes | internal/domain/device/service/device_groups_bulk.go:533-552 | each secret in a rotation's result is of its device's only live token, even if the device was listed twice |
| Bulk.BlockRunBlocksExactly | internal/domain/device/service/device_groups_bulk.go:519-532 | exactly the listed devices of the project end up as asked |
| Bulk.SplitKeepsEverything | internal/domain/device/repository/device_query.go:201-224 | the split by project keeps every id with its multiplicity, each on its side |
| Bulk.PartingUndoesJoining | internal/domain/device/repository/groups.go:136-167 | removing the devices just added leaves exactly the members that were not listed |
| Bulk.BulkService.FilterDevicesInProject | internal/domain/device/repository/device_query.go:201-224 | both lists, in order and with repetitions |
| Bulk.BulkService.AddDevicesToGroup | internal/domain/device/repository/groups.go:136-157 | the members become the old ones and the listed ones, and the count is of those really new |
| Bulk.BulkService.BulkDevices | internal/domain/device/service/device_groups_bulk.go:417-568 | the first error in order, or the effect on the selected devices with processed = succeeded + failed |

## Left out

- GORM, SQL text, isolation levels and database failures: each repository call is one atomic read or guarded update, each transaction one step; a failed call changes nothing.
- `TransitionCampaignStatus` and the listing, detail and dashboard queries: the first has no caller, the others only read.
- HTTP handlers, middleware, configuration, logging, mail, audit entries and connection logs: no effect on the tables modelled.
- Permission checks of the rollout and device services: an operation that fails them changes nothing; `Ownership` does model them.
- The scope tables `campaign_target_groups` and `campaign_target_devices`: only their primary keys matter, and they make a creation that repeats a group or an explicit device fail.
- SHA-256, random secrets and UUID generation: parameters; database uniqueness indexes are modelled, hash injectivity is not assumed.
- Unicode behaviour of trimming, UTF-8 repair and case folding: abstract functions; where needed they are assumed to drop octets only and to leave clean text alone. Two results assume what the upload service ensures: that every answer fits assumes versions of at most 128 octets, and that connections are runs assumes versions stored trimmed.
- Names, descriptions, hardware identifiers and custom-role names, and the uniqueness of the latter two: they only add reasons to refuse.
- Firmware upload and the object store: a download that passes every table check but finds no object is not part of this model.
- The library sorting algorithm: any sort that orders by UUID text gives the same list, which is proved; the model inserts one id at a time.
- Socket deadlines, cancellation and write failures: the connection is reliable and ends with its input.
- Connections already open when a project is archived or a token rotated: authentication happens once per connection, so nothing is claimed about them.
- Concurrent operations on session tokens and bulk lists: those laws are about whole operations.
- Concurrent operations on projects and memberships: what late single writes do is proved for owners (removals and demotions), usable roles (invitations, role changes and role deletions), and the gates of devices (archivings, deletions and registrations); `Interference` covers campaigns of deleted projects. That only owners make owners is a law of whole operations.
- Session.ServedConnectionsAreAnsweredInOrder: what one frame does is one step, so others' writes during a frame, and the `campaign poll failed` reply (`internal/transport/devotcp/handler.go:134-137`) that such a write or a database failure would cause, do not occur.
- CampaignService.Service.ApplyOtaDeviceReport: one clock reading for the whole operation, although the code reads it in two places.
