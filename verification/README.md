# Church website API: publication, scheduling and seeding

This project models the transactional core of the church website API and proves properties of
it in Dafny 4.11.

The database tables are values (maps and sequences). A repository transaction is a function
from tables to new tables or an error; where the program changes things step by step, a class
holds the tables and a method of it performs the same transaction statement by statement on a
private copy, commits the copy at the end, and is proved equal to the function. Everything
about runs is then proved about the functions.

| files | what they model |
|---|---|
| `content_model.dfy`, `sorting.dfy` | shared values, errors, public rows; the library sort |
| `page_group.dfy`, `page_group_invariants.dfy`, `page_group_history.dfy`, `page_group_repository.dfy`, `public_content.dfy`, `revocation_targets.dfy`, `manifest_order.dfy`, `unrestorable_revisions.dfy` | Home with its videos and About with its history entries: children edited one by one, published as a group through a versioned manifest, unpublished, restored |
| `publication_worker.dfy`, `publication_guarantees.dfy`, `home_worker.dfy`, `retry_schedule.dfy`, `retry_protocol.dfy` | the outbox worker against the remote grant service: claims, retries, deferrals, compensation, lost replies and crashes |
| `bulletins.dfy`, `bulletin_invariants.dfy`, `bulletin_guarantees.dfy`, `public_bulletins.dfy`, `bulletin_outcomes.dfy`, `bulletin_acceptance.dfy`, `bulletin_targets.dfy`, `bulletin_repository.dfy`, `bulletin_worker.dfy`, `bulletin_grants.dfy`, `bulletin_dispatch.dfy` | weekly bulletins: editions, publication and withdrawal, the cached latest row, notifications; the worker and the grants behind the files |
| `news.dfy`, `news_invariants.dfy`, `news_guarantees.dfy`, `news_failures.dfy`, `news_routes.dfy`, `public_news.dfy`, `news_targets.dfy`, `news_repository.dfy`, `news_worker.dfy` | news items: publication and withdrawal with up to two granted covers each, under the same worker and faults |
| `recurrence.dfy`, `sync_windows.dfy` | meeting occurrences and media sync windows |
| `limiter.dfy`, `limiter_guarantees.dfy`, `church_units.dfy`, `home_migration.dfy`, `migrated_content.dfy`, `content_seed.dfy`, `seed_history.dfy` | the translation limiter, parent links of church units, the Home v2 migration, content seeding |

Assumptions, all of them visible in the model:

- An attempt of the worker on an event ends before its 30-second lease does, so an event is not
  claimed again while an attempt on it is under way. The bulletin tables need no such assumption
  (`BulletinGuarantees`: transactions in any order); the grants of bulletins do.
- The same idempotency key gives the same grant and different keys give different grants; a
  grant is identified with its key.
- Every remote call and every commit may succeed, be lost before it took effect, or take effect
  and still report an error; an attempt may stop between any two steps.
- New ids are fresh. Payload validation, rendering, URLs and digests are arbitrary functions.
- Issue dates are unique, issue numbers where present, and the YouTube ids of videos (the table
  constraints of internal/migrations/sql/001_bulletin_kernel.sql,
  018_bulletin_issue_number_subtitle.sql and 003_typed_content_modules.sql).
- Recurrence: local days follow each other and hold their clock times; they may have any length.
- The migration's source hash tells different evidence apart.
- Church units are saved one after the other; the cycle check and the save are separate
  transactions in the program.

What does not hold of the program, with the exact condition:

- A grant can leak: an attempt creates a grant and loses the reply, and a later attempt gives the
  publication up before it obtains the grant again. `LeaksExactlyWhenGivenUp` for Home and for
  news, and `BulletinGrants.LeaksExactlyWhen`, name the steps that leak a grant, both ways, and the
  three `LeakedExactly` lift it to runs: a grant is leaked exactly when such a step happened. For news the step may also be a
  compensation that holds only one of two grants, and for bulletins a publication that replaces a
  recorded grant without handing it over to a retirement, as when an edition is published again
  with the same file. `PublicationGuarantees.LeakHappens`, `NewsFailures.PartialLeakHappens`,
  `BulletinGrants.GivingUpLeaks` and `BulletinGrants.DisplacementLeaks` show that they occur.
- A published group revision whose manifest removed a child can never be restored:
  publishing leaves no revision for a removed child, and restoring asks for one. Nor can one be
  restored while another video has a YouTube id it recorded: ids are unique at every statement, and
  members are written back one by one, by id. So an id that moved on to a new video, or two that
  were swapped, stop the restore. `RestoreSucceedsExactly` gives the condition for both,
  `RestoreFailsWith` the error; `RemovalIsNotRestorable`, `MovedVideoIsNotRestorable` and
  `SwappedVideosAreNotRestorable` show that they occur. Recorded ids are distinct, except that the
  manifest of what was live before there were manifests can repeat one: `BaselineCanRepeatAVideo`.
- A bulletin file that was replaced is not always deleted: when a published edition is published
  again as it is and that fails, a new upload finds it in draft and does not start to retire its
  file. `DisplacedFileIsRetiredExactly` gives the condition, `FailedRepublicationOrphansFile` shows
  it of every published edition; `WithdrawalTakesDown` says when a withdrawal names the file on show.
- A bulletin notice does not always mirror its outbox event: when completing a notification
  takes effect on the last attempt but reports an error, the event is marked failed while the
  issue says queued. `MirrorBreaksExactly`, `NotifyMirrors` and `MirrorDoesBreak`.
- A news item whose withdrawal failed has no public rows but keeps its revoked grants; it can
  then be neither withdrawn again nor deleted up to the turn that completes a new publication:
  `StuckUntilPublished`, with `ParkedHappens`. The failed event does not tell whether the item was
  withdrawn: `LastWithdrawalAttempt`.
- Slugs are unique among news items but not among what is shown. Two items come to share a route
  exactly when one is published while the other is shown under the slug the first one has now:
  `ClashArisesExactly`, with `RouteClashHappens`. `CheckedPublicationNeverClashes` gives the check
  that prevents it.
- The one-day lookback of the recurrence scan is enough exactly for meetings whose occurrences end
  by the second midnight after they start: `LookbackSufficesExactly`. Across a 23-hour day a
  24-hour meeting does not: `ShortDaysEscape`.

## Model

| member | source | states |
|---|---|---|
| PageGroupRepository.Repository.CreateContent | internal/postgres/content_repository.go:20-71 | creating a child stores its first revision and turns the page back into a draft; a conflict while publishing, or with a video of the same YouTube id, changes nothing; the group invariant is kept |
| PageGroupRepository.Repository.UpdateContent | internal/postgres/content_repository.go:176-210 | an edit with the expected version makes a new draft version and revision of the child and touches the page; any error, such as another video with the new YouTube id, changes nothing |
| PageGroupRepository.Repository.DeleteContent | internal/postgres/content_repository.go:819-888 | a child that is live or named by a manifest is only marked for removal; any other idle one is deleted; published or withdrawal-failed ones are refused |
| PageGroupRepository.Repository.IsNamed | internal/postgres/content_repository.go:914-926 | finds exactly whether some manifest names the child |
| PageGroupRepository.Repository.UpdateHomeOrAbout | internal/postgres/content_repository.go:176-210 | editing the page keeps its template and makes a new draft version and revision |
| PageGroupRepository.Repository.CollectGroupManifest | internal/postgres/page_group_repository.go:28-61 | the manifest has a keep, publish or remove item for exactly the children that are not unpublished; every kept or published child is publishable in five locales, or the collection fails |
| PageGroupRepository.Repository.CapturePublishedBaseline | internal/postgres/page_group_repository.go:119-169 | with no manifest yet, what is live is recorded as a published manifest of the live versions; mixed versions conflict |
| PageGroupRepository.Repository.ValidateMembers | internal/postgres/page_group_repository.go:95-117 | true exactly when every item still matches its child's version and status |
| PageGroupRepository.Repository.PublishMembersOf | internal/postgres/page_group_repository.go:266-297 | the loop over items gives every member its target version, status, rows and, when newly published, its revision; versions never mismatch |
| PageGroupRepository.Repository.PublishPageGroup | internal/postgres/page_group_repository.go:216-314 | commits exactly the group publication, or reports its error and changes nothing; the invariant is kept |
| PageGroupRepository.Repository.StartHomePublication | internal/postgres/content_repository.go:307-349 | freezes the manifest at the next version and queues the one publication event, or changes nothing |
| PageGroupRepository.Repository.CompleteHomePublication | internal/postgres/content_repository.go:567-701 | puts the frozen manifest live, records the new banner grant and queues the revocation of the old one, or is stale and changes nothing; a repeated completion changes nothing |
| PageGroupRepository.Repository.UnpublishPageGroup | internal/postgres/page_group_repository.go:316-450 | hides page and live children, records a manifest that removes them, and queues the banner's revocation, or changes nothing |
| PageGroupRepository.Repository.RestoreMembers | internal/postgres/page_group_repository.go:484-537 | the two loops restore every member, by id, from its recorded revision and mark every other child for removal; the first missing revision, or YouTube id that another video has at that point, fails the whole with its error |
| PageGroupRepository.Repository.RestorePageGroup | internal/postgres/page_group_repository.go:452-555 | commits exactly the restore of a settled revision as drafts, or changes nothing |
| PageGroupHistory.ApplyKeeps | internal/postgres/page_group_repository.go:216-555 | every transaction an administrator can start keeps the group invariant: rows, versions, revisions, manifests, events and grants in step |
| PageGroupInvariants.BaselineNeverConflicts | internal/postgres/page_group_repository.go:131-158 | the mixed-version conflicts of the baseline are unreachable |
| PageGroupInvariants.FrozenRejectsEdits | internal/postgres/content_repository.go:890-912 | while Home is publishing no child can be created, edited or deleted, and the page cannot be edited, published, unpublished or restored |
| PageGroupInvariants.CompletionIsNeverStale | internal/postgres/content_repository.go:567-619 | completing the event of a publishing Home succeeds, publishes that version and records the banner's grant |
| PageGroupInvariants.CompleteHomePublishKeeps | internal/postgres/content_repository.go:567-701 | completion keeps the group invariant |
| PageGroupInvariants.FailHomePublishKeeps | internal/postgres/repository.go:888-991 | failing a publication with compensation keeps the group invariant |
| PageGroupHistory.PublishGroupShows | internal/postgres/page_group_repository.go:216-314 | all or nothing: after a group publication the live children are exactly the kept and published members, each complete in five locales at its target version, and readers see exactly the recorded revision |
| PageGroupHistory.CompleteHomePublishShows | internal/postgres/content_repository.go:617-678 | the same after a Home completion |
| PageGroupHistory.PublishGroupSucceedsExactly | internal/postgres/page_group_repository.go:216-314 | on reachable tables a group publication succeeds exactly for an idle page at the expected version, on the first template if Home, with page and children publishable in five locales; no other conflict can arise |
| PageGroupHistory.StartSucceedsExactly | internal/postgres/content_repository.go:307-349 | the same for starting a Home publication, which also needs a banner |
| PageGroupHistory.EditsLeaveRowsAlone | internal/postgres/content_repository.go:176-210 | creates, edits, deletes, restores, migrations and publication starts leave every public row as it is |
| PageGroupHistory.RecordIsPermanent | internal/postgres/page_group_repository.go:654-680 | what a settled revision recorded of page and children never changes, whatever happens later |
| PageGroupHistory.RestoreSucceedsExactly | internal/postgres/page_group_repository.go:452-522 | on reachable tables a restore succeeds exactly for an idle page at the expected version and a settled revision that is withdrawn or removes nothing, when no other child but an earlier member has a YouTube id the revision recorded, and, for what was live before there were manifests, the revision recorded none twice |
| PageGroupHistory.RestoreFailsWith | internal/postgres/page_group_repository.go:484-497 | otherwise such a restore reports the missing removed member, or the duplicate id |
| PageGroupHistory.NoneCollides | internal/postgres/page_group_repository.go:484-499 | written one by one in the order of ids, members meet no taken YouTube id exactly when recorded ids are distinct and no other child but an earlier member has one now |
| PageGroupInvariants.RestoredAreUnique | internal/migrations/sql/003_typed_content_modules.sql:41-45 | if they meet none, YouTube ids are unique after the restore |
| UnrestorableRevisions.MovedVideoIsNotRestorable | internal/postgres/content_repository.go:1336-1341 | from every reachable state in which a video has the id a settled revision recorded for it: give it another id, create a new video with the old one, and the revision cannot be restored |
| UnrestorableRevisions.RecordedVideoIsReachable | internal/postgres/page_group_repository.go:216-314 | such states are reachable on the first Home template and on About |
| UnrestorableRevisions.SwappedVideosAreNotRestorable | internal/postgres/page_group_repository.go:497-499 | recorded videos that have swapped their ids cannot be restored, though the restored ids would be unique |
| UnrestorableRevisions.BaselineCanRepeatAVideo | internal/postgres/page_group_repository.go:119-169 | two videos that went live one after the other under one id are both recorded by the first manifest |
| UnrestorableRevisions.RemovalIsNotRestorable | internal/postgres/page_group_repository.go:277-281 | from every reachable state with a live child in a publishable group, deleting the child and publishing records a revision that no restore accepts |
| UnrestorableRevisions.RemovableIsReachable | internal/postgres/page_group_repository.go:119-169 | such states are reachable on the first Home template and on About |
| PageGroupHistory.RestoreThenPublishGroup | internal/postgres/page_group_repository.go:452-555 | restoring a revision and publishing shows exactly what the revision recorded |
| PublicContent.ChildRowsShowRevisions | internal/postgres/content_repository.go:1445-1466 | in every reachable state a public row of a child shows, in its locale, text, fields and YouTube id of the revision of the row's version; there is one row for each translation |
| PublicContent.PageRowsShowRevision | internal/postgres/page_group_repository.go:189-214 | the same of the page: text, template, settings, banner and whether it may be indexed |
| PublicContent.EditsSucceedExactly | internal/postgres/content_repository.go:176-210 | in reachable states a save is accepted exactly if it is based on the latest version, the page is not being published and no other child has the YouTube id; a deletion exactly under the first two |
| PublicContent.PublishingShowsDrafts | internal/postgres/page_group_repository.go:216-314 | a group publication shows exactly the children neither withdrawn nor marked for removal, and the page, as they were last saved |
| PublicContent.CompletionShowsDrafts | internal/postgres/content_repository.go:567-701 | on the second template a completion shows what was saved when publishing started, whatever went on since |
| PublicContent.EditsAreShown | internal/postgres/content_repository.go:176-210 | what an editor saves is what the next publication shows |
| PublicContent.DeletedChildDisappears | internal/postgres/content_repository.go:840-859 | a deleted child stays on show as it was until the next publication, and then is gone |
| PublicContent.FailedHomePublicationRestarts | internal/postgres/repository.go:935-970 | a Home publication that fails, after any run since its start, leaves rows, children and page content as they were, and can be started again at once |
| PublicContent.WithdrawnRevisionHasNoChildren | internal/postgres/page_group_repository.go:508-511 | restoring a withdrawn revision marks every child for removal; a publication after it shows the page of that revision and no child |
| PublicContent.WithdrawnHomeHasNoChildren | internal/postgres/page_group_repository.go:508-511 | the same on the second template, with any run between start and completion |
| PublicContent.PublishedRevisionRestoresMembers | internal/postgres/page_group_repository.go:484-537 | restoring a published revision makes drafts of exactly its members, with the content recorded then, and marks all others for removal |
| PublicContent.BaselineRecordsWhatIsLive | internal/postgres/page_group_repository.go:119-169 | the first manifest names exactly the children that are live, at revisions that hold what readers see |
| PublicContent.WithdrawingHidesTheGroup | internal/postgres/page_group_repository.go:316-450 | a withdrawal hides the page and all children, and makes exactly the children readers saw unpublished, content kept |
| RevocationTargets.RevocationsNameTheirAsset | internal/postgres/content_repository.go:760-768 | in every reachable state a queued revocation or compensation, and the recorded banner, name the asset that the publication its grant was created for asked it for |
| ManifestOrder.NewPageGroupManifest | internal/content/page_group.go:44-60 | accepts exactly valid versions and items, and puts the items into canonical order without touching the input |
| ManifestOrder.CanonicalIsOrderFree | internal/content/page_group.go:51-52 | items with distinct ids have one canonical order whatever order they came in, and ordering twice changes nothing |
| ManifestOrder.MapDeterminesBody | internal/content/page_group.go:67-82 | two item lists give the same digest input exactly when they hold the same items by id |
| ManifestOrder.DuplicatesBreakTheOrder | internal/content/page_group.go:51-52 | with two items of one id the input order would show in the digest; nothing in the constructor excludes it |
| ManifestOrder.GuardsAgree | internal/content/page_group.go:44-60 | the guards on the list are the guards on the map of items |
| PublicationWorker.NextKeeps | internal/publication/worker.go:51-98 | every step of the protocol, with any fault, keeps the system invariant: tables, grants, revocations and attempts in step |
| PublicationWorker.RunKeeps | internal/publication/worker.go:32-98 | so does every run |
| PublicationGuarantees.PublishFreeze | internal/postgres/content_repository.go:307-349 | in every reachable publishing state exactly one manifest is pending, the one for the page's version; it equals a fresh collection, its digest is in the one live event, and no transaction can start |
| PublicationGuarantees.NoCompletionIsStale | internal/postgres/content_repository.go:599-616 | an attempt that reaches completion never finds its publication superseded |
| PublicationGuarantees.StatusMatchesRows | internal/postgres/content_repository.go:478-701 | in every reachable state page and children are published exactly when their rows carry their current version in five locales, and no row is newer than its entry |
| PublicationGuarantees.LiveBannerIsGranted | internal/postgres/content_repository.go:679-697 | the banner readers see is recorded with a grant that exists, is not revoked and is not queued for revocation |
| PublicationGuarantees.GrantHasOnePlace | internal/postgres/content_repository.go:695-697 | every grant ever created is recorded, queued for revocation, held by a pending publication, or leaked, and never two of the first three |
| PublicationGuarantees.LeaksExactlyWhenGivenUp | internal/publication/worker.go:87-95 | a step leaks a grant exactly when it settles the publication as failed, in an attempt not holding the grant, and the grant was created before |
| PublicationGuarantees.LeaksAreForGood | internal/publication/worker.go:93-94 | a leaked grant stays leaked |
| PublicationGuarantees.LeakedExactly | internal/publication/worker.go:51-98 | over every run, a grant is leaked exactly when some step of the run gave its publication up, in an attempt not holding it, while the grant existed |
| PublicationGuarantees.LeakHappens | internal/publication/worker.go:207-223 | from every publishing state without an attempt a lost reply and an unusable asset lead to a leak |
| PublicationGuarantees.HoldingAttemptOutcome | internal/publication/worker.go:220-297 | an attempt that obtained its grant ends in exactly one of: delivered with the grant recorded or handed over, still pending under the same grant, failed with the revocation queued |
| PublicationGuarantees.RecordedGrantIsHandedOver | internal/postgres/content_repository.go:695-768 | a grant leaves the page only with its revocation queued |
| PublicationGuarantees.RevocationsAreCarriedOut | internal/publication/worker.go:333-345 | a revocation event ends, delivered or failed, only once its grant is revoked, and only queued grants are revoked |
| PublicationGuarantees.NamedChildrenPersist | internal/postgres/content_repository.go:840-859 | a child any manifest names exists in every later state of every run |
| PublicationGuarantees.RestoreRoundTripGroup | internal/postgres/page_group_repository.go:452-555 | after any run, restoring a published revision and publishing the group shows readers what they saw when it was live |
| PublicationGuarantees.RestoreRoundTripHome | internal/postgres/content_repository.go:307-349 | the same on the second template, with any run between start and completion |
| HomeWorker.Worker.ProcessNext | internal/publication/worker.go:51-98 | one undisturbed call, under any replies, is a run of the protocol and keeps its invariant |
| HomeWorker.Worker.PublishHome | internal/publication/worker.go:202-229 | asset check, grant, completion and failure handling, with the error class each reply gives |
| HomeWorker.Worker.HandleFailure | internal/publication/worker.go:280-297 | retry while attempts are left, confirm delivery before compensating, compensate at once when stale |
| HomeWorker.Worker.RevokeGrant | internal/publication/worker.go:333-345 | revoke, then acknowledge; a failed revocation is retried without limit |
| RetrySchedule.BackoffBounds | internal/publication/worker.go:96-97 | retry delays start at 5 seconds, double, and stay at 160 |
| RetrySchedule.SettlesInTime | internal/publication/worker.go:83-97 | a new event is delivered or failed after at most maxAttempts + 180 claims when no failure is a compensation error |
| RetrySchedule.BoundIsTight | internal/publication/worker.go:83-97 | after one claim fewer it can still be pending |
| RetryProtocol.SettledAsScheduled | internal/publication/worker.go:83-97 | in the step protocol of Home, from a claim through any run in which the attempt goes on, settling it with an error changes the event's status and attempts as the schedule says |
| RetryProtocol.EndedAsScheduled | internal/publication/worker.go:79-82 | so does an attempt whose event a completion or a compensation ended |
| RetryProtocol.BulletinSettledAsScheduled | internal/publication/worker.go:83-97 | the same of a claim and a settlement of a bulletin event |
| RetryProtocol.NewsSettledAsScheduled | internal/publication/worker.go:83-97 | and of a news event |
| RetrySchedule.Outbox.ProcessNext | internal/postgres/repository.go:814-858 | a claim takes only a pending, due event and updates attempts, status and next attempt as the handling says |
| Bulletins.BestExists | internal/postgres/repository.go:624 | the selection by number and then date has a greatest row whenever there is a row |
| BulletinRepository.Repository.NewIssue | internal/postgres/repository.go:34-49 | a new draft issue under unique number and date, or a conflict |
| BulletinRepository.Repository.EditMetadata | internal/postgres/repository.go:116-146 | number and date change only while no edition is or was left public |
| BulletinRepository.Repository.SaveVersion | internal/postgres/repository.go:233-289 | an upload replaces an edition's draft; replacing a published one starts to retire its file and grant |
| BulletinRepository.Repository.RenameVersion | internal/postgres/repository.go:291-311 | only an edition without grants, in draft or unpublished, can be renamed |
| BulletinRepository.Repository.DropVersion | internal/postgres/repository.go:313-341 | only such an edition can be deleted |
| BulletinRepository.Repository.RestoreRevision | internal/postgres/repository.go:405-512 | restores the editions of a revision; changed metadata is refused while a public row exists, and public editions are never dropped |
| BulletinRepository.Repository.DropIssue | internal/postgres/repository.go:637-693 | an issue goes only without any public state |
| BulletinRepository.Repository.BeginPublish | internal/postgres/repository.go:528-575 | issue and edition enter publishing together at the next version, with its event |
| BulletinRepository.Repository.SelectBest | internal/postgres/repository.go:624 | the scan finds the greatest row by number, then date |
| BulletinRepository.Repository.BeginUnpublish | internal/postgres/repository.go:577-635 | issue and edition enter unpublishing, the public row goes, and the latest row is rebuilt from the rows that remain |
| BulletinRepository.Repository.EndPublish | internal/postgres/repository.go:993-1098 | publishes edition and issue, writes its row with the edition's text and the event's file, advances the latest row unless a greater number holds it, retires the replaced file and requests the notification once |
| BulletinRepository.Repository.EndUnpublish | internal/postgres/repository.go:1153-1208 | ends a withdrawal; the issue stays published exactly while another edition is |
| BulletinRepository.Repository.FailEvent | internal/postgres/repository.go:921-991 | the event fails, and issue and edition fall back only if they are still at its version and state |
| BulletinRepository.Repository.FailAndRevoke | internal/postgres/repository.go:860-886 | a failed publication also queues the revocation of its grant, once |
| BulletinRepository.Repository.EndNotification | internal/postgres/repository.go:1215-1232 | a processing notification event is delivered and a pending notice becomes queued |
| BulletinGuarantees.NextKeeps | internal/postgres/repository.go:814-1232 | every administrator's and worker's step, at any time and in any order, keeps the bulletin invariant |
| BulletinGuarantees.LatestIsMaximum | internal/postgres/repository.go:1048-1053 | per edition the latest row exists exactly when an issue row does, is one of them, and has the greatest number |
| BulletinGuarantees.LatestIsDetermined | internal/postgres/repository.go:1051 | with numbered issues the latest row is the one row of the greatest number |
| BulletinGuarantees.RowsAreBacked | internal/postgres/repository.go:1048 | a public row shows its issue's date and number at a version the issue reached, in an edition holding a grant; every published edition has its row |
| PublicBulletins.RowsShowRevision | internal/postgres/repository.go:1035-1048 | in every reachable state a public row shows number, date, text and file of the last revision before its publication, with the file of the publication event of its version; while the edition counts as published it reads like that |
| PublicBulletins.LatestShowsEdition | internal/postgres/repository.go:1048-1053 | the same of the latest row and the issue it names |
| PublicBulletins.PublishedEditionIsShown | internal/postgres/repository.go:1035-1048 | every published edition is on show under its date with its own number, text and file |
| BulletinOutcomes.CompletionShowsEdition | internal/postgres/repository.go:993-1053 | completing the live event of a publication shows the edition under the issue's date and changes no other row |
| BulletinOutcomes.UploadIsShown | internal/postgres/repository.go:233-289 | an accepted upload can be published at once, and then its text and file are shown |
| BulletinOutcomes.TextIsShown | internal/postgres/repository.go:291-311 | an accepted text can be published at once, and then is shown with the edition's file |
| BulletinOutcomes.RestoreRoundTrip | internal/postgres/repository.go:405-512 | a revision outlives every run: an accepted restore brings back its number, date and editions, and each is then published with its text and file |
| BulletinOutcomes.LastRevisionDescribes | internal/postgres/repository.go:360-375 | in every reachable state the last revision of an issue with editions holds it as it is |
| BulletinOutcomes.FailedPublicationRestarts | internal/postgres/repository.go:978-985 | a failed publication leaves rows, work and grants alone, makes its completion stale, and can be started and completed again |
| BulletinOutcomes.FailedWithdrawalRestarts | internal/postgres/repository.go:971-977 | a failed withdrawal can be started again at once; no upload replaces the edition until then |
| BulletinOutcomes.WithdrawalTakesDown | internal/postgres/repository.go:577-635 | a withdrawal removes exactly the edition's row, and the latest row if it was that, and queues the revocation of its grant; its event names the file on show exactly if the edition retires a file or still holds that one |
| BulletinOutcomes.DisplacedFileIsRetiredExactly | internal/postgres/repository.go:1083-1096 | a publication with another file puts the file on show up for deletion exactly if the edition had started to retire one, with the grant to retire |
| BulletinOutcomes.FailedRepublicationOrphansFile | internal/postgres/repository.go:263-270 | from every published edition: publish it again, let that fail, upload and publish another file, and the file that was on show is never put up for deletion |
| BulletinAcceptance.MetadataIsAcceptedExactly | internal/postgres/repository.go:116-146 | in reachable states number and date can be changed exactly while the issue is idle at the expected version, no grant of it is recorded, and no other issue has them |
| BulletinAcceptance.UploadIsAcceptedExactly | internal/postgres/repository.go:233-262 | an upload is accepted exactly for an idle issue at the expected version and an edition not stuck on its way out |
| BulletinAcceptance.EditionIsEditableExactly | internal/postgres/repository.go:291-341 | a text can be corrected, and an edition removed, exactly while no grant of it is recorded |
| BulletinAcceptance.RestoreIsAcceptedExactly | internal/postgres/repository.go:405-480 | a restore is accepted exactly if every edition it drops is without grants, and number and date are free and, while a row is public, unchanged |
| BulletinAcceptance.RemovalIsAcceptedExactly | internal/postgres/repository.go:637-693 | an issue can be removed exactly while no grant of it is recorded and its withdrawal is not stuck |
| BulletinAcceptance.StartsAreAcceptedExactly | internal/postgres/repository.go:528-612 | every edition of an idle issue can be published, and exactly those with a recorded grant can be withdrawn |
| BulletinAcceptance.WithdrawalSettles | internal/postgres/repository.go:1153-1208 | a completed withdrawal leaves the edition without grants and nothing to retire, and the issue published exactly if another edition is |
| BulletinAcceptance.NoticeIsRequestedExactly | internal/postgres/repository.go:1061-1082 | a completed publication asks for a notification exactly if it was started with that wish and none was sent or is on its way; the event then has all its attempts |
| BulletinAcceptance.StepHandsOver | internal/postgres/repository.go:263-270 | over every step: grant and file start to retire exactly when an upload replaces a published edition, stop when a publication or withdrawal completes, and nothing else touches them or the grant |
| BulletinTargets.CleanupsAreAimed | internal/postgres/repository.go:860-886 | in every reachable state a compensation revokes the grant its publication created on the file that publication was for, and a retirement deletes the file it is named after |
| BulletinGuarantees.Lockstep | internal/postgres/repository.go:528-635 | an issue is publishing or unpublishing exactly when exactly one edition is, and then exactly one event is live, for that edition at the issue's version; a published issue has a published edition |
| BulletinGuarantees.CompletionIsNeverStale | internal/postgres/repository.go:1025-1027 | completing the live event of a publishing issue always succeeds and shows its version |
| BulletinGuarantees.WithdrawalIsNeverStale | internal/postgres/repository.go:1170-1198 | completing the live event of an unpublishing issue always succeeds |
| BulletinGuarantees.QueuedStaysInRuns | internal/postgres/repository.go:1060-1082 | a queued notification stays queued in every run while the issue exists |
| BulletinGuarantees.MirrorBreaksExactly | internal/postgres/repository.go:927-934 | notices mirror their events up to the one step that fails an already delivered notification event |
| BulletinGuarantees.NotifyMirrors | internal/publication/worker.go:100-112 | in one handling of a notification the mirror breaks exactly when its completion took effect on the last attempt and reported an error |
| BulletinGuarantees.MirrorDoesBreak | internal/postgres/repository.go:924-934 | a reachable state with a queued notice and a failed event |
| BulletinWorker.NextKeeps | internal/publication/worker.go:51-98 | every administrator's step and every step of the worker on bulletin events, with any fault, keeps the system invariant: tables, grants, revocations and attempts in step |
| BulletinWorker.RunKeeps | internal/publication/worker.go:32-98 | so does every run |
| BulletinWorker.StepIsTransaction | internal/postgres/repository.go:814-1232 | every step of the protocol leaves the tables alone or performs one transaction |
| BulletinGrants.RunsAreTransactions | internal/postgres/repository.go:814-1232 | so every state of the protocol is one of those the latest rows, lockstep and notices are proved of |
| BulletinGrants.LiveGrantIsKept | internal/postgres/repository.go:1048-1098 | what readers can download has a recorded grant that exists and is not revoked, and no compensation, retirement or withdrawal of it is queued |
| BulletinGrants.RevocationsAreDone | internal/publication/worker.go:299-373 | compensations, retirements and withdrawals are over only after their grant was revoked |
| BulletinGrants.HoldingAttemptOutcome | internal/publication/worker.go:114-141 | an attempt that obtained its grant ends in exactly one of: delivered with the grant recorded or since revoked, retired or superseded; still pending under the same grant; failed with the revocation queued |
| BulletinGrants.LeaksExactlyWhen | internal/publication/worker.go:83-97 | a step leaks a grant exactly when it gives the publication up in an attempt not holding it, or completes a later publication of the edition without handing the grant to a retirement; a leaked grant stays leaked |
| BulletinGrants.LeakedExactly | internal/postgres/repository.go:1083-1097 | over every run, a grant is leaked exactly when some step of the run was one of these |
| BulletinGrants.DisplacementLeaks | internal/postgres/repository.go:1083-1097 | from every reachable edition published again without anything to retire, an undisturbed attempt leaks the grant it recorded |
| BulletinGrants.RepublicationIsReachable | internal/postgres/repository.go:528-575 | such editions are reachable |
| BulletinGrants.GivingUpLeaks | internal/publication/worker.go:131-136 | from every reachable edition put up for publication, a lost reply and an unusable file lead to a leak |
| BulletinDispatch.Worker.ProcessNext | internal/publication/worker.go:51-98 | one undisturbed call on a bulletin event is a run of the step protocol and keeps its invariant |
| BulletinDispatch.Worker.Publish | internal/publication/worker.go:114-141 | file check, grant, completion and failure handling, with the error class each reply gives |
| BulletinDispatch.Worker.HandlePublishFailure | internal/publication/worker.go:261-278 | retry while attempts are left, confirm delivery before compensating, compensate at once when stale |
| BulletinDispatch.Worker.Revoke | internal/publication/worker.go:299-345 | the grant is revoked before the event is completed; a failed revocation is retried without limit |
| BulletinDispatch.Worker.Retire | internal/publication/worker.go:347-373 | grant first, then file, then the event; each failure is retried without limit |
| BulletinDispatch.Worker.NotifyBulletin | internal/publication/worker.go:100-112 | queue the notification, then complete it; refusals fail the event |
| NewsRepository.Repository.CreateContent | internal/postgres/content_repository.go:20-71 | a new draft with its first revision under a slug no other item has, or a conflict; the invariants of items and slugs are kept |
| NewsRepository.Repository.UpdateContent | internal/postgres/content_repository.go:176-210 | an edit of an idle item at the expected version makes a new draft version and revision; rows, grants and other items stay; any error changes nothing |
| NewsRepository.Repository.RestoreContent | internal/content/service.go:145-175 | a revision becomes the new draft, with the locales added since it |
| NewsRepository.Repository.StartNewsPublish | internal/postgres/content_repository.go:403-438 | a publishable idle item enters publishing at the next version together with its one event |
| NewsRepository.Repository.StartNewsUnpublish | internal/postgres/content_repository.go:440-476 | a shown item loses its rows at once and enters unpublishing, with an event that lists its recorded grants |
| NewsRepository.Repository.DeleteContent | internal/postgres/content_repository.go:819-888 | only an idle item that is not published, has no rows and no recorded grant is deleted |
| NewsRepository.Repository.CompleteContentPublish | internal/postgres/content_repository.go:478-565 | shows the item in all its locales at its version, records the new grants and queues each old one for revocation; stale or mismatching completions change nothing, repeated ones neither; for an attempt that holds the grants the invariants are kept |
| NewsRepository.Repository.CompleteContentUnpublish | internal/postgres/content_repository.go:703-738 | ends a withdrawal and forgets its grants, or is stale and changes nothing |
| NewsRepository.Repository.FailEvent | internal/postgres/repository.go:921-969 | the event fails, and the item falls back only if it is still at its version and state |
| NewsRepository.Repository.FailContentPublish | internal/postgres/repository.go:888-919 | a failed publication also queues the revocation of every grant the attempt held, once each |
| NewsWorker.Worker.ProcessNext | internal/publication/worker.go:51-98 | one undisturbed call is a run of the step protocol and keeps its invariant |
| NewsWorker.Worker.PublishNews | internal/publication/worker.go:166-200 | all assets are looked at before the first grant; grants are obtained in order; a failure hands over exactly those obtained so far |
| NewsWorker.Worker.HandleFailure | internal/publication/worker.go:280-297 | retry while attempts are left, confirm delivery before compensating, compensate at once when stale |
| NewsWorker.Worker.RevokeGrants | internal/publication/worker.go:313-345 | every grant of the event is revoked before it is completed; a failed revocation is retried without limit |
| NewsWorker.NextReference | internal/publication/worker.go:231-240 | the loops over references go through exactly the covers that are set, detail first |
| NewsInvariants.NextKeeps | internal/publication/worker.go:51-98 | every administrator's and worker's step on an item, with any fault, keeps the item invariant: status, rows, revisions, events, grants and attempts in step |
| NewsInvariants.RunKeeps | internal/publication/worker.go:32-98 | so does every run over all items, whose slugs stay distinct |
| NewsGuarantees.StatusMatchesRows | internal/postgres/content_repository.go:478-548 | an item is published exactly when its rows carry its current version; rows are one recorded revision in all its locales, never newer than the item |
| NewsGuarantees.Lockstep | internal/postgres/content_repository.go:403-476 | an item is publishing or unpublishing exactly when the event of that kind for its version is live, and no other such event is |
| NewsGuarantees.CompletionIsNeverStale | internal/postgres/content_repository.go:507-509 | an attempt that reaches completion, of a publication or a withdrawal, never finds its event superseded |
| NewsGuarantees.StartSucceedsExactly | internal/postgres/content_repository.go:403-438 | a publication starts exactly for an idle publishable item at the expected version; no key or revision can be taken |
| NewsGuarantees.LiveCoversAreGranted | internal/postgres/content_repository.go:556-563 | a cover readers see has a grant that exists, is not revoked, and that no live event is about to revoke |
| NewsGuarantees.GrantHasOnePlace | internal/postgres/content_repository.go:556-563 | every grant not revoked yet is recorded, queued for revocation, held by a pending publication, or leaked, and never two of the first three |
| NewsGuarantees.RevocationsAreDone | internal/publication/worker.go:333-345 | a revocation event is over, delivered or failed, only after its grant was revoked |
| NewsGuarantees.LeaksExactlyWhenGivenUp | internal/publication/worker.go:186-194 | a step leaks a grant exactly when it settles the publication as failed, or compensates it holding only the other grant, and the grant was created before; a leaked grant stays leaked |
| NewsGuarantees.LeakedExactly | internal/publication/worker.go:51-98 | over every run, a grant is leaked exactly when some step of the run gave its publication up in an attempt not holding it |
| NewsGuarantees.RecordedGrantsAreKept | internal/postgres/content_repository.go:556-563 | in every step of every run a recorded grant leaves its slot only revoked or with its revocation queued |
| NewsGuarantees.AttemptOutcome | internal/publication/worker.go:166-200 | however an attempt on a publication ends, its event is delivered, or still pending, or failed with every grant of the attempt queued for revocation |
| NewsFailures.PartialLeakHappens | internal/publication/worker.go:186-194 | a reachable leak with one of two grants collected, for every number of attempts |
| NewsFailures.LastWithdrawalAttempt | internal/postgres/repository.go:921-956 | from every reachable item before its last attempt at a withdrawal, a completion that reports an error ends with a failed event, and the item either left with revoked grants or in fact withdrawn |
| NewsFailures.StuckUntilPublished | internal/postgres/content_repository.go:440-455 | after a failed withdrawal of grants an item can be neither withdrawn nor deleted; no turn of administrators or worker changes that or the recorded grants, except the one that completes a new publication, which does |
| NewsFailures.StuckInRuns | internal/postgres/content_repository.go:440-455 | the same over whole runs |
| NewsFailures.ParkedHappens | internal/postgres/repository.go:935-956 | reachable withdrawals before their last attempt, and reachable items left with revoked grants |
| NewsGuarantees.DeleteSucceedsExactly | internal/postgres/content_repository.go:819-888 | deletion succeeds exactly for an idle item at the expected version of which nothing is or was left public |
| NewsGuarantees.RevisionsStay | internal/postgres/content_repository.go:1437-1444 | a recorded revision never changes while the entry exists |
| NewsGuarantees.RestoreThenPublish | internal/content/service.go:145-175 | restoring a revision and publishing shows it again in all its locales, and nothing else exactly when no locale was added since |
| PublicNews.RowsShowRevision | internal/postgres/content_repository.go:1445-1461 | in every reachable state a public row shows, in its locale, the text of the published revision, its slug and fields, the detail cover as image, and the home cover, or else the detail cover, as home image |
| PublicNews.CompletionShowsDraft | internal/postgres/content_repository.go:520-548 | a completed publication shows the item as it was last saved |
| PublicNews.EditIsSaved | internal/postgres/content_repository.go:176-210 | a save becomes draft and revision at the next version and changes nothing readers see |
| PublicNews.FailedPublicationRestarts | internal/postgres/repository.go:935-970 | a failed publication leaves everything but the status as it was, and can be started again at once |
| NewsTargets.RevocationsNameTheirAssets | internal/postgres/content_repository.go:740-768 | in every reachable room what an event is to revoke, and what an item has recorded, is named with the asset that the publication its grant was created for asked it for |
| NewsRoutes.RoutesClashOnlyAfterRename | internal/postgres/content_repository.go:1445-1461 | two items are shown under one route only while one of them carries another slug than it is shown under |
| NewsRoutes.RouteClashHappens | internal/postgres/content_repository.go:1308-1323 | a reachable state with two items under one route |
| NewsRoutes.ClashArisesExactly | internal/postgres/content_repository.go:520-548 | a turn makes two items share a route exactly when it completes a publication of one, in a locale it translates, while the other is shown under the slug it has |
| NewsRoutes.CheckedPublicationNeverClashes | internal/postgres/content_repository.go:403-438 | if nobody else is shown under the slug before a publication starts, its completion takes nobody's route, whatever happens in between |
| Recurrence.ResolveOccurrences | internal/operations/recurrence.go:13-131 | fails exactly for a bad override, schedule or looked-at duration; otherwise the result holds exactly the occurrences of looked-at days that meet the range, by start then id, each with start, length, venue, cancellation and version as the override of its date says and else as the meeting says; it is all of them, over all days, exactly when none escapes the scan |
| Recurrence.ScanIsComplete | internal/operations/recurrence.go:53-66 | where the lookback suffices, and for single meetings, no occurrence of any range escapes the scan |
| Recurrence.LookbackSufficesExactly | internal/operations/recurrence.go:53-66 | in every zone with ascending days, looking one day back finds everything in all ranges exactly when every occurrence without override ends by the second midnight after it starts |
| Recurrence.RegularZonesSuffice | internal/operations/recurrence.go:53-66 | which holds of every valid duration where no day is shorter than 24 hours |
| Recurrence.CandidateDays | internal/operations/recurrence.go:53-71 | the day-by-day scan plus overrides finds exactly the candidate days |
| Recurrence.IndexOverrides | internal/operations/recurrence.go:21-30 | accepts exactly overrides with parsable, distinct dates |
| Recurrence.CollectDays | internal/operations/recurrence.go:76-123 | applies the override of each day and keeps exactly the overlapping occurrences |
| Recurrence.OverrideOrderIsIrrelevant | internal/operations/recurrence.go:21-30 | the order of the overrides does not matter |
| Recurrence.AnswerIsUnique | internal/operations/recurrence.go:124-130 | there is only one list that answers a query |
| Recurrence.ShortDaysEscape | internal/operations/recurrence.go:54-56 | across a 23-hour day a 24-hour meeting fails the condition and is missed |
| SyncWindows.UnionWindows | internal/postgres/operations_repository.go:742-759 | merging keeps the coverage, and the result is sorted and strictly separated |
| SyncWindows.UnionIsOrderFree | internal/postgres/operations_repository.go:746 | the result does not depend on input order or on how ties were sorted |
| SyncWindows.CoverageDetermines | internal/postgres/operations_repository.go:742-759 | proper separated windows are determined by what they cover |
| SyncWindows.ListMediaSyncWindows | internal/postgres/operations_repository.go:511-533 | fails exactly when the query of some bound meeting does; otherwise windows lie only where an occurrence that meets the range, moved or lengthened by its override and not cancelled, is under way, and cover every such instant if none escapes the scan |
| SyncWindows.FoundExactly | internal/postgres/operations_repository.go:511-533 | for weekly meetings none escapes, in any range, exactly when looking one day back suffices for each |
| Limiter.Repository.ReserveTranslation | internal/postgres/translation_repository.go:16-80 | goes through the four counters and the cooldown; only an accepted reservation changes or purges anything |
| Limiter.Repository.ReleaseTranslation | internal/postgres/translation_repository.go:82-93 | drops exactly the cooldown this reservation set |
| Limiter.RunRefines | internal/postgres/translation_repository.go:16-93 | over any run with a clock that never goes back, the purging limiter answers every reservation as one that keeps the whole history |
| Limiter.TablesNeverOverLimit | internal/postgres/translation_repository.go:16-80 | over any run from empty tables with a clock that never goes back, the purging limiter accepts no more reservations in a minute or day than the limits allow |
| LimiterGuarantees.AnsweredExactly | internal/postgres/translation_repository.go:16-80 | over every chronological run: a reservation is refused exactly if invalid; limited by a full minute or day, counted over the history, or by an unreleased reservation of its subject that still cools, waiting exactly to the end of that; and accepted otherwise |
| LimiterGuarantees.CooldownsAreKept | internal/postgres/translation_repository.go:53-71 | two accepted reservations of one subject, the first not released in between, lie at least the cooldown apart |
| LimiterGuarantees.OldRowsAreGone | internal/postgres/translation_repository.go:74-79 | an accepted reservation leaves no counter from before the day before yesterday and no cooldown that ended more than a day ago |
| Limiter.LateReleaseKeepsNewer | internal/postgres/translation_repository.go:87-91 | in any run of the tables, the first release of a reservation changes nothing once its subject was reserved again |
| Limiter.SecondReleaseCanRemoveNewer | internal/translation/service.go:155-161 | releasing a reservation twice could remove a newer one made within the same microsecond, though both were accepted; the service releases at most once |
| ChurchUnits.WouldCreateCycle | internal/postgres/operations_repository.go:85-92 | the walk ends, and finds exactly whether the unit is the proposed parent or one of its ancestors |
| ChurchUnits.SaveKeepsForest | internal/operations/service.go:90-99 | every parent the guard lets through keeps the forest |
| ChurchUnits.RejectedWouldCycle | internal/operations/service.go:90-98 | every parent the guard rejects would have made a cycle |
| ChurchUnits.ForestIsAcyclic | internal/postgres/operations_repository.go:90 | in a forest no unit is its own ancestor and every walk over ancestors ends |
| ChurchUnits.Service.CreateChurchUnit | internal/postgres/operations_repository.go:20-47 | a first request creates a unit exactly with a valid input, a new key and an existing parent; a repeated one gives the unit it made, or a conflict under another key; the forest is kept |
| ChurchUnits.Service.SaveChurchUnit | internal/operations/service.go:78-100 | the exact guard of a save, its error or its effect; the forest is kept |
| ChurchUnits.Service.SetChurchUnitStatus | internal/postgres/operations_repository.go:120-141 | a status change never touches the parent links |
| HomeMigration.Service.PlanFor | internal/homev2migration/service.go:152-235 | the loops over locales and locations compute exactly the plan, or reject the snapshot |
| HomeMigration.Service.ApplyPlan | internal/homev2migration/service.go:121-150 | checks the reviewed hashes, then writes the draft or compares an existing one; any error changes nothing |
| HomeMigration.ApplyKeepsPublic | internal/homev2migration/service.go:356-420 | applying changes no public row and no source of the plan |
| HomeMigration.PlanSurvivesApply | internal/homev2migration/service.go:152-235 | after applying, planning again gives the same report with the same source and plan hashes |
| HomeMigration.ApplyIsIdempotent | internal/homev2migration/service.go:356-390 | a second application with the same hashes is accepted, reports nothing applied and changes nothing |
| HomeMigration.ReapplySucceedsExactly | internal/homev2migration/service.go:121-162 | after a migration and any sequence of transactions on Home and its videos, the same hashes are accepted, and change nothing, exactly if every one of those was refused |
| HomeMigration.EditsEndTheMigration | internal/homev2migration/service.go:160-162 | once a transaction on Home or a video went through after the migration, the reviewed hashes are refused for good, whatever site settings and locations have become |
| MigratedContent.MigratedDraftIsConversion | internal/homev2migration/service.go:168-233 | the migrated draft has in each locale the conversion of the text public in that locale, the links of the site, and all public locations, each once, in ascending order, with their texts |
| ContentSeed.ValidateManifest | internal/contentseed/manifest.go:55-120 | accepts exactly manifests with known kinds, distinct keys, and non-empty source paths that resolve once |
| ContentSeed.Seeder.PlanManifest | internal/contentseed/planner.go:139-194 | classifies every record as insert, skip or conflict by target and provenance, and counts them |
| ContentSeed.Seeder.ApplyManifest | internal/contentseed/apply.go:47-150 | returns a prior run, refuses conflicts, or applies all records with provenance in one transaction under one attempt row |
| ContentSeed.ReapplyIsNoOp | internal/contentseed/apply.go:65-78 | after a success the next application changes nothing and returns the stored counts, or is refused for another manifest |
| ContentSeed.FailureLeavesAnAttempt | internal/contentseed/apply.go:310-323 | an application that reports an error changed nothing, left only an attempt row, failed or still started, or had in fact been committed |
| ContentSeed.LostCommitIsFound | internal/contentseed/apply.go:65-75 | in the last case the next application finds it and changes nothing |
| ContentSeed.FailedAttemptsDoNotCount | internal/contentseed/planner.go:164-173 | attempts that did not succeed, failed or left as started, do not change what a later application does |
| ContentSeed.ApplyKeepsWellFormed | internal/contentseed/apply.go:141-145 | each seed version succeeds at most once |
| ContentSeed.AppliedRecordsAreSkipped | internal/contentseed/planner.go:161-182 | in any later tables a record applied before is skipped by any manifest that has it, as long as its target is still there |
| SeedHistory.PlannedExactly | internal/contentseed/planner.go:161-182 | after any history of applications and of changes by others: a record is inserted exactly if its target is missing, and skipped exactly if an application that went through applied a record of that kind, key and content and left the target it has; an edited record conflicts |
| ContentSeed.NoPathsNoProvenance | internal/contentseed/manifest.go:100-102 | without the check on source paths a record would conflict with itself |

## Left out

- HTTP routing, authentication, telemetry, configuration, command lines and the migrations runner.
- The idempotency-key replay of creating contents and issues: a create call is a new one.
- Creating the Home and About pages themselves: a run starts from tables as they were before manifests existed, published or not.
- Times of publication and update, actors, audit rows and asset-deletion events; they feed no decision modelled here.
- Locations as contents, legal pages and site settings as editable resources.
- News asset deletions queued by deleting an item, and the owner checks on news covers, which count as an unusable asset.
- BulletinDispatch.Worker.ProcessNext: is one undisturbed call; interleavings are in the step protocol. `asset.owner.delete` events, which only delete a file, are not modelled.
- NewsWorker.Worker.ProcessNext: is one undisturbed call; interleavings are in the step protocol.
- NewsRepository.Repository.RestoreContent: reads item and revision inside the transaction; the program reads them just before it, and the version check then rejects what changed in between.
- Listing, searching and paging.
- JSON, SHA-256 and UUID generation, URLs, text lengths and page schemas: arbitrary functions, or equality of values.
- PageGroupRepository.Repository.CollectGroupManifest: with several offending children, says only that one of their errors is reported; the program reports that of the first by id.
- BulletinRepository.Repository.EndPublish: states nothing about the grant a publication replaces without a retirement, which the program drops; `BulletinGrants` says when that happens.
- Bulletin workflow rows: they mirror the event and are read by no transaction.
- HomeWorker.Worker.ProcessNext: is one undisturbed call; interleavings with other attempts and administrators are in the step protocol.
- RetrySchedule.Outbox.ProcessNext: every claim is handled to its end, so a claim after an expired lease is not modelled here; the step protocols have it as a crash.
- RetrySchedule.SettlesInTime: leaves out compensation errors, which the program retries without limit.
- SyncWindows.UnionWindows: sorts a clone; that the program sorts its argument in place is not captured.
- Limiter.Repository.ReserveTranslation: blank means only spaces, tabs and line ends; instants are whole microseconds, the precision of the tables.
- ChurchUnits.Service.CreateChurchUnit: the validity of key, name and status is one flag.
- Time-zone data: a zone is any pair of functions between local days and instants that is ordered as stated.
