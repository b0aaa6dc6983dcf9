# Scheduled Instagram Reels publishing, modelled in Dafny

The system takes a video from an upload form and stores the file in a blob
store. It queues the video as a row of a Postgres table (`agentic_uploads`)
and later publishes it to Instagram through the Graph API. Publishing happens
either from a cron endpoint that picks the earliest due row, or on demand. A
row moves `pending → publishing → published | failed`. A failed row can be put
back to `pending`.

The model has five modules, one file each:

- `common.dfy` (`Common`) holds the shared values. These are `Option`, `Result`,
  `Outcome` (completes or throws) and `Thrown` (what a `catch` receives: an
  `Error` with its message, or anything else). It also holds JavaScript's
  `String.prototype.trim` and decimal rendering of a number.
- `repository.dfy` (`Repository`, src/lib/db.ts) holds the table as the class
  `UploadTable`. The class keeps a map of rows, a flag for whether
  `POSTGRES_URL` was set, and a ghost log of the write statements executed.
  The queries are loops over the map. `updateUploadStatus` builds its SET list
  exactly as the source pushes it, and that list is proved to mean the partial
  update `Patched`.
- `instagram.dfy` (`Instagram`, src/lib/instagram.ts) holds the Graph API client.
  The network is the class `GraphApi`. It keeps a log of the requests sent and
  an oracle `replies`: the k-th request ever sent gets `replies(k)`.
  - The poll loop is a `while` loop proved against the function `PollFrom`.
  - The whole protocol is proved against `PublishSpec`, which gives the result
    and the exact request log.
- `orchestrator.dfy` (`Orchestrator`, src/app/actions.ts) holds the five server
  actions, the form validation and the blob store (class `BlobStore`).
- `cron.dfy` (`Cron`, src/app/api/cron/publish/route.ts) holds the bearer-token
  check, built on a model of `split(" ")`, and the `GET`/`POST` handlers.

Errors are datatypes (`DbError`, `IgError`, `Failure`, `ActionError`). The
`message` text the source throws is rendered from them by `DbMessage`,
`Message`, `ActionMessage` and `ErrorText`. What a failed row stores as its
`error_message` is exactly that text.

## Model

| member | source | states |
|---|---|---|
| Common.TrimStart | src/lib/db.ts:62 | the result is a suffix of the input, what was dropped is all whitespace, and the result does not start with whitespace |
| Common.TrimEnd | src/lib/db.ts:62 | the result is a prefix of the input, what was dropped is all whitespace, and the result does not end with whitespace |
| Common.Trim | src/lib/db.ts:62 | `trim()` yields an infix whose cut-off ends are whitespace and which neither starts nor ends with whitespace |
| Common.TrimIdempotent | src/lib/db.ts:62 | trimming a trimmed string changes nothing |
| Common.TrimEmptyIffBlank | src/lib/db.ts:62 | a string trims to empty exactly when it is all whitespace (why a blank caption is stored as null) |
| Common.NatToString | src/lib/instagram.ts:48 | the status rendered in an error message is a non-empty digit string without a leading zero |
| Common.NatToStringRoundTrip | src/lib/instagram.ts:48 | the rendered status reads back as the same number |
| Repository.NewRecord | src/lib/db.ts:61-67 | the inserted row has the given id and schedule, is pending, was created now, and has no publish time, remote ids or error |
| Repository.Patched | src/lib/db.ts:130-167 | defined by its body; `SetClauseMeansPatch` shows it is what the UPDATE does |
| Repository.StoredCaption | src/lib/db.ts:62 | the stored caption is null exactly when none was given or it is blank; otherwise it is the trimmed, non-empty caption |
| Repository.SetClause | src/lib/db.ts:130-160 | the SET list has at most five entries and is empty exactly when the change set names no field, the case that runs no UPDATE |
| Repository.SetClauseMeansPatch | src/lib/db.ts:130-167 | running the SET list built in the source's column order on a row gives exactly the partial update `Patched`: named fields take the new value, the others keep theirs |
| Repository.PatchedIdempotent | src/lib/db.ts:111-168 | applying the same update twice is applying it once |
| Repository.PatchedKeepsIdentity | src/lib/db.ts:113-122 | an update never touches id, blob URL and path, caption, schedule or creation time, the columns outside the `Pick` |
| Repository.Earliest | src/lib/db.ts:96 | returns a key of the given set whose schedule is no later than that of any other key in the set |
| Repository.NextDue | src/lib/db.ts:93-101 | returns nothing exactly when no row is pending and due; otherwise returns a stored pending due row with the earliest schedule among due rows |
| Repository.ListBySchedule | src/lib/db.ts:78 | returns every row exactly once, in non-decreasing schedule order |
| Repository.FindById | src/app/actions.ts:66 | `find` returns nothing exactly when no listed row has the id; otherwise it returns the first listed row with that id |
| Repository.FindInListing | src/app/actions.ts:65-66 | looking an id up in a listing of the table yields that id's stored row, or nothing when the id is not stored |
| Repository.UploadTable.constructor | src/lib/db.ts:6 | a new table is empty, has an empty write log and remembers whether the database is configured |
| Repository.UploadTable.CreateUpload | src/lib/db.ts:49-70 | without a database it throws "Database is not configured"; a taken id throws the key violation; otherwise it inserts one pending row with the trimmed caption, no publish data and created now, and logs the INSERT |
| Repository.UploadTable.ListUploads | src/lib/db.ts:72-85 | without a database it returns `[]`; otherwise every row once, ordered by schedule |
| Repository.UploadTable.GetNextDueUpload | src/lib/db.ts:87-109 | without a database it returns null; otherwise the earliest pending row scheduled no later than now, or null when none is due |
| Repository.UploadTable.UpdateUploadStatus | src/lib/db.ts:111-168 | throws exactly when there is no database; an empty change set writes nothing; otherwise it logs one UPDATE with the SET list and patches the row if the id is stored (no error for an unknown id) |
| Repository.UploadTable.DeleteUpload | src/lib/db.ts:170-177 | throws exactly when there is no database; otherwise it removes the id (if stored) and logs the DELETE |
| Instagram.Message | src/lib/instagram.ts:45-122 | a failed call's error carries the API's own message when there is one, otherwise the fallback text with the HTTP status; a processing error carries the API's description when there is one |
| Instagram.AsThrown | src/lib/instagram.ts:10-126 | the client's own errors reach the caller as `Error`s with their message; a rejected fetch reaches it unchanged |
| Instagram.AssertConfig | src/lib/instagram.ts:10-18 | passes exactly when both the user id and the token are truthy; the user id is checked first |
| Instagram.ReadStatusCodeIff | src/lib/instagram.ts:81-90 | `ReadStatusCode` tells apart only the exact strings FINISHED and ERROR, and keeps any other code as it is |
| Instagram.ReadPoll | src/lib/instagram.ts:74-90 | defined by its body; characterised by `ReadPollIff` |
| Instagram.ReadPollIff | src/lib/instagram.ts:74-90 | a status reply ends polling successfully exactly when it is ok and its raw `status_code` is FINISHED. It is "still processing" exactly when it is ok and the code is missing or is neither FINISHED nor ERROR. ERROR fails with the status description, and a non-ok reply fails with the API message and status |
| Instagram.FinishedOnFirstPoll | src/lib/instagram.ts:68-84 | an ok first reply whose code is FINISHED ends polling after one request |
| Instagram.FormParams | src/lib/instagram.ts:24-33 | every request carries the access token; create carries video URL, REELS, share_to_feed and the caption exactly when one is given; status carries the fields; publish carries the creation id |
| Instagram.CreateRequest | src/lib/instagram.ts:31-33 | the create request carries a caption exactly when the caption is truthy, and then that caption |
| Instagram.ReadCreated | src/lib/instagram.ts:43-56 | a create or publish reply yields an id exactly when the fetch settled, the response is ok and the id is truthy; the id is then the payload's |
| Instagram.ReadCreatedErrors | src/lib/instagram.ts:43-56 | a rejected fetch surfaces as thrown; a non-ok response fails with the API message and status; an ok reply without an id fails with the missing-id error |
| Instagram.GraphApi.constructor | src/lib/instagram.ts:35-41 | a fresh client has sent nothing and answers from the given replies |
| Instagram.GraphApi.Send | src/lib/instagram.ts:35-43 | each request is appended to the log and answered with the reply for its position |
| Instagram.PollFrom | src/lib/instagram.ts:65-95 | the loop sends at most twenty requests, and a pass needs at least one more request than the attempt it started at |
| Instagram.PollShape | src/lib/instagram.ts:68-90 | a pass ends on a FINISHED reply with every earlier reply still processing |
| Instagram.PollSkipsProcessing | src/lib/instagram.ts:68-93 | replies that say "still processing" only move the loop on |
| Instagram.PollSucceedsIff | src/lib/instagram.ts:68-95 | polling passes exactly when some attempt below twenty says FINISHED and every earlier one says processing |
| Instagram.PollStopsAtFirstError | src/lib/instagram.ts:74-90 | the first failed call, rejection or ERROR status ends polling at once with that failure, after k+1 requests |
| Instagram.PollTimesOut | src/lib/instagram.ts:68-95 | twenty processing replies end in the time-out error after exactly twenty requests |
| Instagram.PollContainerStatus | src/lib/instagram.ts:59-96 | the loop's result and the status requests it sends are those of `PollFrom` |
| Instagram.ConfigFailsFast | src/lib/instagram.ts:132 | with configuration missing, publishing fails with that error before any request is sent |
| Instagram.PublishStepRun | src/lib/instagram.ts:98-126 | the publish step sends exactly one publish request and succeeds exactly when its reply yields a media id |
| Instagram.PollThenPublishRun | src/lib/instagram.ts:135-141 | after the container exists, the run succeeds exactly when polling passes and publishing returns an id; a publish request is sent only after a passing poll |
| Instagram.RequestsInOrder | src/lib/instagram.ts:128-142 | the requests go out as one create, then only status polls of the created container, then at most one publish |
| Instagram.PublishSucceedsIff | src/lib/instagram.ts:128-142 | publishing succeeds exactly when the configuration is present, create returns an id, polling passes and publish returns an id; the result then holds both ids |
| Instagram.PublishSpec | src/lib/instagram.ts:128-142 | defined by its body; characterised by `PublishSucceedsIff`, `RequestsInOrder` and `ConfigFailsFast` |
| Instagram.PollThenPublish | src/lib/instagram.ts:135-141 | defined by its body; characterised by `PollThenPublishRun` |
| Instagram.PublishStep | src/lib/instagram.ts:136 | defined by its body; characterised by `PublishStepRun` |
| Instagram.PublishInstagramVideo | src/lib/instagram.ts:128-142 | the method's result and the requests it sends are those of `PublishSpec` |
| Instagram.CreateMediaContainer | src/lib/instagram.ts:20-57 | sends one create request and reads the container id from its reply |
| Instagram.PublishContainer | src/lib/instagram.ts:98-126 | sends one publish request and reads the media id from its reply |
| Orchestrator.CheckCaption | src/app/actions.ts:17-20 | a caption passes exactly when it is a string of at most 2200 characters, and is then kept as given |
| Orchestrator.CheckSchedule | src/app/actions.ts:21-24 | an accepted schedule is later than a minute before now; an absent one becomes a day after now; an invalid date fails as such |
| Orchestrator.ValidateForm | src/app/actions.ts:28-43 | an accepted form holds a video file of a video type, a caption within the limit and a schedule later than a minute ago; it fails only with a file error or a schema issue. `FormAcceptedIff` and `ValidationOrder` give the exact condition and order |
| Orchestrator.FormAcceptedIff | src/app/actions.ts:16-45 | a form is accepted exactly when it has a video file, a string caption of at most 2200 characters and a schedule that is absent or later than a minute ago; the intake holds those values, and a day after now by default |
| Orchestrator.ValidationOrder | src/app/actions.ts:28-43 | a missing file hides everything else, then a non-video type, then the caption's issue comes before the schedule's |
| Orchestrator.ScheduleGrace | src/app/actions.ts:21-24 | a schedule is accepted exactly when it is later than now minus 60000 ms, and otherwise fails as not in the future |
| Orchestrator.BlobStore.constructor | src/app/actions.ts:49-52 | a new store holds no blobs |
| Orchestrator.BlobStore.Put | src/app/actions.ts:49-52 | stores the path and returns its public URL |
| Orchestrator.BlobStore.Del | src/app/actions.ts:76 | removes the path |
| Orchestrator.BlobName | src/app/actions.ts:48 | the blob name lies under `instagram/` and ends with the file's own name |
| Orchestrator.EndChanges | src/app/actions.ts:97-109 | defined by its body; characterised through `Settle` by `SettleOutcome` |
| Orchestrator.Settle | src/app/actions.ts:86-110 | defined by its body; characterised by `SettleOutcome` and `SettleComplete` |
| Orchestrator.ErrorText | src/app/actions.ts:107-108 | defined by its body: an `Error`'s message, otherwise "Unknown error publishing"; `EmptyRemoteMessageStoredEmpty` shows an empty message is kept |
| Orchestrator.SettleOutcome | src/app/actions.ts:86-110 | after both writes the row is published exactly when the publish succeeded, then with both ids, the publish time and no error; otherwise it is failed with the error text and keeps its earlier ids and publish time |
| Orchestrator.SettleComplete | src/app/actions.ts:97-103 | a settled row that is published has its publish time and both ids |
| Orchestrator.EmptyRemoteMessageStoredEmpty | src/lib/instagram.ts:47 | an API error whose message is the empty string stores an empty error message, because `??` only replaces null and undefined |
| Orchestrator.PublishRow | src/app/actions.ts:86-110 | marks the row publishing with no error, runs the protocol with the row's URL and caption, and writes the settled row: exactly two UPDATEs, and requests as `PublishSpec` gives them. The mark comes first because `PublishMarked` requires it |
| Orchestrator.PublishMarked | src/app/actions.ts:91-95 | the Graph API calls run only while the row is stored as publishing with no error; their result and requests are those of `PublishSpec` |
| Orchestrator.CreateScheduledUpload | src/app/actions.ts:27-62 | an invalid form throws its first error and touches nothing; a valid one stores the blob, then inserts the row with the blob's URL, path, caption and schedule; a database error leaves the stored blob behind |
| Orchestrator.RemoveUpload | src/app/actions.ts:64-78 | an unknown id throws "Upload not found", a publishing row refuses deletion, and otherwise the row is deleted and then its blob |
| Orchestrator.PublishDueUploads | src/app/actions.ts:80-113 | with nothing due nothing is written or sent; otherwise the earliest due row goes through one publish |
| Orchestrator.PublishNow | src/app/actions.ts:115-152 | an unknown id throws "Upload not found" and a publishing row "Already publishing this upload"; any other row is published whatever its status or schedule |
| Orchestrator.ClearFailure | src/app/actions.ts:154-157 | writes pending with no error to the id whatever its status; without a database it throws |
| Orchestrator.ClearedRow | src/app/actions.ts:155 | a cleared row is pending with no error and keeps its ids and publish time |
| Orchestrator.ClearedPublishedRowKeepsPublishTime | src/app/actions.ts:155 | clearing a published row leaves a pending row with a publish time, so a publish time does not imply the published status |
| Orchestrator.ActionsKeepComplete | src/app/actions.ts:54-155 | inserting, deleting, settling a publish and clearing keep every published row carrying its publish time and both ids |
| Cron.Split | src/app/api/cron/publish/route.ts:15 | `split(" ")` yields at least one piece |
| Cron.SplitPiecesHaveNoSpace | src/app/api/cron/publish/route.ts:15 | no piece contains a space |
| Cron.JoinSplit | src/app/api/cron/publish/route.ts:15 | joining the pieces with single spaces gives the header back |
| Cron.SplitJoin | src/app/api/cron/publish/route.ts:15 | pieces without spaces survive a join followed by a split |
| Cron.Verify | src/app/api/cron/publish/route.ts:4-17 | defined by its body; characterised by `VerifyIff` and `VerifyCases` |
| Cron.VerifyIff | src/app/api/cron/publish/route.ts:4-17 | with a secret set, a request passes exactly when the secret has no space and the header is `Bearer <secret>`, followed by nothing or by a space and anything |
| Cron.VerifyCases | src/app/api/cron/publish/route.ts:5-13 | with no secret every request passes; with one set, a missing or empty header fails, and a secret containing a space never matches |
| Cron.Get | src/app/api/cron/publish/route.ts:19-27 | an unauthorized request gets 401 and changes nothing; an authorized one runs one publishing sweep and gets 200 |
| Cron.Post | src/app/api/cron/publish/route.ts:29-31 | answers and acts exactly as `GET` does |

## Left out

- The network, the database server and the blob store are in-memory state. Each Graph API reply comes from an oracle indexed by request number.
- JSON parsing is not modelled. The model sees a reply through the fields the client reads: `error.message`, `id`, `status_code` and `status.description`.
- `response.json()` failing on a body is not modelled separately. It is folded into a rejected fetch, which reaches the caller unchanged.
- Request URLs and `API_VERSION` are not modelled. A request is identified by its kind and its parameters.
- The five-second wait between polls is not modelled, because time plays no part in the model. Each action reads the clock once, as `now`. The same instant serves `Date.now()` for the schedule check, `NOW()` in the due query and `new Date()` for the publish time.
- Ids come from the caller: `uuid()` for row ids and blob names. The blob store's URL is a fixed function of the origin and the path; any suffix the real store adds to URLs is not modelled.
- Date parsing is not modelled. `z.coerce.date()` is given as its outcome: a time, or an invalid date.
- Caption length counts characters, where JavaScript counts UTF-16 code units. Timestamps are whole milliseconds, with no time zone or ISO formatting.
- `ensureTable` (the CREATE TABLE on first use) is not modelled. A database failure other than a missing URL or a taken id is also not modelled: once the URL is set, writes do not fail. As a result, the path where the success UPDATE inside the `try` throws and the `catch` writes the failure is not covered.
- `revalidatePath`, concurrency between actions, and interleaving of a cron sweep with user actions are not modelled. Every action runs to completion on its own.
- A form whose caption field is missing throws "Expected string, received null", as zod words it. A file in the caption field gets zod's "received object" wording.
- Behaviour of the code a reader might not expect:
  - an update or delete of an unknown id is a silent no-op, not an error;
  - a published row that is cleared keeps its `published_at` (lemma `ClearedPublishedRowKeepsPublishTime`), so "`published_at` is set exactly when published" does not hold;
  - `clearFailure` accepts a row of any status, and `publishNow` accepts any row that is not publishing, whatever its schedule.
