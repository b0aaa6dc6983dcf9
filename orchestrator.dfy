/** The server actions of src/app/actions.ts: take a video into the queue,
    remove a queued video, publish the next due video, publish one video at
    once, and put a failed video back in the queue. They drive the upload
    table (`Repository`), the Graph API client (`Instagram`) and the blob
    store. */
module Orchestrator {
  import opened Common
  import opened Repository
  import opened Instagram

  /** The caption limit the form schema enforces, in characters. */
  const MaxCaptionLength: nat := 2200
  /** How far in the past a schedule may lie and still be accepted. */
  const PastGraceMillis: int := 60000
  /** The schedule a form without one gets: a day after now. */
  const DefaultDelayMillis: int := 86400000

  // ---------------------------------------------------------------------
  // Errors the actions throw

  /** A problem the form schema reports. */
  datatype Issue =
    | CaptionNull           // the caption field is missing: `z.string()` received null
    | CaptionObject         // the caption field holds a file
    | CaptionTooLong
    | InvalidDate
    | NotInFuture

  datatype ActionError =
    | MissingVideo
    | NotAVideo
    | InvalidForm(issue: Issue)
    | UploadNotFound
    | DeleteWhilePublishing
    | AlreadyPublishing
    | Database(error: DbError)

  function IssueMessage(i: Issue): string {
    match i
    case CaptionNull => "Expected string, received null"
    case CaptionObject => "Expected string, received object"
    case CaptionTooLong => "Caption must be shorter than the Instagram limit"
    case InvalidDate => "Invalid date"
    case NotInFuture => "Schedule must be in the future"
  }

  /** The `message` of the `Error` an action throws. */
  function ActionMessage(e: ActionError): string {
    match e
    case MissingVideo => "Missing video file"
    case NotAVideo => "File must be a video"
    case InvalidForm(i) => IssueMessage(i)
    case UploadNotFound => "Upload not found"
    case DeleteWhilePublishing => "Cannot delete an upload while publishing"
    case AlreadyPublishing => "Already publishing this upload"
    case Database(d) => DbMessage(d)
  }

  // ---------------------------------------------------------------------
  // The intake form

  datatype VideoFile = VideoFile(name: string, contentType: string)

  /** A field as `formData.get` returns it: null, a string or a file. */
  datatype FormValue = Absent | TextValue(text: string) | FileValue(file: VideoFile)

  /** The `scheduled_for` field after `z.coerce.date()`: absent, or the time
      of the `Date` the submitted value converts to, None for an invalid
      date. */
  datatype ScheduleField = NoSchedule | Coerced(time: Option<Millis>)

  datatype Form = Form(video: FormValue, caption: FormValue, scheduledFor: ScheduleField)

  /** What a valid form hands on: the file, the caption and the schedule. */
  datatype Intake = Intake(video: VideoFile, caption: string, scheduledFor: Millis)

  predicate StartsWith(s: string, prefix: string) {
    |prefix| <= |s| && s[..|prefix|] == prefix
  }

  predicate IsVideoType(contentType: string) {
    StartsWith(contentType, "video/")
  }

  /** The caption rule: a string of at most 2200 characters. */
  function CheckCaption(v: FormValue): (r: Result<string, Issue>)
    ensures r.Ok? <==> v.TextValue? && |v.text| <= MaxCaptionLength
    ensures r.Ok? ==> r.value == v.text
  {
    match v
    case Absent => Err(CaptionNull)
    case FileValue(_) => Err(CaptionObject)
    case TextValue(s) => if |s| > MaxCaptionLength then Err(CaptionTooLong) else Ok(s)
  }

  /** The schedule rule: a valid date later than a minute before now; an
      absent schedule is a day after now. */
  function CheckSchedule(s: ScheduleField, now: Millis): (r: Result<Millis, Issue>)
    ensures r.Ok? ==> r.value > now - PastGraceMillis
    ensures s.NoSchedule? ==> r == Ok(now + DefaultDelayMillis)
    ensures s.Coerced? && s.time.None? ==> r == Err(InvalidDate)
  {
    var t := match s
      case NoSchedule => Some(now + DefaultDelayMillis)
      case Coerced(time) => time;
    match t
    case None => Err(InvalidDate)
    case Some(time) => if time > now - PastGraceMillis then Ok(time) else Err(NotInFuture)
  }

  /** The checks `createScheduledUpload` makes before touching any store:
      the file, its type, then the schema, whose first issue is the
      caption's when both fields fail. */
  function ValidateForm(form: Form, now: Millis): (r: Result<Intake, ActionError>)
    ensures r.Ok? ==> && form.video == FileValue(r.value.video) && IsVideoType(r.value.video.contentType)
                      && |r.value.caption| <= MaxCaptionLength && r.value.scheduledFor > now - PastGraceMillis
    ensures r.Err? ==> r.error.MissingVideo? || r.error.NotAVideo? || r.error.InvalidForm?
  {
    if !form.video.FileValue? then Err(MissingVideo)
    else if !IsVideoType(form.video.file.contentType) then Err(NotAVideo)
    else
      match CheckCaption(form.caption)
      case Err(i) => Err(InvalidForm(i))
      case Ok(caption) =>
        match CheckSchedule(form.scheduledFor, now)
        case Err(i) => Err(InvalidForm(i))
        case Ok(time) => Ok(Intake(form.video.file, caption, time))
  }

  /** A form is accepted exactly when it carries a video file, a caption of
      at most 2200 characters and a schedule that is absent or a valid date
      later than a minute ago; the intake then carries those values. */
  lemma FormAcceptedIff(form: Form, now: Millis)
    ensures var r := ValidateForm(form, now);
            && (r.Ok? <==>
                  && form.video.FileValue? && IsVideoType(form.video.file.contentType)
                  && form.caption.TextValue? && |form.caption.text| <= MaxCaptionLength
                  && (form.scheduledFor.NoSchedule?
                      || (form.scheduledFor.time.Some? && form.scheduledFor.time.value > now - PastGraceMillis)))
            && (r.Ok? ==> r.value.video == form.video.file && r.value.caption == form.caption.text)
            && (r.Ok? && form.scheduledFor.NoSchedule? ==> r.value.scheduledFor == now + DefaultDelayMillis)
            && (r.Ok? && form.scheduledFor.Coerced? ==> r.value.scheduledFor == form.scheduledFor.time.value)
  {
  }

  /** The file is checked before the schema: a bad file hides every schema
      issue, and a bad caption hides a bad schedule. */
  lemma ValidationOrder(form: Form, now: Millis)
    ensures !form.video.FileValue? ==> ValidateForm(form, now) == Err(MissingVideo)
    ensures form.video.FileValue? && !IsVideoType(form.video.file.contentType) ==>
              ValidateForm(form, now) == Err(NotAVideo)
    ensures form.video.FileValue? && IsVideoType(form.video.file.contentType) && CheckCaption(form.caption).Err? ==>
              ValidateForm(form, now) == Err(InvalidForm(CheckCaption(form.caption).error))
  {
  }

  /** A schedule up to a minute in the past is still accepted; one a minute
      or more in the past is refused as not in the future. */
  lemma ScheduleGrace(now: Millis, t: Millis)
    ensures CheckSchedule(Coerced(Some(t)), now).Ok? <==> t > now - PastGraceMillis
    ensures t <= now - PastGraceMillis ==> CheckSchedule(Coerced(Some(t)), now) == Err(NotInFuture)
  {
  }

  // ---------------------------------------------------------------------
  // The blob store

  class BlobStore {
    /** The origin that public blob URLs start with. */
    const origin: string
    /** The paths of the stored blobs. */
    var paths: set<string>

    constructor (origin: string)
      ensures this.origin == origin && paths == {}
    {
      this.origin := origin;
      paths := {};
    }

    function UrlOf(path: string): string {
      origin + "/" + path
    }

    /** `put`: stores the file under the path and returns its public URL. */
    method Put(path: string) returns (url: string)
      modifies this
      ensures paths == old(paths) + {path}
      ensures url == UrlOf(path)
    {
      paths := paths + {path};
      url := UrlOf(path);
    }

    /** `del`: removes the blob at the path, if there is one. */
    method Del(path: string)
      modifies this
      ensures paths == old(paths) - {path}
    {
      paths := paths - {path};
    }
  }

  /** The blob name `createScheduledUpload` builds from a fresh uuid and the
      file name. */
  function BlobName(uuid: string, fileName: string): (name: string)
    ensures StartsWith(name, "instagram/")
    ensures |name| > |fileName| && name[|name| - |fileName|..] == fileName
  {
    "instagram/" + uuid + "-" + fileName
  }

  // ---------------------------------------------------------------------
  // Publishing one row

  /** The change set written before the publish starts. */
  const StartChanges := Changes(Some(Publishing), Keep, Keep, Keep, Write(None))

  /** What a `catch` clause stores: the message of an `Error`, a fixed text
      for anything else thrown. */
  function ErrorText(t: Thrown): string {
    match t
    case ErrorThrown(m) => m
    case NonErrorThrown => "Unknown error publishing"
  }

  /** The change set written when the publish has settled. */
  function EndChanges(result: Result<PublishResult, Failure>, now: Millis): Changes {
    match result
    case Ok(p) => Changes(Some(Published), Write(Some(p.containerId)), Write(Some(p.mediaId)), Write(Some(now)), Write(None))
    case Err(f) => Changes(Some(Failed), Keep, Keep, Keep, Write(Some(ErrorText(AsThrown(f)))))
  }

  /** The row after both writes of a publish. */
  function Settle(row: UploadRecord, result: Result<PublishResult, Failure>, now: Millis): UploadRecord {
    Patched(Patched(row, StartChanges), EndChanges(result, now))
  }

  /** A published row records when and as what it was published. */
  predicate Complete(r: UploadRecord) {
    r.status == Published ==> r.publishedAt.Some? && r.containerId.Some? && r.mediaId.Some?
  }

  ghost predicate AllComplete(rows: map<Id, UploadRecord>) {
    forall id | id in rows :: Complete(rows[id])
  }

  /** A settled row is published with both remote ids, the publish time and
      no error exactly when the publish succeeded; otherwise it is failed,
      carries the error text and keeps its earlier ids and publish time.
      Either way its identity, blob, caption and schedule are untouched. */
  lemma SettleOutcome(row: UploadRecord, result: Result<PublishResult, Failure>, now: Millis)
    ensures var s := Settle(row, result, now);
            && (s.status == Published <==> result.Ok?)
            && (result.Ok? ==>
                  && s.containerId == Some(result.value.containerId) && s.mediaId == Some(result.value.mediaId)
                  && s.publishedAt == Some(now) && s.errorMessage == None)
            && (result.Err? ==>
                  && s.status == Failed && s.errorMessage == Some(ErrorText(AsThrown(result.error)))
                  && s.containerId == row.containerId && s.mediaId == row.mediaId
                  && s.publishedAt == row.publishedAt)
            && s.id == row.id && s.blobUrl == row.blobUrl && s.blobPath == row.blobPath
            && s.caption == row.caption && s.scheduledFor == row.scheduledFor && s.createdAt == row.createdAt
  {
  }

  /** Whatever the row was, a settled row is complete. */
  lemma SettleComplete(row: UploadRecord, result: Result<PublishResult, Failure>, now: Millis)
    ensures Complete(Settle(row, result, now))
  {
    SettleOutcome(row, result, now);
  }

  /** The stored error text is the thrown error's own message, so a remote
      error with an empty message leaves an empty error text on a failed
      row. */
  lemma EmptyRemoteMessageStoredEmpty(row: UploadRecord, status: nat, now: Millis)
    ensures var f := IgFailure(CallFailed(Create, Some(""), status));
            var s := Settle(row, Err(f), now);
            s.status == Failed && s.errorMessage == Some("")
  {
  }

  /** `publishDueUploads` and `publishNow` after picking `row`: mark it
      publishing, run the publish protocol (which requires the mark), then
      write the outcome. */
  method PublishRow(table: UploadTable, api: GraphApi, cfg: IgConfig, row: UploadRecord, now: Millis)
    requires table.Valid() && table.configured
    requires row.id in table.rows && table.rows[row.id] == row
    modifies table, api
    ensures table.Valid()
    ensures var run := PublishSpec(cfg, row.blobUrl, row.caption, api.replies, old(api.requests));
            && api.requests == run.log
            && table.rows == old(table.rows)[row.id := Settle(row, run.result, now)]
            && table.writes == old(table.writes)
                 + [Update(row.id, SetClause(StartChanges)), Update(row.id, SetClause(EndChanges(run.result, now)))]
  {
    var _ := table.UpdateUploadStatus(row.id, StartChanges);
    var result := PublishMarked(table, api, cfg, row);
    var _ := table.UpdateUploadStatus(row.id, EndChanges(result, now));
  }

  /** The remote part of a publish. It runs only while the row is stored as
      publishing with no error, which is what turns `publishNow` and
      `removeUpload` away from a row whose Graph API calls are under way. */
  method PublishMarked(table: UploadTable, api: GraphApi, cfg: IgConfig, row: UploadRecord)
    returns (result: Result<PublishResult, Failure>)
    requires table.Valid() && row.id in table.rows
    requires table.rows[row.id].status == Publishing && table.rows[row.id].errorMessage == None
    modifies api
    ensures var run := PublishSpec(cfg, row.blobUrl, row.caption, api.replies, old(api.requests));
            result == run.result && api.requests == run.log
  {
    result := PublishInstagramVideo(api, cfg, row.blobUrl, row.caption);
  }

  // ---------------------------------------------------------------------
  // The actions

  /** `createScheduledUpload`: validate the form, store the file, insert the
      row. A database failure after the file is stored leaves the file in
      the store. */
  method CreateScheduledUpload(table: UploadTable, blobs: BlobStore, form: Form, now: Millis,
                               blobUuid: string, rowId: Id) returns (r: Outcome<ActionError>)
    requires table.Valid()
    modifies table, blobs
    ensures table.Valid()
    ensures var v := ValidateForm(form, now);
            && (v.Err? ==> r == Fail(v.error) && unchanged(table) && unchanged(blobs))
            && (v.Ok? ==>
                  var path := BlobName(blobUuid, v.value.video.name);
                  && blobs.paths == old(blobs.paths) + {path}
                  && (!table.configured ==> r == Fail(Database(NotConfigured)))
                  && (table.configured && rowId in old(table.rows) ==> r == Fail(Database(DuplicateKey)))
                  && (r.Fail? ==> table.rows == old(table.rows) && table.writes == old(table.writes))
                  && (r.Pass? ==>
                        && rowId !in old(table.rows)
                        && table.rows == old(table.rows)[rowId := NewRecord(rowId, blobs.UrlOf(path), path,
                                                                           Some(v.value.caption), v.value.scheduledFor, now)]
                        && table.writes == old(table.writes) + [Insert(table.rows[rowId])]))
  {
    if !form.video.FileValue? {
      return Fail(MissingVideo);
    }
    var video := form.video.file;
    if !IsVideoType(video.contentType) {
      return Fail(NotAVideo);
    }
    var caption := CheckCaption(form.caption);
    if caption.Err? {
      return Fail(InvalidForm(caption.error));
    }
    var schedule := CheckSchedule(form.scheduledFor, now);
    if schedule.Err? {
      return Fail(InvalidForm(schedule.error));
    }
    var path := BlobName(blobUuid, video.name);
    var url := blobs.Put(path);
    var created := table.CreateUpload(rowId, url, path, Some(caption.value), schedule.value, now);
    if created.Err? {
      return Fail(Database(created.error));
    }
    r := Pass;
  }

  /** `removeUpload`: a row that is not listed or is being published is
      refused; otherwise the row is deleted, then its file. */
  method RemoveUpload(table: UploadTable, blobs: BlobStore, id: Id) returns (r: Outcome<ActionError>)
    requires table.Valid()
    modifies table, blobs
    ensures table.Valid()
    ensures !table.configured || id !in old(table.rows) ==>
              r == Fail(UploadNotFound) && unchanged(table) && unchanged(blobs)
    ensures table.configured && id in old(table.rows) && old(table.rows)[id].status == Publishing ==>
              r == Fail(DeleteWhilePublishing) && unchanged(table) && unchanged(blobs)
    ensures r.Pass? <==> table.configured && id in old(table.rows) && old(table.rows)[id].status != Publishing
    ensures r.Pass? ==>
              && table.rows == old(table.rows) - {id}
              && table.writes == old(table.writes) + [Delete(id)]
              && blobs.paths == old(blobs.paths) - {old(table.rows)[id].blobPath}
  {
    var uploads := table.ListUploads();
    var found := FindById(uploads, id);
    FindInListing(table.rows, uploads, id);
    if found.None? {
      return Fail(UploadNotFound);
    }
    var upload := found.value;
    if upload.status == Publishing {
      return Fail(DeleteWhilePublishing);
    }
    var _ := table.DeleteUpload(id);
    blobs.Del(upload.blobPath);
    r := Pass;
  }

  /** What one sweep did: nothing when no row was due; otherwise `picked`,
      a row `getNextDueUpload` may answer, went through `PublishRow`. */
  ghost predicate IsSweep(oldRows: map<Id, UploadRecord>, oldWrites: seq<Write>, oldRequests: seq<Request>,
                          rows: map<Id, UploadRecord>, writes: seq<Write>, requests: seq<Request>,
                          cfg: IgConfig, replies: nat -> Reply, now: Millis, picked: Option<UploadRecord>)
  {
    && IsNextDue(oldRows, now, picked)
    && (picked.None? ==> rows == oldRows && writes == oldWrites && requests == oldRequests)
    && (picked.Some? ==>
          var row := picked.value;
          var run := PublishSpec(cfg, row.blobUrl, row.caption, replies, oldRequests);
          && requests == run.log
          && rows == oldRows[row.id := Settle(row, run.result, now)]
          && writes == oldWrites + [Update(row.id, SetClause(StartChanges)),
                                    Update(row.id, SetClause(EndChanges(run.result, now)))])
  }

  /** `publishDueUploads`: publish the earliest due row, if any. */
  method PublishDueUploads(table: UploadTable, api: GraphApi, cfg: IgConfig, now: Millis)
    returns (ghost picked: Option<UploadRecord>)
    requires table.Valid()
    modifies table, api
    ensures table.Valid()
    ensures !table.configured ==> picked.None?
    ensures IsSweep(old(table.rows), old(table.writes), old(api.requests), table.rows, table.writes, api.requests,
                    cfg, api.replies, now, picked)
  {
    var due := table.GetNextDueUpload(now);
    picked := due;
    if due.None? {
      return;
    }
    PublishRow(table, api, cfg, due.value, now);
  }

  /** `publishNow`: publish a listed row whatever its status or schedule,
      unless it is being published. */
  method PublishNow(table: UploadTable, api: GraphApi, cfg: IgConfig, id: Id, now: Millis)
    returns (r: Outcome<ActionError>)
    requires table.Valid()
    modifies table, api
    ensures table.Valid()
    ensures !table.configured || id !in old(table.rows) ==>
              r == Fail(UploadNotFound) && unchanged(table) && unchanged(api)
    ensures table.configured && id in old(table.rows) && old(table.rows)[id].status == Publishing ==>
              r == Fail(AlreadyPublishing) && unchanged(table) && unchanged(api)
    ensures r.Pass? <==> table.configured && id in old(table.rows) && old(table.rows)[id].status != Publishing
    ensures r.Pass? ==>
              var row := old(table.rows)[id];
              var run := PublishSpec(cfg, row.blobUrl, row.caption, api.replies, old(api.requests));
              && api.requests == run.log
              && table.rows == old(table.rows)[id := Settle(row, run.result, now)]
              && table.writes == old(table.writes)
                   + [Update(id, SetClause(StartChanges)), Update(id, SetClause(EndChanges(run.result, now)))]
  {
    var uploads := table.ListUploads();
    var found := FindById(uploads, id);
    FindInListing(table.rows, uploads, id);
    if found.None? {
      return Fail(UploadNotFound);
    }
    var upload := found.value;
    if upload.status == Publishing {
      return Fail(AlreadyPublishing);
    }
    PublishRow(table, api, cfg, upload, now);
    r := Pass;
  }

  /** The change set `clearFailure` writes. */
  const ClearChanges := Changes(Some(Pending), Keep, Keep, Keep, Write(None))

  /** `clearFailure`: put the row back in the queue with no error, whatever
      its status; an unknown id changes nothing. */
  method ClearFailure(table: UploadTable, id: Id) returns (r: Outcome<ActionError>)
    requires table.Valid()
    modifies table
    ensures table.Valid()
    ensures r == if table.configured then Pass else Fail(Database(NotConfigured))
    ensures !table.configured ==> table.rows == old(table.rows) && table.writes == old(table.writes)
    ensures table.configured ==>
              && table.writes == old(table.writes) + [Update(id, SetClause(ClearChanges))]
              && table.rows == if id in old(table.rows) then old(table.rows)[id := Patched(old(table.rows)[id], ClearChanges)]
                               else old(table.rows)
  {
    var cleared := table.UpdateUploadStatus(id, ClearChanges);
    if cleared.Fail? {
      return Fail(Database(cleared.error));
    }
    r := Pass;
  }

  /** A cleared row is pending with no error and keeps everything else,
      including the ids and publish time of an earlier publish. */
  lemma ClearedRow(row: UploadRecord)
    ensures var c := Patched(row, ClearChanges);
            && c.status == Pending && c.errorMessage == None
            && c.containerId == row.containerId && c.mediaId == row.mediaId && c.publishedAt == row.publishedAt
            && Complete(c)
  {
  }

  /** Clearing a published row gives a pending row that still has a publish
      time: a publish time does not imply the published status. */
  lemma ClearedPublishedRowKeepsPublishTime(row: UploadRecord)
    requires row.status == Published && Complete(row)
    ensures var c := Patched(row, ClearChanges);
            c.status == Pending && c.publishedAt.Some? && c.publishedAt == row.publishedAt
  {
  }

  // ---------------------------------------------------------------------
  // Every action keeps published rows complete

  /** Every write an action makes leaves every published row with its
      publish time and both remote ids: inserting, deleting, settling a
      publish and clearing a failure. */
  lemma ActionsKeepComplete(rows: map<Id, UploadRecord>, id: Id, row: UploadRecord,
                            result: Result<PublishResult, Failure>, now: Millis)
    requires AllComplete(rows)
    ensures AllComplete(rows - {id})
    ensures AllComplete(rows[id := Settle(row, result, now)])
    ensures id in rows ==> AllComplete(rows[id := Patched(rows[id], ClearChanges)])
    ensures row.status == Pending ==> AllComplete(rows[id := row])
  {
    SettleComplete(row, result, now);
  }
}
