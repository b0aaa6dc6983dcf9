/** The upload table of src/lib/db.ts, held in memory: one row per queued
    video, keyed by its id. Queries (`listUploads`, `getNextDueUpload`) are
    read-only methods over the map of rows; writes (`createUpload`,
    `updateUploadStatus`, `deleteUpload`) change the table object. A table
    built without a database URL refuses every write and answers every
    query with nothing. */
module Repository {
  import opened Common

  type Id = string

  /** Milliseconds since the epoch. */
  type Millis = int

  datatype UploadStatus = Pending | Publishing | Published | Failed

  datatype UploadRecord = UploadRecord(
    id: Id,
    blobUrl: string,
    blobPath: string,
    caption: Option<string>,
    status: UploadStatus,
    scheduledFor: Millis,
    publishedAt: Option<Millis>,
    createdAt: Millis,
    containerId: Option<string>,
    mediaId: Option<string>,
    errorMessage: Option<string>)

  /** Why a write throws: `POSTGRES_URL` is unset, or the new row's id is
      already taken (the primary-key violation Postgres reports). */
  datatype DbError = NotConfigured | DuplicateKey

  /** The `message` of the thrown `Error`. */
  function DbMessage(e: DbError): string {
    match e
    case NotConfigured => "Database is not configured"
    case DuplicateKey => "duplicate key value violates unique constraint \"agentic_uploads_pkey\""
  }

  /** Every row is stored under its own id. */
  ghost predicate WellFormed(rows: map<Id, UploadRecord>) {
    forall id | id in rows :: rows[id].id == id
  }

  // ---------------------------------------------------------------------
  // createUpload

  /** The caption as stored: trimmed, and null when nothing is left. */
  function StoredCaption(caption: Option<string>): (r: Option<string>)
    ensures r.None? <==> caption.None? || AllWhitespace(caption.value)
    ensures r.Some? ==> r.value == Trim(caption.value) && r.value != ""
  {
    match caption
    case None => None
    case Some(c) =>
      TrimEmptyIffBlank(c);
      if Trim(c) == "" then None else Some(Trim(c))
  }

  /** The row that the INSERT writes: pending, created now, and with no
      publish time, remote ids or error. */
  function NewRecord(id: Id, blobUrl: string, blobPath: string, caption: Option<string>,
                     scheduledFor: Millis, now: Millis): (r: UploadRecord)
    ensures r.id == id && r.status == Pending && r.createdAt == now && r.scheduledFor == scheduledFor
    ensures r.publishedAt.None? && r.containerId.None? && r.mediaId.None? && r.errorMessage.None?
  {
    UploadRecord(id, blobUrl, blobPath, StoredCaption(caption), Pending, scheduledFor,
                 None, now, None, None, None)
  }

  // ---------------------------------------------------------------------
  // updateUploadStatus: a partial update

  /** One field of a change set: left out (`undefined`), or written, where
      writing `None` stores null. */
  datatype Patch<T> = Keep | Write(value: T)

  datatype Changes = Changes(
    status: Option<UploadStatus>,
    containerId: Patch<Option<string>>,
    mediaId: Patch<Option<string>>,
    publishedAt: Patch<Option<Millis>>,
    errorMessage: Patch<Option<string>>)

  predicate NoFields(c: Changes) {
    c.status.None? && c.containerId.Keep? && c.mediaId.Keep? && c.publishedAt.Keep? && c.errorMessage.Keep?
  }

  function PatchOr<T>(p: Patch<T>, current: T): T {
    match p
    case Keep => current
    case Write(v) => v
  }

  /** What a partial update means: every field the change set names takes its
      new value, every other field keeps the one it had. */
  function Patched(row: UploadRecord, c: Changes): UploadRecord {
    row.(status := OrElse(c.status, row.status),
         containerId := PatchOr(c.containerId, row.containerId),
         mediaId := PatchOr(c.mediaId, row.mediaId),
         publishedAt := PatchOr(c.publishedAt, row.publishedAt),
         errorMessage := PatchOr(c.errorMessage, row.errorMessage))
  }

  /** One `column = $n` entry of the UPDATE's SET list. */
  datatype Assignment =
    | SetStatus(status: UploadStatus)
    | SetContainerId(containerId: Option<string>)
    | SetMediaId(mediaId: Option<string>)
    | SetPublishedAt(publishedAt: Option<Millis>)
    | SetErrorMessage(errorMessage: Option<string>)

  function StatusPart(c: Changes): seq<Assignment> {
    if c.status.Some? then [SetStatus(c.status.value)] else []
  }

  function ContainerIdPart(c: Changes): seq<Assignment> {
    if c.containerId.Write? then [SetContainerId(c.containerId.value)] else []
  }

  function MediaIdPart(c: Changes): seq<Assignment> {
    if c.mediaId.Write? then [SetMediaId(c.mediaId.value)] else []
  }

  function PublishedAtPart(c: Changes): seq<Assignment> {
    if c.publishedAt.Write? then [SetPublishedAt(c.publishedAt.value)] else []
  }

  function ErrorMessagePart(c: Changes): seq<Assignment> {
    if c.errorMessage.Write? then [SetErrorMessage(c.errorMessage.value)] else []
  }

  /** The SET list the source pushes, in its fixed column order: one entry
      per field the change set names, none for the rest. */
  function SetClause(c: Changes): (fields: seq<Assignment>)
    ensures |fields| <= 5
    ensures fields == [] <==> NoFields(c)
  {
    StatusPart(c) + ContainerIdPart(c) + MediaIdPart(c) + PublishedAtPart(c) + ErrorMessagePart(c)
  }

  function Assign(row: UploadRecord, a: Assignment): UploadRecord {
    match a
    case SetStatus(s) => row.(status := s)
    case SetContainerId(v) => row.(containerId := v)
    case SetMediaId(v) => row.(mediaId := v)
    case SetPublishedAt(v) => row.(publishedAt := v)
    case SetErrorMessage(v) => row.(errorMessage := v)
  }

  /** What the UPDATE does to the row it matches: the SET list, left to right. */
  function AssignAll(row: UploadRecord, fields: seq<Assignment>): UploadRecord
    decreases |fields|
  {
    if fields == [] then row else AssignAll(Assign(row, fields[0]), fields[1..])
  }

  lemma {:induction false} AssignAllAppend(row: UploadRecord, xs: seq<Assignment>, ys: seq<Assignment>)
    ensures AssignAll(row, xs + ys) == AssignAll(AssignAll(row, xs), ys)
    decreases |xs|
  {
    if xs == [] {
      assert xs + ys == ys;
    } else {
      assert (xs + ys)[1..] == xs[1..] + ys;
      AssignAllAppend(Assign(row, xs[0]), xs[1..], ys);
    }
  }

  lemma AssignAllSingle(row: UploadRecord, xs: seq<Assignment>)
    requires |xs| <= 1
    ensures AssignAll(row, xs) == if xs == [] then row else Assign(row, xs[0])
  {
  }

  /** The SET list the source builds writes exactly the change set: running it
      against a row gives the field-by-field partial update. */
  lemma {:induction false} SetClauseMeansPatch(row: UploadRecord, c: Changes)
    ensures AssignAll(row, SetClause(c)) == Patched(row, c)
  {
    var s, k, m, p, e := StatusPart(c), ContainerIdPart(c), MediaIdPart(c), PublishedAtPart(c), ErrorMessagePart(c);
    AssignAllAppend(row, s + k + m + p, e);
    AssignAllAppend(row, s + k + m, p);
    AssignAllAppend(row, s + k, m);
    AssignAllAppend(row, s, k);
    var r1 := AssignAll(row, s);
    AssignAllSingle(row, s);
    var r2 := AssignAll(r1, k);
    AssignAllSingle(r1, k);
    var r3 := AssignAll(r2, m);
    AssignAllSingle(r2, m);
    var r4 := AssignAll(r3, p);
    AssignAllSingle(r3, p);
    AssignAllSingle(r4, e);
  }

  /** Applying the same partial update twice is applying it once. */
  lemma PatchedIdempotent(row: UploadRecord, c: Changes)
    ensures Patched(Patched(row, c), c) == Patched(row, c)
  {
  }

  /** A partial update never touches the id, the blob, the caption, the
      schedule or the creation time. */
  lemma PatchedKeepsIdentity(row: UploadRecord, c: Changes)
    ensures var r := Patched(row, c);
            r.id == row.id && r.blobUrl == row.blobUrl && r.blobPath == row.blobPath
            && r.caption == row.caption && r.scheduledFor == row.scheduledFor
            && r.createdAt == row.createdAt
  {
  }

  // ---------------------------------------------------------------------
  // Queries

  /** A due row: still pending and scheduled no later than now. */
  predicate IsDue(r: UploadRecord, now: Millis) {
    r.status == Pending && r.scheduledFor <= now
  }

  /** The answer `getNextDueUpload` must give: nothing when no row is due,
      otherwise a due row of the table with the earliest schedule among the
      due rows. */
  ghost predicate IsNextDue(rows: map<Id, UploadRecord>, now: Millis, due: Option<UploadRecord>) {
    && (due.None? <==> forall id | id in rows :: !IsDue(rows[id], now))
    && (due.Some? ==>
          && due.value.id in rows && rows[due.value.id] == due.value
          && IsDue(due.value, now)
          && forall id | id in rows && IsDue(rows[id], now) :: due.value.scheduledFor <= rows[id].scheduledFor)
  }

  /** The answer `listUploads` must give: every row exactly once, ordered by
      schedule. */
  ghost predicate IsListing(rows: map<Id, UploadRecord>, list: seq<UploadRecord>) {
    && |list| == |rows|
    && (forall i | 0 <= i < |list| :: list[i].id in rows && rows[list[i].id] == list[i])
    && (forall id | id in rows :: rows[id] in list)
    && (forall i, j | 0 <= i < j < |list| :: list[i].id != list[j].id)
    && (forall i, j | 0 <= i < j < |list| :: list[i].scheduledFor <= list[j].scheduledFor)
  }

  /** The key of a row with the earliest schedule among `keys`. */
  method Earliest(rows: map<Id, UploadRecord>, keys: set<Id>) returns (k: Id)
    requires keys != {} && keys <= rows.Keys
    ensures k in keys
    ensures forall j | j in keys :: rows[k].scheduledFor <= rows[j].scheduledFor
  {
    k :| k in keys;
    var todo := keys - {k};
    while todo != {}
      invariant todo <= keys && k in keys
      invariant forall j | j in keys - todo :: rows[k].scheduledFor <= rows[j].scheduledFor
      decreases todo
    {
      var j :| j in todo;
      if rows[j].scheduledFor < rows[k].scheduledFor {
        k := j;
      }
      todo := todo - {j};
    }
  }

  /** `WHERE status = 'pending' AND scheduled_for <= NOW() ORDER BY
      scheduled_for ASC LIMIT 1`. */
  method NextDue(rows: map<Id, UploadRecord>, now: Millis) returns (due: Option<UploadRecord>)
    requires WellFormed(rows)
    ensures IsNextDue(rows, now, due)
  {
    var dueKeys := set id | id in rows && IsDue(rows[id], now);
    if dueKeys == {} {
      forall id | id in rows
        ensures !IsDue(rows[id], now)
      {
        assert id !in dueKeys;
      }
      return None;
    }
    var k := Earliest(rows, dueKeys);
    due := Some(rows[k]);
  }

  /** `ORDER BY scheduled_for ASC` over the whole table, by repeatedly taking
      the earliest of the rows not yet listed. */
  method ListBySchedule(rows: map<Id, UploadRecord>) returns (list: seq<UploadRecord>)
    requires WellFormed(rows)
    ensures IsListing(rows, list)
  {
    list := [];
    var todo := rows.Keys;
    while todo != {}
      invariant todo <= rows.Keys
      invariant |list| + |todo| == |rows.Keys|
      invariant forall i | 0 <= i < |list| :: list[i].id in rows && list[i].id !in todo && rows[list[i].id] == list[i]
      invariant forall id | id in rows && id !in todo :: rows[id] in list
      invariant forall i, j | 0 <= i < j < |list| :: list[i].id != list[j].id
      invariant forall i, j | 0 <= i < j < |list| :: list[i].scheduledFor <= list[j].scheduledFor
      invariant forall i, id | 0 <= i < |list| && id in todo :: list[i].scheduledFor <= rows[id].scheduledFor
      decreases todo
    {
      var k := Earliest(rows, todo);
      list := list + [rows[k]];
      todo := todo - {k};
    }
  }

  /** `uploads.find((item) => item.id === id)`: the first listed row with the
      id, if any. */
  function FindById(list: seq<UploadRecord>, id: Id): (r: Option<UploadRecord>)
    ensures r.None? <==> forall i | 0 <= i < |list| :: list[i].id != id
    ensures r.Some? ==> r.value in list && r.value.id == id
    ensures r.Some? ==> exists i | 0 <= i < |list| :: list[i] == r.value && forall j | 0 <= j < i :: list[j].id != id
  {
    if list == [] then None
    else if list[0].id == id then Some(list[0])
    else FindById(list[1..], id)
  }

  /** Looking an id up in a listing of the table finds exactly that id's row. */
  lemma FindInListing(rows: map<Id, UploadRecord>, list: seq<UploadRecord>, id: Id)
    requires WellFormed(rows) && IsListing(rows, list)
    ensures FindById(list, id) == if id in rows then Some(rows[id]) else None
  {
    var r := FindById(list, id);
    if id in rows {
      assert rows[id] in list;
      var i :| 0 <= i < |list| && list[i] == rows[id];
      assert list[i].id == id;
    }
  }

  // ---------------------------------------------------------------------
  // The table

  /** A write statement the database executed. */
  datatype Write =
    | Insert(row: UploadRecord)
    | Update(id: Id, fields: seq<Assignment>)
    | Delete(id: Id)

  class UploadTable {
    /** Whether `POSTGRES_URL` was set when the process started. */
    const configured: bool
    var rows: map<Id, UploadRecord>
    /** The write statements executed so far, oldest first. */
    ghost var writes: seq<Write>

    ghost predicate Valid()
      reads this
    {
      WellFormed(rows) && (!configured ==> rows == map[] && writes == [])
    }

    constructor (configured: bool)
      ensures Valid()
      ensures this.configured == configured && rows == map[] && writes == []
    {
      this.configured := configured;
      rows := map[];
      writes := [];
    }

    /** `createUpload`: inserts a pending row under the freshly drawn id. */
    method CreateUpload(id: Id, blobUrl: string, blobPath: string, caption: Option<string>,
                        scheduledFor: Millis, now: Millis) returns (r: Result<Id, DbError>)
      requires Valid()
      modifies this
      ensures Valid()
      ensures !configured ==> r == Err(NotConfigured)
      ensures configured && id in old(rows) ==> r == Err(DuplicateKey)
      ensures r.Err? ==> rows == old(rows) && writes == old(writes)
      ensures r.Ok? ==>
                && configured && id !in old(rows) && r.value == id
                && rows == old(rows)[id := NewRecord(id, blobUrl, blobPath, caption, scheduledFor, now)]
                && writes == old(writes) + [Insert(rows[id])]
    {
      if !configured {
        return Err(NotConfigured);
      }
      if id in rows {
        return Err(DuplicateKey);
      }
      var row := NewRecord(id, blobUrl, blobPath, caption, scheduledFor, now);
      rows := rows[id := row];
      writes := writes + [Insert(row)];
      r := Ok(id);
    }

    /** `listUploads`: every row once, earliest schedule first; an empty list
        without a database. */
    method ListUploads() returns (list: seq<UploadRecord>)
      requires Valid()
      ensures !configured ==> list == []
      ensures IsListing(rows, list)
    {
      if !configured {
        return [];
      }
      list := ListBySchedule(rows);
    }

    /** `getNextDueUpload`: the earliest due row, or nothing; nothing without a
        database. */
    method GetNextDueUpload(now: Millis) returns (due: Option<UploadRecord>)
      requires Valid()
      ensures !configured ==> due == None
      ensures IsNextDue(rows, now, due)
    {
      if !configured {
        return None;
      }
      due := NextDue(rows, now);
    }

    /** `updateUploadStatus`: builds the SET list from the fields present in
        the change set and runs one UPDATE, or nothing when the list is empty.
        An id that matches no row is left alone without an error. */
    method UpdateUploadStatus(id: Id, changes: Changes) returns (r: Outcome<DbError>)
      requires Valid()
      modifies this
      ensures Valid()
      ensures r == if configured then Pass else Fail(NotConfigured)
      ensures !configured || NoFields(changes) ==> rows == old(rows) && writes == old(writes)
      ensures configured && !NoFields(changes) ==>
                && writes == old(writes) + [Update(id, SetClause(changes))]
                && rows == if id in old(rows) then old(rows)[id := Patched(old(rows)[id], changes)]
                           else old(rows)
    {
      if !configured {
        return Fail(NotConfigured);
      }
      var fields: seq<Assignment> := [];
      if changes.status.Some? {
        fields := fields + [SetStatus(changes.status.value)];
      }
      assert fields == StatusPart(changes);
      if changes.containerId.Write? {
        fields := fields + [SetContainerId(changes.containerId.value)];
      }
      assert fields == StatusPart(changes) + ContainerIdPart(changes);
      if changes.mediaId.Write? {
        fields := fields + [SetMediaId(changes.mediaId.value)];
      }
      assert fields == StatusPart(changes) + ContainerIdPart(changes) + MediaIdPart(changes);
      if changes.publishedAt.Write? {
        fields := fields + [SetPublishedAt(changes.publishedAt.value)];
      }
      assert fields == StatusPart(changes) + ContainerIdPart(changes) + MediaIdPart(changes) + PublishedAtPart(changes);
      if changes.errorMessage.Write? {
        fields := fields + [SetErrorMessage(changes.errorMessage.value)];
      }
      assert fields == SetClause(changes);
      if |fields| == 0 {
        return Pass;
      }
      writes := writes + [Update(id, fields)];
      if id in rows {
        SetClauseMeansPatch(rows[id], changes);
        rows := rows[id := AssignAll(rows[id], fields)];
      }
      r := Pass;
    }

    /** `deleteUpload`: removes the row with the id; an absent id changes
        nothing. */
    method DeleteUpload(id: Id) returns (r: Outcome<DbError>)
      requires Valid()
      modifies this
      ensures Valid()
      ensures r == if configured then Pass else Fail(NotConfigured)
      ensures !configured ==> rows == old(rows) && writes == old(writes)
      ensures configured ==> rows == old(rows) - {id} && writes == old(writes) + [Delete(id)]
    {
      if !configured {
        return Fail(NotConfigured);
      }
      rows := rows - {id};
      writes := writes + [Delete(id)];
      r := Pass;
    }
  }
}
