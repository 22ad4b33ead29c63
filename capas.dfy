/** Corrective and preventive actions (CAPAs): creation, tenant-scoped lookup and listing,
    the field-by-field update with its completion stamp, status audit and optional comment,
    and comments and attachments. The CAPA table is keyed by id; comments, attachments and
    the audit trail are append-only logs. */
module Capas {
  import opened Common

  /** The CAPA status. `Open` and `Closed` are the ones the code names; every other value of
      the enumeration behaves alike here. */
  datatype CapaStatus = Open | Closed | OtherStatus(name: string)

  datatype Capa = Capa(
    id: Id,
    companyId: Id,
    originType: string,
    originId: Id,
    title: string,
    description: string,
    ownerId: Id,
    creatorId: Id,
    priority: Option<string>,     // None: the column's default
    dueDate: Option<int>,
    status: CapaStatus,
    completedAt: Option<int>)

  datatype CapaComment = CapaComment(id: Id, capaId: Id, userId: Id, content: string)

  datatype CapaAttachment = CapaAttachment(
    id: Id, capaId: Id, fileUrl: string, fileName: string, fileSize: nat, mimeType: string, uploadedBy: Id)

  /** The metadata an audit entry carries, by action. */
  datatype AuditDetail =
    | Created(title: string, ownerId: Id)                     // 'capa.created'
    | StatusChanged(oldStatus: CapaStatus, newStatus: CapaStatus)  // 'capa.status_changed'
    | CommentAdded(commentId: Id)                             // 'capa.comment_added'
    | AttachmentAdded(attachmentId: Id, fileName: string)     // 'capa.attachment_added'

  datatype AuditEntry = AuditEntry(companyId: Id, userId: Id, capaId: Id, detail: AuditDetail)

  /** The tables the service writes. One counter hands out the ids of all of them. */
  datatype CapaDb = CapaDb(
    capas: map<Id, Capa>,
    comments: seq<CapaComment>,
    attachments: seq<CapaAttachment>,
    audit: seq<AuditEntry>,
    nextId: Id)

  /** Every CAPA sits under its id, ids are below the counter, and every comment and
      attachment belongs to a stored CAPA. */
  ghost predicate ValidDb(db: CapaDb) {
    && (forall id :: id in db.capas ==> db.capas[id].id == id && id < db.nextId)
    && (forall i :: 0 <= i < |db.comments| ==> db.comments[i].capaId in db.capas && db.comments[i].id < db.nextId)
    && (forall i :: 0 <= i < |db.attachments| ==> db.attachments[i].capaId in db.capas && db.attachments[i].id < db.nextId)
  }

  /** An operation's answer together with the tables after it. */
  datatype Outcome<T> = Outcome(result: Result<T>, db: CapaDb)

  datatype CreateCapaDto = CreateCapaDto(
    title: string, description: string, ownerId: Id, dueDate: Option<int>,
    priority: Option<string>, originType: string, originId: Id)

  /** `create`: a new Open CAPA created by the caller, with a due date only when one is
      given, and a 'capa.created' audit entry. */
  function CreateSpec(db: CapaDb, dto: CreateCapaDto, companyId: Id, creatorId: Id): (o: Outcome<Capa>)
    ensures o.result.Ok?
    ensures var c := o.result.value;
      && c.id == db.nextId && (ValidDb(db) ==> c.id !in db.capas)
      && c.companyId == companyId && c.creatorId == creatorId && c.status == Open && c.completedAt.None?
      && c.dueDate == dto.dueDate && c.priority == dto.priority && c.ownerId == dto.ownerId
      && c.title == dto.title && c.description == dto.description
      && c.originType == dto.originType && c.originId == dto.originId
      && o.db.capas == db.capas[c.id := c]
      && o.db.audit == db.audit + [AuditEntry(companyId, creatorId, c.id, Created(dto.title, dto.ownerId))]
    ensures o.db.comments == db.comments && o.db.attachments == db.attachments
    ensures ValidDb(db) ==> ValidDb(o.db)
  {
    var c := Capa(db.nextId, companyId, dto.originType, dto.originId, dto.title, dto.description,
                  dto.ownerId, creatorId, dto.priority, dto.dueDate, Open, None);
    Outcome(Ok(c), db.(capas := db.capas[c.id := c], nextId := db.nextId + 1,
                       audit := db.audit + [AuditEntry(companyId, creatorId, c.id, Created(dto.title, dto.ownerId))]))
  }

  /** `findOne`: the CAPA with that id, provided it belongs to the caller's company. */
  function FindOne(capas: map<Id, Capa>, id: Id, companyId: Id): (r: Result<Capa>)
    ensures r.Ok? <==> id in capas && capas[id].companyId == companyId
    ensures r.Ok? ==> r.value == capas[id]
    ensures r.Err? ==> r.error == NotFound("CAPA not found")
  {
    if id in capas && capas[id].companyId == companyId then Ok(capas[id]) else Err(NotFound("CAPA not found"))
  }

  /** `findAll`: the company's CAPAs, narrowed by status and owner when those are given. */
  function FindAll(capas: map<Id, Capa>, companyId: Id, status: Option<CapaStatus>, ownerId: Option<Id>): (r: set<Capa>)
    ensures forall c :: c in r <==>
      && c in capas.Values
      && c.companyId == companyId
      && (status.Some? ==> c.status == status.value)
      && (ownerId.Some? ==> c.ownerId == ownerId.value)
  {
    set c | c in capas.Values && c.companyId == companyId
            && (status.Some? ==> c.status == status.value)
            && (ownerId.Some? ==> c.ownerId == ownerId.value)
  }

  /** The body of `PATCH /capas/:id`. Absent and empty strings are both falsy. */
  datatype UpdateCapaDto = UpdateCapaDto(
    title: Option<string>, description: Option<string>, status: Option<CapaStatus>,
    ownerId: Option<Id>, priority: Option<string>, dueDate: Option<int>, comment: Option<string>)

  /** The row `update` writes: each truthy field of the dto replaces the stored one, and a
      Closed status stamps the completion time. */
  function Merge(c: Capa, dto: UpdateCapaDto, now: int): (r: Capa)
    ensures r.title == OrElse(dto.title, c.title)
    ensures r.description == OrElse(dto.description, c.description)
    ensures r.status == (if dto.status.Some? then dto.status.value else c.status)
    ensures r.ownerId == (if dto.ownerId.Some? then dto.ownerId.value else c.ownerId)
    ensures r.priority == (if Given(dto.priority) then dto.priority else c.priority)
    ensures r.dueDate == (if dto.dueDate.Some? then dto.dueDate else c.dueDate)
    ensures r.completedAt == (if dto.status == Some(Closed) then Some(now) else c.completedAt)
    ensures r.id == c.id && r.companyId == c.companyId && r.creatorId == c.creatorId
    ensures r.originType == c.originType && r.originId == c.originId
  {
    c.(title := OrElse(dto.title, c.title),
       description := OrElse(dto.description, c.description),
       status := if dto.status.Some? then dto.status.value else c.status,
       ownerId := if dto.ownerId.Some? then dto.ownerId.value else c.ownerId,
       priority := if Given(dto.priority) then dto.priority else c.priority,
       dueDate := if dto.dueDate.Some? then dto.dueDate else c.dueDate,
       completedAt := if dto.status == Some(Closed) then Some(now) else c.completedAt)
  }

  /** Applying the same update twice at the same time is the same as applying it once. */
  lemma MergeIsIdempotent(c: Capa, dto: UpdateCapaDto, now: int)
    ensures Merge(Merge(c, dto, now), dto, now) == Merge(c, dto, now)
  {
  }

  /** `addComment`: after the tenant-scoped lookup, a comment row and its audit entry. */
  function AddCommentSpec(db: CapaDb, capaId: Id, companyId: Id, content: string, userId: Id): (o: Outcome<CapaComment>)
    ensures FindOne(db.capas, capaId, companyId).Err? ==> o == Outcome(Err(NotFound("CAPA not found")), db)
    ensures FindOne(db.capas, capaId, companyId).Ok? ==>
      var cm := CapaComment(db.nextId, capaId, userId, content);
      && o.result == Ok(cm)
      && o.db == db.(comments := db.comments + [cm], nextId := db.nextId + 1,
                     audit := db.audit + [AuditEntry(companyId, userId, capaId, CommentAdded(cm.id))])
    ensures ValidDb(db) ==> ValidDb(o.db)
  {
    if FindOne(db.capas, capaId, companyId).Err? then Outcome(Err(NotFound("CAPA not found")), db)
    else
      var cm := CapaComment(db.nextId, capaId, userId, content);
      Outcome(Ok(cm), db.(comments := db.comments + [cm], nextId := db.nextId + 1,
                          audit := db.audit + [AuditEntry(companyId, userId, capaId, CommentAdded(cm.id))]))
  }

  /** `addAttachment`: after the tenant-scoped lookup, an attachment row and its audit entry. */
  function AddAttachmentSpec(db: CapaDb, capaId: Id, companyId: Id, fileUrl: string, fileName: string,
                             fileSize: nat, mimeType: string, userId: Id): (o: Outcome<CapaAttachment>)
    ensures FindOne(db.capas, capaId, companyId).Err? ==> o == Outcome(Err(NotFound("CAPA not found")), db)
    ensures FindOne(db.capas, capaId, companyId).Ok? ==>
      var a := CapaAttachment(db.nextId, capaId, fileUrl, fileName, fileSize, mimeType, userId);
      && o.result == Ok(a)
      && o.db == db.(attachments := db.attachments + [a], nextId := db.nextId + 1,
                     audit := db.audit + [AuditEntry(companyId, userId, capaId, AttachmentAdded(a.id, fileName))])
    ensures ValidDb(db) ==> ValidDb(o.db)
  {
    if FindOne(db.capas, capaId, companyId).Err? then Outcome(Err(NotFound("CAPA not found")), db)
    else
      var a := CapaAttachment(db.nextId, capaId, fileUrl, fileName, fileSize, mimeType, userId);
      Outcome(Ok(a), db.(attachments := db.attachments + [a], nextId := db.nextId + 1,
                         audit := db.audit + [AuditEntry(companyId, userId, capaId, AttachmentAdded(a.id, fileName))]))
  }

  /** The audit entry `update` writes: only for a given status that differs from the old one. */
  function StatusAudit(id: Id, old_: Capa, dto: UpdateCapaDto, companyId: Id, userId: Id): (r: seq<AuditEntry>)
    ensures |r| <= 1
    ensures |r| == 1 <==> dto.status.Some? && dto.status.value != old_.status
    ensures |r| == 1 ==> r[0] == AuditEntry(companyId, userId, id, StatusChanged(old_.status, dto.status.value))
  {
    if dto.status.Some? && dto.status.value != old_.status
    then [AuditEntry(companyId, userId, id, StatusChanged(old_.status, dto.status.value))]
    else []
  }

  /** `update`: the tenant-scoped lookup, the merged row, the status audit, then the comment. */
  function UpdateSpec(db: CapaDb, id: Id, companyId: Id, dto: UpdateCapaDto, userId: Id, now: int): (o: Outcome<Capa>)
    // a CAPA of another company, or none, is not found and nothing is written
    ensures FindOne(db.capas, id, companyId).Err? ==> o == Outcome(Err(NotFound("CAPA not found")), db)
    ensures FindOne(db.capas, id, companyId).Ok? ==>
      && o.result == Ok(Merge(db.capas[id], dto, now))
      // only that row changes
      && o.db.capas == db.capas[id := Merge(db.capas[id], dto, now)]
      && o.db.attachments == db.attachments
      // at most a status entry, then exactly one comment with its entry when a comment is given
      && (Given(dto.comment) ==>
            && o.db.comments == db.comments + [CapaComment(db.nextId, id, userId, dto.comment.value)]
            && o.db.audit == db.audit + StatusAudit(id, db.capas[id], dto, companyId, userId)
                                      + [AuditEntry(companyId, userId, id, CommentAdded(db.nextId))])
      && (!Given(dto.comment) ==>
            && o.db.comments == db.comments
            && o.db.audit == db.audit + StatusAudit(id, db.capas[id], dto, companyId, userId))
    ensures ValidDb(db) ==> ValidDb(o.db)
  {
    var found := FindOne(db.capas, id, companyId);
    if found.Err? then Outcome(Err(found.error), db)
    else
      var updated := Merge(found.value, dto, now);
      var written := db.(capas := db.capas[id := updated],
                         audit := db.audit + StatusAudit(id, found.value, dto, companyId, userId));
      if Given(dto.comment) then
        var commented := AddCommentSpec(written, id, companyId, dto.comment.value, userId);
        Outcome(Ok(updated), commented.db)
      else Outcome(Ok(updated), written)
  }

  /** A CAPA created for one company is found by it and by no other. */
  lemma CreatedIsScoped(db: CapaDb, dto: CreateCapaDto, companyId: Id, creatorId: Id, other: Id)
    requires other != companyId
    ensures var o := CreateSpec(db, dto, companyId, creatorId);
      && FindOne(o.db.capas, o.result.value.id, companyId) == Ok(o.result.value)
      && FindOne(o.db.capas, o.result.value.id, other).Err?
      && o.result.value in FindAll(o.db.capas, companyId, None, None)
      && o.result.value !in FindAll(o.db.capas, other, None, None)
  {
    var o := CreateSpec(db, dto, companyId, creatorId);
    assert o.result.value in o.db.capas.Values by {
      assert o.db.capas[o.result.value.id] == o.result.value;
    }
  }

  /** Another company's CAPA cannot be read, changed, commented on or given attachments:
      every entry point answers NotFound and writes nothing. */
  lemma OtherTenantUntouched(db: CapaDb, id: Id, companyId: Id, dto: UpdateCapaDto, userId: Id, now: int,
                             content: string, url: string, name: string, size: nat, mime: string)
    requires id in db.capas && db.capas[id].companyId != companyId
    ensures UpdateSpec(db, id, companyId, dto, userId, now) == Outcome(Err(NotFound("CAPA not found")), db)
    ensures AddCommentSpec(db, id, companyId, content, userId) == Outcome(Err(NotFound("CAPA not found")), db)
    ensures AddAttachmentSpec(db, id, companyId, url, name, size, mime, userId) == Outcome(Err(NotFound("CAPA not found")), db)
  {
  }

  /** The CAPA tables behind the service. */
  class CapaStore {
    var capas: map<Id, Capa>
    var comments: seq<CapaComment>
    var attachments: seq<CapaAttachment>
    var audit: seq<AuditEntry>
    var nextId: Id

    function Db(): CapaDb
      reads this
    {
      CapaDb(capas, comments, attachments, audit, nextId)
    }

    ghost predicate Valid()
      reads this
    {
      ValidDb(Db())
    }

    constructor ()
      ensures Valid() && Db() == CapaDb(map[], [], [], [], 0)
    {
      capas := map[];
      comments := [];
      attachments := [];
      audit := [];
      nextId := 0;
    }

    /** A fresh id from the store's counter. */
    method FreshId() returns (id: Id)
      modifies this
      ensures id == old(nextId) && nextId == old(nextId) + 1
      ensures capas == old(capas) && comments == old(comments) && attachments == old(attachments) && audit == old(audit)
    {
      id := nextId;
      nextId := nextId + 1;
    }

    /** `capa.create` as another service issues it inside its own transaction: the row
        under a fresh id, with no audit entry. */
    method InsertRow(c: Capa) returns (row: Capa)
      modifies this
      ensures row == c.(id := old(nextId))
      ensures capas == old(capas)[row.id := row] && nextId == old(nextId) + 1
      ensures comments == old(comments) && attachments == old(attachments) && audit == old(audit)
    {
      var id := FreshId();
      row := c.(id := id);
      capas := capas[id := row];
    }

    /** The rollback of an aborted transaction: the tables return to `db`. */
    method Restore(db: CapaDb)
      modifies this
      ensures Db() == db
    {
      capas, comments, attachments, audit, nextId := db.capas, db.comments, db.attachments, db.audit, db.nextId;
    }

    /** `CapasService.create` */
    method Create(dto: CreateCapaDto, companyId: Id, creatorId: Id) returns (capa: Capa)
      modifies this
      ensures Outcome(Ok(capa), Db()) == CreateSpec(old(Db()), dto, companyId, creatorId)
    {
      var id := FreshId();
      capa := Capa(id, companyId, dto.originType, dto.originId, dto.title, dto.description,
                   dto.ownerId, creatorId, dto.priority, dto.dueDate, Open, None);
      capas := capas[id := capa];
      audit := audit + [AuditEntry(companyId, creatorId, id, Created(capa.title, capa.ownerId))];
    }

    /** `CapasService.addComment` */
    method AddComment(capaId: Id, companyId: Id, content: string, userId: Id) returns (r: Result<CapaComment>)
      modifies this
      ensures Outcome(r, Db()) == AddCommentSpec(old(Db()), capaId, companyId, content, userId)
    {
      var found := FindOne(capas, capaId, companyId);
      if found.Err? {
        return Err(found.error);
      }
      var id := FreshId();
      var comment := CapaComment(id, capaId, userId, content);
      comments := comments + [comment];
      audit := audit + [AuditEntry(companyId, userId, capaId, CommentAdded(id))];
      r := Ok(comment);
    }

    /** `CapasService.addAttachment` */
    method AddAttachment(capaId: Id, companyId: Id, fileUrl: string, fileName: string,
                         fileSize: nat, mimeType: string, userId: Id) returns (r: Result<CapaAttachment>)
      modifies this
      ensures Outcome(r, Db()) == AddAttachmentSpec(old(Db()), capaId, companyId, fileUrl, fileName, fileSize, mimeType, userId)
    {
      var found := FindOne(capas, capaId, companyId);
      if found.Err? {
        return Err(found.error);
      }
      var id := FreshId();
      var attachment := CapaAttachment(id, capaId, fileUrl, fileName, fileSize, mimeType, userId);
      attachments := attachments + [attachment];
      audit := audit + [AuditEntry(companyId, userId, capaId, AttachmentAdded(id, fileName))];
      r := Ok(attachment);
    }

    /** `CapasService.update`: the `updates` object is built field by field, then written. */
    method Update(id: Id, companyId: Id, dto: UpdateCapaDto, userId: Id, now: int) returns (r: Result<Capa>)
      modifies this
      ensures Outcome(r, Db()) == UpdateSpec(old(Db()), id, companyId, dto, userId, now)
    {
      var found := FindOne(capas, id, companyId);
      if found.Err? {
        return Err(found.error);
      }
      var capa := found.value;
      var oldStatus := capa.status;
      var updated := capa;
      if Given(dto.title) { updated := updated.(title := dto.title.value); }
      if Given(dto.description) { updated := updated.(description := dto.description.value); }
      if dto.status.Some? { updated := updated.(status := dto.status.value); }
      if dto.ownerId.Some? { updated := updated.(ownerId := dto.ownerId.value); }
      if Given(dto.priority) { updated := updated.(priority := dto.priority); }
      if dto.dueDate.Some? { updated := updated.(dueDate := dto.dueDate); }
      if dto.status == Some(Closed) { updated := updated.(completedAt := Some(now)); }
      assert updated == Merge(capa, dto, now);
      capas := capas[id := updated];
      if dto.status.Some? && dto.status.value != oldStatus {
        audit := audit + [AuditEntry(companyId, userId, id, StatusChanged(oldStatus, dto.status.value))];
      }
      assert audit == old(audit) + StatusAudit(id, capa, dto, companyId, userId);
      if Given(dto.comment) {
        assert FindOne(capas, id, companyId).Ok?;
        var _ := AddComment(id, companyId, dto.comment.value, userId);
      }
      r := Ok(updated);
    }
  }
}
