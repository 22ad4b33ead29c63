/** The incident table and the server's idempotent create: a tenant check, then a lookup
    by (companyId, clientTempId), then one insert. Also the where-clause and pagination
    arithmetic of the incident listing. */
module Incidents {
  import opened Common

  /** Message of the database's unique-constraint violation. */
  const ClientTempIdTaken := "Unique constraint failed on (companyId, clientTempId)"

  datatype Coords = Coords(lat: real, lng: real)

  /** The body of `POST /incidents` (CreateIncidentDto). `createdAt` is the parsed time. */
  datatype IncidentDto = IncidentDto(
    clientTempId: Option<string>,
    companyId: Id,
    siteId: Id,
    reporterId: Option<Id>,
    reporterName: Option<string>,
    incidentType: string,
    severity: string,
    description: string,
    coords: Option<Coords>,
    photos: Option<seq<string>>,
    createdAt: Option<int>)

  /** A row of the incident table. */
  datatype Incident = Incident(
    id: Id,
    companyId: Id,
    siteId: Id,
    reporterId: Option<Id>,
    reporterName: Option<string>,
    incidentType: string,
    severity: string,
    description: string,
    coords: Option<Coords>,
    photos: seq<string>,
    clientTempId: Option<string>,
    syncedFromClientId: Option<string>,
    status: string,
    createdAt: int)

  /** The row the create paths insert: `key` goes into both idempotency columns, the status
      is 'new', photos default to [] and a missing createdAt takes the database's now. */
  function NewIncident(id: Id, dto: IncidentDto, key: Option<string>, now: int): (r: Incident)
    ensures r.id == id && r.companyId == dto.companyId && r.siteId == dto.siteId
    ensures r.clientTempId == key && r.syncedFromClientId == key && r.status == "new"
    ensures r.photos == (if dto.photos.Some? then dto.photos.value else [])
    ensures r.createdAt == (if dto.createdAt.Some? then dto.createdAt.value else now)
  {
    Incident(id, dto.companyId, dto.siteId, dto.reporterId, dto.reporterName,
             dto.incidentType, dto.severity, dto.description, dto.coords,
             if dto.photos.Some? then dto.photos.value else [],
             key, key, "new",
             if dto.createdAt.Some? then dto.createdAt.value else now)
  }

  /** The table's contents and the next id the database hands out. */
  datatype IncidentDb = IncidentDb(rows: seq<Incident>, nextId: Id)

  /** An operation's answer together with the table after it. */
  datatype Step<T> = Step(result: Result<T>, db: IncidentDb)

  /** The row holding `(company, key)`: `findUnique` on the compound unique key. */
  function Find(rows: seq<Incident>, company: Id, key: string): (r: Option<Incident>)
    ensures r.Some? ==> r.value in rows && r.value.companyId == company && r.value.clientTempId == Some(key)
    ensures r.None? ==> forall i :: 0 <= i < |rows| ==> !(rows[i].companyId == company && rows[i].clientTempId == Some(key))
  {
    if rows == [] then None
    else if rows[0].companyId == company && rows[0].clientTempId == Some(key) then Some(rows[0])
    else Find(rows[1..], company, key)
  }

  /** The unique constraint on (companyId, clientTempId); rows without a key are exempt. */
  ghost predicate UniqueKeys(rows: seq<Incident>) {
    forall i, j :: 0 <= i < j < |rows| && rows[i].clientTempId.Some? && rows[i].companyId == rows[j].companyId
      ==> rows[i].clientTempId != rows[j].clientTempId
  }

  /** Ids are handed out in increasing order, so they are distinct and below `nextId`. */
  ghost predicate ValidDb(db: IncidentDb) {
    && UniqueKeys(db.rows)
    && (forall i :: 0 <= i < |db.rows| ==> db.rows[i].id < db.nextId)
    && (forall i, j :: 0 <= i < j < |db.rows| ==> db.rows[i].id < db.rows[j].id)
  }

  /** `prisma.incident.create`: the insert, refused with a conflict when it would break the
      unique constraint on (companyId, clientTempId). */
  function Insert(db: IncidentDb, dto: IncidentDto, key: Option<string>, now: int): (s: Step<Incident>)
    ensures key.Some? && Find(db.rows, dto.companyId, key.value).Some? ==> s.result.Err? && s.db == db
    ensures !(key.Some? && Find(db.rows, dto.companyId, key.value).Some?) ==>
      && s.result == Ok(NewIncident(db.nextId, dto, key, now))
      && s.db == IncidentDb(db.rows + [NewIncident(db.nextId, dto, key, now)], db.nextId + 1)
    ensures ValidDb(db) ==> ValidDb(s.db)
  {
    if key.Some? && Find(db.rows, dto.companyId, key.value).Some? then
      Step(Err(Conflict(ClientTempIdTaken)), db)
    else
      var row := NewIncident(db.nextId, dto, key, now);
      Step(Ok(row), IncidentDb(db.rows + [row], db.nextId + 1))
  }

  /** The answer of `create`: the dto's clientTempId echoed, and the created or existing row. */
  datatype CreateResponse = CreateResponse(clientTempId: Option<string>, incident: Incident)

  /** `IncidentsService.create`, as a function of the table before it. */
  function CreateSpec(db: IncidentDb, dto: IncidentDto, userCompanyId: Id, now: int): (s: Step<CreateResponse>)
    // the tenant check comes first and rejects before any lookup or write
    ensures dto.companyId != userCompanyId ==> s.result == Err(Forbidden(AccessDenied)) && s.db == db
    // a truthy key already stored for this company: that row, nothing written
    ensures dto.companyId == userCompanyId && Given(dto.clientTempId)
              && Find(db.rows, dto.companyId, dto.clientTempId.value).Some? ==>
      && s.result == Ok(CreateResponse(dto.clientTempId, Find(db.rows, dto.companyId, dto.clientTempId.value).value))
      && s.db == db
    // no key: every call inserts exactly one new row
    ensures dto.companyId == userCompanyId && dto.clientTempId.None? ==>
      && s.result == Ok(CreateResponse(None, NewIncident(db.nextId, dto, None, now)))
      && s.db.rows == db.rows + [NewIncident(db.nextId, dto, None, now)]
    // a truthy key not yet stored: exactly one new row carrying it
    ensures dto.companyId == userCompanyId && Given(dto.clientTempId)
              && Find(db.rows, dto.companyId, dto.clientTempId.value).None? ==>
      && s.result == Ok(CreateResponse(dto.clientTempId, NewIncident(db.nextId, dto, dto.clientTempId, now)))
      && s.db.rows == db.rows + [NewIncident(db.nextId, dto, dto.clientTempId, now)]
    // an empty key skips the lookup, and the insert then collides with a stored empty key
    ensures (dto.companyId == userCompanyId && dto.clientTempId == Some("") && Find(db.rows, dto.companyId, "").Some?)
      ==> s.result.Err? && s.result.error.Conflict? && s.db == db
    // an empty key with no stored empty key: the lookup is skipped and one row carrying "" is inserted
    ensures (dto.companyId == userCompanyId && dto.clientTempId == Some("") && Find(db.rows, dto.companyId, "").None?)
      ==> && s.result == Ok(CreateResponse(Some(""), NewIncident(db.nextId, dto, Some(""), now)))
          && s.db.rows == db.rows + [NewIncident(db.nextId, dto, Some(""), now)]
    ensures s.result.Ok? ==> s.result.value.clientTempId == dto.clientTempId
    ensures ValidDb(db) ==> ValidDb(s.db)
  {
    if dto.companyId != userCompanyId then
      Step(Err(Forbidden(AccessDenied)), db)
    else if Given(dto.clientTempId) && Find(db.rows, dto.companyId, dto.clientTempId.value).Some? then
      Step(Ok(CreateResponse(dto.clientTempId, Find(db.rows, dto.companyId, dto.clientTempId.value).value)), db)
    else
      var ins := Insert(db, dto, dto.clientTempId, now);
      if ins.result.Err? then Step(Err(ins.result.error), ins.db)
      else Step(Ok(CreateResponse(dto.clientTempId, ins.result.value)), ins.db)
  }

  /** Appending a row changes a lookup only when the key was absent and the row carries it. */
  lemma {:induction false} FindAppend(rows: seq<Incident>, x: Incident, company: Id, key: string)
    ensures Find(rows + [x], company, key) ==
      if Find(rows, company, key).Some? then Find(rows, company, key)
      else if x.companyId == company && x.clientTempId == Some(key) then Some(x)
      else None
  {
    if rows != [] {
      assert (rows + [x])[1..] == rows[1..] + [x];
      FindAppend(rows[1..], x, company, key);
    }
  }

  /** A lookup in a longer table: rows already holding the key keep answering it. */
  lemma {:induction false} FindConcat(a: seq<Incident>, b: seq<Incident>, company: Id, key: string)
    ensures Find(a + b, company, key) == if Find(a, company, key).Some? then Find(a, company, key) else Find(b, company, key)
  {
    if a != [] {
      assert (a + b)[1..] == a[1..] + b;
      FindConcat(a[1..], b, company, key);
    } else {
      assert a + b == b;
    }
  }

  /** Two sequential creates with the same truthy key: the second returns what the first
      returned and writes nothing, so the table keeps one row for the key. */
  lemma {:induction false} CreateIsIdempotent(db: IncidentDb, dto: IncidentDto, userCompanyId: Id, now1: int, now2: int)
    requires Given(dto.clientTempId)
    requires CreateSpec(db, dto, userCompanyId, now1).result.Ok?
    ensures var first := CreateSpec(db, dto, userCompanyId, now1);
            var second := CreateSpec(first.db, dto, userCompanyId, now2);
            second.result == first.result && second.db == first.db
  {
    var key := dto.clientTempId.value;
    if Find(db.rows, dto.companyId, key).None? {
      FindAppend(db.rows, NewIncident(db.nextId, dto, dto.clientTempId, now1), dto.companyId, key);
    }
  }

  /** The incident table, as the services see it through the database client. */
  class IncidentTable {
    var rows: seq<Incident>
    var nextId: Id

    function Db(): IncidentDb
      reads this
    {
      IncidentDb(rows, nextId)
    }

    constructor ()
      ensures Db() == IncidentDb([], 0) && ValidDb(Db())
    {
      rows := [];
      nextId := 0;
    }

    /** `prisma.incident.create` */
    method InsertRow(dto: IncidentDto, key: Option<string>, now: int) returns (r: Result<Incident>)
      modifies this
      ensures Step(r, Db()) == Insert(old(Db()), dto, key, now)
    {
      if key.Some? {
        var existing := Find(rows, dto.companyId, key.value);
        if existing.Some? {
          return Err(Conflict(ClientTempIdTaken));
        }
      }
      var row := NewIncident(nextId, dto, key, now);
      rows := rows + [row];
      nextId := nextId + 1;
      r := Ok(row);
    }

    /** `IncidentsService.create(dto, userCompanyId)` */
    method Create(dto: IncidentDto, userCompanyId: Id, now: int) returns (r: Result<CreateResponse>)
      modifies this
      ensures Step(r, Db()) == CreateSpec(old(Db()), dto, userCompanyId, now)
    {
      if dto.companyId != userCompanyId {
        return Err(Forbidden(AccessDenied));
      }
      if Given(dto.clientTempId) {
        var existing := Find(rows, dto.companyId, dto.clientTempId.value);
        if existing.Some? {
          return Ok(CreateResponse(dto.clientTempId, existing.value));
        }
      }
      var created := InsertRow(dto, dto.clientTempId, now);
      if created.Err? {
        return Err(created.error);
      }
      r := Ok(CreateResponse(dto.clientTempId, created.value));
    }
  }

  // ---------------------------------------------------------------- listing

  /** The query of `GET /incidents` (FilterIncidentsDto); times are parsed to milliseconds. */
  datatype IncidentFilter = IncidentFilter(
    companyId: Option<Id>, siteId: Option<Id>, status: Option<string>,
    from: Option<int>, to: Option<int>, page: Option<nat>, limit: Option<nat>)

  /** The where-clause `findAll` builds. */
  datatype Where = Where(companyId: Id, siteId: Option<Id>, status: Option<string>, from: Option<int>, to: Option<int>)

  predicate Matches(inc: Incident, w: Where) {
    && inc.companyId == w.companyId
    && (w.siteId.Some? ==> inc.siteId == w.siteId.value)
    && (w.status.Some? ==> inc.status == w.status.value)
    && (w.from.Some? ==> inc.createdAt >= w.from.value)
    && (w.to.Some? ==> inc.createdAt <= w.to.value)
  }

  /** `findAll`'s where-clause as written: the company is the query's `companyId` when
      given, otherwise the caller's; the other filters apply only when given (a status
      must be non-empty to count). */
  function ListWhere(f: IncidentFilter, userCompanyId: Id): (w: Where)
    ensures w.companyId == (if f.companyId.Some? then f.companyId.value else userCompanyId)
    ensures w.siteId == f.siteId && w.from == f.from && w.to == f.to
    ensures w.status == (if Given(f.status) then f.status else None)
  {
    Where(if f.companyId.Some? then f.companyId.value else userCompanyId,
          f.siteId, if Given(f.status) then f.status else None, f.from, f.to)
  }

  /** As written, a caller can list another tenant's incidents by naming its company. */
  lemma ListWhereCrossesTenants()
    ensures var f := IncidentFilter(Some(2), None, None, None, None, None, None);
            var inc := NewIncident(0, IncidentDto(None, 2, 0, None, None, "hazard", "low", "spill", None, None, None), None, 0);
            Matches(inc, ListWhere(f, 1)) && inc.companyId != 1
  {
  }

  /** For every other company `c`, a query naming `c` lists exactly `c`'s rows that pass the
      other filters: the caller's own tenant plays no part. */
  lemma ListWhereCrossesTenantsFor(f: IncidentFilter, userCompanyId: Id, c: Id, inc: Incident)
    requires f.companyId == Some(c) && c != userCompanyId
    ensures Matches(inc, ListWhere(f, userCompanyId)) <==> Matches(inc, ScopedListWhere(f, c))
    ensures Matches(inc, ListWhere(f, userCompanyId)) ==> inc.companyId == c && inc.companyId != userCompanyId
  {
  }

  /** The listing scoped as the row-level-security comment intends: always the caller's company. */
  function ScopedListWhere(f: IncidentFilter, userCompanyId: Id): (w: Where)
    ensures w.companyId == userCompanyId
    ensures w.siteId == f.siteId && w.from == f.from && w.to == f.to
    ensures w.status == (if Given(f.status) then f.status else None)
  {
    Where(userCompanyId, f.siteId, if Given(f.status) then f.status else None, f.from, f.to)
  }

  /** The scoped listing never shows a row of another company, whatever the query says. */
  lemma ScopedListStaysInTenant(f: IncidentFilter, userCompanyId: Id, inc: Incident)
    requires Matches(inc, ScopedListWhere(f, userCompanyId))
    ensures inc.companyId == userCompanyId
  {
  }

  /** The pagination block of the listing. */
  datatype Pagination = Pagination(page: nat, limit: nat, skip: nat, total: nat, totalPages: nat)

  /** `page || 1`, `limit || 20`, `skip = (page - 1) * limit`, `totalPages = ceil(total / limit)`. */
  function Paginate(page: Option<nat>, limit: Option<nat>, total: nat): (p: Pagination)
    ensures p.page == (if page.Some? && page.value != 0 then page.value else 1)
    ensures p.limit == (if limit.Some? && limit.value != 0 then limit.value else 20)
    ensures p.skip == (p.page - 1) * p.limit && p.total == total
    // totalPages is the least number of pages that hold `total` rows
    ensures p.totalPages * p.limit >= total
    ensures p.totalPages > 0 ==> (p.totalPages - 1) * p.limit < total
  {
    var pg: nat := if page.Some? && page.value != 0 then page.value else 1;
    var lim: nat := if limit.Some? && limit.value != 0 then limit.value else 20;
    Pagination(pg, lim, (pg - 1) * lim, total, CeilDiv(total, lim))
  }

  /** `Math.ceil(n / d)` on naturals: the least `q` with `q * d >= n`. */
  function CeilDiv(n: nat, d: nat): (q: nat)
    requires d > 0
    ensures q * d >= n
    ensures q > 0 ==> (q - 1) * d < n
    decreases n
  {
    if n == 0 then 0
    else if n <= d then 1
    else
      var q' := CeilDiv(n - d, d);
      assert (q' + 1) * d == q' * d + d;
      q' + 1
  }
}
