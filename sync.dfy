/** The batch endpoint the offline queue's items may also be replayed through: each item is
    looked up by its client key first and created only when absent, and a failing item
    does not stop the batch. */
module Sync {
  import opened Common
  import opened Incidents

  datatype ItemKind = IncidentItem | InspectionItem

  /** A queued client record: its kind, its client key and its incident body. */
  datatype SyncItem = SyncItem(kind: ItemKind, clientTempId: string, data: IncidentDto)

  /** A client key and the id of the server row that holds it. */
  datatype Mapping = Mapping(clientTempId: string, serverId: Id)

  /** `syncIncident`: the lookup by the caller's company and the item's key comes first and
      answers with the stored row; only a new key meets the tenant check and the insert. */
  function SyncIncidentSpec(db: IncidentDb, item: SyncItem, companyId: Id, now: int): (s: Step<Incident>)
    ensures Find(db.rows, companyId, item.clientTempId).Some? ==>
      s == Step(Ok(Find(db.rows, companyId, item.clientTempId).value), db)
    ensures Find(db.rows, companyId, item.clientTempId).None? && item.data.companyId != companyId ==>
      s == Step(Err(Forbidden(AccessDenied)), db)
    ensures Find(db.rows, companyId, item.clientTempId).None? && item.data.companyId == companyId ==>
      var row := NewIncident(db.nextId, item.data, Some(item.clientTempId), now);
      s == Step(Ok(row), IncidentDb(db.rows + [row], db.nextId + 1))
    ensures ValidDb(db) ==> ValidDb(s.db)
  {
    var existing := Find(db.rows, companyId, item.clientTempId);
    if existing.Some? then Step(Ok(existing.value), db)
    else if item.data.companyId != companyId then Step(Err(Forbidden(AccessDenied)), db)
    else Insert(db, item.data, Some(item.clientTempId), now)
  }

  /** The mappings so far and the table. */
  datatype SyncState = SyncState(mappings: seq<Mapping>, db: IncidentDb)

  /** One turn of `bulkSync`'s loop: incident items are synced and, on success, mapped;
      an error is caught and the item skipped; other kinds are ignored. */
  function SyncStep(st: SyncState, item: SyncItem, companyId: Id, now: int): SyncState {
    if item.kind != IncidentItem then st
    else
      var s := SyncIncidentSpec(st.db, item, companyId, now);
      if s.result.Ok? then SyncState(st.mappings + [Mapping(item.clientTempId, s.result.value.id)], s.db)
      else SyncState(st.mappings, s.db)
  }

  /** `bulkSync(items, companyId)`: the items in order. */
  function BulkSyncSpec(db: IncidentDb, items: seq<SyncItem>, companyId: Id, now: int): (r: SyncState)
    // at most one mapping per item
    ensures |r.mappings| <= |items|
    decreases |items|
  {
    if items == [] then SyncState([], db)
    else SyncStep(BulkSyncSpec(db, items[..|items| - 1], companyId, now), items[|items| - 1], companyId, now)
  }

  /** An item that a run cannot change any more: its key is stored for the company, or it
      is an incident of another company that the tenant check refuses. */
  predicate Settled(rows: seq<Incident>, item: SyncItem, companyId: Id) {
    item.kind == IncidentItem ==> Find(rows, companyId, item.clientTempId).Some? || item.data.companyId != companyId
  }

  /** The mappings a table answers for `items`: each incident item whose key it holds. */
  function ExpectedMappings(items: seq<SyncItem>, rows: seq<Incident>, companyId: Id): seq<Mapping>
    decreases |items|
  {
    if items == [] then []
    else
      var x := items[|items| - 1];
      var found := Find(rows, companyId, x.clientTempId);
      ExpectedMappings(items[..|items| - 1], rows, companyId)
        + (if x.kind == IncidentItem && found.Some? then [Mapping(x.clientTempId, found.value.id)] else [])
  }

  ghost predicate DistinctKeys(items: seq<SyncItem>) {
    forall i, j :: 0 <= i < j < |items| ==> items[i].clientTempId != items[j].clientTempId
  }

  /** A run only appends rows. */
  lemma {:induction false} BulkSyncAppends(db: IncidentDb, items: seq<SyncItem>, companyId: Id, now: int)
    ensures var rows := BulkSyncSpec(db, items, companyId, now).db.rows;
            |db.rows| <= |rows| && rows[..|db.rows|] == db.rows
    decreases |items|
  {
    if items != [] {
      BulkSyncAppends(db, items[..|items| - 1], companyId, now);
    }
  }

  /** Every mapping a run returns names the row that holds its key once the run is over. */
  lemma {:induction false} MappingsPointAtRows(db: IncidentDb, items: seq<SyncItem>, companyId: Id, now: int)
    ensures var st := BulkSyncSpec(db, items, companyId, now);
            forall m :: m in st.mappings ==>
              Find(st.db.rows, companyId, m.clientTempId).Some? && Find(st.db.rows, companyId, m.clientTempId).value.id == m.serverId
    decreases |items|
  {
    if items != [] {
      var n := |items| - 1;
      var prev := BulkSyncSpec(db, items[..n], companyId, now);
      var st := BulkSyncSpec(db, items, companyId, now);
      MappingsPointAtRows(db, items[..n], companyId, now);
      assert st == SyncStep(prev, items[n], companyId, now);
      var x := items[n];
      var tail := st.db.rows[|prev.db.rows|..];
      assert st.db.rows == prev.db.rows + tail;
      forall m | m in st.mappings
        ensures Find(st.db.rows, companyId, m.clientTempId).Some? && Find(st.db.rows, companyId, m.clientTempId).value.id == m.serverId
      {
        FindConcat(prev.db.rows, tail, companyId, m.clientTempId);
        if m !in prev.mappings {
          assert m == Mapping(x.clientTempId, SyncIncidentSpec(prev.db, x, companyId, now).result.value.id);
          if Find(prev.db.rows, companyId, x.clientTempId).None? {
            FindAppend(prev.db.rows, NewIncident(prev.db.nextId, x.data, Some(x.clientTempId), now), companyId, x.clientTempId);
          }
        }
      }
    }
  }

  /** After a run every item is settled. */
  lemma {:induction false} BulkSyncSettles(db: IncidentDb, items: seq<SyncItem>, companyId: Id, now: int)
    ensures var rows := BulkSyncSpec(db, items, companyId, now).db.rows;
            forall k :: 0 <= k < |items| ==> Settled(rows, items[k], companyId)
    decreases |items|
  {
    if items != [] {
      var n := |items| - 1;
      var prev := BulkSyncSpec(db, items[..n], companyId, now);
      var rows := BulkSyncSpec(db, items, companyId, now).db.rows;
      BulkSyncSettles(db, items[..n], companyId, now);
      var x := items[n];
      var tail := rows[|prev.db.rows|..];
      assert rows == prev.db.rows + tail;
      forall k | 0 <= k < |items| ensures Settled(rows, items[k], companyId) {
        FindConcat(prev.db.rows, tail, companyId, items[k].clientTempId);
        if k < n {
          assert items[..n][k] == items[k];
        } else if x.kind == IncidentItem && Find(prev.db.rows, companyId, x.clientTempId).None? && x.data.companyId == companyId {
          FindAppend(prev.db.rows, NewIncident(prev.db.nextId, x.data, Some(x.clientTempId), now), companyId, x.clientTempId);
        }
      }
    }
  }

  /** A run over settled items writes nothing and maps exactly the keys the table holds. */
  lemma {:induction false} SettledRunIsStill(db: IncidentDb, items: seq<SyncItem>, companyId: Id, now: int)
    requires forall k :: 0 <= k < |items| ==> Settled(db.rows, items[k], companyId)
    ensures BulkSyncSpec(db, items, companyId, now) == SyncState(ExpectedMappings(items, db.rows, companyId), db)
    decreases |items|
  {
    if items != [] {
      var n := |items| - 1;
      forall k | 0 <= k < n ensures Settled(db.rows, items[..n][k], companyId) {
        assert items[..n][k] == items[k];
      }
      SettledRunIsStill(db, items[..n], companyId, now);
      assert Settled(db.rows, items[n], companyId);
    }
  }

  /** Appending a row whose key none of the items carries changes none of their mappings. */
  lemma {:induction false} ExpectedMappingsAppend(items: seq<SyncItem>, rows: seq<Incident>, x: Incident, companyId: Id)
    requires x.companyId == companyId ==> forall k :: 0 <= k < |items| ==> x.clientTempId != Some(items[k].clientTempId)
    ensures ExpectedMappings(items, rows + [x], companyId) == ExpectedMappings(items, rows, companyId)
    decreases |items|
  {
    if items != [] {
      var n := |items| - 1;
      assert forall k :: 0 <= k < n ==> items[..n][k] == items[k];
      ExpectedMappingsAppend(items[..n], rows, x, companyId);
      FindAppend(rows, x, companyId, items[n].clientTempId);
    }
  }

  /** With distinct keys, a run maps exactly the items whose keys the final table holds. */
  lemma {:induction false} FirstRunMappings(db: IncidentDb, items: seq<SyncItem>, companyId: Id, now: int)
    requires DistinctKeys(items)
    ensures var st := BulkSyncSpec(db, items, companyId, now);
            st.mappings == ExpectedMappings(items, st.db.rows, companyId)
    decreases |items|
  {
    if items != [] {
      var n := |items| - 1;
      var prev := BulkSyncSpec(db, items[..n], companyId, now);
      var x := items[n];
      assert DistinctKeys(items[..n]);
      FirstRunMappings(db, items[..n], companyId, now);
      if x.kind == IncidentItem && Find(prev.db.rows, companyId, x.clientTempId).None? && x.data.companyId == companyId {
        var row := NewIncident(prev.db.nextId, x.data, Some(x.clientTempId), now);
        assert forall k :: 0 <= k < n ==> items[..n][k] == items[k];
        ExpectedMappingsAppend(items[..n], prev.db.rows, row, companyId);
        FindAppend(prev.db.rows, row, companyId, x.clientTempId);
      }
    }
  }

  /** Replaying a batch writes nothing: every item found its row or was refused the first time. */
  lemma RerunWritesNothing(db: IncidentDb, items: seq<SyncItem>, companyId: Id, now1: int, now2: int)
    ensures var first := BulkSyncSpec(db, items, companyId, now1);
            BulkSyncSpec(first.db, items, companyId, now2).db == first.db
  {
    var first := BulkSyncSpec(db, items, companyId, now1);
    BulkSyncSettles(db, items, companyId, now1);
    SettledRunIsStill(first.db, items, companyId, now2);
  }

  /** With distinct keys a replayed batch answers exactly as the first run did. */
  lemma RerunIsIdempotent(db: IncidentDb, items: seq<SyncItem>, companyId: Id, now1: int, now2: int)
    requires DistinctKeys(items)
    ensures var first := BulkSyncSpec(db, items, companyId, now1);
            BulkSyncSpec(first.db, items, companyId, now2) == first
  {
    var first := BulkSyncSpec(db, items, companyId, now1);
    BulkSyncSettles(db, items, companyId, now1);
    SettledRunIsStill(first.db, items, companyId, now2);
    FirstRunMappings(db, items, companyId, now1);
  }

  /** Without distinct keys a replay can answer more: an item refused by the tenant check
      is mapped on replay once a later item of the batch has stored the same key. */
  lemma RerunCanMapMore()
    ensures var refused := SyncItem(IncidentItem, "t", IncidentDto(None, 2, 0, None, None, "hazard", "low", "", None, None, None));
            var accepted := SyncItem(IncidentItem, "t", IncidentDto(None, 1, 0, None, None, "hazard", "low", "", None, None, None));
            var first := BulkSyncSpec(IncidentDb([], 0), [refused, accepted], 1, 0);
            first.mappings == [Mapping("t", 0)]
            && BulkSyncSpec(first.db, [refused, accepted], 1, 0).mappings == [Mapping("t", 0), Mapping("t", 0)]
  {
    var refused := SyncItem(IncidentItem, "t", IncidentDto(None, 2, 0, None, None, "hazard", "low", "", None, None, None));
    var accepted := SyncItem(IncidentItem, "t", IncidentDto(None, 1, 0, None, None, "hazard", "low", "", None, None, None));
    var items := [refused, accepted];
    assert items[..1] == [refused];
    assert [refused][..0] == [];
    assert BulkSyncSpec(IncidentDb([], 0), [], 1, 0) == SyncState([], IncidentDb([], 0));
    assert SyncIncidentSpec(IncidentDb([], 0), refused, 1, 0).result.Err?;
    var after0 := BulkSyncSpec(IncidentDb([], 0), [refused], 1, 0);
    assert after0 == SyncState([], IncidentDb([], 0));
    var row := NewIncident(0, accepted.data, Some("t"), 0);
    var first := BulkSyncSpec(IncidentDb([], 0), items, 1, 0);
    assert first == SyncState([Mapping("t", 0)], IncidentDb([row], 1));
    assert Find([row], 1, "t") == Some(row);
    assert BulkSyncSpec(first.db, [], 1, 0) == SyncState([], first.db);
    assert SyncIncidentSpec(first.db, refused, 1, 0) == Step(Ok(row), first.db);
    var again := BulkSyncSpec(first.db, [refused], 1, 0);
    assert again == SyncState([Mapping("t", 0)], first.db);
  }

  /** The two create paths disagree on a stored key sent with another company's body:
      `create` refuses it, `syncIncident` answers with the stored row. */
  lemma StoredKeyWinsOnlyInSync(db: IncidentDb, item: SyncItem, companyId: Id, now: int)
    requires item.data.companyId != companyId
    requires Find(db.rows, companyId, item.clientTempId).Some?
    ensures CreateSpec(db, item.data.(clientTempId := Some(item.clientTempId)), companyId, now).result.Err?
    ensures SyncIncidentSpec(db, item, companyId, now).result.Ok?
  {
  }

  /** `SyncService.syncIncident` against the table. */
  method SyncIncident(table: IncidentTable, item: SyncItem, companyId: Id, now: int) returns (r: Result<Incident>)
    modifies table
    ensures Step(r, table.Db()) == SyncIncidentSpec(old(table.Db()), item, companyId, now)
  {
    var existing := Find(table.rows, companyId, item.clientTempId);
    if existing.Some? {
      return Ok(existing.value);
    }
    if item.data.companyId != companyId {
      return Err(Forbidden(AccessDenied));
    }
    r := table.InsertRow(item.data, Some(item.clientTempId), now);
  }

  /** `SyncService.bulkSync`: processes the items in order, catching each item's error. */
  method BulkSync(table: IncidentTable, items: seq<SyncItem>, companyId: Id, now: int) returns (mappings: seq<Mapping>)
    modifies table
    ensures SyncState(mappings, table.Db()) == BulkSyncSpec(old(table.Db()), items, companyId, now)
  {
    ghost var db0 := table.Db();
    mappings := [];
    var i := 0;
    while i < |items|
      invariant 0 <= i <= |items|
      invariant SyncState(mappings, table.Db()) == BulkSyncSpec(db0, items[..i], companyId, now)
      decreases |items| - i
    {
      var item := items[i];
      if item.kind == IncidentItem {
        var result := SyncIncident(table, item, companyId, now);
        if result.Ok? {
          mappings := mappings + [Mapping(item.clientTempId, result.value.id)];
        }
      }
      assert items[..i + 1][..i] == items[..i];
      i := i + 1;
    }
    assert items[..i] == items;
  }
}
