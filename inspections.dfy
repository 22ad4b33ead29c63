/** Inspection submissions: the template lookups, the classification of responses as
    failed, and the transaction that stores the inspection together with one derived CAPA
    per failed response. */
module Inspections {
  import opened Common
  import opened Capas

  /** One question of a template's schema. */
  datatype TemplateItem = TemplateItem(id: string, question: Option<string>)

  /** A template. `items` is None when the schema has no `items` list. A template without a
      company is global or belongs to nobody. */
  datatype InspectionTemplate = InspectionTemplate(
    id: Id, companyId: Option<Id>, name: string, isGlobal: bool, items: Option<seq<TemplateItem>>)

  /** One answered question of a submission. */
  datatype ItemResponse = ItemResponse(itemId: string, response: string, comment: Option<string>)

  /** The body of `POST /inspections`. */
  datatype InspectionDto = InspectionDto(
    companyId: Id, siteId: Id, templateId: Id, inspectorId: Id,
    inspectorName: Option<string>, responses: seq<ItemResponse>)

  datatype Inspection = Inspection(
    id: Id, companyId: Id, siteId: Id, templateId: Id, inspectorId: Id,
    inspectorName: Option<string>, responses: seq<ItemResponse>)

  /** `findAllTemplates(companyId?)`: the global templates and the company's own. A filter
      on an undefined company is dropped by the query builder, so without a company every
      template matches. */
  function VisibleTemplates(templates: seq<InspectionTemplate>, companyId: Option<Id>): (r: seq<InspectionTemplate>)
    ensures companyId.None? ==> r == templates
    ensures companyId.Some? ==> forall t :: t in r <==> t in templates && (t.isGlobal || t.companyId == companyId)
    ensures |r| <= |templates|
  {
    if templates == [] then []
    else
      var t := templates[0];
      (if companyId.None? || t.isGlobal || t.companyId == companyId then [t] else [])
        + VisibleTemplates(templates[1..], companyId)
  }

  /** Each visible template is listed as often as it is stored, and no other is. */
  lemma {:induction false} VisibleTemplatesCounts(templates: seq<InspectionTemplate>, companyId: Option<Id>)
    ensures forall t :: multiset(VisibleTemplates(templates, companyId))[t] ==
                          if companyId.None? || t.isGlobal || t.companyId == companyId then multiset(templates)[t] else 0
  {
    if templates != [] {
      assert templates == [templates[0]] + templates[1..];
      VisibleTemplatesCounts(templates[1..], companyId);
    }
  }

  /** `findTemplate(id)`: the template with that id, of any company, or NotFound. */
  function FindTemplate(templates: seq<InspectionTemplate>, id: Id): (r: Result<InspectionTemplate>)
    ensures r.Ok? ==> r.value in templates && r.value.id == id
    ensures r.Err? <==> forall i :: 0 <= i < |templates| ==> templates[i].id != id
    ensures r.Err? ==> r.error == NotFound("Template not found")
  {
    if templates == [] then Err(NotFound("Template not found"))
    else if templates[0].id == id then Ok(templates[0])
    else FindTemplate(templates[1..], id)
  }

  /** A response fails when, lower-cased, it reads "no" or "failed". */
  predicate IsFailed(r: ItemResponse): (b: bool)
    // lower-casing keeps the length, so only two- and six-character answers can fail
    ensures b ==> |r.response| == 2 || |r.response| == 6
  {
    Lower(r.response) == "no" || Lower(r.response) == "failed"
  }

  /** The failed responses, in the order they were given. */
  function FailedItems(responses: seq<ItemResponse>): (r: seq<ItemResponse>)
    ensures forall x :: x in r <==> x in responses && IsFailed(x)
    ensures |r| <= |responses|
    decreases |responses|
  {
    if responses == [] then []
    else
      var n := |responses| - 1;
      FailedItems(responses[..n]) + (if IsFailed(responses[n]) then [responses[n]] else [])
  }

  /** `filter` distributes over concatenation: the failed responses of a joined list are
      those of its first part followed by those of its second. */
  lemma {:induction false} FailedItemsConcat(a: seq<ItemResponse>, b: seq<ItemResponse>)
    ensures FailedItems(a + b) == FailedItems(a) + FailedItems(b)
    decreases |b|
  {
    if b != [] {
      var n := |b| - 1;
      assert (a + b)[..|a + b| - 1] == a + b[..n];
      FailedItemsConcat(a, b[..n]);
    } else {
      assert a + b == a;
    }
  }

  /** One response is kept, once, exactly when it fails. */
  lemma FailedItemsOne(x: ItemResponse)
    ensures FailedItems([x]) == if IsFailed(x) then [x] else []
  {
    assert [x][..0] == [];
  }

  /** The question a template asks for `itemId`: `items?.find(i => i.id === itemId)?.question`. */
  function Question(items: Option<seq<TemplateItem>>, itemId: string): (q: Option<string>)
    ensures items.None? ==> q.None?
  {
    if items.None? then None else QuestionIn(items.value, itemId)
  }

  /** The question of the first item with that id, if there is one. */
  function QuestionIn(items: seq<TemplateItem>, itemId: string): Option<string>
  {
    if items == [] then None
    else if items[0].id == itemId then items[0].question
    else QuestionIn(items[1..], itemId)
  }

  /** `find` stops at the first item with that id: its question is the answer. */
  lemma {:induction false} QuestionOfFirstMatch(items: seq<TemplateItem>, itemId: string, i: nat)
    requires i < |items| && items[i].id == itemId
    requires forall k :: 0 <= k < i ==> items[k].id != itemId
    ensures QuestionIn(items, itemId) == items[i].question
  {
    if i > 0 {
      QuestionOfFirstMatch(items[1..], itemId, i - 1);
    }
  }

  /** Without an item of that id there is no question. */
  lemma {:induction false} NoQuestionWithoutMatch(items: seq<TemplateItem>, itemId: string)
    requires forall k :: 0 <= k < |items| ==> items[k].id != itemId
    ensures QuestionIn(items, itemId).None?
  {
    if items != [] {
      NoQuestionWithoutMatch(items[1..], itemId);
    }
  }

  /** Thirty days, the due-date offset of a derived CAPA. */
  const CapaDueMs: int := 30 * DayMs

  /** The CAPA derived from one failed response. */
  function DeriveCapa(dto: InspectionDto, template: InspectionTemplate, inspectionId: Id,
                      item: ItemResponse, now: int, id: Id): (c: Capa)
    ensures c.id == id && c.companyId == dto.companyId && c.originId == inspectionId
    ensures c.ownerId == dto.inspectorId && c.creatorId == dto.inspectorId
    ensures c.status == Open && c.dueDate == Some(now + CapaDueMs) && c.completedAt.None?
  {
    Capa(id, dto.companyId, "inspection", inspectionId,
         "CAPA: " + OrElse(Question(template.items, item.itemId), "Failed inspection item"),
         OrElse(item.comment, "Failed item: " + item.itemId),
         dto.inspectorId, dto.inspectorId, Some("medium"), Some(now + CapaDueMs), Open, None)
  }

  /** The texts of a derived CAPA: it comes from an inspection, at medium priority, titled
      by the template's question for the item (or a fixed fallback), and described by the
      inspector's comment (or the item id). */
  lemma DerivedCapaText(dto: InspectionDto, template: InspectionTemplate, inspectionId: Id,
                        item: ItemResponse, now: int, id: Id)
    ensures var c := DeriveCapa(dto, template, inspectionId, item, now, id);
      && c.originType == "inspection" && c.priority == Some("medium")
      && c.title == "CAPA: " + OrElse(Question(template.items, item.itemId), "Failed inspection item")
      && c.description == OrElse(item.comment, "Failed item: " + item.itemId)
  {
  }

  /** The CAPAs derived from `failed`, with consecutive ids from `firstId`. */
  function DerivedCapas(dto: InspectionDto, template: InspectionTemplate, inspectionId: Id,
                        failed: seq<ItemResponse>, now: int, firstId: Id): (cs: seq<Capa>)
    ensures |cs| == |failed|
    ensures forall k :: 0 <= k < |failed| ==> cs[k] == DeriveCapa(dto, template, inspectionId, failed[k], now, firstId + k)
    decreases |failed|
  {
    if failed == [] then []
    else
      var n := |failed| - 1;
      DerivedCapas(dto, template, inspectionId, failed[..n], now, firstId)
        + [DeriveCapa(dto, template, inspectionId, failed[n], now, firstId + n)]
  }

  /** The CAPA table with `cs` added under their ids. */
  function AddCapas(m: map<Id, Capa>, cs: seq<Capa>): map<Id, Capa>
    decreases |cs|
  {
    if cs == [] then m
    else AddCapas(m, cs[..|cs| - 1])[cs[|cs| - 1].id := cs[|cs| - 1]]
  }

  lemma DerivedCapasSnoc(dto: InspectionDto, template: InspectionTemplate, inspectionId: Id,
                         failed: seq<ItemResponse>, i: nat, now: int, firstId: Id)
    requires i < |failed|
    ensures DerivedCapas(dto, template, inspectionId, failed[..i + 1], now, firstId)
         == DerivedCapas(dto, template, inspectionId, failed[..i], now, firstId)
            + [DeriveCapa(dto, template, inspectionId, failed[i], now, firstId + i)]
  {
    assert failed[..i + 1][..i] == failed[..i];
  }

  /** Setting a CAPA's id to the one it has changes nothing. */
  lemma SameId(c: Capa)
    ensures c.(id := c.id) == c
  {
  }

  lemma AddCapasSnoc(m: map<Id, Capa>, cs: seq<Capa>, c: Capa)
    ensures AddCapas(m, cs + [c]) == AddCapas(m, cs)[c.id := c]
  {
    assert (cs + [c])[..|cs|] == cs;
  }

  /** The inspection tables. */
  datatype InspectionDb = InspectionDb(templates: seq<InspectionTemplate>, inspections: seq<Inspection>, nextId: Id)

  /** What `create` returns: the inspection and its CAPAs. */
  datatype Submitted = Submitted(inspection: Inspection, capas: seq<Capa>)

  datatype CreateOutcome = CreateOutcome(result: Result<Submitted>, db: InspectionDb, capaDb: CapaDb)

  /** `InspectionsService.create`. `commit` is the database's verdict on the transaction. */
  function CreateInspectionSpec(db: InspectionDb, capaDb: CapaDb, dto: InspectionDto, userCompanyId: Id, now: int, commit: bool)
    : (o: CreateOutcome)
    // all or nothing: a refused or aborted submission leaves every table as it was
    ensures o.result.Err? ==> o.db == db && o.capaDb == capaDb
    ensures dto.companyId != userCompanyId ==> o.result == Err(Forbidden(AccessDenied))
    ensures dto.companyId == userCompanyId && FindTemplate(db.templates, dto.templateId).Err? ==>
      o.result == Err(NotFound("Template not found"))
    ensures o.result.Ok? <==>
      dto.companyId == userCompanyId && FindTemplate(db.templates, dto.templateId).Ok? && commit
    ensures o.result.Ok? ==>
      var insp := o.result.value.inspection;
      var cs := o.result.value.capas;
      var failed := FailedItems(dto.responses);
      // one new inspection, under a fresh id, however often the same body is sent
      && insp == Inspection(db.nextId, dto.companyId, dto.siteId, dto.templateId, dto.inspectorId,
                            dto.inspectorName, dto.responses)
      && o.db == db.(inspections := db.inspections + [insp], nextId := db.nextId + 1)
      // exactly one CAPA per failed response, in response order, pointing back at it
      && |cs| == |failed|
      && (forall k :: 0 <= k < |cs| ==>
            cs[k] == DeriveCapa(dto, FindTemplate(db.templates, dto.templateId).value, insp.id, failed[k], now, capaDb.nextId + k))
      && o.capaDb == capaDb.(capas := AddCapas(capaDb.capas, cs), nextId := capaDb.nextId + |cs|)
  {
    if dto.companyId != userCompanyId then CreateOutcome(Err(Forbidden(AccessDenied)), db, capaDb)
    else
      var template := FindTemplate(db.templates, dto.templateId);
      if template.Err? then CreateOutcome(Err(template.error), db, capaDb)
      else if !commit then CreateOutcome(Err(Internal("Transaction failed")), db, capaDb)
      else
        var insp := Inspection(db.nextId, dto.companyId, dto.siteId, dto.templateId, dto.inspectorId,
                               dto.inspectorName, dto.responses);
        var cs := DerivedCapas(dto, template.value, insp.id, FailedItems(dto.responses), now, capaDb.nextId);
        CreateOutcome(Ok(Submitted(insp, cs)),
                      db.(inspections := db.inspections + [insp], nextId := db.nextId + 1),
                      capaDb.(capas := AddCapas(capaDb.capas, cs), nextId := capaDb.nextId + |cs|))
  }

  /** A committed submission with a known template is the inspection and its derived CAPAs. */
  lemma SpecCommitted(db: InspectionDb, capaDb: CapaDb, dto: InspectionDto, template: InspectionTemplate, now: int)
    requires FindTemplate(db.templates, dto.templateId) == Ok(template)
    ensures var insp := Inspection(db.nextId, dto.companyId, dto.siteId, dto.templateId, dto.inspectorId,
                                   dto.inspectorName, dto.responses);
            var cs := DerivedCapas(dto, template, insp.id, FailedItems(dto.responses), now, capaDb.nextId);
            CreateInspectionSpec(db, capaDb, dto, dto.companyId, now, true) ==
              CreateOutcome(Ok(Submitted(insp, cs)),
                            db.(inspections := db.inspections + [insp], nextId := db.nextId + 1),
                            capaDb.(capas := AddCapas(capaDb.capas, cs), nextId := capaDb.nextId + |cs|))
  {
  }

  /** An aborted submission with a known template leaves the tables as they were. */
  lemma SpecAborted(db: InspectionDb, capaDb: CapaDb, dto: InspectionDto, now: int)
    requires FindTemplate(db.templates, dto.templateId).Ok?
    ensures CreateInspectionSpec(db, capaDb, dto, dto.companyId, now, false) ==
              CreateOutcome(Err(Internal("Transaction failed")), db, capaDb)
  {
  }

  /** A failed response sits in the failed list at the position equal to the number of
      failed responses before it. */
  lemma FailedAt(rs: seq<ItemResponse>, j: nat)
    requires j < |rs| && IsFailed(rs[j])
    ensures var k := |FailedItems(rs[..j])|;
            k < |FailedItems(rs)| && FailedItems(rs)[k] == rs[j]
  {
    assert rs == rs[..j] + [rs[j]] + rs[j + 1..];
    FailedItemsConcat(rs[..j] + [rs[j]], rs[j + 1..]);
    FailedItemsConcat(rs[..j], [rs[j]]);
    FailedItemsOne(rs[j]);
  }

  /** Among the CAPAs derived from the failed responses, the one at the position equal to
      the number of failed responses before response `j` is derived from response `j`. */
  lemma DerivedFromResponse(cs: seq<Capa>, dto: InspectionDto, template: InspectionTemplate, inspectionId: Id,
                            now: int, firstId: Id, j: nat)
    requires cs == DerivedCapas(dto, template, inspectionId, FailedItems(dto.responses), now, firstId)
    requires j < |dto.responses| && IsFailed(dto.responses[j])
    ensures |FailedItems(dto.responses[..j])| < |cs|
    ensures cs[|FailedItems(dto.responses[..j])|]
         == DeriveCapa(dto, template, inspectionId, dto.responses[j], now, firstId + |FailedItems(dto.responses[..j])|)
  {
    var failed := FailedItems(dto.responses);
    var k := |FailedItems(dto.responses[..j])|;
    assert k < |failed| && failed[k] == dto.responses[j] by {
      FailedAt(dto.responses, j);
    }
    assert cs[k] == DeriveCapa(dto, template, inspectionId, failed[k], now, firstId + k);
  }

  /** The CAPAs of a committed submission are those derived from its failed responses; with
      `DerivedFromResponse`, each failed response has its own CAPA, in response order. */
  lemma CreatedCapas(db: InspectionDb, capaDb: CapaDb, dto: InspectionDto, userCompanyId: Id, now: int)
    requires CreateInspectionSpec(db, capaDb, dto, userCompanyId, now, true).result.Ok?
    ensures var o := CreateInspectionSpec(db, capaDb, dto, userCompanyId, now, true);
            o.result.value.capas == DerivedCapas(dto, FindTemplate(db.templates, dto.templateId).value,
                                                 o.result.value.inspection.id, FailedItems(dto.responses), now,
                                                 capaDb.nextId)
  {
  }

  /** A response whose lower-case form is "no" or "failed", in any mix of cases, fails. */
  lemma FailedIgnoresCase()
    ensures IsFailed(ItemResponse("q1", "NO", None)) && IsFailed(ItemResponse("q1", "Failed", None))
    ensures !IsFailed(ItemResponse("q1", "yes", None)) && !IsFailed(ItemResponse("q1", "na", None))
  {
    assert Lower("NO") == "no";
    assert Lower("Failed") == "failed";
    assert Lower("yes") == "yes";
    assert Lower("na") == "na";
  }

  /** There is no deduplication: submitting the same body twice stores two inspections and
      derives every failed item's CAPA twice, each pointing at its own inspection. */
  lemma ResubmissionDuplicates(db: InspectionDb, capaDb: CapaDb, dto: InspectionDto, userCompanyId: Id, now1: int, now2: int)
    requires CreateInspectionSpec(db, capaDb, dto, userCompanyId, now1, true).result.Ok?
    ensures var first := CreateInspectionSpec(db, capaDb, dto, userCompanyId, now1, true);
            var second := CreateInspectionSpec(first.db, first.capaDb, dto, userCompanyId, now2, true);
      && second.result.Ok?
      && |second.db.inspections| == |db.inspections| + 2
      && second.result.value.inspection.id != first.result.value.inspection.id
      && |second.result.value.capas| == |first.result.value.capas| == |FailedItems(dto.responses)|
      && (forall k :: 0 <= k < |second.result.value.capas| ==>
            second.result.value.capas[k].originId == second.result.value.inspection.id)
  {
    var first := CreateInspectionSpec(db, capaDb, dto, userCompanyId, now1, true);
    assert first.db.templates == db.templates;
  }

  /** The inspection tables behind the service. */
  class InspectionStore {
    var templates: seq<InspectionTemplate>
    var inspections: seq<Inspection>
    var nextId: Id

    function Db(): InspectionDb
      reads this
    {
      InspectionDb(templates, inspections, nextId)
    }

    constructor (templates: seq<InspectionTemplate>)
      ensures Db() == InspectionDb(templates, [], 0)
    {
      this.templates := templates;
      inspections := [];
      nextId := 0;
    }

    /** `failedItems.map(item => tx.capa.create(...))`, one CAPA after the other. */
    method DeriveAll(dto: InspectionDto, template: InspectionTemplate, inspectionId: Id,
                     failed: seq<ItemResponse>, now: int, capaTable: CapaStore) returns (capas: seq<Capa>)
      modifies capaTable
      ensures capas == DerivedCapas(dto, template, inspectionId, failed, now, old(capaTable.nextId))
      ensures capaTable.Db() == old(capaTable.Db()).(capas := AddCapas(old(capaTable.capas), capas),
                                                     nextId := old(capaTable.nextId) + |failed|)
    {
      var capaDb0 := capaTable.Db();
      capas := [];
      var i := 0;
      while i < |failed|
        invariant 0 <= i <= |failed|
        invariant capas == DerivedCapas(dto, template, inspectionId, failed[..i], now, capaDb0.nextId)
        invariant capaTable.Db() == capaDb0.(capas := AddCapas(capaDb0.capas, capas), nextId := capaDb0.nextId + i)
        decreases |failed| - i
      {
        capas := DeriveNext(dto, template, inspectionId, failed, i, now, capaTable, capaDb0, capas);
        i := i + 1;
      }
      assert failed[..i] == failed;
    }

    /** One step of `DeriveAll`: the CAPA of the `i`-th failed response is inserted and
        appended to those already derived. */
    method DeriveNext(dto: InspectionDto, template: InspectionTemplate, inspectionId: Id,
                      failed: seq<ItemResponse>, i: nat, now: int, capaTable: CapaStore,
                      capaDb0: CapaDb, prev: seq<Capa>) returns (capas: seq<Capa>)
      requires i < |failed|
      requires prev == DerivedCapas(dto, template, inspectionId, failed[..i], now, capaDb0.nextId)
      requires capaTable.Db() == capaDb0.(capas := AddCapas(capaDb0.capas, prev), nextId := capaDb0.nextId + i)
      modifies capaTable
      ensures capas == DerivedCapas(dto, template, inspectionId, failed[..i + 1], now, capaDb0.nextId)
      ensures capaTable.Db() == capaDb0.(capas := AddCapas(capaDb0.capas, capas), nextId := capaDb0.nextId + i + 1)
    {
      assert capaTable.nextId == capaDb0.nextId + i;
      var c := DeriveCapa(dto, template, inspectionId, failed[i], now, capaDb0.nextId + i);
      var row := capaTable.InsertRow(c);
      SameId(c);
      assert row == c;
      DerivedCapasSnoc(dto, template, inspectionId, failed, i, now, capaDb0.nextId);
      AddCapasSnoc(capaDb0.capas, prev, c);
      capas := prev + [c];
    }

    /** `InspectionsService.create`: the checks, then the transaction, which inserts the
        inspection and then one CAPA per failed response, and is rolled back unless the
        database commits it. */
    method Create(dto: InspectionDto, userCompanyId: Id, now: int, capaTable: CapaStore, commit: bool)
      returns (r: Result<Submitted>)
      modifies this, capaTable
      ensures CreateOutcome(r, Db(), capaTable.Db()) ==
              CreateInspectionSpec(old(Db()), old(capaTable.Db()), dto, userCompanyId, now, commit)
    {
      if dto.companyId != userCompanyId {
        return Err(Forbidden(AccessDenied));
      }
      var template := FindTemplate(templates, dto.templateId);
      if template.Err? {
        return Err(template.error);
      }
      r := Transaction(dto, template.value, now, capaTable, commit);
    }

    /** The `$transaction` of `create`: the inspection, then its CAPAs, kept only when it commits. */
    method Transaction(dto: InspectionDto, template: InspectionTemplate, now: int, capaTable: CapaStore, commit: bool)
      returns (r: Result<Submitted>)
      requires FindTemplate(templates, dto.templateId) == Ok(template)
      modifies this, capaTable
      ensures CreateOutcome(r, Db(), capaTable.Db()) ==
              CreateInspectionSpec(old(Db()), old(capaTable.Db()), dto, dto.companyId, now, commit)
    {
      var db0 := Db();
      var capaDb0 := capaTable.Db();
      var inspection := Inspection(nextId, dto.companyId, dto.siteId, dto.templateId, dto.inspectorId,
                                   dto.inspectorName, dto.responses);
      inspections := inspections + [inspection];
      nextId := nextId + 1;
      var capas := DeriveAll(dto, template, inspection.id, FailedItems(dto.responses), now, capaTable);
      assert Db() == db0.(inspections := db0.inspections + [inspection], nextId := db0.nextId + 1);
      if !commit {
        inspections, nextId := db0.inspections, db0.nextId;
        capaTable.Restore(capaDb0);
        SpecAborted(db0, capaDb0, dto, now);
        return Err(Internal("Transaction failed"));
      }
      SpecCommitted(db0, capaDb0, dto, template, now);
      r := Ok(Submitted(inspection, capas));
    }
  }
}
