/** Controlled documents: every upload under an existing (company, title) becomes its next
    version. Also the tenant-scoped lookup and the version history of a title. */
module Documents {
  import opened Common

  datatype Document = Document(
    id: Id,
    companyId: Id,
    title: string,
    version: nat,
    fileUrl: string,
    fileName: string,
    fileSize: Option<nat>,
    mimeType: Option<string>,
    tags: seq<string>,
    description: Option<string>,
    uploadedBy: Id)

  datatype CreateDocumentDto = CreateDocumentDto(
    title: string, fileUrl: string, fileName: string, fileSize: Option<nat>,
    mimeType: Option<string>, tags: Option<seq<string>>, description: Option<string>)

  predicate SameTitle(d: Document, companyId: Id, title: string) {
    d.companyId == companyId && d.title == title
  }

  /** The version `create` gives a new upload: one past the highest version stored under
      the same company and title, or 1 when there is none. */
  function NextVersion(docs: seq<Document>, companyId: Id, title: string): (v: nat)
    ensures v >= 1
    ensures forall i :: 0 <= i < |docs| && SameTitle(docs[i], companyId, title) ==> docs[i].version < v
    ensures v == 1 || exists i :: 0 <= i < |docs| && SameTitle(docs[i], companyId, title) && docs[i].version == v - 1
    ensures (forall i :: 0 <= i < |docs| ==> !SameTitle(docs[i], companyId, title)) ==> v == 1
    decreases |docs|
  {
    if docs == [] then 1
    else
      var n := |docs| - 1;
      var rest := NextVersion(docs[..n], companyId, title);
      if SameTitle(docs[n], companyId, title) && docs[n].version + 1 > rest then docs[n].version + 1 else rest
  }

  /** The document row `create` inserts. */
  function NewDocument(id: Id, docs: seq<Document>, dto: CreateDocumentDto, companyId: Id, uploadedBy: Id): (d: Document)
    ensures d.version == NextVersion(docs, companyId, dto.title)
    ensures d.tags == (if dto.tags.Some? then dto.tags.value else [])
    ensures d.id == id && SameTitle(d, companyId, dto.title) && d.uploadedBy == uploadedBy
  {
    Document(id, companyId, dto.title, NextVersion(docs, companyId, dto.title), dto.fileUrl, dto.fileName,
             dto.fileSize, dto.mimeType, if dto.tags.Some? then dto.tags.value else [], dto.description, uploadedBy)
  }

  /** A document of another company or title does not move the version counter. */
  lemma OtherTitlesIgnored(docs: seq<Document>, d: Document, companyId: Id, title: string)
    requires !SameTitle(d, companyId, title)
    ensures NextVersion(docs + [d], companyId, title) == NextVersion(docs, companyId, title)
  {
    assert (docs + [d])[..|docs|] == docs;
  }

  /** Successive uploads under one title get consecutive, so strictly increasing, versions. */
  lemma VersionsIncrease(docs: seq<Document>, dto: CreateDocumentDto, companyId: Id, uploadedBy: Id, id1: Id, id2: Id)
    ensures var d1 := NewDocument(id1, docs, dto, companyId, uploadedBy);
            var d2 := NewDocument(id2, docs + [d1], dto, companyId, uploadedBy);
            d2.version == d1.version + 1
  {
    var d1 := NewDocument(id1, docs, dto, companyId, uploadedBy);
    assert (docs + [d1])[..|docs|] == docs;
  }

  /** `findOne`: the document with that id, provided it belongs to the caller's company. */
  function FindOne(docs: seq<Document>, id: Id, companyId: Id): (r: Result<Document>)
    ensures r.Ok? ==> r.value in docs && r.value.id == id && r.value.companyId == companyId
    ensures r.Err? <==> forall i :: 0 <= i < |docs| ==> !(docs[i].id == id && docs[i].companyId == companyId)
    ensures r.Err? ==> r.error == NotFound("Document not found")
  {
    var found := First(docs, (d: Document) => d.id == id && d.companyId == companyId);
    if found.None? then Err(NotFound("Document not found")) else Ok(found.value)
  }

  predicate DescendingVersions(s: seq<Document>) {
    forall i, j :: 0 <= i < j < |s| ==> s[i].version >= s[j].version
  }

  /** `d` placed into a list already in descending version order. */
  function InsertByVersion(d: Document, s: seq<Document>): (r: seq<Document>)
    requires DescendingVersions(s)
    ensures DescendingVersions(r)
    ensures multiset(r) == multiset(s) + multiset{d}
  {
    if s == [] || s[0].version <= d.version then [d] + s
    else
      var rest := InsertByVersion(d, s[1..]);
      assert s == [s[0]] + s[1..];
      HeadLeadsRest(d, s, rest);
      [s[0]] + rest
  }

  /** Inserting below the head keeps the head first. */
  lemma HeadLeadsRest(d: Document, s: seq<Document>, rest: seq<Document>)
    requires s != [] && DescendingVersions(s) && d.version < s[0].version
    requires DescendingVersions(rest) && multiset(rest) == multiset(s[1..]) + multiset{d}
    ensures DescendingVersions([s[0]] + rest)
  {
    forall x | x in rest ensures x.version <= s[0].version {
      assert x in multiset(rest);
      if x != d {
        assert x in multiset(s[1..]);
      }
    }
    var t := [s[0]] + rest;
    forall i, j | 0 <= i < j < |t| ensures t[i].version >= t[j].version {
      if i == 0 {
        assert t[j] in rest;
      } else {
        assert t[i] == rest[i - 1] && t[j] == rest[j - 1];
      }
    }
  }

  /** `orderBy: { version: 'desc' }` */
  function SortByVersionDesc(s: seq<Document>): (r: seq<Document>)
    ensures DescendingVersions(r)
    ensures multiset(r) == multiset(s)
  {
    if s == [] then []
    else
      assert s == [s[0]] + s[1..];
      InsertByVersion(s[0], SortByVersionDesc(s[1..]))
  }

  /** The company's documents with exactly that title. */
  function WithTitle(docs: seq<Document>, companyId: Id, title: string): (r: seq<Document>)
    ensures forall d :: d in r <==> d in docs && SameTitle(d, companyId, title)
  {
    if docs == [] then []
    else (if SameTitle(docs[0], companyId, title) then [docs[0]] else []) + WithTitle(docs[1..], companyId, title)
  }

  /** The filter keeps each matching row as often as it is stored, and nothing else. */
  lemma {:induction false} WithTitleCounts(docs: seq<Document>, companyId: Id, title: string)
    ensures var r := WithTitle(docs, companyId, title);
            forall d :: multiset(r)[d] == if SameTitle(d, companyId, title) then multiset(docs)[d] else 0
  {
    if docs != [] {
      assert docs == [docs[0]] + docs[1..];
      WithTitleCounts(docs[1..], companyId, title);
    }
  }

  /** `findByTitle`: every version of the company's title, newest first. */
  function FindByTitle(docs: seq<Document>, title: string, companyId: Id): (r: seq<Document>)
    ensures DescendingVersions(r)
    ensures multiset(r) == multiset(WithTitle(docs, companyId, title))
    ensures forall d :: d in r <==> d in docs && SameTitle(d, companyId, title)
  {
    var r := SortByVersionDesc(WithTitle(docs, companyId, title));
    assert forall d :: d in r <==> d in multiset(WithTitle(docs, companyId, title));
    r
  }

  /** After an upload, its version heads the title's history. */
  lemma NewestFirst(docs: seq<Document>, dto: CreateDocumentDto, companyId: Id, uploadedBy: Id, id: Id)
    ensures var d := NewDocument(id, docs, dto, companyId, uploadedBy);
            var h := FindByTitle(docs + [d], dto.title, companyId);
            |h| > 0 && h[0].version == d.version
  {
    var d := NewDocument(id, docs, dto, companyId, uploadedBy);
    var all := docs + [d];
    var h := FindByTitle(all, dto.title, companyId);
    assert d in all;
    assert d in h;
    var k :| 0 <= k < |h| && h[k] == d;
    assert h[0].version >= d.version;
    assert h[0] in all;
  }

  /** The document table. */
  class DocumentTable {
    var docs: seq<Document>
    var nextId: Id

    constructor ()
      ensures docs == [] && nextId == 0
    {
      docs := [];
      nextId := 0;
    }

    /** `DocumentsService.create`: find the newest stored version of the title, then insert. */
    method Create(dto: CreateDocumentDto, companyId: Id, uploadedBy: Id) returns (d: Document)
      modifies this
      ensures d == NewDocument(old(nextId), old(docs), dto, companyId, uploadedBy)
      ensures docs == old(docs) + [d] && nextId == old(nextId) + 1
    {
      var version := NextVersion(docs, companyId, dto.title);
      d := Document(nextId, companyId, dto.title, version, dto.fileUrl, dto.fileName,
                    dto.fileSize, dto.mimeType, if dto.tags.Some? then dto.tags.value else [],
                    dto.description, uploadedBy);
      docs := docs + [d];
      nextId := nextId + 1;
    }
  }
}
