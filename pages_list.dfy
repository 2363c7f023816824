/**
 * endpoints/pages/list: query the type-path index for the items whose
 * `type` is "page" and whose `path` begins with the site id, projected onto
 * six attributes.
 */
module PagesList {
  import opened Documents
  import opened Lambda
  import opened GoStrings
  import opened Common

  /** The key condition `type = typeEquals AND begins_with(path, pathBeginsWith)`. */
  datatype KeyCondition = KeyCondition(typeEquals: string, pathBeginsWith: string)

  /** A Query request: index, key condition and projected attribute names. */
  datatype Query = Query(indexName: string, condition: KeyCondition, projection: set<string>)

  const TypePathIndex: string := "type-path-index"
  const ListedAttributes: set<string> := {"id", "version", "path", "createdAt", "updatedAt", "name"}

  /** The query the handler builds for the `siteid` path parameter, used raw. */
  function BuildQuery(siteid: string): Query {
    Query(TypePathIndex, KeyCondition("page", siteid), ListedAttributes)
  }

  /** Whether an item satisfies a key condition of the type-path index. */
  predicate Matches(d: Doc, c: KeyCondition) {
    TypeOf(d) == c.typeEquals && BeginsWith(PathOf(d), c.pathBeginsWith)
  }

  /** A page holding only the attributes named in `names`; the rest decode to zero. */
  function Project(p: Page, names: set<string>): Page {
    Page(if "id" in names then p.id else "",
         if "version" in names then p.version else "",
         if "path" in names then p.path else "",
         if "type" in names then p.docType else "",
         if "name" in names then p.name else None,
         if "description" in names then p.description else None,
         if "keywords" in names then p.keywords else None,
         if "author" in names then p.author else None,
         if "createdAt" in names then p.createdAt else ZeroTime,
         if "updatedAt" in names then p.updatedAt else ZeroTime)
  }

  /** The store's answer to a query, unmarshalled into pages (order and paging are not modelled). */
  function RunQuery(docs: map<Key, Doc>, q: Query): set<Page> {
    set k | k in docs && Matches(docs[k], q.condition) :: Project(AsPage(docs[k]), q.projection)
  }

  /** The listed form of a stored item. */
  function Listed(d: Doc): Page {
    Project(AsPage(d), ListedAttributes)
  }

  /** The Lambda handler; it only reads the table. */
  function Handler(docs: map<Key, Doc>, siteid: string, fault: Fault): (r: Response)
    ensures r.status in {StatusOK, StatusInternalServerError}
    ensures r.status == StatusInternalServerError <==>
              fault in {BuildFails, QueryFails, DecodeFails, ResponseFails}
    ensures r.status == StatusInternalServerError ==> r.body == NoBody
    ensures r.status == StatusOK ==> r.body.PagesBody?
    ensures r.status == StatusOK ==>
              forall p :: p in r.body.pages ==>
                && BeginsWith(p.path, siteid) && p.docType == ""
                && p.description.None? && p.keywords.None? && p.author.None?
    ensures r.status == StatusOK ==>
              forall k :: k in docs && TypeOf(docs[k]) == "page" && BeginsWith(PathOf(docs[k]), siteid) ==>
                Listed(docs[k]) in r.body.pages
    ensures r.status == StatusOK ==>
              forall p :: p in r.body.pages ==>
                exists k :: k in docs && TypeOf(docs[k]) == "page" && p == Listed(docs[k])
  {
    var q := BuildQuery(siteid);
    if fault == BuildFails || fault == QueryFails || fault == DecodeFails || fault == ResponseFails then
      Status(StatusInternalServerError)
    else
      Response(StatusOK, PagesBody(RunQuery(docs, q)))
  }

  /**
   * Over a well-keyed table every listed page names, by its id and version,
   * a stored item of type "page" under the site's prefix.
   */
  lemma ListedPagesAreStored(docs: map<Key, Doc>, siteid: string, p: Page)
    requires WellKeyed(docs)
    requires p in Handler(docs, siteid, NoFault).body.pages
    ensures Key(p.id, p.version) in docs
    ensures TypeOf(docs[Key(p.id, p.version)]) == "page"
    ensures BeginsWith(PathOf(docs[Key(p.id, p.version)]), siteid)
    ensures p == Listed(docs[Key(p.id, p.version)])
  {
    var k :| k in docs && Matches(docs[k], KeyCondition("page", siteid)) && p == Listed(docs[k]);
    assert KeyOf(docs[k]) == k;
  }
}
