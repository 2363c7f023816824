/**
 * endpoints/pages/get: look a page up by (pageid, version) and report a
 * missing one as 404, detected by the decoded page's empty `id`.
 */
module PagesGet {
  import opened Documents
  import opened Lambda

  /** The Lambda handler; it only reads the table. */
  function Handler(docs: map<Key, Doc>, pageid: string, version: string, fault: Fault): (r: Response)
    ensures r.status in {StatusOK, StatusNotFound, StatusInternalServerError}
    ensures r.status == StatusInternalServerError <==> !ReadOk(fault) || fault == ResponseFails
    ensures r.status == StatusNotFound <==>
              ReadOk(fault) && fault != ResponseFails && DecodePage(Get(docs, Key(pageid, version))).id == ""
    ensures r.status != StatusOK ==> r.body == NoBody
    ensures r.status == StatusOK ==>
              Key(pageid, version) in docs && r.body == PageBody(AsPage(docs[Key(pageid, version)]))
  {
    var page := DecodePage(Get(docs, Key(pageid, version)));
    if !ReadOk(fault) then Status(StatusInternalServerError)
    else if fault == ResponseFails then Status(StatusInternalServerError)
    else if page.id == "" then Status(StatusNotFound)
    else Response(StatusOK, PageBody(page))
  }

  /** Over a well-keyed table, 404 means exactly that no item is stored under the key. */
  lemma NotFoundIffAbsent(docs: map<Key, Doc>, pageid: string, version: string, fault: Fault)
    requires WellKeyed(docs)
    requires ReadOk(fault) && fault != ResponseFails
    ensures Handler(docs, pageid, version, fault).status == StatusNotFound <==> Key(pageid, version) !in docs
    ensures Handler(docs, pageid, version, fault).status == StatusOK <==> Key(pageid, version) in docs
  {
    EmptyIdIffAbsent(docs, Key(pageid, version));
  }
}
