/**
 * endpoints/sites/get: look a site up by (id, version). There is no
 * not-found check, so a missing item is answered with 200 and a zero site.
 */
module SitesGet {
  import opened Documents
  import opened Lambda

  /** The Lambda handler; it only reads the table. */
  function Handler(docs: map<Key, Doc>, id: string, version: string, fault: Fault): (r: Response)
    ensures r.status in {StatusOK, StatusInternalServerError}
    ensures r.status == StatusInternalServerError <==> !ReadOk(fault) || fault == ResponseFails
    ensures r.status == StatusInternalServerError ==> r.body == NoBody
    ensures r.status == StatusOK ==> r.body.SiteBody?
    ensures r.status == StatusOK && Key(id, version) in docs ==> r.body.site == AsSite(docs[Key(id, version)])
    ensures r.status == StatusOK && Key(id, version) !in docs ==> r.body.site == ZeroSite
  {
    var site := DecodeSite(Get(docs, Key(id, version)));
    if !ReadOk(fault) then Status(StatusInternalServerError)
    else if fault == ResponseFails then Status(StatusInternalServerError)
    else Response(StatusOK, SiteBody(site))
  }

  /** Unlike the page getter, a missing site is a success whose body has an empty id. */
  lemma MissingSiteIsOk(docs: map<Key, Doc>, id: string, version: string)
    requires Key(id, version) !in docs
    ensures Handler(docs, id, version, NoFault) == Response(StatusOK, SiteBody(ZeroSite))
    ensures Handler(docs, id, version, NoFault).body.site.id == ""
  {
  }
}
