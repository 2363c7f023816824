/**
 * How the handlers compose over one table: what a read returns after a
 * create, an update or a delete.
 */
module RoundTrips {
  import opened Common
  import opened Documents
  import opened Lambda
  import opened GoStrings
  import PagesCreate
  import SitesCreate
  import PagesUpdate
  import PagesGet
  import SitesGet
  import PagesList
  import PagesDelete

  /** A page that was created is found again under its new key, exactly as the create answered. */
  lemma PageCreateThenGet(docs: map<Key, Doc>, body: Body<Page>, newId: string, newVersion: string, start: Time)
    requires newId != ""
    requires PagesCreate.Writes(body, NoFault)
    ensures var e := PagesCreate.Effect(docs, body, newId, newVersion, start, NoFault);
            PagesGet.Handler(e.state, newId, newVersion, NoFault) == e.response
  {
    var e := PagesCreate.Effect(docs, body, newId, newVersion, start, NoFault);
    var k := Key(newId, newVersion);
    var stored := e.state[k].page;
    assert k in e.state && e.state[k] == PageDoc(stored) && stored.id == newId;
    assert e.response == Response(StatusOK, PageBody(stored));
    GetOfStored(e.state, k, stored);
  }

  /** A page stored under its key with a non-empty id is what the page getter answers. */
  lemma GetOfStored(state: map<Key, Doc>, k: Key, p: Page)
    requires k in state && state[k] == PageDoc(p) && p.id != ""
    ensures PagesGet.Handler(state, k.id, k.version, NoFault) == Response(StatusOK, PageBody(p))
  {
  }

  /** A site that was created is found again under its new key, exactly as the create answered. */
  lemma SiteCreateThenGet(docs: map<Key, Doc>, body: Body<Site>, newId: string, newVersion: string, start: Time)
    requires SitesCreate.Writes(body, NoFault)
    ensures var e := SitesCreate.Effect(docs, body, newId, newVersion, start, NoFault);
            SitesGet.Handler(e.state, newId, newVersion, NoFault) == e.response
  {
  }

  /** After a successful update, a get of the same key answers what the update answered. */
  lemma PageUpdateThenGet(docs: map<Key, Doc>, pageid: string, version: string, body: Body<Page>, now: Time)
    requires WellKeyed(docs)
    requires PagesUpdate.Writes(docs, pageid, version, body, NoFault)
    ensures var e := PagesUpdate.Effect(docs, pageid, version, body, now, NoFault);
            PagesGet.Handler(e.state, pageid, version, NoFault) == e.response
  {
    EmptyIdIffAbsent(docs, Key(pageid, version));
  }

  /** After a delete, a get of the same key answers 404. */
  lemma PageDeleteThenGet(docs: map<Key, Doc>, pageid: string, version: string)
    ensures var e := PagesDelete.Effect(docs, pageid, version, NoFault);
            PagesGet.Handler(e.state, pageid, version, NoFault) == Status(StatusNotFound)
  {
  }

  /**
   * A created page is listed under every site prefix of its lower-cased
   * path, and only in its listed projection.
   */
  lemma PageCreateThenList(docs: map<Key, Doc>, body: Body<Page>, newId: string, newVersion: string, start: Time,
                           siteid: string)
    requires PagesCreate.Writes(body, NoFault)
    requires BeginsWith(ToLower(body.value.path), siteid)
    ensures var e := PagesCreate.Effect(docs, body, newId, newVersion, start, NoFault);
            PagesList.Listed(e.state[Key(newId, newVersion)]) in PagesList.Handler(e.state, siteid, NoFault).body.pages
  {
  }

  /**
   * Site creation stores the body's `type` as sent, so a site whose body
   * says "page" is listed among the pages of its path prefix.
   */
  lemma SiteTypedPageIsListed(docs: map<Key, Doc>, site: Site, newId: string, newVersion: string, start: Time,
                              siteid: string)
    requires site.docType == "page" && BeginsWith(site.path, siteid)
    ensures var e := SitesCreate.Effect(docs, Parsed(site), newId, newVersion, start, NoFault);
            PagesList.Listed(e.state[Key(newId, newVersion)]) in PagesList.Handler(e.state, siteid, NoFault).body.pages
  {
  }
}
