/**
 * Concrete request/response scenarios for the page handlers, stated as
 * lemmas over the handlers' effect functions.
 */
module Scenarios {
  import opened Common
  import opened Documents
  import opened Lambda
  import GoStrings
  import PagesCreate
  import PagesUpdate
  import PagesGet
  import PagesList

  /** A page body carrying only the given path. */
  function PathOnly(path: string): Page {
    ZeroPage.(path := path)
  }

  /** A stored page with a name and two timestamps. */
  function StoredPage(id: string, version: string, path: string, name: string, created: Time, updated: Time): Page {
    Page(id, version, path, "page", Some(name), None, None, None, created, updated)
  }

  /** Creating `{"path":"about"}` answers 200 with fresh identifiers and the path as sent. */
  lemma CreateAbout(docs: map<Key, Doc>, start: Time)
    ensures var e := PagesCreate.Effect(docs, Parsed(PathOnly("about")), "id-1", "ver-1", start, NoFault);
            && e.response.status == StatusOK
            && e.response.body.PageBody?
            && e.response.body.page.id == "id-1" && e.response.body.page.version == "ver-1"
            && e.response.body.page.path == "about" && e.response.body.page.docType == "page"
            && e.response.body.page.createdAt == e.response.body.page.updatedAt
  {
    AboutIsAcceptedAsIs();
    var e := PagesCreate.Effect(docs, Parsed(PathOnly("about")), "id-1", "ver-1", start, NoFault);
    assert PagesCreate.Writes(Parsed(PathOnly("about")), NoFault);
  }

  /** "about" is not blank and is already lower case. */
  lemma AboutIsAcceptedAsIs()
    ensures GoStrings.ToLower("about") == "about"
    ensures GoStrings.TrimSpace("about") != ""
  {
    assert GoStrings.ToLower("about") == "about";
    assert !GoStrings.IsBlank("about") by { assert !GoStrings.IsSpace("about"[0]); }
    GoStrings.TrimSpaceEmptyIffBlank("about");
  }

  /** Creating `{"path":"  "}` answers 400 and persists nothing. */
  lemma CreateBlankPath(docs: map<Key, Doc>, start: Time)
    ensures var e := PagesCreate.Effect(docs, Parsed(PathOnly("  ")), "id-1", "ver-1", start, NoFault);
            e.response == Status(StatusBadRequest) && e.state == docs
  {
    assert GoStrings.IsBlank("  ");
  }

  /** Updating only the name keeps the stored path, overlays the name and advances updatedAt. */
  lemma UpdateName(created: Time, updated: Time, now: Time)
    requires updated < now
    ensures var docs := map[Key("X", "V") := PageDoc(StoredPage("X", "V", "about", "Old", created, updated))];
            var e := PagesUpdate.Effect(docs, "X", "V", Parsed(ZeroPage.(name := Some("New"))), now, NoFault);
            && e.response.status == StatusOK
            && e.response.body.PageBody?
            && e.response.body.page.path == "about"
            && e.response.body.page.name == Some("New")
            && e.response.body.page.updatedAt > updated
  {
  }

  /** Getting a key that holds nothing answers 404. */
  lemma GetMissing(docs: map<Key, Doc>, pageid: string, version: string)
    requires WellKeyed(docs) && Key(pageid, version) !in docs
    ensures PagesGet.Handler(docs, pageid, version, NoFault) == Status(StatusNotFound)
  {
    PagesGet.NotFoundIffAbsent(docs, pageid, version, NoFault);
  }

  const AcmeHome: Page := StoredPage("p1", "v1", "acme/home", "Home", 0, 0)
  const AcmeAbout: Page := StoredPage("p2", "v1", "acme/about", "About", 0, 0)
  const OtherHome: Page := StoredPage("p3", "v1", "other/home", "Home", 0, 0)
  const AcmecorpHome: Page := StoredPage("p4", "v1", "acmecorp/home", "Home", 0, 0)

  /** Listing site "acme" over three pages returns exactly the two under "acme". */
  lemma ListAcme()
    ensures var docs := map[Key("p1", "v1") := PageDoc(AcmeHome), Key("p2", "v1") := PageDoc(AcmeAbout),
                            Key("p3", "v1") := PageDoc(OtherHome)];
            var r := PagesList.Handler(docs, "acme", NoFault);
            && r.status == StatusOK
            && r.body.pages == {PagesList.Listed(PageDoc(AcmeHome)), PagesList.Listed(PageDoc(AcmeAbout))}
            && |r.body.pages| == 2
  {
    var docs := map[Key("p1", "v1") := PageDoc(AcmeHome), Key("p2", "v1") := PageDoc(AcmeAbout),
                    Key("p3", "v1") := PageDoc(OtherHome)];
    AcmePrefixes();
    var cond := PagesList.KeyCondition("page", "acme");
    assert PagesList.Matches(docs[Key("p1", "v1")], cond) && PagesList.Matches(docs[Key("p2", "v1")], cond);
    assert !PagesList.Matches(docs[Key("p3", "v1")], cond);
    assert docs.Keys == {Key("p1", "v1"), Key("p2", "v1"), Key("p3", "v1")};
    assert PagesList.Listed(PageDoc(AcmeHome)).id != PagesList.Listed(PageDoc(AcmeAbout)).id;
  }

  /** Which of the example paths begin with "acme". */
  lemma AcmePrefixes()
    ensures GoStrings.BeginsWith("acme/home", "acme") && GoStrings.BeginsWith("acme/about", "acme")
    ensures !GoStrings.BeginsWith("other/home", "acme")
  {
    assert "other/home"[0] != "acme"[0];
  }

  /**
   * The path prefix has no separator: listing site "acme" also returns the
   * pages of a site whose path is "acmecorp".
   */
  lemma ListAcmeIncludesAcmecorp()
    ensures var docs := map[Key("p4", "v1") := PageDoc(AcmecorpHome)];
            PagesList.Handler(docs, "acme", NoFault).body.pages == {PagesList.Listed(PageDoc(AcmecorpHome))}
  {
    var docs := map[Key("p4", "v1") := PageDoc(AcmecorpHome)];
    assert GoStrings.BeginsWith("acmecorp/home", "acme");
    assert docs.Keys == {Key("p4", "v1")};
  }
}
