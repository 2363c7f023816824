/**
 * endpoints/pages/create: refuse a blank path, stamp fresh identifiers, a
 * lower-cased path, the page type and the process-start time, then put.
 */
module PagesCreate {
  import opened Documents
  import opened Lambda
  import opened GoStrings
  import Store

  /** What the handler stores for a request body `input`, field by field. */
  ghost predicate Stamped(p: Page, input: Page, newId: string, newVersion: string, processStart: Time) {
    && p.id == newId && p.version == newVersion
    && p.path == ToLower(input.path) && p.docType == "page"
    && p.createdAt == processStart && p.updatedAt == processStart
    && p.name == input.name && p.description == input.description
    && p.keywords == input.keywords && p.author == input.author
  }

  /** Whether the handler reaches a successful PutItem. */
  predicate Writes(body: Body<Page>, fault: Fault) {
    body.Parsed? && TrimSpace(body.value.path) != "" && WriteOk(fault)
  }

  /**
   * The response and the table after one invocation. `newId` and
   * `newVersion` are the two uuid.New() results; `processStart` is the clock
   * reading taken once in `init`, so every page a process creates carries it.
   */
  function Effect(docs: map<Key, Doc>, body: Body<Page>, newId: string, newVersion: string, processStart: Time,
                  fault: Fault): (e: Outcome<map<Key, Doc>>)
    ensures e.response.status in {StatusOK, StatusBadRequest, StatusInternalServerError}
    ensures e.response.status == StatusBadRequest <==>
              body.Malformed? || IsBlank(body.value.path) || fault == PutFails
    ensures e.response.status == StatusOK <==> Writes(body, fault) && fault != ResponseFails
    ensures e.response.status != StatusOK ==> e.response.body == NoBody
    ensures !Writes(body, fault) ==> e.state == docs
    ensures Writes(body, fault) ==>
              var k := Key(newId, newVersion);
              && k in e.state && e.state[k].PageDoc?
              && Stamped(e.state[k].page, body.value, newId, newVersion, processStart)
              && e.state == docs[k := e.state[k]]
              && (e.response.status == StatusOK ==> e.response.body == PageBody(e.state[k].page))
  {
    if body.Malformed? then Outcome(Status(StatusBadRequest), docs)
    else
      TrimSpaceEmptyIffBlank(body.value.path);
      if TrimSpace(body.value.path) == "" then Outcome(Status(StatusBadRequest), docs)
      else
        var page := body.value.(id := newId, version := newVersion, path := ToLower(body.value.path),
                                docType := "page", createdAt := processStart, updatedAt := processStart);
        if fault == EncodeItemFails then Outcome(Status(StatusInternalServerError), docs)
        else if fault == PutFails then Outcome(Status(StatusBadRequest), docs)
        else
          var written := docs[KeyOf(PageDoc(page)) := PageDoc(page)];
          if fault == ResponseFails then Outcome(Status(StatusInternalServerError), written)
          else Outcome(Response(StatusOK, PageBody(page)), written)
  }

  /**
   * The stored path is lower case, and creating a page again from the stored
   * page is accepted and stores the very same path.
   */
  lemma RecreateKeepsPath(docs: map<Key, Doc>, input: Page, newId: string, newVersion: string, processStart: Time,
                          fault: Fault, docs': map<Key, Doc>, newId': string, newVersion': string)
    requires Writes(Parsed(input), fault)
    ensures var stored := Effect(docs, Parsed(input), newId, newVersion, processStart, fault).state[Key(newId, newVersion)].page;
            && IsLowerCase(stored.path)
            && Writes(Parsed(stored), fault)
            && Effect(docs', Parsed(stored), newId', newVersion', processStart, fault)
                 .state[Key(newId', newVersion')].page.path == stored.path
  {
    var stored := Effect(docs, Parsed(input), newId, newVersion, processStart, fault).state[Key(newId, newVersion)].page;
    ToLowerIdempotent(input.path);
    TrimSpaceEmptyIffBlank(input.path);
    ToLowerKeepsBlank(input.path);
    TrimSpaceEmptyIffBlank(stored.path);
  }

  /** The Lambda handler. */
  method Handler(t: Store.Table, body: Body<Page>, newId: string, newVersion: string, processStart: Time, fault: Fault)
    returns (r: Response)
    requires t.Valid()
    requires newId != ""
    modifies t
    ensures t.Valid()
    ensures Outcome(r, t.docs) == Effect(old(t.docs), body, newId, newVersion, processStart, fault)
  {
    if body.Malformed? {
      return Status(StatusBadRequest);
    }
    var page := body.value;
    if TrimSpace(page.path) == "" {
      return Status(StatusBadRequest);
    }
    page := page.(id := newId);
    page := page.(version := newVersion);
    page := page.(path := ToLower(page.path));
    page := page.(docType := "page");
    page := page.(createdAt := processStart);
    page := page.(updatedAt := processStart);
    if fault == EncodeItemFails {
      return Status(StatusInternalServerError);
    }
    if fault == PutFails {
      return Status(StatusBadRequest);
    }
    t.PutItem(PageDoc(page));
    if fault == ResponseFails {
      return Status(StatusInternalServerError);
    }
    r := Response(StatusOK, PageBody(page));
  }
}
