/**
 * endpoints/sites/create: stamp fresh identifiers, the Unpublished status
 * and the process-start time, then put. Unlike page creation there is no
 * path check, no lower-casing and no type stamping.
 */
module SitesCreate {
  import opened Documents
  import opened Lambda
  import Store

  /** What the handler stores for a request body `input`, field by field. */
  ghost predicate Stamped(s: Site, input: Site, newId: string, newVersion: string, processStart: Time) {
    && s.id == newId && s.version == newVersion
    && s.status == Unpublished
    && s.createdAt == processStart && s.updatedAt == processStart
    && s.path == input.path && s.docType == input.docType
    && s.name == input.name && s.description == input.description && s.keywords == input.keywords
    && s.url == input.url && s.tagManagerId == input.tagManagerId && s.cardImageUrl == input.cardImageUrl
  }

  /** Whether the handler reaches a successful PutItem. */
  predicate Writes(body: Body<Site>, fault: Fault) {
    body.Parsed? && WriteOk(fault)
  }

  /** The response and the table after one invocation. */
  function Effect(docs: map<Key, Doc>, body: Body<Site>, newId: string, newVersion: string, processStart: Time,
                  fault: Fault): (e: Outcome<map<Key, Doc>>)
    ensures e.response.status in {StatusOK, StatusBadRequest, StatusInternalServerError}
    ensures e.response.status == StatusBadRequest <==> body.Malformed? || fault == PutFails
    ensures e.response.status == StatusOK <==> Writes(body, fault) && fault != ResponseFails
    ensures e.response.status != StatusOK ==> e.response.body == NoBody
    ensures !Writes(body, fault) ==> e.state == docs
    ensures Writes(body, fault) ==>
              var k := Key(newId, newVersion);
              && k in e.state && e.state[k].SiteDoc?
              && Stamped(e.state[k].site, body.value, newId, newVersion, processStart)
              && e.state == docs[k := e.state[k]]
              && (e.response.status == StatusOK ==> e.response.body == SiteBody(e.state[k].site))
  {
    if body.Malformed? then Outcome(Status(StatusBadRequest), docs)
    else
      var site := body.value.(id := newId, version := newVersion, status := Unpublished,
                              createdAt := processStart, updatedAt := processStart);
      if fault == EncodeItemFails then Outcome(Status(StatusInternalServerError), docs)
      else if fault == PutFails then Outcome(Status(StatusBadRequest), docs)
      else
        var written := docs[KeyOf(SiteDoc(site)) := SiteDoc(site)];
        if fault == ResponseFails then Outcome(Status(StatusInternalServerError), written)
        else Outcome(Response(StatusOK, SiteBody(site)), written)
  }

  /** The Lambda handler. */
  method Handler(t: Store.Table, body: Body<Site>, newId: string, newVersion: string, processStart: Time, fault: Fault)
    returns (r: Response)
    requires t.Valid()
    requires newId != ""
    modifies t
    ensures t.Valid()
    ensures Outcome(r, t.docs) == Effect(old(t.docs), body, newId, newVersion, processStart, fault)
  {
    if body.Malformed? {
      return Status(StatusBadRequest);
    }
    var site := body.value;
    site := site.(id := newId);
    site := site.(version := newVersion);
    var status := Unpublished;
    site := site.(status := status);
    site := site.(createdAt := processStart);
    site := site.(updatedAt := processStart);
    if fault == EncodeItemFails {
      return Status(StatusInternalServerError);
    }
    if fault == PutFails {
      return Status(StatusBadRequest);
    }
    t.PutItem(SiteDoc(site));
    if fault == ResponseFails {
      return Status(StatusInternalServerError);
    }
    r := Response(StatusOK, SiteBody(site));
  }
}
