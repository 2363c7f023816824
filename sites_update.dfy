/**
 * endpoints/sites/update: the same read, pin, merge and put as the page
 * update, over Site. Its `status` is an `int` tagged `omitempty`, so a
 * requested status of zero (Unpublished) never reaches the stored site.
 */
module SitesUpdate {
  import opened Common
  import opened Documents
  import opened Json
  import opened Lambda
  import Store

  /** How json.Marshal writes field `m` of a Site. */
  function SiteMember(s: Site, m: Member): Option<Value> {
    match m
    case IdKey => Some(JString(s.id))
    case VersionKey => Some(JString(s.version))
    case PathKey => Some(JString(s.path))
    case TypeKey => Some(JString(s.docType))
    case StatusKey => IntValue(s.status)
    case NameKey => PointerValue(s.name)
    case DescriptionKey => PointerValue(s.description)
    case KeywordsKey => PointerValue(s.keywords)
    case UrlKey => PointerValue(s.url)
    case TagManagerIdKey => PointerValue(s.tagManagerId)
    case CardImageUrlKey => PointerValue(s.cardImageUrl)
    case CreatedAtKey => Some(JTime(s.createdAt))
    case UpdatedAtKey => Some(JTime(s.updatedAt))
    case AuthorKey => None
  }

  /** json.Marshal of a Site. */
  function EncodeSite(s: Site): Object {
    map m | m in AllMembers && SiteMember(s, m).Some? :: SiteMember(s, m).value
  }

  /** json.Unmarshal of an object into a Site that already holds `into`. */
  function DecodeInto(into: Site, o: Object): Result<Site> {
    var withScalars :- DecodeScalarsInto(into, o);
    DecodePointersInto(withScalars, o)
  }

  /** The part of json.Unmarshal that fills the fields without a pointer. */
  function DecodeScalarsInto(into: Site, o: Object): Result<Site> {
    var id :- StringMember(o, IdKey, into.id);
    var version :- StringMember(o, VersionKey, into.version);
    var path :- StringMember(o, PathKey, into.path);
    var docType :- StringMember(o, TypeKey, into.docType);
    var status :- IntMember(o, StatusKey, into.status);
    var createdAt :- TimeMember(o, CreatedAtKey, into.createdAt);
    var updatedAt :- TimeMember(o, UpdatedAtKey, into.updatedAt);
    Ok(into.(id := id, version := version, path := path, docType := docType, status := status,
             createdAt := createdAt, updatedAt := updatedAt))
  }

  /** The part of json.Unmarshal that fills the pointer fields. */
  function DecodePointersInto(into: Site, o: Object): Result<Site> {
    var name :- PointerMember(o, NameKey, into.name);
    var description :- PointerMember(o, DescriptionKey, into.description);
    var keywords :- PointerMember(o, KeywordsKey, into.keywords);
    var url :- PointerMember(o, UrlKey, into.url);
    var tagManagerId :- PointerMember(o, TagManagerIdKey, into.tagManagerId);
    var cardImageUrl :- PointerMember(o, CardImageUrlKey, into.cardImageUrl);
    Ok(into.(name := name, description := description, keywords := keywords, url := url,
             tagManagerId := tagManagerId, cardImageUrl := cardImageUrl))
  }

  /**
   * The omitempty overlay of a Site: each pointer field is the change's when
   * present, and the status is the change's only when it is not zero.
   */
  ghost predicate OmitEmptyOverlaid(merged: Site, original: Site, changes: Site) {
    && merged.status == (if changes.status != 0 then changes.status else original.status)
    && Overlaid(merged.name, original.name, changes.name)
    && Overlaid(merged.description, original.description, changes.description)
    && Overlaid(merged.keywords, original.keywords, changes.keywords)
    && Overlaid(merged.url, original.url, changes.url)
    && Overlaid(merged.tagManagerId, original.tagManagerId, changes.tagManagerId)
    && Overlaid(merged.cardImageUrl, original.cardImageUrl, changes.cardImageUrl)
  }

  /**
   * mergeSites: marshal `changes`, unmarshal the JSON over `original`. It
   * never fails; the fields without omitempty come from `changes`, the rest
   * follow the omitempty overlay.
   */
  function MergeSites(original: Site, changes: Site): (r: Result<Site>)
    ensures r.Ok?
    ensures r.value.id == changes.id && r.value.version == changes.version
    ensures r.value.path == changes.path && r.value.docType == changes.docType
    ensures r.value.createdAt == changes.createdAt && r.value.updatedAt == changes.updatedAt
    ensures OmitEmptyOverlaid(r.value, original, changes)
  {
    ScalarsOfEncoded(original, changes);
    PointersOfEncoded(DecodeScalarsInto(original, EncodeSite(changes)).value, changes);
    DecodeInto(original, EncodeSite(changes))
  }

  /** Unmarshalling a marshalled site: the non-pointer fields, with `status` dropped when zero. */
  lemma ScalarsOfEncoded(into: Site, changes: Site)
    ensures DecodeScalarsInto(into, EncodeSite(changes)) == Ok(into.(
              id := changes.id, version := changes.version, path := changes.path, docType := changes.docType,
              status := if changes.status != 0 then changes.status else into.status,
              createdAt := changes.createdAt, updatedAt := changes.updatedAt))
  {
  }

  /** Unmarshalling a marshalled site: the pointer fields, with nil ones dropped. */
  lemma PointersOfEncoded(into: Site, changes: Site)
    ensures DecodePointersInto(into, EncodeSite(changes)) == Ok(into.(
              name := if changes.name.Some? then changes.name else into.name,
              description := if changes.description.Some? then changes.description else into.description,
              keywords := if changes.keywords.Some? then changes.keywords else into.keywords,
              url := if changes.url.Some? then changes.url else into.url,
              tagManagerId := if changes.tagManagerId.Some? then changes.tagManagerId else into.tagManagerId,
              cardImageUrl := if changes.cardImageUrl.Some? then changes.cardImageUrl else into.cardImageUrl))
  {
    var o := EncodeSite(changes);
    assert PointerMember(o, NameKey, into.name) == Ok(if changes.name.Some? then changes.name else into.name);
    assert PointerMember(o, DescriptionKey, into.description)
           == Ok(if changes.description.Some? then changes.description else into.description);
    assert PointerMember(o, KeywordsKey, into.keywords)
           == Ok(if changes.keywords.Some? then changes.keywords else into.keywords);
    assert PointerMember(o, UrlKey, into.url) == Ok(if changes.url.Some? then changes.url else into.url);
    assert PointerMember(o, TagManagerIdKey, into.tagManagerId)
           == Ok(if changes.tagManagerId.Some? then changes.tagManagerId else into.tagManagerId);
    assert PointerMember(o, CardImageUrlKey, into.cardImageUrl)
           == Ok(if changes.cardImageUrl.Some? then changes.cardImageUrl else into.cardImageUrl);
  }

  /** Unmarshalling a marshalled site into a zero Site gives the site back. */
  lemma EncodeDecodeRoundTrip(s: Site)
    ensures DecodeInto(ZeroSite, EncodeSite(s)) == Ok(s)
  {
    var r := MergeSites(ZeroSite, s);
  }

  /** The handler's preparation of `changes` before the merge. */
  function Pin(original: Site, changes: Site, now: Time): Site {
    changes.(id := original.id, version := original.version, docType := "site",
             path := if |changes.path| == 0 then original.path else changes.path,
             createdAt := original.createdAt, updatedAt := now)
  }

  /** What a successful update stores, field by field. */
  ghost predicate Updated(s: Site, original: Site, changes: Site, now: Time) {
    && s.id == original.id && s.version == original.version && s.createdAt == original.createdAt
    && s.docType == "site" && s.updatedAt == now
    && s.path == (if changes.path == "" then original.path else changes.path)
    && OmitEmptyOverlaid(s, original, changes)
  }

  /** The site the handler reads: the item under (siteid, version), decoded into a zero Site. */
  function Original(docs: map<Key, Doc>, siteid: string, version: string): Site {
    DecodeSite(Get(docs, Key(siteid, version)))
  }

  /** Whether the handler reaches a successful PutItem. */
  predicate Writes(docs: map<Key, Doc>, siteid: string, version: string, body: Body<Site>, fault: Fault) {
    ReadOk(fault) && Original(docs, siteid, version).id != "" && body.Parsed? && WriteOk(fault)
  }

  /** The response and the table after one invocation of the handler. */
  function Effect(docs: map<Key, Doc>, siteid: string, version: string, body: Body<Site>, now: Time, fault: Fault)
    : (e: Outcome<map<Key, Doc>>)
    ensures e.response.status in {StatusOK, StatusBadRequest, StatusNotFound, StatusInternalServerError}
    ensures e.response.status == StatusNotFound <==>
              ReadOk(fault) && Original(docs, siteid, version).id == ""
    ensures e.response.status == StatusBadRequest <==>
              ReadOk(fault) && Original(docs, siteid, version).id != "" && (body.Malformed? || fault == PutFails)
    ensures e.response.status == StatusOK <==> Writes(docs, siteid, version, body, fault) && fault != ResponseFails
    ensures e.response.status != StatusOK ==> e.response.body == NoBody
    ensures !Writes(docs, siteid, version, body, fault) ==> e.state == docs
    ensures Writes(docs, siteid, version, body, fault) ==>
              var original := Original(docs, siteid, version);
              var k := Key(original.id, original.version);
              && k in e.state && e.state[k].SiteDoc?
              && Updated(e.state[k].site, original, body.value, now)
              && e.state == docs[k := e.state[k]]
              && (e.response.status == StatusOK ==> e.response.body == SiteBody(e.state[k].site))
  {
    var original := Original(docs, siteid, version);
    if !ReadOk(fault) then Outcome(Status(StatusInternalServerError), docs)
    else if original.id == "" then Outcome(Status(StatusNotFound), docs)
    else if body.Malformed? then Outcome(Status(StatusBadRequest), docs)
    else match MergeSites(original, Pin(original, body.value, now))
      case Err(_) => Outcome(Status(StatusBadRequest), docs)
      case Ok(updated) =>
        if fault == EncodeItemFails then Outcome(Status(StatusInternalServerError), docs)
        else if fault == PutFails then Outcome(Status(StatusBadRequest), docs)
        else
          var written := docs[KeyOf(SiteDoc(updated)) := SiteDoc(updated)];
          if fault == ResponseFails then Outcome(Status(StatusInternalServerError), written)
          else Outcome(Response(StatusOK, SiteBody(updated)), written)
  }

  /**
   * Over a well-keyed table the update finds the site exactly when the key
   * is present, writes back under the requested key, adds no key, and keeps
   * the table well keyed.
   */
  lemma UpdateTargetsRequestedKey(docs: map<Key, Doc>, siteid: string, version: string, body: Body<Site>, now: Time, fault: Fault)
    requires WellKeyed(docs)
    ensures var e := Effect(docs, siteid, version, body, now, fault);
            && (ReadOk(fault) ==> (e.response.status == StatusNotFound <==> Key(siteid, version) !in docs))
            && e.state.Keys == docs.Keys
            && WellKeyed(e.state)
            && (Writes(docs, siteid, version, body, fault) ==>
                  e.state == docs[Key(siteid, version) := e.state[Key(siteid, version)]])
  {
    EmptyIdIffAbsent(docs, Key(siteid, version));
  }

  /**
   * No request body moves a site from a non-zero status (Published) back to
   * Unpublished: a status of zero is dropped by omitempty before the merge.
   */
  lemma UpdateCannotUnpublish(docs: map<Key, Doc>, siteid: string, version: string, body: Body<Site>, now: Time, fault: Fault)
    requires Writes(docs, siteid, version, body, fault)
    requires Original(docs, siteid, version).status != Unpublished
    ensures var original := Original(docs, siteid, version);
            var e := Effect(docs, siteid, version, body, now, fault);
            e.state[Key(original.id, original.version)].site.status != Unpublished
  {
  }

  /** The Lambda handler. */
  method Handler(t: Store.Table, siteid: string, version: string, body: Body<Site>, now: Time, fault: Fault)
    returns (r: Response)
    requires t.Valid()
    modifies t
    ensures t.Valid()
    ensures Outcome(r, t.docs) == Effect(old(t.docs), siteid, version, body, now, fault)
  {
    var item := Get(t.docs, Key(siteid, version));
    if fault == GetFails {
      return Status(StatusInternalServerError);
    }
    if fault == DecodeFails {
      return Status(StatusInternalServerError);
    }
    var original := DecodeSite(item);
    if original.id == "" {
      return Status(StatusNotFound);
    }
    if body.Malformed? {
      return Status(StatusBadRequest);
    }
    var changes := body.value;
    changes := changes.(id := original.id);
    changes := changes.(version := original.version);
    changes := changes.(docType := "site");
    if |changes.path| == 0 {
      changes := changes.(path := original.path);
    }
    changes := changes.(createdAt := original.createdAt);
    changes := changes.(updatedAt := now);
    var merged := MergeSites(original, changes);
    if merged.Err? {
      return Status(StatusBadRequest);
    }
    // mergeSites overwrites *original and returns that same site
    original := merged.value;
    var updated := original;
    if fault == EncodeItemFails {
      return Status(StatusInternalServerError);
    }
    if fault == PutFails {
      return Status(StatusBadRequest);
    }
    t.PutItem(SiteDoc(updated));
    if fault == ResponseFails {
      return Status(StatusInternalServerError);
    }
    r := Response(StatusOK, SiteBody(updated));
  }
}
