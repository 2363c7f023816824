/**
 * endpoints/pages/update: read the stored page, pin its identity fields on
 * the requested changes, merge the changes over it through a JSON round
 * trip, and put the result back under the same key.
 */
module PagesUpdate {
  import opened Common
  import opened Documents
  import opened Json
  import opened Lambda
  import Store

  /** How json.Marshal writes field `m` of a Page: `None` for a nil pointer (omitempty) or a member Page lacks. */
  function PageMember(p: Page, m: Member): Option<Value> {
    match m
    case IdKey => Some(JString(p.id))
    case VersionKey => Some(JString(p.version))
    case PathKey => Some(JString(p.path))
    case TypeKey => Some(JString(p.docType))
    case NameKey => PointerValue(p.name)
    case DescriptionKey => PointerValue(p.description)
    case KeywordsKey => PointerValue(p.keywords)
    case AuthorKey => PointerValue(p.author)
    case CreatedAtKey => Some(JTime(p.createdAt))
    case UpdatedAtKey => Some(JTime(p.updatedAt))
    case _ => None
  }

  /** json.Marshal of a Page. */
  function EncodePage(p: Page): Object {
    map m | m in AllMembers && PageMember(p, m).Some? :: PageMember(p, m).value
  }

  /** json.Unmarshal of an object into a Page that already holds `into`. */
  function DecodeInto(into: Page, o: Object): Result<Page> {
    var withScalars :- DecodeScalarsInto(into, o);
    DecodePointersInto(withScalars, o)
  }

  /** The part of json.Unmarshal that fills the fields without a pointer. */
  function DecodeScalarsInto(into: Page, o: Object): Result<Page> {
    var id :- StringMember(o, IdKey, into.id);
    var version :- StringMember(o, VersionKey, into.version);
    var path :- StringMember(o, PathKey, into.path);
    var docType :- StringMember(o, TypeKey, into.docType);
    var createdAt :- TimeMember(o, CreatedAtKey, into.createdAt);
    var updatedAt :- TimeMember(o, UpdatedAtKey, into.updatedAt);
    Ok(into.(id := id, version := version, path := path, docType := docType,
             createdAt := createdAt, updatedAt := updatedAt))
  }

  /** The part of json.Unmarshal that fills the pointer fields. */
  function DecodePointersInto(into: Page, o: Object): Result<Page> {
    var name :- PointerMember(o, NameKey, into.name);
    var description :- PointerMember(o, DescriptionKey, into.description);
    var keywords :- PointerMember(o, KeywordsKey, into.keywords);
    var author :- PointerMember(o, AuthorKey, into.author);
    Ok(into.(name := name, description := description, keywords := keywords, author := author))
  }

  /** Unmarshalling a marshalled page: every non-pointer field is overwritten. */
  lemma ScalarsOfEncoded(into: Page, changes: Page)
    ensures DecodeScalarsInto(into, EncodePage(changes)) == Ok(into.(
              id := changes.id, version := changes.version, path := changes.path, docType := changes.docType,
              createdAt := changes.createdAt, updatedAt := changes.updatedAt))
  {
  }

  /** Unmarshalling a marshalled page: the pointer fields, with nil ones dropped. */
  lemma PointersOfEncoded(into: Page, changes: Page)
    ensures DecodePointersInto(into, EncodePage(changes)) == Ok(into.(
              name := if changes.name.Some? then changes.name else into.name,
              description := if changes.description.Some? then changes.description else into.description,
              keywords := if changes.keywords.Some? then changes.keywords else into.keywords,
              author := if changes.author.Some? then changes.author else into.author))
  {
  }

  /** Each optional field of `merged` is the change's when present, else the original's. */
  ghost predicate PointersOverlaid(merged: Page, original: Page, changes: Page) {
    && Overlaid(merged.name, original.name, changes.name)
    && Overlaid(merged.description, original.description, changes.description)
    && Overlaid(merged.keywords, original.keywords, changes.keywords)
    && Overlaid(merged.author, original.author, changes.author)
  }

  /**
   * mergePages: marshal `changes`, unmarshal the JSON over `original`. It
   * never fails, every non-pointer field comes from `changes`, and the
   * pointer fields follow the omitempty overlay.
   */
  function MergePages(original: Page, changes: Page): (r: Result<Page>)
    ensures r.Ok?
    ensures r.value.id == changes.id && r.value.version == changes.version
    ensures r.value.path == changes.path && r.value.docType == changes.docType
    ensures r.value.createdAt == changes.createdAt && r.value.updatedAt == changes.updatedAt
    ensures PointersOverlaid(r.value, original, changes)
  {
    ScalarsOfEncoded(original, changes);
    PointersOfEncoded(DecodeScalarsInto(original, EncodePage(changes)).value, changes);
    DecodeInto(original, EncodePage(changes))
  }

  /** Unmarshalling a marshalled page into a zero Page gives the page back. */
  lemma EncodeDecodeRoundTrip(p: Page)
    ensures DecodeInto(ZeroPage, EncodePage(p)) == Ok(p)
  {
    var r := MergePages(ZeroPage, p);
  }

  /** The handler's preparation of `changes` before the merge. */
  function Pin(original: Page, changes: Page, now: Time): Page {
    changes.(id := original.id, version := original.version, docType := "page",
             path := if |changes.path| == 0 then original.path else changes.path,
             createdAt := original.createdAt, updatedAt := now)
  }

  /** What a successful update stores, field by field. */
  ghost predicate Updated(p: Page, original: Page, changes: Page, now: Time) {
    && p.id == original.id && p.version == original.version && p.createdAt == original.createdAt
    && p.docType == "page" && p.updatedAt == now
    && p.path == (if changes.path == "" then original.path else changes.path)
    && PointersOverlaid(p, original, changes)
  }

  /** The page the handler reads: the item under (pageid, version), decoded into a zero Page. */
  function Original(docs: map<Key, Doc>, pageid: string, version: string): Page {
    DecodePage(Get(docs, Key(pageid, version)))
  }

  /** Whether the handler reaches a successful PutItem. */
  predicate Writes(docs: map<Key, Doc>, pageid: string, version: string, body: Body<Page>, fault: Fault) {
    ReadOk(fault) && Original(docs, pageid, version).id != "" && body.Parsed? && WriteOk(fault)
  }

  /** The response and the table after one invocation of the handler. */
  function Effect(docs: map<Key, Doc>, pageid: string, version: string, body: Body<Page>, now: Time, fault: Fault)
    : (e: Outcome<map<Key, Doc>>)
    ensures e.response.status in {StatusOK, StatusBadRequest, StatusNotFound, StatusInternalServerError}
    ensures e.response.status == StatusNotFound <==>
              ReadOk(fault) && Original(docs, pageid, version).id == ""
    ensures e.response.status == StatusBadRequest <==>
              ReadOk(fault) && Original(docs, pageid, version).id != "" && (body.Malformed? || fault == PutFails)
    ensures e.response.status == StatusOK <==> Writes(docs, pageid, version, body, fault) && fault != ResponseFails
    ensures e.response.status != StatusOK ==> e.response.body == NoBody
    ensures !Writes(docs, pageid, version, body, fault) ==> e.state == docs
    ensures Writes(docs, pageid, version, body, fault) ==>
              var original := Original(docs, pageid, version);
              var k := Key(original.id, original.version);
              && k in e.state && e.state[k].PageDoc?
              && Updated(e.state[k].page, original, body.value, now)
              && e.state == docs[k := e.state[k]]
              && (e.response.status == StatusOK ==> e.response.body == PageBody(e.state[k].page))
  {
    var original := Original(docs, pageid, version);
    if !ReadOk(fault) then Outcome(Status(StatusInternalServerError), docs)
    else if original.id == "" then Outcome(Status(StatusNotFound), docs)
    else if body.Malformed? then Outcome(Status(StatusBadRequest), docs)
    else match MergePages(original, Pin(original, body.value, now))
      case Err(_) => Outcome(Status(StatusBadRequest), docs)
      case Ok(updated) =>
        if fault == EncodeItemFails then Outcome(Status(StatusInternalServerError), docs)
        else if fault == PutFails then Outcome(Status(StatusBadRequest), docs)
        else
          var written := docs[KeyOf(PageDoc(updated)) := PageDoc(updated)];
          if fault == ResponseFails then Outcome(Status(StatusInternalServerError), written)
          else Outcome(Response(StatusOK, PageBody(updated)), written)
  }

  /**
   * Over a well-keyed table the update finds the page exactly when the key
   * is present, writes back under the requested key, adds no key, and keeps
   * the table well keyed.
   */
  lemma UpdateTargetsRequestedKey(docs: map<Key, Doc>, pageid: string, version: string, body: Body<Page>, now: Time, fault: Fault)
    requires WellKeyed(docs)
    ensures var e := Effect(docs, pageid, version, body, now, fault);
            && (ReadOk(fault) ==> (e.response.status == StatusNotFound <==> Key(pageid, version) !in docs))
            && e.state.Keys == docs.Keys
            && WellKeyed(e.state)
            && (Writes(docs, pageid, version, body, fault) ==>
                  e.state == docs[Key(pageid, version) := e.state[Key(pageid, version)]])
  {
    EmptyIdIffAbsent(docs, Key(pageid, version));
  }

  /** An update can set an optional field, never clear one. */
  lemma UpdateNeverClears(docs: map<Key, Doc>, pageid: string, version: string, body: Body<Page>, now: Time, fault: Fault)
    requires Writes(docs, pageid, version, body, fault)
    ensures var original := Original(docs, pageid, version);
            var stored := Effect(docs, pageid, version, body, now, fault).state[Key(original.id, original.version)].page;
            && (original.name.Some? ==> stored.name.Some?)
            && (original.description.Some? ==> stored.description.Some?)
            && (original.keywords.Some? ==> stored.keywords.Some?)
            && (original.author.Some? ==> stored.author.Some?)
  {
  }

  /** The Lambda handler. */
  method Handler(t: Store.Table, pageid: string, version: string, body: Body<Page>, now: Time, fault: Fault)
    returns (r: Response)
    requires t.Valid()
    modifies t
    ensures t.Valid()
    ensures Outcome(r, t.docs) == Effect(old(t.docs), pageid, version, body, now, fault)
  {
    var item := Get(t.docs, Key(pageid, version));
    if fault == GetFails {
      return Status(StatusInternalServerError);
    }
    if fault == DecodeFails {
      return Status(StatusInternalServerError);
    }
    var original := DecodePage(item);
    if original.id == "" {
      return Status(StatusNotFound);
    }
    if body.Malformed? {
      return Status(StatusBadRequest);
    }
    var changes := body.value;
    changes := changes.(id := original.id);
    changes := changes.(version := original.version);
    changes := changes.(docType := "page");
    if |changes.path| == 0 {
      changes := changes.(path := original.path);
    }
    changes := changes.(createdAt := original.createdAt);
    changes := changes.(updatedAt := now);
    var merged := MergePages(original, changes);
    if merged.Err? {
      return Status(StatusBadRequest);
    }
    // mergePages overwrites *original and returns that same page
    original := merged.value;
    var updated := original;
    if fault == EncodeItemFails {
      return Status(StatusInternalServerError);
    }
    if fault == PutFails {
      return Status(StatusBadRequest);
    }
    t.PutItem(PageDoc(updated));
    if fault == ResponseFails {
      return Status(StatusInternalServerError);
    }
    r := Response(StatusOK, PageBody(updated));
  }
}
