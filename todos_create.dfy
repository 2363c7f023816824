/**
 * functions/create: store any JSON document in `todos` after stamping a
 * fresh "id" and one timestamp as "createdAt" and "updatedAt"; echo the raw
 * request body back.
 */
module TodosCreate {
  import opened Lambda
  import opened TodoStore

  /** A decoded request body: a JSON object's members, or any other JSON value. */
  datatype Json = Object(members: map<string, Attr>) | NotObject

  const CreatedAtAttr: string := "createdAt"
  const UpdatedAtAttr: string := "updatedAt"

  /** dynamodbattribute.MarshalMap: an object's members; any other value yields an empty item. */
  function MarshalMap(doc: Json): Item {
    if doc.Object? then doc.members else map[]
  }

  /** The three attributes the handler writes. */
  predicate Generated(name: string) {
    name == IdAttr || name == CreatedAtAttr || name == UpdatedAtAttr
  }

  /** What the handler stores for `doc`: the three stamps, and every other member as sent. */
  ghost predicate Stamped(item: Item, doc: Json, newId: string, stamp: string) {
    && IdAttr in item && item[IdAttr] == S(newId)
    && CreatedAtAttr in item && item[CreatedAtAttr] == S(stamp)
    && UpdatedAtAttr in item && item[UpdatedAtAttr] == S(stamp)
    && forall name :: !Generated(name) ==>
         (name in item <==> name in MarshalMap(doc)) &&
         (name in item ==> item[name] == MarshalMap(doc)[name])
  }

  /** Whether the handler reaches a successful PutItem. */
  predicate Writes(body: Body<Json>, fault: Fault) {
    body.Parsed? && WriteOk(fault)
  }

  /**
   * The response and the table after one invocation. `rawBody` is the request
   * text and `body` its json.Unmarshal; `newId` is the uuid.New() result and
   * `stamp` the RFC 3339 rendering of the clock at the call.
   */
  function Effect(items: map<string, Item>, rawBody: string, body: Body<Json>, newId: string, stamp: string,
                  fault: Fault): (e: Outcome<map<string, Item>>)
    ensures e.response.status in {StatusOK, StatusNotFound}
    ensures e.response.status == StatusOK <==> Writes(body, fault)
    ensures e.response.status == StatusOK ==> e.response.body == RawBody(rawBody)
    ensures e.response.status != StatusOK ==> e.response.body == NoBody && e.state == items
    ensures Writes(body, fault) ==>
              && newId in e.state
              && Stamped(e.state[newId], body.value, newId, stamp)
              && e.state == items[newId := e.state[newId]]
  {
    if body.Malformed? then Outcome(Status(StatusNotFound), items)
    else if fault == EncodeItemFails then Outcome(Status(StatusNotFound), items)
    else
      var item := MarshalMap(body.value)[IdAttr := S(newId)][CreatedAtAttr := S(stamp)][UpdatedAtAttr := S(stamp)];
      if fault == PutFails then Outcome(Status(StatusNotFound), items)
      else Outcome(Response(StatusOK, RawBody(rawBody)), items[newId := item])
  }

  /**
   * An "id" sent in the body never reaches the table: the generated one
   * replaces it, and the reply (the raw body) carries none of the stamps.
   */
  lemma BodyIdReplaced(items: map<string, Item>, rawBody: string, members: map<string, Attr>, newId: string,
                       stamp: string)
    requires IdAttr in members && members[IdAttr] != S(newId)
    ensures var e := Effect(items, rawBody, Parsed(Object(members)), newId, stamp, NoFault);
            && e.state[newId][IdAttr] != members[IdAttr]
            && e.response == Response(StatusOK, RawBody(rawBody))
  {
  }

  /** A JSON body that is not an object is stored as the three stamps alone. */
  lemma NonObjectStoresOnlyStamps(items: map<string, Item>, rawBody: string, newId: string, stamp: string)
    ensures Effect(items, rawBody, Parsed(NotObject), newId, stamp, NoFault).state[newId]
              == map[IdAttr := S(newId), CreatedAtAttr := S(stamp), UpdatedAtAttr := S(stamp)]
  {
    var item := Effect(items, rawBody, Parsed(NotObject), newId, stamp, NoFault).state[newId];
    var expected := map[IdAttr := S(newId), CreatedAtAttr := S(stamp), UpdatedAtAttr := S(stamp)];
    assert item.Keys == expected.Keys;
  }

  /** With a fresh id, creating never disturbs the items already stored. */
  lemma CreateKeepsOthers(items: map<string, Item>, rawBody: string, body: Body<Json>, newId: string, stamp: string,
                          fault: Fault)
    requires newId !in items
    ensures var e := Effect(items, rawBody, body, newId, stamp, fault);
            forall id :: id in items ==> id in e.state && e.state[id] == items[id]
  {
  }

  /** The Lambda handler. */
  method Handler(t: TodoTable, rawBody: string, body: Body<Json>, newId: string, stamp: string, fault: Fault)
    returns (r: Response)
    requires t.Valid()
    requires newId != ""
    modifies t
    ensures t.Valid()
    ensures Outcome(r, t.items) == Effect(old(t.items), rawBody, body, newId, stamp, fault)
  {
    if body.Malformed? {
      return Status(StatusNotFound);
    }
    if fault == EncodeItemFails {
      return Status(StatusNotFound);
    }
    var item := MarshalMap(body.value);
    item := item[IdAttr := S(newId)];
    item := item[CreatedAtAttr := S(stamp)];
    item := item[UpdatedAtAttr := S(stamp)];
    if fault == PutFails {
      return Status(StatusNotFound);
    }
    t.PutItem(item);
    r := Response(StatusOK, RawBody(rawBody));
  }
}
