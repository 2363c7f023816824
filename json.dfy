/**
 * The slice of Go's encoding/json that the update handlers' merge relies on:
 * how a struct field is written by json.Marshal (with `omitempty`) and how a
 * member of a JSON object is read back by json.Unmarshal into a field that
 * already holds a value.
 */
module Json {
  import opened Common
  import opened Documents

  /** A JSON value as the merge sees it; `JTime` is a time.Time's RFC 3339 string. */
  datatype Value = JString(s: string) | JNumber(n: int) | JTime(t: Time) | JNull

  /**
   * The member names the Page and Site structs marshal to, one per field
   * (`Tag` gives the name as written in the struct tag).
   */
  datatype Member =
    | IdKey | VersionKey | PathKey | TypeKey | StatusKey
    | NameKey | DescriptionKey | KeywordsKey | AuthorKey
    | UrlKey | TagManagerIdKey | CardImageUrlKey
    | CreatedAtKey | UpdatedAtKey

  function Tag(m: Member): string {
    match m
    case IdKey => "id"
    case VersionKey => "version"
    case PathKey => "path"
    case TypeKey => "type"
    case StatusKey => "status"
    case NameKey => "name"
    case DescriptionKey => "description"
    case KeywordsKey => "keywords"
    case AuthorKey => "author"
    case UrlKey => "url"
    case TagManagerIdKey => "tagManagerId"
    case CardImageUrlKey => "cardImageUrl"
    case CreatedAtKey => "createdAt"
    case UpdatedAtKey => "updatedAt"
  }

  /** A JSON object, keyed by member name. */
  type Object = map<Member, Value>

  /** Every member name. */
  const AllMembers: set<Member> := {
    IdKey, VersionKey, PathKey, TypeKey, StatusKey, NameKey, DescriptionKey, KeywordsKey, AuthorKey,
    UrlKey, TagManagerIdKey, CardImageUrlKey, CreatedAtKey, UpdatedAtKey }

  /** How a `*string` field tagged `omitempty` is written: not at all when the pointer is nil. */
  function PointerValue(v: Option<string>): Option<Value> {
    if v.Some? then Some(JString(v.value)) else None
  }

  /** How an `int` field tagged `omitempty` is written: not at all when it is zero. */
  function IntValue(n: int): Option<Value> {
    if n != 0 then Some(JNumber(n)) else None
  }

  /**
   * Unmarshalling member `key` into a `string` field holding `current`:
   * absent or null leaves it, a string replaces it, anything else is an error.
   */
  function StringMember(o: Object, key: Member, current: string): (r: Result<string>)
    ensures key !in o ==> r == Ok(current)
    ensures key in o && o[key].JString? ==> r == Ok(o[key].s)
  {
    if key !in o then Ok(current)
    else match o[key]
      case JString(s) => Ok(s)
      case JNull => Ok(current)
      case _ => Err("cannot unmarshal into a string field: " + Tag(key))
  }

  /** Unmarshalling into a `*string` field: null sets it to nil, a string replaces it. */
  function PointerMember(o: Object, key: Member, current: Option<string>): (r: Result<Option<string>>)
    ensures key !in o ==> r == Ok(current)
    ensures key in o && o[key].JString? ==> r == Ok(Some(o[key].s))
    ensures key in o && o[key].JNull? ==> r == Ok(None)
  {
    if key !in o then Ok(current)
    else match o[key]
      case JString(s) => Ok(Some(s))
      case JNull => Ok(None)
      case _ => Err("cannot unmarshal into a pointer field: " + Tag(key))
  }

  /** Unmarshalling into an `int` field: absent or null leaves it. */
  function IntMember(o: Object, key: Member, current: int): (r: Result<int>)
    ensures key !in o ==> r == Ok(current)
    ensures key in o && o[key].JNumber? ==> r == Ok(o[key].n)
  {
    if key !in o then Ok(current)
    else match o[key]
      case JNumber(n) => Ok(n)
      case JNull => Ok(current)
      case _ => Err("cannot unmarshal into an int field: " + Tag(key))
  }

  /** Unmarshalling into a `time.Time` field: absent or null leaves it. */
  function TimeMember(o: Object, key: Member, current: Time): (r: Result<Time>)
    ensures key !in o ==> r == Ok(current)
    ensures key in o && o[key].JTime? ==> r == Ok(o[key].t)
  {
    if key !in o then Ok(current)
    else match o[key]
      case JTime(t) => Ok(t)
      case JNull => Ok(current)
      case _ => Err("cannot unmarshal into a time field: " + Tag(key))
  }

  /**
   * The overlay an `omitempty` pointer field gets from marshalling `change`
   * and unmarshalling it over `original`: a present value wins, even "".
   */
  predicate Overlaid<T(==)>(merged: Option<T>, original: Option<T>, change: Option<T>) {
    merged == if change.Some? then change else original
  }
}
