/**
 * The two document kinds kept in the table, Page and Site, and the table's
 * key. Every handler file declares its own copy of the Go struct; the copies
 * have the same fields and attribute names, so the model declares each once.
 * The one difference is in the list handler's Page: its `type` tag carries
 * `omitempty`, so that copy leaves out an empty type when it writes JSON.
 */
module Documents {
  import opened Common

  /** An instant, in nanoseconds since Go's zero `time.Time`. */
  type Time = int

  /** The zero `time.Time`, what a missing timestamp decodes to. */
  const ZeroTime: Time := 0

  /** The two named values of the source's `SiteStatus` (an `int`). */
  const Unpublished: int := 0
  const Published: int := 1

  /**
   * A page. `docType` is the `type` attribute. The four optional fields are
   * Go pointers: `None` is a nil pointer, which is distinct from `Some("")`.
   */
  datatype Page = Page(
    id: string,
    version: string,
    path: string,
    docType: string,
    name: Option<string>,
    description: Option<string>,
    keywords: Option<string>,
    author: Option<string>,
    createdAt: Time,
    updatedAt: Time)

  /** A site; `status` is the source's `SiteStatus`. */
  datatype Site = Site(
    id: string,
    version: string,
    path: string,
    docType: string,
    status: int,
    name: Option<string>,
    description: Option<string>,
    keywords: Option<string>,
    url: Option<string>,
    tagManagerId: Option<string>,
    cardImageUrl: Option<string>,
    createdAt: Time,
    updatedAt: Time)

  /** The zero values a Go `var page Page` / `var site Site` starts from. */
  const ZeroPage: Page := Page("", "", "", "", None, None, None, None, ZeroTime, ZeroTime)
  const ZeroSite: Site := Site("", "", "", "", Unpublished, None, None, None, None, None, None, ZeroTime, ZeroTime)

  /** An item of the table: whichever struct was marshalled into it. */
  datatype Doc = PageDoc(page: Page) | SiteDoc(site: Site)

  /** The table's primary key: partition key `id`, sort key `version`. */
  datatype Key = Key(id: string, version: string)

  /** The key PutItem files an item under: its own `id` and `version` attributes. */
  function KeyOf(d: Doc): Key {
    match d
    case PageDoc(p) => Key(p.id, p.version)
    case SiteDoc(s) => Key(s.id, s.version)
  }

  /** The item's `type` attribute, the partition key of the type-path index. */
  function TypeOf(d: Doc): string {
    match d
    case PageDoc(p) => p.docType
    case SiteDoc(s) => s.docType
  }

  /** The item's `path` attribute, the sort key of the type-path index. */
  function PathOf(d: Doc): string {
    match d
    case PageDoc(p) => p.path
    case SiteDoc(s) => s.path
  }

  /**
   * UnmarshalMap of an item into a Page: attributes are matched by name, so
   * an item written from a Site yields a Page with the shared fields and no
   * author; site-only attributes are dropped.
   */
  function AsPage(d: Doc): (p: Page)
    ensures Key(p.id, p.version) == KeyOf(d)
    ensures p.path == PathOf(d) && p.docType == TypeOf(d)
    ensures d.PageDoc? ==> p == d.page
    ensures d.SiteDoc? ==> p.name == d.site.name && p.author.None?
  {
    match d
    case PageDoc(p) => p
    case SiteDoc(s) =>
      Page(s.id, s.version, s.path, s.docType, s.name, s.description, s.keywords, None, s.createdAt, s.updatedAt)
  }

  /**
   * UnmarshalMap of an item into a Site: an item written from a Page has no
   * `status` attribute (so `Unpublished`) and none of the site-only fields.
   */
  function AsSite(d: Doc): (s: Site)
    ensures Key(s.id, s.version) == KeyOf(d)
    ensures s.path == PathOf(d) && s.docType == TypeOf(d)
    ensures d.SiteDoc? ==> s == d.site
    ensures d.PageDoc? ==> s.status == Unpublished && s.url.None?
  {
    match d
    case SiteDoc(s) => s
    case PageDoc(p) =>
      Site(p.id, p.version, p.path, p.docType, Unpublished, p.name, p.description, p.keywords,
           None, None, None, p.createdAt, p.updatedAt)
  }

  /** GetItem: the item stored under `key`, if any. */
  function Get(docs: map<Key, Doc>, key: Key): Option<Doc> {
    if key in docs then Some(docs[key]) else None
  }

  /** UnmarshalMap of GetItem's result into a zero Page: a missing item leaves every field zero. */
  function DecodePage(item: Option<Doc>): Page {
    match item
    case None => ZeroPage
    case Some(d) => AsPage(d)
  }

  /** UnmarshalMap of GetItem's result into a zero Site. */
  function DecodeSite(item: Option<Doc>): Site {
    match item
    case None => ZeroSite
    case Some(d) => AsSite(d)
  }

  /**
   * What the store guarantees of its items: each sits under its own
   * (id, version), and ids are never empty (the store refuses an empty key
   * string, and every handler writes a generated or an existing id).
   */
  ghost predicate WellKeyed(docs: map<Key, Doc>) {
    forall k :: k in docs ==> k.id != "" && KeyOf(docs[k]) == k
  }

  /**
   * The handlers detect "not found" as an empty `id` after decoding; over a
   * well-keyed table this is exactly "no item under the key".
   */
  lemma EmptyIdIffAbsent(docs: map<Key, Doc>, key: Key)
    requires WellKeyed(docs)
    ensures DecodePage(Get(docs, key)).id == "" <==> key !in docs
    ensures DecodeSite(Get(docs, key)).id == "" <==> key !in docs
    ensures key in docs ==> DecodePage(Get(docs, key)) == AsPage(docs[key])
  {
    if key in docs {
      assert KeyOf(docs[key]) == key;
    }
  }
}
