/**
 * The table all page and site handlers share: items keyed by (id, version).
 * Only PutItem and DeleteItem change it; GetItem is `Documents.Get`.
 */
module Store {
  import opened Documents

  class Table {
    var docs: map<Key, Doc>

    /** The store's own guarantee about its items (see `WellKeyed`). */
    ghost predicate Valid()
      reads this
    {
      WellKeyed(docs)
    }

    constructor ()
      ensures Valid() && docs == map[]
    {
      docs := map[];
    }

    /** PutItem: an upsert under the item's own (id, version). */
    method PutItem(doc: Doc)
      requires Valid()
      requires KeyOf(doc).id != ""
      modifies this
      ensures Valid()
      ensures docs == old(docs)[KeyOf(doc) := doc]
    {
      docs := docs[KeyOf(doc) := doc];
    }

    /** DeleteItem: removes exactly `key`; an absent key is not an error. */
    method DeleteItem(key: Key)
      requires Valid()
      modifies this
      ensures Valid()
      ensures docs == old(docs) - {key}
    {
      docs := docs - {key};
    }
  }
}
