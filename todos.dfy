/**
 * The `todos` table of the legacy functions: schemaless items keyed by the
 * string attribute "id".
 */
module TodoStore {
  /** A DynamoDB attribute value, as dynamodbattribute produces it from JSON. */
  datatype Attr =
    | S(s: string)
    | N(n: string)
    | Bool(b: bool)
    | Null
    | L(elems: seq<Attr>)
    | M(members: map<string, Attr>)

  /** An item: attribute name to value. */
  type Item = map<string, Attr>

  /** The name of the table's hash key. */
  const IdAttr: string := "id"

  /** Every stored item carries its own key as a non-empty string "id". */
  ghost predicate WellKeyed(items: map<string, Item>) {
    forall k :: k in items ==> k != "" && IdAttr in items[k] && items[k][IdAttr] == S(k)
  }

  class TodoTable {
    var items: map<string, Item>

    ghost predicate Valid()
      reads this
    {
      WellKeyed(items)
    }

    constructor ()
      ensures Valid() && items == map[]
    {
      items := map[];
    }

    /** PutItem: an upsert under the item's own "id". */
    method PutItem(item: Item)
      requires Valid()
      requires IdAttr in item && item[IdAttr].S? && item[IdAttr].s != ""
      modifies this
      ensures Valid()
      ensures items == old(items)[item[IdAttr].s := item]
    {
      items := items[item[IdAttr].s := item];
    }

    /** DeleteItem: removes exactly the item keyed `id`; an absent id is not an error. */
    method DeleteItem(id: string)
      requires Valid()
      modifies this
      ensures Valid()
      ensures items == old(items) - {id}
    {
      items := items - {id};
    }
  }
}
