/** functions/delete: remove the `todos` item keyed by the `id` path parameter. */
module TodosDelete {
  import opened Lambda
  import opened TodoStore

  /** The response and the table after one invocation. */
  function Effect(items: map<string, Item>, id: string, fault: Fault): (e: Outcome<map<string, Item>>)
    ensures e.response.status == StatusInternalServerError <==> fault == DeleteFails
    ensures e.response.status != StatusInternalServerError ==> e.response == Status(StatusOK)
    ensures fault == DeleteFails ==> e.state == items
    ensures fault != DeleteFails ==> id !in e.state
    ensures forall k :: k != id ==> (k in e.state <==> k in items)
    ensures forall k :: k in e.state ==> k in items && e.state[k] == items[k]
  {
    if fault == DeleteFails then Outcome(Status(StatusInternalServerError), items)
    else Outcome(Status(StatusOK), items - {id})
  }

  /** Deleting an absent id changes nothing and still answers 200. */
  lemma DeleteAbsent(items: map<string, Item>, id: string)
    requires id !in items
    ensures Effect(items, id, NoFault) == Outcome(Status(StatusOK), items)
  {
    assert items - {id} == items;
  }

  /** The Lambda handler. */
  method Handler(t: TodoTable, id: string, fault: Fault) returns (r: Response)
    requires t.Valid()
    modifies t
    ensures t.Valid()
    ensures Outcome(r, t.items) == Effect(old(t.items), id, fault)
  {
    if fault == DeleteFails {
      return Status(StatusInternalServerError);
    }
    t.DeleteItem(id);
    r := Status(StatusOK);
  }
}
