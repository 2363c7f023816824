/** endpoints/pages/delete: remove exactly (pageid, version), with no existence check. */
module PagesDelete {
  import opened Documents
  import opened Lambda
  import Store

  /** The response and the table after one invocation. */
  function Effect(docs: map<Key, Doc>, pageid: string, version: string, fault: Fault): (e: Outcome<map<Key, Doc>>)
    ensures e.response.status == StatusInternalServerError <==> fault == DeleteFails
    ensures e.response.status != StatusInternalServerError ==> e.response == Status(StatusOK)
    ensures fault == DeleteFails ==> e.state == docs
    ensures fault != DeleteFails ==> Key(pageid, version) !in e.state
    ensures forall k :: k != Key(pageid, version) ==> (k in e.state <==> k in docs)
    ensures forall k :: k in e.state ==> k in docs && e.state[k] == docs[k]
  {
    if fault == DeleteFails then Outcome(Status(StatusInternalServerError), docs)
    else Outcome(Status(StatusOK), docs - {Key(pageid, version)})
  }

  /** Deleting twice leaves the table as deleting once, and both calls answer 200. */
  lemma DeleteIdempotent(docs: map<Key, Doc>, pageid: string, version: string)
    ensures var once := Effect(docs, pageid, version, NoFault);
            var twice := Effect(once.state, pageid, version, NoFault);
            twice.state == once.state && twice.response == once.response == Status(StatusOK)
  {
  }

  /** Deleting an absent key changes nothing and still answers 200. */
  lemma DeleteAbsent(docs: map<Key, Doc>, pageid: string, version: string)
    requires Key(pageid, version) !in docs
    ensures Effect(docs, pageid, version, NoFault) == Outcome(Status(StatusOK), docs)
  {
    assert docs - {Key(pageid, version)} == docs;
  }

  /** The Lambda handler. */
  method Handler(t: Store.Table, pageid: string, version: string, fault: Fault) returns (r: Response)
    requires t.Valid()
    modifies t
    ensures t.Valid()
    ensures Outcome(r, t.docs) == Effect(old(t.docs), pageid, version, fault)
  {
    if fault == DeleteFails {
      return Status(StatusInternalServerError);
    }
    t.DeleteItem(Key(pageid, version));
    r := Status(StatusOK);
  }
}
