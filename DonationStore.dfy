/** The admin routes of routes/admin.js that write one donation by id (accept, reject,
    assign) and the two listings that filter donations by status. The collection is a
    map from id to donation; an update overwrites the fields it names, whatever the
    donation's current status, and leaves everything else alone. */
module DonationStore {
  import opened Wrappers
  import opened Donations

  /** The update object handed to `findByIdAndUpdate`: `status` is always set; `agent`
      and `adminToAgentMsg` only when they are `Some`. */
  datatype Update = Update(status: Status, agent: Option<ObjectId>, adminToAgentMsg: Option<string>)

  const AcceptUpdate := Update(Accepted, None, None)
  const RejectUpdate := Update(Rejected, None, None)

  function AssignUpdate(agent: ObjectId, msg: string): Update
  {
    Update(Assigned, Some(agent), Some(msg))
  }

  /** The donation after the update's fields are written into it. */
  function Apply(d: Donation, u: Update): Donation
  {
    d.(status := u.status,
       agent := if u.agent.Some? then u.agent else d.agent,
       adminToAgentMsg := if u.adminToAgentMsg.Some? then u.adminToAgentMsg else d.adminToAgentMsg)
  }

  /** The collection after `findByIdAndUpdate(id, u)`; an unknown id changes nothing. */
  function UpdateById(store: map<ObjectId, Donation>, id: ObjectId, u: Update): map<ObjectId, Donation>
  {
    if id in store then store[id := Apply(store[id], u)] else store
  }

  /** The donations collection, updated in place by the admin routes. */
  class Collection {
    var donations: map<ObjectId, Donation>

    constructor(initial: map<ObjectId, Donation>)
      ensures donations == initial
    {
      donations := initial;
    }

    /** `findByIdAndUpdate`: writes the update into the donation with that id, if any,
        and returns the donation as it was before (null when the id is unknown). */
    method FindByIdAndUpdate(id: ObjectId, u: Update) returns (before: Option<Donation>)
      modifies this
      ensures before == if id in old(donations) then Some(old(donations)[id]) else None
      ensures donations == UpdateById(old(donations), id, u)
    {
      if id in donations {
        before := Some(donations[id]);
        donations := donations[id := Apply(donations[id], u)];
      } else {
        before := None;
      }
    }

    /** GET /admin/donation/accept/:donationId: sets the status to accepted, from any status. */
    method Accept(id: ObjectId)
      modifies this
      ensures id in old(donations) ==> donations == old(donations)[id := old(donations)[id].(status := Accepted)]
      ensures id !in old(donations) ==> donations == old(donations)
    {
      var _ := FindByIdAndUpdate(id, AcceptUpdate);
    }

    /** GET /admin/donation/reject/:donationId: sets the status to rejected, from any status. */
    method Reject(id: ObjectId)
      modifies this
      ensures id in old(donations) ==> donations == old(donations)[id := old(donations)[id].(status := Rejected)]
      ensures id !in old(donations) ==> donations == old(donations)
    {
      var _ := FindByIdAndUpdate(id, RejectUpdate);
    }

    /** POST /admin/donation/assign/:donationId: sets the status to assigned and stores the
        agent and the admin's message, from any status and for any user id as agent. */
    method Assign(id: ObjectId, agent: ObjectId, adminToAgentMsg: string)
      modifies this
      ensures id in old(donations) ==>
        donations == old(donations)[id := old(donations)[id].(status := Assigned, agent := Some(agent),
                                                               adminToAgentMsg := Some(adminToAgentMsg))]
      ensures id !in old(donations) ==> donations == old(donations)
    {
      var _ := FindByIdAndUpdate(id, AssignUpdate(agent, adminToAgentMsg));
    }
  }

  /** The statuses the "pending donations" page shows. */
  predicate InPendingView(s: Status)
  {
    s == Pending || s == Accepted || s == Assigned
  }

  /** `Donation.find({status: ["pending", "accepted", "assigned"]})`. */
  function PendingListing(store: map<ObjectId, Donation>): (r: map<ObjectId, Donation>)
    ensures forall id :: id in r <==> id in store && store[id].status != Rejected && store[id].status != Collected
    ensures forall id :: id in r ==> r[id] == store[id]
  {
    map id | id in store && InPendingView(store[id].status) :: store[id]
  }

  /** `Donation.find({status: "collected"})`. */
  function PreviousListing(store: map<ObjectId, Donation>): (r: map<ObjectId, Donation>)
    ensures forall id :: id in r <==> id in store && store[id].status == Collected
    ensures forall id :: id in r ==> r[id] == store[id]
  {
    map id | id in store && store[id].status == Collected :: store[id]
  }

  /** Every donation is on exactly one of the two pages, unless it is rejected, when it is on neither. */
  lemma ListingsPartition(store: map<ObjectId, Donation>, id: ObjectId)
    requires id in store
    ensures id in PendingListing(store) <==> id !in PreviousListing(store) && store[id].status != Rejected
  {
  }

  /** An update changes only the donation it names: every other donation keeps its listing. */
  lemma UpdateTouchesOnlyItsId(store: map<ObjectId, Donation>, id: ObjectId, u: Update, other: ObjectId)
    requires other != id
    ensures other in UpdateById(store, id, u) <==> other in store
    ensures other in store ==> UpdateById(store, id, u)[other] == store[other]
    ensures other in PendingListing(UpdateById(store, id, u)) <==> other in PendingListing(store)
    ensures other in PreviousListing(UpdateById(store, id, u)) <==> other in PreviousListing(store)
  {
  }

  /** Accepting or assigning puts the donation on the pending page and takes it off the
      previous page, whatever its status was, so even a collected donation moves back. */
  lemma AcceptAndAssignShowAsPending(store: map<ObjectId, Donation>, id: ObjectId, agent: ObjectId, msg: string)
    requires id in store
    ensures id in PendingListing(UpdateById(store, id, AcceptUpdate))
    ensures id !in PreviousListing(UpdateById(store, id, AcceptUpdate))
    ensures id in PendingListing(UpdateById(store, id, AssignUpdate(agent, msg)))
    ensures id !in PreviousListing(UpdateById(store, id, AssignUpdate(agent, msg)))
  {
  }

  /** Rejecting takes the donation off both pages, whatever its status was. */
  lemma RejectHidesFromListings(store: map<ObjectId, Donation>, id: ObjectId)
    requires id in store
    ensures id !in PendingListing(UpdateById(store, id, RejectUpdate))
    ensures id !in PreviousListing(UpdateById(store, id, RejectUpdate))
  {
  }

  /** The updates write only the status, the agent and the message, none of which the schema
      validates beyond the enum, so a collection of valid donations stays valid. */
  lemma UpdateKeepsValid(store: map<ObjectId, Donation>, id: ObjectId, u: Update)
    requires forall k :: k in store ==> Valid(store[k])
    ensures forall k :: k in UpdateById(store, id, u) ==> Valid(UpdateById(store, id, u)[k])
  {
  }
}
