/** The complaint routes: create, list for the requester's apartment, and status
    update, each behind `authenticateUser`. The handlers work over the route's own
    complaint record (`Store.Complaint`); `ComplaintDocOf` relates it to the schema. */
module Complaints {
  import opened Common
  import opened Schema
  import opened Store
  import opened Gateway

  /** What a handler reads from `req.user`: its id, its role, and `apartmentCode`. */
  datatype Requester = Requester(id: Id, role: Role, apartmentCode: Option<string>)

  /** `req.user` as the middleware sets it. The User schema has no `apartmentCode`
      path, so that field reads as undefined for every user. */
  function RequesterOf(id: Id, u: User): (r: Requester)
    ensures r.id == id && r.role == u.role
    ensures r.apartmentCode.None?
  {
    Requester(id, u.role, None)
  }

  /** A request body. Only `title`, `description` and `priority` are read; the other
      fields stand for whatever else a client might send. */
  datatype ComplaintBody = ComplaintBody(
    title: string,
    description: string,
    priority: string,
    createdBy: Option<Id>,
    apartmentCode: Option<string>,
    status: Option<string>)

  datatype Reply =
    | Created(id: Id, complaint: Complaint)
    | Listed(complaints: map<Id, Complaint>)
    | Updated(id: Id, complaint: Complaint)
    | Failed(status: nat, error: string)

  function StatusCode(r: Reply): nat {
    match r
    case Created(_, _) => 201
    case Listed(_) => 200
    case Updated(_, _) => 200
    case Failed(s, _) => s
  }

  const OpenStatus := "Open"

  /** POST /: a new complaint owned by the requester and scoped to the requester's
      apartment code, with status "Open", stored under a fresh id. */
  function Create(st: State, req: Requester, body: ComplaintBody): (r: (State, Reply))
    ensures r.1.Created? && r.1.id == st.nextId
    ensures r.1.complaint.createdBy == req.id
    ensures r.1.complaint.apartmentCode == req.apartmentCode
    ensures r.1.complaint.status == OpenStatus
    ensures r.1.complaint.title == body.title && r.1.complaint.description == body.description
      && r.1.complaint.priority == body.priority
    ensures r.0.complaints == st.complaints[st.nextId := r.1.complaint]
    ensures r.0.nextId > st.nextId
    ensures r.0.users == st.users && r.0.apartments == st.apartments
  {
    var c := Complaint(body.title, body.description, body.priority, req.id, req.apartmentCode, OpenStatus);
    (st.(complaints := st.complaints[st.nextId := c], nextId := st.nextId + 1), Created(st.nextId, c))
  }

  /** GET /: the stored complaints whose `apartmentCode` equals the requester's. */
  function List(st: State, req: Requester): (r: map<Id, Complaint>)
    ensures forall id :: id in r <==> id in st.complaints && st.complaints[id].apartmentCode == req.apartmentCode
    ensures forall id :: id in r ==> r[id] == st.complaints[id]
  {
    map id | id in st.complaints && st.complaints[id].apartmentCode == req.apartmentCode :: st.complaints[id]
  }

  /** The admin-or-creator rule. */
  predicate CanUpdateStatus(req: Requester, c: Complaint) {
    req.role == Admin || c.createdBy == req.id
  }

  /** PUT /:id/status: 404 when the id is unknown, checked before the admin-or-creator
      rule (403); otherwise only that complaint's `status` changes. */
  function UpdateStatus(st: State, req: Requester, id: Id, status: string): (r: (State, Reply))
    ensures id !in st.complaints ==> r == (st, Failed(404, "Complaint not found"))
    ensures id in st.complaints && !CanUpdateStatus(req, st.complaints[id]) ==>
      r == (st, Failed(403, "Not authorized"))
    ensures r.1.Updated? <==> id in st.complaints && CanUpdateStatus(req, st.complaints[id])
    ensures r.1.Updated? ==>
      && r.1.id == id
      && r.1.complaint.status == status
      && r.1.complaint.(status := st.complaints[id].status) == st.complaints[id]
      && r.0.complaints.Keys == st.complaints.Keys
      && r.0.complaints[id] == r.1.complaint
      && (forall k :: k in st.complaints && k != id ==> r.0.complaints[k] == st.complaints[k])
      && r.0.users == st.users && r.0.apartments == st.apartments && r.0.nextId == st.nextId
  {
    if id !in st.complaints then (st, Failed(404, "Complaint not found"))
    else
      var c := st.complaints[id];
      if !CanUpdateStatus(req, c) then (st, Failed(403, "Not authorized"))
      else
        var c' := c.(status := status);
        (st.(complaints := st.complaints[id := c']), Updated(id, c'))
  }

  // ---- the routes with the middleware in front ----

  /** POST / behind the middleware: a rejected request changes nothing and carries the
      middleware's 401; an accepted one is exactly `Create` for `req.user`. */
  function PostComplaint(st: State, verify: string -> Option<Id>, header: Option<string>, body: ComplaintBody): (r: (State, Reply))
    ensures var a := Authenticate(st, verify, header);
      !a.Next? ==> r == (st, Failed(401, a.error))
    ensures var a := Authenticate(st, verify, header);
      a.Next? ==> r == Create(st, RequesterOf(a.userId, a.user), body)
    ensures r.1.Created? <==> Authenticate(st, verify, header).Next?
    ensures StatusCode(r.1) in {201, 401}
  {
    match Authenticate(st, verify, header)
    case Reject(code, error) => (st, Failed(code, error))
    case Next(uid, u) => Create(st, RequesterOf(uid, u), body)
  }

  /** GET / behind the middleware: the middleware's 401, or `List` for `req.user`. */
  function GetComplaints(st: State, verify: string -> Option<Id>, header: Option<string>): (r: Reply)
    ensures var a := Authenticate(st, verify, header);
      !a.Next? ==> r == Failed(401, a.error)
    ensures var a := Authenticate(st, verify, header);
      a.Next? ==> r == Listed(List(st, RequesterOf(a.userId, a.user)))
    ensures StatusCode(r) in {200, 401}
  {
    match Authenticate(st, verify, header)
    case Reject(code, error) => Failed(code, error)
    case Next(uid, u) => Listed(List(st, RequesterOf(uid, u)))
  }

  /** PUT /:id/status behind the middleware: the middleware's 401 with nothing changed,
      or `UpdateStatus` for `req.user`. */
  function PutComplaintStatus(st: State, verify: string -> Option<Id>, header: Option<string>, id: Id, status: string): (r: (State, Reply))
    ensures var a := Authenticate(st, verify, header);
      !a.Next? ==> r == (st, Failed(401, a.error))
    ensures var a := Authenticate(st, verify, header);
      a.Next? ==> r == UpdateStatus(st, RequesterOf(a.userId, a.user), id, status)
    ensures r.1.Updated? ==>
      && Authenticate(st, verify, header).Next?
      && id in st.complaints
      && CanUpdateStatus(RequesterOf(Authenticate(st, verify, header).userId, Authenticate(st, verify, header).user), st.complaints[id])
    ensures StatusCode(r.1) in {200, 401, 403, 404}
  {
    match Authenticate(st, verify, header)
    case Reject(code, error) => (st, Failed(code, error))
    case Next(uid, u) => UpdateStatus(st, RequesterOf(uid, u), id, status)
  }

  // ---- properties ----

  /** The body cannot choose the creator, the scope or the status: two bodies that agree
      on title, description and priority create the same complaint. */
  lemma {:induction false} CreateIgnoresForgedFields(st: State, req: Requester, b1: ComplaintBody, b2: ComplaintBody)
    requires b1.title == b2.title && b1.description == b2.description && b1.priority == b2.priority
    ensures Create(st, req, b1) == Create(st, req, b2)
  {
  }

  /** Round trip: a complaint just created is listed for its creator with the same fields. */
  lemma {:induction false} CreatedIsListed(st: State, req: Requester, body: ComplaintBody)
    ensures var (st', reply) := Create(st, req, body);
      reply.id in List(st', req) && List(st', req)[reply.id] == reply.complaint
  {
  }

  /** Setting the same status twice leaves the same state as setting it once. */
  lemma {:induction false} UpdateIdempotent(st: State, req: Requester, id: Id, status: string)
    ensures UpdateStatus(UpdateStatus(st, req, id, status).0, req, id, status).0 == UpdateStatus(st, req, id, status).0
  {
    var (st1, r1) := UpdateStatus(st, req, id, status);
    if r1.Updated? {
      assert st1.complaints[id].createdBy == st.complaints[id].createdBy;
      assert st1.complaints[id := st1.complaints[id].(status := status)] == st1.complaints;
    }
  }

  /** An unknown id yields 404 for every requester, admin or not, creator or not. */
  lemma {:induction false} NotFoundBeforeForbidden(st: State, id: Id, status: string, r1: Requester, r2: Requester)
    requires id !in st.complaints
    ensures UpdateStatus(st, r1, id, status) == UpdateStatus(st, r2, id, status) == (st, Failed(404, "Complaint not found"))
  {
  }

  /** Through the endpoint, an authenticated admin changes the status of any stored
      complaint, whoever created it. */
  lemma {:induction false} AdminUpdatesAnyComplaint(st: State, verify: string -> Option<Id>, header: Option<string>, id: Id, status: string)
    requires Authenticate(st, verify, header).Next? && Authenticate(st, verify, header).user.role == Admin
    requires id in st.complaints
    ensures var (st', reply) := PutComplaintStatus(st, verify, header, id, status);
      && reply == Updated(id, st.complaints[id].(status := status))
      && st'.complaints == st.complaints[id := st.complaints[id].(status := status)]
  {
  }

  /** Through the endpoint, an authenticated resident who did not create the complaint
      gets 403 and the store is unchanged. */
  lemma {:induction false} StrangerIsForbidden(st: State, verify: string -> Option<Id>, header: Option<string>, id: Id, status: string)
    requires Authenticate(st, verify, header).Next? && Authenticate(st, verify, header).user.role == Resident
    requires id in st.complaints && st.complaints[id].createdBy != Authenticate(st, verify, header).userId
    ensures PutComplaintStatus(st, verify, header, id, status) == (st, Failed(403, "Not authorized"))
  {
  }

  /** Create and update keep the store invariant. */
  lemma {:induction false} CreatePreservesInv(st: State, req: Requester, body: ComplaintBody)
    requires Inv(st)
    ensures Inv(Create(st, req, body).0)
  {
  }

  lemma {:induction false} UpdatePreservesInv(st: State, req: Requester, id: Id, status: string)
    requires Inv(st)
    ensures Inv(UpdateStatus(st, req, id, status).0)
  {
  }

  /** The scope every authenticated user gets is the same undefined code, so the
      listing cannot tell apartments apart: a complaint created by a user of one
      apartment is listed for a user of any other apartment. */
  lemma {:induction false} ScopeIgnoresApartment(st: State, verify: string -> Option<Id>,
                                               creator: Option<string>, reader: Option<string>, body: ComplaintBody)
    requires Authenticate(st, verify, creator).Next? && Authenticate(st, verify, reader).Next?
    ensures var (st', reply) := PostComplaint(st, verify, creator, body);
      var auth := Authenticate(st', verify, reader);
      auth.Next? && GetComplaints(st', verify, reader) == Listed(List(st', RequesterOf(auth.userId, auth.user)))
      && reply.id in List(st', RequesterOf(auth.userId, auth.user))
  {
    var (st', reply) := PostComplaint(st, verify, creator, body);
    assert st'.users == st.users;
  }

  /** The record the create route saves does not satisfy the Complaint schema:
      no `user`, no `apartment`, no `type`, and a status outside the enumeration. */
  lemma {:induction false} CreatedComplaintFailsSchema(st: State, req: Requester, body: ComplaintBody)
    ensures var c := Create(st, req, body).1.complaint;
      !ValidComplaint(ComplaintDocOf(c)) && ComplaintDocOf(c).status.value !in ComplaintStatuses
  {
  }
}
