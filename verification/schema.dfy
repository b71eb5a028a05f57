/** The three Mongoose schemas as validity predicates over documents: a document is
    what Mongoose receives, with every field possibly absent (`None`). Defaults are
    applied first, as Mongoose does when it constructs a document, then validated.
    A `required` String rejects the empty string as well as an absent value. */
module Schema {
  import opened Common

  /** An opaque document identifier (`ObjectId`). */
  type Id = nat

  /** A required String field: present and non-empty. */
  predicate Present(field: Option<string>) {
    field.Some? && field.value != ""
  }

  // ---- Apartment ----

  datatype ApartmentDoc = ApartmentDoc(name: Option<string>, apartmentCode: Option<string>)

  predicate ValidApartment(d: ApartmentDoc) {
    Present(d.name) && Present(d.apartmentCode)
  }

  lemma ValidApartmentFields(d: ApartmentDoc)
    ensures ValidApartment(d) <==>
      && d.name.Some? && d.name.value != ""
      && d.apartmentCode.Some? && d.apartmentCode.value != ""
  {
  }

  // ---- User ----

  const UserRoles: set<string> := {"admin", "resident"}

  datatype UserDoc = UserDoc(
    phoneNumber: Option<string>,
    flatNumber: Option<string>,
    password: Option<string>,
    role: Option<string>,
    apartment: Option<Id>)

  /** `role` defaults to "resident" when not supplied. */
  function WithUserDefaults(d: UserDoc): (r: UserDoc)
    ensures d.role.None? ==> r.role == Some("resident")
    ensures d.role.Some? ==> r == d
    ensures r.(role := d.role) == d
  {
    if d.role.None? then d.(role := Some("resident")) else d
  }

  predicate ValidUser(d: UserDoc) {
    var e := WithUserDefaults(d);
    && Present(e.phoneNumber)
    && Present(e.flatNumber)
    && Present(e.password)
    && e.role.Some? && e.role.value in UserRoles
    && e.apartment.Some?
  }

  /** A valid user has every required field and an enumerated role, and only the role may be omitted. */
  lemma ValidUserFields(d: UserDoc)
    ensures ValidUser(d) <==>
      && Present(d.phoneNumber) && Present(d.flatNumber) && Present(d.password)
      && d.apartment.Some?
      && (d.role.None? || d.role.value == "admin" || d.role.value == "resident")
  {
  }

  // ---- Complaint ----

  const ComplaintTypes: set<string> := {"Maintenance", "Security", "Cleanliness", "Noise", "Parking", "Other"}
  const ComplaintStatuses: set<string> := {"Pending", "In Progress", "Resolved", "Rejected"}
  const MaxDescriptionLength := 1000

  datatype ComplaintDoc = ComplaintDoc(
    user: Option<Id>,
    apartment: Option<Id>,
    kind: Option<string>,
    description: Option<string>,
    status: Option<string>)

  /** `status` defaults to "Pending" when not supplied. */
  function WithComplaintDefaults(d: ComplaintDoc): (r: ComplaintDoc)
    ensures d.status.None? ==> r.status == Some("Pending")
    ensures d.status.Some? ==> r == d
    ensures r.(status := d.status) == d
  {
    if d.status.None? then d.(status := Some("Pending")) else d
  }

  predicate ValidComplaint(d: ComplaintDoc) {
    var e := WithComplaintDefaults(d);
    && e.user.Some?
    && e.apartment.Some?
    && e.kind.Some? && e.kind.value in ComplaintTypes
    && Present(e.description) && |e.description.value| <= MaxDescriptionLength
    && e.status.Some? && e.status.value in ComplaintStatuses
  }

  /** What a valid complaint guarantees, field by field, and that these conditions suffice. */
  lemma ValidComplaintFields(d: ComplaintDoc)
    ensures ValidComplaint(d) <==>
      && d.user.Some? && d.apartment.Some?
      && d.kind.Some? && d.kind.value in ComplaintTypes
      && d.description.Some? && 0 < |d.description.value| <= 1000
      && (d.status.None? || d.status.value in ComplaintStatuses)
  {
  }

  /** A complaint stored without a status is valid exactly when it would be valid as "Pending". */
  lemma DefaultStatusIsPending(d: ComplaintDoc)
    requires d.status.None?
    ensures ValidComplaint(d) <==> ValidComplaint(d.(status := Some("Pending")))
  {
  }

  /** "Open" is not one of the schema's statuses. */
  lemma OpenIsNotAStatus(d: ComplaintDoc)
    requires d.status == Some("Open")
    ensures !ValidComplaint(d)
  {
  }
}
