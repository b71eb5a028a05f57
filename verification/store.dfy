/** The backend's persistent state as an in-memory store: one map per collection,
    keyed by document id, and a counter that hands out fresh ids. The records are
    the ones the route handlers build; `*DocOf` shows each of them as the Mongoose
    document the schema would be asked to validate. */
module Store {
  import opened Common
  import opened Schema

  datatype Role = Admin | Resident

  /** The string stored in the `role` field. */
  function RoleName(r: Role): (s: string)
    ensures s in UserRoles
    ensures (s == "admin") <==> r == Admin
  {
    match r
    case Admin => "admin"
    case Resident => "resident"
  }

  datatype Apartment = Apartment(name: string, apartmentCode: string)

  /** A user as the signup handlers write it; `password` holds the hash, never the plaintext. */
  datatype User = User(phoneNumber: string, flatNumber: string, password: string, role: Role, apartment: Id)

  /** A complaint as the create handler of the complaint route builds it. These are the
      route's own fields; only `description` and `status` are paths of the Complaint schema. */
  datatype Complaint = Complaint(
    title: string,
    description: string,
    priority: string,
    createdBy: Id,
    apartmentCode: Option<string>,
    status: string)

  datatype State = State(
    apartments: map<Id, Apartment>,
    users: map<Id, User>,
    complaints: map<Id, Complaint>,
    nextId: Id)

  /** Every stored id is below the counter, so the counter is a fresh id. */
  ghost predicate FreshIds(st: State) {
    && (forall k :: k in st.apartments ==> k < st.nextId)
    && (forall k :: k in st.users ==> k < st.nextId)
    && (forall k :: k in st.complaints ==> k < st.nextId)
  }

  /** The `unique` index on `apartmentCode`. */
  ghost predicate UniqueCodes(st: State) {
    forall a, b :: a in st.apartments && b in st.apartments && a != b ==>
      st.apartments[a].apartmentCode != st.apartments[b].apartmentCode
  }

  /** At most one user per (phoneNumber, apartment) pair. */
  ghost predicate UniqueMembership(st: State) {
    forall a, b :: a in st.users && b in st.users && a != b ==>
      !(st.users[a].phoneNumber == st.users[b].phoneNumber && st.users[a].apartment == st.users[b].apartment)
  }

  ghost predicate Inv(st: State) {
    FreshIds(st) && UniqueCodes(st) && UniqueMembership(st)
  }

  /** `Model.findOne(filter)`: the first matching document in id (insertion) order,
      scanning the ids in `[from, bound)`. */
  function FirstKey<V>(m: map<Id, V>, p: V -> bool, from: nat, bound: nat): (r: Option<Id>)
    decreases bound - from
    ensures r.Some? ==> r.value in m && p(m[r.value]) && from <= r.value < bound
    ensures r.Some? ==> forall k :: from <= k < r.value && k in m ==> !p(m[k])
    ensures r.None? ==> forall k :: from <= k < bound && k in m ==> !p(m[k])
  {
    if from >= bound then None
    else if from in m && p(m[from]) then Some(from)
    else FirstKey(m, p, from + 1, bound)
  }

  /** `Apartment.findOne({ apartmentCode })`. */
  function FindApartmentByCode(st: State, code: string): (r: Option<Id>)
    ensures r.Some? ==> r.value in st.apartments && st.apartments[r.value].apartmentCode == code
    ensures r.None? && FreshIds(st) ==> forall k :: k in st.apartments ==> st.apartments[k].apartmentCode != code
  {
    FirstKey(st.apartments, (a: Apartment) => a.apartmentCode == code, 0, st.nextId)
  }

  /** With unique codes, the apartment found by code is the only one carrying it:
      a lookup by code has at most one answer, which is what signup relies on. */
  lemma {:induction false} CodeLookupIsUnique(st: State, code: string, k: Id)
    requires Inv(st)
    requires k in st.apartments && st.apartments[k].apartmentCode == code
    ensures FindApartmentByCode(st, code) == Some(k)
  {
    var r := FindApartmentByCode(st, code);
    assert r.Some?;
    assert r.value == k;
  }

  /** `User.findOne(filter)` for an arbitrary filter on users. */
  function FindUser(st: State, p: User -> bool): (r: Option<Id>)
    ensures r.Some? ==> r.value in st.users && p(st.users[r.value])
    ensures r.Some? ==> forall k :: k < r.value && k in st.users ==> !p(st.users[k])
    ensures r.None? && FreshIds(st) ==> forall k :: k in st.users ==> !p(st.users[k])
  {
    FirstKey(st.users, p, 0, st.nextId)
  }

  // ---- the records as schema documents ----

  function ApartmentDocOf(a: Apartment): ApartmentDoc {
    ApartmentDoc(Some(a.name), Some(a.apartmentCode))
  }

  function UserDocOf(u: User): UserDoc {
    UserDoc(Some(u.phoneNumber), Some(u.flatNumber), Some(u.password), Some(RoleName(u.role)), Some(u.apartment))
  }

  /** The document Mongoose builds from the create route's fields: `title`, `priority`,
      `createdBy` and `apartmentCode` are not schema paths, and the schema's `user`,
      `apartment` and `type` are never supplied. */
  function ComplaintDocOf(c: Complaint): ComplaintDoc {
    ComplaintDoc(None, None, None, Some(c.description), Some(c.status))
  }
}
