/** The account routes: register an apartment, admin and resident signup, login and
    validate. Password hashing is a parameter: `hash` stands for `bcrypt.hash` and
    `compare` for `bcrypt.compare`; the apartment code generator is a parameter too.
    Saving a document succeeds exactly when it satisfies its schema and the unique
    code index; otherwise the handler answers 500. */
module Accounts {
  import opened Common
  import opened Text
  import opened Schema
  import opened Store

  datatype Crypto = Crypto(hash: string -> string, compare: (string, string) -> bool)

  /** What the model assumes of bcrypt: a hash is a non-empty string and a password matches its own hash. */
  ghost predicate Sound(crypto: Crypto) {
    forall p :: crypto.compare(p, crypto.hash(p)) && crypto.hash(p) != ""
  }

  /** The fields a login or validate answer returns. */
  datatype Session = Session(
    role: string,
    phone: string,
    flatNumber: string,
    apartmentCode: string,
    apartmentId: Id,
    name: string)

  datatype Reply =
    | ApartmentRegistered(apartmentCode: string)
    | Registered(message: string)
    | LoggedIn(session: Session)
    | Validated(session: Session)
    | Failed(status: nat, error: string)

  function StatusCode(r: Reply): nat {
    match r
    case ApartmentRegistered(_) => 201
    case Registered(_) => 201
    case LoggedIn(_) => 200
    case Validated(_) => 200
    case Failed(s, _) => s
  }

  const InternalError := Failed(500, "Internal server error")

  /** POST /register-apartment, given the generated code. */
  function RegisterApartment(st: State, name: string, code: string): (r: (State, Reply))
    ensures r.1.ApartmentRegistered? ==>
      && r.1.apartmentCode == code
      && r.0.apartments == st.apartments[st.nextId := Apartment(name, code)]
      && r.0.users == st.users && r.0.complaints == st.complaints && r.0.nextId > st.nextId
    ensures r.1.ApartmentRegistered? <==>
      name != "" && code != "" && forall k :: k in st.apartments ==> st.apartments[k].apartmentCode != code
    ensures !r.1.ApartmentRegistered? ==> r == (st, InternalError)
  {
    var a := Apartment(name, code);
    if !ValidApartment(ApartmentDocOf(a)) || exists k :: k in st.apartments && st.apartments[k].apartmentCode == code then
      (st, InternalError)
    else
      (st.(apartments := st.apartments[st.nextId := a], nextId := st.nextId + 1), ApartmentRegistered(code))
  }

  /** A signup request body; `role` stands for a role a client might try to send. */
  datatype SignupBody = SignupBody(
    phoneNumber: string,
    flatNumber: string,
    password: string,
    apartmentCode: string,
    role: Option<string>)

  /** `User.findOne({ phoneNumber, apartment })`. */
  function FindMember(st: State, phone: string, apartment: Id): (r: Option<Id>)
    ensures r.Some? ==> r.value in st.users && st.users[r.value].phoneNumber == phone && st.users[r.value].apartment == apartment
    ensures r.None? && FreshIds(st) ==>
      forall k :: k in st.users ==> !(st.users[k].phoneNumber == phone && st.users[k].apartment == apartment)
  {
    FindUser(st, (u: User) => u.phoneNumber == phone && u.apartment == apartment)
  }

  /** The shared body of signup-admin and signup-resident; `role` is fixed by the endpoint. */
  function Signup(st: State, crypto: Crypto, role: Role, body: SignupBody): (r: (State, Reply))
    ensures FindApartmentByCode(st, body.apartmentCode).None? ==> r == (st, Failed(400, "Invalid apartment code"))
    ensures (FindApartmentByCode(st, body.apartmentCode).Some? &&
             FindMember(st, body.phoneNumber, FindApartmentByCode(st, body.apartmentCode).value).Some?) ==>
      r == (st, Failed(400, "User already exists in this apartment"))
    ensures r.1.Registered? ==>
      && FindApartmentByCode(st, body.apartmentCode).Some?
      && st.nextId in r.0.users
      && var u := r.0.users[st.nextId];
      && r.0.users == st.users[st.nextId := u]
      && u == User(body.phoneNumber, body.flatNumber, crypto.hash(body.password), role,
                   FindApartmentByCode(st, body.apartmentCode).value)
      && ValidUser(UserDocOf(u))
      && r.0.apartments == st.apartments && r.0.complaints == st.complaints && r.0.nextId > st.nextId
    ensures !r.1.Registered? ==> r.0 == st && StatusCode(r.1) in {400, 500}
  {
    match FindApartmentByCode(st, body.apartmentCode)
    case None => (st, Failed(400, "Invalid apartment code"))
    case Some(aid) =>
      if FindMember(st, body.phoneNumber, aid).Some? then
        (st, Failed(400, "User already exists in this apartment"))
      else
        var u := User(body.phoneNumber, body.flatNumber, crypto.hash(body.password), role, aid);
        if !ValidUser(UserDocOf(u)) then (st, InternalError)
        else
          var message := if role == Admin then "Admin registered successfully" else "Resident registered successfully";
          (st.(users := st.users[st.nextId := u], nextId := st.nextId + 1), Registered(message))
  }

  /** POST /signup-admin: the stored role is "admin" whatever the body says. */
  function SignupAdmin(st: State, crypto: Crypto, body: SignupBody): (r: (State, Reply))
    ensures r.1.Registered? ==> st.nextId in r.0.users && r.0.users[st.nextId].role == Admin && UserDocOf(r.0.users[st.nextId]).role == Some("admin")
    ensures r.1.Registered? ==> r.1.message == "Admin registered successfully"
  {
    Signup(st, crypto, Admin, body)
  }

  /** POST /signup-resident: the stored role is "resident" whatever the body says. */
  function SignupResident(st: State, crypto: Crypto, body: SignupBody): (r: (State, Reply))
    ensures r.1.Registered? ==> st.nextId in r.0.users && r.0.users[st.nextId].role == Resident && UserDocOf(r.0.users[st.nextId]).role == Some("resident")
    ensures r.1.Registered? ==> r.1.message == "Resident registered successfully"
  {
    Signup(st, crypto, Resident, body)
  }

  const AdminPrefix := "Admin of "
  const ResidentPrefix := "Resident of Flat "

  /** The `name` shown for a session: the apartment's name for an admin, the flat for a resident. */
  function DisplayName(role: Role, apartmentName: string, flatNumber: string): (n: string)
    ensures role == Admin ==>
      |n| >= |AdminPrefix| && n[..|AdminPrefix|] == AdminPrefix && n[|AdminPrefix|..] == apartmentName
    ensures role == Resident ==>
      |n| >= |ResidentPrefix| && n[..|ResidentPrefix|] == ResidentPrefix && n[|ResidentPrefix|..] == flatNumber
  {
    if role == Admin then AdminPrefix + apartmentName else ResidentPrefix + flatNumber
  }

  /** The session answer for a user whose apartment reference resolves. */
  function SessionOf(st: State, u: User): (s: Session)
    requires u.apartment in st.apartments
    ensures s.role == RoleName(u.role) && s.phone == u.phoneNumber && s.flatNumber == u.flatNumber
    ensures s.apartmentCode == st.apartments[u.apartment].apartmentCode && s.apartmentId == u.apartment
    ensures s.name == DisplayName(u.role, st.apartments[u.apartment].name, u.flatNumber)
  {
    var a := st.apartments[u.apartment];
    Session(RoleName(u.role), u.phoneNumber, u.flatNumber, a.apartmentCode, u.apartment, DisplayName(u.role, a.name, u.flatNumber))
  }

  /** `User.findOne({ phoneNumber })`: the phone alone, across all apartments. */
  function FindByPhone(st: State, phone: string): (r: Option<Id>)
    ensures r.Some? ==> r.value in st.users && st.users[r.value].phoneNumber == phone
    ensures r.Some? ==> forall k :: k < r.value && k in st.users ==> st.users[k].phoneNumber != phone
    ensures r.None? && FreshIds(st) ==> forall k :: k in st.users ==> st.users[k].phoneNumber != phone
  {
    FindUser(st, (u: User) => u.phoneNumber == phone)
  }

  /** POST /login: unknown phone 400, wrong password 401, a dangling apartment
      reference 500 (the populated `apartment` is null), otherwise the session. */
  function Login(st: State, crypto: Crypto, phone: string, password: string): (r: Reply)
    ensures FindByPhone(st, phone).None? ==> r == Failed(400, "User not found")
    ensures (FindByPhone(st, phone).Some? &&
             !crypto.compare(password, st.users[FindByPhone(st, phone).value].password)) ==>
      r == Failed(401, "Invalid credentials")
    ensures r.LoggedIn? <==>
      && FindByPhone(st, phone).Some?
      && crypto.compare(password, st.users[FindByPhone(st, phone).value].password)
      && st.users[FindByPhone(st, phone).value].apartment in st.apartments
    ensures r.LoggedIn? ==>
      var u := st.users[FindByPhone(st, phone).value];
      && r.session.role == RoleName(u.role)
      && r.session.flatNumber == u.flatNumber
      && r.session.phone == phone
      && r.session.apartmentId == u.apartment
      && r.session.apartmentCode == st.apartments[u.apartment].apartmentCode
      && r.session.name == DisplayName(u.role, st.apartments[u.apartment].name, u.flatNumber)
  {
    match FindByPhone(st, phone)
    case None => Failed(400, "User not found")
    case Some(id) =>
      var u := st.users[id];
      if !crypto.compare(password, u.password) then Failed(401, "Invalid credentials")
      else if u.apartment !in st.apartments then InternalError
      else LoggedIn(SessionOf(st, u))
  }

  /** POST /validate: unknown phone 404, dangling apartment 500, otherwise the session. */
  function ValidatePhone(st: State, phone: string): (r: Reply)
    ensures FindByPhone(st, phone).None? ==> r == Failed(404, "User not found")
    ensures r.Validated? <==>
      FindByPhone(st, phone).Some? && st.users[FindByPhone(st, phone).value].apartment in st.apartments
    ensures r.Validated? ==>
      var u := st.users[FindByPhone(st, phone).value];
      && r.session.role == RoleName(u.role)
      && r.session.flatNumber == u.flatNumber
      && r.session.phone == phone
      && r.session.apartmentId == u.apartment
      && r.session.apartmentCode == st.apartments[u.apartment].apartmentCode
      && r.session.name == DisplayName(u.role, st.apartments[u.apartment].name, u.flatNumber)
  {
    match FindByPhone(st, phone)
    case None => Failed(404, "User not found")
    case Some(id) =>
      var u := st.users[id];
      if u.apartment !in st.apartments then InternalError else Validated(SessionOf(st, u))
  }

  // ---- properties ----

  /** The display name identifies the role: admins' names, and only theirs, start with "Admin of ". */
  lemma {:induction false} DisplayNameShowsRole(role: Role, apartmentName: string, flatNumber: string)
    ensures var n := DisplayName(role, apartmentName, flatNumber);
      (|n| >= |AdminPrefix| && n[..|AdminPrefix|] == AdminPrefix) <==> role == Admin
  {
    var n := DisplayName(role, apartmentName, flatNumber);
    if role == Admin {
      assert n[..|AdminPrefix|] == AdminPrefix;
    } else {
      assert n[0] == 'R';
    }
  }

  /** Signups keep the store invariant: in particular at most one user per (phone, apartment). */
  lemma {:induction false} SignupPreservesInv(st: State, crypto: Crypto, role: Role, body: SignupBody)
    requires Inv(st)
    ensures Inv(Signup(st, crypto, role, body).0)
  {
    var (st', reply) := Signup(st, crypto, role, body);
    if reply.Registered? {
      var aid := FindApartmentByCode(st, body.apartmentCode).value;
      assert FindMember(st, body.phoneNumber, aid).None?;
      var u := st'.users[st.nextId];
      forall a, b | a in st'.users && b in st'.users && a != b
        ensures !(st'.users[a].phoneNumber == st'.users[b].phoneNumber && st'.users[a].apartment == st'.users[b].apartment)
      {
        if a == st.nextId {
          assert b in st.users;
        } else if b == st.nextId {
          assert a in st.users;
        } else {
          assert a in st.users && b in st.users;
        }
      }
    }
  }

  /** Registering an apartment keeps the store invariant: codes stay unique. */
  lemma {:induction false} RegisterPreservesInv(st: State, name: string, code: string)
    requires Inv(st)
    ensures Inv(RegisterApartment(st, name, code).0)
  {
    var (st', reply) := RegisterApartment(st, name, code);
    if reply.ApartmentRegistered? {
      forall a, b | a in st'.apartments && b in st'.apartments && a != b
        ensures st'.apartments[a].apartmentCode != st'.apartments[b].apartmentCode
      {
        if a == st.nextId {
          assert b in st.apartments;
        } else if b == st.nextId {
          assert a in st.apartments;
        }
      }
    }
  }

  /** A second registration of the same code fails and changes nothing. */
  lemma {:induction false} DuplicateCodeRejected(st: State, name1: string, name2: string, code: string)
    requires RegisterApartment(st, name1, code).1.ApartmentRegistered?
    ensures var st1 := RegisterApartment(st, name1, code).0;
      RegisterApartment(st1, name2, code) == (st1, InternalError)
  {
    var st1 := RegisterApartment(st, name1, code).0;
    assert st1.apartments[st.nextId].apartmentCode == code;
  }

  /** The same phone number may join a second apartment: the uniqueness check is per apartment. */
  lemma {:induction false} SamePhoneOtherApartment(st: State, crypto: Crypto, role: Role, body: SignupBody, other: Id)
    requires Inv(st) && Sound(crypto)
    requires FindApartmentByCode(st, body.apartmentCode).Some?
    requires body.phoneNumber != "" && body.flatNumber != ""
    requires forall k :: k in st.users && st.users[k].apartment == FindApartmentByCode(st, body.apartmentCode).value ==>
      st.users[k].phoneNumber != body.phoneNumber
    ensures Signup(st, crypto, role, body).1.Registered?
  {
    var aid := FindApartmentByCode(st, body.apartmentCode).value;
    assert FindMember(st, body.phoneNumber, aid).None?;
    assert crypto.hash(body.password) != "";
    assert ValidUser(UserDocOf(User(body.phoneNumber, body.flatNumber, crypto.hash(body.password), role, aid)));
  }

  /** A user just signed up logs in with the same password, unless an earlier user
      (in any apartment) has the same phone number: login looks up the phone alone. */
  lemma {:induction false} SignupThenLogin(st: State, crypto: Crypto, role: Role, body: SignupBody)
    requires Inv(st) && Sound(crypto)
    requires Signup(st, crypto, role, body).1.Registered?
    requires forall k :: k in st.users ==> st.users[k].phoneNumber != body.phoneNumber
    ensures var st' := Signup(st, crypto, role, body).0;
      var r := Login(st', crypto, body.phoneNumber, body.password);
      r.LoggedIn? && r.session.role == RoleName(role) && r.session.flatNumber == body.flatNumber
  {
    var st' := Signup(st, crypto, role, body).0;
    var f := FindByPhone(st', body.phoneNumber);
    assert st'.users[st.nextId].phoneNumber == body.phoneNumber;
    assert f.Some? by {
      assert FreshIds(st') by { SignupPreservesInv(st, crypto, role, body); }
    }
    assert f.value == st.nextId;
    assert crypto.compare(body.password, crypto.hash(body.password));
  }

  /** Validate is login without the password: both look the phone up the same way,
      validate's 404 is login's 400, and when the password matches the two give the
      same session or both fail. */
  lemma {:induction false} ValidateIsLoginWithoutPassword(st: State, crypto: Crypto, phone: string, password: string)
    ensures ValidatePhone(st, phone) == Failed(404, "User not found") <==> Login(st, crypto, phone, password) == Failed(400, "User not found")
    ensures Login(st, crypto, phone, password).LoggedIn? ==>
      ValidatePhone(st, phone).Validated? && ValidatePhone(st, phone).session == Login(st, crypto, phone, password).session
    ensures FindByPhone(st, phone).Some? && crypto.compare(password, st.users[FindByPhone(st, phone).value].password) ==>
      (ValidatePhone(st, phone).Validated? <==> Login(st, crypto, phone, password).LoggedIn?)
  {
  }
}
