/** The bearer-token gate (`authenticateUser`): extract the token from the
    Authorization header, verify it, resolve the user, then either hand over to
    the route handler (`next`) or answer 401. Token verification is a parameter:
    `verify(token)` yields the user id in the payload, or `None` when it throws. */
module Gateway {
  import opened Common
  import opened Text
  import opened Schema
  import opened Store

  const BearerPrefix := "Bearer "
  const Unauthorized := 401

  /** Either `next()` runs with `req.user` set, or the request ends with 401 and a message. */
  datatype AuthOutcome = Next(userId: Id, user: User) | Reject(status: nat, error: string)

  /** The header with the first "Bearer " removed; an absent header or an empty result is no token. */
  function ExtractToken(header: Option<string>): (r: Option<string>)
    ensures header.None? ==> r.None?
    ensures r.Some? ==> r.value != "" && r.value == ReplaceFirst(header.value, BearerPrefix, "")
    ensures header.Some? && ReplaceFirst(header.value, BearerPrefix, "") != "" ==> r.Some?
  {
    match header
    case None => None
    case Some(h) =>
      var token := ReplaceFirst(h, BearerPrefix, "");
      if token == "" then None else Some(token)
  }

  function Authenticate(st: State, verify: string -> Option<Id>, header: Option<string>): (r: AuthOutcome)
    ensures r.Reject? ==> r.status == Unauthorized
    ensures ExtractToken(header).None? ==> r == Reject(401, "Authentication required")
    ensures (ExtractToken(header).Some? && verify(ExtractToken(header).value).None?) ==>
      r == Reject(401, "Invalid token")
    ensures (ExtractToken(header).Some? && verify(ExtractToken(header).value).Some? &&
             verify(ExtractToken(header).value).value !in st.users) ==> r == Reject(401, "User not found")
    ensures r.Next? <==>
      && ExtractToken(header).Some?
      && verify(ExtractToken(header).value).Some?
      && verify(ExtractToken(header).value).value in st.users
    ensures r.Next? ==>
      r.userId == verify(ExtractToken(header).value).value && r.user == st.users[r.userId]
  {
    match ExtractToken(header)
    case None => Reject(Unauthorized, "Authentication required")
    case Some(token) =>
      match verify(token)
      case None => Reject(Unauthorized, "Invalid token")
      case Some(id) =>
        if id in st.users then Next(id, st.users[id]) else Reject(Unauthorized, "User not found")
  }

  /** A missing header, and a header that is exactly "Bearer ", both end in
      401 "Authentication required" without consulting the verifier. */
  lemma {:induction false} NoCredential(st: State, verify: string -> Option<Id>)
    ensures Authenticate(st, verify, None) == Reject(401, "Authentication required")
    ensures Authenticate(st, verify, Some("Bearer ")) == Reject(401, "Authentication required")
  {
    ReplaceLeading(BearerPrefix, "");
    assert BearerPrefix + "" == "Bearer ";
  }

  /** A well-formed header "Bearer <t>" with a non-empty `t` hands exactly `t` to the verifier. */
  lemma {:induction false} BearerTokenIsVerified(st: State, verify: string -> Option<Id>, t: string)
    requires t != ""
    ensures ExtractToken(Some(BearerPrefix + t)) == Some(t)
    ensures (verify(t).Some? && verify(t).value in st.users) <==>
      Authenticate(st, verify, Some(BearerPrefix + t)).Next?
  {
    ReplaceLeading(BearerPrefix, t);
  }
}
