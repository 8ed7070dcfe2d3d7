/**
 * The request gates: `verifyToken` (a bearer credential must be present and
 * verify), `verifyAdmin` (the token's user must be stored with role "admin",
 * looked up afresh on every request) and the self-only check that compares a
 * path email with the token's email.
 */
module Access {
  import opened Records

  const Unauthorized: nat := 401
  const Forbidden: nat := 403

  /**
   * What the token verifier hands the handler: no Authorization header, a token
   * that does not verify, or the decoded claims.
   */
  datatype Credential = Missing | Invalid | Claims(email: string)

  /** The outcome of a gate: go on as `email`, or answer with `status`. */
  datatype Gate = Pass(email: string) | Deny(status: nat)

  /** A handler's answer: a body, or an error status sent by a gate. */
  datatype Reply<T> = Sent(body: T) | Refused(status: nat)

  /** Some stored user has this email and the admin role. */
  predicate IsAdmin(users: map<Id, User>, email: string)
  {
    exists id :: id in users && users[id].email == email && users[id].role == AdminRole
  }

  /** `verifyToken`: a missing header and a bad token are both 401. */
  function VerifyToken(c: Credential): (g: Gate)
    ensures g.Pass? <==> c.Claims?
    ensures g.Pass? ==> g.email == c.email
    ensures g.Deny? ==> g.status == Unauthorized
  {
    match c
    case Claims(email) => Pass(email)
    case _ => Deny(Unauthorized)
  }

  /**
   * `verifyToken` followed by `verifyAdmin`: a verified caller who is not a
   * stored admin (including one with no user document at all) gets 403.
   */
  function VerifyAdmin(users: map<Id, User>, c: Credential): (g: Gate)
    ensures g.Pass? <==> c.Claims? && IsAdmin(users, c.email)
    ensures g.Pass? ==> g.email == c.email
    ensures g.Deny? ==> g.status == (if c.Claims? then Forbidden else Unauthorized)
  {
    match VerifyToken(c)
    case Deny(s) => Deny(s)
    case Pass(email) => if IsAdmin(users, email) then Pass(email) else Deny(Forbidden)
  }

  /**
   * `verifyToken` followed by the self-only check of a route keyed by
   * `pathEmail`: only the token's own email passes (no admin override).
   */
  function VerifySelf(c: Credential, pathEmail: string): (g: Gate)
    ensures g.Pass? <==> c.Claims? && c.email == pathEmail
    ensures g.Pass? ==> g.email == pathEmail
    ensures g.Deny? ==> g.status == (if c.Claims? then Forbidden else Unauthorized)
  {
    match VerifyToken(c)
    case Deny(s) => Deny(s)
    case Pass(email) => if email != pathEmail then Deny(Forbidden) else Pass(email)
  }
}
