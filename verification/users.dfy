/**
 * The users collection: registration (insert unless the email is already
 * stored), promotion to admin, removal, and the two read routes (the list for
 * admins, the "am I an admin" check for the caller's own email).
 */
module Users {
  import opened Records
  import opened Access

  /** No two user documents share an email. */
  predicate UniqueEmails(users: map<Id, User>)
  {
    forall a, b :: a in users && b in users && users[a].email == users[b].email ==> a == b
  }

  /** `findOne({ email })` finds a document. */
  predicate EmailTaken(users: map<Id, User>, email: string)
  {
    exists id :: id in users && users[id].email == email
  }

  /**
   * The users collection after registering body `u`, where `newId` is the
   * `_id` the driver would give a new document.
   */
  function Registered(users: map<Id, User>, u: User, newId: Id): (r: map<Id, User>)
    ensures EmailTaken(r, u.email)
    ensures users.Keys <= r.Keys <= users.Keys + {newId}
    ensures forall k :: k in users && k != newId ==> k in r && r[k] == users[k]
  {
    if EmailTaken(users, u.email) then users
    else
      var r := users[newId := u];
      assert r[newId].email == u.email;
      r
  }

  /** The users collection after `updateOne({ _id: id }, { $set: { role: 'admin' } })`. */
  function Promoted(users: map<Id, User>, id: Id): (r: map<Id, User>)
    ensures r.Keys == users.Keys
    ensures forall k :: k in users ==> r[k].email == users[k].email && r[k].name == users[k].name
    ensures forall k :: k in users ==> r[k].role == if k == id then AdminRole else users[k].role
  {
    if id in users then users[id := users[id].(role := AdminRole)] else users
  }

  /**
   * Registration adds a user exactly when the email is new, and so keeps emails
   * unique; registering the same email again changes nothing.
   */
  lemma RegistrationKeepsEmailsUnique(users: map<Id, User>, u: User, newId: Id)
    requires UniqueEmails(users) && newId !in users
    ensures UniqueEmails(Registered(users, u, newId))
    ensures EmailTaken(users, u.email) ==> Registered(users, u, newId) == users
    ensures !EmailTaken(users, u.email) ==>
      |Registered(users, u, newId)| == |users| + 1 &&
      Registered(users, u, newId) - {newId} == users &&
      Registered(users, u, newId)[newId] == u
    ensures EmailTaken(Registered(users, u, newId), u.email)
  {
    var r := Registered(users, u, newId);
    if !EmailTaken(users, u.email) {
      assert r == users[newId := u];
      assert r.Keys == users.Keys + {newId};
      assert r - {newId} == users;
      assert r[newId].email == u.email;
    }
  }

  /** A second registration of the same body is a no-op, whatever `_id` it would get. */
  lemma RegisterTwiceIsRegisterOnce(users: map<Id, User>, u: User, newId: Id, newId': Id)
    requires UniqueEmails(users) && newId !in users
    ensures Registered(Registered(users, u, newId), u, newId') == Registered(users, u, newId)
  {
    RegistrationKeepsEmailsUnique(users, u, newId);
  }

  /**
   * The body is stored as sent, role included: registering a new email with
   * role "admin" yields a caller that passes the admin gate.
   */
  lemma RegistrationCanClaimAdmin(users: map<Id, User>, u: User, newId: Id)
    requires UniqueEmails(users) && newId !in users
    requires !EmailTaken(users, u.email) && u.role == AdminRole
    ensures VerifyAdmin(Registered(users, u, newId), Claims(u.email)).Pass?
  {
    assert Registered(users, u, newId)[newId] == u;
  }

  /**
   * Promotion makes exactly the one user an admin, keeps every other document
   * and every email, and promoting again changes nothing.
   */
  lemma PromotionSetsOneRole(users: map<Id, User>, id: Id)
    requires id in users
    ensures Promoted(users, id).Keys == users.Keys
    ensures Promoted(users, id)[id] == users[id].(role := AdminRole)
    ensures forall k :: k in users && k != id ==> Promoted(users, id)[k] == users[k]
    ensures Promoted(Promoted(users, id), id) == Promoted(users, id)
    ensures UniqueEmails(users) ==> UniqueEmails(Promoted(users, id))
    ensures IsAdmin(Promoted(users, id), users[id].email)
  {
    var p := Promoted(users, id);
    assert p[id].email == users[id].email && p[id].role == AdminRole;
  }

  /**
   * With unique emails, `verifyAdmin`'s `findOne` + role test agrees with
   * `IsAdmin`: the email's one user decides.
   */
  lemma AdminIsTheUserWithThatEmail(users: map<Id, User>, id: Id)
    requires UniqueEmails(users) && id in users
    ensures IsAdmin(users, users[id].email) <==> users[id].role == AdminRole
  {
    if IsAdmin(users, users[id].email) {
      var k :| k in users && users[k].email == users[id].email && users[k].role == AdminRole;
      assert k == id;
    }
  }

  /** The very next admin check after a promotion lets the promoted user through. */
  lemma PromotionTakesEffect(users: map<Id, User>, id: Id)
    requires id in users
    ensures VerifyAdmin(Promoted(users, id), Claims(users[id].email)).Pass?
  {
    PromotionSetsOneRole(users, id);
  }

  /** Deleting an admin's document revokes admin access for that email at once. */
  lemma RemovalRevokesAdmin(users: map<Id, User>, id: Id)
    requires UniqueEmails(users) && id in users
    ensures UniqueEmails(users - {id})
    ensures !IsAdmin(users - {id}, users[id].email)
    ensures VerifyAdmin(users - {id}, Claims(users[id].email)) == Deny(Forbidden)
  {
  }

  /** GET /users: the whole collection, for admins only. */
  function ListUsers(users: map<Id, User>, c: Credential): (r: Reply<map<Id, User>>)
    ensures r.Sent? <==> c.Claims? && IsAdmin(users, c.email)
    ensures r.Sent? ==> r.body == users
    ensures r.Refused? ==> r.status == (if c.Claims? then Forbidden else Unauthorized)
  {
    match VerifyAdmin(users, c)
    case Deny(s) => Refused(s)
    case Pass(_) => Sent(users)
  }

  /**
   * GET /users/admin/:email: the caller may ask only about their own email, and
   * learns whether it belongs to a stored admin (false when no user has it).
   */
  function AdminStatus(users: map<Id, User>, c: Credential, pathEmail: string): (r: Reply<bool>)
    ensures r.Sent? <==> c.Claims? && c.email == pathEmail
    ensures r.Sent? ==> (r.body <==> IsAdmin(users, pathEmail))
    ensures r.Sent? && !EmailTaken(users, pathEmail) ==> !r.body
    ensures r.Refused? ==> r.status == (if c.Claims? then Forbidden else Unauthorized)
  {
    match VerifySelf(c, pathEmail)
    case Deny(s) => Refused(s)
    case Pass(email) => Sent(IsAdmin(users, email))
  }
}
