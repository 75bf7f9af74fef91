/** Buyer accounts (controller/user.js): registration, e-mail verification
    and its resend, login, the address book, the password change and the
    forgotten-password reset.  The credential rules are those of module
    Accounts; this module applies them to the user collection. */
module Users {
  import opened Common
  import opened Entities
  import opened Store
  import opened Accounts

  /** The registration form. */
  datatype Registration = Registration(
    firstname: string, lastname: string, email: string, phoneNumber: string, password: string)

  /** `User.findOne({ email })` finds a record. */
  predicate EmailTaken(users: map<Id, User>, email: string)
  {
    exists id :: id in users && users[id].auth.email == email
  }

  /** No two users share an e-mail address, so that `findOne({ email })`
      identifies at most one account. */
  predicate EmailsUnique(users: map<Id, User>)
  {
    forall a, b :: a in users && b in users && users[a].auth.email == users[b].auth.email ==> a == b
  }

  function NewUser(r: Registration, signupCode: string): User
  {
    User(r.firstname, r.lastname, r.phoneNumber, NewCredentials(r.email, r.password, signupCode), [])
  }

  /** The duplicate check at registration keeps e-mails unique, and so
      does any change that leaves a user's e-mail as it was. */
  lemma EmailsStayUnique(users: map<Id, User>, id: Id, u: User)
    requires EmailsUnique(users)
    requires if id in users then u.auth.email == users[id].auth.email else !EmailTaken(users, u.auth.email)
    ensures EmailsUnique(users[id := u])
  {
    var after := users[id := u];
    forall a, b | a in after && b in after && after[a].auth.email == after[b].auth.email
      ensures a == b
    {
      if id in users {
        assert after[a].auth.email == users[a].auth.email;
        assert after[b].auth.email == users[b].auth.email;
      }
    }
  }

  // ---------------------------------------------------------------------
  // Registration and verification
  // ---------------------------------------------------------------------

  /** `/register`: a body that fails validation or an e-mail already in
      use is refused with 400 and nothing is created; otherwise a new,
      unverified user with a fresh six-character sign-up code. */
  method Register(db: Db, r: Registration, bodyValid: bool) returns (code: int, id: Id, signupCode: string)
    modifies db`users
    ensures !bodyValid || EmailTaken(old(db.users), r.email) ==> code == BAD_REQUEST && db.users == old(db.users)
    ensures bodyValid && !EmailTaken(old(db.users), r.email) ==>
      && code == CREATED
      && id !in old(db.users)
      && IsSignupCode(signupCode)
      && db.users == old(db.users)[id := NewUser(r, signupCode)]
  {
    code, id, signupCode := BAD_REQUEST, 0, "";
    if !bodyValid {
      return;
    }
    if exists other :: other in db.users && db.users[other].auth.email == r.email {
      return;
    }
    signupCode := NewSignupCode();
    FreshIdExists(db.users.Keys);
    id :| id !in db.users;
    db.users := db.users[id := User(r.firstname, r.lastname, r.phoneNumber,
                                     Credentials(r.email, r.password, false, Some(signupCode), None, None), [])];
    code := CREATED;
  }

  /** `/verify-email/:userId/:verificationCode`. */
  method VerifyUserEmail(db: Db, userId: Id, verificationCode: string) returns (code: int)
    modifies db`users
    ensures userId !in old(db.users) ==> code == NOT_FOUND && db.users == old(db.users)
    ensures userId in old(db.users) ==>
      var u := old(db.users)[userId];
      && code == VerifyStatus(u.auth, verificationCode)
      && db.users == old(db.users)[userId := u.(auth := Verify(u.auth, verificationCode))]
  {
    if userId !in db.users {
      return NOT_FOUND;
    }
    var user := db.users[userId];
    if user.auth.isEmailVerified {
      return OK;
    }
    if user.auth.emailVerificationCode != Some(verificationCode) {
      return BAD_REQUEST;
    }
    user := user.(auth := user.auth.(isEmailVerified := true, emailVerificationCode := None));
    db.users := db.users[userId := user];
    code := OK;
  }

  /** `/resend-verification-code`: `who` is the account `findOne` returned. */
  method ResendVerificationCode(db: Db, email: string) returns (code: int, who: Option<Id>, newCode: string)
    modifies db`users
    ensures who.None? <==> !EmailTaken(old(db.users), email)
    ensures who.None? ==> code == NOT_FOUND && db.users == old(db.users)
    ensures who.Some? ==>
      && who.value in old(db.users)
      && var u := old(db.users)[who.value];
      && u.auth.email == email
      && code == OK
      && (!u.auth.isEmailVerified ==> IsDigitCode(newCode))
      && db.users == old(db.users)[who.value := u.(auth := Resend(u.auth, newCode))]
  {
    newCode := "";
    if !exists id :: id in db.users && db.users[id].auth.email == email {
      return NOT_FOUND, None, newCode;
    }
    var id :| id in db.users && db.users[id].auth.email == email;
    who := Some(id);
    var user := db.users[id];
    if user.auth.isEmailVerified {
      return OK, who, newCode;
    }
    newCode := GenerateNewVerificationCode();
    user := user.(auth := user.auth.(emailVerificationCode := Some(newCode)));
    db.users := db.users[id := user];
    code := OK;
  }

  // ---------------------------------------------------------------------
  // Login
  // ---------------------------------------------------------------------

  /** The credentials of the account a lookup returned, if any. */
  function AccountOf(users: map<Id, User>, who: Option<Id>): Option<Credentials>
  {
    if who.Some? && who.value in users then Some(users[who.value].auth) else None
  }

  /** `/login`: nothing is changed; the reply is the login gate's verdict
      on the account `findOne` returned (200 on success). */
  method Login(db: Db, email: string, password: string, bodyValid: bool,
               checkPassword: (string, string) -> bool) returns (code: int, who: Option<Id>)
    ensures who.Some? <==> bodyValid && email != "" && password != "" && EmailTaken(db.users, email)
    ensures who.Some? ==> who.value in db.users && db.users[who.value].auth.email == email
    ensures code == if !bodyValid then BAD_REQUEST
                    else LoginReply(LoginGate(email, password, AccountOf(db.users, who), checkPassword), OK)
  {
    who := None;
    if !bodyValid {
      return BAD_REQUEST, who;
    }
    if email == "" || password == "" {
      return BAD_REQUEST, who;
    }
    if !exists id :: id in db.users && db.users[id].auth.email == email {
      return BAD_REQUEST, who;
    }
    var id :| id in db.users && db.users[id].auth.email == email;
    who := Some(id);
    var user := db.users[id];
    if !user.auth.isEmailVerified {
      return BAD_REQUEST, who;
    }
    if !checkPassword(password, user.auth.password) {
      return BAD_REQUEST, who;
    }
    code := OK;
  }

  // ---------------------------------------------------------------------
  // Address book
  // ---------------------------------------------------------------------

  function AddressType(a: Address): Option<string>
  {
    Get(a, "addressType")
  }

  /** `address._id === body._id`, for a body that names an `_id`. */
  predicate SameId(a: Address, body: Address)
  {
    "_id" in body && Get(a, "_id") == Get(body, "_id")
  }

  /** `addresses.find(a => a.addressType === body.addressType)` succeeds. */
  predicate HasAddressType(addresses: seq<Address>, t: Option<string>)
  {
    exists i :: 0 <= i < |addresses| && AddressType(addresses[i]) == t
  }

  /** No two addresses of a user have the same type. */
  predicate TypesDistinct(addresses: seq<Address>)
  {
    forall i, j :: 0 <= i < j < |addresses| ==> AddressType(addresses[i]) != AddressType(addresses[j])
  }

  /** The index `addresses.find(a => a._id === body._id)` returns. */
  function FindSameId(addresses: seq<Address>, body: Address): (r: Option<nat>)
    ensures r.Some? ==> r.value < |addresses| && SameId(addresses[r.value], body)
    ensures r.Some? ==> forall k :: 0 <= k < r.value ==> !SameId(addresses[k], body)
    ensures r.None? ==> forall k :: 0 <= k < |addresses| ==> !SameId(addresses[k], body)
  {
    if addresses == [] then None
    else if SameId(addresses[0], body) then Some(0)
    else match FindSameId(addresses[1..], body)
      case None => None
      case Some(k) => Some(k + 1)
  }

  /** No address of the list carries `id` as its `_id`. */
  predicate IdUnused(addresses: seq<Address>, id: string)
  {
    forall j :: 0 <= j < |addresses| ==> Get(addresses[j], "_id") != Some(id)
  }

  /** Every address carries an `_id`, and no two carry the same one. */
  predicate IdsDistinct(addresses: seq<Address>)
  {
    && (forall j :: 0 <= j < |addresses| ==> "_id" in addresses[j])
    && (forall i, j :: 0 <= i < j < |addresses| ==> Get(addresses[i], "_id") != Get(addresses[j], "_id"))
  }

  /** An `_id` longer than every `_id` in the list, so held by none of them. */
  function UnusedId(addresses: seq<Address>): (r: string)
    ensures forall j :: 0 <= j < |addresses| && "_id" in addresses[j] ==> |addresses[j]["_id"]| < |r|
    ensures IdUnused(addresses, r)
  {
    if addresses == [] then "a"
    else
      var rest := UnusedId(addresses[1..]);
      if "_id" in addresses[0] && |addresses[0]["_id"]| >= |rest| then addresses[0]["_id"] + "a" else rest
  }

  /** The subdocument Mongoose stores for a pushed address: the body's own
      `_id` when it names one, otherwise `generated`, the id Mongoose generates for it. */
  function WithId(body: Address, generated: string): Address
  {
    if "_id" in body then body else body["_id" := generated]
  }

  /** `Object.assign(existing, body)` on the address with the same `_id`,
      or `push(body)` when there is none; a pushed body without an `_id`
      is given `generated`. */
  function UpsertAddress(addresses: seq<Address>, body: Address, generated: string): seq<Address>
  {
    match FindSameId(addresses, body)
    case Some(i) => addresses[i := addresses[i] + body]
    case None => addresses + [WithId(body, generated)]
  }

  /** An upsert of an address whose type is not yet in use: the body's
      fields all end up in one address (the one with its `_id`, else a new
      last one, which carries the generated id when the body names none),
      every other address is untouched, and both the types and the `_id`s
      stay distinct. */
  lemma UpsertAddressSpec(addresses: seq<Address>, body: Address, generated: string)
    requires !HasAddressType(addresses, AddressType(body))
    requires IdUnused(addresses, generated)
    ensures var r := UpsertAddress(addresses, body, generated);
      var i := if FindSameId(addresses, body).Some? then FindSameId(addresses, body).value else |addresses|;
      && |r| == (if FindSameId(addresses, body).Some? then |addresses| else |addresses| + 1)
      && i < |r|
      && (forall k :: k in body ==> k in r[i] && r[i][k] == body[k])
      && (FindSameId(addresses, body).None? && "_id" !in body ==> Get(r[i], "_id") == Some(generated))
      && (forall j :: 0 <= j < |addresses| && j != i ==> r[j] == addresses[j])
      && (TypesDistinct(addresses) ==> TypesDistinct(r))
      && (IdsDistinct(addresses) ==> IdsDistinct(r))
  {
    var r := UpsertAddress(addresses, body, generated);
    if TypesDistinct(addresses) {
      forall a, b | 0 <= a < b < |r|
        ensures AddressType(r[a]) != AddressType(r[b])
      {
        assert forall j :: 0 <= j < |addresses| ==> AddressType(addresses[j]) != AddressType(body);
        match FindSameId(addresses, body)
        case None =>
        case Some(i) =>
          assert AddressType(r[i]) == if "addressType" in body then AddressType(body) else AddressType(addresses[i]);
      }
    }
    if IdsDistinct(addresses) {
      UpsertKeepsIdsDistinct(addresses, body, generated);
    }
  }

  /** The merged address keeps its `_id`; a pushed one carries an `_id` no
      other address holds. */
  lemma UpsertKeepsIdsDistinct(addresses: seq<Address>, body: Address, generated: string)
    requires IdUnused(addresses, generated) && IdsDistinct(addresses)
    ensures IdsDistinct(UpsertAddress(addresses, body, generated))
  {
    match FindSameId(addresses, body)
    case None =>
      var n := WithId(body, generated);
      assert forall j :: 0 <= j < |addresses| ==> Get(addresses[j], "_id") != Get(n, "_id");
    case Some(i) =>
      assert Get(addresses[i] + body, "_id") == Get(addresses[i], "_id");
  }

  /** `$pull: { addresses: { _id: addressId } }`. */
  function WithoutAddress(addresses: seq<Address>, addressId: string): seq<Address>
  {
    if addresses == [] then []
    else if Get(addresses[0], "_id") == Some(addressId) then WithoutAddress(addresses[1..], addressId)
    else [addresses[0]] + WithoutAddress(addresses[1..], addressId)
  }

  /** Exactly the addresses with that `_id` go; the others stay. */
  lemma {:induction false} WithoutAddressMembers(addresses: seq<Address>, addressId: string)
    ensures forall a :: a in WithoutAddress(addresses, addressId) <==> a in addresses && Get(a, "_id") != Some(addressId)
  {
    if addresses != [] {
      assert addresses == [addresses[0]] + addresses[1..];
      WithoutAddressMembers(addresses[1..], addressId);
    }
  }

  /** The addresses kept are a sub-multiset of the original. */
  lemma {:induction false} WithoutAddressShrinks(addresses: seq<Address>, addressId: string)
    ensures multiset(WithoutAddress(addresses, addressId)) <= multiset(addresses)
  {
    if addresses != [] {
      assert addresses == [addresses[0]] + addresses[1..];
      WithoutAddressShrinks(addresses[1..], addressId);
    }
  }

  /** Removing addresses keeps distinct types distinct. */
  lemma {:induction false} WithoutAddressDistinct(addresses: seq<Address>, addressId: string)
    requires TypesDistinct(addresses)
    ensures TypesDistinct(WithoutAddress(addresses, addressId))
  {
    if addresses != [] {
      var head, tail := addresses[0], addresses[1..];
      assert TypesDistinct(tail) by {
        forall i, j | 0 <= i < j < |tail|
          ensures AddressType(tail[i]) != AddressType(tail[j])
        {
          assert tail[i] == addresses[i + 1] && tail[j] == addresses[j + 1];
        }
      }
      WithoutAddressDistinct(tail, addressId);
      var rest := WithoutAddress(tail, addressId);
      if Get(head, "_id") != Some(addressId) {
        WithoutAddressMembers(tail, addressId);
        var r := [head] + rest;
        forall i, j | 0 <= i < j < |r|
          ensures AddressType(r[i]) != AddressType(r[j])
        {
          if i == 0 {
            assert r[j] in rest;
            var k :| 0 <= k < |tail| && tail[k] == r[j];
            assert addresses[k + 1] == r[j];
          } else {
            assert r[i] == rest[i - 1] && r[j] == rest[j - 1];
          }
        }
      }
    }
  }

  /** `/update-user-addresses` for the signed-in user.  A missing user and
      an address type already in use both end in an error (500).  `newId`
      is the id the database generates for a pushed subdocument: one that
      no address of the user holds yet. */
  method UpdateUserAddresses(db: Db, userId: Id, body: Address, bodyValid: bool) returns (code: int, newId: string)
    modifies db`users
    ensures !bodyValid ==> code == BAD_REQUEST && db.users == old(db.users)
    ensures bodyValid && userId !in old(db.users) ==> code == SERVER_ERROR && db.users == old(db.users)
    ensures bodyValid && userId in old(db.users) ==>
      var u := old(db.users)[userId];
      if HasAddressType(u.addresses, AddressType(body)) then
        code == SERVER_ERROR && db.users == old(db.users)
      else
        && IdUnused(u.addresses, newId)
        && code == OK
        && db.users == old(db.users)[userId := u.(addresses := UpsertAddress(u.addresses, body, newId))]
  {
    newId := "";
    if !bodyValid {
      return BAD_REQUEST, newId;
    }
    if userId !in db.users {
      return SERVER_ERROR, newId;
    }
    var user := db.users[userId];
    if exists i :: 0 <= i < |user.addresses| && AddressType(user.addresses[i]) == Get(body, "addressType") {
      return SERVER_ERROR, newId;
    }
    var addresses := user.addresses;
    ghost var unused := UnusedId(addresses);  // some id is still free
    newId :| IdUnused(addresses, newId);
    var existing := FindSameId(addresses, body);
    if existing.Some? {
      addresses := addresses[existing.value := addresses[existing.value] + body];
    } else if "_id" in body {
      addresses := addresses + [body];
    } else {
      addresses := addresses + [body["_id" := newId]];
    }
    db.users := db.users[userId := user.(addresses := addresses)];
    code := OK;
  }

  /** `/delete-user-address/:id`: always 200; a missing user is left alone. */
  method DeleteUserAddress(db: Db, userId: Id, addressId: string) returns (code: int)
    modifies db`users
    ensures code == OK
    ensures userId !in old(db.users) ==> db.users == old(db.users)
    ensures userId in old(db.users) ==>
      var u := old(db.users)[userId];
      db.users == old(db.users)[userId := u.(addresses := WithoutAddress(u.addresses, addressId))]
  {
    if userId in db.users {
      var user := db.users[userId];
      db.users := db.users[userId := user.(addresses := WithoutAddress(user.addresses, addressId))];
    }
    code := OK;
  }

  // ---------------------------------------------------------------------
  // Passwords
  // ---------------------------------------------------------------------

  /** `/update-user-password`.  After the new password is saved the
      handler fails building its reply (it names a `firstname` it never
      declared), so a successful change is answered with 500. */
  method UpdateUserPassword(db: Db, userId: Id, oldPassword: string, newPassword: string, confirmPassword: string,
                            bodyValid: bool, checkPassword: (string, string) -> bool) returns (code: int)
    modifies db`users
    ensures !bodyValid ==> code == BAD_REQUEST && db.users == old(db.users)
    ensures bodyValid && userId !in old(db.users) ==> code == SERVER_ERROR && db.users == old(db.users)
    ensures bodyValid && userId in old(db.users) ==>
      var u := old(db.users)[userId];
      if !checkPassword(oldPassword, u.auth.password) || newPassword != confirmPassword then
        code == BAD_REQUEST && db.users == old(db.users)
      else
        code == SERVER_ERROR && db.users == old(db.users)[userId := u.(auth := u.auth.(password := newPassword))]
  {
    if !bodyValid {
      return BAD_REQUEST;
    }
    if userId !in db.users {
      return SERVER_ERROR;
    }
    var user := db.users[userId];
    if !checkPassword(oldPassword, user.auth.password) {
      return BAD_REQUEST;
    }
    if newPassword != confirmPassword {
      return BAD_REQUEST;
    }
    user := user.(auth := user.auth.(password := newPassword));
    db.users := db.users[userId := user];
    code := SERVER_ERROR;
  }

  /** `/forgot-password`: `who` is the account `findOne` returned and
      `token` the token mailed to it. */
  method ForgotPassword(db: Db, email: string, bodyValid: bool, now: int) returns (code: int, who: Option<Id>, token: string)
    modifies db`users
    ensures who.Some? <==> bodyValid && EmailTaken(old(db.users), email)
    ensures !bodyValid ==> code == BAD_REQUEST && db.users == old(db.users)
    ensures bodyValid && who.None? ==> code == NOT_FOUND && db.users == old(db.users)
    ensures who.Some? ==>
      && who.value in old(db.users)
      && var u := old(db.users)[who.value];
      && u.auth.email == email
      && code == OK && IsResetToken(token)
      && db.users == old(db.users)[who.value := u.(auth := IssueReset(u.auth, token, now))]
  {
    who, token := None, "";
    if !bodyValid {
      return BAD_REQUEST, who, token;
    }
    token := NewResetToken();
    var resetTokenExpiry := now + RESET_WINDOW_MS;
    if !exists id :: id in db.users && db.users[id].auth.email == email {
      return NOT_FOUND, who, token;
    }
    var id :| id in db.users && db.users[id].auth.email == email;
    who := Some(id);
    var user := db.users[id];
    user := user.(auth := user.auth.(resetPasswordToken := Some(token), resetPasswordExpiry := Some(resetTokenExpiry)));
    db.users := db.users[id := user];
    code := OK;
  }

  /** `/reset-password` (the form's POST): `who` is the account whose
      unexpired token matched. */
  method ResetPassword(db: Db, token: string, newPassword: string, confirmPassword: string, now: int)
    returns (code: int, who: Option<Id>)
    modifies db`users
    ensures who.Some? <==> exists id :: id in old(db.users) && CanReset(old(db.users)[id].auth, token, now)
    ensures who.None? ==> code == BAD_REQUEST && db.users == old(db.users)
    ensures who.Some? ==>
      && who.value in old(db.users)
      && var u := old(db.users)[who.value];
      && CanReset(u.auth, token, now)
      && if newPassword != confirmPassword then
           code == BAD_REQUEST && db.users == old(db.users)
         else
           code == OK && db.users == old(db.users)[who.value := u.(auth := ApplyReset(u.auth, newPassword))]
  {
    if !exists id :: id in db.users && CanReset(db.users[id].auth, token, now) {
      return BAD_REQUEST, None;
    }
    var id :| id in db.users && CanReset(db.users[id].auth, token, now);
    who := Some(id);
    if newPassword != confirmPassword {
      return BAD_REQUEST, who;
    }
    var user := db.users[id];
    user := user.(auth := user.auth.(password := newPassword, resetPasswordToken := None, resetPasswordExpiry := None));
    db.users := db.users[id := user];
    code := OK;
  }
}
